/** The relay makes progress: every committed drain spends publishing attempts that are never
    given back, so without new completions finitely many drains leave nothing pending. */
module CompletionProgress {
  import opened GradingRows
  import opened GradingJob
  import opened Outbox
  import opened CompletionProtocol
  import opened CompletionSafety
  import opened CompletionOutcomes

  /** The rows a relay's commit settles, one publish each. */
  ghost function SpentBy(s: State, l: Label): nat {
    if l.ByRelay? && l.relay.Commit? && l.r in s.relays && s.relays[l.r].Open? then |s.relays[l.r].claim| else 0
  }

  /** The attempts a completion brings with the outbox row it inserts. */
  function GrantedBy(cfg: Config, s: State, l: Label): nat {
    if l.ByGateway? && l.g.Complete? && l.g.sid !in s.outbox then cfg.relayMaxAttempts else 0
  }

  ghost function Spent(cfg: Config, s: State, ls: seq<Label>): nat
    requires Runs(cfg, s, ls)
    decreases |ls|
  {
    if ls == [] then 0 else SpentBy(s, ls[0]) + Spent(cfg, Do(cfg, s, ls[0]), ls[1..])
  }

  ghost function Granted(cfg: Config, s: State, ls: seq<Label>): nat
    requires Runs(cfg, s, ls)
    decreases |ls|
  {
    if ls == [] then 0 else GrantedBy(cfg, s, ls[0]) + Granted(cfg, Do(cfg, s, ls[0]), ls[1..])
  }

  lemma CommitSpends(cfg: Config, s: State, r: ActorId)
    requires Inv(cfg, s)
    requires RelayCan(cfg, s, r, Commit)
    ensures Budget(RelayDoes(cfg, s, r, Commit).outbox, cfg.relayMaxAttempts) + |s.relays[r].claim|
         <= Budget(s.outbox, cfg.relayMaxAttempts)
  {
    var cap, me := cfg.relayMaxAttempts, s.relays[r];
    assert RelayOk(s, me);
    forall i | 0 <= i < |me.claim|
      ensures IsPending(s.outbox, me.claim[i]) && s.outbox[me.claim[i]].attempts < cap
    {
      assert Accounted(cfg, s, me.claim[i]);
    }
    DrainSpendsBudget(s.outbox, me.claim, me.confirmed, cap);
  }

  lemma StepSpends(cfg: Config, s: State, l: Label)
    requires Inv(cfg, s)
    requires Can(cfg, s, l)
    ensures Budget(Do(cfg, s, l).outbox, cfg.relayMaxAttempts) + SpentBy(s, l)
         <= Budget(s.outbox, cfg.relayMaxAttempts) + GrantedBy(cfg, s, l)
  {
    if l.ByRelay? && l.relay.Commit? {
      CommitSpends(cfg, s, l.r);
    } else if l.ByGateway? && l.g.Complete? {
      BudgetOfInsert(s.outbox, l.g.sid, l.g.now, cfg.relayMaxAttempts);
    } else if l.ByConsumer? {
      ConsumerFields(cfg, s, l.c, l.consumer);
    }
  }

  /** Over any run, the rows settled by commits never exceed the attempts there were to spend. */
  lemma {:induction false} DrainsAreBounded(cfg: Config, s: State, ls: seq<Label>)
    requires Inv(cfg, s)
    requires Runs(cfg, s, ls)
    ensures Budget(Ends(cfg, s, ls).outbox, cfg.relayMaxAttempts) + Spent(cfg, s, ls)
         <= Budget(s.outbox, cfg.relayMaxAttempts) + Granted(cfg, s, ls)
    decreases |ls|
  {
    if ls != [] {
      StepSpends(cfg, s, ls[0]);
      StepKeeps(cfg, s, ls[0]);
      DrainsAreBounded(cfg, Do(cfg, s, ls[0]), ls[1..]);
    }
  }

  /** From any reachable state, once the commits of a run without new rows have settled as many
      rows as there were attempts left, no outbox row is pending any more. */
  lemma OutboxEmpties(cfg: Config, s: State, ls: seq<Label>, more: seq<Label>)
    requires ValidConfig(cfg) && IsInitial(s)
    requires Runs(cfg, s, ls) && Runs(cfg, Ends(cfg, s, ls), more)
    requires Granted(cfg, Ends(cfg, s, ls), more) == 0
    requires Spent(cfg, Ends(cfg, s, ls), more) >= Budget(Ends(cfg, s, ls).outbox, cfg.relayMaxAttempts)
    ensures var e := Ends(cfg, Ends(cfg, s, ls), more);
            forall id :: id in e.outbox ==> !IsPending(e.outbox, id)
  {
    RunKeeps(cfg, s, ls);
    RunKeeps(cfg, Ends(cfg, s, ls), more);
    DrainsAreBounded(cfg, Ends(cfg, s, ls), more);
    var e := Ends(cfg, Ends(cfg, s, ls), more);
    forall id | IsPending(e.outbox, id)
      ensures e.outbox[id].attempts < cfg.relayMaxAttempts
    {
      assert Accounted(cfg, e, id);
    }
    NoBudgetNoPending(e.outbox, cfg.relayMaxAttempts);
  }

  /** The committed drains of a run that settled any row. */
  ghost function Drains(cfg: Config, s: State, ls: seq<Label>): nat
    requires Runs(cfg, s, ls)
    decreases |ls|
  {
    if ls == [] then 0
    else (if SpentBy(s, ls[0]) > 0 then 1 else 0) + Drains(cfg, Do(cfg, s, ls[0]), ls[1..])
  }

  lemma {:induction false} DrainsSettle(cfg: Config, s: State, ls: seq<Label>)
    requires Runs(cfg, s, ls)
    ensures Drains(cfg, s, ls) <= Spent(cfg, s, ls)
    decreases |ls|
  {
    if ls != [] {
      DrainsSettle(cfg, Do(cfg, s, ls[0]), ls[1..]);
    }
  }

  /** Finitely many drains suffice: without new rows, as many committed non-empty drains as there
      were attempts left leave nothing pending, and there can never be more of them. */
  lemma FinitelyManyDrains(cfg: Config, s: State, ls: seq<Label>, more: seq<Label>)
    requires ValidConfig(cfg) && IsInitial(s)
    requires Runs(cfg, s, ls) && Runs(cfg, Ends(cfg, s, ls), more)
    requires Granted(cfg, Ends(cfg, s, ls), more) == 0
    ensures var m := Ends(cfg, s, ls);
            var budget := Budget(m.outbox, cfg.relayMaxAttempts);
            && Drains(cfg, m, more) <= budget
            && (Drains(cfg, m, more) == budget ==>
                  forall id :: id in Ends(cfg, m, more).outbox ==> !IsPending(Ends(cfg, m, more).outbox, id))
  {
    var m := Ends(cfg, s, ls);
    RunKeeps(cfg, s, ls);
    DrainsAreBounded(cfg, m, more);
    DrainsSettle(cfg, m, more);
    if Drains(cfg, m, more) == Budget(m.outbox, cfg.relayMaxAttempts) {
      OutboxEmpties(cfg, s, ls, more);
    }
  }

  /** A relay that looks finds work exactly when some pending row is not locked by another. */
  lemma ClaimFindsWork(cfg: Config, s: State, r: ActorId, ids: seq<SessionId>)
    requires ValidConfig(cfg)
    requires RelayCan(cfg, s, r, Claim(ids))
    ensures ids != [] <==> exists id :: IsPending(s.outbox, id) && id !in LockedByOthers(s, r)
  {
    if ids != [] {
      assert IsPending(s.outbox, ids[0]) && ids[0] !in LockedByOthers(s, r);
    }
  }

  /** And there is always something a claim may return. */
  lemma {:induction false} ClaimExists(rows: Rows, locked: set<SessionId>, limit: nat) returns (ids: seq<SessionId>)
    ensures IsClaim(rows, locked, ids, limit)
    decreases limit
  {
    var free := set id | id in rows && IsPending(rows, id) && id !in locked;
    if free == {} || limit == 0 {
      ids := [];
      assert forall id :: IsPending(rows, id) && id !in locked ==> id in free;
    } else {
      var oldest := Oldest(rows, free);
      var rest := ClaimExists(rows, locked + {oldest}, limit - 1);
      ids := [oldest] + rest;
      forall i | 0 <= i < |rest|
        ensures rest[i] != oldest && rest[i] in free
      {
        assert rest[i] !in locked + {oldest};
      }
      forall id | IsPending(rows, id) && id !in locked && id !in ids
        ensures |ids| == limit && forall i :: 0 <= i < |ids| ==> rows[ids[i]].createdAt <= rows[id].createdAt
      {
        assert id != oldest && id !in rest;
        assert id in free;
      }
    }
  }

  lemma {:induction false} Oldest(rows: Rows, ids: set<SessionId>) returns (oldest: SessionId)
    requires ids != {} && ids <= rows.Keys
    ensures oldest in ids
    ensures forall id :: id in ids ==> rows[oldest].createdAt <= rows[id].createdAt
    decreases |ids|
  {
    oldest :| oldest in ids;
    if ids != {oldest} {
      var other := Oldest(rows, ids - {oldest});
      if rows[other].createdAt < rows[oldest].createdAt {
        oldest := other;
      }
    }
  }
}
