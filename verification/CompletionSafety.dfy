/** No completion is lost: what every reachable state of the protocol keeps, whatever crashes,
    fails, times out, or is delivered twice. */
module CompletionSafety {
  import opened GradingRows
  import opened GradingJob
  import opened Outbox
  import opened CompletionProtocol

  // ---- The statement ----

  /** The session's message waits in the broker or is unacknowledged in some worker's hands. */
  ghost predicate Queued(s: State, sid: SessionId) {
    Completed(sid) in s.broker.ready || exists c :: c in s.consumers && Holds(s.consumers[c], Completed(sid))
  }

  /** The session needs no message any more: it has a result or skip row, or is gone. */
  predicate Finished(t: Tables, sid: SessionId) {
    sid in t.results || sid in t.skips || Missing(t, sid)
  }

  ghost predicate Delivered(s: State, sid: SessionId) {
    Queued(s, sid) || Finished(s.tables, sid)
  }

  /** A committed completion is still to be published, or exhausted its attempts, or was
      published and its message has not vanished. */
  ghost predicate Accounted(cfg: Config, s: State, sid: SessionId) {
    && sid in s.outbox
    && var row := s.outbox[sid];
       match row.status
       case Pending => row.attempts < cfg.relayMaxAttempts
       case GaveUp => row.attempts == cfg.relayMaxAttempts
       case Published => Delivered(s, sid)
  }

  // ---- The inductive invariant ----

  ghost predicate OutboxOk(cfg: Config, s: State) {
    && (forall sid :: sid in s.outbox <==> sid in s.tables.sessions && s.tables.sessions[sid].completed)
    && (forall sid :: sid in s.outbox ==> Accounted(cfg, s, sid))
  }

  ghost predicate MessagesOk(s: State) {
    && (forall sid :: Completed(sid) in s.broker.ready ==> sid in s.outbox)
    && (forall sid :: sid in s.toPublish ==> sid in s.outbox)
  }

  predicate Reached(t: Tables, sid: SessionId, pc: Pc) {
    (pc.Grade? || pc.RecordFailure? || pc.Upsert?) ==> sid in t.results
  }

  ghost predicate ConsumerOk(cfg: Config, s: State, me: Consumer) {
    me.Busy? ==>
      match me.message
      case Malformed => me.stage == Settling(Reject)
      case Completed(sid) =>
        && sid in s.outbox
        && match me.stage
           case Attempt(n, pc) => n <= cfg.maxAttempts && Reached(s.tables, sid, pc)
           case MarkFailed => true
           case Settling(Ack) => Finished(s.tables, sid)
           case Settling(Reject) => sid in s.tables.results
           case Settling(Nack) => true
  }

  ghost predicate ConsumersOk(cfg: Config, s: State) {
    forall c :: c in s.consumers ==> ConsumerOk(cfg, s, s.consumers[c])
  }

  ghost predicate RelayOk(s: State, me: Relay) {
    me.Open? ==>
      && Distinct(me.claim)
      && AllPending(s.outbox, me.claim)
      && |me.confirmed| <= |me.claim|
      && forall i :: 0 <= i < |me.confirmed| && me.confirmed[i] ==> Delivered(s, me.claim[i])
  }

  ghost predicate Disjoint(p: Relay, q: Relay) {
    p.Open? && q.Open? ==> forall id :: id in p.claim ==> id !in q.claim
  }

  ghost predicate RelaysOk(s: State) {
    && (forall r :: r in s.relays ==> RelayOk(s, s.relays[r]))
    && (forall q, r :: q in s.relays && r in s.relays && q != r ==> Disjoint(s.relays[q], s.relays[r]))
  }

  ghost predicate Inv(cfg: Config, s: State) {
    && ValidConfig(cfg)
    && OutboxOk(cfg, s)
    && MessagesOk(s)
    && ConsumersOk(cfg, s)
    && RelaysOk(s)
  }

  // ---- Delivery is never undone ----

  lemma FinishedIsStable(cfg: Config, s: State, l: Label, sid: SessionId)
    requires Can(cfg, s, l)
    requires sid in s.tables.sessions
    requires Finished(s.tables, sid)
    ensures Finished(Do(cfg, s, l).tables, sid)
  {
    match l
    case ByGateway(g) =>
    case ByRelay(r, step) =>
    case ByConsumer(c, step) =>
      if step.JobAwait? {
        JobStepGrows(s.tables, s.consumers[c].message.sid, cfg.provider, s.consumers[c].stage.pc, step.await);
      }
    case ByScanner(a, step) =>
      if step.ScanAwait? {
        JobStepGrows(s.tables, s.scanners[a].job.value.sid, cfg.provider, s.scanners[a].job.value.pc, step.await);
      }
  }

  /** A message leaves the broker's care only by an acknowledgement or a rejection, and by then
      its session is finished. */
  lemma QueuedOrFinished(cfg: Config, s: State, l: Label, sid: SessionId)
    requires ConsumersOk(cfg, s)
    requires Can(cfg, s, l)
    requires Queued(s, sid)
    ensures Delivered(Do(cfg, s, l), sid)
  {
    var m := Completed(sid);
    var s' := Do(cfg, s, l);
    match l
    case ByGateway(g) =>
      QueuedElsewhere(s, s', sid);
    case ByRelay(r, step) =>
      QueuedElsewhere(s, s', sid);
    case ByScanner(a, step) =>
      QueuedElsewhere(s, s', sid);
    case ByConsumer(c, step) =>
      ConsumerLeavesQueued(cfg, s, c, step, sid);
  }

  lemma ConsumerLeavesQueued(cfg: Config, s: State, c: ActorId, step: ConsumerStep, sid: SessionId)
    requires ConsumersOk(cfg, s)
    requires ConsumerCan(s, c, step)
    requires Queued(s, sid)
    ensures Delivered(ConsumerDoes(cfg, s, c, step), sid)
  {
    var m := Completed(sid);
    var s' := ConsumerDoes(cfg, s, c, step);
    ConsumerFrame(cfg, s, c, step);
    if m in s.broker.ready {
      if step == Deliver(m) {
        assert Holds(s'.consumers[c], m);
      }
    } else {
      var d :| d in s.consumers && Holds(s.consumers[d], m);
      if d != c {
        assert Holds(s'.consumers[d], m);
      } else {
        HolderKeeps(cfg, s, c, step, sid);
      }
    }
  }

  /** The worker holding a message keeps it, gives it back, or settles it once its session is
      finished. */
  lemma HolderKeeps(cfg: Config, s: State, c: ActorId, step: ConsumerStep, sid: SessionId)
    requires ConsumersOk(cfg, s)
    requires ConsumerCan(s, c, step)
    requires Holds(s.consumers[c], Completed(sid))
    ensures var s' := ConsumerDoes(cfg, s, c, step);
            Holds(s'.consumers[c], Completed(sid)) || Completed(sid) in s'.broker.ready || Finished(s'.tables, sid)
  {
    assert ConsumerOk(cfg, s, s.consumers[c]);
    match step
    case Deliver(m) =>
    case JobAwait(await) =>
    case LastCall(outcome) =>
    case Settle =>
    case Crash =>
    case ConnectionLost =>
  }

  lemma ConsumerTables(cfg: Config, s: State, c: ActorId, step: ConsumerStep)
    requires ConsumerCan(s, c, step)
    ensures var s' := ConsumerDoes(cfg, s, c, step);
            && s'.tables.sessions == s.tables.sessions
            && s.tables.results.Keys <= s'.tables.results.Keys
            && s.tables.skips <= s'.tables.skips
  {
    if step.JobAwait? {
      JobStepGrows(s.tables, s.consumers[c].message.sid, cfg.provider, s.consumers[c].stage.pc, step.await);
    }
  }

  lemma ConsumerReady(cfg: Config, s: State, c: ActorId, step: ConsumerStep)
    requires ConsumerCan(s, c, step)
    ensures var s' := ConsumerDoes(cfg, s, c, step);
            && (forall m :: m in s.broker.ready && step != Deliver(m) ==> m in s'.broker.ready)
            && (forall m :: m in s'.broker.ready ==>
                  m in s.broker.ready || (s.consumers[c].Busy? && m == s.consumers[c].message))
  {
    match step
    case Deliver(m) =>
    case JobAwait(await) =>
    case LastCall(outcome) =>
    case Settle =>
    case Crash =>
    case ConnectionLost =>
  }

  lemma ConsumerFields(cfg: Config, s: State, c: ActorId, step: ConsumerStep)
    requires ConsumerCan(s, c, step)
    ensures var s' := ConsumerDoes(cfg, s, c, step);
            && s'.outbox == s.outbox && s'.relays == s.relays && s'.toPublish == s.toPublish
            && s'.scanners == s.scanners
            && s'.consumers == s.consumers[c := s'.consumers[c]]
  {
  }

  /** What a consumer step leaves alone. */
  lemma ConsumerFrame(cfg: Config, s: State, c: ActorId, step: ConsumerStep)
    requires ConsumerCan(s, c, step)
    ensures var s' := ConsumerDoes(cfg, s, c, step);
            && s'.outbox == s.outbox && s'.relays == s.relays && s'.toPublish == s.toPublish
            && s'.scanners == s.scanners
            && s'.consumers == s.consumers[c := s'.consumers[c]]
            && s'.tables.sessions == s.tables.sessions
            && s.tables.results.Keys <= s'.tables.results.Keys
            && s.tables.skips <= s'.tables.skips
            && (forall m :: m in s.broker.ready && step != Deliver(m) ==> m in s'.broker.ready)
            && (forall m :: m in s'.broker.ready ==>
                  m in s.broker.ready || (s.consumers[c].Busy? && m == s.consumers[c].message))
  {
    ConsumerFields(cfg, s, c, step);
    ConsumerTables(cfg, s, c, step);
    ConsumerReady(cfg, s, c, step);
  }

  lemma QueuedElsewhere(s: State, s': State, sid: SessionId)
    requires Queued(s, sid)
    requires s.broker.ready <= s'.broker.ready && s'.consumers == s.consumers
    ensures Queued(s', sid)
  {
  }

  lemma DeliveredIsStable(cfg: Config, s: State, l: Label, sid: SessionId)
    requires ConsumersOk(cfg, s)
    requires Can(cfg, s, l)
    requires sid in s.tables.sessions
    requires Delivered(s, sid)
    ensures Delivered(Do(cfg, s, l), sid)
  {
    if Queued(s, sid) {
      QueuedOrFinished(cfg, s, l, sid);
    } else {
      FinishedIsStable(cfg, s, l, sid);
    }
  }

  lemma AllDeliveredStable(cfg: Config, s: State, l: Label)
    requires Inv(cfg, s)
    requires Can(cfg, s, l)
    ensures forall sid :: sid in s.outbox && Delivered(s, sid) ==> Delivered(Do(cfg, s, l), sid)
  {
    forall sid | sid in s.outbox && Delivered(s, sid)
      ensures Delivered(Do(cfg, s, l), sid)
    {
      DeliveredIsStable(cfg, s, l, sid);
    }
  }

  // ---- Every step keeps the invariant ----

  lemma GatewayKeeps(cfg: Config, s: State, g: GatewayStep)
    requires Inv(cfg, s)
    requires GatewayCan(s, g)
    ensures Inv(cfg, GatewayDoes(s, g))
  {
    var s' := GatewayDoes(s, g);
    AllDeliveredStable(cfg, s, ByGateway(g));
    GatewayFrame(s, g);
    forall c | c in s'.consumers
      ensures ConsumerOk(cfg, s', s'.consumers[c])
    {
      ConsumerKept(cfg, s, s', s.consumers[c]);
    }
    forall r | r in s'.relays
      ensures RelayOk(s', s'.relays[r])
    {
      RelayKept(s, s', s.relays[r]);
    }
    forall sid | sid in s'.outbox
      ensures Accounted(cfg, s', sid)
    {
      assert sid in s.outbox ==> Accounted(cfg, s, sid);
    }
  }

  lemma GatewayFrame(s: State, g: GatewayStep)
    requires GatewayCan(s, g)
    requires forall sid :: sid in s.outbox <==> sid in s.tables.sessions && s.tables.sessions[sid].completed
    ensures var s' := GatewayDoes(s, g);
            && s'.consumers == s.consumers && s'.relays == s.relays
            && s'.tables.results == s.tables.results && s'.tables.skips == s.tables.skips
            && (forall sid :: sid in s'.outbox <==> sid in s'.tables.sessions && s'.tables.sessions[sid].completed)
            && (forall sid :: sid in s.outbox ==> sid in s'.outbox && s'.outbox[sid] == s.outbox[sid])
            && (forall sid :: sid in s'.outbox && sid !in s.outbox ==>
                  s'.outbox[sid].status == Pending && s'.outbox[sid].attempts == 0)
            && (forall sid :: sid in s.outbox && Finished(s.tables, sid) ==> Finished(s'.tables, sid))
  {
    match g
    case Create(sid) =>
    case Delete(sid) =>
    case Complete(sid, eligible, now) =>
    case Publish(sid, copies) =>
    case GatewayCrash =>
    case Noise =>
  }

  lemma RelayKept(s: State, s': State, me: Relay)
    requires RelayOk(s, me)
    requires forall sid :: IsPending(s.outbox, sid) && Delivered(s, sid) ==> Delivered(s', sid)
    requires forall sid :: me.Open? && sid in me.claim && IsPending(s.outbox, sid) ==> IsPending(s'.outbox, sid)
    ensures RelayOk(s', me)
  {
    if me.Open? {
      forall i | 0 <= i < |me.claim|
        ensures IsPending(s'.outbox, me.claim[i])
      {
        assert me.claim[i] in me.claim;
      }
    }
  }

  lemma ConsumerKeeps(cfg: Config, s: State, c: ActorId, step: ConsumerStep)
    requires Inv(cfg, s)
    requires ConsumerCan(s, c, step)
    ensures Inv(cfg, ConsumerDoes(cfg, s, c, step))
  {
    var s' := ConsumerDoes(cfg, s, c, step);
    AllDeliveredStable(cfg, s, ByConsumer(c, step));
    ConsumerFrame(cfg, s, c, step);
    StageKept(cfg, s, c, step);
    forall d | d in s'.consumers
      ensures ConsumerOk(cfg, s', s'.consumers[d])
    {
      if d != c {
        ConsumerKept(cfg, s, s', s.consumers[d]);
      }
    }
    assert MessagesOk(s') by {
      assert ConsumerOk(cfg, s, s.consumers[c]);
    }
    RestKept(cfg, s, s');
  }

  /** The invariant's clauses about rows and relays survive any step that leaves the outbox and
      the relays alone and undoes no delivery. */
  lemma RestKept(cfg: Config, s: State, s': State)
    requires OutboxOk(cfg, s) && RelaysOk(s)
    requires s'.outbox == s.outbox && s'.relays == s.relays && s'.tables.sessions == s.tables.sessions
    requires forall sid :: sid in s.outbox && Delivered(s, sid) ==> Delivered(s', sid)
    ensures OutboxOk(cfg, s') && RelaysOk(s')
  {
    forall sid | sid in s'.outbox
      ensures Accounted(cfg, s', sid)
    {
      assert Accounted(cfg, s, sid);
    }
    forall r | r in s'.relays
      ensures RelayOk(s', s'.relays[r])
    {
      RelayKept(s, s', s.relays[r]);
    }
  }

  /** Another process's step never hurts what is known of a consumer. */
  lemma ConsumerKept(cfg: Config, s: State, s': State, me: Consumer)
    requires ConsumerOk(cfg, s, me)
    requires s.outbox.Keys <= s'.outbox.Keys
    requires s.tables.results.Keys <= s'.tables.results.Keys
    requires forall sid :: sid in s.outbox && Finished(s.tables, sid) ==> Finished(s'.tables, sid)
    ensures ConsumerOk(cfg, s', me)
  {
  }

  lemma JobStageKept(cfg: Config, s: State, c: ActorId, await: Await)
    requires Inv(cfg, s)
    requires ConsumerCan(s, c, JobAwait(await))
    ensures var s' := ConsumerDoes(cfg, s, c, JobAwait(await));
            ConsumerOk(cfg, s', s'.consumers[c])
  {
    assert ConsumerOk(cfg, s, s.consumers[c]);
  }

  lemma StageKept(cfg: Config, s: State, c: ActorId, step: ConsumerStep)
    requires Inv(cfg, s)
    requires ConsumerCan(s, c, step)
    ensures var s' := ConsumerDoes(cfg, s, c, step);
            ConsumerOk(cfg, s', s'.consumers[c])
  {
    match step
    case JobAwait(await) => JobStageKept(cfg, s, c, await);
    case Deliver(m) =>
    case LastCall(outcome) => assert ConsumerOk(cfg, s, s.consumers[c]);
    case Settle =>
    case Crash =>
    case ConnectionLost => assert ConsumerOk(cfg, s, s.consumers[c]);
  }

  lemma ScannerKeeps(cfg: Config, s: State, a: ActorId, step: ScannerStep)
    requires Inv(cfg, s)
    requires ScannerCan(s, a, step)
    ensures Inv(cfg, ScannerDoes(cfg, s, a, step))
  {
    var s' := ScannerDoes(cfg, s, a, step);
    AllDeliveredStable(cfg, s, ByScanner(a, step));
    if step.ScanAwait? {
      JobStepGrows(s.tables, s.scanners[a].job.value.sid, cfg.provider, s.scanners[a].job.value.pc, step.await);
    }
    forall c | c in s'.consumers
      ensures ConsumerOk(cfg, s', s'.consumers[c])
    {
      ConsumerKept(cfg, s, s', s.consumers[c]);
    }
    RestKept(cfg, s, s');
  }

  lemma RelayKeeps(cfg: Config, s: State, r: ActorId, step: RelayStep)
    requires Inv(cfg, s)
    requires RelayCan(cfg, s, r, step)
    ensures Inv(cfg, RelayDoes(cfg, s, r, step))
  {
    var s' := RelayDoes(cfg, s, r, step);
    AllDeliveredStable(cfg, s, ByRelay(r, step));
    assert RelayOk(s, s.relays[r]);
    if step.Commit? {
      CommitKeepsOutbox(cfg, s, r);
    }
    forall c | c in s'.consumers
      ensures ConsumerOk(cfg, s', s'.consumers[c])
    {
      assert ConsumerOk(cfg, s, s.consumers[c]);
    }
    RelaysKept(cfg, s, r, step);
  }

  /** Rows locked by another relay are not touched. */
  lemma RelayOutbox(cfg: Config, s: State, r: ActorId, step: RelayStep)
    requires Inv(cfg, s)
    requires RelayCan(cfg, s, r, step)
    ensures var s' := RelayDoes(cfg, s, r, step);
            s'.outbox.Keys == s.outbox.Keys
            && (s.relays[r].Closed? ==> s'.outbox == s.outbox)
            && (s.relays[r].Open? ==>
                  forall id :: id in s.outbox && id !in s.relays[r].claim ==> s'.outbox[id] == s.outbox[id])
  {
    if step.Commit? {
      CommitKeepsOutbox(cfg, s, r);
    }
  }

  lemma OtherRelaysKept(cfg: Config, s: State, r: ActorId, step: RelayStep, q: ActorId)
    requires Inv(cfg, s)
    requires RelayCan(cfg, s, r, step) && q in s.relays && q != r
    requires forall sid :: sid in s.outbox && Delivered(s, sid) ==> Delivered(RelayDoes(cfg, s, r, step), sid)
    ensures RelayOk(RelayDoes(cfg, s, r, step), s.relays[q])
  {
    RelayOutbox(cfg, s, r, step);
    assert Disjoint(s.relays[q], s.relays[r]);
    RelayKept(s, RelayDoes(cfg, s, r, step), s.relays[q]);
  }

  lemma OwnRelayKept(cfg: Config, s: State, r: ActorId, step: RelayStep)
    requires RelayCan(cfg, s, r, step)
    requires RelayOk(s, s.relays[r])
    requires s.relays[r].Open? ==>
               forall id :: id in s.relays[r].claim && Delivered(s, id) ==> Delivered(RelayDoes(cfg, s, r, step), id)
    ensures RelayOk(RelayDoes(cfg, s, r, step), RelayDoes(cfg, s, r, step).relays[r])
  {
    var s' := RelayDoes(cfg, s, r, step);
    if step.RelayPublish? && step.accepted {
      assert Completed(s.relays[r].claim[|s.relays[r].confirmed|]) in s'.broker.ready;
    }
  }

  lemma ClaimsDisjoint(cfg: Config, s: State, r: ActorId, step: RelayStep)
    requires RelaysOk(s)
    requires RelayCan(cfg, s, r, step)
    ensures var s' := RelayDoes(cfg, s, r, step);
            forall p, q :: p in s'.relays && q in s'.relays && p != q ==> Disjoint(s'.relays[p], s'.relays[q])
  {
    var s' := RelayDoes(cfg, s, r, step);
    forall p, q | p in s'.relays && q in s'.relays && p != q
      ensures Disjoint(s'.relays[p], s'.relays[q])
    {
      assert Disjoint(s.relays[p], s.relays[q]);
    }
  }

  lemma RelaysKept(cfg: Config, s: State, r: ActorId, step: RelayStep)
    requires Inv(cfg, s)
    requires RelayCan(cfg, s, r, step)
    requires forall sid :: sid in s.outbox && Delivered(s, sid) ==> Delivered(RelayDoes(cfg, s, r, step), sid)
    ensures RelaysOk(RelayDoes(cfg, s, r, step))
  {
    var s' := RelayDoes(cfg, s, r, step);
    assert RelayOk(s, s.relays[r]);
    OwnRelayKept(cfg, s, r, step);
    forall q | q in s'.relays
      ensures RelayOk(s', s'.relays[q])
    {
      if q != r {
        OtherRelaysKept(cfg, s, r, step, q);
      }
    }
    ClaimsDisjoint(cfg, s, r, step);
  }

  /** Committing a transaction whose confirmed publishes are still accounted for keeps every
      completion accounted for, and touches no row another relay has locked. */
  lemma CommitKeepsOutbox(cfg: Config, s: State, r: ActorId)
    requires Inv(cfg, s)
    requires RelayCan(cfg, s, r, Commit)
    ensures var s' := RelayDoes(cfg, s, r, Commit);
            && s'.outbox.Keys == s.outbox.Keys
            && OutboxOk(cfg, s')
            && (forall id :: id in s.outbox && id !in s.relays[r].claim ==> s'.outbox[id] == s.outbox[id])
  {
    var me := s.relays[r];
    var s' := RelayDoes(cfg, s, r, Commit);
    assert RelayOk(s, me);
    DrainedPointwise(s.outbox, me.claim, me.confirmed, cfg.relayMaxAttempts);
    assert me.claim[..|me.confirmed|] == me.claim;
    forall sid | sid in s'.outbox
      ensures Accounted(cfg, s', sid)
    {
      assert Accounted(cfg, s, sid);
      assert Delivered(s', sid) <==> Delivered(s, sid);
      if sid in me.claim {
        var i :| 0 <= i < |me.claim| && me.claim[i] == sid;
        assert Transition(s.outbox[sid], s'.outbox[sid], me.confirmed[i], cfg.relayMaxAttempts);
      }
    }
  }

  lemma StepKeeps(cfg: Config, s: State, l: Label)
    requires Inv(cfg, s)
    requires Can(cfg, s, l)
    ensures Inv(cfg, Do(cfg, s, l))
  {
    match l
    case ByGateway(g) => GatewayKeeps(cfg, s, g);
    case ByRelay(r, step) => RelayKeeps(cfg, s, r, step);
    case ByConsumer(c, step) => ConsumerKeeps(cfg, s, c, step);
    case ByScanner(a, step) => ScannerKeeps(cfg, s, a, step);
  }

  lemma {:induction false} RunKeeps(cfg: Config, s: State, ls: seq<Label>)
    requires Inv(cfg, s)
    requires Runs(cfg, s, ls)
    ensures Inv(cfg, Ends(cfg, s, ls))
    decreases |ls|
  {
    if ls != [] {
      StepKeeps(cfg, s, ls[0]);
      RunKeeps(cfg, Do(cfg, s, ls[0]), ls[1..]);
    }
  }

  /** In every reachable state, every committed completion is accounted for. */
  lemma NoCompletionLost(cfg: Config, s: State, ls: seq<Label>, sid: SessionId)
    requires ValidConfig(cfg)
    requires IsInitial(s)
    requires Runs(cfg, s, ls)
    ensures var e := Ends(cfg, s, ls);
            sid in e.tables.sessions && e.tables.sessions[sid].completed ==> Accounted(cfg, e, sid)
  {
    assert Inv(cfg, s);
    RunKeeps(cfg, s, ls);
  }
}
