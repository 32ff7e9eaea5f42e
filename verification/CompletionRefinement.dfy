/** The worker's retry loop is a run of the protocol: executed without interruption, it takes the
    consumer from a fetched job to its settlement by the very steps of the transition system. */
module CompletionRefinement {
  import opened GradingRows
  import opened GradingJob
  import opened Outbox
  import opened CompletionProtocol

  function Awaits(c: ActorId, script: seq<Await>): seq<Label> {
    if script == [] then [] else [ByConsumer(c, JobAwait(script[0]))] + Awaits(c, script[1..])
  }

  function VerdictNext(v: Verdict): Next {
    match v
    case Returned => Return
    case Raised(validation) => Raise(validation)
  }

  ghost predicate Working(s: State, c: ActorId, sid: SessionId, stage: Stage) {
    c in s.consumers && s.consumers[c].Busy? && s.consumers[c].message == Completed(sid) && s.consumers[c].stage == stage
  }

  /** `s` with consumer `c` moved on to `stage` and the tables replaced. */
  function Moved(s: State, c: ActorId, tables: Tables, stage: Stage): State
    requires c in s.consumers && s.consumers[c].Busy?
  {
    s.(tables := tables, consumers := s.consumers[c := s.consumers[c].(stage := stage)])
  }

  lemma {:induction false} AttemptIsARun(cfg: Config, s: State, c: ActorId, sid: SessionId, n: nat, pc: Pc, script: seq<Await>)
    requires Working(s, c, sid, Attempt(n, pc))
    requires Plays(s.tables, sid, cfg.provider, pc, script)
    ensures Runs(cfg, s, Awaits(c, script))
    ensures var (t', verdict) := Played(s.tables, sid, cfg.provider, pc, script);
            Ends(cfg, s, Awaits(c, script)) == Moved(s, c, t', NextStage(cfg, n, VerdictNext(verdict)))
    decreases |script|
  {
    var l := ByConsumer(c, JobAwait(script[0]));
    var s' := Do(cfg, s, l);
    var (t', next) := JobStep(s.tables, sid, cfg.provider, pc, script[0]);
    assert s' == Moved(s, c, t', NextStage(cfg, n, next));
    if next.Goto? {
      AttemptIsARun(cfg, s', c, sid, n, next.pc, script[1..]);
    } else {
      assert script[1..] == [] && Awaits(c, script[1..]) == [];
    }
    RunsFirst(cfg, s, l, Awaits(c, script[1..]));
  }

  /** The protocol steps of the whole loop, with `left` attempts still allowed. */
  ghost function LoopLabels(cfg: Config, t: Tables, c: ActorId, sid: SessionId, script: Script, left: nat): seq<Label>
    requires PlaysAll(t, sid, cfg.provider, script, left)
    decreases left
  {
    if left == 0 then [ByConsumer(c, LastCall(script.lastCall))]
    else
      var (t', verdict) := Played(t, sid, cfg.provider, Fetch, script.attempts[0]);
      Awaits(c, script.attempts[0])
      + if verdict == Raised(false)
        then LoopLabels(cfg, t', c, sid, script.(attempts := script.attempts[1..]), left - 1)
        else []
  }

  lemma {:induction false} RetriesAreARun(cfg: Config, s: State, c: ActorId, sid: SessionId, script: Script, left: nat)
    requires left <= cfg.maxAttempts
    requires Working(s, c, sid, if left == 0 then MarkFailed else Attempt(cfg.maxAttempts - left + 1, Fetch))
    requires PlaysAll(s.tables, sid, cfg.provider, script, left)
    ensures Runs(cfg, s, LoopLabels(cfg, s.tables, c, sid, script, left))
    ensures var (t', how) := Retried(s.tables, sid, cfg.provider, script, left);
            Ends(cfg, s, LoopLabels(cfg, s.tables, c, sid, script, left)) == Moved(s, c, t', Settling(how))
    decreases left
  {
    if left == 0 {
      LastCallIsARun(cfg, s, c, sid, script.lastCall);
    } else {
      var first := Awaits(c, script.attempts[0]);
      var (t', verdict) := Played(s.tables, sid, cfg.provider, Fetch, script.attempts[0]);
      AttemptIsARun(cfg, s, c, sid, cfg.maxAttempts - left + 1, Fetch, script.attempts[0]);
      var s' := Ends(cfg, s, first);
      if verdict == Raised(false) {
        var rest := script.(attempts := script.attempts[1..]);
        var stage := if left == 1 then MarkFailed else Attempt(cfg.maxAttempts - left + 2, Fetch);
        assert s' == Moved(s, c, t', stage);
        RetriesAreARun(cfg, s', c, sid, rest, left - 1);
        RunsJoin(cfg, s, first, LoopLabels(cfg, t', c, sid, rest, left - 1));
        var (t'', how) := Retried(t', sid, cfg.provider, rest, left - 1);
        MovedTwice(s, c, t', stage, t'', Settling(how));
      } else {
        assert LoopLabels(cfg, s.tables, c, sid, script, left) == first;
      }
    }
  }

  lemma MovedTwice(s: State, c: ActorId, t: Tables, stage: Stage, t': Tables, stage': Stage)
    requires c in s.consumers && s.consumers[c].Busy?
    ensures Moved(Moved(s, c, t, stage), c, t', stage') == Moved(s, c, t', stage')
  {
    assert s.consumers[c := s.consumers[c].(stage := stage)][c := s.consumers[c].(stage := stage')]
        == s.consumers[c := s.consumers[c].(stage := stage')];
  }

  lemma LastCallIsARun(cfg: Config, s: State, c: ActorId, sid: SessionId, outcome: Outcome)
    requires Working(s, c, sid, MarkFailed)
    ensures Runs(cfg, s, [ByConsumer(c, LastCall(outcome))])
    ensures Ends(cfg, s, [ByConsumer(c, LastCall(outcome))])
         == Moved(s, c, After(outcome, s.tables, WithFailed(s.tables, sid, cfg.provider)),
                  Settling(if outcome == Done then Ack else Nack))
  {
    var l := ByConsumer(c, LastCall(outcome));
    RunsFirst(cfg, s, l, []);
    assert [l] + [] == [l];
  }

  /** A delivered job, worked without interruption, settles as the loop says and leaves the
      tables as the loop leaves them. */
  lemma UninterruptedDelivery(cfg: Config, s: State, c: ActorId, sid: SessionId, script: Script)
    requires cfg.maxAttempts >= 1
    requires Working(s, c, sid, Attempt(1, Fetch))
    requires PlaysAll(s.tables, sid, cfg.provider, script, cfg.maxAttempts)
    ensures var (t', how) := Retried(s.tables, sid, cfg.provider, script, cfg.maxAttempts);
            exists ls :: Runs(cfg, s, ls) && Ends(cfg, s, ls) == Moved(s, c, t', Settling(how))
  {
    RetriesAreARun(cfg, s, c, sid, script, cfg.maxAttempts);
  }
}
