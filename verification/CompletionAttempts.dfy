/** How many attempts a delivery makes before it is acknowledged or given back, in every run of the
    protocol. */
module CompletionAttempts {
  import opened Options
  import opened GradingRows
  import opened GradingJob
  import opened Outbox
  import opened CompletionProtocol
  import opened CompletionSafety
  import opened CompletionOutcomes

  // ---- Attempts ----

  /** The step ends an attempt of consumer `c` by raising anything but a ValidationError. */
  predicate EndsAttempt(cfg: Config, s: State, l: Label, c: ActorId) {
    && l.ByConsumer? && l.c == c && l.consumer.JobAwait? && ConsumerCan(s, c, l.consumer)
    && var me := s.consumers[c];
       JobStep(s.tables, me.message.sid, cfg.provider, me.stage.pc, l.consumer.await).1 == Raise(false)
  }

  /** How many attempts of its current delivery consumer `c` has ended so, `before` before the run. */
  ghost function AttemptsEnded(cfg: Config, s: State, ls: seq<Label>, c: ActorId, before: nat): nat
    requires Runs(cfg, s, ls)
    decreases |ls|
  {
    if ls == [] then before
    else AttemptsEnded(cfg, Do(cfg, s, ls[0]), ls[1..], c, Counted(cfg, s, ls[0], c, before))
  }

  function Counted(cfg: Config, s: State, l: Label, c: ActorId, before: nat): nat {
    if l.ByConsumer? && l.c == c && l.consumer.Deliver? then 0
    else if EndsAttempt(cfg, s, l, c) then before + 1
    else before
  }

  ghost predicate CountOk(cfg: Config, s: State, c: ActorId, ended: nat) {
    c in s.consumers && s.consumers[c].Busy? && s.consumers[c].message.Completed? ==>
      match s.consumers[c].stage
      case Attempt(n, _) => ended + 1 == n <= cfg.maxAttempts
      case MarkFailed => ended == cfg.maxAttempts
      case Settling(Ack) => Settles(s.tables, s.consumers[c].message.sid) || ended == cfg.maxAttempts
      case Settling(Nack) => ended == cfg.maxAttempts
      case Settling(Reject) => true
  }

  lemma SettlesByConsumer(cfg: Config, s: State, c: ActorId, step: ConsumerStep, sid: SessionId)
    requires ConsumerCan(s, c, step) && Settles(s.tables, sid)
    ensures Settles(ConsumerDoes(cfg, s, c, step).tables, sid)
  {
    if step.JobAwait? {
      JobStepGrows(s.tables, s.consumers[c].message.sid, cfg.provider, s.consumers[c].stage.pc, step.await);
    }
  }

  /** A session with nothing left to grade stays so. */
  lemma SettlesIsStable(cfg: Config, s: State, l: Label, sid: SessionId)
    requires Can(cfg, s, l) && sid in s.tables.sessions && Settles(s.tables, sid)
    ensures Settles(Do(cfg, s, l).tables, sid)
  {
    match l
    case ByGateway(g) =>
    case ByRelay(r, step) =>
    case ByConsumer(c, step) => SettlesByConsumer(cfg, s, c, step, sid);
    case ByScanner(a, step) =>
      if step.ScanAwait? {
        JobStepGrows(s.tables, s.scanners[a].job.value.sid, cfg.provider, s.scanners[a].job.value.pc, step.await);
      }
  }

  lemma JobCounts(cfg: Config, s: State, c: ActorId, await: Await, ended: nat)
    requires CountOk(cfg, s, c, ended)
    requires ConsumerCan(s, c, JobAwait(await))
    ensures CountOk(cfg, ConsumerDoes(cfg, s, c, JobAwait(await)), c,
                    Counted(cfg, s, ByConsumer(c, JobAwait(await)), c, ended))
  {
  }

  lemma OwnStepCounts(cfg: Config, s: State, c: ActorId, step: ConsumerStep, ended: nat)
    requires ValidConfig(cfg) && CountOk(cfg, s, c, ended)
    requires ConsumerCan(s, c, step)
    ensures CountOk(cfg, ConsumerDoes(cfg, s, c, step), c, Counted(cfg, s, ByConsumer(c, step), c, ended))
  {
    match step
    case JobAwait(await) => JobCounts(cfg, s, c, await, ended);
    case Deliver(m) =>
    case LastCall(outcome) =>
    case Settle =>
    case Crash =>
    case ConnectionLost =>
  }

  lemma StepCounts(cfg: Config, s: State, c: ActorId, l: Label, ended: nat)
    requires Inv(cfg, s) && CountOk(cfg, s, c, ended)
    requires Can(cfg, s, l)
    ensures CountOk(cfg, Do(cfg, s, l), c, Counted(cfg, s, l, c, ended))
  {
    if l.ByConsumer? && l.c == c {
      OwnStepCounts(cfg, s, c, l.consumer, ended);
    } else {
      OthersCount(cfg, s, c, l, ended);
    }
  }

  lemma OthersCount(cfg: Config, s: State, c: ActorId, l: Label, ended: nat)
    requires Inv(cfg, s) && CountOk(cfg, s, c, ended)
    requires Can(cfg, s, l) && !(l.ByConsumer? && l.c == c)
    ensures CountOk(cfg, Do(cfg, s, l), c, ended)
  {
    SameConsumer(cfg, s, c, l);
    if c in s.consumers && s.consumers[c].Busy? && s.consumers[c].message.Completed? {
      var sid := s.consumers[c].message.sid;
      assert ConsumerOk(cfg, s, s.consumers[c]);
      if Settles(s.tables, sid) {
        SettlesIsStable(cfg, s, l, sid);
      }
    }
  }

  lemma SameConsumer(cfg: Config, s: State, c: ActorId, l: Label)
    requires Can(cfg, s, l) && !(l.ByConsumer? && l.c == c)
    ensures c in Do(cfg, s, l).consumers <==> c in s.consumers
    ensures c in s.consumers ==> Do(cfg, s, l).consumers[c] == s.consumers[c]
  {
    if l.ByConsumer? {
      ConsumerFields(cfg, s, l.c, l.consumer);
    }
  }

  lemma {:induction false} RunCounts(cfg: Config, s: State, c: ActorId, ls: seq<Label>, ended: nat)
    requires Inv(cfg, s) && CountOk(cfg, s, c, ended)
    requires Runs(cfg, s, ls)
    ensures CountOk(cfg, Ends(cfg, s, ls), c, AttemptsEnded(cfg, s, ls, c, ended))
    decreases |ls|
  {
    if ls != [] {
      StepKeeps(cfg, s, ls[0]);
      StepCounts(cfg, s, c, ls[0], ended);
      RunCounts(cfg, Do(cfg, s, ls[0]), c, ls[1..], Counted(cfg, s, ls[0], c, ended));
    }
  }

  /** Whatever else goes on: a message about to be acknowledged is for a session gone, skipped or
      graded, or its delivery has made all the attempts allowed and each has raised; and one about to
      be given back has, too. */
  lemma SettledAfterAllAttempts(cfg: Config, s: State, c: ActorId, ls: seq<Label>)
    requires ValidConfig(cfg) && IsInitial(s)
    requires Runs(cfg, s, ls)
    requires var e := Ends(cfg, s, ls);
             c in e.consumers && e.consumers[c].Busy? && e.consumers[c].message.Completed?
    ensures var e := Ends(cfg, s, ls);
            var sid, ended := e.consumers[c].message.sid, AttemptsEnded(cfg, s, ls, c, 0);
            && (e.consumers[c].stage == Settling(Ack) ==> Settles(e.tables, sid) || ended == cfg.maxAttempts)
            && (e.consumers[c].stage == Settling(Nack) ==> ended == cfg.maxAttempts)
            && (e.consumers[c].stage == MarkFailed ==> ended == cfg.maxAttempts)
            && (e.consumers[c].stage.Attempt? ==> ended + 1 == e.consumers[c].stage.n <= cfg.maxAttempts)
  {
    assert Inv(cfg, s);
    RunCounts(cfg, s, c, ls, 0);
  }
}
