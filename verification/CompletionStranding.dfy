/** A row in "processing" and the message behind it, with one consumer and no scanner: exactly which
    steps leave such a row with nothing that would ever finish it. */
module CompletionStranding {
  import opened GradingRows
  import opened GradingJob
  import opened Outbox
  import opened CompletionProtocol
  import opened CompletionSafety
  import opened CompletionOutcomes
  import opened CompletionSolo

  predicate Handles(s: State, c: ActorId, sid: SessionId) {
    c in s.consumers && s.consumers[c].Busy? && s.consumers[c].message == Completed(sid)
  }

  /** The row is half done, and no message for it is queued or unacknowledged. */
  ghost predicate Stranded(s: State, sid: SessionId) {
    IsProcessing(s.tables.results, sid) && !Queued(s, sid)
  }

  // ---- The step that strands ----

  /** A delivery is acknowledged or rejected for good while its row is half done and no duplicate
      of the message waits. */
  predicate Abandons(s: State, l: Label, sid: SessionId) {
    && l.ByConsumer? && l.consumer.Settle? && Handles(s, l.c, sid)
    && s.consumers[l.c].stage.Settling? && s.consumers[l.c].stage.how != Nack && s.consumers[l.c].tag.Some?
    && IsProcessing(s.tables.results, sid)
    && Completed(sid) !in s.broker.ready
  }

  lemma JobQueued(cfg: Config, s: State, c: ActorId, await: Await, sid: SessionId)
    requires SoloOk(s, c)
    requires ConsumerCan(s, c, JobAwait(await)) && !Stranded(s, sid)
    ensures !Stranded(ConsumerDoes(cfg, s, c, JobAwait(await)), sid)
  {
    var me, s' := s.consumers[c], ConsumerDoes(cfg, s, c, JobAwait(await));
    var m := Completed(sid);
    ConsumerFields(cfg, s, c, JobAwait(await));
    assert s'.consumers[c].message == me.message && s'.consumers[c].tag == me.tag;
    assert Queued(s, sid) <==> m in s.broker.ready || Holds(me, m);
    assert Queued(s', sid) <==> m in s.broker.ready || Holds(s'.consumers[c], m);
    if me.message != m {
      JobStepGrows(s.tables, me.message.sid, cfg.provider, me.stage.pc, await);
    }
  }

  lemma ConsumerStrands(cfg: Config, s: State, c: ActorId, step: ConsumerStep, sid: SessionId)
    requires SoloOk(s, c)
    requires ConsumerCan(s, c, step) && !Stranded(s, sid)
    ensures Stranded(ConsumerDoes(cfg, s, c, step), sid) <==> Abandons(s, ByConsumer(c, step), sid)
  {
    var me, s' := s.consumers[c], ConsumerDoes(cfg, s, c, step);
    var m := Completed(sid);
    ConsumerFields(cfg, s, c, step);
    assert Queued(s, sid) <==> m in s.broker.ready || Holds(me, m);
    assert Queued(s', sid) <==> m in s'.broker.ready || Holds(s'.consumers[c], m);
    match step
    case Deliver(_) =>
    case JobAwait(await) => JobQueued(cfg, s, c, await, sid);
    case LastCall(outcome) =>
    case Settle =>
    case Crash =>
    case ConnectionLost =>
  }

  lemma OthersStrandNothing(cfg: Config, s: State, l: Label, sid: SessionId)
    requires Can(cfg, s, l) && (l.ByGateway? || l.ByRelay?) && !Stranded(s, sid)
    ensures !Stranded(Do(cfg, s, l), sid)
  {
    if Queued(s, sid) {
      QueuedElsewhere(s, Do(cfg, s, l), sid);
    }
  }

  /** Of all steps of all actors, exactly the abandoning settlement strands a row. */
  lemma StrandsExactlyWhenAbandoned(cfg: Config, s: State, c: ActorId, l: Label, sid: SessionId)
    requires SoloOk(s, c)
    requires Can(cfg, s, l) && !Stranded(s, sid)
    ensures Stranded(Do(cfg, s, l), sid) <==> Abandons(s, l, sid)
  {
    match l
    case ByGateway(g) => OthersStrandNothing(cfg, s, l, sid);
    case ByRelay(r, step) => OthersStrandNothing(cfg, s, l, sid);
    case ByScanner(a, step) =>
    case ByConsumer(d, step) => ConsumerStrands(cfg, s, c, step, sid);
  }

  ghost predicate NeverStranded(cfg: Config, s: State, ls: seq<Label>, sid: SessionId)
    requires Runs(cfg, s, ls)
    decreases |ls|
  {
    !Stranded(s, sid) && (ls != [] ==> NeverStranded(cfg, Do(cfg, s, ls[0]), ls[1..], sid))
  }

  ghost predicate NeverAbandoned(cfg: Config, s: State, ls: seq<Label>, sid: SessionId)
    requires Runs(cfg, s, ls)
    decreases |ls|
  {
    ls != [] ==> !Abandons(s, ls[0], sid) && NeverAbandoned(cfg, Do(cfg, s, ls[0]), ls[1..], sid)
  }

  lemma {:induction false} StrandingRun(cfg: Config, s: State, c: ActorId, ls: seq<Label>, sid: SessionId)
    requires Inv(cfg, s) && SoloOk(s, c) && !Stranded(s, sid)
    requires Runs(cfg, s, ls)
    ensures NeverStranded(cfg, s, ls, sid) <==> NeverAbandoned(cfg, s, ls, sid)
    decreases |ls|
  {
    if ls != [] {
      StepKeeps(cfg, s, ls[0]);
      SoloKept(cfg, s, c, ls[0]);
      StrandsExactlyWhenAbandoned(cfg, s, c, ls[0], sid);
      if !Abandons(s, ls[0], sid) {
        StrandingRun(cfg, Do(cfg, s, ls[0]), c, ls[1..], sid);
      } else if |ls| > 1 {
        assert Stranded(Do(cfg, s, ls[0]), sid);
      }
    }
  }

  /** Throughout a run a half-done row has its message behind it, exactly if no delivery of the run
      is settled for good over a half-done row while no duplicate waits. */
  lemma NeverStrandedExactlyWhen(cfg: Config, s: State, c: ActorId, ls: seq<Label>, sid: SessionId)
    requires ValidConfig(cfg) && IsInitial(s) && Solo(s, c)
    requires Runs(cfg, s, ls)
    ensures NeverStranded(cfg, s, ls, sid) <==> NeverAbandoned(cfg, s, ls, sid)
  {
    assert Inv(cfg, s);
    StrandingRun(cfg, s, c, ls, sid);
  }

  // ---- The branch that decides it ----

  /** The awaits at which a job ends for good though its row is half done: recording a grader's
      ValidationError failed; or the session is gone, or by now refused, when its row has already
      been marked by an earlier attempt or delivery. */
  predicate Forsakes(s: State, l: Label, sid: SessionId) {
    && l.ByConsumer? && l.consumer.JobAwait? && Handles(s, l.c, sid) && s.consumers[l.c].stage.Attempt?
    && IsProcessing(s.tables.results, sid)
    && match s.consumers[l.c].stage.pc
       case RecordFailure(validation) => validation && l.consumer.await == DbCall(FailedBefore)
       case Fetch => l.consumer.await == DbCall(Done) && Missing(s.tables, sid)
       case LogSkip => l.consumer.await == DbCall(Done)
       case _ => false
  }

  /** A delivery about to be settled for good has no half-done row. */
  predicate SettlesCleanly(s: State, c: ActorId, sid: SessionId) {
    Handles(s, c, sid) && s.consumers[c].stage.Settling? && s.consumers[c].stage.how != Nack ==>
      !IsProcessing(s.tables.results, sid)
  }

  lemma JobForsakes(cfg: Config, s: State, c: ActorId, await: Await, sid: SessionId)
    requires SoloOk(s, c)
    requires ConsumerCan(s, c, JobAwait(await))
    ensures SettlesCleanly(ConsumerDoes(cfg, s, c, JobAwait(await)), c, sid)
            <==> !Forsakes(s, ByConsumer(c, JobAwait(await)), sid)
  {
    if Handles(s, c, sid) {
      match s.consumers[c].stage.pc
      case Fetch =>
      case LogSkip =>
      case MarkProcessing =>
      case Grade =>
      case RecordFailure(validation) =>
      case Upsert(result) =>
    }
  }

  /** Exactly these awaits lead up to a settlement over a half-done row. */
  lemma UncleanExactlyWhenForsaken(cfg: Config, s: State, c: ActorId, l: Label, sid: SessionId)
    requires SoloOk(s, c) && SettlesCleanly(s, c, sid)
    requires Can(cfg, s, l)
    ensures SettlesCleanly(Do(cfg, s, l), c, sid) <==> !Forsakes(s, l, sid)
  {
    match l
    case ByGateway(g) =>
    case ByRelay(r, step) =>
    case ByScanner(a, step) =>
    case ByConsumer(d, step) =>
      match step {
        case JobAwait(await) => JobForsakes(cfg, s, c, await, sid);
        case Deliver(m) =>
        case LastCall(outcome) =>
        case Settle =>
        case Crash =>
        case ConnectionLost =>
      }
  }

  /** An await that ends a delivery, and the settlement right after it: the row is stranded exactly
      if the await was one of these and no duplicate waits. */
  lemma StrandedExactlyWhenForsaken(cfg: Config, s: State, c: ActorId, await: Await)
    requires SoloOk(s, c)
    requires s.consumers[c].Busy? && s.consumers[c].message.Completed? && s.consumers[c].tag.Some?
    requires ConsumerCan(s, c, JobAwait(await))
    requires ConsumerDoes(cfg, s, c, JobAwait(await)).consumers[c].stage.Settling?
    ensures var sid := s.consumers[c].message.sid;
            var s' := ConsumerDoes(cfg, ConsumerDoes(cfg, s, c, JobAwait(await)), c, Settle);
            Stranded(s', sid)
            <==> Forsakes(s, ByConsumer(c, JobAwait(await)), sid) && Completed(sid) !in s.broker.ready
  {
    var sid := s.consumers[c].message.sid;
    var s1 := ConsumerDoes(cfg, s, c, JobAwait(await));
    SoloByConsumer(cfg, s, c, JobAwait(await));
    JobForsakes(cfg, s, c, await, sid);
    assert Holds(s1.consumers[c], Completed(sid));
    ConsumerStrands(cfg, s1, c, Settle, sid);
  }

  ghost predicate NeverForsaken(cfg: Config, s: State, ls: seq<Label>, sid: SessionId)
    requires Runs(cfg, s, ls)
    decreases |ls|
  {
    ls != [] ==> !Forsakes(s, ls[0], sid) && NeverForsaken(cfg, Do(cfg, s, ls[0]), ls[1..], sid)
  }

  lemma {:induction false} BackedRun(cfg: Config, s: State, c: ActorId, ls: seq<Label>, sid: SessionId)
    requires Inv(cfg, s) && SoloOk(s, c) && SettlesCleanly(s, c, sid) && !Stranded(s, sid)
    requires Runs(cfg, s, ls) && NeverForsaken(cfg, s, ls, sid)
    ensures !Stranded(Ends(cfg, s, ls), sid)
    decreases |ls|
  {
    if ls != [] {
      StepKeeps(cfg, s, ls[0]);
      SoloKept(cfg, s, c, ls[0]);
      UncleanExactlyWhenForsaken(cfg, s, c, ls[0], sid);
      StrandsExactlyWhenAbandoned(cfg, s, c, ls[0], sid);
      BackedRun(cfg, Do(cfg, s, ls[0]), c, ls[1..], sid);
    }
  }

  /** As long as no await of a run forsakes the session, a row in "processing" has its message
      queued or unacknowledged. */
  lemma ProcessingIsBacked(cfg: Config, s: State, c: ActorId, ls: seq<Label>, sid: SessionId)
    requires ValidConfig(cfg) && IsInitial(s) && Solo(s, c)
    requires Runs(cfg, s, ls) && NeverForsaken(cfg, s, ls, sid)
    ensures var e := Ends(cfg, s, ls);
            IsProcessing(e.tables.results, sid) ==> Queued(e, sid)
  {
    assert Inv(cfg, s);
    BackedRun(cfg, s, c, ls, sid);
  }

  /** A run in which a delivery that has taken one of these branches is settled before it crashes,
      at a moment when no duplicate waits; `forsaken` tells whether one has by now. */
  ghost predicate SettlesForsaken(cfg: Config, s: State, ls: seq<Label>, sid: SessionId, forsaken: bool)
    requires Runs(cfg, s, ls)
    decreases |ls|
  {
    ls != [] &&
    var l := ls[0];
    if l.ByConsumer? && l.consumer.Settle? then
      (forsaken && Completed(sid) !in s.broker.ready) || SettlesForsaken(cfg, Do(cfg, s, l), ls[1..], sid, false)
    else
      SettlesForsaken(cfg, Do(cfg, s, l), ls[1..], sid,
                      Forsakes(s, l, sid) || (forsaken && !(l.ByConsumer? && l.consumer.Crash?)))
  }

  /** What a step makes of a delivery that has, or has not, taken one of these branches. */
  lemma ForsakenStays(cfg: Config, s: State, c: ActorId, l: Label, sid: SessionId)
    requires SoloOk(s, c)
    requires Can(cfg, s, l)
    ensures l.ByConsumer? && (l.consumer.Settle? || l.consumer.Crash?) ==> SettlesCleanly(Do(cfg, s, l), c, sid)
    ensures !(l.ByConsumer? && (l.consumer.Settle? || l.consumer.Crash?)) ==>
              (SettlesCleanly(Do(cfg, s, l), c, sid) <==> !Forsakes(s, l, sid) && SettlesCleanly(s, c, sid))
    ensures l.ByConsumer? && l.consumer.Settle? ==>
              (Abandons(s, l, sid) <==> !SettlesCleanly(s, c, sid) && Completed(sid) !in s.broker.ready)
  {
    if SettlesCleanly(s, c, sid) {
      UncleanExactlyWhenForsaken(cfg, s, c, l, sid);
    } else {
      UncleanStays(cfg, s, c, l, sid);
    }
  }

  lemma UncleanStays(cfg: Config, s: State, c: ActorId, l: Label, sid: SessionId)
    requires SoloOk(s, c) && !SettlesCleanly(s, c, sid)
    requires Can(cfg, s, l)
    ensures SettlesCleanly(Do(cfg, s, l), c, sid) <==> l.ByConsumer? && (l.consumer.Settle? || l.consumer.Crash?)
    ensures !Forsakes(s, l, sid)
  {
    match l
    case ByGateway(g) =>
    case ByRelay(r, step) =>
    case ByScanner(a, step) =>
    case ByConsumer(d, step) =>
      match step {
        case JobAwait(await) =>
        case Deliver(m) =>
        case LastCall(outcome) =>
        case Settle =>
        case Crash =>
        case ConnectionLost =>
      }
  }

  lemma {:induction false} ForsakenRun(cfg: Config, s: State, c: ActorId, ls: seq<Label>, sid: SessionId)
    requires Inv(cfg, s) && SoloOk(s, c)
    requires Runs(cfg, s, ls)
    ensures NeverAbandoned(cfg, s, ls, sid) <==> !SettlesForsaken(cfg, s, ls, sid, !SettlesCleanly(s, c, sid))
    decreases |ls|
  {
    if ls != [] {
      StepKeeps(cfg, s, ls[0]);
      SoloKept(cfg, s, c, ls[0]);
      ForsakenStays(cfg, s, c, ls[0], sid);
      ForsakenRun(cfg, Do(cfg, s, ls[0]), c, ls[1..], sid);
    }
  }

  /** Throughout a run a half-done row has its message behind it, exactly if no delivery takes one of
      these branches and is then settled, before any crash, while no duplicate waits. */
  lemma StrandedExactlyWhenForsakenRun(cfg: Config, s: State, c: ActorId, ls: seq<Label>, sid: SessionId)
    requires ValidConfig(cfg) && IsInitial(s) && Solo(s, c)
    requires Runs(cfg, s, ls)
    ensures NeverStranded(cfg, s, ls, sid) <==> !SettlesForsaken(cfg, s, ls, sid, false)
  {
    assert Inv(cfg, s);
    StrandingRun(cfg, s, c, ls, sid);
    ForsakenRun(cfg, s, c, ls, sid);
  }

  /** With nothing forsaken, a published completion is in the broker's care or answered for good:
      graded, failed, skipped or gone. */
  lemma PublishedIsQueuedOrAnswered(cfg: Config, s: State, c: ActorId, ls: seq<Label>, sid: SessionId)
    requires ValidConfig(cfg) && IsInitial(s) && Solo(s, c)
    requires Runs(cfg, s, ls) && NeverForsaken(cfg, s, ls, sid)
    ensures var e := Ends(cfg, s, ls);
            sid in e.outbox && e.outbox[sid].status == OutboxStatus.Published ==>
              Queued(e, sid) || Answered(e.tables, sid)
  {
    assert Inv(cfg, s);
    RunKeeps(cfg, s, ls);
    ProcessingIsBacked(cfg, s, c, ls, sid);
    var e := Ends(cfg, s, ls);
    assert sid in e.outbox ==> Accounted(cfg, e, sid);
  }

  // ---- Three runs that strand a row ----

  function OneConsumer(): State {
    State(Tables(map[], map[], {}, map[]), map[], Broker(multiset{}, 0, []), {}, map[0 := Idle], map[], map[])
  }

  function CompleteOnce(): seq<Label> {
    [ByGateway(Create(0))] + ([ByGateway(Complete(0, true, 0))] + ([ByGateway(Publish(0, 1))] + []))
  }

  /** Delivered, fetched, marked as processing. */
  function UpToGrade(): seq<Label> {
    [ByConsumer(0, Deliver(Completed(0)))]
    + ([ByConsumer(0, JobAwait(DbCall(Done)))] + ([ByConsumer(0, JobAwait(DbCall(Done)))] + []))
  }

  /** The answer fails validation, and so does the attempt to record that. */
  function FailValidation(): seq<Label> {
    [ByConsumer(0, JobAwait(GraderFails(true)))]
    + ([ByConsumer(0, JobAwait(DbCall(FailedBefore)))] + ([ByConsumer(0, Settle)] + []))
  }

  /** The worker crashes, the session is deleted, and the redelivered job finds it gone. */
  function DeleteMeanwhile(): seq<Label> {
    [ByConsumer(0, Crash)]
    + ([ByGateway(Delete(0))]
       + ([ByConsumer(0, Deliver(Completed(0)))]
          + ([ByConsumer(0, JobAwait(DbCall(Done)))] + ([ByConsumer(0, Settle)] + []))))
  }

  /** The worker crashes, the session is completed again with a log that does not suffice, and the
      redelivered job refuses it. */
  function RefuseMeanwhile(): seq<Label> {
    [ByConsumer(0, Crash)]
    + ([ByGateway(Complete(0, false, 1))]
       + ([ByConsumer(0, Deliver(Completed(0)))]
          + ([ByConsumer(0, JobAwait(DbCall(Done)))]
             + ([ByConsumer(0, JobAwait(DbCall(Done)))] + ([ByConsumer(0, Settle)] + [])))))
  }

  lemma CompletesOnce(cfg: Config)
    ensures Runs(cfg, OneConsumer(), CompleteOnce())
    ensures var e := Ends(cfg, OneConsumer(), CompleteOnce());
            && e.consumers == OneConsumer().consumers
            && e.broker.ready == multiset{Completed(0)}
            && e.tables == Tables(map[0 := Session(true, false, true)], map[], {}, map[])
  {
    var s := OneConsumer();
    var s1 := Do(cfg, s, ByGateway(Create(0)));
    var s2 := Do(cfg, s1, ByGateway(Complete(0, true, 0)));
    RunsFirst(cfg, s2, ByGateway(Publish(0, 1)), []);
    RunsFirst(cfg, s1, ByGateway(Complete(0, true, 0)), [ByGateway(Publish(0, 1))] + []);
    RunsFirst(cfg, s, ByGateway(Create(0)), [ByGateway(Complete(0, true, 0))] + ([ByGateway(Publish(0, 1))] + []));
    assert s2.tables.sessions == map[0 := Session(true, false, true)];
  }

  /** The one worker is about to grade the one session, whose only message it holds. */
  ghost predicate AtGrade(s: State) {
    && s.consumers.Keys == {0} && Holds(s.consumers[0], Completed(0)) && s.consumers[0].stage == Attempt(1, Grade)
    && s.broker.ready == multiset{}
    && s.tables.sessions == map[0 := Session(true, false, true)] && s.tables.skips == {}
    && IsProcessing(s.tables.results, 0)
  }

  lemma ReachesGrade(cfg: Config, s: State)
    requires s.consumers == map[0 := Idle] && s.broker.ready == multiset{Completed(0)}
    requires s.tables == Tables(map[0 := Session(true, false, true)], map[], {}, map[])
    ensures Runs(cfg, s, UpToGrade())
    ensures AtGrade(Ends(cfg, s, UpToGrade()))
  {
    var l0, l1 := ByConsumer(0, Deliver(Completed(0))), ByConsumer(0, JobAwait(DbCall(Done)));
    var s1 := Do(cfg, s, l0);
    assert s1.consumers[0].stage == Attempt(1, Fetch) && s1.broker.ready == multiset{};
    var s2 := Do(cfg, s1, l1);
    assert s2.consumers[0].stage == Attempt(1, MarkProcessing) && s2.tables == s.tables;
    RunsFirst(cfg, s2, l1, []);
    RunsFirst(cfg, s1, l1, [l1] + []);
    RunsFirst(cfg, s, l0, [l1] + ([l1] + []));
  }

  lemma FailsValidation(cfg: Config, s: State)
    requires AtGrade(s)
    ensures Runs(cfg, s, FailValidation())
    ensures Stranded(Ends(cfg, s, FailValidation()), 0)
    ensures !Missing(Ends(cfg, s, FailValidation()).tables, 0)
  {
    var fails, record := ByConsumer(0, JobAwait(GraderFails(true))), ByConsumer(0, JobAwait(DbCall(FailedBefore)));
    var settle := ByConsumer(0, Settle);
    var s1 := Do(cfg, s, fails);
    assert s1.consumers[0].stage == Attempt(1, RecordFailure(true)) && s1.tables == s.tables;
    var s2 := Do(cfg, s1, record);
    assert s2.consumers[0].stage == Settling(Reject) && s2.tables == s.tables;
    RunsFirst(cfg, s2, settle, []);
    RunsFirst(cfg, s1, record, [settle] + []);
    RunsFirst(cfg, s, fails, [record] + ([settle] + []));
  }

  /** After a crash the message is back in the broker and is delivered again. */
  lemma CrashedAndRedelivered(cfg: Config, s: State, g: GatewayStep)
    requires AtGrade(s)
    requires g == Delete(0) || g == Complete(0, false, 1)
    ensures Runs(cfg, s, [ByConsumer(0, Crash)] + ([ByGateway(g)] + ([ByConsumer(0, Deliver(Completed(0)))] + [])))
    ensures var e := Ends(cfg, s, [ByConsumer(0, Crash)] + ([ByGateway(g)] + ([ByConsumer(0, Deliver(Completed(0)))] + [])));
            && AtFetch(e) && e.tables.results == s.tables.results
            && e.tables.sessions == map[0 := if g.Delete? then Session(true, true, true) else Session(true, false, false)]
  {
    var crash, step, deliver := ByConsumer(0, Crash), ByGateway(g), ByConsumer(0, Deliver(Completed(0)));
    var s1 := Do(cfg, s, crash);
    assert s1.tables == s.tables && s1.broker.ready == multiset{Completed(0)};
    var s2 := Do(cfg, s1, step);
    RunsFirst(cfg, s2, deliver, []);
    RunsFirst(cfg, s1, step, [deliver] + []);
    RunsFirst(cfg, s, crash, [step] + ([deliver] + []));
  }

  ghost predicate AtFetch(s: State) {
    && s.consumers.Keys == {0} && Holds(s.consumers[0], Completed(0)) && s.consumers[0].stage == Attempt(1, Fetch)
    && s.broker.ready == multiset{}
  }

  lemma DeletesMeanwhile(cfg: Config, s: State)
    requires AtGrade(s)
    ensures Runs(cfg, s, DeleteMeanwhile())
    ensures Stranded(Ends(cfg, s, DeleteMeanwhile()), 0)
  {
    var start := [ByConsumer(0, Crash)] + ([ByGateway(Delete(0))] + ([ByConsumer(0, Deliver(Completed(0)))] + []));
    CrashedAndRedelivered(cfg, s, Delete(0));
    var s3 := Ends(cfg, s, start);
    var fetch, settle := ByConsumer(0, JobAwait(DbCall(Done))), ByConsumer(0, Settle);
    var s4 := Do(cfg, s3, fetch);
    assert s4.consumers[0].stage == Settling(Ack) && s4.tables == s3.tables;
    RunsFirst(cfg, s4, settle, []);
    RunsFirst(cfg, s3, fetch, [settle] + []);
    RunsJoin(cfg, s, start, [fetch] + ([settle] + []));
    assert start + ([fetch] + ([settle] + [])) == DeleteMeanwhile();
  }

  /** Fetched, refused, acknowledged. */
  function Refuses(): seq<Label> {
    [ByConsumer(0, JobAwait(DbCall(Done)))] + ([ByConsumer(0, JobAwait(DbCall(Done)))] + ([ByConsumer(0, Settle)] + []))
  }

  lemma RefusesAtFetch(cfg: Config, s: State)
    requires AtFetch(s) && IsProcessing(s.tables.results, 0)
    requires s.tables.sessions == map[0 := Session(true, false, false)]
    ensures Runs(cfg, s, Refuses())
    ensures Stranded(Ends(cfg, s, Refuses()), 0)
  {
    var done, settle := ByConsumer(0, JobAwait(DbCall(Done))), ByConsumer(0, Settle);
    var s1 := Do(cfg, s, done);
    assert s1.consumers[0].stage == Attempt(1, LogSkip) && s1.tables == s.tables;
    var s2 := Do(cfg, s1, done);
    assert s2.consumers[0].stage == Settling(Ack) && s2.tables.results == s.tables.results;
    RunsFirst(cfg, s2, settle, []);
    RunsFirst(cfg, s1, done, [settle] + []);
    RunsFirst(cfg, s, done, [done] + ([settle] + []));
  }

  lemma RefusesMeanwhile(cfg: Config, s: State)
    requires AtGrade(s)
    ensures Runs(cfg, s, RefuseMeanwhile())
    ensures Stranded(Ends(cfg, s, RefuseMeanwhile()), 0)
  {
    var start := [ByConsumer(0, Crash)] + ([ByGateway(Complete(0, false, 1))] + ([ByConsumer(0, Deliver(Completed(0)))] + []));
    CrashedAndRedelivered(cfg, s, Complete(0, false, 1));
    RefusesAtFetch(cfg, Ends(cfg, s, start));
    RunsJoin(cfg, s, start, Refuses());
    assert start + Refuses() == RefuseMeanwhile();
  }

  ghost predicate RunStrands(cfg: Config, ls: seq<Label>) {
    && IsInitial(OneConsumer()) && Solo(OneConsumer(), 0)
    && Runs(cfg, OneConsumer(), ls)
    && Stranded(Ends(cfg, OneConsumer(), ls), 0)
  }

  lemma AfterGrade(cfg: Config, tail: seq<Label>) returns (s: State)
    ensures AtGrade(s)
    ensures Runs(cfg, s, tail) && Stranded(Ends(cfg, s, tail), 0) ==>
              RunStrands(cfg, CompleteOnce() + (UpToGrade() + tail))
  {
    CompletesOnce(cfg);
    var completed := Ends(cfg, OneConsumer(), CompleteOnce());
    ReachesGrade(cfg, completed);
    s := Ends(cfg, completed, UpToGrade());
    if Runs(cfg, s, tail) {
      RunsJoin(cfg, completed, UpToGrade(), tail);
      RunsJoin(cfg, OneConsumer(), CompleteOnce(), UpToGrade() + tail);
    }
  }

  /** One worker and one session: a grader's answer that fails validation, and a database that is
      away when that is to be recorded. */
  lemma ValidationErrorStrands(cfg: Config)
    ensures RunStrands(cfg, CompleteOnce() + (UpToGrade() + FailValidation()))
  {
    var s := AfterGrade(cfg, FailValidation());
    FailsValidation(cfg, s);
  }

  /** A session deleted between a crash and the redelivery, every call succeeding. */
  lemma DeletionStrands(cfg: Config)
    ensures RunStrands(cfg, CompleteOnce() + (UpToGrade() + DeleteMeanwhile()))
  {
    var s := AfterGrade(cfg, DeleteMeanwhile());
    DeletesMeanwhile(cfg, s);
  }

  /** A session completed again between a crash and the redelivery, with a verdict that refuses it. */
  lemma RefusalStrands(cfg: Config)
    ensures RunStrands(cfg, CompleteOnce() + (UpToGrade() + RefuseMeanwhile()))
  {
    var s := AfterGrade(cfg, RefuseMeanwhile());
    RefusesMeanwhile(cfg, s);
  }
}
