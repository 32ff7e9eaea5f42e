/** How many graders the guarantee "duplicates do not grade twice" can bear: exactly one, whether
    queue consumer or reconciliation scanner. */
module CompletionOverlap {
  import opened Options
  import opened GradingRows
  import opened GradingJob
  import opened Outbox
  import opened CompletionProtocol
  import opened CompletionSafety
  import opened CompletionOutcomes
  import opened CompletionSolo

  /** The two kinds of process that run grading jobs. */
  datatype Grader = AConsumer(c: ActorId) | AScanner(a: ActorId)

  predicate Present(s: State, k: Grader) {
    match k
    case AConsumer(c) => c in s.consumers
    case AScanner(a) => a in s.scanners
  }

  predicate AtRest(s: State, k: Grader) {
    match k
    case AConsumer(c) => c in s.consumers && s.consumers[c].Idle?
    case AScanner(a) => a in s.scanners && s.scanners[a].Resting?
  }

  /** `k` works on session `sid` and is about to do `pc`. */
  predicate JobAt(s: State, k: Grader, sid: SessionId, pc: Pc) {
    match k
    case AConsumer(c) =>
      && c in s.consumers && s.consumers[c].Busy? && s.consumers[c].message == Completed(sid)
      && s.consumers[c].stage.Attempt? && s.consumers[c].stage.pc == pc
    case AScanner(a) => a in s.scanners && s.scanners[a].Scanning? && s.scanners[a].job == Some(ScanJob(sid, pc))
  }

  /** A grader's own part of the state is the same in both. */
  predicate SameFor(s: State, s': State, k: Grader) {
    match k
    case AConsumer(c) => c in s.consumers && c in s'.consumers && s'.consumers[c] == s.consumers[c]
    case AScanner(a) => a in s.scanners && a in s'.scanners && s'.scanners[a] == s.scanners[a]
  }

  function Awaits(k: Grader, await: Await): Label {
    match k
    case AConsumer(c) => ByConsumer(c, JobAwait(await))
    case AScanner(a) => ByScanner(a, ScanAwait(await))
  }

  // ---- One grader's job ----

  /** What `other`, if it is another process, has to do with a step of `k`: nothing. */
  predicate Apart(s: State, s': State, k: Grader, other: Grader) {
    Present(s, other) && other != k ==> SameFor(s, s', other)
  }

  lemma AwaitGoes(cfg: Config, s: State, k: Grader, other: Grader, sid: SessionId, pc: Pc, await: Await, next: Pc)
    requires JobAt(s, k, sid, pc) && Answers(pc, await)
    requires JobStep(s.tables, sid, cfg.provider, pc, await).1 == Goto(next)
    ensures Can(cfg, s, Awaits(k, await))
    ensures var s' := Do(cfg, s, Awaits(k, await));
            && s'.tables == JobStep(s.tables, sid, cfg.provider, pc, await).0
            && JobAt(s', k, sid, next) && Apart(s, s', k, other)
  {
  }

  lemma AwaitUpserts(cfg: Config, s: State, k: Grader, other: Grader, sid: SessionId, result: GradingResult)
    requires JobAt(s, k, sid, Upsert(result))
    ensures Can(cfg, s, Awaits(k, DbCall(Done)))
    ensures var s' := Do(cfg, s, Awaits(k, DbCall(Done)));
            s'.tables == WithGrade(s.tables, sid, result) && Apart(s, s', k, other)
  {
  }

  /** A grader takes up a session: a consumer by its message, a scanner by finding it ungraded. */
  function Begins(k: Grader, sid: SessionId): seq<Label> {
    match k
    case AConsumer(c) => [ByConsumer(c, Deliver(Completed(sid)))] + []
    case AScanner(a) => [ByScanner(a, Scan([sid]))] + ([ByScanner(a, Start)] + [])
  }

  /** The message is there for a consumer, or the session one that a scanner looks for. */
  predicate MayBegin(s: State, k: Grader, sid: SessionId) {
    if k.AConsumer? then Completed(sid) in s.broker.ready else IsCandidate(s.tables, sid)
  }

  lemma BeginsJob(cfg: Config, s: State, k: Grader, other: Grader, sid: SessionId)
    requires AtRest(s, k) && MayBegin(s, k, sid)
    ensures Runs(cfg, s, Begins(k, sid))
    ensures var e := Ends(cfg, s, Begins(k, sid));
            && JobAt(e, k, sid, Fetch) && Apart(s, e, k, other) && e.tables == s.tables
            && e.broker.ready[Completed(sid)] + 1 >= s.broker.ready[Completed(sid)]
  {
    match k
    case AConsumer(c) =>
      RunsFirst(cfg, s, ByConsumer(c, Deliver(Completed(sid))), []);
    case AScanner(a) =>
      var s1 := Do(cfg, s, ByScanner(a, Scan([sid])));
      assert s1.scanners[a] == Scanning([sid], None);
      RunsFirst(cfg, s1, ByScanner(a, Start), []);
      RunsFirst(cfg, s, ByScanner(a, Scan([sid])), [ByScanner(a, Start)] + []);
  }

  function Works(k: Grader, result: GradingResult): seq<Label> {
    [Awaits(k, DbCall(Done))] + ([Awaits(k, DbCall(Done))] + ([Awaits(k, GraderAnswers(result))] + []))
  }

  /** From the beginning of the job up to its upsert. */
  lemma WorksJob(cfg: Config, s: State, k: Grader, other: Grader, sid: SessionId, result: GradingResult)
    requires JobAt(s, k, sid, Fetch)
    requires !Missing(s.tables, sid) && s.tables.sessions[sid].eligible && !IsGraded(s.tables.results, sid)
    ensures Runs(cfg, s, Works(k, result))
    ensures var e := Ends(cfg, s, Works(k, result));
            && JobAt(e, k, sid, Upsert(result)) && Apart(s, e, k, other)
            && e.tables == WithProcessing(s.tables, sid, cfg.provider)
  {
    var done, answer := Awaits(k, DbCall(Done)), Awaits(k, GraderAnswers(result));
    AwaitGoes(cfg, s, k, other, sid, Fetch, DbCall(Done), MarkProcessing);
    var s1 := Do(cfg, s, done);
    AwaitGoes(cfg, s1, k, other, sid, MarkProcessing, DbCall(Done), Grade);
    var s2 := Do(cfg, s1, done);
    AwaitGoes(cfg, s2, k, other, sid, Grade, GraderAnswers(result), Upsert(result));
    RunsFirst(cfg, s2, answer, []);
    RunsFirst(cfg, s1, done, [answer] + []);
    RunsFirst(cfg, s, done, [done] + ([answer] + []));
  }

  function GradesIt(k: Grader, sid: SessionId, result: GradingResult): seq<Label> {
    Begins(k, sid) + (Works(k, result) + ([Awaits(k, DbCall(Done))] + []))
  }

  /** A grading that can be done gets done: an idle consumer with the message of an eligible session
      in the broker, or a resting scanner that finds the session without a row or with a failed one,
      has a run that grades it with whatever the model answers. */
  lemma GradableGetsGraded(cfg: Config, s: State, k: Grader, sid: SessionId, result: GradingResult)
    requires AtRest(s, k) && MayBegin(s, k, sid)
    requires !Missing(s.tables, sid) && s.tables.sessions[sid].eligible && !IsGraded(s.tables.results, sid)
    ensures Runs(cfg, s, GradesIt(k, sid, result))
    ensures var t := Ends(cfg, s, GradesIt(k, sid, result)).tables;
            IsGraded(t.results, sid) && t.results[sid].grade == Some(result)
  {
    BeginsJob(cfg, s, k, k, sid);
    var s1 := Ends(cfg, s, Begins(k, sid));
    WorksJob(cfg, s1, k, k, sid, result);
    var s2 := Ends(cfg, s1, Works(k, result));
    AwaitUpserts(cfg, s2, k, k, sid, result);
    RunsFirst(cfg, s2, Awaits(k, DbCall(Done)), []);
    RunsJoin(cfg, s1, Works(k, result), [Awaits(k, DbCall(Done))] + []);
    RunsJoin(cfg, s, Begins(k, sid), Works(k, result) + ([Awaits(k, DbCall(Done))] + []));
  }

  /** And a session that was graded, or is being graded, is none a scanner begins. */
  lemma ScannerLeavesRunningJobs(cfg: Config, s: State, a: ActorId, ids: seq<SessionId>, sid: SessionId)
    requires Can(cfg, s, ByScanner(a, Scan(ids))) && sid in ids
    ensures !IsGraded(s.tables.results, sid) && !IsProcessing(s.tables.results, sid) && !Missing(s.tables, sid)
  {
    var i :| 0 <= i < |ids| && ids[i] == sid;
    assert IsCandidate(s.tables, ids[i]);
  }

  // ---- Two graders ----

  /** The session completes and its message is published twice. */
  function CompleteTwice(): seq<Label> {
    [ByGateway(Create(0))] + ([ByGateway(Complete(0, true, 0))] + ([ByGateway(Publish(0, 2))] + []))
  }

  lemma CompletesTwice(cfg: Config, s: State)
    requires IsInitial(s)
    ensures Runs(cfg, s, CompleteTwice())
    ensures var e := Ends(cfg, s, CompleteTwice());
            && e.consumers == s.consumers && e.scanners == s.scanners
            && e.broker.ready[Completed(0)] == 2
            && e.tables == Tables(map[0 := Session(true, false, true)], map[], {}, map[])
  {
    var s1 := Do(cfg, s, ByGateway(Create(0)));
    var s2 := Do(cfg, s1, ByGateway(Complete(0, true, 0)));
    RunsFirst(cfg, s2, ByGateway(Publish(0, 2)), []);
    RunsFirst(cfg, s1, ByGateway(Complete(0, true, 0)), [ByGateway(Publish(0, 2))] + []);
    RunsFirst(cfg, s, ByGateway(Create(0)), [ByGateway(Complete(0, true, 0))] + ([ByGateway(Publish(0, 2))] + []));
    assert s2.tables.sessions == map[0 := Session(true, false, true)];
  }

  /** Both graders take the session up before either has marked it. */
  function BothBegin(j: Grader, k: Grader): seq<Label> {
    CompleteTwice() + (Begins(j, 0) + Begins(k, 0))
  }

  lemma BothBeginJobs(cfg: Config, s: State, j: Grader, k: Grader)
    requires IsInitial(s) && Present(s, j) && Present(s, k) && j != k
    ensures Runs(cfg, s, BothBegin(j, k))
    ensures var e := Ends(cfg, s, BothBegin(j, k));
            && JobAt(e, j, 0, Fetch) && JobAt(e, k, 0, Fetch)
            && e.tables == Tables(map[0 := Session(true, false, true)], map[], {}, map[])
  {
    CompletesTwice(cfg, s);
    var s1 := Ends(cfg, s, CompleteTwice());
    BeginsJob(cfg, s1, j, k, 0);
    var s2 := Ends(cfg, s1, Begins(j, 0));
    BeginsJob(cfg, s2, k, j, 0);
    RunsJoin(cfg, s1, Begins(j, 0), Begins(k, 0));
    RunsJoin(cfg, s, CompleteTwice(), Begins(j, 0) + Begins(k, 0));
  }

  function BothUpsert(j: Grader, k: Grader): seq<Label> {
    [Awaits(j, DbCall(Done))] + ([Awaits(k, DbCall(Done))] + [])
  }

  lemma BothUpsertResults(cfg: Config, s: State, j: Grader, k: Grader, first: GradingResult, second: GradingResult)
    requires JobAt(s, j, 0, Upsert(first)) && JobAt(s, k, 0, Upsert(second)) && j != k
    requires Gradings(s.tables, 0) == []
    ensures Runs(cfg, s, BothUpsert(j, k))
    ensures var t := Ends(cfg, s, BothUpsert(j, k)).tables;
            Gradings(t, 0) == [first, second] && IsGraded(t.results, 0) && t.results[0].grade == Some(second)
  {
    AwaitUpserts(cfg, s, j, k, 0, first);
    var s1 := Do(cfg, s, Awaits(j, DbCall(Done)));
    assert Gradings(s1.tables, 0) == [first];
    AwaitUpserts(cfg, s1, k, j, 0, second);
    RunsFirst(cfg, s1, Awaits(k, DbCall(Done)), []);
    RunsFirst(cfg, s, Awaits(j, DbCall(Done)), [Awaits(k, DbCall(Done))] + []);
  }

  function OverlapRun(j: Grader, k: Grader, first: GradingResult, second: GradingResult): seq<Label> {
    BothBegin(j, k) + (Works(j, first) + (Works(k, second) + BothUpsert(j, k)))
  }

  /** Any two graders, two consumers, a consumer and a scanner, or two scanners, in any initial
      state: both mark the row before either has graded, the final upsert has no guard, and the
      content of a graded row is replaced, by any result. */
  lemma OverlapGradesTwice(cfg: Config, s: State, j: Grader, k: Grader, first: GradingResult, second: GradingResult)
    requires IsInitial(s) && Present(s, j) && Present(s, k) && j != k
    ensures Runs(cfg, s, OverlapRun(j, k, first, second))
    ensures var t := Ends(cfg, s, OverlapRun(j, k, first, second)).tables;
            Gradings(t, 0) == [first, second] && IsGraded(t.results, 0) && t.results[0].grade == Some(second)
  {
    BothBeginJobs(cfg, s, j, k);
    var s1 := Ends(cfg, s, BothBegin(j, k));
    WorksJob(cfg, s1, j, k, 0, first);
    var s2 := Ends(cfg, s1, Works(j, first));
    WorksJob(cfg, s2, k, j, 0, second);
    var s3 := Ends(cfg, s2, Works(k, second));
    BothUpsertResults(cfg, s3, j, k, first, second);
    RunsJoin(cfg, s2, Works(k, second), BothUpsert(j, k));
    RunsJoin(cfg, s1, Works(j, first), Works(k, second) + BothUpsert(j, k));
    RunsJoin(cfg, s, BothBegin(j, k), Works(j, first) + (Works(k, second) + BothUpsert(j, k)));
  }

  // ---- A scanner alone, or nobody ----

  ghost predicate ScannerAlone(s: State, a: ActorId) {
    && s.consumers == map[] && s.scanners.Keys <= {a}
    && (a in s.scanners && s.scanners[a].Scanning? && s.scanners[a].job.Some? ==>
          AtPc(s.tables, s.scanners[a].job.value.sid, s.scanners[a].job.value.pc))
  }

  lemma ScanKeeps(cfg: Config, s: State, a: ActorId, step: ScannerStep, sid: SessionId)
    requires ScannerAlone(s, a) && GradeOk(s.tables, sid) && |Gradings(s.tables, sid)| <= 1
    requires ScannerCan(s, a, step)
    ensures var s' := ScannerDoes(cfg, s, a, step);
            ScannerAlone(s', a) && |Gradings(s'.tables, sid)| <= 1
  {
    if step.ScanAwait? {
      var job := s.scanners[a].job.value;
      if sid != job.sid {
        JobStepGrows(s.tables, job.sid, cfg.provider, job.pc, step.await);
      }
    }
  }

  lemma ScannerAloneStep(cfg: Config, s: State, a: ActorId, l: Label, sid: SessionId)
    requires ScannerAlone(s, a) && GradeOk(s.tables, sid) && |Gradings(s.tables, sid)| <= 1
    requires Can(cfg, s, l)
    ensures ScannerAlone(Do(cfg, s, l), a) && |Gradings(Do(cfg, s, l).tables, sid)| <= 1
  {
    match l
    case ByGateway(g) =>
    case ByRelay(r, step) =>
    case ByConsumer(c, step) =>
    case ByScanner(b, step) => ScanKeeps(cfg, s, a, step, sid);
  }

  lemma {:induction false} ScannerAloneRun(cfg: Config, s: State, a: ActorId, ls: seq<Label>, sid: SessionId)
    requires ScannerAlone(s, a) && GradeOk(s.tables, sid) && |Gradings(s.tables, sid)| <= 1
    requires Runs(cfg, s, ls)
    ensures |Gradings(Ends(cfg, s, ls).tables, sid)| <= 1
    decreases |ls|
  {
    if ls != [] {
      ScannerAloneStep(cfg, s, a, ls[0], sid);
      GradesKept(cfg, s, ls[0], sid);
      ScannerAloneRun(cfg, Do(cfg, s, ls[0]), a, ls[1..], sid);
    }
  }

  // ---- The exact condition ----

  ghost predicate GradesOnce(cfg: Config, s: State) {
    forall ls: seq<Label>, sid: SessionId :: Runs(cfg, s, ls) ==> |Gradings(Ends(cfg, s, ls).tables, sid)| <= 1
  }

  lemma AloneGradesOnce(cfg: Config, s: State)
    requires ValidConfig(cfg) && IsInitial(s)
    requires |s.consumers| + |s.scanners| <= 1
    ensures GradesOnce(cfg, s)
  {
    forall ls: seq<Label>, sid: SessionId | Runs(cfg, s, ls)
      ensures |Gradings(Ends(cfg, s, ls).tables, sid)| <= 1
    {
      if s.consumers == map[] {
        var a := TheOnly(s.scanners.Keys);
        ScannerAloneRun(cfg, s, a, ls, sid);
      } else {
        var c := TheOnly(s.consumers.Keys);
        assert |s.consumers| >= 1 && s.scanners == map[];
        assert Solo(s, c) && Inv(cfg, s);
        SoloGradesOnceRun(cfg, s, c, ls, sid);
      }
    }
  }

  lemma TheOnly(ids: set<ActorId>) returns (a: ActorId)
    requires |ids| <= 1
    ensures ids <= {a}
    ensures ids != {} ==> ids == {a}
  {
    a := 0;
    if ids != {} {
      a :| a in ids;
      var others := ids - {a};
      assert |others| == |ids| - 1;
      assert ids == others + {a};
    }
  }

  lemma TwoOf(ids: set<ActorId>) returns (a: ActorId, b: ActorId)
    requires |ids| >= 2
    ensures a in ids && b in ids && a != b
  {
    a :| a in ids;
    var others := ids - {a};
    assert |others| == |ids| - 1;
    b :| b in others;
  }

  lemma TwoGraders(s: State) returns (j: Grader, k: Grader)
    requires |s.consumers| + |s.scanners| >= 2
    ensures Present(s, j) && Present(s, k) && j != k
  {
    if |s.consumers| >= 2 {
      var c, d := TwoOf(s.consumers.Keys);
      j, k := AConsumer(c), AConsumer(d);
    } else if |s.scanners| >= 2 {
      var a, b := TwoOf(s.scanners.Keys);
      j, k := AScanner(a), AScanner(b);
    } else {
      assert s.consumers.Keys != {} && s.scanners.Keys != {};
      var c :| c in s.consumers.Keys;
      var a :| a in s.scanners.Keys;
      j, k := AConsumer(c), AScanner(a);
    }
  }

  /** Duplicates do not grade twice, in any run from an empty system, exactly if at most one
      process grades: one consumer and no scanner, or one scanner and no consumer. */
  lemma GradedOnceExactlyWhenAlone(cfg: Config, s: State)
    requires ValidConfig(cfg) && IsInitial(s)
    ensures GradesOnce(cfg, s) <==> |s.consumers| + |s.scanners| <= 1
  {
    if |s.consumers| + |s.scanners| <= 1 {
      AloneGradesOnce(cfg, s);
    } else {
      var j, k := TwoGraders(s);
      var result := GradingResult("", 0);
      OverlapGradesTwice(cfg, s, j, k, result, result);
      var ls := OverlapRun(j, k, result, result);
      assert Runs(cfg, s, ls) && |Gradings(Ends(cfg, s, ls).tables, 0)| == 2;
    }
  }
}
