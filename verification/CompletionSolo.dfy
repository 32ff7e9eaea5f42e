/** One queue consumer with prefetch 1 and no scanner beside it: a duplicate delivery never grades
    again, and an acknowledgement always has an answer behind it. */
module CompletionSolo {
  import opened Options
  import opened GradingRows
  import opened GradingJob
  import opened Outbox
  import opened CompletionProtocol
  import opened CompletionSafety
  import opened CompletionOutcomes

  ghost predicate Solo(s: State, c: ActorId) {
    s.consumers.Keys == {c} && s.scanners == map[]
  }

  /** What is known of the only consumer. */
  ghost predicate SoloOk(s: State, c: ActorId) {
    && Solo(s, c)
    && var me := s.consumers[c];
       me.Busy? ==>
         && (me.tag.None? ==> me.message in s.broker.ready)
         && (me.message.Completed? ==>
               && (me.stage.Attempt? ==> AtPc(s.tables, me.message.sid, me.stage.pc))
               && (me.stage == Settling(Ack) ==> Answered(s.tables, me.message.sid)))
  }

  lemma SoloKept(cfg: Config, s: State, c: ActorId, l: Label)
    requires Inv(cfg, s) && SoloOk(s, c)
    requires Can(cfg, s, l)
    ensures SoloOk(Do(cfg, s, l), c)
  {
    match l
    case ByGateway(g) => SoloByGateway(cfg, s, c, g);
    case ByRelay(r, step) =>
    case ByScanner(a, step) =>
    case ByConsumer(d, step) => SoloByConsumer(cfg, s, c, step);
  }

  lemma SoloByGateway(cfg: Config, s: State, c: ActorId, g: GatewayStep)
    requires Inv(cfg, s) && SoloOk(s, c)
    requires GatewayCan(s, g)
    ensures SoloOk(GatewayDoes(s, g), c)
  {
    assert ConsumerOk(cfg, s, s.consumers[c]);
    match g
    case Create(sid) =>
    case Delete(sid) =>
    case Complete(sid, eligible, now) =>
    case Publish(sid, copies) =>
    case GatewayCrash =>
    case Noise =>
  }

  lemma SoloByConsumer(cfg: Config, s: State, c: ActorId, step: ConsumerStep)
    requires SoloOk(s, c)
    requires ConsumerCan(s, c, step)
    ensures SoloOk(ConsumerDoes(cfg, s, c, step), c)
  {
    ConsumerFrame(cfg, s, c, step);
    match step
    case Deliver(m) =>
    case JobAwait(await) =>
    case LastCall(outcome) =>
    case Settle =>
    case Crash =>
    case ConnectionLost =>
  }

  // ---- Graded once ----

  lemma SoloGradesOnceStep(cfg: Config, s: State, c: ActorId, l: Label, sid: SessionId)
    requires SoloOk(s, c) && GradeOk(s.tables, sid)
    requires Can(cfg, s, l)
    requires |Gradings(s.tables, sid)| <= 1
    ensures |Gradings(Do(cfg, s, l).tables, sid)| <= 1
  {
    match l
    case ByGateway(g) =>
    case ByRelay(r, step) =>
    case ByScanner(a, step) =>
    case ByConsumer(d, step) =>
      match step {
        case JobAwait(await) =>
          if sid != s.consumers[c].message.sid {
            JobStepGrows(s.tables, s.consumers[c].message.sid, cfg.provider, s.consumers[c].stage.pc, await);
          }
        case Deliver(m) =>
        case LastCall(outcome) =>
        case Settle =>
        case Crash =>
        case ConnectionLost =>
      }
  }

  lemma {:induction false} SoloGradesOnceRun(cfg: Config, s: State, c: ActorId, ls: seq<Label>, sid: SessionId)
    requires Inv(cfg, s) && SoloOk(s, c) && GradeOk(s.tables, sid)
    requires Runs(cfg, s, ls)
    requires |Gradings(s.tables, sid)| <= 1
    ensures var e := Ends(cfg, s, ls);
            Inv(cfg, e) && SoloOk(e, c) && |Gradings(e.tables, sid)| <= 1
    decreases |ls|
  {
    if ls != [] {
      StepKeeps(cfg, s, ls[0]);
      SoloKept(cfg, s, c, ls[0]);
      GradesKept(cfg, s, ls[0], sid);
      SoloGradesOnceStep(cfg, s, c, ls[0], sid);
      SoloGradesOnceRun(cfg, Do(cfg, s, ls[0]), c, ls[1..], sid);
    }
  }

  lemma GradedStays(cfg: Config, s: State, c: ActorId, ls: seq<Label>, sid: SessionId)
    requires Inv(cfg, s) && SoloOk(s, c) && GradeOk(s.tables, sid)
    requires Runs(cfg, s, ls)
    requires |Gradings(s.tables, sid)| <= 1 && IsGraded(s.tables.results, sid)
    ensures var e := Ends(cfg, s, ls).tables;
            IsGraded(e.results, sid) && e.results[sid].grade == s.tables.results[sid].grade
  {
    SoloGradesOnceRun(cfg, s, c, ls, sid);
    GradesRun(cfg, s, ls, sid);
  }

  /** However many duplicates are delivered, one grading at most is ever written for a session,
      exactly one once it shows as graded, and what it then shows never changes again. */
  lemma SoloGradesExactlyOnce(cfg: Config, s: State, c: ActorId, before: seq<Label>, after: seq<Label>, sid: SessionId)
    requires ValidConfig(cfg) && IsInitial(s) && Solo(s, c)
    requires Runs(cfg, s, before) && Runs(cfg, Ends(cfg, s, before), after)
    ensures var t := Ends(cfg, s, before).tables;
            var e := Ends(cfg, Ends(cfg, s, before), after).tables;
            && |Gradings(t, sid)| == (if IsGraded(t.results, sid) then 1 else 0)
            && (IsGraded(t.results, sid) ==>
                  IsGraded(e.results, sid) && e.results[sid].grade == t.results[sid].grade)
  {
    SoloGradesOnceRun(cfg, s, c, before, sid);
    GradesRun(cfg, s, before, sid);
    if IsGraded(Ends(cfg, s, before).tables.results, sid) {
      GradedStays(cfg, Ends(cfg, s, before), c, after, sid);
    }
  }

  lemma {:induction false} SoloRun(cfg: Config, s: State, c: ActorId, ls: seq<Label>)
    requires Inv(cfg, s) && SoloOk(s, c)
    requires Runs(cfg, s, ls)
    ensures SoloOk(Ends(cfg, s, ls), c)
    decreases |ls|
  {
    if ls != [] {
      StepKeeps(cfg, s, ls[0]);
      SoloKept(cfg, s, c, ls[0]);
      SoloRun(cfg, Do(cfg, s, ls[0]), c, ls[1..]);
    }
  }

  /** When the consumer acknowledges a job, its session is graded, failed, skipped or gone. */
  lemma AckMeansAnswered(cfg: Config, s: State, c: ActorId, ls: seq<Label>)
    requires ValidConfig(cfg) && IsInitial(s) && Solo(s, c)
    requires Runs(cfg, s, ls)
    ensures var e := Ends(cfg, s, ls);
            c in e.consumers
            && (e.consumers[c].Busy? && e.consumers[c].message.Completed? && e.consumers[c].stage == Settling(Ack) ==>
                  Answered(e.tables, e.consumers[c].message.sid))
  {
    SoloRun(cfg, s, c, ls);
  }
}
