/** What deliveries may rely on: settlement once, grading absorbing, and, with a single consumer
    and no scanner, grading written at most once. */
module CompletionOutcomes {
  import opened Options
  import opened GradingRows
  import opened GradingJob
  import opened Outbox
  import opened CompletionProtocol
  import opened CompletionSafety

  // ---- Every delivery is settled at most once, and soundly ----

  /** The deliveries that workers still hold, by worker. */
  function Held(s: State): map<ActorId, nat> {
    map c | c in s.consumers && s.consumers[c].Busy? && s.consumers[c].tag.Some? :: s.consumers[c].tag.value
  }

  ghost predicate TagsAgree(held: map<ActorId, nat>, b: Broker) {
    && (forall c :: c in held ==> held[c] < b.nextTag)
    && (forall c, i :: c in held && 0 <= i < |b.settled| ==> b.settled[i].tag != held[c])
    && (forall c, d :: c in held && d in held && c != d ==> held[c] != held[d])
    && (forall i :: 0 <= i < |b.settled| ==> b.settled[i].tag < b.nextTag)
    && (forall i, j :: 0 <= i < j < |b.settled| ==> b.settled[i].tag != b.settled[j].tag)
  }

  ghost predicate TagsOk(s: State) {
    TagsAgree(Held(s), s.broker)
  }

  /** Acknowledged and rejected jobs are for sessions that need no further message. */
  ghost predicate SettledSoundly(s: State) {
    forall i :: 0 <= i < |s.broker.settled| ==>
      var e := s.broker.settled[i];
      e.message.Completed? && e.how != Nack ==>
        e.message.sid in s.outbox && Finished(s.tables, e.message.sid)
  }

  lemma TagsKept(cfg: Config, s: State, l: Label)
    requires TagsOk(s)
    requires Can(cfg, s, l)
    ensures TagsOk(Do(cfg, s, l))
  {
    var s' := Do(cfg, s, l);
    match l
    case ByConsumer(c, step) =>
      HeldAfter(cfg, s, c, step);
      if step.Deliver? {
        TagIssued(Held(s), s.broker, c, s'.broker);
      } else if step.Settle? && c in Held(s) {
        TagSettled(Held(s), s.broker, c, s'.broker);
      } else {
        TagsDropped(Held(s), s.broker, Held(s'), s'.broker);
      }
    case ByGateway(g) =>
      assert Held(s') == Held(s);
      TagsDropped(Held(s), s.broker, Held(s'), s'.broker);
    case ByRelay(r, step) =>
      assert Held(s') == Held(s);
      TagsDropped(Held(s), s.broker, Held(s'), s'.broker);
    case ByScanner(a, step) =>
      assert Held(s') == Held(s);
      TagsDropped(Held(s), s.broker, Held(s'), s'.broker);
  }

  lemma TagIssued(held: map<ActorId, nat>, b: Broker, c: ActorId, b': Broker)
    requires TagsAgree(held, b)
    requires b'.settled == b.settled && b'.nextTag == b.nextTag + 1
    ensures TagsAgree(held[c := b.nextTag], b')
  {
  }

  lemma TagSettled(held: map<ActorId, nat>, b: Broker, c: ActorId, b': Broker)
    requires TagsAgree(held, b) && c in held
    requires |b'.settled| == |b.settled| + 1 && b.settled <= b'.settled
    requires b'.settled[|b.settled|].tag == held[c] && b'.nextTag == b.nextTag
    ensures TagsAgree(held - {c}, b')
  {
    assert forall i :: 0 <= i < |b.settled| ==> b'.settled[i] == b.settled[i];
    forall d, i | d in held - {c} && 0 <= i < |b'.settled|
      ensures b'.settled[i].tag != held[d]
    {
    }
  }

  lemma TagsDropped(held: map<ActorId, nat>, b: Broker, held': map<ActorId, nat>, b': Broker)
    requires TagsAgree(held, b)
    requires b'.settled == b.settled && b'.nextTag == b.nextTag
    requires forall c :: c in held' ==> c in held && held'[c] == held[c]
    ensures TagsAgree(held', b')
  {
  }

  /** A step hands out the next tag, or takes one back, settling it or not. */
  lemma HeldAfter(cfg: Config, s: State, c: ActorId, step: ConsumerStep)
    requires ConsumerCan(s, c, step)
    ensures var s' := ConsumerDoes(cfg, s, c, step);
            if step.Deliver? then
              && Held(s') == Held(s)[c := s.broker.nextTag]
              && s'.broker.settled == s.broker.settled && s'.broker.nextTag == s.broker.nextTag + 1
            else if step.Settle? && c in Held(s) then
              && Held(s') == Held(s) - {c}
              && |s'.broker.settled| == |s.broker.settled| + 1 && s.broker.settled <= s'.broker.settled
              && s'.broker.settled[|s.broker.settled|].tag == Held(s)[c]
              && s'.broker.nextTag == s.broker.nextTag
            else
              && (Held(s') == Held(s) || Held(s') == Held(s) - {c})
              && s'.broker.settled == s.broker.settled && s'.broker.nextTag == s.broker.nextTag
  {
    match step
    case Deliver(m) =>
    case JobAwait(await) =>
    case LastCall(outcome) =>
    case Settle =>
    case Crash =>
      assert Held(ConsumerDoes(cfg, s, c, step)) == Held(s) - {c};
    case ConnectionLost =>
      assert Held(ConsumerDoes(cfg, s, c, step)) == Held(s) - {c};
  }

  lemma SoundnessKept(cfg: Config, s: State, l: Label)
    requires Inv(cfg, s) && SettledSoundly(s)
    requires Can(cfg, s, l)
    ensures SettledSoundly(Do(cfg, s, l))
  {
    var s' := Do(cfg, s, l);
    StepKeeps(cfg, s, l);
    forall i | 0 <= i < |s'.broker.settled|
              && s'.broker.settled[i].message.Completed? && s'.broker.settled[i].how != Nack
      ensures s'.broker.settled[i].message.sid in s'.outbox
      ensures Finished(s'.tables, s'.broker.settled[i].message.sid)
    {
      var sid := s'.broker.settled[i].message.sid;
      if i < |s.broker.settled| {
        assert s'.broker.settled[i] == s.broker.settled[i];
        FinishedIsStable(cfg, s, l, sid);
        OutboxKeeps(cfg, s, l, sid);
      } else {
        assert l.ByConsumer? && ConsumerOk(cfg, s, s.consumers[l.c]);
      }
    }
  }

  /** Outbox rows are never removed, and the two final statuses never revert. */
  lemma OutboxKeeps(cfg: Config, s: State, l: Label, sid: SessionId)
    requires Inv(cfg, s)
    requires Can(cfg, s, l)
    requires sid in s.outbox
    ensures var s' := Do(cfg, s, l);
            && sid in s'.outbox
            && (s.outbox[sid].status != Pending ==> s'.outbox[sid] == s.outbox[sid])
            && s'.outbox[sid].attempts >= s.outbox[sid].attempts
  {
    if l.ByRelay? && l.relay.Commit? {
      var me := s.relays[l.r];
      assert RelayOk(s, me);
      DrainedPointwise(s.outbox, me.claim, me.confirmed, cfg.relayMaxAttempts);
      if sid in me.claim[..|me.confirmed|] {
        var i :| 0 <= i < |me.confirmed| && me.claim[i] == sid;
        assert Transition(s.outbox[sid], Do(cfg, s, l).outbox[sid], me.confirmed[i], cfg.relayMaxAttempts);
      }
    }
  }

  lemma {:induction false} SettlementRun(cfg: Config, s: State, ls: seq<Label>)
    requires Inv(cfg, s) && TagsOk(s) && SettledSoundly(s)
    requires Runs(cfg, s, ls)
    ensures TagsOk(Ends(cfg, s, ls)) && SettledSoundly(Ends(cfg, s, ls))
    decreases |ls|
  {
    if ls != [] {
      StepKeeps(cfg, s, ls[0]);
      TagsKept(cfg, s, ls[0]);
      SoundnessKept(cfg, s, ls[0]);
      SettlementRun(cfg, Do(cfg, s, ls[0]), ls[1..]);
    }
  }

  /** In every reachable state no delivery has been settled twice, and every job acknowledged or
      rejected so far is for a session with a result row, a skip row, or deleted. */
  lemma SettledAtMostOnce(cfg: Config, s: State, ls: seq<Label>)
    requires ValidConfig(cfg) && IsInitial(s)
    requires Runs(cfg, s, ls)
    ensures var e := Ends(cfg, s, ls);
            && (forall i, j :: 0 <= i < j < |e.broker.settled| ==> e.broker.settled[i].tag != e.broker.settled[j].tag)
            && SettledSoundly(e)
  {
    SettlementRun(cfg, s, ls);
  }

  // ---- Graded is absorbing, and shows the last grading written ----

  predicate GradeOk(t: Tables, sid: SessionId) {
    && (IsGraded(t.results, sid) <==> Gradings(t, sid) != [])
    && (IsGraded(t.results, sid) ==> t.results[sid].grade == Some(Gradings(t, sid)[|Gradings(t, sid)| - 1]))
  }

  lemma JobStepGrades(t: Tables, sid: SessionId, provider: string, pc: Pc, await: Await, k: SessionId)
    requires GradeOk(t, k)
    requires Answers(pc, await)
    ensures var t' := JobStep(t, sid, provider, pc, await).0;
            GradeOk(t', k) && Gradings(t, k) <= Gradings(t', k)
  {
    if k != sid {
      JobStepGrows(t, sid, provider, pc, await);
    }
    match pc
    case Fetch =>
    case LogSkip =>
    case MarkProcessing =>
    case Grade =>
    case RecordFailure(validation) =>
    case Upsert(result) =>
  }

  lemma GradesByConsumer(cfg: Config, s: State, c: ActorId, step: ConsumerStep, k: SessionId)
    requires GradeOk(s.tables, k)
    requires ConsumerCan(s, c, step)
    ensures var s' := ConsumerDoes(cfg, s, c, step);
            GradeOk(s'.tables, k) && Gradings(s.tables, k) <= Gradings(s'.tables, k)
  {
    if step.JobAwait? {
      JobStepGrades(s.tables, s.consumers[c].message.sid, cfg.provider, s.consumers[c].stage.pc, step.await, k);
    }
  }

  lemma GradesKept(cfg: Config, s: State, l: Label, k: SessionId)
    requires GradeOk(s.tables, k)
    requires Can(cfg, s, l)
    ensures var s' := Do(cfg, s, l);
            GradeOk(s'.tables, k) && Gradings(s.tables, k) <= Gradings(s'.tables, k)
  {
    match l
    case ByGateway(g) =>
    case ByRelay(r, step) =>
    case ByConsumer(c, step) => GradesByConsumer(cfg, s, c, step, k);
    case ByScanner(a, step) =>
      if step.ScanAwait? {
        JobStepGrades(s.tables, s.scanners[a].job.value.sid, cfg.provider, s.scanners[a].job.value.pc, step.await, k);
      }
  }

  lemma {:induction false} GradesRun(cfg: Config, s: State, ls: seq<Label>, k: SessionId)
    requires GradeOk(s.tables, k)
    requires Runs(cfg, s, ls)
    ensures var e := Ends(cfg, s, ls);
            GradeOk(e.tables, k) && Gradings(s.tables, k) <= Gradings(e.tables, k)
    decreases |ls|
  {
    if ls != [] {
      GradesKept(cfg, s, ls[0], k);
      GradesRun(cfg, Do(cfg, s, ls[0]), ls[1..], k);
    }
  }

  /** Under every interleaving of consumers and scanners, a session once graded is graded in
      every later state, and its row always shows the last grading that was written for it. */
  lemma GradedIsAbsorbing(cfg: Config, s: State, before: seq<Label>, after: seq<Label>, sid: SessionId)
    requires IsInitial(s)
    requires Runs(cfg, s, before) && Runs(cfg, Ends(cfg, s, before), after)
    requires IsGraded(Ends(cfg, s, before).tables.results, sid)
    ensures var e := Ends(cfg, Ends(cfg, s, before), after).tables;
            && IsGraded(e.results, sid)
            && Gradings(e, sid) != []
            && e.results[sid].grade == Some(Gradings(e, sid)[|Gradings(e, sid)| - 1])
  {
    GradesRun(cfg, s, before, sid);
    GradesRun(cfg, Ends(cfg, s, before), after, sid);
  }

  // ---- With the log and the threshold fixed, no session is both graded and skipped ----

  /** Completing a session again writes the same verdict as before. */
  ghost predicate LogsFixed(cfg: Config, s: State, ls: seq<Label>)
    requires Runs(cfg, s, ls)
    decreases |ls|
  {
    ls != [] ==>
      && KeepsVerdict(s, ls[0])
      && LogsFixed(cfg, Do(cfg, s, ls[0]), ls[1..])
  }

  predicate KeepsVerdict(s: State, l: Label) {
    l.ByGateway? && l.g.Complete? && l.g.sid in s.tables.sessions && s.tables.sessions[l.g.sid].completed ==>
      l.g.eligible == s.tables.sessions[l.g.sid].eligible
  }

  predicate Verdict(t: Tables, sid: SessionId, eligible: bool) {
    sid in t.sessions && t.sessions[sid].completed && t.sessions[sid].eligible == eligible
  }

  predicate JobVerdict(t: Tables, sid: SessionId, pc: Pc) {
    && (pc.LogSkip? ==> Verdict(t, sid, false))
    && (pc.MarkProcessing? || pc.Grade? || pc.RecordFailure? || pc.Upsert? ==> Verdict(t, sid, true))
  }

  predicate IsCompleted(t: Tables, sid: SessionId) {
    sid in t.sessions && t.sessions[sid].completed
  }

  ghost predicate VerdictsOk(s: State) {
    && (forall sid :: sid in s.tables.skips ==> Verdict(s.tables, sid, false))
    && (forall sid :: IsGraded(s.tables.results, sid) ==> Verdict(s.tables, sid, true))
    && (forall c :: c in s.consumers ==> ConsumerVerdict(s.tables, s.consumers[c]))
    && (forall a :: a in s.scanners ==> ScannerVerdict(s.tables, s.scanners[a]))
  }

  predicate ConsumerVerdict(t: Tables, me: Consumer) {
    me.Busy? && me.message.Completed? && me.stage.Attempt? ==> JobVerdict(t, me.message.sid, me.stage.pc)
  }

  ghost predicate ScannerVerdict(t: Tables, me: Scanner) {
    me.Scanning? ==>
      && (forall i :: 0 <= i < |me.todo| ==> IsCompleted(t, me.todo[i]))
      && (me.job.Some? ==> IsCompleted(t, me.job.value.sid) && JobVerdict(t, me.job.value.sid, me.job.value.pc))
  }

  lemma JobStepVerdict(t: Tables, sid: SessionId, provider: string, pc: Pc, await: Await)
    requires Answers(pc, await)
    requires IsCompleted(t, sid) && JobVerdict(t, sid, pc)
    requires forall k :: k in t.skips ==> Verdict(t, k, false)
    requires forall k :: IsGraded(t.results, k) ==> Verdict(t, k, true)
    ensures var (t', next) := JobStep(t, sid, provider, pc, await);
            && t'.sessions == t.sessions
            && (next.Goto? ==> JobVerdict(t', sid, next.pc))
            && (forall k :: k in t'.skips ==> Verdict(t', k, false))
            && (forall k :: IsGraded(t'.results, k) ==> Verdict(t', k, true))
  {
    JobStepGrows(t, sid, provider, pc, await);
    var t' := JobStep(t, sid, provider, pc, await).0;
    forall k | IsGraded(t'.results, k)
      ensures Verdict(t', k, true)
    {
      if k != sid {
        assert IsGraded(t.results, k);
      }
    }
  }

  lemma VerdictsKept(cfg: Config, s: State, l: Label)
    requires Inv(cfg, s) && VerdictsOk(s)
    requires Can(cfg, s, l) && KeepsVerdict(s, l)
    ensures VerdictsOk(Do(cfg, s, l))
  {
    match l
    case ByGateway(g) => VerdictsByGateway(s, g);
    case ByRelay(r, step) =>
    case ByConsumer(c, step) =>
      VerdictsByConsumer(cfg, s, c, step);
    case ByScanner(a, step) =>
      VerdictsByScanner(cfg, s, a, step);
  }

  /** Verdicts depend on the sessions alone. */
  lemma VerdictFrame(t: Tables, t': Tables)
    requires t'.sessions == t.sessions
    ensures forall me :: ConsumerVerdict(t, me) ==> ConsumerVerdict(t', me)
    ensures forall me :: ScannerVerdict(t, me) ==> ScannerVerdict(t', me)
  {
  }

  lemma VerdictsByScanner(cfg: Config, s: State, a: ActorId, step: ScannerStep)
    requires VerdictsOk(s)
    requires ScannerCan(s, a, step)
    ensures VerdictsOk(ScannerDoes(cfg, s, a, step))
  {
    var s' := ScannerDoes(cfg, s, a, step);
    assert ScannerVerdict(s.tables, s.scanners[a]);
    if step.ScanAwait? {
      var job := s.scanners[a].job.value;
      JobStepVerdict(s.tables, job.sid, cfg.provider, job.pc, step.await);
      VerdictFrame(s.tables, s'.tables);
    }
    assert ScannerVerdict(s'.tables, s'.scanners[a]);
  }

  lemma VerdictsByGateway(s: State, g: GatewayStep)
    requires VerdictsOk(s)
    requires GatewayCan(s, g) && KeepsVerdict(s, ByGateway(g))
    ensures VerdictsOk(GatewayDoes(s, g))
  {
    var s' := GatewayDoes(s, g);
    assert s'.consumers == s.consumers && s'.scanners == s.scanners;
    assert s'.tables.skips == s.tables.skips && s'.tables.results == s.tables.results;
    forall sid, e | Verdict(s.tables, sid, e)
      ensures Verdict(s'.tables, sid, e)
    {
    }
    forall sid | IsCompleted(s.tables, sid)
      ensures IsCompleted(s'.tables, sid)
    {
    }
    forall sid, pc | JobVerdict(s.tables, sid, pc)
      ensures JobVerdict(s'.tables, sid, pc)
    {
    }
  }

  lemma VerdictsByConsumer(cfg: Config, s: State, c: ActorId, step: ConsumerStep)
    requires Inv(cfg, s) && VerdictsOk(s)
    requires ConsumerCan(s, c, step)
    ensures VerdictsOk(ConsumerDoes(cfg, s, c, step))
  {
    var s' := ConsumerDoes(cfg, s, c, step);
    assert ConsumerOk(cfg, s, s.consumers[c]);
    assert ConsumerVerdict(s.tables, s.consumers[c]);
    match step
    case JobAwait(await) =>
      JobStepVerdict(s.tables, s.consumers[c].message.sid, cfg.provider, s.consumers[c].stage.pc, await);
      VerdictFrame(s.tables, s'.tables);
    case LastCall(outcome) =>
      assert forall k :: IsGraded(s'.tables.results, k) ==> IsGraded(s.tables.results, k);
      VerdictFrame(s.tables, s'.tables);
    case Deliver(m) =>
    case Settle =>
    case Crash =>
    case ConnectionLost =>
  }

  lemma {:induction false} VerdictsRun(cfg: Config, s: State, ls: seq<Label>)
    requires Inv(cfg, s) && VerdictsOk(s)
    requires Runs(cfg, s, ls) && LogsFixed(cfg, s, ls)
    ensures VerdictsOk(Ends(cfg, s, ls))
    decreases |ls|
  {
    if ls != [] {
      StepKeeps(cfg, s, ls[0]);
      VerdictsKept(cfg, s, ls[0]);
      VerdictsRun(cfg, Do(cfg, s, ls[0]), ls[1..]);
    }
  }

  lemma NeverGradedAndSkipped(cfg: Config, s: State, ls: seq<Label>, sid: SessionId)
    requires ValidConfig(cfg) && IsInitial(s)
    requires Runs(cfg, s, ls) && LogsFixed(cfg, s, ls)
    ensures var t := Ends(cfg, s, ls).tables;
            !(IsGraded(t.results, sid) && sid in t.skips)
  {
    VerdictsRun(cfg, s, ls);
  }
}
