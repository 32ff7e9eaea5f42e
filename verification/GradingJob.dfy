/** One grading job as the sequence of its awaits, and the retry loop around it. The same steps
    serve the queue consumer and the reconciliation scanner. */
module GradingJob {
  import opened GradingRows
  import opened Options

  /** What the worker reads of a session: whether it is there at all, and the eligibility verdict
      on its event log under the configured word threshold. */
  datatype Session = Session(completed: bool, deleted: bool, eligible: bool)

  /** `gradings` records, per session, every completed grading ever written to its row. */
  datatype Tables = Tables(
    sessions: map<SessionId, Session>,
    results: Table,
    skips: set<SessionId>,
    gradings: map<SessionId, seq<GradingResult>>)

  /** A database call may succeed, fail untouched, or fail after its statement took effect. */
  datatype Outcome = Done | FailedBefore | FailedAfter

  /** How one await ends. A grader that fails is the LLM grader without its fallback, whose failure
      the job tries to record before it propagates; the stand-in grader always answers. */
  datatype Await =
    | DbCall(outcome: Outcome)
    | GraderAnswers(result: GradingResult)
    | GraderFails(validation: bool)

  datatype Pc =
    | Fetch
    | LogSkip
    | MarkProcessing
    | Grade
    | RecordFailure(validation: bool)
    | Upsert(result: GradingResult)

  datatype Next = Goto(pc: Pc) | Return | Raise(validation: bool)

  const FAILURE := Problem("Exception", "")

  predicate Answers(pc: Pc, await: Await) {
    pc.Grade? <==> !await.DbCall?
  }

  predicate Missing(t: Tables, sid: SessionId) {
    sid !in t.sessions || t.sessions[sid].deleted
  }

  function Gradings(t: Tables, sid: SessionId): seq<GradingResult> {
    if sid in t.gradings then t.gradings[sid] else []
  }

  function WithSkip(t: Tables, sid: SessionId): Tables {
    t.(skips := t.skips + {sid})
  }

  function WithProcessing(t: Tables, sid: SessionId, provider: string): Tables {
    t.(results := Processed(t.results, sid, provider))
  }

  function WithFailed(t: Tables, sid: SessionId, provider: string): Tables {
    t.(results := MarkedFailed(t.results, sid, provider, FAILURE))
  }

  function WithGrade(t: Tables, sid: SessionId, result: GradingResult): Tables {
    t.(results := Upserted(t.results, sid, result),
       gradings := t.gradings[sid := Gradings(t, sid) + [result]])
  }

  function After(outcome: Outcome, untouched: Tables, done: Tables): Tables {
    if outcome == FailedBefore then untouched else done
  }

  /** `process_session_completed_job` from one await to the next. */
  function JobStep(t: Tables, sid: SessionId, provider: string, pc: Pc, await: Await): (Tables, Next)
    requires Answers(pc, await)
  {
    match pc
    case Fetch =>
      (t, if await.outcome != Done then Raise(false)
          else if Missing(t, sid) then Return
          else if !t.sessions[sid].eligible then Goto(LogSkip)
          else Goto(MarkProcessing))
    case LogSkip =>
      (After(await.outcome, t, WithSkip(t, sid)),
       if await.outcome == Done then Return else Raise(false))
    case MarkProcessing =>
      (After(await.outcome, t, WithProcessing(t, sid, provider)),
       if await.outcome != Done then Raise(false)
       else if IsGraded(t.results, sid) then Return
       else Goto(Grade))
    case Grade =>
      (t, match await
          case GraderAnswers(result) => Goto(Upsert(result))
          case GraderFails(validation) => Goto(RecordFailure(validation)))
    case RecordFailure(validation) =>
      // Its own failure is swallowed; the error raised by grading is what propagates.
      (After(await.outcome, t, WithFailed(t, sid, provider)), Raise(validation))
    case Upsert(result) =>
      (After(await.outcome, t, WithGrade(t, sid, result)),
       if await.outcome == Done then Return else Raise(false))
  }

  /** Sessions are read, never written, by a job; every other table only gains entries, and
      a graded row stays graded. */
  lemma JobStepGrows(t: Tables, sid: SessionId, provider: string, pc: Pc, await: Await)
    requires Answers(pc, await)
    ensures var t' := JobStep(t, sid, provider, pc, await).0;
            && t'.sessions == t.sessions
            && t.results.Keys <= t'.results.Keys <= t.results.Keys + {sid}
            && t.skips <= t'.skips <= t.skips + {sid}
            && (forall k :: k in t.results && k != sid ==> t'.results[k] == t.results[k])
            && (forall k :: k != sid ==> Gradings(t', k) == Gradings(t, k))
            && (forall k :: IsGraded(t.results, k) ==> IsGraded(t'.results, k))
  {
  }

  // ---- A whole job, and the retry loop ----

  datatype Verdict = Returned | Raised(validation: bool)

  /** The awaits of one attempt: enough answers, of the right kind, to run it to its end. */
  ghost predicate Plays(t: Tables, sid: SessionId, provider: string, pc: Pc, script: seq<Await>)
    decreases |script|
  {
    && script != []
    && Answers(pc, script[0])
    && var (t', next) := JobStep(t, sid, provider, pc, script[0]);
       if next.Goto? then Plays(t', sid, provider, next.pc, script[1..]) else script[1..] == []
  }

  ghost function Played(t: Tables, sid: SessionId, provider: string, pc: Pc, script: seq<Await>): (Tables, Verdict)
    requires Plays(t, sid, provider, pc, script)
    decreases |script|
  {
    var (t', next) := JobStep(t, sid, provider, pc, script[0]);
    match next
    case Goto(pc') => Played(t', sid, provider, pc', script[1..])
    case Return => (t', Returned)
    case Raise(validation) => (t', Raised(validation))
  }

  /** How `_process_payload_with_retries` hands its message back to the queue handler. */
  datatype Settlement = Ack | Nack | Reject

  datatype Script = Script(attempts: seq<seq<Await>>, lastCall: Outcome)

  ghost predicate PlaysAll(t: Tables, sid: SessionId, provider: string, script: Script, maxAttempts: nat)
    decreases maxAttempts
  {
    maxAttempts == 0 ||
    (&& script.attempts != []
     && Plays(t, sid, provider, Fetch, script.attempts[0])
     && var (t', verdict) := Played(t, sid, provider, Fetch, script.attempts[0]);
        verdict == Raised(false) ==>
          PlaysAll(t', sid, provider, script.(attempts := script.attempts[1..]), maxAttempts - 1))
  }

  ghost function Retried(t: Tables, sid: SessionId, provider: string, script: Script, maxAttempts: nat): (Tables, Settlement)
    requires PlaysAll(t, sid, provider, script, maxAttempts)
    decreases maxAttempts
  {
    if maxAttempts == 0 then
      (After(script.lastCall, t, WithFailed(t, sid, provider)),
       if script.lastCall == Done then Ack else Nack)
    else
      var (t', verdict) := Played(t, sid, provider, Fetch, script.attempts[0]);
      match verdict
      case Returned => (t', Ack)
      case Raised(true) => (t', Reject)
      case Raised(false) =>
        Retried(t', sid, provider, script.(attempts := script.attempts[1..]), maxAttempts - 1)
  }

  // ---- What a whole delivery promises when nothing else runs beside it ----

  /** A session that has an answer: gone, refused, or with a row that is not left half done. */
  predicate Answered(t: Tables, sid: SessionId) {
    Missing(t, sid) || sid in t.skips || (sid in t.results && t.results[sid].status != Processing)
  }

  predicate AtPc(t: Tables, sid: SessionId, pc: Pc) {
    (pc.Grade? || pc.RecordFailure? || pc.Upsert?) ==> IsProcessing(t.results, sid)
  }

  lemma {:induction false} PlayedOutcome(t: Tables, sid: SessionId, provider: string, pc: Pc, script: seq<Await>)
    requires Plays(t, sid, provider, pc, script)
    requires AtPc(t, sid, pc)
    ensures var (t', verdict) := Played(t, sid, provider, pc, script);
            && t'.sessions == t.sessions
            && (verdict == Returned ==> Answered(t', sid))
            && (IsGraded(t.results, sid) ==> t'.results == t.results && t'.gradings == t.gradings)
            && (Gradings(t', sid) == Gradings(t, sid)
                || (IsGraded(t'.results, sid) && |Gradings(t', sid)| == |Gradings(t, sid)| + 1))
    decreases |script|
  {
    var (t', next) := JobStep(t, sid, provider, pc, script[0]);
    if next.Goto? {
      PlayedOutcome(t', sid, provider, next.pc, script[1..]);
    }
  }

  // ---- How a job ends ----

  predicate GoesWell(await: Await) {
    await == DbCall(Done) || await.GraderAnswers?
  }

  /** A job returns exactly if nothing in it went wrong, and raises a ValidationError exactly if its
      grading did: a failure that was recorded is a failure all the same. */
  lemma {:induction false} VerdictMeans(t: Tables, sid: SessionId, provider: string, pc: Pc, script: seq<Await>)
    requires Plays(t, sid, provider, pc, script)
    ensures var verdict := Played(t, sid, provider, pc, script).1;
            && (verdict == Returned <==> !pc.RecordFailure? && forall a :: a in script ==> GoesWell(a))
            && (verdict == Raised(true) <==> pc == RecordFailure(true) || GraderFails(true) in script)
    decreases |script|
  {
    var (t', next) := JobStep(t, sid, provider, pc, script[0]);
    assert script == [script[0]] + script[1..] && script[0] in script;
    assert forall a :: a in script <==> a == script[0] || a in script[1..];
    if next.Goto? {
      VerdictMeans(t', sid, provider, next.pc, script[1..]);
    }
  }

  /** A job that returns leaves its session gone, refused, or graded. */
  lemma {:induction false} ReturnedMeans(t: Tables, sid: SessionId, provider: string, pc: Pc, script: seq<Await>)
    requires Plays(t, sid, provider, pc, script)
    ensures var (t', verdict) := Played(t, sid, provider, pc, script);
            verdict == Returned ==> Settles(t', sid)
    decreases |script|
  {
    var (t', next) := JobStep(t, sid, provider, pc, script[0]);
    if next.Goto? {
      ReturnedMeans(t', sid, provider, next.pc, script[1..]);
    }
  }

  /** Nothing is left to grade. */
  predicate Settles(t: Tables, sid: SessionId) {
    Missing(t, sid) || sid in t.skips || IsGraded(t.results, sid)
  }

  /** The awaits of a job in which nothing goes wrong. */
  function GoodScript(t: Tables, sid: SessionId, result: GradingResult): seq<Await> {
    if Missing(t, sid) then [DbCall(Done)]
    else if !t.sessions[sid].eligible || IsGraded(t.results, sid) then [DbCall(Done)] + [DbCall(Done)]
    else [DbCall(Done)] + ([DbCall(Done)] + ([GraderAnswers(result)] + [DbCall(Done)]))
  }

  /** And what it does: nothing for a session gone, a skip for one refused, nothing to one graded
      before, and otherwise it shows just the grade that was answered. */
  lemma GoodJob(t: Tables, sid: SessionId, provider: string, result: GradingResult)
    ensures Plays(t, sid, provider, Fetch, GoodScript(t, sid, result))
    ensures var (t', verdict) := Played(t, sid, provider, Fetch, GoodScript(t, sid, result));
            && verdict == Returned
            && (Missing(t, sid) ==> t' == t)
            && (!Missing(t, sid) && !t.sessions[sid].eligible ==> t' == t.(skips := t.skips + {sid}))
            && (!Missing(t, sid) && t.sessions[sid].eligible ==>
                  if IsGraded(t.results, sid) then t' == t
                  else
                    && t'.skips == t.skips
                    && IsGraded(t'.results, sid) && t'.results[sid].grade == Some(result)
                    && Gradings(t', sid) == Gradings(t, sid) + [result])
  {
    if !Missing(t, sid) && t.sessions[sid].eligible && !IsGraded(t.results, sid) {
      GradedAfter(t, sid, provider, result);
    } else if !Missing(t, sid) {
      var second := if t.sessions[sid].eligible then MarkProcessing else LogSkip;
      PlaysOne(t, sid, provider, second, DbCall(Done));
      PlaysFirst(t, sid, provider, Fetch, DbCall(Done), [DbCall(Done)], second);
    } else {
      PlaysOne(t, sid, provider, Fetch, DbCall(Done));
    }
  }

  lemma PlaysOne(t: Tables, sid: SessionId, provider: string, pc: Pc, await: Await)
    requires Answers(pc, await) && !JobStep(t, sid, provider, pc, await).1.Goto?
    ensures Plays(t, sid, provider, pc, [await])
    ensures Played(t, sid, provider, pc, [await])
         == (JobStep(t, sid, provider, pc, await).0,
             if JobStep(t, sid, provider, pc, await).1 == Return then Returned
             else Raised(JobStep(t, sid, provider, pc, await).1.validation))
  {
    assert [await][1..] == [];
  }

  lemma PlaysFirst(t: Tables, sid: SessionId, provider: string, pc: Pc, await: Await, rest: seq<Await>, next: Pc)
    requires Answers(pc, await) && JobStep(t, sid, provider, pc, await).1 == Goto(next)
    requires Plays(JobStep(t, sid, provider, pc, await).0, sid, provider, next, rest)
    ensures Plays(t, sid, provider, pc, [await] + rest)
    ensures Played(t, sid, provider, pc, [await] + rest)
         == Played(JobStep(t, sid, provider, pc, await).0, sid, provider, next, rest)
  {
    assert ([await] + rest)[1..] == rest;
  }

  lemma GradedAfter(t: Tables, sid: SessionId, provider: string, result: GradingResult)
    requires !Missing(t, sid) && t.sessions[sid].eligible && !IsGraded(t.results, sid)
    ensures Plays(t, sid, provider, Fetch, GoodScript(t, sid, result))
    ensures Played(t, sid, provider, Fetch, GoodScript(t, sid, result))
         == (WithGrade(WithProcessing(t, sid, provider), sid, result), Returned)
  {
    var marked := WithProcessing(t, sid, provider);
    PlaysOne(marked, sid, provider, Upsert(result), DbCall(Done));
    PlaysFirst(marked, sid, provider, Grade, GraderAnswers(result), [DbCall(Done)], Upsert(result));
    PlaysFirst(t, sid, provider, MarkProcessing, DbCall(Done), [GraderAnswers(result)] + [DbCall(Done)], Grade);
    PlaysFirst(t, sid, provider, Fetch, DbCall(Done),
               [DbCall(Done)] + ([GraderAnswers(result)] + [DbCall(Done)]), MarkProcessing);
  }

  // ---- How a delivery ends ----

  /** The verdicts of the attempts a delivery makes. */
  ghost function Verdicts(t: Tables, sid: SessionId, provider: string, script: Script, maxAttempts: nat): seq<Verdict>
    requires PlaysAll(t, sid, provider, script, maxAttempts)
    decreases maxAttempts
  {
    if maxAttempts == 0 then []
    else
      var (t', verdict) := Played(t, sid, provider, Fetch, script.attempts[0]);
      [verdict] + if verdict == Raised(false)
                  then Verdicts(t', sid, provider, script.(attempts := script.attempts[1..]), maxAttempts - 1) else []
  }

  ghost predicate AllRaised(verdicts: seq<Verdict>) {
    forall i :: 0 <= i < |verdicts| ==> verdicts[i] == Raised(false)
  }

  /** Every attempt but the last has raised; the last one returns, or raises a ValidationError, or is
      the last allowed. The message is acknowledged, rejected or given back accordingly: the last
      write that records the failure decides between ack and nack only when all attempts raised. */
  ghost predicate SettledBy(vs: seq<Verdict>, how: Settlement, lastCall: Outcome, maxAttempts: nat) {
    var exhausted := |vs| == maxAttempts && AllRaised(vs);
    && |vs| <= maxAttempts
    && (vs != [] ==> AllRaised(vs[..|vs| - 1]))
    && (|vs| < maxAttempts ==> vs != [] && vs[|vs| - 1] != Raised(false))
    && (how == Reject <==> vs != [] && vs[|vs| - 1] == Raised(true))
    && (how == Nack <==> exhausted && lastCall != Done)
    && (how == Ack <==> (vs != [] && vs[|vs| - 1] == Returned) || (exhausted && lastCall == Done))
  }

  lemma {:induction false} SettlementMeans(t: Tables, sid: SessionId, provider: string, script: Script, maxAttempts: nat)
    requires PlaysAll(t, sid, provider, script, maxAttempts)
    ensures SettledBy(Verdicts(t, sid, provider, script, maxAttempts),
                      Retried(t, sid, provider, script, maxAttempts).1, script.lastCall, maxAttempts)
    decreases maxAttempts
  {
    if maxAttempts > 0 {
      var (t', verdict) := Played(t, sid, provider, Fetch, script.attempts[0]);
      if verdict == Raised(false) {
        var rest := script.(attempts := script.attempts[1..]);
        SettlementMeans(t', sid, provider, rest, maxAttempts - 1);
        OneMoreRaised(Verdicts(t', sid, provider, rest, maxAttempts - 1),
                      Retried(t', sid, provider, rest, maxAttempts - 1).1, script.lastCall, maxAttempts - 1);
      }
    }
  }

  lemma OneMoreRaised(vs: seq<Verdict>, how: Settlement, lastCall: Outcome, maxAttempts: nat)
    requires SettledBy(vs, how, lastCall, maxAttempts)
    ensures SettledBy([Raised(false)] + vs, how, lastCall, maxAttempts + 1)
  {
    var more := [Raised(false)] + vs;
    if vs != [] {
      assert more[..|more| - 1] == [Raised(false)] + vs[..|vs| - 1];
    }
    if AllRaised(more) {
      forall i | 0 <= i < |vs| ensures vs[i] == Raised(false) {
        assert more[i + 1] == vs[i];
      }
    }
  }

  /** A failed grading is tried again: a message acknowledged over a session that is there, not
      skipped and not graded has had all its attempts, each has raised, and its row shows the failure. */
  lemma {:induction false} AckAfterAllAttempts(t: Tables, sid: SessionId, provider: string, script: Script, maxAttempts: nat)
    requires PlaysAll(t, sid, provider, script, maxAttempts)
    ensures var (t', how) := Retried(t, sid, provider, script, maxAttempts);
            var vs := Verdicts(t, sid, provider, script, maxAttempts);
            how == Ack && !Settles(t', sid) ==>
              |vs| == maxAttempts && AllRaised(vs) && sid in t'.results && t'.results[sid].status == Status.Failed
    decreases maxAttempts
  {
    if maxAttempts > 0 {
      ReturnedMeans(t, sid, provider, Fetch, script.attempts[0]);
      var (t', verdict) := Played(t, sid, provider, Fetch, script.attempts[0]);
      if verdict == Raised(false) {
        AckAfterAllAttempts(t', sid, provider, script.(attempts := script.attempts[1..]), maxAttempts - 1);
      }
    }
  }

  /** A message is acknowledged only once its session is answered; and however many attempts the
      delivery makes, whichever calls fail and whether or not their statements took effect, it
      writes at most one grading, none at all to a session graded before. */
  lemma {:induction false} DeliveryOutcome(t: Tables, sid: SessionId, provider: string, script: Script, maxAttempts: nat)
    requires PlaysAll(t, sid, provider, script, maxAttempts)
    ensures var (t', how) := Retried(t, sid, provider, script, maxAttempts);
            && t'.sessions == t.sessions
            && (how == Ack ==> Answered(t', sid))
            && (IsGraded(t.results, sid) ==> t'.results == t.results && t'.gradings == t.gradings)
            && |Gradings(t', sid)| <= |Gradings(t, sid)| + 1
            && (Gradings(t', sid) == Gradings(t, sid) || IsGraded(t'.results, sid))
    decreases maxAttempts
  {
    if maxAttempts > 0 {
      PlayedOutcome(t, sid, provider, Fetch, script.attempts[0]);
      var (t', verdict) := Played(t, sid, provider, Fetch, script.attempts[0]);
      if verdict == Raised(false) {
        DeliveryOutcome(t', sid, provider, script.(attempts := script.attempts[1..]), maxAttempts - 1);
      }
    }
  }

  /** The worker process: the tables it shares through its repository, updated in place. */
  class Worker {
    var tables: Tables
    const provider: string

    constructor (tables: Tables, provider: string)
      ensures this.tables == tables && this.provider == provider
    {
      this.tables := tables;
      this.provider := provider;
    }

    /** One await of the job: the statement it issues and where control goes next. */
    method Step(sid: SessionId, pc: Pc, await: Await) returns (next: Next)
      requires Answers(pc, await)
      modifies this
      ensures (tables, next) == JobStep(old(tables), sid, provider, pc, await)
    {
      match pc
      case Fetch =>
        if await.outcome != Done {
          return Raise(false);
        }
        if sid !in tables.sessions || tables.sessions[sid].deleted {
          return Return;
        }
        next := if tables.sessions[sid].eligible then Goto(MarkProcessing) else Goto(LogSkip);
      case LogSkip =>
        if await.outcome != FailedBefore {
          tables := WithSkip(tables, sid);
        }
        next := if await.outcome == Done then Return else Raise(false);
      case MarkProcessing =>
        var already := IsGraded(tables.results, sid);
        if await.outcome != FailedBefore {
          tables := WithProcessing(tables, sid, provider);
        }
        next := if await.outcome != Done then Raise(false) else if already then Return else Goto(Grade);
      case Grade =>
        match await {
          case GraderAnswers(result) => next := Goto(Upsert(result));
          case GraderFails(validation) => next := Goto(RecordFailure(validation));
        }
      case RecordFailure(validation) =>
        if await.outcome != FailedBefore {
          tables := WithFailed(tables, sid, provider);
        }
        next := Raise(validation);
      case Upsert(result) =>
        if await.outcome != FailedBefore {
          tables := WithGrade(tables, sid, result);
        }
        next := if await.outcome == Done then Return else Raise(false);
    }

    method ProcessSessionCompletedJob(sid: SessionId, script: seq<Await>) returns (verdict: Verdict)
      requires Plays(tables, sid, provider, Fetch, script)
      modifies this
      ensures (tables, verdict) == Played(old(tables), sid, provider, Fetch, script)
    {
      var pc := Fetch;
      var i := 0;
      while true
        invariant 0 <= i < |script|
        invariant Plays(tables, sid, provider, pc, script[i..])
        invariant Played(tables, sid, provider, pc, script[i..]) == Played(old(tables), sid, provider, Fetch, script)
        decreases |script| - i
      {
        assert script[i..][1..] == script[i + 1..];
        var next := Step(sid, pc, script[i]);
        match next {
          case Goto(pc') =>
            pc := pc';
            i := i + 1;
          case Return =>
            return Returned;
          case Raise(validation) =>
            return Raised(validation);
        }
      }
    }

    /** The loop over attempts, then the last write that records the failure. */
    method ProcessPayloadWithRetries(sid: SessionId, script: Script, maxAttempts: nat) returns (how: Settlement)
      requires PlaysAll(tables, sid, provider, script, maxAttempts)
      modifies this
      ensures (tables, how) == Retried(old(tables), sid, provider, script, maxAttempts)
    {
      var attempt := 0;
      ghost var rest := script;
      while attempt < maxAttempts
        invariant 0 <= attempt <= maxAttempts
        invariant attempt <= |script.attempts|
        invariant rest == script.(attempts := script.attempts[attempt..])
        invariant PlaysAll(tables, sid, provider, rest, maxAttempts - attempt)
        invariant Retried(tables, sid, provider, rest, maxAttempts - attempt)
               == Retried(old(tables), sid, provider, script, maxAttempts)
      {
        assert rest.attempts[0] == script.attempts[attempt];
        assert rest.attempts[1..] == script.attempts[attempt + 1..];
        var verdict := ProcessSessionCompletedJob(sid, script.attempts[attempt]);
        if verdict == Returned {
          return Ack;
        }
        if verdict.validation {
          return Reject;
        }
        rest := rest.(attempts := rest.attempts[1..]);
        attempt := attempt + 1;
      }
      if script.lastCall != FailedBefore {
        tables := WithFailed(tables, sid, provider);
      }
      how := if script.lastCall == Done then Ack else Nack;
    }
  }
}
