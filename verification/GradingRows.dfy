/** The `grading_results` and `grading_skip_log` tables: each statement of the worker's
    repository is one guarded, atomic row transition, keyed by the session. */
module GradingRows {
  import opened Options

  type SessionId = nat

  datatype Status = Processing | Failed | Graded

  /** Scores and feedback of one grading; `content` stands for every score and text field. */
  datatype GradingResult = GradingResult(provider: string, content: nat)

  datatype Problem = Problem(code: string, message: string)

  /** `grade` is what the score columns hold; only a completed grading writes them. */
  datatype Row = Row(status: Status, provider: string, attemptCount: nat,
                     problem: Option<Problem>, grade: Option<GradingResult>)

  type Table = map<SessionId, Row>

  const MAX_ERROR_MESSAGE := 500

  function Truncate(message: string): string {
    if |message| <= MAX_ERROR_MESSAGE then message else message[..MAX_ERROR_MESSAGE]
  }

  predicate IsGraded(table: Table, sid: SessionId) {
    sid in table && table[sid].status == Graded
  }

  predicate IsProcessing(table: Table, sid: SessionId) {
    sid in table && table[sid].status == Processing
  }

  // ---- The three writes as functions of the table ----

  function Processed(table: Table, sid: SessionId, provider: string): Table {
    if IsGraded(table, sid) then table
    else if sid in table then
      table[sid := table[sid].(status := Processing, provider := provider,
                               attemptCount := table[sid].attemptCount + 1, problem := None)]
    else
      table[sid := Row(Processing, provider, 1, None, None)]
  }

  function MarkedFailed(table: Table, sid: SessionId, provider: string, problem: Problem): Table {
    var bounded := Some(problem.(message := Truncate(problem.message)));
    if IsGraded(table, sid) then table
    else if sid in table then
      table[sid := table[sid].(status := Failed, provider := provider, problem := bounded)]
    else
      table[sid := Row(Failed, provider, 1, bounded, None)]
  }

  /** Unlike the two writes above, the final upsert carries no guard. */
  function Upserted(table: Table, sid: SessionId, result: GradingResult): Table {
    var attempts := if sid in table then table[sid].attemptCount else 0;
    table[sid := Row(Graded, result.provider, attempts, None, Some(result))]
  }

  // ---- What the guards are for ----

  datatype Write =
    | ToProcessing(provider: string)
    | ToFailed(provider: string, problem: Problem)
    | ToGraded(result: GradingResult)

  function Written(table: Table, sid: SessionId, w: Write): Table {
    match w
    case ToProcessing(provider) => Processed(table, sid, provider)
    case ToFailed(provider, problem) => MarkedFailed(table, sid, provider, problem)
    case ToGraded(result) => Upserted(table, sid, result)
  }

  function WrittenAll(table: Table, sid: SessionId, ws: seq<Write>): Table
    decreases |ws|
  {
    if ws == [] then table else WrittenAll(Written(table, sid, ws[0]), sid, ws[1..])
  }

  /** The content a session's row holds after any sequence of writes is that of the last upsert
      among them; the guarded writes never touch it, and a row once graded stays graded. */
  function LastGrade(ws: seq<Write>): (g: Option<GradingResult>)
    ensures g.Some? <==> exists i :: 0 <= i < |ws| && ws[i].ToGraded?
  {
    if ws == [] then None
    else
      var rest := LastGrade(ws[1..]);
      if rest.Some? then rest
      else if ws[0].ToGraded? then Some(ws[0].result)
      else
        assert ws == [ws[0]] + ws[1..];
        None
  }

  lemma {:induction false} WritesFromGraded(table: Table, sid: SessionId, ws: seq<Write>)
    requires IsGraded(table, sid)
    ensures IsGraded(WrittenAll(table, sid, ws), sid)
    ensures LastGrade(ws).Some? ==> WrittenAll(table, sid, ws)[sid].grade == LastGrade(ws)
    ensures LastGrade(ws).None? ==> WrittenAll(table, sid, ws) == table
  {
    if ws != [] {
      var next := Written(table, sid, ws[0]);
      WritesFromGraded(next, sid, ws[1..]);
      if LastGrade(ws).None? {
        assert !ws[0].ToGraded?;
      }
    }
  }

  /** A session is graded after a run of writes exactly when it was graded before or some write
      of the run was a completed grading, and then it shows the last such content. */
  lemma {:induction false} GradedExactlyWhenWritten(table: Table, sid: SessionId, ws: seq<Write>)
    ensures var after := WrittenAll(table, sid, ws);
            IsGraded(after, sid) <==> IsGraded(table, sid) || LastGrade(ws).Some?
    ensures var after := WrittenAll(table, sid, ws);
            LastGrade(ws).Some? ==> after[sid].grade == LastGrade(ws)
    decreases |ws|
  {
    if IsGraded(table, sid) {
      WritesFromGraded(table, sid, ws);
    } else if ws != [] {
      GradedExactlyWhenWritten(Written(table, sid, ws[0]), sid, ws[1..]);
      if ws[0].ToGraded? {
        WritesFromGraded(Written(table, sid, ws[0]), sid, ws[1..]);
        if LastGrade(ws[1..]).None? {
          assert Written(table, sid, ws[0])[sid].grade == LastGrade(ws);
        }
      }
    }
  }

  datatype SkipRow = SkipRow(reason: string, source: string, studentWordCount: Option<nat>, minWordsThreshold: Option<int>)

  datatype SkipCall = SkipCall(sid: SessionId, skip: SkipRow)

  /** The skip log after a sequence of calls, each an upsert of its session's one row. */
  function SkipsLogged(skips: map<SessionId, SkipRow>, calls: seq<SkipCall>): map<SessionId, SkipRow> {
    if calls == [] then skips
    else
      var last := calls[|calls| - 1];
      SkipsLogged(skips, calls[..|calls| - 1])[last.sid := last.skip]
  }

  /** The last call for a session, if any. */
  function LastSkip(calls: seq<SkipCall>, sid: SessionId): Option<SkipRow> {
    if calls == [] then None
    else if calls[|calls| - 1].sid == sid then Some(calls[|calls| - 1].skip)
    else LastSkip(calls[..|calls| - 1], sid)
  }

  /** However often sessions are skipped, each has one row at most: that of its last skip, or the
      one it had before. */
  lemma {:induction false} SkipLogHoldsLatest(skips: map<SessionId, SkipRow>, calls: seq<SkipCall>, sid: SessionId)
    ensures var after := SkipsLogged(skips, calls);
            && (sid in after <==> sid in skips || LastSkip(calls, sid).Some?)
            && (sid in after ==>
                  after[sid] == if LastSkip(calls, sid).Some? then LastSkip(calls, sid).value else skips[sid])
  {
    if calls != [] {
      SkipLogHoldsLatest(skips, calls[..|calls| - 1], sid);
    }
  }

  class GradingRepository {
    var results: Table
    var skips: map<SessionId, SkipRow>

    constructor ()
      ensures results == map[] && skips == map[]
    {
      results := map[];
      skips := map[];
    }

    /** Returns whether a row came back, i.e. whether grading may start. */
    method MarkGradingProcessing(sid: SessionId, provider: string) returns (started: bool)
      modifies this`results
      ensures results == Processed(old(results), sid, provider)
      ensures started <==> !IsGraded(old(results), sid)
      ensures started ==>
                && IsProcessing(results, sid) && results[sid].problem.None? && results[sid].provider == provider
                && results[sid].attemptCount == (if sid in old(results) then old(results)[sid].attemptCount else 0) + 1
                && results[sid].grade == (if sid in old(results) then old(results)[sid].grade else None)
      ensures !started ==> results == old(results)
      ensures results.Keys == old(results).Keys + {sid}
      ensures forall k :: k in old(results) && k != sid ==> results[k] == old(results)[k]
    {
      if sid !in results {
        results := results[sid := Row(Processing, provider, 1, None, None)];
        return true;
      }
      var row := results[sid];
      if row.status == Graded {
        return false;
      }
      results := results[sid := Row(Processing, provider, row.attemptCount + 1, None, row.grade)];
      started := true;
    }

    method MarkGradingFailed(sid: SessionId, provider: string, problem: Problem)
      modifies this`results
      ensures results == MarkedFailed(old(results), sid, provider, problem)
      ensures IsGraded(old(results), sid) ==> results == old(results)
      ensures !IsGraded(old(results), sid) ==>
                && sid in results && results[sid].status == Failed && results[sid].provider == provider
                && results[sid].problem.Some? && results[sid].problem.value.code == problem.code
                && results[sid].problem.value.message <= problem.message
                && |results[sid].problem.value.message|
                   == (if |problem.message| < MAX_ERROR_MESSAGE then |problem.message| else MAX_ERROR_MESSAGE)
                && results[sid].attemptCount == (if sid in old(results) then old(results)[sid].attemptCount else 1)
                && results[sid].grade == (if sid in old(results) then old(results)[sid].grade else None)
      ensures results.Keys == old(results).Keys + {sid}
      ensures forall k :: k in old(results) && k != sid ==> results[k] == old(results)[k]
    {
      var bounded := Problem(problem.code, Truncate(problem.message));
      if sid !in results {
        results := results[sid := Row(Failed, provider, 1, Some(bounded), None)];
        return;
      }
      var row := results[sid];
      if row.status != Graded {
        results := results[sid := Row(Failed, provider, row.attemptCount, Some(bounded), row.grade)];
      }
    }

    method UpsertGradingResult(sid: SessionId, result: GradingResult)
      modifies this`results
      ensures results == Upserted(old(results), sid, result)
      ensures IsGraded(results, sid) && results[sid].grade == Some(result)
      ensures results[sid].problem.None? && results[sid].provider == result.provider
      ensures results[sid].attemptCount == if sid in old(results) then old(results)[sid].attemptCount else 0
      ensures results.Keys == old(results).Keys + {sid}
      ensures forall k :: k in old(results) && k != sid ==> results[k] == old(results)[k]
    {
      var attempts := 0;
      if sid in results {
        attempts := results[sid].attemptCount;
      }
      results := results[sid := Row(Graded, result.provider, attempts, None, Some(result))];
    }

    /** One row a session, holding the latest skip; nobody else's row and no grading row changes. */
    method LogGradingSkip(sid: SessionId, skip: SkipRow)
      modifies this`skips
      ensures skips == SkipsLogged(old(skips), [SkipCall(sid, skip)])
      ensures sid in skips && skips[sid] == skip && skips.Keys == old(skips).Keys + {sid}
      ensures forall k :: k in old(skips) && k != sid ==> k in skips && skips[k] == old(skips)[k]
    {
      assert [SkipCall(sid, skip)][..0] == [];
      skips := skips[sid := skip];
    }
  }
}
