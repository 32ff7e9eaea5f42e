/** Three countings of a learner's words in one event log: the worker's eligibility gate, the
    worker's evaluation input, and the API's inferred status; and when they agree. */
module StudentWords {
  import opened Options
  import opened Strings

  datatype Json =
    | Null
    | Bool(b: bool)
    | Number(n: real)
    | Str(s: string)
    | Arr(items: seq<Json>)
    | Obj(fields: map<string, Json>)

  /** Python's text functions; `show` is `str()`, `decode` is `json.loads` without its errors. */
  datatype Py = Py(
    space: char -> bool,
    upper: string -> string,
    lower: string -> string,
    show: Json -> string,
    decode: string -> Option<Json>)

  ghost predicate Sane(py: Py) {
    && (forall s :: py.show(Str(s)) == s)
    && py.upper("USER_TURN") == "USER_TURN"
    && !py.space('U') && !py.space('N')
  }

  // ---- Python on JSON values ----

  predicate Truthy(v: Json) {
    match v
    case Null => false
    case Bool(b) => b
    case Number(n) => n != 0.0
    case Str(s) => s != ""
    case Arr(items) => items != []
    case Obj(fields) => fields != map[]
  }

  function Get(v: Json, key: string): Json {
    if v.Obj? && key in v.fields then v.fields[key] else Null
  }

  function Or(a: Json, b: Json): Json {
    if Truthy(a) then a else b
  }

  /** `len(s.split())`: a word starts at every visible character not preceded by one. */
  function WordCount(py: Py, s: string): nat {
    if s == "" then 0
    else
      WordCount(py, s[..|s| - 1])
      + if !py.space(s[|s| - 1]) && (|s| == 1 || py.space(s[|s| - 2])) then 1 else 0
  }

  /** Blank text has no word. */
  lemma {:induction false} BlankHasNone(py: Py, s: string)
    requires forall i :: 0 <= i < |s| ==> py.space(s[i])
    ensures WordCount(py, s) == 0
  {
    if s != "" {
      BlankHasNone(py, s[..|s| - 1]);
    }
  }

  /** Text without white space is one word. */
  lemma {:induction false} UnbrokenIsOne(py: Py, s: string)
    requires s != "" && forall i :: 0 <= i < |s| ==> !py.space(s[i])
    ensures WordCount(py, s) == 1
  {
    if |s| > 1 {
      UnbrokenIsOne(py, s[..|s| - 1]);
      assert !py.space(s[|s| - 2]);
    } else {
      assert s[..0] == "";
    }
  }

  /** White space divides the words before it from those behind it. */
  lemma {:induction false} SpaceDivides(py: Py, a: string, c: char, b: string)
    requires py.space(c)
    ensures WordCount(py, a + [c] + b) == WordCount(py, a) + WordCount(py, b)
    decreases |b|
  {
    var all := a + [c] + b;
    if b == "" {
      assert all == a + [c] && all[..|all| - 1] == a;
    } else {
      SpaceDivides(py, a, c, b[..|b| - 1]);
      assert all[..|all| - 1] == a + [c] + b[..|b| - 1];
    }
  }

  lemma {:induction false} VisibleHasWord(py: Py, s: string)
    requires exists i :: 0 <= i < |s| && !py.space(s[i])
    ensures WordCount(py, s) >= 1
  {
    var i :| 0 <= i < |s| && !py.space(s[i]);
    var init := s[..|s| - 1];
    if i < |s| - 1 {
      assert !py.space(init[i]);
      VisibleHasWord(py, init);
    } else if |s| > 1 && !py.space(s[|s| - 2]) {
      assert !py.space(init[|s| - 2]);
      VisibleHasWord(py, init);
    }
  }

  /** A stripped text that is not empty has a word. */
  lemma StrippedHasWord(py: Py, s: string)
    requires Strip(py.space, s) != ""
    ensures WordCount(py, Strip(py.space, s)) >= 1
  {
    RStripPrefix(py.space, LStrip(py.space, s));
    VisibleHasWord(py, Strip(py.space, s));
  }

  // ---- Reading one event ----

  const HARD_EXCLUDED := {
    "verification_language_mismatch", "non_english_verification_failed", "non_target_language",
    "mixed_non_english", "hallucination_suspected", "empty_transcript", "no_speech_detected",
    "background_noise", "weak_mixed_language_english"}

  function DecodeEvent(py: Py, event: Json): Json {
    if event.Str? then
      var decoded := py.decode(event.s);
      if decoded.Some? && decoded.value.Obj? then decoded.value else event
    else event
  }

  function EventType(event: Json): Json {
    Or(Get(event, "type"), Get(event, "event"))
  }

  function Kind(py: Py, event: Json): Option<string> {
    if !event.Obj? || !Truthy(EventType(event)) then None
    else Some(py.upper(Strip(py.space, py.show(EventType(event)))))
  }

  function EventText(py: Py, event: Json): string {
    var text := Get(Get(event, "payload"), "text");
    if text.Str? then Strip(py.space, text.s) else ""
  }

  function GradingText(py: Py, event: Json): string {
    var segment := Get(Get(event, "payload"), "english_segment");
    if segment.Str? && Strip(py.space, segment.s) != "" then Strip(py.space, segment.s) else EventText(py, event)
  }

  /** Some listed uncertainty reason, stripped, is one that rules a turn out. */
  predicate HasHardReason(py: Py, payload: Json) {
    var reasons := Get(payload, "uncertainty_reasons");
    reasons.Arr? && exists i :: 0 <= i < |reasons.items| && reasons.items[i].Str? && Strip(py.space, reasons.items[i].s) in HARD_EXCLUDED
  }

  predicate IsReliable(py: Py, raw: Json) {
    var event := DecodeEvent(py, raw);
    var payload := Get(event, "payload");
    && Kind(py, event) == Some("USER_TURN")
    && GradingText(py, event) != ""
    && Get(payload, "grading_eligible") != Bool(false)
    && Strip(py.space, py.show(Or(Get(payload, "excluded_from_grading_reason"), Str("")))) == ""
    && py.lower(Strip(py.space, py.show(Or(Get(payload, "turn_language_type"), Str(""))))) !in {"vietnamese", "noise"}
    && !HasHardReason(py, payload)
  }

  // ---- The gate ----

  function GateWords(py: Py, events: seq<Json>): nat {
    if events == [] then 0
    else
      var event := DecodeEvent(py, events[|events| - 1]);
      GateWords(py, events[..|events| - 1])
      + if Kind(py, event) == Some("USER_TURN") && IsReliable(py, event) then WordCount(py, GradingText(py, event)) else 0
  }

  function GateTurns(py: Py, events: seq<Json>): nat {
    if events == [] then 0
    else
      var event := DecodeEvent(py, events[|events| - 1]);
      GateTurns(py, events[..|events| - 1])
      + if Kind(py, event) == Some("USER_TURN") && IsReliable(py, event) then 1 else 0
  }

  function UserTurns(py: Py, events: seq<Json>): nat {
    if events == [] then 0
    else
      UserTurns(py, events[..|events| - 1])
      + if Kind(py, DecodeEvent(py, events[|events| - 1])) == Some("USER_TURN") then 1 else 0
  }

  datatype Reason = NoRawBackup | InvalidRawBackup | NoUserTurns | InsufficientWords | Eligible

  datatype Eligibility = Eligibility(reason: Reason, userTurns: nat, words: Option<nat>)

  function ParsedEvents(py: Py, raw: Json): Option<seq<Json>> {
    if raw.Arr? then Some(raw.items)
    else if raw.Str? then
      var parsed := py.decode(raw.s);
      if parsed.Some? && parsed.value.Arr? then Some(parsed.value.items) else None
    else None
  }

  function Verdict(py: Py, raw: Json, minWords: int): Eligibility {
    if raw.Null? then Eligibility(NoRawBackup, 0, None)
    else
      var events := ParsedEvents(py, raw);
      if events.None? then Eligibility(InvalidRawBackup, 0, None)
      else
        var turns, words := UserTurns(py, events.value), GateWords(py, events.value);
        if turns == 0 then Eligibility(NoUserTurns, 0, Some(0))
        else if GateTurns(py, events.value) == 0 || words < minWords then Eligibility(InsufficientWords, turns, Some(words))
        else Eligibility(Eligible, turns, Some(words))
  }

  lemma OneMoreEvent(py: Py, log: seq<Json>, i: nat)
    requires i < |log|
    ensures var event := DecodeEvent(py, log[i]);
            var reliable := Kind(py, event) == Some("USER_TURN") && IsReliable(py, event);
            && UserTurns(py, log[..i + 1])
               == UserTurns(py, log[..i]) + (if Kind(py, event) == Some("USER_TURN") then 1 else 0)
            && GateTurns(py, log[..i + 1]) == GateTurns(py, log[..i]) + (if reliable then 1 else 0)
            && GateWords(py, log[..i + 1])
               == GateWords(py, log[..i]) + (if reliable then WordCount(py, GradingText(py, event)) else 0)
  {
    assert log[..i + 1][..i] == log[..i];
  }

  method EvaluateGradingEligibility(py: Py, raw: Json, minWords: int) returns (e: Eligibility)
    ensures e == Verdict(py, raw, minWords)
  {
    if raw.Null? {
      return Eligibility(NoRawBackup, 0, None);
    }
    var events := ParsedEvents(py, raw);
    if events.None? {
      return Eligibility(InvalidRawBackup, 0, None);
    }
    var log := events.value;
    var userTurns, words, reliableTurns := 0, 0, 0;
    var i := 0;
    while i < |log|
      invariant 0 <= i <= |log|
      invariant userTurns == UserTurns(py, log[..i])
      invariant words == GateWords(py, log[..i])
      invariant reliableTurns == GateTurns(py, log[..i])
    {
      OneMoreEvent(py, log, i);
      var event := DecodeEvent(py, log[i]);
      if Kind(py, event) == Some("USER_TURN") {
        userTurns := userTurns + 1;
        if IsReliable(py, event) {
          reliableTurns := reliableTurns + 1;
          words := words + WordCount(py, GradingText(py, event));
        }
      }
      i := i + 1;
    }
    assert log[..i] == log;
    if userTurns == 0 {
      return Eligibility(NoUserTurns, 0, Some(0));
    }
    if reliableTurns == 0 || words < minWords {
      return Eligibility(InsufficientWords, userTurns, Some(words));
    }
    e := Eligibility(Eligible, userTurns, Some(words));
  }

  // ---- The evaluation input ----

  datatype Speaker = Student | Assistant

  datatype Turn = Turn(seqNo: nat, speaker: Speaker, text: string)

  datatype Input = Input(turns: seq<Turn>, ignored: nat, emptyText: nat, unreliable: nat)

  const NOTHING := Input([], 0, 0, 0)

  function AssistantText(py: Py, event: Json): string {
    Strip(py.space, py.show(Or(Get(Get(event, "payload"), "text"), Or(Get(event, "text"), Str("")))))
  }

  function Source(py: Py, event: Json): string {
    py.upper(Strip(py.space, py.show(Or(EventType(event), Str("")))))
  }

  /** One event joins the input as the next turn, or is ignored. */
  function Included(py: Py, input: Input, event: Json): Input {
    var source := Source(py, event);
    if !event.Obj? || source !in {"USER_TURN", "AI_TURN"} then input.(ignored := input.ignored + 1)
    else
      var text := if source == "USER_TURN" then GradingText(py, event) else AssistantText(py, event);
      if text == "" then input.(ignored := input.ignored + 1, emptyText := input.emptyText + 1)
      else if source == "USER_TURN" && !IsReliable(py, event) then
        input.(ignored := input.ignored + 1, unreliable := input.unreliable + 1)
      else
        input.(turns := input.turns + [Turn(|input.turns|, if source == "USER_TURN" then Student else Assistant, text)])
  }

  function Built(py: Py, events: seq<Json>): Input {
    if events == [] then NOTHING else Included(py, Built(py, events[..|events| - 1]), events[|events| - 1])
  }

  function StudentTurns(turns: seq<Turn>): nat {
    if turns == [] then 0
    else StudentTurns(turns[..|turns| - 1]) + if turns[|turns| - 1].speaker == Student then 1 else 0
  }

  function InputWords(py: Py, turns: seq<Turn>): nat {
    if turns == [] then 0
    else
      InputWords(py, turns[..|turns| - 1])
      + if turns[|turns| - 1].speaker == Student then WordCount(py, turns[|turns| - 1].text) else 0
  }

  method BuildEvaluationInput(py: Py, events: seq<Json>) returns (input: Input, studentWords: nat, hasStudentTurns: bool)
    ensures input == Built(py, events)
    ensures studentWords == InputWords(py, input.turns)
    ensures hasStudentTurns <==> StudentTurns(input.turns) > 0
  {
    var ignored, emptyText, unreliable := 0, 0, 0;
    var turns: seq<Turn> := [];
    var i := 0;
    while i < |events|
      invariant 0 <= i <= |events|
      invariant Input(turns, ignored, emptyText, unreliable) == Built(py, events[..i])
    {
      assert events[..i + 1][..i] == events[..i];
      var event := events[i];
      i := i + 1;
      if !event.Obj? {
        ignored := ignored + 1;
        continue;
      }
      var source := Source(py, event);
      if source !in {"USER_TURN", "AI_TURN"} {
        ignored := ignored + 1;
        continue;
      }
      var text := if source == "USER_TURN" then GradingText(py, event) else AssistantText(py, event);
      if text == "" {
        emptyText := emptyText + 1;
        ignored := ignored + 1;
        continue;
      }
      if source == "USER_TURN" && !IsReliable(py, event) {
        unreliable := unreliable + 1;
        ignored := ignored + 1;
        continue;
      }
      turns := turns + [Turn(|turns|, if source == "USER_TURN" then Student else Assistant, text)];
    }
    assert events[..i] == events;
    input := Input(turns, ignored, emptyText, unreliable);
    var k := 0;
    var studentTurns := 0;
    studentWords := 0;
    while k < |turns|
      invariant 0 <= k <= |turns|
      invariant studentTurns == StudentTurns(turns[..k])
      invariant studentWords == InputWords(py, turns[..k])
    {
      assert turns[..k + 1][..k] == turns[..k];
      if turns[k].speaker == Student {
        studentTurns := studentTurns + 1;
        studentWords := studentWords + WordCount(py, turns[k].text);
      }
      k := k + 1;
    }
    assert turns[..k] == turns;
    hasStudentTurns := studentTurns > 0;
  }

  // ---- The gate and the input agree ----

  /** The source the input reads is the kind the gate reads. */
  lemma SameKind(py: Py, event: Json)
    requires Sane(py) && event.Obj?
    ensures Kind(py, event) == Some("USER_TURN") <==>
              Source(py, event) == "USER_TURN" && Truthy(EventType(event))
  {
  }

  /** An empty type is no turn at all. */
  ghost predicate NothingIsNoTurn(py: Py) {
    py.upper("") == ""
  }

  lemma IncludedStudent(py: Py, input: Input, event: Json)
    requires Sane(py) && NothingIsNoTurn(py)
    ensures var next := Included(py, input, event);
            && |next.turns| + next.ignored == |input.turns| + input.ignored + 1
            && StudentTurns(next.turns) == StudentTurns(input.turns) + (if event.Obj? && IsReliable(py, event) then 1 else 0)
            && InputWords(py, next.turns)
               == InputWords(py, input.turns) + (if event.Obj? && IsReliable(py, event) then WordCount(py, GradingText(py, event)) else 0)
            && input.turns <= next.turns
            && (|next.turns| > |input.turns| ==> next.turns[|input.turns|].seqNo == |input.turns|)
  {
    var next := Included(py, input, event);
    assert Strip(py.space, "") == "";
    if event.Obj? {
      SameKind(py, event);
    }
    if |next.turns| > |input.turns| {
      assert next.turns[..|next.turns| - 1] == input.turns;
    }
  }

  /** Words in string-encoded events, which the gate decodes and the input builder does not. */
  function EncodedWords(py: Py, events: seq<Json>): nat {
    if events == [] then 0
    else
      var last := events[|events| - 1];
      EncodedWords(py, events[..|events| - 1])
      + if last.Str? && IsReliable(py, last) then WordCount(py, GradingText(py, DecodeEvent(py, last))) else 0
  }

  lemma DecodeTwice(py: Py, event: Json)
    ensures DecodeEvent(py, DecodeEvent(py, event)) == DecodeEvent(py, event)
  {
  }

  /** For every log: each event becomes a turn or is ignored, turns are numbered in log order, and
      the gate's words are the input's plus those of string-encoded events. */
  lemma {:induction false} GateAgainstInput(py: Py, events: seq<Json>)
    requires Sane(py) && NothingIsNoTurn(py)
    ensures var input := Built(py, events);
            && |events| == |input.turns| + input.ignored
            && (forall i :: 0 <= i < |input.turns| ==> input.turns[i].seqNo == i)
            && GateWords(py, events) == InputWords(py, input.turns) + EncodedWords(py, events)
            && StudentTurns(input.turns) <= GateTurns(py, events)
  {
    if events != [] {
      var init, last := events[..|events| - 1], events[|events| - 1];
      GateAgainstInput(py, init);
      IncludedStudent(py, Built(py, init), last);
      DecodeTwice(py, last);
      assert IsReliable(py, DecodeEvent(py, last)) <==> IsReliable(py, last);
    }
  }

  lemma {:induction false} NoEncodedWords(py: Py, events: seq<Json>)
    ensures EncodedWords(py, events) == 0 <==> forall e :: e in events && e.Str? ==> !IsReliable(py, e)
  {
    if events != [] {
      var init, last := events[..|events| - 1], events[|events| - 1];
      NoEncodedWords(py, init);
      assert events == init + [last];
      if last.Str? && IsReliable(py, last) {
        GradingTextHasWord(py, DecodeEvent(py, last));
        assert last in events;
      }
    }
  }

  lemma GradingTextHasWord(py: Py, event: Json)
    requires GradingText(py, event) != ""
    ensures WordCount(py, GradingText(py, event)) >= 1
  {
    var segment := Get(Get(event, "payload"), "english_segment");
    var text := Get(Get(event, "payload"), "text");
    if segment.Str? && Strip(py.space, segment.s) != "" {
      StrippedHasWord(py, segment.s);
    } else {
      StrippedHasWord(py, text.s);
    }
  }

  /** The two counts of the worker agree exactly on the logs without a reliable student turn
      hidden in a string-encoded event; in particular on all logs of plain mappings. */
  lemma CountsAgree(py: Py, events: seq<Json>)
    requires Sane(py) && NothingIsNoTurn(py)
    ensures GateWords(py, events) == InputWords(py, Built(py, events).turns)
            <==> forall e :: e in events && e.Str? ==> !IsReliable(py, e)
  {
    GateAgainstInput(py, events);
    NoEncodedWords(py, events);
  }

  lemma {:induction false} TurnsAgree(py: Py, events: seq<Json>)
    requires Sane(py) && NothingIsNoTurn(py)
    requires forall e :: e in events && e.Str? ==> !IsReliable(py, e)
    ensures StudentTurns(Built(py, events).turns) == GateTurns(py, events)
  {
    if events != [] {
      var init, last := events[..|events| - 1], events[|events| - 1];
      assert events == init + [last];
      TurnsAgree(py, init);
      IncludedStudent(py, Built(py, init), last);
      DecodeTwice(py, last);
      assert IsReliable(py, DecodeEvent(py, last)) <==> IsReliable(py, last);
      assert last in events;
    }
  }

  /** Some event is a plain mapping and a reliable student turn. */
  ghost predicate HasPlainReliable(py: Py, events: seq<Json>) {
    exists e :: e in events && e.Obj? && IsReliable(py, e)
  }

  /** The input has a student turn exactly if the log has a reliable one that is not encoded. */
  lemma {:induction false} StudentTurnExactlyWhenPlain(py: Py, events: seq<Json>)
    requires Sane(py) && NothingIsNoTurn(py)
    ensures StudentTurns(Built(py, events).turns) > 0 <==> HasPlainReliable(py, events)
  {
    if events != [] {
      var init, last := events[..|events| - 1], events[|events| - 1];
      assert events == init + [last];
      StudentTurnExactlyWhenPlain(py, init);
      IncludedStudent(py, Built(py, init), last);
      if last.Obj? && IsReliable(py, last) {
        assert last in events;
      }
      if e :| e in init && e.Obj? && IsReliable(py, e) {
        assert e in events;
      }
    }
  }

  /** A session the gate admits yields at least one student turn. */
  lemma EligibleHasStudentTurn(py: Py, raw: Json, minWords: int)
    requires Sane(py) && NothingIsNoTurn(py)
    requires Verdict(py, raw, minWords).reason == Eligible
    requires forall e :: e in ParsedEvents(py, raw).value && e.Str? ==> !IsReliable(py, e)
    ensures StudentTurns(Built(py, ParsedEvents(py, raw).value).turns) >= 1
    ensures InputWords(py, Built(py, ParsedEvents(py, raw).value).turns) >= minWords
  {
    TurnsAgree(py, ParsedEvents(py, raw).value);
    CountsAgree(py, ParsedEvents(py, raw).value);
  }

  // ---- The API's count ----

  /** The API decodes a string event to whatever it holds, and matches the type exactly. */
  function ApiEvent(py: Py, event: Json): Json {
    if event.Str? then
      var decoded := py.decode(event.s);
      if decoded.Some? then decoded.value else Null
    else event
  }

  function ApiText(py: Py, event: Json): string {
    var payload := Get(event, "payload");
    Strip(py.space, py.show(Or(Get(payload, "english_segment"), Or(Get(payload, "text"), Str("")))))
  }

  predicate ApiCounts(py: Py, event: Json) {
    && event.Obj?
    && EventType(event) == Str("USER_TURN")
    && Get(Get(event, "payload"), "grading_eligible") != Bool(false)
  }

  function ApiWords(py: Py, events: seq<Json>): nat {
    if events == [] then 0
    else
      var event := ApiEvent(py, events[|events| - 1]);
      ApiWords(py, events[..|events| - 1]) + if ApiCounts(py, event) then WordCount(py, ApiText(py, event)) else 0
  }

  function ApiStudentWords(py: Py, raw: Json): Option<nat> {
    if raw.Null? then None
    else
      var events := ParsedEvents(py, raw);
      Some(if events.Some? then ApiWords(py, events.value) else 0)
  }

  method ComputeStudentWordCount(py: Py, raw: Json) returns (count: Option<nat>)
    ensures count == ApiStudentWords(py, raw)
  {
    if raw.Null? {
      return None;
    }
    var parsed := ParsedEvents(py, raw);
    var events := if parsed.Some? then parsed.value else [];
    var total := 0;
    var i := 0;
    while i < |events|
      invariant 0 <= i <= |events|
      invariant total == ApiWords(py, events[..i])
    {
      assert events[..i + 1][..i] == events[..i];
      var event := ApiEvent(py, events[i]);
      i := i + 1;
      if !event.Obj? || EventType(event) != Str("USER_TURN") {
        continue;
      }
      if Get(Get(event, "payload"), "grading_eligible") == Bool(false) {
        continue;
      }
      var text := ApiText(py, event);
      if text != "" {
        total := total + WordCount(py, text);
      }
    }
    assert events[..i] == events;
    count := Some(total);
  }

  /** The status inferred for a session with neither a grading row nor a skip row. */
  predicate InferredInsufficient(py: Py, raw: Json, minWords: int) {
    var words := ApiStudentWords(py, raw);
    words.Some? && words.value < minWords
  }

  predicate IsTextOrMissing(v: Json) {
    v.Null? || v.Str?
  }

  /** A student turn's English segment is text, as every writer of the log leaves it. */
  predicate IsTextual(py: Py, raw: Json) {
    var event := DecodeEvent(py, raw);
    var payload := Get(event, "payload");
    Kind(py, event) == Some("USER_TURN") ==> IsTextOrMissing(Get(payload, "english_segment"))
  }

  predicate HasBlankSegment(py: Py, event: Json) {
    var segment := Get(Get(event, "payload"), "english_segment");
    segment.Str? && segment.s != "" && Strip(py.space, segment.s) == ""
  }

  /** A turn that the worker counts and the API does not see: its type is not spelled exactly, or
      its English segment is nothing but blanks. */
  predicate Hides(py: Py, raw: Json) {
    var event := DecodeEvent(py, raw);
    IsReliable(py, raw) && (EventType(event) != Str("USER_TURN") || HasBlankSegment(py, event))
  }

  lemma SeenIsCounted(py: Py, raw: Json)
    requires Sane(py) && IsTextual(py, raw) && IsReliable(py, raw) && !Hides(py, raw)
    ensures ApiCounts(py, ApiEvent(py, raw))
    ensures ApiText(py, ApiEvent(py, raw)) == GradingText(py, DecodeEvent(py, raw))
  {
    var event := DecodeEvent(py, raw);
    assert event.Obj?;
    assert ApiEvent(py, raw) == event;
    assert Strip(py.space, "") == "";
  }

  lemma HiddenIsNotCounted(py: Py, raw: Json)
    requires Sane(py) && Hides(py, raw)
    ensures ApiCounts(py, ApiEvent(py, raw)) ==> ApiText(py, ApiEvent(py, raw)) == ""
    ensures WordCount(py, GradingText(py, DecodeEvent(py, raw))) >= 1
  {
    var event := DecodeEvent(py, raw);
    assert event.Obj? && ApiEvent(py, raw) == event;
    GradingTextHasWord(py, event);
  }

  function ApiEventWords(py: Py, raw: Json): nat {
    var event := ApiEvent(py, raw);
    if ApiCounts(py, event) then WordCount(py, ApiText(py, event)) else 0
  }

  function GateEventWords(py: Py, raw: Json): nat {
    if IsReliable(py, raw) then WordCount(py, GradingText(py, DecodeEvent(py, raw))) else 0
  }

  /** The API counts fewer words of an event than the worker exactly if the event hides them. */
  lemma FewerExactlyWhenHidden(py: Py, raw: Json)
    requires Sane(py) && IsTextual(py, raw)
    ensures ApiEventWords(py, raw) < GateEventWords(py, raw) <==> Hides(py, raw)
  {
    if Hides(py, raw) {
      HiddenIsNotCounted(py, raw);
    } else if IsReliable(py, raw) {
      SeenIsCounted(py, raw);
    }
  }

  lemma OneMoreWords(py: Py, init: seq<Json>, last: Json)
    ensures ApiWords(py, init + [last]) == ApiWords(py, init) + ApiEventWords(py, last)
    ensures GateWords(py, init + [last]) == GateWords(py, init) + GateEventWords(py, last)
  {
    var log := init + [last];
    assert log[..|log| - 1] == init;
    DecodeTwice(py, last);
    assert IsReliable(py, DecodeEvent(py, last)) <==> IsReliable(py, last);
  }

  lemma {:induction false} ApiCountsNoLess(py: Py, events: seq<Json>)
    requires Sane(py)
    requires forall e :: e in events ==> IsTextual(py, e) && !Hides(py, e)
    ensures ApiWords(py, events) >= GateWords(py, events)
  {
    if events != [] {
      var init, last := events[..|events| - 1], events[|events| - 1];
      assert events == init + [last];
      ApiCountsNoLess(py, init);
      assert last in events;
      OneMoreWords(py, init, last);
      FewerExactlyWhenHidden(py, last);
    }
  }

  /** Under one threshold, a session the API already shows as lacking evidence is one the worker
      refuses to grade. */
  lemma InferredInsufficientIsRefused(py: Py, raw: Json, minWords: int)
    requires Sane(py)
    requires ParsedEvents(py, raw).Some? ==>
               forall e :: e in ParsedEvents(py, raw).value ==> IsTextual(py, e) && !Hides(py, e)
    requires InferredInsufficient(py, raw, minWords)
    ensures Verdict(py, raw, minWords).reason != Eligible
  {
    if ParsedEvents(py, raw).Some? {
      ApiCountsNoLess(py, ParsedEvents(py, raw).value);
    }
  }

  ghost predicate IsLogOf(log: seq<Json>, kinds: iset<Json>) {
    forall e :: e in log ==> e in kinds
  }

  /** A log of one hiding event divides the services. */
  lemma HiddenDivides(py: Py, e: Json)
    requires Sane(py) && IsTextual(py, e) && Hides(py, e)
    ensures ApiWords(py, [e]) < GateWords(py, [e])
    ensures InferredInsufficient(py, Arr([e]), 1) && Verdict(py, Arr([e]), 1).reason == Eligible
  {
    assert [] + [e] == [e];
    OneMoreWords(py, [], e);
    HiddenIsNotCounted(py, e);
    assert ApiEventWords(py, e) == 0;
    assert [e][..0] == [];
    DecodeTwice(py, e);
    assert IsReliable(py, DecodeEvent(py, e)) <==> IsReliable(py, e);
    assert GateTurns(py, [e]) == 1 && UserTurns(py, [e]) == 1;
  }

  /** On all logs made of certain events the API counts no less than the worker, exactly if none
      of these events hides its words. */
  lemma CountsNoLessExactlyWhenNothingHidden(py: Py, kinds: iset<Json>)
    requires Sane(py) && forall e :: e in kinds ==> IsTextual(py, e)
    ensures (forall log: seq<Json> :: IsLogOf(log, kinds) ==> ApiWords(py, log) >= GateWords(py, log))
            <==> forall e :: e in kinds ==> !Hides(py, e)
  {
    if e :| e in kinds && Hides(py, e) {
      HiddenDivides(py, e);
      assert IsLogOf([e], kinds);
    } else {
      forall log: seq<Json> | IsLogOf(log, kinds)
        ensures ApiWords(py, log) >= GateWords(py, log)
      {
        ApiCountsNoLess(py, log);
      }
    }
  }

  /** And exactly then the two never contradict each other: whatever the log and the shared
      threshold, what the API shows as insufficient the worker refuses. */
  lemma NoContradictionExactlyWhenNothingHidden(py: Py, kinds: iset<Json>)
    requires Sane(py) && forall e :: e in kinds ==> IsTextual(py, e)
    ensures (forall log: seq<Json>, minWords: int ::
               IsLogOf(log, kinds) && InferredInsufficient(py, Arr(log), minWords) ==>
                 Verdict(py, Arr(log), minWords).reason != Eligible)
            <==> forall e :: e in kinds ==> !Hides(py, e)
  {
    if e :| e in kinds && Hides(py, e) {
      HiddenDivides(py, e);
      assert IsLogOf([e], kinds);
    } else {
      forall log: seq<Json>, minWords: int | IsLogOf(log, kinds) && InferredInsufficient(py, Arr(log), minWords)
        ensures Verdict(py, Arr(log), minWords).reason != Eligible
      {
        InferredInsufficientIsRefused(py, Arr(log), minWords);
      }
    }
  }

  function BlankSegmentEvent(word: string): Json {
    Obj(map["type" := Str("USER_TURN"),
            "payload" := Obj(map["english_segment" := Str(" "), "text" := Str(word)])])
  }

  ghost predicate IsWord(py: Py, word: string) {
    word != "" && forall i :: 0 <= i < |word| ==> !py.space(word[i])
  }

  lemma BlankSegmentReads(py: Py, word: string)
    requires Sane(py) && py.space(' ') && py.lower("") == ""
    requires IsWord(py, word)
    ensures GradingText(py, BlankSegmentEvent(word)) == word && IsReliable(py, BlankSegmentEvent(word))
    ensures HasBlankSegment(py, BlankSegmentEvent(word))
  {
    assert LStrip(py.space, " ") == "" by {
      assert " "[1..] == "";
      assert LStrip(py.space, "") == "";
    }
    assert Strip(py.space, word) == word;
    assert Strip(py.space, "USER_TURN") == "USER_TURN";
    assert Strip(py.space, "") == "";
  }

  /** There is such an event: a blank segment hides from the API the text that the worker falls
      back to, and the two services contradict each other. */
  lemma BlankSegmentDivides(py: Py, word: string)
    requires Sane(py) && py.space(' ') && py.lower("") == ""
    requires IsWord(py, word)
    ensures Hides(py, BlankSegmentEvent(word))
    ensures var raw := Arr([BlankSegmentEvent(word)]);
            InferredInsufficient(py, raw, 1) && Verdict(py, raw, 1).reason == Eligible
  {
    BlankSegmentReads(py, word);
    HiddenDivides(py, BlankSegmentEvent(word));
  }

  // ---- What is read off one event ----

  predicate IsNothing(v: Json) {
    v in {Null, Bool(false), Number(0.0), Str(""), Arr([]), Obj(map[])}
  }

  /** The type is read off the first of its two fields, unless that says nothing. */
  lemma TypeFallsBack(event: Json)
    ensures EventType(event) == if IsNothing(Get(event, "type")) then Get(event, "event") else Get(event, "type")
  {
  }

  predicate SaysVisibly(py: Py, v: Json) {
    v.Str? && exists i :: 0 <= i < |v.s| && !py.space(v.s[i])
  }

  predicate AllBlank(py: Py, s: string) {
    forall i :: 0 <= i < |s| ==> py.space(s[i])
  }

  lemma StripOfBlank(py: Py, s: string)
    ensures Strip(py.space, s) == "" <==> AllBlank(py, s)
  {
    LStripOfBlank(py, s);
    RStripOfBlank(py, LStrip(py.space, s));
  }

  lemma {:induction false} LStripOfBlank(py: Py, s: string)
    ensures AllBlank(py, LStrip(py.space, s)) <==> AllBlank(py, s)
  {
    if s != "" && py.space(s[0]) {
      LStripOfBlank(py, s[1..]);
      assert forall i :: 0 < i < |s| ==> s[1..][i - 1] == s[i];
    }
  }

  lemma {:induction false} RStripOfBlank(py: Py, s: string)
    ensures RStrip(py.space, s) == "" <==> AllBlank(py, s)
  {
    if s != "" && py.space(s[|s| - 1]) {
      RStripOfBlank(py, s[..|s| - 1]);
      assert s == s[..|s| - 1] + [s[|s| - 1]];
    }
  }

  /** A turn is graded by its English segment if that is visible, else by its text, else by nothing. */
  lemma GradingTextMeans(py: Py, event: Json)
    ensures var segment, text := Get(Get(event, "payload"), "english_segment"), Get(Get(event, "payload"), "text");
            GradingText(py, event) == if SaysVisibly(py, segment) then Strip(py.space, segment.s)
                                      else if text.Str? then Strip(py.space, text.s) else ""
    ensures var segment, text := Get(Get(event, "payload"), "english_segment"), Get(Get(event, "payload"), "text");
            GradingText(py, event) != "" <==> SaysVisibly(py, segment) || SaysVisibly(py, text)
  {
    var segment, text := Get(Get(event, "payload"), "english_segment"), Get(Get(event, "payload"), "text");
    if segment.Str? {
      StripOfBlank(py, segment.s);
    }
    if text.Str? {
      StripOfBlank(py, text.s);
    }
  }

  /** An assistant's turn has its text in the payload, or else beside it. */
  lemma AssistantTextMeans(py: Py, event: Json)
    requires Sane(py) && IsTextOrMissing(Get(event, "text")) && IsTextOrMissing(Get(Get(event, "payload"), "text"))
    ensures var said := TextOf(Get(Get(event, "payload"), "text"));
            AssistantText(py, event) == Strip(py.space, if said != "" then said else TextOf(Get(event, "text")))
  {
  }

  /** The two fields of the payload that name a reason and a language, as text. */
  function TextOf(v: Json): string {
    if v.Str? then v.s else ""
  }

  /** A student's turn is reliable exactly if it says something visible and nothing in it excludes it:
      no flag, no reason given, no other language, no hard reason of the recogniser. */
  lemma ReliableExactlyWhen(py: Py, event: Json)
    requires Sane(py) && event.Obj? && Kind(py, event) == Some("USER_TURN")
    requires IsTextOrMissing(Get(Get(event, "payload"), "excluded_from_grading_reason"))
    requires IsTextOrMissing(Get(Get(event, "payload"), "turn_language_type"))
    ensures var payload := Get(event, "payload");
            var language := py.lower(Strip(py.space, TextOf(Get(payload, "turn_language_type"))));
            IsReliable(py, event) <==>
              && (SaysVisibly(py, Get(payload, "english_segment")) || SaysVisibly(py, Get(payload, "text")))
              && Get(payload, "grading_eligible") != Bool(false)
              && !SaysVisibly(py, Get(payload, "excluded_from_grading_reason"))
              && language != "vietnamese" && language != "noise"
              && HardReasonsIn(py, Get(payload, "uncertainty_reasons")) == {}
  {
    var payload := Get(event, "payload");
    var reason := Get(payload, "excluded_from_grading_reason");
    GradingTextMeans(py, event);
    StripOfBlank(py, TextOf(reason));
    HardReasonsMean(py, payload);
  }

  /** The listed reasons that rule a turn out. */
  ghost function HardReasonsIn(py: Py, reasons: Json): set<string> {
    if !reasons.Arr? then {}
    else
      (set i | 0 <= i < |reasons.items| && reasons.items[i].Str? :: Strip(py.space, reasons.items[i].s))
      * {"verification_language_mismatch", "non_english_verification_failed", "non_target_language", "mixed_non_english",
         "hallucination_suspected", "empty_transcript", "no_speech_detected", "background_noise",
         "weak_mixed_language_english"}
  }

  lemma HardReasonsMean(py: Py, payload: Json)
    ensures HasHardReason(py, payload) <==> HardReasonsIn(py, Get(payload, "uncertainty_reasons")) != {}
  {
    var reasons := Get(payload, "uncertainty_reasons");
    if HasHardReason(py, payload) {
      var i :| 0 <= i < |reasons.items| && reasons.items[i].Str? && Strip(py.space, reasons.items[i].s) in HARD_EXCLUDED;
      assert Strip(py.space, reasons.items[i].s) in HardReasonsIn(py, reasons);
    }
  }

  /** Neither service counts a turn marked as not eligible, or with a hard reason. */
  lemma ExcludedByBoth(py: Py, raw: Json)
    requires Get(Get(DecodeEvent(py, raw), "payload"), "grading_eligible") == Bool(false)
    ensures !IsReliable(py, raw) && !ApiCounts(py, ApiEvent(py, raw))
  {
  }

  // ---- What is read off a whole log ----

  /** An event that is the text of a mapping counts like that mapping, for gate and API alike; one that
      is any other text counts nothing. */
  lemma EncodedEventCounts(py: Py, log: seq<Json>, s: string)
    ensures var decoded, longer := py.decode(s), log + [Str(s)];
            if decoded.Some? && decoded.value.Obj? then
              var plain := log + [decoded.value];
              && GateWords(py, longer) == GateWords(py, plain) && GateTurns(py, longer) == GateTurns(py, plain)
              && UserTurns(py, longer) == UserTurns(py, plain) && ApiWords(py, longer) == ApiWords(py, plain)
            else
              && GateWords(py, longer) == GateWords(py, log) && GateTurns(py, longer) == GateTurns(py, log)
              && UserTurns(py, longer) == UserTurns(py, log) && ApiWords(py, longer) == ApiWords(py, log)
  {
    var decoded := py.decode(s);
    assert (log + [Str(s)])[..|log|] == log;
    if decoded.Some? {
      assert (log + [decoded.value])[..|log|] == log;
    }
  }

  /** A log may itself be the text of a list. Without a log there is no count; anything that is no list
      is refused by the gate and counted as no words by the API. */
  lemma EncodedLogCounts(py: Py, raw: Json, minWords: int)
    ensures raw.Str? && py.decode(raw.s).Some? && py.decode(raw.s).value.Arr? ==>
              && Verdict(py, raw, minWords) == Verdict(py, py.decode(raw.s).value, minWords)
              && ApiStudentWords(py, raw) == ApiStudentWords(py, py.decode(raw.s).value)
    ensures raw.Arr? ==> ApiStudentWords(py, raw) == Some(ApiWords(py, raw.items))
    ensures Verdict(py, raw, minWords).reason == NoRawBackup <==> raw == Null
    ensures ApiStudentWords(py, raw) == None <==> raw == Null
    ensures Verdict(py, raw, minWords).reason == InvalidRawBackup <==>
              && raw != Null && !raw.Arr?
              && !(raw.Str? && py.decode(raw.s).Some? && py.decode(raw.s).value.Arr?)
    ensures Verdict(py, raw, minWords).reason == InvalidRawBackup ==> ApiStudentWords(py, raw) == Some(0)
  {
  }

  /** The places in a log of student turns, reliable or not. */
  ghost function TurnsIn(py: Py, log: seq<Json>): set<int> {
    set i | 0 <= i < |log| && Kind(py, DecodeEvent(py, log[i])) == Some("USER_TURN")
  }

  lemma OneMoreTurn(py: Py, log: seq<Json>, last: Json)
    ensures TurnsIn(py, log + [last])
         == TurnsIn(py, log) + (if Kind(py, DecodeEvent(py, last)) == Some("USER_TURN") then {|log|} else {})
  {
    var longer := log + [last];
    assert forall i :: 0 <= i < |log| ==> longer[i] == log[i];
    assert longer[|log|] == last;
  }

  lemma {:induction false} TurnsAreCounted(py: Py, log: seq<Json>)
    ensures UserTurns(py, log) == |TurnsIn(py, log)|
    ensures UserTurns(py, log) == 0 ==> GateWords(py, log) == 0
  {
    if log != [] {
      var n := |log| - 1;
      TurnsAreCounted(py, log[..n]);
      OneMoreTurn(py, log[..n], log[n]);
      assert log[..n] + [log[n]] == log;
      if Kind(py, DecodeEvent(py, log[n])) != Some("USER_TURN") {
        assert UserTurns(py, log) == UserTurns(py, log[..n]);
      }
    }
  }

  lemma {:induction false} ReliableTurnsAreCounted(py: Py, log: seq<Json>)
    ensures GateTurns(py, log) == 0 <==> forall i :: 0 <= i < |log| ==> !IsReliable(py, log[i])
  {
    if log != [] {
      var n := |log| - 1;
      ReliableTurnsAreCounted(py, log[..n]);
      ReliableIsTurn(py, log[n]);
      assert forall i :: 0 <= i < n ==> log[..n][i] == log[i];
    }
  }

  lemma ReliableIsTurn(py: Py, event: Json)
    ensures IsReliable(py, event)
            <==> Kind(py, DecodeEvent(py, event)) == Some("USER_TURN") && IsReliable(py, DecodeEvent(py, event))
  {
    DecodeTwice(py, event);
  }

  /** A log is refused for want of user turns exactly if it has none, and eligible exactly if some turn is
      reliable and the reliable ones have the words asked for. */
  lemma VerdictMeans(py: Py, log: seq<Json>, minWords: int)
    ensures var v := Verdict(py, Arr(log), minWords);
            && (v.reason == NoUserTurns <==> TurnsIn(py, log) == {})
            && (v.reason == Eligible <==>
                  (exists i :: 0 <= i < |log| && IsReliable(py, log[i])) && GateWords(py, log) >= minWords)
            && v.words == Some(GateWords(py, log)) && v.userTurns == |TurnsIn(py, log)|
  {
    TurnsAreCounted(py, log);
    ReliableTurnsAreCounted(py, log);
    if i :| 0 <= i < |log| && IsReliable(py, log[i]) {
      assert i in TurnsIn(py, log);
    }
  }

  // ---- The input, event by event ----

  /** The turn an event gives, if it is a mapping that is a turn with something said in it and, for a
      student's, reliable. */
  ghost predicate GivesStudent(py: Py, event: Json) {
    event.Obj? && Source(py, event) == "USER_TURN" && GradingText(py, event) != "" && IsReliable(py, event)
  }

  ghost predicate GivesAssistant(py: Py, event: Json) {
    event.Obj? && Source(py, event) == "AI_TURN" && AssistantText(py, event) != ""
  }

  ghost function Given(py: Py, log: seq<Json>): set<int> {
    set i | 0 <= i < |log| && (GivesStudent(py, log[i]) || GivesAssistant(py, log[i]))
  }

  ghost function Blank(py: Py, log: seq<Json>): set<int> {
    set i | 0 <= i < |log| && log[i].Obj?
      && ((Source(py, log[i]) == "USER_TURN" && GradingText(py, log[i]) == "")
          || (Source(py, log[i]) == "AI_TURN" && AssistantText(py, log[i]) == ""))
  }

  ghost function Unreliable(py: Py, log: seq<Json>): set<int> {
    set i | 0 <= i < |log| && log[i].Obj?
      && Source(py, log[i]) == "USER_TURN" && GradingText(py, log[i]) != "" && !IsReliable(py, log[i])
  }

  lemma OneMorePlace(py: Py, log: seq<Json>, last: Json)
    ensures var n, longer := |log|, log + [last];
            && Given(py, longer) == Given(py, log) + (if GivesStudent(py, last) || GivesAssistant(py, last) then {n} else {})
            && Blank(py, longer) == Blank(py, log) + (if 0 in Blank(py, [last]) then {n} else {})
            && Unreliable(py, longer) == Unreliable(py, log) + (if 0 in Unreliable(py, [last]) then {n} else {})
  {
    var longer := log + [last];
    assert forall i :: 0 <= i < |log| ==> longer[i] == log[i];
    assert longer[|log|] == last && [last][0] == last;
  }

  lemma IncludedMeans(py: Py, input: Input, event: Json)
    ensures var n := Included(py, input, event);
            && n.turns == input.turns + (if GivesStudent(py, event) then [Turn(|input.turns|, Student, GradingText(py, event))]
                                         else if GivesAssistant(py, event)
                                         then [Turn(|input.turns|, Assistant, AssistantText(py, event))] else [])
            && n.emptyText == input.emptyText + (if 0 in Blank(py, [event]) then 1 else 0)
            && n.unreliable == input.unreliable + (if 0 in Unreliable(py, [event]) then 1 else 0)
            && |n.turns| + n.ignored == |input.turns| + input.ignored + 1
  {
    assert [event][0] == event;
  }

  /** The input's turns are, in the order of the log, just the events that give one, each with its
      speaker and its text; the ignored ones are counted by what is wrong with them. */
  lemma {:induction false} InputMeans(py: Py, log: seq<Json>)
    ensures var input := Built(py, log);
            && |input.turns| == |Given(py, log)| && input.ignored == |log| - |Given(py, log)|
            && input.emptyText == |Blank(py, log)| && input.unreliable == |Unreliable(py, log)|
            && forall i :: i in Given(py, log) ==> GivenAt(py, log, input.turns, i)
  {
    if log != [] {
      var init, last := log[..|log| - 1], log[|log| - 1];
      assert log == init + [last];
      InputMeans(py, init);
      InputGrows(py, init, last, Built(py, init));
    }
  }

  lemma InputGrows(py: Py, init: seq<Json>, last: Json, input: Input)
    requires |input.turns| == |Given(py, init)| && input.ignored == |init| - |Given(py, init)|
    requires input.emptyText == |Blank(py, init)| && input.unreliable == |Unreliable(py, init)|
    requires forall i :: i in Given(py, init) ==> GivenAt(py, init, input.turns, i)
    ensures var log, next := init + [last], Included(py, input, last);
            && |next.turns| == |Given(py, log)| && next.ignored == |log| - |Given(py, log)|
            && next.emptyText == |Blank(py, log)| && next.unreliable == |Unreliable(py, log)|
            && forall i :: i in Given(py, log) ==> GivenAt(py, log, next.turns, i)
  {
    var log, next := init + [last], Included(py, input, last);
    OneMorePlace(py, init, last);
    IncludedMeans(py, input, last);
    forall i | i in Given(py, log) ensures GivenAt(py, log, next.turns, i) {
      if i < |init| {
        GivenStays(py, init, last, input.turns, next.turns, i);
      } else {
        assert log[..i] == init;
      }
    }
  }

  /** The event at `i` gives the turn that comes behind those of the events before it. */
  ghost predicate GivenAt(py: Py, log: seq<Json>, turns: seq<Turn>, i: int)
    requires 0 <= i < |log|
  {
    var k := |Given(py, log[..i])|;
    && k < |turns|
    && turns[k] == if GivesStudent(py, log[i]) then Turn(k, Student, GradingText(py, log[i]))
                   else Turn(k, Assistant, AssistantText(py, log[i]))
  }

  lemma GivenStays(py: Py, init: seq<Json>, last: Json, turns: seq<Turn>, more: seq<Turn>, i: int)
    requires 0 <= i < |init| && turns <= more
    requires i in Given(py, init) ==> GivenAt(py, init, turns, i)
    ensures i in Given(py, init + [last]) ==> GivenAt(py, init + [last], more, i)
  {
    var log := init + [last];
    assert log[i] == init[i] && log[..i] == init[..i];
  }
}
