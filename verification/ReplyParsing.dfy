/** The reply parsed from the model's complete two-line output, against the streamed one. */
module ReplyParsing {
  import opened Strings
  import opened ReplyStream

  const FALLBACK_LIMIT := 220

  datatype Reply = Reply(response: string, feedback: string)

  datatype Parsed = Empty | Parsed(reply: Reply)

  // ---- Lines ----

  datatype Split = Split(done: seq<string>, current: string)

  function SplitAt(u: Chars, s: string): Split {
    if s == "" then Split([], "")
    else
      var before := SplitAt(u, s[..|s| - 1]);
      var c := s[|s| - 1];
      if u.lineBreak(c) then Split(before.done + [before.current], "")
      else before.(current := before.current + [c])
  }

  /** The lines of the output; a two-character line end yields one more, empty, line, which the
      parser passes over. */
  function Lines(u: Chars, s: string): seq<string> {
    var split := SplitAt(u, s);
    if split.current == "" then split.done else split.done + [split.current]
  }

  predicate NoBreaks(u: Chars, s: string) {
    forall i :: 0 <= i < |s| ==> !u.lineBreak(s[i])
  }

  lemma SplitSnoc(u: Chars, s: string, c: char)
    requires !u.lineBreak(c)
    ensures SplitAt(u, s + [c]) == SplitAt(u, s).(current := SplitAt(u, s).current + [c])
  {
    assert (s + [c])[..|s|] == s;
  }

  lemma {:induction false} SplitAppend(u: Chars, s: string, t: string)
    requires NoBreaks(u, t)
    ensures SplitAt(u, s + t) == SplitAt(u, s).(current := SplitAt(u, s).current + t)
    decreases |t|
  {
    if t == "" {
      assert s + t == s;
      assert SplitAt(u, s).current + t == SplitAt(u, s).current;
    } else {
      var shorter, c := t[..|t| - 1], t[|t| - 1];
      SplitAppend(u, s, shorter);
      SplitSnoc(u, s + shorter, c);
      assert (s + shorter) + [c] == s + t;
      assert SplitAt(u, s).current + shorter + [c] == SplitAt(u, s).current + t;
    }
  }

  // ---- The parser ----

  function AfterColon(line: string): string {
    var at := Find(line, ":");
    if at < 0 then "" else line[at + 1..]
  }

  function LineRead(u: Chars, r: Reply, rawLine: string): Reply {
    var line := Strip(u.space, rawLine);
    if RESPONSE <= Upper(u, line) then r.(response := Strip(u.space, AfterColon(line)))
    else if FEEDBACK <= Upper(u, line) then r.(feedback := Strip(u.space, AfterColon(line)))
    else r
  }

  function LinesRead(u: Chars, lines: seq<string>): Reply {
    if lines == [] then Reply("", "") else LineRead(u, LinesRead(u, lines[..|lines| - 1]), lines[|lines| - 1])
  }

  /** `lower` is Python's lower-casing, used only to recognise feedback that says there is none. */
  function Finished(u: Chars, lower: string -> string, raw: string, read: Reply): Parsed {
    if read.response != "" then
      Parsed(if lower(read.feedback) in {"none", "n/a", "na"} then read.(feedback := "") else read)
    else
      var cleaned := Strip(u.space, raw);
      if cleaned == "" then Empty else Parsed(Reply(Take(Lines(u, cleaned)[0], FALLBACK_LIMIT), ""))
  }

  lemma OneMoreLine(u: Chars, lines: seq<string>, i: nat)
    requires i < |lines|
    ensures LinesRead(u, lines[..i + 1]) == LineRead(u, LinesRead(u, lines[..i]), lines[i])
  {
    assert lines[..i + 1][..i] == lines[..i];
  }

  lemma FirstLineIsVisible(u: Chars, raw: string)
    requires Sane(u) && Strip(u.space, raw) != ""
    ensures var lines := Lines(u, Strip(u.space, raw));
            lines != [] && lines[0] != ""
  {
    StripVisible(u.space, raw);
    FirstLineStarts(u, Strip(u.space, raw));
  }

  method ParseOutput(u: Chars, lower: string -> string, raw: string) returns (parsed: Parsed)
    requires Sane(u)
    ensures parsed == Finished(u, lower, raw, LinesRead(u, Lines(u, raw)))
    ensures parsed.Parsed? ==> parsed.reply.response != ""
  {
    var response, feedback := "", "";
    var lines := Lines(u, raw);
    var i := 0;
    while i < |lines|
      invariant 0 <= i <= |lines|
      invariant Reply(response, feedback) == LinesRead(u, lines[..i])
    {
      OneMoreLine(u, lines, i);
      var line := Strip(u.space, lines[i]);
      var upper := Upper(u, line);
      if RESPONSE <= upper {
        response := Strip(u.space, AfterColon(line));
      } else if FEEDBACK <= upper {
        feedback := Strip(u.space, AfterColon(line));
      }
      i := i + 1;
    }
    assert lines[..i] == lines;
    if lower(feedback) in {"none", "n/a", "na"} {
      feedback := "";
    }
    if response != "" {
      return Parsed(Reply(response, feedback));
    }
    var cleaned := Strip(u.space, raw);
    if cleaned == "" {
      return Empty;
    }
    FirstLineIsVisible(u, raw);
    parsed := Parsed(Reply(Take(Lines(u, cleaned)[0], FALLBACK_LIMIT), ""));
  }

  // ---- Stripping ----

  lemma {:induction false} StripsCommute(u: Chars, s: string)
    ensures LStrip(u.space, RStrip(u.space, s)) == RStrip(u.space, LStrip(u.space, s))
  {
    if s != "" {
      var init, c := s[..|s| - 1], s[|s| - 1];
      assert s == init + [c];
      LStripAppend(u, init, [c]);
      if u.space(c) {
        StripsCommute(u, init);
        if LStrip(u.space, init) == "" {
          assert LStrip(u.space, [c]) == "" by { assert [c][1..] == ""; }
        } else {
          assert (LStrip(u.space, init) + [c])[..|LStrip(u.space, init)|] == LStrip(u.space, init);
        }
      }
    }
  }

  lemma {:induction false} RStripTwice(u: Chars, s: string)
    ensures RStrip(u.space, RStrip(u.space, s)) == RStrip(u.space, s)
  {
    if s != "" && u.space(s[|s| - 1]) {
      RStripTwice(u, s[..|s| - 1]);
    }
  }

  lemma StripOfRStrip(u: Chars, s: string)
    ensures Strip(u.space, RStrip(u.space, s)) == Strip(u.space, s)
  {
    StripsCommute(u, s);
    RStripTwice(u, LStrip(u.space, s));
  }

  /** Text that starts visibly keeps its start and is only trimmed at its end. */
  lemma {:induction false} RStripAfterVisible(u: Chars, head: string, s: string)
    requires head != "" && !u.space(head[|head| - 1])
    ensures RStrip(u.space, head + s) == head + RStrip(u.space, s)
    decreases |s|
  {
    if s == "" {
      assert head + s == head;
    } else if u.space(s[|s| - 1]) {
      RStripAfterVisible(u, head, s[..|s| - 1]);
      assert (head + s)[..|head + s| - 1] == head + s[..|s| - 1];
    }
  }

  lemma {:induction false} FirstLineStarts(u: Chars, s: string)
    requires s != "" && !u.lineBreak(s[0])
    ensures var split := SplitAt(u, s);
            var first := if split.done != [] then split.done[0] else split.current;
            first != "" && first[0] == s[0]
    ensures Lines(u, s) != [] && Lines(u, s)[0] != ""
  {
    if |s| > 1 {
      FirstLineStarts(u, s[..|s| - 1]);
    } else {
      assert s[..0] == "";
    }
  }

  // ---- The two-line output ----

  function TwoLines(body: string, feedback: string): string {
    RESPONSE + body + "\n" + FEEDBACK + feedback
  }

  /** The reply text and the note are each one line, there is a reply, and it does not itself
      spell the feedback marker. */
  ghost predicate WellFormed(u: Chars, body: string, feedback: string) {
    && NoBreaks(u, body) && NoBreaks(u, feedback)
    && Strip(u.space, body) != ""
    && Find(Upper(u, body), FEEDBACK) < 0
  }

  lemma MarkersUpper(u: Chars)
    requires Sane(u)
    ensures Upper(u, RESPONSE) == RESPONSE && Upper(u, FEEDBACK) == FEEDBACK && Upper(u, "\n") == "\n"
  {
    UpperOfMarker(u, RESPONSE);
    UpperOfMarker(u, FEEDBACK);
    UpperOfMarker(u, "\n");
  }

  lemma {:induction false} UpperOfMarker(u: Chars, m: string)
    requires Sane(u)
    requires forall i :: 0 <= i < |m| ==> 'A' <= m[i] <= 'Z' || m[i] == '_' || m[i] == ':' || m[i] == '\n'
    ensures Upper(u, m) == m
  {
    if m != "" {
      UpperOfMarker(u, m[..|m| - 1]);
      assert u.up(m[|m| - 1]) == [m[|m| - 1]];
    }
  }

  /** What the parser reads off a line that starts with a marker. */
  lemma MarkerLine(u: Chars, marker: string, text: string, r: Reply)
    requires Sane(u)
    requires marker == RESPONSE || marker == FEEDBACK
    ensures LineRead(u, r, marker + text) ==
              if marker == RESPONSE then r.(response := Strip(u.space, text)) else r.(feedback := Strip(u.space, text))
  {
    var n := |marker|;
    RStripAfterVisible(u, marker, text);
    assert LStrip(u.space, marker + text) == marker + text;
    var line := Strip(u.space, marker + text);
    assert line == marker + RStrip(u.space, text);
    MarkersUpper(u);
    UpperAppend(u, marker, RStrip(u.space, text));
    assert Upper(u, line) == marker + Upper(u, RStrip(u.space, text));
    assert !(RESPONSE <= FEEDBACK + Upper(u, RStrip(u.space, text))) by {
      assert RESPONSE[0] != FEEDBACK[0];
    }
    ColonEndsMarker(marker, RStrip(u.space, text));
    StripOfRStrip(u, text);
  }

  lemma ColonEndsMarker(marker: string, text: string)
    requires marker == RESPONSE || marker == FEEDBACK
    ensures AfterColon(marker + text) == text
  {
    var line := marker + text;
    var n := |marker| - 1;
    assert line[n..n + 1] == ":";
    assert At(line, ":", n);
    forall j | 0 <= j < n
      ensures !At(line, ":", j)
    {
      assert line[j..j + 1][0] == marker[j] && marker[j] != ':';
    }
    assert Find(line, ":") == n;
    assert line[n + 1..] == text;
  }

  lemma ParsedResponse(u: Chars, lower: string -> string, body: string, feedback: string)
    requires Sane(u) && WellFormed(u, body, feedback)
    ensures var raw := TwoLines(body, feedback);
            var parsed := Finished(u, lower, raw, LinesRead(u, Lines(u, raw)));
            && parsed.Parsed? && parsed.reply.response == Strip(u.space, body)
            && var note := Strip(u.space, feedback);
               parsed.reply.feedback == if lower(note) == "none" || lower(note) == "n/a" || lower(note) == "na" then "" else note
  {
    var raw := TwoLines(body, feedback);
    TwoLinesSplit(u, body, feedback);
    var first, second := RESPONSE + body, FEEDBACK + feedback;
    assert [first, second][..1] == [first] && [first][..0] == [];
    MarkerLine(u, RESPONSE, body, Reply("", ""));
    MarkerLine(u, FEEDBACK, feedback, LineRead(u, Reply("", ""), first));
    assert LinesRead(u, [first]) == LineRead(u, Reply("", ""), first);
    assert LinesRead(u, [first, second]) == LineRead(u, LinesRead(u, [first]), second);
  }

  // ---- Any output ----

  /** Line `i` is the last of the lines that starts with the marker, in whatever case. */
  ghost predicate LastMarked(u: Chars, marker: string, lines: seq<string>, i: int) {
    && 0 <= i < |lines| && marker <= Upper(u, Strip(u.space, lines[i]))
    && forall j :: i < j < |lines| ==> !(marker <= Upper(u, Strip(u.space, lines[j])))
  }

  /** The line reads as text behind a colon, in which no earlier colon stands. */
  ghost predicate Reads(u: Chars, line: string, text: string) {
    exists head: string, tail: string ::
      Strip(u.space, line) == head + ":" + tail && (forall k :: 0 <= k < |head| ==> head[k] != ':')
      && text == Strip(u.space, tail)
  }

  function Field(r: Reply, marker: string): string {
    if marker == RESPONSE then r.response else r.feedback
  }

  lemma MarkersDiffer(upper: string)
    requires RESPONSE <= upper
    ensures !(FEEDBACK <= upper)
  {
    assert RESPONSE[0] != FEEDBACK[0];
  }

  /** One line sets at most one of the two, to what it reads as. */
  lemma LineReadMeans(u: Chars, marker: string, r: Reply, line: string, text: string)
    requires marker == RESPONSE || marker == FEEDBACK
    requires marker <= Upper(u, Strip(u.space, line)) ==> Reads(u, line, text)
    ensures Field(LineRead(u, r, line), marker) == if marker <= Upper(u, Strip(u.space, line)) then text else Field(r, marker)
  {
    var upper := Upper(u, Strip(u.space, line));
    if RESPONSE <= upper {
      MarkersDiffer(upper);
    }
    if Reads(u, line, text) {
      var head: string, tail: string :| Strip(u.space, line) == head + ":" + tail
        && (forall k :: 0 <= k < |head| ==> head[k] != ':') && text == Strip(u.space, tail);
      FirstColon(head, tail);
    }
  }

  lemma LastLineRead(u: Chars, marker: string, lines: seq<string>, text: string)
    requires marker == RESPONSE || marker == FEEDBACK
    requires lines != []
    ensures var n := |lines| - 1;
            && (marker <= Upper(u, Strip(u.space, lines[n])) && Reads(u, lines[n], text) ==>
                  Field(LinesRead(u, lines), marker) == text)
            && (!(marker <= Upper(u, Strip(u.space, lines[n]))) ==>
                  Field(LinesRead(u, lines), marker) == Field(LinesRead(u, lines[..n]), marker))
  {
    var n := |lines| - 1;
    if marker <= Upper(u, Strip(u.space, lines[n])) ==> Reads(u, lines[n], text) {
      LineReadMeans(u, marker, LinesRead(u, lines[..n]), lines[n], text);
    }
  }

  /** Of several marked lines the last one counts, for the reply and for the note alike. */
  lemma {:induction false} LastMarkedCounts(u: Chars, marker: string, lines: seq<string>, i: int, text: string)
    requires marker == RESPONSE || marker == FEEDBACK
    requires LastMarked(u, marker, lines, i) && Reads(u, lines[i], text)
    ensures Field(LinesRead(u, lines), marker) == text
  {
    var n := |lines| - 1;
    LastLineRead(u, marker, lines, text);
    if i < n {
      LastMarkedCounts(u, marker, lines[..n], i, text);
    }
  }

  lemma {:induction false} UnmarkedIsEmpty(u: Chars, marker: string, lines: seq<string>)
    requires marker == RESPONSE || marker == FEEDBACK
    requires forall i :: 0 <= i < |lines| ==> !(marker <= Upper(u, Strip(u.space, lines[i])))
    ensures Field(LinesRead(u, lines), marker) == ""
  {
    if lines != [] {
      UnmarkedIsEmpty(u, marker, lines[..|lines| - 1]);
      LineReadMeans(u, marker, LinesRead(u, lines[..|lines| - 1]), lines[|lines| - 1], "");
    }
  }

  lemma FirstColon(head: string, tail: string)
    requires forall k :: 0 <= k < |head| ==> head[k] != ':'
    ensures AfterColon(head + ":" + tail) == tail
  {
    var line := head + ":" + tail;
    assert line[|head|..|head| + 1] == ":";
    assert At(line, ":", |head|);
    forall j | 0 <= j < |head|
      ensures !At(line, ":", j)
    {
      assert line[j..j + 1][0] == head[j];
    }
    assert Find(line, ":") == |head|;
  }

  /** An output that says nothing behind a response marker: one line of it, at most 220 characters,
      is the reply, with no note; a blank one is an error. */
  lemma UnmarkedLineIsReply(u: Chars, lower: string -> string, raw: string)
    requires Sane(u) && NoBreaks(u, raw) && !(RESPONSE <= Upper(u, Strip(u.space, raw)))
    ensures var parsed := Finished(u, lower, raw, LinesRead(u, Lines(u, raw)));
            var said := Strip(u.space, raw);
            parsed == if said == "" then Empty
                      else Parsed(Reply(if |said| <= 220 then said else said[..220], ""))
  {
    StripNoBreaks(u, raw);
    UnbrokenLine(u, raw);
    UnbrokenLine(u, Strip(u.space, raw));
    UnmarkedIsEmpty(u, RESPONSE, Lines(u, raw));
  }

  lemma UnbrokenLine(u: Chars, s: string)
    requires NoBreaks(u, s)
    ensures Lines(u, s) == if s == "" then [] else [s]
  {
    assert "" + s == s;
    SplitAppend(u, "", s);
  }

  lemma StripNoBreaks(u: Chars, s: string)
    requires NoBreaks(u, s)
    ensures NoBreaks(u, Strip(u.space, s))
  {
    LStripNoBreaks(u, s);
    RStripPrefix(u.space, LStrip(u.space, s));
  }

  lemma {:induction false} LStripNoBreaks(u: Chars, s: string)
    requires NoBreaks(u, s)
    ensures NoBreaks(u, LStrip(u.space, s))
  {
    if s != "" && u.space(s[0]) {
      LStripNoBreaks(u, s[1..]);
    }
  }

  // ---- Splitting the two-line output ----

  lemma TwoLinesSplit(u: Chars, body: string, feedback: string)
    requires Sane(u) && NoBreaks(u, body) && NoBreaks(u, feedback)
    ensures Lines(u, TwoLines(body, feedback)) == [RESPONSE + body, FEEDBACK + feedback]
  {
    MarkerHasNoBreaks(u);
    var first, second := RESPONSE + body, FEEDBACK + feedback;
    assert "" + first == first;
    SplitAppend(u, "", first);
    var upto := first + "\n";
    assert upto[..|upto| - 1] == first;
    assert SplitAt(u, upto) == Split([first], "");
    SplitAppend(u, upto, second);
    assert upto + second == TwoLines(body, feedback);
    assert "" + second == second;
  }

  lemma MarkerHasNoBreaks(u: Chars)
    requires Sane(u)
    ensures NoBreaks(u, RESPONSE) && NoBreaks(u, FEEDBACK)
  {
  }

  // ---- Streaming the two-line output ----

  lemma RegionOfMarked(u: Chars, text: string)
    requires Sane(u)
    ensures Region(u, RESPONSE + text) == text
  {
    MarkersUpper(u);
    UpperAppend(u, RESPONSE, text);
    var up := Upper(u, RESPONSE + text);
    assert up[0..|RESPONSE|] == RESPONSE;
    assert At(up, RESPONSE, 0);
    assert (RESPONSE + text)[|RESPONSE|..] == text;
  }

  lemma UpperOfTail(u: Chars, body: string, rest: string)
    requires Sane(u)
    ensures Upper(u, body + "\n" + FEEDBACK + rest) == Upper(u, body) + "\n" + FEEDBACK + Upper(u, rest)
  {
    MarkersUpper(u);
    UpperAppend(u, body, "\n");
    UpperAppend(u, body + "\n", FEEDBACK);
    UpperAppend(u, body + "\n" + FEEDBACK, rest);
  }

  /** In the upper-cased reply region the feedback marker is found exactly behind the line break. */
  lemma FeedbackBehindBreak(u: Chars, body: string, rest: string)
    requires Sane(u) && Find(Upper(u, body), FEEDBACK) < 0
    ensures Find(Upper(u, body + "\n" + FEEDBACK + rest), FEEDBACK) == |Upper(u, body)| + 1
  {
    UpperOfTail(u, body, rest);
    FoundBehindBreak(Upper(u, body), Upper(u, rest));
  }

  lemma FoundBehindBreak(up: string, rest: string)
    requires Find(up, FEEDBACK) < 0
    ensures Find(up + "\n" + FEEDBACK + rest, FEEDBACK) == |up| + 1
  {
    var all := up + "\n" + FEEDBACK + rest;
    var n := |up| + 1;
    assert all[n..n + |FEEDBACK|] == FEEDBACK;
    assert At(all, FEEDBACK, n);
    forall j | 0 <= j < n
      ensures !At(all, FEEDBACK, j)
    {
      NoMarkerAcrossBreak(up, FEEDBACK + rest, j);
      assert up + "\n" + (FEEDBACK + rest) == all;
    }
  }

  lemma NoMarkerAcrossBreak(up: string, after: string, j: nat)
    requires Find(up, FEEDBACK) < 0
    requires j <= |up|
    ensures !At(up + "\n" + after, FEEDBACK, j)
  {
    var all := up + "\n" + after;
    if j + |FEEDBACK| <= |up| {
      assert all[j..j + |FEEDBACK|] == up[j..j + |FEEDBACK|];
      assert !At(up, FEEDBACK, j);
    } else if j + |FEEDBACK| <= |all| {
      assert all[j..j + |FEEDBACK|][|up| - j] == '\n';
      assert FEEDBACK[|up| - j] != '\n';
    }
  }

  /** Where the marker's characters lie in the whole output: from `MarkerStart` up to, but not
      including, `MarkerEnd`. */
  function MarkerStart(body: string): nat { |RESPONSE| + |body| + 1 }

  function MarkerEnd(body: string): nat { MarkerStart(body) + |FEEDBACK| }

  lemma PrefixOfOutput(body: string, feedback: string, p: nat)
    requires p <= |TwoLines(body, feedback)|
    ensures TwoLines(body, feedback)[..p]
         == if p >= |RESPONSE| then RESPONSE + Behind(body, feedback)[..p - |RESPONSE|] else RESPONSE[..p]
    ensures |TwoLines(body, feedback)| == |RESPONSE| + |Behind(body, feedback)|
  {
    assert TwoLines(body, feedback) == RESPONSE + Behind(body, feedback);
  }

  lemma MarkerBehindResponse(u: Chars, body: string, feedback: string, n: nat)
    requires Sane(u) && WellFormed(u, body, feedback)
    requires n <= |Behind(body, feedback)|
    ensures var prefix := RESPONSE + Behind(body, feedback)[..n];
            && Region(u, prefix) == Behind(body, feedback)[..n]
            && FeedbackAt(u, prefix) == if n >= |body| + 1 + |FEEDBACK| then |Upper(u, body)| + 1 else -1
  {
    RegionOfMarked(u, Behind(body, feedback)[..n]);
    MarkerInRegion(u, body, feedback, n);
  }

  /** The extraction of the whole output: the reply cut off where the upper-cased reply ends. */
  lemma WholeExtracted(u: Chars, body: string, feedback: string)
    requires Sane(u) && WellFormed(u, body, feedback)
    ensures Extract(u, TwoLines(body, feedback)) == Clean(u, Take(Behind(body, feedback), |Upper(u, body)| + 1))
  {
    var raw, text := TwoLines(body, feedback), Behind(body, feedback);
    assert raw == RESPONSE + text && text[..|text|] == text;
    MarkerBehindResponse(u, body, feedback, |text|);
  }

  /** The output behind the response marker. */
  function Behind(body: string, feedback: string): string {
    body + "\n" + FEEDBACK + feedback
  }

  lemma MarkerInRegion(u: Chars, body: string, feedback: string, n: nat)
    requires Sane(u) && WellFormed(u, body, feedback)
    requires n <= |Behind(body, feedback)|
    ensures Find(Upper(u, Behind(body, feedback)[..n]), FEEDBACK)
         == if n >= |body| + 1 + |FEEDBACK| then |Upper(u, body)| + 1 else -1
  {
    var all := Behind(body, feedback);
    var upto := body + "\n" + FEEDBACK;
    if n >= |upto| {
      assert all[..n] == upto + feedback[..n - |upto|];
      FeedbackBehindBreak(u, body, feedback[..n - |upto|]);
    } else if n <= |body| {
      assert all[..n] == body[..n] && body[..n] + body[n..] == body;
      NoneBefore(u, body[..n], body[n..]);
    } else {
      var m := n - |body| - 1;
      assert all[..n] == body + "\n" + FEEDBACK[..m];
      NoMarkerYet(u, body, m);
    }
  }

  lemma ShortHasNoMarker(u: Chars, p: nat)
    requires Sane(u) && p < |RESPONSE|
    ensures Region(u, RESPONSE[..p]) == "" && FeedbackAt(u, RESPONSE[..p]) == -1
  {
    UpperOfMarker(u, RESPONSE[..p]);
    assert forall j: nat :: !At(RESPONSE[..p], RESPONSE, j);
    assert Upper(u, "") == "";
  }

  lemma NoneBefore(u: Chars, s: string, t: string)
    requires Find(Upper(u, s + t), FEEDBACK) < 0
    ensures Find(Upper(u, s), FEEDBACK) == -1
  {
    UpperAppend(u, s, t);
    if Find(Upper(u, s), FEEDBACK) >= 0 {
      FindAppend(Upper(u, s), Upper(u, t), FEEDBACK);
    }
  }

  lemma NoMarkerYet(u: Chars, body: string, m: nat)
    requires Sane(u) && Find(Upper(u, body), FEEDBACK) < 0
    requires m < |FEEDBACK|
    ensures Find(Upper(u, body + "\n" + FEEDBACK[..m]), FEEDBACK) == -1
  {
    MarkersUpper(u);
    UpperOfMarker(u, FEEDBACK[..m]);
    UpperAppend(u, body, "\n");
    UpperAppend(u, body + "\n", FEEDBACK[..m]);
    var up := Upper(u, body);
    forall j: nat
      ensures !At(up + "\n" + FEEDBACK[..m], FEEDBACK, j)
    {
      if j <= |up| {
        NoMarkerAcrossBreak(up, FEEDBACK[..m], j);
      }
    }
  }

  /** Some token ends strictly inside the marker. */
  predicate CutInside(deltas: seq<string>, body: string) {
    deltas != [] &&
    (CutInside(deltas[..|deltas| - 1], body)
     || MarkerStart(body) < |Joined(deltas[..|deltas| - 1])| < MarkerEnd(body))
  }

  /** How far upper-casing moves what follows the reply text. */
  function Shift(u: Chars, body: string): int {
    |Upper(u, body)| - |body|
  }

  /** Some token ends inside the marker and further in than the shift. */
  predicate CutBeyond(deltas: seq<string>, body: string, shift: int) {
    deltas != [] &&
    (CutBeyond(deltas[..|deltas| - 1], body, shift)
     || MarkerStart(body) + shift < |Joined(deltas[..|deltas| - 1])| < MarkerEnd(body))
  }

  lemma {:induction false} CutBeyondReaches(deltas: seq<string>, body: string, shift: int)
    requires CutBeyond(deltas, body, shift)
    ensures |Joined(deltas)| > MarkerStart(body) + shift
  {
    if CutBeyond(deltas[..|deltas| - 1], body, shift) {
      CutBeyondReaches(deltas[..|deltas| - 1], body, shift);
    }
  }

  lemma {:induction false} CutInsideIsBeyond(deltas: seq<string>, body: string)
    ensures CutInside(deltas, body) <==> CutBeyond(deltas, body, 0)
  {
    if deltas != [] {
      CutInsideIsBeyond(deltas[..|deltas| - 1], body);
    }
  }

  /** Of a beginning of the output that ends inside the marker, the marker's part is visible. */
  lemma MarkerPartIsVisible(u: Chars, body: string, feedback: string, n: nat, at: nat)
    requires Sane(u)
    requires n < |body| + 1 + |FEEDBACK| && at > |body|
    ensures VisibleFrom(u, Behind(body, feedback)[..n], at) <==> at < n
  {
    var region := Behind(body, feedback)[..n];
    if at < n {
      assert region[at] == FEEDBACK[at - |body| - 1];
      assert !u.space(region[at]);
    }
  }

  lemma TornBehindResponse(u: Chars, body: string, feedback: string, n: nat, m: nat, raw: string, delta: string)
    requires Sane(u) && WellFormed(u, body, feedback)
    requires n <= m <= |Behind(body, feedback)|
    requires raw == RESPONSE + Behind(body, feedback)[..n]
    requires raw + delta == RESPONSE + Behind(body, feedback)[..m]
    ensures Torn(u, raw, delta) <==> |Upper(u, body)| + 1 < n < |body| + 1 + |FEEDBACK| <= m
  {
    MarkerBehindResponse(u, body, feedback, n);
    MarkerBehindResponse(u, body, feedback, m);
    UpperLength(u, body);
    if n < |body| + 1 + |FEEDBACK| {
      MarkerPartIsVisible(u, body, feedback, n, |Upper(u, body)| + 1);
    }
  }

  lemma TornWhenToken(u: Chars, body: string, feedback: string, p: nat, q: nat)
    requires Sane(u) && WellFormed(u, body, feedback)
    requires p <= q <= |TwoLines(body, feedback)|
    ensures var all := TwoLines(body, feedback);
            Torn(u, all[..p], all[p..q])
            <==> MarkerStart(body) + Shift(u, body) < p < MarkerEnd(body) <= q
  {
    var all := TwoLines(body, feedback);
    assert all[..p] + all[p..q] == all[..q];
    PrefixOfOutput(body, feedback, p);
    PrefixOfOutput(body, feedback, q);
    UpperLength(u, body);
    if p < |RESPONSE| {
      ShortHasNoMarker(u, p);
    } else {
      TornBehindResponse(u, body, feedback, p - |RESPONSE|, q - |RESPONSE|, all[..p], all[p..q]);
    }
  }

  lemma TornNow(u: Chars, before: string, delta: string, body: string, feedback: string)
    requires Sane(u) && WellFormed(u, body, feedback)
    requires before + delta <= TwoLines(body, feedback)
    ensures Torn(u, before, delta)
            <==> MarkerStart(body) + Shift(u, body) < |before| < MarkerEnd(body) <= |before| + |delta|
  {
    var all, p, q := TwoLines(body, feedback), |before|, |before + delta|;
    assert before == all[..p] && delta == all[p..q];
    TornWhenToken(u, body, feedback, p, q);
  }

  /** The marker cuts off shown text exactly when a token ends far enough inside it and the rest
      of it has arrived. */
  lemma {:induction false} TornWhenCut(u: Chars, deltas: seq<string>, body: string, feedback: string)
    requires Sane(u) && WellFormed(u, body, feedback)
    requires Joined(deltas) <= TwoLines(body, feedback)
    ensures EverTorn(u, deltas) <==>
              CutBeyond(deltas, body, Shift(u, body)) && |Joined(deltas)| >= MarkerEnd(body)
  {
    if deltas != [] {
      var before, delta := deltas[..|deltas| - 1], deltas[|deltas| - 1];
      assert Joined(before) <= Joined(deltas);
      TornWhenCut(u, before, body, feedback);
      TornNow(u, Joined(before), delta, body, feedback);
      if CutBeyond(before, body, Shift(u, body)) {
        CutBeyondReaches(before, body, Shift(u, body));
      }
    }
  }

  lemma StripOfBlankEnd(u: Chars, s: string)
    requires u.space(' ')
    ensures Strip(u.space, s + " ") == Strip(u.space, s)
  {
    LStripAppend(u, s, " ");
    assert " "[1..] == "";
    var x := LStrip(u.space, s);
    if x != "" {
      assert (x + " ")[..|x| + 1 - 1] == x;
    }
  }

  lemma {:induction false} OneLineIsSame(u: Chars, s: string)
    requires Sane(u) && NoBreaks(u, s)
    ensures OneLine(s) == s
  {
    if s != "" {
      assert s == s[..|s| - 1] + [s[|s| - 1]];
      OneLineIsSame(u, s[..|s| - 1]);
    }
  }

  lemma ExtractedExactly(u: Chars, body: string, feedback: string)
    requires Sane(u) && WellFormed(u, body, feedback) && KeepsLength(u, body)
    ensures Extract(u, TwoLines(body, feedback)) == Strip(u.space, body)
  {
    WholeExtracted(u, body, feedback);
    CutBehindLine(u, body, feedback, 0);
    CleanLine(u, body);
  }

  lemma CleanTooMuch(u: Chars, body: string, feedback: string, shift: nat)
    requires Sane(u) && NoBreaks(u, body) && shift > 0
    ensures |Clean(u, Take(Behind(body, feedback), |body| + shift + 1))| > |Strip(u.space, body)|
  {
    CutBehindLine(u, body, feedback, shift);
    CleanLine(u, body);
  }

  lemma ExtractedTooMuch(u: Chars, body: string, feedback: string)
    requires Sane(u) && WellFormed(u, body, feedback) && !KeepsLength(u, body)
    ensures |Extract(u, TwoLines(body, feedback))| > |Strip(u.space, body)|
  {
    WholeExtracted(u, body, feedback);
    UpperLength(u, body);
    CleanTooMuch(u, body, feedback, |Upper(u, body)| - |body|);
  }

  lemma CleanLine(u: Chars, body: string)
    requires Sane(u) && NoBreaks(u, body)
    ensures Clean(u, body + "\n") == Strip(u.space, body)
  {
    OneLineAppend(body, "\n");
    assert "\n"[..0] == "" && OneLine("\n") == " ";
    OneLineIsSame(u, body);
    StripOfBlankEnd(u, body);
  }

  lemma CutBehindLine(u: Chars, body: string, feedback: string, shift: nat)
    requires Sane(u)
    ensures var shown := Take(Behind(body, feedback), |body| + shift + 1);
            if shift == 0 then shown == body + "\n"
            else |Clean(u, shown)| > |Clean(u, body + "\n")|
  {
    var shown := Take(Behind(body, feedback), |body| + shift + 1);
    if shift == 0 {
      assert shown == body + "\n";
    } else {
      var rest := shown[|body| + 2..];
      assert shown[|body| + 1] == FEEDBACK[0];
      assert shown == body + "\n" + ['P'] + rest;
      VisibleAfter(u, body + "\n", 'P', rest);
    }
  }

  /** For a well-formed two-line output, however it is cut into tokens: what has been shown is
      the parsed reply, so that nothing is left to send at the end, exactly when no token ends
      strictly inside the feedback marker and upper-casing leaves the reply text its length. */
  lemma StreamedReplyIsParsedReply(u: Chars, lower: string -> string, deltas: seq<string>, body: string, feedback: string)
    requires Sane(u) && WellFormed(u, body, feedback)
    requires Joined(deltas) == TwoLines(body, feedback)
    ensures var raw := Strip(u.space, Joined(deltas));
            var parsed := Finished(u, lower, raw, LinesRead(u, Lines(u, raw)));
            var exact := !CutInside(deltas, body) && KeepsLength(u, body);
            && parsed.Parsed?
            && (FedAll(u, deltas).shown == parsed.reply.response <==> exact)
            && (exact ==> Diff(FedAll(u, deltas).shown, parsed.reply.response) == "")
  {
    StrippedTwoLines(u, body, feedback);
    ParsedResponse(u, lower, body, RStrip(u.space, feedback));
    ShownIsReply(u, deltas, body, feedback);
  }

  lemma TornIfCut(u: Chars, deltas: seq<string>, body: string, feedback: string)
    requires Sane(u) && WellFormed(u, body, feedback) && KeepsLength(u, body)
    requires Joined(deltas) == TwoLines(body, feedback)
    ensures EverTorn(u, deltas) <==> CutInside(deltas, body)
  {
    TornWhenCut(u, deltas, body, feedback);
    CutInsideIsBeyond(deltas, body);
    assert |TwoLines(body, feedback)| == MarkerEnd(body) + |feedback|;
  }

  lemma ShownIsReply(u: Chars, deltas: seq<string>, body: string, feedback: string)
    requires Sane(u) && WellFormed(u, body, feedback)
    requires Joined(deltas) == TwoLines(body, feedback)
    ensures FedAll(u, deltas).shown == Strip(u.space, body) <==> !CutInside(deltas, body) && KeepsLength(u, body)
  {
    ExactUnlessTorn(u, deltas);
    if KeepsLength(u, body) {
      TornIfCut(u, deltas, body, feedback);
      ExtractedExactly(u, body, feedback);
    } else {
      ExtractedTooMuch(u, body, feedback);
    }
  }

  const SHARP_S := "\U{00DF}"

  lemma SharpSLine(u: Chars)
    requires Sane(u) && !u.space(SHARP_S[0])
    ensures Clean(u, SHARP_S + "\n" + "P") == SHARP_S + " P"
  {
    var text := SHARP_S + "\n" + "P";
    assert text[..2] == SHARP_S + "\n" && text[..2][..1] == SHARP_S && SHARP_S[..0] == "";
    assert OneLine(SHARP_S) == SHARP_S;
    assert OneLine(text[..2]) == SHARP_S + " ";
    assert OneLine(text) == SHARP_S + " P";
    assert !u.space('P');
  }

  /** A reply with a character whose upper case is two, delivered whole: the streamed text ends
      with the first letter of the marker, the parsed one does not. */
  lemma LongUpperCaseShowsMarker(u: Chars, lower: string -> string, feedback: string)
    requires Sane(u) && u.up(SHARP_S[0]) == "SS" && !u.space(SHARP_S[0])
    requires NoBreaks(u, feedback)
    ensures var raw := TwoLines(SHARP_S, feedback);
            var parsed := Finished(u, lower, Strip(u.space, raw), LinesRead(u, Lines(u, Strip(u.space, raw))));
            && parsed.Parsed? && parsed.reply.response == SHARP_S
            && FedAll(u, [raw]).shown == SHARP_S + " P"
  {
    var raw := TwoLines(SHARP_S, feedback);
    SharpSWellFormed(u, feedback);
    StrippedTwoLines(u, SHARP_S, feedback);
    ParsedResponse(u, lower, SHARP_S, RStrip(u.space, feedback));
    SharpSExtracted(u, feedback);
    OneToken(u, raw);
  }

  lemma SharpSWellFormed(u: Chars, feedback: string)
    requires Sane(u) && u.up(SHARP_S[0]) == "SS" && !u.space(SHARP_S[0])
    requires NoBreaks(u, feedback)
    ensures WellFormed(u, SHARP_S, feedback) && Strip(u.space, SHARP_S) == SHARP_S && Upper(u, SHARP_S) == "SS"
  {
    assert SHARP_S[..0] == "" && Upper(u, SHARP_S) == "SS";
  }

  lemma SharpSCut(feedback: string)
    ensures Take(Behind(SHARP_S, feedback), 3) == SHARP_S + "\n" + "P"
  {
    assert Behind(SHARP_S, feedback)[2] == FEEDBACK[0];
  }

  lemma SharpSExtracted(u: Chars, feedback: string)
    requires Sane(u) && !u.space(SHARP_S[0])
    requires WellFormed(u, SHARP_S, feedback) && Upper(u, SHARP_S) == "SS"
    ensures Extract(u, TwoLines(SHARP_S, feedback)) == SHARP_S + " P"
  {
    WholeExtracted(u, SHARP_S, feedback);
    SharpSCut(feedback);
    SharpSLine(u);
  }

  lemma OneToken(u: Chars, raw: string)
    requires raw != ""
    ensures FedAll(u, [raw]).shown == Extract(u, raw)
  {
    var none: seq<string> := [];
    assert [raw][..0] == none;
    assert FedAll(u, none) == Streamed("", "") && "" + raw == raw;
  }

  lemma StrippedTwoLines(u: Chars, body: string, feedback: string)
    requires Sane(u) && WellFormed(u, body, feedback)
    ensures Strip(u.space, TwoLines(body, feedback)) == TwoLines(body, RStrip(u.space, feedback))
    ensures WellFormed(u, body, RStrip(u.space, feedback))
  {
    var head := RESPONSE + body + "\n" + FEEDBACK;
    assert head[|head| - 1] == ':';
    RStripAfterVisible(u, head, feedback);
    RStripPrefix(u.space, feedback);
    assert TwoLines(body, feedback)[0] == 'R';
  }
}
