/** Streaming the tutor's reply: what is shown and spoken while the model's output is still
    arriving, against the reply extracted from the output as a whole. */
module ReplyStream {
  import opened Strings

  /** Python's character tables: the upper case of one character, which may be longer than the
      character, its white space, and its line boundaries. */
  datatype Chars = Chars(up: char -> string, space: char -> bool, lineBreak: char -> bool)

  const RESPONSE := "RESPONSE_TEXT:"
  const FEEDBACK := "PEDAGOGICAL_FEEDBACK:"

  ghost predicate Sane(u: Chars) {
    && u.space(' ') && u.space('\r') && u.space('\n')
    && u.lineBreak('\n') && u.lineBreak('\r')
    && (forall c :: u.lineBreak(c) ==> u.space(c))
    && (forall c :: 'A' <= c <= 'Z' || c == '_' || c == ':' || c == '\n' ==> u.up(c) == [c])
    && (forall c :: u.space(c) ==> u.up(c) == [c] && !('A' <= c <= 'Z') && c != '_' && c != ':')
    && (forall c :: u.up(c) != [])
  }

  // ---- String operations ----

  function Upper(u: Chars, s: string): string {
    if s == "" then "" else Upper(u, s[..|s| - 1]) + u.up(s[|s| - 1])
  }

  predicate At(s: string, m: string, i: nat) {
    i + |m| <= |s| && s[i..i + |m|] == m
  }

  function FindFrom(s: string, m: string, i: nat): (r: int)
    requires i <= |s|
    ensures r == -1 || i <= r
    ensures r >= 0 ==> At(s, m, r) && forall j :: i <= j < r ==> !At(s, m, j)
    ensures r < 0 ==> r == -1 && forall j :: i <= j ==> !At(s, m, j)
    decreases |s| - i
  {
    if At(s, m, i) then i
    else if i == |s| then -1
    else FindFrom(s, m, i + 1)
  }

  function Find(s: string, m: string): (r: int)
    ensures r >= 0 ==> At(s, m, r) && forall j :: 0 <= j < r ==> !At(s, m, j)
    ensures r < 0 ==> r == -1 && forall j :: 0 <= j ==> !At(s, m, j)
  {
    FindFrom(s, m, 0)
  }

  function Drop(s: string, n: nat): string {
    if n <= |s| then s[n..] else ""
  }

  function Take(s: string, n: nat): string {
    if n <= |s| then s[..n] else s
  }

  /** `replace("\r", "")`, then `replace("\n", " ")`. */
  function OneLine(s: string): string {
    if s == "" then ""
    else
      var c := s[|s| - 1];
      OneLine(s[..|s| - 1]) + if c == '\r' then "" else if c == '\n' then " " else [c]
  }

  function Clean(u: Chars, s: string): string {
    Strip(u.space, OneLine(s))
  }

  // ---- The extraction and the difference ----

  /** The output after the response marker, empty as long as there is none. */
  function Region(u: Chars, raw: string): string {
    var at := Find(Upper(u, raw), RESPONSE);
    if at < 0 then "" else Drop(raw, at + |RESPONSE|)
  }

  function FeedbackAt(u: Chars, raw: string): int {
    Find(Upper(u, Region(u, raw)), FEEDBACK)
  }

  function Extract(u: Chars, raw: string): string {
    var text := Region(u, raw);
    var at := FeedbackAt(u, raw);
    Clean(u, if at >= 0 then Take(text, at) else text)
  }

  function Diff(previous: string, current: string): string {
    if current == "" then ""
    else if previous <= current then current[|previous|..]
    else current
  }

  datatype Streamed = Streamed(raw: string, shown: string)

  function Fed(u: Chars, s: Streamed, delta: string): Streamed {
    if delta == "" then s
    else
      var raw := s.raw + delta;
      Streamed(raw, s.shown + Diff(s.shown, Extract(u, raw)))
  }

  function FedAll(u: Chars, deltas: seq<string>): Streamed {
    if deltas == [] then Streamed("", "") else Fed(u, FedAll(u, deltas[..|deltas| - 1]), deltas[|deltas| - 1])
  }

  function Joined(deltas: seq<string>): string {
    if deltas == [] then "" else Joined(deltas[..|deltas| - 1]) + deltas[|deltas| - 1]
  }

  // ---- Growing the text ----

  lemma {:induction false} UpperAppend(u: Chars, s: string, t: string)
    ensures Upper(u, s + t) == Upper(u, s) + Upper(u, t)
    decreases |t|
  {
    if t == "" {
      assert s + t == s;
    } else {
      UpperAppend(u, s, t[..|t| - 1]);
      assert (s + t)[..|s + t| - 1] == s + t[..|t| - 1];
    }
  }

  lemma {:induction false} OneLineAppend(s: string, t: string)
    ensures OneLine(s + t) == OneLine(s) + OneLine(t)
    decreases |t|
  {
    if t == "" {
      assert s + t == s;
    } else {
      OneLineAppend(s, t[..|t| - 1]);
      assert (s + t)[..|s + t| - 1] == s + t[..|t| - 1];
    }
  }

  /** The reply is one line, and a two-character line end counts as one break. */
  lemma {:induction false} OneLineHasNoBreaks(s: string)
    ensures forall i :: 0 <= i < |OneLine(s)| ==> OneLine(s)[i] != '\r' && OneLine(s)[i] != '\n'
    ensures OneLine("\r\n") == " "
  {
    if s != "" {
      OneLineHasNoBreaks(s[..|s| - 1]);
    }
    assert "\r\n"[..1] == "\r" && "\r"[..0] == "";
    assert OneLine("\r") == "" + "";
    assert OneLine("\r\n") == OneLine("\r") + " ";
  }

  /** The first occurrence stays the first when text is appended. */
  lemma FindAppend(s: string, t: string, m: string)
    requires Find(s, m) >= 0
    ensures Find(s + t, m) == Find(s, m)
  {
    var i := Find(s, m);
    assert (s + t)[i..i + |m|] == s[i..i + |m|];
    forall j | 0 <= j < i
      ensures !At(s + t, m, j)
    {
      assert !At(s, m, j);
      assert (s + t)[j..j + |m|] == s[j..j + |m|];
    }
    assert At(s + t, m, i);
  }

  lemma {:induction false} LStripAppend(u: Chars, s: string, t: string)
    ensures LStrip(u.space, s + t) == if LStrip(u.space, s) == "" then LStrip(u.space, t) else LStrip(u.space, s) + t
  {
    if s == "" {
      assert s + t == t;
    } else if u.space(s[0]) {
      assert (s + t)[1..] == s[1..] + t;
      LStripAppend(u, s[1..], t);
    }
  }

  lemma {:induction false} RStripAppend(u: Chars, s: string, t: string)
    ensures RStrip(u.space, s) <= RStrip(u.space, s + t)
    decreases |t|
  {
    if t == "" {
      assert s + t == s;
    } else {
      var shorter := t[..|t| - 1];
      RStripAppend(u, s, shorter);
      assert (s + t)[..|s + t| - 1] == s + shorter;
      if !u.space(t[|t| - 1]) {
        RStripPrefix(u.space, s);
        assert RStrip(u.space, s + t) == s + t;
      }
    }
  }

  /** Cleaning is monotone: text that arrives later never changes what is already clean. */
  lemma CleanAppend(u: Chars, s: string, t: string)
    ensures Clean(u, s) <= Clean(u, s + t)
  {
    OneLineAppend(s, t);
    var x, y := OneLine(s), OneLine(t);
    LStripAppend(u, x, y);
    if LStrip(u.space, x) != "" {
      RStripAppend(u, LStrip(u.space, x), y);
    }
  }

  lemma RegionAppend(u: Chars, raw: string, delta: string)
    ensures Region(u, raw) == "" || Region(u, raw + delta) == Region(u, raw) + delta
  {
    var at := Find(Upper(u, raw), RESPONSE);
    if at >= 0 {
      UpperAppend(u, raw, delta);
      FindAppend(Upper(u, raw), Upper(u, delta), RESPONSE);
      var n := at + |RESPONSE|;
      if n <= |raw| {
        assert (raw + delta)[n..] == raw[n..] + delta;
      }
    }
  }

  /** The feedback marker, once there, stays where it is. */
  lemma FeedbackAppend(u: Chars, raw: string, delta: string)
    requires FeedbackAt(u, raw) >= 0
    ensures FeedbackAt(u, raw + delta) == FeedbackAt(u, raw)
    ensures Region(u, raw) <= Region(u, raw + delta)
  {
    RegionAppend(u, raw, delta);
    UpperAppend(u, Region(u, raw), delta);
    FindAppend(Upper(u, Region(u, raw)), Upper(u, delta), FEEDBACK);
  }

  // ---- Before the marker ----

  lemma {:induction false} RawIsJoined(u: Chars, deltas: seq<string>)
    ensures FedAll(u, deltas).raw == Joined(deltas)
  {
    if deltas != [] {
      RawIsJoined(u, deltas[..|deltas| - 1]);
    }
  }

  lemma DiffExtends(previous: string, current: string)
    requires previous <= current
    ensures previous + Diff(previous, current) == current
  {
  }

  lemma NoMarkerBefore(u: Chars, raw: string, delta: string)
    requires FeedbackAt(u, raw + delta) < 0
    ensures FeedbackAt(u, raw) < 0
  {
    if FeedbackAt(u, raw) >= 0 {
      FeedbackAppend(u, raw, delta);
    }
  }

  lemma ExtractGrows(u: Chars, raw: string, delta: string)
    requires FeedbackAt(u, raw + delta) < 0
    ensures Extract(u, raw) <= Extract(u, raw + delta)
  {
    NoMarkerBefore(u, raw, delta);
    RegionAppend(u, raw, delta);
    var region := Region(u, raw);
    assert Extract(u, raw) == Clean(u, region);
    if region == "" {
      assert Clean(u, "") == "";
    } else {
      assert Extract(u, raw + delta) == Clean(u, region + delta);
      CleanAppend(u, region, delta);
    }
  }

  /** One token before the marker is complete: what is shown grows to the new extraction. */
  lemma TokenBeforeMarker(u: Chars, s: Streamed, delta: string)
    requires s.shown == Extract(u, s.raw)
    requires FeedbackAt(u, s.raw + delta) < 0
    ensures Fed(u, s, delta).shown == Extract(u, s.raw + delta)
  {
    if delta == "" {
      assert s.raw + delta == s.raw;
    } else {
      ExtractGrows(u, s.raw, delta);
      DiffExtends(s.shown, Extract(u, s.raw + delta));
    }
  }

  /** As long as the feedback marker has not fully appeared, the tokens shown so far join up to
      exactly the reply extracted from the output so far, however the output was cut. */
  lemma {:induction false} StreamingIsExtracting(u: Chars, deltas: seq<string>)
    requires FeedbackAt(u, Joined(deltas)) < 0
    ensures FedAll(u, deltas) == Streamed(Joined(deltas), Extract(u, Joined(deltas)))
  {
    RawIsJoined(u, deltas);
    if deltas != [] {
      var before, delta := deltas[..|deltas| - 1], deltas[|deltas| - 1];
      NoMarkerBefore(u, Joined(before), delta);
      StreamingIsExtracting(u, before);
      TokenBeforeMarker(u, FedAll(u, before), delta);
    }
  }

  // ---- At the marker and after ----

  ghost predicate VisibleFrom(u: Chars, text: string, at: int) {
    exists i :: at <= i < |text| && 0 <= i && !u.space(text[i])
  }

  /** The marker has just been completed, and some visible character shown before lies at or
      behind the place where the reply is now cut off. */
  ghost predicate Torn(u: Chars, raw: string, delta: string) {
    && FeedbackAt(u, raw) < 0 <= FeedbackAt(u, raw + delta)
    && VisibleFrom(u, Region(u, raw), FeedbackAt(u, raw + delta))
  }

  ghost predicate EverTorn(u: Chars, deltas: seq<string>) {
    deltas != [] &&
    (EverTorn(u, deltas[..|deltas| - 1]) || Torn(u, Joined(deltas[..|deltas| - 1]), deltas[|deltas| - 1]))
  }

  /** A kept, visible character after a prefix makes the cleaned text strictly longer. */
  lemma VisibleAfter(u: Chars, s: string, c: char, t: string)
    requires Sane(u) && !u.space(c)
    ensures |Clean(u, s)| < |Clean(u, s + [c] + t)|
  {
    OneLineAppend(s, [c]);
    assert [c][..0] == "" && OneLine([c]) == [c];
    var x := OneLine(s);
    LStripAppend(u, x, [c]);
    assert LStrip(u.space, x + [c]) == LStrip(u.space, x) + [c];
    RStripPrefix(u.space, LStrip(u.space, x));
    assert RStrip(u.space, LStrip(u.space, x) + [c]) == LStrip(u.space, x) + [c];
    CleanAppend(u, s + [c], t);
  }

  /** Blank text behind a prefix leaves nothing behind when cleaned. */
  lemma {:induction false} BlankAfter(u: Chars, s: string, t: string)
    requires Sane(u) && forall i :: 0 <= i < |t| ==> u.space(t[i])
    ensures Clean(u, s + t) == Clean(u, s)
    decreases |t|
  {
    if t == "" {
      assert s + t == s;
    } else {
      var init, c := t[..|t| - 1], t[|t| - 1];
      BlankAfter(u, s, init);
      assert s + t == (s + init) + [c];
      BlankEnd(u, s + init, c);
    }
  }

  lemma BlankEnd(u: Chars, s: string, c: char)
    requires Sane(u) && u.space(c)
    ensures Clean(u, s + [c]) == Clean(u, s)
  {
    OneLineAppend(s, [c]);
    assert [c][..0] == "";
    var x, y := OneLine(s), OneLine([c]);
    if y == "" {
      assert x + y == x;
    } else {
      assert |y| == 1 && u.space(y[0]);
      LStripAppend(u, x, y);
      assert y[1..] == "" && LStrip(u.space, y) == LStrip(u.space, "") == "";
      if LStrip(u.space, x) != "" {
        var l := LStrip(u.space, x);
        assert (l + y)[..|l + y| - 1] == l;
      }
    }
  }

  /** Cutting a text off shortens what is clean exactly when something visible is cut off. */
  lemma ClippedIsShorter(u: Chars, text: string, at: nat)
    requires Sane(u)
    ensures if VisibleFrom(u, text, at) then |Clean(u, Take(text, at))| < |Clean(u, text)|
            else Clean(u, Take(text, at)) == Clean(u, text)
  {
    if at < |text| {
      var rest := text[at..];
      assert text == text[..at] + rest;
      if i :| at <= i < |text| && !u.space(text[i]) {
        assert text == text[..i] + [text[i]] + text[i + 1..];
        VisibleAfter(u, text[..i], text[i], text[i + 1..]);
        assert text[..i] == text[..at] + text[at..i];
        CleanAppend(u, text[..at], text[at..i]);
      } else {
        assert forall i :: 0 <= i < |rest| ==> rest[i] == text[at + i];
        BlankAfter(u, text[..at], rest);
      }
    } else {
      assert Take(text, at) == text;
    }
  }

  /** After the marker the reply may only grow, and only if the place of the cut, counted in the
      upper-cased text, lies behind all that has arrived. */
  lemma ExtractAfterMarker(u: Chars, raw: string, delta: string)
    requires FeedbackAt(u, raw) >= 0
    ensures Extract(u, raw) <= Extract(u, raw + delta)
    ensures FeedbackAt(u, raw) < |Region(u, raw)| ==> Extract(u, raw + delta) == Extract(u, raw)
  {
    FeedbackAppend(u, raw, delta);
    var at, text, later := FeedbackAt(u, raw), Region(u, raw), Region(u, raw + delta);
    if at <= |text| {
      assert Take(later, at) == Take(text, at);
    } else {
      var more := Take(later, at)[|text|..];
      assert Take(later, at) == text + more;
      CleanAppend(u, text, more);
    }
  }

  lemma TokenAtMarker(u: Chars, s: Streamed, delta: string)
    requires Sane(u)
    requires s.shown == Extract(u, s.raw)
    requires FeedbackAt(u, s.raw) < 0 <= FeedbackAt(u, s.raw + delta)
    ensures if Torn(u, s.raw, delta) then |Fed(u, s, delta).shown| > |Extract(u, s.raw + delta)|
            else Fed(u, s, delta).shown == Extract(u, s.raw + delta)
    ensures Torn(u, s.raw, delta) ==> FeedbackAt(u, s.raw + delta) < |Region(u, s.raw + delta)|
  {
    assert delta == "" ==> s.raw + delta == s.raw;
    var current := Extract(u, s.raw + delta);
    assert Fed(u, s, delta).shown == s.shown + Diff(s.shown, current);
    RegionAppend(u, s.raw, delta);
    if Torn(u, s.raw, delta) {
      TornShowsTooMuch(u, s.raw, delta);
      ShorterNeverEqual(s.shown, current);
    } else {
      CutBehindShown(u, s.raw, delta);
      DiffExtends(s.shown, current);
    }
  }

  /** What a torn marker leaves: the reply is a strictly shorter text than what is shown. */
  lemma TornShowsTooMuch(u: Chars, raw: string, delta: string)
    requires Sane(u) && Torn(u, raw, delta)
    ensures |Extract(u, raw + delta)| < |Extract(u, raw)|
  {
    var region, at := Region(u, raw), FeedbackAt(u, raw + delta);
    RegionAppend(u, raw, delta);
    assert Take(region + delta, at) == Take(region, at);
    ClippedIsShorter(u, region, at);
  }

  lemma ShorterNeverEqual(previous: string, current: string)
    requires |current| < |previous|
    ensures |previous + Diff(previous, current)| > |current|
  {
  }

  /** A cut with nothing visible behind it leaves all earlier text in the reply. */
  lemma CutBehindShown(u: Chars, raw: string, delta: string)
    requires Sane(u)
    requires FeedbackAt(u, raw) < 0 <= FeedbackAt(u, raw + delta) && !Torn(u, raw, delta)
    ensures Extract(u, raw) <= Extract(u, raw + delta)
  {
    var region, at := Region(u, raw), FeedbackAt(u, raw + delta);
    RegionAppend(u, raw, delta);
    if region == "" {
      assert Clean(u, region) == "";
    } else {
      ClippedIsShorter(u, region, at);
      var now := Take(region + delta, at);
      assert now == Take(region, at) + now[|Take(region, at)|..];
      CleanAppend(u, Take(region, at), now[|Take(region, at)|..]);
    }
  }

  /** For any cutting of any output, what has been shown is exactly the extracted reply unless
      the marker once cut off something already shown, and then it never is again. */
  lemma {:induction false} ExactUnlessTorn(u: Chars, deltas: seq<string>)
    requires Sane(u)
    ensures FedAll(u, deltas).shown == Extract(u, Joined(deltas)) <==> !EverTorn(u, deltas)
    ensures EverTorn(u, deltas) ==>
              && 0 <= FeedbackAt(u, Joined(deltas)) < |Region(u, Joined(deltas))|
              && |FedAll(u, deltas).shown| > |Extract(u, Joined(deltas))|
  {
    RawIsJoined(u, deltas);
    if deltas != [] {
      var before, delta := deltas[..|deltas| - 1], deltas[|deltas| - 1];
      RawIsJoined(u, before);
      ExactUnlessTorn(u, before);
      var s := FedAll(u, before);
      if FeedbackAt(u, s.raw) >= 0 {
        TokenAfterMarker(u, s, delta);
        FeedbackAppend(u, s.raw, delta);
      } else if FeedbackAt(u, s.raw + delta) < 0 {
        TokenBeforeMarker(u, s, delta);
      } else {
        TokenAtMarker(u, s, delta);
      }
    }
  }

  /** Once torn, the reply is repeated: all of it is shown again by the token that completes the
      marker, and again by every later one that is not empty. */
  lemma TornRepeats(u: Chars, deltas: seq<string>, delta: string)
    requires Sane(u)
    requires EverTorn(u, deltas + [delta])
    ensures FedAll(u, deltas + [delta]).shown
         == FedAll(u, deltas).shown + if delta == "" then "" else Extract(u, Joined(deltas + [delta]))
  {
    var longer := deltas + [delta];
    assert longer[..|longer| - 1] == deltas;
    RawIsJoined(u, deltas);
    ExactUnlessTorn(u, deltas);
    if EverTorn(u, deltas) {
      ExtractAfterMarker(u, Joined(deltas), delta);
      assert FedAll(u, deltas).shown + "" == FedAll(u, deltas).shown;
    } else {
      assert Torn(u, Joined(deltas), delta);
      TornShowsTooMuch(u, Joined(deltas), delta);
      assert delta == "" ==> Joined(deltas) + delta == Joined(deltas);
    }
  }

  lemma TokenAfterMarker(u: Chars, s: Streamed, delta: string)
    requires FeedbackAt(u, s.raw) >= 0
    ensures s.shown == Extract(u, s.raw) ==> Fed(u, s, delta).shown == Extract(u, s.raw + delta)
    ensures FeedbackAt(u, s.raw) < |Region(u, s.raw)| && |s.shown| > |Extract(u, s.raw)| ==>
              |Fed(u, s, delta).shown| > |Extract(u, s.raw + delta)|
  {
    assert delta == "" ==> s.raw + delta == s.raw;
    ExtractAfterMarker(u, s.raw, delta);
    if s.shown == Extract(u, s.raw) {
      DiffExtends(s.shown, Extract(u, s.raw + delta));
    }
  }

  // ---- Texts whose upper case is as long as they are ----

  predicate KeepsLength(u: Chars, s: string) {
    |Upper(u, s)| == |s|
  }

  lemma {:induction false} UpperLength(u: Chars, s: string)
    requires Sane(u)
    ensures |Upper(u, s)| >= |s|
    ensures KeepsLength(u, s) ==> forall i :: 0 <= i < |s| ==> u.up(s[i]) == [Upper(u, s)[i]]
  {
    if s != "" {
      var init, c := s[..|s| - 1], s[|s| - 1];
      UpperLength(u, init);
      assert |u.up(c)| >= 1;
      if KeepsLength(u, s) {
        forall i | 0 <= i < |s|
          ensures u.up(s[i]) == [Upper(u, s)[i]]
        {
          if i < |s| - 1 {
            assert init[i] == s[i];
          }
        }
      }
    }
  }

  /** In such a text the marker is found where it stands, so it is torn exactly when its first
      character came in an earlier token than its last. */
  lemma TornMeans(u: Chars, raw: string, delta: string)
    requires Sane(u) && KeepsLength(u, Region(u, raw + delta))
    ensures Torn(u, raw, delta) <==>
              FeedbackAt(u, raw) < 0 <= FeedbackAt(u, raw + delta) < |Region(u, raw)|
  {
    var at := FeedbackAt(u, raw + delta);
    if FeedbackAt(u, raw) < 0 <= at < |Region(u, raw)| {
      RegionAppend(u, raw, delta);
      var text := Region(u, raw + delta);
      UpperLength(u, text);
      var up := Upper(u, text);
      assert up[at] == up[at..at + |FEEDBACK|][0];
      assert u.up(text[at]) == ['P'];
      assert text[at] == Region(u, raw)[at];
    }
  }

  /** The running reply of one model call, fed token by token. */
  class Streamer {
    const chars: Chars
    var raw: string
    var shown: string

    constructor (chars: Chars)
      ensures this.chars == chars && raw == "" && shown == ""
    {
      this.chars := chars;
      raw := "";
      shown := "";
    }

    /** Returns what to emit and speak now; a token arriving while responses are off is dropped. */
    method OnToken(delta: string, enabled: bool) returns (emitted: string)
      modifies this
      ensures enabled ==> Streamed(raw, shown) == Fed(chars, old(Streamed(raw, shown)), delta)
      ensures !enabled ==> raw == old(raw) && shown == old(shown) && emitted == ""
      ensures shown == old(shown) + emitted
    {
      if delta == "" || !enabled {
        return "";
      }
      raw := raw + delta;
      var current := Extract(chars, raw);
      emitted := Diff(shown, current);
      if emitted == "" {
        return;
      }
      shown := shown + emitted;
    }
  }
}
