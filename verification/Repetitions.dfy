/** Dropping a sentence that a transcript repeats right after itself. */
module Repetitions {
  import opened Strings

  predicate SepAt(s: string, i: int) {
    0 <= i < |s| - 1 && s[i] == '.' && s[i + 1] == ' '
  }

  /** The first separator at or after `from`, or -1. */
  function FindSep(s: string, from: nat): (i: int)
    requires from <= |s|
    ensures i == -1 || (from <= i && SepAt(s, i))
    ensures forall j :: from <= j < (if i < 0 then |s| else i) ==> !SepAt(s, j)
    decreases |s| - from
  {
    if from == |s| then -1
    else if SepAt(s, from) then from
    else FindSep(s, from + 1)
  }

  /** `s.split(". ")` */
  function SplitSentences(s: string): (parts: seq<string>)
    ensures |parts| >= 1
    decreases |s|
  {
    var i := FindSep(s, 0);
    if i < 0 then [s] else [s[..i]] + SplitSentences(s[i + 2..])
  }

  /** `". ".join(parts)` */
  function Join(parts: seq<string>): string {
    if parts == [] then ""
    else if |parts| == 1 then parts[0]
    else parts[0] + ". " + Join(parts[1..])
  }

  function StripAll(space: char -> bool, parts: seq<string>): seq<string> {
    if parts == [] then []
    else StripAll(space, parts[..|parts| - 1]) + [Strip(space, parts[|parts| - 1])]
  }

  function Extended(kept: seq<string>, part: string): seq<string> {
    if kept == [] || part != kept[|kept| - 1] then kept + [part] else kept
  }

  function Deduplicated(parts: seq<string>): (kept: seq<string>)
    ensures parts != [] ==> kept != [] && kept[|kept| - 1] == parts[|parts| - 1]
    ensures |kept| <= |parts|
  {
    if parts == [] then [] else Extended(Deduplicated(parts[..|parts| - 1]), parts[|parts| - 1])
  }

  /** Stripping and deduplicating in one pass. */
  function Cleaned(space: char -> bool, parts: seq<string>): seq<string> {
    if parts == [] then []
    else Extended(Cleaned(space, parts[..|parts| - 1]), Strip(space, parts[|parts| - 1]))
  }

  function Filtered(space: char -> bool, text: string): string {
    var parts := SplitSentences(text);
    if |parts| < 2 then text else Join(Cleaned(space, parts))
  }

  method FilterRepetitions(space: char -> bool, text: string) returns (r: string)
    ensures r == Filtered(space, text)
  {
    var parts := SplitSentences(text);
    if |parts| < 2 {
      return text;
    }
    var unique: seq<string> := [];
    for i := 0 to |parts|
      invariant unique == Cleaned(space, parts[..i])
    {
      var part := Strip(space, parts[i]);
      assert parts[..i + 1][..i] == parts[..i];
      if unique == [] || part != unique[|unique| - 1] {
        unique := unique + [part];
      }
    }
    assert parts[..|parts|] == parts;
    return Join(unique);
  }

  lemma {:induction false} CleanedInTwo(space: char -> bool, parts: seq<string>)
    ensures Cleaned(space, parts) == Deduplicated(StripAll(space, parts))
  {
    if parts != [] {
      var init := parts[..|parts| - 1];
      CleanedInTwo(space, init);
      var stripped := StripAll(space, parts);
      assert stripped[..|stripped| - 1] == StripAll(space, init);
    }
  }

  // ---- Splitting and joining ----

  ghost predicate NoSep(s: string) {
    forall i :: !SepAt(s, i)
  }

  ghost predicate Whole(parts: seq<string>) {
    forall i :: 0 <= i < |parts| ==> NoSep(parts[i])
  }

  ghost predicate Stripped(space: char -> bool, parts: seq<string>) {
    forall i :: 0 <= i < |parts| ==> Strip(space, parts[i]) == parts[i]
  }

  ghost predicate NoRepeat(parts: seq<string>) {
    forall i :: 0 < i < |parts| ==> parts[i] != parts[i - 1]
  }

  lemma {:induction false} SplitIsWhole(s: string)
    ensures Whole(SplitSentences(s))
    decreases |s|
  {
    var i := FindSep(s, 0);
    if i >= 0 {
      SplitIsWhole(s[i + 2..]);
      forall j ensures !SepAt(s[..i], j) {
        if SepAt(s[..i], j) {
          assert SepAt(s, j);
        }
      }
    }
  }

  lemma {:induction false} JoinOfSplit(s: string)
    ensures Join(SplitSentences(s)) == s
    decreases |s|
  {
    var i := FindSep(s, 0);
    if i >= 0 {
      JoinOfSplit(s[i + 2..]);
      var rest := SplitSentences(s[i + 2..]);
      assert ([s[..i]] + rest)[1..] == rest;
      assert s == s[..i] + ". " + s[i + 2..];
    }
  }

  lemma FirstSep(p: string, rest: string)
    requires NoSep(p)
    ensures FindSep(p + ". " + rest, 0) == |p|
  {
    var s := p + ". " + rest;
    assert SepAt(s, |p|);
    forall j | 0 <= j < |p| ensures !SepAt(s, j) {
      assert SepAt(s, j) ==> SepAt(p, j);
    }
  }

  /** Splitting what was joined gives the sentences back. */
  lemma {:induction false} SplitOfJoin(parts: seq<string>)
    requires parts != [] && Whole(parts)
    ensures SplitSentences(Join(parts)) == parts
  {
    if |parts| == 1 {
      assert NoSep(parts[0]);
    } else {
      var rest := Join(parts[1..]);
      SplitOfJoin(parts[1..]);
      FirstSep(parts[0], rest);
      var s := parts[0] + ". " + rest;
      assert s[..|parts[0]|] == parts[0] && s[|parts[0]| + 2..] == rest;
    }
  }

  lemma {:induction false} LStripIsWhole(space: char -> bool, s: string)
    requires NoSep(s)
    ensures NoSep(LStrip(space, s))
  {
    if s != "" && space(s[0]) {
      var tail := s[1..];
      forall i ensures !SepAt(tail, i) {
        assert SepAt(tail, i) ==> SepAt(s, i + 1);
      }
      LStripIsWhole(space, tail);
    }
  }

  lemma StripIsWhole(space: char -> bool, s: string)
    requires NoSep(s)
    ensures NoSep(Strip(space, s))
  {
    LStripIsWhole(space, s);
    var l, t := LStrip(space, s), Strip(space, s);
    RStripPrefix(space, l);
    forall i ensures !SepAt(t, i) {
      assert SepAt(t, i) ==> SepAt(l, i);
    }
  }

  lemma {:induction false} StripAllIsStripped(space: char -> bool, parts: seq<string>)
    requires Whole(parts)
    ensures var r := StripAll(space, parts);
            |r| == |parts| && Whole(r) && Stripped(space, r)
  {
    if parts != [] {
      StripAllIsStripped(space, parts[..|parts| - 1]);
      StripIsWhole(space, parts[|parts| - 1]);
      StripVisible(space, parts[|parts| - 1]);
    }
  }

  /** Deduplicating leaves no sentence next to its like, and only sentences that were there. */
  lemma {:induction false} DeduplicatedIsClean(space: char -> bool, parts: seq<string>)
    requires Whole(parts) && Stripped(space, parts)
    ensures var kept := Deduplicated(parts);
            Whole(kept) && Stripped(space, kept) && NoRepeat(kept)
  {
    if parts != [] {
      DeduplicatedIsClean(space, parts[..|parts| - 1]);
    }
  }

  lemma {:induction false} CleanIsKept(space: char -> bool, parts: seq<string>)
    requires Stripped(space, parts) && NoRepeat(parts)
    ensures Cleaned(space, parts) == parts
  {
    if parts != [] {
      var init := parts[..|parts| - 1];
      CleanIsKept(space, init);
      assert init + [parts[|parts| - 1]] == parts;
    }
  }

  function Changes(parts: seq<string>): nat {
    if |parts| <= 1 then |parts|
    else
      Changes(parts[..|parts| - 1])
      + if parts[|parts| - 1] != parts[|parts| - 2] then 1 else 0
  }

  /** One sentence is left of each stretch of equal ones. */
  lemma {:induction false} OneOfEachStretch(parts: seq<string>)
    ensures |Deduplicated(parts)| == Changes(parts)
  {
    if |parts| > 1 {
      OneOfEachStretch(parts[..|parts| - 1]);
    } else if |parts| == 1 {
      assert parts[..0] == [];
    }
  }

  // ---- Results ----

  /** The sentences of a text with several are those kept; no two neighbours among them are equal. */
  lemma FilteredSentences(space: char -> bool, text: string)
    requires |SplitSentences(text)| >= 2
    ensures var kept := SplitSentences(Filtered(space, text));
            && kept == Deduplicated(StripAll(space, SplitSentences(text)))
            && NoRepeat(kept) && Stripped(space, kept)
            && |kept| == Changes(StripAll(space, SplitSentences(text)))
  {
    var parts := SplitSentences(text);
    SplitIsWhole(text);
    CleanedInTwo(space, parts);
    StripAllIsStripped(space, parts);
    var stripped := StripAll(space, parts);
    DeduplicatedIsClean(space, stripped);
    SplitOfJoin(Deduplicated(stripped));
    OneOfEachStretch(stripped);
  }

  lemma CleanIsUnchanged(space: char -> bool, text: string)
    requires Stripped(space, SplitSentences(text)) && NoRepeat(SplitSentences(text))
    ensures Filtered(space, text) == text
  {
    CleanIsKept(space, SplitSentences(text));
    JoinOfSplit(text);
  }

  /** Filtering changes nothing exactly when there is one sentence, or every sentence is stripped
      and differs from the one before. */
  lemma UnchangedIff(space: char -> bool, text: string)
    ensures Filtered(space, text) == text
            <==> || |SplitSentences(text)| == 1
                 || (Stripped(space, SplitSentences(text)) && NoRepeat(SplitSentences(text)))
  {
    if |SplitSentences(text)| >= 2 {
      FilteredSentences(space, text);
      if Stripped(space, SplitSentences(text)) && NoRepeat(SplitSentences(text)) {
        CleanIsUnchanged(space, text);
      }
    }
  }

  /** Filtering twice is filtering once. */
  lemma FilterTwice(space: char -> bool, text: string)
    ensures Filtered(space, Filtered(space, text)) == Filtered(space, text)
  {
    if |SplitSentences(text)| >= 2 {
      FilteredSentences(space, text);
      UnchangedIff(space, Filtered(space, text));
    }
  }
}
