/** Splitting a transcript that mixes Vietnamese and English: finding the marked tokens, the runs
    between them, and the run that stands for the learner's English. */
module MixedLanguage {
  import opened Options

  /** Python's character tests and the word lists. */
  datatype Language = Language(
    space: char -> bool,
    alnum: char -> bool,
    alpha: char -> bool,
    ascii: char -> bool,
    lower: char -> string,
    accented: set<char>,
    phonetic: set<string>,
    homographs: set<string>,
    common: set<string>,
    controlled: set<string>,
    lowInformation: set<string>,
    incomplete: set<string>)

  const EDGE := " ,.;:!?"

  predicate AccentedChar(l: Language, c: char) {
    exists i :: 0 <= i < |l.lower(c)| && l.lower(c)[i] in l.accented
  }

  /** What Unicode says of the characters involved. */
  ghost predicate Sane(l: Language) {
    && l.space(' ')
    && (forall c :: l.space(c) ==> l.lower(c) == [c])
    && (forall c :: !l.space(c) ==> NoSpace(l, l.lower(c)))
    && (forall c :: AccentedChar(l, c) ==> l.alnum(c) && !l.space(c))
    && (forall c :: c in EDGE ==> !l.alnum(c) && (l.space(c) <==> c == ' '))
  }

  predicate NoSpace(l: Language, s: string) {
    forall i :: 0 <= i < |s| ==> !l.space(s[i])
  }

  // ---- Python's split and join ----

  datatype Scan = Scan(done: seq<string>, open: string)

  function Read(l: Language, st: Scan, c: char): Scan {
    if !l.space(c) then st.(open := st.open + [c])
    else if st.open == "" then st
    else Scan(st.done + [st.open], "")
  }

  function ReadAll(l: Language, st: Scan, s: string): Scan {
    if s == "" then st else Read(l, ReadAll(l, st, s[..|s| - 1]), s[|s| - 1])
  }

  function Closed(st: Scan): seq<string> {
    st.done + if st.open == "" then [] else [st.open]
  }

  /** `s.split()` */
  function Words(l: Language, s: string): seq<string> {
    Closed(ReadAll(l, Scan([], ""), s))
  }

  /** `" ".join(words)` */
  function Join(words: seq<string>): string {
    if words == [] then ""
    else if |words| == 1 then words[0]
    else Join(words[..|words| - 1]) + " " + words[|words| - 1]
  }

  ghost predicate Clean(l: Language, words: seq<string>) {
    forall i :: 0 <= i < |words| ==> words[i] != "" && NoSpace(l, words[i])
  }

  lemma Assoc<T>(a: seq<T>, b: seq<T>, c: seq<T>)
    ensures a + b + c == a + (b + c)
  {
  }

  lemma {:induction false} ReadAppend(l: Language, st: Scan, a: string, b: string)
    ensures ReadAll(l, st, a + b) == ReadAll(l, ReadAll(l, st, a), b)
  {
    if b == "" {
      assert a + b == a;
    } else {
      assert (a + b)[..|a + b| - 1] == a + b[..|b| - 1];
      ReadAppend(l, st, a, b[..|b| - 1]);
    }
  }

  /** Words already closed have no bearing on what follows. */
  lemma {:induction false} ReadFrame(l: Language, before: seq<string>, st: Scan, s: string)
    ensures ReadAll(l, Scan(before + st.done, st.open), s)
         == Scan(before + ReadAll(l, st, s).done, ReadAll(l, st, s).open)
  {
    if s != "" {
      ReadFrame(l, before, st, s[..|s| - 1]);
      var r := ReadAll(l, st, s[..|s| - 1]);
      assert before + r.done + [r.open] == before + (r.done + [r.open]);
    }
  }

  lemma {:induction false} ReadClean(l: Language, s: string)
    ensures var st := ReadAll(l, Scan([], ""), s);
            Clean(l, st.done) && NoSpace(l, st.open)
  {
    if s != "" {
      ReadClean(l, s[..|s| - 1]);
    }
  }

  lemma WordsAreClean(l: Language, s: string)
    ensures Clean(l, Words(l, s))
  {
    ReadClean(l, s);
  }

  /** A visible character is part of some word. */
  lemma {:induction false} VisibleIsWord(l: Language, s: string, i: nat)
    requires i < |s| && !l.space(s[i])
    ensures Words(l, s) != []
  {
    var init := s[..|s| - 1];
    if i < |init| {
      VisibleIsWord(l, init, i);
    }
  }

  lemma {:induction false} ReadWord(l: Language, st: Scan, w: string)
    requires NoSpace(l, w)
    ensures ReadAll(l, st, w) == Scan(st.done, st.open + w)
  {
    if w != "" {
      var init := w[..|w| - 1];
      ReadWord(l, st, init);
      assert st.open + init + [w[|w| - 1]] == st.open + w by { assert init + [w[|w| - 1]] == w; }
    } else {
      assert st.open + w == st.open;
    }
  }

  /** A word after a space is one more word. */
  lemma WordAfter(l: Language, s: string, w: string)
    requires l.space(' ') && w != "" && NoSpace(l, w)
    ensures Words(l, s + " " + w) == Words(l, s) + [w]
  {
    var start := Scan([], "");
    var st := ReadAll(l, start, s);
    ReadAppend(l, start, s + " ", w);
    ReadAppend(l, start, s, " ");
    ReadSpace(l, st);
    ReadWord(l, Scan(Closed(st), ""), w);
    assert "" + w == w;
  }

  lemma SplitWord(l: Language, w: string)
    requires w != "" && NoSpace(l, w)
    ensures Words(l, w) == [w]
  {
    ReadWord(l, Scan([], ""), w);
    assert "" + w == w;
  }

  /** Splitting what was joined gives the words back. */
  lemma {:induction false} SplitJoin(l: Language, words: seq<string>)
    requires l.space(' ') && Clean(l, words)
    ensures Words(l, Join(words)) == words
  {
    if |words| == 1 {
      SplitWord(l, words[0]);
      assert Join(words) == words[0];
    } else if words != [] {
      var init, w := words[..|words| - 1], words[|words| - 1];
      SplitJoin(l, init);
      WordAfter(l, Join(init), w);
      assert init + [w] == words;
    }
  }

  lemma ReadSpace(l: Language, st: Scan)
    requires l.space(' ')
    ensures ReadAll(l, st, " ") == Scan(Closed(st), "")
  {
    assert " "[..0] == "";
    assert ReadAll(l, st, " ") == Read(l, ReadAll(l, st, ""), ' ');
    if st.open == "" {
      assert st.done + [] == st.done;
    }
  }

  // ---- Normalising, and the two tests for Vietnamese ----

  function NormalChar(l: Language, c: char): string {
    if l.alnum(c) || l.space(c) then l.lower(c) else " "
  }

  function Lowered(l: Language, s: string): string {
    if s == "" then "" else Lowered(l, s[..|s| - 1]) + l.lower(s[|s| - 1])
  }

  function Respaced(l: Language, s: string): string {
    if s == "" then "" else Respaced(l, s[..|s| - 1]) + NormalChar(l, s[|s| - 1])
  }

  function NormalizeSttText(l: Language, text: string): string {
    Join(Words(l, Respaced(l, text)))
  }

  predicate HasAccent(l: Language, s: string) {
    exists i :: 0 <= i < |s| && s[i] in l.accented
  }

  predicate IsPhonetic(l: Language, word: string) {
    word in l.phonetic && word !in l.homographs
  }

  predicate HasPhonetic(l: Language, words: seq<string>) {
    exists i :: 0 <= i < |words| && IsPhonetic(l, words[i])
  }

  predicate ContainsVietnamese(l: Language, text: string) {
    var normalized := NormalizeSttText(l, text);
    normalized != "" && (HasAccent(l, Lowered(l, text)) || HasPhonetic(l, Words(l, normalized)))
  }

  predicate TokenMarked(l: Language, token: string) {
    HasAccent(l, Lowered(l, token))
    || (var normalized := NormalizeSttText(l, token);
        normalized != "" && HasPhonetic(l, Words(l, normalized)))
  }

  function NormalWords(l: Language, text: string): seq<string> {
    Words(l, Respaced(l, text))
  }

  function AllNormalWords(l: Language, tokens: seq<string>): seq<string> {
    if tokens == [] then []
    else AllNormalWords(l, tokens[..|tokens| - 1]) + NormalWords(l, tokens[|tokens| - 1])
  }

  lemma AllNormalSnoc(l: Language, tokens: seq<string>, token: string)
    ensures AllNormalWords(l, tokens + [token]) == AllNormalWords(l, tokens) + NormalWords(l, token)
  {
    var longer := tokens + [token];
    assert longer[..|longer| - 1] == tokens && longer[|longer| - 1] == token;
  }

  lemma {:induction false} AllNormalAppend(l: Language, a: seq<string>, b: seq<string>)
    ensures AllNormalWords(l, a + b) == AllNormalWords(l, a) + AllNormalWords(l, b)
  {
    if b == [] {
      assert a + b == a;
      assert AllNormalWords(l, a) + [] == AllNormalWords(l, a);
    } else {
      var init, t := b[..|b| - 1], b[|b| - 1];
      assert b == init + [t];
      Assoc(a, init, [t]);
      AllNormalAppend(l, a, init);
      AllNormalSnoc(l, a + init, t);
      AllNormalSnoc(l, init, t);
      Assoc(AllNormalWords(l, a), AllNormalWords(l, init), NormalWords(l, t));
    }
  }

  lemma AllNormalOne(l: Language, token: string)
    ensures AllNormalWords(l, [token]) == NormalWords(l, token)
  {
    assert [token][..0] == [];
  }

  /** The normalised text is empty exactly when it has no word, and splits into its words. */
  lemma NormalizedSplits(l: Language, text: string)
    requires Sane(l)
    ensures Words(l, NormalizeSttText(l, text)) == NormalWords(l, text)
    ensures NormalizeSttText(l, text) == "" <==> NormalWords(l, text) == []
  {
    WordsAreClean(l, Respaced(l, text));
    SplitJoin(l, NormalWords(l, text));
  }

  lemma {:induction false} RespacedAppend(l: Language, a: string, b: string)
    ensures Respaced(l, a + b) == Respaced(l, a) + Respaced(l, b)
  {
    if b == "" {
      assert a + b == a;
    } else {
      assert (a + b)[..|a + b| - 1] == a + b[..|b| - 1];
      RespacedAppend(l, a, b[..|b| - 1]);
    }
  }

  lemma RespacedOne(l: Language, s: string, c: char)
    ensures Respaced(l, s + [c]) == Respaced(l, s) + NormalChar(l, c)
  {
    assert (s + [c])[..|s|] == s;
  }

  const START := Scan([], "")

  /** The reading of a normalised text, from the reading of the text itself. */
  function NormalScan(l: Language, st: Scan): Scan {
    var open := ReadAll(l, START, Respaced(l, st.open));
    Scan(AllNormalWords(l, st.done) + open.done, open.open)
  }

  lemma ReadSnoc(l: Language, text: string)
    requires text != ""
    ensures ReadAll(l, START, text) == Read(l, ReadAll(l, START, text[..|text| - 1]), text[|text| - 1])
  {
  }

  lemma NormalScanSpace(l: Language, st: Scan, c: char)
    requires Sane(l) && l.space(c)
    ensures ReadAll(l, NormalScan(l, st), NormalChar(l, c)) == NormalScan(l, Read(l, st, c))
  {
    var open := ReadAll(l, START, Respaced(l, st.open));
    var before := AllNormalWords(l, st.done);
    NormalSpace(l, NormalScan(l, st), c);
    assert ReadAll(l, START, Respaced(l, "")) == START;
    if st.open != "" {
      AllNormalSnoc(l, st.done, st.open);
      assert NormalWords(l, st.open) == Closed(open);
      assert Closed(NormalScan(l, st)) == before + Closed(open);
      assert before + Closed(open) + [] == before + Closed(open);
    } else {
      assert before + [] == before;
    }
  }

  lemma NormalScanVisible(l: Language, st: Scan, c: char)
    requires !l.space(c)
    ensures ReadAll(l, NormalScan(l, st), NormalChar(l, c)) == NormalScan(l, Read(l, st, c))
  {
    var open := ReadAll(l, START, Respaced(l, st.open));
    ReadFrame(l, AllNormalWords(l, st.done), open, NormalChar(l, c));
    RespacedOne(l, st.open, c);
    ReadAppend(l, START, Respaced(l, st.open), NormalChar(l, c));
  }

  lemma NormalSpace(l: Language, st: Scan, c: char)
    requires Sane(l) && l.space(c)
    ensures ReadAll(l, st, NormalChar(l, c)) == Scan(Closed(st), "")
  {
    assert [c][..0] == "";
    assert ReadAll(l, st, [c]) == Read(l, ReadAll(l, st, ""), c);
    if st.open == "" {
      assert st.done + [] == st.done;
    }
  }

  /** Normalising reads the text word by word: the open word is normalised like the closed ones. */
  lemma {:induction false} NormalByWord(l: Language, text: string)
    requires Sane(l)
    ensures ReadAll(l, START, Respaced(l, text)) == NormalScan(l, ReadAll(l, START, text))
  {
    if text == "" {
      assert AllNormalWords(l, []) + [] == [];
    } else {
      var init, c := text[..|text| - 1], text[|text| - 1];
      NormalByWord(l, init);
      ReadSnoc(l, text);
      ReadAppend(l, START, Respaced(l, init), NormalChar(l, c));
      if l.space(c) {
        NormalScanSpace(l, ReadAll(l, START, init), c);
      } else {
        NormalScanVisible(l, ReadAll(l, START, init), c);
      }
    }
  }

  lemma NormalScanCloses(l: Language, st: Scan)
    ensures Closed(NormalScan(l, st)) == AllNormalWords(l, Closed(st))
  {
    var open := ReadAll(l, START, Respaced(l, st.open));
    var before := AllNormalWords(l, st.done);
    if st.open != "" {
      AllNormalSnoc(l, st.done, st.open);
      assert NormalWords(l, st.open) == Closed(open);
      assert Closed(NormalScan(l, st)) == before + Closed(open);
    } else {
      assert ReadAll(l, START, Respaced(l, "")) == START;
      assert st.done + [] == st.done;
      assert before + [] + [] == before;
    }
  }

  /** The words of a normalised text are those of its tokens, normalised one by one. */
  lemma NormalWordsByToken(l: Language, text: string)
    requires Sane(l)
    ensures NormalWords(l, text) == AllNormalWords(l, Words(l, text))
  {
    NormalByWord(l, text);
    NormalScanCloses(l, ReadAll(l, START, text));
  }

  // ---- What the normal words of a text are ----

  lemma {:induction false} LoweredHasNoSpace(l: Language, w: string)
    requires Sane(l) && NoSpace(l, w)
    ensures NoSpace(l, Lowered(l, w))
  {
    if w != "" {
      LoweredHasNoSpace(l, w[..|w| - 1]);
      assert !l.space(w[|w| - 1]);
    }
  }

  lemma {:induction false} RespacedWord(l: Language, w: string)
    requires forall i :: 0 <= i < |w| ==> l.alnum(w[i])
    ensures Respaced(l, w) == Lowered(l, w)
  {
    if w != "" {
      RespacedWord(l, w[..|w| - 1]);
    }
  }

  /** A stretch of letters and digits is one word, in lower case. */
  lemma WordIsLowered(l: Language, w: string)
    requires Sane(l) && NoSpace(l, w) && Lowered(l, w) != ""
    requires forall i :: 0 <= i < |w| ==> l.alnum(w[i])
    ensures NormalWords(l, w) == [Lowered(l, w)]
  {
    RespacedWord(l, w);
    LoweredHasNoSpace(l, w);
    SplitWord(l, Lowered(l, w));
  }

  lemma WordsAtSpace(l: Language, a: string, c: char, b: string)
    requires l.space(c)
    ensures Words(l, a + [c] + b) == Words(l, a) + Words(l, b)
  {
    var st, rest := ReadAll(l, START, a), ReadAll(l, START, b);
    ReadAppend(l, START, a + [c], b);
    ReadAppend(l, START, a, [c]);
    assert [c][..0] == "" && ReadAll(l, st, [c]) == Read(l, ReadAll(l, st, ""), c);
    assert ReadAll(l, st, [c]) == Scan(Closed(st), "") by {
      if st.open == "" {
        assert st.done + [] == st.done;
      }
    }
    ReadFrame(l, Closed(st), START, b);
    assert Closed(st) + [] == Closed(st);
    Assoc(Closed(st), rest.done, if rest.open == "" then [] else [rest.open]);
  }

  /** Any other character only divides the words before it from those behind it. */
  lemma SeparatorDivides(l: Language, a: string, c: char, b: string)
    requires Sane(l) && (l.space(c) || !l.alnum(c))
    ensures NormalWords(l, a + [c] + b) == NormalWords(l, a) + NormalWords(l, b)
  {
    RespacedAppend(l, a + [c], b);
    RespacedOne(l, a, c);
    var d := NormalChar(l, c)[0];
    assert NormalChar(l, c) == [d] && l.space(d);
    WordsAtSpace(l, Respaced(l, a), d, Respaced(l, b));
  }

  function TotalLength(words: seq<string>): nat {
    if words == [] then 0 else TotalLength(words[..|words| - 1]) + |words[|words| - 1]|
  }

  /** Joined words are exactly one ' ' apart. */
  lemma {:induction false} JoinIsTight(l: Language, words: seq<string>)
    requires Clean(l, words)
    ensures forall i :: 0 <= i < |Join(words)| && l.space(Join(words)[i]) ==> Join(words)[i] == ' '
    ensures words != [] ==> |Join(words)| == TotalLength(words) + |words| - 1
  {
    if |words| == 1 {
      assert words[..0] == [];
    } else if words != [] {
      JoinIsTight(l, words[..|words| - 1]);
    }
  }

  lemma {:induction false} AccentByChar(l: Language, s: string)
    ensures HasAccent(l, Lowered(l, s)) <==> exists i :: 0 <= i < |s| && AccentedChar(l, s[i])
  {
    if s != "" {
      var init, c := s[..|s| - 1], s[|s| - 1];
      AccentByChar(l, init);
      var a, b := Lowered(l, init), l.lower(c);
      assert Lowered(l, s) == a + b;
      if HasAccent(l, a + b) {
        var i :| 0 <= i < |a + b| && (a + b)[i] in l.accented;
        if i < |a| {
          assert a[i] in l.accented;
          var j :| 0 <= j < |init| && AccentedChar(l, init[j]);
          assert AccentedChar(l, s[j]);
        } else {
          assert b[i - |a|] in l.accented;
          assert AccentedChar(l, s[|s| - 1]);
        }
      }
      if i :| 0 <= i < |s| && AccentedChar(l, s[i]) {
        if i < |init| {
          assert AccentedChar(l, init[i]);
          var j :| 0 <= j < |a| && a[j] in l.accented;
          assert (a + b)[j] in l.accented;
        } else {
          var j :| 0 <= j < |b| && b[j] in l.accented;
          assert (a + b)[|a| + j] in l.accented;
        }
      }
    }
  }

  predicate Accented(l: Language, s: string) {
    exists i :: 0 <= i < |s| && AccentedChar(l, s[i])
  }

  predicate AnyAccented(l: Language, words: seq<string>) {
    exists i :: 0 <= i < |words| && Accented(l, words[i])
  }

  lemma AccentedAppend(l: Language, s: string, c: char)
    ensures Accented(l, s + [c]) <==> Accented(l, s) || AccentedChar(l, c)
  {
    var t := s + [c];
    if i :| 0 <= i < |s| && AccentedChar(l, s[i]) {
      assert AccentedChar(l, t[i]);
    }
    if AccentedChar(l, c) {
      assert AccentedChar(l, t[|s|]);
    }
  }

  lemma AnyAccentedAppend(l: Language, words: seq<string>, w: string)
    ensures AnyAccented(l, words + [w]) <==> AnyAccented(l, words) || Accented(l, w)
  {
    var longer := words + [w];
    if i :| 0 <= i < |words| && Accented(l, words[i]) {
      assert Accented(l, longer[i]);
    }
    if Accented(l, w) {
      assert Accented(l, longer[|words|]);
    }
  }

  lemma {:induction false} AccentsAreInWords(l: Language, text: string)
    requires Sane(l)
    ensures var st := ReadAll(l, Scan([], ""), text);
            Accented(l, text) <==> AnyAccented(l, st.done) || Accented(l, st.open)
  {
    if text != "" {
      var init, c := text[..|text| - 1], text[|text| - 1];
      assert text == init + [c];
      AccentsAreInWords(l, init);
      var st := ReadAll(l, Scan([], ""), init);
      AccentedAppend(l, init, c);
      AccentedAppend(l, st.open, c);
      AnyAccentedAppend(l, st.done, st.open);
    }
  }

  lemma AccentedByToken(l: Language, text: string)
    requires Sane(l)
    ensures Accented(l, text) <==> AnyAccented(l, Words(l, text))
  {
    AccentsAreInWords(l, text);
    var st := ReadAll(l, Scan([], ""), text);
    AnyAccentedAppend(l, st.done, st.open);
    assert st.done + [] == st.done;
  }

  /** An accented text is never empty once normalised. */
  lemma {:induction false} AccentLeavesWord(l: Language, s: string)
    requires Sane(l) && Accented(l, s)
    ensures NormalWords(l, s) != []
  {
    var i :| 0 <= i < |s| && AccentedChar(l, s[i]);
    var a, b := s[..i], s[i + 1..];
    assert s == a + [s[i]] + b;
    RespacedAppend(l, a + [s[i]], b);
    RespacedOne(l, a, s[i]);
    var n := |Respaced(l, a)|;
    assert |NormalChar(l, s[i])| > 0;
    assert Respaced(l, s)[n] == NormalChar(l, s[i])[0];
    VisibleIsWord(l, Respaced(l, s), n);
  }

  predicate AnyPhonetic(l: Language, tokens: seq<string>) {
    exists i :: 0 <= i < |tokens| && HasPhonetic(l, NormalWords(l, tokens[i]))
  }

  lemma AnyPhoneticSnoc(l: Language, tokens: seq<string>, t: string)
    ensures AnyPhonetic(l, tokens + [t]) <==> AnyPhonetic(l, tokens) || HasPhonetic(l, NormalWords(l, t))
  {
    var longer := tokens + [t];
    if i :| 0 <= i < |tokens| && HasPhonetic(l, NormalWords(l, tokens[i])) {
      assert HasPhonetic(l, NormalWords(l, longer[i]));
    }
    if HasPhonetic(l, NormalWords(l, t)) {
      assert HasPhonetic(l, NormalWords(l, longer[|tokens|]));
    }
  }

  lemma {:induction false} PhoneticByToken(l: Language, tokens: seq<string>)
    ensures HasPhonetic(l, AllNormalWords(l, tokens)) <==> AnyPhonetic(l, tokens)
  {
    if tokens != [] {
      var init, t := tokens[..|tokens| - 1], tokens[|tokens| - 1];
      assert tokens == init + [t];
      PhoneticByToken(l, init);
      AllNormalSnoc(l, init, t);
      PhoneticAppend(l, AllNormalWords(l, init), NormalWords(l, t));
      AnyPhoneticSnoc(l, init, t);
    }
  }

  lemma PhoneticAppend(l: Language, a: seq<string>, b: seq<string>)
    ensures HasPhonetic(l, a + b) <==> HasPhonetic(l, a) || HasPhonetic(l, b)
  {
    var both := a + b;
    if i :| 0 <= i < |a| && IsPhonetic(l, a[i]) {
      assert IsPhonetic(l, both[i]);
    }
    if i :| 0 <= i < |b| && IsPhonetic(l, b[i]) {
      assert IsPhonetic(l, both[|a| + i]);
    }
    if i :| 0 <= i < |both| && IsPhonetic(l, both[i]) {
      assert if i < |a| then IsPhonetic(l, a[i]) else IsPhonetic(l, b[i - |a|]);
    }
  }

  lemma MarkedMeans(l: Language, token: string)
    requires Sane(l)
    ensures TokenMarked(l, token) <==> Accented(l, token) || HasPhonetic(l, NormalWords(l, token))
  {
    AccentByChar(l, token);
    NormalizedSplits(l, token);
  }

  lemma VietnameseMeans(l: Language, text: string)
    requires Sane(l)
    ensures ContainsVietnamese(l, text) <==> Accented(l, text) || HasPhonetic(l, NormalWords(l, text))
  {
    AccentByChar(l, text);
    NormalizedSplits(l, text);
    if Accented(l, text) {
      AccentLeavesWord(l, text);
    }
  }

  /** An accented character, or a word of the phonetic list that is no English homograph. */
  ghost predicate ShowsVietnamese(l: Language, text: string) {
    || (exists i, j :: 0 <= i < |text| && 0 <= j < |l.lower(text[i])| && l.lower(text[i])[j] in l.accented)
    || (exists i :: 0 <= i < |NormalWords(l, text)| && NormalWords(l, text)[i] in l.phonetic
                    && NormalWords(l, text)[i] !in l.homographs)
  }

  /** Both tests, of a whole transcript and of one token, find just that. */
  lemma VietnameseExactlyWhenShown(l: Language, text: string)
    requires Sane(l)
    ensures ContainsVietnamese(l, text) <==> ShowsVietnamese(l, text)
    ensures TokenMarked(l, text) <==> ShowsVietnamese(l, text)
  {
    VietnameseMeans(l, text);
    MarkedMeans(l, text);
    if HasPhonetic(l, NormalWords(l, text)) {
      var i :| 0 <= i < |NormalWords(l, text)| && IsPhonetic(l, NormalWords(l, text)[i]);
      assert NormalWords(l, text)[i] in l.phonetic;
    }
    if Accented(l, text) {
      var i :| 0 <= i < |text| && AccentedChar(l, text[i]);
      var j :| 0 <= j < |l.lower(text[i])| && l.lower(text[i])[j] in l.accented;
    }
    if i, j :| 0 <= i < |text| && 0 <= j < |l.lower(text[i])| && l.lower(text[i])[j] in l.accented {
      assert AccentedChar(l, text[i]);
    }
    if i :| 0 <= i < |NormalWords(l, text)| && NormalWords(l, text)[i] in l.phonetic
            && NormalWords(l, text)[i] !in l.homographs {
      assert IsPhonetic(l, NormalWords(l, text)[i]);
    }
  }

  ghost predicate SomeMarked(l: Language, tokens: seq<string>) {
    exists i :: 0 <= i < |tokens| && TokenMarked(l, tokens[i])
  }

  /** The test on the whole transcript and the test on its tokens agree. */
  lemma VietnameseIffTokenMarked(l: Language, text: string)
    requires Sane(l)
    ensures ContainsVietnamese(l, text) <==> SomeMarked(l, Words(l, text))
  {
    var tokens := Words(l, text);
    VietnameseMeans(l, text);
    NormalWordsByToken(l, text);
    AccentedByToken(l, text);
    PhoneticByToken(l, tokens);
    forall i | 0 <= i < |tokens|
      ensures TokenMarked(l, tokens[i]) <==> Accented(l, tokens[i]) || HasPhonetic(l, NormalWords(l, tokens[i]))
    {
      MarkedMeans(l, tokens[i]);
    }
  }

  // ---- Runs of unmarked tokens ----

  predicate Unmarked(l: Language, tokens: seq<string>, i: int) {
    0 <= i < |tokens| && !TokenMarked(l, tokens[i])
  }

  /** The maximal runs of unmarked tokens, in order. */
  function Blocks(l: Language, tokens: seq<string>): (b: seq<seq<string>>)
    ensures Unmarked(l, tokens, |tokens| - 1) ==> b != []
  {
    if tokens == [] then []
    else
      var init, t := tokens[..|tokens| - 1], tokens[|tokens| - 1];
      var b := Blocks(l, init);
      if TokenMarked(l, t) then b
      else if Unmarked(l, init, |init| - 1) then b[..|b| - 1] + [b[|b| - 1] + [t]]
      else b + [[t]]
  }

  function StripEdge(s: string): string
    decreases |s|
  {
    if s == "" then ""
    else if s[0] in EDGE then StripEdge(s[1..])
    else if s[|s| - 1] in EDGE then StripEdge(s[..|s| - 1])
    else s
  }

  function Segment(block: seq<string>): string {
    StripEdge(Join(block))
  }

  function Segments(blocks: seq<seq<string>>): seq<string> {
    if blocks == [] then [] else Segments(blocks[..|blocks| - 1]) + [Segment(blocks[|blocks| - 1])]
  }

  function Flat(blocks: seq<seq<string>>): seq<string> {
    if blocks == [] then [] else Flat(blocks[..|blocks| - 1]) + blocks[|blocks| - 1]
  }

  function UnmarkedTokens(l: Language, tokens: seq<string>): seq<string> {
    if tokens == [] then []
    else
      UnmarkedTokens(l, tokens[..|tokens| - 1])
      + if TokenMarked(l, tokens[|tokens| - 1]) then [] else [tokens[|tokens| - 1]]
  }

  function RunsOf(l: Language, text: string): seq<string> {
    Segments(Blocks(l, Words(l, text)))
  }

  /** The runs finished so far and the tokens of the one still open. */
  datatype Splitting = Splitting(runs: seq<string>, current: seq<string>)

  function Taken(l: Language, st: Splitting, token: string): Splitting {
    if !TokenMarked(l, token) then st.(current := st.current + [token])
    else if st.current == [] then st
    else Splitting(st.runs + [Segment(st.current)], [])
  }

  function TakenAll(l: Language, tokens: seq<string>): Splitting {
    if tokens == [] then Splitting([], [])
    else Taken(l, TakenAll(l, tokens[..|tokens| - 1]), tokens[|tokens| - 1])
  }

  /** Token by token, the open run is the last block while its last token is unmarked. */
  lemma {:induction false} TakenIsBlocks(l: Language, tokens: seq<string>)
    ensures var b, st := Blocks(l, tokens), TakenAll(l, tokens);
            if Unmarked(l, tokens, |tokens| - 1)
            then st.current != [] && st.current == b[|b| - 1] && st.runs == Segments(b[..|b| - 1])
            else st.current == [] && st.runs == Segments(b)
  {
    if tokens != [] {
      var init, t := tokens[..|tokens| - 1], tokens[|tokens| - 1];
      TakenIsBlocks(l, init);
      if !TokenMarked(l, t) {
        var b, longer := Blocks(l, init), Blocks(l, tokens);
        assert longer[..|longer| - 1] == if Unmarked(l, init, |init| - 1) then b[..|b| - 1] else b;
      }
    }
  }

  lemma FinishedRuns(l: Language, text: string)
    ensures var st := TakenAll(l, Words(l, text));
            RunsOf(l, text) == if st.current == [] then st.runs else st.runs + [Segment(st.current)]
  {
    TakenIsBlocks(l, Words(l, text));
  }

  method MixedEnglishRuns(l: Language, text: string) returns (runs: seq<string>)
    ensures runs == RunsOf(l, text)
  {
    runs := [];
    var current: seq<string> := [];
    var tokens := Words(l, text);
    for i := 0 to |tokens|
      invariant Splitting(runs, current) == TakenAll(l, tokens[..i])
    {
      assert tokens[..i + 1][..i] == tokens[..i];
      if TokenMarked(l, tokens[i]) {
        if current != [] {
          runs := runs + [Segment(current)];
          current := [];
        }
      } else {
        current := current + [tokens[i]];
      }
    }
    assert tokens[..|tokens|] == tokens;
    FinishedRuns(l, text);
    if current != [] {
      runs := runs + [Segment(current)];
    }
  }

  /** The runs hold the unmarked tokens, all of them, once, in order. */
  lemma {:induction false} BlocksPartition(l: Language, tokens: seq<string>)
    ensures Flat(Blocks(l, tokens)) == UnmarkedTokens(l, tokens)
  {
    if tokens != [] {
      var init, t := tokens[..|tokens| - 1], tokens[|tokens| - 1];
      BlocksPartition(l, init);
      var b := Blocks(l, init);
      if !TokenMarked(l, t) {
        if Unmarked(l, init, |init| - 1) {
          var rest, open := b[..|b| - 1], b[|b| - 1];
          assert Blocks(l, tokens)[..|b| - 1] == rest;
          assert Flat(rest) + (open + [t]) == Flat(rest) + open + [t];
        } else {
          assert Blocks(l, tokens)[..|b|] == b;
        }
      }
    }
  }

  /** The number of tokens that open a run: unmarked ones with no unmarked one right before. */
  function Openings(l: Language, tokens: seq<string>): nat {
    if tokens == [] then 0
    else
      var init := tokens[..|tokens| - 1];
      Openings(l, init)
      + if !TokenMarked(l, tokens[|tokens| - 1]) && !Unmarked(l, init, |init| - 1) then 1 else 0
  }

  ghost predicate PlainBlocks(l: Language, blocks: seq<seq<string>>) {
    forall i :: 0 <= i < |blocks| ==> blocks[i] != [] && Clean(l, blocks[i]) && !SomeMarked(l, blocks[i])
  }

  /** Runs are maximal: every opening token opens one. */
  lemma {:induction false} BlocksAreMaximal(l: Language, tokens: seq<string>)
    ensures |Blocks(l, tokens)| == Openings(l, tokens)
  {
    if tokens != [] {
      BlocksAreMaximal(l, tokens[..|tokens| - 1]);
    }
  }

  lemma PlainNext(l: Language, blocks: seq<seq<string>>, block: seq<string>)
    requires PlainBlocks(l, blocks)
    requires block != [] && Clean(l, block) && !SomeMarked(l, block)
    ensures PlainBlocks(l, blocks + [block])
  {
  }

  /** Runs are never empty and hold no marked token. */
  lemma {:induction false} BlocksArePlain(l: Language, tokens: seq<string>)
    requires Clean(l, tokens)
    ensures PlainBlocks(l, Blocks(l, tokens))
  {
    if tokens != [] {
      var init, t := tokens[..|tokens| - 1], tokens[|tokens| - 1];
      BlocksArePlain(l, init);
      if !TokenMarked(l, t) {
        var b := Blocks(l, init);
        if Unmarked(l, init, |init| - 1) {
          PlainGrows(l, b[|b| - 1], t);
          PlainNext(l, b[..|b| - 1], b[|b| - 1] + [t]);
        } else {
          PlainGrows(l, [], t);
          assert [] + [t] == [t];
          PlainNext(l, b, [t]);
        }
      }
    }
  }

  lemma PlainGrows(l: Language, block: seq<string>, t: string)
    requires Clean(l, block) && !SomeMarked(l, block)
    requires t != "" && NoSpace(l, t) && !TokenMarked(l, t)
    ensures Clean(l, block + [t]) && !SomeMarked(l, block + [t])
  {
    var longer := block + [t];
    forall i | 0 <= i < |longer| ensures !TokenMarked(l, longer[i]) {
      assert i < |block| ==> longer[i] == block[i];
    }
  }

  // ---- A run never contains Vietnamese ----

  lemma SpaceVanishes(l: Language, s: string)
    requires l.space(' ')
    ensures Words(l, " " + s) == Words(l, s) && Words(l, s + " ") == Words(l, s)
  {
    var start := Scan([], "");
    ReadAppend(l, start, " ", s);
    ReadSpace(l, start);
    assert Closed(start) == [];
    ReadAppend(l, start, s, " ");
    ReadSpace(l, ReadAll(l, start, s));
    assert Closed(ReadAll(l, start, s)) + [] == Closed(ReadAll(l, start, s));
  }

  lemma EdgeCharVanishes(l: Language, c: char, s: string)
    requires Sane(l) && c in EDGE
    ensures NormalWords(l, [c] + s) == NormalWords(l, s)
    ensures NormalWords(l, s + [c]) == NormalWords(l, s)
  {
    assert NormalChar(l, c) == " ";
    RespacedAppend(l, [c], s);
    assert Respaced(l, [c]) == " " by {
      assert [c] == "" + [c];
      RespacedOne(l, "", c);
    }
    RespacedOne(l, s, c);
    SpaceVanishes(l, Respaced(l, s));
  }

  lemma AccentedTail(l: Language, s: string)
    requires s != "" && Accented(l, s[1..])
    ensures Accented(l, s)
  {
    var tail := s[1..];
    var i :| 0 <= i < |tail| && AccentedChar(l, tail[i]);
    assert AccentedChar(l, s[i + 1]);
  }

  lemma StripOne(l: Language, s: string)
    requires Sane(l) && s != "" && (s[0] in EDGE || s[|s| - 1] in EDGE)
    ensures var t := if s[0] in EDGE then s[1..] else s[..|s| - 1];
            StripEdge(s) == StripEdge(t) && NormalWords(l, s) == NormalWords(l, t)
  {
    if s[0] in EDGE {
      assert s == [s[0]] + s[1..];
      EdgeCharVanishes(l, s[0], s[1..]);
    } else {
      var init, c := s[..|s| - 1], s[|s| - 1];
      assert s == init + [c];
      EdgeCharVanishes(l, c, init);
    }
  }

  predicate AllEdge(s: string) {
    forall i :: 0 <= i < |s| ==> s[i] in EDGE
  }

  /** Of the text, just the edge characters at its two ends are taken. */
  lemma {:induction false} StripTakesEdges(s: string) returns (before: string, behind: string)
    ensures s == before + StripEdge(s) + behind
    ensures AllEdge(before) && AllEdge(behind)
    ensures Trimmed(StripEdge(s))
    decreases |s|
  {
    before, behind := "", "";
    if s == "" {
    } else if s[0] in EDGE {
      before, behind := StripTakesEdges(s[1..]);
      EdgeGrows(s[0], before);
      GluedFront(s, before, StripEdge(s[1..]), behind);
      before := [s[0]] + before;
    } else if s[|s| - 1] in EDGE {
      before, behind := StripTakesEdges(s[..|s| - 1]);
      EdgeGrows(s[|s| - 1], behind);
      GluedBehind(s, before, StripEdge(s[..|s| - 1]), behind);
      behind := behind + [s[|s| - 1]];
    } else {
      assert "" + s + "" == s;
    }
  }

  /** Neither end is a space or one of the marks. */
  predicate Trimmed(s: string) {
    s != "" ==> s[0] !in " ,.;:!?" && s[|s| - 1] !in " ,.;:!?"
  }

  lemma EdgeGrows(c: char, s: string)
    requires c in EDGE && AllEdge(s)
    ensures AllEdge([c] + s) && AllEdge(s + [c])
  {
  }

  lemma GluedFront(s: string, a: string, b: string, c: string)
    requires s != "" && s[1..] == a + b + c
    ensures s == [s[0]] + a + b + c
  {
    assert s == [s[0]] + s[1..];
    assert [s[0]] + (a + b + c) == [s[0]] + a + b + c;
  }

  lemma GluedBehind(s: string, a: string, b: string, c: string)
    requires s != "" && s[..|s| - 1] == a + b + c
    ensures s == a + b + (c + [s[|s| - 1]])
  {
    assert s == s[..|s| - 1] + [s[|s| - 1]];
    assert (a + b + c) + [s[|s| - 1]] == a + b + (c + [s[|s| - 1]]);
  }

  /** Stripping punctuation off the ends changes no word. */
  lemma {:induction false} StripKeepsWords(l: Language, s: string)
    requires Sane(l)
    ensures NormalWords(l, StripEdge(s)) == NormalWords(l, s)
    decreases |s|
  {
    if s != "" && (s[0] in EDGE || s[|s| - 1] in EDGE) {
      StripOne(l, s);
      StripKeepsWords(l, if s[0] in EDGE then s[1..] else s[..|s| - 1]);
    } else {
      assert StripEdge(s) == s;
    }
  }

  /** Nor does it bring an accent. */
  lemma {:induction false} StripAddsNoAccent(l: Language, s: string)
    requires Accented(l, StripEdge(s))
    ensures Accented(l, s)
    decreases |s|
  {
    if s != "" && s[0] in EDGE {
      StripAddsNoAccent(l, s[1..]);
      AccentedTail(l, s);
    } else if s != "" && s[|s| - 1] in EDGE {
      var init, c := s[..|s| - 1], s[|s| - 1];
      StripAddsNoAccent(l, init);
      assert s == init + [c];
      AccentedAppend(l, init, c);
    }
  }

  lemma SegmentOfBlock(l: Language, block: seq<string>)
    requires Sane(l) && Clean(l, block) && !SomeMarked(l, block)
    ensures !ContainsVietnamese(l, Segment(block))
    ensures NormalWords(l, Segment(block)) == AllNormalWords(l, block)
  {
    var joined := Join(block);
    SplitJoin(l, block);
    VietnameseIffTokenMarked(l, joined);
    VietnameseMeans(l, joined);
    StripKeepsWords(l, joined);
    if Accented(l, Segment(block)) {
      StripAddsNoAccent(l, joined);
    }
    VietnameseMeans(l, Segment(block));
    NormalWordsByToken(l, joined);
  }

  lemma {:induction false} SegmentsAt(blocks: seq<seq<string>>, i: nat)
    requires i < |blocks|
    ensures |Segments(blocks)| == |blocks| && Segments(blocks)[i] == Segment(blocks[i])
  {
    var init := blocks[..|blocks| - 1];
    if i < |init| {
      SegmentsAt(init, i);
    } else if init != [] {
      SegmentsAt(init, 0);
    }
  }

  lemma {:induction false} SegmentsLength(blocks: seq<seq<string>>)
    ensures |Segments(blocks)| == |blocks|
  {
    if blocks != [] {
      SegmentsAt(blocks, 0);
    }
  }

  /** No run that the splitter extracts tests as Vietnamese; its own later test never fires. */
  lemma RunsAreFree(l: Language, text: string, i: nat)
    requires Sane(l) && i < |RunsOf(l, text)|
    ensures !ContainsVietnamese(l, RunsOf(l, text)[i])
  {
    var blocks := Blocks(l, Words(l, text));
    WordsAreClean(l, text);
    BlocksArePlain(l, Words(l, text));
    SegmentsLength(blocks);
    SegmentsAt(blocks, i);
    SegmentOfBlock(l, blocks[i]);
  }

  lemma {:induction false} SegmentWords(l: Language, blocks: seq<seq<string>>)
    requires Sane(l) && PlainBlocks(l, blocks)
    ensures AllNormalWords(l, Segments(blocks)) == AllNormalWords(l, Flat(blocks))
  {
    if blocks != [] {
      var init, b := blocks[..|blocks| - 1], blocks[|blocks| - 1];
      SegmentWords(l, init);
      SegmentOfBlock(l, b);
      AllNormalAppend(l, Flat(init), b);
      AllNormalAppend(l, Segments(init), [Segment(b)]);
      AllNormalOne(l, Segment(b));
    }
  }

  /** The words of the runs, in order, are exactly the words of the unmarked tokens. */
  lemma RunsHoldUnmarkedWords(l: Language, text: string)
    requires Sane(l)
    ensures AllNormalWords(l, RunsOf(l, text)) == AllNormalWords(l, UnmarkedTokens(l, Words(l, text)))
  {
    WordsAreClean(l, text);
    BlocksArePlain(l, Words(l, text));
    BlocksPartition(l, Words(l, text));
    SegmentWords(l, Blocks(l, Words(l, text)));
  }

  // ---- Choosing a run ----

  function CountIn(words: seq<string>, lists: set<string>): nat {
    if words == [] then 0
    else CountIn(words[..|words| - 1], lists) + if words[|words| - 1] in lists then 1 else 0
  }

  function CountContent(l: Language, words: seq<string>): nat {
    if words == [] then 0
    else
      var w := words[|words| - 1];
      CountContent(l, words[..|words| - 1]) + if |w| >= 3 && w !in l.lowInformation then 1 else 0
  }

  function SplitNormal(l: Language, text: string): seq<string> {
    Words(l, NormalizeSttText(l, text))
  }

  predicate HasEvidence(l: Language, text: string) {
    var words := SplitNormal(l, text);
    var english := CountIn(words, l.common);
    && NormalizeSttText(l, text) != "" && |words| >= 2 && !ContainsVietnamese(l, text)
    && (english >= 2 || (|words| <= 5 && 100 * english >= 45 * |words| && english >= 2))
  }

  predicate IsStrongAttempt(l: Language, text: string) {
    var words := SplitNormal(l, text);
    var english, content := CountIn(words, l.common), CountContent(l, words);
    && NormalizeSttText(l, text) != "" && !ContainsVietnamese(l, text) && |words| >= 3
    && (|| english >= 3
        || (english >= 2 && content >= 2)
        || (|words| >= 6 && english >= 2 && 100 * english >= 30 * |words| && content >= 4))
  }

  predicate Extractable(l: Language, segment: string) {
    var words := SplitNormal(l, segment);
    && words != [] && !ContainsVietnamese(l, segment) && |words| >= 3
    && !(NormalizeSttText(l, segment) != "" && NormalizeSttText(l, segment) in l.incomplete)
    && (HasEvidence(l, segment) || IsStrongAttempt(l, segment))
  }

  predicate IsAlphabetic(l: Language, word: string) {
    word != "" && forall i :: 0 <= i < |word| ==> l.alpha(word[i])
  }

  predicate Weak(l: Language, segment: string) {
    var words := SplitNormal(l, segment);
    && 0 < |words| <= 2 && !ContainsVietnamese(l, segment)
    && (forall i :: 0 <= i < |segment| ==> l.ascii(segment[i]))
    && (forall i :: 0 <= i < |words| ==> IsAlphabetic(l, words[i]))
    && (exists i :: 0 <= i < |words| && words[i] !in l.lowInformation)
    && CountIn(words, l.common + l.controlled) > 0
    && (|words| == 2 ==> exists i :: 0 <= i < |words| && |words[i]| >= 4)
  }

  /** What a run is looked at for: a whole segment, or else a fragment of one or two words. */
  datatype Fitness = Full | Fragment

  predicate Fits(l: Language, fit: Fitness, segment: string) {
    if fit == Full then Extractable(l, segment) else Weak(l, segment)
  }

  datatype Score = Score(anchors: int, words: int, chars: int)

  function ScoreOf(l: Language, segment: string): Score {
    var words := SplitNormal(l, segment);
    Score(CountIn(words, l.common + l.controlled), |words|, |segment|)
  }

  predicate Above(a: Score, b: Score) {
    || a.anchors > b.anchors
    || (a.anchors == b.anchors && a.words > b.words)
    || (a.anchors == b.anchors && a.words == b.words && a.chars > b.chars)
  }

  /** The score of a run that is fit to be chosen. */
  function Mark(l: Language, fit: Fitness, run: string): (mark: Option<Score>)
    ensures mark.Some? ==> mark.value.anchors >= 0
  {
    if Fits(l, fit, run) then Some(ScoreOf(l, run)) else None
  }

  function Marks(l: Language, runs: seq<string>, fit: Fitness): (marks: seq<Option<Score>>)
    ensures |marks| == |runs|
    ensures forall i :: 0 <= i < |runs| ==> marks[i] == Mark(l, fit, runs[i])
  {
    seq(|runs|, i requires 0 <= i < |runs| => Mark(l, fit, runs[i]))
  }

  /** No mark is above the one at `k`, and those before it are strictly below. */
  ghost predicate BestAt(marks: seq<Option<Score>>, k: int) {
    && 0 <= k < |marks| && marks[k].Some?
    && (forall j :: 0 <= j < |marks| && marks[j].Some? ==> !Above(marks[j].value, marks[k].value))
    && (forall j :: 0 <= j < k && marks[j].Some? ==> Above(marks[k].value, marks[j].value))
  }

  /** `best` is the first of the runs with the highest score among those that are fit. */
  ghost predicate IsBest(l: Language, runs: seq<string>, fit: Fitness, best: Option<string>) {
    match best
    case None => forall j :: 0 <= j < |runs| ==> !Fits(l, fit, runs[j])
    case Some(s) => exists k :: BestAt(Marks(l, runs, fit), k) && runs[k] == s
  }

  /** The place of the best of the marks, or -1: a later mark takes over only if strictly above. */
  function Picked(marks: seq<Option<Score>>): (at: int)
    ensures at == -1 || (0 <= at < |marks| && marks[at].Some?)
  {
    if marks == [] then -1
    else
      var n := |marks| - 1;
      var at := Picked(marks[..n]);
      if marks[n].Some? && (at < 0 || Above(marks[n].value, marks[at].value)) then n else at
  }

  lemma AboveTransitive(a: Score, b: Score, c: Score)
    requires Above(a, b) && !Above(c, b)
    ensures Above(a, c) && !Above(c, a)
  {
  }

  lemma {:induction false} PickedIsBest(marks: seq<Option<Score>>)
    ensures Picked(marks) < 0 ==> forall j :: 0 <= j < |marks| ==> marks[j].None?
    ensures Picked(marks) >= 0 ==> BestAt(marks, Picked(marks))
  {
    if marks != [] {
      var n := |marks| - 1;
      PickedIsBest(marks[..n]);
      var at := Picked(marks[..n]);
      if Picked(marks) == n && at >= 0 {
        forall j | 0 <= j < n && marks[j].Some?
          ensures Above(marks[n].value, marks[j].value) && !Above(marks[j].value, marks[n].value)
        {
          assert !Above(marks[..n][j].value, marks[..n][at].value);
          AboveTransitive(marks[n].value, marks[at].value, marks[j].value);
        }
      } else if at >= 0 {
        forall j | 0 <= j < n && marks[j].Some?
          ensures !Above(marks[j].value, marks[at].value) && (j < at ==> Above(marks[at].value, marks[j].value))
        {
          assert marks[..n][j] == marks[j] && marks[..n][at] == marks[at];
        }
      } else {
        assert forall j :: 0 <= j < n ==> marks[..n][j] == marks[j];
      }
    }
  }

  lemma PickedRun(l: Language, runs: seq<string>, fit: Fitness)
    ensures var at := Picked(Marks(l, runs, fit));
            IsBest(l, runs, fit, if at < 0 then None else Some(runs[at]))
  {
    PickedIsBest(Marks(l, runs, fit));
    forall j | 0 <= j < |runs| && Marks(l, runs, fit)[j].None?
      ensures !Fits(l, fit, runs[j])
    {
    }
  }

  lemma PickNext(marks: seq<Option<Score>>, i: nat)
    requires i < |marks|
    ensures var at := Picked(marks[..i]);
            Picked(marks[..i + 1]) ==
              if marks[i].Some? && (at < 0 || Above(marks[i].value, marks[at].value)) then i else at
  {
    assert marks[..i + 1][..i] == marks[..i];
  }

  method BestRun(l: Language, runs: seq<string>, fit: Fitness) returns (best: Option<string>)
    ensures IsBest(l, runs, fit, best)
  {
    best := None;
    var bestScore := Score(-1, -1, -1);
    ghost var marks := Marks(l, runs, fit);
    ghost var at := -1;
    for i := 0 to |runs|
      invariant at == Picked(marks[..i])
      invariant best == if at < 0 then None else Some(runs[at])
      invariant bestScore == if at < 0 then Score(-1, -1, -1) else marks[at].value
    {
      PickNext(marks, i);
      var mark := Mark(l, fit, runs[i]);
      if mark.Some? && Above(mark.value, bestScore) {
        best := Some(runs[i]);
        bestScore := mark.value;
        at := i;
      }
    }
    assert marks[..|runs|] == marks;
    PickedRun(l, runs, fit);
  }

  method EnglishSegment(l: Language, text: string) returns (best: Option<string>)
    ensures !ContainsVietnamese(l, text) ==> best == None
    ensures ContainsVietnamese(l, text) ==> IsBest(l, RunsOf(l, text), Full, best)
  {
    if !ContainsVietnamese(l, text) {
      return None;
    }
    var runs := MixedEnglishRuns(l, text);
    best := BestRun(l, runs, Full);
  }

  method WeakEnglishFragment(l: Language, text: string) returns (best: Option<string>)
    ensures !ContainsVietnamese(l, text) ==> best == None
    ensures ContainsVietnamese(l, text) ==> IsBest(l, RunsOf(l, text), Fragment, best)
  {
    if !ContainsVietnamese(l, text) {
      return None;
    }
    var runs := MixedEnglishRuns(l, text);
    best := BestRun(l, runs, Fragment);
  }

  /** Two common words among three are all that extraction asks for: the second test on the run
      accepts nothing that the first does not. */
  lemma ExtractableMeans(l: Language, segment: string)
    requires Sane(l)
    ensures Extractable(l, segment)
            <==> && !ShowsVietnamese(l, segment)
                 && |NormalWords(l, segment)| >= 3
                 && NormalizeSttText(l, segment) !in l.incomplete
                 && CountIn(NormalWords(l, segment), l.common) >= 2
  {
    VietnameseExactlyWhenShown(l, segment);
    NormalizedSplits(l, segment);
  }

  lemma {:induction false} CountInMeans(words: seq<string>, lists: set<string>)
    ensures CountIn(words, lists) == |set i | 0 <= i < |words| && words[i] in lists|
  {
    if words != [] {
      var n := |words| - 1;
      CountInMeans(words[..n], lists);
      var before := set i | 0 <= i < n && words[..n][i] in lists;
      var all := set i | 0 <= i < |words| && words[i] in lists;
      assert all == if words[n] in lists then before + {n} else before;
    }
  }

  /** And none is chosen only if none is fit. */
  lemma NoneMeans(l: Language, runs: seq<string>, fit: Fitness)
    requires IsBest(l, runs, fit, None)
    ensures forall j :: 0 <= j < |runs| ==>
              !(fit == Full && Extractable(l, runs[j])) && !(fit == Fragment && Weak(l, runs[j]))
  {
    forall j | 0 <= j < |runs|
      ensures !(fit == Full && Extractable(l, runs[j])) && !(fit == Fragment && Weak(l, runs[j]))
    {
      assert !Fits(l, fit, runs[j]);
    }
  }

  /** The shares of common words that the two tests also ask for decide nothing: evidence is two common
      words, and a strong attempt three of them, or two and two that bear content, among three words. */
  lemma EvidenceMeans(l: Language, text: string)
    requires Sane(l)
    ensures var words := NormalWords(l, text);
            HasEvidence(l, text) <==> !ShowsVietnamese(l, text) && CountIn(words, l.common) >= 2
    ensures var words := NormalWords(l, text);
            IsStrongAttempt(l, text)
            <==> && !ShowsVietnamese(l, text) && |words| >= 3
                 && (CountIn(words, l.common) >= 3 || (CountIn(words, l.common) >= 2 && CountContent(l, words) >= 2))
  {
    NormalizedSplits(l, text);
    VietnameseExactlyWhenShown(l, text);
    CountsAmongWords(NormalWords(l, text), l.common);
  }

  lemma {:induction false} CountsAmongWords(words: seq<string>, lists: set<string>)
    ensures CountIn(words, lists) <= |words|
  {
    if words != [] {
      CountsAmongWords(words[..|words| - 1], lists);
    }
  }

  /** Content words have three letters and are not among the uninformative ones. */
  lemma {:induction false} CountContentMeans(l: Language, words: seq<string>)
    ensures CountContent(l, words) == |set i | 0 <= i < |words| && |words[i]| >= 3 && words[i] !in l.lowInformation|
  {
    if words != [] {
      var n := |words| - 1;
      CountContentMeans(l, words[..n]);
      var before := set i | 0 <= i < n && |words[..n][i]| >= 3 && words[..n][i] !in l.lowInformation;
      var all := set i | 0 <= i < |words| && |words[i]| >= 3 && words[i] !in l.lowInformation;
      assert all == if |words[n]| >= 3 && words[n] !in l.lowInformation then before + {n} else before;
    }
  }

  /** A fragment is one or two alphabetic words, all of the run ASCII, with a common or controlled
      word and one that bears information, and with a long word if there are two. */
  lemma WeakMeans(l: Language, segment: string)
    requires Sane(l)
    ensures var words := NormalWords(l, segment);
            Weak(l, segment)
            <==> && (|words| == 1 || |words| == 2) && !ShowsVietnamese(l, segment)
                 && (forall i :: 0 <= i < |segment| ==> l.ascii(segment[i]))
                 && (forall i, k :: 0 <= i < |words| && 0 <= k < |words[i]| ==> l.alpha(words[i][k]))
                 && (exists i :: 0 <= i < |words| && words[i] !in l.lowInformation)
                 && (exists i :: 0 <= i < |words| && (words[i] in l.common || words[i] in l.controlled))
                 && (|words| == 2 ==> |words[0]| >= 4 || |words[1]| >= 4)
  {
    var words := NormalWords(l, segment);
    NormalizedSplits(l, segment);
    VietnameseExactlyWhenShown(l, segment);
    WordsAreClean(l, Respaced(l, segment));
    AllAlphabetic(l, words);
    AnyOfLists(words, l.common, l.controlled);
    LongOfTwo(words);
  }

  lemma AllAlphabetic(l: Language, words: seq<string>)
    requires Clean(l, words)
    ensures (forall i :: 0 <= i < |words| ==> IsAlphabetic(l, words[i]))
            <==> forall i, k :: 0 <= i < |words| && 0 <= k < |words[i]| ==> l.alpha(words[i][k])
  {
  }

  lemma LongOfTwo(words: seq<string>)
    ensures |words| == 2 ==>
              ((exists i :: 0 <= i < |words| && |words[i]| >= 4) <==> |words[0]| >= 4 || |words[1]| >= 4)
  {
  }

  lemma AnyOfLists(words: seq<string>, a: set<string>, b: set<string>)
    ensures CountIn(words, a + b) > 0 <==> exists i :: 0 <= i < |words| && (words[i] in a || words[i] in b)
  {
    CountInMeans(words, a + b);
    var anchors := set i | 0 <= i < |words| && words[i] in a + b;
    if i :| 0 <= i < |words| && words[i] in a + b {
      assert i in anchors;
    } else {
      assert anchors == {};
    }
    if CountIn(words, a + b) > 0 {
      var i :| i in anchors;
    }
  }

  /** The number of anchors of a run: its common and its controlled words. */
  ghost function Anchors(l: Language, run: string): nat {
    |set i | 0 <= i < |NormalWords(l, run)| && (NormalWords(l, run)[i] in l.common || NormalWords(l, run)[i] in l.controlled)|
  }

  lemma ScoreMeans(l: Language, run: string)
    requires Sane(l)
    ensures ScoreOf(l, run) == Score(Anchors(l, run), |NormalWords(l, run)|, |run|)
  {
    var words := NormalWords(l, run);
    NormalizedSplits(l, run);
    CountInMeans(words, l.common + l.controlled);
    assert (set i | 0 <= i < |words| && words[i] in l.common + l.controlled)
        == (set i | 0 <= i < |words| && (words[i] in l.common || words[i] in l.controlled));
  }

  /** The chosen run is fit and beats every other that is fit: by more anchors, or as many and more
      words, or as many of both and more characters, or by coming first. */
  lemma BestMeans(l: Language, runs: seq<string>, fit: Fitness, best: string) returns (k: nat)
    requires Sane(l) && IsBest(l, runs, fit, Some(best))
    ensures k < |runs| && runs[k] == best && Fits(l, fit, best)
    ensures (fit == Full ==> Extractable(l, best)) && (fit == Fragment ==> Weak(l, best))
    ensures forall j :: 0 <= j < |runs| && j != k && Fits(l, fit, runs[j]) ==>
              var mine, other := runs[k], runs[j];
              || Anchors(l, mine) > Anchors(l, other)
              || (&& Anchors(l, mine) == Anchors(l, other)
                  && (|| |NormalWords(l, mine)| > |NormalWords(l, other)|
                      || (&& |NormalWords(l, mine)| == |NormalWords(l, other)|
                          && (|mine| > |other| || (|mine| == |other| && k < j)))))
  {
    var marks := Marks(l, runs, fit);
    k :| BestAt(marks, k) && runs[k] == best;
    ScoreMeans(l, runs[k]);
    forall j | 0 <= j < |runs| && j != k && Fits(l, fit, runs[j])
      ensures marks[j] == Some(ScoreOf(l, runs[j]))
      ensures ScoreOf(l, runs[j]) == Score(Anchors(l, runs[j]), |NormalWords(l, runs[j])|, |runs[j]|)
    {
      ScoreMeans(l, runs[j]);
    }
  }

  method SplitMixedLanguageTranscript(l: Language, text: string) returns (english: string, reasons: seq<string>)
    requires Sane(l)
    ensures !ShowsVietnamese(l, english)
    ensures reasons == [] <==> !ShowsVietnamese(l, text)
    ensures reasons == [] ==> english == text
    ensures reasons == ["mixed_language_filtered"] ==>
              IsBest(l, RunsOf(l, text), Full, Some(english))
    ensures reasons == ["weak_mixed_language_english"] ==>
              && IsBest(l, RunsOf(l, text), Full, None)
              && IsBest(l, RunsOf(l, text), Fragment, Some(english))
    ensures english == "" && reasons != [] <==> reasons == ["mixed_non_english"]
    ensures reasons == ["mixed_non_english"] <==>
              && ShowsVietnamese(l, text)
              && IsBest(l, RunsOf(l, text), Full, None) && IsBest(l, RunsOf(l, text), Fragment, None)
    ensures reasons in [[], ["mixed_language_filtered"], ["weak_mixed_language_english"], ["mixed_non_english"]]
  {
    VietnameseExactlyWhenShown(l, text);
    if !ContainsVietnamese(l, text) {
      return text, [];
    }
    var extracted := EnglishSegment(l, text);
    if extracted.Some? && extracted.value != "" {
      BestRunShowsNone(l, text, Full, extracted.value);
      return extracted.value, ["mixed_language_filtered"];
    }
    EmptyIsUnfit(l);
    var fragment := WeakEnglishFragment(l, text);
    if fragment.Some? && fragment.value != "" {
      BestRunShowsNone(l, text, Fragment, fragment.value);
      return fragment.value, ["weak_mixed_language_english"];
    }
    return "", ["mixed_non_english"];
  }

  lemma BestRunShowsNone(l: Language, text: string, fit: Fitness, best: string)
    requires Sane(l) && IsBest(l, RunsOf(l, text), fit, Some(best))
    ensures !ShowsVietnamese(l, best)
  {
    var k := BestMeans(l, RunsOf(l, text), fit, best);
    RunsAreFree(l, text, k);
    VietnameseExactlyWhenShown(l, best);
  }

  lemma EmptyIsUnfit(l: Language)
    requires Sane(l)
    ensures !Extractable(l, "") && !Weak(l, "") && !ShowsVietnamese(l, "")
  {
    assert NormalWords(l, "") == [];
    NormalizedSplits(l, "");
    VietnameseExactlyWhenShown(l, "");
  }
}
