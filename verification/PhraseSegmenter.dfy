/** Cutting streamed reply text into phrases to speak, and the spoken audio into chunks. */
module PhraseSegmenter {
  import opened Options
  import opened Strings

  /** `space` is Python's white space; the phrase length limit and the size of the phrase queue are
      constructor arguments. */
  datatype Setup = Setup(space: char -> bool, minChars: nat, maxQueue: nat)

  ghost predicate Sane(u: Setup) {
    && u.space(' ')
    && !u.space(',') && !u.space('.') && !u.space('!') && !u.space('?') && !u.space(';') && !u.space(':')
    && u.minChars > 0 && u.maxQueue > 0
  }

  predicate IsPunctuation(c: char) {
    c in {',', '.', '!', '?', ';', ':'}
  }

  // ---- Text ----

  /** The characters that carry speech: everything but white space. */
  function Spoken(u: Setup, s: string): string {
    if s == "" then "" else Spoken(u, s[..|s| - 1]) + if u.space(s[|s| - 1]) then "" else [s[|s| - 1]]
  }

  lemma {:induction false} SpokenAppend(u: Setup, s: string, t: string)
    ensures Spoken(u, s + t) == Spoken(u, s) + Spoken(u, t)
    decreases |t|
  {
    if t == "" {
      assert s + t == s;
    } else {
      SpokenAppend(u, s, t[..|t| - 1]);
      assert (s + t)[..|s + t| - 1] == s + t[..|t| - 1];
    }
  }

  lemma {:induction false} LStripSpeaksAll(u: Setup, s: string)
    ensures Spoken(u, LStrip(u.space, s)) == Spoken(u, s)
  {
    if s != "" && u.space(s[0]) {
      LStripSpeaksAll(u, s[1..]);
      SpokenAppend(u, [s[0]], s[1..]);
      assert s == [s[0]] + s[1..];
      assert [s[0]][..0] == "" && Spoken(u, [s[0]]) == "";
    }
  }

  lemma {:induction false} RStripSpeaksAll(u: Setup, s: string)
    ensures Spoken(u, RStrip(u.space, s)) == Spoken(u, s)
    ensures RStrip(u.space, s) == "" <==> Spoken(u, s) == ""
  {
    if s != "" && u.space(s[|s| - 1]) {
      RStripSpeaksAll(u, s[..|s| - 1]);
    }
  }

  lemma StripSpeaksAll(u: Setup, s: string)
    ensures Spoken(u, Strip(u.space, s)) == Spoken(u, s)
    ensures Strip(u.space, s) == "" <==> Spoken(u, s) == ""
  {
    LStripSpeaksAll(u, s);
    RStripSpeaksAll(u, LStrip(u.space, s));
  }

  /** `" ".join(s.split())`: the words of `s`, one space apart. */
  function Normalized(u: Setup, s: string): string {
    if s == "" then ""
    else
      var before := Normalized(u, s[..|s| - 1]);
      var c := s[|s| - 1];
      if u.space(c) then before
      else if before != "" && u.space(s[|s| - 2]) then before + [' ', c]
      else before + [c]
  }

  lemma {:induction false} NormalizedSpeaksAll(u: Setup, s: string)
    requires u.space(' ')
    ensures Spoken(u, Normalized(u, s)) == Spoken(u, s)
    ensures Normalized(u, s) == "" <==> Spoken(u, s) == ""
  {
    if s != "" {
      var init, c := s[..|s| - 1], s[|s| - 1];
      NormalizedSpeaksAll(u, init);
      var before := Normalized(u, init);
      if !u.space(c) {
        SpokenSnoc(u, before, c);
        SpokenSnoc(u, before + [' '], c);
        SpokenSnoc(u, before, ' ');
        assert before + [' ', c] == before + [' '] + [c];
      }
    }
  }

  lemma SpokenSnoc(u: Setup, s: string, c: char)
    ensures Spoken(u, s + [c]) == Spoken(u, s) + if u.space(c) then "" else [c]
  {
    assert (s + [c])[..|s|] == s;
  }

  /** `s.split()` */
  function WordsOf(u: Setup, s: string): (words: seq<string>)
    ensures s != "" && !u.space(s[|s| - 1]) ==> words != []
  {
    if s == "" then []
    else
      var before, c := WordsOf(u, s[..|s| - 1]), s[|s| - 1];
      if u.space(c) then before
      else if |s| == 1 || u.space(s[|s| - 2]) then before + [[c]]
      else before[..|before| - 1] + [before[|before| - 1] + [c]]
  }

  lemma WordsSnoc(u: Setup, s: string, c: char)
    ensures WordsOf(u, s + [c]) ==
              if u.space(c) then WordsOf(u, s)
              else if s == "" || u.space(s[|s| - 1]) then WordsOf(u, s) + [[c]]
              else WordsOf(u, s)[..|WordsOf(u, s)| - 1] + [WordsOf(u, s)[|WordsOf(u, s)| - 1] + [c]]
  {
    assert (s + [c])[..|s|] == s;
  }

  /** The words stay as they are: none is joined to another, cut or dropped. */
  lemma {:induction false} NormalizedKeepsWords(u: Setup, s: string)
    requires u.space(' ')
    ensures WordsOf(u, Normalized(u, s)) == WordsOf(u, s)
  {
    if s != "" && !u.space(s[|s| - 1]) {
      NormalizedKeepsWords(u, s[..|s| - 1]);
      NormalizedIsTidy(u, s[..|s| - 1]);
      assert s == s[..|s| - 1] + [s[|s| - 1]];
      NormalizedSnoc(u, s[..|s| - 1], s[|s| - 1]);
    } else if s != "" {
      NormalizedKeepsWords(u, s[..|s| - 1]);
    }
  }

  lemma NormalizedSnoc(u: Setup, s: string, c: char)
    requires u.space(' ') && !u.space(c)
    requires WordsOf(u, Normalized(u, s)) == WordsOf(u, s)
    requires Normalized(u, s) != "" ==> !u.space(Normalized(u, s)[|Normalized(u, s)| - 1])
    ensures WordsOf(u, Normalized(u, s + [c])) == WordsOf(u, s + [c])
  {
    var before := Normalized(u, s);
    NormalizedEnds(u, s);
    assert (s + [c])[..|s|] == s;
    WordsSnoc(u, s, c);
    if before != "" && u.space(s[|s| - 1]) {
      NewWord(u, before, c);
    } else {
      WordsSnoc(u, before, c);
    }
    assert WordsOf(u, "") == [];
  }

  lemma NewWord(u: Setup, before: string, c: char)
    requires u.space(' ') && !u.space(c)
    ensures WordsOf(u, before + [' ', c]) == WordsOf(u, before) + [[c]]
  {
    WordsSnoc(u, before, ' ');
    WordsSnoc(u, before + [' '], c);
    assert before + [' ', c] == before + [' '] + [c];
  }

  lemma NormalizedEnds(u: Setup, s: string)
    ensures s != "" && !u.space(s[|s| - 1]) ==> Normalized(u, s) != ""
  {
  }

  /** Words are one ' ' apart, and neither the first nor the last character is a space. */
  lemma {:induction false} NormalizedIsTidy(u: Setup, s: string)
    ensures forall i :: 0 <= i < |Normalized(u, s)| && u.space(Normalized(u, s)[i]) ==> Normalized(u, s)[i] == ' '
    ensures forall i :: 0 <= i < |Normalized(u, s)| - 1 ==>
              !(u.space(Normalized(u, s)[i]) && u.space(Normalized(u, s)[i + 1]))
    ensures Normalized(u, s) != "" ==>
              !u.space(Normalized(u, s)[0]) && !u.space(Normalized(u, s)[|Normalized(u, s)| - 1])
  {
    if s != "" {
      NormalizedIsTidy(u, s[..|s| - 1]);
    }
  }

  // ---- Where to cut ----

  /** The first punctuation mark that ends a word: followed by white space or the end. */
  predicate EndsWord(u: Setup, text: string, i: nat) {
    i < |text| && IsPunctuation(text[i]) && (i + 1 == |text| || u.space(text[i + 1]))
  }

  function FirstWordEnd(u: Setup, text: string, i: nat): (r: int)
    requires i <= |text|
    ensures r >= 0 ==> i <= r < |text| && EndsWord(u, text, r) && forall j :: i <= j < r ==> !EndsWord(u, text, j)
    ensures r < 0 ==> r == -1 && forall j :: i <= j ==> !EndsWord(u, text, j)
    decreases |text| - i
  {
    if i == |text| then -1 else if EndsWord(u, text, i) then i else FirstWordEnd(u, text, i + 1)
  }

  function LastSpace(text: string): (r: int)
    ensures r >= 0 ==> r < |text| && text[r] == ' ' && forall j :: r < j < |text| ==> text[j] != ' '
    ensures r < 0 ==> r == -1 && forall j :: 0 <= j < |text| ==> text[j] != ' '
  {
    if text == "" then -1
    else if text[|text| - 1] == ' ' then |text| - 1
    else
      var r := LastSpace(text[..|text| - 1]);
      assert forall j :: 0 <= j < |text| - 1 ==> text[..|text| - 1][j] == text[j];
      r
  }

  /** A cut always lies right behind white space or punctuation, and takes at least one character. */
  function FindPhraseBreak(u: Setup, text: string): (cut: int)
    ensures cut == -1 || 0 < cut <= |text|
  {
    var mark := FirstWordEnd(u, text, 0);
    if mark >= 0 then if mark + 1 < |text| then mark + 2 else mark + 1
    else if |Strip(u.space, text)| < u.minChars then -1
    else
      var lastSpace := LastSpace(text);
      if lastSpace <= 0 then -1 else lastSpace + 1
  }

  /** `cut` lies right behind the mark at `i` that ends a word, with the one white space behind it. */
  ghost predicate CutsAtMark(u: Setup, text: string, i: int, cut: int) {
    && 0 <= i < |text| && text[i] in {',', '.', '!', '?', ';', ':'}
    && (if i + 1 == |text| then cut == i + 1 else u.space(text[i + 1]) && cut == i + 2)
  }

  /** No punctuation mark before `n` is followed by white space or by nothing. */
  ghost predicate NoMarkBefore(u: Setup, text: string, n: int) {
    forall i :: 0 <= i < n <= |text| && text[i] in {',', '.', '!', '?', ';', ':'} ==> i + 1 < |text| && !u.space(text[i + 1])
  }

  lemma NoMarks(u: Setup, text: string, n: int)
    requires n <= |text|
    ensures NoMarkBefore(u, text, n) <==> forall i :: 0 <= i < n ==> !EndsWord(u, text, i)
  {
    if NoMarkBefore(u, text, n) {
      forall i | 0 <= i < n ensures !EndsWord(u, text, i) {
        assert IsPunctuation(text[i]) <==> text[i] in {',', '.', '!', '?', ';', ':'};
      }
    } else {
      var i :| 0 <= i < n && text[i] in {',', '.', '!', '?', ';', ':'} && !(i + 1 < |text| && !u.space(text[i + 1]));
      assert EndsWord(u, text, i);
    }
  }

  /** Text is left uncut exactly if no mark ends a word, and it is short or has no ' ' but at its
      start. */
  lemma UncutExactlyWhen(u: Setup, text: string)
    ensures FindPhraseBreak(u, text) == -1 <==>
              && NoMarkBefore(u, text, |text|)
              && (|Strip(u.space, text)| < u.minChars || forall j :: 0 < j < |text| ==> text[j] != ' ')
  {
    NoMarks(u, text, |text|);
    var mark := FirstWordEnd(u, text, 0);
    assert mark >= 0 ==> EndsWord(u, text, mark);
  }

  /** Else it is cut behind the first mark that ends a word, or, without one, behind its last ' '. */
  lemma CutMeans(u: Setup, text: string)
    requires FindPhraseBreak(u, text) != -1
    ensures var cut := FindPhraseBreak(u, text);
            || (exists i :: CutsAtMark(u, text, i, cut) && NoMarkBefore(u, text, i))
            || (&& NoMarkBefore(u, text, |text|) && 1 < cut <= |text| && text[cut - 1] == ' '
                && forall j :: cut <= j < |text| ==> text[j] != ' ')
  {
    var mark, cut := FirstWordEnd(u, text, 0), FindPhraseBreak(u, text);
    if mark >= 0 {
      NoMarks(u, text, mark);
      assert EndsWord(u, text, mark);
      assert CutsAtMark(u, text, mark, cut);
    } else {
      NoMarks(u, text, |text|);
    }
  }

  // ---- Draining ----

  datatype Drain = Drain(phrases: seq<string>, pending: string)

  function Drained(u: Setup, pending: string): Drain
    decreases |pending|
  {
    var cut := FindPhraseBreak(u, pending);
    if cut < 0 then Drain([], pending)
    else
      var phrase := Strip(u.space, pending[..cut]);
      var rest := Drained(u, pending[cut..]);
      if phrase == "" then rest else rest.(phrases := [phrase] + rest.phrases)
  }

  lemma AppendFirst(phrases: seq<string>, phrase: string, rest: seq<string>)
    ensures phrases + ([phrase] + rest) == (phrases + [phrase]) + rest
  {
  }

  lemma DrainedFrom(u: Setup, phrases: seq<string>, pending: string)
    requires FindPhraseBreak(u, pending) > 0
    ensures var cut := FindPhraseBreak(u, pending);
            var phrase, rest := Strip(u.space, pending[..cut]), Drained(u, pending[cut..]);
            && Drained(u, pending).pending == rest.pending
            && phrases + Drained(u, pending).phrases
               == (if phrase == "" then phrases else phrases + [phrase]) + rest.phrases
  {
    var cut := FindPhraseBreak(u, pending);
    AppendFirst(phrases, Strip(u.space, pending[..cut]), Drained(u, pending[cut..]).phrases);
  }

  function DrainedReady(u: Setup, pending: string, isFinal: bool): Drain {
    var d := Drained(u, pending);
    if isFinal && Strip(u.space, d.pending) != "" then Drain(d.phrases + [Strip(u.space, d.pending)], "") else d
  }

  function SpokenAll(u: Setup, phrases: seq<string>): string {
    if phrases == [] then "" else SpokenAll(u, phrases[..|phrases| - 1]) + Spoken(u, phrases[|phrases| - 1])
  }

  lemma {:induction false} SpokenAllAppend(u: Setup, a: seq<string>, b: seq<string>)
    ensures SpokenAll(u, a + b) == SpokenAll(u, a) + SpokenAll(u, b)
    decreases |b|
  {
    if b == [] {
      assert a + b == a;
    } else {
      SpokenAllAppend(u, a, b[..|b| - 1]);
      assert (a + b)[..|a + b| - 1] == a + b[..|b| - 1];
    }
  }

  lemma SpokenOne(u: Setup, phrase: string)
    ensures SpokenAll(u, [phrase]) == Spoken(u, phrase)
  {
    assert [phrase][..0] == [];
    assert "" + Spoken(u, phrase) == Spoken(u, phrase);
  }

  lemma Assoc(a: string, b: string, c: string)
    ensures a + (b + c) == (a + b) + c
  {
  }

  lemma SpokenFirst(u: Setup, phrase: string, rest: seq<string>)
    ensures SpokenAll(u, [phrase] + rest) == Spoken(u, phrase) + SpokenAll(u, rest)
  {
    SpokenAllAppend(u, [phrase], rest);
    SpokenOne(u, phrase);
  }

  lemma SpokenLast(u: Setup, init: seq<string>, phrase: string)
    ensures SpokenAll(u, init + [phrase]) == SpokenAll(u, init) + Spoken(u, phrase)
  {
    SpokenAllAppend(u, init, [phrase]);
    SpokenOne(u, phrase);
  }

  ghost predicate AllSpeak(u: Setup, phrases: seq<string>) {
    forall i :: 0 <= i < |phrases| ==> Spoken(u, phrases[i]) != ""
  }

  /** One cut: what is cut off and what remains speak what was there. */
  lemma CutConserves(u: Setup, pending: string)
    requires FindPhraseBreak(u, pending) > 0
    ensures var cut := FindPhraseBreak(u, pending);
            && Spoken(u, pending) == Spoken(u, Strip(u.space, pending[..cut])) + Spoken(u, pending[cut..])
            && (Strip(u.space, pending[..cut]) == "" <==> Spoken(u, Strip(u.space, pending[..cut])) == "")
  {
    var cut := FindPhraseBreak(u, pending);
    assert pending == pending[..cut] + pending[cut..];
    SpokenAppend(u, pending[..cut], pending[cut..]);
    StripSpeaksAll(u, pending[..cut]);
  }

  /** Draining drops no speech and reorders none. */
  lemma {:induction false} DrainConserves(u: Setup, pending: string)
    ensures SpokenAll(u, Drained(u, pending).phrases) + Spoken(u, Drained(u, pending).pending) == Spoken(u, pending)
    decreases |pending|
  {
    var cut := FindPhraseBreak(u, pending);
    if cut < 0 {
      assert "" + Spoken(u, pending) == Spoken(u, pending);
    } else {
      var phrase, rest := Strip(u.space, pending[..cut]), Drained(u, pending[cut..]);
      CutConserves(u, pending);
      DrainConserves(u, pending[cut..]);
      SpokenFirst(u, phrase, rest.phrases);
      Assoc(Spoken(u, phrase), SpokenAll(u, rest.phrases), Spoken(u, rest.pending));
    }
  }

  /** Draining goes on until what is left has no mark that ends a word and is short or without a
      place to cut; and it yields no blank phrase. */
  lemma {:induction false} DrainCompletes(u: Setup, pending: string)
    ensures var left := Drained(u, pending).pending;
            && NoMarkBefore(u, left, |left|)
            && (|Strip(u.space, left)| < u.minChars || forall j :: 0 < j < |left| ==> left[j] != ' ')
    ensures AllSpeak(u, Drained(u, pending).phrases)
    decreases |pending|
  {
    var cut := FindPhraseBreak(u, pending);
    if cut > 0 {
      CutConserves(u, pending);
      DrainCompletes(u, pending[cut..]);
    } else {
      UncutExactlyWhen(u, pending);
    }
  }

  /** Phrases begin and end visibly. */
  ghost predicate AllStripped(u: Setup, phrases: seq<string>) {
    forall i :: 0 <= i < |phrases| ==>
      phrases[i] != "" && !u.space(phrases[i][0]) && !u.space(phrases[i][|phrases[i]| - 1])
  }

  lemma {:induction false} DrainedAreStripped(u: Setup, pending: string)
    ensures AllStripped(u, Drained(u, pending).phrases)
    decreases |pending|
  {
    var cut := FindPhraseBreak(u, pending);
    if cut > 0 {
      StripVisible(u.space, pending[..cut]);
      DrainedAreStripped(u, pending[cut..]);
    }
  }

  /** Of a feed that is not final the rest stays; of a final one it is a phrase too, if visible. */
  lemma ReadyPhrases(u: Setup, pending: string, isFinal: bool)
    ensures var d, ready := Drained(u, pending), DrainedReady(u, pending, isFinal);
            && AllStripped(u, ready.phrases)
            && (!isFinal || Spoken(u, d.pending) == "" ==> ready == d)
            && (isFinal && Spoken(u, d.pending) != "" ==>
                  ready.pending == "" && |ready.phrases| == |d.phrases| + 1 && d.phrases <= ready.phrases)
  {
    DrainedAreStripped(u, pending);
    StripSpeaksAll(u, Drained(u, pending).pending);
    StripVisible(u.space, Drained(u, pending).pending);
  }

  lemma DrainReadyConserves(u: Setup, pending: string, isFinal: bool)
    ensures var d := DrainedReady(u, pending, isFinal);
            && SpokenAll(u, d.phrases) + Spoken(u, d.pending) == Spoken(u, pending)
            && (isFinal ==> Spoken(u, d.pending) == "")
            && AllSpeak(u, d.phrases)
  {
    DrainConserves(u, pending);
    DrainCompletes(u, pending);
    var d := Drained(u, pending);
    StripSpeaksAll(u, d.pending);
    SpokenLast(u, d.phrases, Strip(u.space, d.pending));
  }

  // ---- Tasks and the bounded queue ----

  type TaskId = nat

  datatype Phrase = Phrase(id: nat, text: string)

  /** A task that puts phrases: a feed, of whatever reply, or a flush timer that has run out. `held`
      is the phrase whose put it waits in, `ready` those it has still to put. A task that is done
      stays, with nothing left. */
  datatype Task = Task(held: Option<Phrase>, ready: seq<string>)

  /** `taken` is what the worker took off the queue. */
  datatype Segmenter = Segmenter(
    buffer: string, nextId: nat, queue: seq<Phrase>, taken: seq<Phrase>, tasks: map<TaskId, Task>)

  const FRESH := Segmenter("", 0, [], [], map[])

  /** The awaits of the tasks divide their work into these steps. Several replies may feed at once,
      and several timers run out; any task may be cancelled while it waits. */
  datatype Event =
    | Feed(id: TaskId, delta: string, isFinal: bool)
    | Flush(id: TaskId)
    | Resumes(id: TaskId)
    | Cancelled(id: TaskId)
    | Take

  predicate HasRoom(u: Setup, s: Segmenter) {
    |s.queue| < u.maxQueue
  }

  predicate Done(t: Task) {
    t.held.None? && t.ready == []
  }

  predicate AllDone(s: Segmenter) {
    forall id :: id in s.tasks ==> Done(s.tasks[id])
  }

  function PutHeld(s: Segmenter, id: TaskId): Segmenter
    requires id in s.tasks && s.tasks[id].held.Some?
  {
    s.(queue := s.queue + [s.tasks[id].held.value], tasks := s.tasks[id := s.tasks[id].(held := None)])
  }

  /** The task's next phrase gets its number, unless it is blank. */
  function Numbered(u: Setup, s: Segmenter, id: TaskId): Segmenter
    requires id in s.tasks && s.tasks[id].held.None? && s.tasks[id].ready != []
  {
    var t := s.tasks[id];
    var text := Normalized(u, t.ready[0]);
    if text == "" then s.(tasks := s.tasks[id := Task(None, t.ready[1..])])
    else s.(nextId := s.nextId + 1, tasks := s.tasks[id := Task(Some(Phrase(s.nextId, text)), t.ready[1..])])
  }

  /** A task goes on until all its phrases are put or the queue is full. */
  function GoesOn(u: Setup, s: Segmenter, id: TaskId): Segmenter
    requires id in s.tasks
    decreases |s.tasks[id].ready|, if s.tasks[id].held.Some? then 1 else 0
  {
    if s.tasks[id].held.Some? then if HasRoom(u, s) then GoesOn(u, PutHeld(s, id), id) else s
    else if s.tasks[id].ready == [] then s
    else GoesOn(u, Numbered(u, s, id), id)
  }

  /** What a feed or a flush takes out of the buffer, under the lock. */
  function CutOff(u: Setup, s: Segmenter, e: Event): Drain
    requires e.Feed? || e.Flush?
  {
    match e
    case Feed(_, delta, isFinal) => DrainedReady(u, s.buffer + delta, isFinal)
    case Flush(_) =>
      var pending := Strip(u.space, s.buffer);
      Drain(if pending == "" then [] else [pending], "")
  }

  function Started(u: Setup, s: Segmenter, e: Event): Segmenter
    requires e.Feed? || e.Flush?
  {
    var d := CutOff(u, s, e);
    s.(buffer := d.pending, tasks := s.tasks[e.id := Task(None, d.phrases)])
  }

  function TakenOne(s: Segmenter): Segmenter {
    if s.queue == [] then s else s.(queue := s.queue[1..], taken := s.taken + [s.queue[0]])
  }

  predicate Starts(s: Segmenter, e: Event) {
    (e.Feed? || e.Flush?) && e.id !in s.tasks
  }

  /** Every feed and every flush is a task of its own, under a new name. */
  function Stepped(u: Setup, s: Segmenter, e: Event): Segmenter {
    match e
    case Resumes(id) => if id in s.tasks then GoesOn(u, s, id) else s
    case Cancelled(id) => if id in s.tasks then s.(tasks := s.tasks[id := Task(None, [])]) else s
    case Take => TakenOne(s)
    case _ => if Starts(s, e) then GoesOn(u, Started(u, s, e), e.id) else s
  }

  // ---- Where each piece of the text goes ----

  /** All phrases ever put, in the order in which they are spoken. */
  function Spoke(s: Segmenter): seq<Phrase> {
    s.taken + s.queue
  }

  /** What a task has still to put. */
  function Waiting(t: Task): nat {
    |t.ready| + if t.held.Some? then 1 else 0
  }

  datatype Place = Put(index: nat) | Waits(id: TaskId) | Lost

  /** `pieces` are the phrases cut off the text so far, in the order of the text, and `place` where
      each is; `placed[i]` is the number of the piece put as the i-th phrase; `at[id]` that of the
      next piece the task has. */
  datatype History = History(
    seg: Segmenter, text: string, pieces: seq<string>, place: seq<Place>, placed: seq<nat>, at: map<TaskId, nat>)

  const START := History(FRESH, "", [], [], [], map[])

  predicate Knows(h: History, id: TaskId) {
    id in h.seg.tasks && id in h.at
  }

  function PutHeldRecorded(h: History, id: TaskId): History
    requires Knows(h, id) && h.seg.tasks[id].held.Some?
  {
    var piece := h.at[id];
    h.(seg := PutHeld(h.seg, id), placed := h.placed + [piece], at := h.at[id := piece + 1],
       place := if piece < |h.place| then h.place[piece := Put(|h.placed|)] else h.place)
  }

  /** `GoesOn`, recorded. */
  function GoesOnRecorded(u: Setup, h: History, id: TaskId): History
    requires Knows(h, id)
    decreases |h.seg.tasks[id].ready|, if h.seg.tasks[id].held.Some? then 1 else 0
  {
    if h.seg.tasks[id].held.Some? then
      if HasRoom(u, h.seg) then GoesOnRecorded(u, PutHeldRecorded(h, id), id) else h
    else if h.seg.tasks[id].ready == [] then h
    else GoesOnRecorded(u, h.(seg := Numbered(u, h.seg, id)), id)
  }

  function StartedRecorded(u: Setup, h: History, e: Event): History
    requires e.Feed? || e.Flush?
  {
    var phrases := CutOff(u, h.seg, e).phrases;
    h.(seg := Started(u, h.seg, e), text := h.text + (if e.Feed? then e.delta else ""),
       pieces := h.pieces + phrases, place := h.place + seq(|phrases|, _ => Waits(e.id)), at := h.at[e.id := |h.pieces|])
  }

  function CancelledRecorded(h: History, id: TaskId): History
    requires id in h.seg.tasks
  {
    h.(seg := h.seg.(tasks := h.seg.tasks[id := Task(None, [])]),
       place := seq(|h.place|, i requires 0 <= i < |h.place| => if h.place[i] == Waits(id) then Lost else h.place[i]))
  }

  function Recorded(u: Setup, h: History, e: Event): History {
    match e
    case Resumes(id) => if Knows(h, id) then GoesOnRecorded(u, h, id) else h
    case Cancelled(id) => if id in h.seg.tasks then CancelledRecorded(h, id) else h
    case Take => h.(seg := TakenOne(h.seg))
    case _ => if Starts(h.seg, e) then GoesOnRecorded(u, StartedRecorded(u, h, e), e.id) else h
  }

  function After(u: Setup, events: seq<Event>): History {
    if events == [] then START else Recorded(u, After(u, events[..|events| - 1]), events[|events| - 1])
  }

  lemma {:induction false} RecordingWatches(u: Setup, h: History, id: TaskId)
    requires Knows(h, id)
    ensures GoesOnRecorded(u, h, id).seg == GoesOn(u, h.seg, id)
    ensures GoesOnRecorded(u, h, id).at.Keys == h.at.Keys && GoesOn(u, h.seg, id).tasks.Keys == h.seg.tasks.Keys
    ensures GoesOnRecorded(u, h, id).text == h.text && GoesOnRecorded(u, h, id).pieces == h.pieces
    ensures GoesOn(u, h.seg, id).buffer == h.seg.buffer
    decreases |h.seg.tasks[id].ready|, if h.seg.tasks[id].held.Some? then 1 else 0
  {
    if h.seg.tasks[id].held.Some? {
      if HasRoom(u, h.seg) {
        RecordingWatches(u, PutHeldRecorded(h, id), id);
      }
    } else if h.seg.tasks[id].ready != [] {
      RecordingWatches(u, h.(seg := Numbered(u, h.seg, id)), id);
    }
  }

  /** Recording only watches. */
  lemma RecordedIsStepped(u: Setup, h: History, e: Event)
    requires h.at.Keys == h.seg.tasks.Keys
    ensures Recorded(u, h, e).seg == Stepped(u, h.seg, e)
    ensures Recorded(u, h, e).at.Keys == Recorded(u, h, e).seg.tasks.Keys
  {
    match e
    case Resumes(id) => if id in h.seg.tasks { RecordingWatches(u, h, id); }
    case Cancelled(id) =>
    case Take =>
    case _ => if Starts(h.seg, e) { RecordingWatches(u, StartedRecorded(u, h, e), e.id); }
  }

  // ---- What holds in every run ----

  /** The pieces and the buffer are the text fed, and every piece is audible. */
  ghost predicate CutUp(u: Setup, h: History) {
    && SpokenAll(u, h.pieces) + Spoken(u, h.seg.buffer) == Spoken(u, h.text)
    && AllSpeak(u, h.pieces)
  }

  predicate Says(u: Setup, pieces: seq<string>, phrase: Phrase, piece: nat) {
    piece < |pieces| && phrase.text == Normalized(u, pieces[piece])
  }

  /** The phrases put are the pieces they stand for. */
  ghost predicate PutsMatch(u: Setup, h: History) {
    && |h.placed| == |Spoke(h.seg)|
    && forall i :: 0 <= i < |h.placed| ==> Says(u, h.pieces, Spoke(h.seg)[i], h.placed[i])
  }

  /** A task's phrases are the pieces from `at` on. */
  ghost predicate TaskMatches(u: Setup, pieces: seq<string>, t: Task, at: nat) {
    var first := at + if t.held.Some? then 1 else 0;
    && (t.held.Some? ==> Says(u, pieces, t.held.value, at))
    && first + |t.ready| <= |pieces| && t.ready == pieces[first..first + |t.ready|]
  }

  ghost predicate TasksMatch(u: Setup, h: History) {
    && h.at.Keys == h.seg.tasks.Keys
    && forall id :: id in h.seg.tasks ==> TaskMatches(u, h.pieces, h.seg.tasks[id], h.at[id])
  }

  predicate InTask(h: History, id: TaskId, piece: nat) {
    Knows(h, id) && h.at[id] <= piece < h.at[id] + Waiting(h.seg.tasks[id])
  }

  /** Every piece is in the one place recorded for it: put, once; waiting in one task; or lost. */
  ghost predicate OnePlace(h: History) {
    && |h.place| == |h.pieces|
    && (forall p: nat :: p < |h.place| && h.place[p].Put? ==>
          h.place[p].index < |h.placed| && h.placed[h.place[p].index] == p)
    && (forall i :: 0 <= i < |h.placed| ==> h.placed[i] < |h.place| && h.place[h.placed[i]] == Put(i))
    && (forall p: nat, id: TaskId :: InTask(h, id, p) <==> p < |h.place| && h.place[p] == Waits(id))
  }

  // ---- Order ----

  /** Nothing lost, and the phrases put are the first pieces, in the order of the text. */
  ghost predicate InOrder(h: History) {
    && (forall p: nat :: p < |h.place| ==> !h.place[p].Lost?)
    && forall i :: 0 <= i < |h.placed| ==> h.placed[i] == i
  }

  ghost predicate Inv(u: Setup, h: History) {
    CutUp(u, h) && PutsMatch(u, h) && TasksMatch(u, h) && OnePlace(h)
  }

  /** Some other task still waits with a piece that comes before the next one of this task. */
  predicate Earlier(h: History, id: TaskId) {
    Knows(h, id) && exists o :: o in h.seg.tasks && o in h.at && !Done(h.seg.tasks[o]) && h.at[o] < h.at[id]
  }

  /** The task has something to put, room to put it, and would pass an earlier piece. */
  predicate Passes(u: Setup, h: History, id: TaskId) {
    Knows(h, id) && !Done(h.seg.tasks[id]) && HasRoom(u, h.seg) && Earlier(h, id)
  }

  /** A step puts a piece while an earlier one of another task still waits, or loses one: a task that
      has been waiting gets room, or a new feed or flush finds room, before the tasks whose pieces
      come first; or a task is cancelled that has pieces left. */
  predicate Overtakes(u: Setup, h: History, e: Event) {
    match e
    case Resumes(id) => Passes(u, h, id)
    case Cancelled(id) => id in h.seg.tasks && !Done(h.seg.tasks[id])
    case Take => false
    case _ => Starts(h.seg, e) && CutOff(u, h.seg, e).phrases != [] && HasRoom(u, h.seg) && !AllDone(h.seg)
  }

  /** In order, the pieces behind those put all wait in some task. */
  lemma OthersWait(h: History, p: nat)
    requires OnePlace(h) && InOrder(h) && |h.placed| <= p < |h.place|
    ensures h.place[p].Waits? && InTask(h, h.place[p].id, p) && !Done(h.seg.tasks[h.place[p].id])
  {
    assert h.place[p].Waits?;
  }

  /** In order, the next piece to put is the one of the task that no other is earlier than. */
  lemma NextInOrder(h: History, id: TaskId)
    requires OnePlace(h) && InOrder(h) && h.at.Keys == h.seg.tasks.Keys
    requires Knows(h, id) && !Done(h.seg.tasks[id])
    ensures h.at[id] == |h.placed| <==> !Earlier(h, id)
  {
    var m := |h.placed|;
    assert InTask(h, id, h.at[id]);
    assert forall i: nat :: i < m ==> h.place[h.placed[i]] == Put(i) && h.place[i] == Put(i);
    if h.at[id] > m {
      OthersWait(h, m);
    } else if Earlier(h, id) {
      var o :| o in h.seg.tasks && o in h.at && !Done(h.seg.tasks[o]) && h.at[o] < h.at[id];
      assert InTask(h, o, h.at[o]);
    }
  }

  lemma PutKeepsPlaces(h: History, id: TaskId)
    requires OnePlace(h) && Knows(h, id) && h.seg.tasks[id].held.Some?
    ensures OnePlace(PutHeldRecorded(h, id))
  {
    var n, piece := PutHeldRecorded(h, id), h.at[id];
    assert InTask(h, id, piece);
    forall p: nat, o: TaskId
      ensures InTask(n, o, p) <==> p < |n.place| && n.place[p] == Waits(o)
    {
      assert InTask(n, o, p) <==> InTask(h, o, p) && p != piece by {
        assert InTask(h, o, piece) ==> o == id;
      }
    }
    forall i | 0 <= i < |n.placed|
      ensures n.placed[i] < |n.place| && n.place[n.placed[i]] == Put(i)
    {
      if i < |h.placed| {
        assert h.place[h.placed[i]] == Put(i);
        assert h.placed[i] != piece;
      }
    }
  }

  lemma PutKeepsMatches(u: Setup, h: History, id: TaskId)
    requires PutsMatch(u, h) && TasksMatch(u, h) && Knows(h, id) && h.seg.tasks[id].held.Some?
    ensures PutsMatch(u, PutHeldRecorded(h, id)) && TasksMatch(u, PutHeldRecorded(h, id))
  {
    var n := PutHeldRecorded(h, id);
    assert TaskMatches(u, h.pieces, h.seg.tasks[id], h.at[id]);
    assert Spoke(n.seg) == Spoke(h.seg) + [h.seg.tasks[id].held.value];
    forall o | o in n.seg.tasks
      ensures TaskMatches(u, n.pieces, n.seg.tasks[o], n.at[o])
    {
      assert TaskMatches(u, h.pieces, h.seg.tasks[o], h.at[o]);
    }
  }

  lemma PutKeepsOrder(h: History, id: TaskId)
    requires OnePlace(h) && Knows(h, id) && h.seg.tasks[id].held.Some?
    ensures InOrder(PutHeldRecorded(h, id)) <==> InOrder(h) && h.at[id] == |h.placed|
  {
    var n, piece := PutHeldRecorded(h, id), h.at[id];
    assert InTask(h, id, piece);
    assert n.placed[|h.placed|] == piece;
    if InOrder(n) {
      forall i | 0 <= i < |h.placed| ensures h.placed[i] == i {
        assert n.placed[i] == i;
      }
      forall p: nat | p < |h.place| ensures !h.place[p].Lost? {
        assert p != piece ==> n.place[p] == h.place[p];
      }
    }
  }

  /** A piece is never blank, so a task's next one does get its number. */
  lemma NumberedNext(u: Setup, h: History, id: TaskId)
    requires u.space(' ')
    requires AllSpeak(u, h.pieces) && TasksMatch(u, h)
    requires Knows(h, id) && h.seg.tasks[id].held.None? && h.seg.tasks[id].ready != []
    ensures var job := Phrase(h.seg.nextId, Normalized(u, h.pieces[h.at[id]]));
            && h.at[id] < |h.pieces|
            && Numbered(u, h.seg, id)
               == h.seg.(nextId := h.seg.nextId + 1,
                         tasks := h.seg.tasks[id := Task(Some(job), h.seg.tasks[id].ready[1..])])
  {
    assert TaskMatches(u, h.pieces, h.seg.tasks[id], h.at[id]);
    assert h.seg.tasks[id].ready[0] == h.pieces[h.at[id]];
    NormalizedSpeaksAll(u, h.pieces[h.at[id]]);
    assert Spoken(u, h.pieces[h.at[id]]) != "";
  }

  lemma NumberedMatches(u: Setup, h: History, n: History, id: TaskId)
    requires PutsMatch(u, h) && TasksMatch(u, h)
    requires Knows(h, id) && h.seg.tasks[id].held.None? && h.seg.tasks[id].ready != []
    requires h.at[id] < |h.pieces|
    requires var job := Phrase(h.seg.nextId, Normalized(u, h.pieces[h.at[id]]));
             n == h.(seg := h.seg.(nextId := h.seg.nextId + 1,
                                   tasks := h.seg.tasks[id := Task(Some(job), h.seg.tasks[id].ready[1..])]))
    ensures PutsMatch(u, n) && TasksMatch(u, n)
  {
    assert TaskMatches(u, h.pieces, h.seg.tasks[id], h.at[id]);
    assert n.seg.tasks[id].ready == h.pieces[h.at[id] + 1..h.at[id] + 1 + |n.seg.tasks[id].ready|];
    forall o | o in n.seg.tasks
      ensures TaskMatches(u, n.pieces, n.seg.tasks[o], n.at[o])
    {
      assert TaskMatches(u, h.pieces, h.seg.tasks[o], h.at[o]);
    }
    assert Spoke(n.seg) == Spoke(h.seg);
  }

  lemma NumberedKeeps(u: Setup, h: History, id: TaskId)
    requires u.space(' ')
    requires Inv(u, h)
    requires Knows(h, id) && h.seg.tasks[id].held.None? && h.seg.tasks[id].ready != []
    ensures var n := h.(seg := Numbered(u, h.seg, id));
            && Inv(u, n) && n.seg.tasks[id].held.Some? && (InOrder(n) <==> InOrder(h)) && (Earlier(n, id) <==> Earlier(h, id))
  {
    var n := h.(seg := Numbered(u, h.seg, id));
    NumberedNext(u, h, id);
    NumberedMatches(u, h, n, id);
    SameWaiting(h, n);
    assert forall o :: o != id && o in n.seg.tasks ==> n.seg.tasks[o] == h.seg.tasks[o];
  }

  /** Places depend on how much each task has left, not on what it holds. */
  lemma SameWaiting(h: History, n: History)
    requires OnePlace(h)
    requires n == h.(seg := n.seg) && n.seg.tasks.Keys == h.seg.tasks.Keys
    requires forall id :: id in h.seg.tasks ==> Waiting(n.seg.tasks[id]) == Waiting(h.seg.tasks[id])
    ensures OnePlace(n) && (InOrder(n) <==> InOrder(h))
  {
    assert forall p: nat, id: TaskId :: InTask(n, id, p) <==> InTask(h, id, p);
  }

  lemma PutKeeps(u: Setup, h: History, id: TaskId)
    requires Inv(u, h) && Knows(h, id) && h.seg.tasks[id].held.Some?
    ensures Inv(u, PutHeldRecorded(h, id))
    ensures InOrder(PutHeldRecorded(h, id)) <==> InOrder(h) && !Earlier(h, id)
  {
    PutKeepsPlaces(h, id);
    PutKeepsMatches(u, h, id);
    PutKeepsOrder(h, id);
    if InOrder(h) {
      NextInOrder(h, id);
    }
  }

  /** A task that goes on keeps the invariant, and the order unless it passes an earlier piece. */
  lemma {:induction false} GoesOnKeeps(u: Setup, h: History, id: TaskId)
    requires u.space(' ')
    requires Inv(u, h) && Knows(h, id)
    ensures Inv(u, GoesOnRecorded(u, h, id))
    ensures InOrder(GoesOnRecorded(u, h, id)) <==> InOrder(h) && !Passes(u, h, id)
    decreases |h.seg.tasks[id].ready|, if h.seg.tasks[id].held.Some? then 1 else 0
  {
    if h.seg.tasks[id].held.Some? {
      if HasRoom(u, h.seg) {
        var n := PutHeldRecorded(h, id);
        PutKeeps(u, h, id);
        GoesOnKeeps(u, n, id);
        if InOrder(n) {
          NoneEarlierNow(h, id);
        }
      }
    } else if h.seg.tasks[id].ready != [] {
      NumberedKeeps(u, h, id);
      GoesOnKeeps(u, h.(seg := Numbered(u, h.seg, id)), id);
    }
  }

  /** Having put the next piece in order, the task has the one after it. */
  lemma NoneEarlierNow(h: History, id: TaskId)
    requires OnePlace(h) && h.at.Keys == h.seg.tasks.Keys
    requires Knows(h, id) && h.seg.tasks[id].held.Some? && InOrder(PutHeldRecorded(h, id))
    ensures var n := PutHeldRecorded(h, id);
            Done(n.seg.tasks[id]) || !Earlier(n, id)
  {
    var n := PutHeldRecorded(h, id);
    PutKeepsPlaces(h, id);
    PutKeepsOrder(h, id);
    if !Done(n.seg.tasks[id]) {
      NextInOrder(n, id);
    }
  }

  // ---- Starting, cancelling, taking ----

  lemma StartCutsUp(u: Setup, h: History, e: Event)
    requires CutUp(u, h) && (e.Feed? || e.Flush?)
    ensures CutUp(u, StartedRecorded(u, h, e))
    ensures e.Flush? || e.isFinal ==> Spoken(u, Started(u, h.seg, e).buffer) == ""
  {
    var d, delta := CutOff(u, h.seg, e), if e.Feed? then e.delta else "";
    if e.Feed? {
      DrainReadyConserves(u, h.seg.buffer + delta, e.isFinal);
    } else {
      FlushConserves(u, h.seg.buffer);
    }
    CutMoreUp(u, h, d, delta);
  }

  lemma FlushConserves(u: Setup, buffer: string)
    ensures var d := CutOff(u, FRESH.(buffer := buffer), Flush(0));
            && SpokenAll(u, d.phrases) + Spoken(u, d.pending) == Spoken(u, buffer + "")
            && AllSpeak(u, d.phrases) && d.pending == ""
  {
    var pending := Strip(u.space, buffer);
    StripSpeaksAll(u, buffer);
    assert buffer + "" == buffer;
    if pending != "" {
      SpokenOne(u, pending);
      assert Spoken(u, pending) + "" == Spoken(u, pending);
    }
  }

  lemma CutMoreUp(u: Setup, h: History, d: Drain, delta: string)
    requires CutUp(u, h)
    requires SpokenAll(u, d.phrases) + Spoken(u, d.pending) == Spoken(u, h.seg.buffer + delta)
    requires AllSpeak(u, d.phrases)
    ensures SpokenAll(u, h.pieces + d.phrases) + Spoken(u, d.pending) == Spoken(u, h.text + delta)
    ensures AllSpeak(u, h.pieces + d.phrases)
  {
    SpokenAppend(u, h.seg.buffer, delta);
    SpokenAppend(u, h.text, delta);
    SpokenAllAppend(u, h.pieces, d.phrases);
    Assoc(SpokenAll(u, h.pieces), SpokenAll(u, d.phrases), Spoken(u, d.pending));
    Assoc(SpokenAll(u, h.pieces), Spoken(u, h.seg.buffer), Spoken(u, delta));
  }

  lemma MorePieces(u: Setup, pieces: seq<string>, more: seq<string>, t: Task, at: nat)
    requires TaskMatches(u, pieces, t, at)
    ensures TaskMatches(u, pieces + more, t, at)
  {
    var first := at + if t.held.Some? then 1 else 0;
    assert (pieces + more)[first..first + |t.ready|] == pieces[first..first + |t.ready|];
  }

  lemma StartMatches(u: Setup, h: History, n: History, id: TaskId, phrases: seq<string>)
    requires PutsMatch(u, h) && TasksMatch(u, h) && id !in h.seg.tasks
    requires n.pieces == h.pieces + phrases && n.placed == h.placed && Spoke(n.seg) == Spoke(h.seg)
    requires n.at == h.at[id := |h.pieces|] && n.seg.tasks == h.seg.tasks[id := Task(None, phrases)]
    ensures PutsMatch(u, n) && TasksMatch(u, n)
  {
    forall i | 0 <= i < |n.placed| ensures Says(u, n.pieces, Spoke(n.seg)[i], n.placed[i]) {
      assert Says(u, h.pieces, Spoke(h.seg)[i], h.placed[i]);
    }
    forall o | o in n.seg.tasks
      ensures TaskMatches(u, n.pieces, n.seg.tasks[o], n.at[o])
    {
      if o == id {
        assert n.pieces[|h.pieces|..|h.pieces| + |phrases|] == phrases;
      } else {
        MorePieces(u, h.pieces, phrases, h.seg.tasks[o], h.at[o]);
      }
    }
  }

  lemma StartPlaces(h: History, n: History, id: TaskId, phrases: seq<string>)
    requires OnePlace(h) && h.at.Keys == h.seg.tasks.Keys && id !in h.seg.tasks
    requires n.pieces == h.pieces + phrases && n.placed == h.placed
    requires n.place == h.place + seq(|phrases|, _ => Waits(id))
    requires n.at == h.at[id := |h.pieces|] && n.seg.tasks == h.seg.tasks[id := Task(None, phrases)]
    ensures OnePlace(n) && (InOrder(n) <==> InOrder(h))
  {
    forall p: nat, o: TaskId
      ensures InTask(n, o, p) <==> p < |n.place| && n.place[p] == Waits(o)
    {
      assert o != id ==> (InTask(n, o, p) <==> InTask(h, o, p));
      assert p < |h.place| ==> n.place[p] == h.place[p] && (h.place[p] == Waits(o) ==> InTask(h, o, p));
    }
    if InOrder(n) {
      forall p: nat | p < |h.place| ensures !h.place[p].Lost? {
        assert n.place[p] == h.place[p];
      }
    }
  }

  lemma NewTaskKeeps(u: Setup, h: History, n: History, id: TaskId, phrases: seq<string>)
    requires Inv(u, h) && id !in h.seg.tasks && CutUp(u, n)
    requires n.pieces == h.pieces + phrases && n.placed == h.placed && Spoke(n.seg) == Spoke(h.seg)
    requires n.place == h.place + seq(|phrases|, _ => Waits(id))
    requires n.at == h.at[id := |h.pieces|] && n.seg.tasks == h.seg.tasks[id := Task(None, phrases)]
    ensures Inv(u, n) && (InOrder(n) <==> InOrder(h))
  {
    StartMatches(u, h, n, id, phrases);
    StartPlaces(h, n, id, phrases);
  }

  /** All pieces that wait come before those of a new task. */
  lemma NewTaskIsLast(u: Setup, h: History, n: History, id: TaskId, phrases: seq<string>)
    requires TasksMatch(u, h) && id !in h.seg.tasks
    requires n.at == h.at[id := |h.pieces|] && n.seg.tasks == h.seg.tasks[id := Task(None, phrases)]
    ensures Earlier(n, id) <==> !AllDone(h.seg)
  {
    if o :| o in h.seg.tasks && !Done(h.seg.tasks[o]) {
      assert TaskMatches(u, h.pieces, h.seg.tasks[o], h.at[o]);
      assert n.seg.tasks[o] == h.seg.tasks[o] && n.at[o] < n.at[id];
    }
    if Earlier(n, id) {
      var o :| o in n.seg.tasks && o in n.at && !Done(n.seg.tasks[o]) && n.at[o] < n.at[id];
      assert o in h.seg.tasks && !Done(h.seg.tasks[o]);
    }
  }

  lemma StartKeeps(u: Setup, h: History, e: Event)
    requires Inv(u, h) && Starts(h.seg, e)
    ensures var n := StartedRecorded(u, h, e);
            && Inv(u, n) && (InOrder(n) <==> InOrder(h))
            && (e.Flush? || e.isFinal ==> Spoken(u, n.seg.buffer) == "")
            && (Earlier(n, e.id) <==> !AllDone(h.seg))
  {
    var n, phrases := StartedRecorded(u, h, e), CutOff(u, h.seg, e).phrases;
    StartCutsUp(u, h, e);
    NewTaskKeeps(u, h, n, e.id, phrases);
    NewTaskIsLast(u, h, n, e.id, phrases);
  }

  lemma CancelPlaces(h: History, id: TaskId)
    requires OnePlace(h) && Knows(h, id)
    ensures OnePlace(CancelledRecorded(h, id))
    ensures InOrder(CancelledRecorded(h, id)) <==> InOrder(h) && Done(h.seg.tasks[id])
  {
    var n := CancelledRecorded(h, id);
    forall p: nat, o: TaskId
      ensures InTask(n, o, p) <==> p < |n.place| && n.place[p] == Waits(o)
    {
      assert o != id ==> (InTask(n, o, p) <==> InTask(h, o, p));
      assert p < |h.place| ==> (h.place[p] == Waits(o) <==> InTask(h, o, p));
    }
    if !Done(h.seg.tasks[id]) {
      assert InTask(h, id, h.at[id]);
      assert n.place[h.at[id]] == Lost;
    } else {
      assert forall p: nat :: !InTask(h, id, p);
      assert forall p: nat :: p < |h.place| ==> n.place[p] == h.place[p];
    }
    if InOrder(n) {
      forall p: nat | p < |h.place| ensures !h.place[p].Lost? {
        assert !n.place[p].Lost?;
      }
    }
  }

  lemma CancelKeeps(u: Setup, h: History, id: TaskId)
    requires Inv(u, h) && id in h.seg.tasks
    ensures Inv(u, CancelledRecorded(h, id))
    ensures InOrder(CancelledRecorded(h, id)) <==> InOrder(h) && Done(h.seg.tasks[id])
  {
    var n := CancelledRecorded(h, id);
    CancelPlaces(h, id);
    assert Spoke(n.seg) == Spoke(h.seg);
    forall o | o in n.seg.tasks
      ensures TaskMatches(u, n.pieces, n.seg.tasks[o], n.at[o])
    {
      assert TaskMatches(u, h.pieces, h.seg.tasks[o], h.at[o]);
    }
  }

  lemma TakeKeeps(u: Setup, h: History)
    requires Inv(u, h)
    ensures Inv(u, h.(seg := TakenOne(h.seg)))
    ensures InOrder(h.(seg := TakenOne(h.seg))) <==> InOrder(h)
  {
    var n := h.(seg := TakenOne(h.seg));
    assert Spoke(n.seg) == Spoke(h.seg);
    SameWaiting(h, n);
  }

  lemma StepKeeps(u: Setup, h: History, e: Event)
    requires u.space(' ')
    requires Inv(u, h)
    ensures Inv(u, Recorded(u, h, e))
    ensures InOrder(Recorded(u, h, e)) <==> InOrder(h) && !Overtakes(u, h, e)
  {
    match e
    case Resumes(id) => if id in h.seg.tasks { GoesOnKeeps(u, h, id); }
    case Cancelled(id) => if id in h.seg.tasks { CancelKeeps(u, h, id); }
    case Take => TakeKeeps(u, h);
    case _ =>
      if Starts(h.seg, e) {
        StartKeeps(u, h, e);
        GoesOnKeeps(u, StartedRecorded(u, h, e), e.id);
      }
  }

  lemma FreshKeeps(u: Setup)
    ensures Inv(u, START) && InOrder(START)
  {
    assert forall p: nat, id: TaskId :: !InTask(START, id, p);
    assert "" + "" == "";
  }

  lemma {:induction false} RunKeeps(u: Setup, events: seq<Event>)
    requires u.space(' ')
    ensures Inv(u, After(u, events))
  {
    if events == [] {
      FreshKeeps(u);
    } else {
      var before := After(u, events[..|events| - 1]);
      RunKeeps(u, events[..|events| - 1]);
      StepKeeps(u, before, events[|events| - 1]);
      assert After(u, events) == Recorded(u, before, events[|events| - 1]);
    }
  }

  // ---- Results over whole runs ----

  /** No step of the run overtakes or loses a piece. */
  ghost predicate NeverOvertaken(u: Setup, events: seq<Event>) {
    events != [] ==>
      && NeverOvertaken(u, events[..|events| - 1])
      && !Overtakes(u, After(u, events[..|events| - 1]), events[|events| - 1])
  }

  /** However replies are cut into deltas, however many feed at once, whenever timers fire, whoever
      waits for the queue or is cancelled: the pieces cut off and the buffer speak exactly the text
      fed, and each piece is put once, or waits in one task, or was cancelled. */
  lemma PiecesConserved(u: Setup, events: seq<Event>)
    requires u.space(' ')
    ensures var h := After(u, events);
            CutUp(u, h) && PutsMatch(u, h) && TasksMatch(u, h) && OnePlace(h)
  {
    RunKeeps(u, events);
  }

  /** The phrases are put in the order of the text with none lost, exactly if no step of the run
      overtakes or loses a piece. */
  lemma {:induction false} OrderExactlyUnlessOvertaken(u: Setup, events: seq<Event>)
    requires u.space(' ')
    ensures InOrder(After(u, events)) <==> NeverOvertaken(u, events)
  {
    if events == [] {
      FreshKeeps(u);
    } else {
      var before := events[..|events| - 1];
      OrderExactlyUnlessOvertaken(u, before);
      RunKeeps(u, before);
      StepKeeps(u, After(u, before), events[|events| - 1]);
    }
  }

  function Texts(phrases: seq<Phrase>): seq<string> {
    seq(|phrases|, i requires 0 <= i < |phrases| => phrases[i].text)
  }

  /** Phrases that stand for pieces speak them. */
  lemma {:induction false} TextsSpeakPieces(u: Setup, phrases: seq<Phrase>, pieces: seq<string>)
    requires u.space(' ')
    requires |phrases| == |pieces| && forall i :: 0 <= i < |pieces| ==> phrases[i].text == Normalized(u, pieces[i])
    ensures SpokenAll(u, Texts(phrases)) == SpokenAll(u, pieces)
  {
    if phrases != [] {
      var n := |phrases| - 1;
      TextsSpeakPieces(u, phrases[..n], pieces[..n]);
      NormalizedSpeaksAll(u, pieces[n]);
      SpokenLast(u, Texts(phrases[..n]), phrases[n].text);
      assert Texts(phrases[..n]) + [phrases[n].text] == Texts(phrases);
    }
  }

  lemma InOrderSpeaksText(u: Setup, h: History)
    requires u.space(' ') && PutsMatch(u, h) && InOrder(h)
    ensures |h.placed| <= |h.pieces|
    ensures SpokenAll(u, Texts(Spoke(h.seg))) == SpokenAll(u, h.pieces[..|h.placed|])
  {
    var m := |h.placed|;
    assert m > 0 ==> Says(u, h.pieces, Spoke(h.seg)[m - 1], h.placed[m - 1]);
    var first := h.pieces[..m];
    forall i | 0 <= i < m ensures Spoke(h.seg)[i].text == Normalized(u, first[i]) {
      assert Says(u, h.pieces, Spoke(h.seg)[i], h.placed[i]);
    }
    TextsSpeakPieces(u, Spoke(h.seg), first);
  }

  lemma FirstPieces(u: Setup, pieces: seq<string>, m: nat)
    requires m <= |pieces|
    ensures SpokenAll(u, pieces[..m]) <= SpokenAll(u, pieces)
    ensures m == |pieces| ==> pieces[..m] == pieces
  {
    SpokenAllAppend(u, pieces[..m], pieces[m..]);
    assert pieces[..m] + pieces[m..] == pieces;
  }

  /** When nothing was lost and a piece has not been put, some task is not done. */
  lemma SomeoneWaits(h: History)
    requires OnePlace(h) && InOrder(h) && |h.placed| < |h.pieces|
    ensures !AllDone(h.seg)
  {
    OthersWait(h, |h.placed|);
  }

  /** In such a run what is spoken is always a beginning of the text fed; and once all tasks are done,
      together with the buffer, all of it. */
  lemma ReplyIsSpokenOnce(u: Setup, events: seq<Event>)
    requires u.space(' ') && NeverOvertaken(u, events)
    ensures var h := After(u, events);
            var voice := SpokenAll(u, Texts(Spoke(h.seg)));
            && voice <= Spoken(u, h.text)
            && (AllDone(h.seg) ==> voice + Spoken(u, h.seg.buffer) == Spoken(u, h.text))
  {
    OrderExactlyUnlessOvertaken(u, events);
    RunKeeps(u, events);
    var h := After(u, events);
    InOrderSpeaksText(u, h);
    FirstPieces(u, h.pieces, |h.placed|);
    if |h.placed| < |h.pieces| {
      SomeoneWaits(h);
    }
  }

  /** A final feed leaves nothing audible in the buffer. */
  lemma FinalFeedEmpties(u: Setup, events: seq<Event>, id: TaskId, delta: string)
    requires u.space(' ') && id !in After(u, events).seg.tasks
    ensures Spoken(u, After(u, events + [Feed(id, delta, true)]).seg.buffer) == ""
  {
    var h, e := After(u, events), Feed(id, delta, true);
    RunKeeps(u, events);
    assert (events + [e])[..|events|] == events;
    StartKeeps(u, h, e);
    RecordingWatches(u, StartedRecorded(u, h, e), id);
  }

  // ---- The queue ----

  /** A task goes on as far as it can: it has put everything, or the queue is full. Other tasks and
      the buffer stay, and the queue never holds more than it may. */
  lemma {:induction false} GoesOnFully(u: Setup, s: Segmenter, id: TaskId)
    requires id in s.tasks && |s.queue| <= u.maxQueue
    ensures var n := GoesOn(u, s, id);
            && n.tasks.Keys == s.tasks.Keys && n.buffer == s.buffer && n.taken == s.taken
            && (Done(n.tasks[id]) || |n.queue| == u.maxQueue)
            && |n.queue| <= u.maxQueue && s.queue <= n.queue
            && forall o :: o in s.tasks && o != id ==> n.tasks[o] == s.tasks[o]
    decreases |s.tasks[id].ready|, if s.tasks[id].held.Some? then 1 else 0
  {
    if s.tasks[id].held.Some? {
      if HasRoom(u, s) {
        GoesOnFully(u, PutHeld(s, id), id);
      }
    } else if s.tasks[id].ready != [] {
      GoesOnFully(u, Numbered(u, s, id), id);
    }
  }

  lemma {:induction false} QueueIsBounded(u: Setup, events: seq<Event>)
    ensures After(u, events).at.Keys == After(u, events).seg.tasks.Keys
    ensures |After(u, events).seg.queue| <= u.maxQueue
  {
    if events != [] {
      var before, e := events[..|events| - 1], events[|events| - 1];
      QueueIsBounded(u, before);
      RecordedIsStepped(u, After(u, before), e);
      var s := After(u, before).seg;
      if e.Resumes? && e.id in s.tasks {
        GoesOnFully(u, s, e.id);
      } else if Starts(s, e) {
        GoesOnFully(u, Started(u, s, e), e.id);
      }
    }
  }

  /** Whatever has come before, a task that starts or goes on ends its step with everything put,
      or in front of a full queue, whose first phrase is the next to be spoken. */
  lemma WaitsOnlyForRoom(u: Setup, events: seq<Event>, e: Event)
    requires Starts(After(u, events).seg, e) || (e.Resumes? && e.id in After(u, events).seg.tasks)
    ensures var n := After(u, events + [e]).seg;
            && e.id in n.tasks && (Done(n.tasks[e.id]) || |n.queue| == u.maxQueue)
            && (u.maxQueue > 0 && !Done(n.tasks[e.id]) ==>
                  TakenOne(n).taken == n.taken + [n.queue[0]] && [n.queue[0]] + TakenOne(n).queue == n.queue)
  {
    QueueIsBounded(u, events);
    assert (events + [e])[..|events|] == events;
    RecordedIsStepped(u, After(u, events), e);
    var s := After(u, events).seg;
    GoesOnFully(u, if e.Resumes? then s else Started(u, s, e), e.id);
  }

  // ---- Numbers ----

  /** No two phrases have the same number, put or waiting, and the next number is unused. */
  ghost predicate NumbersDiffer(s: Segmenter) {
    && (forall i, j :: 0 <= i < j < |Spoke(s)| ==> Spoke(s)[i].id != Spoke(s)[j].id)
    && (forall i :: 0 <= i < |Spoke(s)| ==> Spoke(s)[i].id < s.nextId)
    && (forall t :: t in s.tasks && s.tasks[t].held.Some? ==> IsNew(s, s.tasks[t].held.value))
    && (forall t, o :: t in s.tasks && o in s.tasks && t != o && s.tasks[t].held.Some? && s.tasks[o].held.Some? ==>
          s.tasks[t].held.value.id != s.tasks[o].held.value.id)
  }

  ghost predicate IsNew(s: Segmenter, phrase: Phrase) {
    phrase.id < s.nextId && forall i :: 0 <= i < |Spoke(s)| ==> Spoke(s)[i].id != phrase.id
  }

  predicate HoldsOne(s: Segmenter, id: TaskId) {
    id in s.tasks && s.tasks[id].held.Some?
  }

  /** Phrases are numbered in the order in which they are put, and no task but `id` has any left. */
  ghost predicate InNumberOrder(s: Segmenter, id: TaskId) {
    && (forall o :: o in s.tasks && o != id ==> Done(s.tasks[o]))
    && (forall i :: 0 <= i < |Spoke(s)| ==> Spoke(s)[i].id == i)
    && s.nextId == |Spoke(s)| + (if HoldsOne(s, id) then 1 else 0)
    && (HoldsOne(s, id) ==> s.tasks[id].held.value.id == |Spoke(s)|)
  }

  lemma PutNumbers(s: Segmenter, id: TaskId)
    requires id in s.tasks && s.tasks[id].held.Some?
    ensures NumbersDiffer(s) ==> NumbersDiffer(PutHeld(s, id))
    ensures InNumberOrder(s, id) ==> InNumberOrder(PutHeld(s, id), id)
  {
    var n, phrase := PutHeld(s, id), s.tasks[id].held.value;
    assert Spoke(n) == Spoke(s) + [phrase];
    if NumbersDiffer(s) {
      assert IsNew(s, phrase);
      forall t | t in n.tasks && n.tasks[t].held.Some? ensures IsNew(n, n.tasks[t].held.value) {
        assert IsNew(s, s.tasks[t].held.value);
      }
    }
  }

  lemma NumberNumbers(u: Setup, s: Segmenter, id: TaskId)
    requires id in s.tasks && s.tasks[id].held.None? && s.tasks[id].ready != []
    ensures NumbersDiffer(s) ==> NumbersDiffer(Numbered(u, s, id))
    ensures InNumberOrder(s, id) ==> InNumberOrder(Numbered(u, s, id), id)
  {
    var n := Numbered(u, s, id);
    assert Spoke(n) == Spoke(s);
    if NumbersDiffer(s) {
      forall t | t in n.tasks && n.tasks[t].held.Some? ensures IsNew(n, n.tasks[t].held.value) {
        assert t != id ==> IsNew(s, s.tasks[t].held.value);
      }
    }
  }

  lemma {:induction false} GoesOnNumbers(u: Setup, s: Segmenter, id: TaskId)
    requires id in s.tasks
    ensures NumbersDiffer(s) ==> NumbersDiffer(GoesOn(u, s, id))
    ensures InNumberOrder(s, id) ==> InNumberOrder(GoesOn(u, s, id), id)
    decreases |s.tasks[id].ready|, if s.tasks[id].held.Some? then 1 else 0
  {
    if s.tasks[id].held.Some? {
      if HasRoom(u, s) {
        PutNumbers(s, id);
        GoesOnNumbers(u, PutHeld(s, id), id);
      }
    } else if s.tasks[id].ready != [] {
      NumberNumbers(u, s, id);
      GoesOnNumbers(u, Numbered(u, s, id), id);
    }
  }

  /** A task starts with something to put before all others are done, or is cancelled before it is. */
  predicate Contends(u: Setup, s: Segmenter, e: Event) {
    || (Starts(s, e) && CutOff(u, s, e).phrases != [] && !AllDone(s))
    || (e.Cancelled? && e.id in s.tasks && !Done(s.tasks[e.id]))
  }

  lemma StartNumbers(u: Setup, s: Segmenter, e: Event, active: TaskId)
    requires Starts(s, e)
    ensures NumbersDiffer(s) ==> NumbersDiffer(Started(u, s, e))
    ensures InNumberOrder(s, active) && AllDone(s) ==> InNumberOrder(Started(u, s, e), e.id)
    ensures InNumberOrder(s, active) && CutOff(u, s, e).phrases == [] ==>
              active != e.id ==> InNumberOrder(Started(u, s, e), active)
  {
    var n := Started(u, s, e);
    assert Spoke(n) == Spoke(s);
    if NumbersDiffer(s) {
      forall t | t in n.tasks && n.tasks[t].held.Some? ensures IsNew(n, n.tasks[t].held.value) {
        assert IsNew(s, s.tasks[t].held.value);
      }
    }
  }

  lemma CancelNumbers(s: Segmenter, id: TaskId, active: TaskId)
    requires id in s.tasks
    ensures var n := s.(tasks := s.tasks[id := Task(None, [])]);
            && (NumbersDiffer(s) ==> NumbersDiffer(n))
            && (InNumberOrder(s, active) && Done(s.tasks[id]) ==> InNumberOrder(n, active))
  {
    var n := s.(tasks := s.tasks[id := Task(None, [])]);
    assert Spoke(n) == Spoke(s);
    if NumbersDiffer(s) {
      forall t | t in n.tasks && n.tasks[t].held.Some? ensures IsNew(n, n.tasks[t].held.value) {
        assert IsNew(s, s.tasks[t].held.value);
      }
    }
  }

  lemma TakeNumbers(s: Segmenter, active: TaskId)
    ensures NumbersDiffer(s) ==> NumbersDiffer(TakenOne(s))
    ensures InNumberOrder(s, active) ==> InNumberOrder(TakenOne(s), active)
  {
    var n := TakenOne(s);
    assert Spoke(n) == Spoke(s);
    if NumbersDiffer(s) {
      forall t | t in n.tasks && n.tasks[t].held.Some? ensures IsNew(n, n.tasks[t].held.value) {
        assert IsNew(s, s.tasks[t].held.value);
      }
    }
  }

  /** No step gives two phrases the same number; `next` is the task that may then have some left. */
  lemma StepNumbers(u: Setup, s: Segmenter, e: Event, active: TaskId) returns (next: TaskId)
    ensures NumbersDiffer(s) ==> NumbersDiffer(Stepped(u, s, e))
    ensures InNumberOrder(s, active) && !Contends(u, s, e) ==> InNumberOrder(Stepped(u, s, e), next)
  {
    next := active;
    match e
    case Resumes(id) =>
      if id in s.tasks {
        GoesOnNumbers(u, s, id);
      }
    case Cancelled(id) =>
      if id in s.tasks {
        CancelNumbers(s, id, active);
      }
    case Take => TakeNumbers(s, active);
    case _ =>
      if Starts(s, e) {
        StartNumbers(u, s, e, active);
        GoesOnNumbers(u, Started(u, s, e), e.id);
        if AllDone(s) || active == e.id {
          next := e.id;
        }
      }
  }

  predicate NeverContends(u: Setup, events: seq<Event>) {
    events != [] ==>
      && NeverContends(u, events[..|events| - 1])
      && !Contends(u, After(u, events[..|events| - 1]).seg, events[|events| - 1])
  }

  /** In every run all numbers differ; and they follow the order of the puts as long as every task
      starts when those before it are done, and none is cancelled. */
  lemma {:induction false} PhrasesAreNumbered(u: Setup, events: seq<Event>) returns (active: TaskId)
    ensures After(u, events).at.Keys == After(u, events).seg.tasks.Keys
    ensures NumbersDiffer(After(u, events).seg)
    ensures NeverContends(u, events) ==> InNumberOrder(After(u, events).seg, active)
  {
    active := 0;
    if events != [] {
      var before, e := events[..|events| - 1], events[|events| - 1];
      active := PhrasesAreNumbered(u, before);
      active := StepNumbers(u, After(u, before).seg, e, active);
      RecordedIsStepped(u, After(u, before), e);
    }
  }

  // ---- Runs that break the order ----

  /** What is used of the letters below. */
  ghost predicate Letters(u: Setup) {
    Sane(u) && u.maxQueue == 1 && forall c :: 'A' <= c <= 'E' ==> !u.space(c)
  }

  lemma WordStays(u: Setup, c: char)
    requires Sane(u) && !u.space(c)
    ensures Normalized(u, [c, '.']) == [c, '.'] && Strip(u.space, [c, '.']) == [c, '.']
    ensures Normalized(u, [c]) == [c] && Strip(u.space, [c]) == [c]
  {
    assert [c][..0] == "" && [c, '.'][..1] == [c];
    assert Normalized(u, [c]) == "" + [c];
    assert Normalized(u, [c, '.']) == [c] + ['.'];
  }

  lemma DrainNothing(u: Setup)
    requires Sane(u)
    ensures Drained(u, "") == Drain([], "")
  {
  }

  /** A text of one letter is not cut; a letter, a full stop and a space are cut off together. */
  lemma DrainLetter(u: Setup, c: char)
    requires Sane(u) && !u.space(c) && !IsPunctuation(c) && c != ' '
    ensures Drained(u, [c]) == Drain([], [c])
  {
    assert !EndsWord(u, [c], 0);
    assert FirstWordEnd(u, [c], 0) == -1;
    assert LastSpace([c]) == -1;
  }

  lemma DrainWord(u: Setup, c: char, rest: string)
    requires Sane(u) && !u.space(c) && !IsPunctuation(c)
    ensures Drained(u, [c, '.', ' '] + rest)
         == Drain([[c, '.']] + Drained(u, rest).phrases, Drained(u, rest).pending)
  {
    var text := [c, '.', ' '] + rest;
    assert !EndsWord(u, text, 0) && EndsWord(u, text, 1);
    assert FirstWordEnd(u, text, 0) == 1;
    assert FindPhraseBreak(u, text) == 3 && text[..3] == [c, '.', ' '] && text[3..] == rest;
    assert [c, '.', ' '][..2] == [c, '.'];
    WordStays(u, c);
    assert LStrip(u.space, [c, '.', ' ']) == [c, '.', ' '];
    assert RStrip(u.space, [c, '.', ' ']) == RStrip(u.space, [c, '.']) == [c, '.'];
  }

  lemma DrainsOfRuns(u: Setup)
    requires Letters(u)
    ensures Drained(u, "A. ") == Drain(["A."], "") && Drained(u, "E. ") == Drain(["E."], "")
    ensures Drained(u, "D") == Drain([], "D")
  {
    DrainNothing(u);
    DrainWord(u, 'A', "");
    assert "A. " == ['A', '.', ' '] + "";
    DrainWord(u, 'E', "");
    assert "E. " == ['E', '.', ' '] + "";
    DrainLetter(u, 'D');
  }

  lemma DrainRest(u: Setup, rest: string)
    requires Letters(u) && (rest == "" || rest == "D")
    ensures Drained(u, rest) == Drain([], rest)
  {
    DrainNothing(u);
    DrainLetter(u, 'D');
  }

  lemma DrainOneWord(u: Setup, rest: string)
    requires Letters(u) && (rest == "" || rest == "D")
    ensures Drained(u, "C. " + rest) == Drain(["C."], rest)
  {
    DrainRest(u, rest);
    DrainWord(u, 'C', rest);
    assert "C. " + rest == ['C', '.', ' '] + rest;
  }

  /** Two words and what is left behind them, nothing or a letter. */
  lemma TwoWordsSplit(rest: string)
    ensures "B. C. " + rest == "B. " + ("C. " + rest)
  {
    Assoc("B. ", "C. ", rest);
    assert "B. " + "C. " == "B. C. ";
  }

  lemma DrainMore(u: Setup, c: char, rest: string, phrase: string, pending: string)
    requires Sane(u) && !u.space(c) && !IsPunctuation(c) && Drained(u, rest) == Drain([phrase], pending)
    ensures Drained(u, [c, '.', ' '] + rest) == Drain([[c, '.'], phrase], pending)
  {
    DrainWord(u, c, rest);
    assert [[c, '.']] + [phrase] == [[c, '.'], phrase];
  }

  lemma DrainTwoWords(u: Setup, rest: string)
    requires Letters(u) && (rest == "" || rest == "D")
    ensures Drained(u, "B. C. " + rest) == Drain(["B.", "C."], rest)
  {
    DrainOneWord(u, rest);
    DrainMore(u, 'B', "C. " + rest, "C.", rest);
    TwoWordsSplit(rest);
  }

  lemma {:induction false} KnowsTasks(u: Setup, events: seq<Event>)
    ensures After(u, events).at.Keys == After(u, events).seg.tasks.Keys
  {
    if events != [] {
      KnowsTasks(u, events[..|events| - 1]);
      RecordedIsStepped(u, After(u, events[..|events| - 1]), events[|events| - 1]);
    }
  }

  lemma OneMore(u: Setup, events: seq<Event>, e: Event)
    ensures After(u, events + [e]).seg == Stepped(u, After(u, events).seg, e)
    ensures After(u, events + [e]).text
         == After(u, events).text + if e.Feed? && e.id !in After(u, events).seg.tasks then e.delta else ""
  {
    assert (events + [e])[..|events|] == events;
    var h := After(u, events);
    KnowsTasks(u, events);
    RecordedIsStepped(u, h, e);
    match e
    case Resumes(id) => if id in h.seg.tasks { RecordingWatches(u, h, id); }
    case Cancelled(id) =>
    case Take =>
    case _ => if Starts(h.seg, e) { RecordingWatches(u, StartedRecorded(u, h, e), e.id); }
  }

  const OVER := Task(None, [])

  /** A task with one phrase finds room. */
  lemma PutsOne(u: Setup, s: Segmenter, id: TaskId, text: string)
    requires HasRoom(u, s) && id in s.tasks && s.tasks[id] == Task(None, [text])
    requires Normalized(u, text) == text && text != ""
    ensures GoesOn(u, s, id)
         == s.(queue := s.queue + [Phrase(s.nextId, text)], nextId := s.nextId + 1, tasks := s.tasks[id := OVER])
  {
    var n := Numbered(u, s, id);
    assert [text][1..] == [];
    assert n.tasks == s.tasks[id := Task(Some(Phrase(s.nextId, text)), [])];
    PutsLast(u, n, id, Phrase(s.nextId, text));
  }

  /** A task that holds its last phrase finds room. */
  lemma PutsLast(u: Setup, s: Segmenter, id: TaskId, phrase: Phrase)
    requires HasRoom(u, s) && id in s.tasks && s.tasks[id] == Task(Some(phrase), [])
    ensures GoesOn(u, s, id) == s.(queue := s.queue + [phrase], tasks := s.tasks[id := OVER])
  {
    var n := PutHeld(s, id);
    assert n.tasks[id] == OVER;
    assert GoesOn(u, n, id) == n;
  }

  /** A task with phrases finds none. */
  lemma HoldsFirst(u: Setup, s: Segmenter, id: TaskId, text: string, rest: seq<string>)
    requires !HasRoom(u, s) && id in s.tasks && s.tasks[id] == Task(None, [text] + rest)
    requires Normalized(u, text) == text && text != ""
    ensures GoesOn(u, s, id)
         == s.(nextId := s.nextId + 1, tasks := s.tasks[id := Task(Some(Phrase(s.nextId, text)), rest)])
  {
    var n := Numbered(u, s, id);
    assert ([text] + rest)[1..] == rest;
    assert n.tasks == s.tasks[id := Task(Some(Phrase(s.nextId, text)), rest)];
    assert GoesOn(u, n, id) == n;
  }

  /** A feed of one phrase finds room. */
  lemma FeedPuts(u: Setup, s: Segmenter, id: TaskId, delta: string, text: string, rest: string)
    requires id !in s.tasks && HasRoom(u, s)
    requires Drained(u, s.buffer + delta) == Drain([text], rest)
    requires Normalized(u, text) == text && text != ""
    ensures Stepped(u, s, Feed(id, delta, false))
         == s.(buffer := rest, queue := s.queue + [Phrase(s.nextId, text)], nextId := s.nextId + 1,
               tasks := s.tasks[id := OVER])
  {
    var n := Started(u, s, Feed(id, delta, false));
    PutsOne(u, n, id, text);
    assert n.tasks[id := OVER] == s.tasks[id := OVER];
  }

  /** A feed of phrases finds none. */
  lemma FeedHolds(u: Setup, s: Segmenter, id: TaskId, delta: string, text: string, more: seq<string>, rest: string)
    requires id !in s.tasks && !HasRoom(u, s)
    requires Drained(u, s.buffer + delta) == Drain([text] + more, rest)
    requires Normalized(u, text) == text && text != ""
    ensures Stepped(u, s, Feed(id, delta, false))
         == s.(buffer := rest, nextId := s.nextId + 1, tasks := s.tasks[id := Task(Some(Phrase(s.nextId, text)), more)])
  {
    var n := Started(u, s, Feed(id, delta, false));
    HoldsFirst(u, n, id, text, more);
    assert n.tasks[id := Task(Some(Phrase(s.nextId, text)), more)]
        == s.tasks[id := Task(Some(Phrase(s.nextId, text)), more)];
  }

  /** The queue is full: task 0 has put a phrase, and task 1 waits to put two. */
  function HeldUp(second: string): seq<Event> {
    [] + [Feed(0, "A. ", false)] + [Feed(1, second, false)]
  }

  const FILLED := Segmenter("", 1, [Phrase(0, "A.")], [], map[0 := OVER])

  lemma FirstFeedOf(u: Setup, delta: string, text: string)
    requires u.maxQueue > 0 && Drained(u, delta) == Drain([text], "")
    requires Normalized(u, text) == text && text != ""
    ensures Stepped(u, FRESH, Feed(0, delta, false)) == Segmenter("", 1, [Phrase(0, text)], [], map[0 := OVER])
  {
    assert "" + delta == delta;
    FeedPuts(u, FRESH, 0, delta, text, "");
  }

  lemma FirstFeed(u: Setup)
    requires Letters(u)
    ensures Stepped(u, FRESH, Feed(0, "A. ", false)) == FILLED
  {
    DrainsOfRuns(u);
    WordStays(u, 'A');
    FirstFeedOf(u, "A. ", "A.");
  }

  lemma FilledUp(u: Setup)
    requires Letters(u)
    ensures After(u, [] + [Feed(0, "A. ", false)]).seg == FILLED
    ensures After(u, [] + [Feed(0, "A. ", false)]).text == "A. "
  {
    FirstFeed(u);
    OneMore(u, [], Feed(0, "A. ", false));
    assert "" + "A. " == "A. ";
  }

  /** What task 1 has then, with `rest` left in the buffer. */
  function HeldUpState(rest: string): Segmenter {
    Segmenter(rest, 2, [Phrase(0, "A.")], [], map[0 := OVER, 1 := Task(Some(Phrase(1, "B.")), ["C."])])
  }

  lemma SecondFeedOf(u: Setup, delta: string, rest: string)
    requires Letters(u) && Drained(u, delta) == Drain(["B.", "C."], rest) && Normalized(u, "B.") == "B."
    ensures Stepped(u, FILLED, Feed(1, delta, false)) == HeldUpState(rest)
  {
    assert "" + delta == delta;
    assert ["B.", "C."] == ["B."] + ["C."];
    FeedHolds(u, FILLED, 1, delta, "B.", ["C."], rest);
  }

  lemma SecondFeed(u: Setup, rest: string)
    requires Letters(u) && (rest == "" || rest == "D")
    ensures Stepped(u, FILLED, Feed(1, "B. C. " + rest, false)) == HeldUpState(rest)
  {
    DrainTwoWords(u, rest);
    WordStays(u, 'B');
    SecondFeedOf(u, "B. C. " + rest, rest);
  }

  lemma FeedWaits(u: Setup, rest: string)
    requires Letters(u) && (rest == "" || rest == "D")
    ensures After(u, HeldUp("B. C. " + rest)).seg == HeldUpState(rest)
    ensures After(u, HeldUp("B. C. " + rest)).text == "A. " + ("B. C. " + rest)
  {
    FilledUp(u);
    SecondFeed(u, rest);
    OneMore(u, [] + [Feed(0, "A. ", false)], Feed(1, "B. C. " + rest, false));
  }

  /** A third task, which waits with one phrase. */
  function ThirdWaits(text: string): Segmenter {
    Segmenter("", 3, [Phrase(0, "A.")], [],
              map[0 := OVER, 1 := Task(Some(Phrase(1, "B.")), ["C."]), 2 := Task(Some(Phrase(2, text)), [])])
  }

  /** The timer takes the rest of the text. */
  lemma FlushWaits(u: Setup)
    requires Letters(u)
    ensures After(u, HeldUp("B. C. " + "D") + [Flush(2)]).seg == ThirdWaits("D")
    ensures After(u, HeldUp("B. C. " + "D") + [Flush(2)]).text == "A. " + ("B. C. " + "D")
  {
    FeedWaits(u, "D");
    WordStays(u, 'D');
    OneMore(u, HeldUp("B. C. " + "D"), Flush(2));
    var s := HeldUpState("D").(buffer := "", tasks := HeldUpState("D").tasks[2 := Task(None, ["D"])]);
    assert ["D"] == ["D"] + [];
    HoldsFirst(u, s, 2, "D", []);
  }

  lemma ThirdFeed(u: Setup)
    requires Letters(u)
    ensures Stepped(u, HeldUpState(""), Feed(2, "E. ", false)) == ThirdWaits("E.")
  {
    DrainsOfRuns(u);
    WordStays(u, 'E');
    assert "" + "E. " == "E. ";
    assert ["E."] == ["E."] + [];
    FeedHolds(u, HeldUpState(""), 2, "E. ", "E.", [], "");
  }

  /** Another reply feeds. */
  lemma OtherReplyWaits(u: Setup)
    requires Letters(u)
    ensures After(u, HeldUp("B. C. " + "") + [Feed(2, "E. ", false)]).seg == ThirdWaits("E.")
    ensures After(u, HeldUp("B. C. " + "") + [Feed(2, "E. ", false)]).text == "A. " + ("B. C. " + "") + "E. "
  {
    FeedWaits(u, "");
    ThirdFeed(u);
    OneMore(u, HeldUp("B. C. " + ""), Feed(2, "E. ", false));
  }

  /** The worker takes one phrase after the other, and each time the task that waits longest is
      woken: task 1 puts its first phrase and waits anew, behind task 2. */
  function Woken(start: seq<Event>): seq<Event> {
    start + [Take] + [Resumes(1)] + [Take] + [Resumes(2)] + [Take] + [Resumes(1)]
  }

  lemma FirstWoken(u: Setup, start: seq<Event>, text: string)
    requires Letters(u) && After(u, start).seg == ThirdWaits(text)
    ensures After(u, start + [Take] + [Resumes(1)]).seg
         == Segmenter("", 4, [Phrase(1, "B.")], [Phrase(0, "A.")],
                      map[0 := OVER, 1 := Task(Some(Phrase(3, "C.")), []), 2 := Task(Some(Phrase(2, text)), [])])
    ensures After(u, start + [Take] + [Resumes(1)]).text == After(u, start).text
  {
    WordStays(u, 'C');
    OneMore(u, start, Take);
    OneMore(u, start + [Take], Resumes(1));
    var s := ThirdWaits(text).(queue := [], taken := [Phrase(0, "A.")]);
    assert After(u, start + [Take]).seg == s;
    var n := PutHeld(s, 1);
    assert n.queue == [Phrase(1, "B.")];
    assert n.tasks[1] == Task(None, ["C."] + []);
    HoldsFirst(u, n, 1, "C.", []);
    assert n.tasks[1 := Task(Some(Phrase(3, "C.")), [])]
        == map[0 := OVER, 1 := Task(Some(Phrase(3, "C.")), []), 2 := Task(Some(Phrase(2, text)), [])];
  }

  /** The worker takes the only phrase of a full queue, and a task with one phrase left puts it. */
  lemma TakenThenPut(u: Setup, events: seq<Event>, s: Segmenter, first: Phrase, id: TaskId, phrase: Phrase)
    requires u.maxQueue == 1 && After(u, events).seg == s && s.queue == [first]
    requires id in s.tasks && s.tasks[id] == Task(Some(phrase), [])
    ensures After(u, events + [Take] + [Resumes(id)]).seg
         == s.(queue := [phrase], taken := s.taken + [first], tasks := s.tasks[id := OVER])
    ensures After(u, events + [Take] + [Resumes(id)]).text == After(u, events).text
  {
    OneMore(u, events, Take);
    var taken := s.(queue := [], taken := s.taken + [first]);
    assert After(u, events + [Take]).seg == taken;
    OneMore(u, events + [Take], Resumes(id));
    PutsLast(u, taken, id, phrase);
    assert [] + [phrase] == [phrase];
  }

  lemma SecondWoken(u: Setup, start: seq<Event>, text: string)
    requires Letters(u) && After(u, start).seg == ThirdWaits(text)
    ensures After(u, start + [Take] + [Resumes(1)] + [Take] + [Resumes(2)]).seg
         == Segmenter("", 4, [Phrase(2, text)], [Phrase(0, "A."), Phrase(1, "B.")],
                      map[0 := OVER, 1 := Task(Some(Phrase(3, "C.")), []), 2 := OVER])
    ensures After(u, start + [Take] + [Resumes(1)] + [Take] + [Resumes(2)]).text == After(u, start).text
  {
    FirstWoken(u, start, text);
    var events := start + [Take] + [Resumes(1)];
    TakenThenPut(u, events, After(u, events).seg, Phrase(1, "B."), 2, Phrase(2, text));
  }

  /** So the third task's phrase is spoken before the second of task 1, which comes first. */
  lemma WokenOutOfOrder(u: Setup, start: seq<Event>, text: string)
    requires Letters(u) && After(u, start).seg == ThirdWaits(text)
    ensures var s := After(u, Woken(start)).seg;
            && Spoke(s) == [Phrase(0, "A."), Phrase(1, "B."), Phrase(2, text), Phrase(3, "C.")]
            && AllDone(s) && s.buffer == ""
    ensures After(u, Woken(start)).text == After(u, start).text
  {
    SecondWoken(u, start, text);
    var events := start + [Take] + [Resumes(1)] + [Take] + [Resumes(2)];
    TakenThenPut(u, events, After(u, events).seg, Phrase(2, text), 1, Phrase(3, "C."));
  }

  lemma SpokenWord(u: Setup, c: char)
    requires Sane(u) && !u.space(c)
    ensures Spoken(u, [c, '.']) == [c, '.'] && Spoken(u, [c]) == [c] && Spoken(u, [c, '.', ' ']) == [c, '.']
  {
    assert [c][..0] == "";
    SpokenSnoc(u, "", c);
    assert "" + [c] == [c] && [c] + ['.'] == [c, '.'] && [c, '.'] + [' '] == [c, '.', ' '];
    SpokenSnoc(u, [c], '.');
    SpokenSnoc(u, [c, '.'], ' ');
  }

  lemma SpokenFour(u: Setup, a: string, b: string, c: string, d: string)
    ensures SpokenAll(u, [a, b, c, d]) == Spoken(u, a) + Spoken(u, b) + Spoken(u, c) + Spoken(u, d)
  {
    SpokenOne(u, a);
    SpokenLast(u, [a], b);
    assert [a] + [b] == [a, b];
    SpokenLast(u, [a, b], c);
    assert [a, b] + [c] == [a, b, c];
    SpokenLast(u, [a, b, c], d);
    assert [a, b, c] + [d] == [a, b, c, d];
  }

  lemma VoiceOfFour(u: Setup, a: Phrase, b: Phrase, c: Phrase, d: Phrase)
    ensures SpokenAll(u, Texts([a, b, c, d])) == Spoken(u, a.text) + Spoken(u, b.text) + Spoken(u, c.text) + Spoken(u, d.text)
  {
    assert Texts([a, b, c, d]) == [a.text, b.text, c.text, d.text];
    SpokenFour(u, a.text, b.text, c.text, d.text);
  }

  lemma VoiceOfRun(u: Setup, start: seq<Event>, text: string)
    requires Letters(u) && After(u, start).seg == ThirdWaits(text)
    ensures SpokenAll(u, Texts(Spoke(After(u, Woken(start)).seg))) == "A.B." + Spoken(u, text) + "C."
  {
    WokenOutOfOrder(u, start, text);
    VoiceOfFour(u, Phrase(0, "A."), Phrase(1, "B."), Phrase(2, text), Phrase(3, "C."));
    SpokenABC(u);
  }

  lemma SpokenABC(u: Setup)
    requires Letters(u)
    ensures Spoken(u, "A.") + Spoken(u, "B.") == "A.B." && Spoken(u, "C.") == "C."
  {
    SpokenWord(u, 'A');
    SpokenWord(u, 'B');
    SpokenWord(u, 'C');
    assert "A." + "B." == "A.B.";
  }

  /** What is heard in such a run is not what was fed, so it is among those the theorem excludes. */
  lemma HeardWrongly(u: Setup, start: seq<Event>, text: string)
    requires Letters(u) && After(u, start).seg == ThirdWaits(text)
    requires Spoken(u, text) != "" && Spoken(u, text)[0] != 'C'
    requires Spoken(u, After(u, start).text) == "A.B.C." + Spoken(u, text)
    ensures SpokenAll(u, Texts(Spoke(After(u, Woken(start)).seg))) == "A.B." + Spoken(u, text) + "C."
    ensures !NeverOvertaken(u, Woken(start))
  {
    WokenOutOfOrder(u, start, text);
    VoiceOfRun(u, start, text);
    var voice := "A.B." + Spoken(u, text) + "C.";
    assert voice[4] != ("A.B.C." + Spoken(u, text))[4];
    assert Spoken(u, "") == "" && voice + "" == voice;
    if NeverOvertaken(u, Woken(start)) {
      ReplyIsSpokenOnce(u, Woken(start));
    }
  }

  lemma SpokenThree(u: Setup, a: string, b: string, c: string)
    ensures Spoken(u, a + b + c) == Spoken(u, a) + Spoken(u, b) + Spoken(u, c)
  {
    SpokenAppend(u, a, b);
    SpokenAppend(u, a + b, c);
  }

  lemma SpokenWords(u: Setup)
    requires Letters(u)
    ensures Spoken(u, "A. " + ("B. C. " + "D")) == "A.B.C." + "D"
    ensures Spoken(u, "A. " + ("B. C. " + "") + "E. ") == "A.B.C." + "E."
  {
    SpokenBC(u);
    SpokenWord(u, 'A');
    SpokenWord(u, 'D');
    SpokenWord(u, 'E');
    Assoc("A. ", "B. C. ", "D");
    SpokenThree(u, "A. ", "B. C. ", "D");
    assert "B. C. " + "" == "B. C. ";
    SpokenThree(u, "A. ", "B. C. ", "E. ");
    assert "A." + "B.C." == "A.B.C.";
  }

  lemma SpokenBC(u: Setup)
    requires Letters(u)
    ensures Spoken(u, "B. C. ") == "B.C."
  {
    SpokenWord(u, 'B');
    SpokenWord(u, 'C');
    SpokenAppend(u, "B. ", "C. ");
    assert "B. " + "C. " == "B. C. ";
  }

  /** A flush overtakes: "A. B. C. D" is spoken as "A. B. D C." */
  lemma FlushOvertakes(u: Setup)
    requires Letters(u)
    ensures var run := Woken(HeldUp("B. C. " + "D") + [Flush(2)]);
            && SpokenAll(u, Texts(Spoke(After(u, run).seg))) == "A.B." + "D" + "C."
            && !NeverOvertaken(u, run)
  {
    FlushWaits(u);
    SpokenWords(u);
    SpokenWord(u, 'D');
    HeardWrongly(u, HeldUp("B. C. " + "D") + [Flush(2)], "D");
  }

  /** Two replies that feed at once overtake each other without any flush: "A. B. C. " and then "E. "
      are spoken as "A. B. E. C." */
  lemma RepliesOvertake(u: Setup)
    requires Letters(u)
    ensures var run := Woken(HeldUp("B. C. " + "") + [Feed(2, "E. ", false)]);
            && SpokenAll(u, Texts(Spoke(After(u, run).seg))) == "A.B." + "E." + "C."
            && !NeverOvertaken(u, run)
  {
    OtherReplyWaits(u);
    SpokenWords(u);
    SpokenWord(u, 'E');
    HeardWrongly(u, HeldUp("B. C. " + "") + [Feed(2, "E. ", false)], "E.");
  }

  /** A feed cancelled while it waits loses all it had still to put. */
  lemma CancelledFeedLoses(u: Setup)
    requires Letters(u)
    ensures var h := After(u, HeldUp("B. C. " + "D") + [Cancelled(1)]);
            Spoke(h.seg) == [Phrase(0, "A.")] && AllDone(h.seg) && h.seg.buffer == "D" && h.text == "A. " + ("B. C. " + "D")
  {
    FeedWaits(u, "D");
    OneMore(u, HeldUp("B. C. " + "D"), Cancelled(1));
  }

  /** And so does a timer that the next token cancels while it waits. */
  lemma CancelledTimerLoses(u: Setup)
    requires Letters(u)
    ensures var h := After(u, HeldUp("B. C. " + "D") + [Flush(2)] + [Cancelled(2)]);
            && h.seg.tasks[2 := OVER] == h.seg.tasks && h.seg.buffer == "" && Spoke(h.seg) == [Phrase(0, "A.")]
            && forall id :: id in h.seg.tasks && !Done(h.seg.tasks[id]) ==>
                 h.seg.tasks[id] == Task(Some(Phrase(1, "B.")), ["C."])
  {
    FlushWaits(u);
    OneMore(u, HeldUp("B. C. " + "D") + [Flush(2)], Cancelled(2));
  }

  // ---- The processor itself ----

  type Byte = x: int | 0 <= x < 256
  type Bytes = seq<Byte>

  const MIN_CHUNK_BYTES := 640

  datatype Chunk = Chunk(phraseId: nat, index: nat, sequence: nat, isLast: bool, pcm: Bytes)

  function Audio(chunks: seq<Chunk>): Bytes {
    if chunks == [] then [] else Audio(chunks[..|chunks| - 1]) + chunks[|chunks| - 1].pcm
  }

  /** Each chunk's bytes are there, whole, right behind those before it. */
  lemma {:induction false} ChunksAbut(chunks: seq<Chunk>, i: nat)
    requires i < |chunks|
    ensures |Audio([])| == 0
    ensures |Audio(chunks[..i])| + |chunks[i].pcm| == |Audio(chunks[..i + 1])| <= |Audio(chunks)|
    ensures Audio(chunks)[|Audio(chunks[..i])|..|Audio(chunks[..i + 1])|] == chunks[i].pcm
  {
    var init := chunks[..|chunks| - 1];
    if i < |init| {
      ChunksAbut(init, i);
      assert init[..i] == chunks[..i] && init[..i + 1] == chunks[..i + 1];
    } else {
      assert chunks[..i + 1] == chunks;
    }
  }

  class Processor {
    const setup: Setup
    const chunkBytes: nat
    var buffer: string
    var nextId: nat
    var queue: seq<Phrase>
    var taken: seq<Phrase>
    var tasks: map<TaskId, Task>
    var nextAudioSequence: nat

    function Now(): Segmenter
      reads this
    {
      Segmenter(buffer, nextId, queue, taken, tasks)
    }

    constructor (setup: Setup, chunkMs: nat)
      requires Sane(setup) && chunkMs > 0
      ensures this.setup == setup && Now() == FRESH && nextAudioSequence == 0
      ensures chunkBytes >= 640 && chunkBytes >= 32 * chunkMs
      ensures chunkBytes == 640 || chunkBytes == 32 * chunkMs
    {
      this.setup := setup;
      chunkBytes := if chunkMs * 32 >= MIN_CHUNK_BYTES then chunkMs * 32 else MIN_CHUNK_BYTES;
      buffer, nextId, queue, taken := "", 0, [], [];
      tasks := map[];
      nextAudioSequence := 0;
    }

    method DrainReadyPhrases(isFinal: bool) returns (phrases: seq<string>)
      modifies this`buffer
      ensures Drain(phrases, buffer) == DrainedReady(setup, old(buffer), isFinal)
    {
      var pending := buffer;
      phrases := [];
      while true
        invariant Drained(setup, old(buffer)) ==
                    Drain(phrases + Drained(setup, pending).phrases, Drained(setup, pending).pending)
        invariant buffer == old(buffer)
        decreases |pending|
      {
        var cut := FindPhraseBreak(setup, pending);
        if cut < 0 {
          assert phrases + [] == phrases;
          break;
        }
        DrainedFrom(setup, phrases, pending);
        var phrase := Strip(setup.space, pending[..cut]);
        if phrase != "" {
          phrases := phrases + [phrase];
        }
        pending := pending[cut..];
      }
      if isFinal && Strip(setup.space, pending) != "" {
        phrases := phrases + [Strip(setup.space, pending)];
        pending := "";
      }
      buffer := pending;
    }

    /** A new feed, up to its end or to its first put that has to wait. */
    method FeedText(id: TaskId, delta: string, isFinal: bool)
      requires id !in tasks
      modifies this`buffer, this`nextId, this`queue, this`tasks
      ensures Now() == Stepped(setup, old(Now()), Feed(id, delta, isFinal))
    {
      buffer := buffer + delta;
      var ready := DrainReadyPhrases(isFinal);
      tasks := tasks[id := Task(None, ready)];
      EnqueuePhrases(id);
    }

    /** A task's loop over its phrases, from its start or from the put it waits in. */
    method EnqueuePhrases(id: TaskId)
      requires id in tasks
      modifies this`nextId, this`queue, this`tasks
      ensures Now() == GoesOn(setup, old(Now()), id)
    {
      while (tasks[id].held.Some? && |queue| < setup.maxQueue) || (tasks[id].held.None? && tasks[id].ready != [])
        invariant id in tasks
        invariant GoesOn(setup, Now(), id) == GoesOn(setup, old(Now()), id)
        decreases |tasks[id].ready|, if tasks[id].held.Some? then 1 else 0
      {
        var t := tasks[id];
        if t.held.Some? {
          queue := queue + [t.held.value];
          tasks := tasks[id := t.(held := None)];
        } else {
          var text := Normalized(setup, t.ready[0]);
          if text == "" {
            tasks := tasks[id := Task(None, t.ready[1..])];
          } else {
            tasks := tasks[id := Task(Some(Phrase(nextId, text)), t.ready[1..])];
            nextId := nextId + 1;
          }
        }
      }
    }

    /** The flush timer has run out. */
    method ForceFlush(id: TaskId)
      requires id !in tasks
      modifies this`buffer, this`nextId, this`queue, this`tasks
      ensures Now() == Stepped(setup, old(Now()), Flush(id))
    {
      var pending := Strip(setup.space, buffer);
      buffer := "";
      tasks := tasks[id := Task(None, if pending == "" then [] else [pending])];
      if pending != "" {
        EnqueuePhrases(id);
      }
    }

    /** A cancelled task puts nothing more. */
    method CancelTask(id: TaskId)
      requires id in tasks
      modifies this`tasks
      ensures Now() == Stepped(setup, old(Now()), Cancelled(id))
    {
      tasks := tasks[id := Task(None, [])];
    }

    /** The chunks of one phrase's audio: all of it, in order and in full chunks but for the last,
        which alone is marked; sequence numbers continue where the previous phrase left off. */
    method EmitAudioChunks(phraseId: nat, pcm: Bytes) returns (chunks: seq<Chunk>)
      requires chunkBytes >= MIN_CHUNK_BYTES
      modifies this`nextAudioSequence
      ensures Audio(chunks) == pcm
      ensures chunks == [] <==> pcm == []
      ensures nextAudioSequence == old(nextAudioSequence) + |chunks|
      ensures forall i :: 0 <= i < |chunks| ==>
                && chunks[i].phraseId == phraseId && chunks[i].index == i
                && chunks[i].sequence == old(nextAudioSequence) + i
                && (chunks[i].isLast <==> i == |chunks| - 1)
                && chunks[i].pcm != []
                && (i < |chunks| - 1 ==> |chunks[i].pcm| == chunkBytes)
                && |chunks[i].pcm| <= chunkBytes
    {
      chunks := [];
      var offset := 0;
      while offset < |pcm|
        invariant 0 <= offset <= |pcm|
        invariant Audio(chunks) == pcm[..offset]
        invariant chunks == [] <==> offset == 0
        invariant nextAudioSequence == old(nextAudioSequence) + |chunks|
        invariant forall i :: 0 <= i < |chunks| ==>
                    && chunks[i].phraseId == phraseId && chunks[i].index == i
                    && chunks[i].sequence == old(nextAudioSequence) + i
                    && (chunks[i].isLast <==> i == |chunks| - 1 && offset == |pcm|)
                    && chunks[i].pcm != []
                    && (i < |chunks| - 1 || offset < |pcm| ==> |chunks[i].pcm| == chunkBytes)
                    && |chunks[i].pcm| <= chunkBytes
      {
        var end := if offset + chunkBytes <= |pcm| then offset + chunkBytes else |pcm|;
        var chunk := Chunk(phraseId, |chunks|, nextAudioSequence, end >= |pcm|, pcm[offset..end]);
        ghost var before := chunks;
        chunks := chunks + [chunk];
        assert chunks[..|chunks| - 1] == before;
        assert pcm[..end] == pcm[..offset] + pcm[offset..end];
        nextAudioSequence := nextAudioSequence + 1;
        offset := end;
      }
      assert pcm[..offset] == pcm;
    }
  }
}
