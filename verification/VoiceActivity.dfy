/** The voice activity detector and its utterance buffer: from a stream of audio frames to partial
    and final recognition jobs. Durations are counted in bytes of 16 kHz mono PCM, 32 per
    millisecond. A frame that barges in is suspended inside its handling, and other events come in
    between. Whether a frame is loud enough to be speech, and whether the partial timer has
    run out, are inputs. */
module VoiceActivity {
  type Byte = x: int | 0 <= x < 256
  type Bytes = seq<Byte>

  const BYTES_PER_MS := 32

  datatype Params = Params(
    preRollBytes: nat,
    speechStartFrames: nat,
    silenceTimeout: nat,
    maxUtterance: nat,
    partialMinBytes: nat,
    partialMinSpeechMs: nat,
    partialWindow: nat,
    finalMinSpeechMs: nat,
    bargeInEnabled: bool)

  /** The lower limits the extension enforces when it reads its properties. */
  predicate ValidParams(p: Params) {
    && p.speechStartFrames >= 1
    && p.silenceTimeout >= 200 * BYTES_PER_MS
    && p.maxUtterance >= 2000 * BYTES_PER_MS
    && p.partialMinBytes >= 640
    && p.partialWindow >= p.partialMinBytes
  }

  datatype Stats = NoStats | Stats(frames: nat, speechFrames: nat)

  /** A speech frame whose task waits inside the barge-in handling: first for the flush timer and
      the release timer to be cancelled, then, with the assistant marked silent, for its speech to
      be stopped. */
  datatype Held = Held(payload: Bytes, silenced: bool)

  datatype Vad = Vad(
    preRoll: Bytes,
    utterance: Bytes,
    speaking: bool,
    silence: nat,
    pendingSpeechFrames: nat,
    stats: Stats,
    assistantSpeaking: bool,
    suspended: seq<Held>)

  const FRESH := Vad([], [], false, 0, 0, NoStats, false, [])

  datatype Trigger = MaxUtterance | VadSilence | Flush | SessionEnd

  datatype Job = Partial(pcm: Bytes) | Final(trigger: Trigger, pcm: Bytes)

  function Suffix(s: Bytes, n: nat): Bytes {
    if |s| <= n then s else s[|s| - n..]
  }

  function SpeechMs(v: Vad): real {
    if v.stats.NoStats? || v.utterance == [] || v.stats.frames == 0 then 0.0
    else v.stats.speechFrames as real * ((|v.utterance| as real / BYTES_PER_MS as real) / v.stats.frames as real)
  }

  function Reset(v: Vad): Vad {
    v.(utterance := [], speaking := false, silence := 0, pendingSpeechFrames := 0, stats := NoStats)
  }

  function Recorded(stats: Stats, speech: bool): Stats {
    var base := if stats.NoStats? then Stats(0, 0) else stats;
    Stats(base.frames + 1, base.speechFrames + if speech then 1 else 0)
  }

  // ---- One frame ----

  function Finalized(v: Vad, trigger: Trigger): (Vad, seq<Job>) {
    if !v.speaking || v.utterance == [] then (v, [])
    else (Reset(v), [Final(trigger, v.utterance)])
  }

  function SpeechHeard(p: Params, v: Vad, payload: Bytes, partialDue: bool): (Vad, seq<Job>) {
    var counted := v.(pendingSpeechFrames := v.pendingSpeechFrames + 1);
    if !v.speaking && counted.pendingSpeechFrames < p.speechStartFrames then (counted, [])
    else
      var onset := if v.speaking then counted
                   else counted.(speaking := true, stats := Stats(0, 0), silence := 0,
                                 utterance := if v.utterance == [] then v.preRoll else v.utterance);
      var grown := onset.(utterance := onset.utterance + payload, silence := 0,
                          stats := Recorded(onset.stats, true));
      var partials :=
        if partialDue && |grown.utterance| >= p.partialMinBytes && SpeechMs(grown) >= p.partialMinSpeechMs as real
        then [Partial(Suffix(grown.utterance, p.partialWindow))] else [];
      if |grown.utterance| >= p.maxUtterance then
        var (v', finals) := Finalized(grown, MaxUtterance);
        (v', partials + finals)
      else (grown, partials)
  }

  function SilenceHeard(p: Params, v: Vad, payload: Bytes): (Vad, seq<Job>) {
    var quiet := v.(pendingSpeechFrames := 0);
    if !v.speaking then (quiet, [])
    else
      var grown := quiet.(utterance := v.utterance + payload, silence := v.silence + |payload|,
                          stats := Recorded(v.stats, false));
      if grown.silence < p.silenceTimeout then (grown, [])
      else if SpeechMs(grown) < p.finalMinSpeechMs as real then (Reset(grown), [])
      else Finalized(grown, VadSilence)
  }

  datatype Event =
    | Frame(payload: Bytes, speech: bool, partialDue: bool)
    | Silences(i: nat)
    | Resumes(i: nat, partialDue: bool)
    | AssistantTurn(speaking: bool)
    | Suppressed
    | FlushCommand
    | EndUtterance
    | SessionReset

  /** The event lets the i-th suspended frame go on. */
  predicate LetsGoOn(v: Vad, e: Event) {
    e.Resumes? && e.i < |v.suspended| && v.suspended[e.i].silenced
  }

  /** A frame first joins the pre-roll; while the assistant speaks it goes no further, unless it
      is speech that barges in, which waits for the assistant to be stopped and is then heard like
      any other, whatever has come in between. `Suppressed` is a rejected final, which resets
      whatever utterance is in progress by then; a reset of the session leaves suspended frames. */
  function Stepped(p: Params, v: Vad, e: Event): (Vad, seq<Job>) {
    match e
    case Frame(payload, speech, partialDue) =>
      if payload == [] then (v, [])
      else
        var rolled := v.(preRoll := Suffix(v.preRoll + payload, p.preRollBytes));
        if v.assistantSpeaking then
          (if p.bargeInEnabled && speech then rolled.(suspended := v.suspended + [Held(payload, false)]) else rolled, [])
        else if speech then SpeechHeard(p, rolled, payload, partialDue)
        else SilenceHeard(p, rolled, payload)
    case Silences(i) =>
      (if i < |v.suspended| && !v.suspended[i].silenced
       then v.(assistantSpeaking := false, suspended := v.suspended[i := v.suspended[i].(silenced := true)])
       else v, [])
    case Resumes(i, partialDue) =>
      if !LetsGoOn(v, e) then (v, [])
      else
        SpeechHeard(p, v.(suspended := v.suspended[..i] + v.suspended[i + 1..]), v.suspended[i].payload, partialDue)
    case AssistantTurn(speaking) => (v.(assistantSpeaking := speaking), [])
    case Suppressed => (Reset(v), [])
    case FlushCommand => (Reset(v), if v.utterance == [] then [] else [Final(Flush, v.utterance)])
    case EndUtterance => Finalized(v, SessionEnd)
    case SessionReset => (FRESH.(suspended := v.suspended), [])
  }

  function Fold(step: (Vad, Event) -> Vad, v: Vad, events: seq<Event>): Vad {
    if events == [] then v else step(Fold(step, v, events[..|events| - 1]), events[|events| - 1])
  }

  function StepOf(p: Params): (Vad, Event) -> Vad {
    (v: Vad, e: Event) => Stepped(p, v, e).0
  }

  /** The detector after a session's events so far. */
  function After(p: Params, events: seq<Event>): Vad {
    Fold(StepOf(p), FRESH, events)
  }

  lemma AfterOneMore(p: Params, events: seq<Event>, e: Event)
    ensures After(p, events + [e]) == Stepped(p, After(p, events), e).0
  {
    assert (events + [e])[..|events + [e]| - 1] == events;
  }

  lemma {:induction false} FoldAppend(step: (Vad, Event) -> Vad, v: Vad, a: seq<Event>, b: seq<Event>)
    ensures Fold(step, v, a + b) == Fold(step, Fold(step, v, a), b)
    decreases |b|
  {
    if b == [] {
      assert a + b == a;
    } else {
      FoldAppend(step, v, a, b[..|b| - 1]);
      assert (a + b)[..|a + b| - 1] == a + b[..|b| - 1];
    }
  }

  // ---- The invariant of every run ----

  predicate Inv(p: Params, v: Vad) {
    && |v.preRoll| <= p.preRollBytes
    && (forall i :: 0 <= i < |v.suspended| ==> v.suspended[i].payload != [])
    && (!v.speaking ==> v.utterance == [] && v.silence == 0 && v.stats == NoStats)
    && (v.speaking ==>
          && v.utterance != []
          && v.silence <= |v.utterance|
          && |v.utterance| - v.silence < p.maxUtterance
          && v.silence < p.silenceTimeout
          && v.stats.Stats? && 1 <= v.stats.frames && v.stats.speechFrames <= v.stats.frames)
  }

  /** The audio an event brings to the utterance: that of a frame heard at once, or of a suspended
      one that goes on. */
  function Brings(v: Vad, e: Event): Bytes {
    if e.Frame? && !v.assistantSpeaking then e.payload
    else if LetsGoOn(v, e) then v.suspended[e.i].payload
    else []
  }

  /** The utterance as it stands once an event has been heard: its audio extends it, or opens it
      behind the recent audio, which for an arriving frame already ends with that frame. */
  function Heard(p: Params, v: Vad, e: Event): Bytes {
    if Brings(v, e) == [] then v.utterance
    else if v.speaking then v.utterance + Brings(v, e)
    else Suffix(v.preRoll + (if e.Frame? then e.payload else []), p.preRollBytes) + Brings(v, e)
  }

  /** Every job a step may emit: a partial is the end of the utterance, a final all of it, and
      no final outgrows the limits by more than the frame that closed it. */
  predicate JobOk(p: Params, v: Vad, e: Event, job: Job) {
    match job
    case Partial(pcm) =>
      && pcm == Suffix(Heard(p, v, e), p.partialWindow)
      && Brings(v, e) != [] && |pcm| >= p.partialMinBytes
    case Final(trigger, pcm) =>
      && pcm == Heard(p, v, e) && pcm != []
      && (|pcm| < p.maxUtterance + p.silenceTimeout + |Brings(v, e)|
          || (!v.speaking && |pcm| <= p.preRollBytes + |Brings(v, e)|))
  }

  lemma SpeechOk(p: Params, v: Vad, payload: Bytes, partialDue: bool)
    requires ValidParams(p) && Inv(p, v) && payload != []
    ensures var (v', jobs) := SpeechHeard(p, v, payload, partialDue);
            var heard := (if v.speaking then v.utterance else v.preRoll) + payload;
            && Inv(p, v')
            && (forall i :: 0 <= i < |jobs| ==>
                  if jobs[i].Partial? then jobs[i].pcm == Suffix(heard, p.partialWindow) && |jobs[i].pcm| >= p.partialMinBytes
                  else jobs[i].pcm == heard)
  {
  }

  lemma SilenceOk(p: Params, v: Vad, payload: Bytes)
    requires ValidParams(p) && Inv(p, v) && payload != []
    ensures var (v', jobs) := SilenceHeard(p, v, payload);
            && Inv(p, v')
            && (forall i :: 0 <= i < |jobs| ==> jobs[i].Final? && v.speaking && jobs[i].pcm == v.utterance + payload)
  {
  }

  lemma StepOk(p: Params, v: Vad, e: Event)
    requires ValidParams(p) && Inv(p, v)
    ensures var (v', jobs) := Stepped(p, v, e);
            && Inv(p, v')
            && forall i :: 0 <= i < |jobs| ==> JobOk(p, v, e, jobs[i])
  {
    match e
    case Frame(payload, speech, partialDue) => FrameOk(p, v, payload, speech, partialDue);
    case Silences(i) =>
    case Resumes(i, partialDue) => ResumeOk(p, v, i, partialDue);
    case AssistantTurn(speaking) =>
    case Suppressed =>
    case FlushCommand =>
    case EndUtterance =>
    case SessionReset =>
  }

  lemma FrameOk(p: Params, v: Vad, payload: Bytes, speech: bool, partialDue: bool)
    requires ValidParams(p) && Inv(p, v)
    ensures var e := Frame(payload, speech, partialDue);
            var (v', jobs) := Stepped(p, v, e);
            && Inv(p, v')
            && forall i :: 0 <= i < |jobs| ==> JobOk(p, v, e, jobs[i])
  {
    var rolled := v.(preRoll := Suffix(v.preRoll + payload, p.preRollBytes));
    if payload != [] && !v.assistantSpeaking {
      if speech {
        SpeechOk(p, rolled, payload, partialDue);
      } else {
        SilenceOk(p, rolled, payload);
      }
    }
  }

  lemma ResumeOk(p: Params, v: Vad, i: nat, partialDue: bool)
    requires ValidParams(p) && Inv(p, v)
    ensures var e := Resumes(i, partialDue);
            var (v', jobs) := Stepped(p, v, e);
            && Inv(p, v')
            && forall i :: 0 <= i < |jobs| ==> JobOk(p, v, e, jobs[i])
  {
    var e := Resumes(i, partialDue);
    if LetsGoOn(v, e) {
      SpeechOk(p, v.(suspended := v.suspended[..i] + v.suspended[i + 1..]), v.suspended[i].payload, partialDue);
      assert v.preRoll + [] == v.preRoll;
    }
  }

  lemma {:induction false} RunInv(p: Params, events: seq<Event>)
    requires ValidParams(p)
    ensures Inv(p, After(p, events))
  {
    if events != [] {
      RunInv(p, events[..|events| - 1]);
      StepOk(p, After(p, events[..|events| - 1]), events[|events| - 1]);
    }
  }

  // ---- What is recognised ----

  /** The speech time, the audio time's share of speech frames, compared without dividing. */
  lemma SpeechMsReaches(v: Vad, ms: nat)
    requires v.stats.Stats? && v.stats.frames > 0
    ensures SpeechMs(v) >= ms as real <==> v.stats.speechFrames * |v.utterance| >= 32 * ms * v.stats.frames
  {
    var s, f, n := v.stats.speechFrames, v.stats.frames, |v.utterance|;
    if v.utterance == [] {
      ZeroReaches(s, ms, f);
    } else {
      ShareReaches(s as real, n as real, f as real, ms as real);
      CastReaches(s, n, f, ms);
    }
  }

  lemma ZeroReaches(s: nat, ms: nat, f: nat)
    requires f > 0
    ensures s * 0 >= 32 * ms * f <==> ms == 0
  {
    if ms > 0 {
      assert ms * f >= 1;
    }
  }

  lemma ShareReaches(s: real, n: real, f: real, ms: real)
    requires f > 0.0
    ensures s * ((n / 32.0) / f) >= ms <==> s * n >= 32.0 * ms * f
  {
    var each := (n / 32.0) / f;
    assert n == 32.0 * (each * f);
    assert s * n == (s * each) * (32.0 * f);
    if s * each >= ms {
      assert (s * each) * (32.0 * f) >= ms * (32.0 * f);
    } else {
      assert (s * each) * (32.0 * f) < ms * (32.0 * f);
    }
  }

  lemma CastReaches(s: nat, n: nat, f: nat, ms: nat)
    ensures s as real * n as real >= 32.0 * ms as real * f as real <==> s * n >= 32 * ms * f
  {
    assert s as real * n as real == (s * n) as real;
    assert 32.0 * ms as real * f as real == (32 * ms * f) as real;
  }

  /** The event brings a frame of speech, not of silence, to be heard. */
  predicate HearsSpeech(v: Vad, e: Event) {
    Brings(v, e) != [] && (e.Resumes? || (e.Frame? && e.speech))
  }

  predicate HearsSilence(v: Vad, e: Event) {
    Brings(v, e) != [] && e.Frame? && !e.speech
  }

  /** The frames of the utterance once this one is heard, and those of them with speech. */
  function FramesHeard(v: Vad): nat {
    1 + if v.speaking && v.stats.Stats? then v.stats.frames else 0
  }

  function SpeechFramesHeard(v: Vad, e: Event): nat {
    (if HearsSpeech(v, e) then 1 else 0) + if v.speaking && v.stats.Stats? then v.stats.speechFrames else 0
  }

  /** Of the utterance as heard, enough is speech. */
  predicate SpeechReaches(p: Params, v: Vad, e: Event, ms: nat) {
    SpeechFramesHeard(v, e) * |Heard(p, v, e)| >= 32 * ms * FramesHeard(v)
  }

  lemma ReachesWhenHeard(p: Params, v: Vad, e: Event, w: Vad, ms: nat)
    requires w.utterance == Heard(p, v, e) && w.stats == Stats(FramesHeard(v), SpeechFramesHeard(v, e))
    ensures SpeechMs(w) >= ms as real <==> SpeechReaches(p, v, e, ms)
  {
    SpeechMsReaches(w, ms);
  }

  /** Silence ends an utterance exactly when, with this frame, it has lasted for the timeout; then the
      whole utterance is recognised exactly if enough of it is speech. */
  lemma SilenceMeans(p: Params, v: Vad, e: Event)
    requires ValidParams(p) && Inv(p, v) && HearsSilence(v, e)
    ensures var (v', jobs) := Stepped(p, v, e);
            && v'.pendingSpeechFrames == 0
            && (v'.speaking <==> v.speaking && v.silence + |e.payload| < p.silenceTimeout)
            && (v'.speaking ==>
                  && v'.utterance == v.utterance + e.payload && v'.silence == v.silence + |e.payload|
                  && v'.stats == Stats(FramesHeard(v), SpeechFramesHeard(v, e)))
            && jobs == if v.speaking && v.silence + |e.payload| >= p.silenceTimeout
                          && SpeechReaches(p, v, e, p.finalMinSpeechMs)
                       then [Final(VadSilence, v.utterance + e.payload)] else []
  {
    if v.speaking {
      var grown := v.(preRoll := Suffix(v.preRoll + e.payload, p.preRollBytes), pendingSpeechFrames := 0,
                      utterance := v.utterance + e.payload, silence := v.silence + |e.payload|,
                      stats := Recorded(v.stats, false));
      ReachesWhenHeard(p, v, e, grown, p.finalMinSpeechMs);
    }
  }

  /** The partial a frame of speech gives rise to: one exactly when the timer has run out and there is
      enough audio, and enough speech in it. */
  function PartialsHeard(p: Params, v: Vad, e: Event): seq<Job>
    requires e.Frame? || e.Resumes?
  {
    if e.partialDue && |Heard(p, v, e)| >= p.partialMinBytes && SpeechReaches(p, v, e, p.partialMinSpeechMs)
    then [Partial(Suffix(Heard(p, v, e), p.partialWindow))] else []
  }

  /** Speech counts towards an onset, and opens an utterance exactly when enough frames of it have
      come in a row; an utterance that reaches its maximum is recognised at once. */
  lemma SpeechMeans(p: Params, v: Vad, e: Event)
    requires ValidParams(p) && Inv(p, v) && HearsSpeech(v, e)
    ensures var (v', jobs) := Stepped(p, v, e);
            var heard := Heard(p, v, e);
            if !v.speaking && v.pendingSpeechFrames + 1 < p.speechStartFrames
            then !v'.speaking && v'.pendingSpeechFrames == v.pendingSpeechFrames + 1 && jobs == []
            else
              && (v'.speaking <==> |heard| < p.maxUtterance)
              && jobs == PartialsHeard(p, v, e) + (if |heard| < p.maxUtterance then [] else [Final(MaxUtterance, heard)])
              && v'.pendingSpeechFrames == (if v'.speaking then v.pendingSpeechFrames + 1 else 0)
              && (v'.speaking ==>
                    v'.utterance == heard && v'.silence == 0 && v'.stats == Stats(FramesHeard(v), SpeechFramesHeard(v, e)))
  {
    var rolled := if e.Frame? then v.(preRoll := Suffix(v.preRoll + e.payload, p.preRollBytes))
                  else v.(suspended := v.suspended[..e.i] + v.suspended[e.i + 1..]);
    SpeechHeardMeans(p, v, rolled, e, Brings(v, e));
  }

  lemma SpeechHeardMeans(p: Params, v: Vad, rolled: Vad, e: Event, payload: Bytes)
    requires ValidParams(p) && Inv(p, v) && HearsSpeech(v, e) && payload == Brings(v, e)
    requires rolled == v.(preRoll := rolled.preRoll, suspended := rolled.suspended)
    requires (if v.speaking then v.utterance else rolled.preRoll) + payload == Heard(p, v, e)
    ensures var (v', jobs) := SpeechHeard(p, rolled, payload, e.partialDue);
            var heard := Heard(p, v, e);
            if !v.speaking && v.pendingSpeechFrames + 1 < p.speechStartFrames
            then !v'.speaking && v'.pendingSpeechFrames == v.pendingSpeechFrames + 1 && jobs == []
            else
              && (v'.speaking <==> |heard| < p.maxUtterance)
              && jobs == PartialsHeard(p, v, e) + (if |heard| < p.maxUtterance then [] else [Final(MaxUtterance, heard)])
              && v'.pendingSpeechFrames == (if v'.speaking then v.pendingSpeechFrames + 1 else 0)
              && (v'.speaking ==>
                    v'.utterance == heard && v'.silence == 0 && v'.stats == Stats(FramesHeard(v), SpeechFramesHeard(v, e)))
  {
    var grown := rolled.(pendingSpeechFrames := v.pendingSpeechFrames + 1, speaking := true, silence := 0,
                         utterance := Heard(p, v, e), stats := Stats(FramesHeard(v), SpeechFramesHeard(v, e)));
    ReachesWhenHeard(p, v, e, grown, p.partialMinSpeechMs);
  }

  /** What else an event may do: while the assistant speaks no frame is heard, a command to flush or to
      end recognises what there is, and nothing else gives rise to a job. */
  lemma OthersMean(p: Params, v: Vad, e: Event)
    requires ValidParams(p) && Inv(p, v) && Brings(v, e) == []
    ensures var (v', jobs) := Stepped(p, v, e);
            && jobs == (if v.utterance == [] then []
                        else if e.FlushCommand? then [Final(Flush, v.utterance)]
                        else if e.EndUtterance? then [Final(SessionEnd, v.utterance)] else [])
            && (e.FlushCommand? || e.EndUtterance? || e.Suppressed? || e.SessionReset? ==> !v'.speaking)
            && (e.FlushCommand? || e.Suppressed? || e.SessionReset? ==> v'.pendingSpeechFrames == 0)
            && (e.Frame? || e.Silences? || e.Resumes? || e.AssistantTurn? ==>
                  v' == v.(preRoll := v'.preRoll, assistantSpeaking := v'.assistantSpeaking, suspended := v'.suspended))
            && v'.assistantSpeaking
               == (if e.AssistantTurn? then e.speaking
                   else v.assistantSpeaking && !e.SessionReset? && !(v'.suspended != v.suspended && e.Silences?))
  {
  }

  /** A frame of speech that arrives while the assistant speaks is suspended exactly if it may barge in.
      It is heard once, and only after the assistant was marked silent on its account. */
  lemma SuspendedMeans(p: Params, v: Vad, e: Event)
    ensures var w := Stepped(p, v, e).0.suspended;
            w == match e
                 case Frame(payload, speech, _) =>
                   if v.assistantSpeaking && p.bargeInEnabled && speech && payload != []
                   then v.suspended + [Held(payload, false)] else v.suspended
                 case Silences(i) =>
                   if i < |v.suspended| then v.suspended[i := Held(v.suspended[i].payload, true)] else v.suspended
                 case Resumes(i, _) =>
                   if i < |v.suspended| && v.suspended[i].silenced
                   then v.suspended[..i] + v.suspended[i + 1..] else v.suspended
                 case _ => v.suspended
    ensures e.Resumes? && e.i < |v.suspended| && !v.suspended[e.i].silenced ==> Stepped(p, v, e) == (v, [])
  {
  }

  /** An utterance that ends is recognised, all of it, unless it is suppressed, the session is reset, or
      the silence at its end finds too little speech. */
  lemma EndsRecognised(p: Params, v: Vad, e: Event)
    requires ValidParams(p) && Inv(p, v) && v.speaking && !Stepped(p, v, e).0.speaking
    ensures var jobs := Stepped(p, v, e).1;
            || (jobs != [] && jobs[|jobs| - 1].Final? && jobs[|jobs| - 1].pcm == v.utterance + Brings(v, e))
            || (jobs == [] && (e.Suppressed? || e.SessionReset?))
            || (jobs == [] && HearsSilence(v, e) && v.silence + |e.payload| >= p.silenceTimeout
                && !SpeechReaches(p, v, e, p.finalMinSpeechMs))
  {
    assert v.utterance + [] == v.utterance;
    if HearsSilence(v, e) {
      SilenceMeans(p, v, e);
    } else if HearsSpeech(v, e) {
      SpeechMeans(p, v, e);
    } else {
      OthersMean(p, v, e);
    }
  }

  /** With a pre-roll no longer than an utterance may be, every final emitted in any run is
      shorter than the maximum plus the silence timeout plus the frame that closed it. */
  lemma FinalsAreBounded(p: Params, events: seq<Event>, e: Event)
    requires ValidParams(p)
    requires p.preRollBytes < p.maxUtterance + p.silenceTimeout
    ensures var jobs := Stepped(p, After(p, events), e).1;
            forall i :: 0 <= i < |jobs| && jobs[i].Final? ==>
              0 < |jobs[i].pcm| < p.maxUtterance + p.silenceTimeout + |Brings(After(p, events), e)|
  {
    RunInv(p, events);
    StepOk(p, After(p, events), e);
  }

  function Zeros(n: nat): Bytes {
    seq(n, i => 0)
  }

  /** A full pre-roll of silence, then single-byte speech frames just short of an onset. */
  function LeadIn(p: Params, k: nat): seq<Event> {
    if k == 0 then [Frame(Zeros(p.preRollBytes), false, false)] else LeadIn(p, k - 1) + [Frame([0], true, false)]
  }

  lemma {:induction false} LeadInState(p: Params, k: nat)
    requires ValidParams(p) && p.preRollBytes > 0 && k < p.speechStartFrames
    ensures var v := After(p, LeadIn(p, k));
            !v.speaking && !v.assistantSpeaking && v.pendingSpeechFrames == k && |v.preRoll| == p.preRollBytes
            && v.utterance == []
  {
    if k == 0 {
      assert LeadIn(p, 0) == [] + [Frame(Zeros(p.preRollBytes), false, false)];
      AfterOneMore(p, [], Frame(Zeros(p.preRollBytes), false, false));
      assert [] + Zeros(p.preRollBytes) == Zeros(p.preRollBytes);
    } else {
      LeadInState(p, k - 1);
      AfterOneMore(p, LeadIn(p, k - 1), Frame([0], true, false));
    }
  }

  ghost predicate FinalsBounded(p: Params, events: seq<Event>, e: Event) {
    var jobs := Stepped(p, After(p, events), e).1;
    forall i :: 0 <= i < |jobs| && jobs[i].Final? ==>
      0 < |jobs[i].pcm| < p.maxUtterance + p.silenceTimeout + |Brings(After(p, events), e)|
  }

  /** That limit on the pre-roll is exactly what the bound needs: with a longer one, an onset
      alone is finalized at once and already breaks it. */
  lemma BoundNeedsShortPreRoll(p: Params)
    requires ValidParams(p)
    ensures p.preRollBytes < p.maxUtterance + p.silenceTimeout <==>
            forall events: seq<Event>, e: Event :: FinalsBounded(p, events, e)
  {
    if p.preRollBytes < p.maxUtterance + p.silenceTimeout {
      forall events: seq<Event>, e: Event
        ensures FinalsBounded(p, events, e)
      {
        FinalsAreBounded(p, events, e);
      }
    } else {
      var events, e := LongPreRollOnset(p);
      assert !FinalsBounded(p, events, e);
    }
  }

  /** With a long pre-roll the onset frame is finalized together with all of the pre-roll. */
  lemma LongPreRollOnset(p: Params) returns (events: seq<Event>, e: Event)
    requires ValidParams(p) && p.preRollBytes >= p.maxUtterance + p.silenceTimeout
    ensures |Brings(After(p, events), e)| == 1
    ensures var jobs := Stepped(p, After(p, events), e).1;
            |jobs| == 1 && jobs[0].Final? && |jobs[0].pcm| == p.preRollBytes + 1
  {
    events, e := LeadIn(p, p.speechStartFrames - 1), Frame([0], true, false);
    LeadInState(p, p.speechStartFrames - 1);
  }

  /** The speech time the thresholds are checked against never exceeds the audio time. */
  lemma SpeechWithinAudio(p: Params, events: seq<Event>)
    requires ValidParams(p)
    ensures var v := After(p, events);
            SpeechMs(v) <= |v.utterance| as real / BYTES_PER_MS as real
  {
    RunInv(p, events);
    SpeechWithinUtterance(p, After(p, events));
  }

  lemma SpeechWithinUtterance(p: Params, v: Vad)
    requires Inv(p, v)
    ensures SpeechMs(v) <= |v.utterance| as real / BYTES_PER_MS as real
  {
    if v.speaking {
      var whole := |v.utterance| as real / BYTES_PER_MS as real;
      ShareOfWhole(whole, v.stats.speechFrames, v.stats.frames);
    }
  }

  lemma ShareOfWhole(whole: real, part: nat, of: nat)
    requires whole >= 0.0 && part <= of && of > 0
    ensures part as real * (whole / of as real) <= whole
  {
    var each := whole / of as real;
    assert each >= 0.0 && of as real * each == whole;
    assert part as real * each <= of as real * each;
  }

  // ---- What the buffers hold ----

  /** Every byte received since the session was last reset. */
  function Ingested(events: seq<Event>): Bytes {
    if events == [] then []
    else
      var before := Ingested(events[..|events| - 1]);
      match events[|events| - 1]
      case Frame(payload, _, _) => before + payload
      case SessionReset => []
      case _ => before
  }

  lemma SuffixOfSuffix(s: Bytes, t: Bytes, n: nat)
    ensures Suffix(Suffix(s, n) + t, n) == Suffix(s + t, n)
  {
  }

  lemma StepRolls(p: Params, v: Vad, e: Event)
    ensures Stepped(p, v, e).0.preRoll ==
              match e
              case Frame(payload, _, _) => if payload == [] then v.preRoll else Suffix(v.preRoll + payload, p.preRollBytes)
              case SessionReset => []
              case _ => v.preRoll
  {
  }

  /** The pre-roll is always the last bytes received, as many as it may hold, whatever was
      detected, finalized or discarded meanwhile. */
  lemma {:induction false} PreRollIsRecentAudio(p: Params, events: seq<Event>)
    ensures After(p, events).preRoll == Suffix(Ingested(events), p.preRollBytes)
  {
    if events != [] {
      var before, e := events[..|events| - 1], events[|events| - 1];
      PreRollIsRecentAudio(p, before);
      StepRolls(p, After(p, before), e);
      if e.Frame? {
        if e.payload == [] {
          assert Ingested(before) + e.payload == Ingested(before);
        }
        SuffixOfSuffix(Ingested(before), e.payload, p.preRollBytes);
      }
    }
  }

  /** The detector speaks after every event. */
  predicate KeepsSpeaking(step: (Vad, Event) -> Vad, v: Vad, events: seq<Event>) {
    Fold(step, v, events).speaking && (events != [] ==> KeepsSpeaking(step, v, events[..|events| - 1]))
  }

  /** What a run of events brings to the utterance, in the order in which it is heard. */
  function BringsAll(step: (Vad, Event) -> Vad, v: Vad, events: seq<Event>): Bytes {
    if events == [] then []
    else
      var init := events[..|events| - 1];
      BringsAll(step, v, init) + Brings(Fold(step, v, init), events[|events| - 1])
  }

  ghost predicate Grows(p: Params, step: (Vad, Event) -> Vad) {
    forall w: Vad, e: Event :: Inv(p, w) && w.speaking && step(w, e).speaking ==>
      Inv(p, step(w, e)) && step(w, e).utterance == w.utterance + Brings(w, e)
  }

  lemma {:induction false} UtteranceGrows(p: Params, step: (Vad, Event) -> Vad, v: Vad, events: seq<Event>)
    requires Grows(p, step)
    requires Inv(p, v) && KeepsSpeaking(step, v, events)
    ensures Inv(p, Fold(step, v, events))
    ensures Fold(step, v, events).utterance == v.utterance + BringsAll(step, v, events)
  {
    if events == [] {
      assert v.utterance + [] == v.utterance;
    } else {
      var init, e := events[..|events| - 1], events[|events| - 1];
      UtteranceGrows(p, step, v, init);
      SpokeBefore(step, v, init);
      var more := Brings(Fold(step, v, init), e);
      assert v.utterance + BringsAll(step, v, init) + more == v.utterance + (BringsAll(step, v, init) + more);
    }
  }

  lemma SpokeBefore(step: (Vad, Event) -> Vad, v: Vad, events: seq<Event>)
    requires KeepsSpeaking(step, v, events)
    ensures Fold(step, v, events).speaking
  {
  }

  lemma GrowStep(p: Params, v: Vad, e: Event)
    requires ValidParams(p) && Inv(p, v) && v.speaking
    requires Stepped(p, v, e).0.speaking
    ensures Stepped(p, v, e).0.utterance == v.utterance + Brings(v, e)
  {
    assert v.utterance + [] == v.utterance;
  }

  lemma OnsetStep(p: Params, v: Vad, e: Event)
    requires ValidParams(p) && Inv(p, v) && !v.speaking
    requires Stepped(p, v, e).0.speaking
    ensures Stepped(p, v, e).0.utterance == Stepped(p, v, e).0.preRoll + Brings(v, e)
  {
  }

  lemma StepsGrow(p: Params)
    requires ValidParams(p)
    ensures Grows(p, StepOf(p))
  {
    forall w: Vad, e: Event | Inv(p, w) && w.speaking && StepOf(p)(w, e).speaking
      ensures Inv(p, StepOf(p)(w, e)) && StepOf(p)(w, e).utterance == w.utterance + Brings(w, e)
    {
      StepOk(p, w, e);
      GrowStep(p, w, e);
    }
  }

  lemma OnsetState(p: Params, before: seq<Event>, onset: Event)
    requires ValidParams(p)
    requires !After(p, before).speaking && After(p, before + [onset]).speaking
    ensures Inv(p, After(p, before + [onset]))
    ensures After(p, before + [onset]).utterance
         == Suffix(Ingested(before + [onset]), p.preRollBytes) + Brings(After(p, before), onset)
  {
    RunInv(p, before);
    RunInv(p, before + [onset]);
    AfterOneMore(p, before, onset);
    OnsetStep(p, After(p, before), onset);
    PreRollIsRecentAudio(p, before + [onset]);
  }

  lemma GrownFrom(p: Params, step: (Vad, Event) -> Vad, v: Vad, onset: Event, events: seq<Event>, recent: Bytes)
    requires Grows(p, step) && Inv(p, step(v, onset)) && KeepsSpeaking(step, step(v, onset), events)
    requires step(v, onset).utterance == recent + Brings(v, onset)
    ensures Fold(step, step(v, onset), events).utterance == recent + BringsAll(step, v, [onset] + events)
  {
    UtteranceGrows(p, step, step(v, onset), events);
    BringsFirst(step, v, onset, events);
    FoldFirst(step, v, onset, events);
    Assoc(recent, Brings(v, onset), BringsAll(step, step(v, onset), events));
  }

  /** From its onset on, by a frame or by a suspended one going on, the utterance is the recent audio
      at that moment followed by all that is heard since, the onset included. */
  lemma UtteranceIsOnsetOn(p: Params, before: seq<Event>, onset: Event, events: seq<Event>)
    requires ValidParams(p)
    requires !After(p, before).speaking
    requires KeepsSpeaking(StepOf(p), After(p, before + [onset]), events)
    ensures After(p, before + [onset] + events).utterance
         == Suffix(Ingested(before + [onset]), p.preRollBytes) + BringsAll(StepOf(p), After(p, before), [onset] + events)
  {
    SpokeAtFirst(StepOf(p), After(p, before + [onset]), events);
    OnsetState(p, before, onset);
    AfterOneMore(p, before, onset);
    StepsGrow(p);
    GrownFrom(p, StepOf(p), After(p, before), onset, events, Suffix(Ingested(before + [onset]), p.preRollBytes));
    FoldAppend(StepOf(p), FRESH, before + [onset], events);
  }

  lemma {:induction false} SpokeAtFirst(step: (Vad, Event) -> Vad, v: Vad, events: seq<Event>)
    requires KeepsSpeaking(step, v, events)
    ensures v.speaking
  {
    if events != [] {
      SpokeAtFirst(step, v, events[..|events| - 1]);
    }
  }

  lemma FoldFirst(step: (Vad, Event) -> Vad, v: Vad, first: Event, rest: seq<Event>)
    ensures Fold(step, v, [first] + rest) == Fold(step, step(v, first), rest)
  {
    FoldAppend(step, v, [first], rest);
    assert [first][..0] == [];
  }

  lemma Assoc(a: Bytes, b: Bytes, c: Bytes)
    ensures a + b + c == a + (b + c)
  {
  }

  lemma {:induction false} BringsFirst(step: (Vad, Event) -> Vad, v: Vad, first: Event, rest: seq<Event>)
    ensures BringsAll(step, v, [first] + rest) == Brings(v, first) + BringsAll(step, step(v, first), rest)
    decreases |rest|
  {
    var all := [first] + rest;
    if rest == [] {
      assert all == [first] && [first][..0] == [];
      assert [] + Brings(v, first) == Brings(v, first) + [];
    } else {
      var init, e := rest[..|rest| - 1], rest[|rest| - 1];
      assert all[..|all| - 1] == [first] + init;
      FoldFirst(step, v, first, init);
      BringsFirst(step, v, first, init);
      Assoc(Brings(v, first), BringsAll(step, step(v, first), init), Brings(Fold(step, step(v, first), init), e));
    }
  }

  // ---- From onset to recognition ----

  /** The first of the events after which the detector does not speak. */
  lemma {:induction false} FirstSilent(step: (Vad, Event) -> Vad, v: Vad, events: seq<Event>) returns (k: nat)
    requires v.speaking && !Fold(step, v, events).speaking
    ensures k < |events|
    ensures KeepsSpeaking(step, v, events[..k]) && !Fold(step, v, events[..k + 1]).speaking
    decreases |events|
  {
    k := |events| - 1;
    var init := events[..|events| - 1];
    if !Fold(step, v, init).speaking {
      k := FirstSilent(step, v, init);
      assert init[..k] == events[..k] && init[..k + 1] == events[..k + 1];
    } else if !KeepsSpeaking(step, v, init) {
      var m := FirstBreak(step, v, init);
      k := FirstSilent(step, v, init[..m]);
      assert init[..m][..k] == events[..k] && init[..m][..k + 1] == events[..k + 1];
    } else {
      assert events[..|events|] == events;
    }
  }

  lemma {:induction false} FirstBreak(step: (Vad, Event) -> Vad, v: Vad, events: seq<Event>) returns (m: nat)
    requires v.speaking && !KeepsSpeaking(step, v, events)
    ensures m <= |events| && !Fold(step, v, events[..m]).speaking
  {
    m := |events|;
    assert events[..m] == events;
    if Fold(step, v, events).speaking {
      m := FirstBreak(step, v, events[..|events| - 1]);
      assert events[..|events| - 1][..m] == events[..m];
    }
  }

  lemma AfterMore(p: Params, before: seq<Event>, events: seq<Event>, k: nat)
    requires k < |events|
    ensures Stepped(p, After(p, before + events[..k]), events[k]).0 == Fold(StepOf(p), After(p, before), events[..k + 1])
    ensures After(p, before + events[..k]) == Fold(StepOf(p), After(p, before), events[..k])
  {
    FoldAppend(StepOf(p), FRESH, before, events[..k]);
    assert events[..k + 1][..k] == events[..k];
  }

  /** In any run, an utterance in progress that is over later was recognised, all of what had been heard
      since, by a final that ended it; or it was suppressed, the session was reset, or silence at
      its end found too little speech. */
  lemma UtteranceIsRecognised(p: Params, before: seq<Event>, events: seq<Event>) returns (k: nat)
    requires ValidParams(p) && After(p, before).speaking && !After(p, before + events).speaking
    ensures k < |events|
    ensures var e, v := events[k], After(p, before + events[..k]);
            var jobs := Stepped(p, v, e).1;
            && v.speaking && !Stepped(p, v, e).0.speaking
            && v.utterance == After(p, before).utterance + BringsAll(StepOf(p), After(p, before), events[..k])
            && (|| (jobs != [] && jobs[|jobs| - 1].Final? && jobs[|jobs| - 1].pcm == v.utterance + Brings(v, e))
                || (jobs == [] && (e.Suppressed? || e.SessionReset?))
                || (jobs == [] && HearsSilence(v, e) && v.silence + |e.payload| >= p.silenceTimeout
                    && !SpeechReaches(p, v, e, p.finalMinSpeechMs)))
  {
    var step, from := StepOf(p), After(p, before);
    FoldAppend(step, FRESH, before, events);
    k := FirstSilent(step, from, events);
    AfterMore(p, before, events, k);
    RunInv(p, before);
    RunInv(p, before + events[..k]);
    StepsGrow(p);
    UtteranceGrows(p, step, from, events[..k]);
    SpokeBefore(step, from, events[..k]);
    EndsRecognised(p, After(p, before + events[..k]), events[k]);
  }

  /** Frames of speech only. */
  predicate AllSpeech(events: seq<Event>) {
    forall i :: 0 <= i < |events| ==> events[i].Frame? && events[i].speech && events[i].payload != []
  }

  /** Starting from silence, it takes `speechStartFrames` frames of speech in a row for an onset, and
      no more: fewer are only counted, and the last of so many opens an utterance, or fills one. */
  lemma {:induction false} OnsetTakesFramesInARow(p: Params, v: Vad, events: seq<Event>)
    requires ValidParams(p) && Inv(p, v) && AllSpeech(events) && |events| < p.speechStartFrames
    requires !v.speaking && !v.assistantSpeaking && v.pendingSpeechFrames == 0
    ensures var w := Fold(StepOf(p), v, events);
            && Inv(p, w) && !w.speaking && !w.assistantSpeaking && w.pendingSpeechFrames == |events|
            && forall e: Event :: AllSpeech([e]) && |events| + 1 == p.speechStartFrames ==>
                 Stepped(p, w, e).0.speaking
                 || Final(MaxUtterance, Heard(p, w, e)) in Stepped(p, w, e).1
  {
    if events != [] {
      var init, last := events[..|events| - 1], events[|events| - 1];
      OnsetTakesFramesInARow(p, v, init);
      StepOk(p, Fold(StepOf(p), v, init), last);
      SpeechMeans(p, Fold(StepOf(p), v, init), last);
    }
    var w := Fold(StepOf(p), v, events);
    forall e: Event | AllSpeech([e]) && |events| + 1 == p.speechStartFrames
      ensures Stepped(p, w, e).0.speaking || Final(MaxUtterance, Heard(p, w, e)) in Stepped(p, w, e).1
    {
      assert [e][0] == e;
      SpeechMeans(p, w, e);
    }
  }

  // ---- When the utterance is one piece of the input ----

  function Payloads(events: seq<Event>): Bytes {
    if events == [] then []
    else Payloads(events[..|events| - 1]) + if events[|events| - 1].Frame? then events[|events| - 1].payload else []
  }

  /** The assistant is silent before every event. */
  predicate KeepsSilent(step: (Vad, Event) -> Vad, v: Vad, events: seq<Event>) {
    events != [] ==>
      !Fold(step, v, events[..|events| - 1]).assistantSpeaking && KeepsSilent(step, v, events[..|events| - 1])
  }

  /** No suspended frame goes on. */
  predicate NoneGoesOn(step: (Vad, Event) -> Vad, v: Vad, events: seq<Event>) {
    events != [] ==>
      !LetsGoOn(Fold(step, v, events[..|events| - 1]), events[|events| - 1]) && NoneGoesOn(step, v, events[..|events| - 1])
  }

  ghost predicate KeepsInv(p: Params, step: (Vad, Event) -> Vad) {
    forall w: Vad, e: Event :: Inv(p, w) ==> Inv(p, step(w, e))
  }

  lemma {:induction false} BringsPayloads(p: Params, step: (Vad, Event) -> Vad, v: Vad, events: seq<Event>)
    requires KeepsInv(p, step) && Inv(p, v)
    requires KeepsSilent(step, v, events)
    ensures Inv(p, Fold(step, v, events))
    ensures NoneGoesOn(step, v, events) ==> BringsAll(step, v, events) == Payloads(events)
    ensures !NoneGoesOn(step, v, events) ==> |BringsAll(step, v, events)| > |Payloads(events)|
    ensures |BringsAll(step, v, events)| >= |Payloads(events)|
  {
    if events != [] {
      BringsPayloads(p, step, v, events[..|events| - 1]);
    }
  }

  /** While the assistant is silent from the onset on, the utterance is the recent audio at the
      onset followed by every frame from the onset frame on, exactly if no frame suspended earlier
      goes on in between. */
  lemma UtteranceIsFramesUnlessResumed(p: Params, before: seq<Event>, onset: Event, events: seq<Event>)
    requires ValidParams(p)
    requires !After(p, before).speaking
    requires KeepsSpeaking(StepOf(p), After(p, before + [onset]), events)
    requires KeepsSilent(StepOf(p), After(p, before), [onset] + events)
    ensures After(p, before + [onset] + events).utterance
            == Suffix(Ingested(before + [onset]), p.preRollBytes) + Payloads([onset] + events)
            <==> NoneGoesOn(StepOf(p), After(p, before), [onset] + events)
  {
    var step, v, all := StepOf(p), After(p, before), [onset] + events;
    UtteranceIsOnsetOn(p, before, onset, events);
    RunInv(p, before);
    StepsKeepInv(p);
    BringsPayloads(p, step, v, all);
    var recent := Suffix(Ingested(before + [onset]), p.preRollBytes);
    if !NoneGoesOn(step, v, all) {
      assert |recent + BringsAll(step, v, all)| > |recent + Payloads(all)|;
    }
  }

  lemma StepsKeepInv(p: Params)
    requires ValidParams(p)
    ensures KeepsInv(p, StepOf(p))
  {
    forall w: Vad, e: Event | Inv(p, w) ensures Inv(p, StepOf(p)(w, e)) {
      StepOk(p, w, e);
    }
  }

  /** A frame that barges in, two frames heard while it waits, the second of them the onset, and then
      it goes on. */
  function LateFrame(): seq<Event> {
    [] + [AssistantTurn(true)] + [Frame([1], true, false)] + [Silences(0)]
    + [Frame([2], true, false)] + [Frame([3], true, false)] + [Resumes(0, false)]
  }

  /** The first frame then comes last, once more, behind frames that followed it. */
  lemma LateFrameIsOutOfOrder(p: Params)
    requires ValidParams(p) && p.bargeInEnabled && p.speechStartFrames == 2 && p.preRollBytes >= 3
    ensures After(p, LateFrame()).utterance == [1, 2, 3, 3, 1]
    ensures Ingested(LateFrame()) == [1, 2, 3]
  {
    var e3 := [] + [AssistantTurn(true)] + [Frame([1], true, false)] + [Silences(0)];
    LateFrameWaits(p);
    var e4 := e3 + [Frame([2], true, false)];
    var e5 := e4 + [Frame([3], true, false)];
    AfterOneMore(p, e3, Frame([2], true, false));
    assert [1] + [2] == [1, 2];
    AfterOneMore(p, e4, Frame([3], true, false));
    assert [1, 2] + [3] == [1, 2, 3];
    assert After(p, e5).utterance == [1, 2, 3] + [3] == [1, 2, 3, 3];
    AfterOneMore(p, e5, Resumes(0, false));
    assert [1, 2, 3, 3] + [1] == [1, 2, 3, 3, 1];
    IngestedOneMore(e3, Frame([2], true, false));
    IngestedOneMore(e4, Frame([3], true, false));
    IngestedOneMore(e5, Resumes(0, false));
  }

  lemma IngestedOneMore(events: seq<Event>, e: Event)
    requires !e.SessionReset?
    ensures Ingested(events + [e]) == Ingested(events) + if e.Frame? then e.payload else []
  {
    assert (events + [e])[..|events|] == events;
  }

  lemma LateFrameWaits(p: Params)
    requires ValidParams(p) && p.bargeInEnabled && p.preRollBytes >= 3
    ensures var events := [] + [AssistantTurn(true)] + [Frame([1], true, false)] + [Silences(0)];
            && After(p, events) == FRESH.(preRoll := [1], suspended := [Held([1], true)])
            && Ingested(events) == [1]
  {
    var a, f := AssistantTurn(true), Frame([1], true, false);
    AfterOneMore(p, [], a);
    AfterOneMore(p, [] + [a], f);
    assert [] + [1] == [1];
    AfterOneMore(p, [] + [a] + [f], Silences(0));
    IngestedOneMore([], a);
    IngestedOneMore([] + [a], f);
    IngestedOneMore([] + [a] + [f], Silences(0));
  }

  // ---- The detector itself ----

  class Detector {
    const params: Params
    var preRoll: Bytes
    var utterance: Bytes
    var speaking: bool
    var silence: nat
    var pendingSpeechFrames: nat
    var stats: Stats
    var assistantSpeaking: bool
    var suspended: seq<Held>

    function Now(): Vad
      reads this
    {
      Vad(preRoll, utterance, speaking, silence, pendingSpeechFrames, stats, assistantSpeaking, suspended)
    }

    constructor (params: Params)
      requires ValidParams(params)
      ensures this.params == params && Now() == FRESH && Inv(params, Now())
    {
      this.params := params;
      preRoll := [];
      utterance := [];
      speaking := false;
      silence := 0;
      pendingSpeechFrames := 0;
      stats := NoStats;
      assistantSpeaking := false;
      suspended := [];
    }

    method ResetCurrentUtterance()
      modifies this
      ensures Now() == Reset(old(Now()))
    {
      utterance := [];
      speaking := false;
      silence := 0;
      pendingSpeechFrames := 0;
      stats := NoStats;
    }

    method AppendToPreRoll(payload: Bytes)
      modifies this`preRoll
      ensures preRoll == Suffix(old(preRoll) + payload, params.preRollBytes)
    {
      preRoll := preRoll + payload;
      if |preRoll| > params.preRollBytes {
        var overshoot := |preRoll| - params.preRollBytes;
        preRoll := preRoll[overshoot..];
      }
    }

    method FinalizeUtterance(trigger: Trigger) returns (jobs: seq<Job>)
      modifies this
      ensures (Now(), jobs) == Finalized(old(Now()), trigger)
    {
      if !speaking || utterance == [] {
        return [];
      }
      jobs := [Final(trigger, utterance)];
      ResetCurrentUtterance();
    }

    /** From its arrival to its end, or to the barge-in handling, in which it is suspended. */
    method IngestAudioFrame(payload: Bytes, speech: bool, partialDue: bool) returns (jobs: seq<Job>)
      requires ValidParams(params) && Inv(params, Now())
      modifies this
      ensures (Now(), jobs) == Stepped(params, old(Now()), Frame(payload, speech, partialDue))
      ensures Inv(params, Now())
    {
      StepOk(params, Now(), Frame(payload, speech, partialDue));
      jobs := [];
      if payload == [] {
        return;
      }
      AppendToPreRoll(payload);
      if assistantSpeaking {
        if params.bargeInEnabled && speech {
          suspended := suspended + [Held(payload, false)];
        }
        return;
      }
      if speech {
        jobs := HearSpeech(payload, partialDue);
      } else {
        jobs := HearSilence(payload);
      }
    }

    /** The barge-in handling of a suspended frame marks the assistant silent. */
    method SilenceAssistant(i: nat)
      requires i < |suspended| && !suspended[i].silenced
      modifies this`assistantSpeaking, this`suspended
      ensures Now() == Stepped(params, old(Now()), Silences(i)).0
    {
      assistantSpeaking := false;
      suspended := suspended[i := suspended[i].(silenced := true)];
    }

    /** The assistant's speech is stopped and the frame goes on, with the state as it is by then. */
    method ResumeFrame(i: nat, partialDue: bool) returns (jobs: seq<Job>)
      requires ValidParams(params) && Inv(params, Now())
      requires i < |suspended| && suspended[i].silenced
      modifies this
      ensures (Now(), jobs) == Stepped(params, old(Now()), Resumes(i, partialDue))
      ensures Inv(params, Now())
    {
      StepOk(params, Now(), Resumes(i, partialDue));
      var payload := suspended[i].payload;
      suspended := suspended[..i] + suspended[i + 1..];
      jobs := HearSpeech(payload, partialDue);
    }

    method HearSpeech(payload: Bytes, partialDue: bool) returns (jobs: seq<Job>)
      modifies this
      ensures (Now(), jobs) == SpeechHeard(params, old(Now()), payload, partialDue)
    {
      jobs := [];
      pendingSpeechFrames := pendingSpeechFrames + 1;
      if !speaking {
        if pendingSpeechFrames < params.speechStartFrames {
          return;
        }
        speaking := true;
        stats := Stats(0, 0);
        silence := 0;
        if preRoll != [] && utterance == [] {
          utterance := preRoll;
        }
      }
      utterance := utterance + payload;
      silence := 0;
      stats := Recorded(stats, true);
      if partialDue && |utterance| >= params.partialMinBytes && SpeechMs(Now()) >= params.partialMinSpeechMs as real {
        jobs := [Partial(Suffix(utterance, params.partialWindow))];
      }
      if |utterance| >= params.maxUtterance {
        var finals := FinalizeUtterance(MaxUtterance);
        jobs := jobs + finals;
      }
    }

    method HearSilence(payload: Bytes) returns (jobs: seq<Job>)
      modifies this
      ensures (Now(), jobs) == SilenceHeard(params, old(Now()), payload)
    {
      pendingSpeechFrames := 0;
      if !speaking {
        return [];
      }
      utterance := utterance + payload;
      silence := silence + |payload|;
      stats := Recorded(stats, false);
      if silence < params.silenceTimeout {
        return [];
      }
      if SpeechMs(Now()) < params.finalMinSpeechMs as real {
        ResetCurrentUtterance();
        return [];
      }
      jobs := FinalizeUtterance(VadSilence);
    }

    method HandleFlush() returns (jobs: seq<Job>)
      requires ValidParams(params) && Inv(params, Now())
      modifies this
      ensures (Now(), jobs) == Stepped(params, old(Now()), FlushCommand)
      ensures Inv(params, Now())
    {
      jobs := if utterance == [] then [] else [Final(Flush, utterance)];
      ResetCurrentUtterance();
    }
  }
}
