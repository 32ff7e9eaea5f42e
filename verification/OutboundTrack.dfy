/** The outgoing audio track: packets in a bounded queue, a producer that may be held up by it, a
    listener, and the two ways of emptying it. */
module OutboundTrack {
  import opened Options

  type Samples = seq<int>

  const FRAME_SAMPLES: nat := 960
  const MAX_FRAMES: nat := 128

  datatype Item = Packet(samples: Samples) | End

  /** A frame the listener has taken and, until its time comes, not yet handed on. */
  datatype Frame = Frame(samples: Samples, isSilence: bool)

  /** One frame handed to the listener's caller. */
  datatype Played = Played(pts: nat, samples: Samples, isSilence: bool)

  /** `rest` is what a producer holding the lock has still to put; `inHand` is the frame of a
      receive that waits for its playout time. */
  datatype Track = Track(queue: seq<Item>, closed: bool, nextPts: nat, rest: Samples, inHand: Option<Frame>)

  datatype Event = Enqueue(pcm: Samples) | Resume | Take | Deliver | Clear | Close

  function Silence(): (s: Samples)
    ensures |s| == FRAME_SAMPLES
  {
    seq(FRAME_SAMPLES, _ => 0)
  }

  function FirstPacket(rest: Samples): Samples {
    rest[..if |rest| < FRAME_SAMPLES then |rest| else FRAME_SAMPLES]
  }

  function PutOne(t: Track): Track {
    t.(queue := t.queue + [Packet(FirstPacket(t.rest))], rest := t.rest[|FirstPacket(t.rest)|..])
  }

  /** The producer goes on until it is done or the queue is full. */
  function Filled(t: Track): Track
    decreases |t.rest|
  {
    if t.rest == [] || |t.queue| >= MAX_FRAMES then t
    else Filled(PutOne(t))
  }

  /** A receive begins: it takes the queue's next item, makes up a silent frame if there is none,
      or finds that the track has ended. Receives do not overlap. */
  function Taken(t: Track): (bool, Track) {
    if t.inHand.Some? then (false, t)
    else if t.queue == [] then
      if t.closed then (true, t) else (false, t.(inHand := Some(Frame(Silence(), true))))
    else
      match t.queue[0]
      case End => (true, t.(queue := t.queue[1..]))
      case Packet(s) => (false, t.(queue := t.queue[1..], inHand := Some(Frame(s, false))))
  }

  /** Its time has come: the frame is stamped and handed on. */
  function Delivered(t: Track): Track {
    if t.inHand.None? then t else t.(inHand := None, nextPts := t.nextPts + |t.inHand.value.samples|)
  }

  function Stepped(t: Track, e: Event): Track {
    match e
    case Enqueue(pcm) => if t.closed || t.rest != [] then t else Filled(t.(rest := pcm))
    case Resume => Filled(t)
    case Take => Taken(t).1
    case Deliver => Delivered(t)
    case Clear => t.(queue := [])
    case Close => t.(queue := [End], closed := true)
  }

  // ---- What a run has put, dropped and played ----

  /** `taken` is every sample a producer accepted, `put` every packet that entered the queue,
      `dropped` the numbers of the packets a clear or a close threw away. */
  datatype History = History(track: Track, taken: Samples, put: seq<Samples>, dropped: set<nat>, played: seq<Played>)

  const START := History(Track([], false, 0, [], None), [], [], {}, [])

  function Packets(queue: seq<Item>): seq<Samples> {
    if queue == [] then []
    else Packets(queue[..|queue| - 1])
         + match queue[|queue| - 1] { case Packet(s) => [s] case End => [] }
  }

  /** The packets that the producer adds to the queue before it is done or held up. */
  function NewPackets(rest: Samples, room: int): seq<Samples>
    decreases |rest|
  {
    if rest == [] || room <= 0 then []
    else [FirstPacket(rest)] + NewPackets(rest[|FirstPacket(rest)|..], room - 1)
  }

  /** The packet numbered `i` is among the last ones put, those still in the queue. */
  predicate Waiting(h: History, i: nat) {
    |h.put| - |Packets(h.track.queue)| <= i < |h.put|
  }

  function DroppedAll(h: History): set<nat> {
    h.dropped + set i: nat | i < |h.put| && Waiting(h, i)
  }

  function Recorded(h: History, e: Event): History {
    var t := h.track;
    var next := Stepped(t, e);
    match e
    case Enqueue(pcm) =>
      if t.closed || t.rest != [] then h.(track := next)
      else h.(track := next, taken := h.taken + pcm, put := h.put + NewPackets(pcm, MAX_FRAMES - |t.queue|))
    case Resume => h.(track := next, put := h.put + NewPackets(t.rest, MAX_FRAMES - |t.queue|))
    case Take => h.(track := next)
    case Deliver =>
      if t.inHand.None? then h
      else h.(track := next, played := h.played + [Played(t.nextPts, t.inHand.value.samples, t.inHand.value.isSilence)])
    case Clear => h.(track := next, dropped := DroppedAll(h))
    case Close => h.(track := next, dropped := DroppedAll(h))
  }

  function After(events: seq<Event>): History {
    if events == [] then START else Recorded(After(events[..|events| - 1]), events[|events| - 1])
  }

  /** The packets numbered below `n` that were not thrown away. */
  function Kept(put: seq<Samples>, dropped: set<nat>): seq<Samples> {
    if put == [] then []
    else Kept(put[..|put| - 1], dropped) + if |put| - 1 in dropped then [] else [put[|put| - 1]]
  }

  function Heard(played: seq<Played>): seq<Samples> {
    if played == [] then []
    else Heard(played[..|played| - 1])
         + if played[|played| - 1].isSilence then [] else [played[|played| - 1].samples]
  }

  /** The packet that a waiting receive holds. */
  function HeldPackets(inHand: Option<Frame>): seq<Samples> {
    if inHand.Some? && !inHand.value.isSilence then [inHand.value.samples] else []
  }

  function Flat(packets: seq<Samples>): Samples {
    if packets == [] then [] else Flat(packets[..|packets| - 1]) + packets[|packets| - 1]
  }

  function Duration(played: seq<Played>): nat {
    if played == [] then 0 else Duration(played[..|played| - 1]) + |played[|played| - 1].samples|
  }

  /** Every frame carries the total size of those before it. */
  ghost predicate Timed(played: seq<Played>) {
    forall i :: 0 <= i < |played| ==> |played[i].samples| > 0 && played[i].pts == Duration(played[..i])
  }

  ghost predicate Sized(packets: seq<Samples>) {
    forall i :: 0 <= i < |packets| ==> 0 < |packets[i]| <= FRAME_SAMPLES
  }

  ghost predicate SilencesAreSilent(played: seq<Played>) {
    forall i :: 0 <= i < |played| && played[i].isSilence ==> played[i].samples == Silence()
  }

  ghost predicate Inv(h: History) {
    && |h.track.queue| <= MAX_FRAMES
    && (forall i :: i in h.dropped ==> i < |h.put|)
    && Flat(h.put) + h.track.rest == h.taken
    && Kept(h.put, h.dropped) == Heard(h.played) + HeldPackets(h.track.inHand) + Packets(h.track.queue)
    && (h.track.inHand.Some? ==>
          && 0 < |h.track.inHand.value.samples| <= FRAME_SAMPLES
          && (h.track.inHand.value.isSilence ==> h.track.inHand.value.samples == Silence()))
    && |Packets(h.track.queue)| <= |h.put|
    && (forall i: nat :: Waiting(h, i) ==> i !in h.dropped)
    && Sized(h.put) && Sized(Packets(h.track.queue))
    && Timed(h.played) && h.track.nextPts == Duration(h.played)
    && SilencesAreSilent(h.played)
  }

  // ---- Lists of packets ----

  lemma Assoc<T>(a: seq<T>, b: seq<T>, c: seq<T>)
    ensures a + b + c == a + (b + c)
  {
  }

  lemma {:induction false} PacketsAppend(a: seq<Item>, b: seq<Item>)
    ensures Packets(a + b) == Packets(a) + Packets(b)
  {
    if b == [] {
      assert a + b == a;
    } else {
      assert (a + b)[..|a + b| - 1] == a + b[..|b| - 1];
      PacketsAppend(a, b[..|b| - 1]);
    }
  }

  lemma {:induction false} FlatAppend(a: seq<Samples>, b: seq<Samples>)
    ensures Flat(a + b) == Flat(a) + Flat(b)
  {
    if b == [] {
      assert a + b == a;
    } else {
      assert (a + b)[..|a + b| - 1] == a + b[..|b| - 1];
      FlatAppend(a, b[..|b| - 1]);
    }
  }

  lemma FlatFirst(p: Samples, made: seq<Samples>)
    ensures Flat([p] + made) == p + Flat(made)
  {
    FlatAppend([p], made);
    assert [p][..0] == [];
    assert Flat([p]) == Flat([]) + p == p;
  }

  /** Later packets, none of them dropped, are all kept. */
  lemma {:induction false} KeptAppend(a: seq<Samples>, b: seq<Samples>, dropped: set<nat>)
    requires forall i: nat :: |a| <= i < |a + b| ==> i !in dropped
    ensures Kept(a + b, dropped) == Kept(a, dropped) + b
  {
    if b == [] {
      assert a + b == a;
    } else {
      var init := b[..|b| - 1];
      assert (a + b)[..|a + b| - 1] == a + init;
      KeptAppend(a, init, dropped);
      assert init + [b[|b| - 1]] == b;
    }
  }

  /** Dropping the last packets keeps exactly what was kept of the others. */
  lemma {:induction false} KeptDrop(a: seq<Samples>, b: seq<Samples>, dropped: set<nat>, more: set<nat>)
    requires forall i: nat :: i < |a| ==> (i in dropped <==> i in more)
    requires forall i: nat :: |a| <= i < |a + b| ==> i in more
    ensures Kept(a + b, more) == Kept(a, dropped)
  {
    if b != [] {
      assert (a + b)[..|a + b| - 1] == a + b[..|b| - 1];
      KeptDrop(a, b[..|b| - 1], dropped, more);
    } else {
      assert a + b == a;
      if a != [] {
        var init := a[..|a| - 1];
        assert init + [] == init;
        KeptDrop(init, [], dropped, more);
      }
    }
  }

  lemma FirstOf(queue: seq<Item>)
    requires queue != [] && queue[0].Packet?
    ensures Packets(queue) == [queue[0].samples] + Packets(queue[1..])
  {
    assert queue == [queue[0]] + queue[1..];
    PacketsAppend([queue[0]], queue[1..]);
    assert [queue[0]][..0] == [];
    assert Packets([queue[0]]) == [queue[0].samples];
  }

  lemma FirstEnd(queue: seq<Item>)
    requires queue != [] && queue[0].End?
    ensures Packets(queue) == Packets(queue[1..])
  {
    assert queue == [queue[0]] + queue[1..];
    PacketsAppend([queue[0]], queue[1..]);
    assert [queue[0]][..0] == [];
    assert Packets([queue[0]]) == [];
  }

  /** A producer adds its packets behind the queue. */
  lemma {:induction false} FillAdds(t: Track)
    requires |t.queue| <= MAX_FRAMES
    ensures Packets(Filled(t).queue) == Packets(t.queue) + NewPackets(t.rest, MAX_FRAMES - |t.queue|)
    ensures |Filled(t).queue| <= MAX_FRAMES
    ensures Filled(t).closed == t.closed && Filled(t).nextPts == t.nextPts && Filled(t).inHand == t.inHand
    decreases |t.rest|
  {
    if t.rest != [] && |t.queue| < MAX_FRAMES {
      var p := FirstPacket(t.rest);
      var next := PutOne(t);
      FillAdds(next);
      assert Filled(t) == Filled(next);
      assert next.queue[..|t.queue|] == t.queue;
      assert Packets(next.queue) == Packets(t.queue) + [p];
      Assoc(Packets(t.queue), [p], NewPackets(next.rest, MAX_FRAMES - |next.queue|));
    }
  }

  /** The packets and what is still to be put are the producer's samples. */
  lemma {:induction false} FillConserves(t: Track)
    ensures Flat(NewPackets(t.rest, MAX_FRAMES - |t.queue|)) + Filled(t).rest == t.rest
    ensures Sized(NewPackets(t.rest, MAX_FRAMES - |t.queue|))
    decreases |t.rest|
  {
    if t.rest != [] && |t.queue| < MAX_FRAMES {
      var p := FirstPacket(t.rest);
      var next := PutOne(t);
      FillConserves(next);
      assert Filled(t) == Filled(next);
      var made := NewPackets(next.rest, MAX_FRAMES - |next.queue|);
      FlatFirst(p, made);
      Assoc(p, Flat(made), Filled(next).rest);
      SizedAppend([p], made);
    }
  }

  // ---- What one step promises ----

  /** Packets are full frames; only the last one of an enqueue, with which its samples end, may be
      shorter. */
  ghost predicate FullButLast(made: seq<Samples>, all: Samples) {
    forall i :: 0 <= i < |made| && |made[i]| != 960 ==> i == |made| - 1 && Flat(made) == all
  }

  lemma {:induction false} PacketsAreFull(rest: Samples, room: int)
    ensures FullButLast(NewPackets(rest, room), rest)
    decreases |rest|
  {
    if rest != [] && room > 0 {
      var p, later := FirstPacket(rest), rest[|FirstPacket(rest)|..];
      var made := NewPackets(later, room - 1);
      PacketsAreFull(later, room - 1);
      FlatFirst(p, made);
      assert rest == p + later;
      if later == [] {
        assert made == [];
      }
    }
  }

  /** A producer stops only when all its samples are put or the queue is full. */
  lemma {:induction false} FillsUp(t: Track)
    requires |t.queue| <= MAX_FRAMES
    ensures Filled(t).rest == [] || |Filled(t).queue| == 128
    decreases |t.rest|
  {
    if t.rest != [] && |t.queue| < MAX_FRAMES {
      FillsUp(PutOne(t));
    }
  }

  /** An open track accepts all the samples of a producer whose turn it is, a closed one none; and
      a producer that goes on puts whole frames until it is done or the queue is full. */
  lemma EnqueueAccepts(h: History, pcm: Samples)
    requires Inv(h)
    ensures var n := Recorded(h, Enqueue(pcm));
            if h.track.closed || h.track.rest != [] then n == h
            else
              && n.taken == h.taken + pcm && (n.track.rest == [] || |n.track.queue| == 128)
              && h.put <= n.put && FullButLast(n.put[|h.put|..], pcm)
    ensures var n := Recorded(h, Resume);
            && (n.track.rest == [] || |n.track.queue| == 128)
            && h.put <= n.put && FullButLast(n.put[|h.put|..], h.track.rest)
  {
    PacketsAreFull(pcm, MAX_FRAMES - |h.track.queue|);
    PacketsAreFull(h.track.rest, MAX_FRAMES - |h.track.queue|);
    FillsUp(h.track.(rest := pcm));
    FillsUp(h.track);
    var n := NewPackets(h.track.rest, MAX_FRAMES - |h.track.queue|);
    assert (h.put + n)[|h.put|..] == n;
    var m := NewPackets(pcm, MAX_FRAMES - |h.track.queue|);
    assert (h.put + m)[|h.put|..] == m;
  }

  /** A receive takes the packet that waits first; it makes up silence, 960 zero samples, exactly when
      nothing waits on an open track, and finds the end exactly at the end marker or when nothing
      waits on a closed one. */
  lemma ReceiveMeans(t: Track)
    requires t.inHand.None?
    ensures var (ended, n) := Taken(t);
            && (ended <==> if t.queue == [] then t.closed else t.queue[0] == End)
            && (ended ==> n.inHand == None)
            && (t.queue != [] && t.queue[0].Packet? ==> n.inHand == Some(Frame(t.queue[0].samples, false)))
            && (t.queue != [] ==> [t.queue[0]] + n.queue == t.queue)
            && (t.queue == [] && !t.closed ==>
                  && n.inHand.Some? && n.inHand.value.isSilence && |n.inHand.value.samples| == 960
                  && forall i :: 0 <= i < 960 ==> n.inHand.value.samples[i] == 0)
  {
  }

  // ---- The invariant ----

  /** Packets that enter behind the queue, cut off the samples taken so far. */
  lemma PutKeeps(h: History, pcm: Samples, rest: Samples, made: seq<Samples>, next: Track)
    requires Inv(h) && Sized(made)
    requires h.track.rest + pcm == rest && Flat(made) + next.rest == rest
    requires Packets(next.queue) == Packets(h.track.queue) + made && |next.queue| <= MAX_FRAMES
    requires next.nextPts == h.track.nextPts && next.inHand == h.track.inHand
    ensures Inv(h.(track := next, taken := h.taken + pcm, put := h.put + made))
  {
    FlatAppend(h.put, made);
    KeptAppend(h.put, made, h.dropped);
    Assoc(Flat(h.put), h.track.rest, pcm);
    Assoc(Flat(h.put), Flat(made), next.rest);
    Assoc(Heard(h.played) + HeldPackets(h.track.inHand), Packets(h.track.queue), made);
    SizedAppend(h.put, made);
    SizedAppend(Packets(h.track.queue), made);
  }

  lemma FillKeeps(h: History, pcm: Samples, rest: Samples)
    requires Inv(h) && h.track.rest + pcm == rest
    ensures Inv(h.(track := Filled(h.track.(rest := rest)), taken := h.taken + pcm,
                   put := h.put + NewPackets(rest, MAX_FRAMES - |h.track.queue|)))
  {
    var t := h.track.(rest := rest);
    FillAdds(t);
    FillConserves(t);
    PutKeeps(h, pcm, rest, NewPackets(rest, MAX_FRAMES - |t.queue|), Filled(t));
  }

  lemma SizedAppend(a: seq<Samples>, b: seq<Samples>)
    requires Sized(a) && Sized(b)
    ensures Sized(a + b)
  {
  }

  lemma SizedTail(a: seq<Samples>, first: Samples, others: seq<Samples>)
    requires Sized(a) && a == [first] + others
    ensures 0 < |first| <= FRAME_SAMPLES && Sized(others)
  {
    assert a[0] == first;
    forall i | 0 <= i < |others| ensures 0 < |others[i]| <= FRAME_SAMPLES {
      assert others[i] == a[i + 1];
    }
  }

  lemma PlayKeeps(played: seq<Played>, f: Played)
    requires Timed(played) && SilencesAreSilent(played)
    requires f.pts == Duration(played) && |f.samples| > 0
    requires f.isSilence ==> f.samples == Silence()
    ensures Timed(played + [f]) && SilencesAreSilent(played + [f])
    ensures Duration(played + [f]) == Duration(played) + |f.samples|
    ensures Heard(played + [f]) == Heard(played) + if f.isSilence then [] else [f.samples]
  {
    var longer := played + [f];
    assert longer[..|longer| - 1] == played;
    forall i | 0 <= i < |longer| ensures longer[i].pts == Duration(longer[..i]) {
      if i < |played| {
        assert longer[..i] == played[..i];
      }
    }
  }

  lemma TakeKeeps(h: History)
    requires Inv(h)
    ensures Inv(Recorded(h, Take))
  {
    var t := h.track;
    if t.inHand.None? && t.queue != [] {
      if t.queue[0].End? {
        FirstEnd(t.queue);
      } else {
        TakePacketKeeps(h);
      }
    }
  }

  lemma TakePacketKeeps(h: History)
    requires Inv(h)
    requires h.track.inHand.None? && h.track.queue != [] && h.track.queue[0].Packet?
    ensures Inv(Recorded(h, Take))
  {
    var t := h.track;
    var s := t.queue[0].samples;
    var others := Packets(t.queue[1..]);
    FirstOf(t.queue);
    SizedTail(Packets(t.queue), s, others);
    assert Heard(h.played) + [] == Heard(h.played);
    Assoc(Heard(h.played), [s], others);
    var next := Recorded(h, Take);
    assert forall i: nat :: Waiting(next, i) ==> Waiting(h, i);
  }

  lemma DeliverKeeps(h: History)
    requires Inv(h)
    ensures Inv(Recorded(h, Deliver))
    ensures Heard(Recorded(h, Deliver).played) == Heard(h.played) + HeldPackets(h.track.inHand)
  {
    var t := h.track;
    if t.inHand.Some? {
      var f := Played(t.nextPts, t.inHand.value.samples, t.inHand.value.isSilence);
      PlayKeeps(h.played, f);
      HandedOn(h, Recorded(h, Deliver), f);
    } else {
      assert Heard(h.played) + [] == Heard(h.played);
    }
  }

  lemma HandedOn(h: History, next: History, f: Played)
    requires Inv(h) && h.track.inHand.Some?
    requires f == Played(h.track.nextPts, h.track.inHand.value.samples, h.track.inHand.value.isSilence)
    requires next == h.(track := h.track.(inHand := None, nextPts := h.track.nextPts + |f.samples|),
                        played := h.played + [f])
    requires Timed(next.played) && SilencesAreSilent(next.played)
    requires Duration(next.played) == Duration(h.played) + |f.samples|
    requires Heard(next.played) == Heard(h.played) + if f.isSilence then [] else [f.samples]
    ensures Inv(next) && Heard(next.played) == Heard(h.played) + HeldPackets(h.track.inHand)
  {
    assert forall i: nat :: Waiting(next, i) ==> Waiting(h, i);
    assert Heard(next.played) + [] == Heard(next.played);
  }

  lemma DropKeeps(h: History)
    requires Inv(h)
    ensures Kept(h.put, DroppedAll(h)) == Heard(h.played) + HeldPackets(h.track.inHand)
  {
    var n := |h.put| - |Packets(h.track.queue)|;
    var a, b := h.put[..n], h.put[n..];
    assert a + b == h.put;
    KeptAppend(a, b, h.dropped);
    KeptDrop(a, b, h.dropped, DroppedAll(h));
    SameLengthEnds(Kept(a, h.dropped), b, Heard(h.played) + HeldPackets(h.track.inHand), Packets(h.track.queue));
  }

  lemma SameLengthEnds<T>(a: seq<T>, b: seq<T>, c: seq<T>, d: seq<T>)
    requires a + b == c + d && |b| == |d|
    ensures a == c
  {
    assert a == (a + b)[..|a|] && c == (c + d)[..|c|];
  }

  lemma StepKeeps(h: History, e: Event)
    requires Inv(h)
    ensures Inv(Recorded(h, e))
  {
    match e
    case Enqueue(pcm) => EnqueueKeeps(h, pcm);
    case Resume => ResumeKeeps(h);
    case Take => TakeKeeps(h);
    case Deliver => DeliverKeeps(h);
    case Clear => ClearKeeps(h);
    case Close => CloseKeeps(h);
  }

  lemma EnqueueKeeps(h: History, pcm: Samples)
    requires Inv(h)
    ensures Inv(Recorded(h, Enqueue(pcm)))
  {
    if !h.track.closed && h.track.rest == [] {
      FillKeeps(h, pcm, pcm);
    }
  }

  lemma ResumeKeeps(h: History)
    requires Inv(h)
    ensures Inv(Recorded(h, Resume))
  {
    assert h.taken + [] == h.taken;
    assert h.track.(rest := h.track.rest) == h.track;
    FillKeeps(h, [], h.track.rest);
  }

  lemma ClearKeeps(h: History)
    requires Inv(h)
    ensures Inv(Recorded(h, Clear))
  {
    DropKeeps(h);
    EmptiedKeeps(h, Recorded(h, Clear));
  }

  lemma CloseKeeps(h: History)
    requires Inv(h)
    ensures Inv(Recorded(h, Close))
  {
    DropKeeps(h);
    assert [End][..0] == [];
    assert Packets([End]) == [];
    EmptiedKeeps(h, Recorded(h, Close));
  }

  lemma EmptiedKeeps(h: History, next: History)
    requires Inv(h)
    requires Packets(next.track.queue) == [] && |next.track.queue| <= 1
    requires next == h.(track := next.track, dropped := DroppedAll(h))
    requires next.track == h.track.(queue := next.track.queue, closed := next.track.closed)
    requires Kept(h.put, DroppedAll(h)) == Heard(h.played) + HeldPackets(h.track.inHand)
    ensures Inv(next)
  {
    var out := Heard(h.played) + HeldPackets(h.track.inHand);
    assert out + [] == out;
  }

  lemma {:induction false} RunKeeps(events: seq<Event>)
    ensures Inv(After(events))
  {
    if events != [] {
      RunKeeps(events[..|events| - 1]);
      StepKeeps(After(events[..|events| - 1]), events[|events| - 1]);
    }
  }

  // ---- Results over whole runs ----

  /** What is heard between the silences is, in order, a prefix of what was put into the queue
      without what a clear or a close threw away; behind it come the packet in the listener's hand,
      if any, and the queue; and no sample gets lost before the queue. */
  lemma HeardInOrder(events: seq<Event>)
    ensures var h := After(events);
            && Heard(h.played) <= Kept(h.put, h.dropped)
            && Kept(h.put, h.dropped)[|Heard(h.played)|..] == HeldPackets(h.track.inHand) + Packets(h.track.queue)
            && Flat(h.put) + h.track.rest == h.taken
            && |h.track.queue| <= MAX_FRAMES
  {
    RunKeeps(events);
    var h := After(events);
    Assoc(Heard(h.played), HeldPackets(h.track.inHand), Packets(h.track.queue));
  }

  lemma {:induction false} DurationGrows(played: seq<Played>, i: nat, j: nat)
    requires Timed(played) && i < j <= |played|
    ensures Duration(played[..i]) + |played[i].samples| <= Duration(played[..j])
  {
    assert played[..j][..j - 1] == played[..j - 1];
    if i < j - 1 {
      DurationGrows(played, i, j - 1);
    }
  }

  /** Timestamps leave neither gap nor overlap, and strictly increase. */
  lemma TimestampsIncrease(events: seq<Event>, i: nat, j: nat)
    requires i < j < |After(events).played|
    ensures var played := After(events).played;
            && played[i].pts + |played[i].samples| <= played[j].pts
            && played[i].pts < played[j].pts
            && (j == i + 1 ==> played[j].pts == played[i].pts + |played[i].samples|)
  {
    RunKeeps(events);
    var played := After(events).played;
    DurationGrows(played, i, j);
    assert played[..i + 1][..i] == played[..i];
  }

  // ---- What a clear and a close silence ----

  function From(h: History, events: seq<Event>): History {
    if events == [] then h else Recorded(From(h, events[..|events| - 1]), events[|events| - 1])
  }

  /** A run goes on from where it stands. */
  lemma {:induction false} RunGoesOn(a: seq<Event>, b: seq<Event>)
    ensures After(a + b) == From(After(a), b)
    decreases |b|
  {
    if b == [] {
      assert a + b == a;
    } else {
      RunGoesOn(a, b[..|b| - 1]);
      assert (a + b)[..|a + b| - 1] == a + b[..|b| - 1];
    }
  }

  ghost predicate NoEnqueue(events: seq<Event>) {
    forall e :: e in events ==> !e.Enqueue?
  }

  /** No real sample is on its way: none with a held-up producer, none in the queue, none in the
      listener's hand. */
  ghost predicate Quiet(t: Track) {
    t.rest == [] && Packets(t.queue) == [] && HeldPackets(t.inHand) == []
  }

  lemma QuietStep(g: History, e: Event)
    requires !e.Enqueue? || g.track.closed
    requires Quiet(g.track) && Inv(g)
    ensures var n := Recorded(g, e);
            Quiet(n.track) && Heard(n.played) == Heard(g.played) && (g.track.closed ==> n.track.closed)
  {
    match e
    case Take =>
      if g.track.inHand.None? && g.track.queue != [] {
        if g.track.queue[0].End? {
          FirstEnd(g.track.queue);
        } else {
          FirstOf(g.track.queue);
          assert false;
        }
      }
    case Deliver =>
      DeliverKeeps(g);
      assert Heard(g.played) + [] == Heard(g.played);
    case Enqueue(_) =>
    case Resume =>
    case Clear =>
    case Close =>
      assert [End][..0] == [];
      assert Packets([End]) == [];
  }

  lemma {:induction false} StaysQuiet(h: History, events: seq<Event>)
    requires NoEnqueue(events) || h.track.closed
    requires Quiet(h.track) && Inv(h)
    ensures var g := From(h, events);
            Inv(g) && Quiet(g.track) && Heard(g.played) == Heard(h.played) && (h.track.closed ==> g.track.closed)
  {
    if events != [] {
      var init := events[..|events| - 1];
      StaysQuiet(h, init);
      StepKeeps(From(h, init), events[|events| - 1]);
      QuietStep(From(h, init), events[|events| - 1]);
    }
  }

  /** No producer is held up by a full queue, and no receive holds a packet. */
  predicate NothingUnderWay(t: Track) {
    t.rest == [] && HeldPackets(t.inHand) == []
  }

  ghost predicate SilentAfter(h: History, stop: Event, onlyOld: bool) {
    forall events: seq<Event> :: (onlyOld ==> NoEnqueue(events)) ==>
      Heard(From(Recorded(h, stop), events).played) == Heard(h.played)
  }

  /** A clear silences the track until the next enqueue exactly when nothing is under way: a
      producer that is held up goes on putting the rest of its samples, and a receive that waits
      hands on the packet it took. */
  lemma ClearSilences(before: seq<Event>)
    ensures SilentAfter(After(before), Clear, true) <==> NothingUnderWay(After(before).track)
  {
    RunKeeps(before);
    var h := Recorded(After(before), Clear);
    StepKeeps(After(before), Clear);
    if NothingUnderWay(After(before).track) {
      forall events: seq<Event> | NoEnqueue(events)
        ensures Heard(From(h, events).played) == Heard(After(before).played)
      {
        StaysQuiet(h, events);
      }
    } else {
      var events := Leftovers(h);
      assert NoEnqueue(events) && Heard(From(h, events).played) != Heard(h.played);
    }
  }

  /** Events that let what was under way be heard. */
  lemma Leftovers(h: History) returns (events: seq<Event>)
    requires Inv(h) && !NothingUnderWay(h.track)
    requires h.track.queue == [] || (h.track.queue == [End] && h.track.closed)
    ensures NoEnqueue(events)
    ensures Heard(From(h, events).played) != Heard(h.played)
  {
    if HeldPackets(h.track.inHand) != [] {
      events := [Deliver];
      FromOne(h, Deliver);
      DeliverKeeps(h);
    } else {
      events := [Deliver];
      FromOne(h, Deliver);
      DeliverKeeps(h);
      assert Heard(h.played) + [] == Heard(h.played);
      var g := Recorded(h, Deliver);
      var more := RestHeard(g);
      events := [Deliver] + more;
      FromJoin(h, [Deliver], more);
    }
  }

  lemma FromOne(h: History, e: Event)
    ensures From(h, [e]) == Recorded(h, e)
  {
    assert [e][..0] == [];
  }

  lemma {:induction false} FromJoin(h: History, a: seq<Event>, b: seq<Event>)
    ensures From(h, a + b) == From(From(h, a), b)
  {
    if b == [] {
      assert a + b == a;
    } else {
      assert (a + b)[..|a + b| - 1] == a + b[..|b| - 1];
      FromJoin(h, a, b[..|b| - 1]);
    }
  }

  lemma ResumedState(h: History)
    requires Inv(h) && h.track.rest != []
    requires h.track.queue == [] || h.track.queue == [End]
    ensures var g, p := Recorded(h, Resume), FirstPacket(h.track.rest);
            && g.track.inHand == h.track.inHand && g.played == h.played
            && ([Packet(p)] <= g.track.queue || [End, Packet(p)] <= g.track.queue)
  {
    FillHead(h.track);
    var p, queue := FirstPacket(h.track.rest), Filled(h.track).queue;
    assert if h.track.queue == [] then queue[..1] == [Packet(p)] else queue[..2] == [End, Packet(p)];
  }

  /** With the listener's hand empty, what a held-up producer still has is heard, past the end
      marker if there is one. */
  lemma RestHeard(h: History) returns (events: seq<Event>)
    requires Inv(h) && h.track.rest != [] && h.track.inHand.None?
    requires h.track.queue == [] || h.track.queue == [End]
    ensures NoEnqueue(events)
    ensures Heard(From(h, events).played) == Heard(h.played) + [FirstPacket(h.track.rest)]
  {
    ResumedState(h);
    ResumeKeeps(h);
    FromOne(h, Resume);
    var more := PacketHeard(Recorded(h, Resume), FirstPacket(h.track.rest));
    events := [Resume] + more;
    FromJoin(h, [Resume], more);
  }

  lemma PacketHeard(g: History, p: Samples) returns (events: seq<Event>)
    requires Inv(g) && g.track.inHand.None?
    requires [Packet(p)] <= g.track.queue || [End, Packet(p)] <= g.track.queue
    ensures NoEnqueue(events)
    ensures Heard(From(g, events).played) == Heard(g.played) + [p]
  {
    if [Packet(p)] <= g.track.queue {
      TakenIsHeard(g, p);
      events := [Take, Deliver];
    } else {
      assert g.track.queue[0] == End && g.track.queue[1] == Packet(p);
      TakeKeeps(g);
      FromOne(g, Take);
      TakenIsHeard(Recorded(g, Take), p);
      events := [Take] + [Take, Deliver];
      FromJoin(g, [Take], [Take, Deliver]);
    }
  }

  lemma TakenIsHeard(h: History, p: Samples)
    requires Inv(h) && h.track.inHand.None? && h.track.queue != [] && h.track.queue[0] == Packet(p)
    ensures Heard(From(h, [Take, Deliver]).played) == Heard(h.played) + [p]
  {
    assert [Take, Deliver][..1] == [Take];
    FromOne(h, Take);
    StepKeeps(h, Take);
    DeliverKeeps(Recorded(h, Take));
  }

  lemma FillHead(t: Track)
    requires |t.queue| < MAX_FRAMES && t.rest != []
    ensures |Filled(t).queue| > |t.queue|
    ensures Filled(t).queue[..|t.queue| + 1] == t.queue + [Packet(FirstPacket(t.rest))]
    ensures Filled(t).inHand == t.inHand
  {
    var next := PutOne(t);
    FillExtends(next);
    assert Filled(t).queue[..|next.queue|] == next.queue;
  }

  lemma {:induction false} FillExtends(t: Track)
    ensures |Filled(t).queue| >= |t.queue| && Filled(t).queue[..|t.queue|] == t.queue
    ensures Filled(t).inHand == t.inHand
    decreases |t.rest|
  {
    if t.rest != [] && |t.queue| < MAX_FRAMES {
      var next := PutOne(t);
      FillExtends(next);
      assert Filled(t).queue[..|t.queue|] == Filled(next).queue[..|next.queue|][..|t.queue|];
    }
  }

  lemma ClosedState(before: seq<Event>)
    ensures var h := Recorded(After(before), Close);
            && Inv(h) && h.track.queue == [End] && Packets(h.track.queue) == []
            && h.track.closed && h.track.rest == After(before).track.rest
            && h.track.inHand == After(before).track.inHand && h.played == After(before).played
  {
    RunKeeps(before);
    StepKeeps(After(before), Close);
    assert [End][..0] == [];
  }

  /** With nothing under way, every receive begun after a close finds the end, and no real frame is
      heard any more. */
  lemma CloseEnds(before: seq<Event>, events: seq<Event>)
    requires NothingUnderWay(After(before).track)
    ensures var g := From(Recorded(After(before), Close), events);
            && (g.track.inHand.None? ==> Taken(g.track).0)
            && Heard(g.played) == Heard(After(before).played)
  {
    ClosedState(before);
    var h := Recorded(After(before), Close);
    StaysQuiet(h, events);
    var g := From(h, events);
    if g.track.queue != [] && g.track.queue[0].Packet? {
      FirstOf(g.track.queue);
      assert false;
    }
  }

  /** And exactly then: a producer held up at the close goes on behind the end marker, where a
      listener that goes on as well hears it, and a receive that waits hands on its packet. */
  lemma CloseSilences(before: seq<Event>)
    ensures SilentAfter(After(before), Close, false) <==> NothingUnderWay(After(before).track)
  {
    var h := Recorded(After(before), Close);
    ClosedState(before);
    if NothingUnderWay(h.track) {
      forall events: seq<Event>
        ensures Heard(From(h, events).played) == Heard(After(before).played)
      {
        CloseEnds(before, events);
      }
    } else {
      var events := Leftovers(h);
      assert Heard(From(h, events).played) != Heard(After(before).played);
    }
  }

  // ---- The track itself ----

  class OutboundAudioTrack {
    var queue: seq<Item>
    var closed: bool
    var nextPts: nat
    var pendingPcm: Samples
    var inHand: Option<Frame>

    function Now(): Track
      reads this
    {
      Track(queue, closed, nextPts, pendingPcm, inHand)
    }

    ghost predicate Valid()
      reads this
    {
      |queue| <= MAX_FRAMES
    }

    constructor ()
      ensures Valid() && Now() == START.track
    {
      queue, closed, nextPts, pendingPcm, inHand := [], false, 0, [], None;
    }

    /** One producer at a time: `waits` tells that another one holds the lock. */
    method EnqueuePcm(pcm: Samples) returns (waits: bool)
      requires Valid()
      modifies this
      ensures Valid() && Now() == Stepped(old(Now()), Enqueue(pcm))
      ensures waits <==> pcm != [] && !old(closed) && old(pendingPcm) != []
    {
      waits := false;
      if pcm == [] {
        assert Filled(Now().(rest := [])) == Now().(rest := []);
        return;
      }
      if closed {
        return;
      }
      if pendingPcm != [] {
        waits := true;
        return;
      }
      pendingPcm := pcm;
      PutPackets();
    }

    /** Puts packets until the samples run out or the queue is full. */
    method PutPackets()
      requires Valid()
      modifies this`queue, this`pendingPcm
      ensures Valid() && Now() == Filled(old(Now()))
    {
      while pendingPcm != [] && |queue| < MAX_FRAMES
        invariant Valid()
        invariant Filled(Now()) == Filled(old(Now()))
        decreases |pendingPcm|
      {
        var packet := FirstPacket(pendingPcm);
        queue := queue + [Packet(packet)];
        pendingPcm := pendingPcm[|packet|..];
      }
    }

    method DrainQueue()
      modifies this`queue
      ensures queue == []
    {
      while queue != []
        decreases |queue|
      {
        queue := queue[1..];
      }
    }

    method Clear()
      requires Valid()
      modifies this`queue
      ensures Valid() && Now() == Stepped(old(Now()), Event.Clear)
    {
      DrainQueue();
    }

    /** The queue has just been emptied, so the end marker always fits. */
    method Close()
      requires Valid()
      modifies this`queue, this`closed
      ensures Valid() && Now() == Stepped(old(Now()), Event.Close)
    {
      closed := true;
      DrainQueue();
      if |queue| >= MAX_FRAMES {
        assert false;
      }
      queue := queue + [End];
    }

    /** A receive up to its sleep; `ended` is the end of the stream. */
    method BeginRecv() returns (ended: bool)
      requires Valid() && inHand.None?
      modifies this`queue, this`inHand
      ensures Valid() && Now() == Stepped(old(Now()), Take)
      ensures ended <==> inHand.None?
      ensures ended <==> (old(queue) == [] && closed) || (old(queue) != [] && old(queue)[0].End?)
    {
      if closed && queue == [] {
        return true;
      }
      var item := Packet(Silence());
      var isSilence := queue == [];
      if queue != [] {
        item := queue[0];
        queue := queue[1..];
      }
      if item.End? {
        return true;
      }
      inHand := Some(Frame(item.samples, isSilence));
      ended := false;
    }

    /** And from its sleep on: whatever happened to the queue meanwhile, the frame goes out. */
    method FinishRecv() returns (frame: Played)
      requires Valid() && inHand.Some?
      modifies this`nextPts, this`inHand
      ensures Valid() && Now() == Stepped(old(Now()), Deliver)
      ensures frame == Played(old(nextPts), old(inHand).value.samples, old(inHand).value.isSilence)
    {
      var taken := inHand.value;
      frame := Played(nextPts, taken.samples, taken.isSilence);
      nextPts := nextPts + |taken.samples|;
      inHand := None;
    }
  }
}
