/** The reordering audio buffer: chunks arrive in any order and any number of times, and come out
    as one contiguous stretch of audio. */
module AudioBuffering {
  import opened Options

  type Byte = x: int | 0 <= x < 256
  type Bytes = seq<Byte>

  datatype Arrival = Arrival(number: nat, chunk: Bytes)

  /** The buffer's contents; `next` is the number of the chunk it waits for. */
  datatype Contents = Contents(chunks: seq<Bytes>, pending: map<nat, Bytes>, next: Option<nat>)

  const EMPTY := Contents([], map[], None)

  function Concat(chunks: seq<Bytes>): Bytes {
    if chunks == [] then [] else Concat(chunks[..|chunks| - 1]) + chunks[|chunks| - 1]
  }

  /** Each chunk is there, whole, right behind those before it. */
  lemma {:induction false} ChunksAbut(chunks: seq<Bytes>, i: nat)
    requires i < |chunks|
    ensures |Concat([])| == 0
    ensures |Concat(chunks[..i])| + |chunks[i]| == |Concat(chunks[..i + 1])| <= |Concat(chunks)|
    ensures Concat(chunks)[|Concat(chunks[..i])|..|Concat(chunks[..i + 1])|] == chunks[i]
  {
    var init := chunks[..|chunks| - 1];
    if i < |init| {
      ChunksAbut(init, i);
      assert init[..i] == chunks[..i] && init[..i + 1] == chunks[..i + 1];
    } else {
      assert chunks[..i + 1] == chunks;
    }
  }

  lemma ConcatLast(chunks: seq<Bytes>, chunk: Bytes)
    ensures Concat(chunks + [chunk]) == Concat(chunks) + chunk
  {
    assert (chunks + [chunk])[..|chunks|] == chunks;
  }

  // ---- What one arrival does ----

  /** The pending chunks once one has been popped. */
  function Without(pending: map<nat, Bytes>, n: nat): (rest: map<nat, Bytes>)
    ensures rest.Keys == pending.Keys - {n}
    ensures forall k :: k in rest ==> rest[k] == pending[k]
  {
    pending - {n}
  }

  function Flushed(chunks: seq<Bytes>, pending: map<nat, Bytes>, next: nat): Contents
    decreases pending.Keys
  {
    if next in pending then Flushed(chunks + [pending[next]], Without(pending, next), next + 1)
    else Contents(chunks, pending, Some(next))
  }

  lemma FlushesOne(chunks: seq<Bytes>, pending: map<nat, Bytes>, next: nat)
    requires next in pending
    ensures Flushed(chunks, pending, next) == Flushed(chunks + [pending[next]], Without(pending, next), next + 1)
    ensures Without(pending, next).Keys < pending.Keys
  {
  }

  /** What a flush leaves waiting lies behind the number it waits for. */
  lemma {:induction false} FlushLeavesLater(chunks: seq<Bytes>, pending: map<nat, Bytes>, next: nat)
    requires forall n :: n in pending ==> n >= next
    ensures var c := Flushed(chunks, pending, next);
            c.next.Some? && forall n :: n in c.pending ==> n > c.next.value
    decreases pending.Keys
  {
    if next in pending {
      FlushesOne(chunks, pending, next);
      FlushLeavesLater(chunks + [pending[next]], Without(pending, next), next + 1);
    }
  }

  function Added(c: Contents, a: Arrival): Contents {
    if a.chunk == [] then c
    else
      var next := if c.next.None? then a.number else c.next.value;
      if a.number < next || a.number in c.pending then c.(next := Some(next))
      else Flushed(c.chunks, c.pending[a.number := a.chunk], next)
  }

  function AddedAll(arrivals: seq<Arrival>): Contents {
    if arrivals == [] then EMPTY
    else Added(AddedAll(arrivals[..|arrivals| - 1]), arrivals[|arrivals| - 1])
  }

  // ---- What the arrivals as a whole mean ----

  /** The first non-empty chunk to arrive under a number. */
  function First(arrivals: seq<Arrival>, n: nat): Option<Bytes> {
    if arrivals == [] then None
    else
      var before := First(arrivals[..|arrivals| - 1], n);
      var last := arrivals[|arrivals| - 1];
      if before.Some? then before
      else if last.number == n && last.chunk != [] then Some(last.chunk)
      else None
  }

  /** The number of the first non-empty arrival, where the audio starts. */
  function Base(arrivals: seq<Arrival>): Option<nat> {
    if arrivals == [] then None
    else
      var before := Base(arrivals[..|arrivals| - 1]);
      var last := arrivals[|arrivals| - 1];
      if before.Some? then before
      else if last.chunk != [] then Some(last.number)
      else None
  }

  /** `chunks` are the first arrivals under `base`, `base + 1`, ... up to the first gap. */
  ghost predicate IsRunFrom(arrivals: seq<Arrival>, base: nat, chunks: seq<Bytes>) {
    && (forall n :: base <= n < base + |chunks| ==> First(arrivals, n) == Some(chunks[n - base]))
    && First(arrivals, base + |chunks|) == None
  }

  /** The buffer holds exactly the maximal contiguous run from the base, in order, and beyond the
      gap exactly the first arrivals that wait there. */
  ghost predicate Holds(c: Contents, arrivals: seq<Arrival>) {
    if Base(arrivals).None? then c == EMPTY
    else
      var base := Base(arrivals).value;
      && IsRunFrom(arrivals, base, c.chunks)
      && c.next == Some(base + |c.chunks|)
      && (forall n :: n in c.pending <==> n > base + |c.chunks| && First(arrivals, n).Some?)
      && (forall n :: n in c.pending ==> First(arrivals, n) == Some(c.pending[n]))
  }

  ghost predicate InPlace(first: nat -> Option<Bytes>, base: nat, chunks: seq<Bytes>) {
    forall n :: base <= n < base + |chunks| ==> first(n) == Some(chunks[n - base])
  }

  ghost predicate Waiting(first: nat -> Option<Bytes>, from: nat, pending: map<nat, Bytes>) {
    && (forall n :: n in pending <==> n >= from && first(n).Some?)
    && (forall n :: n in pending ==> first(n) == Some(pending[n]))
  }

  lemma OneFlushed(first: nat -> Option<Bytes>, base: nat, chunks: seq<Bytes>, pending: map<nat, Bytes>)
    requires InPlace(first, base, chunks) && Waiting(first, base + |chunks|, pending)
    requires base + |chunks| in pending
    ensures InPlace(first, base, chunks + [pending[base + |chunks|]])
    ensures Waiting(first, base + |chunks| + 1, Without(pending, base + |chunks|))
  {
  }

  /** If the chunks in place and pending are those of `first`, they still are after flushing,
      and the awaited number is then its first gap. */
  lemma {:induction false} FlushFills(first: nat -> Option<Bytes>, base: nat, chunks: seq<Bytes>, pending: map<nat, Bytes>)
    requires InPlace(first, base, chunks) && Waiting(first, base + |chunks|, pending)
    ensures var c := Flushed(chunks, pending, base + |chunks|);
            && c.next == Some(base + |c.chunks|)
            && InPlace(first, base, c.chunks)
            && Waiting(first, base + |c.chunks|, c.pending)
            && base + |c.chunks| !in c.pending
    decreases pending.Keys
  {
    var next := base + |chunks|;
    if next in pending {
      OneFlushed(first, base, chunks, pending);
      var longer := chunks + [pending[next]];
      assert |longer| == |chunks| + 1;
      FlushFills(first, base, longer, Without(pending, next));
    }
  }

  lemma FlushFillsRun(arrivals: seq<Arrival>, base: nat, chunks: seq<Bytes>, pending: map<nat, Bytes>)
    requires Base(arrivals) == Some(base)
    requires forall n :: base <= n < base + |chunks| ==> First(arrivals, n) == Some(chunks[n - base])
    requires forall n :: n in pending <==> n >= base + |chunks| && First(arrivals, n).Some?
    requires forall n :: n in pending ==> First(arrivals, n) == Some(pending[n])
    ensures Holds(Flushed(chunks, pending, base + |chunks|), arrivals)
  {
    var first := (n: nat) => First(arrivals, n);
    FlushFills(first, base, chunks, pending);
    var c := Flushed(chunks, pending, base + |chunks|);
    assert forall n: nat :: first(n) == First(arrivals, n);
    assert IsRunFrom(arrivals, base, c.chunks);
  }

  lemma FirstArrivalKeeps(c: Contents, arrivals: seq<Arrival>, a: Arrival)
    requires Holds(c, arrivals) && Base(arrivals).None? && a.chunk != []
    ensures Holds(Added(c, a), arrivals + [a])
  {
    LongerHistory(arrivals, a);
    NothingArrived(arrivals);
    assert c.pending[a.number := a.chunk] == map[a.number := a.chunk];
    FlushFillsRun(arrivals + [a], a.number, [], map[a.number := a.chunk]);
  }

  lemma NewArrivalKeeps(c: Contents, arrivals: seq<Arrival>, a: Arrival)
    requires Holds(c, arrivals) && Base(arrivals).Some? && a.chunk != []
    requires a.number >= Base(arrivals).value + |c.chunks| && a.number !in c.pending
    ensures Holds(Added(c, a), arrivals + [a])
  {
    LongerHistory(arrivals, a);
    FlushFillsRun(arrivals + [a], Base(arrivals).value, c.chunks, c.pending[a.number := a.chunk]);
  }

  lemma LateArrivalKeeps(c: Contents, arrivals: seq<Arrival>, a: Arrival)
    requires Holds(c, arrivals) && Base(arrivals).Some? && a.chunk != []
    requires a.number < Base(arrivals).value + |c.chunks| || a.number in c.pending
    ensures Holds(Added(c, a), arrivals + [a])
  {
    LongerHistory(arrivals, a);
    var longer, base := arrivals + [a], Base(arrivals).value;
    assert a.number < base || First(arrivals, a.number).Some?;
    assert forall n :: n >= base ==> First(longer, n) == First(arrivals, n);
    assert First(longer, base + |c.chunks|) == None;
  }

  lemma ArrivalKeeps(c: Contents, arrivals: seq<Arrival>, a: Arrival)
    requires Holds(c, arrivals)
    ensures Holds(Added(c, a), arrivals + [a])
  {
    if a.chunk == [] {
      LongerHistory(arrivals, a);
    } else if Base(arrivals).None? {
      FirstArrivalKeeps(c, arrivals, a);
    } else if a.number >= Base(arrivals).value + |c.chunks| && a.number !in c.pending {
      NewArrivalKeeps(c, arrivals, a);
    } else {
      LateArrivalKeeps(c, arrivals, a);
    }
  }

  lemma LongerHistory(arrivals: seq<Arrival>, a: Arrival)
    ensures forall n :: First(arrivals + [a], n) ==
              if First(arrivals, n).Some? then First(arrivals, n)
              else if n == a.number && a.chunk != [] then Some(a.chunk) else None
    ensures Base(arrivals + [a]) ==
              if Base(arrivals).Some? then Base(arrivals)
              else if a.chunk != [] then Some(a.number) else None
  {
    var longer := arrivals + [a];
    assert longer[..|longer| - 1] == arrivals && longer[|longer| - 1] == a;
  }

  lemma {:induction false} NothingArrived(arrivals: seq<Arrival>)
    requires Base(arrivals).None?
    ensures forall n :: First(arrivals, n).None?
  {
    if arrivals != [] {
      NothingArrived(arrivals[..|arrivals| - 1]);
    }
  }

  /** Whatever arrived, in whatever order and however often, the buffer holds the maximal run. */
  lemma {:induction false} BufferHoldsRun(arrivals: seq<Arrival>)
    ensures Holds(AddedAll(arrivals), arrivals)
  {
    if arrivals != [] {
      var init := arrivals[..|arrivals| - 1];
      BufferHoldsRun(init);
      ArrivalKeeps(AddedAll(init), init, arrivals[|arrivals| - 1]);
      assert init + [arrivals[|arrivals| - 1]] == arrivals;
    }
  }

  // ---- Arrival order does not matter ----

  /** Two histories with the same base and the same first arrivals from it on fill the buffer
      alike: order, duplicates, empty chunks and anything below the base leave no trace. */
  lemma ArrivalOrderIrrelevant(a: seq<Arrival>, b: seq<Arrival>)
    requires Base(a) == Base(b)
    requires Base(a).Some? ==> forall n :: n >= Base(a).value ==> First(a, n) == First(b, n)
    ensures AddedAll(a) == AddedAll(b)
  {
    BufferHoldsRun(a);
    BufferHoldsRun(b);
    if Base(a).Some? {
      RunIsUnique(a, b, Base(a).value, AddedAll(a).chunks, AddedAll(b).chunks);
      assert AddedAll(a).pending == AddedAll(b).pending;
    }
  }

  lemma RunIsUnique(a: seq<Arrival>, b: seq<Arrival>, base: nat, p: seq<Bytes>, q: seq<Bytes>)
    requires IsRunFrom(a, base, p) && IsRunFrom(b, base, q)
    requires forall n :: n >= base ==> First(a, n) == First(b, n)
    ensures p == q
  {
    NotPastGap(a, b, base, p, q);
    NotPastGap(b, a, base, q, p);
    forall i | 0 <= i < |p|
      ensures p[i] == q[i]
    {
      assert First(a, base + i) == First(b, base + i);
    }
  }

  lemma NotPastGap(a: seq<Arrival>, b: seq<Arrival>, base: nat, p: seq<Bytes>, q: seq<Bytes>)
    requires IsRunFrom(a, base, p) && IsRunFrom(b, base, q)
    requires forall n :: n >= base ==> First(a, n) == First(b, n)
    ensures |q| <= |p|
  {
    assert First(b, base + |p|) == None;
  }

  /** The same number never comes with different audio. */
  ghost predicate Consistent(arrivals: seq<Arrival>) {
    forall a, b :: a in arrivals && b in arrivals && a.chunk != [] && b.chunk != [] && a.number == b.number ==> a == b
  }

  lemma {:induction false} FirstIsAnArrival(arrivals: seq<Arrival>, n: nat)
    ensures First(arrivals, n).Some? ==> First(arrivals, n).value != [] && Arrival(n, First(arrivals, n).value) in arrivals
    ensures First(arrivals, n).None? ==> forall a :: a in arrivals && a.number == n ==> a.chunk == []
  {
    if arrivals != [] {
      var init := arrivals[..|arrivals| - 1];
      FirstIsAnArrival(init, n);
      assert arrivals == init + [arrivals[|arrivals| - 1]];
    }
  }

  /** Reordering and repeating arrivals changes nothing as long as both start with the same number
      and repeats carry the same audio. */
  lemma ReorderingIrrelevant(a: seq<Arrival>, b: seq<Arrival>)
    requires Base(a) == Base(b)
    requires Consistent(a)
    requires forall x: Arrival :: x.chunk != [] ==> (x in a <==> x in b)
    ensures AddedAll(a) == AddedAll(b)
  {
    forall n: nat
      ensures First(a, n) == First(b, n)
    {
      FirstIsAnArrival(a, n);
      FirstIsAnArrival(b, n);
    }
    ArrivalOrderIrrelevant(a, b);
  }

  // ---- The buffer itself ----

  datatype Outcome = Ok | NegativeSequence | Closed

  class AudioBuffer {
    var orderedChunks: seq<Bytes>
    var pending: map<nat, Bytes>
    var nextExpected: Option<nat>
    var totalBytes: nat
    var flatCache: Option<Bytes>
    var closed: bool
    /** Every chunk accepted since the buffer was last cleared. */
    ghost var arrivals: seq<Arrival>

    function Now(): Contents
      reads this
    {
      Contents(orderedChunks, pending, nextExpected)
    }

    /** The cache, when there is one, is the audio; the byte count is its length; and what is
        pending lies strictly beyond the awaited number. */
    ghost predicate Valid()
      reads this
    {
      && Holds(Now(), arrivals)
      && totalBytes == |Concat(orderedChunks)|
      && (flatCache.Some? ==> flatCache.value == Concat(orderedChunks))
      && (nextExpected.None? ==> orderedChunks == [] && pending == map[])
      && (nextExpected.Some? ==> forall n :: n in pending ==> n > nextExpected.value)
    }

    constructor ()
      ensures Valid() && !closed && arrivals == [] && Now() == EMPTY
    {
      orderedChunks := [];
      pending := map[];
      nextExpected := None;
      totalBytes := 0;
      flatCache := None;
      closed := false;
      arrivals := [];
    }

    method AddChunk(sequenceNumber: int, chunk: Bytes) returns (outcome: Outcome)
      requires Valid()
      modifies this
      ensures Valid() && closed == old(closed)
      ensures outcome == if sequenceNumber < 0 then NegativeSequence
                         else if chunk != [] && closed then Closed else Ok
      ensures outcome == Ok ==>
                arrivals == old(arrivals) + [Arrival(sequenceNumber, chunk)]
                && Now() == Added(old(Now()), Arrival(sequenceNumber, chunk))
      ensures outcome != Ok ==> arrivals == old(arrivals) && Now() == old(Now())
    {
      if sequenceNumber < 0 {
        return NegativeSequence;
      }
      ghost var a := Arrival(sequenceNumber, chunk);
      if chunk != [] && closed {
        return Closed;
      }
      ghost var added := Added(Now(), a);
      assert Holds(added, arrivals + [a]) by {
        ArrivalKeeps(Now(), arrivals, a);
      }
      outcome := Ok;
      arrivals := arrivals + [a];
      if chunk == [] {
        return;
      }
      if nextExpected.None? {
        nextExpected := Some(sequenceNumber);
      }
      if sequenceNumber < nextExpected.value || sequenceNumber in pending {
        return;
      }
      pending := pending[sequenceNumber := chunk];
      FlushContiguous();
    }

    method FlushContiguous()
      requires nextExpected.Some?
      requires totalBytes == |Concat(orderedChunks)|
      requires flatCache.Some? ==> flatCache.value == Concat(orderedChunks)
      requires forall n :: n in pending ==> n >= nextExpected.value
      modifies this`orderedChunks, this`pending, this`nextExpected, this`totalBytes, this`flatCache
      ensures Now() == Flushed(old(orderedChunks), old(pending), old(nextExpected).value)
      ensures totalBytes == |Concat(orderedChunks)|
      ensures flatCache.Some? ==> flatCache.value == Concat(orderedChunks)
      ensures nextExpected.Some? && forall n :: n in pending ==> n > nextExpected.value
    {
      ghost var end := Flushed(orderedChunks, pending, nextExpected.value);
      FlushLeavesLater(orderedChunks, pending, nextExpected.value);
      while nextExpected.value in pending
        invariant nextExpected.Some?
        invariant Flushed(orderedChunks, pending, nextExpected.value) == end
        invariant totalBytes == |Concat(orderedChunks)|
        invariant flatCache == None || (flatCache == old(flatCache) && orderedChunks == old(orderedChunks))
        decreases pending.Keys
      {
        var n := nextExpected.value;
        var chunk := pending[n];
        ConcatLast(orderedChunks, chunk);
        FlushesOne(orderedChunks, pending, n);
        pending := Without(pending, n);
        orderedChunks := orderedChunks + [chunk];
        totalBytes := totalBytes + |chunk|;
        flatCache := None;
        nextExpected := Some(n + 1);
      }
    }

    /** The audio of the contiguous run, from the cache or merged afresh. */
    method GetFlatAudio() returns (audio: Option<Bytes>)
      requires Valid()
      modifies this`flatCache
      ensures Valid()
      ensures closed ==> audio == None && flatCache == old(flatCache)
      ensures !closed ==> audio == Some(Concat(orderedChunks)) && flatCache == audio
    {
      if closed {
        return None;
      }
      if flatCache.Some? {
        return flatCache;
      }
      if totalBytes == 0 {
        flatCache := Some([]);
        return flatCache;
      }
      var merged := new Byte[totalBytes](i => 0);
      var offset := 0;
      var i := 0;
      assert orderedChunks[..|orderedChunks|] == orderedChunks;
      while i < |orderedChunks|
        invariant 0 <= i <= |orderedChunks|
        invariant offset == |Concat(orderedChunks[..i])| <= merged.Length
        invariant merged[..offset] == Concat(orderedChunks[..i])
      {
        var chunk := orderedChunks[i];
        OneMoreChunk(orderedChunks, i);
        forall k | 0 <= k < |chunk| {
          merged[offset + k] := chunk[k];
        }
        assert merged[..offset + |chunk|] == Concat(orderedChunks[..i]) + chunk;
        offset := offset + |chunk|;
        i := i + 1;
      }
      assert merged[..] == merged[..offset];
      flatCache := Some(merged[..]);
      audio := flatCache;
    }

    method Clear()
      requires Valid()
      modifies this
      ensures Valid() && closed == old(closed) && arrivals == [] && Now() == EMPTY && flatCache == Some([])
    {
      orderedChunks := [];
      pending := map[];
      nextExpected := None;
      totalBytes := 0;
      flatCache := Some([]);
      arrivals := [];
    }

    /** One round of the silence monitor; `idle` is whether the time to live has passed. */
    method SweepSilence(idle: bool)
      requires Valid()
      modifies this
      ensures Valid() && closed == old(closed)
      ensures var cleared := !closed && idle && (old(orderedChunks) != [] || old(pending) != map[]);
              if cleared then arrivals == [] && Now() == EMPTY
              else arrivals == old(arrivals) && Now() == old(Now())
    {
      if closed {
        return;
      }
      if idle && (orderedChunks != [] || pending != map[]) {
        Clear();
      }
    }

    method Close()
      requires Valid()
      modifies this
      ensures Valid() && closed
      ensures !old(closed) ==> arrivals == [] && Now() == EMPTY
      ensures old(closed) ==> arrivals == old(arrivals) && Now() == old(Now())
    {
      if closed {
        return;
      }
      closed := true;
      Clear();
    }
  }

  lemma {:induction false} PrefixLength(chunks: seq<Bytes>, i: nat)
    requires i <= |chunks|
    ensures |Concat(chunks[..i])| <= |Concat(chunks)|
    decreases |chunks| - i
  {
    if i < |chunks| {
      PrefixLength(chunks, i + 1);
      assert chunks[..i + 1][..i] == chunks[..i];
    } else {
      assert chunks[..i] == chunks;
    }
  }

  lemma OneMoreChunk(chunks: seq<Bytes>, i: nat)
    requires i < |chunks|
    ensures Concat(chunks[..i + 1]) == Concat(chunks[..i]) + chunks[i]
    ensures |Concat(chunks[..i + 1])| <= |Concat(chunks)|
  {
    PrefixLength(chunks, i + 1);
    assert chunks[..i + 1][..i] == chunks[..i];
  }
}
