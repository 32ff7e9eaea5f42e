/** The queue between the voice detector and the recognition loop: finals displace partials, and
    the count of unfinished jobs, which `join` waits on, is kept by hand when jobs are dropped. */
module InferenceQueueing {
  import opened Options

  datatype Job = Job(isFinal: bool, bytes: nat, id: nat)

  /** `unfinished` is asyncio's own counter; `inFlight` is the job the recognition loop has taken
      and not yet marked done; `busy` is set around the recogniser's call alone. */
  datatype Queue = Queue(jobs: seq<Job>, unfinished: nat, inFlight: Option<Job>, busy: bool)

  const EMPTY := Queue([], 0, None, false)

  predicate HasFinal(jobs: seq<Job>) {
    exists i :: 0 <= i < |jobs| && jobs[i].isFinal
  }

  function Finals(jobs: seq<Job>): (kept: seq<Job>)
    ensures |kept| <= |jobs|
  {
    if jobs == [] then [] else
      var init := Finals(jobs[..|jobs| - 1]);
      if jobs[|jobs| - 1].isFinal then init + [jobs[|jobs| - 1]] else init
  }

  lemma {:induction false} FinalsAre(jobs: seq<Job>)
    ensures forall j :: j in Finals(jobs) <==> j in jobs && j.isFinal
    ensures Finals(jobs) == [] <==> !HasFinal(jobs)
    ensures HasFinal(Finals(jobs)) <==> HasFinal(jobs)
  {
    if jobs != [] {
      var init, last := jobs[..|jobs| - 1], jobs[|jobs| - 1];
      FinalsAre(init);
      assert jobs == init + [last];
      assert HasFinal(jobs) <==> HasFinal(init) || last.isFinal;
      if last.isFinal {
        assert Finals(jobs)[|Finals(jobs)| - 1] == last;
      }
    }
  }

  /** Marking a job done; the counter may not go below zero, where asyncio would raise. */
  function Done(unfinished: nat, times: nat): nat {
    if times <= unfinished then unfinished - times else 0
  }

  /** How an enqueue ended. */
  datatype Branch =
    | NothingToDo
    | PartialYields
    | FinalAlreadyWaiting
    | PartialQueueFull
    | FinalQueueFull
    | Put(displacedOne: bool)

  function Dropped(q: Queue): Queue {
    var kept := Finals(q.jobs);
    q.(jobs := kept, unfinished := Done(q.unfinished, |q.jobs| - |kept|))
  }

  function DroppedOne(q: Queue): Queue {
    if q.jobs == [] then q else q.(jobs := q.jobs[1..], unfinished := Done(q.unfinished, 1))
  }

  function PutLast(q: Queue, job: Job): Queue {
    q.(jobs := q.jobs + [job], unfinished := q.unfinished + 1)
  }

  function Enqueued(q: Queue, job: Job, maxSize: nat): (Queue, Branch) {
    if job.bytes == 0 then (q, NothingToDo)
    else if !job.isFinal && (q.busy || HasFinal(q.jobs)) then (q, PartialYields)
    else
      var q1 := if job.isFinal then Dropped(q) else q;
      if job.isFinal && HasFinal(q1.jobs) then (q1, FinalAlreadyWaiting)
      else if |q1.jobs| >= maxSize && !job.isFinal then (q1, PartialQueueFull)
      else
        var full := |q1.jobs| >= maxSize;
        var q2 := if full then DroppedOne(q1) else q1;
        if |q2.jobs| >= maxSize then (q2, if job.isFinal then FinalQueueFull else PartialQueueFull)
        else (PutLast(q2, job), Put(full))
  }

  // ---- Runs ----

  /** `Stop` is the shutdown job, put directly and only once there is room; `Take` and `Finish`
      are the recognition loop's two ends of a job. */
  datatype Event = Offer(job: Job) | Stop(id: nat) | Take | Finish | Busy(busy: bool)

  predicate Can(q: Queue, e: Event, maxSize: nat) {
    match e
    case Offer(_) => true
    case Stop(_) => |q.jobs| < maxSize
    case Take => q.inFlight.None? && q.jobs != []
    case Finish => q.inFlight.Some?
    case Busy(_) => true
  }

  function Do(q: Queue, e: Event, maxSize: nat): Queue
    requires Can(q, e, maxSize)
  {
    match e
    case Offer(job) => Enqueued(q, job, maxSize).0
    case Stop(id) => PutLast(q, Job(true, 0, id))
    case Take => q.(jobs := q.jobs[1..], inFlight := Some(q.jobs[0]))
    case Finish => q.(inFlight := None, unfinished := Done(q.unfinished, 1))
    case Busy(busy) => q.(busy := busy)
  }

  ghost predicate Runs(q: Queue, es: seq<Event>, maxSize: nat)
    decreases |es|
  {
    es == [] || (Can(q, es[0], maxSize) && Runs(Do(q, es[0], maxSize), es[1..], maxSize))
  }

  ghost function Ends(q: Queue, es: seq<Event>, maxSize: nat): Queue
    requires Runs(q, es, maxSize)
    decreases |es|
  {
    if es == [] then q else Ends(Do(q, es[0], maxSize), es[1..], maxSize)
  }

  function InHand(q: Queue): nat {
    if q.inFlight.Some? then 1 else 0
  }

  predicate Inv(q: Queue, maxSize: nat) {
    q.unfinished == |q.jobs| + InHand(q) && |q.jobs| <= maxSize
  }

  /** The accounting survives every step, and no step tries to mark more jobs done than there
      are unfinished ones. */
  lemma StepKeeps(q: Queue, e: Event, maxSize: nat)
    requires maxSize >= 1 && Inv(q, maxSize)
    requires Can(q, e, maxSize)
    ensures Inv(Do(q, e, maxSize), maxSize)
  {
    if e.Offer? {
      OfferOutcome(q, e.job, maxSize);
    }
  }

  /** What an offer does. A final displaces all waiting partials and is then either put or, only
      if another final already waits, lost; a waiting final is never displaced; and the branches
      that drop one job or give up on a full queue cannot be taken by a final at any size. */
  lemma OfferOutcome(q: Queue, job: Job, maxSize: nat)
    requires maxSize >= 1 && Inv(q, maxSize)
    ensures var (q', branch) := Enqueued(q, job, maxSize);
            && Inv(q', maxSize) && Can(q, Offer(job), maxSize)
            && branch != FinalQueueFull && branch != Put(true)
            && (branch == Put(false) ==> q'.jobs == (if job.isFinal then [job] else q.jobs + [job]))
            && (job.isFinal && job.bytes > 0 ==>
                  if HasFinal(q.jobs) then branch == FinalAlreadyWaiting && q'.jobs == Finals(q.jobs)
                  else branch == Put(false))
            && Finals(q.jobs) <= Finals(q'.jobs)
            && q'.inFlight == q.inFlight && q'.busy == q.busy
  {
    var (q', branch) := Enqueued(q, job, maxSize);
    var q1 := if job.isFinal then Dropped(q) else q;
    FinalsOfFinals(q.jobs);
    FinalsAre(q.jobs);
    if branch.Put? {
      assert q'.jobs[..|q'.jobs| - 1] == q1.jobs;
    }
  }

  /** A partial is put, behind all that wait, exactly if it has audio, the recogniser is not busy, no
      final waits and there is room; otherwise, like a job without audio, it leaves everything as
      it is. */
  lemma PartialPutExactlyWhen(q: Queue, job: Job, maxSize: nat)
    requires !job.isFinal || job.bytes == 0
    ensures var (q', branch) := Enqueued(q, job, maxSize);
            var put := job.bytes > 0 && !q.busy && |q.jobs| < maxSize
                       && forall i :: 0 <= i < |q.jobs| ==> !q.jobs[i].isFinal;
            && q' == (if put then q.(jobs := q.jobs + [job], unfinished := q.unfinished + 1) else q)
            && (branch.Put? <==> put) && (branch.NothingToDo? <==> job.bytes == 0)
            && (branch.PartialYields? <==> job.bytes > 0 && (q.busy || exists i :: 0 <= i < |q.jobs| && q.jobs[i].isFinal))
            && (branch.PartialQueueFull? ==> |q.jobs| >= maxSize) && !branch.FinalAlreadyWaiting?
  {
  }

  lemma {:induction false} FinalsOfFinals(jobs: seq<Job>)
    ensures Finals(Finals(jobs)) == Finals(jobs)
  {
    if jobs != [] {
      var init := jobs[..|jobs| - 1];
      FinalsOfFinals(init);
      if jobs[|jobs| - 1].isFinal {
        assert Finals(jobs)[..|Finals(jobs)| - 1] == Finals(init);
      }
    }
  }

  lemma {:induction false} RunKeeps(q: Queue, es: seq<Event>, maxSize: nat)
    requires maxSize >= 1 && Inv(q, maxSize)
    requires Runs(q, es, maxSize)
    ensures Inv(Ends(q, es, maxSize), maxSize)
    decreases |es|
  {
    if es != [] {
      StepKeeps(q, es[0], maxSize);
      RunKeeps(Do(q, es[0], maxSize), es[1..], maxSize);
    }
  }

  /** `join` returns when the counter is zero: in every reachable state, exactly when nothing is
      queued and nothing is in the recognition loop's hands. */
  lemma JoinMeansIdle(es: seq<Event>, maxSize: nat)
    requires maxSize >= 1
    requires Runs(EMPTY, es, maxSize)
    ensures var q := Ends(EMPTY, es, maxSize);
            && (q.unfinished == 0 <==> q.jobs == [] && q.inFlight.None?)
            && |q.jobs| <= maxSize
  {
    RunKeeps(EMPTY, es, maxSize);
  }

  // ---- Finals are conserved ----

  /** The finals a run has put, in order. */
  ghost function PutFinals(q: Queue, es: seq<Event>, maxSize: nat): seq<Job>
    requires Runs(q, es, maxSize)
    decreases |es|
  {
    if es == [] then []
    else
      (match es[0]
       case Offer(job) => if job.isFinal && Enqueued(q, job, maxSize).1.Put? then [job] else []
       case Stop(id) => [Job(true, 0, id)]
       case _ => [])
      + PutFinals(Do(q, es[0], maxSize), es[1..], maxSize)
  }

  /** The finals a run has handed to the recognition loop, in order. */
  ghost function TakenFinals(q: Queue, es: seq<Event>, maxSize: nat): seq<Job>
    requires Runs(q, es, maxSize)
    decreases |es|
  {
    if es == [] then []
    else
      (if es[0].Take? && q.jobs[0].isFinal then [q.jobs[0]] else [])
      + TakenFinals(Do(q, es[0], maxSize), es[1..], maxSize)
  }

  lemma {:induction false} FinalsSplit(first: Job, rest: seq<Job>)
    ensures Finals([first] + rest) == (if first.isFinal then [first] else []) + Finals(rest)
    decreases |rest|
  {
    var jobs := [first] + rest;
    if rest == [] {
      assert jobs == [first] && jobs[..0] == [];
    } else {
      FinalsSplit(first, rest[..|rest| - 1]);
      assert jobs[..|jobs| - 1] == [first] + rest[..|rest| - 1];
    }
  }

  lemma OfferFinals(q: Queue, job: Job, maxSize: nat)
    requires maxSize >= 1 && Inv(q, maxSize)
    ensures var (q', branch) := Enqueued(q, job, maxSize);
            Finals(q'.jobs) == Finals(q.jobs) + if job.isFinal && branch.Put? then [job] else []
  {
    var (q', branch) := Enqueued(q, job, maxSize);
    OfferOutcome(q, job, maxSize);
    FinalsOfFinals(q.jobs);
    FinalsAre(q.jobs);
    if branch.Put? {
      var before := if job.isFinal then [] else q.jobs;
      assert q'.jobs == before + [job] && q'.jobs[..|q'.jobs| - 1] == before;
      assert job.isFinal ==> !HasFinal(q.jobs);
    }
  }

  lemma FinalsStep(q: Queue, e: Event, maxSize: nat)
    requires maxSize >= 1 && Inv(q, maxSize)
    requires Can(q, e, maxSize)
    ensures var put := match e
                       case Offer(job) => if job.isFinal && Enqueued(q, job, maxSize).1.Put? then [job] else []
                       case Stop(id) => [Job(true, 0, id)]
                       case _ => [];
            var taken := if e.Take? && q.jobs[0].isFinal then [q.jobs[0]] else [];
            Finals(q.jobs) + put == taken + Finals(Do(q, e, maxSize).jobs)
  {
    var q' := Do(q, e, maxSize);
    match e
    case Offer(job) =>
      OfferFinals(q, job, maxSize);
    case Stop(id) =>
      assert q'.jobs[..|q'.jobs| - 1] == q.jobs;
    case Take =>
      FinalsSplit(q.jobs[0], q.jobs[1..]);
      assert q.jobs == [q.jobs[0]] + q.jobs[1..];
    case Finish =>
    case Busy(busy) =>
  }

  /** Over any run, every final that was put has been handed to the recognition loop or still
      waits, in the order the finals were put: a queued final leaves only by being consumed. */
  lemma {:induction false} FinalsConserved(q: Queue, es: seq<Event>, maxSize: nat)
    requires maxSize >= 1 && Inv(q, maxSize)
    requires Runs(q, es, maxSize)
    ensures Finals(q.jobs) + PutFinals(q, es, maxSize)
         == TakenFinals(q, es, maxSize) + Finals(Ends(q, es, maxSize).jobs)
    decreases |es|
  {
    if es == [] {
      assert Finals(q.jobs) + [] == [] + Finals(q.jobs);
    } else {
      var q' := Do(q, es[0], maxSize);
      StepKeeps(q, es[0], maxSize);
      FinalsStep(q, es[0], maxSize);
      FinalsConserved(q', es[1..], maxSize);
      var put := match es[0]
                 case Offer(job) => if job.isFinal && Enqueued(q, job, maxSize).1.Put? then [job] else []
                 case Stop(id) => [Job(true, 0, id)]
                 case _ => [];
      var taken := if es[0].Take? && q.jobs[0].isFinal then [q.jobs[0]] else [];
      SplicedChain(Finals(q.jobs), put, taken, Finals(q'.jobs), PutFinals(q', es[1..], maxSize),
                   TakenFinals(q', es[1..], maxSize), Finals(Ends(q', es[1..], maxSize).jobs));
    }
  }

  lemma SplicedChain(a: seq<Job>, put: seq<Job>, taken: seq<Job>, b: seq<Job>, puts: seq<Job>, takes: seq<Job>, c: seq<Job>)
    requires a + put == taken + b
    requires b + puts == takes + c
    ensures a + (put + puts) == (taken + takes) + c
  {
    assert a + (put + puts) == (a + put) + puts == taken + (b + puts);
  }

  // ---- The queue itself ----

  class InferenceQueue {
    const maxSize: nat
    var jobs: seq<Job>
    var unfinished: nat
    var inFlight: Option<Job>
    var busy: bool

    function Now(): Queue
      reads this
    {
      Queue(jobs, unfinished, inFlight, busy)
    }

    constructor (maxSize: nat)
      requires maxSize >= 1
      ensures this.maxSize == maxSize && Now() == EMPTY
    {
      this.maxSize := maxSize;
      jobs := [];
      unfinished := 0;
      inFlight := None;
      busy := false;
    }

    method TaskDone()
      modifies this`unfinished
      ensures unfinished == Done(old(unfinished), 1)
    {
      if unfinished > 0 {
        unfinished := unfinished - 1;
      }
    }

    method DropQueuedPartials()
      modifies this`jobs, this`unfinished
      ensures Now() == Dropped(old(Now()))
    {
      var kept := [];
      var k := 0;
      while k < |jobs|
        invariant 0 <= k <= |jobs|
        invariant kept == Finals(jobs[..k])
      {
        assert jobs[..k + 1][..k] == jobs[..k];
        if jobs[k].isFinal {
          kept := kept + [jobs[k]];
        }
        k := k + 1;
      }
      assert jobs[..k] == jobs;
      var dropped := |jobs| - |kept|;
      jobs := kept;
      var i := 0;
      while i < dropped
        invariant 0 <= i <= dropped
        invariant jobs == kept
        invariant unfinished == Done(old(unfinished), i)
      {
        TaskDone();
        i := i + 1;
      }
    }

    method DropOneQueued()
      modifies this`jobs, this`unfinished
      ensures Now() == DroppedOne(old(Now()))
    {
      if jobs != [] {
        jobs := jobs[1..];
        TaskDone();
      }
    }

    method EnqueueInferenceJob(job: Job) returns (branch: Branch)
      modifies this`jobs, this`unfinished
      ensures (Now(), branch) == Enqueued(old(Now()), job, maxSize)
    {
      if job.bytes == 0 {
        return NothingToDo;
      }
      if !job.isFinal {
        if busy || HasFinal(jobs) {
          return PartialYields;
        }
      } else {
        DropQueuedPartials();
        if HasFinal(jobs) {
          return FinalAlreadyWaiting;
        }
      }
      var full := |jobs| >= maxSize;
      if full {
        if !job.isFinal {
          return PartialQueueFull;
        }
        DropOneQueued();
      }
      if |jobs| >= maxSize {
        return if job.isFinal then FinalQueueFull else PartialQueueFull;
      }
      jobs := jobs + [job];
      unfinished := unfinished + 1;
      branch := Put(full);
    }

    method Take() returns (job: Job)
      requires Can(Now(), Event.Take, maxSize)
      modifies this`jobs, this`inFlight
      ensures Now() == Do(old(Now()), Event.Take, maxSize) && inFlight == Some(job)
    {
      job := jobs[0];
      jobs := jobs[1..];
      inFlight := Some(job);
    }

    method Finish()
      requires Can(Now(), Event.Finish, maxSize)
      modifies this`unfinished, this`inFlight
      ensures Now() == Do(old(Now()), Event.Finish, maxSize)
    {
      inFlight := None;
      TaskDone();
    }
  }
}
