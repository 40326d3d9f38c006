/** The mutex-protected job queue: a deque, a size counter beside it, a stop flag and an optional bound. */
module JobQueue {
  import opened Wrappers

  type Job = nat

  datatype Error = QueueStopped | InvalidArgument | QueueFull | QueueEmpty

  datatype Result<T> = Ok(value: T) | Err(error: Error)

  /** `std::size_t` arithmetic wraps. */
  const SIZE_MODULUS: nat := 0x1_0000_0000_0000_0000

  function SizeMinus(a: nat, b: nat): nat {
    (a - b) % SIZE_MODULUS
  }

  /** The room check of `enqueue_batch`. */
  predicate BatchFits(maxSize: Option<nat>, size: nat, batch: nat) {
    maxSize.Some? ==> batch <= SizeMinus(maxSize.value, size)
  }

  function NonNull(jobs: seq<Option<Job>>): seq<Job>
    requires forall i :: 0 <= i < |jobs| ==> jobs[i].Some?
  {
    seq(|jobs|, i requires 0 <= i < |jobs| => jobs[i].value)
  }

  /**
    The room check keeps the bound exactly when the queue is within it already: after
    `set_max_size` went below the current size the subtraction wraps and batches pass.
   */
  lemma BatchKeepsBoundIff(max: nat, size: nat)
    requires max < SIZE_MODULUS && size < SIZE_MODULUS
    ensures (forall n :: 0 < n < SIZE_MODULUS && BatchFits(Some(max), size, n) ==> size + n <= max) <==> size <= max
  {
    if size > max {
      assert SizeMinus(max, size) == SIZE_MODULUS + max - size;
      assert BatchFits(Some(max), size, 1);
    } else {
      assert SizeMinus(max, size) == max - size;
    }
  }

  /** A queue within its bound takes exactly the batches that leave it there; one above it takes nearly any. */
  lemma BatchFitsIff(max: nat, size: nat, n: nat)
    requires max < 0x1_0000_0000_0000_0000 && size < 0x1_0000_0000_0000_0000
    ensures BatchFits(Some(max), size, n) <==> size + n <= if size <= max then max else 0x1_0000_0000_0000_0000 + max
  {
    if size > max {
      assert SizeMinus(max, size) == SIZE_MODULUS + max - size;
    } else {
      assert SizeMinus(max, size) == max - size;
    }
  }

  class JobQueue {
    var queue: seq<Job>
    var atomicSize: nat
    var stopped: bool
    var maxSize: Option<nat>

    /** `size()` and `empty()` read the counter, so it has to agree with the deque. */
    ghost predicate Valid()
      reads this
    {
      atomicSize == |queue|
    }

    constructor (max: Option<nat>)
      ensures Valid() && queue == [] && !stopped && maxSize == max
    {
      queue, atomicSize, stopped, maxSize := [], 0, false, max;
    }

    method Enqueue(value: Option<Job>) returns (r: Result<()>)
      requires Valid()
      modifies this`queue, this`atomicSize
      ensures Valid()
      ensures r == if stopped then Err(QueueStopped) else if value.None? then Err(InvalidArgument)
                   else if maxSize.Some? && old(|queue|) >= maxSize.value then Err(QueueFull) else Ok(())
      ensures queue == if r.Ok? then old(queue) + [value.value] else old(queue)
    {
      if stopped {
        return Err(QueueStopped);
      }
      if value.None? {
        return Err(InvalidArgument);
      }
      if maxSize.Some? && |queue| >= maxSize.value {
        return Err(QueueFull);
      }
      queue := queue + [value.value];
      atomicSize := atomicSize + 1;
      r := Ok(());
    }

    method EnqueueBatch(jobs: seq<Option<Job>>) returns (r: Result<()>)
      requires Valid()
      modifies this`queue, this`atomicSize
      ensures Valid()
      ensures r == if stopped then Err(QueueStopped)
                   else if jobs == [] || (exists i :: 0 <= i < |jobs| && jobs[i].None?) then Err(InvalidArgument)
                   else if !BatchFits(maxSize, old(|queue|), |jobs|) then Err(QueueFull) else Ok(())
      ensures r != Err(QueueStopped) && r != Err(InvalidArgument) ==>
                if maxSize.Some? && old(|queue|) <= maxSize.value < SIZE_MODULUS
                then r == Ok(()) <==> old(|queue|) + |jobs| <= maxSize.value
                else maxSize.None? ==> r == Ok(())
      ensures r.Ok? ==> queue == old(queue) + NonNull(jobs)
      ensures r.Err? ==> queue == old(queue)
    {
      if maxSize.Some? && |queue| <= maxSize.value < SIZE_MODULUS {
        BatchFitsIff(maxSize.value, |queue|, |jobs|);
      }
      if stopped {
        return Err(QueueStopped);
      }
      if jobs == [] {
        return Err(InvalidArgument);
      }
      for k := 0 to |jobs|
        invariant forall i :: 0 <= i < k ==> jobs[i].Some?
        invariant queue == old(queue) && atomicSize == old(atomicSize)
      {
        if jobs[k].None? {
          return Err(InvalidArgument);
        }
      }
      if maxSize.Some? {
        var available := SizeMinus(maxSize.value, |queue|);
        if |jobs| > available {
          return Err(QueueFull);
        }
      }
      for k := 0 to |jobs|
        invariant queue == old(queue) + NonNull(jobs)[..k] && atomicSize == old(atomicSize)
      {
        queue := queue + [jobs[k].value];
      }
      atomicSize := atomicSize + |jobs|;
      r := Ok(());
    }

    method TryDequeue() returns (r: Result<Job>)
      requires Valid()
      modifies this`queue, this`atomicSize
      ensures Valid()
      ensures r == if stopped then Err(QueueStopped)
                   else if old(queue) == [] then Err(QueueEmpty) else Ok(old(queue)[0])
      ensures queue == if r.Ok? then old(queue)[1..] else old(queue)
    {
      if stopped {
        return Err(QueueStopped);
      }
      if queue == [] {
        return Err(QueueEmpty);
      }
      r := Ok(queue[0]);
      queue := queue[1..];
      atomicSize := atomicSize - 1;
    }

    method DequeueBatch() returns (all: seq<Job>)
      requires Valid()
      modifies this`queue, this`atomicSize
      ensures Valid() && queue == [] && all == old(queue)
    {
      all, queue := queue, [];
      atomicSize := 0;
    }

    method DequeueBatchLimited(maxCount: nat) returns (batch: seq<Job>)
      requires Valid()
      modifies this`queue, this`atomicSize
      ensures Valid() && batch + queue == old(queue)
      ensures |batch| == if maxCount < old(|queue|) then maxCount else old(|queue|)
    {
      var count := if maxCount < |queue| then maxCount else |queue|;
      batch := [];
      for k := 0 to count
        invariant |batch| == k && batch + queue == old(queue) && atomicSize == old(atomicSize)
      {
        assert queue != [];
        batch, queue := batch + [queue[0]], queue[1..];
      }
      atomicSize := atomicSize - count;
    }

    /** Does not remove jobs, so the queue may be left above its bound. */
    method SetMaxSize(max: Option<nat>)
      modifies this`maxSize
      ensures maxSize == max
    {
      maxSize := max;
    }

    method Clear()
      modifies this`queue, this`atomicSize
      ensures Valid() && queue == []
    {
      queue, atomicSize := [], 0;
    }

    method Stop()
      modifies this`stopped
      ensures stopped
    {
      stopped := true;
    }
  }

  /** Two jobs, a bound lowered to one, and a batch is accepted into the overfull queue. */
  method LoweredBoundIsIgnored() returns (q: JobQueue, r: Result<()>)
    ensures fresh(q) && r.Ok? && q.maxSize == Some(1) && q.queue == [1, 2, 3]
  {
    q := new JobQueue(None);
    var first := q.Enqueue(Some(1));
    var second := q.Enqueue(Some(2));
    q.SetMaxSize(Some(1));
    assert SizeMinus(1, 2) == SIZE_MODULUS - 1;
    r := q.EnqueueBatch([Some(3)]);
    assert NonNull([Some(3)]) == [3];
  }
}
