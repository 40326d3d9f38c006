/**
  The adaptive queue in sequential use: two queues behind one interface, with jobs moved
  between them when the mode changes.  The lock-free half is its abstract sequence.
 */
module AdaptiveQueue {
  import opened Jobs = JobQueue
  import opened Wrappers

  datatype Mode = MutexMode | LockFreeMode

  datatype Policy = AccuracyFirst | PerformanceFirst | Balanced | Manual

  const BALANCED_THRESHOLD: nat := 10000

  function BalancedMode(operations: nat): Mode {
    if operations > BALANCED_THRESHOLD then LockFreeMode else MutexMode
  }

  /** The mode after a guard was taken. */
  function AcquiredMode(held: nat, current: Mode): Mode {
    if held == 0 then MutexMode else current
  }

  /** The mode the last released guard leaves behind. */
  function ReleasedMode(policy: Policy, current: Mode, previous: Mode, operations: nat): Mode {
    match policy
    case AccuracyFirst => current
    case PerformanceFirst => LockFreeMode
    case Balanced => if BalancedMode(operations) != MutexMode then BalancedMode(operations) else current
    case Manual => if previous != MutexMode then previous else current
  }

  class AdaptiveQueue {
    const policy: Policy
    const mutexQueue: JobQueue
    var lockFreeQueue: seq<Job>
    var mode: Mode
    var stopped: bool
    var guardCount: nat
    var enqueueCount: nat
    var dequeueCount: nat
    var modeSwitches: nat

    /** The queue that is not in use is empty. */
    ghost predicate Valid()
      reads this, mutexQueue
    {
      && mutexQueue.Valid() && mutexQueue.maxSize.None? && mutexQueue.stopped == stopped
      && (mode == MutexMode ==> lockFreeQueue == [])
      && (mode == LockFreeMode ==> mutexQueue.queue == [])
    }

    /** The one FIFO the caller sees. */
    ghost function Contents(): seq<Job>
      reads this, mutexQueue
    {
      if mode == MutexMode then mutexQueue.queue else lockFreeQueue
    }

    constructor (p: Policy)
      ensures Valid() && fresh(mutexQueue) && policy == p && Contents() == [] && !stopped && guardCount == 0
      ensures mode == LockFreeMode <==> p == PerformanceFirst
    {
      policy := p;
      mutexQueue := new JobQueue(None);
      lockFreeQueue, stopped, guardCount := [], false, 0;
      mode := if p == PerformanceFirst then LockFreeMode else MutexMode;
      enqueueCount, dequeueCount, modeSwitches := 0, 0, 0;
    }

    method Enqueue(j: Option<Job>) returns (r: Result<()>)
      requires Valid()
      modifies this`lockFreeQueue, this`enqueueCount, mutexQueue
      ensures Valid()
      ensures r == if stopped then Err(QueueStopped) else if j.None? then Err(InvalidArgument) else Ok(())
      ensures Contents() == if r.Ok? then old(Contents()) + [j.value] else old(Contents())
      ensures enqueueCount == old(enqueueCount) + if r.Ok? then 1 else 0
    {
      if stopped {
        return Err(QueueStopped);
      }
      if j.None? {
        return Err(InvalidArgument);
      }
      if mode == MutexMode {
        r := mutexQueue.Enqueue(j);
      } else {
        lockFreeQueue := lockFreeQueue + [j.value];
        r := Ok(());
      }
      if r.Ok? {
        enqueueCount := enqueueCount + 1;
      }
    }

    method PopLockFree() returns (r: Result<Job>)
      modifies this`lockFreeQueue
      ensures r == if old(lockFreeQueue) == [] then Err(QueueEmpty) else Ok(old(lockFreeQueue)[0])
      ensures lockFreeQueue == if r.Ok? then old(lockFreeQueue)[1..] else []
    {
      if lockFreeQueue == [] {
        return Err(QueueEmpty);
      }
      r := Ok(lockFreeQueue[0]);
      lockFreeQueue := lockFreeQueue[1..];
    }

    /** `dequeue` and `try_dequeue`: the queue in use first, then the other one. */
    method Dequeue() returns (r: Result<Job>)
      requires Valid()
      modifies this`lockFreeQueue, this`dequeueCount, mutexQueue
      ensures Valid()
      ensures r == if stopped then Err(QueueStopped)
                   else if old(Contents()) == [] then Err(QueueEmpty) else Ok(old(Contents())[0])
      ensures Contents() == if r.Ok? then old(Contents())[1..] else old(Contents())
      ensures dequeueCount == old(dequeueCount) + if r.Ok? then 1 else 0
    {
      if stopped {
        return Err(QueueStopped);
      }
      if mode == MutexMode {
        r := mutexQueue.TryDequeue();
        if r.Err? {
          r := PopLockFree();
        }
      } else {
        r := PopLockFree();
        if r.Err? {
          r := mutexQueue.TryDequeue();
        }
      }
      if r.Ok? {
        dequeueCount := dequeueCount + 1;
      }
    }

    /**
      Moves the jobs over and keeps their order.  After `stop` the mutex queue takes no jobs,
      and a migration to it drops them all.
     */
    method MigrateToMode(target: Mode)
      requires Valid()
      modifies this`lockFreeQueue, this`mode, this`modeSwitches, mutexQueue
      ensures Valid() && mode == target
      ensures Contents() == if stopped && target == MutexMode && old(mode) == LockFreeMode then [] else old(Contents())
      ensures modeSwitches == old(modeSwitches) + if old(mode) == target then 0 else 1
    {
      if mode == target {
        return;
      }
      mode := target;
      if target == MutexMode {
        DrainToMutex();
      } else {
        var jobs := mutexQueue.DequeueBatch();
        for k := 0 to |jobs|
          invariant lockFreeQueue == jobs[..k] && mode == target && mutexQueue.queue == [] && Valid()
          invariant modeSwitches == old(modeSwitches)
        {
          lockFreeQueue := lockFreeQueue + [jobs[k]];
        }
      }
      modeSwitches := modeSwitches + 1;
    }

    method DrainToMutex()
      requires mutexQueue.Valid() && mutexQueue.queue == [] && mutexQueue.maxSize.None?
      modifies this`lockFreeQueue, mutexQueue`queue, mutexQueue`atomicSize
      ensures mutexQueue.Valid() && lockFreeQueue == []
      ensures mutexQueue.queue == if mutexQueue.stopped then [] else old(lockFreeQueue)
    {
      while true
        invariant mutexQueue.Valid()
        invariant if mutexQueue.stopped then mutexQueue.queue == []
                  else mutexQueue.queue + lockFreeQueue == old(lockFreeQueue)
        decreases |lockFreeQueue|
      {
        var r := PopLockFree();
        if r.Err? {
          break;
        }
        var ignored := mutexQueue.Enqueue(Some(r.value));
      }
    }

    method SwitchMode(m: Mode) returns (r: Result<()>)
      requires Valid()
      modifies this`lockFreeQueue, this`mode, this`modeSwitches, mutexQueue
      ensures Valid()
      ensures r == if policy == Manual then Ok(()) else Err(InvalidArgument)
      ensures mode == if policy == Manual then m else old(mode)
      ensures !stopped ==> Contents() == old(Contents())
    {
      if policy != Manual {
        return Err(InvalidArgument);
      }
      r := Ok(());
      if mode != m {
        MigrateToMode(m);
      }
    }

    /** Takes an accuracy guard: the guard remembers the mode it found. */
    method AcquireGuard() returns (previous: Mode)
      requires Valid()
      modifies this`lockFreeQueue, this`mode, this`modeSwitches, this`guardCount, mutexQueue
      ensures Valid() && previous == old(mode) && guardCount == old(guardCount) + 1
      ensures mode == AcquiredMode(old(guardCount), old(mode))
      ensures mode == if old(guardCount) == 0 then MutexMode else old(mode)
      ensures !stopped ==> Contents() == old(Contents())
    {
      previous := mode;
      guardCount := guardCount + 1;
      if guardCount == 1 && previous != MutexMode {
        MigrateToMode(MutexMode);
      }
    }

    method ReleaseGuard(previous: Mode)
      requires Valid() && guardCount > 0
      modifies this`lockFreeQueue, this`mode, this`modeSwitches, this`guardCount, mutexQueue
      ensures Valid() && guardCount == old(guardCount) - 1
      ensures mode == if guardCount > 0 then old(mode)
                      else ReleasedMode(policy, old(mode), previous, enqueueCount + dequeueCount)
      ensures guardCount == 0 && policy == AccuracyFirst ==> mode == old(mode)
      ensures guardCount == 0 && policy == PerformanceFirst ==> mode == LockFreeMode
      ensures guardCount == 0 && policy == Balanced ==>
                (mode == LockFreeMode <==> enqueueCount + dequeueCount > 10000 || old(mode) == LockFreeMode)
      ensures guardCount == 0 && policy == Manual ==>
                (mode == LockFreeMode <==> previous == LockFreeMode || old(mode) == LockFreeMode)
      ensures !stopped ==> Contents() == old(Contents())
    {
      guardCount := guardCount - 1;
      if guardCount == 0 {
        match policy {
          case AccuracyFirst =>
          case PerformanceFirst =>
            MigrateToMode(LockFreeMode);
          case Balanced =>
            var target := BalancedMode(enqueueCount + dequeueCount);
            if target != MutexMode {
              MigrateToMode(target);
            }
          case Manual =>
            if previous != MutexMode {
              MigrateToMode(previous);
            }
        }
      }
    }

    method Clear()
      requires Valid()
      modifies this`lockFreeQueue, mutexQueue`queue, mutexQueue`atomicSize
      ensures Valid() && Contents() == []
    {
      mutexQueue.Clear();
      while true
        invariant Valid() && mutexQueue.queue == []
        decreases |lockFreeQueue|
      {
        var r := PopLockFree();
        if r.Err? {
          break;
        }
      }
    }

    method Stop()
      requires Valid()
      modifies this`stopped, mutexQueue`stopped
      ensures Valid() && stopped && Contents() == old(Contents())
    {
      stopped := true;
      mutexQueue.Stop();
    }
  }
}
