/**
 The bounded queue of dispatcher/worker.h: a FIFO of items guarded by a mutex, and a
 semaphore that counts the items.  `emplace` pushes under the mutex and posts afterwards;
 `front_and_pop` waits first and pops afterwards.  The four halves are the atomic steps.
 */
module BlockQueues {
  import opened Options

  /** The items in the queue and the value of its semaphore. */
  datatype Queue<T> = Queue(items: seq<T>, stat: nat)

  /** The admission test under the mutex: it lets a queue grow to max + 1; 0 means unbounded. */
  predicate Admits(size: nat, max: nat) {
    max == 0 || size <= max
  }

  function Push<T>(q: Queue<T>, max: nat, x: T): Queue<T> {
    if Admits(|q.items|, max) then q.(items := q.items + [x]) else q
  }

  function Post<T>(q: Queue<T>): Queue<T> {
    q.(stat := q.stat + 1)
  }

  function Wait<T>(q: Queue<T>): Queue<T>
    requires q.stat > 0
  {
    q.(stat := q.stat - 1)
  }

  function Pop<T>(q: Queue<T>): Queue<T> {
    if q.items == [] then q else q.(items := q.items[1..])
  }

  /** The whole of `emplace` on a queue that only one thread uses. */
  function Emplaced<T>(items: seq<T>, max: nat, x: T): seq<T> {
    if Admits(|items|, max) then items + [x] else items
  }

  /** The queue as an object, for the calls made while no other call is in progress. */
  class BlockQueue<T> {
    var items: seq<T>
    var stat: nat
    const maxSize: nat

    constructor (max: nat)
      ensures items == [] && maxSize == max && Quiet()
    {
      items, stat, maxSize := [], 0, max;
    }

    ghost predicate Quiet()
      reads this
    {
      stat == |items|
    }

    method Emplace(x: T) returns (ok: bool)
      requires Quiet()
      modifies this
      ensures Quiet()
      ensures ok <==> maxSize == 0 || |old(items)| <= maxSize
      ensures items == if ok then old(items) + [x] else old(items)
      ensures items == Emplaced(old(items), maxSize, x)
    {
      if !(maxSize == 0 || |items| <= maxSize) {
        return false;
      }
      items := items + [x];
      stat := stat + 1;
      return true;
    }

    method Front() returns (r: Option<T>)
      ensures r == if items == [] then None else Some(items[0])
    {
      if items == [] {
        return None;
      }
      return Some(items[0]);
    }

    /** Returns only once the semaphore can be taken, hence the precondition. */
    method FrontAndPop() returns (r: Option<T>)
      requires Quiet() && stat > 0
      modifies this
      ensures Quiet()
      ensures r == Some(old(items[0])) && items == old(items[1..])
    {
      stat := stat - 1;
      r := PopUnderLock();
    }

    method TryFrontAndPop() returns (r: Option<T>)
      requires Quiet()
      modifies this
      ensures Quiet()
      ensures r == None <==> old(items) == []
      ensures if r == None then items == [] else old(items) == [r.value] + items
    {
      if stat == 0 {
        return None;
      }
      stat := stat - 1;
      r := PopUnderLock();
    }

    method PopUnderLock() returns (r: Option<T>)
      modifies this`items
      ensures r == if old(items) == [] then None else Some(old(items)[0])
      ensures items == if old(items) == [] then [] else old(items)[1..]
    {
      if items == [] {
        return None;
      }
      r := Some(items[0]);
      items := items[1..];
    }

    /** An over-full queue reports size 0. */
    method Size() returns (n: nat)
      ensures n == if maxSize == 0 || |items| <= maxSize then |items| else 0
    {
      if !(maxSize == 0 || |items| <= maxSize) {
        return 0;
      }
      return |items|;
    }
  }
}
