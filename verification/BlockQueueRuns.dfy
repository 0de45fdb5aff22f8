/** Any number of threads on one block queue, in every interleaving of the half-calls. */
module BlockQueueRuns {
  import opened Sums
  import opened BlockQueues

  /** Where a thread stands in a queue operation. */
  datatype CallPc = Outside | ToPost | ToPop

  /** Any number of threads on one queue, with the history of what went in and out. */
  datatype Machine<T> = Machine(q: Queue<T>, threads: seq<CallPc>, pushed: seq<T>, popped: seq<T>, nulls: nat)

  datatype Action<T> =
    | EmplacePush(i: nat, x: T)
    | EmplacePost(i: nat)
    | TakeWait(i: nat)
    | TakePop(i: nat)

  predicate Enabled<T>(m: Machine<T>, a: Action<T>) {
    a.i < |m.threads| &&
    match a
    case EmplacePush(i, _) => m.threads[i] == Outside
    case EmplacePost(i) => m.threads[i] == ToPost
    case TakeWait(i) => m.threads[i] == Outside && m.q.stat > 0
    case TakePop(i) => m.threads[i] == ToPop
  }

  function Next<T>(max: nat, m: Machine<T>, a: Action<T>): Machine<T>
    requires Enabled(m, a)
  {
    match a
    case EmplacePush(i, x) =>
      if Admits(|m.q.items|, max)
      then m.(q := Push(m.q, max, x), threads := m.threads[i := ToPost], pushed := m.pushed + [x])
      else m
    case EmplacePost(i) => m.(q := Post(m.q), threads := m.threads[i := Outside])
    case TakeWait(i) => m.(q := Wait(m.q), threads := m.threads[i := ToPop])
    case TakePop(i) =>
      if m.q.items == []
      then m.(threads := m.threads[i := Outside], nulls := m.nulls + 1)
      else m.(q := Pop(m.q), threads := m.threads[i := Outside], popped := m.popped + [m.q.items[0]])
  }

  ghost function OwesPost(pc: CallPc): nat { if pc == ToPost then 1 else 0 }

  ghost function OwesPop(pc: CallPc): nat { if pc == ToPop then 1 else 0 }

  ghost predicate Inv<T>(max: nat, m: Machine<T>) {
    && |m.q.items| == m.q.stat + Total(OwesPop, m.threads) + Total(OwesPost, m.threads)
    && m.pushed == m.popped + m.q.items
    && (max > 0 ==> |m.q.items| <= max + 1)
    && m.nulls == 0
  }

  ghost predicate IsStart<T>(m: Machine<T>) {
    m.q == Queue([], 0) && m.pushed == [] && m.popped == [] && m.nulls == 0 &&
    forall i :: 0 <= i < |m.threads| ==> m.threads[i] == Outside
  }

  lemma InvStep<T>(max: nat, m: Machine<T>, a: Action<T>)
    requires Inv(max, m) && Enabled(m, a)
    ensures Inv(max, Next(max, m, a))
  {
    var pc := if a.EmplacePush? then ToPost else if a.TakeWait? then ToPop else Outside;
    TotalUpdate(OwesPop, m.threads, a.i, pc);
    TotalUpdate(OwesPost, m.threads, a.i, pc);
    if a.TakePop? {
      TotalHas(OwesPop, m.threads, a.i);
    }
  }

  ghost predicate IsRun<T>(max: nat, ms: seq<Machine<T>>, acts: seq<Action<T>>) {
    |ms| == |acts| + 1 && IsStart(ms[0]) &&
    forall k :: 0 <= k < |acts| ==> Enabled(ms[k], acts[k]) && ms[k + 1] == Next(max, ms[k], acts[k])
  }

  lemma {:induction false} InvAlways<T>(max: nat, ms: seq<Machine<T>>, acts: seq<Action<T>>, k: nat)
    requires IsRun(max, ms, acts) && k < |ms|
    ensures Inv(max, ms[k])
  {
    if k == 0 {
      TotalZero(OwesPop, ms[0].threads);
      TotalZero(OwesPost, ms[0].threads);
    } else {
      InvAlways(max, ms, acts, k - 1);
      InvStep(max, ms[k - 1], acts[k - 1]);
    }
  }

  /** Main result: in every interleaving the semaphore, the two kinds of half-done calls and the
      queue agree, what came out is a prefix of what went in, and nobody pops an empty queue. */
  lemma QueueIsFifoInEveryRun<T>(max: nat, ms: seq<Machine<T>>, acts: seq<Action<T>>, k: nat)
    requires IsRun(max, ms, acts) && k < |ms|
    ensures var m := ms[k];
            && |m.q.items| == m.q.stat + Total(OwesPop, m.threads) + Total(OwesPost, m.threads)
            && m.pushed == m.popped + m.q.items
            && (max > 0 ==> |m.q.items| <= max + 1)
            && (forall i :: 0 <= i < |m.threads| && m.threads[i] == ToPop ==> m.q.items != [])
  {
    InvAlways(max, ms, acts, k);
    var m := ms[k];
    forall i | 0 <= i < |m.threads| && m.threads[i] == ToPop
      ensures m.q.items != []
    {
      TotalHas(OwesPop, m.threads, i);
    }
  }

  /** What the first k actions offered to the queue while it was no fuller than its bound. */
  ghost function Offered<T>(max: nat, ms: seq<Machine<T>>, acts: seq<Action<T>>, k: nat): seq<T>
    requires k <= |acts| && |ms| == |acts| + 1
  {
    if k == 0 then []
    else
      var a, size := acts[k - 1], |ms[k - 1].q.items|;
      Offered(max, ms, acts, k - 1) + if a.EmplacePush? && (max == 0 || size <= max) then [a.x] else []
  }

  lemma StepOffers<T>(max: nat, m: Machine<T>, a: Action<T>)
    requires Enabled(m, a)
    ensures Next(max, m, a).pushed ==
            m.pushed + if a.EmplacePush? && (max == 0 || |m.q.items| <= max) then [a.x] else []
    ensures Next(max, m, a).popped == m.popped + if a.TakePop? && m.q.items != [] then [m.q.items[0]] else []
  {
  }

  /** What went in is what was offered, and each pop hands out the oldest item. */
  lemma {:induction false} PushedIsOffered<T>(max: nat, ms: seq<Machine<T>>, acts: seq<Action<T>>, k: nat)
    requires IsRun(max, ms, acts) && k < |ms|
    ensures ms[k].pushed == Offered(max, ms, acts, k)
    ensures k < |acts| && acts[k].TakePop? ==>
              ms[k].q.items != [] && ms[k + 1].popped == ms[k].popped + [ms[k].q.items[0]]
  {
    if k > 0 {
      PushedIsOffered(max, ms, acts, k - 1);
      StepOffers(max, ms[k - 1], acts[k - 1]);
    }
    if k < |acts| && acts[k].TakePop? {
      QueueIsFifoInEveryRun(max, ms, acts, k);
      StepOffers(max, ms[k], acts[k]);
    }
  }

  /** A waiter blocks on a non-empty queue only while some thread is halfway through a call: a producer
      that has still to post, or a consumer past its wait. */
  lemma BlockedMeansUnannounced<T>(max: nat, m: Machine<T>)
    requires Inv(max, m) && m.q.stat == 0 && m.q.items != []
    ensures exists i :: 0 <= i < |m.threads| && m.threads[i] != Outside
  {
    if Total(OwesPost, m.threads) > 0 {
      var i := TotalFind(OwesPost, m.threads, |m.threads|);
      assert m.threads[i] != Outside;
    } else {
      var i := TotalFind(OwesPop, m.threads, |m.threads|);
      assert m.threads[i] != Outside;
    }
  }
}
