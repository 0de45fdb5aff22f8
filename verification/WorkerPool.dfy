/**
 The worker pool of dispatcher/worker.h: which core each thread is bound to, and how the pool shuts
 down once its exit flag is raised.
 */
module WorkerPools {
  import opened Sums
  import opened BlockQueues

  // ---- affinity ----

  /** The positions of the set bits among the first n, ascending. */
  ghost function SetBits(bits: seq<bool>, n: nat): seq<nat>
    requires n <= |bits|
  {
    if n == 0 then [] else if bits[n - 1] then SetBits(bits, n - 1) + [n - 1] else SetBits(bits, n - 1)
  }

  /** s lists exactly the set bits among the first n, ascending. */
  ghost predicate ListsSetBits(bits: seq<bool>, n: nat, s: seq<nat>)
    requires n <= |bits|
  {
    && (forall i, j :: 0 <= i < j < |s| ==> s[i] < s[j])
    && (forall b :: b in s ==> b < n && bits[b])
    && (forall b :: 0 <= b < n && bits[b] ==> b in s)
  }

  lemma {:induction false} SetBitsAreTheSetBits(bits: seq<bool>, n: nat)
    requires n <= |bits|
    ensures ListsSetBits(bits, n, SetBits(bits, n))
  {
    if n > 0 {
      SetBitsAreTheSetBits(bits, n - 1);
      var front := SetBits(bits, n - 1);
      assert forall i :: 0 <= i < |front| ==> front[i] in front;
    }
  }

  lemma {:induction false} SetBitsGrow(bits: seq<bool>, m: nat, n: nat)
    requires m <= n <= |bits|
    ensures SetBits(bits, m) <= SetBits(bits, n)
  {
    if m < n {
      SetBitsGrow(bits, m, n - 1);
    }
  }

  /** Binds thread a to the a-th set bit of the core mask; threads beyond the set bits get no core. */
  method AssignCores(threads: nat, bits: seq<bool>) returns (masks: seq<set<nat>>)
    ensures |masks| == threads
    ensures forall a :: 0 <= a < threads ==>
              masks[a] == if a < |SetBits(bits, |bits|)| then {SetBits(bits, |bits|)[a]} else {}
  {
    masks := [];
    var b := 0;
    for a := 0 to threads
      invariant |masks| == a && b <= |bits|
      invariant |SetBits(bits, b)| <= a && (b < |bits| ==> |SetBits(bits, b)| == a)
      invariant forall k :: 0 <= k < a ==>
                  masks[k] == if k < |SetBits(bits, |bits|)| then {SetBits(bits, |bits|)[k]} else {}
    {
      var mask: set<nat> := {};
      ghost var seen := SetBits(bits, b);
      while b < |bits|
        invariant b <= |bits| && SetBits(bits, b) == seen && mask == {}
        decreases |bits| - b
      {
        if bits[b] {
          mask := mask + {b};
          b := b + 1;
          break;
        }
        b := b + 1;
      }
      SetBitsGrow(bits, b, |bits|);
      masks := masks + [mask];
    }
  }

  /** With at least as many set bits as threads, the threads get pairwise different cores. */
  lemma EnoughBitsMeansOwnCores(bits: seq<bool>, a: nat, b: nat)
    requires a < b < |SetBits(bits, |bits|)|
    ensures SetBits(bits, |bits|)[a] != SetBits(bits, |bits|)[b]
  {
    SetBitsAreTheSetBits(bits, |bits|);
  }

  // ---- shutting down ----

  /** A worker: about to wait, past the wait, holding an item it popped, in a task, or finished. */
  datatype Pc = Idle | Waited | Popped | InTask | Gone

  /** The closer has tried k appends; posting: it has pushed and still has to post. */
  datatype Pool = Pool(q: Queue<nat>, workers: seq<Pc>, k: nat, posting: bool)

  datatype Act =
    | TryAppend(x: nat) | PostAppend
    | WaitItem(w: nat) | PopItem(w: nat) | SeeFlag(w: nat) | EndTask(w: nat)

  predicate Can(p: Pool, a: Act) {
    match a
    case TryAppend(_) => p.k < |p.workers| && !p.posting
    case PostAppend => p.posting
    case WaitItem(w) => w < |p.workers| && p.workers[w] == Idle && p.q.stat > 0
    case PopItem(w) => w < |p.workers| && p.workers[w] == Waited
    case SeeFlag(w) => w < |p.workers| && p.workers[w] == Popped
    case EndTask(w) => w < |p.workers| && p.workers[w] == InTask
  }

  /** The exit flag is up: a popped item, or a null pop, ends the worker. */
  function Do(max: nat, p: Pool, a: Act): Pool
    requires Can(p, a)
  {
    match a
    case TryAppend(x) =>
      if Admits(|p.q.items|, max) then p.(q := Push(p.q, max, x), posting := true) else p.(k := p.k + 1)
    case PostAppend => p.(q := Post(p.q), posting := false, k := p.k + 1)
    case WaitItem(w) => p.(q := Wait(p.q), workers := p.workers[w := Waited])
    case PopItem(w) => p.(q := Pop(p.q), workers := p.workers[w := if p.q.items == [] then Gone else Popped])
    case SeeFlag(w) => p.(workers := p.workers[w := Gone])
    case EndTask(w) => p.(workers := p.workers[w := Idle])
  }

  ghost function OwesPop(pc: Pc): nat { if pc == Waited then 1 else 0 }

  /** A worker that will still take an item. */
  ghost function Wants(pc: Pc): nat { if pc == Idle || pc == Waited || pc == InTask then 1 else 0 }

  ghost function Left(p: Pool): int {
    |p.workers| - p.k - (if p.posting then 1 else 0)
  }

  /** The queue with the appends still to come has an item for every worker that will take one. */
  ghost predicate Supplied(p: Pool) {
    && |p.q.items| == p.q.stat + Total(OwesPop, p.workers) + (if p.posting then 1 else 0)
    && Left(p) >= 0
    && |p.q.items| + Left(p) >= Total(Wants, p.workers)
  }

  lemma WantsAtMostWorkers(ws: seq<Pc>)
    ensures Total(Wants, ws) <= |ws|
  {
    TotalOnes(Wants, ws, |ws|);
  }

  lemma SuppliedStep(max: nat, p: Pool, a: Act)
    requires Supplied(p) && Can(p, a) && (max == 0 || max + 1 >= |p.workers|)
    ensures Supplied(Do(max, p, a)) && |Do(max, p, a).workers| == |p.workers|
  {
    var p' := Do(max, p, a);
    WantsAtMostWorkers(p.workers);
    if !a.TryAppend? && !a.PostAppend? {
      TotalUpdate(OwesPop, p.workers, a.w, p'.workers[a.w]);
      TotalUpdate(Wants, p.workers, a.w, p'.workers[a.w]);
      TotalHas(OwesPop, p.workers, a.w);
    }
  }

  /** A worker that has taken its last item. */
  ghost function HasTaken(pc: Pc): nat { if pc == Popped || pc == Gone then 1 else 0 }

  /** The pushes among the first k actions. */
  ghost function Appended(max: nat, ps: seq<Pool>, acts: seq<Act>, k: nat): nat
    requires k <= |acts| && |ps| == |acts| + 1
  {
    if k == 0 then 0
    else
      var size := |ps[k - 1].q.items|;
      Appended(max, ps, acts, k - 1) + if acts[k - 1].TryAppend? && (max == 0 || size <= max) then 1 else 0
  }

  ghost predicate CountsItems(p: Pool) {
    |p.q.items| == p.q.stat + Total(OwesPop, p.workers) + if p.posting then 1 else 0
  }

  lemma StepCountsItems(max: nat, p: Pool, a: Act)
    requires CountsItems(p) && Can(p, a)
    ensures var p' := Do(max, p, a);
            && CountsItems(p')
            && |p'.q.items| + Total(HasTaken, p'.workers) ==
               |p.q.items| + Total(HasTaken, p.workers) +
               if a.TryAppend? && (max == 0 || |p.q.items| <= max) then 1 else 0
  {
    var p' := Do(max, p, a);
    if !a.TryAppend? && !a.PostAppend? {
      TotalUpdate(OwesPop, p.workers, a.w, p'.workers[a.w]);
      TotalUpdate(HasTaken, p.workers, a.w, p'.workers[a.w]);
      TotalHas(OwesPop, p.workers, a.w);
    }
  }

  /** Whatever the bound, every worker that leaves takes exactly one item with it: the items there were
      and those appended are in the queue or have been taken. */
  lemma {:induction false} EachLeavesWithOneItem(max: nat, ps: seq<Pool>, acts: seq<Act>, k: nat)
    requires IsShutdown(max, ps, acts) && k < |ps|
    ensures CountsItems(ps[k])
    ensures |ps[k].q.items| + Total(HasTaken, ps[k].workers) ==
            |ps[0].q.items| + Total(HasTaken, ps[0].workers) + Appended(max, ps, acts, k)
  {
    if k > 0 {
      EachLeavesWithOneItem(max, ps, acts, k - 1);
      StepCountsItems(max, ps[k - 1], acts[k - 1]);
    }
  }

  ghost function Steps(pc: Pc): nat {
    match pc
    case InTask => 4
    case Idle => 3
    case Waited => 2
    case Popped => 1
    case Gone => 0
  }

  /** What is left to do before everyone has gone. */
  ghost function Remaining(p: Pool): int {
    Total(Steps, p.workers) + 2 * (|p.workers| - p.k) - (if p.posting then 1 else 0)
  }

  lemma RemainingFalls(max: nat, p: Pool, a: Act)
    requires Can(p, a)
    ensures Remaining(Do(max, p, a)) < Remaining(p)
  {
    if !a.TryAppend? && !a.PostAppend? {
      TotalUpdate(Steps, p.workers, a.w, Do(max, p, a).workers[a.w]);
    }
  }

  lemma SomeoneCanAct(p: Pool, w: nat)
    requires Supplied(p) && w < |p.workers| && p.workers[w] != Gone
    ensures exists a :: Can(p, a)
  {
    if p.posting {
      assert Can(p, PostAppend);
    } else if p.k < |p.workers| {
      assert Can(p, TryAppend(0));
    } else if p.workers[w] == Waited {
      assert Can(p, PopItem(w));
    } else if p.workers[w] == Popped {
      assert Can(p, SeeFlag(w));
    } else if p.workers[w] == InTask {
      assert Can(p, EndTask(w));
    } else if Total(OwesPop, p.workers) > 0 {
      var v := TotalFind(OwesPop, p.workers, |p.workers|);
      assert Can(p, PopItem(v));
    } else {
      TotalHas(Wants, p.workers, w);
      assert Can(p, WaitItem(w));
    }
  }

  ghost predicate IsShutdown(max: nat, ps: seq<Pool>, acts: seq<Act>) {
    && |ps| == |acts| + 1
    && ps[0].k == 0 && !ps[0].posting
    && |ps[0].q.items| == ps[0].q.stat + Total(OwesPop, ps[0].workers)
    && forall i :: 0 <= i < |acts| ==> Can(ps[i], acts[i]) && ps[i + 1] == Do(max, ps[i], acts[i])
  }

  lemma {:induction false} SuppliedAlways(max: nat, ps: seq<Pool>, acts: seq<Act>, i: nat)
    requires IsShutdown(max, ps, acts) && i < |ps| && (max == 0 || max + 1 >= |ps[0].workers|)
    ensures Supplied(ps[i]) && |ps[i].workers| == |ps[0].workers|
    ensures i + Remaining(ps[i]) <= Remaining(ps[0])
  {
    if i == 0 {
      WantsAtMostWorkers(ps[0].workers);
    } else {
      SuppliedAlways(max, ps, acts, i - 1);
      SuppliedStep(max, ps[i - 1], acts[i - 1]);
      RemainingFalls(max, ps[i - 1], acts[i - 1]);
    }
  }

  /** Main result: whatever the queue held and wherever the workers stood when the flag went up, and
      although appends may be refused, no worker pops an empty queue; every run is bounded, and one
      that cannot go on has seen every worker leave. */
  lemma EveryWorkerLeaves(max: nat, ps: seq<Pool>, acts: seq<Act>)
    requires IsShutdown(max, ps, acts) && (max == 0 || max + 1 >= |ps[0].workers|)
    ensures forall w :: 0 <= w < |ps[|acts|].workers| && ps[|acts|].workers[w] == Waited ==> ps[|acts|].q.items != []
    ensures |acts| + Remaining(ps[|acts|]) <= Remaining(ps[0]) && Remaining(ps[|acts|]) >= 0
    ensures (forall a :: !Can(ps[|acts|], a)) ==>
              forall w :: 0 <= w < |ps[|acts|].workers| ==> ps[|acts|].workers[w] == Gone
  {
    SuppliedAlways(max, ps, acts, |acts|);
    var p := ps[|acts|];
    forall w: nat | w < |p.workers| && p.workers[w] == Waited
      ensures p.q.items != []
    {
      TotalHas(OwesPop, p.workers, w);
    }
    forall w: nat | w < |p.workers| && p.workers[w] != Gone
      ensures exists a :: Can(p, a)
    {
      SomeoneCanAct(p, w);
    }
  }

  // ---- the bound is needed ----

  /** The pool with `items` queued and announced, k appends tried, and the first `gone` workers gone. */
  ghost function Picture(threads: nat, items: nat, k: nat, gone: nat): Pool {
    Pool(Queue(seq(items, i => 0), items), seq(threads, i => if i < gone then Gone else Idle), k, false)
  }

  lemma OneMoreAct(max: nat, ps: seq<Pool>, acts: seq<Act>, a: Act) returns (qs: seq<Pool>, bs: seq<Act>)
    requires IsShutdown(max, ps, acts) && Can(ps[|acts|], a)
    ensures IsShutdown(max, qs, bs) && qs[0] == ps[0] && qs[|bs|] == Do(max, ps[|acts|], a)
  {
    qs, bs := ps + [Do(max, ps[|acts|], a)], acts + [a];
  }

  /** The closer fills the queue of idle workers and is then refused. */
  lemma {:induction false} Fill(max: nat, threads: nat, k: nat) returns (ps: seq<Pool>, acts: seq<Act>)
    requires 0 < max && k <= threads
    ensures IsShutdown(max, ps, acts) && ps[0] == Picture(threads, 0, 0, 0)
    ensures ps[|acts|] == Picture(threads, if k <= max then k else max + 1, k, 0)
  {
    if k == 0 {
      ps, acts := [Picture(threads, 0, 0, 0)], [];
      TotalZero(OwesPop, ps[0].workers);
    } else {
      ps, acts := Fill(max, threads, k - 1);
      ps, acts := OneMoreAct(max, ps, acts, TryAppend(0));
      if k - 1 <= max {
        ps, acts := OneMoreAct(max, ps, acts, PostAppend);
        assert ps[|acts|].q.items == Picture(threads, k, k, 0).q.items;
      }
    }
  }

  /** Then the workers leave one after the other, each with an item, until none is left. */
  lemma {:induction false} Empty(max: nat, threads: nat, gone: nat) returns (ps: seq<Pool>, acts: seq<Act>)
    requires 0 < max && gone <= max + 1 <= threads
    ensures IsShutdown(max, ps, acts) && ps[0] == Picture(threads, 0, 0, 0)
    ensures ps[|acts|] == Picture(threads, max + 1 - gone, threads, gone)
  {
    if gone == 0 {
      ps, acts := Fill(max, threads, threads);
    } else {
      var w := gone - 1;
      ps, acts := Empty(max, threads, w);
      ps, acts := OneMoreAct(max, ps, acts, WaitItem(w));
      ps, acts := OneMoreAct(max, ps, acts, PopItem(w));
      ps, acts := OneMoreAct(max, ps, acts, SeeFlag(w));
      assert ps[|acts|].q.items == Picture(threads, max + 1 - gone, threads, gone).q.items;
      assert ps[|acts|].workers == Picture(threads, max + 1 - gone, threads, gone).workers;
    }
  }

  ghost predicate AllGone(p: Pool) {
    forall w :: 0 <= w < |p.workers| ==> p.workers[w] == Gone
  }

  /** A shutdown of idle workers that cannot go on. */
  ghost predicate IsFinal(max: nat, threads: nat, ps: seq<Pool>, acts: seq<Act>) {
    IsShutdown(max, ps, acts) && ps[0] == Picture(threads, 0, 0, 0) && forall a :: !Can(ps[|acts|], a)
  }

  lemma FinalMeansGone(max: nat, threads: nat, ps: seq<Pool>, acts: seq<Act>)
    requires IsFinal(max, threads, ps, acts) && (max == 0 || max + 1 >= threads)
    ensures AllGone(ps[|acts|])
  {
    EveryWorkerLeaves(max, ps, acts);
  }

  lemma OneIsStranded(max: nat, threads: nat) returns (ps: seq<Pool>, acts: seq<Act>)
    requires 0 < max && max + 1 < threads
    ensures IsFinal(max, threads, ps, acts) && !AllGone(ps[|acts|])
  {
    ps, acts := Empty(max, threads, max + 1);
    assert ps[|acts|].workers[max + 1] == Idle;
  }

  /** A pool of idle workers shuts down in every run exactly when its queue is unbounded or, over-full,
      holds an item for each of them. */
  lemma ShutsDownIffRoomForAll(max: nat, threads: nat)
    ensures (max == 0 || max + 1 >= threads) <==>
            forall ps: seq<Pool>, acts: seq<Act> :: IsFinal(max, threads, ps, acts) ==> AllGone(ps[|acts|])
  {
    if max == 0 || max + 1 >= threads {
      forall ps: seq<Pool>, acts: seq<Act> | IsFinal(max, threads, ps, acts)
        ensures AllGone(ps[|acts|])
      {
        FinalMeansGone(max, threads, ps, acts);
      }
    } else {
      var ps, acts := OneIsStranded(max, threads);
    }
  }
}
