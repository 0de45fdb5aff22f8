/**
 Pooled connections and the handles that own them (dispatcher/connection_pool.h): a handle can be
 move-constructed, move-assigned (a swap), emptied and destroyed; emptying gives the connection back.
 */
module Connections {
  import opened Options
  import opened Sums
  import opened BlockQueues

  /** The two fields of a handle; P names a pool. */
  datatype Handle<P> = Handle(value: Option<nat>, pool: Option<P>)

  /** Whether the handle holds a connection, as its conversion to bool says. */
  predicate Holds<P>(h: Handle<P>) {
    h.value.Some? && h.pool.Some?
  }

  // ---- the classes ----

  class ConnectionPool {
    const pool: BlockQueue<nat>
    const poolSize: nat

    ghost predicate Valid()
      reads this, pool
    {
      pool.Quiet() && pool.maxSize == poolSize
    }

    /** All the connections are put in the pool. */
    constructor (connections: seq<nat>)
      ensures Valid() && fresh(pool) && poolSize == |connections| && pool.items == connections
    {
      poolSize := |connections|;
      pool := new BlockQueue(|connections|);
      new;
      for a := 0 to |connections|
        invariant Valid() && fresh(pool) && pool.items == connections[..a]
      {
        var ok := pool.Emplace(connections[a]);
      }
    }

    method Emplace(conn: nat)
      requires Valid()
      modifies pool
      ensures Valid() && pool.items == Emplaced(old(pool.items), poolSize, conn)
    {
      var ok := pool.Emplace(conn);
    }

    /** Returns only once a connection is there. */
    method PopConn() returns (c: Connection)
      requires Valid() && pool.items != []
      modifies pool
      ensures Valid() && fresh(c)
      ensures c.View() == Handle(Some(old(pool.items[0])), Some(this)) && pool.items == old(pool.items[1..])
    {
      var conn := pool.FrontAndPop();
      c := new Connection(conn, Some(this));
    }
  }

  class Connection {
    var value: Option<nat>
    var pool: Option<ConnectionPool>

    ghost function View(): Handle<ConnectionPool>
      reads this
    {
      Handle(value, pool)
    }

    constructor (t: Option<nat>, c: Option<ConnectionPool>)
      ensures View() == Handle(t, c)
    {
      value, pool := t, c;
    }

    /** The new handle takes everything; the other is left empty. */
    constructor Move(move: Connection)
      modifies move
      ensures View() == old(move.View()) && move.View() == Handle(None, None)
    {
      value, pool := move.value, move.pool;
      new;
      move.value, move.pool := None, None;
    }

    method Swap(p: Connection)
      modifies this, p
      ensures View() == old(p.View()) && p.View() == old(View())
    {
      value, p.value := p.value, value;
      pool, p.pool := p.pool, pool;
    }

    method Assign(move: Connection)
      modifies this, move
      ensures View() == old(move.View()) && move.View() == old(View())
    {
      Swap(move);
    }

    /** What the destructor runs as well. */
    method Emplace()
      requires pool.Some? ==> pool.value.Valid()
      modifies this, if pool.Some? then {pool.value.pool} else {}
      ensures View() == if Holds(old(View())) then Handle(None, None) else old(View())
      ensures Holds(old(View())) ==>
                var home := old(pool).value;
                home.Valid() && home.pool.items == Emplaced(old(pool.value.pool.items), home.poolSize, old(value).value)
      ensures !Holds(old(View())) && old(pool).Some? ==>
                old(pool).value.pool.items == old(pool.value.pool.items) && old(pool).value.Valid()
    {
      if value.Some? && pool.Some? {
        pool.value.Emplace(value.value);
        value, pool := None, None;
      }
    }
  }

  // ---- several pools and any number of handles ----

  /** The connections in a pool, and the bound its queue was given. */
  datatype Pool = Pool(items: seq<nat>, size: nat)

  /** The pools, and every handle ever made, None once it is destroyed. */
  datatype World = World(pools: seq<Pool>, handles: seq<Option<Handle<nat>>>)

  /** Each pool starts with all its connections, and with their number as its bound. */
  function Started(start: seq<seq<nat>>): World {
    World(seq(|start|, p requires 0 <= p < |start| => Pool(start[p], |start[p]|)), [])
  }

  datatype Act = PopConn(p: nat) | MoveConstruct(h: nat) | MoveAssign(h: nat, g: nat) | Emplace(h: nat) | Destroy(h: nat)

  predicate Live(w: World, h: nat) {
    h < |w.handles| && w.handles[h].Some?
  }

  predicate Can(w: World, a: Act) {
    match a
    case PopConn(p) => p < |w.pools| && w.pools[p].items != []
    case MoveConstruct(h) => Live(w, h)
    case MoveAssign(h, g) => Live(w, h) && Live(w, g)
    case Emplace(h) => Live(w, h)
    case Destroy(h) => Live(w, h)
  }

  const EMPTY: Handle<nat> := Handle(None, None)

  function DoPop(w: World, p: nat): World
    requires p < |w.pools| && w.pools[p].items != []
  {
    var q := w.pools[p];
    World(w.pools[p := q.(items := q.items[1..])], w.handles + [Some(Handle(Some(q.items[0]), Some(p)))])
  }

  /** A handle never names a pool that is not there; `Whole` below says so. */
  function DoEmplace(w: World, h: nat): World
    requires Live(w, h)
  {
    var x := w.handles[h].value;
    if Holds(x) && x.pool.value < |w.pools| then
      var q := w.pools[x.pool.value];
      World(w.pools[x.pool.value := q.(items := Emplaced(q.items, q.size, x.value.value))],
            w.handles[h := Some(EMPTY)])
    else w
  }

  function Do(w: World, a: Act): World
    requires Can(w, a)
  {
    match a
    case PopConn(p) => DoPop(w, p)
    case MoveConstruct(h) => w.(handles := w.handles[h := Some(EMPTY)] + [w.handles[h]])
    case MoveAssign(h, g) => w.(handles := w.handles[h := w.handles[g]][g := w.handles[h]])
    case Emplace(h) => DoEmplace(w, h)
    case Destroy(h) => DoEmplace(w, h).(handles := DoEmplace(w, h).handles[h := None])
  }

  /** The world after an act, handle by handle: what the classes promise for the two involved, and
      nothing for the others. */
  ghost predicate HasEffect(w: World, a: Act, w': World) {
    match a
    case PopConn(p) =>
      && p < |w.pools| && w.pools[p].items != []
      && |w'.handles| == |w.handles| + 1
      && w'.handles[|w.handles|] == Some(Handle(Some(w.pools[p].items[0]), Some(p)))
      && SamePoolsBut(w, w', p) && w'.pools[p].items == w.pools[p].items[1..]
      && SameHandlesBut(w, w', |w.handles|, |w.handles|)
    case MoveConstruct(h) =>
      && Live(w, h) && |w'.handles| == |w.handles| + 1 && w'.pools == w.pools
      && w'.handles[|w.handles|] == w.handles[h] && w'.handles[h] == Some(Handle(None, None))
      && SameHandlesBut(w, w', h, h)
    case MoveAssign(h, g) =>
      && Live(w, h) && Live(w, g) && |w'.handles| == |w.handles| && w'.pools == w.pools
      && w'.handles[h] == w.handles[g] && w'.handles[g] == w.handles[h]
      && SameHandlesBut(w, w', h, g)
    case Emplace(h) =>
      && Live(w, h) && |w'.handles| == |w.handles| && SameHandlesBut(w, w', h, h) && GivenBack(w, w', h)
      && w'.handles[h] == if Holds(w.handles[h].value) then Some(Handle(None, None)) else w.handles[h]
    case Destroy(h) =>
      && Live(w, h) && |w'.handles| == |w.handles| && SameHandlesBut(w, w', h, h) && GivenBack(w, w', h)
      && w'.handles[h] == None
  }

  ghost predicate SameHandlesBut(w: World, w': World, h: nat, g: nat)
    requires |w.handles| <= |w'.handles|
  {
    forall i :: 0 <= i < |w.handles| && i != h && i != g ==> w'.handles[i] == w.handles[i]
  }

  ghost predicate SamePoolsBut(w: World, w': World, p: nat) {
    |w'.pools| == |w.pools| && forall q :: 0 <= q < |w.pools| && q != p ==> w'.pools[q] == w.pools[q]
  }

  /** What handle h held is at the end of its pool, as long as that pool is not over-full. */
  ghost predicate GivenBack(w: World, w': World, h: nat)
    requires Live(w, h)
  {
    var x := w.handles[h].value;
    if !Holds(x) then w'.pools == w.pools
    else
      var p := x.pool.value;
      && p < |w.pools| && SamePoolsBut(w, w', p)
      && (|w.pools[p].items| <= w.pools[p].size ==> w'.pools[p].items == w.pools[p].items + [x.value.value])
  }

  /** The connection of pool p that a live handle holds. */
  ghost function HeldFrom(p: nat): Option<Handle<nat>> -> multiset<nat> {
    (x: Option<Handle<nat>>) => if x.Some? && x.value.pool == Some(p) && x.value.value.Some? then multiset{x.value.value.value} else multiset{}
  }

  /** How often connection c stands in pool p or is held by a handle that will return it there. */
  ghost function Places(w: World, p: nat, c: nat): nat
    requires p < |w.pools|
  {
    multiset(w.pools[p].items)[c] + Bag(HeldFrom(p), w.handles)[c]
  }

  /** A live handle holds a connection of some pool or nothing at all. */
  ghost predicate WholeHandle(w: World, x: Option<Handle<nat>>) {
    x.Some? ==> (x.value.value.Some? <==> x.value.pool.Some?) && (x.value.pool.Some? ==> x.value.pool.value < |w.pools|)
  }

  ghost predicate Whole(w: World) {
    forall h :: 0 <= h < |w.handles| ==> WholeHandle(w, w.handles[h])
  }

  ghost predicate Same(w: World, w': World, p: nat, c: nat)
    requires p < |w.pools| == |w'.pools|
  {
    Places(w', p, c) == Places(w, p, c)
  }

  ghost predicate Inv(start: seq<seq<nat>>, w: World) {
    && |w.pools| == |start| && Whole(w)
    && (forall p :: 0 <= p < |start| ==> w.pools[p].size == |start[p]|)
    && forall p, c :: 0 <= p < |start| ==> Places(w, p, c) == multiset(start[p])[c]
  }

  lemma PoolsFit(start: seq<seq<nat>>, w: World, p: nat)
    requires Inv(start, w) && p < |start|
    ensures |w.pools[p].items| <= w.pools[p].size
  {
    forall c
      ensures multiset(w.pools[p].items)[c] <= multiset(start[p])[c]
    {
      assert Places(w, p, c) == multiset(start[p])[c];
    }
    var rest := multiset(start[p]) - multiset(w.pools[p].items);
    assert multiset(start[p]) == multiset(w.pools[p].items) + rest;
  }

  lemma PopKeepsPlaces(w: World, q: nat, p: nat, c: nat)
    requires q < |w.pools| && w.pools[q].items != [] && p < |w.pools|
    ensures Same(w, DoPop(w, q), p, c)
  {
    CountSnoc(HeldFrom(p), w.handles, Some(Handle(Some(w.pools[q].items[0]), Some(q))), c);
    assert w.pools[q].items == [w.pools[q].items[0]] + w.pools[q].items[1..];
  }

  lemma EmplaceKeepsPlaces(w: World, h: nat, p: nat, c: nat)
    requires Live(w, h) && p < |w.pools|
    requires forall q :: 0 <= q < |w.pools| ==> |w.pools[q].items| <= w.pools[q].size
    ensures Same(w, DoEmplace(w, h), p, c)
  {
    CountUpdate(HeldFrom(p), w.handles, h, Some(EMPTY), c);
  }

  lemma MoveKeepsPlaces(w: World, h: nat, p: nat, c: nat)
    requires Live(w, h) && p < |w.pools|
    ensures Same(w, w.(handles := w.handles[h := Some(EMPTY)] + [w.handles[h]]), p, c)
  {
    CountUpdate(HeldFrom(p), w.handles, h, Some(EMPTY), c);
    CountSnoc(HeldFrom(p), w.handles[h := Some(EMPTY)], w.handles[h], c);
  }

  lemma SwapKeepsPlaces(w: World, h: nat, g: nat, p: nat, c: nat)
    requires Live(w, h) && Live(w, g) && p < |w.pools|
    ensures Same(w, w.(handles := w.handles[h := w.handles[g]][g := w.handles[h]]), p, c)
  {
    CountUpdate(HeldFrom(p), w.handles, h, w.handles[g], c);
    CountUpdate(HeldFrom(p), w.handles[h := w.handles[g]], g, w.handles[h], c);
  }

  lemma DropKeepsPlaces(w: World, h: nat, p: nat, c: nat)
    requires Live(w, h) && !Holds(w.handles[h].value) && p < |w.pools|
    ensures Same(w, w.(handles := w.handles[h := None]), p, c)
  {
    CountUpdate(HeldFrom(p), w.handles, h, None, c);
  }

  lemma ActKeepsPlaces(w: World, a: Act, p: nat, c: nat)
    requires Can(w, a) && p < |w.pools| && Whole(w)
    requires forall q :: 0 <= q < |w.pools| ==> |w.pools[q].items| <= w.pools[q].size
    ensures Same(w, Do(w, a), p, c)
  {
    match a
    case PopConn(q) => PopKeepsPlaces(w, q, p, c);
    case MoveConstruct(h) => MoveKeepsPlaces(w, h, p, c);
    case MoveAssign(h, g) => SwapKeepsPlaces(w, h, g, p, c);
    case Emplace(h) => EmplaceKeepsPlaces(w, h, p, c);
    case Destroy(h) =>
      EmplaceKeepsPlaces(w, h, p, c);
      assert WholeHandle(w, w.handles[h]);
      DropKeepsPlaces(DoEmplace(w, h), h, p, c);
  }

  lemma ActKeepsWhole(w: World, a: Act)
    requires Can(w, a) && Whole(w)
    ensures Whole(Do(w, a)) && |Do(w, a).pools| == |w.pools|
  {
  }

  ghost predicate IsRun(start: seq<seq<nat>>, ws: seq<World>, acts: seq<Act>) {
    && |ws| == |acts| + 1 && ws[0] == Started(start)
    && forall k :: 0 <= k < |acts| ==> Can(ws[k], acts[k]) && ws[k + 1] == Do(ws[k], acts[k])
  }

  /** In every reachable world each act does to the handles what the classes promise, and no
      connection is refused by its pool. */
  lemma ActHasEffect(start: seq<seq<nat>>, w: World, a: Act)
    requires Inv(start, w) && Can(w, a)
    ensures HasEffect(w, a, Do(w, a))
    ensures forall p :: 0 <= p < |w.pools| ==> |w.pools[p].items| <= w.pools[p].size
  {
    forall p | 0 <= p < |w.pools|
      ensures |w.pools[p].items| <= w.pools[p].size
    {
      PoolsFit(start, w, p);
    }
    if a.Emplace? || a.Destroy? {
      assert WholeHandle(w, w.handles[a.h]);
    }
  }

  lemma InvAct(start: seq<seq<nat>>, w: World, a: Act)
    requires Inv(start, w) && Can(w, a)
    ensures Inv(start, Do(w, a))
  {
    forall q | 0 <= q < |w.pools|
      ensures |w.pools[q].items| <= w.pools[q].size
    {
      PoolsFit(start, w, q);
    }
    ActKeepsWhole(w, a);
    forall p, c | 0 <= p < |start|
      ensures Places(Do(w, a), p, c) == multiset(start[p])[c]
    {
      ActKeepsPlaces(w, a, p, c);
    }
  }

  lemma {:induction false} InvAlways(start: seq<seq<nat>>, ws: seq<World>, acts: seq<Act>, k: nat)
    requires IsRun(start, ws, acts) && k < |ws|
    ensures Inv(start, ws[k])
  {
    if k > 0 {
      InvAlways(start, ws, acts, k - 1);
      InvAct(start, ws[k - 1], acts[k - 1]);
    }
  }

  /** Main result on handles: after any sequence of pops, moves, swaps, returns and destructions each
      connection of a pool is in that pool or held by one live handle that will return it there. */
  lemma EveryConnectionHasOnePlace(start: seq<seq<nat>>, ws: seq<World>, acts: seq<Act>,
                                   k: nat, p: nat, c: nat)
    requires IsRun(start, ws, acts) && k < |ws| && p < |start|
    ensures |ws[k].pools| == |start| && Places(ws[k], p, c) == multiset(start[p])[c]
  {
    InvAlways(start, ws, acts, k);
  }

  /** Once no live handle holds anything, every pool has its own connections back, however they were
      moved and swapped about. */
  lemma ReleasedMeansHome(start: seq<seq<nat>>, ws: seq<World>, acts: seq<Act>, k: nat, p: nat)
    requires IsRun(start, ws, acts) && k < |ws| && p < |start|
    requires forall h :: 0 <= h < |ws[k].handles| && Live(ws[k], h) ==> !Holds(ws[k].handles[h].value)
    ensures |ws[k].pools| == |start| && multiset(ws[k].pools[p].items) == multiset(start[p])
  {
    InvAlways(start, ws, acts, k);
    var w := ws[k];
    forall h | 0 <= h < |w.handles|
      ensures HeldFrom(p)(w.handles[h]) == multiset{}
    {
      assert Live(w, h) ==> !Holds(w.handles[h].value);
    }
    forall c
      ensures multiset(w.pools[p].items)[c] == multiset(start[p])[c]
    {
      assert Places(w, p, c) == multiset(start[p])[c];
      BagWithout(HeldFrom(p), w.handles, c);
    }
  }

  /** Giving back twice is giving back once, a handle that was moved from gives nothing back, and
      assigning a handle to itself or swapping twice changes nothing. */
  lemma MovesAreHarmless(w: World, h: nat, g: nat)
    requires Live(w, h) && Live(w, g) && Whole(w)
    ensures var v := Do(w, Emplace(h)); Do(v, Emplace(h)) == v
    ensures var v := Do(w, MoveConstruct(h)); Do(v, Emplace(h)) == v
    ensures Do(w, MoveAssign(h, h)) == w
    ensures Do(Do(w, MoveAssign(h, g)), MoveAssign(h, g)) == w
  {
  }
}
