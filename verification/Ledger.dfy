/**
 What the dispatcher's main thread keeps to itself in task mode (dispatcher/dispatch_task.cpp):
 the free runners, the FIFO of messages awaiting their ack, the uuid index of that FIFO, and
 what it has published and acked.  Each function is one uninterrupted piece of that thread.
 */
module Ledgers {
  import opened Options
  import opened BlockQueues
  import opened TaskRunners

  /** A runner and the record it carries; whoever holds a job owns the runner. */
  datatype Job = Job(runner: nat, task: Task)

  /** An ack node: the message, and, once judged, the runner parked with its result. */
  datatype Node = Node(envelope: Delivery, finished: bool, task: Option<Job>)

  /** The index maps a uuid to the delivery tag of its node. */
  datatype Ledger = Ledger(
    free: seq<nat>, fifo: seq<Node>, index: map<string, nat>, published: seq<Task>, acks: seq<nat>)

  function AllRunners(n: nat): seq<nat> {
    seq(n, i requires 0 <= i < n => i)
  }

  /** Inserting into the index keeps an entry that is already there. */
  function AddToMap(m: Ledger, prefetch: nat, d: Delivery): Ledger {
    m.(fifo := Emplaced(m.fifo, prefetch, Node(d, false, None)),
       index := if d.uuid in m.index then m.index else m.index[d.uuid := d.tag])
  }

  /** Marking goes through the index, so it reaches the node whose tag is filed there. */
  function Marked(fifo: seq<Node>, tag: nat, j: Job): seq<Node> {
    seq(|fifo|, k requires 0 <= k < |fifo| =>
      if fifo[k].envelope.tag == tag then fifo[k].(finished := true, task := Some(j)) else fifo[k])
  }

  function Park(m: Ledger, j: Job): Ledger
    requires j.task.uuid in m.index
  {
    m.(fifo := Marked(m.fifo, m.index[j.task.uuid], j))
  }

  predicate FrontReady(m: Ledger) {
    m.fifo != [] && m.fifo[0].finished
  }

  /** A ready front is looked up in the index again before it is released. */
  predicate FrontFiled(m: Ledger) {
    m.fifo != [] && m.fifo[0].envelope.uuid in m.index && m.fifo[0].task.Some?
  }

  /** Publish and ack the front, erase it, and give its runner back. */
  function PublishFront(m: Ledger, runners: nat): Ledger
    requires FrontFiled(m)
  {
    var front := m.fifo[0];
    Ledger(
      Emplaced(m.free, runners, front.task.value.runner),
      m.fifo[1..],
      m.index - {front.envelope.uuid},
      m.published + [front.task.value.task],
      m.acks + [m.index[front.envelope.uuid]])
  }

  /** `try_send_result`: publish from the front for as long as the front is ready. */
  function Drain(m: Ledger, runners: nat): Ledger
    decreases |m.fifo|
  {
    if FrontReady(m) && FrontFiled(m) then Drain(PublishFront(m, runners), runners) else m
  }

  function TakeFree(m: Ledger): Ledger
    requires m.free != []
  {
    m.(free := m.free[1..])
  }

  function ReturnFree(m: Ledger, runners: nat, r: nat): Ledger {
    m.(free := Emplaced(m.free, runners, r))
  }

  ghost predicate NodeFiled(index: map<string, nat>, n: Node) {
    && n.envelope.uuid in index && index[n.envelope.uuid] == n.envelope.tag
    && (n.finished <==> n.task.Some?)
  }

  ghost predicate AllFiled(fifo: seq<Node>, index: map<string, nat>) {
    forall k :: 0 <= k < |fifo| ==> NodeFiled(index, fifo[k])
  }

  ghost predicate Carries(fifo: seq<Node>, u: string) {
    exists k :: 0 <= k < |fifo| && fifo[k].envelope.uuid == u
  }

  ghost predicate TagsAscend(fifo: seq<Node>) {
    forall i, k :: 0 <= i < k < |fifo| ==> fifo[i].envelope.tag < fifo[k].envelope.tag
  }

  /** The index files exactly the nodes of the FIFO, and a node is ready exactly when it holds a job. */
  ghost predicate Filed(m: Ledger) {
    && AllFiled(m.fifo, m.index)
    && (forall u :: u in m.index ==> Carries(m.fifo, u))
    && TagsAscend(m.fifo)
  }

  lemma FiledUuidsAreDistinct(m: Ledger, i: nat, k: nat)
    requires Filed(m) && i < |m.fifo| && k < |m.fifo| && i != k
    ensures m.fifo[i].envelope.uuid != m.fifo[k].envelope.uuid
  {
  }

  lemma AddKeepsFiled(m: Ledger, prefetch: nat, d: Delivery)
    requires Filed(m) && d.uuid !in m.index && Admits(|m.fifo|, prefetch)
    requires forall k :: 0 <= k < |m.fifo| ==> m.fifo[k].envelope.tag < d.tag
    ensures Filed(AddToMap(m, prefetch, d))
  {
    var m' := AddToMap(m, prefetch, d);
    forall k | 0 <= k < |m'.fifo|
      ensures NodeFiled(m'.index, m'.fifo[k])
    {
      if k < |m.fifo| {
        assert NodeFiled(m.index, m.fifo[k]);
      }
    }
    forall u | u in m'.index
      ensures Carries(m'.fifo, u)
    {
      if u in m.index {
        var k := CarriedAt(m.fifo, u);
        assert m'.fifo[k].envelope.uuid == u;
      } else {
        assert m'.fifo[|m.fifo|].envelope.uuid == u;
      }
    }
  }

  lemma CarriedAt(fifo: seq<Node>, u: string) returns (k: nat)
    requires Carries(fifo, u)
    ensures k < |fifo| && fifo[k].envelope.uuid == u
  {
    k :| 0 <= k < |fifo| && fifo[k].envelope.uuid == u;
  }

  /** Parking through the index changes one node, the one that carries the job's uuid. */
  lemma ParkHitsOneNode(m: Ledger, j: Job) returns (k: nat)
    requires Filed(m) && j.task.uuid in m.index
    ensures k < |m.fifo| && m.fifo[k].envelope.uuid == j.task.uuid
    ensures Park(m, j).fifo == m.fifo[k := m.fifo[k].(finished := true, task := Some(j))]
  {
    k := CarriedAt(m.fifo, j.task.uuid);
    assert NodeFiled(m.index, m.fifo[k]);
  }

  lemma ParkKeepsFiled(m: Ledger, j: Job)
    requires Filed(m) && j.task.uuid in m.index
    ensures Filed(Park(m, j))
  {
    var m' := Park(m, j);
    var hit := ParkHitsOneNode(m, j);
    forall k | 0 <= k < |m'.fifo|
      ensures NodeFiled(m'.index, m'.fifo[k])
    {
      assert NodeFiled(m.index, m.fifo[k]);
    }
    forall u | u in m'.index
      ensures Carries(m'.fifo, u)
    {
      var k := CarriedAt(m.fifo, u);
      assert m'.fifo[k].envelope.uuid == u;
    }
  }

  lemma PublishKeepsFiled(m: Ledger, runners: nat)
    requires Filed(m) && FrontReady(m)
    ensures FrontFiled(m) && Filed(PublishFront(m, runners))
  {
  }

  // ---- what holds whatever the broker delivers ----

  /** An entry with the node's tag is the node's own; a finished node has one and holds a job; acks
      are behind it. */
  ghost predicate NodeOrderly(m: Ledger, n: Node) {
    && (forall u :: u in m.index && m.index[u] == n.envelope.tag ==> u == n.envelope.uuid)
    && (n.finished ==> NodeFiled(m.index, n))
    && (forall a :: a in m.acks ==> a < n.envelope.tag)
  }

  ghost predicate Orderly(m: Ledger) {
    && TagsAscend(m.fifo)
    && forall k :: 0 <= k < |m.fifo| ==> NodeOrderly(m, m.fifo[k])
  }

  /** t is larger than every tag the ledger knows. */
  ghost predicate Below(m: Ledger, t: nat) {
    && (forall k :: 0 <= k < |m.fifo| ==> m.fifo[k].envelope.tag < t)
    && (forall u :: u in m.index ==> m.index[u] < t)
    && (forall a :: a in m.acks ==> a < t)
  }

  lemma BelowAfterAdd(m: Ledger, prefetch: nat, d: Delivery, t: nat)
    requires Below(m, t) && d.tag < t
    ensures Below(AddToMap(m, prefetch, d), t)
  {
  }

  lemma AddKeepsOrderly(m: Ledger, prefetch: nat, d: Delivery)
    requires Orderly(m) && Below(m, d.tag)
    ensures Orderly(AddToMap(m, prefetch, d))
  {
    var m' := AddToMap(m, prefetch, d);
    forall k | 0 <= k < |m'.fifo|
      ensures NodeOrderly(m', m'.fifo[k])
    {
      assert k < |m.fifo| ==> NodeOrderly(m, m.fifo[k]);
    }
  }

  lemma ParkKeepsOrderly(m: Ledger, j: Job)
    requires Orderly(m) && j.task.uuid in m.index
    ensures Orderly(Park(m, j)) && forall t :: Below(m, t) ==> Below(Park(m, j), t)
  {
    var m' := Park(m, j);
    forall k | 0 <= k < |m'.fifo|
      ensures NodeOrderly(m', m'.fifo[k])
    {
      assert NodeOrderly(m, m.fifo[k]);
    }
  }

  lemma PublishKeepsOrderly(m: Ledger, runners: nat)
    requires Orderly(m) && FrontReady(m)
    ensures FrontFiled(m) && m.index[m.fifo[0].envelope.uuid] == m.fifo[0].envelope.tag
    ensures Orderly(PublishFront(m, runners)) && forall t :: Below(m, t) ==> Below(PublishFront(m, runners), t)
  {
    var front := m.fifo[0];
    assert NodeOrderly(m, front) && NodeFiled(m.index, front);
    var m' := PublishFront(m, runners);
    forall k | 0 <= k < |m'.fifo|
      ensures NodeOrderly(m', m'.fifo[k])
    {
      assert NodeOrderly(m, m.fifo[k + 1]) && front.envelope.tag < m.fifo[k + 1].envelope.tag;
    }
  }

  /** The length of the run of finished nodes at the front. */
  function ReadyPrefix(fifo: seq<Node>): (n: nat)
    ensures n <= |fifo| && (forall i :: 0 <= i < n ==> fifo[i].finished) && (n < |fifo| ==> !fifo[n].finished)
  {
    if fifo != [] && fifo[0].finished then 1 + ReadyPrefix(fifo[1..]) else 0
  }

  /** From m to m' the first n nodes were published in order: each result, each message's own
      tag, each runner; their uuids are forgotten, and nothing else moved. */
  ghost predicate Released(m: Ledger, m': Ledger, n: nat)
    requires n <= |m.fifo|
  {
    && m'.fifo == m.fifo[n..]
    && m'.published == m.published + Results(m.fifo[..n])
    && m'.acks == m.acks + Tags(m.fifo[..n])
    && m'.free == m.free + Runners(m.fifo[..n])
    && m'.index.Keys == m.index.Keys - Uuids(m.fifo[..n])
  }

  ghost function Results(ns: seq<Node>): seq<Task> {
    if ns == [] then [] else (if ns[0].task.Some? then [ns[0].task.value.task] else []) + Results(ns[1..])
  }

  ghost function Tags(ns: seq<Node>): seq<nat> {
    if ns == [] then [] else [ns[0].envelope.tag] + Tags(ns[1..])
  }

  ghost function Runners(ns: seq<Node>): seq<nat> {
    if ns == [] then [] else (if ns[0].task.Some? then [ns[0].task.value.runner] else []) + Runners(ns[1..])
  }

  ghost function Uuids(ns: seq<Node>): set<string> {
    if ns == [] then {} else {ns[0].envelope.uuid} + Uuids(ns[1..])
  }

  lemma ReleaseOneMore(m: Ledger, runners: nat, m': Ledger, n: nat)
    requires FrontFiled(m) && NodeFiled(m.index, m.fifo[0])
    requires |m.free| < runners && 0 < n <= |m.fifo|
    requires Released(PublishFront(m, runners), m', n - 1)
    ensures Released(m, m', n)
  {
    var p, front, ns := PublishFront(m, runners), m.fifo[0], m.fifo[..n];
    assert ns[0] == front && ns[1..] == p.fifo[..n - 1];
    assert m'.free == m.free + ([front.task.value.runner] + Runners(ns[1..]));
    assert m'.published == m.published + ([front.task.value.task] + Results(ns[1..]));
    assert m'.acks == m.acks + ([front.envelope.tag] + Tags(ns[1..]));
    assert Uuids(ns) == {front.envelope.uuid} + Uuids(ns[1..]);
  }

  lemma ReleaseNone(m: Ledger)
    ensures Released(m, m, 0)
  {
    assert m.fifo[..0] == [];
  }

  /** Draining releases exactly the run of finished nodes at the front. */
  lemma {:induction false} DrainReleasesTheReadyPrefix(m: Ledger, runners: nat)
    requires Filed(m) && |m.free| + |m.fifo| <= runners
    ensures Filed(Drain(m, runners)) && !FrontReady(Drain(m, runners))
    ensures Released(m, Drain(m, runners), ReadyPrefix(m.fifo))
    decreases |m.fifo|
  {
    if FrontReady(m) {
      PublishKeepsFiled(m, runners);
      var p := PublishFront(m, runners);
      DrainReleasesTheReadyPrefix(p, runners);
      assert Drain(m, runners) == Drain(p, runners) && ReadyPrefix(m.fifo) - 1 == ReadyPrefix(p.fifo);
      assert NodeFiled(m.index, m.fifo[0]);
      ReleaseOneMore(m, runners, Drain(p, runners), ReadyPrefix(m.fifo));
    } else {
      ReleaseNone(m);
    }
  }
}
