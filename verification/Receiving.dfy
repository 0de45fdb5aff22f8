/**
 The receive loop (`consume_msg`, dispatcher/dispatch_task.cpp): each turn takes a free runner and
 binds the next message to it, and the loop ends for want of a runner, of a message, or of sense in
 the message's test count.
 */
module Receiving {
  import opened Options
  import opened BlockQueues
  import opened TaskRunners
  import opened Ledgers

  datatype Stop = NoRunner | NoMessage | BadTestCount

  /** After n messages. */
  datatype Consumed = Consumed(main: Ledger, work: seq<Job>, n: nat, stop: Stop)

  /** bound: of the queues of runners; inbox: what the broker has ready. */
  function ConsumeAll(m: Ledger, bound: nat, prefetch: nat, inbox: seq<Delivery>, work: seq<Job>): Consumed
    decreases |inbox|
  {
    if m.free == [] then Consumed(m, work, 0, NoRunner)
    else
      var taken, r := TakeFree(m), m.free[0];
      if inbox == [] then Consumed(ReturnFree(taken, bound, r), work, 0, NoMessage)
      else if inbox[0].tests < 0 then Consumed(taken, work, 0, BadTestCount)
      else
        var d := inbox[0];
        var rest := ConsumeAll(AddToMap(taken, prefetch, d), bound, prefetch, inbox[1..],
                               Emplaced(work, bound, Job(r, InitialTask(d))));
        rest.(n := rest.n + 1)
  }

  ghost function Nodes(ds: seq<Delivery>): seq<Node> {
    seq(|ds|, i requires 0 <= i < |ds| => Node(ds[i], false, None))
  }

  ghost function Jobs(rs: seq<nat>, ds: seq<Delivery>): seq<Job>
    requires |rs| == |ds|
  {
    seq(|ds|, i requires 0 <= i < |ds| => Job(rs[i], InitialTask(ds[i])))
  }

  /** The first n messages were filed and queued in order, each with the next free runner. */
  ghost predicate Received(m: Ledger, m': Ledger, work: seq<Job>, work': seq<Job>, inbox: seq<Delivery>, n: nat) {
    && n <= |inbox| && n <= |m.free| && (forall i :: 0 <= i < n ==> inbox[i].tests >= 0)
    && m'.fifo == m.fifo + Nodes(inbox[..n])
    && work' == work + Jobs(m.free[..n], inbox[..n])
    && m'.published == m.published && m'.acks == m.acks
  }

  /** Why it stopped, and what that did to the free runners. */
  ghost predicate Stopped(free: seq<nat>, free': seq<nat>, inbox: seq<Delivery>, n: nat, stop: Stop) {
    match stop
    case NoRunner => n == |free| && free' == []
    case NoMessage => n == |inbox| < |free| && free' == free[n + 1..] + [free[n]]
    case BadTestCount => n < |inbox| && inbox[n].tests < 0 && n < |free| && free' == free[n + 1..]
  }

  /** The queues have room for what is ready and for every free runner. */
  ghost predicate Fits(m: Ledger, bound: nat, prefetch: nat, inbox: seq<Delivery>, work: seq<Job>) {
    |m.fifo| + |inbox| <= prefetch && |work| + |m.free| <= bound
  }

  lemma ReceivedFirst(m: Ledger, m1: Ledger, m': Ledger, work: seq<Job>, work': seq<Job>,
                      inbox: seq<Delivery>, n: nat)
    requires m.free != [] && inbox != [] && inbox[0].tests >= 0
    requires m1 == m.(free := m.free[1..], fifo := m.fifo + [Node(inbox[0], false, None)], index := m1.index)
    requires Received(m1, m', work + [Job(m.free[0], InitialTask(inbox[0]))], work', inbox[1..], n)
    ensures Received(m, m', work, work', inbox, n + 1)
  {
    assert Nodes(inbox[..n + 1]) == [Node(inbox[0], false, None)] + Nodes(inbox[1..][..n]);
    assert Jobs(m.free[..n + 1], inbox[..n + 1]) ==
           [Job(m.free[0], InitialTask(inbox[0]))] + Jobs(m1.free[..n], inbox[1..][..n]);
  }

  lemma {:induction false} ConsumeAllReceives(m: Ledger, bound: nat, prefetch: nat, inbox: seq<Delivery>, work: seq<Job>)
    requires Fits(m, bound, prefetch, inbox, work)
    ensures var r := ConsumeAll(m, bound, prefetch, inbox, work);
            Received(m, r.main, work, r.work, inbox, r.n) && Stopped(m.free, r.main.free, inbox, r.n, r.stop)
    decreases |inbox|
  {
    var r := ConsumeAll(m, bound, prefetch, inbox, work);
    if m.free != [] && inbox != [] && inbox[0].tests >= 0 {
      var m1 := AddToMap(TakeFree(m), prefetch, inbox[0]);
      var work1 := work + [Job(m.free[0], InitialTask(inbox[0]))];
      ConsumeAllReceives(m1, bound, prefetch, inbox[1..], work1);
      ReceivedFirst(m, m1, r.main, work, r.work, inbox, r.n - 1);
      StoppedFirst(m.free, r.main.free, inbox, r.n - 1, r.stop);
    }
  }

  /** The i-th job queued is the i-th message's fresh record with the i-th free runner. */
  ghost predicate QueuedFresh(free: seq<nat>, inbox: seq<Delivery>, work: seq<Job>, work': seq<Job>, n: nat)
    requires n <= |free| && n <= |inbox|
  {
    && |work'| == |work| + n && work <= work'
    && forall i :: 0 <= i < n ==> work'[|work| + i].runner == free[i] && IsFresh(inbox[i], work'[|work| + i].task)
  }

  lemma JobsAreFresh(m: Ledger, m': Ledger, work: seq<Job>, work': seq<Job>, inbox: seq<Delivery>, n: nat)
    requires Received(m, m', work, work', inbox, n)
    ensures QueuedFresh(m.free, inbox, work, work', n)
  {
    var js := Jobs(m.free[..n], inbox[..n]);
    forall i | 0 <= i < n
      ensures work'[|work| + i].runner == m.free[i] && IsFresh(inbox[i], work'[|work| + i].task)
    {
      assert work'[|work| + i] == js[i];
      InitialTaskIsFresh(inbox[i]);
    }
  }

  /** Main result on receiving: as long as the queues have room, the messages accepted are a prefix of
      those ready, filed and queued in order, each as a fresh record with the next free runner. */
  lemma ConsumeAllInOrder(m: Ledger, bound: nat, prefetch: nat, inbox: seq<Delivery>, work: seq<Job>)
    requires Fits(m, bound, prefetch, inbox, work)
    ensures var r := ConsumeAll(m, bound, prefetch, inbox, work);
            && Received(m, r.main, work, r.work, inbox, r.n) && Stopped(m.free, r.main.free, inbox, r.n, r.stop)
            && QueuedFresh(m.free, inbox, work, r.work, r.n)
  {
    ConsumeAllReceives(m, bound, prefetch, inbox, work);
    var r := ConsumeAll(m, bound, prefetch, inbox, work);
    JobsAreFresh(m, r.main, work, r.work, inbox, r.n);
  }

  lemma StoppedFirst(free: seq<nat>, free': seq<nat>, inbox: seq<Delivery>, n: nat, stop: Stop)
    requires free != [] && inbox != [] && Stopped(free[1..], free', inbox[1..], n, stop)
    ensures Stopped(free, free', inbox, n + 1, stop)
  {
    if !stop.NoRunner? {
      assert free[1..][n + 1..] == free[n + 2..];
    }
  }

  /** Tags the ledger has not seen, ascending. */
  ghost predicate Ascends(m: Ledger, inbox: seq<Delivery>) {
    && (forall i :: 0 <= i < |inbox| ==> Below(m, inbox[i].tag))
    && (forall i, k :: 0 <= i < k < |inbox| ==> inbox[i].tag < inbox[k].tag)
  }

  lemma RestAscends(m: Ledger, prefetch: nat, inbox: seq<Delivery>)
    requires inbox != [] && Ascends(m, inbox)
    ensures Ascends(AddToMap(m, prefetch, inbox[0]), inbox[1..])
  {
    forall i | 0 <= i < |inbox[1..]|
      ensures Below(AddToMap(m, prefetch, inbox[0]), inbox[1..][i].tag)
    {
      BelowAfterAdd(m, prefetch, inbox[0], inbox[i + 1].tag);
    }
  }

  /** No uuid is in flight or comes twice. */
  ghost predicate Fresh(m: Ledger, inbox: seq<Delivery>) {
    && (forall i :: 0 <= i < |inbox| ==> inbox[i].uuid !in m.index)
    && (forall i, k :: 0 <= i < k < |inbox| ==> inbox[i].uuid != inbox[k].uuid)
  }

  lemma RestFresh(m: Ledger, prefetch: nat, inbox: seq<Delivery>)
    requires inbox != [] && Fresh(m, inbox)
    ensures Fresh(AddToMap(m, prefetch, inbox[0]), inbox[1..])
  {
  }

  /** Under fresh uuids, index and FIFO stay in agreement. */
  lemma {:induction false} ConsumeAllKeepsFiled(m: Ledger, bound: nat, prefetch: nat, inbox: seq<Delivery>, work: seq<Job>)
    requires Fits(m, bound, prefetch, inbox, work) && Filed(m) && Ascends(m, inbox) && Fresh(m, inbox)
    ensures Filed(ConsumeAll(m, bound, prefetch, inbox, work).main)
    decreases |inbox|
  {
    if m.free != [] && inbox != [] && inbox[0].tests >= 0 {
      var taken := TakeFree(m);
      assert Below(taken, inbox[0].tag);
      AddKeepsFiled(taken, prefetch, inbox[0]);
      assert Ascends(taken, inbox) && Fresh(taken, inbox);
      RestAscends(taken, prefetch, inbox);
      RestFresh(taken, prefetch, inbox);
      ConsumeAllKeepsFiled(AddToMap(taken, prefetch, inbox[0]), bound, prefetch, inbox[1..],
                           work + [Job(m.free[0], InitialTask(inbox[0]))]);
    }
  }
}
