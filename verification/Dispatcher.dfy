/**
 The main thread's bookkeeping as objects: ack nodes that the FIFO and the uuid map share, so that
 marking a node through the map shows in the FIFO.  A runner is its number and the record it carries.
 */
module Dispatchers {
  import opened Options
  import opened BlockQueues
  import opened TaskRunners
  import opened Ledgers
  import opened Serving
  import opened Receiving

  class AckStruct {
    const envelope: Delivery
    var finished: bool
    var task: Option<Job>

    constructor (envelope: Delivery)
      ensures this.envelope == envelope && !finished && task == None
    {
      this.envelope := envelope;
      finished, task := false, None;
    }
  }

  class Dispatcher {
    const freeQueue: BlockQueue<nat>
    const envelopeQueue: BlockQueue<AckStruct>
    var envelopeMap: map<string, AckStruct>
    var published: seq<Task>
    var acks: seq<nat>
    ghost var kept: Ledger

    /** The ledger describes the objects. */
    ghost predicate Valid()
      reads this, freeQueue, envelopeQueue, envelopeQueue.items
    {
      Tied() && Orderly(kept)
    }

    ghost predicate Tied()
      reads this, freeQueue, envelopeQueue, envelopeQueue.items
    {
      && (freeQueue as object) != (envelopeQueue as object) && freeQueue.Quiet() && envelopeQueue.Quiet()
      && Describes(kept.fifo, envelopeQueue.items)
      && kept.free == freeQueue.items && kept.published == published && kept.acks == acks
      && kept.index.Keys == envelopeMap.Keys
      && (forall u :: u in envelopeMap ==> kept.index[u] == envelopeMap[u].envelope.tag)
      && SharesNodes(envelopeMap, envelopeQueue.items)
    }

    static ghost predicate Describes(fifo: seq<Node>, items: seq<AckStruct>)
      reads items
    {
      |fifo| == |items| &&
      forall k :: 0 <= k < |fifo| ==> fifo[k] == Node(items[k].envelope, items[k].finished, items[k].task)
    }

    /** A node of the map that carries the tag of a node in the FIFO is that node. */
    static ghost predicate SharesNodes(m: map<string, AckStruct>, items: seq<AckStruct>) {
      forall u, k :: u in m && 0 <= k < |items| && items[k].envelope.tag == m[u].envelope.tag ==> items[k] == m[u]
    }

    /** All runners are free. */
    constructor (threads: nat, prefetch: nat)
      requires threads > 0 && prefetch > 0
      ensures Valid() && fresh(freeQueue) && fresh(envelopeQueue)
      ensures freeQueue.maxSize == threads * prefetch && envelopeQueue.maxSize == prefetch
      ensures kept == Ledger(AllRunners(threads * prefetch), [], map[], [], [])
    {
      freeQueue := new BlockQueue(threads * prefetch);
      envelopeQueue := new BlockQueue(prefetch);
      envelopeMap, published, acks := map[], [], [];
      kept := Ledger([], [], map[], [], []);
      new;
      for runner := 0 to threads * prefetch
        invariant fresh(freeQueue) && fresh(envelopeQueue) && Valid()
        invariant kept == Ledger(AllRunners(runner), [], map[], [], [])
      {
        var ok := freeQueue.Emplace(runner);
        kept := kept.(free := AllRunners(runner + 1));
        assert AllRunners(runner + 1) == AllRunners(runner) + [runner];
      }
    }

    /** Files a message whose tag is new. */
    method AddToMap(d: Delivery)
      requires Valid() && Below(kept, d.tag)
      modifies this`envelopeMap, this`kept, envelopeQueue
      ensures Valid()
      ensures kept == Ledgers.AddToMap(old(kept), envelopeQueue.maxSize, d)
    {
      AddKeepsOrderly(kept, envelopeQueue.maxSize, d);
      AppendNode(d);
    }

    method AppendNode(d: Delivery)
      requires Tied() && Below(kept, d.tag)
      modifies this`envelopeMap, this`kept, envelopeQueue
      ensures Tied()
      ensures kept == Ledgers.AddToMap(old(kept), envelopeQueue.maxSize, d)
    {
      var node := new AckStruct(d);
      var ok := envelopeQueue.Emplace(node);
      envelopeMap := if d.uuid in envelopeMap then envelopeMap else envelopeMap[d.uuid := node];
      kept := Ledgers.AddToMap(kept, envelopeQueue.maxSize, d);
    }

    /** Publishes a result and acks its message together with every earlier one. */
    method PublishMsg(res: Task, envelope: Delivery)
      modifies this`published, this`acks
      ensures published == old(published) + [res] && acks == old(acks) + [envelope.tag]
    {
      published := published + [res];
      acks := acks + [envelope.tag];
    }

    /** Releases the front node, which is ready. */
    method ReleaseFront(front: AckStruct)
      requires Valid() && envelopeQueue.items != [] && envelopeQueue.items[0] == front && front.finished
      modifies this`published, this`acks, this`envelopeMap, this`kept, envelopeQueue, freeQueue
      ensures Valid() && FrontReady(old(kept)) && FrontFiled(old(kept))
      ensures kept == PublishFront(old(kept), freeQueue.maxSize)
      ensures envelopeQueue.items == old(envelopeQueue.items[1..])
      ensures envelopeMap.Values <= old(envelopeMap.Values)
    {
      PublishKeepsOrderly(kept, freeQueue.maxSize);
      DropFront(front);
    }

    method DropFront(front: AckStruct)
      requires Tied() && envelopeQueue.items != [] && envelopeQueue.items[0] == front && FrontFiled(kept)
      requires kept.index[front.envelope.uuid] == front.envelope.tag
      modifies this`published, this`acks, this`envelopeMap, this`kept, envelopeQueue, freeQueue
      ensures Tied() && kept == PublishFront(old(kept), freeQueue.maxSize)
      ensures envelopeQueue.items == old(envelopeQueue.items[1..])
      ensures envelopeMap.Values <= old(envelopeMap.Values)
    {
      var entry := envelopeMap[front.envelope.uuid];
      PublishMsg(front.task.value.task, entry.envelope);
      envelopeMap := envelopeMap - {front.envelope.uuid};
      var gone := envelopeQueue.FrontAndPop();
      if front.task.Some? {
        var ok := freeQueue.Emplace(front.task.value.runner);
      }
      kept := PublishFront(kept, freeQueue.maxSize);
    }

    /** Publish from the front for as long as the front is ready. */
    method TrySendResult()
      requires Valid()
      modifies this`published, this`acks, this`envelopeMap, this`kept, envelopeQueue, freeQueue
      ensures Valid() && kept == Drain(old(kept), freeQueue.maxSize)
      ensures envelopeMap.Values <= old(envelopeMap.Values)
    {
      var front := envelopeQueue.Front();
      while front.Some? && front.value.finished
        invariant Valid()
        invariant front == if envelopeQueue.items == [] then None else Some(envelopeQueue.items[0])
        invariant Drain(kept, freeQueue.maxSize) == Drain(old(kept), freeQueue.maxSize)
        invariant envelopeMap.Values <= old(envelopeMap.Values)
        decreases |envelopeQueue.items|
      {
        ReleaseFront(front.value);
        front := envelopeQueue.Front();
      }
    }

    /** Marks the node the map leads to. */
    method ParkTask(j: Job)
      requires Valid() && j.task.uuid in envelopeMap
      modifies this`kept, envelopeMap[j.task.uuid]
      ensures Valid() && kept == Park(old(kept), j)
    {
      ParkKeepsOrderly(kept, j);
      MarkNode(envelopeMap[j.task.uuid], j);
    }

    method MarkNode(node: AckStruct, j: Job)
      requires Tied() && j.task.uuid in envelopeMap && envelopeMap[j.task.uuid] == node
      modifies this`kept, node
      ensures Tied() && kept == Park(old(kept), j)
    {
      node.finished := true;
      node.task := Some(j);
      kept := Park(kept, j);
    }

    /** Parks a settled result in its node and sends what has become sendable; false stands for the
        program's exit when the uuid is not filed. */
    method HandleTask(j: Job) returns (ok: bool)
      requires Valid()
      modifies this`published, this`acks, this`envelopeMap, this`kept, envelopeQueue, freeQueue, envelopeMap.Values
      ensures ok == (j.task.uuid in old(kept).index)
      ensures Valid()
      ensures kept == if ok then Served(old(kept), freeQueue.maxSize, j) else old(kept)
      ensures envelopeMap.Values <= old(envelopeMap.Values)
    {
      if j.task.uuid !in envelopeMap {
        return false;
      }
      ParkTask(j);
      TrySendResult();
      return true;
    }

    ghost predicate Apart(q: BlockQueue<Job>) {
      (q as object) != (freeQueue as object) && (q as object) != (envelopeQueue as object)
    }

    /** Serves one queued result; None means go on. */
    method SendOne(exiting: bool, resultQueue: BlockQueue<Job>, workerQueue: BlockQueue<Job>) returns (ending: Option<Ending>)
      requires Valid() && resultQueue.Quiet() && workerQueue.Quiet() && resultQueue != workerQueue
      requires Apart(resultQueue) && Apart(workerQueue) && workerQueue.maxSize == freeQueue.maxSize
      modifies this`published, this`acks, this`envelopeMap, this`kept, envelopeQueue, freeQueue, envelopeMap.Values
      modifies resultQueue, workerQueue
      ensures Valid() && resultQueue.Quiet() && workerQueue.Quiet()
      ensures envelopeMap.Values <= old(envelopeMap.Values)
      ensures SentOne(old(kept), kept, freeQueue.maxSize, exiting, old(resultQueue.items), resultQueue.items,
                      old(workerQueue.items), workerQueue.items, ending)
    {
      var task := resultQueue.TryFrontAndPop();
      if task == None {
        return Some(Emptied);
      }
      if exiting {
        return Some(Exiting);
      }
      if NeedsRun(task.value.task) {
        var appended := workerQueue.Emplace(task.value);
        return Some(Appended);
      }
      var filed := HandleTask(task.value);
      return if filed then None else Some(NotFound);
    }

    /** Serves queued results until none is left, the exit flag is up, one has to go back to the workers,
        or one is not filed. */
    method SendMsg(exiting: bool, resultQueue: BlockQueue<Job>, workerQueue: BlockQueue<Job>) returns (ending: Ending)
      requires Valid() && resultQueue.Quiet() && workerQueue.Quiet() && resultQueue != workerQueue
      requires Apart(resultQueue) && Apart(workerQueue) && workerQueue.maxSize == freeQueue.maxSize
      modifies this`published, this`acks, this`envelopeMap, this`kept, envelopeQueue, freeQueue, envelopeMap.Values
      modifies resultQueue, workerQueue
      ensures Valid() && resultQueue.Quiet() && workerQueue.Quiet()
      ensures Sent(kept, resultQueue.items, workerQueue.items, ending) ==
              SendAll(old(kept), freeQueue.maxSize, exiting, old(resultQueue.items), old(workerQueue.items))
    {
      while true
        invariant Valid() && resultQueue.Quiet() && workerQueue.Quiet()
        invariant envelopeMap.Values <= old(envelopeMap.Values)
        invariant SendAll(kept, freeQueue.maxSize, exiting, resultQueue.items, workerQueue.items) ==
                  SendAll(old(kept), freeQueue.maxSize, exiting, old(resultQueue.items), old(workerQueue.items))
        decreases |resultQueue.items|
      {
        ghost var k, rs, work := kept, resultQueue.items, workerQueue.items;
        var e := SendOne(exiting, resultQueue, workerQueue);
        AfterSendOne(k, kept, freeQueue.maxSize, exiting, rs, resultQueue.items, work, workerQueue.items, e);
        if e.Some? {
          return e.value;
        }
      }
    }

    /** A free runner, off the free queue. */
    method TakeRunner() returns (r: Option<nat>)
      requires Valid()
      modifies this`kept, freeQueue
      ensures Valid()
      ensures r == if old(kept).free == [] then None else Some(old(kept).free[0])
      ensures kept == if r == None then old(kept) else Ledgers.TakeFree(old(kept))
    {
      r := freeQueue.TryFrontAndPop();
      if r.Some? {
        kept := Ledgers.TakeFree(kept);
      }
    }

    method GiveBack(r: nat)
      requires Valid()
      modifies this`kept, freeQueue
      ensures Valid() && kept == ReturnFree(old(kept), freeQueue.maxSize, r)
    {
      var ok := freeQueue.Emplace(r);
      kept := ReturnFree(kept, freeQueue.maxSize, r);
    }

    /** One turn of the receive loop; None means go on. */
    method ConsumeOne(inbox: seq<Delivery>, workerQueue: BlockQueue<Job>) returns (stop: Option<Stop>)
      requires Valid() && workerQueue.Quiet() && Apart(workerQueue) && workerQueue.maxSize == freeQueue.maxSize
      requires Ascends(kept, inbox)
      modifies this`envelopeMap, this`kept, envelopeQueue, freeQueue, workerQueue
      ensures Valid() && workerQueue.Quiet()
      ensures stop == None ==> inbox != [] && Ascends(kept, inbox[1..])
      ensures Turned(old(kept), kept, freeQueue.maxSize, envelopeQueue.maxSize,
                     old(workerQueue.items), workerQueue.items, inbox, stop)
    {
      var runner := TakeRunner();
      if runner == None {
        return Some(NoRunner);
      }
      if inbox == [] {
        GiveBack(runner.value);
        return Some(NoMessage);
      }
      if inbox[0].tests < 0 {
        return Some(BadTestCount);
      }
      RestAscends(kept, envelopeQueue.maxSize, inbox);
      assert Below(kept, inbox[0].tag);
      AddToMap(inbox[0]);
      var ok := workerQueue.Emplace(Job(runner.value, InitialTask(inbox[0])));
      return None;
    }

    /** Accepts messages until there is no free runner, no message, or a negative test count.  The
        broker's tags ascend; nothing else is asked of what it delivers. */
    method ConsumeMsg(inbox: seq<Delivery>, workerQueue: BlockQueue<Job>) returns (n: nat, stop: Stop)
      requires Valid() && workerQueue.Quiet() && Apart(workerQueue) && workerQueue.maxSize == freeQueue.maxSize
      requires Ascends(kept, inbox)
      modifies this`envelopeMap, this`kept, envelopeQueue, freeQueue, workerQueue
      ensures Valid() && workerQueue.Quiet()
      ensures Consumed(kept, workerQueue.items, n, stop) ==
              ConsumeAll(old(kept), freeQueue.maxSize, envelopeQueue.maxSize, inbox, old(workerQueue.items))
    {
      n := 0;
      var rest := inbox;
      while true
        invariant Valid() && workerQueue.Quiet() && Ascends(kept, rest)
        invariant Resumes(ConsumeAll(old(kept), freeQueue.maxSize, envelopeQueue.maxSize, inbox, old(workerQueue.items)), n,
                          ConsumeAll(kept, freeQueue.maxSize, envelopeQueue.maxSize, rest, workerQueue.items))
        decreases |rest|
      {
        ghost var k, q := kept, workerQueue.items;
        var s := ConsumeOne(rest, workerQueue);
        AfterTurn(k, kept, freeQueue.maxSize, envelopeQueue.maxSize, q, workerQueue.items, rest, s);
        if s.Some? {
          return n, s.value;
        }
        n, rest := n + 1, rest[1..];
      }
    }
  }

  /** What serving one result does. */
  ghost predicate SentOne(k: Ledger, k': Ledger, bound: nat, exiting: bool, rs: seq<Job>, rs': seq<Job>,
                          work: seq<Job>, work': seq<Job>, ending: Option<Ending>) {
    match ending
    case Some(Emptied) => rs == [] && rs' == [] && k' == k && work' == work
    case Some(Exiting) => rs != [] && exiting && rs' == rs[1..] && k' == k && work' == work
    case Some(Appended) =>
      && rs != [] && !exiting && NeedsRun(rs[0].task)
      && rs' == rs[1..] && k' == k && work' == Emplaced(work, bound, rs[0])
    case Some(NotFound) =>
      && rs != [] && !exiting && !NeedsRun(rs[0].task) && rs[0].task.uuid !in k.index
      && rs' == rs[1..] && k' == k && work' == work
    case None =>
      && rs != [] && !exiting && !NeedsRun(rs[0].task) && rs[0].task.uuid in k.index
      && rs' == rs[1..] && k' == Served(k, bound, rs[0]) && work' == work
  }

  lemma AfterSendOne(k: Ledger, k': Ledger, bound: nat, exiting: bool, rs: seq<Job>, rs': seq<Job>,
                     work: seq<Job>, work': seq<Job>, ending: Option<Ending>)
    requires SentOne(k, k', bound, exiting, rs, rs', work, work', ending)
    ensures SendAll(k, bound, exiting, rs, work) ==
            if ending == None then SendAll(k', bound, exiting, rs', work') else Sent(k', rs', work', ending.value)
    ensures ending == None ==> |rs'| < |rs|
  {
  }

  /** What one turn of the receive loop does. */
  ghost predicate Turned(k: Ledger, k': Ledger, bound: nat, prefetch: nat, q: seq<Job>, q': seq<Job>,
                         inbox: seq<Delivery>, stop: Option<Stop>) {
    match stop
    case None =>
      && k.free != [] && inbox != [] && inbox[0].tests >= 0
      && k' == Ledgers.AddToMap(TakeFree(k), prefetch, inbox[0])
      && q' == Emplaced(q, bound, Job(k.free[0], InitialTask(inbox[0])))
    case Some(NoRunner) => k.free == [] && k' == k && q' == q
    case Some(NoMessage) =>
      k.free != [] && inbox == [] && k' == ReturnFree(TakeFree(k), bound, k.free[0]) && q' == q
    case Some(BadTestCount) => k.free != [] && inbox != [] && inbox[0].tests < 0 && k' == TakeFree(k) && q' == q
  }

  /** After n messages, what is left to do ends where the whole does. */
  ghost predicate Resumes(whole: Consumed, n: nat, rest: Consumed) {
    whole == rest.(n := n + rest.n)
  }

  lemma AfterTurn(k: Ledger, k': Ledger, bound: nat, prefetch: nat, q: seq<Job>, q': seq<Job>,
                  inbox: seq<Delivery>, stop: Option<Stop>)
    requires Turned(k, k', bound, prefetch, q, q', inbox, stop)
    ensures var r := ConsumeAll(k, bound, prefetch, inbox, q);
            if stop == None then Resumes(r, 1, ConsumeAll(k', bound, prefetch, inbox[1..], q'))
            else r == Consumed(k', q', 0, stop.value)
  {
  }
}
