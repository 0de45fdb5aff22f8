/**
 Serving a batch of results in task mode (`send_msg`, dispatcher/dispatch_task.cpp): each result is
 parked in its node and what has become releasable is released before the next is looked at.
 */
module Serving {
  import opened Options
  import opened BlockQueues
  import opened TaskRunners
  import opened Ledgers

  function Served(m: Ledger, runners: nat, j: Job): Ledger
    requires j.task.uuid in m.index
  {
    Drain(Park(m, j), runners)
  }

  /** Why serving ended: no result was left, the exit flag was up, a task went back to the workers, or
      a lookup failed. */
  datatype Ending = Emptied | Exiting | Appended | NotFound

  datatype Sent = Sent(main: Ledger, results: seq<Job>, work: seq<Job>, ending: Ending)

  /** bound: of the queues of runners.  With the exit flag up, a result is taken and dropped. */
  function SendAll(m: Ledger, bound: nat, exiting: bool, results: seq<Job>, work: seq<Job>): Sent
    decreases |results|
  {
    if results == [] then Sent(m, [], work, Emptied)
    else
      var j := results[0];
      if exiting then Sent(m, results[1..], work, Exiting)
      else if NeedsRun(j.task) then Sent(m, results[1..], Emplaced(work, bound, j), Appended)
      else if j.task.uuid !in m.index then Sent(m, results[1..], work, NotFound)
      else SendAll(Served(m, bound, j), bound, exiting, results[1..], work)
  }

  /** Why serving ended, and what it left: the results before the one it ended at were served. */
  ghost predicate EndsAt(m: Ledger, bound: nat, exiting: bool, results: seq<Job>, work: seq<Job>, r: Sent, n: nat) {
    && n <= |results| && r.results == results[n..]
    && match r.ending
       case Emptied => n == |results| && r.work == work && (exiting ==> results == []) && NoneNeedsRun(results)
       case Exiting => exiting && n == 1 && r.main == m && r.work == work
       case Appended =>
         && !exiting && n > 0 && NeedsRun(results[n - 1].task) && NoneNeedsRun(results[..n - 1])
         && r.work == Emplaced(work, bound, results[n - 1])
       case NotFound =>
         && !exiting && n > 0 && NoneNeedsRun(results[..n]) && results[n - 1].task.uuid !in r.main.index
         && r.work == work
  }

  ghost predicate NoneNeedsRun(js: seq<Job>) {
    forall j :: j in js ==> !NeedsRun(j.task)
  }

  /** Serving up to a point where nothing stops it leaves the ledger that serving then goes on from. */
  lemma {:induction false} SendAllEnds(m: Ledger, bound: nat, exiting: bool, results: seq<Job>, work: seq<Job>) returns (n: nat)
    ensures EndsAt(m, bound, exiting, results, work, SendAll(m, bound, exiting, results, work), n)
    ensures SendAll(m, bound, exiting, results, work).ending in {Appended, NotFound} ==>
              SendAll(m, bound, exiting, results[..n - 1], work) ==
              Sent(SendAll(m, bound, exiting, results, work).main, [], work, Emptied)
    decreases |results|
  {
    if results == [] {
      n := 0;
    } else if exiting || NeedsRun(results[0].task) || results[0].task.uuid !in m.index {
      n := 1;
    } else {
      var k := SendAllEnds(Served(m, bound, results[0]), bound, exiting, results[1..], work);
      n := k + 1;
      if n > 1 {
        assert results[..n - 1][1..] == results[1..][..k - 1];
        assert results[..n] == [results[0]] + results[1..][..k];
      }
      assert results == [results[0]] + results[1..];
      assert results[1..][k..] == results[n..];
    }
  }

  /** j is settled, and its node is filed and still waits for it. */
  ghost predicate Expected(m: Ledger, j: Job) {
    && !NeedsRun(j.task) && j.task.uuid in m.index
    && forall k :: 0 <= k < |m.fifo| && m.fifo[k].envelope.uuid == j.task.uuid ==> !m.fifo[k].finished
  }

  ghost predicate AllExpected(m: Ledger, js: seq<Job>) {
    && (forall i :: 0 <= i < |js| ==> Expected(m, js[i]))
    && (forall i, k :: 0 <= i < k < |js| ==> js[i].task.uuid != js[k].task.uuid)
  }

  // ---- releasing early or late is the same ----

  lemma ExpectedNode(m: Ledger, j: Job) returns (k: nat)
    requires Filed(m) && Expected(m, j)
    ensures k < |m.fifo| && m.fifo[k].envelope.uuid == j.task.uuid && !m.fifo[k].finished
    ensures m.index[j.task.uuid] == m.fifo[k].envelope.tag
    ensures forall i :: 0 <= i < |m.fifo| && i != k ==> m.fifo[i].envelope.tag != m.fifo[k].envelope.tag
  {
    k := CarriedAt(m.fifo, j.task.uuid);
    assert NodeFiled(m.index, m.fifo[k]);
    assert TagsAscend(m.fifo);
  }

  /** Releasing the front and parking elsewhere commute. */
  lemma PublishParkCommute(m: Ledger, runners: nat, j: Job)
    requires Filed(m) && FrontReady(m) && FrontFiled(m) && Expected(m, j)
    ensures j.task.uuid in PublishFront(m, runners).index
    ensures FrontReady(Park(m, j)) && FrontFiled(Park(m, j))
    ensures PublishFront(Park(m, j), runners) == Park(PublishFront(m, runners), j)
  {
    var k := ExpectedNode(m, j);
    var a, b := PublishFront(Park(m, j), runners), Park(PublishFront(m, runners), j);
    assert Park(m, j).fifo[0] == m.fifo[0];
    forall i | 0 <= i < |a.fifo|
      ensures a.fifo[i] == b.fifo[i]
    {
    }
    assert a.fifo == b.fifo;
  }

  lemma PublishKeepsExpected(m: Ledger, runners: nat, j: Job)
    requires FrontReady(m) && FrontFiled(m) && Expected(m, j)
    ensures Expected(PublishFront(m, runners), j)
  {
  }

  lemma {:induction false} DrainKeepsExpected(m: Ledger, runners: nat, j: Job)
    requires Filed(m) && Expected(m, j)
    ensures Filed(Drain(m, runners)) && Expected(Drain(m, runners), j)
    decreases |m.fifo|
  {
    if FrontReady(m) {
      PublishKeepsFiled(m, runners);
      PublishKeepsExpected(m, runners, j);
      DrainKeepsExpected(PublishFront(m, runners), runners, j);
    }
  }

  /** Draining before a result is parked changes nothing once it is parked and drained. */
  lemma {:induction false} DrainFirst(m: Ledger, runners: nat, j: Job)
    requires Filed(m) && Expected(m, j)
    ensures j.task.uuid in Drain(m, runners).index
    ensures Drain(Park(Drain(m, runners), j), runners) == Drain(Park(m, j), runners)
    decreases |m.fifo|
  {
    if FrontReady(m) {
      PublishKeepsFiled(m, runners);
      PublishParkCommute(m, runners, j);
      PublishKeepsExpected(m, runners, j);
      DrainFirst(PublishFront(m, runners), runners, j);
    }
  }

  // ---- a whole batch ----

  /** All the results parked, and nothing released yet. */
  function ParkAll(m: Ledger, js: seq<Job>): Ledger
    decreases |js|
  {
    if js == [] || js[0].task.uuid !in m.index then m else ParkAll(Park(m, js[0]), js[1..])
  }

  lemma ParkKeepsExpected(m: Ledger, j: Job, i: Job)
    requires Filed(m) && Expected(m, j) && Expected(m, i) && i.task.uuid != j.task.uuid
    ensures Expected(Park(m, j), i)
  {
    var k := ExpectedNode(m, j);
  }

  lemma RestExpected(m: Ledger, js: seq<Job>)
    requires Filed(m) && js != [] && AllExpected(m, js)
    ensures Filed(Park(m, js[0])) && AllExpected(Park(m, js[0]), js[1..])
  {
    ParkKeepsFiled(m, js[0]);
    forall i | 0 <= i < |js[1..]|
      ensures Expected(Park(m, js[0]), js[1..][i])
    {
      ParkKeepsExpected(m, js[0], js[i + 1]);
    }
  }

  lemma DrainKeepsAllExpected(m: Ledger, runners: nat, js: seq<Job>)
    requires Filed(m) && js != [] && AllExpected(m, js)
    ensures AllExpected(Drain(m, runners), js) && Filed(Drain(m, runners))
  {
    forall i | 0 <= i < |js|
      ensures Expected(Drain(m, runners), js[i])
    {
      DrainKeepsExpected(m, runners, js[i]);
    }
    DrainKeepsExpected(m, runners, js[0]);
  }

  /** Main result on serving, first half: serving a batch of expected results one by one consumes it
      and leaves what parking them all and draining once would leave. */
  lemma {:induction false} SendAllIsParkAllThenDrain(m: Ledger, bound: nat, js: seq<Job>, work: seq<Job>)
    requires Filed(m) && !FrontReady(m) && AllExpected(m, js)
    ensures SendAll(m, bound, false, js, work) == Sent(Drain(ParkAll(m, js), bound), [], work, Emptied)
  {
    SendAllFromAnywhere(m, bound, js, work);
  }

  /** The same when the ledger is still to be drained. */
  lemma {:induction false} SendAllFromAnywhere(m: Ledger, bound: nat, js: seq<Job>, work: seq<Job>)
    requires Filed(m) && AllExpected(m, js)
    ensures SendAll(Drain(m, bound), bound, false, js, work) == Sent(Drain(ParkAll(m, js), bound), [], work, Emptied)
    decreases |js|
  {
    if js != [] {
      DrainKeepsAllExpected(m, bound, js);
      DrainFirst(m, bound, js[0]);
      RestExpected(m, js);
      SendAllFromAnywhere(Park(m, js[0]), bound, js[1..], work);
    }
  }

  /** The node at k after parking a batch: it holds the job with its uuid, if there is one. */
  lemma {:induction false} ParkAllAt(m: Ledger, js: seq<Job>, k: nat)
    requires Filed(m) && AllExpected(m, js) && k < |m.fifo|
    ensures ParkAll(m, js) == m.(fifo := ParkAll(m, js).fifo) && |ParkAll(m, js).fifo| == |m.fifo|
    ensures forall i :: 0 <= i < |js| && js[i].task.uuid == m.fifo[k].envelope.uuid ==>
              ParkAll(m, js).fifo[k] == m.fifo[k].(finished := true, task := Some(js[i]))
    ensures (forall i :: 0 <= i < |js| ==> js[i].task.uuid != m.fifo[k].envelope.uuid) ==>
              ParkAll(m, js).fifo[k] == m.fifo[k]
    decreases |js|
  {
    if js != [] {
      var hit := ExpectedNode(m, js[0]);
      RestExpected(m, js);
      assert NodeFiled(m.index, m.fifo[k]);
      assert js[0].task.uuid == m.fifo[k].envelope.uuid <==> k == hit;
      ParkAllAt(Park(m, js[0]), js[1..], k);
    }
  }

  lemma {:induction false} ParkAllRest(m: Ledger, js: seq<Job>)
    requires Filed(m) && AllExpected(m, js)
    ensures ParkAll(m, js) == m.(fifo := ParkAll(m, js).fifo) && |ParkAll(m, js).fifo| == |m.fifo|
    decreases |js|
  {
    if js != [] {
      RestExpected(m, js);
      ParkAllRest(Park(m, js[0]), js[1..]);
    }
  }

  ghost predicate SameJobs(js: seq<Job>, ks: seq<Job>) {
    forall j :: j in js <==> j in ks
  }

  lemma ParkAllSameAt(m: Ledger, js: seq<Job>, ks: seq<Job>, k: nat)
    requires Filed(m) && AllExpected(m, js) && AllExpected(m, ks) && SameJobs(js, ks) && k < |m.fifo|
    ensures |ParkAll(m, js).fifo| == |ParkAll(m, ks).fifo| == |m.fifo|
    ensures ParkAll(m, js).fifo[k] == ParkAll(m, ks).fifo[k]
  {
    ParkAllAt(m, js, k);
    ParkAllAt(m, ks, k);
    if i :| 0 <= i < |js| && js[i].task.uuid == m.fifo[k].envelope.uuid {
      assert js[i] in ks;
    } else {
      forall i | 0 <= i < |ks|
        ensures ks[i].task.uuid != m.fifo[k].envelope.uuid
      {
        assert ks[i] in js;
      }
    }
  }

  /** Main result on serving, second half: the order in which the workers deliver a batch makes no
      difference to what is published, acked, freed or left waiting. */
  lemma ServingOrderDoesNotMatter(m: Ledger, bound: nat, js: seq<Job>, ks: seq<Job>, work: seq<Job>)
    requires Filed(m) && !FrontReady(m) && AllExpected(m, js) && multiset(js) == multiset(ks)
    ensures SendAll(m, bound, false, js, work) == SendAll(m, bound, false, ks, work)
  {
    PermutedExpected(m, js, ks);
    SendAllIsParkAllThenDrain(m, bound, js, work);
    SendAllIsParkAllThenDrain(m, bound, ks, work);
    ParkAllRest(m, js);
    ParkAllRest(m, ks);
    forall k: nat | k < |m.fifo|
      ensures ParkAll(m, js).fifo[k] == ParkAll(m, ks).fifo[k]
    {
      ParkAllSameAt(m, js, ks, k);
    }
    assert ParkAll(m, js).fifo == ParkAll(m, ks).fifo;
  }

  lemma PermutedExpected(m: Ledger, js: seq<Job>, ks: seq<Job>)
    requires AllExpected(m, js) && multiset(js) == multiset(ks)
    ensures AllExpected(m, ks) && SameJobs(js, ks)
  {
    assert forall j :: j in js <==> j in multiset(js);
    assert forall j :: j in ks <==> j in multiset(ks);
    forall i | 0 <= i < |ks|
      ensures Expected(m, ks[i])
    {
      assert ks[i] in js;
    }
    forall i, k | 0 <= i < k < |ks|
      ensures ks[i].task.uuid != ks[k].task.uuid
    {
      PermutedDistinct(js, ks, i, k);
    }
  }

  lemma PermutedDistinct(js: seq<Job>, ks: seq<Job>, i: nat, k: nat)
    requires multiset(js) == multiset(ks) && i < k < |ks|
    requires forall a, b :: 0 <= a < b < |js| ==> js[a].task.uuid != js[b].task.uuid
    ensures ks[i].task.uuid != ks[k].task.uuid
  {
    assert ks[i] in multiset(js) && ks[k] in multiset(js);
    var a :| 0 <= a < |js| && js[a] == ks[i];
    OnceIn(js, a);
    if ks[k] == ks[i] {
      TwiceIn(ks, i, k);
    }
  }

  lemma OnceIn(js: seq<Job>, a: nat)
    requires a < |js| && forall i, k :: 0 <= i < k < |js| ==> js[i] != js[k]
    ensures multiset(js)[js[a]] == 1
  {
    assert js == js[..a] + [js[a]] + js[a + 1..];
  }

  lemma TwiceIn(ks: seq<Job>, i: nat, k: nat)
    requires i < k < |ks| && ks[i] == ks[k]
    ensures multiset(ks)[ks[i]] >= 2
  {
    assert ks == ks[..i] + [ks[i]] + ks[i + 1..k] + [ks[k]] + ks[k + 1..];
  }
}
