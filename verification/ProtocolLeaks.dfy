/**
 What becomes of the second result under one uuid, in any run whatever: the process exits, or the
 runner of the first result drops out of circulation for good.
 */
module ProtocolLeaks {
  import opened Options
  import opened Sums
  import opened BlockQueues
  import opened TaskRunners
  import opened Ledgers
  import opened Protocol
  import opened ProtocolInvariant
  import opened ProtocolSteps
  import opened ProtocolDuplicates

  // ---- no step makes another holder ----

  lemma PushNoMore(q: Queue<Job>, max: nat, j: Job, r: nat)
    ensures Bag(JobRunner, Push(q, max, j).items)[r] <= Bag(JobRunner, q.items)[r] + JobRunner(j)[r]
  {
    CountSnoc(JobRunner, q.items, j, r);
  }

  lemma EmplacedNoMore(rs: seq<nat>, max: nat, x: nat, r: nat)
    ensures multiset(Emplaced(rs, max, x))[r] <= multiset(rs)[r] + multiset{x}[r]
  {
  }

  /** Marking the nodes with tag t puts the job in the one node that has it, or nowhere. */
  lemma MarkedRunners(fifo: seq<Node>, t: nat, j: Job, r: nat)
    requires TagsAscend(fifo)
    ensures Bag(NodeRunner, Marked(fifo, t, j))[r] <= Bag(NodeRunner, fifo)[r] + JobRunner(j)[r]
    ensures forall k :: 0 <= k < |fifo| && fifo[k].envelope.tag == t ==>
              Bag(NodeRunner, Marked(fifo, t, j))[r] + NodeRunner(fifo[k])[r] == Bag(NodeRunner, fifo)[r] + JobRunner(j)[r]
  {
    if k: nat :| k < |fifo| && fifo[k].envelope.tag == t {
      var n' := fifo[k].(finished := true, task := Some(j));
      assert Marked(fifo, t, j) == fifo[k := n'];
      CountUpdate(NodeRunner, fifo, k, n', r);
    } else {
      assert Marked(fifo, t, j) == fifo;
    }
  }

  ghost predicate NoMore(s: State, s': State, r: nat) {
    Holders(s', r) <= Holders(s, r)
  }

  lemma NoMoreTwice(s: State, s1: State, s2: State, r: nat)
    requires NoMore(s, s1, r) && NoMore(s1, s2, r)
    ensures NoMore(s, s2, r)
  {
  }

  lemma AcceptHoldsNoMore(c: Config, s: State, d: Delivery, r: nat)
    requires s.phase.Holding?
    ensures NoMore(s, DoAccept(c, s, d), r)
  {
    PushNoMore(s.workerQ, c.runners, Job(s.phase.runner, InitialTask(d)), r);
    CountSnoc(NodeRunner, s.main.fifo, Node(d, false, None), r);
  }

  lemma NoMessageHoldsNoMore(c: Config, s: State, r: nat)
    requires s.phase.Holding?
    ensures NoMore(s, DoNoMessage(c, s), r)
  {
    EmplacedNoMore(s.main.free, c.runners, s.phase.runner, r);
  }

  lemma ParkHoldsNoMore(c: Config, s: State, r: nat)
    requires s.phase.Handling? && s.phase.job.task.uuid in s.main.index && TagsAscend(s.main.fifo)
    ensures NoMore(s, s.(main := Park(s.main, s.phase.job), phase := Draining), r)
  {
    MarkedRunners(s.main.fifo, s.main.index[s.phase.job.task.uuid], s.phase.job, r);
  }

  lemma RerunHoldsNoMore(c: Config, s: State, r: nat)
    requires s.phase.Handling? && NeedsRun(s.phase.job.task)
    ensures NoMore(s, DoHandle(c, s), r)
  {
    PushNoMore(s.workerQ, c.runners, s.phase.job, r);
  }

  lemma HandleHoldsNoMore(c: Config, s: State, r: nat)
    requires s.phase.Handling? && TagsAscend(s.main.fifo)
    ensures NoMore(s, DoHandle(c, s), r)
  {
    if NeedsRun(s.phase.job.task) {
      RerunHoldsNoMore(c, s, r);
    } else if s.phase.job.task.uuid in s.main.index {
      ParkHoldsNoMore(c, s, r);
    }
  }

  lemma PublishHoldsNoMore(c: Config, s: State, r: nat)
    requires s.phase == Draining && FrontReady(s.main)
    ensures NoMore(s, DoPublish(c, s), r)
  {
    if FrontFiled(s.main) {
      EmplacedNoMore(s.main.free, c.runners, s.main.fifo[0].task.value.runner, r);
      CountCons(NodeRunner, s.main.fifo, r);
    }
  }

  lemma FinishHoldsNoMore(c: Config, s: State, w: nat, o: Outcome, r: nat)
    requires w < |s.workers| && s.workers[w].Running?
    ensures NoMore(s, DoFinish(c, s, w, o), r)
  {
    var j := s.workers[w].job;
    PushNoMore(s.resultQ, c.runners, Job(j.runner, Judged(j.task, true, o)), r);
    CountUpdate(PcRunner, s.workers, w, DoFinish(c, s, w, o).workers[w], r);
  }

  lemma EmptyPopHoldsNoMore(s: State, w: nat, r: nat)
    requires At(s, w, Waited) && s.workerQ.items == []
    ensures NoMore(s, DoPopJob(s, w), r)
  {
    CountUpdate(PcRunner, s.workers, w, Gone, r);
  }

  lemma HoldersNeverGrow(c: Config, s: State, l: Step, r: nat)
    requires Enabled(c, s, l) && TagsAscend(s.main.fifo)
    ensures NoMore(s, Next(c, s, l), r)
  {
    if Regular(c, s, l) {
      KeptStep(c, s, l, r, "");
    } else if l.Accept? {
      AcceptHoldsNoMore(c, s, l.d, r);
    } else if l.NoMessage? {
      NoMessageHoldsNoMore(c, s, r);
    } else if l.Handle? {
      HandleHoldsNoMore(c, s, r);
    } else if l.Publish? {
      PublishHoldsNoMore(c, s, r);
    } else if l.Finish? {
      FinishHoldsNoMore(c, s, l.w, l.o, r);
    } else if l.PopJob? {
      EmptyPopHoldsNoMore(s, l.w, r);
    } else {
      NothingMoves(s, Next(c, s, l), r, "");
    }
  }

  lemma StepHoldsNoMore(c: Config, ss: seq<State>, ls: seq<Step>, k: nat, r: nat)
    requires IsRun(c, ss, ls) && ss[0] == Init(c) && k < |ls|
    ensures NoMore(ss[k], ss[k + 1], r)
  {
    KemptAlways(c, ss, ls, k);
    HoldersNeverGrow(c, ss[k], ls[k], r);
  }

  lemma {:induction false} NoMoreAlong(ss: seq<State>, i: nat, k: nat, r: nat)
    requires i <= k < |ss| && forall m :: i <= m < k ==> NoMore(ss[m], ss[m + 1], r)
    ensures NoMore(ss[i], ss[k], r)
  {
    if i < k {
      NoMoreAlong(ss, i, k - 1, r);
      NoMoreTwice(ss[i], ss[k - 1], ss[k], r);
    }
  }

  lemma HoldersOnlyFall(c: Config, ss: seq<State>, ls: seq<Step>, i: nat, k: nat, r: nat)
    requires IsRun(c, ss, ls) && ss[0] == Init(c) && i <= k < |ss|
    ensures NoMore(ss[i], ss[k], r)
  {
    forall m: nat | i <= m < k
      ensures NoMore(ss[m], ss[m + 1], r)
    {
      StepHoldsNoMore(c, ss, ls, m, r);
    }
    NoMoreAlong(ss, i, k, r);
  }

  /** In any run a runner has at most one holder, and one that has lost it never gets another. */
  lemma AtMostOneHolder(c: Config, ss: seq<State>, ls: seq<Step>, k: nat, n: nat, r: nat)
    requires IsRun(c, ss, ls) && ss[0] == Init(c) && k <= n < |ss|
    ensures Holders(ss[k], r) <= 1 && (Holders(ss[k], r) == 0 ==> Holders(ss[n], r) == 0)
  {
    InitOwnership(c);
    assert Holders(Init(c), r) == If(r < c.runners);
    HoldersOnlyFall(c, ss, ls, 0, k, r);
    HoldersOnlyFall(c, ss, ls, k, n, r);
  }

  // ---- results are settled in any run ----

  ghost predicate Settled(s: State) {
    && (forall k :: 0 <= k < |s.resultQ.items| ==> !NeedsRun(s.resultQ.items[k].task))
    && (s.phase.Handling? ==> !NeedsRun(s.phase.job.task))
  }

  lemma SettledStep(c: Config, s: State, l: Step)
    requires Enabled(c, s, l) && Settled(s)
    ensures Settled(Next(c, s, l))
  {
  }

  lemma {:induction false} SettledAlways(c: Config, ss: seq<State>, ls: seq<Step>, k: nat)
    requires IsRun(c, ss, ls) && ss[0] == Init(c) && k < |ss|
    ensures Settled(ss[k])
  {
    if k > 0 {
      SettledAlways(c, ss, ls, k - 1);
      SettledStep(c, ss[k - 1], ls[k - 1]);
    }
  }

  // ---- after the first node has been published ----

  /** Step l handles a result under uuid u, publishes a node under it, or accepts a message under it. */
  predicate Handles(s: State, l: Step, u: string) {
    l.Handle? && s.phase.Handling? && s.phase.job.task.uuid == u
  }

  predicate Publishes(s: State, l: Step, u: string) {
    l.Publish? && s.main.fifo != [] && s.main.fifo[0].envelope.uuid == u
  }

  predicate Accepts(l: Step, u: string) {
    l.Accept? && l.d.uuid == u
  }

  lemma StaysUnfiled(c: Config, s: State, l: Step, u: string)
    requires Enabled(c, s, l) && u !in s.main.index && !Accepts(l, u)
    ensures u !in Next(c, s, l).main.index
  {
  }

  ghost predicate KeepsUnfiled(s: State, s': State, u: string) {
    u !in s.main.index ==> u !in s'.main.index
  }

  lemma {:induction false} UnfiledAlong(ss: seq<State>, i: nat, k: nat, u: string)
    requires i <= k < |ss| && u !in ss[i].main.index
    requires forall m :: i <= m < k ==> KeepsUnfiled(ss[m], ss[m + 1], u)
    ensures u !in ss[k].main.index
  {
    if i < k {
      UnfiledAlong(ss, i, k - 1, u);
      assert KeepsUnfiled(ss[k - 1], ss[k - 1 + 1], u);
    }
  }

  lemma UnfiledUntilAccepted(c: Config, ss: seq<State>, ls: seq<Step>, i: nat, k: nat, u: string)
    requires IsRun(c, ss, ls) && i <= k < |ss| && u !in ss[i].main.index
    requires forall m :: i <= m < k ==> !Accepts(ls[m], u)
    ensures u !in ss[k].main.index
  {
    forall m: nat | i <= m < k
      ensures KeepsUnfiled(ss[m], ss[m + 1], u)
    {
      if u !in ss[m].main.index {
        StaysUnfiled(c, ss[m], ls[m], u);
      }
    }
    UnfiledAlong(ss, i, k, u);
  }

  /** A result handled when its uuid has been published, and not been accepted anew since, ends the process. */
  lemma ResultAfterPublicationExits(c: Config, ss: seq<State>, ls: seq<Step>, i: nat, k: nat, u: string)
    requires IsRun(c, ss, ls) && ss[0] == Init(c) && i < k < |ls|
    requires Publishes(ss[i], ls[i], u) && Handles(ss[k], ls[k], u)
    requires forall m :: i < m < k ==> !Accepts(ls[m], u)
    ensures ss[k + 1].phase == Exited
  {
    KemptAlways(c, ss, ls, i);
    PublishKeepsOrderly(ss[i].main, c.runners);
    UnfiledUntilAccepted(c, ss, ls, i + 1, k, u);
    SettledAlways(c, ss, ls, k);
  }

  // ---- before that ----

  /** The node that the index gives for u holds job j. */
  ghost predicate ParkedUnder(m: Ledger, u: string, j: Job) {
    u in m.index &&
    exists k :: 0 <= k < |m.fifo| && m.fifo[k].envelope.tag == m.index[u] && m.fifo[k].finished && m.fifo[k].task == Some(j)
  }

  ghost predicate LeadsToNode(m: Ledger, u: string) {
    u in m.index && exists k :: 0 <= k < |m.fifo| && m.fifo[k].envelope.tag == m.index[u]
  }

  lemma HandlingParks(c: Config, s: State)
    requires s.phase.Handling? && !NeedsRun(s.phase.job.task) && LeadsToNode(s.main, s.phase.job.task.uuid)
    ensures ParkedUnder(DoHandle(c, s).main, s.phase.job.task.uuid, s.phase.job)
  {
    var u, s' := s.phase.job.task.uuid, DoHandle(c, s);
    var k :| 0 <= k < |s.main.fifo| && s.main.fifo[k].envelope.tag == s.main.index[u];
    assert s'.main.fifo[k].task == Some(s.phase.job);
  }

  lemma StaysParked(c: Config, s: State, l: Step, u: string, j: Job)
    requires Enabled(c, s, l) && Kempt(s) && ParkedUnder(s.main, u, j)
    requires !Handles(s, l, u) && !Publishes(s, l, u)
    ensures ParkedUnder(Next(c, s, l).main, u, j)
  {
    var m, m' := s.main, Next(c, s, l).main;
    var k :| 0 <= k < |m.fifo| && m.fifo[k].envelope.tag == m.index[u] && m.fifo[k].finished && m.fifo[k].task == Some(j);
    assert NodeOrderly(m, m.fifo[k]);
    if l.Publish? {
      PublishStaysParked(c, s, u, j, k);
    } else if l.Handle? {
      assert m'.fifo[k] == m.fifo[k];
    } else if l.Accept? {
      assert m'.fifo[k] == m.fifo[k];
    } else {
      OthersKeepFifo(c, s, l);
    }
  }

  lemma PublishStaysParked(c: Config, s: State, u: string, j: Job, k: nat)
    requires s.phase == Draining && FrontReady(s.main) && s.main.fifo[0].envelope.uuid != u && u in s.main.index
    requires k < |s.main.fifo| && s.main.fifo[k].envelope.uuid == u && s.main.fifo[k].envelope.tag == s.main.index[u]
    requires s.main.fifo[k].finished && s.main.fifo[k].task == Some(j)
    ensures ParkedUnder(DoPublish(c, s).main, u, j)
  {
    if FrontFiled(s.main) {
      assert DoPublish(c, s).main.fifo[k - 1] == s.main.fifo[k];
    }
  }

  ghost predicate KeepsParked(s: State, s': State, u: string, j: Job) {
    ParkedUnder(s.main, u, j) ==> ParkedUnder(s'.main, u, j)
  }

  lemma {:induction false} ParkedAlong(ss: seq<State>, i: nat, k: nat, u: string, j: Job)
    requires i <= k < |ss| && ParkedUnder(ss[i].main, u, j)
    requires forall m :: i <= m < k ==> KeepsParked(ss[m], ss[m + 1], u, j)
    ensures ParkedUnder(ss[k].main, u, j)
  {
    if i < k {
      ParkedAlong(ss, i, k - 1, u, j);
      assert KeepsParked(ss[k - 1], ss[k - 1 + 1], u, j);
    }
  }

  lemma ParkedUntilHandled(c: Config, ss: seq<State>, ls: seq<Step>, i: nat, k: nat, u: string, j: Job)
    requires IsRun(c, ss, ls) && ss[0] == Init(c) && i <= k < |ss| && ParkedUnder(ss[i].main, u, j)
    requires forall m :: i <= m < k ==> !Handles(ss[m], ls[m], u) && !Publishes(ss[m], ls[m], u)
    ensures ParkedUnder(ss[k].main, u, j)
  {
    forall m: nat | i <= m < k
      ensures KeepsParked(ss[m], ss[m + 1], u, j)
    {
      KemptAlways(c, ss, ls, m);
      if ParkedUnder(ss[m].main, u, j) {
        StaysParked(c, ss[m], ls[m], u, j);
      }
    }
    ParkedAlong(ss, i, k, u, j);
  }

  /** Parking over a job takes its runner out of the count, and only its. */
  lemma OverwritingLeaks(c: Config, s: State, j: Job, r: nat)
    requires s.phase.Handling? && !NeedsRun(s.phase.job.task) && TagsAscend(s.main.fifo)
    requires ParkedUnder(s.main, s.phase.job.task.uuid, j)
    ensures Holders(DoHandle(c, s), r) == Holders(s, r) - if r == j.runner then 1 else 0
    ensures DoHandle(c, s).phase != Exited
  {
    var t := s.main.index[s.phase.job.task.uuid];
    var k :| 0 <= k < |s.main.fifo| && s.main.fifo[k].envelope.tag == t && s.main.fifo[k].task == Some(j);
    MarkedRunners(s.main.fifo, t, s.phase.job, r);
    assert NodeRunner(s.main.fifo[k])[r] == if r == j.runner then 1 else 0;
  }

  /** A result handled stays parked until the next one under its uuid or the publication. */
  lemma SecondFindsFirst(c: Config, ss: seq<State>, ls: seq<Step>, i: nat, k: nat, u: string)
    requires IsRun(c, ss, ls) && ss[0] == Init(c) && i < k < |ls|
    requires Handles(ss[i], ls[i], u) && LeadsToNode(ss[i].main, u)
    requires forall m :: i < m < k ==> !Handles(ss[m], ls[m], u) && !Publishes(ss[m], ls[m], u)
    ensures ParkedUnder(ss[k].main, u, ss[i].phase.job)
  {
    SettledAlways(c, ss, ls, i);
    HandlingParks(c, ss[i]);
    ParkedUntilHandled(c, ss, ls, i + 1, k, u, ss[i].phase.job);
  }

  lemma HandleStep(c: Config, ss: seq<State>, ls: seq<Step>, k: nat, u: string)
    requires IsRun(c, ss, ls) && k < |ls| && Handles(ss[k], ls[k], u)
    ensures ss[k + 1] == DoHandle(c, ss[k])
  {
  }

  lemma SecondReplacesFirst(c: Config, ss: seq<State>, ls: seq<Step>, i: nat, k: nat, u: string, r: nat)
    requires IsRun(c, ss, ls) && ss[0] == Init(c) && i < k < |ls|
    requires Handles(ss[i], ls[i], u) && LeadsToNode(ss[i].main, u) && Handles(ss[k], ls[k], u)
    requires forall m :: i < m < k ==> !Handles(ss[m], ls[m], u) && !Publishes(ss[m], ls[m], u)
    ensures ss[k + 1].phase != Exited
    ensures Holders(ss[k + 1], r) == Holders(ss[k], r) - if r == ss[i].phase.job.runner then 1 else 0
  {
    HandleStep(c, ss, ls, k, u);
    SecondFindsFirst(c, ss, ls, i, k, u);
    SettledAlways(c, ss, ls, k);
    KemptAlways(c, ss, ls, k);
    OverwritingLeaks(c, ss[k], ss[i].phase.job, r);
  }

  /** It takes the place of the first: no runner but that one's is touched, and that one is never
      anywhere again. */
  lemma ResultBeforePublicationLeaks(c: Config, ss: seq<State>, ls: seq<Step>, i: nat, k: nat, u: string, n: nat, r: nat)
    requires IsRun(c, ss, ls) && ss[0] == Init(c) && i < k < |ls| && k < n < |ss|
    requires Handles(ss[i], ls[i], u) && LeadsToNode(ss[i].main, u) && Handles(ss[k], ls[k], u)
    requires forall m :: i < m < k ==> !Handles(ss[m], ls[m], u) && !Publishes(ss[m], ls[m], u)
    ensures ss[k + 1].phase != Exited
    ensures Holders(ss[k + 1], r) == Holders(ss[k], r) - if r == ss[i].phase.job.runner then 1 else 0
    ensures Holders(ss[n], ss[i].phase.job.runner) == 0
  {
    var gone := ss[i].phase.job.runner;
    SecondReplacesFirst(c, ss, ls, i, k, u, r);
    SecondReplacesFirst(c, ss, ls, i, k, u, gone);
    AtMostOneHolder(c, ss, ls, k, n, gone);
    AtMostOneHolder(c, ss, ls, k + 1, n, gone);
  }

  // ---- the wrong record ----

  lemma EntryStays(c: Config, s: State, l: Step, u: string)
    requires Enabled(c, s, l) && u in s.main.index && !Publishes(s, l, u)
    ensures u in Next(c, s, l).main.index && Next(c, s, l).main.index[u] == s.main.index[u]
  {
  }

  ghost predicate KeepsEntry(s: State, s': State, u: string) {
    u in s.main.index ==> u in s'.main.index && s'.main.index[u] == s.main.index[u]
  }

  lemma {:induction false} EntryAlong(ss: seq<State>, i: nat, k: nat, u: string)
    requires i <= k < |ss| && u in ss[i].main.index
    requires forall m :: i <= m < k ==> KeepsEntry(ss[m], ss[m + 1], u)
    ensures u in ss[k].main.index && ss[k].main.index[u] == ss[i].main.index[u]
  {
    if i < k {
      EntryAlong(ss, i, k - 1, u);
      assert KeepsEntry(ss[k - 1], ss[k - 1 + 1], u);
    }
  }

  lemma EntryStaysUntilPublished(c: Config, ss: seq<State>, ls: seq<Step>, i: nat, k: nat, u: string)
    requires IsRun(c, ss, ls) && i <= k < |ss| && u in ss[i].main.index
    requires forall m :: i <= m < k ==> !Publishes(ss[m], ls[m], u)
    ensures u in ss[k].main.index && ss[k].main.index[u] == ss[i].main.index[u]
  {
    forall m: nat | i <= m < k
      ensures KeepsEntry(ss[m], ss[m + 1], u)
    {
      if u in ss[m].main.index {
        EntryStays(c, ss[m], ls[m], u);
      }
    }
    EntryAlong(ss, i, k, u);
  }

  lemma ParkedFrontIsPublished(c: Config, s: State, u: string, j: Job)
    requires Kempt(s) && Enabled(c, s, Publish) && s.main.fifo[0].envelope.uuid == u && ParkedUnder(s.main, u, j)
    ensures DoPublish(c, s).main.published == s.main.published + [j.task]
    ensures DoPublish(c, s).main.acks == s.main.acks + [s.main.index[u]]
  {
    PublishKeepsOrderly(s.main, c.runners);
    var k :| 0 <= k < |s.main.fifo| && s.main.fifo[k].envelope.tag == s.main.index[u] && s.main.fifo[k].task == Some(j);
    assert k == 0;
  }

  /** Whichever message under a uuid has its result handled last before the publication, that record is
      what is published, with the ack of the message that the index gives for the uuid. */
  lemma LastHandledIsPublished(c: Config, ss: seq<State>, ls: seq<Step>, i: nat, k: nat, u: string)
    requires IsRun(c, ss, ls) && ss[0] == Init(c) && i < k < |ls|
    requires Handles(ss[i], ls[i], u) && LeadsToNode(ss[i].main, u) && Publishes(ss[k], ls[k], u)
    requires forall m :: i < m < k ==> !Handles(ss[m], ls[m], u) && !Publishes(ss[m], ls[m], u)
    ensures ss[k + 1].main.published == ss[k].main.published + [ss[i].phase.job.task]
    ensures ss[k + 1].main.acks == ss[k].main.acks + [ss[i].main.index[u]]
  {
    SecondFindsFirst(c, ss, ls, i, k, u);
    EntryStaysUntilPublished(c, ss, ls, i, k, u);
    KemptAlways(c, ss, ls, k);
    ParkedFrontIsPublished(c, ss[k], u, ss[i].phase.job);
  }
}
