/** Every courteous step keeps every part of the dispatcher's invariant. */
module ProtocolSteps {
  import opened Options
  import opened Sums
  import opened TaskRunners
  import opened Ledgers
  import opened Protocol
  import opened ProtocolInvariant

  predicate ByWorker(l: Step) {
    l.WaitJob? || l.PopJob? || l.Finish? || l.PostResult? || l.Notify?
  }

  /** The step finds room, finds something to pop, and finds what it looks up. */
  ghost predicate Regular(c: Config, s: State, l: Step)
    requires Enabled(c, s, l)
  {
    match l
    case NoMessage => |s.main.free| < c.runners
    case Accept(d) => |s.main.fifo| < c.prefetch && |s.workerQ.items| < c.runners && d.uuid !in s.main.index
    case TakeResult => s.resultQ.items != []
    case Handle => !NeedsRun(s.phase.job.task) && exists k :: Belongs(s.main, s.phase.job, k)
    case PostRerun => false
    case Publish => FrontFiled(s.main) && |s.main.free| < c.runners
    case PopJob(_) => s.workerQ.items != []
    case Finish(_, _) => |s.resultQ.items| < c.runners
    case _ => true
  }

  /** Node k is the one unfinished node that the result in hand belongs to. */
  ghost predicate Belongs(m: Ledger, j: Job, k: nat) {
    && j.task.uuid in m.index
    && k < |m.fifo| && m.fifo[k].envelope.uuid == j.task.uuid
    && !m.fifo[k].finished && m.fifo[k].task == None
    && Park(m, j).fifo == m.fifo[k := m.fifo[k].(finished := true, task := Some(j))]
  }

  // ---- why steps are regular ----

  ghost function FifoTags(ns: seq<Node>): set<nat> {
    if ns == [] then {} else FifoTags(ns[..|ns| - 1]) + {ns[|ns| - 1].envelope.tag}
  }

  lemma {:induction false} FifoTagsHas(ns: seq<Node>, t: nat)
    ensures t in FifoTags(ns) <==> exists k :: 0 <= k < |ns| && ns[k].envelope.tag == t
  {
    if ns != [] {
      var front := ns[..|ns| - 1];
      FifoTagsHas(front, t);
      assert forall k :: 0 <= k < |front| ==> front[k] == ns[k];
      assert t == ns[|ns| - 1].envelope.tag ==> exists k :: 0 <= k < |ns| && ns[k].envelope.tag == t;
    }
  }

  lemma {:induction false} FifoTagsSize(ns: seq<Node>)
    requires TagsAscend(ns)
    ensures |FifoTags(ns)| == |ns|
  {
    if ns != [] {
      FifoTagsSize(ns[..|ns| - 1]);
      FifoTagsHas(ns[..|ns| - 1], ns[|ns| - 1].envelope.tag);
    }
  }

  lemma FifoTagIsOutstanding(s: State, k: nat)
    requires Chronicle(s) && k < |s.main.fifo|
    ensures s.main.fifo[k].envelope.tag in Outstanding(s)
  {
  }

  lemma SubsetSize(a: set<nat>, b: set<nat>)
    requires a <= b
    ensures |a| <= |b|
  {
    assert b == a + (b - a);
  }

  /** The FIFO fits in the broker's window. */
  lemma FifoFitsWindow(s: State)
    requires Chronicle(s) && TagsAscend(s.main.fifo)
    ensures |s.main.fifo| <= |Outstanding(s)|
  {
    FifoTagsSize(s.main.fifo);
    forall t | t in FifoTags(s.main.fifo)
      ensures t in Outstanding(s)
    {
      FifoTagsHas(s.main.fifo, t);
      var k :| 0 <= k < |s.main.fifo| && s.main.fifo[k].envelope.tag == t;
      FifoTagIsOutstanding(s, k);
    }
    SubsetSize(FifoTags(s.main.fifo), Outstanding(s));
  }

  lemma HandledNode(s: State) returns (k: nat)
    requires s.phase.Handling? && Matched(s) && Filed(s.main)
    ensures Belongs(s.main, s.phase.job, k)
  {
    var j := s.phase.job;
    assert PhaseUuid(s.phase)[j.task.uuid] == 1;
    InFlightIsFiled(s, j.task.uuid);
    var o :| 0 <= o < |s.main.fifo| && s.main.fifo[o].envelope.uuid == j.task.uuid && !s.main.fifo[o].finished;
    k := ParkHitsOneNode(s.main, j);
    if k != o {
      FiledUuidsAreDistinct(s.main, k, o);
    }
    assert NodeFiled(s.main.index, s.main.fifo[k]);
  }

  lemma HandledIsSettled(s: State)
    requires s.phase.Handling? && Matched(s) && Filed(s.main) && Fit(s)
    ensures !NeedsRun(s.phase.job.task)
  {
    var k := HandledNode(s);
    assert IsGiven(s.given, s.main.fifo[k].envelope, s.phase.job.task);
    TaskModeSettlesInOnePass(s.main.fifo[k].envelope, s.phase.job.task);
  }

  /** At a waited-for queue there is something to pop. */
  lemma PopsFindSomething(s: State)
    requires Counted(s)
    ensures s.phase == Taking ==> s.resultQ.items != []
    ensures forall w :: 0 <= w < |s.workers| && s.workers[w] == Waited ==> s.workerQ.items != []
  {
    forall w | 0 <= w < |s.workers| && s.workers[w] == Waited
      ensures s.workerQ.items != []
    {
      TotalHas(OwesPopJob, s.workers, w);
    }
  }

  lemma RoomToPush(c: Config, s: State, l: Step)
    requires Conserved(c, s) && Enabled(c, s, l)
    ensures l.NoMessage? ==> |s.main.free| < c.runners
    ensures l.Publish? && s.main.fifo[0].task.Some? ==> |s.main.free| < c.runners
    ensures l.Accept? ==> |s.workerQ.items| < c.runners
    ensures l.Finish? ==> |s.resultQ.items| < c.runners
  {
    Census(c, s);
    if l.Finish? {
      TotalHas(IsBusy, s.workers, l.w);
    } else if l.Publish? {
      TotalHas(HoldsJob, s.main.fifo, 0);
    }
  }

  lemma CourteousStepsAreRegular(c: Config, s: State, l: Step)
    requires Inv(c, s) && Enabled(c, s, l) && Courteous(c, s, l)
    ensures Regular(c, s, l)
  {
    match l
    case NoMessage => RoomToPush(c, s, l);
    case Accept(_) =>
      RoomToPush(c, s, l);
      FifoFitsWindow(s);
    case TakeResult => PopsFindSomething(s);
    case Handle =>
      HandledIsSettled(s);
      var k := HandledNode(s);
    case Publish =>
      assert NodeFiled(s.main.index, s.main.fifo[0]);
      RoomToPush(c, s, l);
    case PopJob(_) => PopsFindSomething(s);
    case Finish(_, _) => RoomToPush(c, s, l);
    case _ =>
  }

  // ---- runners and uuids, move by move ----

  /** Between s and s', runner r changes place at most, and uuid u enters and leaves both counts together. */
  ghost predicate Kept(s: State, s': State, r: nat, u: string) {
    Holders(s', r) == Holders(s, r) && InFlight(s', u) - Awaited(s', u) == InFlight(s, u) - Awaited(s, u)
  }

  lemma AcceptMovesRunner(c: Config, s: State, d: Delivery, r: nat)
    requires s.phase.Holding? && |s.main.fifo| < c.prefetch && |s.workerQ.items| < c.runners
    ensures Holders(DoAccept(c, s, d), r) == Holders(s, r)
  {
    CountSnoc(JobRunner, s.workerQ.items, Job(s.phase.runner, InitialTask(d)), r);
    CountSnoc(NodeRunner, s.main.fifo, Node(d, false, None), r);
  }

  lemma AcceptMovesUuid(c: Config, s: State, d: Delivery, u: string)
    requires s.phase.Holding? && |s.main.fifo| < c.prefetch && |s.workerQ.items| < c.runners
    ensures InFlight(DoAccept(c, s, d), u) - Awaited(DoAccept(c, s, d), u) == InFlight(s, u) - Awaited(s, u)
  {
    CountSnoc(JobUuid, s.workerQ.items, Job(s.phase.runner, InitialTask(d)), u);
    CountSnoc(NodeOpen, s.main.fifo, Node(d, false, None), u);
  }

  lemma AcceptMoves(c: Config, s: State, d: Delivery, r: nat, u: string)
    requires s.phase.Holding? && |s.main.fifo| < c.prefetch && |s.workerQ.items| < c.runners
    ensures Kept(s, DoAccept(c, s, d), r, u)
  {
    AcceptMovesRunner(c, s, d, r);
    AcceptMovesUuid(c, s, d, u);
  }

  lemma CountFirst(rs: seq<nat>, r: nat)
    requires rs != []
    ensures multiset(rs)[r] == multiset{rs[0]}[r] + multiset(rs[1..])[r]
  {
    assert rs == [rs[0]] + rs[1..];
  }

  lemma TakeRunnerMoves(s: State, r: nat, u: string)
    requires s.phase == Consuming
    ensures Kept(s, DoTakeRunner(s), r, u)
  {
    var s' := DoTakeRunner(s);
    if s.main.free == [] {
      NothingMoves(s, s', r, u);
    } else {
      CountFirst(s.main.free, r);
      assert PhaseRunner(s.phase) == multiset{} && PhaseRunner(s'.phase) == multiset{s.main.free[0]};
      assert multiset(s.main.free)[r] == PhaseRunner(s'.phase)[r] + multiset(s'.main.free)[r];
    }
  }

  lemma TakeResultMoves(s: State, r: nat, u: string)
    requires s.phase == Taking && s.resultQ.items != []
    ensures Kept(s, DoTakeResult(s), r, u)
  {
    CountCons(JobRunner, s.resultQ.items, r);
    CountCons(JobUuid, s.resultQ.items, u);
  }

  lemma HandleMoves(c: Config, s: State, k: nat, r: nat, u: string)
    requires s.phase.Handling? && !NeedsRun(s.phase.job.task) && Belongs(s.main, s.phase.job, k)
    ensures Kept(s, DoHandle(c, s), r, u)
  {
    var n' := s.main.fifo[k].(finished := true, task := Some(s.phase.job));
    CountUpdate(NodeRunner, s.main.fifo, k, n', r);
    CountUpdate(NodeOpen, s.main.fifo, k, n', u);
  }

  lemma PublishMoves(c: Config, s: State, r: nat, u: string)
    requires s.phase == Draining && FrontReady(s.main) && FrontFiled(s.main) && |s.main.free| < c.runners
    ensures Kept(s, DoPublish(c, s), r, u)
  {
    CountCons(NodeRunner, s.main.fifo, r);
    CountCons(NodeOpen, s.main.fifo, u);
  }

  lemma PopJobMoves(s: State, w: nat, r: nat, u: string)
    requires At(s, w, Waited) && s.workerQ.items != []
    ensures Kept(s, DoPopJob(s, w), r, u)
  {
    CountUpdate(PcRunner, s.workers, w, Running(s.workerQ.items[0]), r);
    CountUpdate(PcUuid, s.workers, w, Running(s.workerQ.items[0]), u);
    CountCons(JobRunner, s.workerQ.items, r);
    CountCons(JobUuid, s.workerQ.items, u);
  }

  lemma FinishMoves(c: Config, s: State, w: nat, o: Outcome, r: nat, u: string)
    requires w < |s.workers| && s.workers[w].Running? && |s.resultQ.items| < c.runners
    ensures Kept(s, DoFinish(c, s, w, o), r, u)
  {
    var j := s.workers[w].job;
    var j' := Job(j.runner, Judged(j.task, true, o));
    assert JobUuid(j') == JobUuid(j);
    CountUpdate(PcRunner, s.workers, w, Pushed, r);
    CountUpdate(PcUuid, s.workers, w, Pushed, u);
    CountSnoc(JobRunner, s.resultQ.items, j', r);
    CountSnoc(JobUuid, s.resultQ.items, j', u);
  }

  lemma WorkerMarks(s: State, s': State, w: nat, pc: Pc, r: nat, u: string)
    requires w < |s.workers| && !s.workers[w].Running? && !pc.Running? && s'.workers == s.workers[w := pc]
    requires SameElsewhere(s, s')
    ensures Kept(s, s', r, u)
  {
    CountUpdate(PcRunner, s.workers, w, pc, r);
    CountUpdate(PcUuid, s.workers, w, pc, u);
  }

  ghost predicate SameElsewhere(s: State, s': State) {
    && s'.main == s.main && s'.workerQ.items == s.workerQ.items && s'.resultQ.items == s.resultQ.items
    && PhaseRunner(s'.phase) == PhaseRunner(s.phase) && PhaseUuid(s'.phase) == PhaseUuid(s.phase)
    && s'.lost == s.lost
  }

  lemma NothingMoves(s: State, s': State, r: nat, u: string)
    requires SameElsewhere(s, s') && s'.workers == s.workers
    ensures Kept(s, s', r, u)
  {
  }

  lemma NoMessageMoves(c: Config, s: State, r: nat, u: string)
    requires s.phase.Holding? && |s.main.free| < c.runners
    ensures Kept(s, DoNoMessage(c, s), r, u)
  {
  }

  lemma RejectMoves(s: State, d: Delivery, r: nat, u: string)
    requires s.phase.Holding?
    ensures Kept(s, DoReject(s, d), r, u)
  {
  }

  lemma KeptByWorker(c: Config, s: State, l: Step, r: nat, u: string)
    requires Enabled(c, s, l) && Regular(c, s, l) && ByWorker(l)
    ensures Kept(s, Next(c, s, l), r, u)
  {
    match l
    case WaitJob(w) => WorkerMarks(s, Next(c, s, l), w, Waited, r, u);
    case PopJob(w) => PopJobMoves(s, w, r, u);
    case Finish(w, o) => FinishMoves(c, s, w, o, r, u);
    case PostResult(w) => WorkerMarks(s, Next(c, s, l), w, Posted, r, u);
    case Notify(w) => WorkerMarks(s, Next(c, s, l), w, Idle, r, u);
  }

  lemma KeptStep(c: Config, s: State, l: Step, r: nat, u: string)
    requires Enabled(c, s, l) && Regular(c, s, l)
    ensures Kept(s, Next(c, s, l), r, u)
  {
    var s' := Next(c, s, l);
    if ByWorker(l) {
      KeptByWorker(c, s, l, r, u);
    } else if l.Accept? {
      AcceptMoves(c, s, l.d, r, u);
    } else if l.TakeRunner? {
      TakeRunnerMoves(s, r, u);
    } else if l.NoMessage? {
      NoMessageMoves(c, s, r, u);
    } else if l.Reject? {
      RejectMoves(s, l.d, r, u);
    } else if l.TakeResult? {
      TakeResultMoves(s, r, u);
    } else if l.Handle? {
      var k :| Belongs(s.main, s.phase.job, k);
      HandleMoves(c, s, k, r, u);
    } else if l.Publish? {
      PublishMoves(c, s, r, u);
    } else {
      NothingMoves(s, s', r, u);
    }
  }

  // ---- the other parts ----

  lemma ShapeStep(c: Config, s: State, l: Step)
    requires Enabled(c, s, l) && Regular(c, s, l) && Shape(c, s)
    ensures Shape(c, Next(c, s, l))
  {
  }

  lemma CountedByWorker(c: Config, s: State, l: Step)
    requires Enabled(c, s, l) && Regular(c, s, l) && ByWorker(l) && Counted(s)
    ensures Counted(Next(c, s, l))
  {
    WorkerUpdate(s.workers, l.w, Next(c, s, l).workers[l.w]);
  }

  lemma CountedByMain(c: Config, s: State, l: Step)
    requires Enabled(c, s, l) && Regular(c, s, l) && !ByWorker(l) && Shape(c, s) && Counted(s)
    ensures Counted(Next(c, s, l))
  {
  }

  lemma CountedStep(c: Config, s: State, l: Step)
    requires Enabled(c, s, l) && Regular(c, s, l) && Shape(c, s) && Counted(s)
    ensures Counted(Next(c, s, l))
  {
    if ByWorker(l) {
      CountedByWorker(c, s, l);
    } else {
      CountedByMain(c, s, l);
    }
  }

  lemma FiledStep(c: Config, s: State, l: Step)
    requires Enabled(c, s, l) && Regular(c, s, l) && Filed(s.main)
    requires l.Accept? ==> forall k :: 0 <= k < |s.main.fifo| ==> s.main.fifo[k].envelope.tag < l.d.tag
    ensures Filed(Next(c, s, l).main)
  {
    match l
    case Accept(d) => AddKeepsFiled(s.main, c.prefetch, d);
    case Handle => ParkKeepsFiled(s.main, s.phase.job);
    case Publish => PublishKeepsFiled(s.main, c.runners);
    case _ =>
  }

  lemma CalmStep(c: Config, s: State, l: Step)
    requires Enabled(c, s, l) && Regular(c, s, l) && Calm(s)
    ensures Calm(Next(c, s, l))
  {
  }

  lemma PostsAreNotified(ws: seq<Pc>)
    ensures Total(OwesPostResult, ws) <= Total(OwesNotify, ws) <= |ws|
  {
    TotalLeq(OwesPostResult, OwesNotify, ws, |ws|);
    TotalOnes(OwesNotify, ws, |ws|);
  }

  lemma AnnouncedByWorker(c: Config, s: State, l: Step)
    requires Sound(c) && Announced(s) && Enabled(c, s, l) && Regular(c, s, l) && ByWorker(l)
    ensures Announced(Next(c, s, l))
  {
    WorkerUpdate(s.workers, l.w, Next(c, s, l).workers[l.w]);
  }

  lemma AnnouncedByMain(c: Config, s: State, l: Step)
    requires Shape(c, s) && Counted(s) && Announced(s)
    requires Enabled(c, s, l) && Regular(c, s, l) && !ByWorker(l)
    ensures Announced(Next(c, s, l))
  {
    PostsAreNotified(s.workers);
  }

  lemma AnnouncedStep(c: Config, s: State, l: Step)
    requires Sound(c) && Shape(c, s) && Counted(s) && Announced(s)
    requires Enabled(c, s, l) && Regular(c, s, l)
    ensures Announced(Next(c, s, l))
  {
    if ByWorker(l) {
      AnnouncedByWorker(c, s, l);
    } else {
      AnnouncedByMain(c, s, l);
    }
  }

  /** Once the pipe is empty, only queued and busy workers' bytes and unsent ones are left to count. */
  lemma BoundedWhenEmptied(c: Config, s: State)
    requires Matched(s) && |s.workers| == c.threads && s.pipe == 0 && |s.main.fifo| <= c.prefetch
    ensures Bounded(c, s.(phase := Poll))
  {
    FlightCensus(s);
    TotalOnes(IsOpen, s.main.fifo, |s.main.fifo|);
    BusyOrOwing(s.workers, |s.workers|);
  }

  lemma {:induction false} BusyOrOwing(ws: seq<Pc>, n: nat)
    requires n <= |ws|
    ensures TotalUpTo(IsBusy, ws, n) + TotalUpTo(OwesNotify, ws, n) <= n
  {
    if n > 0 {
      BusyOrOwing(ws, n - 1);
    }
  }

  lemma BoundedByWorker(c: Config, s: State, l: Step)
    requires Bounded(c, s) && Enabled(c, s, l) && Regular(c, s, l) && ByWorker(l)
    ensures Bounded(c, Next(c, s, l))
  {
    WorkerUpdate(s.workers, l.w, Next(c, s, l).workers[l.w]);
  }

  lemma BoundedByMain(c: Config, s: State, l: Step)
    requires Shape(c, s) && Bounded(c, s) && Enabled(c, s, l) && Regular(c, s, l)
    requires !ByWorker(l) && !l.ReadEmpty?
    ensures Bounded(c, Next(c, s, l))
  {
  }

  lemma BoundedStep(c: Config, s: State, l: Step)
    requires Shape(c, s) && Matched(s) && Bounded(c, s)
    requires Enabled(c, s, l) && Regular(c, s, l)
    ensures Bounded(c, Next(c, s, l))
  {
    if ByWorker(l) {
      BoundedByWorker(c, s, l);
    } else if l.ReadEmpty? {
      BoundedWhenEmptied(c, s);
    } else {
      BoundedByMain(c, s, l);
    }
  }

  // ---- records and the chronicle ----

  lemma QueuedIsInFlight(s: State, k: nat)
    ensures k < |s.workerQ.items| ==> InFlight(s, s.workerQ.items[k].task.uuid) > 0
    ensures k < |s.resultQ.items| ==> InFlight(s, s.resultQ.items[k].task.uuid) > 0
    ensures k < |s.workers| && s.workers[k].Running? ==> InFlight(s, s.workers[k].job.task.uuid) > 0
  {
    if k < |s.workerQ.items| {
      BagHas(JobUuid, s.workerQ.items, k);
    }
    if k < |s.resultQ.items| {
      BagHas(JobUuid, s.resultQ.items, k);
    }
    if k < |s.workers| {
      BagHas(PcUuid, s.workers, k);
    }
  }

  /** A job in flight waits for a message already filed, so a fresh message leaves it fitting. */
  lemma InFlightFits(s: State, d: Delivery, j: Job)
    requires Matched(s) && Filed(s.main) && d.uuid !in s.main.index && InFlight(s, j.task.uuid) > 0
    ensures FreshFit(s.given, s.main.fifo, j) ==> FreshFit(s.given, s.main.fifo + [Node(d, false, None)], j)
    ensures DoneFit(s.given, s.main.fifo, j) ==> DoneFit(s.given, s.main.fifo + [Node(d, false, None)], j)
  {
    InFlightIsFiled(s, j.task.uuid);
  }

  lemma FreshJobFits(given: map<nat, Outcome>, m: Ledger, d: Delivery, r: nat)
    requires Filed(m) && d.uuid !in m.index && d.tag !in given
    ensures FreshFit(given, m.fifo + [Node(d, false, None)], Job(r, InitialTask(d)))
  {
  }

  lemma JobsFitOn(s: State, d: Delivery, fifo': seq<Node>)
    requires Matched(s) && Filed(s.main) && d.uuid !in s.main.index && Fit(s)
    requires fifo' == s.main.fifo + [Node(d, false, None)]
    ensures forall k :: 0 <= k < |s.workerQ.items| ==> FreshFit(s.given, fifo', s.workerQ.items[k])
    ensures forall k :: 0 <= k < |s.resultQ.items| ==> DoneFit(s.given, fifo', s.resultQ.items[k])
    ensures forall w :: 0 <= w < |s.workers| ==> PcFit(s.given, fifo', s.workers[w])
  {
    forall k: nat | k < |s.workerQ.items|
      ensures FreshFit(s.given, fifo', s.workerQ.items[k])
    {
      QueuedIsInFlight(s, k);
      InFlightFits(s, d, s.workerQ.items[k]);
    }
    forall k: nat | k < |s.resultQ.items|
      ensures DoneFit(s.given, fifo', s.resultQ.items[k])
    {
      QueuedIsInFlight(s, k);
      InFlightFits(s, d, s.resultQ.items[k]);
    }
    forall w: nat | w < |s.workers|
      ensures PcFit(s.given, fifo', s.workers[w])
    {
      if s.workers[w].Running? {
        QueuedIsInFlight(s, w);
        InFlightFits(s, d, s.workers[w].job);
        assert PcFit(s.given, s.main.fifo, s.workers[w]);
      }
    }
  }

  lemma FitAccept(c: Config, s: State, d: Delivery)
    requires s.phase.Holding? && |s.main.fifo| < c.prefetch && |s.workerQ.items| < c.runners
    requires d.uuid !in s.main.index && d.tag !in s.given && Matched(s) && Filed(s.main) && Fit(s)
    ensures Fit(DoAccept(c, s, d))
  {
    var s' := DoAccept(c, s, d);
    JobsFitOn(s, d, s'.main.fifo);
    FreshJobFits(s.given, s.main, d, s.phase.runner);
  }

  lemma FitHandle(c: Config, s: State, k: nat)
    requires s.phase.Handling? && !NeedsRun(s.phase.job.task) && Belongs(s.main, s.phase.job, k) && Fit(s)
    ensures Fit(DoHandle(c, s))
  {
  }

  lemma FitPublish(c: Config, s: State)
    requires s.phase == Draining && FrontFiled(s.main) && Fit(s)
    ensures Fit(DoPublish(c, s))
  {
  }

  /** Of any uuid at most one job is in flight. */
  lemma {:induction false} OpenAtMostOnce(ns: seq<Node>, n: nat, u: string)
    requires n <= |ns| && forall i, k :: 0 <= i < k < |ns| ==> ns[i].envelope.uuid != ns[k].envelope.uuid
    ensures BagUpTo(NodeOpen, ns, n)[u] <= 1
    ensures BagUpTo(NodeOpen, ns, n)[u] == 1 ==> exists i :: 0 <= i < n && ns[i].envelope.uuid == u
  {
    if n > 0 {
      OpenAtMostOnce(ns, n - 1, u);
    }
  }

  lemma OneInFlight(s: State, u: string)
    requires Matched(s) && Filed(s.main)
    ensures InFlight(s, u) <= 1
  {
    forall i, k | 0 <= i < k < |s.main.fifo|
      ensures s.main.fifo[i].envelope.uuid != s.main.fifo[k].envelope.uuid
    {
      FiledUuidsAreDistinct(s.main, i, k);
    }
    OpenAtMostOnce(s.main.fifo, |s.main.fifo|, u);
    assert InFlight(s, u) == Awaited(s, u);
  }

  /** No other job carries the uuid of the one that worker w is at. */
  lemma OthersDiffer(s: State, w: nat)
    requires Matched(s) && Filed(s.main) && w < |s.workers| && s.workers[w].Running?
    ensures var u := s.workers[w].job.task.uuid;
            && (forall k :: 0 <= k < |s.workerQ.items| ==> s.workerQ.items[k].task.uuid != u)
            && (forall k :: 0 <= k < |s.resultQ.items| ==> s.resultQ.items[k].task.uuid != u)
            && (forall v :: 0 <= v < |s.workers| && v != w && s.workers[v].Running? ==> s.workers[v].job.task.uuid != u)
            && (s.phase.Handling? ==> s.phase.job.task.uuid != u)
  {
    var u := s.workers[w].job.task.uuid;
    OneInFlight(s, u);
    BagHas(PcUuid, s.workers, w);
    CountUpdate(PcUuid, s.workers, w, Idle, u);
    forall k: nat
      ensures k < |s.workerQ.items| ==> s.workerQ.items[k].task.uuid != u
      ensures k < |s.resultQ.items| ==> s.resultQ.items[k].task.uuid != u
      ensures k < |s.workers| && k != w && s.workers[k].Running? ==> s.workers[k].job.task.uuid != u
    {
      if k < |s.workerQ.items| {
        BagHas(JobUuid, s.workerQ.items, k);
      }
      if k < |s.resultQ.items| {
        BagHas(JobUuid, s.resultQ.items, k);
      }
      if k < |s.workers| {
        BagHas(PcUuid, s.workers[w := Idle], k);
      }
    }
  }

  /** The node that waits for worker w; noting something under its tag says nothing about the others. */
  lemma AwaitedNode(s: State, w: nat) returns (k: nat)
    requires Matched(s) && Filed(s.main) && w < |s.workers| && s.workers[w].Running?
    ensures var u := s.workers[w].job.task.uuid;
            && k < |s.main.fifo| && s.main.fifo[k].envelope.uuid == u && s.main.fifo[k].task == None
            && u in s.main.index && s.main.index[u] == s.main.fifo[k].envelope.tag
            && forall i :: 0 <= i < |s.main.fifo| && i != k ==>
                 s.main.fifo[i].envelope.uuid != u && s.main.fifo[i].envelope.tag != s.main.fifo[k].envelope.tag
  {
    var u := s.workers[w].job.task.uuid;
    QueuedIsInFlight(s, w);
    InFlightIsFiled(s, u);
    k :| 0 <= k < |s.main.fifo| && s.main.fifo[k].envelope.uuid == u && !s.main.fifo[k].finished;
    assert NodeFiled(s.main.index, s.main.fifo[k]);
    forall i: nat | i < |s.main.fifo| && i != k
      ensures s.main.fifo[i].envelope.uuid != u
    {
      FiledUuidsAreDistinct(s.main, i, k);
    }
  }

  lemma NotingElsewhere(given: map<nat, Outcome>, fifo: seq<Node>, t: nat, o: Outcome, j: Job)
    requires forall i :: 0 <= i < |fifo| && fifo[i].envelope.uuid == j.task.uuid ==> fifo[i].envelope.tag != t
    ensures FreshFit(given, fifo, j) ==> FreshFit(given[t := o], fifo, j)
    ensures DoneFit(given, fifo, j) ==> DoneFit(given[t := o], fifo, j)
  {
  }

  lemma FitFinish(c: Config, s: State, w: nat, o: Outcome)
    requires w < |s.workers| && s.workers[w].Running? && |s.resultQ.items| < c.runners
    requires Matched(s) && Filed(s.main) && Fit(s)
    ensures Fit(DoFinish(c, s, w, o))
  {
    var s', j, fifo := DoFinish(c, s, w, o), s.workers[w].job, s.main.fifo;
    OthersDiffer(s, w);
    var k := AwaitedNode(s, w);
    var t := fifo[k].envelope.tag;
    assert PcFit(s.given, fifo, s.workers[w]);
    assert DoneFit(s'.given, fifo, Job(j.runner, Judged(j.task, true, o)));
    forall i | 0 <= i < |s'.workerQ.items|
      ensures FreshFit(s'.given, fifo, s'.workerQ.items[i])
    {
      NotingElsewhere(s.given, fifo, t, o, s.workerQ.items[i]);
    }
    forall i | 0 <= i < |s.resultQ.items|
      ensures DoneFit(s'.given, fifo, s.resultQ.items[i])
    {
      NotingElsewhere(s.given, fifo, t, o, s.resultQ.items[i]);
    }
    forall v | 0 <= v < |s'.workers|
      ensures PcFit(s'.given, fifo, s'.workers[v])
    {
      if s'.workers[v].Running? {
        assert PcFit(s.given, fifo, s.workers[v]);
        NotingElsewhere(s.given, fifo, t, o, s.workers[v].job);
      }
    }
    if s.phase.Handling? {
      NotingElsewhere(s.given, fifo, t, o, s.phase.job);
    }
    forall i | 0 <= i < |fifo|
      ensures NodeFit(s'.given, fifo[i])
    {
      assert NodeFit(s.given, fifo[i]);
    }
  }

  lemma FitPopJob(s: State, w: nat)
    requires w < |s.workers| && s.workerQ.items != [] && Fit(s)
    ensures Fit(DoPopJob(s, w))
  {
  }

  lemma FitMark(s: State, s': State, w: nat, pc: Pc)
    requires w < |s.workers| && !pc.Running? && s'.workers == s.workers[w := pc] && Fit(s)
    requires SameElsewhere(s, s') && s'.phase == s.phase && s'.given == s.given
    ensures Fit(s')
  {
  }

  lemma FitByMain(c: Config, s: State, l: Step)
    requires Enabled(c, s, l) && Regular(c, s, l) && Fit(s)
    requires !l.Accept? && !l.Handle? && !l.Publish? && !ByWorker(l)
    ensures Fit(Next(c, s, l))
  {
  }

  /** Where a worker stands after a step that moves no job. */
  function MarkOf(l: Step): Pc {
    match l
    case WaitJob(_) => Waited
    case PostResult(_) => Posted
    case _ => Idle
  }

  lemma OnlyMarks(c: Config, s: State, l: Step)
    requires Enabled(c, s, l) && ByWorker(l) && !l.PopJob? && !l.Finish?
    ensures var s' := Next(c, s, l);
            && l.w < |s.workers| && s'.workers == s.workers[l.w := MarkOf(l)]
            && SameElsewhere(s, s') && s'.phase == s.phase && s'.given == s.given
  {
  }

  lemma FitByWorker(c: Config, s: State, l: Step)
    requires Enabled(c, s, l) && Regular(c, s, l) && Matched(s) && Filed(s.main) && Fit(s) && ByWorker(l)
    ensures Fit(Next(c, s, l))
  {
    if l.PopJob? {
      FitPopJob(s, l.w);
    } else if l.Finish? {
      FitFinish(c, s, l.w, l.o);
    } else {
      OnlyMarks(c, s, l);
      FitMark(s, Next(c, s, l), l.w, MarkOf(l));
    }
  }

  lemma FitStep(c: Config, s: State, l: Step)
    requires Enabled(c, s, l) && Regular(c, s, l) && Matched(s) && Filed(s.main) && Fit(s)
    requires forall t :: t in s.given ==> t <= s.lastTag
    ensures Fit(Next(c, s, l))
  {
    if l.Accept? {
      FitAccept(c, s, l.d);
    } else if l.Handle? {
      var k :| Belongs(s.main, s.phase.job, k);
      FitHandle(c, s, k);
    } else if l.Publish? {
      FitPublish(c, s);
    } else if ByWorker(l) {
      FitByWorker(c, s, l);
    } else {
      FitByMain(c, s, l);
    }
  }

  lemma ChroniclePublish(c: Config, s: State)
    requires s.phase == Draining && FrontFiled(s.main) && Chronicle(s) && Fit(s) && Filed(s.main)
    ensures Chronicle(DoPublish(c, s))
  {
    var front := s.main.fifo[0];
    assert NodeFit(s.given, front) && NodeFiled(s.main.index, front);
    assert front.envelope == s.accepted[|s.main.published| + 0];
  }

  lemma ChronicleAccept(c: Config, s: State, d: Delivery)
    requires s.phase.Holding? && |s.main.fifo| < c.prefetch && d.tag > s.lastTag && Chronicle(s)
    ensures Chronicle(DoAccept(c, s, d))
  {
  }

  /** Noting something for a message in the FIFO says nothing about those published. */
  lemma ChronicleNoted(s: State, k: nat, o: Outcome)
    requires Chronicle(s) && k < |s.main.fifo|
    ensures Chronicle(s.(given := s.given[s.main.fifo[k].envelope.tag := o]))
  {
    var n := |s.main.published|;
    assert s.accepted[n + k].tag == s.main.fifo[k].envelope.tag;
    forall i | 0 <= i < n
      ensures s.accepted[i].tag != s.main.fifo[k].envelope.tag
    {
      assert s.accepted[i].tag < s.accepted[n + k].tag;
    }
  }

  lemma ChronicleFinish(c: Config, s: State, w: nat, o: Outcome)
    requires w < |s.workers| && s.workers[w].Running? && Chronicle(s) && Matched(s) && Filed(s.main)
    ensures Chronicle(DoFinish(c, s, w, o))
  {
    var k := AwaitedNode(s, w);
    ChronicleNoted(s, k, o);
    ChronicleSame(s.(given := s.given[s.main.fifo[k].envelope.tag := o]), DoFinish(c, s, w, o));
  }

  lemma ChronicleSame(s: State, s': State)
    requires Chronicle(s) && s'.accepted == s.accepted && s'.main.published == s.main.published
    requires s'.main.acks == s.main.acks && |s'.main.fifo| == |s.main.fifo|
    requires forall k :: 0 <= k < |s.main.fifo| ==> s'.main.fifo[k].envelope == s.main.fifo[k].envelope
    requires s'.lastTag >= s.lastTag && s'.given == s.given
    requires s'.rejected == s.rejected || (s'.rejected == s.rejected + {s'.lastTag} && s'.lastTag > s.lastTag)
    ensures Chronicle(s')
  {
  }

  lemma OthersKeepMessages(c: Config, s: State, l: Step)
    requires Enabled(c, s, l) && Regular(c, s, l) && !l.Accept? && !l.Publish?
    ensures !l.Finish? ==> Next(c, s, l).given == s.given
    ensures var s' := Next(c, s, l);
            && s'.accepted == s.accepted && s'.main.published == s.main.published && s'.main.acks == s.main.acks
            && |s'.main.fifo| == |s.main.fifo|
            && (forall k :: 0 <= k < |s.main.fifo| ==> s'.main.fifo[k].envelope == s.main.fifo[k].envelope)
            && (if l.Reject? then s'.lastTag > s.lastTag && s'.rejected == s.rejected + {s'.lastTag}
                else s'.lastTag == s.lastTag && s'.rejected == s.rejected)
  {
  }

  lemma ChronicleStep(c: Config, s: State, l: Step)
    requires Enabled(c, s, l) && Regular(c, s, l) && Chronicle(s) && Fit(s) && Filed(s.main) && Matched(s)
    ensures Chronicle(Next(c, s, l))
  {
    if l.Publish? {
      ChroniclePublish(c, s);
    } else if l.Accept? {
      ChronicleAccept(c, s, l.d);
    } else if l.Finish? {
      ChronicleFinish(c, s, l.w, l.o);
    } else {
      OthersKeepMessages(c, s, l);
      ChronicleSame(s, Next(c, s, l));
    }
  }

  lemma NewTagIsLargest(s: State)
    requires Chronicle(s)
    ensures forall k :: 0 <= k < |s.main.fifo| ==> s.main.fifo[k].envelope.tag <= s.lastTag
  {
  }

  lemma KeepsQueues(c: Config, s: State, l: Step)
    requires Shape(c, s) && Counted(s) && Enabled(c, s, l) && Regular(c, s, l)
    ensures Shape(c, Next(c, s, l)) && Counted(Next(c, s, l))
  {
    ShapeStep(c, s, l);
    CountedStep(c, s, l);
  }

  lemma KeepsOwnership(c: Config, s: State, l: Step)
    requires Conserved(c, s) && Matched(s) && Enabled(c, s, l) && Regular(c, s, l)
    ensures Conserved(c, Next(c, s, l)) && Matched(Next(c, s, l))
  {
    forall r: nat
      ensures Holders(Next(c, s, l), r) == If(r < c.runners)
    {
      KeptStep(c, s, l, r, "");
    }
    forall u: string
      ensures InFlight(Next(c, s, l), u) == Awaited(Next(c, s, l), u)
    {
      KeptStep(c, s, l, 0, u);
    }
  }

  lemma KeepsMessages(c: Config, s: State, l: Step)
    requires Matched(s) && Filed(s.main) && Fit(s) && Chronicle(s) && Calm(s) && Enabled(c, s, l) && Regular(c, s, l)
    ensures Filed(Next(c, s, l).main) && Fit(Next(c, s, l)) && Chronicle(Next(c, s, l)) && Calm(Next(c, s, l))
  {
    NewTagIsLargest(s);
    FiledStep(c, s, l);
    FitStep(c, s, l);
    ChronicleStep(c, s, l);
    CalmStep(c, s, l);
  }

  /** A courteous step keeps the invariant. */
  lemma {:induction false} InvStep(c: Config, s: State, l: Step)
    requires Sound(c) && Inv(c, s) && Enabled(c, s, l) && Courteous(c, s, l)
    ensures Inv(c, Next(c, s, l))
  {
    CourteousStepsAreRegular(c, s, l);
    KeepsQueues(c, s, l);
    KeepsOwnership(c, s, l);
    KeepsMessages(c, s, l);
    AnnouncedStep(c, s, l);
    BoundedStep(c, s, l);
  }

  lemma InitOwnership(c: Config)
    ensures Conserved(c, Init(c)) && Matched(Init(c))
  {
    var s := Init(c);
    forall r: nat
      ensures Holders(s, r) == If(r < c.runners)
    {
      AllRunnersOnce(c.runners, r);
      BagWithout(PcRunner, s.workers, r);
    }
    forall u: string
      ensures InFlight(s, u) == Awaited(s, u)
    {
      BagWithout(PcUuid, s.workers, u);
    }
  }

  lemma InitThreads(c: Config)
    ensures var s := Init(c); Counted(s) && Announced(s) && Bounded(c, s)
  {
    var s := Init(c);
    TotalZero(OwesPopJob, s.workers);
    TotalZero(OwesPostResult, s.workers);
    TotalZero(OwesNotify, s.workers);
    TotalZero(IsBusy, s.workers);
  }

  lemma InvInit(c: Config)
    requires Sound(c)
    ensures Inv(c, Init(c))
  {
    InitOwnership(c);
    InitThreads(c);
  }

  /** The invariant holds throughout every courteous run. */
  lemma {:induction false} InvAlways(c: Config, ss: seq<State>, ls: seq<Step>, k: nat)
    requires IsCourteousRun(c, ss, ls) && k < |ss|
    ensures Inv(c, ss[k])
  {
    if k == 0 {
      InvInit(c);
    } else {
      InvAlways(c, ss, ls, k - 1);
      InvStep(c, ss[k - 1], ls[k - 1]);
    }
  }
}
