/**
 Building runs of the dispatcher: what a bounded number of steps of the main thread, of the broker
 and of a worker can be made to do from any state that the invariant allows.
 */
module ProtocolRuns {
  import opened Options
  import opened Sums
  import opened BlockQueues
  import opened TaskRunners
  import opened Ledgers
  import opened Protocol
  import opened ProtocolInvariant
  import opened ProtocolSteps
  import opened ProtocolSafety
  import opened ProtocolProgress

  // ---- what is outstanding ----

  /** The rejected messages that no ack has covered yet. */
  ghost function Uncovered(s: State): set<nat> {
    set t | t in s.rejected && !Covered(s, t)
  }

  /** What the broker counts against its window: the messages in the FIFO and the uncovered rejections. */
  lemma OutstandingIs(s: State)
    requires Chronicle(s) && TagsAscend(s.main.fifo)
    ensures Outstanding(s) == FifoTags(s.main.fifo) + Uncovered(s)
    ensures |Outstanding(s)| == |s.main.fifo| + |Uncovered(s)|
  {
    forall t
      ensures t in Outstanding(s) <==> t in FifoTags(s.main.fifo) || t in Uncovered(s)
      ensures t in FifoTags(s.main.fifo) ==> t !in Uncovered(s)
    {
      OutstandingTag(s, t);
    }
    FifoTagsSize(s.main.fifo);
  }

  lemma OutstandingTag(s: State, t: nat)
    requires Chronicle(s)
    ensures t in Outstanding(s) <==> t in FifoTags(s.main.fifo) || t in Uncovered(s)
    ensures t in FifoTags(s.main.fifo) ==> t !in Uncovered(s)
  {
    FifoTagsHas(s.main.fifo, t);
    if t in FifoTags(s.main.fifo) {
      var k :| 0 <= k < |s.main.fifo| && s.main.fifo[k].envelope.tag == t;
      FifoTagIsOutstanding(s, k);
      assert s.accepted[|s.main.published| + k].tag == t;
    }
    if t in Outstanding(s) && t !in s.rejected {
      var k := OutstandingNode(s, t);
    }
  }

  lemma OutstandingIsAccepted(s: State, t: nat) returns (i: nat)
    requires t in Outstanding(s) && t !in s.rejected
    ensures i < |s.accepted| && s.accepted[i].tag == t && !Covered(s, t)
  {
    i :| 0 <= i < |s.accepted| && s.accepted[i].tag == t;
  }

  lemma OutstandingNode(s: State, t: nat) returns (k: nat)
    requires Chronicle(s) && t in Outstanding(s) && t !in s.rejected
    ensures k < |s.main.fifo| && s.main.fifo[k].envelope.tag == t
  {
    var i := OutstandingIsAccepted(s, t);
    PublishedAreCovered(s);
    k := i - |s.main.published|;
  }

  lemma PublishedAreCovered(s: State)
    requires Chronicle(s)
    ensures forall i :: 0 <= i < |s.main.published| ==> Covered(s, s.accepted[i].tag)
  {
    forall i | 0 <= i < |s.main.published|
      ensures Covered(s, s.accepted[i].tag)
    {
      assert s.main.acks[i] in s.main.acks;
    }
  }

  // ---- runs from any state of the invariant ----

  /** Also what the broker owes before a message that will be rejected. */
  ghost predicate Polite(c: Config, s: State, l: Step) {
    Courteous(c, s, l) && (l.Reject? ==> |Outstanding(s)| < c.prefetch)
  }

  ghost predicate IsPoliteRun(c: Config, ss: seq<State>, ls: seq<Step>) {
    IsRun(c, ss, ls) && forall k :: 0 <= k < |ls| ==> Polite(c, ss[k], ls[k])
  }

  ghost predicate Reaches(c: Config, s0: State, s: State) {
    exists ss, ls :: IsPoliteRun(c, ss, ls) && ss[0] == s0 && ss[|ls|] == s
  }

  lemma ReachesSelf(c: Config, s: State)
    ensures Reaches(c, s, s)
  {
    assert IsPoliteRun(c, [s], []) && [s][0] == s;
  }

  lemma RunGrows(c: Config, ss: seq<State>, ls: seq<Step>, l: Step)
    requires IsPoliteRun(c, ss, ls) && Enabled(c, ss[|ls|], l) && Polite(c, ss[|ls|], l)
    ensures IsPoliteRun(c, ss + [Next(c, ss[|ls|], l)], ls + [l])
  {
  }

  lemma ReachStep(c: Config, s0: State, s: State, l: Step)
    requires Reaches(c, s0, s) && Enabled(c, s, l) && Polite(c, s, l)
    ensures Reaches(c, s0, Next(c, s, l))
  {
    var ss, ls :| IsPoliteRun(c, ss, ls) && ss[0] == s0 && ss[|ls|] == s;
    RunGrows(c, ss, ls, l);
    var ss', ls' := ss + [Next(c, s, l)], ls + [l];
    assert ss'[0] == s0 && ss'[|ls'|] == Next(c, s, l);
  }

  lemma {:induction false} PoliteRunKeepsInv(c: Config, ss: seq<State>, ls: seq<Step>, k: nat)
    requires Sound(c) && IsPoliteRun(c, ss, ls) && Inv(c, ss[0]) && k < |ss|
    ensures Inv(c, ss[k])
  {
    if k > 0 {
      PoliteRunKeepsInv(c, ss, ls, k - 1);
      InvStep(c, ss[k - 1], ls[k - 1]);
    }
  }

  /** s is reached from s0, which the invariant allows. */
  ghost predicate From(c: Config, s0: State, s: State) {
    Sound(c) && Inv(c, s0) && Reaches(c, s0, s)
  }

  lemma FromInv(c: Config, s0: State, s: State)
    requires From(c, s0, s)
    ensures Inv(c, s)
  {
    var ss, ls :| IsPoliteRun(c, ss, ls) && ss[0] == s0 && ss[|ls|] == s;
    PoliteRunKeepsInv(c, ss, ls, |ls|);
  }

  /** One more step, and it finds all it needs. */
  lemma Go(c: Config, s0: State, s: State, l: Step)
    requires From(c, s0, s) && Enabled(c, s, l) && Polite(c, s, l)
    ensures From(c, s0, Next(c, s, l)) && Regular(c, s, l)
  {
    FromInv(c, s0, s);
    CourteousStepsAreRegular(c, s, l);
    ReachStep(c, s0, s, l);
  }

  // ---- a worker ----

  /** Nothing the main thread keeps, and nothing in the pipe, has changed. */
  ghost predicate SameMain(s: State, s': State) {
    s'.main == s.main && s'.phase == s.phase && s'.rejected == s.rejected && s'.lost == s.lost &&
    s'.lastTag == s.lastTag && s'.accepted == s.accepted
  }

  ghost predicate SameWire(s: State, s': State) {
    s'.pipe == s.pipe && s'.drops == s.drops
  }

  /** An idle worker takes a job. */
  lemma WorkerTakes(c: Config, s0: State, s: State, w: nat) returns (s': State)
    requires From(c, s0, s) && At(s, w, Idle) && s.workerQ.stat > 0
    ensures From(c, s0, s') && SameMain(s, s') && SameWire(s, s')
    ensures w < |s'.workers| && s'.workers[w].Running? && s'.workers == s.workers[w := s'.workers[w]]
    ensures s'.workerQ.stat == s.workerQ.stat - 1 && |s'.workerQ.items| == |s.workerQ.items| - 1
  {
    Go(c, s0, s, WaitJob(w));
    var s1 := Next(c, s, WaitJob(w));
    Go(c, s0, s1, PopJob(w));
    s' := Next(c, s1, PopJob(w));
  }

  /** A busy worker finishes and gets as far as the write to the pipe. */
  lemma WorkerFinishes(c: Config, s0: State, s: State, w: nat) returns (s': State)
    requires From(c, s0, s) && w < |s.workers| && s.workers[w].Running?
    ensures From(c, s0, s') && SameMain(s, s') && SameWire(s, s')
    ensures s'.workers == s.workers[w := Posted] && s'.workerQ == s.workerQ
  {
    var finish := Finish(w, Outcome(None, RunResult(true, "", [], 0, 0.0)));
    Go(c, s0, s, finish);
    var s1 := Next(c, s, finish);
    Go(c, s0, s1, PostResult(w));
    s' := Next(c, s1, PostResult(w));
  }

  lemma WorkerPosts(c: Config, s0: State, s: State, w: nat) returns (s': State)
    requires From(c, s0, s) && At(s, w, Idle) && s.workerQ.stat > 0
    ensures From(c, s0, s') && SameMain(s, s') && SameWire(s, s')
    ensures s'.workers == s.workers[w := Posted]
    ensures s'.workerQ.stat == s.workerQ.stat - 1 && |s'.workerQ.items| == |s.workerQ.items| - 1
  {
    var s1 := WorkerTakes(c, s0, s, w);
    s' := WorkerFinishes(c, s0, s1, w);
  }

  /** The write: the byte is in the pipe or dropped. */
  lemma WorkerNotifies(c: Config, s0: State, s: State, w: nat) returns (s': State)
    requires From(c, s0, s) && At(s, w, Posted) && s.pipe <= c.pipeSize
    ensures From(c, s0, s') && SameMain(s, s') && s'.workers == s.workers[w := Idle]
    ensures s'.workerQ == s.workerQ && s'.resultQ == s.resultQ
    ensures s'.pipe <= c.pipeSize && s'.pipe + s'.drops == s.pipe + s.drops + 1
    ensures s.pipe < c.pipeSize ==> s'.drops == s.drops
  {
    Go(c, s0, s, Notify(w));
    s' := Next(c, s, Notify(w));
  }

  // ---- the receive side ----

  lemma {:induction false} LongerThanAll(us: set<string>) returns (n: nat)
    ensures forall u :: u in us ==> |u| < n
  {
    if us == {} {
      n := 0;
    } else {
      var u :| u in us;
      var m := LongerThanAll(us - {u});
      n := if |u| < m then m else |u| + 1;
    }
  }

  lemma FreshUuid(us: set<string>) returns (u: string)
    ensures u !in us
  {
    var n := LongerThanAll(us);
    u := seq(n, i => 'u');
  }

  /** The broker has room for n more messages, and the dispatcher has runners for them. */
  ghost predicate RoomFor(c: Config, s: State, n: nat) {
    |s.main.fifo| + |Uncovered(s)| + n <= c.prefetch && |s.main.fifo| + |s.lost| + n <= c.runners
  }

  ghost predicate OnlyNewer(ds: seq<Delivery>, ds': seq<Delivery>, t: nat) {
    ds <= ds' && forall i :: |ds| <= i < |ds'| ==> ds'[i].tag > t
  }

  /** Between s and s', n messages were accepted and queued. */
  ghost predicate Took(s: State, s': State, n: nat) {
    && |s'.accepted| == |s.accepted| + n
    && s'.workers == s.workers && SameWire(s, s') && s'.resultQ == s.resultQ
    && s'.rejected == s.rejected && s'.lost == s.lost && s'.main.acks == s.main.acks
    && s'.lastTag >= s.lastTag && OnlyNewer(s.accepted, s'.accepted, s.lastTag)
    && |s'.main.fifo| == |s.main.fifo| + n
    && s'.workerQ.stat == s.workerQ.stat + n && |s'.workerQ.items| == |s.workerQ.items| + n
  }

  lemma TookTwice(s: State, s1: State, s2: State, m: nat, n: nat)
    requires Took(s, s1, m) && Took(s1, s2, n)
    ensures Took(s, s2, m + n)
  {
  }

  lemma RoomLeft(c: Config, s: State, s': State, m: nat, n: nat)
    requires RoomFor(c, s, m + n) && Took(s, s', m)
    ensures RoomFor(c, s', n)
  {
    assert Uncovered(s') == Uncovered(s);
  }

  lemma WindowFitsRunners(c: Config)
    requires Sound(c)
    ensures c.prefetch <= c.runners
  {
    assert c.threads * c.prefetch >= 1 * c.prefetch;
  }

  lemma FromInit(c: Config)
    requires Sound(c)
    ensures From(c, Init(c), Init(c))
  {
    InvInit(c);
    ReachesSelf(c, Init(c));
  }

  lemma InitHasRoom(c: Config)
    requires Sound(c)
    ensures RoomFor(c, Init(c), c.prefetch)
  {
    assert Uncovered(Init(c)) == {};
    WindowFitsRunners(c);
  }

  lemma StartReceiving(c: Config, s0: State, s: State) returns (s': State)
    requires From(c, s0, s) && s.phase == Poll
    ensures From(c, s0, s') && s' == s.(phase := Consuming)
  {
    Go(c, s0, s, EnterConsume);
    s' := Next(c, s, EnterConsume);
  }

  /** A free runner is taken. */
  lemma TakeOne(c: Config, s0: State, s: State) returns (s': State)
    requires From(c, s0, s) && s.phase == Consuming && |s.main.fifo| + |s.lost| < c.runners
    ensures s.main.free != [] && s' == s.(main := TakeFree(s.main), phase := Holding(s.main.free[0]))
    ensures From(c, s0, s')
  {
    FromInv(c, s0, s);
    Circulation(c, s);
    Go(c, s0, s, TakeRunner);
    s' := Next(c, s, TakeRunner);
  }

  /** A message to accept, within the window and under a fresh uuid. */
  lemma NextMessage(c: Config, s0: State, s: State) returns (d: Delivery)
    requires From(c, s0, s) && s.phase.Holding? && |s.main.fifo| + |Uncovered(s)| < c.prefetch
    ensures Enabled(c, s, Accept(d)) && Polite(c, s, Accept(d))
  {
    FromInv(c, s0, s);
    OutstandingIs(s);
    var u := FreshUuid(s.main.index.Keys);
    d := Delivery(s.lastTag + 1, u, 0, 0, 1);
  }

  lemma AcceptOne(c: Config, s0: State, s: State) returns (s': State)
    requires From(c, s0, s) && s.phase == Consuming && RoomFor(c, s, 1)
    ensures From(c, s0, s') && s'.phase == Consuming && Took(s, s', 1)
  {
    var s1 := TakeOne(c, s0, s);
    assert Uncovered(s1) == Uncovered(s);
    var d := NextMessage(c, s0, s1);
    Go(c, s0, s1, Accept(d));
    var s2 := Next(c, s1, Accept(d));
    Go(c, s0, s2, PostFresh);
    s' := Next(c, s2, PostFresh);
  }

  lemma {:induction false} AcceptSome(c: Config, s0: State, s: State, n: nat) returns (s': State)
    requires From(c, s0, s) && s.phase == Consuming && RoomFor(c, s, n)
    ensures From(c, s0, s') && s'.phase == Consuming && Took(s, s', n)
    decreases n
  {
    s' := s;
    if n > 0 {
      var s1 := AcceptOne(c, s0, s);
      RoomLeft(c, s, s1, 1, n - 1);
      s' := AcceptSome(c, s0, s1, n - 1);
      TookTwice(s, s1, s', 1, n - 1);
    }
  }

  /** Leaving the receive loop. */
  lemma StopReceiving(c: Config, s0: State, s: State) returns (s': State)
    requires From(c, s0, s) && s.phase == Consuming
    ensures From(c, s0, s') && s'.phase == Poll && Took(s, s', 0)
  {
    Go(c, s0, s, TakeRunner);
    s' := Next(c, s, TakeRunner);
    if s'.phase.Holding? {
      var s1 := s';
      Go(c, s0, s1, NoMessage);
      s' := Next(c, s1, NoMessage);
    }
  }

  /** One turn to the socket that brings n messages. */
  lemma Receive(c: Config, s0: State, s: State, n: nat) returns (s': State)
    requires From(c, s0, s) && s.phase == Poll && RoomFor(c, s, n)
    ensures From(c, s0, s') && s'.phase == Poll && Took(s, s', n)
  {
    var s1 := StartReceiving(c, s0, s);
    RoomLeft(c, s, s1, 0, n);
    var s2 := AcceptSome(c, s0, s1, n);
    s' := StopReceiving(c, s0, s2);
    TookTwice(s1, s2, s', n, 0);
    TookTwice(s, s1, s', 0, n);
  }

  // ---- the sending side ----

  /** In the loop that reads the pipe, with no worker between its push and its post, and nothing
      left to serve whenever the loop goes back to reading. */
  ghost predicate Served(s: State) {
    && (s.phase == Reading || s.phase == Poll || Serves(s.phase))
    && Pushed !in s.workers
    && (!Serves(s.phase) ==> s.resultQ.items == [])
  }

  /** The main thread turns to the pipe and reads a byte. */
  lemma ReadOne(c: Config, s0: State, s: State) returns (s': State)
    requires From(c, s0, s) && s.phase == Poll && s.pipe > 0
    ensures From(c, s0, s') && s' == s.(phase := Serving, pipe := s.pipe - 1)
  {
    Go(c, s0, s, EnterRead);
    var s1 := Next(c, s, EnterRead);
    Go(c, s0, s1, ReadByte);
    s' := Next(c, s1, ReadByte);
  }

  ghost predicate SameWorkers(s: State, s': State) {
    s'.workers == s.workers && s'.workerQ == s.workerQ && s'.drops == s.drops &&
    s'.rejected == s.rejected && s'.lost == s.lost && s'.accepted == s.accepted
  }

  lemma NobodyPushed(s: State)
    requires Counted(s) && Pushed !in s.workers && s.phase == Serving && s.resultQ.stat == 0
    ensures s.resultQ.items == []
  {
    TotalZero(OwesPostResult, s.workers);
  }

  /** The next step of that loop. */
  lemma ServeOne(c: Config, s0: State, s: State) returns (l: Step)
    requires From(c, s0, s) && Served(s) && s.phase != Poll
    ensures Enabled(c, s, l) && Internal(l) && From(c, s0, Next(c, s, l)) && Regular(c, s, l)
    ensures Served(Next(c, s, l)) && SameWorkers(s, Next(c, s, l))
    ensures Next(c, s, l).phase == Poll ==> Next(c, s, l).pipe == 0
  {
    FromInv(c, s0, s);
    l := match s.phase
         case Reading => if s.pipe > 0 then ReadByte else ReadEmpty
         case Serving => if s.resultQ.stat > 0 then TryWaitOk else TryWaitFail
         case Taking => TakeResult
         case Handling(_) => Handle
         case _ => if FrontReady(s.main) then Publish else DrainDone;
    Go(c, s0, s, l);
    if l.TryWaitFail? {
      NobodyPushed(s);
    }
  }

  /** Left to itself the main thread serves everything, reads the pipe empty and goes back to polling. */
  lemma {:induction false} MainReturns(c: Config, s0: State, s: State) returns (s': State)
    requires From(c, s0, s) && Served(s) && s.phase != Poll
    ensures From(c, s0, s') && SameWorkers(s, s')
    ensures s'.phase == Poll && s'.pipe == 0 && s'.resultQ.items == []
    decreases Weight(s)
  {
    var l := ServeOne(c, s0, s);
    InternalStepsLeaveLess(c, s, l);
    s' := Next(c, s, l);
    if s'.phase != Poll {
      s' := MainReturns(c, s0, s');
    }
  }

  /** Nothing queued, running, or waiting for its ack. */
  ghost predicate Cleared(s: State) {
    s.phase == Poll && s.pipe == 0 && s.workerQ == Queue([], 0) && s.resultQ.items == [] && s.main.fifo == []
  }

  /** With nothing in flight at the end, that has emptied the FIFO. */
  lemma MainClears(c: Config, s0: State, s: State) returns (s': State)
    requires From(c, s0, s) && Served(s) && s.phase != Poll
    requires s.workerQ == Queue([], 0) && forall w :: 0 <= w < |s.workers| ==> !s.workers[w].Running?
    ensures From(c, s0, s') && SameWorkers(s, s') && Cleared(s')
  {
    s' := MainReturns(c, s0, s);
    FromInv(c, s0, s');
    if s'.main.fifo != [] {
      UnreadyFrontIsAwaited(s');
      NothingInFlight(s', s'.main.fifo[0].envelope.uuid);
    }
  }

  lemma TakesNothing(c: Config, s: State, l: Step)
    requires Enabled(c, s, l) && Internal(l)
    ensures Next(c, s, l).accepted == s.accepted && Next(c, s, l).rejected == s.rejected && Next(c, s, l).lost == s.lost
  {
  }

  /** Left to themselves the threads come to rest. */
  lemma {:induction false} ComeToRest(c: Config, s0: State, s: State) returns (s': State)
    requires From(c, s0, s)
    ensures From(c, s0, s') && AtRest(s')
    ensures s'.accepted == s.accepted && s'.rejected == s.rejected && s'.lost == s.lost
    decreases Weight(s)
  {
    s' := s;
    FromInv(c, s0, s);
    if !AtRest(s) {
      MovesUnlessAtRest(c, s);
      var l :| Internal(l) && Enabled(c, s, l);
      Go(c, s0, s, l);
      InternalStepsLeaveLess(c, s, l);
      TakesNothing(c, s, l);
      s' := ComeToRest(c, s0, Next(c, s, l));
    }
  }
}
