/** No message gets stuck: once the broker stops sending, the dispatcher comes to rest, and at rest
    every accepted message has been published and acked. */
module ProtocolProgress {
  import opened Options
  import opened Sums
  import opened TaskRunners
  import opened Ledgers
  import opened Protocol
  import opened ProtocolInvariant
  import opened ProtocolSteps
  import opened ProtocolSafety

  /** Every step but those the broker decides: turning to the socket, and what it hands over. */
  predicate Internal(l: Step) {
    !l.EnterConsume? && !l.Accept? && !l.Reject?
  }

  // ---- the work that is left ----

  ghost function PcWeight(pc: Pc): nat {
    match pc
    case Running(_) => 20
    case Pushed => 12
    case Posted => 8
    case _ => 0
  }

  ghost function PhaseWork(p: Phase, pipe: nat): nat {
    match p
    case AppendingFresh => 6
    case Reading => 1
    case Serving => 3
    case Taking => 3
    case Handling(_) => 8
    case Draining => 7
    case AppendingRerun => 0
    case Exited => 0
    case _ => if pipe > 0 then 2 else 0
  }

  /** The work that the messages at hand still take. */
  ghost function Work(s: State): nat {
    40 * |s.workerQ.items| + s.workerQ.stat + Total(PcWeight, s.workers) +
    6 * |s.resultQ.items| + s.resultQ.stat + 3 * s.pipe + |s.main.fifo| + PhaseWork(s.phase, s.pipe)
  }

  /** With the rest of a turn to the socket that has begun. */
  ghost function Weight(s: State): nat {
    Work(s) + if s.phase == Consuming then 2 else if s.phase.Holding? then 1 else 0
  }

  /** No message is handed over. */
  predicate BringsNothing(l: Step) {
    !l.Accept? && !l.Reject?
  }

  /** A step of a turn to the socket that brings nothing. */
  predicate InVain(l: Step) {
    l.EnterConsume? || l.TakeRunner? || l.NoMessage?
  }

  lemma WorkersLeaveLess(c: Config, s: State, l: Step)
    requires Enabled(c, s, l) && Regular(c, s, l) && ByWorker(l)
    ensures Work(Next(c, s, l)) < Work(s)
  {
    TotalUpdate(PcWeight, s.workers, l.w, Next(c, s, l).workers[l.w]);
  }

  lemma MainLeavesLess(c: Config, s: State, l: Step)
    requires Enabled(c, s, l) && Regular(c, s, l) && BringsNothing(l) && !ByWorker(l)
    ensures Work(Next(c, s, l)) <= Work(s) && (!InVain(l) ==> Work(Next(c, s, l)) < Work(s))
  {
  }

  /** Every step that brings no message leaves less work, but for the steps of a turn to the socket in
      vain, which leave as much. */
  lemma StepsLeaveLess(c: Config, s: State, l: Step)
    requires Enabled(c, s, l) && Regular(c, s, l) && BringsNothing(l)
    ensures Work(Next(c, s, l)) <= Work(s) && (!InVain(l) ==> Work(Next(c, s, l)) < Work(s))
  {
    if ByWorker(l) {
      WorkersLeaveLess(c, s, l);
    } else {
      MainLeavesLess(c, s, l);
    }
  }

  lemma TurnsEnd(c: Config, s: State, l: Step)
    requires Enabled(c, s, l) && Regular(c, s, l) && Internal(l)
    ensures Next(c, s, l).phase == Consuming ==> l.PostFresh? || ByWorker(l)
    ensures s.phase.Holding? && Next(c, s, l).phase.Holding? ==> ByWorker(l)
    ensures l.TakeRunner? ==> Work(Next(c, s, l)) == Work(s) && s.phase == Consuming && Next(c, s, l).phase != Consuming
    ensures l.NoMessage? ==> Work(Next(c, s, l)) == Work(s) && s.phase.Holding? && Next(c, s, l).phase == Poll
  {
  }

  /** Every step but the turn to the socket itself leaves less. */
  lemma InternalStepsLeaveLess(c: Config, s: State, l: Step)
    requires Enabled(c, s, l) && Regular(c, s, l) && Internal(l)
    ensures Weight(Next(c, s, l)) < Weight(s)
  {
    if l.PostFresh? {
      assert Work(Next(c, s, l)) <= Work(s) - 3;
    } else {
      StepsLeaveLess(c, s, l);
      TurnsEnd(c, s, l);
    }
  }

  // ---- something can always move ----

  /** At rest: nothing queued, nobody busy, nothing in the pipe, nothing awaiting its ack. */
  ghost predicate AtRest(s: State) {
    && s.phase == Poll && s.pipe == 0 && s.main.fifo == []
    && s.workerQ.items == [] && s.resultQ.items == []
    && (forall w :: 0 <= w < |s.workers| ==> s.workers[w] == Idle)
  }

  ghost predicate CanMove(c: Config, s: State) {
    exists l :: Internal(l) && Enabled(c, s, l)
  }

  lemma MainCanMove(c: Config, s: State)
    requires Shape(c, s) && (s.phase != Poll || s.pipe > 0)
    ensures CanMove(c, s)
  {
    var l :=
      match s.phase
      case Poll => EnterRead
      case Consuming => TakeRunner
      case Holding(_) => NoMessage
      case AppendingFresh => PostFresh
      case Reading => if s.pipe > 0 then ReadByte else ReadEmpty
      case Serving => if s.resultQ.stat > 0 then TryWaitOk else TryWaitFail
      case Taking => TakeResult
      case Handling(_) => Handle
      case _ => if FrontReady(s.main) then Publish else DrainDone;
    assert Internal(l) && Enabled(c, s, l);
  }

  lemma WorkerCanMove(c: Config, s: State, w: nat)
    requires Shape(c, s) && w < |s.workers| && (s.workers[w] != Idle || s.workerQ.stat > 0)
    ensures CanMove(c, s)
  {
    var l :=
      match s.workers[w]
      case Waited => PopJob(w)
      case Running(_) => Finish(w, Outcome(None, RunResult(true, "", [], 0, 0.0)))
      case Pushed => PostResult(w)
      case Posted => Notify(w)
      case _ => WaitJob(w);
    assert Internal(l) && Enabled(c, s, l);
  }

  /** With every thread idle, the semaphores count their queues and nothing announces a result. */
  lemma IdleThreads(c: Config, s: State)
    requires Sound(c) && Inv(c, s) && s.phase == Poll && s.pipe == 0
    requires forall w :: 0 <= w < |s.workers| ==> s.workers[w] == Idle
    ensures s.resultQ.items == [] && |s.workerQ.items| == s.workerQ.stat
  {
    TotalZero(OwesPopJob, s.workers);
    TotalZero(OwesNotify, s.workers);
  }

  lemma IdleFifoIsEmpty(c: Config, s: State)
    requires Inv(c, s) && s.phase == Poll && s.workerQ.items == [] && s.resultQ.items == []
    requires forall w :: 0 <= w < |s.workers| ==> s.workers[w] == Idle
    ensures s.main.fifo == []
  {
    if s.main.fifo != [] {
      UnreadyFrontIsAwaited(s);
      NothingInFlight(s, s.main.fifo[0].envelope.uuid);
    }
  }

  /** Unless it is at rest, the dispatcher has an internal step to take. */
  lemma MovesUnlessAtRest(c: Config, s: State)
    requires Sound(c) && Inv(c, s) && !AtRest(s)
    ensures CanMove(c, s)
  {
    if s.phase != Poll || s.pipe > 0 {
      MainCanMove(c, s);
    } else if w :| 0 <= w < |s.workers| && s.workers[w] != Idle {
      WorkerCanMove(c, s, w);
    } else {
      IdleThreads(c, s);
      if s.workerQ.items != [] {
        WorkerCanMove(c, s, 0);
      } else {
        IdleFifoIsEmpty(c, s);
      }
    }
  }

  // ---- runs ----

  /** Main result: while an accepted message is unpublished, some thread can take a step. */
  lemma NoMessageIsStuck(c: Config, ss: seq<State>, ls: seq<Step>, k: nat)
    requires IsCourteousRun(c, ss, ls) && k < |ss|
    requires |ss[k].main.published| < |ss[k].accepted|
    ensures CanMove(c, ss[k])
  {
    InvAlways(c, ss, ls, k);
    MovesUnlessAtRest(c, ss[k]);
  }

  /** From a state of the invariant, internal steps keep it and use up the work that is left. */
  lemma {:induction false} InternalRunsEnd(c: Config, ss: seq<State>, ls: seq<Step>)
    requires Sound(c) && IsRun(c, ss, ls) && Inv(c, ss[0])
    requires forall k :: 0 <= k < |ls| ==> Internal(ls[k])
    ensures Inv(c, ss[|ls|])
    ensures |ls| + Weight(ss[|ls|]) <= Weight(ss[0])
    ensures ss[|ls|].accepted == ss[0].accepted && ss[|ls|].lost == ss[0].lost
    decreases |ls|
  {
    if ls != [] {
      var n := |ls| - 1;
      assert ss[..|ls|][n] == ss[n];
      InternalRunsEnd(c, ss[..|ls|], ls[..n]);
      CourteousStepsAreRegular(c, ss[n], ls[n]);
      InternalStepsLeaveLess(c, ss[n], ls[n]);
      InvStep(c, ss[n], ls[n]);
      StepsAdmitNobody(c, ss[n], ls[n]);
    }
  }

  /** The steps that are not part of a turn to the socket in vain. */
  ghost function Working(ls: seq<Step>): nat {
    if ls == [] then 0 else Working(ls[..|ls| - 1]) + if InVain(ls[|ls| - 1]) then 0 else 1
  }

  /** Without new messages each such step uses up some of the work left. */
  lemma {:induction false} WorkRunsOut(c: Config, ss: seq<State>, ls: seq<Step>)
    requires Sound(c) && IsRun(c, ss, ls) && Inv(c, ss[0])
    requires forall k :: 0 <= k < |ls| ==> BringsNothing(ls[k])
    ensures Inv(c, ss[|ls|])
    ensures Working(ls) + Work(ss[|ls|]) <= Work(ss[0])
    ensures ss[|ls|].accepted == ss[0].accepted && ss[|ls|].lost == ss[0].lost
    decreases |ls|
  {
    if ls != [] {
      var n := |ls| - 1;
      assert ss[..|ls|][n] == ss[n];
      WorkRunsOut(c, ss[..|ls|], ls[..n]);
      CourteousStepsAreRegular(c, ss[n], ls[n]);
      StepsLeaveLess(c, ss[n], ls[n]);
      InvStep(c, ss[n], ls[n]);
      StepsAdmitNobody(c, ss[n], ls[n]);
    }
  }

  lemma StepsAdmitNobody(c: Config, s: State, l: Step)
    requires Enabled(c, s, l) && BringsNothing(l)
    ensures Next(c, s, l).accepted == s.accepted && Next(c, s, l).lost == s.lost
  {
  }

  /** Main result: after any courteous run, in every way the threads can go on without a new message,
      turns to the socket in vain included, the other steps are no more than the work left; and where
      it polls with nothing to do it has published and acked every accepted message and given back
      every runner that is not lost. */
  lemma EveryRunComesToRestDrained(c: Config, ss: seq<State>, ls: seq<Step>, more: seq<State>, steps: seq<Step>)
    requires IsCourteousRun(c, ss, ls)
    requires IsRun(c, more, steps) && more[0] == ss[|ls|]
    requires forall k :: 0 <= k < |steps| ==> BringsNothing(steps[k])
    ensures Working(steps) + Work(more[|steps|]) <= Work(more[0])
    ensures var s := more[|steps|];
            !CanMove(c, s) ==>
              && |s.main.published| == |s.main.acks| == |s.accepted| == |ss[|ls|].accepted|
              && (forall i :: 0 <= i < |s.accepted| ==> s.main.acks[i] == s.accepted[i].tag)
              && |s.main.free| + |s.lost| == c.runners
  {
    InvAlways(c, ss, ls, |ls|);
    WorkRunsOut(c, more, steps);
    var s := more[|steps|];
    if !CanMove(c, s) {
      if !AtRest(s) {
        MovesUnlessAtRest(c, s);
      } else {
        RestIsDrained(c, s);
      }
    }
  }

  lemma RestIsDrained(c: Config, s: State)
    requires Inv(c, s) && AtRest(s)
    ensures |s.main.published| == |s.accepted| && |s.main.acks| == |s.accepted|
    ensures forall i :: 0 <= i < |s.accepted| ==> s.main.acks[i] == s.accepted[i].tag
    ensures |s.main.free| + |s.lost| == c.runners
  {
    Census(c, s);
    TotalZero(IsBusy, s.workers);
  }
}
