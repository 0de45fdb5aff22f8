/**
 What a message with a negative test count does to the dispatcher: its runner is lost, it stays
 unacked until a later message is acked, and enough such messages end all judging.
 */
module ProtocolRejections {
  import opened Ledgers
  import opened TaskRunners
  import opened Protocol
  import opened ProtocolInvariant
  import opened ProtocolSteps
  import opened ProtocolSafety
  import opened ProtocolProgress
  import opened ProtocolRuns
  import opened ProtocolPipe

  // ---- runners ----

  ghost predicate OneEach(s: State) {
    |s.lost| == |s.rejected| && forall t :: t in s.rejected ==> t <= s.lastTag
  }

  lemma OneEachStep(c: Config, s: State, l: Step)
    requires Enabled(c, s, l) && OneEach(s)
    ensures OneEach(Next(c, s, l))
  {
    OnlyRejectionLosesRunners(c, s, l);
    if l.Reject? {
      assert l.d.tag !in s.rejected;
    }
  }

  /** In every run, however the outside behaves, as many runners are lost as messages were rejected. */
  lemma {:induction false} OneLostForEachRejected(c: Config, ss: seq<State>, ls: seq<Step>, k: nat)
    requires IsRun(c, ss, ls) && ss[0] == Init(c) && k < |ss|
    ensures OneEach(ss[k])
  {
    if k > 0 {
      OneLostForEachRejected(c, ss, ls, k - 1);
      OneEachStep(c, ss[k - 1], ls[k - 1]);
    }
  }

  /** Each message in the FIFO and each rejected one ties up a runner; the main thread may hold one;
      all others are free. */
  lemma MessagesTieUpRunners(c: Config, ss: seq<State>, ls: seq<Step>, k: nat)
    requires IsCourteousRun(c, ss, ls) && k < |ss|
    ensures var s := ss[k];
            |s.main.free| + |s.main.fifo| + If(s.phase.Holding?) + |s.rejected| == c.runners
  {
    InvAlways(c, ss, ls, k);
    Circulation(c, ss[k]);
    OneLostForEachRejected(c, ss, ls, k);
  }

  // ---- acks ----

  /** A rejected message is never published, and an ack covers it exactly when a later message has
      been published. */
  lemma RejectedIsCoveredIffLaterPublished(c: Config, ss: seq<State>, ls: seq<Step>, k: nat, t: nat)
    requires IsCourteousRun(c, ss, ls) && k < |ss| && t in ss[k].rejected
    ensures !IsPublished(ss[k], t)
    ensures Covered(ss[k], t) <==> exists u :: IsPublished(ss[k], u) && t < u
  {
    InvAlways(c, ss, ls, k);
    var s := ss[k];
    ChronicleMakesAcksSafe(s);
    if Covered(s, t) {
      var a :| a in s.main.acks && t <= a;
      var i :| 0 <= i < |s.main.acks| && s.main.acks[i] == a;
      assert s.accepted[i].tag == a && IsPublished(s, a);
    }
    if u :| IsPublished(s, u) && t < u {
      assert Covered(s, u);
    }
  }

  ghost predicate SomeRejectedCovered(s: State) {
    exists t :: t in s.rejected && Covered(s, t)
  }

  /** With a window of one, nothing is accepted after a rejection. */
  ghost predicate RejectedLast(s: State) {
    forall t, i :: t in s.rejected && 0 <= i < |s.accepted| ==> s.accepted[i].tag < t
  }

  lemma RejectedLastMeansUncovered(s: State)
    requires Chronicle(s) && RejectedLast(s)
    ensures !SomeRejectedCovered(s)
  {
    forall t | t in s.rejected
      ensures !Covered(s, t)
    {
      forall a | a in s.main.acks
        ensures a < t
      {
        var i :| 0 <= i < |s.main.acks| && s.main.acks[i] == a;
        assert s.accepted[i].tag == a;
      }
    }
  }

  lemma RejectedLastStep(c: Config, s: State, l: Step)
    requires Inv(c, s) && Enabled(c, s, l) && Courteous(c, s, l) && c.prefetch == 1 && RejectedLast(s)
    ensures RejectedLast(Next(c, s, l))
  {
    if l.Accept? {
      RejectedLastMeansUncovered(s);
      OutstandingIs(s);
      assert forall t :: t in s.rejected ==> t in Uncovered(s);
      assert Uncovered(s) == {};
    } else {
      OthersAcceptNone(c, s, l);
    }
  }

  lemma OthersAcceptNone(c: Config, s: State, l: Step)
    requires Enabled(c, s, l) && !l.Accept?
    ensures Next(c, s, l).accepted == s.accepted
    ensures Next(c, s, l).rejected == if l.Reject? then s.rejected + {l.d.tag} else s.rejected
    ensures l.Reject? ==> l.d.tag > s.lastTag
  {
  }

  lemma {:induction false} RejectedLastAlways(c: Config, ss: seq<State>, ls: seq<Step>, k: nat)
    requires IsCourteousRun(c, ss, ls) && k < |ss| && c.prefetch == 1
    ensures RejectedLast(ss[k])
  {
    if k > 0 {
      RejectedLastAlways(c, ss, ls, k - 1);
      InvAlways(c, ss, ls, k - 1);
      RejectedLastStep(c, ss[k - 1], ls[k - 1]);
    }
  }

  /** With a runner in hand the receive loop gets a message with a negative test count, and returns. */
  lemma RejectInHand(c: Config, s0: State, s: State) returns (s': State)
    requires From(c, s0, s) && s.phase.Holding? && |s.main.fifo| + |Uncovered(s)| < c.prefetch
    ensures From(c, s0, s')
    ensures s' == s.(phase := Poll, rejected := s.rejected + {s.lastTag + 1}, lost := s.lost + [s.phase.runner],
                     lastTag := s.lastTag + 1)
  {
    WindowIsOpen(c, s0, s);
    var reject := Reject(Delivery(s.lastTag + 1, "", 0, 0, -1));
    Go(c, s0, s, reject);
    s' := Next(c, s, reject);
  }

  lemma EnterAndTake(c: Config, s0: State, s: State) returns (s': State)
    requires From(c, s0, s) && s.phase == Poll && RoomFor(c, s, 1)
    ensures s.main.free != [] && s' == s.(main := TakeFree(s.main), phase := Holding(s.main.free[0]))
    ensures From(c, s0, s') && |s'.main.fifo| + |Uncovered(s')| < c.prefetch
  {
    var s1 := StartReceiving(c, s0, s);
    s' := TakeOne(c, s0, s1);
    assert Uncovered(s') == Uncovered(s);
  }

  lemma WindowIsOpen(c: Config, s0: State, s: State)
    requires From(c, s0, s) && |s.main.fifo| + |Uncovered(s)| < c.prefetch
    ensures |Outstanding(s)| < c.prefetch
  {
    FromInv(c, s0, s);
    OutstandingIs(s);
  }

  /** What a turn that ends in a rejection leaves. */
  ghost predicate TurnedAway(s: State, s': State) {
    && s'.phase == Poll && s'.lastTag == s.lastTag + 1 && s'.rejected == s.rejected + {s'.lastTag}
    && |s'.lost| == |s.lost| + 1 && s'.accepted == s.accepted && SameWire(s, s')
    && s'.main.fifo == s.main.fifo && s'.main.acks == s.main.acks
    && s'.workers == s.workers && s'.workerQ == s.workerQ && s'.resultQ == s.resultQ
  }

  lemma IsTurnedAway(s: State, s': State)
    requires s.main.free != []
    requires s' == s.(main := TakeFree(s.main), phase := Poll, rejected := s.rejected + {s.lastTag + 1},
                      lost := s.lost + [s.main.free[0]], lastTag := s.lastTag + 1)
    ensures TurnedAway(s, s')
  {
  }

  lemma RejectOne(c: Config, s0: State, s: State) returns (s': State)
    requires From(c, s0, s) && s.phase == Poll && RoomFor(c, s, 1)
    ensures From(c, s0, s') && TurnedAway(s, s')
  {
    var s1 := EnterAndTake(c, s0, s);
    s' := RejectInHand(c, s0, s1);
    IsTurnedAway(s, s');
  }

  lemma AcksAreOld(s: State)
    requires Chronicle(s)
    ensures forall a :: a in s.main.acks ==> a <= s.lastTag
  {
    forall a | a in s.main.acks
      ensures a <= s.lastTag
    {
      var i :| 0 <= i < |s.main.acks| && s.main.acks[i] == a;
      assert s.accepted[i].tag == a;
    }
  }

  lemma OneMoreUncovered(c: Config, s0: State, s: State, s': State)
    requires From(c, s0, s) && s'.main.acks == s.main.acks && s'.rejected == s.rejected + {s.lastTag + 1}
    ensures |Uncovered(s')| == |Uncovered(s)| + 1
  {
    FromInv(c, s0, s);
    AcksAreOld(s);
    assert Uncovered(s') == Uncovered(s) + {s.lastTag + 1};
  }

  /** One message is rejected, the next one judged and acked. */
  lemma RejectThenAck(c: Config) returns (s: State)
    requires Sound(c) && c.prefetch >= 2
    ensures Reaches(c, Init(c), s) && SomeRejectedCovered(s)
  {
    var s0 := Init(c);
    InitIsStuck(c);
    WindowFitsRunners(c);
    assert Uncovered(s0) == {};
    var s1 := RejectOne(c, s0, s0);
    OneMoreUncovered(c, s0, s0, s1);
    var s2 := Receive(c, s0, s1, 1);
    s := JudgeOneMessage(c, s0, s2);
    FromInv(c, s0, s);
    var t := s1.lastTag;
    assert s.main.acks[0] == s.accepted[0].tag > t;
    assert s.main.acks[0] in s.main.acks && Covered(s, t);
  }

  /** Worker 0 judges the one message there is, and the main thread publishes it. */
  lemma JudgeOneMessage(c: Config, s0: State, s: State) returns (s': State)
    requires From(c, s0, s) && s.phase == Poll && At(s, 0, Idle) && s.pipe == 0
    requires s.workerQ.stat == 1 == |s.workerQ.items| && forall i :: 0 <= i < |s.workers| ==> s.workers[i] == Idle
    ensures From(c, s0, s') && Cleared(s') && s'.rejected == s.rejected && s'.accepted == s.accepted
  {
    var s1 := WorkerPosts(c, s0, s, 0);
    var s2 := WorkerNotifies(c, s0, s1, 0);
    var s3 := ReadOne(c, s0, s2);
    s' := MainClears(c, s0, s3);
  }

  ghost predicate CanCoverRejected(c: Config) {
    exists ss: seq<State>, ls: seq<Step> :: IsCourteousRun(c, ss, ls) && SomeRejectedCovered(ss[|ls|])
  }

  /** Main result: some courteous run acks a message that was rejected unjudged exactly when the
      window is two or more. */
  lemma RejectedCanBeCoveredIff(c: Config)
    requires Sound(c)
    ensures CanCoverRejected(c) <==> c.prefetch >= 2
  {
    if c.prefetch >= 2 {
      var s := RejectThenAck(c);
      var ss: seq<State>, ls: seq<Step> :| IsPoliteRun(c, ss, ls) && ss[0] == Init(c) && ss[|ls|] == s;
      assert IsCourteousRun(c, ss, ls) && SomeRejectedCovered(ss[|ls|]);
    } else {
      forall ss: seq<State>, ls: seq<Step> | IsCourteousRun(c, ss, ls)
        ensures !SomeRejectedCovered(ss[|ls|])
      {
        RejectedLastAlways(c, ss, ls, |ls|);
        InvAlways(c, ss, ls, |ls|);
        RejectedLastMeansUncovered(ss[|ls|]);
      }
    }
  }

  // ---- the end of judging ----

  /** At rest the broker counts exactly the uncovered rejections against its window. */
  lemma OutstandingAtRest(c: Config, ss: seq<State>, ls: seq<Step>, k: nat)
    requires IsCourteousRun(c, ss, ls) && k < |ss| && ss[k].main.fifo == []
    ensures Outstanding(ss[k]) == Uncovered(ss[k])
  {
    InvAlways(c, ss, ls, k);
    OutstandingIs(ss[k]);
  }

  /** The rejected messages that came after every accepted one. */
  ghost function Stranded(s: State): set<nat> {
    set t | t in s.rejected && forall i :: 0 <= i < |s.accepted| ==> s.accepted[i].tag < t
  }

  /** They fill the window, or rejections hold every runner. */
  ghost predicate Shut(c: Config, s: State) {
    |Stranded(s)| >= c.prefetch || |s.lost| == c.runners
  }

  /** Only a message accepted later can get a rejected one acked. */
  lemma StrandedIsUncovered(s: State)
    requires Chronicle(s)
    ensures Stranded(s) <= Uncovered(s)
    ensures s.main.fifo == [] ==> Stranded(s) == Uncovered(s)
  {
    forall t | t in Stranded(s)
      ensures !Covered(s, t)
    {
      forall a | a in s.main.acks
        ensures a < t
      {
        var i :| 0 <= i < |s.main.acks| && s.main.acks[i] == a;
        assert s.accepted[i].tag == a;
      }
    }
    if s.main.fifo == [] {
      PublishedAreCovered(s);
      forall t | t in Uncovered(s)
        ensures t in Stranded(s)
      {
        UncoveredIsStranded(s, t);
      }
    }
  }

  lemma UncoveredIsStranded(s: State, t: nat)
    requires Chronicle(s) && s.main.fifo == [] && t in Uncovered(s)
    ensures t in Stranded(s)
  {
    forall i | 0 <= i < |s.accepted|
      ensures s.accepted[i].tag < t
    {
      assert s.main.acks[i] in s.main.acks && s.main.acks[i] == s.accepted[i].tag;
    }
  }

  lemma NothingToAccept(c: Config, s: State, l: Step)
    requires Inv(c, s) && Enabled(c, s, l) && Courteous(c, s, l) && Shut(c, s)
    ensures !l.Accept?
  {
    OutstandingIs(s);
    StrandedIsUncovered(s);
    SubsetSize(Stranded(s), Uncovered(s));
    Circulation(c, s);
  }

  lemma OthersKeepShut(c: Config, s: State, l: Step)
    requires Enabled(c, s, l) && !l.Accept? && Shut(c, s) && |Next(c, s, l).lost| <= c.runners
    ensures Shut(c, Next(c, s, l))
  {
    OthersAcceptNone(c, s, l);
    OnlyRejectionLosesRunners(c, s, l);
    SubsetSize(Stranded(s), Stranded(Next(c, s, l)));
  }

  lemma ShutStep(c: Config, s: State, l: Step)
    requires Sound(c) && Inv(c, s) && Enabled(c, s, l) && Courteous(c, s, l) && Shut(c, s)
    ensures Inv(c, Next(c, s, l)) && Shut(c, Next(c, s, l)) && Next(c, s, l).accepted == s.accepted
  {
    NothingToAccept(c, s, l);
    InvStep(c, s, l);
    Circulation(c, Next(c, s, l));
    OthersAcceptNone(c, s, l);
    OthersKeepShut(c, s, l);
  }

  /** From then on nothing is accepted in any courteous run. */
  lemma {:induction false} ShutForEver(c: Config, ss: seq<State>, ls: seq<Step>, k: nat)
    requires Sound(c) && IsRun(c, ss, ls) && Inv(c, ss[0]) && Shut(c, ss[0]) && k < |ss|
    requires forall i :: 0 <= i < |ls| ==> Courteous(c, ss[i], ls[i])
    ensures Inv(c, ss[k]) && Shut(c, ss[k]) && ss[k].accepted == ss[0].accepted
  {
    if k > 0 {
      ShutForEver(c, ss, ls, k - 1);
      ShutStep(c, ss[k - 1], ls[k - 1]);
    }
  }

  ghost predicate SameWork(s: State, s': State) {
    s'.accepted == s.accepted && s'.main.published == s.main.published && s'.main.acks == s.main.acks
  }

  lemma NothingIsServed(c: Config, s: State, l: Step)
    requires Enabled(c, s, l) && Regular(c, s, l) && s.main.fifo == [] && !l.Accept?
    ensures SameWork(s, Next(c, s, l)) && Next(c, s, l).main.fifo == []
  {
  }

  lemma EndedStep(c: Config, s: State, l: Step)
    requires Inv(c, s) && Enabled(c, s, l) && Courteous(c, s, l) && Shut(c, s) && s.main.fifo == []
    ensures SameWork(s, Next(c, s, l)) && Next(c, s, l).main.fifo == []
  {
    NothingToAccept(c, s, l);
    CourteousStepsAreRegular(c, s, l);
    NothingIsServed(c, s, l);
  }

  ghost predicate KeepsEnded(s: State, s': State) {
    s.main.fifo == [] ==> SameWork(s, s') && s'.main.fifo == []
  }

  lemma {:induction false} EndedAlong(ss: seq<State>, k: nat)
    requires k < |ss| && ss[0].main.fifo == [] && forall m :: 0 <= m < k ==> KeepsEnded(ss[m], ss[m + 1])
    ensures SameWork(ss[0], ss[k]) && ss[k].main.fifo == []
  {
    if k > 0 {
      EndedAlong(ss, k - 1);
      assert KeepsEnded(ss[k - 1], ss[k - 1 + 1]);
    }
  }

  /** With nothing left to publish, nothing is published or acked either. */
  lemma EndedForEver(c: Config, ss: seq<State>, ls: seq<Step>, k: nat)
    requires Sound(c) && IsRun(c, ss, ls) && Inv(c, ss[0]) && Shut(c, ss[0]) && ss[0].main.fifo == [] && k < |ss|
    requires forall i :: 0 <= i < |ls| ==> Courteous(c, ss[i], ls[i])
    ensures SameWork(ss[0], ss[k]) && ss[k].main.fifo == []
  {
    forall m: nat | m < k
      ensures KeepsEnded(ss[m], ss[m + 1])
    {
      ShutForEver(c, ss, ls, m);
      if ss[m].main.fifo == [] {
        EndedStep(c, ss[m], ls[m]);
      }
    }
    EndedAlong(ss, k);
  }

  ghost predicate CanGoOn(c: Config, s: State) {
    exists s' :: Reaches(c, s, s') && |s'.accepted| > |s.accepted|
  }

  /** At rest there is room for a message unless the dispatcher is shut. */
  lemma RestIsOpen(c: Config, s: State)
    requires Inv(c, s) && AtRest(s) && !Shut(c, s)
    ensures RoomFor(c, s, 1)
  {
    StrandedIsUncovered(s);
    Circulation(c, s);
  }

  /** Main result: in whatever state the invariant allows, a further message can ever be accepted
      exactly when the messages rejected after the last accepted one leave room in the window and
      rejections have not taken every runner. */
  lemma CanGoOnIff(c: Config, s: State)
    requires Sound(c) && Inv(c, s)
    ensures CanGoOn(c, s) <==> |Stranded(s)| < c.prefetch && |s.lost| < c.runners
  {
    Circulation(c, s);
    if Shut(c, s) {
      forall s' | Reaches(c, s, s')
        ensures |s'.accepted| == |s.accepted|
      {
        var ss: seq<State>, ls: seq<Step> :| IsPoliteRun(c, ss, ls) && ss[0] == s && ss[|ls|] == s';
        ShutForEver(c, ss, ls, |ls|);
      }
    } else {
      GoesOn(c, s);
    }
  }

  lemma GoesOn(c: Config, s: State)
    requires Sound(c) && Inv(c, s) && !Shut(c, s)
    ensures CanGoOn(c, s)
  {
    ReachesSelf(c, s);
    var s1 := ComeToRest(c, s, s);
    FromInv(c, s, s1);
    assert Stranded(s1) == Stranded(s);
    RestIsOpen(c, s1);
    var s2 := Receive(c, s, s1, 1);
  }

  lemma {:induction false} RejectSome(c: Config, n: nat) returns (s: State)
    requires Sound(c) && n <= c.prefetch
    ensures From(c, Init(c), s) && s.phase == Poll && s.main.fifo == [] && |Uncovered(s)| == n == |s.lost|
  {
    if n == 0 {
      s := Init(c);
      InitIsStuck(c);
      assert Uncovered(s) == {};
    } else {
      var s1 := RejectSome(c, n - 1);
      WindowFitsRunners(c);
      s := RejectOne(c, Init(c), s1);
      OneMoreUncovered(c, Init(c), s1, s);
    }
  }

  /** As many rejections as the window is wide end all judging, under every configuration. */
  lemma JudgingCanEnd(c: Config) returns (s: State)
    requires Sound(c)
    ensures Reaches(c, Init(c), s) && Inv(c, s) && Shut(c, s) && s.main.fifo == [] && |s.rejected| == c.prefetch
  {
    s := RejectSome(c, c.prefetch);
    FromInv(c, Init(c), s);
    StrandedIsUncovered(s);
    var ss: seq<State>, ls: seq<Step> :| IsPoliteRun(c, ss, ls) && ss[0] == Init(c) && ss[|ls|] == s;
    OneLostForEachRejected(c, ss, ls, |ls|);
  }
}
