/**
 What the dispatcher does when the broker sends a message whose uuid is still in flight.  The index
 keeps its first entry, so the newcomer's node can never be marked finished: in-order release then
 holds it, and everything behind it, back for ever.
 */
module ProtocolDuplicates {
  import opened Options
  import opened BlockQueues
  import opened TaskRunners
  import opened Ledgers
  import opened Protocol
  import opened ProtocolSteps
  import opened ProtocolRuns

  ghost predicate Unfiled(m: Ledger, n: Node) {
    !n.finished && !(n.envelope.uuid in m.index && m.index[n.envelope.uuid] == n.envelope.tag)
  }

  /** The message with tag t waits in the FIFO, unfinished, and the index does not lead to it. */
  ghost predicate Shadowed(s: State, t: nat) {
    exists k :: 0 <= k < |s.main.fifo| && s.main.fifo[k].envelope.tag == t && Unfiled(s.main, s.main.fifo[k])
  }

  /** What any run keeps, however the outside behaves. */
  ghost predicate Kempt(s: State) {
    Orderly(s.main) && Below(s.main, s.lastTag + 1)
  }

  lemma KemptStep(c: Config, s: State, l: Step)
    requires Enabled(c, s, l) && Kempt(s)
    ensures Kempt(Next(c, s, l))
  {
    if l.Accept? {
      assert Below(s.main, l.d.tag);
      AddKeepsOrderly(s.main, c.prefetch, l.d);
      BelowAfterAdd(s.main, c.prefetch, l.d, l.d.tag + 1);
    } else if l.Handle? {
      if s.phase.job.task.uuid in s.main.index {
        ParkKeepsOrderly(s.main, s.phase.job);
      }
    } else if l.Publish? {
      PublishKeepsOrderly(s.main, c.runners);
    } else {
      KemptSame(c, s, l);
    }
  }

  lemma KemptSame(c: Config, s: State, l: Step)
    requires Enabled(c, s, l) && Kempt(s) && !l.Accept? && !l.Handle? && !l.Publish?
    ensures Kempt(Next(c, s, l))
  {
    OthersKeepFifo(c, s, l);
    var m, m' := s.main, Next(c, s, l).main;
    forall k | 0 <= k < |m'.fifo|
      ensures NodeOrderly(m', m'.fifo[k])
    {
      assert NodeOrderly(m, m.fifo[k]);
    }
  }

  lemma ShadowPublish(c: Config, s: State, t: nat)
    requires s.phase == Draining && FrontReady(s.main) && Kempt(s) && Shadowed(s, t)
    ensures Shadowed(DoPublish(c, s), t)
  {
  }

  lemma ShadowAccept(c: Config, s: State, d: Delivery, t: nat)
    requires s.phase.Holding? && d.tag > s.lastTag && Kempt(s) && Shadowed(s, t)
    ensures Shadowed(DoAccept(c, s, d), t)
  {
    var s' := DoAccept(c, s, d);
    var k :| 0 <= k < |s.main.fifo| && s.main.fifo[k].envelope.tag == t && Unfiled(s.main, s.main.fifo[k]);
    assert s'.main.fifo[k] == s.main.fifo[k];
  }

  lemma ShadowHandle(c: Config, s: State, t: nat)
    requires s.phase.Handling? && Kempt(s) && Shadowed(s, t)
    ensures Shadowed(DoHandle(c, s), t)
  {
    var s' := DoHandle(c, s);
    var k :| 0 <= k < |s.main.fifo| && s.main.fifo[k].envelope.tag == t && Unfiled(s.main, s.main.fifo[k]);
    assert NodeOrderly(s.main, s.main.fifo[k]);
    assert s'.main.fifo[k] == s.main.fifo[k];
  }

  lemma OthersKeepFifo(c: Config, s: State, l: Step)
    requires Enabled(c, s, l) && !l.Accept? && !l.Handle? && !l.Publish?
    ensures Next(c, s, l).main.fifo == s.main.fifo && Next(c, s, l).main.index == s.main.index
    ensures Next(c, s, l).main.acks == s.main.acks && Next(c, s, l).lastTag >= s.lastTag
  {
  }

  lemma ShadowStep(c: Config, s: State, l: Step, t: nat)
    requires Enabled(c, s, l) && Kempt(s) && Shadowed(s, t)
    ensures Shadowed(Next(c, s, l), t)
  {
    if l.Accept? {
      ShadowAccept(c, s, l.d, t);
    } else if l.Handle? {
      ShadowHandle(c, s, t);
    } else if l.Publish? {
      ShadowPublish(c, s, t);
    } else {
      OthersKeepFifo(c, s, l);
    }
  }

  lemma {:induction false} KemptAlways(c: Config, ss: seq<State>, ls: seq<Step>, k: nat)
    requires IsRun(c, ss, ls) && ss[0] == Init(c) && k < |ss|
    ensures Kempt(ss[k])
  {
    if k > 0 {
      KemptAlways(c, ss, ls, k - 1);
      KemptStep(c, ss[k - 1], ls[k - 1]);
    }
  }

  lemma {:induction false} ShadowAlways(c: Config, ss: seq<State>, ls: seq<Step>, i: nat, k: nat, t: nat)
    requires IsRun(c, ss, ls) && i <= k < |ss|
    requires Kempt(ss[i]) && Shadowed(ss[i], t)
    ensures Kempt(ss[k]) && Shadowed(ss[k], t)
  {
    if i < k {
      ShadowAlways(c, ss, ls, i, k - 1, t);
      KemptStep(c, ss[k - 1], ls[k - 1]);
      ShadowStep(c, ss[k - 1], ls[k - 1], t);
    }
  }

  /** A message just accepted is out of the index's reach exactly when its uuid was in flight. */
  lemma ShadowedIffDuplicate(c: Config, s: State, d: Delivery)
    requires Enabled(c, s, Accept(d)) && Kempt(s) && Admits(|s.main.fifo|, c.prefetch)
    ensures Shadowed(Next(c, s, Accept(d)), d.tag) <==> d.uuid in s.main.index
  {
    var s', n := Next(c, s, Accept(d)), |s.main.fifo|;
    assert s'.main.fifo[n] == Node(d, false, None);
    if d.uuid in s.main.index {
      assert s.main.index[d.uuid] <= s.lastTag;
      assert Unfiled(s'.main, s'.main.fifo[n]);
    }
  }

  /** Main result: in every run, however the outside behaves, a message accepted while its uuid is
      in flight stays in the FIFO, unfinished, and neither it nor any later message is ever acked. */
  lemma DuplicateIsNeverReleased(c: Config, ss: seq<State>, ls: seq<Step>, i: nat, k: nat)
    requires IsRun(c, ss, ls) && ss[0] == Init(c) && i < k < |ss|
    requires ls[i].Accept? && ls[i].d.uuid in ss[i].main.index && Admits(|ss[i].main.fifo|, c.prefetch)
    ensures Shadowed(ss[k], ls[i].d.tag)
    ensures forall a :: a in ss[k].main.acks ==> a < ls[i].d.tag
  {
    var t := ls[i].d.tag;
    KemptAlways(c, ss, ls, i);
    KemptStep(c, ss[i], ls[i]);
    ShadowedIffDuplicate(c, ss[i], ls[i].d);
    ShadowAlways(c, ss, ls, i + 1, k, t);
    var n :| 0 <= n < |ss[k].main.fifo| && ss[k].main.fifo[n].envelope.tag == t && Unfiled(ss[k].main, ss[k].main.fifo[n]);
    assert NodeOrderly(ss[k].main, ss[k].main.fifo[n]);
  }

  /** One message is in flight, and the receive loop has a runner for another. */
  lemma SecondRunnerInHand(c: Config) returns (s: State)
    requires Sound(c) && c.prefetch >= 2
    ensures From(c, Init(c), s) && s.phase.Holding? && |s.main.fifo| == 1 && |Uncovered(s)| == 0
  {
    var s0 := Init(c);
    FromInit(c);
    InitHasRoom(c);
    var s1 := StartReceiving(c, s0, s0);
    RoomLeft(c, s0, s1, 0, c.prefetch);
    var s2 := AcceptOne(c, s0, s1);
    RoomLeft(c, s1, s2, 1, c.prefetch - 1);
    s := TakeOne(c, s0, s2);
    assert Uncovered(s) == Uncovered(s2);
  }

  lemma FrontIsFiled(c: Config, s0: State, s: State)
    requires From(c, s0, s) && s.main.fifo != []
    ensures s.main.fifo[0].envelope.uuid in s.main.index
  {
    FromInv(c, s0, s);
    assert NodeFiled(s.main.index, s.main.fifo[0]);
  }

  lemma WindowStillOpen(c: Config, s0: State, s: State)
    requires From(c, s0, s) && |s.main.fifo| + |Uncovered(s)| < c.prefetch
    ensures |Outstanding(s)| < c.prefetch
  {
    FromInv(c, s0, s);
    OutstandingIs(s);
  }

  lemma AnyRunGrows(c: Config, ss: seq<State>, ls: seq<Step>, l: Step)
    requires IsRun(c, ss, ls) && Enabled(c, ss[|ls|], l)
    ensures IsRun(c, ss + [Next(c, ss[|ls|], l)], ls + [l])
  {
  }

  /** After a courteous run a broker that keeps to its window may send d, whose uuid is in flight. */
  ghost predicate SendsDuplicate(c: Config, ss: seq<State>, ls: seq<Step>, d: Delivery) {
    && IsCourteousRun(c, ss, ls) && Enabled(c, ss[|ls|], Accept(d))
    && |Outstanding(ss[|ls|])| < c.prefetch && d.uuid in ss[|ls|].main.index
  }

  lemma NoneInFlight(c: Config, ss: seq<State>, ls: seq<Step>)
    requires IsCourteousRun(c, ss, ls) && |Outstanding(ss[|ls|])| < 1
    ensures ss[|ls|].main.index == map[]
  {
    InvAlways(c, ss, ls, |ls|);
    FifoFitsWindow(ss[|ls|]);
  }

  /** Main result: a message whose uuid is in flight can come within the window exactly when the
      window is two or more. */
  lemma DuplicateCanComeIff(c: Config)
    requires Sound(c)
    ensures (exists ss: seq<State>, ls: seq<Step>, d: Delivery :: SendsDuplicate(c, ss, ls, d)) <==> c.prefetch >= 2
  {
    if c.prefetch >= 2 {
      var s := SecondRunnerInHand(c);
      FrontIsFiled(c, Init(c), s);
      WindowStillOpen(c, Init(c), s);
      var d := Delivery(s.lastTag + 1, s.main.fifo[0].envelope.uuid, 0, 0, 1);
      var ss: seq<State>, ls: seq<Step> :| IsPoliteRun(c, ss, ls) && ss[0] == Init(c) && ss[|ls|] == s;
      assert SendsDuplicate(c, ss, ls, d);
    } else {
      forall ss: seq<State>, ls: seq<Step>, d: Delivery | IsCourteousRun(c, ss, ls) && |Outstanding(ss[|ls|])| < c.prefetch
        ensures !SendsDuplicate(c, ss, ls, d)
      {
        NoneInFlight(c, ss, ls);
      }
    }
  }

  /** Under every configuration with a window of two or more there is a run that gets there, within
      that window. */
  lemma DuplicateCanHappen(c: Config) returns (ss: seq<State>, ls: seq<Step>, d: Delivery)
    requires Sound(c) && c.prefetch >= 2
    ensures IsRun(c, ss, ls) && ss[0] == Init(c) && ls != [] && ls[|ls| - 1] == Accept(d)
    ensures d.uuid in ss[|ls| - 1].main.index && Admits(|ss[|ls| - 1].main.fifo|, c.prefetch)
    ensures |ss[|ls|].main.fifo| <= c.prefetch
  {
    var s := SecondRunnerInHand(c);
    FrontIsFiled(c, Init(c), s);
    d := Delivery(s.lastTag + 1, s.main.fifo[0].envelope.uuid, 0, 0, 1);
    var ss0: seq<State>, ls0: seq<Step> :| IsPoliteRun(c, ss0, ls0) && ss0[0] == Init(c) && ss0[|ls0|] == s;
    AnyRunGrows(c, ss0, ls0, Accept(d));
    ss, ls := ss0 + [DoAccept(c, s, d)], ls0 + [Accept(d)];
  }
}
