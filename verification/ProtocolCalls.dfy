/**
 The main thread's calls as runs of its steps: with no worker in between, the steps of one
 `send_msg` compute `SendAll` and the steps of one `consume_msg` compute `ConsumeAll`.
 */
module ProtocolCalls {
  import opened BlockQueues
  import opened TaskRunners
  import opened Ledgers
  import opened Serving
  import opened Receiving
  import opened Protocol
  import opened ProtocolSteps

  /** Some run, of the main thread alone if so asked, leads from s0 to s. */
  ghost predicate Leads(c: Config, s0: State, s: State, alone: bool) {
    exists ss: seq<State>, ls: seq<Step> :: LeadsBy(c, ss, ls, s0, s, alone)
  }

  ghost predicate LeadsBy(c: Config, ss: seq<State>, ls: seq<Step>, s0: State, s: State, alone: bool) {
    && IsRun(c, ss, ls) && ss[0] == s0 && ss[|ls|] == s
    && (alone ==> forall i :: 0 <= i < |ls| ==> !ByWorker(ls[i]))
  }

  lemma LeadsToSelf(c: Config, s: State, alone: bool)
    ensures Leads(c, s, s, alone)
  {
    assert LeadsBy(c, [s], [], s, s, alone);
  }

  lemma Do(c: Config, s0: State, s: State, l: Step, alone: bool)
    requires Leads(c, s0, s, alone) && Enabled(c, s, l) && (alone ==> !ByWorker(l))
    ensures Leads(c, s0, Next(c, s, l), alone)
  {
    var ss, ls :| LeadsBy(c, ss, ls, s0, s, alone);
    DoBy(c, ss, ls, s0, s, l, alone);
  }

  lemma DoBy(c: Config, ss: seq<State>, ls: seq<Step>, s0: State, s: State, l: Step, alone: bool)
    requires LeadsBy(c, ss, ls, s0, s, alone) && Enabled(c, s, l) && (alone ==> !ByWorker(l))
    ensures LeadsBy(c, ss + [Next(c, s, l)], ls + [l], s0, Next(c, s, l), alone)
  {
  }

  // ---- sending ----

  /** The parts that publishing leaves alone. */
  ghost predicate SameAround(s: State, s': State) {
    s'.workerQ == s.workerQ && s'.workers == s.workers && s'.resultQ == s.resultQ && s'.pipe == s.pipe
  }

  lemma {:induction false} DrainSteps(c: Config, s0: State, s: State) returns (s': State)
    requires Leads(c, s0, s, true) && s.phase == Draining && Orderly(s.main)
    ensures Leads(c, s0, s', true) && s'.phase == Draining && SameAround(s, s')
    ensures s'.main == Drain(s.main, c.runners) && !FrontReady(s'.main) && Orderly(s'.main)
    decreases |s.main.fifo|
  {
    s' := s;
    if FrontReady(s.main) {
      PublishKeepsOrderly(s.main, c.runners);
      Do(c, s0, s, Publish, true);
      var s1 := Next(c, s, Publish);
      s' := DrainSteps(c, s0, s1);
    }
  }

  /** From a look at the result queue to the result in hand. */
  lemma TakeSteps(c: Config, s0: State, s: State) returns (s': State)
    requires Leads(c, s0, s, true) && s.phase == Phase.Serving && s.resultQ.stat > 0 && s.resultQ.items != []
    ensures Leads(c, s0, s', true)
    ensures s' == s.(phase := Handling(s.resultQ.items[0]), resultQ := Queue(s.resultQ.items[1..], s.resultQ.stat - 1))
  {
    Do(c, s0, s, TryWaitOk, true);
    var s1 := Next(c, s, TryWaitOk);
    Do(c, s0, s1, TakeResult, true);
    s' := Next(c, s1, TakeResult);
  }

  /** Serving one settled and filed result. */
  lemma ServeSteps(c: Config, s0: State, s: State) returns (s': State)
    requires Leads(c, s0, s, true) && s.phase.Handling? && Orderly(s.main)
    requires !NeedsRun(s.phase.job.task) && s.phase.job.task.uuid in s.main.index
    ensures Leads(c, s0, s', true) && s'.phase == Phase.Serving && SameAround(s, s')
    ensures s'.main == Served(s.main, c.runners, s.phase.job) && Orderly(s'.main)
  {
    ParkKeepsOrderly(s.main, s.phase.job);
    Do(c, s0, s, Handle, true);
    var s1 := Next(c, s, Handle);
    var s2 := DrainSteps(c, s0, s1);
    Do(c, s0, s2, DrainDone, true);
    s' := Next(c, s2, DrainDone);
  }

  /** Sending a compiled task back to the workers. */
  lemma AppendSteps(c: Config, s0: State, s: State) returns (s': State)
    requires Leads(c, s0, s, true) && s.phase.Handling? && NeedsRun(s.phase.job.task)
    ensures Leads(c, s0, s', true) && s'.phase == Reading && s'.main == s.main && s'.resultQ == s.resultQ
    ensures s'.workerQ.items == Emplaced(s.workerQ.items, c.runners, s.phase.job)
  {
    Do(c, s0, s, Handle, true);
    s' := Next(c, s, Handle);
    if s'.phase == AppendingRerun {
      var s1 := s';
      Do(c, s0, s1, PostRerun, true);
      s' := Next(c, s1, PostRerun);
    }
  }

  /** s' is where one call of `send_msg` leaves s. */
  ghost predicate IsSent(c: Config, s: State, s': State) {
    var r := SendAll(s.main, c.runners, false, s.resultQ.items, s.workerQ.items);
    && s'.main == r.main && s'.resultQ.items == r.results && s'.workerQ.items == r.work
    && s'.phase == if r.ending == NotFound then Exited else Reading
  }

  /** Main result on sending: the steps that follow a byte read compute `SendAll`, whatever the uuids. */
  lemma {:induction false} SendingStepsSendAll(c: Config, s0: State, s: State) returns (s': State)
    requires Leads(c, s0, s, true) && s.phase == Phase.Serving && s.resultQ.stat == |s.resultQ.items| && Orderly(s.main)
    ensures Leads(c, s0, s', true) && IsSent(c, s, s')
    decreases |s.resultQ.items|
  {
    if s.resultQ.items == [] {
      Do(c, s0, s, TryWaitFail, true);
      s' := Next(c, s, TryWaitFail);
    } else {
      var j := s.resultQ.items[0];
      var s1 := TakeSteps(c, s0, s);
      if NeedsRun(j.task) {
        s' := AppendSteps(c, s0, s1);
      } else if j.task.uuid !in s.main.index {
        Do(c, s0, s1, Handle, true);
        s' := Next(c, s1, Handle);
      } else {
        var s2 := ServeSteps(c, s0, s1);
        s' := SendingStepsSendAll(c, s0, s2);
      }
    }
  }

  // ---- receiving ----

  /** The messages have tests or not, and tags that ascend from the last one seen. */
  ghost predicate Coming(s: State, inbox: seq<Delivery>) {
    && (forall i :: 0 <= i < |inbox| ==> inbox[i].tag > s.lastTag)
    && (forall i, k :: 0 <= i < k < |inbox| ==> inbox[i].tag < inbox[k].tag)
  }

  /** A runner is taken and a message accepted with it. */
  lemma AcceptSteps(c: Config, s0: State, s: State, d: Delivery, alone: bool) returns (s': State)
    requires Leads(c, s0, s, alone) && s.phase == Consuming && s.main.free != [] && d.tests >= 0 && d.tag > s.lastTag
    ensures Leads(c, s0, s', alone) && s'.phase == Consuming
    ensures s'.main == AddToMap(TakeFree(s.main), c.prefetch, d) && s'.lastTag == d.tag
    ensures s'.workerQ.items == Emplaced(s.workerQ.items, c.runners, Job(s.main.free[0], InitialTask(d)))
    ensures s'.workerQ.stat == s.workerQ.stat + if Admits(|s.workerQ.items|, c.runners) then 1 else 0
    ensures s'.accepted == s.accepted + [d] && s'.workers == s.workers && s'.resultQ == s.resultQ
    ensures s'.pipe == s.pipe && s'.given == s.given
  {
    Do(c, s0, s, TakeRunner, alone);
    var s1 := Next(c, s, TakeRunner);
    Do(c, s0, s1, Accept(d), alone);
    s' := Next(c, s1, Accept(d));
    if s'.phase == AppendingFresh {
      var s2 := s';
      Do(c, s0, s2, PostFresh, alone);
      s' := Next(c, s2, PostFresh);
    }
  }

  /** s' is where one call of `consume_msg` leaves s, with these messages ready. */
  ghost predicate IsConsumed(c: Config, s: State, inbox: seq<Delivery>, s': State) {
    var r := ConsumeAll(s.main, c.runners, c.prefetch, inbox, s.workerQ.items);
    s'.main == r.main && s'.workerQ.items == r.work && s'.phase == Poll
  }

  /** The last turn of the loop. */
  lemma StopSteps(c: Config, s0: State, s: State, inbox: seq<Delivery>) returns (s': State)
    requires Leads(c, s0, s, true) && s.phase == Consuming && Coming(s, inbox)
    requires s.main.free == [] || inbox == [] || inbox[0].tests < 0
    ensures Leads(c, s0, s', true) && IsConsumed(c, s, inbox, s')
  {
    Do(c, s0, s, TakeRunner, true);
    s' := Next(c, s, TakeRunner);
    if s.main.free != [] {
      var s1 := s';
      var l := if inbox == [] then Step.NoMessage else Reject(inbox[0]);
      Do(c, s0, s1, l, true);
      s' := Next(c, s1, l);
    }
  }

  /** Main result on receiving: the steps of one turn to the socket compute `ConsumeAll`, whatever the
      broker has ready. */
  lemma {:induction false} ReceivingStepsConsumeAll(c: Config, s0: State, s: State, inbox: seq<Delivery>) returns (s': State)
    requires Leads(c, s0, s, true) && s.phase == Consuming && Coming(s, inbox)
    ensures Leads(c, s0, s', true) && IsConsumed(c, s, inbox, s')
    decreases |inbox|
  {
    if s.main.free == [] || inbox == [] || inbox[0].tests < 0 {
      s' := StopSteps(c, s0, s, inbox);
    } else {
      var s1 := AcceptSteps(c, s0, s, inbox[0], true);
      s' := ReceivingStepsConsumeAll(c, s0, s1, inbox[1..]);
    }
  }
}
