/**
 Two submissions under one uuid, judged at the same time: the second one's result is published, and
 acked, as the first one's.
 */
module ProtocolMixUp {
  import opened Options
  import opened BlockQueues
  import opened TaskRunners
  import opened Ledgers
  import opened Protocol
  import opened ProtocolCalls

  const FIRST := Delivery(1, "u", 1, 1, 1)

  const SECOND := Delivery(2, "u", 2, 2, 1)

  ghost predicate Roomy(c: Config) {
    Sound(c) && c.threads >= 2 && c.prefetch >= 2
  }

  lemma FourRunners(c: Config)
    requires Roomy(c)
    ensures c.runners >= 4
  {
    assert c.threads * c.prefetch >= 2 * c.prefetch;
  }

  function FirstJob(): Job { Job(0, InitialTask(FIRST)) }

  function SecondJob(): Job { Job(1, InitialTask(SECOND)) }

  function SecondResult(o: Outcome): Job { Job(1, Judged(InitialTask(SECOND), true, o)) }

  /** Both messages are filed, the index leads to the first, and both jobs are queued. */
  ghost predicate BothQueued(c: Config, s: State) {
    && s.main.fifo == [Node(FIRST, false, None), Node(SECOND, false, None)] && s.main.index == map["u" := 1]
    && s.main.published == [] && s.main.acks == [] && s.accepted == [FIRST, SECOND]
    && s.phase == Poll && s.workerQ == Queue([FirstJob(), SecondJob()], 2) && s.resultQ == Queue([], 0)
    && s.pipe == 0 && |s.workers| == c.threads && forall w :: 0 <= w < c.threads ==> s.workers[w] == Idle
  }

  lemma Stop(c: Config, s0: State, s: State) returns (s': State)
    requires Leads(c, s0, s, false) && s.phase == Consuming
    ensures Leads(c, s0, s', false) && s'.phase == Poll && s' == s.(phase := Poll, main := s'.main, refused := s'.refused)
    ensures s'.main == s.main.(free := s'.main.free)
  {
    Do(c, s0, s, TakeRunner, false);
    s' := Next(c, s, TakeRunner);
    if s.main.free != [] {
      var s1 := s';
      Do(c, s0, s1, Step.NoMessage, false);
      s' := Next(c, s1, Step.NoMessage);
    }
  }

  lemma QueueBoth(c: Config) returns (s: State)
    requires Roomy(c)
    ensures Leads(c, Init(c), s, false) && BothQueued(c, s)
  {
    var s0 := Init(c);
    FourRunners(c);
    LeadsToSelf(c, s0, false);
    Do(c, s0, s0, EnterConsume, false);
    var s1 := Next(c, s0, EnterConsume);
    assert s1.main.free[0] == 0 && s1.main.free[1..][0] == 1;
    var s2 := AcceptSteps(c, s0, s1, FIRST, false);
    var s3 := AcceptSteps(c, s0, s2, SECOND, false);
    s := Stop(c, s0, s3);
  }

  lemma TakeJob(c: Config, s0: State, s: State, w: nat) returns (s': State)
    requires Leads(c, s0, s, false) && At(s, w, Idle) && s.workerQ.stat > 0 && s.workerQ.items != []
    ensures Leads(c, s0, s', false)
    ensures s' == s.(workerQ := Queue(s.workerQ.items[1..], s.workerQ.stat - 1),
                     workers := s.workers[w := Running(s.workerQ.items[0])])
  {
    Do(c, s0, s, WaitJob(w), false);
    var s1 := Next(c, s, WaitJob(w));
    Do(c, s0, s1, PopJob(w), false);
    s' := Next(c, s1, PopJob(w));
    assert s'.workers == s.workers[w := Running(s.workerQ.items[0])];
  }

  /** Both messages are filed, and nothing has been published. */
  ghost predicate BothFiled(s: State) {
    && s.main.fifo == [Node(FIRST, false, None), Node(SECOND, false, None)] && s.main.index == map["u" := 1]
    && s.main.published == [] && s.main.acks == [] && s.accepted == [FIRST, SECOND]
  }

  /** Worker 0 takes the first job and worker 1 the second. */
  lemma TakeBoth(c: Config, s0: State, s: State) returns (s': State)
    requires Roomy(c) && Leads(c, s0, s, false) && BothQueued(c, s)
    ensures Leads(c, s0, s', false) && BothFiled(s') && s'.phase == Poll && s'.resultQ == Queue([], 0) && s'.pipe == 0
    ensures At(s', 1, Running(SecondJob()))
  {
    var s1 := TakeJob(c, s0, s, 0);
    s' := TakeJob(c, s0, s1, 1);
  }

  /** A worker finishes while the result queue is empty, and posts. */
  lemma FinishAndPost(c: Config, s0: State, s: State, w: nat, o: Outcome) returns (s': State)
    requires Leads(c, s0, s, false) && w < |s.workers| && s.workers[w].Running? && s.resultQ == Queue([], 0)
    ensures var j := s.workers[w].job;
            s'.resultQ == Queue([Job(j.runner, Judged(j.task, true, o))], 1)
    ensures Leads(c, s0, s', false) && s'.main == s.main && s'.phase == s.phase && s'.pipe == s.pipe
    ensures s'.accepted == s.accepted && At(s', w, Posted)
  {
    Do(c, s0, s, Finish(w, o), false);
    var s1 := Next(c, s, Finish(w, o));
    Do(c, s0, s1, PostResult(w), false);
    s' := Next(c, s1, PostResult(w));
  }

  /** Worker 1 finishes and writes its byte. */
  lemma SecondFinishes(c: Config, s0: State, s: State, o: Outcome) returns (s': State)
    requires Roomy(c) && Leads(c, s0, s, false) && BothFiled(s) && s.phase == Poll && s.resultQ == Queue([], 0)
    requires s.pipe == 0 && At(s, 1, Running(SecondJob()))
    ensures Leads(c, s0, s', false) && BothFiled(s') && s'.phase == Poll
    ensures s'.resultQ == Queue([SecondResult(o)], 1) && s'.pipe == 1
  {
    var s1 := FinishAndPost(c, s0, s, 1, o);
    Do(c, s0, s1, Notify(1), false);
    s' := Next(c, s1, Notify(1));
  }

  /** The main thread reads the byte and has the second result in hand. */
  lemma SecondInHand(c: Config, s0: State, s: State, o: Outcome) returns (s': State)
    requires Leads(c, s0, s, false) && BothFiled(s) && s.phase == Poll
    requires s.resultQ == Queue([SecondResult(o)], 1) && s.pipe == 1
    ensures Leads(c, s0, s', false) && BothFiled(s') && s'.phase == Handling(SecondResult(o))
  {
    Do(c, s0, s, EnterRead, false);
    var s1 := Next(c, s, EnterRead);
    Do(c, s0, s1, ReadByte, false);
    var s2 := Next(c, s1, ReadByte);
    Do(c, s0, s2, TryWaitOk, false);
    var s3 := Next(c, s2, TryWaitOk);
    Do(c, s0, s3, TakeResult, false);
    s' := Next(c, s3, TakeResult);
  }

  /** It parks that in the first message's node. */
  lemma SecondParked(c: Config, s0: State, s: State, o: Outcome) returns (s': State)
    requires Leads(c, s0, s, false) && BothFiled(s) && s.phase == Handling(SecondResult(o))
    ensures Leads(c, s0, s', false) && s'.phase == Draining && s'.accepted == s.accepted
    ensures s'.main == s.main.(fifo := [Node(FIRST, true, Some(SecondResult(o))), Node(SECOND, false, None)])
  {
    Do(c, s0, s, Handle, false);
    s' := Next(c, s, Handle);
    assert s'.main.fifo == [Node(FIRST, true, Some(SecondResult(o))), Node(SECOND, false, None)];
  }

  /** And publishes it. */
  lemma SecondPublished(c: Config, s0: State, s: State, o: Outcome) returns (s': State)
    requires Leads(c, s0, s, false) && BothFiled(s) && s.phase == Handling(SecondResult(o))
    ensures Leads(c, s0, s', false) && s'.accepted == s.accepted
    ensures s'.main.published == [SecondResult(o).task] && s'.main.acks == [1]
  {
    var s1 := SecondParked(c, s0, s, o);
    Do(c, s0, s1, Publish, false);
    s' := Next(c, s1, Publish);
  }

  /** Main result: with two threads and a window of two there is, for every outcome o of the second
      submission, a run that publishes it as the first one's result and acks the first. */
  lemma SecondIsPublishedAsFirst(c: Config, o: Outcome) returns (s: State)
    requires Roomy(c)
    ensures Leads(c, Init(c), s, false) && s.accepted == [FIRST, SECOND]
    ensures s.main.published == [Judged(InitialTask(SECOND), true, o)] && s.main.acks == [FIRST.tag]
  {
    var s1 := QueueBoth(c);
    var s2 := TakeBoth(c, Init(c), s1);
    var s3 := SecondFinishes(c, Init(c), s2, o);
    var s4 := SecondInHand(c, Init(c), s3, o);
    s := SecondPublished(c, Init(c), s4, o);
  }
}
