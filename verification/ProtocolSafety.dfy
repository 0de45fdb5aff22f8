/** What holds in every state of every courteous run of the dispatcher. */
module ProtocolSafety {
  import opened Sums
  import opened TaskRunners
  import opened Ledgers
  import opened Protocol
  import opened ProtocolInvariant
  import opened ProtocolSteps

  // ---- refinement of a judge that takes one message after the other ----

  /** The simple judge: messages in their order, results, acks. */
  datatype Judge = Judge(pending: seq<Delivery>, published: seq<Task>, acks: seq<nat>)

  ghost predicate JudgeTakes(a: Judge, d: Delivery, a': Judge) {
    a' == a.(pending := a.pending + [d])
  }

  /** Judge the oldest message with outcome o, publish its result and ack it. */
  ghost predicate JudgeServes(a: Judge, o: Outcome, a': Judge) {
    a.pending != [] &&
    a' == Judge(a.pending[1..], a.published + [Judged(InitialTask(a.pending[0]), true, o)],
                a.acks + [a.pending[0].tag])
  }

  ghost function Envelopes(fifo: seq<Node>): seq<Delivery> {
    seq(|fifo|, k requires 0 <= k < |fifo| => fifo[k].envelope)
  }

  ghost function Seen(s: State): Judge {
    Judge(Envelopes(s.main.fifo), s.main.published, s.main.acks)
  }

  /** The front of the FIFO is served with what its own worker has found. */
  ghost predicate ServesFront(s: State, a: Judge, a': Judge) {
    s.main.fifo != [] && s.main.fifo[0].envelope.tag in s.given &&
    JudgeServes(a, s.given[s.main.fifo[0].envelope.tag], a')
  }

  /** Accepting is taking, publishing is serving, and every other step of any thread is invisible. */
  lemma {:induction false} StepRefinesJudge(c: Config, s: State, l: Step)
    requires Sound(c) && Inv(c, s) && Enabled(c, s, l) && Courteous(c, s, l)
    ensures var (a, a') := (Seen(s), Seen(Next(c, s, l)));
            if l.Accept? then JudgeTakes(a, l.d, a')
            else if l.Publish? then ServesFront(s, a, a')
            else a' == a
  {
    CourteousStepsAreRegular(c, s, l);
    if l.Publish? {
      PublishServes(c, s);
    } else if l.Accept? {
      AcceptTakes(c, s, l.d);
    } else {
      OthersAreUnseen(c, s, l);
    }
  }

  lemma AcceptTakes(c: Config, s: State, d: Delivery)
    requires s.phase.Holding? && |s.main.fifo| < c.prefetch
    ensures JudgeTakes(Seen(s), d, Seen(DoAccept(c, s, d)))
  {
  }

  lemma OthersAreUnseen(c: Config, s: State, l: Step)
    requires Enabled(c, s, l) && Regular(c, s, l) && !l.Accept? && !l.Publish?
    ensures Seen(Next(c, s, l)) == Seen(s)
  {
  }

  lemma PublishServes(c: Config, s: State)
    requires Filed(s.main) && Fit(s) && FrontFiled(s.main)
    ensures ServesFront(s, Seen(s), Seen(DoPublish(c, s)))
  {
    var front := s.main.fifo[0];
    assert NodeFit(s.given, front) && NodeFiled(s.main.index, front);
    var a, a' := Seen(s), Seen(DoPublish(c, s));
    assert a'.pending == a.pending[1..];
  }

  ghost predicate PublishRun(c: Config, ss: seq<State>) {
    forall i :: 0 <= i < |ss| - 1 ==> Enabled(c, ss[i], Publish) && ss[i + 1] == Next(c, ss[i], Publish)
  }

  lemma PublishFirst(c: Config, s: State, rest: seq<State>)
    requires rest != [] && PublishRun(c, rest) && Enabled(c, s, Publish) && rest[0] == Next(c, s, Publish)
    ensures PublishRun(c, [s] + rest)
  {
  }

  lemma PublishOne(c: Config, s: State)
    requires s.phase == Draining && Filed(s.main) && FrontReady(s.main)
    ensures Enabled(c, s, Publish) && FrontFiled(s.main)
    ensures var s' := Next(c, s, Publish);
            s'.phase == Draining && Filed(s'.main) && s'.main == PublishFront(s.main, c.runners)
  {
    PublishKeepsFiled(s.main, c.runners);
  }

  /** The publishing steps that follow a parked result are, together, one `Drain` of the main thread:
      there are as many as there are finished nodes at the front, and then the drain is done. */
  lemma {:induction false} PublishingStepsDrain(c: Config, s: State) returns (ss: seq<State>)
    requires s.phase == Draining && Filed(s.main)
    ensures |ss| == ReadyPrefix(s.main.fifo) + 1 && ss[0] == s && PublishRun(c, ss)
    ensures ss[|ss| - 1].phase == Draining && !FrontReady(ss[|ss| - 1].main)
    ensures ss[|ss| - 1].main == Drain(s.main, c.runners)
    decreases |s.main.fifo|
  {
    ss := [s];
    if FrontReady(s.main) {
      PublishOne(c, s);
      var rest := PublishingStepsDrain(c, Next(c, s, Publish));
      PublishFirst(c, s, rest);
      ss := [s] + rest;
    }
  }

  /** Judging a list of messages one after the other. */
  ghost function JudgeInOrder(ds: seq<Delivery>, os: seq<Outcome>): seq<Task>
    requires |ds| == |os|
  {
    if ds == [] then []
    else JudgeInOrder(ds[..|ds| - 1], os[..|os| - 1]) +
         [Judged(InitialTask(ds[|ds| - 1]), true, os[|os| - 1])]
  }

  /** What was noted for each of the messages. */
  ghost function NotedFor(ds: seq<Delivery>, given: map<nat, Outcome>): seq<Outcome>
    requires forall i :: 0 <= i < |ds| ==> ds[i].tag in given
  {
    seq(|ds|, i requires 0 <= i < |ds| => given[ds[i].tag])
  }

  lemma {:induction false} GivenInOrder(ds: seq<Delivery>, given: map<nat, Outcome>, ts: seq<Task>)
    requires |ds| == |ts| && forall i :: 0 <= i < |ds| ==> IsGiven(given, ds[i], ts[i])
    ensures forall i :: 0 <= i < |ds| ==> ds[i].tag in given
    ensures ts == JudgeInOrder(ds, NotedFor(ds, given))
  {
    if ds != [] {
      var n := |ds| - 1;
      GivenInOrder(ds[..n], given, ts[..n]);
      assert NotedFor(ds, given)[..n] == NotedFor(ds[..n], given);
      assert ts == ts[..n] + [ts[n]];
    }
  }

  /** Step l is a worker finishing the job of the message with tag t. */
  ghost predicate FinishesFor(s: State, l: Step, t: nat) {
    && l.Finish? && l.w < |s.workers| && s.workers[l.w].Running?
    && var u := s.workers[l.w].job.task.uuid; u in s.main.index && s.main.index[u] == t
  }

  /** Of the first k steps exactly step m is a worker finishing the job of message d; that job carries a
      fresh record of d, and t is the verdict on d by what that worker found. */
  ghost predicate IsItsWorkers(ss: seq<State>, ls: seq<Step>, k: nat, d: Delivery, t: Task, m: nat)
    requires |ss| == |ls| + 1 && k < |ss|
  {
    && m < k && FinishesFor(ss[m], ls[m], d.tag)
    && (forall i :: 0 <= i < k && FinishesFor(ss[i], ls[i], d.tag) ==> i == m)
    && IsFresh(d, ss[m].workers[ls[m].w].job.task) && IsVerdictOn(d, ls[m].o, t)
  }

  /** What a step notes for tag t. */
  ghost predicate NotesStep(s: State, l: Step, s': State, t: nat) {
    if FinishesFor(s, l, t) then t !in s.given && t in s'.given && s'.given[t] == l.o
    else (t in s'.given <==> t in s.given) && (t in s.given ==> s'.given[t] == s.given[t])
  }

  /** A worker that finishes is at the fresh record of an accepted message that has nothing noted. */
  lemma FinishIsForNew(c: Config, s: State, l: Step, t: nat) returns (i: nat)
    requires Inv(c, s) && Enabled(c, s, l) && FinishesFor(s, l, t)
    ensures t !in s.given && i < |s.accepted| && s.accepted[i].tag == t
    ensures s.workers[l.w].job.task == InitialTask(s.accepted[i])
  {
    var k := AwaitedNode(s, l.w);
    assert PcFit(s.given, s.main.fifo, s.workers[l.w]);
    i := |s.main.published| + k;
    assert s.main.fifo[k].envelope == s.accepted[i];
  }

  lemma StepNotes(c: Config, s: State, l: Step, t: nat)
    requires Inv(c, s) && Enabled(c, s, l)
    ensures NotesStep(s, l, Next(c, s, l), t)
  {
    if FinishesFor(s, l, t) {
      var i := FinishIsForNew(c, s, l, t);
    } else {
      OthersNoteNothing(c, s, l, t);
    }
  }

  lemma OthersNoteNothing(c: Config, s: State, l: Step, t: nat)
    requires Enabled(c, s, l) && !FinishesFor(s, l, t)
    ensures t in Next(c, s, l).given <==> t in s.given
    ensures t in s.given ==> Next(c, s, l).given[t] == s.given[t]
  {
  }

  lemma RunNotes(c: Config, ss: seq<State>, ls: seq<Step>, t: nat)
    requires IsCourteousRun(c, ss, ls)
    ensures forall i :: 0 <= i < |ls| ==> NotesStep(ss[i], ls[i], ss[i + 1], t)
  {
    forall i: nat | i < |ls|
      ensures NotesStep(ss[i], ls[i], ss[i + 1], t)
    {
      InvAlways(c, ss, ls, i);
      StepNotes(c, ss[i], ls[i], t);
    }
  }

  /** While nothing is noted under a tag, no worker has finished for it. */
  lemma {:induction false} NotFinishedYet(ss: seq<State>, ls: seq<Step>, m: nat, t: nat)
    requires |ss| == |ls| + 1 && m < |ss| && t !in ss[m].given
    requires forall i :: 0 <= i < |ls| ==> NotesStep(ss[i], ls[i], ss[i + 1], t)
    ensures forall i :: 0 <= i < m ==> !FinishesFor(ss[i], ls[i], t)
  {
    if m > 0 {
      assert NotesStep(ss[m - 1], ls[m - 1], ss[m - 1 + 1], t);
      NotFinishedYet(ss, ls, m - 1, t);
    }
  }

  /** What is noted under a tag was noted in one step, the only one in which a worker finished for it. */
  lemma {:induction false} NotedOnce(ss: seq<State>, ls: seq<Step>, k: nat, t: nat) returns (m: nat)
    requires |ss| == |ls| + 1 && k < |ss| && t !in ss[0].given && t in ss[k].given
    requires forall i :: 0 <= i < |ls| ==> NotesStep(ss[i], ls[i], ss[i + 1], t)
    ensures m < k && FinishesFor(ss[m], ls[m], t) && ss[k].given[t] == ls[m].o
    ensures forall i :: 0 <= i < k && FinishesFor(ss[i], ls[i], t) ==> i == m
  {
    assert NotesStep(ss[k - 1], ls[k - 1], ss[k - 1 + 1], t);
    if FinishesFor(ss[k - 1], ls[k - 1], t) {
      m := k - 1;
      NotFinishedYet(ss, ls, m, t);
    } else {
      m := NotedOnce(ss, ls, k - 1, t);
    }
  }

  lemma AcceptedGrows(c: Config, s: State, l: Step)
    requires Enabled(c, s, l)
    ensures s.accepted <= Next(c, s, l).accepted
  {
  }

  lemma {:induction false} AcceptedOnlyGrows(c: Config, ss: seq<State>, ls: seq<Step>, m: nat, k: nat)
    requires IsRun(c, ss, ls) && m <= k < |ss|
    ensures ss[m].accepted <= ss[k].accepted
  {
    if m < k {
      AcceptedOnlyGrows(c, ss, ls, m, k - 1);
      AcceptedGrows(c, ss[k - 1], ls[k - 1]);
    }
  }

  lemma SameTagSamePlace(s: State, i: nat, j: nat)
    requires Chronicle(s) && i < |s.accepted| && j < |s.accepted| && s.accepted[i].tag == s.accepted[j].tag
    ensures i == j
  {
  }

  lemma FinishedItsRecord(c: Config, ss: seq<State>, ls: seq<Step>, m: nat, k: nat, i: nat)
    requires IsCourteousRun(c, ss, ls) && m < k < |ss| && i < |ss[k].accepted|
    requires FinishesFor(ss[m], ls[m], ss[k].accepted[i].tag)
    ensures ss[m].workers[ls[m].w].job.task == InitialTask(ss[k].accepted[i])
  {
    InvAlways(c, ss, ls, m);
    var j := FinishIsForNew(c, ss[m], ls[m], ss[k].accepted[i].tag);
    AcceptedOnlyGrows(c, ss, ls, m, k);
    InvAlways(c, ss, ls, k);
    SameTagSamePlace(ss[k], i, j);
  }

  /** What is noted for a message comes from the one step in which its own worker finished. */
  lemma NotedByItsWorker(c: Config, ss: seq<State>, ls: seq<Step>, k: nat, i: nat, t: Task)
    requires IsCourteousRun(c, ss, ls) && k < |ss|
    requires i < |ss[k].accepted| && IsGiven(ss[k].given, ss[k].accepted[i], t)
    ensures JudgedByItsWorker(ss, ls, k, ss[k].accepted[i], t)
  {
    RunNotes(c, ss, ls, ss[k].accepted[i].tag);
    var m := NotedOnce(ss, ls, k, ss[k].accepted[i].tag);
    FinishedItsRecord(c, ss, ls, m, k, i);
    InitialTaskIsFresh(ss[k].accepted[i]);
    OnePassGivesTheVerdict(ss[k].accepted[i], ls[m].o);
    assert IsItsWorkers(ss, ls, k, ss[k].accepted[i], t, m);
  }

  ghost predicate JudgedByItsWorker(ss: seq<State>, ls: seq<Step>, k: nat, d: Delivery, t: Task)
    requires |ss| == |ls| + 1 && k < |ss|
  {
    exists m :: IsItsWorkers(ss, ls, k, d, t, m)
  }

  /** Main result: whatever order the workers finish in, what has been published is what one
      sequential judge publishes for the first so many accepted messages, each once, in order, and
      with what that message's own worker found; the acks are the tags of those messages, and the
      rest of the messages wait in the FIFO. */
  lemma EveryRunJudgesInOrder(c: Config, ss: seq<State>, ls: seq<Step>, k: nat)
    requires IsCourteousRun(c, ss, ls) && k < |ss|
    ensures var (s, n) := (ss[k], |ss[k].main.published|);
            && n <= |s.accepted|
            && (forall i :: 0 <= i < n ==> s.accepted[i].tag in s.given)
            && (forall i :: 0 <= i < n ==> IsVerdictOn(s.accepted[i], s.given[s.accepted[i].tag], s.main.published[i]))
            && s.main.published == JudgeInOrder(s.accepted[..n], NotedFor(s.accepted[..n], s.given))
            && (forall i :: 0 <= i < n ==> JudgedByItsWorker(ss, ls, k, s.accepted[i], s.main.published[i]))
            && |s.main.acks| == n
            && (forall i :: 0 <= i < n ==> s.main.acks[i] == s.accepted[i].tag)
            && Envelopes(s.main.fifo) == s.accepted[n..]
  {
    InvAlways(c, ss, ls, k);
    var s, n := ss[k], |ss[k].main.published|;
    GivenInOrder(s.accepted[..n], s.given, s.main.published);
    assert Envelopes(s.main.fifo) == s.accepted[n..];
    forall i: nat | i < n
      ensures JudgedByItsWorker(ss, ls, k, s.accepted[i], s.main.published[i])
    {
      assert IsGiven(s.given, s.accepted[i], s.main.published[i]);
      NotedByItsWorker(c, ss, ls, k, i, s.main.published[i]);
    }
    forall i: nat | i < n
      ensures IsVerdictOn(s.accepted[i], s.given[s.accepted[i].tag], s.main.published[i])
    {
      assert IsGiven(s.given, s.accepted[i], s.main.published[i]);
      OnePassGivesTheVerdict(s.accepted[i], s.given[s.accepted[i].tag]);
    }
  }

  // ---- acks ----

  /** An ack covers its own tag and every smaller one. */
  ghost predicate Covered(s: State, t: nat) {
    exists a :: a in s.main.acks && t <= a
  }

  /** The result of the message with tag t has been published. */
  ghost predicate IsPublished(s: State, t: nat) {
    exists i :: 0 <= i < |s.main.published| && i < |s.accepted| && s.accepted[i].tag == t
  }

  ghost predicate AcksAreSafe(s: State) {
    && (forall t :: t in Delivered(s) && Covered(s, t) ==> IsPublished(s, t) || t in s.rejected)
    && (forall t :: IsPublished(s, t) ==> Covered(s, t) && t !in s.rejected)
    && (forall i, j :: 0 <= i < j < |s.main.acks| ==> s.main.acks[i] < s.main.acks[j])
  }

  /** Main result: a delivered message that some ack covers has its result published, or was
      rejected; acks ascend, and a published message is covered. */
  lemma AcksNeverCoverUnjudged(c: Config, ss: seq<State>, ls: seq<Step>, k: nat)
    requires IsCourteousRun(c, ss, ls) && k < |ss|
    ensures AcksAreSafe(ss[k])
  {
    InvAlways(c, ss, ls, k);
    ChronicleMakesAcksSafe(ss[k]);
  }

  lemma ChronicleMakesAcksSafe(s: State)
    requires Chronicle(s)
    ensures AcksAreSafe(s)
  {
    forall t | t in Delivered(s) && Covered(s, t) && t !in s.rejected
      ensures IsPublished(s, t)
    {
      CoveredIsPublished(s, t);
    }
    forall t | IsPublished(s, t)
      ensures Covered(s, t) && t !in s.rejected
    {
      var i :| 0 <= i < |s.main.published| && i < |s.accepted| && s.accepted[i].tag == t;
      assert s.main.acks[i] == t && t in s.main.acks;
    }
  }

  lemma CoveredIsPublished(s: State, t: nat)
    requires Chronicle(s) && t in Delivered(s) && t !in s.rejected && Covered(s, t)
    ensures IsPublished(s, t)
  {
  }

  // ---- runners ----

  /** Main result: at every moment each runner is in exactly one place, and nothing else is anywhere. */
  lemma RunnersHaveOneOwner(c: Config, ss: seq<State>, ls: seq<Step>, k: nat, r: nat)
    requires IsCourteousRun(c, ss, ls) && k < |ss|
    ensures Holders(ss[k], r) == if r < c.runners then 1 else 0
  {
    InvAlways(c, ss, ls, k);
  }

  /** A runner is lost exactly when a message with a negative test count arrives. */
  lemma OnlyRejectionLosesRunners(c: Config, s: State, l: Step)
    requires Enabled(c, s, l)
    ensures Next(c, s, l).lost == if l.Reject? then s.lost + [s.phase.runner] else s.lost
    ensures Next(c, s, l).rejected == if l.Reject? then s.rejected + {l.d.tag} else s.rejected
  {
  }

  // ---- lookups, pops and pushes that cannot fail ----

  /** The map that files each node's tag under its uuid. */
  ghost function IndexOf(fifo: seq<Node>): map<string, nat> {
    if fifo == [] then map[]
    else IndexOf(fifo[..|fifo| - 1])[fifo[|fifo| - 1].envelope.uuid := fifo[|fifo| - 1].envelope.tag]
  }

  lemma {:induction false} IndexOfHas(fifo: seq<Node>, u: string)
    requires forall i, k :: 0 <= i < k < |fifo| ==> fifo[i].envelope.uuid != fifo[k].envelope.uuid
    ensures u in IndexOf(fifo) <==> Carries(fifo, u)
    ensures forall k :: 0 <= k < |fifo| && fifo[k].envelope.uuid == u ==> IndexOf(fifo)[u] == fifo[k].envelope.tag
  {
    if fifo != [] {
      var n := |fifo| - 1;
      var front := fifo[..n];
      IndexOfHas(front, u);
      if Carries(front, u) {
        var k := CarriedAt(front, u);
        assert fifo[k].envelope.uuid == u;
      }
      if Carries(fifo, u) && u != fifo[n].envelope.uuid {
        var k := CarriedAt(fifo, u);
        assert front[k].envelope.uuid == u;
      }
      if u == fifo[n].envelope.uuid {
        assert Carries(fifo, u);
      }
      forall k | 0 <= k < |fifo| && fifo[k].envelope.uuid == u
        ensures u in IndexOf(fifo) && IndexOf(fifo)[u] == fifo[k].envelope.tag
      {
        assert k < n ==> front[k] == fifo[k];
      }
    }
  }

  lemma FiledIsIndexOf(m: Ledger)
    requires Filed(m)
    ensures m.index == IndexOf(m.fifo)
  {
    forall i, k | 0 <= i < k < |m.fifo|
      ensures m.fifo[i].envelope.uuid != m.fifo[k].envelope.uuid
    {
      FiledUuidsAreDistinct(m, i, k);
    }
    forall u
      ensures u in m.index <==> u in IndexOf(m.fifo)
      ensures u in m.index ==> m.index[u] == IndexOf(m.fifo)[u]
    {
      IndexOfHas(m.fifo, u);
      if Carries(m.fifo, u) {
        var k := CarriedAt(m.fifo, u);
        assert NodeFiled(m.index, m.fifo[k]);
      }
    }
  }

  /** Main result: the uuid map is the index of the ack FIFO; a result in hand is settled and finds
      its node; a thread past a wait finds an item; no push is refused; so no thread leaves its loop. */
  lemma LookupsNeverFail(c: Config, ss: seq<State>, ls: seq<Step>, k: nat)
    requires IsCourteousRun(c, ss, ls) && k < |ss|
    ensures var s := ss[k];
            && s.main.index == IndexOf(s.main.fifo)
            && (s.phase.Handling? ==> s.phase.job.task.uuid in s.main.index && !NeedsRun(s.phase.job.task))
            && (s.phase == Taking ==> s.resultQ.items != [])
            && (Waited in s.workers ==> s.workerQ.items != [])
            && s.refused == 0 && s.phase != Exited && Gone !in s.workers
  {
    InvAlways(c, ss, ls, k);
    var s := ss[k];
    FiledIsIndexOf(s.main);
    PopsFindSomething(s);
    if s.phase.Handling? {
      HandledIsSettled(s);
      var node := HandledNode(s);
    }
  }

  /** Every push finds its queue no fuller than its bound, and every pop past a wait finds an item. */
  ghost predicate FindsRoom(c: Config, s: State, l: Step) {
    && (l.Accept? ==> |s.main.fifo| <= c.prefetch && |s.workerQ.items| <= c.runners)
    && (l.Finish? ==> |s.resultQ.items| <= c.runners)
    && (l.NoMessage? || l.Publish? ==> |s.main.free| <= c.runners)
    && (l.PopJob? ==> s.workerQ.items != [])
    && (l.TakeResult? ==> s.resultQ.items != [])
  }

  /** Main result: in every courteous run no push that the program makes is refused, so that the results
      it ignores are all true, and no pop past a wait is in vain. */
  lemma EveryStepFindsRoom(c: Config, ss: seq<State>, ls: seq<Step>, k: nat)
    requires IsCourteousRun(c, ss, ls) && k < |ls|
    ensures FindsRoom(c, ss[k], ls[k])
  {
    InvAlways(c, ss, ls, k);
    CourteousStepsAreRegular(c, ss[k], ls[k]);
  }

  // ---- drain detection ----

  /** Every runner is back: none queued, judging, in the result queue, in hand, parked or lost. */
  ghost predicate AllIdle(s: State) {
    && s.workerQ.items == [] && s.resultQ.items == [] && s.lost == []
    && (forall w :: 0 <= w < |s.workers| ==> !s.workers[w].Running?)
    && !s.phase.Holding? && !s.phase.Handling?
    && (forall k :: 0 <= k < |s.main.fifo| ==> s.main.fifo[k].task.None?)
  }

  lemma AllIdleIsFreeFull(c: Config, s: State)
    requires Conserved(c, s)
    ensures |s.main.free| == c.runners <==> AllIdle(s)
  {
    Census(c, s);
    if AllIdle(s) {
      TotalZero(IsBusy, s.workers);
      TotalZero(HoldsJob, s.main.fifo);
    }
    if |s.main.free| == c.runners {
      forall w: nat | w < |s.workers|
        ensures !s.workers[w].Running?
      {
        TotalHas(IsBusy, s.workers, w);
      }
      forall k: nat | k < |s.main.fifo|
        ensures s.main.fifo[k].task.None?
      {
        TotalHas(HoldsJob, s.main.fifo, k);
      }
    }
  }

  lemma NothingInFlight(s: State, u: string)
    requires s.workerQ.items == [] && s.resultQ.items == [] && !s.phase.Handling?
    requires forall w :: 0 <= w < |s.workers| ==> !s.workers[w].Running?
    ensures InFlight(s, u) == 0
  {
    BagWithout(PcUuid, s.workers, u);
  }

  lemma UnreadyFrontIsAwaited(s: State)
    requires s.main.fifo != [] && !FrontReady(s.main)
    ensures Awaited(s, s.main.fifo[0].envelope.uuid) > 0
  {
    BagHas(NodeOpen, s.main.fifo, 0);
  }

  lemma AllIdleMeansFifoEmpty(s: State)
    requires AllIdle(s) && Matched(s) && Filed(s.main)
    ensures s.main.fifo == []
  {
    if s.main.fifo != [] {
      assert NodeFiled(s.main.index, s.main.fifo[0]);
      UnreadyFrontIsAwaited(s);
      NothingInFlight(s, s.main.fifo[0].envelope.uuid);
    }
  }

  /** Main result: the free queue reports N runners exactly when none is lost or in use; and then the
      FIFO and the index are empty and every accepted message has been published and acked. */
  lemma FullFreeQueueMeansDrained(c: Config, ss: seq<State>, ls: seq<Step>, k: nat)
    requires IsCourteousRun(c, ss, ls) && k < |ss|
    ensures var s := ss[k];
            && |s.main.free| <= c.runners
            && (|s.main.free| == c.runners <==> AllIdle(s))
            && (|s.main.free| == c.runners ==>
                  && s.main.fifo == [] && s.main.index == map[]
                  && |s.main.published| == |s.accepted|
                  && forall i :: 0 <= i < |s.accepted| ==> s.accepted[i].tag in s.main.acks)
  {
    InvAlways(c, ss, ls, k);
    var s := ss[k];
    Census(c, s);
    AllIdleIsFreeFull(c, s);
    if |s.main.free| == c.runners {
      AllIdleMeansFifoEmpty(s);
      forall i | 0 <= i < |s.accepted|
        ensures s.accepted[i].tag in s.main.acks
      {
        assert s.main.acks[i] == s.accepted[i].tag;
      }
    }
  }
}
