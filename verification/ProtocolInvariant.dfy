/** The invariant of the dispatcher, and the proof that every courteous step keeps it. */
module ProtocolInvariant {
  import opened Sums
  import opened TaskRunners
  import opened Ledgers
  import opened Protocol

  // ---- who holds which runner, and which uuid is on its way ----

  ghost function JobRunner(j: Job): multiset<nat> { multiset{j.runner} }

  ghost function JobUuid(j: Job): multiset<string> { multiset{j.task.uuid} }

  ghost function PcRunner(pc: Pc): multiset<nat> { if pc.Running? then JobRunner(pc.job) else multiset{} }

  ghost function PcUuid(pc: Pc): multiset<string> { if pc.Running? then JobUuid(pc.job) else multiset{} }

  ghost function NodeRunner(n: Node): multiset<nat> { if n.task.Some? then JobRunner(n.task.value) else multiset{} }

  ghost function NodeOpen(n: Node): multiset<string> { if n.finished then multiset{} else multiset{n.envelope.uuid} }

  ghost function PhaseRunner(p: Phase): multiset<nat> {
    if p.Holding? then multiset{p.runner} else if p.Handling? then JobRunner(p.job) else multiset{}
  }

  ghost function PhaseUuid(p: Phase): multiset<string> {
    if p.Handling? then JobUuid(p.job) else multiset{}
  }

  /** How often runner r occurs in the places a runner can be: free, queued, being judged, in the
      result queue, in the main thread's hands, parked in an ack node, or lost. */
  ghost function Holders(s: State, r: nat): int {
    multiset(s.main.free)[r] + Bag(JobRunner, s.workerQ.items)[r] + Bag(PcRunner, s.workers)[r] +
    Bag(JobRunner, s.resultQ.items)[r] + PhaseRunner(s.phase)[r] + Bag(NodeRunner, s.main.fifo)[r] +
    multiset(s.lost)[r]
  }

  /** How many jobs with uuid u are between their acceptance and their parking. */
  ghost function InFlight(s: State, u: string): int {
    Bag(JobUuid, s.workerQ.items)[u] + Bag(PcUuid, s.workers)[u] + Bag(JobUuid, s.resultQ.items)[u] +
    PhaseUuid(s.phase)[u]
  }

  /** How many unfinished nodes with uuid u the FIFO holds. */
  ghost function Awaited(s: State, u: string): int {
    Bag(NodeOpen, s.main.fifo)[u]
  }

  // ---- counting threads ----

  ghost function OwesPopJob(pc: Pc): nat { if pc == Waited then 1 else 0 }

  ghost function OwesPostResult(pc: Pc): nat { if pc == Pushed then 1 else 0 }

  ghost function OwesNotify(pc: Pc): nat { if pc == Pushed || pc == Posted then 1 else 0 }

  ghost function IsBusy(pc: Pc): nat { if pc.Running? then 1 else 0 }

  ghost function IsOpen(n: Node): nat { if n.finished then 0 else 1 }

  ghost function One(j: Job): nat { 1 }

  ghost function HoldsJob(n: Node): nat { if n.task.Some? then 1 else 0 }

  ghost function If(b: bool): nat { if b then 1 else 0 }

  // ---- the parts of the invariant ----

  ghost predicate Shape(c: Config, s: State) {
    |s.workers| == c.threads && Gone !in s.workers && s.phase != Exited && s.phase != AppendingRerun && s.refused == 0
  }

  /** Each semaphore counts its queue, up to the operations in progress. */
  ghost predicate Counted(s: State) {
    && |s.workerQ.items| == s.workerQ.stat + Total(OwesPopJob, s.workers) + If(s.phase == AppendingFresh)
    && |s.resultQ.items| == s.resultQ.stat + Total(OwesPostResult, s.workers) + If(s.phase == Taking)
  }

  /** Each runner is in exactly one place. */
  ghost predicate Conserved(c: Config, s: State) {
    forall r: nat :: Holders(s, r) == If(r < c.runners)
  }

  /** The jobs in flight are exactly those the unfinished nodes wait for. */
  ghost predicate Matched(s: State) {
    forall u: string :: InFlight(s, u) == Awaited(s, u)
  }

  /** t is what judging d gives with the outcome noted for d. */
  ghost predicate IsGiven(given: map<nat, Outcome>, d: Delivery, t: Task) {
    d.tag in given && t == Judged(InitialTask(d), true, given[d.tag])
  }

  /** The record is the fresh one of its message, for which nothing is noted yet. */
  ghost predicate FreshFit(given: map<nat, Outcome>, fifo: seq<Node>, j: Job) {
    forall k :: 0 <= k < |fifo| && fifo[k].envelope.uuid == j.task.uuid ==>
      fifo[k].envelope.tag !in given && j.task == InitialTask(fifo[k].envelope)
  }

  ghost predicate DoneFit(given: map<nat, Outcome>, fifo: seq<Node>, j: Job) {
    forall k :: 0 <= k < |fifo| && fifo[k].envelope.uuid == j.task.uuid ==> IsGiven(given, fifo[k].envelope, j.task)
  }

  ghost predicate PcFit(given: map<nat, Outcome>, fifo: seq<Node>, pc: Pc) {
    pc.Running? ==> FreshFit(given, fifo, pc.job)
  }

  ghost predicate NodeFit(given: map<nat, Outcome>, n: Node) {
    n.task.Some? ==> IsGiven(given, n.envelope, n.task.value.task)
  }

  /** Every job carries the record its message calls for at that stage. */
  ghost predicate Fit(s: State) {
    && (forall k :: 0 <= k < |s.workerQ.items| ==> FreshFit(s.given, s.main.fifo, s.workerQ.items[k]))
    && (forall w :: 0 <= w < |s.workers| ==> PcFit(s.given, s.main.fifo, s.workers[w]))
    && (forall k :: 0 <= k < |s.resultQ.items| ==> DoneFit(s.given, s.main.fifo, s.resultQ.items[k]))
    && (s.phase.Handling? ==> DoneFit(s.given, s.main.fifo, s.phase.job))
    && (forall k :: 0 <= k < |s.main.fifo| ==> NodeFit(s.given, s.main.fifo[k]))
  }

  ghost predicate Ascending(ds: seq<Delivery>, last: nat) {
    && (forall i, j :: 0 <= i < j < |ds| ==> ds[i].tag < ds[j].tag)
    && (forall i :: 0 <= i < |ds| ==> ds[i].tag <= last)
  }

  /** The accepted messages are the published ones followed by those in the FIFO. */
  ghost predicate Chronicle(s: State) {
    var n := |s.main.published|;
    && Ascending(s.accepted, s.lastTag)
    && (forall t :: t in s.rejected ==> t <= s.lastTag)
    && (forall i :: 0 <= i < |s.accepted| ==> s.accepted[i].tag !in s.rejected)
    && |s.main.acks| == n && |s.accepted| == n + |s.main.fifo|
    && (forall i :: 0 <= i < n ==> s.main.acks[i] == s.accepted[i].tag)
    && (forall i :: 0 <= i < n ==> IsGiven(s.given, s.accepted[i], s.main.published[i]))
    && (forall t :: t in s.given ==> t <= s.lastTag)
    && (forall k :: 0 <= k < |s.main.fifo| ==> s.main.fifo[k].envelope == s.accepted[n + k])
  }

  /** Outside the drain loop the front of the FIFO is never ready. */
  ghost predicate Calm(s: State) {
    s.phase != Draining ==> !FrontReady(s.main)
  }

  ghost predicate Sending(p: Phase) {
    p == Reading || p == AppendingRerun || Serves(p) || p == Exited
  }

  /** The main thread has read a byte and has not yet found the result queue empty. */
  ghost predicate Serves(p: Phase) {
    p == Serving || p == Taking || p.Handling? || p == Draining
  }

  /** Every result is still to be announced, announced in the pipe, or about to be looked for. */
  ghost predicate Announced(s: State) {
    && |s.resultQ.items| <= s.pipe + Total(OwesNotify, s.workers) + If(Serves(s.phase)) + s.drops
    && (s.resultQ.items != [] ==> s.pipe > 0 || Total(OwesNotify, s.workers) > 0 || Serves(s.phase))
  }

  /** The bytes that are in the pipe or that a queued or busy worker will still bring. */
  ghost function Bytes(s: State): nat {
    |s.workerQ.items| + Total(IsBusy, s.workers) + Total(OwesNotify, s.workers) + s.pipe
  }

  /** The FIFO keeps to the window; outside the receive loop of the pipe the bytes stay within the
      threads and the FIFO, inside it within the threads and the window. */
  ghost predicate Bounded(c: Config, s: State) {
    |s.main.fifo| <= c.prefetch &&
    Bytes(s) <= c.threads + if Sending(s.phase) then c.prefetch else |s.main.fifo|
  }

  ghost predicate Inv(c: Config, s: State) {
    && Shape(c, s) && Counted(s) && Conserved(c, s) && Matched(s) && Filed(s.main)
    && Fit(s) && Chronicle(s) && Calm(s) && Announced(s) && Bounded(c, s)
  }

  // ---- consequences used by the step proofs ----

  lemma WorkerUpdate(ws: seq<Pc>, w: nat, pc: Pc)
    requires w < |ws|
    ensures Total(OwesPopJob, ws[w := pc]) + OwesPopJob(ws[w]) == Total(OwesPopJob, ws) + OwesPopJob(pc)
    ensures Total(OwesPostResult, ws[w := pc]) + OwesPostResult(ws[w]) == Total(OwesPostResult, ws) + OwesPostResult(pc)
    ensures Total(OwesNotify, ws[w := pc]) + OwesNotify(ws[w]) == Total(OwesNotify, ws) + OwesNotify(pc)
    ensures Total(IsBusy, ws[w := pc]) + IsBusy(ws[w]) == Total(IsBusy, ws) + IsBusy(pc)
  {
    TotalUpdate(OwesPopJob, ws, w, pc);
    TotalUpdate(OwesPostResult, ws, w, pc);
    TotalUpdate(OwesNotify, ws, w, pc);
    TotalUpdate(IsBusy, ws, w, pc);
  }

  lemma JobsSize(q: seq<Job>)
    ensures |Bag(JobRunner, q)| == |q|
  {
    BagSize(JobRunner, One, q, |q|);
    TotalOnes(One, q, |q|);
  }

  lemma WorkersSize(ws: seq<Pc>)
    ensures |Bag(PcRunner, ws)| == Total(IsBusy, ws)
  {
    BagSize(PcRunner, IsBusy, ws, |ws|);
  }

  lemma NodesSize(ns: seq<Node>)
    ensures |Bag(NodeRunner, ns)| == Total(HoldsJob, ns)
  {
    BagSize(NodeRunner, HoldsJob, ns, |ns|);
  }

  lemma {:induction false} AllRunnersOnce(n: nat, r: nat)
    ensures multiset(AllRunners(n))[r] == If(r < n)
  {
    if n > 0 {
      AllRunnersOnce(n - 1, r);
      assert AllRunners(n) == AllRunners(n - 1) + [n - 1];
    }
  }

  lemma SizeOfSeven(a: multiset<nat>, b: multiset<nat>, c: multiset<nat>, d: multiset<nat>,
                    e: multiset<nat>, f: multiset<nat>, g: multiset<nat>, n: nat)
    requires forall r: nat :: a[r] + b[r] + c[r] + d[r] + e[r] + f[r] + g[r] == If(r < n)
    ensures |a| + |b| + |c| + |d| + |e| + |f| + |g| == n
  {
    var all := a + b + c + d + e + f + g;
    forall r: nat
      ensures all[r] == multiset(AllRunners(n))[r]
    {
      AllRunnersOnce(n, r);
    }
    assert all == multiset(AllRunners(n));
  }

  /** Counting the runners by place. */
  lemma Census(c: Config, s: State)
    requires Conserved(c, s)
    ensures |s.main.free| + |s.workerQ.items| + Total(IsBusy, s.workers) + |s.resultQ.items| +
            If(s.phase.Holding? || s.phase.Handling?) + Total(HoldsJob, s.main.fifo) + |s.lost| == c.runners
  {
    JobsSize(s.workerQ.items);
    JobsSize(s.resultQ.items);
    WorkersSize(s.workers);
    NodesSize(s.main.fifo);
    var free, queued, busy := multiset(s.main.free), Bag(JobRunner, s.workerQ.items), Bag(PcRunner, s.workers);
    var done, held := Bag(JobRunner, s.resultQ.items), PhaseRunner(s.phase);
    var parked, lost := Bag(NodeRunner, s.main.fifo), multiset(s.lost);
    forall r: nat
      ensures free[r] + queued[r] + busy[r] + done[r] + held[r] + parked[r] + lost[r] == If(r < c.runners)
    {
      assert Holders(s, r) == If(r < c.runners);
    }
    SizeOfSeven(free, queued, busy, done, held, parked, lost, c.runners);
  }

  lemma UuidsSize(q: seq<Job>)
    ensures |Bag(JobUuid, q)| == |q|
  {
    BagSize(JobUuid, One, q, |q|);
    TotalOnes(One, q, |q|);
  }

  lemma SizeOfFour(a: multiset<string>, b: multiset<string>, c: multiset<string>, d: multiset<string>, e: multiset<string>)
    requires forall u: string :: a[u] + b[u] + c[u] + d[u] == e[u]
    ensures |a| + |b| + |c| + |d| == |e|
  {
    assert a + b + c + d == e;
  }

  /** Counting the jobs on their way: as many as there are unfinished nodes. */
  lemma FlightCensus(s: State)
    requires Matched(s)
    ensures |s.workerQ.items| + Total(IsBusy, s.workers) + |s.resultQ.items| + If(s.phase.Handling?) ==
            Total(IsOpen, s.main.fifo)
  {
    UuidsSize(s.workerQ.items);
    UuidsSize(s.resultQ.items);
    BagSize(PcUuid, IsBusy, s.workers, |s.workers|);
    BagSize(NodeOpen, IsOpen, s.main.fifo, |s.main.fifo|);
    var queued, busy := Bag(JobUuid, s.workerQ.items), Bag(PcUuid, s.workers);
    var done, open := Bag(JobUuid, s.resultQ.items), Bag(NodeOpen, s.main.fifo);
    forall u: string
      ensures queued[u] + busy[u] + done[u] + PhaseUuid(s.phase)[u] == open[u]
    {
      assert InFlight(s, u) == Awaited(s, u);
    }
    SizeOfFour(queued, busy, done, PhaseUuid(s.phase), open);
  }

  lemma {:induction false} OpenOrHolds(index: map<string, nat>, ns: seq<Node>, n: nat)
    requires n <= |ns| && forall k :: 0 <= k < n ==> NodeFiled(index, ns[k])
    ensures TotalUpTo(IsOpen, ns, n) + TotalUpTo(HoldsJob, ns, n) == n
  {
    if n > 0 {
      OpenOrHolds(index, ns, n - 1);
      assert NodeFiled(index, ns[n - 1]);
    }
  }

  /** Every message in the FIFO ties up one runner: the others are free, in hand or lost. */
  lemma Circulation(c: Config, s: State)
    requires Conserved(c, s) && Matched(s) && Filed(s.main)
    ensures |s.main.free| + |s.main.fifo| + If(s.phase.Holding?) + |s.lost| == c.runners
  {
    Census(c, s);
    FlightCensus(s);
    OpenOrHolds(s.main.index, s.main.fifo, |s.main.fifo|);
  }

  /** Whatever is in flight is filed. */
  lemma InFlightIsFiled(s: State, u: string)
    requires Matched(s) && Filed(s.main) && InFlight(s, u) > 0
    ensures u in s.main.index
    ensures exists k :: 0 <= k < |s.main.fifo| && s.main.fifo[k].envelope.uuid == u && !s.main.fifo[k].finished
  {
    assert Awaited(s, u) > 0;
    var k := BagFind(NodeOpen, s.main.fifo, |s.main.fifo|, u);
    assert NodeFiled(s.main.index, s.main.fifo[k]);
  }
}
