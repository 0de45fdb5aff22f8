/**
 The dispatcher as it runs in task mode: one main thread, any number of workers, the free, worker
 and result queues, the ack FIFO and the wake-up pipe.  Every step is one action on shared state;
 any enabled step may come next.
 */
module Protocol {
  import opened BlockQueues
  import opened TaskRunners
  import opened Ledgers

  /** runners: how many are preallocated, which is also the bound given to the free, worker and
      result queues; prefetch: the broker's window and the bound given to the ack FIFO. */
  datatype Config = Config(threads: nat, prefetch: nat, runners: nat, pipeSize: nat)

  ghost predicate Sound(c: Config) {
    c.threads > 0 && c.prefetch > 0 && c.pipeSize > 0 && c.runners == c.threads * c.prefetch
  }

  /** Where a worker thread stands; Gone after a null pop. */
  datatype Pc = Idle | Waited | Running(job: Job) | Pushed | Posted | Gone

  /** Where the main thread stands; Exited after a failed lookup. */
  datatype Phase =
    | Poll
    | Consuming | Holding(runner: nat) | AppendingFresh
    | Reading | Serving | Taking | Handling(job: Job) | AppendingRerun | Draining
    | Exited

  /** The last seven fields are history: nothing in the program reads them.  given maps the tag of a
      message to what its worker found. */
  datatype State = State(
    main: Ledger, phase: Phase,
    workerQ: Queue<Job>, workers: seq<Pc>, resultQ: Queue<Job>, pipe: nat,
    accepted: seq<Delivery>, rejected: set<nat>, lost: seq<nat>, lastTag: nat, refused: nat, drops: nat,
    given: map<nat, Outcome>)

  datatype Step =
    // main thread, receiving side; the first, fourth and fifth are decided by the broker
    | EnterConsume | TakeRunner | NoMessage | Accept(d: Delivery) | Reject(d: Delivery) | PostFresh
    // main thread, sending side
    | EnterRead | ReadByte | ReadEmpty | TryWaitFail | TryWaitOk | TakeResult
    | Handle | PostRerun | Publish | DrainDone
    // worker thread w
    | WaitJob(w: nat) | PopJob(w: nat) | Finish(w: nat, o: Outcome) | PostResult(w: nat) | Notify(w: nat)

  predicate At(s: State, w: nat, pc: Pc) {
    w < |s.workers| && s.workers[w] == pc
  }

  predicate Enabled(c: Config, s: State, l: Step) {
    match l
    case EnterConsume => s.phase == Poll
    case TakeRunner => s.phase == Consuming
    case NoMessage => s.phase.Holding?
    case Accept(d) => s.phase.Holding? && d.tests >= 0 && d.tag > s.lastTag
    case Reject(d) => s.phase.Holding? && d.tests < 0 && d.tag > s.lastTag
    case PostFresh => s.phase == AppendingFresh
    case EnterRead => s.phase == Poll && s.pipe > 0
    case ReadByte => s.phase == Reading && s.pipe > 0
    case ReadEmpty => s.phase == Reading && s.pipe == 0
    case TryWaitFail => s.phase == Serving && s.resultQ.stat == 0
    case TryWaitOk => s.phase == Serving && s.resultQ.stat > 0
    case TakeResult => s.phase == Taking
    case Handle => s.phase.Handling?
    case PostRerun => s.phase == AppendingRerun
    case Publish => s.phase == Draining && FrontReady(s.main)
    case DrainDone => s.phase == Draining && !FrontReady(s.main)
    case WaitJob(w) => At(s, w, Idle) && s.workerQ.stat > 0
    case PopJob(w) => At(s, w, Waited)
    case Finish(w, _) => w < |s.workers| && s.workers[w].Running?
    case PostResult(w) => At(s, w, Pushed)
    case Notify(w) => At(s, w, Posted)
  }

  function Refusal(size: nat, max: nat): nat {
    if Admits(size, max) then 0 else 1
  }

  /** Try for a free runner; without one the receive loop ends. */
  function DoTakeRunner(s: State): State
  {
    if s.main.free == [] then s.(phase := Poll)
    else s.(main := TakeFree(s.main), phase := Holding(s.main.free[0]))
  }

  /** Nothing to receive: the runner goes back and the loop ends. */
  function DoNoMessage(c: Config, s: State): State
    requires s.phase.Holding?
  {
    s.(main := ReturnFree(s.main, c.runners, s.phase.runner), phase := Poll,
       refused := s.refused + Refusal(|s.main.free|, c.runners))
  }

  /** File the message, bind it to the runner in hand, and push that runner on the worker queue. */
  function DoAccept(c: Config, s: State, d: Delivery): State
    requires s.phase.Holding?
  {
    s.(main := AddToMap(s.main, c.prefetch, d),
       workerQ := Push(s.workerQ, c.runners, Job(s.phase.runner, InitialTask(d))),
       phase := if Admits(|s.workerQ.items|, c.runners) then AppendingFresh else Consuming,
       accepted := s.accepted + [d], lastTag := d.tag,
       refused := s.refused + Refusal(|s.main.fifo|, c.prefetch) + Refusal(|s.workerQ.items|, c.runners))
  }

  /** A negative test count: the function returns with the runner and the message in hand. */
  function DoReject(s: State, d: Delivery): State
    requires s.phase.Holding?
  {
    s.(phase := Poll, rejected := s.rejected + {d.tag}, lost := s.lost + [s.phase.runner], lastTag := d.tag)
  }

  function DoTakeResult(s: State): State {
    if s.resultQ.items == [] then s.(phase := Reading)
    else s.(resultQ := Pop(s.resultQ), phase := Handling(s.resultQ.items[0]))
  }

  /** A compiled task goes back to the workers; any other is parked in its ack node. */
  function DoHandle(c: Config, s: State): State
    requires s.phase.Handling?
  {
    var j := s.phase.job;
    if NeedsRun(j.task) then
      s.(workerQ := Push(s.workerQ, c.runners, j),
         phase := if Admits(|s.workerQ.items|, c.runners) then AppendingRerun else Reading,
         refused := s.refused + Refusal(|s.workerQ.items|, c.runners))
    else if j.task.uuid !in s.main.index then s.(phase := Exited)
    else s.(main := Park(s.main, j), phase := Draining)
  }

  function DoPublish(c: Config, s: State): State {
    if !FrontFiled(s.main) then s.(phase := Exited)
    else s.(main := PublishFront(s.main, c.runners),
            refused := s.refused + Refusal(|s.main.free|, c.runners))
  }

  function DoPopJob(s: State, w: nat): State
    requires w < |s.workers|
  {
    if s.workerQ.items == [] then s.(workers := s.workers[w := Gone])
    else s.(workerQ := Pop(s.workerQ), workers := s.workers[w := Running(s.workerQ.items[0])])
  }

  /** What a worker finds is noted under the message whose uuid its job carries. */
  function Noted(s: State, u: string, o: Outcome): map<nat, Outcome> {
    if u in s.main.index then s.given[s.main.index[u] := o] else s.given
  }

  function DoFinish(c: Config, s: State, w: nat, o: Outcome): State
    requires w < |s.workers| && s.workers[w].Running?
  {
    var j := s.workers[w].job;
    s.(resultQ := Push(s.resultQ, c.runners, Job(j.runner, Judged(j.task, true, o))),
       workers := s.workers[w := if Admits(|s.resultQ.items|, c.runners) then Pushed else Posted],
       given := Noted(s, j.task.uuid, o),
       refused := s.refused + Refusal(|s.resultQ.items|, c.runners))
  }

  /** A non-blocking write: a full pipe drops the byte. */
  function DoNotify(c: Config, s: State, w: nat): State
    requires w < |s.workers|
  {
    var s' := s.(workers := s.workers[w := Idle]);
    if s.pipe < c.pipeSize then s'.(pipe := s.pipe + 1) else s'.(drops := s.drops + 1)
  }

  function Next(c: Config, s: State, l: Step): State
    requires Enabled(c, s, l)
  {
    match l
    case EnterConsume => s.(phase := Consuming)
    case TakeRunner => DoTakeRunner(s)
    case NoMessage => DoNoMessage(c, s)
    case Accept(d) => DoAccept(c, s, d)
    case Reject(d) => DoReject(s, d)
    case PostFresh => s.(workerQ := Post(s.workerQ), phase := Consuming)
    case EnterRead => s.(phase := Reading)
    case ReadByte => s.(pipe := s.pipe - 1, phase := Serving)
    case ReadEmpty => s.(phase := Poll)
    case TryWaitFail => s.(phase := Reading)
    case TryWaitOk => s.(resultQ := Wait(s.resultQ), phase := Taking)
    case TakeResult => DoTakeResult(s)
    case Handle => DoHandle(c, s)
    case PostRerun => s.(workerQ := Post(s.workerQ), phase := Reading)
    case Publish => DoPublish(c, s)
    case DrainDone => s.(phase := Serving)
    case WaitJob(w) => s.(workerQ := Wait(s.workerQ), workers := s.workers[w := Waited])
    case PopJob(w) => DoPopJob(s, w)
    case Finish(w, o) => DoFinish(c, s, w, o)
    case PostResult(w) => s.(resultQ := Post(s.resultQ), workers := s.workers[w := Posted])
    case Notify(w) => DoNotify(c, s, w)
  }

  function Init(c: Config): State {
    State(Ledger(AllRunners(c.runners), [], map[], [], []), Poll,
          Queue([], 0), seq(c.threads, i requires 0 <= i < c.threads => Idle), Queue([], 0), 0,
          [], {}, [], 0, 0, 0, map[])
  }

  /** Tags handed over and not yet covered by an ack; each ack covers every smaller tag. */
  ghost function Outstanding(s: State): set<nat> {
    set t: nat | t in Delivered(s) && (forall a :: a in s.main.acks ==> a < t)
  }

  ghost function Delivered(s: State): set<nat> {
    (set i | 0 <= i < |s.accepted| :: s.accepted[i].tag) + s.rejected
  }

  /** What the outside owes the dispatcher: the broker keeps to the prefetch window, and a message
      is not sent while another with the same uuid is in flight. */
  ghost predicate Courteous(c: Config, s: State, l: Step) {
    l.Accept? ==> |Outstanding(s)| < c.prefetch && l.d.uuid !in s.main.index
  }

  ghost predicate IsRun(c: Config, ss: seq<State>, ls: seq<Step>) {
    |ss| == |ls| + 1 &&
    forall k :: 0 <= k < |ls| ==> Enabled(c, ss[k], ls[k]) && ss[k + 1] == Next(c, ss[k], ls[k])
  }

  /** A run of the program from its start against a courteous outside. */
  ghost predicate IsCourteousRun(c: Config, ss: seq<State>, ls: seq<Step>) {
    Sound(c) && IsRun(c, ss, ls) && ss[0] == Init(c) &&
    forall k :: 0 <= k < |ls| ==> Courteous(c, ss[k], ls[k])
  }
}
