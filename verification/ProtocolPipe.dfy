/**
 The wake-up pipe: how many bytes it can come to hold, exactly which pipes drop a byte in some run,
 and why a queued result is announced all the same.
 */
module ProtocolPipe {
  import opened Sums
  import opened BlockQueues
  import opened Protocol
  import opened ProtocolInvariant
  import opened ProtocolSteps
  import opened ProtocolRuns

  /** With window P and T threads, the bytes in the pipe and those about to be written never exceed
      P + T, however many runners there are. */
  lemma PipeHoldsAtMostWindowAndThreads(c: Config, ss: seq<State>, ls: seq<Step>, k: nat)
    requires IsCourteousRun(c, ss, ls) && k < |ss|
    ensures ss[k].pipe + Total(OwesNotify, ss[k].workers) <= c.prefetch + c.threads
  {
    InvAlways(c, ss, ls, k);
  }

  // ---- a window of one ----

  /** With one message at a time there is at most one byte, and none while the result is served. */
  ghost predicate Single(s: State) {
    Bytes(s) <= |s.main.fifo| <= 1 && (Serves(s.phase) ==> Bytes(s) == 0)
  }

  lemma SingleByWorker(c: Config, s: State, l: Step)
    requires Enabled(c, s, l) && Regular(c, s, l) && ByWorker(l) && Single(s)
    ensures Single(Next(c, s, l))
  {
    WorkerUpdate(s.workers, l.w, Next(c, s, l).workers[l.w]);
    TotalHas(IsBusy, s.workers, l.w);
    TotalHas(OwesNotify, s.workers, l.w);
  }

  lemma SingleByMain(c: Config, s: State, l: Step)
    requires Shape(c, s) && Enabled(c, s, l) && Regular(c, s, l) && !ByWorker(l) && c.prefetch == 1 && Single(s)
    ensures Single(Next(c, s, l))
  {
  }

  lemma {:induction false} SingleAlways(c: Config, ss: seq<State>, ls: seq<Step>, k: nat)
    requires IsCourteousRun(c, ss, ls) && k < |ss| && c.prefetch == 1
    ensures Single(ss[k])
  {
    if k == 0 {
      TotalZero(IsBusy, ss[0].workers);
      TotalZero(OwesNotify, ss[0].workers);
    } else {
      SingleAlways(c, ss, ls, k - 1);
      InvAlways(c, ss, ls, k - 1);
      CourteousStepsAreRegular(c, ss[k - 1], ls[k - 1]);
      if ByWorker(ls[k - 1]) {
        SingleByWorker(c, ss[k - 1], ls[k - 1]);
      } else {
        SingleByMain(c, ss[k - 1], ls[k - 1]);
      }
    }
  }

  // ---- pipes that never drop a byte ----

  ghost predicate WideEnough(c: Config) {
    c.prefetch == 1 || c.pipeSize >= c.prefetch + c.threads
  }

  lemma RoomInThePipe(c: Config, ss: seq<State>, ls: seq<Step>, k: nat)
    requires IsCourteousRun(c, ss, ls) && k < |ss| && WideEnough(c)
    ensures ss[k].pipe + Total(OwesNotify, ss[k].workers) <= c.pipeSize
  {
    if c.prefetch == 1 {
      SingleAlways(c, ss, ls, k);
    } else {
      PipeHoldsAtMostWindowAndThreads(c, ss, ls, k);
    }
  }

  lemma RoomMeansNoDrop(c: Config, s: State, l: Step)
    requires Enabled(c, s, l) && s.pipe + Total(OwesNotify, s.workers) <= c.pipeSize
    ensures Next(c, s, l).drops == s.drops
  {
    if l.Notify? {
      TotalHas(OwesNotify, s.workers, l.w);
    }
  }

  lemma {:induction false} WideEnoughNeverDrops(c: Config, ss: seq<State>, ls: seq<Step>, k: nat)
    requires IsCourteousRun(c, ss, ls) && k < |ss| && WideEnough(c)
    ensures ss[k].drops == 0
  {
    if k > 0 {
      WideEnoughNeverDrops(c, ss, ls, k - 1);
      RoomInThePipe(c, ss, ls, k - 1);
      RoomMeansNoDrop(c, ss[k - 1], ls[k - 1]);
    }
  }

  // ---- the pipe filled to the brim ----

  /** All is clear but for the first w workers, which still have to write the byte of a result that
      has been served already. */
  ghost predicate Stuck(c: Config, s: State, w: nat) {
    && Cleared(s) && s.drops == 0 && s.rejected == {} && s.lost == []
    && |s.workers| == c.threads && w <= c.threads
    && forall i :: 0 <= i < c.threads ==> s.workers[i] == if i < w then Posted else Idle
  }

  lemma InitIsStuck(c: Config)
    requires Sound(c)
    ensures From(c, Init(c), Init(c)) && Stuck(c, Init(c), 0)
  {
    FromInit(c);
  }

  /** The main thread has just read the byte of a first result, and worker w has got as far as the
      write for a second. */
  lemma TwoResults(c: Config, s0: State, s: State, w: nat) returns (s': State)
    requires From(c, s0, s) && Stuck(c, s, w) && w < c.threads && c.prefetch >= 2
    ensures From(c, s0, s') && s'.phase == Serving && s'.workers == s.workers[w := Posted]
    ensures s'.workerQ == Queue([], 0) && s'.drops == 0 && s'.rejected == {} && s'.lost == []
  {
    WindowFitsRunners(c);
    assert Uncovered(s) == {};
    var s1 := Receive(c, s0, s, 2);
    var s2 := WorkerPosts(c, s0, s1, w);
    var s3 := WorkerNotifies(c, s0, s2, w);
    var s4 := ReadOne(c, s0, s3);
    s' := WorkerPosts(c, s0, s4, w);
    assert s'.workers == s.workers[w := Posted];
  }

  /** Both results are served on that one byte, and worker w is left with its own still to write. */
  lemma OneMoreStuck(c: Config, s0: State, s: State, w: nat) returns (s': State)
    requires From(c, s0, s) && Stuck(c, s, w) && w < c.threads && c.prefetch >= 2
    ensures From(c, s0, s') && Stuck(c, s', w + 1)
  {
    var s1 := TwoResults(c, s0, s, w);
    s' := MainClears(c, s0, s1);
  }

  lemma {:induction false} ManyStuck(c: Config, w: nat) returns (s: State)
    requires Sound(c) && c.prefetch >= 2 && w <= c.threads
    ensures From(c, Init(c), s) && Stuck(c, s, w)
  {
    if w == 0 {
      InitIsStuck(c);
      s := Init(c);
    } else {
      s := ManyStuck(c, w - 1);
      s := OneMoreStuck(c, Init(c), s, w - 1);
    }
  }

  /** Nobody reads; the workers from w on are as they were. */
  ghost predicate Written(s: State, s': State, n: nat) {
    SameMain(s, s') && s'.pipe + s'.drops == s.pipe + s.drops + n
  }

  /** The first w workers write their bytes. */
  lemma {:induction false} AllWrite(c: Config, s0: State, s: State, w: nat) returns (s': State)
    requires From(c, s0, s) && w <= |s.workers| && s.pipe <= c.pipeSize
    requires forall i :: 0 <= i < |s.workers| ==> s.workers[i] == if i < w then Posted else Idle
    ensures From(c, s0, s') && Written(s, s', w) && s'.workerQ == s.workerQ && s'.pipe <= c.pipeSize
    ensures |s'.workers| == |s.workers| && forall i :: 0 <= i < |s'.workers| ==> s'.workers[i] == Idle
    decreases w
  {
    s' := s;
    if w > 0 {
      s' := WorkerNotifies(c, s0, s, w - 1);
      s' := AllWrite(c, s0, s', w - 1);
    }
  }

  /** One worker works off what is queued, a byte each. */
  lemma {:induction false} WorkOff(c: Config, s0: State, s: State, n: nat) returns (s': State)
    requires From(c, s0, s) && At(s, 0, Idle) && s.pipe <= c.pipeSize && s.workerQ.stat == n
    ensures From(c, s0, s') && Written(s, s', n) && s'.pipe <= c.pipeSize
    decreases n
  {
    s' := s;
    if n > 0 {
      s' := WorkerPosts(c, s0, s, 0);
      s' := WorkerNotifies(c, s0, s', 0);
      s' := WorkOff(c, s0, s', n - 1);
    }
  }

  /** The bound is reached: with a window of two or more, P + T bytes are written with none read. */
  lemma PipeFillsUp(c: Config) returns (s: State)
    requires Sound(c) && c.prefetch >= 2
    ensures Reaches(c, Init(c), s) && s.pipe + s.drops == c.prefetch + c.threads && s.pipe <= c.pipeSize
  {
    s := ManyStuck(c, c.threads);
    WindowFitsRunners(c);
    assert Uncovered(s) == {};
    s := Receive(c, Init(c), s, c.prefetch);
    s := AllWrite(c, Init(c), s, c.threads);
    s := WorkOff(c, Init(c), s, c.prefetch);
  }

  ghost predicate NeverDrops(c: Config) {
    forall ss: seq<State>, ls: seq<Step>, k: nat :: IsCourteousRun(c, ss, ls) && k < |ss| ==> ss[k].drops == 0
  }

  /** Main result: no courteous run drops a byte exactly when the window is one or the pipe has room
      for P + T bytes. */
  lemma NeverDropsIffWideEnough(c: Config)
    requires Sound(c)
    ensures NeverDrops(c) <==> c.prefetch == 1 || c.pipeSize >= c.prefetch + c.threads
  {
    if WideEnough(c) {
      forall ss: seq<State>, ls: seq<Step>, k: nat | IsCourteousRun(c, ss, ls) && k < |ss|
        ensures ss[k].drops == 0
      {
        WideEnoughNeverDrops(c, ss, ls, k);
      }
    } else {
      var s := PipeFillsUp(c);
      var ss: seq<State>, ls: seq<Step> :| IsPoliteRun(c, ss, ls) && ss[0] == Init(c) && ss[|ls|] == s;
      assert IsCourteousRun(c, ss, ls) && ss[|ls|].drops > 0;
    }
  }

  /** Main result: no wake-up is lost.  Every queued result has a byte in the pipe, a byte about to
      be written, or the byte just read; and even when a short pipe drops bytes, a queued result
      never waits with nothing announcing it. */
  lemma NoWakeupIsLost(c: Config, ss: seq<State>, ls: seq<Step>, k: nat)
    requires IsCourteousRun(c, ss, ls) && k < |ss|
    ensures var s := ss[k];
            && (WideEnough(c) ==>
                  |s.resultQ.items| <= s.pipe + Total(OwesNotify, s.workers) + If(Serves(s.phase)))
            && (s.resultQ.items != [] ==>
                  s.pipe > 0 || Serves(s.phase) || exists w :: 0 <= w < |s.workers| && s.workers[w] in {Pushed, Posted})
  {
    InvAlways(c, ss, ls, k);
    var s := ss[k];
    if WideEnough(c) {
      WideEnoughNeverDrops(c, ss, ls, k);
    }
    if Total(OwesNotify, s.workers) > 0 {
      var w := TotalFind(OwesNotify, s.workers, |s.workers|);
      assert s.workers[w] in {Pushed, Posted};
    }
  }
}
