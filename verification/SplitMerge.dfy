/**
 Test-point mode: a compiled task is split into chunks of tests, the chunks are judged by any
 workers, and their results are merged as they arrive (dispatcher/dispatch_task.cpp).
 */
module SplitMerge {
  import opened BlockQueues
  import opened Judging

  datatype Chunk = Chunk(start: int, len: int)

  // ---- splitting ----

  ghost function End(cs: seq<Chunk>, n: nat): int
    requires n <= |cs|
  {
    if n == 0 then 0 else cs[n - 1].start + cs[n - 1].len
  }

  /** The chunks are non-empty, follow each other without a gap from 0, and end at length. */
  ghost predicate Covers(cs: seq<Chunk>, length: int) {
    && (forall i :: 0 <= i < |cs| ==> cs[i].len > 0 && cs[i].start == End(cs, i))
    && End(cs, |cs|) == length
  }

  /** The number of tests in every chunk but the last. */
  function StepOf(length: nat, threads: nat): nat
    requires threads > 0
  {
    var d := length / threads;
    if d == 0 then 1 else d
  }

  /** It is the T-th part of the tests, rounded down, but at least one. */
  lemma StepIsAShare(length: nat, threads: nat)
    requires threads > 0
    ensures length >= threads ==> threads * StepOf(length, threads) <= length < threads * (StepOf(length, threads) + 1)
    ensures length < threads ==> StepOf(length, threads) == 1
  {
    var q, r := length / threads, length % threads;
    assert length == threads * q + r && 0 <= r < threads;
    assert threads * (q + 1) == threads * q + threads;
    if q == 0 {
      assert threads * q == 0;
    }
  }

  /** 2T - 1 steps reach L. */
  lemma StepsReach(length: nat, threads: nat)
    requires threads > 0
    ensures length <= (2 * threads - 1) * StepOf(length, threads)
  {
    var q, r := length / threads, length % threads;
    assert length == threads * q + r;
    if q == 0 {
      assert threads * q == 0;
    } else {
      Scale(1, q, threads - 1);
      assert (2 * threads - 1) * q == threads * q + (threads - 1) * q;
    }
  }

  lemma Scale(a: nat, b: nat, k: nat)
    requires a <= b
    ensures k * a <= k * b
  {
  }

  /** The number of chunks of d tests that length tests make. */
  function Needed(length: int, d: nat): nat
    requires d > 0
    decreases length
  {
    if length <= 0 then 0 else 1 + Needed(length - d, d)
  }

  lemma {:induction false} NeededUpTo(length: int, d: nat, m: nat)
    requires d > 0 && length <= m * d
    ensures Needed(length, d) <= m
    decreases m
  {
    if length > 0 {
      assert m * d == (m - 1) * d + d;
      NeededUpTo(length - d, d, m - 1);
    }
  }

  lemma {:induction false} NeededAtLeast(length: int, d: nat, m: nat)
    requires d > 0 && m * d <= length
    ensures Needed(length, d) >= m
    decreases m
  {
    if m > 0 {
      assert m * d == (m - 1) * d + d;
      NeededAtLeast(length - d, d, m - 1);
    }
  }

  lemma {:induction false} NeededOnes(length: nat)
    ensures Needed(length, 1) == length
    decreases length
  {
    if length > 0 {
      NeededOnes(length - 1);
    }
  }

  /** With at least as many tests as threads there is a chunk for every thread, with fewer there is one
      for every test. */
  lemma ChunksAreEnough(length: nat, threads: nat)
    requires threads > 0
    ensures length >= threads ==> Needed(length, StepOf(length, threads)) >= threads
    ensures length < threads ==> Needed(length, StepOf(length, threads)) == length
  {
    StepIsAShare(length, threads);
    if length >= threads {
      NeededAtLeast(length, StepOf(length, threads), threads);
    } else {
      NeededOnes(length);
    }
  }

  /** The chunks are at most 2T - 1. */
  lemma ChunksAreFew(length: nat, threads: nat)
    requires threads > 0
    ensures Needed(length, StepOf(length, threads)) <= 2 * threads - 1
  {
    StepsReach(length, threads);
    NeededUpTo(length, StepOf(length, threads), 2 * threads - 1);
  }

  /** Whether cs are the first chunks of a splitting by d, the last of them possibly shorter. */
  ghost predicate Begins(cs: seq<Chunk>, d: nat) {
    && (forall i :: 0 <= i < |cs| ==> cs[i].len > 0 && cs[i].start == End(cs, i))
    && (forall i :: 0 <= i < |cs| - 1 ==> cs[i].len == d)
  }

  lemma OneMoreChunk(cs: seq<Chunk>, c: Chunk, d: nat)
    requires Begins(cs, d) && c.start == End(cs, |cs|) && c.len > 0 && (cs != [] ==> cs[|cs| - 1].len == d)
    ensures Begins(cs + [c], d) && End(cs + [c], |cs| + 1) == c.start + c.len
  {
    var cs' := cs + [c];
    assert cs'[|cs|] == c;
    forall i | 0 <= i < |cs'|
      ensures cs'[i].len > 0 && cs'[i].start == End(cs', i)
    {
      assert i < |cs| ==> cs'[i] == cs[i];
      assert 0 < i ==> cs'[i - 1] == cs[i - 1];
    }
    forall i | 0 <= i < |cs'| - 1
      ensures cs'[i].len == d
    {
      assert cs'[i] == cs[i];
    }
  }

  /** The loop that hands out chunks of d tests, each with a runner: the one in hand, then those of
      the free queue.  Where that queue is empty the program blocks, and finished is false. */
  method SplitBy(length: nat, d: nat, runner: nat, freeQueue: BlockQueue<nat>)
    returns (cs: seq<Chunk>, runners: seq<nat>, finished: bool)
    requires d > 0 && freeQueue.Quiet()
    modifies freeQueue
    ensures freeQueue.Quiet() && Begins(cs, d)
    ensures finished <==> Needed(length, d) <= |old(freeQueue.items)| + 1
    ensures |cs| == if finished then Needed(length, d) else |old(freeQueue.items)| + 1
    ensures |cs| <= |old(freeQueue.items)| + 1
    ensures finished ==> End(cs, |cs|) == length
    ensures runners == ([runner] + old(freeQueue.items))[..|cs|]
    ensures freeQueue.items == if cs == [] then old(freeQueue.items) else old(freeQueue.items)[|cs| - 1..]
  {
    cs, runners := [], [];
    var start, r := 0, runner;
    ghost var all := [runner] + freeQueue.items;
    while start < length
      invariant freeQueue.Quiet() && Begins(cs, d)
      invariant Needed(length, d) == |cs| + Needed(length - start, d)
      invariant cs != [] && start < length ==> cs[|cs| - 1].len == d
      invariant End(cs, |cs|) == if start < length then start else length
      invariant |cs| <= |all| && runners == all[..|cs|]
      invariant start < length ==> |cs| < |all| && r == all[|cs|] && freeQueue.items == all[|cs| + 1..]
      invariant start >= length ==> freeQueue.items == if cs == [] then all[1..] else all[|cs|..]
      decreases length - start
    {
      var len := if d < length - start then d else length - start;
      var c := Chunk(start, len);
      OneMoreChunk(cs, c, d);
      assert all[..|cs| + 1] == runners + [r];
      cs, runners := cs + [c], runners + [r];
      if start + d < length {
        if freeQueue.stat == 0 {
          return cs, runners, false;
        }
        var next := freeQueue.FrontAndPop();
        r := next.value;
      }
      start := start + d;
    }
    finished := true;
  }

  /** Main result on splitting: it finishes exactly when the runners free besides the first are
      enough, which 2T - 2 always are, and then the chunks cover the tests; if not, it waits for a
      runner that only this same thread could free. */
  method Split(length: nat, threads: nat, runner: nat, freeQueue: BlockQueue<nat>)
    returns (cs: seq<Chunk>, runners: seq<nat>, finished: bool)
    requires threads > 0 && freeQueue.Quiet()
    modifies freeQueue
    ensures freeQueue.Quiet() && |cs| <= 2 * threads - 1 && |cs| <= |old(freeQueue.items)| + 1 && |runners| == |cs| && (cs == [] <==> length == 0)
    ensures finished <==> Needed(length, StepOf(length, threads)) <= |old(freeQueue.items)| + 1
    ensures 2 * threads - 2 <= |old(freeQueue.items)| ==> finished
    ensures finished ==> Covers(cs, length) && (length >= threads ==> |cs| >= threads) && (length < threads ==> |cs| == length)
    ensures forall i :: 0 <= i < |cs| - 1 ==>
              if length < threads then cs[i].len == 1 else threads * cs[i].len <= length < threads * (cs[i].len + 1)
    ensures runners == ([runner] + old(freeQueue.items))[..|cs|]
    ensures length > 0 ==> freeQueue.items == old(freeQueue.items)[|cs| - 1..]
    ensures length == 0 ==> freeQueue.items == old(freeQueue.items)
    ensures !finished ==> freeQueue.items == []
  {
    ChunksAreFew(length, threads);
    ChunksAreEnough(length, threads);
    StepIsAShare(length, threads);
    cs, runners, finished := SplitBy(length, StepOf(length, threads), runner, freeQueue);
  }

  // ---- merging ----

  /** The result of one chunk, or of a compilation that failed. */
  datatype Part = Part(start: int, taskNumber: int, compile: bool, runner: bool, status: string, details: seq<Detail>)

  datatype Entry = Entry(
    compile: bool, runner: bool, status: string, details: seq<Detail>, taskLength: int, finishedLen: int)

  ghost predicate PartFits(e: Entry, p: Part) {
    p.compile ==>
      && 0 <= p.start && 0 <= p.taskNumber && p.start + p.taskNumber <= |e.status| == |e.details|
      && |p.status| == |p.details| == p.taskNumber
  }

  /** s with sub written over it from start on. */
  function Overwritten<T>(s: seq<T>, start: int, sub: seq<T>): (r: seq<T>)
    requires 0 <= start && start + |sub| <= |s|
    ensures |r| == |s|
    ensures forall i :: 0 <= i < |s| ==> r[i] == if start <= i < start + |sub| then sub[i - start] else s[i]
  {
    seq(|s|, i requires 0 <= i < |s| => if start <= i < start + |sub| then sub[i - start] else s[i])
  }

  function Merged(e: Entry, p: Part): Entry
    requires PartFits(e, p)
  {
    if p.compile then
      e.(runner := e.runner && p.runner, finishedLen := e.finishedLen + p.taskNumber,
         status := Overwritten(e.status, p.start, p.status),
         details := Overwritten(e.details, p.start, p.details))
    else
      e.(compile := false, runner := false, status := "c", details := [Plain("CE")])
  }

  /** Whether merging p completes the entry. */
  predicate Completes(e: Entry, p: Part) {
    p.compile ==> e.finishedLen + p.taskNumber == e.taskLength
  }

  lemma OverwriteNext<T>(s: seq<T>, start: int, sub: seq<T>, a: nat)
    requires 0 <= start && a < |sub| && start + |sub| <= |s|
    ensures Overwritten(s, start, sub[..a + 1]) == Overwritten(s, start, sub[..a])[start + a := sub[a]]
  {
  }

  class ResultEntry {
    const uuid: string
    const pid: int
    const uid: int
    var compile: bool
    var runner: bool
    var status: string
    var details: seq<Detail>
    const taskLength: int
    var finishedLen: int

    ghost function Value(): Entry
      reads this
    {
      Entry(compile, runner, status, details, taskLength, finishedLen)
    }

    constructor (uuid: string, pid: int, uid: int, length: nat)
      ensures Value() == Blank(length) && this.uuid == uuid && this.pid == pid && this.uid == uid
      ensures compile && runner && finishedLen == 0 && taskLength == length && |status| == |details| == length
      ensures forall i :: 0 <= i < length ==> status[i] == ' ' && details[i] == Plain("")
    {
      this.uuid, this.pid, this.uid := uuid, pid, uid;
      compile, runner, taskLength, finishedLen := true, true, length, 0;
      status, details := Spaces(length), Lines(length);
    }

    /** Takes in the result of a chunk, test by test. */
    method Merge(p: Part) returns (finished: bool)
      requires PartFits(Value(), p)
      modifies this
      ensures Value() == Merged(old(Value()), p)
      ensures finished == Completes(old(Value()), p)
      ensures p.compile ==> (finished <==> finishedLen == taskLength) && finishedLen == old(finishedLen) + p.taskNumber
      ensures p.compile ==> compile == old(compile) && (runner <==> old(runner) && p.runner)
      ensures p.compile ==> |status| == old(|status|) && |details| == old(|details|)
      ensures p.compile ==> forall i :: 0 <= i < |status| ==>
                if p.start <= i < p.start + p.taskNumber
                then status[i] == p.status[i - p.start] && details[i] == p.details[i - p.start]
                else status[i] == old(status)[i] && details[i] == old(details)[i]
      ensures !p.compile ==> finished && !compile && !runner && status == "c" && details == [Plain("CE")]
      ensures !p.compile ==> finishedLen == old(finishedLen)
    {
      if p.compile {
        var before := finishedLen;
        finishedLen := before + p.taskNumber;
        if !p.runner {
          runner := false;
        }
        CopyResults(p);
        finished := before + p.taskNumber == taskLength;
      } else {
        compile, runner := false, false;
        status, details := "c", [Plain("CE")];
        finished := true;
      }
    }

    /** Writes the chunk's letters and lines over those of its tests. */
    method CopyResults(p: Part)
      requires p.compile && PartFits(Value(), p)
      modifies this`status, this`details
      ensures status == Overwritten(old(status), p.start, p.status)
      ensures details == Overwritten(old(details), p.start, p.details)
    {
      var text := status;
      ghost var lines := details;
      for a := 0 to p.taskNumber
        invariant |status| == |lines| && status == old(status)
        invariant text == Overwritten(status, p.start, p.status[..a])
        invariant details == Overwritten(lines, p.start, p.details[..a])
      {
        OverwriteNext(status, p.start, p.status, a);
        OverwriteNext(lines, p.start, p.details, a);
        var dx := p.start + a;
        text := text[dx := p.status[a]];
        details := details[dx := p.details[a]];
      }
      status := text;
      assert p.status[..p.taskNumber] == p.status && p.details[..p.taskNumber] == p.details;
    }
  }

  function Spaces(n: nat): string {
    seq(n, i => ' ')
  }

  function Lines(n: nat): seq<Detail> {
    seq(n, i => Plain(""))
  }

  function Blank(length: nat): Entry {
    Entry(true, true, Spaces(length), Lines(length), length, 0)
  }

  // ---- judging the chunks in any order ----

  /** The letters and lines of chunk c are those of the whole. */
  ghost predicate PartOf(p: Part, c: Chunk, status: string, details: seq<Detail>) {
    && p.compile && p.start == c.start && p.taskNumber == c.len
    && 0 <= c.start && 0 <= c.len && c.start + c.len <= |status| == |details|
    && p.status == status[c.start..c.start + c.len] && p.details == details[c.start..c.start + c.len]
  }

  /** order names chunks, none twice. */
  ghost predicate IsOrder(order: seq<nat>, n: nat) {
    && (forall i :: 0 <= i < |order| ==> order[i] < n)
    && (forall i, j :: 0 <= i < j < |order| ==> order[i] != order[j])
  }

  ghost predicate PartsOf(parts: seq<Part>, cs: seq<Chunk>, status: string, details: seq<Detail>) {
    |parts| == |cs| && forall i :: 0 <= i < |cs| ==> PartOf(parts[i], cs[i], status, details)
  }

  /** The entry after merging the parts named by order, one after the other. */
  ghost function Folded(cs: seq<Chunk>, parts: seq<Part>, order: seq<nat>,
                        status: string, details: seq<Detail>): (e: Entry)
    requires PartsOf(parts, cs, status, details) && |status| == |details|
    requires forall i :: 0 <= i < |order| ==> order[i] < |parts|
    ensures |e.status| == |e.details| == e.taskLength == |status| && e.compile
  {
    if order == [] then Blank(|status|)
    else
      var k := order[|order| - 1];
      assert PartOf(parts[k], cs[k], status, details);
      Merged(Folded(cs, parts, order[..|order| - 1], status, details), parts[k])
  }

  /** The tests of the chunks below n that order names. */
  ghost function Size(cs: seq<Chunk>, order: seq<nat>, n: nat): int
    requires n <= |cs|
  {
    if n == 0 then 0 else Size(cs, order, n - 1) + if n - 1 in order then cs[n - 1].len else 0
  }

  lemma {:induction false} SizeGrows(cs: seq<Chunk>, order: seq<nat>, k: nat, n: nat)
    requires n <= |cs| && k < |cs| && k !in order
    ensures Size(cs, order + [k], n) == Size(cs, order, n) + if k < n then cs[k].len else 0
  {
    if n > 0 {
      SizeGrows(cs, order, k, n - 1);
    }
  }

  lemma {:induction false} SizeOfNone(cs: seq<Chunk>, n: nat)
    requires n <= |cs|
    ensures Size(cs, [], n) == 0
  {
    if n > 0 {
      SizeOfNone(cs, n - 1);
    }
  }

  /** The named chunks hold all tests exactly when every chunk is named. */
  lemma {:induction false} SizeIsFullIffAllNamed(cs: seq<Chunk>, length: int, order: seq<nat>, n: nat)
    requires Covers(cs, length) && n <= |cs|
    ensures Size(cs, order, n) <= End(cs, n)
    ensures Size(cs, order, n) == End(cs, n) <==> forall k :: 0 <= k < n ==> k in order
  {
    if n > 0 {
      SizeIsFullIffAllNamed(cs, length, order, n - 1);
      assert cs[n - 1].start == End(cs, n - 1);
    }
  }

  ghost function Named(order: seq<nat>): set<nat> {
    set k | k in order
  }

  ghost function UpTo(n: nat): set<nat> {
    if n == 0 then {} else UpTo(n - 1) + {n - 1}
  }

  lemma {:induction false} UpToHas(n: nat)
    ensures |UpTo(n)| == n && forall k: nat :: k in UpTo(n) <==> k < n
  {
    if n > 0 {
      UpToHas(n - 1);
    }
  }

  lemma {:induction false} NamedSize(order: seq<nat>, n: nat)
    requires IsOrder(order, n)
    ensures |Named(order)| == |order|
  {
    if order != [] {
      var front, last := order[..|order| - 1], order[|order| - 1];
      NamedSize(front, n);
      assert Named(order) == Named(front) + {last};
    }
  }

  /** n distinct numbers below n are all of them. */
  lemma AllNamedIffLong(order: seq<nat>, n: nat)
    requires IsOrder(order, n)
    ensures |order| <= n
    ensures |order| == n <==> forall k :: 0 <= k < n ==> k in order
  {
    UpToHas(n);
    NamedSize(order, n);
    assert UpTo(n) == Named(order) + (UpTo(n) - Named(order));
    if forall k :: 0 <= k < n ==> k in order {
      assert UpTo(n) - Named(order) == {};
    }
    if |order| == n {
      forall k: nat | k < n
        ensures k in order
      {
        assert k in UpTo(n) && k !in UpTo(n) - Named(order);
      }
    }
  }

  // ---- the entry after any of the chunks, in any order ----

  lemma {:induction false} EndsAscend(cs: seq<Chunk>, length: int, i: nat, j: nat)
    requires Covers(cs, length) && i <= j <= |cs|
    ensures 0 <= End(cs, i) <= End(cs, j)
  {
    if j > 0 {
      if i < j {
        EndsAscend(cs, length, i, j - 1);
      } else {
        EndsAscend(cs, length, i - 1, j - 1);
      }
      assert cs[j - 1].start == End(cs, j - 1);
    }
  }

  lemma ChunkInRange(cs: seq<Chunk>, length: int, k: nat)
    requires Covers(cs, length) && k < |cs|
    ensures 0 <= cs[k].start && 0 < cs[k].len && cs[k].start + cs[k].len <= length
  {
    EndsAscend(cs, length, 0, k);
    EndsAscend(cs, length, k + 1, |cs|);
  }

  ghost predicate Within(x: int, c: Chunk) {
    c.start <= x < c.start + c.len
  }

  /** Different chunks share no test. */
  lemma ChunksAreDisjoint(cs: seq<Chunk>, length: int, i: nat, j: nat, x: int)
    requires Covers(cs, length) && i < |cs| && j < |cs| && Within(x, cs[i]) && Within(x, cs[j])
    ensures i == j
  {
    if i < j {
      EndsAscend(cs, length, i + 1, j);
    } else if j < i {
      EndsAscend(cs, length, j + 1, i);
    }
  }

  lemma {:induction false} TestIsInAChunk(cs: seq<Chunk>, length: int, n: nat, x: int) returns (k: nat)
    requires Covers(cs, length) && n <= |cs| && 0 <= x < End(cs, n)
    ensures k < n && Within(x, cs[k])
  {
    if x >= cs[n - 1].start {
      k := n - 1;
    } else {
      k := TestIsInAChunk(cs, length, n - 1, x);
    }
  }

  /** s with the chunks named by order copied over from whole, one after the other. */
  ghost function Laid<T>(s: seq<T>, whole: seq<T>, cs: seq<Chunk>, order: seq<nat>): (r: seq<T>)
    requires |s| == |whole| && Covers(cs, |s|) && forall i :: 0 <= i < |order| ==> order[i] < |cs|
    ensures |r| == |s|
  {
    if order == [] then s
    else
      var c := cs[order[|order| - 1]];
      ChunkInRange(cs, |s|, order[|order| - 1]);
      Overwritten(Laid(s, whole, cs, order[..|order| - 1]), c.start, whole[c.start..c.start + c.len])
  }

  lemma LaidStep<T>(s: seq<T>, whole: seq<T>, cs: seq<Chunk>, order: seq<nat>, before: seq<T>)
    requires |s| == |whole| && Covers(cs, |s|)
    requires order != [] && forall i :: 0 <= i < |order| ==> order[i] < |cs|
    requires before == Laid(s, whole, cs, order[..|order| - 1])
    ensures var c := cs[order[|order| - 1]];
            && 0 <= c.start && 0 < c.len && c.start + c.len <= |s|
            && Laid(s, whole, cs, order) == Overwritten(before, c.start, whole[c.start..c.start + c.len])
  {
    ChunkInRange(cs, |s|, order[|order| - 1]);
  }

  /** A test has its value copied exactly when its chunk is named. */
  lemma {:induction false} LaidAt<T>(s: seq<T>, whole: seq<T>, cs: seq<Chunk>, order: seq<nat>, x: nat, j: nat)
    requires |s| == |whole| && Covers(cs, |s|) && forall i :: 0 <= i < |order| ==> order[i] < |cs|
    requires j < |cs| && Within(x, cs[j]) && x < |s|
    ensures Laid(s, whole, cs, order)[x] == if j in order then whole[x] else s[x]
  {
    if order != [] {
      var front, k := order[..|order| - 1], order[|order| - 1];
      assert order == front + [k];
      LaidAt(s, whole, cs, front, x, j);
      LaidStep(s, whole, cs, order, Laid(s, whole, cs, front));
      if Within(x, cs[k]) {
        ChunksAreDisjoint(cs, |s|, k, j, x);
      }
    }
  }

  lemma LaidAll<T>(s: seq<T>, whole: seq<T>, cs: seq<Chunk>, order: seq<nat>)
    requires |s| == |whole| && Covers(cs, |s|) && forall i :: 0 <= i < |order| ==> order[i] < |cs|
    requires forall k :: 0 <= k < |cs| ==> k in order
    ensures Laid(s, whole, cs, order) == whole
  {
    forall x: nat | x < |s|
      ensures Laid(s, whole, cs, order)[x] == whole[x]
    {
      var j := TestIsInAChunk(cs, |s|, |cs|, x);
      LaidAt(s, whole, cs, order, x, j);
    }
  }

  ghost predicate AllRun(parts: seq<Part>) {
    forall k :: 0 <= k < |parts| ==> parts[k].runner
  }

  ghost predicate FlagsOf(parts: seq<Part>, order: seq<nat>)
    requires forall i :: 0 <= i < |order| ==> order[i] < |parts|
  {
    forall i :: 0 <= i < |order| ==> parts[order[i]].runner
  }

  lemma FoldStep(cs: seq<Chunk>, parts: seq<Part>, order: seq<nat>, status: string, details: seq<Detail>)
    requires PartsOf(parts, cs, status, details) && |status| == |details|
    requires order != [] && forall i :: 0 <= i < |order| ==> order[i] < |parts|
    ensures var (n, k) := (|order| - 1, order[|order| - 1]);
            var (e, e', c) := (Folded(cs, parts, order[..n], status, details),
                               Folded(cs, parts, order, status, details), cs[k]);
            && 0 <= c.start && 0 <= c.len && c.start + c.len <= |status|
            && e'.status == Overwritten(e.status, c.start, status[c.start..c.start + c.len])
            && e'.details == Overwritten(e.details, c.start, details[c.start..c.start + c.len])
            && e'.finishedLen == e.finishedLen + c.len && e'.runner == (e.runner && parts[k].runner)
  {
    var k := order[|order| - 1];
    assert PartOf(parts[k], cs[k], status, details);
  }

  /** The letters of the entry after merging the chunks named by order. */
  lemma {:induction false} StatusIsLaid(cs: seq<Chunk>, parts: seq<Part>, order: seq<nat>, status: string, details: seq<Detail>)
    requires Covers(cs, |status|) && PartsOf(parts, cs, status, details) && |status| == |details|
    requires forall i :: 0 <= i < |order| ==> order[i] < |cs|
    ensures Folded(cs, parts, order, status, details).status == Laid(Spaces(|status|), status, cs, order)
  {
    if order != [] {
      var front := order[..|order| - 1];
      StatusIsLaid(cs, parts, front, status, details);
      FoldStep(cs, parts, order, status, details);
      LaidStep(Spaces(|status|), status, cs, order, Folded(cs, parts, front, status, details).status);
    }
  }

  /** Its lines. */
  lemma {:induction false} DetailsAreLaid(cs: seq<Chunk>, parts: seq<Part>, order: seq<nat>, status: string, details: seq<Detail>)
    requires Covers(cs, |status|) && PartsOf(parts, cs, status, details) && |status| == |details|
    requires forall i :: 0 <= i < |order| ==> order[i] < |cs|
    ensures Folded(cs, parts, order, status, details).details == Laid(Lines(|status|), details, cs, order)
  {
    if order != [] {
      var front := order[..|order| - 1];
      DetailsAreLaid(cs, parts, front, status, details);
      FoldStep(cs, parts, order, status, details);
      LaidStep(Lines(|status|), details, cs, order, Folded(cs, parts, front, status, details).details);
    }
  }

  /** Its count and its flag. */
  lemma {:induction false} FoldedCounts(cs: seq<Chunk>, parts: seq<Part>, order: seq<nat>, status: string, details: seq<Detail>)
    requires PartsOf(parts, cs, status, details) && |status| == |details| && IsOrder(order, |cs|)
    ensures Folded(cs, parts, order, status, details).finishedLen == Size(cs, order, |cs|)
    ensures Folded(cs, parts, order, status, details).runner <==> FlagsOf(parts, order)
  {
    if order == [] {
      SizeOfNone(cs, |cs|);
    } else {
      var front, k := order[..|order| - 1], order[|order| - 1];
      FoldedCounts(cs, parts, front, status, details);
      FoldStep(cs, parts, order, status, details);
      assert order == front + [k] && k !in front;
      SizeGrows(cs, front, k, |cs|);
      FlagsGrow(parts, front, k);
    }
  }

  lemma FlagsGrow(parts: seq<Part>, order: seq<nat>, k: nat)
    requires k < |parts| && forall i :: 0 <= i < |order| ==> order[i] < |parts|
    ensures (forall i :: 0 <= i < |order + [k]| ==> (order + [k])[i] < |parts|)
    ensures FlagsOf(parts, order + [k]) <==> FlagsOf(parts, order) && parts[k].runner
  {
    var all := order + [k];
    assert all[|order|] == k && forall i :: 0 <= i < |order| ==> all[i] == order[i];
  }

  lemma LastIffFull(cs: seq<Chunk>, length: int, order: seq<nat>, k: nat)
    requires Covers(cs, length) && IsOrder(order, |cs|) && k < |cs| && k !in order
    ensures Size(cs, order, |cs|) + cs[k].len == length <==> |order| + 1 == |cs|
  {
    SizeGrows(cs, order, k, |cs|);
    SizeIsFullIffAllNamed(cs, length, order + [k], |cs|);
    AllNamedIffLong(order + [k], |cs|);
  }

  /** A part completes the entry exactly when it is the last of the chunks to arrive. */
  lemma {:induction false} CompletesExactlyOnTheLast(cs: seq<Chunk>, parts: seq<Part>, order: seq<nat>, k: nat,
                                  status: string, details: seq<Detail>)
    requires Covers(cs, |status|) && PartsOf(parts, cs, status, details) && |status| == |details|
    requires IsOrder(order, |cs|) && k < |cs| && k !in order
    ensures Completes(Folded(cs, parts, order, status, details), parts[k]) <==> |order| + 1 == |cs|
  {
    FoldedCounts(cs, parts, order, status, details);
    LastIffFull(cs, |status|, order, k);
    assert PartOf(parts[k], cs[k], status, details);
  }

  /** Merging all chunks, in whatever order they arrive, gives the letters and lines of the whole,
      and the runner flag that is the conjunction of theirs. */
  lemma {:induction false} MergedInAnyOrder(cs: seq<Chunk>, parts: seq<Part>, order: seq<nat>, status: string, details: seq<Detail>)
    requires Covers(cs, |status|) && PartsOf(parts, cs, status, details) && |status| == |details|
    requires IsOrder(order, |cs|) && |order| == |cs|
    ensures var e := Folded(cs, parts, order, status, details);
            && e.compile && e.status == status && e.details == details && e.finishedLen == e.taskLength == |status|
            && (e.runner <==> AllRun(parts))
  {
    AllNamedIffLong(order, |cs|);
    StatusIsLaid(cs, parts, order, status, details);
    DetailsAreLaid(cs, parts, order, status, details);
    LaidAll(Spaces(|status|), status, cs, order);
    LaidAll(Lines(|status|), details, cs, order);
    FoldedCounts(cs, parts, order, status, details);
    SizeIsFullIffAllNamed(cs, |status|, order, |cs|);
    FlagsOfAll(parts, order);
  }

  lemma FlagsOfAll(parts: seq<Part>, order: seq<nat>)
    requires IsOrder(order, |parts|) && forall k :: 0 <= k < |parts| ==> k in order
    ensures FlagsOf(parts, order) <==> AllRun(parts)
  {
    if FlagsOf(parts, order) {
      forall k: nat | k < |parts|
        ensures parts[k].runner
      {
        assert k in order;
        var i :| 0 <= i < |order| && order[i] == k;
        assert parts[order[i]].runner;
      }
    }
  }

  // ---- against one sequential judging of all the tests ----

  /** Part p carries what the judging loop gives for chunk c of the problem's tests. */
  ghost predicate IsJudged(p: Part, c: Chunk, pid: int, tests: int -> Trial) {
    && p.compile && p.start == c.start && 0 <= p.taskNumber == c.len
    && var r := Ran(pid, tests, c.start, c.len);
       p.status == r.status && p.details == r.details && p.runner == (Resno(pid, tests, c.start, c.len) == NONE)
  }

  lemma SameTests(q: Report, r: Report, pid: int, tests: int -> Trial, c: Chunk, length: int)
    requires pid != 0 && 0 <= c.start && 0 <= c.len && c.start + c.len <= length
    requires Reports(q, pid, tests, c.start, c.len) && Reports(r, pid, tests, 0, length)
    ensures q.status == r.status[c.start..c.start + c.len] && q.details == r.details[c.start..c.start + c.len]
  {
  }

  /** Then it is a part of the report r of all the tests, and its flag says that all its letters are 'a'. */
  lemma JudgedChunkIsPartOfWhole(p: Part, c: Chunk, pid: int, tests: int -> Trial, r: Report, length: int)
    requires pid != 0 && IsJudged(p, c, pid, tests) && 0 <= c.start && 0 <= c.len && c.start + c.len <= length
    requires Reports(r, pid, tests, 0, length)
    ensures PartOf(p, c, r.status, r.details)
    ensures p.runner <==> AllAccepted(p.status)
  {
    var q := Ran(pid, tests, c.start, c.len);
    EntriesOfRan(pid, tests, c.start, c.len);
    SameTests(q, r, pid, tests, c, length);
    NoErrorIffAllAccepted(q, pid, tests, c.start, c.len);
  }

  lemma LetterOfPart(p: Part, c: Chunk, status: string, details: seq<Detail>, x: int)
    requires PartOf(p, c, status, details) && Within(x, c)
    ensures p.status[x - c.start] == status[x]
  {
  }

  lemma AcceptedPart(p: Part, c: Chunk, status: string, details: seq<Detail>)
    requires PartOf(p, c, status, details) && AllAccepted(status)
    ensures AllAccepted(p.status)
  {
  }

  lemma AllFlagsIffAllLetters(cs: seq<Chunk>, parts: seq<Part>, status: string, details: seq<Detail>)
    requires Covers(cs, |status|) && PartsOf(parts, cs, status, details)
    requires forall k :: 0 <= k < |cs| ==> (parts[k].runner <==> AllAccepted(parts[k].status))
    ensures AllRun(parts) <==> AllAccepted(status)
  {
    if AllRun(parts) {
      forall x: nat | x < |status|
        ensures status[x] == 'a'
      {
        var k := TestIsInAChunk(cs, |status|, |cs|, x);
        assert parts[k].runner;
        LetterOfPart(parts[k], cs[k], status, details, x);
      }
    }
    if AllAccepted(status) {
      forall k: nat | k < |cs|
        ensures parts[k].runner
      {
        AcceptedPart(parts[k], cs[k], status, details);
      }
    }
  }

  /** Main result on test-point mode: splitting the tests, judging the chunks, and merging their
      results in whatever order they arrive gives exactly the status, the lines and the verdict of
      judging all the tests one after the other. */
  lemma {:induction false} SplitJudgeMergeIsSequential(cs: seq<Chunk>, parts: seq<Part>, order: seq<nat>, pid: int,
                                    tests: int -> Trial, length: nat)
    requires pid != 0 && Covers(cs, length) && |parts| == |cs|
    requires forall k :: 0 <= k < |cs| ==> IsJudged(parts[k], cs[k], pid, tests)
    requires IsOrder(order, |cs|) && |order| == |cs|
    ensures var r := Ran(pid, tests, 0, length);
            && PartsOf(parts, cs, r.status, r.details) && |r.status| == |r.details| == length
            && var e := Folded(cs, parts, order, r.status, r.details);
               && e.compile && e.status == r.status && e.details == r.details
               && (e.runner <==> Resno(pid, tests, 0, length) == NONE)
  {
    var r := Ran(pid, tests, 0, length);
    EntriesOfRan(pid, tests, 0, length);
    NoErrorIffAllAccepted(r, pid, tests, 0, length);
    PartsAreOfTheWhole(cs, parts, pid, tests, length, r);
    MergedInAnyOrder(cs, parts, order, r.status, r.details);
    AllFlagsIffAllLetters(cs, parts, r.status, r.details);
  }

  lemma PartsAreOfTheWhole(cs: seq<Chunk>, parts: seq<Part>, pid: int, tests: int -> Trial, length: nat, r: Report)
    requires pid != 0 && Covers(cs, length) && |parts| == |cs| && Reports(r, pid, tests, 0, length)
    requires forall k :: 0 <= k < |cs| ==> IsJudged(parts[k], cs[k], pid, tests)
    ensures PartsOf(parts, cs, r.status, r.details)
    ensures forall k :: 0 <= k < |cs| ==> (parts[k].runner <==> AllAccepted(parts[k].status))
  {
    forall k: nat | k < |cs|
      ensures PartOf(parts[k], cs[k], r.status, r.details)
      ensures parts[k].runner <==> AllAccepted(parts[k].status)
    {
      ChunkInRange(cs, length, k);
      JudgedChunkIsPartOfWhole(parts[k], cs[k], pid, tests, r, length);
    }
  }
}
