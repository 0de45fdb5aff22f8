/**
 Judging a program over a range of tests (judger/runner.cpp, judger/exec_base.cpp): how a finished
 child process is classified, and how the classifications add up to a verdict.
 */
module Judging {
  import opened Options

  datatype State = AC | COMPLETE | WA | CE | RE | TLE | MLE | UKE | FAIL | ERROR

  datatype Errors = NONE | FILE_NOT_EXISTED | TESTCASE_COUNT_ERROR | RUN_CODE_ERROR

  datatype Signal = SIGILL | SIGBUS | SIGSEGV | SIGFPE | SIGXFSZ | SIGKILL | SIGSYS | SIGHUP | OtherSignal(n: int)

  datatype WaitStatus = Exited(code: nat) | Signaled(sig: Signal) | Neither

  /** maxrss is in KiB. */
  datatype Usage = Usage(maxrss: nat, userSec: nat, userMicro: nat, sysSec: nat, sysMicro: nat)

  /** A child that has been waited for, with the wall time measured around the wait. */
  datatype Child = Child(status: WaitStatus, wall: int, usage: Usage)

  datatype ExecResult = ExecResult(state: State, time: int, memory: real, code: int, sig: Option<Signal>, details: string)

  /** A line of the report; the formatted ones keep the number they show. */
  datatype Detail = Plain(text: string) | MemoryLine(memory: real) | TimeLine(time: int) | SignalLine(sig: Option<Signal>)

  /** What the outside shows for one test; user is None when waiting failed. */
  datatype Test = Test(present: bool, user: Option<Child>, checker: WaitStatus, comment: string, output: string)

  datatype Limits = Limits(time: int, memory: int)

  const NO_LIMIT := -1
  const MB := 1024 * 1024

  function CpuMillis(u: Usage): nat {
    (u.userSec + u.sysSec) * 1000 + (u.userMicro + u.sysMicro) / 1000
  }

  function GetChildState(c: Child, l: Limits): ExecResult {
    var memory := c.usage.maxrss as real / 1024.0;
    match c.status
    case Exited(code) =>
      if NO_LIMIT != l.time && c.wall > l.time then ExecResult(TLE, c.wall, memory, code, None, "")
      else if NO_LIMIT != l.memory && c.usage.maxrss / 1024 > l.memory then ExecResult(MLE, c.wall, memory, code, None, "")
      else ExecResult(COMPLETE, CpuMillis(c.usage), memory, code, None, "")
    case Signaled(sig) =>
      var state := match sig
        case SIGKILL => if c.wall > l.time then TLE else if c.usage.maxrss / MB > l.memory then MLE else RE
        case SIGHUP => COMPLETE
        case OtherSignal(_) => UKE
        case _ => RE;
      ExecResult(state, c.wall, memory, -1, Some(sig), "")
    case Neither => ExecResult(FAIL, c.wall, memory, -1, None, "")
  }

  // How a finished child is classified: one condition for each state.

  lemma TimedOutExactlyWhen(c: Child, l: Limits)
    ensures GetChildState(c, l).state == TLE <==>
              || (c.status.Exited? && l.time != -1 && c.wall > l.time)
              || (c.status == Signaled(SIGKILL) && c.wall > l.time)
  {
  }

  /** The memory limit is in MiB; the exit is held against KiB / 1024, the kill against KiB / 1024^2. */
  lemma OverMemoryExactlyWhen(c: Child, l: Limits)
    ensures GetChildState(c, l).state == MLE <==>
              || (c.status.Exited? && (l.time == -1 || c.wall <= l.time) && l.memory != -1 && c.usage.maxrss / 1024 > l.memory)
              || (c.status == Signaled(SIGKILL) && c.wall <= l.time && c.usage.maxrss / 1048576 > l.memory)
  {
  }

  lemma CrashedExactlyWhen(c: Child, l: Limits)
    ensures GetChildState(c, l).state == RE <==>
              || (c.status.Signaled? && c.status.sig in {SIGILL, SIGBUS, SIGSEGV, SIGFPE, SIGXFSZ, SIGSYS})
              || (c.status == Signaled(SIGKILL) && c.wall <= l.time && c.usage.maxrss / 1048576 <= l.memory)
  {
  }

  lemma CompleteExactlyWhen(c: Child, l: Limits)
    ensures GetChildState(c, l).state == COMPLETE <==>
              || c.status == Signaled(SIGHUP)
              || (c.status.Exited? && (l.time == -1 || c.wall <= l.time) &&
                  (l.memory == -1 || c.usage.maxrss / 1024 <= l.memory))
  {
  }

  lemma UnknownExactlyWhen(c: Child, l: Limits)
    ensures GetChildState(c, l).state == UKE <==> c.status.Signaled? && c.status.sig.OtherSignal?
    ensures GetChildState(c, l).state == FAIL <==> c.status == Neither
  {
  }

  /** The CPU time, in whole milliseconds, is reported of a program that ended by itself within the
      limits, and the wall time of any other; the memory is always the peak in MiB. */
  lemma MeasuresOfAChild(c: Child, l: Limits)
    ensures var r := GetChildState(c, l);
            && (if c.status.Exited? && r.state == COMPLETE then
                  var micros := (c.usage.userSec + c.usage.sysSec) * 1000000 + c.usage.userMicro + c.usage.sysMicro;
                  1000 * r.time <= micros < 1000 * (r.time + 1)
                else r.time == c.wall)
            && r.memory * 1024.0 == c.usage.maxrss as real
            && r.code == (if c.status.Exited? then c.status.code else -1)
            && r.sig == (if c.status.Signaled? then Some(c.status.sig) else None)
  {
  }

  function UserRun(t: Test, l: Limits): ExecResult {
    match t.user
    case None => ExecResult(UKE, 0, 0.0, -1, None, "")
    case Some(c) => GetChildState(c, l)
  }

  /** The checker runs under three times the limits, with no time and no memory measured. */
  function CheckerRun(t: Test, l: Limits): ExecResult {
    var res := GetChildState(Child(t.checker, -1, Usage(0, 0, 0, 0, 0)), Limits(l.time * 3, l.memory * 3));
    if res.state == COMPLETE then
      if res.code != 0 then res.(state := WA, details := t.comment) else res.(state := AC)
    else res.(state := UKE)
  }

  /** A user run is never classified as accepted, wrong, or a compile error. */
  lemma UserRunLeavesTheVerdictToTheChecker(t: Test, l: Limits)
    ensures UserRun(t, l).state !in {AC, WA, CE, ERROR}
  {
  }

  /** The checker reports no time above 0 and no memory. */
  lemma CheckerReportsNothing(t: Test, l: Limits)
    ensures CheckerRun(t, l).time <= 0 && CheckerRun(t, l).memory == 0.0
  {
  }

  /** When waiting for the program failed, nothing is known and nothing measured. */
  lemma UserRunIsTheChilds(t: Test, l: Limits)
    ensures t.user == None ==>
              var r := UserRun(t, l); r.state == UKE && r.time == 0 && r.memory == 0.0 && r.code == -1 && r.sig == None
    ensures t.user.Some? ==> UserRun(t, l) == GetChildState(t.user.value, l)
  {
  }

  /** The checker accepts by returning 0 and rejects by any other code or by a hang-up; anything else
      is a failure of the checker. With a negative limit even a return is. */
  lemma CheckerRunExactly(t: Test, l: Limits)
    ensures CheckerRun(t, l).state == AC <==> t.checker == Exited(0) && l.time >= 0 && l.memory >= 0
    ensures CheckerRun(t, l).state == WA <==>
              || (t.checker.Exited? && t.checker.code != 0 && l.time >= 0 && l.memory >= 0)
              || t.checker == Signaled(SIGHUP)
    ensures CheckerRun(t, l).state in {AC, WA, UKE}
    ensures CheckerRun(t, l).state == WA ==> CheckerRun(t, l).details == t.comment
  {
  }

  /** What the judging loop learns of a test. */
  datatype RawTrial = RawTrial(present: bool, user: ExecResult, checker: ExecResult, output: string)

  type Trial = t: RawTrial | t.user.state !in {AC, WA, CE, ERROR} && t.checker.time <= 0 && t.checker.memory == 0.0
    witness RawTrial(false, ExecResult(UKE, 0, 0.0, -1, None, ""), ExecResult(UKE, 0, 0.0, -1, None, ""), "")

  function TrialOf(t: Test, l: Limits): Trial {
    UserRunLeavesTheVerdictToTheChecker(t, l);
    CheckerReportsNothing(t, l);
    RawTrial(t.present, UserRun(t, l), CheckerRun(t, l), t.output)
  }

  function LetterOf(s: State): char {
    match s
    case AC => 'a'
    case CE => 'c'
    case MLE => 'm'
    case TLE => 't'
    case RE => 'r'
    case WA => 'w'
    case _ => 'u'
  }

  function DetailOf(res: ExecResult): Detail {
    match res.state
    case AC => Plain("AC")
    case CE => Plain("CE")
    case MLE => MemoryLine(res.memory)
    case TLE => TimeLine(res.time)
    case RE => SignalLine(res.sig)
    case WA => Plain(res.details)
    case _ => Plain("UKE")
  }

  /** What decides a test: the user's run, or the checker's when that completed. */
  function Deciding(t: Trial): ExecResult {
    if t.user.state == COMPLETE then t.checker else t.user
  }

  function Letter(t: Trial): char {
    LetterOf(Deciding(t).state)
  }

  function Line(t: Trial): Detail {
    DetailOf(Deciding(t))
  }

  /** A test is passed exactly when the program ended by itself (or by a hang-up) within the limits
      and the checker returned 0; a limit switched off with -1 makes every test fail, because the
      checker's tripled limit is no longer the one that means "no limit". */
  lemma PassedExactlyWhen(t: Test, l: Limits)
    ensures Letter(TrialOf(t, l)) == 'a' <==>
              && l.time >= 0 && l.memory >= 0 && t.checker == Exited(0) && t.user.Some?
              && var c := t.user.value;
                 c.status == Signaled(SIGHUP) ||
                 (c.status.Exited? && c.wall <= l.time && c.usage.maxrss / 1024 <= l.memory)
  {
    assert NO_LIMIT != l.time * 3 && NO_LIMIT != l.memory * 3;
  }

  // The letter and the line of a test, from what the outside shows.

  /** 't': the program returned or was killed after the time limit; the line shows the wall time. */
  lemma TimeOutExactlyWhen(t: Test, l: Limits)
    ensures Letter(TrialOf(t, l)) == 't' <==>
              && t.user.Some?
              && var c := t.user.value;
                 && (c.status.Exited? || c.status == Signaled(SIGKILL)) && c.wall > l.time
                 && !(c.status.Exited? && l.time == -1)
    ensures Letter(TrialOf(t, l)) == 't' ==> Line(TrialOf(t, l)) == TimeLine(t.user.value.wall)
  {
    UserRunIsTheChilds(t, l);
    CheckerRunExactly(t, l);
  }

  /** 'm': within the time limit it returned or was killed over the memory limit; the line shows the
      peak memory. */
  lemma MemoryOutExactlyWhen(t: Test, l: Limits)
    ensures Letter(TrialOf(t, l)) == 'm' <==>
              && t.user.Some?
              && var c := t.user.value;
                 || (c.status.Exited? && (l.time == -1 || c.wall <= l.time) && l.memory != -1 &&
                     c.usage.maxrss / 1024 > l.memory)
                 || (c.status == Signaled(SIGKILL) && c.wall <= l.time && c.usage.maxrss / 1048576 > l.memory)
    ensures Letter(TrialOf(t, l)) == 'm' ==> Line(TrialOf(t, l)) == MemoryLine(t.user.value.usage.maxrss as real / 1024.0)
  {
    UserRunIsTheChilds(t, l);
    CheckerRunExactly(t, l);
  }

  /** 'r': a fault or forbidden call, or a kill within both limits; the line shows the signal. */
  lemma CrashExactlyWhen(t: Test, l: Limits)
    ensures Letter(TrialOf(t, l)) == 'r' <==>
              && t.user.Some?
              && var c := t.user.value;
                 || (c.status.Signaled? && c.status.sig in {SIGILL, SIGBUS, SIGSEGV, SIGFPE, SIGXFSZ, SIGSYS})
                 || (c.status == Signaled(SIGKILL) && c.wall <= l.time && c.usage.maxrss / 1048576 <= l.memory)
    ensures Letter(TrialOf(t, l)) == 'r' ==> Line(TrialOf(t, l)) == SignalLine(Some(t.user.value.status.sig))
  {
    UserRunIsTheChilds(t, l);
    CheckerRunExactly(t, l);
  }

  /** 'w': the program completed and the checker rejected; the line is the checker's comment. */
  lemma WrongExactlyWhen(t: Test, l: Limits)
    ensures Letter(TrialOf(t, l)) == 'w' <==>
              && t.user.Some?
              && (var c := t.user.value;
                  || c.status == Signaled(SIGHUP)
                  || (c.status.Exited? && (l.time == -1 || c.wall <= l.time) &&
                      (l.memory == -1 || c.usage.maxrss / 1024 <= l.memory)))
              && (|| (t.checker.Exited? && t.checker.code != 0 && l.time >= 0 && l.memory >= 0)
                  || t.checker == Signaled(SIGHUP))
    ensures Letter(TrialOf(t, l)) == 'w' ==> Line(TrialOf(t, l)) == Plain(t.comment)
  {
    UserRunIsTheChilds(t, l);
    CheckerRunExactly(t, l);
  }

  /** 'u': waiting failed, the child ended in no known way, or it completed and the checker failed. */
  lemma UnknownLetterExactlyWhen(t: Test, l: Limits)
    ensures Letter(TrialOf(t, l)) == 'u' <==>
              || t.user == None
              || t.user.value.status == Neither
              || (t.user.value.status.Signaled? && t.user.value.status.sig.OtherSignal?)
              || (var c := t.user.value;
                  && (|| c.status == Signaled(SIGHUP)
                      || (c.status.Exited? && (l.time == -1 || c.wall <= l.time) &&
                          (l.memory == -1 || c.usage.maxrss / 1024 <= l.memory)))
                  && t.checker != Signaled(SIGHUP)
                  && (!t.checker.Exited? || l.time < 0 || l.memory < 0))
    ensures Letter(TrialOf(t, l)) == 'u' ==> Line(TrialOf(t, l)) == Plain("UKE")
  {
    UserRunIsTheChilds(t, l);
    CheckerRunExactly(t, l);
  }

  /** No other letter occurs, and the line of a passed test says so. */
  lemma LettersOfATest(t: Test, l: Limits)
    ensures Letter(TrialOf(t, l)) in {'a', 't', 'm', 'r', 'w', 'u'}
    ensures Letter(TrialOf(t, l)) == 'a' ==> Line(TrialOf(t, l)) == Plain("AC")
  {
    UserRunLeavesTheVerdictToTheChecker(t, l);
    CheckerRunExactly(t, l);
  }

  /** The loop sees of a test the program's run, whether its input is there, and the output. */
  lemma TrialShows(t: Test, l: Limits)
    ensures var r := TrialOf(t, l);
            && r.present == t.present && r.output == t.output && r.user == UserRun(t, l)
            && (r.user.state == COMPLETE <==>
                  && t.user.Some?
                  && var c := t.user.value;
                     || c.status == Signaled(SIGHUP)
                     || (c.status.Exited? && (l.time == -1 || c.wall <= l.time) &&
                         (l.memory == -1 || c.usage.maxrss / 1024 <= l.memory)))
  {
    UserRunIsTheChilds(t, l);
  }

  function Max(a: int, b: int): int {
    if a < b then b else a
  }

  function MaxReal(a: real, b: real): real {
    if a < b then b else a
  }

  /** The collected results of a run over tests. */
  class ResultGroup {
    var status: string
    var details: seq<Detail>
    var maxTime: int
    var maxMemory: real

    constructor ()
      ensures status == [] && details == [] && maxTime == 0 && maxMemory == 0.0
    {
      status, details, maxTime, maxMemory := [], [], 0, 0.0;
    }

    method Raise(time: int, memory: real)
      modifies this`maxTime, this`maxMemory
      ensures maxTime == Max(old(maxTime), time) && maxMemory == MaxReal(old(maxMemory), memory)
    {
      maxTime := Max(maxTime, time);
      maxMemory := MaxReal(maxMemory, memory);
    }

    /** Takes over a classified result. */
    method Update(res: ExecResult)
      modifies this
      ensures status == old(status) + [LetterOf(res.state)] && details == old(details) + [DetailOf(res)]
      ensures status[|status| - 1] ==
                if res.state == AC then 'a' else if res.state == CE then 'c' else if res.state == MLE then 'm'
                else if res.state == TLE then 't' else if res.state == RE then 'r' else if res.state == WA then 'w'
                else 'u'
      ensures details[|details| - 1] ==
                if res.state == AC then Plain("AC") else if res.state == CE then Plain("CE")
                else if res.state == MLE then MemoryLine(res.memory) else if res.state == TLE then TimeLine(res.time)
                else if res.state == RE then SignalLine(res.sig) else if res.state == WA then Plain(res.details)
                else Plain("UKE")
      ensures maxTime == Max(old(maxTime), res.time) && maxMemory == MaxReal(old(maxMemory), res.memory)
    {
      Raise(res.time, res.memory);
      status := status + [LetterOf(res.state)];
      details := details + [DetailOf(res)];
    }
  }

  datatype Report = Report(status: string, details: seq<Detail>, maxTime: int, maxMemory: real)

  /** The i-th test of a run that begins at test number start. */
  function Nth(tests: int -> Trial, start: int, i: int): Trial {
    tests(start + i)
  }

  ghost predicate AllPresent(tests: int -> Trial, start: int, n: int) {
    forall i :: 0 <= i < n ==> Nth(tests, start, i).present
  }

  /** What a run adds to the status: from the editor (pid 0) a completed run adds no letter. */
  function StatusOf(pid: int, t: Trial): string {
    if pid == 0 && t.user.state == COMPLETE then "" else [Letter(t)]
  }

  function LineOf(pid: int, t: Trial): Detail {
    if pid == 0 && t.user.state == COMPLETE then Plain(t.output) else Line(t)
  }

  /** Whether the run of one test counts as a success. */
  predicate Passes(pid: int, t: Trial) {
    if pid == 0 then t.user.state == COMPLETE else Letter(t) == 'a'
  }

  // The same of the i-th test of a run.

  ghost function TimeAt(tests: int -> Trial, start: int, i: int): int {
    Nth(tests, start, i).user.time
  }

  ghost function MemoryAt(tests: int -> Trial, start: int, i: int): real {
    Nth(tests, start, i).user.memory
  }

  ghost predicate PassesAt(pid: int, tests: int -> Trial, start: int, i: int) {
    Passes(pid, Nth(tests, start, i))
  }

  ghost predicate Clean(pid: int, tests: int -> Trial, start: int, n: int) {
    forall i :: 0 <= i < n ==> PassesAt(pid, tests, start, i)
  }

  /** The report of tests start .. start + n: a line each, in order; of a problem, a letter each. */
  ghost predicate Reports(r: Report, pid: int, tests: int -> Trial, start: int, n: int) {
    && |r.details| == n && (forall i :: 0 <= i < n ==> r.details[i] == LineOf(pid, Nth(tests, start, i)))
    && (pid != 0 ==> |r.status| == n && forall i :: 0 <= i < n ==> r.status[i] == Letter(Nth(tests, start, i)))
    && (pid == 0 ==> |r.status| <= n && 'a' !in r.status)
  }

  /** The largest of 0 and the values the user runs reported. */
  ghost predicate IsPeak(r: Report, tests: int -> Trial, start: int, n: int) {
    && r.maxTime >= 0 && r.maxMemory >= 0.0
    && (forall i :: 0 <= i < n ==> TimeAt(tests, start, i) <= r.maxTime)
    && (forall i :: 0 <= i < n ==> MemoryAt(tests, start, i) <= r.maxMemory)
    && (r.maxTime == 0 || exists i :: 0 <= i < n && TimeAt(tests, start, i) == r.maxTime)
    && (r.maxMemory == 0.0 || exists i :: 0 <= i < n && MemoryAt(tests, start, i) == r.maxMemory)
  }

  /** The report once one more test is judged. */
  function WithTest(r: Report, pid: int, t: Trial): Report {
    var res := t.user;
    Report(r.status + StatusOf(pid, t), r.details + [LineOf(pid, t)],
           Max(r.maxTime, res.time), MaxReal(r.maxMemory, res.memory))
  }

  /** The report on n tests. */
  ghost function Ran(pid: int, tests: int -> Trial, start: int, n: nat): (r: Report)
    ensures r.maxTime >= 0 && r.maxMemory >= 0.0
  {
    if n == 0 then Report("", [], 0, 0.0)
    else WithTest(Ran(pid, tests, start, n - 1), pid, Nth(tests, start, n - 1))
  }

  ghost function Resno(pid: int, tests: int -> Trial, start: int, n: int): Errors {
    if Clean(pid, tests, start, n) then NONE else RUN_CODE_ERROR
  }

  lemma PeakGrows(r: Report, pid: int, tests: int -> Trial, start: int, n: nat)
    requires IsPeak(r, tests, start, n)
    ensures IsPeak(WithTest(r, pid, Nth(tests, start, n)), tests, start, n + 1)
  {
    var r' := WithTest(r, pid, Nth(tests, start, n));
    if r'.maxTime != r.maxTime {
      assert TimeAt(tests, start, n) == r'.maxTime;
    }
    if r'.maxMemory != r.maxMemory {
      assert MemoryAt(tests, start, n) == r'.maxMemory;
    }
  }

  lemma ReportGrows(r: Report, pid: int, tests: int -> Trial, start: int, n: nat)
    requires Reports(r, pid, tests, start, n)
    ensures Reports(WithTest(r, pid, Nth(tests, start, n)), pid, tests, start, n + 1)
  {
  }

  /** The recorded maxima are those of the user runs: the checker's count for nothing. */
  lemma {:induction false} PeakOfRan(pid: int, tests: int -> Trial, start: int, n: nat)
    ensures IsPeak(Ran(pid, tests, start, n), tests, start, n)
  {
    if n > 0 {
      PeakOfRan(pid, tests, start, n - 1);
      PeakGrows(Ran(pid, tests, start, n - 1), pid, tests, start, n - 1);
    }
  }

  /** The report has its entries in the order of the tests. */
  lemma {:induction false} EntriesOfRan(pid: int, tests: int -> Trial, start: int, n: nat)
    ensures Reports(Ran(pid, tests, start, n), pid, tests, start, n)
  {
    if n > 0 {
      EntriesOfRan(pid, tests, start, n - 1);
      ReportGrows(Ran(pid, tests, start, n - 1), pid, tests, start, n - 1);
    }
  }

  function Value(rg: ResultGroup): Report
    reads rg
  {
    Report(rg.status, rg.details, rg.maxTime, rg.maxMemory)
  }

  /** Judges one present test; ok tells whether it counts as a success. */
  method JudgeOne(pid: int, t: Trial, rg: ResultGroup) returns (ok: bool)
    requires rg.maxTime >= 0 && rg.maxMemory >= 0.0
    modifies rg
    ensures ok == Passes(pid, t)
    ensures ok <==> t.user.state == COMPLETE && (pid != 0 ==> t.checker.state == AC)
    ensures Value(rg) == WithTest(old(Value(rg)), pid, t)
  {
    var res := t.user;
    if res.state != COMPLETE {
      rg.Update(res);
      return false;
    }
    rg.Raise(res.time, res.memory);
    if pid != 0 {
      rg.Update(t.checker);
      return rg.status[|rg.status| - 1] == 'a';
    }
    rg.details := rg.details + [Plain(t.output)];
    return true;
  }

  /** The outcome of judging n present tests. */
  ghost predicate Judged(resno: Errors, r: Report, pid: int, tests: int -> Trial, start: int, n: int) {
    && AllPresent(tests, start, n)
    && resno == Resno(pid, tests, start, n)
    && IsPeak(r, tests, start, n) && Reports(r, pid, tests, start, n)
  }

  /** The function of the judging loop: entries in order, the maxima of the user runs, and the verdict. */
  lemma {:induction false} RanIsJudged(pid: int, tests: int -> Trial, start: int, n: nat)
    requires AllPresent(tests, start, n)
    ensures Judged(Resno(pid, tests, start, n), Ran(pid, tests, start, n), pid, tests, start, n)
  {
    PeakOfRan(pid, tests, start, n);
    EntriesOfRan(pid, tests, start, n);
  }

  lemma OneMore(pid: int, tests: int -> Trial, start: int, n: nat)
    ensures AllPresent(tests, start, n + 1) <==> AllPresent(tests, start, n) && Nth(tests, start, n).present
    ensures Resno(pid, tests, start, n + 1) ==
            if Passes(pid, Nth(tests, start, n)) then Resno(pid, tests, start, n) else RUN_CODE_ERROR
    ensures Ran(pid, tests, start, n + 1) == WithTest(Ran(pid, tests, start, n), pid, Nth(tests, start, n))
  {
    assert PassesAt(pid, tests, start, n) == Passes(pid, Nth(tests, start, n));
  }

  /** Every program completed and, of a problem, every checker accepted. */
  ghost predicate AllSucceed(pid: int, tests: int -> Trial, start: int, n: int) {
    forall i :: 0 <= i < n ==>
      Nth(tests, start, i).user.state == COMPLETE && (pid != 0 ==> Nth(tests, start, i).checker.state == AC)
  }

  lemma NoErrorIffAllSucceed(pid: int, tests: int -> Trial, start: int, n: int)
    ensures Resno(pid, tests, start, n) in {NONE, RUN_CODE_ERROR}
    ensures Resno(pid, tests, start, n) == NONE <==> AllSucceed(pid, tests, start, n)
  {
    forall i | 0 <= i < n
      ensures PassesAt(pid, tests, start, i) <==>
                Nth(tests, start, i).user.state == COMPLETE && (pid != 0 ==> Nth(tests, start, i).checker.state == AC)
    {
    }
    if AllSucceed(pid, tests, start, n) {
      assert Clean(pid, tests, start, n);
    }
    if Clean(pid, tests, start, n) {
      forall i | 0 <= i < n
        ensures Nth(tests, start, i).user.state == COMPLETE && (pid != 0 ==> Nth(tests, start, i).checker.state == AC)
      {
        assert PassesAt(pid, tests, start, i);
      }
    }
  }

  /** From the editor: a completed run gives its output and no letter, any other its letter and line. */
  ghost function EditorLetters(tests: int -> Trial, start: int, n: nat): string {
    if n == 0 then ""
    else
      var s := Nth(tests, start, n - 1).user.state;
      EditorLetters(tests, start, n - 1) +
      if s == COMPLETE then ""
      else if s == TLE then "t" else if s == MLE then "m" else if s == RE then "r" else "u"
  }

  lemma EditorLetterOf(t: Trial)
    ensures StatusOf(0, t) == if t.user.state == COMPLETE then "" else if t.user.state == TLE then "t"
                              else if t.user.state == MLE then "m" else if t.user.state == RE then "r" else "u"
  {
  }

  lemma {:induction false} EditorStatus(tests: int -> Trial, start: int, n: nat)
    ensures Ran(0, tests, start, n).status == EditorLetters(tests, start, n)
  {
    if n > 0 {
      EditorStatus(tests, start, n - 1);
      EditorLetterOf(Nth(tests, start, n - 1));
    }
  }

  lemma EditorLine(tests: int -> Trial, start: int, n: nat, i: nat)
    requires i < n
    ensures |Ran(0, tests, start, n).details| == n
    ensures var t := Nth(tests, start, i);
            Ran(0, tests, start, n).details[i] ==
              if t.user.state == COMPLETE then Plain(t.output)
              else if t.user.state == TLE then TimeLine(t.user.time)
              else if t.user.state == MLE then MemoryLine(t.user.memory)
              else if t.user.state == RE then SignalLine(t.user.sig) else Plain("UKE")
  {
    EntriesOfRan(0, tests, start, n);
  }

  /** The judging loop. */
  method Start(pid: int, start: int, n: int, tests: int -> Trial) returns (resno: Errors, report: Option<Report>)
    ensures n <= 0 ==> resno == TESTCASE_COUNT_ERROR && report == None
    ensures n > 0 && !AllPresent(tests, start, n) ==> resno == FILE_NOT_EXISTED && report == None
    ensures n > 0 && AllPresent(tests, start, n) ==>
              resno == Resno(pid, tests, start, n) && report == Some(Ran(pid, tests, start, n))
    ensures n > 0 && AllPresent(tests, start, n) ==>
              resno in {NONE, RUN_CODE_ERROR} && (resno == NONE <==> AllSucceed(pid, tests, start, n))
  {
    resno, report := NONE, None;
    var rg := new ResultGroup();
    if n <= 0 {
      return TESTCASE_COUNT_ERROR, None;
    }
    var a := start;
    ghost var done: nat := 0;
    while a < start + n
      invariant fresh(rg) && a == start + done && done <= n
      invariant AllPresent(tests, start, done)
      invariant resno == Resno(pid, tests, start, done)
      invariant Value(rg) == Ran(pid, tests, start, done)
    {
      var t := tests(a);
      assert t == Nth(tests, start, done);
      OneMore(pid, tests, start, done);
      if !t.present {
        return FILE_NOT_EXISTED, None;
      }
      var ok := JudgeOne(pid, t, rg);
      if !ok {
        resno := RUN_CODE_ERROR;
      }
      a, done := a + 1, done + 1;
    }
    assert done == n;
    NoErrorIffAllSucceed(pid, tests, start, n);
    report := Some(Value(rg));
  }

  ghost predicate AllAccepted(status: string) {
    forall i :: 0 <= i < |status| ==> status[i] == 'a'
  }

  /** Main result on verdicts: a problem's run over present tests ends without error exactly when
      every letter of its status is 'a'. */
  lemma NoErrorIffAllAccepted(r: Report, pid: int, tests: int -> Trial, start: int, n: nat)
    requires pid != 0 && Reports(r, pid, tests, start, n)
    ensures Clean(pid, tests, start, n) <==> AllAccepted(r.status)
  {
    if Clean(pid, tests, start, n) {
      forall i | 0 <= i < n
        ensures r.status[i] == 'a'
      {
        assert PassesAt(pid, tests, start, i);
      }
    }
    if AllAccepted(r.status) {
      forall i | 0 <= i < n
        ensures PassesAt(pid, tests, start, i)
      {
        assert r.status[i] == 'a';
      }
    }
  }
}
