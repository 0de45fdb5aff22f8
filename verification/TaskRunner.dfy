/**
 The judging job of dispatcher/task_runner.cpp: the JSON record a runner carries, and the
 compile and run flags that decide what happens to it next.
 */
module TaskRunners {
  import opened Options

  /** What the user program did over the tests of one run; ok is false when a test was not passed. */
  datatype RunResult = RunResult(ok: bool, status: string, details: seq<string>, time: int, memory: real)

  datatype Report = NoReport | CompileError(text: string) | RunReport(result: RunResult)

  datatype Task = Task(
    uuid: string, pid: int, uid: int, taskNumber: int, start: Option<int>,
    compileFlag: bool, compile: bool, runFlag: bool, report: Report)

  /** A message handed over by the broker, with its delivery tag and the test count looked up for it. */
  datatype Delivery = Delivery(tag: nat, uuid: string, pid: int, uid: int, tests: int)

  /** Everything the outside world decides while a task is judged. */
  datatype Outcome = Outcome(compileError: Option<string>, result: RunResult)

  /** The record built for a fresh message. */
  function InitialTask(d: Delivery): Task {
    Task(d.uuid, d.pid, d.uid, d.tests, None, false, false, false, NoReport)
  }

  /** The dispatcher's test for "compiled, and still to be run". */
  predicate NeedsRun(t: Task) {
    t.compile && t.compileFlag && !t.runFlag
  }

  function CompileFailed(t: Task, text: string): Task {
    t.(compileFlag := true, compile := false, runFlag := false, report := CompileError(text))
  }

  /** One pass of a worker over a task. */
  function Judged(t: Task, taskMode: bool, o: Outcome): Task {
    if !t.compileFlag && o.compileError.Some? then CompileFailed(t, o.compileError.value)
    else
      var c := if t.compileFlag then t else t.(compileFlag := true, compile := true);
      if (!t.compileFlag && !taskMode) || t.runFlag then c
      else c.(compileFlag := true, compile := true, runFlag := true, report := RunReport(o.result))
  }

  /** t is a new record for d: who sent what, how many tests, and nothing done yet. */
  ghost predicate IsFresh(d: Delivery, t: Task) {
    && t.uuid == d.uuid && t.pid == d.pid && t.uid == d.uid && t.taskNumber == d.tests && t.start == None
    && !t.compileFlag && !t.compile && !t.runFlag && t.report == NoReport
  }

  /** t' is what one pass makes of t: a failed compilation is reported with its text, a task not yet
      run is run and reported with its result, and whose task it is stays. */
  ghost predicate IsPass(t: Task, taskMode: bool, o: Outcome, t': Task) {
    var compiles, fails := !t.compileFlag, o.compileError.Some?;
    && t'.uuid == t.uuid && t'.pid == t.pid && t'.uid == t.uid && t'.taskNumber == t.taskNumber && t'.start == t.start
    && (compiles && fails ==>
          t'.compileFlag && !t'.compile && !t'.runFlag && t'.report == CompileError(o.compileError.value))
    && (compiles && !fails && !taskMode ==>
          t'.compileFlag && t'.compile && t'.runFlag == t.runFlag && t'.report == t.report)
    && ((!compiles || (!fails && taskMode)) && !t.runFlag ==>
          t'.compileFlag && t'.compile && t'.runFlag && t'.report == RunReport(o.result))
    && ((!compiles || (!fails && taskMode)) && t.runFlag ==>
          t'.compileFlag && (t'.compile <==> compiles || t.compile) && t'.runFlag && t'.report == t.report)
  }

  /** t is the verdict on d when the outside decides o. */
  ghost predicate IsVerdictOn(d: Delivery, o: Outcome, t: Task) {
    && t.uuid == d.uuid && t.pid == d.pid && t.uid == d.uid && t.taskNumber == d.tests && t.start == None
    && t.compileFlag
    && match o.compileError
       case Some(text) => !t.compile && !t.runFlag && t.report == CompileError(text)
       case None => t.compile && t.runFlag && t.report == RunReport(o.result)
  }

  lemma InitialTaskIsFresh(d: Delivery)
    ensures IsFresh(d, InitialTask(d))
  {
  }

  lemma JudgedIsPass(t: Task, taskMode: bool, o: Outcome)
    ensures IsPass(t, taskMode, o, Judged(t, taskMode, o))
  {
  }

  /** One pass in task mode over a fresh record gives the verdict, with the compiler's own text or the
      run's own result. */
  lemma OnePassGivesTheVerdict(d: Delivery, o: Outcome)
    ensures IsVerdictOn(d, o, Judged(InitialTask(d), true, o))
  {
  }

  /** t is what judging delivery d in one go may produce. */
  ghost predicate IsJudgementOf(d: Delivery, t: Task) {
    exists o: Outcome :: t == Judged(InitialTask(d), true, o)
  }

  class TaskRunner {
    const id: nat
    var task: Option<Task>

    constructor (id: nat)
      ensures this.id == id && task == None
    {
      this.id := id;
      task := None;
    }

    method SetTask(t: Task)
      modifies this
      ensures task == Some(t)
    {
      task := Some(t);
    }

    /** Compiles; a failure replaces the whole record by the compile report. */
    method Compile(o: Outcome) returns (ok: bool)
      requires task.Some?
      modifies this
      ensures ok == o.compileError.None?
      ensures task == Some(if ok then old(task).value.(compileFlag := true, compile := true)
                           else CompileFailed(old(task).value, o.compileError.value))
    {
      var info := task.value;
      match o.compileError {
        case Some(text) =>
          SetTask(Task(info.uuid, info.pid, info.uid, info.taskNumber, info.start,
                       true, false, false, CompileError(text)));
          return false;
        case None =>
          task := Some(task.value.(compileFlag := true));
          task := Some(task.value.(compile := true));
          return true;
      }
    }

    /** Runs the program; the fresh record has no flags yet. */
    method Run(o: Outcome)
      requires task.Some?
      modifies this
      ensures task == Some(old(task).value.(compileFlag := false, compile := true, runFlag := false,
                                            report := RunReport(o.result)))
    {
      var info := task.value;
      SetTask(Task(info.uuid, info.pid, info.uid, info.taskNumber, info.start,
                   false, true, false, RunReport(o.result)));
    }

    method RunTask(taskMode: bool, o: Outcome)
      requires task.Some?
      modifies this
      ensures task == Some(Judged(old(task).value, taskMode, o))
      ensures IsPass(old(task).value, taskMode, o, task.value)
    {
      var compileFlag, runFlag := task.value.compileFlag, task.value.runFlag;
      if !compileFlag {
        var ok := Compile(o);
        if !ok || !taskMode {
          return;
        }
      }
      if !runFlag {
        Run(o);
        task := Some(task.value.(compileFlag := true));
        task := Some(task.value.(compile := true));
        task := Some(task.value.(runFlag := true));
      }
    }
  }

  /** In task mode one pass settles a fresh task: it keeps its identity, is never sent back to the
      workers, and is marked compiled exactly when it was run. */
  lemma TaskModeSettlesInOnePass(d: Delivery, t: Task)
    requires IsJudgementOf(d, t)
    ensures t.uuid == d.uuid && t.pid == d.pid && t.uid == d.uid
    ensures t.compileFlag && !NeedsRun(t)
    ensures t.compile <==> t.runFlag
    ensures t.compile <==> t.report.RunReport?
    ensures !t.compile <==> t.report.CompileError?
  {
  }

  /** In test-point mode the first pass only compiles and asks for a run exactly when that worked;
      the pass over any chunk made from it settles, and keeps the chunk's place. */
  lemma TestPointModeTakesTwoPasses(d: Delivery, first: Outcome, start: int, len: int, second: Outcome)
    ensures var compiled := Judged(InitialTask(d), false, first);
            && compiled.uuid == d.uuid
            && (NeedsRun(compiled) <==> first.compileError == None)
            && (NeedsRun(compiled) ==>
                  var chunk := compiled.(start := Some(start), taskNumber := len);
                  Judged(chunk, false, second) == chunk.(runFlag := true, report := RunReport(second.result)))
  {
  }
}
