/** One test case run by the execution engine, and the adapter through which the
    backend sees it. */
module Executor {
  import opened Prelude
  import OutputEvaluator
  import opened Sandbox

  const MAX_SOURCE_CODE_BYTES := 65536

  datatype Language = Cpp | Python | JavaScript

  /** A request; `language` is None when the engine does not support it. */
  datatype Request = Request(
    language: Option<Language>,
    source: OutputEvaluator.Value,
    sourceBytes: nat,
    input: Option<OutputEvaluator.Value>,
    expected: OutputEvaluator.Value)

  datatype Mode = Docker | Local

  /** A spawned process as seen from outside: what it did, or that it never ran. */
  datatype Process = Ran(history: seq<Event>, exit: Exit) | Broken

  /** Everything `execute` learns from the machine it runs on. */
  datatype Host = Host(
    mode: Mode,
    dockerAvailable: bool,
    directoryMade: bool,
    permissionsSet: bool,
    sourceWritten: bool,
    compiler: Process,
    program: Process,
    directoryRemovable: bool,
    sanitize: string -> string)

  datatype ExecResult = ExecResult(verdict: Verdict, runtimeMs: Option<nat>)

  datatype EngineError = ValidationError | ExecutionEngineError | SystemError

  datatype Answer = Answered(result: ExecResult) | Failed(error: EngineError)

  // ----- Branches of `execute` -----

  predicate ValidRequest(req: Request) {
    && req.source.Text?
    && (exists i :: 0 <= i < |req.source.text| && !OutputEvaluator.IsBlank(req.source.text[i]))
    && req.sourceBytes <= MAX_SOURCE_CODE_BYTES
    && (req.input.Some? ==> req.input.value.Text?)
    && req.expected.Text?
    && req.language.Some?
  }

  function Close(mode: Mode, p: Process, sanitize: string -> string): RunResult
    requires p.Ran?
  {
    if mode == Docker then CloseDocker(Replay(p.history), p.exit, sanitize)
    else CloseProcess(Replay(p.history), p.exit, sanitize)
  }

  /** Did the compiler succeed? The local compiler looks at the exit code and its
      timer only. */
  predicate Compiled(host: Host)
    requires host.compiler.Ran?
  {
    if host.mode == Docker then Close(Docker, host.compiler, host.sanitize).success
    else !TimedOut(host.compiler.history) && host.compiler.exit.code == Some(0)
  }

  /** The verdict of one finished run, in the source's order of precedence. */
  function Classify(r: RunResult, expected: OutputEvaluator.Value): Verdict {
    if r.isTimedOut then TimeLimitExceeded
    else if r.isOom then MemoryLimitExceeded
    else if r.isOutputLimit then OutputLimitExceeded
    else if !r.success then RuntimeError
    else OutputEvaluator.EvaluateOutput(OutputEvaluator.Text(r.stdout), expected)
  }

  function RunProgram(req: Request, host: Host): Answer {
    if host.program.Broken? then Failed(ExecutionEngineError)
    else
      var r := Close(host.mode, host.program, host.sanitize);
      Answered(ExecResult(Classify(r, req.expected), Some(r.runtimeMs)))
  }

  function CompileAndRun(req: Request, host: Host): Answer {
    if req.language == Some(Cpp) then
      if host.compiler.Broken? then Failed(ExecutionEngineError)
      else if !Compiled(host) then Answered(ExecResult(CompilationError, None))
      else RunProgram(req, host)
    else RunProgram(req, host)
  }

  function Execute(req: Request, host: Host): Answer {
    if !ValidRequest(req) then Failed(ValidationError)
    else if host.mode == Docker && !host.dockerAvailable then Failed(ExecutionEngineError)
    else if !host.directoryMade || !host.permissionsSet || !host.sourceWritten then Failed(SystemError)
    else CompileAndRun(req, host)
  }

  // ----- What the answers mean -----

  predicate ReachesProgram(req: Request, host: Host) {
    && ValidRequest(req)
    && (host.mode == Docker ==> host.dockerAvailable)
    && host.directoryMade && host.permissionsSet && host.sourceWritten
    && (req.language == Some(Cpp) ==> host.compiler.Ran? && Compiled(host))
    && host.program.Ran?
  }

  /** A run that is judged on its output: nothing went wrong on the way. */
  ghost predicate CleanRun(host: Host)
    requires host.program.Ran?
  {
    var h, e := host.program.history, host.program.exit;
    && e.code == Some(0) && e.signal == None
    && !TimedOut(h) && !OverLimit(h)
    && (host.mode == Docker ==> !OutOfMemory(host.sanitize(StderrOf(h))))
  }

  /** The program printed what the test expects, white space aside. */
  predicate RightOutput(req: Request, host: Host)
    requires host.program.Ran?
  {
    OutputEvaluator.CanonicalLines(OutputEvaluator.Text(host.sanitize(StdoutOf(host.program.history))))
    == OutputEvaluator.CanonicalLines(req.expected)
  }

  /** When a test is passed, in terms of what happened on the host. */
  ghost predicate Passes(req: Request, host: Host) {
    ReachesProgram(req, host) && CleanRun(host) && RightOutput(req, host)
  }

  lemma ClassifyMeans(host: Host, expected: OutputEvaluator.Value)
    requires host.program.Ran?
    ensures var r := Close(host.mode, host.program, host.sanitize);
            (Classify(r, expected) in {Accepted, WrongAnswer}) <==> CleanRun(host)
    ensures CleanRun(host) ==>
              Close(host.mode, host.program, host.sanitize).stdout == host.sanitize(StdoutOf(host.program.history))
  {
    var h, e := host.program.history, host.program.exit;
    SuccessMeans(h, e, host.sanitize);
    ComparedOutputIsComplete(h, e, host.sanitize);
    ReplayMeans(h);
    var r := Close(host.mode, host.program, host.sanitize);
    OutputEvaluator.MatchIffSameLines(OutputEvaluator.Text(r.stdout), expected);
  }

  /** ACCEPTED and WRONG_ANSWER mean a clean run with the right or the wrong output;
      no other verdict is given to a clean run. */
  lemma VerdictsOfCleanRuns(req: Request, host: Host)
    ensures (Execute(req, host).Answered? && Execute(req, host).result.verdict == Accepted)
            <==> Passes(req, host)
    ensures (Execute(req, host).Answered? && Execute(req, host).result.verdict == WrongAnswer)
            <==> ReachesProgram(req, host) && CleanRun(host) && !RightOutput(req, host)
  {
    if ReachesProgram(req, host) {
      ClassifyMeans(host, req.expected);
      var r := Close(host.mode, host.program, host.sanitize);
      OutputEvaluator.MatchIffSameLines(OutputEvaluator.Text(r.stdout), req.expected);
    }
  }

  /** The precedence of the remaining verdicts of a program that ran. */
  lemma VerdictsOfUncleanRuns(req: Request, host: Host)
    requires ReachesProgram(req, host) && !CleanRun(host)
    ensures Execute(req, host).Answered?
    ensures var h, e := host.program.history, host.program.exit;
            var oom := host.mode == Docker
                       && ((e.code == Some(137) && !OverLimit(h))
                           || OutOfMemory(host.sanitize(Beginning(StderrOf(h)))));
            Execute(req, host).result.verdict ==
              if TimedOut(h) then TimeLimitExceeded
              else if oom then MemoryLimitExceeded
              else if OverLimit(h) then OutputLimitExceeded
              else RuntimeError
  {
    ReplayMeans(host.program.history);
    SuccessMeans(host.program.history, host.program.exit, host.sanitize);
    ResourceFlagsMean(host.program.history, host.program.exit, host.sanitize);
  }

  /** MEMORY_LIMIT_EXCEEDED means a program in the sandbox that was not stopped by the
      timer and was killed with code 137 below the output limit, or has a message about
      memory anywhere in what `stderr` shows. */
  lemma MemoryLimitMeans(req: Request, host: Host)
    ensures (Execute(req, host).Answered? && Execute(req, host).result.verdict == MemoryLimitExceeded) <==>
              && ReachesProgram(req, host) && host.mode == Docker
              && var h, e := host.program.history, host.program.exit;
                 && !TimedOut(h)
                 && ((e.code == Some(137) && !OverLimit(h))
                     || OutOfMemory(host.sanitize(Beginning(StderrOf(h)))))
  {
    if ReachesProgram(req, host) {
      var h, e := host.program.history, host.program.exit;
      ClassifyMeans(host, req.expected);
      ReplayMeans(h);
      ResourceFlagsMean(h, e, host.sanitize);
    }
  }

  /** COMPILATION_ERROR means a C++ program whose compiler ran and did not end cleanly,
      time, output and memory limits included when it ran in the sandbox. */
  lemma CompilationErrorMeans(req: Request, host: Host)
    ensures (Execute(req, host).Answered? && Execute(req, host).result.verdict == CompilationError) <==>
              && ValidRequest(req) && (host.mode == Docker ==> host.dockerAvailable)
              && host.directoryMade && host.permissionsSet && host.sourceWritten
              && req.language == Some(Cpp) && host.compiler.Ran?
              && var h, e := host.compiler.history, host.compiler.exit;
                 !(&& e.code == Some(0) && !TimedOut(h)
                   && (host.mode == Docker ==>
                         e.signal == None && !OverLimit(h) && !OutOfMemory(host.sanitize(StderrOf(h)))))
  {
    if host.compiler.Ran? {
      SuccessMeans(host.compiler.history, host.compiler.exit, host.sanitize);
    }
    if host.program.Ran? {
      ClassifyMeans(host, req.expected);
    }
  }

  /** Every verdict of the engine has the runtime of the program, but for
      COMPILATION_ERROR, which has none. */
  lemma RuntimeIsMissingOnlyForCompilationErrors(req: Request, host: Host)
    requires Execute(req, host).Answered?
    ensures Execute(req, host).result.runtimeMs == None
            <==> Execute(req, host).result.verdict == CompilationError
    ensures Execute(req, host).result.runtimeMs.Some? ==>
              host.program.Ran? && Execute(req, host).result.runtimeMs == Some(host.program.exit.runtimeMs)
    ensures Execute(req, host).result.verdict != Pending
  {
    if ReachesProgram(req, host) {
      ClassifyMeans(host, req.expected);
    }
  }

  /** Which error a test ends with when there is no verdict: a malformed request before
      anything else, a missing sandbox before the workspace, and a process that cannot be
      spawned only after that. */
  lemma ErrorsMean(req: Request, host: Host)
    ensures var malformed :=
              || req.source.NotText? || req.expected.NotText? || req.language == None
              || (req.input.Some? && req.input.value.NotText?)
              || req.sourceBytes > 65536
              || forall i :: 0 <= i < |req.source.text| ==> OutputEvaluator.IsSpaceCode(req.source.text[i] as int);
            var noSandbox := host.mode == Docker && !host.dockerAvailable;
            var noWorkspace := !(host.directoryMade && host.permissionsSet && host.sourceWritten);
            && (Execute(req, host) == Failed(ValidationError) <==> malformed)
            && (Execute(req, host) == Failed(SystemError) <==> !malformed && !noSandbox && noWorkspace)
            && (Execute(req, host) == Failed(ExecutionEngineError) <==>
                  && !malformed
                  && (noSandbox
                      || (!noWorkspace
                          && if req.language == Some(Cpp) && host.compiler.Broken? then true
                             else host.program.Broken? && (req.language == Some(Cpp) ==> Compiled(host)))))
  {
  }

  // ----- The workspace, in place -----

  /** The directories under the workspace base. */
  class Workspaces {
    var live: set<nat>

    constructor ()
      ensures live == {}
    {
      live := {};
    }

    /** `execute` with its `finally`. A directory outlives the call exactly when it
        was made but its permissions could not be set, or it could not be removed. */
    method Run(req: Request, host: Host, dir: nat) returns (answer: Answer)
      requires dir !in live
      modifies this
      ensures answer == Execute(req, host)
      ensures var made := ValidRequest(req) && (host.mode == Docker ==> host.dockerAvailable) && host.directoryMade;
              live == if made && !(host.permissionsSet && host.directoryRemovable)
                      then old(live) + {dir} else old(live)
    {
      if !ValidRequest(req) {
        return Failed(ValidationError);
      }
      if host.mode == Docker && !host.dockerAvailable {
        return Failed(ExecutionEngineError);
      }
      if !host.directoryMade {
        return Failed(SystemError);
      }
      live := live + {dir};
      if !host.permissionsSet {
        // The error leaves `createWorkspace` before the caller learns the path.
        return Failed(SystemError);
      }
      if !host.sourceWritten {
        answer := Failed(SystemError);
      } else {
        answer := CompileAndRun(req, host);
      }
      if host.directoryRemovable {
        live := live - {dir};
      }
    }
  }
}

/** The errors that reach the worker, and how the worker sorts them. */
module ExecutionAdapter {
  import opened Prelude
  import opened Executor

  /** The properties of an error that the worker looks at. */
  datatype Error = Error(
    isNonRetryable: bool,
    errorCode: Option<string>,
    name: string,
    statusCode: Option<int>)

  function AppError(statusCode: int, errorCode: Option<string>): Error {
    Error(false, errorCode, "Error", Some(statusCode))
  }

  predicate IsNonRetryableError(e: Error) {
    || e.isNonRetryable
    || e.errorCode in {Some("PROBLEM_NOT_READY"), Some("VALIDATION_ERROR")}
    || e.name == "ValidationError"
    || (e.statusCode.Some? && 400 <= e.statusCode.value < 500)
  }

  function FaultOf(e: Error): Fault {
    if IsNonRetryableError(e) then NonRetryable else Retryable
  }

  datatype TestOutcome = Returned(result: ExecResult) | Raised(error: Error)

  /** `executeTestCase`, given whether the engine module could be loaded. */
  function ExecuteTestCase(engineLoaded: bool, answer: Answer): TestOutcome {
    if !engineLoaded then Raised(AppError(500, None))
    else
      match answer
      case Answered(result) => Returned(result)
      case Failed(ValidationError) => Raised(AppError(400, None))
      case Failed(_) => Raised(AppError(500, None))
  }

  /** A test ends the submission without a retry exactly when the engine rejects the
      request; every other failure of the engine may be retried. */
  lemma OnlyInvalidRequestsAreFinal(engineLoaded: bool, req: Request, host: Host)
    ensures var outcome := ExecuteTestCase(engineLoaded, Execute(req, host));
            (outcome.Raised? && FaultOf(outcome.error) == NonRetryable) <==> engineLoaded && !ValidRequest(req)
    ensures var outcome := ExecuteTestCase(engineLoaded, Execute(req, host));
            if engineLoaded && Execute(req, host).Answered? then outcome == Returned(Execute(req, host).result)
            else outcome.Raised?
  {
    assert Some("PROBLEM_NOT_READY") != None && Some("VALIDATION_ERROR") != None;
    assert "Error"[0] != "ValidationError"[0];
  }

  /** An error of the application is final if and only if it is a client error, or says
      so by its code; an error of the database, with neither, can be retried. */
  lemma ApplicationErrorsAreSorted(statusCode: int, errorCode: Option<string>, name: string)
    ensures FaultOf(AppError(statusCode, errorCode)) == NonRetryable <==>
              || 400 <= statusCode < 500
              || errorCode == Some("PROBLEM_NOT_READY") || errorCode == Some("VALIDATION_ERROR")
    ensures FaultOf(Error(false, None, name, None)) == NonRetryable <==> name == "ValidationError"
    ensures FaultOf(Error(true, errorCode, name, None)) == NonRetryable
  {
    assert "Error"[0] != "ValidationError"[0];
  }
}
