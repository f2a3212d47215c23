/** Output capture of a sandboxed process: the event handlers that both runners
    share, and the classification each runner makes when the process closes. */
module Sandbox {
  import opened Prelude

  const MAX_OUTPUT_BYTES := 512 * 1024
  const MAX_BUFFER_BYTES := 512 * 1024

  /** The events a runner reacts to before the process closes. */
  datatype Event = StdoutChunk(text: string) | StderrChunk(text: string) | TimerFired

  /** The variables the handlers share. */
  datatype Capture = Capture(
    stdoutData: string,
    stderrData: string,
    isTimedOut: bool,
    isOutputLimit: bool,
    killedByEngine: bool)

  function Started(): Capture {
    Capture("", "", false, false, false)
  }

  function CheckLimit(c: Capture): Capture {
    if |c.stdoutData| + |c.stderrData| >= MAX_OUTPUT_BYTES
    then c.(isOutputLimit := true, killedByEngine := true)
    else c
  }

  function Handle(c: Capture, e: Event): Capture {
    match e
    case StdoutChunk(text) => CheckLimit(c.(stdoutData := c.stdoutData + text))
    case StderrChunk(text) => CheckLimit(c.(stderrData := c.stderrData + text))
    case TimerFired => c.(isTimedOut := true, killedByEngine := true)
  }

  function Replay(history: seq<Event>): Capture {
    if history == [] then Started()
    else Handle(Replay(history[..|history| - 1]), history[|history| - 1])
  }

  // ----- What the process wrote, whatever the chunking -----

  function StdoutOf(history: seq<Event>): string {
    if history == [] then ""
    else (if history[0].StdoutChunk? then history[0].text else "") + StdoutOf(history[1..])
  }

  function StderrOf(history: seq<Event>): string {
    if history == [] then ""
    else (if history[0].StderrChunk? then history[0].text else "") + StderrOf(history[1..])
  }

  predicate TimedOut(history: seq<Event>) {
    TimerFired in history
  }

  predicate OverLimit(history: seq<Event>) {
    |StdoutOf(history)| + |StderrOf(history)| >= MAX_OUTPUT_BYTES
  }

  lemma StreamsCons(e: Event, history: seq<Event>)
    ensures StdoutOf([e] + history) == (if e.StdoutChunk? then e.text else "") + StdoutOf(history)
    ensures StderrOf([e] + history) == (if e.StderrChunk? then e.text else "") + StderrOf(history)
  {
    assert ([e] + history)[1..] == history;
  }

  lemma {:induction false} StreamsSnoc(history: seq<Event>, e: Event)
    ensures StdoutOf(history + [e]) == StdoutOf(history) + (if e.StdoutChunk? then e.text else "")
    ensures StderrOf(history + [e]) == StderrOf(history) + (if e.StderrChunk? then e.text else "")
  {
    if history == [] {
      assert history + [e] == [e] + [];
      StreamsCons(e, []);
    } else {
      StreamsSnoc(history[1..], e);
      assert history + [e] == [history[0]] + (history[1..] + [e]);
      StreamsCons(history[0], history[1..] + [e]);
    }
  }

  /** At every moment the buffers hold all that was written, and the limit flag is
      set exactly when the total length has reached the limit. */
  lemma {:induction false} ReplayMeans(history: seq<Event>)
    ensures var c := Replay(history);
            && c.stdoutData == StdoutOf(history)
            && c.stderrData == StderrOf(history)
            && (c.isTimedOut <==> TimedOut(history))
            && (c.isOutputLimit <==> OverLimit(history))
            && (c.killedByEngine <==> TimedOut(history) || OverLimit(history))
  {
    if history == [] {
    } else {
      var init, last := history[..|history| - 1], history[|history| - 1];
      assert history == init + [last];
      ReplayMeans(init);
      StreamsSnoc(init, last);
    }
  }

  // ----- Closing -----

  datatype RunResult = RunResult(
    success: bool,
    exitCode: Option<int>,
    signal: Option<string>,
    stdout: string,
    stderr: string,
    runtimeMs: nat,
    isTimedOut: bool,
    isOom: bool,
    isOutputLimit: bool,
    isProcessLimit: bool)

  /** How a process ended, as its `close` event reports it. */
  datatype Exit = Exit(code: Option<int>, signal: Option<string>, runtimeMs: nat)

  predicate Includes(s: string, word: string) {
    exists i :: 0 <= i <= |s| && word <= s[i..]
  }

  /** One of `words` is somewhere in `text`. */
  ghost predicate Mentions(text: string, words: set<string>) {
    exists a: string, w: string, b: string :: w in words && text == a + w + b
  }

  lemma MentionsMeans(text: string, words: set<string>)
    ensures Mentions(text, words) <==> exists w :: w in words && Includes(text, w)
  {
    forall a: string, w: string, b: string | w in words && text == a + w + b ensures Includes(text, w) {
      assert w <= text[|a|..];
    }
    forall w | w in words && Includes(text, w) ensures Mentions(text, words) {
      var i :| 0 <= i <= |text| && w <= text[i..];
      assert text == text[..i] + w + text[i + |w|..];
    }
  }

  function Truncate(s: string): string {
    if |s| > MAX_BUFFER_BYTES then s[..MAX_BUFFER_BYTES] else s
  }

  predicate ReportsOom(stderr: string) {
    || Includes(stderr, "bad_alloc")
    || Includes(stderr, "MemoryError")
    || Includes(stderr, "out of memory")
    || Includes(stderr, "JavaScript heap out of memory")
  }

  /** The messages of the three languages when they run out of memory. */
  ghost predicate OutOfMemory(stderr: string) {
    Mentions(stderr, {"bad_alloc", "MemoryError", "out of memory", "JavaScript heap out of memory"})
  }

  lemma ReportsOomMeans(stderr: string)
    ensures ReportsOom(stderr) <==> OutOfMemory(stderr)
  {
    MentionsMeans(stderr, {"bad_alloc", "MemoryError", "out of memory", "JavaScript heap out of memory"});
  }

  /** `runInDockerSandbox` on `close`; `sanitize` strips host paths. */
  function CloseDocker(c: Capture, exit: Exit, sanitize: string -> string): RunResult {
    var stdout := sanitize(Truncate(c.stdoutData));
    var stderr := sanitize(Truncate(c.stderrData));
    var isOom := (exit.code == Some(137) && !c.isTimedOut && !c.isOutputLimit) || ReportsOom(stderr);
    var isProcessLimit :=
      || Includes(stderr, "Resource temporarily unavailable")
      || Includes(stderr, "EAGAIN")
      || (Includes(stderr, "Cannot allocate memory") && !isOom);
    var success :=
      exit.code == Some(0) && exit.signal == None && !c.isTimedOut && !c.isOutputLimit && !isOom;
    RunResult(success, exit.code, exit.signal, stdout, stderr, exit.runtimeMs,
              c.isTimedOut, isOom, c.isOutputLimit, isProcessLimit)
  }

  /** `runProcess` on `close`: no memory or process-limit detection. */
  function CloseProcess(c: Capture, exit: Exit, sanitize: string -> string): RunResult {
    var success := exit.code == Some(0) && exit.signal == None && !c.isTimedOut && !c.isOutputLimit;
    RunResult(success, exit.code, exit.signal,
              sanitize(Truncate(c.stdoutData)), sanitize(Truncate(c.stderrData)), exit.runtimeMs,
              c.isTimedOut, false, c.isOutputLimit, false)
  }

  /** Truncation never touches a result that is not flagged over the limit, so an
      output that goes on to be compared is complete. */
  lemma ComparedOutputIsComplete(history: seq<Event>, exit: Exit, sanitize: string -> string)
    ensures var d, p := CloseDocker(Replay(history), exit, sanitize), CloseProcess(Replay(history), exit, sanitize);
            && (d.isOutputLimit <==> OverLimit(history))
            && (p.isOutputLimit <==> OverLimit(history))
            && (!OverLimit(history) ==>
                  && d.stdout == p.stdout == sanitize(StdoutOf(history))
                  && d.stderr == p.stderr == sanitize(StderrOf(history)))
  {
    ReplayMeans(history);
  }

  /** Exactly when each runner reports success. */
  lemma SuccessMeans(history: seq<Event>, exit: Exit, sanitize: string -> string)
    ensures CloseDocker(Replay(history), exit, sanitize).success <==>
              && exit.code == Some(0) && exit.signal == None
              && !TimedOut(history) && !OverLimit(history)
              && !OutOfMemory(sanitize(StderrOf(history)))
    ensures CloseProcess(Replay(history), exit, sanitize).success <==>
              && exit.code == Some(0) && exit.signal == None
              && !TimedOut(history) && !OverLimit(history)
  {
    ReplayMeans(history);
    ComparedOutputIsComplete(history, exit, sanitize);
    ReportsOomMeans(sanitize(StderrOf(history)));
  }

  /** The first `MAX_BUFFER_BYTES` characters. */
  function Beginning(s: string): string {
    s[..Min(|s|, 512 * 1024)]
  }

  lemma TruncateMeans(s: string)
    ensures Truncate(s) == Beginning(s)
  {
  }

  /** What a runner reports, but for its success and the two resource flags. */
  predicate ReportsRun(r: RunResult, history: seq<Event>, exit: Exit, sanitize: string -> string) {
    && r.exitCode == exit.code && r.signal == exit.signal && r.runtimeMs == exit.runtimeMs
    && r.stdout == sanitize(Beginning(StdoutOf(history)))
    && r.stderr == sanitize(Beginning(StderrOf(history)))
    && (r.isTimedOut <==> TimerFired in history)
    && (r.isOutputLimit <==> |StdoutOf(history)| + |StderrOf(history)| >= 512 * 1024)
  }

  lemma CloseMeans(history: seq<Event>, exit: Exit, sanitize: string -> string)
    ensures ReportsRun(CloseDocker(Replay(history), exit, sanitize), history, exit, sanitize)
    ensures ReportsRun(CloseProcess(Replay(history), exit, sanitize), history, exit, sanitize)
  {
    ReplayMeans(history);
    TruncateMeans(StdoutOf(history));
    TruncateMeans(StderrOf(history));
  }

  /** The messages of a system that is out of processes. */
  ghost predicate OutOfProcesses(stderr: string, isOom: bool) {
    || Mentions(stderr, {"Resource temporarily unavailable", "EAGAIN"})
    || (Mentions(stderr, {"Cannot allocate memory"}) && !isOom)
  }

  lemma ProcessLimitMeans(stderr: string, isOom: bool)
    ensures OutOfProcesses(stderr, isOom) <==>
              || Includes(stderr, "Resource temporarily unavailable")
              || Includes(stderr, "EAGAIN")
              || (Includes(stderr, "Cannot allocate memory") && !isOom)
  {
    MentionsMeans(stderr, {"Resource temporarily unavailable", "EAGAIN"});
    MentionsMeans(stderr, {"Cannot allocate memory"});
  }

  /** The Docker runner flags the memory limit for exit code 137, unless the engine itself
      has killed the container, and for a message of one of the languages anywhere in
      `stderr`; the local runner flags neither limit. */
  lemma ResourceFlagsMean(history: seq<Event>, exit: Exit, sanitize: string -> string)
    ensures var r := CloseDocker(Replay(history), exit, sanitize);
            && (r.isOom <==>
                  || (exit.code == Some(137) && !TimedOut(history) && !OverLimit(history))
                  || OutOfMemory(sanitize(Beginning(StderrOf(history)))))
            && (r.isProcessLimit <==> OutOfProcesses(sanitize(Beginning(StderrOf(history))), r.isOom))
    ensures !CloseProcess(Replay(history), exit, sanitize).isOom
    ensures !CloseProcess(Replay(history), exit, sanitize).isProcessLimit
  {
    ReplayMeans(history);
    TruncateMeans(StderrOf(history));
    var r := CloseDocker(Replay(history), exit, sanitize);
    ReportsOomMeans(r.stderr);
    ProcessLimitMeans(r.stderr, r.isOom);
  }

  /** Neither the chunking nor the interleaving of the two streams shows. */
  lemma {:induction false} InterleavingIrrelevant(h1: seq<Event>, h2: seq<Event>, exit: Exit,
                                                  sanitize: string -> string)
    requires StdoutOf(h1) == StdoutOf(h2) && StderrOf(h1) == StderrOf(h2)
    requires TimedOut(h1) == TimedOut(h2)
    ensures CloseDocker(Replay(h1), exit, sanitize) == CloseDocker(Replay(h2), exit, sanitize)
    ensures CloseProcess(Replay(h1), exit, sanitize) == CloseProcess(Replay(h2), exit, sanitize)
  {
    ReplayMeans(h1);
    ReplayMeans(h2);
  }

  // ----- The handlers, in place -----

  /** One spawned process and the variables its handlers close over. */
  class ProcessWatch {
    var stdoutData: string
    var stderrData: string
    var isTimedOut: bool
    var isOutputLimit: bool
    var killedByEngine: bool
    /** The events handled so far. */
    ghost var history: seq<Event>

    ghost function State(): Capture
      reads this
    {
      Capture(stdoutData, stderrData, isTimedOut, isOutputLimit, killedByEngine)
    }

    ghost predicate Valid()
      reads this
    {
      State() == Replay(history)
    }

    constructor ()
      ensures Valid() && history == []
    {
      stdoutData, stderrData := "", "";
      isTimedOut, isOutputLimit, killedByEngine := false, false, false;
      history := [];
    }

    ghost method Record(e: Event)
      requires State() == Handle(Replay(history), e)
      modifies this`history
      ensures Valid() && history == old(history) + [e]
    {
      history := history + [e];
      assert history[..|history| - 1] == old(history);
    }

    method OnStdout(chunk: string)
      requires Valid()
      modifies this
      ensures Valid() && history == old(history) + [StdoutChunk(chunk)]
    {
      stdoutData := stdoutData + chunk;
      if |stdoutData| + |stderrData| >= MAX_OUTPUT_BYTES {
        isOutputLimit := true;
        killedByEngine := true;
      }
      Record(StdoutChunk(chunk));
    }

    method OnStderr(chunk: string)
      requires Valid()
      modifies this
      ensures Valid() && history == old(history) + [StderrChunk(chunk)]
    {
      stderrData := stderrData + chunk;
      if |stdoutData| + |stderrData| >= MAX_OUTPUT_BYTES {
        isOutputLimit := true;
        killedByEngine := true;
      }
      Record(StderrChunk(chunk));
    }

    method OnTimer()
      requires Valid()
      modifies this
      ensures Valid() && history == old(history) + [TimerFired]
    {
      isTimedOut := true;
      killedByEngine := true;
      Record(TimerFired);
    }

    method TruncateBuffers()
      modifies this`stdoutData, this`stderrData
      ensures stdoutData == Truncate(old(stdoutData)) && stderrData == Truncate(old(stderrData))
    {
      if |stdoutData| > MAX_BUFFER_BYTES {
        stdoutData := stdoutData[..MAX_BUFFER_BYTES];
      }
      if |stderrData| > MAX_BUFFER_BYTES {
        stderrData := stderrData[..MAX_BUFFER_BYTES];
      }
    }

    /** The `close` handler of the Docker runner. */
    method OnDockerClose(exit: Exit, sanitize: string -> string) returns (r: RunResult)
      requires Valid()
      modifies this`stdoutData, this`stderrData
      ensures r == CloseDocker(Replay(history), exit, sanitize)
      ensures r.isOom <==>
                || (exit.code == Some(137) && !TimedOut(history) && !OverLimit(history))
                || OutOfMemory(sanitize(Beginning(StderrOf(history))))
      ensures !OverLimit(history) ==> Valid()
    {
      ReplayMeans(history);
      ResourceFlagsMean(history, exit, sanitize);
      TruncateBuffers();
      var stdout, stderr := sanitize(stdoutData), sanitize(stderrData);
      var isOom := (exit.code == Some(137) && !isTimedOut && !isOutputLimit) || ReportsOom(stderr);
      var isProcessLimit :=
        || Includes(stderr, "Resource temporarily unavailable")
        || Includes(stderr, "EAGAIN")
        || (Includes(stderr, "Cannot allocate memory") && !isOom);
      var success :=
        exit.code == Some(0) && exit.signal == None && !isTimedOut && !isOutputLimit && !isOom;
      r := RunResult(success, exit.code, exit.signal, stdout, stderr, exit.runtimeMs,
                     isTimedOut, isOom, isOutputLimit, isProcessLimit);
    }

    /** The `close` handler of the local process runner. */
    method OnProcessClose(exit: Exit, sanitize: string -> string) returns (r: RunResult)
      requires Valid()
      modifies this`stdoutData, this`stderrData
      ensures r == CloseProcess(Replay(history), exit, sanitize)
      ensures !OverLimit(history) ==> Valid()
    {
      ReplayMeans(history);
      TruncateBuffers();
      var success := exit.code == Some(0) && exit.signal == None && !isTimedOut && !isOutputLimit;
      r := RunResult(success, exit.code, exit.signal, sanitize(stdoutData), sanitize(stderrData),
                     exit.runtimeMs, isTimedOut, false, isOutputLimit, false);
    }
  }
}
