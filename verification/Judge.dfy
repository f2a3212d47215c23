/** The judging loop of `executeSubmission`, against a declarative verdict. */
module Judge {
  import opened Prelude
  import opened Executor
  import opened ExecutionAdapter

  /** What the loop leaves on the submission. */
  datatype Record = Record(verdict: Verdict, testsPassed: nat, totalTests: nat, runtimeMs: Option<nat>)

  // ----- Specification -----

  /** A verdict that ends the loop. */
  predicate Fatal(v: Verdict) {
    || v.CompilationError? || v.TimeLimitExceeded? || v.MemoryLimitExceeded?
    || v.OutputLimitExceeded? || v.RuntimeError?
  }

  /** The list that a WRONG_ANSWER must not override. */
  predicate Overrides(v: Verdict) {
    v.TimeLimitExceeded? || v.MemoryLimitExceeded? || v.RuntimeError?
  }

  /** How a fatal verdict is stored. */
  function Stored(v: Verdict): Verdict {
    if v == OutputLimitExceeded then RuntimeError else v
  }

  function FirstFatal(vs: seq<Verdict>): (k: nat)
    ensures k <= |vs|
    ensures forall i :: 0 <= i < k ==> !Fatal(vs[i])
    ensures k < |vs| ==> Fatal(vs[k])
  {
    if vs == [] || Fatal(vs[0]) then 0 else 1 + FirstFatal(vs[1..])
  }

  function Passed(vs: seq<Verdict>): nat {
    multiset(vs)[Accepted]
  }

  predicate AllAccepted(vs: seq<Verdict>) {
    forall i :: 0 <= i < |vs| ==> vs[i] == Accepted
  }

  /** The verdict of a submission whose tests have verdicts `vs`, in order. */
  function FinalVerdict(vs: seq<Verdict>): Verdict {
    var k := FirstFatal(vs);
    if k < |vs| then Stored(vs[k])
    else if AllAccepted(vs) then Accepted
    else WrongAnswer
  }

  function FinalPassed(vs: seq<Verdict>): nat {
    Passed(vs[..FirstFatal(vs)])
  }

  function Verdicts(rs: seq<ExecResult>): (vs: seq<Verdict>)
    ensures |vs| == |rs|
  {
    seq(|rs|, i requires 0 <= i < |rs| => rs[i].verdict)
  }

  function Runtime(r: ExecResult): nat {
    if r.runtimeMs.Some? then r.runtimeMs.value else 0
  }

  function TotalRuntime(rs: seq<ExecResult>): nat {
    if rs == [] then 0 else Runtime(rs[0]) + TotalRuntime(rs[1..])
  }

  function FinalRuntime(rs: seq<ExecResult>): Option<nat> {
    var k := FirstFatal(Verdicts(rs));
    if k == |rs| then Some(TotalRuntime(rs))
    else if rs[k].verdict == CompilationError then None
    else Some(TotalRuntime(rs[..k + 1]))
  }

  function FinalRecord(rs: seq<ExecResult>): Record {
    var vs := Verdicts(rs);
    Record(FinalVerdict(vs), FinalPassed(vs), |rs|, FinalRuntime(rs))
  }

  /** How many outcomes the loop looks at without leaving: the first one that raises
      or is fatal stops it. */
  function FirstStop(outcomes: seq<TestOutcome>): (k: nat)
    ensures k <= |outcomes|
    ensures forall i :: 0 <= i < k ==> outcomes[i].Returned? && !Fatal(outcomes[i].result.verdict)
    ensures k < |outcomes| ==> outcomes[k].Raised? || Fatal(outcomes[k].result.verdict)
  {
    if outcomes == [] || outcomes[0].Raised? || Fatal(outcomes[0].result.verdict) then 0
    else 1 + FirstStop(outcomes[1..])
  }

  datatype Judgement = Judged(record: Record) | Aborted(error: Error)

  /** The results that the loop has seen when it stops without an error. */
  function Seen(outcomes: seq<TestOutcome>): seq<ExecResult>
    requires var k := FirstStop(outcomes); k < |outcomes| ==> outcomes[k].Returned?
  {
    var k := FirstStop(outcomes);
    var n := Min(k + 1, |outcomes|);
    seq(n, i requires 0 <= i < n => outcomes[i].result)
  }

  function JudgementOf(outcomes: seq<TestOutcome>): Judgement {
    var k := FirstStop(outcomes);
    if k < |outcomes| && outcomes[k].Raised? then Aborted(outcomes[k].error)
    else Judged(FinalRecord(Seen(outcomes)).(totalTests := |outcomes|))
  }

  // ----- One turn of the loop -----

  /** The loop's variables before test `i`. */
  datatype Progress = Progress(i: nat, testsPassed: nat, totalRuntimeMs: nat, finalVerdict: Verdict)

  datatype Turn = More(progress: Progress) | Leave(record: Record)

  function Start(): Progress {
    Progress(0, 0, 0, Accepted)
  }

  /** After the loop: the two branches that settle the verdict. */
  function Conclude(p: Progress, total: nat): Record {
    var verdict :=
      if p.testsPassed != total && p.finalVerdict == Accepted then WrongAnswer else p.finalVerdict;
    Record(verdict, p.testsPassed, total, Some(p.totalRuntimeMs))
  }

  function KeepGoing(p: Progress, total: nat): Turn {
    if p.i == total then Leave(Conclude(p, total)) else More(p)
  }

  function TakeTurn(p: Progress, total: nat, r: ExecResult): Turn
    requires p.i < total
  {
    var q := p.(i := p.i + 1, totalRuntimeMs := p.totalRuntimeMs + Runtime(r));
    match r.verdict
    case CompilationError => Leave(Record(CompilationError, p.testsPassed, total, None))
    case Accepted => KeepGoing(q.(testsPassed := p.testsPassed + 1), total)
    case WrongAnswer =>
      if !Overrides(q.finalVerdict)
      then KeepGoing(q.(finalVerdict := WrongAnswer), total)
      else KeepGoing(q, total)
    case TimeLimitExceeded => Leave(Conclude(q.(finalVerdict := TimeLimitExceeded), total))
    case MemoryLimitExceeded => Leave(Conclude(q.(finalVerdict := MemoryLimitExceeded), total))
    case OutputLimitExceeded => Leave(Conclude(q.(finalVerdict := RuntimeError), total))
    case RuntimeError => Leave(Conclude(q.(finalVerdict := RuntimeError), total))
    case Pending => KeepGoing(q, total)
  }

  // ----- A turn follows the specification -----

  /** The loop's variables are right for tests with verdicts `vs`. */
  predicate OnTrack(p: Progress, vs: seq<Verdict>) {
    && p.i < |vs|
    && p.i <= FirstFatal(vs)
    && p.testsPassed == Passed(vs[..p.i])
    && p.finalVerdict == (if WrongAnswer in vs[..p.i] then WrongAnswer else Accepted)
  }

  /** A record that says what the specification says of `vs`. */
  predicate RightRecord(r: Record, vs: seq<Verdict>) {
    && r.verdict == FinalVerdict(vs)
    && r.testsPassed == FinalPassed(vs)
    && r.totalTests == |vs|
    && (r.runtimeMs == None <==> r.verdict == CompilationError)
  }

  lemma PassedSnoc(vs: seq<Verdict>, i: nat)
    requires i < |vs|
    ensures Passed(vs[..i + 1]) == Passed(vs[..i]) + (if vs[i] == Accepted then 1 else 0)
    ensures WrongAnswer in vs[..i + 1] <==> WrongAnswer in vs[..i] || vs[i] == WrongAnswer
  {
    assert vs[..i + 1] == vs[..i] + [vs[i]];
    CountSnoc(vs[..i], vs[i]);
  }

  lemma {:induction false} PassedCounts(vs: seq<Verdict>)
    ensures Passed(vs) <= |vs|
    ensures Passed(vs) == |vs| <==> AllAccepted(vs)
  {
    if vs == [] {
    } else {
      var n := |vs| - 1;
      PassedCounts(vs[..n]);
      PassedSnoc(vs, n);
      assert vs[..n + 1] == vs;
    }
  }

  lemma FirstFatalUnique(vs: seq<Verdict>, k: nat)
    requires k <= |vs|
    requires forall i :: 0 <= i < k ==> !Fatal(vs[i])
    requires k < |vs| ==> Fatal(vs[k])
    ensures FirstFatal(vs) == k
  {
  }

  lemma ConcludeWithoutFatal(p: Progress, vs: seq<Verdict>)
    requires p.i == |vs| && |vs| <= FirstFatal(vs)
    requires p.testsPassed == Passed(vs[..p.i])
    requires p.finalVerdict == (if WrongAnswer in vs[..p.i] then WrongAnswer else Accepted)
    ensures RightRecord(Conclude(p, |vs|), vs)
  {
    assert vs[..p.i] == vs;
    PassedCounts(vs);
    if WrongAnswer in vs {
      assert !AllAccepted(vs);
    }
  }

  /** One turn keeps the variables right, or leaves with the right record. */
  lemma TurnFollowsSpec(p: Progress, vs: seq<Verdict>, r: ExecResult)
    requires OnTrack(p, vs) && r.verdict == vs[p.i]
    ensures match TakeTurn(p, |vs|, r)
            case More(q) => OnTrack(q, vs) && q.i == p.i + 1
            case Leave(record) => RightRecord(record, vs)
  {
    PassedSnoc(vs, p.i);
    if Fatal(vs[p.i]) {
      FirstFatalUnique(vs, p.i);
      assert FinalPassed(vs) == p.testsPassed;
    } else {
      var q := p.(i := p.i + 1,
                  testsPassed := Passed(vs[..p.i + 1]),
                  totalRuntimeMs := p.totalRuntimeMs + Runtime(r),
                  finalVerdict := if WrongAnswer in vs[..p.i + 1] then WrongAnswer else Accepted);
      assert TakeTurn(p, |vs|, r) == KeepGoing(q, |vs|);
      if q.i == |vs| {
        ConcludeWithoutFatal(q, vs);
      }
    }
  }

  /** A turn adds the runtime of its result, and a record has all of it, but for a
      compilation error. */
  lemma TurnAddsRuntime(p: Progress, total: nat, r: ExecResult)
    requires p.i < total
    ensures match TakeTurn(p, total, r)
            case More(q) => q.totalRuntimeMs == p.totalRuntimeMs + Runtime(r)
            case Leave(record) =>
              record.runtimeMs
              == if r.verdict == CompilationError then None else Some(p.totalRuntimeMs + Runtime(r))
  {
  }

  lemma StartsOnTrack(vs: seq<Verdict>)
    requires vs != []
    ensures OnTrack(Start(), vs)
  {
  }

  /** What a judged submission always looks like. */
  lemma RightRecordIsConsistent(r: Record, vs: seq<Verdict>)
    requires RightRecord(r, vs) && vs != []
    ensures r.totalTests > 0 && r.testsPassed <= r.totalTests
    ensures r.verdict == Accepted <==> r.testsPassed == r.totalTests
    ensures r.verdict == Accepted <==> AllAccepted(vs)
    ensures r.verdict != Pending && InSchema(r.verdict)
  {
    var k := FirstFatal(vs);
    PassedCounts(vs[..k]);
    if k == |vs| {
      assert vs[..k] == vs;
    } else {
      assert vs[k] in vs;
    }
  }

  // ----- The loop, in place -----

  /** The engine seen from the loop: `outcomes` says how each test would go, and
      `calls` how many tests have been handed to it. */
  class Engine {
    const outcomes: seq<TestOutcome>
    var calls: nat

    constructor (outcomes: seq<TestOutcome>)
      ensures this.outcomes == outcomes && calls == 0
    {
      this.outcomes := outcomes;
      calls := 0;
    }

    method ExecuteTestCase(i: nat) returns (outcome: TestOutcome)
      requires i == calls < |outcomes|
      modifies this
      ensures outcome == outcomes[i] && calls == old(calls) + 1
    {
      outcome := outcomes[i];
      calls := calls + 1;
    }
  }

  lemma {:induction false} TotalRuntimeSnoc(rs: seq<ExecResult>, r: ExecResult)
    ensures TotalRuntime(rs + [r]) == TotalRuntime(rs) + Runtime(r)
  {
    if rs == [] {
      assert rs + [r] == [r];
    } else {
      assert (rs + [r])[1..] == rs[1..] + [r];
      TotalRuntimeSnoc(rs[1..], r);
    }
  }

  /** `FirstStop` from the point of view of a loop that has reached test `k`. */
  lemma {:induction false} FirstStopUnique(outcomes: seq<TestOutcome>, k: nat)
    requires k <= |outcomes|
    requires forall i :: 0 <= i < k ==> outcomes[i].Returned? && !Fatal(outcomes[i].result.verdict)
    requires k < |outcomes| ==> outcomes[k].Raised? || Fatal(outcomes[k].result.verdict)
    ensures FirstStop(outcomes) == k
  {
  }

  /** Leaving the loop on a fatal test `k`. */
  lemma JudgementAtFatal(outcomes: seq<TestOutcome>, rs: seq<ExecResult>, k: nat)
    requires k < |outcomes| && FirstStop(outcomes) == k && outcomes[k].Returned?
    requires |rs| == k + 1 && forall i :: 0 <= i <= k ==> rs[i] == outcomes[i].result
    ensures JudgementOf(outcomes) == Judged(Record(
              Stored(rs[k].verdict), Passed(Verdicts(rs)[..k]), |outcomes|,
              if rs[k].verdict == CompilationError then None else Some(TotalRuntime(rs))))
  {
    assert Seen(outcomes) == rs;
    FirstFatalUnique(Verdicts(rs), k);
    assert rs[..k + 1] == rs;
  }

  /** Leaving the loop at its end. */
  lemma JudgementAtEnd(outcomes: seq<TestOutcome>, rs: seq<ExecResult>)
    requires FirstStop(outcomes) == |outcomes| == |rs|
    requires forall i :: 0 <= i < |rs| ==> outcomes[i].Returned? && rs[i] == outcomes[i].result
    ensures JudgementOf(outcomes) == Judged(Record(
              if AllAccepted(Verdicts(rs)) then Accepted else WrongAnswer,
              Passed(Verdicts(rs)), |outcomes|, Some(TotalRuntime(rs))))
  {
    assert Seen(outcomes) == rs;
    FirstFatalUnique(Verdicts(rs), |rs|);
    assert Verdicts(rs)[..|rs|] == Verdicts(rs);
  }

  lemma VerdictsSnoc(rs: seq<ExecResult>, r: ExecResult)
    ensures Verdicts(rs + [r]) == Verdicts(rs) + [r.verdict]
  {
  }

  lemma CountSnoc(vs: seq<Verdict>, v: Verdict)
    ensures Passed(vs + [v]) == Passed(vs) + (if v == Accepted then 1 else 0)
    ensures WrongAnswer in vs + [v] <==> WrongAnswer in vs || v == WrongAnswer
  {
  }

  /** One more result: what changes in the three sums the loop keeps. */
  lemma OneMoreResult(rs: seq<ExecResult>, r: ExecResult)
    ensures Passed(Verdicts(rs + [r])) == Passed(Verdicts(rs)) + (if r.verdict == Accepted then 1 else 0)
    ensures WrongAnswer in Verdicts(rs + [r]) <==> WrongAnswer in Verdicts(rs) || r.verdict == WrongAnswer
    ensures TotalRuntime(rs + [r]) == TotalRuntime(rs) + Runtime(r)
    ensures Verdicts(rs + [r])[..|rs|] == Verdicts(rs)
  {
    VerdictsSnoc(rs, r);
    CountSnoc(Verdicts(rs), r.verdict);
    TotalRuntimeSnoc(rs, r);
  }

  /** The results `rs` are the first ones, and none of them stops the loop. */
  predicate Running(outcomes: seq<TestOutcome>, rs: seq<ExecResult>) {
    && |rs| <= |outcomes|
    && forall j :: 0 <= j < |rs| ==>
         outcomes[j].Returned? && rs[j] == outcomes[j].result && !Fatal(rs[j].verdict)
  }

  lemma JudgementOnFatal(outcomes: seq<TestOutcome>, rs: seq<ExecResult>, r: ExecResult)
    requires Running(outcomes, rs) && |rs| < |outcomes|
    requires outcomes[|rs|] == Returned(r) && Fatal(r.verdict)
    ensures FirstStop(outcomes) == |rs|
    ensures JudgementOf(outcomes) == Judged(Record(
              Stored(r.verdict), Passed(Verdicts(rs)), |outcomes|,
              if r.verdict == CompilationError then None else Some(TotalRuntime(rs) + Runtime(r))))
  {
    FirstStopUnique(outcomes, |rs|);
    JudgementAtFatal(outcomes, rs + [r], |rs|);
    OneMoreResult(rs, r);
  }

  lemma JudgementWithoutFatal(outcomes: seq<TestOutcome>, rs: seq<ExecResult>)
    requires Running(outcomes, rs) && |rs| == |outcomes|
    ensures FirstStop(outcomes) == |rs|
    ensures JudgementOf(outcomes) == Judged(Record(
              if Passed(Verdicts(rs)) == |rs| then Accepted else WrongAnswer,
              Passed(Verdicts(rs)), |outcomes|, Some(TotalRuntime(rs))))
    ensures WrongAnswer in Verdicts(rs) ==> Passed(Verdicts(rs)) != |rs|
  {
    FirstStopUnique(outcomes, |rs|);
    JudgementAtEnd(outcomes, rs);
    PassedCounts(Verdicts(rs));
  }

  /** A result that does not stop the loop. */
  lemma {:induction false} LoopGoesOn(outcomes: seq<TestOutcome>, rs: seq<ExecResult>, r: ExecResult)
    requires Running(outcomes, rs) && |rs| < |outcomes|
    requires outcomes[|rs|] == Returned(r) && !Fatal(r.verdict)
    ensures Running(outcomes, rs + [r])
    ensures Passed(Verdicts(rs + [r])) == Passed(Verdicts(rs)) + (if r.verdict == Accepted then 1 else 0)
    ensures WrongAnswer in Verdicts(rs + [r]) <==> WrongAnswer in Verdicts(rs) || r.verdict == WrongAnswer
    ensures TotalRuntime(rs + [r]) == TotalRuntime(rs) + Runtime(r)
  {
    OneMoreResult(rs, r);
  }

  /** The body of `executeSubmission` from its first test on. No test after the one
      that stops the loop is run. `early` tells that it returned from within the loop,
      which it does for a compilation error and for nothing else. */
  method RunTests(engine: Engine) returns (judgement: Judgement, early: bool)
    requires engine.calls == 0 && engine.outcomes != []
    modifies engine
    ensures judgement == JudgementOf(engine.outcomes)
    ensures early <==> judgement.Judged? && judgement.record.verdict == CompilationError
    ensures engine.calls == Min(FirstStop(engine.outcomes) + 1, |engine.outcomes|)
  {
    var n := |engine.outcomes|;
    var testsPassed := 0;
    var totalRuntimeMs := 0;
    var finalVerdict := Accepted;
    early := false;
    ghost var rs: seq<ExecResult> := [];
    ghost var left := false;

    for i := 0 to n
      invariant engine.calls == i == |rs| && !left && !early
      invariant Running(engine.outcomes, rs) && |engine.outcomes| == n
      invariant testsPassed == Passed(Verdicts(rs))
      invariant totalRuntimeMs == TotalRuntime(rs)
      invariant finalVerdict == if WrongAnswer in Verdicts(rs) then WrongAnswer else Accepted
    {
      var outcome := engine.ExecuteTestCase(i);
      if outcome.Raised? {
        FirstStopUnique(engine.outcomes, i);
        return Aborted(outcome.error), early;
      }
      var r := outcome.result;
      if r.runtimeMs.Some? {
        totalRuntimeMs := totalRuntimeMs + r.runtimeMs.value;
      }
      if Fatal(r.verdict) {
        JudgementOnFatal(engine.outcomes, rs, r);
        left := true;
      } else {
        LoopGoesOn(engine.outcomes, rs, r);
        rs := rs + [r];
      }
      if r.verdict == CompilationError {
        return Judged(Record(CompilationError, testsPassed, n, None)), true;
      }
      if r.verdict == Accepted {
        testsPassed := testsPassed + 1;
      } else if r.verdict == WrongAnswer {
        if !Overrides(finalVerdict) {
          finalVerdict := WrongAnswer;
        }
      } else if r.verdict == TimeLimitExceeded {
        finalVerdict := TimeLimitExceeded;
        break;
      } else if r.verdict == MemoryLimitExceeded {
        finalVerdict := MemoryLimitExceeded;
        break;
      } else if r.verdict == OutputLimitExceeded {
        finalVerdict := RuntimeError;
        break;
      } else if r.verdict == RuntimeError {
        finalVerdict := RuntimeError;
        break;
      }
    }

    if !left {
      JudgementWithoutFatal(engine.outcomes, rs);
    }
    if testsPassed == n && finalVerdict == Accepted {
      finalVerdict := Accepted;
    } else if testsPassed != n && finalVerdict == Accepted {
      finalVerdict := WrongAnswer;
    }
    judgement := Judged(Record(finalVerdict, testsPassed, n, Some(totalRuntimeMs)));
  }

  // ----- What is stored, test by test -----

  /** `sums` adds up the runtimes of the first `n` tests, where there is one. */
  predicate AddsUp(outcomes: seq<TestOutcome>, n: nat, sums: seq<nat>) {
    && n <= |outcomes| && |sums| == n + 1 && sums[0] == 0
    && forall i :: 0 <= i < n ==>
         && outcomes[i].Returned?
         && sums[i + 1] == sums[i] + match outcomes[i].result.runtimeMs case Some(ms) => ms case None => 0
  }

  lemma {:induction false} TotalRuntimeAddsUp(outcomes: seq<TestOutcome>, rs: seq<ExecResult>, sums: seq<nat>)
    requires AddsUp(outcomes, |rs|, sums)
    requires forall i :: 0 <= i < |rs| ==> rs[i] == outcomes[i].result
    ensures TotalRuntime(rs) == sums[|rs|]
  {
    if rs == [] {
    } else {
      var n := |rs| - 1;
      TotalRuntimeAddsUp(outcomes, rs[..n], sums[..n + 1]);
      TotalRuntimeSnoc(rs[..n], rs[n]);
      assert rs[..n] + [rs[n]] == rs;
    }
  }

  /** Tests `0..k-1` neither raise nor stop the loop. */
  predicate GoodUntil(outcomes: seq<TestOutcome>, k: nat)
    requires k <= |outcomes|
  {
    forall i :: 0 <= i < k ==> outcomes[i].Returned? && outcomes[i].result.verdict in {Accepted, WrongAnswer}
  }

  /** How many of the first `k` tests were accepted. */
  function AcceptedAmong(outcomes: seq<TestOutcome>, k: nat): nat
    requires k <= |outcomes| && forall i :: 0 <= i < k ==> outcomes[i].Returned?
  {
    |set i | 0 <= i < k && outcomes[i].result.verdict == Accepted|
  }

  lemma AcceptedAmongSnoc(outcomes: seq<TestOutcome>, k: nat)
    requires k < |outcomes| && forall i :: 0 <= i <= k ==> outcomes[i].Returned?
    ensures AcceptedAmong(outcomes, k + 1)
            == AcceptedAmong(outcomes, k) + if outcomes[k].result.verdict == Accepted then 1 else 0
  {
    var before := set i | 0 <= i < k && outcomes[i].result.verdict == Accepted;
    var passed := set i | 0 <= i < k + 1 && outcomes[i].result.verdict == Accepted;
    assert passed == if outcomes[k].result.verdict == Accepted then before + {k} else before;
  }

  lemma {:induction false} PassedIsCount(outcomes: seq<TestOutcome>, rs: seq<ExecResult>, k: nat)
    requires k <= |rs| <= |outcomes|
    requires forall i :: 0 <= i < |rs| ==> outcomes[i].Returned? && rs[i] == outcomes[i].result
    ensures Passed(Verdicts(rs)[..k]) == AcceptedAmong(outcomes, k)
    decreases k
  {
    if k == 0 {
      assert AcceptedAmong(outcomes, 0) == 0;
    } else {
      PassedIsCount(outcomes, rs, k - 1);
      PassedSnoc(Verdicts(rs), k - 1);
      AcceptedAmongSnoc(outcomes, k - 1);
    }
  }

  /** The first result that is neither ACCEPTED nor WRONG_ANSWER is stored under its own
      name, but for OUTPUT_LIMIT_EXCEEDED, with the number of accepted tests before it and
      the runtimes up to it. */
  lemma StoppingTestDecides(outcomes: seq<TestOutcome>, k: nat, sums: seq<nat>)
    requires k < |outcomes| && GoodUntil(outcomes, k) && outcomes[k].Returned?
    requires outcomes[k].result.verdict in
      {CompilationError, TimeLimitExceeded, MemoryLimitExceeded, RuntimeError, OutputLimitExceeded}
    requires AddsUp(outcomes, k + 1, sums)
    ensures JudgementOf(outcomes).Judged? && FirstStop(outcomes) == k
    ensures var r, v := JudgementOf(outcomes).record, outcomes[k].result.verdict;
            && r.verdict == (if v == OutputLimitExceeded then RuntimeError else v)
            && r.testsPassed == AcceptedAmong(outcomes, k)
            && r.totalTests == |outcomes|
            && r.runtimeMs == (if v == CompilationError then None else Some(sums[k + 1]))
  {
    FirstStopUnique(outcomes, k);
    var rs := Seen(outcomes);
    JudgementAtFatal(outcomes, rs, k);
    TotalRuntimeAddsUp(outcomes, rs, sums);
    PassedIsCount(outcomes, rs, k);
  }

  /** Without such a result all tests are run, and the submission is ACCEPTED if all of
      them were, and else WRONG_ANSWER. */
  lemma NoStoppingTest(outcomes: seq<TestOutcome>, sums: seq<nat>)
    requires GoodUntil(outcomes, |outcomes|) && AddsUp(outcomes, |outcomes|, sums)
    ensures JudgementOf(outcomes).Judged?
    ensures var r, n := JudgementOf(outcomes).record, |outcomes|;
            && r.verdict == (if forall i :: 0 <= i < n ==> outcomes[i].result.verdict == Accepted then Accepted
                             else WrongAnswer)
            && r.testsPassed == AcceptedAmong(outcomes, n)
            && r.totalTests == n
            && r.runtimeMs == Some(sums[n])
  {
    FirstStopUnique(outcomes, |outcomes|);
    var rs := Seen(outcomes);
    JudgementAtEnd(outcomes, rs);
    TotalRuntimeAddsUp(outcomes, rs, sums);
    PassedIsCount(outcomes, rs, |outcomes|);
    assert Verdicts(rs)[..|rs|] == Verdicts(rs);
    forall i | 0 <= i < |rs| ensures Verdicts(rs)[i] == outcomes[i].result.verdict {
    }
  }

  /** `n` tests are run: the last of them stops the loop, or there are no more. */
  predicate RunsTests(outcomes: seq<TestOutcome>, n: nat) {
    && 0 < n <= |outcomes| && GoodUntil(outcomes, n - 1) && outcomes[n - 1].Returned?
    && var v := outcomes[n - 1].result.verdict;
       || v in {CompilationError, TimeLimitExceeded, MemoryLimitExceeded, RuntimeError, OutputLimitExceeded}
       || (n == |outcomes| && v in {Accepted, WrongAnswer})
  }

  /** What the results call for: the verdict of the last test that was run, or of all tests
      together, the number of accepted ones, and the sum of the runtimes. */
  function CalledFor(outcomes: seq<TestOutcome>, n: nat, sums: seq<nat>): Record
    requires RunsTests(outcomes, n) && AddsUp(outcomes, n, sums)
  {
    var v := outcomes[n - 1].result.verdict;
    Record(
      if v == OutputLimitExceeded then RuntimeError
      else if v !in {Accepted, WrongAnswer} then v
      else if forall i :: 0 <= i < n ==> outcomes[i].result.verdict == Accepted then Accepted
      else WrongAnswer,
      AcceptedAmong(outcomes, n),
      |outcomes|,
      if v == CompilationError then None else Some(sums[n]))
  }

  lemma StoppedIsCalledFor(outcomes: seq<TestOutcome>, n: nat, sums: seq<nat>)
    requires RunsTests(outcomes, n) && AddsUp(outcomes, n, sums)
    requires outcomes[n - 1].result.verdict !in {Accepted, WrongAnswer}
    ensures JudgementOf(outcomes) == Judged(CalledFor(outcomes, n, sums))
    ensures FirstStop(outcomes) == n - 1
  {
    StoppingTestDecides(outcomes, n - 1, sums);
    AcceptedAmongSnoc(outcomes, n - 1);
  }

  lemma UnstoppedIsCalledFor(outcomes: seq<TestOutcome>, n: nat, sums: seq<nat>)
    requires RunsTests(outcomes, n) && AddsUp(outcomes, n, sums)
    requires outcomes[n - 1].result.verdict in {Accepted, WrongAnswer}
    ensures JudgementOf(outcomes) == Judged(CalledFor(outcomes, n, sums))
    ensures FirstStop(outcomes) == n == |outcomes|
  {
    FirstStopUnique(outcomes, n);
    NoStoppingTest(outcomes, sums);
  }

  /** The loop makes of any results what they call for, and runs no other tests. */
  lemma JudgementIsCalledFor(outcomes: seq<TestOutcome>, n: nat, sums: seq<nat>)
    requires RunsTests(outcomes, n) && AddsUp(outcomes, n, sums)
    ensures JudgementOf(outcomes) == Judged(CalledFor(outcomes, n, sums))
    ensures Min(FirstStop(outcomes) + 1, |outcomes|) == n
  {
    if outcomes[n - 1].result.verdict in {Accepted, WrongAnswer} {
      UnstoppedIsCalledFor(outcomes, n, sums);
    } else {
      StoppedIsCalledFor(outcomes, n, sums);
    }
  }

  /** The first test that raises ends the judgement with its error, unless a stored
      result came before. */
  lemma RaisingTestAborts(outcomes: seq<TestOutcome>, k: nat)
    requires k < |outcomes| && GoodUntil(outcomes, k) && outcomes[k].Raised?
    ensures JudgementOf(outcomes) == Aborted(outcomes[k].error)
  {
    FirstStopUnique(outcomes, k);
  }

  /** Test `k` is the first that is neither ACCEPTED nor WRONG_ANSWER. */
  predicate StopsAt(vs: seq<Verdict>, k: nat) {
    && k < |vs| && (forall i :: 0 <= i < k ==> vs[i] in {Accepted, WrongAnswer})
    && vs[k] in {CompilationError, TimeLimitExceeded, MemoryLimitExceeded, RuntimeError, OutputLimitExceeded}
  }

  predicate NeverStops(vs: seq<Verdict>) {
    forall i :: 0 <= i < |vs| ==> vs[i] in {Accepted, WrongAnswer}
  }

  /** What the verdict and the count of a submission are, test by test. */
  lemma FinalVerdictMeans(vs: seq<Verdict>)
    ensures forall k: nat :: StopsAt(vs, k) ==>
              && FinalVerdict(vs) == (if vs[k] == OutputLimitExceeded then RuntimeError else vs[k])
              && FinalPassed(vs) == multiset(vs[..k])[Accepted]
    ensures NeverStops(vs) ==>
              && FinalVerdict(vs) == (if forall v :: v in vs ==> v == Accepted then Accepted else WrongAnswer)
              && FinalPassed(vs) == multiset(vs)[Accepted]
  {
    forall k: nat | StopsAt(vs, k)
      ensures FinalVerdict(vs) == if vs[k] == OutputLimitExceeded then RuntimeError else vs[k]
      ensures FinalPassed(vs) == multiset(vs[..k])[Accepted]
    {
      FirstFatalUnique(vs, k);
    }
    if NeverStops(vs) {
      FirstFatalUnique(vs, |vs|);
      assert vs[..|vs|] == vs;
      assert AllAccepted(vs) <==> forall v :: v in vs ==> v == Accepted by {
        forall i | 0 <= i < |vs| ensures vs[i] in vs {
        }
      }
    }
  }

  // ----- The order of the tests -----

  /** Does any order of these results give the same verdict? */
  ghost predicate VerdictIgnoresOrder(vs: seq<Verdict>) {
    forall ws: seq<Verdict> :: multiset(ws) == multiset(vs) ==> FinalVerdict(ws) == FinalVerdict(vs)
  }

  predicate FatalsAgree(vs: seq<Verdict>) {
    forall i, j :: 0 <= i < |vs| && 0 <= j < |vs| && Fatal(vs[i]) && Fatal(vs[j]) ==> Stored(vs[i]) == Stored(vs[j])
  }

  lemma SameElements(vs: seq<Verdict>, ws: seq<Verdict>)
    requires multiset(vs) == multiset(ws)
    ensures |vs| == |ws|
    ensures forall v :: v in vs <==> v in ws
  {
    assert |multiset(vs)| == |multiset(ws)|;
    forall v ensures v in vs <==> v in ws {
      assert v in vs <==> v in multiset(vs);
      assert v in ws <==> v in multiset(ws);
    }
  }

  lemma NoFatalIffNoneIn(vs: seq<Verdict>)
    ensures FirstFatal(vs) == |vs| <==> forall v :: v in vs ==> !Fatal(v)
  {
    var k := FirstFatal(vs);
    if k < |vs| {
      assert vs[k] in vs;
    }
  }

  /** Whether a submission is accepted does not depend on the order of its tests; nor
      do the verdict and the number of passed tests when no result is fatal. */
  lemma AcceptedIgnoresOrder(vs: seq<Verdict>, ws: seq<Verdict>)
    requires multiset(vs) == multiset(ws)
    ensures FinalVerdict(vs) == Accepted <==> FinalVerdict(ws) == Accepted
    ensures FirstFatal(vs) == |vs| ==> FinalVerdict(vs) == FinalVerdict(ws) && FinalPassed(vs) == FinalPassed(ws)
  {
    SameElements(vs, ws);
    NoFatalIffNoneIn(vs);
    NoFatalIffNoneIn(ws);
    PassedCounts(vs);
    PassedCounts(ws);
    assert Passed(vs) == Passed(ws);
    if FirstFatal(vs) == |vs| {
      assert vs[..|vs|] == vs && ws[..|ws|] == ws;
    }
  }

  /** When several results are fatal, the verdict is independent of the order exactly
      when they would all be stored alike. */
  lemma OrderMattersIffFatalsDiffer(vs: seq<Verdict>)
    ensures VerdictIgnoresOrder(vs) <==> FatalsAgree(vs)
  {
    if FatalsAgree(vs) {
      forall ws: seq<Verdict> | multiset(ws) == multiset(vs) ensures FinalVerdict(ws) == FinalVerdict(vs) {
        AgreeingFatals(vs, ws);
      }
    } else {
      var i, j :| 0 <= i < |vs| && 0 <= j < |vs| && Fatal(vs[i]) && Fatal(vs[j]) && Stored(vs[i]) != Stored(vs[j]);
      var ws, us := MoveToFront(vs, i), MoveToFront(vs, j);
      MoveToFrontPermutes(vs, i);
      MoveToFrontPermutes(vs, j);
      FirstFatalUnique(ws, 0);
      FirstFatalUnique(us, 0);
      assert FinalVerdict(ws) == Stored(vs[i]) && FinalVerdict(us) == Stored(vs[j]);
    }
  }

  lemma AgreeingFatals(vs: seq<Verdict>, ws: seq<Verdict>)
    requires multiset(vs) == multiset(ws) && FatalsAgree(vs)
    ensures FinalVerdict(vs) == FinalVerdict(ws)
  {
    SameElements(vs, ws);
    NoFatalIffNoneIn(vs);
    NoFatalIffNoneIn(ws);
    if FirstFatal(vs) == |vs| {
      AcceptedIgnoresOrder(vs, ws);
    } else {
      var k := FirstFatal(ws);
      assert ws[k] in vs;
    }
  }

  function MoveToFront(vs: seq<Verdict>, i: nat): seq<Verdict>
    requires i < |vs|
  {
    [vs[i]] + vs[..i] + vs[i + 1..]
  }

  lemma MoveToFrontPermutes(vs: seq<Verdict>, i: nat)
    requires i < |vs|
    ensures multiset(MoveToFront(vs, i)) == multiset(vs)
  {
    assert vs == vs[..i] + [vs[i]] + vs[i + 1..];
  }

  lemma {:induction false} TotalRuntimeOfConcat(rs: seq<ExecResult>, qs: seq<ExecResult>)
    ensures TotalRuntime(rs + qs) == TotalRuntime(rs) + TotalRuntime(qs)
  {
    if rs == [] {
      assert rs + qs == qs;
    } else {
      assert (rs + qs)[1..] == rs[1..] + qs;
      TotalRuntimeOfConcat(rs[1..], qs);
    }
  }

  /** Where the first result of `rs` is in a permutation `qs`; the rest is permuted too. */
  lemma FindHead(rs: seq<ExecResult>, qs: seq<ExecResult>) returns (before: seq<ExecResult>, after: seq<ExecResult>)
    requires rs != [] && multiset(rs) == multiset(qs)
    ensures qs == before + ([rs[0]] + after)
    ensures multiset(before + after) == multiset(rs[1..])
  {
    assert rs[0] in multiset(qs);
    var i :| 0 <= i < |qs| && qs[i] == rs[0];
    before, after := qs[..i], qs[i + 1..];
    assert rs == [rs[0]] + rs[1..];
    assert qs == before + ([rs[0]] + after);
    assert multiset(before + after) == multiset(qs) - multiset{rs[0]};
    assert multiset(rs[1..]) == multiset(rs) - multiset{rs[0]};
  }

  lemma OnlyEmptyPermutesEmpty(qs: seq<ExecResult>)
    requires multiset(qs) == multiset{}
    ensures qs == []
  {
    assert |qs| == |multiset(qs)|;
  }

  /** The summed runtime, too, ignores the order when every test is run. */
  lemma {:induction false} TotalRuntimeIgnoresOrder(rs: seq<ExecResult>, qs: seq<ExecResult>)
    requires multiset(rs) == multiset(qs)
    ensures TotalRuntime(rs) == TotalRuntime(qs)
    decreases |rs|
  {
    if rs == [] {
      OnlyEmptyPermutesEmpty(qs);
    } else {
      var before, after := FindHead(rs, qs);
      TotalRuntimeIgnoresOrder(rs[1..], before + after);
      TotalRuntimeOfConcat(before, [rs[0]] + after);
      TotalRuntimeOfConcat(before, after);
      assert ([rs[0]] + after)[1..] == after;
    }
  }

  lemma VerdictsOfParts(rs: seq<ExecResult>, qs: seq<ExecResult>)
    ensures Verdicts(rs + qs) == Verdicts(rs) + Verdicts(qs)
  {
  }

  lemma VerdictsOfInsertion(before: seq<ExecResult>, r: ExecResult, after: seq<ExecResult>)
    ensures multiset(Verdicts(before + ([r] + after))) == multiset{r.verdict} + multiset(Verdicts(before + after))
  {
    VerdictsOfParts(before, [r] + after);
    VerdictsOfParts([r], after);
    VerdictsOfParts(before, after);
    assert Verdicts([r]) == [r.verdict];
  }

  lemma {:induction false} VerdictsPermute(rs: seq<ExecResult>, qs: seq<ExecResult>)
    requires multiset(rs) == multiset(qs)
    ensures multiset(Verdicts(rs)) == multiset(Verdicts(qs))
    decreases |rs|
  {
    if rs == [] {
      OnlyEmptyPermutesEmpty(qs);
    } else {
      var before, after := FindHead(rs, qs);
      VerdictsPermute(rs[1..], before + after);
      VerdictsOfInsertion(before, rs[0], after);
      VerdictsOfInsertion([], rs[0], rs[1..]);
      assert [] + ([rs[0]] + rs[1..]) == rs;
      assert [] + rs[1..] == rs[1..];
    }
  }

  /** When no result is fatal, the whole record ignores the order of the tests. */
  lemma RecordIgnoresOrder(rs: seq<ExecResult>, qs: seq<ExecResult>)
    requires multiset(rs) == multiset(qs)
    requires FirstFatal(Verdicts(rs)) == |rs|
    ensures FinalRecord(rs) == FinalRecord(qs)
  {
    VerdictsPermute(rs, qs);
    SameElements(Verdicts(rs), Verdicts(qs));
    AcceptedIgnoresOrder(Verdicts(rs), Verdicts(qs));
    NoFatalIffNoneIn(Verdicts(rs));
    NoFatalIffNoneIn(Verdicts(qs));
    TotalRuntimeIgnoresOrder(rs, qs);
  }

  // ----- From the document to the tests -----

  /** The outcomes of a submission's tests, one host per test. */
  function OutcomesOf(tests: seq<(Request, Host)>): (outcomes: seq<TestOutcome>)
    ensures |outcomes| == |tests|
  {
    seq(|tests|, i requires 0 <= i < |tests| =>
      ExecuteTestCase(true, Execute(tests[i].0, tests[i].1)))
  }

  predicate AcceptedOutcome(outcome: TestOutcome) {
    outcome.Returned? && outcome.result.verdict == Accepted
  }

  lemma AcceptedJudgement(outcomes: seq<TestOutcome>)
    ensures (JudgementOf(outcomes).Judged? && JudgementOf(outcomes).record.verdict == Accepted)
            <==> forall i :: 0 <= i < |outcomes| ==> AcceptedOutcome(outcomes[i])
  {
    var k := FirstStop(outcomes);
    if k < |outcomes| {
      assert !AcceptedOutcome(outcomes[k]);
      if outcomes[k].Returned? {
        JudgementAtFatal(outcomes, Seen(outcomes), k);
      }
    } else {
      var rs := Seen(outcomes);
      JudgementAtEnd(outcomes, rs);
      forall i | 0 <= i < |rs| ensures Verdicts(rs)[i] == Accepted <==> AcceptedOutcome(outcomes[i]) {
      }
    }
  }

  /** ACCEPTED, from end to end: at least one test, and on every one the program
      compiled, ended cleanly and printed the expected lines. */
  lemma AcceptedMeansEveryTestPasses(tests: seq<(Request, Host)>)
    requires tests != []
    ensures (JudgementOf(OutcomesOf(tests)).Judged? && JudgementOf(OutcomesOf(tests)).record.verdict == Accepted)
            <==> forall i :: 0 <= i < |tests| ==> Passes(tests[i].0, tests[i].1)
  {
    var outcomes := OutcomesOf(tests);
    forall i | 0 <= i < |tests|
      ensures Passes(tests[i].0, tests[i].1) <==> AcceptedOutcome(outcomes[i])
    {
      VerdictsOfCleanRuns(tests[i].0, tests[i].1);
    }
    AcceptedJudgement(outcomes);
  }
}
