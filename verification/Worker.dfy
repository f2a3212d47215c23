/** The code of the worker, in place, among other workers that may do anything. Each
    method is proved against a function, and shown to be a run of the protocol. */
module Worker {
  import opened Prelude
  import opened Executor
  import opened ExecutionAdapter
  import opened Judge
  import opened Protocol
  import Metrics
  import Safety

  /** The stored document and the operations the worker performs on it. */
  class SubmissionCollection {
    var doc: Doc

    constructor (doc: Doc)
      ensures this.doc == doc
    {
      this.doc := doc;
    }

    method FindOneAndClaim(issued: nat, started: nat, stamp: nat, staleMs: nat) returns (claimed: bool)
      modifies this
      ensures claimed == ClaimMatches(old(doc), issued, staleMs)
      ensures claimed <==>
                || old(doc.status) == QUEUED
                || (old(doc.status) == RUNNING
                    && match old(doc.execStartedAt)
                       case Some(since) => since + staleMs < issued
                       case None => old(doc.startedAt).Some? && old(doc.startedAt).value + staleMs < issued)
      ensures doc == if claimed
                     then old(doc).(status := RUNNING, startedAt := Some(started), execStartedAt := Some(stamp))
                     else old(doc)
    {
      var staleCutoff := issued - staleMs;
      claimed := doc.status == QUEUED;
      if doc.status == RUNNING {
        if doc.execStartedAt.Some? {
          claimed := doc.execStartedAt.value < staleCutoff;
        } else {
          claimed := doc.startedAt.Some? && doc.startedAt.value < staleCutoff;
        }
      }
      if claimed {
        doc := doc.(status := RUNNING, startedAt := Some(started), execStartedAt := Some(stamp));
      }
    }

    method Store(loaded: Doc, edited: Doc)
      modifies this
      ensures doc == Save(old(doc), loaded, edited)
    {
      doc := Save(doc, loaded, edited);
    }

    method MarkFailed()
      modifies this
      ensures doc == old(doc).(status := FAILED)
    {
      doc := doc.(status := FAILED);
    }

    method Release()
      modifies this
      ensures doc == if old(doc.status) == RUNNING then old(doc).(status := QUEUED) else old(doc)
    {
      if doc.status == RUNNING {
        doc := doc.(status := QUEUED);
      }
    }
  }

  // ----- What one attempt is going to meet -----

  /** Which of the database operations of one attempt fail. */
  datatype Faults = Faults(claim: bool, load: bool, mark: bool, finish: bool, stamp: bool, settle: bool)

  /** Besides its faults: how its tests go, and the two stamps it reads for its claim. */
  datatype Plan = Plan(faults: Faults, outcomes: seq<TestOutcome>, started: nat, stamp: nat)

  function OutcomeOf(outcome: TestOutcome): Outcome {
    match outcome
    case Returned(result) => Answers(Runtime(result))
    case Raised(error) => Raises(FaultOf(error))
  }

  /** The one step that an attempt takes next, whatever others have done. */
  function OwnStep(plan: Plan, id: nat, a: Attempt): Step {
    var fails := match a.pc
                 case Delivered => plan.faults.claim
                 case Claimed => plan.faults.load
                 case Marking => plan.faults.mark
                 case Finishing(_) => plan.faults.finish
                 case Saved => plan.faults.stamp
                 case Failing(_, _) => plan.faults.settle
                 case _ => false;
    if fails then Throws(id)
    else
      match a.pc
      case Delivered => TryClaim(id, plan.started, plan.stamp)
      case Claimed => Load(id)
      case Marking => MarkRunning(id)
      case Testing =>
        RunTest(id, if a.progress.i < |plan.outcomes| then OutcomeOf(plan.outcomes[a.progress.i]) else Answers(0))
      case Finishing(_) => Finish(id)
      case Saved => Stamp(id)
      case _ => Settle(id)
  }

  predicate Owns(s: Step, id: nat) {
    IsAttemptStep(s) && s.id == id
  }

  /** `steps` takes `w` to `w'`, and the steps of attempt `id` among them are the planned
      ones; those of others are arbitrary. */
  predicate Follows(env: Env, plan: Plan, id: nat, w: World, steps: seq<Step>, w': World)
    decreases |steps|
  {
    if steps == [] then w' == w
    else
      && Enabled(env, w, steps[0])
      && (Owns(steps[0], id) ==> id in w.attempts && steps[0] == OwnStep(plan, id, w.attempts[id]))
      && Follows(env, plan, id, Next(env, w, steps[0]), steps[1..], w')
  }

  lemma {:induction false} FollowsSnoc(env: Env, plan: Plan, id: nat, w: World, steps: seq<Step>, w': World, s: Step)
    requires Follows(env, plan, id, w, steps, w') && Enabled(env, w', s)
    requires Owns(s, id) ==> id in w'.attempts && s == OwnStep(plan, id, w'.attempts[id])
    ensures Follows(env, plan, id, w, steps + [s], Next(env, w', s))
    decreases |steps|
  {
    if steps == [] {
      assert (steps + [s])[1..] == [];
    } else {
      assert (steps + [s])[1..] == steps[1..] + [s];
      FollowsSnoc(env, plan, id, Next(env, w, steps[0]), steps[1..], w', s);
    }
  }

  lemma {:induction false} FollowingIsARun(env: Env, plan: Plan, id: nat, w: World, steps: seq<Step>, w': World)
    requires Follows(env, plan, id, w, steps, w')
    ensures Run(Free, env, w, steps) && After(Free, env, w, steps) == w'
    decreases |steps|
  {
    if steps == [] {
    } else {
      FollowingIsARun(env, plan, id, Next(env, w, steps[0]), steps[1..], w');
    }
  }

  /** What an attempt does from a reachable state on leads to a reachable state, so every
      theorem about runs holds of it; for instance, what COMPLETED means. */
  lemma FollowingStaysReachable(env: Env, plan: Plan, id: nat, before: seq<Step>, steps: seq<Step>, w': World)
    requires Run(Free, env, Init(), before)
    requires Follows(env, plan, id, After(Free, env, Init(), before), steps, w')
    ensures Run(Free, env, Init(), before + steps) && After(Free, env, Init(), before + steps) == w'
    ensures w'.doc.status == COMPLETED ==> Safety.HasResult(env, w'.doc)
  {
    FollowingIsARun(env, plan, id, After(Free, env, Init(), before), steps, w');
    RunConcat(Free, env, Init(), before, steps);
    Safety.RunKeepsResults(Free, env, Init(), before + steps);
  }

  /** A step of somebody else does not move the attempt. */
  lemma OthersLeaveMine(env: Env, w: World, s: Step, id: nat)
    requires Enabled(env, w, s) && !Owns(s, id) && id in w.attempts
    ensures id in Next(env, w, s).attempts && Next(env, w, s).attempts[id] == w.attempts[id]
    ensures Next(env, w, s).clock >= w.clock
  {
    if IsAttemptStep(s) {
      AttemptStepShape(env, w, s);
    }
  }

  /** The outcomes an engine may report when the tests have the verdicts of `env`. */
  predicate Faithful(env: Env, outcomes: seq<TestOutcome>) {
    && |outcomes| == |env.verdicts|
    && forall i :: 0 <= i < |outcomes| && outcomes[i].Returned? ==>
         outcomes[i].result == ResultOf(env.verdicts[i], Runtime(outcomes[i].result))
  }

  /** Whatever runtimes and however far the loop got, a judgement without an error is
      the one that the verdicts of the tests call for. */
  lemma JudgementIsRight(env: Env, outcomes: seq<TestOutcome>)
    requires Faithful(env, outcomes) && outcomes != [] && JudgementOf(outcomes).Judged?
    ensures RightRecord(JudgementOf(outcomes).record, env.verdicts)
  {
    var vs, k := env.verdicts, FirstStop(outcomes);
    var rs := Seen(outcomes);
    FirstFatalUnique(vs, k);
    assert Verdicts(rs)[..k] == vs[..k];
    if k < |outcomes| {
      JudgementAtFatal(outcomes, rs, k);
    } else {
      JudgementAtEnd(outcomes, rs);
      assert Verdicts(rs) == vs;
    }
  }

  function ProgressAfter(rs: seq<ExecResult>): Progress {
    Progress(|rs|, Passed(Verdicts(rs)), TotalRuntime(rs),
             if WrongAnswer in Verdicts(rs) then WrongAnswer else Accepted)
  }

  /** Where the loop leaves the attempt. */
  function PcAfter(judgement: Judgement): Pc {
    match judgement
    case Judged(record) => Finishing(record)
    case Aborted(error) => Failing(FaultOf(error), false)
  }

  predicate Turning(outcomes: seq<TestOutcome>, rs: seq<ExecResult>, r: ExecResult) {
    && Running(outcomes, rs) && |rs| < |outcomes| && outcomes[|rs|] == Returned(r)
    && (r.verdict == CompilationError ==> r.runtimeMs == None)
  }

  lemma FatalTurn(outcomes: seq<TestOutcome>, rs: seq<ExecResult>, r: ExecResult)
    requires Turning(outcomes, rs, r) && Fatal(r.verdict)
    ensures JudgementOf(outcomes).Judged?
    ensures TakeTurn(ProgressAfter(rs), |outcomes|, r) == Leave(JudgementOf(outcomes).record)
  {
    JudgementOnFatal(outcomes, rs, r);
  }

  lemma LastTurn(outcomes: seq<TestOutcome>, rs: seq<ExecResult>, r: ExecResult)
    requires Turning(outcomes, rs, r) && !Fatal(r.verdict) && |rs| + 1 == |outcomes|
    ensures JudgementOf(outcomes).Judged?
    ensures TakeTurn(ProgressAfter(rs), |outcomes|, r) == Leave(JudgementOf(outcomes).record)
  {
    OneMoreResult(rs, r);
    JudgementWithoutFatal(outcomes, rs + [r]);
  }

  lemma NextTurn(outcomes: seq<TestOutcome>, rs: seq<ExecResult>, r: ExecResult)
    requires Turning(outcomes, rs, r) && !Fatal(r.verdict) && |rs| + 1 < |outcomes|
    ensures TakeTurn(ProgressAfter(rs), |outcomes|, r) == More(ProgressAfter(rs + [r]))
  {
    OneMoreResult(rs, r);
  }

  lemma OneTest(env: Env, w: World, id: nat, outcomes: seq<TestOutcome>, rs: seq<ExecResult>, r: ExecResult)
    requires Faithful(env, outcomes) && Running(outcomes, rs) && |rs| < |outcomes|
    requires outcomes[|rs|] == Returned(r)
    requires At(w, id, Testing) && w.attempts[id].progress == ProgressAfter(rs)
    ensures var w' := NextTest(env, w, id, Answers(Runtime(r)));
            if Fatal(r.verdict) || |rs| + 1 == |outcomes|
            then w' == Goto(w, id, PcAfter(JudgementOf(outcomes)))
            else w' == Put(w, id, w.attempts[id].(progress := ProgressAfter(rs + [r])))
  {
    assert r == ResultOf(env.verdicts[|rs|], Runtime(r));
    if Fatal(r.verdict) {
      FatalTurn(outcomes, rs, r);
    } else if |rs| + 1 == |outcomes| {
      LastTurn(outcomes, rs, r);
    } else {
      NextTurn(outcomes, rs, r);
    }
  }

  /** The results before the next test, or all that the loop has seen if it leaves. */
  ghost predicate Looping(a: Attempt, outcomes: seq<TestOutcome>, rs: seq<ExecResult>) {
    if a.pc.Testing? then Running(outcomes, rs) && |rs| < |outcomes| && a.progress == ProgressAfter(rs)
    else a.pc == PcAfter(JudgementOf(outcomes))
  }

  lemma LoopMoves(env: Env, plan: Plan, w: World, id: nat, rs: seq<ExecResult>) returns (rs': seq<ExecResult>)
    requires Faithful(env, plan.outcomes) && At(w, id, Testing) && Looping(w.attempts[id], plan.outcomes, rs)
    ensures var s := OwnStep(plan, id, w.attempts[id]);
            && Enabled(env, w, s)
            && var w' := Next(env, w, s);
               && w' == Put(w, id, w'.attempts[id])
               && w'.attempts[id].loaded == w.attempts[id].loaded
               && w'.attempts[id].attemptsMade == w.attempts[id].attemptsMade
               && Looping(w'.attempts[id], plan.outcomes, rs')
               && |rs'| == |rs| + (if w'.attempts[id].pc.Testing? then 1 else 0)
  {
    var outcome := plan.outcomes[|rs|];
    rs' := rs;
    if outcome.Raised? {
      FirstStopUnique(plan.outcomes, |rs|);
    } else {
      OneTest(env, w, id, plan.outcomes, rs, outcome.result);
      if !Fatal(outcome.result.verdict) && |rs| + 1 < |plan.outcomes| {
        rs' := rs + [outcome.result];
      }
    }
  }

  // ----- The other workers -----

  /** All that happens beside one attempt: `others` says which steps they would like to
      take before each of its operations. */
  class Surroundings {
    const env: Env
    const id: nat
    const plan: Plan
    const others: nat -> seq<Step>
    const db: SubmissionCollection
    ghost const origin: World
    ghost var trace: seq<Step>
    var world: World
    var turn: nat

    constructor (env: Env, world: World, id: nat, plan: Plan, others: nat -> seq<Step>)
      requires id in world.attempts
      ensures Valid() && fresh(db)
      ensures this.env == env && this.id == id && this.plan == plan && this.others == others
      ensures origin == this.world == world && trace == []
    {
      this.env, this.id, this.plan, this.others := env, id, plan, others;
      db := new SubmissionCollection(world.doc);
      origin, trace, this.world, turn := world, [], world, 0;
    }

    /** The world so far is one that the attempt and the others have led to. */
    ghost predicate Tracks()
      reads this
    {
      Follows(env, plan, id, origin, trace, world) && id in world.attempts
    }

    ghost predicate Valid()
      reads this, db
    {
      Tracks() && db.doc == world.doc
    }

    /** This attempt. */
    function Mine(): Attempt
      requires id in world.attempts
      reads this
    {
      world.attempts[id]
    }

    /** The others do nothing. */
    ghost predicate Alone() {
      forall n :: others(n) == []
    }

    /** Nothing that the attempt can see has changed, but the document and the time; and
        not even those if the others do nothing. */
    twostate predicate Kept()
      requires old(id in world.attempts) && id in world.attempts
      reads this, db
    {
      && Mine() == old(Mine())
      && old(world.clock) <= world.clock
      && (Alone() ==> world == old(world) && db.doc == old(db.doc))
    }

    /** The time until the next operation of the attempt. */
    method Interfere()
      requires Valid()
      modifies this`world, this`trace, this`turn, db
      ensures Valid() && Kept()
    {
      var script := others(turn);
      turn := turn + 1;
      for i := 0 to |script|
        invariant Tracks() && Mine() == old(Mine()) && old(world.clock) <= world.clock
        invariant Alone() ==> world == old(world)
      {
        var s := script[i];
        if Enabled(env, world, s) && !Owns(s, id) {
          OthersLeaveMine(env, world, s, id);
          FollowsSnoc(env, plan, id, origin, trace, world, s);
          world, trace := Next(env, world, s), trace + [s];
        }
      }
      db.doc := world.doc;
    }

    /** The attempt has taken step `s`, and changed the document as `s` does. */
    method Did(s: Step)
      requires Tracks() && Enabled(env, world, s) && Owns(s, id) && s == OwnStep(plan, id, Mine())
      requires db.doc == Next(env, world, s).doc
      modifies this`world, this`trace
      ensures Valid() && world == Next(env, old(world), s)
    {
      AttemptStepShape(env, world, s);
      FollowsSnoc(env, plan, id, origin, trace, world, s);
      world, trace := Next(env, world, s), trace + [s];
    }

    /** In the loop over the tests the attempt keeps what it has loaded. */
    twostate predicate KeptInLoop()
      requires old(id in world.attempts) && id in world.attempts
      reads this, db
    {
      && Mine().loaded == old(Mine().loaded) && Mine().attemptsMade == old(Mine().attemptsMade)
      && old(world.clock) <= world.clock
      && (Alone() ==> world.clock == old(world.clock) && db.doc == old(db.doc))
    }

    /** One turn of the loop; the others act before it. */
    method PassTest(ghost rs: seq<ExecResult>) returns (ghost rs': seq<ExecResult>)
      requires Valid() && Mine().pc.Testing? && Looping(Mine(), plan.outcomes, rs) && Faithful(env, plan.outcomes)
      modifies this`world, this`trace, this`turn, db
      ensures Valid() && Looping(Mine(), plan.outcomes, rs') && KeptInLoop()
      ensures |rs'| == |rs| + (if Mine().pc.Testing? then 1 else 0)
    {
      Interfere();
      rs' := LoopMoves(env, plan, world, id, rs);
      Did(OwnStep(plan, id, Mine()));
    }

    method PassTests()
      requires Valid() && Mine().pc.Testing? && Mine().progress == Start()
      requires Faithful(env, plan.outcomes) && plan.outcomes != []
      modifies this`world, this`trace, this`turn, db
      ensures Valid() && Mine().pc == PcAfter(JudgementOf(plan.outcomes)) && KeptInLoop()
    {
      ghost var rs: seq<ExecResult> := [];
      while Mine().pc.Testing?
        invariant Valid() && Looping(Mine(), plan.outcomes, rs) && KeptInLoop()
        decreases |plan.outcomes| - |rs|, Mine().pc.Testing?
      {
        rs := PassTest(rs);
      }
    }
  }

  // ----- Functions that specify the methods -----

  /** How `executeSubmission` ends; it returns nothing for a compilation error. */
  datatype Execution = Evaluated(returned: Option<Record>) | Threw(fault: Fault)

  /** What the tests and the final save make of an attempt. */
  function Outcomes(plan: Plan): Execution {
    match JudgementOf(plan.outcomes)
    case Aborted(error) => Threw(FaultOf(error))
    case Judged(record) =>
      if plan.faults.finish then Threw(Retryable)
      else Evaluated(if record.verdict == CompilationError then None else Some(record))
  }

  /** The effect of `executeSubmission` when nobody else is at work. */
  function Executed(env: Env, d: Doc, plan: Plan, now: nat): (Doc, Execution) {
    if plan.faults.load then (d, Threw(Retryable))
    else if env.verdicts == [] then (d, Threw(NonRetryable))
    else if d.status != RUNNING && plan.faults.mark then (d, Threw(Retryable))
    else
      var loaded := if d.status != RUNNING then MarkedRunning(d, now) else d;
      var execution := Outcomes(plan);
      (if execution.Evaluated? then Finished(loaded, JudgementOf(plan.outcomes).record) else loaded, execution)
  }

  /** What a delivery adds to the metrics. */
  datatype Tally = Nothing | Completed(returned: Option<Record>, durationMs: int) | Caught(fault: Fault)

  datatype Ending = Ending(doc: Doc, returned: bool, tally: Tally)

  function Settled(env: Env, d: Doc, fault: Fault, attemptsMade: nat, settleFails: bool): Ending {
    if settleFails then Ending(d, false, Caught(fault))
    else if fault == NonRetryable then Ending(FailDoc(d), true, Caught(fault))
    else if attemptsMade + 1 < Budget(env) then Ending(ReleaseDoc(d), false, Caught(fault))
    else Ending(FailDoc(d), false, Caught(fault))
  }

  /** The effect of the `try` block, once the submission is claimed. */
  function Tried(env: Env, d: Doc, plan: Plan, now: nat, startTime: nat): (Doc, Tally) {
    var (doc, execution) := Executed(env, d, plan, now);
    match execution
    case Threw(fault) => (doc, Caught(fault))
    case Evaluated(returned) =>
      (doc, if plan.faults.stamp then Caught(Retryable) else Completed(returned, now - startTime))
  }

  function Concluded(env: Env, d: Doc, tally: Tally, attemptsMade: nat, plan: Plan): Ending {
    if tally.Caught? then Settled(env, d, tally.fault, attemptsMade, plan.faults.settle) else Ending(d, true, tally)
  }

  /** The effect of `processSubmission` when nobody else is at work. */
  function Processed(env: Env, d: Doc, issued: nat, attemptsMade: nat, plan: Plan, now: nat, startTime: nat): Ending {
    if plan.faults.claim then Ending(d, false, Nothing)
    else if !ClaimMatches(d, issued, env.staleMs) then Ending(d, true, Nothing)
    else
      var (doc, tally) := Tried(env, ClaimDoc(d, plan.started, plan.stamp), plan, now, startTime);
      Concluded(env, doc, tally, attemptsMade, plan)
  }

  function PcOf(execution: Execution): Pc {
    match execution
    case Evaluated(_) => Saved
    case Threw(fault) => Failing(fault, false)
  }

  // ----- executeSubmission -----

  /** The final save. `loaded` is the copy of the submission as it was loaded. */
  method SaveResult(scene: Surroundings, loaded: Doc, record: Record) returns (ok: bool)
    requires scene.Valid() && scene.Mine().pc == Finishing(record) && scene.Mine().loaded == loaded
    modifies scene`world, scene`trace, scene`turn, scene.db
    ensures scene.Valid() && ok == !scene.plan.faults.finish
    ensures scene.Mine().pc == (if ok then Saved else Failing(Retryable, false))
    ensures scene.Mine().attemptsMade == old(scene.Mine().attemptsMade)
    ensures old(scene.world.clock) <= scene.world.clock
    ensures scene.Alone() ==> scene.world.clock == old(scene.world.clock)
    ensures scene.Alone() && old(scene.db.doc) == loaded ==>
              scene.db.doc == if ok then loaded.(status := COMPLETED,
                                                 verdict := record.verdict,
                                                 testsPassed := Some(record.testsPassed),
                                                 totalTests := Some(record.totalTests),
                                                 runtimeMs := record.runtimeMs)
                              else loaded
  {
    scene.Interfere();
    if scene.plan.faults.finish {
      scene.Did(Throws(scene.id));
      return false;
    }
    var submission := loaded.(
      status := COMPLETED,
      verdict := record.verdict,
      testsPassed := Some(record.testsPassed),
      totalTests := Some(record.totalTests),
      runtimeMs := record.runtimeMs);
    scene.db.Store(loaded, submission);
    scene.Did(Finish(scene.id));
    ok := true;
  }

  /** The loop and the final save. */
  method EvaluateTests(scene: Surroundings, engine: Engine, loaded: Doc) returns (execution: Execution)
    requires scene.Valid() && scene.Mine().pc.Testing?
    requires scene.Mine().progress == Start() && scene.Mine().loaded == loaded
    requires engine.outcomes == scene.plan.outcomes != [] && engine.calls == 0
    requires Faithful(scene.env, engine.outcomes)
    modifies scene`world, scene`trace, scene`turn, scene.db, engine
    ensures scene.Valid() && execution == Outcomes(scene.plan) && scene.Mine().pc == PcOf(execution)
    ensures scene.Mine().attemptsMade == old(scene.Mine().attemptsMade)
    ensures engine.calls == Min(FirstStop(engine.outcomes) + 1, |engine.outcomes|)
    ensures old(scene.world.clock) <= scene.world.clock
    ensures scene.Alone() ==> scene.world.clock == old(scene.world.clock)
    ensures scene.Alone() && old(scene.db.doc) == loaded ==>
              scene.db.doc == if execution.Evaluated? then Finished(loaded, JudgementOf(engine.outcomes).record)
                              else loaded
  {
    scene.PassTests();
    var judgement, early := RunTests(engine);
    if judgement.Aborted? {
      return Threw(FaultOf(judgement.error));
    }
    var ok := SaveResult(scene, loaded, judgement.record);
    if !ok {
      return Threw(Retryable);
    }
    execution := Evaluated(if early then None else Some(judgement.record));
  }

  /** The transition to RUNNING, for a submission that was loaded in another state. */
  method MarkAsRunning(scene: Surroundings, loaded: Doc) returns (ok: bool, submission: Doc)
    requires scene.Valid() && scene.Mine().pc.Marking? && scene.Mine().loaded == loaded
    modifies scene`world, scene`trace, scene`turn, scene.db
    ensures scene.Valid() && ok == !scene.plan.faults.mark
    ensures scene.Mine().pc == (if ok then Testing else Failing(Retryable, false))
    ensures scene.Mine().attemptsMade == old(scene.Mine().attemptsMade)
    ensures ok ==> scene.Mine().loaded == submission && scene.Mine().progress == old(scene.Mine().progress)
    ensures old(scene.world.clock) <= scene.world.clock
    ensures scene.Alone() ==> scene.world.clock == old(scene.world.clock)
    ensures scene.Alone() && old(scene.db.doc) == loaded ==>
              if ok then scene.db.doc == submission == MarkedRunning(loaded, old(scene.world.clock))
              else scene.db.doc == loaded
  {
    scene.Interfere();
    submission := loaded;
    if scene.plan.faults.mark {
      scene.Did(Throws(scene.id));
      return false, submission;
    }
    submission := submission.(status := RUNNING);
    if submission.startedAt == None {
      submission := submission.(startedAt := Some(scene.world.clock));
    }
    scene.db.Store(loaded, submission);
    scene.Did(MarkRunning(scene.id));
    ok := true;
  }

  method ExecuteSubmission(scene: Surroundings, engine: Engine) returns (execution: Execution)
    requires scene.Valid() && scene.Mine().pc.Claimed?
    requires engine.outcomes == scene.plan.outcomes && engine.calls == 0
    requires Faithful(scene.env, engine.outcomes)
    modifies scene`world, scene`trace, scene`turn, scene.db, engine
    ensures scene.Valid() && scene.Mine().pc == PcOf(execution)
    ensures scene.Mine().attemptsMade == old(scene.Mine().attemptsMade)
    ensures execution.Evaluated? ==> execution == Outcomes(scene.plan)
    ensures engine.calls <= Min(FirstStop(engine.outcomes) + 1, |engine.outcomes|)
    ensures old(scene.world.clock) <= scene.world.clock
    ensures scene.Alone() ==>
              && scene.world.clock == old(scene.world.clock)
              && (scene.db.doc, execution) == Executed(scene.env, old(scene.db.doc), scene.plan, old(scene.world.clock))
  {
    scene.Interfere();
    if scene.plan.faults.load {
      scene.Did(Throws(scene.id));
      return Threw(Retryable);
    }
    var submission := scene.db.doc;
    scene.Did(Load(scene.id));
    if |engine.outcomes| == 0 {
      return Threw(FaultOf(AppError(422, Some("PROBLEM_NOT_READY"))));
    }
    if submission.status != RUNNING {
      var ok;
      ok, submission := MarkAsRunning(scene, submission);
      if !ok {
        return Threw(Retryable);
      }
    }
    execution := EvaluateTests(scene, engine, submission);
  }

  // ----- processSubmission -----

  /** What the metrics have become after a delivery. */
  twostate predicate Tallied(metrics: Metrics.MetricsService, language: string, tally: Tally)
    reads metrics
  {
    match tally
    case Nothing =>
      && metrics.workerJobsTotal == old(metrics.workerJobsTotal)
      && metrics.workerFailuresTotal == old(metrics.workerFailuresTotal)
      && metrics.judgedLog == old(metrics.judgedLog)
    case Completed(returned, durationMs) =>
      && Metrics.OneMore(old(metrics.workerJobsTotal), metrics.workerJobsTotal, Metrics.JobCompleted)
      && metrics.workerFailuresTotal == old(metrics.workerFailuresTotal)
      && metrics.judgedLog
         == old(metrics.judgedLog)
            + if returned.None? then []
              else [Metrics.Evaluation(language, returned.value.verdict, durationMs as real)]
    case Caught(fault) =>
      && Metrics.OneMore(old(metrics.workerJobsTotal), metrics.workerJobsTotal, Metrics.JobFailed)
      && Metrics.OneMore(old(metrics.workerFailuresTotal), metrics.workerFailuresTotal,
                         if fault == NonRetryable then Metrics.DomainFailure else Metrics.InfrastructureFailure)
      && metrics.judgedLog == old(metrics.judgedLog)
  }

  /** The update of the catch block. `saved` tells whether the result was already stored. */
  method SettleFailure(scene: Surroundings, fault: Fault, attemptsMade: nat, ghost saved: bool) returns (returned: bool)
    requires scene.Valid() && scene.Mine().pc == Failing(fault, saved) && scene.Mine().attemptsMade == attemptsMade
    modifies scene`world, scene`trace, scene`turn, scene.db
    ensures old(scene.world.clock) <= scene.world.clock
    ensures scene.Valid() && scene.Mine().pc == (if returned then Acked else Rethrown)
    ensures scene.Alone() ==>
              Ending(scene.db.doc, returned, Caught(fault))
              == Settled(scene.env, old(scene.db.doc), fault, attemptsMade, scene.plan.faults.settle)
  {
    scene.Interfere();
    if scene.plan.faults.settle {
      scene.Did(Throws(scene.id));
      return false;
    }
    if fault == NonRetryable {
      scene.db.MarkFailed();
      scene.Did(Settle(scene.id));
      return true;
    }
    var maxAttempts := Budget(scene.env);
    var currentAttemptNumber := attemptsMade + 1;
    if currentAttemptNumber < maxAttempts {
      scene.db.Release();
    } else {
      scene.db.MarkFailed();
    }
    scene.Did(Settle(scene.id));
    returned := false;
  }

  /** The metrics of a failed job. */
  method RecordFailure(metrics: Metrics.MetricsService, language: string, fault: Fault)
    requires metrics.JudgedOk() && metrics.JobsOk()
    modifies metrics
    ensures metrics.JudgedOk() && metrics.JobsOk()
    ensures Tallied(metrics, language, Caught(fault))
  {
    metrics.RecordFailed(fault);
  }

  /** The catch block. */
  method HandleFailure(scene: Surroundings, metrics: Metrics.MetricsService, language: string, fault: Fault,
                       attemptsMade: nat, ghost saved: bool)
      returns (returned: bool)
    requires scene.Valid() && scene.Mine().pc == Failing(fault, saved) && scene.Mine().attemptsMade == attemptsMade
    requires metrics.JudgedOk() && metrics.JobsOk()
    modifies scene`world, scene`trace, scene`turn, scene.db, metrics
    ensures old(scene.world.clock) <= scene.world.clock
    ensures scene.Valid() && scene.Mine().pc == (if returned then Acked else Rethrown)
    ensures metrics.JudgedOk() && metrics.JobsOk() && Tallied(metrics, language, Caught(fault))
    ensures scene.Alone() ==>
              Ending(scene.db.doc, returned, Caught(fault))
              == Settled(scene.env, old(scene.db.doc), fault, attemptsMade, scene.plan.faults.settle)
  {
    RecordFailure(metrics, language, fault);
    returned := SettleFailure(scene, fault, attemptsMade, saved);
  }

  /** The update of `execution.completedAt`. */
  method StampCompletion(scene: Surroundings) returns (ok: bool)
    requires scene.Valid() && scene.Mine().pc.Saved?
    modifies scene`world, scene`trace, scene`turn, scene.db
    ensures scene.Valid() && ok == !scene.plan.faults.stamp
    ensures scene.Mine().pc == (if ok then Acked else Failing(Retryable, true))
    ensures scene.Mine().attemptsMade == old(scene.Mine().attemptsMade)
    ensures old(scene.world.clock) <= scene.world.clock
    ensures scene.Alone() ==> scene.db.doc == old(scene.db.doc)
  {
    scene.Interfere();
    ok := !scene.plan.faults.stamp;
    scene.Did(if ok then Stamp(scene.id) else Throws(scene.id));
  }

  /** The metrics of a completed job. */
  method RecordSuccess(metrics: Metrics.MetricsService, language: string, returned: Option<Record>, durationMs: int)
    requires metrics.JudgedOk() && metrics.JobsOk()
    requires returned.Some? ==> returned.value.verdict != CompilationError
    modifies metrics
    ensures metrics.JudgedOk() && metrics.JobsOk()
    ensures Tallied(metrics, language, Completed(returned, durationMs))
  {
    var verdict := if returned.Some? then Some(returned.value.verdict) else None;
    metrics.RecordCompleted(language, verdict, durationMs as real);
  }

  /** The database side of the `try` block, once the submission is claimed. */
  method TryToEvaluate(scene: Surroundings, engine: Engine, startTime: nat) returns (tally: Tally, ghost saved: bool)
    requires scene.Valid() && scene.Mine().pc.Claimed?
    requires engine.outcomes == scene.plan.outcomes && engine.calls == 0
    requires Faithful(scene.env, engine.outcomes)
    modifies scene`world, scene`trace, scene`turn, scene.db, engine
    ensures scene.Valid() && !tally.Nothing?
    ensures scene.Mine().pc == (if tally.Caught? then Failing(tally.fault, saved) else Acked)
    ensures scene.Mine().attemptsMade == old(scene.Mine().attemptsMade)
    ensures tally.Completed? ==> Outcomes(scene.plan) == Evaluated(tally.returned)
    ensures tally.Completed? ==>
              old(scene.world.clock) <= startTime + tally.durationMs <= scene.world.clock
    ensures scene.Alone() ==>
              (scene.db.doc, tally)
              == Tried(scene.env, old(scene.db.doc), scene.plan, old(scene.world.clock), startTime)
  {
    var execution := ExecuteSubmission(scene, engine);
    saved := execution.Evaluated?;
    if execution.Threw? {
      return Caught(execution.fault), saved;
    }
    var durationMs := scene.world.clock - startTime;
    var ok := StampCompletion(scene);
    tally := if ok then Completed(execution.returned, durationMs) else Caught(Retryable);
  }

  /** The metrics of the `try` block, or else the `catch` block. */
  method Conclude(scene: Surroundings, metrics: Metrics.MetricsService, language: string, tally: Tally,
                  attemptsMade: nat, ghost saved: bool)
      returns (returned: bool)
    requires scene.Valid() && !tally.Nothing? && scene.Mine().attemptsMade == attemptsMade
    requires scene.Mine().pc == if tally.Caught? then Failing(tally.fault, saved) else Acked
    requires tally.Completed? ==> Outcomes(scene.plan) == Evaluated(tally.returned)
    requires metrics.JudgedOk() && metrics.JobsOk()
    modifies scene`world, scene`trace, scene`turn, scene.db, metrics
    ensures old(scene.world.clock) <= scene.world.clock
    ensures scene.Valid() && scene.Mine().pc == (if returned then Acked else Rethrown)
    ensures metrics.JudgedOk() && metrics.JobsOk() && Tallied(metrics, language, tally)
    ensures scene.Alone() ==>
              Ending(scene.db.doc, returned, tally)
              == Concluded(scene.env, old(scene.db.doc), tally, attemptsMade, scene.plan)
  {
    if tally.Caught? {
      returned := HandleFailure(scene, metrics, language, tally.fault, attemptsMade, saved);
    } else {
      RecordSuccess(metrics, language, tally.returned, tally.durationMs);
      returned := true;
    }
  }

  datatype ClaimResult = Unclear | Skipped | Owned

  /** The claim of the submission. */
  method Claim(scene: Surroundings, issued: nat) returns (result: ClaimResult)
    requires scene.Valid() && scene.Mine().pc.Delivered? && scene.Mine().issued == issued
    requires issued <= scene.plan.started <= scene.plan.stamp <= scene.world.clock
    modifies scene`world, scene`trace, scene`turn, scene.db
    ensures scene.Valid()
    ensures scene.Mine().pc == match result case Unclear => Rethrown case Skipped => Acked case Owned => Claimed
    ensures scene.Mine().attemptsMade == old(scene.Mine().attemptsMade)
    ensures result.Unclear? <==> scene.plan.faults.claim
    ensures old(scene.world.clock) <= scene.world.clock
    ensures scene.Alone() ==>
              && scene.world.clock == old(scene.world.clock)
              && (result.Owned? <==> !result.Unclear? && ClaimMatches(old(scene.db.doc), issued, scene.env.staleMs))
              && scene.db.doc == if result.Owned? then ClaimDoc(old(scene.db.doc), scene.plan.started, scene.plan.stamp)
                                 else old(scene.db.doc)
  {
    scene.Interfere();
    if scene.plan.faults.claim {
      scene.Did(Throws(scene.id));
      return Unclear;
    }
    var started, stamp := scene.plan.started, scene.plan.stamp;
    var claimed := scene.db.FindOneAndClaim(issued, started, stamp, scene.env.staleMs);
    scene.Did(TryClaim(scene.id, started, stamp));
    result := if claimed then Owned else Skipped;
  }

  /** One delivery, from its claim to its end, whatever the other workers do meanwhile:
      the attempt takes the planned steps of the protocol and no others. When nobody else
      is at work its effect is the one that `Processed` gives. */
  method ProcessSubmission(scene: Surroundings, engine: Engine, metrics: Metrics.MetricsService, language: string,
                           issued: nat, attemptsMade: nat, startTime: nat)
      returns (returned: bool, tally: Tally)
    requires scene.Valid() && scene.Mine().pc.Delivered?
    requires scene.Mine().issued == issued && scene.Mine().attemptsMade == attemptsMade
    requires issued <= scene.plan.started <= scene.plan.stamp <= scene.world.clock
    requires engine.outcomes == scene.plan.outcomes && engine.calls == 0
    requires Faithful(scene.env, engine.outcomes)
    requires metrics.JudgedOk() && metrics.JobsOk()
    modifies scene`world, scene`trace, scene`turn, scene.db, engine, metrics
    ensures scene.Valid() && scene.Mine().pc == (if returned then Acked else Rethrown)
    ensures metrics.JudgedOk() && metrics.JobsOk() && Tallied(metrics, language, tally)
    ensures tally.Completed? ==> Outcomes(scene.plan) == Evaluated(tally.returned)
    ensures tally.Completed? ==>
              old(scene.world.clock) <= startTime + tally.durationMs <= scene.world.clock
    ensures scene.Alone() ==>
              Ending(scene.db.doc, returned, tally)
              == Processed(scene.env, old(scene.db.doc), issued, attemptsMade, scene.plan, old(scene.world.clock),
                           startTime)
  {
    var claim := Claim(scene, issued);
    if !claim.Owned? {
      return claim.Skipped?, Nothing;
    }
    ghost var saved;
    tally, saved := TryToEvaluate(scene, engine, startTime);
    returned := Conclude(scene, metrics, language, tally, attemptsMade, saved);
  }

  /** `executeSubmission` returns no submission exactly for a compilation error; any
      submission that it returns has the verdict of the sequential judge. */
  lemma ReturnsNothingIffCompilationError(env: Env, plan: Plan)
    requires Faithful(env, plan.outcomes) && plan.outcomes != [] && Outcomes(plan).Evaluated?
    ensures Outcomes(plan).returned == None <==> FinalVerdict(env.verdicts) == CompilationError
    ensures Outcomes(plan).returned.Some? ==> RightRecord(Outcomes(plan).returned.value, env.verdicts)
  {
    JudgementIsRight(env, plan.outcomes);
  }

  /** What a delivery without failures stores: the two stamps, and what its tests call for. */
  lemma DeliveryStoresTheResult(env: Env, d: Doc, issued: nat, attemptsMade: nat, plan: Plan, now: nat, startTime: nat,
                                n: nat, sums: seq<nat>)
    requires ClaimMatches(d, issued, env.staleMs)
    requires plan.faults == Faults(false, false, false, false, false, false)
    requires Faithful(env, plan.outcomes) && RunsTests(plan.outcomes, n) && AddsUp(plan.outcomes, n, sums)
    ensures var ending := Processed(env, d, issued, attemptsMade, plan, now, startTime);
            var record := CalledFor(plan.outcomes, n, sums);
            && ending.returned
            && ending.tally.Completed? && ending.tally.durationMs == now - startTime
            && ending.doc == d.(
                 status := COMPLETED,
                 startedAt := Some(plan.started),
                 execStartedAt := Some(plan.stamp),
                 verdict := record.verdict,
                 testsPassed := Some(record.testsPassed),
                 totalTests := Some(record.totalTests),
                 runtimeMs := record.runtimeMs)
  {
    JudgementIsCalledFor(plan.outcomes, n, sums);
  }

  /** Without active tests the submission is FAILED at once, and the job acknowledged. */
  lemma DeliveryWithoutTestsFails(env: Env, d: Doc, issued: nat, attemptsMade: nat, plan: Plan, now: nat,
                                  startTime: nat)
    requires ClaimMatches(d, issued, env.staleMs) && env.verdicts == []
    requires !plan.faults.claim && !plan.faults.load && !plan.faults.settle
    ensures Processed(env, d, issued, attemptsMade, plan, now, startTime)
            == Ending(d.(status := FAILED, startedAt := Some(plan.started), execStartedAt := Some(plan.stamp)),
                      true, Caught(NonRetryable))
  {
  }

  /** A test that raises: a final error acknowledges a FAILED submission; another one
      rethrows and leaves it QUEUED, or FAILED on the last attempt. */
  lemma DeliveryWithAnErrorIsSettled(env: Env, d: Doc, issued: nat, attemptsMade: nat, plan: Plan, now: nat,
                                     startTime: nat, k: nat)
    requires ClaimMatches(d, issued, env.staleMs)
    requires !plan.faults.claim && !plan.faults.load && !plan.faults.settle
    requires Faithful(env, plan.outcomes)
    requires k < |plan.outcomes| && GoodUntil(plan.outcomes, k) && plan.outcomes[k].Raised?
    ensures var ending := Processed(env, d, issued, attemptsMade, plan, now, startTime);
            var final := IsNonRetryableError(plan.outcomes[k].error);
            && ending.returned == final
            && ending.tally == Caught(if final then NonRetryable else Retryable)
            && ending.doc == d.(status := if !final && attemptsMade + 1 < env.attempts then QUEUED else FAILED,
                                startedAt := Some(plan.started),
                                execStartedAt := Some(plan.stamp))
  {
    RaisingTestAborts(plan.outcomes, k);
  }

  /** A delivery that claims the submission, and whose tests and database operations
      all answer, completes it with the verdict of the sequential judge. */
  lemma UndisturbedDeliveryCompletes(env: Env, d: Doc, issued: nat, attemptsMade: nat, plan: Plan, now: nat,
                                     startTime: nat)
    requires ClaimMatches(d, issued, env.staleMs)
    requires plan.faults == Faults(false, false, false, false, false, false)
    requires Faithful(env, plan.outcomes) && plan.outcomes != []
    requires forall i :: 0 <= i < |plan.outcomes| ==> plan.outcomes[i].Returned?
    ensures var ending := Processed(env, d, issued, attemptsMade, plan, now, startTime);
            && ending.returned
            && ending.doc.status == COMPLETED
            && ending.doc.verdict == FinalVerdict(env.verdicts)
            && ending.doc.testsPassed == Some(FinalPassed(env.verdicts))
            && ending.doc.totalTests == Some(|env.verdicts|)
            && ending.doc.execStartedAt == Some(plan.stamp)
            && ending.tally.Completed?
            && (ending.tally.returned == None <==> FinalVerdict(env.verdicts) == CompilationError)
  {
    JudgementIsRight(env, plan.outcomes);
  }
}
