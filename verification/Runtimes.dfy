/** Which runtime a submission stores, over whole runs. */
module Runtimes {
  import opened Prelude
  import opened Judge
  import opened Protocol
  import opened Safety

  /** The milliseconds that the tests of attempt `id` have taken in a run. */
  function TotalOf(steps: seq<Step>, id: nat): nat {
    if steps == [] then 0
    else
      var last := steps[|steps| - 1];
      TotalOf(steps[..|steps| - 1], id)
      + if last.RunTest? && last.id == id && last.outcome.Answers? then last.outcome.runtimeMs else 0
  }

  /** What attempt `id` has to store: nothing for a compilation error, and else all its
      tests together. */
  function RuntimeOf(env: Env, steps: seq<Step>, id: nat): Option<nat> {
    if FinalVerdict(env.verdicts) == CompilationError then None else Some(TotalOf(steps, id))
  }

  lemma TotalSnoc(steps: seq<Step>, s: Step, id: nat)
    ensures TotalOf(steps + [s], id)
            == TotalOf(steps, id)
               + if s.RunTest? && s.id == id && s.outcome.Answers? then s.outcome.runtimeMs else 0
  {
    assert (steps + [s])[..|steps|] == steps;
  }

  /** Has yet to run a test. */
  predicate BeforeTests(a: Attempt) {
    a.pc.Delivered? || a.pc.Claimed? || a.pc.Marking?
  }

  /** Will not run another test. */
  predicate AfterTests(a: Attempt) {
    !BeforeTests(a) && !a.pc.Testing?
  }

  /** The attempt has added up its runtimes. */
  predicate TimedOk(env: Env, past: seq<Step>, id: nat, a: Attempt) {
    && (BeforeTests(a) ==> TotalOf(past, id) == 0)
    && (a.pc.Testing? ==> a.progress.totalRuntimeMs == TotalOf(past, id))
    && (a.pc.Finishing? ==> a.pc.record.runtimeMs == RuntimeOf(env, past, id))
  }

  ghost predicate AttemptsTimed(env: Env, past: seq<Step>, w: World) {
    && (forall id :: id in w.attempts ==> TimedOk(env, past, id, w.attempts[id]))
    && (forall id :: id !in w.attempts ==> TotalOf(past, id) == 0)
  }

  /** The stored runtime is that of one attempt, which has saved a result. */
  predicate ComesFrom(env: Env, past: seq<Step>, w: World, id: nat) {
    && id in w.attempts && AfterTests(w.attempts[id]) && Finish(id) in past
    && w.doc.runtimeMs == RuntimeOf(env, past, id)
  }

  ghost predicate Inv(env: Env, past: seq<Step>, w: World) {
    && ResultsOk(env, w) && AttemptsTimed(env, past, w)
    && (HasResult(env, w.doc) ==> exists id :: ComesFrom(env, past, w, id))
  }

  /** The record that a turn leaves behind has the runtimes of all turns. */
  lemma RecordHasTotal(vs: seq<Verdict>, p: Progress, ms: nat, record: Record)
    requires p.i < |vs| && TakeTurn(p, |vs|, ResultOf(vs[p.i], ms)) == Leave(record) && RightRecord(record, vs)
    ensures record.runtimeMs == if FinalVerdict(vs) == CompilationError then None else Some(p.totalRuntimeMs + ms)
  {
    TurnAddsRuntime(p, |vs|, ResultOf(vs[p.i], ms));
  }

  lemma TestKeepsTime(env: Env, past: seq<Step>, w: World, s: Step)
    requires AttemptsOk(env, w) && Enabled(env, w, s) && s.RunTest? && TimedOk(env, past, s.id, w.attempts[s.id])
    ensures s.id in Next(env, w, s).attempts
    ensures TimedOk(env, past + [s], s.id, Next(env, w, s).attempts[s.id])
  {
    TotalSnoc(past, s, s.id);
    assert AttemptOk(env, w.attempts[s.id]);
    StepKeepsAttempt(env, w, s);
    if s.outcome.Answers? {
      var p := w.attempts[s.id].progress;
      TurnAddsRuntime(p, |env.verdicts|, ResultOf(env.verdicts[p.i], s.outcome.runtimeMs));
    }
    var a := Next(env, w, s).attempts[s.id];
    if a.pc.Finishing? {
      RecordHasTotal(env.verdicts, w.attempts[s.id].progress, s.outcome.runtimeMs, a.pc.record);
    }
  }

  lemma OtherStepKeepsTime(env: Env, past: seq<Step>, w: World, s: Step)
    requires Enabled(env, w, s) && IsAttemptStep(s) && !s.RunTest?
    requires AttemptOk(env, w.attempts[s.id]) && TimedOk(env, past, s.id, w.attempts[s.id])
    ensures s.id in Next(env, w, s).attempts
    ensures TimedOk(env, past + [s], s.id, Next(env, w, s).attempts[s.id])
  {
    TotalSnoc(past, s, s.id);
  }

  lemma StepKeepsTimes(env: Env, past: seq<Step>, w: World, s: Step)
    requires AttemptsOk(env, w) && AttemptsTimed(env, past, w) && Enabled(env, w, s)
    ensures AttemptsTimed(env, past + [s], Next(env, w, s))
  {
    var w' := Next(env, w, s);
    if IsAttemptStep(s) {
      AttemptStepShape(env, w, s);
      if s.RunTest? {
        TestKeepsTime(env, past, w, s);
      } else {
        OtherStepKeepsTime(env, past, w, s);
      }
    }
    forall id | id in w'.attempts && (IsAttemptStep(s) ==> id != s.id)
      ensures TimedOk(env, past + [s], id, w'.attempts[id])
    {
      TotalSnoc(past, s, id);
    }
    forall id | id !in w'.attempts ensures TotalOf(past + [s], id) == 0 {
      TotalSnoc(past, s, id);
    }
  }

  /** What `Finish` stores, when fields that were not edited are not written. */
  lemma FinishStep(env: Env, past: seq<Step>, w: World, id: nat)
    requires ResultsOk(env, w) && AttemptsTimed(env, past, w) && Enabled(env, w, Finish(id))
    ensures var total := RuntimeOf(env, past, id);
            var stored := Next(env, w, Finish(id)).doc.runtimeMs;
            && stored == (if w.attempts[id].loaded.runtimeMs == total then w.doc.runtimeMs else total)
            && (Fresh(w.doc) ==> stored == total)
  {
    assert TimedOk(env, past, id, w.attempts[id]);
    assert SnapshotOk(env, w.doc, w.attempts[id]) && AttemptOk(env, w.attempts[id]);
  }

  lemma OtherStepKeepsRuntime(env: Env, w: World, s: Step)
    requires ResultsOk(env, w) && Enabled(env, w, s) && !s.Finish?
    ensures Next(env, w, s).doc.runtimeMs == w.doc.runtimeMs
    ensures HasResult(env, Next(env, w, s).doc) ==> HasResult(env, w.doc)
  {
    if IsLocalStep(s) {
      LocalStepShape(env, w, s);
    } else if IsSettlement(s) {
      SettlementShape(env, w, s);
    }
  }

  lemma StillComesFrom(env: Env, past: seq<Step>, w: World, s: Step, id: nat)
    requires Enabled(env, w, s) && ComesFrom(env, past, w, id)
    requires Next(env, w, s).doc.runtimeMs == w.doc.runtimeMs
    ensures ComesFrom(env, past + [s], Next(env, w, s), id)
  {
    TotalSnoc(past, s, id);
    if IsAttemptStep(s) {
      AttemptStepShape(env, w, s);
    }
  }

  lemma FinishKeepsOrigin(env: Env, past: seq<Step>, w: World, s: Step)
    requires Inv(env, past, w) && Enabled(env, w, s) && s.Finish?
    ensures exists id :: ComesFrom(env, past + [s], Next(env, w, s), id)
  {
    var w' := Next(env, w, s);
    FinishStep(env, past, w, s.id);
    if w'.doc.runtimeMs == RuntimeOf(env, past, s.id) {
      TotalSnoc(past, s, s.id);
      assert ComesFrom(env, past + [s], w', s.id);
    } else {
      var id :| ComesFrom(env, past, w, id);
      StillComesFrom(env, past, w, s, id);
    }
  }

  lemma StepKeepsInv(env: Env, past: seq<Step>, w: World, s: Step)
    requires Inv(env, past, w) && Enabled(env, w, s)
    ensures Inv(env, past + [s], Next(env, w, s))
  {
    StepKeepsResults(env, w, s);
    StepKeepsTimes(env, past, w, s);
    if s.Finish? {
      FinishKeepsOrigin(env, past, w, s);
    } else {
      OtherStepKeepsRuntime(env, w, s);
      if HasResult(env, w.doc) {
        var id :| ComesFrom(env, past, w, id);
        StillComesFrom(env, past, w, s, id);
      }
    }
  }

  lemma {:induction false} RunKeepsInv(regime: Regime, env: Env, past: seq<Step>, w: World, steps: seq<Step>)
    requires Inv(env, past, w) && Run(regime, env, w, steps)
    ensures Inv(env, past + steps, After(regime, env, w, steps))
    decreases |steps|
  {
    if steps == [] {
      assert past + steps == past;
    } else {
      StepKeepsInv(env, past, w, steps[0]);
      RunKeepsInv(regime, env, past + [steps[0]], Next(env, w, steps[0]), steps[1..]);
      assert past + [steps[0]] + steps[1..] == past + steps;
    }
  }

  lemma ReachInv(regime: Regime, env: Env, steps: seq<Step>)
    requires Run(regime, env, Init(), steps)
    ensures Inv(env, steps, After(regime, env, Init(), steps))
  {
    assert Inv(env, [], Init());
    RunKeepsInv(regime, env, [], Init(), steps);
    assert [] + steps == steps;
  }

  /** In every run a submission with a verdict stores the runtime of one attempt that has
      saved its result: the sum over all the tests that this attempt has run, and nothing
      of any other attempt. */
  lemma StoredRuntimeIsOneAttempts(regime: Regime, env: Env, steps: seq<Step>)
    requires Run(regime, env, Init(), steps)
    requires After(regime, env, Init(), steps).doc.verdict != Verdict.Pending
    ensures var w := After(regime, env, Init(), steps);
            exists id ::
              && id in w.attempts && Finish(id) in steps
              && w.doc.runtimeMs == if w.doc.verdict == CompilationError then None else Some(TotalOf(steps, id))
  {
    ReachInv(regime, env, steps);
    var w := After(regime, env, Init(), steps);
    var id :| ComesFrom(env, steps, w, id);
    assert id in w.attempts && Finish(id) in steps;
  }

  /** The final save stores the total that the attempt has accumulated, if and only if that
      differs from what it had loaded or is stored anyway; so it does in every timely run. */
  lemma FinishStoresTheTotal(regime: Regime, env: Env, steps: seq<Step>, id: nat)
    requires Run(regime, env, Init(), steps)
    requires Admits(regime, env, After(regime, env, Init(), steps), Finish(id))
    ensures var w := After(regime, env, Init(), steps);
            var d := Next(env, w, Finish(id)).doc;
            var total := if d.verdict == CompilationError then None else Some(TotalOf(steps, id));
            && d.status == COMPLETED
            && (d.runtimeMs == total <==> w.attempts[id].loaded.runtimeMs != total || w.doc.runtimeMs == total)
            && (regime.Timely? ==> d.runtimeMs == total)
  {
    ReachInv(regime, env, steps);
    var w := After(regime, env, Init(), steps);
    FinishStep(env, steps, w, id);
    StepKeepsResults(env, w, Finish(id));
    assert SnapshotOk(env, w.doc, w.attempts[id]) && AttemptOk(env, w.attempts[id]);
    SavedResult(env, w.doc, w.attempts[id].loaded, w.attempts[id].pc.record);
    if regime.Timely? {
      InitInv(env);
      Safety.RunKeepsInv(env, Init(), steps);
      assert HolderOk(env, w.doc, w.attempts[id]);
    }
  }
}
