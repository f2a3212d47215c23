/** What every step of the protocol keeps, and what follows for whole timely runs. */
module Safety {
  import opened Prelude
  import opened Executor
  import opened Judge
  import opened Protocol

  // ----- Kept by every step of every run -----

  predicate ApiOk(w: World) {
    && (w.api.Created? ==> w.doc.status == PENDING)
    && (w.doc.status == PENDING ==> w.api.Created? || w.api.Closed?)
    && (w.api.Persisted? || w.api.Rejected? ==> w.doc.status == QUEUED)
    && (w.job.state.Absent? <==> !w.api.Enqueued?)
    && (w.job.state.Absent? ==> w.attempts == map[] && w.claims == [])
  }

  predicate AttemptTimesOk(w: World, a: Attempt) {
    && w.queuedAt <= a.issued <= a.stamp <= w.clock
    && (Executing(a) ==> w.claims != [])
    && (a.pc.Marking? ==> a.loaded.startedAt.Some?)
  }

  /** The document carries the stamps of the last claim. */
  predicate StampsOk(w: World) {
    if w.claims == [] then
      w.doc.startedAt == None && w.doc.execStartedAt == None && w.doc.status != RUNNING
    else
      var last := w.claims[|w.claims| - 1];
      && last.started <= last.stamp
      && last.id in w.attempts
      && last.stamp == w.attempts[last.id].stamp
      && w.doc.startedAt == Some(last.started)
      && w.doc.execStartedAt == Some(last.stamp)
  }

  predicate LeaseOk(w: World) {
    && w.queuedAt <= w.clock
    && (forall id :: id in w.attempts ==> AttemptTimesOk(w, w.attempts[id]))
    && StampsOk(w)
  }

  predicate Basics(w: World) {
    ApiOk(w) && LeaseOk(w)
  }

  lemma InitBasics()
    ensures Basics(Init())
  {
  }

  lemma MarkingHasStart(w: World, id: nat)
    requires LeaseOk(w) && id in w.attempts
    ensures w.attempts[id].pc.Marking? ==> w.attempts[id].loaded.startedAt.Some?
  {
    assert AttemptTimesOk(w, w.attempts[id]);
  }

  lemma AttemptStepKeepsApi(env: Env, w: World, s: Step)
    requires Basics(w) && Enabled(env, w, s) && IsAttemptStep(s)
    ensures ApiOk(Next(env, w, s))
  {
    AttemptStepShape(env, w, s);
    if IsLocalStep(s) {
      LocalStepShape(env, w, s);
    } else if IsSettlement(s) {
      SettlementShape(env, w, s);
    }
  }

  lemma ClaimKeepsLease(env: Env, w: World, s: Step)
    requires Basics(w) && Enabled(env, w, s) && s.TryClaim?
    ensures LeaseOk(Next(env, w, s))
  {
    ClaimShape(env, w, s);
    assert AttemptTimesOk(w, w.attempts[s.id]);
  }

  /** Enough for the lease, when an attempt moves without claiming. */
  lemma MoveKeepsLease(w: World, w': World, id: nat)
    requires LeaseOk(w) && MovesUnclaimed(w, w', id)
    requires w'.doc.status == RUNNING ==> w.claims != []
    requires w'.attempts[id].pc.Marking? ==> w'.attempts[id].loaded.startedAt.Some?
    ensures LeaseOk(w')
  {
    forall other | other in w'.attempts ensures AttemptTimesOk(w', w'.attempts[other]) {
      assert AttemptTimesOk(w, w.attempts[other]);
    }
  }

  lemma LocalStepKeepsLease(env: Env, w: World, s: Step)
    requires Basics(w) && Enabled(env, w, s) && IsLocalStep(s)
    ensures LeaseOk(Next(env, w, s))
  {
    LocalStepShape(env, w, s);
    MarkingHasStart(w, s.id);
    assert AttemptTimesOk(w, w.attempts[s.id]);
    MoveKeepsLease(w, Next(env, w, s), s.id);
  }

  lemma UnownedWriteKeepsLease(env: Env, w: World, s: Step)
    requires Basics(w) && Enabled(env, w, s) && IsUnownedWrite(s)
    ensures LeaseOk(Next(env, w, s))
  {
    MarkingHasStart(w, s.id);
    assert AttemptTimesOk(w, w.attempts[s.id]);
    if IsSettlement(s) {
      SettlementShape(env, w, s);
    } else {
      SaveShape(env, w, s);
    }
    MoveKeepsLease(w, Next(env, w, s), s.id);
  }

  lemma StepKeepsBasics(env: Env, w: World, s: Step)
    requires Basics(w) && Enabled(env, w, s)
    ensures Basics(Next(env, w, s))
  {
    if IsAttemptStep(s) {
      AttemptStepKeepsApi(env, w, s);
    }
    if s.TryClaim? {
      ClaimKeepsLease(env, w, s);
    } else if IsLocalStep(s) {
      LocalStepKeepsLease(env, w, s);
    } else if IsUnownedWrite(s) {
      UnownedWriteKeepsLease(env, w, s);
    }
  }

  lemma {:induction false} RunKeepsBasics(regime: Regime, env: Env, w: World, steps: seq<Step>)
    requires Basics(w) && Run(regime, env, w, steps)
    ensures Basics(After(regime, env, w, steps))
    decreases |steps|
  {
    if steps == [] {
    } else {
      StepKeepsBasics(env, w, steps[0]);
      RunKeepsBasics(regime, env, Next(env, w, steps[0]), steps[1..]);
    }
  }

  /** In every run both stamps of the document are those of the last claim, so the claim
      filter never falls back to `startedAt`. */
  lemma StampsAreTheLastClaims(regime: Regime, env: Env, steps: seq<Step>)
    requires Run(regime, env, Init(), steps)
    ensures var w := After(regime, env, Init(), steps);
            && (w.claims == [] ==> w.doc.startedAt == None && w.doc.execStartedAt == None)
            && (w.claims != [] ==>
                  var last := w.claims[|w.claims| - 1];
                  && last.started <= last.stamp
                  && w.doc.startedAt == Some(last.started)
                  && w.doc.execStartedAt == Some(last.stamp))
            && (w.doc.status == RUNNING ==> w.doc.execStartedAt.Some?)
  {
    InitBasics();
    RunKeepsBasics(regime, env, Init(), steps);
  }

  // ----- Results: right in every run, late workers included -----

  predicate Fresh(d: Doc) {
    d.verdict == Verdict.Pending && d.testsPassed == None && d.totalTests == None && d.runtimeMs == None
  }

  /** The document stores what the judge says of the tests. */
  predicate HasResult(env: Env, d: Doc) {
    && env.verdicts != []
    && d.verdict == FinalVerdict(env.verdicts)
    && d.testsPassed == Some(FinalPassed(env.verdicts))
    && d.totalTests == Some(|env.verdicts|)
    && (d.runtimeMs == None <==> d.verdict == CompilationError)
  }

  /** An attempt's own variables follow the judge, whatever happens elsewhere. */
  predicate AttemptOk(env: Env, a: Attempt) {
    && (a.pc.Marking? ==> env.verdicts != [] && a.progress == Start())
    && (a.pc.Testing? ==> OnTrack(a.progress, env.verdicts))
    && (a.pc.Finishing? ==> env.verdicts != [] && RightRecord(a.pc.record, env.verdicts))
    && (a.pc.Failing? && a.pc.saved ==> a.pc.fault == Retryable)
  }

  predicate AttemptsOk(env: Env, w: World) {
    forall id :: id in w.attempts ==> AttemptOk(env, w.attempts[id])
  }

  lemma StepKeepsAttempt(env: Env, w: World, s: Step)
    requires Enabled(env, w, s) && IsAttemptStep(s) && s.id in w.attempts && AttemptOk(env, w.attempts[s.id])
    ensures s.id in Next(env, w, s).attempts && AttemptOk(env, Next(env, w, s).attempts[s.id])
  {
    if s.RunTest? && s.outcome.Answers? {
      var p := w.attempts[s.id].progress;
      TurnFollowsSpec(p, env.verdicts, ResultOf(env.verdicts[p.i], s.outcome.runtimeMs));
    } else if env.verdicts != [] {
      StartsOnTrack(env.verdicts);
    }
  }

  lemma StepKeepsAttempts(env: Env, w: World, s: Step)
    requires AttemptsOk(env, w) && Enabled(env, w, s)
    ensures AttemptsOk(env, Next(env, w, s))
  {
    if IsAttemptStep(s) {
      AttemptStepShape(env, w, s);
      StepKeepsAttempt(env, w, s);
    }
  }

  /** A snapshot is either untouched, or taken from a document that had its result
      and still has it. */
  predicate SnapshotOk(env: Env, d: Doc, a: Attempt) {
    && (a.pc.Marking? || a.pc.Testing? || a.pc.Finishing? ==>
          Fresh(a.loaded) || (HasResult(env, a.loaded) && HasResult(env, d)))
    && (a.pc.Testing? || a.pc.Finishing? ==> a.loaded.status == RUNNING)
    && (a.pc.Marking? ==> a.loaded.status != RUNNING)
  }

  predicate ResultsOk(env: Env, w: World) {
    && (Fresh(w.doc) || HasResult(env, w.doc))
    && (w.doc.status == COMPLETED ==> HasResult(env, w.doc))
    && AttemptsOk(env, w)
    && (forall id :: id in w.attempts ==> SnapshotOk(env, w.doc, w.attempts[id]))
  }

  lemma SavedResult(env: Env, d: Doc, loaded: Doc, r: Record)
    requires Fresh(d) || HasResult(env, d)
    requires Fresh(loaded) || (HasResult(env, loaded) && HasResult(env, d))
    requires env.verdicts != [] && RightRecord(r, env.verdicts)
    ensures HasResult(env, Save(d, loaded, Finished(loaded, r)))
  {
    RightRecordIsConsistent(r, env.verdicts);
  }

  /** How one step may change the document's result. */
  lemma StepKeepsDocResult(env: Env, w: World, s: Step)
    requires ResultsOk(env, w) && Enabled(env, w, s)
    ensures var d := Next(env, w, s).doc;
            && (Fresh(d) || HasResult(env, d))
            && (d.status == COMPLETED ==> HasResult(env, d))
            && (HasResult(env, w.doc) ==> HasResult(env, d))
  {
    if s.Finish? {
      SavedResult(env, w.doc, w.attempts[s.id].loaded, w.attempts[s.id].pc.record);
    } else if IsLocalStep(s) {
      LocalStepShape(env, w, s);
    } else if IsSettlement(s) {
      SettlementShape(env, w, s);
    }
  }

  lemma StepKeepsSnapshots(env: Env, w: World, s: Step)
    requires ResultsOk(env, w) && Enabled(env, w, s)
    requires HasResult(env, w.doc) ==> HasResult(env, Next(env, w, s).doc)
    ensures forall id :: id in Next(env, w, s).attempts ==>
      SnapshotOk(env, Next(env, w, s).doc, Next(env, w, s).attempts[id])
  {
    var w' := Next(env, w, s);
    if IsAttemptStep(s) {
      AttemptStepShape(env, w, s);
      assert SnapshotOk(env, w.doc, w.attempts[s.id]);
      StepKeepsSnapshot(env, w, s);
    }
    forall id | id in w'.attempts && (IsAttemptStep(s) ==> id != s.id)
      ensures SnapshotOk(env, w'.doc, w'.attempts[id])
    {
      if id in w.attempts {
        assert SnapshotOk(env, w.doc, w.attempts[id]);
      }
    }
  }

  lemma StepKeepsSnapshot(env: Env, w: World, s: Step)
    requires Enabled(env, w, s) && IsAttemptStep(s) && s.id in w.attempts
    requires SnapshotOk(env, w.doc, w.attempts[s.id]) && (Fresh(w.doc) || HasResult(env, w.doc))
    requires HasResult(env, w.doc) ==> HasResult(env, Next(env, w, s).doc)
    ensures s.id in Next(env, w, s).attempts
    ensures SnapshotOk(env, Next(env, w, s).doc, Next(env, w, s).attempts[s.id])
  {
    if IsLocalStep(s) {
      LocalStepShape(env, w, s);
    }
  }

  /** One step of any run keeps results right, and keeps a result once it is there. */
  lemma StepKeepsResults(env: Env, w: World, s: Step)
    requires ResultsOk(env, w) && Enabled(env, w, s)
    ensures ResultsOk(env, Next(env, w, s))
    ensures HasResult(env, w.doc) ==> HasResult(env, Next(env, w, s).doc)
  {
    StepKeepsAttempts(env, w, s);
    StepKeepsDocResult(env, w, s);
    StepKeepsSnapshots(env, w, s);
  }

  lemma {:induction false} RunKeepsResults(regime: Regime, env: Env, w: World, steps: seq<Step>)
    requires ResultsOk(env, w) && Run(regime, env, w, steps)
    ensures ResultsOk(env, After(regime, env, w, steps))
    ensures HasResult(env, w.doc) ==> HasResult(env, After(regime, env, w, steps).doc)
    decreases |steps|
  {
    if steps == [] {
    } else {
      StepKeepsResults(env, w, steps[0]);
      RunKeepsResults(regime, env, Next(env, w, steps[0]), steps[1..]);
    }
  }

  /** In every run, with any crashes, duplicate deliveries, retries and late workers, a
      submission that is COMPLETED, or shows any verdict at all, stores the verdict and
      counts of the sequential judge. */
  lemma CompletedMeansJudged(regime: Regime, env: Env, steps: seq<Step>)
    requires Run(regime, env, Init(), steps)
    requires var d := After(regime, env, Init(), steps).doc; d.status == COMPLETED || d.verdict != Verdict.Pending
    ensures var d := After(regime, env, Init(), steps).doc;
            && d.verdict == FinalVerdict(env.verdicts)
            && d.testsPassed == Some(FinalPassed(env.verdicts))
            && d.totalTests == Some(|env.verdicts|)
            && (d.runtimeMs == None <==> d.verdict == CompilationError)
            && d.totalTests.value > 0 && d.testsPassed.value <= d.totalTests.value
            && (d.verdict == Accepted <==> d.testsPassed == d.totalTests)
            && d.verdict != Verdict.Pending && InSchema(d.verdict)
    ensures var d, vs := After(regime, env, Init(), steps).doc, env.verdicts;
            && (forall k: nat :: StopsAt(vs, k) ==>
                  && d.verdict == (if vs[k] == OutputLimitExceeded then RuntimeError else vs[k])
                  && d.testsPassed == Some(multiset(vs[..k])[Accepted]))
            && (NeverStops(vs) ==>
                  && d.verdict == (if forall v :: v in vs ==> v == Accepted then Accepted else WrongAnswer)
                  && d.testsPassed == Some(multiset(vs)[Accepted]))
  {
    RunKeepsResults(regime, env, Init(), steps);
    ResultIsConsistent(env, After(regime, env, Init(), steps).doc);
    FinalVerdictMeans(env.verdicts);
  }

  lemma ResultIsConsistent(env: Env, d: Doc)
    requires HasResult(env, d)
    ensures d.totalTests.value > 0 && d.testsPassed.value <= d.totalTests.value
    ensures d.verdict == Accepted <==> d.testsPassed == d.totalTests
    ensures d.verdict == Accepted <==> AllAccepted(env.verdicts)
    ensures d.verdict != Verdict.Pending && InSchema(d.verdict)
  {
    var runtime := if d.verdict == CompilationError then None else Some(0);
    RightRecordIsConsistent(Record(d.verdict, d.testsPassed.value, d.totalTests.value, runtime), env.verdicts);
  }

  /** In every run the verdict leaves PENDING at most once: later steps keep verdict
      and counts, whatever they do to the status. */
  lemma VerdictIsFinal(regime: Regime, env: Env, steps: seq<Step>, more: seq<Step>)
    requires Run(regime, env, Init(), steps)
    requires Run(regime, env, After(regime, env, Init(), steps), more)
    ensures var d := After(regime, env, Init(), steps).doc;
            var e := After(regime, env, After(regime, env, Init(), steps), more).doc;
            d.verdict != Verdict.Pending ==>
              e.verdict == d.verdict && e.testsPassed == d.testsPassed && e.totalTests == d.totalTests
  {
    RunKeepsResults(regime, env, Init(), steps);
    RunKeepsResults(regime, env, After(regime, env, Init(), steps), more);
  }

  // ----- Kept by every step of a timely run -----

  /** A failed stamp has turned a COMPLETED submission into a FAILED one. */
  predicate Lost(d: Doc) {
    d.status == FAILED && d.verdict != Verdict.Pending
  }

  predicate DocOk(env: Env, d: Doc) {
    if d.status == COMPLETED || Lost(d) then HasResult(env, d) else Fresh(d)
  }

  /** What the document looks like while an attempt in its lease is at work. */
  predicate HolderOk(env: Env, d: Doc, a: Attempt) {
    var untouched := d.status == RUNNING && Fresh(d);
    match a.pc
    case Claimed => untouched
    case Testing => untouched && a.loaded.status == RUNNING && Fresh(a.loaded)
    case Finishing(_) => untouched && a.loaded.status == RUNNING && Fresh(a.loaded)
    case Saved => d.status == COMPLETED
    case Failing(_, saved) => if saved then d.status == COMPLETED else untouched
    case _ => false
  }

  /** Only the last claimant can be at work within its lease. */
  predicate HoldersOk(env: Env, w: World) {
    forall id :: id in w.attempts && Executing(w.attempts[id]) && InLease(env, w, w.attempts[id]) ==>
      Holds(w, id) && HolderOk(env, w.doc, w.attempts[id])
  }

  predicate Inv(env: Env, w: World) {
    Basics(w) && DocOk(env, w.doc) && AttemptsOk(env, w) && HoldersOk(env, w)
  }

  lemma InitInv(env: Env)
    ensures Inv(env, Init())
  {
  }

  /** A claim only succeeds when nobody else is at work within a lease. */
  lemma ClaimKeepsHolders(env: Env, w: World, s: Step)
    requires Inv(env, w) && Enabled(env, w, s) && s.TryClaim?
    ensures HoldersOk(env, Next(env, w, s)) && DocOk(env, Next(env, w, s).doc)
  {
    var a := w.attempts[s.id];
    assert AttemptTimesOk(w, a);
    if ClaimMatches(w.doc, a.issued, env.staleMs) {
      forall other | other in w.attempts && other != s.id && Executing(w.attempts[other])
        ensures !InLease(env, w, w.attempts[other])
      {
        assert InLease(env, w, w.attempts[other]) ==> HolderOk(env, w.doc, w.attempts[other]);
      }
    }
  }

  /** While one attempt is at work in its lease, the leases of all others are over. */
  lemma OthersAreLate(env: Env, w: World, id: nat)
    requires HoldersOk(env, w) && id in w.attempts && Executing(w.attempts[id]) && InLease(env, w, w.attempts[id])
    ensures Holds(w, id) && HolderOk(env, w.doc, w.attempts[id])
    ensures forall other :: other in w.attempts && other != id && Executing(w.attempts[other]) ==>
      !InLease(env, w, w.attempts[other])
  {
  }

  lemma UnownedWriteKeepsDoc(env: Env, w: World, s: Step)
    requires Inv(env, w) && Admits(Timely, env, w, s) && IsUnownedWrite(s)
    requires HolderOk(env, w.doc, w.attempts[s.id])
    ensures DocOk(env, Next(env, w, s).doc) && !s.MarkRunning?
    ensures s.id in Next(env, w, s).attempts
    ensures var a := Next(env, w, s).attempts[s.id];
            Executing(a) ==> HolderOk(env, Next(env, w, s).doc, a)
  {
    assert AttemptOk(env, w.attempts[s.id]);
    if IsSettlement(s) {
      SettlementShape(env, w, s);
    }
  }

  lemma UnownedWriteKeepsHolders(env: Env, w: World, s: Step)
    requires Inv(env, w) && Admits(Timely, env, w, s) && IsUnownedWrite(s)
    ensures HoldersOk(env, Next(env, w, s)) && DocOk(env, Next(env, w, s).doc)
  {
    MarkingHasStart(w, s.id);
    if IsSettlement(s) {
      SettlementShape(env, w, s);
    } else {
      SaveShape(env, w, s);
    }
    OthersAreLate(env, w, s.id);
    UnownedWriteKeepsDoc(env, w, s);
  }

  lemma LocalStepKeepsHolders(env: Env, w: World, s: Step)
    requires Inv(env, w) && Enabled(env, w, s) && IsLocalStep(s)
    ensures HoldersOk(env, Next(env, w, s)) && DocOk(env, Next(env, w, s).doc)
  {
    LocalStepShape(env, w, s);
    var w' := Next(env, w, s);
    if Executing(w'.attempts[s.id]) && InLease(env, w, w.attempts[s.id]) {
      assert HolderOk(env, w.doc, w.attempts[s.id]);
      assert HolderOk(env, w'.doc, w'.attempts[s.id]);
    }
  }

  lemma TickKeepsHolders(env: Env, w: World, ms: nat)
    requires HoldersOk(env, w)
    ensures HoldersOk(env, Next(env, w, Tick(ms)))
  {
    var w' := Next(env, w, Tick(ms));
    forall id | id in w.attempts && InLease(env, w', w.attempts[id]) ensures InLease(env, w, w.attempts[id]) {
    }
  }

  lemma DispatchKeepsHolders(env: Env, w: World, s: Step)
    requires HoldersOk(env, w) && Enabled(env, w, s) && IsDispatch(s)
    ensures HoldersOk(env, Next(env, w, s))
  {
    var w' := Next(env, w, s);
    forall id | id in w'.attempts && Executing(w'.attempts[id])
      ensures id in w.attempts && w'.attempts[id] == w.attempts[id] {
    }
  }

  lemma DistantStepKeepsHolders(env: Env, w: World, s: Step)
    requires Inv(env, w) && Enabled(env, w, s) && !IsAttemptStep(s)
    ensures HoldersOk(env, Next(env, w, s)) && DocOk(env, Next(env, w, s).doc)
  {
    if s.Tick? {
      TickKeepsHolders(env, w, s.ms);
    } else if IsDispatch(s) {
      DispatchKeepsHolders(env, w, s);
    } else {
      assert Next(env, w, s).attempts == map[];
    }
  }

  lemma StepKeepsInv(env: Env, w: World, s: Step)
    requires Inv(env, w) && Admits(Timely, env, w, s)
    ensures Inv(env, Next(env, w, s))
  {
    StepKeepsBasics(env, w, s);
    StepKeepsAttempts(env, w, s);
    if s.TryClaim? {
      ClaimKeepsHolders(env, w, s);
    } else if IsUnownedWrite(s) {
      UnownedWriteKeepsHolders(env, w, s);
    } else if IsLocalStep(s) {
      LocalStepKeepsHolders(env, w, s);
    } else {
      DistantStepKeepsHolders(env, w, s);
    }
  }

  lemma {:induction false} RunKeepsInv(env: Env, w: World, steps: seq<Step>)
    requires Inv(env, w) && Run(Timely, env, w, steps)
    ensures Inv(env, After(Timely, env, w, steps))
    decreases |steps|
  {
    if steps == [] {
    } else {
      StepKeepsInv(env, w, steps[0]);
      RunKeepsInv(env, Next(env, w, steps[0]), steps[1..]);
    }
  }

  /** In every run, how a terminal status can be left: by a late mark of RUNNING, by a
      result saved over a failure, or by a failure recorded over a result. Nothing else
      does it, and each of these always does. */
  predicate LeavesTerminal(env: Env, w: World, s: Step) {
    && Enabled(env, w, s)
    && (|| s.MarkRunning?
        || (s.Finish? && w.doc.status == FAILED)
        || (IsSettlement(s) && w.doc.status == COMPLETED && GivesUp(env, w.attempts[s.id])))
  }

  lemma TerminalStatusLeftIff(regime: Regime, env: Env, steps: seq<Step>, s: Step)
    requires Run(regime, env, Init(), steps)
    requires Enabled(env, After(regime, env, Init(), steps), s)
    requires Terminal(After(regime, env, Init(), steps).doc)
    ensures var w := After(regime, env, Init(), steps);
            Next(env, w, s).doc.status != w.doc.status <==> LeavesTerminal(env, w, s)
  {
    InitBasics();
    RunKeepsBasics(regime, env, Init(), steps);
    RunKeepsResults(regime, env, Init(), steps);
    TerminalStatusStep(env, After(regime, env, Init(), steps), s);
  }

  lemma TerminalStatusStep(env: Env, w: World, s: Step)
    requires Basics(w) && ResultsOk(env, w) && Enabled(env, w, s) && Terminal(w.doc)
    ensures Next(env, w, s).doc.status != w.doc.status <==> LeavesTerminal(env, w, s)
  {
    if IsLocalStep(s) {
      LocalStepShape(env, w, s);
    } else if IsSettlement(s) {
      SettlementShape(env, w, s);
    } else if s.MarkRunning? || s.Finish? {
      assert SnapshotOk(env, w.doc, w.attempts[s.id]);
    }
  }

  // ----- Theorems about timely runs -----

  /** At most one attempt works on the submission within its lease, and the document
      carries its stamp. */
  lemma MutualExclusion(env: Env, steps: seq<Step>)
    requires Run(Timely, env, Init(), steps)
    ensures var w := After(Timely, env, Init(), steps);
            forall a, b ::
              && a in w.attempts && Executing(w.attempts[a]) && InLease(env, w, w.attempts[a])
              && b in w.attempts && Executing(w.attempts[b]) && InLease(env, w, w.attempts[b])
              ==> a == b && w.doc.execStartedAt == Some(w.attempts[a].stamp)
  {
    InitInv(env);
    RunKeepsInv(env, Init(), steps);
  }

  /** A stamp update that fails on the last attempt, after the result was saved. */
  predicate LosesStamp(env: Env, w: World, s: Step) {
    && IsSettlement(s) && s.id in w.attempts
    && w.attempts[s.id].pc.Failing? && w.attempts[s.id].pc.saved
    && !HasRetries(env, w.attempts[s.id])
  }

  /** In a timely run a terminal document changes at one kind of step only, and then
      only in status. */
  lemma TerminalChangesIffStampLost(env: Env, steps: seq<Step>, s: Step)
    requires Run(Timely, env, Init(), steps)
    requires Admits(Timely, env, After(Timely, env, Init(), steps), s)
    requires Terminal(After(Timely, env, Init(), steps).doc)
    ensures var w := After(Timely, env, Init(), steps);
            && (Next(env, w, s).doc != w.doc <==> LosesStamp(env, w, s))
            && (LosesStamp(env, w, s) ==> w.doc.status == COMPLETED && Next(env, w, s).doc == FailDoc(w.doc))
  {
    InitInv(env);
    RunKeepsInv(env, Init(), steps);
    TerminalStep(env, After(Timely, env, Init(), steps), s);
  }

  lemma TerminalStep(env: Env, w: World, s: Step)
    requires Inv(env, w) && Admits(Timely, env, w, s) && Terminal(w.doc)
    ensures Next(env, w, s).doc != w.doc <==> LosesStamp(env, w, s)
    ensures LosesStamp(env, w, s) ==> w.doc.status == COMPLETED && Next(env, w, s).doc == FailDoc(w.doc)
  {
    if IsUnownedWrite(s) {
      assert HolderOk(env, w.doc, w.attempts[s.id]) && AttemptOk(env, w.attempts[s.id]);
      if IsSettlement(s) {
        SettlementShape(env, w, s);
      }
    } else if IsLocalStep(s) {
      LocalStepShape(env, w, s);
    }
  }

  /** Terminal states absorb in every timely run, but for one lost stamp. */
  lemma TerminalAbsorbs(env: Env, steps: seq<Step>, more: seq<Step>)
    requires Run(Timely, env, Init(), steps)
    requires Run(Timely, env, After(Timely, env, Init(), steps), more)
    requires Terminal(After(Timely, env, Init(), steps).doc)
    ensures var w := After(Timely, env, Init(), steps);
            After(Timely, env, w, more).doc
            == if Somewhere(Timely, env, w, more, LosesStamp) then FailDoc(w.doc) else w.doc
  {
    InitInv(env);
    RunKeepsInv(env, Init(), steps);
    TerminalStays(env, After(Timely, env, Init(), steps), more);
  }

  lemma {:induction false} TerminalStays(env: Env, w: World, steps: seq<Step>)
    requires Inv(env, w) && Terminal(w.doc) && Run(Timely, env, w, steps)
    ensures After(Timely, env, w, steps).doc
            == if Somewhere(Timely, env, w, steps, LosesStamp) then FailDoc(w.doc) else w.doc
    decreases |steps|
  {
    if steps == [] {
    } else {
      TerminalStep(env, w, steps[0]);
      StepKeepsInv(env, w, steps[0]);
      TerminalStays(env, Next(env, w, steps[0]), steps[1..]);
    }
  }

  lemma TerminalStepLoses(env: Env, w: World, s: Step)
    requires Inv(env, w) && Admits(Timely, env, w, s) && Terminal(w.doc)
    ensures Lost(Next(env, w, s).doc) <==> Lost(w.doc) || LosesStamp(env, w, s)
  {
    TerminalStep(env, w, s);
    if w.doc.status == COMPLETED {
      ResultIsConsistent(env, w.doc);
    }
  }

  /** Before a submission has ended no stamp can be lost. */
  lemma EarlyStepLosesNothing(env: Env, w: World, s: Step)
    requires Inv(env, w) && Admits(Timely, env, w, s) && !Terminal(w.doc)
    ensures !Lost(Next(env, w, s).doc) && !LosesStamp(env, w, s)
  {
    if IsUnownedWrite(s) {
      assert HolderOk(env, w.doc, w.attempts[s.id]);
      if IsSettlement(s) {
        SettlementShape(env, w, s);
      }
    } else if IsLocalStep(s) {
      LocalStepShape(env, w, s);
    }
  }

  lemma StepLoses(env: Env, w: World, s: Step)
    requires Inv(env, w) && Admits(Timely, env, w, s)
    ensures Lost(Next(env, w, s).doc) <==> Lost(w.doc) || LosesStamp(env, w, s)
  {
    if Terminal(w.doc) {
      TerminalStepLoses(env, w, s);
    } else {
      EarlyStepLosesNothing(env, w, s);
    }
  }

  lemma {:induction false} RunLoses(env: Env, w: World, steps: seq<Step>)
    requires Inv(env, w) && Run(Timely, env, w, steps)
    ensures Lost(After(Timely, env, w, steps).doc) <==>
              Lost(w.doc) || Somewhere(Timely, env, w, steps, LosesStamp)
    decreases |steps|
  {
    if steps == [] {
    } else {
      StepLoses(env, w, steps[0]);
      StepKeepsInv(env, w, steps[0]);
      RunLoses(env, Next(env, w, steps[0]), steps[1..]);
    }
  }

  /** In a timely run a verdict is visible exactly on COMPLETED submissions, so the
      queries that look at the verdict alone are exact, unless a stamp was lost. */
  lemma VerdictMeansCompletedIffNoStampLost(env: Env, steps: seq<Step>)
    requires Run(Timely, env, Init(), steps)
    ensures var w := After(Timely, env, Init(), steps);
            var lost := Somewhere(Timely, env, Init(), steps, LosesStamp);
            && ((w.doc.verdict != Verdict.Pending <==> w.doc.status == COMPLETED) <==> !lost)
            && (w.doc.verdict == Accepted <==>
                  (w.doc.status == COMPLETED || lost) && AllAccepted(env.verdicts))
            && (lost ==> w.doc.status == FAILED)
            && (w.doc.status != COMPLETED && !lost ==> Fresh(w.doc))
  {
    InitInv(env);
    RunKeepsInv(env, Init(), steps);
    RunLoses(env, Init(), steps);
    var w := After(Timely, env, Init(), steps);
    if w.doc.status == COMPLETED || Lost(w.doc) {
      ResultIsConsistent(env, w.doc);
    }
  }

  // ----- What FAILED means -----

  /** The four ways to FAILED: the job could not be enqueued, an error that no retry can
      help, an error on the last attempt, and a stamp lost on the last attempt. */
  predicate Fails(env: Env, w: World, s: Step) {
    || s == SaveRejected(true)
    || LosesStamp(env, w, s)
    || (&& IsSettlement(s) && s.id in w.attempts
        && w.attempts[s.id].pc.Failing? && !w.attempts[s.id].pc.saved
        && (w.attempts[s.id].pc.fault == NonRetryable || !HasRetries(env, w.attempts[s.id])))
  }

  lemma FailsIffFailed(env: Env, w: World, s: Step)
    requires AttemptsOk(env, w) && Enabled(env, w, s)
    ensures Fails(env, w, s) ==> Next(env, w, s).doc.status == FAILED
    ensures Next(env, w, s).doc.status == FAILED && !Fails(env, w, s) ==> w.doc.status == FAILED
  {
    if IsLocalStep(s) {
      LocalStepShape(env, w, s);
    } else if IsSettlement(s) {
      SettlementShape(env, w, s);
      assert AttemptOk(env, w.attempts[s.id]);
    }
  }

  lemma {:induction false} FailedForAReason(regime: Regime, env: Env, w: World, steps: seq<Step>)
    requires AttemptsOk(env, w) && Run(regime, env, w, steps)
    requires After(regime, env, w, steps).doc.status == FAILED
    ensures w.doc.status == FAILED || Somewhere(regime, env, w, steps, Fails)
    decreases |steps|
  {
    if steps == [] {
    } else {
      FailsIffFailed(env, w, steps[0]);
      StepKeepsAttempts(env, w, steps[0]);
      FailedForAReason(regime, env, Next(env, w, steps[0]), steps[1..]);
    }
  }

  /** A timely run ends FAILED exactly when it took one of the four steps. */
  lemma {:induction false} FailuresStay(env: Env, w: World, steps: seq<Step>)
    requires Inv(env, w) && Run(Timely, env, w, steps)
    requires w.doc.status == FAILED || Somewhere(Timely, env, w, steps, Fails)
    ensures After(Timely, env, w, steps).doc.status == FAILED
    decreases |steps|
  {
    if w.doc.status == FAILED {
      TerminalStays(env, w, steps);
    } else {
      FailsIffFailed(env, w, steps[0]);
      StepKeepsInv(env, w, steps[0]);
      FailuresStay(env, Next(env, w, steps[0]), steps[1..]);
    }
  }

  /** In every run a submission is FAILED only after one of the four steps, and in a
      timely run it is so from then on. */
  lemma FailedMeansGivenUp(regime: Regime, env: Env, steps: seq<Step>)
    requires Run(regime, env, Init(), steps)
    ensures After(regime, env, Init(), steps).doc.status == FAILED ==> Somewhere(regime, env, Init(), steps, Fails)
    ensures regime == Timely ==>
              (After(regime, env, Init(), steps).doc.status == FAILED <==> Somewhere(regime, env, Init(), steps, Fails))
  {
    if After(regime, env, Init(), steps).doc.status == FAILED {
      FailedForAReason(regime, env, Init(), steps);
    } else if regime == Timely && Somewhere(regime, env, Init(), steps, Fails) {
      InitInv(env);
      FailuresStay(env, Init(), steps);
    }
  }

  // ----- Where errors come from, and where they lead -----

  /** What puts an attempt into its catch block, and with which fault. A database
      operation that fails is always retryable. */
  lemma ErrorsLeadTo(env: Env, w: World, s: Step)
    requires Enabled(env, w, s)
    ensures s.Load? && env.verdicts == [] ==> At(Next(env, w, s), s.id, Failing(NonRetryable, false))
    ensures s.RunTest? && s.outcome.Raises? ==> At(Next(env, w, s), s.id, Failing(s.outcome.fault, false))
    ensures s.Throws? ==>
              var pc := w.attempts[s.id].pc;
              At(Next(env, w, s), s.id,
                 if pc.Delivered? || pc.Failing? then Rethrown else Failing(Retryable, pc.Saved?))
  {
  }

  /** The catch block, step by step: an error that no retry can help acknowledges a FAILED
      submission; any other one rethrows, and leaves it QUEUED if it was RUNNING and the
      job has another attempt, and else FAILED. */
  lemma CatchBlockMeans(env: Env, w: World, id: nat)
    requires Enabled(env, w, Settle(id))
    ensures var a, w' := w.attempts[id], Next(env, w, Settle(id));
            var retry := a.attemptsMade + 1 < env.attempts;
            && At(w', id, if a.pc.fault == NonRetryable then Acked else Rethrown)
            && w'.doc == if a.pc.fault == Retryable && retry
                         then (if w.doc.status == RUNNING then w.doc.(status := QUEUED) else w.doc)
                         else w.doc.(status := FAILED)
  {
  }

  /** The job follows the attempt that holds it: it is completed when that returns, and
      retried, or failed after the last attempt, when that throws. */
  lemma JobFollowsAttempt(env: Env, w: World, s: Step)
    requires Enabled(env, w, s) && IsAttemptStep(s)
    ensures s.id in Next(env, w, s).attempts
    ensures var pc, j := Next(env, w, s).attempts[s.id].pc, Next(env, w, s).job;
            if w.job.state != Active(s.id) then j == w.job
            else if pc.Acked? then j == w.job.(state := JobCompleted)
            else if pc.Rethrown? then
              && j.attemptsMade == w.job.attemptsMade + 1 && j.deliveries == w.job.deliveries
              && j.state == if w.job.attemptsMade + 1 < env.attempts then Delayed else JobFailed
            else j == w.job
  {
    if IsLocalStep(s) {
      LocalStepShape(env, w, s);
    }
  }

  /** Attempt `id` may give up on its submission: there are no active tests, or one of its
      tests raised an error that no retry can help. */
  predicate Deserved(env: Env, past: seq<Step>, id: nat) {
    env.verdicts == [] || RunTest(id, Raises(NonRetryable)) in past
  }

  ghost predicate FinalFaultsDeserved(env: Env, past: seq<Step>, w: World) {
    forall id :: id in w.attempts && w.attempts[id].pc.Failing? && w.attempts[id].pc.fault == NonRetryable ==>
      Deserved(env, past, id)
  }

  lemma StepKeepsFaults(env: Env, past: seq<Step>, w: World, s: Step)
    requires FinalFaultsDeserved(env, past, w) && Enabled(env, w, s)
    ensures FinalFaultsDeserved(env, past + [s], Next(env, w, s))
  {
    if IsAttemptStep(s) {
      AttemptStepShape(env, w, s);
      ErrorsLeadTo(env, w, s);
    }
  }

  lemma {:induction false} RunKeepsFaults(regime: Regime, env: Env, past: seq<Step>, w: World, steps: seq<Step>)
    requires FinalFaultsDeserved(env, past, w) && Run(regime, env, w, steps)
    ensures FinalFaultsDeserved(env, past + steps, After(regime, env, w, steps))
    decreases |steps|
  {
    if steps == [] {
      assert past + steps == past;
    } else {
      StepKeepsFaults(env, past, w, steps[0]);
      RunKeepsFaults(regime, env, past + [steps[0]], Next(env, w, steps[0]), steps[1..]);
      assert past + [steps[0]] + steps[1..] == past + steps;
    }
  }

  /** In every run an attempt treats its error as final only if its problem has no active
      tests, or one of its own tests raised such an error. */
  lemma FinalErrorsAreDeserved(regime: Regime, env: Env, steps: seq<Step>, id: nat)
    requires Run(regime, env, Init(), steps)
    requires id in After(regime, env, Init(), steps).attempts
    requires var pc := After(regime, env, Init(), steps).attempts[id].pc; pc.Failing? && pc.fault == NonRetryable
    ensures env.verdicts == [] || RunTest(id, Raises(NonRetryable)) in steps
  {
    RunKeepsFaults(regime, env, [], Init(), steps);
    assert [] + steps == steps;
    assert Deserved(env, steps, id);
  }

  /** ACCEPTED from end to end: whatever the workers went through, a COMPLETED
      submission is ACCEPTED exactly when every test passes on its host. */
  lemma AcceptedEndToEnd(regime: Regime, env: Env, tests: seq<(Request, Host)>, steps: seq<Step>)
    requires |tests| == |env.verdicts|
    requires forall i :: 0 <= i < |tests| ==>
      var answer := Execute(tests[i].0, tests[i].1);
      answer.Answered? && answer.result.verdict == env.verdicts[i]
    requires Run(regime, env, Init(), steps)
    requires After(regime, env, Init(), steps).doc.status == COMPLETED
    ensures After(regime, env, Init(), steps).doc.verdict == Accepted <==>
              tests != [] && forall i :: 0 <= i < |tests| ==> Passes(tests[i].0, tests[i].1)
  {
    RunKeepsResults(regime, env, Init(), steps);
    ResultIsConsistent(env, After(regime, env, Init(), steps).doc);
    forall i | 0 <= i < |tests| ensures env.verdicts[i] == Accepted <==> Passes(tests[i].0, tests[i].1) {
      VerdictsOfCleanRuns(tests[i].0, tests[i].1);
    }
  }
}
