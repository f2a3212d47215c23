/** Concrete runs that show why the assumptions of the theorems are needed. */
module Limits {
  import opened Prelude
  import opened Judge
  import opened Protocol
  import opened Safety
  import opened Lease
  import opened Delivery
  import Runtimes
  import SubmissionService

  /** A run so far, and where it has led. */
  predicate Leads(regime: Regime, env: Env, steps: seq<Step>, w: World) {
    Run(regime, env, Init(), steps) && After(regime, env, Init(), steps) == w
  }

  lemma Extend(regime: Regime, env: Env, steps: seq<Step>, w: World, s: Step)
    requires Leads(regime, env, steps, w) && Admits(regime, env, w, s)
    ensures Leads(regime, env, steps + [s], Next(env, w, s))
  {
    RunSnoc(regime, env, Init(), steps, s);
  }

  predicate SameTime(w: World, w': World) {
    w'.clock == w.clock && w'.queuedAt == w.queuedAt
  }

  /** Attempt 1, delivered and about to claim, at the time the submission was queued. */
  function DeliveredWorld(): World {
    Init().(doc := NewDoc().(status := QUEUED),
            api := Enqueued,
            job := Job(Active(1), 0, 1),
            attempts := map[1 := NewAttempt(0, 0)])
  }

  /** The same attempt, after its claim. */
  function ClaimedWorld(): World {
    DeliveredWorld().(doc := ClaimDoc(NewDoc(), 0, 0),
                      attempts := map[1 := NewAttempt(0, 0).(pc := Claimed)],
                      claims := [Claim(1, 0, 0, 0, 0, false)])
  }

  lemma ReachDelivered(regime: Regime, env: Env)
    ensures Leads(regime, env, [SaveQueued, Enqueue, Deliver(1)], DeliveredWorld())
  {
    var w0 := Init();
    Extend(regime, env, [], w0, SaveQueued);
    assert [] + [SaveQueued] == [SaveQueued];
    var w1 := Next(env, w0, SaveQueued);
    Extend(regime, env, [SaveQueued], w1, Enqueue);
    var w2 := Next(env, w1, Enqueue);
    Extend(regime, env, [SaveQueued, Enqueue], w2, Deliver(1));
    assert Next(env, w2, Deliver(1)) == DeliveredWorld();
  }

  lemma ReachClaimed(regime: Regime, env: Env) returns (steps: seq<Step>)
    ensures Leads(regime, env, steps, ClaimedWorld())
  {
    ReachDelivered(regime, env);
    steps := [SaveQueued, Enqueue, Deliver(1)];
    var s := TryClaim(1, 0, 0);
    Extend(regime, env, steps, DeliveredWorld(), s);
    assert Next(env, DeliveredWorld(), s).attempts == ClaimedWorld().attempts;
    steps := steps + [s];
  }

  /** Attempt `id` loads, runs the one test and saves: four steps in a row. */
  lemma JudgeAndSave(regime: Regime, env: Env, steps: seq<Step>, w: World, id: nat)
      returns (more: seq<Step>, w': World)
    requires env.verdicts == [Accepted]
    requires Leads(regime, env, steps, w) && At(w, id, Claimed) && w.doc.status == RUNNING && Fresh(w.doc)
    requires InLease(env, w, w.attempts[id])
    ensures Leads(regime, env, more, w')
    ensures At(w', id, Saved) && w'.attempts == w.attempts[id := w'.attempts[id]]
    ensures w'.attempts[id].attemptsMade == w.attempts[id].attemptsMade
    ensures w'.attempts[id].stamp == w.attempts[id].stamp
    ensures w'.doc.status == COMPLETED && w'.doc.verdict == Accepted && w'.doc.runtimeMs == Some(5)
    ensures w'.clock == w.clock && w'.job == w.job
  {
    Extend(regime, env, steps, w, Load(id));
    var w1 := Next(env, w, Load(id));
    more := steps + [Load(id)];
    Extend(regime, env, more, w1, RunTest(id, Answers(5)));
    var w2 := Next(env, w1, RunTest(id, Answers(5)));
    more := more + [RunTest(id, Answers(5))];
    assert w2.attempts[id].pc == Finishing(Record(Accepted, 1, 1, Some(5)));
    Extend(regime, env, more, w2, Finish(id));
    w' := Next(env, w2, Finish(id));
    more := more + [Finish(id)];
  }

  /** A worker that outlives its lease can take a COMPLETED submission back to RUNNING,
      so the terminal states absorb in timely runs only. */
  lemma LateWorkerReopens() returns (env: Env, steps: seq<Step>, late: Step)
    ensures Run(Free, env, Init(), steps)
    ensures After(Free, env, Init(), steps).doc.status == COMPLETED
    ensures Admits(Free, env, After(Free, env, Init(), steps), late)
    ensures Next(env, After(Free, env, Init(), steps), late).doc.status == RUNNING
  {
    env := Env(30000, SubmissionService.ATTEMPTS, [Accepted]);
    var w: World;
    steps, w := StealAfterLease(env);
    steps, w := JudgeAndSave(Free, env, steps, w, 2);
    Extend(Free, env, steps, w, Load(1));
    steps, w := steps + [Load(1)], Next(env, w, Load(1));
    late := MarkRunning(1);
  }

  /** A late attempt that has loaded a COMPLETED submission judges it again. Its save leaves
      out a runtime that equals the loaded one. */
  lemma JudgeAgain(env: Env, steps: seq<Step>, w: World, id: nat, ms: nat) returns (w': World)
    requires env.verdicts == [Accepted]
    requires Leads(Free, env, steps, w) && At(w, id, Marking) && w.attempts[id].progress == Start()
    requires w.attempts[id].loaded.status == COMPLETED && w.attempts[id].loaded.startedAt.Some?
    ensures Leads(Free, env, steps + [MarkRunning(id)] + [RunTest(id, Answers(ms))] + [Finish(id)], w')
    ensures id in w'.attempts && w'.attempts == w.attempts[id := w'.attempts[id]]
    ensures w'.doc.runtimeMs == if w.attempts[id].loaded.runtimeMs == Some(ms) then w.doc.runtimeMs else Some(ms)
  {
    var s := RunTest(id, Answers(ms));
    Extend(Free, env, steps, w, MarkRunning(id));
    var w1 := Next(env, w, MarkRunning(id));
    Extend(Free, env, steps + [MarkRunning(id)], w1, s);
    var w2 := Next(env, w1, s);
    assert w2.attempts[id].pc == Finishing(Record(Accepted, 1, 1, Some(ms)));
    Extend(Free, env, steps + [MarkRunning(id)] + [s], w2, Finish(id));
    w' := Next(env, w2, Finish(id));
  }

  /** Attempts 1 and 2 have outlived their leases and have loaded the submission after
      attempt 3 completed it in 5 ms. */
  lemma TwoLateLoads(env: Env) returns (steps: seq<Step>, w: World)
    requires env == Env(30000, SubmissionService.ATTEMPTS, [Accepted])
    ensures Leads(Free, env, steps, w) && At(w, 1, Marking) && At(w, 2, Marking)
    ensures forall id :: id in {1, 2} ==>
              && w.attempts[id].progress == Start()
              && w.attempts[id].loaded.status == COMPLETED && w.attempts[id].loaded.startedAt.Some?
              && w.attempts[id].loaded.runtimeMs == Some(5)
  {
    steps, w := StealAfterLease(env);
    Extend(Free, env, steps, w, Tick(30001));
    steps, w := steps + [Tick(30001)], Next(env, w, Tick(30001));
    steps, w := DuplicateClaims(Free, env, steps, w, 3);
    steps, w := JudgeAndSave(Free, env, steps, w, 3);
    RunKeepsBasics(Free, env, Init(), steps);
    Extend(Free, env, steps, w, Load(1));
    steps, w := steps + [Load(1)], Next(env, w, Load(1));
    Extend(Free, env, steps, w, Load(2));
    steps, w := steps + [Load(2)], Next(env, w, Load(2));
  }

  /** A save that does not store the runtime of its own attempt: the attempt took as long
      as the submission had taken when it was loaded, and another one has stored a
      different time since. */
  lemma LateSaveKeepsAnotherRuntime() returns (env: Env, steps: seq<Step>)
    ensures Run(Free, env, Init(), steps)
    ensures steps != [] && steps[|steps| - 1] == Finish(2)
    ensures Runtimes.TotalOf(steps, 2) == 5 && After(Free, env, Init(), steps).doc.runtimeMs == Some(7)
  {
    env := Env(30000, SubmissionService.ATTEMPTS, [Accepted]);
    var w: World;
    steps, w := TwoLateLoads(env);
    w := JudgeAgain(env, steps, w, 1, 7);
    steps := steps + [MarkRunning(1)] + [RunTest(1, Answers(7))] + [Finish(1)];
    Runtimes.ReachInv(Free, env, steps);
    assert Runtimes.TimedOk(env, steps, 2, w.attempts[2]);
    Runtimes.TotalSnoc(steps, MarkRunning(2), 2);
    Runtimes.TotalSnoc(steps + [MarkRunning(2)], RunTest(2, Answers(5)), 2);
    Runtimes.TotalSnoc(steps + [MarkRunning(2)] + [RunTest(2, Answers(5))], Finish(2), 2);
    w := JudgeAgain(env, steps, w, 2, 5);
    steps := steps + [MarkRunning(2)] + [RunTest(2, Answers(5))] + [Finish(2)];
  }

  /** Attempt 2 takes over one millisecond after the lease of attempt 1, which has not
      loaded the submission yet. */
  lemma StealAfterLease(env: Env) returns (steps: seq<Step>, w: World)
    requires env == Env(30000, SubmissionService.ATTEMPTS, [Accepted])
    ensures Leads(Free, env, steps, w)
    ensures At(w, 1, Claimed) && At(w, 2, Claimed) && InLease(env, w, w.attempts[2])
    ensures w.doc.status == RUNNING && Fresh(w.doc) && w.doc.execStartedAt == Some(w.clock)
    ensures w.attempts.Keys == {1, 2} && !w.job.state.Absent?
    ensures w.attempts[1].progress == w.attempts[2].progress == Start()
  {
    steps := ReachClaimed(Free, env);
    w := ClaimedWorld();
    Extend(Free, env, steps, w, Tick(30001));
    steps, w := steps + [Tick(30001)], Next(env, w, Tick(30001));
    Extend(Free, env, steps, w, Redeliver(2, 0));
    steps, w := steps + [Redeliver(2, 0)], Next(env, w, Redeliver(2, 0));
    var s := TryClaim(2, 30001, 30001);
    Extend(Free, env, steps, w, s);
    steps, w := steps + [s], Next(env, w, s);
  }

  /** Attempt `id` fails and releases the submission. */
  lemma FailAndRelease(regime: Regime, env: Env, steps: seq<Step>, w: World, id: nat)
      returns (more: seq<Step>, w': World)
    requires Leads(regime, env, steps, w) && At(w, id, Claimed) && w.doc.status == RUNNING
    requires w.attempts[id].attemptsMade + 1 < env.attempts && InLease(env, w, w.attempts[id])
    ensures Leads(regime, env, more, w') && SameTime(w, w')
    ensures w'.doc == w.doc.(status := QUEUED) && w'.job == EndJob(env, w.job, id, Rethrown)
    ensures id in w'.attempts && w'.attempts == w.attempts[id := w'.attempts[id]]
    ensures w'.claims == w.claims && w'.releases == w.releases + 1
  {
    Extend(regime, env, steps, w, Throws(id));
    more, w' := steps + [Throws(id)], Next(env, w, Throws(id));
    Extend(regime, env, more, w', Settle(id));
    more, w' := more + [Settle(id)], Next(env, w', Settle(id));
  }

  /** After the backoff, attempt `id` is delivered and claims the submission. */
  lemma RetryAndClaim(regime: Regime, env: Env, steps: seq<Step>, w: World, id: nat, backoffMs: nat)
      returns (more: seq<Step>, w': World)
    requires Leads(regime, env, steps, w) && w.doc.status == QUEUED && w.job.state.Delayed? && id !in w.attempts
    ensures Leads(regime, env, more, w')
    ensures At(w', id, Claimed) && InLease(env, w', w'.attempts[id])
    ensures w'.doc == ClaimDoc(w.doc, w'.clock, w'.clock)
    ensures w'.job.state == Active(id) && w'.attempts.Keys == w.attempts.Keys + {id}
    ensures w'.job.attemptsMade == w'.attempts[id].attemptsMade == w.job.attemptsMade
  {
    Extend(regime, env, steps, w, Tick(backoffMs));
    more, w' := steps + [Tick(backoffMs)], Next(env, w, Tick(backoffMs));
    Extend(regime, env, more, w', Deliver(id));
    more, w' := more + [Deliver(id)], Next(env, w', Deliver(id));
    var s := TryClaim(id, w'.clock, w'.clock);
    Extend(regime, env, more, w', s);
    more, w' := more + [s], Next(env, w', s);
  }

  /** Two attempts fail and release; the third claims. */
  lemma ReachThirdAttempt(regime: Regime, env: Env) returns (steps: seq<Step>, w: World)
    requires env.attempts == SubmissionService.ATTEMPTS
    ensures Leads(regime, env, steps, w) && At(w, 3, Claimed) && InLease(env, w, w.attempts[3])
    ensures w.doc.status == RUNNING && Fresh(w.doc) && w.attempts[3].attemptsMade == 2
  {
    steps := ReachClaimed(regime, env);
    w := ClaimedWorld();
    steps, w := FailAndRelease(regime, env, steps, w, 1);
    steps, w := RetryAndClaim(regime, env, steps, w, 2, 1000);
    steps, w := FailAndRelease(regime, env, steps, w, 2);
    steps, w := RetryAndClaim(regime, env, steps, w, 3, 2000);
  }

  /** The third attempt saves its result and cannot write the stamp. The submission is
      FAILED and keeps its ACCEPTED verdict, in a run of any regime. */
  lemma LostStampFailsAnAcceptedSubmission(regime: Regime) returns (env: Env, steps: seq<Step>)
    ensures env == Env(30000, SubmissionService.ATTEMPTS, [Accepted])
    ensures Run(regime, env, Init(), steps)
    ensures var d := After(regime, env, Init(), steps).doc; d.status == FAILED && d.verdict == Accepted
  {
    env := Env(30000, SubmissionService.ATTEMPTS, [Accepted]);
    var w: World;
    steps, w := ReachThirdAttempt(regime, env);
    steps, w := JudgeAndSave(regime, env, steps, w, 3);
    Extend(regime, env, steps, w, Throws(3));
    steps, w := steps + [Throws(3)], Next(env, w, Throws(3));
    Extend(regime, env, steps, w, Settle(3));
    steps, w := steps + [Settle(3)], Next(env, w, Settle(3));
  }

  /** Attempt 1 fails to load and then to release: the job is delayed for a retry and
      the submission is still RUNNING. */
  lemma ReleaseFails(env: Env) returns (steps: seq<Step>, w: World)
    requires env.attempts == SubmissionService.ATTEMPTS
    ensures Leads(CrashFree, env, steps, w)
    ensures w == ClaimedWorld().(job := Job(Delayed, 1, 1), attempts := w.attempts) && w.attempts.Keys == {1}
  {
    steps := ReachClaimed(CrashFree, env);
    w := ClaimedWorld();
    Extend(CrashFree, env, steps, w, Throws(1));
    steps, w := steps + [Throws(1)], Next(env, w, Throws(1));
    Extend(CrashFree, env, steps, w, Throws(1));
    steps, w := steps + [Throws(1)], Next(env, w, Throws(1));
  }

  /** When the release of a failed attempt does not reach the database, the retry finds
      a fresh RUNNING submission, skips it and acknowledges the job: the submission is
      lost although nobody crashed. */
  lemma FailedReleaseStrands() returns (env: Env, steps: seq<Step>)
    ensures Run(CrashFree, env, Init(), steps)
    ensures Stranded(After(CrashFree, env, Init(), steps))
  {
    env := Env(30000, SubmissionService.ATTEMPTS, [Accepted]);
    var w: World;
    steps, w := ReleaseFails(env);
    Extend(CrashFree, env, steps, w, Tick(1000));
    steps, w := steps + [Tick(1000)], Next(env, w, Tick(1000));
    Extend(CrashFree, env, steps, w, Deliver(2));
    steps, w := steps + [Deliver(2)], Next(env, w, Deliver(2));
    var s := TryClaim(2, 1000, 1000);
    Extend(CrashFree, env, steps, w, s);
    steps, w := steps + [s], Next(env, w, s);
  }

  /** After a crash, a redelivery takes the submission over exactly when it is issued
      more than `staleMs` after the stamp of the crashed claim; an earlier one is
      acknowledged, and leaves the submission RUNNING without a job. */
  lemma RecoveryNeedsAStaleLease(env: Env, steps: seq<Step>, s: Step)
    requires Run(Free, env, Init(), steps)
    requires s.TryClaim? && Enabled(env, After(Free, env, Init(), steps), s)
    requires After(Free, env, Init(), steps).doc.status == RUNNING
    requires After(Free, env, Init(), steps).job.state == Active(s.id)
    ensures var w := After(Free, env, Init(), steps);
            var w' := Next(env, w, s);
            && w.claims != []
            && var stamp := w.claims[|w.claims| - 1].stamp;
               if stamp + env.staleMs < w.attempts[s.id].issued
               then At(w', s.id, Claimed) && Holds(w', s.id) && w'.doc == ClaimDoc(w.doc, s.started, s.stamp)
               else At(w', s.id, Acked) && w'.doc == w.doc && Stranded(w')
  {
    InitBasics();
    RunKeepsBasics(Free, env, Init(), steps);
  }

  /** A redelivery that finds the lease fresh is acknowledged. */
  lemma RedeliverySkips(env: Env, steps: seq<Step>, w: World, id: nat) returns (more: seq<Step>, w': World)
    requires Leads(Free, env, steps, w) && !w.job.state.Absent? && id !in w.attempts
    requires w.doc.status == RUNNING && !ClaimMatches(w.doc, w.clock, env.staleMs)
    ensures Leads(Free, env, more, w') && Stranded(w')
  {
    Extend(Free, env, steps, w, Redeliver(id, 0));
    more, w' := steps + [Redeliver(id, 0)], Next(env, w, Redeliver(id, 0));
    var s := TryClaim(id, w.clock, w.clock);
    Extend(Free, env, more, w', s);
    more, w' := more + [s], Next(env, w', s);
  }

  /** A redelivery that comes in the same millisecond as the crash strands its submission. */
  lemma EarlyRedeliveryStrands() returns (env: Env, steps: seq<Step>)
    ensures Run(Free, env, Init(), steps) && Stranded(After(Free, env, Init(), steps))
  {
    env := Env(30000, SubmissionService.ATTEMPTS, [Accepted]);
    steps := ReachClaimed(Free, env);
    var w := ClaimedWorld();
    Extend(Free, env, steps, w, Crash(1));
    steps, w := steps + [Crash(1)], Next(env, w, Crash(1));
    steps, w := RedeliverySkips(env, steps, w, 2);
  }

  // ----- The bound on claims needs its hypothesis -----

  /** At most 1 + releases + time / staleMs claims. */
  predicate WithinBound(env: Env, w: World)
    requires env.staleMs > 0
  {
    |w.claims| <= 1 + w.releases + (w.clock - w.queuedAt) / env.staleMs
  }

  /** Duplicates of the job, up to number `last`, and the last of them has just claimed. */
  predicate Duplicated(env: Env, w: World, last: nat) {
    && env.attempts > 1 && !w.job.state.Absent?
    && At(w, last, Claimed) && w.doc.status == RUNNING && w.attempts[last].attemptsMade == 0
    && InLease(env, w, w.attempts[last])
    && forall id :: id in w.attempts ==> id <= last
  }

  /** A duplicate is delivered and claims at once. */
  lemma DuplicateClaims(regime: Regime, env: Env, steps: seq<Step>, w: World, id: nat)
      returns (more: seq<Step>, w': World)
    requires (regime.Free? || regime.Timely?) && env.attempts > 1
    requires Leads(regime, env, steps, w) && !w.job.state.Absent? && ClaimMatches(w.doc, w.clock, env.staleMs)
    requires forall other :: other in w.attempts ==> other < id
    ensures Leads(regime, env, more, w') && Duplicated(env, w', id) && SameTime(w, w')
    ensures |w'.claims| == |w.claims| + 1 && w'.releases == w.releases
    ensures w'.attempts == w.attempts[id := w'.attempts[id]] && w'.doc == ClaimDoc(w.doc, w.clock, w.clock)
  {
    Extend(regime, env, steps, w, Redeliver(id, 0));
    more, w' := steps + [Redeliver(id, 0)], Next(env, w, Redeliver(id, 0));
    var s := TryClaim(id, w.clock, w.clock);
    Extend(regime, env, more, w', s);
    more, w' := more + [s], Next(env, w', s);
  }

  /** Attempts 1 and 2 are delivered together, and 1 claims. */
  lemma OneOfTwoClaims(regime: Regime, env: Env) returns (steps: seq<Step>, w: World)
    requires regime.Free? || regime.Timely?
    ensures Leads(regime, env, steps, w) && w.doc == ClaimDoc(NewDoc(), 0, 0)
    ensures !w.job.state.Absent? && |w.claims| == 1 && w.releases == 0 && w.clock == w.queuedAt == 0
    ensures w.attempts.Keys == {1, 2} && w.attempts[2] == NewAttempt(0, 0)
  {
    ReachDelivered(regime, env);
    steps, w := [SaveQueued, Enqueue, Deliver(1)], DeliveredWorld();
    Extend(regime, env, steps, w, Redeliver(2, 0));
    steps, w := steps + [Redeliver(2, 0)], Next(env, w, Redeliver(2, 0));
    Extend(regime, env, steps, w, TryClaim(1, 0, 0));
    steps, w := steps + [TryClaim(1, 0, 0)], Next(env, w, TryClaim(1, 0, 0));
  }

  /** Once that claim is stale, attempt 3 takes over. */
  lemma TwoClaims(regime: Regime, env: Env) returns (steps: seq<Step>, w: World)
    requires (regime.Free? || regime.Timely?) && env.attempts > 1
    ensures Leads(regime, env, steps, w) && Duplicated(env, w, 3) && |w.claims| == 2 && w.releases == 0
    ensures w.clock == env.staleMs + 1 && w.queuedAt == 0
    ensures 2 in w.attempts && w.attempts[2] == NewAttempt(0, 0)
  {
    steps, w := OneOfTwoClaims(regime, env);
    Extend(regime, env, steps, w, Tick(env.staleMs + 1));
    steps, w := steps + [Tick(env.staleMs + 1)], Next(env, w, Tick(env.staleMs + 1));
    steps, w := DuplicateClaims(regime, env, steps, w, 3);
  }

  /** Attempt 3 releases, attempt 2 claims with the stamp it read long ago, and attempt 4
      takes over at once: the same time has been spent twice. */
  lemma FourClaims(regime: Regime, env: Env) returns (steps: seq<Step>, w: World)
    requires (regime.Free? || regime.Timely?) && env.attempts > 1
    ensures Leads(regime, env, steps, w) && Duplicated(env, w, 4) && |w.claims| == 4 && w.releases == 1
    ensures w.clock == env.staleMs + 1 && w.queuedAt == 0
  {
    steps, w := TwoClaims(regime, env);
    steps, w := FailAndRelease(regime, env, steps, w, 3);
    Extend(regime, env, steps, w, TryClaim(2, 0, 0));
    steps, w := steps + [TryClaim(2, 0, 0)], Next(env, w, TryClaim(2, 0, 0));
    steps, w := DuplicateClaims(regime, env, steps, w, 4);
  }

  lemma {:induction false} ManyClaims(regime: Regime, env: Env, r: nat) returns (steps: seq<Step>, w: World)
    requires (regime.Free? || regime.Timely?) && env.attempts > 1 && r > 0
    ensures Leads(regime, env, steps, w) && Duplicated(env, w, 3 + r) && |w.claims| == 3 + r && w.releases == r
    ensures w.clock == env.staleMs + 1 && w.queuedAt == 0
  {
    if r == 1 {
      steps, w := FourClaims(regime, env);
    } else {
      steps, w := ManyClaims(regime, env, r - 1);
      steps, w := FailAndRelease(regime, env, steps, w, 2 + r);
      steps, w := DuplicateClaims(regime, env, steps, w, 3 + r);
    }
  }

  /** Within the bound, if it has been released `r` times. */
  predicate WithinBoundAfter(regime: Regime, env: Env, steps: seq<Step>, r: nat)
    requires env.staleMs > 0 && Run(regime, env, Init(), steps)
  {
    var w := After(regime, env, Init(), steps);
    w.releases == r ==> WithinBound(env, w)
  }

  /** All runs with `r` releases stay within 1 + r + time / staleMs claims if and only if
      `r` is 0: from one release on, some run exceeds it, even a timely one. */
  lemma BoundHoldsIffNoRelease(regime: Regime, env: Env, r: nat)
    requires (regime.Free? || regime.Timely?) && env.attempts > 1 && env.staleMs > 1
    ensures (forall steps: seq<Step> :: Run(regime, env, Init(), steps) ==> WithinBoundAfter(regime, env, steps, r))
            <==> r == 0
  {
    if r == 0 {
      forall steps: seq<Step> | Run(regime, env, Init(), steps)
        ensures WithinBoundAfter(regime, env, steps, r)
      {
        ClaimBoundInOrder(regime, env, steps);
      }
    } else {
      var steps, w := ManyClaims(regime, env, r);
      assert (env.staleMs + 1) / env.staleMs == 1;
      assert !WithinBoundAfter(regime, env, steps, r);
    }
  }
}
