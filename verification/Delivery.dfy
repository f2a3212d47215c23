/** Runs in which the queue delivers a job again only after a crash, and late enough:
    nothing is lost, and every submission ends. */
module Delivery {
  import opened Judge
  import opened Protocol
  import opened Safety

  /** The regimes in which at most one attempt is live at a time. */
  predicate Reliable(regime: Regime) {
    regime.CrashFree? || regime.Recovering?
  }

  /** What the document looks like while the only live attempt is at work. */
  predicate SoleOk(d: Doc, a: Attempt) {
    match a.pc
    case Delivered => true
    case Claimed => d.status == RUNNING
    case Testing => d.status == RUNNING && a.loaded.status == RUNNING
    case Finishing(_) => d.status == RUNNING && a.loaded.status == RUNNING
    case Saved => d.status == COMPLETED
    case Failing(_, saved) => d.status == if saved then COMPLETED else RUNNING
    case _ => false
  }

  predicate JobOk(env: Env, j: Job) {
    match j.state
    case Absent => j.attemptsMade == 0 && j.deliveries == 0
    case Waiting => j.deliveries == j.attemptsMade < Budget(env)
    case Delayed => j.deliveries == j.attemptsMade < Budget(env)
    case Active(_) => j.deliveries == j.attemptsMade + 1 <= Budget(env)
    case _ => j.deliveries <= Budget(env)
  }

  /** The attempt that holds an active job: the only live one, unless it has crashed. */
  predicate ActiveOk(regime: Regime, w: World) {
    w.job.state.Active? ==>
      var id := w.job.state.id;
      && id in w.attempts
      && w.attempts[id].attemptsMade == w.job.attemptsMade
      && if Live(w.attempts[id]) then SoleOk(w.doc, w.attempts[id])
         else w.attempts[id].pc.Crashed? && regime.Recovering?
  }

  predicate SoleInv(regime: Regime, env: Env, w: World) {
    && Basics(w) && AttemptsOk(env, w) && JobOk(env, w.job)
    && (forall id :: id in w.attempts && Live(w.attempts[id]) ==> w.job.state == Active(id))
    && ActiveOk(regime, w)
  }

  /** What one step of the sole live attempt must leave behind. */
  predicate SoleAfter(regime: Regime, env: Env, w: World, w': World, id: nat) {
    && id in w'.attempts
    && JobOk(env, w'.job)
    && (Live(w'.attempts[id]) ==> w'.job == w.job && SoleOk(w'.doc, w'.attempts[id]))
    && (!Live(w'.attempts[id]) && w'.job.state.Active? ==>
          w'.job == w.job && w'.attempts[id].pc.Crashed? && regime.Recovering?)
  }

  /** The sole live attempt holds the job. */
  lemma SoleAttempt(regime: Regime, env: Env, w: World, id: nat)
    requires SoleInv(regime, env, w) && id in w.attempts && Live(w.attempts[id])
    ensures w.job.state == Active(id) && w.api.Enqueued?
    ensures w.attempts[id].attemptsMade == w.job.attemptsMade && SoleOk(w.doc, w.attempts[id])
    ensures forall pc :: JobOk(env, EndJob(env, w.job, id, pc)) && !EndJob(env, w.job, id, pc).state.Active?
  {
  }

  lemma ClaimKeepsSole(regime: Regime, env: Env, w: World, s: Step)
    requires SoleInv(regime, env, w) && Enabled(env, w, s) && s.TryClaim?
    ensures SoleAfter(regime, env, w, Next(env, w, s), s.id)
  {
    SoleAttempt(regime, env, w, s.id);
  }

  lemma SaveKeepsSole(regime: Regime, env: Env, w: World, s: Step)
    requires SoleInv(regime, env, w) && Enabled(env, w, s) && (s.MarkRunning? || s.Finish?)
    ensures SoleAfter(regime, env, w, Next(env, w, s), s.id)
  {
    SoleAttempt(regime, env, w, s.id);
  }

  lemma SettlementKeepsSole(regime: Regime, env: Env, w: World, s: Step)
    requires SoleInv(regime, env, w) && Reliable(regime) && Admits(regime, env, w, s) && IsSettlement(s)
    ensures SoleAfter(regime, env, w, Next(env, w, s), s.id)
  {
    SoleAttempt(regime, env, w, s.id);
  }

  lemma ThrowKeepsSole(regime: Regime, env: Env, w: World, s: Step)
    requires SoleInv(regime, env, w) && Enabled(env, w, s) && s.Throws?
    ensures SoleAfter(regime, env, w, Next(env, w, s), s.id)
  {
    SoleAttempt(regime, env, w, s.id);
  }

  lemma TestKeepsSole(regime: Regime, env: Env, w: World, s: Step)
    requires SoleInv(regime, env, w) && Enabled(env, w, s) && s.RunTest?
    ensures SoleAfter(regime, env, w, Next(env, w, s), s.id)
  {
    SoleAttempt(regime, env, w, s.id);
    LocalStepShape(env, w, s);
  }

  lemma OtherLocalStepKeepsSole(regime: Regime, env: Env, w: World, s: Step)
    requires SoleInv(regime, env, w) && Reliable(regime) && Admits(regime, env, w, s)
    requires s.Load? || s.Stamp? || s.Crash?
    ensures SoleAfter(regime, env, w, Next(env, w, s), s.id)
  {
    SoleAttempt(regime, env, w, s.id);
  }

  lemma AttemptStepKeepsSole(regime: Regime, env: Env, w: World, s: Step)
    requires SoleInv(regime, env, w) && Reliable(regime) && Admits(regime, env, w, s) && IsAttemptStep(s)
    ensures SoleAfter(regime, env, w, Next(env, w, s), s.id)
  {
    match s
    case TryClaim(_, _, _) => ClaimKeepsSole(regime, env, w, s);
    case RunTest(_, _) => TestKeepsSole(regime, env, w, s);
    case Throws(_) => ThrowKeepsSole(regime, env, w, s);
    case MarkRunning(_) => SaveKeepsSole(regime, env, w, s);
    case Finish(_) => SaveKeepsSole(regime, env, w, s);
    case Settle(_) => SettlementKeepsSole(regime, env, w, s);
    case SettleAndCrash(_) => SettlementKeepsSole(regime, env, w, s);
    case _ => OtherLocalStepKeepsSole(regime, env, w, s);
  }

  lemma DistantStepKeepsSole(regime: Regime, env: Env, w: World, s: Step)
    requires SoleInv(regime, env, w) && Reliable(regime) && Admits(regime, env, w, s) && !IsAttemptStep(s)
    ensures var w' := Next(env, w, s); Basics(w') && AttemptsOk(env, w') ==> SoleInv(regime, env, w')
  {
  }

  lemma StepKeepsSole(regime: Regime, env: Env, w: World, s: Step)
    requires SoleInv(regime, env, w) && Reliable(regime) && Admits(regime, env, w, s)
    ensures SoleInv(regime, env, Next(env, w, s))
  {
    StepKeepsBasics(env, w, s);
    StepKeepsAttempts(env, w, s);
    if IsAttemptStep(s) {
      AttemptStepShape(env, w, s);
      SoleAttempt(regime, env, w, s.id);
      AttemptStepKeepsSole(regime, env, w, s);
      SoleAttemptMoves(regime, env, w, Next(env, w, s), s.id);
    } else {
      DistantStepKeepsSole(regime, env, w, s);
    }
  }

  lemma SoleAttemptMoves(regime: Regime, env: Env, w: World, w': World, id: nat)
    requires SoleInv(regime, env, w) && w.job.state == Active(id)
    requires Basics(w') && AttemptsOk(env, w') && SoleAfter(regime, env, w, w', id) && Moves(w, w', id)
    ensures SoleInv(regime, env, w')
  {
  }

  lemma {:induction false} RunKeepsSole(regime: Regime, env: Env, w: World, steps: seq<Step>)
    requires SoleInv(regime, env, w) && Reliable(regime) && Run(regime, env, w, steps)
    ensures SoleInv(regime, env, After(regime, env, w, steps))
    decreases |steps|
  {
    if steps == [] {
    } else {
      StepKeepsSole(regime, env, w, steps[0]);
      RunKeepsSole(regime, env, Next(env, w, steps[0]), steps[1..]);
    }
  }

  // ----- No submission is lost -----

  /** The queue is done with a submission that has not ended. */
  predicate Stranded(w: World) {
    JobEnded(w.job) && !Terminal(w.doc)
  }

  /** The steps that give up on a submission: a delivery that skips a RUNNING one, and
      a failed claim, or a failed write of the catch block, with no retry left. */
  predicate Strands(env: Env, w: World, s: Step) {
    && !Terminal(w.doc)
    && (|| (s.TryClaim? && s.id in w.attempts && !ClaimMatches(w.doc, w.attempts[s.id].issued, env.staleMs))
        || (s.Throws? && s.id in w.attempts && !HasRetries(env, w.attempts[s.id])
            && (w.attempts[s.id].pc.Delivered? || w.attempts[s.id].pc.Failing?)))
  }

  lemma ClaimStrands(regime: Regime, env: Env, w: World, s: Step)
    requires SoleInv(regime, env, w) && Enabled(env, w, s) && s.TryClaim?
    ensures Stranded(Next(env, w, s)) <==> Strands(env, w, s)
  {
    SoleAttempt(regime, env, w, s.id);
  }

  lemma SettlementStrandsNothing(regime: Regime, env: Env, w: World, s: Step)
    requires SoleInv(regime, env, w) && Enabled(env, w, s) && IsSettlement(s)
    ensures !Stranded(Next(env, w, s))
  {
    SoleAttempt(regime, env, w, s.id);
    SettlementShape(env, w, s);
  }

  lemma SaveStrandsNothing(regime: Regime, env: Env, w: World, s: Step)
    requires SoleInv(regime, env, w) && Enabled(env, w, s) && (s.MarkRunning? || s.Finish?)
    ensures !Stranded(Next(env, w, s))
  {
    SoleAttempt(regime, env, w, s.id);
  }

  lemma LocalStepStrands(regime: Regime, env: Env, w: World, s: Step)
    requires SoleInv(regime, env, w) && Enabled(env, w, s) && IsLocalStep(s)
    ensures Stranded(Next(env, w, s)) <==> Strands(env, w, s)
  {
    SoleAttempt(regime, env, w, s.id);
    LocalStepShape(env, w, s);
  }

  /** Worker and queue agree on when retries are exhausted, so a job ends without its
      submission exactly at the steps named above. */
  lemma StepStrands(regime: Regime, env: Env, w: World, s: Step)
    requires SoleInv(regime, env, w) && Reliable(regime) && Admits(regime, env, w, s)
    ensures Stranded(Next(env, w, s)) <==> Stranded(w) || Strands(env, w, s)
  {
    if IsAttemptStep(s) {
      AttemptStepShape(env, w, s);
      SoleAttempt(regime, env, w, s.id);
    }
    if s.TryClaim? {
      ClaimStrands(regime, env, w, s);
    } else if IsSettlement(s) {
      SettlementStrandsNothing(regime, env, w, s);
    } else if s.MarkRunning? || s.Finish? {
      SaveStrandsNothing(regime, env, w, s);
    } else if IsLocalStep(s) {
      LocalStepStrands(regime, env, w, s);
    }
  }

  lemma {:induction false} RunStrands(regime: Regime, env: Env, w: World, steps: seq<Step>)
    requires SoleInv(regime, env, w) && Reliable(regime) && Run(regime, env, w, steps)
    ensures Stranded(After(regime, env, w, steps)) <==>
              Stranded(w) || Somewhere(regime, env, w, steps, Strands)
    decreases |steps|
  {
    if steps == [] {
    } else {
      StepStrands(regime, env, w, steps[0]);
      StepKeepsSole(regime, env, w, steps[0]);
      RunStrands(regime, env, Next(env, w, steps[0]), steps[1..]);
    }
  }

  /** A run without crashes, or with late redeliveries after them, loses its submission
      exactly when it takes a stranding step. Otherwise, once enqueued, a submission
      that has not ended still has its job. */
  lemma LostIffStranded(regime: Regime, env: Env, steps: seq<Step>)
    requires Reliable(regime) && Run(regime, env, Init(), steps)
    ensures Stranded(After(regime, env, Init(), steps)) <==> Somewhere(regime, env, Init(), steps, Strands)
    ensures var w := After(regime, env, Init(), steps);
            w.api.Enqueued? && !Somewhere(regime, env, Init(), steps, Strands) ==>
              && (JobEnded(w.job) ==> Terminal(w.doc))
              && (w.doc.status in {QUEUED, RUNNING} ==>
                    w.job.state.Waiting? || w.job.state.Delayed? || w.job.state.Active?)
  {
    RunStrands(regime, env, Init(), steps);
    RunKeepsSole(regime, env, Init(), steps);
  }

  // ----- When the claim and the catch block always reach the database -----

  /** A database failure outside the reach of the worker's own recovery. */
  predicate Unrecovered(env: Env, w: World, s: Step) {
    s.Throws? && s.id in w.attempts && (w.attempts[s.id].pc.Delivered? || w.attempts[s.id].pc.Failing?)
  }

  /** Between attempts the submission is QUEUED or has ended, and a delivered attempt
      that finds it RUNNING can take it over. */
  predicate Released(env: Env, w: World) {
    && (w.job.state.Waiting? || w.job.state.Delayed? ==> w.doc.status != RUNNING)
    && (w.job.state.Active? && At(w, w.job.state.id, Delivered) && w.doc.status == RUNNING ==>
          ClaimMatches(w.doc, w.attempts[w.job.state.id].issued, env.staleMs))
  }

  /** A redelivery that waits for the lease to go stale can claim. */
  lemma RecoveryKeepsReleased(regime: Regime, env: Env, w: World, s: Step)
    requires SoleInv(regime, env, w) && Reliable(regime) && Admits(regime, env, w, s) && s.Redeliver?
    ensures Released(env, Next(env, w, s))
  {
  }

  lemma CalmThrowKeepsReleased(regime: Regime, env: Env, w: World, s: Step)
    requires SoleInv(regime, env, w) && Released(env, w)
    requires Enabled(env, w, s) && s.Throws? && !Unrecovered(env, w, s)
    ensures Released(env, Next(env, w, s))
  {
    SoleAttempt(regime, env, w, s.id);
    LocalStepShape(env, w, s);
  }

  lemma CalmAttemptKeepsReleased(regime: Regime, env: Env, w: World, s: Step)
    requires SoleInv(regime, env, w) && Released(env, w)
    requires Enabled(env, w, s) && IsAttemptStep(s) && !s.Throws?
    ensures Released(env, Next(env, w, s))
  {
    SoleAttempt(regime, env, w, s.id);
    if IsSettlement(s) {
      SettlementShape(env, w, s);
    } else if IsLocalStep(s) {
      LocalStepShape(env, w, s);
    }
  }

  lemma CalmStepKeepsReleased(regime: Regime, env: Env, w: World, s: Step)
    requires SoleInv(regime, env, w) && Reliable(regime) && Released(env, w)
    requires Admits(regime, env, w, s) && !Unrecovered(env, w, s)
    ensures Released(env, Next(env, w, s))
  {
    if s.Throws? {
      CalmThrowKeepsReleased(regime, env, w, s);
    } else if IsAttemptStep(s) {
      CalmAttemptKeepsReleased(regime, env, w, s);
    } else if s.Redeliver? {
      RecoveryKeepsReleased(regime, env, w, s);
    }
  }

  lemma CalmStepStrandsNothing(regime: Regime, env: Env, w: World, s: Step)
    requires SoleInv(regime, env, w) && Released(env, w) && Enabled(env, w, s) && !Unrecovered(env, w, s)
    ensures !Strands(env, w, s)
  {
    if s.TryClaim? {
      SoleAttempt(regime, env, w, s.id);
    }
  }

  lemma {:induction false} CalmRunsStrandNothing(regime: Regime, env: Env, w: World, steps: seq<Step>)
    requires SoleInv(regime, env, w) && Reliable(regime) && Released(env, w) && Run(regime, env, w, steps)
    requires !Somewhere(regime, env, w, steps, Unrecovered)
    ensures !Somewhere(regime, env, w, steps, Strands)
    decreases |steps|
  {
    if steps == [] {
    } else {
      CalmStepStrandsNothing(regime, env, w, steps[0]);
      CalmStepKeepsReleased(regime, env, w, steps[0]);
      StepKeepsSole(regime, env, w, steps[0]);
      CalmRunsStrandNothing(regime, env, Next(env, w, steps[0]), steps[1..]);
    }
  }

  /** No submission is lost as long as claims and catch blocks reach the database and
      redeliveries after a crash come late enough, whatever else fails. */
  lemma CalmRunsLoseNothing(regime: Regime, env: Env, steps: seq<Step>)
    requires Reliable(regime) && Run(regime, env, Init(), steps)
    requires !Somewhere(regime, env, Init(), steps, Unrecovered)
    ensures var w := After(regime, env, Init(), steps);
            && (JobEnded(w.job) ==> Terminal(w.doc))
            && (w.api.Enqueued? && !Terminal(w.doc) ==>
                  w.job.state.Waiting? || w.job.state.Delayed? || w.job.state.Active?)
  {
    CalmRunsStrandNothing(regime, env, Init(), steps);
    LostIffStranded(regime, env, steps);
    RunKeepsSole(regime, env, Init(), steps);
  }

  // ----- Every submission ends -----

  function Turns(env: Env): nat {
    |env.verdicts| + 9
  }

  function Rank(env: Env, a: Attempt): nat {
    var n := |env.verdicts|;
    match a.pc
    case Delivered => n + 7
    case Claimed => n + 6
    case Marking => n + 5
    case Testing => 4 + (if a.progress.i <= n then n - a.progress.i else 0)
    case Finishing(_) => 3
    case Saved => 2
    case Failing(_, _) => 1
    case _ => 0
  }

  /** Attempts left, then the place in the current attempt. */
  function JobMeasure(env: Env, j: Job, rank: nat): nat {
    if JobEnded(j) || j.attemptsMade >= Budget(env) then 0
    else
      (Budget(env) - j.attemptsMade - 1) * Turns(env) + (if j.state.Active? then rank else Turns(env))
  }

  /** The rank of the attempt at work; it counts the tests left. */
  function CurrentRank(env: Env, w: World): nat {
    if w.job.state.Active? && w.job.state.id in w.attempts
    then Rank(env, w.attempts[w.job.state.id])
    else 0
  }

  function Measure(env: Env, w: World): nat {
    match w.api
    case Created => Budget(env) * Turns(env) + 2
    case Persisted => Budget(env) * Turns(env) + 1
    case Rejected => 1
    case Closed => 0
    case Enqueued => JobMeasure(env, w.job, CurrentRank(env, w))
  }

  lemma OneTurnLess(left: nat, turns: nat)
    requires left > 0
    ensures (left - 1) * turns + turns == left * turns
  {
  }

  lemma AttemptStepDecreases(regime: Regime, env: Env, w: World, s: Step)
    requires SoleInv(regime, env, w) && Reliable(regime) && Admits(regime, env, w, s) && IsAttemptStep(s)
    ensures Measure(env, Next(env, w, s)) < Measure(env, w)
  {
    AttemptStepShape(env, w, s);
    SoleAttempt(regime, env, w, s.id);
    AttemptStepRanksLower(env, w, s);
    AttemptStepMovesJob(regime, env, w, s);
    var w' := Next(env, w, s);
    JobMeasureDrops(env, w.job, w'.job, CurrentRank(env, w), CurrentRank(env, w'));
  }

  lemma JobMeasureDrops(env: Env, j: Job, j': Job, rank: nat, rank': nat)
    requires j.state.Active? && j.attemptsMade < Budget(env) && rank > 0
    requires
      || (j' == j && rank' < rank)
      || JobEnded(j')
      || (j'.state.Delayed? && j'.attemptsMade == j.attemptsMade + 1 < Budget(env))
    ensures JobMeasure(env, j', rank') < JobMeasure(env, j, rank)
  {
    var left: nat, turns := Budget(env) - j.attemptsMade - 1, Turns(env);
    assert JobMeasure(env, j, rank) == left * turns + rank;
    ProductIsNat(left, turns);
    if j'.state.Delayed? {
      assert JobMeasure(env, j', rank') == (left - 1) * turns + turns;
      OneTurnLess(left, turns);
    }
  }

  lemma ProductIsNat(a: nat, b: nat)
    ensures 0 <= a * b
  {
  }

  lemma AttemptStepMovesJob(regime: Regime, env: Env, w: World, s: Step)
    requires SoleInv(regime, env, w) && Reliable(regime) && Admits(regime, env, w, s) && IsAttemptStep(s)
    ensures var j := Next(env, w, s).job;
            || j == w.job
            || JobEnded(j)
            || (j.state.Delayed? && j.attemptsMade == w.job.attemptsMade + 1 < Budget(env))
  {
    AttemptStepShape(env, w, s);
    SoleAttempt(regime, env, w, s.id);
  }

  lemma TestRanksLower(env: Env, w: World, id: nat, outcome: Outcome)
    requires AttemptsOk(env, w) && Enabled(env, w, RunTest(id, outcome))
    ensures id in NextTest(env, w, id, outcome).attempts
    ensures Rank(env, NextTest(env, w, id, outcome).attempts[id]) < Rank(env, w.attempts[id])
  {
    assert AttemptOk(env, w.attempts[id]);
    if outcome.Answers? {
      var p := w.attempts[id].progress;
      TurnFollowsSpec(p, env.verdicts, ResultOf(env.verdicts[p.i], outcome.runtimeMs));
    }
  }

  lemma AttemptStepRanksLower(env: Env, w: World, s: Step)
    requires AttemptsOk(env, w) && Enabled(env, w, s) && IsAttemptStep(s)
    ensures s.id in w.attempts && s.id in Next(env, w, s).attempts
    ensures Rank(env, Next(env, w, s).attempts[s.id]) < Rank(env, w.attempts[s.id])
  {
    AttemptStepShape(env, w, s);
    if s.RunTest? {
      TestRanksLower(env, w, s.id, s.outcome);
    }
  }

  /** A redelivery grants the crashed attempt's turn once more. */
  lemma RedeliveryCostsOneTurn(regime: Regime, env: Env, w: World, s: Step)
    requires SoleInv(regime, env, w) && Reliable(regime) && Admits(regime, env, w, s) && s.Redeliver?
    ensures Measure(env, Next(env, w, s)) < Measure(env, w) + Turns(env)
  {
    var left: nat := Budget(env) - w.job.attemptsMade - 1;
    ProductIsNat(left, Turns(env));
    assert Measure(env, w) == left * Turns(env);
    assert Measure(env, Next(env, w, s)) == left * Turns(env) + |env.verdicts| + 7;
  }

  function Redeliveries(steps: seq<Step>): nat {
    if steps == [] then 0 else (if steps[0].Redeliver? then 1 else 0) + Redeliveries(steps[1..])
  }

  lemma StepDecreases(regime: Regime, env: Env, w: World, s: Step)
    requires SoleInv(regime, env, w) && Reliable(regime) && Admits(regime, env, w, s)
    ensures if s.Tick? then Measure(env, Next(env, w, s)) == Measure(env, w)
            else Measure(env, Next(env, w, s)) < Measure(env, w) + (if s.Redeliver? then Turns(env) else 0)
  {
    if IsAttemptStep(s) {
      AttemptStepDecreases(regime, env, w, s);
    } else if s.Redeliver? {
      RedeliveryCostsOneTurn(regime, env, w, s);
    } else if s.Enqueue? {
      OneTurnLess(Budget(env), Turns(env));
    } else if s.Deliver? {
      ProductIsNat(Budget(env) - w.job.attemptsMade - 1, Turns(env));
    }
  }

  function Work(steps: seq<Step>): nat {
    if steps == [] then 0 else (if steps[0].Tick? then 0 else 1) + Work(steps[1..])
  }

  lemma {:induction false} WorkIsPaidFor(regime: Regime, env: Env, w: World, steps: seq<Step>)
    requires SoleInv(regime, env, w) && Reliable(regime) && Run(regime, env, w, steps)
    ensures Work(steps) + Measure(env, After(regime, env, w, steps))
            <= Measure(env, w) + Redeliveries(steps) * Turns(env)
    decreases |steps|
  {
    if steps == [] {
    } else {
      StepDecreases(regime, env, w, steps[0]);
      StepKeepsSole(regime, env, w, steps[0]);
      WorkIsPaidFor(regime, env, Next(env, w, steps[0]), steps[1..]);
      if steps[0].Redeliver? {
        OneTurnLess(Redeliveries(steps), Turns(env));
      }
    }
  }

  lemma {:induction false} CrashFreeRunsRedeliverNothing(env: Env, w: World, steps: seq<Step>)
    requires Run(CrashFree, env, w, steps)
    ensures Redeliveries(steps) == 0
    decreases |steps|
  {
    if steps == [] {
    } else {
      CrashFreeRunsRedeliverNothing(env, Next(env, w, steps[0]), steps[1..]);
    }
  }

  /** The world after waiting. */
  function Wait(env: Env, w: World, ms: nat): World {
    Next(env, w, Tick(ms))
  }

  /** The next step of the attempt at work, when nothing fails. */
  lemma AttemptCanMove(regime: Regime, env: Env, w: World, id: nat) returns (s: Step)
    requires SoleInv(regime, env, w) && id in w.attempts && Live(w.attempts[id])
    ensures Enabled(env, w, s) && IsAttemptStep(s) && !s.Throws? && !s.Crash? && !s.SettleAndCrash?
  {
    SoleAttempt(regime, env, w, id);
    assert AttemptOk(env, w.attempts[id]) && AttemptTimesOk(w, w.attempts[id]);
    match w.attempts[id].pc
    case Delivered =>
      var issued := w.attempts[id].issued;
      s := TryClaim(id, issued, issued);
    case Claimed => s := Load(id);
    case Testing => s := RunTest(id, Answers(0));
    case Finishing(_) => s := Finish(id);
    case Saved => s := Stamp(id);
    case Failing(_, _) => s := Settle(id);
  }

  /** While the job has not ended, something other than waiting and failing can happen,
      at once or, after a crash, once the lease has gone stale. */
  lemma SomethingCanHappen(regime: Regime, env: Env, w: World) returns (ms: nat, s: Step)
    requires SoleInv(regime, env, w) && Reliable(regime) && !w.api.Closed? && !JobEnded(w.job)
    ensures Admits(regime, env, Wait(env, w, ms), s) && !s.Tick? && !s.Throws? && !s.Crash?
  {
    ms := 0;
    match w.api
    case Created => s := SaveQueued;
    case Persisted => s := Enqueue;
    case Rejected => s := SaveRejected(true);
    case Enqueued =>
      var newId :| newId !in w.attempts by { FreshId(w.attempts.Keys); }
      if !w.job.state.Active? {
        s := Deliver(newId);
      } else {
        var id := w.job.state.id;
        if Live(w.attempts[id]) {
          s := AttemptCanMove(regime, env, w, id);
          assert Wait(env, w, 0) == w;
        } else {
          ms, s := (if w.claims == [] then 0 else w.claims[|w.claims| - 1].stamp) + env.staleMs + 1,
                   Redeliver(newId, w.job.attemptsMade);
        }
      }
  }

  lemma {:induction false} FreshId(ids: set<nat>)
    ensures exists id: nat :: id !in ids
  {
    var bound := UpperBound(ids);
    assert bound !in ids;
  }

  ghost function UpperBound(ids: set<nat>): (bound: nat)
    ensures forall id :: id in ids ==> id < bound
  {
    if ids == {} then 0
    else
      var id :| id in ids;
      var rest := UpperBound(ids - {id});
      assert forall other :: other in ids ==> other == id || other in ids - {id};
      if id < rest then rest else id + 1
  }

  /** Nothing but waiting is possible, now or later. */
  ghost predicate Quiet(regime: Regime, env: Env, w: World) {
    forall ms: nat, s :: Admits(regime, env, Wait(env, w, ms), s) ==> s.Tick?
  }

  lemma WorkIsBounded(regime: Regime, env: Env, steps: seq<Step>)
    requires Reliable(regime) && Run(regime, env, Init(), steps)
    ensures Work(steps) <= (Budget(env) + Redeliveries(steps)) * Turns(env) + 2
    ensures regime.CrashFree? ==> Work(steps) <= Budget(env) * Turns(env) + 2
  {
    WorkIsPaidFor(regime, env, Init(), steps);
    Distribute(Budget(env), Redeliveries(steps), Turns(env));
    if regime.CrashFree? {
      CrashFreeRunsRedeliverNothing(env, Init(), steps);
    }
  }

  lemma Distribute(a: nat, b: nat, c: nat)
    ensures (a + b) * c == a * c + b * c
  {
  }

  /** At rest the request is over and the job has ended. */
  lemma RestMeansEnded(regime: Regime, env: Env, w: World)
    requires SoleInv(regime, env, w) && Reliable(regime) && Quiet(regime, env, w)
    ensures w.api.Closed? || JobEnded(w.job)
  {
    if !w.api.Closed? && !JobEnded(w.job) {
      var ms, s := SomethingCanHappen(regime, env, w);
    }
  }

  /** Every submission ends within `Budget` regular deliveries: a run takes a bounded
      number of steps besides waiting, plus a bounded number for each redelivery after a
      crash, and when nothing is left to do, an enqueued submission is COMPLETED or
      FAILED unless a stranding step was taken. */
  lemma EverySubmissionEnds(regime: Regime, env: Env, steps: seq<Step>)
    requires Reliable(regime) && Run(regime, env, Init(), steps)
    ensures Work(steps) <= (Budget(env) + Redeliveries(steps)) * Turns(env) + 2
    ensures regime.CrashFree? ==> Work(steps) <= Budget(env) * Turns(env) + 2
    ensures var w := After(regime, env, Init(), steps);
            && w.job.deliveries <= Budget(env)
            && (Quiet(regime, env, w) ==>
                  && (w.api.Closed? || JobEnded(w.job))
                  && (w.api.Enqueued? && !Somewhere(regime, env, Init(), steps, Strands) ==> Terminal(w.doc)))
  {
    WorkIsBounded(regime, env, steps);
    RunKeepsSole(regime, env, Init(), steps);
    LostIffStranded(regime, env, steps);
    if Quiet(regime, env, After(regime, env, Init(), steps)) {
      RestMeansEnded(regime, env, After(regime, env, Init(), steps));
    }
  }
}
