/** How often a submission can be claimed. Holds in every run, late workers included. */
module Lease {
  import opened Protocol
  import opened Safety

  /** How many of the first `n` claims took the submission from RUNNING. */
  function StolenUpTo(claims: seq<Claim>, n: nat): (k: nat)
    requires n <= |claims|
    ensures k <= n
  {
    if n == 0 then 0 else StolenUpTo(claims, n - 1) + (if claims[n - 1].stolen then 1 else 0)
  }

  function Stolen(claims: seq<Claim>): nat {
    StolenUpTo(claims, |claims|)
  }

  /** A claim from RUNNING was issued more than `staleMs` after the stamp of the one before. */
  predicate Spaced(env: Env, claims: seq<Claim>) {
    && (claims != [] ==> !claims[0].stolen)
    && (forall i :: 0 < i < |claims| && claims[i].stolen ==> claims[i - 1].stamp + env.staleMs < claims[i].issued)
  }

  /** The readings of a claim come in order, and none before the submission was queued. */
  predicate TimedOk(w: World, c: Claim) {
    w.queuedAt <= c.issued <= c.started <= c.stamp <= c.at <= w.clock
  }

  /** Claims take effect in order. */
  predicate Ordered(w: World) {
    && (forall i :: 0 <= i < |w.claims| ==> TimedOk(w, w.claims[i]))
    && (forall i :: 0 < i < |w.claims| ==> w.claims[i - 1].at <= w.claims[i].at)
  }

  /** Each claim from QUEUED uses up the initial queueing or one release. */
  predicate Budgeted(w: World) {
    |w.claims| - Stolen(w.claims) + (if w.doc.status == QUEUED then 1 else 0) <= 1 + w.releases
  }

  predicate ClaimsOk(env: Env, w: World) {
    Basics(w) && Spaced(env, w.claims) && Ordered(w) && Budgeted(w)
  }

  lemma {:induction false} StolenOfPrefix(claims: seq<Claim>, c: Claim, n: nat)
    requires n <= |claims|
    ensures StolenUpTo(claims + [c], n) == StolenUpTo(claims, n)
  {
    if n == 0 {
    } else {
      StolenOfPrefix(claims, c, n - 1);
    }
  }

  lemma SpacedSnoc(env: Env, claims: seq<Claim>, c: Claim)
    requires Spaced(env, claims)
    requires c.stolen ==> claims != [] && claims[|claims| - 1].stamp + env.staleMs < c.issued
    ensures Spaced(env, claims + [c])
  {
  }

  lemma OrderedSnoc(w: World, c: Claim)
    requires Ordered(w) && TimedOk(w, c) && c.at == w.clock
    ensures Ordered(w.(claims := w.claims + [c]))
  {
    var w' := w.(claims := w.claims + [c]);
    forall i | 0 <= i < |w'.claims| ensures TimedOk(w', w'.claims[i]) {
      if i < |w.claims| {
        assert TimedOk(w, w.claims[i]);
      }
    }
    forall i | 0 < i < |w'.claims| ensures w'.claims[i - 1].at <= w'.claims[i].at {
      assert TimedOk(w, w.claims[i - 1]);
    }
  }

  lemma ClaimKeepsClaims(env: Env, w: World, s: Step)
    requires ClaimsOk(env, w) && Enabled(env, w, s) && s.TryClaim?
    ensures var w' := Next(env, w, s); Spaced(env, w'.claims) && Ordered(w') && Budgeted(w')
  {
    var w' := Next(env, w, s);
    var a := w.attempts[s.id];
    assert AttemptTimesOk(w, a);
    if ClaimMatches(w.doc, a.issued, env.staleMs) {
      var c := Taken(w, s.id, s.started, s.stamp);
      SpacedSnoc(env, w.claims, c);
      OrderedSnoc(w, c);
      StolenOfPrefix(w.claims, c, |w.claims|);
      assert w'.claims == w.claims + [c];
      SameTimes(w.(claims := w'.claims), w');
    } else {
      assert w'.claims == w.claims;
      SameTimes(w, w');
    }
  }

  lemma SameTimes(w: World, w': World)
    requires Ordered(w) && w'.claims == w.claims && w'.clock >= w.clock && w'.queuedAt == w.queuedAt
    ensures Ordered(w')
  {
    forall i | 0 <= i < |w.claims| ensures TimedOk(w', w.claims[i]) {
      assert TimedOk(w, w.claims[i]);
    }
  }

  lemma UnownedWriteKeepsBudget(env: Env, w: World, s: Step)
    requires ClaimsOk(env, w) && Enabled(env, w, s) && IsUnownedWrite(s)
    ensures var w' := Next(env, w, s); MovesUnclaimed(w, w', s.id) && Budgeted(w')
  {
    MarkingHasStart(w, s.id);
    if IsSettlement(s) {
      SettlementShape(env, w, s);
    } else {
      SaveShape(env, w, s);
    }
  }

  lemma OtherStepKeepsClaims(env: Env, w: World, s: Step)
    requires ClaimsOk(env, w) && Enabled(env, w, s) && !s.TryClaim?
    ensures var w' := Next(env, w, s); Spaced(env, w'.claims) && Ordered(w') && Budgeted(w')
  {
    var w' := Next(env, w, s);
    if IsUnownedWrite(s) {
      UnownedWriteKeepsBudget(env, w, s);
    } else if IsLocalStep(s) {
      LocalStepShape(env, w, s);
    }
    if w.claims != [] {
      SameTimes(w, w');
    }
  }

  lemma StepKeepsClaims(env: Env, w: World, s: Step)
    requires ClaimsOk(env, w) && Enabled(env, w, s)
    ensures ClaimsOk(env, Next(env, w, s))
  {
    StepKeepsBasics(env, w, s);
    if s.TryClaim? {
      ClaimKeepsClaims(env, w, s);
    } else {
      OtherStepKeepsClaims(env, w, s);
    }
  }

  lemma {:induction false} RunKeepsClaims(regime: Regime, env: Env, w: World, steps: seq<Step>)
    requires ClaimsOk(env, w) && Run(regime, env, w, steps)
    ensures ClaimsOk(env, After(regime, env, w, steps))
    decreases |steps|
  {
    if steps == [] {
    } else {
      StepKeepsClaims(env, w, steps[0]);
      RunKeepsClaims(regime, env, Next(env, w, steps[0]), steps[1..]);
    }
  }

  /** A claim on a RUNNING submission is issued more than `staleMs` after the last stamp. */
  lemma ClaimsAreSpaced(regime: Regime, env: Env, steps: seq<Step>)
    requires Run(regime, env, Init(), steps)
    ensures Spaced(env, After(regime, env, Init(), steps).claims)
  {
    RunKeepsClaims(regime, env, Init(), steps);
  }

  // ----- The number of claims -----

  /** How far the stamps of the first `n` claims go back in time, from one to the next. */
  function BackslideUpTo(claims: seq<Claim>, n: nat): nat
    requires n <= |claims|
  {
    if n <= 1 then 0
    else
      var before, stamp := claims[n - 2].stamp, claims[n - 1].stamp;
      BackslideUpTo(claims, n - 1) + (if stamp < before then before - stamp else 0)
  }

  function Backslide(claims: seq<Claim>): nat {
    BackslideUpTo(claims, |claims|)
  }

  /** Stolen claims pay for themselves with elapsed time. */
  lemma {:induction false} StolenClaimsTakeTime(env: Env, w: World, n: nat)
    requires 0 < n <= |w.claims|
    requires Spaced(env, w.claims) && Ordered(w)
    ensures StolenUpTo(w.claims, n) * env.staleMs
            <= w.claims[n - 1].stamp - w.queuedAt + BackslideUpTo(w.claims, n)
    decreases n
  {
    assert TimedOk(w, w.claims[n - 1]);
    if n == 1 {
      assert !w.claims[0].stolen && StolenUpTo(w.claims, 0) == 0;
    } else {
      StolenClaimsTakeTime(env, w, n - 1);
      OneMore(StolenUpTo(w.claims, n - 1), env.staleMs);
    }
  }

  lemma OneMore(k: nat, a: nat)
    ensures (k + 1) * a == k * a + a
  {
  }

  lemma MultiplyBounds(k: int, a: int, b: nat)
    requires k <= a
    ensures k * b <= a * b
  {
  }

  lemma DivideBound(k: int, b: nat, c: int)
    requires b > 0 && k * b <= c
    ensures k <= c / b
  {
    if c / b < k {
      MultiplyBounds(c / b + 1, k, b);
    }
  }

  lemma DivideMonotone(c: int, d: int, b: nat)
    requires b > 0 && c <= d
    ensures c / b <= d / b
  {
    DivideBound(c / b, b, d);
  }

  /** In every run, over the time since a submission was queued and with `releases`
      returns to QUEUED, there are at most 1 + releases + (time + backslide) / staleMs
      claims, where the backslide is the time by which stamps go back. */
  lemma ClaimBound(regime: Regime, env: Env, steps: seq<Step>)
    requires Run(regime, env, Init(), steps)
    requires env.staleMs > 0
    ensures var w := After(regime, env, Init(), steps);
            |w.claims| <= 1 + w.releases + (w.clock - w.queuedAt + Backslide(w.claims)) / env.staleMs
  {
    RunKeepsClaims(regime, env, Init(), steps);
    var w := After(regime, env, Init(), steps);
    var n := |w.claims|;
    if n == 0 {
      DivideBound(0, env.staleMs, w.clock - w.queuedAt);
    } else {
      assert TimedOk(w, w.claims[n - 1]);
      StolenClaimsTakeTime(env, w, n);
      DivideBound(Stolen(w.claims), env.staleMs, w.clock - w.queuedAt + Backslide(w.claims));
    }
  }

  /** A claim from QUEUED that is not the first. */
  predicate Requeued(claims: seq<Claim>, i: int) {
    0 < i < |claims| && !claims[i].stolen
  }

  /** Every requeued claim takes effect at most `delayMs` after its stamp was read. */
  ghost predicate Prompt(claims: seq<Claim>, delayMs: nat) {
    forall i :: Requeued(claims, i) ==> claims[i].at <= claims[i].stamp + delayMs
  }

  lemma {:induction false} FirstIsNotStolen(claims: seq<Claim>, n: nat)
    requires 0 < n <= |claims| && !claims[0].stolen
    ensures StolenUpTo(claims, n) <= n - 1
    decreases n
  {
    if n == 1 {
      assert StolenUpTo(claims, 0) == 0;
    } else {
      FirstIsNotStolen(claims, n - 1);
    }
  }

  /** Stamps go back at requeued claims only, and there by no more than their delay. */
  lemma {:induction false} BackslideBound(env: Env, w: World, n: nat, delayMs: nat)
    requires 0 < n <= |w.claims|
    requires Spaced(env, w.claims) && Ordered(w) && Prompt(w.claims, delayMs)
    ensures BackslideUpTo(w.claims, n) <= (n - 1 - StolenUpTo(w.claims, n)) * delayMs
    decreases n
  {
    if n == 1 {
      assert !w.claims[0].stolen && StolenUpTo(w.claims, 0) == 0;
    } else {
      BackslideBound(env, w, n - 1, delayMs);
      assert TimedOk(w, w.claims[n - 2]) && TimedOk(w, w.claims[n - 1]);
      if !w.claims[n - 1].stolen {
        assert Requeued(w.claims, n - 1);
        FirstIsNotStolen(w.claims, n - 1);
        OneMore(n - 2 - StolenUpTo(w.claims, n - 1), delayMs);
      }
    }
  }

  /** When requeued claims take effect within `delayMs`, only they can make stamps go
      back: 1 + releases + (time + releases * delayMs) / staleMs claims. */
  lemma ClaimBoundWithDelay(regime: Regime, env: Env, steps: seq<Step>, delayMs: nat)
    requires Run(regime, env, Init(), steps)
    requires env.staleMs > 0
    requires Prompt(After(regime, env, Init(), steps).claims, delayMs)
    ensures var w := After(regime, env, Init(), steps);
            |w.claims| <= 1 + w.releases + (w.clock - w.queuedAt + w.releases * delayMs) / env.staleMs
  {
    RunKeepsClaims(regime, env, Init(), steps);
    ClaimBound(regime, env, steps);
    var w := After(regime, env, Init(), steps);
    var n := |w.claims|;
    MultiplyBounds(0, w.releases, delayMs);
    if n > 0 {
      BackslideBound(env, w, n, delayMs);
      MultiplyBounds(n - 1 - Stolen(w.claims), w.releases, delayMs);
    }
    DivideMonotone(w.clock - w.queuedAt + Backslide(w.claims),
                   w.clock - w.queuedAt + w.releases * delayMs, env.staleMs);
  }

  /** No requeued claim is stamped before the claim that it follows. */
  ghost predicate RequeuedInOrder(claims: seq<Claim>) {
    forall i :: Requeued(claims, i) ==> claims[i - 1].stamp <= claims[i].stamp
  }

  lemma {:induction false} NoBackslide(env: Env, w: World, n: nat)
    requires n <= |w.claims|
    requires Spaced(env, w.claims) && Ordered(w) && RequeuedInOrder(w.claims)
    ensures BackslideUpTo(w.claims, n) == 0
  {
    if n <= 1 {
    } else {
      NoBackslide(env, w, n - 1);
      assert TimedOk(w, w.claims[n - 1]);
      assert !w.claims[n - 1].stolen ==> Requeued(w.claims, n - 1);
    }
  }

  lemma {:induction false} StolenAllButRequeued(claims: seq<Claim>, n: nat, i: nat)
    requires n <= |claims| && i < n && !claims[i].stolen
    requires 0 < i && !claims[0].stolen
    ensures StolenUpTo(claims, n) <= n - 2
    decreases n
  {
    if n == i + 1 {
      FirstIsNotStolen(claims, i);
    } else {
      StolenAllButRequeued(claims, n - 1, i);
    }
  }

  /** The bound 1 + releases + time / staleMs holds when the requeued claims are stamped
      in order; in particular, whatever the delays, in every run without a release. */
  lemma ClaimBoundInOrder(regime: Regime, env: Env, steps: seq<Step>)
    requires Run(regime, env, Init(), steps)
    requires env.staleMs > 0
    ensures var w := After(regime, env, Init(), steps);
            (w.releases == 0 || RequeuedInOrder(w.claims)) ==>
              |w.claims| <= 1 + w.releases + (w.clock - w.queuedAt) / env.staleMs
  {
    RunKeepsClaims(regime, env, Init(), steps);
    ClaimBound(regime, env, steps);
    var w := After(regime, env, Init(), steps);
    if w.releases == 0 {
      forall i | Requeued(w.claims, i) ensures false {
        StolenAllButRequeued(w.claims, |w.claims|, i);
      }
    }
    if RequeuedInOrder(w.claims) {
      NoBackslide(env, w, |w.claims|);
    }
  }
}
