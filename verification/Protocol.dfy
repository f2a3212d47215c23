/** The claim/retry protocol of one submission: its document, its queue job, the API
    call that creates it and any number of worker attempts, as a step machine. */
module Protocol {
  import opened Prelude
  import opened Executor
  import opened Judge

  // ----- The document -----

  datatype Status = PENDING | QUEUED | RUNNING | COMPLETED | FAILED

  datatype Doc = Doc(
    status: Status,
    verdict: Verdict,
    testsPassed: Option<nat>,
    totalTests: Option<nat>,
    runtimeMs: Option<nat>,
    startedAt: Option<nat>,
    execStartedAt: Option<nat>)

  /** The document as `createSubmission` first stores it. */
  function NewDoc(): Doc {
    Doc(PENDING, Verdict.Pending, None, None, None, None, None)
  }

  predicate Terminal(d: Doc) {
    d.status.COMPLETED? || d.status.FAILED?
  }

  /** The comparison `$lt` on a stored date: a missing one never matches. */
  predicate Before(stamp: Option<nat>, cutoff: int) {
    stamp.Some? && stamp.value < cutoff
  }

  /** The worker's claim filter; its cutoff is computed at `issued`. */
  predicate ClaimMatches(d: Doc, issued: nat, staleMs: nat) {
    var cutoff := issued - staleMs;
    || d.status == QUEUED
    || (d.status == RUNNING
        && (Before(d.execStartedAt, cutoff) || (d.execStartedAt == None && Before(d.startedAt, cutoff))))
  }

  /** The two stamps are two readings of the clock. */
  function ClaimDoc(d: Doc, started: nat, stamp: nat): Doc {
    d.(status := RUNNING, startedAt := Some(started), execStartedAt := Some(stamp))
  }

  /** A `save` writes the fields whose value differs from the one that was loaded. */
  function SaveField<T(==)>(stored: T, loaded: T, edited: T): T {
    if edited != loaded then edited else stored
  }

  function MarkedRunning(loaded: Doc, now: nat): Doc {
    loaded.(status := RUNNING, startedAt := if loaded.startedAt.Some? then loaded.startedAt else Some(now))
  }

  function Finished(loaded: Doc, r: Record): Doc {
    loaded.(status := COMPLETED, verdict := r.verdict, testsPassed := Some(r.testsPassed),
            totalTests := Some(r.totalTests), runtimeMs := r.runtimeMs)
  }

  function Save(stored: Doc, loaded: Doc, edited: Doc): Doc {
    Doc(SaveField(stored.status, loaded.status, edited.status),
        SaveField(stored.verdict, loaded.verdict, edited.verdict),
        SaveField(stored.testsPassed, loaded.testsPassed, edited.testsPassed),
        SaveField(stored.totalTests, loaded.totalTests, edited.totalTests),
        SaveField(stored.runtimeMs, loaded.runtimeMs, edited.runtimeMs),
        SaveField(stored.startedAt, loaded.startedAt, edited.startedAt),
        SaveField(stored.execStartedAt, loaded.execStartedAt, edited.execStartedAt))
  }

  function FailDoc(d: Doc): Doc {
    d.(status := FAILED)
  }

  /** The guarded release: it only touches a RUNNING document. */
  function ReleaseDoc(d: Doc): Doc {
    if d.status == RUNNING then d.(status := QUEUED) else d
  }

  // ----- Attempts, the job, the API call -----

  datatype Pc =
    | Delivered                            // the claim filter is built
    | Claimed                              // findOneAndUpdate matched
    | Marking                              // loaded, but not as RUNNING
    | Testing                              // in the judging loop
    | Finishing(record: Record)            // about to save the result
    | Saved                                // result saved, completedAt stamp pending
    | Failing(fault: Fault, saved: bool)   // in the catch block
    | Acked                                // processSubmission returned
    | Rethrown                             // processSubmission threw
    | Crashed

  /** One call of `processSubmission`: when it computed its cutoff, and the stamp it put
      on the document when it claimed it. */
  datatype Attempt = Attempt(
    issued: nat,
    stamp: nat,
    attemptsMade: nat,
    pc: Pc,
    loaded: Doc,
    progress: Progress)

  predicate Live(a: Attempt) {
    !(a.pc.Acked? || a.pc.Rethrown? || a.pc.Crashed?)
  }

  /** Has claimed the submission and not ended. */
  predicate Executing(a: Attempt) {
    Live(a) && !a.pc.Delivered?
  }

  datatype JobState = Absent | Waiting | Delayed | Active(id: nat) | JobCompleted | JobFailed

  /** `deliveries` counts the regular ones, not the duplicates. */
  datatype Job = Job(state: JobState, attemptsMade: nat, deliveries: nat)

  predicate JobEnded(j: Job) {
    j.state.JobCompleted? || j.state.JobFailed?
  }

  /** Where `createSubmission` is. */
  datatype Api = Created | Persisted | Enqueued | Rejected | Closed

  /** A successful claim: by whom, its readings of the clock, when it took effect, and
      whether the document was RUNNING before. */
  datatype Claim = Claim(id: nat, issued: nat, started: nat, stamp: nat, at: nat, stolen: bool)

  /** `attempts` is the job option; `verdicts` are the fixed verdicts of the tests. */
  datatype Env = Env(staleMs: nat, attempts: nat, verdicts: seq<Verdict>)

  /** The number of attempts a job grants: one even when the option is 0. */
  function Budget(env: Env): nat {
    if env.attempts != 0 then env.attempts else 1
  }

  datatype World = World(
    clock: nat,
    doc: Doc,
    queuedAt: nat,
    api: Api,
    job: Job,
    attempts: map<nat, Attempt>,
    claims: seq<Claim>,
    releases: nat)

  function Init(): World {
    World(0, NewDoc(), 0, Created, Job(Absent, 0, 0), map[], [], 0)
  }

  /** The attempt that claimed last. */
  predicate Holds(w: World, id: nat) {
    w.claims != [] && w.claims[|w.claims| - 1].id == id
  }

  // ----- Steps -----

  datatype Outcome = Answers(runtimeMs: nat) | Raises(fault: Fault)

  datatype Step =
    | Tick(ms: nat)
    | SaveQueued
    | SaveQueuedFails
    | Enqueue
    | EnqueueFails
    | SaveRejected(ok: bool)
    | Deliver(id: nat)
    | Redeliver(id: nat, attemptsMade: nat)  // duplicate or stalled delivery
    | TryClaim(id: nat, started: nat, stamp: nat)
    | Load(id: nat)
    | MarkRunning(id: nat)
    | RunTest(id: nat, outcome: Outcome)
    | Finish(id: nat)
    | Stamp(id: nat)
    | Settle(id: nat)
    | SettleAndCrash(id: nat)                // the worker dies after its last update
    | Throws(id: nat)                        // the pending database operation fails
    | Crash(id: nat)

  predicate At(w: World, id: nat, pc: Pc) {
    id in w.attempts && w.attempts[id].pc == pc
  }

  predicate CanThrow(pc: Pc) {
    pc.Delivered? || pc.Claimed? || pc.Marking? || pc.Finishing? || pc.Saved? || pc.Failing?
  }

  predicate Enabled(env: Env, w: World, s: Step) {
    match s
    case Tick(_) => true
    case SaveQueued => w.api.Created?
    case SaveQueuedFails => w.api.Created?
    case Enqueue => w.api.Persisted?
    case EnqueueFails => w.api.Persisted?
    case SaveRejected(_) => w.api.Rejected?
    case Deliver(id) => id !in w.attempts && (w.job.state.Waiting? || w.job.state.Delayed?)
    case Redeliver(id, _) => id !in w.attempts && !w.job.state.Absent?
    case TryClaim(id, started, stamp) =>
      At(w, id, Delivered) && w.attempts[id].issued <= started <= stamp <= w.clock
    case Load(id) => At(w, id, Claimed)
    case MarkRunning(id) => At(w, id, Marking)
    case RunTest(id, _) => At(w, id, Testing) && w.attempts[id].progress.i < |env.verdicts|
    case Finish(id) => id in w.attempts && w.attempts[id].pc.Finishing?
    case Stamp(id) => At(w, id, Saved)
    case Settle(id) => id in w.attempts && w.attempts[id].pc.Failing?
    case SettleAndCrash(id) => id in w.attempts && w.attempts[id].pc.Failing?
    case Throws(id) => id in w.attempts && CanThrow(w.attempts[id].pc)
    case Crash(id) => id in w.attempts && Live(w.attempts[id])
  }

  /** The worker's view of the retry budget. */
  predicate HasRetries(env: Env, a: Attempt) {
    a.attemptsMade + 1 < Budget(env)
  }

  /** The catch block will not leave the submission to another attempt. */
  predicate GivesUp(env: Env, a: Attempt) {
    a.pc.Failing? && (a.pc.fault == NonRetryable || !HasRetries(env, a))
  }

  /** The queue's reaction when the attempt that holds the job returns or throws. */
  function EndJob(env: Env, j: Job, id: nat, pc: Pc): Job {
    if j.state != Active(id) then j
    else if pc.Acked? then j.(state := JobCompleted)
    else if j.attemptsMade + 1 < env.attempts
    then j.(state := Delayed, attemptsMade := j.attemptsMade + 1)
    else j.(state := JobFailed, attemptsMade := j.attemptsMade + 1)
  }

  function Put(w: World, id: nat, a: Attempt): World {
    w.(attempts := w.attempts[id := a])
  }

  function Goto(w: World, id: nat, pc: Pc): World
    requires id in w.attempts
  {
    Put(w, id, w.attempts[id].(pc := pc))
  }

  function End(env: Env, w: World, id: nat, pc: Pc): World
    requires id in w.attempts
  {
    Goto(w, id, pc).(job := EndJob(env, w.job, id, pc))
  }

  function NewAttempt(issued: nat, attemptsMade: nat): Attempt {
    Attempt(issued, issued, attemptsMade, Delivered, NewDoc(), Start())
  }

  function Dispatch(w: World, id: nat, attemptsMade: nat, regular: nat): World {
    Put(w, id, NewAttempt(w.clock, attemptsMade))
    .(job := w.job.(state := Active(id), deliveries := w.job.deliveries + regular))
  }

  /** What a claim that matches records. */
  function Taken(w: World, id: nat, started: nat, stamp: nat): Claim
    requires id in w.attempts
  {
    Claim(id, w.attempts[id].issued, started, stamp, w.clock, w.doc.status == RUNNING)
  }

  function NextClaim(env: Env, w: World, id: nat, started: nat, stamp: nat): World
    requires id in w.attempts
  {
    var a := w.attempts[id];
    if ClaimMatches(w.doc, a.issued, env.staleMs) then
      Put(w, id, a.(pc := Claimed, stamp := stamp))
      .(doc := ClaimDoc(w.doc, started, stamp), claims := w.claims + [Taken(w, id, started, stamp)])
    else End(env, w, id, Acked)
  }

  function NextLoad(env: Env, w: World, id: nat): World
    requires id in w.attempts
  {
    var pc :=
      if env.verdicts == [] then Failing(NonRetryable, false)
      else if w.doc.status != RUNNING then Marking
      else Testing;
    Put(w, id, w.attempts[id].(pc := pc, loaded := w.doc, progress := Start()))
  }

  function NextMark(w: World, id: nat): World
    requires id in w.attempts
  {
    var a := w.attempts[id];
    var marked := MarkedRunning(a.loaded, w.clock);
    Put(w, id, a.(pc := Testing, loaded := marked)).(doc := Save(w.doc, a.loaded, marked))
  }

  function ResultOf(v: Verdict, runtimeMs: nat): ExecResult {
    ExecResult(v, if v == CompilationError then None else Some(runtimeMs))
  }

  function NextTest(env: Env, w: World, id: nat, outcome: Outcome): World
    requires id in w.attempts && w.attempts[id].progress.i < |env.verdicts|
  {
    var a := w.attempts[id];
    match outcome
    case Raises(fault) => Goto(w, id, Failing(fault, false))
    case Answers(ms) =>
      match TakeTurn(a.progress, |env.verdicts|, ResultOf(env.verdicts[a.progress.i], ms))
      case More(p) => Put(w, id, a.(progress := p))
      case Leave(record) => Goto(w, id, Finishing(record))
  }

  function NextFinish(w: World, id: nat): World
    requires id in w.attempts && w.attempts[id].pc.Finishing?
  {
    var a := w.attempts[id];
    Goto(w, id, Saved).(doc := Save(w.doc, a.loaded, Finished(a.loaded, a.pc.record)))
  }

  /** The update of the catch block. */
  function SettledDoc(env: Env, d: Doc, a: Attempt): Doc {
    if GivesUp(env, a) then FailDoc(d) else ReleaseDoc(d)
  }

  function SettleDoc(env: Env, w: World, id: nat): World
    requires id in w.attempts
  {
    var a := w.attempts[id];
    w.(doc := SettledDoc(env, w.doc, a),
       releases := if !GivesUp(env, a) && w.doc.status == RUNNING then w.releases + 1 else w.releases)
  }

  function NextSettle(env: Env, w: World, id: nat): World
    requires id in w.attempts && w.attempts[id].pc.Failing?
  {
    var pc := if w.attempts[id].pc.fault == NonRetryable then Acked else Rethrown;
    End(env, SettleDoc(env, w, id), id, pc)
  }

  function NextThrow(env: Env, w: World, id: nat): World
    requires id in w.attempts && CanThrow(w.attempts[id].pc)
  {
    match w.attempts[id].pc
    case Delivered => End(env, w, id, Rethrown)
    case Failing(_, _) => End(env, w, id, Rethrown)
    case Saved => Goto(w, id, Failing(Retryable, true))
    case _ => Goto(w, id, Failing(Retryable, false))
  }

  function Next(env: Env, w: World, s: Step): World
    requires Enabled(env, w, s)
  {
    match s
    case Tick(ms) => w.(clock := w.clock + ms)
    case SaveQueued => w.(api := Persisted, doc := w.doc.(status := QUEUED), queuedAt := w.clock)
    case SaveQueuedFails => w.(api := Closed)
    case Enqueue => w.(api := Enqueued, job := w.job.(state := Waiting))
    case EnqueueFails => w.(api := Rejected)
    case SaveRejected(ok) => w.(api := Closed, doc := if ok then FailDoc(w.doc) else w.doc)
    case Deliver(id) => Dispatch(w, id, w.job.attemptsMade, 1)
    case Redeliver(id, attemptsMade) => Dispatch(w, id, attemptsMade, 0)
    case TryClaim(id, started, stamp) => NextClaim(env, w, id, started, stamp)
    case Load(id) => NextLoad(env, w, id)
    case MarkRunning(id) => NextMark(w, id)
    case RunTest(id, outcome) => NextTest(env, w, id, outcome)
    case Finish(id) => NextFinish(w, id)
    case Stamp(id) => End(env, w, id, Acked)
    case Settle(id) => NextSettle(env, w, id)
    case SettleAndCrash(id) => Goto(SettleDoc(env, w, id), id, Crashed)
    case Throws(id) => NextThrow(env, w, id)
    case Crash(id) => Goto(w, id, Crashed)
  }

  // ----- The shape of a step -----

  predicate IsApiStep(s: Step) {
    s.SaveQueued? || s.SaveQueuedFails? || s.Enqueue? || s.EnqueueFails? || s.SaveRejected?
  }

  predicate IsDispatch(s: Step) {
    s.Deliver? || s.Redeliver?
  }

  /** A step of an existing attempt. */
  predicate IsAttemptStep(s: Step) {
    !s.Tick? && !IsApiStep(s) && !IsDispatch(s)
  }

  /** A step of an attempt that leaves document and claims alone. */
  predicate IsLocalStep(s: Step) {
    s.Load? || s.RunTest? || s.Stamp? || s.Throws? || s.Crash?
  }

  predicate IsSettlement(s: Step) {
    s.Settle? || s.SettleAndCrash?
  }

  /** The writes of an attempt that do not check who owns the submission. */
  predicate IsUnownedWrite(s: Step) {
    s.MarkRunning? || s.Finish? || IsSettlement(s)
  }

  /** Only attempt `id` moves, and it keeps its place in the retry budget. */
  predicate Moves(w: World, w': World, id: nat) {
    && id in w.attempts && Live(w.attempts[id])
    && id in w'.attempts
    && w'.attempts == w.attempts[id := w'.attempts[id]]
    && w'.attempts[id].issued == w.attempts[id].issued
    && w'.attempts[id].attemptsMade == w.attempts[id].attemptsMade
    && w'.clock == w.clock && w'.queuedAt == w.queuedAt && w'.api == w.api
    && (w'.job.state.Absent? <==> w.job.state.Absent?)
  }

  /** It does not claim, either. */
  predicate MovesUnclaimed(w: World, w': World, id: nat) {
    && Moves(w, w', id)
    && w'.claims == w.claims
    && w'.doc.startedAt == w.doc.startedAt && w'.doc.execStartedAt == w.doc.execStartedAt
    && w'.attempts[id].stamp == w.attempts[id].stamp
    && (Executing(w'.attempts[id]) ==> Executing(w.attempts[id]))
  }

  lemma LocalStepShape(env: Env, w: World, s: Step)
    requires Enabled(env, w, s) && IsLocalStep(s)
    ensures MovesUnclaimed(w, Next(env, w, s), s.id)
    ensures Next(env, w, s).doc == w.doc && Next(env, w, s).releases == w.releases
  {
  }

  /** The marks and the final save: `startedAt` may be filled in, if it was missing. */
  lemma SaveShape(env: Env, w: World, s: Step)
    requires Enabled(env, w, s) && (s.MarkRunning? || s.Finish?)
    requires w.attempts[s.id].pc.Marking? ==> w.attempts[s.id].loaded.startedAt.Some?
    ensures MovesUnclaimed(w, Next(env, w, s), s.id)
    ensures Next(env, w, s).releases == w.releases && Next(env, w, s).job == w.job
  {
  }

  lemma SettlementShape(env: Env, w: World, s: Step)
    requires Enabled(env, w, s) && IsSettlement(s)
    ensures MovesUnclaimed(w, Next(env, w, s), s.id)
    ensures Next(env, w, s).doc == SettledDoc(env, w.doc, w.attempts[s.id])
    ensures !Live(Next(env, w, s).attempts[s.id])
  {
  }

  lemma ClaimShape(env: Env, w: World, s: Step)
    requires Enabled(env, w, s) && s.TryClaim?
    ensures Moves(w, Next(env, w, s), s.id)
  {
  }

  lemma AttemptStepShape(env: Env, w: World, s: Step)
    requires Enabled(env, w, s) && IsAttemptStep(s)
    ensures Moves(w, Next(env, w, s), s.id)
  {
    if IsLocalStep(s) {
      LocalStepShape(env, w, s);
    } else if IsSettlement(s) {
      SettlementShape(env, w, s);
    }
  }

  // ----- Runs -----

  /** The lease of an attempt ends `staleMs` after its stamp. */
  predicate InLease(env: Env, w: World, a: Attempt) {
    w.clock <= a.stamp + env.staleMs
  }

  /** A redelivery after a crash: with the attempt number of the job, and once the lease
      of a RUNNING submission has gone stale. */
  predicate Recovers(env: Env, w: World, attemptsMade: nat) {
    && w.job.state.Active? && At(w, w.job.state.id, Crashed)
    && attemptsMade == w.job.attemptsMade
    && (w.doc.status == RUNNING && w.claims != [] ==>
          w.claims[|w.claims| - 1].stamp + env.staleMs < w.clock)
  }

  /** Which steps a run may take. In a timely run no attempt makes an unowned write
      after its lease. In a crash-free run every attempt returns or throws, and the
      queue delivers no job twice. In a recovering run the queue delivers a job again
      only after a crash, and late enough. */
  datatype Regime = Free | Timely | CrashFree | Recovering

  predicate Admits(regime: Regime, env: Env, w: World, s: Step) {
    && Enabled(env, w, s)
    && match regime
       case Free => true
       case Timely => IsUnownedWrite(s) ==> InLease(env, w, w.attempts[s.id])
       case CrashFree => !s.Crash? && !s.SettleAndCrash? && !s.Redeliver?
       case Recovering => s.Redeliver? ==> Recovers(env, w, s.attemptsMade)
  }

  predicate Run(regime: Regime, env: Env, w: World, steps: seq<Step>)
    decreases |steps|
  {
    steps == [] || (Admits(regime, env, w, steps[0]) && Run(regime, env, Next(env, w, steps[0]), steps[1..]))
  }

  function After(regime: Regime, env: Env, w: World, steps: seq<Step>): World
    requires Run(regime, env, w, steps)
    decreases |steps|
  {
    if steps == [] then w else After(regime, env, Next(env, w, steps[0]), steps[1..])
  }

  /** Some step of the run is a `p` step. */
  predicate Somewhere(regime: Regime, env: Env, w: World, steps: seq<Step>, p: (Env, World, Step) -> bool)
    requires Run(regime, env, w, steps)
    decreases |steps|
  {
    steps != [] && (p(env, w, steps[0]) || Somewhere(regime, env, Next(env, w, steps[0]), steps[1..], p))
  }

  lemma {:induction false} RunConcat(regime: Regime, env: Env, w: World, steps: seq<Step>, more: seq<Step>)
    requires Run(regime, env, w, steps)
    requires Run(regime, env, After(regime, env, w, steps), more)
    ensures Run(regime, env, w, steps + more)
    ensures After(regime, env, w, steps + more) == After(regime, env, After(regime, env, w, steps), more)
    decreases |steps|
  {
    if steps == [] {
      assert steps + more == more;
    } else {
      assert (steps + more)[1..] == steps[1..] + more;
      RunConcat(regime, env, Next(env, w, steps[0]), steps[1..], more);
    }
  }

  lemma RunSnoc(regime: Regime, env: Env, w: World, steps: seq<Step>, s: Step)
    requires Run(regime, env, w, steps)
    requires Admits(regime, env, After(regime, env, w, steps), s)
    ensures Run(regime, env, w, steps + [s])
    ensures After(regime, env, w, steps + [s]) == Next(env, After(regime, env, w, steps), s)
  {
    RunConcat(regime, env, w, steps, [s]);
  }
}
