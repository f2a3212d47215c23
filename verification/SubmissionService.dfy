/** The queue module and `createSubmission`. */
module SubmissionService {
  import opened Prelude
  import opened Protocol
  import OutputEvaluator
  import Readiness

  const ATTEMPTS := 3

  datatype QueuedJob = QueuedJob(submissionId: string, attempts: nat)

  function TrimStart(s: string): string {
    if s != "" && OutputEvaluator.IsBlank(s[0]) then TrimStart(s[1..]) else s
  }

  /** `trim` on a string. */
  function Trim(s: string): string {
    OutputEvaluator.TrimEnd(TrimStart(s))
  }

  /** `trim` takes white space from both ends, and nothing else. */
  ghost predicate Trims(s: string, trimmed: string) {
    exists i, j ::
      && 0 <= i <= j <= |s| && trimmed == s[i..j]
      && (forall k :: 0 <= k < i || j <= k < |s| ==> OutputEvaluator.IsSpaceCode(s[k] as int))
      && (i < j ==> !OutputEvaluator.IsSpaceCode(s[i] as int) && !OutputEvaluator.IsSpaceCode(s[j - 1] as int))
  }

  lemma {:induction false} TrimStartMeans(s: string) returns (i: nat)
    ensures i <= |s| && TrimStart(s) == s[i..]
    ensures forall k :: 0 <= k < i ==> OutputEvaluator.IsSpaceCode(s[k] as int)
    ensures i < |s| ==> !OutputEvaluator.IsSpaceCode(s[i] as int)
  {
    if s != "" && OutputEvaluator.IsBlank(s[0]) {
      i := TrimStartMeans(s[1..]);
      i := i + 1;
    } else {
      i := 0;
    }
  }

  lemma TrimMeans(s: string)
    ensures Trims(s, Trim(s))
  {
    var i := TrimStartMeans(s);
    var rest := TrimStart(s);
    OutputEvaluator.TrimEndIsPrefix(rest);
    var j := i + |OutputEvaluator.TrimEnd(rest)|;
    assert Trim(s) == s[i..j];
    forall k | 0 <= k < i || j <= k < |s| ensures OutputEvaluator.IsSpaceCode(s[k] as int) {
      if j <= k {
        assert OutputEvaluator.IsBlank(rest[k - i]);
      }
    }
  }

  /** The queue as its producer sees it: jobs by job id. */
  class SubmissionQueue {
    var jobs: map<string, QueuedJob>

    constructor ()
      ensures jobs == map[]
    {
      jobs := map[];
    }

    /** The job id is the submission id, so a submission has one job at most, and a
        second call leaves the first job alone. */
    method EnqueueSubmission(submissionId: string, reachable: bool) returns (ok: bool)
      modifies this
      ensures ok <==> Trim(submissionId) != "" && reachable
      ensures !ok ==> jobs == old(jobs)
      ensures ok ==> Trim(submissionId) in jobs
                     && jobs.Keys == old(jobs.Keys) + {Trim(submissionId)}
      ensures forall id :: id in old(jobs) ==> id in jobs && jobs[id] == old(jobs[id])
      ensures ok && Trim(submissionId) !in old(jobs) ==>
                jobs[Trim(submissionId)] == QueuedJob(Trim(submissionId), 3)
    {
      var sanitizedId := Trim(submissionId);
      if sanitizedId == "" || !reachable {
        return false;
      }
      if sanitizedId !in jobs {
        jobs := jobs[sanitizedId := QueuedJob(sanitizedId, ATTEMPTS)];
      }
      ok := true;
    }
  }

  /** The problem that a request names. */
  datatype Problem = Missing | Inactive | Active

  /** `Broken`: the error of the database is passed on. */
  datatype Reply = Queued | Refused(statusCode: nat) | Broken

  /** Which writes of the request reach the database: the new document, its QUEUED
      status, and the FAILED status after a queue error. */
  datatype Writes = Writes(create: bool, queued: bool, failed: bool)

  /** One request to create a submission. */
  class CreateRequest {
    /** The stored document, once there is one. */
    var doc: Option<Doc>

    constructor ()
      ensures doc == None
    {
      doc := None;
    }

    /** The gates in order: an unknown problem, an inactive one, and one without active
        tests are refused, and leave no document and no job. Then the call is a run of the
        protocol from its initial state: either the job is waiting and the submission
        QUEUED, or the submission is FAILED, or it is left without a job: PENDING if it
        could not be saved as QUEUED, and QUEUED if the failure of the queue could not be
        saved. */
    method CreateSubmission(id: string, problemId: string, problem: Problem, tests: seq<Readiness.TestCase>,
                            queue: SubmissionQueue, reachable: bool, writes: Writes, env: Env)
        returns (reply: Reply, ghost steps: seq<Step>)
      requires doc == None && Trim(id) != "" && Trim(id) !in queue.jobs
      modifies this, queue
      ensures reply == Refused(404) <==> problem.Missing?
      ensures reply == Refused(400) <==> problem.Inactive?
      ensures reply == Refused(422) <==> problem.Active? && Readiness.ActiveTests(tests, problemId) == {}
      ensures reply in {Refused(404), Refused(400), Refused(422)} ==> doc == None && queue.jobs == old(queue.jobs)
      ensures problem.Active? && Readiness.ActiveTests(tests, problemId) != {} ==>
                && (reply == Broken <==> !writes.create || !writes.queued)
                && (reply == Refused(503) <==> writes.create && writes.queued && !reachable)
                && (reply == Queued <==> writes.create && writes.queued && reachable)
                && (doc.Some? <==> writes.create)
      ensures Trim(id) in queue.jobs <==> reply == Queued
      ensures reply != Queued ==> queue.jobs == old(queue.jobs)
      ensures doc.Some? ==>
                && Run(CrashFree, env, Init(), steps)
                && var w := After(CrashFree, env, Init(), steps);
                   && w.doc == doc.value
                   && (w.job.state.Waiting? <==> reply == Queued)
                   && (w.job.state.Absent? <==> reply != Queued)
                   && w.doc.status == match reply
                                      case Queued => QUEUED
                                      case Refused(_) => if writes.failed then FAILED else QUEUED
                                      case Broken => PENDING
    {
      steps := [];
      if problem.Missing? {
        return Refused(404), steps;
      }
      if problem.Inactive? {
        return Refused(400), steps;
      }
      var activeTestCasesCount := Readiness.CountActive(tests, problemId);
      Readiness.CountsAreCardinalities(tests, problemId, Readiness.PUBLIC);
      if activeTestCasesCount == 0 {
        return Refused(422), steps;
      }
      if !writes.create {
        return Broken, steps;
      }
      reply, steps := SaveAndEnqueue(id, queue, reachable, writes, env);
    }

    /** From the new document on. */
    method SaveAndEnqueue(id: string, queue: SubmissionQueue, reachable: bool, writes: Writes, env: Env)
        returns (reply: Reply, ghost steps: seq<Step>)
      requires doc == None && Trim(id) != "" && Trim(id) !in queue.jobs
      modifies this, queue
      ensures reply == if !writes.queued then Broken else if reachable then Queued else Refused(503)
      ensures Trim(id) in queue.jobs <==> reply == Queued
      ensures reply != Queued ==> queue.jobs == old(queue.jobs)
      ensures doc.Some? && Run(CrashFree, env, Init(), steps)
      ensures var w := After(CrashFree, env, Init(), steps);
              && w.doc == doc.value
              && (w.job.state.Waiting? <==> reply == Queued)
              && (w.job.state.Absent? <==> reply != Queued)
              && w.doc.status == match reply
                                 case Queued => QUEUED
                                 case Refused(_) => if writes.failed then FAILED else QUEUED
                                 case Broken => PENDING
    {
      ghost var w := Init();
      steps := [];
      var submission := NewDoc();
      doc := Some(submission);

      submission := submission.(status := QUEUED);
      ghost var s := if writes.queued then SaveQueued else SaveQueuedFails;
      RunSnoc(CrashFree, env, Init(), steps, s);
      steps, w := [] + [s], Next(env, w, s);
      if !writes.queued {
        return Broken, steps;
      }
      doc := Some(submission);

      var added := queue.EnqueueSubmission(id, reachable);
      s := if added then Enqueue else EnqueueFails;
      RunSnoc(CrashFree, env, Init(), steps, s);
      steps, w := steps + [s], Next(env, w, s);
      if added {
        return Queued, steps;
      }

      submission := submission.(status := FAILED);
      if writes.failed {
        doc := Some(submission);
      }
      RunSnoc(CrashFree, env, Init(), steps, SaveRejected(writes.failed));
      steps, w := steps + [SaveRejected(writes.failed)], Next(env, w, SaveRejected(writes.failed));
      reply := Refused(503);
    }
  }
}
