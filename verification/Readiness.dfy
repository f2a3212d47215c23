/** Readiness of problems: one at a time, and for a page of problems in one pass. */
module Readiness {
  datatype Visibility = PUBLIC | HIDDEN

  datatype TestCase = TestCase(problemId: string, visibility: Visibility, isActive: bool)

  datatype Requirement = MissingPublic | MissingHidden | NoActiveTests

  datatype Report = Report(
    isReady: bool,
    publicCount: nat,
    hiddenCount: nat,
    totalCount: nat,
    missingRequirements: seq<Requirement>)

  // ----- The stored test cases -----

  predicate Matches(t: TestCase, pid: string, v: Visibility) {
    t.isActive && t.problemId == pid && t.visibility == v
  }

  /** The number of active test cases of a problem with a visibility. */
  function Count(tests: seq<TestCase>, pid: string, v: Visibility): nat {
    if tests == [] then 0
    else (if Matches(tests[0], pid, v) then 1 else 0) + Count(tests[1..], pid, v)
  }

  /** `countDocuments` of the submission gate. */
  function CountActive(tests: seq<TestCase>, pid: string): nat {
    if tests == [] then 0
    else (if tests[0].isActive && tests[0].problemId == pid then 1 else 0) + CountActive(tests[1..], pid)
  }

  lemma {:induction false} VisibilitiesAddUp(tests: seq<TestCase>, pid: string)
    ensures CountActive(tests, pid) == Count(tests, pid, PUBLIC) + Count(tests, pid, HIDDEN)
  {
    if tests == [] {
    } else {
      VisibilitiesAddUp(tests[1..], pid);
    }
  }

  /** The report both code paths should give. */
  function ReportOf(publicCount: nat, hiddenCount: nat): Report {
    var totalCount := publicCount + hiddenCount;
    Report(totalCount > 0 && publicCount > 0, publicCount, hiddenCount, totalCount,
           (if publicCount == 0 then [MissingPublic] else [])
           + (if hiddenCount == 0 then [MissingHidden] else [])
           + (if totalCount == 0 then [NoActiveTests] else []))
  }

  function ReadinessOf(tests: seq<TestCase>, pid: string): Report {
    ReportOf(Count(tests, pid, PUBLIC), Count(tests, pid, HIDDEN))
  }

  // ----- What the counts and the report mean -----

  /** The places of the active test cases of a problem. */
  function ActiveTests(tests: seq<TestCase>, pid: string): set<nat> {
    set i: nat | i < |tests| && tests[i].isActive && tests[i].problemId == pid
  }

  /** Those with a visibility. */
  function TestsShown(tests: seq<TestCase>, pid: string, v: Visibility): set<nat> {
    set i: nat | i < |tests| && tests[i].isActive && tests[i].problemId == pid && tests[i].visibility == v
  }

  lemma {:induction false} CountSnoc(tests: seq<TestCase>, t: TestCase, pid: string, v: Visibility)
    ensures Count(tests + [t], pid, v) == Count(tests, pid, v) + (if Matches(t, pid, v) then 1 else 0)
    ensures CountActive(tests + [t], pid)
            == CountActive(tests, pid) + (if t.isActive && t.problemId == pid then 1 else 0)
  {
    if tests == [] {
      assert [t][1..] == [];
    } else {
      assert (tests + [t])[1..] == tests[1..] + [t];
      CountSnoc(tests[1..], t, pid, v);
    }
  }

  lemma ShownSnoc(tests: seq<TestCase>, t: TestCase, pid: string, v: Visibility)
    ensures |TestsShown(tests + [t], pid, v)| == |TestsShown(tests, pid, v)| + if Matches(t, pid, v) then 1 else 0
  {
    var before, after, n := TestsShown(tests, pid, v), TestsShown(tests + [t], pid, v), |tests|;
    if Matches(t, pid, v) {
      assert after == before + {n};
    } else {
      assert after == before;
    }
  }

  lemma ActiveSnoc(tests: seq<TestCase>, t: TestCase, pid: string)
    ensures |ActiveTests(tests + [t], pid)|
            == |ActiveTests(tests, pid)| + if t.isActive && t.problemId == pid then 1 else 0
  {
    var before, after, n := ActiveTests(tests, pid), ActiveTests(tests + [t], pid), |tests|;
    if t.isActive && t.problemId == pid {
      assert after == before + {n};
    } else {
      assert after == before;
    }
  }

  lemma {:induction false} CountsAreCardinalities(tests: seq<TestCase>, pid: string, v: Visibility)
    ensures Count(tests, pid, v) == |TestsShown(tests, pid, v)|
    ensures CountActive(tests, pid) == |ActiveTests(tests, pid)|
  {
    if tests == [] {
      assert TestsShown(tests, pid, v) == {} && ActiveTests(tests, pid) == {};
    } else {
      var init, t := tests[..|tests| - 1], tests[|tests| - 1];
      CountsAreCardinalities(init, pid, v);
      CountSnoc(init, t, pid, v);
      ShownSnoc(init, t, pid, v);
      ActiveSnoc(init, t, pid);
      assert tests == init + [t];
    }
  }

  /** The report tells how many active tests of each kind there are and which kinds are
      missing; a problem is ready once it has a public one. */
  predicate Describes(r: Report, tests: seq<TestCase>, pid: string) {
    var shown, hidden := TestsShown(tests, pid, PUBLIC), TestsShown(tests, pid, HIDDEN);
    var active := ActiveTests(tests, pid);
    && r.publicCount == |shown| && r.hiddenCount == |hidden| && r.totalCount == |active|
    && (r.isReady <==> shown != {})
    && (MissingPublic in r.missingRequirements <==> shown == {})
    && (MissingHidden in r.missingRequirements <==> hidden == {})
    && (NoActiveTests in r.missingRequirements <==> active == {})
    && |r.missingRequirements|
       == (if shown == {} then 1 else 0) + (if hidden == {} then 1 else 0) + (if active == {} then 1 else 0)
  }

  lemma ReadinessDescribes(tests: seq<TestCase>, pid: string)
    ensures Describes(ReadinessOf(tests, pid), tests, pid)
  {
    CountsAreCardinalities(tests, pid, PUBLIC);
    CountsAreCardinalities(tests, pid, HIDDEN);
    VisibilitiesAddUp(tests, pid);
  }

  // ----- The aggregations -----

  datatype Group = Group(pid: string, visibility: Visibility, count: nat)

  /** `$match` on the listed problems, then `$group`: one group per pair that occurs, in
      any order. */
  predicate IsGrouping(groups: seq<Group>, tests: seq<TestCase>, pids: set<string>) {
    && (forall i :: 0 <= i < |groups| ==>
          && groups[i].pid in pids
          && groups[i].count == Count(tests, groups[i].pid, groups[i].visibility) > 0)
    && (forall i, j :: 0 <= i < j < |groups| ==>
          groups[i].pid != groups[j].pid || groups[i].visibility != groups[j].visibility)
    && (forall pid, v :: pid in pids && Count(tests, pid, v) > 0 ==>
          exists i :: 0 <= i < |groups| && groups[i].pid == pid && groups[i].visibility == v)
  }

  /** What the groups before `n` say of a pair. */
  predicate CountedUpTo(groups: seq<Group>, n: nat, pid: string, v: Visibility, count: nat)
    requires n <= |groups|
  {
    && (forall i :: 0 <= i < n && groups[i].pid == pid && groups[i].visibility == v ==> count == groups[i].count)
    && (count == 0 || exists i :: 0 <= i < n && groups[i].pid == pid && groups[i].visibility == v)
  }

  lemma GroupingCounts(groups: seq<Group>, tests: seq<TestCase>, pids: set<string>, pid: string, v: Visibility,
                       count: nat)
    requires IsGrouping(groups, tests, pids) && pid in pids
    requires CountedUpTo(groups, |groups|, pid, v, count)
    ensures count == Count(tests, pid, v)
  {
    if Count(tests, pid, v) > 0 {
      var i :| 0 <= i < |groups| && groups[i].pid == pid && groups[i].visibility == v;
      assert count == groups[i].count;
    }
  }

  /** `getProblemReadiness`. */
  method GetProblemReadiness(groups: seq<Group>, tests: seq<TestCase>, pid: string) returns (r: Report)
    requires IsGrouping(groups, tests, {pid})
    ensures r == ReadinessOf(tests, pid) && Describes(r, tests, pid)
  {
    var publicCount, hiddenCount := 0, 0;
    for n := 0 to |groups|
      invariant CountedUpTo(groups, n, pid, PUBLIC, publicCount)
      invariant CountedUpTo(groups, n, pid, HIDDEN, hiddenCount)
    {
      if groups[n].visibility == PUBLIC {
        publicCount := groups[n].count;
      }
      if groups[n].visibility == HIDDEN {
        hiddenCount := groups[n].count;
      }
    }
    GroupingCounts(groups, tests, {pid}, pid, PUBLIC, publicCount);
    GroupingCounts(groups, tests, {pid}, pid, HIDDEN, hiddenCount);
    r := MakeReport(publicCount, hiddenCount);
    ReadinessDescribes(tests, pid);
  }

  method MakeReport(publicCount: nat, hiddenCount: nat) returns (r: Report)
    ensures r == ReportOf(publicCount, hiddenCount)
  {
    var totalCount := publicCount + hiddenCount;
    var missingRequirements := [];
    if publicCount == 0 {
      missingRequirements := missingRequirements + [MissingPublic];
    }
    if hiddenCount == 0 {
      missingRequirements := missingRequirements + [MissingHidden];
    }
    if totalCount == 0 {
      missingRequirements := missingRequirements + [NoActiveTests];
    }
    r := Report(totalCount > 0 && publicCount > 0, publicCount, hiddenCount, totalCount, missingRequirements);
  }

  datatype Stats = Stats(publicCount: nat, hiddenCount: nat)

  function StatsOf(m: map<string, Stats>, pid: string): Stats {
    if pid in m then m[pid] else Stats(0, 0)
  }

  /** The counts of a page: one pass over the groups of all its problems. */
  method CollectCounts(groups: seq<Group>) returns (countsMap: map<string, Stats>)
    ensures forall pid :: CountedUpTo(groups, |groups|, pid, PUBLIC, StatsOf(countsMap, pid).publicCount)
    ensures forall pid :: CountedUpTo(groups, |groups|, pid, HIDDEN, StatsOf(countsMap, pid).hiddenCount)
    requires forall i, j :: 0 <= i < j < |groups| ==>
      groups[i].pid != groups[j].pid || groups[i].visibility != groups[j].visibility
  {
    countsMap := map[];
    for n := 0 to |groups|
      invariant forall pid :: CountedUpTo(groups, n, pid, PUBLIC, StatsOf(countsMap, pid).publicCount)
      invariant forall pid :: CountedUpTo(groups, n, pid, HIDDEN, StatsOf(countsMap, pid).hiddenCount)
    {
      var entry := groups[n];
      ghost var before := countsMap;
      if entry.pid !in countsMap {
        countsMap := countsMap[entry.pid := Stats(0, 0)];
      }
      var current := countsMap[entry.pid];
      if entry.visibility == PUBLIC {
        current := current.(publicCount := entry.count);
      }
      if entry.visibility == HIDDEN {
        current := current.(hiddenCount := entry.count);
      }
      countsMap := countsMap[entry.pid := current];
      forall pid
        ensures CountedUpTo(groups, n + 1, pid, PUBLIC, StatsOf(countsMap, pid).publicCount)
        ensures CountedUpTo(groups, n + 1, pid, HIDDEN, StatsOf(countsMap, pid).hiddenCount)
      {
        assert CountedUpTo(groups, n, pid, PUBLIC, StatsOf(before, pid).publicCount);
        assert CountedUpTo(groups, n, pid, HIDDEN, StatsOf(before, pid).hiddenCount);
      }
    }
  }

  /** The report of one problem of a page. */
  method ReportFor(countsMap: map<string, Stats>, pid: string, ghost groups: seq<Group>, ghost tests: seq<TestCase>,
                   ghost pids: set<string>)
      returns (r: Report)
    requires IsGrouping(groups, tests, pids) && pid in pids
    requires CountedUpTo(groups, |groups|, pid, PUBLIC, StatsOf(countsMap, pid).publicCount)
    requires CountedUpTo(groups, |groups|, pid, HIDDEN, StatsOf(countsMap, pid).hiddenCount)
    ensures r == ReadinessOf(tests, pid)
  {
    var stats := StatsOf(countsMap, pid);
    GroupingCounts(groups, tests, pids, pid, PUBLIC, stats.publicCount);
    GroupingCounts(groups, tests, pids, pid, HIDDEN, stats.hiddenCount);
    r := MakeReport(stats.publicCount, stats.hiddenCount);
  }

  /** The readiness part of `listProblems`: every report equals the one that
      `getProblemReadiness` gives for that problem alone. */
  method ListReadiness(groups: seq<Group>, tests: seq<TestCase>, page: seq<string>) returns (reports: seq<Report>)
    requires IsGrouping(groups, tests, set pid | pid in page)
    ensures |reports| == |page|
    ensures forall i :: 0 <= i < |page| ==> reports[i] == ReadinessOf(tests, page[i])
  {
    var countsMap := CollectCounts(groups);
    ghost var pids := set pid | pid in page;
    reports := [];
    for n := 0 to |page|
      invariant |reports| == n
      invariant forall i :: 0 <= i < n ==> reports[i] == ReadinessOf(tests, page[i])
    {
      var r := ReportFor(countsMap, page[n], groups, tests, pids);
      reports := reports + [r];
    }
  }

  // ----- Readiness and the submission gate -----

  /** A ready problem passes the gate of `createSubmission`; a problem that passes it
      without being ready has hidden test cases only. */
  lemma {:induction false} ReadyProblemsAcceptSubmissions(tests: seq<TestCase>, pid: string)
    ensures ReadinessOf(tests, pid).isReady ==> CountActive(tests, pid) > 0
    ensures (CountActive(tests, pid) > 0 && !ReadinessOf(tests, pid).isReady)
            <==> Count(tests, pid, PUBLIC) == 0 && Count(tests, pid, HIDDEN) > 0
    ensures ReadinessOf(tests, pid).missingRequirements == [] <==>
            Count(tests, pid, PUBLIC) > 0 && Count(tests, pid, HIDDEN) > 0
  {
    VisibilitiesAddUp(tests, pid);
  }

  /** What `createProblem` reports of a problem it has just stored. */
  function NewProblemReport(): Report {
    Report(false, 0, 0, 0, [NoActiveTests])
  }

  lemma {:induction false} NoTestsNoCount(tests: seq<TestCase>, pid: string, v: Visibility)
    requires forall i :: 0 <= i < |tests| ==> tests[i].problemId != pid
    ensures Count(tests, pid, v) == 0
  {
    if tests == [] {
    } else {
      NoTestsNoCount(tests[1..], pid, v);
    }
  }

  /** The report on creation agrees with the later ones in all but the missing
      requirements, of which it names one and they name three. */
  lemma NewProblemReportDiffers(tests: seq<TestCase>, pid: string)
    requires forall i :: 0 <= i < |tests| ==> tests[i].problemId != pid
    ensures ReadinessOf(tests, pid)
            == NewProblemReport().(missingRequirements := [MissingPublic, MissingHidden, NoActiveTests])
    ensures ReadinessOf(tests, pid) != NewProblemReport()
  {
    NoTestsNoCount(tests, pid, PUBLIC);
    NoTestsNoCount(tests, pid, HIDDEN);
    assert |ReadinessOf(tests, pid).missingRequirements| == 3;
  }
}
