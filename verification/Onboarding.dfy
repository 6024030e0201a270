/**
 Resumable onboarding: processCustomerOnboarding and mergeLogs in
 src/customer-onboarding/services/customer-onboarding.service.ts. The bodies of the steps succeed or fail as
 the environment chooses, except COMPLETED, which has nothing that can fail.
 */
module Onboarding {
  import opened Prelude

  datatype OnboardingStep =
    | GiveDashboardAccess | CreateTeamRole | CreateSsiService | CreditSsiService | CreateDid | RegisterDid
    | CreateKycService | CreditKycService | SetupKycWidget | SetupKybWidget
    | ConfigureKycVerifierPage | ConfigureKybVerifierPage | Completed

  // The order of the enumeration: nine steps for everybody, then widgets and verifier pages, then the end.
  const FIRST_STEPS: seq<OnboardingStep> := [
    GiveDashboardAccess, CreateTeamRole, CreateSsiService, CreditSsiService, CreateDid, RegisterDid,
    CreateKycService, CreditKycService, SetupKycWidget]

  const LAST_STEPS: seq<OnboardingStep> :=
    [SetupKybWidget, ConfigureKycVerifierPage, ConfigureKybVerifierPage, Completed]

  const ALL_STEPS: seq<OnboardingStep> := FIRST_STEPS + LAST_STEPS

  datatype LogDetail = LogDetail(step: OnboardingStep, time: int, success: bool)

  datatype OnboardingStatus = Initiated | Approved | Failed

  // Position in the list of all steps.
  function IndexOf(step: OnboardingStep): (i: nat)
    ensures i < |ALL_STEPS| && ALL_STEPS[i] == step
  {
    match step
    case GiveDashboardAccess => 0
    case CreateTeamRole => 1
    case CreateSsiService => 2
    case CreditSsiService => 3
    case CreateDid => 4
    case RegisterDid => 5
    case CreateKycService => 6
    case CreditKycService => 7
    case SetupKycWidget => 8
    case SetupKybWidget => 9
    case ConfigureKycVerifierPage => 10
    case ConfigureKybVerifierPage => 11
    case Completed => 12
  }

  // The steps that apply: the two KYB steps only to customers interested in KYB.
  function FilterSteps(steps: seq<OnboardingStep>, kyb: bool): seq<OnboardingStep> {
    if steps == [] then []
    else (if kyb || !(steps[0].SetupKybWidget? || steps[0].ConfigureKybVerifierPage?) then [steps[0]] else []) +
         FilterSteps(steps[1..], kyb)
  }

  function Applicable(kyb: bool): seq<OnboardingStep> {
    FilterSteps(ALL_STEPS, kyb)
  }

  lemma {:induction false} KeepAll(steps: seq<OnboardingStep>)
    ensures FilterSteps(steps, true) == steps
  {
    if steps == [] {
    } else {
      KeepAll(steps[1..]);
    }
  }

  lemma ApplicableSteps()
    ensures Applicable(true) == ALL_STEPS
    ensures Applicable(false) == FIRST_STEPS + [ConfigureKycVerifierPage, Completed]
  {
    KeepAll(ALL_STEPS);
    FilterConcat(FIRST_STEPS, LAST_STEPS);
    NoKybSteps(FIRST_STEPS);
    FilterLastSteps();
  }

  lemma FilterLastSteps()
    ensures FilterSteps(LAST_STEPS, false) == [ConfigureKycVerifierPage, Completed]
  {
    var a, b, c := LAST_STEPS[1..], LAST_STEPS[1..][1..], LAST_STEPS[1..][1..][1..];
    assert c == [Completed] && FilterSteps(c[1..], false) == [];
    assert FilterSteps(c, false) == [Completed];
    assert FilterSteps(b, false) == [Completed];
    assert FilterSteps(a, false) == [ConfigureKycVerifierPage, Completed];
  }

  lemma {:induction false} FilterConcat(a: seq<OnboardingStep>, b: seq<OnboardingStep>)
    ensures FilterSteps(a + b, false) == FilterSteps(a, false) + FilterSteps(b, false)
    decreases |a|
  {
    if a == [] {
      assert a + b == b;
    } else {
      assert (a + b)[1..] == a[1..] + b;
      FilterConcat(a[1..], b);
    }
  }

  lemma {:induction false} NoKybSteps(steps: seq<OnboardingStep>)
    requires forall i :: 0 <= i < |steps| ==> !steps[i].SetupKybWidget? && !steps[i].ConfigureKybVerifierPage?
    ensures FilterSteps(steps, false) == steps
  {
    if steps == [] {
    } else {
      NoKybSteps(steps[1..]);
    }
  }

  // The step of the last SUCCESS entry.
  function LastSuccess(logs: seq<LogDetail>): Option<OnboardingStep> {
    if logs == [] then None
    else if logs[|logs| - 1].success then Some(logs[|logs| - 1].step)
    else LastSuccess(logs[..|logs| - 1])
  }

  lemma {:induction false} LastSuccessIff(logs: seq<LogDetail>)
    ensures LastSuccess(logs).None? <==> forall i :: 0 <= i < |logs| ==> !logs[i].success
    ensures LastSuccess(logs).Some? ==>
              exists i :: 0 <= i < |logs| && logs[i].success && logs[i].step == LastSuccess(logs).value &&
                forall j :: i < j < |logs| ==> !logs[j].success
    decreases |logs|
  {
    if logs != [] && !logs[|logs| - 1].success {
      LastSuccessIff(logs[..|logs| - 1]);
    }
  }

  // The start index is looked up among all steps but slices the applicable ones.
  function RemainingSteps(filtered: seq<OnboardingStep>, logs: seq<LogDetail>): (r: seq<OnboardingStep>)
    ensures |r| <= |filtered|
    ensures r != [] ==> r[|r| - 1] == filtered[|filtered| - 1]
  {
    var startIndex := match LastSuccess(logs) case None => 0 case Some(step) => IndexOf(step) + 1;
    if startIndex <= |filtered| then filtered[startIndex..] else []
  }

  // Nothing can make COMPLETED fail.
  predicate Fails(ok: OnboardingStep -> bool, step: OnboardingStep) {
    !ok(step) && step != Completed
  }

  // What one run logs: the steps in order, up to and including the first that fails.
  function RunLogs(steps: seq<OnboardingStep>, ok: OnboardingStep -> bool, times: seq<int>): seq<LogDetail>
    requires |times| >= |steps|
  {
    if steps == [] then []
    else if ok(steps[0]) || steps[0].Completed? then
      [LogDetail(steps[0], times[0], true)] + RunLogs(steps[1..], ok, times[1..])
    else [LogDetail(steps[0], times[0], false)]
  }

  // A run logs each step with its time and outcome, and only its last entry may be a failure, which ends it.
  lemma {:induction false} RunLogsAt(steps: seq<OnboardingStep>, ok: OnboardingStep -> bool, times: seq<int>)
    requires |times| >= |steps|
    ensures var run := RunLogs(steps, ok, times);
            && |run| <= |steps|
            && (forall i :: 0 <= i < |run| ==>
                  run[i] == LogDetail(steps[i], times[i], !Fails(ok, steps[i])))
            && (forall i :: 0 <= i < |run| - 1 ==> run[i].success)
            && (|run| < |steps| ==> run != [] && !run[|run| - 1].success)
    decreases |steps|
  {
    if steps == [] {
    } else {
      RunLogsAt(steps[1..], ok, times[1..]);
    }
  }

  // Map.set on an insertion-ordered map keyed by step: an existing key keeps its place.
  function MapSet(entries: seq<LogDetail>, log: LogDetail): seq<LogDetail> {
    if entries == [] then [log]
    else if entries[0].step == log.step then [log] + entries[1..]
    else [entries[0]] + MapSet(entries[1..], log)
  }

  function MapSetAll(entries: seq<LogDetail>, logs: seq<LogDetail>): seq<LogDetail>
    decreases |logs|
  {
    if logs == [] then entries else MapSetAll(MapSet(entries, logs[0]), logs[1..])
  }

  // A stable sort by time: each entry goes behind everything that is not later than it.
  function InsertByTime(sorted: seq<LogDetail>, log: LogDetail): seq<LogDetail> {
    if sorted == [] then [log]
    else if sorted[|sorted| - 1].time <= log.time then sorted + [log]
    else InsertByTime(sorted[..|sorted| - 1], log) + [sorted[|sorted| - 1]]
  }

  function SortByTime(logs: seq<LogDetail>): seq<LogDetail> {
    if logs == [] then [] else InsertByTime(SortByTime(logs[..|logs| - 1]), logs[|logs| - 1])
  }

  predicate InTimeOrder(logs: seq<LogDetail>) {
    forall i, j :: 0 <= i < j < |logs| ==> logs[i].time <= logs[j].time
  }

  lemma {:induction false} InsertAdds(sorted: seq<LogDetail>, log: LogDetail)
    ensures multiset(InsertByTime(sorted, log)) == multiset(sorted) + multiset{log}
    decreases |sorted|
  {
    if sorted == [] {
    } else {
      var init, last := sorted[..|sorted| - 1], sorted[|sorted| - 1];
      assert sorted == init + [last];
      InsertAdds(init, log);
    }
  }

  lemma InsertedIsOldOrNew(sorted: seq<LogDetail>, log: LogDetail, x: LogDetail)
    requires x in InsertByTime(sorted, log)
    ensures x == log || x in sorted
  {
    InsertAdds(sorted, log);
    assert x in multiset(InsertByTime(sorted, log));
  }

  lemma {:induction false} InsertKeepsOrder(sorted: seq<LogDetail>, log: LogDetail)
    requires InTimeOrder(sorted)
    ensures InTimeOrder(InsertByTime(sorted, log))
    decreases |sorted|
  {
    if sorted != [] && sorted[|sorted| - 1].time > log.time {
      var init, last := sorted[..|sorted| - 1], sorted[|sorted| - 1];
      InsertKeepsOrder(init, log);
      forall x | x in InsertByTime(init, log) ensures x.time <= last.time {
        InsertedIsOldOrNew(init, log, x);
      }
    }
  }

  // SortByTime is a sort: ordered, and a permutation.
  lemma {:induction false} SortByTimeSorts(logs: seq<LogDetail>)
    ensures InTimeOrder(SortByTime(logs)) && multiset(SortByTime(logs)) == multiset(logs)
    decreases |logs|
  {
    if logs == [] {
    } else {
      SortByTimeSorts(logs[..|logs| - 1]);
      InsertKeepsOrder(SortByTime(logs[..|logs| - 1]), logs[|logs| - 1]);
      InsertAdds(SortByTime(logs[..|logs| - 1]), logs[|logs| - 1]);
      assert logs == logs[..|logs| - 1] + [logs[|logs| - 1]];
    }
  }

  // Entries already in time order, equal timestamps included, are not moved.
  lemma {:induction false} SortedStaysPut(logs: seq<LogDetail>)
    requires InTimeOrder(logs)
    ensures SortByTime(logs) == logs
    decreases |logs|
  {
    if logs == [] {
    } else {
      SortedStaysPut(logs[..|logs| - 1]);
    }
  }

  function MergeLogs(existing: seq<LogDetail>, newOnes: seq<LogDetail>): seq<LogDetail> {
    SortByTime(MapSetAll(MapSetAll([], existing), newOnes))
  }

  predicate StepsDiffer(logs: seq<LogDetail>) {
    forall i, j :: 0 <= i < j < |logs| ==> logs[i].step != logs[j].step
  }

  predicate Mentions(logs: seq<LogDetail>, step: OnboardingStep) {
    exists i :: 0 <= i < |logs| && logs[i].step == step
  }

  // The last entry of its step.
  predicate Latest(logs: seq<LogDetail>, log: LogDetail) {
    exists i :: 0 <= i < |logs| && logs[i] == log && !Mentions(logs[i + 1..], log.step)
  }

  lemma {:induction false} MapSetReplaces(entries: seq<LogDetail>, log: LogDetail)
    requires StepsDiffer(entries)
    ensures StepsDiffer(MapSet(entries, log))
    ensures forall x :: x in MapSet(entries, log) <==> x == log || (x in entries && x.step != log.step)
    decreases |entries|
  {
    if entries == [] {
    } else {
      var rest := entries[1..];
      assert forall x :: x in entries <==> x == entries[0] || x in rest;
      if entries[0].step != log.step {
        MapSetReplaces(rest, log);
        assert forall x :: x in MapSet(rest, log) ==> x.step != entries[0].step;
      }
    }
  }

  lemma LatestOfTail(logs: seq<LogDetail>, log: LogDetail)
    requires logs != []
    ensures Latest(logs, log) <==> Latest(logs[1..], log) || (log == logs[0] && !Mentions(logs[1..], log.step))
  {
    if Latest(logs, log) {
      var i :| 0 <= i < |logs| && logs[i] == log && !Mentions(logs[i + 1..], log.step);
      assert i > 0 ==> logs[1..][i - 1] == log && logs[1..][i..] == logs[i + 1..];
    }
    if Latest(logs[1..], log) {
      var i :| 0 <= i < |logs[1..]| && logs[1..][i] == log && !Mentions(logs[1..][i + 1..], log.step);
      assert logs[i + 1] == log && logs[i + 2..] == logs[1..][i + 1..];
    }
  }

  lemma MentionsTail(logs: seq<LogDetail>, step: OnboardingStep)
    requires logs != []
    ensures Mentions(logs, step) <==> logs[0].step == step || Mentions(logs[1..], step)
  {
    if i :| 0 < i < |logs| && logs[i].step == step {
      assert logs[1..][i - 1].step == step;
    }
    if i :| 0 <= i < |logs[1..]| && logs[1..][i].step == step {
      assert logs[i + 1].step == step;
    }
  }

  lemma {:induction false} MapSetAllReplaces(entries: seq<LogDetail>, logs: seq<LogDetail>)
    requires StepsDiffer(entries)
    ensures StepsDiffer(MapSetAll(entries, logs))
    ensures forall x :: x in MapSetAll(entries, logs) <==>
              Latest(logs, x) || (x in entries && !Mentions(logs, x.step))
    decreases |logs|
  {
    if logs == [] {
    } else {
      MapSetReplaces(entries, logs[0]);
      MapSetAllReplaces(MapSet(entries, logs[0]), logs[1..]);
      forall x: LogDetail | true
        ensures x in MapSetAll(entries, logs) <==> Latest(logs, x) || (x in entries && !Mentions(logs, x.step))
      {
        LatestOfTail(logs, x);
        MentionsTail(logs, x.step);
      }
    }
  }

  lemma {:induction false} SortKeepsSteps(logs: seq<LogDetail>)
    requires StepsDiffer(logs)
    ensures StepsDiffer(SortByTime(logs))
    decreases |logs|
  {
    if logs == [] {
    } else {
      var init, last := logs[..|logs| - 1], logs[|logs| - 1];
      SortKeepsSteps(init);
      SortByTimeSorts(init);
      forall x | x in SortByTime(init) ensures x.step != last.step {
        assert x in multiset(SortByTime(init)) && x in multiset(init);
      }
      InsertKeepsSteps(SortByTime(init), last);
    }
  }

  lemma {:induction false} InsertKeepsSteps(sorted: seq<LogDetail>, log: LogDetail)
    requires StepsDiffer(sorted) && forall x :: x in sorted ==> x.step != log.step
    ensures StepsDiffer(InsertByTime(sorted, log))
    decreases |sorted|
  {
    if sorted != [] && sorted[|sorted| - 1].time > log.time {
      var init, last := sorted[..|sorted| - 1], sorted[|sorted| - 1];
      InsertKeepsSteps(init, log);
      forall x | x in InsertByTime(init, log) ensures x.step != last.step {
        InsertedIsOldOrNew(init, log, x);
      }
    }
  }

  // A merge holds one entry for each step, the latest new one or else the latest existing one, in time order.
  lemma MergeKeepsLatest(existing: seq<LogDetail>, newOnes: seq<LogDetail>)
    ensures var merged := MergeLogs(existing, newOnes);
            && InTimeOrder(merged) && StepsDiffer(merged)
            && (forall x :: x in merged <==>
                  Latest(newOnes, x) || (Latest(existing, x) && !Mentions(newOnes, x.step)))
  {
    MapSetAllReplaces([], existing);
    var entries := MapSetAll([], existing);
    MapSetAllReplaces(entries, newOnes);
    var all := MapSetAll(entries, newOnes);
    SortByTimeSorts(all);
    SortKeepsSteps(all);
    assert forall x :: x in SortByTime(all) <==> x in multiset(SortByTime(all));
    assert forall x :: x in all <==> x in multiset(all);
  }

  // The status after a run that logged these entries.
  function StatusAfter(before: OnboardingStatus, logs: seq<LogDetail>): OnboardingStatus {
    if logs == [] then before
    else if !logs[|logs| - 1].success then Failed
    else if logs[|logs| - 1].step.Completed? then Approved
    else before
  }

  // What a run over the steps must leave: each step logged with its time and outcome, up to the first that fails; then
  // FAILED after a failure, APPROVED after COMPLETED, and otherwise the status before.
  ghost predicate Outcome(steps: seq<OnboardingStep>, ok: OnboardingStep -> bool, times: seq<int>,
      before: OnboardingStatus, logs: seq<LogDetail>, status: OnboardingStatus)
    requires |times| >= |steps|
  {
    && |logs| <= |steps|
    && (forall i :: 0 <= i < |logs| ==> logs[i] == LogDetail(steps[i], times[i], !Fails(ok, steps[i])))
    && (forall i :: 0 <= i < |logs| - 1 ==> logs[i].success)
    && if exists i :: 0 <= i < |steps| && Fails(ok, steps[i])
       then logs != [] && !logs[|logs| - 1].success && status == Failed
       else |logs| == |steps| &&
            status == if steps != [] && steps[|steps| - 1] == Completed then Approved else before
  }

  lemma RunOutcome(steps: seq<OnboardingStep>, ok: OnboardingStep -> bool, times: seq<int>, before: OnboardingStatus)
    requires |times| >= |steps|
    requires forall i :: 0 <= i < |steps| - 1 ==> !steps[i].Completed?
    ensures var run := RunLogs(steps, ok, times);
            Outcome(steps, ok, times, before, run, StatusAfter(before, run))
  {
    var run := RunLogs(steps, ok, times);
    RunLogsAt(steps, ok, times);
    if i :| 0 <= i < |steps| && Fails(ok, steps[i]) {
      assert i < |run| ==> !run[i].success;
    } else {
      assert |run| == |steps|;
    }
  }

  // The loop over the remaining steps.
  method RunSteps(remainingSteps: seq<OnboardingStep>, ok: OnboardingStep -> bool, times: seq<int>,
      before: OnboardingStatus)
    returns (onboardingLogs: seq<LogDetail>, status: OnboardingStatus)
    requires |times| >= |remainingSteps|
    requires forall i :: 0 <= i < |remainingSteps| - 1 ==> !remainingSteps[i].Completed?
    ensures onboardingLogs == RunLogs(remainingSteps, ok, times)
    ensures status == StatusAfter(before, onboardingLogs)
    ensures Outcome(remainingSteps, ok, times, before, onboardingLogs, status)
  {
    onboardingLogs := [];
    status := before;
    var i := 0;
    while i < |remainingSteps|
      invariant i <= |remainingSteps|
      invariant RunLogs(remainingSteps, ok, times) == onboardingLogs + RunLogs(remainingSteps[i..], ok, times[i..])
      invariant status == StatusAfter(before, onboardingLogs)
      invariant i < |remainingSteps| ==> status == before
    {
      var step := remainingSteps[i];
      assert remainingSteps[i..][1..] == remainingSteps[i + 1..] && times[i..][1..] == times[i + 1..];
      if ok(step) || step.Completed? {
        if step.Completed? {
          status := Approved;
        }
        onboardingLogs := onboardingLogs + [LogDetail(step, times[i], true)];
      } else {
        onboardingLogs := onboardingLogs + [LogDetail(step, times[i], false)];
        status := Failed;
        break;
      }
      i := i + 1;
    }
    RunOutcome(remainingSteps, ok, times, before);
  }

  class CustomerOnboarding {
    const kyb: bool
    var logs: seq<LogDetail>
    var onboardingStatus: OnboardingStatus

    constructor (kyb: bool)
      ensures this.kyb == kyb && logs == [] && onboardingStatus == Initiated
    {
      this.kyb := kyb;
      logs := [];
      onboardingStatus := Initiated;
    }

    function Contents(): Record
      reads this
    {
      Record(logs, onboardingStatus)
    }

    // One run; the record is written once, at the end.
    method ProcessCustomerOnboarding(ok: OnboardingStep -> bool, times: seq<int>) returns (done: bool)
      requires |times| >= |ALL_STEPS|
      modifies this
      ensures |Applicable(kyb)| <= |times| && Contents() == Process(Applicable(kyb), old(Contents()), ok, times)
      ensures done <==> RemainingSteps(Applicable(kyb), old(logs)) != [] && onboardingStatus.Approved?
      // With steps to do the record ends APPROVED if all of them succeed and FAILED otherwise; without, it stays.
      ensures var steps := RemainingSteps(Applicable(kyb), old(logs));
              if steps == [] then onboardingStatus == old(onboardingStatus) && logs == old(logs)
              else onboardingStatus ==
                   if exists i :: 0 <= i < |steps| && Fails(ok, steps[i]) then Failed else Approved
    {
      ApplicableSteps();
      var filteredSteps := Applicable(kyb);
      CompletedIsLast(kyb);
      var remainingSteps := RemainingSteps(filteredSteps, logs);
      if remainingSteps == [] {
        return false;
      }
      var onboardingLogs, status := RunSteps(remainingSteps, ok, times, onboardingStatus);
      RunEnds(remainingSteps, ok, times);
      logs := MergeLogs(logs, onboardingLogs);
      onboardingStatus := status;
      done := onboardingLogs[|onboardingLogs| - 1].success;
    }
  }

  datatype Record = Record(logs: seq<LogDetail>, status: OnboardingStatus)

  function Process(filtered: seq<OnboardingStep>, r: Record, ok: OnboardingStep -> bool, times: seq<int>): Record
    requires |times| >= |filtered|
  {
    var remaining := RemainingSteps(filtered, r.logs);
    if remaining == [] then r
    else
      var run := RunLogs(remaining, ok, times);
      Record(MergeLogs(r.logs, run), StatusAfter(r.status, run))
  }

  lemma CompletedIsLast(kyb: bool)
    ensures Applicable(kyb) != [] && |Applicable(kyb)| <= |ALL_STEPS|
    ensures forall i :: 0 <= i < |Applicable(kyb)| ==> (Applicable(kyb)[i].Completed? <==> i == |Applicable(kyb)| - 1)
  {
    ApplicableSteps();
  }

  // A run ends with a failure or with COMPLETED.
  lemma {:induction false} RunEnds(steps: seq<OnboardingStep>, ok: OnboardingStep -> bool, times: seq<int>)
    requires |times| >= |steps| > 0 && steps[|steps| - 1].Completed?
    ensures var run := RunLogs(steps, ok, times);
            run != [] && (run[|run| - 1].success ==> run[|run| - 1].step.Completed? && |run| == |steps|)
    decreases |steps|
  {
    if |steps| > 1 {
      RunEnds(steps[1..], ok, times[1..]);
    } else {
      assert RunLogs(steps[1..], ok, times[1..]) == [];
    }
  }
}
