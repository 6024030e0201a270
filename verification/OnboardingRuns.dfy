/** What the persisted onboarding record looks like after any sequence of runs. */
module OnboardingRuns {
  import opened Prelude
  import opened Onboarding

  // How many steps have succeeded, in a log that ends with at most one failure.
  function Done(logs: seq<LogDetail>): (n: nat)
    ensures |logs| - 1 <= n <= |logs|
  {
    if logs != [] && !logs[|logs| - 1].success then |logs| - 1 else |logs|
  }

  // The log is a prefix of the applicable steps in step order, all SUCCESS except possibly a last FAILED entry.
  ghost predicate PrefixLog(all: seq<OnboardingStep>, logs: seq<LogDetail>) {
    && Follows(all, 0, logs)
    && (forall i :: 0 <= i < Done(logs) ==> logs[i].success)
    && InTimeOrder(logs)
  }

  // The entries carry the steps of `all` from position n on.
  ghost predicate Follows(all: seq<OnboardingStep>, n: nat, logs: seq<LogDetail>) {
    n + |logs| <= |all| && forall i :: 0 <= i < |logs| ==> logs[i].step == all[n + i]
  }

  ghost predicate Distinct(all: seq<OnboardingStep>) {
    forall i, j :: 0 <= i < j < |all| ==> all[i] != all[j]
  }

  // With n steps done, the index among all steps slices the applicable ones where they should be sliced.
  predicate Aligned(all: seq<OnboardingStep>, n: nat)
    requires n <= |all|
  {
    var start := if n == 0 then 0 else IndexOf(all[n - 1]) + 1;
    start == n || (n == |all| && start >= n)
  }

  // What matters about a list of applicable steps: no repetition, COMPLETED at the end, and alignment
  // everywhere except just before COMPLETED.
  ghost predicate GoodList(all: seq<OnboardingStep>) {
    && all != [] && all[|all| - 1].Completed? && Distinct(all)
    && (forall n :: 0 <= n <= |all| && n != |all| - 1 ==> Aligned(all, n))
  }

  ghost predicate WellLogged(all: seq<OnboardingStep>, r: Record) {
    && PrefixLog(all, r.logs)
    && Done(r.logs) != |all| - 1
    && (r.status.Approved? <==> Done(r.logs) == |all|)
  }

  lemma ApplicablePositions(kyb: bool, i: nat)
    requires i < |Applicable(kyb)|
    ensures IndexOf(Applicable(kyb)[i]) == if kyb || i < 9 then i else if i == 9 then 10 else 12
    ensures |Applicable(kyb)| == if kyb then 13 else 11
  {
    ApplicableSteps();
  }

  lemma ApplicableGood(kyb: bool)
    ensures GoodList(Applicable(kyb))
    ensures |Applicable(kyb)| == if kyb then 13 else 11
    ensures Aligned(Applicable(kyb), |Applicable(kyb)| - 1) <==> kyb
  {
    CompletedIsLast(kyb);
    var all := Applicable(kyb);
    ApplicablePositions(kyb, 0);
    forall i | 0 <= i < |all| ensures IndexOf(all[i]) == if kyb || i < 9 then i else if i == 9 then 10 else 12 {
      ApplicablePositions(kyb, i);
    }
  }

  lemma LastSuccessOfPrefix(all: seq<OnboardingStep>, logs: seq<LogDetail>)
    requires PrefixLog(all, logs)
    ensures LastSuccess(logs) == if Done(logs) == 0 then None else Some(all[Done(logs) - 1])
  {
    if logs != [] && !logs[|logs| - 1].success {
      var init := logs[..|logs| - 1];
      assert init != [] ==> init[|init| - 1].success;
    }
  }

  lemma ResumeIffAligned(all: seq<OnboardingStep>, logs: seq<LogDetail>)
    requires PrefixLog(all, logs)
    ensures RemainingSteps(all, logs) == all[Done(logs)..] <==> Aligned(all, Done(logs))
  {
    LastSuccessOfPrefix(all, logs);
    var start := if Done(logs) == 0 then 0 else IndexOf(all[Done(logs) - 1]) + 1;
    if start <= |all| && RemainingSteps(all, logs) == all[Done(logs)..] {
      assert |all[start..]| == |all[Done(logs)..]|;
    }
  }

  // The slice taken at the index among all steps is exactly the applicable steps not yet succeeded, unless the
  // customer has no KYB and everything but COMPLETED is done.
  lemma ResumeIsExactIff(kyb: bool, logs: seq<LogDetail>)
    requires PrefixLog(Applicable(kyb), logs)
    ensures RemainingSteps(Applicable(kyb), logs) == Applicable(kyb)[Done(logs)..]
            <==> kyb || Done(logs) != |Applicable(kyb)| - 1
  {
    ApplicableGood(kyb);
    ResumeIffAligned(Applicable(kyb), logs);
  }

  // In that one situation nothing would be left to run although COMPLETED is missing.
  lemma WrongResume(logs: seq<LogDetail>)
    requires PrefixLog(Applicable(false), logs) && Done(logs) == |Applicable(false)| - 1
    ensures RemainingSteps(Applicable(false), logs) == [] && Applicable(false)[Done(logs)..] == [Completed]
  {
    ApplicableGood(false);
    LastSuccessOfPrefix(Applicable(false), logs);
    ApplicablePositions(false, 9);
  }

  // --- One run ---

  lemma RunLogsShape(steps: seq<OnboardingStep>, ok: OnboardingStep -> bool, times: seq<int>)
    requires |times| >= |steps|
    ensures var run := RunLogs(steps, ok, times);
            && |run| <= |steps|
            && (forall i :: 0 <= i < |run| ==> run[i].step == steps[i] && run[i].time == times[i])
            && (forall i :: 0 <= i < |run| - 1 ==> run[i].success)
            && (forall i :: 0 <= i < |run| && run[i].step.Completed? ==> run[i].success)
            && (|run| < |steps| ==> |run| > 0 && !run[|run| - 1].success)
  {
    RunLogsAt(steps, ok, times);
  }

  lemma {:induction false} MapSetNewKey(entries: seq<LogDetail>, log: LogDetail)
    requires forall i :: 0 <= i < |entries| ==> entries[i].step != log.step
    ensures MapSet(entries, log) == entries + [log]
    decreases |entries|
  {
    if entries == [] {
    } else {
      MapSetNewKey(entries[1..], log);
    }
  }

  lemma {:induction false} MapSetLastKey(entries: seq<LogDetail>, log: LogDetail)
    requires entries != [] && entries[|entries| - 1].step == log.step
    requires forall i :: 0 <= i < |entries| - 1 ==> entries[i].step != log.step
    ensures MapSet(entries, log) == entries[..|entries| - 1] + [log]
    decreases |entries|
  {
    if |entries| > 1 {
      MapSetLastKey(entries[1..], log);
    }
  }

  // Setting the entries that come next appends them.
  lemma {:induction false} SetFollowing(all: seq<OnboardingStep>, entries: seq<LogDetail>, logs: seq<LogDetail>)
    requires Distinct(all) && Follows(all, 0, entries) && Follows(all, |entries|, logs)
    ensures MapSetAll(entries, logs) == entries + logs
    decreases |logs|
  {
    if logs == [] {
      assert entries + logs == entries;
    } else {
      MapSetNewKey(entries, logs[0]);
      var next, rest := entries + [logs[0]], logs[1..];
      assert forall i :: 0 <= i < |rest| ==> rest[i].step == all[|next| + i];
      SetFollowing(all, next, rest);
      assert next + rest == entries + logs;
    }
  }

  // A failed last entry is replaced in place.
  lemma SetFirst(all: seq<OnboardingStep>, logs: seq<LogDetail>, n: nat, log: LogDetail)
    requires Distinct(all) && Follows(all, 0, logs) && n < |all| && |logs| - 1 <= n <= |logs| && log.step == all[n]
    ensures MapSet(logs, log) == logs[..n] + [log]
  {
    if n < |logs| {
      MapSetLastKey(logs, log);
    } else {
      MapSetNewKey(logs, log);
      assert logs[..n] == logs;
    }
  }

  lemma MergePrefix(all: seq<OnboardingStep>, logs: seq<LogDetail>, n: nat, run: seq<LogDetail>)
    requires Distinct(all) && run != [] && |logs| - 1 <= n <= |logs|
    requires Follows(all, 0, logs) && Follows(all, n, run)
    ensures MapSetAll(MapSetAll([], logs), run) == logs[..n] + run
  {
    SetFollowing(all, [], logs);
    assert [] + logs == logs;
    SetFirst(all, logs, n, run[0]);
    SetRest(all, logs[..n], run);
  }

  lemma SetRest(all: seq<OnboardingStep>, succeeded: seq<LogDetail>, run: seq<LogDetail>)
    requires Distinct(all) && run != [] && Follows(all, 0, succeeded) && Follows(all, |succeeded|, run)
    ensures MapSetAll(succeeded + [run[0]], run[1..]) == succeeded + run
  {
    SetFollowing(all, succeeded, run);
    MapSetNewKey(succeeded, run[0]);
  }

  // Time does not run backwards between and within runs.
  ghost predicate ClockAdvances(logs: seq<LogDetail>, times: seq<int>) {
    && (forall i, j :: 0 <= i < j < |times| ==> times[i] <= times[j])
    && (forall i, j :: 0 <= i < |logs| && 0 <= j < |times| ==> logs[i].time <= times[j])
  }

  lemma RunInOrder(all: seq<OnboardingStep>, logs: seq<LogDetail>, run: seq<LogDetail>, times: seq<int>)
    requires PrefixLog(all, logs) && ClockAdvances(logs, times)
    requires Follows(all, Done(logs), run) && 0 < |run| <= |times|
    requires forall i :: 0 <= i < |run| ==> run[i].time == times[i]
    requires forall i :: 0 <= i < |run| - 1 ==> run[i].success
    ensures var merged := logs[..Done(logs)] + run;
            && PrefixLog(all, merged)
            && Done(merged) == Done(logs) + if run[|run| - 1].success then |run| else |run| - 1
  {
  }

  // One run appends to the successes what it logged.
  lemma MergeRun(all: seq<OnboardingStep>, logs: seq<LogDetail>, ok: OnboardingStep -> bool, times: seq<int>)
    requires PrefixLog(all, logs) && GoodList(all) && ClockAdvances(logs, times) && |all| <= |times| &&
              Done(logs) < |all|
    ensures var n, run := Done(logs), RunLogs(all[Done(logs)..], ok, times);
            && run != []
            && MergeLogs(logs, run) == logs[..n] + run && PrefixLog(all, logs[..n] + run)
            && Done(logs[..n] + run) == n + if run[|run| - 1].success then |run| else |run| - 1
  {
    var n := Done(logs);
    var run := RunLogs(all[n..], ok, times);
    RunLogsShape(all[n..], ok, times);
    assert Follows(all, n, run);
    MergePrefix(all, logs, n, run);
    RunInOrder(all, logs, run, times);
    SortedStaysPut(logs[..n] + run);
  }

  // A run that ends with a failure ends before COMPLETED, which cannot fail.
  lemma FailureLeavesCompleted(all: seq<OnboardingStep>, n: nat, ok: OnboardingStep -> bool, times: seq<int>)
    requires GoodList(all) && n < |all| <= |times|
    ensures var run := RunLogs(all[n..], ok, times);
            && run != []
            && (run[|run| - 1].success ==> |run| == |all| - n && run[|run| - 1].step.Completed?)
            && (!run[|run| - 1].success ==> n + |run| < |all|)
  {
    RunLogsShape(all[n..], ok, times);
    assert all[n..][|all| - n - 1].Completed?;
    RunEnds(all[n..], ok, times);
  }

  lemma ProcessExtends(all: seq<OnboardingStep>, r: Record, ok: OnboardingStep -> bool, times: seq<int>)
    requires GoodList(all) && WellLogged(all, r) && ClockAdvances(r.logs, times) && |all| <= |times|
    ensures var n := Done(r.logs);
            && RemainingSteps(all, r.logs) == all[n..]
            && Process(all, r, ok, times) ==
               if n == |all| then r
               else var run := RunLogs(all[n..], ok, times); Record(r.logs[..n] + run, StatusAfter(r.status, run))
  {
    ResumeIffAligned(all, r.logs);
    if Done(r.logs) < |all| {
      MergeRun(all, r.logs, ok, times);
    }
  }

  lemma ProcessWellLogged(all: seq<OnboardingStep>, r: Record, ok: OnboardingStep -> bool, times: seq<int>)
    requires GoodList(all) && WellLogged(all, r) && ClockAdvances(r.logs, times) && |all| <= |times|
    ensures var r' := Process(all, r, ok, times); WellLogged(all, r') && Done(r.logs) <= Done(r'.logs)
  {
    var n := Done(r.logs);
    ProcessExtends(all, r, ok, times);
    if n < |all| {
      MergeRun(all, r.logs, ok, times);
      FailureLeavesCompleted(all, n, ok, times);
    }
  }

  // --- Any number of runs ---

  // A run whose final write did not happen leaves the record as it was.
  datatype Run = Run(ok: OnboardingStep -> bool, times: seq<int>, persisted: bool)

  function After(all: seq<OnboardingStep>, r: Record, run: Run): Record
    requires |all| <= |run.times|
  {
    if run.persisted then Process(all, r, run.ok, run.times) else r
  }

  ghost predicate Clocked(all: seq<OnboardingStep>, r: Record, runs: seq<Run>)
    decreases |runs|
  {
    runs == [] ||
    (|all| <= |runs[0].times| && ClockAdvances(r.logs, runs[0].times) &&
      Clocked(all, After(all, r, runs[0]), runs[1..]))
  }

  ghost function AfterAll(all: seq<OnboardingStep>, r: Record, runs: seq<Run>): Record
    requires Clocked(all, r, runs)
    decreases |runs|
  {
    if runs == [] then r else AfterAll(all, After(all, r, runs[0]), runs[1..])
  }

  // The steps that succeeded in one persisted run.
  function Succeeded(all: seq<OnboardingStep>, r: Record, run: Run): seq<OnboardingStep>
    requires |all| <= |run.times|
  {
    if !run.persisted then [] else Successes(RunLogs(RemainingSteps(all, r.logs), run.ok, run.times))
  }

  function Successes(logs: seq<LogDetail>): seq<OnboardingStep> {
    if logs == [] then []
    else (if logs[0].success then [logs[0].step] else []) + Successes(logs[1..])
  }

  ghost function AllSucceeded(all: seq<OnboardingStep>, r: Record, runs: seq<Run>): seq<OnboardingStep>
    requires Clocked(all, r, runs)
    decreases |runs|
  {
    if runs == [] then [] else Succeeded(all, r, runs[0]) + AllSucceeded(all, After(all, r, runs[0]), runs[1..])
  }

  lemma SuccessesPrepend(step: OnboardingStep, time: int, rest: seq<LogDetail>, steps: seq<OnboardingStep>)
    requires Done(rest) <= |steps| && Successes(rest) == steps[..Done(rest)]
    ensures var run := [LogDetail(step, time, true)] + rest;
            Done(run) == Done(rest) + 1 && Successes(run) == ([step] + steps)[..Done(run)]
  {
    var run := [LogDetail(step, time, true)] + rest;
    assert run[1..] == rest;
    assert ([step] + steps)[..Done(rest) + 1] == [step] + steps[..Done(rest)];
  }

  lemma {:induction false} SuccessesOfRun(steps: seq<OnboardingStep>, ok: OnboardingStep -> bool, times: seq<int>)
    requires |times| >= |steps|
    ensures var run := RunLogs(steps, ok, times);
            Done(run) <= |steps| && Successes(run) == steps[..Done(run)]
    decreases |steps|
  {
    if steps == [] {
    } else if ok(steps[0]) || steps[0].Completed? {
      SuccessesOfRun(steps[1..], ok, times[1..]);
      SuccessesPrepend(steps[0], times[0], RunLogs(steps[1..], ok, times[1..]), steps[1..]);
      assert [steps[0]] + steps[1..] == steps;
    } else {
      var run := RunLogs(steps, ok, times);
      assert run == [LogDetail(steps[0], times[0], false)] && run[1..] == [];
      assert Done(run) == 0 && steps[..0] == [];
    }
  }

  lemma SuccessesSlice(all: seq<OnboardingStep>, n: nat, ok: OnboardingStep -> bool, times: seq<int>)
    requires n <= |all| <= |times|
    ensures var logged := RunLogs(all[n..], ok, times);
            n + Done(logged) <= |all| && Successes(logged) == all[n..n + Done(logged)]
  {
    SuccessesOfRun(all[n..], ok, times);
    SliceOfTail(all, n, Done(RunLogs(all[n..], ok, times)));
  }

  lemma DoneAppends(logs: seq<LogDetail>, n: nat, steps: seq<OnboardingStep>, ok: OnboardingStep -> bool,
      times: seq<int>)
    requires n <= |logs| && 0 < |steps| <= |times|
    ensures Done(logs[..n] + RunLogs(steps, ok, times)) == n + Done(RunLogs(steps, ok, times))
  {
  }

  lemma DoneAfterProcess(all: seq<OnboardingStep>, r: Record, ok: OnboardingStep -> bool, times: seq<int>)
    requires GoodList(all) && WellLogged(all, r) && ClockAdvances(r.logs, times) && |all| <= |times|
    ensures Done(Process(all, r, ok, times).logs) == Done(r.logs) + Done(RunLogs(all[Done(r.logs)..], ok, times))
  {
    var n := Done(r.logs);
    ProcessExtends(all, r, ok, times);
    if n < |all| {
      DoneAppends(r.logs, n, all[n..], ok, times);
    } else {
      assert all[n..] == [];
    }
  }

  lemma SucceededBetween(all: seq<OnboardingStep>, steps: seq<OnboardingStep>, n: nat, m: nat,
                         ok: OnboardingStep -> bool, times: seq<int>)
    requires n <= |all| <= |times| && steps == all[n..] && m == n + Done(RunLogs(all[n..], ok, times))
    ensures m <= |all| && Successes(RunLogs(steps, ok, times)) == all[n..m]
  {
    SuccessesSlice(all, n, ok, times);
  }

  lemma SucceededInRun(all: seq<OnboardingStep>, r: Record, run: Run)
    requires GoodList(all) && WellLogged(all, r) && ClockAdvances(r.logs, run.times) && |all| <= |run.times|
    ensures WellLogged(all, After(all, r, run))
    ensures Done(r.logs) <= Done(After(all, r, run).logs) <= |all|
    ensures Succeeded(all, r, run) == all[Done(r.logs)..Done(After(all, r, run).logs)]
  {
    if run.persisted {
      ProcessWellLogged(all, r, run.ok, run.times);
      DoneAfterProcess(all, r, run.ok, run.times);
      ResumeIffAligned(all, r.logs);
      SucceededBetween(all, RemainingSteps(all, r.logs), Done(r.logs), Done(After(all, r, run).logs), run.ok,
        run.times);
    }
  }

  lemma SliceOfTail(all: seq<OnboardingStep>, n: nat, d: nat)
    requires n + d <= |all|
    ensures all[n..][..d] == all[n..n + d]
  {
  }

  lemma SlicesJoin(all: seq<OnboardingStep>, from: nat, mid: nat, to: nat)
    requires from <= mid <= to <= |all|
    ensures all[from..mid] + all[mid..to] == all[from..to]
  {
  }

  lemma {:induction false} RunsWellLogged(all: seq<OnboardingStep>, r: Record, runs: seq<Run>)
    requires GoodList(all) && WellLogged(all, r) && Clocked(all, r, runs)
    ensures var r' := AfterAll(all, r, runs);
            && WellLogged(all, r')
            && Done(r.logs) <= Done(r'.logs) <= |all|
            && AllSucceeded(all, r, runs) == all[Done(r.logs)..Done(r'.logs)]
    decreases |runs|
  {
    if runs == [] {
      assert all[Done(r.logs)..Done(r.logs)] == [];
    } else {
      var next := After(all, r, runs[0]);
      SucceededInRun(all, r, runs[0]);
      RunsWellLogged(all, next, runs[1..]);
      SlicesJoin(all, Done(r.logs), Done(next.logs), Done(AfterAll(all, next, runs[1..]).logs));
    }
  }

  // --- Main results ---

  const NEW_RECORD: Record := Record([], Initiated)

  // After any sequence of runs of a new record: the log is a prefix of the applicable steps, resuming is exact,
  // and the steps that succeeded over all persisted runs are the applicable steps up to here, each once and in
  // order. The record is APPROVED exactly when all of them are.
  lemma OnboardingInvariant(kyb: bool, runs: seq<Run>)
    requires Clocked(Applicable(kyb), NEW_RECORD, runs)
    ensures var all, r := Applicable(kyb), AfterAll(Applicable(kyb), NEW_RECORD, runs);
            && PrefixLog(all, r.logs)
            && RemainingSteps(all, r.logs) == all[Done(r.logs)..]
            && AllSucceeded(all, NEW_RECORD, runs) == all[..Done(r.logs)]
            && (r.status.Approved? <==> Done(r.logs) == |all|)
  {
    ApplicableGood(kyb);
    InvariantFor(Applicable(kyb), runs);
  }

  lemma InvariantFor(all: seq<OnboardingStep>, runs: seq<Run>)
    requires GoodList(all) && |all| > 1 && Clocked(all, NEW_RECORD, runs)
    ensures var r := AfterAll(all, NEW_RECORD, runs);
            && PrefixLog(all, r.logs)
            && RemainingSteps(all, r.logs) == all[Done(r.logs)..]
            && AllSucceeded(all, NEW_RECORD, runs) == all[..Done(r.logs)]
            && (r.status.Approved? <==> Done(r.logs) == |all|)
  {
    RunsWellLogged(all, NEW_RECORD, runs);
    ResumeIffAligned(all, AfterAll(all, NEW_RECORD, runs).logs);
  }

  // No run leaves more to do than there was before.
  lemma RemainingNeverGrows(all: seq<OnboardingStep>, r: Record, run: Run)
    requires GoodList(all) && WellLogged(all, r) && ClockAdvances(r.logs, run.times) && |all| <= |run.times|
    ensures |RemainingSteps(all, After(all, r, run).logs)| <= |RemainingSteps(all, r.logs)|
  {
    SucceededInRun(all, r, run);
    ResumeIffAligned(all, r.logs);
    ResumeIffAligned(all, After(all, r, run).logs);
  }
}
