/**
 The per-application serializer of critical-balance jobs in one process:
 src/credits/services/credit-lifecycle-consumer.service.ts, processCriticalBalanceInOrder.

 A job is a promise that continues, whatever the outcome of the promise found in the map on arrival.
 */
module CriticalBalanceQueue {
  import opened Prelude

  type App = string
  type JobId = nat

  // The Map field of the consumer: application id to the promise of its latest job.
  class Tails {
    var tail: map<App, JobId>

    constructor ()
      ensures tail == map[]
    {
      tail := map[];
    }

    // On arrival: find the promise to wait for, and become the latest.
    method Enter(app: App, current: JobId) returns (previous: Option<JobId>)
      modifies this
      ensures previous == Find(old(tail), app)
      ensures previous.Some? <==> app in old(tail)
      ensures previous.Some? ==> previous.value == old(tail)[app]
      ensures tail == old(tail)[app := current]
    {
      previous := if app in tail then Some(tail[app]) else None;
      tail := tail[app := current];
    }

    // After the job has settled: leave, unless a later job has taken the entry over.
    method Leave(app: App, current: JobId)
      modifies this
      ensures tail == Without(old(tail), app, current)
      ensures forall other :: other in tail <==>
                other in old(tail) && !(other == app && old(tail)[app] == current)
      ensures forall other :: other in tail ==> tail[other] == old(tail)[other]
    {
      if app in tail && tail[app] == current {
        tail := tail - {app};
      }
    }
  }

  function Find(tail: map<App, JobId>, app: App): Option<JobId> {
    if app in tail then Some(tail[app]) else None
  }

  function Without(tail: map<App, JobId>, app: App, current: JobId): map<App, JobId> {
    if Find(tail, app) == Some(current) then tail - {app} else tail
  }

  datatype Phase = Waiting | Running | Settled | Cleaned

  datatype Job = Job(app: App, previous: Option<JobId>, phase: Phase) {
    predicate Finished() {
      phase.Settled? || phase.Cleaned?
    }
  }

  // Jobs in arrival order; a job's id is its position.
  datatype Pod = Pod(jobs: seq<Job>, tail: map<App, JobId>)

  datatype Step = Arrive(app: App) | Start(j: JobId) | Settle(j: JobId) | CleanUp(j: JobId)

  predicate CanStart(pod: Pod, j: JobId)
    requires j < |pod.jobs|
  {
    && pod.jobs[j].phase.Waiting?
    && (pod.jobs[j].previous.Some? && pod.jobs[j].previous.value < |pod.jobs| ==>
          pod.jobs[pod.jobs[j].previous.value].Finished())
  }

  predicate Enabled(pod: Pod, step: Step) {
    match step
    case Arrive(_) => true
    case Start(j) => j < |pod.jobs| && CanStart(pod, j)
    case Settle(j) => j < |pod.jobs| && pod.jobs[j].phase.Running?
    case CleanUp(j) => j < |pod.jobs| && pod.jobs[j].phase.Settled?
  }

  function SetPhase(pod: Pod, j: JobId, phase: Phase): Pod
    requires j < |pod.jobs|
  {
    pod.(jobs := pod.jobs[j := pod.jobs[j].(phase := phase)])
  }

  // A job settles the same way whether its work was rejected or not.
  function Next(pod: Pod, step: Step): Pod
    requires Enabled(pod, step)
  {
    match step
    case Arrive(app) =>
      Pod(pod.jobs + [Job(app, Find(pod.tail, app), Waiting)], pod.tail[app := |pod.jobs|])
    case Start(j) => SetPhase(pod, j, Running)
    case Settle(j) => SetPhase(pod, j, Settled)
    case CleanUp(j) => SetPhase(pod, j, Cleaned).(tail := Without(pod.tail, pod.jobs[j].app, j))
  }

  // --- The invariant ---

  // A job waits for the job of its application that arrived just before it, or for none if all had finished.
  ghost predicate Chained(pod: Pod) {
    forall j :: 0 <= j < |pod.jobs| ==> ChainedAt(pod, j)
  }

  ghost predicate ChainedAt(pod: Pod, j: JobId)
    requires j < |pod.jobs|
  {
    match pod.jobs[j].previous
    case None => forall i :: 0 <= i < j && pod.jobs[i].app == pod.jobs[j].app ==> pod.jobs[i].Finished()
    case Some(p) =>
      && p < j && pod.jobs[p].app == pod.jobs[j].app
      && (forall i :: p < i < j ==> pod.jobs[i].app != pod.jobs[j].app)
  }

  // Arrival order: once a job has started, every earlier job of its application has finished.
  ghost predicate InOrder(pod: Pod) {
    forall i, j :: 0 <= i < j < |pod.jobs| && pod.jobs[i].app == pod.jobs[j].app && !pod.jobs[j].phase.Waiting? ==>
      pod.jobs[i].Finished()
  }

  // The entry of an application is its latest job, not yet cleaned up; without an entry all its jobs have finished.
  ghost predicate TailIsLatest(pod: Pod) {
    && (forall app :: app in pod.tail ==>
          && pod.tail[app] < |pod.jobs|
          && pod.jobs[pod.tail[app]].app == app && !pod.jobs[pod.tail[app]].phase.Cleaned?
          && (forall i :: pod.tail[app] < i < |pod.jobs| ==> pod.jobs[i].app != app))
    && (forall i :: 0 <= i < |pod.jobs| && pod.jobs[i].app !in pod.tail ==> pod.jobs[i].Finished())
  }

  ghost predicate Inv(pod: Pod) {
    Chained(pod) && InOrder(pod) && TailIsLatest(pod)
  }

  lemma StartInOrder(pod: Pod, j: JobId, i: JobId)
    requires Inv(pod) && j < |pod.jobs| && CanStart(pod, j)
    requires i < j && pod.jobs[i].app == pod.jobs[j].app
    ensures pod.jobs[i].Finished()
  {
    assert ChainedAt(pod, j);
  }

  lemma PhaseKeepsChain(pod: Pod, j: JobId, phase: Phase)
    requires Chained(pod) && j < |pod.jobs|
    requires pod.jobs[j].Finished() ==> phase.Settled? || phase.Cleaned?
    ensures Chained(SetPhase(pod, j, phase))
  {
    var t := SetPhase(pod, j, phase);
    forall k | 0 <= k < |t.jobs| ensures ChainedAt(t, k) {
      assert ChainedAt(pod, k);
    }
  }

  lemma ArriveInv(pod: Pod, app: App)
    requires Inv(pod)
    ensures Inv(Next(pod, Arrive(app)))
  {
    var t := Next(pod, Arrive(app));
    forall k | 0 <= k < |t.jobs| ensures ChainedAt(t, k) {
      if k < |pod.jobs| {
        assert ChainedAt(pod, k);
      }
    }
  }

  lemma StartInv(pod: Pod, j: JobId)
    requires Inv(pod) && j < |pod.jobs| && CanStart(pod, j)
    ensures Inv(SetPhase(pod, j, Running))
  {
    PhaseKeepsChain(pod, j, Running);
    forall i | 0 <= i < j && pod.jobs[i].app == pod.jobs[j].app ensures pod.jobs[i].Finished() {
      StartInOrder(pod, j, i);
    }
  }

  lemma SettleInv(pod: Pod, j: JobId)
    requires Inv(pod) && j < |pod.jobs| && pod.jobs[j].phase.Running?
    ensures Inv(SetPhase(pod, j, Settled))
  {
    PhaseKeepsChain(pod, j, Settled);
  }

  lemma CleanUpInv(pod: Pod, j: JobId)
    requires Inv(pod) && j < |pod.jobs| && pod.jobs[j].phase.Settled?
    ensures Inv(Next(pod, CleanUp(j)))
  {
    PhaseKeepsChain(pod, j, Cleaned);
    var t, app := Next(pod, CleanUp(j)), pod.jobs[j].app;
    assert Chained(t) by {
      forall k | 0 <= k < |t.jobs| ensures ChainedAt(t, k) {
        assert ChainedAt(SetPhase(pod, j, Cleaned), k);
      }
    }
    // If the entry goes, job j was the latest of its application, so all earlier ones had finished.
    forall i | 0 <= i < |t.jobs| && t.jobs[i].app !in t.tail ensures t.jobs[i].Finished() {
      if pod.jobs[i].app in pod.tail {
        assert pod.jobs[i].app == app && pod.tail[app] == j;
        assert i <= j;
      }
    }
  }

  lemma NextInv(pod: Pod, step: Step)
    requires Inv(pod) && Enabled(pod, step)
    ensures Inv(Next(pod, step))
  {
    match step
    case Arrive(app) => ArriveInv(pod, app);
    case Start(j) => StartInv(pod, j);
    case Settle(j) => SettleInv(pod, j);
    case CleanUp(j) => CleanUpInv(pod, j);
  }

  ghost predicate Runs(pod: Pod, steps: seq<Step>, t: Pod)
    decreases |steps|
  {
    if steps == [] then pod == t
    else Enabled(pod, steps[0]) && Runs(Next(pod, steps[0]), steps[1..], t)
  }

  lemma {:induction false} RunsInv(pod: Pod, steps: seq<Step>, t: Pod)
    requires Inv(pod) && Runs(pod, steps, t)
    ensures Inv(t)
    decreases |steps|
  {
    if steps == [] {
    } else {
      NextInv(pod, steps[0]);
      RunsInv(Next(pod, steps[0]), steps[1..], t);
    }
  }

  const EMPTY: Pod := Pod([], map[])

  // --- Main results: every arrival and completion order ---

  // Jobs of one application never overlap, and start in arrival order.
  lemma NoOverlapInOrder(steps: seq<Step>, pod: Pod, i: JobId, j: JobId)
    requires Runs(EMPTY, steps, pod) && i < j < |pod.jobs| && pod.jobs[i].app == pod.jobs[j].app
    ensures !(pod.jobs[i].phase.Running? && pod.jobs[j].phase.Running?)
    ensures !pod.jobs[j].phase.Waiting? ==> pod.jobs[i].Finished()
  {
    RunsInv(EMPTY, steps, pod);
  }

  // While a job of an application is unfinished, the map holds the latest arrival of that application.
  lemma EntryIsLatestArrival(steps: seq<Step>, pod: Pod, j: JobId)
    requires Runs(EMPTY, steps, pod) && j < |pod.jobs| && !pod.jobs[j].Finished()
    ensures var app := pod.jobs[j].app;
            && app in pod.tail && j <= pod.tail[app] < |pod.jobs| && pod.jobs[pod.tail[app]].app == app
            && (forall i :: pod.tail[app] < i < |pod.jobs| ==> pod.jobs[i].app != app)
  {
    RunsInv(EMPTY, steps, pod);
  }

  // Once all jobs of an application have finished and cleaned up, the map has forgotten it.
  lemma NoEntryLeftBehind(steps: seq<Step>, pod: Pod, app: App)
    requires Runs(EMPTY, steps, pod)
    requires forall i :: 0 <= i < |pod.jobs| && pod.jobs[i].app == app ==> pod.jobs[i].phase.Cleaned?
    ensures app !in pod.tail
  {
    RunsInv(EMPTY, steps, pod);
  }

  // Nothing ever waits for good: with an unfinished job there is one that is running or may start, however
  // earlier jobs ended.
  lemma {:induction false} SomeJobCanMove(steps: seq<Step>, pod: Pod, j: JobId)
    requires Runs(EMPTY, steps, pod) && j < |pod.jobs| && !pod.jobs[j].Finished()
    ensures exists i :: 0 <= i <= j && pod.jobs[i].app == pod.jobs[j].app &&
              (pod.jobs[i].phase.Running? || CanStart(pod, i))
    decreases j
  {
    RunsInv(EMPTY, steps, pod);
    assert ChainedAt(pod, j);
    if pod.jobs[j].phase.Waiting? && !CanStart(pod, j) {
      SomeJobCanMove(steps, pod, pod.jobs[j].previous.value);
    }
  }
}
