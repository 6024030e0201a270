/**
 Replacing an exhausted plan: critical-balance jobs run under the serializer, select an unused plan and
 activate it, while every other plan operation interleaves.
 */
module PlanReplacement {
  import opened Prelude
  import opened CreditWallet
  import opened CreditPlans
  import Life = PlanLifecycle
  import LifeResults = PlanLifecycleResults
  import Queue = CriticalBalanceQueue

  // `exhausted[j]` is the plan job j reports; `searching` holds the jobs that have found no other usable plan;
  // `work[j]` is the activation job j has started, if any.
  datatype System = System(
    pod: Queue.Pod, exhausted: seq<PlanId>, life: Life.Life, searching: set<Queue.JobId>, work: map<Queue.JobId, nat>)

  datatype Step =
    | Report(app: AppId, plan: PlanId)
    | QueueStep(queueStep: Queue.Step)
    // The two reads of processCriticalBalance: is another plan usable, and which plan was never activated.
    | LookForUsable(j: Queue.JobId)
    | Select(j: Queue.JobId, plan: PlanId)
    | LifeStep(lifeStep: Life.Step)

  predicate IsRunning(s: System, j: Queue.JobId) {
    j < |s.pod.jobs| && j < |s.exhausted| && s.pod.jobs[j].phase.Running?
  }

  // A job ends only after the activation it awaits has ended.
  predicate WorkEnded(s: System, j: Queue.JobId) {
    j in s.work ==> s.work[j] < |s.life.callers| && s.life.callers[s.work[j]].phase.Ended()
  }

  ghost predicate Enabled(apps: Life.Apps, s: System, step: Step) {
    match step
    case Report(_, _) => true
    case QueueStep(q) => !q.Arrive? && Queue.Enabled(s.pod, q) && (q.Settle? ==> WorkEnded(s, q.j))
    case LookForUsable(j) => IsRunning(s, j)
    case Select(j, plan) =>
      && IsRunning(s, j) && j in s.searching && j !in s.work
      && plan in s.life.plans && Life.Unused(s.life.plans[plan], s.pod.jobs[j].app)
    case LifeStep(l) => Life.Enabled(apps, s.life, l)
  }

  function Next(apps: Life.Apps, s: System, step: Step): System
    requires Enabled(apps, s, step)
  {
    match step
    case Report(app, plan) => s.(pod := Queue.Next(s.pod, Queue.Arrive(app)), exhausted := s.exhausted + [plan])
    case QueueStep(q) => s.(pod := Queue.Next(s.pod, q))
    case LookForUsable(j) =>
      if Life.HasUsableActivePlan(s.life.plans, s.pod.jobs[j].app, Some(s.exhausted[j]), s.life.now) then s
      else s.(searching := s.searching + {j})
    case Select(j, plan) =>
      s.(work := s.work[j := |s.life.callers|],
         life := Life.Next(apps, s.life, Life.StartActivation(plan, s.pod.jobs[j].app)))
    case LifeStep(l) => s.(life := Life.Next(apps, s.life, l))
  }

  function Activation(s: System, j: Queue.JobId): Life.Caller
    requires j in s.work && s.work[j] < |s.life.callers|
  {
    s.life.callers[s.work[j]]
  }

  ghost predicate WorkOk(s: System, j: Queue.JobId) {
    && j < |s.pod.jobs| && j in s.work && s.work[j] < |s.life.callers|
    && Activation(s, j).activation && Activation(s, j).appId == s.pod.jobs[j].app
    && !s.pod.jobs[j].phase.Waiting?
    && (s.pod.jobs[j].Finished() ==> Activation(s, j).phase.Ended())
  }

  // A plan that job i has activated is not the choice of any later job j of the application.
  ghost predicate NotRepeated(s: System, i: Queue.JobId, j: Queue.JobId)
    requires WorkOk(s, i) && WorkOk(s, j)
  {
    s.pod.jobs[i].app == s.pod.jobs[j].app && Activation(s, i).phase.Succeeded? ==>
      Activation(s, i).plan != Activation(s, j).plan
  }

  ghost predicate Inv(apps: Life.Apps, s: System) {
    && Queue.Inv(s.pod)
    && Life.Inv(apps, s.life)
    && (forall j :: j in s.work ==> WorkOk(s, j))
    && (forall i, j :: i in s.work && j in s.work && i < j ==> NotRepeated(s, i, j))
  }

  // Plan and application of an activation never change, and an ended activation stays as it ended.
  lemma CallerFixed(apps: Life.Apps, s: Life.Life, step: Life.Step, c: nat)
    requires Life.Enabled(apps, s, step) && c < |s.callers| && s.callers[c].activation
    ensures var t := Life.Next(apps, s, step);
            && c < |t.callers|
            && t.callers[c].activation && t.callers[c].plan == s.callers[c].plan &&
                 t.callers[c].appId == s.callers[c].appId
            && (s.callers[c].phase.Ended() ==> t.callers[c] == s.callers[c])
  {
  }

  lemma LifeStepInv(apps: Life.Apps, s: System, step: Life.Step)
    requires Inv(apps, s) && Life.Enabled(apps, s.life, step)
    ensures Inv(apps, Next(apps, s, LifeStep(step)))
  {
    var t := Next(apps, s, LifeStep(step));
    Life.NextInv(apps, s.life, step);
    forall j | j in s.work ensures WorkOk(t, j) {
      CallerFixed(apps, s.life, step, s.work[j]);
    }
    forall i, j | i in s.work && j in s.work && i < j ensures NotRepeated(t, i, j) {
      assert NotRepeated(s, i, j);
      CallerFixed(apps, s.life, step, s.work[i]);
      CallerFixed(apps, s.life, step, s.work[j]);
    }
  }

  // The heart of the composition, whatever has become of the first read meanwhile: a job selects only while no other
  // job of its application is at work
  // (serializer), and an activated plan has an expiry, which selection rules out.
  lemma SelectInv(apps: Life.Apps, s: System, j: Queue.JobId, plan: PlanId)
    requires Inv(apps, s) && Enabled(apps, s, Select(j, plan))
    ensures Inv(apps, Next(apps, s, Select(j, plan)))
  {
    var t := Next(apps, s, Select(j, plan));
    var start := Life.StartActivation(plan, s.pod.jobs[j].app);
    Life.NextInv(apps, s.life, start);
    forall i | i in s.work ensures WorkOk(t, i) && Activation(t, i) == Activation(s, i) {
      assert WorkOk(s, i);
    }
    forall i, k | i in t.work && k in t.work && i < k ensures NotRepeated(t, i, k) {
      if k == j {
        assert Life.CallerOk(apps, s.life.plans, Activation(s, i));
      } else if i == j {
        assert WorkOk(s, k);
        assert s.pod.jobs[j].app != s.pod.jobs[k].app;
      } else {
        assert NotRepeated(s, i, k);
      }
    }
  }

  // Jobs may arrive and move on, as long as none finishes before the activation it awaits.
  lemma QueueInv(apps: Life.Apps, s: System, t: System)
    requires Inv(apps, s) && Queue.Inv(t.pod) && t.life == s.life && t.work == s.work && |s.pod.jobs| <= |t.pod.jobs|
    requires forall j :: 0 <= j < |s.pod.jobs| ==>
               && t.pod.jobs[j].app == s.pod.jobs[j].app
               && (t.pod.jobs[j].phase.Waiting? ==> s.pod.jobs[j].phase.Waiting?)
               && (t.pod.jobs[j].Finished() ==> s.pod.jobs[j].Finished() || WorkEnded(s, j))
    ensures Inv(apps, t)
  {
    forall j | j in t.work ensures WorkOk(t, j) {
      assert WorkOk(s, j);
    }
    forall i, j | i in t.work && j in t.work && i < j ensures NotRepeated(t, i, j) {
      assert NotRepeated(s, i, j);
    }
  }

  lemma QueueStepInv(apps: Life.Apps, s: System, q: Queue.Step)
    requires Inv(apps, s) && Enabled(apps, s, QueueStep(q))
    ensures Inv(apps, Next(apps, s, QueueStep(q)))
  {
    Queue.NextInv(s.pod, q);
    QueueInv(apps, s, Next(apps, s, QueueStep(q)));
  }

  lemma ReportInv(apps: Life.Apps, s: System, app: AppId, plan: PlanId)
    requires Inv(apps, s)
    ensures Inv(apps, Next(apps, s, Report(app, plan)))
  {
    Queue.NextInv(s.pod, Queue.Arrive(app));
    QueueInv(apps, s, Next(apps, s, Report(app, plan)));
  }

  lemma LookInv(apps: Life.Apps, s: System, j: Queue.JobId)
    requires Inv(apps, s) && Enabled(apps, s, LookForUsable(j))
    ensures Inv(apps, Next(apps, s, LookForUsable(j)))
  {
    QueueInv(apps, s, Next(apps, s, LookForUsable(j)));
  }

  lemma NextInv(apps: Life.Apps, s: System, step: Step)
    requires Inv(apps, s) && Enabled(apps, s, step)
    ensures Inv(apps, Next(apps, s, step))
  {
    match step
    case Report(app, plan) => ReportInv(apps, s, app, plan);
    case QueueStep(q) => QueueStepInv(apps, s, q);
    case LookForUsable(j) => LookInv(apps, s, j);
    case Select(j, plan) => SelectInv(apps, s, j, plan);
    case LifeStep(l) => LifeStepInv(apps, s, l);
  }

  ghost predicate Init(s: System) {
    s.pod == Queue.EMPTY && s.exhausted == [] && s.searching == {} && s.work == map[] && LifeResults.Init(s.life)
  }

  ghost predicate Runs(apps: Life.Apps, s: System, steps: seq<Step>, t: System)
    decreases |steps|
  {
    if steps == [] then s == t
    else Enabled(apps, s, steps[0]) && Runs(apps, Next(apps, s, steps[0]), steps[1..], t)
  }

  lemma {:induction false} RunsInv(apps: Life.Apps, s: System, steps: seq<Step>, t: System)
    requires Inv(apps, s) && Runs(apps, s, steps, t)
    ensures Inv(apps, t)
    decreases |steps|
  {
    if steps == [] {
    } else {
      NextInv(apps, s, steps[0]);
      RunsInv(apps, Next(apps, s, steps[0]), steps[1..], t);
    }
  }

  // On one pod, two critical-balance jobs never successfully activate the same plan, and once a job has
  // activated a plan no later job of the application selects it.
  lemma ReplacementIsUnique(apps: Life.Apps, init: System, steps: seq<Step>, s: System, i: Queue.JobId, j: Queue.JobId)
    requires Init(init) && Runs(apps, init, steps, s)
    requires i in s.work && j in s.work && i < j < |s.pod.jobs| && s.pod.jobs[i].app == s.pod.jobs[j].app
    ensures s.work[i] < |s.life.callers| && s.work[j] < |s.life.callers|
    ensures s.life.callers[s.work[i]].phase.Succeeded? ==>
              s.life.callers[s.work[i]].plan != s.life.callers[s.work[j]].plan
  {
    RunsInv(apps, init, steps, s);
    assert NotRepeated(s, i, j);
  }
}
