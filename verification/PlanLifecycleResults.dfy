/** What holds in every reachable state of the plan life cycle, whatever interleaves. */
module PlanLifecycleResults {
  import opened Prelude
  import opened CreditWallet
  import opened CreditPlans
  import opened CreditCommands
  import opened PlanLifecycle

  ghost predicate Init(s: Life) {
    Sound(s.plans) && UniqueReferences(s.plans) && s.callers == [] && s.published == [] && s.accepted == []
  }

  ghost predicate Runs(apps: Apps, s: Life, steps: seq<Step>, t: Life)
    decreases |steps|
  {
    if steps == [] then s == t
    else Enabled(apps, s, steps[0]) && Runs(apps, Next(apps, s, steps[0]), steps[1..], t)
  }

  ghost predicate Reachable(apps: Apps, s: Life) {
    exists init: Life, steps: seq<Step> :: Init(init) && Runs(apps, init, steps, s)
  }

  lemma {:induction false} RunsInv(apps: Apps, s: Life, steps: seq<Step>, t: Life)
    requires Inv(apps, s) && Runs(apps, s, steps, t)
    ensures Inv(apps, t) && PlansEvolve(s.plans, t.plans)
    decreases |steps|
  {
    if steps == [] {
    } else {
      var s1 := Next(apps, s, steps[0]);
      NextInv(apps, s, steps[0]);
      NextPlansEvolve(apps, s, steps[0]);
      RunsInv(apps, s1, steps[1..], t);
      forall id | id in s.plans ensures id in t.plans && Evolves(s.plans[id], t.plans[id]) {
        EvolvesTransitive(s.plans[id], s1.plans[id], t.plans[id]);
      }
    }
  }

  lemma ReachableInv(apps: Apps, s: Life)
    requires Reachable(apps, s)
    ensures Inv(apps, s)
  {
    var init: Life, steps :| Init(init) && Runs(apps, init, steps, s);
    RunsInv(apps, init, steps, s);
  }

  // --- SSI activation race ---

  // An activation read its document `doc` any number of commits, expiries and other activations ago. Its write
  // leaves both counters where those left them, keeps an allowance and scopes set in the meantime, and makes
  // the plan ACTIVE exactly when the latest document is unexpired with room in both wallets. It goes on to publish what
  // it has written in that case, and fails otherwise.
  lemma ActivationRace(apps: Apps, s: Life, c: nat, date: int, id: PlanId)
    requires Reachable(apps, s) && c < |s.callers| && s.callers[c].activation
    requires s.callers[c].phase.WriteActivation? && apps.Supported(s.callers[c].appId) && Present(s.plans, s.callers[c])
    ensures var a := s.callers[c];
            var before, after := s.plans[a.plan], Next(apps, s, Advance(c, date, id)).plans[a.plan];
            && after.used == before.used >= a.phase.doc.used
            && after.Used(BlockchainTxnCredit) ==
                 before.Used(BlockchainTxnCredit) >= a.phase.doc.Used(BlockchainTxnCredit)
            && (before.allowance.Some? ==> after.allowance == before.allowance)
            && (|before.scopes| > 0 ==> after.scopes == before.scopes)
            && (after.status.Active? <==>
                  && s.now < a.phase.expiresAt && after.expiresAt == At(a.phase.expiresAt)
                  && before.used < before.total
                  && after.allowance.Some? && after.allowance.value.usedAmount < after.allowance.value.amount)
            && Next(apps, s, Advance(c, date, id)).callers[c].phase ==
                 if after.status.Active? then Publish(after) else Failed
  {
    ReachableInv(apps, s);
    var a := s.callers[c];
    assert CallerOk(apps, s.plans, a);
    ActivationRespectsLatestDocument(s.plans[a.plan],
      ActivationUpdate(s.now, a.phase.doc, a.phase.expiresAt, a.phase.newAllowance));
  }

  // --- What a published grant says ---

  // All that a grant of one SSI wallet says of the plan, whatever its dates.
  ghost predicate Repeats(c: GrantCommand, plan: PlanId, p: Plan, creditType: CreditType) {
    && c.serviceType.SsiApi? && c.creditType == creditType && c.appId == p.serviceId
    && c.commandId == "grant-SSI_API-" + c.planId
    && (creditType.ApiCredit? ==>
          && c.planId == plan + ".API_CREDIT" && c.referenceId == Trim(p.referenceId) + ".API_CREDIT"
          && c.amount == p.total && c.criticalBalance == ResolveCriticalBalance(p))
    && (creditType.BlockchainTxnCredit? ==>
          && c.planId == plan + ".BLOCKCHAIN_TXN_CREDIT"
          && c.referenceId == Trim(p.referenceId) + ".BLOCKCHAIN_TXN_CREDIT"
          && p.allowance.Some? && c.amount == p.allowance.value.amount
          && 5 * c.criticalBalance <= 2 * c.amount < 5 * c.criticalBalance + 5)
    && (p.createdAt.Some? ==> c.grantedAt == p.createdAt.value)
  }

  lemma GrantRepeats(plans: Plans, g: PublishedGrant)
    requires PublishedOk(plans, g) && g.command.serviceType.SsiApi?
    ensures Repeats(g.command, g.plan, plans[g.plan], g.command.creditType)
  {
  }

  // What a grant of a CAVACH plan says of the plan, having been published from `doc`: it is for what that document had
  // left, which is at least what is left now.
  ghost predicate GrantsRemainder(c: GrantCommand, plan: PlanId, p: Plan, doc: Plan) {
    && c.serviceType.CavachApi? && c.creditType.ApiCredit? && c.appId == p.serviceId
    && c.commandId == "grant-CAVACH_API-" + plan && c.planId == plan && c.referenceId == Trim(p.referenceId)
    && c.criticalBalance == ResolveCriticalBalance(p)
    && c.amount == p.total - doc.used && 0 < c.amount <= p.total && p.total - p.used <= c.amount
    && (p.createdAt.Some? ==> c.grantedAt == p.createdAt.value)
  }

  lemma GrantOfRemainder(plans: Plans, g: PublishedGrant)
    requires PublishedOk(plans, g) && g.command.serviceType.CavachApi?
    ensures GrantsRemainder(g.command, g.plan, plans[g.plan], g.doc)
  {
  }

  // In the fields of the plan as it is now: a command decodes to the plan and grants an SSI wallet its total, a CAVACH
  // plan its remainder, with the plan's application, reference id and critical balance; the expiry is that of the
  // document it was published from.
  lemma PublishedGrantsTell(apps: Apps, s: Life, i: nat)
    requires Reachable(apps, s) && i < |s.published|
    ensures s.published[i].plan in s.plans
    ensures var g, c := s.published[i], s.published[i].command;
            && DashboardPlanId(c.planId, c.serviceType, Some(c.creditType.Name())) == Ok(g.plan)
            && DashboardPlanId(c.planId, c.serviceType, None) == Ok(g.plan)
            && g.doc.expiresAt == At(c.expiresAt) && 0 < c.grantedAt < c.expiresAt
            && (|| Repeats(c, g.plan, s.plans[g.plan], c.creditType)
                || GrantsRemainder(c, g.plan, s.plans[g.plan], g.doc))
  {
    ReachableInv(apps, s);
    var g := s.published[i];
    assert PublishedOk(s.plans, g);
    ConveyedWallet(g.command, g.plan, g.doc, g.command.serviceType, g.at);
    if g.command.serviceType.SsiApi? {
      GrantRepeats(s.plans, g);
    } else {
      GrantOfRemainder(s.plans, g);
    }
  }

  function Commands(published: seq<PublishedGrant>): seq<GrantCommand> {
    seq(|published|, i requires 0 <= i < |published| => published[i].command)
  }

  // One publication does to the commands published so far what grantCreditPlan does to a queue that takes `count` more,
  // and the caller succeeds exactly when it does. Each is recorded with its caller's plan and document.
  lemma PublicationEnqueues(apps: Apps, s: Life, c: nat, count: nat)
    requires c < |s.callers| && s.callers[c].phase.Publish? && s.callers[c].appId in apps.services
    ensures var a, t := s.callers[c], Next(apps, s, PublishSome(c, count));
            && Enqueues(Commands(s.published), Commands(t.published), count, a.plan, a.phase.doc,
                 apps.services[a.appId], s.now, t.callers[c].phase.Succeeded?)
            && t.callers[c].phase.Ended()
            && (forall k :: |s.published| <= k < |t.published| ==>
                  var g := t.published[k];
                  g.plan == a.plan && g.doc == a.phase.doc && g.at == s.now && g.byActivation == a.activation)
  {
    var a := s.callers[c];
    GrantableIff(a.plan, a.phase.doc, apps.services[a.appId], s.now);
    if Grantable(a.plan, a.phase.doc, apps.services[a.appId], s.now) {
      CommandsConvey(a.plan, a.phase.doc, apps.services[a.appId], s.now);
    }
  }

  // Two published commands have one command id if and only if they are for one service, one plan and, for SSI, one
  // credit type.
  lemma PublishedIdIff(apps: Apps, s: Life, i: nat, j: nat)
    requires Reachable(apps, s) && i < |s.published| && j < |s.published|
    ensures var g, h := s.published[i], s.published[j];
            g.command.commandId == h.command.commandId <==>
              && g.command.serviceType == h.command.serviceType && g.plan == h.plan
              && (g.command.serviceType.SsiApi? ==> g.command.creditType == h.command.creditType)
  {
    ReachableInv(apps, s);
    var g, h := s.published[i], s.published[j];
    assert PublishedOk(s.plans, g) && PublishedOk(s.plans, h);
    CommandIdIff(g.command, g.plan, g.doc, g.command.serviceType, g.at,
      h.command, h.plan, h.doc, h.command.serviceType, h.at);
  }

  // --- SSI grants are immutable ---

  // Over a plan's whole life, every command published for one SSI wallet is the same but for its expiry, and but for
  // the time of the grant if the plan does not tell when it was created.
  lemma SsiGrantsImmutable(apps: Apps, s: Life, i: nat, j: nat)
    requires Reachable(apps, s) && i < |s.published| && j < |s.published|
    requires s.published[i].plan == s.published[j].plan
    requires s.published[i].command.serviceType.SsiApi? && s.published[j].command.serviceType.SsiApi?
    requires s.published[i].command.creditType == s.published[j].command.creditType
    ensures s.published[i].plan in s.plans
    ensures var p, c, d := s.plans[s.published[i].plan], s.published[i].command, s.published[j].command;
            && c.(expiresAt := 0, grantedAt := 0) == d.(expiresAt := 0, grantedAt := 0)
            && (p.createdAt.Some? ==> c.grantedAt == d.grantedAt == p.createdAt.value)
  {
    ReachableInv(apps, s);
    assert PublishedOk(s.plans, s.published[i]) && PublishedOk(s.plans, s.published[j]);
    GrantRepeats(s.plans, s.published[i]);
    GrantRepeats(s.plans, s.published[j]);
  }

  // That exception is exact: two grants of one plan, of whatever service, tell the same time if and only if the plan
  // tells when it was created or they were published at the same time.
  lemma SameGrantTimeIff(apps: Apps, s: Life, i: nat, j: nat)
    requires Reachable(apps, s) && i < |s.published| && j < |s.published| && s.published[i].plan == s.published[j].plan
    ensures s.published[i].plan in s.plans
    ensures s.published[i].command.grantedAt == s.published[j].command.grantedAt
            <==> s.plans[s.published[i].plan].createdAt.Some? || s.published[i].at == s.published[j].at
  {
    ReachableInv(apps, s);
    assert PublishedOk(s.plans, s.published[i]) && PublishedOk(s.plans, s.published[j]);
  }

  predicate IsSsiGrant(g: PublishedGrant, plan: PlanId) {
    g.plan == plan && g.command.serviceType.SsiApi?
  }

  ghost predicate Granted(s: Life, plan: PlanId, creditType: CreditType)
    requires plan in s.plans
  {
    exists i :: 0 <= i < |s.published| && s.published[i].plan == plan &&
      Repeats(s.published[i].command, plan, s.plans[plan], creditType)
  }

  lemma CompletePublication(apps: Apps, s: Life, c: nat, count: nat)
    requires c < |s.callers| && s.callers[c].phase.Publish?
    requires s.callers[c].appId in apps.services && apps.services[s.callers[c].appId].SsiApi?
    requires PublishPrefix(apps, s, c, count).callers[c].phase.Succeeded?
    ensures var t, n := PublishPrefix(apps, s, c, count), |s.published|;
            && t.plans == s.plans && |t.published| == n + 2
            && t.published[n].plan == s.callers[c].plan == t.published[n + 1].plan
            && t.published[n].command.serviceType.SsiApi? && t.published[n].command.creditType.ApiCredit?
            && t.published[n + 1].command.serviceType.SsiApi? &&
                 t.published[n + 1].command.creditType.BlockchainTxnCredit?
  {
  }

  lemma SsiGrantsRepeat(apps: Apps, s: Life, plan: PlanId)
    requires Reachable(apps, s) && plan in s.plans
    ensures forall i :: 0 <= i < |s.published| && IsSsiGrant(s.published[i], plan) ==>
              Repeats(s.published[i].command, plan, s.plans[plan], s.published[i].command.creditType)
  {
    ReachableInv(apps, s);
    forall i | 0 <= i < |s.published| && IsSsiGrant(s.published[i], plan)
      ensures Repeats(s.published[i].command, plan, s.plans[plan], s.published[i].command.creditType)
    {
      assert PublishedOk(s.plans, s.published[i]);
      GrantRepeats(s.plans, s.published[i]);
    }
  }

  lemma PairGranted(apps: Apps, t: Life, plan: PlanId, n: nat)
    requires Reachable(apps, t) && plan in t.plans && n + 1 < |t.published|
    requires IsSsiGrant(t.published[n], plan) && t.published[n].command.creditType.ApiCredit?
    requires IsSsiGrant(t.published[n + 1], plan) && t.published[n + 1].command.creditType.BlockchainTxnCredit?
    ensures Granted(t, plan, ApiCredit) && Granted(t, plan, BlockchainTxnCredit)
  {
    SsiGrantsRepeat(apps, t, plan);
  }

  // However often a pair was half published before, one complete publication leaves the plan with the commands of
  // both its wallets, and every SSI grant of the plan repeats one of the two.
  lemma HalfPublishedPairConverges(apps: Apps, s: Life, c: nat, count: nat)
    requires Reachable(apps, s) && c < |s.callers| && s.callers[c].phase.Publish?
    requires s.callers[c].appId in apps.services && apps.services[s.callers[c].appId].SsiApi?
    requires Next(apps, s, PublishSome(c, count)).callers[c].phase.Succeeded?
    ensures var t, plan := Next(apps, s, PublishSome(c, count)), s.callers[c].plan;
            && plan in t.plans
            && Granted(t, plan, ApiCredit) && Granted(t, plan, BlockchainTxnCredit)
            && (forall i :: 0 <= i < |t.published| && IsSsiGrant(t.published[i], plan) ==>
                  Repeats(t.published[i].command, plan, t.plans[plan], t.published[i].command.creditType))
  {
    var a, t, n := s.callers[c], Next(apps, s, PublishSome(c, count)), |s.published|;
    ReachableInv(apps, s);
    assert CallerOk(apps, s.plans, a);
    CompletePublication(apps, s, c, count);
    Reach(apps, s, PublishSome(c, count));
    PairGranted(apps, t, a.plan, n);
    SsiGrantsRepeat(apps, t, a.plan);
  }

  // --- Reference ids make grantCredit idempotent ---

  // At most one plan per service and reference id, and every accepted call agrees with it.
  lemma ReferenceIdempotence(apps: Apps, s: Life, i: nat)
    requires Reachable(apps, s) && i < |s.accepted|
    ensures var r := s.accepted[i];
            exists id :: id in s.plans && HasReference(s.plans[id], r.appId, r.referenceId) && Agrees(s.plans[id], r) &&
              forall other :: other in s.plans && HasReference(s.plans[other], r.appId, r.referenceId) ==> other == id
  {
    ReachableInv(apps, s);
    var r := s.accepted[i];
    assert AcceptedOk(s.plans, r);
    var id :| id in s.plans && HasReference(s.plans[id], r.appId, r.referenceId) && Agrees(s.plans[id], r);
    assert forall other :: other in s.plans && HasReference(s.plans[other], r.appId, r.referenceId) ==> other == id;
  }

  // Wherever a call learns of the plan that already carries its reference id (at the first lookup or only when
  // the insert finds it), the call is accepted exactly when it agrees; no plan is changed either way.
  lemma RepeatedReference(apps: Apps, s: Life, c: nat, date: int, id: PlanId)
    requires Reachable(apps, s) && Enabled(apps, s, Advance(c, date, id))
    requires !s.callers[c].activation && (s.callers[c].phase.Lookup? || s.callers[c].phase.CreatePlan?)
    requires id in s.plans && s.callers[c].phase.request.appId in apps.services && s.callers[c].phase.request.Valid()
    ensures var t, r := Next(apps, s, Advance(c, date, id)), s.callers[c].phase.request;
            && t.plans == s.plans
            && (Agrees(s.plans[id], r) <==> t.accepted == s.accepted + [r])
            && (!Agrees(s.plans[id], r) <==> t.accepted == s.accepted && t.callers[c].phase == Failed)
  {
    assert FindsReference(s.plans, s.callers[c].phase.request, id);
  }

  // --- Which documents may be activated ---

  lemma ReadsActivatableOnly(apps: Apps, s: Life, c: nat, date: int, id: PlanId)
    requires c < |s.callers| && s.callers[c].activation && s.callers[c].phase.ReadPlan?
    ensures var a, t := s.callers[c], Next(apps, s, Advance(c, date, id));
            && t.plans == s.plans && t.published == s.published
            && (t.callers[c].phase == Failed
                <==> !apps.Supported(a.appId) || !Activatable(s.plans, a.plan, a.appId, s.now))
            && (t.callers[c].phase != Failed ==> t.callers[c].phase.Held() == Some(s.plans[a.plan]))
  {
  }

  // A call by caller `c` or a publication of its document; chain top-ups are among its calls.
  predicate Acts(step: Step, c: nat) {
    (step.Advance? || step.PublishSome?) && step.c == c
  }

  // A caller that has ended never acts again.
  lemma {:induction false} EndedForGood(apps: Apps, s: Life, steps: seq<Step>, t: Life, c: nat)
    requires Runs(apps, s, steps, t) && c < |s.callers| && s.callers[c].phase.Ended()
    ensures c < |t.callers| && t.callers[c] == s.callers[c]
    ensures forall k :: 0 <= k < |steps| ==> !Acts(steps[k], c)
    decreases |steps|
  {
    if steps == [] {
    } else {
      var s1 := Next(apps, s, steps[0]);
      EndedKept(apps, s, steps[0], c);
      EndedForGood(apps, s1, steps[1..], t, c);
      assert forall k :: 0 < k < |steps| ==> steps[k] == steps[1..][k - 1];
    }
  }

  lemma EndedKept(apps: Apps, s: Life, step: Step, c: nat)
    requires Enabled(apps, s, step) && c < |s.callers| && s.callers[c].phase.Ended()
    ensures var t := Next(apps, s, step); c < |t.callers| && t.callers[c] == s.callers[c] && !Acts(step, c)
  {
    if step.PublishSome? {
      PublishEnds(apps, s, step.c, step.count);
    }
  }

  // An activation that reads an expired or used-up document, or none of its application, fails then and there: in no
  // run does it go on to top up, write or publish.
  lemma UnfitActivationEnds(apps: Apps, s: Life, c: nat, date: int, id: PlanId, steps: seq<Step>, t: Life)
    requires c < |s.callers| && s.callers[c].activation && s.callers[c].phase.ReadPlan?
    requires !Activatable(s.plans, s.callers[c].plan, s.callers[c].appId, s.now)
    requires Runs(apps, Next(apps, s, Advance(c, date, id)), steps, t)
    ensures var read := Next(apps, s, Advance(c, date, id)); read.plans == s.plans && read.published == s.published
    ensures c < |t.callers| && t.callers[c] == s.callers[c].(phase := Failed)
    ensures forall k :: 0 <= k < |steps| ==> !Acts(steps[k], c)
  {
    ReadsActivatableOnly(apps, s, c, date, id);
    EndedForGood(apps, Next(apps, s, Advance(c, date, id)), steps, t, c);
  }

  // --- What activation leaves behind ---

  lemma SuccessfulActivationSetsExpiry(apps: Apps, s: Life, c: nat)
    requires Reachable(apps, s) && c < |s.callers| && s.callers[c].activation && s.callers[c].phase.Succeeded?
    ensures s.callers[c].plan in s.plans && s.plans[s.callers[c].plan].expiresAt.At?
  {
    ReachableInv(apps, s);
    assert CallerOk(apps, s.plans, s.callers[c]);
  }

  // --- Two grants of one plan that tell different times ---

  lemma {:induction false} RunsThen(apps: Apps, s: Life, steps: seq<Step>, t: Life, last: Step)
    requires Runs(apps, s, steps, t) && Enabled(apps, t, last)
    ensures Runs(apps, s, steps + [last], Next(apps, t, last))
    decreases |steps|
  {
    if steps == [] {
      assert steps + [last] == [last] && [last][1..] == [];
      assert Runs(apps, Next(apps, t, last), [last][1..], Next(apps, t, last));
    } else {
      RunsThen(apps, Next(apps, s, steps[0]), steps[1..], t, last);
      assert (steps + [last])[1..] == steps[1..] + [last];
    }
  }

  lemma Reach(apps: Apps, s: Life, step: Step)
    requires Reachable(apps, s) && Enabled(apps, s, step)
    ensures Reachable(apps, Next(apps, s, step))
  {
    var init: Life, steps :| Init(init) && Runs(apps, init, steps, s);
    RunsThen(apps, init, steps, s, step);
  }

  // A CAVACH plan without a creation time that can be granted now.
  predicate Undated(apps: Apps, s: Life, plan: PlanId, app: AppId) {
    && app in apps.services && apps.services[app].CavachApi? && plan != "" && plan in s.plans
    && var p := s.plans[plan];
       && p.serviceId == app && p.createdAt.None? && Trim(p.referenceId) != ""
       && 0 < p.total <= MAX_SAFE_INTEGER && 0 <= p.used < p.total
       && p.criticalBalance == Some(ResolveCriticalBalance(p)) && ValidCriticalBalance(p)
       && p.expiresAt.At? && 0 < s.now < p.expiresAt.time <= MAX_SAFE_INTEGER
  }

  // One more activation, at its last call before it publishes.
  lemma UndatedIsPublished(apps: Apps, s: Life, plan: PlanId, app: AppId)
    requires Undated(apps, s, plan, app)
    ensures var p := s.plans[plan];
            var commands := GrantCommands(plan, ForMiddlewareGrant(p, p.expiresAt.time), CavachApi, s.now);
            commands.Ok? && |commands.value| == 1 && commands.value[0].grantedAt == s.now
  {
    assert GrantError(plan, ForMiddlewareGrant(s.plans[plan], s.plans[plan].expiresAt.time), CavachApi, s.now) == None;
  }

  function Added(s: Life, plan: PlanId, app: AppId, phase: Phase): Life {
    s.(callers := s.callers + [Caller(true, plan, app, phase)])
  }

  lemma ActivatesUndated(apps: Apps, s: Life, plan: PlanId, app: AppId)
    requires Undated(apps, s, plan, app) && Reachable(apps, s)
    ensures var doc := ForMiddlewareGrant(s.plans[plan], s.plans[plan].expiresAt.time);
            Reachable(apps, Added(s, plan, app, Publish(doc)))
  {
    var p, c := s.plans[plan], |s.callers|;
    Reach(apps, s, StartActivation(plan, app));
    Reach(apps, Added(s, plan, app, ReadPlan), Advance(c, 0, plan));
    assert Next(apps, Added(s, plan, app, ReadPlan), Advance(c, 0, plan)) == Added(s, plan, app, FixExpiry(p));
    Reach(apps, Added(s, plan, app, FixExpiry(p)), Advance(c, 0, plan));
    assert Next(apps, Added(s, plan, app, FixExpiry(p)), Advance(c, 0, plan))
        == Added(s, plan, app, Publish(ForMiddlewareGrant(p, p.expiresAt.time)));
  }

  lemma GrantsUndated(apps: Apps, s: Life, plan: PlanId, app: AppId) returns (t: Life)
    requires Undated(apps, s, plan, app) && Reachable(apps, s)
    ensures Reachable(apps, t) && t.plans == s.plans && t.now == s.now && |t.published| == |s.published| + 1
    ensures t.published[..|s.published|] == s.published
    ensures t.published[|s.published|].plan == plan && t.published[|s.published|].command.grantedAt == s.now
  {
    var p, c := s.plans[plan], |s.callers|;
    var ready := Added(s, plan, app, Publish(ForMiddlewareGrant(p, p.expiresAt.time)));
    ActivatesUndated(apps, s, plan, app);
    UndatedIsPublished(apps, s, plan, app);
    Reach(apps, ready, PublishSome(c, 1));
    t := PublishPrefix(apps, ready, c, 1);
  }

  lemma StaysUndated(apps: Apps, s: Life, t: Life, plan: PlanId, app: AppId)
    requires Undated(apps, s, plan, app) && t.plans == s.plans && s.now <= t.now < s.plans[plan].expiresAt.time
    ensures Undated(apps, t, plan, app)
  {
  }

  // A plan without a creation time, granted by two activations some time apart, is granted with two different times.
  lemma UndatedGrantsDiffer(apps: Apps, init: Life, plan: PlanId, app: AppId, ms: nat)
    requires Init(init) && Undated(apps, init, plan, app) && 0 < ms
    requires init.now + ms < init.plans[plan].expiresAt.time
    ensures exists s: Life ::
              && Reachable(apps, s) && |s.published| == 2 && s.published[0].plan == s.published[1].plan == plan
              && s.published[0].command.grantedAt == init.now && s.published[1].command.grantedAt == init.now + ms
  {
    assert Runs(apps, init, [], init);
    var first := GrantsUndated(apps, init, plan, app);
    var later := first.(now := first.now + ms);
    Reach(apps, first, Tick(ms));
    StaysUndated(apps, init, later, plan, app);
    var s := GrantsUndated(apps, later, plan, app);
    assert s.published[0] == s.published[..1][0] == first.published[0];
  }
}
