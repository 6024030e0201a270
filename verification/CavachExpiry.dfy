/** Which expiry the grants of a CAVACH plan carry: the one that is stored, and when they do not. */
module CavachExpiry {
  import opened Prelude
  import opened CreditWallet
  import opened CreditPlans
  import opened CreditCommands
  import opened PlanLifecycle
  import opened PlanLifecycleResults

  predicate IsCavach(apps: Apps, appId: AppId) {
    appId in apps.services && apps.services[appId].CavachApi?
  }

  // The middleware echoes the expiry it was granted with.
  predicate Echoes(s: Life, step: Step) {
    step.GrantedEvent? && step.plan in s.plans && s.plans[step.plan].expiresAt.At? ==>
      At(step.expiresAt) == s.plans[step.plan].expiresAt
  }

  ghost predicate EchoingRuns(apps: Apps, s: Life, steps: seq<Step>, t: Life)
    decreases |steps|
  {
    if steps == [] then s == t
    else
      && Enabled(apps, s, steps[0]) && Echoes(s, steps[0])
      && EchoingRuns(apps, Next(apps, s, steps[0]), steps[1..], t)
  }

  // The expiries an activation holds or published are the stored one.
  ghost predicate ExpiryKnown(apps: Apps, plans: Plans, a: Caller) {
    && (a.phase.GrantOnChain? || a.phase.WriteActivation? ==> a.activation && !IsCavach(apps, a.appId))
    && (a.activation && a.phase.Held().Some? && IsCavach(apps, a.appId) && a.phase.Held().value.expiresAt.At? ==>
          && a.plan in plans && plans[a.plan].serviceId == a.appId
          && plans[a.plan].expiresAt == a.phase.Held().value.expiresAt)
    && (a.activation && a.phase.Held().Some? ==> a.plan in plans && plans[a.plan].serviceId == a.appId)
    && (a.activation && a.phase.Publish? ==> a.phase.doc.expiresAt.At?)
  }

  ghost predicate PublishedExpiry(apps: Apps, plans: Plans, g: PublishedGrant) {
    g.command.serviceType.CavachApi? ==>
      && g.plan in plans && IsCavach(apps, plans[g.plan].serviceId)
      && plans[g.plan].expiresAt == At(g.command.expiresAt)
  }

  ghost predicate ExpiryInv(apps: Apps, s: Life) {
    && (forall c :: 0 <= c < |s.callers| ==> ExpiryKnown(apps, s.plans, s.callers[c]))
    && (forall i :: 0 <= i < |s.published| && s.published[i].byActivation ==>
          PublishedExpiry(apps, s.plans, s.published[i]))
  }

  ghost predicate KeepsCavachExpiry(apps: Apps, plans: Plans, plans': Plans) {
    forall id :: id in plans && IsCavach(apps, plans[id].serviceId) && plans[id].expiresAt.At? ==>
      id in plans' && plans'[id].expiresAt == plans[id].expiresAt
  }

  lemma WriteKeepsExpiry(apps: Apps, plans: Plans, plan: PlanId, appId: AppId, u: Update)
    requires u.ActivateSsi? ==> !IsCavach(apps, appId)
    requires u.CreditGranted? && plan in plans && plans[plan].expiresAt.At? ==> plans[plan].expiresAt == At(u.expiresAt)
    ensures KeepsCavachExpiry(apps, plans, UpdatePlan(plans, plan, appId, u))
  {
  }

  lemma ActivationKeepsExpiry(apps: Apps, plans: Plans, now: int, a: Caller, date: int)
    requires a.activation && ExpiryKnown(apps, plans, a)
    ensures KeepsCavachExpiry(apps, plans, ActivationCall(apps, plans, now, a, date).plans)
  {
    if apps.Supported(a.appId) {
      match a.phase
      case Normalize(doc) =>
        WriteKeepsExpiry(apps, plans, a.plan, a.appId,
                         NormalizeCriticalBalance(ResolveCriticalBalance(doc), apps.services[a.appId]));
      case FixExpiry(doc) => WriteKeepsExpiry(apps, plans, a.plan, a.appId, ProposeExpiry(date));
      case WriteActivation(doc, expiresAt, newAllowance) =>
        WriteKeepsExpiry(apps, plans, a.plan, a.appId, ActivationUpdate(now, doc, expiresAt, newAllowance));
      case _ =>
    }
  }

  lemma GrantKeepsExpiry(apps: Apps, plans: Plans, now: int, a: Caller, date: int, id: PlanId)
    ensures KeepsCavachExpiry(apps, plans, GrantCall(apps, plans, now, a, date, id).plans)
  {
  }

  lemma NextKeepsExpiry(apps: Apps, s: Life, step: Step)
    requires ExpiryInv(apps, s) && Enabled(apps, s, step) && Echoes(s, step)
    ensures KeepsCavachExpiry(apps, s.plans, Next(apps, s, step).plans)
  {
    match step
    case Advance(c, date, id) =>
      if s.callers[c].activation {
        ActivationKeepsExpiry(apps, s.plans, s.now, s.callers[c], date);
      } else {
        GrantKeepsExpiry(apps, s.plans, s.now, s.callers[c], date, id);
      }
    case ExpirePlan(plan, appId) => WriteKeepsExpiry(apps, s.plans, plan, appId, PlanExpired);
    case GrantedEvent(plan, appId, expiresAt) => WriteKeepsExpiry(apps, s.plans, plan, appId, CreditGranted(expiresAt));
    case _ =>
  }

  lemma ExpiryKnownEvolves(apps: Apps, plans: Plans, plans': Plans, a: Caller)
    requires ExpiryKnown(apps, plans, a) && PlansEvolve(plans, plans') && KeepsCavachExpiry(apps, plans, plans')
    ensures ExpiryKnown(apps, plans', a)
  {
    if a.activation && a.phase.Held().Some? {
      assert Evolves(plans[a.plan], plans'[a.plan]);
    }
  }

  lemma PublishedExpiryEvolves(apps: Apps, plans: Plans, plans': Plans, g: PublishedGrant)
    requires PublishedExpiry(apps, plans, g) && PlansEvolve(plans, plans') && KeepsCavachExpiry(apps, plans, plans')
    ensures PublishedExpiry(apps, plans', g)
  {
    if g.command.serviceType.CavachApi? {
      assert Evolves(plans[g.plan], plans'[g.plan]);
    }
  }

  lemma AfterExpiryKnown(apps: Apps, plans: Plans, a: Caller, doc: Plan, date: int)
    requires a.activation && apps.Supported(a.appId) && a.plan in plans && plans[a.plan].serviceId == a.appId
    requires IsCavach(apps, a.appId) ==> plans[a.plan].expiresAt == At(date)
    requires IsCavach(apps, a.appId) && doc.expiresAt.At? ==> plans[a.plan].expiresAt == doc.expiresAt
    ensures ExpiryKnown(apps, plans, a.(phase := AfterExpiry(apps, a.appId, doc, date)))
  {
  }

  lemma FixExpiryKnown(apps: Apps, plans: Plans, a: Caller, doc: Plan, date: int)
    requires a.activation && a.phase == FixExpiry(doc) && ExpiryKnown(apps, plans, a) && apps.Supported(a.appId)
    ensures var o := FixExpiryCall(apps, plans, a, doc, date); ExpiryKnown(apps, o.plans, o.caller)
  {
    var o := FixExpiryCall(apps, plans, a, doc, date);
    if !o.caller.phase.RereadExpiry? {
      AfterExpiryKnown(apps, o.plans, a, doc, if doc.expiresAt.At? then doc.expiresAt.time else date);
    }
  }

  lemma RereadExpiryKnown(apps: Apps, plans: Plans, a: Caller, doc: Plan)
    requires a.activation && a.phase == RereadExpiry(doc) && ExpiryKnown(apps, plans, a) && apps.Supported(a.appId)
    ensures var o := RereadCall(apps, plans, a, doc); ExpiryKnown(apps, o.plans, o.caller)
  {
    if Present(plans, a) && plans[a.plan].expiresAt.At? {
      AfterExpiryKnown(apps, plans, a, doc, plans[a.plan].expiresAt.time);
    }
  }

  lemma WriteExpiryKnown(apps: Apps, plans: Plans, now: int, a: Caller, doc: Plan, expiresAt: int,
      newAllowance: Option<int>)
    requires a.activation && !IsCavach(apps, a.appId)
    ensures var o := WriteCall(plans, now, a, doc, expiresAt, newAllowance); ExpiryKnown(apps, o.plans, o.caller)
  {
  }

  lemma NormalizeExpiryKnown(apps: Apps, plans: Plans, a: Caller, doc: Plan)
    requires a.activation && apps.Supported(a.appId)
    ensures var o := NormalizeCall(apps, plans, a, doc); ExpiryKnown(apps, o.plans, o.caller)
  {
  }

  lemma ActivationExpiryKnown(apps: Apps, plans: Plans, now: int, a: Caller, date: int)
    requires a.activation && ExpiryKnown(apps, plans, a)
    ensures var o := ActivationCall(apps, plans, now, a, date); ExpiryKnown(apps, o.plans, o.caller)
  {
    if apps.Supported(a.appId) {
      match a.phase
      case Normalize(doc) => NormalizeExpiryKnown(apps, plans, a, doc);
      case FixExpiry(doc) => FixExpiryKnown(apps, plans, a, doc, date);
      case RereadExpiry(doc) => RereadExpiryKnown(apps, plans, a, doc);
      case WriteActivation(doc, expiresAt, newAllowance) =>
        WriteExpiryKnown(apps, plans, now, a, doc, expiresAt, newAllowance);
      case _ =>
    }
  }

  lemma GrantExpiryKnown(apps: Apps, plans: Plans, now: int, a: Caller, date: int, id: PlanId)
    requires !a.activation && !a.phase.GrantOnChain? && !a.phase.WriteActivation?
    ensures var o := GrantCall(apps, plans, now, a, date, id); ExpiryKnown(apps, o.plans, o.caller)
  {
  }

  lemma NextCallersExpiryKnown(apps: Apps, s: Life, step: Step)
    requires ExpiryInv(apps, s) && Inv(apps, s) && Enabled(apps, s, step)
    requires PlansEvolve(s.plans, Next(apps, s, step).plans)
    requires KeepsCavachExpiry(apps, s.plans, Next(apps, s, step).plans)
    ensures var t := Next(apps, s, step); forall k :: 0 <= k < |t.callers| ==> ExpiryKnown(apps, t.plans, t.callers[k])
  {
    var t := Next(apps, s, step);
    forall k | 0 <= k < |s.callers| ensures ExpiryKnown(apps, t.plans, s.callers[k]) {
      ExpiryKnownEvolves(apps, s.plans, t.plans, s.callers[k]);
    }
    match step
    case Advance(c, date, id) =>
      if s.callers[c].activation {
        ActivationExpiryKnown(apps, s.plans, s.now, s.callers[c], date);
      } else {
        GrantExpiryKnown(apps, s.plans, s.now, s.callers[c], date, id);
      }
    case PublishSome(c, count) => PublishedExpiryOk(apps, s, c, count);
    case _ =>
  }

  lemma PublishedExpiryOk(apps: Apps, s: Life, c: nat, count: nat)
    requires Inv(apps, s) && ExpiryInv(apps, s) && c < |s.callers| && s.callers[c].phase.Publish?
    ensures var t := PublishPrefix(apps, s, c, count);
            && ExpiryKnown(apps, t.plans, t.callers[c])
            && (forall i :: 0 <= i < |t.published| && t.published[i].byActivation ==>
                  PublishedExpiry(apps, t.plans, t.published[i]))
  {
    assert ExpiryKnown(apps, s.plans, s.callers[c]);
  }

  lemma NextExpiryInv(apps: Apps, s: Life, step: Step)
    requires Inv(apps, s) && ExpiryInv(apps, s) && Enabled(apps, s, step) && Echoes(s, step)
    ensures ExpiryInv(apps, Next(apps, s, step))
  {
    var t := Next(apps, s, step);
    NextPlansEvolve(apps, s, step);
    NextKeepsExpiry(apps, s, step);
    NextCallersExpiryKnown(apps, s, step);
    if step.PublishSome? {
      PublishedExpiryOk(apps, s, step.c, step.count);
    } else {
      assert t.published == s.published;
      forall i | 0 <= i < |s.published| && s.published[i].byActivation
        ensures PublishedExpiry(apps, t.plans, s.published[i])
      {
        PublishedExpiryEvolves(apps, s.plans, t.plans, s.published[i]);
      }
    }
  }

  lemma {:induction false} EchoingRunsInv(apps: Apps, s: Life, steps: seq<Step>, t: Life)
    requires Inv(apps, s) && ExpiryInv(apps, s) && EchoingRuns(apps, s, steps, t)
    ensures ExpiryInv(apps, t)
    decreases |steps|
  {
    if steps == [] {
    } else {
      NextInv(apps, s, steps[0]);
      NextExpiryInv(apps, s, steps[0]);
      EchoingRunsInv(apps, Next(apps, s, steps[0]), steps[1..], t);
    }
  }

  // Concurrent activations of one CAVACH plan all publish the one stored expiry.
  lemma CavachActivationsPublishStoredExpiry(apps: Apps, init: Life, steps: seq<Step>, s: Life, i: nat)
    requires Init(init) && EchoingRuns(apps, init, steps, s)
    requires i < |s.published| && s.published[i].byActivation && s.published[i].command.serviceType.CavachApi?
    ensures s.published[i].plan in s.plans
    ensures s.plans[s.published[i].plan].expiresAt == At(s.published[i].command.expiresAt)
  {
    EchoingRunsInv(apps, init, steps, s);
    assert PublishedExpiry(apps, s.plans, s.published[i]);
  }

  // --- Grant requests ---

  // A caller of a CAVACH application that is about to publish holds a document whose expiry is the stored one.
  predicate Stored(apps: Apps, plans: Plans, a: Caller) {
    a.phase.Publish? && IsCavach(apps, a.appId) ==>
      a.phase.doc.expiresAt.At? && a.plan in plans && plans[a.plan].expiresAt == a.phase.doc.expiresAt
  }

  predicate AllStored(apps: Apps, s: Life) {
    forall c :: 0 <= c < |s.callers| ==> Stored(apps, s.plans, s.callers[c])
  }

  // The insert of a request that is to activate finds a plan without an expiry that agrees with the request.
  predicate MeetsUndated(apps: Apps, plans: Plans, a: Caller, id: PlanId) {
    && !a.activation && a.phase.CreatePlan? && a.phase.activate.Some? && IsCavach(apps, a.phase.request.appId)
    && id in plans && Agrees(plans[id], a.phase.request) && !plans[id].expiresAt.At?
  }

  predicate StepMeetsUndated(apps: Apps, s: Life, step: Step) {
    step.Advance? && step.c < |s.callers| && MeetsUndated(apps, s.plans, s.callers[step.c], step.id)
  }

  // A grant request keeps to its application.
  predicate AtHome(plans: Plans, a: Caller) {
    !a.activation ==>
      && (a.phase.Request().Some? ==> a.phase.Request().value.appId == a.appId)
      && (a.phase.Publish? ==> a.plan in plans && plans[a.plan].serviceId == a.appId)
  }

  ghost predicate AllAtHome(s: Life) {
    forall c :: 0 <= c < |s.callers| ==> AtHome(s.plans, s.callers[c])
  }

  lemma AtHomeEvolves(plans: Plans, plans': Plans, a: Caller)
    requires AtHome(plans, a) && PlansEvolve(plans, plans')
    ensures AtHome(plans', a)
  {
  }

  lemma StoredEvolves(apps: Apps, plans: Plans, plans': Plans, a: Caller)
    requires Stored(apps, plans, a) && KeepsCavachExpiry(apps, plans, plans')
    requires a.phase.Publish? ==> a.plan in plans && plans[a.plan].serviceId == a.appId
    ensures Stored(apps, plans', a)
  {
  }

  lemma AcceptAtHome(apps: Apps, plans: Plans, a: Caller, r: GrantRequest, id: PlanId, activate: Option<int>)
    requires !a.activation && AtHome(plans, a) && r.appId in apps.services && r.appId == a.appId
    requires id in plans && HasReference(plans[id], r.appId, r.referenceId)
    ensures AtHome(plans, AcceptExisting(apps, plans, a, r, id).caller)
    ensures AtHome(plans, AcceptCreated(apps, plans, a, r, id, activate).caller)
  {
  }

  lemma GrantCallAtHome(apps: Apps, plans: Plans, now: int, a: Caller, date: int, id: PlanId)
    requires !a.activation && AtHome(plans, a)
    requires PlansEvolve(plans, GrantCall(apps, plans, now, a, date, id).plans)
    ensures var o := GrantCall(apps, plans, now, a, date, id); AtHome(o.plans, o.caller)
  {
    if a.phase.Lookup? || a.phase.CreatePlan? {
      var r := a.phase.request;
      if r.appId in apps.services && id in plans && HasReference(plans[id], r.appId, r.referenceId) {
        AcceptAtHome(apps, plans, a, r, id, if a.phase.CreatePlan? then a.phase.activate else None);
      } else if r.appId in apps.services && a.phase.CreatePlan? && id !in plans {
        var plans' := plans[id := NewPlan(apps, r, a.phase.activate, a.phase.newAllowance, now)];
        AcceptAtHome(apps, plans', a, r, id, a.phase.activate);
      }
    }
  }

  lemma AcceptCreatedStored(apps: Apps, plans: Plans, a: Caller, r: GrantRequest, id: PlanId, activate: Option<int>)
    requires id in plans && r.appId in apps.services && r.appId == a.appId && !a.phase.Publish?
    ensures Stored(apps, plans, AcceptCreated(apps, plans, a, r, id, activate).caller) <==>
            !(activate.Some? && IsCavach(apps, r.appId) && Agrees(plans[id], r) && !plans[id].expiresAt.At?)
  {
  }

  lemma GrantCallStoredIff(apps: Apps, plans: Plans, now: int, a: Caller, date: int, id: PlanId)
    requires !a.activation && AtHome(plans, a) && !a.phase.Publish?
    requires a.phase.Request().Some? ==> FindsReference(plans, a.phase.Request().value, id)
    ensures var o := GrantCall(apps, plans, now, a, date, id);
            Stored(apps, o.plans, o.caller) <==> !MeetsUndated(apps, plans, a, id)
  {
    if a.phase.CreatePlan? && a.phase.request.appId in apps.services {
      var r := a.phase.request;
      if id in plans {
        AcceptCreatedStored(apps, plans, a, r, id, a.phase.activate);
      } else {
        var plans' := plans[id := NewPlan(apps, r, a.phase.activate, a.phase.newAllowance, now)];
        AcceptCreatedStored(apps, plans', a, r, id, a.phase.activate);
      }
    }
  }

  lemma CallAtHome(apps: Apps, s: Life, c: nat, date: int, id: PlanId)
    requires Inv(apps, s) && AllAtHome(s) && Enabled(apps, s, Advance(c, date, id))
    ensures var o := CallOf(apps, s.plans, s.now, s.callers[c], date, id); AtHome(o.plans, o.caller)
  {
    CallGood(apps, s, c, date, id);
    if !s.callers[c].activation {
      GrantCallAtHome(apps, s.plans, s.now, s.callers[c], date, id);
    }
  }

  lemma NextAtHome(apps: Apps, s: Life, step: Step)
    requires Inv(apps, s) && AllAtHome(s) && Enabled(apps, s, step)
    ensures AllAtHome(Next(apps, s, step))
  {
    var t := Next(apps, s, step);
    NextPlansEvolve(apps, s, step);
    forall c | 0 <= c < |s.callers| ensures AtHome(t.plans, s.callers[c]) {
      AtHomeEvolves(s.plans, t.plans, s.callers[c]);
    }
    if step.Advance? {
      CallAtHome(apps, s, step.c, step.date, step.id);
    } else if step.PublishSome? {
      PublishEnds(apps, s, step.c, step.count);
    }
  }

  // Everything about expiries that holds in every run with an echoing middleware.
  ghost predicate CavachInv(apps: Apps, s: Life) {
    Inv(apps, s) && ExpiryInv(apps, s) && AllAtHome(s)
  }

  lemma NextCavachInv(apps: Apps, s: Life, step: Step)
    requires CavachInv(apps, s) && Enabled(apps, s, step) && Echoes(s, step)
    ensures CavachInv(apps, Next(apps, s, step))
  {
    NextInv(apps, s, step);
    NextExpiryInv(apps, s, step);
    NextAtHome(apps, s, step);
  }

  lemma OthersStayStored(apps: Apps, s: Life, step: Step, c: nat)
    requires CavachInv(apps, s) && Enabled(apps, s, step) && Echoes(s, step)
    requires c < |s.callers| && Stored(apps, s.plans, s.callers[c])
    ensures Stored(apps, Next(apps, s, step).plans, s.callers[c])
  {
    NextKeepsExpiry(apps, s, step);
    assert ExpiryKnown(apps, s.plans, s.callers[c]) && AtHome(s.plans, s.callers[c]);
    StoredEvolves(apps, s.plans, Next(apps, s, step).plans, s.callers[c]);
  }

  lemma AdvanceStoredIff(apps: Apps, s: Life, c: nat, date: int, id: PlanId)
    requires CavachInv(apps, s) && Enabled(apps, s, Advance(c, date, id)) && AllStored(apps, s)
    ensures var o := CallOf(apps, s.plans, s.now, s.callers[c], date, id);
            Stored(apps, o.plans, o.caller) <==> !MeetsUndated(apps, s.plans, s.callers[c], id)
  {
    var a := s.callers[c];
    assert AtHome(s.plans, a) && ExpiryKnown(apps, s.plans, a);
    if a.activation {
      ActivationExpiryKnown(apps, s.plans, s.now, a, date);
    } else if a.phase.Publish? {
      assert Stored(apps, s.plans, a);
    } else {
      GrantCallStoredIff(apps, s.plans, s.now, a, date, id);
    }
  }

  lemma NextStoredIff(apps: Apps, s: Life, step: Step)
    requires CavachInv(apps, s) && Enabled(apps, s, step) && Echoes(s, step) && AllStored(apps, s)
    ensures AllStored(apps, Next(apps, s, step)) <==> !StepMeetsUndated(apps, s, step)
  {
    var t := Next(apps, s, step);
    forall c | 0 <= c < |s.callers| ensures Stored(apps, t.plans, s.callers[c]) {
      OthersStayStored(apps, s, step, c);
    }
    if step.Advance? {
      AdvanceStoredIff(apps, s, step.c, step.date, step.id);
      assert t.callers[step.c] == CallOf(apps, s.plans, s.now, s.callers[step.c], step.date, step.id).caller;
    } else if step.PublishSome? {
      PublishEnds(apps, s, step.c, step.count);
    }
  }

  // In every state of the run, every caller that is about to publish holds the stored expiry.
  ghost predicate StoredThroughout(apps: Apps, s: Life, steps: seq<Step>, t: Life)
    requires EchoingRuns(apps, s, steps, t)
    decreases |steps|
  {
    AllStored(apps, s) && (steps != [] ==> StoredThroughout(apps, Next(apps, s, steps[0]), steps[1..], t))
  }

  ghost predicate NoneMeetsUndated(apps: Apps, s: Life, steps: seq<Step>, t: Life)
    requires EchoingRuns(apps, s, steps, t)
    decreases |steps|
  {
    steps != [] ==>
      !StepMeetsUndated(apps, s, steps[0]) && NoneMeetsUndated(apps, Next(apps, s, steps[0]), steps[1..], t)
  }

  lemma {:induction false} RunStoredIff(apps: Apps, s: Life, steps: seq<Step>, t: Life)
    requires CavachInv(apps, s) && AllStored(apps, s) && EchoingRuns(apps, s, steps, t)
    ensures StoredThroughout(apps, s, steps, t) <==> NoneMeetsUndated(apps, s, steps, t)
    decreases |steps|
  {
    if steps == [] {
    } else {
      var next := Next(apps, s, steps[0]);
      NextCavachInv(apps, s, steps[0]);
      NextStoredIff(apps, s, steps[0]);
      if AllStored(apps, next) {
        RunStoredIff(apps, next, steps[1..], t);
      }
    }
  }

  // Whoever publishes for a CAVACH plan, activation or grant request, holds the stored expiry throughout a run if and
  // only if no grant request that is to activate finds, at its insert, an agreeing plan without an expiry.
  lemma StoredIffNoneMeetsUndated(apps: Apps, init: Life, steps: seq<Step>, s: Life)
    requires Init(init) && EchoingRuns(apps, init, steps, s)
    ensures StoredThroughout(apps, init, steps, s) <==> NoneMeetsUndated(apps, init, steps, s)
  {
    RunStoredIff(apps, init, steps, s);
  }

  // --- What is published ---

  ghost predicate AllPublishedStored(apps: Apps, s: Life) {
    forall i :: 0 <= i < |s.published| ==> PublishedExpiry(apps, s.plans, s.published[i])
  }

  lemma PublishStored(apps: Apps, s: Life, c: nat, count: nat)
    requires CavachInv(apps, s) && AllStored(apps, s) && AllPublishedStored(apps, s)
    requires c < |s.callers| && s.callers[c].phase.Publish?
    ensures AllPublishedStored(apps, PublishPrefix(apps, s, c, count))
  {
    var a := s.callers[c];
    assert Stored(apps, s.plans, a) && AtHome(s.plans, a) && ExpiryKnown(apps, s.plans, a);
  }

  lemma NextPublishedStored(apps: Apps, s: Life, step: Step)
    requires CavachInv(apps, s) && AllStored(apps, s) && AllPublishedStored(apps, s)
    requires Enabled(apps, s, step) && Echoes(s, step)
    ensures AllPublishedStored(apps, Next(apps, s, step))
  {
    var t := Next(apps, s, step);
    if step.PublishSome? {
      PublishStored(apps, s, step.c, step.count);
    } else {
      assert t.published == s.published;
      NextPlansEvolve(apps, s, step);
      NextKeepsExpiry(apps, s, step);
      forall i | 0 <= i < |s.published| ensures PublishedExpiry(apps, t.plans, s.published[i]) {
        PublishedExpiryEvolves(apps, s.plans, t.plans, s.published[i]);
      }
    }
  }

  lemma {:induction false} RunPublishesStored(apps: Apps, s: Life, steps: seq<Step>, t: Life)
    requires CavachInv(apps, s) && AllStored(apps, s) && AllPublishedStored(apps, s)
    requires EchoingRuns(apps, s, steps, t) && NoneMeetsUndated(apps, s, steps, t)
    ensures AllPublishedStored(apps, t)
    decreases |steps|
  {
    if steps == [] {
    } else {
      NextCavachInv(apps, s, steps[0]);
      NextStoredIff(apps, s, steps[0]);
      NextPublishedStored(apps, s, steps[0]);
      RunPublishesStored(apps, Next(apps, s, steps[0]), steps[1..], t);
    }
  }

  // Under that condition every grant ever published for a CAVACH plan carries the one stored expiry.
  lemma GrantsPublishStoredExpiry(apps: Apps, init: Life, steps: seq<Step>, s: Life, i: nat)
    requires Init(init) && EchoingRuns(apps, init, steps, s) && NoneMeetsUndated(apps, init, steps, s)
    requires i < |s.published| && s.published[i].command.serviceType.CavachApi?
    ensures s.published[i].plan in s.plans
    ensures s.plans[s.published[i].plan].expiresAt == At(s.published[i].command.expiresAt)
  {
    RunPublishesStored(apps, init, steps, s);
    assert PublishedExpiry(apps, s.plans, s.published[i]);
  }

  // --- A run that publishes an expiry nobody has stored ---

  // A state that runs with an echoing middleware lead to.
  ghost predicate Gets(apps: Apps, init: Life, s: Life) {
    exists steps: seq<Step> :: EchoingRuns(apps, init, steps, s)
  }

  lemma {:induction false} EchoingRunsThen(apps: Apps, s: Life, steps: seq<Step>, t: Life, last: Step)
    requires EchoingRuns(apps, s, steps, t) && Enabled(apps, t, last) && Echoes(t, last)
    ensures EchoingRuns(apps, s, steps + [last], Next(apps, t, last))
    decreases |steps|
  {
    if steps == [] {
      assert steps + [last] == [last] && [last][1..] == [];
      assert EchoingRuns(apps, Next(apps, t, last), [last][1..], Next(apps, t, last));
    } else {
      EchoingRunsThen(apps, Next(apps, s, steps[0]), steps[1..], t, last);
      assert (steps + [last])[1..] == steps[1..] + [last];
    }
  }

  lemma Get(apps: Apps, init: Life, s: Life, step: Step)
    requires Gets(apps, init, s) && Enabled(apps, s, step) && Echoes(s, step)
    ensures Gets(apps, init, Next(apps, s, step))
  {
    var steps :| EchoingRuns(apps, init, steps, s);
    EchoingRunsThen(apps, init, steps, s, step);
  }

  // A CAVACH application with one usable plan `old_`, and a request with a new reference id.
  ghost predicate Scene(apps: Apps, init: Life, oldId: PlanId, q: GrantRequest, id: PlanId, date: int) {
    && Init(init) && init.plans.Keys == {oldId} && IsCavach(apps, q.appId) && q.Valid()
    && UsableActivePlan(init.plans[oldId], oldId, q.appId, None, init.now)
    && init.plans[oldId].referenceId != q.referenceId && Trim(q.referenceId) != ""
    && id != oldId && id != "" && 0 < init.now < date <= MAX_SAFE_INTEGER
  }

  function Two(init: Life, q: GrantRequest, first: Phase, second: Phase): Life {
    init.(callers := [Caller(false, "", q.appId, first), Caller(false, "", q.appId, second)])
  }

  function OldExpired(init: Life, oldId: PlanId): Life
    requires oldId in init.plans
  {
    init.(plans := init.plans[oldId := init.plans[oldId].(status := Inactive)])
  }

  lemma LooksUpNothing(apps: Apps, init: Life, oldId: PlanId, q: GrantRequest, id: PlanId, date: int)
    requires Scene(apps, init, oldId, q, id, date)
    ensures FindsReference(init.plans, q, id)
    ensures var a := Caller(false, "", q.appId, Lookup(q));
            CallOf(apps, init.plans, init.now, a, date, id) == Go(init.plans, a, CheckActive(q))
  {
  }

  lemma BothRequestsStart(apps: Apps, init: Life, oldId: PlanId, q: GrantRequest, id: PlanId, date: int)
    requires Scene(apps, init, oldId, q, id, date)
    ensures Gets(apps, init, Two(init, q, Lookup(q), Lookup(q)))
  {
    assert EchoingRuns(apps, init, [], init);
    Get(apps, init, init, StartGrant(q));
    Get(apps, init, Next(apps, init, StartGrant(q)), StartGrant(q));
    assert Next(apps, Next(apps, init, StartGrant(q)), StartGrant(q)) == Two(init, q, Lookup(q), Lookup(q));
  }

  lemma BothRequestsLookUp(apps: Apps, init: Life, oldId: PlanId, q: GrantRequest, id: PlanId, date: int)
    requires Scene(apps, init, oldId, q, id, date)
    ensures Gets(apps, init, Two(init, q, CheckActive(q), CheckActive(q)))
  {
    var started, one := Two(init, q, Lookup(q), Lookup(q)), Two(init, q, CheckActive(q), Lookup(q));
    BothRequestsStart(apps, init, oldId, q, id, date);
    LooksUpNothing(apps, init, oldId, q, id, date);
    Get(apps, init, started, Advance(0, date, id));
    assert Next(apps, started, Advance(0, date, id)) == one;
    Get(apps, init, one, Advance(1, date, id));
    assert Next(apps, one, Advance(1, date, id)) == Two(init, q, CheckActive(q), CheckActive(q));
  }

  lemma FirstChecks(apps: Apps, init: Life, oldId: PlanId, q: GrantRequest, id: PlanId, date: int)
    requires Scene(apps, init, oldId, q, id, date)
    ensures var checking := Two(init, q, CheckActive(q), CheckActive(q));
            && Enabled(apps, checking, Advance(0, date, id))
            && Next(apps, checking, Advance(0, date, id)) == Two(init, q, CreatePlan(q, None, None), CheckActive(q))
  {
    assert HasUsableActivePlan(init.plans, q.appId, None, init.now);
  }

  lemma SecondChecks(apps: Apps, init: Life, oldId: PlanId, q: GrantRequest, id: PlanId, date: int)
    requires Scene(apps, init, oldId, q, id, date)
    ensures var expired := Two(OldExpired(init, oldId), q, CreatePlan(q, None, None), CheckActive(q));
            && Enabled(apps, expired, Advance(1, date, id))
            && Next(apps, expired, Advance(1, date, id)) == ReadyToInsert(init, oldId, q, date)
  {
    assert !HasUsableActivePlan(OldExpired(init, oldId).plans, q.appId, None, init.now);
  }

  // The first is not to activate the plan, the second is.
  function ReadyToInsert(init: Life, oldId: PlanId, q: GrantRequest, date: int): Life
    requires oldId in init.plans
  {
    Two(OldExpired(init, oldId), q, CreatePlan(q, None, None), CreatePlan(q, Some(date), None))
  }

  // The first finds the old plan usable; the old plan expires; the second finds none.
  lemma OnlySecondIsToActivate(apps: Apps, init: Life, oldId: PlanId, q: GrantRequest, id: PlanId, date: int)
    requires Scene(apps, init, oldId, q, id, date)
    ensures Gets(apps, init, ReadyToInsert(init, oldId, q, date))
  {
    var one := Two(init, q, CreatePlan(q, None, None), CheckActive(q));
    BothRequestsLookUp(apps, init, oldId, q, id, date);
    FirstChecks(apps, init, oldId, q, id, date);
    Get(apps, init, Two(init, q, CheckActive(q), CheckActive(q)), Advance(0, date, id));
    Get(apps, init, one, ExpirePlan(oldId, q.appId));
    assert Next(apps, one, ExpirePlan(oldId, q.appId))
        == Two(OldExpired(init, oldId), q, CreatePlan(q, None, None), CheckActive(q));
    SecondChecks(apps, init, oldId, q, id, date);
    Get(apps, init, Two(OldExpired(init, oldId), q, CreatePlan(q, None, None), CheckActive(q)), Advance(1, date, id));
  }

  function Inserted(apps: Apps, init: Life, oldId: PlanId, q: GrantRequest, id: PlanId, second: Caller): Life
    requires oldId in init.plans && q.appId in apps.services
  {
    init.(plans := OldExpired(init, oldId).plans[id := NewPlan(apps, q, None, None, init.now)],
          callers := [Caller(false, id, q.appId, Succeeded), second],
          accepted := init.accepted + if second.phase.Publish? then [q, q] else [q])
  }

  lemma FirstInserts(apps: Apps, init: Life, oldId: PlanId, q: GrantRequest, id: PlanId, date: int)
    requires Scene(apps, init, oldId, q, id, date)
    ensures Enabled(apps, ReadyToInsert(init, oldId, q, date), Advance(0, date, id))
    ensures Next(apps, ReadyToInsert(init, oldId, q, date), Advance(0, date, id))
         == Inserted(apps, init, oldId, q, id, Caller(false, "", q.appId, CreatePlan(q, Some(date), None)))
  {
  }

  lemma SecondFinds(apps: Apps, init: Life, oldId: PlanId, q: GrantRequest, id: PlanId, date: int)
    requires Scene(apps, init, oldId, q, id, date)
    ensures var second := Caller(false, "", q.appId, CreatePlan(q, Some(date), None));
            var inserted := Inserted(apps, init, oldId, q, id, second);
            var doc := ForMiddlewareGrant(NewPlan(apps, q, None, None, init.now), date);
            && Enabled(apps, inserted, Advance(1, date, id))
            && Next(apps, inserted, Advance(1, date, id))
            == Inserted(apps, init, oldId, q, id, Caller(false, id, q.appId, Publish(doc)))
  {
    var inserted := Inserted(apps, init, oldId, q, id, Caller(false, "", q.appId, CreatePlan(q, Some(date), None)));
    assert HasReference(inserted.plans[id], q.appId, q.referenceId);
  }

  // The plan that the first inserts has no expiry; the second finds it and publishes the date it has proposed.
  lemma UndatedPlanIsPublished(apps: Apps, init: Life, oldId: PlanId, q: GrantRequest, id: PlanId, date: int)
    requires Scene(apps, init, oldId, q, id, date)
    ensures exists steps: seq<Step>, s: Life ::
              && EchoingRuns(apps, init, steps, s)
              && id in s.plans && s.plans[id].expiresAt.Missing?
              && |s.published| == 1 && s.published[0].plan == id && s.published[0].command.serviceType.CavachApi?
              && s.published[0].command.expiresAt == date
  {
    var p := NewPlan(apps, q, None, None, init.now);
    var found := Inserted(apps, init, oldId, q, id, Caller(false, id, q.appId, Publish(ForMiddlewareGrant(p, date))));
    OnlySecondIsToActivate(apps, init, oldId, q, id, date);
    FirstInserts(apps, init, oldId, q, id, date);
    Get(apps, init, ReadyToInsert(init, oldId, q, date), Advance(0, date, id));
    SecondFinds(apps, init, oldId, q, id, date);
    Get(apps, init, Next(apps, ReadyToInsert(init, oldId, q, date), Advance(0, date, id)), Advance(1, date, id));
    Get(apps, init, found, PublishSome(1, 1));
    SecondPublishes(apps, found, q, id, p, date);
    var s := PublishPrefix(apps, found, 1, 1);
    var steps :| EchoingRuns(apps, init, steps, s);
  }

  lemma SecondPublishes(apps: Apps, found: Life, q: GrantRequest, id: PlanId, p: Plan, date: int)
    requires IsCavach(apps, q.appId) && q.Valid() && Trim(q.referenceId) != "" && id != ""
    requires 0 < found.now < date <= MAX_SAFE_INTEGER && p == NewPlan(apps, q, None, None, found.now)
    requires found.published == [] && |found.callers| == 2
    requires found.callers[1] == Caller(false, id, q.appId, Publish(ForMiddlewareGrant(p, date)))
    ensures var s := PublishPrefix(apps, found, 1, 1);
            && s.plans == found.plans && |s.published| == 1 && s.published[0].plan == id
            && s.published[0].command.serviceType.CavachApi? && s.published[0].command.expiresAt == date
  {
    var doc := ForMiddlewareGrant(p, date);
    assert GrantError(id, doc, CavachApi, found.now) == None;
    assert |GrantCommands(id, doc, CavachApi, found.now).value| == 1;
  }
}
