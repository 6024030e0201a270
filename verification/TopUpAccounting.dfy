/**
 What the chain has granted for the plans of one application, against what the plans record. A top-up comes before
 the write that records it, so an activation or grant request may lose it on the way.
 */
module TopUpAccounting {
  import opened Prelude
  import opened CreditWallet
  import opened CreditPlans
  import opened CreditCommands
  import opened PlanLifecycle
  import LifeResults = PlanLifecycleResults

  // A step of the life cycle. A caller that is abandoned while it asks the chain may have got its top-up (`late`).
  datatype Event = Event(step: Step, late: bool)

  // --- Recorded and held amounts ---

  function AmountOf(p: Plan, app: AppId): int {
    if p.serviceId == app && p.allowance.Some? then p.allowance.value.amount else 0
  }

  ghost function SumOver(plans: Plans, ids: set<PlanId>, app: AppId): int
    requires ids <= plans.Keys
    decreases |ids|
  {
    if ids == {} then 0
    else
      var id :| id in ids;
      AmountOf(plans[id], app) + SumOver(plans, ids - {id}, app)
  }

  // The allowances that the plans of the application record.
  ghost function Recorded(plans: Plans, app: AppId): int {
    SumOver(plans, plans.Keys, app)
  }

  // What one caller has been granted on chain and not yet recorded.
  function HeldBy(a: Caller, app: AppId): int {
    match a.phase
    case WriteActivation(_, _, newAllowance) => if a.appId == app && newAllowance.Some? then newAllowance.value else 0
    case CreatePlan(r, _, newAllowance) => if r.appId == app && newAllowance.Some? then newAllowance.value else 0
    case _ => 0
  }

  function Held(callers: seq<Caller>, app: AppId): int {
    if callers == [] then 0 else Held(callers[..|callers| - 1], app) + HeldBy(callers[|callers| - 1], app)
  }

  // What the chain grants to the caller at its next call.
  function AskedBy(apps: Apps, a: Caller, app: AppId): int {
    match a.phase
    case GrantOnChain(_, _) =>
      if a.appId == app && apps.Supported(app) && TopUp(a.phase).Some? then TopUp(a.phase).value else 0
    case GrantNewOnChain(r, _) => if r.appId == app && TopUp(a.phase).Some? then TopUp(a.phase).value else 0
    case _ => 0
  }

  // The write of the caller records what it holds: the plan has no allowance yet, or is not there yet.
  predicate Records(apps: Apps, plans: Plans, a: Caller, id: PlanId) {
    match a.phase
    case WriteActivation(_, _, _) => apps.Supported(a.appId) && Present(plans, a) && plans[a.plan].allowance.None?
    case CreatePlan(r, _, _) => r.appId in apps.services && id !in plans
    case _ => true
  }

  // --- One step ---

  // Activations and grant requests each go through their own phases.
  predicate Typed(a: Caller) {
    if a.activation then a.phase.Request().None?
    else match a.phase
      case ReadPlan => false
      case Normalize(_) => false
      case FixExpiry(_) => false
      case RereadExpiry(_) => false
      case GrantOnChain(_, _) => false
      case WriteActivation(_, _, _) => false
      case _ => true
  }

  predicate AllTyped(s: Life) {
    forall c :: 0 <= c < |s.callers| ==> Typed(s.callers[c])
  }

  function Granted(apps: Apps, s: Life, e: Event, app: AppId): int {
    match e.step
    case Advance(c, _, _) => if c < |s.callers| then AskedBy(apps, s.callers[c], app) else 0
    case Abandon(c) => if c < |s.callers| && e.late then AskedBy(apps, s.callers[c], app) else 0
    case _ => 0
  }

  function Wasted(apps: Apps, s: Life, e: Event, app: AppId): int {
    match e.step
    case Advance(c, _, id) =>
      if c < |s.callers| && !Records(apps, s.plans, s.callers[c], id) then HeldBy(s.callers[c], app) else 0
    case Abandon(c) => if c < |s.callers| then HeldBy(s.callers[c], app) + Granted(apps, s, e, app) else 0
    case _ => 0
  }

  lemma {:induction false} SumRemove(plans: Plans, ids: set<PlanId>, id: PlanId, app: AppId)
    requires ids <= plans.Keys && id in ids
    ensures SumOver(plans, ids, app) == AmountOf(plans[id], app) + SumOver(plans, ids - {id}, app)
    decreases |ids|
  {
    var first :| first in ids &&
      SumOver(plans, ids, app) == AmountOf(plans[first], app) + SumOver(plans, ids - {first}, app);
    if first == id {
    } else {
      SumRemove(plans, ids - {first}, id, app);
      SumRemove(plans, ids - {id}, first, app);
      assert ids - {first} - {id} == ids - {id} - {first};
    }
  }

  lemma {:induction false} SumSame(plans: Plans, plans': Plans, ids: set<PlanId>, app: AppId)
    requires ids <= plans.Keys && ids <= plans'.Keys
    requires forall id :: id in ids ==> AmountOf(plans'[id], app) == AmountOf(plans[id], app)
    ensures SumOver(plans', ids, app) == SumOver(plans, ids, app)
    decreases |ids|
  {
    if ids == {} {
    } else {
      var id :| id in ids;
      SumRemove(plans, ids, id, app);
      SumRemove(plans', ids, id, app);
      SumSame(plans, plans', ids - {id}, app);
    }
  }

  // Writing one plan changes the sum by the change of its amount.
  lemma RecordedWrite(plans: Plans, id: PlanId, p: Plan, app: AppId)
    ensures Recorded(plans[id := p], app) ==
            Recorded(plans, app) + AmountOf(p, app) - if id in plans then AmountOf(plans[id], app) else 0
  {
    var others := plans.Keys - {id};
    SumRemove(plans[id := p], plans[id := p].Keys, id, app);
    assert plans[id := p].Keys - {id} == others;
    SumSame(plans, plans[id := p], others, app);
    if id in plans {
      SumRemove(plans, plans.Keys, id, app);
    } else {
      assert others == plans.Keys;
    }
  }

  // The allowance that an update records on a plan that has had none.
  function NewlyRecorded(plans: Plans, id: PlanId, appId: AppId, u: Update): int {
    if id !in plans || plans[id].serviceId != appId || plans[id].allowance.Some? then 0
    else if u.ActivateSsi? && u.newAllowance.Some? then u.newAllowance.value
    else 0
  }

  lemma RecordedUpdate(plans: Plans, id: PlanId, appId: AppId, u: Update, app: AppId)
    ensures Recorded(UpdatePlan(plans, id, appId, u), app) ==
            Recorded(plans, app) + if appId == app then NewlyRecorded(plans, id, appId, u) else 0
  {
    if id in plans {
      RecordedWrite(plans, id, ApplyUpdate(plans[id], u), app);
    }
  }

  lemma {:induction false} HeldUpdate(callers: seq<Caller>, c: nat, a: Caller, app: AppId)
    requires c < |callers|
    ensures Held(callers[c := a], app) == Held(callers, app) - HeldBy(callers[c], app) + HeldBy(a, app)
    decreases |callers|
  {
    var n := |callers| - 1;
    var init := callers[..n];
    if c == n {
      assert callers[c := a][..n] == init;
    } else {
      assert callers[c := a][..n] == init[c := a];
      HeldUpdate(init, c, a, app);
    }
  }

  lemma HeldAppend(callers: seq<Caller>, a: Caller, app: AppId)
    ensures Held(callers + [a], app) == Held(callers, app) + HeldBy(a, app)
  {
    assert (callers + [a])[..|callers|] == callers;
  }

  // What a call takes in equals what it leaves.
  ghost predicate Balances(apps: Apps, plans: Plans, a: Caller, o: Outcome, id: PlanId, app: AppId) {
    AskedBy(apps, a, app) + HeldBy(a, app) + Recorded(plans, app) ==
    HeldBy(o.caller, app) + Recorded(o.plans, app) + if Records(apps, plans, a, id) then 0 else HeldBy(a, app)
  }

  lemma ReadingCallBalances(apps: Apps, plans: Plans, now: int, a: Caller, date: int, id: PlanId, app: AppId)
    requires a.activation && apps.Supported(a.appId) && (a.phase.ReadPlan? || a.phase.Normalize?)
    ensures Balances(apps, plans, a, ActivationCall(apps, plans, now, a, date), id, app)
  {
    if a.phase.Normalize? {
      var update := NormalizeCriticalBalance(ResolveCriticalBalance(a.phase.doc), apps.services[a.appId]);
      RecordedUpdate(plans, a.plan, a.appId, update, app);
    }
  }

  lemma ExpiryCallBalances(apps: Apps, plans: Plans, now: int, a: Caller, date: int, id: PlanId, app: AppId)
    requires a.activation && apps.Supported(a.appId) && (a.phase.FixExpiry? || a.phase.RereadExpiry?)
    ensures Balances(apps, plans, a, ActivationCall(apps, plans, now, a, date), id, app)
  {
    RecordedUpdate(plans, a.plan, a.appId, ProposeExpiry(date), app);
  }

  lemma WriteCallBalances(apps: Apps, plans: Plans, now: int, a: Caller, date: int, id: PlanId, app: AppId)
    requires a.activation && apps.Supported(a.appId) && (a.phase.GrantOnChain? || a.phase.WriteActivation?)
    ensures Balances(apps, plans, a, ActivationCall(apps, plans, now, a, date), id, app)
  {
    if a.phase.WriteActivation? {
      var update := ActivationUpdate(now, a.phase.doc, a.phase.expiresAt, a.phase.newAllowance);
      RecordedUpdate(plans, a.plan, a.appId, update, app);
    }
  }

  lemma ActivationStaysTyped(apps: Apps, plans: Plans, now: int, a: Caller, date: int)
    requires a.activation && Typed(a)
    ensures Typed(ActivationCall(apps, plans, now, a, date).caller)
  {
  }

  lemma ActivationCallBalances(apps: Apps, plans: Plans, now: int, a: Caller, date: int, id: PlanId, app: AppId)
    requires a.activation && Typed(a)
    ensures Balances(apps, plans, a, ActivationCall(apps, plans, now, a, date), id, app)
  {
    if apps.Supported(a.appId) {
      if a.phase.ReadPlan? || a.phase.Normalize? {
        ReadingCallBalances(apps, plans, now, a, date, id, app);
      } else if a.phase.FixExpiry? || a.phase.RereadExpiry? {
        ExpiryCallBalances(apps, plans, now, a, date, id, app);
      } else if a.phase.GrantOnChain? || a.phase.WriteActivation? {
        WriteCallBalances(apps, plans, now, a, date, id, app);
      }
    }
  }

  lemma GrantStaysTyped(apps: Apps, plans: Plans, now: int, a: Caller, date: int, id: PlanId)
    requires !a.activation && Typed(a)
    ensures Typed(GrantCall(apps, plans, now, a, date, id).caller)
  {
  }

  lemma GrantCallBalances(apps: Apps, plans: Plans, now: int, a: Caller, date: int, id: PlanId, app: AppId)
    requires !a.activation && Typed(a)
    requires a.phase.Request().Some? ==> FindsReference(plans, a.phase.Request().value, id)
    ensures Balances(apps, plans, a, GrantCall(apps, plans, now, a, date, id), id, app)
  {
    if a.phase.CreatePlan? && a.phase.request.appId in apps.services && id !in plans {
      RecordedWrite(plans, id, NewPlan(apps, a.phase.request, a.phase.activate, a.phase.newAllowance, now), app);
    }
  }

  // One step: what the chain grants is what the plans and the callers gain, plus what is wasted.
  ghost predicate Accounted(apps: Apps, s: Life, e: Event, app: AppId)
    requires Enabled(apps, s, e.step)
  {
    var t := Next(apps, s, e.step);
    Granted(apps, s, e, app) + Recorded(s.plans, app) + Held(s.callers, app) ==
    Recorded(t.plans, app) + Held(t.callers, app) + Wasted(apps, s, e, app)
  }

  lemma AdvanceAccounted(apps: Apps, s: Life, e: Event, app: AppId)
    requires Enabled(apps, s, e.step) && AllTyped(s) && e.step.Advance?
    ensures Accounted(apps, s, e, app) && AllTyped(Next(apps, s, e.step))
  {
    var c := e.step.c;
    var a := s.callers[c];
    var o := CallOf(apps, s.plans, s.now, a, e.step.date, e.step.id);
    if a.activation {
      ActivationCallBalances(apps, s.plans, s.now, a, e.step.date, e.step.id, app);
      ActivationStaysTyped(apps, s.plans, s.now, a, e.step.date);
    } else {
      GrantCallBalances(apps, s.plans, s.now, a, e.step.date, e.step.id, app);
      GrantStaysTyped(apps, s.plans, s.now, a, e.step.date, e.step.id);
    }
    HeldUpdate(s.callers, c, o.caller, app);
  }

  lemma PublishAccounted(apps: Apps, s: Life, e: Event, app: AppId)
    requires Enabled(apps, s, e.step) && AllTyped(s) && e.step.PublishSome?
    ensures Accounted(apps, s, e, app) && AllTyped(Next(apps, s, e.step))
  {
    var t := Next(apps, s, e.step);
    PublishEnds(apps, s, e.step.c, e.step.count);
    CallerEnds(s, t, e.step.c, app);
  }

  // Of a caller that ends without holding anything nothing is left, and nobody else moves.
  lemma CallerEnds(s: Life, t: Life, c: nat, app: AppId)
    requires AllTyped(s) && c < |s.callers| && HeldBy(s.callers[c], app) == 0
    requires |t.callers| == |s.callers| && t.callers == s.callers[c := t.callers[c]] && t.callers[c].phase.Ended()
    ensures AllTyped(t) && Held(t.callers, app) == Held(s.callers, app)
  {
    HeldUpdate(s.callers, c, t.callers[c], app);
  }

  lemma AbandonAccounted(apps: Apps, s: Life, e: Event, app: AppId)
    requires Enabled(apps, s, e.step) && AllTyped(s) && e.step.Abandon?
    ensures Accounted(apps, s, e, app) && AllTyped(Next(apps, s, e.step))
  {
    HeldUpdate(s.callers, e.step.c, s.callers[e.step.c].(phase := Failed), app);
  }

  lemma StartAccounted(apps: Apps, s: Life, e: Event, app: AppId)
    requires AllTyped(s) && (e.step.StartActivation? || e.step.StartGrant?)
    ensures Accounted(apps, s, e, app) && AllTyped(Next(apps, s, e.step))
  {
    var t := Next(apps, s, e.step);
    var a := t.callers[|s.callers|];
    assert t.callers == s.callers + [a];
    HeldAppend(s.callers, a, app);
  }

  // Steps of no caller change neither what callers hold nor what plans record.
  lemma PlanStepAccounted(apps: Apps, s: Life, e: Event, app: AppId)
    requires Enabled(apps, s, e.step) && AllTyped(s)
    requires e.step.DebitPlan? || e.step.ExpirePlan? || e.step.GrantedEvent? || e.step.Tick?
    ensures Accounted(apps, s, e, app) && AllTyped(Next(apps, s, e.step))
  {
    match e.step
    case DebitPlan(commit) => RecordedWrite(s.plans, commit.planId, Debit(s.plans[commit.planId], commit), app);
    case ExpirePlan(plan, appId) => RecordedUpdate(s.plans, plan, appId, PlanExpired, app);
    case GrantedEvent(plan, appId, expiresAt) => RecordedUpdate(s.plans, plan, appId, CreditGranted(expiresAt), app);
    case Tick(ms) =>
  }

  lemma StepAccounted(apps: Apps, s: Life, e: Event, app: AppId)
    requires Enabled(apps, s, e.step) && AllTyped(s)
    ensures Accounted(apps, s, e, app) && AllTyped(Next(apps, s, e.step))
  {
    if e.step.Advance? {
      AdvanceAccounted(apps, s, e, app);
    } else if e.step.PublishSome? {
      PublishAccounted(apps, s, e, app);
    } else if e.step.Abandon? {
      AbandonAccounted(apps, s, e, app);
    } else if e.step.StartActivation? || e.step.StartGrant? {
      StartAccounted(apps, s, e, app);
    } else {
      PlanStepAccounted(apps, s, e, app);
    }
  }

  // --- Runs ---

  ghost predicate Runs(apps: Apps, s: Life, events: seq<Event>, t: Life)
    decreases |events|
  {
    if events == [] then s == t
    else Enabled(apps, s, events[0].step) && Runs(apps, Next(apps, s, events[0].step), events[1..], t)
  }

  ghost function TotalGranted(apps: Apps, s: Life, events: seq<Event>, t: Life, app: AppId): int
    requires Runs(apps, s, events, t)
    decreases |events|
  {
    if events == [] then 0
    else Granted(apps, s, events[0], app) + TotalGranted(apps, Next(apps, s, events[0].step), events[1..], t, app)
  }

  ghost function TotalWasted(apps: Apps, s: Life, events: seq<Event>, t: Life, app: AppId): int
    requires Runs(apps, s, events, t)
    decreases |events|
  {
    if events == [] then 0
    else Wasted(apps, s, events[0], app) + TotalWasted(apps, Next(apps, s, events[0].step), events[1..], t, app)
  }

  lemma {:induction false} RunAccounted(apps: Apps, s: Life, events: seq<Event>, t: Life, app: AppId)
    requires AllTyped(s) && Runs(apps, s, events, t)
    ensures TotalGranted(apps, s, events, t, app) + Recorded(s.plans, app) + Held(s.callers, app) ==
            Recorded(t.plans, app) + Held(t.callers, app) + TotalWasted(apps, s, events, t, app)
    decreases |events|
  {
    if events == [] {
    } else {
      StepAccounted(apps, s, events[0], app);
      RunAccounted(apps, Next(apps, s, events[0].step), events[1..], t, app);
    }
  }

  // No top-up is wasted: every write finds a plan without an allowance, or none yet, and no caller is abandoned
  // between its top-up and its write.
  ghost predicate NothingWasted(apps: Apps, s: Life, events: seq<Event>, t: Life, app: AppId)
    requires Runs(apps, s, events, t)
    decreases |events|
  {
    events != [] ==>
      && SparesTopUp(apps, s, events[0], app)
      && NothingWasted(apps, Next(apps, s, events[0].step), events[1..], t, app)
  }

  predicate SparesTopUp(apps: Apps, s: Life, e: Event, app: AppId) {
    match e.step
    case Advance(c, _, id) =>
      c < |s.callers| && HeldBy(s.callers[c], app) != 0 ==> Records(apps, s.plans, s.callers[c], id)
    case Abandon(c) =>
      c < |s.callers| ==> HeldBy(s.callers[c], app) == 0 && (e.late ==> AskedBy(apps, s.callers[c], app) == 0)
    case _ => true
  }

  lemma WastedSign(apps: Apps, s: Life, e: Event, app: AppId)
    requires Inv(apps, s) && Enabled(apps, s, e.step)
    ensures Wasted(apps, s, e, app) >= 0
    ensures Wasted(apps, s, e, app) == 0 <==> SparesTopUp(apps, s, e, app)
  {
    if e.step.Advance? || e.step.Abandon? {
      assert CallerOk(apps, s.plans, s.callers[e.step.c]);
    }
  }

  lemma {:induction false} TotalWastedSign(apps: Apps, s: Life, events: seq<Event>, t: Life, app: AppId)
    requires Inv(apps, s) && Runs(apps, s, events, t)
    ensures TotalWasted(apps, s, events, t, app) >= 0
    ensures TotalWasted(apps, s, events, t, app) == 0 <==> NothingWasted(apps, s, events, t, app)
    decreases |events|
  {
    if events == [] {
    } else {
      WastedSign(apps, s, events[0], app);
      NextInv(apps, s, events[0].step);
      TotalWastedSign(apps, Next(apps, s, events[0].step), events[1..], t, app);
    }
  }

  // --- Main results ---

  // Over any run: what the chain has granted for the application is what its plans record more
  // than before, plus what callers still hold, plus what was wasted. Plans never record more than was granted.
  lemma TopUpsAccounted(apps: Apps, s: Life, events: seq<Event>, t: Life, app: AppId)
    requires LifeResults.Init(s) && Runs(apps, s, events, t)
    ensures TotalGranted(apps, s, events, t, app) ==
            Recorded(t.plans, app) - Recorded(s.plans, app) + Held(t.callers, app) +
              TotalWasted(apps, s, events, t, app)
    ensures TotalWasted(apps, s, events, t, app) >= 0
  {
    RunAccounted(apps, s, events, t, app);
    TotalWastedSign(apps, s, events, t, app);
  }

  // When no caller holds a top-up any more, the plans record exactly what the chain has granted if and only if
  // nothing was wasted.
  lemma RecordedIffNothingWasted(apps: Apps, s: Life, events: seq<Event>, t: Life, app: AppId)
    requires LifeResults.Init(s) && Runs(apps, s, events, t) && Held(t.callers, app) == 0
    ensures TotalGranted(apps, s, events, t, app) == Recorded(t.plans, app) - Recorded(s.plans, app)
            <==> NothingWasted(apps, s, events, t, app)
  {
    TopUpsAccounted(apps, s, events, t, app);
    TotalWastedSign(apps, s, events, t, app);
  }

  // --- Top-ups that are wasted ---

  // A plan that an SSI activation takes to the chain in three calls.
  predicate NeedsTopUp(apps: Apps, s: Life, plan: PlanId, app: AppId) {
    && apps.Supported(app) && apps.services[app].SsiApi?
    && plan in s.plans && s.plans[plan].serviceId == app && s.plans[plan].allowance.None?
    && s.plans[plan].expiresAt.Missing? && s.plans[plan].used < s.plans[plan].total
    && s.plans[plan].criticalBalance == Some(ResolveCriticalBalance(s.plans[plan]))
    && SsiOnChainAllowance(s.plans[plan].total - s.plans[plan].used).Some?
  }

  // Some run leads from s to t, and the chain grants this amount on the way.
  ghost predicate Grants(apps: Apps, s: Life, t: Life, app: AppId, amount: int) {
    exists events: seq<Event> :: Runs(apps, s, events, t) && TotalGranted(apps, s, events, t, app) == amount
  }

  lemma {:induction false} RunsThen(apps: Apps, s: Life, events: seq<Event>, t: Life, last: Event, app: AppId)
    requires Runs(apps, s, events, t) && Enabled(apps, t, last.step)
    ensures Runs(apps, s, events + [last], Next(apps, t, last.step))
    ensures TotalGranted(apps, s, events + [last], Next(apps, t, last.step), app) ==
            TotalGranted(apps, s, events, t, app) + Granted(apps, t, last, app)
    decreases |events|
  {
    if events == [] {
      assert events + [last] == [last] && [last][1..] == [];
    } else {
      assert (events + [last])[1..] == events[1..] + [last];
      RunsThen(apps, Next(apps, s, events[0].step), events[1..], t, last, app);
    }
  }

  lemma GrantsThen(apps: Apps, s: Life, t: Life, last: Step, app: AppId, amount: int)
    requires Grants(apps, s, t, app, amount) && Enabled(apps, t, last)
    ensures Grants(apps, s, Next(apps, t, last), app, amount + Granted(apps, t, Event(last, false), app))
  {
    var events :| Runs(apps, s, events, t) && TotalGranted(apps, s, events, t, app) == amount;
    RunsThen(apps, s, events, t, Event(last, false), app);
  }

  // One more activation of the plan, at the given phase.
  function Joined(s: Life, plan: PlanId, app: AppId, phase: Phase): Life {
    s.(callers := s.callers + [Caller(true, plan, app, phase)])
  }

  lemma ReachesChain(apps: Apps, s: Life, plan: PlanId, app: AppId, date: int)
    requires NeedsTopUp(apps, s, plan, app)
    ensures var c, p := |s.callers|, s.plans[plan];
            && Next(apps, s, StartActivation(plan, app)) == Joined(s, plan, app, ReadPlan)
            && Next(apps, Joined(s, plan, app, ReadPlan), Advance(c, date, plan)) == Joined(s, plan, app, FixExpiry(p))
            && Next(apps, Joined(s, plan, app, FixExpiry(p)), Advance(c, date, plan))
            == Joined(s, plan, app, GrantOnChain(p, date))
  {
  }

  lemma ToppedUp(apps: Apps, s: Life, plan: PlanId, app: AppId, date: int)
    requires NeedsTopUp(apps, s, plan, app)
    ensures var c, asking := |s.callers|, Joined(s, plan, app, GrantOnChain(s.plans[plan], date));
            var amount := TopUp(GrantOnChain(s.plans[plan], date));
            && Next(apps, asking, Advance(c, date, plan))
            == Joined(s, plan, app, WriteActivation(s.plans[plan], date, amount))
            && Granted(apps, asking, Event(Advance(c, date, plan), false), app) == amount.value > 0
  {
  }

  // The amount the chain grants to an activation of the plan.
  function Need(s: Life, plan: PlanId): int
    requires plan in s.plans && SsiOnChainAllowance(s.plans[plan].total - s.plans[plan].used).Some?
  {
    SsiOnChainAllowance(s.plans[plan].total - s.plans[plan].used).value
  }

  // An activation that has its top-up and has not written yet.
  function Writing(s: Life, plan: PlanId, app: AppId, date: int): Life
    requires plan in s.plans && SsiOnChainAllowance(s.plans[plan].total - s.plans[plan].used).Some?
  {
    Joined(s, plan, app, WriteActivation(s.plans[plan], date, Some(Need(s, plan))))
  }

  lemma ActivationGetsTopUp(apps: Apps, init: Life, s: Life, plan: PlanId, app: AppId, date: int, amount: int)
    requires NeedsTopUp(apps, s, plan, app) && Grants(apps, init, s, app, amount)
    ensures Grants(apps, init, Writing(s, plan, app, date), app, amount + Need(s, plan))
  {
    var c, p := |s.callers|, s.plans[plan];
    ReachesChain(apps, s, plan, app, date);
    ToppedUp(apps, s, plan, app, date);
    GrantsThen(apps, init, s, StartActivation(plan, app), app, amount);
    GrantsThen(apps, init, Joined(s, plan, app, ReadPlan), Advance(c, date, plan), app, amount);
    GrantsThen(apps, init, Joined(s, plan, app, FixExpiry(p)), Advance(c, date, plan), app, amount);
    GrantsThen(apps, init, Joined(s, plan, app, GrantOnChain(p, date)), Advance(c, date, plan), app, amount);
  }

  lemma NothingGranted(apps: Apps, s: Life, app: AppId)
    ensures Grants(apps, s, s, app, 0)
  {
    assert Runs(apps, s, [], s) && TotalGranted(apps, s, [], s, app) == 0;
  }

  // An activation that is abandoned after its top-up leaves an amount on chain that no plan records.
  lemma AbandonedTopUpIsWasted(apps: Apps, s: Life, plan: PlanId, app: AppId, date: int)
    requires LifeResults.Init(s) && NeedsTopUp(apps, s, plan, app)
    ensures exists t: Life :: t.plans == s.plans && Held(t.callers, app) == 0 && Grants(apps, s, t, app, Need(s, plan))
  {
    var writing := Writing(s, plan, app, date);
    NothingGranted(apps, s, app);
    ActivationGetsTopUp(apps, s, s, plan, app, date, 0);
    GrantsThen(apps, s, writing, Abandon(0), app, Need(s, plan));
    HeldByNone(Next(apps, writing, Abandon(0)).callers, app);
  }

  // The write of an activation that holds a top-up: the plan ends with its allowance if it had none.
  lemma WriteRecords(apps: Apps, s: Life, c: nat, plan: PlanId, app: AppId, doc: Plan, date: int, amount: int)
    requires c < |s.callers| && s.callers[c] == Caller(true, plan, app, WriteActivation(doc, date, Some(amount)))
    requires apps.Supported(app) && plan in s.plans && s.plans[plan].serviceId == app
    ensures var t := Next(apps, s, Advance(c, date, plan));
            && t.plans.Keys == s.plans.Keys && t.plans[plan].serviceId == app
            && t.plans[plan].allowance ==
               (if s.plans[plan].allowance.None? then Some(Allowance(amount, 0)) else s.plans[plan].allowance)
            && |t.callers| == |s.callers| && t.callers == s.callers[c := t.callers[c]] && HeldBy(t.callers[c], app) == 0
            && Granted(apps, s, Event(Advance(c, date, plan), false), app) == 0
  {
  }

  function BothWriting(s: Life, plan: PlanId, app: AppId, date: int): Life
    requires plan in s.plans && SsiOnChainAllowance(s.plans[plan].total - s.plans[plan].used).Some?
  {
    Writing(Writing(s, plan, app, date), plan, app, date)
  }

  lemma BothGetTopUps(apps: Apps, s: Life, plan: PlanId, app: AppId, date: int)
    requires LifeResults.Init(s) && NeedsTopUp(apps, s, plan, app)
    ensures Grants(apps, s, BothWriting(s, plan, app, date), app, 2 * Need(s, plan))
  {
    NothingGranted(apps, s, app);
    ActivationGetsTopUp(apps, s, s, plan, app, date, 0);
    ActivationGetsTopUp(apps, s, Writing(s, plan, app, date), plan, app, date, Need(s, plan));
  }

  lemma BothWrite(apps: Apps, init: Life, s: Life, plan: PlanId, app: AppId, doc: Plan, date: int, amount: int,
                  sum: int)
    returns (t: Life)
    requires apps.Supported(app) && plan in s.plans && s.plans[plan].serviceId == app && s.plans[plan].allowance.None?
    requires var a := Caller(true, plan, app, WriteActivation(doc, date, Some(amount))); s.callers == [a, a]
    requires Grants(apps, init, s, app, sum)
    ensures plan in t.plans && t.plans[plan].allowance == Some(Allowance(amount, 0))
    ensures Held(t.callers, app) == 0 && Grants(apps, init, t, app, sum)
  {
    GrantsThen(apps, init, s, Advance(0, date, plan), app, sum);
    WriteRecords(apps, s, 0, plan, app, doc, date, amount);
    t := Next(apps, s, Advance(0, date, plan));
    assert t.callers[1] == s.callers[1];
    GrantsThen(apps, init, t, Advance(1, date, plan), app, sum);
    WriteRecords(apps, t, 1, plan, app, doc, date, amount);
    t := Next(apps, t, Advance(1, date, plan));
    HeldByNone(t.callers, app);
  }

  // Two first activations of one plan at the same time: the chain grants twice what the plan records.
  lemma SecondTopUpIsWasted(apps: Apps, s: Life, plan: PlanId, app: AppId, date: int)
    requires LifeResults.Init(s) && NeedsTopUp(apps, s, plan, app)
    ensures exists t: Life ::
              && plan in t.plans && t.plans[plan].allowance == Some(Allowance(Need(s, plan), 0))
              && Held(t.callers, app) == 0 && Grants(apps, s, t, app, 2 * Need(s, plan))
  {
    var amount, both := Need(s, plan), BothWriting(s, plan, app, date);
    BothGetTopUps(apps, s, plan, app, date);
    var t := BothWrite(apps, s, both, plan, app, s.plans[plan], date, amount, 2 * amount);
  }

  lemma {:induction false} HeldByNone(callers: seq<Caller>, app: AppId)
    requires forall c :: 0 <= c < |callers| ==> HeldBy(callers[c], app) == 0
    ensures Held(callers, app) == 0
    decreases |callers|
  {
    if callers == [] {
    } else {
      HeldByNone(callers[..|callers| - 1], app);
    }
  }
}
