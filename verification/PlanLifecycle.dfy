/**
 The plan life cycle as a state machine: activations, grant requests, commits, expiries and granted events of
 any number of callers interleave, one repository call at a time. An activation or a grant request keeps the
 documents it has read, which may be out of date by the time it writes or publishes. Either may be abandoned
 at any point, after a call that took effect or before.
 */
module PlanLifecycle {
  import opened Prelude
  import opened CreditWallet
  import opened CreditPlans
  import opened CreditCommands

  // --- How a document may change ---

  // What never changes between an older and a newer version of one plan document.
  ghost predicate Evolves(old_: Plan, new_: Plan) {
    && old_.serviceId == new_.serviceId
    && old_.referenceId == new_.referenceId
    && old_.total == new_.total
    && old_.validityDays == new_.validityDays
    && old_.source == new_.source
    && old_.createdAt == new_.createdAt
    && ResolveCriticalBalance(old_) == ResolveCriticalBalance(new_)
    && (ValidCriticalBalance(old_) ==> new_.criticalBalance == old_.criticalBalance)
    && old_.used <= new_.used
    && old_.Used(BlockchainTxnCredit) <= new_.Used(BlockchainTxnCredit)
    && (old_.allowance.Some? ==> new_.allowance.Some? && new_.allowance.value.amount == old_.allowance.value.amount)
    && (|old_.scopes| > 0 ==> new_.scopes == old_.scopes)
    && (old_.expiresAt.At? ==> new_.expiresAt.At?)
  }

  predicate ValidCriticalBalance(p: Plan) {
    p.criticalBalance.Some? && 0 <= p.criticalBalance.value <= MAX_SAFE_INTEGER
  }

  lemma EvolvesTransitive(a: Plan, b: Plan, c: Plan)
    requires Evolves(a, b) && Evolves(b, c)
    ensures Evolves(a, c)
  {
  }

  // Totals are positive safe integers wherever a plan is created.
  predicate SoundTotal(p: Plan) {
    0 < p.total <= MAX_SAFE_INTEGER
  }

  lemma DebitEvolves(p: Plan, c: Commit)
    requires Fits(p, c) && c.Valid()
    ensures Evolves(p, Debit(p, c))
  {
  }

  // An update that writes a critical balance writes the one resolved from some version of the document.
  predicate WritesResolved(p: Plan, u: Update) {
    u.NormalizeCriticalBalance? || u.ActivateSsi? ==> u.criticalBalance == ResolveCriticalBalance(p)
  }

  lemma UpdateEvolves(p: Plan, u: Update)
    requires SoundTotal(p) && WritesResolved(p, u) && ValidUpdate(u) && p.InBounds()
    ensures Evolves(p, ApplyUpdate(p, u))
  {
  }

  // --- The machine ---

  // The part of grantCredit's input that the source compares on a repeated reference id.
  datatype GrantRequest = GrantRequest(appId: AppId, referenceId: string, total: int, validityDays: int,
    source: CreditSource) {
    function CriticalBalance(): int {
      FourTenths(total)
    }

    predicate Valid() {
      0 < total <= MAX_SAFE_INTEGER
    }
  }

  predicate Agrees(p: Plan, r: GrantRequest) {
    && p.total == r.total
    && p.criticalBalance == Some(r.CriticalBalance())
    && p.validityDays == r.validityDays
    && p.source == r.source
  }

  // Both kinds of caller end by publishing the commands of a document.
  datatype Phase =
    // activateCredit
    | ReadPlan
    | Normalize(doc: Plan)
    | FixExpiry(doc: Plan)
    | RereadExpiry(doc: Plan)
    | GrantOnChain(doc: Plan, expiresAt: int)
    | WriteActivation(doc: Plan, expiresAt: int, newAllowance: Option<int>)
    // grantCredit
    | Lookup(request: GrantRequest)
    | CheckActive(request: GrantRequest)
    | GrantNewOnChain(request: GrantRequest, expiresAt: int)
    | CreatePlan(request: GrantRequest, activate: Option<int>, newAllowance: Option<int>)
    // both
    | Publish(doc: Plan)
    | Succeeded
    | Failed
  {
    // The document this caller relies on, if it has read one.
    function Held(): Option<Plan> {
      match this
      case Normalize(doc) => Some(doc)
      case FixExpiry(doc) => Some(doc)
      case RereadExpiry(doc) => Some(doc)
      case GrantOnChain(doc, _) => Some(doc)
      case WriteActivation(doc, _, _) => Some(doc)
      case Publish(doc) => Some(doc)
      case _ => None
    }

    predicate Ended() {
      Succeeded? || Failed?
    }

    function Request(): Option<GrantRequest> {
      match this
      case Lookup(r) => Some(r)
      case CheckActive(r) => Some(r)
      case GrantNewOnChain(r, _) => Some(r)
      case CreatePlan(r, _, _) => Some(r)
      case _ => None
    }
  }

  // `activation` tells an activateCredit caller from a grantCredit caller.
  datatype Caller = Caller(activation: bool, plan: PlanId, appId: AppId, phase: Phase)

  // A command in the queue, with who published it, when, and from which document.
  datatype PublishedGrant = PublishedGrant(plan: PlanId, byActivation: bool, at: int, doc: Plan, command: GrantCommand)

  // `services` is the service configured for each application.
  datatype Apps = Apps(services: map<AppId, ServiceType>) {
    predicate Supported(appId: AppId) {
      appId in services && (services[appId].SsiApi? || services[appId].CavachApi?)
    }
  }

  datatype Life = Life(
    plans: Plans, now: int, callers: seq<Caller>,
    published: seq<PublishedGrant>, accepted: seq<GrantRequest>)

  const ALL_SCOPES: seq<Scope> := [
    MsgRegisterDid, MsgDeactivateDid, MsgRegisterCredentialSchema,
    MsgUpdateDid, MsgUpdateCredentialStatus, MsgRegisterCredentialStatus]

  const SSI_ON_CHAIN_ALLOWANCE_MULTIPLIER: int := 2000

  // 2000 uhid of allowance per API credit, if credits and allowance are safe integers.
  function SsiOnChainAllowance(apiCredits: int): (r: Option<int>)
    ensures r.Some? <==> 0 < apiCredits && 2000 * apiCredits <= MAX_SAFE_INTEGER
    ensures r.Some? ==> r.value == 2000 * apiCredits
  {
    if 0 < apiCredits && apiCredits * SSI_ON_CHAIN_ALLOWANCE_MULTIPLIER <= MAX_SAFE_INTEGER
    then Some(apiCredits * SSI_ON_CHAIN_ALLOWANCE_MULTIPLIER)
    else None
  }

  // The amount a caller is about to ask the chain for.
  function TopUp(phase: Phase): Option<int> {
    match phase
    case GrantOnChain(doc, _) => SsiOnChainAllowance(doc.total - doc.used)
    case GrantNewOnChain(r, _) => SsiOnChainAllowance(r.total)
    case _ => None
  }

  predicate UsableAllowance(a: Allowance) {
    0 < a.amount <= MAX_SAFE_INTEGER && 0 <= a.usedAmount < a.amount
  }

  // An ACTIVE plan of the service, other than `exclude`, unexpired and with API credits left.
  predicate UsableActivePlan(p: Plan, id: PlanId, appId: AppId, exclude: Option<PlanId>, now: int) {
    && p.serviceId == appId && p.status.Active? && exclude != Some(id)
    && (p.expiresAt.At? ==> now < p.expiresAt.time)
    && p.used < p.total
  }

  predicate HasUsableActivePlan(plans: Plans, appId: AppId, exclude: Option<PlanId>, now: int) {
    exists id :: id in plans && UsableActivePlan(plans[id], id, appId, exclude, now)
  }

  // What processCriticalBalance looks for: an INACTIVE plan that never had an expiry.
  predicate Unused(p: Plan, appId: AppId) {
    p.serviceId == appId && p.status.Inactive? && p.expiresAt.Missing?
  }

  // What an activation must find: a plan of the application that has neither run out nor been used up.
  predicate Activatable(plans: Plans, plan: PlanId, appId: AppId, now: int) {
    && plan in plans && plans[plan].serviceId == appId
    && (plans[plan].expiresAt.At? ==> now < plans[plan].expiresAt.time)
    && plans[plan].used < plans[plan].total
  }

  predicate HasReference(p: Plan, appId: AppId, referenceId: string) {
    p.serviceId == appId && p.referenceId == referenceId
  }

  // The document grantCredit hands to the middleware: forced ACTIVE, with its expiry and resolved balance.
  function ForMiddlewareGrant(p: Plan, expiresAt: int): Plan {
    p.(status := Active, expiresAt := At(expiresAt), criticalBalance := Some(ResolveCriticalBalance(p)))
  }

  // The plan grantCredit writes when the reference id is new.
  function NewPlan(apps: Apps, r: GrantRequest, activate: Option<int>, newAllowance: Option<int>, now: int): Plan
    requires r.appId in apps.services
  {
    var ssi := apps.services[r.appId].SsiApi?;
    Plan(
      r.appId, apps.services[r.appId], r.referenceId, r.total, 0,
      if newAllowance.Some? then Some(Allowance(newAllowance.value, 0)) else None,
      if newAllowance.Some? then ALL_SCOPES else [],
      Some(r.CriticalBalance()), r.validityDays,
      if activate.Some? then At(activate.value) else Missing,
      if activate.Some? && ssi then Active else Inactive,
      r.source, Some(now))
  }

  datatype Step =
    | StartActivation(plan: PlanId, appId: AppId)
    | StartGrant(request: GrantRequest)
    // One call of a caller; the environment chooses a proposed date and which plan a lookup by reference finds.
    | Advance(c: nat, date: int, id: PlanId)
    // Publication of a prefix of the commands; anything short of all of them is a failure.
    | PublishSome(c: nat, count: nat)
    | Abandon(c: nat)
    | DebitPlan(commit: Commit)
    | ExpirePlan(plan: PlanId, appId: AppId)
    | GrantedEvent(plan: PlanId, appId: AppId, expiresAt: int)
    | Tick(ms: nat)

  function Move(s: Life, c: nat, phase: Phase): Life
    requires c < |s.callers|
  {
    s.(callers := s.callers[c := s.callers[c].(phase := phase)])
  }

  // What one call leaves behind: the plans, the caller, and the request it has accepted, if any.
  datatype Outcome = Outcome(plans: Plans, caller: Caller, accepted: seq<GrantRequest>)

  function Go(plans: Plans, a: Caller, phase: Phase): Outcome {
    Outcome(plans, a.(phase := phase), [])
  }

  // --- activateCredit, one call at a time ---

  // The expiry is settled; what remains is the on-chain allowance for SSI and publication for CAVACH.
  function AfterExpiry(apps: Apps, appId: AppId, doc: Plan, expiresAt: int): Phase
    requires apps.Supported(appId)
  {
    if apps.services[appId].CavachApi? then Publish(ForMiddlewareGrant(doc, expiresAt))
    else match doc.allowance
      case Some(a) => if UsableAllowance(a) then WriteActivation(doc, expiresAt, None) else Failed
      case None => GrantOnChain(doc, expiresAt)
  }

  // The plan is there for this caller's filter { _id, serviceId }.
  predicate Present(plans: Plans, a: Caller) {
    a.plan in plans && plans[a.plan].serviceId == a.appId
  }

  function ReadCall(plans: Plans, now: int, a: Caller): Outcome {
    if !Present(plans, a) then Go(plans, a, Failed)
    else
      var doc := plans[a.plan];
      if (doc.expiresAt.At? && doc.expiresAt.time <= now) || doc.used >= doc.total then Go(plans, a, Failed)
      else if doc.criticalBalance != Some(ResolveCriticalBalance(doc)) then Go(plans, a, Normalize(doc))
      else Go(plans, a, FixExpiry(doc))
  }

  function NormalizeCall(apps: Apps, plans: Plans, a: Caller, doc: Plan): Outcome
    requires apps.Supported(a.appId)
  {
    var plans' := UpdatePlan(plans, a.plan, a.appId,
      NormalizeCriticalBalance(ResolveCriticalBalance(doc), apps.services[a.appId]));
    if Present(plans', a) then Go(plans', a, FixExpiry(plans'[a.plan])) else Go(plans', a, Failed)
  }

  function FixExpiryCall(apps: Apps, plans: Plans, a: Caller, doc: Plan, date: int): Outcome
    requires apps.Supported(a.appId)
  {
    if doc.expiresAt.At? then Go(plans, a, AfterExpiry(apps, a.appId, doc, doc.expiresAt.time))
    else if apps.services[a.appId].SsiApi? then Go(plans, a, AfterExpiry(apps, a.appId, doc, date))
    else if Present(plans, a) && !plans[a.plan].expiresAt.At? then
      Go(UpdatePlan(plans, a.plan, a.appId, ProposeExpiry(date)), a, AfterExpiry(apps, a.appId, doc, date))
    else Go(plans, a, RereadExpiry(doc))
  }

  function RereadCall(apps: Apps, plans: Plans, a: Caller, doc: Plan): Outcome
    requires apps.Supported(a.appId)
  {
    if Present(plans, a) && plans[a.plan].expiresAt.At?
    then Go(plans, a, AfterExpiry(apps, a.appId, doc, plans[a.plan].expiresAt.time))
    else Go(plans, a, Failed)
  }

  function GrantOnChainCall(plans: Plans, a: Caller, doc: Plan, expiresAt: int): Outcome {
    match SsiOnChainAllowance(doc.total - doc.used)
    case None => Go(plans, a, Failed)
    case Some(amount) => Go(plans, a, WriteActivation(doc, expiresAt, Some(amount)))
  }

  function ActivationUpdate(now: int, doc: Plan, expiresAt: int, newAllowance: Option<int>): Update {
    ActivateSsi(now, expiresAt, ResolveCriticalBalance(doc), newAllowance,
                if newAllowance.Some? then Some(ALL_SCOPES) else None)
  }

  function WriteCall(plans: Plans, now: int, a: Caller, doc: Plan, expiresAt: int, newAllowance: Option<int>): Outcome {
    var plans' := UpdatePlan(plans, a.plan, a.appId, ActivationUpdate(now, doc, expiresAt, newAllowance));
    if Present(plans', a) && plans'[a.plan].status.Active? then Go(plans', a, Publish(plans'[a.plan]))
    else Go(plans', a, Failed)
  }

  function ActivationCall(apps: Apps, plans: Plans, now: int, a: Caller, date: int): Outcome {
    if !apps.Supported(a.appId) then Go(plans, a, Failed)
    else match a.phase
      case ReadPlan => ReadCall(plans, now, a)
      case Normalize(doc) => NormalizeCall(apps, plans, a, doc)
      case FixExpiry(doc) => FixExpiryCall(apps, plans, a, doc, date)
      case RereadExpiry(doc) => RereadCall(apps, plans, a, doc)
      case GrantOnChain(doc, expiresAt) => GrantOnChainCall(plans, a, doc, expiresAt)
      case WriteActivation(doc, expiresAt, newAllowance) => WriteCall(plans, now, a, doc, expiresAt, newAllowance)
      case _ => Go(plans, a, a.phase)
  }

  // --- grantCredit, one call at a time ---

  function AcceptExisting(apps: Apps, plans: Plans, a: Caller, r: GrantRequest, id: PlanId): Outcome
    requires id in plans && r.appId in apps.services
  {
    var p := plans[id];
    if !Agrees(p, r) then Go(plans, a, Failed)
    else
      var retryKyc := apps.services[r.appId].CavachApi? && p.status.Inactive?;
      var retrySsi := apps.services[r.appId].SsiApi? && p.status.Active? && p.allowance.Some?;
      var phase :=
        if p.expiresAt.At? && (retryKyc || retrySsi) then Publish(ForMiddlewareGrant(p, p.expiresAt.time))
        else Succeeded;
      Outcome(plans, a.(plan := id, phase := phase), [r])
  }

  function AcceptCreated(apps: Apps, plans: Plans, a: Caller, r: GrantRequest, id: PlanId,
      activate: Option<int>): Outcome
    requires id in plans && r.appId in apps.services
  {
    var p := plans[id];
    if !Agrees(p, r) then Go(plans, a, Failed)
    else
      var phase :=
        if activate.None? then Succeeded
        else if apps.services[r.appId].SsiApi? then Publish(p)
        else Publish(ForMiddlewareGrant(p, if p.expiresAt.At? then p.expiresAt.time else activate.value));
      Outcome(plans, a.(plan := id, phase := phase), [r])
  }

  // `id` is the plan that carries the reference id, when there is one, and a fresh id otherwise.
  function GrantCall(apps: Apps, plans: Plans, now: int, a: Caller, date: int, id: PlanId): Outcome {
    match a.phase
    case Lookup(r) =>
      if r.appId !in apps.services || !r.Valid() then Go(plans, a, Failed)
      else if id in plans && HasReference(plans[id], r.appId, r.referenceId) then AcceptExisting(apps, plans, a, r, id)
      else Go(plans, a, CheckActive(r))
    case CheckActive(r) =>
      if r.appId !in apps.services then Go(plans, a, Failed)
      else if HasUsableActivePlan(plans, r.appId, None, now) then Go(plans, a, CreatePlan(r, None, None))
      else if apps.services[r.appId].SsiApi? then Go(plans, a, GrantNewOnChain(r, date))
      else Go(plans, a, CreatePlan(r, Some(date), None))
    case GrantNewOnChain(r, expiresAt) =>
      (match SsiOnChainAllowance(r.total)
       case None => Go(plans, a, Failed)
       case Some(amount) => Go(plans, a, CreatePlan(r, Some(expiresAt), Some(amount))))
    case CreatePlan(r, activate, newAllowance) =>
      if r.appId !in apps.services then Go(plans, a, Failed)
      else if id in plans && HasReference(plans[id], r.appId, r.referenceId) then
        AcceptCreated(apps, plans, a, r, id, activate)
      else if id in plans then Go(plans, a, a.phase)
      else AcceptCreated(apps, plans[id := NewPlan(apps, r, activate, newAllowance, now)], a, r, id, activate)
    case _ => Go(plans, a, a.phase)
  }

  function CallOf(apps: Apps, plans: Plans, now: int, a: Caller, date: int, id: PlanId): Outcome {
    if a.activation then ActivationCall(apps, plans, now, a, date) else GrantCall(apps, plans, now, a, date, id)
  }

  ghost predicate Enabled(apps: Apps, s: Life, step: Step) {
    match step
    case StartActivation(_, _) => true
    case StartGrant(r) => true
    case Advance(c, _, id) =>
      && c < |s.callers| && !s.callers[c].phase.Ended()
      && (!s.callers[c].activation && s.callers[c].phase.Request().Some? ==>
            FindsReference(s.plans, s.callers[c].phase.Request().value, id))
    case PublishSome(c, count) => c < |s.callers| && s.callers[c].phase.Publish?
    case Abandon(c) => c < |s.callers| && !s.callers[c].phase.Ended()
    case DebitPlan(c) => c.Valid() && c.planId in s.plans && Fits(s.plans[c.planId], c)
    case ExpirePlan(_, _) => true
    case GrantedEvent(_, _, _) => true
    case Tick(_) => true
  }

  // findOne and the upsert look a plan up by service and reference id; without a match the id is unused.
  ghost predicate FindsReference(plans: Plans, r: GrantRequest, id: PlanId) {
    if exists other :: other in plans && HasReference(plans[other], r.appId, r.referenceId)
    then id in plans && HasReference(plans[id], r.appId, r.referenceId)
    else id !in plans
  }

  function PublishPrefix(apps: Apps, s: Life, c: nat, count: nat): Life
    requires c < |s.callers| && s.callers[c].phase.Publish?
  {
    var a := s.callers[c];
    if a.appId !in apps.services then Move(s, c, Failed)
    else match GrantCommands(a.plan, a.phase.doc, apps.services[a.appId], s.now)
      case Err(_) => Move(s, c, Failed)
      case Ok(commands) =>
        var n := if count < |commands| then count else |commands|;
        var added := seq(n, i requires 0 <= i < n =>
          PublishedGrant(a.plan, a.activation, s.now, a.phase.doc, commands[i]));
        var t := s.(published := s.published + added);
        Move(t, c, if n == |commands| then Succeeded else Failed)
  }

  function Next(apps: Apps, s: Life, step: Step): Life
    requires Enabled(apps, s, step)
  {
    match step
    case StartActivation(plan, appId) => s.(callers := s.callers + [Caller(true, plan, appId, ReadPlan)])
    case StartGrant(r) => s.(callers := s.callers + [Caller(false, "", r.appId, Lookup(r))])
    case Advance(c, date, id) =>
      var o := CallOf(apps, s.plans, s.now, s.callers[c], date, id);
      s.(plans := o.plans, callers := s.callers[c := o.caller], accepted := s.accepted + o.accepted)
    case PublishSome(c, count) => PublishPrefix(apps, s, c, count)
    case Abandon(c) => Move(s, c, Failed)
    case DebitPlan(commit) => s.(plans := s.plans[commit.planId := Debit(s.plans[commit.planId], commit)])
    case ExpirePlan(plan, appId) => s.(plans := UpdatePlan(s.plans, plan, appId, PlanExpired))
    case GrantedEvent(plan, appId, expiresAt) => s.(plans := UpdatePlan(s.plans, plan, appId, CreditGranted(expiresAt)))
    case Tick(ms) => s.(now := s.now + ms)
  }

  // --- The invariant ---

  predicate Sound(plans: Plans) {
    forall id :: id in plans ==> SoundTotal(plans[id]) && plans[id].InBounds()
  }

  predicate UniqueReferences(plans: Plans) {
    forall a, b :: a in plans && b in plans && a != b ==>
      !(plans[a].serviceId == plans[b].serviceId && plans[a].referenceId == plans[b].referenceId)
  }

  ghost predicate PlansEvolve(old_: Plans, new_: Plans) {
    forall id :: id in old_ ==> id in new_ && Evolves(old_[id], new_[id])
  }

  // What a published command says besides the expiry is the same for both documents.
  ghost predicate SameGrant(doc: Plan, p: Plan) {
    && doc.serviceId == p.serviceId
    && doc.referenceId == p.referenceId
    && doc.total == p.total
    && doc.createdAt == p.createdAt
    && doc.used <= p.used
    && ResolveCriticalBalance(doc) == ResolveCriticalBalance(p)
    && (doc.allowance.Some? ==> p.allowance.Some? && p.allowance.value.amount == doc.allowance.value.amount)
  }

  ghost predicate CallerOk(apps: Apps, plans: Plans, a: Caller) {
    && (a.phase.Held().Some? ==>
          && a.plan in plans
          && (if a.phase.Publish? then SameGrant(a.phase.doc, plans[a.plan])
              else Evolves(a.phase.Held().value, plans[a.plan])))
    && (a.activation && (a.phase.Publish? || a.phase.Succeeded?) ==> a.plan in plans && plans[a.plan].expiresAt.At?)
    && (a.phase.WriteActivation? || a.phase.CreatePlan? ==>
          a.phase.newAllowance.Some? ==> a.phase.newAllowance.value > 0)
    && (a.phase.Request().Some? && !a.phase.Lookup? ==> a.phase.Request().value.Valid())
  }

  // Every published command conveys a document that could be granted and that the plan has come from.
  ghost predicate PublishedOk(plans: Plans, g: PublishedGrant) {
    && g.plan in plans && SameGrant(g.doc, plans[g.plan])
    && Grantable(g.plan, g.doc, g.command.serviceType, g.at)
    && Conveys(g.command, g.plan, g.doc, g.command.serviceType, g.at)
  }

  ghost predicate AcceptedOk(plans: Plans, r: GrantRequest) {
    r.Valid() && exists id :: id in plans && HasReference(plans[id], r.appId, r.referenceId) && Agrees(plans[id], r)
  }

  ghost predicate Inv(apps: Apps, s: Life) {
    && Sound(s.plans)
    && UniqueReferences(s.plans)
    && (forall c :: 0 <= c < |s.callers| ==> CallerOk(apps, s.plans, s.callers[c]))
    && (forall i :: 0 <= i < |s.published| ==> PublishedOk(s.plans, s.published[i]))
    && (forall i :: 0 <= i < |s.accepted| ==> AcceptedOk(s.plans, s.accepted[i]))
  }

  lemma CallerOkEvolves(apps: Apps, plans: Plans, plans': Plans, a: Caller)
    requires PlansEvolve(plans, plans') && CallerOk(apps, plans, a)
    ensures CallerOk(apps, plans', a)
  {
    if a.phase.Held().Some? {
      assert Evolves(plans[a.plan], plans'[a.plan]);
      if !a.phase.Publish? {
        EvolvesTransitive(a.phase.Held().value, plans[a.plan], plans'[a.plan]);
      }
    }
  }

  lemma PublishedOkEvolves(plans: Plans, plans': Plans, g: PublishedGrant)
    requires PlansEvolve(plans, plans') && PublishedOk(plans, g)
    ensures PublishedOk(plans', g)
  {
    assert Evolves(plans[g.plan], plans'[g.plan]);
  }

  lemma AcceptedOkEvolves(plans: Plans, plans': Plans, r: GrantRequest)
    requires PlansEvolve(plans, plans') && AcceptedOk(plans, r)
    ensures AcceptedOk(plans', r)
  {
    var id :| id in plans && HasReference(plans[id], r.appId, r.referenceId) && Agrees(plans[id], r);
    assert Evolves(plans[id], plans'[id]);
    assert Agrees(plans'[id], r);
  }

  // Plans only evolve, stay sound and keep their references unique.
  ghost predicate GoodChange(plans: Plans, plans': Plans) {
    PlansEvolve(plans, plans') && Sound(plans') && UniqueReferences(plans')
  }

  lemma WriteEvolves(plans: Plans, id: PlanId, appId: AppId, u: Update)
    requires Sound(plans) && UniqueReferences(plans) && ValidUpdate(u)
    requires id in plans ==> WritesResolved(plans[id], u)
    ensures GoodChange(plans, UpdatePlan(plans, id, appId, u))
  {
    if id in plans {
      UpdateEvolves(plans[id], u);
      UpdateKeepsUsage(plans[id], u);
    }
  }

  lemma DebitPlanEvolves(plans: Plans, c: Commit)
    requires Sound(plans) && UniqueReferences(plans) && c.Valid() && c.planId in plans && Fits(plans[c.planId], c)
    ensures GoodChange(plans, plans[c.planId := Debit(plans[c.planId], c)])
  {
    DebitEvolves(plans[c.planId], c);
    DebitChargesOneWallet(plans[c.planId], c);
  }

  lemma CreateEvolves(apps: Apps, plans: Plans, r: GrantRequest, id: PlanId, p: Plan)
    requires Sound(plans) && UniqueReferences(plans) && id !in plans && FindsReference(plans, r, id)
    requires HasReference(p, r.appId, r.referenceId) && SoundTotal(p) && p.InBounds()
    ensures GoodChange(plans, plans[id := p])
  {
  }

  lemma NoChange(plans: Plans)
    requires Sound(plans) && UniqueReferences(plans)
    ensures GoodChange(plans, plans)
  {
  }

  // What a call must leave behind: plans that have only evolved, and a caller and accepted requests they justify.
  ghost predicate GoodOutcome(apps: Apps, plans: Plans, o: Outcome) {
    && GoodChange(plans, o.plans)
    && CallerOk(apps, o.plans, o.caller)
    && (forall r :: r in o.accepted ==> AcceptedOk(o.plans, r))
  }

  lemma AfterExpiryOk(apps: Apps, plans: Plans, a: Caller, doc: Plan, date: int)
    requires a.activation && a.plan in plans && Evolves(doc, plans[a.plan]) && apps.Supported(a.appId) &&
              SoundTotal(doc)
    requires apps.services[a.appId].CavachApi? ==> plans[a.plan].expiresAt.At?
    ensures CallerOk(apps, plans, a.(phase := AfterExpiry(apps, a.appId, doc, date)))
  {
  }

  // The document an activation has just read, or has just been handed back, is the current one; the one it
  // already held has evolved into it.
  lemma CurrentDocumentOk(apps: Apps, plans: Plans, a: Caller)
    requires a.plan in plans
    ensures CallerOk(apps, plans, a.(phase := Normalize(plans[a.plan])))
    ensures CallerOk(apps, plans, a.(phase := FixExpiry(plans[a.plan])))
    ensures plans[a.plan].expiresAt.At? ==> CallerOk(apps, plans, a.(phase := Publish(plans[a.plan])))
  {
  }

  lemma FailedOk(apps: Apps, plans: Plans, a: Caller)
    ensures CallerOk(apps, plans, a.(phase := Failed))
  {
  }

  lemma ReadGood(apps: Apps, plans: Plans, now: int, a: Caller)
    requires Sound(plans) && UniqueReferences(plans)
    ensures GoodOutcome(apps, plans, ReadCall(plans, now, a))
  {
    NoChange(plans);
    FailedOk(apps, plans, a);
    if Present(plans, a) {
      CurrentDocumentOk(apps, plans, a);
    }
  }

  lemma NormalizeGood(apps: Apps, plans: Plans, a: Caller, doc: Plan)
    requires Sound(plans) && UniqueReferences(plans) && apps.Supported(a.appId)
    requires a.plan in plans && Evolves(doc, plans[a.plan])
    ensures GoodOutcome(apps, plans, NormalizeCall(apps, plans, a, doc))
  {
    var plans' := NormalizeCall(apps, plans, a, doc).plans;
    WriteEvolves(plans, a.plan, a.appId, NormalizeCriticalBalance(ResolveCriticalBalance(doc), apps.services[a.appId]));
    FailedOk(apps, plans', a);
    CurrentDocumentOk(apps, plans', a);
  }

  lemma ProposedExpiryGood(apps: Apps, plans: Plans, a: Caller, doc: Plan, date: int)
    requires Sound(plans) && UniqueReferences(plans) && a.activation && apps.Supported(a.appId)
    requires a.phase == FixExpiry(doc) && CallerOk(apps, plans, a) && Present(plans, a) && !plans[a.plan].expiresAt.At?
    ensures var plans' := UpdatePlan(plans, a.plan, a.appId, ProposeExpiry(date));
            GoodOutcome(apps, plans, Go(plans', a, AfterExpiry(apps, a.appId, doc, date)))
  {
    var plans' := UpdatePlan(plans, a.plan, a.appId, ProposeExpiry(date));
    WriteEvolves(plans, a.plan, a.appId, ProposeExpiry(date));
    CallerOkEvolves(apps, plans, plans', a);
    AfterExpiryOk(apps, plans', a, doc, date);
  }

  lemma FixExpiryGood(apps: Apps, plans: Plans, a: Caller, doc: Plan, date: int)
    requires Sound(plans) && UniqueReferences(plans) && a.activation && apps.Supported(a.appId)
    requires a.phase == FixExpiry(doc) && CallerOk(apps, plans, a)
    ensures GoodOutcome(apps, plans, FixExpiryCall(apps, plans, a, doc, date))
  {
    NoChange(plans);
    if doc.expiresAt.At? {
      AfterExpiryOk(apps, plans, a, doc, doc.expiresAt.time);
    } else if apps.services[a.appId].SsiApi? {
      AfterExpiryOk(apps, plans, a, doc, date);
    } else if Present(plans, a) && !plans[a.plan].expiresAt.At? {
      ProposedExpiryGood(apps, plans, a, doc, date);
    }
  }

  lemma RereadGood(apps: Apps, plans: Plans, a: Caller, doc: Plan)
    requires Sound(plans) && UniqueReferences(plans) && a.activation && apps.Supported(a.appId)
    requires a.phase == RereadExpiry(doc) && CallerOk(apps, plans, a)
    ensures GoodOutcome(apps, plans, RereadCall(apps, plans, a, doc))
  {
    NoChange(plans);
    if Present(plans, a) && plans[a.plan].expiresAt.At? {
      AfterExpiryOk(apps, plans, a, doc, plans[a.plan].expiresAt.time);
    }
  }

  lemma GrantOnChainGood(apps: Apps, plans: Plans, a: Caller, doc: Plan, expiresAt: int)
    requires Sound(plans) && UniqueReferences(plans) && a.phase == GrantOnChain(doc, expiresAt) &&
              CallerOk(apps, plans, a)
    ensures GoodOutcome(apps, plans, GrantOnChainCall(plans, a, doc, expiresAt))
  {
    NoChange(plans);
  }

  lemma WriteGood(apps: Apps, plans: Plans, now: int, a: Caller, doc: Plan, expiresAt: int, newAllowance: Option<int>)
    requires Sound(plans) && UniqueReferences(plans) && a.plan in plans && Evolves(doc, plans[a.plan])
    requires newAllowance.Some? ==> newAllowance.value >= 0
    ensures GoodOutcome(apps, plans, WriteCall(plans, now, a, doc, expiresAt, newAllowance))
  {
    var plans' := WriteCall(plans, now, a, doc, expiresAt, newAllowance).plans;
    WriteEvolves(plans, a.plan, a.appId, ActivationUpdate(now, doc, expiresAt, newAllowance));
    FailedOk(apps, plans', a);
    CurrentDocumentOk(apps, plans', a);
  }

  lemma ActivationCallGood(apps: Apps, plans: Plans, now: int, a: Caller, date: int)
    requires Sound(plans) && UniqueReferences(plans) && a.activation && CallerOk(apps, plans, a)
    ensures GoodOutcome(apps, plans, ActivationCall(apps, plans, now, a, date))
  {
    if !apps.Supported(a.appId) {
      NoChange(plans);
    } else {
      match a.phase
      case ReadPlan => ReadGood(apps, plans, now, a);
      case Normalize(doc) => NormalizeGood(apps, plans, a, doc);
      case FixExpiry(doc) => FixExpiryGood(apps, plans, a, doc, date);
      case RereadExpiry(doc) => RereadGood(apps, plans, a, doc);
      case GrantOnChain(doc, expiresAt) => GrantOnChainGood(apps, plans, a, doc, expiresAt);
      case WriteActivation(doc, expiresAt, newAllowance) =>
        WriteGood(apps, plans, now, a, doc, expiresAt, newAllowance);
      case _ => NoChange(plans);
    }
  }

  lemma AcceptExistingGood(apps: Apps, plans: Plans, a: Caller, r: GrantRequest, id: PlanId)
    requires Sound(plans) && UniqueReferences(plans) && !a.activation && r.Valid() && r.appId in apps.services
    requires id in plans && HasReference(plans[id], r.appId, r.referenceId)
    ensures GoodOutcome(apps, plans, AcceptExisting(apps, plans, a, r, id))
  {
    NoChange(plans);
  }

  lemma AcceptCreatedGood(apps: Apps, plans: Plans, a: Caller, r: GrantRequest, id: PlanId, activate: Option<int>)
    requires Sound(plans) && UniqueReferences(plans) && !a.activation && r.Valid() && r.appId in apps.services
    requires id in plans && HasReference(plans[id], r.appId, r.referenceId)
    ensures GoodOutcome(apps, plans, AcceptCreated(apps, plans, a, r, id, activate))
  {
    NoChange(plans);
  }

  lemma CreateGood(apps: Apps, plans: Plans, now: int, a: Caller, date: int, id: PlanId)
    requires Sound(plans) && UniqueReferences(plans) && !a.activation && CallerOk(apps, plans, a)
    requires a.phase.CreatePlan? && a.phase.request.appId in apps.services && FindsReference(plans, a.phase.request, id)
    ensures GoodOutcome(apps, plans, GrantCall(apps, plans, now, a, date, id))
  {
    var r := a.phase.request;
    if id in plans {
      AcceptCreatedGood(apps, plans, a, r, id, a.phase.activate);
    } else {
      var p := NewPlan(apps, r, a.phase.activate, a.phase.newAllowance, now);
      CreateEvolves(apps, plans, r, id, p);
      AcceptCreatedGood(apps, plans[id := p], a, r, id, a.phase.activate);
    }
  }

  // Looking for an active plan and asking the chain write nothing and keep the request.
  lemma CheckingCallOnlyMoves(apps: Apps, plans: Plans, now: int, a: Caller, date: int, id: PlanId)
    requires a.phase.CheckActive? || a.phase.GrantNewOnChain?
    ensures var o := GrantCall(apps, plans, now, a, date, id);
            && o == Go(plans, a, o.caller.phase)
            && (o.caller.phase.Failed? || o.caller.phase.Request() == a.phase.Request())
            && !o.caller.phase.Succeeded?
            && (o.caller.phase.CreatePlan? && o.caller.phase.newAllowance.Some? ==>
                  o.caller.phase.newAllowance.value > 0)
  {
  }

  lemma RequestOk(apps: Apps, plans: Plans, a: Caller, phase: Phase)
    requires phase.Request().Some? && phase.Request().value.Valid()
    requires phase.CreatePlan? && phase.newAllowance.Some? ==> phase.newAllowance.value > 0
    ensures CallerOk(apps, plans, a.(phase := phase))
  {
  }

  lemma CheckingCallGood(apps: Apps, plans: Plans, now: int, a: Caller, date: int, id: PlanId)
    requires Sound(plans) && UniqueReferences(plans) && !a.activation && CallerOk(apps, plans, a)
    requires a.phase.CheckActive? || a.phase.GrantNewOnChain?
    ensures GoodOutcome(apps, plans, GrantCall(apps, plans, now, a, date, id))
  {
    var phase := GrantCall(apps, plans, now, a, date, id).caller.phase;
    CheckingCallOnlyMoves(apps, plans, now, a, date, id);
    NoChange(plans);
    if phase.Failed? {
      FailedOk(apps, plans, a);
    } else {
      RequestOk(apps, plans, a, phase);
    }
  }

  lemma LookupCallGood(apps: Apps, plans: Plans, now: int, a: Caller, date: int, id: PlanId)
    requires Sound(plans) && UniqueReferences(plans) && !a.activation && a.phase.Lookup?
    ensures GoodOutcome(apps, plans, GrantCall(apps, plans, now, a, date, id))
  {
    var r := a.phase.request;
    NoChange(plans);
    if r.appId in apps.services && r.Valid() && id in plans && HasReference(plans[id], r.appId, r.referenceId) {
      AcceptExistingGood(apps, plans, a, r, id);
    }
  }

  lemma GrantCallGood(apps: Apps, plans: Plans, now: int, a: Caller, date: int, id: PlanId)
    requires Sound(plans) && UniqueReferences(plans) && !a.activation && CallerOk(apps, plans, a)
    requires a.phase.Request().Some? ==> FindsReference(plans, a.phase.Request().value, id)
    ensures GoodOutcome(apps, plans, GrantCall(apps, plans, now, a, date, id))
  {
    if a.phase.Lookup? {
      LookupCallGood(apps, plans, now, a, date, id);
    } else if a.phase.CheckActive? || a.phase.GrantNewOnChain? {
      CheckingCallGood(apps, plans, now, a, date, id);
    } else if a.phase.CreatePlan? && a.phase.request.appId in apps.services {
      CreateGood(apps, plans, now, a, date, id);
    } else {
      NoChange(plans);
    }
  }

  lemma CallGood(apps: Apps, s: Life, c: nat, date: int, id: PlanId)
    requires Inv(apps, s) && Enabled(apps, s, Advance(c, date, id))
    ensures GoodOutcome(apps, s.plans, CallOf(apps, s.plans, s.now, s.callers[c], date, id))
  {
    if s.callers[c].activation {
      ActivationCallGood(apps, s.plans, s.now, s.callers[c], date);
    } else {
      GrantCallGood(apps, s.plans, s.now, s.callers[c], date, id);
    }
  }

  lemma NextPlansEvolve(apps: Apps, s: Life, step: Step)
    requires Inv(apps, s) && Enabled(apps, s, step)
    ensures GoodChange(s.plans, Next(apps, s, step).plans)
  {
    NoChange(s.plans);
    match step
    case Advance(c, date, id) => CallGood(apps, s, c, date, id);
    case DebitPlan(commit) => DebitPlanEvolves(s.plans, commit);
    case ExpirePlan(plan, appId) => WriteEvolves(s.plans, plan, appId, PlanExpired);
    case GrantedEvent(plan, appId, expiresAt) => WriteEvolves(s.plans, plan, appId, CreditGranted(expiresAt));
    case _ =>
  }

  // The commands of a document convey it.
  lemma CommandOk(plans: Plans, id: PlanId, doc: Plan, service: ServiceType, now: int, byActivation: bool, i: nat)
    requires id in plans && SameGrant(doc, plans[id])
    requires GrantCommands(id, doc, service, now).Ok? && i < |GrantCommands(id, doc, service, now).value|
    ensures var command := GrantCommands(id, doc, service, now).value[i];
            PublishedOk(plans, PublishedGrant(id, byActivation, now, doc, command))
  {
    GrantableIff(id, doc, service, now);
    CommandsConvey(id, doc, service, now);
  }

  lemma PublishEnds(apps: Apps, s: Life, c: nat, count: nat)
    requires c < |s.callers| && s.callers[c].phase.Publish?
    ensures var t := PublishPrefix(apps, s, c, count);
            && t.plans == s.plans && |t.callers| == |s.callers|
            && t.callers == s.callers[c := s.callers[c].(phase := t.callers[c].phase)]
            && t.callers[c].phase.Ended()
  {
  }

  lemma PublishedPrefixOk(apps: Apps, s: Life, c: nat, count: nat)
    requires c < |s.callers| && s.callers[c].phase.Publish? && CallerOk(apps, s.plans, s.callers[c])
    requires forall i :: 0 <= i < |s.published| ==> PublishedOk(s.plans, s.published[i])
    ensures var t := PublishPrefix(apps, s, c, count);
            forall i :: 0 <= i < |t.published| ==> PublishedOk(s.plans, t.published[i])
  {
    var a, t := s.callers[c], PublishPrefix(apps, s, c, count);
    forall i | |s.published| <= i < |t.published| ensures PublishedOk(s.plans, t.published[i]) {
      CommandOk(s.plans, a.plan, a.phase.doc, apps.services[a.appId], s.now, a.activation, i - |s.published|);
    }
  }

  lemma PublishOk(apps: Apps, s: Life, c: nat, count: nat)
    requires Inv(apps, s) && c < |s.callers| && s.callers[c].phase.Publish?
    ensures var t := PublishPrefix(apps, s, c, count);
            && |t.callers| == |s.callers| && CallerOk(apps, t.plans, t.callers[c])
            && (forall i :: 0 <= i < |t.published| ==> PublishedOk(t.plans, t.published[i]))
  {
    assert CallerOk(apps, s.plans, s.callers[c]);
    PublishEnds(apps, s, c, count);
    PublishedPrefixOk(apps, s, c, count);
  }

  lemma NextInv(apps: Apps, s: Life, step: Step)
    requires Inv(apps, s) && Enabled(apps, s, step)
    ensures Inv(apps, Next(apps, s, step))
  {
    var t := Next(apps, s, step);
    NextPlansEvolve(apps, s, step);
    NextCallersOk(apps, s, step);
    NextAcceptedOk(apps, s, step);
    NextPublishedOk(apps, s, step);
  }

  lemma NextCallersOk(apps: Apps, s: Life, step: Step)
    requires Inv(apps, s) && Enabled(apps, s, step) && GoodChange(s.plans, Next(apps, s, step).plans)
    ensures var t := Next(apps, s, step); forall c :: 0 <= c < |t.callers| ==> CallerOk(apps, t.plans, t.callers[c])
  {
    var t := Next(apps, s, step);
    forall k | 0 <= k < |s.callers| ensures CallerOk(apps, t.plans, s.callers[k]) {
      CallerOkEvolves(apps, s.plans, t.plans, s.callers[k]);
    }
    match step
    case Advance(c, date, id) => CallGood(apps, s, c, date, id);
    case PublishSome(c, count) => PublishOk(apps, s, c, count);
    case _ =>
  }

  lemma NextAcceptedOk(apps: Apps, s: Life, step: Step)
    requires Inv(apps, s) && Enabled(apps, s, step) && GoodChange(s.plans, Next(apps, s, step).plans)
    ensures var t := Next(apps, s, step); forall i :: 0 <= i < |t.accepted| ==> AcceptedOk(t.plans, t.accepted[i])
  {
    var t := Next(apps, s, step);
    forall i | 0 <= i < |s.accepted| ensures AcceptedOk(t.plans, s.accepted[i]) {
      AcceptedOkEvolves(s.plans, t.plans, s.accepted[i]);
    }
    if step.Advance? {
      CallGood(apps, s, step.c, step.date, step.id);
    } else {
      assert t.accepted == s.accepted;
    }
  }

  lemma NextPublishedOk(apps: Apps, s: Life, step: Step)
    requires Inv(apps, s) && Enabled(apps, s, step) && GoodChange(s.plans, Next(apps, s, step).plans)
    ensures var t := Next(apps, s, step); forall i :: 0 <= i < |t.published| ==> PublishedOk(t.plans, t.published[i])
  {
    var t := Next(apps, s, step);
    if step.PublishSome? {
      PublishOk(apps, s, step.c, step.count);
    } else {
      assert t.published == s.published;
      forall i | 0 <= i < |s.published| ensures PublishedOk(t.plans, s.published[i]) {
        PublishedOkEvolves(s.plans, t.plans, s.published[i]);
      }
    }
  }
}
