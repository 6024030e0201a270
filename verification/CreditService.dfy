/**
 activateCredit, grantCredit and the replacement of an exhausted plan as the services run them, call after call:
 src/credits/services/credits.service.ts and processCriticalBalance in credit-event-store.service.ts. Each method
 is proved against the undisturbed run of the same caller in the life-cycle machine.
 */
module CreditService {
  import opened Prelude
  import opened CreditWallet
  import opened CreditPlans
  import opened CreditCommands
  import opened PlanLifecycle
  import opened Decimal
  import Chain = ChainAllowance
  import Repository = CreditRepository

  // One caller alone, with the wallet's grants on chain.
  datatype Alone = Alone(plans: Plans, grants: Chain.Grants, caller: Caller)

  predicate ChainAccepts(g: Chain.Grants, amount: int) {
    (g.fee.NoFeeGrant? || g.fee.Basic?) && 0 < Chain.Remaining(g.fee) + amount <= MAX_SAFE_INTEGER
  }

  function AfterTopUp(g: Chain.Grants, amount: int): Chain.Grants
    requires ChainAccepts(g, amount)
  {
    Chain.Grants(Chain.ALL_TYPES, Chain.Basic(Chain.Remaining(g.fee) + amount))
  }

  // The next call of the caller; it fails if it needs a top-up that the chain refuses.
  function OneCall(apps: Apps, u: Alone, now: int, date: int, id: PlanId): Alone {
    var amount := TopUp(u.caller.phase);
    if amount.Some? && !ChainAccepts(u.grants, amount.value) then u.(caller := u.caller.(phase := Failed))
    else
      var o := CallOf(apps, u.plans, now, u.caller, date, id);
      Alone(o.plans, if amount.Some? then AfterTopUp(u.grants, amount.value) else u.grants, o.caller)
  }

  predicate Stopped(phase: Phase) {
    phase.Ended() || phase.Publish?
  }

  function Rank(phase: Phase): nat {
    match phase
    case ReadPlan => 6
    case Normalize(_) => 5
    case FixExpiry(_) => 4
    case RereadExpiry(_) => 3
    case GrantOnChain(_, _) => 2
    case WriteActivation(_, _, _) => 1
    case Lookup(_) => 4
    case CheckActive(_) => 3
    case GrantNewOnChain(_, _) => 2
    case CreatePlan(_, _, _) => 1
    case _ => 0
  }

  // An activation, or a grant request with `id` as the plan its reference id stands for.
  ghost predicate Underway(u: Alone, id: PlanId) {
    var phase := u.caller.phase;
    Stopped(phase) ||
    (if u.caller.activation then phase.Request().None?
     else phase.Request().Some? && FindsReference(u.plans, phase.Request().value, id))
  }

  lemma ActivationProgresses(apps: Apps, u: Alone, now: int, date: int, id: PlanId)
    requires Underway(u, id) && !Stopped(u.caller.phase) && u.caller.activation
    ensures var v := OneCall(apps, u, now, date, id); Underway(v, id) && Rank(v.caller.phase) < Rank(u.caller.phase)
  {
  }

  lemma GrantProgresses(apps: Apps, u: Alone, now: int, date: int, id: PlanId)
    requires Underway(u, id) && !Stopped(u.caller.phase) && !u.caller.activation
    ensures var v := OneCall(apps, u, now, date, id); Underway(v, id) && Rank(v.caller.phase) < Rank(u.caller.phase)
  {
  }

  lemma OneCallProgresses(apps: Apps, u: Alone, now: int, date: int, id: PlanId)
    requires Underway(u, id) && !Stopped(u.caller.phase)
    ensures var v := OneCall(apps, u, now, date, id); Underway(v, id) && Rank(v.caller.phase) < Rank(u.caller.phase)
  {
    if u.caller.activation {
      ActivationProgresses(apps, u, now, date, id);
    } else {
      GrantProgresses(apps, u, now, date, id);
    }
  }

  // Calls until the caller has ended or is about to publish.
  ghost function End(apps: Apps, u: Alone, now: int, date: int, id: PlanId): Alone
    requires Underway(u, id)
    decreases Rank(u.caller.phase)
  {
    if Stopped(u.caller.phase) then u
    else
      OneCallProgresses(apps, u, now, date, id);
      End(apps, OneCall(apps, u, now, date, id), now, date, id)
  }

  lemma EndNext(apps: Apps, u: Alone, now: int, date: int, id: PlanId)
    requires Underway(u, id) && !Stopped(u.caller.phase)
    ensures var v := OneCall(apps, u, now, date, id);
            && Underway(v, id)
            && End(apps, u, now, date, id) == End(apps, v, now, date, id)
            && (Stopped(v.caller.phase) ==> End(apps, u, now, date, id) == v)
  {
    OneCallProgresses(apps, u, now, date, id);
  }

  lemma OneCallTopsUp(apps: Apps, u: Alone, doc: Plan, expiresAt: int, now: int, date: int, id: PlanId)
    requires u.caller.activation && u.caller.phase == GrantOnChain(doc, expiresAt) && apps.Supported(u.caller.appId)
    ensures var amount := SsiOnChainAllowance(doc.total - doc.used);
            OneCall(apps, u, now, date, id) ==
            if amount.Some? && ChainAccepts(u.grants, amount.value)
            then u.(grants := AfterTopUp(u.grants, amount.value),
                    caller := u.caller.(phase := WriteActivation(doc, expiresAt, amount)))
            else u.(caller := u.caller.(phase := PlanLifecycle.Failed))
  {
  }

  // An activation without an allowance goes on from a top-up, or fails without one.
  lemma EndAfterTopUp(apps: Apps, u: Alone, doc: Plan, expiresAt: int, now: int, date: int, id: PlanId)
    requires u.caller.activation && u.caller.phase == GrantOnChain(doc, expiresAt) && apps.Supported(u.caller.appId)
    ensures var amount := SsiOnChainAllowance(doc.total - doc.used);
            End(apps, u, now, date, id) ==
            if amount.Some? && ChainAccepts(u.grants, amount.value)
            then End(apps, u.(grants := AfterTopUp(u.grants, amount.value),
                              caller := u.caller.(phase := WriteActivation(doc, expiresAt, amount))), now, date, id)
            else u.(caller := u.caller.(phase := PlanLifecycle.Failed))
  {
    OneCallTopsUp(apps, u, doc, expiresAt, now, date, id);
    EndNext(apps, u, now, date, id);
  }

  // The commands a caller gets enqueued, and whether it succeeds, when the queue takes `capacity` more.
  function Sent(apps: Apps, a: Caller, capacity: nat, now: int): seq<GrantCommand> {
    if !a.phase.Publish? || a.appId !in apps.services then []
    else match GrantCommands(a.plan, a.phase.doc, apps.services[a.appId], now)
      case Err(_) => []
      case Ok(commands) => if capacity < |commands| then commands[..capacity] else commands
  }

  predicate Succeeds(apps: Apps, a: Caller, capacity: nat, now: int) {
    if !a.phase.Publish? then a.phase.Succeeded?
    else
      && a.appId in apps.services
      && GrantCommands(a.plan, a.phase.doc, apps.services[a.appId], now).Ok?
      && |GrantCommands(a.plan, a.phase.doc, apps.services[a.appId], now).value| <= capacity
  }

  // --- What the calls promise, in the fields of the documents ---

  // The chain takes 2000 uhid for each credit on top of what is left of the allowance, or refuses.
  predicate CanTopUp(g: Chain.Grants, credits: int) {
    && 0 < credits && (g.fee.NoFeeGrant? || g.fee.Basic?)
    && (if g.fee.Basic? then g.fee.limit else 0) + 2000 * credits <= MAX_SAFE_INTEGER
  }

  function ToppedUp(g: Chain.Grants, credits: int): Chain.Grants
    requires CanTopUp(g, credits)
  {
    Chain.Grants(Chain.ALL_TYPES, Chain.Basic((if g.fee.Basic? then g.fee.limit else 0) + 2000 * credits))
  }

  // The document an activation goes on with: a critical balance that needs resolving is set, and the service with it.
  function Normalized(p: Plan, service: ServiceType): Plan {
    var balance := Some(ResolveCriticalBalance(p));
    p.(criticalBalance := balance, serviceType := if p.criticalBalance == balance then p.serviceType else service)
  }

  // What an SSI activation makes of a document: allowance and scopes are set only where there are none, and it is
  // ACTIVE if it is unexpired with room in both wallets.
  ghost predicate Activates(p: Plan, q: Plan, expiresAt: int, newAllowance: Option<int>, now: int) {
    && q == p.(serviceType := SsiApi, expiresAt := At(expiresAt), criticalBalance := q.criticalBalance,
         allowance := q.allowance, scopes := q.scopes, status := q.status)
    && q.allowance == (if p.allowance.Some? || newAllowance.None? then p.allowance
                       else Some(Allowance(newAllowance.value, 0)))
    && q.scopes == (if p.scopes != [] || newAllowance.None? then p.scopes
                    else [MsgRegisterDid, MsgDeactivateDid, MsgRegisterCredentialSchema, MsgUpdateDid,
                          MsgUpdateCredentialStatus, MsgRegisterCredentialStatus])
    && (q.status.Active? <==>
         && now < expiresAt && q.used < q.total
         && q.allowance.Some? && q.allowance.value.usedAmount < q.allowance.value.amount)
  }

  // A grant that agrees with the plan its reference id stands for, and that did not reach the middleware as far as the
  // plan tells: an expiry is set, but a CAVACH plan is not ACTIVE yet, and an SSI plan is, with an allowance.
  predicate Unfinished(p: Plan, service: ServiceType) {
    && p.expiresAt.At?
    && (|| (service == CavachApi && p.status == Inactive)
        || (service == SsiApi && p.status == Active && p.allowance.Some?))
  }

  // The new plan of a grant request: activated now with the given expiry, or kept for later.
  function Requested(q: GrantRequest, service: ServiceType, activate: Option<int>, newAllowance: Option<int>, now: int)
    : Plan
  {
    Plan(q.appId, service, q.referenceId, q.total, 0,
      if newAllowance.Some? then Some(Allowance(newAllowance.value, 0)) else None,
      if newAllowance.Some? then ALL_SCOPES else [],
      Some(FourTenths(q.total)), q.validityDays, if activate.Some? then At(activate.value) else Missing,
      if activate.Some? && service == SsiApi then Active else Inactive, q.source, Some(now))
  }

  lemma NewPlanIsRequested(apps: Apps, q: GrantRequest, activate: Option<int>, newAllowance: Option<int>, now: int)
    requires q.appId in apps.services
    ensures var p := Requested(q, apps.services[q.appId], activate, newAllowance, now);
            && NewPlan(apps, q, activate, newAllowance, now) == p
            && Agrees(p, q) && HasReference(p, q.appId, q.referenceId)
            && (activate.Some? ==>
                  && p.expiresAt == At(activate.value)
                  && ForMiddlewareGrant(p, activate.value) == p.(status := Active)
                  && (apps.services[q.appId].SsiApi? ==> p.status.Active?))
  {
  }

  lemma WrittenTwice(plans: Plans, id: PlanId, first: Plan, last: Plan)
    ensures plans[id := first][id := last] == plans[id := last]
  {
  }

  lemma OneCallReads(apps: Apps, u: Alone, now: int, date: int)
    requires u.caller.activation && u.caller.phase == ReadPlan
    ensures var a, id := u.caller, u.caller.plan;
            OneCall(apps, u, now, date, id) == u.(caller := a.(phase :=
              if !apps.Supported(a.appId) || !Activatable(u.plans, id, a.appId, now) then PlanLifecycle.Failed
              else if u.plans[id].criticalBalance != Some(ResolveCriticalBalance(u.plans[id]))
              then Normalize(u.plans[id])
              else FixExpiry(u.plans[id])))
  {
  }

  lemma OneCallNormalizes(apps: Apps, u: Alone, now: int, date: int)
    requires u.caller.activation && apps.Supported(u.caller.appId) && Present(u.plans, u.caller)
    requires u.caller.phase == Normalize(u.plans[u.caller.plan])
    requires u.plans[u.caller.plan].criticalBalance != Some(ResolveCriticalBalance(u.plans[u.caller.plan]))
    ensures var id := u.caller.plan;
            var doc := Normalized(u.plans[id], apps.services[u.caller.appId]);
            OneCall(apps, u, now, date, id) ==
            u.(plans := u.plans[id := doc], caller := u.caller.(phase := FixExpiry(doc)))
  {
  }

  // Alone, an activation reads a document that may be activated, in its normalized form, or fails.
  lemma EndAfterRead(apps: Apps, u: Alone, now: int, date: int)
    requires u.caller.activation && u.caller.phase == ReadPlan
    ensures var a, id := u.caller, u.caller.plan;
            End(apps, u, now, date, id) ==
            if apps.Supported(a.appId) && Activatable(u.plans, id, a.appId, now)
            then var doc := Normalized(u.plans[id], apps.services[a.appId]);
                 End(apps, u.(plans := u.plans[id := doc], caller := a.(phase := FixExpiry(doc))), now, date, id)
            else u.(caller := a.(phase := PlanLifecycle.Failed))
  {
    var id, v := u.caller.plan, OneCall(apps, u, now, date, u.caller.plan);
    EndNext(apps, u, now, date, id);
    OneCallReads(apps, u, now, date);
    if v.caller.phase.Normalize? {
      EndNext(apps, v, now, date, id);
      OneCallNormalizes(apps, v, now, date);
    } else if v.caller.phase.FixExpiry? {
      assert Normalized(u.plans[id], apps.services[u.caller.appId]) == u.plans[id];
      assert u.plans[id := u.plans[id]] == u.plans;
    }
  }

  function ReferenceId(grantReferenceId: string, generatedId: string): string {
    if Trim(grantReferenceId) != "" then Trim(grantReferenceId) else generatedId
  }

  // A validity period in days, rounded up; whole periods only.
  function ValidityDays(period: int, unit: string): (days: Option<int>)
    ensures days.Some? <==> period > 0 && unit in ["Days", "Month", "Year"]
    ensures days.Some? && unit == "Days" ==> days.value == period
    ensures days.Some? && unit == "Month" ==> 16 * (days.value - 1) < 487 * period <= 16 * days.value
    ensures days.Some? && unit == "Year" ==> 4 * (days.value - 1) < 1461 * period <= 4 * days.value
  {
    if period <= 0 then None
    else if unit == "Days" then Some(period)
    else if unit == "Month" then Some((487 * period + 15) / 16)    // ceil of 30.4375 days a month
    else if unit == "Year" then Some((1461 * period + 3) / 4)      // ceil of 365.25 days a year
    else None
  }

  datatype ServiceError =
    | NotFound | Expired | FullyUsed | NoSupportedService | NotPersisted | AllowanceUnusable | TopUpFailed
    | GrantNotSent | ReferenceReused | InvalidValidity

  class CreditService {
    const creditRepository: Repository.CreditRepository
    const commandQueue: CommandQueue<GrantCommand>
    const chain: Chain.Chain
    const apps: Apps

    constructor (creditRepository: Repository.CreditRepository, commandQueue: CommandQueue<GrantCommand>,
        chain: Chain.Chain, apps: Apps)
      ensures this.creditRepository == creditRepository && this.commandQueue == commandQueue
      ensures this.chain == chain && this.apps == apps
    {
      this.creditRepository, this.commandQueue, this.chain, this.apps := creditRepository, commandQueue, chain, apps;
    }

    // The stores as a caller leaves them that ends like this, with what was in the queue before and room for
    // `capacity` more commands.
    ghost predicate EndsAs(end: Alone, before: seq<GrantCommand>, capacity: nat, now: int, ok: bool)
      reads this, creditRepository, chain, commandQueue
    {
      && creditRepository.plans == end.plans && chain.grants == end.grants
      && commandQueue.jobs == before + Sent(apps, end.caller, capacity, now)
      && (ok <==> Succeeds(apps, end.caller, capacity, now))
    }

    // The activation of `p`, the latest document of a plan, from plans, chain grants and a queue as given. For CAVACH
    // an expiry is stored unless there is one, and the document is granted with it.
    ghost predicate ActivatesDocument(plans: Plans, grants: Chain.Grants, jobs: seq<GrantCommand>, capacity: nat,
        creditId: PlanId, p: Plan, service: ServiceType, now: int, date: int, ok: bool)
      reads this, creditRepository, chain, commandQueue
    {
      if service.SsiApi? then
        ActivatesSsi(plans, grants, jobs, capacity, creditId, p, if p.expiresAt.At? then p.expiresAt.time else date,
          now, ok)
      else
        var q := if p.expiresAt.At? then p else p.(expiresAt := At(date));
        && creditRepository.plans == plans[creditId := q] && chain.grants == grants
        && Enqueues(jobs, commandQueue.jobs, capacity, creditId,
             q.(status := Active, criticalBalance := Some(ResolveCriticalBalance(p))), service, now, ok)
    }

    // The activation of `p`, the latest document of an SSI plan, from plans, chain grants and a queue as given: with a
    // usable allowance nothing is asked of the chain; without any, the chain is topped up or the activation fails. The
    // document is granted if it has come out ACTIVE.
    ghost predicate ActivatesSsi(plans: Plans, grants: Chain.Grants, jobs: seq<GrantCommand>, capacity: nat,
        creditId: PlanId, p: Plan, expiresAt: int, now: int, ok: bool)
      reads this, creditRepository, chain, commandQueue
    {
      var toppedUp := p.allowance.None? && CanTopUp(grants, p.total - p.used);
      var usable := p.allowance.Some? &&
        0 <= p.allowance.value.usedAmount < p.allowance.value.amount <= MAX_SAFE_INTEGER;
      && chain.grants == (if toppedUp then ToppedUp(grants, p.total - p.used) else grants)
      && if !toppedUp && !usable
         then !ok && creditRepository.plans == plans[creditId := p] && commandQueue.jobs == jobs
         else WritesAndGrants(plans, jobs, capacity, creditId, p, expiresAt,
           if toppedUp then Some(2000 * (p.total - p.used)) else None, now, ok)
    }

    ghost predicate WritesAndGrants(plans: Plans, jobs: seq<GrantCommand>, capacity: nat, creditId: PlanId, p: Plan,
        expiresAt: int, newAllowance: Option<int>, now: int, ok: bool)
      reads this, creditRepository, commandQueue
    {
      && creditId in creditRepository.plans
      && var q := creditRepository.plans[creditId];
         && creditRepository.plans == plans[creditId := q]
         && Activates(p, q, expiresAt, newAllowance, now) && q.criticalBalance == Some(ResolveCriticalBalance(p))
         && if q.status.Active? then Enqueues(jobs, commandQueue.jobs, capacity, creditId, q, SsiApi, now, ok)
            else !ok && commandQueue.jobs == jobs
    }

    // Up to the document whose expiry is to be settled.
    method ReadForActivation(creditId: PlanId, appId: AppId, now: int, date: int)
      returns (r: Result<Plan, ServiceError>)
      modifies creditRepository`plans
      ensures var start := Alone(old(creditRepository.plans), chain.grants, Caller(true, creditId, appId, ReadPlan));
              var phase := if r.Ok? then FixExpiry(r.value) else PlanLifecycle.Failed;
              End(apps, start, now, date, creditId) ==
              End(apps, Alone(creditRepository.plans, chain.grants, start.caller.(phase := phase)), now, date, creditId)
      ensures r.Ok? ==> apps.Supported(appId)
      ensures r.Ok? <==>
                && creditId in old(creditRepository.plans)
                && var p := old(creditRepository.plans)[creditId];
                   && p.serviceId == appId && p.used < p.total
                   && (p.expiresAt.At? ==> now < p.expiresAt.time)
                   && appId in apps.services && apps.services[appId] in {SsiApi, CavachApi}
      ensures r.Err? ==> creditRepository.plans == old(creditRepository.plans)
      ensures r == Err(NotFound) <==>
                creditId !in old(creditRepository.plans) || old(creditRepository.plans)[creditId].serviceId != appId
      ensures r == Err(Expired) <==>
                && creditId in old(creditRepository.plans)
                && var p := old(creditRepository.plans)[creditId];
                   p.serviceId == appId && p.expiresAt.At? && p.expiresAt.time <= now
      ensures r == Err(NoSupportedService) <==>
                Activatable(old(creditRepository.plans), creditId, appId, now) && !apps.Supported(appId)
      ensures r.Ok? ==>
                && r.value == Normalized(old(creditRepository.plans)[creditId], apps.services[appId])
                && creditRepository.plans == old(creditRepository.plans)[creditId := r.value]
    {
      ghost var a := Caller(true, creditId, appId, ReadPlan);
      EndAfterRead(apps, Alone(creditRepository.plans, chain.grants, a), now, date);
      var found := creditRepository.FindParticularCreditDetail(Repository.ById(appId, creditId));
      if found.None? {
        return Err(NotFound);
      }
      var credit := creditRepository.plans[found.value];
      if credit.expiresAt.At? && credit.expiresAt.time <= now {
        return Err(Expired);
      }
      if credit.used >= credit.total {
        return Err(FullyUsed);
      }
      if !apps.Supported(appId) {
        return Err(NoSupportedService);
      }
      var criticalBalance := ResolveCriticalBalance(credit);
      if credit.criticalBalance == Some(criticalBalance) {
        return Ok(credit);
      }
      var normalized := creditRepository.FindOneAndUpdate(
        appId, creditId, NormalizeCriticalBalance(criticalBalance, apps.services[appId]));
      r := Ok(normalized.value);
    }

    // The expiry to activate with; a CAVACH plan without one gets one stored first.
    method SettleExpiry(creditId: PlanId, appId: AppId, doc: Plan, now: int, date: int)
      returns (r: Result<int, ServiceError>)
      requires apps.Supported(appId)
      modifies creditRepository`plans
      ensures var start := Alone(old(creditRepository.plans), chain.grants,
                Caller(true, creditId, appId, FixExpiry(doc)));
              var phase := if r.Ok? then AfterExpiry(apps, appId, doc, r.value) else PlanLifecycle.Failed;
              End(apps, start, now, date, creditId) ==
              End(apps, Alone(creditRepository.plans, chain.grants, start.caller.(phase := phase)), now, date, creditId)
      // Without an expiry, the proposed date; for CAVACH it is stored first, unless one has been stored since.
      ensures doc.expiresAt.At? ==> r == Ok(doc.expiresAt.time) && creditRepository.plans == old(creditRepository.plans)
      ensures !doc.expiresAt.At? && apps.services[appId].SsiApi? ==>
                r == Ok(date) && creditRepository.plans == old(creditRepository.plans)
      ensures !doc.expiresAt.At? && apps.services[appId].CavachApi? ==>
                var plans := old(creditRepository.plans);
                if creditId !in plans || plans[creditId].serviceId != appId
                then r.Err? && creditRepository.plans == plans
                else if plans[creditId].expiresAt.At?
                then r == Ok(plans[creditId].expiresAt.time) && creditRepository.plans == plans
                else r == Ok(date) && creditRepository.plans ==
                       plans[creditId := plans[creditId].(expiresAt := At(date))]
    {
      ghost var u := Alone(creditRepository.plans, chain.grants, Caller(true, creditId, appId, FixExpiry(doc)));
      EndNext(apps, u, now, date, creditId);
      if doc.expiresAt.At? {
        return Ok(doc.expiresAt.time);
      }
      if !apps.services[appId].CavachApi? {
        return Ok(date);
      }
      var persisted := creditRepository.FindOneAndUpdate(appId, creditId, ProposeExpiry(date));
      if persisted.Some? {
        return Ok(date);
      }
      ghost var v := OneCall(apps, u, now, date, creditId);
      EndNext(apps, v, now, date, creditId);
      var stable := creditRepository.FindParticularCreditDetail(Repository.ById(appId, creditId));
      if stable.None? || !creditRepository.plans[stable.value].expiresAt.At? {
        return Err(NotPersisted);
      }
      r := Ok(creditRepository.plans[stable.value].expiresAt.time);
    }

    // A fresh allowance for the wallet of an SSI plan.
    method TopUpChain(credits: int) returns (r: Option<int>)
      modifies chain
      ensures var amount := SsiOnChainAllowance(credits);
              if amount.Some? && ChainAccepts(old(chain.grants), amount.value)
              then r == amount && chain.grants == AfterTopUp(old(chain.grants), amount.value)
              else r.None? && chain.grants == old(chain.grants)
      ensures if CanTopUp(old(chain.grants), credits)
              then r == Some(2000 * credits) && chain.grants == ToppedUp(old(chain.grants), credits)
              else r.None? && chain.grants == old(chain.grants)
    {
      var amount := SsiOnChainAllowance(credits);
      if amount.None? {
        return None;
      }
      ParseInvertsToString(amount.value);
      var granted := Chain.GrantSsiAllowance(chain, ToString(amount.value));
      r := if granted.Ok? then ParseUhidAmount(granted.value) else None;
    }

    method SendGrant(creditId: PlanId, appId: AppId, doc: Plan, now: int) returns (r: Result<(), ServiceError>)
      requires appId in apps.services
      modifies commandQueue
      ensures forall activation: bool ::
                var a := Caller(activation, creditId, appId, Publish(doc));
                && commandQueue.jobs == old(commandQueue.jobs) + Sent(apps, a, old(commandQueue.capacity), now)
                && (r.Ok? <==> Succeeds(apps, a, old(commandQueue.capacity), now))
      ensures Enqueues(old(commandQueue.jobs), commandQueue.jobs, old(commandQueue.capacity), creditId, doc,
                apps.services[appId], now, r.Ok?)
    {
      var sent := GrantCreditPlan(commandQueue, creditId, doc, apps.services[appId], now);
      r := if sent.Ok? then Ok(()) else Err(GrantNotSent);
    }

    method ActivateCredit(creditId: PlanId, appId: AppId, now: int, date: int) returns (r: Result<(), ServiceError>)
      modifies creditRepository`plans, commandQueue, chain
      ensures var start := Alone(old(creditRepository.plans), old(chain.grants),
                Caller(true, creditId, appId, ReadPlan));
              var end := End(apps, start, now, date, creditId);
              EndsAs(end, old(commandQueue.jobs), old(commandQueue.capacity), now, r.Ok?)
      // Refused without any effect: no such plan of the application, expired, used up, or no supported service.
      ensures || creditId !in old(creditRepository.plans)
              || old(creditRepository.plans)[creditId].serviceId != appId
              || (var e := old(creditRepository.plans)[creditId].expiresAt; e.At? && e.time <= now)
              || old(creditRepository.plans)[creditId].used >= old(creditRepository.plans)[creditId].total
              || appId !in apps.services || apps.services[appId] !in {SsiApi, CavachApi} ==>
                && r.Err? && creditRepository.plans == old(creditRepository.plans)
                && chain.grants == old(chain.grants) && commandQueue.jobs == old(commandQueue.jobs)
      ensures Activatable(old(creditRepository.plans), creditId, appId, now) && apps.Supported(appId) ==>
                ActivatesDocument(old(creditRepository.plans), old(chain.grants), old(commandQueue.jobs),
                  old(commandQueue.capacity), creditId,
                  Normalized(old(creditRepository.plans)[creditId], apps.services[appId]), apps.services[appId], now,
                  date, r.Ok?)
    {
      var read := ReadForActivation(creditId, appId, now, date);
      if read.Err? {
        return Err(read.error);
      }
      r := ActivateRead(creditId, appId, read.value, now, date);
      if creditId in creditRepository.plans {
        WrittenTwice(old(creditRepository.plans), creditId, read.value, creditRepository.plans[creditId]);
      }
    }

    // From the document read on: settle its expiry, then grant a CAVACH plan or activate an SSI plan.
    method ActivateRead(creditId: PlanId, appId: AppId, doc: Plan, now: int, date: int)
      returns (r: Result<(), ServiceError>)
      requires apps.Supported(appId)
      modifies creditRepository`plans, commandQueue, chain
      ensures var start := Alone(old(creditRepository.plans), old(chain.grants),
                Caller(true, creditId, appId, FixExpiry(doc)));
              var end := End(apps, start, now, date, creditId);
              EndsAs(end, old(commandQueue.jobs), old(commandQueue.capacity), now, r.Ok?)
      ensures creditId in old(creditRepository.plans) && old(creditRepository.plans)[creditId] == doc &&
              doc.serviceId == appId ==>
                ActivatesDocument(old(creditRepository.plans), old(chain.grants), old(commandQueue.jobs),
                  old(commandQueue.capacity), creditId, doc, apps.services[appId], now, date, r.Ok?)
    {
      var expiry := SettleExpiry(creditId, appId, doc, now, date);
      if expiry.Err? {
        return Err(expiry.error);
      }
      if apps.services[appId].CavachApi? {
        r := SendGrant(creditId, appId, ForMiddlewareGrant(doc, expiry.value), now);
        return;
      }
      r := ActivateSsi(creditId, appId, doc, expiry.value, now, date);
    }

    method ActivateSsi(creditId: PlanId, appId: AppId, doc: Plan, expiresAt: int, now: int, date: int)
      returns (r: Result<(), ServiceError>)
      requires apps.Supported(appId) && apps.services[appId].SsiApi?
      modifies creditRepository`plans, commandQueue, chain
      ensures var a := Caller(true, creditId, appId, AfterExpiry(apps, appId, doc, expiresAt));
              var end := End(apps, Alone(old(creditRepository.plans), old(chain.grants), a), now, date, creditId);
              EndsAs(end, old(commandQueue.jobs), old(commandQueue.capacity), now, r.Ok?)
      ensures creditId in old(creditRepository.plans) && old(creditRepository.plans)[creditId] == doc &&
              doc.serviceId == appId ==>
                ActivatesSsi(old(creditRepository.plans), old(chain.grants), old(commandQueue.jobs),
                  old(commandQueue.capacity), creditId, doc, expiresAt, now, r.Ok?)
    {
      if doc.allowance.Some? {
        if !UsableAllowance(doc.allowance.value) {
          return Err(AllowanceUnusable);
        }
        r := WriteActivated(creditId, appId, doc, expiresAt, None, now, date);
        return;
      }
      ghost var a := Caller(true, creditId, appId, GrantOnChain(doc, expiresAt));
      EndAfterTopUp(apps, Alone(creditRepository.plans, chain.grants, a), doc, expiresAt, now, date, creditId);
      var newAllowance := TopUpChain(doc.total - doc.used);
      if newAllowance.None? {
        return Err(TopUpFailed);
      }
      r := WriteActivated(creditId, appId, doc, expiresAt, newAllowance, now, date);
    }

    method WriteActivated(
      creditId: PlanId, appId: AppId, doc: Plan, expiresAt: int, newAllowance: Option<int>, now: int, date: int)
      returns (r: Result<(), ServiceError>)
      requires apps.Supported(appId)
      modifies creditRepository`plans, commandQueue
      ensures var a := Caller(true, creditId, appId, WriteActivation(doc, expiresAt, newAllowance));
              var end := End(apps, Alone(old(creditRepository.plans), chain.grants, a), now, date, creditId);
              EndsAs(end, old(commandQueue.jobs), old(commandQueue.capacity), now, r.Ok?)
      ensures creditId !in old(creditRepository.plans) || old(creditRepository.plans)[creditId].serviceId != appId ==>
                && r.Err? && creditRepository.plans == old(creditRepository.plans)
                && commandQueue.jobs == old(commandQueue.jobs)
      // The latest document is written and granted, not the one that was read.
      ensures creditId in old(creditRepository.plans) && old(creditRepository.plans)[creditId].serviceId == appId ==>
                && creditId in creditRepository.plans
                && var q := creditRepository.plans[creditId];
                   && creditRepository.plans == old(creditRepository.plans)[creditId := q]
                   && Activates(old(creditRepository.plans)[creditId], q, expiresAt, newAllowance, now)
                   && q.criticalBalance == Some(ResolveCriticalBalance(doc))
                   && if q.status.Active?
                      then Enqueues(old(commandQueue.jobs), commandQueue.jobs, old(commandQueue.capacity), creditId, q,
                        apps.services[appId], now, r.Ok?)
                      else r == Err(AllowanceUnusable) && commandQueue.jobs == old(commandQueue.jobs)
    {
      ghost var a := Caller(true, creditId, appId, WriteActivation(doc, expiresAt, newAllowance));
      EndNext(apps, Alone(creditRepository.plans, chain.grants, a), now, date, creditId);
      var activated := creditRepository.ActivateSsiCreditPlan(
        appId, creditId, now, expiresAt, ResolveCriticalBalance(doc), newAllowance,
        if newAllowance.Some? then Some(ALL_SCOPES) else None);
      if activated.None? {
        return Err(NotPersisted);
      }
      if !activated.value.status.Active? {
        return Err(AllowanceUnusable);
      }
      r := SendGrant(creditId, appId, activated.value, now);
    }

    // A repeated reference id: refused unless total, critical balance, validity and source agree; then sent again if it
    // is unfinished, and accepted as done otherwise.
    ghost predicate GrantsAgain(jobs: seq<GrantCommand>, capacity: nat, p: Plan, q: GrantRequest, service: ServiceType,
        id: PlanId, now: int, ok: bool)
      reads this, commandQueue
    {
      if !(&& p.total == q.total && p.criticalBalance == Some(FourTenths(q.total))
           && p.validityDays == q.validityDays && p.source == q.source)
      then !ok && commandQueue.jobs == jobs
      else if Unfinished(p, service)
      then Enqueues(jobs, commandQueue.jobs, capacity, id, p.(status := Active), service, now, ok)
      else ok && commandQueue.jobs == jobs
    }

    // A new reference id: while a usable plan is ACTIVE the new one is only stored; otherwise it is activated with the
    // proposed expiry and granted, an SSI plan after a top-up of the chain, without which nothing happens.
    ghost predicate GrantsNew(plans: Plans, grants: Chain.Grants, jobs: seq<GrantCommand>, capacity: nat,
        q: GrantRequest, service: ServiceType, newId: PlanId, now: int, date: int, ok: bool)
      reads this, creditRepository, chain, commandQueue
    {
      if HasUsableActivePlan(plans, q.appId, None, now) then
        && creditRepository.plans == plans[newId := Requested(q, service, None, None, now)]
        && ok && chain.grants == grants && commandQueue.jobs == jobs
      else if service == SsiApi && !CanTopUp(grants, q.total) then
        !ok && creditRepository.plans == plans && chain.grants == grants && commandQueue.jobs == jobs
      else
        var newAllowance := if service == SsiApi then Some(2000 * q.total) else None;
        var p := Requested(q, service, Some(date), newAllowance, now);
        && creditRepository.plans == plans[newId := p]
        && chain.grants == (if service == SsiApi then ToppedUp(grants, q.total) else grants)
        && Enqueues(jobs, commandQueue.jobs, capacity, newId, p.(status := Active), service, now, ok)
    }

    // `generatedId` and `newId` are the random reference id and the id of a new document; `plan` is the plan that
    // answers to the reference id.
    method GrantCredit(
      appId: AppId, total: int, period: int, unit: string, source: CreditSource, grantReferenceId: string,
      generatedId: string, newId: PlanId, now: int, date: int)
      returns (r: Result<(), ServiceError>, ghost plan: PlanId)
      requires generatedId != "" && newId !in creditRepository.plans && "" !in apps.services
      modifies creditRepository`plans, commandQueue, chain
      ensures ValidityDays(period, unit).None? ==>
                && r.Err? && creditRepository.plans == old(creditRepository.plans) && chain.grants == old(chain.grants)
                && commandQueue.jobs == old(commandQueue.jobs)
      ensures ValidityDays(period, unit).Some? ==>
                var q := GrantRequest(
                  appId, ReferenceId(grantReferenceId, generatedId), total, ValidityDays(period, unit).value, source);
                FindsReference(old(creditRepository.plans), q, plan) &&
                var start := Alone(old(creditRepository.plans), old(chain.grants), Caller(false, "", appId, Lookup(q)));
                EndsAs(End(apps, start, now, date, plan), old(commandQueue.jobs), old(commandQueue.capacity), now,
                  r.Ok?)
      // Refused without any effect: no period in known units, no service, or a total that is not positive and safe.
      ensures period <= 0 || unit !in ["Days", "Month", "Year"] || appId !in apps.services ||
              !(0 < total <= MAX_SAFE_INTEGER) ==>
                && r.Err? && creditRepository.plans == old(creditRepository.plans)
                && chain.grants == old(chain.grants) && commandQueue.jobs == old(commandQueue.jobs)
      ensures ValidityDays(period, unit).Some? && appId in apps.services && 0 < total <= MAX_SAFE_INTEGER ==>
                var reference := if Trim(grantReferenceId) != "" then Trim(grantReferenceId) else generatedId;
                var q := GrantRequest(appId, reference, total, ValidityDays(period, unit).value, source);
                if exists id :: id in old(creditRepository.plans) &&
                     old(creditRepository.plans)[id].serviceId == appId &&
                     old(creditRepository.plans)[id].referenceId == reference
                then
                  && plan in old(creditRepository.plans)
                  && old(creditRepository.plans)[plan].serviceId == appId
                  && old(creditRepository.plans)[plan].referenceId == reference
                  && creditRepository.plans == old(creditRepository.plans) && chain.grants == old(chain.grants)
                  && GrantsAgain(old(commandQueue.jobs), old(commandQueue.capacity), old(creditRepository.plans)[plan],
                       q, apps.services[appId], plan, now, r.Ok?)
                else
                  plan == newId &&
                  GrantsNew(old(creditRepository.plans), old(chain.grants), old(commandQueue.jobs),
                    old(commandQueue.capacity), q, apps.services[appId], newId, now, date, r.Ok?)
    {
      plan := "";
      var validityDays := ValidityDays(period, unit);
      if validityDays.None? {
        return Err(InvalidValidity), plan;
      }
      var q := GrantRequest(appId, ReferenceId(grantReferenceId, generatedId), total, validityDays.value, source);
      var existing := creditRepository.FindParticularCreditDetail(Repository.ByReference(appId, q.referenceId));
      plan := if existing.Some? then existing.value else newId;
      EndNext(apps, Alone(creditRepository.plans, chain.grants, Caller(false, "", appId, Lookup(q))), now, date, plan);
      if appId !in apps.services || !q.Valid() {
        return Err(NoSupportedService), plan;
      }
      if existing.Some? {
        r := GrantAgain(q, existing.value, now, date);
      } else {
        r := GrantNew(q, newId, now, date);
      }
    }

    // The reference id is already that of a plan: the request must agree with it, and an unfinished grant is resent.
    method GrantAgain(q: GrantRequest, id: PlanId, now: int, date: int) returns (r: Result<(), ServiceError>)
      requires q.Valid() && q.appId in apps.services
      requires id in creditRepository.plans && HasReference(creditRepository.plans[id], q.appId, q.referenceId)
      modifies commandQueue
      ensures var start := Alone(creditRepository.plans, chain.grants, Caller(false, "", q.appId, Lookup(q)));
              var end := End(apps, start, now, date, id);
              EndsAs(end, old(commandQueue.jobs), old(commandQueue.capacity), now, r.Ok?)
      ensures GrantsAgain(old(commandQueue.jobs), old(commandQueue.capacity), creditRepository.plans[id], q,
                apps.services[q.appId], id, now, r.Ok?)
    {
      ghost var u := Alone(creditRepository.plans, chain.grants, Caller(false, "", q.appId, Lookup(q)));
      EndNext(apps, u, now, date, id);
      var p := creditRepository.plans[id];
      if !Agrees(p, q) {
        return Err(ReferenceReused);
      }
      var retryKyc := apps.services[q.appId].CavachApi? && p.status.Inactive?;
      var retrySsi := apps.services[q.appId].SsiApi? && p.status.Active? && p.allowance.Some?;
      if !p.expiresAt.At? || !(retryKyc || retrySsi) {
        return Ok(());
      }
      r := SendGrant(id, q.appId, ForMiddlewareGrant(p, p.expiresAt.time), now);
    }

    method GrantNew(q: GrantRequest, newId: PlanId, now: int, date: int) returns (r: Result<(), ServiceError>)
      requires q.Valid() && q.appId in apps.services && q.referenceId != "" && q.appId != ""
      requires newId !in creditRepository.plans && FindsReference(creditRepository.plans, q, newId)
      modifies creditRepository`plans, commandQueue, chain
      ensures var start := Alone(old(creditRepository.plans), old(chain.grants), Caller(false, "", q.appId, Lookup(q)));
              var end := End(apps, start, now, date, newId);
              EndsAs(end, old(commandQueue.jobs), old(commandQueue.capacity), now, r.Ok?)
      ensures GrantsNew(old(creditRepository.plans), old(chain.grants), old(commandQueue.jobs),
                old(commandQueue.capacity), q, apps.services[q.appId], newId, now, date, r.Ok?)
    {
      ghost var u := Alone(creditRepository.plans, chain.grants, Caller(false, "", q.appId, Lookup(q)));
      ghost var end := End(apps, u, now, date, newId);
      EndNext(apps, u, now, date, newId);
      u := u.(caller := u.caller.(phase := CheckActive(q)));
      assert end == End(apps, u, now, date, newId);
      EndNext(apps, u, now, date, newId);
      var activeCredit := creditRepository.FindActiveCreditForService(q.appId, None, now);
      var activate := if activeCredit.None? then Some(date) else None;
      if !apps.services[q.appId].SsiApi? || activate.None? {
        r := CreateGranted(q, activate, None, newId, now, date);
        return;
      }
      u := u.(caller := u.caller.(phase := GrantNewOnChain(q, date)));
      assert end == End(apps, u, now, date, newId);
      EndNext(apps, u, now, date, newId);
      var newAllowance := TopUpChain(q.total);
      if newAllowance.None? {
        return Err(TopUpFailed);
      }
      r := CreateGranted(q, activate, newAllowance, newId, now, date);
    }

    // The insert of a new plan and what follows it.
    method CreateGranted(q: GrantRequest, activate: Option<int>, newAllowance: Option<int>, newId: PlanId, now: int,
        date: int)
      returns (r: Result<(), ServiceError>)
      requires q.referenceId != "" && q.appId != "" && q.appId in apps.services
      requires newId !in creditRepository.plans && FindsReference(creditRepository.plans, q, newId)
      modifies creditRepository`plans, commandQueue
      ensures var a := Caller(false, "", q.appId, CreatePlan(q, activate, newAllowance));
              var end := End(apps, Alone(old(creditRepository.plans), chain.grants, a), now, date, newId);
              EndsAs(end, old(commandQueue.jobs), old(commandQueue.capacity), now, r.Ok?)
      ensures var p := Requested(q, apps.services[q.appId], activate, newAllowance, now);
              && creditRepository.plans == old(creditRepository.plans)[newId := p]
              && if activate.None? then r.Ok? && commandQueue.jobs == old(commandQueue.jobs)
                 else Enqueues(old(commandQueue.jobs), commandQueue.jobs, old(commandQueue.capacity), newId,
                   p.(status := Active), apps.services[q.appId], now, r.Ok?)
    {
      ghost var u := Alone(creditRepository.plans, chain.grants,
        Caller(false, "", q.appId, CreatePlan(q, activate, newAllowance)));
      EndNext(apps, u, now, date, newId);
      NewPlanIsRequested(apps, q, activate, newAllowance, now);
      var plan := NewPlan(apps, q, activate, newAllowance, now);
      var created := creditRepository.Create(newId, plan);
      var p := creditRepository.plans[created.value];
      if !Agrees(p, q) {
        return Err(ReferenceReused);
      }
      if activate.None? {
        return Ok(());
      }
      var persistedExpiry := if p.expiresAt.At? then p.expiresAt.time else date;
      var document := if apps.services[q.appId].SsiApi? then p else ForMiddlewareGrant(p, persistedExpiry);
      r := SendGrant(created.value, q.appId, document, now);
    }

    // A plan of the application is exhausted or nearly so: activate another unless one is already usable.
    method ProcessCriticalBalance(appId: AppId, planId: PlanId, now: int, date: int)
      returns (r: Result<(), ServiceError>, replacement: Option<PlanId>)
      modifies creditRepository`plans, commandQueue, chain
      ensures replacement.Some? <==>
                && !HasUsableActivePlan(old(creditRepository.plans), appId, Some(planId), now)
                && exists id :: id in old(creditRepository.plans) && Unused(old(creditRepository.plans)[id], appId)
      ensures replacement.None? ==>
                && r.Ok? && creditRepository.plans == old(creditRepository.plans) && chain.grants == old(chain.grants)
                && commandQueue.jobs == old(commandQueue.jobs)
      ensures replacement.Some? ==>
                && replacement.value in old(creditRepository.plans)
                && Unused(old(creditRepository.plans)[replacement.value], appId)
                && var a := Caller(true, replacement.value, appId, ReadPlan);
                   var end := End(apps, Alone(old(creditRepository.plans), old(chain.grants), a), now, date,
                     replacement.value);
              EndsAs(end, old(commandQueue.jobs), old(commandQueue.capacity), now, r.Ok?)
      // A replacement belongs to the application, is INACTIVE and has never had an expiry, and no other plan of the
      // application is ACTIVE and unexpired with credits left. Activatable as it is, it is activated.
      ensures replacement.Some? ==>
                && old(creditRepository.plans)[replacement.value].serviceId == appId
                && old(creditRepository.plans)[replacement.value].status == Inactive
                && old(creditRepository.plans)[replacement.value].expiresAt == Missing
                && (forall id :: id in old(creditRepository.plans) && id != planId ==>
                      var p := old(creditRepository.plans)[id];
                      || p.serviceId != appId || p.status == Inactive || p.used >= p.total
                      || (p.expiresAt.At? && p.expiresAt.time <= now))
      ensures replacement.Some? && apps.Supported(appId) ==>
                var p := old(creditRepository.plans)[replacement.value];
                if p.used < p.total
                then ActivatesDocument(old(creditRepository.plans), old(chain.grants), old(commandQueue.jobs),
                  old(commandQueue.capacity), replacement.value, Normalized(p, apps.services[appId]),
                  apps.services[appId], now, date, r.Ok?)
                else r.Err? && creditRepository.plans == old(creditRepository.plans)
      ensures replacement.None? ==>
                || (exists id :: id in old(creditRepository.plans) && id != planId &&
                      var p := old(creditRepository.plans)[id];
                      && p.serviceId == appId && p.status == Active && p.used < p.total
                      && (p.expiresAt.At? ==> p.expiresAt.time > now))
                || (forall id :: id in old(creditRepository.plans) ==>
                      var p := old(creditRepository.plans)[id];
                      p.serviceId != appId || p.status == Active || p.expiresAt != Missing)
    {
      var activeReplacement := creditRepository.FindActiveCreditForService(appId, Some(planId), now);
      if activeReplacement.Some? {
        return Ok(()), None;
      }
      replacement := creditRepository.FindParticularCreditDetail(Repository.NeverActivated(appId));
      if replacement.None? {
        return Ok(()), None;
      }
      r := ActivateCredit(replacement.value, appId, now, date);
    }
  }
}
