/** The repository methods that change plans and outbox in place: src/credits/repositories/credit.repository.ts. */
module CreditRepository {
  import opened Prelude
  import opened CreditWallet
  import opened CreditPlans
  import opened CommitStore
  import PlanLifecycle

  datatype RepositoryError = UnknownCreditType | ExceedsBalanceOrNoPlan | InvalidPlan

  // The filters the services pass to findParticularCreditDetail.
  datatype Filter =
    | ById(appId: AppId, planId: PlanId)
    | ByReference(appId: AppId, referenceId: string)
    | NeverActivated(appId: AppId)
  {
    predicate Selects(id: PlanId, p: Plan) {
      match this
      case ById(_, planId) => p.serviceId == appId && id == planId
      case ByReference(_, referenceId) => PlanLifecycle.HasReference(p, appId, referenceId)
      case NeverActivated(_) => PlanLifecycle.Unused(p, appId)
    }
  }

  function ReferenceOf(plan: Plan): Filter {
    ByReference(plan.serviceId, plan.referenceId)
  }

  class CreditRepository {
    var plans: Plans
    var outbox: Outbox

    constructor (plans: Plans)
      ensures this.plans == plans && outbox == map[]
    {
      this.plans := plans;
      this.outbox := map[];
    }

    // Outbox insert and debit in one transaction. Ok(None) reports that the event id was already recorded.
    method ApplyPlanCreditCommit(
      appId: AppId, planId: PlanId, amount: int, eventId: EventId, creditType: string, serviceType: ServiceType)
      returns (r: Result<Option<Plan>, RepositoryError>)
      modifies this
      ensures ParseCreditType(creditType).None? ==>
                r == Err(UnknownCreditType) && plans == old(plans) && outbox == old(outbox)
      ensures ParseCreditType(creditType).Some? ==>
                var before := Db(old(plans), old(outbox), []);
                var c := Commit(appId, planId, serviceType, ParseCreditType(creditType).value, amount);
                var after := ApplyCommit(before, eventId, c);
                && plans == after.plans && outbox == after.outbox
                && r == (match CommitResult(before, eventId, c)
                         case Applied(plan) => Ok(Some(plan))
                         case DuplicateEvent => Ok(None)
                         case Rejected => Err(ExceedsBalanceOrNoPlan))
      // The same in the fields of the documents.
      ensures creditType !in ["API_CREDIT", "BLOCKCHAIN_TXN_CREDIT"] ==> r == Err(UnknownCreditType)
      ensures r == Ok(None) <==> creditType in ["API_CREDIT", "BLOCKCHAIN_TXN_CREDIT"] && eventId in old(outbox)
      ensures r.Ok? && r.value.Some? <==>
                && eventId !in old(outbox)
                && planId in old(plans)
                && old(plans)[planId].serviceId == appId && old(plans)[planId].serviceType == serviceType
                && (|| (creditType == "API_CREDIT" && old(plans)[planId].used + amount <= old(plans)[planId].total)
                    || (creditType == "BLOCKCHAIN_TXN_CREDIT" && old(plans)[planId].allowance.Some? &&
                        var a := old(plans)[planId].allowance.value; a.usedAmount + amount <= a.amount))
      ensures r.Err? || r.value.None? ==> plans == old(plans) && outbox == old(outbox)
      ensures r.Ok? && r.value.Some? ==>
                var q := r.value.value;
                && plans == old(plans)[planId := q]
                && q == old(plans)[planId].(used := q.used, allowance := q.allowance, status := q.status)
                && outbox == old(outbox)[eventId := OutboxRecord(
                     Commit(appId, planId, serviceType,
                       if creditType == "API_CREDIT" then ApiCredit else BlockchainTxnCredit, amount),
                     Pending, None, None, 0)]
      ensures r.Ok? && r.value.Some? && creditType == "API_CREDIT" ==>
                var p, q := old(plans)[planId], r.value.value;
                && q.used == p.used + amount && q.allowance == p.allowance
                && (!serviceType.SsiApi? ==> (q.status.Inactive? <==> p.status.Inactive? || q.used == q.total))
      ensures r.Ok? && r.value.Some? && creditType == "BLOCKCHAIN_TXN_CREDIT" ==>
                var p, q := old(plans)[planId], r.value.value;
                && q.used == p.used && p.allowance.Some?
                && q.allowance == Some(Allowance(p.allowance.value.amount, p.allowance.value.usedAmount + amount))
                && (!serviceType.SsiApi? ==>
                      (q.status.Inactive? <==>
                        p.status.Inactive? || q.allowance.value.usedAmount == q.allowance.value.amount))
      ensures r.Ok? && r.value.Some? && serviceType.SsiApi? ==>
                var q := r.value.value;
                q.status.Inactive? <==>
                  || old(plans)[planId].status.Inactive?
                  || (&& q.used == q.total && q.allowance.Some?
                      && q.allowance.value.usedAmount == q.allowance.value.amount)
    {
      var kind := ParseCreditType(creditType);
      if kind.None? {
        return Err(UnknownCreditType);
      }
      // The unique index on the event id aborts the transaction before the plan is touched.
      if eventId in outbox {
        return Ok(None);
      }
      if planId !in plans || plans[planId].serviceId != appId || plans[planId].serviceType != serviceType {
        return Err(ExceedsBalanceOrNoPlan);
      }
      var plan := plans[planId];
      var total := plan.Total(kind.value);
      var updatedUsed := plan.Used(kind.value) + amount;
      if total.None? || updatedUsed > total.value {
        return Err(ExceedsBalanceOrNoPlan);
      }
      var becomesInactive;
      if serviceType.SsiApi? {
        var apiUsed := if kind.value.ApiCredit? then updatedUsed else plan.used;
        var chainUsed := if kind.value.BlockchainTxnCredit? then updatedUsed else plan.Used(BlockchainTxnCredit);
        becomesInactive := apiUsed == plan.total && plan.allowance.Some? && chainUsed == plan.allowance.value.amount;
      } else {
        becomesInactive := updatedUsed == total.value;
      }
      plan := plan.WithUsed(kind.value, updatedUsed);
      if becomesInactive {
        plan := plan.(status := Inactive);
      }
      plans := plans[planId := plan];
      outbox := outbox[eventId :=
        OutboxRecord(Commit(appId, planId, serviceType, kind.value, amount), Pending, None, None, 0)];
      r := Ok(Some(plan));
    }

    method ClaimCommitLedgerWrite(eventId: EventId, leaseToken: Token, now: int) returns (r: Option<Token>)
      modifies this`outbox
      ensures outbox == Claim(old(outbox), eventId, leaseToken, now, LEASE_MS)
      ensures r == if eventId in old(outbox) && Claimable(old(outbox)[eventId], now) then Some(leaseToken) else None
      ensures r.Some? <==>
                && eventId in old(outbox)
                && var record := old(outbox)[eventId];
                   || record.status.Pending?
                   || (record.status.Writing? && (record.until.Some? ==> record.until.value <= now))
      ensures r.None? ==> outbox == old(outbox)
      ensures r.Some? ==>
                && r == Some(leaseToken)
                && outbox == old(outbox)[eventId := OutboxRecord(
                     old(outbox)[eventId].commit, Writing, r, Some(now + 30_000), old(outbox)[eventId].attempts + 1)]
    {
      if eventId !in outbox || outbox[eventId].status.Written? {
        return None;
      }
      var record := outbox[eventId];
      if record.status.Writing? && record.until.Some? && record.until.value > now {
        return None;
      }
      outbox := outbox[eventId := record.(
        status := Writing, token := Some(leaseToken), until := Some(now + LEASE_MS), attempts := record.attempts + 1)];
      r := Some(leaseToken);
    }

    method MarkCommitLedgerWritten(eventId: EventId, leaseToken: Option<Token>)
      modifies this`outbox
      ensures outbox == MarkWritten(old(outbox), eventId, leaseToken)
      ensures if eventId in old(outbox) && (leaseToken.None? || leaseToken == old(outbox)[eventId].token)
              then outbox == old(outbox)[eventId := OutboxRecord(
                     old(outbox)[eventId].commit, Written, None, None, old(outbox)[eventId].attempts)]
              else outbox == old(outbox)
    {
      if eventId in outbox {
        var record := outbox[eventId];
        if leaseToken.None? || record.token == leaseToken {
          outbox := outbox[eventId := record.(status := Written, token := None, until := None)];
        }
      }
    }

    method ReleaseCommitLedgerWrite(eventId: EventId, leaseToken: Token)
      modifies this`outbox
      ensures outbox == ReleaseLease(old(outbox), eventId, leaseToken)
      ensures if eventId in old(outbox) && old(outbox)[eventId].token == Some(leaseToken)
              then outbox == old(outbox)[eventId := OutboxRecord(
                     old(outbox)[eventId].commit, Pending, None, None, old(outbox)[eventId].attempts)]
              else outbox == old(outbox)
    {
      if eventId in outbox && outbox[eventId].token == Some(leaseToken) {
        outbox := outbox[eventId := outbox[eventId].(status := Pending, token := None, until := None)];
      }
    }

    method HasProcessedCommit(appId: AppId, eventId: EventId) returns (r: bool)
      ensures r <==> HasProcessed(outbox, eventId, appId)
      ensures r <==> eventId in outbox && outbox[eventId].commit.appId == appId
    {
      r := eventId in outbox && outbox[eventId].commit.appId == appId;
    }

    // The plan a filter selects, if any; with several candidates, any of them.
    method FindParticularCreditDetail(filter: Filter) returns (r: Option<PlanId>)
      ensures r.Some? <==> exists id :: id in plans && filter.Selects(id, plans[id])
      ensures r.Some? ==> r.value in plans && filter.Selects(r.value, plans[r.value])
      ensures r.Some? ==> plans[r.value].serviceId == filter.appId
      ensures filter.ById? ==>
                && (r.Some? <==> filter.planId in plans && plans[filter.planId].serviceId == filter.appId)
                && (r.Some? ==> r.value == filter.planId)
      ensures filter.ByReference? ==>
                && (r.Some? ==> plans[r.value].referenceId == filter.referenceId)
                && (r.None? ==> forall id :: id in plans ==>
                     plans[id].serviceId != filter.appId || plans[id].referenceId != filter.referenceId)
      ensures filter.NeverActivated? ==>
                && (r.Some? ==> plans[r.value].status.Inactive? && plans[r.value].expiresAt == Missing)
                && (r.None? ==> forall id :: id in plans ==>
                     plans[id].serviceId != filter.appId || plans[id].status.Active? || !plans[id].expiresAt.Missing?)
    {
      if exists id :: id in plans && filter.Selects(id, plans[id]) {
        var id :| id in plans && filter.Selects(id, plans[id]);
        return Some(id);
      }
      r := None;
    }

    // The guarded updates of plan-expired, credit.granted, normalisation and the CAVACH expiry proposal.
    method FindOneAndUpdate(appId: AppId, planId: PlanId, update: Update) returns (r: Option<Plan>)
      requires !update.ActivateSsi?
      modifies this`plans
      ensures plans == UpdatePlan(old(plans), planId, appId, update)
      ensures r.Some? <==>
                planId in old(plans) && old(plans)[planId].serviceId == appId && Matches(old(plans)[planId], update)
      ensures r.Some? ==> r.value == plans[planId]
      ensures r.None? ==> plans == old(plans)
      ensures r.Some? <==>
                && planId in old(plans) && old(plans)[planId].serviceId == appId
                && (update.PlanExpired? ==> old(plans)[planId].status == Active)
                && (update.CreditGranted? ==> old(plans)[planId].status == Inactive)
                && (update.ProposeExpiry? ==> old(plans)[planId].expiresAt in {Missing, NullDate})
      ensures r.Some? ==>
                && plans == old(plans)[planId := r.value]
                && var p := old(plans)[planId];
                   r.value == match update
                     case PlanExpired => p.(status := Inactive)
                     case CreditGranted(expiresAt) => p.(status := Active, expiresAt := At(expiresAt))
                     case NormalizeCriticalBalance(balance, service) =>
                       p.(criticalBalance := Some(balance), serviceType := service)
                     case ProposeExpiry(proposed) => p.(expiresAt := At(proposed))
    {
      if planId !in plans || plans[planId].serviceId != appId || !Matches(plans[planId], update) {
        return None;
      }
      var p := plans[planId];
      match update {
        case PlanExpired => p := p.(status := Inactive);
        case CreditGranted(expiresAt) => p := p.(status := Active, expiresAt := At(expiresAt));
        case NormalizeCriticalBalance(criticalBalance, serviceType) =>
          p := p.(criticalBalance := Some(criticalBalance), serviceType := serviceType);
        case ProposeExpiry(proposed) => p := p.(expiresAt := At(proposed));
      }
      plans := plans[planId := p];
      r := Some(p);
    }

    method ActivateSsiCreditPlan(
      appId: AppId, planId: PlanId, now: int, expiresAt: int, criticalBalance: int,
      newAllowance: Option<int>, newScopes: Option<seq<Scope>>)
      returns (r: Option<Plan>)
      modifies this`plans
      ensures plans == UpdatePlan(old(plans), planId, appId,
                ActivateSsi(now, expiresAt, criticalBalance, newAllowance, newScopes))
      ensures r.Some? <==> planId in old(plans) && old(plans)[planId].serviceId == appId
      ensures r.Some? ==> r.value == plans[planId]
      ensures r.None? ==> plans == old(plans)
      ensures r.Some? ==>
                var p, q := old(plans)[planId], r.value;
                && plans == old(plans)[planId := q]
                && q == p.(serviceType := SsiApi, expiresAt := At(expiresAt), criticalBalance := Some(criticalBalance),
                     allowance := q.allowance, scopes := q.scopes, status := q.status)
                && q.allowance == (if p.allowance.Some? || newAllowance.None? then p.allowance
                                   else Some(Allowance(newAllowance.value, 0)))
                && q.scopes == (if p.scopes != [] || newScopes.None? then p.scopes else newScopes.value)
                && (q.status.Active? <==>
                     && now < expiresAt && q.used < q.total
                     && q.allowance.Some? && q.allowance.value.usedAmount < q.allowance.value.amount)
    {
      if planId !in plans || plans[planId].serviceId != appId {
        return None;
      }
      // First stage: fields that never replace an allowance or scopes already there.
      var p := plans[planId].(
        serviceType := SsiApi, expiresAt := At(expiresAt), criticalBalance := Some(criticalBalance));
      if newAllowance.Some? && p.allowance.None? {
        p := p.(allowance := Some(Allowance(newAllowance.value, 0)));
      }
      if newScopes.Some? && |p.scopes| == 0 {
        p := p.(scopes := newScopes.value);
      }
      // Second stage: the status follows from the document as it is now.
      var usable := now < expiresAt && p.used < p.total
        && p.allowance.Some? && p.allowance.value.usedAmount < p.allowance.value.amount;
      p := p.(status := if usable then Active else Inactive);
      plans := plans[planId := p];
      r := Some(p);
    }

    // Upsert on (serviceId, referenceId): an existing plan is returned as it is.
    method Create(newId: PlanId, plan: Plan) returns (r: Result<PlanId, RepositoryError>)
      requires newId !in plans
      modifies this`plans
      ensures plan.serviceId == "" || plan.referenceId == "" ==> r.Err? && plans == old(plans)
      ensures r.Ok? ==>
                && r.value in plans && ReferenceOf(plan).Selects(r.value, plans[r.value])
                && (if exists id :: id in old(plans) && ReferenceOf(plan).Selects(id, old(plans)[id])
                    then plans == old(plans)
                    else r.value == newId && plans == old(plans)[newId := plan])
      ensures plan.serviceId != "" && plan.referenceId != "" ==> r.Ok?
    {
      if plan.serviceId == "" || plan.referenceId == "" {
        return Err(InvalidPlan);
      }
      if exists id :: id in plans && ReferenceOf(plan).Selects(id, plans[id]) {
        var id :| id in plans && ReferenceOf(plan).Selects(id, plans[id]);
        return Ok(id);
      }
      plans := plans[newId := plan];
      r := Ok(newId);
    }

    method FindActiveCreditForService(appId: AppId, exclude: Option<PlanId>, now: int) returns (r: Option<PlanId>)
      ensures r.Some? ==>
                && r.value in plans && exclude != r
                && var p := plans[r.value];
                   && p.serviceId == appId && p.status == Active && p.used < p.total
                   && (p.expiresAt == Missing || p.expiresAt == NullDate || p.expiresAt.time > now)
      ensures r.None? ==>
                forall id :: id in plans && exclude != Some(id) ==>
                  var p := plans[id];
                  || p.serviceId != appId || p.status == Inactive || p.used >= p.total
                  || (p.expiresAt.At? && p.expiresAt.time <= now)
      ensures r.Some? <==> PlanLifecycle.HasUsableActivePlan(plans, appId, exclude, now)
      ensures r.Some? ==>
                r.value in plans && PlanLifecycle.UsableActivePlan(plans[r.value], r.value, appId, exclude, now)
    {
      if exists id :: id in plans && PlanLifecycle.UsableActivePlan(plans[id], id, appId, exclude, now) {
        var id :| id in plans && PlanLifecycle.UsableActivePlan(plans[id], id, appId, exclude, now);
        return Some(id);
      }
      r := None;
    }
  }

  class CreditLedgerRepository {
    var entries: seq<EventId>

    constructor ()
      ensures entries == []
    {
      entries := [];
    }

    method Create(eventId: EventId)
      modifies this
      ensures entries == old(entries) + [eventId]
    {
      entries := entries + [eventId];
    }

    method Exists(eventId: EventId) returns (r: bool)
      ensures r <==> eventId in entries
    {
      r := eventId in entries;
    }
  }
}
