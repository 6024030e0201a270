/**
 Processing one committed event: src/credits/services/credit-event-store.service.ts. Each method is proved
 against the undisturbed run of the protocol's state machine from the same program point.
 */
module CreditEventStore {
  import opened Prelude
  import opened CreditWallet
  import opened CreditPlans
  import opened CommitStore
  import opened CommitProtocol
  import opened CommitRecovery
  import Repository = CreditRepository

  datatype StoreError =
    | InvalidPlanId | CommitRejected | CommitNotApplied | WriteInProgress

  // Nobody holds an unexpired lease on the record, and it is not written.
  predicate Open(record: OutboxRecord, now: int) {
    || record.status == Pending
    || (record.status == Writing && (record.until == None || record.until.value <= now))
  }

  // Once in the ledger, where it is appended only if it is missing, and WRITTEN if it has a record.
  ghost predicate LeavesWritten(before: Db, after: Db, id: EventId) {
    && after.plans == before.plans
    && after.ledger == (if id in before.ledger then before.ledger else before.ledger + [id])
    && after.outbox.Keys == before.outbox.Keys
    && (forall other :: other in before.outbox && other != id ==> after.outbox[other] == before.outbox[other])
    && (id in before.outbox ==>
          && after.outbox[id].commit == before.outbox[id].commit
          && after.outbox[id].status == Written && after.outbox[id].token == None && after.outbox[id].until == None)
  }

  // The event is on record for the application and can be written now.
  predicate Retriable(db: Db, id: EventId, appId: AppId, now: int) {
    id in db.outbox && db.outbox[id].commit.appId == appId && (id in db.ledger || Open(db.outbox[id], now))
  }

  // The event is new and its plan has room for it.
  predicate New(db: Db, id: EventId, c: Commit) {
    id !in db.outbox && c.planId in db.plans && Fits(db.plans[c.planId], c)
  }

  // The plan is debited and the event recorded and written.
  ghost predicate Applies(before: Db, after: Db, id: EventId, c: Commit)
    requires New(before, id, c)
  {
    && after.plans == before.plans[c.planId := Debit(before.plans[c.planId], c)]
    && after.ledger == (if id in before.ledger then before.ledger else before.ledger + [id])
    && after.outbox == before.outbox[id := OutboxRecord(c, Written, None, None, 1)]
  }

  // One worker alone at the given program point.
  function Alone(db: Db, now: int, token: Token, pc: Pc): State {
    State(db, now, token, [pc], {})
  }

  function OneEvent(id: EventId, c: Commit): World {
    World(map[id := c], map[])
  }

  class CreditEventStore {
    const creditRepository: Repository.CreditRepository
    const creditLedgerRepository: Repository.CreditLedgerRepository

    constructor (creditRepository: Repository.CreditRepository,
        creditLedgerRepository: Repository.CreditLedgerRepository)
      ensures this.creditRepository == creditRepository && this.creditLedgerRepository == creditLedgerRepository
    {
      this.creditRepository := creditRepository;
      this.creditLedgerRepository := creditLedgerRepository;
    }

    function Contents(): Db
      reads this, creditRepository, creditLedgerRepository
    {
      Db(creditRepository.plans, creditRepository.outbox, creditLedgerRepository.entries)
    }

    // A PLAN_EXPIRED or CREDIT_GRANTED job whose envelope has passed validation. The status change comes before the
    // ledger entry that makes a redelivery stop at the first check.
    method ProcessStatusEvent(
      eventId: EventId, appId: AppId, middlewarePlanId: string, serviceType: ServiceType, creditType: Option<string>,
      update: Update)
      returns (r: Result<(), StoreError>)
      requires update.PlanExpired? || update.CreditGranted?
      modifies creditRepository, creditLedgerRepository
      ensures var db, plan := old(Contents()), DashboardPlanId(middlewarePlanId, serviceType, creditType);
              && (r.Ok? <==> eventId in db.ledger || plan.Ok?)
              && Contents() ==
                 if r.Err? || eventId in db.ledger then db
                 else Db(UpdatePlan(db.plans, plan.value, appId, update), db.outbox, db.ledger + [eventId])
      // In the fields of the plan: only a status that the event is for is changed.
      ensures var db, plan := old(Contents()), DashboardPlanId(middlewarePlanId, serviceType, creditType);
              r.Ok? && eventId !in db.ledger ==>
                && Contents().ledger == db.ledger + [eventId] && Contents().outbox == db.outbox
                && Contents().plans.Keys == db.plans.Keys
                && forall id :: id in db.plans ==>
                     var p, q := db.plans[id], Contents().plans[id];
                     if id != plan.value || p.serviceId != appId then q == p
                     else match update
                       case PlanExpired => q == p.(status := Inactive)
                       case CreditGranted(expiresAt) =>
                         if p.status == Inactive then q == p.(status := Active, expiresAt := At(expiresAt)) else q == p
    {
      var known := creditLedgerRepository.Exists(eventId);
      if known {
        return Ok(());
      }
      var plan := DashboardPlanId(middlewarePlanId, serviceType, creditType);
      if plan.Err? {
        return Err(InvalidPlanId);
      }
      var updated := creditRepository.FindOneAndUpdate(appId, plan.value, update);
      creditLedgerRepository.Create(eventId);
      r := Ok(());
    }

    method PersistCommitLedger(eventId: EventId, now: int, leaseToken: Token) returns (r: Result<(), StoreError>)
      modifies creditRepository, creditLedgerRepository
      ensures Contents() == Persisted(old(Contents()), eventId, now, leaseToken)
      ensures r.Ok? <==> Persists(old(Contents()), eventId, now)
      ensures r.Ok? <==>
                || eventId in old(Contents()).ledger
                || (eventId in old(Contents()).outbox && Open(old(Contents()).outbox[eventId], now))
      ensures r.Err? ==> Contents() == old(Contents())
      ensures r.Ok? ==> LeavesWritten(old(Contents()), Contents(), eventId)
    {
      var lease := creditRepository.ClaimCommitLedgerWrite(eventId, leaseToken, now);
      if lease.None? {
        var inLedger := creditLedgerRepository.Exists(eventId);
        if inLedger {
          creditRepository.MarkCommitLedgerWritten(eventId, None);
          return Ok(());
        }
        return Err(WriteInProgress);
      }
      var inLedger := creditLedgerRepository.Exists(eventId);
      if !inLedger {
        creditLedgerRepository.Create(eventId);
      }
      creditRepository.MarkCommitLedgerWritten(eventId, lease);
      r := Ok(());
    }

    method ProcessCommit(eventId: EventId, c: Commit, now: int, leaseToken: Token) returns (r: Result<(), StoreError>)
      modifies creditRepository, creditLedgerRepository
      ensures var t := RunAlone(OneEvent(eventId, c), Alone(old(Contents()), now, leaseToken, ApplyDebit(eventId)), 0);
              Contents() == t.db && (r.Ok? <==> eventId in t.done)
      ensures r.Ok? <==>
                New(old(Contents()), eventId, c) || Retriable(old(Contents()), eventId, c.appId, now)
      ensures r.Err? ==> Contents() == old(Contents())
      ensures r.Ok? ==>
                if New(old(Contents()), eventId, c) then Applies(old(Contents()), Contents(), eventId, c)
                else LeavesWritten(old(Contents()), Contents(), eventId)
    {
      ghost var start := Contents();
      CommitRun(OneEvent(eventId, c), Alone(start, now, leaseToken, ApplyDebit(eventId)), 0, eventId);
      assert ParseCreditType(c.creditType.Name()) == Some(c.creditType);
      var applied := creditRepository.ApplyPlanCreditCommit(
        c.appId, c.planId, c.amount, eventId, c.creditType.Name(), c.serviceType);
      assert Contents() == ApplyCommit(start, eventId, c);
      CommitRunLeaves(start, eventId, c, now, leaseToken);
      if applied.Err? {
        return Err(CommitRejected);
      }
      if applied.value.None? {
        var processed := creditRepository.HasProcessedCommit(c.appId, eventId);
        if !processed {
          return Err(CommitNotApplied);
        }
      }
      // The usage notification goes here; an error in it is the ThrowStep at Notify of the protocol.
      r := PersistCommitLedger(eventId, now, leaseToken);
    }

    // A COMMITTED job whose envelope has passed validation.
    method ProcessCommittedEvent(
      eventId: EventId, appId: AppId, middlewarePlanId: string, serviceType: ServiceType, creditType: CreditType,
      amount: int, now: int, leaseToken: Token)
      returns (r: Result<(), StoreError>)
      modifies creditRepository, creditLedgerRepository
      ensures var plan := DashboardPlanId(middlewarePlanId, serviceType, Some(creditType.Name()));
              if plan.Err? && eventId !in old(Contents()).ledger
              then r == Err(InvalidPlanId) && Contents() == old(Contents())
              else
                var c := Commit(appId, if plan.Ok? then plan.value else "", serviceType, creditType, amount);
                var t := RunAlone(OneEvent(eventId, c),
                  Alone(old(Contents()), now, leaseToken, CheckLedger(eventId)), 0);
                Contents() == t.db && (r.Ok? <==> eventId in t.done)
      ensures eventId in old(Contents()).ledger ==> r.Ok? && LeavesWritten(old(Contents()), Contents(), eventId)
      ensures var plan := DashboardPlanId(middlewarePlanId, serviceType, Some(creditType.Name()));
              eventId !in old(Contents()).ledger ==>
                && (r.Ok? <==>
                      && plan.Ok?
                      && (|| New(old(Contents()), eventId, Commit(appId, plan.value, serviceType, creditType, amount))
                          || Retriable(old(Contents()), eventId, appId, now)))
                && (r.Err? ==> Contents() == old(Contents()))
                && (r.Ok? ==>
                      var c := Commit(appId, plan.value, serviceType, creditType, amount);
                      if New(old(Contents()), eventId, c) then Applies(old(Contents()), Contents(), eventId, c)
                      else LeavesWritten(old(Contents()), Contents(), eventId))
    {
      ghost var start := Contents();
      var known := creditLedgerRepository.Exists(eventId);
      if known {
        creditRepository.MarkCommitLedgerWritten(eventId, None);
        KnownRun(start, now, leaseToken, eventId);
        return Ok(());
      }
      var plan := DashboardPlanId(middlewarePlanId, serviceType, Some(creditType.Name()));
      if plan.Err? {
        return Err(InvalidPlanId);
      }
      r := ProcessCommit(eventId, Commit(appId, plan.value, serviceType, creditType, amount), now, leaseToken);
      FirstCheckRun(start, now, leaseToken, eventId, Commit(appId, plan.value, serviceType, creditType, amount));
    }
  }

  // Where the undisturbed run from the debit on ends, told from the database it starts in.
  lemma CommitRunLeaves(db: Db, id: EventId, c: Commit, now: int, token: Token)
    ensures var after := ApplyCommit(db, id, c);
            var completes := ReachesLedgerWrite(db, id, c) && Persists(after, id, now);
            && (completes <==> New(db, id, c) || Retriable(db, id, c.appId, now))
            && (!completes ==> after == db)
            && (New(db, id, c) ==> Applies(db, Persisted(after, id, now, token), id, c))
            && (completes && !New(db, id, c) ==> LeavesWritten(db, Persisted(after, id, now, token), id))
  {
  }

  lemma KnownRun(db: Db, now: int, token: Token, id: EventId)
    requires id in db.ledger
    ensures forall c: Commit ::
              var t := RunAlone(OneEvent(id, c), Alone(db, now, token, CheckLedger(id)), 0);
              t.db == db.(outbox := MarkWritten(db.outbox, id, None)) && id in t.done
  {
    forall c: Commit
      ensures var t := RunAlone(OneEvent(id, c), Alone(db, now, token, CheckLedger(id)), 0);
              t.db == db.(outbox := MarkWritten(db.outbox, id, None)) && id in t.done
    {
      var s := Alone(db, now, token, CheckLedger(id));
      var s1 := Call(OneEvent(id, c), s, 0);
      assert s1.workers == [MarkKnown(id)];
      var s2 := Call(OneEvent(id, c), s1, 0);
      assert s2.workers == [Idle];
      assert RunAlone(OneEvent(id, c), s1, 0) == s2;
    }
  }

  lemma FirstCheckRun(db: Db, now: int, token: Token, id: EventId, c: Commit)
    requires id !in db.ledger
    ensures RunAlone(OneEvent(id, c), Alone(db, now, token, CheckLedger(id)), 0) ==
            RunAlone(OneEvent(id, c), Alone(db, now, token, ApplyDebit(id)), 0)
  {
    var s := Alone(db, now, token, CheckLedger(id));
    assert Call(OneEvent(id, c), s, 0) == Alone(db, now, token, ApplyDebit(id));
  }
}
