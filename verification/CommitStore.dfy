/**
 The three collections behind a committed credit event, and the atomic calls on them:
 plans, the outbox (unique on event id) and the append-only ledger (no unique index).
 */
module CommitStore {
  import opened Prelude
  import opened CreditWallet
  import opened CreditPlans

  type Token = nat

  // How long a claim on a ledger write lasts.
  const LEASE_MS: nat := 30_000

  // A lease token is present exactly while the record is WRITING; see CommitProtocol.LeaseShape.
  datatype LedgerStatus = Pending | Writing | Written

  datatype OutboxRecord = OutboxRecord(
    commit: Commit, status: LedgerStatus, token: Option<Token>, until: Option<int>, attempts: nat)

  type Outbox = map<EventId, OutboxRecord>

  datatype Db = Db(plans: Plans, outbox: Outbox, ledger: seq<EventId>)

  datatype CommitOutcome = Applied(plan: Plan) | DuplicateEvent | Rejected

  // One transaction: insert the outbox record (unique event id), then debit the plan; both or neither.
  function CommitResult(db: Db, id: EventId, c: Commit): CommitOutcome {
    if id in db.outbox then DuplicateEvent
    else if c.planId in db.plans && Fits(db.plans[c.planId], c) then Applied(Debit(db.plans[c.planId], c))
    else Rejected
  }

  function ApplyCommit(db: Db, id: EventId, c: Commit): Db {
    match CommitResult(db, id, c)
    case Applied(plan) => db.(
      outbox := db.outbox[id := OutboxRecord(c, Pending, None, None, 0)],
      plans := db.plans[c.planId := plan])
    case _ => db
  }

  predicate HasProcessed(outbox: Outbox, id: EventId, appId: AppId) {
    id in outbox && outbox[id].commit.appId == appId
  }

  predicate Claimable(r: OutboxRecord, now: int) {
    || r.status.Pending?
    || (r.status.Writing? && r.until.Some? && r.until.value <= now)
    || (r.status.Writing? && r.until.None?)
  }

  function Claim(outbox: Outbox, id: EventId, token: Token, now: int, leaseMs: nat): Outbox {
    if id in outbox && Claimable(outbox[id], now)
    then outbox[id := outbox[id].(
                  status := Writing, token := Some(token), until := Some(now + leaseMs),
                  attempts := outbox[id].attempts + 1)]
    else outbox
  }

  // Without a token the write is unconditional; with one it needs the record to carry that token.
  function MarkWritten(outbox: Outbox, id: EventId, token: Option<Token>): Outbox {
    if id in outbox && (token.None? || outbox[id].token == token)
    then outbox[id := outbox[id].(status := Written, token := None, until := None)]
    else outbox
  }

  function ReleaseLease(outbox: Outbox, id: EventId, token: Token): Outbox {
    if id in outbox && outbox[id].token == Some(token)
    then outbox[id := outbox[id].(status := Pending, token := None, until := None)]
    else outbox
  }

  // Token holders can be overtaken; what they then write has no effect.
  lemma SupersededTokenChangesNothing(outbox: Outbox, id: EventId, token: Token)
    requires id in outbox ==> outbox[id].token != Some(token)
    ensures MarkWritten(outbox, id, Some(token)) == outbox
    ensures ReleaseLease(outbox, id, token) == outbox
  {
  }

  lemma ClaimThenReleaseReopens(outbox: Outbox, id: EventId, token: Token, now: int, leaseMs: nat)
    requires id in outbox && Claimable(outbox[id], now)
    ensures var held := Claim(outbox, id, token, now, leaseMs);
            && (forall t: int | now <= t < now + leaseMs :: !Claimable(held[id], t))
            && Claimable(held[id], now + leaseMs)
            && Claimable(ReleaseLease(held, id, token)[id], now)
  {
  }

  // Sum of the amounts charged to one wallet by the outbox records of the given ids.
  ghost function Charged(events: map<EventId, Commit>, ids: set<EventId>, plan: PlanId, creditType: CreditType): int
    decreases |ids|
  {
    if ids == {} then 0
    else
      var id :| id in ids;
      Charge(events, id, plan, creditType) + Charged(events, ids - {id}, plan, creditType)
  }

  ghost function Charge(events: map<EventId, Commit>, id: EventId, plan: PlanId, creditType: CreditType): int {
    if id in events && events[id].planId == plan && events[id].creditType == creditType then events[id].amount else 0
  }

  // The choice of element in Charged does not matter.
  lemma {:induction false} ChargedRemove(events: map<EventId, Commit>, ids: set<EventId>, id: EventId, plan: PlanId,
      creditType: CreditType)
    requires id in ids
    ensures Charged(events, ids, plan, creditType) ==
            Charge(events, id, plan, creditType) + Charged(events, ids - {id}, plan, creditType)
    decreases |ids|
  {
    var first :| first in ids &&
      Charged(events, ids, plan, creditType) ==
      Charge(events, first, plan, creditType) + Charged(events, ids - {first}, plan, creditType);
    if first != id {
      ChargedRemove(events, ids - {first}, id, plan, creditType);
      ChargedRemove(events, ids - {id}, first, plan, creditType);
      assert ids - {first} - {id} == ids - {id} - {first};
    }
  }

  lemma ChargedInsert(events: map<EventId, Commit>, ids: set<EventId>, id: EventId, plan: PlanId,
      creditType: CreditType)
    requires id !in ids
    ensures Charged(events, ids + {id}, plan, creditType) ==
            Charge(events, id, plan, creditType) + Charged(events, ids, plan, creditType)
  {
    ChargedRemove(events, ids + {id}, id, plan, creditType);
    assert ids + {id} - {id} == ids;
  }

  // Charges are positive, so charging more events never lowers a sum.
  lemma {:induction false} ChargedMonotone(events: map<EventId, Commit>, few: set<EventId>, many: set<EventId>,
      plan: PlanId, creditType: CreditType)
    requires few <= many
    requires forall id :: id in events ==> events[id].Valid()
    ensures Charged(events, few, plan, creditType) <= Charged(events, many, plan, creditType)
    decreases |many|
  {
    if few != many {
      var id :| id in many && id !in few;
      ChargedRemove(events, many, id, plan, creditType);
      ChargedMonotone(events, few, many - {id}, plan, creditType);
    }
  }
}
