/**
 The credit commit protocol as a state machine.

 Any number of workers process committed events that are delivered at least once. Every repository call is
 one atomic step; a call may also be lost (no effect, the caller sees an error) or late (it takes effect but
 the caller sees an error), a worker may crash anywhere, the clock advances freely, and the plan life cycle
 and other lifecycle events interleave.
 */
module CommitProtocol {
  import opened Prelude
  import opened CreditWallet
  import opened CreditPlans
  import opened CommitStore

  // The committed events of a run by id, and the plans it starts from.
  datatype World = World(events: map<EventId, Commit>, base: Plans) {
    ghost predicate Valid() {
      && (forall id :: id in events ==> events[id].Valid())
      && AllInBounds(base)
    }
  }

  datatype Lease = Lease(token: Token, until: int)

  // Where a worker stands: the next call it will make.
  datatype Pc =
    | Idle
    | CheckLedger(id: EventId)
    | MarkKnown(id: EventId)
    | ApplyDebit(id: EventId)
    | CheckProcessed(id: EventId)
    | Notify(id: EventId)
    | ClaimWrite(id: EventId)
    | CheckUnleased(id: EventId)
    | MarkUnleased(id: EventId)
    | CheckLeased(id: EventId, lease: Lease)
    | Append(id: EventId, lease: Lease)
    | MarkLeased(id: EventId, lease: Lease)
    | Release(id: EventId, lease: Lease)
  {
    predicate HoldsLease() {
      CheckLeased? || Append? || MarkLeased? || Release?
    }

    // Calls of the try block; an error there is followed by a release.
    predicate Guarded() {
      CheckLeased? || Append? || MarkLeased?
    }

    function Rank(): nat {
      match this
      case Idle => 0
      case CheckLedger(_) => 9
      case ApplyDebit(_) => 8
      case CheckProcessed(_) => 7
      case Notify(_) => 7
      case ClaimWrite(_) => 6
      case CheckLeased(_, _) => 4
      case Append(_, _) => 3
      case CheckUnleased(_) => 3
      case MarkLeased(_, _) => 2
      case _ => 1
    }
  }

  // `done` records the events for which some delivery ended without an error.
  datatype State = State(db: Db, now: int, nextToken: Token, workers: seq<Pc>, done: set<EventId>)

  // The effect of the next call of a worker on the database.
  function Effect(world: World, s: State, pc: Pc): Db {
    match pc
    case MarkKnown(id) => s.db.(outbox := MarkWritten(s.db.outbox, id, None))
    case ApplyDebit(id) => if id in world.events then ApplyCommit(s.db, id, world.events[id]) else s.db
    case ClaimWrite(id) => s.db.(outbox := Claim(s.db.outbox, id, s.nextToken, s.now, LEASE_MS))
    case MarkUnleased(id) => s.db.(outbox := MarkWritten(s.db.outbox, id, None))
    case Append(id, lease) => s.db.(ledger := s.db.ledger + [id])
    case MarkLeased(id, lease) => s.db.(outbox := MarkWritten(s.db.outbox, id, Some(lease.token)))
    case Release(id, lease) => s.db.(outbox := ReleaseLease(s.db.outbox, id, lease.token))
    case _ => s.db
  }

  // Where control goes when the call returns. Idle stands for the end of the delivery, with or without an error.
  function Continue(world: World, s: State, pc: Pc): Pc {
    match pc
    case Idle => Idle
    case CheckLedger(id) => if id in s.db.ledger then MarkKnown(id) else ApplyDebit(id)
    case MarkKnown(_) => Idle
    case ApplyDebit(id) =>
      if id !in world.events then Idle
      else (match CommitResult(s.db, id, world.events[id])
            case Applied(_) => Notify(id)
            case DuplicateEvent => CheckProcessed(id)
            case Rejected => Idle)
    case CheckProcessed(id) =>
      if id in world.events && HasProcessed(s.db.outbox, id, world.events[id].appId) then ClaimWrite(id) else Idle
    case Notify(id) => ClaimWrite(id)
    case ClaimWrite(id) =>
      if id in s.db.outbox && Claimable(s.db.outbox[id], s.now)
      then CheckLeased(id, Lease(s.nextToken, s.now + LEASE_MS))
      else CheckUnleased(id)
    case CheckUnleased(id) => if id in s.db.ledger then MarkUnleased(id) else Idle
    case MarkUnleased(_) => Idle
    case CheckLeased(id, lease) => if id in s.db.ledger then MarkLeased(id, lease) else Append(id, lease)
    case Append(id, lease) => MarkLeased(id, lease)
    case MarkLeased(_, _) => Idle
    case Release(_, _) => Idle
  }

  predicate Finishes(pc: Pc) {
    pc.MarkKnown? || pc.MarkUnleased? || pc.MarkLeased?
  }

  function TokenAfter(s: State, pc: Pc): Token {
    if pc.ClaimWrite? then s.nextToken + 1 else s.nextToken
  }

  // A call that returns normally.
  function Call(world: World, s: State, w: nat): State
    requires w < |s.workers|
  {
    var pc := s.workers[w];
    s.(db := Effect(world, s, pc),
       nextToken := TokenAfter(s, pc),
       workers := s.workers[w := Continue(world, s, pc)],
       done := if Finishes(pc) then s.done + {pc.id} else s.done)
  }

  // Where control goes when the call throws.
  function Caught(pc: Pc): Pc {
    if pc.Guarded() then Release(pc.id, pc.lease) else Idle
  }

  function Throw(world: World, s: State, w: nat, takesEffect: bool): State
    requires w < |s.workers|
  {
    var pc := s.workers[w];
    s.(db := if takesEffect then Effect(world, s, pc) else s.db,
       nextToken := TokenAfter(s, pc),
       workers := s.workers[w := Caught(pc)])
  }

  datatype Step =
    | DeliverStep(w: nat, id: EventId)
    | CallStep(w: nat)
    | ThrowStep(w: nat, takesEffect: bool)
    | CrashStep(w: nat)
    | TickStep(ms: nat)
    | UpdateStep(plan: PlanId, appId: AppId, u: Update)
    | CreatePlanStep(plan: PlanId, p: Plan)
    | OtherEventStep(id: EventId)

  predicate Enabled(world: World, s: State, step: Step) {
    match step
    case DeliverStep(w, id) => w < |s.workers| && s.workers[w].Idle? && id in world.events
    case CallStep(w) => w < |s.workers| && !s.workers[w].Idle?
    case ThrowStep(w, _) => w < |s.workers| && !s.workers[w].Idle?
    case CrashStep(w) => w < |s.workers|
    case TickStep(_) => true
    case UpdateStep(_, _, u) => ValidUpdate(u)
    case CreatePlanStep(plan, p) => plan !in s.db.plans && ValidNewPlan(p)
    case OtherEventStep(id) => id !in world.events
  }

  function Next(world: World, s: State, step: Step): State
    requires Enabled(world, s, step)
  {
    match step
    case DeliverStep(w, id) => s.(workers := s.workers[w := CheckLedger(id)])
    case CallStep(w) => Call(world, s, w)
    case ThrowStep(w, takesEffect) => Throw(world, s, w, takesEffect)
    case CrashStep(w) => s.(workers := s.workers[w := Idle])
    case TickStep(ms) => s.(now := s.now + ms)
    case UpdateStep(plan, appId, u) => s.(db := s.db.(plans := UpdatePlan(s.db.plans, plan, appId, u)))
    case CreatePlanStep(plan, p) => s.(db := s.db.(plans := s.db.plans[plan := p]))
    case OtherEventStep(id) => s.(db := s.db.(ledger := s.db.ledger + [id]))
  }

  ghost predicate Init(world: World, s: State) {
    && world.Valid()
    && s.db == Db(world.base, map[], [])
    && (forall w :: 0 <= w < |s.workers| ==> s.workers[w] == Idle)
    && s.done == {}
  }

  // Every finite run: `steps` leads from `s` to `t`.
  ghost predicate Runs(world: World, s: State, steps: seq<Step>, t: State)
    decreases |steps|
  {
    if steps == [] then s == t
    else Enabled(world, s, steps[0]) && Runs(world, Next(world, s, steps[0]), steps[1..], t)
  }

  ghost predicate Reachable(world: World, s: State) {
    exists init: State, steps: seq<Step> :: Init(world, init) && Runs(world, init, steps, s)
  }

  // --- The invariant ---

  // A token and a deadline are present exactly while the record is WRITING.
  predicate WellShaped(outbox: Outbox) {
    forall id :: id in outbox ==>
      && (outbox[id].status.Writing? <==> outbox[id].token.Some?)
      && (outbox[id].status.Writing? <==> outbox[id].until.Some?)
  }

  predicate LeaseShape(s: State) {
    && WellShaped(s.db.outbox)
    && (forall id :: id in s.db.outbox && s.db.outbox[id].token.Some? ==> s.db.outbox[id].token.value < s.nextToken)
  }

  // Outbox and ledger agree: a WRITTEN record is in the ledger, a committed ledger entry has its outbox record.
  ghost predicate Agreement(world: World, s: State) {
    && (forall id :: id in s.db.outbox && s.db.outbox[id].status.Written? ==> id in s.db.ledger)
    && (forall id :: id in s.db.ledger && id in world.events ==> id in s.db.outbox)
    && (forall id :: id in s.done ==> id in s.db.ledger && id in world.events)
  }

  ghost predicate OutboxRecordsEvents(world: World, s: State) {
    forall id :: id in s.db.outbox ==> id in world.events && s.db.outbox[id].commit == world.events[id]
  }

  // A lease and the record it is for: while the lease runs nobody can take the record away, except by marking it
  // written.
  predicate LeaseKept(outbox: Outbox, id: EventId, lease: Lease, now: int) {
    && id in outbox
    && (outbox[id].token == Some(lease.token) ==> outbox[id].until == Some(lease.until))
    && (now < lease.until ==> outbox[id].token == Some(lease.token) || outbox[id].status.Written?)
  }

  ghost predicate WorkerKnowledge(world: World, s: State, pc: Pc) {
    && (!pc.Idle? ==> pc.id in world.events)
    && (pc.Notify? || pc.ClaimWrite? || pc.CheckUnleased? || pc.MarkUnleased? || pc.HoldsLease() ==>
         pc.id in s.db.outbox)
    && (pc.MarkKnown? || pc.MarkUnleased? || pc.MarkLeased? ==> pc.id in s.db.ledger)
    && (pc.HoldsLease() ==> pc.lease.token < s.nextToken && LeaseKept(s.db.outbox, pc.id, pc.lease, s.now))
  }

  ghost predicate WorkersOk(world: World, s: State) {
    forall w :: 0 <= w < |s.workers| ==> WorkerKnowledge(world, s, s.workers[w])
  }

  predicate SameToken(a: Pc, b: Pc) {
    a.HoldsLease() && b.HoldsLease() && a.lease.token == b.lease.token
  }

  ghost predicate TokensDistinct(s: State) {
    forall v, w :: 0 <= v < w < |s.workers| ==> !SameToken(s.workers[v], s.workers[w])
  }

  // Both workers hold a lease on one event that has not run out.
  predicate BothLive(a: Pc, b: Pc, now: int) {
    && a.HoldsLease() && b.HoldsLease() && a.id == b.id
    && now < a.lease.until && now < b.lease.until
  }

  ghost predicate LeaseExclusion(s: State) {
    forall v, w :: 0 <= v < w < |s.workers| ==> !BothLive(s.workers[v], s.workers[w], s.now)
  }

  // Each wallet has been charged exactly the outbox records of that wallet.
  ghost predicate Conserved(world: World, s: State) {
    forall plan: PlanId, ct: CreditType ::
      UsedBy(s.db.plans, plan, ct) == UsedBy(world.base, plan, ct) + Charged(world.events, s.db.outbox.Keys, plan, ct)
  }

  ghost predicate Inv(world: World, s: State) {
    && world.Valid()
    && LeaseShape(s)
    && Agreement(world, s)
    && OutboxRecordsEvents(world, s)
    && WorkersOk(world, s)
    && TokensDistinct(s)
    && LeaseExclusion(s)
    && AllInBounds(s.db.plans)
    && Conserved(world, s)
  }

  lemma InitInv(world: World, s: State)
    requires Init(world, s)
    ensures Inv(world, s)
  {
  }

  lemma EffectConserves(world: World, s: State, pc: Pc)
    requires Inv(world, s)
    requires !pc.Idle? ==> pc.id in world.events
    ensures Conserved(world, s.(db := Effect(world, s, pc)))
    ensures AllInBounds(Effect(world, s, pc).plans)
  {
    if pc.ApplyDebit? && CommitResult(s.db, pc.id, world.events[pc.id]).Applied? {
      var c := world.events[pc.id];
      var p := s.db.plans[c.planId];
      DebitChargesOneWallet(p, c);
      var db' := Effect(world, s, pc);
      assert db'.outbox.Keys == s.db.outbox.Keys + {pc.id};
      forall plan: PlanId, ct: CreditType
        ensures UsedBy(db'.plans, plan, ct) ==
                  UsedBy(world.base, plan, ct) + Charged(world.events, db'.outbox.Keys, plan, ct)
      {
        ChargedInsert(world.events, s.db.outbox.Keys, pc.id, plan, ct);
      }
    } else {
      assert Effect(world, s, pc).plans == s.db.plans;
      assert Effect(world, s, pc).outbox.Keys == s.db.outbox.Keys;
    }
  }

  // The state in which one call has taken effect and no program counter has moved yet.
  function Took(world: World, s: State, pc: Pc): State {
    s.(db := Effect(world, s, pc), nextToken := TokenAfter(s, pc))
  }

  lemma EffectKeepsLeaseShape(world: World, s: State, pc: Pc)
    requires Inv(world, s)
    ensures LeaseShape(Took(world, s, pc))
  {
  }

  lemma EffectKeepsRecords(world: World, s: State, pc: Pc)
    requires OutboxRecordsEvents(world, s)
    ensures OutboxRecordsEvents(world, Took(world, s, pc))
  {
  }

  lemma EffectKeepsAgreement(world: World, s: State, pc: Pc)
    requires Inv(world, s) && WorkerKnowledge(world, s, pc)
    ensures Agreement(world, Took(world, s, pc))
  {
  }

  // A call of one worker never invalidates what another worker relies on: the crux is that it cannot
  // take over a record whose lease is still running.
  lemma EffectKeepsOthers(world: World, s: State, pc: Pc, other: Pc)
    requires Inv(world, s) && WorkerKnowledge(world, s, pc) && WorkerKnowledge(world, s, other)
    requires !SameToken(pc, other)
    ensures WorkerKnowledge(world, Took(world, s, pc), other)
  {
    if other.HoldsLease() {
      LeaseHolderUndisturbed(world, s, pc, other);
    }
  }

  lemma ClaimKeepsLease(outbox: Outbox, claimed: EventId, token: Token, id: EventId, lease: Lease, now: int)
    requires WellShaped(outbox) && LeaseKept(outbox, id, lease, now) && token != lease.token
    ensures LeaseKept(Claim(outbox, claimed, token, now, LEASE_MS), id, lease, now)
  {
  }

  lemma MarkKeepsLease(outbox: Outbox, marked: EventId, token: Option<Token>, id: EventId, lease: Lease, now: int)
    requires LeaseKept(outbox, id, lease, now)
    ensures LeaseKept(MarkWritten(outbox, marked, token), id, lease, now)
  {
  }

  lemma ReleaseKeepsLease(outbox: Outbox, released: EventId, token: Token, id: EventId, lease: Lease, now: int)
    requires WellShaped(outbox) && LeaseKept(outbox, id, lease, now) && token != lease.token
    ensures LeaseKept(ReleaseLease(outbox, released, token), id, lease, now)
  {
  }

  lemma DebitKeepsLease(db: Db, debited: EventId, c: Commit, id: EventId, lease: Lease, now: int)
    requires LeaseKept(db.outbox, id, lease, now)
    ensures LeaseKept(ApplyCommit(db, debited, c).outbox, id, lease, now)
  {
  }

  lemma LeaseHolderUndisturbed(world: World, s: State, pc: Pc, other: Pc)
    requires LeaseShape(s) && WorkerKnowledge(world, s, pc) && WorkerKnowledge(world, s, other)
    requires !SameToken(pc, other) && other.HoldsLease()
    ensures LeaseKept(Took(world, s, pc).db.outbox, other.id, other.lease, s.now)
  {
    var outbox := s.db.outbox;
    match pc
    case MarkKnown(id) => MarkKeepsLease(outbox, id, None, other.id, other.lease, s.now);
    case ApplyDebit(id) => DebitKeepsLease(s.db, id, world.events[id], other.id, other.lease, s.now);
    case ClaimWrite(id) => ClaimKeepsLease(outbox, id, s.nextToken, other.id, other.lease, s.now);
    case MarkUnleased(id) => MarkKeepsLease(outbox, id, None, other.id, other.lease, s.now);
    case MarkLeased(id, lease) => MarkKeepsLease(outbox, id, Some(lease.token), other.id, other.lease, s.now);
    case Release(id, lease) => ReleaseKeepsLease(outbox, id, lease.token, other.id, other.lease, s.now);
    case _ =>
  }

  // What a worker knows after its own call.
  lemma LeasedContinueKnows(world: World, s: State, pc: Pc)
    requires WorkerKnowledge(world, s, pc) && (pc.HoldsLease() || pc.ClaimWrite?)
    ensures WorkerKnowledge(world, Took(world, s, pc), Continue(world, s, pc))
  {
  }

  lemma ContinueKnows(world: World, s: State, pc: Pc)
    requires Inv(world, s) && WorkerKnowledge(world, s, pc)
    ensures WorkerKnowledge(world, Took(world, s, pc), Continue(world, s, pc))
  {
    if pc.HoldsLease() || pc.ClaimWrite? {
      LeasedContinueKnows(world, s, pc);
    }
  }

  lemma CaughtKnows(world: World, s: State, pc: Pc)
    requires Inv(world, s) && WorkerKnowledge(world, s, pc)
    ensures WorkerKnowledge(world, Took(world, s, pc), Caught(pc))
    ensures WorkerKnowledge(world, s.(nextToken := TokenAfter(s, pc)), Caught(pc))
  {
  }

  // A claim succeeds only when no other worker's lease on the event is running.
  lemma ClaimMeansNoLiveLease(world: World, s: State, pc: Pc, other: Pc)
    requires Inv(world, s) && WorkerKnowledge(world, s, other)
    requires pc.ClaimWrite? && Continue(world, s, pc).CheckLeased?
    ensures !BothLive(Continue(world, s, pc), other, s.now)
    ensures !BothLive(other, Continue(world, s, pc), s.now)
  {
  }

  // Replacing the program counter of one worker by `pc` keeps the pairwise properties if `pc` has none to lose.
  lemma PairwiseUpdate(s: State, t: State, w: nat, pc: Pc)
    requires w < |s.workers| && t.workers == s.workers[w := pc] && t.now == s.now
    requires TokensDistinct(s) && LeaseExclusion(s)
    requires forall v :: 0 <= v < |s.workers| && v != w ==>
               && !SameToken(pc, s.workers[v])
               && !BothLive(pc, s.workers[v], s.now) && !BothLive(s.workers[v], pc, s.now)
    ensures TokensDistinct(t) && LeaseExclusion(t)
  {
  }

  lemma PairwiseContinue(world: World, s: State, w: nat, v: nat)
    requires Inv(world, s) && w < |s.workers| && v < |s.workers| && v != w
    ensures var pc, other := Continue(world, s, s.workers[w]), s.workers[v];
            !SameToken(pc, other) && !BothLive(pc, other, s.now) && !BothLive(other, pc, s.now)
  {
    var pc, other := s.workers[w], s.workers[v];
    assert WorkerKnowledge(world, s, other);
    PairwiseSymmetric(s, w, v);
    if pc.ClaimWrite? && Continue(world, s, pc).CheckLeased? {
      ClaimMeansNoLiveLease(world, s, pc, other);
    }
  }

  lemma CallKnows(world: World, s: State, w: nat)
    requires Inv(world, s) && w < |s.workers| && !s.workers[w].Idle?
    ensures WorkersOk(world, Call(world, s, w))
  {
    var pc, t := s.workers[w], Call(world, s, w);
    assert WorkerKnowledge(world, s, pc);
    forall v | 0 <= v < |t.workers| ensures WorkerKnowledge(world, t, t.workers[v]) {
      if v == w {
        ContinueKnows(world, s, pc);
      } else {
        assert !SameToken(pc, s.workers[v]) by { PairwiseSymmetric(s, w, v); }
        EffectKeepsOthers(world, s, pc, s.workers[v]);
      }
    }
  }

  lemma CallInv(world: World, s: State, w: nat)
    requires Inv(world, s) && w < |s.workers| && !s.workers[w].Idle?
    ensures Inv(world, Call(world, s, w))
  {
    var pc, t := s.workers[w], Call(world, s, w);
    assert WorkerKnowledge(world, s, pc);
    EffectConserves(world, s, pc);
    EffectKeepsLeaseShape(world, s, pc);
    EffectKeepsRecords(world, s, pc);
    EffectKeepsAgreement(world, s, pc);
    CallKnows(world, s, w);
    forall v | 0 <= v < |s.workers| && v != w
      ensures var np, other := Continue(world, s, pc), s.workers[v];
              !SameToken(np, other) && !BothLive(np, other, s.now) && !BothLive(other, np, s.now)
    {
      PairwiseContinue(world, s, w, v);
    }
    PairwiseUpdate(s, t, w, Continue(world, s, pc));
  }

  lemma PairwiseSymmetric(s: State, w: nat, v: nat)
    requires TokensDistinct(s) && LeaseExclusion(s) && w < |s.workers| && v < |s.workers| && v != w
    ensures !SameToken(s.workers[w], s.workers[v]) && !BothLive(s.workers[w], s.workers[v], s.now)
  {
    assert if v < w then !SameToken(s.workers[v], s.workers[w]) else !SameToken(s.workers[w], s.workers[v]);
  }

  lemma ThrowInv(world: World, s: State, w: nat, takesEffect: bool)
    requires Inv(world, s) && w < |s.workers| && !s.workers[w].Idle?
    ensures Inv(world, Throw(world, s, w, takesEffect))
  {
    var pc, t := s.workers[w], Throw(world, s, w, takesEffect);
    assert WorkerKnowledge(world, s, pc);
    if takesEffect {
      EffectConserves(world, s, pc);
      EffectKeepsLeaseShape(world, s, pc);
      EffectKeepsRecords(world, s, pc);
      EffectKeepsAgreement(world, s, pc);
    }
    CaughtKnows(world, s, pc);
    forall v | 0 <= v < |t.workers| ensures WorkerKnowledge(world, t, t.workers[v]) {
      if v != w {
        PairwiseSymmetric(s, w, v);
        EffectKeepsOthers(world, s, pc, s.workers[v]);
      }
    }
    forall v | 0 <= v < |s.workers| && v != w
      ensures var np, other := Caught(pc), s.workers[v];
              !SameToken(np, other) && !BothLive(np, other, s.now) && !BothLive(other, np, s.now)
    {
      PairwiseSymmetric(s, w, v);
    }
    PairwiseUpdate(s, t, w, Caught(pc));
  }

  // A worker that holds no lease is dropped or handed a new event.
  lemma ReassignInv(world: World, s: State, w: nat, pc: Pc)
    requires Inv(world, s) && w < |s.workers|
    requires pc.Idle? || (pc.CheckLedger? && pc.id in world.events)
    ensures Inv(world, s.(workers := s.workers[w := pc]))
  {
    PairwiseUpdate(s, s.(workers := s.workers[w := pc]), w, pc);
  }

  lemma TickInv(world: World, s: State, ms: nat)
    requires Inv(world, s)
    ensures Inv(world, s.(now := s.now + ms))
  {
    var t := s.(now := s.now + ms);
    forall v, w | 0 <= v < w < |t.workers| ensures !BothLive(t.workers[v], t.workers[w], t.now) {
      assert !BothLive(s.workers[v], s.workers[w], s.now);
    }
    forall w | 0 <= w < |t.workers| ensures WorkerKnowledge(world, t, t.workers[w]) {
      assert WorkerKnowledge(world, s, s.workers[w]);
    }
  }

  // Any change of the plans that moves no used counter.
  lemma PlansInv(world: World, s: State, plans: Plans)
    requires Inv(world, s) && AllInBounds(plans)
    requires forall id: PlanId, ct: CreditType :: UsedBy(plans, id, ct) == UsedBy(s.db.plans, id, ct)
    ensures Inv(world, s.(db := s.db.(plans := plans)))
  {
    var t := s.(db := s.db.(plans := plans));
    forall w | 0 <= w < |t.workers| ensures WorkerKnowledge(world, t, t.workers[w]) {
      assert WorkerKnowledge(world, s, s.workers[w]);
    }
  }

  lemma UpdateInv(world: World, s: State, plan: PlanId, appId: AppId, u: Update)
    requires Inv(world, s) && ValidUpdate(u)
    ensures Inv(world, s.(db := s.db.(plans := UpdatePlan(s.db.plans, plan, appId, u))))
  {
    if plan in s.db.plans {
      UpdateKeepsUsage(s.db.plans[plan], u);
    }
    PlansInv(world, s, UpdatePlan(s.db.plans, plan, appId, u));
  }

  lemma CreatePlanInv(world: World, s: State, plan: PlanId, p: Plan)
    requires Inv(world, s) && plan !in s.db.plans && ValidNewPlan(p)
    ensures Inv(world, s.(db := s.db.(plans := s.db.plans[plan := p])))
  {
    PlansInv(world, s, s.db.plans[plan := p]);
  }

  lemma OtherEventInv(world: World, s: State, id: EventId)
    requires Inv(world, s) && id !in world.events
    ensures Inv(world, s.(db := s.db.(ledger := s.db.ledger + [id])))
  {
    var t := s.(db := s.db.(ledger := s.db.ledger + [id]));
    forall w | 0 <= w < |t.workers| ensures WorkerKnowledge(world, t, t.workers[w]) {
      assert WorkerKnowledge(world, s, s.workers[w]);
    }
  }

  lemma NextInv(world: World, s: State, step: Step)
    requires Inv(world, s) && Enabled(world, s, step)
    ensures Inv(world, Next(world, s, step))
  {
    match step
    case DeliverStep(w, id) => ReassignInv(world, s, w, CheckLedger(id));
    case CallStep(w) => CallInv(world, s, w);
    case ThrowStep(w, takesEffect) => ThrowInv(world, s, w, takesEffect);
    case CrashStep(w) => ReassignInv(world, s, w, Idle);
    case TickStep(ms) => TickInv(world, s, ms);
    case UpdateStep(plan, appId, u) => UpdateInv(world, s, plan, appId, u);
    case CreatePlanStep(plan, p) => CreatePlanInv(world, s, plan, p);
    case OtherEventStep(id) => OtherEventInv(world, s, id);
  }

  lemma {:induction false} RunsInv(world: World, s: State, steps: seq<Step>, t: State)
    requires Inv(world, s) && Runs(world, s, steps, t)
    ensures Inv(world, t)
    decreases |steps|
  {
    if steps == [] {
    } else {
      NextInv(world, s, steps[0]);
      RunsInv(world, Next(world, s, steps[0]), steps[1..], t);
    }
  }

  // --- Main results: every reachable state of every interleaving ---

  lemma ReachableInv(world: World, s: State)
    requires Reachable(world, s)
    ensures Inv(world, s)
  {
    var init: State, steps :| Init(world, init) && Runs(world, init, steps, s);
    InitInv(world, init);
    RunsInv(world, init, steps, s);
  }

  // Conservation: each used counter is the initial one plus the amounts of that wallet's outbox records,
  // and stays within the wallet.
  lemma Conservation(world: World, s: State, plan: PlanId, ct: CreditType)
    requires Reachable(world, s) && plan in s.db.plans
    ensures s.db.plans[plan].Used(ct) ==
            UsedBy(world.base, plan, ct) + Charged(world.events, s.db.outbox.Keys, plan, ct)
    ensures s.db.plans[plan].Total(ct).Some? ==> 0 <= s.db.plans[plan].Used(ct) <= s.db.plans[plan].Total(ct).value
  {
    ReachableInv(world, s);
    assert UsedBy(s.db.plans, plan, ct) == s.db.plans[plan].Used(ct);
  }

  // Lease exclusion: one current token holder, and never two unexpired leases on one event.
  lemma AtMostOneLeaseHolder(world: World, s: State, v: nat, w: nat)
    requires Reachable(world, s) && v < |s.workers| && w < |s.workers| && v != w
    requires s.workers[v].HoldsLease() && s.workers[w].HoldsLease() && s.workers[v].id == s.workers[w].id
    ensures var r := s.db.outbox; var id := s.workers[v].id;
            id in r && !(r[id].token == Some(s.workers[v].lease.token) && r[id].token == Some(s.workers[w].lease.token))
    ensures !(s.now < s.workers[v].lease.until && s.now < s.workers[w].lease.until)
  {
    ReachableInv(world, s);
    assert WorkerKnowledge(world, s, s.workers[v]);
    PairwiseSymmetric(s, v, w);
  }

  // Outbox and ledger agree in every reachable state, even when leases run out in the middle of a write.
  // In particular the claim branch for WRITING records without a deadline is never taken.
  lemma OutboxLedgerAgreement(world: World, s: State, id: EventId)
    requires Reachable(world, s) && id in world.events
    ensures id in s.db.ledger ==> id in s.db.outbox && s.db.outbox[id].commit == world.events[id]
    ensures id in s.db.outbox && s.db.outbox[id].status.Written? ==> id in s.db.ledger
    ensures id in s.db.outbox ==> (s.db.outbox[id].token.Some? <==> s.db.outbox[id].status.Writing?)
    ensures id in s.db.outbox ==> !(s.db.outbox[id].status.Writing? && s.db.outbox[id].until.None?)
  {
    ReachableInv(world, s);
  }

  // No call takes a record or a ledger entry away; a release needs the token, which a WRITTEN record has lost.
  lemma EffectKeepsWritten(world: World, s: State, pc: Pc, id: EventId)
    requires LeaseShape(s)
    ensures var db := Effect(world, s, pc);
            && s.db.ledger <= db.ledger
            && (id in s.db.outbox ==> id in db.outbox && db.outbox[id].commit == s.db.outbox[id].commit)
            && (id in s.db.outbox && s.db.outbox[id].status.Written? ==> db.outbox[id].status.Written?)
  {
  }

  // WRITTEN is never left, outbox records and ledger entries are never removed.
  lemma WrittenIsFinal(world: World, s: State, step: Step, id: EventId)
    requires Inv(world, s) && Enabled(world, s, step)
    ensures var t := Next(world, s, step);
            && s.db.ledger <= t.db.ledger
            && (id in s.db.outbox ==> id in t.db.outbox && t.db.outbox[id].commit == s.db.outbox[id].commit)
            && (id in s.db.outbox && s.db.outbox[id].status.Written? ==> t.db.outbox[id].status.Written?)
  {
    if step.CallStep? || step.ThrowStep? {
      EffectKeepsWritten(world, s, s.workers[step.w], id);
    }
  }

  // --- The ledger holds each committed event at most once, if no append outlasts its lease ---

  // This step is a ledger append that takes effect, whether or not its caller learns of it.
  predicate Appends(s: State, step: Step) {
    && (step.CallStep? || (step.ThrowStep? && step.takesEffect))
    && step.w < |s.workers| && s.workers[step.w].Append?
  }

  // A lease ends LEASE_MS after its claim, so such an append takes effect at most d after the claim.
  predicate Within(s: State, step: Step, d: nat) {
    Appends(s, step) ==> s.now + LEASE_MS <= s.workers[step.w].lease.until + d
  }

  // The longest delay below the lease.
  const TIMELY: nat := LEASE_MS - 1

  ghost predicate RunsWithin(world: World, s: State, steps: seq<Step>, t: State, d: nat)
    decreases |steps|
  {
    if steps == [] then s == t
    else
      && Enabled(world, s, steps[0]) && Within(s, steps[0], d)
      && RunsWithin(world, Next(world, s, steps[0]), steps[1..], t, d)
  }

  ghost predicate LedgerUnique(world: World, s: State) {
    && HoldsEventsOnce(world, s)
    && (forall w :: 0 <= w < |s.workers| ==> AppendIsNew(s, s.workers[w]))
  }

  predicate AppendIsNew(s: State, pc: Pc) {
    pc.Append? && s.now < pc.lease.until ==> pc.id !in s.db.ledger
  }

  lemma TimelyCallUnique(world: World, s: State, w: nat)
    requires Inv(world, s) && LedgerUnique(world, s) && w < |s.workers| && !s.workers[w].Idle?
    requires Within(s, CallStep(w), TIMELY)
    ensures LedgerUnique(world, Call(world, s, w))
  {
    var pc, t := s.workers[w], Call(world, s, w);
    assert AppendIsNew(s, pc);
    forall v | 0 <= v < |t.workers| ensures AppendIsNew(t, t.workers[v]) {
      if v != w {
        assert AppendIsNew(s, s.workers[v]);
        PairwiseSymmetric(s, w, v);
      }
    }
  }

  lemma TimelyThrowUnique(world: World, s: State, w: nat, takesEffect: bool)
    requires Inv(world, s) && LedgerUnique(world, s) && w < |s.workers| && !s.workers[w].Idle?
    requires Within(s, ThrowStep(w, takesEffect), TIMELY)
    ensures LedgerUnique(world, Throw(world, s, w, takesEffect))
  {
    var pc, t := s.workers[w], Throw(world, s, w, takesEffect);
    assert AppendIsNew(s, pc);
    forall v | 0 <= v < |t.workers| ensures AppendIsNew(t, t.workers[v]) {
      if v != w {
        assert AppendIsNew(s, s.workers[v]);
        PairwiseSymmetric(s, w, v);
      }
    }
  }

  lemma TimelyNextUnique(world: World, s: State, step: Step)
    requires Inv(world, s) && LedgerUnique(world, s) && Enabled(world, s, step) && Within(s, step, TIMELY)
    ensures LedgerUnique(world, Next(world, s, step))
  {
    var t := Next(world, s, step);
    match step
    case CallStep(w) => TimelyCallUnique(world, s, w);
    case ThrowStep(w, takesEffect) => TimelyThrowUnique(world, s, w, takesEffect);
    case _ =>
      forall w | 0 <= w < |t.workers| ensures AppendIsNew(t, t.workers[w]) {
        assert AppendIsNew(s, s.workers[w]);
        assert WorkerKnowledge(world, s, s.workers[w]);
      }
  }

  lemma {:induction false} TimelyRunsUnique(world: World, s: State, steps: seq<Step>, t: State, d: nat)
    requires Inv(world, s) && LedgerUnique(world, s) && d < LEASE_MS && RunsWithin(world, s, steps, t, d)
    ensures LedgerUnique(world, t)
    decreases |steps|
  {
    if steps == [] {
    } else {
      NextInv(world, s, steps[0]);
      TimelyNextUnique(world, s, steps[0]);
      TimelyRunsUnique(world, Next(world, s, steps[0]), steps[1..], t, d);
    }
  }

  ghost predicate HoldsEventsOnce(world: World, s: State) {
    forall i, j :: 0 <= i < j < |s.db.ledger| && s.db.ledger[i] == s.db.ledger[j] ==> s.db.ledger[i] !in world.events
  }

  // Without any unique index, a run whose appends take effect in less than a lease after their claims writes each
  // committed event to the ledger at most once.
  lemma LedgerHoldsEventOnce(world: World, init: State, steps: seq<Step>, s: State, d: nat)
    requires Init(world, init) && d < LEASE_MS && RunsWithin(world, init, steps, s, d)
    ensures HoldsEventsOnce(world, s)
  {
    InitInv(world, init);
    TimelyRunsUnique(world, init, steps, s, d);
  }
}
