/**
 Confluence: at-least-once delivery in any order, with duplicates, crashes and lost or late calls, ends where
 applying each event exactly once ends.
 */
module CommitConfluence {
  import opened Prelude
  import opened CreditWallet
  import opened CreditPlans
  import opened CommitStore
  import opened CommitProtocol

  // The delivery histories of the statement: no plan is created or updated by anything but a commit.
  predicate CommitsOnly(step: Step) {
    !step.UpdateStep? && !step.CreatePlanStep?
  }

  ghost predicate CommitHistory(world: World, s: State, steps: seq<Step>, t: State)
    decreases |steps|
  {
    if steps == [] then s == t
    else
      && CommitsOnly(steps[0]) && Enabled(world, s, steps[0])
      && CommitHistory(world, Next(world, s, steps[0]), steps[1..], t)
  }

  // The events fit: each names a wallet that exists, and the sums stay within what remains.
  ghost predicate AllFit(world: World) {
    && (forall id :: id in world.events ==>
          var c := world.events[id];
          && c.planId in world.base
          && world.base[c.planId].serviceId == c.appId
          && world.base[c.planId].serviceType == c.serviceType
          && world.base[c.planId].Total(c.creditType).Some?)
    && (forall plan: PlanId, ct: CreditType :: plan in world.base && world.base[plan].Total(ct).Some? ==>
          world.base[plan].Used(ct) + Charged(world.events, world.events.Keys, plan, ct)
          <= world.base[plan].Total(ct).value)
  }

  // `order` lists each of the ids exactly once.
  ghost predicate Enumerates(order: seq<EventId>, ids: set<EventId>) {
    && (set id | id in order) == ids
    && (forall i, j :: 0 <= i < j < |order| ==> order[i] != order[j])
  }

  // Each event once, in the given order, with no failure in between.
  function ApplyOnce(world: World, order: seq<EventId>): Plans
    requires forall id :: id in order ==> id in world.events
    decreases |order|
  {
    if order == [] then world.base
    else
      var before := ApplyOnce(world, order[..|order| - 1]);
      var c := world.events[order[|order| - 1]];
      if c.planId in before && Fits(before[c.planId], c) then before[c.planId := Debit(before[c.planId], c)] else before
  }

  // What a plan looks like once a set of events has been charged, independent of order.
  ghost function Settled(world: World, ids: set<EventId>, plan: PlanId): Plan
    requires plan in world.base
  {
    var p := world.base[plan];
    var api := Charged(world.events, ids, plan, ApiCredit);
    var chain := Charged(world.events, ids, plan, BlockchainTxnCredit);
    var q := p.(
      used := p.used + api,
      allowance :=
        if p.allowance.None? then None
        else Some(p.allowance.value.(usedAmount := p.allowance.value.usedAmount + chain)));
    if api + chain > 0 && ExhaustedBy(q, ApiCredit) then q.(status := Inactive) else q
  }

  ghost function SettledPlans(world: World, ids: set<EventId>): Plans {
    map plan | plan in world.base :: Settled(world, ids, plan)
  }

  lemma ChargedNonNegative(world: World, ids: set<EventId>, plan: PlanId, ct: CreditType)
    requires world.Valid()
    ensures 0 <= Charged(world.events, ids, plan, ct)
  {
    ChargedMonotone(world.events, {}, ids, plan, ct);
  }

  // Charging one more event to a settled plan settles the larger set.
  lemma SettleOneMore(world: World, ids: set<EventId>, id: EventId, plan: PlanId)
    requires world.Valid() && id in world.events && id !in ids && plan in world.base
    requires world.events[id].planId == plan ==> Fits(Settled(world, ids, plan), world.events[id])
    ensures Settled(world, ids + {id}, plan) ==
            if world.events[id].planId == plan then Debit(Settled(world, ids, plan), world.events[id])
            else Settled(world, ids, plan)
  {
    ChargedInsert(world.events, ids, id, plan, ApiCredit);
    ChargedInsert(world.events, ids, id, plan, BlockchainTxnCredit);
    ChargedNonNegative(world, ids, plan, ApiCredit);
    ChargedNonNegative(world, ids, plan, BlockchainTxnCredit);
  }

  lemma SettledPlansStep(world: World, ids: set<EventId>, id: EventId)
    requires world.Valid() && id in world.events && id !in ids
    requires var c := world.events[id]; c.planId in world.base && Fits(Settled(world, ids, c.planId), c)
    ensures var c := world.events[id];
            SettledPlans(world, ids + {id}) ==
            SettledPlans(world, ids)[c.planId := Debit(Settled(world, ids, c.planId), c)]
  {
    forall plan | plan in world.base
      ensures Settled(world, ids + {id}, plan) ==
              if world.events[id].planId == plan then Debit(Settled(world, ids, plan), world.events[id])
              else Settled(world, ids, plan)
    {
      SettleOneMore(world, ids, id, plan);
    }
  }

  // When the sums fit, every event not yet charged still fits.
  lemma UnchargedFits(world: World, ids: set<EventId>, id: EventId)
    requires world.Valid() && AllFit(world) && ids <= world.events.Keys && id in world.events && id !in ids
    ensures Fits(Settled(world, ids, world.events[id].planId), world.events[id])
  {
    var c := world.events[id];
    ChargedInsert(world.events, ids, id, c.planId, c.creditType);
    ChargedMonotone(world.events, ids + {id}, world.events.Keys, c.planId, c.creditType);
  }

  lemma SettledNothing(world: World)
    ensures SettledPlans(world, {}) == world.base
  {
  }

  lemma {:induction false} ApplyOnceSettles(world: World, order: seq<EventId>, ids: set<EventId>)
    requires world.Valid() && AllFit(world)
    requires ids <= world.events.Keys && Enumerates(order, ids)
    ensures forall id :: id in order ==> id in world.events
    ensures ApplyOnce(world, order) == SettledPlans(world, ids)
    decreases |order|
  {
    assert forall id :: id in order ==> id in ids;
    if order == [] {
      SettledNothing(world);
      assert ids == {};
    } else {
      var init, last := order[..|order| - 1], order[|order| - 1];
      assert order == init + [last];
      var before := set id | id in init;
      assert ids == before + {last};
      ApplyOnceSettles(world, init, before);
      UnchargedFits(world, before, last);
      SettledPlansStep(world, before, last);
    }
  }

  lemma DebitSettles(world: World, db: Db, id: EventId)
    requires world.Valid() && id in world.events && CommitResult(db, id, world.events[id]).Applied?
    requires db.plans == SettledPlans(world, db.outbox.Keys)
    ensures var db' := ApplyCommit(db, id, world.events[id]); db'.plans == SettledPlans(world, db'.outbox.Keys)
  {
    SettledPlansStep(world, db.outbox.Keys, id);
    assert ApplyCommit(db, id, world.events[id]).outbox.Keys == db.outbox.Keys + {id};
  }

  lemma EffectSettles(world: World, s: State, pc: Pc)
    requires world.Valid() && s.db.plans == SettledPlans(world, s.db.outbox.Keys) &&
              (!pc.Idle? ==> pc.id in world.events)
    ensures var db' := Effect(world, s, pc); db'.plans == SettledPlans(world, db'.outbox.Keys)
  {
    if pc.ApplyDebit? && CommitResult(s.db, pc.id, world.events[pc.id]).Applied? {
      DebitSettles(world, s.db, pc.id);
    } else {
      assert Effect(world, s, pc).plans == s.db.plans && Effect(world, s, pc).outbox.Keys == s.db.outbox.Keys;
    }
  }

  lemma NextSettles(world: World, s: State, step: Step)
    requires Inv(world, s) && Enabled(world, s, step) && CommitsOnly(step)
    requires s.db.plans == SettledPlans(world, s.db.outbox.Keys)
    ensures var t := Next(world, s, step); t.db.plans == SettledPlans(world, t.db.outbox.Keys)
  {
    if step.CallStep? || step.ThrowStep? {
      assert WorkerKnowledge(world, s, s.workers[step.w]);
      EffectSettles(world, s, s.workers[step.w]);
    }
  }

  lemma {:induction false} HistorySettles(world: World, s: State, steps: seq<Step>, t: State)
    requires Inv(world, s) && CommitHistory(world, s, steps, t)
    requires s.db.plans == SettledPlans(world, s.db.outbox.Keys)
    ensures Inv(world, t) && t.db.plans == SettledPlans(world, t.db.outbox.Keys)
    decreases |steps|
  {
    if steps == [] {
    } else {
      NextInv(world, s, steps[0]);
      NextSettles(world, s, steps[0]);
      HistorySettles(world, Next(world, s, steps[0]), steps[1..], t);
    }
  }

  // The committed events among the ledger entries.
  function CommittedIds(world: World, s: State): set<EventId> {
    set id | id in s.db.ledger && id in world.events
  }

  lemma AllDoneAllRecorded(world: World, s: State)
    requires Inv(world, s) && s.done == world.events.Keys
    ensures s.db.outbox.Keys == world.events.Keys
    ensures CommittedIds(world, s) == world.events.Keys
  {
    forall id ensures id in world.events <==> id in s.db.outbox {
      assert id in world.events ==> id in s.done;
    }
    forall id ensures id in world.events <==> id in CommittedIds(world, s) {
      assert id in world.events ==> id in s.done;
    }
  }

  // --- Main results ---

  // Whatever else happens to the plans, and whether or not the sums fit: once each event has completed at least
  // once, every counter is the initial one plus the amounts of all its events, and outbox and ledger hold exactly
  // the committed events.
  lemma CountersConverge(world: World, s: State)
    requires Reachable(world, s) && s.done == world.events.Keys
    ensures forall plan: PlanId, ct: CreditType :: plan in s.db.plans ==>
              s.db.plans[plan].Used(ct) ==
                UsedBy(world.base, plan, ct) + Charged(world.events, world.events.Keys, plan, ct)
    ensures s.db.outbox.Keys == world.events.Keys
    ensures CommittedIds(world, s) == world.events.Keys
  {
    ReachableInv(world, s);
    AllDoneAllRecorded(world, s);
    forall plan: PlanId, ct: CreditType | plan in s.db.plans
      ensures s.db.plans[plan].Used(ct)
           == UsedBy(world.base, plan, ct) + Charged(world.events, world.events.Keys, plan, ct)
    {
      Conservation(world, s, plan, ct);
    }
  }

  // Every history of commits in which each event completes at least once ends with the counters and statuses of
  // applying each event once, in whatever order, and with exactly the committed events in outbox and ledger.
  lemma Confluence(world: World, init: State, steps: seq<Step>, s: State, order: seq<EventId>)
    requires Init(world, init) && AllFit(world) && CommitHistory(world, init, steps, s)
    requires s.done == world.events.Keys
    requires Enumerates(order, world.events.Keys)
    ensures forall id :: id in order ==> id in world.events
    ensures s.db.plans == ApplyOnce(world, order)
    ensures s.db.outbox.Keys == world.events.Keys
    ensures CommittedIds(world, s) == world.events.Keys
  {
    HistoryInv(world, init, steps, s);
    AllDoneAllRecorded(world, s);
    ApplyOnceSettles(world, order, world.events.Keys);
  }

  lemma HistoryInv(world: World, init: State, steps: seq<Step>, s: State)
    requires Init(world, init) && CommitHistory(world, init, steps, s)
    ensures Inv(world, s) && s.db.plans == SettledPlans(world, s.db.outbox.Keys)
  {
    InitInv(world, init);
    SettledNothing(world);
    HistorySettles(world, init, steps, s);
  }

  // In such a history no delivery of any event is ever turned away for lack of balance.
  lemma NeverRejected(world: World, init: State, steps: seq<Step>, s: State, id: EventId)
    requires Init(world, init) && AllFit(world) && CommitHistory(world, init, steps, s)
    requires id in world.events
    ensures !CommitResult(s.db, id, world.events[id]).Rejected?
  {
    HistoryInv(world, init, steps, s);
    if id !in s.db.outbox {
      UnchargedFits(world, s.db.outbox.Keys, id);
    }
  }
}
