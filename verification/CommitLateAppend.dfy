/**
 How long a ledger write may take. The ledger holds each committed event once in every run if and only if appends
 take effect within less than the lease after the claim; at the lease itself, one append is enough to write an event
 twice.
 */
module CommitLateAppend {
  import opened Prelude
  import opened CreditWallet
  import opened CreditPlans
  import opened CommitStore
  import opened CommitProtocol

  ghost predicate AlwaysHoldsEventsOnce(world: World, d: nat) {
    forall init: State, steps: seq<Step>, s: State ::
      Init(world, init) && RunsWithin(world, init, steps, s, d) ==> HoldsEventsOnce(world, s)
  }

  lemma {:induction false} WithinMore(world: World, s: State, steps: seq<Step>, t: State, d: nat, e: nat)
    requires d <= e && RunsWithin(world, s, steps, t, d)
    ensures RunsWithin(world, s, steps, t, e)
    decreases |steps|
  {
    if steps == [] {
    } else {
      WithinMore(world, Next(world, s, steps[0]), steps[1..], t, d, e);
    }
  }

  lemma {:induction false} WithinThenStep(world: World, s: State, steps: seq<Step>, t: State, last: Step, d: nat)
    requires RunsWithin(world, s, steps, t, d) && Enabled(world, t, last) && Within(t, last, d)
    ensures RunsWithin(world, s, steps + [last], Next(world, t, last), d)
    decreases |steps|
  {
    if steps == [] {
      assert steps + [last] == [last];
      assert RunsWithin(world, Next(world, t, last), [last][1..], Next(world, t, last), d);
    } else {
      WithinThenStep(world, Next(world, s, steps[0]), steps[1..], t, last, d);
      assert (steps + [last])[1..] == steps[1..] + [last];
    }
  }

  // Reached with all appends in less than a lease after their claims.
  ghost predicate TimelyReachable(world: World, s: State) {
    exists init: State, steps: seq<Step> :: Init(world, init) && RunsWithin(world, init, steps, s, TIMELY)
  }

  lemma Reach(world: World, s: State, step: Step)
    requires TimelyReachable(world, s) && Enabled(world, s, step) && Within(s, step, TIMELY)
    ensures TimelyReachable(world, Next(world, s, step))
  {
    var init: State, steps :| Init(world, init) && RunsWithin(world, init, steps, s, TIMELY);
    WithinThenStep(world, init, steps, s, step, TIMELY);
  }

  // One more call of worker w.
  lemma OneCall(world: World, s: State, w: nat)
    requires TimelyReachable(world, s) && w < |s.workers| && !s.workers[w].Idle? && Within(s, CallStep(w), TIMELY)
    ensures TimelyReachable(world, Call(world, s, w))
  {
    Reach(world, s, CallStep(w));
  }

  // An event that fits its plan, before anything has happened.
  ghost predicate Fresh(world: World, id: EventId) {
    world.Valid() && id in world.events && CommitResult(Db(world.base, map[], []), id, world.events[id]).Applied?
  }

  // Debited once, with the ledger still empty.
  function Stage(world: World, id: EventId, status: LedgerStatus, now: int, tokens: nat, workers: seq<Pc>): State
    requires id in world.events
  {
    var plans := ApplyCommit(Db(world.base, map[], []), id, world.events[id]).plans;
    var (token, until) :=
      if status.Writing? && tokens > 0 then (Some(tokens - 1), Some(now + LEASE_MS)) else (None, None);
    var outbox := map[id := OutboxRecord(world.events[id], status, token, until, tokens)];
    State(Db(plans, outbox, []), now, tokens, workers, {})
  }

  lemma FirstWorkerDebits(world: World, id: EventId)
    requires Fresh(world, id)
    ensures TimelyReachable(world, Stage(world, id, Pending, 0, 0, [ClaimWrite(id), Idle]))
  {
    var init := State(Db(world.base, map[], []), 0, 0, [Idle, Idle], {});
    assert Init(world, init) && RunsWithin(world, init, [], init, TIMELY);
    var s := Next(world, init, DeliverStep(0, id));
    Reach(world, init, DeliverStep(0, id));
    OneCall(world, s, 0);
    s := Call(world, s, 0);
    assert s.workers == [ApplyDebit(id), Idle];
    OneCall(world, s, 0);
    s := Call(world, s, 0);
    assert s == Stage(world, id, Pending, 0, 0, [Notify(id), Idle]);
    OneCall(world, s, 0);
    s := Call(world, s, 0);
    assert s == Stage(world, id, Pending, 0, 0, [ClaimWrite(id), Idle]);
  }

  // The first worker wins the lease, finds no ledger entry, and stalls just before it appends.
  lemma FirstWorkerStalls(world: World, id: EventId)
    requires Fresh(world, id)
    ensures TimelyReachable(world, Stage(world, id, Writing, 0, 1, [Append(id, Lease(0, LEASE_MS)), Idle]))
  {
    var s := Stage(world, id, Pending, 0, 0, [ClaimWrite(id), Idle]);
    FirstWorkerDebits(world, id);
    OneCall(world, s, 0);
    s := Call(world, s, 0);
    assert s == Stage(world, id, Writing, 0, 1, [CheckLeased(id, Lease(0, LEASE_MS)), Idle]);
    OneCall(world, s, 0);
    s := Call(world, s, 0);
    assert s == Stage(world, id, Writing, 0, 1, [Append(id, Lease(0, LEASE_MS)), Idle]);
  }

  // The first worker is held up until its lease ends; the second stands where the event's redelivery has taken it.
  function HeldUp(world: World, id: EventId, second: Pc): State
    requires id in world.events
  {
    Stage(world, id, Writing, 0, 1, [Append(id, Lease(0, LEASE_MS)), second]).(now := LEASE_MS)
  }

  lemma SecondWorkerStarts(world: World, id: EventId)
    requires Fresh(world, id)
    ensures TimelyReachable(world, HeldUp(world, id, CheckLedger(id)))
  {
    var s := Stage(world, id, Writing, 0, 1, [Append(id, Lease(0, LEASE_MS)), Idle]);
    FirstWorkerStalls(world, id);
    Reach(world, s, TickStep(LEASE_MS));
    assert Next(world, s, TickStep(LEASE_MS)) == HeldUp(world, id, Idle);
    Reach(world, HeldUp(world, id, Idle), DeliverStep(1, id));
    assert Next(world, HeldUp(world, id, Idle), DeliverStep(1, id)) == HeldUp(world, id, CheckLedger(id));
  }

  lemma SecondWorkerClaims(world: World, id: EventId)
    requires Fresh(world, id)
    ensures TimelyReachable(world, HeldUp(world, id, ClaimWrite(id)))
  {
    SecondWorkerStarts(world, id);
    OneCall(world, HeldUp(world, id, CheckLedger(id)), 1);
    assert Call(world, HeldUp(world, id, CheckLedger(id)), 1) == HeldUp(world, id, ApplyDebit(id));
    OneCall(world, HeldUp(world, id, ApplyDebit(id)), 1);
    assert Call(world, HeldUp(world, id, ApplyDebit(id)), 1) == HeldUp(world, id, CheckProcessed(id));
    OneCall(world, HeldUp(world, id, CheckProcessed(id)), 1);
    assert Call(world, HeldUp(world, id, CheckProcessed(id)), 1) == HeldUp(world, id, ClaimWrite(id));
  }

  // It takes the record over and comes to the same point.
  lemma SecondWorkerTakesOver(world: World, id: EventId)
    requires Fresh(world, id)
    ensures var workers := [Append(id, Lease(0, LEASE_MS)), Append(id, Lease(1, 2 * LEASE_MS))];
            TimelyReachable(world, Stage(world, id, Writing, LEASE_MS, 2, workers))
  {
    var first, lease := Append(id, Lease(0, LEASE_MS)), Lease(1, 2 * LEASE_MS);
    var s := HeldUp(world, id, ClaimWrite(id));
    SecondWorkerClaims(world, id);
    OneCall(world, s, 1);
    s := Call(world, s, 1);
    assert s == Stage(world, id, Writing, LEASE_MS, 2, [first, CheckLeased(id, lease)]);
    OneCall(world, s, 1);
    s := Call(world, s, 1);
    assert s == Stage(world, id, Writing, LEASE_MS, 2, [first, Append(id, lease)]);
  }

  // Whatever event fits its plan: after a run of timely appends only, one append that takes effect just when its
  // lease ends writes the event to the ledger a second time. The debit has still been applied once.
  lemma LateAppendDuplicates(world: World, id: EventId)
    requires Fresh(world, id)
    ensures exists u: State ::
              && TimelyReachable(world, u)
              && |u.workers| == 2 && u.workers[0].Append? && u.now == u.workers[0].lease.until
              && Call(world, u, 0).db.ledger == [id, id]
              && Call(world, u, 0).db.plans == ApplyCommit(Db(world.base, map[], []), id, world.events[id]).plans
  {
    var workers := [Append(id, Lease(0, LEASE_MS)), Append(id, Lease(1, 2 * LEASE_MS))];
    var s := Stage(world, id, Writing, LEASE_MS, 2, workers);
    SecondWorkerTakesOver(world, id);
    OneCall(world, s, 1);
    var u := Call(world, s, 1);
    assert u.db.ledger == [id] && u.workers[0] == workers[0];
    assert Call(world, u, 0).db.ledger == [id, id];
  }

  // The exact condition: with an event that fits, the ledger holds each committed event once in every run whose
  // appends take effect within d of their claim if and only if d is less than the lease.
  lemma HoldsOnceIffDelayBelowLease(world: World, id: EventId, d: nat)
    requires Fresh(world, id)
    ensures AlwaysHoldsEventsOnce(world, d) <==> d < LEASE_MS
  {
    if d < LEASE_MS {
      forall init: State, steps: seq<Step>, s: State | Init(world, init) && RunsWithin(world, init, steps, s, d)
        ensures HoldsEventsOnce(world, s)
      {
        LedgerHoldsEventOnce(world, init, steps, s, d);
      }
    } else {
      LongDelayDuplicates(world, id, d);
    }
  }

  lemma LongDelayDuplicates(world: World, id: EventId, d: nat)
    requires Fresh(world, id) && LEASE_MS <= d
    ensures !AlwaysHoldsEventsOnce(world, d)
  {
    LateAppendDuplicates(world, id);
    var u: State :| TimelyReachable(world, u)
      && |u.workers| == 2 && u.workers[0].Append? && u.now == u.workers[0].lease.until
      && Call(world, u, 0).db.ledger == [id, id];
    var init: State, steps :| Init(world, init) && RunsWithin(world, init, steps, u, TIMELY);
    WithinMore(world, init, steps, u, TIMELY, d);
    WithinThenStep(world, init, steps, u, CallStep(0), d);
    var s := Call(world, u, 0);
    assert RunsWithin(world, init, steps + [CallStep(0)], s, d);
    assert s.db.ledger[0] == s.db.ledger[1] == id;
    assert !HoldsEventsOnce(world, s);
  }
}
