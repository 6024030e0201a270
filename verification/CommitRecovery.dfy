/** Recovery: what one fault-free, undisturbed redelivery does in any reachable state. */
module CommitRecovery {
  import opened Prelude
  import opened CreditWallet
  import opened CreditPlans
  import opened CommitStore
  import opened CommitProtocol

  // Worker `w` makes calls, all of which return, until its delivery is over.
  function RunAlone(world: World, s: State, w: nat): (t: State)
    requires w < |s.workers|
    ensures |t.workers| == |s.workers| && t.workers[w].Idle?
    decreases s.workers[w].Rank()
  {
    if s.workers[w].Idle? then s else RunAlone(world, Call(world, s, w), w)
  }

  function Redeliver(world: World, s: State, w: nat, id: EventId): (t: State)
    requires w < |s.workers|
    ensures |t.workers| == |s.workers|
  {
    RunAlone(world, s.(workers := s.workers[w := CheckLedger(id)]), w)
  }

  // The event is already in the ledger; or it is in the outbox and nobody holds an unexpired lease on it;
  // or it is new and still fits its plan.
  predicate Recoverable(world: World, s: State, id: EventId)
    requires id in world.events
  {
    || id in s.db.ledger
    || (id in s.db.outbox && Claimable(s.db.outbox[id], s.now))
    || CommitResult(s.db, id, world.events[id]).Applied?
  }

  lemma {:induction false} RunsThenStep(world: World, s: State, steps: seq<Step>, t: State, last: Step)
    requires Runs(world, s, steps, t) && Enabled(world, t, last)
    ensures Runs(world, s, steps + [last], Next(world, t, last))
    decreases |steps|
  {
    if steps == [] {
      assert steps + [last] == [last];
      assert Runs(world, Next(world, t, last), [last][1..], Next(world, t, last));
    } else {
      RunsThenStep(world, Next(world, s, steps[0]), steps[1..], t, last);
      assert (steps + [last])[1..] == steps[1..] + [last];
    }
  }

  lemma ReachableStep(world: World, s: State, step: Step)
    requires Reachable(world, s) && Enabled(world, s, step)
    ensures Reachable(world, Next(world, s, step))
  {
    var init: State, steps :| Init(world, init) && Runs(world, init, steps, s);
    RunsThenStep(world, init, steps, s, step);
  }

  lemma {:induction false} RunAloneReachable(world: World, s: State, w: nat)
    requires Reachable(world, s) && w < |s.workers|
    ensures Reachable(world, RunAlone(world, s, w))
    decreases s.workers[w].Rank()
  {
    if !s.workers[w].Idle? {
      ReachableStep(world, s, CallStep(w));
      assert Next(world, s, CallStep(w)) == Call(world, s, w);
      RunAloneReachable(world, Call(world, s, w), w);
    }
  }

  // Where an undisturbed run from the ledger write on ends.
  function Persisted(db: Db, id: EventId, now: int, token: Token): Db {
    if id in db.outbox && Claimable(db.outbox[id], now) then
      db.(outbox := MarkWritten(Claim(db.outbox, id, token, now, LEASE_MS), id, Some(token)),
          ledger := if id in db.ledger then db.ledger else db.ledger + [id])
    else if id in db.ledger then db.(outbox := MarkWritten(db.outbox, id, None))
    else db
  }

  predicate Persists(db: Db, id: EventId, now: int) {
    id in db.ledger || (id in db.outbox && Claimable(db.outbox[id], now))
  }

  // From a won claim to the end.
  lemma LeasedRun(world: World, s: State, w: nat, id: EventId)
    requires w < |s.workers| && s.workers[w] == ClaimWrite(id) && id in s.db.outbox && Claimable(s.db.outbox[id], s.now)
    ensures var t := RunAlone(world, s, w);
            t.db == Persisted(s.db, id, s.now, s.nextToken) && t.done == s.done + {id}
  {
    var lease := Lease(s.nextToken, s.now + LEASE_MS);
    var s1 := Call(world, s, w);
    assert s1.workers[w] == CheckLeased(id, lease);
    var s2 := Call(world, s1, w);
    var s3 := if id in s.db.ledger then s2 else Call(world, s2, w);
    assert s3.workers[w] == MarkLeased(id, lease) && s3.done == s.done;
    assert s3.db == s1.db.(ledger := if id in s.db.ledger then s.db.ledger else s.db.ledger + [id]);
    var s4 := Call(world, s3, w);
    assert s4.workers[w] == Idle;
    assert RunAlone(world, s1, w) == RunAlone(world, s2, w) == RunAlone(world, s3, w) == s4;
  }

  lemma PersistRun(world: World, s: State, w: nat, id: EventId)
    requires w < |s.workers| && s.workers[w] == ClaimWrite(id)
    ensures var t := RunAlone(world, s, w);
            && t.db == Persisted(s.db, id, s.now, s.nextToken)
            && t.done == if Persists(s.db, id, s.now) then s.done + {id} else s.done
  {
    if id in s.db.outbox && Claimable(s.db.outbox[id], s.now) {
      LeasedRun(world, s, w, id);
    } else {
      var s1 := Call(world, s, w);
      assert s1.workers[w] == CheckUnleased(id) && s1.db == s.db && s1.done == s.done;
      var s2 := Call(world, s1, w);
      if id in s.db.ledger {
        assert s2.workers[w] == MarkUnleased(id) && s2.db == s.db && s2.done == s.done;
        var s3 := Call(world, s2, w);
        assert s3.workers[w] == Idle;
        assert RunAlone(world, s1, w) == RunAlone(world, s2, w) == s3;
      } else {
        assert s2.workers[w] == Idle;
        assert RunAlone(world, s1, w) == s2;
      }
    }
  }

  // From the debit on: the run reaches the ledger write after an applied debit or a duplicate of the same application.
  predicate ReachesLedgerWrite(db: Db, id: EventId, c: Commit) {
    match CommitResult(db, id, c)
    case Applied(_) => true
    case DuplicateEvent => HasProcessed(db.outbox, id, c.appId)
    case Rejected => false
  }

  lemma CommitRun(world: World, s: State, w: nat, id: EventId)
    requires w < |s.workers| && s.workers[w] == ApplyDebit(id) && id in world.events
    ensures var c := world.events[id];
            var t, db := RunAlone(world, s, w), ApplyCommit(s.db, id, c);
            if ReachesLedgerWrite(s.db, id, c)
            then && t.db == Persisted(db, id, s.now, s.nextToken)
                 && t.done == if Persists(db, id, s.now) then s.done + {id} else s.done
            else t.db == s.db && t.done == s.done
  {
    var db := ApplyCommit(s.db, id, world.events[id]);
    var s1 := Call(world, s, w);
    var s2 := Call(world, s1, w);
    match CommitResult(s.db, id, world.events[id])
    case Rejected =>
      assert s1.workers[w] == Idle;
      assert RunAlone(world, s1, w) == s1;
    case Applied(plan) =>
      assert s1.workers[w] == Notify(id);
      assert s2 == s.(db := db, workers := s.workers[w := ClaimWrite(id)]);
      assert RunAlone(world, s, w) == RunAlone(world, s1, w) == RunAlone(world, s2, w);
      PersistRun(world, s2, w, id);
    case DuplicateEvent =>
      assert s1.workers[w] == CheckProcessed(id) && s1.db == s.db;
      assert RunAlone(world, s, w) == RunAlone(world, s1, w) == RunAlone(world, s2, w);
      if HasProcessed(db.outbox, id, world.events[id].appId) {
        assert s2 == s.(workers := s.workers[w := ClaimWrite(id)]);
        PersistRun(world, s2, w, id);
      } else {
        assert s2.workers[w] == Idle && s2.db == s.db && s2.done == s.done;
      }
  }

  // What a completed redelivery has made of state s.
  ghost predicate Recovered(world: World, s: State, t: State, id: EventId)
    requires id in world.events
  {
    && id in t.db.ledger && id in t.db.outbox && t.db.outbox[id].status.Written?
    && t.db.outbox.Keys == s.db.outbox.Keys + {id}
    && t.db.plans == (if id in s.db.outbox then s.db.plans else ApplyCommit(s.db, id, world.events[id]).plans)
    && t.db.ledger == (if id in s.db.ledger then s.db.ledger else s.db.ledger + [id])
  }

  // The worker at its first call.
  function Delivered(s: State, w: nat, id: EventId): State
    requires w < |s.workers|
  {
    s.(workers := s.workers[w := CheckLedger(id)])
  }

  lemma KnownRedelivery(world: World, s: State, w: nat, id: EventId)
    requires Inv(world, s) && w < |s.workers| && id in world.events && id in s.db.ledger
    ensures var t := Redeliver(world, s, w, id); Recovered(world, s, t, id) && id in t.done
  {
    var s1 := Call(world, Delivered(s, w, id), w);
    assert s1.workers[w] == MarkKnown(id) && s1.db == s.db;
    var s2 := Call(world, s1, w);
    assert s2.workers[w] == Idle && s2.db == s.db.(outbox := MarkWritten(s.db.outbox, id, None));
    assert RunAlone(world, s1, w) == s2;
  }

  lemma UnknownRedelivery(world: World, s: State, w: nat, id: EventId)
    requires Inv(world, s) && w < |s.workers| && id in world.events && id !in s.db.ledger
    ensures var t := Redeliver(world, s, w, id);
            && (id in t.done <==> Recoverable(world, s, id))
            && (Recoverable(world, s, id) ==> Recovered(world, s, t, id))
            && (!Recoverable(world, s, id) ==> t.db == s.db)
  {
    var s1 := Call(world, Delivered(s, w, id), w);
    assert s1.workers[w] == ApplyDebit(id) && s1.db == s.db && s1.done == s.done;
    CommitRun(world, s1, w, id);
  }

  // Recovery, wherever earlier attempts crashed. A fault-free redelivery completes exactly when the state is
  // recoverable; then the event is in the ledger, its record WRITTEN, and the debit has been applied unless
  // an earlier attempt had applied it. Otherwise the redelivery changes nothing.
  lemma Recovery(world: World, s: State, w: nat, id: EventId)
    requires Reachable(world, s) && w < |s.workers| && s.workers[w].Idle? && id in world.events
    ensures var t := Redeliver(world, s, w, id);
            && Reachable(world, t) && t.workers[w].Idle?
            && (id in t.done <==> Recoverable(world, s, id))
            && (Recoverable(world, s, id) ==> Recovered(world, s, t, id))
            && (!Recoverable(world, s, id) ==> t.db == s.db)
  {
    ReachableInv(world, s);
    ReachableStep(world, s, DeliverStep(w, id));
    RunAloneReachable(world, Delivered(s, w, id), w);
    if id in s.db.ledger {
      KnownRedelivery(world, s, w, id);
    } else {
      UnknownRedelivery(world, s, w, id);
    }
  }

  // An error in a guarded call is followed by the release of the lease. A record that the worker still holds is then
  // PENDING, so that a redelivery can recover it at once; the delivery ends, and does not count as done.
  lemma FailedWriteReopens(world: World, s: State, w: nat, takesEffect: bool)
    requires Reachable(world, s) && w < |s.workers|
    requires s.workers[w].CheckLeased? || s.workers[w].Append? || s.workers[w].MarkLeased?
    ensures var pc, u := s.workers[w], Throw(world, s, w, takesEffect);
            var t := Call(world, u, w);
            var held := pc.id in s.db.outbox && s.db.outbox[pc.id].token == Some(pc.lease.token);
            && u.workers[w] == Release(pc.id, pc.lease) && t.workers[w].Idle? && t.done == s.done
            && t.db.plans == s.db.plans
            && t.db.ledger == (if takesEffect && pc.Append? then s.db.ledger + [pc.id] else s.db.ledger)
            && (held ==>
                  || pc.id in t.db.ledger
                  || (pc.id in t.db.outbox && Claimable(t.db.outbox[pc.id], t.now)))
            && (!held ==> t.db.outbox == s.db.outbox)
            && (held && !(takesEffect && pc.MarkLeased?) ==>
                  t.db.outbox == s.db.outbox[pc.id := OutboxRecord(
                    s.db.outbox[pc.id].commit, Pending, None, None, s.db.outbox[pc.id].attempts)])
  {
    ReachableInv(world, s);
    assert WorkerKnowledge(world, s, s.workers[w]);
  }

  // An error in any other call ends the delivery at once, with or without the effect of that call.
  lemma OtherErrorsEndDelivery(world: World, s: State, w: nat, takesEffect: bool)
    requires w < |s.workers|
    requires !s.workers[w].CheckLeased? && !s.workers[w].Append? && !s.workers[w].MarkLeased?
    ensures var t := Throw(world, s, w, takesEffect);
            && t.workers[w].Idle? && t.done == s.done
            && t.db == if takesEffect then Call(world, s, w).db else s.db
  {
  }
}
