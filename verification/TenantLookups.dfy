/**
 Lookups of tenant sessions one Redis call at a time: src/people/services/people.service.ts. Switches, logouts,
 rewrites, expiring keys and other lookups happen between any two calls of a lookup.
 */
module TenantLookups {
  import opened Prelude
  import Whole = TenantSessions
  import opened TenantSessions

  // What a lookup has done so far: read the members of the index, read their values, removed the stale ones, and
  // found that the flag is not set.
  datatype Lookup =
    | MembersRead(tenant: string, members: set<string>)
    | ValuesRead(tenant: string, stale: set<string>)
    | StaleRemoved(tenant: string)
    | NotBackfilled(tenant: string)

  datatype Store = Store(db: Redis, lookups: map<nat, Lookup>)

  datatype Call =
    | Other(step: Whole.Step)
    | ReadMembers(l: nat, tenant: string)
    | ReadValues(l: nat)
    | RemoveStale(l: nat)
    | TestFlag(l: nat)
    // The scan, the additions to the index and the setting of the flag.
    | Backfill(l: nat)

  function AfterCall(s: Store, call: Call): Store {
    match call
    case Other(step) => s.(db := Whole.Next(s.db, step))
    case ReadMembers(l, tenant) => s.(lookups := s.lookups[l := MembersRead(tenant, Members(s.db.index, tenant))])
    case ReadValues(l) =>
      if l !in s.lookups || !s.lookups[l].MembersRead? then s
      else
        var tenant := s.lookups[l].tenant;
        s.(lookups := s.lookups[l := ValuesRead(tenant, s.lookups[l].members - Live(s.db.sessions, tenant))])
    case RemoveStale(l) =>
      if l !in s.lookups || !s.lookups[l].ValuesRead? then s
      else
        var tenant := s.lookups[l].tenant;
        Store(s.db.(index := s.db.index - Entries(tenant, s.lookups[l].stale)), s.lookups[l := StaleRemoved(tenant)])
    case TestFlag(l) =>
      if l !in s.lookups || !s.lookups[l].StaleRemoved? then s
      else if s.lookups[l].tenant in s.db.backfilled then s.(lookups := s.lookups - {l})
      else s.(lookups := s.lookups[l := NotBackfilled(s.lookups[l].tenant)])
    case Backfill(l) =>
      if l !in s.lookups || !s.lookups[l].NotBackfilled? then s
      else
        var tenant := s.lookups[l].tenant;
        Store(s.db.(index := s.db.index + Entries(tenant, Live(s.db.sessions, tenant)),
                    backfilled := s.db.backfilled + {tenant}),
              s.lookups - {l})
  }

  function AfterCalls(s: Store, calls: seq<Call>): Store
    decreases |calls|
  {
    if calls == [] then s else AfterCalls(AfterCall(s, calls[0]), calls[1..])
  }

  // Removing stale ids from the index of a flagged tenant must find them still stale.
  predicate Spares(s: Store, call: Call) {
    match call
    case Other(step) => Harmless(s.db, step)
    case RemoveStale(l) =>
      if l !in s.lookups || !s.lookups[l].ValuesRead? then true
      else
        var tenant := s.lookups[l].tenant;
        tenant != "" && tenant in s.db.backfilled ==> s.lookups[l].stale !! Live(s.db.sessions, tenant)
    case _ => true
  }

  lemma EntriesIff(tenant: string, ids: set<string>, id: string)
    ensures Entry(tenant, id) in Entries(tenant, ids) <==> id in ids
  {
  }

  lemma RemoveStaleCompleteIff(s: Store, l: nat)
    requires Complete(s.db) && l in s.lookups && s.lookups[l].ValuesRead?
    ensures Complete(AfterCall(s, RemoveStale(l)).db) <==> Spares(s, RemoveStale(l))
  {
    var db, tenant, stale := s.db, s.lookups[l].tenant, s.lookups[l].stale;
    var db' := AfterCall(s, RemoveStale(l)).db;
    if Spares(s, RemoveStale(l)) {
      forall t, id | t in db'.backfilled && t != "" && id in Live(db'.sessions, t) ensures id in Members(db'.index, t) {
        assert id in Members(db.index, t);
        MemberIff(db.index, t, id);
        MemberIff(db'.index, t, id);
        EntriesIff(tenant, stale, id);
      }
    } else {
      var id :| id in stale && id in Live(db.sessions, tenant);
      EntriesIff(tenant, stale, id);
      MemberIff(db'.index, tenant, id);
    }
  }

  lemma BackfillComplete(s: Store, l: nat)
    requires Complete(s.db) && l in s.lookups && s.lookups[l].NotBackfilled?
    ensures Complete(AfterCall(s, Backfill(l)).db)
  {
    var db, tenant := s.db, s.lookups[l].tenant;
    var db' := AfterCall(s, Backfill(l)).db;
    forall t, id | t in db'.backfilled && t != "" && id in Live(db'.sessions, t) ensures id in Members(db'.index, t) {
      MemberIff(db.index, t, id);
      MemberIff(db'.index, t, id);
      EntriesIff(tenant, Live(db.sessions, tenant), id);
      if t != tenant {
        assert id in Members(db.index, t);
      }
    }
  }

  lemma CallCompleteIff(s: Store, call: Call)
    requires Complete(s.db)
    ensures Complete(AfterCall(s, call).db) <==> Spares(s, call)
  {
    match call
    case Other(step) => CompleteIffHarmless(s.db, step);
    case RemoveStale(l) =>
      if l in s.lookups && s.lookups[l].ValuesRead? {
        RemoveStaleCompleteIff(s, l);
      }
    case Backfill(l) =>
      if l in s.lookups && s.lookups[l].NotBackfilled? {
        BackfillComplete(s, l);
      }
    case _ =>
  }

  ghost predicate CompleteThroughout(s: Store, calls: seq<Call>)
    decreases |calls|
  {
    Complete(s.db) && (calls != [] ==> CompleteThroughout(AfterCall(s, calls[0]), calls[1..]))
  }

  predicate AllSpare(s: Store, calls: seq<Call>)
    decreases |calls|
  {
    calls == [] || (Spares(s, calls[0]) && AllSpare(AfterCall(s, calls[0]), calls[1..]))
  }

  // However the calls of lookups interleave with everything else: set flags stay truthful throughout a run if and only
  // if every removal of stale ids from the index of a flagged tenant finds them still stale, and every other step is
  // harmless.
  lemma {:induction false} CompleteIffAllSpare(s: Store, calls: seq<Call>)
    requires Complete(s.db)
    ensures CompleteThroughout(s, calls) <==> AllSpare(s, calls)
    decreases |calls|
  {
    if calls == [] {
    } else {
      CallCompleteIff(s, calls[0]);
      if Spares(s, calls[0]) {
        CompleteIffAllSpare(AfterCall(s, calls[0]), calls[1..]);
      }
    }
  }

  // --- The calls of one lookup with nothing in between ---

  function LookupCalls(l: nat, tenant: string): seq<Call> {
    [ReadMembers(l, tenant), ReadValues(l), RemoveStale(l), TestFlag(l), Backfill(l)]
  }

  lemma FiveCalls(s: Store, a: Call, b: Call, c: Call, d: Call, e: Call)
    ensures AfterCalls(s, [a, b, c, d, e]) ==
            AfterCall(AfterCall(AfterCall(AfterCall(AfterCall(s, a), b), c), d), e)
  {
    var s1 := AfterCall(s, a);
    var s2 := AfterCall(s1, b);
    var s3 := AfterCall(s2, c);
    var s4 := AfterCall(s3, d);
    assert [a, b, c, d, e][1..] == [b, c, d, e] && [b, c, d, e][1..] == [c, d, e];
    assert [c, d, e][1..] == [d, e] && [d, e][1..] == [e] && [e][1..] == [];
    assert AfterCalls(s4, [e]) == AfterCall(s4, e);
    assert AfterCalls(s3, [d, e]) == AfterCalls(s4, [e]);
    assert AfterCalls(s2, [c, d, e]) == AfterCalls(s3, [d, e]);
    assert AfterCalls(s1, [b, c, d, e]) == AfterCalls(s2, [c, d, e]);
  }

  lemma PrunedIndex(db: Redis, tenant: string)
    ensures var stale := Members(db.index, tenant) - Live(db.sessions, tenant);
            db.index - Entries(tenant, stale) == Pruned(db, tenant).index
  {
    var stale := Members(db.index, tenant) - Live(db.sessions, tenant);
    forall e: Entry ensures e in db.index - Entries(tenant, stale) <==> e in Pruned(db, tenant).index {
      MemberIff(db.index, tenant, e.id);
      EntriesIff(tenant, stale, e.id);
      assert e.tenant == tenant ==> e == Entry(tenant, e.id);
    }
  }

  // An undisturbed lookup does what the lookup in one step does.
  lemma UndisturbedLookup(s: Store, l: nat, tenant: string)
    requires l !in s.lookups
    ensures AfterCalls(s, LookupCalls(l, tenant)) == Store(LookedUp(s.db, tenant), s.lookups)
  {
    var s3 := Store(Pruned(s.db, tenant), s.lookups[l := StaleRemoved(tenant)]);
    FiveCalls(s, ReadMembers(l, tenant), ReadValues(l), RemoveStale(l), TestFlag(l), Backfill(l));
    PrunedIndex(s.db, tenant);
    assert AfterCall(AfterCall(AfterCall(s, ReadMembers(l, tenant)), ReadValues(l)), RemoveStale(l)) == s3;
    assert s.lookups[l := StaleRemoved(tenant)] - {l} == s.lookups;
    assert s.lookups[l := NotBackfilled(tenant)] - {l} == s.lookups;
  }

  // --- A race ---

  // A session that leaves the tenant between the two reads of a lookup and comes back before the removal: it acts for
  // the tenant, the flag is set, and no lookup finds it.
  lemma LookupHidesReturningSession(l: nat, id: string, user: string, tenant: string)
    requires tenant != ""
    ensures var acting, own := Session(id, user, Some(tenant), None, 0), Session(id, user, None, None, 1);
            var before := Redis(map[id := Stored(acting)], {Entry(tenant, id)}, {tenant});
            var t := AfterCalls(Store(before, map[]),
              [ReadMembers(l, tenant), Other(Update(acting, None, None, 1)), ReadValues(l),
               Other(Update(own, Some(tenant), None, 2)), RemoveStale(l)]);
            Complete(before) && Live(t.db.sessions, tenant) == {id} && Found(t.db, tenant) == {}
  {
    var acting, own := Session(id, user, Some(tenant), None, 0), Session(id, user, None, None, 1);
    var before := Redis(map[id := Stored(acting)], {Entry(tenant, id)}, {tenant});
    var s := Store(before, map[]);
    var away, back := Other(Update(acting, None, None, 1)), Other(Update(own, Some(tenant), None, 2));
    FiveCalls(s, ReadMembers(l, tenant), away, ReadValues(l), back, RemoveStale(l));
    MemberIff(before.index, tenant, id);
    var s2 := AfterCall(AfterCall(s, ReadMembers(l, tenant)), away);
    assert s2.db == Redis(map[id := Stored(own)], {}, {tenant});
    assert Members(before.index, tenant) == {id};
    assert s2.lookups == map[l := MembersRead(tenant, {id})];
    var s3 := AfterCall(s2, ReadValues(l));
    assert {id} - Live(s2.db.sessions, tenant) == {id};
    assert s3 == s2.(lookups := map[l := ValuesRead(tenant, {id})]);
    var s4 := AfterCall(s3, back);
    assert s4.db.index == {Entry(tenant, id)};
    var t := AfterCall(s4, RemoveStale(l));
    EntriesIff(tenant, {id}, id);
    assert t.db.index == {};
  }
}
