/** The Redis index of the sessions that act for a tenant, its backfill flag, and the scan it must agree with. */
module TenantSessions {
  import opened Prelude

  datatype Session = Session(
    sessionId: string, userId: string, tenantId: Option<string>, permissions: Option<seq<string>>, createdAt: int)

  // What is stored under `session:<id>`: a parsable session or text that is not one.
  datatype Value = Stored(session: Session) | Garbage

  // All the `tenant_sessions:<tenant>` sets together; an empty set is an absent key.
  datatype Entry = Entry(tenant: string, id: string)

  datatype Redis = Redis(sessions: map<string, Value>, index: set<Entry>, backfilled: set<string>)

  // Every writer of a session stores it under its own id.
  predicate KeysMatch(sessions: map<string, Value>) {
    forall id :: id in sessions && sessions[id].Stored? ==> sessions[id].session.sessionId == id
  }

  predicate Matches(sessions: map<string, Value>, id: string, tenant: string) {
    id in sessions && sessions[id].Stored? && sessions[id].session.tenantId == Some(tenant)
  }

  function Live(sessions: map<string, Value>, tenant: string): set<string> {
    set id | id in sessions && Matches(sessions, id, tenant)
  }

  function Members(index: set<Entry>, tenant: string): set<string> {
    set e | e in index && e.tenant == tenant :: e.id
  }

  function Entries(tenant: string, ids: set<string>): set<Entry> {
    set id | id in ids :: Entry(tenant, id)
  }

  // An absent or empty tenant id is falsy.
  predicate Named(tenantId: Option<string>) {
    tenantId.Some? && tenantId.value != ""
  }

  function Elements(ids: seq<string>): set<string> {
    set id | id in ids
  }

  function IdsOf(sessions: seq<Session>): set<string> {
    set s | s in sessions :: s.sessionId
  }

  // --- What the operations do to the store ---

  function Updated(db: Redis, detail: Session, tenantId: Option<string>, permissions: Option<seq<string>>,
      now: int): Redis {
    var id, previous := detail.sessionId, detail.tenantId;
    var removed := if Named(previous) && previous != tenantId then {Entry(previous.value, id)} else {};
    var added := if Named(tenantId) then {Entry(tenantId.value, id)} else {};
    db.(sessions := db.sessions[id :=
      Stored(detail.(tenantId := tenantId, permissions := permissions, createdAt := now))],
        index := db.index - removed + added)
  }

  function Pruned(db: Redis, tenant: string): Redis {
    db.(index := set e | e in db.index && (e.tenant == tenant ==> Matches(db.sessions, e.id, tenant)))
  }

  function LookedUp(db: Redis, tenant: string): Redis {
    if tenant in db.backfilled then Pruned(db, tenant)
    else db.(index := Pruned(db, tenant).index + Entries(tenant, Live(db.sessions, tenant)),
             backfilled := db.backfilled + {tenant})
  }

  // The ids of the sessions a lookup returns.
  function Found(db: Redis, tenant: string): set<string> {
    if tenant in db.backfilled then Members(db.index, tenant) * Live(db.sessions, tenant)
    else Live(db.sessions, tenant)
  }

  // One session for each of the ids, as it is stored.
  ghost predicate Returns(found: seq<Session>, sessions: map<string, Value>, ids: set<string>) {
    && IdsOf(found) == ids
    && (forall s :: s in found ==> s.sessionId in sessions && sessions[s.sessionId] == Stored(s))
    && NoRepeats(found)
  }

  ghost predicate NoRepeats(found: seq<Session>) {
    forall i, j :: 0 <= i < j < |found| ==> found[i].sessionId != found[j].sessionId
  }

  lemma MemberIff(index: set<Entry>, tenant: string, id: string)
    ensures id in Members(index, tenant) <==> Entry(tenant, id) in index
  {
    assert Entry(tenant, id) in index ==> Entry(tenant, id).id in Members(index, tenant);
  }

  lemma AppendFound(found: seq<Session>, sessions: map<string, Value>, ids: set<string>, id: string)
    requires KeysMatch(sessions) && Returns(found, sessions, ids)
    requires id in sessions && sessions[id].Stored? && id !in ids
    ensures Returns(found + [sessions[id].session], sessions, ids + {id})
  {
    IdsOfAppend(found, sessions[id].session);
    assert forall i :: 0 <= i < |found| ==> found[i].sessionId in IdsOf(found);
  }

  lemma IdsOfAppend(sessions: seq<Session>, session: Session)
    ensures IdsOf(sessions + [session]) == IdsOf(sessions) + {session.sessionId}
  {
    assert session in sessions + [session];
    assert forall s :: s in sessions ==> s in sessions + [session];
  }

  lemma ElementsAppend(ids: seq<string>, id: string)
    ensures Elements(ids + [id]) == Elements(ids) + {id}
  {
  }

  lemma ReturnsExactly(found: seq<Session>, sessions: map<string, Value>, index: set<Entry>, tenant: string)
    requires KeysMatch(sessions) && Returns(found, sessions, Members(index, tenant) * Live(sessions, tenant))
    ensures forall session :: session in found <==>
              && Entry(tenant, session.sessionId) in index && session.sessionId in sessions
              && sessions[session.sessionId] == Stored(session) && session.tenantId == Some(tenant)
  {
    forall session: Session | true
      ensures session in found <==>
              && Entry(tenant, session.sessionId) in index && session.sessionId in sessions
              && sessions[session.sessionId] == Stored(session) && session.tenantId == Some(tenant)
    {
      MemberIff(index, tenant, session.sessionId);
      ReturnedIff(found, sessions, Members(index, tenant) * Live(sessions, tenant), session);
    }
  }

  lemma ReturnedIff(found: seq<Session>, sessions: map<string, Value>, ids: set<string>, session: Session)
    requires Returns(found, sessions, ids)
    ensures session in found <==>
            session.sessionId in ids && session.sessionId in sessions && sessions[session.sessionId] == Stored(session)
  {
    if session.sessionId in ids {
      var s :| s in found && s.sessionId == session.sessionId;
    }
  }

  // --- The filter that keeps the first session of each id ---

  function FindIndex(sessions: seq<Session>, id: string): (i: nat)
    ensures i <= |sessions| && (i < |sessions| ==> sessions[i].sessionId == id)
    ensures forall j :: 0 <= j < i ==> sessions[j].sessionId != id
  {
    if sessions == [] || sessions[0].sessionId == id then 0 else 1 + FindIndex(sessions[1..], id)
  }

  function KeepFirst(sessions: seq<Session>, from: nat): seq<Session>
    requires from <= |sessions|
    decreases |sessions| - from
  {
    if from == |sessions| then []
    else (if FindIndex(sessions, sessions[from].sessionId) == from then [sessions[from]] else [])
         + KeepFirst(sessions, from + 1)
  }

  lemma {:induction false} KeptComeLater(sessions: seq<Session>, from: nat)
    requires from <= |sessions|
    ensures forall s :: s in KeepFirst(sessions, from) ==> s in sessions && FindIndex(sessions, s.sessionId) >= from
    decreases |sessions| - from
  {
    if from == |sessions| {
    } else {
      KeptComeLater(sessions, from + 1);
    }
  }

  lemma PrependDistinct(first: Session, rest: seq<Session>)
    requires NoRepeats(rest) && forall s :: s in rest ==> s.sessionId != first.sessionId
    ensures NoRepeats([first] + rest)
  {
  }

  lemma FirstDistinct(sessions: seq<Session>, from: nat)
    requires from < |sessions| && NoRepeats(KeepFirst(sessions, from + 1))
    requires forall s :: s in KeepFirst(sessions, from + 1) ==> FindIndex(sessions, s.sessionId) > from
    ensures NoRepeats(KeepFirst(sessions, from))
  {
    var rest := KeepFirst(sessions, from + 1);
    if FindIndex(sessions, sessions[from].sessionId) == from {
      PrependDistinct(sessions[from], rest);
    } else {
      assert KeepFirst(sessions, from) == [] + rest == rest;
    }
  }

  lemma {:induction false} KeptAreDistinct(sessions: seq<Session>, from: nat)
    requires from <= |sessions|
    ensures NoRepeats(KeepFirst(sessions, from))
    decreases |sessions| - from
  {
    if from == |sessions| {
      assert KeepFirst(sessions, from) == [];
    } else {
      KeptAreDistinct(sessions, from + 1);
      KeptComeLater(sessions, from + 1);
      FirstDistinct(sessions, from);
    }
  }

  lemma {:induction false} FirstIsKept(sessions: seq<Session>, from: nat, i: nat)
    requires from <= i < |sessions| && FindIndex(sessions, sessions[i].sessionId) == i
    ensures sessions[i] in KeepFirst(sessions, from)
    decreases i - from
  {
    if from < i {
      FirstIsKept(sessions, from + 1, i);
    }
  }

  // Each id survives once, and nothing else does.
  lemma KeepFirstIsUnique(sessions: seq<Session>)
    ensures var kept := KeepFirst(sessions, 0);
            && (forall s :: s in kept ==> s in sessions)
            && IdsOf(kept) == IdsOf(sessions)
            && NoRepeats(kept)
  {
    KeptComeLater(sessions, 0);
    KeptAreDistinct(sessions, 0);
    forall s | s in sessions ensures s.sessionId in IdsOf(KeepFirst(sessions, 0)) {
      FirstIsKept(sessions, 0, FindIndex(sessions, s.sessionId));
    }
  }

  // --- The service ---

  class PeopleService {
    var sessions: map<string, Value>
    var index: set<Entry>
    var backfilled: set<string>

    ghost function Db(): Redis
      reads this
    {
      Redis(sessions, index, backfilled)
    }

    // SMEMBERS: each member once, in any order.
    method MembersInSomeOrder(tenant: string) returns (ids: seq<string>)
      ensures Elements(ids) == Members(index, tenant)
      ensures forall i, j :: 0 <= i < j < |ids| ==> ids[i] != ids[j]
    {
      ids := [];
      var rest := Members(index, tenant);
      while rest != {}
        invariant Elements(ids) !! rest && Elements(ids) + rest == Members(index, tenant)
        invariant forall i, j :: 0 <= i < j < |ids| ==> ids[i] != ids[j]
        decreases |rest|
      {
        var id :| id in rest;
        ids, rest := ids + [id], rest - {id};
      }
    }

    method UpdateSession(detail: Session, tenantId: Option<string>, permissions: Option<seq<string>>, now: int)
      modifies this
      ensures Db() == Updated(old(Db()), detail, tenantId, permissions, now)
      // The session is stored with the tenant and the permissions given, the rest of it as the request has seen it.
      ensures sessions == old(sessions)[detail.sessionId :=
                Stored(Session(detail.sessionId, detail.userId, tenantId, permissions, now))]
      // Its entry for the tenant the request has seen is replaced by one for the new tenant.
      ensures forall e ::
                e in index <==>
                  || (tenantId.Some? && tenantId.value != "" && e == Entry(tenantId.value, detail.sessionId))
                  || (e in old(index) && !(&& e.id == detail.sessionId && e.tenant != ""
                                           && detail.tenantId == Some(e.tenant) && detail.tenantId != tenantId))
      ensures backfilled == old(backfilled)
    {
      var session := detail.(tenantId := tenantId, permissions := permissions, createdAt := now);
      sessions := sessions[detail.sessionId := Stored(session)];
      if Named(detail.tenantId) && detail.tenantId != tenantId {
        index := index - {Entry(detail.tenantId.value, detail.sessionId)};
      }
      if Named(tenantId) {
        index := index + {Entry(tenantId.value, detail.sessionId)};
      }
    }

    method FindTenantSessionsFromIndex(tenant: string) returns (matching: seq<Session>)
      requires KeysMatch(sessions)
      modifies this`index
      ensures Db() == Pruned(old(Db()), tenant)
      ensures Returns(matching, sessions, Members(old(index), tenant) * Live(sessions, tenant))
      // Exactly the entries of the tenant without a session that acts for it are removed, and no others.
      ensures forall e ::
                e in index <==>
                  && e in old(index)
                  && (e.tenant == tenant ==>
                       && e.id in sessions && sessions[e.id].Stored?
                       && sessions[e.id].session.tenantId == Some(tenant))
      ensures forall session :: session in matching <==>
                && Entry(tenant, session.sessionId) in old(index) && session.sessionId in sessions
                && sessions[session.sessionId] == Stored(session) && session.tenantId == Some(tenant)
    {
      var ids := MembersInSomeOrder(tenant);
      matching := [];
      var stale := [];
      for i := 0 to |ids|
        invariant Returns(matching, sessions, Elements(ids[..i]) * Live(sessions, tenant))
        invariant index == old(index)
        invariant Elements(stale) == Elements(ids[..i]) - Live(sessions, tenant)
      {
        assert ids[..i + 1] == ids[..i] + [ids[i]];
        ElementsAppend(ids[..i], ids[i]);
        ElementsAppend(stale, ids[i]);
        if ids[i] in sessions && sessions[ids[i]].Stored? && sessions[ids[i]].session.tenantId == Some(tenant) {
          AppendFound(matching, sessions, Elements(ids[..i]) * Live(sessions, tenant), ids[i]);
          matching := matching + [sessions[ids[i]].session];
        } else {
          stale := stale + [ids[i]];
        }
      }
      assert ids[..|ids|] == ids;
      forall e | e in index && e.tenant == tenant ensures e.id in Elements(ids) {
        assert e == Entry(tenant, e.id);
      }
      index := index - Entries(tenant, Elements(stale));
      ReturnsExactly(matching, sessions, old(index), tenant);
    }

    // The pages are what SCAN returns until its cursor is back at 0: every stored key at least once, with repeats,
    // and possibly keys that are gone.
    method ScanTenantSessions(tenant: string, pages: seq<seq<string>>)
      returns (matching: seq<Session>, ids: seq<string>)
      requires KeysMatch(sessions)
      requires forall id :: id in sessions ==> exists p :: 0 <= p < |pages| && id in pages[p]
      ensures IdsOf(matching) == Elements(ids) == Live(sessions, tenant)
      ensures forall s :: s in matching ==> s.sessionId in sessions && sessions[s.sessionId] == Stored(s)
    {
      matching, ids := [], [];
      ghost var seen: set<string> := {};
      for p := 0 to |pages|
        invariant forall q :: 0 <= q < p ==> Elements(pages[q]) <= seen
        invariant IdsOf(matching) == Elements(ids) == seen * Live(sessions, tenant)
        invariant forall s :: s in matching ==> s.sessionId in sessions && sessions[s.sessionId] == Stored(s)
      {
        var keys := pages[p];
        for k := 0 to |keys|
          invariant forall q :: 0 <= q < p ==> Elements(pages[q]) <= seen
          invariant Elements(keys[..k]) <= seen
          invariant IdsOf(matching) == Elements(ids) == seen * Live(sessions, tenant)
          invariant forall s :: s in matching ==> s.sessionId in sessions && sessions[s.sessionId] == Stored(s)
        {
          var id := keys[k];
          assert keys[..k + 1] == keys[..k] + [id];
          ElementsAppend(keys[..k], id);
          ElementsAppend(ids, id);
          if id in sessions && sessions[id].Stored? && sessions[id].session.tenantId == Some(tenant) {
            IdsOfAppend(matching, sessions[id].session);
            matching, ids := matching + [sessions[id].session], ids + [sessions[id].session.sessionId];
          }
          seen := seen + {id};
        }
        assert keys[..|keys|] == keys;
      }
      assert Live(sessions, tenant) <= seen;
    }

    method FindTenantSessions(tenant: string, pages: seq<seq<string>>) returns (found: seq<Session>)
      requires KeysMatch(sessions)
      requires forall id :: id in sessions ==> exists p :: 0 <= p < |pages| && id in pages[p]
      modifies this`index, this`backfilled
      ensures Db() == LookedUp(old(Db()), tenant)
      ensures Returns(found, sessions, Found(old(Db()), tenant))
      // Found are the sessions that act for the tenant: those indexed if the flag was set, and all otherwise.
      ensures forall session :: session in found <==>
                && (tenant in old(backfilled) ==> Entry(tenant, session.sessionId) in old(index))
                && session.sessionId in sessions && sessions[session.sessionId] == Stored(session)
                && session.tenantId == Some(tenant)
      ensures backfilled == old(backfilled) + {tenant}
      ensures forall e ::
                e in index <==>
                  if e.tenant != tenant then e in old(index)
                  else && (tenant in old(backfilled) ==> e in old(index))
                       && e.id in sessions && sessions[e.id].Stored? && sessions[e.id].session.tenantId == Some(tenant)
    {
      var indexed := FindTenantSessionsFromIndex(tenant);
      if tenant in backfilled {
        return indexed;
      }
      var matching, ids := ScanTenantSessions(tenant, pages);
      index := index + Entries(tenant, Elements(ids));
      backfilled := backfilled + {tenant};
      found := KeepFirst(indexed + matching, 0);
      KeepFirstIsUnique(indexed + matching);
      assert IdsOf(indexed + matching) == IdsOf(indexed) + IdsOf(matching);
      forall session: Session | true
        ensures session in found <==>
                && session.sessionId in sessions && sessions[session.sessionId] == Stored(session)
                && session.tenantId == Some(tenant)
      {
        ReturnedIff(found, sessions, Live(sessions, tenant), session);
      }
    }
  }

  // --- Any history of the store ---

  datatype Step =
    | Update(detail: Session, tenantId: Option<string>, permissions: Option<seq<string>>, now: int)
    | Write(id: string, value: Value)    // a login, a refresh or an MFA step
    | Remove(id: string)                 // a logout, or the session expires
    | Lookup(tenant: string)
    | ExpireIndex(tenant: string)

  function Next(db: Redis, step: Step): Redis {
    match step
    case Update(detail, tenantId, permissions, now) => Updated(db, detail, tenantId, permissions, now)
    case Write(id, value) => db.(sessions := db.sessions[id := value])
    case Remove(id) => db.(sessions := db.sessions - {id})
    case Lookup(tenant) => LookedUp(db, tenant)
    case ExpireIndex(tenant) => db.(index := set e | e in db.index && e.tenant != tenant)
  }

  function RunSteps(db: Redis, steps: seq<Step>): Redis
    decreases |steps|
  {
    if steps == [] then db else RunSteps(Next(db, steps[0]), steps[1..])
  }

  // A set flag promises that the index misses no live session.
  ghost predicate Complete(db: Redis) {
    forall tenant :: tenant in db.backfilled && tenant != "" ==> Live(db.sessions, tenant) <= Members(db.index, tenant)
  }

  // What a step must not do to a tenant whose flag is set.
  predicate Harmless(db: Redis, step: Step) {
    match step
    case Write(id, value) =>
      (value.Stored? && Named(value.session.tenantId) && value.session.tenantId.value in db.backfilled)
      ==> Entry(value.session.tenantId.value, id) in db.index
    case ExpireIndex(tenant) => tenant != "" && tenant in db.backfilled ==> Live(db.sessions, tenant) == {}
    case _ => true
  }

  predicate AllHarmless(db: Redis, steps: seq<Step>)
    decreases |steps|
  {
    steps == [] || (Harmless(db, steps[0]) && AllHarmless(Next(db, steps[0]), steps[1..]))
  }

  // A set flag stays truthful whatever previous tenant a switching request still saw, and through lookups, logouts and
  // expiring sessions; a rewrite or the expiry of an index key keep it so exactly when they are harmless.
  lemma CompleteIffHarmless(db: Redis, step: Step)
    requires Complete(db)
    ensures Complete(Next(db, step)) <==> Harmless(db, step)
  {
    if Harmless(db, step) {
      HarmlessKeepsComplete(db, step);
    } else {
      HarmfulBreaksComplete(db, step);
    }
  }

  lemma HarmlessKeepsComplete(db: Redis, step: Step)
    requires Complete(db) && Harmless(db, step)
    ensures Complete(Next(db, step))
  {
    var db' := Next(db, step);
    forall tenant, id | tenant in db'.backfilled && tenant != "" && id in Live(db'.sessions, tenant)
      ensures id in Members(db'.index, tenant)
    {
      MemberIff(db.index, tenant, id);
      MemberIff(db'.index, tenant, id);
      if tenant in db.backfilled && id in Live(db.sessions, tenant) {
        assert id in Members(db.index, tenant);
      }
    }
  }

  lemma HarmfulBreaksComplete(db: Redis, step: Step)
    requires Complete(db) && !Harmless(db, step)
    ensures !Complete(Next(db, step))
  {
    var db' := Next(db, step);
    if step.Write? {
      var tenant := step.value.session.tenantId.value;
      MemberIff(db'.index, tenant, step.id);
      assert step.id in Live(db'.sessions, tenant);
    } else {
      var id :| id in Live(db.sessions, step.tenant);
      MemberIff(db'.index, step.tenant, id);
      assert id in Live(db'.sessions, step.tenant);
    }
  }

  // --- Main results ---

  // What a lookup returns is always live, and it is everything live unless the flag is set and the index misses one.
  lemma FoundIsLiveIff(db: Redis, tenant: string)
    ensures Found(db, tenant) <= Live(db.sessions, tenant)
    ensures Found(db, tenant) == Live(db.sessions, tenant)
            <==> tenant !in db.backfilled || Live(db.sessions, tenant) <= Members(db.index, tenant)
  {
    if tenant in db.backfilled && Found(db, tenant) == Live(db.sessions, tenant) {
      assert forall id :: id in Live(db.sessions, tenant) ==> id in Found(db, tenant);
    }
  }

  // Looking up again changes neither the answer nor the store.
  lemma LookupIsIdempotent(db: Redis, tenant: string)
    ensures var again := LookedUp(db, tenant);
            Found(again, tenant) == Found(db, tenant) && LookedUp(again, tenant) == again
  {
    var again := LookedUp(db, tenant);
    forall id | true ensures id in Found(again, tenant) <==> id in Found(db, tenant) {
      MemberIff(db.index, tenant, id);
      MemberIff(again.index, tenant, id);
    }
    assert LookedUp(again, tenant).index == again.index;
  }

  // Entries of stored sessions name the tenant the session acts for.
  ghost predicate NoStrayEntries(db: Redis) {
    forall e :: e in db.index && e.id in db.sessions ==> Matches(db.sessions, e.id, e.tenant)
  }

  // A switch adds its session to the new tenant and touches no other session's entries. It leaves no entry for a
  // tenant the session has left exactly when the previous tenant the request saw is the indexed one.
  lemma SwitchMovesEntry(db: Redis, detail: Session, tenantId: Option<string>, permissions: Option<seq<string>>,
      now: int)
    requires NoStrayEntries(db) && detail.sessionId in db.sessions
    ensures var id, after := detail.sessionId, Updated(db, detail, tenantId, permissions, now);
            && (Named(tenantId) ==> id in Members(after.index, tenantId.value))
            && (forall e: Entry :: e.id != id ==> (e in after.index <==> e in db.index))
            && (NoStrayEntries(after) <==>
                  forall e :: e in db.index && e.id == id ==>
                    tenantId == Some(e.tenant) || (Named(detail.tenantId) && detail.tenantId == Some(e.tenant)))
  {
    var id, after := detail.sessionId, Updated(db, detail, tenantId, permissions, now);
    if Named(tenantId) {
      MemberIff(after.index, tenantId.value, id);
    }
    forall e | e in db.index && e.id == id && tenantId != Some(e.tenant)
      ensures e in after.index <==> !(Named(detail.tenantId) && detail.tenantId == Some(e.tenant))
    {
      assert Named(detail.tenantId) && detail.tenantId == Some(e.tenant) ==> e == Entry(detail.tenantId.value, id);
    }
  }

  // --- What a session holds ---

  // A step that changes what is stored under the id.
  predicate Writes(step: Step, id: string) {
    || (step.Update? && step.detail.sessionId == id)
    || ((step.Write? || step.Remove?) && step.id == id)
  }

  lemma {:induction false} UnwrittenStays(db: Redis, steps: seq<Step>, id: string)
    requires id in db.sessions
    requires forall i :: 0 <= i < |steps| ==> !Writes(steps[i], id)
    ensures id in RunSteps(db, steps).sessions && RunSteps(db, steps).sessions[id] == db.sessions[id]
    decreases |steps|
  {
    if steps == [] {
    } else {
      UnwrittenStays(Next(db, steps[0]), steps[1..], id);
    }
  }

  // A switch stores the session with its tenant and its permissions, and no other session changes.
  lemma SwitchStores(db: Redis, detail: Session, tenantId: Option<string>, permissions: Option<seq<string>>, now: int)
    ensures Next(db, Update(detail, tenantId, permissions, now)).sessions ==
            db.sessions[detail.sessionId :=
              Stored(Session(detail.sessionId, detail.userId, tenantId, permissions, now))]
  {
  }

  // Over any run: until a login, a refresh or a logout writes it, a session is as its latest switch has made it, with
  // that switch's tenant and that switch's permissions.
  lemma {:induction false} SessionOfLatestSwitch(db: Redis, steps: seq<Step>, k: nat)
    requires k < |steps| && steps[k].Update?
    requires forall i :: k < i < |steps| ==> !Writes(steps[i], steps[k].detail.sessionId)
    ensures var detail := steps[k].detail;
            && detail.sessionId in RunSteps(db, steps).sessions
            && RunSteps(db, steps).sessions[detail.sessionId] ==
               Stored(Session(detail.sessionId, detail.userId, steps[k].tenantId, steps[k].permissions, steps[k].now))
    decreases k
  {
    if k == 0 {
      SwitchStores(db, steps[0].detail, steps[0].tenantId, steps[0].permissions, steps[0].now);
      UnwrittenStays(Next(db, steps[0]), steps[1..], steps[0].detail.sessionId);
    } else {
      assert steps[1..][k - 1] == steps[k];
      SessionOfLatestSwitch(Next(db, steps[0]), steps[1..], k - 1);
    }
  }

  // A writer that stores no tenant, or the tenant the session has at that moment, is harmless.
  lemma AtomicRewriteIsHarmless(db: Redis, session: Session)
    requires Complete(db)
    requires Named(session.tenantId) ==> Matches(db.sessions, session.sessionId, session.tenantId.value)
    ensures Harmless(db, Write(session.sessionId, Stored(session)))
  {
    if Named(session.tenantId) && session.tenantId.value in db.backfilled {
      assert session.sessionId in Live(db.sessions, session.tenantId.value);
      MemberIff(db.index, session.tenantId.value, session.sessionId);
    }
  }

  ghost predicate OwnKeys(steps: seq<Step>) {
    forall i :: 0 <= i < |steps| && steps[i].Write? && steps[i].value.Stored? ==>
      steps[i].value.session.sessionId == steps[i].id
  }

  lemma {:induction false} RunKeepsComplete(db: Redis, steps: seq<Step>)
    requires KeysMatch(db.sessions) && Complete(db) && OwnKeys(steps) && AllHarmless(db, steps)
    ensures KeysMatch(RunSteps(db, steps).sessions) && Complete(RunSteps(db, steps))
    decreases |steps|
  {
    if steps == [] {
    } else {
      HarmlessKeepsComplete(db, steps[0]);
      RunKeepsComplete(Next(db, steps[0]), steps[1..]);
    }
  }

  // In every state of the run, a lookup of whatever tenant would return all its live sessions.
  ghost predicate ExactThroughout(db: Redis, steps: seq<Step>)
    decreases |steps|
  {
    && (forall tenant :: tenant != "" ==> Found(db, tenant) == Live(db.sessions, tenant))
    && (steps != [] ==> ExactThroughout(Next(db, steps[0]), steps[1..]))
  }

  lemma CompleteIffExact(db: Redis)
    ensures Complete(db) <==> forall tenant :: tenant != "" ==> Found(db, tenant) == Live(db.sessions, tenant)
  {
    forall tenant: string | true
      ensures Found(db, tenant) == Live(db.sessions, tenant)
              <==> tenant !in db.backfilled || Live(db.sessions, tenant) <= Members(db.index, tenant)
    {
      FoundIsLiveIff(db, tenant);
    }
  }

  // Over any run from a truthful store: every lookup at any time is exact if and only if every step is harmless.
  lemma {:induction false} ExactIffHarmless(db: Redis, steps: seq<Step>)
    requires Complete(db)
    ensures ExactThroughout(db, steps) <==> AllHarmless(db, steps)
    decreases |steps|
  {
    CompleteIffExact(db);
    if steps == [] {
    } else {
      CompleteIffHarmless(db, steps[0]);
      CompleteIffExact(Next(db, steps[0]));
      if Harmless(db, steps[0]) {
        ExactIffHarmless(Next(db, steps[0]), steps[1..]);
      }
    }
  }

  // Whatever is stored and indexed before the first lookup, after any harmless history the index path and the scan
  // path both return exactly the live sessions of the tenant.
  lemma LookupsAreExact(db: Redis, steps: seq<Step>, tenant: string)
    requires KeysMatch(db.sessions) && db.backfilled == {} && OwnKeys(steps) && AllHarmless(db, steps) && tenant != ""
    ensures var now := RunSteps(db, steps);
            && Found(now, tenant) == Live(now.sessions, tenant)
            && Found(now.(backfilled := {}), tenant) == Found(now, tenant)
  {
    RunKeepsComplete(db, steps);
    FoundIsLiveIff(RunSteps(db, steps), tenant);
  }

  // A session that a set flag hides stays hidden until it switches to the tenant again.
  lemma {:induction false} HiddenUntilSwitched(db: Redis, steps: seq<Step>, tenant: string, id: string)
    requires tenant in db.backfilled && Entry(tenant, id) !in db.index
    requires forall step :: step in steps && step.Update? && step.detail.sessionId == id ==>
              step.tenantId != Some(tenant)
    ensures id !in Found(RunSteps(db, steps), tenant)
    decreases |steps|
  {
    if steps == [] {
      MemberIff(db.index, tenant, id);
    } else {
      HiddenUntilSwitched(Next(db, steps[0]), steps[1..], tenant, id);
    }
  }

  // The index key expires with the last switcher's session while a session of the tenant lives on.
  lemma ExpiredIndexHidesSession(id: string, user: string, tenant: string)
    requires tenant != ""
    ensures var own := Session(id, user, None, None, 0);
            var loggedIn := Next(Redis(map[], {}, {}), Write(id, Stored(own)));
            var switched := Next(loggedIn, Update(own, Some(tenant), None, 1));
            var now := Next(Next(switched, Lookup(tenant)), ExpireIndex(tenant));
            Live(now.sessions, tenant) == {id} && Found(now, tenant) == {}
  {
    var own := Session(id, user, None, None, 0);
    var loggedIn := Next(Redis(map[], {}, {}), Write(id, Stored(own)));
    var switched := Next(loggedIn, Update(own, Some(tenant), None, 1));
    var now := Next(Next(switched, Lookup(tenant)), ExpireIndex(tenant));
    MemberIff(now.index, tenant, id);
    assert now.sessions.Keys == {id};
  }

  // A refresh that read the session before it switched back puts the old tenant into the session, not into the index.
  lemma StaleRefreshHidesSession(id: string, user: string, tenant: string)
    requires tenant != ""
    ensures var acting := Session(id, user, Some(tenant), None, 0);
            var before := Redis(map[id := Stored(acting)], {Entry(tenant, id)}, {tenant});
            var now := Next(Next(before, Update(acting, None, None, 1)), Write(id, Stored(acting)));
            Complete(before) && Live(now.sessions, tenant) == {id} && Found(now, tenant) == {}
  {
    var acting := Session(id, user, Some(tenant), None, 0);
    var before := Redis(map[id := Stored(acting)], {Entry(tenant, id)}, {tenant});
    var now := Next(Next(before, Update(acting, None, None, 1)), Write(id, Stored(acting)));
    MemberIff(before.index, tenant, id);
    MemberIff(now.index, tenant, id);
  }
}
