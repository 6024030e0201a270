/**
 Top-ups and spends of one wallet, one client call at a time. A top-up first reads the grants, message type by
 message type and then the fee allowance, and broadcasts later; the wallet spends, and other top-ups read and
 broadcast, at any time in between.
 */
module AllowanceRuns {
  import opened Prelude
  import opened Decimal
  import opened CreditPlans
  import opened ChainAllowance

  // What a top-up has read so far.
  datatype Reading = Reading(asked: set<Scope>, found: set<Scope>, fee: Option<FeeGrant>)

  const NOTHING_READ: Reading := Reading({}, {}, None)

  // `granted` is the sum of the amounts of all top-ups that took effect, `spent` of all fees paid.
  datatype Wallet = Wallet(grants: Grants, readings: map<nat, Reading>, granted: nat, spent: nat)

  datatype Step =
    | QueryAuthz(c: nat, msgType: Scope)
    | QueryFee(c: nat)
    // The transaction may be lost; the caller may see an error either way.
    | Broadcast(c: nat, amount: nat, takesEffect: bool)
    | Abandon(c: nat)
    | Spend(amount: nat)

  function ReadingOf(w: Wallet, c: nat): Reading {
    if c in w.readings then w.readings[c] else NOTHING_READ
  }

  // What the transaction of a caller makes of the grants, if it is composed and succeeds.
  function Outcome(w: Wallet, c: nat, amount: nat): Option<Grants> {
    var reading := ReadingOf(w, c);
    if reading.fee.None? then None
    else match Replacement(reading.fee.value, ToString(amount))
      case Err(_) => None
      case Ok(replacement) => ExecuteAll(w.grants, Messages(Grants(reading.found, reading.fee.value), replacement))
  }

  function Next(w: Wallet, step: Step): Wallet {
    match step
    case QueryAuthz(c, m) =>
      var reading := ReadingOf(w, c);
      var found := if m in w.grants.authz then reading.found + {m} else reading.found - {m};
      w.(readings := w.readings[c := reading.(asked := reading.asked + {m}, found := found)])
    case QueryFee(c) =>
      var reading := ReadingOf(w, c);
      if reading.asked != ALL_TYPES then w else w.(readings := w.readings[c := reading.(fee := Some(w.grants.fee))])
    case Broadcast(c, amount, takesEffect) =>
      var after := w.(readings := w.readings - {c});
      if takesEffect && Outcome(w, c, amount).Some?
      then after.(grants := Outcome(w, c, amount).value, granted := w.granted + amount)
      else after
    case Abandon(c) => w.(readings := w.readings - {c})
    case Spend(amount) =>
      // The chain drops an allowance that is used up.
      if w.grants.fee.Basic? && amount <= w.grants.fee.limit then
        var left := w.grants.fee.limit - amount;
        w.(grants := w.grants.(fee := if left == 0 then NoFeeGrant else Basic(left)), spent := w.spent + amount)
      else w
  }

  function RunAll(w: Wallet, steps: seq<Step>): Wallet
    decreases |steps|
  {
    if steps == [] then w else RunAll(Next(w, steps[0]), steps[1..])
  }

  // What the limit would be at the start, had everything been granted and nothing spent then.
  function Balance(w: Wallet): int {
    Remaining(w.grants.fee) + w.spent - w.granted
  }

  predicate Limited(w: Wallet) {
    (w.grants.fee.NoFeeGrant? || w.grants.fee.Basic?) && Remaining(w.grants.fee) <= MAX_SAFE_INTEGER
  }

  predicate TakesEffect(w: Wallet, step: Step) {
    step.Broadcast? && step.takesEffect && Outcome(w, step.c, step.amount).Some?
  }

  // How much more than the actual remainder a transaction rolls over.
  function Excess(w: Wallet, step: Step): int {
    if TakesEffect(w, step) then Remaining(ReadingOf(w, step.c).fee.value) - Remaining(w.grants.fee) else 0
  }

  lemma NextBalance(w: Wallet, step: Step)
    requires Limited(w)
    ensures Limited(Next(w, step)) && Balance(Next(w, step)) == Balance(w) + Excess(w, step)
  {
    if TakesEffect(w, step) {
      var reading := ReadingOf(w, step.c);
      var replacement := Replacement(reading.fee.value, ToString(step.amount)).value;
      ParseInvertsToString(step.amount);
      ParseInvertsToString(Remaining(reading.fee.value));
      assert Canonical("0") && ToString(0) == "0";
      RolloverOutcome(Grants(reading.found, reading.fee.value), w.grants, replacement);
    }
  }

  function TotalExcess(w: Wallet, steps: seq<Step>): int
    decreases |steps|
  {
    if steps == [] then 0 else Excess(w, steps[0]) + TotalExcess(Next(w, steps[0]), steps[1..])
  }

  // After any run: the limit is the opening one plus everything granted minus everything spent plus what the
  // transactions rolled over in excess; and it is never above the largest safe integer.
  lemma {:induction false} LimitAfterRun(w: Wallet, steps: seq<Step>)
    requires Limited(w)
    ensures Limited(RunAll(w, steps)) && Balance(RunAll(w, steps)) == Balance(w) + TotalExcess(w, steps)
    decreases |steps|
  {
    if steps == [] {
    } else {
      NextBalance(w, steps[0]);
      LimitAfterRun(Next(w, steps[0]), steps[1..]);
    }
  }

  // In every state of the run the balance is the given one.
  predicate Conserved(w: Wallet, steps: seq<Step>, balance: int)
    decreases |steps|
  {
    Balance(w) == balance && (steps != [] ==> Conserved(Next(w, steps[0]), steps[1..], balance))
  }

  // Every transaction that takes effect finds the remainder it was composed for.
  predicate EveryRemainderCurrent(w: Wallet, steps: seq<Step>)
    decreases |steps|
  {
    steps != [] ==>
      && (TakesEffect(w, steps[0]) ==> Remaining(ReadingOf(w, steps[0].c).fee.value) == Remaining(w.grants.fee))
      && EveryRemainderCurrent(Next(w, steps[0]), steps[1..])
  }

  // The limit stays at opening plus granted minus spent throughout a run if and only if every transaction that
  // takes effect finds the remainder it was composed for.
  lemma {:induction false} ConservedIffRemaindersCurrent(w: Wallet, steps: seq<Step>)
    requires Limited(w)
    ensures Conserved(w, steps, Balance(w)) <==> EveryRemainderCurrent(w, steps)
    decreases |steps|
  {
    if steps == [] {
    } else {
      NextBalance(w, steps[0]);
      ConservedIffRemaindersCurrent(Next(w, steps[0]), steps[1..]);
      if Balance(Next(w, steps[0])) != Balance(w) {
        assert !Conserved(Next(w, steps[0]), steps[1..], Balance(w));
      }
    }
  }

  // --- Undisturbed top-ups ---

  function AuthzQueries(c: nat, types: seq<Scope>): seq<Step> {
    if types == [] then [] else [QueryAuthz(c, types[0])] + AuthzQueries(c, types[1..])
  }

  function Queries(c: nat): seq<Step> {
    AuthzQueries(c, MSG_TYPES) + [QueryFee(c)]
  }

  lemma {:induction false} RunConcat(w: Wallet, a: seq<Step>, b: seq<Step>)
    ensures RunAll(w, a + b) == RunAll(RunAll(w, a), b)
    ensures EveryRemainderCurrent(w, a + b) <==> EveryRemainderCurrent(w, a) && EveryRemainderCurrent(RunAll(w, a), b)
    decreases |a|
  {
    if a == [] {
      assert a + b == b;
    } else {
      assert (a + b)[0] == a[0] && (a + b)[1..] == a[1..] + b;
      RunConcat(Next(w, a[0]), a[1..], b);
    }
  }

  // A reading after the given message types have been asked for as well.
  function Asked(r: Reading, types: set<Scope>, authz: set<Scope>): Reading {
    r.(asked := r.asked + types, found := r.found - types + types * authz)
  }

  lemma AskedOneMore(r: Reading, m: Scope, rest: set<Scope>, authz: set<Scope>)
    ensures Asked(Asked(r, {m}, authz), rest, authz) == Asked(r, {m} + rest, authz)
  {
  }

  lemma QueryAsks(w: Wallet, c: nat, m: Scope)
    ensures Next(w, QueryAuthz(c, m)) == w.(readings := w.readings[c := Asked(ReadingOf(w, c), {m}, w.grants.authz)])
  {
    var found := ReadingOf(w, c).found;
    assert found - {m} + {m} * w.grants.authz == if m in w.grants.authz then found + {m} else found - {m};
  }

  lemma {:induction false} AuthzQueriesRead(w: Wallet, c: nat, types: seq<Scope>)
    requires c in w.readings || types != []
    ensures RunAll(w, AuthzQueries(c, types)) ==
            w.(readings := w.readings[c := Asked(ReadingOf(w, c), (set m | m in types), w.grants.authz)])
    ensures EveryRemainderCurrent(w, AuthzQueries(c, types))
    decreases |types|
  {
    var r := ReadingOf(w, c);
    if types == [] {
      assert Asked(r, (set m | m in types), w.grants.authz) == r;
      assert w.readings[c := r] == w.readings;
    } else {
      var rest := set m | m in types[1..];
      assert AuthzQueries(c, types)[1..] == AuthzQueries(c, types[1..]);
      QueryAsks(w, c, types[0]);
      AuthzQueriesRead(Next(w, QueryAuthz(c, types[0])), c, types[1..]);
      AskedOneMore(r, types[0], rest, w.grants.authz);
      assert (set m | m in types) == {types[0]} + rest;
    }
  }

  // With nothing in between, a top-up reads the grants as they are.
  lemma QueriesRead(w: Wallet, c: nat)
    requires c !in w.readings
    ensures RunAll(w, Queries(c)) ==
              w.(readings := w.readings[c := Reading(ALL_TYPES, w.grants.authz, Some(w.grants.fee))])
    ensures EveryRemainderCurrent(w, Queries(c))
  {
    AuthzQueriesRead(w, c, MSG_TYPES);
    forall m: Scope ensures m in ALL_TYPES {
      AllTypesComplete(m);
    }
    assert Asked(NOTHING_READ, ALL_TYPES, w.grants.authz) == Reading(ALL_TYPES, w.grants.authz, None);
    var asked := RunAll(w, AuthzQueries(c, MSG_TYPES));
    RunConcat(w, AuthzQueries(c, MSG_TYPES), [QueryFee(c)]);
    assert [QueryFee(c)][1..] == [];
    assert RunAll(asked, [QueryFee(c)]) == Next(asked, QueryFee(c));
  }

  // A top-up with nothing between its calls, or a spend.
  datatype Event = TopUp(amount: nat, takesEffect: bool) | Pay(amount: nat)

  function StepsOf(event: Event): seq<Step> {
    match event
    case TopUp(amount, takesEffect) => Queries(0) + [Broadcast(0, amount, takesEffect)]
    case Pay(amount) => [Spend(amount)]
  }

  function AllSteps(events: seq<Event>): seq<Step> {
    if events == [] then [] else StepsOf(events[0]) + AllSteps(events[1..])
  }

  lemma EventIsCurrent(w: Wallet, event: Event)
    requires 0 !in w.readings
    ensures EveryRemainderCurrent(w, StepsOf(event)) && 0 !in RunAll(w, StepsOf(event)).readings
  {
    match event
    case Pay(amount) =>
      assert [Spend(amount)][1..] == [];
      assert RunAll(w, [Spend(amount)]) == Next(w, Spend(amount));
    case TopUp(amount, takesEffect) =>
      var last := [Broadcast(0, amount, takesEffect)];
      QueriesRead(w, 0);
      RunConcat(w, Queries(0), last);
      assert last[1..] == [];
      assert RunAll(RunAll(w, Queries(0)), last) == Next(RunAll(w, Queries(0)), last[0]);
  }

  lemma {:induction false} UndisturbedIsCurrent(w: Wallet, events: seq<Event>)
    requires 0 !in w.readings
    ensures EveryRemainderCurrent(w, AllSteps(events))
    decreases |events|
  {
    if events == [] {
    } else {
      EventIsCurrent(w, events[0]);
      UndisturbedIsCurrent(RunAll(w, StepsOf(events[0])), events[1..]);
      RunConcat(w, StepsOf(events[0]), AllSteps(events[1..]));
    }
  }

  // In particular nothing is lost or granted twice over any run of undisturbed top-ups, failed or not, and spends.
  lemma LimitIsGrantedMinusSpent(w: Wallet, events: seq<Event>)
    requires Limited(w) && 0 !in w.readings
    ensures Conserved(w, AllSteps(events), Balance(w)) && Limited(RunAll(w, AllSteps(events)))
  {
    UndisturbedIsCurrent(w, events);
    ConservedIffRemaindersCurrent(w, AllSteps(events));
    LimitAfterRun(w, AllSteps(events));
  }

  function Opening(limit: nat): Wallet {
    Wallet(Grants(ALL_TYPES, Basic(limit)), map[], 0, 0)
  }

  function SpendInBetween(c: nat, spent: nat, amount: nat): seq<Step> {
    Queries(c) + [Spend(spent), Broadcast(c, amount, true)]
  }

  lemma RunTwo(w: Wallet, first: Step, second: Step)
    ensures RunAll(w, [first, second]) == Next(Next(w, first), second)
  {
    assert [first, second][1..] == [second];
    assert RunAll(Next(w, first), [second]) == RunAll(Next(Next(w, first), second), [second][1..]);
  }

  lemma BroadcastGrantsSum(w: Wallet, c: nat, limit: nat, amount: nat)
    requires c in w.readings && w.readings[c] == Reading(ALL_TYPES, w.grants.authz, Some(Basic(limit)))
    requires w.grants.fee.Basic? && 0 < limit + amount <= MAX_SAFE_INTEGER
    ensures var t := Next(w, Broadcast(c, amount, true));
            t.grants.fee == Basic(limit + amount) && t.granted == w.granted + amount && t.spent == w.spent
  {
    ParseInvertsToString(limit);
    ParseInvertsToString(amount);
    RolloverOutcome(Grants(w.grants.authz, Basic(limit)), w.grants, limit + amount);
  }

  // Whatever a wallet spends between query and broadcast is granted again.
  lemma SpendIsGrantedAgain(c: nat, limit: nat, spent: nat, amount: nat)
    requires spent < limit && limit + amount <= MAX_SAFE_INTEGER
    ensures var t := RunAll(Opening(limit), SpendInBetween(c, spent, amount));
            t.grants.fee == Basic(limit + amount) && t.granted == amount && t.spent == spent
  {
    var w, spend, broadcast := Opening(limit), Spend(spent), Broadcast(c, amount, true);
    QueriesRead(w, c);
    RunConcat(w, Queries(c), [spend, broadcast]);
    var queried := RunAll(w, Queries(c));
    RunTwo(queried, spend, broadcast);
    BroadcastGrantsSum(Next(queried, spend), c, limit, amount);
  }

  // Of 100, the wallet spends 40, and a top-up of 50 makes it 150 instead of 110.
  lemma SpendIsGrantedAgainExample(c: nat)
    ensures var t := RunAll(Opening(100), SpendInBetween(c, 40, 50));
            Remaining(t.grants.fee) == 150 && Balance(Opening(100)) == 100 && Balance(t) == 140
  {
    SpendIsGrantedAgain(c, 100, 40, 50);
  }
}
