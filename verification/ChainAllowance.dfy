/** Rolling an on-chain allowance over: grantSSIAllowance in src/credits/services/credits.service.ts. */
module ChainAllowance {
  import opened Prelude
  import opened Decimal
  import opened CreditPlans

  // The order in which grants are queried, revoked and granted.
  const MSG_TYPES: seq<Scope> := [
    MsgRegisterDid, MsgUpdateDid, MsgDeactivateDid, MsgRegisterCredentialStatus, MsgRegisterCredentialSchema,
      MsgUpdateCredentialStatus]

  const ALL_TYPES: set<Scope> := set m | m in MSG_TYPES

  // A fee allowance with a finite uhid limit, one without, one of another type, or none.
  datatype FeeGrant = NoFeeGrant | Basic(limit: nat) | Unlimited | OtherAllowance

  // Grants from the granter to one wallet.
  datatype Grants = Grants(authz: set<Scope>, fee: FeeGrant)

  datatype Msg = RevokeAuthz(msgType: Scope) | RevokeFee | GrantAuthz(msgType: Scope) | GrantFee(coin: string)

  // The chain's own rules: revoking what is absent fails, and so does granting a second fee allowance.
  function Execute(g: Grants, msg: Msg): Option<Grants> {
    match msg
    case RevokeAuthz(m) => if m in g.authz then Some(g.(authz := g.authz - {m})) else None
    case RevokeFee => if g.fee.NoFeeGrant? then None else Some(g.(fee := NoFeeGrant))
    case GrantAuthz(m) => Some(g.(authz := g.authz + {m}))
    case GrantFee(coin) =>
      var amount := ParseUhidCoin(coin);
      if !g.fee.NoFeeGrant? || amount.None? then None
      else
        var n := ParseUhidAmount(amount.value);
        if n.None? || n.value == 0 then None else Some(g.(fee := Basic(n.value)))
  }

  function ExecuteAll(g: Grants, msgs: seq<Msg>): Option<Grants>
    decreases |msgs|
  {
    if msgs == [] then Some(g)
    else match Execute(g, msgs[0])
      case None => None
      case Some(next) => ExecuteAll(next, msgs[1..])
  }

  datatype AllowanceError = UnsupportedAllowance | InvalidAmount | ExceedsSafeInteger | TransactionFailed

  // What the fee grant query reports: whether one exists, and its remainder as a string.
  function PreviousRemaining(fee: FeeGrant): Result<string, AllowanceError> {
    match fee
    case NoFeeGrant => Ok("0")
    case Basic(limit) => Ok(ToString(limit))
    case Unlimited => Err(UnsupportedAllowance)
    case OtherAllowance => Err(UnsupportedAllowance)
  }

  function Remaining(fee: FeeGrant): nat {
    if fee.Basic? then fee.limit else 0
  }

  function Existing(authz: set<Scope>, types: seq<Scope>): seq<Scope> {
    if types == [] then []
    else (if types[0] in authz then [types[0]] else []) + Existing(authz, types[1..])
  }

  function Revokes(types: seq<Scope>): seq<Msg> {
    seq(|types|, i requires 0 <= i < |types| => RevokeAuthz(types[i]))
  }

  function AuthzGrants(types: seq<Scope>): seq<Msg> {
    seq(|types|, i requires 0 <= i < |types| => GrantAuthz(types[i]))
  }

  // The replacement allowance: exactly the previous remainder plus the new amount, if that is a safe integer.
  function Replacement(fee: FeeGrant, allowance: string): Result<nat, AllowanceError> {
    match PreviousRemaining(fee)
    case Err(e) => Err(e)
    case Ok(remaining) =>
      if ParseUhidAmount(remaining).None? || ParseUhidAmount(allowance).None? then Err(InvalidAmount)
      else
        var total := ParseUhidAmount(remaining).value + ParseUhidAmount(allowance).value;
        if total > MAX_SAFE_INTEGER then Err(ExceedsSafeInteger) else Ok(total)
  }

  // The ordered message list for a queried state: revoke exactly what exists, then grant everything.
  function Messages(queried: Grants, replacement: nat): seq<Msg> {
    Revokes(Existing(queried.authz, MSG_TYPES)) +
    (if queried.fee.NoFeeGrant? then [] else [RevokeFee]) +
    AuthzGrants(MSG_TYPES) +
    [GrantFee(ToString(replacement) + "uhid")]
  }

  function FeeUnits(messageCount: nat): nat {
    var units := (messageCount + 6) / 7;
    if units < 1 then 1 else units
  }

  class Chain {
    var grants: Grants

    constructor (grants: Grants)
      ensures this.grants == grants
    {
      this.grants := grants;
    }

    // One transaction: every message takes effect, or none does.
    method SignAndBroadcast(msgs: seq<Msg>) returns (ok: bool)
      modifies this
      ensures ok <==> ExecuteAll(old(grants), msgs).Some?
      ensures grants == if ok then ExecuteAll(old(grants), msgs).value else old(grants)
    {
      var g := grants;
      var i := 0;
      while i < |msgs|
        invariant i <= |msgs|
        invariant ExecuteAll(grants, msgs) == ExecuteAll(g, msgs[i..])
      {
        var next := Execute(g, msgs[i]);
        if next.None? {
          return false;
        }
        g := next.value;
        i := i + 1;
      }
      grants := g;
      ok := true;
    }
  }

  // Query, compose, broadcast. The result is the newly bought credit alone, whatever was rolled over.
  method GrantSsiAllowance(chain: Chain, allowance: string) returns (r: Result<string, AllowanceError>)
    modifies chain
    ensures r.Ok? ==>
              && r.value == allowance && ParseUhidAmount(allowance).Some?
              && chain.grants.authz == ALL_TYPES
              && chain.grants.fee == Basic(Remaining(old(chain.grants.fee)) + ParseUhidAmount(allowance).value)
              && chain.grants.fee.limit <= MAX_SAFE_INTEGER
    ensures r.Err? ==> chain.grants == old(chain.grants)
    ensures r.Ok? <==>
              && (old(chain.grants.fee).NoFeeGrant? || old(chain.grants.fee).Basic?)
              && ParseUhidAmount(allowance).Some?
              && 0 < Remaining(old(chain.grants.fee)) + ParseUhidAmount(allowance).value <= MAX_SAFE_INTEGER
  {
    var queried := chain.grants;
    var replacement := Replacement(queried.fee, allowance);
    ParseInvertsToString(Remaining(queried.fee));
    assert Canonical("0") && ToString(0) == "0";
    if replacement.Err? {
      return Err(replacement.error);
    }
    RolloverOutcome(queried, queried, replacement.value);
    var ok := chain.SignAndBroadcast(Messages(queried, replacement.value));
    if !ok {
      return Err(TransactionFailed);
    }
    r := Ok(allowance);
  }

  lemma {:induction false} ExecuteConcat(g: Grants, a: seq<Msg>, b: seq<Msg>)
    ensures ExecuteAll(g, a + b) ==
            match ExecuteAll(g, a) case None => None case Some(next) => ExecuteAll(next, b)
    decreases |a|
  {
    if a == [] {
      assert a + b == b;
    } else {
      assert (a + b)[0] == a[0] && (a + b)[1..] == a[1..] + b;
      match Execute(g, a[0]) {
        case None =>
        case Some(next) => ExecuteConcat(next, a[1..], b);
      }
    }
  }

  predicate Distinct(types: seq<Scope>) {
    forall i, j :: 0 <= i < j < |types| ==> types[i] != types[j]
  }

  // Revoking a list of distinct grants works exactly when all of them are there.
  lemma {:induction false} RevokesOutcome(g: Grants, types: seq<Scope>)
    requires Distinct(types)
    ensures ExecuteAll(g, Revokes(types)) ==
            if (set m | m in types) <= g.authz then Some(g.(authz := g.authz - set m | m in types)) else None
    decreases |types|
  {
    if types == [] {
      assert (set m | m in types) == {} && g.authz - (set m | m in types) == g.authz;
    } else {
      assert Revokes(types)[1..] == Revokes(types[1..]);
      assert (set m | m in types) == {types[0]} + set m | m in types[1..];
      assert types[0] !in types[1..];
      if types[0] in g.authz {
        var next := g.(authz := g.authz - {types[0]});
        RevokesOutcome(next, types[1..]);
        assert (set m | m in types[1..]) <= next.authz <==> (set m | m in types) <= g.authz;
        assert next.authz - (set m | m in types[1..]) == g.authz - set m | m in types;
      }
    }
  }

  lemma {:induction false} GrantsOutcome(g: Grants, types: seq<Scope>)
    ensures ExecuteAll(g, AuthzGrants(types)) == Some(g.(authz := g.authz + set m | m in types))
    decreases |types|
  {
    if types == [] {
      assert g.authz + (set m | m in types) == g.authz;
    } else {
      assert AuthzGrants(types)[1..] == AuthzGrants(types[1..]);
      GrantsOutcome(g.(authz := g.authz + {types[0]}), types[1..]);
      assert g.authz + {types[0]} + (set m | m in types[1..]) == g.authz + set m | m in types;
    }
  }

  lemma {:induction false} ExistingIsFilter(authz: set<Scope>, types: seq<Scope>)
    requires Distinct(types)
    ensures Distinct(Existing(authz, types))
    ensures forall m :: m in Existing(authz, types) <==> m in types && m in authz
    decreases |types|
  {
    if types == [] {
    } else {
      assert Distinct(types[1..]);
      ExistingIsFilter(authz, types[1..]);
      assert types[0] !in types[1..];
    }
  }

  lemma AllTypesComplete(m: Scope)
    ensures m in MSG_TYPES && m in ALL_TYPES
  {
    match m
    case MsgRegisterDid => assert MSG_TYPES[0] == m;
    case MsgUpdateDid => assert MSG_TYPES[1] == m;
    case MsgDeactivateDid => assert MSG_TYPES[2] == m;
    case MsgRegisterCredentialStatus => assert MSG_TYPES[3] == m;
    case MsgRegisterCredentialSchema => assert MSG_TYPES[4] == m;
    case MsgUpdateCredentialStatus => assert MSG_TYPES[5] == m;
  }

  // The message list was composed for `queried` but executes on the state `actual` at broadcast time. It
  // succeeds exactly when every grant seen by the query is still there, a fee allowance exists now exactly if
  // it existed then, and the amount is positive. The new limit builds on the queried remainder.
  lemma RolloverOutcome(queried: Grants, actual: Grants, replacement: nat)
    ensures ExecuteAll(actual, Messages(queried, replacement)) ==
            if queried.authz <= actual.authz && (queried.fee.NoFeeGrant? <==> actual.fee.NoFeeGrant?) && replacement > 0
            then Some(Grants(ALL_TYPES, Basic(replacement)))
            else None
  {
    var types := Existing(queried.authz, MSG_TYPES);
    var revokeFee := if queried.fee.NoFeeGrant? then [] else [RevokeFee];
    var grantFee := [GrantFee(ToString(replacement) + "uhid")];
    ExistingIsFilter(queried.authz, MSG_TYPES);
    forall m: Scope ensures m in ALL_TYPES && (m in types <==> m in queried.authz) {
      AllTypesComplete(m);
    }
    assert (set m | m in types) == queried.authz;
    ExecuteConcat(actual, Revokes(types) + revokeFee + AuthzGrants(MSG_TYPES), grantFee);
    ExecuteConcat(actual, Revokes(types) + revokeFee, AuthzGrants(MSG_TYPES));
    ExecuteConcat(actual, Revokes(types), revokeFee);
    RevokesOutcome(actual, types);
    if queried.authz <= actual.authz {
      var revoked := actual.(authz := actual.authz - queried.authz);
      RevokeFeeOutcome(revoked, queried.fee);
      if queried.fee.NoFeeGrant? || !actual.fee.NoFeeGrant? {
        var cleared := if queried.fee.NoFeeGrant? then revoked else revoked.(fee := NoFeeGrant);
        GrantsOutcome(cleared, MSG_TYPES);
        assert cleared.authz + ALL_TYPES == ALL_TYPES;
        GrantFeeOutcome(cleared.(authz := ALL_TYPES), replacement);
      }
    }
  }

  lemma RevokeFeeOutcome(g: Grants, queriedFee: FeeGrant)
    ensures ExecuteAll(g, if queriedFee.NoFeeGrant? then [] else [RevokeFee]) ==
            if queriedFee.NoFeeGrant? then Some(g) else if g.fee.NoFeeGrant? then None else Some(g.(fee := NoFeeGrant))
  {
  }

  lemma GrantFeeOutcome(g: Grants, replacement: nat)
    ensures ExecuteAll(g, [GrantFee(ToString(replacement) + "uhid")]) ==
            if g.fee.NoFeeGrant? && replacement > 0 then Some(g.(fee := Basic(replacement))) else None
  {
    CoinRoundTrip(replacement);
    ParseInvertsToString(replacement);
  }

  // Between query and broadcast another top-up or a spend may happen. The rollover then conserves the wallet's
  // credit exactly when the remainder at broadcast time is the one that was queried.
  lemma ConservesIffRemainderUnchanged(queried: Grants, actual: Grants, allowance: nat)
    requires (queried.fee.NoFeeGrant? || queried.fee.Basic?) && 0 < allowance
    requires ExecuteAll(actual, Messages(queried, Remaining(queried.fee) + allowance)).Some?
    ensures var after := ExecuteAll(actual, Messages(queried, Remaining(queried.fee) + allowance)).value;
            Remaining(after.fee) == Remaining(actual.fee) + allowance <==>
              Remaining(actual.fee) == Remaining(queried.fee)
  {
    RolloverOutcome(queried, actual, Remaining(queried.fee) + allowance);
  }

  lemma {:induction false} ExistingLength(authz: set<Scope>, types: seq<Scope>)
    ensures |Existing(authz, types)| <= |types|
    ensures (exists m :: m in types && m in authz) <==> |Existing(authz, types)| > 0
  {
    if types == [] {
    } else {
      ExistingLength(authz, types[1..]);
      assert forall m :: m in types <==> m == types[0] || m in types[1..];
    }
  }

  // Six grants and the fee grant fit one unit of gas; a transaction that also revokes pays for exactly two.
  lemma TransactionFee(queried: Grants, replacement: nat)
    ensures FeeUnits(|Messages(queried, replacement)|) ==
            if queried.authz == {} && queried.fee.NoFeeGrant? then 1 else 2
  {
    ExistingLength(queried.authz, MSG_TYPES);
    if queried.authz != {} {
      var m :| m in queried.authz;
      AllTypesComplete(m);
    }
  }
}
