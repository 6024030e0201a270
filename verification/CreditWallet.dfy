/** Names of middleware wallets: src/credits/credit-wallet.ts and the command ids built from them. */
module CreditWallet {
  import opened Prelude

  datatype ServiceType = SsiApi | CavachApi | Dashboard | Quest {
    function Name(): string {
      match this
      case SsiApi => "SSI_API"
      case CavachApi => "CAVACH_API"
      case Dashboard => "DASHBOARD"
      case Quest => "QUEST"
    }
  }

  datatype CreditType = ApiCredit | BlockchainTxnCredit {
    function Name(): string {
      match this
      case ApiCredit => "API_CREDIT"
      case BlockchainTxnCredit => "BLOCKCHAIN_TXN_CREDIT"
    }

    function Suffix(): string {
      "." + Name()
    }
  }

  datatype WalletError = UnsupportedCreditType | SuffixMismatch

  // SSI keeps one middleware plan per wallet; every other service has a single wallet.
  function SdkPlanId(dashboardPlanId: string, serviceType: ServiceType, creditType: CreditType): string {
    if serviceType.SsiApi? then dashboardPlanId + creditType.Suffix() else dashboardPlanId
  }

  function SdkReferenceId(dashboardReferenceId: string, serviceType: ServiceType, creditType: CreditType): string {
    if serviceType.SsiApi? then dashboardReferenceId + creditType.Suffix() else dashboardReferenceId
  }

  predicate EndsWith(s: string, suffix: string) {
    |suffix| <= |s| && s[|s| - |suffix|..] == suffix
  }

  function ParseCreditType(name: string): Option<CreditType> {
    if name == ApiCredit.Name() then Some(ApiCredit)
    else if name == BlockchainTxnCredit.Name() then Some(BlockchainTxnCredit)
    else None
  }

  // The credit type to strip: the given one, or (absent or empty) the first known suffix of the id.
  function ResolveCreditType(middlewarePlanId: string, creditType: Option<string>): Option<CreditType> {
    if creditType.Some? && creditType.value != "" then ParseCreditType(creditType.value)
    else if EndsWith(middlewarePlanId, ApiCredit.Suffix()) then Some(ApiCredit)
    else if EndsWith(middlewarePlanId, BlockchainTxnCredit.Suffix()) then Some(BlockchainTxnCredit)
    else None
  }

  function DashboardPlanId(middlewarePlanId: string, serviceType: ServiceType, creditType: Option<string>)
    : Result<string, WalletError>
  {
    if !serviceType.SsiApi? then Ok(middlewarePlanId)
    else match ResolveCreditType(middlewarePlanId, creditType)
      case None => Err(UnsupportedCreditType)
      case Some(resolved) =>
        var suffix := resolved.Suffix();
        if EndsWith(middlewarePlanId, suffix) then Ok(middlewarePlanId[..|middlewarePlanId| - |suffix|])
        else Err(SuffixMismatch)
  }

  function GrantCommandId(serviceType: ServiceType, middlewarePlanId: string): string {
    "grant-" + serviceType.Name() + "-" + middlewarePlanId
  }

  function SettleCommandId(reservationId: string, isCommit: bool): string {
    "settle-SSI_API-" + reservationId + "-" + (if isCommit then "commit" else "rollback")
  }

  lemma SuffixTexts()
    ensures ApiCredit.Suffix() == ".API_CREDIT" && BlockchainTxnCredit.Suffix() == ".BLOCKCHAIN_TXN_CREDIT"
  {
  }

  lemma GrantCommandIdTexts(middlewarePlanId: string)
    ensures GrantCommandId(SsiApi, middlewarePlanId) == "grant-SSI_API-" + middlewarePlanId
    ensures GrantCommandId(CavachApi, middlewarePlanId) == "grant-CAVACH_API-" + middlewarePlanId
  {
    assert "grant-" + "SSI_API" + "-" == "grant-SSI_API-";
    assert "grant-" + "CAVACH_API" + "-" == "grant-CAVACH_API-";
  }

  lemma AppendedSuffix(s: string, suffix: string)
    ensures EndsWith(s + suffix, suffix)
    ensures (s + suffix)[..|s + suffix| - |suffix|] == s
  {
  }

  lemma SuffixCharacter(s: string, suffix: string, k: nat)
    requires EndsWith(s, suffix) && 0 < k <= |suffix|
    ensures s[|s| - k] == suffix[|suffix| - k]
  {
    assert s[|s| - |suffix|..][|suffix| - k] == s[|s| - k];
  }

  // Eleven characters from the end, one suffix has '.' and the other '_'.
  lemma EleventhCharacter(s: string)
    ensures EndsWith(s, ApiCredit.Suffix()) ==> s[|s| - 11] == '.'
    ensures EndsWith(s, BlockchainTxnCredit.Suffix()) ==> s[|s| - 11] == '_'
  {
    if EndsWith(s, ApiCredit.Suffix()) {
      SuffixCharacter(s, ApiCredit.Suffix(), 11);
    }
    if EndsWith(s, BlockchainTxnCredit.Suffix()) {
      SuffixCharacter(s, BlockchainTxnCredit.Suffix(), 11);
    }
  }

  lemma SuffixesExclusive(s: string)
    ensures !(EndsWith(s, ApiCredit.Suffix()) && EndsWith(s, BlockchainTxnCredit.Suffix()))
  {
    EleventhCharacter(s);
  }

  lemma CancelSuffix(p: string, q: string, suffix: string)
    requires p + suffix == q + suffix
    ensures p == q
  {
    assert p == (p + suffix)[..|p|];
    assert q == (q + suffix)[..|q|];
  }

  // Decoding inverts encoding, whether the credit type is given or inferred.
  lemma DashboardPlanIdInvertsSdkPlanId(planId: string, serviceType: ServiceType, creditType: CreditType)
    ensures var id := SdkPlanId(planId, serviceType, creditType);
            && DashboardPlanId(id, serviceType, Some(creditType.Name())) == Ok(planId)
            && DashboardPlanId(id, serviceType, None) == Ok(planId)
            && DashboardPlanId(id, serviceType, Some("")) == Ok(planId)
  {
    if serviceType.SsiApi? {
      var id, suffix := SdkPlanId(planId, serviceType, creditType), creditType.Suffix();
      assert id == planId + suffix;
      AppendedSuffix(planId, suffix);
      SuffixesExclusive(id);
    }
  }

  // Encoding inverts every successful decoding: only ids that SdkPlanId produces are accepted for SSI.
  lemma SdkPlanIdInvertsDashboardPlanId(middlewarePlanId: string, creditType: Option<string>)
    ensures DashboardPlanId(middlewarePlanId, SsiApi, creditType).Ok? <==>
            exists ct: CreditType, p: string :: middlewarePlanId == SdkPlanId(p, SsiApi, ct) &&
              (creditType.None? || creditType.value in ["", ct.Name()])
    ensures var decoded := DashboardPlanId(middlewarePlanId, SsiApi, creditType);
            decoded.Ok? ==> exists ct: CreditType :: middlewarePlanId == SdkPlanId(decoded.value, SsiApi, ct)
    ensures forall s: ServiceType ::
              !s.SsiApi? ==> DashboardPlanId(middlewarePlanId, s, creditType) == Ok(middlewarePlanId)
  {
    var decoded := DashboardPlanId(middlewarePlanId, SsiApi, creditType);
    if decoded.Ok? {
      var ct := ResolveCreditType(middlewarePlanId, creditType).value;
      var suffix := ct.Suffix();
      assert middlewarePlanId ==
        middlewarePlanId[..|middlewarePlanId| - |suffix|] + middlewarePlanId[|middlewarePlanId| - |suffix|..];
      assert middlewarePlanId == SdkPlanId(decoded.value, SsiApi, ct);
    }
    forall ct: CreditType, p: string | middlewarePlanId == SdkPlanId(p, SsiApi, ct) &&
                                       (creditType.None? || creditType.value in ["", ct.Name()])
      ensures decoded.Ok?
    {
      DashboardPlanIdInvertsSdkPlanId(p, SsiApi, ct);
    }
  }

  lemma SdkPlanIdInjective(p: string, ct: CreditType, q: string, du: CreditType, serviceType: ServiceType)
    requires SdkPlanId(p, serviceType, ct) == SdkPlanId(q, serviceType, du)
    ensures p == q
    ensures serviceType.SsiApi? ==> ct == du
  {
    if serviceType.SsiApi? {
      var x, y := ct.Suffix(), du.Suffix();
      assert p + x == SdkPlanId(p, serviceType, ct) && q + y == SdkPlanId(q, serviceType, du);
      assert ct == du by {
        AppendedSuffix(p, x);
        AppendedSuffix(q, y);
        SuffixesExclusive(p + x);
      }
      CancelSuffix(p, q, x);
    }
  }

  // Grant command ids of the two metered services never collide, nor do those of two wallets of one service.
  lemma GrantCommandIdInjective(s: ServiceType, p: string, ct: CreditType, t: ServiceType, q: string, du: CreditType)
    requires s in {SsiApi, CavachApi} && t in {SsiApi, CavachApi}
    requires GrantCommandId(s, SdkPlanId(p, s, ct)) == GrantCommandId(t, SdkPlanId(q, t, du))
    ensures s == t && p == q
    ensures s.SsiApi? ==> ct == du
  {
    var a, b := SdkPlanId(p, s, ct), SdkPlanId(q, t, du);
    assert GrantCommandId(s, a)[6] == s.Name()[0];
    assert GrantCommandId(t, b)[6] == t.Name()[0];
    assert s == t;
    var head := "grant-" + s.Name() + "-";
    assert a == GrantCommandId(s, a)[|head|..] == GrantCommandId(t, b)[|head|..] == b;
    SdkPlanIdInjective(p, ct, q, du, s);
  }

  lemma SettleCommandIdInjective(r: string, isCommit: bool, r': string, isCommit': bool)
    requires SettleCommandId(r, isCommit) == SettleCommandId(r', isCommit')
    ensures r == r' && isCommit == isCommit'
  {
    var id, id' := SettleCommandId(r, isCommit), SettleCommandId(r', isCommit');
    assert id[|id| - 1] == if isCommit then 't' else 'k';
    assert id'[|id'| - 1] == if isCommit' then 't' else 'k';
    var tail := if isCommit then "commit" else "rollback";
    assert r == id[15..|id| - |tail| - 1] == id'[15..|id'| - |tail| - 1] == r';
  }
}
