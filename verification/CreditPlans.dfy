/**
 Credit plan documents and what one atomic update does to one document.
 Every function here is evaluated by the database against the latest document;
 callers only supply arguments, which may come from a snapshot that is out of date.
 */
module CreditPlans {
  import opened Prelude
  import opened CreditWallet

  type PlanId = string
  type AppId = string
  type EventId = string

  datatype PlanStatus = Active | Inactive

  datatype CreditSource = ManualRecharge | CustomerOnboarding | Migration | Payment | Adjustment

  datatype Scope =
    | MsgRegisterDid | MsgUpdateDid | MsgDeactivateDid
    | MsgRegisterCredentialSchema | MsgRegisterCredentialStatus | MsgUpdateCredentialStatus

  // A date field may be missing, stored as null, or set.
  datatype Expiry = Missing | NullDate | At(time: int)

  datatype Allowance = Allowance(amount: int, usedAmount: int)

  // criticalBalance is None when the stored value is not an integer, createdAt when there is none (documents of older
  // releases).
  datatype Plan = Plan(
    serviceId: AppId,
    serviceType: ServiceType,
    referenceId: string,
    total: int,
    used: int,
    allowance: Option<Allowance>,
    scopes: seq<Scope>,
    criticalBalance: Option<int>,
    validityDays: int,
    expiresAt: Expiry,
    status: PlanStatus,
    source: CreditSource,
    createdAt: Option<int>)
  {
    function Used(creditType: CreditType): int {
      match creditType
      case ApiCredit => used
      case BlockchainTxnCredit => if allowance.Some? then allowance.value.usedAmount else 0
    }

    // None when the wallet does not exist on this plan.
    function Total(creditType: CreditType): Option<int> {
      match creditType
      case ApiCredit => Some(total)
      case BlockchainTxnCredit => if allowance.Some? then Some(allowance.value.amount) else None
    }

    predicate Full(creditType: CreditType) {
      Total(creditType) == Some(Used(creditType))
    }

    predicate HasRoom(creditType: CreditType) {
      Total(creditType).Some? && Used(creditType) < Total(creditType).value
    }

    function WithUsed(creditType: CreditType, newUsed: int): Plan
      requires Total(creditType).Some?
    {
      match creditType
      case ApiCredit => this.(used := newUsed)
      case BlockchainTxnCredit => this.(allowance := Some(allowance.value.(usedAmount := newUsed)))
    }

    // 0 <= used <= total in every wallet that exists.
    predicate InBounds() {
      forall ct: CreditType :: Total(ct).Some? ==> 0 <= Used(ct) <= Total(ct).value
    }
  }

  type Plans = map<PlanId, Plan>

  // A validated COMMITTED event: which wallet of which plan is charged, and how much.
  datatype Commit = Commit(appId: AppId, planId: PlanId, serviceType: ServiceType, creditType: CreditType,
    amount: int) {
    // What envelope validation guarantees before the event reaches the repository.
    predicate Valid() {
      && 0 < amount <= MAX_SAFE_INTEGER
      && (serviceType.CavachApi? || serviceType.SsiApi?)
      && (serviceType.CavachApi? ==> creditType.ApiCredit?)
    }
  }

  // The filter of the debit: right service, and the wallet still has room for the amount.
  predicate Fits(p: Plan, c: Commit) {
    && p.serviceId == c.appId
    && p.serviceType == c.serviceType
    && p.Total(c.creditType).Some?
    && p.Used(c.creditType) + c.amount <= p.Total(c.creditType).value
  }

  // Exhausted: both wallets full for SSI, the charged wallet full otherwise.
  predicate ExhaustedBy(p: Plan, creditType: CreditType) {
    if p.serviceType.SsiApi? then p.Full(ApiCredit) && p.Full(BlockchainTxnCredit) else p.Full(creditType)
  }

  function Debit(p: Plan, c: Commit): (r: Plan)
    requires Fits(p, c)
  {
    var charged := p.WithUsed(c.creditType, p.Used(c.creditType) + c.amount);
    if ExhaustedBy(charged, c.creditType) then charged.(status := Inactive) else charged
  }

  // Updates of one plan document other than a debit; each carries its arguments, `now` being the server clock.
  datatype Update =
    | PlanExpired
    | CreditGranted(expiresAt: int)
    | NormalizeCriticalBalance(criticalBalance: int, serviceType: ServiceType)
    | ProposeExpiry(proposed: int)
    | ActivateSsi(
        now: int, expiresAt: int, criticalBalance: int,
        newAllowance: Option<int>, newScopes: Option<seq<Scope>>)

  // The filter of the update, besides _id and serviceId.
  predicate Matches(p: Plan, u: Update) {
    match u
    case PlanExpired => p.status.Active?
    case CreditGranted(_) => p.status.Inactive?
    case NormalizeCriticalBalance(_, _) => true
    case ProposeExpiry(_) => !p.expiresAt.At?
    case ActivateSsi(_, _, _, _, _) => true
  }

  function Activated(p: Plan, u: Update): Plan
    requires u.ActivateSsi?
  {
    var q := p.(
      serviceType := SsiApi,
      expiresAt := At(u.expiresAt),
      criticalBalance := Some(u.criticalBalance),
      allowance :=
        if p.allowance.None? && u.newAllowance.Some? then Some(Allowance(u.newAllowance.value, 0)) else p.allowance,
      scopes := if u.newScopes.Some? && |p.scopes| == 0 then u.newScopes.value else p.scopes);
    var usable := u.now < u.expiresAt && q.HasRoom(ApiCredit) && q.HasRoom(BlockchainTxnCredit);
    q.(status := if usable then Active else Inactive)
  }

  function ApplyUpdate(p: Plan, u: Update): Plan {
    if !Matches(p, u) then p
    else match u
      case PlanExpired => p.(status := Inactive)
      case CreditGranted(expiresAt) => p.(status := Active, expiresAt := At(expiresAt))
      case NormalizeCriticalBalance(cb, serviceType) => p.(criticalBalance := Some(cb), serviceType := serviceType)
      case ProposeExpiry(proposed) => p.(expiresAt := At(proposed))
      case ActivateSsi(_, _, _, _, _) => Activated(p, u)
  }

  // findOneAndUpdate on { _id, serviceId, ...filter }: no match leaves the collection alone.
  function UpdatePlan(plans: Plans, id: PlanId, appId: AppId, u: Update): Plans {
    if id in plans && plans[id].serviceId == appId && Matches(plans[id], u)
    then plans[id := ApplyUpdate(plans[id], u)]
    else plans
  }

  // The newly granted allowance of an activation is never negative (it is checked to be a positive safe integer).
  predicate ValidUpdate(u: Update) {
    u.ActivateSsi? && u.newAllowance.Some? ==> u.newAllowance.value >= 0
  }

  predicate ValidNewPlan(p: Plan) {
    p.total > 0 && p.used == 0 &&
      (p.allowance.Some? ==> p.allowance.value.amount >= 0 && p.allowance.value.usedAmount == 0)
  }

  function UsedBy(plans: Plans, id: PlanId, creditType: CreditType): int {
    if id in plans then plans[id].Used(creditType) else 0
  }

  predicate AllInBounds(plans: Plans) {
    forall id :: id in plans ==> plans[id].InBounds()
  }

  lemma DebitChargesOneWallet(p: Plan, c: Commit)
    requires Fits(p, c)
    ensures forall ct: CreditType :: Debit(p, c).Used(ct) == p.Used(ct) + if ct == c.creditType then c.amount else 0
    ensures forall ct: CreditType :: Debit(p, c).Total(ct) == p.Total(ct)
    ensures p.InBounds() && c.amount > 0 ==> Debit(p, c).InBounds()
  {
  }

  // A debit fits exactly if the plan is the application's and of that service, has the wallet, and the wallet has room.
  lemma FitsIff(p: Plan, c: Commit)
    ensures Fits(p, c) <==>
            && p.serviceId == c.appId && p.serviceType == c.serviceType
            && match c.creditType
               case ApiCredit => p.used + c.amount <= p.total
               case BlockchainTxnCredit =>
                 p.allowance.Some? && p.allowance.value.usedAmount + c.amount <= p.allowance.value.amount
  {
  }

  // A debit writes the charged counter and the status, and the status only to exhaust the plan: an SSI plan with its
  // last credit in both wallets, any other plan with the last credit of the charged wallet.
  lemma DebitExhausts(p: Plan, c: Commit)
    requires Fits(p, c)
    ensures var q := Debit(p, c);
            && q == p.(used := q.used, allowance := q.allowance, status := q.status)
            && (c.creditType.ApiCredit? ==> q.used == p.used + c.amount && q.allowance == p.allowance)
            && (c.creditType.BlockchainTxnCredit? ==>
                  && q.used == p.used && p.allowance.Some?
                  && q.allowance == Some(Allowance(p.allowance.value.amount, p.allowance.value.usedAmount + c.amount)))
    ensures var q := Debit(p, c);
            p.serviceType.SsiApi? ==>
              (q.status.Inactive? <==>
                || p.status.Inactive?
                || (q.used == q.total && q.allowance.Some? && q.allowance.value.usedAmount == q.allowance.value.amount))
    ensures !p.serviceType.SsiApi? && c.creditType.ApiCredit? ==>
              (Debit(p, c).status.Inactive? <==> p.status.Inactive? || p.used + c.amount == p.total)
    ensures !p.serviceType.SsiApi? && c.creditType.BlockchainTxnCredit? ==>
              (Debit(p, c).status.Inactive? <==>
                p.status.Inactive? || p.allowance.value.usedAmount + c.amount == p.allowance.value.amount)
  {
  }

  // A late activation write, whatever its arguments, charges nothing, refunds nothing, keeps an allowance
  // and scopes that are already set, and is ACTIVE exactly when the latest document is unexpired with room
  // in both wallets.
  lemma ActivationRespectsLatestDocument(p: Plan, u: Update)
    requires u.ActivateSsi?
    ensures forall ct: CreditType :: ApplyUpdate(p, u).Used(ct) == p.Used(ct)
    ensures p.allowance.Some? ==> ApplyUpdate(p, u).allowance == p.allowance
    ensures |p.scopes| > 0 ==> ApplyUpdate(p, u).scopes == p.scopes
    ensures var q := ApplyUpdate(p, u);
            q.status.Active? <==>
            && q.expiresAt.At? && u.now < q.expiresAt.time
            && q.used < q.total
            && q.allowance.Some? && q.allowance.value.usedAmount < q.allowance.value.amount
  {
  }

  // No update other than a debit moves a used counter, and none takes a wallet out of bounds.
  lemma UpdateKeepsUsage(p: Plan, u: Update)
    ensures forall ct: CreditType :: ApplyUpdate(p, u).Used(ct) == p.Used(ct)
    ensures p.InBounds() && ValidUpdate(u) ==> ApplyUpdate(p, u).InBounds()
  {
  }
}
