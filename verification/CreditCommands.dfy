/** Commands to the credit middleware: src/credits/services/credit-command.service.ts. */
module CreditCommands {
  import opened Prelude
  import opened CreditWallet
  import opened CreditPlans

  // White space in the sense of String.prototype.trim.
  predicate IsSpace(c: char) {
    || c in {' ', '\t', '\n', '\r', '\U{0B}', '\U{0C}', '\U{A0}', '\U{1680}', '\U{2028}', '\U{2029}', '\U{202F}'}
    || c in {'\U{205F}', '\U{3000}', '\U{FEFF}'}
    || '\U{2000}' <= c <= '\U{200A}'
  }

  function TrimStart(s: string): string {
    if s != "" && IsSpace(s[0]) then TrimStart(s[1..]) else s
  }

  function TrimEnd(s: string): string {
    if s != "" && IsSpace(s[|s| - 1]) then TrimEnd(s[..|s| - 1]) else s
  }

  function Trim(s: string): string {
    TrimEnd(TrimStart(s))
  }

  // Math.floor(n * 0.4) for the integers credit totals range over.
  function FourTenths(n: int): (r: int)
    ensures 5 * r <= 2 * n < 5 * r + 5
  {
    2 * n / 5
  }

  function ResolveCriticalBalance(p: Plan): (r: int)
    ensures p.criticalBalance.Some? && 0 <= p.criticalBalance.value <= MAX_SAFE_INTEGER ==> Some(r) == p.criticalBalance
    ensures Some(r) == p.criticalBalance || 5 * r <= 2 * p.total < 5 * r + 5
    ensures p.total >= 0 ==> r >= 0
  {
    if p.criticalBalance.Some? && IsSafeInteger(p.criticalBalance.value) && p.criticalBalance.value >= 0
    then p.criticalBalance.value
    else FourTenths(p.total)
  }

  lemma {:induction false} TrimStartStrips(s: string)
    ensures var n := |s| - |TrimStart(s)|;
            && 0 <= n && TrimStart(s) == s[n..]
            && (forall k :: 0 <= k < n ==> IsSpace(s[k]))
            && (n < |s| ==> !IsSpace(s[n]))
    decreases |s|
  {
    if s != "" && IsSpace(s[0]) {
      TrimStartStrips(s[1..]);
      assert forall k :: 0 < k < |s| ==> s[k] == s[1..][k - 1];
    }
  }

  lemma {:induction false} TrimEndIsPrefix(s: string)
    ensures var m := |TrimEnd(s)|; m <= |s| && TrimEnd(s) == s[..m] && (0 < m ==> !IsSpace(s[m - 1]))
    decreases |s|
  {
    if s != "" && IsSpace(s[|s| - 1]) {
      TrimEndIsPrefix(s[..|s| - 1]);
    }
  }

  lemma {:induction false} TrimEndStrips(s: string, k: nat)
    requires |TrimEnd(s)| <= k < |s|
    ensures IsSpace(s[k])
    decreases |s|
  {
    if k < |s| - 1 {
      TrimEndStrips(s[..|s| - 1], k);
    }
  }

  // Trimming removes exactly the white space at both ends: s[n..m] is left.
  lemma TrimStrips(s: string) returns (n: nat, m: nat)
    ensures n <= m <= |s| && Trim(s) == s[n..m]
    ensures forall k :: 0 <= k < n || m <= k < |s| ==> IsSpace(s[k])
    ensures n < m ==> !IsSpace(s[n]) && !IsSpace(s[m - 1])
  {
    var t := TrimStart(s);
    TrimStartStrips(s);
    TrimEndIsPrefix(t);
    n := |s| - |t|;
    m := n + |Trim(s)|;
    assert Trim(s) == t[..|Trim(s)|] == s[n..m];
    forall k | m <= k < |s| ensures IsSpace(s[k]) {
      assert s[k] == t[k - n];
      TrimEndStrips(t, k - n);
    }
  }

  datatype CommandError =
    | NotActive | UnsupportedService | MissingId | NoBalance | BadCriticalBalance | MissingReference
    | BadCreationTime | BadExpiry | NoAllowanceBalance | MissingSettlementId | QueueFailure

  datatype WalletGrant = WalletGrant(creditType: CreditType, amount: int, criticalBalance: int)

  datatype GrantCommand = GrantCommand(
    commandId: string, appId: AppId, serviceType: ServiceType, creditType: CreditType, planId: string,
    amount: int, criticalBalance: int, grantedAt: int, expiresAt: int, referenceId: string)

  // SSI grants repeat the original totals, so that a retry says the same again; other services grant the remainder.
  function WalletGrants(p: Plan, criticalBalance: int, service: ServiceType): Result<seq<WalletGrant>, CommandError> {
    if service.CavachApi? then Ok([WalletGrant(ApiCredit, p.total - p.used, criticalBalance)])
    else if
      p.allowance.None? ||
      !(0 < p.allowance.value.amount - p.allowance.value.usedAmount <= MAX_SAFE_INTEGER)
    then Err(NoAllowanceBalance)
    else
      Ok([WalletGrant(ApiCredit, p.total, criticalBalance),
          WalletGrant(BlockchainTxnCredit, p.allowance.value.amount, FourTenths(p.allowance.value.amount))])
  }

  // The time of the grant: that of the plan's creation, or of this call if the plan does not tell.
  function GrantedAt(p: Plan, now: int): int {
    if p.createdAt.Some? then p.createdAt.value else now
  }

  function Command(id: PlanId, p: Plan, service: ServiceType, w: WalletGrant, now: int): GrantCommand {
    var middlewarePlanId := SdkPlanId(id, service, w.creditType);
    GrantCommand(
      GrantCommandId(service, middlewarePlanId), p.serviceId, service, w.creditType, middlewarePlanId,
      w.amount, w.criticalBalance, GrantedAt(p, now), if p.expiresAt.At? then p.expiresAt.time else 0,
      SdkReferenceId(Trim(p.referenceId), service, w.creditType))
  }

  function CommandsFor(id: PlanId, p: Plan, service: ServiceType, wallets: seq<WalletGrant>,
      now: int): seq<GrantCommand> {
    seq(|wallets|, i requires 0 <= i < |wallets| => Command(id, p, service, wallets[i], now))
  }

  function GrantError(id: PlanId, p: Plan, service: ServiceType, now: int): Option<CommandError> {
    if !p.status.Active? then Some(NotActive)
    else if !service.CavachApi? && !service.SsiApi? then Some(UnsupportedService)
    else if id == "" then Some(MissingId)
    else if !(0 < p.total <= MAX_SAFE_INTEGER && 0 <= p.used < p.total) then Some(NoBalance)
    else if p.criticalBalance.None? || !(0 <= p.criticalBalance.value <= MAX_SAFE_INTEGER) then Some(BadCriticalBalance)
    else if Trim(p.referenceId) == "" then Some(MissingReference)
    else if !(0 < GrantedAt(p, now) <= MAX_SAFE_INTEGER) then Some(BadCreationTime)
    else if !p.expiresAt.At? || !(GrantedAt(p, now) < p.expiresAt.time <= MAX_SAFE_INTEGER) then Some(BadExpiry)
    else None
  }

  // The commands grantCreditPlan enqueues for a plan document, in order, or the error it throws before any.
  function GrantCommands(id: PlanId, p: Plan, service: ServiceType, now: int): Result<seq<GrantCommand>, CommandError> {
    match GrantError(id, p, service, now)
    case Some(e) => Err(e)
    case None =>
      match WalletGrants(p, p.criticalBalance.value, service)
      case Err(e) => Err(e)
      case Ok(wallets) => Ok(CommandsFor(id, p, service, wallets, now))
  }

  // What a document must be like to be granted.
  predicate Grantable(id: PlanId, p: Plan, service: ServiceType, now: int) {
    var grantedAt := if p.createdAt.Some? then p.createdAt.value else now;
    && p.status == Active && service in {SsiApi, CavachApi} && id != ""
    && 0 <= p.used < p.total <= MAX_SAFE_INTEGER
    && p.criticalBalance.Some? && 0 <= p.criticalBalance.value <= MAX_SAFE_INTEGER
    && Trim(p.referenceId) != ""
    && p.expiresAt.At? && 0 < grantedAt < p.expiresAt.time <= MAX_SAFE_INTEGER
    && (service.SsiApi? ==>
          p.allowance.Some? && 0 < p.allowance.value.amount - p.allowance.value.usedAmount <= MAX_SAFE_INTEGER)
  }

  // What a command must tell the middleware about the document: for SSI the totals of its two wallets, for CAVACH
  // what is left of its one.
  ghost predicate Conveys(c: GrantCommand, id: PlanId, p: Plan, service: ServiceType, now: int) {
    && c.appId == p.serviceId && c.serviceType == service
    && c.grantedAt == (if p.createdAt.Some? then p.createdAt.value else now)
    && p.expiresAt == At(c.expiresAt)
    && match (service, c.creditType)
       case (SsiApi, ApiCredit) =>
         && c.commandId == "grant-SSI_API-" + c.planId && c.planId == id + ".API_CREDIT"
         && c.referenceId == Trim(p.referenceId) + ".API_CREDIT"
         && c.amount == p.total && p.criticalBalance == Some(c.criticalBalance)
       case (SsiApi, BlockchainTxnCredit) =>
         && c.commandId == "grant-SSI_API-" + c.planId && c.planId == id + ".BLOCKCHAIN_TXN_CREDIT"
         && c.referenceId == Trim(p.referenceId) + ".BLOCKCHAIN_TXN_CREDIT"
         && p.allowance.Some? && c.amount == p.allowance.value.amount
         && 5 * c.criticalBalance <= 2 * c.amount < 5 * c.criticalBalance + 5
       case (CavachApi, ApiCredit) =>
         && c.commandId == "grant-CAVACH_API-" + c.planId && c.planId == id
         && c.referenceId == Trim(p.referenceId)
         && c.amount == p.total - p.used && p.criticalBalance == Some(c.criticalBalance)
       case _ => false
  }

  // One command for each wallet, the API wallet first, as far as the queue takes them; none for a document that
  // cannot be granted.
  ghost predicate Enqueues(before: seq<GrantCommand>, after: seq<GrantCommand>, capacity: nat, id: PlanId, p: Plan,
      service: ServiceType, now: int, ok: bool) {
    var wallets := if service.SsiApi? then 2 else 1;
    && (ok <==> Grantable(id, p, service, now) && wallets <= capacity)
    && before <= after
    && |after| == |before| + (if !Grantable(id, p, service, now) then 0
                              else if capacity < wallets then capacity else wallets)
    && (forall k :: |before| <= k < |after| ==>
          && Conveys(after[k], id, p, service, now)
          && (after[k].creditType.ApiCredit? <==> k == |before|))
  }

  lemma CommandConveys(id: PlanId, p: Plan, service: ServiceType, w: WalletGrant, now: int)
    requires p.expiresAt.At? && p.criticalBalance.Some?
    requires WalletGrants(p, p.criticalBalance.value, service).Ok?
    requires w in WalletGrants(p, p.criticalBalance.value, service).value
    requires service in {SsiApi, CavachApi}
    ensures Conveys(Command(id, p, service, w, now), id, p, service, now)
  {
    SuffixTexts();
    GrantCommandIdTexts(SdkPlanId(id, service, w.creditType));
  }

  lemma GrantableIff(id: PlanId, p: Plan, service: ServiceType, now: int)
    ensures GrantCommands(id, p, service, now).Ok? <==> Grantable(id, p, service, now)
  {
  }

  // The commands of a document say what they must say, one for each wallet.
  lemma CommandsConvey(id: PlanId, p: Plan, service: ServiceType, now: int)
    requires GrantCommands(id, p, service, now).Ok?
    ensures var commands := GrantCommands(id, p, service, now).value;
            && |commands| == (if service.SsiApi? then 2 else 1)
            && (forall i :: 0 <= i < |commands| ==>
                  && Conveys(commands[i], id, p, service, now)
                  && (commands[i].creditType.ApiCredit? <==> i == 0))
  {
    var commands, wallets := GrantCommands(id, p, service, now).value,
      WalletGrants(p, p.criticalBalance.value, service).value;
    forall i | 0 <= i < |commands| ensures Conveys(commands[i], id, p, service, now) {
      CommandConveys(id, p, service, wallets[i], now);
    }
  }

  // A command tells its wallet: its plan id decodes to the plan, and two commands of whatever documents have one
  // command id if and only if they are for one service, one plan and, for SSI, one credit type.
  lemma ConveyedWallet(c: GrantCommand, id: PlanId, p: Plan, s: ServiceType, now: int)
    requires Conveys(c, id, p, s, now)
    ensures c.planId == SdkPlanId(id, s, c.creditType) && c.commandId == GrantCommandId(s, c.planId)
    ensures DashboardPlanId(c.planId, s, Some(c.creditType.Name())) == Ok(id)
    ensures DashboardPlanId(c.planId, s, None) == Ok(id)
  {
    SuffixTexts();
    GrantCommandIdTexts(c.planId);
    DashboardPlanIdInvertsSdkPlanId(id, s, c.creditType);
  }

  lemma CommandIdIff(c: GrantCommand, id: PlanId, p: Plan, s: ServiceType, now: int,
      d: GrantCommand, other: PlanId, q: Plan, t: ServiceType, then_: int)
    requires Conveys(c, id, p, s, now) && Conveys(d, other, q, t, then_)
    ensures c.commandId == d.commandId <==>
              s == t && id == other && (s.SsiApi? ==> c.creditType == d.creditType)
  {
    ConveyedWallet(c, id, p, s, now);
    ConveyedWallet(d, other, q, t, then_);
    if c.commandId == d.commandId {
      GrantCommandIdInjective(s, id, c.creditType, t, other, d.creditType);
    }
  }

  // The command queue of one service; the first `capacity` further additions succeed, the next one fails.
  class CommandQueue<T> {
    var jobs: seq<T>
    var capacity: nat

    constructor (capacity: nat)
      ensures jobs == [] && this.capacity == capacity
    {
      this.jobs := [];
      this.capacity := capacity;
    }

    method Add(job: T) returns (ok: bool)
      modifies this
      ensures ok <==> old(capacity) > 0
      ensures jobs == if ok then old(jobs) + [job] else old(jobs)
      ensures capacity == if ok then old(capacity) - 1 else 0
    {
      ok := capacity > 0;
      if ok {
        jobs := jobs + [job];
        capacity := capacity - 1;
      }
    }
  }

  lemma CommandsUpTo(id: PlanId, p: Plan, service: ServiceType, wallets: seq<WalletGrant>, now: int, i: nat)
    requires i < |wallets|
    ensures var commands := CommandsFor(id, p, service, wallets, now);
            commands[..i + 1] == commands[..i] + [Command(id, p, service, wallets[i], now)]
  {
  }

  // Validates, then enqueues one command per wallet. A failing queue leaves a prefix published.
  method GrantCreditPlan(queue: CommandQueue<GrantCommand>, id: PlanId, p: Plan, service: ServiceType, now: int)
    returns (r: Result<nat, CommandError>)
    modifies queue
    ensures GrantCommands(id, p, service, now).Err? ==>
              r == Err(GrantCommands(id, p, service, now).error) && queue.jobs == old(queue.jobs)
    ensures GrantCommands(id, p, service, now).Ok? ==>
              var commands := GrantCommands(id, p, service, now).value;
              if old(queue.capacity) >= |commands|
              then r == Ok(|commands|) && queue.jobs == old(queue.jobs) + commands
              else r == Err(QueueFailure) && queue.jobs == old(queue.jobs) + commands[..old(queue.capacity)]
    ensures Enqueues(old(queue.jobs), queue.jobs, old(queue.capacity), id, p, service, now, r.Ok?)
  {
    GrantableIff(id, p, service, now);
    if Grantable(id, p, service, now) {
      CommandsConvey(id, p, service, now);
    }
    var error := GrantError(id, p, service, now);
    if error.Some? {
      return Err(error.value);
    }
    var wallets := WalletGrants(p, p.criticalBalance.value, service);
    if wallets.Err? {
      return Err(wallets.error);
    }
    ghost var commands := CommandsFor(id, p, service, wallets.value, now);
    for i := 0 to |wallets.value|
      invariant queue.jobs == old(queue.jobs) + commands[..i]
      invariant queue.capacity == old(queue.capacity) - i
    {
      CommandsUpTo(id, p, service, wallets.value, now, i);
      var ok := queue.Add(Command(id, p, service, wallets.value[i], now));
      if !ok {
        return Err(QueueFailure);
      }
    }
    r := Ok(|wallets.value|);
  }
}
