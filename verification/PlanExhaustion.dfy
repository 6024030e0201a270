/** A plan that a commit has exhausted stays INACTIVE, with credit.granted as the one exception. */
module PlanExhaustion {
  import opened Prelude
  import opened CreditWallet
  import opened CreditPlans

  // Everything that can happen to one document: a debit that fits, or any other update with any arguments.
  datatype DocStep = Charge(commit: Commit) | Change(update: Update)

  predicate ValidStep(step: DocStep) {
    match step
    case Charge(c) => c.Valid()
    case Change(u) => ValidUpdate(u)
  }

  function Take(p: Plan, step: DocStep): Plan {
    match step
    case Charge(c) => if Fits(p, c) then Debit(p, c) else p
    case Change(u) => ApplyUpdate(p, u)
  }

  function TakeAll(p: Plan, steps: seq<DocStep>): Plan
    decreases |steps|
  {
    if steps == [] then p else TakeAll(Take(p, steps[0]), steps[1..])
  }

  // The state a debit leaves behind when it exhausts the plan.
  predicate Exhausted(p: Plan) {
    && p.status.Inactive?
    && p.Full(ApiCredit)
    && (p.serviceType.SsiApi? ==> p.Full(BlockchainTxnCredit))
  }

  predicate IsGranted(step: DocStep) {
    step.Change? && step.update.CreditGranted?
  }

  lemma ExhaustingDebit(p: Plan, c: Commit)
    requires Fits(p, c) && c.Valid() && ExhaustedBy(Debit(p, c), c.creditType)
    ensures Exhausted(Debit(p, c))
  {
  }

  // INACTIVE with the API wallet full survives every step but credit.granted, whatever arguments a late
  // activation carries; a wallet that is full stays full and takes no further commit.
  lemma FullWalletStep(p: Plan, step: DocStep)
    requires ValidStep(step) && p.status.Inactive? && p.Full(ApiCredit) && !IsGranted(step)
    ensures Take(p, step).status.Inactive? && Take(p, step).Full(ApiCredit)
    ensures p.Full(BlockchainTxnCredit) ==> Take(p, step).Full(BlockchainTxnCredit)
  {
  }

  lemma FullWalletRefuses(p: Plan, c: Commit)
    requires c.Valid() && p.Full(c.creditType)
    ensures !Fits(p, c)
  {
  }

  lemma {:induction false} FullWalletRun(p: Plan, steps: seq<DocStep>)
    requires forall i :: 0 <= i < |steps| ==> ValidStep(steps[i]) && !IsGranted(steps[i])
    requires p.status.Inactive? && p.Full(ApiCredit)
    ensures var q := TakeAll(p, steps);
            && q.status.Inactive? && q.Full(ApiCredit)
            && (p.Full(BlockchainTxnCredit) ==> q.Full(BlockchainTxnCredit))
    decreases |steps|
  {
    if steps == [] {
    } else {
      FullWalletStep(p, steps[0]);
      FullWalletRun(Take(p, steps[0]), steps[1..]);
    }
  }

  // Over any run of commits, plan-expired events, activations, normalisations and expiry proposals, an
  // exhausted plan stays INACTIVE and refuses every further commit on the exhausted wallets.
  lemma ExhaustionIsStable(p: Plan, c: Commit, steps: seq<DocStep>, later: Commit)
    requires Fits(p, c) && c.Valid() && ExhaustedBy(Debit(p, c), c.creditType)
    requires forall i :: 0 <= i < |steps| ==> ValidStep(steps[i]) && !IsGranted(steps[i])
    requires later.Valid() && (later.creditType.ApiCredit? || p.serviceType.SsiApi?)
    ensures var q := TakeAll(Debit(p, c), steps); q.status.Inactive? && !Fits(q, later)
  {
    ExhaustingDebit(p, c);
    FullWalletRun(Debit(p, c), steps);
    FullWalletRefuses(TakeAll(Debit(p, c), steps), later);
  }

  predicate InactiveThroughout(p: Plan, steps: seq<DocStep>)
    decreases |steps|
  {
    p.status.Inactive? && (steps != [] ==> InactiveThroughout(Take(p, steps[0]), steps[1..]))
  }

  // credit.granted tests only the status. So an exhausted plan stays INACTIVE throughout a run exactly when
  // the run holds no credit.granted event for it.
  lemma {:induction false} OnlyGrantedRevives(p: Plan, steps: seq<DocStep>)
    requires p.status.Inactive? && p.Full(ApiCredit)
    requires forall i :: 0 <= i < |steps| ==> ValidStep(steps[i])
    ensures InactiveThroughout(p, steps) <==> forall i :: 0 <= i < |steps| ==> !IsGranted(steps[i])
    decreases |steps|
  {
    if steps == [] {
    } else {
      var q := Take(p, steps[0]);
      if IsGranted(steps[0]) {
        assert q.status.Active?;
        assert !InactiveThroughout(q, steps[1..]);
      } else {
        FullWalletStep(p, steps[0]);
        OnlyGrantedRevives(q, steps[1..]);
        assert forall i :: 0 <= i < |steps| ==> steps[i] == if i == 0 then steps[0] else steps[1..][i - 1];
      }
    }
  }

  // One such run: a CAVACH plan of ten credits, all used, is ACTIVE again after a late credit.granted event.
  lemma GrantedRevivesExhaustedPlan()
    ensures var p := Plan("app", CavachApi, "ref", 10, 10, None, [], Some(4), 30, At(100), Inactive, Payment, Some(1));
            Exhausted(p) && !InactiveThroughout(p, [Change(CreditGranted(100))])
  {
    var p := Plan("app", CavachApi, "ref", 10, 10, None, [], Some(4), 30, At(100), Inactive, Payment, Some(1));
    var steps := [Change(CreditGranted(100))];
    assert Take(p, steps[0]).status.Active?;
    assert !InactiveThroughout(Take(p, steps[0]), steps[1..]);
  }
}
