/** Alice's funding window: a funding request is open only while she waits for her own
    Monero payment, and every message that ends one follows a request still open. */
module FundingWindow {
  import opened Types
  import opened SwapWallet
  import opened SwapRuntime
  import opened SwapState
  import opened History
  import opened Invariants
  import opened Stages

  ghost predicate StoredEnquirers(log: seq<Entry>) {
    forall e :: e in log && Stores(e) ==> e.send.checkpoint.enquirer.Some?
  }

  /** Whether funding can be awaited in a state, by role. */
  ghost predicate MayAwait(role: SwapRole, s: SwapStateMachine, log: seq<Entry>) {
    if role == Alice then s.AliceArbitratingLockFinal? && FundingOpen(log)
    else s.BobFeeEstimated? || s.BobAbortAwaitingBitcoinSweep? || s.EndsIn(FailureAbort)
  }

  /** Everybody who got past the start knows whom to ask for funds. */
  predicate Asked(s: SwapStateMachine, enquirer: Option<ServiceId>) {
    s.StartTaker? || s.StartMaker? || s.EndsIn(FailureAbort) || enquirer.Some?
  }

  ghost predicate FundingPart(x: Swap, rt: Rt) {
    && FundingPaired(rt.log)
    && StoredEnquirers(rt.log)
    && (rt.syncer.awaitingFunding ==> MayAwait(x.RoleOf(rt.tradeRole), rt.ssm, rt.log))
    && Asked(rt.ssm, rt.enquirer)
  }

  ghost predicate StepFunds(role: SwapRole, rt: Rt, step: Step) {
    var s := if step.Goto? then step.next else rt.ssm;
    && FundingPaired(step.rt.log)
    && (step.rt.syncer.awaitingFunding ==> MayAwait(role, s, step.rt.log))
    && Asked(s, step.rt.enquirer)
  }

  // ----- tails -----

  lemma {:induction false} TailFunds(a: seq<Entry>, b: seq<Entry>, kinds: set<Kind>)
    requires Tail(a, b, kinds) && Fund !in kinds && FundingPaired(a)
    ensures FundingPaired(b) && FundingOpen(b) == FundingOpen(a)
    decreases |b|
  {
    hide FundingOpen, FundingPaired;
    if |b| == |a| {
      assert a == b;
    } else {
      var c, e := b[..|b| - 1], b[|b| - 1];
      assert b == c + [e];
      TailFunds(a, c, kinds);
      Append(c, e);
    }
  }

  // ----- the one state that asks -----

  lemma AliceFollowsFunds(rt: Rt, s: SwapStateMachine, id: TaskId, hash: Txid, amount: nat)
    requires s.AliceArbitratingLockFinal? && FundingPaired(rt.log)
      && (rt.syncer.awaitingFunding ==> FundingOpen(rt.log))
    ensures FundingPaired(AliceSeesFunding(rt, s, id, hash, amount).rt.log)
    ensures !AliceSeesFunding(rt, s, id, hash, amount).rt.syncer.awaitingFunding
  {
    hide Framed, Unasked, FundingPaired, FundingOpen;
    var step := AliceSeesFunding(rt, s, id, hash, amount);
    if rt.syncer.awaitingFunding {
      Append(rt.log, Out(FundingCompleted(Monero)));
      TailFunds(rt.log + [Out(FundingCompleted(Monero))], step.rt.log, {});
    } else {
      TailFunds(rt.log, step.rt.log, {});
    }
  }

  lemma AliceInterruptFunds(rt: Rt, w: Wallet, msg: BusMsg)
    requires FundingPaired(rt.log) && (rt.syncer.awaitingFunding ==> FundingOpen(rt.log))
    ensures var step := HandleAliceSwapInterruptAfterLock(rt, w, msg);
      && FundingPaired(step.rt.log)
      && (step.rt.syncer.awaitingFunding ==> !step.Goto? && FundingOpen(step.rt.log))
  {
    var step := HandleAliceSwapInterruptAfterLock(rt, w, msg);
    if step.Goto? {
      if rt.syncer.awaitingFunding { Append(rt.log, Out(FundingCanceled(Monero))); }
    } else {
      TailFunds(rt.log, step.rt.log, {Publish});
    }
  }

  lemma AliceAsks(x: Swap, rt: Rt, msg: BusMsg)
    requires rt.ssm.AliceArbitratingLockFinal? && rt.ssm.fundingInfo.MoneroFunding? && rt.enquirer.Some?
    requires FundingPaired(rt.log) && (rt.syncer.awaitingFunding ==> FundingOpen(rt.log))
    requires msg.Sync? && msg.event.Empty?
    ensures StepFunds(Alice, rt, TryAliceArbitratingLockFinalToAliceAccordantLock(x, rt, rt.ssm, msg))
  {
    hide FundingPaired, FundingOpen, AliceSeesFunding, HandleAliceSwapInterruptAfterLock;
    Append(rt.log, Out(ToEnquirer(rt.enquirer.value, rt.ssm.fundingInfo)));
  }

  lemma AliceWaitsFunds(x: Swap, rt: Rt, msg: BusMsg)
    requires rt.ssm.AliceArbitratingLockFinal? && rt.ssm.fundingInfo.MoneroFunding? && rt.enquirer.Some?
    requires FundingPaired(rt.log) && (rt.syncer.awaitingFunding ==> FundingOpen(rt.log))
    ensures StepFunds(Alice, rt, TryAliceArbitratingLockFinalToAliceAccordantLock(x, rt, rt.ssm, msg))
  {
    hide StepFunds, FundingPaired, TryAliceArbitratingLockFinalToAliceAccordantLock;
    if msg.Sync? && msg.event.Empty? {
      AliceAsks(x, rt, msg);
    } else {
      AliceAnswersFunds(x, rt, msg);
    }
  }

  lemma AliceAnswersFunds(x: Swap, rt: Rt, msg: BusMsg)
    requires rt.ssm.AliceArbitratingLockFinal? && rt.enquirer.Some?
    requires FundingPaired(rt.log) && (rt.syncer.awaitingFunding ==> FundingOpen(rt.log))
    requires !(msg.Sync? && msg.event.Empty?)
    ensures StepFunds(Alice, rt, TryAliceArbitratingLockFinalToAliceAccordantLock(x, rt, rt.ssm, msg))
  {
    hide FundingPaired, FundingOpen, AliceSeesFunding, HandleAliceSwapInterruptAfterLock, Framed, Unasked,
      Undisturbed, Tail;
    AliceInterruptFunds(rt, rt.ssm.wallet, msg);
    if msg.Sync? && msg.event.AddressTransaction? {
      AliceFollowsFunds(rt, rt.ssm, msg.event.id, msg.event.hash, msg.event.amount);
    } else if msg.Sync? && msg.event.TransactionConfirmations? && rt.syncer.awaitingFunding {
      Append(rt.log, Out(FundingCanceled(Monero)));
    }
  }

  // ----- every step -----

  /** Outside that state nobody asks Alice for funds, and nobody needs to call it off. */
  lemma PlainFunds(x: Swap, rt: Rt, role: SwapRole, msg: BusMsg)
    requires FundingPaired(rt.log) && Asked(rt.ssm, rt.enquirer)
    requires rt.syncer.awaitingFunding ==> MayAwait(role, rt.ssm, rt.log)
    requires !rt.ssm.AliceArbitratingLockFinal? && (rt.ssm.BobReveal? ==> role == Bob)
    ensures StepFunds(role, rt, Next(x, rt, msg))
  {
    hide Next, FundingPaired;
    NextProceeds(x, rt, msg);
    TailFunds(rt.log, Next(x, rt, msg).rt.log, KindsOf(rt));
  }

  lemma NextFunds(env: Env, x: Swap, rt: Rt, msg: BusMsg)
    requires FundingPart(x, rt) && StageOk(env, x, x.RoleOf(rt.tradeRole), rt.ssm)
    ensures StepFunds(x.RoleOf(rt.tradeRole), rt, Next(x, rt, msg))
  {
    hide StepFunds, FundingPaired, TryAliceArbitratingLockFinalToAliceAccordantLock;
    if rt.ssm.AliceArbitratingLockFinal? {
      AliceWaitsFunds(x, rt, msg);
    } else {
      PlainFunds(x, rt, x.RoleOf(rt.tradeRole), msg);
    }
  }
}
