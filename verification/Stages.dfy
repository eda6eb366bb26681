/** The wallet stage: which wallet a state owns and how far it has got. With it the
    branches for a wallet at the wrong stage are out of reach. */
module Stages {
  import opened Types
  import opened SwapWallet
  import opened SwapRuntime
  import opened SwapState
  import opened Invariants

  ghost predicate SameParams(w: Wallet, local: Params, remote: Params) {
    w.localParams == local && w.remoteParams == Some(remote)
  }

  ghost predicate SignedFits(env: Env, w: Wallet) {
    w.coreArbSetup.Some? && SetupFits(env, w.coreArbSetup.value)
  }

  ghost predicate StageOk(env: Env, x: Swap, role: SwapRole, s: SwapStateMachine) {
    match s
    case StartTaker(r) => r == role && x.deal.makerRole == role.Other()
    case StartMaker(r) => r == role && x.deal.makerRole == role
    case BobInitTaker(l, w) => role == Bob && AwaitsCommit(w, Bob) && w.localParams == l
    case AliceInitTaker(l, w) => role == Alice && AwaitsCommit(w, Alice) && w.localParams == l
    case BobInitMaker(l, c, w) => role == Bob && AwaitsReveal(w, Bob) && w.localParams == l && w.remoteCommit == Some(c)
    case AliceInitMaker(l, c, w) => role == Alice && AwaitsReveal(w, Alice) && w.localParams == l
      && w.remoteCommit == Some(c)
    case BobTakerMakerCommit(l, c, w) => role == Bob && AwaitsReveal(w, Bob) && w.localParams == l
      && w.remoteCommit == Some(c)
    case AliceTakerMakerCommit(l, c, w) => role == Alice && AwaitsReveal(w, Alice) && w.localParams == l
      && w.remoteCommit == Some(c)
    case BobReveal(l, r, w) => role == Bob && Revealed(w, Bob) && SameParams(w, l, r)
    case BobFeeEstimated(l, r, w, _) => role == Bob && Revealed(w, Bob) && SameParams(w, l, r)
    case BobFunded(l, r, w) => role == Bob && BobSetUp(w) && SameParams(w, l, r) && SignedFits(env, w)
    case BobRefundProcedureSignatures(l, r, w, sig) =>
      role == Bob && BobSigned(w) && SameParams(w, l, r) && SignedFits(env, w) && sig.buy in env.may(Buy)
    case BobAccordantLock(l, r, w, sig) =>
      role == Bob && BobSigned(w) && SameParams(w, l, r) && sig.buy in env.may(Buy)
    case BobAccordantLockFinal(l, r, w) => role == Bob && BobSigned(w) && SameParams(w, l, r)
    case BobBuyFinal(sweep) => role == Bob && sweep.SweepAddress?
    case AliceReveal(l, r, w) => role == Alice && Revealed(w, Alice) && SameParams(w, l, r)
    case AliceCoreArbitratingSetup(l, r, w) => role == Alice && AliceSigned(w) && SameParams(w, l, r)
      && SignedFits(env, w)
    case AliceArbitratingLockFinal(w, info, _) => role == Alice && AliceSigned(w) && SignedFits(env, w)
      && info.MoneroFunding?
    case AliceAccordantLock(w) => role == Alice && AliceSigned(w) && SignedFits(env, w)
    case AliceCanceled(w) => role == Alice && AliceSigned(w)
    case AliceRefund(sweep) => role == Alice && sweep.SweepAddress?
    case AliceBuyProcedureSignature => role == Alice
    case AliceRefundSweeping => role == Alice
    case SwapEnd(o) => role == Bob ==> o != FailurePunish
    case _ => role == Bob
  }

  /** The stage of every state ever stored. */
  ghost predicate StoredStages(env: Env, x: Swap, tradeRole: TradeRole, log: seq<Entry>) {
    forall e :: e in log && Stores(e) ==>
      && e.send.checkpoint.tradeRole == tradeRole
      && StageOk(env, x, x.RoleOf(tradeRole), e.send.checkpoint.state)
  }

  ghost predicate StagePart(env: Env, x: Swap, rt: Rt) {
    StageOk(env, x, x.RoleOf(rt.tradeRole), rt.ssm) && StoredStages(env, x, rt.tradeRole, rt.log)
  }

  /** A transition reaches the next stage; an error blames the cryptography or the peer. */
  ghost predicate Staged(env: Env, x: Swap, role: SwapRole, step: Step) {
    match step
    case Stay(_) => true
    case Goto(_, next) => StageOk(env, x, role, next)
    case Fail(_, e) => e.CryptoFailure? || e.PeerFault?
  }

  // ----- handler by handler -----

  lemma InitTakerStaged(env: Env, x: Swap, rt: Rt, role: SwapRole, msg: BusMsg)
    requires rt.ssm.StartTaker? && StageOk(env, x, role, rt.ssm)
    ensures Staged(env, x, role, AttemptTransitionToInitTaker(x, rt, rt.ssm.role, msg))
  {}

  lemma InitMakerStaged(env: Env, x: Swap, rt: Rt, role: SwapRole, msg: BusMsg)
    requires rt.ssm.StartMaker? && StageOk(env, x, role, rt.ssm)
    ensures Staged(env, x, role, AttemptTransitionToInitMaker(x, rt, rt.ssm.role, msg))
  {}

  lemma BobAbortStaged(env: Env, x: Swap, rt: Rt, w: Wallet)
    requires w.BobWallet?
    ensures Staged(env, x, Bob, HandleBobAbortSwap(x, rt, w))
  {}

  lemma BobInitTakerStaged(env: Env, x: Swap, rt: Rt, msg: BusMsg)
    requires rt.ssm.BobInitTaker? && StageOk(env, x, Bob, rt.ssm)
    ensures Staged(env, x, Bob, TryBobInitTakerToBobTakerMakerCommit(x, rt, rt.ssm.local, rt.ssm.wallet, msg))
  {
    hide HandleBobAbortSwap;
    BobAbortStaged(env, x, rt, rt.ssm.wallet);
  }

  lemma AliceInitTakerStaged(env: Env, x: Swap, rt: Rt, msg: BusMsg)
    requires rt.ssm.AliceInitTaker? && StageOk(env, x, Alice, rt.ssm)
    ensures Staged(env, x, Alice, TryAliceInitTakerToAliceTakerMakerCommit(x, rt, rt.ssm.local, rt.ssm.wallet, msg))
  {}

  lemma BobRevealStaged(env: Env, x: Swap, rt: Rt, local: Params, commit: Commit, w: Wallet, msg: BusMsg)
    requires AwaitsReveal(w, Bob) && w.localParams == local && w.remoteCommit == Some(commit)
    ensures Staged(env, x, Bob, AttemptTransitionToBobReveal(x, rt, local, commit, w, msg))
  {
    hide HandleBobAbortSwap;
    BobAbortStaged(env, x, rt, w);
  }

  lemma AliceRevealStaged(env: Env, x: Swap, rt: Rt, local: Params, commit: Commit, w: Wallet, msg: BusMsg)
    requires AwaitsReveal(w, Alice) && w.localParams == local && w.remoteCommit == Some(commit)
    ensures Staged(env, x, Alice, AttemptTransitionToAliceReveal(x, rt, local, commit, w, msg))
  {}

  lemma SetupStaged(env: Env, x: Swap, rt: Rt, role: SwapRole, msg: BusMsg)
    requires InSetup(rt.ssm) && StageOk(env, x, role, rt.ssm)
    ensures Staged(env, x, role, NextInSetup(x, rt, msg))
  {
    hide AttemptTransitionToInitTaker, AttemptTransitionToInitMaker, TryBobInitTakerToBobTakerMakerCommit,
      TryAliceInitTakerToAliceTakerMakerCommit, AttemptTransitionToBobReveal, AttemptTransitionToAliceReveal;
    match rt.ssm
    case StartTaker(_) => InitTakerStaged(env, x, rt, role, msg);
    case StartMaker(_) => InitMakerStaged(env, x, rt, role, msg);
    case BobInitTaker(_, _) => BobInitTakerStaged(env, x, rt, msg);
    case AliceInitTaker(_, _) => AliceInitTakerStaged(env, x, rt, msg);
    case BobInitMaker(l, c, w) => BobRevealStaged(env, x, rt, l, c, w, msg);
    case BobTakerMakerCommit(l, c, w) => BobRevealStaged(env, x, rt, l, c, w, msg);
    case AliceInitMaker(l, c, w) => AliceRevealStaged(env, x, rt, l, c, w, msg);
    case AliceTakerMakerCommit(l, c, w) => AliceRevealStaged(env, x, rt, l, c, w, msg);
  }

  lemma BobFeeEstimatedStaged(env: Env, x: Swap, rt: Rt, msg: BusMsg)
    requires rt.ssm.BobReveal? && StageOk(env, x, Bob, rt.ssm)
    ensures Staged(env, x, Bob, TryBobRevealToBobFeeEstimated(x, rt, rt.ssm.local, rt.ssm.remote, rt.ssm.wallet, msg))
  {
    hide HandleBobAbortSwap;
    BobAbortStaged(env, x, rt, rt.ssm.wallet);
  }

  lemma BobSetUpStaged(env: Env, x: Swap, rt: Rt, local: Params, remote: Params, w: Wallet, tx: Tx)
    requires Revealed(w, Bob) && SameParams(w, local, remote) && CryptoFits(env, x.crypto)
    ensures Staged(env, x, Bob, BobSetUpCoreArbitrating(x, rt, local, remote, w, tx))
  {
    hide Framed, Tail;
  }

  lemma BobFundedStaged(env: Env, x: Swap, rt: Rt, msg: BusMsg)
    requires rt.ssm.BobFeeEstimated? && StageOk(env, x, Bob, rt.ssm) && CryptoFits(env, x.crypto)
    ensures Staged(env, x, Bob,
      TryBobFeeEstimatedToBobFunded(x, rt, rt.ssm.local, rt.ssm.remote, rt.ssm.wallet, rt.ssm.requiredFunding, msg))
  {
    hide HandleBobAbortSwap, BobSetUpCoreArbitrating, CryptoFits;
    BobAbortStaged(env, x, rt, rt.ssm.wallet);
    BobAbortStaged(env, x, rt.Awaiting(false), rt.ssm.wallet);
    if msg.Sync? && msg.event.AddressTransaction? && msg.event.tx.Some? {
      BobSetUpStaged(env, x, rt.Awaiting(false).Emit(FundingCompleted(Bitcoin)), rt.ssm.local, rt.ssm.remote,
        rt.ssm.wallet, msg.event.tx.value);
    }
  }

  lemma BobRefundStaged(env: Env, x: Swap, rt: Rt, msg: BusMsg)
    requires rt.ssm.BobFunded? && StageOk(env, x, Bob, rt.ssm) && CryptoFits(env, x.crypto)
    ensures Staged(env, x, Bob,
      TryBobFundedToBobRefundProcedureSignatures(x, rt, rt.ssm.local, rt.ssm.remote, rt.ssm.wallet, msg))
  {
    hide HandleBobAbortSwap, BobLock, Framed, Unasked, Tail;
    BobAbortStaged(env, x, rt, rt.ssm.wallet);
    if msg.P2p? && msg.peer.RefundProcedureSignatures? {
      var res := HandleRefundProcedureSignatures(x.crypto, rt.ssm.wallet, msg.peer.sigs);
      if res.Done? {
        BobLockGoes(x, rt, rt.ssm.local, rt.ssm.remote, res.wallet, res.wallet.coreArbSetup.value, res.value);
      }
    }
  }

  lemma BobLockGoes(x: Swap, rt: Rt, local: Params, remote: Params, w: Wallet, setup: CoreArbitratingSetup,
      buySig: BuySignature)
    ensures var step := BobLock(x, rt, local, remote, w, setup, buySig);
      step.Goto? && step.next == BobRefundProcedureSignatures(local, remote, w, buySig)
  {}

  lemma BobAfterLockStaged(env: Env, x: Swap, rt: Rt, msg: BusMsg)
    requires StageOk(env, x, Bob, rt.ssm)
    ensures rt.ssm.BobRefundProcedureSignatures? ==>
      Staged(env, x, Bob, TryBobRefundProcedureSignaturesToBobAccordantLock(x, rt, rt.ssm, msg))
    ensures rt.ssm.BobAccordantLock? ==>
      Staged(env, x, Bob, TryBobAccordantLockToBobAccordantLockFinal(x, rt, rt.ssm, msg))
  {}

  lemma BobBuyFinalStaged(env: Env, x: Swap, rt: Rt, msg: BusMsg)
    requires rt.ssm.BobAccordantLockFinal? && StageOk(env, x, Bob, rt.ssm)
    ensures Staged(env, x, Bob, TryBobAccordantLockFinalToBobBuyFinal(x, rt, rt.ssm, msg))
  {
    hide FetchTx, Framed, Tail;
  }

  lemma BobLateStaged(env: Env, x: Swap, rt: Rt, msg: BusMsg)
    requires rt.ssm.BobBuyFinal? || rt.ssm.BobBuySweeping? || rt.ssm.BobCanceled? || rt.ssm.BobCancelFinal?
      || rt.ssm.BobAbortAwaitingBitcoinSweep?
    requires StageOk(env, x, Bob, rt.ssm)
    ensures Staged(env, x, Bob, NextOfBob(x, rt, msg))
  {}

  lemma BobStaged(env: Env, x: Swap, rt: Rt, msg: BusMsg)
    requires OfBob(rt.ssm) && StageOk(env, x, Bob, rt.ssm) && CryptoFits(env, x.crypto)
    ensures Staged(env, x, Bob, NextOfBob(x, rt, msg))
  {
    hide Staged, StageOk, CryptoFits, TrySweep, TrySweepingToSwapEnd, TryBobCanceledToBobCancelFinal,
      TryBobCancelFinalToSwapEnd, TryAwaitingSweepToSwapEnd, TryBobRevealToBobFeeEstimated,
      TryBobFeeEstimatedToBobFunded, TryBobFundedToBobRefundProcedureSignatures,
      TryBobRefundProcedureSignaturesToBobAccordantLock, TryBobAccordantLockToBobAccordantLockFinal,
      TryBobAccordantLockFinalToBobBuyFinal;
    match rt.ssm
    case BobReveal(_, _, _) => BobFeeEstimatedStaged(env, x, rt, msg);
    case BobFeeEstimated(_, _, _, _) => BobFundedStaged(env, x, rt, msg);
    case BobFunded(_, _, _) => BobRefundStaged(env, x, rt, msg);
    case BobRefundProcedureSignatures(_, _, _, _) => BobAfterLockStaged(env, x, rt, msg);
    case BobAccordantLock(_, _, _, _) => BobAfterLockStaged(env, x, rt, msg);
    case BobAccordantLockFinal(_, _, _) => BobBuyFinalStaged(env, x, rt, msg);
    case _ => BobLateStaged(env, x, rt, msg);
  }

  lemma AliceCoreArbitratingStaged(env: Env, x: Swap, rt: Rt, msg: BusMsg)
    requires rt.ssm.AliceReveal? && StageOk(env, x, Alice, rt.ssm)
    requires msg.P2p? ==> MessageFits(env, msg.peer)
    ensures Staged(env, x, Alice,
      TryAliceRevealToAliceCoreArbitratingSetup(x, rt, rt.ssm.local, rt.ssm.remote, rt.ssm.wallet, msg))
  {
    hide Framed, Unasked, Tail, Rt.WatchTxBtc, Rt.CheckpointOf;
  }

  lemma AliceLockFinalStaged(env: Env, x: Swap, rt: Rt, msg: BusMsg)
    requires rt.ssm.AliceCoreArbitratingSetup? && StageOk(env, x, Alice, rt.ssm)
    ensures Staged(env, x, Alice,
      TryAliceCoreArbitratingSetupToAliceArbitratingLockFinal(x, rt, rt.ssm.local, rt.ssm.remote, rt.ssm.wallet, msg))
  {}

  lemma AliceAccordantStaged(env: Env, x: Swap, rt: Rt, msg: BusMsg)
    requires rt.ssm.AliceArbitratingLockFinal? && StageOk(env, x, Alice, rt.ssm)
    ensures Staged(env, x, Alice, TryAliceArbitratingLockFinalToAliceAccordantLock(x, rt, rt.ssm, msg))
  {}

  lemma AliceBuyStaged(env: Env, x: Swap, rt: Rt, msg: BusMsg)
    requires rt.ssm.AliceAccordantLock? && StageOk(env, x, Alice, rt.ssm)
    ensures Staged(env, x, Alice, TryAliceAccordantLockToAliceBuyProcedureSignature(x, rt, rt.ssm.wallet, msg))
  {}

  lemma AliceRefundStaged(env: Env, x: Swap, rt: Rt, w: Wallet, tx: Tx)
    requires AliceSigned(w)
    ensures Staged(env, x, Alice, AliceSeesRefund(x, rt, w, tx))
  {}

  lemma AliceCanceledStaged(env: Env, x: Swap, rt: Rt, msg: BusMsg)
    requires rt.ssm.AliceCanceled? && StageOk(env, x, Alice, rt.ssm)
    ensures Staged(env, x, Alice, TryAliceCanceledToAliceRefundOrAlicePunish(x, rt, rt.ssm, msg))
  {
    hide FetchTx, WatchAndPublish, AliceSeesRefund;
    var t := rt.syncer.tasks;
    if msg.Sync? && msg.event.TransactionRetrieved? && msg.event.found.Some? {
      AliceRefundStaged(env, x, rt.WithTasks(t.(retrievingTxs := t.retrievingTxs - {msg.event.id})), rt.ssm.wallet,
        msg.event.found.value);
    }
  }

  lemma AliceLateStaged(env: Env, x: Swap, rt: Rt, role: SwapRole, msg: BusMsg)
    requires rt.ssm.AliceBuyProcedureSignature? || rt.ssm.AliceRefund? || rt.ssm.AliceRefundSweeping? || rt.ssm.SwapEnd?
    requires StageOk(env, x, role, rt.ssm)
    ensures Staged(env, x, role, NextOfAlice(x, rt, msg))
  {}

  lemma AliceStaged(env: Env, x: Swap, rt: Rt, role: SwapRole, msg: BusMsg)
    requires !InSetup(rt.ssm) && !OfBob(rt.ssm) && StageOk(env, x, role, rt.ssm)
    requires !rt.ssm.SwapEnd? ==> role == Alice
    requires msg.P2p? ==> MessageFits(env, msg.peer)
    ensures Staged(env, x, role, NextOfAlice(x, rt, msg))
  {
    hide StageOk, Staged, TrySweep, TrySweepingToSwapEnd, MessageFits, TryAliceRevealToAliceCoreArbitratingSetup,
      TryAliceArbitratingLockFinalToAliceAccordantLock, TryAliceAccordantLockToAliceBuyProcedureSignature,
      TryAliceCoreArbitratingSetupToAliceArbitratingLockFinal, TryAliceCanceledToAliceRefundOrAlicePunish;
    match rt.ssm
    case AliceReveal(_, _, _) => AliceCoreArbitratingStaged(env, x, rt, msg);
    case AliceCoreArbitratingSetup(_, _, _) => AliceLockFinalStaged(env, x, rt, msg);
    case AliceArbitratingLockFinal(_, _, _) => AliceAccordantStaged(env, x, rt, msg);
    case AliceAccordantLock(_) => AliceBuyStaged(env, x, rt, msg);
    case AliceCanceled(_) => AliceCanceledStaged(env, x, rt, msg);
    case _ => AliceLateStaged(env, x, rt, role, msg);
  }

  /** Every step keeps the stages, and no error is one of those meant to be unreachable. */
  lemma NextStaged(env: Env, x: Swap, rt: Rt, role: SwapRole, msg: BusMsg)
    requires StageOk(env, x, role, rt.ssm) && CryptoFits(env, x.crypto)
    requires msg.P2p? ==> MessageFits(env, msg.peer)
    ensures Staged(env, x, role, Next(x, rt, msg))
  {
    hide NextInSetup, NextOfBob, NextOfAlice, Staged, CryptoFits, MessageFits;
    assert OfBob(rt.ssm) ==> role == Bob;
    if InSetup(rt.ssm) { SetupStaged(env, x, rt, role, msg); }
    else if OfBob(rt.ssm) { BobStaged(env, x, rt, msg); }
    else { AliceStaged(env, x, rt, role, msg); }
  }
}
