/** No reachable state is a dead end: some event always brings the swap closer to its end. */
module Liveness {
  import opened Types
  import opened Temporal
  import opened SyncerClient
  import opened SwapWallet
  import opened SwapRuntime
  import opened SwapState
  import opened Execution
  import opened Invariants
  import opened Stages
  import opened Tables
  import opened Commitment
  import opened FundingWindow
  import opened BuyAlone
  import opened Publishing
  import opened ReleaseOrder
  import opened SentMessages
  import opened HeardMessages
  import opened Runs
  import opened Handling
  import opened Quiescence
  import opened Guarantees

  /** Wallet calls at the right stage succeed. */
  ghost predicate WalletLive(x: Swap) {
    KeysLive(x) && forall p :: x.crypto.bitcoinKey(p).Some?
  }

  ghost predicate Advances(x: Swap, rt: Rt, msg: BusMsg) {
    var step := Next(x, rt, msg);
    step.Goto? && Measure(step.rt.(ssm := step.next)) < Measure(rt)
  }

  /** A client may ask to abort, and a syncer may report about any task of its tables. */
  predicate Deliverable(msg: BusMsg) {
    msg == Ctl(AbortSwap) || (msg.Sync? && !msg.event.TransactionBroadcasted?)
  }

  /** Reaching another state is always an advance. */
  lemma NewStateAdvances(x: Swap, rt: Rt, msg: BusMsg)
    requires Next(x, rt, msg).Goto? && Next(x, rt, msg).next != rt.ssm
    ensures Advances(x, rt, msg)
  {
    hide Next;
    var step := Next(x, rt, msg);
    NextProceeds(x, rt, msg);
    TransitionsGoForward(rt.ssm, step.next);
    MeasureBounds(rt);
    MeasureBounds(step.rt.(ssm := step.next));
  }

  lemma SetupMoves(env: Env, x: Swap, role: SwapRole, rt: Rt)
    requires InSetup(rt.ssm) && StageOk(env, x, role, rt.ssm) && WalletLive(x)
    ensures Advances(x, rt, Ctl(AbortSwap))
  {
    assert Next(x, rt, Ctl(AbortSwap)).Goto?;
    NewStateAdvances(x, rt, Ctl(AbortSwap));
  }

  lemma UncommittedMoves(env: Env, x: Swap, role: SwapRole, rt: Rt)
    requires rt.ssm.BobReveal? || rt.ssm.BobFeeEstimated? || rt.ssm.BobFunded? || rt.ssm.AliceReveal?
    requires StageOk(env, x, role, rt.ssm) && WalletLive(x)
    ensures Advances(x, rt, Ctl(AbortSwap))
  {
    assert Next(x, rt, Ctl(AbortSwap)).Goto?;
    NewStateAdvances(x, rt, Ctl(AbortSwap));
  }

  /** In the states after Lock the counterparty's Cancel always ends the wait. */
  lemma AfterLockMoves(env: Env, x: Swap, rt: Rt) returns (msg: BusMsg)
    requires (CanCancel(rt.ssm) && !rt.ssm.AliceCanceled?) || rt.ssm.AliceCoreArbitratingSetup?
    requires rt.syncer.tasks.WatchesTx(Cancel)
    ensures Advances(x, rt, msg) && Deliverable(msg)
  {
    var id :| id in rt.syncer.tasks.watchedTxs && rt.syncer.tasks.watchedTxs[id] == Cancel;
    msg := Sync(TransactionConfirmations(id, Some(0)));
    assert Next(x, rt, msg).Goto? && Next(x, rt, msg).next != rt.ssm;
    NewStateAdvances(x, rt, msg);
  }

  lemma SweepingMoves(x: Swap, rt: Rt) returns (msg: BusMsg)
    requires rt.ssm.BobBuySweeping? || rt.ssm.BobAbortAwaitingBitcoinSweep? || rt.ssm.AliceRefundSweeping?
    requires rt.syncer.tasks.sweepingAddr.Some?
    ensures Advances(x, rt, msg) && Deliverable(msg)
  {
    msg := Sync(SweepSuccess(rt.syncer.tasks.sweepingAddr.value));
    assert Next(x, rt, msg).Goto? && Next(x, rt, msg).next != rt.ssm;
    NewStateAdvances(x, rt, msg);
  }

  lemma SweepMoves(x: Swap, rt: Rt) returns (msg: BusMsg)
    requires rt.ssm.BobBuyFinal? || rt.ssm.AliceRefund?
    ensures Advances(x, rt, msg) && Deliverable(msg)
  {
    msg := Sync(TransactionConfirmations(0, Some(rt.ts.sweepMoneroThr)));
    assert Next(x, rt, msg).Goto? && Next(x, rt, msg).next != rt.ssm;
    NewStateAdvances(x, rt, msg);
  }

  /** The next transaction of the protocol, once final, is watched. */
  lemma ConfirmationMoves(env: Env, x: Swap, rt: Rt) returns (msg: BusMsg)
    requires rt.ssm.BobCanceled? || rt.ssm.BobCancelFinal? || rt.ssm.AliceBuyProcedureSignature?
    requires PlaceOk(env, x, rt.ssm, rt.txs, rt.syncer.tasks)
    ensures Advances(x, rt, msg) && Deliverable(msg)
  {
    var l := if rt.ssm.BobCanceled? then Cancel else if rt.ssm.BobCancelFinal? then Refund else Buy;
    var id :| id in rt.syncer.tasks.watchedTxs && rt.syncer.tasks.watchedTxs[id] == l;
    msg := Sync(TransactionConfirmations(id, Some(rt.ts.btcFinalityThr)));
    assert Next(x, rt, msg).Goto? && Next(x, rt, msg).next != rt.ssm;
    NewStateAdvances(x, rt, msg);
  }

  lemma FetchesRefund(x: Swap, rt: Rt, id: TaskId)
    requires rt.ssm.AliceCanceled? && rt.LabelOf(id) == Some(Refund) && Refund in rt.syncer.tasks.txids
    ensures var msg := Sync(TransactionConfirmations(id, Some(rt.ts.btcFinalityThr)));
      Next(x, rt, msg).Goto? && Next(x, rt, msg).next == rt.ssm && Advances(x, rt, msg)
  {
    hide Tail, Unasked, Undisturbed, WatchAndPublish, FetchTx;
    FetchingLowersMeasure(rt, Refund);
    CancelLoopLowersMeasure(x, rt, Sync(TransactionConfirmations(id, Some(rt.ts.btcFinalityThr))));
  }

  /** In AliceCanceled the Refund transaction is still to be fetched or being fetched. */
  lemma AliceCanceledMoves(env: Env, x: Swap, rt: Rt) returns (msg: BusMsg)
    requires rt.ssm.AliceCanceled? && StageOk(env, x, Alice, rt.ssm) && WalletLive(x)
    requires PlaceOk(env, x, rt.ssm, rt.txs, rt.syncer.tasks)
    ensures Advances(x, rt, msg) && Deliverable(msg)
  {
    hide WatchAndPublish, FetchTx;
    var t := rt.syncer.tasks;
    if Refund in t.txids {
      var id :| id in t.watchedTxs && t.watchedTxs[id] == Refund;
      msg := Sync(TransactionConfirmations(id, Some(rt.ts.btcFinalityThr)));
      FetchesRefund(x, rt, id);
    } else {
      var id :| id in t.retrievingTxs && t.retrievingTxs[id].0 == Refund;
      msg := Sync(TransactionRetrieved(id, Some(Tx(0))));
      assert Next(x, rt, msg).Goto? && Next(x, rt, msg).next != rt.ssm;
      NewStateAdvances(x, rt, msg);
    }
  }

  lemma AbortIsDeliverable()
    ensures Deliverable(Ctl(AbortSwap))
  {
  }

  lemma SomethingMoves(env: Env, x: Swap, role: SwapRole, rt: Rt)
    requires StageOk(env, x, role, rt.ssm) && PlaceOk(env, x, rt.ssm, rt.txs, rt.syncer.tasks) && WalletLive(x)
    requires !rt.ssm.SwapEnd?
    ensures exists msg :: Advances(x, rt, msg) && Deliverable(msg)
  {
    hide Advances, Deliverable, SyncerTasks.WatchesTx, SyncerTasks.Retrieves, SyncerTasks.WatchesAddr, WalletLive,
      Final;
    AbortIsDeliverable();
    if InSetup(rt.ssm) {
      SetupMoves(env, x, role, rt);
    } else if rt.ssm.BobReveal? || rt.ssm.BobFeeEstimated? || rt.ssm.BobFunded? || rt.ssm.AliceReveal? {
      UncommittedMoves(env, x, role, rt);
    } else if rt.ssm.AliceCanceled? {
      var msg := AliceCanceledMoves(env, x, rt);
    } else if CanCancel(rt.ssm) || rt.ssm.AliceCoreArbitratingSetup? {
      var msg := AfterLockMoves(env, x, rt);
    } else if rt.ssm.BobBuyFinal? || rt.ssm.AliceRefund? {
      var msg := SweepMoves(x, rt);
    } else if rt.ssm.BobCanceled? || rt.ssm.BobCancelFinal? || rt.ssm.AliceBuyProcedureSignature? {
      var msg := ConfirmationMoves(env, x, rt);
    } else {
      var msg := SweepingMoves(x, rt);
    }
  }

  lemma DeliverableIsLegit(env: Env, rt: Rt, msg: BusMsg)
    requires TablesOk(env, rt.syncer.tasks) && Deliverable(msg)
    ensures Legit(Anything(false), rt, if msg.Sync? then ServiceId.Syncer(Bitcoin) else ServiceId.Client(0), msg)
  {
    hide SyncerTasks.Valid;
  }

  /** In every reachable state that is not the end, some event that the bus may deliver
      brings the end closer, even when no signature or reveal ever verifies. */
  lemma NeverStuck(env: Env, x: Swap, tradeRole: TradeRole, rt: Rt)
    requires Reachable(env, x, tradeRole, rt) && CryptoFits(env, x.crypto) && WalletLive(x) && !rt.ssm.SwapEnd?
    ensures exists source, msg :: Legit(Anything(false), rt, source, msg) && Advances(x, rt, msg)
  {
    hide CommitPart, FundingPart, PublishPart, Alone, ReleasePart, SentPart, HeardPart, CryptoFits, Reachable, Quiet,
      WalletLive, Advances, StageOk, PlaceOk, TablesOk, KeptOk, Deliverable, Legit;
    ReachableSound(env, x, tradeRole, rt);
    SomethingMoves(env, x, x.RoleOf(tradeRole), rt);
    var msg :| Advances(x, rt, msg) && Deliverable(msg);
    DeliverableIsLegit(env, rt, msg);
  }

  // ----- the protocol's own way forward -----

  ghost predicate Opens(c: Crypto, commit: Commit, rev: Reveal) {
    rev.params.role == commit.role && c.opens(commit, rev.params) && c.proofVerifies(rev)
  }

  ghost predicate CompletesLock(c: Crypto, setup: CoreArbitratingSetup, sigs: RefundSignatures) {
    c.refundVerifies(setup, sigs) && c.signBuy(setup, sigs).Some? && c.completesLock(setup, sigs)
  }

  ghost predicate CanOpen(c: Crypto, commit: Commit) {
    exists rev :: Opens(c, commit, rev)
  }

  ghost predicate CanComplete(c: Crypto, setup: CoreArbitratingSetup) {
    exists sigs :: CompletesLock(c, setup, sigs)
  }

  ghost predicate CanBuy(c: Crypto, setup: CoreArbitratingSetup) {
    exists buySig :: c.buyVerifies(setup, buySig)
  }

  /** With an honest counterparty every call at the right stage can succeed. */
  ghost predicate CryptoLive(c: Crypto) {
    && (forall role :: c.generateParams(role).Some?)
    && (forall commit :: CanOpen(c, commit))
    && (exists tx :: c.fundingAccepts(tx))
    && (forall tx, l, r :: c.coreArbitrating(tx, l, r).Some?)
    && (forall setup, l, r :: c.adaptRefund(setup, l, r).Some?)
    && (forall setup, l, r :: c.cosignCancel(setup, l, r).Some?)
    && (forall setup, l, r :: c.completePunish(setup, l, r).Some?)
    && (forall setup :: CanComplete(c, setup) && CanBuy(c, setup))
  }

  /** The way to the next state that is neither an abort nor the counterparty's Cancel. */
  predicate Onward(s: SwapStateMachine, next: SwapStateMachine) {
    match s
    case StartTaker(_) => next.BobInitTaker? || next.AliceInitTaker?
    case StartMaker(_) => next.BobInitMaker? || next.AliceInitMaker?
    case BobInitTaker(_, _) => next.BobTakerMakerCommit?
    case AliceInitTaker(_, _) => next.AliceTakerMakerCommit?
    case BobTakerMakerCommit(_, _, _) => next.BobReveal?
    case AliceTakerMakerCommit(_, _, _) => next.AliceReveal?
    case BobInitMaker(_, _, _) => next.BobReveal?
    case AliceInitMaker(_, _, _) => next.AliceReveal?
    case BobReveal(_, _, _) => next.BobFeeEstimated?
    case BobFeeEstimated(_, _, _, _) => next.BobFunded?
    case BobFunded(_, _, _) => next.BobRefundProcedureSignatures?
    case BobRefundProcedureSignatures(_, _, _, _) => next.BobAccordantLock?
    case BobAccordantLock(_, _, _, _) => next.BobAccordantLockFinal?
    case BobAccordantLockFinal(_, _, _) => next == s || next.BobBuyFinal?
    case AliceReveal(_, _, _) => next.AliceCoreArbitratingSetup?
    case AliceCoreArbitratingSetup(_, _, _) => next.AliceArbitratingLockFinal?
    case AliceArbitratingLockFinal(_, _, _) => next.AliceAccordantLock?
    case AliceAccordantLock(_) => next.AliceBuyProcedureSignature? || next.AliceCanceled?
    case _ => Follows(s, next)
  }

  /** An event the bus may deliver takes the machine onward. */
  ghost predicate GoesOnward(x: Swap, rt: Rt, source: ServiceId, msg: BusMsg) {
    && Legit(Anything(false), rt, source, msg) && Advances(x, rt, msg)
    && Next(x, rt, msg).Goto? && Onward(rt.ssm, Next(x, rt, msg).next)
  }

  lemma PeerOnward(x: Swap, rt: Rt, m: PeerMsg)
    requires Next(x, rt, P2p(m)).Goto? && Next(x, rt, P2p(m)).next != rt.ssm && Onward(rt.ssm, Next(x, rt, P2p(m)).next)
    ensures GoesOnward(x, rt, rt.peerService, P2p(m))
  {
    hide Next, Advances;
    NewStateAdvances(x, rt, P2p(m));
  }

  lemma StartOnward(env: Env, x: Swap, role: SwapRole, rt: Rt) returns (source: ServiceId, msg: BusMsg)
    requires (rt.ssm.StartTaker? || rt.ssm.StartMaker?) && StageOk(env, x, role, rt.ssm) && CryptoLive(x.crypto)
    ensures GoesOnward(x, rt, source, msg)
  {
    hide Advances, Framed, Tail, Unasked, Announce, WatchHeights;
    source := ServiceId.Farcasterd;
    msg := Ctl(if rt.ssm.StartTaker? then TakeSwap(ServiceId.Peerd(1, 1), ServiceId.Client(0), x.swapId)
               else MakeSwap(ServiceId.Peerd(1, 1), ServiceId.Client(0), Commit(role.Other(), 0)));
    NewStateAdvances(x, rt, msg);
  }

  lemma CommitOnward(env: Env, x: Swap, role: SwapRole, rt: Rt) returns (source: ServiceId, msg: BusMsg)
    requires (rt.ssm.BobInitTaker? || rt.ssm.AliceInitTaker?) && StageOk(env, x, role, rt.ssm)
    ensures GoesOnward(x, rt, source, msg)
  {
    hide GoesOnward, Framed, Tail, Unasked;
    var m := MakerCommit(x.swapId, Commit(role.Other(), 0));
    source, msg := rt.peerService, P2p(m);
    PeerOnward(x, rt, m);
  }

  lemma RevealOnward(env: Env, x: Swap, role: SwapRole, rt: Rt) returns (source: ServiceId, msg: BusMsg)
    requires rt.ssm.BobTakerMakerCommit? || rt.ssm.AliceTakerMakerCommit? || rt.ssm.BobInitMaker?
      || rt.ssm.AliceInitMaker?
    requires StageOk(env, x, role, rt.ssm) && CryptoLive(x.crypto)
    ensures GoesOnward(x, rt, source, msg)
  {
    hide GoesOnward, Framed, Tail, Unasked, Rt.WatchBitcoinFee;
    assert CanOpen(x.crypto, rt.ssm.remoteCommit);
    var rev :| Opens(x.crypto, rt.ssm.remoteCommit, rev);
    source, msg := rt.peerService, P2p(RevealMsg(x.swapId, rev));
    PeerOnward(x, rt, RevealMsg(x.swapId, rev));
  }

  /** A syncer event that takes the machine to another state. */
  lemma SyncerOnward(x: Swap, rt: Rt, e: SyncEvent)
    requires EventFits(Anything(false), rt, ServiceId.Syncer(Bitcoin), e)
    requires Next(x, rt, Sync(e)).Goto? && Next(x, rt, Sync(e)).next != rt.ssm
      && Onward(rt.ssm, Next(x, rt, Sync(e)).next)
    ensures GoesOnward(x, rt, ServiceId.Syncer(Bitcoin), Sync(e))
  {
    hide Next, Advances, EventFits;
    NewStateAdvances(x, rt, Sync(e));
  }

  /** Before the commitment: the fee, the funding, the transactions, the signatures. */
  lemma UncommittedOnward(env: Env, x: Swap, role: SwapRole, rt: Rt) returns (source: ServiceId, msg: BusMsg)
    requires rt.ssm.BobReveal? || rt.ssm.BobFunded? || rt.ssm.AliceReveal?
    requires StageOk(env, x, role, rt.ssm) && CryptoLive(x.crypto)
    ensures GoesOnward(x, rt, source, msg)
  {
    hide GoesOnward, Framed, Tail, Unasked, Rt.WatchTxBtc, Rt.CheckpointOf;
    if rt.ssm.BobReveal? {
      source, msg := ServiceId.Syncer(Bitcoin), Sync(FeeEstimation(0));
      SyncerOnward(x, rt, FeeEstimation(0));
    } else if rt.ssm.BobFunded? {
      assert CanComplete(x.crypto, rt.ssm.wallet.coreArbSetup.value);
      var sigs :| CompletesLock(x.crypto, rt.ssm.wallet.coreArbSetup.value, sigs);
      source, msg := rt.peerService, P2p(RefundProcedureSignatures(x.swapId, sigs));
      PeerOnward(x, rt, RefundProcedureSignatures(x.swapId, sigs));
    } else {
      source, msg := rt.peerService, P2p(CoreArbitrating(x.swapId, Setup(0, 0, 0, 0)));
      PeerOnward(x, rt, CoreArbitrating(x.swapId, Setup(0, 0, 0, 0)));
    }
  }

  lemma FundingOnward(env: Env, x: Swap, role: SwapRole, rt: Rt) returns (source: ServiceId, msg: BusMsg)
    requires rt.ssm.BobFeeEstimated? && StageOk(env, x, role, rt.ssm) && CryptoLive(x.crypto)
    requires PlaceOk(env, x, rt.ssm, rt.txs, rt.syncer.tasks) && rt.syncer.awaitingFunding
    ensures GoesOnward(x, rt, source, msg)
  {
    hide GoesOnward, Framed, Tail, Unasked, Rt.WatchTxBtc, Rt.CheckpointOf;
    var id :| id in rt.syncer.tasks.watchedAddrs && rt.syncer.tasks.watchedAddrs[id] == Funding;
    var tx :| x.crypto.fundingAccepts(tx);
    var e := AddressTransaction(id, 0, rt.ssm.requiredFunding, true, Some(tx));
    source, msg := ServiceId.Syncer(Bitcoin), Sync(e);
    SyncerOnward(x, rt, e);
  }

  /** Once the funding address has been answered for, only an abort leads on: a second
      payment is not listened to. */
  lemma AnsweredFundingOnlyAborts(x: Swap, rt: Rt, msg: BusMsg)
    requires rt.ssm.BobFeeEstimated? && !rt.syncer.awaitingFunding && Next(x, rt, msg).Goto?
    ensures msg == Ctl(AbortSwap) && Next(x, rt, msg).next.BobAbortAwaitingBitcoinSweep?
  {
  }

  /** A funding that the wallet refuses is answered like that. */
  lemma RefusedFundingIsAnswered(x: Swap, rt: Rt, id: TaskId, hash: Txid, incoming: bool, tx: Tx)
    requires rt.ssm.BobFeeEstimated? && rt.AddrLabelOf(id) == Some(Funding) && rt.syncer.awaitingFunding
    requires rt.ssm.wallet.BobWallet? && !x.crypto.fundingAccepts(tx)
    ensures var step := Next(x, rt, Sync(AddressTransaction(id, hash, rt.ssm.requiredFunding, incoming, Some(tx))));
      step.Fail? && step.rt.ssm == rt.ssm && !step.rt.syncer.awaitingFunding
  {
  }

  /** After the commitment: payments that arrive at the watched address. */
  lemma PaymentOnward(env: Env, x: Swap, rt: Rt) returns (source: ServiceId, msg: BusMsg)
    requires rt.ssm.BobRefundProcedureSignatures? || rt.ssm.AliceArbitratingLockFinal?
    requires PlaceOk(env, x, rt.ssm, rt.txs, rt.syncer.tasks)
    ensures GoesOnward(x, rt, source, msg)
  {
    hide GoesOnward, Framed, Tail, Unasked, Undisturbed, HandleBobSwapInterruptAfterLock,
      HandleAliceSwapInterruptAfterLock;
    var id :| id in rt.syncer.tasks.watchedAddrs && rt.syncer.tasks.watchedAddrs[id] == AccLock;
    var amount := if rt.ssm.AliceArbitratingLockFinal? then rt.ssm.requiredFunding else x.deal.accordantAmount;
    var e := AddressTransaction(id, 0, amount, true, None);
    source, msg := ServiceId.Syncer(Bitcoin), Sync(e);
    SyncerOnward(x, rt, e);
  }

  /** Which transaction the state waits to see final. */
  function AwaitedTx(s: SwapStateMachine): TxLabel {
    match s
    case BobAccordantLock(_, _, _, _) => AccLock
    case BobCanceled => Cancel
    case BobCancelFinal => Refund
    case AliceBuyProcedureSignature => Buy
    case _ => Lock
  }

  function FinalityFor(s: SwapStateMachine, ts: TemporalSafety): nat {
    if s.BobAccordantLock? then ts.xmrFinalityThr else ts.btcFinalityThr
  }

  predicate AwaitsConfirmation(s: SwapStateMachine) {
    s.BobAccordantLock? || s.AliceCoreArbitratingSetup? || s.BobCanceled? || s.BobCancelFinal?
      || s.AliceBuyProcedureSignature?
  }

  lemma ConfirmedMoves(x: Swap, rt: Rt, id: TaskId)
    requires AwaitsConfirmation(rt.ssm) && rt.LabelOf(id) == Some(AwaitedTx(rt.ssm))
    requires rt.ssm.AliceCoreArbitratingSetup? ==> rt.ssm.local.role == Alice && rt.ssm.remote.role == Bob
    requires rt.ssm.BobCanceled? ==> Refund in rt.txs
    ensures var step := Next(x, rt, Sync(TransactionConfirmations(id, Some(FinalityFor(rt.ssm, rt.ts)))));
      step.Goto? && step.next != rt.ssm && Onward(rt.ssm, step.next)
  {
    hide Framed, Tail, Unasked, Undisturbed, HandleBobSwapInterruptAfterLock, HandleAliceSwapInterruptAfterLock;
  }

  lemma ConfirmationOnward(env: Env, x: Swap, role: SwapRole, rt: Rt) returns (source: ServiceId, msg: BusMsg)
    requires AwaitsConfirmation(rt.ssm)
    requires StageOk(env, x, role, rt.ssm) && PlaceOk(env, x, rt.ssm, rt.txs, rt.syncer.tasks)
      && TablesOk(env, rt.syncer.tasks)
    ensures GoesOnward(x, rt, source, msg)
  {
    hide GoesOnward, Next, SyncerTasks.Valid;
    var id :| id in rt.syncer.tasks.watchedTxs && rt.syncer.tasks.watchedTxs[id] == AwaitedTx(rt.ssm);
    var e := TransactionConfirmations(id, Some(FinalityFor(rt.ssm, rt.ts)));
    source, msg := ServiceId.Syncer(Bitcoin), Sync(e);
    ConfirmedMoves(x, rt, id);
    SyncerOnward(x, rt, e);
  }

  lemma LoopOnward(x: Swap, rt: Rt, e: SyncEvent)
    requires EventFits(Anything(false), rt, ServiceId.Syncer(Bitcoin), e) && Advances(x, rt, Sync(e))
    requires Next(x, rt, Sync(e)).Goto? && Onward(rt.ssm, Next(x, rt, Sync(e)).next)
    ensures GoesOnward(x, rt, ServiceId.Syncer(Bitcoin), Sync(e))
  {
    hide Next, Advances, EventFits;
  }

  /** A final count of a watched bitcoin transaction can be reported. */
  lemma WatchedFits(env: Env, rt: Rt, id: TaskId, n: nat)
    requires TablesOk(env, rt.syncer.tasks)
    ensures EventFits(Anything(false), rt, ServiceId.Syncer(Bitcoin), TransactionConfirmations(id, Some(n)))
  {
    hide SyncerTasks.Valid;
  }

  lemma FetchesBuy(x: Swap, rt: Rt, id: TaskId)
    requires rt.ssm.BobAccordantLockFinal? && rt.LabelOf(id) == Some(Buy) && Buy in rt.syncer.tasks.txids
    ensures var msg := Sync(TransactionConfirmations(id, Some(rt.ts.btcFinalityThr)));
      Next(x, rt, msg).Goto? && Next(x, rt, msg).next == rt.ssm && Advances(x, rt, msg)
  {
    hide Framed, Tail, Unasked, Undisturbed, HandleBobSwapInterruptAfterLock, Measure;
    BobLoopLowersMeasure(x, rt, Sync(TransactionConfirmations(id, Some(rt.ts.btcFinalityThr))));
  }

  lemma SeesBuy(x: Swap, rt: Rt, id: TaskId)
    requires rt.ssm.BobAccordantLockFinal? && BobSigned(rt.ssm.wallet) && KeysLive(x)
    requires id in rt.syncer.tasks.retrievingTxs && rt.syncer.tasks.retrievingTxs[id].0 == Buy
    ensures var msg := Sync(TransactionRetrieved(id, Some(Tx(0))));
      Next(x, rt, msg).Goto? && Next(x, rt, msg).next.BobBuyFinal?
  {
    hide Framed, Tail, Unasked, Undisturbed, HandleBobSwapInterruptAfterLock;
  }

  lemma BuyOnward(env: Env, x: Swap, rt: Rt) returns (source: ServiceId, msg: BusMsg)
    requires rt.ssm.BobAccordantLockFinal? && StageOk(env, x, Bob, rt.ssm) && KeysLive(x)
    requires PlaceOk(env, x, rt.ssm, rt.txs, rt.syncer.tasks) && TablesOk(env, rt.syncer.tasks)
    ensures GoesOnward(x, rt, source, msg)
  {
    hide GoesOnward, Next, Advances, EventFits, TablesOk;
    var t := rt.syncer.tasks;
    source := ServiceId.Syncer(Bitcoin);
    if Buy in t.txids {
      var id :| id in t.watchedTxs && t.watchedTxs[id] == Buy;
      var e := TransactionConfirmations(id, Some(rt.ts.btcFinalityThr));
      msg := Sync(e);
      FetchesBuy(x, rt, id);
      WatchedFits(env, rt, id, rt.ts.btcFinalityThr);
      LoopOnward(x, rt, e);
    } else {
      var id :| id in t.retrievingTxs && t.retrievingTxs[id].0 == Buy;
      msg := Sync(TransactionRetrieved(id, Some(Tx(0))));
      SeesBuy(x, rt, id);
      RetrievedFits(rt, id);
      SyncerOnward(x, rt, TransactionRetrieved(id, Some(Tx(0))));
    }
  }

  lemma RetrievedFits(rt: Rt, id: TaskId)
    ensures EventFits(Anything(false), rt, ServiceId.Syncer(Bitcoin), TransactionRetrieved(id, Some(Tx(0))))
    ensures EventFits(Anything(false), rt, ServiceId.Syncer(Bitcoin), SweepSuccess(id))
  {
  }

  lemma SeesRefund(x: Swap, rt: Rt, id: TaskId)
    requires rt.ssm.AliceCanceled? && AliceSigned(rt.ssm.wallet) && KeysLive(x)
    requires id in rt.syncer.tasks.retrievingTxs && rt.syncer.tasks.retrievingTxs[id].0 == Refund
    ensures var msg := Sync(TransactionRetrieved(id, Some(Tx(0))));
      Next(x, rt, msg).Goto? && Next(x, rt, msg).next != rt.ssm && Onward(rt.ssm, Next(x, rt, msg).next)
  {
    hide Framed, Tail, Unasked, Undisturbed;
  }

  lemma RefundOnward(env: Env, x: Swap, rt: Rt) returns (source: ServiceId, msg: BusMsg)
    requires rt.ssm.AliceCanceled? && StageOk(env, x, Alice, rt.ssm) && KeysLive(x)
    requires PlaceOk(env, x, rt.ssm, rt.txs, rt.syncer.tasks) && TablesOk(env, rt.syncer.tasks)
    ensures GoesOnward(x, rt, source, msg)
  {
    hide GoesOnward, Next, Advances, EventFits, TablesOk;
    var t := rt.syncer.tasks;
    source := ServiceId.Syncer(Bitcoin);
    if Refund in t.txids {
      var id :| id in t.watchedTxs && t.watchedTxs[id] == Refund;
      var e := TransactionConfirmations(id, Some(rt.ts.btcFinalityThr));
      msg := Sync(e);
      FetchesRefund(x, rt, id);
      WatchedFits(env, rt, id, rt.ts.btcFinalityThr);
      LoopOnward(x, rt, e);
    } else {
      var id :| id in t.retrievingTxs && t.retrievingTxs[id].0 == Refund;
      msg := Sync(TransactionRetrieved(id, Some(Tx(0))));
      SeesRefund(x, rt, id);
      RetrievedFits(rt, id);
      SyncerOnward(x, rt, TransactionRetrieved(id, Some(Tx(0))));
    }
  }

  lemma SignatureOnward(env: Env, x: Swap, rt: Rt) returns (source: ServiceId, msg: BusMsg)
    requires rt.ssm.AliceAccordantLock? && StageOk(env, x, Alice, rt.ssm) && CryptoLive(x.crypto)
    ensures GoesOnward(x, rt, source, msg)
  {
    hide GoesOnward, Framed, Tail, Unasked, Rt.WatchTxBtc, Rt.CheckpointOf, Rt.Broadcast;
    assert CanBuy(x.crypto, rt.ssm.wallet.coreArbSetup.value);
    var buySig :| x.crypto.buyVerifies(rt.ssm.wallet.coreArbSetup.value, buySig);
    source, msg := rt.peerService, P2p(BuyProcedureSignature(x.swapId, buySig));
    PeerOnward(x, rt, BuyProcedureSignature(x.swapId, buySig));
  }

  lemma SweepOnward(env: Env, x: Swap, rt: Rt) returns (source: ServiceId, msg: BusMsg)
    requires rt.ssm.BobBuyFinal? || rt.ssm.AliceRefund?
    requires TablesOk(env, rt.syncer.tasks)
    ensures GoesOnward(x, rt, source, msg)
  {
    hide GoesOnward, Framed, Tail, Unasked, EventFits, TablesOk;
    var e := TransactionConfirmations(0, Some(rt.ts.sweepMoneroThr));
    source, msg := ServiceId.Syncer(Bitcoin), Sync(e);
    WatchedFits(env, rt, 0, rt.ts.sweepMoneroThr);
    SyncerOnward(x, rt, e);
  }

  lemma SweepingOnward(env: Env, x: Swap, rt: Rt) returns (source: ServiceId, msg: BusMsg)
    requires rt.ssm.BobBuySweeping? || rt.ssm.BobAbortAwaitingBitcoinSweep? || rt.ssm.AliceRefundSweeping?
    requires PlaceOk(env, x, rt.ssm, rt.txs, rt.syncer.tasks)
    ensures GoesOnward(x, rt, source, msg)
  {
    hide GoesOnward, Framed, Tail, Unasked, EventFits, CloseFunding, Rt.AbortAllTasks, Rt.ForgetTxs;
    var e := SweepSuccess(rt.syncer.tasks.sweepingAddr.value);
    source, msg := ServiceId.Syncer(Bitcoin), Sync(e);
    RetrievedFits(rt, rt.syncer.tasks.sweepingAddr.value);
    SyncerOnward(x, rt, e);
  }

  lemma EarlyOnward(env: Env, x: Swap, role: SwapRole, rt: Rt) returns (source: ServiceId, msg: BusMsg)
    requires InSetup(rt.ssm) || rt.ssm.BobReveal? || rt.ssm.BobFunded? || rt.ssm.AliceReveal? || rt.ssm.BobFeeEstimated?
    requires rt.ssm.BobFeeEstimated? ==> rt.syncer.awaitingFunding
    requires StageOk(env, x, role, rt.ssm) && PlaceOk(env, x, rt.ssm, rt.txs, rt.syncer.tasks) && CryptoLive(x.crypto)
    ensures GoesOnward(x, rt, source, msg)
  {
    hide GoesOnward, StageOk, PlaceOk, CryptoLive;
    if rt.ssm.StartTaker? || rt.ssm.StartMaker? {
      source, msg := StartOnward(env, x, role, rt);
    } else if rt.ssm.BobInitTaker? || rt.ssm.AliceInitTaker? {
      source, msg := CommitOnward(env, x, role, rt);
    } else if InSetup(rt.ssm) {
      source, msg := RevealOnward(env, x, role, rt);
    } else if rt.ssm.BobFeeEstimated? {
      source, msg := FundingOnward(env, x, role, rt);
    } else {
      source, msg := UncommittedOnward(env, x, role, rt);
    }
  }

  lemma LateOnward(env: Env, x: Swap, role: SwapRole, rt: Rt) returns (source: ServiceId, msg: BusMsg)
    requires !InSetup(rt.ssm) && !rt.ssm.BobReveal? && !rt.ssm.BobFunded? && !rt.ssm.AliceReveal?
      && !rt.ssm.BobFeeEstimated?
    requires !rt.ssm.SwapEnd? && KeysLive(x) && CryptoLive(x.crypto) && StageOk(env, x, role, rt.ssm)
    requires PlaceOk(env, x, rt.ssm, rt.txs, rt.syncer.tasks) && TablesOk(env, rt.syncer.tasks)
    ensures GoesOnward(x, rt, source, msg)
  {
    hide GoesOnward, PlaceOk, CryptoLive, KeysLive, TablesOk, AliceSigned, BobSigned, SignedFits, SameParams;
    if AwaitsConfirmation(rt.ssm) {
      source, msg := ConfirmationOnward(env, x, role, rt);
    } else if rt.ssm.BobRefundProcedureSignatures? || rt.ssm.AliceArbitratingLockFinal? {
      source, msg := PaymentOnward(env, x, rt);
    } else if rt.ssm.BobAccordantLockFinal? {
      source, msg := BuyOnward(env, x, rt);
    } else if rt.ssm.AliceCanceled? {
      source, msg := RefundOnward(env, x, rt);
    } else if rt.ssm.AliceAccordantLock? {
      source, msg := SignatureOnward(env, x, rt);
    } else if rt.ssm.BobBuyFinal? || rt.ssm.AliceRefund? {
      source, msg := SweepOnward(env, x, rt);
    } else {
      source, msg := SweepingOnward(env, x, rt);
    }
  }

  /** In every reachable state the protocol's own next event is one the bus may deliver, and
      the labels, tasks and transactions its handler asks for are there. The one exception is
      a funding that has been answered without a transition. */
  lemma ForwardIsOpen(env: Env, x: Swap, tradeRole: TradeRole, rt: Rt) returns (source: ServiceId, msg: BusMsg)
    requires Reachable(env, x, tradeRole, rt) && CryptoFits(env, x.crypto) && KeysLive(x) && CryptoLive(x.crypto)
    requires !rt.ssm.SwapEnd? && (rt.ssm.BobFeeEstimated? ==> rt.syncer.awaitingFunding)
    ensures GoesOnward(x, rt, source, msg)
  {
    hide CommitPart, FundingPart, PublishPart, Alone, ReleasePart, SentPart, HeardPart, CryptoFits, Reachable, Quiet,
      KeysLive, CryptoLive, StageOk, PlaceOk, TablesOk, KeptOk, GoesOnward;
    ReachableSound(env, x, tradeRole, rt);
    var role := x.RoleOf(tradeRole);
    if InSetup(rt.ssm) || rt.ssm.BobReveal? || rt.ssm.BobFunded? || rt.ssm.AliceReveal? || rt.ssm.BobFeeEstimated? {
      source, msg := EarlyOnward(env, x, role, rt);
    } else {
      source, msg := LateOnward(env, x, role, rt);
    }
  }
}
