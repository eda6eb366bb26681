/** The swap state machine: what every state does with every message. */
module SwapState {
  import opened Types
  import opened SwapWallet
  import opened SwapRuntime

  /** What a message without a transition can do at most: broadcast Cancel, drop a
      retrieval, answer a client. */
  ghost predicate Undisturbed(rt: Rt, r: Rt) {
    && r == rt.(txs := r.txs, syncer := r.syncer, log := r.log)
    && r.syncer == rt.syncer.(tasks := r.syncer.tasks)
    && r.syncer.tasks.txids == rt.syncer.tasks.txids
    && r.syncer.tasks.watchedTxs == rt.syncer.tasks.watchedTxs
    && r.syncer.tasks.watchedAddrs == rt.syncer.tasks.watchedAddrs
    && (forall id :: id in r.syncer.tasks.retrievingTxs ==>
          id in rt.syncer.tasks.retrievingTxs && r.syncer.tasks.retrievingTxs[id] == rt.syncer.tasks.retrievingTxs[id])
    && (r.txs == rt.txs || r.txs == rt.txs - {Cancel})
  }

  /** What no handler touches: the machine's own slot, the parameters, the kept messages. */
  ghost predicate Framed(rt: Rt, r: Rt) {
    && r.ssm == rt.ssm && r.ts == rt.ts && r.tradeRole == rt.tradeRole && r.runStart == rt.runStart
    && r.unhandledPeerMessage == rt.unhandledPeerMessage
    && r.pendingPeerRequests == rt.pendingPeerRequests
    && r.syncer.lockTxConfs == rt.syncer.lockTxConfs
    && r.syncer.cancelTxConfs == rt.syncer.cancelTxConfs
    && r.syncer.buyTxConfs == rt.syncer.buyTxConfs
  }

  /** The kinds of send of a step that may end an open funding request. */
  function FundKinds(rt: Rt): set<Kind> {
    if rt.syncer.awaitingFunding then {Fund} else {}
  }

  function PublishKinds(rt: Rt): set<Kind> {
    {Publish} + FundKinds(rt)
  }

  /** No funding is asked for, and whoever asked for the swap stays the same. */
  ghost predicate Unasked(rt: Rt, r: Rt) {
    (r.syncer.awaitingFunding ==> rt.syncer.awaitingFunding) && r.enquirer == rt.enquirer
  }

  /** A stored checkpoint holds the state the step goes to. */
  ghost predicate StoresNext(rt: Rt, step: Step) {
    forall k :: |rt.log| <= k < |step.rt.log| && step.rt.log[k].Out? && step.rt.log[k].send.ToDatabase? ==>
      step.Goto? &&
      var cp := step.rt.log[k].send.checkpoint;
      cp.state == step.next && cp.tradeRole == rt.tradeRole && cp.temporalSafety == rt.ts && cp.enquirer == rt.enquirer
  }

  function WatchHeights(rt: Rt): (r: Rt)
    ensures Framed(rt, r) && Unasked(rt, r) && Tail(rt.log, r.log, {Begin})
  {
    rt.WatchHeightOf(Bitcoin).WatchHeightOf(Monero)
  }

  function OwnCommit(x: Swap, w: Wallet): Commit {
    Commit(w.localParams.role, x.crypto.commitTo(w.localParams))
  }

  /** Bob's wallet has a funding address to tell about; then the counterparty hears. */
  function Announce(rt: Rt, w: Wallet, m: PeerMsg): (r: Rt)
    requires KindOf(ToPeer(m)).Plain?
    ensures r == rt.(log := r.log) && Tail(rt.log, r.log, {})
  {
    (if w.BobWallet? then rt.Emit(SetAddressSecretKey(Bitcoin)) else rt).Emit(ToPeer(m))
  }

  function AttemptTransitionToInitTaker(x: Swap, rt: Rt, role: SwapRole, msg: BusMsg): (step: Step)
    ensures step.Goto? ==> step.next.BobInitTaker? || step.next.AliceInitTaker? || step.next.EndsIn(FailureAbort)
    ensures step.Stay? ==> step.rt == rt
    ensures Framed(rt, step.rt)
    ensures step.rt.syncer.awaitingFunding == rt.syncer.awaitingFunding
    ensures step.rt.enquirer == rt.enquirer || step.rt.enquirer.Some?
    ensures step.Goto? && !step.next.SwapEnd? ==> step.rt.enquirer.Some?
    ensures Tail(rt.log, step.rt.log, {Begin})
  {
    match msg
    case Ctl(TakeSwap(peerd, reportTo, forSwap)) =>
      if forSwap != x.swapId then Stay(rt)
      else
        var r := WatchHeights(rt)
          .(peerService := peerd, connected := !(peerd.Peerd? && peerd.thread == 0), enquirer := Some(reportTo));
        (match NewTaker(x.crypto, x.deal)
         case None => Fail(r, CryptoFailure)
         case Some(w) =>
           Goto(Announce(r, w, TakerCommit(x.swapId, OwnCommit(x, w), x.deal)),
                if role == Bob then BobInitTaker(w.localParams, w) else AliceInitTaker(w.localParams, w)))
    case Ctl(AbortSwap) => HandleAbortSwap(rt)
    case _ => Stay(rt)
  }

  function AttemptTransitionToInitMaker(x: Swap, rt: Rt, role: SwapRole, msg: BusMsg): (step: Step)
    ensures step.Goto? ==> step.next.BobInitMaker? || step.next.AliceInitMaker? || step.next.EndsIn(FailureAbort)
    ensures step.Stay? ==> step.rt == rt
    ensures Framed(rt, step.rt)
    ensures step.rt.syncer.awaitingFunding == rt.syncer.awaitingFunding
    ensures step.rt.enquirer == rt.enquirer || step.rt.enquirer.Some?
    ensures step.Goto? && !step.next.SwapEnd? ==> step.rt.enquirer.Some?
    ensures Tail(rt.log, step.rt.log, {Begin})
  {
    match msg
    case Ctl(MakeSwap(peerd, reportTo, commit)) =>
      var r := WatchHeights(rt);
      (match NewMaker(x.crypto, x.deal, commit)
       case Failed(e) =>
         Fail(if e.PeerFault? && x.deal.makerRole == Bob then r.Emit(SetAddressSecretKey(Bitcoin)) else r, e)
       case Done(w, _) =>
         var r1 := r.(peerService := peerd, connected := rt.connected || peerd != Loopback, enquirer := Some(reportTo));
         Goto(Announce(r1, w, MakerCommit(x.swapId, OwnCommit(x, w))), if role == Bob
           then BobInitMaker(w.localParams, commit, w)
                  else AliceInitMaker(w.localParams, commit, w)))
    case Ctl(AbortSwap) => HandleAbortSwap(rt)
    case _ => Stay(rt)
  }

  function TryBobInitTakerToBobTakerMakerCommit(x: Swap, rt: Rt, local: Params, w: Wallet, msg: BusMsg): (step: Step)
    ensures step.Goto? ==> step.next.BobTakerMakerCommit? || step.next.BobAbortAwaitingBitcoinSweep?
    ensures step.Stay? ==> step.rt == rt
    ensures Framed(rt, step.rt)
    ensures Unasked(rt, step.rt)
    ensures Tail(rt.log, step.rt.log, {})
  {
    match msg
    case P2p(DealNotFound(_)) => HandleBobAbortSwap(x, rt, w)
    case P2p(MakerCommit(_, commit)) =>
      (match HandleMakerCommit(x.crypto, w, commit)
       case Failed(e) => Fail(rt, e)
       case Done(w', rev) => Goto(rt.Emit(ToPeer(RevealMsg(x.swapId, rev))), BobTakerMakerCommit(local, commit, w')))
    case Ctl(AbortSwap) => HandleBobAbortSwap(x, rt, w)
    case _ => Stay(rt)
  }

  function TryAliceInitTakerToAliceTakerMakerCommit(x: Swap, rt: Rt, local: Params, w: Wallet,
      msg: BusMsg): (step: Step)
    ensures step.Goto? ==> step.next.AliceTakerMakerCommit? || step.next.EndsIn(FailureAbort)
    ensures step.Stay? ==> step.rt == rt
    ensures Framed(rt, step.rt)
    ensures Unasked(rt, step.rt)
    ensures Tail(rt.log, step.rt.log, {})
  {
    match msg
    case P2p(DealNotFound(_)) => HandleAbortSwap(rt)
    case P2p(MakerCommit(_, commit)) =>
      (match HandleMakerCommit(x.crypto, w, commit)
       case Failed(e) => Fail(rt, e)
       case Done(w', rev) => Goto(rt.Emit(ToPeer(RevealMsg(x.swapId, rev))), AliceTakerMakerCommit(local, commit, w')))
    case Ctl(AbortSwap) => HandleAbortSwap(rt)
    case _ => Stay(rt)
  }

  /** A reveal counts only when it opens the commitment, in the role that committed. */
  function ValidateReveal(x: Swap, rev: Reveal, commit: Commit): bool {
    rev.params.role == commit.role && x.crypto.opens(commit, rev.params)
  }

  function AttemptTransitionToBobReveal(x: Swap, rt: Rt, local: Params, commit: Commit, w: Wallet,
      msg: BusMsg): (step: Step)
    ensures step.Goto? ==> step.next.BobReveal? || step.next.BobAbortAwaitingBitcoinSweep?
    ensures step.Stay? ==> step.rt == rt
    ensures Framed(rt, step.rt)
    ensures Unasked(rt, step.rt)
    ensures Tail(rt.log, step.rt.log, {})
  {
    match msg
    case P2p(RevealMsg(_, rev)) =>
      if !ValidateReveal(x, rev, commit) then Fail(rt, PeerFault)
      else (match HandleReveal(x.crypto, w, Bob, x.deal, rev)
        case Failed(e) => Fail(rt, e)
        case Done(w', own) =>
          var r := (if own.Some? then rt.Emit(ToPeer(RevealMsg(x.swapId, own.value))) else rt).WatchBitcoinFee();
          Goto(r, BobReveal(local, rev.params, w')))
    case Ctl(AbortSwap) => HandleBobAbortSwap(x, rt, w)
    case _ => Stay(rt)
  }

  function AttemptTransitionToAliceReveal(x: Swap, rt: Rt, local: Params, commit: Commit, w: Wallet,
      msg: BusMsg): (step: Step)
    ensures step.Goto? ==> step.next.AliceReveal? || step.next.EndsIn(FailureAbort)
    ensures step.Stay? ==> step.rt == rt
    ensures Framed(rt, step.rt)
    ensures Unasked(rt, step.rt)
    ensures Tail(rt.log, step.rt.log, {})
  {
    match msg
    case P2p(RevealMsg(_, rev)) =>
      if !ValidateReveal(x, rev, commit) then Fail(rt, PeerFault)
      else (match HandleReveal(x.crypto, w, Alice, x.deal, rev)
        case Failed(e) => Fail(rt, e)
        case Done(w', own) =>
          Goto(if own.Some? then rt.Emit(ToPeer(RevealMsg(x.swapId, own.value))) else rt,
               AliceReveal(local, rev.params, w')))
    case Ctl(AbortSwap) => HandleAbortSwap(rt)
    case _ => Stay(rt)
  }

  function TryBobRevealToBobFeeEstimated(x: Swap, rt: Rt, local: Params, remote: Params, w: Wallet,
      msg: BusMsg): (step: Step)
    ensures step.Goto? ==> step.next.BobFeeEstimated? || step.next.BobAbortAwaitingBitcoinSweep?
    ensures step.Stay? ==> step.rt == rt
    ensures Framed(rt, step.rt)
    ensures step.rt.enquirer == rt.enquirer
    ensures !(step.Goto? && step.next.BobFeeEstimated?) ==> Unasked(rt, step.rt)
    ensures Tail(rt.log, step.rt.log, {})
  {
    match msg
    case Sync(FeeEstimation(rate)) =>
      if !w.BobWallet? then Fail(rt, Panic)
      else
        var address := x.crypto.fundingAddress(w.localParams);
        var required := x.deal.arbitratingAmount + x.crypto.fundingFee(rate);
        var r := rt.Awaiting(true);
        var r1 := if r.enquirer.Some? then r.Emit(ToEnquirer(r.enquirer.value, BitcoinFunding(address, required)))
          else r;
        var r2 := r1.(syncer := r1.syncer.WatchAddrBtc(address, Funding)).SendTask(Bitcoin);
        Goto(r2, BobFeeEstimated(local, remote, w, required))
    case Ctl(AbortSwap) => HandleBobAbortSwap(x, rt, w)
    case _ => Stay(rt)
  }

  function TryBobFeeEstimatedToBobFunded(x: Swap, rt: Rt, local: Params, remote: Params, w: Wallet, required: nat,
      msg: BusMsg): (step: Step)
    ensures step.Goto? ==> step.next.BobFunded? || step.next.BobAbortAwaitingBitcoinSweep?
    ensures step.Goto? && step.next.BobFunded? ==> !step.rt.syncer.awaitingFunding
    ensures step.Stay? ==> step.rt == rt
    ensures Framed(rt, step.rt)
    ensures Unasked(rt, step.rt)
    ensures Tail(rt.log, step.rt.log, {Store, Propose})
  {
    match msg
    case Sync(AddressTransaction(id, _, amount, _, tx)) =>
      if rt.AddrLabelOf(id) != Some(Funding) || !rt.syncer.awaitingFunding then Stay(rt)
      else if tx.None? then Fail(rt, CryptoFailure)
      else
        var r := rt.Awaiting(false);
        if amount != required then HandleBobAbortSwap(x, r, w)
        else BobSetUpCoreArbitrating(x, r.Emit(FundingCompleted(Bitcoin)), local, remote, w, tx.value)
    case Ctl(AbortSwap) => HandleBobAbortSwap(x, rt, w)
    case _ => Stay(rt)
  }

  /** The funding arrived in the right amount: build the transactions, watch them, store
      the first checkpoint and only then tell the counterparty. */
  function BobSetUpCoreArbitrating(x: Swap, rt: Rt, local: Params, remote: Params, w: Wallet, tx: Tx): (step: Step)
    ensures step.Goto? ==> step.next.BobFunded?
    ensures Framed(rt, step.rt)
    ensures Unasked(rt, step.rt)
    ensures Tail(rt.log, step.rt.log, if step.Goto? then {Store, Propose} else {})
  {
    match ProcessFundingTx(x.crypto, w, tx)
    case Failed(e) => Fail(rt, e)
    case Done(w1, _) =>
      (match CreateCoreArb(x.crypto, w1)
       case Failed(e) => Fail(rt, e)
       case Done(w2, setup) =>
         var r := rt.WatchTxBtc(setup.lock, Lock).WatchTxBtc(setup.cancel, Cancel).WatchTxBtc(setup.refund, Refund);
         var r1 := if r.creationHeight.None? then r.(creationHeight := Some(r.syncer.Height(Monero))) else r;
         var next := BobFunded(local, remote, w2);
         var m := CoreArbitrating(x.swapId, setup);
         Goto(r1.Checkpoint(Some(m), next).Emit(ToPeer(m)), next))
  }

  function TryBobFundedToBobRefundProcedureSignatures(x: Swap, rt: Rt, local: Params, remote: Params, w: Wallet,
      msg: BusMsg): (step: Step)
    ensures step.Goto? ==> step.next.BobRefundProcedureSignatures? || step.next.BobAbortAwaitingBitcoinSweep?
    ensures step.Stay? ==> step.rt == rt
    ensures Framed(rt, step.rt)
    ensures Unasked(rt, step.rt)
    ensures Tail(rt.log, step.rt.log, {Store, Publish})
  {
    match msg
    case P2p(RefundProcedureSignatures(_, sigs)) =>
      (match HandleRefundProcedureSignatures(x.crypto, w, sigs)
       case Failed(e) => Fail(rt, e)
       case Done(w', buySig) => BobLock(x, rt, local, remote, w', w'.coreArbSetup.value, buySig))
    case Ctl(AbortSwap) => HandleBobAbortSwap(x, rt, w)
    case _ => Stay(rt)
  }

  /** Bob's point of no return: Lock is queued, the checkpoint is stored, Lock goes out. */
  function BobLock(x: Swap, rt: Rt, local: Params, remote: Params, w: Wallet, setup: CoreArbitratingSetup,
      buySig: BuySignature): (step: Step)
    ensures Framed(rt, step.rt)
    ensures Unasked(rt, step.rt)
    ensures Tail(rt.log, step.rt.log, {Store, Publish})
  {
    var r := if local.role == Bob && remote.role == Alice
             then rt.WatchAddrXmr(x.crypto.aggregate(remote, local), AccLock, None) else rt;
    var r1 := r.(txs := r.txs[Cancel := Tx(setup.cancel)][Refund := Tx(setup.refund)]).WatchTxBtc(buySig.buy, Buy);
    var next := BobRefundProcedureSignatures(local, remote, w, buySig);
    var r2 := r1.WithTasks(r1.syncer.tasks.Broadcast(Tx(setup.lock))).Checkpoint(None, next);
    Goto(r2.Broadcast(Tx(setup.lock), Some(Lock)), next)
  }

  function TryBobRefundProcedureSignaturesToBobAccordantLock(x: Swap, rt: Rt, s: SwapStateMachine,
      msg: BusMsg): (step: Step)
    requires s.BobRefundProcedureSignatures?
    ensures step.Goto? ==> step.next.BobAccordantLock? || step.next.BobCanceled?
    ensures step.Stay? ==> Undisturbed(rt, step.rt)
    ensures Framed(rt, step.rt)
    ensures Unasked(rt, step.rt)
    ensures Tail(rt.log, step.rt.log, {Publish})
  {
    match msg
    case Sync(AddressTransaction(id, hash, amount, incoming, _)) =>
      if rt.AddrLabelOf(id) != Some(AccLock) || !incoming then HandleBobSwapInterruptAfterLock(rt, msg)
      else if amount < x.deal.accordantAmount then Stay(rt)
      else
        var t := rt.syncer.tasks;
        var r := rt.WithTasks(t.(watchedAddrs := t.watchedAddrs - {id}))
          .WatchTxXmr(hash, AccLock).Emit(ToSyncer(Monero, AbortTask(id)));
        Goto(r, BobAccordantLock(s.local, s.remote, s.wallet, s.buySig))
    case _ => HandleBobSwapInterruptAfterLock(rt, msg)
  }

  function TryBobAccordantLockToBobAccordantLockFinal(x: Swap, rt: Rt, s: SwapStateMachine, msg: BusMsg): (step: Step)
    requires s.BobAccordantLock?
    ensures step.Goto? ==> step.next.BobAccordantLockFinal? || step.next.BobCanceled?
    ensures step.Stay? ==> Undisturbed(rt, step.rt)
    ensures Framed(rt, step.rt)
    ensures Unasked(rt, step.rt)
    ensures Tail(rt.log, step.rt.log, {Publish, Release})
  {
    match msg
    case Sync(TransactionConfirmations(id, Some(confs))) =>
      if rt.ts.FinalTx(confs, Monero) && rt.LabelOf(id) == Some(AccLock) then
        Goto(rt.Emit(ToPeer(BuyProcedureSignature(x.swapId, s.buySig))),
          BobAccordantLockFinal(s.local, s.remote, s.wallet))
      else HandleBobSwapInterruptAfterLock(rt, msg)
    case _ => HandleBobSwapInterruptAfterLock(rt, msg)
  }

  function TryBobAccordantLockFinalToBobBuyFinal(x: Swap, rt: Rt, s: SwapStateMachine, msg: BusMsg): (step: Step)
    requires s.BobAccordantLockFinal?
    ensures step.Goto? ==> step.next == s || step.next.BobBuyFinal? || step.next.BobCanceled?
    ensures step.Stay? ==> Undisturbed(rt, step.rt)
    ensures Framed(rt, step.rt)
    ensures Unasked(rt, step.rt)
    ensures Tail(rt.log, step.rt.log, {Publish})
  {
    match msg
    case Sync(TransactionConfirmations(id, Some(confs))) =>
      if rt.ts.FinalTx(confs, Bitcoin) && rt.LabelOf(id) == Some(Buy) && Buy in rt.syncer.tasks.txids then
        Goto(FetchTx(rt.NoteConfs(id, Some(confs), rt.ts.btcFinalityThr), Buy), s)
      else HandleBobSwapInterruptAfterLock(rt, msg)
    case Sync(TransactionRetrieved(id, Some(tx))) =>
      var t := rt.syncer.tasks;
      // the guard of the original removes the entry, whatever it was for
      var r := rt.WithTasks(t.(retrievingTxs := t.retrievingTxs - {id}));
      if id in t.retrievingTxs && t.retrievingTxs[id].0 == Buy then
        (match ProcessBuyTx(x.crypto, s.wallet, x.deal, tx, rt.creationHeight)
         case Failed(e) => Fail(r, e)
         case Done(_, keys) =>
           var r1 := r.Emit(SetAddressSecretKey(Monero)).RegisterSweep(keys, true);
           Goto(r1, BobBuyFinal(r1.syncer.tasks.LastTask())))
      else HandleBobSwapInterruptAfterLock(r, msg)
    case _ => HandleBobSwapInterruptAfterLock(rt, msg)
  }

  /** The label leaves `txids`, so that its transaction is asked for only once. */
  function FetchTx(rt: Rt, l: TxLabel): Rt
    requires l in rt.syncer.tasks.txids
  {
    var t := rt.syncer.tasks;
    rt.WithTasks(t.(txids := t.txids - {l})).RetrieveTxBtc(t.txids[l], l)
  }

  /** Shared by BobBuyFinal and AliceRefund. Any confirmation with a high enough count
      starts the sweep, whichever transaction it is about. */
  function TrySweep(rt: Rt, sweep: Task, next: SwapStateMachine, msg: BusMsg): (step: Step)
    ensures step.Stay? ==> step.rt == rt
    ensures Framed(rt, step.rt)
    ensures Unasked(rt, step.rt)
    ensures Tail(rt.log, step.rt.log, {})
  {
    match msg
    case Sync(TransactionConfirmations(_, Some(confs))) =>
      if confs >= rt.ts.sweepMoneroThr then Goto(rt.Emit(ToSyncer(Monero, sweep)), next) else Stay(rt)
    case _ => Stay(rt)
  }

  function TryBobCancelFinalToSwapEnd(rt: Rt, msg: BusMsg): (step: Step)
    ensures step.Goto? ==> step.next.EndsIn(FailureRefund)
    ensures step.Stay? ==> step.rt == rt
    ensures Framed(rt, step.rt)
    ensures Unasked(rt, step.rt)
    ensures Tail(rt.log, step.rt.log, {})
  {
    match msg
    case Sync(TransactionConfirmations(id, Some(confs))) =>
      if rt.ts.FinalTx(confs, Bitcoin) && rt.LabelOf(id) == Some(Refund) then
        Goto(rt.NoteConfs(id, Some(confs), rt.ts.btcFinalityThr).AbortAllTasks().ForgetTxs(), SwapEnd(FailureRefund))
      else Stay(rt)
    case _ => Stay(rt)
  }

  function TryBobCanceledToBobCancelFinal(rt: Rt, msg: BusMsg): (step: Step)
    ensures step.Goto? ==> step.next.BobCancelFinal?
    ensures step.Stay? ==> step.rt == rt
    ensures Framed(rt, step.rt)
    ensures Unasked(rt, step.rt)
    ensures Tail(rt.log, step.rt.log, {Publish})
  {
    match msg
    case Sync(TransactionConfirmations(id, Some(confs))) =>
      if rt.ts.FinalTx(confs, Bitcoin) && rt.LabelOf(id) == Some(Cancel) && Refund in rt.txs then
        var r := rt.NoteConfs(id, Some(confs), rt.ts.btcFinalityThr);
        Goto(r.(txs := r.txs - {Refund}).Broadcast(rt.txs[Refund], Some(Refund)), BobCancelFinal)
      else Stay(rt)
    case _ => Stay(rt)
  }

  function TryAwaitingSweepToSwapEnd(rt: Rt, msg: BusMsg): (step: Step)
    ensures step.Goto? ==> step.next.EndsIn(FailureAbort)
    ensures step.Stay? ==> step.rt == rt
    ensures Framed(rt, step.rt)
    ensures Unasked(rt, step.rt)
    ensures Tail(rt.log, step.rt.log, {})
  {
    match msg
    case Sync(TaskAborted(ids)) =>
      if |ids| == 1 && rt.syncer.tasks.sweepingAddr == Some(ids[0])
      then Goto(rt.Emit(FundingCanceled(Bitcoin)), SwapEnd(FailureAbort)) else Stay(rt)
    case Sync(SweepSuccess(id)) =>
      if rt.syncer.tasks.sweepingAddr == Some(id)
      then Goto(rt.Emit(FundingCanceled(Bitcoin)), SwapEnd(FailureAbort)) else Stay(rt)
    case _ => Stay(rt)
  }

  /** Alice watches first and checks the setup afterwards, so a refused setup stays watched. */
  function TryAliceRevealToAliceCoreArbitratingSetup(x: Swap, rt: Rt, local: Params, remote: Params, w: Wallet,
      msg: BusMsg): (step: Step)
    ensures step.Goto? ==> step.next.AliceCoreArbitratingSetup? || step.next.EndsIn(FailureAbort)
    ensures step.Stay? ==> step.rt == rt
    ensures Framed(rt, step.rt)
    ensures Unasked(rt, step.rt)
    ensures Tail(rt.log, step.rt.log, if step.Goto? && step.next.AliceCoreArbitratingSetup? then {Store, Sign} else {})
  {
    match msg
    case P2p(CoreArbitrating(_, setup)) =>
      var r := rt.WatchTxBtc(setup.lock, Lock).WatchTxBtc(setup.cancel, Cancel).WatchTxBtc(setup.refund, Refund);
      (match HandleCoreArbitratingSetup(x.crypto, w, setup)
       case Failed(e) => Fail(r, e)
       case Done(w', (sigs, punish)) =>
         var r1 := r.(txs := r.txs[Cancel := Tx(setup.cancel)][Punish := punish]);
         var next := AliceCoreArbitratingSetup(local, remote, w');
         var m := RefundProcedureSignatures(x.swapId, sigs);
         Goto(r1.Checkpoint(Some(m), next).Emit(ToPeer(m)), next))
    case Ctl(AbortSwap) => HandleAbortSwap(rt)
    case _ => Stay(rt)
  }

  function TryAliceCoreArbitratingSetupToAliceArbitratingLockFinal(x: Swap, rt: Rt, local: Params, remote: Params,
      w: Wallet, msg: BusMsg): (step: Step)
    ensures step.Goto? ==> step.next.AliceArbitratingLockFinal? || step.next.AliceCanceled?
    ensures step.Stay? ==> Undisturbed(rt, step.rt)
    ensures Framed(rt, step.rt)
    ensures Unasked(rt, step.rt)
    ensures Tail(rt.log, step.rt.log, PublishKinds(rt))
  {
    match msg
    case Sync(TransactionConfirmations(id, Some(confs))) =>
      if rt.ts.FinalTx(confs, Bitcoin) && rt.LabelOf(id) == Some(Lock) then
        if local.role == Alice && remote.role == Bob then
          var keys := x.crypto.aggregate(local, remote);
          var r := if rt.creationHeight.None? then rt.(creationHeight := Some(rt.syncer.Height(Monero))) else rt;
          var info := MoneroFunding(keys.0, keys.1, x.deal.accordantAmount);
          Goto(r.WatchAddrXmr(keys, AccLock, r.creationHeight),
            AliceArbitratingLockFinal(w, info, x.deal.accordantAmount))
        else Stay(rt)
      else HandleAliceSwapInterruptAfterLock(rt, w, msg)
    case _ => HandleAliceSwapInterruptAfterLock(rt, w, msg)
  }

  function TryAliceArbitratingLockFinalToAliceAccordantLock(x: Swap, rt: Rt, s: SwapStateMachine,
      msg: BusMsg): (step: Step)
    requires s.AliceArbitratingLockFinal?
    ensures step.Goto? ==> step.next == s || step.next.AliceAccordantLock? || step.next.AliceCanceled?
    ensures step.Stay? ==> Undisturbed(rt, step.rt)
    ensures Framed(rt, step.rt)
    ensures step.rt.enquirer == rt.enquirer
    ensures Tail(rt.log, step.rt.log, {Publish, Fund})
  {
    match msg
    case Sync(Empty(id)) =>
      if rt.AddrLabelOf(id) == Some(AccLock) then
        var r := rt.Awaiting(true);
        Goto(if r.enquirer.Some? then r.Emit(ToEnquirer(r.enquirer.value, s.fundingInfo)) else r, s)
      else Stay(rt)
    case Sync(TransactionConfirmations(id, Some(confs))) =>
      if rt.ts.FinalTx(confs, Bitcoin) && rt.LabelOf(id) == Some(Lock)
         && rt.ts.StopFundingBeforeCancel(confs) && rt.syncer.awaitingFunding then
        Goto(rt.Emit(FundingCanceled(Monero)).Awaiting(false), s)
      else HandleAliceSwapInterruptAfterLock(rt, s.wallet, msg)
    case Sync(AddressTransaction(id, hash, amount, incoming, _)) =>
      if rt.AddrLabelOf(id) == Some(AccLock) && incoming then AliceSeesFunding(rt, s, id, hash, amount)
      else Stay(rt)
    case _ => HandleAliceSwapInterruptAfterLock(rt, s.wallet, msg)
  }

  /** Underfunding is still followed; overfunding goes straight to the cancel path. */
  function AliceSeesFunding(rt: Rt, s: SwapStateMachine, id: TaskId, hash: Txid, amount: nat): (step: Step)
    requires s.AliceArbitratingLockFinal?
    ensures step.Goto? ==> step.next.AliceAccordantLock? || step.next.AliceCanceled?
    ensures Framed(rt, step.rt)
    ensures Unasked(rt, step.rt)
    ensures Tail(rt.log, step.rt.log, FundKinds(rt))
  {
    var r := rt.WithTasks(rt.syncer.tasks.WatchTx(hash, AccLock));
    var task := r.syncer.tasks.LastTask();
    var r1 := if r.syncer.awaitingFunding then r.Emit(FundingCompleted(Monero)).Awaiting(false) else r;
    var t := r1.syncer.tasks;
    var r2 := r1.Emit(ToSyncer(Monero, task))
      .WithTasks(t.(watchedAddrs := t.watchedAddrs - {id})).Emit(ToSyncer(Monero, AbortTask(id)));
    Goto(r2, if amount > s.requiredFunding then AliceCanceled(s.wallet) else AliceAccordantLock(s.wallet))
  }

  function TryAliceAccordantLockToAliceBuyProcedureSignature(x: Swap, rt: Rt, w: Wallet, msg: BusMsg): (step: Step)
    ensures step.Goto? ==> step.next.AliceBuyProcedureSignature? || step.next.AliceCanceled?
    ensures step.Stay? ==> Undisturbed(rt, step.rt)
    ensures Framed(rt, step.rt)
    ensures Unasked(rt, step.rt)
    ensures Tail(rt.log, step.rt.log,
      if step.Goto? && step.next.AliceBuyProcedureSignature? then {Store, Publish} else PublishKinds(rt))
  {
    match msg
    case P2p(BuyProcedureSignature(_, buySig)) =>
      var r := rt.WatchTxBtc(buySig.buy, Buy);
      (match HandleBuyProcedureSignature(x.crypto, w, buySig)
       case Failed(e) => Fail(r, e)
       case Done(w', (cancel, buy)) =>
         var r1 := r.(txs := r.txs[Cancel := cancel][Buy := buy]);
         if r1.syncer.lockTxConfs.Some? && r1.ts.ValidCancel(r1.syncer.lockTxConfs.value.count) then
           Goto(r1.Broadcast(cancel, Some(Cancel)), AliceCanceled(w'))
         else
           Goto(r1.Broadcast(buy, Some(Buy)).Checkpoint(None, AliceBuyProcedureSignature), AliceBuyProcedureSignature))
    case _ => HandleAliceSwapInterruptAfterLock(rt, w, msg)
  }

  function TryAliceBuyProcedureSignatureToSwapEnd(rt: Rt, msg: BusMsg): (step: Step)
    ensures step.Goto? ==> step.next.EndsIn(SuccessSwap)
    ensures step.Stay? ==> step.rt == rt
    ensures Framed(rt, step.rt)
    ensures Unasked(rt, step.rt)
    ensures Tail(rt.log, step.rt.log, {})
  {
    match msg
    case Sync(TransactionConfirmations(id, Some(confs))) =>
      if rt.ts.FinalTx(confs, Bitcoin) && rt.LabelOf(id) == Some(Buy) then
        var r := rt.NoteConfs(id, Some(confs), rt.ts.btcFinalityThr).AbortAllTasks();
        Goto(r.(txs := r.txs - {Cancel, Punish}), SwapEnd(SuccessSwap))
      else Stay(rt)
    case _ => Stay(rt)
  }

  /** A transaction kept for later leaves `txs`, is watched and goes out. */
  function WatchAndPublish(rt: Rt, l: TxLabel): Rt
    requires l in rt.txs
  {
    rt.(txs := rt.txs - {l}).WatchTxBtc(rt.txs[l].txid, l).Broadcast(rt.txs[l], Some(l))
  }

  /** What the transactions of the swap that turn final mean for Alice after Cancel. */
  function AliceSeesConfirmed(rt: Rt, s: SwapStateMachine, id: TaskId, confs: nat): (step: Step)
    requires s.AliceCanceled?
    ensures step.Goto? ==> step.next == s || step.next.EndsIn(FailurePunish)
    ensures step.Stay? ==> step.rt == rt
    ensures Framed(rt, step.rt)
    ensures Unasked(rt, step.rt)
    ensures Tail(rt.log, step.rt.log, {Publish})
  {
    if !rt.ts.FinalTx(confs, Bitcoin) || rt.LabelOf(id).None? then Stay(rt)
    else
      var t := rt.syncer.tasks;
      (match t.watchedTxs[id]
       case Refund =>
         if Refund in t.txids then Goto(FetchTx(rt, Refund), s) else Stay(rt)
       case Cancel =>
         if rt.ts.ValidPunish(confs) && Punish in rt.txs then Goto(WatchAndPublish(rt, Punish), s) else Stay(rt)
       case Punish => Goto(rt.AbortAllTasks().ForgetTxs(), SwapEnd(FailurePunish))
       case Lock =>
         if rt.ts.ValidCancel(confs) && Cancel in rt.txs then Goto(WatchAndPublish(rt, Cancel), s) else Stay(rt)
       case _ => Stay(rt))
  }

  function TryAliceCanceledToAliceRefundOrAlicePunish(x: Swap, rt: Rt, s: SwapStateMachine, msg: BusMsg): (step: Step)
    requires s.AliceCanceled?
    ensures step.Goto? ==>
      step.next == s || step.next.AliceRefund? || step.next.EndsIn(FailureRefund) || step.next.EndsIn(FailurePunish)
    ensures step.Stay? ==> step.rt == rt
    ensures Framed(rt, step.rt)
    ensures Unasked(rt, step.rt)
    ensures Tail(rt.log, step.rt.log, PublishKinds(rt))
  {
    match msg
    case Sync(TransactionConfirmations(id, Some(confs))) => AliceSeesConfirmed(rt, s, id, confs)
    case Sync(TransactionRetrieved(id, Some(tx))) =>
      var t := rt.syncer.tasks;
      if id in t.retrievingTxs && t.retrievingTxs[id].0 == Refund
      then AliceSeesRefund(x, rt.WithTasks(t.(retrievingTxs := t.retrievingTxs - {id})), s.wallet, tx)
      else Stay(rt)
    case _ => Stay(rt)
  }

  /** With the Refund transaction Alice can sweep her Monero, if she ever locked any. */
  function AliceSeesRefund(x: Swap, rt: Rt, w: Wallet, tx: Tx): (step: Step)
    ensures step.Goto? ==> step.next.AliceRefund? || step.next.EndsIn(FailureRefund)
    ensures Framed(rt, step.rt)
    ensures Unasked(rt, step.rt)
    ensures Tail(rt.log, step.rt.log, FundKinds(rt))
  {
    match ProcessRefundTx(x.crypto, w, x.deal, tx, rt.creationHeight)
    case Failed(e) => Fail(rt, e)
    case Done(_, keys) =>
      var r := rt.Emit(SetAddressSecretKey(Monero));
      if AccLock in r.syncer.confirmations then
        var r1 := r.RegisterSweep(keys, true);
        Goto(r1, AliceRefund(r1.syncer.tasks.LastTask()))
      else Goto(CloseFunding(r, Monero).AbortAllTasks().ForgetTxs(), SwapEnd(FailureRefund))
  }

  /** The late clean-up of a funding request that was never closed. */
  function CloseFunding(rt: Rt, chain: Blockchain): Rt {
    if rt.syncer.awaitingFunding then rt.Awaiting(false).Emit(FundingCompleted(chain)) else rt
  }

  /** Shared by BobBuySweeping and AliceRefundSweeping. */
  function TrySweepingToSwapEnd(rt: Rt, chain: Blockchain, outcome: Outcome, msg: BusMsg): (step: Step)
    ensures step.Stay? ==> step.rt == rt
    ensures Framed(rt, step.rt)
    ensures Unasked(rt, step.rt)
    ensures Tail(rt.log, step.rt.log, if chain == Monero then FundKinds(rt) else {})
  {
    match msg
    case Sync(SweepSuccess(id)) =>
      if rt.syncer.tasks.sweepingAddr == Some(id)
      then Goto(CloseFunding(rt, chain).AbortAllTasks().ForgetTxs(), SwapEnd(outcome))
      else Stay(rt)
    case _ => Stay(rt)
  }

  function HandleBobSwapInterruptAfterLock(rt: Rt, msg: BusMsg): (step: Step)
    ensures !step.Fail?
    ensures step.Goto? ==> step.next.BobCanceled?
    ensures step.Stay? ==> Undisturbed(rt, step.rt)
    ensures Framed(rt, step.rt)
    ensures Unasked(rt, step.rt)
    ensures Tail(rt.log, step.rt.log, {Publish})
  {
    match msg
    case Ctl(AbortSwap) => Stay(rt.Emit(ClientFailure))
    case Sync(TransactionConfirmations(id, Some(confs))) =>
      if rt.LabelOf(id) == Some(Lock) && rt.ts.FinalTx(confs, Bitcoin) && rt.ts.ValidCancel(confs)
        && Cancel in rt.txs then
        Stay(rt.(txs := rt.txs - {Cancel}).Broadcast(rt.txs[Cancel], Some(Cancel)))
      else if rt.LabelOf(id) == Some(Cancel) then Goto(rt, BobCanceled)
      else Stay(rt)
    case _ => Stay(rt)
  }

  function HandleAliceSwapInterruptAfterLock(rt: Rt, w: Wallet, msg: BusMsg): (step: Step)
    ensures !step.Fail?
    ensures step.Goto? ==> step.next.AliceCanceled?
    ensures step.Stay? ==> Undisturbed(rt, step.rt)
    ensures Framed(rt, step.rt)
    ensures Unasked(rt, step.rt)
    ensures Tail(rt.log, step.rt.log, PublishKinds(rt))
  {
    match msg
    case Sync(TransactionConfirmations(id, Some(confs))) =>
      if rt.LabelOf(id) == Some(Cancel) then
        Goto(if rt.syncer.awaitingFunding then rt.Emit(FundingCanceled(Monero)).Awaiting(false) else rt,
             AliceCanceled(w))
      else if rt.LabelOf(id) == Some(Lock) && rt.ts.ValidCancel(confs) && Cancel in rt.txs then
        Stay(rt.(txs := rt.txs - {Cancel}).Broadcast(rt.txs[Cancel], Some(Cancel)))
      else Stay(rt)
    case Ctl(AbortSwap) => Stay(rt.Emit(ClientFailure))
    case _ => Stay(rt)
  }

  function HandleAbortSwap(rt: Rt): (step: Step)
    ensures Framed(rt, step.rt)
    ensures Unasked(rt, step.rt)
    ensures Tail(rt.log, step.rt.log, {})
  {
    Goto(rt.Emit(ClientInfo), SwapEnd(FailureAbort))
  }

  /** Bob aborts by sweeping whatever reached his funding address. */
  function HandleBobAbortSwap(x: Swap, rt: Rt, w: Wallet): (step: Step)
    ensures step.Goto? ==> step.next.BobAbortAwaitingBitcoinSweep?
    ensures Framed(rt, step.rt)
    ensures Unasked(rt, step.rt)
    ensures Tail(rt.log, step.rt.log, {})
  {
    if !w.BobWallet? then Fail(rt, Panic)
    else match SweepBitcoinKeys(x.crypto, w)
      case Failed(e) => Fail(rt, e)
      case Done(_, keys) =>
        Goto(rt.RegisterSweep(keys, false).SendTask(Bitcoin).Emit(ClientInfo), BobAbortAwaitingBitcoinSweep)
  }

  /** The automaton: which states can come after a state. */
  predicate Follows(s: SwapStateMachine, next: SwapStateMachine) {
    match s
    case StartTaker(_) => next.BobInitTaker? || next.AliceInitTaker? || next.EndsIn(FailureAbort)
    case StartMaker(_) => next.BobInitMaker? || next.AliceInitMaker? || next.EndsIn(FailureAbort)
    case BobInitTaker(_, _) => next.BobTakerMakerCommit? || next.BobAbortAwaitingBitcoinSweep?
    case AliceInitTaker(_, _) => next.AliceTakerMakerCommit? || next.EndsIn(FailureAbort)
    case BobTakerMakerCommit(_, _, _) => next.BobReveal? || next.BobAbortAwaitingBitcoinSweep?
    case AliceTakerMakerCommit(_, _, _) => next.AliceReveal? || next.EndsIn(FailureAbort)
    case BobInitMaker(_, _, _) => next.BobReveal? || next.BobAbortAwaitingBitcoinSweep?
    case AliceInitMaker(_, _, _) => next.AliceReveal? || next.EndsIn(FailureAbort)
    case BobReveal(_, _, _) => next.BobFeeEstimated? || next.BobAbortAwaitingBitcoinSweep?
    case BobFeeEstimated(_, _, _, _) => next.BobFunded? || next.BobAbortAwaitingBitcoinSweep?
    case BobFunded(_, _, _) => next.BobRefundProcedureSignatures? || next.BobAbortAwaitingBitcoinSweep?
    case BobRefundProcedureSignatures(_, _, _, _) => next.BobAccordantLock? || next.BobCanceled?
    case BobAccordantLock(_, _, _, _) => next.BobAccordantLockFinal? || next.BobCanceled?
    case BobAccordantLockFinal(_, _, _) => next == s || next.BobBuyFinal? || next.BobCanceled?
    case BobBuyFinal(_) => next.BobBuySweeping?
    case BobBuySweeping => next.EndsIn(SuccessSwap)
    case BobCanceled => next.BobCancelFinal?
    case BobCancelFinal => next.EndsIn(FailureRefund)
    case BobAbortAwaitingBitcoinSweep => next.EndsIn(FailureAbort)
    case AliceReveal(_, _, _) => next.AliceCoreArbitratingSetup? || next.EndsIn(FailureAbort)
    case AliceCoreArbitratingSetup(_, _, _) => next.AliceArbitratingLockFinal? || next.AliceCanceled?
    case AliceArbitratingLockFinal(_, _, _) => next == s || next.AliceAccordantLock? || next.AliceCanceled?
    case AliceAccordantLock(_) => next.AliceBuyProcedureSignature? || next.AliceCanceled?
    case AliceBuyProcedureSignature => next.EndsIn(SuccessSwap)
    case AliceCanceled(_) => next == s || next.AliceRefund? || next.EndsIn(FailureRefund) || next.EndsIn(FailurePunish)
    case AliceRefund(_) => next.AliceRefundSweeping?
    case AliceRefundSweeping => next.EndsIn(FailureRefund)
    case SwapEnd(_) => false
  }

  /** The states of the exchange of commitments and parameters. */
  predicate InSetup(s: SwapStateMachine) {
    s.StartTaker? || s.StartMaker? || s.BobInitTaker? || s.AliceInitTaker? || s.BobInitMaker? || s.AliceInitMaker?
    || s.BobTakerMakerCommit? || s.AliceTakerMakerCommit?
  }

  /** The later states of Bob. */
  predicate OfBob(s: SwapStateMachine) {
    s.BobReveal? || s.BobFeeEstimated? || s.BobFunded? || s.BobRefundProcedureSignatures? || s.BobAccordantLock?
    || s.BobAccordantLockFinal? || s.BobBuyFinal? || s.BobBuySweeping? || s.BobCanceled? || s.BobCancelFinal?
    || s.BobAbortAwaitingBitcoinSweep?
  }

  /** What the steps out of a state may send. */
  function KindsOf(rt: Rt): set<Kind> {
    match rt.ssm
    case StartTaker(_) => {Begin}
    case StartMaker(_) => {Begin}
    case BobFeeEstimated(_, _, _, _) => {Store, Propose}
    case BobFunded(_, _, _) => {Store, Publish}
    case BobRefundProcedureSignatures(_, _, _, _) => {Publish}
    case BobAccordantLock(_, _, _, _) => {Publish, Release}
    case BobAccordantLockFinal(_, _, _) => {Publish}
    case BobCanceled => {Publish}
    case AliceReveal(_, _, _) => {Store, Sign}
    case AliceCoreArbitratingSetup(_, _, _) => PublishKinds(rt)
    case AliceArbitratingLockFinal(_, _, _) => {Publish, Fund}
    case AliceAccordantLock(_) => {Store} + PublishKinds(rt)
    case AliceCanceled(_) => PublishKinds(rt)
    case AliceRefundSweeping => FundKinds(rt)
    case _ => {}
  }

  function NextInSetup(x: Swap, rt: Rt, msg: BusMsg): Step {
    match rt.ssm
    case StartTaker(role) => AttemptTransitionToInitTaker(x, rt, role, msg)
    case StartMaker(role) => AttemptTransitionToInitMaker(x, rt, role, msg)
    case BobInitTaker(local, w) => TryBobInitTakerToBobTakerMakerCommit(x, rt, local, w, msg)
    case AliceInitTaker(local, w) => TryAliceInitTakerToAliceTakerMakerCommit(x, rt, local, w, msg)
    case BobTakerMakerCommit(local, commit, w) => AttemptTransitionToBobReveal(x, rt, local, commit, w, msg)
    case AliceTakerMakerCommit(local, commit, w) => AttemptTransitionToAliceReveal(x, rt, local, commit, w, msg)
    case BobInitMaker(local, commit, w) => AttemptTransitionToBobReveal(x, rt, local, commit, w, msg)
    case AliceInitMaker(local, commit, w) => AttemptTransitionToAliceReveal(x, rt, local, commit, w, msg)
    case _ => Stay(rt)
  }

  function NextOfBob(x: Swap, rt: Rt, msg: BusMsg): Step {
    match rt.ssm
    case BobReveal(local, remote, w) => TryBobRevealToBobFeeEstimated(x, rt, local, remote, w, msg)
    case BobFeeEstimated(local, remote, w, required) =>
      TryBobFeeEstimatedToBobFunded(x, rt, local, remote, w, required, msg)
    case BobFunded(local, remote, w) => TryBobFundedToBobRefundProcedureSignatures(x, rt, local, remote, w, msg)
    case BobRefundProcedureSignatures(_, _, _, _) =>
      TryBobRefundProcedureSignaturesToBobAccordantLock(x, rt, rt.ssm, msg)
    case BobAccordantLock(_, _, _, _) => TryBobAccordantLockToBobAccordantLockFinal(x, rt, rt.ssm, msg)
    case BobAccordantLockFinal(_, _, _) => TryBobAccordantLockFinalToBobBuyFinal(x, rt, rt.ssm, msg)
    case BobBuyFinal(sweep) => TrySweep(rt, sweep, BobBuySweeping, msg)
    case BobBuySweeping => TrySweepingToSwapEnd(rt, Bitcoin, SuccessSwap, msg)
    case BobCanceled => TryBobCanceledToBobCancelFinal(rt, msg)
    case BobCancelFinal => TryBobCancelFinalToSwapEnd(rt, msg)
    case BobAbortAwaitingBitcoinSweep => TryAwaitingSweepToSwapEnd(rt, msg)
    case _ => Stay(rt)
  }

  function NextOfAlice(x: Swap, rt: Rt, msg: BusMsg): Step {
    match rt.ssm
    case AliceReveal(local, remote, w) => TryAliceRevealToAliceCoreArbitratingSetup(x, rt, local, remote, w, msg)
    case AliceCoreArbitratingSetup(local, remote, w) =>
      TryAliceCoreArbitratingSetupToAliceArbitratingLockFinal(x, rt, local, remote, w, msg)
    case AliceArbitratingLockFinal(_, _, _) => TryAliceArbitratingLockFinalToAliceAccordantLock(x, rt, rt.ssm, msg)
    case AliceAccordantLock(w) => TryAliceAccordantLockToAliceBuyProcedureSignature(x, rt, w, msg)
    case AliceBuyProcedureSignature => TryAliceBuyProcedureSignatureToSwapEnd(rt, msg)
    case AliceCanceled(_) => TryAliceCanceledToAliceRefundOrAlicePunish(x, rt, rt.ssm, msg)
    case AliceRefund(sweep) => TrySweep(rt, sweep, AliceRefundSweeping, msg)
    case AliceRefundSweeping => TrySweepingToSwapEnd(rt, Monero, FailureRefund, msg)
    case _ => Stay(rt)
  }

  /** One message shown to the machine. */
  function Next(x: Swap, rt: Rt, msg: BusMsg): Step {
    if InSetup(rt.ssm) then NextInSetup(x, rt, msg)
    else if OfBob(rt.ssm) then NextOfBob(x, rt, msg)
    else NextOfAlice(x, rt, msg)
  }

  // ----- what every step keeps to -----

  /** A step follows the automaton, sends only what its state may send, touches nothing
      but its own data, and without a transition does next to nothing. */
  ghost predicate Proceeds(rt: Rt, step: Step) {
    && (step.Goto? ==> Follows(rt.ssm, step.next))
    && (step.Stay? ==> Undisturbed(rt, step.rt))
    && Framed(rt, step.rt)
    && Tail(rt.log, step.rt.log, KindsOf(rt))
    && (step.rt.syncer.awaitingFunding && !rt.syncer.awaitingFunding ==>
          rt.ssm.AliceArbitratingLockFinal? || (rt.ssm.BobReveal? && step.Goto? && step.next.BobFeeEstimated?))
    && (step.Goto? && step.next.BobFunded? ==> !step.rt.syncer.awaitingFunding)
    && (rt.enquirer.Some? || ((rt.ssm.StartTaker? || rt.ssm.StartMaker?) && step.Goto? && !step.next.SwapEnd?) ==>
       step.rt.enquirer.Some?)
  }

  lemma SetupProceeds(x: Swap, rt: Rt, msg: BusMsg)
    requires InSetup(rt.ssm)
    ensures Proceeds(rt, NextInSetup(x, rt, msg))
  {
    hide AttemptTransitionToInitTaker, AttemptTransitionToInitMaker, TryBobInitTakerToBobTakerMakerCommit,
      TryAliceInitTakerToAliceTakerMakerCommit, AttemptTransitionToBobReveal, AttemptTransitionToAliceReveal;
  }

  lemma BobProceeds(x: Swap, rt: Rt, msg: BusMsg)
    requires OfBob(rt.ssm)
    ensures Proceeds(rt, NextOfBob(x, rt, msg))
  {
    hide TryBobRevealToBobFeeEstimated, TryBobFeeEstimatedToBobFunded, TryBobFundedToBobRefundProcedureSignatures,
      TryBobRefundProcedureSignaturesToBobAccordantLock, TryBobAccordantLockToBobAccordantLockFinal,
      TryBobAccordantLockFinalToBobBuyFinal, TryBobCanceledToBobCancelFinal, TryBobCancelFinalToSwapEnd,
      TryAwaitingSweepToSwapEnd;
  }

  /** Alice before she can cancel or buy. */
  predicate EarlyAlice(s: SwapStateMachine) {
    s.AliceReveal? || s.AliceCoreArbitratingSetup? || s.AliceArbitratingLockFinal?
  }

  lemma EarlyAliceProceeds(x: Swap, rt: Rt, msg: BusMsg)
    requires EarlyAlice(rt.ssm)
    ensures Proceeds(rt, NextOfAlice(x, rt, msg))
  {
    hide TryAliceRevealToAliceCoreArbitratingSetup, TryAliceArbitratingLockFinalToAliceAccordantLock,
      TryAliceCoreArbitratingSetupToAliceArbitratingLockFinal;
  }

  lemma LateAliceProceeds(x: Swap, rt: Rt, msg: BusMsg)
    requires !InSetup(rt.ssm) && !OfBob(rt.ssm) && !EarlyAlice(rt.ssm)
    ensures Proceeds(rt, NextOfAlice(x, rt, msg))
  {
    hide TryAliceAccordantLockToAliceBuyProcedureSignature, TryAliceBuyProcedureSignatureToSwapEnd,
      TryAliceCanceledToAliceRefundOrAlicePunish;
  }

  lemma AliceProceeds(x: Swap, rt: Rt, msg: BusMsg)
    requires !InSetup(rt.ssm) && !OfBob(rt.ssm)
    ensures Proceeds(rt, NextOfAlice(x, rt, msg))
  {
    hide Proceeds, NextOfAlice;
    if EarlyAlice(rt.ssm) { EarlyAliceProceeds(x, rt, msg); } else { LateAliceProceeds(x, rt, msg); }
  }

  lemma NextProceeds(x: Swap, rt: Rt, msg: BusMsg)
    ensures Proceeds(rt, Next(x, rt, msg))
  {
    hide NextInSetup, NextOfBob, NextOfAlice, Proceeds;
    if InSetup(rt.ssm) { SetupProceeds(x, rt, msg); }
    else if OfBob(rt.ssm) { BobProceeds(x, rt, msg); }
    else { AliceProceeds(x, rt, msg); }
  }

  // ----- what is stored -----

  lemma BobSetUpStores(x: Swap, rt: Rt, local: Params, remote: Params, w: Wallet, tx: Tx)
    ensures StoresNext(rt, BobSetUpCoreArbitrating(x, rt, local, remote, w, tx))
  {}

  lemma BobFeeEstimatedStores(x: Swap, rt: Rt, local: Params, remote: Params, w: Wallet, required: nat, msg: BusMsg)
    ensures StoresNext(rt, TryBobFeeEstimatedToBobFunded(x, rt, local, remote, w, required, msg))
  {
    hide BobSetUpCoreArbitrating, HandleBobAbortSwap;
    if msg.Sync? && msg.event.AddressTransaction? && msg.event.tx.Some? {
      BobSetUpStores(x, rt.Awaiting(false).Emit(FundingCompleted(Bitcoin)), local, remote, w, msg.event.tx.value);
    }
  }

  lemma BobLockStores(x: Swap, rt: Rt, local: Params, remote: Params, w: Wallet, setup: CoreArbitratingSetup,
      buySig: BuySignature)
    ensures StoresNext(rt, BobLock(x, rt, local, remote, w, setup, buySig))
  {}

  lemma BobFundedStores(x: Swap, rt: Rt, local: Params, remote: Params, w: Wallet, msg: BusMsg)
    ensures StoresNext(rt, TryBobFundedToBobRefundProcedureSignatures(x, rt, local, remote, w, msg))
  {
    hide BobLock, HandleBobAbortSwap;
    if msg.P2p? && msg.peer.RefundProcedureSignatures? {
      var res := HandleRefundProcedureSignatures(x.crypto, w, msg.peer.sigs);
      if res.Done? { BobLockStores(x, rt, local, remote, res.wallet, res.wallet.coreArbSetup.value, res.value); }
    }
  }

  lemma AliceRevealStores(x: Swap, rt: Rt, local: Params, remote: Params, w: Wallet, msg: BusMsg)
    ensures StoresNext(rt, TryAliceRevealToAliceCoreArbitratingSetup(x, rt, local, remote, w, msg))
  {}

  lemma AliceAccordantStores(x: Swap, rt: Rt, w: Wallet, msg: BusMsg)
    ensures StoresNext(rt, TryAliceAccordantLockToAliceBuyProcedureSignature(x, rt, w, msg))
  {}

  lemma PlainlyStores(x: Swap, rt: Rt, msg: BusMsg)
    requires Store !in KindsOf(rt)
    ensures StoresNext(rt, Next(x, rt, msg))
  {
    hide Next;
    NextProceeds(x, rt, msg);
  }

  lemma NextStores(x: Swap, rt: Rt, msg: BusMsg)
    ensures StoresNext(rt, Next(x, rt, msg))
  {
    hide StoresNext, TryBobFeeEstimatedToBobFunded, TryBobFundedToBobRefundProcedureSignatures,
      TryAliceRevealToAliceCoreArbitratingSetup, TryAliceAccordantLockToAliceBuyProcedureSignature;
    match rt.ssm
    case BobFeeEstimated(l, r, w, required) => BobFeeEstimatedStores(x, rt, l, r, w, required, msg);
    case BobFunded(l, r, w) => BobFundedStores(x, rt, l, r, w, msg);
    case AliceReveal(l, r, w) => AliceRevealStores(x, rt, l, r, w, msg);
    case AliceAccordantLock(w) => AliceAccordantStores(x, rt, w, msg);
    case _ => PlainlyStores(x, rt, msg);
  }
}
