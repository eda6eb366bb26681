/** swapd as it runs: one object with mutable fields, a syncer client and an outbox. Every
    method does to the object what the function of the same name does to its value. */
module SwapdRuntime {
  import opened Types
  import opened Temporal
  import opened SyncerClient
  import opened SyncerStates
  import opened SwapWallet
  import opened WalletStates
  import opened SwapRuntime
  import State = SwapState
  import Run = Execution

  /** What a handler returns: nothing to do, the next state, or an error. */
  datatype Transition = NoTransition | To(next: SwapStateMachine) | Raise(error: Error)

  ghost function StepOf(rt: Rt, t: Transition): Step {
    match t
    case NoTransition => Stay(rt)
    case To(next) => Goto(rt, next)
    case Raise(e) => Fail(rt, e)
  }

  ghost function ResultOf(rt: Rt, err: Option<Error>): Run.Result {
    match err
    case None => Run.Ok(rt)
    case Some(e) => Run.Err(rt, e)
  }

  class Runtime {
    const x: Swap
    const syncer: SyncerState
    var ssm: SwapStateMachine
    var txs: map<TxLabel, Tx>
    var ts: TemporalSafety
    var enquirer: Option<ServiceId>
    var peerService: ServiceId
    var connected: bool
    var pendingPeerRequests: seq<PeerMsg>
    var unhandledPeerMessage: Option<PeerMsg>
    var tradeRole: TradeRole
    var creationHeight: Option<nat>
    ghost var log: seq<Entry>
    ghost var runStart: nat

    ghost function View(): Rt
      reads this, syncer
    {
      Rt(ssm, txs, syncer.View(), ts, enquirer, peerService, connected, pendingPeerRequests, unhandledPeerMessage,
         tradeRole, creationHeight, log, runStart)
    }

    constructor (x: Swap, tradeRole: TradeRole, ghost before: seq<Entry>)
      ensures this.x == x && fresh(syncer)
      ensures View() == Launch(x, tradeRole, before)
    {
      this.x := x;
      syncer := new SyncerState();
      ssm := match tradeRole
        case Maker => StartMaker(x.deal.makerRole)
        case Taker => StartTaker(x.deal.makerRole.Other());
      txs, ts, enquirer, peerService, connected := map[], x.ts, None, Peerd(0, 0), false;
      pendingPeerRequests, unhandledPeerMessage, this.tradeRole, creationHeight := [], None, tradeRole, None;
      log, runStart := before, |before|;
    }

    // ----- sending -----

    method Send(s: Send)
      modifies this`log
      ensures log == old(log) + [Out(s)]
    {
      log := log + [Out(s)];
    }

    method WatchHeight(chain: Blockchain)
      modifies this`log, syncer
      ensures View() == old(View()).WatchHeightOf(chain)
    {
      var task := syncer.WatchHeightOf();
      Send(ToSyncer(chain, task));
    }

    method WatchBitcoinFee()
      modifies this`log, syncer
      ensures View() == old(View()).WatchBitcoinFee()
    {
      var task := syncer.EstimateFeeBtc();
      Send(ToSyncer(Bitcoin, task));
    }

    method WatchTxBtc(txid: Txid, l: TxLabel)
      modifies this`log, syncer
      ensures View() == old(View()).WatchTxBtc(txid, l)
    {
      var task := syncer.WatchTxBtc(txid, l);
      Send(ToSyncer(Bitcoin, task));
    }

    method WatchAddrXmr(keys: (nat, nat), l: TxLabel, fromHeight: Option<nat>)
      modifies this`log, syncer
      ensures View() == old(View()).WatchAddrXmr(keys, l, fromHeight)
    {
      var task := syncer.WatchAddrXmr(keys.0, keys.1, l, fromHeight);
      Send(ToSyncer(Monero, task));
    }

    method WatchAddrBtc(address: nat, l: TxLabel)
      modifies this`log, syncer
      ensures View() == old(View()).(syncer := old(View()).syncer.WatchAddrBtc(address, l)).SendTask(Bitcoin)
    {
      var task := syncer.WatchAddrBtc(address, l);
      Send(ToSyncer(Bitcoin, task));
    }

    method Broadcast(tx: Tx, l: Option<TxLabel>)
      modifies this`log, syncer
      ensures View() == old(View()).Broadcast(tx, l)
    {
      var task := syncer.Broadcast(tx);
      Send(ToBroadcast(l, task));
    }

    method AbortAllTasks()
      modifies this`log
      ensures View() == old(View()).AbortAllTasks()
    {
      Send(ToSyncer(Monero, AbortAll));
      Send(ToSyncer(Bitcoin, AbortAll));
    }

    // ----- checkpoints -----

    method CheckpointState(pendingMsg: Option<PeerMsg>, next: SwapStateMachine)
      modifies this`log
      ensures View() == old(View()).Checkpoint(pendingMsg, next)
    {
      var storedTxs := Drain(txs);
      var storedIds := Drain(syncer.txids);
      var pending := syncer.PendingBroadcastTxs();
      Send(ToDatabase(CheckpointSwapd(next, pendingMsg, enquirer, syncer.xmrAddrAddendum, ts, storedTxs, storedIds,
        pending,
                                      tradeRole, creationHeight)));
    }

    // ----- the exchange of commitments and parameters -----

    method WatchHeights()
      modifies this`log, syncer
      ensures View() == State.WatchHeights(old(View()))
    {
      WatchHeight(Bitcoin);
      WatchHeight(Monero);
    }

    method Announce(w: Wallet, m: PeerMsg)
      requires KindOf(ToPeer(m)).Plain?
      modifies this`log
      ensures View() == State.Announce(old(View()), w, m)
    {
      if w.BobWallet? { Send(SetAddressSecretKey(Bitcoin)); }
      Send(ToPeer(m));
    }

    method Join(peerd: ServiceId, online: bool, reportTo: ServiceId)
      modifies this`peerService, this`connected, this`enquirer
      ensures View() == old(View()).(peerService := peerd, connected := online, enquirer := Some(reportTo))
    {
      peerService := peerd;
      connected := online;
      enquirer := Some(reportTo);
    }

    method AttemptTransitionToInitTaker(role: SwapRole, msg: BusMsg) returns (t: Transition)
      modifies this, syncer
      ensures StepOf(View(), t) == State.AttemptTransitionToInitTaker(x, old(View()), role, msg)
    {
      hide State.Framed, Tail, State.Unasked, NewTaker, State.WatchHeights, State.Announce;
      match msg
      case Ctl(TakeSwap(peerd, reportTo, forSwap)) =>
        if forSwap != x.swapId { return NoTransition; }
        WatchHeights();
        Join(peerd, !(peerd.Peerd? && peerd.thread == 0), reportTo);
        var wallet := NewTaker(x.crypto, x.deal);
        if wallet.None? { return Raise(CryptoFailure); }
        var w := wallet.value;
        Announce(w, TakerCommit(x.swapId, State.OwnCommit(x, w), x.deal));
        t := To(if role == Bob then BobInitTaker(w.localParams, w) else AliceInitTaker(w.localParams, w));
      case Ctl(AbortSwap) => t := HandleAbortSwap();
      case _ => t := NoTransition;
    }

    /** A maker watches the heights before the wallet is made, and a refused commitment
        still leaves Bob's funding key stored. */
    method JoinAsMaker(role: SwapRole, peerd: ServiceId, reportTo: ServiceId, commit: Commit) returns (t: Transition)
      modifies this, syncer
      ensures StepOf(View(), t)
        == State.AttemptTransitionToInitMaker(x, old(View()), role, Ctl(MakeSwap(peerd, reportTo, commit)))
    {
      hide State.Framed, Tail, State.Unasked, NewMaker, State.WatchHeights, State.Announce;
      WatchHeights();
      var made := NewMaker(x.crypto, x.deal, commit);
      if made.Failed? {
        if made.error.PeerFault? && x.deal.makerRole == Bob { Send(SetAddressSecretKey(Bitcoin)); }
        return Raise(made.error);
      }
      var w := made.wallet;
      Join(peerd, connected || peerd != Loopback, reportTo);
      Announce(w, MakerCommit(x.swapId, State.OwnCommit(x, w)));
      t := To(if role == Bob then BobInitMaker(w.localParams, commit, w) else AliceInitMaker(w.localParams, commit, w));
    }

    method AttemptTransitionToInitMaker(role: SwapRole, msg: BusMsg) returns (t: Transition)
      modifies this, syncer
      ensures StepOf(View(), t) == State.AttemptTransitionToInitMaker(x, old(View()), role, msg)
    {
      match msg
      case Ctl(MakeSwap(peerd, reportTo, commit)) => t := JoinAsMaker(role, peerd, reportTo, commit);
      case Ctl(AbortSwap) => t := HandleAbortSwap();
      case _ => t := NoTransition;
    }

    method HandleAbortSwap() returns (t: Transition)
      modifies this, syncer
      ensures StepOf(View(), t) == State.HandleAbortSwap(old(View()))
    {
      Send(ClientInfo);
      t := To(SwapEnd(FailureAbort));
    }

    method TryBobInitTakerToBobTakerMakerCommit(local: Params, w: Wallet, msg: BusMsg) returns (t: Transition)
      modifies this, syncer
      ensures StepOf(View(), t) == State.TryBobInitTakerToBobTakerMakerCommit(x, old(View()), local, w, msg)
    {
      hide State.Framed, Tail, State.Unasked, State.HandleBobAbortSwap;
      match msg
      case P2p(DealNotFound(_)) => t := HandleBobAbortSwap(w);
      case P2p(MakerCommit(_, commit)) =>
        var copy := CopyOf(w);
        var out := copy.HandleMakerCommit(x.crypto, commit);
        var res := copy.Finish(out);
        if res.Failed? { return Raise(res.error); }
        Send(ToPeer(RevealMsg(x.swapId, res.value)));
        t := To(BobTakerMakerCommit(local, commit, res.wallet));
      case Ctl(AbortSwap) => t := HandleBobAbortSwap(w);
      case _ => t := NoTransition;
    }

    method TryAliceInitTakerToAliceTakerMakerCommit(local: Params, w: Wallet, msg: BusMsg) returns (t: Transition)
      modifies this, syncer
      ensures StepOf(View(), t) == State.TryAliceInitTakerToAliceTakerMakerCommit(x, old(View()), local, w, msg)
    {
      match msg
      case P2p(DealNotFound(_)) => t := HandleAbortSwap();
      case P2p(MakerCommit(_, commit)) =>
        var copy := CopyOf(w);
        var out := copy.HandleMakerCommit(x.crypto, commit);
        var res := copy.Finish(out);
        if res.Failed? { return Raise(res.error); }
        Send(ToPeer(RevealMsg(x.swapId, res.value)));
        t := To(AliceTakerMakerCommit(local, commit, res.wallet));
      case Ctl(AbortSwap) => t := HandleAbortSwap();
      case _ => t := NoTransition;
    }

    method AttemptTransitionToBobReveal(local: Params, commit: Commit, w: Wallet, msg: BusMsg) returns (t: Transition)
      modifies this, syncer
      ensures StepOf(View(), t) == State.AttemptTransitionToBobReveal(x, old(View()), local, commit, w, msg)
    {
      hide State.Framed, Tail, State.Unasked, State.HandleBobAbortSwap, HandleReveal;
      match msg
      case P2p(RevealMsg(swap, rev)) => t := BobSeesReveal(local, commit, w, swap, rev);
      case Ctl(AbortSwap) => t := HandleBobAbortSwap(w);
      case _ => t := NoTransition;
    }

    method BobSeesReveal(local: Params, commit: Commit, w: Wallet, swap: SwapId, rev: Reveal) returns (t: Transition)
      modifies this, syncer
      ensures StepOf(View(), t)
        == State.AttemptTransitionToBobReveal(x, old(View()), local, commit, w, P2p(RevealMsg(swap, rev)))
    {
      hide State.Framed, Tail, State.Unasked, HandleReveal, Rt.WatchBitcoinFee;
      if !State.ValidateReveal(x, rev, commit) { return Raise(PeerFault); }
      var copy := CopyOf(w);
      var out := copy.HandleReveal(x.crypto, Bob, x.deal, rev);
      var res := copy.Finish(out);
      if res.Failed? { return Raise(res.error); }
      if res.value.Some? { Send(ToPeer(RevealMsg(x.swapId, res.value.value))); }
      WatchBitcoinFee();
      t := To(BobReveal(local, rev.params, res.wallet));
    }

    method AttemptTransitionToAliceReveal(local: Params, commit: Commit, w: Wallet, msg: BusMsg) returns (t: Transition)
      modifies this, syncer
      ensures StepOf(View(), t) == State.AttemptTransitionToAliceReveal(x, old(View()), local, commit, w, msg)
    {
      hide State.Framed, Tail, State.Unasked, HandleReveal;
      match msg
      case P2p(RevealMsg(_, rev)) =>
        if !State.ValidateReveal(x, rev, commit) { return Raise(PeerFault); }
        var copy := CopyOf(w);
        var out := copy.HandleReveal(x.crypto, Alice, x.deal, rev);
        var res := copy.Finish(out);
        if res.Failed? { return Raise(res.error); }
        if res.value.Some? { Send(ToPeer(RevealMsg(x.swapId, res.value.value))); }
        t := To(AliceReveal(local, rev.params, res.wallet));
      case Ctl(AbortSwap) => t := HandleAbortSwap();
      case _ => t := NoTransition;
    }

    // ----- Bob -----

    method HandleBobAbortSwap(w: Wallet) returns (t: Transition)
      modifies this, syncer
      ensures StepOf(View(), t) == State.HandleBobAbortSwap(x, old(View()), w)
    {
      if !w.BobWallet? { return Raise(Panic); }
      var res := SweepBitcoinKeys(x.crypto, w);
      if res.Failed? { return Raise(res.error); }
      var task := syncer.Sweep(res.value, false);
      Send(ToSyncer(Bitcoin, task));
      Send(ClientInfo);
      t := To(BobAbortAwaitingBitcoinSweep);
    }

    method TryBobRevealToBobFeeEstimated(local: Params, remote: Params, w: Wallet, msg: BusMsg) returns (t: Transition)
      modifies this, syncer
      ensures StepOf(View(), t) == State.TryBobRevealToBobFeeEstimated(x, old(View()), local, remote, w, msg)
    {
      hide Syncer.WatchAddrBtc, Rt.SendTask, State.Framed, Tail, State.Unasked, State.HandleBobAbortSwap;
      match msg
      case Sync(FeeEstimation(rate)) =>
        if !w.BobWallet? { return Raise(Panic); }
        var address := x.crypto.fundingAddress(w.localParams);
        var required := x.deal.arbitratingAmount + x.crypto.fundingFee(rate);
        AskForFunding(BitcoinFunding(address, required));
        WatchAddrBtc(address, Funding);
        t := To(BobFeeEstimated(local, remote, w, required));
      case Ctl(AbortSwap) => t := HandleBobAbortSwap(w);
      case _ => t := NoTransition;
    }

    method TryBobFeeEstimatedToBobFunded(local: Params, remote: Params, w: Wallet, required: nat, msg: BusMsg)
        returns (t: Transition)
      modifies this, syncer
      ensures StepOf(View(), t) == State.TryBobFeeEstimatedToBobFunded(x, old(View()), local, remote, w, required, msg)
    {
      hide State.Framed, Tail, State.Unasked, State.HandleBobAbortSwap, State.BobSetUpCoreArbitrating;
      match msg
      case Sync(AddressTransaction(id, _, amount, _, tx)) =>
        if !(id in syncer.watchedAddrs && syncer.watchedAddrs[id] == Funding) || !syncer.awaitingFunding {
          return NoTransition;
        }
        if tx.None? { return Raise(CryptoFailure); }
        t := BobIsFunded(local, remote, w, amount == required, tx.value);
      case Ctl(AbortSwap) => t := HandleBobAbortSwap(w);
      case _ => t := NoTransition;
    }

    method BobIsFunded(local: Params, remote: Params, w: Wallet, exact: bool, tx: Tx) returns (t: Transition)
      modifies this, syncer
      ensures var r := old(View()).Awaiting(false);
        StepOf(View(), t) == if !exact then State.HandleBobAbortSwap(x, r, w)
          else State.BobSetUpCoreArbitrating(x, r.Emit(FundingCompleted(Bitcoin)), local, remote, w, tx)
    {
      hide State.Framed, Tail, State.Unasked, State.HandleBobAbortSwap, State.BobSetUpCoreArbitrating;
      syncer.awaitingFunding := false;
      if !exact {
        t := HandleBobAbortSwap(w);
      } else {
        Send(FundingCompleted(Bitcoin));
        t := BobSetUpCoreArbitrating(local, remote, w, tx);
      }
    }

    method BobSetUpCoreArbitrating(local: Params, remote: Params, w: Wallet, tx: Tx) returns (t: Transition)
      modifies this, syncer
      ensures StepOf(View(), t) == State.BobSetUpCoreArbitrating(x, old(View()), local, remote, w, tx)
    {
      hide State.Framed, Tail, State.Unasked, ProcessFundingTx, CreateCoreArb, Rt.WatchTxBtc, Rt.CheckpointOf;
      var copy := CopyOf(w);
      var funded := copy.ProcessFundingTx(x.crypto, tx);
      if funded.Raised? { return Raise(funded.error); }
      var arb := copy.CreateCoreArb(x.crypto);
      var made := copy.Finish(arb);
      if made.Failed? { return Raise(made.error); }
      var setup := made.value;
      WatchTxBtc(setup.lock, Lock);
      WatchTxBtc(setup.cancel, Cancel);
      WatchTxBtc(setup.refund, Refund);
      if creationHeight.None? {
        var height := syncer.Height(Monero);
        creationHeight := Some(height);
      }
      var next := BobFunded(local, remote, made.wallet);
      var m := CoreArbitrating(x.swapId, setup);
      CheckpointState(Some(m), next);
      Send(ToPeer(m));
      t := To(next);
    }

    method TryBobFundedToBobRefundProcedureSignatures(local: Params, remote: Params, w: Wallet, msg: BusMsg)
        returns (t: Transition)
      modifies this, syncer
      ensures StepOf(View(), t)
        == State.TryBobFundedToBobRefundProcedureSignatures(x, old(View()), local, remote, w, msg)
    {
      hide State.Framed, Tail, State.Unasked, State.HandleBobAbortSwap, State.BobLock;
      match msg
      case P2p(RefundProcedureSignatures(_, sigs)) =>
        var copy := CopyOf(w);
        var out := copy.HandleRefundProcedureSignatures(x.crypto, sigs);
        var res := copy.Finish(out);
        if res.Failed? { return Raise(res.error); }
        t := BobLock(local, remote, res.wallet, res.wallet.coreArbSetup.value, res.value);
      case Ctl(AbortSwap) => t := HandleBobAbortSwap(w);
      case _ => t := NoTransition;
    }

    /** Lock is queued, the checkpoint is stored, and only then Lock goes out. */
    method BobLock(local: Params, remote: Params, w: Wallet, setup: CoreArbitratingSetup, buySig: BuySignature)
        returns (t: Transition)
      modifies this, syncer
      ensures StepOf(View(), t) == State.BobLock(x, old(View()), local, remote, w, setup, buySig)
    {
      hide State.Framed, Tail, State.Unasked, Rt.WatchTxBtc, Rt.WatchAddrXmr, Rt.CheckpointOf, SyncerTasks.Broadcast;
      if local.role == Bob && remote.role == Alice {
        WatchAddrXmr(x.crypto.aggregate(remote, local), AccLock, None);
      }
      txs := txs[Cancel := Tx(setup.cancel)][Refund := Tx(setup.refund)];
      WatchTxBtc(buySig.buy, Buy);
      var next := BobRefundProcedureSignatures(local, remote, w, buySig);
      var queued := syncer.Broadcast(Tx(setup.lock));
      CheckpointState(None, next);
      Broadcast(Tx(setup.lock), Some(Lock));
      t := To(next);
    }

    method TryBobRefundProcedureSignaturesToBobAccordantLock(s: SwapStateMachine, msg: BusMsg) returns (t: Transition)
      requires s.BobRefundProcedureSignatures?
      modifies this, syncer
      ensures StepOf(View(), t) == State.TryBobRefundProcedureSignaturesToBobAccordantLock(x, old(View()), s, msg)
    {
      hide State.Framed, Tail, State.Unasked, State.Undisturbed, State.HandleBobSwapInterruptAfterLock;
      match msg
      case Sync(AddressTransaction(id, hash, amount, incoming, _)) =>
        if !(id in syncer.watchedAddrs && syncer.watchedAddrs[id] == AccLock) || !incoming {
          t := HandleBobSwapInterruptAfterLock(msg);
        } else if amount < x.deal.accordantAmount {
          t := NoTransition;
        } else {
          FollowAccordantLock(id, hash);
          t := To(BobAccordantLock(s.local, s.remote, s.wallet, s.buySig));
        }
      case _ => t := HandleBobSwapInterruptAfterLock(msg);
    }

    /** From the address to the transaction that paid to it. */
    method FollowAccordantLock(id: TaskId, hash: Txid)
      modifies this`log, syncer
      ensures View() == (var r := old(View()); var tables := r.syncer.tasks;
                         r.WithTasks(tables.(watchedAddrs := tables.watchedAddrs - {id})).WatchTxXmr(hash, AccLock)
                         .Emit(ToSyncer(Monero, AbortTask(id))))
    {
      hide SyncerTasks.WatchTx;
      syncer.watchedAddrs := syncer.watchedAddrs - {id};
      var task := syncer.WatchTxXmr(hash, AccLock);
      Send(ToSyncer(Monero, task));
      Send(ToSyncer(Monero, AbortTask(id)));
    }

    method TryBobAccordantLockToBobAccordantLockFinal(s: SwapStateMachine, msg: BusMsg) returns (t: Transition)
      requires s.BobAccordantLock?
      modifies this, syncer
      ensures StepOf(View(), t) == State.TryBobAccordantLockToBobAccordantLockFinal(x, old(View()), s, msg)
    {
      hide State.Framed, Tail, State.Unasked, State.Undisturbed, State.HandleBobSwapInterruptAfterLock;
      match msg
      case Sync(TransactionConfirmations(id, Some(confs))) =>
        if ts.FinalTx(confs, Monero) && id in syncer.watchedTxs && syncer.watchedTxs[id] == AccLock {
          Send(ToPeer(BuyProcedureSignature(x.swapId, s.buySig)));
          t := To(BobAccordantLockFinal(s.local, s.remote, s.wallet));
        } else {
          t := HandleBobSwapInterruptAfterLock(msg);
        }
      case _ => t := HandleBobSwapInterruptAfterLock(msg);
    }

    /** The label leaves `txids`, so that its transaction is asked for only once. */
    method FetchTx(l: TxLabel)
      requires l in syncer.txids
      modifies this`log, syncer
      ensures View() == State.FetchTx(old(View()), l)
    {
      var txid := syncer.txids[l];
      syncer.txids := syncer.txids - {l};
      var task := syncer.RetrieveTxBtc(txid, l);
      Send(ToSyncer(Bitcoin, task));
    }

    method TryBobAccordantLockFinalToBobBuyFinal(s: SwapStateMachine, msg: BusMsg) returns (t: Transition)
      requires s.BobAccordantLockFinal?
      modifies this, syncer
      ensures StepOf(View(), t) == State.TryBobAccordantLockFinalToBobBuyFinal(x, old(View()), s, msg)
    {
      hide State.Framed, Tail, State.Unasked, State.Undisturbed, State.HandleBobSwapInterruptAfterLock, State.FetchTx;
      match msg
      case Sync(TransactionConfirmations(id, Some(confs))) =>
        if ts.FinalTx(confs, Bitcoin) && id in syncer.watchedTxs && syncer.watchedTxs[id] == Buy
          && Buy in syncer.txids {
          syncer.HandleTxConfs(id, Some(confs), ts.btcFinalityThr);
          FetchTx(Buy);
          t := To(s);
        } else {
          t := HandleBobSwapInterruptAfterLock(msg);
        }
      case Sync(TransactionRetrieved(id, Some(tx))) => t := BobSeesBuy(s, id, tx, msg);
      case _ => t := HandleBobSwapInterruptAfterLock(msg);
    }

    method BobSeesBuy(s: SwapStateMachine, id: TaskId, tx: Tx, msg: BusMsg) returns (t: Transition)
      requires s.BobAccordantLockFinal? && msg == Sync(TransactionRetrieved(id, Some(tx)))
      modifies this, syncer
      ensures StepOf(View(), t) == State.TryBobAccordantLockFinalToBobBuyFinal(x, old(View()), s, msg)
    {
      hide State.Framed, Tail, State.Unasked, State.Undisturbed, State.HandleBobSwapInterruptAfterLock, ProcessBuyTx;
      var isBuy := id in syncer.retrievingTxs && syncer.retrievingTxs[id].0 == Buy;
      syncer.retrievingTxs := syncer.retrievingTxs - {id};
      if !isBuy {
        t := HandleBobSwapInterruptAfterLock(msg);
        return;
      }
      var res := ProcessBuyTx(x.crypto, s.wallet, x.deal, tx, creationHeight);
      if res.Failed? { return Raise(res.error); }
      var task := RegisterSweep(res.value);
      t := To(BobBuyFinal(task));
    }

    /** The sweep of the bought address, kept for when it can go out. */
    method RegisterSweep(keys: SweepKeys) returns (task: Task)
      modifies this`log, syncer
      ensures View() == old(View()).Emit(SetAddressSecretKey(Monero)).RegisterSweep(keys, true)
      ensures task == View().syncer.tasks.LastTask()
    {
      Send(SetAddressSecretKey(Monero));
      task := syncer.Sweep(keys, true);
    }

    method SweepOn(sweep: Task, next: SwapStateMachine, id: TaskId, confs: nat) returns (t: Transition)
      modifies this`log
      ensures StepOf(View(), t)
        == State.TrySweep(old(View()), sweep, next, Sync(TransactionConfirmations(id, Some(confs))))
    {
      if confs < ts.sweepMoneroThr { return NoTransition; }
      Send(ToSyncer(Monero, sweep));
      t := To(next);
    }

    method TrySweep(sweep: Task, next: SwapStateMachine, msg: BusMsg) returns (t: Transition)
      modifies this`log
      ensures StepOf(View(), t) == State.TrySweep(old(View()), sweep, next, msg)
    {
      if msg.Sync? && msg.event.TransactionConfirmations? && msg.event.confirmations.Some? {
        assert msg == Sync(TransactionConfirmations(msg.event.id, Some(msg.event.confirmations.value)));
        t := SweepOn(sweep, next, msg.event.id, msg.event.confirmations.value);
      } else {
        t := NoTransition;
      }
    }

    method ForgetTxs()
      modifies this`txs
      ensures View() == old(View()).ForgetTxs()
    {
      txs := txs - {Cancel, Refund, Buy, Punish};
    }

    method TryBobCancelFinalToSwapEnd(msg: BusMsg) returns (t: Transition)
      modifies this, syncer
      ensures StepOf(View(), t) == State.TryBobCancelFinalToSwapEnd(old(View()), msg)
    {
      hide State.Framed, Tail, State.Unasked;
      match msg
      case Sync(TransactionConfirmations(id, Some(confs))) =>
        if !ts.FinalTx(confs, Bitcoin) || !(id in syncer.watchedTxs && syncer.watchedTxs[id] == Refund) {
          return NoTransition;
        }
        syncer.HandleTxConfs(id, Some(confs), ts.btcFinalityThr);
        AbortAllTasks();
        ForgetTxs();
        t := To(SwapEnd(FailureRefund));
      case _ => t := NoTransition;
    }

    method TryBobCanceledToBobCancelFinal(msg: BusMsg) returns (t: Transition)
      modifies this, syncer
      ensures StepOf(View(), t) == State.TryBobCanceledToBobCancelFinal(old(View()), msg)
    {
      hide State.Framed, Tail, State.Unasked;
      match msg
      case Sync(TransactionConfirmations(id, Some(confs))) =>
        if !ts.FinalTx(confs, Bitcoin) || !(id in syncer.watchedTxs && syncer.watchedTxs[id] == Cancel) {
          return NoTransition;
        }
        if Refund !in txs { return NoTransition; }
        syncer.HandleTxConfs(id, Some(confs), ts.btcFinalityThr);
        var refund := txs[Refund];
        txs := txs - {Refund};
        Broadcast(refund, Some(Refund));
        t := To(BobCancelFinal);
      case _ => t := NoTransition;
    }

    method TryAwaitingSweepToSwapEnd(msg: BusMsg) returns (t: Transition)
      modifies this, syncer
      ensures StepOf(View(), t) == State.TryAwaitingSweepToSwapEnd(old(View()), msg)
    {
      match msg
      case Sync(TaskAborted(ids)) =>
        if |ids| != 1 || syncer.sweepingAddr != Some(ids[0]) { return NoTransition; }
        Send(FundingCanceled(Bitcoin));
        t := To(SwapEnd(FailureAbort));
      case Sync(SweepSuccess(id)) =>
        if syncer.sweepingAddr != Some(id) { return NoTransition; }
        Send(FundingCanceled(Bitcoin));
        t := To(SwapEnd(FailureAbort));
      case _ => t := NoTransition;
    }

    method PublishCancel()
      requires Cancel in txs
      modifies this`txs, this`log, syncer
      ensures View() == old(View()).(txs := old(txs) - {Cancel}).Broadcast(old(txs)[Cancel], Some(Cancel))
    {
      var cancel := txs[Cancel];
      txs := txs - {Cancel};
      Broadcast(cancel, Some(Cancel));
    }

    method HandleBobSwapInterruptAfterLock(msg: BusMsg) returns (t: Transition)
      modifies this, syncer
      ensures StepOf(View(), t) == State.HandleBobSwapInterruptAfterLock(old(View()), msg)
    {
      hide State.Framed, Tail, State.Unasked, State.Undisturbed, Rt.Broadcast;
      match msg
      case Ctl(AbortSwap) =>
        Send(ClientFailure);
        t := NoTransition;
      case Sync(TransactionConfirmations(id, Some(confs))) =>
        if id !in syncer.watchedTxs { return NoTransition; }
        var l := syncer.watchedTxs[id];
        if l == Lock && ts.FinalTx(confs, Bitcoin) && ts.ValidCancel(confs) && Cancel in txs {
          PublishCancel();
          t := NoTransition;
        } else if l == Cancel {
          t := To(BobCanceled);
        } else {
          t := NoTransition;
        }
      case _ => t := NoTransition;
    }

    // ----- Alice -----

    method TryAliceRevealToAliceCoreArbitratingSetup(local: Params, remote: Params, w: Wallet, msg: BusMsg)
        returns (t: Transition)
      modifies this, syncer
      ensures StepOf(View(), t)
        == State.TryAliceRevealToAliceCoreArbitratingSetup(x, old(View()), local, remote, w, msg)
    {
      hide State.Framed, Tail, State.Unasked, Rt.WatchTxBtc, Rt.CheckpointOf, HandleCoreArbitratingSetup;
      match msg
      case P2p(CoreArbitrating(swap, setup)) => t := AliceSetsUp(local, remote, w, swap, setup);
      case Ctl(AbortSwap) => t := HandleAbortSwap();
      case _ => t := NoTransition;
    }

    /** The transactions are watched before the wallet has checked them. */
    method AliceSetsUp(local: Params, remote: Params, w: Wallet, swap: SwapId, setup: CoreArbitratingSetup)
        returns (t: Transition)
      modifies this, syncer
      ensures StepOf(View(), t)
        == State.TryAliceRevealToAliceCoreArbitratingSetup(x, old(View()), local, remote, w,
          P2p(CoreArbitrating(swap, setup)))
    {
      hide State.Framed, Tail, State.Unasked, Rt.WatchTxBtc, Rt.CheckpointOf, HandleCoreArbitratingSetup;
      WatchTxBtc(setup.lock, Lock);
      WatchTxBtc(setup.cancel, Cancel);
      WatchTxBtc(setup.refund, Refund);
      var copy := CopyOf(w);
      var out := copy.HandleCoreArbitratingSetup(x.crypto, setup);
      var res := copy.Finish(out);
      if res.Failed? { return Raise(res.error); }
      txs := txs[Cancel := Tx(setup.cancel)][Punish := res.value.1];
      var next := AliceCoreArbitratingSetup(local, remote, res.wallet);
      var m := RefundProcedureSignatures(x.swapId, res.value.0);
      CheckpointState(Some(m), next);
      Send(ToPeer(m));
      t := To(next);
    }

    method TryAliceCoreArbitratingSetupToAliceArbitratingLockFinal(local: Params, remote: Params, w: Wallet,
        msg: BusMsg) returns (t: Transition)
      modifies this, syncer
      ensures StepOf(View(), t)
        == State.TryAliceCoreArbitratingSetupToAliceArbitratingLockFinal(x, old(View()), local, remote, w, msg)
    {
      hide State.Framed, Tail, State.Unasked, State.Undisturbed, State.HandleAliceSwapInterruptAfterLock,
        Rt.WatchAddrXmr;
      match msg
      case Sync(TransactionConfirmations(id, Some(confs))) =>
        if ts.FinalTx(confs, Bitcoin) && id in syncer.watchedTxs && syncer.watchedTxs[id] == Lock {
          if local.role != Alice || remote.role != Bob { return NoTransition; }
          var keys := x.crypto.aggregate(local, remote);
          if creationHeight.None? {
            var height := syncer.Height(Monero);
            creationHeight := Some(height);
          }
          WatchAddrXmr(keys, AccLock, creationHeight);
          t := To(AliceArbitratingLockFinal(w, MoneroFunding(keys.0, keys.1, x.deal.accordantAmount),
            x.deal.accordantAmount));
        } else {
          t := HandleAliceSwapInterruptAfterLock(w, msg);
        }
      case _ => t := HandleAliceSwapInterruptAfterLock(w, msg);
    }

    method AskForFunding(info: FundingInfo)
      modifies this`log, syncer`awaitingFunding
      ensures View() == (var r := old(View()).Awaiting(true);
                         if r.enquirer.Some? then r.Emit(ToEnquirer(r.enquirer.value, info)) else r)
    {
      syncer.awaitingFunding := true;
      if enquirer.Some? { Send(ToEnquirer(enquirer.value, info)); }
    }

    method CancelFunding()
      modifies this`log, syncer`awaitingFunding
      ensures View() == old(View()).Emit(FundingCanceled(Monero)).Awaiting(false)
    {
      Send(FundingCanceled(Monero));
      syncer.awaitingFunding := false;
    }

    method TryAliceArbitratingLockFinalToAliceAccordantLock(s: SwapStateMachine, msg: BusMsg) returns (t: Transition)
      requires s.AliceArbitratingLockFinal?
      modifies this, syncer
      ensures StepOf(View(), t) == State.TryAliceArbitratingLockFinalToAliceAccordantLock(x, old(View()), s, msg)
    {
      hide State.Framed, Tail, State.Unasked, State.Undisturbed, State.HandleAliceSwapInterruptAfterLock,
        State.AliceSeesFunding;
      match msg
      case Sync(Empty(id)) =>
        if !(id in syncer.watchedAddrs && syncer.watchedAddrs[id] == AccLock) { return NoTransition; }
        AskForFunding(s.fundingInfo);
        t := To(s);
      case Sync(TransactionConfirmations(id, Some(confs))) =>
        if ts.FinalTx(confs, Bitcoin) && id in syncer.watchedTxs && syncer.watchedTxs[id] == Lock
           && ts.StopFundingBeforeCancel(confs) && syncer.awaitingFunding {
          CancelFunding();
          t := To(s);
        } else {
          t := HandleAliceSwapInterruptAfterLock(s.wallet, msg);
        }
      case Sync(AddressTransaction(id, hash, amount, incoming, _)) =>
        if !(id in syncer.watchedAddrs && syncer.watchedAddrs[id] == AccLock) || !incoming { return NoTransition; }
        t := AliceSeesFunding(s, id, hash, amount);
      case _ => t := HandleAliceSwapInterruptAfterLock(s.wallet, msg);
    }

    method StopWatching(id: TaskId)
      modifies this`log, syncer`watchedAddrs
      ensures View() == (var r := old(View()); var tables := r.syncer.tasks;
                         r.WithTasks(tables.(watchedAddrs := tables.watchedAddrs - {id})).Emit(ToSyncer(Monero,
                           AbortTask(id))))
    {
      syncer.watchedAddrs := syncer.watchedAddrs - {id};
      Send(ToSyncer(Monero, AbortTask(id)));
    }

    method AliceSeesFunding(s: SwapStateMachine, id: TaskId, hash: Txid, amount: nat) returns (t: Transition)
      requires s.AliceArbitratingLockFinal?
      modifies this, syncer
      ensures StepOf(View(), t) == State.AliceSeesFunding(old(View()), s, id, hash, amount)
    {
      hide State.Framed, Tail, State.Unasked, SyncerTasks.WatchTx;
      var task := syncer.WatchTxXmr(hash, AccLock);
      if syncer.awaitingFunding {
        Send(FundingCompleted(Monero));
        syncer.awaitingFunding := false;
      }
      Send(ToSyncer(Monero, task));
      StopWatching(id);
      t := To(if amount > s.requiredFunding then AliceCanceled(s.wallet) else AliceAccordantLock(s.wallet));
    }

    method TryAliceAccordantLockToAliceBuyProcedureSignature(w: Wallet, msg: BusMsg) returns (t: Transition)
      modifies this, syncer
      ensures StepOf(View(), t) == State.TryAliceAccordantLockToAliceBuyProcedureSignature(x, old(View()), w, msg)
    {
      hide State.Framed, Tail, State.Unasked, State.Undisturbed, State.HandleAliceSwapInterruptAfterLock,
        Rt.WatchTxBtc, Rt.CheckpointOf, Rt.Broadcast, HandleBuyProcedureSignature;
      match msg
      case P2p(BuyProcedureSignature(_, buySig)) => t := AliceBuys(w, buySig);
      case _ => t := HandleAliceSwapInterruptAfterLock(w, msg);
    }

    /** The latest count of Lock decides whether Buy or Cancel goes out. */
    method AliceBuys(w: Wallet, buySig: BuySignature) returns (t: Transition)
      modifies this, syncer
      ensures StepOf(View(), t)
        == State.TryAliceAccordantLockToAliceBuyProcedureSignature(x, old(View()), w,
          P2p(BuyProcedureSignature(x.swapId, buySig)))
    {
      hide State.Framed, Tail, State.Unasked, State.Undisturbed, State.HandleAliceSwapInterruptAfterLock,
        Rt.WatchTxBtc, Rt.CheckpointOf, Rt.Broadcast, HandleBuyProcedureSignature;
      WatchTxBtc(buySig.buy, Buy);
      var copy := CopyOf(w);
      var out := copy.HandleBuyProcedureSignature(x.crypto, buySig);
      var res := copy.Finish(out);
      if res.Failed? { return Raise(res.error); }
      var (cancel, buy) := res.value;
      txs := txs[Cancel := cancel][Buy := buy];
      if syncer.lockTxConfs.Some? && ts.ValidCancel(syncer.lockTxConfs.value.count) {
        Broadcast(cancel, Some(Cancel));
        t := To(AliceCanceled(res.wallet));
      } else {
        Broadcast(buy, Some(Buy));
        CheckpointState(None, AliceBuyProcedureSignature);
        t := To(AliceBuyProcedureSignature);
      }
    }

    method TryAliceBuyProcedureSignatureToSwapEnd(msg: BusMsg) returns (t: Transition)
      modifies this, syncer
      ensures StepOf(View(), t) == State.TryAliceBuyProcedureSignatureToSwapEnd(old(View()), msg)
    {
      hide State.Framed, Tail, State.Unasked;
      match msg
      case Sync(TransactionConfirmations(id, Some(confs))) =>
        if !ts.FinalTx(confs, Bitcoin) || !(id in syncer.watchedTxs && syncer.watchedTxs[id] == Buy) {
          return NoTransition;
        }
        syncer.HandleTxConfs(id, Some(confs), ts.btcFinalityThr);
        AbortAllTasks();
        txs := txs - {Cancel, Punish};
        t := To(SwapEnd(SuccessSwap));
      case _ => t := NoTransition;
    }

    method WatchAndPublish(l: TxLabel)
      requires l in txs
      modifies this`txs, this`log, syncer
      ensures View() == State.WatchAndPublish(old(View()), l)
    {
      var tx := txs[l];
      txs := txs - {l};
      WatchTxBtc(tx.txid, l);
      Broadcast(tx, Some(l));
    }

    method TryAliceCanceledToAliceRefundOrAlicePunish(s: SwapStateMachine, msg: BusMsg) returns (t: Transition)
      requires s.AliceCanceled?
      modifies this, syncer
      ensures StepOf(View(), t) == State.TryAliceCanceledToAliceRefundOrAlicePunish(x, old(View()), s, msg)
    {
      hide State.Framed, Tail, State.Unasked, State.FetchTx, State.WatchAndPublish, State.AliceSeesRefund;
      match msg
      case Sync(TransactionConfirmations(id, Some(confs))) => t := AliceSeesConfirmations(s, id, confs);
      case Sync(TransactionRetrieved(id, Some(tx))) =>
        if !(id in syncer.retrievingTxs && syncer.retrievingTxs[id].0 == Refund) { return NoTransition; }
        syncer.retrievingTxs := syncer.retrievingTxs - {id};
        t := AliceSeesRefund(s.wallet, tx);
      case _ => t := NoTransition;
    }

    method AliceSeesConfirmations(s: SwapStateMachine, id: TaskId, confs: nat) returns (t: Transition)
      requires s.AliceCanceled?
      modifies this, syncer
      ensures StepOf(View(), t)
        == State.TryAliceCanceledToAliceRefundOrAlicePunish(x, old(View()), s,
          Sync(TransactionConfirmations(id, Some(confs))))
    {
      hide State.Framed, Tail, State.Unasked, State.FetchTx, State.WatchAndPublish, State.AliceSeesRefund;
      if !ts.FinalTx(confs, Bitcoin) || id !in syncer.watchedTxs { return NoTransition; }
      t := NoTransition;
      match syncer.watchedTxs[id]
      case Refund =>
        if Refund in syncer.txids {
          FetchTx(Refund);
          t := To(s);
        }
      case Cancel =>
        if ts.ValidPunish(confs) && Punish in txs {
          WatchAndPublish(Punish);
          t := To(s);
        }
      case Punish =>
        AbortAllTasks();
        ForgetTxs();
        t := To(SwapEnd(FailurePunish));
      case Lock =>
        if ts.ValidCancel(confs) && Cancel in txs {
          WatchAndPublish(Cancel);
          t := To(s);
        }
      case _ =>
    }

    method CloseFunding(chain: Blockchain)
      modifies this`log, syncer`awaitingFunding
      ensures View() == State.CloseFunding(old(View()), chain)
    {
      if syncer.awaitingFunding {
        syncer.awaitingFunding := false;
        Send(FundingCompleted(chain));
      }
    }

    method AliceSeesRefund(w: Wallet, tx: Tx) returns (t: Transition)
      modifies this, syncer
      ensures StepOf(View(), t) == State.AliceSeesRefund(x, old(View()), w, tx)
    {
      hide State.Framed, Tail, State.Unasked, State.CloseFunding, ProcessRefundTx;
      var res := ProcessRefundTx(x.crypto, w, x.deal, tx, creationHeight);
      if res.Failed? { return Raise(res.error); }
      Send(SetAddressSecretKey(Monero));
      if AccLock in syncer.confirmations {
        var task := syncer.Sweep(res.value, true);
        t := To(AliceRefund(task));
      } else {
        CloseFunding(Monero);
        AbortAllTasks();
        ForgetTxs();
        t := To(SwapEnd(FailureRefund));
      }
    }

    method TrySweepingToSwapEnd(chain: Blockchain, outcome: Outcome, msg: BusMsg) returns (t: Transition)
      modifies this, syncer
      ensures StepOf(View(), t) == State.TrySweepingToSwapEnd(old(View()), chain, outcome, msg)
    {
      hide State.Framed, Tail, State.Unasked, State.CloseFunding;
      match msg
      case Sync(SweepSuccess(id)) =>
        if syncer.sweepingAddr != Some(id) { return NoTransition; }
        CloseFunding(chain);
        AbortAllTasks();
        ForgetTxs();
        t := To(SwapEnd(outcome));
      case _ => t := NoTransition;
    }

    method HandleAliceSwapInterruptAfterLock(w: Wallet, msg: BusMsg) returns (t: Transition)
      modifies this, syncer
      ensures StepOf(View(), t) == State.HandleAliceSwapInterruptAfterLock(old(View()), w, msg)
    {
      hide State.Framed, Tail, State.Unasked, State.Undisturbed, Rt.Broadcast;
      match msg
      case Sync(TransactionConfirmations(id, Some(confs))) =>
        if id !in syncer.watchedTxs { return NoTransition; }
        var l := syncer.watchedTxs[id];
        if l == Cancel {
          if syncer.awaitingFunding {
            Send(FundingCanceled(Monero));
            syncer.awaitingFunding := false;
          }
          t := To(AliceCanceled(w));
        } else if l == Lock && ts.ValidCancel(confs) && Cancel in txs {
          PublishCancel();
          t := NoTransition;
        } else {
          t := NoTransition;
        }
      case Ctl(AbortSwap) =>
        Send(ClientFailure);
        t := NoTransition;
      case _ => t := NoTransition;
    }

    // ----- the machine -----

    method NextInSetup(msg: BusMsg) returns (t: Transition)
      requires State.InSetup(ssm)
      modifies this, syncer
      ensures StepOf(View(), t) == State.NextInSetup(x, old(View()), msg)
    {
      hide State.AttemptTransitionToInitTaker, State.AttemptTransitionToInitMaker,
        State.TryBobInitTakerToBobTakerMakerCommit, State.TryAliceInitTakerToAliceTakerMakerCommit,
        State.AttemptTransitionToBobReveal, State.AttemptTransitionToAliceReveal, State.Framed, Tail, State.Unasked;
      match ssm
      case StartTaker(role) => t := AttemptTransitionToInitTaker(role, msg);
      case StartMaker(role) => t := AttemptTransitionToInitMaker(role, msg);
      case BobInitTaker(local, w) => t := TryBobInitTakerToBobTakerMakerCommit(local, w, msg);
      case AliceInitTaker(local, w) => t := TryAliceInitTakerToAliceTakerMakerCommit(local, w, msg);
      case BobTakerMakerCommit(local, commit, w) => t := AttemptTransitionToBobReveal(local, commit, w, msg);
      case AliceTakerMakerCommit(local, commit, w) => t := AttemptTransitionToAliceReveal(local, commit, w, msg);
      case BobInitMaker(local, commit, w) => t := AttemptTransitionToBobReveal(local, commit, w, msg);
      case AliceInitMaker(local, commit, w) => t := AttemptTransitionToAliceReveal(local, commit, w, msg);
    }

    method NextOfBob(msg: BusMsg) returns (t: Transition)
      requires State.OfBob(ssm)
      modifies this, syncer
      ensures StepOf(View(), t) == State.NextOfBob(x, old(View()), msg)
    {
      hide State.TryBobRevealToBobFeeEstimated, State.TryBobFeeEstimatedToBobFunded,
        State.TryBobFundedToBobRefundProcedureSignatures, State.TryBobRefundProcedureSignaturesToBobAccordantLock,
        State.TryBobAccordantLockToBobAccordantLockFinal, State.TryBobAccordantLockFinalToBobBuyFinal, State.TrySweep,
        State.TrySweepingToSwapEnd, State.TryBobCanceledToBobCancelFinal, State.TryBobCancelFinalToSwapEnd,
        State.TryAwaitingSweepToSwapEnd, State.Framed, Tail, State.Unasked, State.Undisturbed;
      match ssm
      case BobReveal(local, remote, w) => t := TryBobRevealToBobFeeEstimated(local, remote, w, msg);
      case BobFeeEstimated(local, remote, w, required) => t := TryBobFeeEstimatedToBobFunded(local, remote, w, required,
        msg);
      case BobFunded(local, remote, w) => t := TryBobFundedToBobRefundProcedureSignatures(local, remote, w, msg);
      case BobRefundProcedureSignatures(_, _, _, _) => t := TryBobRefundProcedureSignaturesToBobAccordantLock(ssm, msg);
      case BobAccordantLock(_, _, _, _) => t := TryBobAccordantLockToBobAccordantLockFinal(ssm, msg);
      case BobAccordantLockFinal(_, _, _) => t := TryBobAccordantLockFinalToBobBuyFinal(ssm, msg);
      case BobBuyFinal(sweep) => t := TrySweep(sweep, BobBuySweeping, msg);
      case BobBuySweeping => t := TrySweepingToSwapEnd(Bitcoin, SuccessSwap, msg);
      case BobCanceled => t := TryBobCanceledToBobCancelFinal(msg);
      case BobCancelFinal => t := TryBobCancelFinalToSwapEnd(msg);
      case BobAbortAwaitingBitcoinSweep => t := TryAwaitingSweepToSwapEnd(msg);
    }

    method NextOfAlice(msg: BusMsg) returns (t: Transition)
      requires !State.InSetup(ssm) && !State.OfBob(ssm)
      modifies this, syncer
      ensures StepOf(View(), t) == State.NextOfAlice(x, old(View()), msg)
    {
      hide State.TryAliceRevealToAliceCoreArbitratingSetup, State.TryAliceArbitratingLockFinalToAliceAccordantLock,
        State.TryAliceCoreArbitratingSetupToAliceArbitratingLockFinal,
        State.TryAliceAccordantLockToAliceBuyProcedureSignature, State.TryAliceBuyProcedureSignatureToSwapEnd,
        State.TryAliceCanceledToAliceRefundOrAlicePunish, State.TrySweep, State.TrySweepingToSwapEnd, State.Framed,
        Tail, State.Unasked, State.Undisturbed;
      match ssm
      case AliceReveal(local, remote, w) => t := TryAliceRevealToAliceCoreArbitratingSetup(local, remote, w, msg);
      case AliceCoreArbitratingSetup(local, remote, w) =>
        t := TryAliceCoreArbitratingSetupToAliceArbitratingLockFinal(local, remote, w, msg);
      case AliceArbitratingLockFinal(_, _, _) => t := TryAliceArbitratingLockFinalToAliceAccordantLock(ssm, msg);
      case AliceAccordantLock(w) => t := TryAliceAccordantLockToAliceBuyProcedureSignature(w, msg);
      case AliceBuyProcedureSignature => t := TryAliceBuyProcedureSignatureToSwapEnd(msg);
      case AliceCanceled(_) => t := TryAliceCanceledToAliceRefundOrAlicePunish(ssm, msg);
      case AliceRefund(sweep) => t := TrySweep(sweep, AliceRefundSweeping, msg);
      case AliceRefundSweeping => t := TrySweepingToSwapEnd(Monero, FailureRefund, msg);
      case SwapEnd(_) => t := NoTransition;
    }

    method Next(msg: BusMsg) returns (t: Transition)
      modifies this, syncer
      ensures StepOf(View(), t) == State.Next(x, old(View()), msg)
    {
      hide State.NextInSetup, State.NextOfBob, State.NextOfAlice;
      if State.InSetup(ssm) {
        t := NextInSetup(msg);
      } else if State.OfBob(ssm) {
        t := NextOfBob(msg);
      } else {
        t := NextOfAlice(msg);
      }
    }

    // ----- whole messages -----

    /** Notes a syncer event before the machine sees it. */
    method Record(source: ServiceId, e: SyncEvent)
      modifies this`log, syncer
      ensures View() == Run.Record(old(View()), source, e)
    {
      if source == ServiceId.Syncer(Monero) {
        match e
        case HeightChanged(height) => syncer.HandleHeightChange(height, Monero);
        case TransactionConfirmations(id, confs) => syncer.HandleTxConfs(id, confs, ts.xmrFinalityThr);
        case _ =>
      } else if source == ServiceId.Syncer(Bitcoin) {
        match e
        case HeightChanged(height) => syncer.HandleHeightChange(height, Bitcoin);
        case TransactionRetrieved(id, None) =>
          if id in syncer.retrievingTxs { Send(ToSyncer(Bitcoin, syncer.retrievingTxs[id].1)); }
        case TransactionConfirmations(id, confs) =>
          syncer.HandleTxConfs(id, confs, ts.btcFinalityThr);
          if confs.Some? && ts.FinalTx(confs.value, Bitcoin) { syncer.Cache(id, confs.value); }
        case TransactionBroadcasted(id) => syncer.TransactionBroadcasted(id);
        case _ =>
      }
    }

    method HandleSync(source: ServiceId, e: SyncEvent) returns (err: Option<Error>)
      modifies this, syncer
      ensures ResultOf(View(), err) == Run.HandleSync(x, old(View()), source, e)
      decreases Run.One(!Run.Replayable(Sync(e))), Run.Measure(View()), 1
    {
      hide Run.Measure, Run.Execute;
      Record(source, e);
      err := Execute(source, Sync(e));
    }

    method HandleMsg(source: ServiceId, m: PeerMsg) returns (err: Option<Error>)
      modifies this, syncer
      ensures ResultOf(View(), err) == Run.HandleMsg(x, old(View()), source, m)
      decreases 0, Run.Measure(View()), 1
    {
      hide Run.Measure, Run.Execute;
      if source.Peerd? && peerService != source { return Some(PeerFault); }
      if m.swapId != x.swapId || m.PeerAbort? || m.PingPong? { return Some(PeerFault); }
      err := Execute(source, P2p(m));
    }

    /** The machine hears of a message. */
    method Register(msg: BusMsg) returns (t: Transition)
      modifies this, syncer
      ensures StepOf(View(), t) == State.Next(x, old(View()).(log := old(View()).log + [In(msg)]), msg)
    {
      hide State.Next;
      log := log + [In(msg)];
      t := Next(msg);
    }

    /** One message through the machine; after a transition what was kept is shown again. */
    method Execute(source: ServiceId, msg: BusMsg) returns (err: Option<Error>)
      modifies this, syncer
      ensures ResultOf(View(), err) == Run.Execute(x, old(View()), source, msg)
      decreases Run.One(!Run.Replayable(msg)), Run.Measure(View()), 0
    {
      hide Run.Measure, Run.Replay, State.Next;
      Run.RoundLowers(x, View(), msg);
      var t := Register(msg);
      err := None;
      match t
      case Raise(e) => err := Some(e);
      case NoTransition => if msg.P2p? { unhandledPeerMessage := Some(msg.peer); }
      case To(next) =>
        ssm := next;
        if next.SwapEnd? {
          Send(SwapOutcome(next.outcome));
        } else {
          if msg.P2p? { unhandledPeerMessage := None; }
          err := Replay(source);
        }
    }

    method Replay(source: ServiceId) returns (err: Option<Error>)
      modifies this, syncer
      ensures ResultOf(View(), err) == Run.Replay(x, old(View()), source)
      decreases 0, Run.Measure(View()), 3
    {
      hide Run.Measure, Run.HandleMsg, Run.ReplayConfs;
      if unhandledPeerMessage.Some? {
        err := HandleMsg(source, unhandledPeerMessage.value);
        if err.Some? { return; }
      }
      err := ReplayConfs(source, syncer.buyTxConfs);
      if err.Some? { return; }
      err := ReplayConfs(source, syncer.lockTxConfs);
      if err.Some? { return; }
      err := ReplayConfs(source, syncer.cancelTxConfs);
    }

    method ReplayConfs(source: ServiceId, kept: Option<KeptConfs>) returns (err: Option<Error>)
      modifies this, syncer
      ensures ResultOf(View(), err) == Run.ReplayConfs(x, old(View()), source, kept)
      decreases 0, Run.Measure(View()), 2
    {
      hide Run.Measure, Run.HandleSync;
      err := None;
      if kept.Some? { err := HandleSync(source, kept.value.Event()); }
    }

    // ----- restoring -----

    method WatchAll(ids: seq<(TxLabel, Txid)>)
      modifies this`log, syncer
      ensures View() == Run.WatchAll(old(View()), ids)
    {
      for i := 0 to |ids|
        invariant View() == Run.WatchAll(old(View()), ids[..i])
      {
        WatchTxBtc(ids[i].1, ids[i].0);
        assert ids[..i + 1][..i] == ids[..i];
      }
      assert ids[..|ids|] == ids;
    }

    method BroadcastAll(pending: seq<Tx>)
      modifies this`log, syncer
      ensures View() == Run.BroadcastAll(old(View()), pending)
    {
      for i := 0 to |pending|
        invariant View() == Run.BroadcastAll(old(View()), pending[..i])
      {
        Broadcast(pending[i], None);
        assert pending[..i + 1][..i] == pending[..i];
      }
      assert pending[..|pending|] == pending;
    }

    method SendAll(msgs: seq<PeerMsg>)
      modifies this`log
      ensures View() == Run.SendAll(old(View()), msgs)
    {
      for i := 0 to |msgs|
        invariant View() == Run.SendAll(old(View()), msgs[..i])
      {
        Send(ToPeer(msgs[i]));
        assert msgs[..i + 1][..i] == msgs[..i];
      }
      assert msgs[..|msgs|] == msgs;
    }

    method Adopt(cp: CheckpointSwapd)
      modifies this
      ensures View() == old(View()).(ssm := cp.state, enquirer := cp.enquirer, ts := cp.temporalSafety,
                                     creationHeight := cp.creationHeight, tradeRole := cp.tradeRole,
                                       txs := Collect(cp.txs))
    {
      ssm := cp.state;
      enquirer := cp.enquirer;
      ts := cp.temporalSafety;
      creationHeight := cp.creationHeight;
      tradeRole := cp.tradeRole;
      txs := Gather(cp.txs);
    }

    method Revive(cp: CheckpointSwapd)
      modifies this, syncer
      ensures View() == Run.Revive(old(View()), cp)
    {
      hide Run.WatchAll, Run.BroadcastAll, Collect, State.WatchHeights, Rt.WatchAddrXmr, State.Framed, Tail,
        State.Unasked;
      Adopt(cp);
      WatchHeights();
      WatchAll(cp.txids);
      BroadcastAll(cp.pendingBroadcasts);
      if cp.xmrAddrAddendum.Some? {
        var a := cp.xmrAddrAddendum.value;
        WatchAddrXmr((a.spendKey, a.viewKey), AccLock, Some(a.fromHeight));
      }
    }

    method Restore(cp: CheckpointSwapd)
      modifies this, syncer
      ensures View() == Run.Restore(old(View()), cp)
    {
      hide Run.Revive;
      Revive(cp);
      if cp.pendingMsg.Some? { Send(ToPeer(cp.pendingMsg.value)); }
    }

    /** The requests that could not be sent go to the new connection, once. */
    method Reconnect(peerd: ServiceId)
      modifies this
      ensures View() == Run.SendAll(old(View()).(peerService := peerd, connected := true),
        old(View()).pendingPeerRequests)
        .(pendingPeerRequests := [])
    {
      hide Run.SendAll;
      peerService := peerd;
      connected := true;
      SendAll(pendingPeerRequests);
      pendingPeerRequests := [];
    }

    method HandleCtl(source: ServiceId, m: CtlMsg) returns (err: Option<Error>)
      modifies this, syncer
      ensures ResultOf(View(), err) == Run.HandleCtl(x, old(View()), source, m)
    {
      hide Run.Execute, Run.Restore, Run.SendAll;
      err := None;
      match m
      case Hello =>
      case Disconnected => connected := false;
      case Reconnected => connected := true;
      case PeerdReconnected(peerd) =>
        Reconnect(peerd);
      case FailedPeerMessage(failed) => pendingPeerRequests := pendingPeerRequests + [failed];
      case RestoreCheckpoint(cp) => Restore(cp);
      case _ => err := Execute(source, Ctl(m));
    }

    /** One message from the bus. */
    method Handle(source: ServiceId, msg: BusMsg) returns (err: Option<Error>)
      modifies this, syncer
      ensures ResultOf(View(), err) == Run.Handle(x, old(View()), source, msg)
    {
      hide Run.HandleMsg, Run.HandleCtl, Run.HandleSync;
      match msg
      case P2p(m) => err := HandleMsg(source, m);
      case Ctl(m) => err := HandleCtl(source, m);
      case Sync(e) => err := HandleSync(source, e);
    }
  }
}
