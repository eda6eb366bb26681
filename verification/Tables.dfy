/** The task tables, the kept messages and the transactions kept for later: consistent in
    every state, and holding what the guards of that state ask for. */
module Tables {
  import opened Types
  import opened Temporal
  import opened SyncerClient
  import opened SwapWallet
  import opened SwapRuntime
  import opened SwapState
  import opened History
  import opened Invariants
  import opened Stages

  /** The hash a task watches can stand for its label. Monero hashes are not constrained. */
  ghost predicate WatchesFit(env: Env, t: SyncerTasks) {
    forall id :: id in t.watchedTxs && t.watchedTxs[id] != AccLock ==>
      id in t.tasks && t.tasks[id].WatchTransaction? && t.tasks[id].hash in env.may(t.watchedTxs[id])
  }

  ghost predicate TablesOk(env: Env, t: SyncerTasks) {
    && t.Valid()
    && WatchesFit(env, t)
    && (forall l :: l in t.txids ==> l != AccLock && t.txids[l] in env.may(l))
    && (forall id :: id in t.retrievingTxs ==> Final(env, t.retrievingTxs[id].0))
  }

  ghost predicate KeptFits(env: Env, ts: TemporalSafety, s: Syncer, slot: Option<KeptConfs>) {
    slot.Some? ==>
      && ts.FinalTx(slot.value.count, Bitcoin)
      && slot.value.id in s.tasks.tasks && s.tasks.tasks[slot.value.id].WatchTransaction?
      && s.tasks.tasks[slot.value.id].hash in env.finals
  }

  ghost predicate KeptOk(env: Env, ts: TemporalSafety, s: Syncer) {
    && s.CachesMatch()
    && KeptFits(env, ts, s, s.lockTxConfs)
    && KeptFits(env, ts, s, s.cancelTxConfs)
    && KeptFits(env, ts, s, s.buyTxConfs)
  }

  ghost predicate TxsOk(env: Env, txs: map<TxLabel, Tx>) {
    forall l :: l in txs ==> txs[l].txid in env.may(l)
  }

  ghost predicate KeysLive(x: Swap) {
    forall tx, p :: x.crypto.moneroKey(tx, p).Some?
  }

  ghost predicate WatchesArbitrating(t: SyncerTasks) {
    t.WatchesTx(Lock) && t.WatchesTx(Cancel) && t.WatchesTx(Refund)
  }

  ghost predicate BobTables(txs: map<TxLabel, Tx>, t: SyncerTasks) {
    WatchesArbitrating(t) && t.WatchesTx(Buy) && Refund in txs
  }

  ghost predicate NoAccLock(t: SyncerTasks) {
    forall id :: id in t.watchedTxs ==> t.watchedTxs[id] != AccLock
  }

  /** The labels of the setup are those of the wallet's Lock transaction. */
  ghost predicate KnowsSetup(w: Wallet, txids: map<TxLabel, Txid>) {
    {Lock, Cancel, Refund} <= txids.Keys && w.coreArbSetup.Some? && txids[Lock] == w.coreArbSetup.value.lock
  }

  /** As long as Alice holds Cancel nothing is on its way to the chain. */
  ghost predicate Unspent(txs: map<TxLabel, Tx>, t: SyncerTasks) {
    Cancel in txs ==> t.broadcastingTxs == {}
  }

  /** What each state needs from the tables to be able to move on. */
  ghost predicate PlaceOk(env: Env, x: Swap, s: SwapStateMachine, txs: map<TxLabel, Tx>, t: SyncerTasks) {
    && (BeforeLock(s) ==> t.broadcastingTxs == {} && NoAccLock(t))
    && match s
       case BobFeeEstimated(_, _, _, _) => t.WatchesAddr(Funding)
       case BobFunded(_, _, w) => WatchesArbitrating(t) && KnowsSetup(w, t.txids)
       case BobRefundProcedureSignatures(_, _, _, _) =>
         BobTables(txs, t) && t.WatchesAddr(AccLock) && Buy in t.txids && NoAccLock(t)
       case BobAccordantLock(_, _, _, _) => BobTables(txs, t) && t.WatchesTx(AccLock) && Buy in t.txids
       case BobAccordantLockFinal(_, _, _) => BobTables(txs, t) && (Buy in t.txids || t.Retrieves(Buy) || !KeysLive(x))
       case BobBuyFinal(sweep) =>
         BobTables(txs, t) && sweep.SweepAddress? && t.sweepingAddr == Some(sweep.id) && Final(env, Buy)
       case BobBuySweeping => BobTables(txs, t) && t.sweepingAddr.Some? && Final(env, Buy)
       case BobCanceled => Refund in txs && t.WatchesTx(Cancel) && t.WatchesTx(Refund)
       case BobCancelFinal => t.WatchesTx(Refund)
       case BobAbortAwaitingBitcoinSweep => t.sweepingAddr.Some?
       case AliceCoreArbitratingSetup(_, _, _) =>
         WatchesArbitrating(t) && Punish in txs && Refund in t.txids && Unspent(txs, t)
       case AliceArbitratingLockFinal(_, _, _) =>
         WatchesArbitrating(t) && Punish in txs && Refund in t.txids && t.WatchesAddr(AccLock) && Unspent(txs, t)
       case AliceAccordantLock(_) =>
         WatchesArbitrating(t) && Punish in txs && Refund in t.txids && t.WatchesTx(AccLock) && Unspent(txs, t)
       case AliceBuyProcedureSignature => t.WatchesTx(Buy)
       case AliceCanceled(_) => WatchesArbitrating(t) && (Refund in t.txids || t.Retrieves(Refund) || !KeysLive(x))
       case AliceRefund(sweep) => sweep.SweepAddress? && t.sweepingAddr == Some(sweep.id) && Final(env, Refund)
       case AliceRefundSweeping => t.sweepingAddr.Some? && Final(env, Refund)
       case SwapEnd(o) =>
         && (o == SuccessSwap ==> Final(env, Buy))
         && (o == FailureRefund ==> Final(env, Refund))
         && (o == FailurePunish ==> Final(env, Punish))
       case _ => true
  }

  /** What a restart of this checkpoint broadcasts again is Buy and nothing else. */
  predicate OnlyBuyPending(cp: CheckpointSwapd) {
    Buy in Collect(cp.txs) && cp.pendingBroadcasts == [Collect(cp.txs)[Buy]]
  }

  /** What a checkpoint holds is enough to come back to its state. */
  ghost predicate StoredFits(env: Env, x: Swap, cp: CheckpointSwapd) {
    && cp.temporalSafety == x.ts
    && (cp.state.BobFunded? ==> KnowsSetup(cp.state.wallet, Collect(cp.txids)) && cp.pendingBroadcasts == [])
    && (cp.state.BobFunded? || Committed(cp))
    && (cp.state.AliceCoreArbitratingSetup? ==> cp.pendingBroadcasts == [])
    && (env.steady && cp.state.AliceBuyProcedureSignature? ==> OnlyBuyPending(cp))
    && (forall p :: p in cp.txids ==> p.0 != AccLock && p.1 in env.may(p.0))
    && TxsOk(env, Collect(cp.txs))
  }

  ghost predicate StoredTables(env: Env, x: Swap, log: seq<Entry>) {
    forall e :: e in log && Stores(e) ==> StoredFits(env, x, e.send.checkpoint)
  }

  ghost predicate TablesPart(env: Env, x: Swap, rt: Rt) {
    && rt.ts == x.ts
    && TablesOk(env, rt.syncer.tasks)
    && KeptOk(env, x.ts, rt.syncer)
    && TxsOk(env, rt.txs)
    && (rt.unhandledPeerMessage.Some? ==> MessageFits(env, rt.unhandledPeerMessage.value))
    && PlaceOk(env, x, rt.ssm, rt.txs, rt.syncer.tasks)
    && StoredTables(env, x, rt.log)
  }

  /** A reported final confirmation is true of the chain. */
  ghost predicate ConfirmationFits(env: Env, rt: Rt, id: TaskId, count: nat) {
    rt.LabelOf(id).Some? && rt.LabelOf(id) != Some(AccLock) && rt.ts.FinalTx(count, Bitcoin) ==>
      && id in rt.syncer.tasks.tasks && rt.syncer.tasks.tasks[id].WatchTransaction?
      && rt.syncer.tasks.tasks[id].hash in env.finals
  }

  /** The message does not contradict the environment. */
  ghost predicate Truthful(env: Env, rt: Rt, msg: BusMsg) {
    && (msg.P2p? ==> MessageFits(env, msg.peer))
    && (msg.Sync? && msg.event.TransactionConfirmations? && msg.event.confirmations.Some? ==>
          ConfirmationFits(env, rt, msg.event.id, msg.event.confirmations.value))
  }

  // ----- single operations -----

  /** `t` grew into `r`: watches stay and their tasks with them. */
  ghost predicate Grown(t: SyncerTasks, r: SyncerTasks) {
    && t.KeepsWatches(r)
    && (forall id :: id in t.watchedTxs && id in t.tasks ==> id in r.tasks && r.tasks[id] == t.tasks[id])
  }

  lemma GrownOn(t: SyncerTasks, u: SyncerTasks, r: SyncerTasks)
    requires Grown(t, u) && Grown(u, r)
    ensures Grown(t, r)
  {}

  lemma GrownSelf(t: SyncerTasks)
    ensures Grown(t, t)
  {}

  lemma RegisterFits(env: Env, t: SyncerTasks, task: Task)
    requires TablesOk(env, t)
    ensures TablesOk(env, t.Register(task)) && Grown(t, t.Register(task))
  {
    t.RegisterKeeps(task);
  }

  lemma WatchTxBtcFits(env: Env, t: SyncerTasks, txid: Txid, l: TxLabel)
    requires TablesOk(env, t) && txid in env.may(l) && l != AccLock
    ensures TablesOk(env, t.WatchTxBtc(txid, l)) && Grown(t, t.WatchTxBtc(txid, l))
      && t.WatchTxBtc(txid, l).WatchesTx(l)
    ensures t.WatchTxBtc(txid, l).txids == t.txids[l := txid]
  {
    t.WatchTxBtcKeeps(txid, l);
  }

  lemma WatchTxXmrFits(env: Env, t: SyncerTasks, hash: Txid)
    requires TablesOk(env, t)
    ensures TablesOk(env, t.WatchTx(hash, AccLock)) && Grown(t, t.WatchTx(hash, AccLock))
      && t.WatchTx(hash, AccLock).WatchesTx(AccLock)
  {
    t.WatchTxKeeps(hash, AccLock);
  }

  lemma WatchAddrFits(env: Env, t: SyncerTasks, task: Task, l: TxLabel)
    requires TablesOk(env, t)
    ensures TablesOk(env, t.WatchAddr(task, l)) && Grown(t, t.WatchAddr(task, l)) && t.WatchAddr(task, l).WatchesAddr(l)
  {
    t.WatchAddrKeeps(task, l);
  }

  lemma RetrieveTxFits(env: Env, t: SyncerTasks, txid: Txid, l: TxLabel)
    requires TablesOk(env, t) && Final(env, l)
    ensures TablesOk(env, t.RetrieveTx(txid, l)) && Grown(t, t.RetrieveTx(txid, l))
      && t.RetrieveTx(txid, l).Retrieves(l)
  {
    t.RetrieveTxKeeps(txid, l);
  }

  lemma SweepFits(env: Env, t: SyncerTasks, keys: SweepKeys, retry: bool)
    requires TablesOk(env, t)
    ensures TablesOk(env, t.Sweep(keys, retry)) && Grown(t, t.Sweep(keys, retry))
  {
    t.SweepKeeps(keys, retry);
  }

  lemma BroadcastFits(env: Env, t: SyncerTasks, tx: Tx)
    requires TablesOk(env, t)
    ensures TablesOk(env, t.Broadcast(tx)) && Grown(t, t.Broadcast(tx))
  {
    t.BroadcastKeeps(tx);
  }

  lemma ForgettingFits(env: Env, t: SyncerTasks, r: SyncerTasks)
    requires TablesOk(env, t)
    requires r == t.(watchedAddrs := r.watchedAddrs, retrievingTxs := r.retrievingTxs, txids := r.txids,
                     finalTxs := r.finalTxs)
    requires forall l :: l in r.txids ==> l in t.txids && r.txids[l] == t.txids[l]
    requires forall id :: id in r.watchedAddrs ==> id in t.watchedAddrs
    requires forall id :: id in r.retrievingTxs ==> id in t.retrievingTxs && r.retrievingTxs[id] == t.retrievingTxs[id]
    ensures TablesOk(env, r) && Grown(t, r)
  {
    t.ForgettingKeeps(r);
  }

  lemma WatchesLast(t: SyncerTasks, r: SyncerTasks)
    requires Grown(t, r)
    ensures forall l :: t.WatchesTx(l) ==> r.WatchesTx(l)
  {}

  lemma ArbitratingLasts(t: SyncerTasks, r: SyncerTasks)
    requires Grown(t, r) && WatchesArbitrating(t)
    ensures WatchesArbitrating(r)
  {}

  lemma TxFits(env: Env, txs: map<TxLabel, Tx>, l: TxLabel)
    requires TxsOk(env, txs) && l in txs
    ensures txs[l].txid in env.may(l)
  {}

  lemma TxsFewer(env: Env, txs: map<TxLabel, Tx>, ls: set<TxLabel>)
    requires TxsOk(env, txs)
    ensures TxsOk(env, txs - ls)
  {}

  // ----- handler by handler -----

  /** The tables after a step, for the state it ends in. */
  ghost predicate Tabled(env: Env, x: Swap, rt: Rt, step: Step) {
    && TablesOk(env, step.rt.syncer.tasks)
    && Grown(rt.syncer.tasks, step.rt.syncer.tasks)
    && TxsOk(env, step.rt.txs)
    && PlaceOk(env, x, if step.Goto? then step.next else rt.ssm, step.rt.txs, step.rt.syncer.tasks)
  }

  ghost predicate Tabular(env: Env, x: Swap, rt: Rt) {
    && TablesOk(env, rt.syncer.tasks) && TxsOk(env, rt.txs)
    && PlaceOk(env, x, rt.ssm, rt.txs, rt.syncer.tasks)
  }

  lemma HeightsFit(env: Env, rt: Rt)
    requires TablesOk(env, rt.syncer.tasks)
    ensures var r := WatchHeights(rt).syncer.tasks;
      && TablesOk(env, r) && Grown(rt.syncer.tasks, r)
      && r.broadcastingTxs == rt.syncer.tasks.broadcastingTxs && r.watchedTxs == rt.syncer.tasks.watchedTxs
  {
    hide TablesOk, Grown, Framed, Unasked, Undisturbed, Tail;
    var t := rt.syncer.tasks;
    var u := t.Register(WatchHeight(t.counter + 1));
    RegisterFits(env, t, WatchHeight(t.counter + 1));
    RegisterFits(env, u, WatchHeight(u.counter + 1));
    GrownOn(t, u, u.Register(WatchHeight(u.counter + 1)));
  }

  lemma InitTakerTabled(env: Env, x: Swap, rt: Rt, role: SwapRole, msg: BusMsg)
    requires Tabular(env, x, rt) && rt.ssm.StartTaker?
    ensures Tabled(env, x, rt, AttemptTransitionToInitTaker(x, rt, role, msg))
  {
    hide TablesOk, Grown, TxsOk, NewTaker, Framed, Unasked, Undisturbed, Tail;
    HeightsFit(env, rt);
    GrownSelf(rt.syncer.tasks);
  }

  lemma InitMakerTabled(env: Env, x: Swap, rt: Rt, role: SwapRole, msg: BusMsg)
    requires Tabular(env, x, rt) && rt.ssm.StartMaker?
    ensures Tabled(env, x, rt, AttemptTransitionToInitMaker(x, rt, role, msg))
  {
    hide TablesOk, Grown, TxsOk, NewMaker, Framed, Unasked, Undisturbed, Tail;
    HeightsFit(env, rt);
    GrownSelf(rt.syncer.tasks);
  }

  lemma BobAbortTabled(env: Env, x: Swap, rt: Rt, w: Wallet)
    requires Tabular(env, x, rt) && BeforeLock(rt.ssm)
    ensures Tabled(env, x, rt, HandleBobAbortSwap(x, rt, w))
  {
    var res := SweepBitcoinKeys(x.crypto, w);
    if res.Done? { SweepFits(env, rt.syncer.tasks, res.value, false); }
  }

  lemma BobInitTakerTabled(env: Env, x: Swap, rt: Rt, local: Params, w: Wallet, msg: BusMsg)
    requires Tabular(env, x, rt) && rt.ssm.BobInitTaker?
    ensures Tabled(env, x, rt, TryBobInitTakerToBobTakerMakerCommit(x, rt, local, w, msg))
  {
    hide HandleBobAbortSwap, TablesOk, Framed, Unasked, Undisturbed, Tail;
    BobAbortTabled(env, x, rt, w);
  }

  lemma AliceInitTakerTabled(env: Env, x: Swap, rt: Rt, local: Params, w: Wallet, msg: BusMsg)
    requires Tabular(env, x, rt) && rt.ssm.AliceInitTaker?
    ensures Tabled(env, x, rt, TryAliceInitTakerToAliceTakerMakerCommit(x, rt, local, w, msg))
  {}

  lemma BobRevealTabled(env: Env, x: Swap, rt: Rt, local: Params, commit: Commit, w: Wallet, msg: BusMsg)
    requires Tabular(env, x, rt) && (rt.ssm.BobInitMaker? || rt.ssm.BobTakerMakerCommit?)
    ensures Tabled(env, x, rt, AttemptTransitionToBobReveal(x, rt, local, commit, w, msg))
  {
    hide HandleBobAbortSwap, TablesOk, Grown, TxsOk, HandleReveal, Framed, Unasked, Undisturbed, Tail;
    GrownSelf(rt.syncer.tasks);
    BobAbortTabled(env, x, rt, w);
    RegisterFits(env, rt.syncer.tasks, WatchFee(rt.syncer.tasks.counter + 1));
  }

  lemma AliceRevealTabled(env: Env, x: Swap, rt: Rt, local: Params, commit: Commit, w: Wallet, msg: BusMsg)
    requires Tabular(env, x, rt) && (rt.ssm.AliceInitMaker? || rt.ssm.AliceTakerMakerCommit?)
    ensures Tabled(env, x, rt, AttemptTransitionToAliceReveal(x, rt, local, commit, w, msg))
  {
    hide TablesOk, Grown, TxsOk, HandleReveal, Framed, Unasked, Undisturbed, Tail;
    GrownSelf(rt.syncer.tasks);
  }

  lemma SetupTabled(env: Env, x: Swap, rt: Rt, msg: BusMsg)
    requires InSetup(rt.ssm) && Tabular(env, x, rt)
    ensures Tabled(env, x, rt, NextInSetup(x, rt, msg))
  {
    hide Tabled, Tabular, AttemptTransitionToInitTaker, AttemptTransitionToInitMaker,
      TryBobInitTakerToBobTakerMakerCommit, TryAliceInitTakerToAliceTakerMakerCommit, AttemptTransitionToBobReveal,
      AttemptTransitionToAliceReveal, Framed, Unasked, Undisturbed, Tail;
    match rt.ssm
    case StartTaker(role) => InitTakerTabled(env, x, rt, role, msg);
    case StartMaker(role) => InitMakerTabled(env, x, rt, role, msg);
    case BobInitTaker(l, w) => BobInitTakerTabled(env, x, rt, l, w, msg);
    case AliceInitTaker(l, w) => AliceInitTakerTabled(env, x, rt, l, w, msg);
    case BobInitMaker(l, c, w) => BobRevealTabled(env, x, rt, l, c, w, msg);
    case BobTakerMakerCommit(l, c, w) => BobRevealTabled(env, x, rt, l, c, w, msg);
    case AliceInitMaker(l, c, w) => AliceRevealTabled(env, x, rt, l, c, w, msg);
    case AliceTakerMakerCommit(l, c, w) => AliceRevealTabled(env, x, rt, l, c, w, msg);
  }

  // ----- Bob -----

  lemma BobFeeEstimatedTabled(env: Env, x: Swap, rt: Rt, local: Params, remote: Params, w: Wallet, msg: BusMsg)
    requires Tabular(env, x, rt) && rt.ssm.BobReveal?
    ensures Tabled(env, x, rt, TryBobRevealToBobFeeEstimated(x, rt, local, remote, w, msg))
  {
    hide HandleBobAbortSwap, TablesOk, Grown, TxsOk, SyncerTasks.WatchesAddr, Framed, Unasked, Undisturbed, Tail,
      Syncer.WatchAddrBtc;
    BobAbortTabled(env, x, rt, w);
    GrownSelf(rt.syncer.tasks);
    if w.BobWallet? { FundingFits(env, rt.Awaiting(true).syncer, x.crypto.fundingAddress(w.localParams)); }
  }

  lemma FundingFits(env: Env, s: Syncer, address: nat)
    requires TablesOk(env, s.tasks)
    ensures var r := s.WatchAddrBtc(address, Funding);
      && TablesOk(env, r.tasks) && Grown(s.tasks, r.tasks) && r.tasks.WatchesAddr(Funding)
      && r == s.(tasks := r.tasks) && r.tasks.watchedTxs == s.tasks.watchedTxs
         && r.tasks.broadcastingTxs == s.tasks.broadcastingTxs
  {
    hide TablesOk, Grown;
    WatchAddrFits(env, s.tasks, s.WatchAddrBtc(address, Funding).tasks.LastTask(), Funding);
  }

  /** The three transactions both parties know from the setup. */
  lemma ArbitratingFit(env: Env, t: SyncerTasks, setup: CoreArbitratingSetup)
    requires TablesOk(env, t) && SetupFits(env, setup)
    ensures var r := t.WatchTxBtc(setup.lock, Lock).WatchTxBtc(setup.cancel, Cancel).WatchTxBtc(setup.refund, Refund);
      && TablesOk(env, r) && Grown(t, r) && WatchesArbitrating(r)
      && r.txids == t.txids[Lock := setup.lock][Cancel := setup.cancel][Refund := setup.refund]
      && {Lock, Cancel, Refund} <= r.txids.Keys
      && r.broadcastingTxs == t.broadcastingTxs && (NoAccLock(t) ==> NoAccLock(r))
  {
    hide TablesOk, Grown, SyncerTasks.WatchesTx, SyncerTasks.WatchTxBtc, NoAccLock;
    var u := t.WatchTxBtc(setup.lock, Lock);
    var v := u.WatchTxBtc(setup.cancel, Cancel);
    var r := v.WatchTxBtc(setup.refund, Refund);
    WatchTxBtcFits(env, t, setup.lock, Lock);
    WatchTxBtcFits(env, u, setup.cancel, Cancel);
    WatchTxBtcFits(env, v, setup.refund, Refund);
    WatchTxBtcSpares(t, setup.lock, Lock);
    WatchTxBtcSpares(u, setup.cancel, Cancel);
    WatchTxBtcSpares(v, setup.refund, Refund);
    GrownOn(t, u, v);
    GrownOn(t, v, r);
    WatchesLast(u, v);
    WatchesLast(v, r);
  }

  lemma WatchTxBtcSpares(t: SyncerTasks, txid: Txid, l: TxLabel)
    requires l != AccLock
    ensures t.WatchTxBtc(txid, l).broadcastingTxs == t.broadcastingTxs
    ensures NoAccLock(t) ==> NoAccLock(t.WatchTxBtc(txid, l))
  {
  }

  lemma BobSetUpTabled(env: Env, x: Swap, rt: Rt, local: Params, remote: Params, w: Wallet, tx: Tx)
    requires Tabular(env, x, rt) && rt.ssm.BobFeeEstimated? && CryptoFits(env, x.crypto)
    ensures Tabled(env, x, rt, BobSetUpCoreArbitrating(x, rt, local, remote, w, tx))
  {
    hide TablesOk, Grown, TxsOk, WatchesArbitrating, NoAccLock, SyncerTasks.WatchTxBtc, Framed, Unasked, Undisturbed,
      Tail;
    GrownSelf(rt.syncer.tasks);
    var w1 := ProcessFundingTx(x.crypto, w, tx);
    if w1.Done? {
      var w2 := CreateCoreArb(x.crypto, w1.wallet);
      if w2.Done? { ArbitratingFit(env, rt.syncer.tasks, w2.value); }
    }
  }

  lemma BobFundedTabled(env: Env, x: Swap, rt: Rt, local: Params, remote: Params, w: Wallet, required: nat, msg: BusMsg)
    requires Tabular(env, x, rt) && rt.ssm.BobFeeEstimated? && CryptoFits(env, x.crypto)
    ensures Tabled(env, x, rt, TryBobFeeEstimatedToBobFunded(x, rt, local, remote, w, required, msg))
  {
    hide HandleBobAbortSwap, BobSetUpCoreArbitrating, CryptoFits, TablesOk, Grown, TxsOk, PlaceOk, Framed, Unasked,
      Undisturbed, Tail;
    GrownSelf(rt.syncer.tasks);
    BobAbortTabled(env, x, rt, w);
    BobAbortTabled(env, x, rt.Awaiting(false), w);
    if msg.Sync? && msg.event.AddressTransaction? && msg.event.tx.Some? {
      BobSetUpTabled(env, x, rt.Awaiting(false).Emit(FundingCompleted(Bitcoin)), local, remote, w, msg.event.tx.value);
    }
  }

  lemma BobLockTasksFit(env: Env, t: SyncerTasks, buy: Txid, lock: Txid)
    requires TablesOk(env, t) && buy in env.may(Buy)
    ensures var r := t.WatchTxBtc(buy, Buy).Broadcast(Tx(lock)).Broadcast(Tx(lock));
      && TablesOk(env, r) && Grown(t, r) && r.WatchesTx(Buy) && (NoAccLock(t) ==> NoAccLock(r))
      && r.txids == t.txids[Buy := buy] && r.watchedAddrs == t.watchedAddrs
  {
    hide TablesOk, Framed, Unasked, Undisturbed, Tail;
    var u := t.WatchTxBtc(buy, Buy);
    WatchTxBtcFits(env, t, buy, Buy);
    BroadcastFits(env, u, Tx(lock));
    BroadcastFits(env, u.Broadcast(Tx(lock)), Tx(lock));
    GrownOn(t, u, u.Broadcast(Tx(lock)));
  }

  /** What BobLock does to tables and transactions. */
  lemma BobLockEffect(x: Swap, rt: Rt, local: Params, remote: Params, w: Wallet, setup: CoreArbitratingSetup,
      buySig: BuySignature)
    requires local.role == Bob && remote.role == Alice
    ensures var step := BobLock(x, rt, local, remote, w, setup, buySig);
      var keys := x.crypto.aggregate(remote, local);
      var t := rt.syncer.WatchAddrXmr(keys.0, keys.1, AccLock, None).tasks;
      && step == Goto(step.rt, BobRefundProcedureSignatures(local, remote, w, buySig))
      && step.rt.syncer.tasks == t.WatchTxBtc(buySig.buy, Buy).Broadcast(Tx(setup.lock)).Broadcast(Tx(setup.lock))
      && step.rt.txs == rt.txs[Cancel := Tx(setup.cancel)][Refund := Tx(setup.refund)]
  {}

  lemma BobLockTabled(env: Env, x: Swap, rt: Rt, local: Params, remote: Params, w: Wallet, setup: CoreArbitratingSetup,
      buySig: BuySignature)
    requires Tabular(env, x, rt) && rt.ssm.BobFunded?
    requires local.role == Bob && remote.role == Alice && SetupFits(env, setup) && buySig.buy in env.may(Buy)
    ensures Tabled(env, x, rt, BobLock(x, rt, local, remote, w, setup, buySig))
  {
    hide TablesOk, Grown, SyncerTasks.WatchesTx, BobLock, SyncerTasks.WatchTxBtc, SyncerTasks.Broadcast, Framed,
      Unasked, Undisturbed, Tail;
    BobLockEffect(x, rt, local, remote, w, setup, buySig);
    var keys := x.crypto.aggregate(remote, local);
    var t := rt.syncer.WatchAddrXmr(keys.0, keys.1, AccLock, None).tasks;
    var r := t.WatchTxBtc(buySig.buy, Buy).Broadcast(Tx(setup.lock)).Broadcast(Tx(setup.lock));
    WatchAddrFits(env, rt.syncer.tasks, t.LastTask(), AccLock);
    BobLockTasksFit(env, t, buySig.buy, setup.lock);
    GrownOn(rt.syncer.tasks, t, r);
    WatchesLast(rt.syncer.tasks, r);
  }

  lemma BobRefundTabled(env: Env, x: Swap, rt: Rt, msg: BusMsg)
    requires Tabular(env, x, rt) && rt.ssm.BobFunded? && StageOk(env, x, Bob, rt.ssm) && CryptoFits(env, x.crypto)
    ensures Tabled(env, x, rt,
      TryBobFundedToBobRefundProcedureSignatures(x, rt, rt.ssm.local, rt.ssm.remote, rt.ssm.wallet, msg))
  {
    hide HandleBobAbortSwap, BobLock, TablesOk, Grown, TxsOk, PlaceOk, Framed, Unasked, Undisturbed, Tail;
    GrownSelf(rt.syncer.tasks);
    BobAbortTabled(env, x, rt, rt.ssm.wallet);
    if msg.P2p? && msg.peer.RefundProcedureSignatures? {
      var res := HandleRefundProcedureSignatures(x.crypto, rt.ssm.wallet, msg.peer.sigs);
      if res.Done? {
        BobLockTabled(env, x, rt, rt.ssm.local, rt.ssm.remote, res.wallet, res.wallet.coreArbSetup.value, res.value);
      }
    }
  }

  /** Publishing Cancel early leaves Bob's and Alice's places as they were. */
  lemma CancelPublished(env: Env, x: Swap, rt: Rt)
    requires Tabular(env, x, rt) && Cancel in rt.txs && !BeforeLock(rt.ssm)
    ensures Tabled(env, x, rt, Stay(rt.(txs := rt.txs - {Cancel}).Broadcast(rt.txs[Cancel], Some(Cancel))))
  {
    hide TablesOk, Grown, SyncerTasks.WatchesTx, Framed, Unasked, Undisturbed, Tail;
    BroadcastFits(env, rt.syncer.tasks, rt.txs[Cancel]);
    WatchesLast(rt.syncer.tasks, rt.syncer.tasks.Broadcast(rt.txs[Cancel]));
  }

  lemma BobInterruptTabled(env: Env, x: Swap, rt: Rt, msg: BusMsg)
    requires Tabular(env, x, rt)
      && (rt.ssm.BobRefundProcedureSignatures? || rt.ssm.BobAccordantLock? || rt.ssm.BobAccordantLockFinal?)
    ensures Tabled(env, x, rt, HandleBobSwapInterruptAfterLock(rt, msg))
  {
    hide TablesOk, Grown, TxsOk, SyncerTasks.WatchesTx, SyncerTasks.WatchesAddr, SyncerTasks.Retrieves, Framed,
      Unasked, Undisturbed, Tail;
    GrownSelf(rt.syncer.tasks);
    if Cancel in rt.txs { CancelPublished(env, x, rt); }
  }

  /** A payment is watched by its transaction instead of by its address. */
  lemma FollowPaymentFits(env: Env, t: SyncerTasks, id: TaskId, hash: Txid)
    requires TablesOk(env, t)
    ensures var r := t.(watchedAddrs := t.watchedAddrs - {id}).WatchTx(hash, AccLock);
      TablesOk(env, r) && Grown(t, r) && r.WatchesTx(AccLock)
  {
    hide TablesOk, Grown, Framed, Unasked, Undisturbed, Tail;
    var u := t.(watchedAddrs := t.watchedAddrs - {id});
    ForgettingFits(env, t, u);
    WatchTxXmrFits(env, u, hash);
    GrownOn(t, u, u.WatchTx(hash, AccLock));
  }

  lemma BobAccordantTabled(env: Env, x: Swap, rt: Rt, msg: BusMsg)
    requires Tabular(env, x, rt) && rt.ssm.BobRefundProcedureSignatures?
    ensures Tabled(env, x, rt, TryBobRefundProcedureSignaturesToBobAccordantLock(x, rt, rt.ssm, msg))
  {
    hide TablesOk, HandleBobSwapInterruptAfterLock, TxsOk, Grown, SyncerTasks.WatchesTx, NoAccLock,
      SyncerTasks.Retrieves, Framed, Unasked, Undisturbed, Tail;
    BobInterruptTabled(env, x, rt, msg);
    GrownSelf(rt.syncer.tasks);
    if msg.Sync? && msg.event.AddressTransaction? {
      FollowPaymentFits(env, rt.syncer.tasks, msg.event.id, msg.event.hash);
      WatchesLast(rt.syncer.tasks,
        rt.syncer.tasks.(watchedAddrs := rt.syncer.tasks.watchedAddrs - {msg.event.id}).WatchTx(msg.event.hash,
        AccLock));
    }
  }

  lemma BobReleaseTabled(env: Env, x: Swap, rt: Rt, msg: BusMsg)
    requires Tabular(env, x, rt) && rt.ssm.BobAccordantLock?
    ensures Tabled(env, x, rt, TryBobAccordantLockToBobAccordantLockFinal(x, rt, rt.ssm, msg))
  {
    hide TablesOk, HandleBobSwapInterruptAfterLock, TxsOk, Grown, Framed, Unasked, Undisturbed, Tail;
    BobInterruptTabled(env, x, rt, msg);
    GrownSelf(rt.syncer.tasks);
  }

  /** A watched transaction reported as final is one that can stand for its label. */
  lemma ReportedFinal(env: Env, rt: Rt, id: TaskId, count: nat, l: TxLabel)
    requires TablesOk(env, rt.syncer.tasks) && ConfirmationFits(env, rt, id, count)
    requires rt.LabelOf(id) == Some(l) && l != AccLock && rt.ts.FinalTx(count, Bitcoin)
    ensures Final(env, l)
  {}

  lemma FetchFits(env: Env, t: SyncerTasks, l: TxLabel)
    requires TablesOk(env, t) && l in t.txids && Final(env, l)
    ensures var r := t.(txids := t.txids - {l}).RetrieveTx(t.txids[l], l);
      TablesOk(env, r) && Grown(t, r) && r.Retrieves(l)
  {
    hide TablesOk, Grown, Framed, Unasked, Undisturbed, Tail;
    var u := t.(txids := t.txids - {l});
    ForgettingFits(env, t, u);
    RetrieveTxFits(env, u, t.txids[l], l);
    GrownOn(t, u, u.RetrieveTx(t.txids[l], l));
  }

  lemma NoteConfsFits(env: Env, rt: Rt, id: TaskId, confs: Option<nat>, thr: nat)
    requires TablesOk(env, rt.syncer.tasks)
    ensures TablesOk(env, rt.NoteConfs(id, confs, thr).syncer.tasks)
    ensures Grown(rt.syncer.tasks, rt.NoteConfs(id, confs, thr).syncer.tasks)
    ensures var u := rt.NoteConfs(id, confs, thr).syncer.tasks; u == rt.syncer.tasks.(finalTxs := u.finalTxs)
  {
    ForgettingFits(env, rt.syncer.tasks, rt.NoteConfs(id, confs, thr).syncer.tasks);
  }

  lemma BobSeesBuyTabled(env: Env, x: Swap, rt: Rt, id: TaskId, confs: nat)
    requires Tabular(env, x, rt) && rt.ssm.BobAccordantLockFinal? && Buy in rt.syncer.tasks.txids && Final(env, Buy)
    ensures Tabled(env, x, rt, Goto(FetchTx(rt.NoteConfs(id, Some(confs), rt.ts.btcFinalityThr), Buy), rt.ssm))
  {
    hide TablesOk, TxsOk, Grown, SyncerTasks.WatchesTx, Framed, Unasked, Undisturbed, Tail;
    NoteConfsFits(env, rt, id, Some(confs), rt.ts.btcFinalityThr);
    var u := rt.NoteConfs(id, Some(confs), rt.ts.btcFinalityThr).syncer.tasks;
    var r := u.(txids := u.txids - {Buy}).RetrieveTx(u.txids[Buy], Buy);
    FetchFits(env, u, Buy);
    GrownOn(rt.syncer.tasks, u, r);
    WatchesLast(rt.syncer.tasks, r);
  }

  /** Dropping a retrieval that was not for `l` leaves the one for `l`. */
  lemma DropRetrieval(env: Env, t: SyncerTasks, id: TaskId, l: TxLabel)
    requires TablesOk(env, t)
    ensures var r := t.(retrievingTxs := t.retrievingTxs - {id});
      && TablesOk(env, r) && Grown(t, r)
      && (t.Retrieves(l) && !(id in t.retrievingTxs && t.retrievingTxs[id].0 == l) ==> r.Retrieves(l))
  {
    var r := t.(retrievingTxs := t.retrievingTxs - {id});
    ForgettingFits(env, t, r);
    if t.Retrieves(l) && !(id in t.retrievingTxs && t.retrievingTxs[id].0 == l) {
      var i :| i in t.retrievingTxs && t.retrievingTxs[i].0 == l;
      assert i in r.retrievingTxs;
    }
  }

  lemma BobSweepsTabled(env: Env, x: Swap, rt: Rt, r: Rt, tx: Tx)
    requires Tabular(env, x, rt) && rt.ssm.BobAccordantLockFinal? && StageOk(env, x, Bob, rt.ssm)
    requires TablesOk(env, r.syncer.tasks) && Grown(rt.syncer.tasks, r.syncer.tasks) && r.txs == rt.txs
      && Final(env, Buy)
    ensures match ProcessBuyTx(x.crypto, rt.ssm.wallet, x.deal, tx, rt.creationHeight)
      case Failed(e) => Tabled(env, x, rt, Fail(r, e))
      case Done(_, keys) =>
        var r1 := r.Emit(SetAddressSecretKey(Monero)).RegisterSweep(keys, true);
        Tabled(env, x, rt, Goto(r1, BobBuyFinal(r1.syncer.tasks.LastTask())))
  {
    hide TablesOk, TxsOk, Grown, SyncerTasks.WatchesTx, Framed, Unasked, Undisturbed, Tail;
    WatchesLast(rt.syncer.tasks, r.syncer.tasks);
    var res := ProcessBuyTx(x.crypto, rt.ssm.wallet, x.deal, tx, rt.creationHeight);
    if res.Done? {
      SweepFits(env, r.syncer.tasks, res.value, true);
      GrownOn(rt.syncer.tasks, r.syncer.tasks, r.syncer.tasks.Sweep(res.value, true));
      WatchesLast(r.syncer.tasks, r.syncer.tasks.Sweep(res.value, true));
    }
  }

  lemma BobBuyFinalTabled(env: Env, x: Swap, rt: Rt, msg: BusMsg)
    requires Tabular(env, x, rt) && rt.ssm.BobAccordantLockFinal? && StageOk(env, x, Bob, rt.ssm)
      && Truthful(env, rt, msg)
    ensures Tabled(env, x, rt, TryBobAccordantLockFinalToBobBuyFinal(x, rt, rt.ssm, msg))
  {
    hide HandleBobSwapInterruptAfterLock, FetchTx, Grown, TxsOk, ProcessBuyTx, Framed, Unasked, Undisturbed, Tail;
    BobInterruptTabled(env, x, rt, msg);
    if msg.Sync? && msg.event.TransactionConfirmations? && msg.event.confirmations.Some? {
      var id, confs := msg.event.id, msg.event.confirmations.value;
      if rt.ts.FinalTx(confs, Bitcoin) && rt.LabelOf(id) == Some(Buy) && Buy in rt.syncer.tasks.txids {
        ReportedFinal(env, rt, id, confs, Buy);
        BobSeesBuyTabled(env, x, rt, id, confs);
      }
    } else if msg.Sync? && msg.event.TransactionRetrieved? && msg.event.found.Some? {
      BobRetrievedTabled(env, x, rt, msg.event.id, msg.event.found.value, msg);
    }
  }

  lemma RetrievedIsFinal(env: Env, t: SyncerTasks, id: TaskId)
    requires TablesOk(env, t) && id in t.retrievingTxs
    ensures Final(env, t.retrievingTxs[id].0)
  {
    hide SyncerTasks.Valid, Final;
  }

  lemma BobRetrievedTabled(env: Env, x: Swap, rt: Rt, id: TaskId, tx: Tx, msg: BusMsg)
    requires Tabular(env, x, rt) && rt.ssm.BobAccordantLockFinal? && StageOk(env, x, Bob, rt.ssm)
    requires msg == Sync(TransactionRetrieved(id, Some(tx)))
    ensures Tabled(env, x, rt, TryBobAccordantLockFinalToBobBuyFinal(x, rt, rt.ssm, msg))
  {
    hide HandleBobSwapInterruptAfterLock, FetchTx, TablesOk, TxsOk, Grown, SyncerTasks.WatchesTx, SyncerTasks.Retrieves,
      ProcessBuyTx, Framed, Unasked, Undisturbed, Tail;
    var t := rt.syncer.tasks;
    var r := rt.WithTasks(t.(retrievingTxs := t.retrievingTxs - {id}));
    DropRetrieval(env, t, id, Buy);
    WatchesLast(t, r.syncer.tasks);
    if id in t.retrievingTxs && t.retrievingTxs[id].0 == Buy {
      RetrievedIsFinal(env, t, id);
      BobSweepsTabled(env, x, rt, r, tx);
    } else {
      BobInterruptTabled(env, x, r, msg);
      GrownOn(t, r.syncer.tasks, HandleBobSwapInterruptAfterLock(r, msg).rt.syncer.tasks);
    }
  }

  lemma BobLateTabled(env: Env, x: Swap, rt: Rt, msg: BusMsg)
    requires rt.ssm.BobBuyFinal? || rt.ssm.BobBuySweeping? || rt.ssm.BobAbortAwaitingBitcoinSweep?
    requires Tabular(env, x, rt)
    ensures Tabled(env, x, rt, NextOfBob(x, rt, msg))
  {
    hide TablesOk, Grown, TxsOk, BobTables, NoAccLock, Final, Framed, Unasked, Undisturbed, Tail;
    GrownSelf(rt.syncer.tasks);
    TxsFewer(env, rt.txs, {Cancel, Refund, Buy, Punish});
  }

  lemma BobCancelFinalTabled(env: Env, x: Swap, rt: Rt, msg: BusMsg)
    requires rt.ssm.BobCanceled? && Tabular(env, x, rt)
    ensures Tabled(env, x, rt, TryBobCanceledToBobCancelFinal(rt, msg))
  {
    hide TablesOk, Grown, SyncerTasks.WatchesTx, Syncer.HandleTxConfs, TxsOk, Framed, Unasked, Undisturbed, Tail;
    GrownSelf(rt.syncer.tasks);
    TxsFewer(env, rt.txs, {Refund});
    if msg.Sync? && msg.event.TransactionConfirmations? && msg.event.confirmations.Some? && Refund in rt.txs {
      NoteConfsFits(env, rt, msg.event.id, msg.event.confirmations, rt.ts.btcFinalityThr);
      var u := rt.NoteConfs(msg.event.id, msg.event.confirmations, rt.ts.btcFinalityThr).syncer.tasks;
      BroadcastFits(env, u, rt.txs[Refund]);
      GrownOn(rt.syncer.tasks, u, u.Broadcast(rt.txs[Refund]));
      WatchesLast(rt.syncer.tasks, u.Broadcast(rt.txs[Refund]));
    }
  }

  lemma BobRefundedTabled(env: Env, x: Swap, rt: Rt, msg: BusMsg)
    requires rt.ssm.BobCancelFinal? && Tabular(env, x, rt) && Truthful(env, rt, msg)
    ensures Tabled(env, x, rt, TryBobCancelFinalToSwapEnd(rt, msg))
  {
    hide TablesOk, Grown, SyncerTasks.WatchesTx, Syncer.HandleTxConfs, TxsOk, Framed, Unasked, Undisturbed, Tail;
    GrownSelf(rt.syncer.tasks);
    TxsFewer(env, rt.txs, {Cancel, Refund, Buy, Punish});
    if msg.Sync? && msg.event.TransactionConfirmations? && msg.event.confirmations.Some? {
      NoteConfsFits(env, rt, msg.event.id, msg.event.confirmations, rt.ts.btcFinalityThr);
      if rt.ts.FinalTx(msg.event.confirmations.value, Bitcoin) && rt.LabelOf(msg.event.id) == Some(Refund) {
        ReportedFinal(env, rt, msg.event.id, msg.event.confirmations.value, Refund);
      }
    }
  }

  lemma BobTabled(env: Env, x: Swap, rt: Rt, msg: BusMsg)
    requires OfBob(rt.ssm) && Tabular(env, x, rt) && StageOk(env, x, Bob, rt.ssm) && CryptoFits(env, x.crypto)
      && Truthful(env, rt, msg)
    ensures Tabled(env, x, rt, NextOfBob(x, rt, msg))
  {
    hide Tabled, Tabular, StageOk, CryptoFits, Truthful, TrySweep, TrySweepingToSwapEnd,
      TryBobCanceledToBobCancelFinal, TryBobCancelFinalToSwapEnd, TryAwaitingSweepToSwapEnd,
      TryBobRevealToBobFeeEstimated, TryBobFeeEstimatedToBobFunded, TryBobFundedToBobRefundProcedureSignatures,
      TryBobRefundProcedureSignaturesToBobAccordantLock, TryBobAccordantLockToBobAccordantLockFinal,
      TryBobAccordantLockFinalToBobBuyFinal, Framed, Unasked, Undisturbed, Tail;
    match rt.ssm
    case BobReveal(l, r, w) => BobFeeEstimatedTabled(env, x, rt, l, r, w, msg);
    case BobFeeEstimated(l, r, w, required) => BobFundedTabled(env, x, rt, l, r, w, required, msg);
    case BobFunded(_, _, _) => BobRefundTabled(env, x, rt, msg);
    case BobRefundProcedureSignatures(_, _, _, _) => BobAccordantTabled(env, x, rt, msg);
    case BobAccordantLock(_, _, _, _) => BobReleaseTabled(env, x, rt, msg);
    case BobAccordantLockFinal(_, _, _) => BobBuyFinalTabled(env, x, rt, msg);
    case BobCanceled => BobCancelFinalTabled(env, x, rt, msg);
    case BobCancelFinal => BobRefundedTabled(env, x, rt, msg);
    case _ => BobLateTabled(env, x, rt, msg);
  }

  // ----- Alice -----

  /** What Alice's setup step does, whether the wallet accepts the setup or not. */
  lemma AliceSetUpTabled(env: Env, x: Swap, rt: Rt, msg: BusMsg)
    requires Tabular(env, x, rt) && rt.ssm.AliceReveal? && CryptoFits(env, x.crypto)
    requires msg.P2p? && msg.peer.CoreArbitrating? && SetupFits(env, msg.peer.setup)
    ensures Tabled(env, x, rt,
      TryAliceRevealToAliceCoreArbitratingSetup(x, rt, rt.ssm.local, rt.ssm.remote, rt.ssm.wallet, msg))
  {
    hide TablesOk, Grown, TxsOk, WatchesArbitrating, NoAccLock, SyncerTasks.WatchTxBtc, Rt.CheckpointOf, Framed,
      Unasked, Undisturbed, Tail;
    ArbitratingFit(env, rt.syncer.tasks, msg.peer.setup);
    var res := HandleCoreArbitratingSetup(x.crypto, rt.ssm.wallet, msg.peer.setup);
    if res.Done? { AliceTxsFit(env, rt.txs, Tx(msg.peer.setup.cancel), res.value.1, Punish); }
  }

  lemma AliceTxsFit(env: Env, txs: map<TxLabel, Tx>, cancel: Tx, other: Tx, l: TxLabel)
    requires TxsOk(env, txs) && cancel.txid in env.may(Cancel) && other.txid in env.may(l)
    ensures TxsOk(env, txs[Cancel := cancel][l := other])
  {}

  lemma AliceCoreArbitratingTabled(env: Env, x: Swap, rt: Rt, msg: BusMsg)
    requires Tabular(env, x, rt) && rt.ssm.AliceReveal? && CryptoFits(env, x.crypto) && Truthful(env, rt, msg)
    ensures Tabled(env, x, rt,
      TryAliceRevealToAliceCoreArbitratingSetup(x, rt, rt.ssm.local, rt.ssm.remote, rt.ssm.wallet, msg))
  {
    if msg.P2p? && msg.peer.CoreArbitrating? {
      AliceSetUpTabled(env, x, rt, msg);
    }
  }

  lemma AliceCancelsInPlace(env: Env, x: Swap, rt: Rt, w: Wallet)
    requires Tabular(env, x, rt)
      && (rt.ssm.AliceCoreArbitratingSetup? || rt.ssm.AliceArbitratingLockFinal? || rt.ssm.AliceAccordantLock?)
    ensures PlaceOk(env, x, AliceCanceled(w), rt.txs, rt.syncer.tasks)
  {
    hide TablesOk, TxsOk;
  }

  lemma AliceInterruptTabled(env: Env, x: Swap, rt: Rt, w: Wallet, msg: BusMsg)
    requires Tabular(env, x, rt)
      && (rt.ssm.AliceCoreArbitratingSetup? || rt.ssm.AliceArbitratingLockFinal? || rt.ssm.AliceAccordantLock?)
    ensures Tabled(env, x, rt, HandleAliceSwapInterruptAfterLock(rt, w, msg))
  {
    hide PlaceOk, TablesOk, Grown, TxsOk, SyncerTasks.WatchesTx, SyncerTasks.WatchesAddr, SyncerTasks.Retrieves,
      Framed, Unasked, Undisturbed, Tail;
    GrownSelf(rt.syncer.tasks);
    AliceCancelsInPlace(env, x, rt, w);
    if Cancel in rt.txs { CancelPublished(env, x, rt); }
  }

  lemma AliceLockFinalEffect(x: Swap, rt: Rt, local: Params, remote: Params, w: Wallet, msg: BusMsg)
    ensures var step := TryAliceCoreArbitratingSetupToAliceArbitratingLockFinal(x, rt, local, remote, w, msg);
      var keys := x.crypto.aggregate(local, remote);
      || step == HandleAliceSwapInterruptAfterLock(rt, w, msg)
      || step == Stay(rt)
      || (step.Goto? && step.next.AliceArbitratingLockFinal? && step.rt.txs == rt.txs
          && step.rt.syncer.tasks == rt.syncer.WatchAddrXmr(keys.0, keys.1, AccLock, step.rt.creationHeight).tasks)
  {
    hide HandleAliceSwapInterruptAfterLock, Framed, Unasked, Undisturbed, Tail;
  }

  lemma AliceLockFinalTabled(env: Env, x: Swap, rt: Rt, local: Params, remote: Params, w: Wallet, msg: BusMsg)
    requires Tabular(env, x, rt) && rt.ssm.AliceCoreArbitratingSetup?
    ensures Tabled(env, x, rt, TryAliceCoreArbitratingSetupToAliceArbitratingLockFinal(x, rt, local, remote, w, msg))
  {
    hide TablesOk, Grown, TxsOk, SyncerTasks.WatchesTx, SyncerTasks.WatchesAddr, HandleAliceSwapInterruptAfterLock,
      TryAliceCoreArbitratingSetupToAliceArbitratingLockFinal, Framed, Unasked, Undisturbed, Tail;
    AliceLockFinalEffect(x, rt, local, remote, w, msg);
    AliceInterruptTabled(env, x, rt, w, msg);
    GrownSelf(rt.syncer.tasks);
    var keys := x.crypto.aggregate(local, remote);
    var height := TryAliceCoreArbitratingSetupToAliceArbitratingLockFinal(x, rt, local, remote, w,
      msg).rt.creationHeight;
    var t := rt.syncer.WatchAddrXmr(keys.0, keys.1, AccLock, height).tasks;
    WatchAddrFits(env, rt.syncer.tasks, t.LastTask(), AccLock);
    WatchesLast(rt.syncer.tasks, t);
  }

  lemma AliceFollowsEffect(rt: Rt, s: SwapStateMachine, id: TaskId, hash: Txid, amount: nat)
    requires s.AliceArbitratingLockFinal?
    ensures var step := AliceSeesFunding(rt, s, id, hash, amount);
      && step.Goto? && step.rt.txs == rt.txs
      && step.rt.syncer.tasks
         == rt.syncer.tasks.(watchedAddrs := rt.syncer.tasks.watchedAddrs - {id}).WatchTx(hash, AccLock)
  {}

  lemma AliceFollowsTabled(env: Env, x: Swap, rt: Rt, id: TaskId, hash: Txid, amount: nat)
    requires Tabular(env, x, rt) && rt.ssm.AliceArbitratingLockFinal?
    ensures Tabled(env, x, rt, AliceSeesFunding(rt, rt.ssm, id, hash, amount))
  {
    hide TablesOk, Grown, TxsOk, SyncerTasks.WatchesTx, SyncerTasks.Retrieves, AliceSeesFunding, Framed, Unasked,
      Undisturbed, Tail;
    AliceFollowsEffect(rt, rt.ssm, id, hash, amount);
    FollowPaymentFits(env, rt.syncer.tasks, id, hash);
    WatchesLast(rt.syncer.tasks, AliceSeesFunding(rt, rt.ssm, id, hash, amount).rt.syncer.tasks);
  }

  lemma AliceAccordantTabled(env: Env, x: Swap, rt: Rt, msg: BusMsg)
    requires Tabular(env, x, rt) && rt.ssm.AliceArbitratingLockFinal?
    ensures Tabled(env, x, rt, TryAliceArbitratingLockFinalToAliceAccordantLock(x, rt, rt.ssm, msg))
  {
    hide TablesOk, Grown, TxsOk, SyncerTasks.WatchesTx, SyncerTasks.WatchesAddr, HandleAliceSwapInterruptAfterLock,
      AliceSeesFunding, Framed, Unasked, Undisturbed, Tail;
    AliceInterruptTabled(env, x, rt, rt.ssm.wallet, msg);
    GrownSelf(rt.syncer.tasks);
    if msg.Sync? && msg.event.AddressTransaction? {
      AliceFollowsTabled(env, x, rt, msg.event.id, msg.event.hash, msg.event.amount);
    }
  }

  lemma AliceBuyEffect(x: Swap, rt: Rt, w: Wallet, msg: BusMsg)
    requires msg.P2p? && msg.peer.BuyProcedureSignature?
    ensures var step := TryAliceAccordantLockToAliceBuyProcedureSignature(x, rt, w, msg);
      var t := rt.syncer.tasks.WatchTxBtc(msg.peer.buySig.buy, Buy);
      match HandleBuyProcedureSignature(x.crypto, w, msg.peer.buySig)
      case Failed(e) => step.Fail? && step.rt.syncer.tasks == t && step.rt.txs == rt.txs
      case Done(w', (cancel, buy)) =>
        && step.Goto? && step.rt.txs == rt.txs[Cancel := cancel][Buy := buy]
        && ((step.next == AliceCanceled(w') && step.rt.syncer.tasks == t.Broadcast(cancel))
            || (step.next.AliceBuyProcedureSignature? && step.rt.syncer.tasks == t.Broadcast(buy)))
  {}

  /** The completed transactions are those of the setup and of the signature. */
  lemma CompletedFits(env: Env, x: Swap, w: Wallet, buySig: BuySignature)
    requires SignedFits(env, w) && buySig.buy in env.may(Buy)
    ensures var res := HandleBuyProcedureSignature(x.crypto, w, buySig);
      res.Done? ==> res.value.0.txid in env.may(Cancel) && res.value.1.txid in env.may(Buy)
  {
  }

  lemma AliceBuySignedTabled(env: Env, x: Swap, rt: Rt, msg: BusMsg)
    requires Tabular(env, x, rt) && rt.ssm.AliceAccordantLock? && StageOk(env, x, Alice, rt.ssm)
    requires msg.P2p? && msg.peer.BuyProcedureSignature? && msg.peer.buySig.buy in env.may(Buy)
    ensures Tabled(env, x, rt, TryAliceAccordantLockToAliceBuyProcedureSignature(x, rt, rt.ssm.wallet, msg))
  {
    hide TablesOk, Grown, TxsOk, SyncerTasks.WatchesTx, SyncerTasks.WatchesAddr, SyncerTasks.Retrieves, NoAccLock,
      Final, WatchesArbitrating, SyncerTasks.WatchTxBtc, SyncerTasks.Broadcast,
      TryAliceAccordantLockToAliceBuyProcedureSignature, HandleBuyProcedureSignature, Framed, Unasked, Undisturbed,
      Tail;
    AliceBuyEffect(x, rt, rt.ssm.wallet, msg);
    var t := rt.syncer.tasks;
    var u := t.WatchTxBtc(msg.peer.buySig.buy, Buy);
    WatchTxBtcFits(env, t, msg.peer.buySig.buy, Buy);
    WatchTxBtcSpares(t, msg.peer.buySig.buy, Buy);
    ArbitratingLasts(t, u);
    WatchesLast(t, u);
    var res := HandleBuyProcedureSignature(x.crypto, rt.ssm.wallet, msg.peer.buySig);
    if res.Done? {
      CompletedFits(env, x, rt.ssm.wallet, msg.peer.buySig);
      AliceTxsFit(env, rt.txs, res.value.0, res.value.1, Buy);
      BroadcastOnFits(env, t, u, res.value.0);
      BroadcastOnFits(env, t, u, res.value.1);
    }
  }

  lemma BroadcastOnFits(env: Env, t: SyncerTasks, u: SyncerTasks, tx: Tx)
    requires TablesOk(env, u) && Grown(t, u)
    ensures TablesOk(env, u.Broadcast(tx)) && Grown(t, u.Broadcast(tx)) && u.Broadcast(tx).txids == u.txids
    ensures forall l :: u.WatchesTx(l) ==> u.Broadcast(tx).WatchesTx(l)
    ensures WatchesArbitrating(u) ==> WatchesArbitrating(u.Broadcast(tx))
  {
    hide TablesOk, Grown, Framed, Unasked, Undisturbed, Tail;
    BroadcastFits(env, u, tx);
    GrownOn(t, u, u.Broadcast(tx));
    WatchesLast(u, u.Broadcast(tx));
    if WatchesArbitrating(u) { ArbitratingLasts(u, u.Broadcast(tx)); }
  }

  lemma AliceBuyTabled(env: Env, x: Swap, rt: Rt, msg: BusMsg)
    requires Tabular(env, x, rt) && rt.ssm.AliceAccordantLock? && StageOk(env, x, Alice, rt.ssm)
      && Truthful(env, rt, msg)
    ensures Tabled(env, x, rt, TryAliceAccordantLockToAliceBuyProcedureSignature(x, rt, rt.ssm.wallet, msg))
  {
    hide Tabular, Tabled, StageOk, HandleAliceSwapInterruptAfterLock, Framed, Unasked, Undisturbed, Tail;
    if msg.P2p? && msg.peer.BuyProcedureSignature? {
      AliceBuySignedTabled(env, x, rt, msg);
    } else {
      AliceInterruptTabled(env, x, rt, rt.ssm.wallet, msg);
    }
  }

  lemma AliceBoughtTabled(env: Env, x: Swap, rt: Rt, msg: BusMsg)
    requires Tabular(env, x, rt) && rt.ssm.AliceBuyProcedureSignature? && Truthful(env, rt, msg)
    ensures Tabled(env, x, rt, TryAliceBuyProcedureSignatureToSwapEnd(rt, msg))
  {
    hide TablesOk, Grown, TxsOk, SyncerTasks.WatchesTx, Syncer.HandleTxConfs, Framed, Unasked, Undisturbed, Tail;
    GrownSelf(rt.syncer.tasks);
    TxsFewer(env, rt.txs, {Cancel, Punish});
    if msg.Sync? && msg.event.TransactionConfirmations? && msg.event.confirmations.Some? {
      NoteConfsFits(env, rt, msg.event.id, msg.event.confirmations, rt.ts.btcFinalityThr);
      if rt.ts.FinalTx(msg.event.confirmations.value, Bitcoin) && rt.LabelOf(msg.event.id) == Some(Buy) {
        ReportedFinal(env, rt, msg.event.id, msg.event.confirmations.value, Buy);
      }
    }
  }

  lemma AlicePublishesTabled(env: Env, x: Swap, rt: Rt, l: TxLabel)
    requires Tabular(env, x, rt) && rt.ssm.AliceCanceled? && l in rt.txs && (l == Cancel || l == Punish)
    ensures Tabled(env, x, rt, Goto(WatchAndPublish(rt, l), rt.ssm))
  {
    hide TablesOk, Grown, SyncerTasks.WatchesTx, TxsOk, Framed, Unasked, Undisturbed, Tail;
    var t := rt.syncer.tasks;
    var u := t.WatchTxBtc(rt.txs[l].txid, l);
    assert rt.txs[l].txid in env.may(l) by { TxFits(env, rt.txs, l); }
    TxsFewer(env, rt.txs, {l});
    WatchTxBtcFits(env, t, rt.txs[l].txid, l);
    WatchesLast(t, u);
    BroadcastOnFits(env, t, u, rt.txs[l]);
  }

  lemma AliceFetchesTabled(env: Env, x: Swap, rt: Rt)
    requires Tabular(env, x, rt) && rt.ssm.AliceCanceled? && Refund in rt.syncer.tasks.txids && Final(env, Refund)
    ensures Tabled(env, x, rt, Goto(FetchTx(rt, Refund), rt.ssm))
  {
    hide TablesOk, TxsOk, Grown, SyncerTasks.WatchesTx, Framed, Unasked, Undisturbed, Tail;
    FetchFits(env, rt.syncer.tasks, Refund);
    WatchesLast(rt.syncer.tasks, FetchTx(rt, Refund).syncer.tasks);
  }

  lemma AliceRefundEffect(x: Swap, rt: Rt, w: Wallet, tx: Tx)
    ensures var step := AliceSeesRefund(x, rt, w, tx); var t := step.rt.syncer.tasks;
      match ProcessRefundTx(x.crypto, w, x.deal, tx, rt.creationHeight)
      case Failed(e) => step == Fail(rt, e)
      case Done(_, keys) =>
        && step.Goto?
        && (step.next.EndsIn(FailureRefund) ==>
           t == rt.syncer.tasks && step.rt.txs == rt.txs - {Cancel, Refund, Buy, Punish})
        && (!step.next.SwapEnd? ==>
              t == rt.syncer.tasks.Sweep(keys, true) && step.rt.txs == rt.txs
              && step.next == AliceRefund(SweepAddress(t.counter, keys, true)))
  {}

  lemma AliceRefundTabled(env: Env, x: Swap, rt: Rt, id: TaskId, tx: Tx)
    requires Tabular(env, x, rt) && rt.ssm.AliceCanceled? && StageOk(env, x, Alice, rt.ssm) && Final(env, Refund)
    ensures var t := rt.syncer.tasks;
      Tabled(env, x, rt, AliceSeesRefund(x, rt.WithTasks(t.(retrievingTxs := t.retrievingTxs - {id})), rt.ssm.wallet,
        tx))
  {
    hide TablesOk, TxsOk, Grown, SyncerTasks.WatchesTx, SyncerTasks.Retrieves, SyncerTasks.WatchesAddr,
      AliceSeesRefund, Final, Framed, Unasked, Undisturbed, Tail;
    var t := rt.syncer.tasks;
    var u := t.(retrievingTxs := t.retrievingTxs - {id});
    AliceRefundEffect(x, rt.WithTasks(u), rt.ssm.wallet, tx);
    DropRetrieval(env, t, id, Refund);
    WatchesLast(t, u);
    TxsFewer(env, rt.txs, {Cancel, Refund, Buy, Punish});
    var res := ProcessRefundTx(x.crypto, rt.ssm.wallet, x.deal, tx, rt.creationHeight);
    if res.Done? {
      SweepFits(env, u, res.value, true);
      GrownOn(t, u, u.Sweep(res.value, true));
    }
  }

  lemma AliceSeesConfsTabled(env: Env, x: Swap, rt: Rt, id: TaskId, confs: nat, msg: BusMsg)
    requires Tabular(env, x, rt) && rt.ssm.AliceCanceled? && Truthful(env, rt, msg)
    requires msg == Sync(TransactionConfirmations(id, Some(confs)))
    ensures Tabled(env, x, rt, TryAliceCanceledToAliceRefundOrAlicePunish(x, rt, rt.ssm, msg))
  {
    hide TxsOk, TablesOk, Grown, SyncerTasks.WatchesTx, SyncerTasks.WatchesAddr, SyncerTasks.Retrieves, NoAccLock,
      FetchTx, WatchAndPublish, Final, ConfirmationFits, Tail, Framed, WatchesArbitrating;
    GrownSelf(rt.syncer.tasks);
    TxsFewer(env, rt.txs, {Cancel, Refund, Buy, Punish});
    if rt.ts.FinalTx(confs, Bitcoin) && rt.LabelOf(id).Some? {
      var l := rt.syncer.tasks.watchedTxs[id];
      if l != AccLock { ReportedFinal(env, rt, id, confs, l); }
      if l == Refund && Refund in rt.syncer.tasks.txids { AliceFetchesTabled(env, x, rt); }
      if Punish in rt.txs { AlicePublishesTabled(env, x, rt, Punish); }
      if Cancel in rt.txs { AlicePublishesTabled(env, x, rt, Cancel); }
    }
  }

  lemma AliceCanceledTabled(env: Env, x: Swap, rt: Rt, msg: BusMsg)
    requires Tabular(env, x, rt) && rt.ssm.AliceCanceled? && StageOk(env, x, Alice, rt.ssm) && Truthful(env, rt, msg)
    ensures Tabled(env, x, rt, TryAliceCanceledToAliceRefundOrAlicePunish(x, rt, rt.ssm, msg))
  {
    hide TxsOk, Grown, PlaceOk, StageOk, FetchTx, WatchAndPublish, AliceSeesRefund, Framed, Unasked, Undisturbed, Tail;
    GrownSelf(rt.syncer.tasks);
    if msg.Sync? && msg.event.TransactionConfirmations? && msg.event.confirmations.Some? {
      AliceSeesConfsTabled(env, x, rt, msg.event.id, msg.event.confirmations.value, msg);
    } else if msg.Sync? && msg.event.TransactionRetrieved? && msg.event.found.Some? {
      var id := msg.event.id;
      if id in rt.syncer.tasks.retrievingTxs && rt.syncer.tasks.retrievingTxs[id].0 == Refund {
        AliceRefundTabled(env, x, rt, id, msg.event.found.value);
      }
    }
  }

  lemma AliceLateTabled(env: Env, x: Swap, rt: Rt, msg: BusMsg)
    requires rt.ssm.AliceRefund? || rt.ssm.AliceRefundSweeping? || rt.ssm.SwapEnd?
    requires Tabular(env, x, rt)
    ensures Tabled(env, x, rt, NextOfAlice(x, rt, msg))
  {
    hide TablesOk, Grown, TxsOk, Framed, Unasked, Undisturbed, Tail;
    GrownSelf(rt.syncer.tasks);
    TxsFewer(env, rt.txs, {Cancel, Refund, Buy, Punish});
  }

  lemma AliceTabled(env: Env, x: Swap, rt: Rt, msg: BusMsg)
    requires !InSetup(rt.ssm) && !OfBob(rt.ssm) && Tabular(env, x, rt) && CryptoFits(env, x.crypto)
      && Truthful(env, rt, msg)
    requires !rt.ssm.SwapEnd? ==> StageOk(env, x, Alice, rt.ssm)
    ensures Tabled(env, x, rt, NextOfAlice(x, rt, msg))
  {
    hide Tabled, Tabular, StageOk, CryptoFits, Truthful, TrySweep, TrySweepingToSwapEnd,
      TryAliceRevealToAliceCoreArbitratingSetup, TryAliceArbitratingLockFinalToAliceAccordantLock,
      TryAliceAccordantLockToAliceBuyProcedureSignature, TryAliceCoreArbitratingSetupToAliceArbitratingLockFinal,
      TryAliceCanceledToAliceRefundOrAlicePunish, TryAliceBuyProcedureSignatureToSwapEnd, Framed, Unasked,
      Undisturbed, Tail;
    match rt.ssm
    case AliceReveal(_, _, _) => AliceCoreArbitratingTabled(env, x, rt, msg);
    case AliceCoreArbitratingSetup(l, r, w) => AliceLockFinalTabled(env, x, rt, l, r, w, msg);
    case AliceArbitratingLockFinal(_, _, _) => AliceAccordantTabled(env, x, rt, msg);
    case AliceAccordantLock(_) => AliceBuyTabled(env, x, rt, msg);
    case AliceBuyProcedureSignature => AliceBoughtTabled(env, x, rt, msg);
    case AliceCanceled(_) => AliceCanceledTabled(env, x, rt, msg);
    case _ => AliceLateTabled(env, x, rt, msg);
  }

  lemma NextTabled(env: Env, x: Swap, rt: Rt, role: SwapRole, msg: BusMsg)
    requires Tabular(env, x, rt) && StageOk(env, x, role, rt.ssm) && CryptoFits(env, x.crypto) && Truthful(env, rt, msg)
    ensures Tabled(env, x, rt, Next(x, rt, msg))
  {
    hide NextInSetup, NextOfBob, NextOfAlice, Tabled, Tabular, CryptoFits, Truthful, Framed, Unasked, Undisturbed, Tail;
    if InSetup(rt.ssm) { SetupTabled(env, x, rt, msg); }
    else if OfBob(rt.ssm) { BobTabled(env, x, rt, msg); }
    else { AliceTabled(env, x, rt, msg); }
  }
}
