/** Bob's release order: his Buy signature goes out only for a sufficient payment whose
    own transaction was confirmed, and he ends well only after sweeping what it bought. */
module ReleaseOrder {
  import opened Types
  import opened SyncerClient
  import opened SwapWallet
  import opened SwapRuntime
  import opened SwapState
  import opened History
  import opened Invariants
  import opened Stages
  import opened Tables
  import opened Commitment

  /** The message was just recorded. */
  predicate Fed(rt: Rt, msg: BusMsg) {
    |rt.log| > 0 && rt.log[|rt.log| - 1] == In(msg)
  }

  // ----- what the story rests on -----

  /** Every watch on the shared address was asked for in this run. */
  ghost predicate AddressesAsked(log: seq<Entry>, t: SyncerTasks) {
    forall id :: id in t.watchedAddrs && t.watchedAddrs[id] == AccLock ==> AsksAddress(log, id)
  }

  ghost predicate PaymentsWatched(x: Swap, log: seq<Entry>, t: SyncerTasks) {
    forall id :: id in t.watchedTxs && t.watchedTxs[id] == AccLock ==> WatchesPayment(x, log, id)
  }

  /** What is watched as Buy is the transaction `buy`, and was asked for in this run. */
  ghost predicate BuyWatched(log: seq<Entry>, t: SyncerTasks, buy: Txid) {
    && (Buy in t.txids ==> t.txids[Buy] == buy)
    && (forall id :: id in t.watchedTxs && t.watchedTxs[id] == Buy ==> AsksTx(log, id, buy))
  }

  ghost predicate NoBuy(t: SyncerTasks) {
    Buy !in t.txids && forall id :: id in t.watchedTxs ==> t.watchedTxs[id] != Buy
  }

  ghost predicate NoFetch(t: SyncerTasks) {
    forall id :: id in t.retrievingTxs ==> t.retrievingTxs[id].0 != Buy
  }

  ghost predicate BuyFetched(x: Swap, log: seq<Entry>, t: SyncerTasks, buy: Txid) {
    forall id :: id in t.retrievingTxs && t.retrievingTxs[id].0 == Buy ==> Fetches(x, log, id, buy)
  }

  ghost predicate NoAccAddress(t: SyncerTasks) {
    forall id :: id in t.watchedAddrs ==> t.watchedAddrs[id] != AccLock
  }

  /** Bob's states from the first commitment to the refund signatures. */
  predicate Early(s: SwapStateMachine) {
    s.BobInitTaker? || s.BobInitMaker? || s.BobTakerMakerCommit? || s.BobReveal? || s.BobFeeEstimated? || s.BobFunded?
  }

  /** How far Bob's story has got in a state. */
  ghost predicate StoryOk(x: Swap, role: SwapRole, s: SwapStateMachine, t: SyncerTasks, log: seq<Entry>) {
    if s.StartTaker? || s.StartMaker? then NoBuy(t) && NoFetch(t) && NoAccAddress(t)
    else if Early(s) then NoBuy(t) && NoFetch(t) && AddressesAsked(log, t)
    else match s
      case BobRefundProcedureSignatures(_, _, _, sig) => AddressesAsked(log, t) && BuyWatched(log, t, sig.buy)
        && NoFetch(t)
      case BobAccordantLock(_, _, _, sig) => PaymentsWatched(x, log, t) && BuyWatched(log, t, sig.buy) && NoFetch(t)
      case BobAccordantLockFinal(_, _, _) =>
        exists buy :: Signed(log, buy) && BuyWatched(log, t, buy) && BuyFetched(x, log, t, buy)
      case BobBuyFinal(_) => SawBuy(x, log)
      case BobBuySweeping => t.sweepingAddr.Some? && SentSweep(x, log, t.sweepingAddr.value)
      case SwapEnd(o) => role == Bob && o == SuccessSwap ==> Swept(x, log)
      case _ => true
  }

  /** A stored checkpoint knows of no Buy transaction but that of its own Buy signature. */
  predicate StoresBuy(cp: CheckpointSwapd) {
    && (cp.state.BobFunded? ==> forall p :: p in cp.txids ==> p.0 != Buy)
    && (cp.state.BobRefundProcedureSignatures? ==> forall p :: p in cp.txids && p.0 == Buy ==>
       p.1 == cp.state.buySig.buy)
  }

  ghost predicate StoredBuys(log: seq<Entry>) {
    forall e :: e in log && Stores(e) ==> StoresBuy(e.send.checkpoint)
  }

  ghost predicate ReleasePart(x: Swap, role: SwapRole, rt: Rt) {
    ReleasedInOrder(x, rt.log) && StoredBuys(rt.log) && StoryOk(x, role, rt.ssm, rt.syncer.tasks, rt.log)
  }

  ghost predicate StepReleases(x: Swap, role: SwapRole, rt: Rt, step: Step) {
    && ReleasedInOrder(x, step.rt.log)
    && StoryOk(x, role, if step.Goto? then step.next else rt.ssm, step.rt.syncer.tasks, step.rt.log)
  }

  lemma {:induction false} TailReleases(x: Swap, a: seq<Entry>, b: seq<Entry>, kinds: set<Kind>)
    requires Tail(a, b, kinds) && Release !in kinds && ReleasedInOrder(x, a)
    ensures ReleasedInOrder(x, b)
    decreases |b|
  {
    hide ReleasedInOrder;
    if |b| == |a| {
      assert a == b;
    } else {
      var c, e := b[..|b| - 1], b[|b| - 1];
      assert b == c + [e];
      TailReleases(x, a, c, kinds);
      AppendRelease(x, c, e);
    }
  }

  lemma TailRuns(a: seq<Entry>, b: seq<Entry>, kinds: set<Kind>)
    requires Tail(a, b, kinds) && Begin !in kinds
    ensures SameRun(a, b)
  {}

  // ----- the story lasts -----

  /** Nothing of the story is added to the tables. */
  ghost predicate AddsNothing(t: SyncerTasks, r: SyncerTasks) {
    && (Buy in r.txids ==> Buy in t.txids && r.txids[Buy] == t.txids[Buy])
    && (forall id :: id in r.watchedTxs && (r.watchedTxs[id] == Buy || r.watchedTxs[id] == AccLock) ==>
          id in t.watchedTxs && t.watchedTxs[id] == r.watchedTxs[id])
    && (forall id :: id in r.watchedAddrs && r.watchedAddrs[id] == AccLock ==>
       id in t.watchedAddrs && t.watchedAddrs[id] == AccLock)
    && (forall id :: id in r.retrievingTxs && r.retrievingTxs[id].0 == Buy ==>
          id in t.retrievingTxs && t.retrievingTxs[id].0 == Buy)
  }

  /** A state keeps its place in the story while nothing is added to it. */
  lemma StoryGoesOn(x: Swap, role: SwapRole, s: SwapStateMachine, t: SyncerTasks, a: seq<Entry>, r: SyncerTasks,
      b: seq<Entry>)
    requires StoryOk(x, role, s, t, a) && SameRun(a, b) && AddsNothing(t, r)
    requires s.BobBuySweeping? ==> r.sweepingAddr == t.sweepingAddr
    ensures StoryOk(x, role, s, r, b)
  {
    hide AsksAddress, AsksTx, WatchesPayment, Signed, Fetches, SawBuy, SentSweep, Swept, SameRun;
    AsksLast(a, b);
    StoryLasts(x, a, b);
    forall id | WatchesPayment(x, a, id) ensures WatchesPayment(x, b, id) { PaymentLasts(x, a, b, id); }
    if s.BobAccordantLockFinal? {
      var buy :| Signed(a, buy) && BuyWatched(a, t, buy) && BuyFetched(x, a, t, buy);
      assert Signed(b, buy) && BuyWatched(b, r, buy) && BuyFetched(x, b, r, buy);
    }
  }

  /** A step that releases nothing and stays at its place in the story. */
  lemma StoryStays(x: Swap, role: SwapRole, rt: Rt, step: Step, kinds: set<Kind>)
    requires ReleasePart(x, role, rt) && Tail(rt.log, step.rt.log, kinds) && Release !in kinds && Begin !in kinds
    requires !(step.Goto? && step.next != rt.ssm)
    requires AddsNothing(rt.syncer.tasks, step.rt.syncer.tasks)
    requires rt.ssm.BobBuySweeping? ==> step.rt.syncer.tasks.sweepingAddr == rt.syncer.tasks.sweepingAddr
    ensures StepReleases(x, role, rt, step)
  {
    hide StoryOk, ReleasedInOrder, AddsNothing;
    TailReleases(x, rt.log, step.rt.log, kinds);
    TailRuns(rt.log, step.rt.log, kinds);
    StoryGoesOn(x, role, rt.ssm, rt.syncer.tasks, rt.log, step.rt.syncer.tasks, step.rt.log);
  }

  /** Without a transition nothing is added. */
  lemma UndisturbedAddsNothing(rt: Rt, r: Rt)
    requires Undisturbed(rt, r)
    ensures AddsNothing(rt.syncer.tasks, r.syncer.tasks)
  {}

  // ----- before the lock -----

  lemma HeightsAddNothing(rt: Rt)
    ensures AddsNothing(rt.syncer.tasks, WatchHeights(rt).syncer.tasks)
  {
    hide Framed, Unasked, Tail;
  }

  lemma InitTakerAddsNothing(x: Swap, rt: Rt, role: SwapRole, msg: BusMsg)
    ensures AddsNothing(rt.syncer.tasks, AttemptTransitionToInitTaker(x, rt, role, msg).rt.syncer.tasks)
  {
    hide AddsNothing, WatchHeights, Framed, Unasked, Tail, Announce, OwnCommit, NewTaker;
    HeightsAddNothing(rt);
    SameAddsNothing(rt.syncer.tasks);
  }

  lemma InitMakerAddsNothing(x: Swap, rt: Rt, role: SwapRole, msg: BusMsg)
    ensures AddsNothing(rt.syncer.tasks, AttemptTransitionToInitMaker(x, rt, role, msg).rt.syncer.tasks)
  {
    hide AddsNothing, WatchHeights, Framed, Unasked, Tail, Announce, OwnCommit, NewMaker;
    HeightsAddNothing(rt);
    SameAddsNothing(rt.syncer.tasks);
  }

  lemma AbortAddsNothing(x: Swap, rt: Rt, w: Wallet)
    ensures AddsNothing(rt.syncer.tasks, HandleBobAbortSwap(x, rt, w).rt.syncer.tasks)
  {
    hide Framed, Unasked, Tail, SweepBitcoinKeys;
  }

  lemma CommitAddsNothing(x: Swap, rt: Rt, local: Params, w: Wallet, msg: BusMsg)
    ensures AddsNothing(rt.syncer.tasks, TryBobInitTakerToBobTakerMakerCommit(x, rt, local, w, msg).rt.syncer.tasks)
  {
    hide Framed, Unasked, Tail, HandleBobAbortSwap, HandleMakerCommit, AddsNothing;
    AbortAddsNothing(x, rt, w);
    SameAddsNothing(rt.syncer.tasks);
  }

  lemma SameAddsNothing(t: SyncerTasks)
    ensures AddsNothing(t, t)
  {}

  lemma RevealAddsNothing(x: Swap, rt: Rt, local: Params, commit: Commit, w: Wallet, msg: BusMsg)
    ensures AddsNothing(rt.syncer.tasks, AttemptTransitionToBobReveal(x, rt, local, commit, w, msg).rt.syncer.tasks)
  {
    hide Framed, Unasked, Tail, HandleBobAbortSwap, HandleReveal;
    AbortAddsNothing(x, rt, w);
  }

  lemma FeeAddsNothing(x: Swap, rt: Rt, local: Params, remote: Params, w: Wallet, msg: BusMsg)
    ensures AddsNothing(rt.syncer.tasks, TryBobRevealToBobFeeEstimated(x, rt, local, remote, w, msg).rt.syncer.tasks)
  {
    hide Framed, Unasked, Tail, HandleBobAbortSwap;
    AbortAddsNothing(x, rt, w);
  }

  lemma WatchAddsNothing(rt: Rt, txid: Txid, l: TxLabel)
    requires l != Buy && l != AccLock
    ensures AddsNothing(rt.syncer.tasks, rt.WatchTxBtc(txid, l).syncer.tasks)
  {}

  lemma AddsNothingOn(t: SyncerTasks, u: SyncerTasks, r: SyncerTasks)
    requires AddsNothing(t, u) && AddsNothing(u, r)
    ensures AddsNothing(t, r)
  {}

  lemma SetUpAddsNothing(x: Swap, rt: Rt, local: Params, remote: Params, w: Wallet, tx: Tx)
    ensures AddsNothing(rt.syncer.tasks, BobSetUpCoreArbitrating(x, rt, local, remote, w, tx).rt.syncer.tasks)
  {
    hide Framed, Unasked, Tail, ProcessFundingTx, CreateCoreArb, Rt.CheckpointOf, Rt.WatchTxBtc, AddsNothing;
    SameAddsNothing(rt.syncer.tasks);
    var funded := ProcessFundingTx(x.crypto, w, tx);
    if funded.Done? {
      var made := CreateCoreArb(x.crypto, funded.wallet);
      if made.Done? {
        var setup := made.value;
        var a := rt.WatchTxBtc(setup.lock, Lock);
        var b := a.WatchTxBtc(setup.cancel, Cancel);
        WatchAddsNothing(rt, setup.lock, Lock);
        WatchAddsNothing(a, setup.cancel, Cancel);
        WatchAddsNothing(b, setup.refund, Refund);
        AddsNothingOn(rt.syncer.tasks, a.syncer.tasks, b.syncer.tasks);
        AddsNothingOn(rt.syncer.tasks, b.syncer.tasks, b.WatchTxBtc(setup.refund, Refund).syncer.tasks);
      }
    }
  }

  lemma FundingAddsNothing(x: Swap, rt: Rt, local: Params, remote: Params, w: Wallet, required: nat, msg: BusMsg)
    ensures AddsNothing(rt.syncer.tasks,
      TryBobFeeEstimatedToBobFunded(x, rt, local, remote, w, required, msg).rt.syncer.tasks)
  {
    hide Framed, Unasked, Tail, HandleBobAbortSwap, BobSetUpCoreArbitrating, AddsNothing;
    SameAddsNothing(rt.syncer.tasks);
    AbortAddsNothing(x, rt, w);
    AbortAddsNothing(x, rt.Awaiting(false), w);
    if msg.Sync? && msg.event.AddressTransaction? && msg.event.tx.Some? {
      SetUpAddsNothing(x, rt.Awaiting(false).Emit(FundingCompleted(Bitcoin)), local, remote, w, msg.event.tx.value);
    }
  }

  lemma FundedAddsNothing(x: Swap, rt: Rt, local: Params, remote: Params, w: Wallet, msg: BusMsg)
    ensures var step := TryBobFundedToBobRefundProcedureSignatures(x, rt, local, remote, w, msg);
      (step.Goto? && step.next.BobRefundProcedureSignatures?) || AddsNothing(rt.syncer.tasks, step.rt.syncer.tasks)
  {
    hide Framed, Unasked, Tail, HandleBobAbortSwap, AddsNothing, BobLock;
    SameAddsNothing(rt.syncer.tasks);
    AbortAddsNothing(x, rt, w);
    if msg.P2p? && msg.peer.RefundProcedureSignatures? {
      var res := HandleRefundProcedureSignatures(x.crypto, w, msg.peer.sigs);
      if res.Done? { BobLockGoes(x, rt, local, remote, res.wallet, res.wallet.coreArbSetup.value, res.value); }
    }
  }

  /** Before the lock nothing of the story is added. */
  lemma EarlyAddsNothing(x: Swap, rt: Rt, msg: BusMsg)
    requires rt.ssm.StartTaker? || rt.ssm.StartMaker? || Early(rt.ssm)
    ensures var step := Next(x, rt, msg);
      (step.Goto? && step.next.BobRefundProcedureSignatures?) || AddsNothing(rt.syncer.tasks, step.rt.syncer.tasks)
  {
    hide AddsNothing, AttemptTransitionToInitTaker, AttemptTransitionToInitMaker,
      TryBobInitTakerToBobTakerMakerCommit, AttemptTransitionToBobReveal, TryBobRevealToBobFeeEstimated,
      TryBobFeeEstimatedToBobFunded, TryBobFundedToBobRefundProcedureSignatures, Framed, Unasked, Tail;
    match rt.ssm
    case StartTaker(role) => InitTakerAddsNothing(x, rt, role, msg);
    case StartMaker(role) => InitMakerAddsNothing(x, rt, role, msg);
    case BobInitTaker(l, w) => CommitAddsNothing(x, rt, l, w, msg);
    case BobInitMaker(l, c, w) => RevealAddsNothing(x, rt, l, c, w, msg);
    case BobTakerMakerCommit(l, c, w) => RevealAddsNothing(x, rt, l, c, w, msg);
    case BobReveal(l, r, w) => FeeAddsNothing(x, rt, l, r, w, msg);
    case BobFeeEstimated(l, r, w, required) => FundingAddsNothing(x, rt, l, r, w, required, msg);
    case BobFunded(l, r, w) => FundedAddsNothing(x, rt, l, r, w, msg);
  }

  /** A step from an early state to an early one, or out of the story. */
  lemma EarlyReleases(x: Swap, role: SwapRole, rt: Rt, msg: BusMsg)
    requires ReleasePart(x, role, rt) && (rt.ssm.StartTaker? || rt.ssm.StartMaker? || Early(rt.ssm))
    requires var step := Next(x, rt, msg); !(step.Goto? && step.next.BobRefundProcedureSignatures?)
    ensures StepReleases(x, role, rt, Next(x, rt, msg))
  {
    hide Next, ReleasedInOrder, AsksAddress, Framed, Undisturbed;
    var step := Next(x, rt, msg);
    NextProceeds(x, rt, msg);
    EarlyAddsNothing(x, rt, msg);
    TailReleases(x, rt.log, step.rt.log, KindsOf(rt));
    if Early(rt.ssm) {
      TailRuns(rt.log, step.rt.log, KindsOf(rt));
      AsksLast(rt.log, step.rt.log);
    }
  }

  // ----- the lock -----

  lemma AddressAsked(rt: Rt, keys: (nat, nat))
    requires AddressesAsked(rt.log, rt.syncer.tasks) && NoBuy(rt.syncer.tasks) && NoFetch(rt.syncer.tasks)
    ensures var r := rt.WatchAddrXmr(keys, AccLock, None); var t := r.syncer.tasks;
      AddressesAsked(r.log, t) && NoBuy(t) && NoFetch(t) && SameRun(rt.log, r.log)
  {
    hide AsksAddress;
    var r := rt.WatchAddrXmr(keys, AccLock, None);
    AsksLast(rt.log, r.log);
    assert AsksAddress(r.log, r.syncer.tasks.counter) by {
      AskedAddress(rt.log, r.log, r.syncer.tasks.counter, r.syncer.xmrAddrAddendum.value);
    }
  }

  lemma AskedAddress(a: seq<Entry>, b: seq<Entry>, id: TaskId, addendum: XmrAddendum)
    requires b == a + [Out(ToSyncer(Monero, WatchAddressXmr(id, addendum)))]
    ensures AsksAddress(b, id)
  {
    assert b[|a|] == Out(ToSyncer(Monero, WatchAddressXmr(id, addendum)));
    AppendRun(a, b[|a|]);
  }

  lemma BuyAsked(rt: Rt, buy: Txid)
    requires AddressesAsked(rt.log, rt.syncer.tasks) && NoBuy(rt.syncer.tasks) && NoFetch(rt.syncer.tasks)
    ensures var r := rt.WatchTxBtc(buy, Buy); var t := r.syncer.tasks;
      AddressesAsked(r.log, t) && BuyWatched(r.log, t, buy) && NoFetch(t) && SameRun(rt.log, r.log)
  {
    hide AsksAddress, AsksTx;
    var r := rt.WatchTxBtc(buy, Buy);
    AsksLast(rt.log, r.log);
    assert AsksTx(r.log, r.syncer.tasks.counter, buy) by { AskedTx(rt.log, r.log, r.syncer.tasks.counter, buy); }
  }

  lemma AskedTx(a: seq<Entry>, b: seq<Entry>, id: TaskId, hash: Txid)
    requires b == a + [Out(ToSyncer(Bitcoin, WatchTransaction(id, hash)))]
    ensures AsksTx(b, id, hash)
  {
    assert b[|a|] == Out(ToSyncer(Bitcoin, WatchTransaction(id, hash)));
    AppendRun(a, b[|a|]);
  }

  lemma BobLockReleases(x: Swap, rt: Rt, local: Params, remote: Params, w: Wallet, setup: CoreArbitratingSetup,
      buySig: BuySignature)
    requires ReleasePart(x, Bob, rt) && rt.ssm.BobFunded?
    ensures StepReleases(x, Bob, rt, BobLock(x, rt, local, remote, w, setup, buySig))
  {
    hide ReleasedInOrder, StoredBuys, AddressesAsked, BuyWatched, NoFetch, NoBuy, Framed, Unasked, Rt.CheckpointOf,
      Rt.WatchTxBtc, Rt.WatchAddrXmr, AddsNothing;
    var step := BobLock(x, rt, local, remote, w, setup, buySig);
    var keys := x.crypto.aggregate(remote, local);
    var q := if local.role == Bob && remote.role == Alice then rt.WatchAddrXmr(keys, AccLock, None) else rt;
    AddressAsked(rt, keys);
    var p := q.(txs := q.txs[Cancel := Tx(setup.cancel)][Refund := Tx(setup.refund)]);
    BuyAsked(p, buySig.buy);
    var r := p.WatchTxBtc(buySig.buy, Buy);
    TailReleases(x, rt.log, step.rt.log, {Store, Publish});
    LockAddsNothing(r, setup.lock, step.next, step.rt);
    StoryGoesOn(x, Bob, step.next, r.syncer.tasks, r.log, step.rt.syncer.tasks, step.rt.log);
  }

  lemma LockAddsNothing(r: Rt, lock: Txid, next: SwapStateMachine, s: Rt)
    requires s == r.WithTasks(r.syncer.tasks.Broadcast(Tx(lock))).Checkpoint(None, next).Broadcast(Tx(lock), Some(Lock))
    ensures SameRun(r.log, s.log) && AddsNothing(r.syncer.tasks, s.syncer.tasks)
  {
    hide Rt.CheckpointOf;
  }

  lemma BobFundedReleases(x: Swap, rt: Rt, msg: BusMsg)
    requires ReleasePart(x, Bob, rt) && rt.ssm.BobFunded?
    ensures StepReleases(x, Bob, rt,
      TryBobFundedToBobRefundProcedureSignatures(x, rt, rt.ssm.local, rt.ssm.remote, rt.ssm.wallet, msg))
  {
    hide ReleasePart, StepReleases, BobLock, HandleBobAbortSwap;
    var s := rt.ssm;
    var step := TryBobFundedToBobRefundProcedureSignatures(x, rt, s.local, s.remote, s.wallet, msg);
    assert step == Next(x, rt, msg);
    if step.Goto? && step.next.BobRefundProcedureSignatures? {
      var res := HandleRefundProcedureSignatures(x.crypto, s.wallet, msg.peer.sigs);
      BobLockReleases(x, rt, s.local, s.remote, res.wallet, res.wallet.coreArbSetup.value, res.value);
    } else {
      EarlyReleases(x, Bob, rt, msg);
    }
  }

  // ----- the payment -----

  lemma AddressToldBefore(log: seq<Entry>, id: TaskId)
    requires |log| > 0 && log[|log| - 1].In? && AsksAddress(log, id)
    ensures AsksAddress(log[..|log| - 1], id)
  {
    var before := log[..|log| - 1];
    assert log == before + [log[|log| - 1]];
    ToldBefore(before, log[|log| - 1]);
    var w, a :| RunStart(log) <= w < |log| && log[w] == Out(ToSyncer(Monero, WatchAddressXmr(id, a)));
    assert before[w] == log[w];
  }

  lemma PaymentIsWatched(x: Swap, a: seq<Entry>, b: seq<Entry>, id: TaskId)
    requires |a| > 0 && PaysEnough(x, a[|a| - 1]) && AsksAddress(a, a[|a| - 1].msg.event.id)
    requires SameRun(a, b) && |b| > |a|
      && b[|a|] == Out(ToSyncer(Monero, WatchTransaction(id, a[|a| - 1].msg.event.hash)))
    ensures WatchesPayment(x, b, id)
  {
    hide AsksAddress;
    var j := |a| - 1;
    AddressToldBefore(a, a[j].msg.event.id);
    SameRunStart(a, b);
    assert b[..j] == a[..j] && b[j] == a[j];
  }

  lemma BobSeesPayment(x: Swap, rt: Rt, msg: BusMsg)
    requires ReleasePart(x, Bob, rt) && rt.ssm.BobRefundProcedureSignatures? && Fed(rt, msg)
      && NoAccLock(rt.syncer.tasks)
    requires msg.Sync? && msg.event.AddressTransaction? && msg.event.incoming
      && msg.event.amount >= x.deal.accordantAmount
    requires rt.AddrLabelOf(msg.event.id) == Some(AccLock)
    ensures StepReleases(x, Bob, rt, TryBobRefundProcedureSignaturesToBobAccordantLock(x, rt, rt.ssm, msg))
  {
    hide ReleasedInOrder, StoredBuys, AsksAddress, AsksTx, WatchesPayment, Framed, Unasked;
    var step := TryBobRefundProcedureSignaturesToBobAccordantLock(x, rt, rt.ssm, msg);
    TailReleases(x, rt.log, step.rt.log, {});
    TailRuns(rt.log, step.rt.log, {});
    AsksLast(rt.log, step.rt.log);
    PaymentIsWatched(x, rt.log, step.rt.log, rt.syncer.tasks.counter + 1);
  }

  lemma BobAccordantReleases(x: Swap, rt: Rt, msg: BusMsg)
    requires ReleasePart(x, Bob, rt) && rt.ssm.BobRefundProcedureSignatures? && Fed(rt, msg)
      && NoAccLock(rt.syncer.tasks)
    ensures StepReleases(x, Bob, rt, TryBobRefundProcedureSignaturesToBobAccordantLock(x, rt, rt.ssm, msg))
  {
    hide ReleasedInOrder, StoredBuys, StoryOk, Fed, NoAccLock, Undisturbed, AddsNothing,
      HandleBobSwapInterruptAfterLock, Framed, Unasked;
    var step := TryBobRefundProcedureSignaturesToBobAccordantLock(x, rt, rt.ssm, msg);
    if step.Goto? && step.next.BobAccordantLock? {
      BobSeesPayment(x, rt, msg);
    } else {
      BobInterruptReleases(x, rt, step);
    }
  }

  /** A seen Cancel leaves the story; anything else goes on with it. */
  lemma BobInterruptReleases(x: Swap, rt: Rt, step: Step)
    requires ReleasePart(x, Bob, rt) && Tail(rt.log, step.rt.log, {Publish})
    requires (step.Goto? && step.next.BobCanceled?) || (step.Stay? && Undisturbed(rt, step.rt))
      || (step.Fail? && AddsNothing(rt.syncer.tasks, step.rt.syncer.tasks))
    requires !rt.ssm.BobBuySweeping?
    ensures StepReleases(x, Bob, rt, step)
  {
    hide ReleasedInOrder, StoredBuys, AddsNothing;
    if step.Goto? {
      TailReleases(x, rt.log, step.rt.log, {Publish});
    } else {
      if step.Stay? { UndisturbedAddsNothing(rt, step.rt); }
      StoryStays(x, Bob, rt, step, {Publish});
    }
  }

  // ----- the signature -----

  lemma BobReleases(x: Swap, rt: Rt, id: TaskId, confs: nat, msg: BusMsg)
    requires ReleasePart(x, Bob, rt) && rt.ssm.BobAccordantLock? && Fed(rt, msg) && rt.ts == x.ts
    requires msg == Sync(TransactionConfirmations(id, Some(confs)))
    requires rt.ts.FinalTx(confs, Monero) && rt.LabelOf(id) == Some(AccLock)
    ensures StepReleases(x, Bob, rt, TryBobAccordantLockToBobAccordantLockFinal(x, rt, rt.ssm, msg))
  {
    hide ReleasedInOrder, StoredBuys, WatchesPayment, AsksTx, Fetches, Framed, Unasked;
    var before := rt.log[..|rt.log| - 1];
    assert rt.log == before + [In(msg)];
    PaymentToldBefore(x, before, In(msg), id);
    assert MayRelease(x, rt.log) by {
      assert rt.log[|rt.log| - 1] == In(Sync(TransactionConfirmations(id, Some(confs))));
    }
    var e := Out(ToPeer(BuyProcedureSignature(x.swapId, rt.ssm.buySig)));
    var log := rt.log + [e];
    AppendRelease(x, rt.log, e);
    AsksLast(rt.log, log);
    assert Signed(log, rt.ssm.buySig.buy) by { assert IsBuySignature(log[|rt.log|]); }
    assert BuyWatched(log, rt.syncer.tasks, rt.ssm.buySig.buy)
      && BuyFetched(x, log, rt.syncer.tasks, rt.ssm.buySig.buy);
  }

  lemma BobAccordantFinalReleases(x: Swap, rt: Rt, msg: BusMsg)
    requires ReleasePart(x, Bob, rt) && rt.ssm.BobAccordantLock? && Fed(rt, msg) && rt.ts == x.ts
    ensures StepReleases(x, Bob, rt, TryBobAccordantLockToBobAccordantLockFinal(x, rt, rt.ssm, msg))
  {
    hide ReleasedInOrder, StoredBuys, StoryOk, Fed, Undisturbed, AddsNothing, HandleBobSwapInterruptAfterLock, Framed,
      Unasked;
    var step := TryBobAccordantLockToBobAccordantLockFinal(x, rt, rt.ssm, msg);
    if step.Goto? && step.next.BobAccordantLockFinal? {
      BobReleases(x, rt, msg.event.id, msg.event.confirmations.value, msg);
    } else {
      BobInterruptReleases(x, rt, step);
    }
  }

  // ----- Buy -----

  lemma TxToldBefore(log: seq<Entry>, id: TaskId, hash: Txid)
    requires |log| > 0 && log[|log| - 1].In? && AsksTx(log, id, hash)
    ensures AsksTx(log[..|log| - 1], id, hash)
  {
    var before := log[..|log| - 1];
    assert log == before + [log[|log| - 1]];
    ToldBefore(before, log[|log| - 1]);
    var w :| RunStart(log) <= w < |log| && log[w] == Out(ToSyncer(Bitcoin, WatchTransaction(id, hash)));
    assert before[w] == log[w];
  }

  lemma SignedBefore(log: seq<Entry>, buy: Txid)
    requires |log| > 0 && log[|log| - 1].In? && Signed(log, buy)
    ensures Signed(log[..|log| - 1], buy)
  {
    var k :| 0 <= k < |log| && IsBuySignature(log[k]) && log[k].send.msg.buySig.buy == buy;
    assert log[..|log| - 1][k] == log[k];
  }

  lemma FetchesBefore(x: Swap, log: seq<Entry>, id: TaskId, buy: Txid)
    requires |log| > 0 && log[|log| - 1].In? && Fetches(x, log, id, buy)
    ensures Fetches(x, log[..|log| - 1], id, buy)
  {
    hide Confirmed;
    var before := log[..|log| - 1];
    assert log == before + [log[|log| - 1]];
    ToldBefore(before, log[|log| - 1]);
    var k :| RunStart(log) <= k < |log| && log[k] == Out(ToSyncer(Bitcoin, GetTx(id, buy)))
      && Confirmed(x, log[..k], buy);
    assert before[k] == log[k] && before[..k] == log[..k];
  }

  lemma BuyIsConfirmed(x: Swap, log: seq<Entry>, id: TaskId, n: nat, buy: Txid)
    requires |log| > 0 && log[|log| - 1] == In(Sync(TransactionConfirmations(id, Some(n)))) && n >= x.ts.btcFinalityThr
    requires AsksTx(log, id, buy) && Signed(log, buy)
    ensures Confirmed(x, log, buy)
  {
    hide AsksTx, Signed;
    TxToldBefore(log, id, buy);
    SignedBefore(log, buy);
    assert RunStart(log) <= |log| - 1 by {
      assert log == log[..|log| - 1] + [log[|log| - 1]];
      ToldBefore(log[..|log| - 1], log[|log| - 1]);
    }
  }

  lemma BuyIsFetched(x: Swap, a: seq<Entry>, b: seq<Entry>, id: TaskId, buy: Txid)
    requires Confirmed(x, a, buy) && b == a + [Out(ToSyncer(Bitcoin, GetTx(id, buy)))]
    ensures Fetches(x, b, id, buy) && SameRun(a, b)
  {
    hide Confirmed;
    var e := Out(ToSyncer(Bitcoin, GetTx(id, buy)));
    AppendRun(a, e);
    assert b[|a|] == e && b[..|a|] == a;
  }

  /** Asking for Buy keeps every watch of it and makes a retrieval of it. */
  lemma BuyIsAskedFor(x: Swap, rt: Rt, id: TaskId, n: nat, buy: Txid)
    requires Fed(rt, Sync(TransactionConfirmations(id, Some(n)))) && rt.ts == x.ts
    requires rt.ts.FinalTx(n, Bitcoin) && rt.LabelOf(id) == Some(Buy) && Buy in rt.syncer.tasks.txids
    requires Signed(rt.log, buy) && BuyWatched(rt.log, rt.syncer.tasks, buy)
      && BuyFetched(x, rt.log, rt.syncer.tasks, buy)
    ensures var r := FetchTx(rt.NoteConfs(id, Some(n), rt.ts.btcFinalityThr), Buy);
      Signed(r.log, buy) && BuyWatched(r.log, r.syncer.tasks, buy) && BuyFetched(x, r.log, r.syncer.tasks, buy)
  {
    hide Signed, AsksTx, Fetches, Confirmed;
    var r := FetchTx(rt.NoteConfs(id, Some(n), rt.ts.btcFinalityThr), Buy);
    BuyIsConfirmed(x, rt.log, id, n, buy);
    BuyIsFetched(x, rt.log, r.log, rt.syncer.tasks.counter + 1, buy);
    StoryLasts(x, rt.log, r.log);
    AsksLast(rt.log, r.log);
  }

  /** A final Buy is asked for, once. */
  lemma BobFetches(x: Swap, rt: Rt, id: TaskId, n: nat, msg: BusMsg)
    requires ReleasePart(x, Bob, rt) && rt.ssm.BobAccordantLockFinal? && Fed(rt, msg) && rt.ts == x.ts
    requires msg == Sync(TransactionConfirmations(id, Some(n)))
    requires rt.ts.FinalTx(n, Bitcoin) && rt.LabelOf(id) == Some(Buy) && Buy in rt.syncer.tasks.txids
    ensures StepReleases(x, Bob, rt, Goto(FetchTx(rt.NoteConfs(id, Some(n), rt.ts.btcFinalityThr), Buy), rt.ssm))
  {
    hide ReleasedInOrder, StoredBuys, Signed, BuyWatched, BuyFetched;
    var r := FetchTx(rt.NoteConfs(id, Some(n), rt.ts.btcFinalityThr), Buy);
    var buy :| Signed(rt.log, buy) && BuyWatched(rt.log, rt.syncer.tasks, buy)
      && BuyFetched(x, rt.log, rt.syncer.tasks, buy);
    BuyIsAskedFor(x, rt, id, n, buy);
    TailReleases(x, rt.log, r.log, {});
  }

  lemma BuyIsSeen(x: Swap, a: seq<Entry>, b: seq<Entry>, id: TaskId, tx: Tx, buy: Txid)
    requires |a| > 0 && a[|a| - 1] == In(Sync(TransactionRetrieved(id, Some(tx)))) && Fetches(x, a, id, buy)
      && SameRun(a, b)
    ensures SawBuy(x, b)
  {
    hide Fetches;
    FetchesBefore(x, a, id, buy);
    assert RunStart(a) <= |a| - 1 by {
      assert a == a[..|a| - 1] + [a[|a| - 1]];
      ToldBefore(a[..|a| - 1], a[|a| - 1]);
    }
    assert SawBuy(x, a);
    StoryLasts(x, a, b);
  }

  lemma BobSeesBuy(x: Swap, rt: Rt, id: TaskId, tx: Tx, msg: BusMsg)
    requires ReleasePart(x, Bob, rt) && rt.ssm.BobAccordantLockFinal? && Fed(rt, msg)
    requires msg == Sync(TransactionRetrieved(id, Some(tx)))
    ensures StepReleases(x, Bob, rt, TryBobAccordantLockFinalToBobBuyFinal(x, rt, rt.ssm, msg))
  {
    hide ReleasedInOrder, StoredBuys, Signed, AsksTx, Fetches, SawBuy, HandleBobSwapInterruptAfterLock, ProcessBuyTx,
      Framed, Unasked, Undisturbed;
    var step := TryBobAccordantLockFinalToBobBuyFinal(x, rt, rt.ssm, msg);
    TailRuns(rt.log, step.rt.log, {Publish});
    TailReleases(x, rt.log, step.rt.log, {Publish});
    if step.Goto? && step.next.BobBuyFinal? {
      var t := rt.syncer.tasks;
      var buy :| Signed(rt.log, buy) && BuyWatched(rt.log, t, buy) && BuyFetched(x, rt.log, t, buy);
      BuyIsSeen(x, rt.log, step.rt.log, id, tx, buy);
    } else if !step.Goto? {
      RetrievalAddsNothing(x, rt, id, tx, msg);
      StoryGoesOn(x, Bob, rt.ssm, rt.syncer.tasks, rt.log, step.rt.syncer.tasks, step.rt.log);
    }
  }

  lemma RetrievalAddsNothing(x: Swap, rt: Rt, id: TaskId, tx: Tx, msg: BusMsg)
    requires rt.ssm.BobAccordantLockFinal? && msg == Sync(TransactionRetrieved(id, Some(tx)))
    ensures var step := TryBobAccordantLockFinalToBobBuyFinal(x, rt, rt.ssm, msg);
      step.Goto? || AddsNothing(rt.syncer.tasks, step.rt.syncer.tasks)
  {
    hide ProcessBuyTx, Framed, Unasked, Tail;
  }

  lemma BobBuyFinalReleases(x: Swap, rt: Rt, msg: BusMsg)
    requires ReleasePart(x, Bob, rt) && rt.ssm.BobAccordantLockFinal? && Fed(rt, msg) && rt.ts == x.ts
    ensures StepReleases(x, Bob, rt, TryBobAccordantLockFinalToBobBuyFinal(x, rt, rt.ssm, msg))
  {
    hide ReleasePart, StepReleases, HandleBobSwapInterruptAfterLock, ProcessBuyTx, FetchTx, Fed, Undisturbed,
      AddsNothing, Framed, Unasked;
    var step := TryBobAccordantLockFinalToBobBuyFinal(x, rt, rt.ssm, msg);
    if msg.Sync? && msg.event.TransactionRetrieved? && msg.event.found.Some? {
      BobSeesBuy(x, rt, msg.event.id, msg.event.found.value, msg);
    } else if step.Goto? && step.next.BobAccordantLockFinal? {
      BobFetches(x, rt, msg.event.id, msg.event.confirmations.value, msg);
    } else {
      BobInterruptReleases(x, rt, step);
    }
  }

  // ----- the sweep -----

  lemma BobSweepReleases(x: Swap, rt: Rt, msg: BusMsg)
    requires ReleasePart(x, Bob, rt) && rt.ssm.BobBuyFinal?
    requires rt.ssm.sweep.SweepAddress? && rt.syncer.tasks.sweepingAddr == Some(rt.ssm.sweep.id)
    ensures StepReleases(x, Bob, rt, TrySweep(rt, rt.ssm.sweep, BobBuySweeping, msg))
  {
    hide ReleasedInOrder, StoredBuys, SawBuy;
    var step := TrySweep(rt, rt.ssm.sweep, BobBuySweeping, msg);
    TailReleases(x, rt.log, step.rt.log, {});
    TailRuns(rt.log, step.rt.log, {});
    if step.Goto? {
      SameRunStart(rt.log, step.rt.log);
      assert step.rt.log[..|rt.log|] == rt.log;
      assert IsSweep(step.rt.log[|rt.log|], rt.ssm.sweep.id);
    }
  }

  lemma SweepBefore(x: Swap, log: seq<Entry>, id: TaskId)
    requires |log| > 0 && log[|log| - 1].In? && SentSweep(x, log, id)
    ensures SentSweep(x, log[..|log| - 1], id) && RunStart(log) <= |log| - 1
  {
    hide SawBuy;
    var before := log[..|log| - 1];
    assert log == before + [log[|log| - 1]];
    ToldBefore(before, log[|log| - 1]);
    var k :| RunStart(log) <= k < |log| && IsSweep(log[k], id) && SawBuy(x, log[..k]);
    assert before[k] == log[k] && before[..k] == log[..k];
  }

  lemma BobSweptReleases(x: Swap, rt: Rt, msg: BusMsg)
    requires ReleasePart(x, Bob, rt) && rt.ssm.BobBuySweeping? && Fed(rt, msg)
    ensures StepReleases(x, Bob, rt, TrySweepingToSwapEnd(rt, Bitcoin, SuccessSwap, msg))
  {
    hide ReleasedInOrder, StoredBuys, SentSweep, Framed, Unasked;
    var step := TrySweepingToSwapEnd(rt, Bitcoin, SuccessSwap, msg);
    TailReleases(x, rt.log, step.rt.log, {});
    TailRuns(rt.log, step.rt.log, {});
    if step.Goto? {
      var id := rt.syncer.tasks.sweepingAddr.value;
      SweepBefore(x, rt.log, id);
      assert Sweeps(rt.log[|rt.log| - 1], id);
      assert Swept(x, rt.log);
      StoryLasts(x, rt.log, step.rt.log);
    }
  }

  // ----- every step -----

  /** The other states are outside Bob's story. */
  lemma PlainReleases(x: Swap, role: SwapRole, rt: Rt, msg: BusMsg)
    requires ReleasePart(x, role, rt) && Release !in KindsOf(rt) && Begin !in KindsOf(rt)
    requires !rt.ssm.StartTaker? && !rt.ssm.StartMaker? && !Early(rt.ssm)
    requires !rt.ssm.BobRefundProcedureSignatures? && !rt.ssm.BobAccordantLockFinal? && !rt.ssm.BobBuyFinal?
      && !rt.ssm.BobBuySweeping?
    requires rt.ssm.AliceBuyProcedureSignature? ==> role == Alice
    ensures StepReleases(x, role, rt, Next(x, rt, msg))
  {
    hide Next, ReleasedInOrder, StoredBuys, Framed, Undisturbed, Swept;
    NextProceeds(x, rt, msg);
    var step := Next(x, rt, msg);
    TailReleases(x, rt.log, step.rt.log, KindsOf(rt));
    TailRuns(rt.log, step.rt.log, KindsOf(rt));
    StoryLasts(x, rt.log, step.rt.log);
  }

  lemma NextReleases(env: Env, x: Swap, role: SwapRole, rt: Rt, msg: BusMsg)
    requires ReleasePart(x, role, rt) && Fed(rt, msg) && rt.ts == x.ts && StageOk(env, x, role, rt.ssm)
    requires PlaceOk(env, x, rt.ssm, rt.txs, rt.syncer.tasks)
    ensures StepReleases(x, role, rt, Next(x, rt, msg))
  {
    hide StepReleases, ReleasePart, Fed, TryBobRefundProcedureSignaturesToBobAccordantLock,
      TryBobFundedToBobRefundProcedureSignatures, TryBobFeeEstimatedToBobFunded, TryBobRevealToBobFeeEstimated,
      NextInSetup, TryBobAccordantLockToBobAccordantLockFinal, TryBobAccordantLockFinalToBobBuyFinal, TrySweep,
      TrySweepingToSwapEnd, Framed, Undisturbed;
    match rt.ssm
    case BobFunded(_, _, _) => BobFundedReleases(x, rt, msg);
    case BobRefundProcedureSignatures(_, _, _, _) => BobAccordantReleases(x, rt, msg);
    case BobAccordantLock(_, _, _, _) => BobAccordantFinalReleases(x, rt, msg);
    case BobAccordantLockFinal(_, _, _) => BobBuyFinalReleases(x, rt, msg);
    case BobBuyFinal(_) => BobSweepReleases(x, rt, msg);
    case BobBuySweeping => BobSweptReleases(x, rt, msg);
    case _ => OtherReleases(x, role, rt, msg);
  }

  lemma OtherReleases(x: Swap, role: SwapRole, rt: Rt, msg: BusMsg)
    requires ReleasePart(x, role, rt)
    requires !rt.ssm.BobFunded? && !rt.ssm.BobRefundProcedureSignatures? && !rt.ssm.BobAccordantLock?
      && !rt.ssm.BobAccordantLockFinal?
    requires !rt.ssm.BobBuyFinal? && !rt.ssm.BobBuySweeping?
    requires rt.ssm.AliceBuyProcedureSignature? ==> role == Alice
    ensures StepReleases(x, role, rt, Next(x, rt, msg))
  {
    hide StepReleases, ReleasePart, Next, Framed, Undisturbed;
    NextProceeds(x, rt, msg);
    if rt.ssm.StartTaker? || rt.ssm.StartMaker? || Early(rt.ssm) {
      EarlyReleases(x, role, rt, msg);
    } else {
      PlainReleases(x, role, rt, msg);
    }
  }

  // ----- what is stored -----

  ghost predicate StoresBuys(rt: Rt, step: Step) {
    forall k :: |rt.log| <= k < |step.rt.log| && Stores(step.rt.log[k]) ==> StoresBuy(step.rt.log[k].send.checkpoint)
  }

  lemma BuysLast(rt: Rt, step: Step)
    requires StoredBuys(rt.log) && rt.log <= step.rt.log && StoresBuys(rt, step)
    ensures StoredBuys(step.rt.log)
  {
    hide StoresBuy;
    var a, b := rt.log, step.rt.log;
    forall e | e in b && Stores(e) ensures StoresBuy(e.send.checkpoint) {
      var k :| 0 <= k < |b| && b[k] == e;
      if k < |a| { assert a[k] == e; }
    }
  }

  lemma CheckpointStoresBuy(r: Rt, pending: Option<PeerMsg>, next: SwapStateMachine)
    requires next.BobFunded? ==> NoBuy(r.syncer.tasks)
    requires next.BobRefundProcedureSignatures? ==>
      Buy in r.syncer.tasks.txids && r.syncer.tasks.txids[Buy] == next.buySig.buy
    ensures StoresBuy(r.CheckpointOf(pending, next))
  {
    ListedIsThere(r.syncer.tasks.txids, |LABELS|);
  }

  /** One checkpoint, between sends that store nothing. */
  lemma OneBuyStored(rt: Rt, step: Step, base: seq<Entry>, cp: CheckpointSwapd, rest: seq<Entry>)
    requires step.rt.log == base + [Out(ToDatabase(cp))] + rest && Tail(rt.log, base, {})
    requires (forall e :: e in rest ==> !Stores(e)) && StoresBuy(cp)
    ensures StoresBuys(rt, step)
  {
    hide StoresBuy;
  }

  lemma BobSetUpStoresBuy(x: Swap, rt: Rt, local: Params, remote: Params, w: Wallet, tx: Tx)
    requires NoBuy(rt.syncer.tasks)
    ensures StoresBuys(rt, BobSetUpCoreArbitrating(x, rt, local, remote, w, tx))
  {
    hide BobSetUpCoreArbitrating, StoresBuy, Rt.CheckpointOf, NoBuy, AddsNothing;
    var step := BobSetUpCoreArbitrating(x, rt, local, remote, w, tx);
    if step.Goto? {
      var r, m := BobSetUpSplit(x, rt, local, remote, w, tx);
      SetUpAddsNothing(x, rt, local, remote, w, tx);
      NoBuyLasts(rt.syncer.tasks, r.syncer.tasks);
      CheckpointStoresBuy(r, Some(m), step.next);
      OneBuyStored(rt, step, r.log, r.CheckpointOf(Some(m), step.next), [Out(ToPeer(m))]);
    }
  }

  lemma NoBuyLasts(t: SyncerTasks, r: SyncerTasks)
    requires NoBuy(t) && AddsNothing(t, r)
    ensures NoBuy(r)
  {}

  lemma BobFeeEstimatedStoresBuy(x: Swap, rt: Rt, msg: BusMsg)
    requires rt.ssm.BobFeeEstimated? && NoBuy(rt.syncer.tasks)
    ensures var s := rt.ssm;
      StoresBuys(rt, TryBobFeeEstimatedToBobFunded(x, rt, s.local, s.remote, s.wallet, s.requiredFunding, msg))
  {
    hide BobSetUpCoreArbitrating, HandleBobAbortSwap, StoresBuy;
    var s := rt.ssm;
    if msg.Sync? && msg.event.AddressTransaction? && msg.event.tx.Some? {
      BobSetUpStoresBuy(x, rt.Awaiting(false).Emit(FundingCompleted(Bitcoin)), s.local, s.remote, s.wallet,
        msg.event.tx.value);
    }
  }

  lemma BobLockStoresBuy(x: Swap, rt: Rt, local: Params, remote: Params, w: Wallet, setup: CoreArbitratingSetup,
      buySig: BuySignature)
    requires local.role == Bob && remote.role == Alice
    ensures StoresBuys(rt, BobLock(x, rt, local, remote, w, setup, buySig))
  {
    hide BobLock, StoresBuy, Rt.CheckpointOf, SyncerTasks.PendingBroadcastTxs;
    var step := BobLock(x, rt, local, remote, w, setup, buySig);
    var r, e := BobLockSplit(x, rt, local, remote, w, setup, buySig);
    CheckpointStoresBuy(r, None, step.next);
    OneBuyStored(rt, step, r.log, r.CheckpointOf(None, step.next), [e]);
  }

  lemma BobFundedStoresBuy(env: Env, x: Swap, rt: Rt, msg: BusMsg)
    requires rt.ssm.BobFunded? && StageOk(env, x, Bob, rt.ssm)
    ensures StoresBuys(rt,
      TryBobFundedToBobRefundProcedureSignatures(x, rt, rt.ssm.local, rt.ssm.remote, rt.ssm.wallet, msg))
  {
    hide BobLock, HandleBobAbortSwap, StoresBuy;
    var s := rt.ssm;
    if msg.P2p? && msg.peer.RefundProcedureSignatures? {
      var res := HandleRefundProcedureSignatures(x.crypto, s.wallet, msg.peer.sigs);
      if res.Done? { BobLockStoresBuy(x, rt, s.local, s.remote, res.wallet, res.wallet.coreArbSetup.value, res.value); }
    }
  }

  lemma NextStoresBuys(env: Env, x: Swap, role: SwapRole, rt: Rt, msg: BusMsg)
    requires ReleasePart(x, role, rt) && StageOk(env, x, role, rt.ssm)
    ensures StoredBuys(Next(x, rt, msg).rt.log)
  {
    hide ReleasedInOrder, StoresBuy, Next, TryBobFeeEstimatedToBobFunded, TryBobFundedToBobRefundProcedureSignatures,
      NoFetch, NoBuy, Framed, Undisturbed;
    var step := Next(x, rt, msg);
    NextProceeds(x, rt, msg);
    if rt.ssm.BobFeeEstimated? {
      BobFeeEstimatedStoresBuy(x, rt, msg);
      NextOfBobIs(x, rt, msg);
    } else if rt.ssm.BobFunded? {
      BobFundedStoresBuy(env, x, rt, msg);
      NextOfBobIs(x, rt, msg);
    } else {
      NextStores(x, rt, msg);
      OthersStoreNoBuy(rt, step);
    }
    BuysLast(rt, step);
  }

  lemma NextOfBobIs(x: Swap, rt: Rt, msg: BusMsg)
    ensures var s := rt.ssm; s.BobFeeEstimated? ==>
      Next(x, rt, msg) == TryBobFeeEstimatedToBobFunded(x, rt, s.local, s.remote, s.wallet, s.requiredFunding, msg)
    ensures var s := rt.ssm; s.BobFunded? ==>
      Next(x, rt, msg) == TryBobFundedToBobRefundProcedureSignatures(x, rt, s.local, s.remote, s.wallet, msg)
  {
    hide TryBobFeeEstimatedToBobFunded, TryBobFundedToBobRefundProcedureSignatures;
  }

  lemma OthersStoreNoBuy(rt: Rt, step: Step)
    requires StoresNext(rt, step) && !rt.ssm.BobFeeEstimated? && !rt.ssm.BobFunded?
      && (step.Goto? ==> Follows(rt.ssm, step.next))
    ensures StoresBuys(rt, step)
  {}
}
