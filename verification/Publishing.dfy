/** What a run hands to the chain under which label: Cancel is kept until it is published,
    and Alice never publishes both Buy and Cancel. */
module Publishing {
  import opened Types
  import opened Temporal
  import opened SyncerClient
  import opened SwapWallet
  import opened SwapRuntime
  import opened SwapState
  import opened History
  import opened Invariants
  import opened Stages
  import opened Commitment

  /** The latest kept count of Lock lets Cancel be published. */
  ghost predicate LockExpired(ts: TemporalSafety, lockConfs: Option<KeptConfs>) {
    lockConfs.Some? && ts.ValidCancel(lockConfs.value.count)
  }

  ghost predicate KeptOrPublished(rt: Rt, l: TxLabel) {
    l in rt.txs || Published(rt.log, rt.runStart, l)
  }

  /** The states in which Cancel can still be needed. */
  predicate NeedsCancel(s: SwapStateMachine) {
    s.BobRefundProcedureSignatures? || s.BobAccordantLock? || s.BobAccordantLockFinal? || s.AliceCoreArbitratingSetup?
    || s.AliceArbitratingLockFinal? || s.AliceAccordantLock? || s.AliceCanceled?
  }

  predicate NeedsPunish(s: SwapStateMachine) {
    s.AliceCoreArbitratingSetup? || s.AliceArbitratingLockFinal? || s.AliceAccordantLock? || s.AliceCanceled?
  }

  /** The states in which Alice may have published Buy. */
  predicate Bought(s: SwapStateMachine) {
    s.AliceBuyProcedureSignature? || s.EndsIn(SuccessSwap)
  }

  ghost predicate PublishPart(env: Env, x: Swap, rt: Rt) {
    && rt.runStart <= |rt.log|
    && (Published(rt.log, rt.runStart, Buy) ==> Bought(rt.ssm))
    && (env.steady && Published(rt.log, rt.runStart, Cancel) ==>
          LockExpired(x.ts, rt.syncer.lockTxConfs) && !Published(rt.log, rt.runStart, Buy)
          && !rt.ssm.AliceBuyProcedureSignature?)
    && (NeedsCancel(rt.ssm) ==> KeptOrPublished(rt, Cancel))
    && (NeedsPunish(rt.ssm) ==> KeptOrPublished(rt, Punish))
    && (env.steady && (rt.ssm.AliceArbitratingLockFinal? || rt.ssm.AliceAccordantLock?) ==> rt.syncer.lockTxConfs.Some?)
  }

  ghost predicate StepPublishes(env: Env, x: Swap, rt: Rt, step: Step) {
    PublishPart(env, x, if step.Goto? then step.rt.(ssm := step.next) else step.rt)
  }

  /** A final count of Lock shown to the machine was noted as the latest. */
  ghost predicate Noted(env: Env, rt: Rt, msg: BusMsg) {
    env.steady && msg.Sync? && msg.event.TransactionConfirmations? && msg.event.confirmations.Some?
    && rt.LabelOf(msg.event.id) == Some(Lock) && rt.ts.FinalTx(msg.event.confirmations.value, Bitcoin) ==>
      rt.syncer.lockTxConfs.Some? && rt.syncer.lockTxConfs.value.count >= msg.event.confirmations.value
  }

  // ----- tails -----

  lemma {:induction false} TailPublished(a: seq<Entry>, b: seq<Entry>, kinds: set<Kind>, from: nat, l: TxLabel)
    requires Tail(a, b, kinds) && Publish !in kinds && from <= |a|
    ensures Published(b, from, l) == Published(a, from, l)
    decreases |b|
  {
    if |b| == |a| {
      assert a == b;
    } else {
      var c, e := b[..|b| - 1], b[|b| - 1];
      assert b == c + [e];
      TailPublished(a, c, kinds, from, l);
      AppendPublished(c, e, from, l);
    }
  }

  lemma PlainPublished(a: seq<Entry>, b: seq<Entry>, kinds: set<Kind>, from: nat)
    requires Tail(a, b, kinds) && Publish !in kinds && from <= |a|
    ensures forall l :: Published(b, from, l) == Published(a, from, l)
  {
    forall l ensures Published(b, from, l) == Published(a, from, l) { TailPublished(a, b, kinds, from, l); }
  }

  /** One broadcast after plain sends. */
  lemma OnePublished(a: seq<Entry>, base: seq<Entry>, e: Entry, from: nat)
    requires Tail(a, base, {}) && from <= |a| && IsBroadcast(e) && e.send.lbl.Some?
    ensures forall k :: Published(base + [e], from, k) <==> Published(a, from, k) || k == e.send.lbl.value
  {
    forall k ensures Published(base + [e], from, k) <==> Published(a, from, k) || k == e.send.lbl.value {
      TailPublished(a, base, {}, from, k);
      AppendPublished(base, e, from, k);
    }
  }

  // ----- handler by handler -----

  /** A step that publishes nothing and keeps Cancel and Punish. */
  lemma QuietPublishes(env: Env, x: Swap, rt: Rt, step: Step, kinds: set<Kind>)
    requires PublishPart(env, x, rt) && Framed(rt, step.rt)
    requires Tail(rt.log, step.rt.log, kinds) && Publish !in kinds
    requires var s := if step.Goto? then step.next else rt.ssm;
      && (NeedsCancel(s) && Cancel in rt.txs ==> Cancel in step.rt.txs)
      && (NeedsPunish(s) && Punish in rt.txs ==> Punish in step.rt.txs)
    requires step.Goto? ==>
      && (NeedsCancel(step.next) ==> NeedsCancel(rt.ssm)) && (NeedsPunish(step.next) ==> NeedsPunish(rt.ssm))
      && (Bought(rt.ssm) ==> Bought(step.next))
      && (step.next.AliceArbitratingLockFinal? && env.steady ==> rt.syncer.lockTxConfs.Some?)
      && (step.next.AliceAccordantLock? ==> rt.ssm.AliceArbitratingLockFinal?)
    requires step.Goto? ==> !step.next.AliceBuyProcedureSignature?
    ensures StepPublishes(env, x, rt, step)
  {
    PlainPublished(rt.log, step.rt.log, kinds, rt.runStart);
  }

  /** Publishing Cancel when its time has come. */
  lemma CancelPublishes(env: Env, x: Swap, rt: Rt)
    requires PublishPart(env, x, rt) && Cancel in rt.txs && !Bought(rt.ssm)
    requires env.steady ==> LockExpired(x.ts, rt.syncer.lockTxConfs)
    ensures PublishPart(env, x, rt.(txs := rt.txs - {Cancel}).Broadcast(rt.txs[Cancel], Some(Cancel)))
  {
    OnePublished(rt.log, rt.log, Out(ToBroadcast(Some(Cancel), rt.syncer.tasks.Broadcast(rt.txs[Cancel]).LastTask())),
      rt.runStart);
  }

  lemma BobInterruptPublishes(env: Env, x: Swap, rt: Rt, msg: BusMsg)
    requires PublishPart(env, x, rt) && Noted(env, rt, msg) && rt.ts == x.ts && !Bought(rt.ssm)
    ensures StepPublishes(env, x, rt, HandleBobSwapInterruptAfterLock(rt, msg))
  {
    hide Published;
    if Cancel in rt.txs && (env.steady ==> LockExpired(x.ts, rt.syncer.lockTxConfs)) { CancelPublishes(env, x, rt); }
    AppendQuietly(rt.log, Out(ClientFailure), rt.runStart);
  }

  lemma AppendQuietly(log: seq<Entry>, e: Entry, from: nat)
    requires from <= |log| && !IsBroadcast(e)
    ensures forall l :: Published(log + [e], from, l) == Published(log, from, l)
  {
    forall l ensures Published(log + [e], from, l) == Published(log, from, l) { AppendPublished(log, e, from, l); }
  }

  // ----- Bob -----

  lemma BobLockPublishes(env: Env, x: Swap, rt: Rt, local: Params, remote: Params, w: Wallet,
      setup: CoreArbitratingSetup, buySig: BuySignature)
    requires PublishPart(env, x, rt) && rt.ssm.BobFunded? && local.role == Bob && remote.role == Alice
    ensures StepPublishes(env, x, rt, BobLock(x, rt, local, remote, w, setup, buySig))
  {
    hide BobLock, Published, Unasked;
    var step := BobLock(x, rt, local, remote, w, setup, buySig);
    var r, e := BobLockSplit(x, rt, local, remote, w, setup, buySig);
    var cp := Out(ToDatabase(r.CheckpointOf(None, step.next)));
    PlainPublished(rt.log, r.log, {}, rt.runStart);
    AppendQuietly(r.log, cp, rt.runStart);
    OnePublished(r.log + [cp], r.log + [cp], e, rt.runStart);
  }

  lemma BobRefundPublishes(env: Env, x: Swap, rt: Rt, msg: BusMsg)
    requires PublishPart(env, x, rt) && rt.ssm.BobFunded? && StageOk(env, x, Bob, rt.ssm)
    ensures StepPublishes(env, x, rt,
      TryBobFundedToBobRefundProcedureSignatures(x, rt, rt.ssm.local, rt.ssm.remote, rt.ssm.wallet, msg))
  {
    hide HandleBobAbortSwap, BobLock, PublishPart, StepPublishes;
    var s := rt.ssm;
    var step := TryBobFundedToBobRefundProcedureSignatures(x, rt, s.local, s.remote, s.wallet, msg);
    if msg.P2p? && msg.peer.RefundProcedureSignatures?
      && HandleRefundProcedureSignatures(x.crypto, s.wallet, msg.peer.sigs).Done? {
      var res := HandleRefundProcedureSignatures(x.crypto, s.wallet, msg.peer.sigs);
      BobLockPublishes(env, x, rt, s.local, s.remote, res.wallet, res.wallet.coreArbSetup.value, res.value);
    } else {
      QuietPublishes(env, x, rt, step, {});
    }
  }

  lemma BobAccordantPublishes(env: Env, x: Swap, rt: Rt, msg: BusMsg)
    requires PublishPart(env, x, rt) && Noted(env, rt, msg) && rt.ts == x.ts && rt.ssm.BobRefundProcedureSignatures?
    ensures StepPublishes(env, x, rt, TryBobRefundProcedureSignaturesToBobAccordantLock(x, rt, rt.ssm, msg))
  {
    hide HandleBobSwapInterruptAfterLock, PublishPart;
    BobInterruptPublishes(env, x, rt, msg);
    var step := TryBobRefundProcedureSignaturesToBobAccordantLock(x, rt, rt.ssm, msg);
    if step.Stay? && step.rt == rt { QuietPublishes(env, x, rt, step, {}); }
    if step.Goto? && step.next.BobAccordantLock? { QuietPublishes(env, x, rt, step, {}); }
  }

  lemma BobReleasePublishes(env: Env, x: Swap, rt: Rt, msg: BusMsg)
    requires PublishPart(env, x, rt) && Noted(env, rt, msg) && rt.ts == x.ts && rt.ssm.BobAccordantLock?
    ensures StepPublishes(env, x, rt, TryBobAccordantLockToBobAccordantLockFinal(x, rt, rt.ssm, msg))
  {
    hide HandleBobSwapInterruptAfterLock, PublishPart;
    BobInterruptPublishes(env, x, rt, msg);
    var step := TryBobAccordantLockToBobAccordantLockFinal(x, rt, rt.ssm, msg);
    if step.Goto? && step.next.BobAccordantLockFinal? { QuietPublishes(env, x, rt, step, {Release}); }
  }

  /** The entry of a retrieval is dropped before it is looked at. */
  lemma BobForgetsPublishes(env: Env, x: Swap, rt: Rt, msg: BusMsg)
    requires PublishPart(env, x, rt) && rt.ts == x.ts && rt.ssm.BobAccordantLockFinal?
    requires msg.Sync? && msg.event.TransactionRetrieved?
    ensures var t := rt.syncer.tasks; var r := rt.WithTasks(t.(retrievingTxs := t.retrievingTxs - {msg.event.id}));
      StepPublishes(env, x, r, HandleBobSwapInterruptAfterLock(r, msg))
  {
    hide HandleBobSwapInterruptAfterLock, PublishPart;
    var t := rt.syncer.tasks;
    var r := rt.WithTasks(t.(retrievingTxs := t.retrievingTxs - {msg.event.id}));
    QuietPublishes(env, x, rt, Fail(r, Panic), {});
    BobInterruptPublishes(env, x, r, msg);
  }

  lemma BobBuyFinalPublishes(env: Env, x: Swap, rt: Rt, msg: BusMsg)
    requires PublishPart(env, x, rt) && Noted(env, rt, msg) && rt.ts == x.ts && rt.ssm.BobAccordantLockFinal?
    ensures StepPublishes(env, x, rt, TryBobAccordantLockFinalToBobBuyFinal(x, rt, rt.ssm, msg))
  {
    hide HandleBobSwapInterruptAfterLock, PublishPart, ProcessBuyTx, Framed, Unasked, Undisturbed, Noted;
    BobInterruptPublishes(env, x, rt, msg);
    var step := TryBobAccordantLockFinalToBobBuyFinal(x, rt, rt.ssm, msg);
    if msg.Sync? && msg.event.TransactionRetrieved? && msg.event.found.Some? {
      BobForgetsPublishes(env, x, rt, msg);
    }
    if step.Fail? || (step.Goto? && !step.next.BobCanceled?) { QuietPublishes(env, x, rt, step, {}); }
  }

  lemma BobCancelFinalPublishes(env: Env, x: Swap, rt: Rt, msg: BusMsg)
    requires PublishPart(env, x, rt) && rt.ssm.BobCanceled?
    ensures StepPublishes(env, x, rt, TryBobCanceledToBobCancelFinal(rt, msg))
  {
    hide Published, Syncer.HandleTxConfs;
    var step := TryBobCanceledToBobCancelFinal(rt, msg);
    if step.Goto? {
      OnePublished(rt.log, rt.log, step.rt.log[|rt.log|], rt.runStart);
    }
  }

  // ----- Alice -----

  lemma AliceSetUpPublishes(env: Env, x: Swap, rt: Rt, msg: BusMsg)
    requires PublishPart(env, x, rt) && rt.ssm.AliceReveal?
    ensures StepPublishes(env, x, rt,
      TryAliceRevealToAliceCoreArbitratingSetup(x, rt, rt.ssm.local, rt.ssm.remote, rt.ssm.wallet, msg))
  {
    hide Published, TryAliceRevealToAliceCoreArbitratingSetup;
    var s := rt.ssm;
    var step := TryAliceRevealToAliceCoreArbitratingSetup(x, rt, s.local, s.remote, s.wallet, msg);
    PlainPublished(rt.log, step.rt.log, {Store, Sign}, rt.runStart);
    if step.Goto? && step.next.AliceCoreArbitratingSetup? {
      var r, m := AliceSetUpSplit(x, rt, s.local, s.remote, s.wallet, msg);
    }
  }

  lemma AliceInterruptPublishes(env: Env, x: Swap, rt: Rt, w: Wallet, msg: BusMsg)
    requires PublishPart(env, x, rt) && Noted(env, rt, msg) && rt.ts == x.ts && NeedsPunish(rt.ssm)
      && !rt.ssm.AliceCanceled?
    ensures StepPublishes(env, x, rt, HandleAliceSwapInterruptAfterLock(rt, w, msg))
  {
    hide Published;
    if Cancel in rt.txs && (env.steady ==> LockExpired(x.ts, rt.syncer.lockTxConfs)) { CancelPublishes(env, x, rt); }
    AppendQuietly(rt.log, Out(ClientFailure), rt.runStart);
    AppendQuietly(rt.log, Out(FundingCanceled(Monero)), rt.runStart);
  }

  lemma AliceLockFinalPublishes(env: Env, x: Swap, rt: Rt, msg: BusMsg)
    requires PublishPart(env, x, rt) && Noted(env, rt, msg) && rt.ts == x.ts && rt.ssm.AliceCoreArbitratingSetup?
    ensures StepPublishes(env, x, rt,
      TryAliceCoreArbitratingSetupToAliceArbitratingLockFinal(x, rt, rt.ssm.local, rt.ssm.remote, rt.ssm.wallet, msg))
  {
    hide HandleAliceSwapInterruptAfterLock, PublishPart;
    var s := rt.ssm;
    AliceInterruptPublishes(env, x, rt, s.wallet, msg);
    var step := TryAliceCoreArbitratingSetupToAliceArbitratingLockFinal(x, rt, s.local, s.remote, s.wallet, msg);
    if step.Goto? && step.next.AliceArbitratingLockFinal? { QuietPublishes(env, x, rt, step, {}); }
  }

  lemma AliceFollowsPublishes(env: Env, x: Swap, rt: Rt, id: TaskId, hash: Txid, amount: nat)
    requires PublishPart(env, x, rt) && rt.ssm.AliceArbitratingLockFinal?
    ensures StepPublishes(env, x, rt, AliceSeesFunding(rt, rt.ssm, id, hash, amount))
  {
    hide PublishPart;
    QuietPublishes(env, x, rt, AliceSeesFunding(rt, rt.ssm, id, hash, amount), {Fund});
  }

  lemma AliceAccordantPublishes(env: Env, x: Swap, rt: Rt, msg: BusMsg)
    requires PublishPart(env, x, rt) && Noted(env, rt, msg) && rt.ts == x.ts && rt.ssm.AliceArbitratingLockFinal?
    ensures StepPublishes(env, x, rt, TryAliceArbitratingLockFinalToAliceAccordantLock(x, rt, rt.ssm, msg))
  {
    hide HandleAliceSwapInterruptAfterLock, AliceSeesFunding, Published;
    AliceInterruptPublishes(env, x, rt, rt.ssm.wallet, msg);
    var step := TryAliceArbitratingLockFinalToAliceAccordantLock(x, rt, rt.ssm, msg);
    if msg.Sync? && msg.event.AddressTransaction? {
      AliceFollowsPublishes(env, x, rt, msg.event.id, msg.event.hash, msg.event.amount);
    } else if step.Goto? && step.next == rt.ssm {
      QuietPublishes(env, x, rt, step, {Fund});
    }
  }

  lemma AliceBuySignedPublishes(env: Env, x: Swap, rt: Rt, msg: BusMsg)
    requires PublishPart(env, x, rt) && rt.ts == x.ts && rt.ssm.AliceAccordantLock?
    requires msg.P2p? && msg.peer.BuyProcedureSignature?
    ensures StepPublishes(env, x, rt, TryAliceAccordantLockToAliceBuyProcedureSignature(x, rt, rt.ssm.wallet, msg))
  {
    hide Published, HandleBuyProcedureSignature;
    var step := TryAliceAccordantLockToAliceBuyProcedureSignature(x, rt, rt.ssm.wallet, msg);
    var q := rt.WatchTxBtc(msg.peer.buySig.buy, Buy);
    PlainPublished(rt.log, q.log, {}, rt.runStart);
    var res := HandleBuyProcedureSignature(x.crypto, rt.ssm.wallet, msg.peer.buySig);
    if res.Done? {
      var q1 := q.(txs := q.txs[Cancel := res.value.0][Buy := res.value.1]);
      if step.next.AliceCanceled? {
        OnePublished(rt.log, q.log, Out(ToBroadcast(Some(Cancel), q1.syncer.tasks.Broadcast(res.value.0).LastTask())),
          rt.runStart);
      } else {
        var b := q1.Broadcast(res.value.1, Some(Buy));
        OnePublished(rt.log, q.log, Out(ToBroadcast(Some(Buy), q1.syncer.tasks.Broadcast(res.value.1).LastTask())),
          rt.runStart);
        AppendQuietly(b.log, Out(ToDatabase(b.CheckpointOf(None, AliceBuyProcedureSignature))), rt.runStart);
      }
    }
  }

  /** What steady counts are for: once the Buy signature has come both transactions are out
      exactly if Cancel was before and the kept count of Lock no longer allows it. */
  lemma BothExactlyWhenTheCountFell(x: Swap, rt: Rt, swap: SwapId, buySig: BuySignature)
    requires rt.ssm.AliceAccordantLock? && rt.runStart <= |rt.log| && !Published(rt.log, rt.runStart, Buy)
    requires HandleBuyProcedureSignature(x.crypto, rt.ssm.wallet, buySig).Done?
    ensures var log := TryAliceAccordantLockToAliceBuyProcedureSignature(x, rt, rt.ssm.wallet,
      P2p(BuyProcedureSignature(swap, buySig))).rt.log;
      Published(log, rt.runStart, Buy) && Published(log, rt.runStart, Cancel) <==>
      Published(rt.log, rt.runStart, Cancel) && !LockExpired(rt.ts, rt.syncer.lockTxConfs)
  {
    hide Published, HandleBuyProcedureSignature;
    var q := rt.WatchTxBtc(buySig.buy, Buy);
    PlainPublished(rt.log, q.log, {}, rt.runStart);
    var (cancel, buy) := HandleBuyProcedureSignature(x.crypto, rt.ssm.wallet, buySig).value;
    var q1 := q.(txs := q.txs[Cancel := cancel][Buy := buy]);
    if LockExpired(rt.ts, rt.syncer.lockTxConfs) {
      OnePublished(rt.log, q.log, Out(ToBroadcast(Some(Cancel), q1.syncer.tasks.Broadcast(cancel).LastTask())),
        rt.runStart);
    } else {
      var b := q1.Broadcast(buy, Some(Buy));
      OnePublished(rt.log, q.log, Out(ToBroadcast(Some(Buy), q1.syncer.tasks.Broadcast(buy).LastTask())), rt.runStart);
      AppendQuietly(b.log, Out(ToDatabase(b.CheckpointOf(None, AliceBuyProcedureSignature))), rt.runStart);
    }
  }

  lemma AliceBuyPublishes(env: Env, x: Swap, rt: Rt, msg: BusMsg)
    requires PublishPart(env, x, rt) && Noted(env, rt, msg) && rt.ts == x.ts && rt.ssm.AliceAccordantLock?
    ensures StepPublishes(env, x, rt, TryAliceAccordantLockToAliceBuyProcedureSignature(x, rt, rt.ssm.wallet, msg))
  {
    hide HandleAliceSwapInterruptAfterLock, PublishPart;
    if msg.P2p? && msg.peer.BuyProcedureSignature? {
      AliceBuySignedPublishes(env, x, rt, msg);
    } else {
      AliceInterruptPublishes(env, x, rt, rt.ssm.wallet, msg);
    }
  }

  lemma AlicePublishes(env: Env, x: Swap, rt: Rt, l: TxLabel)
    requires PublishPart(env, x, rt) && rt.ssm.AliceCanceled? && l in rt.txs && (l == Cancel || l == Punish)
    requires env.steady && l == Cancel ==> LockExpired(x.ts, rt.syncer.lockTxConfs)
    ensures StepPublishes(env, x, rt, Goto(WatchAndPublish(rt, l), rt.ssm))
  {
    hide Published;
    var step := Goto(WatchAndPublish(rt, l), rt.ssm);
    var base := step.rt.log[..|rt.log| + 1];
    var e := step.rt.log[|rt.log| + 1];
    assert step.rt.log == base + [e];
    OnePublished(rt.log, base, e, rt.runStart);
  }

  lemma AliceConfirmedPublishes(env: Env, x: Swap, rt: Rt, id: TaskId, confs: nat)
    requires PublishPart(env, x, rt) && Noted(env, rt, Sync(TransactionConfirmations(id, Some(confs))))
    requires rt.ts == x.ts && rt.ssm.AliceCanceled?
    ensures StepPublishes(env, x, rt, AliceSeesConfirmed(rt, rt.ssm, id, confs))
  {
    hide Published, WatchAndPublish, FetchTx, Framed, Unasked, Tail;
    if Punish in rt.txs { AlicePublishes(env, x, rt, Punish); }
    if Cancel in rt.txs && (env.steady ==> LockExpired(x.ts, rt.syncer.lockTxConfs)) {
      AlicePublishes(env, x, rt, Cancel);
    }
    if Refund in rt.syncer.tasks.txids { AliceFetchesPublishes(env, x, rt); }
    AppendQuietly(rt.log, Out(ToSyncer(Monero, AbortAll)), rt.runStart);
    AppendQuietly(rt.log + [Out(ToSyncer(Monero, AbortAll))], Out(ToSyncer(Bitcoin, AbortAll)), rt.runStart);
  }

  lemma AliceCanceledPublishes(env: Env, x: Swap, rt: Rt, msg: BusMsg)
    requires PublishPart(env, x, rt) && Noted(env, rt, msg) && rt.ts == x.ts && rt.ssm.AliceCanceled?
    requires !rt.syncer.awaitingFunding
    ensures StepPublishes(env, x, rt, TryAliceCanceledToAliceRefundOrAlicePunish(x, rt, rt.ssm, msg))
  {
    hide Published, AliceSeesConfirmed, AliceSeesRefund, Framed, Unasked, Tail, Noted;
    if msg.Sync? && msg.event.TransactionConfirmations? && msg.event.confirmations.Some? {
      AliceConfirmedPublishes(env, x, rt, msg.event.id, msg.event.confirmations.value);
    }
    if msg.Sync? && msg.event.TransactionRetrieved? && msg.event.found.Some? {
      AliceRefundPublishes(env, x, rt, msg.event.id, msg.event.found.value);
    }
  }

  lemma AliceFetchesPublishes(env: Env, x: Swap, rt: Rt)
    requires PublishPart(env, x, rt) && rt.ssm.AliceCanceled? && Refund in rt.syncer.tasks.txids
    ensures StepPublishes(env, x, rt, Goto(FetchTx(rt, Refund), rt.ssm))
  {
    hide PublishPart;
    QuietPublishes(env, x, rt, Goto(FetchTx(rt, Refund), rt.ssm), {});
  }

  lemma AliceRefundPublishes(env: Env, x: Swap, rt: Rt, id: TaskId, tx: Tx)
    requires PublishPart(env, x, rt) && rt.ssm.AliceCanceled? && !rt.syncer.awaitingFunding
    ensures var t := rt.syncer.tasks;
      StepPublishes(env, x, rt,
        AliceSeesRefund(x, rt.WithTasks(t.(retrievingTxs := t.retrievingTxs - {id})), rt.ssm.wallet, tx))
  {
    hide PublishPart;
    var t := rt.syncer.tasks;
    QuietPublishes(env, x, rt,
      AliceSeesRefund(x, rt.WithTasks(t.(retrievingTxs := t.retrievingTxs - {id})), rt.ssm.wallet, tx), {});
  }

  // ----- every step -----

  /** In the other states nothing is published at all. */
  lemma PlainPublishes(env: Env, x: Swap, rt: Rt, msg: BusMsg)
    requires PublishPart(env, x, rt) && Publish !in KindsOf(rt) && !rt.ssm.AliceReveal?
    ensures StepPublishes(env, x, rt, Next(x, rt, msg))
  {
    hide Next, PublishPart;
    NextProceeds(x, rt, msg);
    QuietPublishes(env, x, rt, Next(x, rt, msg), KindsOf(rt));
  }

  lemma NextPublishes(env: Env, x: Swap, rt: Rt, role: SwapRole, msg: BusMsg)
    requires PublishPart(env, x, rt) && Noted(env, rt, msg) && rt.ts == x.ts && StageOk(env, x, role, rt.ssm)
    requires rt.ssm.AliceCanceled? ==> !rt.syncer.awaitingFunding
    ensures StepPublishes(env, x, rt, Next(x, rt, msg))
  {
    hide StepPublishes, PublishPart, Noted, TryBobFundedToBobRefundProcedureSignatures,
      TryBobRefundProcedureSignaturesToBobAccordantLock, TryBobAccordantLockToBobAccordantLockFinal,
      TryBobAccordantLockFinalToBobBuyFinal, TryBobCanceledToBobCancelFinal,
      TryAliceRevealToAliceCoreArbitratingSetup, TryAliceArbitratingLockFinalToAliceAccordantLock,
      TryAliceAccordantLockToAliceBuyProcedureSignature, TryAliceCoreArbitratingSetupToAliceArbitratingLockFinal,
      TryAliceCanceledToAliceRefundOrAlicePunish;
    match rt.ssm
    case BobFunded(_, _, _) => BobRefundPublishes(env, x, rt, msg);
    case BobRefundProcedureSignatures(_, _, _, _) => BobAccordantPublishes(env, x, rt, msg);
    case BobAccordantLock(_, _, _, _) => BobReleasePublishes(env, x, rt, msg);
    case BobAccordantLockFinal(_, _, _) => BobBuyFinalPublishes(env, x, rt, msg);
    case BobCanceled => BobCancelFinalPublishes(env, x, rt, msg);
    case AliceReveal(_, _, _) => AliceSetUpPublishes(env, x, rt, msg);
    case AliceCoreArbitratingSetup(_, _, _) => AliceLockFinalPublishes(env, x, rt, msg);
    case AliceArbitratingLockFinal(_, _, _) => AliceAccordantPublishes(env, x, rt, msg);
    case AliceAccordantLock(_) => AliceBuyPublishes(env, x, rt, msg);
    case AliceCanceled(_) => AliceCanceledPublishes(env, x, rt, msg);
    case _ => PlainPublishes(env, x, rt, msg);
  }
}
