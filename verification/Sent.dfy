/** What a party tells its counterparty: only transactions of this swap, and nothing twice
    but what it said before. */
module SentMessages {
  import opened Types
  import opened SwapWallet
  import opened SwapRuntime
  import opened SwapState
  import opened Invariants
  import opened Stages
  import opened Commitment

  ghost predicate SentFits(env: Env, log: seq<Entry>) {
    forall e :: e in log && e.Out? && e.send.ToPeer? ==> NamesFit(env, e.send.msg)
  }

  ghost predicate Sent(log: seq<Entry>, m: PeerMsg) {
    exists e :: e in log && e.Out? && e.send.ToPeer? && e.send.msg == m
  }

  /** A message that is kept in a checkpoint to be sent again: Bob's proposal, or the
      refund signatures that go with a committed checkpoint. */
  ghost predicate PendingFits(env: Env, cp: CheckpointSwapd) {
    cp.pendingMsg.Some? ==>
      && NamesFit(env, cp.pendingMsg.value) && !cp.pendingMsg.value.BuyProcedureSignature?
      && (cp.pendingMsg.value.RefundProcedureSignatures? ==> !cp.state.BobFunded?)
  }

  ghost predicate StoredPending(env: Env, log: seq<Entry>) {
    forall e :: e in log && Stores(e) ==> PendingFits(env, e.send.checkpoint)
  }

  ghost predicate SentPart(env: Env, rt: Rt) {
    && SentFits(env, rt.log)
    && StoredPending(env, rt.log)
    && (forall m :: m in rt.pendingPeerRequests ==> Sent(rt.log, m))
  }

  ghost predicate StepSends(env: Env, step: Step) {
    SentFits(env, step.rt.log) && StoredPending(env, step.rt.log)
  }

  lemma TailSends(env: Env, a: seq<Entry>, b: seq<Entry>, kinds: set<Kind>)
    requires Tail(a, b, kinds) && Store !in kinds && Propose !in kinds && Release !in kinds
    requires SentFits(env, a) && StoredPending(env, a)
    ensures SentFits(env, b) && StoredPending(env, b)
  {
    forall e | e in b && e !in a ensures e.Out? && !Stores(e) && (e.send.ToPeer? ==> NamesFit(env, e.send.msg)) {
      var k :| 0 <= k < |b| && b[k] == e;
      assert k >= |a|;
    }
  }

  lemma AppendSends(env: Env, log: seq<Entry>, e: Entry)
    requires SentFits(env, log) && StoredPending(env, log)
    requires e.Out? && e.send.ToPeer? ==> NamesFit(env, e.send.msg)
    requires Stores(e) ==> PendingFits(env, e.send.checkpoint)
    ensures SentFits(env, log + [e]) && StoredPending(env, log + [e])
  {}

  lemma BobSetUpSends(env: Env, x: Swap, rt: Rt, local: Params, remote: Params, w: Wallet, tx: Tx)
    requires SentFits(env, rt.log) && StoredPending(env, rt.log)
    requires Staged(env, x, Bob, BobSetUpCoreArbitrating(x, rt, local, remote, w, tx))
    ensures StepSends(env, BobSetUpCoreArbitrating(x, rt, local, remote, w, tx))
  {
    hide SentFits, StoredPending, BobSetUpCoreArbitrating, Tail;
    var step := BobSetUpCoreArbitrating(x, rt, local, remote, w, tx);
    if step.Goto? {
      var r, m := BobSetUpSplit(x, rt, local, remote, w, tx);
      TailSends(env, rt.log, r.log, {});
      var cp := Out(ToDatabase(r.CheckpointOf(Some(m), step.next)));
      AppendSends(env, r.log, cp);
      AppendSends(env, r.log + [cp], Out(ToPeer(m)));
    } else {
      TailSends(env, rt.log, step.rt.log, {});
    }
  }

  lemma BobFundedSends(env: Env, x: Swap, rt: Rt, msg: BusMsg)
    requires SentFits(env, rt.log) && StoredPending(env, rt.log) && CryptoFits(env, x.crypto)
    requires rt.ssm.BobFeeEstimated? && StageOk(env, x, Bob, rt.ssm)
    ensures StepSends(env,
      TryBobFeeEstimatedToBobFunded(x, rt, rt.ssm.local, rt.ssm.remote, rt.ssm.wallet, rt.ssm.requiredFunding, msg))
  {
    hide SentFits, StoredPending, BobSetUpCoreArbitrating, HandleBobAbortSwap, Tail, CryptoFits;
    var s := rt.ssm;
    var step := TryBobFeeEstimatedToBobFunded(x, rt, s.local, s.remote, s.wallet, s.requiredFunding, msg);
    if msg.Sync? && msg.event.AddressTransaction? && msg.event.tx.Some? {
      var r := rt.Awaiting(false).Emit(FundingCompleted(Bitcoin));
      AppendSends(env, rt.log, Out(FundingCompleted(Bitcoin)));
      BobSetUpStaged(env, x, r, s.local, s.remote, s.wallet, msg.event.tx.value);
      BobSetUpSends(env, x, r, s.local, s.remote, s.wallet, msg.event.tx.value);
      TailSends(env, rt.log, HandleBobAbortSwap(x, rt.Awaiting(false), s.wallet).rt.log, {});
    } else {
      TailSends(env, rt.log, HandleBobAbortSwap(x, rt, s.wallet).rt.log, {});
    }
  }

  lemma BobRefundSends(env: Env, x: Swap, rt: Rt, msg: BusMsg)
    requires SentFits(env, rt.log) && StoredPending(env, rt.log)
    requires rt.ssm.BobFunded? && StageOk(env, x, Bob, rt.ssm)
    ensures StepSends(env,
      TryBobFundedToBobRefundProcedureSignatures(x, rt, rt.ssm.local, rt.ssm.remote, rt.ssm.wallet, msg))
  {
    hide SentFits, StoredPending, BobLock, HandleBobAbortSwap;
    var s := rt.ssm;
    var step := TryBobFundedToBobRefundProcedureSignatures(x, rt, s.local, s.remote, s.wallet, msg);
    if msg.P2p? && msg.peer.RefundProcedureSignatures?
      && HandleRefundProcedureSignatures(x.crypto, s.wallet, msg.peer.sigs).Done? {
      var res := HandleRefundProcedureSignatures(x.crypto, s.wallet, msg.peer.sigs);
      var r, e := BobLockSplit(x, rt, s.local, s.remote, res.wallet, res.wallet.coreArbSetup.value, res.value);
      var cp := Out(ToDatabase(r.CheckpointOf(None, step.next)));
      TailSends(env, rt.log, r.log, {});
      AppendSends(env, r.log, cp);
      AppendSends(env, r.log + [cp], e);
    } else {
      TailSends(env, rt.log, step.rt.log, {});
    }
  }

  lemma BobReleaseSends(env: Env, x: Swap, rt: Rt, msg: BusMsg)
    requires SentFits(env, rt.log) && StoredPending(env, rt.log)
    requires rt.ssm.BobAccordantLock? && StageOk(env, x, Bob, rt.ssm)
    ensures StepSends(env, TryBobAccordantLockToBobAccordantLockFinal(x, rt, rt.ssm, msg))
  {
    hide SentFits, StoredPending, HandleBobSwapInterruptAfterLock;
    TailSends(env, rt.log, HandleBobSwapInterruptAfterLock(rt, msg).rt.log, {Publish});
    AppendSends(env, rt.log, Out(ToPeer(BuyProcedureSignature(x.swapId, rt.ssm.buySig))));
  }

  lemma AliceSetUpSends(env: Env, x: Swap, rt: Rt, msg: BusMsg)
    requires SentFits(env, rt.log) && StoredPending(env, rt.log) && rt.ssm.AliceReveal?
    ensures StepSends(env,
      TryAliceRevealToAliceCoreArbitratingSetup(x, rt, rt.ssm.local, rt.ssm.remote, rt.ssm.wallet, msg))
  {
    hide SentFits, StoredPending, TryAliceRevealToAliceCoreArbitratingSetup;
    var s := rt.ssm;
    var step := TryAliceRevealToAliceCoreArbitratingSetup(x, rt, s.local, s.remote, s.wallet, msg);
    if step.Goto? && step.next.AliceCoreArbitratingSetup? {
      var r, m := AliceSetUpSplit(x, rt, s.local, s.remote, s.wallet, msg);
      var cp := Out(ToDatabase(r.CheckpointOf(Some(m), step.next)));
      TailSends(env, rt.log, r.log, {});
      AppendSends(env, r.log, cp);
      AppendSends(env, r.log + [cp], Out(ToPeer(m)));
    } else {
      TailSends(env, rt.log, step.rt.log, {});
    }
  }

  lemma AliceBuySends(env: Env, x: Swap, rt: Rt, w: Wallet, msg: BusMsg)
    requires SentFits(env, rt.log) && StoredPending(env, rt.log)
    ensures StepSends(env, TryAliceAccordantLockToAliceBuyProcedureSignature(x, rt, w, msg))
  {
    hide SentFits, StoredPending, TryAliceAccordantLockToAliceBuyProcedureSignature;
    var step := TryAliceAccordantLockToAliceBuyProcedureSignature(x, rt, w, msg);
    if step.Goto? && step.next.AliceBuyProcedureSignature? {
      var r := AliceBuySplit(x, rt, w, msg);
      TailSends(env, rt.log, r.log, {Publish});
      AppendSends(env, r.log, Out(ToDatabase(r.CheckpointOf(None, step.next))));
    } else {
      TailSends(env, rt.log, step.rt.log, PublishKinds(rt));
    }
  }

  lemma PlainSends(env: Env, x: Swap, rt: Rt, msg: BusMsg)
    requires SentFits(env, rt.log) && StoredPending(env, rt.log)
    requires Store !in KindsOf(rt) && !rt.ssm.BobAccordantLock?
    ensures StepSends(env, Next(x, rt, msg))
  {
    hide Next, SentFits, StoredPending;
    NextProceeds(x, rt, msg);
    TailSends(env, rt.log, Next(x, rt, msg).rt.log, KindsOf(rt));
  }

  lemma NextSends(env: Env, x: Swap, rt: Rt, role: SwapRole, msg: BusMsg)
    requires SentPart(env, rt) && CryptoFits(env, x.crypto) && StageOk(env, x, role, rt.ssm)
    ensures StepSends(env, Next(x, rt, msg))
  {
    hide StepSends, SentFits, StoredPending, CryptoFits, TryBobFeeEstimatedToBobFunded,
      TryBobFundedToBobRefundProcedureSignatures, TryBobAccordantLockToBobAccordantLockFinal,
      TryAliceRevealToAliceCoreArbitratingSetup, TryAliceAccordantLockToAliceBuyProcedureSignature;
    match rt.ssm
    case BobFeeEstimated(_, _, _, _) => BobFundedSends(env, x, rt, msg);
    case BobFunded(_, _, _) => BobRefundSends(env, x, rt, msg);
    case BobAccordantLock(_, _, _, _) => BobReleaseSends(env, x, rt, msg);
    case AliceReveal(_, _, _) => AliceSetUpSends(env, x, rt, msg);
    case AliceAccordantLock(w) => AliceBuySends(env, x, rt, w, msg);
    case _ => PlainSends(env, x, rt, msg);
  }
}
