/** What one swapd guarantees in every state of every life, with any crashes and restarts,
    crashes during a restart included. */
module Guarantees {
  import opened Types
  import opened SyncerClient
  import opened SwapWallet
  import opened SwapRuntime
  import opened SwapState
  import opened Execution
  import opened History
  import opened Invariants
  import opened Stages
  import opened Tables
  import opened Commitment
  import opened FundingWindow
  import opened BuyAlone
  import opened Publishing
  import opened ReleaseOrder
  import opened SentMessages
  import opened HeardMessages
  import opened Runs
  import opened Restart
  import opened Handling
  import opened Quiescence

  ghost predicate Sound(env: Env, x: Swap, rt: Rt) {
    Inv(env, x, rt) && Quiet(rt) && KeptAccepted(x, rt)
  }

  /** A state that a swap launched in the given role can come to. */
  ghost predicate Reachable(env: Env, x: Swap, tradeRole: TradeRole, rt: Rt) {
    exists states :: |states| > 0 && Life(env, x, tradeRole, states) && states[|states| - 1] == rt
  }

  lemma FollowSound(env: Env, x: Swap, rt: Rt, r: Rt)
    requires Sound(env, x, rt) && CryptoFits(env, x.crypto) && Follow(env, x, rt, r)
    ensures Sound(env, x, r) && r.tradeRole == rt.tradeRole && rt.log <= r.log
  {
    hide Inv, Quiet, Handle, CryptoFits, Restore, Legit;
    if Handles(env, x, rt, r) {
      var source, msg :| Legit(env, rt, source, msg) && r == Handle(x, rt, source, msg).rt;
      HandleKeeps(env, x, rt, source, msg);
      HandleQuiet(env, x, rt, source, msg);
      LegitGrows(env, x, rt, source, msg);
    } else {
      var source, msg, cuts :| Legit(env, rt, source, msg) && CrashesAt(x, rt, source, msg, cuts, r);
      CrashKeeps(env, x, rt, source, msg, cuts, r);
      CrashSound(env, x, rt, source, msg, cuts, r);
    }
  }

  lemma LegitGrows(env: Env, x: Swap, rt: Rt, source: ServiceId, msg: BusMsg)
    requires Legit(env, rt, source, msg)
    ensures Later(rt, Handle(x, rt, source, msg).rt)
  {
    hide Handle;
    HandleGrows(x, rt, source, msg);
  }

  lemma CrashSound(env: Env, x: Swap, rt: Rt, source: ServiceId, msg: BusMsg, cuts: seq<nat>, r: Rt)
    requires Inv(env, x, rt) && CryptoFits(env, x.crypto) && Legit(env, rt, source, msg)
      && CrashesAt(x, rt, source, msg, cuts, r)
    ensures Quiet(r) && KeptAccepted(x, r) && r.tradeRole == rt.tradeRole && rt.log <= r.log
  {
    hide Inv, Handle, CryptoFits, Restore, LogSafe, Legit, Quiet;
    var before, cp := CrashComesBack(env, x, rt, source, msg, cuts, r);
    FreshQuiet(env, x, rt.tradeRole, before, cp);
    ReviveLater(env, x, rt.tradeRole, before, cp);
  }

  lemma {:induction false} LifeSound(env: Env, x: Swap, tradeRole: TradeRole, states: seq<Rt>, i: nat)
    requires Life(env, x, tradeRole, states) && CryptoFits(env, x.crypto) && i < |states|
    ensures Sound(env, x, states[i]) && states[i].tradeRole == tradeRole
  {
    hide Sound, CryptoFits, Follow;
    if i == 0 {
      LaunchSound(env, x, tradeRole);
    } else {
      LifeSound(env, x, tradeRole, states, i - 1);
      FollowSound(env, x, states[i - 1], states[i]);
    }
  }

  lemma LaunchSound(env: Env, x: Swap, tradeRole: TradeRole)
    ensures Sound(env, x, Launch(x, tradeRole, []))
  {
    hide Inv;
    LaunchKeeps(env, x, tradeRole);
  }

  /** Every reachable state satisfies the invariant, and nothing kept is left undone in it. */
  lemma ReachableSound(env: Env, x: Swap, tradeRole: TradeRole, rt: Rt)
    requires Reachable(env, x, tradeRole, rt) && CryptoFits(env, x.crypto)
    ensures Sound(env, x, rt) && rt.tradeRole == tradeRole
  {
    hide Sound, CryptoFits, Life;
    var states :| |states| > 0 && Life(env, x, tradeRole, states) && states[|states| - 1] == rt;
    LifeSound(env, x, tradeRole, states, |states| - 1);
  }

  /** The environment that allows everything allows the cryptography to do anything. */
  lemma AnythingFits(c: Crypto, steady: bool)
    ensures CryptoFits(Anything(steady), c)
  {}

  // ----- crash safety -----

  /** Whenever Lock has been handed to the syncer, at whatever point the process dies, the
      checkpoint in store can refund: it holds Cancel and Refund, watches all four
      transactions and broadcasts Lock again. */
  lemma LockIsCrashSafe(env: Env, x: Swap, tradeRole: TradeRole, rt: Rt, k: nat, e: Entry)
    requires Reachable(env, x, tradeRole, rt) && CryptoFits(env, x.crypto) && x.RoleOf(tradeRole) == Bob
    requires k <= |rt.log| && e in rt.log[..k] && IsBroadcast(e)
    ensures LastCheckpoint(rt.log[..k]).Some?
    ensures var cp := LastCheckpoint(rt.log[..k]).value; var txids := Collect(cp.txids);
      && cp.state.BobRefundProcedureSignatures?
      && {Cancel, Refund} <= Collect(cp.txs).Keys
      && {Lock, Cancel, Refund, Buy} <= txids.Keys
      && Tx(txids[Lock]) in cp.pendingBroadcasts
  {
    hide Inv, Quiet, LogSafe, CryptoFits, StageOk, Reachable;
    ReachableSound(env, x, tradeRole, rt);
    InvLogSafe(env, x, rt);
    PrefixSafe(env, x, tradeRole, rt.log, k);
    assert HasCommitted(rt.log[..k]);
    StoredNow(env, x, tradeRole, rt.log[..k]);
    LastFits(env, x, tradeRole, rt.log[..k], LastCheckpoint(rt.log[..k]).value);
    BobsCheckpoint(env, x, LastCheckpoint(rt.log[..k]).value);
  }

  lemma StoredNow(env: Env, x: Swap, tradeRole: TradeRole, log: seq<Entry>)
    requires LogSafe(env, x, tradeRole, log) && HasCommitted(log)
    ensures StoredCommitted(log)
  {
    SafeNow(log);
  }

  lemma BobsCheckpoint(env: Env, x: Swap, cp: CheckpointSwapd)
    requires Committed(cp) && StageOk(env, x, Bob, cp.state)
    ensures cp.state.BobRefundProcedureSignatures?
  {}

  /** Alice, too: once her refund signatures or any transaction are out, a checkpoint from
      which she can cancel and punish, or finish the purchase, is in store. */
  lemma SignaturesAreCrashSafe(env: Env, x: Swap, tradeRole: TradeRole, rt: Rt, k: nat, e: Entry)
    requires Reachable(env, x, tradeRole, rt) && CryptoFits(env, x.crypto) && x.RoleOf(tradeRole) == Alice
    requires k <= |rt.log| && e in rt.log[..k] && Commits(e)
    ensures StoredCommitted(rt.log[..k])
    ensures var cp := LastCheckpoint(rt.log[..k]).value;
      || (cp.state.AliceCoreArbitratingSetup? && {Cancel, Punish} <= Collect(cp.txs).Keys
          && cp.pendingMsg.Some? && cp.pendingMsg.value.RefundProcedureSignatures?)
      || (cp.state.AliceBuyProcedureSignature? && Buy in Collect(cp.txs)
         && Collect(cp.txs)[Buy] in cp.pendingBroadcasts)
  {
    hide Inv, Quiet, LogSafe, CryptoFits, StageOk, Reachable;
    ReachableSound(env, x, tradeRole, rt);
    InvLogSafe(env, x, rt);
    PrefixSafe(env, x, tradeRole, rt.log, k);
    assert HasCommitted(rt.log[..k]);
    StoredNow(env, x, tradeRole, rt.log[..k]);
    LastFits(env, x, tradeRole, rt.log[..k], LastCheckpoint(rt.log[..k]).value);
    AlicesCheckpoint(env, x, LastCheckpoint(rt.log[..k]).value);
  }

  lemma AlicesCheckpoint(env: Env, x: Swap, cp: CheckpointSwapd)
    requires Committed(cp) && StageOk(env, x, Alice, cp.state)
    ensures cp.state.AliceCoreArbitratingSetup? || cp.state.AliceBuyProcedureSignature?
  {}

  /** Bob's states from the one that hands out Lock on, short of the one that hands out Refund
      and of the end. */
  predicate HoldsRefund(s: SwapStateMachine) {
    s.BobRefundProcedureSignatures? || s.BobAccordantLock? || s.BobAccordantLockFinal? || s.BobBuyFinal?
    || s.BobBuySweeping? || s.BobCanceled?
  }

  /** Bob keeps Refund from the moment Lock is out until the step that broadcasts it, or the end. */
  lemma RefundIsKept(env: Env, x: Swap, tradeRole: TradeRole, rt: Rt)
    requires Reachable(env, x, tradeRole, rt) && CryptoFits(env, x.crypto) && HoldsRefund(rt.ssm)
    ensures Refund in rt.txs && rt.syncer.tasks.WatchesTx(Cancel) && rt.syncer.tasks.WatchesTx(Refund)
  {
    hide StagePart, CommitPart, FundingPart, PublishPart, Alone, ReleasePart, SentPart, HeardPart, Quiet, CryptoFits,
      Reachable, TablesOk, KeptOk;
    ReachableSound(env, x, tradeRole, rt);
  }

  lemma RefundGoesOut(rt: Rt, msg: BusMsg)
    ensures var step := TryBobCanceledToBobCancelFinal(rt, msg); var log := step.rt.log;
      step.Goto? ==>
        && Refund in rt.txs && |log| == |rt.log| + 1
        && IsBroadcast(log[|rt.log|]) && log[|rt.log|].send.lbl == Some(Refund)
        && log[|rt.log|].send.task.BroadcastTransaction? && log[|rt.log|].send.task.tx == rt.txs[Refund]
  {
    hide Framed, Unasked, Tail, Syncer.HandleTxConfs;
  }

  /** The ways out of those states: one of them again, the end, or the very step whose one send
      is the broadcast of the transaction kept. */
  lemma RefundLeavesByItsBroadcast(x: Swap, rt: Rt, msg: BusMsg)
    requires HoldsRefund(rt.ssm)
    ensures var step := Next(x, rt, msg); var log := step.rt.log;
      step.Goto? && !HoldsRefund(step.next) && !step.next.SwapEnd? ==>
        && step.next.BobCancelFinal? && Refund in rt.txs && |log| == |rt.log| + 1
        && IsBroadcast(log[|rt.log|]) && log[|rt.log|].send.lbl == Some(Refund)
        && log[|rt.log|].send.task.BroadcastTransaction? && log[|rt.log|].send.task.tx == rt.txs[Refund]
  {
    hide Framed, Unasked, Tail, TryBobRefundProcedureSignaturesToBobAccordantLock,
      TryBobAccordantLockToBobAccordantLockFinal, TryBobAccordantLockFinalToBobBuyFinal,
      TryBobCanceledToBobCancelFinal;
    NextProceeds(x, rt, msg);
    if rt.ssm.BobCanceled? { RefundGoesOut(rt, msg); }
  }

  // ----- promptness -----

  predicate CanCancel(s: SwapStateMachine) {
    s.BobRefundProcedureSignatures? || s.BobAccordantLock? || s.BobAccordantLockFinal?
    || s.AliceArbitratingLockFinal? || s.AliceAccordantLock? || s.AliceCanceled?
  }

  lemma KeptLabels(env: Env, x: Swap, rt: Rt)
    requires Inv(env, x, rt)
    ensures rt.ts == x.ts
    ensures var kept := rt.syncer.lockTxConfs;
      kept.Some? ==> rt.LabelOf(kept.value.id) == Some(Lock) && rt.ts.FinalTx(kept.value.count, Bitcoin)
    ensures var kept := rt.syncer.cancelTxConfs;
      kept.Some? ==> rt.LabelOf(kept.value.id) == Some(Cancel) && rt.ts.FinalTx(kept.value.count, Bitcoin)
  {
    hide StagePart, CommitPart, FundingPart, PublishPart, Alone, ReleasePart, SentPart, HeardPart, PlaceOk, TablesOk;
  }

  /** As soon as the kept count of Lock allows it, Cancel has been published. */
  lemma CancelIsPrompt(env: Env, x: Swap, tradeRole: TradeRole, rt: Rt)
    requires Reachable(env, x, tradeRole, rt) && CryptoFits(env, x.crypto) && CanCancel(rt.ssm)
    requires rt.syncer.lockTxConfs.Some? && rt.ts.ValidCancel(rt.syncer.lockTxConfs.value.count)
    ensures Cancel !in rt.txs && Published(rt.log, rt.runStart, Cancel)
  {
    hide StagePart, TablesPart, CommitPart, FundingPart, ReleasePart, SentPart, HeardPart, CryptoFits, Reachable,
      Published;
    ReachableSound(env, x, tradeRole, rt);
    KeptLabels(env, x, rt);
  }

  /** Bob is never left waiting with a final Cancel in hand. */
  lemma RefundIsPrompt(env: Env, x: Swap, tradeRole: TradeRole, rt: Rt)
    requires Reachable(env, x, tradeRole, rt) && CryptoFits(env, x.crypto) && rt.ssm.BobCanceled?
    ensures rt.syncer.cancelTxConfs.None?
  {
    hide StagePart, CommitPart, FundingPart, PublishPart, Alone, ReleasePart, SentPart, HeardPart, CryptoFits,
      Reachable, TablesOk, KeptOk;
    ReachableSound(env, x, tradeRole, rt);
    KeptLabels(env, x, rt);
  }

  /** As soon as the kept count of Cancel allows it, Punish has been published. */
  lemma PunishIsPrompt(env: Env, x: Swap, tradeRole: TradeRole, rt: Rt)
    requires Reachable(env, x, tradeRole, rt) && CryptoFits(env, x.crypto) && rt.ssm.AliceCanceled?
    requires rt.syncer.cancelTxConfs.Some? && rt.ts.ValidPunish(rt.syncer.cancelTxConfs.value.count)
    ensures Punish !in rt.txs && Published(rt.log, rt.runStart, Punish)
  {
    hide StagePart, TablesPart, CommitPart, FundingPart, ReleasePart, SentPart, HeardPart, CryptoFits, Reachable,
      Published;
    ReachableSound(env, x, tradeRole, rt);
    KeptLabels(env, x, rt);
  }

  // ----- the funding window -----

  /** While funding is awaited Alice is in the one state that can use it, her request is
      the last word on it, and the kept count of Lock leaves time. */
  lemma FundingWindowHolds(env: Env, x: Swap, tradeRole: TradeRole, rt: Rt)
    requires Reachable(env, x, tradeRole, rt) && CryptoFits(env, x.crypto) && x.RoleOf(tradeRole) == Alice
    requires rt.syncer.awaitingFunding && x.ts.ValidParams()
    ensures rt.ssm.AliceArbitratingLockFinal? && FundingOpen(rt.log)
    ensures rt.syncer.lockTxConfs.Some? ==> rt.syncer.lockTxConfs.value.count <= x.ts.cancelTimelock - x.ts.raceThr + 1
  {
    hide StagePart, TablesPart, CommitPart, PublishPart, Alone, ReleasePart, SentPart, HeardPart, CryptoFits,
      Reachable, FundingOpen, FundingPaired;
    ReachableSound(env, x, tradeRole, rt);
    KeptLabels(env, x, rt);
  }

  /** Every report that the Monero funding is over answers a request still open, over all
      runs; so the late clean-ups have nothing to clean up. */
  lemma FundingIsPaired(env: Env, x: Swap, tradeRole: TradeRole, rt: Rt, k: nat)
    requires Reachable(env, x, tradeRole, rt) && CryptoFits(env, x.crypto)
    ensures k < |rt.log| && ClosesFunding(rt.log[k]) ==> FundingOpen(rt.log[..k])
    ensures rt.ssm.AliceCanceled? || rt.ssm.AliceRefundSweeping? || rt.ssm.BobBuySweeping? ==>
      !rt.syncer.awaitingFunding
  {
    hide TablesPart, CommitPart, PublishPart, Alone, ReleasePart, SentPart, HeardPart, CryptoFits, Reachable,
      FundingOpen, StoredStages;
    ReachableSound(env, x, tradeRole, rt);
  }

  // ----- exclusivity -----

  /** With counts of Lock that do not fall, no run publishes both Buy and Cancel; and once the Buy
      signature has been used, Buy is all that a run has broadcast, whatever the label, the
      broadcasts of a restart included. */
  lemma BuyExcludesCancel(env: Env, x: Swap, tradeRole: TradeRole, rt: Rt)
    requires Reachable(env, x, tradeRole, rt) && CryptoFits(env, x.crypto) && env.steady
    ensures !(Published(rt.log, rt.runStart, Buy) && Published(rt.log, rt.runStart, Cancel))
    ensures rt.ssm.AliceBuyProcedureSignature? ==>
      !Published(rt.log, rt.runStart, Cancel) && Buy in rt.txs && OnlyOut(rt.log, rt.runStart, [rt.txs[Buy]])
    ensures rt.ssm.AliceAccordantLock? ==> rt.syncer.lockTxConfs.Some?
  {
    hide StagePart, TablesPart, CommitPart, FundingPart, ReleasePart, SentPart, HeardPart, CryptoFits, Reachable,
      Published, Quiet, OnlyOut;
    ReachableSound(env, x, tradeRole, rt);
  }

  /** Buy goes out only while no kept count of Lock has reached the timelock of Cancel; if
      counts do not fall, there is such a count. */
  lemma BuyBeforeExpiry(env: Env, x: Swap, tradeRole: TradeRole, rt: Rt, msg: BusMsg)
    requires Reachable(env, x, tradeRole, rt) && CryptoFits(env, x.crypto) && rt.ssm.AliceAccordantLock?
    requires var step := Next(x, rt, msg); step.Goto? && step.next.AliceBuyProcedureSignature?
    ensures rt.syncer.lockTxConfs.Some? ==> rt.syncer.lockTxConfs.value.count < x.ts.cancelTimelock
    ensures env.steady ==> rt.syncer.lockTxConfs.Some?
  {
    hide StagePart, TablesPart, CommitPart, FundingPart, PublishPart, Alone, ReleasePart, SentPart, HeardPart,
      CryptoFits, Reachable, Quiet, HandleAliceSwapInterruptAfterLock, HandleBuyProcedureSignature;
    ReachableSound(env, x, tradeRole, rt);
    if env.steady { BuyExcludesCancel(env, x, tradeRole, rt); }
    KeptLabels(env, x, rt);
  }

  /** Once the Buy signature has been used a run publishes nothing more, whether Buy went out in
      this run or was broadcast again by its restart; and Buy goes out in no other state. */
  lemma NothingAfterBuy(env: Env, x: Swap, tradeRole: TradeRole, rt: Rt, source: ServiceId, msg: BusMsg)
    requires Reachable(env, x, tradeRole, rt) && CryptoFits(env, x.crypto)
    requires Bought(rt.ssm) || Published(rt.log, rt.runStart, Buy)
    requires Legit(env, rt, source, msg)
    ensures Bought(rt.ssm)
    ensures var log := Handle(x, rt, source, msg).rt.log;
      rt.log <= log && forall k :: |rt.log| <= k < |log| ==> !IsBroadcast(log[k])
  {
    hide StagePart, TablesPart, CommitPart, FundingPart, ReleasePart, SentPart, HeardPart, CryptoFits, Reachable,
      Quiet, EventFits, Published, HandleMsg, HandleSync, HandleCtl;
    ReachableSound(env, x, tradeRole, rt);
    assert Bought(rt.ssm);
    match msg
    case P2p(m) => BoughtMsg(x, rt, source, m);
    case Sync(e) => BoughtSync(x, rt, source, e);
    case Ctl(m) => BoughtCtl(x, rt, source, m);
  }

  ghost predicate Silent(rt: Rt, r: Rt) {
    rt.log <= r.log && forall k :: |rt.log| <= k < |r.log| ==> !IsBroadcast(r.log[k])
  }

  lemma BoughtExecutes(x: Swap, rt: Rt, source: ServiceId, msg: BusMsg)
    requires Bought(rt.ssm)
    ensures Silent(rt, Execute(x, rt, source, msg).rt)
  {
    hide Next, Replay;
    NextProceeds(x, rt.(log := rt.log + [In(msg)]), msg);
  }

  lemma BoughtMsg(x: Swap, rt: Rt, source: ServiceId, m: PeerMsg)
    requires Bought(rt.ssm)
    ensures Silent(rt, HandleMsg(x, rt, source, m).rt)
  {
    hide Execute;
    BoughtExecutes(x, rt, source, P2p(m));
  }

  lemma BoughtSync(x: Swap, rt: Rt, source: ServiceId, e: SyncEvent)
    requires Bought(rt.ssm)
    ensures Silent(rt, HandleSync(x, rt, source, e).rt)
  {
    hide Execute;
    BoughtExecutes(x, Record(rt, source, e), source, Sync(e));
  }

  lemma BoughtCtl(x: Swap, rt: Rt, source: ServiceId, m: CtlMsg)
    requires Bought(rt.ssm) && !m.RestoreCheckpoint?
    ensures Silent(rt, HandleCtl(x, rt, source, m).rt)
  {
    hide Execute;
    if Executed(m) { BoughtExecutes(x, rt, source, Ctl(m)); }
    if m.PeerdReconnected? { SendAllSilent(rt.(peerService := m.peerd, connected := true), rt.pendingPeerRequests); }
  }

  lemma {:induction false} SendAllSilent(rt: Rt, msgs: seq<PeerMsg>)
    ensures Silent(rt, SendAll(rt, msgs))
  {
    if msgs != [] { SendAllSilent(rt, msgs[..|msgs| - 1]); }
  }

  // ----- release order -----

  /** Every Buy signature Bob ever sent answers a sufficient payment to the shared address,
      which that run had asked the monero syncer to watch, and whose transaction he then
      watched by its own hash until it was final. And he ends in success only by this story,
      told in order in one run: the signature was sent, the transaction it signs was reported
      final by the task that watches it, that transaction was asked for and retrieved, and the
      sweep task sent after that succeeded. */
  lemma ReleaseIsOrdered(env: Env, x: Swap, tradeRole: TradeRole, rt: Rt, k: nat)
    requires Reachable(env, x, tradeRole, rt) && CryptoFits(env, x.crypto)
    ensures k < |rt.log| && IsBuySignature(rt.log[k]) ==> MayRelease(x, rt.log[..k])
    ensures x.RoleOf(tradeRole) == Bob && rt.ssm.EndsIn(SuccessSwap) ==> Swept(x, rt.log) && Final(env, Buy)
  {
    hide StagePart, CommitPart, FundingPart, PublishPart, SentPart, HeardPart, CryptoFits, Reachable, Quiet,
      MayRelease, Swept, TablesOk, KeptOk;
    ReachableSound(env, x, tradeRole, rt);
  }

  // ----- aborting -----

  /** A swap ends in an abort only if nothing ever committed its party: Alice has signed no
      refund, Bob has broadcast nothing. */
  lemma AbortIsSafe(env: Env, x: Swap, tradeRole: TradeRole, rt: Rt, e: Entry)
    requires Reachable(env, x, tradeRole, rt) && CryptoFits(env, x.crypto)
    requires rt.ssm.EndsIn(FailureAbort) && e in rt.log
    ensures !Commits(e) && !IsBroadcast(e)
  {
    hide StagePart, TablesPart, FundingPart, PublishPart, Alone, ReleasePart, SentPart, HeardPart, CryptoFits,
      Reachable, Quiet, CrashSafe;
    ReachableSound(env, x, tradeRole, rt);
  }

  /** Once committed a party does not abort: the request is answered, nothing else changes. */
  lemma AbortIsTooLate(x: Swap, rt: Rt)
    requires !BeforeLock(rt.ssm)
    ensures var step := Next(x, rt, Ctl(AbortSwap)); step == Stay(rt) || step == Stay(rt.Emit(ClientFailure))
  {}

  /** The machine stays where it is and stores nothing. */
  ghost predicate Rests(rt: Rt, r: Rt) {
    r.ssm == rt.ssm && rt.log <= r.log && forall k :: |rt.log| <= k < |r.log| ==> !Stores(r.log[k])
  }

  lemma {:induction false} SendAllRests(rt: Rt, msgs: seq<PeerMsg>)
    ensures Rests(rt, SendAll(rt, msgs))
  {
    if msgs != [] { SendAllRests(rt, msgs[..|msgs| - 1]); }
  }

  lemma EndedExecutes(x: Swap, rt: Rt, source: ServiceId, msg: BusMsg)
    requires rt.ssm.SwapEnd?
    ensures Rests(rt, Execute(x, rt, source, msg).rt)
  {
    assert Next(x, rt.(log := rt.log + [In(msg)]), msg) == Stay(rt.(log := rt.log + [In(msg)]));
  }

  lemma RecordRests(rt: Rt, source: ServiceId, e: SyncEvent)
    ensures Rests(rt, Record(rt, source, e))
  {
  }

  /** An ended swap takes no notice of anything. */
  lemma EndRests(x: Swap, rt: Rt, source: ServiceId, msg: BusMsg)
    requires rt.ssm.SwapEnd? && !(msg.Ctl? && msg.ctl.RestoreCheckpoint?)
    ensures Rests(rt, Handle(x, rt, source, msg).rt)
  {
    hide Execute, Record;
    match msg
    case P2p(m) => EndedExecutes(x, rt, source, msg);
    case Sync(e) =>
      RecordRests(rt, source, e);
      EndedExecutes(x, Record(rt, source, e), source, msg);
    case Ctl(PeerdReconnected(peerd)) => SendAllRests(rt.(peerService := peerd, connected := true),
      rt.pendingPeerRequests);
    case Ctl(_) => EndedExecutes(x, rt, source, msg);
  }

  lemma {:induction false} NothingStored(a: seq<Entry>, b: seq<Entry>)
    requires a <= b && forall k :: |a| <= k < |b| ==> !Stores(b[k])
    ensures LastCheckpoint(b) == LastCheckpoint(a)
    decreases |b|
  {
    if |a| == |b| { assert a == b; } else { NothingStored(a, b[..|b| - 1]); }
  }

  /** Alice has no checkpoint before she commits herself. */
  lemma AliceStoresLate(env: Env, x: Swap, rt: Rt)
    requires Inv(env, x, rt) && x.RoleOf(rt.tradeRole) == Alice && BeforeLock(rt.ssm)
    ensures LastCheckpoint(rt.log).None?
  {
    hide TablesPart, FundingPart, PublishPart, Alone, ReleasePart, SentPart, HeardPart, HasCommitted;
    if LastCheckpoint(rt.log).Some? { LastIsStored(rt.log); }
  }

  /** So nothing undoes her abort, no crash either. */
  lemma AliceAbortLasts(env: Env, x: Swap, rt: Rt, r: Rt)
    requires Inv(env, x, rt) && x.RoleOf(rt.tradeRole) == Alice && rt.ssm.EndsIn(FailureAbort) && Follow(env, x, rt, r)
    ensures r.ssm == rt.ssm
  {
    hide Inv, Handle, Restore;
    AliceStoresLate(env, x, rt);
    if Handles(env, x, rt, r) {
      var source, msg :| Legit(env, rt, source, msg) && r == Handle(x, rt, source, msg).rt;
      EndRests(x, rt, source, msg);
    } else {
      var source, msg, cuts :| Legit(env, rt, source, msg) && CrashesAt(x, rt, source, msg, cuts, r);
      EndRests(x, rt, source, msg);
      NothingStored(rt.log, Handle(x, rt, source, msg).rt.log[..cuts[0]]);
      assert false;
    }
  }

  // ----- errors -----

  /** Whatever arrives in a reachable state, an error blames the cryptography or the peer: the
      wrong-stage errors, among them every wrong-role branch but that for commitments, and the
      panics are out of reach. */
  lemma ErrorsBlameOthers(env: Env, x: Swap, tradeRole: TradeRole, rt: Rt, source: ServiceId, msg: BusMsg)
    requires Reachable(env, x, tradeRole, rt) && CryptoFits(env, x.crypto) && Legit(env, rt, source, msg)
    ensures var res := Handle(x, rt, source, msg); res.Err? ==> res.error.CryptoFailure? || res.error.PeerFault?
  {
    hide Inv, CryptoFits, Reachable, Quiet, Handle, Legit;
    ReachableSound(env, x, tradeRole, rt);
    HandleKeeps(env, x, rt, source, msg);
  }

  /** The wallet, the role and the parameters are those of the state. */
  lemma StagesHold(env: Env, x: Swap, tradeRole: TradeRole, rt: Rt)
    requires Reachable(env, x, tradeRole, rt) && CryptoFits(env, x.crypto)
    ensures StageOk(env, x, x.RoleOf(tradeRole), rt.ssm)
  {
    hide StageOk, TablesPart, CommitPart, FundingPart, PublishPart, Alone, ReleasePart, SentPart, HeardPart,
      CryptoFits, Reachable, Quiet;
    ReachableSound(env, x, tradeRole, rt);
  }

  // ----- tables and replay -----

  /** The task tables are consistent: ids are below the counter, tables are disjoint, every
      entry has its task, every label is watched, and the sweep task is the state's own. */
  lemma TablesHold(env: Env, x: Swap, tradeRole: TradeRole, rt: Rt)
    requires Reachable(env, x, tradeRole, rt) && CryptoFits(env, x.crypto)
    ensures rt.syncer.tasks.Valid() && rt.syncer.CachesMatch()
    ensures rt.ssm.BobBuyFinal? || rt.ssm.AliceRefund? ==>
      rt.ssm.sweep.SweepAddress? && rt.syncer.tasks.sweepingAddr == Some(rt.ssm.sweep.id)
  {
    hide StagePart, CommitPart, FundingPart, PublishPart, Alone, ReleasePart, SentPart, HeardPart, CryptoFits,
      Reachable, Quiet, SyncerTasks.Valid;
    ReachableSound(env, x, tradeRole, rt);
  }

  /** Showing any kept confirmation to the machine again changes nothing at all. */
  lemma ReplayIsAtRest(env: Env, x: Swap, tradeRole: TradeRole, rt: Rt, k: KeptConfs)
    requires Reachable(env, x, tradeRole, rt) && CryptoFits(env, x.crypto) && IsKept(rt, k)
    ensures Next(x, rt, Sync(k.Event())) == Stay(rt)
  {
    hide Inv, CryptoFits, Reachable, Next, Idle;
    ReachableSound(env, x, tradeRole, rt);
    IdleStays(x, rt, k.id, k.count);
  }

  ghost predicate Noted(rt: Rt, r: Rt) {
    r == rt.(syncer := r.syncer) && r.syncer.awaitingFunding == rt.syncer.awaitingFunding
    && r.syncer.tasks == rt.syncer.tasks.(finalTxs := r.syncer.tasks.finalTxs)
  }

  lemma NotingNotes(rt: Rt, id: TaskId, n: nat, thr: nat)
    ensures Noted(rt, rt.NoteConfs(id, Some(n), thr))
    ensures Noted(rt, rt.(syncer := rt.syncer.Cache(id, n)))
  {
  }

  lemma RecordsAlike(rt: Rt, source: ServiceId, k: KeptConfs)
    ensures var r := Record(rt, source, k.Event());
      && Alike(rt, r.(log := r.log + [In(Sync(k.Event()))]))
      && r.log == rt.log && r.txs == rt.txs && r.syncer.tasks.txids == rt.syncer.tasks.txids
  {
    hide Record;
    RecordNotes(rt, source, k);
  }

  lemma RecordNotes(rt: Rt, source: ServiceId, k: KeptConfs)
    ensures Noted(rt, Record(rt, source, k.Event()))
  {
    hide Rt.NoteConfs, Syncer.Cache;
    NotingNotes(rt, k.id, k.count, rt.ts.xmrFinalityThr);
    NotingNotes(rt, k.id, k.count, rt.ts.btcFinalityThr);
    NotingNotes(rt.NoteConfs(k.id, Some(k.count), rt.ts.btcFinalityThr), k.id, k.count, rt.ts.btcFinalityThr);
  }

  /** Delivering a kept confirmation once more, from any service, is only noted: the state, the
      transactions, the labels and everything sent stay as they are. */
  lemma RedeliveryIsOnlyNoted(env: Env, x: Swap, tradeRole: TradeRole, rt: Rt, source: ServiceId, k: KeptConfs)
    requires Reachable(env, x, tradeRole, rt) && CryptoFits(env, x.crypto) && IsKept(rt, k)
    ensures var res := HandleSync(x, rt, source, k.Event());
      && res.Ok? && res.rt.ssm == rt.ssm && res.rt.txs == rt.txs && res.rt.syncer.tasks.txids == rt.syncer.tasks.txids
      && res.rt.log == rt.log + [In(Sync(k.Event()))]
  {
    hide Inv, CryptoFits, Reachable, Next, Idle, Record;
    ReachableSound(env, x, tradeRole, rt);
    RecordsAlike(rt, source, k);
    var r := Record(rt, source, k.Event());
    AlikeIdle(rt, r.(log := r.log + [In(Sync(k.Event()))]), k.id, k.count);
    IdleStays(x, r.(log := r.log + [In(Sync(k.Event()))]), k.id, k.count);
  }
}
