/** Handling one bus message: bookkeeping, the state machine, and the replay of what was
    kept for later. The replay is recursive; it ends because every transition it can
    cause lowers a measure of the runtime. */
module Execution {
  import opened Types
  import opened SwapRuntime
  import opened SwapState

  datatype Result = Ok(rt: Rt) | Err(rt: Rt, error: Error)

  /** Where a state stands on its way to the end. */
  function Rank(s: SwapStateMachine): nat {
    match s
    case StartTaker(_) => 12
    case StartMaker(_) => 12
    case BobInitTaker(_, _) => 11
    case AliceInitTaker(_, _) => 11
    case BobInitMaker(_, _, _) => 10
    case AliceInitMaker(_, _, _) => 10
    case BobTakerMakerCommit(_, _, _) => 10
    case AliceTakerMakerCommit(_, _, _) => 10
    case BobReveal(_, _, _) => 9
    case AliceReveal(_, _, _) => 9
    case BobFeeEstimated(_, _, _, _) => 8
    case BobFunded(_, _, _) => 7
    case BobRefundProcedureSignatures(_, _, _, _) => 6
    case BobAccordantLock(_, _, _, _) => 5
    case BobAccordantLockFinal(_, _, _) => 4
    case BobBuyFinal(_) => 2
    case BobBuySweeping => 1
    case BobCanceled => 2
    case BobCancelFinal => 1
    case BobAbortAwaitingBitcoinSweep => 1
    case AliceCoreArbitratingSetup(_, _, _) => 6
    case AliceArbitratingLockFinal(_, _, _) => 5
    case AliceAccordantLock(_) => 4
    case AliceBuyProcedureSignature => 1
    case AliceCanceled(_) => 3
    case AliceRefund(_) => 2
    case AliceRefundSweeping => 1
    case SwapEnd(_) => 0
  }

  function One(b: bool): nat {
    if b then 1 else 0
  }

  /** Rank first; then the Cancel and Punish transactions still to be published, the Buy
      and Refund transactions still to be fetched, and an open funding request. */
  function Measure(rt: Rt): nat {
    100 * Rank(rt.ssm)
    + 20 * (One(Cancel in rt.txs) + One(Punish in rt.txs))
    + 5 * (One(Buy in rt.syncer.tasks.txids) + One(Refund in rt.syncer.tasks.txids))
    + One(rt.syncer.awaitingFunding)
  }

  /** The messages that a replay can show to the machine. */
  predicate Replayable(msg: BusMsg) {
    msg.P2p? || (msg.Sync? && msg.event.TransactionConfirmations?)
  }

  /** Only three states can follow themselves. */
  lemma TransitionsGoForward(s: SwapStateMachine, next: SwapStateMachine)
    requires Follows(s, next)
    ensures Rank(next) < Rank(s)
      || (next == s && (s.BobAccordantLockFinal? || s.AliceArbitratingLockFinal? || s.AliceCanceled?))
  {}

  lemma BobLoopLowersMeasure(x: Swap, rt: Rt, msg: BusMsg)
    requires rt.ssm.BobAccordantLockFinal?
    ensures var step := TryBobAccordantLockFinalToBobBuyFinal(x, rt, rt.ssm, msg);
      step.Goto? && step.next == rt.ssm ==> Measure(step.rt.(ssm := step.next)) < Measure(rt)
  {}

  lemma FundingLoopLowersMeasure(x: Swap, rt: Rt, msg: BusMsg)
    requires rt.ssm.AliceArbitratingLockFinal? && Replayable(msg)
    ensures var step := TryAliceArbitratingLockFinalToAliceAccordantLock(x, rt, rt.ssm, msg);
      step.Goto? && step.next == rt.ssm ==> Measure(step.rt.(ssm := step.next)) < Measure(rt)
  {}

  lemma PublishingLowersMeasure(rt: Rt, l: TxLabel)
    requires l in rt.txs && (l == Cancel || l == Punish)
    ensures Measure(WatchAndPublish(rt, l)) < Measure(rt)
  {}

  lemma FetchingLowersMeasure(rt: Rt, l: TxLabel)
    requires l in rt.syncer.tasks.txids && (l == Buy || l == Refund)
    ensures Measure(FetchTx(rt, l)) < Measure(rt)
  {}

  lemma CancelLoopLowersMeasure(x: Swap, rt: Rt, msg: BusMsg)
    requires rt.ssm.AliceCanceled?
    ensures var step := TryAliceCanceledToAliceRefundOrAlicePunish(x, rt, rt.ssm, msg);
      step.Goto? && step.next == rt.ssm ==> Measure(step.rt) < Measure(rt)
  {
    hide WatchAndPublish, FetchTx, AliceSeesRefund;
    if Cancel in rt.txs { PublishingLowersMeasure(rt, Cancel); }
    if Punish in rt.txs { PublishingLowersMeasure(rt, Punish); }
    if Refund in rt.syncer.tasks.txids { FetchingLowersMeasure(rt, Refund); }
  }

  lemma MeasureBounds(rt: Rt)
    ensures 100 * Rank(rt.ssm) <= Measure(rt) <= 100 * Rank(rt.ssm) + 51
  {}

  lemma TransitionLowersMeasure(x: Swap, rt: Rt, msg: BusMsg)
    requires Replayable(msg)
    ensures var step := Next(x, rt, msg);
      && (step.Goto? ==> Measure(step.rt.(ssm := step.next)) < Measure(rt))
      && (step.Stay? ==> Measure(step.rt) <= Measure(rt))
  {
    hide NextInSetup, Tail;
    var step := Next(x, rt, msg);
    NextProceeds(x, rt, msg);
    if step.Goto? {
      TransitionsGoForward(rt.ssm, step.next);
      if step.next != rt.ssm {
        MeasureBounds(rt);
        MeasureBounds(step.rt.(ssm := step.next));
      } else if rt.ssm.BobAccordantLockFinal? {
        BobLoopLowersMeasure(x, rt, msg);
      } else if rt.ssm.AliceArbitratingLockFinal? {
        FundingLoopLowersMeasure(x, rt, msg);
      } else {
        CancelLoopLowersMeasure(x, rt, msg);
      }
    }
  }

  // ----- handling messages -----

  /** What swapd notes about a syncer event before the machine sees it. */
  function Record(rt: Rt, source: ServiceId, e: SyncEvent): (r: Rt)
    ensures Measure(r) == Measure(rt)
  {
    if source == ServiceId.Syncer(Monero) then
      match e
      case HeightChanged(height) => rt.(syncer := rt.syncer.HandleHeightChange(height, Monero))
      case TransactionConfirmations(id, confs) => rt.NoteConfs(id, confs, rt.ts.xmrFinalityThr)
      case _ => rt
    else if source == ServiceId.Syncer(Bitcoin) then
      match e
      case HeightChanged(height) => rt.(syncer := rt.syncer.HandleHeightChange(height, Bitcoin))
      case TransactionRetrieved(id, None) =>
        if id in rt.syncer.tasks.retrievingTxs
        then rt.Emit(ToSyncer(Bitcoin, rt.syncer.tasks.retrievingTxs[id].1)) else rt
      case TransactionConfirmations(id, confs) =>
        var r := rt.NoteConfs(id, confs, rt.ts.btcFinalityThr);
        if confs.Some? && rt.ts.FinalTx(confs.value, Bitcoin) then r.(syncer := r.syncer.Cache(id, confs.value)) else r
      case TransactionBroadcasted(id) => rt.WithTasks(rt.syncer.tasks.TransactionBroadcasted(id))
      case _ => rt
    else rt
  }

  function HandleSync(x: Swap, rt: Rt, source: ServiceId, e: SyncEvent): (res: Result)
    ensures res.Ok? && Replayable(Sync(e)) ==> Measure(res.rt) <= Measure(rt)
    decreases One(!Replayable(Sync(e))), Measure(rt), 1
  {
    Execute(x, Record(rt, source, e), source, Sync(e))
  }

  function HandleMsg(x: Swap, rt: Rt, source: ServiceId, m: PeerMsg): (res: Result)
    ensures res.Ok? ==> Measure(res.rt) <= Measure(rt)
    decreases 0, Measure(rt), 1
  {
    if source.Peerd? && rt.peerService != source then Err(rt, PeerFault)
    else if m.swapId != x.swapId || m.PeerAbort? || m.PingPong? then Err(rt, PeerFault)
    else Execute(x, rt, source, P2p(m))
  }

  /** One message through the machine, and the replay after a transition. Any handled peer
      message clears the kept one. */
  function Execute(x: Swap, rt: Rt, source: ServiceId, msg: BusMsg): (res: Result)
    ensures res.Ok? && Replayable(msg) ==> Measure(res.rt) <= Measure(rt)
    decreases One(!Replayable(msg)), Measure(rt), 0
  {
    var r := rt.(log := rt.log + [In(msg)]);
    assert Replayable(msg) ==> Measure(r) == Measure(rt);
    match Next(x, r, msg)
    case Fail(r1, e) => Err(r1, e)
    case Stay(r1) =>
      assert Replayable(msg) ==>
        Measure(r1) <= Measure(rt) by { if Replayable(msg) { TransitionLowersMeasure(x, r, msg); } }
      Ok(if msg.P2p? then r1.(unhandledPeerMessage := Some(msg.peer)) else r1)
    case Goto(r1, next) =>
      var r2 := r1.(ssm := next);
      assert Replayable(msg) ==>
        Measure(r2) < Measure(rt) by { if Replayable(msg) { TransitionLowersMeasure(x, r, msg); } }
      if next.SwapEnd? then Ok(r2.Emit(SwapOutcome(next.outcome)))
      else Replay(x, if msg.P2p? then r2.(unhandledPeerMessage := None) else r2, source)
  }

  /** Shows the kept peer message and then the latest Buy, Lock and Cancel confirmations to
      the new state. */
  function Replay(x: Swap, rt: Rt, source: ServiceId): (res: Result)
    ensures res.Ok? ==> Measure(res.rt) <= Measure(rt)
    decreases 0, Measure(rt), 3
  {
    var u := if rt.unhandledPeerMessage.Some? then HandleMsg(x, rt, source, rt.unhandledPeerMessage.value) else Ok(rt);
    if u.Err? then u else
    var b := ReplayConfs(x, u.rt, source, u.rt.syncer.buyTxConfs);
    if b.Err? then b else
    var l := ReplayConfs(x, b.rt, source, b.rt.syncer.lockTxConfs);
    if l.Err? then l else
    ReplayConfs(x, l.rt, source, l.rt.syncer.cancelTxConfs)
  }

  function ReplayConfs(x: Swap, rt: Rt, source: ServiceId, kept: Option<KeptConfs>): (res: Result)
    ensures res.Ok? ==> Measure(res.rt) <= Measure(rt)
    decreases 0, Measure(rt), 2
  {
    if kept.Some? then HandleSync(x, rt, source, kept.value.Event()) else Ok(rt)
  }

  /** A replay after a replayed message starts lower. */
  lemma RoundLowers(x: Swap, rt: Rt, msg: BusMsg)
    ensures var step := Next(x, rt.(log := rt.log + [In(msg)]), msg);
      Replayable(msg) && step.Goto? ==>
        && Measure(step.rt.(ssm := step.next)) < Measure(rt)
        && Measure(step.rt.(ssm := step.next, unhandledPeerMessage := None)) < Measure(rt)
  {
    hide Next;
    if Replayable(msg) { TransitionLowersMeasure(x, rt.(log := rt.log + [In(msg)]), msg); }
  }

  // ----- restoring -----

  function WatchAll(rt: Rt, txids: seq<(TxLabel, Txid)>): Rt {
    if txids == [] then rt
    else WatchAll(rt, txids[..|txids| - 1]).WatchTxBtc(txids[|txids| - 1].1, txids[|txids| - 1].0)
  }

  function BroadcastAll(rt: Rt, txs: seq<Tx>): Rt {
    if txs == [] then rt else BroadcastAll(rt, txs[..|txs| - 1]).Broadcast(txs[|txs| - 1], None)
  }

  /** The fields as stored, everything watched again, what was pending broadcast again. */
  function Revive(rt: Rt, cp: CheckpointSwapd): Rt {
    var r := rt.(ssm := cp.state, enquirer := cp.enquirer, ts := cp.temporalSafety, creationHeight := cp.creationHeight,
                 tradeRole := cp.tradeRole, txs := Collect(cp.txs));
    var r1 := BroadcastAll(WatchAll(WatchHeights(r), cp.txids), cp.pendingBroadcasts);
    match cp.xmrAddrAddendum
    case None => r1
    case Some(a) => r1.WatchAddrXmr((a.spendKey, a.viewKey), AccLock, Some(a.fromHeight))
  }

  function Restore(rt: Rt, cp: CheckpointSwapd): Rt {
    var r := Revive(rt, cp);
    if cp.pendingMsg.Some? then r.Emit(ToPeer(cp.pendingMsg.value)) else r
  }

  function SendAll(rt: Rt, msgs: seq<PeerMsg>): Rt {
    if msgs == [] then rt else SendAll(rt, msgs[..|msgs| - 1]).Emit(ToPeer(msgs[|msgs| - 1]))
  }

  function HandleCtl(x: Swap, rt: Rt, source: ServiceId, m: CtlMsg): Result {
    match m
    case Hello => Ok(rt)
    case Disconnected => Ok(rt.(connected := false))
    case Reconnected => Ok(rt.(connected := true))
    case PeerdReconnected(peerd) =>
      Ok(SendAll(rt.(peerService := peerd, connected := true), rt.pendingPeerRequests).(pendingPeerRequests := []))
    case FailedPeerMessage(failed) => Ok(rt.(pendingPeerRequests := rt.pendingPeerRequests + [failed]))
    case RestoreCheckpoint(cp) => Ok(Restore(rt, cp))
    case _ => Execute(x, rt, source, Ctl(m))
  }

  /** One message from the bus. */
  function Handle(x: Swap, rt: Rt, source: ServiceId, msg: BusMsg): Result {
    match msg
    case P2p(m) => HandleMsg(x, rt, source, m)
    case Ctl(m) => HandleCtl(x, rt, source, m)
    case Sync(e) => HandleSync(x, rt, source, e)
  }
}
