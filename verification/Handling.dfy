/** A swapd over its whole life: messages from the bus, crashes and restarts. */
module Handling {
  import opened Types
  import opened SwapRuntime
  import opened SwapState
  import opened Execution
  import opened History
  import opened Invariants
  import opened Stages
  import opened Tables
  import opened Commitment
  import opened FundingWindow
  import opened Publishing
  import opened ReleaseOrder
  import opened SentMessages
  import opened HeardMessages
  import opened Runs
  import opened Restart

  /** The control messages that reach the machine. */
  predicate Executed(m: CtlMsg) {
    !m.Hello? && !m.Disconnected? && !m.Reconnected? && !m.PeerdReconnected? && !m.FailedPeerMessage?
      && !m.RestoreCheckpoint?
  }

  /** What the bus owes: messages that were sent, events that fit, requests returned only
      if they were made; peer daemons report on the connection and relay messages, no more.
      Restoring is a restart of its own. */
  ghost predicate Legit(env: Env, rt: Rt, source: ServiceId, msg: BusMsg) {
    match msg
    case P2p(m) => MessageFits(env, m)
    case Sync(e) => EventFits(env, rt, source, e) && !source.Peerd?
    case Ctl(m) =>
      && !m.RestoreCheckpoint?
      && (m.FailedPeerMessage? ==> Sent(rt.log, m.failed))
      && (source.Peerd? ==> !Executed(m))
  }

  // ----- control messages -----

  /** The connection to the peer is no part of the invariant. */
  lemma ConnectionKeeps(env: Env, x: Swap, rt: Rt, peer: ServiceId, connected: bool, pending: seq<PeerMsg>)
    requires Inv(env, x, rt) && forall m :: m in pending ==> Sent(rt.log, m)
    ensures Inv(env, x, rt.(peerService := peer, connected := connected, pendingPeerRequests := pending))
  {
    hide TablesOk, KeptOk, TxsOk, PlaceOk, StageOk, StoredStages, StoredTables, MessageFits, CrashSafe, CommitmentOk,
      FundingPaired, StoredEnquirers, MayAwait, Published, ReleasedInOrder, StoredBuys, StoryOk, SentFits, HeardPart,
      StoredPending, Sent;
  }

  lemma ReleasedBefore(x: Swap, log: seq<Entry>, e: Entry)
    requires ReleasedInOrder(x, log) && e in log && IsBuySignature(e)
    ensures MayRelease(x, log)
  {
    var k :| 0 <= k < |log| && log[k] == e;
    var before := log[..k];
    var i, id, n: nat :| 0 <= i < |before| && before[i] == In(Sync(TransactionConfirmations(id, Some(n))))
      && n >= x.ts.xmrFinalityThr && WatchesPayment(x, before[..i], id);
    assert log[i] == before[i] && log[..i] == before[..i];
  }

  lemma ResendKeeps(env: Env, x: Swap, rt: Rt, m: PeerMsg)
    requires Inv(env, x, rt) && Sent(rt.log, m)
    ensures Inv(env, x, rt.Emit(ToPeer(m)))
  {
    hide TablesOk, KeptOk, TxsOk, PlaceOk, StageOk, StoredStages, StoredTables, MessageFits, FundingPaired,
      PublishPart, StoredEnquirers, MayAwait, StoryOk, StoredPending, MayRelease, WatchesPayment;
    var e :| e in rt.log && e.Out? && e.send.ToPeer? && e.send.msg == m;
    if Commits(e) { SafeNow(rt.log); }
    if IsBuySignature(e) { ReleasedBefore(x, rt.log, e); }
    AppendKeeps(env, x, rt, Out(ToPeer(m)));
  }

  lemma SentLasts(a: seq<Entry>, b: seq<Entry>, m: PeerMsg)
    requires a <= b && Sent(a, m)
    ensures Sent(b, m)
  {
    var e :| e in a && e.Out? && e.send.ToPeer? && e.send.msg == m;
    assert e in b;
  }

  lemma {:induction false} SendAllKeeps(env: Env, x: Swap, rt: Rt, msgs: seq<PeerMsg>)
    requires Inv(env, x, rt) && forall m :: m in msgs ==> Sent(rt.log, m)
    ensures Inv(env, x, SendAll(rt, msgs))
    ensures SendAll(rt, msgs) == rt.(log := SendAll(rt, msgs).log) && rt.log <= SendAll(rt, msgs).log
  {
    hide Inv, Sent;
    if msgs != [] {
      var rest, m := msgs[..|msgs| - 1], msgs[|msgs| - 1];
      SendAllKeeps(env, x, rt, rest);
      SentLasts(rt.log, SendAll(rt, rest).log, m);
      ResendKeeps(env, x, SendAll(rt, rest), m);
    }
  }

  lemma HandleCtlKeeps(env: Env, x: Swap, rt: Rt, source: ServiceId, m: CtlMsg)
    requires Inv(env, x, rt) && CryptoFits(env, x.crypto) && Legit(env, rt, source, Ctl(m))
    ensures Outcomes(env, x, HandleCtl(x, rt, source, m))
  {
    hide Inv, CryptoFits, Execute, Sent;
    PendingWereSent(env, x, rt);
    match m
    case Disconnected => ConnectionKeeps(env, x, rt, rt.peerService, false, rt.pendingPeerRequests);
    case Reconnected => ConnectionKeeps(env, x, rt, rt.peerService, true, rt.pendingPeerRequests);
    case PeerdReconnected(peerd) =>
      ConnectionKeeps(env, x, rt, peerd, true, rt.pendingPeerRequests);
      SendAllKeeps(env, x, rt.(peerService := peerd, connected := true), rt.pendingPeerRequests);
      var r := SendAll(rt.(peerService := peerd, connected := true), rt.pendingPeerRequests);
      ConnectionKeeps(env, x, r, peerd, true, []);
    case FailedPeerMessage(failed) =>
      ConnectionKeeps(env, x, rt, rt.peerService, rt.connected, rt.pendingPeerRequests + [failed]);
    case Hello =>
    case _ => ExecuteKeeps(env, x, rt, source, Ctl(m));
  }

  lemma PendingWereSent(env: Env, x: Swap, rt: Rt)
    requires Inv(env, x, rt)
    ensures forall m :: m in rt.pendingPeerRequests ==> Sent(rt.log, m)
  {
    hide Sent, StagePart, TablesPart, CommitPart, FundingPart, PublishPart, ReleasePart;
  }

  /** Every message from the bus keeps the invariant, and no error it ends in is one of
      those meant to be unreachable. */
  lemma HandleKeeps(env: Env, x: Swap, rt: Rt, source: ServiceId, msg: BusMsg)
    requires Inv(env, x, rt) && CryptoFits(env, x.crypto) && Legit(env, rt, source, msg)
    ensures Outcomes(env, x, Handle(x, rt, source, msg))
  {
    hide Inv, CryptoFits, HandleCtl, HandleSync, HandleMsg;
    match msg
    case P2p(m) => HandleMsgKeeps(env, x, rt, source, m);
    case Ctl(m) => HandleCtlKeeps(env, x, rt, source, m);
    case Sync(e) => HandleSyncKeeps(env, x, rt, source, e);
  }

  // ----- history only grows -----

  /** `r` comes after `rt` in the same run. */
  ghost predicate Later(rt: Rt, r: Rt) {
    rt.log <= r.log && r.tradeRole == rt.tradeRole && r.runStart == rt.runStart
  }

  lemma ExecuteGrows(x: Swap, rt: Rt, source: ServiceId, msg: BusMsg)
    ensures Later(rt, Execute(x, rt, source, msg).rt)
    decreases One(!Replayable(msg)), Measure(rt), 0
  {
    hide Next, Measure, Replay;
    var r := rt.(log := rt.log + [In(msg)]);
    var step := Next(x, r, msg);
    NextProceeds(x, r, msg);
    if step.Goto? && !step.next.SwapEnd? {
      var r2 := step.rt.(ssm := step.next);
      RoundLowers(x, rt, msg);
      ReplayGrows(x, if msg.P2p? then r2.(unhandledPeerMessage := None) else r2, source);
    }
  }

  lemma HandleSyncGrows(x: Swap, rt: Rt, source: ServiceId, e: SyncEvent)
    ensures Later(rt, HandleSync(x, rt, source, e).rt)
    decreases One(!Replayable(Sync(e))), Measure(rt), 1
  {
    hide Execute, Measure;
    ExecuteGrows(x, Record(rt, source, e), source, Sync(e));
  }

  lemma HandleMsgGrows(x: Swap, rt: Rt, source: ServiceId, m: PeerMsg)
    ensures Later(rt, HandleMsg(x, rt, source, m).rt)
    decreases 0, Measure(rt), 1
  {
    hide Execute, Measure;
    ExecuteGrows(x, rt, source, P2p(m));
  }

  lemma ReplayGrows(x: Swap, rt: Rt, source: ServiceId)
    ensures Later(rt, Replay(x, rt, source).rt)
    decreases 0, Measure(rt), 3
  {
    hide HandleMsg, ReplayConfs, Measure;
    var u := if rt.unhandledPeerMessage.Some? then HandleMsg(x, rt, source, rt.unhandledPeerMessage.value) else Ok(rt);
    if rt.unhandledPeerMessage.Some? { HandleMsgGrows(x, rt, source, rt.unhandledPeerMessage.value); }
    if u.Ok? {
      var b := ReplayConfs(x, u.rt, source, u.rt.syncer.buyTxConfs);
      ReplayConfsGrows(x, u.rt, source, u.rt.syncer.buyTxConfs);
      if b.Ok? {
        var l := ReplayConfs(x, b.rt, source, b.rt.syncer.lockTxConfs);
        ReplayConfsGrows(x, b.rt, source, b.rt.syncer.lockTxConfs);
        if l.Ok? { ReplayConfsGrows(x, l.rt, source, l.rt.syncer.cancelTxConfs); }
      }
    }
  }

  lemma ReplayConfsGrows(x: Swap, rt: Rt, source: ServiceId, kept: Option<KeptConfs>)
    ensures Later(rt, ReplayConfs(x, rt, source, kept).rt)
    decreases 0, Measure(rt), 2
  {
    hide HandleSync, Measure;
    if kept.Some? { HandleSyncGrows(x, rt, source, kept.value.Event()); }
  }

  lemma {:induction false} SendAllGrows(rt: Rt, msgs: seq<PeerMsg>)
    ensures Later(rt, SendAll(rt, msgs))
  {
    if msgs != [] { SendAllGrows(rt, msgs[..|msgs| - 1]); }
  }

  lemma HandleGrows(x: Swap, rt: Rt, source: ServiceId, msg: BusMsg)
    requires !(msg.Ctl? && msg.ctl.RestoreCheckpoint?)
    ensures Later(rt, Handle(x, rt, source, msg).rt)
  {
    hide Execute, HandleSync, HandleMsg;
    match msg
    case P2p(m) => HandleMsgGrows(x, rt, source, m);
    case Sync(e) => HandleSyncGrows(x, rt, source, e);
    case Ctl(PeerdReconnected(peerd)) => SendAllGrows(rt.(peerService := peerd, connected := true),
      rt.pendingPeerRequests);
    case Ctl(_) => ExecuteGrows(x, rt, source, msg);
  }

  // ----- lives -----

  /** A message handled to its end. */
  ghost predicate Handles(env: Env, x: Swap, rt: Rt, r: Rt) {
    exists source, msg :: Legit(env, rt, source, msg) && r == Handle(x, rt, source, msg).rt
  }

  /** A process dies when it has sent the first `cuts[0]` entries of a history, and another comes
      back from the checkpoint then in store. Each further cut is a death while the one before
      is being restored, between any two sends of that, and another restart. */
  ghost predicate ComesBack(x: Swap, tradeRole: TradeRole, from: nat, log: seq<Entry>, cuts: seq<nat>, r: Rt)
    decreases |cuts|
  {
    cuts != [] && from <= cuts[0] <= |log| &&
    var before := log[..cuts[0]];
    LastCheckpoint(before).Some? &&
    var q := Restore(Launch(x, tradeRole, before), LastCheckpoint(before).value);
    if |cuts| == 1 then r == q else ComesBack(x, tradeRole, cuts[0], q.log, cuts[1..], r)
  }

  /** A crash while a message is handled, between any two sends, and then any number of restarts
      of which all but the last are cut off as well. */
  ghost predicate CrashesAt(x: Swap, rt: Rt, source: ServiceId, msg: BusMsg, cuts: seq<nat>, r: Rt) {
    ComesBack(x, rt.tradeRole, |rt.log|, Handle(x, rt, source, msg).rt.log, cuts, r)
  }

  ghost predicate Restarts(env: Env, x: Swap, rt: Rt, r: Rt) {
    exists source, msg, cuts :: Legit(env, rt, source, msg) && CrashesAt(x, rt, source, msg, cuts, r)
  }

  ghost predicate Follow(env: Env, x: Swap, rt: Rt, r: Rt) {
    Handles(env, x, rt, r) || Restarts(env, x, rt, r)
  }

  /** Everything that can become of a swap, from its launch on. */
  ghost predicate Life(env: Env, x: Swap, tradeRole: TradeRole, states: seq<Rt>) {
    && |states| > 0 && states[0] == Launch(x, tradeRole, [])
    && forall i :: 0 < i < |states| ==> Follow(env, x, states[i - 1], states[i])
  }

  lemma LaunchKeeps(env: Env, x: Swap, tradeRole: TradeRole)
    ensures Inv(env, x, Launch(x, tradeRole, []))
  {
    FreshTables(env, x, tradeRole, []);
  }

  /** Whatever was cut off, the last restart is one from a sound history, longer than where the
      first death began. */
  lemma {:induction false} LastRestart(env: Env, x: Swap, tradeRole: TradeRole, from: nat, log: seq<Entry>,
      cuts: seq<nat>, r: Rt) returns (before: seq<Entry>, cp: CheckpointSwapd)
    requires LogSafe(env, x, tradeRole, log) && ComesBack(x, tradeRole, from, log, cuts, r)
    ensures from <= |log| && log[..from] <= before
    ensures LogSafe(env, x, tradeRole, before) && LastCheckpoint(before) == Some(cp)
    ensures r == Restore(Launch(x, tradeRole, before), cp)
    decreases |cuts|
  {
    hide LogSafe, Restore, Inv;
    before := log[..cuts[0]];
    cp := LastCheckpoint(before).value;
    PrefixSafe(env, x, tradeRole, log, cuts[0]);
    assert log[..from] == before[..from];
    if |cuts| > 1 {
      var first := before;
      var q := Restore(Launch(x, tradeRole, before), cp);
      RestoreKeeps(env, x, tradeRole, before, cp);
      ReviveLater(env, x, tradeRole, before, cp);
      InvLogSafe(env, x, q);
      before, cp := LastRestart(env, x, tradeRole, cuts[0], q.log, cuts[1..], r);
      assert q.log[..cuts[0]] == first;
    }
  }

  lemma CrashComesBack(env: Env, x: Swap, rt: Rt, source: ServiceId, msg: BusMsg, cuts: seq<nat>, r: Rt)
      returns (before: seq<Entry>, cp: CheckpointSwapd)
    requires Inv(env, x, rt) && CryptoFits(env, x.crypto) && Legit(env, rt, source, msg)
      && CrashesAt(x, rt, source, msg, cuts, r)
    ensures rt.log <= before && LogSafe(env, x, rt.tradeRole, before) && LastCheckpoint(before) == Some(cp)
    ensures r == Restore(Launch(x, rt.tradeRole, before), cp)
  {
    hide Inv, Handle, CryptoFits, Restore, LogSafe, MessageFits, EventFits, ComesBack;
    HandleKeeps(env, x, rt, source, msg);
    HandleGrows(x, rt, source, msg);
    var h := Handle(x, rt, source, msg).rt;
    InvLogSafe(env, x, h);
    before, cp := LastRestart(env, x, rt.tradeRole, |rt.log|, h.log, cuts, r);
    assert rt.log == h.log[..|rt.log|];
  }

  lemma CrashKeeps(env: Env, x: Swap, rt: Rt, source: ServiceId, msg: BusMsg, cuts: seq<nat>, r: Rt)
    requires Inv(env, x, rt) && CryptoFits(env, x.crypto) && Legit(env, rt, source, msg)
      && CrashesAt(x, rt, source, msg, cuts, r)
    ensures Inv(env, x, r)
  {
    hide Inv, Handle, CryptoFits, Restore, LogSafe, Legit, CrashesAt;
    var before, cp := CrashComesBack(env, x, rt, source, msg, cuts, r);
    RestoreKeeps(env, x, rt.tradeRole, before, cp);
  }
}
