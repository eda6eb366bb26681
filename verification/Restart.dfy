/** Restarts: a process that comes back from the last stored checkpoint of any crash, at
    any point of its history, satisfies the invariant again. */
module Restart {
  import opened Types
  import opened SyncerClient
  import opened SwapRuntime
  import opened SwapState
  import opened Execution
  import opened History
  import opened Invariants
  import opened Stages
  import opened Tables
  import opened Commitment
  import opened FundingWindow
  import opened BuyAlone
  import opened Publishing
  import opened ReleaseOrder
  import opened SentMessages
  import opened HeardMessages
  import opened Runs

  /** What a history promises on its own, and so does every beginning of it. */
  ghost predicate LogSafe(env: Env, x: Swap, tradeRole: TradeRole, log: seq<Entry>) {
    && StoredStages(env, x, tradeRole, log) && StoredTables(env, x, log) && StoredEnquirers(log)
       && StoredPending(env, log)
    && CrashSafe(log) && FundingPaired(log) && ReleasedInOrder(x, log) && StoredBuys(log) && SentFits(env, log)
    && HeardPart(env, log)
  }

  lemma InvLogSafe(env: Env, x: Swap, rt: Rt)
    requires Inv(env, x, rt)
    ensures LogSafe(env, x, rt.tradeRole, rt.log)
  {
    hide StoredStages, StoredTables, StoredEnquirers, StoredPending, CrashSafe, FundingPaired, ReleasedInOrder,
      StoredBuys, SentFits, HeardPart, TablesOk, KeptOk, PlaceOk, StoryOk, PublishPart;
  }

  /** A crash leaves a beginning of the history. */
  lemma PrefixSafe(env: Env, x: Swap, tradeRole: TradeRole, log: seq<Entry>, k: nat)
    requires LogSafe(env, x, tradeRole, log) && k <= |log|
    ensures LogSafe(env, x, tradeRole, log[..k])
  {
    hide StageOk, StoredFits, PendingFits, MayRelease, FundingOpen, NamesFit, Heard;
    assert forall j :: 0 <= j <= k ==> log[..k][..j] == log[..j];
    assert forall e :: e in log[..k] ==> e in log;
  }

  // ----- coming back -----

  /** Broadcasts repeated after a restart carry no label. */
  ghost predicate Unlabelled(a: seq<Entry>, b: seq<Entry>) {
    forall k :: |a| <= k < |b| && IsBroadcast(b[k]) ==> b[k].send.lbl.None?
  }

  lemma TailOn(a: seq<Entry>, b: seq<Entry>, c: seq<Entry>, kinds: set<Kind>, more: set<Kind>)
    requires Tail(a, b, kinds) && Tail(b, c, more) && Unlabelled(a, b) && Unlabelled(b, c) && kinds <= more
    ensures Tail(a, c, more) && Unlabelled(a, c)
  {}

  /** What a restart sends: its beginning, and the pending broadcasts if there are any. */
  function RestartKinds(cp: CheckpointSwapd): set<Kind> {
    if cp.pendingBroadcasts == [] then {Begin} else {Begin, Publish}
  }

  lemma TailSelf(a: seq<Entry>)
    ensures forall kinds :: Tail(a, a, kinds)
  {}

  lemma WiderTail(a: seq<Entry>, b: seq<Entry>, kinds: set<Kind>, more: set<Kind>)
    requires Tail(a, b, kinds) && kinds <= more
    ensures Tail(a, b, more)
  {}

  lemma PlainTail(a: seq<Entry>, b: seq<Entry>, kinds: set<Kind>)
    requires Tail(a, b, {})
    ensures Tail(a, b, kinds)
  {}

  lemma PlainUnlabelled(a: seq<Entry>, b: seq<Entry>, kinds: set<Kind>)
    requires Tail(a, b, kinds) && Publish !in kinds
    ensures Unlabelled(a, b)
  {}

  lemma WatchOneFits(env: Env, rt: Rt, txid: Txid, l: TxLabel)
    requires TablesOk(env, rt.syncer.tasks) && NoAccLock(rt.syncer.tasks) && l != AccLock && txid in env.may(l)
    ensures var r := rt.WatchTxBtc(txid, l); var t := r.syncer.tasks;
      && TablesOk(env, t) && t.txids == rt.syncer.tasks.txids[l := txid] && NoAccLock(t)
      && t.broadcastingTxs == rt.syncer.tasks.broadcastingTxs
      && r == rt.(log := r.log, syncer := rt.syncer.(tasks := t))
      && Tail(rt.log, r.log, {})
  {
    hide TablesOk, Grown;
    WatchTxBtcFits(env, rt.syncer.tasks, txid, l);
  }

  lemma {:induction false} WatchAllFits(env: Env, rt: Rt, list: seq<(TxLabel, Txid)>)
    requires TablesOk(env, rt.syncer.tasks) && rt.syncer.tasks.txids == map[] && NoAccLock(rt.syncer.tasks)
    requires forall p :: p in list ==> p.0 != AccLock && p.1 in env.may(p.0)
    ensures var r := WatchAll(rt, list); var t := r.syncer.tasks;
      && TablesOk(env, t) && t.txids == Collect(list) && NoAccLock(t)
         && t.broadcastingTxs == rt.syncer.tasks.broadcastingTxs
      && r == rt.(log := r.log, syncer := rt.syncer.(tasks := t))
      && Tail(rt.log, r.log, {})
  {
    hide TablesOk, NoAccLock, Rt.WatchTxBtc;
    if list != [] {
      var rest := list[..|list| - 1];
      var r := WatchAll(rt, rest);
      WatchAllFits(env, rt, rest);
      WatchOneFits(env, r, list[|list| - 1].1, list[|list| - 1].0);
    }
  }

  /** What broadcasting again does to the tables and the history. */
  ghost predicate Rebroadcast(env: Env, rt: Rt, r: Rt) {
    var t := r.syncer.tasks;
    && TablesOk(env, t) && t.txids == rt.syncer.tasks.txids && t.watchedTxs == rt.syncer.tasks.watchedTxs
    && r == rt.(log := r.log, syncer := rt.syncer.(tasks := t))
    && Tail(rt.log, r.log, {Publish})
    && Unlabelled(rt.log, r.log)
  }

  lemma OneRebroadcast(env: Env, rt: Rt, r: Rt, tx: Tx)
    requires Rebroadcast(env, rt, r)
    ensures Rebroadcast(env, rt, r.Broadcast(tx, None))
  {
    hide TablesOk;
    BroadcastFits(env, r.syncer.tasks, tx);
  }

  lemma {:induction false} BroadcastAllFits(env: Env, rt: Rt, txs: seq<Tx>)
    requires TablesOk(env, rt.syncer.tasks)
    ensures Rebroadcast(env, rt, BroadcastAll(rt, txs)) && (txs == [] ==> BroadcastAll(rt, txs) == rt)
  {
    if txs == [] {
      NothingRebroadcast(env, rt);
    } else {
      hide Rebroadcast, TablesOk;
      var rest := txs[..|txs| - 1];
      BroadcastAllFits(env, rt, rest);
      OneRebroadcast(env, rt, BroadcastAll(rt, rest), txs[|txs| - 1]);
    }
  }

  lemma NothingRebroadcast(env: Env, rt: Rt)
    requires TablesOk(env, rt.syncer.tasks)
    ensures Rebroadcast(env, rt, rt)
  {
    hide TablesOk;
  }

  /** The fresh tables of a launched swap. */
  lemma FreshTables(env: Env, x: Swap, tradeRole: TradeRole, before: seq<Entry>)
    ensures var t := Launch(x, tradeRole, before).syncer.tasks; TablesOk(env, t) && NoAccLock(t)
    ensures KeptOk(env, x.ts, Launch(x, tradeRole, before).syncer)
  {}

  /** Everything a revived runtime is made of. */
  ghost predicate Revived(env: Env, x: Swap, tradeRole: TradeRole, before: seq<Entry>, cp: CheckpointSwapd, r: Rt) {
    var t := r.syncer.tasks;
    && TablesOk(env, t) && t.txids == Collect(cp.txids) && NoAccLock(t)
    && (cp.pendingBroadcasts == [] ==> t.broadcastingTxs == {})
    && (cp.xmrAddrAddendum.Some? ==> t.WatchesAddr(AccLock))
    && r.syncer.lockTxConfs.None? && r.syncer.cancelTxConfs.None? && r.syncer.buyTxConfs.None?
       && !r.syncer.awaitingFunding
    && r.ssm == cp.state && r.txs == Collect(cp.txs) && r.ts == cp.temporalSafety && r.enquirer == cp.enquirer
    && r.tradeRole == cp.tradeRole && r.creationHeight == cp.creationHeight
    && r.unhandledPeerMessage.None? && r.pendingPeerRequests == [] && r.runStart == |before|
    && Tail(before, r.log, RestartKinds(cp))
    && Unlabelled(before, r.log)
  }

  lemma ReviveTables(env: Env, x: Swap, tradeRole: TradeRole, before: seq<Entry>, cp: CheckpointSwapd)
    requires StoredFits(env, x, cp)
    ensures Revived(env, x, tradeRole, before, cp, Revive(Launch(x, tradeRole, before), cp))
  {
    hide TablesOk, WatchHeights, Grown, NoAccLock, StoredFits, Tail, Unlabelled, Framed, Unasked;
    var s := Launch(x, tradeRole, before);
    var r := s.(ssm := cp.state, enquirer := cp.enquirer, ts := cp.temporalSafety, creationHeight := cp.creationHeight,
                tradeRole := cp.tradeRole, txs := Collect(cp.txs));
    FreshTables(env, x, tradeRole, before);
    HeightsRevive(env, r);
    var h := WatchHeights(r);
    assert forall p :: p in cp.txids ==> p.0 != AccLock && p.1 in env.may(p.0) by { ListFits(env, x, cp); }
    WatchAllFits(env, h, cp.txids);
    var w := WatchAll(h, cp.txids);
    BroadcastAllFits(env, w, cp.pendingBroadcasts);
    var b := BroadcastAll(w, cp.pendingBroadcasts);
    assert NoAccLock(b.syncer.tasks) by { SameWatches(w.syncer.tasks, b.syncer.tasks); }
    RevivalLogged(before, h.log, w.log, b.log, cp);
    if cp.xmrAddrAddendum.Some? {
      var a := cp.xmrAddrAddendum.value;
      var r1 := b.WatchAddrXmr((a.spendKey, a.viewKey), AccLock, Some(a.fromHeight));
      AddressRevives(env, b, a);
      PlainUnlabelled(b.log, r1.log, {});
      PlainTail(b.log, r1.log, RestartKinds(cp));
      TailOn(before, b.log, r1.log, RestartKinds(cp), RestartKinds(cp));
    }
  }

  lemma RevivalLogged(before: seq<Entry>, h: seq<Entry>, w: seq<Entry>, b: seq<Entry>, cp: CheckpointSwapd)
    requires Tail(before, h, {Begin}) && Tail(h, w, {}) && Tail(w, b, {Publish}) && Unlabelled(w, b)
    requires cp.pendingBroadcasts == [] ==> b == w
    ensures Tail(before, b, RestartKinds(cp)) && Unlabelled(before, b)
  {
    hide Tail, Unlabelled;
    PlainUnlabelled(before, h, {Begin});
    PlainUnlabelled(h, w, {});
    PlainTail(h, w, {Begin});
    TailOn(before, h, w, {Begin}, {Begin});
    var kinds := RestartKinds(cp);
    assert Tail(w, b, kinds) by { if cp.pendingBroadcasts == [] { TailSelf(w); }
      else { WiderTail(w, b, {Publish}, kinds); } }
    TailOn(before, w, b, {Begin}, kinds);
  }

  lemma ListFits(env: Env, x: Swap, cp: CheckpointSwapd)
    requires StoredFits(env, x, cp)
    ensures forall p :: p in cp.txids ==> p.0 != AccLock && p.1 in env.may(p.0)
  {}

  lemma SameWatches(t: SyncerTasks, r: SyncerTasks)
    requires NoAccLock(t) && r.watchedTxs == t.watchedTxs
    ensures NoAccLock(r)
  {}

  lemma HeightsRevive(env: Env, rt: Rt)
    requires TablesOk(env, rt.syncer.tasks) && NoAccLock(rt.syncer.tasks)
    ensures var r := WatchHeights(rt); var t := r.syncer.tasks;
      && TablesOk(env, t) && NoAccLock(t) && t.txids == rt.syncer.tasks.txids
         && t.broadcastingTxs == rt.syncer.tasks.broadcastingTxs
      && r == rt.(log := r.log, syncer := rt.syncer.(tasks := t)) && Tail(rt.log, r.log, {Begin})
  {
    hide TablesOk, Grown;
    HeightsFit(env, rt);
  }

  lemma AddressRevives(env: Env, rt: Rt, a: XmrAddendum)
    requires TablesOk(env, rt.syncer.tasks) && NoAccLock(rt.syncer.tasks)
    ensures var r := rt.WatchAddrXmr((a.spendKey, a.viewKey), AccLock, Some(a.fromHeight)); var t := r.syncer.tasks;
      && TablesOk(env, t) && NoAccLock(t) && t.WatchesAddr(AccLock) && t.txids == rt.syncer.tasks.txids
      && t.broadcastingTxs == rt.syncer.tasks.broadcastingTxs
      && r == rt.(log := r.log, syncer := rt.syncer.(tasks := t, xmrAddrAddendum := Some(a))) && Tail(rt.log, r.log, {})
  {
    hide TablesOk, Grown;
    WatchAddrFits(env, rt.syncer.tasks,
      rt.syncer.WatchAddrXmr(a.spendKey, a.viewKey, AccLock, Some(a.fromHeight)).tasks.LastTask(), AccLock);
  }

  // ----- the parts of a revived runtime -----

  lemma ReviveStage(env: Env, x: Swap, tradeRole: TradeRole, before: seq<Entry>, cp: CheckpointSwapd, r: Rt)
    requires LogSafe(env, x, tradeRole, before) && LastCheckpoint(before) == Some(cp)
      && Revived(env, x, tradeRole, before, cp, r)
    ensures StagePart(env, x, r) && r.tradeRole == tradeRole && StoredTables(env, x, r.log) && StoredEnquirers(r.log)
  {
    hide StageOk, StoredFits, CrashSafe, FundingPaired, ReleasedInOrder, StoredBuys, SentFits, HeardPart, TablesOk,
      NoAccLock, Unlabelled;
    LastIsStored(before);
    forall e | e in r.log && Stores(e) ensures e in before {
      var k :| 0 <= k < |r.log| && r.log[k] == e;
      assert k < |before|;
    }
  }

  lemma {:induction false} LastIsStored(log: seq<Entry>)
    requires LastCheckpoint(log).Some?
    ensures exists e :: e in log && Stores(e) && e.send.checkpoint == LastCheckpoint(log).value
  {
    if !Stores(log[|log| - 1]) {
      LastIsStored(log[..|log| - 1]);
      var e :| e in log[..|log| - 1] && Stores(e) && e.send.checkpoint == LastCheckpoint(log).value;
      assert e in log;
    } else {
      assert log[|log| - 1] in log;
    }
  }

  /** The checkpoint that is in store is fit. */
  lemma LastFits(env: Env, x: Swap, tradeRole: TradeRole, log: seq<Entry>, cp: CheckpointSwapd)
    requires LogSafe(env, x, tradeRole, log) && LastCheckpoint(log) == Some(cp)
    ensures StoredFits(env, x, cp) && PendingFits(env, cp) && cp.enquirer.Some?
    ensures cp.tradeRole == tradeRole && StageOk(env, x, x.RoleOf(tradeRole), cp.state)
  {
    hide StageOk, StoredFits, CrashSafe, FundingPaired, ReleasedInOrder, StoredBuys, SentFits, HeardPart, PendingFits;
    LastIsStored(log);
  }

  lemma RevivePlace(env: Env, x: Swap, tradeRole: TradeRole, before: seq<Entry>, cp: CheckpointSwapd, r: Rt)
    requires StoredFits(env, x, cp) && Revived(env, x, tradeRole, before, cp, r)
    ensures PlaceOk(env, x, r.ssm, r.txs, r.syncer.tasks)
  {
    hide NoAccLock, Tail, Unlabelled;
    var t := r.syncer.tasks;
    assert forall l :: l in t.txids ==> t.WatchesTx(l);
  }

  lemma ReviveTablesPart(env: Env, x: Swap, tradeRole: TradeRole, before: seq<Entry>, cp: CheckpointSwapd, r: Rt)
    requires StoredFits(env, x, cp) && Revived(env, x, tradeRole, before, cp, r) && StoredTables(env, x, r.log)
    ensures TablesPart(env, x, r)
  {
    hide NoAccLock, Tail, Unlabelled, StoredTables, TablesOk, PlaceOk;
    RevivePlace(env, x, tradeRole, before, cp, r);
  }

  lemma ReviveCommits(env: Env, x: Swap, tradeRole: TradeRole, before: seq<Entry>, cp: CheckpointSwapd, r: Rt)
    requires CrashSafe(before) && LastCheckpoint(before) == Some(cp)
    requires StoredFits(env, x, cp) && Revived(env, x, tradeRole, before, cp, r)
    ensures CommitPart(r) && LastCheckpoint(r.log) == Some(cp)
  {
    hide CrashSafe, Tail, TablesOk, Unlabelled, NoAccLock, TxsOk;
    TailCommits(before, r.log, RestartKinds(cp));
    if cp.state.BobFunded? && HasCommitted(before) {
      SafeNow(before);
      assert false;
    }
  }

  lemma SafeNow(log: seq<Entry>)
    requires CrashSafe(log) && HasCommitted(log)
    ensures StoredCommitted(log)
  {
    assert log[..|log|] == log;
  }

  lemma ReviveFunds(env: Env, x: Swap, tradeRole: TradeRole, before: seq<Entry>, cp: CheckpointSwapd, r: Rt)
    requires FundingPaired(before) && StoredEnquirers(r.log) && cp.enquirer.Some?
      && Revived(env, x, tradeRole, before, cp, r)
    ensures FundingPart(x, r)
  {
    hide FundingPaired, Tail, TablesOk, Unlabelled, NoAccLock, StoredEnquirers;
    TailFunds(before, r.log, RestartKinds(cp));
  }

  lemma RevivePublishes(env: Env, x: Swap, tradeRole: TradeRole, before: seq<Entry>, cp: CheckpointSwapd, r: Rt)
    requires StoredFits(env, x, cp) && Revived(env, x, tradeRole, before, cp, r)
    ensures PublishPart(env, x, r)
  {
    hide TablesOk, NoAccLock, TxsOk;
    assert r.log[|before|..] == r.log[r.runStart..];
    assert forall e :: e in r.log[|before|..] && IsBroadcast(e) ==> e.send.lbl.None?;
  }

  // ----- what goes out again -----

  lemma {:induction false} BroadcastAllOut(rt: Rt, txs: seq<Tx>, all: seq<Tx>)
    requires OnlyOut(rt.log, rt.runStart, all) && forall tx :: tx in txs ==> tx in all
    ensures OnlyOut(BroadcastAll(rt, txs).log, rt.runStart, all)
    ensures BroadcastAll(rt, txs).runStart == rt.runStart
  {
    if txs != [] {
      var rest := txs[..|txs| - 1];
      BroadcastAllOut(rt, rest, all);
      var q := BroadcastAll(rt, rest);
      var tx := txs[|txs| - 1];
      AppendOut(q.log, q.Broadcast(tx, None).log[|q.log|], rt.runStart, all);
    }
  }

  /** A restart broadcasts what was pending and nothing else. */
  lemma ReviveBroadcasts(env: Env, x: Swap, tradeRole: TradeRole, before: seq<Entry>, cp: CheckpointSwapd)
    requires StoredFits(env, x, cp)
    ensures OnlyOut(Revive(Launch(x, tradeRole, before), cp).log, |before|, cp.pendingBroadcasts)
  {
    hide TablesOk, NoAccLock, StoredFits, OnlyOut, Tail, WatchHeights, WatchAll, BroadcastAll;
    var s := Launch(x, tradeRole, before);
    var r := s.(ssm := cp.state, enquirer := cp.enquirer, ts := cp.temporalSafety, creationHeight := cp.creationHeight,
                tradeRole := cp.tradeRole, txs := Collect(cp.txs));
    var pending := cp.pendingBroadcasts;
    FreshTables(env, x, tradeRole, before);
    HeightsRevive(env, r);
    var h := WatchHeights(r);
    ListFits(env, x, cp);
    WatchAllFits(env, h, cp.txids);
    var w := WatchAll(h, cp.txids);
    NothingOut(before, pending);
    TailOut(before, h.log, {Begin}, |before|, pending);
    TailOut(h.log, w.log, {}, |before|, pending);
    BroadcastAllOut(w, pending, pending);
    BroadcastAllFits(env, w, pending);
    var b := BroadcastAll(w, pending);
    if cp.xmrAddrAddendum.Some? {
      SameWatches(w.syncer.tasks, b.syncer.tasks);
      AddressRevives(env, b, cp.xmrAddrAddendum.value);
      var a := cp.xmrAddrAddendum.value;
      TailOut(b.log, b.WatchAddrXmr((a.spendKey, a.viewKey), AccLock, Some(a.fromHeight)).log, {}, |before|, pending);
    }
  }

  lemma NothingOut(log: seq<Entry>, txs: seq<Tx>)
    ensures OnlyOut(log, |log|, txs)
  {
  }

  lemma ReviveAlone(env: Env, x: Swap, tradeRole: TradeRole, before: seq<Entry>, cp: CheckpointSwapd)
    requires StoredFits(env, x, cp)
    requires Revived(env, x, tradeRole, before, cp, Revive(Launch(x, tradeRole, before), cp))
    ensures Alone(env, Revive(Launch(x, tradeRole, before), cp))
  {
    hide TablesOk, NoAccLock, OnlyOut, Tail, Unlabelled, Revive, TxsOk;
    ReviveBroadcasts(env, x, tradeRole, before, cp);
  }

  // ----- Bob's story starts again -----

  lemma {:induction false} WatchAllAsks(rt: Rt, list: seq<(TxLabel, Txid)>, buy: Txid)
    requires forall p :: p in list && p.0 == Buy ==> p.1 == buy
    requires forall p :: p in list ==> p.0 != AccLock
    ensures var r := WatchAll(rt, list); var t := r.syncer.tasks;
      && SameRun(rt.log, r.log)
      && t.watchedAddrs == rt.syncer.tasks.watchedAddrs && t.retrievingTxs == rt.syncer.tasks.retrievingTxs
      && (forall id :: id in t.watchedTxs && t.watchedTxs[id] == Buy ==>
            AsksTx(r.log, id, buy) || (id in rt.syncer.tasks.watchedTxs && rt.syncer.tasks.watchedTxs[id] == Buy))
      && ((forall p :: p in list ==> p.0 != Buy) ==>
            forall id :: id in t.watchedTxs && t.watchedTxs[id] == Buy ==>
              id in rt.syncer.tasks.watchedTxs && rt.syncer.tasks.watchedTxs[id] == Buy)
  {
    hide AsksTx;
    if list != [] {
      var rest, p := list[..|list| - 1], list[|list| - 1];
      var q := WatchAll(rt, rest);
      WatchAllAsks(rt, rest, buy);
      var r := q.WatchTxBtc(p.1, p.0);
      AskedTx(q.log, r.log, r.syncer.tasks.counter, p.1);
      AsksLast(q.log, r.log);
    }
  }

  lemma {:induction false} BroadcastAllAsks(rt: Rt, txs: seq<Tx>)
    ensures var r := BroadcastAll(rt, txs); var t := r.syncer.tasks;
      && SameRun(rt.log, r.log)
      && t.watchedAddrs == rt.syncer.tasks.watchedAddrs && t.retrievingTxs == rt.syncer.tasks.retrievingTxs
      && t.watchedTxs == rt.syncer.tasks.watchedTxs && t.txids == rt.syncer.tasks.txids
  {
    if txs != [] { BroadcastAllAsks(rt, txs[..|txs| - 1]); }
  }

  /** The transaction of the Buy signature in a checkpoint. */
  function BuyOf(s: SwapStateMachine): Txid {
    if s.BobRefundProcedureSignatures? then s.buySig.buy else 0
  }

  /** What is watched again is what the checkpoint knows, and is asked for in the new run. */
  ghost predicate StoryRevived(cp: CheckpointSwapd, r: Rt) {
    && AddressesAsked(r.log, r.syncer.tasks) && NoFetch(r.syncer.tasks)
    && (cp.state.BobFunded? ==> forall id :: id in r.syncer.tasks.watchedTxs ==> r.syncer.tasks.watchedTxs[id] != Buy)
    && (forall id :: id in r.syncer.tasks.watchedTxs && r.syncer.tasks.watchedTxs[id] == Buy ==>
       AsksTx(r.log, id, BuyOf(cp.state)))
  }

  lemma ReviveAsks(x: Swap, tradeRole: TradeRole, before: seq<Entry>, cp: CheckpointSwapd)
    requires StoresBuy(cp) && (cp.state.BobFunded? || cp.state.BobRefundProcedureSignatures?)
    requires forall p :: p in cp.txids ==> p.0 != AccLock
    ensures StoryRevived(cp, Revive(Launch(x, tradeRole, before), cp))
  {
    hide AsksTx, AsksAddress, WatchAll, BroadcastAll;
    var s := Launch(x, tradeRole, before);
    var r := s.(ssm := cp.state, enquirer := cp.enquirer, ts := cp.temporalSafety, creationHeight := cp.creationHeight,
                tradeRole := cp.tradeRole, txs := Collect(cp.txs));
    var h := WatchHeights(r);
    WatchAllAsks(h, cp.txids, BuyOf(cp.state));
    var w := WatchAll(h, cp.txids);
    BroadcastAllAsks(w, cp.pendingBroadcasts);
    var b := BroadcastAll(w, cp.pendingBroadcasts);
    AsksLast(w.log, b.log);
    if cp.xmrAddrAddendum.Some? {
      var a := cp.xmrAddrAddendum.value;
      var q := b.WatchAddrXmr((a.spendKey, a.viewKey), AccLock, Some(a.fromHeight));
      AskedAddress(b.log, q.log, q.syncer.tasks.counter, a);
      AsksLast(b.log, q.log);
    }
  }

  lemma LastStoresBuy(log: seq<Entry>, cp: CheckpointSwapd)
    requires StoredBuys(log) && LastCheckpoint(log) == Some(cp)
    ensures StoresBuy(cp)
  {
    hide StoresBuy;
    LastIsStored(log);
  }

  lemma ReviveReleases(env: Env, x: Swap, tradeRole: TradeRole, before: seq<Entry>, cp: CheckpointSwapd)
    requires ReleasedInOrder(x, before) && StoredBuys(before) && LastCheckpoint(before) == Some(cp)
      && StoredFits(env, x, cp)
    requires Revived(env, x, tradeRole, before, cp, Revive(Launch(x, tradeRole, before), cp))
    ensures var r := Revive(Launch(x, tradeRole, before), cp); ReleasePart(x, x.RoleOf(r.tradeRole), r)
  {
    hide ReleasedInOrder, StoredBuys, TablesOk, NoAccLock, TxsOk, Tail, Unlabelled, Revive, StoresBuy, AddressesAsked,
      NoFetch, AsksTx;
    var r := Revive(Launch(x, tradeRole, before), cp);
    TailReleases(x, before, r.log, RestartKinds(cp));
    NothingStored(before, r.log, RestartKinds(cp));
    LastStoresBuy(before, cp);
    if cp.state.BobFunded? || cp.state.BobRefundProcedureSignatures? {
      ReviveAsks(x, tradeRole, before, cp);
      BuyCollected(cp);
    }
  }

  lemma NothingStored(a: seq<Entry>, b: seq<Entry>, kinds: set<Kind>)
    requires Tail(a, b, kinds) && Store !in kinds && StoredBuys(a)
    ensures StoredBuys(b)
  {
    hide StoresBuy;
    forall e | e in b && Stores(e) ensures e in a {
      var k :| 0 <= k < |b| && b[k] == e;
      assert k < |a|;
    }
  }

  lemma {:induction false} CollectedIsListed(list: seq<(TxLabel, Txid)>, l: TxLabel)
    requires l in Collect(list)
    ensures (l, Collect(list)[l]) in list
  {
    if list[|list| - 1].0 != l { CollectedIsListed(list[..|list| - 1], l); }
  }

  lemma BuyCollected(cp: CheckpointSwapd)
    requires StoresBuy(cp)
    ensures cp.state.BobFunded? ==> Buy !in Collect(cp.txids)
    ensures cp.state.BobRefundProcedureSignatures? && Buy in Collect(cp.txids) ==>
      Collect(cp.txids)[Buy] == cp.state.buySig.buy
  {
    if Buy in Collect(cp.txids) { CollectedIsListed(cp.txids, Buy); }
  }

  lemma ReviveSends(env: Env, x: Swap, tradeRole: TradeRole, before: seq<Entry>, cp: CheckpointSwapd, r: Rt)
    requires SentFits(env, before) && StoredPending(env, before) && Revived(env, x, tradeRole, before, cp, r)
    ensures SentPart(env, r)
  {
    hide SentFits, HeardPart, StoredPending, TablesOk, NoAccLock, Tail, Unlabelled;
    TailSends(env, before, r.log, RestartKinds(cp));
  }

  lemma ReviveHears(env: Env, x: Swap, tradeRole: TradeRole, before: seq<Entry>, cp: CheckpointSwapd, r: Rt)
    requires HeardPart(env, before) && Revived(env, x, tradeRole, before, cp, r)
    ensures HeardPart(env, r.log)
  {
    hide HeardPart, TablesOk, NoAccLock, Unlabelled;
    TailHeard(env, before, r.log, RestartKinds(cp));
  }

  lemma ReviveKeeps(env: Env, x: Swap, tradeRole: TradeRole, before: seq<Entry>, cp: CheckpointSwapd)
    requires LogSafe(env, x, tradeRole, before) && LastCheckpoint(before) == Some(cp)
    ensures Inv(env, x, Revive(Launch(x, tradeRole, before), cp))
    ensures LastCheckpoint(Revive(Launch(x, tradeRole, before), cp).log) == Some(cp)
    ensures Revive(Launch(x, tradeRole, before), cp).ssm == cp.state
  {
    hide Revive, StagePart, TablesPart, CommitPart, FundingPart, PublishPart, Alone, ReleasePart, SentPart, HeardPart,
      StoredFits, StageOk, StoredStages, StoredTables, StoredEnquirers, StoredPending, CrashSafe, FundingPaired,
      ReleasedInOrder, StoredBuys, SentFits, HeardPart, PendingFits;
    var r := Revive(Launch(x, tradeRole, before), cp);
    LastFits(env, x, tradeRole, before, cp);
    ReviveTables(env, x, tradeRole, before, cp);
    ReviveStage(env, x, tradeRole, before, cp, r);
    ReviveTablesPart(env, x, tradeRole, before, cp, r);
    ReviveCommits(env, x, tradeRole, before, cp, r);
    ReviveFunds(env, x, tradeRole, before, cp, r);
    RevivePublishes(env, x, tradeRole, before, cp, r);
    ReviveAlone(env, x, tradeRole, before, cp);
    ReviveReleases(env, x, tradeRole, before, cp);
    ReviveSends(env, x, tradeRole, before, cp, r);
    ReviveHears(env, x, tradeRole, before, cp, r);
  }

  lemma ReviveLater(env: Env, x: Swap, tradeRole: TradeRole, before: seq<Entry>, cp: CheckpointSwapd)
    requires LogSafe(env, x, tradeRole, before) && LastCheckpoint(before) == Some(cp)
    ensures var r := Restore(Launch(x, tradeRole, before), cp); r.tradeRole == tradeRole && before <= r.log
  {
    hide Revive, LogSafe, StoredFits, PendingFits, StageOk;
    LastFits(env, x, tradeRole, before, cp);
    ReviveTables(env, x, tradeRole, before, cp);
  }

  /** Coming back from the checkpoint in store. */
  lemma RestoreKeeps(env: Env, x: Swap, tradeRole: TradeRole, before: seq<Entry>, cp: CheckpointSwapd)
    requires LogSafe(env, x, tradeRole, before) && LastCheckpoint(before) == Some(cp)
    ensures Inv(env, x, Restore(Launch(x, tradeRole, before), cp))
  {
    hide Revive, Inv, LogSafe, StageOk;
    ReviveKeeps(env, x, tradeRole, before, cp);
    LastFits(env, x, tradeRole, before, cp);
    if cp.pendingMsg.Some? {
      AppendKeeps(env, x, Revive(Launch(x, tradeRole, before), cp), Out(ToPeer(cp.pendingMsg.value)));
    }
  }
}
