/** Restoring a checkpoint into a fresh runtime and checkpointing again gives back the
    same checkpoint, with every transaction watched again. */
module RoundTrip {
  import opened Types
  import opened SyncerClient
  import opened SwapRuntime
  import opened SwapState
  import opened Execution
  import opened Commitment

  /** Tables that agree on what is being broadcast up to an id. */
  lemma {:induction false} SamePending(t: SyncerTasks, r: SyncerTasks, n: nat)
    requires forall id :: 0 < id <= n ==> (id in t.broadcastingTxs <==> id in r.broadcastingTxs)
    requires forall id :: 0 < id <= n && id in t.broadcastingTxs ==>
      (id in t.tasks <==> id in r.tasks) && (id in t.tasks ==> t.tasks[id] == r.tasks[id])
    ensures t.PendingBroadcasts(n) == r.PendingBroadcasts(n)
  {
    if n > 0 { SamePending(t, r, n - 1); }
  }

  /** Nothing is broadcast under an id that was not given out yet. */
  predicate Bounded(t: SyncerTasks) {
    forall id :: id in t.broadcastingTxs ==> id <= t.counter
  }

  /** A task of another kind leaves the pending broadcasts alone. */
  lemma OtherTaskPending(t: SyncerTasks, r: SyncerTasks)
    requires Bounded(t) && r.counter == t.counter + 1 && r.broadcastingTxs == t.broadcastingTxs
    requires forall id :: id <= t.counter ==>
      (id in t.tasks <==> id in r.tasks) && (id in t.tasks ==> t.tasks[id] == r.tasks[id])
    ensures r.PendingBroadcastTxs() == t.PendingBroadcastTxs() && Bounded(r)
  {
    SamePending(t, r, t.counter);
  }

  lemma BroadcastPending(t: SyncerTasks, tx: Tx)
    requires Bounded(t)
    ensures t.Broadcast(tx).PendingBroadcastTxs() == t.PendingBroadcastTxs() + [tx] && Bounded(t.Broadcast(tx))
  {
    SamePending(t, t.Broadcast(tx), t.counter);
  }

  /** A label is watched by the very transaction it stands for. */
  ghost predicate WatchedAs(t: SyncerTasks, l: TxLabel, txid: Txid) {
    exists id :: id in t.watchedTxs && t.watchedTxs[id] == l && id in t.tasks
      && t.tasks[id] == WatchTransaction(id, txid)
  }

  ghost predicate IdsKnown(t: SyncerTasks) {
    forall id :: id in t.watchedTxs ==> id <= t.counter
  }

  /** The tables of a list watched again. */
  ghost predicate Rewatched(t: SyncerTasks, list: seq<(TxLabel, Txid)>, r: SyncerTasks) {
    && r.txids == Collect(list)
    && r.PendingBroadcastTxs() == t.PendingBroadcastTxs() && Bounded(r) && IdsKnown(r)
    && forall p :: p in list ==> WatchedAs(r, p.0, p.1)
  }

  lemma OneRewatched(t: SyncerTasks, list: seq<(TxLabel, Txid)>, r: SyncerTasks, last: (TxLabel, Txid))
    requires Rewatched(t, list, r)
    ensures Rewatched(t, list + [last], r.WatchTxBtc(last.1, last.0))
  {
    hide WatchedAs, SyncerTasks.PendingBroadcasts;
    var q := r.WatchTxBtc(last.1, last.0);
    OtherTaskPending(r, q);
    StillWatched(r, q);
    NowWatched(r, last.1, last.0);
    assert (list + [last])[..|list|] == list;
  }

  lemma {:induction false} WatchAllAgain(rt: Rt, list: seq<(TxLabel, Txid)>)
    requires Bounded(rt.syncer.tasks) && IdsKnown(rt.syncer.tasks) && rt.syncer.tasks.txids == map[]
    ensures var r := WatchAll(rt, list); var t := r.syncer.tasks;
      && t.txids == Collect(list)
      && t.PendingBroadcastTxs() == rt.syncer.tasks.PendingBroadcastTxs() && Bounded(t) && IdsKnown(t)
      && r == rt.(log := r.log, syncer := rt.syncer.(tasks := t))
      && forall p :: p in list ==> WatchedAs(t, p.0, p.1)
  {
    hide WatchedAs, IdsKnown, Bounded, SyncerTasks.PendingBroadcasts;
    if list != [] {
      var rest, last := list[..|list| - 1], list[|list| - 1];
      WatchAllAgain(rt, rest);
      OneRewatched(rt.syncer.tasks, rest, WatchAll(rt, rest).syncer.tasks, last);
      assert list == rest + [last];
    }
  }

  lemma NowWatched(t: SyncerTasks, txid: Txid, l: TxLabel)
    ensures WatchedAs(t.WatchTxBtc(txid, l), l, txid)
  {
    var r := t.WatchTxBtc(txid, l);
    assert r.counter in r.watchedTxs && r.tasks[r.counter] == WatchTransaction(r.counter, txid);
  }

  lemma {:induction false} BroadcastAllAgain(rt: Rt, txs: seq<Tx>)
    requires Bounded(rt.syncer.tasks) && IdsKnown(rt.syncer.tasks)
    ensures var r := BroadcastAll(rt, txs); var t := r.syncer.tasks;
      && t.txids == rt.syncer.tasks.txids
      && t.PendingBroadcastTxs() == rt.syncer.tasks.PendingBroadcastTxs() + txs && Bounded(t) && IdsKnown(t)
      && r == rt.(log := r.log, syncer := rt.syncer.(tasks := t))
      && forall l, txid :: WatchedAs(rt.syncer.tasks, l, txid) ==> WatchedAs(t, l, txid)
  {
    if txs != [] {
      var rest := txs[..|txs| - 1];
      BroadcastAllAgain(rt, rest);
      var t := BroadcastAll(rt, rest).syncer.tasks;
      BroadcastPending(t, txs[|txs| - 1]);
      assert txs == rest + [txs[|txs| - 1]];
      StillWatched(t, t.Broadcast(txs[|txs| - 1]));
    }
  }

  lemma StillWatched(t: SyncerTasks, r: SyncerTasks)
    requires IdsKnown(t) && forall id :: id in t.watchedTxs ==>
      id in r.watchedTxs && r.watchedTxs[id] == t.watchedTxs[id]
    requires forall id :: id <= t.counter && id in t.tasks ==> id in r.tasks && r.tasks[id] == t.tasks[id]
    ensures forall l, txid :: WatchedAs(t, l, txid) ==> WatchedAs(r, l, txid)
  {
    forall l, txid | WatchedAs(t, l, txid) ensures WatchedAs(r, l, txid) {
      var id :| id in t.watchedTxs && t.watchedTxs[id] == l && id in t.tasks
        && t.tasks[id] == WatchTransaction(id, txid);
      assert id in r.watchedTxs && id in r.tasks;
    }
  }

  lemma HeightsAgain(rt: Rt)
    requires Bounded(rt.syncer.tasks) && IdsKnown(rt.syncer.tasks)
    ensures var r := WatchHeights(rt); var t := r.syncer.tasks;
      && t.txids == rt.syncer.tasks.txids && t.PendingBroadcastTxs() == rt.syncer.tasks.PendingBroadcastTxs()
      && Bounded(t) && IdsKnown(t) && r == rt.(log := r.log, syncer := rt.syncer.(tasks := t))
  {
    var t := rt.syncer.tasks;
    var u := t.Register(WatchHeight(t.counter + 1));
    OtherTaskPending(t, u);
    OtherTaskPending(u, u.Register(WatchHeight(u.counter + 1)));
  }

  lemma AddressAgain(rt: Rt, a: XmrAddendum)
    requires Bounded(rt.syncer.tasks) && IdsKnown(rt.syncer.tasks)
    ensures var r := rt.WatchAddrXmr((a.spendKey, a.viewKey), AccLock, Some(a.fromHeight)); var t := r.syncer.tasks;
      && t.txids == rt.syncer.tasks.txids && t.PendingBroadcastTxs() == rt.syncer.tasks.PendingBroadcastTxs()
      && r == rt.(log := r.log, syncer := rt.syncer.(tasks := t, xmrAddrAddendum := Some(a)))
      && forall l, txid :: WatchedAs(rt.syncer.tasks, l, txid) ==> WatchedAs(t, l, txid)
  {
    var t := rt.WatchAddrXmr((a.spendKey, a.viewKey), AccLock, Some(a.fromHeight)).syncer.tasks;
    OtherTaskPending(rt.syncer.tasks, t);
    StillWatched(rt.syncer.tasks, t);
  }

  /** What comes back from a checkpoint writes the very same checkpoint, whatever was
      stored, and watches each stored transaction under a task of its own. */
  lemma RestoreThenCheckpoint(x: Swap, tradeRole: TradeRole, before: seq<Entry>, rt: Rt, pending: Option<PeerMsg>,
      next: SwapStateMachine)
    ensures var cp := rt.CheckpointOf(pending, next);
      var r := Restore(Launch(x, tradeRole, before), cp);
      && r.ssm == next
      && r.CheckpointOf(pending, r.ssm) == cp
      && forall l :: l in rt.syncer.tasks.txids ==> WatchedAs(r.syncer.tasks, l, rt.syncer.tasks.txids[l])
  {
    hide WatchHeights, WatchAll, BroadcastAll, WatchedAs, SyncerTasks.PendingBroadcasts, Framed, Unasked, Tail, ListOf,
      Collect;
    var cp := rt.CheckpointOf(pending, next);
    var s := Launch(x, tradeRole, before);
    var r := s.(ssm := cp.state, enquirer := cp.enquirer, ts := cp.temporalSafety, creationHeight := cp.creationHeight,
                tradeRole := cp.tradeRole, txs := Collect(cp.txs));
    CollectList(rt.txs);
    CollectList(rt.syncer.tasks.txids);
    HeightsAgain(r);
    var h := WatchHeights(r);
    WatchAllAgain(h, cp.txids);
    var w := WatchAll(h, cp.txids);
    BroadcastAllAgain(w, cp.pendingBroadcasts);
    var b := BroadcastAll(w, cp.pendingBroadcasts);
    if cp.xmrAddrAddendum.Some? { AddressAgain(b, cp.xmrAddrAddendum.value); }
    FreshPending(r.syncer.tasks);
    AllListed(rt.syncer.tasks.txids);
  }

  lemma AllListed<V>(m: map<TxLabel, V>)
    ensures forall l :: l in m ==> (l, m[l]) in ListOf(m, |LABELS|)
  {
    forall l | l in m ensures (l, m[l]) in ListOf(m, |LABELS|) { Listed(m, l); }
  }

  lemma FreshPending(t: SyncerTasks)
    requires t.counter == 0
    ensures t.PendingBroadcastTxs() == []
  {}

  lemma {:induction false} ListedUpTo<V>(m: map<TxLabel, V>, n: nat, i: nat)
    requires i < n <= |LABELS| && LABELS[i] in m
    ensures (LABELS[i], m[LABELS[i]]) in ListOf(m, n)
  {
    if i < n - 1 { ListedUpTo(m, n - 1, i); }
  }

  lemma Listed<V>(m: map<TxLabel, V>, l: TxLabel)
    requires l in m
    ensures (l, m[l]) in ListOf(m, |LABELS|)
  {
    var i: nat := match l
      case Funding => 0 case Lock => 1 case Buy => 2 case Cancel => 3
      case Refund => 4 case Punish => 5 case AccLock => 6;
    ListedUpTo(m, |LABELS|, i);
  }
}
