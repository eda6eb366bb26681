/** The task tables swapd keeps about its two syncers. `SyncerTasks` and `Syncer` are
    the values of the tables, with one function per operation of the client. */
module SyncerClient {
  import opened Types

  datatype SyncerTasks = SyncerTasks(
    counter: nat,
    watchedTxs: map<TaskId, TxLabel>,
    finalTxs: set<TxLabel>,
    watchedAddrs: map<TaskId, TxLabel>,
    retrievingTxs: map<TaskId, (TxLabel, Task)>,
    broadcastingTxs: set<TaskId>,
    sweepingAddr: Option<TaskId>,
    txids: map<TxLabel, Txid>,
    tasks: map<TaskId, Task>)
  {
    ghost predicate WatchesTx(l: TxLabel) {
      exists id :: id in watchedTxs && watchedTxs[id] == l
    }

    ghost predicate WatchesAddr(l: TxLabel) {
      exists id :: id in watchedAddrs && watchedAddrs[id] == l
    }

    ghost predicate Retrieves(l: TxLabel) {
      exists id :: id in retrievingTxs && retrievingTxs[id].0 == l
    }

    ghost predicate IdsBounded() {
      && (forall id :: id in watchedTxs ==> id <= counter)
      && (forall id :: id in watchedAddrs ==> id <= counter)
      && (forall id :: id in retrievingTxs ==> id <= counter)
      && (forall id :: id in broadcastingTxs ==> id <= counter)
      && (forall id :: id in tasks ==> id <= counter)
      && (sweepingAddr.Some? ==> sweepingAddr.value <= counter)
    }

    ghost predicate TablesDisjoint() {
      && (forall id :: id in watchedTxs ==> id !in watchedAddrs && id !in retrievingTxs && id !in broadcastingTxs)
      && (forall id :: id in watchedAddrs ==> id !in retrievingTxs && id !in broadcastingTxs)
      && (forall id :: id in retrievingTxs ==> id !in broadcastingTxs)
    }

    /** Every table entry has the task it was made for. */
    ghost predicate TasksMatch() {
      && (forall id :: id in broadcastingTxs ==> id in tasks && tasks[id].BroadcastTransaction? && tasks[id].id == id)
      && (forall id :: id in watchedTxs && id in tasks ==> tasks[id].WatchTransaction? && tasks[id].id == id)
      && (forall id :: id in retrievingTxs ==> retrievingTxs[id].1.GetTx? && retrievingTxs[id].1.id == id)
    }

    ghost predicate TxidsWatched() {
      forall l :: l in txids ==> WatchesTx(l)
    }

    ghost predicate Valid() {
      IdsBounded() && TablesDisjoint() && TasksMatch() && TxidsWatched()
    }

    /** What no operation of the client takes back: a watch once registered. */
    ghost predicate KeepsWatches(r: SyncerTasks) {
      && counter <= r.counter
      && (forall id :: id in watchedTxs ==> id in r.watchedTxs && r.watchedTxs[id] == watchedTxs[id])
      && (forall l :: WatchesTx(l) ==> r.WatchesTx(l))
    }

    // ----- operations -----

    /** Registers a task that no table refers to. */
    function Register(task: Task): SyncerTasks {
      this.(counter := counter + 1, tasks := tasks[counter + 1 := task])
    }

    function WatchTx(hash: Txid, l: TxLabel): SyncerTasks {
      var id := counter + 1;
      Register(WatchTransaction(id, hash)).(watchedTxs := watchedTxs[id := l])
    }

    /** Bitcoin transactions are remembered by label in `txids` as well. */
    function WatchTxBtc(txid: Txid, l: TxLabel): SyncerTasks {
      WatchTx(txid, l).(txids := txids[l := txid])
    }

    function RetrieveTx(txid: Txid, l: TxLabel): SyncerTasks {
      var id := counter + 1;
      var task := GetTx(id, txid);
      Register(task).(retrievingTxs := retrievingTxs[id := (l, task)])
    }

    function WatchAddr(task: Task, l: TxLabel): SyncerTasks {
      Register(task).(watchedAddrs := watchedAddrs[counter + 1 := l])
    }

    function Sweep(keys: SweepKeys, retry: bool): SyncerTasks {
      var id := counter + 1;
      Register(SweepAddress(id, keys, retry)).(sweepingAddr := Some(id))
    }

    function Broadcast(tx: Tx): SyncerTasks {
      var id := counter + 1;
      Register(BroadcastTransaction(id, tx)).(broadcastingTxs := broadcastingTxs + {id})
    }

    function TransactionBroadcasted(id: TaskId): SyncerTasks {
      this.(broadcastingTxs := broadcastingTxs - {id}, tasks := tasks - {id})
    }

    /** The task registered last, as it is sent to the syncer. */
    function LastTask(): Task {
      if counter in tasks then tasks[counter] else AbortAll
    }

    /** The transactions handed to the syncer and not reported as broadcast, in the order of
        their task ids (the original iterates over a hash set, in any order). */
    function PendingBroadcasts(upTo: nat): seq<Tx> {
      if upTo == 0 then []
      else if upTo in broadcastingTxs && upTo in tasks && tasks[upTo].BroadcastTransaction?
      then PendingBroadcasts(upTo - 1) + [tasks[upTo].tx]
      else PendingBroadcasts(upTo - 1)
    }

    function PendingBroadcastTxs(): seq<Tx> {
      PendingBroadcasts(counter)
    }

    // ----- every operation keeps the tables consistent -----

    lemma WatchesGrow(r: SyncerTasks)
      requires counter <= r.counter
      requires forall id :: id in watchedTxs ==> id in r.watchedTxs && r.watchedTxs[id] == watchedTxs[id]
      ensures KeepsWatches(r)
    {
      forall l | WatchesTx(l) ensures r.WatchesTx(l) {
        var id :| id in watchedTxs && watchedTxs[id] == l;
        assert id in r.watchedTxs && r.watchedTxs[id] == l;
      }
    }

    lemma RegisterKeeps(task: Task)
      requires Valid()
      ensures Register(task).Valid() && KeepsWatches(Register(task))
    {
      WatchesGrow(Register(task));
    }

    lemma WatchTxKeeps(hash: Txid, l: TxLabel)
      requires Valid()
      ensures WatchTx(hash, l).Valid() && KeepsWatches(WatchTx(hash, l))
      ensures WatchTx(hash, l).WatchesTx(l)
    {
      var r := WatchTx(hash, l);
      WatchesGrow(r);
      assert r.counter in r.watchedTxs && r.watchedTxs[r.counter] == l;
    }

    lemma WatchTxBtcKeeps(txid: Txid, l: TxLabel)
      requires Valid()
      ensures WatchTxBtc(txid, l).Valid() && KeepsWatches(WatchTxBtc(txid, l))
      ensures WatchTxBtc(txid, l).WatchesTx(l)
    {
      WatchTxKeeps(txid, l);
      WatchTx(txid, l).WatchesGrow(WatchTxBtc(txid, l));
      WatchesGrow(WatchTxBtc(txid, l));
    }

    lemma RetrieveTxKeeps(txid: Txid, l: TxLabel)
      requires Valid()
      ensures RetrieveTx(txid, l).Valid() && KeepsWatches(RetrieveTx(txid, l))
      ensures RetrieveTx(txid, l).Retrieves(l)
    {
      var r := RetrieveTx(txid, l);
      WatchesGrow(r);
      assert r.counter in r.retrievingTxs && r.retrievingTxs[r.counter].0 == l;
    }

    lemma WatchAddrKeeps(task: Task, l: TxLabel)
      requires Valid()
      ensures WatchAddr(task, l).Valid() && KeepsWatches(WatchAddr(task, l))
      ensures WatchAddr(task, l).WatchesAddr(l)
    {
      var r := WatchAddr(task, l);
      WatchesGrow(r);
      assert r.counter in r.watchedAddrs && r.watchedAddrs[r.counter] == l;
    }

    lemma SweepKeeps(keys: SweepKeys, retry: bool)
      requires Valid()
      ensures Sweep(keys, retry).Valid() && KeepsWatches(Sweep(keys, retry))
    {
      WatchesGrow(Sweep(keys, retry));
    }

    lemma BroadcastKeeps(tx: Tx)
      requires Valid()
      ensures Broadcast(tx).Valid() && KeepsWatches(Broadcast(tx))
    {
      WatchesGrow(Broadcast(tx));
    }

    lemma TransactionBroadcastedKeeps(id: TaskId)
      requires Valid()
      ensures TransactionBroadcasted(id).Valid() && KeepsWatches(TransactionBroadcasted(id))
    {
      WatchesGrow(TransactionBroadcasted(id));
    }

    /** Forgetting an address watch, a retrieval or a label, as the handlers do, is safe too. */
    lemma ForgettingKeeps(r: SyncerTasks)
      requires Valid()
      requires r == this.(watchedAddrs := r.watchedAddrs, retrievingTxs := r.retrievingTxs, txids := r.txids,
                          finalTxs := r.finalTxs)
      requires r.txids.Keys <= txids.Keys
      requires forall id :: id in r.watchedAddrs ==> id in watchedAddrs
      requires forall id :: id in r.retrievingTxs ==> id in retrievingTxs && r.retrievingTxs[id] == retrievingTxs[id]
      ensures r.Valid() && KeepsWatches(r)
    {
      WatchesGrow(r);
    }
  }

  /** The client: the tables, the chain heights and the messages kept for replay. */
  datatype Syncer = Syncer(
    tasks: SyncerTasks,
    bitcoinHeight: nat,
    moneroHeight: nat,
    lockTxConfs: Option<KeptConfs>,
    cancelTxConfs: Option<KeptConfs>,
    buyTxConfs: Option<KeptConfs>,
    xmrAddrAddendum: Option<XmrAddendum>,
    confirmations: map<TxLabel, Option<nat>>,
    awaitingFunding: bool)
  {
    /** A kept message is about a watched transaction with the label of its slot. */
    ghost predicate Caches(slot: Option<KeptConfs>, l: TxLabel) {
      slot.Some? ==> slot.value.id in tasks.watchedTxs && tasks.watchedTxs[slot.value.id] == l
    }

    ghost predicate CachesMatch() {
      && Caches(lockTxConfs, Lock)
      && Caches(cancelTxConfs, Cancel)
      && Caches(buyTxConfs, Buy)
    }

    function Height(chain: Blockchain): nat {
      match chain case Bitcoin => bitcoinHeight case Monero => moneroHeight
    }

    function FromHeight(chain: Blockchain, delta: nat): nat {
      var height := Height(chain);
      height - (if height > delta then delta else height)
    }

    function HandleHeightChange(newHeight: nat, chain: Blockchain): Syncer {
      if newHeight <= Height(chain) then this
      else match chain
        case Bitcoin => this.(bitcoinHeight := newHeight)
        case Monero => this.(moneroHeight := newHeight)
    }

    function WatchAddrBtc(address: nat, l: TxLabel): Syncer {
      this.(tasks := tasks.WatchAddr(WatchAddressBtc(tasks.counter + 1, address, FromHeight(Bitcoin, 6)), l))
    }

    function WatchAddrXmr(spend: nat, view: nat, l: TxLabel, fromHeight: Option<nat>): Syncer {
      var height := if fromHeight.Some? then fromHeight.value else FromHeight(Monero, 20);
      var addendum := XmrAddendum(spend, view, height);
      this.(xmrAddrAddendum := Some(addendum),
            tasks := tasks.WatchAddr(WatchAddressXmr(tasks.counter + 1, addendum), l))
    }

    function HandleTxConfs(id: TaskId, confs: Option<nat>, finalityThr: nat): Syncer {
      if id !in tasks.watchedTxs then this
      else
        var l := tasks.watchedTxs[id];
        this.(tasks := if confs.Some? && confs.value >= finalityThr
                       then tasks.(finalTxs := tasks.finalTxs + {l}) else tasks,
              confirmations := confirmations[l := confs])
    }

    /** Remembers the latest confirmation of Lock, Cancel and Buy for later replay. */
    function Cache(id: TaskId, count: nat): Syncer {
      if id !in tasks.watchedTxs then this
      else match tasks.watchedTxs[id]
        case Lock => this.(lockTxConfs := Some(KeptConfs(id, count)))
        case Cancel => this.(cancelTxConfs := Some(KeptConfs(id, count)))
        case Buy => this.(buyTxConfs := Some(KeptConfs(id, count)))
        case _ => this
    }
  }

  /** The client of a swap that was just launched. */
  const FRESH_SYNCER :=
    Syncer.Syncer(SyncerTasks.SyncerTasks(0, map[], {}, map[], map[], {}, None, map[], map[]),
                  0, 0, None, None, None, None, map[], false)
}
