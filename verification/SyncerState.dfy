/** The syncer client as swapd runs it: one object whose tables are changed in place. Every
    method does to the object what the function of the same name does to its value. */
module SyncerStates {
  import opened Types
  import opened SyncerClient

  class SyncerState {
    // the task tables
    var counter: nat
    var watchedTxs: map<TaskId, TxLabel>
    var finalTxs: set<TxLabel>
    var watchedAddrs: map<TaskId, TxLabel>
    var retrievingTxs: map<TaskId, (TxLabel, Task)>
    var broadcastingTxs: set<TaskId>
    var sweepingAddr: Option<TaskId>
    var txids: map<TxLabel, Txid>
    var tasks: map<TaskId, Task>
    // the rest of the client
    var bitcoinHeight: nat
    var moneroHeight: nat
    var lockTxConfs: Option<KeptConfs>
    var cancelTxConfs: Option<KeptConfs>
    var buyTxConfs: Option<KeptConfs>
    var xmrAddrAddendum: Option<XmrAddendum>
    var confirmations: map<TxLabel, Option<nat>>
    var awaitingFunding: bool

    ghost function Tables(): SyncerTasks
      reads this
    {
      SyncerTasks.SyncerTasks(counter, watchedTxs, finalTxs, watchedAddrs, retrievingTxs, broadcastingTxs, sweepingAddr,
                              txids, tasks)
    }

    ghost function View(): Syncer
      reads this
    {
      Syncer.Syncer(Tables(), bitcoinHeight, moneroHeight, lockTxConfs, cancelTxConfs, buyTxConfs, xmrAddrAddendum,
                    confirmations, awaitingFunding)
    }

    constructor ()
      ensures View() == FRESH_SYNCER
    {
      counter, watchedTxs, finalTxs, watchedAddrs := 0, map[], {}, map[];
      retrievingTxs, broadcastingTxs, sweepingAddr, txids, tasks := map[], {}, None, map[], map[];
      bitcoinHeight, moneroHeight, lockTxConfs, cancelTxConfs, buyTxConfs := 0, 0, None, None, None;
      xmrAddrAddendum, confirmations, awaitingFunding := None, map[], false;
    }

    method NewTaskId() returns (id: TaskId)
      modifies this
      ensures id == old(counter) + 1
      ensures View() == old(View()).(tasks := old(Tables()).(counter := id))
    {
      counter := counter + 1;
      id := counter;
    }

    method Height(chain: Blockchain) returns (height: nat)
      ensures height == View().Height(chain)
    {
      match chain
      case Bitcoin => height := bitcoinHeight;
      case Monero => height := moneroHeight;
    }

    /** At most `delta` blocks back, and fewer only where the chain starts. */
    method FromHeight(chain: Blockchain, delta: nat) returns (from: nat)
      ensures from <= View().Height(chain) <= from + delta
      ensures from + delta == View().Height(chain) || from == 0
      ensures from == View().FromHeight(chain, delta)
    {
      var height := Height(chain);
      from := height - (if height > delta then delta else height);
    }

    method HandleHeightChange(newHeight: nat, chain: Blockchain)
      modifies this
      ensures View() == old(View()).HandleHeightChange(newHeight, chain)
    {
      var height := Height(chain);
      if newHeight > height {
        match chain
        case Bitcoin => bitcoinHeight := newHeight;
        case Monero => moneroHeight := newHeight;
      }
    }

    method EstimateFeeBtc() returns (task: Task)
      modifies this
      ensures View() == old(View()).(tasks := old(Tables()).Register(WatchFee(old(counter) + 1)))
      ensures task == Tables().LastTask()
    {
      var id := NewTaskId();
      task := WatchFee(id);
      tasks := tasks[id := task];
    }

    method WatchTxBtc(txid: Txid, l: TxLabel) returns (task: Task)
      modifies this
      ensures View() == old(View()).(tasks := old(Tables()).WatchTxBtc(txid, l))
      ensures task == Tables().LastTask()
    {
      var id := NewTaskId();
      watchedTxs := watchedTxs[id := l];
      txids := txids[l := txid];
      task := WatchTransaction(id, txid);
      tasks := tasks[id := task];
    }

    method WatchTxXmr(hash: Txid, l: TxLabel) returns (task: Task)
      modifies this
      ensures View() == old(View()).(tasks := old(Tables()).WatchTx(hash, l))
      ensures task == Tables().LastTask()
    {
      var id := NewTaskId();
      watchedTxs := watchedTxs[id := l];
      task := WatchTransaction(id, hash);
      tasks := tasks[id := task];
    }

    method RetrieveTxBtc(txid: Txid, l: TxLabel) returns (task: Task)
      modifies this
      ensures View() == old(View()).(tasks := old(Tables()).RetrieveTx(txid, l))
      ensures task == Tables().LastTask()
    {
      var id := NewTaskId();
      task := GetTx(id, txid);
      retrievingTxs := retrievingTxs[id := (l, task)];
      tasks := tasks[id := task];
    }

    method WatchAddrBtc(address: nat, l: TxLabel) returns (task: Task)
      modifies this
      ensures View() == old(View()).WatchAddrBtc(address, l)
      ensures task == Tables().LastTask()
    {
      var id := NewTaskId();
      var from := FromHeight(Bitcoin, 6);
      watchedAddrs := watchedAddrs[id := l];
      task := WatchAddressBtc(id, address, from);
      tasks := tasks[id := task];
    }

    method WatchAddrXmr(spend: nat, view: nat, l: TxLabel, fromHeight: Option<nat>) returns (task: Task)
      modifies this
      ensures View() == old(View()).WatchAddrXmr(spend, view, l, fromHeight)
      ensures task == Tables().LastTask()
    {
      var default := FromHeight(Monero, 20);
      var from := match fromHeight case Some(h) => h case None => default;
      var addendum := XmrAddendum(spend, view, from);
      xmrAddrAddendum := Some(addendum);
      var id := NewTaskId();
      watchedAddrs := watchedAddrs[id := l];
      task := WatchAddressXmr(id, addendum);
      tasks := tasks[id := task];
    }

    method WatchHeightOf() returns (task: Task)
      modifies this
      ensures View() == old(View()).(tasks := old(Tables()).Register(WatchHeight(old(counter) + 1)))
      ensures task == Tables().LastTask()
    {
      var id := NewTaskId();
      task := WatchHeight(id);
      tasks := tasks[id := task];
    }

    method Sweep(keys: SweepKeys, retry: bool) returns (task: Task)
      modifies this
      ensures View() == old(View()).(tasks := old(Tables()).Sweep(keys, retry))
      ensures task == Tables().LastTask()
    {
      var id := NewTaskId();
      sweepingAddr := Some(id);
      task := SweepAddress(id, keys, retry);
      tasks := tasks[id := task];
    }

    method Broadcast(tx: Tx) returns (task: Task)
      modifies this
      ensures View() == old(View()).(tasks := old(Tables()).Broadcast(tx))
      ensures task == Tables().LastTask()
    {
      var id := NewTaskId();
      task := BroadcastTransaction(id, tx);
      tasks := tasks[id := task];
      broadcastingTxs := broadcastingTxs + {id};
    }

    method TransactionBroadcasted(id: TaskId)
      modifies this
      ensures View() == old(View()).(tasks := old(Tables()).TransactionBroadcasted(id))
    {
      broadcastingTxs := broadcastingTxs - {id};
      tasks := tasks - {id};
    }

    /** Collects what is still to be reported as broadcast. */
    method PendingBroadcastTxs() returns (pending: seq<Tx>)
      ensures pending == Tables().PendingBroadcastTxs()
    {
      pending := [];
      for id := 1 to counter + 1
        invariant pending == Tables().PendingBroadcasts(id - 1)
      {
        if id in broadcastingTxs && id in tasks && tasks[id].BroadcastTransaction? {
          pending := pending + [tasks[id].tx];
        }
      }
    }

    method HandleTxConfs(id: TaskId, confs: Option<nat>, finalityThr: nat)
      modifies this
      ensures View() == old(View()).HandleTxConfs(id, confs, finalityThr)
    {
      if id in watchedTxs {
        var l := watchedTxs[id];
        if l !in finalTxs && confs.Some? && confs.value >= finalityThr {
          finalTxs := finalTxs + {l};
        }
        confirmations := confirmations[l := confs];
      }
    }

    /** Remembers the latest confirmation of Lock, Cancel and Buy for later replay. */
    method Cache(id: TaskId, count: nat)
      modifies this
      ensures View() == old(View()).Cache(id, count)
    {
      if id in watchedTxs {
        match watchedTxs[id]
        case Lock => lockTxConfs := Some(KeptConfs(id, count));
        case Cancel => cancelTxConfs := Some(KeptConfs(id, count));
        case Buy => buyTxConfs := Some(KeptConfs(id, count));
        case _ =>
      }
    }
  }
}
