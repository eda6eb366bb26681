/** The state of one swapd instance and the messages it takes and sends. */
module SwapRuntime {
  import opened Types
  import opened Temporal
  import opened SyncerClient
  import opened SwapWallet

  /** What stays the same for a swap: the opaque cryptography, the deal, its id and its
      timelock parameters. */
  datatype Swap = Swap(crypto: Crypto, swapId: SwapId, deal: Deal, ts: TemporalSafety) {
    function RoleOf(tradeRole: TradeRole): SwapRole {
      if tradeRole == Maker then deal.makerRole else deal.makerRole.Other()
    }
  }

  datatype FundingInfo =
    | BitcoinFunding(address: nat, amount: nat)
    | MoneroFunding(spend: nat, view: nat, amount: nat)

  datatype SwapStateMachine =
    | StartTaker(role: SwapRole)
    | StartMaker(role: SwapRole)
    | BobInitMaker(local: Params, remoteCommit: Commit, wallet: Wallet)
    | AliceInitMaker(local: Params, remoteCommit: Commit, wallet: Wallet)
    | BobInitTaker(local: Params, wallet: Wallet)
    | AliceInitTaker(local: Params, wallet: Wallet)
    | BobTakerMakerCommit(local: Params, remoteCommit: Commit, wallet: Wallet)
    | AliceTakerMakerCommit(local: Params, remoteCommit: Commit, wallet: Wallet)
    | BobReveal(local: Params, remote: Params, wallet: Wallet)
    | BobFeeEstimated(local: Params, remote: Params, wallet: Wallet, requiredFunding: nat)
    | BobFunded(local: Params, remote: Params, wallet: Wallet)
    | BobRefundProcedureSignatures(local: Params, remote: Params, wallet: Wallet, buySig: BuySignature)
    | BobAccordantLock(local: Params, remote: Params, wallet: Wallet, buySig: BuySignature)
    | BobAccordantLockFinal(local: Params, remote: Params, wallet: Wallet)
    | BobBuyFinal(sweep: Task)
    | BobBuySweeping
    | BobCanceled
    | BobCancelFinal
    | BobAbortAwaitingBitcoinSweep
    | AliceReveal(local: Params, remote: Params, wallet: Wallet)
    | AliceCoreArbitratingSetup(local: Params, remote: Params, wallet: Wallet)
    | AliceArbitratingLockFinal(wallet: Wallet, fundingInfo: FundingInfo, requiredFunding: nat)
    | AliceAccordantLock(wallet: Wallet)
    | AliceBuyProcedureSignature
    | AliceCanceled(wallet: Wallet)
    | AliceRefund(sweep: Task)
    | AliceRefundSweeping
    | SwapEnd(outcome: Outcome)
  {
    predicate EndsIn(o: Outcome) {
      SwapEnd? && outcome == o
    }
  }

  datatype CheckpointSwapd = CheckpointSwapd(
    state: SwapStateMachine,
    pendingMsg: Option<PeerMsg>,
    enquirer: Option<ServiceId>,
    xmrAddrAddendum: Option<XmrAddendum>,
    temporalSafety: TemporalSafety,
    txs: seq<(TxLabel, Tx)>,
    txids: seq<(TxLabel, Txid)>,
    pendingBroadcasts: seq<Tx>,
    tradeRole: TradeRole,
    creationHeight: Option<nat>)

  datatype CtlMsg =
    | TakeSwap(peerd: ServiceId, reportTo: ServiceId, forSwap: SwapId)
    | MakeSwap(peerd: ServiceId, reportTo: ServiceId, commit: Commit)
    | AbortSwap
    | Hello
    | Disconnected
    | Reconnected
    | PeerdReconnected(peerd: ServiceId)
    | FailedPeerMessage(failed: PeerMsg)
    | RestoreCheckpoint(checkpoint: CheckpointSwapd)
    | OtherCtl

  datatype BusMsg = P2p(peer: PeerMsg) | Ctl(ctl: CtlMsg) | Sync(event: SyncEvent)

  /** Everything swapd hands to the message bus. A broadcast task keeps the label that
      is reported with it; broadcasts repeated after a restore have none. */
  datatype Send =
    | ToPeer(msg: PeerMsg)
    | ToSyncer(chain: Blockchain, task: Task)
    | ToBroadcast(lbl: Option<TxLabel>, task: Task)
    | ToDatabase(checkpoint: CheckpointSwapd)
    | SetAddressSecretKey(chain: Blockchain)
    | ToEnquirer(enquirer: ServiceId, info: FundingInfo)
    | FundingCompleted(chain: Blockchain)
    | FundingCanceled(chain: Blockchain)
    | SwapOutcome(outcome: Outcome)
    | ClientInfo
    | ClientFailure

  /** The history of a swapd over all its runs: messages given to the state machine and messages sent. */
  datatype Entry = In(msg: BusMsg) | Out(send: Send)

  /** What a send means for the swap: beginning a run, storing a checkpoint, handing a transaction to the
      chain, proposing the transactions, signing the refund, releasing the Buy signature,
      or a Monero funding message. */
  datatype Kind = Plain | Begin | Store | Publish | Propose | Sign | Release | Fund

  function KindOf(s: Send): Kind {
    match s
    case ToDatabase(_) => Store
    case ToBroadcast(_, _) => Publish
    case ToSyncer(chain, task) => if chain == Bitcoin && task.WatchHeight? then Begin else Plain
    case ToPeer(m) =>
      if m.CoreArbitrating? then Propose else if m.RefundProcedureSignatures? then Sign
      else if m.BuyProcedureSignature? then Release else Plain
    case ToEnquirer(_, info) => if info.MoneroFunding? then Fund else Plain
    case FundingCompleted(chain) => if chain == Monero then Fund else Plain
    case FundingCanceled(chain) => if chain == Monero then Fund else Plain
    case _ => Plain
  }

  /** `b` continues `a` with plain sends and sends of the given kinds. */
  ghost predicate Tail(a: seq<Entry>, b: seq<Entry>, kinds: set<Kind>) {
    a <= b && forall k :: |a| <= k < |b| ==> b[k].Out? && (KindOf(b[k].send).Plain? || KindOf(b[k].send) in kinds)
  }

  const LABELS: seq<TxLabel> := [Funding, Lock, Buy, Cancel, Refund, Punish, AccLock]

  /** The entries of a label map as a list, in label order (the original drains a hash
      map, in any order). */
  function ListOf<V>(m: map<TxLabel, V>, upTo: nat): seq<(TxLabel, V)>
    requires upTo <= |LABELS|
  {
    if upTo == 0 then []
    else if LABELS[upTo - 1] in m then ListOf(m, upTo - 1) + [(LABELS[upTo - 1], m[LABELS[upTo - 1]])]
    else ListOf(m, upTo - 1)
  }

  function Collect<V>(list: seq<(TxLabel, V)>): map<TxLabel, V> {
    if list == [] then map[]
    else Collect(list[..|list| - 1])[list[|list| - 1].0 := list[|list| - 1].1]
  }

  /** What a checkpoint takes from a label map, one label after the other. */
  method Drain<V>(m: map<TxLabel, V>) returns (list: seq<(TxLabel, V)>)
    ensures list == ListOf(m, |LABELS|)
  {
    list := [];
    for i := 0 to |LABELS|
      invariant list == ListOf(m, i)
    {
      if LABELS[i] in m { list := list + [(LABELS[i], m[LABELS[i]])]; }
    }
  }

  /** And what a restore collects again. */
  method Gather<V>(list: seq<(TxLabel, V)>) returns (m: map<TxLabel, V>)
    ensures m == Collect(list)
  {
    m := map[];
    for i := 0 to |list|
      invariant m == Collect(list[..i])
    {
      m := m[list[i].0 := list[i].1];
      assert list[..i + 1][..i] == list[..i];
    }
    assert list[..|list|] == list;
  }

  datatype Rt = Rt(
    ssm: SwapStateMachine,
    txs: map<TxLabel, Tx>,
    syncer: Syncer,
    ts: TemporalSafety,
    enquirer: Option<ServiceId>,
    peerService: ServiceId,
    connected: bool,
    pendingPeerRequests: seq<PeerMsg>,
    unhandledPeerMessage: Option<PeerMsg>,
    tradeRole: TradeRole,
    creationHeight: Option<nat>,
    log: seq<Entry>,
    runStart: nat)
  {
    function Emit(s: Send): Rt {
      this.(log := log + [Out(s)])
    }

    function WithTasks(t: SyncerTasks): Rt {
      this.(syncer := syncer.(tasks := t))
    }

    /** Sends the task registered last to a syncer. */
    function SendTask(chain: Blockchain): Rt {
      Emit(ToSyncer(chain, syncer.tasks.LastTask()))
    }

    function WatchHeightOf(chain: Blockchain): Rt {
      WithTasks(syncer.tasks.Register(WatchHeight(syncer.tasks.counter + 1))).SendTask(chain)
    }

    function WatchBitcoinFee(): Rt {
      WithTasks(syncer.tasks.Register(WatchFee(syncer.tasks.counter + 1))).SendTask(Bitcoin)
    }

    function WatchTxBtc(txid: Txid, l: TxLabel): Rt {
      WithTasks(syncer.tasks.WatchTxBtc(txid, l)).SendTask(Bitcoin)
    }

    function WatchTxXmr(hash: Txid, l: TxLabel): Rt {
      WithTasks(syncer.tasks.WatchTx(hash, l)).SendTask(Monero)
    }

    function RetrieveTxBtc(txid: Txid, l: TxLabel): Rt {
      WithTasks(syncer.tasks.RetrieveTx(txid, l)).SendTask(Bitcoin)
    }

    function WatchAddrXmr(keys: (nat, nat), l: TxLabel, fromHeight: Option<nat>): Rt {
      this.(syncer := syncer.WatchAddrXmr(keys.0, keys.1, l, fromHeight)).SendTask(Monero)
    }

    function Broadcast(tx: Tx, l: Option<TxLabel>): Rt {
      var r := WithTasks(syncer.tasks.Broadcast(tx));
      r.Emit(ToBroadcast(l, r.syncer.tasks.LastTask()))
    }

    function RegisterSweep(keys: SweepKeys, retry: bool): Rt {
      WithTasks(syncer.tasks.Sweep(keys, retry))
    }

    function NoteConfs(id: TaskId, confs: Option<nat>, thr: nat): Rt {
      this.(syncer := syncer.HandleTxConfs(id, confs, thr))
    }

    function AbortAllTasks(): Rt {
      Emit(ToSyncer(Monero, AbortAll)).Emit(ToSyncer(Bitcoin, AbortAll))
    }

    function ForgetTxs(): Rt {
      this.(txs := txs - {Cancel, Refund, Buy, Punish})
    }

    function Awaiting(b: bool): Rt {
      this.(syncer := syncer.(awaitingFunding := b))
    }

    function CheckpointOf(pendingMsg: Option<PeerMsg>, next: SwapStateMachine): CheckpointSwapd {
      CheckpointSwapd(next, pendingMsg, enquirer, syncer.xmrAddrAddendum, ts, ListOf(txs, |LABELS|),
                      ListOf(syncer.tasks.txids, |LABELS|), syncer.tasks.PendingBroadcastTxs(),
                      tradeRole, creationHeight)
    }

    function Checkpoint(pendingMsg: Option<PeerMsg>, next: SwapStateMachine): Rt {
      Emit(ToDatabase(CheckpointOf(pendingMsg, next)))
    }

    /** The label under which a task id is watched on chain. */
    function LabelOf(id: TaskId): Option<TxLabel> {
      if id in syncer.tasks.watchedTxs then Some(syncer.tasks.watchedTxs[id]) else None
    }

    function AddrLabelOf(id: TaskId): Option<TxLabel> {
      if id in syncer.tasks.watchedAddrs then Some(syncer.tasks.watchedAddrs[id]) else None
    }
  }

  /** The result of showing a message to the state machine: no transition, a transition,
      or an error that leaves the machine where it was. Effects on the rest of the runtime
      remain in every case. */
  datatype Step =
    | Stay(rt: Rt)
    | Goto(rt: Rt, next: SwapStateMachine)
    | Fail(rt: Rt, error: Error)

  /** A swap as it is launched: nothing watched, nothing sent. Its history starts after
      that of the processes that ran it before, if there were any. */
  function Launch(x: Swap, tradeRole: TradeRole, before: seq<Entry>): Rt {
    var start := match tradeRole
      case Maker => StartMaker(x.deal.makerRole)
      case Taker => StartTaker(x.deal.makerRole.Other());
    Rt(start, map[], FRESH_SYNCER, x.ts, None, Peerd(0, 0), false, [], None, tradeRole, None, before, |before|)
  }
}
