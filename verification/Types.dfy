/** The vocabulary shared by every daemon of the node: roles, labels, opaque
    transactions and cryptographic values, peer messages, syncer tasks and events. */
module Types {

  datatype Option<+T> = None | Some(value: T)

  datatype Blockchain = Bitcoin | Monero

  datatype SwapRole = Alice | Bob {
    function Other(): SwapRole {
      if this == Alice then Bob else Alice
    }
  }

  datatype TradeRole = Maker | Taker

  datatype Outcome = SuccessSwap | FailureRefund | FailurePunish | FailureAbort

  datatype TxLabel = Funding | Lock | Buy | Cancel | Refund | Punish | AccLock

  /** Transaction hashes, of either chain. */
  type Txid = nat
  type TaskId = nat
  type SwapId = nat

  /** A bitcoin transaction. Adding witnesses does not change its txid. */
  datatype Tx = Tx(txid: Txid)

  /** Public parameters of one swap role; `key` stands for everything inside them. */
  datatype Params = Params(role: SwapRole, key: nat)

  datatype Commit = Commit(role: SwapRole, digest: nat)

  datatype Reveal = Reveal(params: Params, proof: nat)

  /** The partially signed Lock, Cancel and Refund transactions, by txid. */
  datatype CoreArbitratingSetup = Setup(lock: Txid, cancel: Txid, refund: Txid, cancelSig: nat)

  datatype RefundSignatures = RefundSignatures(cancelSig: nat, adaptorRefund: nat)

  /** Bob's adaptor-signed Buy transaction. */
  datatype BuySignature = BuySignature(buy: Txid, sig: nat)

  datatype Deal = Deal(
    id: nat,
    makerRole: SwapRole,
    arbitratingAmount: nat,
    accordantAmount: nat)

  datatype PeerMsg =
    | MakerCommit(swapId: SwapId, commit: Commit)
    | TakerCommit(swapId: SwapId, commit: Commit, deal: Deal)
    | DealNotFound(swapId: SwapId)
    | RevealMsg(swapId: SwapId, rev: Reveal)
    | CoreArbitrating(swapId: SwapId, setup: CoreArbitratingSetup)
    | RefundProcedureSignatures(swapId: SwapId, sigs: RefundSignatures)
    | BuyProcedureSignature(swapId: SwapId, buySig: BuySignature)
    | PeerAbort(swapId: SwapId)
    | PingPong(swapId: SwapId)

  /** Addresses on the service bus. A peerd on thread 0 is the placeholder for a
      connection that does not exist yet. */
  datatype ServiceId =
    | Swapd(swap: SwapId)
    | Peerd(thread: nat, node: nat)
    | Loopback
    | Farcasterd
    | Database
    | WalletService
    | Syncer(chain: Blockchain)
    | Client(client: nat)

  datatype XmrAddendum = XmrAddendum(spendKey: nat, viewKey: nat, fromHeight: nat)

  datatype SweepKeys =
    | SweepMonero(spend: nat, minimumBalance: nat, since: Option<nat>)
    | SweepBitcoin(secret: nat)

  datatype Task =
    | WatchHeight(id: TaskId)
    | WatchFee(id: TaskId)
    | WatchTransaction(id: TaskId, hash: Txid)
    | WatchAddressBtc(id: TaskId, address: nat, fromHeight: nat)
    | WatchAddressXmr(id: TaskId, addendum: XmrAddendum)
    | GetTx(id: TaskId, hash: Txid)
    | BroadcastTransaction(id: TaskId, tx: Tx)
    | SweepAddress(id: TaskId, keys: SweepKeys, retry: bool)
    | AbortTask(target: TaskId)
    | AbortAll

  datatype SyncEvent =
    | HeightChanged(height: nat)
    | TransactionConfirmations(id: TaskId, confirmations: Option<nat>)
    | TransactionBroadcasted(id: TaskId)
    | AddressTransaction(id: TaskId, hash: Txid, amount: nat, incoming: bool, tx: Option<Tx>)
    | TransactionRetrieved(id: TaskId, found: Option<Tx>)
    | SweepSuccess(id: TaskId)
    | TaskAborted(ids: seq<TaskId>)
    | FeeEstimation(rate: nat)
    | Empty(id: TaskId)
    | OtherEvent

  /** A confirmation message with a count, as it is kept for replay. */
  datatype KeptConfs = KeptConfs(id: TaskId, count: nat) {
    function Event(): SyncEvent {
      TransactionConfirmations(id, Some(count))
    }
  }

  /** Why a handler stopped. `CryptoFailure` covers every failure inside the
      opaque cryptographic calls, `PeerFault` a message the counterparty should not
      have sent, and `WrongStage` and `Panic` the branches meant to be unreachable. */
  datatype Error = CryptoFailure | PeerFault | WrongStage | Panic
}
