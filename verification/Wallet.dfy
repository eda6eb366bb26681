/** The wallet of one swap. The state machine owns its wallet by value: a handler works
    on a copy and an error drops that copy, so every call here returns a new wallet. */
module SwapWallet {
  import opened Types

  /** The cryptography and transaction building of the swap, as opaque functions of
      their arguments; `None` and `false` are their failures. */
  datatype Crypto = Crypto(
    generateParams: SwapRole -> Option<Params>,
    commitTo: Params -> nat,
    proofOf: Params -> nat,
    opens: (Commit, Params) -> bool,
    proofVerifies: Reveal -> bool,
    aggregate: (Params, Params) -> (nat, nat),
    fundingAddress: Params -> nat,
    fundingFee: nat -> nat,
    fundingAccepts: Tx -> bool,
    coreArbitrating: (Tx, Params, Params) -> Option<CoreArbitratingSetup>,
    adaptRefund: (CoreArbitratingSetup, Params, Params) -> Option<nat>,
    cosignCancel: (CoreArbitratingSetup, Params, Params) -> Option<nat>,
    completePunish: (CoreArbitratingSetup, Params, Params) -> Option<Tx>,
    refundVerifies: (CoreArbitratingSetup, RefundSignatures) -> bool,
    signBuy: (CoreArbitratingSetup, RefundSignatures) -> Option<BuySignature>,
    completesLock: (CoreArbitratingSetup, RefundSignatures) -> bool,
    buyVerifies: (CoreArbitratingSetup, BuySignature) -> bool,
    bitcoinKey: Params -> Option<nat>,
    moneroKey: (Tx, Params) -> Option<nat>)

  datatype Wallet =
    | AliceWallet(tradeRole: TradeRole, localParams: Params, remoteCommit: Option<Commit>,
                  remoteParams: Option<Params>, remoteProof: Option<nat>,
                  coreArbSetup: Option<CoreArbitratingSetup>, cancelSignature: Option<nat>,
                  adaptorRefund: Option<nat>)
    | BobWallet(tradeRole: TradeRole, localParams: Params, remoteCommit: Option<Commit>,
                remoteParams: Option<Params>, remoteProof: Option<nat>, fundingTx: Option<Tx>,
                coreArbSetup: Option<CoreArbitratingSetup>, adaptorBuy: Option<BuySignature>)

  datatype WalletResult<+T> = Done(wallet: Wallet, value: T) | Failed(error: Error)

  /** Shared by `new_taker` and `new_maker`, which differ in the commitment they start with. */
  function NewWallet(c: Crypto, role: SwapRole, tradeRole: TradeRole, remoteCommit: Option<Commit>): Option<Wallet> {
    match c.generateParams(role)
    case None => None
    case Some(params) =>
      Some(match role
           case Alice => AliceWallet(tradeRole, params.(role := Alice), remoteCommit, None, None, None, None, None)
           case Bob => BobWallet(tradeRole, params.(role := Bob), remoteCommit, None, None, None, None, None))
  }

  function NewTaker(c: Crypto, deal: Deal): Option<Wallet> {
    NewWallet(c, deal.makerRole.Other(), Taker, None)
  }

  /** A maker's wallet, or `PeerFault` when the taker committed in the maker's own role. */
  function NewMaker(c: Crypto, deal: Deal, remoteCommit: Commit): WalletResult<()> {
    match NewWallet(c, deal.makerRole, Maker, Some(remoteCommit))
    case None => Failed(CryptoFailure)
    case Some(w) => if remoteCommit.role == deal.makerRole then Failed(PeerFault) else Done(w, ())
  }

  function OwnReveal(c: Crypto, w: Wallet): Reveal {
    Reveal(w.localParams, c.proofOf(w.localParams))
  }

  /** A second commitment is reported and ignored, not refused. */
  function HandleMakerCommit(c: Crypto, w: Wallet, commit: Commit): WalletResult<Reveal> {
    if w.AliceWallet? != (commit.role == Bob) then Failed(PeerFault)
    else
      var w' := if w.remoteCommit.Some? then w else w.(remoteCommit := Some(commit));
      Done(w', OwnReveal(c, w'))
  }

  /** `handle_bob_reveals` on Alice's wallet and `handle_alice_reveals` on Bob's. The own
      reveal comes back when the wallet belongs to the maker. */
  function HandleReveal(c: Crypto, w: Wallet, role: SwapRole, deal: Deal, rev: Reveal): WalletResult<Option<Reveal>> {
    if rev.params.role == role then Failed(WrongStage)
    else if w.AliceWallet? != (role == Alice) || w.remoteCommit.None? then Failed(WrongStage)
    else if w.remoteParams.Some? || w.remoteProof.Some? then Failed(WrongStage)
    else if !c.opens(w.remoteCommit.value, rev.params) || !c.proofVerifies(rev) then Failed(CryptoFailure)
    else
      var w' := w.(remoteParams := Some(rev.params), remoteProof := Some(rev.proof));
      Done(w', if deal.makerRole == role then Some(OwnReveal(c, w')) else None)
  }

  function ProcessFundingTx(c: Crypto, w: Wallet, tx: Tx): WalletResult<()> {
    if !w.BobWallet? || w.fundingTx.Some? then Failed(WrongStage)
    else if !c.fundingAccepts(tx) then Failed(CryptoFailure)
    else Done(w.(fundingTx := Some(tx)), ())
  }

  function CreateCoreArb(c: Crypto, w: Wallet): WalletResult<CoreArbitratingSetup> {
    if !w.BobWallet? || w.coreArbSetup.Some? || w.fundingTx.None? then Failed(WrongStage)
    else if w.remoteParams.None? then Failed(Panic)
    else match c.coreArbitrating(w.fundingTx.value, w.localParams, w.remoteParams.value)
      case None => Failed(CryptoFailure)
      case Some(setup) => Done(w.(coreArbSetup := Some(setup)), setup)
  }

  /** Bob checks Alice's refund signatures, signs Buy and completes Lock, Cancel and Refund. */
  function HandleRefundProcedureSignatures(c: Crypto, w: Wallet, sigs: RefundSignatures): WalletResult<BuySignature> {
    if !w.BobWallet? || w.remoteParams.None? || w.coreArbSetup.None? then Failed(WrongStage)
    else if !c.refundVerifies(w.coreArbSetup.value, sigs) then Failed(CryptoFailure)
    else if w.adaptorBuy.Some? then Failed(WrongStage)
    else match c.signBuy(w.coreArbSetup.value, sigs)
      case None => Failed(CryptoFailure)
      case Some(buySig) =>
        if !c.completesLock(w.coreArbSetup.value, sigs) then Failed(CryptoFailure)
        else Done(w.(adaptorBuy := Some(buySig)), buySig)
  }

  /** Alice signs refund and cancel; the value also carries her Punish transaction. */
  function HandleCoreArbitratingSetup(c: Crypto, w: Wallet,
      setup: CoreArbitratingSetup): WalletResult<(RefundSignatures, Tx)> {
    if !w.AliceWallet? || w.remoteParams.None? then Failed(WrongStage)
    else if w.coreArbSetup.Some? || w.cancelSignature.Some? then Failed(WrongStage)
    else
      var refund := c.adaptRefund(setup, w.localParams, w.remoteParams.value);
      var cancel := c.cosignCancel(setup, w.localParams, w.remoteParams.value);
      var punish := c.completePunish(setup, w.localParams, w.remoteParams.value);
      if refund.None? || cancel.None? || punish.None? then Failed(CryptoFailure)
      else
        Done(w.(coreArbSetup := Some(setup), adaptorRefund := refund, cancelSignature := cancel),
             (RefundSignatures(cancel.value, refund.value), punish.value))
  }

  /** Alice completes Cancel and Buy; the value is the pair of both. */
  function HandleBuyProcedureSignature(c: Crypto, w: Wallet, buySig: BuySignature): WalletResult<(Tx, Tx)> {
    if !w.AliceWallet? || w.remoteParams.None? || w.coreArbSetup.None? || w.cancelSignature.None?
    then Failed(WrongStage)
    else if !c.buyVerifies(w.coreArbSetup.value, buySig) then Failed(CryptoFailure)
    else Done(w, (Tx(w.coreArbSetup.value.cancel), Tx(buySig.buy)))
  }

  /** The full Monero key from the Buy transaction Alice published. */
  function ProcessBuyTx(c: Crypto, w: Wallet, deal: Deal, buy: Tx, height: Option<nat>): WalletResult<SweepKeys> {
    if !w.BobWallet? || w.remoteParams.None? || w.adaptorBuy.None? then Failed(WrongStage)
    else match c.moneroKey(buy, w.localParams)
      case None => Failed(CryptoFailure)
      case Some(key) => Done(w, SweepMonero(key, deal.accordantAmount, height))
  }

  /** The full Monero key from the Refund transaction Bob published. */
  function ProcessRefundTx(c: Crypto, w: Wallet, deal: Deal, refund: Tx, height: Option<nat>): WalletResult<SweepKeys> {
    if !w.AliceWallet? || w.remoteParams.None? || w.adaptorRefund.None? then Failed(WrongStage)
    else match c.moneroKey(refund, w.localParams)
      case None => Failed(CryptoFailure)
      case Some(key) => Done(w, SweepMonero(key, deal.accordantAmount, height))
  }

  function SweepBitcoinKeys(c: Crypto, w: Wallet): WalletResult<SweepKeys> {
    if !w.BobWallet? then Failed(WrongStage)
    else match c.bitcoinKey(w.localParams)
      case None => Failed(CryptoFailure)
      case Some(key) => Done(w, SweepBitcoin(key))
  }

  // ----- stages -----

  ghost predicate FreshWallet(w: Wallet, role: SwapRole) {
    && w.AliceWallet? == (role == Alice)
    && w.localParams.role == role
    && w.remoteParams.None? && w.remoteProof.None? && w.coreArbSetup.None?
    && (w.AliceWallet? ==> w.cancelSignature.None? && w.adaptorRefund.None?)
    && (w.BobWallet? ==> w.fundingTx.None? && w.adaptorBuy.None?)
  }

  /** Waiting for the counterparty's commitment. */
  ghost predicate AwaitsCommit(w: Wallet, role: SwapRole) {
    FreshWallet(w, role) && w.remoteCommit.None?
  }

  ghost predicate AwaitsReveal(w: Wallet, role: SwapRole) {
    FreshWallet(w, role) && w.remoteCommit.Some? && w.remoteCommit.value.role != role
  }

  /** Both parameters are known, nothing is signed and nothing is funded. */
  ghost predicate Revealed(w: Wallet, role: SwapRole) {
    && w.AliceWallet? == (role == Alice)
    && w.localParams.role == role
    && w.remoteCommit.Some?
    && w.remoteParams.Some? && w.remoteParams.value.role != role
    && w.coreArbSetup.None?
    && (w.AliceWallet? ==> w.cancelSignature.None? && w.adaptorRefund.None?)
    && (w.BobWallet? ==> w.fundingTx.None? && w.adaptorBuy.None?)
  }

  ghost predicate AliceSigned(w: Wallet) {
    && w.AliceWallet? && w.localParams.role == Alice
    && w.remoteParams.Some? && w.remoteParams.value.role == Bob
    && w.coreArbSetup.Some? && w.cancelSignature.Some? && w.adaptorRefund.Some?
  }

  ghost predicate BobSetUp(w: Wallet) {
    && w.BobWallet? && w.localParams.role == Bob
    && w.remoteParams.Some? && w.remoteParams.value.role == Alice
    && w.fundingTx.Some? && w.coreArbSetup.Some? && w.adaptorBuy.None?
  }

  ghost predicate BobSigned(w: Wallet) {
    && w.BobWallet? && w.localParams.role == Bob
    && w.remoteParams.Some? && w.remoteParams.value.role == Alice
    && w.coreArbSetup.Some? && w.adaptorBuy.Some?
  }
}
