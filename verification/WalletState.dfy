/** The wallet as an object: its optional fields are set one after the other as the swap
    advances. A failed call can leave them half set; the machine calls a copy and drops it. */
module WalletStates {
  import opened Types
  import opened SwapWallet

  datatype Called<+T> = Returned(value: T) | Raised(error: Error)

  class WalletState {
    const role: SwapRole
    const tradeRole: TradeRole
    const localParams: Params
    var remoteCommit: Option<Commit>
    var remoteParams: Option<Params>
    var remoteProof: Option<nat>
    var fundingTx: Option<Tx>
    var coreArbSetup: Option<CoreArbitratingSetup>
    var cancelSignature: Option<nat>
    var adaptorRefund: Option<nat>
    var adaptorBuy: Option<BuySignature>

    function View(): Wallet
      reads this
    {
      match role
      case Alice => AliceWallet(tradeRole, localParams, remoteCommit, remoteParams, remoteProof, coreArbSetup,
        cancelSignature, adaptorRefund)
      case Bob => BobWallet(tradeRole, localParams, remoteCommit, remoteParams, remoteProof, fundingTx, coreArbSetup,
        adaptorBuy)
    }

    /** What a call came to, as a value. */
    function Finish<T>(out: Called<T>): WalletResult<T>
      reads this
    {
      match out
      case Returned(value) => Done(View(), value)
      case Raised(e) => Failed(e)
    }

    /** The copy of a wallet that a handler works on. */
    constructor Of(w: Wallet)
      ensures View() == w
    {
      role, tradeRole, localParams := if w.AliceWallet? then Alice else Bob, w.tradeRole, w.localParams;
      remoteCommit, remoteParams, remoteProof, coreArbSetup := w.remoteCommit, w.remoteParams, w.remoteProof,
        w.coreArbSetup;
      fundingTx := if w.BobWallet? then w.fundingTx else None;
      adaptorBuy := if w.BobWallet? then w.adaptorBuy else None;
      cancelSignature := if w.AliceWallet? then w.cancelSignature else None;
      adaptorRefund := if w.AliceWallet? then w.adaptorRefund else None;
    }

    constructor (role: SwapRole, tradeRole: TradeRole, params: Params, remoteCommit: Option<Commit>)
      ensures forall c: Crypto :: c.generateParams(role) == Some(params) ==>
        Some(View()) == NewWallet(c, role, tradeRole, remoteCommit)
    {
      this.role, this.tradeRole, this.remoteCommit := role, tradeRole, remoteCommit;
      localParams := params.(role := role);
      remoteParams, remoteProof, fundingTx, coreArbSetup := None, None, None, None;
      cancelSignature, adaptorRefund, adaptorBuy := None, None, None;
    }

    method Reveals(c: Crypto) returns (rev: Reveal)
      ensures rev == OwnReveal(c, View())
    {
      rev := Reveal(localParams, c.proofOf(localParams));
    }

    method HandleMakerCommit(c: Crypto, commit: Commit) returns (out: Called<Reveal>)
      modifies this`remoteCommit
      ensures Finish(out) == SwapWallet.HandleMakerCommit(c, old(View()), commit)
      ensures out.Raised? ==> View() == old(View())
    {
      if commit.role == role { return Raised(PeerFault); }
      if remoteCommit.None? { remoteCommit := Some(commit); }
      var rev := Reveals(c);
      out := Returned(rev);
    }

    /** `asRole` is the side whose handler was called. */
    method HandleReveal(c: Crypto, asRole: SwapRole, deal: Deal, rev: Reveal) returns (out: Called<Option<Reveal>>)
      modifies this`remoteParams, this`remoteProof
      ensures Finish(out) == SwapWallet.HandleReveal(c, old(View()), asRole, deal, rev)
      ensures out.Raised? ==> View() == old(View())
    {
      if rev.params.role == asRole { return Raised(WrongStage); }
      if role != asRole || remoteCommit.None? { return Raised(WrongStage); }
      if remoteParams.Some? || remoteProof.Some? { return Raised(WrongStage); }
      if !c.opens(remoteCommit.value, rev.params) { return Raised(CryptoFailure); }
      if !c.proofVerifies(rev) { return Raised(CryptoFailure); }
      remoteParams := Some(rev.params);
      remoteProof := Some(rev.proof);
      if deal.makerRole == asRole {
        var own := Reveals(c);
        out := Returned(Some(own));
      } else {
        out := Returned(None);
      }
    }

    method ProcessFundingTx(c: Crypto, tx: Tx) returns (out: Called<()>)
      modifies this`fundingTx
      ensures Finish(out) == SwapWallet.ProcessFundingTx(c, old(View()), tx)
      ensures out.Raised? ==> View() == old(View())
    {
      if role != Bob || fundingTx.Some? { return Raised(WrongStage); }
      if !c.fundingAccepts(tx) { return Raised(CryptoFailure); }
      fundingTx := Some(tx);
      out := Returned(());
    }

    method CreateCoreArb(c: Crypto) returns (out: Called<CoreArbitratingSetup>)
      modifies this`coreArbSetup
      ensures Finish(out) == SwapWallet.CreateCoreArb(c, old(View()))
      ensures out.Raised? ==> View() == old(View())
    {
      if role != Bob || coreArbSetup.Some? || fundingTx.None? { return Raised(WrongStage); }
      if remoteParams.None? { return Raised(Panic); }
      var txs := c.coreArbitrating(fundingTx.value, localParams, remoteParams.value);
      if txs.None? { return Raised(CryptoFailure); }
      coreArbSetup := txs;
      out := Returned(txs.value);
    }

    /** Buy is signed and stored before Lock, Cancel and Refund are completed: a failure there
        leaves the signature. */
    method HandleRefundProcedureSignatures(c: Crypto, sigs: RefundSignatures) returns (out: Called<BuySignature>)
      modifies this`adaptorBuy
      ensures Finish(out) == SwapWallet.HandleRefundProcedureSignatures(c, old(View()), sigs)
      ensures out == Raised(WrongStage) ==> View() == old(View())
      ensures out == Raised(CryptoFailure) ==>
        adaptorBuy == if c.refundVerifies(coreArbSetup.value, sigs) then c.signBuy(coreArbSetup.value, sigs)
          else old(adaptorBuy)
    {
      if role != Bob || remoteParams.None? || coreArbSetup.None? { return Raised(WrongStage); }
      if !c.refundVerifies(coreArbSetup.value, sigs) { return Raised(CryptoFailure); }
      if adaptorBuy.Some? { return Raised(WrongStage); }
      var signed := c.signBuy(coreArbSetup.value, sigs);
      if signed.None? { return Raised(CryptoFailure); }
      adaptorBuy := signed;
      if !c.completesLock(coreArbSetup.value, sigs) { return Raised(CryptoFailure); }
      out := Returned(signed.value);
    }

    /** The setup is stored before anything is signed, and each signature as it is made: a
        failure leaves what came before it. */
    method HandleCoreArbitratingSetup(c: Crypto, setup: CoreArbitratingSetup)
        returns (out: Called<(RefundSignatures, Tx)>)
      modifies this`coreArbSetup, this`adaptorRefund, this`cancelSignature
      ensures Finish(out) == SwapWallet.HandleCoreArbitratingSetup(c, old(View()), setup)
      ensures out == Raised(WrongStage) ==> View() == old(View())
      ensures out == Raised(CryptoFailure) ==>
        var refund := c.adaptRefund(setup, localParams, remoteParams.value);
        && coreArbSetup == Some(setup) && adaptorRefund == (if refund.None? then old(adaptorRefund) else refund)
        && cancelSignature == if refund.None? then None else c.cosignCancel(setup, localParams, remoteParams.value)
    {
      if role != Alice || remoteParams.None? { return Raised(WrongStage); }
      if coreArbSetup.Some? { return Raised(WrongStage); }
      if cancelSignature.Some? { return Raised(WrongStage); }
      coreArbSetup := Some(setup);
      var refund := c.adaptRefund(setup, localParams, remoteParams.value);
      if refund.None? { return Raised(CryptoFailure); }
      adaptorRefund := refund;
      var cancel := c.cosignCancel(setup, localParams, remoteParams.value);
      if cancel.None? { return Raised(CryptoFailure); }
      cancelSignature := cancel;
      var punish := c.completePunish(setup, localParams, remoteParams.value);
      if punish.None? { return Raised(CryptoFailure); }
      out := Returned((RefundSignatures(cancel.value, refund.value), punish.value));
    }

    method HandleBuyProcedureSignature(c: Crypto, buySig: BuySignature) returns (out: Called<(Tx, Tx)>)
      ensures Finish(out) == SwapWallet.HandleBuyProcedureSignature(c, View(), buySig)
    {
      if role != Alice || remoteParams.None? || coreArbSetup.None? || cancelSignature.None? {
        return Raised(WrongStage);
      }
      if !c.buyVerifies(coreArbSetup.value, buySig) { return Raised(CryptoFailure); }
      out := Returned((Tx(coreArbSetup.value.cancel), Tx(buySig.buy)));
    }
  }

  /** A handler's own copy of the wallet it was given. */
  method CopyOf(w: Wallet) returns (copy: WalletState)
    ensures fresh(copy) && copy.View() == w
  {
    copy := new WalletState.Of(w);
  }
}
