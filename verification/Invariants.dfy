/** What the invariants of a swapd are about. The environment is a parameter: with one
    that allows everything they say what the code guarantees on its own, with a truthful
    chain and an honest counterparty they say more. */
module Invariants {
  import opened Types
  import opened SwapWallet
  import opened SwapRuntime

  /** What the outside can do: which txids can stand for a label, which bitcoin
      transactions are final, which peer messages were sent, and whether the reported
      confirmations of Lock never decrease. */
  datatype Env = Env(may: TxLabel -> iset<Txid>, finals: iset<Txid>, sent: iset<PeerMsg>, steady: bool)

  predicate Any<T>(t: T) {
    true
  }

  /** The environment that promises nothing about txids, finality and messages. */
  ghost function Anything(steady: bool): Env {
    Env(_ => (iset h: Txid | Any(h)), (iset h: Txid | Any(h)), (iset m: PeerMsg | Any(m)), steady)
  }

  ghost predicate Final(env: Env, l: TxLabel) {
    exists h :: h in env.may(l) && h in env.finals
  }

  ghost predicate SetupFits(env: Env, setup: CoreArbitratingSetup) {
    setup.lock in env.may(Lock) && setup.cancel in env.may(Cancel) && setup.refund in env.may(Refund)
  }

  /** The transactions a message names can be those of this swap. */
  ghost predicate NamesFit(env: Env, m: PeerMsg) {
    && (m.CoreArbitrating? ==> SetupFits(env, m.setup))
    && (m.BuyProcedureSignature? ==> m.buySig.buy in env.may(Buy))
  }

  ghost predicate MessageFits(env: Env, m: PeerMsg) {
    m in env.sent && NamesFit(env, m)
  }

  /** The opaque transaction building produces the transactions of this swap. */
  ghost predicate CryptoFits(env: Env, c: Crypto) {
    && (forall tx, l, r :: c.coreArbitrating(tx, l, r).Some? ==> SetupFits(env, c.coreArbitrating(tx, l, r).value))
    && (forall s, sigs :: c.signBuy(s, sigs).Some? ==> c.signBuy(s, sigs).value.buy in env.may(Buy))
    && (forall s, l, r :: c.completePunish(s, l, r).Some? ==> c.completePunish(s, l, r).value.txid in env.may(Punish))
  }

  /** Whatever is stored satisfies the predicate of the part that looks at it. */
  predicate Stores(e: Entry) {
    e.Out? && e.send.ToDatabase?
  }

  /** The states of a party that has not committed itself. */
  predicate BeforeLock(s: SwapStateMachine) {
    s.StartTaker? || s.StartMaker? || s.BobInitTaker? || s.AliceInitTaker? || s.BobInitMaker? || s.AliceInitMaker?
    || s.BobTakerMakerCommit? || s.AliceTakerMakerCommit? || s.BobReveal? || s.BobFeeEstimated? || s.BobFunded?
    || s.AliceReveal? || s.BobAbortAwaitingBitcoinSweep? || s.EndsIn(FailureAbort)
  }
}
