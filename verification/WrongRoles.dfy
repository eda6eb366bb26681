/** When a message is refused as the peer's fault: exactly which messages those are, and that a
    commitment in the wrong role is one of them. */
module WrongRoles {
  import opened Types
  import opened SwapWallet
  import opened SwapRuntime
  import opened SwapState
  import opened Execution
  import opened Invariants
  import opened Stages
  import opened Tables
  import opened Commitment
  import opened FundingWindow
  import opened Publishing
  import opened ReleaseOrder
  import opened SentMessages
  import opened HeardMessages
  import opened Handling
  import opened Quiescence
  import opened Guarantees
  import opened FallingCounts

  /** The states that take the counterparty's reveal. */
  predicate AwaitsTheReveal(s: SwapStateMachine) {
    s.BobTakerMakerCommit? || s.AliceTakerMakerCommit? || s.BobInitMaker? || s.AliceInitMaker?
  }

  /** A commitment in the party's own role, or a reveal that is not of the commitment. */
  predicate AtFault(x: Swap, role: SwapRole, s: SwapStateMachine, msg: BusMsg) {
    || (s.StartMaker? && msg.Ctl? && msg.ctl.MakeSwap? && msg.ctl.commit.role == role
        && x.crypto.generateParams(role).Some?)
    || ((s.BobInitTaker? || s.AliceInitTaker?) && msg.P2p? && msg.peer.MakerCommit? && msg.peer.commit.role == role)
    || (AwaitsTheReveal(s) && msg.P2p? && msg.peer.RevealMsg? && !ValidateReveal(x, msg.peer.rev, s.remoteCommit))
  }

  predicate BlamesPeer(step: Step) {
    step.Fail? && step.error.PeerFault?
  }

  lemma BobBlamesNobody(x: Swap, rt: Rt, msg: BusMsg)
    requires OfBob(rt.ssm)
    ensures !BlamesPeer(NextOfBob(x, rt, msg))
  {
    hide Framed, Tail, Unasked, Undisturbed, Rt.CheckpointOf, Rt.WatchTxBtc;
  }

  lemma AliceBlamesNobody(x: Swap, rt: Rt, msg: BusMsg)
    requires !InSetup(rt.ssm) && !OfBob(rt.ssm)
    ensures !BlamesPeer(NextOfAlice(x, rt, msg))
  {
    hide Framed, Tail, Unasked, Undisturbed, Rt.CheckpointOf, Rt.WatchTxBtc;
  }

  lemma StartsBlame(env: Env, x: Swap, role: SwapRole, rt: Rt, msg: BusMsg)
    requires (rt.ssm.StartTaker? || rt.ssm.StartMaker?) && StageOk(env, x, role, rt.ssm)
    ensures BlamesPeer(NextInSetup(x, rt, msg)) <==> AtFault(x, role, rt.ssm, msg)
  {
    hide Framed, Tail, Unasked, WatchHeights, Announce;
  }

  lemma CommitmentsBlame(env: Env, x: Swap, role: SwapRole, rt: Rt, msg: BusMsg)
    requires (rt.ssm.BobInitTaker? || rt.ssm.AliceInitTaker?) && StageOk(env, x, role, rt.ssm)
    ensures BlamesPeer(NextInSetup(x, rt, msg)) <==> AtFault(x, role, rt.ssm, msg)
  {
    hide Framed, Tail, Unasked;
  }

  /** A reveal that is one of the commitment is in the other role. */
  lemma RevealsBlame(env: Env, x: Swap, role: SwapRole, rt: Rt, msg: BusMsg)
    requires AwaitsTheReveal(rt.ssm) && StageOk(env, x, role, rt.ssm)
    ensures BlamesPeer(NextInSetup(x, rt, msg)) <==> AtFault(x, role, rt.ssm, msg)
    ensures msg.P2p? && msg.peer.RevealMsg? && ValidateReveal(x, msg.peer.rev, rt.ssm.remoteCommit) ==>
      msg.peer.rev.params.role != role
  {
    hide Framed, Tail, Unasked, Rt.WatchBitcoinFee;
  }

  /** In every reachable state the machine blames the peer exactly for a commitment in the
      party's own role and for a reveal that is not of the commitment. */
  lemma PeerIsBlamedExactly(env: Env, x: Swap, tradeRole: TradeRole, rt: Rt, msg: BusMsg)
    requires Reachable(env, x, tradeRole, rt) && CryptoFits(env, x.crypto)
    ensures BlamesPeer(Next(x, rt, msg)) <==> AtFault(x, x.RoleOf(tradeRole), rt.ssm, msg)
  {
    hide TablesPart, CommitPart, FundingPart, PublishPart, ReleasePart, SentPart, HeardPart, CryptoFits, Reachable,
      Quiet, StageOk, BlamesPeer, NextInSetup, NextOfBob, NextOfAlice;
    ReachableSound(env, x, tradeRole, rt);
    var role := x.RoleOf(tradeRole);
    if rt.ssm.StartTaker? || rt.ssm.StartMaker? {
      StartsBlame(env, x, role, rt, msg);
    } else if rt.ssm.BobInitTaker? || rt.ssm.AliceInitTaker? {
      CommitmentsBlame(env, x, role, rt, msg);
    } else if InSetup(rt.ssm) {
      RevealsBlame(env, x, role, rt, msg);
    } else if OfBob(rt.ssm) {
      BobBlamesNobody(x, rt, msg);
    } else {
      AliceBlamesNobody(x, rt, msg);
    }
  }

  /** The wrong-role branch of the wallet for reveals is out of reach. */
  lemma RevealRoleIsRight(env: Env, x: Swap, tradeRole: TradeRole, rt: Rt, rev: Reveal)
    requires Reachable(env, x, tradeRole, rt) && CryptoFits(env, x.crypto) && AwaitsTheReveal(rt.ssm)
    requires ValidateReveal(x, rev, rt.ssm.remoteCommit)
    ensures rev.params.role != x.RoleOf(tradeRole) && rt.ssm.wallet.AliceWallet? == (x.RoleOf(tradeRole) == Alice)
    ensures var res := HandleReveal(x.crypto, rt.ssm.wallet, x.RoleOf(tradeRole), x.deal, rev);
      res.Failed? ==> res.error.CryptoFailure?
  {
    hide TablesPart, CommitPart, FundingPart, PublishPart, ReleasePart, SentPart, HeardPart, CryptoFits, Reachable,
      Quiet;
    ReachableSound(env, x, tradeRole, rt);
  }

  /** That for commitments is not: a maker that commits in the taker's role takes it. */
  lemma WrongRoleIsReached(x: Swap) returns (rt: Rt, m: PeerMsg)
    requires TakenByAlice(x)
    ensures Reachable(Anything(false), x, Taker, rt) && rt.ssm.AliceInitTaker?
    ensures Legit(Anything(false), rt, PEERD, P2p(m)) && m.MakerCommit? && m.commit.role == Alice
    ensures HandleMakerCommit(x.crypto, rt.ssm.wallet, m.commit) == Failed(PeerFault)
    ensures BlamesPeer(Next(x, rt, P2p(m)))
  {
    hide Handle, Legit, Reachable, Framed, Tail, Unasked;
    var start := Ctl(TakeSwap(PEERD, ServiceId.Client(0), x.swapId));
    rt := Launch(x, Taker, []);
    LaunchIsReachable(Anything(false), x);
    OthersAreLegit(x, rt);
    LivesOn(Anything(false), x, rt, ServiceId.Farcasterd, start);
    AliceTakes(x);
    rt := Handle(x, rt, ServiceId.Farcasterd, start).rt;
    m := MakerCommit(x.swapId, Commit(Alice, 0));
    PeerIsLegit(rt, m);
  }
}
