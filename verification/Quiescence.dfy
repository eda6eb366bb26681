/** Replay reaches a fixpoint: after any message, handled well or not, none of the kept
    confirmations has anything left to do. */
module Quiescence {
  import opened Types
  import opened SyncerClient
  import opened SwapRuntime
  import opened SwapState
  import opened Execution
  import opened Invariants
  import opened Stages
  import opened Tables
  import opened Commitment
  import opened FundingWindow
  import opened BuyAlone
  import opened Publishing
  import opened ReleaseOrder
  import opened SentMessages
  import opened HeardMessages
  import opened Runs
  import opened History
  import opened Restart
  import opened Handling

  /** Neither party takes its way out after Lock: Cancel has gone out if it may, and has
      not been seen. */
  predicate Unmoved(rt: Rt, seen: Option<TxLabel>, n: nat) {
    && !(seen == Some(Lock) && rt.ts.ValidCancel(n) && Cancel in rt.txs)
    && seen != Some(Cancel)
  }

  /** A confirmation of task `id` with count `n` has nothing left to do in this state. */
  predicate Idle(rt: Rt, id: TaskId, n: nat) {
    var l := rt.LabelOf(id);
    var final := rt.ts.FinalTx(n, Bitcoin);
    match rt.ssm
    case BobRefundProcedureSignatures(_, _, _, _) => Unmoved(rt, l, n)
    case BobAccordantLock(_, _, _, _) => !(rt.ts.FinalTx(n, Monero) && l == Some(AccLock)) && Unmoved(rt, l, n)
    case BobAccordantLockFinal(_, _, _) => !(final && l == Some(Buy) && Buy in rt.syncer.tasks.txids)
      && Unmoved(rt, l, n)
    case BobBuyFinal(_) => n < rt.ts.sweepMoneroThr
    case BobCanceled => !(final && l == Some(Cancel) && Refund in rt.txs)
    case BobCancelFinal => !(final && l == Some(Refund))
    case AliceCoreArbitratingSetup(local, remote, _) =>
      if final && l == Some(Lock) then local.role != Alice || remote.role != Bob else Unmoved(rt, l, n)
    case AliceArbitratingLockFinal(_, _, _) =>
      !(l == Some(Lock) && rt.ts.StopFundingBeforeCancel(n) && rt.syncer.awaitingFunding) && Unmoved(rt, l, n)
    case AliceAccordantLock(_) => Unmoved(rt, l, n)
    case AliceBuyProcedureSignature => !(final && l == Some(Buy))
    case AliceCanceled(_) =>
      && !(final && l == Some(Refund) && Refund in rt.syncer.tasks.txids)
      && !(l == Some(Cancel) && rt.ts.ValidPunish(n) && Punish in rt.txs)
      && !(final && l == Some(Punish))
      && !(l == Some(Lock) && rt.ts.ValidCancel(n) && Cancel in rt.txs)
    case AliceRefund(_) => n < rt.ts.sweepMoneroThr
    case _ => true
  }

  predicate IdleOn(rt: Rt, kept: Option<KeptConfs>) {
    kept.Some? ==> Idle(rt, kept.value.id, kept.value.count)
  }

  /** Nothing that is kept has anything left to do. */
  predicate Quiet(rt: Rt) {
    IdleOn(rt, rt.syncer.buyTxConfs) && IdleOn(rt, rt.syncer.lockTxConfs) && IdleOn(rt, rt.syncer.cancelTxConfs)
  }

  /** Idle means just that: the machine takes no notice. */
  lemma IdleStays(x: Swap, rt: Rt, id: TaskId, n: nat)
    requires Idle(rt, id, n)
    ensures Next(x, rt, Sync(TransactionConfirmations(id, Some(n)))) == Stay(rt)
  {
    hide Framed, Tail, Unasked, Undisturbed;
  }

  lemma BobStayIsIdle(x: Swap, rt: Rt, id: TaskId, n: nat)
    requires OfBob(rt.ssm)
    ensures var step := NextOfBob(x, rt, Sync(TransactionConfirmations(id, Some(n))));
      !step.Fail? && (step.Stay? ==> Idle(step.rt, id, n))
  {
    hide Framed, Tail, Unasked, Undisturbed;
  }

  lemma AliceStayIsIdle(x: Swap, rt: Rt, id: TaskId, n: nat)
    requires !InSetup(rt.ssm) && !OfBob(rt.ssm)
    ensures var step := NextOfAlice(x, rt, Sync(TransactionConfirmations(id, Some(n))));
      !step.Fail? && (step.Stay? ==> Idle(step.rt, id, n))
  {
    hide Framed, Tail, Unasked, Undisturbed;
  }

  lemma SetupStayIsIdle(x: Swap, rt: Rt, id: TaskId, n: nat)
    requires InSetup(rt.ssm)
    ensures NextInSetup(x, rt, Sync(TransactionConfirmations(id, Some(n)))) == Stay(rt)
  {}

  /** A confirmation that moved nothing has nothing left to do, and it never fails. */
  lemma StayIsIdle(x: Swap, rt: Rt, id: TaskId, n: nat)
    ensures var step := Next(x, rt, Sync(TransactionConfirmations(id, Some(n))));
      !step.Fail? && (step.Stay? ==> Idle(step.rt, id, n))
  {
    hide NextInSetup, NextOfBob, NextOfAlice;
    if InSetup(rt.ssm) { SetupStayIsIdle(x, rt, id, n); }
    else if OfBob(rt.ssm) { BobStayIsIdle(x, rt, id, n); }
    else { AliceStayIsIdle(x, rt, id, n); }
  }

  /** What idleness looks at, with fewer transactions left to publish. */
  ghost predicate Alike(rt: Rt, r: Rt) {
    && r.ssm == rt.ssm && r.ts == rt.ts
    && r.syncer.tasks.watchedTxs == rt.syncer.tasks.watchedTxs && r.syncer.tasks.txids == rt.syncer.tasks.txids
    && r.syncer.awaitingFunding == rt.syncer.awaitingFunding
    && (forall l :: l in r.txs ==> l in rt.txs)
  }

  lemma AlikeIdle(rt: Rt, r: Rt, id: TaskId, n: nat)
    requires Alike(rt, r) && Idle(rt, id, n)
    ensures Idle(r, id, n)
  {}

  ghost predicate KeepsSame(rt: Rt, r: Rt) {
    && r.syncer.lockTxConfs == rt.syncer.lockTxConfs && r.syncer.cancelTxConfs == rt.syncer.cancelTxConfs
    && r.syncer.buyTxConfs == rt.syncer.buyTxConfs
  }

  lemma AlikeQuiet(rt: Rt, r: Rt)
    requires Alike(rt, r) && KeepsSame(rt, r) && Quiet(rt)
    ensures Quiet(r)
  {
    hide Idle;
    if rt.syncer.buyTxConfs.Some? { AlikeIdle(rt, r, rt.syncer.buyTxConfs.value.id, rt.syncer.buyTxConfs.value.count); }
    if rt.syncer.lockTxConfs.Some? {
      AlikeIdle(rt, r, rt.syncer.lockTxConfs.value.id, rt.syncer.lockTxConfs.value.count);
    }
    if rt.syncer.cancelTxConfs.Some? {
      AlikeIdle(rt, r, rt.syncer.cancelTxConfs.value.id, rt.syncer.cancelTxConfs.value.count);
    }
  }

  lemma StayAlike(x: Swap, rt: Rt, msg: BusMsg)
    ensures var step := Next(x, rt, msg); KeepsSame(rt, step.rt) && (step.Stay? ==> Alike(rt, step.rt))
  {
    hide Next;
    NextProceeds(x, rt, msg);
  }

  // ----- states in which a peer message can fail -----

  /** Nothing kept can move these states. */
  predicate Indifferent(s: SwapStateMachine) {
    InSetup(s) || s.BobReveal? || s.BobFeeEstimated? || s.BobFunded? || s.AliceReveal?
      || s.BobAbortAwaitingBitcoinSweep?
    || s.SwapEnd? || s.BobBuySweeping? || s.AliceRefundSweeping?
  }

  lemma SomeNeverFail(x: Swap, rt: Rt, msg: BusMsg)
    requires !Indifferent(rt.ssm) && !rt.ssm.AliceAccordantLock? && !rt.ssm.BobAccordantLockFinal?
      && !rt.ssm.AliceCanceled?
    ensures !Next(x, rt, msg).Fail?
  {}

  lemma AliceBuyFailIdle(x: Swap, rt: Rt, msg: BusMsg, id: TaskId, n: nat)
    requires rt.ssm.AliceAccordantLock? && Idle(rt, id, n) && id <= rt.syncer.tasks.counter
    ensures var step := TryAliceAccordantLockToAliceBuyProcedureSignature(x, rt, rt.ssm.wallet, msg);
      step.Fail? ==> Idle(step.rt, id, n)
  {
    hide HandleAliceSwapInterruptAfterLock, Framed, Tail;
  }

  lemma RetrievalFailIdle(x: Swap, rt: Rt, msg: BusMsg, id: TaskId, n: nat)
    requires Idle(rt, id, n)
    ensures rt.ssm.BobAccordantLockFinal? ==>
      var step := TryBobAccordantLockFinalToBobBuyFinal(x, rt, rt.ssm, msg); step.Fail? ==> Idle(step.rt, id, n)
    ensures rt.ssm.AliceCanceled? ==>
      var step := TryAliceCanceledToAliceRefundOrAlicePunish(x, rt, rt.ssm, msg); step.Fail? ==> Idle(step.rt, id, n)
  {
    hide HandleBobSwapInterruptAfterLock, FetchTx, WatchAndPublish, Framed, Tail;
  }

  /** An error leaves idleness as it was. */
  lemma FailIdle(x: Swap, rt: Rt, msg: BusMsg, id: TaskId, n: nat)
    requires Next(x, rt, msg).Fail? && id <= rt.syncer.tasks.counter && Idle(rt, id, n)
    ensures Idle(Next(x, rt, msg).rt, id, n)
  {
    hide TryAliceAccordantLockToAliceBuyProcedureSignature, TryBobAccordantLockFinalToBobBuyFinal,
      TryAliceCanceledToAliceRefundOrAlicePunish, NextInSetup, Tail;
    NextProceeds(x, rt, msg);
    if rt.ssm.AliceAccordantLock? { AliceBuyFailIdle(x, rt, msg, id, n); }
    else if rt.ssm.BobAccordantLockFinal? || rt.ssm.AliceCanceled? { RetrievalFailIdle(x, rt, msg, id, n); }
    else if !Indifferent(rt.ssm) { SomeNeverFail(x, rt, msg); }
  }

  lemma FailQuiet(x: Swap, rt: Rt, msg: BusMsg)
    requires Next(x, rt, msg).Fail? && rt.syncer.CachesMatch() && rt.syncer.tasks.IdsBounded() && Quiet(rt)
    ensures Quiet(Next(x, rt, msg).rt)
  {
    hide Idle, Next;
    NextProceeds(x, rt, msg);
    var s := rt.syncer;
    if s.buyTxConfs.Some? { FailIdle(x, rt, msg, s.buyTxConfs.value.id, s.buyTxConfs.value.count); }
    if s.lockTxConfs.Some? { FailIdle(x, rt, msg, s.lockTxConfs.value.id, s.lockTxConfs.value.count); }
    if s.cancelTxConfs.Some? { FailIdle(x, rt, msg, s.cancelTxConfs.value.id, s.cancelTxConfs.value.count); }
  }

  // ----- the replay -----

  /** A peer message that got past the guards once. */
  predicate Accepted(x: Swap, m: PeerMsg) {
    m.swapId == x.swapId && !m.PeerAbort? && !m.PingPong?
  }

  /** Nothing but the machine can stop the kept peer message in this replay. */
  predicate Passes(x: Swap, rt: Rt, source: ServiceId) {
    rt.unhandledPeerMessage.Some? ==> !source.Peerd? && Accepted(x, rt.unhandledPeerMessage.value)
  }

  /** The one state whose peer message can fail while kept confirmations could matter. */
  predicate Calm(rt: Rt) {
    rt.ssm.AliceAccordantLock? ==> Quiet(rt)
  }

  lemma IndifferentQuiet(rt: Rt)
    requires Indifferent(rt.ssm)
    ensures Quiet(rt)
  {}

  /** Replayed messages do not bring Alice to follow a payment, and only peer messages fail. */
  lemma ReplayedStep(x: Swap, rt: Rt, msg: BusMsg)
    requires Replayable(msg)
    ensures var step := Next(x, rt, msg);
      && (step.Goto? ==> !step.next.AliceAccordantLock?)
      && (step.Fail? ==> Indifferent(rt.ssm) || rt.ssm.AliceAccordantLock?)
  {
    hide Framed, Tail, Unasked, Undisturbed;
    if !Indifferent(rt.ssm) && !rt.ssm.AliceAccordantLock? && !rt.ssm.BobAccordantLockFinal? && !rt.ssm.AliceCanceled? {
      SomeNeverFail(x, rt, msg);
    }
  }

  lemma BookedTables(env: Env, x: Swap, rt: Rt)
    requires Inv(env, x, rt)
    ensures rt.syncer.CachesMatch() && rt.syncer.tasks.IdsBounded()
  {
    hide StagePart, CommitPart, FundingPart, PublishPart, Alone, ReleasePart, SentPart, HeardPart, PlaceOk;
  }

  predicate IsKept(rt: Rt, k: KeptConfs) {
    Some(k) == rt.syncer.buyTxConfs || Some(k) == rt.syncer.lockTxConfs || Some(k) == rt.syncer.cancelTxConfs
  }

  lemma NoteAlike(rt: Rt, id: TaskId, confs: Option<nat>, thr: nat)
    ensures var r := rt.NoteConfs(id, confs, thr);
      && Alike(rt, r) && KeepsSame(rt, r) && r == rt.(syncer := r.syncer)
         && (rt.syncer.CachesMatch() ==> r.syncer.CachesMatch())
  {}

  lemma CacheAgain(rt: Rt, k: KeptConfs)
    requires rt.syncer.CachesMatch() && IsKept(rt, k)
    ensures rt.syncer.Cache(k.id, k.count) == rt.syncer
  {}

  /** A kept confirmation, when it is noted again, changes nothing that matters. */
  lemma RecordKept(rt: Rt, source: ServiceId, k: KeptConfs)
    requires rt.syncer.CachesMatch() && IsKept(rt, k)
    ensures var r := Record(rt, source, k.Event());
      Alike(rt, r) && KeepsSame(rt, r) && r.unhandledPeerMessage == rt.unhandledPeerMessage
  {
    hide Rt.NoteConfs, Syncer.Cache;
    NoteAlike(rt, k.id, Some(k.count), rt.ts.xmrFinalityThr);
    NoteAlike(rt, k.id, Some(k.count), rt.ts.btcFinalityThr);
    CacheAgain(rt.NoteConfs(k.id, Some(k.count), rt.ts.btcFinalityThr), k);
  }

  /** What a replayed message leaves: a transition leaves everything quiet, and so does an
      error; otherwise the message itself is idle and the rest is as it was. */
  ghost predicate Settles(x: Swap, rt: Rt, source: ServiceId, msg: BusMsg, res: Result) {
    && Passes(x, res.rt, source)
    && (Quiet(res.rt)
        || (res.Ok? && Alike(rt, res.rt) && KeepsSame(rt, res.rt)
            && (msg.Sync? && msg.event.TransactionConfirmations? && msg.event.confirmations.Some? ==>
                  Idle(res.rt, msg.event.id, msg.event.confirmations.value))))
  }

  /** A message that can come up in a replay. */
  predicate Replays(x: Swap, msg: BusMsg, source: ServiceId) {
    match msg
    case P2p(m) => !source.Peerd? && Accepted(x, m)
    case Sync(e) => e.TransactionConfirmations? && e.confirmations.Some?
    case Ctl(_) => false
  }

  /** Without a transition. */
  lemma ShownSettles(env: Env, x: Swap, rt: Rt, msg: BusMsg)
    requires Inv(env, x, rt) && Replayable(msg) && Calm(rt)
    ensures var step := Next(x, rt, msg);
      && KeepsSame(rt, step.rt)
      && (step.Fail? ==> Quiet(step.rt))
      && (step.Stay? ==> Alike(rt, step.rt))
  {
    hide Inv, Next, Idle;
    BookedTables(env, x, rt);
    StayAlike(x, rt, msg);
    ReplayedStep(x, rt, msg);
    if Next(x, rt, msg).Fail? {
      if Indifferent(rt.ssm) { IndifferentQuiet(rt); }
      FailQuiet(x, rt, msg);
    }
  }

  lemma ExecuteSettles(env: Env, x: Swap, rt: Rt, source: ServiceId, msg: BusMsg)
    requires Inv(env, x, rt) && CryptoFits(env, x.crypto) && Truthful(env, rt, msg) && Noted(env, rt, msg)
    requires Replays(x, msg, source) && Passes(x, rt, source) && Calm(rt)
    ensures Settles(x, rt, source, msg, Execute(x, rt, source, msg))
    decreases One(!Replayable(msg)), Measure(rt), 0
  {
    hide Inv, Next, CryptoFits, Replay, Measure, Noted, Truthful, Idle, Quiet, Proceeds;
    var r := rt.(log := rt.log + [In(msg)]);
    assert Alike(rt, r) && KeepsSame(rt, r);
    CalmOn(rt, r);
    EntersKeeps(env, x, rt, msg);
    var step := Next(x, r, msg);
    ShownKeeps(env, x, rt, msg);
    ShownSettles(env, x, r, msg);
    FramedUnhandled(x, r, msg);
    match step
    case Fail(_, _) =>
    case Stay(r1) => if msg.Sync? { ShownIdle(x, r, msg, r1); }
    case Goto(r1, next) =>
      var r2 := r1.(ssm := next);
      ReplayedStep(x, r, msg);
      if next.SwapEnd? {
        IndifferentQuiet(r2.Emit(SwapOutcome(next.outcome)));
      } else {
        UnhandledKeeps(env, x, r2, None);
        RoundLowers(x, rt, msg);
        ReplaySettles(env, x, if msg.P2p? then r2.(unhandledPeerMessage := None) else r2, source);
      }
  }

  lemma FramedUnhandled(x: Swap, rt: Rt, msg: BusMsg)
    ensures Next(x, rt, msg).rt.unhandledPeerMessage == rt.unhandledPeerMessage
  {
    hide Next;
    NextProceeds(x, rt, msg);
  }

  lemma ShownIdle(x: Swap, rt: Rt, msg: BusMsg, r: Rt)
    requires msg.Sync? && msg.event.TransactionConfirmations? && msg.event.confirmations.Some?
      && Next(x, rt, msg) == Stay(r)
    ensures Idle(r, msg.event.id, msg.event.confirmations.value)
  {
    hide Next, Idle;
    StayIsIdle(x, rt, msg.event.id, msg.event.confirmations.value);
  }

  lemma CalmOn(rt: Rt, r: Rt)
    requires Calm(rt) && (Quiet(r) || (Alike(rt, r) && KeepsSame(rt, r)))
    ensures Calm(r)
  {
    hide Quiet;
    if !Quiet(r) && r.ssm.AliceAccordantLock? { AlikeQuiet(rt, r); }
  }

  /** Idleness on what was shown before lasts while the next one is shown. */
  lemma IdleOnLasts(rt: Rt, r: Rt, kept: Option<KeptConfs>)
    requires Alike(rt, r) && IdleOn(rt, kept)
    ensures IdleOn(r, kept)
  {
    hide Idle;
    if kept.Some? { AlikeIdle(rt, r, kept.value.id, kept.value.count); }
  }

  /** The three kept confirmations, one after the other. */
  lemma ThreeSettle(env: Env, x: Swap, rt: Rt, source: ServiceId)
    requires Inv(env, x, rt) && CryptoFits(env, x.crypto) && Passes(x, rt, source) && Calm(rt)
    ensures var b := ReplayConfs(x, rt, source, rt.syncer.buyTxConfs);
      var l := if b.Err? then b else ReplayConfs(x, b.rt, source, b.rt.syncer.lockTxConfs);
      var c := if l.Err? then l else ReplayConfs(x, l.rt, source, l.rt.syncer.cancelTxConfs);
      Quiet(c.rt) && Passes(x, c.rt, source)
    decreases 0, Measure(rt), 2, 1
  {
    hide Inv, CryptoFits, Measure, ReplayConfs, IdleOn, Alike, Passes, Calm;
    var s := rt.syncer;
    var b := ReplayConfs(x, rt, source, s.buyTxConfs);
    KeptEventsFit(env, x, rt, source);
    ConfsSettle(env, x, rt, source, s.buyTxConfs);
    ReplayConfsKeeps(env, x, rt, source, s.buyTxConfs);
    CalmOn(rt, b.rt);
    if b.Ok? {
      var l := ReplayConfs(x, b.rt, source, b.rt.syncer.lockTxConfs);
      KeptEventsFit(env, x, b.rt, source);
      ConfsSettle(env, x, b.rt, source, b.rt.syncer.lockTxConfs);
      ReplayConfsKeeps(env, x, b.rt, source, b.rt.syncer.lockTxConfs);
      CalmOn(b.rt, l.rt);
      QuietOrIdle(b.rt, l.rt, b.rt.syncer.buyTxConfs);
      if l.Ok? {
        var c := ReplayConfs(x, l.rt, source, l.rt.syncer.cancelTxConfs);
        ConfsSettle(env, x, l.rt, source, l.rt.syncer.cancelTxConfs);
        QuietOrIdle(l.rt, c.rt, l.rt.syncer.buyTxConfs);
        QuietOrIdle(l.rt, c.rt, l.rt.syncer.lockTxConfs);
      }
    }
  }

  /** What was quiet or idle before a step that changed nothing is so after it. */
  lemma QuietOrIdle(rt: Rt, r: Rt, kept: Option<KeptConfs>)
    ensures Alike(rt, r) && KeepsSame(rt, r) && Quiet(rt) ==> Quiet(r)
    ensures Alike(rt, r) && IdleOn(rt, kept) ==> IdleOn(r, kept)
  {
    hide IdleOn, Quiet, Alike, KeepsSame;
    if Alike(rt, r) && KeepsSame(rt, r) && Quiet(rt) { AlikeQuiet(rt, r); }
    if Alike(rt, r) && IdleOn(rt, kept) { IdleOnLasts(rt, r, kept); }
  }

  lemma ReplaySettles(env: Env, x: Swap, rt: Rt, source: ServiceId)
    requires Inv(env, x, rt) && CryptoFits(env, x.crypto) && Passes(x, rt, source) && Calm(rt)
    ensures Quiet(Replay(x, rt, source).rt) && Passes(x, Replay(x, rt, source).rt, source)
    decreases 0, Measure(rt), 3
  {
    hide Inv, CryptoFits, Measure, Execute, ReplayConfs, Quiet, Calm, MessageFits;
    if rt.unhandledPeerMessage.Some? {
      var m := rt.unhandledPeerMessage.value;
      UnhandledFits(env, x, rt);
      ExecuteSettles(env, x, rt, source, P2p(m));
      ExecuteKeeps(env, x, rt, source, P2p(m));
      var u := HandleMsg(x, rt, source, m);
      CalmOn(rt, u.rt);
      if u.Ok? { ThreeSettle(env, x, u.rt, source); }
    } else {
      ThreeSettle(env, x, rt, source);
    }
  }

  lemma ConfsSettle(env: Env, x: Swap, rt: Rt, source: ServiceId, kept: Option<KeptConfs>)
    requires Inv(env, x, rt) && CryptoFits(env, x.crypto) && Passes(x, rt, source) && Calm(rt)
    requires kept.Some? ==> IsKept(rt, kept.value)
    ensures var res := ReplayConfs(x, rt, source, kept);
      && Passes(x, res.rt, source)
      && (Quiet(res.rt) || (res.Ok? && Alike(rt, res.rt) && KeepsSame(rt, res.rt) && IdleOn(res.rt, kept)))
    decreases 0, Measure(rt), 2, 0
  {
    hide Inv, CryptoFits, Measure, Execute, Record, Idle, Quiet;
    if kept.Some? {
      var k := kept.value;
      var r := Record(rt, source, k.Event());
      BookedTables(env, x, rt);
      RecordKept(rt, source, k);
      KeptEventsFit(env, x, rt, source);
      RecordKeeps(env, x, rt, source, k.Event());
      if rt.ssm.AliceAccordantLock? { AlikeQuiet(rt, r); }
      ExecuteSettles(env, x, r, source, Sync(k.Event()));
    }
  }

  // ----- whole messages -----

  /** The kept peer message got past the guards. */
  predicate KeptAccepted(x: Swap, rt: Rt) {
    rt.unhandledPeerMessage.Some? ==> Accepted(x, rt.unhandledPeerMessage.value)
  }

  /** Following a payment brings up nothing that was not already idle. */
  lemma FollowingIsIdle(rt: Rt, id: TaskId, n: nat, t: TaskId, hash: Txid, amount: nat)
    requires rt.ssm.AliceArbitratingLockFinal? && Idle(rt, id, n) && id <= rt.syncer.tasks.counter
    ensures var step := AliceSeesFunding(rt, rt.ssm, t, hash, amount);
      step.next.AliceAccordantLock? ==> Idle(step.rt.(ssm := step.next), id, n)
  {}

  lemma AccordantEntry(x: Swap, rt: Rt, msg: BusMsg, id: TaskId, n: nat)
    requires Idle(rt, id, n) && id <= rt.syncer.tasks.counter
    ensures var step := Next(x, rt, msg);
      step.Goto? && step.next.AliceAccordantLock? ==> Idle(step.rt.(ssm := step.next), id, n)
  {
    hide AliceSeesFunding, Idle, HandleAliceSwapInterruptAfterLock, Framed, Tail, Unasked, NextOfBob, NextInSetup;
    NextProceeds(x, rt, msg);
    if rt.ssm.AliceArbitratingLockFinal? && msg.Sync? && msg.event.AddressTransaction? {
      FollowingIsIdle(rt, id, n, msg.event.id, msg.event.hash, msg.event.amount);
    }
  }

  /** Quiet, but perhaps for the very message that is about to be shown. */
  ghost predicate QuietUpTo(rt: Rt, msg: BusMsg) {
    forall kept :: kept == rt.syncer.buyTxConfs || kept == rt.syncer.lockTxConfs || kept == rt.syncer.cancelTxConfs ==>
      IdleOn(rt, kept) || (kept.Some? && msg == Sync(kept.value.Event()))
  }

  lemma StayQuiet(x: Swap, rt: Rt, msg: BusMsg)
    requires QuietUpTo(rt, msg) && Next(x, rt, msg).Stay?
    ensures Quiet(Next(x, rt, msg).rt)
  {
    hide Next, Idle;
    var r := Next(x, rt, msg).rt;
    StayAlike(x, rt, msg);
    forall kept | kept == rt.syncer.buyTxConfs || kept == rt.syncer.lockTxConfs || kept == rt.syncer.cancelTxConfs
      ensures IdleOn(r, kept) {
      if IdleOn(rt, kept) { IdleOnLasts(rt, r, kept); } else { StayIsIdle(x, rt, kept.value.id, kept.value.count); }
    }
  }

  lemma AccordantCalm(x: Swap, rt: Rt, msg: BusMsg)
    requires rt.syncer.CachesMatch() && rt.syncer.tasks.IdsBounded() && QuietUpTo(rt, msg)
    ensures var step := Next(x, rt, msg); step.Goto? ==> Calm(step.rt.(ssm := step.next))
  {
    hide Next, Idle;
    var step := Next(x, rt, msg);
    NextProceeds(x, rt, msg);
    if step.Goto? && step.next.AliceAccordantLock? {
      if Replayable(msg) { ReplayedStep(x, rt, msg); }
      forall kept | kept == rt.syncer.buyTxConfs || kept == rt.syncer.lockTxConfs || kept == rt.syncer.cancelTxConfs
        ensures IdleOn(step.rt.(ssm := step.next), kept)
      {
        if kept.Some? { AccordantEntry(x, rt, msg, kept.value.id, kept.value.count); }
      }
    }
  }

  lemma FailQuietUpTo(x: Swap, rt: Rt, msg: BusMsg)
    requires rt.syncer.CachesMatch() && rt.syncer.tasks.IdsBounded() && QuietUpTo(rt, msg) && Next(x, rt, msg).Fail?
    ensures Quiet(Next(x, rt, msg).rt)
  {
    hide Next, Idle;
    forall kept | kept == rt.syncer.buyTxConfs || kept == rt.syncer.lockTxConfs || kept == rt.syncer.cancelTxConfs
      ensures IdleOn(rt, kept) {
      if kept.Some? { StayIsIdle(x, rt, kept.value.id, kept.value.count); }
    }
    FailQuiet(x, rt, msg);
  }

  lemma ExecuteQuiet(env: Env, x: Swap, rt: Rt, source: ServiceId, msg: BusMsg)
    requires Inv(env, x, rt) && CryptoFits(env, x.crypto) && Truthful(env, rt, msg) && Noted(env, rt, msg)
    requires KeptAccepted(x, rt)
    requires source.Peerd? ==> msg.P2p?
    requires msg.P2p? ==> Accepted(x, msg.peer)
    requires QuietUpTo(rt, msg)
    ensures var r := Execute(x, rt, source, msg).rt;
      Quiet(r) && KeptAccepted(x, r)
  {
    hide Inv, Next, CryptoFits, Replay, Noted, Truthful, Idle, Quiet, Proceeds, Calm;
    var r := rt.(log := rt.log + [In(msg)]);
    assert QuietUpTo(r, msg) by { UpToAlike(rt, r, msg); }
    EntersKeeps(env, x, rt, msg);
    BookedTables(env, x, r);
    var step := Next(x, r, msg);
    ShownKeeps(env, x, rt, msg);
    FramedUnhandled(x, r, msg);
    match step
    case Fail(_, _) => FailQuietUpTo(x, r, msg);
    case Stay(r1) =>
      StayQuiet(x, r, msg);
      if msg.P2p? { SameQuiet(r1, r1.(unhandledPeerMessage := Some(msg.peer))); }
    case Goto(r1, next) =>
      var r2 := r1.(ssm := next);
      if next.SwapEnd? {
        IndifferentQuiet(r2.Emit(SwapOutcome(next.outcome)));
      } else {
        AccordantCalm(x, r, msg);
        UnhandledKeeps(env, x, r2, None);
        var r3 := if msg.P2p? then r2.(unhandledPeerMessage := None) else r2;
        CalmUnhandled(r2, r3);
        ReplaySettles(env, x, r3, source);
        AcceptedAfter(x, r3, source);
      }
  }

  lemma UpToAlike(rt: Rt, r: Rt, msg: BusMsg)
    requires Alike(rt, r) && KeepsSame(rt, r) && QuietUpTo(rt, msg)
    ensures QuietUpTo(r, msg)
  {
    hide IdleOn;
    forall kept | kept == rt.syncer.buyTxConfs || kept == rt.syncer.lockTxConfs || kept == rt.syncer.cancelTxConfs
      ensures IdleOn(rt, kept) ==> IdleOn(r, kept)
    {
      if IdleOn(rt, kept) { IdleOnLasts(rt, r, kept); }
    }
  }

  lemma SameQuiet(rt: Rt, r: Rt)
    requires Quiet(rt) && r == rt.(unhandledPeerMessage := r.unhandledPeerMessage)
    ensures Quiet(r)
  {
    hide Quiet;
    AlikeQuiet(rt, r);
  }

  lemma CalmUnhandled(rt: Rt, r: Rt)
    requires Calm(rt) && r == rt.(unhandledPeerMessage := r.unhandledPeerMessage)
    ensures Calm(r)
  {
    hide Quiet;
    if rt.ssm.AliceAccordantLock? { SameQuiet(rt, r); }
  }

  /** A replay keeps what it does not clear. */
  lemma AcceptedAfter(x: Swap, rt: Rt, source: ServiceId)
    requires Passes(x, Replay(x, rt, source).rt, source)
    ensures KeptAccepted(x, Replay(x, rt, source).rt)
  {
    hide Replay, Accepted;
  }

  /** The one slot a new confirmation can take. */
  lemma CacheUpTo(rt: Rt, id: TaskId, count: nat)
    requires Quiet(rt)
    ensures var r := rt.(syncer := rt.syncer.Cache(id, count));
      QuietUpTo(r, Sync(TransactionConfirmations(id, Some(count))))
  {
    hide Idle;
    var r := rt.(syncer := rt.syncer.Cache(id, count));
    assert Alike(rt, r);
    forall kept | kept == rt.syncer.buyTxConfs || kept == rt.syncer.lockTxConfs || kept == rt.syncer.cancelTxConfs
      ensures IdleOn(rt, kept) ==> IdleOn(r, kept)
    {
      if IdleOn(rt, kept) { IdleOnLasts(rt, r, kept); }
    }
  }

  lemma QuietIsUpTo(rt: Rt, r: Rt, msg: BusMsg)
    requires Quiet(rt) && Alike(rt, r) && KeepsSame(rt, r)
    ensures Quiet(r) && QuietUpTo(r, msg)
  {
    hide Idle;
    AlikeQuiet(rt, r);
  }

  lemma AlikeItself(rt: Rt)
    ensures Alike(rt, rt) && KeepsSame(rt, rt)
  {
  }

  lemma RecordAlike(rt: Rt, source: ServiceId, e: SyncEvent)
    requires !e.TransactionConfirmations?
    ensures Alike(rt, Record(rt, source, e)) && KeepsSame(rt, Record(rt, source, e))
  {
  }

  lemma RecordUpTo(rt: Rt, source: ServiceId, e: SyncEvent)
    requires Quiet(rt)
    ensures QuietUpTo(Record(rt, source, e), Sync(e))
    ensures Record(rt, source, e).unhandledPeerMessage == rt.unhandledPeerMessage
  {
    hide Quiet, QuietUpTo, Syncer.Cache, Rt.NoteConfs, KeepsSame, Alike;
    var r := Record(rt, source, e);
    if e.TransactionConfirmations? {
      NoteAlike(rt, e.id, e.confirmations, rt.ts.xmrFinalityThr);
      NoteAlike(rt, e.id, e.confirmations, rt.ts.btcFinalityThr);
      var n := rt.NoteConfs(e.id, e.confirmations, rt.ts.btcFinalityThr);
      QuietIsUpTo(rt, n, Sync(e));
      if e.confirmations.Some? { CacheUpTo(n, e.id, e.confirmations.value); }
      QuietIsUpTo(rt, rt.NoteConfs(e.id, e.confirmations, rt.ts.xmrFinalityThr), Sync(e));
      AlikeItself(rt);
      QuietIsUpTo(rt, rt, Sync(e));
    } else {
      RecordAlike(rt, source, e);
      QuietIsUpTo(rt, r, Sync(e));
    }
  }

  lemma HandleCtlQuiet(env: Env, x: Swap, rt: Rt, source: ServiceId, m: CtlMsg)
    requires Inv(env, x, rt) && CryptoFits(env, x.crypto) && Quiet(rt) && KeptAccepted(x, rt)
      && Legit(env, rt, source, Ctl(m))
    ensures var r := HandleCtl(x, rt, source, m).rt;
      Quiet(r) && KeptAccepted(x, r)
  {
    hide Inv, CryptoFits, Execute, Quiet, QuietUpTo;
    QuietIsUpTo(rt, rt, Ctl(m));
    if Executed(m) {
      ExecuteQuiet(env, x, rt, source, Ctl(m));
    } else {
      var r := HandleCtl(x, rt, source, m).rt;
      if m.PeerdReconnected? { SendAllSame(rt.(peerService := m.peerd, connected := true), rt.pendingPeerRequests); }
      AlikeQuiet(rt, r);
    }
  }

  lemma {:induction false} SendAllSame(rt: Rt, msgs: seq<PeerMsg>)
    ensures SendAll(rt, msgs) == rt.(log := SendAll(rt, msgs).log)
  {
    if msgs != [] { SendAllSame(rt, msgs[..|msgs| - 1]); }
  }

  /** After every message, whatever came of it, nothing kept has anything left to do. */
  lemma HandleQuiet(env: Env, x: Swap, rt: Rt, source: ServiceId, msg: BusMsg)
    requires Inv(env, x, rt) && CryptoFits(env, x.crypto) && Legit(env, rt, source, msg)
    requires Quiet(rt) && KeptAccepted(x, rt)
    ensures var r := Handle(x, rt, source, msg).rt;
      Quiet(r) && KeptAccepted(x, r)
  {
    hide Inv, CryptoFits, HandleCtl, Execute, Quiet, Record, EventFits, QuietUpTo;
    match msg
    case Ctl(m) => HandleCtlQuiet(env, x, rt, source, m);
    case P2p(m) =>
      QuietIsUpTo(rt, rt, msg);
      if !(source.Peerd? && rt.peerService != source) && Accepted(x, m) { ExecuteQuiet(env, x, rt, source, msg); }
    case Sync(e) =>
      RecordUpTo(rt, source, e);
      RecordKeeps(env, x, rt, source, e);
      ExecuteQuiet(env, x, Record(rt, source, e), source, msg);
  }

  /** A launch and a restart have kept nothing yet. */
  lemma FreshQuiet(env: Env, x: Swap, tradeRole: TradeRole, before: seq<Entry>, cp: CheckpointSwapd)
    requires LogSafe(env, x, tradeRole, before) && LastCheckpoint(before) == Some(cp)
    ensures Quiet(Restore(Launch(x, tradeRole, before), cp)) && Quiet(Launch(x, tradeRole, before))
    ensures Restore(Launch(x, tradeRole, before), cp).unhandledPeerMessage.None?
  {
    hide Revive, LogSafe, StoredFits, PendingFits, StageOk;
    LastFits(env, x, tradeRole, before, cp);
    ReviveTables(env, x, tradeRole, before, cp);
  }
}
