/** Crash safety: whatever commits a party leaves it only after a checkpoint from which
    the swap can be finished is in store. */
module Commitment {
  import opened Types
  import opened SyncerClient
  import opened SwapWallet
  import opened SwapRuntime
  import opened SwapState
  import opened History
  import opened Invariants
  import opened Stages
  import opened Tables

  /** The only checkpoint of a party that has not committed itself is Bob's with his setup. */
  predicate OnlyFunded(log: seq<Entry>) {
    LastCheckpoint(log).Some? ==> LastCheckpoint(log).value.state.BobFunded?
  }

  ghost predicate Uncommitted(log: seq<Entry>) {
    !HasCommitted(log) && OnlyFunded(log)
  }

  ghost predicate CommitmentOk(s: SwapStateMachine, log: seq<Entry>) {
    if BeforeLock(s) then Uncommitted(log) else s.SwapEnd? || StoredCommitted(log)
  }

  ghost predicate CommitPart(rt: Rt) {
    CrashSafe(rt.log) && CommitmentOk(rt.ssm, rt.log)
  }

  // ----- what a list of map entries keeps -----

  lemma {:induction false} CollectListUpTo<V>(m: map<TxLabel, V>, n: nat)
    requires n <= |LABELS|
    ensures Collect(ListOf(m, n)).Keys == set l | l in m && l in LABELS[..n]
    ensures forall l :: l in Collect(ListOf(m, n)) ==> Collect(ListOf(m, n))[l] == m[l]
  {
    if n > 0 {
      CollectListUpTo(m, n - 1);
      assert LABELS[..n] == LABELS[..n - 1] + [LABELS[n - 1]];
      if LABELS[n - 1] in m {
        var e := (LABELS[n - 1], m[LABELS[n - 1]]);
        var list := ListOf(m, n - 1);
        assert ListOf(m, n) == list + [e];
        assert (list + [e])[..|list|] == list;
      }
    }
  }

  /** Writing a label map as a list and reading it back changes nothing. */
  lemma CollectList<V>(m: map<TxLabel, V>)
    ensures Collect(ListOf(m, |LABELS|)) == m
  {
    CollectListUpTo(m, |LABELS|);
    forall l: TxLabel ensures l in LABELS {
      match l
      case Funding => assert LABELS[0] == l;
      case Lock => assert LABELS[1] == l;
      case Buy => assert LABELS[2] == l;
      case Cancel => assert LABELS[3] == l;
      case Refund => assert LABELS[4] == l;
      case Punish => assert LABELS[5] == l;
      case AccLock => assert LABELS[6] == l;
    }
    assert LABELS[..|LABELS|] == LABELS;
  }

  lemma {:induction false} ListedIsThere<V>(m: map<TxLabel, V>, n: nat)
    requires n <= |LABELS|
    ensures forall p :: p in ListOf(m, n) ==> p.0 in m && m[p.0] == p.1
  {
    if n > 0 { ListedIsThere(m, n - 1); }
  }

  lemma {:induction false} PendingUpTo(t: SyncerTasks, id: TaskId, n: nat)
    requires id in t.broadcastingTxs && id in t.tasks && t.tasks[id].BroadcastTransaction? && 0 < id <= n
    ensures t.tasks[id].tx in t.PendingBroadcasts(n)
  {
    if id < n { PendingUpTo(t, id, n - 1); }
  }

  lemma {:induction false} NothingPending(t: SyncerTasks, n: nat)
    requires t.broadcastingTxs == {}
    ensures t.PendingBroadcasts(n) == []
  {
    if n > 0 { NothingPending(t, n - 1); }
  }

  /** A transaction just handed to the syncer is pending. */
  lemma JustPending(t: SyncerTasks, tx: Tx)
    ensures tx in t.Broadcast(tx).PendingBroadcastTxs()
  {
    PendingUpTo(t.Broadcast(tx), t.counter + 1, t.counter + 1);
  }

  lemma {:induction false} NonePending(t: SyncerTasks, n: nat)
    requires forall id :: id in t.broadcastingTxs ==> id > n
    ensures t.PendingBroadcasts(n) == []
  {
    if n > 0 { NonePending(t, n - 1); }
  }

  /** If nothing was pending it is the only one. */
  lemma OnlyPending(t: SyncerTasks, tx: Tx)
    requires t.broadcastingTxs == {}
    ensures t.Broadcast(tx).PendingBroadcastTxs() == [tx]
  {
    NonePending(t.Broadcast(tx), t.counter);
  }

  // ----- tails -----

  /** Without a new checkpoint crash safety needs a committed one in store for whatever commits. */
  lemma {:induction false} TailCommits(a: seq<Entry>, b: seq<Entry>, kinds: set<Kind>)
    requires Tail(a, b, kinds) && Store !in kinds && CrashSafe(a)
    requires Publish in kinds || Sign in kinds ==> StoredCommitted(a)
    ensures CrashSafe(b) && LastCheckpoint(b) == LastCheckpoint(a)
    ensures Publish !in kinds && Sign !in kinds ==> HasCommitted(b) == HasCommitted(a)
    decreases |b|
  {
    if |b| == |a| {
      assert a == b;
    } else {
      var c, e := b[..|b| - 1], b[|b| - 1];
      assert b == c + [e];
      TailCommits(a, c, kinds);
      Append(c, e);
      assert HasCommitted(c) ==> StoredCommitted(c) by { assert c[..|c|] == c; }
      AppendCrashSafe(c, e);
    }
  }

  lemma CommittedEarlier(log: seq<Entry>, k: nat)
    requires k <= |log| && HasCommitted(log[..k])
    ensures HasCommitted(log)
  {
    var e :| e in log[..k] && Commits(e);
    assert e in log;
  }

  lemma NeverCommittedIsSafe(log: seq<Entry>)
    requires !HasCommitted(log)
    ensures CrashSafe(log)
  {
    forall k | 0 <= k <= |log| ensures HasCommitted(log[..k]) ==> HasCommitted(log) {
      if HasCommitted(log[..k]) { CommittedEarlier(log, k); }
    }
  }

  lemma {:induction false} TailUncommitted(a: seq<Entry>, b: seq<Entry>, kinds: set<Kind>)
    requires Tail(a, b, kinds) && Publish !in kinds && Sign !in kinds && !HasCommitted(a)
    ensures !HasCommitted(b) && CrashSafe(b) && (Store !in kinds ==> LastCheckpoint(b) == LastCheckpoint(a))
    decreases |b|
  {
    if |b| == |a| {
      assert a == b;
    } else {
      var c, e := b[..|b| - 1], b[|b| - 1];
      assert b == c + [e];
      TailUncommitted(a, c, kinds);
      Append(c, e);
    }
    NeverCommittedIsSafe(b);
  }

  /** First the committed checkpoint, then what it is for. */
  lemma StoreThenCommit(log: seq<Entry>, cp: CheckpointSwapd, e: Entry)
    requires !HasCommitted(log) && Committed(cp) && !(e.Out? && e.send.ToDatabase?)
    ensures CrashSafe(log + [Out(ToDatabase(cp))] + [e]) && StoredCommitted(log + [Out(ToDatabase(cp))] + [e])
  {
    NeverCommittedIsSafe(log);
    var stored := log + [Out(ToDatabase(cp))];
    Append(log, Out(ToDatabase(cp)));
    AppendCrashSafe(log, Out(ToDatabase(cp)));
    Append(stored, e);
    AppendCrashSafe(stored, e);
  }

  // ----- the checkpoints -----

  /** Everything a step stores is fit to come back to. */
  ghost predicate StoresFit(env: Env, x: Swap, rt: Rt, step: Step) {
    forall k :: |rt.log| <= k < |step.rt.log| && Stores(step.rt.log[k]) ==>
      StoredFits(env, x, step.rt.log[k].send.checkpoint)
  }

  /** The step's effect on history: safe, and the next state's share of the promise. */
  ghost predicate StepCommits(rt: Rt, step: Step) {
    CrashSafe(step.rt.log) && CommitmentOk(if step.Goto? then step.next else rt.ssm, step.rt.log)
  }

  /** The parts of a checkpoint as they were in the runtime. */
  lemma CheckpointHolds(rt: Rt, pending: Option<PeerMsg>, next: SwapStateMachine)
    ensures var cp := rt.CheckpointOf(pending, next);
      Collect(cp.txs) == rt.txs && Collect(cp.txids) == rt.syncer.tasks.txids
  {
    CollectList(rt.txs);
    CollectList(rt.syncer.tasks.txids);
  }

  /** A stored checkpoint is fit when the step that stores it leaves consistent tables. */
  lemma StoredIsFit(env: Env, x: Swap, rt: Rt, step: Step, r: Rt, pending: Option<PeerMsg>)
    requires step.Goto? && Tabled(env, x, rt, step) && r.ts == x.ts
    requires r.txs == step.rt.txs && r.syncer.tasks.txids == step.rt.syncer.tasks.txids
    requires Committed(r.CheckpointOf(pending, step.next))
      || (step.next.BobFunded? && r.syncer.tasks == step.rt.syncer.tasks)
    requires step.next.AliceCoreArbitratingSetup? ==> Cancel in r.txs && r.syncer.tasks == step.rt.syncer.tasks
    requires env.steady && step.next.AliceBuyProcedureSignature? ==> OnlyBuyPending(r.CheckpointOf(pending, step.next))
    ensures StoredFits(env, x, r.CheckpointOf(pending, step.next))
  {
    CheckpointHolds(r, pending, step.next);
    ListedIsThere(r.syncer.tasks.txids, |LABELS|);
    if step.next.BobFunded? || step.next.AliceCoreArbitratingSetup? {
      NothingPending(r.syncer.tasks, r.syncer.tasks.counter);
    }
  }

  lemma OneStored(env: Env, x: Swap, rt: Rt, step: Step, base: seq<Entry>, cp: CheckpointSwapd, rest: seq<Entry>,
      kinds: set<Kind>)
    requires step.rt.log == base + [Out(ToDatabase(cp))] + rest
    requires Tail(rt.log, base, kinds) && Store !in kinds
    requires forall e :: e in rest ==> !Stores(e)
    requires StoredFits(env, x, cp)
    ensures StoresFit(env, x, rt, step)
  {
    hide StoredFits;
  }

  // ----- Bob -----

  lemma BobSetUpSplit(x: Swap, rt: Rt, local: Params, remote: Params, w: Wallet, tx: Tx) returns (r: Rt, m: PeerMsg)
    requires BobSetUpCoreArbitrating(x, rt, local, remote, w, tx).Goto?
    ensures var step := BobSetUpCoreArbitrating(x, rt, local, remote, w, tx);
      && step.rt.log == r.log + [Out(ToDatabase(r.CheckpointOf(Some(m), step.next)))] + [Out(ToPeer(m))]
      && m == CoreArbitrating(x.swapId, step.next.wallet.coreArbSetup.value)
      && r.ts == rt.ts && r.txs == step.rt.txs && r.syncer.tasks == step.rt.syncer.tasks
    ensures Tail(rt.log, r.log, {})
  {
    hide Framed, Unasked, ListOf, SyncerTasks.PendingBroadcastTxs;
    var w1 := ProcessFundingTx(x.crypto, w, tx).wallet;
    var setup := CreateCoreArb(x.crypto, w1).value;
    var q := rt.WatchTxBtc(setup.lock, Lock).WatchTxBtc(setup.cancel, Cancel).WatchTxBtc(setup.refund, Refund);
    r := if q.creationHeight.None? then q.(creationHeight := Some(q.syncer.Height(Monero))) else q;
    m := CoreArbitrating(x.swapId, setup);
  }

  lemma BobSetUpCommits(env: Env, x: Swap, rt: Rt, local: Params, remote: Params, w: Wallet, tx: Tx)
    requires Tabular(env, x, rt) && rt.ssm.BobFeeEstimated? && CryptoFits(env, x.crypto) && rt.ts == x.ts
      && Uncommitted(rt.log)
    ensures StoresFit(env, x, rt, BobSetUpCoreArbitrating(x, rt, local, remote, w, tx))
    ensures StepCommits(rt, BobSetUpCoreArbitrating(x, rt, local, remote, w, tx))
  {
    hide BobSetUpCoreArbitrating, StoredFits, Tabular, Tabled, CrashSafe, CryptoFits;
    var step := BobSetUpCoreArbitrating(x, rt, local, remote, w, tx);
    TailUncommitted(rt.log, step.rt.log, {Store, Propose});
    if step.Goto? {
      BobSetUpTabled(env, x, rt, local, remote, w, tx);
      var r, m := BobSetUpSplit(x, rt, local, remote, w, tx);
      var cp := r.CheckpointOf(Some(m), step.next);
      StoredIsFit(env, x, rt, step, r, Some(m));
      OneStored(env, x, rt, step, r.log, cp, [Out(ToPeer(m))], {});
      Append(r.log, Out(ToDatabase(cp)));
      Append(r.log + [Out(ToDatabase(cp))], Out(ToPeer(m)));
    } else {
      TailUncommitted(rt.log, step.rt.log, {});
      BobSetUpStores(x, rt, local, remote, w, tx);
    }
  }

  /** A step before the commitment that stores nothing. */
  lemma UncommittedStep(env: Env, x: Swap, rt: Rt, step: Step)
    requires Tail(rt.log, step.rt.log, {}) && Uncommitted(rt.log) && BeforeLock(rt.ssm)
    requires step.Goto? ==> BeforeLock(step.next)
    ensures StoresFit(env, x, rt, step) && StepCommits(rt, step)
  {
    hide StoredFits;
    TailUncommitted(rt.log, step.rt.log, {});
  }

  lemma StoresFitEarlier(env: Env, x: Swap, rt: Rt, r: Rt, step: Step, e: Entry)
    requires StoresFit(env, x, r, step) && StepCommits(r, step) && r.log == rt.log + [e] && r.ssm == rt.ssm
      && !Stores(e)
    requires r.log <= step.rt.log
    ensures StoresFit(env, x, rt, step) && StepCommits(rt, step)
  {
    hide StoredFits;
  }

  lemma BobPaidCommits(env: Env, x: Swap, rt: Rt, tx: Tx)
    requires Tabular(env, x, rt) && rt.ssm.BobFeeEstimated? && CryptoFits(env, x.crypto) && rt.ts == x.ts
      && Uncommitted(rt.log)
    ensures var step := BobSetUpCoreArbitrating(x, rt.Awaiting(false).Emit(FundingCompleted(Bitcoin)), rt.ssm.local,
      rt.ssm.remote, rt.ssm.wallet, tx);
      StoresFit(env, x, rt, step) && StepCommits(rt, step)
  {
    hide BobSetUpCoreArbitrating, StoresFit, StepCommits, PlaceOk, TablesOk, TxsOk, CryptoFits;
    var s := rt.ssm;
    var r := rt.Awaiting(false).Emit(FundingCompleted(Bitcoin));
    Append(rt.log, Out(FundingCompleted(Bitcoin)));
    BobSetUpCommits(env, x, r, s.local, s.remote, s.wallet, tx);
    StoresFitEarlier(env, x, rt, r, BobSetUpCoreArbitrating(x, r, s.local, s.remote, s.wallet, tx),
      Out(FundingCompleted(Bitcoin)));
  }

  lemma BobFundedCommits(env: Env, x: Swap, rt: Rt, msg: BusMsg)
    requires Tabular(env, x, rt) && rt.ssm.BobFeeEstimated? && CryptoFits(env, x.crypto) && rt.ts == x.ts
      && Uncommitted(rt.log)
    ensures var step := TryBobFeeEstimatedToBobFunded(x, rt, rt.ssm.local, rt.ssm.remote, rt.ssm.wallet,
      rt.ssm.requiredFunding, msg);
      StoresFit(env, x, rt, step) && StepCommits(rt, step)
  {
    hide BobSetUpCoreArbitrating, HandleBobAbortSwap, StoresFit, StepCommits, Tabular, CryptoFits;
    var s := rt.ssm;
    if msg.Sync? && msg.event.AddressTransaction? && msg.event.tx.Some? {
      BobPaidCommits(env, x, rt, msg.event.tx.value);
    }
    UncommittedStep(env, x, rt, HandleBobAbortSwap(x, rt.Awaiting(false), s.wallet));
    UncommittedStep(env, x, rt, HandleBobAbortSwap(x, rt, s.wallet));
    UncommittedStep(env, x, rt, Stay(rt));
    UncommittedStep(env, x, rt, Fail(rt, CryptoFailure));
  }

  lemma BobLockSplit(x: Swap, rt: Rt, local: Params, remote: Params, w: Wallet, setup: CoreArbitratingSetup,
      buySig: BuySignature) returns (r: Rt, e: Entry)
    requires local.role == Bob && remote.role == Alice
    ensures var step := BobLock(x, rt, local, remote, w, setup, buySig);
      && step.Goto? && step.next == BobRefundProcedureSignatures(local, remote, w, buySig)
      && step.rt.log == r.log + [Out(ToDatabase(r.CheckpointOf(None, step.next)))] + [e]
      && IsBroadcast(e) && e.send.lbl == Some(Lock)
      && r.ts == rt.ts && r.txs == step.rt.txs && r.syncer.tasks.txids == step.rt.syncer.tasks.txids
      && r.txs == rt.txs[Cancel := Tx(setup.cancel)][Refund := Tx(setup.refund)]
      && r.syncer.tasks.txids == rt.syncer.tasks.txids[Buy := buySig.buy]
      && r.syncer.xmrAddrAddendum.Some?
      && Tx(setup.lock) in r.syncer.tasks.PendingBroadcastTxs()
    ensures Tail(rt.log, r.log, {})
  {
    var q := rt.WatchAddrXmr(x.crypto.aggregate(remote, local), AccLock, None);
    var q1 := q.(txs := q.txs[Cancel := Tx(setup.cancel)][Refund := Tx(setup.refund)]).WatchTxBtc(buySig.buy, Buy);
    r := q1.WithTasks(q1.syncer.tasks.Broadcast(Tx(setup.lock)));
    JustPending(q1.syncer.tasks, Tx(setup.lock));
    e := Out(ToBroadcast(Some(Lock), r.syncer.tasks.Broadcast(Tx(setup.lock)).LastTask()));
  }

  lemma BobLockCommits(env: Env, x: Swap, rt: Rt, local: Params, remote: Params, w: Wallet, setup: CoreArbitratingSetup,
      buySig: BuySignature)
    requires Tabular(env, x, rt) && rt.ssm.BobFunded? && rt.ts == x.ts && Uncommitted(rt.log)
    requires local.role == Bob && remote.role == Alice && SetupFits(env, setup) && buySig.buy in env.may(Buy)
    requires KnowsSetup(w, rt.syncer.tasks.txids) && w.coreArbSetup == Some(setup)
    ensures StoresFit(env, x, rt, BobLock(x, rt, local, remote, w, setup, buySig))
    ensures StepCommits(rt, BobLock(x, rt, local, remote, w, setup, buySig))
  {
    hide BobLock, StoredFits, Tabular, Tabled, CrashSafe, SyncerTasks.PendingBroadcastTxs;
    var step := BobLock(x, rt, local, remote, w, setup, buySig);
    BobLockTabled(env, x, rt, local, remote, w, setup, buySig);
    var r, e := BobLockSplit(x, rt, local, remote, w, setup, buySig);
    var cp := r.CheckpointOf(None, step.next);
    CheckpointHolds(r, None, step.next);
    assert Committed(cp);
    StoredIsFit(env, x, rt, step, r, None);
    OneStored(env, x, rt, step, r.log, cp, [e], {});
    TailUncommitted(rt.log, r.log, {});
    StoreThenCommit(r.log, cp, e);
  }

  lemma BobRefundCommits(env: Env, x: Swap, rt: Rt, msg: BusMsg)
    requires Tabular(env, x, rt) && rt.ssm.BobFunded? && StageOk(env, x, Bob, rt.ssm) && CryptoFits(env, x.crypto)
    requires rt.ts == x.ts && Uncommitted(rt.log)
    ensures var step := TryBobFundedToBobRefundProcedureSignatures(x, rt, rt.ssm.local, rt.ssm.remote, rt.ssm.wallet,
      msg);
      StoresFit(env, x, rt, step) && StepCommits(rt, step)
  {
    hide BobLock, HandleBobAbortSwap, StoredFits, TablesOk, CrashSafe, TxsOk;
    if msg.P2p? && msg.peer.RefundProcedureSignatures? {
      var res := HandleRefundProcedureSignatures(x.crypto, rt.ssm.wallet, msg.peer.sigs);
      if res.Done? {
        BobLockCommits(env, x, rt, rt.ssm.local, rt.ssm.remote, res.wallet, res.wallet.coreArbSetup.value, res.value);
      } else {
        NeverCommittedIsSafe(rt.log);
      }
    } else {
      var step := TryBobFundedToBobRefundProcedureSignatures(x, rt, rt.ssm.local, rt.ssm.remote, rt.ssm.wallet, msg);
      TailUncommitted(rt.log, step.rt.log, {});
    }
  }

  // ----- Alice -----

  lemma AliceSetUpSplit(x: Swap, rt: Rt, local: Params, remote: Params, w: Wallet, msg: BusMsg)
      returns (r: Rt, m: PeerMsg)
    requires var step := TryAliceRevealToAliceCoreArbitratingSetup(x, rt, local, remote, w, msg);
      step.Goto? && step.next.AliceCoreArbitratingSetup?
    ensures var step := TryAliceRevealToAliceCoreArbitratingSetup(x, rt, local, remote, w, msg);
      && step.rt.log == r.log + [Out(ToDatabase(r.CheckpointOf(Some(m), step.next)))] + [Out(ToPeer(m))]
      && m.RefundProcedureSignatures?
      && r.ts == rt.ts && r.txs == step.rt.txs && r.syncer.tasks == step.rt.syncer.tasks
      && Cancel in r.txs && Punish in r.txs && {Lock, Cancel, Refund} <= r.syncer.tasks.txids.Keys
    ensures Tail(rt.log, r.log, {})
  {
    var setup := msg.peer.setup;
    var res := HandleCoreArbitratingSetup(x.crypto, w, setup);
    var q := rt.WatchTxBtc(setup.lock, Lock).WatchTxBtc(setup.cancel, Cancel).WatchTxBtc(setup.refund, Refund);
    r := q.(txs := q.txs[Cancel := Tx(setup.cancel)][Punish := res.value.1]);
    m := RefundProcedureSignatures(x.swapId, res.value.0);
  }

  lemma AliceSetUpCommits(env: Env, x: Swap, rt: Rt, msg: BusMsg)
    requires Tabular(env, x, rt) && rt.ssm.AliceReveal? && CryptoFits(env, x.crypto) && Truthful(env, rt, msg)
    requires rt.ts == x.ts && Uncommitted(rt.log)
    ensures var step := TryAliceRevealToAliceCoreArbitratingSetup(x, rt, rt.ssm.local, rt.ssm.remote, rt.ssm.wallet,
      msg);
      StoresFit(env, x, rt, step) && StepCommits(rt, step)
  {
    hide StoredFits, Tabular, Tabled, CrashSafe, Truthful, CryptoFits, TryAliceRevealToAliceCoreArbitratingSetup;
    var step := TryAliceRevealToAliceCoreArbitratingSetup(x, rt, rt.ssm.local, rt.ssm.remote, rt.ssm.wallet, msg);
    if step.Goto? && step.next.AliceCoreArbitratingSetup? {
      AliceCoreArbitratingTabled(env, x, rt, msg);
      var r, m := AliceSetUpSplit(x, rt, rt.ssm.local, rt.ssm.remote, rt.ssm.wallet, msg);
      var cp := r.CheckpointOf(Some(m), step.next);
      CheckpointHolds(r, Some(m), step.next);
      assert Committed(cp);
      StoredIsFit(env, x, rt, step, r, Some(m));
      OneStored(env, x, rt, step, r.log, cp, [Out(ToPeer(m))], {});
      TailUncommitted(rt.log, r.log, {});
      StoreThenCommit(r.log, cp, Out(ToPeer(m)));
    } else {
      TailUncommitted(rt.log, step.rt.log, {});
    }
  }

  lemma AliceBuySplit(x: Swap, rt: Rt, w: Wallet, msg: BusMsg) returns (r: Rt)
    requires TryAliceAccordantLockToAliceBuyProcedureSignature(x, rt, w, msg).Goto?
    requires TryAliceAccordantLockToAliceBuyProcedureSignature(x, rt, w, msg).next.AliceBuyProcedureSignature?
    ensures var step := TryAliceAccordantLockToAliceBuyProcedureSignature(x, rt, w, msg);
      && step.rt.log == r.log + [Out(ToDatabase(r.CheckpointOf(None, step.next)))]
      && r.ts == rt.ts && r.txs == step.rt.txs && r.syncer.tasks == step.rt.syncer.tasks
      && Cancel in r.txs && Buy in r.txs && Buy in r.syncer.tasks.txids
      && r.txs[Buy] in r.syncer.tasks.PendingBroadcastTxs()
      && (rt.syncer.tasks.broadcastingTxs == {} ==> r.syncer.tasks.PendingBroadcastTxs() == [r.txs[Buy]])
    ensures Tail(rt.log, r.log, {Publish})
  {
    var q := rt.WatchTxBtc(msg.peer.buySig.buy, Buy);
    var (cancel, buy) := HandleBuyProcedureSignature(x.crypto, w, msg.peer.buySig).value;
    var q1 := q.(txs := q.txs[Cancel := cancel][Buy := buy]);
    r := q1.Broadcast(buy, Some(Buy));
    JustPending(q1.syncer.tasks, buy);
    if rt.syncer.tasks.broadcastingTxs == {} { OnlyPending(q1.syncer.tasks, buy); }
  }

  /** With counts that do not fall Alice holds Cancel until the kept count of Lock allows it. */
  ghost predicate HoldsCancel(env: Env, rt: Rt) {
    env.steady && rt.ssm.AliceAccordantLock? && Cancel !in rt.txs ==>
      rt.syncer.lockTxConfs.Some? && rt.ts.ValidCancel(rt.syncer.lockTxConfs.value.count)
  }

  /** So nothing is on its way when she decides for Buy. */
  lemma BuyGoesAlone(env: Env, x: Swap, rt: Rt, msg: BusMsg)
    requires Tabular(env, x, rt) && rt.ssm.AliceAccordantLock? && HoldsCancel(env, rt)
    requires var step := TryAliceAccordantLockToAliceBuyProcedureSignature(x, rt, rt.ssm.wallet, msg);
      step.Goto? && step.next.AliceBuyProcedureSignature?
    ensures env.steady ==> rt.syncer.tasks.broadcastingTxs == {}
  {
    hide TablesOk, TxsOk, HandleBuyProcedureSignature, HandleAliceSwapInterruptAfterLock, Framed, Unasked,
      Undisturbed, Tail, Rt.CheckpointOf;
  }

  lemma BoughtIsCommitted(r: Rt, next: SwapStateMachine)
    requires next.AliceBuyProcedureSignature? && Cancel in r.txs && Buy in r.txs && Buy in r.syncer.tasks.txids
    requires r.txs[Buy] in r.syncer.tasks.PendingBroadcastTxs()
    ensures Committed(r.CheckpointOf(None, next))
  {
    hide SyncerTasks.PendingBroadcastTxs;
    CheckpointHolds(r, None, next);
  }

  lemma AliceBoughtCommits(env: Env, x: Swap, rt: Rt, msg: BusMsg)
    requires rt.ssm.AliceAccordantLock? && rt.ts == x.ts && CrashSafe(rt.log) && StoredCommitted(rt.log)
    requires env.steady ==> rt.syncer.tasks.broadcastingTxs == {}
    requires var step := TryAliceAccordantLockToAliceBuyProcedureSignature(x, rt, rt.ssm.wallet, msg);
      Tabled(env, x, rt, step) && step.Goto? && step.next.AliceBuyProcedureSignature?
    ensures var step := TryAliceAccordantLockToAliceBuyProcedureSignature(x, rt, rt.ssm.wallet, msg);
      StoresFit(env, x, rt, step) && StepCommits(rt, step)
  {
    hide StoredFits, Tabled, CrashSafe, TryAliceAccordantLockToAliceBuyProcedureSignature, HasCommitted, Committed;
    var step := TryAliceAccordantLockToAliceBuyProcedureSignature(x, rt, rt.ssm.wallet, msg);
    var r := AliceBuySplit(x, rt, rt.ssm.wallet, msg);
    var cp := r.CheckpointOf(None, step.next);
    BoughtIsCommitted(r, step.next);
    CheckpointHolds(r, None, step.next);
    StoredIsFit(env, x, rt, step, r, None);
    OneStored(env, x, rt, step, r.log, cp, [], {Publish});
    TailCommits(rt.log, r.log, {Publish});
    Append(r.log, Out(ToDatabase(cp)));
    AppendCrashSafe(r.log, Out(ToDatabase(cp)));
  }

  lemma AliceBuyCommits(env: Env, x: Swap, rt: Rt, msg: BusMsg)
    requires Tabular(env, x, rt) && rt.ssm.AliceAccordantLock? && StageOk(env, x, Alice, rt.ssm)
      && Truthful(env, rt, msg)
    requires rt.ts == x.ts && CrashSafe(rt.log) && StoredCommitted(rt.log) && HoldsCancel(env, rt)
    ensures var step := TryAliceAccordantLockToAliceBuyProcedureSignature(x, rt, rt.ssm.wallet, msg);
      StoresFit(env, x, rt, step) && StepCommits(rt, step)
  {
    hide StoredFits, Tabular, Tabled, CrashSafe, Truthful, StageOk, TryAliceAccordantLockToAliceBuyProcedureSignature;
    var step := TryAliceAccordantLockToAliceBuyProcedureSignature(x, rt, rt.ssm.wallet, msg);
    if step.Goto? && step.next.AliceBuyProcedureSignature? {
      AliceBuyTabled(env, x, rt, msg);
      BuyGoesAlone(env, x, rt, msg);
      AliceBoughtCommits(env, x, rt, msg);
    } else {
      TailCommits(rt.log, step.rt.log, PublishKinds(rt));
    }
  }

  // ----- every step -----

  lemma BeforeLockLasts(s: SwapStateMachine, next: SwapStateMachine)
    requires Follows(s, next)
    ensures !BeforeLock(s) ==> !BeforeLock(next)
    ensures BeforeLock(s) && !s.BobFunded? && !s.AliceReveal? ==> BeforeLock(next)
  {}

  /** A step that stores nothing keeps what is in store sufficient. */
  lemma PlainCommits(x: Swap, rt: Rt, msg: BusMsg)
    requires CommitPart(rt) && Store !in KindsOf(rt)
    ensures StepCommits(rt, Next(x, rt, msg))
  {
    hide Next, CrashSafe;
    var step := Next(x, rt, msg);
    NextProceeds(x, rt, msg);
    if step.Goto? { BeforeLockLasts(rt.ssm, step.next); }
    TailCommits(rt.log, step.rt.log, KindsOf(rt));
  }

  lemma NextCommits(env: Env, x: Swap, rt: Rt, role: SwapRole, msg: BusMsg)
    requires CommitPart(rt) && rt.ts == x.ts && HoldsCancel(env, rt)
    requires Tabular(env, x, rt) && StageOk(env, x, role, rt.ssm) && CryptoFits(env, x.crypto) && Truthful(env, rt, msg)
    ensures StepCommits(rt, Next(x, rt, msg)) && StoresFit(env, x, rt, Next(x, rt, msg))
  {
    hide Tabular, HoldsCancel, CryptoFits, Truthful, StepCommits, StoresFit, CrashSafe, TryBobFeeEstimatedToBobFunded,
      TryBobFundedToBobRefundProcedureSignatures, TryAliceRevealToAliceCoreArbitratingSetup,
      TryAliceAccordantLockToAliceBuyProcedureSignature;
    match rt.ssm
    case BobFeeEstimated(_, _, _, _) => BobFundedCommits(env, x, rt, msg);
    case BobFunded(_, _, _) => BobRefundCommits(env, x, rt, msg);
    case AliceReveal(_, _, _) => AliceSetUpCommits(env, x, rt, msg);
    case AliceAccordantLock(_) => AliceBuyCommits(env, x, rt, msg);
    case _ => PlainCommits(x, rt, msg); PlainStores(env, x, rt, msg);
  }

  lemma PlainStores(env: Env, x: Swap, rt: Rt, msg: BusMsg)
    requires Store !in KindsOf(rt)
    ensures StoresFit(env, x, rt, Next(x, rt, msg))
  {
    hide Next, StoredFits;
    NextProceeds(x, rt, msg);
  }
}
