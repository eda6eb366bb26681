/** The invariant of a swapd, and that every message and every restart keeps it. */
module Runs {
  import opened Types
  import opened Temporal
  import opened SyncerClient
  import opened SwapRuntime
  import opened SwapState
  import opened Execution
  import opened History
  import opened Invariants
  import opened Stages
  import opened Tables
  import opened Commitment
  import opened FundingWindow
  import opened BuyAlone
  import opened Publishing
  import opened ReleaseOrder
  import opened SentMessages
  import opened HeardMessages

  ghost predicate Inv(env: Env, x: Swap, rt: Rt) {
    && StagePart(env, x, rt)
    && TablesPart(env, x, rt)
    && CommitPart(rt)
    && FundingPart(x, rt)
    && PublishPart(env, x, rt)
    && Alone(env, rt)
    && ReleasePart(x, x.RoleOf(rt.tradeRole), rt)
    && SentPart(env, rt)
    && HeardPart(env, rt.log)
  }

  function After(step: Step): Rt {
    if step.Goto? then step.rt.(ssm := step.next) else step.rt
  }

  // ----- one step -----

  lemma StagePartKept(env: Env, x: Swap, rt: Rt, step: Step)
    requires StagePart(env, x, rt) && Proceeds(rt, step) && StoresNext(rt, step)
    requires Staged(env, x, x.RoleOf(rt.tradeRole), step)
    ensures StagePart(env, x, After(step))
  {
    hide StageOk;
    var a, b := rt.log, step.rt.log;
    forall e | e in b && Stores(e)
      ensures e.send.checkpoint.tradeRole == rt.tradeRole
        && StageOk(env, x, x.RoleOf(rt.tradeRole), e.send.checkpoint.state)
    {
      var k :| 0 <= k < |b| && b[k] == e;
      if k < |a| { assert a[k] == e; }
    }
  }

  lemma KeptOkLasts(env: Env, ts: TemporalSafety, s: Syncer, r: Syncer)
    requires KeptOk(env, ts, s) && Grown(s.tasks, r.tasks)
    requires r.lockTxConfs == s.lockTxConfs && r.cancelTxConfs == s.cancelTxConfs && r.buyTxConfs == s.buyTxConfs
    ensures KeptOk(env, ts, r)
  {}

  lemma TablesPartKept(env: Env, x: Swap, rt: Rt, step: Step)
    requires TablesPart(env, x, rt) && Proceeds(rt, step) && Tabled(env, x, rt, step) && StoresFit(env, x, rt, step)
    ensures TablesPart(env, x, After(step))
  {
    hide StoredFits, TablesOk, PlaceOk, KeptOk, Grown, MessageFits;
    KeptOkLasts(env, x.ts, rt.syncer, step.rt.syncer);
    var a, b := rt.log, step.rt.log;
    forall e | e in b && Stores(e) ensures StoredFits(env, x, e.send.checkpoint) {
      var k :| 0 <= k < |b| && b[k] == e;
      if k < |a| { assert a[k] == e; }
    }
  }

  lemma FundingPartKept(x: Swap, rt: Rt, step: Step)
    requires FundingPart(x, rt) && Proceeds(rt, step) && StoresNext(rt, step)
      && StepFunds(x.RoleOf(rt.tradeRole), rt, step)
    ensures FundingPart(x, After(step))
  {
    hide FundingPaired;
    var a, b := rt.log, step.rt.log;
    forall e | e in b && Stores(e) ensures e.send.checkpoint.enquirer.Some? {
      var k :| 0 <= k < |b| && b[k] == e;
      if k < |a| { assert a[k] == e; }
    }
  }

  lemma SentPartKept(env: Env, rt: Rt, step: Step)
    requires SentPart(env, rt) && Proceeds(rt, step) && StepSends(env, step)
    ensures SentPart(env, After(step))
  {
    hide SentFits, HeardPart, StoredPending;
    forall m | m in rt.pendingPeerRequests ensures Sent(step.rt.log, m) {
      var e :| e in rt.log && e.Out? && e.send.ToPeer? && e.send.msg == m;
      assert e in step.rt.log;
    }
  }

  /** What every part of the step assumes. */
  ghost predicate Ready(env: Env, x: Swap, rt: Rt, msg: BusMsg) {
    && CryptoFits(env, x.crypto)
    && Fed(rt, msg) && Truthful(env, rt, msg) && Noted(env, rt, msg)
  }

  lemma StepStage(env: Env, x: Swap, rt: Rt, msg: BusMsg)
    requires StagePart(env, x, rt) && Ready(env, x, rt, msg)
    ensures StagePart(env, x, After(Next(x, rt, msg)))
    ensures Staged(env, x, x.RoleOf(rt.tradeRole), Next(x, rt, msg))
  {
    hide Next, CryptoFits, StageOk, StoredStages, Staged, Noted, Proceeds, StoresNext, MessageFits;
    NextProceeds(x, rt, msg);
    NextStores(x, rt, msg);
    NextStaged(env, x, rt, x.RoleOf(rt.tradeRole), msg);
    StagePartKept(env, x, rt, Next(x, rt, msg));
  }

  /** What is not published is held. */
  lemma CancelIsHeld(env: Env, x: Swap, rt: Rt)
    requires PublishPart(env, x, rt) && rt.ts == x.ts
    ensures HoldsCancel(env, rt)
  {
    hide Published;
  }

  lemma StepGoingAlone(env: Env, x: Swap, rt: Rt, msg: BusMsg)
    requires Alone(env, rt) && HoldsCancel(env, rt) && CommitPart(rt)
    ensures Alone(env, After(Next(x, rt, msg)))
  {
    hide Next, Alone, HoldsCancel, HasCommitted, CrashSafe, OnlyFunded, StoredCommitted;
    NextAlone(env, x, rt, msg);
  }

  lemma StepTables(env: Env, x: Swap, rt: Rt, msg: BusMsg)
    requires StagePart(env, x, rt) && TablesPart(env, x, rt) && CommitPart(rt) && Ready(env, x, rt, msg)
      && HoldsCancel(env, rt)
    ensures TablesPart(env, x, After(Next(x, rt, msg))) && CommitPart(After(Next(x, rt, msg)))
  {
    hide Next, CryptoFits, StageOk, StoredStages, Noted, Follows, Undisturbed, Tail, TablesOk, KeptOk, TxsOk, PlaceOk,
      StoredTables, Truthful, Tabled, StoresFit, CrashSafe, CommitmentOk, HoldsCancel;
    var role := x.RoleOf(rt.tradeRole);
    NextProceeds(x, rt, msg);
    NextTabled(env, x, rt, role, msg);
    NextCommits(env, x, rt, role, msg);
    TablesPartKept(env, x, rt, Next(x, rt, msg));
  }

  lemma StepFunding(env: Env, x: Swap, rt: Rt, msg: BusMsg)
    requires StagePart(env, x, rt) && FundingPart(x, rt)
    ensures FundingPart(x, After(Next(x, rt, msg)))
  {
    hide Next, StageOk, StoredStages, Proceeds, StoresNext, FundingPart, StepFunds;
    NextProceeds(x, rt, msg);
    NextStores(x, rt, msg);
    NextFunds(env, x, rt, msg);
    FundingPartKept(x, rt, Next(x, rt, msg));
  }

  lemma StepPublishing(env: Env, x: Swap, rt: Rt, msg: BusMsg)
    requires StagePart(env, x, rt) && FundingPart(x, rt) && PublishPart(env, x, rt) && rt.ts == x.ts
      && Ready(env, x, rt, msg)
    ensures PublishPart(env, x, After(Next(x, rt, msg)))
  {
    hide Next, StoredStages, PublishPart, CryptoFits, Noted, Truthful, FundingPaired, StoredEnquirers, FundingOpen;
    NextPublishes(env, x, rt, x.RoleOf(rt.tradeRole), msg);
  }

  lemma StepReleasing(env: Env, x: Swap, rt: Rt, msg: BusMsg)
    requires StagePart(env, x, rt) && TablesPart(env, x, rt) && ReleasePart(x, x.RoleOf(rt.tradeRole), rt)
      && Ready(env, x, rt, msg)
    ensures ReleasePart(x, x.RoleOf(rt.tradeRole), After(Next(x, rt, msg)))
      && Next(x, rt, msg).rt.tradeRole == rt.tradeRole
  {
    hide Next, StageOk, StoredStages, StoryOk, ReleasedInOrder, StoredBuys, CryptoFits, Noted, Truthful, TablesOk,
      KeptOk, TxsOk, PlaceOk, StoredTables, Fed;
    NextStoresBuys(env, x, x.RoleOf(rt.tradeRole), rt, msg);
    NextReleases(env, x, x.RoleOf(rt.tradeRole), rt, msg);
    NextProceeds(x, rt, msg);
  }

  lemma StepSending(env: Env, x: Swap, rt: Rt, msg: BusMsg)
    requires StagePart(env, x, rt) && SentPart(env, rt) && Ready(env, x, rt, msg)
    ensures SentPart(env, After(Next(x, rt, msg)))
  {
    hide Next, StageOk, StoredStages, SentPart, HeardPart, StepSends, CryptoFits, Noted, Truthful, Proceeds;
    NextProceeds(x, rt, msg);
    NextSends(env, x, rt, x.RoleOf(rt.tradeRole), msg);
    SentPartKept(env, rt, Next(x, rt, msg));
  }

  lemma StepHearing(env: Env, x: Swap, rt: Rt, msg: BusMsg)
    requires HeardPart(env, rt.log) && Ready(env, x, rt, msg)
    ensures HeardPart(env, After(Next(x, rt, msg)).log)
  {
    hide Next, HeardPart, CryptoFits, Noted, Truthful, Fed;
    NextHeard(env, x, rt, msg);
  }

  /** Every step keeps the invariant, and no error is one of those meant to be unreachable. */
  lemma StepKeeps(env: Env, x: Swap, rt: Rt, msg: BusMsg)
    requires Inv(env, x, rt) && Ready(env, x, rt, msg)
    ensures var step := Next(x, rt, msg);
      Inv(env, x, After(step)) && (step.Fail? ==> step.error.CryptoFailure? || step.error.PeerFault?)
  {
    hide Next, StagePart, CommitPart, FundingPart, PublishPart, Alone, HoldsCancel, ReleasePart, SentPart, HeardPart,
      Ready, TablesOk, KeptOk, TxsOk, PlaceOk, StoredTables, MessageFits;
    CancelIsHeld(env, x, rt);
    StepStage(env, x, rt, msg);
    StepGoingAlone(env, x, rt, msg);
    StepTables(env, x, rt, msg);
    StepFunding(env, x, rt, msg);
    StepPublishing(env, x, rt, msg);
    StepReleasing(env, x, rt, msg);
    StepSending(env, x, rt, msg);
    StepHearing(env, x, rt, msg);
  }

  // ----- noting a message -----

  /** What the environment owes with a syncer event. */
  ghost predicate EventFits(env: Env, rt: Rt, source: ServiceId, e: SyncEvent) {
    && (e.TransactionConfirmations? && e.confirmations.Some? ==> ConfirmationFits(env, rt, e.id, e.confirmations.value))
    && (e.TransactionConfirmations? && e.confirmations.Some? ==>
       SteadyFits(env, rt, source, e.id, e.confirmations.value))
    && (e.TransactionBroadcasted? && e.id in rt.syncer.tasks.tasks ==>
          rt.syncer.tasks.tasks[e.id].BroadcastTransaction?)
  }

  /** Counts of Lock come from the bitcoin syncer and do not fall, or repeat the latest one. */
  ghost predicate SteadyFits(env: Env, rt: Rt, source: ServiceId, id: TaskId, count: nat) {
    env.steady && rt.LabelOf(id) == Some(Lock) && rt.ts.FinalTx(count, Bitcoin) ==>
      var kept := rt.syncer.lockTxConfs;
      || (source == ServiceId.Syncer(Bitcoin) && (kept.Some? ==> kept.value.count <= count))
      || (kept.Some? && kept.value.count == count)
  }

  /** The parts look at nothing but these. */
  lemma SyncerOnly(env: Env, x: Swap, rt: Rt, s: Syncer)
    requires Inv(env, x, rt)
    requires TablesOk(env, s.tasks) && KeptOk(env, x.ts, s) && PlaceOk(env, x, rt.ssm, rt.txs, s.tasks)
    requires s.awaitingFunding == rt.syncer.awaitingFunding
    requires s.tasks.watchedTxs == rt.syncer.tasks.watchedTxs && s.tasks.watchedAddrs == rt.syncer.tasks.watchedAddrs
    requires s.tasks.retrievingTxs == rt.syncer.tasks.retrievingTxs && s.tasks.txids == rt.syncer.tasks.txids
    requires s.tasks.sweepingAddr == rt.syncer.tasks.sweepingAddr
    requires env.steady && rt.syncer.lockTxConfs.Some? ==>
      s.lockTxConfs.Some? && s.lockTxConfs.value.count >= rt.syncer.lockTxConfs.value.count
    ensures Inv(env, x, rt.(syncer := s))
  {
    hide TablesOk, KeptOk, PlaceOk, TxsOk, StageOk, StoredStages, StoredTables, CrashSafe, CommitmentOk,
      FundingPaired, StoredEnquirers, Published, ReleasedInOrder, SentFits, HeardPart, StoredPending, Sent,
      MessageFits, MayAwait, WatchesPayment, SentSweep, Swept, SawBuy, Signed, StoredBuys, AsksAddress, AsksTx,
      Fetches;
  }

  /** An entry that changes nothing but the length of the history. */
  ghost predicate Harmless(env: Env, x: Swap, s: SwapStateMachine, log: seq<Entry>, e: Entry) {
    && !Stores(e) && !IsBroadcast(e) && !AsksFunding(e) && !ClosesFunding(e) && !Begins(e)
    && (Commits(e) ==> StoredCommitted(log) && !BeforeLock(s))
    && (IsBuySignature(e) ==> MayRelease(x, log))
    && (e.Out? && e.send.ToPeer? ==> NamesFit(env, e.send.msg))
    && (e.In? && e.msg.P2p? ==> e.msg.peer in env.sent)
  }

  lemma AppendCommitment(env: Env, x: Swap, rt: Rt, e: Entry)
    requires CommitPart(rt) && Harmless(env, x, rt.ssm, rt.log, e)
    ensures CommitPart(rt.(log := rt.log + [e]))
  {
    hide NamesFit, MayRelease;
    Append(rt.log, e);
    assert HasCommitted(rt.log) ==> StoredCommitted(rt.log) by { assert rt.log[..|rt.log|] == rt.log; }
    AppendCrashSafe(rt.log, e);
  }

  lemma AppendFunding(env: Env, x: Swap, rt: Rt, e: Entry)
    requires FundingPart(x, rt) && Harmless(env, x, rt.ssm, rt.log, e)
    ensures FundingPart(x, rt.(log := rt.log + [e]))
  {
    hide NamesFit, MayRelease, HasCommitted;
    Append(rt.log, e);
  }

  lemma AppendPublishing(env: Env, x: Swap, rt: Rt, e: Entry)
    requires PublishPart(env, x, rt) && Harmless(env, x, rt.ssm, rt.log, e)
    ensures PublishPart(env, x, rt.(log := rt.log + [e]))
  {
    hide NamesFit, MayRelease, HasCommitted, Published;
    AppendQuietly(rt.log, e, rt.runStart);
  }

  lemma AppendGoingAlone(env: Env, x: Swap, rt: Rt, e: Entry)
    requires Alone(env, rt) && Harmless(env, x, rt.ssm, rt.log, e)
    ensures Alone(env, rt.(log := rt.log + [e]))
  {
    hide NamesFit, MayRelease, HasCommitted, StoredCommitted;
  }

  lemma AppendReleasing(env: Env, x: Swap, role: SwapRole, rt: Rt, e: Entry)
    requires ReleasePart(x, role, rt) && Harmless(env, x, rt.ssm, rt.log, e)
    ensures ReleasePart(x, role, rt.(log := rt.log + [e]))
  {
    hide NamesFit, MayRelease, HasCommitted, StoryOk, StoresBuy, ReleasedInOrder;
    AppendRelease(x, rt.log, e);
    StoryGoesOn(x, role, rt.ssm, rt.syncer.tasks, rt.log, rt.syncer.tasks, rt.log + [e]);
  }

  lemma AppendSending(env: Env, x: Swap, rt: Rt, e: Entry)
    requires SentPart(env, rt) && Harmless(env, x, rt.ssm, rt.log, e)
    ensures SentPart(env, rt.(log := rt.log + [e]))
  {
    hide NamesFit, MayRelease, HasCommitted;
    forall m | m in rt.pendingPeerRequests ensures Sent(rt.log + [e], m) {
      var s :| s in rt.log && s.Out? && s.send.ToPeer? && s.send.msg == m;
      assert s in rt.log + [e];
    }
  }

  lemma AppendHearing(env: Env, x: Swap, rt: Rt, e: Entry)
    requires HeardPart(env, rt.log) && Harmless(env, x, rt.ssm, rt.log, e)
    ensures HeardPart(env, rt.log + [e])
  {
    hide NamesFit, MayRelease, HasCommitted, Heard;
    var b := rt.log + [e];
    assert forall k :: 0 <= k < |rt.log| ==> b[..k] == rt.log[..k];
  }

  lemma AppendKeeps(env: Env, x: Swap, rt: Rt, e: Entry)
    requires Inv(env, x, rt) && Harmless(env, x, rt.ssm, rt.log, e)
    ensures Inv(env, x, rt.(log := rt.log + [e]))
  {
    hide Harmless, CommitPart, FundingPart, PublishPart, Alone, ReleasePart, SentPart, HeardPart, StageOk, TablesOk,
      KeptOk, TxsOk, PlaceOk, StoredFits, MessageFits;
    AppendCommitment(env, x, rt, e);
    AppendFunding(env, x, rt, e);
    AppendGoingAlone(env, x, rt, e);
    AppendPublishing(env, x, rt, e);
    AppendReleasing(env, x, x.RoleOf(rt.tradeRole), rt, e);
    AppendSending(env, x, rt, e);
    AppendHearing(env, x, rt, e);
    AppendStored(env, x, rt, e);
  }

  lemma AppendStored(env: Env, x: Swap, rt: Rt, e: Entry)
    requires StoredStages(env, x, rt.tradeRole, rt.log) && StoredTables(env, x, rt.log)
      && Harmless(env, x, rt.ssm, rt.log, e)
    ensures StoredStages(env, x, rt.tradeRole, rt.log + [e]) && StoredTables(env, x, rt.log + [e])
  {
    hide StageOk, StoredFits;
  }

  // ----- noting a syncer event -----

  lemma PlaceLasts(env: Env, x: Swap, s: SwapStateMachine, txs: map<TxLabel, Tx>, t: SyncerTasks, r: SyncerTasks)
    requires PlaceOk(env, x, s, txs, t)
    requires r.watchedTxs == t.watchedTxs && r.watchedAddrs == t.watchedAddrs && r.retrievingTxs == t.retrievingTxs
    requires r.txids == t.txids && r.sweepingAddr == t.sweepingAddr && r.broadcastingTxs <= t.broadcastingTxs
    ensures PlaceOk(env, x, s, txs, r)
  {
    assert forall l :: t.WatchesTx(l) ==> r.WatchesTx(l);
    assert forall l :: t.WatchesAddr(l) ==> r.WatchesAddr(l);
    assert forall l :: t.Retrieves(l) ==> r.Retrieves(l);
  }

  lemma NoteKeeps(env: Env, x: Swap, rt: Rt, id: TaskId, confs: Option<nat>, thr: nat)
    requires Inv(env, x, rt)
    ensures Inv(env, x, rt.NoteConfs(id, confs, thr))
  {
    hide TablesOk, KeptOk, PlaceOk, StagePart, CommitPart, FundingPart, PublishPart, ReleasePart, SentPart, HeardPart,
      Grown;
    var r := rt.NoteConfs(id, confs, thr);
    NoteConfsFits(env, rt, id, confs, thr);
    KeptOkLasts(env, x.ts, rt.syncer, r.syncer);
    PlaceLasts(env, x, rt.ssm, rt.txs, rt.syncer.tasks, r.syncer.tasks);
    SyncerOnly(env, x, rt, r.syncer);
  }

  lemma CacheKeeps(env: Env, x: Swap, rt: Rt, id: TaskId, count: nat)
    requires Inv(env, x, rt) && rt.ts.FinalTx(count, Bitcoin) && ConfirmationFits(env, rt, id, count)
    requires env.steady && rt.LabelOf(id) == Some(Lock) && rt.syncer.lockTxConfs.Some? ==>
      rt.syncer.lockTxConfs.value.count <= count
    ensures Inv(env, x, rt.(syncer := rt.syncer.Cache(id, count)))
  {
    hide TablesOk, PlaceOk, StagePart, CommitPart, FundingPart, PublishPart, ReleasePart, SentPart, HeardPart;
    var s := rt.syncer.Cache(id, count);
    assert KeptOk(env, x.ts, s);
    SyncerOnly(env, x, rt, s);
  }

  lemma BroadcastedKeeps(env: Env, x: Swap, rt: Rt, id: TaskId)
    requires Inv(env, x, rt)
    requires id in rt.syncer.tasks.tasks ==> rt.syncer.tasks.tasks[id].BroadcastTransaction?
    ensures Inv(env, x, rt.WithTasks(rt.syncer.tasks.TransactionBroadcasted(id)))
  {
    hide PlaceOk, StagePart, CommitPart, FundingPart, PublishPart, ReleasePart, SentPart, HeardPart, KeptOk;
    var t := rt.syncer.tasks;
    var r := t.TransactionBroadcasted(id);
    t.TransactionBroadcastedKeeps(id);
    assert TablesOk(env, r);
    KeptOkLasts(env, x.ts, rt.syncer, rt.syncer.(tasks := r));
    PlaceLasts(env, x, rt.ssm, rt.txs, t, r);
    SyncerOnly(env, x, rt, rt.syncer.(tasks := r));
  }

  /** What is noted about an event keeps the invariant and makes the event fit for the machine. */
  lemma RecordKeeps(env: Env, x: Swap, rt: Rt, source: ServiceId, e: SyncEvent)
    requires Inv(env, x, rt) && EventFits(env, rt, source, e)
    ensures Inv(env, x, Record(rt, source, e))
    ensures Truthful(env, Record(rt, source, e), Sync(e)) && Noted(env, Record(rt, source, e), Sync(e))
  {
    hide TablesOk, KeptOk, TxsOk, PlaceOk, StagePart, CommitPart, FundingPart, PublishPart, ReleasePart, SentPart,
      HeardPart, StoredTables;
    match e
    case HeightChanged(height) => HeightKeeps(env, x, rt, source, height);
    case TransactionConfirmations(id, confs) => ConfirmationKeeps(env, x, rt, source, id, confs);
    case TransactionRetrieved(id, found) => RetryKeeps(env, x, rt, source, id, found);
    case TransactionBroadcasted(id) => BroadcastedKeeps(env, x, rt, id);
    case _ =>
  }

  lemma HeightKeeps(env: Env, x: Swap, rt: Rt, source: ServiceId, height: nat)
    requires Inv(env, x, rt)
    ensures Inv(env, x, Record(rt, source, HeightChanged(height)))
  {
    hide TablesOk, PlaceOk, StagePart, CommitPart, FundingPart, PublishPart, ReleasePart, SentPart, HeardPart;
    SyncerOnly(env, x, rt, rt.syncer.HandleHeightChange(height, Bitcoin));
    SyncerOnly(env, x, rt, rt.syncer.HandleHeightChange(height, Monero));
  }

  lemma RetrievalsFetch(env: Env, x: Swap, rt: Rt, id: TaskId)
    requires Inv(env, x, rt) && id in rt.syncer.tasks.retrievingTxs
    ensures rt.syncer.tasks.retrievingTxs[id].1.GetTx?
  {
    hide StagePart, CommitPart, FundingPart, PublishPart, ReleasePart, SentPart, HeardPart, KeptOk, PlaceOk, TxsOk,
      StoredTables;
  }

  lemma RetryKeeps(env: Env, x: Swap, rt: Rt, source: ServiceId, id: TaskId, found: Option<Tx>)
    requires Inv(env, x, rt)
    ensures Inv(env, x, Record(rt, source, TransactionRetrieved(id, found)))
  {
    hide Inv;
    if id in rt.syncer.tasks.retrievingTxs {
      RetrievalsFetch(env, x, rt, id);
      AppendKeeps(env, x, rt, Out(ToSyncer(Bitcoin, rt.syncer.tasks.retrievingTxs[id].1)));
    }
  }

  lemma ConfirmationIsTrue(env: Env, rt: Rt, source: ServiceId, id: TaskId, confs: Option<nat>)
    requires EventFits(env, rt, source, TransactionConfirmations(id, confs))
    ensures var r := Record(rt, source, TransactionConfirmations(id, confs));
      Truthful(env, r, Sync(TransactionConfirmations(id, confs)))
        && Noted(env, r, Sync(TransactionConfirmations(id, confs)))
  {
    hide Rt.NoteConfs, Syncer.Cache;
    RecordedConfirmation(rt, source, id, confs);
  }

  /** Noting a confirmation leaves the watches, and keeps a final count of Lock from the bitcoin syncer. */
  lemma RecordedConfirmation(rt: Rt, source: ServiceId, id: TaskId, confs: Option<nat>)
    ensures var r := Record(rt, source, TransactionConfirmations(id, confs));
      && r.ts == rt.ts
      && r.syncer.tasks.watchedTxs == rt.syncer.tasks.watchedTxs && r.syncer.tasks.tasks == rt.syncer.tasks.tasks
      && (confs.Some? && rt.LabelOf(id) == Some(Lock) && rt.ts.FinalTx(confs.value, Bitcoin) ==>
            (source == ServiceId.Syncer(Bitcoin) ==> r.syncer.lockTxConfs == Some(KeptConfs(id, confs.value))))
      && (r.syncer.lockTxConfs == rt.syncer.lockTxConfs
         || (confs.Some? && r.syncer.lockTxConfs == Some(KeptConfs(id, confs.value))))
  {
    hide Rt.NoteConfs, Syncer.Cache;
    NotesOnly(rt, id, confs, rt.ts.xmrFinalityThr);
    NotesOnly(rt, id, confs, rt.ts.btcFinalityThr);
    if confs.Some? { CachesOnly(rt.NoteConfs(id, confs, rt.ts.btcFinalityThr).syncer, id, confs.value); }
  }

  lemma NotesOnly(rt: Rt, id: TaskId, confs: Option<nat>, thr: nat)
    ensures var r := rt.NoteConfs(id, confs, thr);
      && r == rt.(syncer := r.syncer) && r.syncer.lockTxConfs == rt.syncer.lockTxConfs
      && r.syncer.tasks.watchedTxs == rt.syncer.tasks.watchedTxs && r.syncer.tasks.tasks == rt.syncer.tasks.tasks
  {
  }

  lemma CachesOnly(s: Syncer, id: TaskId, n: nat)
    ensures var r := s.Cache(id, n);
      && r.tasks == s.tasks
      && r.lockTxConfs == if id in s.tasks.watchedTxs
         && s.tasks.watchedTxs[id] == Lock then Some(KeptConfs(id, n)) else s.lockTxConfs
  {
  }

  lemma ConfirmationKeeps(env: Env, x: Swap, rt: Rt, source: ServiceId, id: TaskId, confs: Option<nat>)
    requires Inv(env, x, rt) && EventFits(env, rt, source, TransactionConfirmations(id, confs))
    ensures var r := Record(rt, source, TransactionConfirmations(id, confs));
      && Inv(env, x, r)
      && Truthful(env, r, Sync(TransactionConfirmations(id, confs)))
      && Noted(env, r, Sync(TransactionConfirmations(id, confs)))
  {
    hide Inv, Truthful, Noted;
    ConfirmationIsTrue(env, rt, source, id, confs);
    NoteKeeps(env, x, rt, id, confs, rt.ts.xmrFinalityThr);
    NoteKeeps(env, x, rt, id, confs, rt.ts.btcFinalityThr);
    if confs.Some? && rt.ts.FinalTx(confs.value, Bitcoin) {
      CacheKeeps(env, x, rt.NoteConfs(id, confs, rt.ts.btcFinalityThr), id, confs.value);
    }
  }

  // ----- whole messages -----

  lemma EntersKeeps(env: Env, x: Swap, rt: Rt, msg: BusMsg)
    requires Inv(env, x, rt) && Truthful(env, rt, msg)
    ensures Inv(env, x, rt.(log := rt.log + [In(msg)]))
  {
    hide Inv;
    AppendKeeps(env, x, rt, In(msg));
  }

  /** One message shown to the machine, with its entry in the history. */
  lemma ShownKeeps(env: Env, x: Swap, rt: Rt, msg: BusMsg)
    requires Inv(env, x, rt) && CryptoFits(env, x.crypto) && Truthful(env, rt, msg) && Noted(env, rt, msg)
    ensures var step := Next(x, rt.(log := rt.log + [In(msg)]), msg);
      Inv(env, x, After(step)) && (step.Fail? ==> step.error.CryptoFailure? || step.error.PeerFault?)
  {
    hide Inv, Next, CryptoFits;
    EntersKeeps(env, x, rt, msg);
    StepKeeps(env, x, rt.(log := rt.log + [In(msg)]), msg);
  }

  lemma UnhandledKeeps(env: Env, x: Swap, rt: Rt, m: Option<PeerMsg>)
    requires Inv(env, x, rt) && (m.Some? ==> MessageFits(env, m.value))
    ensures Inv(env, x, rt.(unhandledPeerMessage := m))
  {
    hide TablesOk, KeptOk, TxsOk, PlaceOk, StageOk, StoredStages, StoredTables, MessageFits, CrashSafe, CommitmentOk,
      FundingPaired, StoredEnquirers, MayAwait, Published, ReleasedInOrder, StoredBuys, StoryOk, SentFits, HeardPart,
      StoredPending, Sent;
  }

  /** What comes of a message: the invariant, and only errors that blame somebody else. */
  ghost predicate Outcomes(env: Env, x: Swap, res: Result) {
    Inv(env, x, res.rt) && (res.Err? ==> res.error.CryptoFailure? || res.error.PeerFault?)
  }

  lemma ExecuteKeeps(env: Env, x: Swap, rt: Rt, source: ServiceId, msg: BusMsg)
    requires Inv(env, x, rt) && CryptoFits(env, x.crypto) && Truthful(env, rt, msg) && Noted(env, rt, msg)
    ensures Outcomes(env, x, Execute(x, rt, source, msg))
    decreases One(!Replayable(msg)), Measure(rt), 0
  {
    hide Inv, Next, CryptoFits, Replay, Measure, Noted;
    var r := rt.(log := rt.log + [In(msg)]);
    var step := Next(x, r, msg);
    ShownKeeps(env, x, rt, msg);
    match step
    case Fail(_, _) =>
    case Stay(r1) => if msg.P2p? { UnhandledKeeps(env, x, r1, Some(msg.peer)); }
    case Goto(r1, next) =>
      var r2 := r1.(ssm := next);
      if next.SwapEnd? {
        AppendKeeps(env, x, r2, Out(SwapOutcome(next.outcome)));
      } else {
        UnhandledKeeps(env, x, r2, None);
        RoundLowers(x, rt, msg);
        ReplayKeeps(env, x, if msg.P2p? then r2.(unhandledPeerMessage := None) else r2, source);
      }
  }

  lemma HandleSyncKeeps(env: Env, x: Swap, rt: Rt, source: ServiceId, e: SyncEvent)
    requires Inv(env, x, rt) && CryptoFits(env, x.crypto) && EventFits(env, rt, source, e)
    ensures Outcomes(env, x, HandleSync(x, rt, source, e))
    decreases One(!Replayable(Sync(e))), Measure(rt), 1
  {
    hide Inv, CryptoFits, Execute, Measure;
    RecordKeeps(env, x, rt, source, e);
    ExecuteKeeps(env, x, Record(rt, source, e), source, Sync(e));
  }

  lemma HandleMsgKeeps(env: Env, x: Swap, rt: Rt, source: ServiceId, m: PeerMsg)
    requires Inv(env, x, rt) && CryptoFits(env, x.crypto) && MessageFits(env, m)
    ensures Outcomes(env, x, HandleMsg(x, rt, source, m))
    decreases 0, Measure(rt), 1
  {
    hide Inv, CryptoFits, Execute, Measure, MessageFits;
    if !(source.Peerd? && rt.peerService != source) && m.swapId == x.swapId && !m.PeerAbort? && !m.PingPong? {
      ExecuteKeeps(env, x, rt, source, P2p(m));
    }
  }

  lemma ReplayKeeps(env: Env, x: Swap, rt: Rt, source: ServiceId)
    requires Inv(env, x, rt) && CryptoFits(env, x.crypto)
    ensures Outcomes(env, x, Replay(x, rt, source))
    decreases 0, Measure(rt), 3
  {
    hide Inv, CryptoFits, Measure, HandleMsg, ReplayConfs;
    var u := if rt.unhandledPeerMessage.Some? then HandleMsg(x, rt, source, rt.unhandledPeerMessage.value) else Ok(rt);
    if rt.unhandledPeerMessage.Some? {
      UnhandledFits(env, x, rt);
      HandleMsgKeeps(env, x, rt, source, rt.unhandledPeerMessage.value);
    }
    if u.Ok? {
      KeptEventsFit(env, x, u.rt, source);
      ReplayConfsKeeps(env, x, u.rt, source, u.rt.syncer.buyTxConfs);
      var b := ReplayConfs(x, u.rt, source, u.rt.syncer.buyTxConfs);
      if b.Ok? {
        KeptEventsFit(env, x, b.rt, source);
        ReplayConfsKeeps(env, x, b.rt, source, b.rt.syncer.lockTxConfs);
        var l := ReplayConfs(x, b.rt, source, b.rt.syncer.lockTxConfs);
        if l.Ok? {
          KeptEventsFit(env, x, l.rt, source);
          ReplayConfsKeeps(env, x, l.rt, source, l.rt.syncer.cancelTxConfs);
        }
      }
    }
  }

  lemma UnhandledFits(env: Env, x: Swap, rt: Rt)
    requires Inv(env, x, rt) && rt.unhandledPeerMessage.Some?
    ensures MessageFits(env, rt.unhandledPeerMessage.value)
  {}

  /** The kept confirmations fit the environment as they did when they came. */
  lemma KeptEventsFit(env: Env, x: Swap, rt: Rt, source: ServiceId)
    requires Inv(env, x, rt)
    ensures forall k :: k in {rt.syncer.buyTxConfs, rt.syncer.lockTxConfs, rt.syncer.cancelTxConfs} && k.Some? ==>
      EventFits(env, rt, source, k.value.Event())
  {
    hide TablesOk, TxsOk, PlaceOk, StagePart, CommitPart, FundingPart, PublishPart, ReleasePart, SentPart, HeardPart,
      StoredTables;
  }

  lemma ReplayConfsKeeps(env: Env, x: Swap, rt: Rt, source: ServiceId, kept: Option<KeptConfs>)
    requires Inv(env, x, rt) && CryptoFits(env, x.crypto)
    requires kept.Some? ==> EventFits(env, rt, source, kept.value.Event())
    ensures Outcomes(env, x, ReplayConfs(x, rt, source, kept))
    decreases 0, Measure(rt), 2
  {
    hide Inv, CryptoFits, Measure, HandleSync;
    if kept.Some? { HandleSyncKeeps(env, x, rt, source, kept.value.Event()); }
  }
}
