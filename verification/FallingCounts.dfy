/** Why the exclusion of Buy and Cancel asks for counts that do not fall: a life of Alice,
    with any valid parameters, in which the count of Lock falls and both go out. */
module FallingCounts {
  import opened Types
  import opened Temporal
  import opened SyncerClient
  import opened SwapWallet
  import opened SwapRuntime
  import opened SwapState
  import opened Execution
  import opened History
  import opened Invariants
  import opened Stages
  import opened Tables
  import opened Commitment
  import opened FundingWindow
  import opened Publishing
  import opened ReleaseOrder
  import opened SentMessages
  import opened HeardMessages
  import opened Handling
  import opened Quiescence
  import opened Guarantees

  /** Cryptography that accepts everything. */
  ghost predicate Accepts(c: Crypto) {
    && (forall role :: c.generateParams(role).Some?)
    && (forall commit, params :: c.opens(commit, params))
    && (forall rev :: c.proofVerifies(rev))
    && (forall setup, l, r :: c.adaptRefund(setup, l, r).Some?)
    && (forall setup, l, r :: c.cosignCancel(setup, l, r).Some?)
    && (forall setup, l, r :: c.completePunish(setup, l, r).Some?)
    && (forall setup, sig :: c.buyVerifies(setup, sig))
  }

  /** A swap that Alice takes. */
  ghost predicate TakenByAlice(x: Swap) {
    Accepts(x.crypto) && x.ts.ValidParams() && x.deal.makerRole == Bob
  }

  const PEERD := ServiceId.Peerd(1, 1)
  const LOCKTASK := 3
  const ADDRESSTASK := 6
  const SETUP := Setup(10, 11, 12, 0)

  function LockCounted(n: nat): BusMsg {
    Sync(TransactionConfirmations(LOCKTASK, Some(n)))
  }

  /** Nothing is kept but, later, the count of Lock; the first run goes on. */
  ghost predicate Ordinary(x: Swap, rt: Rt, kept: Option<nat>) {
    && rt.runStart == 0 && rt.ts == x.ts && rt.peerService == PEERD && !rt.syncer.awaitingFunding
    && rt.unhandledPeerMessage.None? && rt.syncer.buyTxConfs.None? && rt.syncer.cancelTxConfs.None?
    && rt.syncer.lockTxConfs == (if kept.None? then None else Some(KeptConfs(LOCKTASK, kept.value)))
  }

  ghost predicate Taken(x: Swap, rt: Rt) {
    && Ordinary(x, rt, None) && rt.ssm.AliceInitTaker? && rt.syncer.tasks.counter == 2
    && AwaitsCommit(rt.ssm.wallet, Alice) && rt.ssm.local == rt.ssm.wallet.localParams
  }

  ghost predicate CommittedTo(x: Swap, rt: Rt) {
    && Ordinary(x, rt, None) && rt.ssm.AliceTakerMakerCommit? && rt.syncer.tasks.counter == 2
    && AwaitsReveal(rt.ssm.wallet, Alice) && rt.ssm.local.role == Alice && rt.ssm.remoteCommit.role == Bob
  }

  ghost predicate Shown(x: Swap, rt: Rt) {
    && Ordinary(x, rt, None) && rt.ssm.AliceReveal? && rt.syncer.tasks.counter == 2
    && Revealed(rt.ssm.wallet, Alice) && rt.ssm.local.role == Alice && rt.ssm.remote.role == Bob
  }

  ghost predicate WatchesLock(rt: Rt) {
    && rt.LabelOf(LOCKTASK) == Some(Lock) && LOCKTASK <= rt.syncer.tasks.counter
    && LOCKTASK in rt.syncer.tasks.tasks && rt.syncer.tasks.tasks[LOCKTASK].WatchTransaction?
  }

  ghost predicate Watching(rt: Rt) {
    WatchesLock(rt) && Cancel in rt.txs
  }

  ghost predicate SetUp(x: Swap, rt: Rt) {
    && Ordinary(x, rt, None) && rt.ssm.AliceCoreArbitratingSetup? && rt.syncer.tasks.counter == 5
    && AliceSigned(rt.ssm.wallet) && rt.ssm.local.role == Alice && rt.ssm.remote.role == Bob && Watching(rt)
  }

  ghost predicate Locked(x: Swap, rt: Rt) {
    && Ordinary(x, rt, Some(x.ts.btcFinalityThr)) && rt.ssm.AliceArbitratingLockFinal?
    && AliceSigned(rt.ssm.wallet) && rt.ssm.requiredFunding == x.deal.accordantAmount && Watching(rt)
    && rt.AddrLabelOf(ADDRESSTASK) == Some(AccLock)
  }

  ghost predicate Paid(x: Swap, rt: Rt) {
    && Ordinary(x, rt, Some(x.ts.btcFinalityThr)) && rt.ssm.AliceAccordantLock? && AliceSigned(rt.ssm.wallet)
       && Watching(rt)
  }

  /** Cancel is out, and the latest count of Lock is as given. */
  ghost predicate Expired(x: Swap, rt: Rt, n: nat) {
    && Ordinary(x, rt, Some(n)) && rt.ssm.AliceAccordantLock? && AliceSigned(rt.ssm.wallet)
    && WatchesLock(rt) && Published(rt.log, 0, Cancel)
  }

  // ----- replays that move nothing -----

  /** What a replayed confirmation can leave behind. */
  ghost predicate Replayed(rt: Rt, r: Rt) {
    && r == rt.(syncer := r.syncer, log := r.log) && rt.log <= r.log
    && r.syncer == rt.syncer.(tasks := r.syncer.tasks, confirmations := r.syncer.confirmations)
    && r.syncer.tasks == rt.syncer.tasks.(finalTxs := r.syncer.tasks.finalTxs)
  }

  lemma RecordReplays(rt: Rt, source: ServiceId, k: KeptConfs)
    requires rt.syncer.lockTxConfs == Some(k) && rt.LabelOf(k.id) == Some(Lock)
    ensures Replayed(rt, Record(rt, source, k.Event()))
  {
  }

  lemma ConfsRest(x: Swap, rt: Rt, source: ServiceId, k: KeptConfs)
    requires rt.syncer.lockTxConfs == Some(k) && rt.LabelOf(k.id) == Some(Lock) && Idle(rt, k.id, k.count)
    ensures var r := ReplayConfs(x, rt, source, Some(k)); r.Ok? && Replayed(rt, r.rt)
  {
    hide Next, Idle, Record;
    RecordReplays(rt, source, k);
    var r := Record(rt, source, k.Event());
    IdleAgain(rt, r, k);
    IdleStays(x, r.(log := r.log + [In(Sync(k.Event()))]), k.id, k.count);
    assert Execute(x, r, source, Sync(k.Event())) == Ok(r.(log := r.log + [In(Sync(k.Event()))]));
    assert HandleSync(x, rt, source, k.Event()) == Execute(x, r, source, Sync(k.Event()));
  }

  lemma ReplayRests(x: Swap, rt: Rt, source: ServiceId, kept: Option<nat>)
    requires Ordinary(x, rt, kept)
      && (kept.Some? ==> rt.LabelOf(LOCKTASK) == Some(Lock) && Idle(rt, LOCKTASK, kept.value))
    ensures var r := Replay(x, rt, source); r.Ok? && Replayed(rt, r.rt)
  {
    hide Next, Idle, Record, HandleSync;
    if kept.Some? { ConfsRest(x, rt, source, rt.syncer.lockTxConfs.value); }
    assert ReplayConfs(x, rt, source, rt.syncer.buyTxConfs) == Ok(rt);
    var l := ReplayConfs(x, rt, source, rt.syncer.lockTxConfs);
    assert ReplayConfs(x, l.rt, source, l.rt.syncer.cancelTxConfs) == l;
  }

  lemma IdleAgain(rt: Rt, r: Rt, k: KeptConfs)
    requires Replayed(rt, r) && Idle(rt, k.id, k.count)
    ensures Idle(r.(log := r.log + [In(Sync(k.Event()))]), k.id, k.count)
  {
  }

  function Heard(rt: Rt, msg: BusMsg): Rt {
    rt.(log := rt.log + [In(msg)])
  }

  /** A transition after which nothing kept has work left. */
  lemma GoesOn(x: Swap, rt: Rt, source: ServiceId, msg: BusMsg, kept: Option<nat>)
    requires var step := Next(x, Heard(rt, msg), msg);
      && step.Goto? && !step.next.SwapEnd? && Ordinary(x, step.rt.(ssm := step.next), kept)
      && (kept.Some? ==> step.rt.LabelOf(LOCKTASK) == Some(Lock))
      && (kept.Some? ==> Idle(step.rt.(ssm := step.next), LOCKTASK, kept.value))
    ensures var step := Next(x, Heard(rt, msg), msg); var r := Execute(x, rt, source, msg);
      r.Ok? && Replayed(step.rt.(ssm := step.next), r.rt)
  {
    hide Next, Idle, Replay;
    var step := Next(x, Heard(rt, msg), msg);
    ReplayRests(x, step.rt.(ssm := step.next), source, kept);
  }

  // ----- the life -----

  lemma AliceTakes(x: Swap)
    requires TakenByAlice(x)
    ensures var r := Handle(x, Launch(x, Taker, []), ServiceId.Farcasterd,
      Ctl(TakeSwap(PEERD, ServiceId.Client(0), x.swapId)));
      r.Ok? && Taken(x, r.rt)
  {
    hide Execute;
    var rt := Launch(x, Taker, []);
    var msg := Ctl(TakeSwap(PEERD, ServiceId.Client(0), x.swapId));
    var step := Next(x, Heard(rt, msg), msg);
    GoesOn(x, rt, ServiceId.Farcasterd, msg, None);
    assert Taken(x, step.rt.(ssm := step.next));
  }

  lemma MakerCommits(x: Swap, rt: Rt)
    requires TakenByAlice(x) && Taken(x, rt)
    ensures var r := Handle(x, rt, PEERD, P2p(MakerCommit(x.swapId, Commit(Bob, 0)))); r.Ok? && CommittedTo(x, r.rt)
  {
    hide Execute;
    var msg := P2p(MakerCommit(x.swapId, Commit(Bob, 0)));
    var step := Next(x, Heard(rt, msg), msg);
    GoesOn(x, rt, PEERD, msg, None);
    assert CommittedTo(x, step.rt.(ssm := step.next));
  }

  lemma MakerReveals(x: Swap, rt: Rt)
    requires TakenByAlice(x) && CommittedTo(x, rt)
    ensures var r := Handle(x, rt, PEERD, P2p(RevealMsg(x.swapId, Reveal(Params(Bob, 0), 0)))); r.Ok? && Shown(x, r.rt)
  {
    hide Execute;
    var msg := P2p(RevealMsg(x.swapId, Reveal(Params(Bob, 0), 0)));
    var step := Next(x, Heard(rt, msg), msg);
    GoesOn(x, rt, PEERD, msg, None);
    assert Shown(x, step.rt.(ssm := step.next));
  }

  lemma StillShown(x: Swap, rt: Rt, msg: BusMsg)
    requires Shown(x, rt)
    ensures Shown(x, Heard(rt, msg))
  {
  }

  lemma ThreeWatched(rt: Rt)
    requires rt.syncer.tasks.counter == 2
    ensures var q := rt.WatchTxBtc(SETUP.lock, Lock).WatchTxBtc(SETUP.cancel, Cancel).WatchTxBtc(SETUP.refund, Refund);
      && WatchesLock(q) && q.syncer.tasks.counter == 5
      && q == rt.(log := q.log, syncer := rt.syncer.(tasks := q.syncer.tasks))
  {
  }

  lemma SettingUp(x: Swap, rt: Rt)
    requires TakenByAlice(x) && Shown(x, rt)
    ensures var step := Next(x, rt, P2p(CoreArbitrating(x.swapId, SETUP)));
      step.Goto? && SetUp(x, step.rt.(ssm := step.next))
  {
    hide Rt.CheckpointOf, Rt.WatchTxBtc, Framed, Tail, Unasked;
    ThreeWatched(rt);
  }

  lemma BobSetsUp(x: Swap, rt: Rt)
    requires TakenByAlice(x) && Shown(x, rt)
    ensures var r := Handle(x, rt, PEERD, P2p(CoreArbitrating(x.swapId, SETUP))); r.Ok? && SetUp(x, r.rt)
  {
    hide Execute, Next;
    var msg := P2p(CoreArbitrating(x.swapId, SETUP));
    var step := Next(x, Heard(rt, msg), msg);
    StillShown(x, rt, msg);
    SettingUp(x, Heard(rt, msg));
    GoesOn(x, rt, PEERD, msg, None);
    assert SetUp(x, step.rt.(ssm := step.next));
  }

  /** What a final count of Lock changes before the machine sees it. */
  ghost predicate Counted(rt: Rt, r: Rt, n: nat) {
    && r == rt.(syncer := r.syncer)
    && r.syncer == rt.syncer.(tasks := r.syncer.tasks, confirmations := r.syncer.confirmations,
       lockTxConfs := Some(KeptConfs(LOCKTASK, n)))
    && r.syncer.tasks == rt.syncer.tasks.(finalTxs := r.syncer.tasks.finalTxs)
  }

  lemma Counting(rt: Rt, n: nat)
    requires rt.LabelOf(LOCKTASK) == Some(Lock) && n >= rt.ts.btcFinalityThr
    ensures Counted(rt, Record(rt, ServiceId.Syncer(Bitcoin), LockCounted(n).event), n)
  {
  }

  lemma SeesLock(x: Swap, rt: Rt, r: Rt)
    requires TakenByAlice(x) && SetUp(x, rt) && Counted(rt, r, x.ts.btcFinalityThr)
    ensures var step := Next(x, Heard(r, LockCounted(x.ts.btcFinalityThr)), LockCounted(x.ts.btcFinalityThr));
      step.Goto? && Locked(x, step.rt.(ssm := step.next))
  {
    hide Framed, Tail, Unasked, Undisturbed, HandleAliceSwapInterruptAfterLock;
  }

  lemma LockedIsIdle(x: Swap, rt: Rt)
    requires TakenByAlice(x) && (Locked(x, rt) || Paid(x, rt))
    ensures Idle(rt, LOCKTASK, x.ts.btcFinalityThr)
  {
  }

  lemma LockIsFinal(x: Swap, rt: Rt)
    requires TakenByAlice(x) && SetUp(x, rt)
    ensures var r := Handle(x, rt, ServiceId.Syncer(Bitcoin), LockCounted(x.ts.btcFinalityThr));
      r.Ok? && Locked(x, r.rt)
  {
    hide Execute, Next, Record, Counted, TakenByAlice, Idle;
    var n := x.ts.btcFinalityThr;
    var r := Record(rt, ServiceId.Syncer(Bitcoin), LockCounted(n).event);
    Counting(rt, n);
    SeesLock(x, rt, r);
    var step := Next(x, Heard(r, LockCounted(n)), LockCounted(n));
    LockedIsIdle(x, step.rt.(ssm := step.next));
    GoesOn(x, r, ServiceId.Syncer(Bitcoin), LockCounted(n), Some(n));
  }

  function Payment(x: Swap): BusMsg {
    Sync(AddressTransaction(ADDRESSTASK, 20, x.deal.accordantAmount, true, None))
  }

  lemma SeesPayment(x: Swap, rt: Rt)
    requires TakenByAlice(x) && Locked(x, rt)
    ensures var step := Next(x, Heard(rt, Payment(x)), Payment(x)); step.Goto? && Paid(x, step.rt.(ssm := step.next))
  {
    hide Framed, Tail, Unasked, Undisturbed, HandleAliceSwapInterruptAfterLock;
  }

  lemma AlicePays(x: Swap, rt: Rt)
    requires TakenByAlice(x) && Locked(x, rt)
    ensures var r := Handle(x, rt, ServiceId.Syncer(Monero), Payment(x)); r.Ok? && Paid(x, r.rt)
  {
    hide Execute, Next, TakenByAlice, Idle, Locked;
    SeesPayment(x, rt);
    var step := Next(x, Heard(rt, Payment(x)), Payment(x));
    LockedIsIdle(x, step.rt.(ssm := step.next));
    GoesOn(x, rt, ServiceId.Syncer(Monero), Payment(x), Some(x.ts.btcFinalityThr));
  }

  lemma SeesExpiry(x: Swap, rt: Rt)
    requires TakenByAlice(x) && rt.ssm.AliceAccordantLock? && Watching(rt) && rt.ts == x.ts
    ensures Next(x, rt, LockCounted(x.ts.cancelTimelock))
      == Stay(rt.(txs := rt.txs - {Cancel}).Broadcast(rt.txs[Cancel], Some(Cancel)))
  {
    hide Framed, Tail, Unasked, Undisturbed;
  }

  lemma LockExpires(x: Swap, rt: Rt)
    requires TakenByAlice(x) && Paid(x, rt)
    ensures var r := Handle(x, rt, ServiceId.Syncer(Bitcoin), LockCounted(x.ts.cancelTimelock));
      r.Ok? && Expired(x, r.rt, x.ts.cancelTimelock)
  {
    hide Published, Next, Record;
    var n := x.ts.cancelTimelock;
    var c := Record(rt, ServiceId.Syncer(Bitcoin), LockCounted(n).event);
    Counting(rt, n);
    var r := Heard(c, LockCounted(n));
    SeesExpiry(x, r);
    var after := Next(x, r, LockCounted(n)).rt;
    AppendPublished(r.log, after.log[|r.log|], 0, Cancel);
    assert HandleSync(x, rt, ServiceId.Syncer(Bitcoin), LockCounted(n).event)
      == Execute(x, c, ServiceId.Syncer(Bitcoin), LockCounted(n));
  }

  lemma SeesNoExpiry(x: Swap, rt: Rt)
    requires TakenByAlice(x) && rt.ssm.AliceAccordantLock? && rt.LabelOf(LOCKTASK) == Some(Lock) && rt.ts == x.ts
    ensures Next(x, rt, LockCounted(x.ts.btcFinalityThr)) == Stay(rt)
  {
    hide Framed, Tail, Unasked, Undisturbed;
  }

  /** The count falls: the chain has been reorganised, or another bitcoin node answers. */
  lemma LockCountFalls(x: Swap, rt: Rt)
    requires TakenByAlice(x) && Expired(x, rt, x.ts.cancelTimelock)
    ensures var r := Handle(x, rt, ServiceId.Syncer(Bitcoin), LockCounted(x.ts.btcFinalityThr));
      r.Ok? && Expired(x, r.rt, x.ts.btcFinalityThr)
  {
    hide Published, Next, Record;
    var n := x.ts.btcFinalityThr;
    var c := Record(rt, ServiceId.Syncer(Bitcoin), LockCounted(n).event);
    Counting(rt, n);
    SeesNoExpiry(x, Heard(c, LockCounted(n)));
    AppendPublished(rt.log, In(LockCounted(n)), 0, Cancel);
    assert HandleSync(x, rt, ServiceId.Syncer(Bitcoin), LockCounted(n).event)
      == Execute(x, c, ServiceId.Syncer(Bitcoin), LockCounted(n));
  }

  function BobSigns(x: Swap): BusMsg {
    P2p(BuyProcedureSignature(x.swapId, BuySignature(13, 0)))
  }

  /** Alice's answer: Buy goes out as well. */
  lemma SignatureComes(x: Swap, rt: Rt)
    requires TakenByAlice(x) && Expired(x, rt, x.ts.btcFinalityThr)
    ensures HandleBuyProcedureSignature(x.crypto, rt.ssm.wallet, BuySignature(13, 0)).Done?
    ensures !LockExpired(rt.ts, rt.syncer.lockTxConfs)
    ensures var step := Next(x, Heard(rt, BobSigns(x)), BobSigns(x));
      step.Goto? && step.next.AliceBuyProcedureSignature? && Ordinary(x, step.rt, Some(x.ts.btcFinalityThr))
      && step.rt.LabelOf(LOCKTASK) == Some(Lock)
  {
    hide Framed, Tail, Unasked, Undisturbed, Published, ListOf, SyncerTasks.PendingBroadcastTxs;
  }

  ghost predicate BothOut(rt: Rt) {
    Published(rt.log, rt.runStart, Buy) && Published(rt.log, rt.runStart, Cancel)
  }

  lemma PublishedLasts(a: seq<Entry>, b: seq<Entry>, from: nat, l: TxLabel)
    requires a <= b && from <= |a| && Published(a, from, l)
    ensures Published(b, from, l)
  {
    var e :| e in a[from..] && IsBroadcast(e) && e.send.lbl == Some(l);
    assert e in b[from..] by { assert a[from..] <= b[from..]; }
  }

  lemma SignaturePublishes(x: Swap, rt: Rt)
    requires TakenByAlice(x) && Expired(x, rt, x.ts.btcFinalityThr) && !Published(rt.log, 0, Buy)
    ensures BothOut(Next(x, Heard(rt, BobSigns(x)), BobSigns(x)).rt)
  {
    hide Published, TryAliceAccordantLockToAliceBuyProcedureSignature, TakenByAlice;
    SignatureComes(x, rt);
    var h := Heard(rt, BobSigns(x));
    AppendPublished(rt.log, In(BobSigns(x)), 0, Buy);
    AppendPublished(rt.log, In(BobSigns(x)), 0, Cancel);
    BothExactlyWhenTheCountFell(x, h, x.swapId, BuySignature(13, 0));
  }

  lemma BothGoOut(x: Swap, rt: Rt)
    requires TakenByAlice(x) && Expired(x, rt, x.ts.btcFinalityThr) && !Published(rt.log, 0, Buy)
    ensures BothOut(Handle(x, rt, PEERD, BobSigns(x)).rt)
  {
    hide Published, Execute, Next, Idle, TakenByAlice;
    SignatureComes(x, rt);
    SignaturePublishes(x, rt);
    var step := Next(x, Heard(rt, BobSigns(x)), BobSigns(x));
    BoughtIsIdle(x, step.rt.(ssm := step.next));
    GoesOn(x, rt, PEERD, BobSigns(x), Some(x.ts.btcFinalityThr));
    var r := Handle(x, rt, PEERD, BobSigns(x)).rt;
    PublishedLasts(step.rt.log, r.log, 0, Buy);
    PublishedLasts(step.rt.log, r.log, 0, Cancel);
  }

  lemma BoughtIsIdle(x: Swap, rt: Rt)
    requires rt.ssm.AliceBuyProcedureSignature? && rt.LabelOf(LOCKTASK) == Some(Lock)
    ensures Idle(rt, LOCKTASK, x.ts.btcFinalityThr)
  {
  }

  // ----- it is a life -----

  lemma {:induction false} LivesOn(env: Env, x: Swap, rt: Rt, source: ServiceId, msg: BusMsg)
    requires Reachable(env, x, Taker, rt) && Legit(env, rt, source, msg)
    ensures Reachable(env, x, Taker, Handle(x, rt, source, msg).rt)
  {
    hide Handle, Legit, Restarts;
    var states :| |states| > 0 && Life(env, x, Taker, states) && states[|states| - 1] == rt;
    var r := Handle(x, rt, source, msg).rt;
    var more := states + [r];
    assert Follow(env, x, rt, r);
    assert Life(env, x, Taker, more);
  }

  lemma PeerIsLegit(rt: Rt, m: PeerMsg)
    ensures Legit(Anything(false), rt, PEERD, P2p(m))
  {
  }

  lemma CountIsLegit(rt: Rt, n: nat)
    requires WatchesLock(rt)
    ensures Legit(Anything(false), rt, ServiceId.Syncer(Bitcoin), LockCounted(n))
  {
  }

  lemma OthersAreLegit(x: Swap, rt: Rt)
    ensures Legit(Anything(false), rt, ServiceId.Syncer(Monero), Payment(x))
    ensures Legit(Anything(false), rt, ServiceId.Farcasterd, Ctl(TakeSwap(PEERD, ServiceId.Client(0), x.swapId)))
  {
  }

  lemma LaunchIsReachable(env: Env, x: Swap)
    ensures Reachable(env, x, Taker, Launch(x, Taker, []))
  {
    assert Life(env, x, Taker, [Launch(x, Taker, [])]);
  }

  lemma AliceIsSetUp(x: Swap) returns (rt: Rt)
    requires TakenByAlice(x)
    ensures Reachable(Anything(false), x, Taker, rt) && SetUp(x, rt)
  {
    hide Handle, Legit, TakenByAlice, Reachable, Taken, CommittedTo, Shown, SetUp;
    var env, start := Anything(false), Ctl(TakeSwap(PEERD, ServiceId.Client(0), x.swapId));
    rt := Launch(x, Taker, []);
    LaunchIsReachable(env, x);
    OthersAreLegit(x, rt);
    LivesOn(env, x, rt, ServiceId.Farcasterd, start);
    AliceTakes(x);
    rt := Handle(x, rt, ServiceId.Farcasterd, start).rt;
    MakerCommits(x, rt);
    rt := Hears(x, rt, MakerCommit(x.swapId, Commit(Bob, 0)));
    MakerReveals(x, rt);
    rt := Hears(x, rt, RevealMsg(x.swapId, Reveal(Params(Bob, 0), 0)));
    BobSetsUp(x, rt);
    rt := Hears(x, rt, CoreArbitrating(x.swapId, SETUP));
  }

  lemma Hears(x: Swap, rt: Rt, m: PeerMsg) returns (r: Rt)
    requires Reachable(Anything(false), x, Taker, rt)
    ensures r == Handle(x, rt, PEERD, P2p(m)).rt && Reachable(Anything(false), x, Taker, r)
  {
    hide Handle, Legit, Reachable;
    PeerIsLegit(rt, m);
    LivesOn(Anything(false), x, rt, PEERD, P2p(m));
    r := Handle(x, rt, PEERD, P2p(m)).rt;
  }

  lemma Counts(x: Swap, rt: Rt, n: nat) returns (r: Rt)
    requires Reachable(Anything(false), x, Taker, rt) && WatchesLock(rt)
    ensures r == Handle(x, rt, ServiceId.Syncer(Bitcoin), LockCounted(n)).rt && Reachable(Anything(false), x, Taker, r)
  {
    hide Handle, Legit, Reachable, WatchesLock;
    CountIsLegit(rt, n);
    LivesOn(Anything(false), x, rt, ServiceId.Syncer(Bitcoin), LockCounted(n));
    r := Handle(x, rt, ServiceId.Syncer(Bitcoin), LockCounted(n)).rt;
  }

  lemma ExpiryIsReached(x: Swap) returns (rt: Rt)
    requires TakenByAlice(x)
    ensures Reachable(Anything(false), x, Taker, rt) && Expired(x, rt, x.ts.btcFinalityThr)
  {
    hide Handle, Legit, TakenByAlice, Reachable, Locked, Ordinary, AliceSigned, WatchesLock, Published;
    rt := AliceIsSetUp(x);
    LockIsFinal(x, rt);
    rt := Counts(x, rt, x.ts.btcFinalityThr);
    OthersAreLegit(x, rt);
    LivesOn(Anything(false), x, rt, ServiceId.Syncer(Monero), Payment(x));
    AlicePays(x, rt);
    rt := Handle(x, rt, ServiceId.Syncer(Monero), Payment(x)).rt;
    LockExpires(x, rt);
    rt := Counts(x, rt, x.ts.cancelTimelock);
    LockCountFalls(x, rt);
    rt := Counts(x, rt, x.ts.btcFinalityThr);
  }

  lemma ExpiredHasNotBought(x: Swap, rt: Rt)
    requires Reachable(Anything(false), x, Taker, rt) && Expired(x, rt, x.ts.btcFinalityThr)
    ensures !Published(rt.log, rt.runStart, Buy)
  {
    hide Reachable, Published, StagePart, TablesPart, CommitPart, FundingPart, ReleasePart, SentPart, HeardPart,
      Quiet, KeptAccepted;
    AnythingFits(x.crypto, false);
    ReachableSound(Anything(false), x, Taker, rt);
  }

  /** The state in which the Buy signature makes Alice publish both is reached, without a
      crash and with every other promise kept, whatever the timelocks are. */
  lemma BothAreReached(x: Swap) returns (rt: Rt, r: Rt)
    requires TakenByAlice(x)
    ensures Reachable(Anything(false), x, Taker, rt) && rt.ssm.AliceAccordantLock?
    ensures Published(rt.log, rt.runStart, Cancel) && !LockExpired(rt.ts, rt.syncer.lockTxConfs)
    ensures r == Handle(x, rt, PEERD, BobSigns(x)).rt && Reachable(Anything(false), x, Taker, r)
    ensures Published(r.log, r.runStart, Buy) && Published(r.log, r.runStart, Cancel)
  {
    hide Handle, Legit, TakenByAlice, Reachable, Published, AliceSigned;
    rt := ExpiryIsReached(x);
    SignatureComes(x, rt);
    ExpiredHasNotBought(x, rt);
    BothGoOut(x, rt);
    r := Hears(x, rt, BobSigns(x).peer);
  }

  /** There are such swaps. */
  lemma SomeSwapIsTaken(ts: TemporalSafety)
    requires ts.ValidParams()
    ensures exists x: Swap :: TakenByAlice(x) && x.ts == ts
  {
    var c := Crypto(role => Some(Params(role, 0)), _ => 0, _ => 0, (_, _) => true, _ => true, (_, _) => (0, 0), _ => 0,
      _ => 0, _ => true,
                    (_, _, _) => None,
                    (_, _, _) => Some(0), (_, _, _) => Some(0), (_, _, _) => Some(Tx(0)), (_, _) => true,
                      (_, _) => None, (_, _) => true,
                    (_, _) => true, _ => None, (_, _) => None);
    var x := Swap.Swap(c, 0, Deal(0, Bob, 0, 0), ts);
    assert TakenByAlice(x);
  }
}
