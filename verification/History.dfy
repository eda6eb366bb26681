/** Reading the history of a swapd: what was stored, sent and broadcast, and in which order. */
module History {
  import opened Types
  import opened SwapRuntime

  /** What is in the checkpoint store after a history: the last one written. */
  function LastCheckpoint(log: seq<Entry>): Option<CheckpointSwapd> {
    if log == [] then None
    else if log[|log| - 1].Out? && log[|log| - 1].send.ToDatabase? then Some(log[|log| - 1].send.checkpoint)
    else LastCheckpoint(log[..|log| - 1])
  }

  predicate IsBroadcast(e: Entry) {
    e.Out? && e.send.ToBroadcast?
  }

  /** What commits a party to the swap: handing out a transaction for broadcast, or, for
      Alice, releasing the signatures that let Bob lock. */
  predicate Commits(e: Entry) {
    e.Out? && (KindOf(e.send).Publish? || KindOf(e.send).Sign?)
  }

  ghost predicate HasCommitted(log: seq<Entry>) {
    exists e :: e in log && Commits(e)
  }

  /** A broadcast with the given label in the run that started at `from`. */
  ghost predicate Published(log: seq<Entry>, from: nat, l: TxLabel) {
    exists e :: e in log[if from <= |log| then from else |log|..] && IsBroadcast(e) && e.send.lbl == Some(l)
  }

  /** The last Monero funding message was a request. */
  predicate FundingOpen(log: seq<Entry>) {
    if log == [] then false
    else if AsksFunding(log[|log| - 1]) then true
    else if ClosesFunding(log[|log| - 1]) then false
    else FundingOpen(log[..|log| - 1])
  }

  predicate AsksFunding(e: Entry) {
    e.Out? && e.send.ToEnquirer? && e.send.info.MoneroFunding?
  }

  predicate ClosesFunding(e: Entry) {
    e.Out? && (e.send.FundingCompleted? || e.send.FundingCanceled?) && e.send.chain == Monero
  }

  /** Every report that the Monero funding is over follows a request still open. */
  ghost predicate FundingPaired(log: seq<Entry>) {
    forall k :: 0 <= k < |log| && ClosesFunding(log[k]) ==> FundingOpen(log[..k])
  }

  /** Once Alice's or Bob's swap is committed the stored checkpoint can finish it. */
  predicate Committed(cp: CheckpointSwapd) {
    var txs := Collect(cp.txs);
    var txids := Collect(cp.txids);
    match cp.state
    case BobRefundProcedureSignatures(_, _, w, sig) =>
      && Cancel in txs && Refund in txs
      && {Lock, Cancel, Refund, Buy} <= txids.Keys
      && Tx(txids[Lock]) in cp.pendingBroadcasts
      && cp.xmrAddrAddendum.Some?
    case AliceCoreArbitratingSetup(_, _, _) =>
      && Cancel in txs && Punish in txs
      && {Lock, Cancel, Refund} <= txids.Keys
      && cp.pendingMsg.Some? && cp.pendingMsg.value.RefundProcedureSignatures?
    case AliceBuyProcedureSignature =>
      && Cancel in txs && Buy in txs && Buy in txids
      && txs[Buy] in cp.pendingBroadcasts
    case _ => false
  }

  predicate StoredCommitted(log: seq<Entry>) {
    LastCheckpoint(log).Some? && Committed(LastCheckpoint(log).value)
  }

  /** At every moment of the history, so at every crash as well: if the party has committed
      itself, the checkpoint then in store is a committed one. */
  ghost predicate CrashSafe(log: seq<Entry>) {
    forall k :: 0 <= k <= |log| && HasCommitted(log[..k]) ==> StoredCommitted(log[..k])
  }

  /** What one more entry changes. */
  lemma Append(log: seq<Entry>, e: Entry)
    ensures LastCheckpoint(log + [e])
      == if e.Out? && e.send.ToDatabase? then Some(e.send.checkpoint) else LastCheckpoint(log)
    ensures HasCommitted(log + [e]) <==> HasCommitted(log) || Commits(e)
    ensures FundingOpen(log + [e]) <==> if AsksFunding(e) then true else !ClosesFunding(e) && FundingOpen(log)
    ensures FundingPaired(log) && (ClosesFunding(e) ==> FundingOpen(log)) ==> FundingPaired(log + [e])
  {
    var l := log + [e];
    assert l[..|log|] == log;
    if HasCommitted(log) { var b :| b in log && Commits(b); assert b in l; }
    if Commits(e) { assert e in l; }
    forall k | 0 <= k < |log| ensures l[..k] == log[..k] {}
  }

  lemma AppendPublished(log: seq<Entry>, e: Entry, from: nat, l: TxLabel)
    requires from <= |log|
    ensures Published(log + [e], from, l) <==> Published(log, from, l) || (IsBroadcast(e) && e.send.lbl == Some(l))
  {
    assert (log + [e])[from..] == log[from..] + [e];
    if Published(log, from, l) {
      var b :| b in log[from..] && IsBroadcast(b) && b.send.lbl == Some(l);
      assert b in (log + [e])[from..];
    }
    if IsBroadcast(e) && e.send.lbl == Some(l) { assert e in (log + [e])[from..]; }
  }

  lemma AppendCrashSafe(log: seq<Entry>, e: Entry)
    requires CrashSafe(log)
    requires HasCommitted(log + [e]) ==> StoredCommitted(log + [e])
    ensures CrashSafe(log + [e])
  {
    var l := log + [e];
    forall k | 0 <= k <= |l| && HasCommitted(l[..k])
      ensures StoredCommitted(l[..k])
    {
      if k <= |log| { assert l[..k] == log[..k]; } else { assert l[..k] == l; }
    }
  }

  // ----- runs -----

  /** Every process starts by watching the chain heights, and never asks for them again. */
  predicate Begins(e: Entry) {
    e.Out? && KindOf(e.send).Begin?
  }

  /** Where the latest run of a history starts. Task ids are unique from there on. */
  function RunStart(log: seq<Entry>): (n: nat)
    ensures n <= |log|
    ensures forall k :: n <= k < |log| ==> !Begins(log[k])
  {
    if log == [] then 0
    else if Begins(log[|log| - 1]) then |log|
    else RunStart(log[..|log| - 1])
  }

  lemma AppendRun(log: seq<Entry>, e: Entry)
    requires !Begins(e)
    ensures RunStart(log + [e]) == RunStart(log)
  {
    assert (log + [e])[..|log|] == log;
  }

  lemma {:induction false} PrefixRun(log: seq<Entry>, k: nat)
    requires RunStart(log) <= k <= |log|
    ensures RunStart(log[..k]) == RunStart(log)
    decreases |log|
  {
    if k < |log| {
      PrefixRun(log[..|log| - 1], k);
      assert log[..|log| - 1][..k] == log[..k];
    } else {
      assert log[..k] == log;
    }
  }

  /** `b` goes on with the run of `a`. */
  ghost predicate SameRun(a: seq<Entry>, b: seq<Entry>) {
    a <= b && forall k :: |a| <= k < |b| ==> !Begins(b[k])
  }

  lemma {:induction false} SameRunStart(a: seq<Entry>, b: seq<Entry>)
    requires SameRun(a, b)
    ensures RunStart(b) == RunStart(a)
    decreases |b|
  {
    if |b| == |a| {
      assert a == b;
    } else {
      SameRunStart(a, b[..|b| - 1]);
    }
  }

  // ----- Bob's release order -----

  predicate IsBuySignature(e: Entry) {
    e.Out? && e.send.ToPeer? && e.send.msg.BuyProcedureSignature?
  }

  /** In this run the address of task `id` was given to the monero syncer to watch. */
  ghost predicate AsksAddress(log: seq<Entry>, id: TaskId) {
    exists w, a :: RunStart(log) <= w < |log| && log[w] == Out(ToSyncer(Monero, WatchAddressXmr(id, a)))
  }

  /** In this run task `id` was sent to watch a bitcoin transaction. */
  ghost predicate AsksTx(log: seq<Entry>, id: TaskId, hash: Txid) {
    exists w :: RunStart(log) <= w < |log| && log[w] == Out(ToSyncer(Bitcoin, WatchTransaction(id, hash)))
  }

  /** An incoming payment of at least the agreed amount, reported by a task. */
  predicate PaysEnough(x: Swap, e: Entry) {
    e.In? && e.msg.Sync? && e.msg.event.AddressTransaction? && e.msg.event.incoming
    && e.msg.event.amount >= x.deal.accordantAmount
  }

  /** In this run a sufficient payment to the shared address was reported by the task that
      watches it, and task `id` was then sent to watch the transaction of that payment. */
  ghost predicate WatchesPayment(x: Swap, log: seq<Entry>, id: TaskId) {
    exists j, m :: RunStart(log) <= j < m < |log|
      && PaysEnough(x, log[j]) && AsksAddress(log[..j], log[j].msg.event.id)
      && log[m] == Out(ToSyncer(Monero, WatchTransaction(id, log[j].msg.event.hash)))
  }

  /** The transaction of such a payment was reported final by the task that watches it. */
  ghost predicate MayRelease(x: Swap, log: seq<Entry>) {
    exists k, id, n: nat :: 0 <= k < |log| && log[k] == In(Sync(TransactionConfirmations(id, Some(n))))
      && n >= x.ts.xmrFinalityThr && WatchesPayment(x, log[..k], id)
  }

  /** Every Buy signature is sent only after a sufficient payment was seen and the very
      transaction of that payment was confirmed. */
  ghost predicate ReleasedInOrder(x: Swap, log: seq<Entry>) {
    forall k :: 0 <= k < |log| && IsBuySignature(log[k]) ==> MayRelease(x, log[..k])
  }

  // ----- Bob's success -----

  /** The signature of the transaction `buy` was sent. */
  ghost predicate Signed(log: seq<Entry>, buy: Txid) {
    exists k :: 0 <= k < |log| && IsBuySignature(log[k]) && log[k].send.msg.buySig.buy == buy
  }

  /** The transaction whose signature was sent was reported final by the task that watches it. */
  ghost predicate Confirmed(x: Swap, log: seq<Entry>, buy: Txid) {
    exists k, id, n: nat :: RunStart(log) <= k < |log| && log[k] == In(Sync(TransactionConfirmations(id, Some(n))))
      && n >= x.ts.btcFinalityThr && AsksTx(log[..k], id, buy) && Signed(log[..k], buy)
  }

  /** And then task `id` was sent to retrieve that transaction. */
  ghost predicate Fetches(x: Swap, log: seq<Entry>, id: TaskId, buy: Txid) {
    exists k :: RunStart(log) <= k < |log| && log[k] == Out(ToSyncer(Bitcoin, GetTx(id, buy)))
      && Confirmed(x, log[..k], buy)
  }

  /** And brought it. */
  ghost predicate SawBuy(x: Swap, log: seq<Entry>) {
    exists k, id, buy, tx :: RunStart(log) <= k < |log| && log[k] == In(Sync(TransactionRetrieved(id, Some(tx))))
      && Fetches(x, log[..k], id, buy)
  }

  predicate IsSweep(e: Entry, id: TaskId) {
    e.Out? && e.send.ToSyncer? && e.send.task.SweepAddress? && e.send.task.id == id
  }

  ghost predicate SentSweep(x: Swap, log: seq<Entry>, id: TaskId) {
    exists k :: RunStart(log) <= k < |log| && IsSweep(log[k], id) && SawBuy(x, log[..k])
  }

  predicate Sweeps(e: Entry, id: TaskId) {
    e.In? && e.msg.Sync? && e.msg.event.SweepSuccess? && e.msg.event.id == id
  }

  /** The sweep task sent last succeeded: the whole story of a successful Bob, in order and
      in one run. */
  ghost predicate Swept(x: Swap, log: seq<Entry>) {
    exists k, id :: RunStart(log) <= k < |log| && Sweeps(log[k], id) && SentSweep(x, log[..k], id)
  }

  // ----- the story lasts -----

  lemma AsksLast(a: seq<Entry>, b: seq<Entry>)
    requires SameRun(a, b)
    ensures forall id :: AsksAddress(a, id) ==> AsksAddress(b, id)
    ensures forall id, hash :: AsksTx(a, id, hash) ==> AsksTx(b, id, hash)
  {
    SameRunStart(a, b);
    forall id | AsksAddress(a, id) ensures AsksAddress(b, id) {
      var w, c :| RunStart(a) <= w < |a| && a[w] == Out(ToSyncer(Monero, WatchAddressXmr(id, c)));
      assert b[w] == a[w];
    }
    forall id, hash | AsksTx(a, id, hash) ensures AsksTx(b, id, hash) {
      var w :| RunStart(a) <= w < |a| && a[w] == Out(ToSyncer(Bitcoin, WatchTransaction(id, hash)));
      assert b[w] == a[w];
    }
  }

  lemma StoryLasts(x: Swap, a: seq<Entry>, b: seq<Entry>)
    requires SameRun(a, b)
    ensures forall buy :: Signed(a, buy) ==> Signed(b, buy)
    ensures forall buy :: Confirmed(x, a, buy) ==> Confirmed(x, b, buy)
    ensures forall id, buy :: Fetches(x, a, id, buy) ==> Fetches(x, b, id, buy)
    ensures SawBuy(x, a) ==> SawBuy(x, b)
    ensures forall id :: SentSweep(x, a, id) ==> SentSweep(x, b, id)
    ensures Swept(x, a) ==> Swept(x, b)
  {
    hide AsksTx;
    SameRunStart(a, b);
    assert forall k :: 0 <= k < |a| ==> a[k] == b[k] && a[..k] == b[..k];
  }

  lemma PaymentLasts(x: Swap, a: seq<Entry>, b: seq<Entry>, id: TaskId)
    requires SameRun(a, b) && WatchesPayment(x, a, id)
    ensures WatchesPayment(x, b, id)
  {
    hide AsksAddress;
    SameRunStart(a, b);
    var j, m :| RunStart(a) <= j < m < |a|
      && PaysEnough(x, a[j]) && AsksAddress(a[..j], a[j].msg.event.id)
      && a[m] == Out(ToSyncer(Monero, WatchTransaction(id, a[j].msg.event.hash)));
    assert b[j] == a[j] && b[m] == a[m] && b[..j] == a[..j];
  }

  /** What is the last word on a story was told before it. */
  lemma ToldBefore(log: seq<Entry>, e: Entry)
    requires e.In?
    ensures var l := log + [e]; l[..|log|] == log && RunStart(l) == RunStart(log) && SameRun(log, l)
  {
    AppendRun(log, e);
  }

  lemma PaymentToldBefore(x: Swap, log: seq<Entry>, e: Entry, id: TaskId)
    requires e.In? && WatchesPayment(x, log + [e], id)
    ensures WatchesPayment(x, log, id)
  {
    hide AsksAddress;
    var l := log + [e];
    AppendRun(log, e);
    var j, m :| RunStart(l) <= j < m < |l|
      && PaysEnough(x, l[j]) && AsksAddress(l[..j], l[j].msg.event.id)
      && l[m] == Out(ToSyncer(Monero, WatchTransaction(id, l[j].msg.event.hash)));
    assert log[j] == l[j] && log[m] == l[m] && log[..j] == l[..j];
  }

  lemma AppendRelease(x: Swap, log: seq<Entry>, e: Entry)
    requires ReleasedInOrder(x, log)
    requires IsBuySignature(e) ==> MayRelease(x, log)
    ensures ReleasedInOrder(x, log + [e])
  {
    hide MayRelease;
    var l := log + [e];
    forall k | 0 <= k < |l| && IsBuySignature(l[k]) ensures MayRelease(x, l[..k]) {
      assert l[..k] == log[..k];
      if k == |log| { assert log[..k] == log; }
    }
  }
}
