/** What a party acts on: only messages that were sent to it, and Bob stores the checkpoint
    that commits him only after he was given the refund signatures. */
module HeardMessages {
  import opened SwapRuntime
  import opened SwapState
  import opened Invariants
  import opened ReleaseOrder

  ghost predicate ReceivedFits(env: Env, log: seq<Entry>) {
    forall e :: e in log && e.In? && e.msg.P2p? ==> e.msg.peer in env.sent
  }

  predicate HearsRefund(e: Entry) {
    e.In? && e.msg.P2p? && e.msg.peer.RefundProcedureSignatures?
  }

  ghost predicate Heard(log: seq<Entry>) {
    exists k :: 0 <= k < |log| && HearsRefund(log[k])
  }

  ghost predicate HeardBeforeStored(log: seq<Entry>) {
    forall k :: 0 <= k < |log| && Stores(log[k]) && log[k].send.checkpoint.state.BobRefundProcedureSignatures? ==>
      Heard(log[..k])
  }

  ghost predicate HeardPart(env: Env, log: seq<Entry>) {
    ReceivedFits(env, log) && HeardBeforeStored(log)
  }

  lemma HeardLasts(a: seq<Entry>, b: seq<Entry>)
    requires a <= b && Heard(a)
    ensures Heard(b)
  {
    var k :| 0 <= k < |a| && HearsRefund(a[k]);
    assert b[k] == a[k];
  }

  lemma TailHeard(env: Env, a: seq<Entry>, b: seq<Entry>, kinds: set<Kind>)
    requires HeardPart(env, a) && Tail(a, b, kinds)
    requires forall k :: |a| <= k < |b| && Stores(b[k]) && b[k].send.checkpoint.state.BobRefundProcedureSignatures? ==>
      Heard(a)
    ensures HeardPart(env, b)
  {
    forall k | 0 <= k < |b| && Stores(b[k]) && b[k].send.checkpoint.state.BobRefundProcedureSignatures?
      ensures Heard(b[..k]) {
      if k < |a| { assert b[..k] == a[..k] && b[k] == a[k]; } else { HeardLasts(a, b[..k]); }
    }
    forall e | e in b && e.In? ensures e in a {
      var k :| 0 <= k < |b| && b[k] == e;
      assert k < |a|;
    }
  }

  /** Only the refund signatures take Bob to the state that stores his commitment. */
  lemma LockNeedsSignatures(x: Swap, rt: Rt, msg: BusMsg)
    requires var step := Next(x, rt, msg); step.Goto? && step.next.BobRefundProcedureSignatures?
    ensures msg.P2p? && msg.peer.RefundProcedureSignatures?
  {
    hide BobLock, HandleBobAbortSwap, NextInSetup, NextOfAlice, Framed, Tail, Unasked, Undisturbed;
    NextProceeds(x, rt, msg);
    assert rt.ssm.BobFunded?;
  }

  lemma NextHeard(env: Env, x: Swap, rt: Rt, msg: BusMsg)
    requires HeardPart(env, rt.log) && Fed(rt, msg)
    ensures HeardPart(env, Next(x, rt, msg).rt.log)
  {
    hide Next, ReceivedFits, HeardBeforeStored;
    var step := Next(x, rt, msg);
    NextProceeds(x, rt, msg);
    NextStores(x, rt, msg);
    if step.Goto? && step.next.BobRefundProcedureSignatures? {
      LockNeedsSignatures(x, rt, msg);
      assert HearsRefund(rt.log[|rt.log| - 1]);
    }
    TailHeard(env, rt.log, step.rt.log, KindsOf(rt));
  }
}
