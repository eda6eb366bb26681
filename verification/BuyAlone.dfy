/** What a run of Alice has put on the way to the chain, whatever its label: nothing as long as she
    holds Cancel, and nothing but Buy once she has decided for it. */
module BuyAlone {
  import opened Types
  import opened SwapWallet
  import opened SwapRuntime
  import opened SwapState
  import opened History
  import opened Invariants
  import opened Commitment

  /** From an entry on, all that was broadcast is in the list. */
  ghost predicate OnlyOut(log: seq<Entry>, from: nat, txs: seq<Tx>) {
    forall k :: from <= k < |log| && IsBroadcast(log[k]) ==>
      log[k].send.task.BroadcastTransaction? && log[k].send.task.tx in txs
  }

  /** Alice's states after she has signed and before she cancels or buys. */
  predicate BeforeCancel(s: SwapStateMachine) {
    s.AliceCoreArbitratingSetup? || s.AliceArbitratingLockFinal? || s.AliceAccordantLock?
  }

  ghost predicate Alone(env: Env, rt: Rt) {
    && (BeforeCancel(rt.ssm) && Cancel in rt.txs ==> OnlyOut(rt.log, rt.runStart, []))
    && (env.steady && rt.ssm.AliceBuyProcedureSignature? ==>
          Buy in rt.txs && OnlyOut(rt.log, rt.runStart, [rt.txs[Buy]]))
  }

  ghost predicate StepAlone(env: Env, rt: Rt, step: Step) {
    Alone(env, if step.Goto? then step.rt.(ssm := step.next) else step.rt)
  }

  // ----- tails -----

  lemma TailOut(a: seq<Entry>, b: seq<Entry>, kinds: set<Kind>, from: nat, txs: seq<Tx>)
    requires Tail(a, b, kinds) && Publish !in kinds && OnlyOut(a, from, txs)
    ensures OnlyOut(b, from, txs)
  {
  }

  lemma AppendOut(log: seq<Entry>, e: Entry, from: nat, txs: seq<Tx>)
    requires OnlyOut(log, from, txs)
    requires IsBroadcast(e) ==> e.send.task.BroadcastTransaction? && e.send.task.tx in txs
    ensures OnlyOut(log + [e], from, txs)
  {
  }

  lemma UncommittedOut(log: seq<Entry>, from: nat)
    requires !HasCommitted(log)
    ensures OnlyOut(log, from, [])
  {
    forall k | from <= k < |log| ensures !IsBroadcast(log[k]) {
      if IsBroadcast(log[k]) { assert log[k] in log && Commits(log[k]); }
    }
  }

  // ----- every step -----

  /** If Cancel is still there after the step it was before, and the step broadcast nothing. */
  ghost predicate Mild(rt: Rt, step: Step) {
    && rt.log <= step.rt.log
    && (Cancel in step.rt.txs ==>
          Cancel in rt.txs && forall k :: |rt.log| <= k < |step.rt.log| ==> !IsBroadcast(step.rt.log[k]))
  }

  lemma InterruptIsMild(rt: Rt, w: Wallet, msg: BusMsg)
    ensures Mild(rt, HandleAliceSwapInterruptAfterLock(rt, w, msg)) || Cancel !in rt.txs
    ensures Cancel !in rt.txs ==> Cancel !in HandleAliceSwapInterruptAfterLock(rt, w, msg).rt.txs
    ensures HandleAliceSwapInterruptAfterLock(rt, w, msg).Goto? ==>
      HandleAliceSwapInterruptAfterLock(rt, w, msg).next.AliceCanceled?
  {
    hide Framed, Unasked, Undisturbed;
  }

  lemma MildAlone(env: Env, rt: Rt, step: Step)
    requires Alone(env, rt) && BeforeCancel(rt.ssm) && Framed(rt, step.rt)
    requires Mild(rt, step) || (step.Goto? && step.next.AliceCanceled?) || Cancel !in step.rt.txs
    requires step.Goto? ==> !step.next.AliceBuyProcedureSignature?
    ensures StepAlone(env, rt, step)
  {
  }

  lemma LockFinalAlone(env: Env, x: Swap, rt: Rt, msg: BusMsg)
    requires Alone(env, rt) && rt.ssm.AliceCoreArbitratingSetup?
    ensures StepAlone(env, rt, NextOfAlice(x, rt, msg))
  {
    hide HandleAliceSwapInterruptAfterLock, Unasked, Undisturbed, Alone, StepAlone;
    InterruptIsMild(rt, rt.ssm.wallet, msg);
    MildAlone(env, rt, NextOfAlice(x, rt, msg));
  }

  lemma FundingIsMild(rt: Rt, s: SwapStateMachine, id: TaskId, hash: Txid, amount: nat)
    requires s.AliceArbitratingLockFinal?
    ensures Mild(rt, AliceSeesFunding(rt, s, id, hash, amount))
  {
    hide Framed, Unasked;
  }

  lemma AccordantAlone(env: Env, x: Swap, rt: Rt, msg: BusMsg)
    requires Alone(env, rt) && rt.ssm.AliceArbitratingLockFinal?
    ensures StepAlone(env, rt, NextOfAlice(x, rt, msg))
  {
    hide HandleAliceSwapInterruptAfterLock, AliceSeesFunding, Unasked, Undisturbed, Alone, StepAlone, Tail;
    InterruptIsMild(rt, rt.ssm.wallet, msg);
    if msg.Sync? && msg.event.AddressTransaction? {
      FundingIsMild(rt, rt.ssm, msg.event.id, msg.event.hash, msg.event.amount);
    }
    MildAlone(env, rt, NextOfAlice(x, rt, msg));
  }

  lemma BuySplits(x: Swap, rt: Rt, w: Wallet, msg: BusMsg) returns (a: seq<Entry>, e: Entry, c: Entry)
    requires TryAliceAccordantLockToAliceBuyProcedureSignature(x, rt, w, msg).Goto?
    requires TryAliceAccordantLockToAliceBuyProcedureSignature(x, rt, w, msg).next.AliceBuyProcedureSignature?
    ensures var step := TryAliceAccordantLockToAliceBuyProcedureSignature(x, rt, w, msg);
      && step.rt.log == a + [e] + [c] && Tail(rt.log, a, {}) && !IsBroadcast(c)
      && Buy in step.rt.txs && step.rt.runStart == rt.runStart
      && IsBroadcast(e) && e.send.task.BroadcastTransaction? && e.send.task.tx == step.rt.txs[Buy]
    ensures !(rt.syncer.lockTxConfs.Some? && rt.ts.ValidCancel(rt.syncer.lockTxConfs.value.count))
  {
    hide Framed, Unasked, Undisturbed, HandleAliceSwapInterruptAfterLock, Rt.CheckpointOf;
    var q := rt.WatchTxBtc(msg.peer.buySig.buy, Buy);
    var buy := HandleBuyProcedureSignature(x.crypto, w, msg.peer.buySig).value.1;
    a := q.log;
    e := Out(ToBroadcast(Some(Buy), q.syncer.tasks.Broadcast(buy).LastTask()));
    var step := TryAliceAccordantLockToAliceBuyProcedureSignature(x, rt, w, msg);
    c := step.rt.log[|a| + 1];
  }

  /** The decision for Buy: with counts that do not fall Cancel was still there. */
  lemma DecidesAlone(env: Env, x: Swap, rt: Rt, msg: BusMsg)
    requires Alone(env, rt) && rt.ssm.AliceAccordantLock? && HoldsCancel(env, rt)
    requires var step := TryAliceAccordantLockToAliceBuyProcedureSignature(x, rt, rt.ssm.wallet, msg);
      step.Goto? && step.next.AliceBuyProcedureSignature?
    ensures StepAlone(env, rt, TryAliceAccordantLockToAliceBuyProcedureSignature(x, rt, rt.ssm.wallet, msg))
  {
    hide TryAliceAccordantLockToAliceBuyProcedureSignature, OnlyOut, Framed, Unasked, Undisturbed;
    var step := TryAliceAccordantLockToAliceBuyProcedureSignature(x, rt, rt.ssm.wallet, msg);
    var a, e, c := BuySplits(x, rt, rt.ssm.wallet, msg);
    if env.steady {
      TailOut(rt.log, a, {}, rt.runStart, []);
      WiderOut(a, rt.runStart, step.rt.txs[Buy]);
      AppendOut(a, e, rt.runStart, [step.rt.txs[Buy]]);
      AppendOut(a + [e], c, rt.runStart, [step.rt.txs[Buy]]);
    }
  }

  lemma WiderOut(log: seq<Entry>, from: nat, tx: Tx)
    requires OnlyOut(log, from, [])
    ensures OnlyOut(log, from, [tx])
  {
  }

  lemma SignatureIsMild(x: Swap, rt: Rt, w: Wallet, msg: BusMsg)
    requires msg.P2p? && msg.peer.BuyProcedureSignature?
    ensures var step := TryAliceAccordantLockToAliceBuyProcedureSignature(x, rt, w, msg);
      && !step.Stay? && (step.Fail? ==> Mild(rt, step))
  {
    hide Framed, Unasked, Undisturbed, HandleAliceSwapInterruptAfterLock, Rt.CheckpointOf, HandleBuyProcedureSignature;
  }

  lemma BuySignatureAlone(env: Env, x: Swap, rt: Rt, msg: BusMsg)
    requires Alone(env, rt) && rt.ssm.AliceAccordantLock? && HoldsCancel(env, rt)
    ensures StepAlone(env, rt, TryAliceAccordantLockToAliceBuyProcedureSignature(x, rt, rt.ssm.wallet, msg))
  {
    hide Alone, StepAlone, HoldsCancel, Mild, HandleAliceSwapInterruptAfterLock, HandleBuyProcedureSignature, Unasked,
      Undisturbed, Rt.CheckpointOf;
    var step := TryAliceAccordantLockToAliceBuyProcedureSignature(x, rt, rt.ssm.wallet, msg);
    if step.Goto? && step.next.AliceBuyProcedureSignature? {
      DecidesAlone(env, x, rt, msg);
    } else {
      if msg.P2p? && msg.peer.BuyProcedureSignature? {
        SignatureIsMild(x, rt, rt.ssm.wallet, msg);
      } else {
        InterruptIsMild(rt, rt.ssm.wallet, msg);
      }
      MildAlone(env, rt, step);
    }
  }

  lemma SetUpAlone(env: Env, x: Swap, rt: Rt, msg: BusMsg)
    requires rt.ssm.AliceReveal? && !HasCommitted(rt.log)
    ensures StepAlone(env, rt, NextOfAlice(x, rt, msg))
  {
    hide OnlyOut, HasCommitted, Unasked, TryAliceRevealToAliceCoreArbitratingSetup;
    UncommittedOut(rt.log, rt.runStart);
    TailOut(rt.log, NextOfAlice(x, rt, msg).rt.log, {Store, Sign}, rt.runStart, []);
  }

  lemma BoughtAlone(env: Env, x: Swap, rt: Rt, msg: BusMsg)
    requires Alone(env, rt) && rt.ssm.AliceBuyProcedureSignature?
    ensures StepAlone(env, rt, NextOfAlice(x, rt, msg))
  {
    hide OnlyOut, Unasked;
  }

  /** No other state leads to these. */
  lemma OthersAlone(env: Env, x: Swap, rt: Rt, msg: BusMsg)
    requires !BeforeCancel(rt.ssm) && !rt.ssm.AliceReveal? && !rt.ssm.AliceBuyProcedureSignature?
    ensures StepAlone(env, rt, Next(x, rt, msg))
  {
    hide Next, OnlyOut, Tail, Unasked, Undisturbed;
    NextProceeds(x, rt, msg);
  }

  lemma NextAlone(env: Env, x: Swap, rt: Rt, msg: BusMsg)
    requires Alone(env, rt) && HoldsCancel(env, rt) && (BeforeLock(rt.ssm) ==> !HasCommitted(rt.log))
    ensures StepAlone(env, rt, Next(x, rt, msg))
  {
    hide Alone, StepAlone, HoldsCancel, HasCommitted, NextInSetup, NextOfBob,
      TryAliceAccordantLockToAliceBuyProcedureSignature;
    if rt.ssm.AliceReveal? {
      SetUpAlone(env, x, rt, msg);
    } else if rt.ssm.AliceCoreArbitratingSetup? {
      LockFinalAlone(env, x, rt, msg);
    } else if rt.ssm.AliceArbitratingLockFinal? {
      AccordantAlone(env, x, rt, msg);
    } else if rt.ssm.AliceAccordantLock? {
      BuySignatureAlone(env, x, rt, msg);
    } else if rt.ssm.AliceBuyProcedureSignature? {
      BoughtAlone(env, x, rt, msg);
    } else {
      OthersAlone(env, x, rt, msg);
    }
  }
}
