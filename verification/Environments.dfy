/** The invariant survives a growing environment: what was sent stays sent, and what was
    final stays final. */
module Environments {
  import opened Types
  import opened SyncerClient
  import opened SwapRuntime
  import opened History
  import opened Invariants
  import opened Stages
  import opened Tables
  import opened Commitment
  import opened FundingWindow
  import opened Publishing
  import opened ReleaseOrder
  import opened SentMessages
  import opened HeardMessages
  import opened Runs

  ghost predicate Extends(env: Env, more: Env) {
    && more.may == env.may && more.steady == env.steady
    && (forall h :: h in env.finals ==> h in more.finals)
    && (forall m :: m in env.sent ==> m in more.sent)
  }

  lemma StageExtends(env: Env, more: Env, x: Swap, role: SwapRole, s: SwapStateMachine)
    requires Extends(env, more) && StageOk(env, x, role, s)
    ensures StageOk(more, x, role, s)
  {}

  lemma PlaceExtends(env: Env, more: Env, x: Swap, s: SwapStateMachine, txs: map<TxLabel, Tx>, t: SyncerTasks)
    requires Extends(env, more) && PlaceOk(env, x, s, txs, t)
    ensures PlaceOk(more, x, s, txs, t)
  {
    hide NoAccLock, BobTables, WatchesArbitrating, KnowsSetup;
    assert forall l :: Final(env, l) ==> Final(more, l);
  }

  lemma TablesExtend(env: Env, more: Env, x: Swap, rt: Rt)
    requires Extends(env, more) && TablesPart(env, x, rt)
    ensures TablesPart(more, x, rt)
  {
    hide PlaceOk, SyncerTasks.Valid, Syncer.CachesMatch, Committed, KnowsSetup;
    PlaceExtends(env, more, x, rt.ssm, rt.txs, rt.syncer.tasks);
    assert forall l :: Final(env, l) ==> Final(more, l);
    assert forall e :: e in rt.log && Stores(e) && StoredFits(env, x, e.send.checkpoint) ==>
      StoredFits(more, x, e.send.checkpoint);
  }

  lemma StagesExtend(env: Env, more: Env, x: Swap, rt: Rt)
    requires Extends(env, more) && StagePart(env, x, rt)
    ensures StagePart(more, x, rt)
  {
    hide StageOk;
    var role := x.RoleOf(rt.tradeRole);
    StageExtends(env, more, x, role, rt.ssm);
    forall e | e in rt.log && Stores(e) ensures StageOk(more, x, role, e.send.checkpoint.state) {
      StageExtends(env, more, x, role, e.send.checkpoint.state);
    }
  }

  lemma SentExtends(env: Env, more: Env, rt: Rt)
    requires Extends(env, more) && SentPart(env, rt)
    ensures SentPart(more, rt)
  {
    hide Sent;
    assert forall m :: NamesFit(env, m) ==> NamesFit(more, m);
  }

  lemma InvExtends(env: Env, more: Env, x: Swap, rt: Rt)
    requires Extends(env, more) && Inv(env, x, rt)
    ensures Inv(more, x, rt)
  {
    hide StagePart, TablesPart, CommitPart, FundingPart, ReleasePart, SentPart, HeardBeforeStored, KeptOrPublished,
      Published;
    StagesExtend(env, more, x, rt);
    TablesExtend(env, more, x, rt);
    SentExtends(env, more, rt);
  }
}
