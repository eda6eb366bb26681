/** Both parties on one chain: Alice and Bob run this code, hear only what the other has
    sent, and see only what was true of a chain without deep reorganisations. */
module World {
  import opened Types
  import opened SwapWallet
  import opened SwapRuntime
  import opened History
  import opened Invariants
  import opened Stages
  import opened Tables
  import opened FundingWindow
  import opened Publishing
  import opened ReleaseOrder
  import opened SentMessages
  import opened HeardMessages
  import opened Runs
  import opened Restart
  import opened Handling
  import opened Quiescence
  import opened Guarantees
  import opened Environments
  import opened Chains

  /** What is fixed: the transactions, both parties' parameters, who made the deal, and how
      deep a block has to be to stay. */
  datatype Setting = Setting(txs: Swaptxs, alice: Swap, bob: Swap, aliceTrade: TradeRole, depth: nat) {
    function BobTrade(): TradeRole {
      if aliceTrade == Maker then Taker else Maker
    }
  }

  /** The two processes and the chain. */
  datatype State = State(alice: Rt, bob: Rt, chain: Blocks)

  /** The one transaction each label stands for; monero hashes and funding are free. */
  ghost function MayBe(t: Swaptxs): TxLabel -> iset<Txid> {
    (l: TxLabel) => match l
      case Lock => iset{t.lock}
      case Cancel => iset{t.cancel}
      case Refund => iset{t.refund}
      case Buy => iset{t.buy}
      case Punish => iset{t.punish}
      case _ => iset h: Txid | Any(h)
  }

  /** A party's environment: the transactions that are deep in the chain, and what the
      other party has sent. */
  ghost function EnvOf(g: Setting, chain: Blocks, other: seq<Entry>): Env {
    Env(MayBe(g.txs), iset h | Deep(chain, h, g.depth), iset m | Sent(other, m), false)
  }

  ghost predicate SettingOk(g: Setting) {
    && g.alice.RoleOf(g.aliceTrade) == Alice && g.bob.RoleOf(g.BobTrade()) == Bob
    && CryptoFits(EnvOf(g, [], []), g.alice.crypto) && CryptoFits(EnvOf(g, [], []), g.bob.crypto)
    && 1 <= g.depth <= g.alice.ts.btcFinalityThr && g.depth <= g.bob.ts.btcFinalityThr
  }

  ghost predicate Start(g: Setting, w: State) {
    w == State(Launch(g.alice, g.aliceTrade, []), Launch(g.bob, g.BobTrade(), []), [])
  }

  ghost predicate HandsOut(log: seq<Entry>) {
    exists e :: e in log && IsBroadcast(e)
  }

  /** Lock spends Bob's own funding: no block holds it before he has broadcast anything. */
  ghost predicate LockIsBobs(c: Blocks, t: Swaptxs, bob: seq<Entry>) {
    Mined(c, t.lock) ==> HandsOut(bob)
  }

  ghost predicate ChainMoves(g: Setting, w: State, v: State) {
    && v.alice == w.alice && v.bob == w.bob
    && ShallowReorg(w.chain, v.chain, g.depth)
    && Consensus(v.chain, g.txs, g.alice.ts)
    && LockIsBobs(v.chain, g.txs, v.bob.log)
  }

  ghost predicate AliceMoves(g: Setting, w: State, v: State) {
    Follow(EnvOf(g, w.chain, w.bob.log), g.alice, w.alice, v.alice) && v == w.(alice := v.alice)
  }

  ghost predicate BobMoves(g: Setting, w: State, v: State) {
    Follow(EnvOf(g, w.chain, w.alice.log), g.bob, w.bob, v.bob) && v == w.(bob := v.bob)
  }

  ghost predicate Moves(g: Setting, w: State, v: State) {
    AliceMoves(g, w, v) || BobMoves(g, w, v) || ChainMoves(g, w, v)
  }

  ghost predicate Run(g: Setting, states: seq<State>) {
    && |states| > 0 && Start(g, states[0])
    && forall i :: 0 < i < |states| ==> Moves(g, states[i - 1], states[i])
  }

  // ----- the invariant of both -----

  ghost predicate ChainOk(g: Setting, w: State) {
    && Consensus(w.chain, g.txs, g.alice.ts)
    && LockIsBobs(w.chain, g.txs, w.bob.log)
  }

  ghost predicate WorldOk(g: Setting, w: State) {
    && Sound(EnvOf(g, w.chain, w.bob.log), g.alice, w.alice) && w.alice.tradeRole == g.aliceTrade
    && Sound(EnvOf(g, w.chain, w.alice.log), g.bob, w.bob) && w.bob.tradeRole == g.BobTrade()
    && ChainOk(g, w)
  }

  lemma CryptoSame(g: Setting, chain: Blocks, other: seq<Entry>, c: Crypto)
    requires CryptoFits(EnvOf(g, [], []), c)
    ensures CryptoFits(EnvOf(g, chain, other), c)
  {}

  lemma EnvGrows(g: Setting, chain: Blocks, later: Blocks, other: seq<Entry>, longer: seq<Entry>)
    requires (later == chain || ShallowReorg(chain, later, g.depth)) && other <= longer
    ensures Extends(EnvOf(g, chain, other), EnvOf(g, later, longer))
  {
    forall h | Deep(chain, h, g.depth) ensures Deep(later, h, g.depth) {
      if later != chain { DeepStays(chain, later, h, g.depth); }
    }
    forall m | Sent(other, m) ensures Sent(longer, m) { SentLasts(other, longer, m); }
  }

  /** The chain of a run is only ever reorganised in its newest blocks, however often. */
  lemma {:induction false} ChainEvolves(g: Setting, states: seq<State>, i: nat, j: nat)
    requires SettingOk(g) && Run(g, states) && i <= j < |states|
    ensures ShallowReorg(states[i].chain, states[j].chain, g.depth)
  {
    hide ShallowReorg, AliceMoves, BobMoves, CryptoFits;
    ReorgOfNothing(states[i].chain, g.depth);
    if i < j {
      ChainEvolves(g, states, i, j - 1);
      var w, v := states[j - 1], states[j];
      assert Moves(g, w, v);
      if ChainMoves(g, w, v) {
        ReorgsCompose(states[i].chain, w.chain, v.chain, g.depth);
      } else {
        PartiesSpareTheChain(g, w, v);
      }
    }
  }

  lemma PartiesSpareTheChain(g: Setting, w: State, v: State)
    requires AliceMoves(g, w, v) || BobMoves(g, w, v)
    ensures v.chain == w.chain
  {
    hide Follow;
  }

  /** A syncer that tells the truth fits: a count that a watched transaction has, or had at any
      earlier moment of the run, and that is final for the party, makes it one that stays. */
  lemma TruthFits(g: Setting, states: seq<State>, i: nat, j: nat, rt: Rt, other: seq<Entry>, id: TaskId, count: nat)
    requires SettingOk(g) && Run(g, states) && i <= j < |states|
    requires id in rt.syncer.tasks.tasks && rt.syncer.tasks.tasks[id].WatchTransaction?
    requires Deep(states[i].chain, rt.syncer.tasks.tasks[id].hash, count) && g.depth <= rt.ts.btcFinalityThr
    ensures ConfirmationFits(EnvOf(g, states[j].chain, other), rt, id, count)
  {
    hide SettingOk, Run, ShallowReorg;
    if rt.ts.FinalTx(count, Bitcoin) {
      var h := rt.syncer.tasks.tasks[id].hash;
      var k :| MinedAt(states[i].chain, h, k) && k + count <= |states[i].chain|;
      assert Deep(states[i].chain, h, g.depth);
      ChainEvolves(g, states, i, j);
      DeepStays(states[i].chain, states[j].chain, h, g.depth);
    }
  }

  // ----- every move keeps it -----

  lemma AliceKeeps(g: Setting, w: State, v: State)
    requires SettingOk(g) && WorldOk(g, w) && AliceMoves(g, w, v)
    ensures WorldOk(g, v)
  {
    hide Sound, CryptoFits, Follow, Extends, ChainOk, EnvOf;
    var env := EnvOf(g, w.chain, w.bob.log);
    CryptoSame(g, w.chain, w.bob.log, g.alice.crypto);
    FollowSound(env, g.alice, w.alice, v.alice);
    EnvGrows(g, w.chain, w.chain, w.alice.log, v.alice.log);
    SoundExtends(EnvOf(g, w.chain, w.alice.log), EnvOf(g, w.chain, v.alice.log), g.bob, w.bob);
    ChainSame(g, w, v);
  }

  lemma BobKeeps(g: Setting, w: State, v: State)
    requires SettingOk(g) && WorldOk(g, w) && BobMoves(g, w, v)
    ensures WorldOk(g, v)
  {
    hide Sound, CryptoFits, Follow, Extends, ChainOk, EnvOf;
    var env := EnvOf(g, w.chain, w.alice.log);
    CryptoSame(g, w.chain, w.alice.log, g.bob.crypto);
    FollowSound(env, g.bob, w.bob, v.bob);
    EnvGrows(g, w.chain, w.chain, w.bob.log, v.bob.log);
    SoundExtends(EnvOf(g, w.chain, w.bob.log), EnvOf(g, w.chain, v.bob.log), g.alice, w.alice);
    ChainSame(g, w, v);
  }

  lemma SoundExtends(env: Env, more: Env, x: Swap, rt: Rt)
    requires Extends(env, more) && Sound(env, x, rt)
    ensures Sound(more, x, rt)
  {
    hide Inv, Quiet, Extends;
    InvExtends(env, more, x, rt);
  }

  /** What a party says or does takes nothing from the chain. */
  lemma ChainSame(g: Setting, w: State, v: State)
    requires ChainOk(g, w) && v.chain == w.chain && w.bob.log <= v.bob.log
    ensures ChainOk(g, v)
  {
    if HandsOut(w.bob.log) {
      var e :| e in w.bob.log && IsBroadcast(e);
      assert e in v.bob.log;
    }
  }

  lemma ChainKeeps(g: Setting, w: State, v: State)
    requires SettingOk(g) && WorldOk(g, w) && ChainMoves(g, w, v)
    ensures WorldOk(g, v)
  {
    hide Sound, CryptoFits, Extends, Deep, Consensus, LockIsBobs, ShallowReorg, EnvOf;
    EnvGrows(g, w.chain, v.chain, w.bob.log, w.bob.log);
    EnvGrows(g, w.chain, v.chain, w.alice.log, w.alice.log);
    SoundExtends(EnvOf(g, w.chain, w.bob.log), EnvOf(g, v.chain, w.bob.log), g.alice, w.alice);
    SoundExtends(EnvOf(g, w.chain, w.alice.log), EnvOf(g, v.chain, w.alice.log), g.bob, w.bob);
  }

  lemma StartKeeps(g: Setting, w: State)
    requires SettingOk(g) && Start(g, w)
    ensures WorldOk(g, w)
  {
    hide Sound, CryptoFits;
    LaunchSound(EnvOf(g, [], []), g.alice, g.aliceTrade);
    LaunchSound(EnvOf(g, [], []), g.bob, g.BobTrade());
  }

  /** Every state of every joint run satisfies the joint invariant. */
  lemma {:induction false} RunKeeps(g: Setting, states: seq<State>, i: nat)
    requires SettingOk(g) && Run(g, states) && i < |states|
    ensures WorldOk(g, states[i])
  {
    hide WorldOk, SettingOk, AliceMoves, BobMoves, ChainMoves, Start;
    if i == 0 {
      StartKeeps(g, states[0]);
    } else {
      RunKeeps(g, states, i - 1);
      var w, v := states[i - 1], states[i];
      if AliceMoves(g, w, v) { AliceKeeps(g, w, v); }
      else if BobMoves(g, w, v) { BobKeeps(g, w, v); }
      else { ChainKeeps(g, w, v); }
    }
  }

  // ----- what the end of a party says about the chain -----

  lemma EndIsFinal(g: Setting, chain: Blocks, other: seq<Entry>, x: Swap, rt: Rt)
    requires Sound(EnvOf(g, chain, other), x, rt)
    ensures rt.ssm.EndsIn(SuccessSwap) ==> Deep(chain, g.txs.buy, g.depth)
    ensures rt.ssm.EndsIn(FailureRefund) ==> Deep(chain, g.txs.refund, g.depth)
    ensures rt.ssm.EndsIn(FailurePunish) ==> Deep(chain, g.txs.punish, g.depth) && x.RoleOf(rt.tradeRole) == Alice
    ensures rt.ssm.EndsIn(FailureAbort) ==> !HasCommitted(rt.log)
  {
    hide FundingPart, PublishPart, ReleasePart, SentPart, HeardPart, TablesOk, KeptOk, StoredTables, StoredStages,
      CrashSafe, Quiet;
  }

  /** Bob's commitment comes from Alice's. */
  lemma BobNeedsAlice(g: Setting, w: State)
    requires SettingOk(g) && WorldOk(g, w) && HasCommitted(w.bob.log)
    ensures HasCommitted(w.alice.log)
  {
    hide ChainOk, CryptoFits, Quiet, StagePart, TablesPart, FundingPart, PublishPart, ReleasePart, SentPart, Inv;
    var env := EnvOf(g, w.chain, w.alice.log);
    BobHeard(env, g.bob, w.bob);
    var m :| m in env.sent && m.RefundProcedureSignatures?;
    var e :| e in w.alice.log && e.Out? && e.send.ToPeer? && e.send.msg == m;
    assert Commits(e);
  }

  lemma BobHeard(env: Env, x: Swap, rt: Rt)
    requires Inv(env, x, rt) && x.RoleOf(rt.tradeRole) == Bob && HasCommitted(rt.log)
    ensures exists m :: m in env.sent && m.RefundProcedureSignatures?
  {
    hide TablesPart, FundingPart, PublishPart, ReleasePart, SentPart, StageOk, Committed, HasCommitted;
    SafeNow(rt.log);
    LastIsStored(rt.log);
    var e :| e in rt.log && Stores(e) && e.send.checkpoint == LastCheckpoint(rt.log).value;
    BobsCheckpoint(env, x, e.send.checkpoint);
    var k :| 0 <= k < |rt.log| && rt.log[k] == e;
    assert Heard(rt.log[..k]);
    var j :| 0 <= j < k && HearsRefund(rt.log[..k][j]);
    assert rt.log[j] in rt.log && rt.log[j].msg.peer in env.sent;
  }

  // ----- agreement -----

  ghost predicate Finished(w: State) {
    w.alice.ssm.SwapEnd? && w.bob.ssm.SwapEnd?
  }

  /** Final transactions are on the chain, and whatever is beyond Lock needs Lock. */
  lemma FinalNeedsLock(g: Setting, w: State, h: Txid)
    requires SettingOk(g) && ChainOk(g, w) && Deep(w.chain, h, g.depth)
    requires h == g.txs.buy || h == g.txs.refund || h == g.txs.punish
    ensures Mined(w.chain, h) && HandsOut(w.bob.log)
  {
    DeepIsMined(w.chain, h, g.depth);
    OneWayOut(w.chain, g.txs, g.alice.ts);
  }

  lemma BothEnds(g: Setting, w: State)
    requires SettingOk(g) && WorldOk(g, w)
    ensures w.alice.ssm.EndsIn(FailureAbort) ==> !HasCommitted(w.alice.log) && !HasCommitted(w.bob.log)
    ensures w.bob.ssm.EndsIn(FailureAbort) ==> !HasCommitted(w.bob.log)
    ensures w.alice.ssm.EndsIn(SuccessSwap) || w.bob.ssm.EndsIn(SuccessSwap) ==>
      Mined(w.chain, g.txs.buy) && HandsOut(w.bob.log)
    ensures w.alice.ssm.EndsIn(FailureRefund) || w.bob.ssm.EndsIn(FailureRefund) ==>
      Mined(w.chain, g.txs.refund) && HandsOut(w.bob.log)
    ensures w.alice.ssm.EndsIn(FailurePunish) ==> Mined(w.chain, g.txs.punish) && HandsOut(w.bob.log)
    ensures !w.bob.ssm.EndsIn(FailurePunish)
  {
    hide ChainOk, CryptoFits, Quiet, Inv, Consensus, EnvOf, Mined, HandsOut, HasCommitted, Deep;
    EndIsFinal(g, w.chain, w.bob.log, g.alice, w.alice);
    EndIsFinal(g, w.chain, w.alice.log, g.bob, w.bob);
    if Deep(w.chain, g.txs.buy, g.depth) { FinalNeedsLock(g, w, g.txs.buy); }
    if Deep(w.chain, g.txs.refund, g.depth) { FinalNeedsLock(g, w, g.txs.refund); }
    if Deep(w.chain, g.txs.punish, g.depth) { FinalNeedsLock(g, w, g.txs.punish); }
    if HasCommitted(w.bob.log) { BobNeedsAlice(g, w); }
  }

  lemma HandingOutCommits(log: seq<Entry>)
    requires HandsOut(log)
    ensures HasCommitted(log)
  {
    var e :| e in log && IsBroadcast(e);
    assert Commits(e);
  }

  /** Two parties that run this code and have both ended have ended in the same way. */
  lemma Agreement(g: Setting, states: seq<State>, i: nat)
    requires SettingOk(g) && Run(g, states) && i < |states| && Finished(states[i])
    ensures states[i].alice.ssm == states[i].bob.ssm
    ensures !states[i].alice.ssm.EndsIn(FailurePunish)
  {
    hide WorldOk, Run, SettingOk, Mined, HasCommitted, HandsOut;
    var w := states[i];
    RunKeeps(g, states, i);
    BothEnds(g, w);
    if HandsOut(w.bob.log) { HandingOutCommits(w.bob.log); }
    WaysOut(g, w);
  }

  lemma WaysOut(g: Setting, w: State)
    requires WorldOk(g, w)
    ensures Mined(w.chain, g.txs.buy) ==> !Mined(w.chain, g.txs.refund) && !Mined(w.chain, g.txs.punish)
    ensures !(Mined(w.chain, g.txs.refund) && Mined(w.chain, g.txs.punish))
  {
    hide Sound, EnvOf;
    OneWayOut(w.chain, g.txs, g.alice.ts);
  }

  /** Only Alice is ever punished with, and only while Bob has not ended. */
  lemma PunishMeansBobIsAway(g: Setting, states: seq<State>, i: nat)
    requires SettingOk(g) && Run(g, states) && i < |states|
    ensures states[i].alice.ssm.EndsIn(FailurePunish) ==> !states[i].bob.ssm.SwapEnd?
    ensures !states[i].bob.ssm.EndsIn(FailurePunish)
  {
    hide WorldOk, Run, SettingOk, Mined, HasCommitted, HandsOut;
    RunKeeps(g, states, i);
    BothEnds(g, states[i]);
    if states[i].alice.ssm.EndsIn(FailurePunish) && states[i].bob.ssm.SwapEnd? { Agreement(g, states, i); }
  }

  lemma {:induction false} AbortLasts(g: Setting, states: seq<State>, i: nat, j: nat)
    requires SettingOk(g) && Run(g, states) && i <= j < |states| && states[i].alice.ssm.EndsIn(FailureAbort)
    ensures states[j].alice.ssm.EndsIn(FailureAbort)
  {
    hide SettingOk, Follow, EnvOf, Inv, Quiet, KeptAccepted, ChainMoves;
    if i < j {
      AbortLasts(g, states, i, j - 1);
      RunKeeps(g, states, j - 1);
      var w, v := states[j - 1], states[j];
      assert Moves(g, w, v);
      AliceIsAlice(g);
      if AliceMoves(g, w, v) { AliceAbortLasts(EnvOf(g, w.chain, w.bob.log), g.alice, w.alice, v.alice); }
      if ChainMoves(g, w, v) { ChainSparesAlice(g, w, v); }
    }
  }

  lemma AliceIsAlice(g: Setting)
    requires SettingOk(g)
    ensures g.alice.RoleOf(g.aliceTrade) == Alice
  {
    hide CryptoFits;
  }

  lemma ChainSparesAlice(g: Setting, w: State, v: State)
    requires ChainMoves(g, w, v)
    ensures v.alice == w.alice
  {
  }

  /** Once Alice has aborted nobody ever hands anything to the chain, and Lock is never mined. */
  lemma AbortMeansNoLock(g: Setting, states: seq<State>, i: nat, j: nat)
    requires SettingOk(g) && Run(g, states) && i <= j < |states| && states[i].alice.ssm.EndsIn(FailureAbort)
    ensures states[j].alice.ssm.EndsIn(FailureAbort)
    ensures !HandsOut(states[j].alice.log) && !HandsOut(states[j].bob.log)
    ensures !Mined(states[j].chain, g.txs.lock)
  {
    hide Run, SettingOk, Mined, HasCommitted, HandsOut, Sound, EnvOf, Consensus;
    var w := states[j];
    AbortLasts(g, states, i, j);
    RunKeeps(g, states, j);
    BothEnds(g, w);
    if HandsOut(w.alice.log) { HandingOutCommits(w.alice.log); }
    if HandsOut(w.bob.log) { HandingOutCommits(w.bob.log); }
  }
}
