/** A small bitcoin chain: which of a swap's five transactions each block holds, under the
    spending rules and the relative lock times of BIP 68 and BIP 112. */
module Chains {
  import opened Types
  import opened Temporal

  /** The transactions of one swap. Buy and Cancel spend Lock; Refund and Punish spend Cancel. */
  datatype Swaptxs = Swaptxs(lock: Txid, cancel: Txid, refund: Txid, buy: Txid, punish: Txid)

  type Blocks = seq<set<Txid>>

  ghost predicate MinedAt(c: Blocks, h: Txid, i: int) {
    0 <= i < |c| && h in c[i]
  }

  ghost predicate Mined(c: Blocks, h: Txid) {
    exists i :: MinedAt(c, h, i)
  }

  /** With at least `depth` confirmations: the block itself counts as the first. */
  ghost predicate Deep(c: Blocks, h: Txid, depth: nat) {
    exists i :: MinedAt(c, h, i) && i + depth <= |c|
  }

  /** `child` is mined only at least `delay` blocks above `parent`. */
  ghost predicate Spends(c: Blocks, child: Txid, parent: Txid, delay: nat) {
    forall i :: MinedAt(c, child, i) ==> exists j :: MinedAt(c, parent, j) && j + delay <= i
  }

  ghost predicate Once(c: Blocks, h: Txid) {
    forall i, j :: MinedAt(c, h, i) && MinedAt(c, h, j) ==> i == j
  }

  /** What every node agrees on about the five transactions. */
  ghost predicate Consensus(c: Blocks, t: Swaptxs, ts: TemporalSafety) {
    && Once(c, t.lock) && Once(c, t.cancel)
    && Spends(c, t.buy, t.lock, 0) && Spends(c, t.cancel, t.lock, ts.cancelTimelock)
    && Spends(c, t.refund, t.cancel, 0) && Spends(c, t.punish, t.cancel, ts.punishTimelock)
    && !(Mined(c, t.buy) && Mined(c, t.cancel))
    && !(Mined(c, t.refund) && Mined(c, t.punish))
  }

  /** A replacement of the newest blocks that leaves final ones alone. */
  ghost predicate ShallowReorg(c: Blocks, d: Blocks, depth: nat) {
    |c| <= |d| && exists k :: 0 <= k <= |c| && k + depth > |c| && d[..k] == c[..k]
  }

  /** One reorganisation after another is no deeper than each. */
  lemma ReorgsCompose(c: Blocks, d: Blocks, e: Blocks, depth: nat)
    requires ShallowReorg(c, d, depth) && ShallowReorg(d, e, depth)
    ensures ShallowReorg(c, e, depth)
  {
    var k :| 0 <= k <= |c| && k + depth > |c| && d[..k] == c[..k];
    var l :| 0 <= l <= |d| && l + depth > |d| && e[..l] == d[..l];
    var m := if k < l then k else l;
    assert e[..m] == e[..l][..m] == d[..m] == d[..k][..m] == c[..m];
  }

  lemma ReorgOfNothing(c: Blocks, depth: nat)
    requires depth > 0
    ensures ShallowReorg(c, c, depth)
  {
    assert c[..|c|] == c[..|c|];
  }

  /** What is deep stays mined, and deep, in every later chain. */
  lemma DeepStays(c: Blocks, d: Blocks, h: Txid, depth: nat)
    requires ShallowReorg(c, d, depth) && Deep(c, h, depth)
    ensures Deep(d, h, depth)
  {
    var i :| MinedAt(c, h, i) && i + depth <= |c|;
    var k :| 0 <= k <= |c| && k + depth > |c| && d[..k] == c[..k];
    assert d[..k][i] == c[..k][i];
    assert MinedAt(d, h, i);
  }

  lemma DeepIsMined(c: Blocks, h: Txid, depth: nat)
    requires Deep(c, h, depth)
    ensures Mined(c, h)
  {
    var i :| MinedAt(c, h, i) && i + depth <= |c|;
  }

  /** The count that lets swapd publish Cancel is the very count from which the next block
      may hold it: the relative lock time has passed. */
  lemma CancelIsMineable(c: Blocks, t: Swaptxs, ts: TemporalSafety, j: nat)
    requires Once(c, t.lock) && MinedAt(c, t.lock, j) && ts.btcFinalityThr < ts.cancelTimelock
    requires !Mined(c, t.cancel) && t.lock != t.cancel
    ensures Spends(c + [{t.cancel}], t.cancel, t.lock, ts.cancelTimelock) <==> ts.ValidCancel(|c| - j)
  {
    var d := c + [{t.cancel}];
    assert MinedAt(d, t.cancel, |c|);
    assert MinedAt(d, t.lock, j);
    forall i | MinedAt(d, t.cancel, i) ensures i == |c| {
      assert i < |c| ==> MinedAt(c, t.cancel, i);
    }
    forall i | MinedAt(d, t.lock, i) ensures i == j {
      assert i < |c| ==> MinedAt(c, t.lock, i);
    }
  }

  /** Until Lock has more confirmations than that, Cancel is in no block. */
  lemma CancelMeansExpired(c: Blocks, t: Swaptxs, ts: TemporalSafety, j: nat)
    requires Consensus(c, t, ts) && MinedAt(c, t.lock, j)
    ensures Mined(c, t.cancel) ==> |c| - j > ts.cancelTimelock
  {
    if Mined(c, t.cancel) {
      var i :| MinedAt(c, t.cancel, i);
      var k :| MinedAt(c, t.lock, k) && k + ts.cancelTimelock <= i;
    }
  }

  /** At most one way out: of Lock, and of Cancel. */
  lemma OneWayOut(c: Blocks, t: Swaptxs, ts: TemporalSafety)
    requires Consensus(c, t, ts)
    ensures Mined(c, t.buy) ==> !Mined(c, t.refund) && !Mined(c, t.punish) && Mined(c, t.lock)
    ensures Mined(c, t.refund) || Mined(c, t.punish) ==> Mined(c, t.cancel) && Mined(c, t.lock)
  {
    if Mined(c, t.buy) {
      var i :| MinedAt(c, t.buy, i);
      var j :| MinedAt(c, t.lock, j) && j + 0 <= i;
    }
    if Mined(c, t.refund) {
      var i :| MinedAt(c, t.refund, i);
      var j :| MinedAt(c, t.cancel, j) && j + 0 <= i;
      CancelNeedsLock(c, t, ts);
    }
    if Mined(c, t.punish) {
      var i :| MinedAt(c, t.punish, i);
      var j :| MinedAt(c, t.cancel, j) && j + ts.punishTimelock <= i;
      CancelNeedsLock(c, t, ts);
    }
  }

  lemma CancelNeedsLock(c: Blocks, t: Swaptxs, ts: TemporalSafety)
    requires Consensus(c, t, ts) && Mined(c, t.cancel)
    ensures Mined(c, t.lock)
  {
    var i :| MinedAt(c, t.cancel, i);
    var j :| MinedAt(c, t.lock, j) && j + ts.cancelTimelock <= i;
  }
}
