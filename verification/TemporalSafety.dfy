/** Timelock and finality arithmetic of one swap. */
module Temporal {
  import opened Types

  const U32_SIZE := 0x1_0000_0000

  /** Subtraction of two u32 values as the machine does it: it wraps below zero. */
  function Sub32(a: nat, b: nat): int {
    if b <= a then a - b else a - b + U32_SIZE
  }

  datatype TemporalSafety = TemporalSafety(
    cancelTimelock: nat,
    punishTimelock: nat,
    raceThr: nat,
    btcFinalityThr: nat,
    xmrFinalityThr: nat,
    sweepMoneroThr: nat)
  {
    predicate ValidParams() {
      && btcFinalityThr < cancelTimelock
      && cancelTimelock < punishTimelock
      && btcFinalityThr < raceThr
      && punishTimelock > raceThr
      && cancelTimelock > raceThr
    }

    predicate FinalTx(confs: nat, chain: Blockchain) {
      confs >= match chain case Bitcoin => btcFinalityThr case Monero => xmrFinalityThr
    }

    predicate StopFundingBeforeCancel(lockConfs: nat) {
      FinalTx(lockConfs, Bitcoin) && lockConfs > Sub32(cancelTimelock, raceThr) + 1
    }

    function BlocksUntilStopFunding(lockConfs: nat): int {
      cancelTimelock - (raceThr + 1 + lockConfs)
    }

    predicate ValidCancel(lockConfs: nat) {
      FinalTx(lockConfs, Bitcoin) && lockConfs >= cancelTimelock
    }

    function BlocksUntilCancel(lockConfs: nat): int {
      cancelTimelock - lockConfs
    }

    predicate SafeBuy(lockConfs: nat) {
      FinalTx(lockConfs, Bitcoin) && lockConfs <= Sub32(cancelTimelock, raceThr)
    }

    predicate SafeRefund(cancelConfs: nat) {
      FinalTx(cancelConfs, Bitcoin) && cancelConfs <= Sub32(punishTimelock, raceThr)
    }

    predicate ValidPunish(cancelConfs: nat) {
      FinalTx(cancelConfs, Bitcoin) && cancelConfs >= punishTimelock
    }

    function BlocksUntilPunishAfterCancel(cancelConfs: nat): int {
      punishTimelock - cancelConfs
    }
  }

  // ----- what the parameters guarantee -----

  /** With valid parameters the 32-bit subtractions do not wrap. */
  lemma NoWrapAround(ts: TemporalSafety)
    requires ts.ValidParams()
    ensures Sub32(ts.cancelTimelock, ts.raceThr) == ts.cancelTimelock - ts.raceThr > 0
    ensures Sub32(ts.punishTimelock, ts.raceThr) == ts.punishTimelock - ts.raceThr > 0
  {}

  /** A count at which buying, or refunding, is still safe lies at least the race margin
      below any count at which cancelling, or punishing, is possible. */
  lemma SafeLeavesTheRaceMargin(ts: TemporalSafety, early: nat, late: nat)
    requires ts.ValidParams()
    ensures ts.SafeBuy(early) && ts.ValidCancel(late) ==> early + ts.raceThr <= late
    ensures ts.SafeRefund(early) && ts.ValidPunish(late) ==> early + ts.raceThr <= late
  {}

  /** Without them it can wrap, and then every count is safe, even one that can cancel. */
  lemma WrapAroundIsUnsafe()
    ensures var ts := TemporalSafety.TemporalSafety(5, 20, 10, 1, 1, 10);
      !ts.ValidParams() && ts.SafeBuy(6) && ts.ValidCancel(6)
  {}

  /** The margin is there for all counts exactly if the race threshold fits into the lock,
      for timelocks that are u32 values and can be final. */
  lemma MarginIffItFits(ts: TemporalSafety)
    requires ts.cancelTimelock < U32_SIZE && ts.raceThr < U32_SIZE && ts.btcFinalityThr <= ts.cancelTimelock
      && ts.raceThr > 0
    ensures (forall a: nat, b: nat :: ts.SafeBuy(a) && ts.ValidCancel(b) ==> a + ts.raceThr <= b) <==>
      ts.raceThr <= ts.cancelTimelock
  {
    if ts.raceThr > ts.cancelTimelock {
      assert ts.SafeBuy(ts.cancelTimelock) && ts.ValidCancel(ts.cancelTimelock);
    }
  }

  /** And likewise between refunding and punishing. */
  lemma RefundMarginIffItFits(ts: TemporalSafety)
    requires ts.punishTimelock < U32_SIZE && ts.raceThr < U32_SIZE && ts.btcFinalityThr <= ts.punishTimelock
      && ts.raceThr > 0
    ensures (forall a: nat, b: nat :: ts.SafeRefund(a) && ts.ValidPunish(b) ==> a + ts.raceThr <= b) <==>
      ts.raceThr <= ts.punishTimelock
  {
    if ts.raceThr > ts.punishTimelock {
      assert ts.SafeRefund(ts.punishTimelock) && ts.ValidPunish(ts.punishTimelock);
    }
  }

  /** Once a transaction can be published it stays so as confirmations grow. */
  lemma PublishingIsMonotone(ts: TemporalSafety, n: nat, m: nat)
    requires n <= m
    ensures ts.ValidCancel(n) ==> ts.ValidCancel(m)
    ensures ts.ValidPunish(n) ==> ts.ValidPunish(m)
  {}

  /** The block counts shown to the user reach zero exactly when publishing is possible. */
  lemma CountdownsAreExact(ts: TemporalSafety, n: nat)
    requires ts.ValidParams()
    ensures ts.ValidCancel(n) <==> ts.BlocksUntilCancel(n) <= 0
    ensures ts.ValidPunish(n) <==> ts.BlocksUntilPunishAfterCancel(n) <= 0
  {}

  /** The countdown to the end of funding is not: it passes zero three blocks before the
      machine stops funding. */
  lemma FundingCountdownIsEarly(ts: TemporalSafety, n: nat)
    requires ts.ValidParams() && ts.FinalTx(n, Bitcoin)
    ensures ts.StopFundingBeforeCancel(n) <==> ts.BlocksUntilStopFunding(n) <= -3
  {}
}
