/** The settlement waterfall: platform fee, referee reward, developer share, payouts. */
module Fees {
  import opened Tables

  const WHOLE := 10000

  /** n/d to the nearest integer, halves away from zero, for n >= 0. */
  function RoundHalfUp(n: int, d: int): int
    requires d > 0
  {
    (2 * n + d) / (2 * d)
  }

  /** `percent` ten-thousandths of an amount in pence. */
  function Share(amount: int, percent: int): int {
    RoundHalfUp(amount * percent, WHOLE)
  }

  function PlatformFee(stake: int, feePercent: int): int {
    Share(2 * stake, feePercent)
  }

  /** 10% (or whatever the assignment says) of the fee, and only when a referee holds it. */
  function RefereeFee(fee: int, assignment: Option<Assignment>): int {
    if assignment.Some? && assignment.value.referee.Some? && fee > 0
    then Share(fee, assignment.value.rewardPercent) else 0
  }

  function DeveloperShare(fee: int, refereeFee: int, revShare: int): int {
    if revShare > 0 && fee > 0 then Share(fee - refereeFee, revShare) else 0
  }

  /** What each player is paid out of the escrow that is left after the fee. */
  function PayoutA(remaining: int, outcome: BetOutcome): int {
    match outcome
    case DRAW => RoundHalfUp(remaining, 2)
    case PLAYER_A_WIN => remaining
    case PLAYER_B_WIN => 0
  }

  function PayoutB(remaining: int, outcome: BetOutcome): int {
    match outcome
    case DRAW => remaining - RoundHalfUp(remaining, 2)
    case PLAYER_A_WIN => 0
    case PLAYER_B_WIN => remaining
  }

  lemma RoundedIsNearest(n: int, d: int)
    requires d > 0
    ensures -d <= 2 * (n - d * RoundHalfUp(n, d)) < d
  {
    var r := RoundHalfUp(n, d);
    assert 2 * n + d == 2 * d * r + (2 * n + d) % (2 * d);
    assert 2 * d * r == 2 * (d * r);
  }

  lemma ShareIsPart(amount: int, percent: int)
    requires 0 <= amount && 0 <= percent <= WHOLE
    ensures 0 <= Share(amount, percent) <= amount
    ensures percent == WHOLE ==> Share(amount, percent) == amount
  {
    RoundedIsNearest(amount * percent, WHOLE);
    assert 0 <= amount * percent <= amount * WHOLE;
  }

  /** `part` is `percent` ten-thousandths of `whole` to the nearest penny, halves upwards; no other amount is. */
  predicate IsNearest(part: int, whole: int, percent: int) {
    -WHOLE <= 2 * (whole * percent - WHOLE * part) < WHOLE
  }

  lemma ShareIsNearest(amount: int, percent: int)
    ensures IsNearest(Share(amount, percent), amount, percent)
  {
    RoundedIsNearest(amount * percent, WHOLE);
  }

  /** A referee gets the assignment's percentage of the fee; with no referee or no fee, nothing. */
  predicate RewardFits(fee: int, refereeFee: int, assignment: Option<Assignment>) {
    if assignment.Some? && assignment.value.referee.Some? && fee > 0
    then IsNearest(refereeFee, fee, assignment.value.rewardPercent) else refereeFee == 0
  }

  /** The developer gets their percentage of what the referee leaves of the fee, if there is one. */
  predicate DevShareFits(fee: int, refereeFee: int, devShare: int, revShare: int) {
    if revShare > 0 && fee > 0 then IsNearest(devShare, fee - refereeFee, revShare) else devShare == 0
  }

  /**
   Three independent roundings never pay out more than the fee that was taken,
   the players' money is exactly the pot less the fee, a draw's odd penny goes to
   player A, and each of the three is its own percentage to the nearest penny.
   */
  lemma FeeWaterfall(stake: int, feePercent: int, assignment: Option<Assignment>, revShare: int, outcome: BetOutcome)
    requires 0 < stake && 0 <= feePercent <= WHOLE && 0 <= revShare <= WHOLE
    requires assignment.Some? ==> 0 <= assignment.value.rewardPercent <= WHOLE
    ensures var pot := 2 * stake;
            var fee := PlatformFee(stake, feePercent);
            var refereeFee := RefereeFee(fee, assignment);
            var devShare := DeveloperShare(fee, refereeFee, revShare);
            var a, b := PayoutA(pot - fee, outcome), PayoutB(pot - fee, outcome);
            && 0 <= fee <= pot && IsNearest(fee, pot, feePercent)
            && RewardFits(fee, refereeFee, assignment) && DevShareFits(fee, refereeFee, devShare, revShare)
            && 0 <= refereeFee && 0 <= devShare && refereeFee + devShare <= fee
            && 0 <= a && 0 <= b && a + b + fee == pot
            && (outcome.DRAW? ==> b <= a <= b + 1)
            && (outcome.PLAYER_A_WIN? ==> b == 0) && (outcome.PLAYER_B_WIN? ==> a == 0)
  {
    var fee := PlatformFee(stake, feePercent);
    ShareIsPart(2 * stake, feePercent);
    ShareIsNearest(2 * stake, feePercent);
    if assignment.Some? {
      ShareIsPart(fee, assignment.value.rewardPercent);
      ShareIsNearest(fee, assignment.value.rewardPercent);
    }
    ShareIsNearest(fee - RefereeFee(fee, assignment), revShare);
    ShareIsPart(fee - RefereeFee(fee, assignment), revShare);
    RoundedIsNearest(2 * stake - fee, 2);
    hide Share;
  }
}
