/** The settlement arithmetic of `finialize_bet` (the team fee) and of
    `claim_reward` (a participant's payout), step by step as the program
    computes them, each with a closed form it is proved equal to.

    The payout is modelled as the program computes it, which is not a
    pari-mutuel share: the reward term is proportional to the participant's
    stake on the LOSING side and is scaled by 100. */
module Settlement {
  import opened Ints
  import opened State

  /** The winner side encoded by `winnerResult`: 1 is R, anything else L. */
  predicate RWon(b: BetDetails) {
    b.winnerResult == 1
  }

  /** The round total of the side that lost. */
  function LosingTotal(b: BetDetails): U64 {
    if RWon(b) then b.totalLAmount else b.totalRAmount
  }

  /** The participant's stake on the side that won. */
  function WinningStake(b: BetDetails, p: UserBetDetails): U64 {
    if RWon(b) then p.betRAmount else p.betLAmount
  }

  /** The participant's stake on the side that lost. */
  function LosingStake(b: BetDetails, p: UserBetDetails): U64 {
    if RWon(b) then p.betLAmount else p.betRAmount
  }

  /** The team fee taken from the losing side when a round closes:
      `losing_total.checked_mul(bet_fee).unwrap().checked_div(1000).unwrap()`.
      `None` is the panic of the multiplication. */
  function TeamFee(b: BetDetails, betFee: U16): (r: Option<U64>)
    ensures r.Some? <==> LosingTotal(b) * betFee <= U64_MAX
    ensures r.Some? ==> r.value * 1000 <= LosingTotal(b) * betFee < r.value * 1000 + 1000
  {
    var gross :- CheckedMul64(LosingTotal(b), betFee);
    Some(gross / 1000)
  }

  /** The after-fee losing pool, `floor(losing_total * (1000 - fee) / 1000)`. */
  function NetLosingPool(losingTotal: nat, betFee: nat): nat
    requires betFee <= 1000
  {
    losingTotal * (1000 - betFee) / 1000
  }

  /** The reward term before the cast to `u64`:
      `floor(net_pool * losing_stake * 100 / losing_total)`. */
  function RawReward(losingTotal: nat, losingStake: nat, betFee: nat): nat
    requires betFee <= 1000
    requires losingTotal > 0
  {
    NetLosingPool(losingTotal, betFee) * losingStake * 100 / losingTotal
  }

  /** When the payout computation of `claim_reward` panics: a fee above
      1000 underflows `1000u16 - bet_fee`; the gross pool overflows `u64`;
      the scaled product overflows `u128`; the losing total is zero and
      `checked_div` fails; or the final sum overflows `u64`. */
  predicate PayoutAborts(losingTotal: nat, losingStake: nat, winningStake: nat, betFee: nat) {
    || betFee > 1000
    || losingTotal * (1000 - betFee) > U64_MAX
    || NetLosingPool(losingTotal, betFee) * losingStake * 100 > U128_MAX
    || losingTotal == 0
    || winningStake + RawReward(losingTotal, losingStake, betFee) % TWO_64 > U64_MAX
  }

  /** The closed form of the payout when it does not panic: the winning
      stake plus the reward term truncated to 64 bits. */
  function PayoutAsWritten(losingTotal: nat, losingStake: nat, winningStake: nat, betFee: nat): nat
    requires !PayoutAborts(losingTotal, losingStake, winningStake, betFee)
  {
    winningStake + RawReward(losingTotal, losingStake, betFee) % TWO_64
  }

  /** The amount `claim_reward` pays, computed operation by operation;
      `None` is a panic of one of its checked operations. */
  function ClaimAmount(b: BetDetails, p: UserBetDetails, betFee: U16): (r: Option<U64>)
    ensures r.Some? <==> !PayoutAborts(LosingTotal(b), LosingStake(b, p), WinningStake(b, p), betFee)
    ensures r.Some? ==> r.value == PayoutAsWritten(LosingTotal(b), LosingStake(b, p), WinningStake(b, p), betFee)
  {
    var losingTotal := LosingTotal(b);
    // `0u64.checked_add(winning_stake)` cannot fail
    var principal := WinningStake(b, p);
    var keep :- CheckedSub16(1000, betFee);
    var gross :- CheckedMul64(losingTotal, keep);
    var winnerReward := gross / 1000;
    // the `u128` product of two `u64` values cannot overflow either
    var scaled := Widen(winnerReward, LosingStake(b, p));
    var scaled100 :- CheckedMul128(scaled, 100);
    var share :- CheckedDiv128(scaled100, losingTotal);
    CheckedAdd64(principal, TruncateU64(share))
  }

  /** With a fee of at most 1000 parts per thousand the team fee never
      exceeds the losing side's total. */
  lemma FeeAtMostLosingTotal(b: BetDetails, betFee: U16)
    requires betFee <= 1000
    ensures TeamFee(b, betFee).Some? ==> TeamFee(b, betFee).value <= LosingTotal(b)
  {
    var l := LosingTotal(b);
    if TeamFee(b, betFee).Some? {
      var fee := TeamFee(b, betFee).value;
      assert l * betFee <= l * 1000 by {
        MulMonotone(l, betFee, 1000);
      }
      assert fee * 1000 <= l * 1000;
    }
  }

  /** Nothing bounds the fee rate, and above 1000 parts per thousand the
      team fee exceeds the losing side's total as soon as that total
      reaches 1000. */
  lemma FeeAbove1000ExceedsLosingTotal(b: BetDetails, betFee: U16)
    requires betFee > 1000
    requires LosingTotal(b) >= 1000
    ensures TeamFee(b, betFee).Some? ==> TeamFee(b, betFee).value > LosingTotal(b)
  {
    var l := LosingTotal(b);
    if TeamFee(b, betFee).Some? {
      var fee := TeamFee(b, betFee).value;
      assert l * 1001 <= l * betFee by {
        MulMonotone(l, 1001, betFee);
      }
      assert fee * 1000 + 1000 > l * 1001;
      assert fee * 1000 + 1000 > l * 1000 + 1000;
    }
  }

  /** A participant with nothing on the losing side is paid back exactly
      their winning-side stake, when the computation does not panic. */
  lemma PrincipalOnlyWithoutLosingStake(b: BetDetails, p: UserBetDetails, betFee: U16)
    requires LosingStake(b, p) == 0
    requires LosingTotal(b) > 0
    requires betFee <= 1000
    requires LosingTotal(b) * (1000 - betFee) <= U64_MAX
    ensures ClaimAmount(b, p, betFee) == Some(WinningStake(b, p))
  {
  }

  /** An empty losing side makes every claim of the round panic, winners'
      included, because the reward term divides by the losing total. */
  lemma EmptyLosingSideAborts(b: BetDetails, p: UserBetDetails, betFee: U16)
    requires LosingTotal(b) == 0
    ensures ClaimAmount(b, p, betFee) == None
  {
  }

  /** A fee rate above 1000 makes every claim panic on the `u16` subtraction. */
  lemma FeeAbove1000Aborts(b: BetDetails, p: UserBetDetails, betFee: U16)
    requires betFee > 1000
    ensures ClaimAmount(b, p, betFee) == None
  {
  }

  /** With no fee, the reward term is exactly 100 times the participant's
      stake on the LOSING side: the program pays losers, and a hundredfold. */
  lemma LosingStakeRewardedHundredfold(b: BetDetails, p: UserBetDetails)
    requires 0 < LosingTotal(b) && LosingTotal(b) * 1000 <= U64_MAX
    requires LosingTotal(b) * LosingStake(b, p) * 100 <= U128_MAX
    requires WinningStake(b, p) + 100 * LosingStake(b, p) <= U64_MAX
    ensures ClaimAmount(b, p, 0) == Some(WinningStake(b, p) + 100 * LosingStake(b, p))
  {
    var l: nat := LosingTotal(b);
    var s: nat := LosingStake(b, p);
    DivCancel(l, 1000);
    assert NetLosingPool(l, 0) == l;
    assert l * s * 100 == (s * 100) * l;
    DivCancel(s * 100, l);
    assert RawReward(l, s, 0) == s * 100;
    assert RawReward(l, s, 0) % TWO_64 == s * 100;
  }

  /** The product of two `u64` values as a `u128`. */
  function Widen(x: U64, y: U64): (r: U128)
    ensures r == x * y
  {
    MulMonotone(x, y, U64_MAX);
    MulMonotone(U64_MAX, x, U64_MAX);
    assert x * y <= U64_MAX * U64_MAX;
    x * y
  }

  lemma MulMonotone(a: nat, x: nat, y: nat)
    requires x <= y
    ensures a * x <= a * y
  {
  }

  lemma DivCancel(a: nat, d: nat)
    requires d > 0
    ensures a * d / d == a
  {
    var q := a * d / d;
    assert q * d <= a * d < q * d + d;
    if q < a {
      MulMonotone(d, q + 1, a);
    } else if q > a {
      MulMonotone(d, a + 1, q);
    }
  }
}
