/** A concrete round played through the instructions: P1 stakes 100 on L,
    P2 stakes 100 on R, the fee is 10% and R wins. The program pays P2
    their principal only, and computes for P1, who lost, 9000 lamports,
    which the escrow cannot cover. With 200 more from P1 in the escrow,
    P2's claim as written is paid twice. */
module Scenarios {
  import opened Ints
  import opened Faults
  import opened State
  import opened Settlement
  import opened Betting
  import T = Transactions

  const ADMIN: Pubkey := 1
  const TREASURY: Pubkey := 2
  const P1: Pubkey := 3
  const P2: Pubkey := 4

  /** The round is created at time 0 for the window [0, 100]; both
      participants join and stake at time 50. */
  function Setup(): seq<T.Transaction> {
    [ T.Transaction(0, T.Initialize(ADMIN, TREASURY, 100)),
      T.Transaction(0, T.InitializeBet(ADMIN, 0, 100)),
      T.Transaction(50, T.InitUserBet(P1, 0)),
      T.Transaction(50, T.InitUserBet(P2, 0)),
      T.Transaction(50, T.UserBet(P1, 100, 0, false)),
      T.Transaction(50, T.UserBet(P2, 100, 0, true)) ]
  }

  function Funded(): World {
    Genesis(map[P1 := 1000, P2 := 1000])
  }

  /** The round of `Setup` while it accepts stakes, P1 holding `stakeL` on
      L and P2 holding 100 on R. */
  predicate Staked(w: World, stakeL: U64)
    requires stakeL <= 1000
  {
    && w.config == Some(BetInfo(ADMIN, TREASURY, 100))
    && 0 in w.rounds && w.rounds[0] == BetDetails(ADMIN, stakeL + 100, stakeL, 100, 0, 100, 0, false)
    && (0, P1) in w.positions && w.positions[(0, P1)] == UserBetDetails(P1, stakeL, 0, 0, false)
    && (0, P2) in w.positions && w.positions[(0, P2)] == UserBetDetails(P2, 0, 100, 0, false)
    && w.escrow == stakeL + 100
    && Balance(w.lamports, P1) == 1000 - stakeL && Balance(w.lamports, P2) == 900
    && Balance(w.lamports, TREASURY) == 0
  }

  /** The setup runs without a failure and leaves a round holding 100 on
      each side and 200 in escrow. */
  lemma SetupStakes(select: Selector)
    ensures Staked(T.Run(Funded(), select, false, Setup()), 100)
  {
  }

  /** P1 can add 200 more on L while the round accepts stakes. */
  lemma TopUp(w: World)
    requires Staked(w, 100)
    ensures UserBet(w, P1, 50, 200, 0, false).Ok?
    ensures Staked(UserBet(w, P1, 50, 200, 0, false).value, 300)
  {
  }

  /** The round of `Setup` after the admin closed it with R winning, from
      P1's `stakeL` on L and P2's 100 on R. */
  predicate Settled(f: World, stakeL: U64)
    requires stakeL <= 1000
  {
    && f.config == Some(BetInfo(ADMIN, TREASURY, 100))
    && 0 in f.rounds && f.rounds[0] == BetDetails(ADMIN, stakeL + 100, stakeL, 100, 0, 100, 1, true)
    && (0, P1) in f.positions && f.positions[(0, P1)] == UserBetDetails(P1, stakeL, 0, 0, false)
    && (0, P2) in f.positions && f.positions[(0, P2)] == UserBetDetails(P2, 0, 100, 0, false)
    && Balance(f.lamports, P2) == 900
  }

  /** Closing the round at its end with R drawn takes a fee of a tenth of
      L's total from the escrow to the treasury. */
  lemma CloseWithRWinning(w: World, select: Selector, stakeL: U64)
    requires stakeL <= 1000 && Staked(w, stakeL)
    requires select(100, stakeL + 100) == 1
    ensures var f := FinializeBet(w, select, ADMIN, TREASURY, 100, 0);
      && f.Ok? && Settled(f.value, stakeL)
      && f.value.escrow + stakeL / 10 == stakeL + 100
      && Balance(f.value.lamports, TREASURY) == stakeL / 10
  {
  }

  /** P2, who staked only on the winning side, is paid exactly their 100;
      the payout computed for P1, who staked only on the losing side, is
      0 + floor(90 * 100 * 100 / 100) = 9000, and the 90 left in escrow
      refuses it with `NoEnoughSol`. */
  lemma LoserIsOwedNineThousand(f: World)
    requires Settled(f, 100) && f.escrow == 190
    ensures var c2 := ClaimReward(f, P2, 0);
      && c2.Ok?
      && c2.value.escrow == 90 && Balance(c2.value.lamports, P2) == 1000
      && ClaimAmount(f.rounds[0], f.positions[(0, P1)], 100) == Some(9000)
      && ClaimReward(c2.value, P1, 0) == Err(Raised(NoEnoughSol))
  {
  }

  /** After P1's top-up and the close, the escrow holds 370. As written,
      P2 claims their 100 twice, and is paid 200 for a stake of 100. */
  lemma WinnerPaidTwice(f: World)
    requires Settled(f, 300) && f.escrow == 370
    ensures var c1 := ClaimReward(f, P2, 0);
      && c1.Ok? && !c1.value.positions[(0, P2)].isClaim
      && var c2 := ClaimReward(c1.value, P2, 0);
      && c2.Ok?
      && c2.value.escrow == 170 && Balance(c2.value.lamports, P2) == 1100
  {
  }

  /** With the claimed flag persisted, P2's second claim is refused. */
  lemma WinnerPaidOnceWhenPersisted(f: World)
    requires Settled(f, 300) && f.escrow == 370
    ensures var c1 := ClaimRewardPersisted(f, P2, 0);
      && c1.Ok? && c1.value.escrow == 270
      && ClaimRewardPersisted(c1.value, P2, 0) == Err(Raised(AlreadyRewrdClaim))
  {
  }
}
