/** What every sequence of transactions from an empty world preserves,
    and how any world relates to every later one. */
module Invariants {
  import opened Ints
  import opened Faults
  import opened State
  import opened Settlement
  import opened Betting
  import T = Transactions

  /** A round is stored under its start time, its total is the sum of its
      sides, and while it is open its winner is unset and its window is
      not reversed. */
  predicate RoundInv(id: RoundId, b: BetDetails) {
    && b.startTime == id
    && b.totalBetAmount == b.totalLAmount + b.totalRAmount
    && (!b.isClose ==> b.winnerResult == 0 && b.startTime <= b.endTime)
  }

  /** A position belongs to an existing round and to the participant it is
      stored under, its stakes are bounded by the round's side totals, and
      it can only have been claimed once the round closed. */
  predicate PositionInv(w: World, k: (RoundId, Pubkey))
    requires k in w.positions
  {
    var p := w.positions[k];
    && k.0 in w.rounds
    && p.userAccount == k.1 && p.betId == k.0
    && p.betLAmount <= w.rounds[k.0].totalLAmount
    && p.betRAmount <= w.rounds[k.0].totalRAmount
    && (p.isClaim ==> w.rounds[k.0].isClose)
  }

  predicate Inv(w: World) {
    && (forall id :: id in w.rounds ==> RoundInv(id, w.rounds[id]))
    && (forall k :: k in w.positions ==> PositionInv(w, k))
  }

  /** How a round may change: its totals only grow, its end only moves
      earlier, and once closed it never changes again. */
  predicate RoundEvolves(a: BetDetails, b: BetDetails) {
    && a.adminAccount == b.adminAccount && a.startTime == b.startTime
    && a.totalBetAmount <= b.totalBetAmount
    && a.totalLAmount <= b.totalLAmount
    && a.totalRAmount <= b.totalRAmount
    && b.endTime <= a.endTime
    && (a.isClose ==> b == a)
  }

  /** How a position may change: its stakes only grow, and once claimed
      it never changes again. */
  predicate PositionEvolves(a: UserBetDetails, b: UserBetDetails) {
    && a.userAccount == b.userAccount && a.betId == b.betId
    && a.betLAmount <= b.betLAmount
    && a.betRAmount <= b.betRAmount
    && (a.isClaim ==> b == a)
  }

  /** `w'` can follow `w`: the admin is fixed once configured, and no
      round or position disappears or changes other than as above. */
  predicate Evolves(w: World, w': World) {
    && (w.config.Some? ==> w'.config.Some? && w'.config.value.adminAccount == w.config.value.adminAccount)
    && (forall id :: id in w.rounds ==> id in w'.rounds && RoundEvolves(w.rounds[id], w'.rounds[id]))
    && (forall k :: k in w.positions ==> k in w'.positions && PositionEvolves(w.positions[k], w'.positions[k]))
  }

  lemma GenesisInv(lamports: map<Pubkey, nat>)
    ensures Inv(Genesis(lamports))
  {
  }

  /** Opening a round adds a round that satisfies `RoundInv` and changes
      no position. */
  lemma InitializeBetKeepsInv(w: World, signer: Pubkey, now: U32, startTime: U32, endTime: U32)
    requires Inv(w)
    ensures InitializeBet(w, signer, now, startTime, endTime).Ok? ==>
      Inv(InitializeBet(w, signer, now, startTime, endTime).value)
  {
  }

  /** Closing a round keeps its totals and sets its flag, so every
      position's stakes stay within its sides. */
  lemma FinializeBetKeepsInv(w: World, select: Selector, signer: Pubkey, treasury: Pubkey, now: U32, id: RoundId)
    requires Inv(w)
    ensures FinializeBet(w, select, signer, treasury, now, id).Ok? ==>
      Inv(FinializeBet(w, select, signer, treasury, now, id).value)
  {
  }

  /** A new position is empty, unclaimed and stored under its own round
      and participant. */
  lemma InitUserBetKeepsInv(w: World, user: Pubkey, now: U32, id: RoundId)
    requires Inv(w)
    ensures InitUserBet(w, user, now, id).Ok? ==> Inv(InitUserBet(w, user, now, id).value)
  {
  }

  /** A stake grows the round total, one side of the round and the same
      side of the position by the same amount. */
  lemma UserBetKeepsInv(w: World, user: Pubkey, now: U32, amount: U64, id: RoundId, betType: bool)
    requires Inv(w)
    ensures UserBet(w, user, now, amount, id, betType).Ok? ==>
      Inv(UserBet(w, user, now, amount, id, betType).value)
  {
  }

  /** A claim as written moves lamports only, so it changes no round and
      no position. */
  lemma ClaimAsWrittenKeepsInv(w: World, user: Pubkey, id: RoundId)
    requires Inv(w)
    ensures ClaimReward(w, user, id).Ok? ==> Inv(ClaimReward(w, user, id).value)
  {
  }

  /** A claim with the flag stored marks a position of a closed round
      claimed and changes no round. */
  lemma ClaimKeepsInv(w: World, user: Pubkey, id: RoundId)
    requires Inv(w)
    ensures ClaimRewardPersisted(w, user, id).Ok? ==> Inv(ClaimRewardPersisted(w, user, id).value)
  {
  }

  /** Every instruction keeps the invariant, whichever way claims are
      replayed. */
  lemma StepKeepsInv(w: World, select: Selector, persisted: bool, tx: T.Transaction)
    requires Inv(w)
    ensures Inv(T.Apply(w, select, persisted, tx))
  {
    match tx.ix
    case Initialize(_, _, _) =>
    case Update(_, _, _) =>
    case InitializeBet(signer, startTime, endTime) =>
      InitializeBetKeepsInv(w, signer, tx.now, startTime, endTime);
    case FinializeBet(signer, treasury, id) =>
      FinializeBetKeepsInv(w, select, signer, treasury, tx.now, id);
    case InitUserBet(user, id) =>
      InitUserBetKeepsInv(w, user, tx.now, id);
    case UserBet(user, amount, id, betType) =>
      UserBetKeepsInv(w, user, tx.now, amount, id, betType);
    case ClaimReward(user, id) =>
      if persisted {
        ClaimKeepsInv(w, user, id);
      } else {
        ClaimAsWrittenKeepsInv(w, user, id);
      }
  }

  lemma InitializeBetEvolves(w: World, signer: Pubkey, now: U32, startTime: U32, endTime: U32)
    requires Inv(w)
    ensures InitializeBet(w, signer, now, startTime, endTime).Ok? ==>
      Evolves(w, InitializeBet(w, signer, now, startTime, endTime).value)
  {
  }

  lemma FinializeBetEvolves(w: World, select: Selector, signer: Pubkey, treasury: Pubkey, now: U32, id: RoundId)
    requires Inv(w)
    ensures FinializeBet(w, select, signer, treasury, now, id).Ok? ==>
      Evolves(w, FinializeBet(w, select, signer, treasury, now, id).value)
  {
  }

  lemma InitUserBetEvolves(w: World, user: Pubkey, now: U32, id: RoundId)
    requires Inv(w)
    ensures InitUserBet(w, user, now, id).Ok? ==> Evolves(w, InitUserBet(w, user, now, id).value)
  {
  }

  /** A stake only grows counters, and cannot touch a claimed position,
      because a claimed position's round is closed and refuses stakes. */
  lemma UserBetEvolves(w: World, user: Pubkey, now: U32, amount: U64, id: RoundId, betType: bool)
    requires Inv(w)
    ensures UserBet(w, user, now, amount, id, betType).Ok? ==>
      Evolves(w, UserBet(w, user, now, amount, id, betType).value)
  {
  }

  lemma ClaimAsWrittenEvolves(w: World, user: Pubkey, id: RoundId)
    requires Inv(w)
    ensures ClaimReward(w, user, id).Ok? ==> Evolves(w, ClaimReward(w, user, id).value)
  {
  }

  lemma ClaimEvolves(w: World, user: Pubkey, id: RoundId)
    requires Inv(w)
    ensures ClaimRewardPersisted(w, user, id).Ok? ==> Evolves(w, ClaimRewardPersisted(w, user, id).value)
  {
  }

  /** Every instruction moves the world forward in the sense of `Evolves`,
      whichever way claims are replayed. */
  lemma StepEvolves(w: World, select: Selector, persisted: bool, tx: T.Transaction)
    requires Inv(w)
    ensures Evolves(w, T.Apply(w, select, persisted, tx))
  {
    match tx.ix
    case Initialize(_, _, _) =>
    case Update(_, _, _) =>
    case InitializeBet(signer, startTime, endTime) =>
      InitializeBetEvolves(w, signer, tx.now, startTime, endTime);
    case FinializeBet(signer, treasury, id) =>
      FinializeBetEvolves(w, select, signer, treasury, tx.now, id);
    case InitUserBet(user, id) =>
      InitUserBetEvolves(w, user, tx.now, id);
    case UserBet(user, amount, id, betType) =>
      UserBetEvolves(w, user, tx.now, amount, id, betType);
    case ClaimReward(user, id) =>
      if persisted {
        ClaimEvolves(w, user, id);
      } else {
        ClaimAsWrittenEvolves(w, user, id);
      }
  }

  lemma EvolvesTransitive(a: World, b: World, c: World)
    requires Evolves(a, b) && Evolves(b, c)
    ensures Evolves(a, c)
  {
  }

  /** Any sequence of transactions keeps the invariant and moves the world
      forward, with claims replayed as written or with the flag stored. */
  lemma {:induction false} RunEvolves(w: World, select: Selector, persisted: bool, txs: seq<T.Transaction>)
    requires Inv(w)
    ensures Inv(T.Run(w, select, persisted, txs))
    ensures Evolves(w, T.Run(w, select, persisted, txs))
    decreases |txs|
  {
    if |txs| == 0 {
    } else {
      var w1 := T.Apply(w, select, persisted, txs[0]);
      StepKeepsInv(w, select, persisted, txs[0]);
      StepEvolves(w, select, persisted, txs[0]);
      RunEvolves(w1, select, persisted, txs[1..]);
      EvolvesTransitive(w, w1, T.Run(w1, select, persisted, txs[1..]));
    }
  }

  /** In every reachable world, of the program as written
      (`persisted == false`) as of the corrected one, each round's total is
      the sum of its two sides, and each position's stakes are within its
      round's sides. */
  lemma Reachable(lamports: map<Pubkey, nat>, select: Selector, persisted: bool, txs: seq<T.Transaction>)
    ensures Inv(T.Run(Genesis(lamports), select, persisted, txs))
  {
    GenesisInv(lamports);
    RunEvolves(Genesis(lamports), select, persisted, txs);
  }

  /** With the claimed flag persisted, a claim succeeds at most once: from
      any world where the position is claimed, whatever transactions
      follow, the same participant claiming the same round is refused with
      `AlreadyRewrdClaim`. */
  lemma ClaimAtMostOnce(w: World, select: Selector, user: Pubkey, id: RoundId, txs: seq<T.Transaction>)
    requires Inv(w) && w.config.Some?
    requires (id, user) in w.positions && w.positions[(id, user)].isClaim
    ensures ClaimRewardPersisted(T.Run(w, select, true, txs), user, id) == Err(Raised(AlreadyRewrdClaim))
  {
    RunEvolves(w, select, true, txs);
  }

  /** A round is closed at most once: after a successful `finialize_bet`,
      no later `finialize_bet` of that round succeeds, whoever calls it and
      whenever, and the closed round never changes again. */
  lemma FinalizeAtMostOnce(w: World, select: Selector, signer: Pubkey, treasury: Pubkey, now: U32, id: RoundId,
                           persisted: bool, txs: seq<T.Transaction>, signer': Pubkey, treasury': Pubkey, now': U32)
    requires Inv(w)
    requires FinializeBet(w, select, signer, treasury, now, id).Ok?
    ensures var w1 := FinializeBet(w, select, signer, treasury, now, id).value;
      && var w' := T.Run(w1, select, persisted, txs);
      && id in w'.rounds && w'.rounds[id] == w1.rounds[id]
      && FinializeBet(w', select, signer', treasury', now', id).Err?
  {
    var w1 := FinializeBet(w, select, signer, treasury, now, id).value;
    FinializeBetKeepsInv(w, select, signer, treasury, now, id);
    RunEvolves(w1, select, persisted, txs);
  }

  /** In a reachable world a staker's own position always passes the
      ownership constraint, so `user_bet` never answers `AccessDenied`. */
  lemma UserBetNeverDenied(w: World, user: Pubkey, now: U32, amount: U64, id: RoundId, betType: bool)
    requires Inv(w)
    ensures UserBet(w, user, now, amount, id, betType) != Err(Raised(AccessDenied))
  {
  }

  /** In a reachable world a stake that passes the guards panics exactly
      when the round total would overflow `u64`: the side total and the
      position's stake are no larger than the round total. */
  lemma StakeAbortsOnlyOnTotalOverflow(w: World, user: Pubkey, now: U32, amount: U64, id: RoundId, betType: bool)
    requires Inv(w)
    ensures UserBet(w, user, now, amount, id, betType) == Err(Abort) <==>
      StakeAllowed(w, user, now, amount, id) && w.rounds[id].totalBetAmount + amount > U64_MAX
  {
  }
}
