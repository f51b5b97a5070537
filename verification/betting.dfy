/** The seven instructions of the betting program, each a pure transition
    from the world before the transaction to the world after it, or to the
    fault that reverted it. The checks run in the program's order: first
    the runtime's account checks (accounts that must exist, `init`
    accounts that must not), then the `constraint`s of the accounts
    structure in declaration order, then the handler's own guards.

    The clock is the `now` argument, and the outcome generator is the
    `select` argument. Lamport transfers are moves between balances of the
    world. */
module Betting {
  import opened Ints
  import opened Faults
  import opened State
  import opened Settlement

  /** The stored configuration exists and names `signer` as its admin. */
  predicate AdminSigned(w: World, signer: Pubkey) {
    w.config.Some? && w.config.value.adminAccount == signer
  }

  /** A round accepts stakes at `now`: open, and `now` inside the window
      with both ends included. */
  predicate Accepting(b: BetDetails, now: U32) {
    !b.isClose && b.startTime <= now <= b.endTime
  }

  /** The round guards shared by `init_user_bet` and `user_bet`: closed
      rounds, rounds not yet started and rounds past their end refuse. */
  function WindowError(b: BetDetails, now: U32): (e: Option<Error>)
    ensures e.None? <==> Accepting(b, now)
    ensures e == Some(NoStart) <==> !b.isClose && now < b.startTime
    ensures e == Some(AlreadyEnd) <==> b.isClose || (b.startTime <= now && b.endTime < now)
  {
    if b.isClose then Some(AlreadyEnd)
    else if now < b.startTime then Some(NoStart)
    else if now > b.endTime then Some(AlreadyEnd)
    else None
  }

  /** Only the round `id` may differ, and it is present afterwards. */
  predicate OtherRoundsKept(w: World, w': World, id: RoundId) {
    && w'.rounds.Keys == w.rounds.Keys + {id}
    && forall j :: j in w.rounds && j != id ==> w'.rounds[j] == w.rounds[j]
  }

  /** Only the position `k` may differ, and it is present afterwards. */
  predicate OtherPositionsKept(w: World, w': World, k: (RoundId, Pubkey)) {
    && w'.positions.Keys == w.positions.Keys + {k}
    && forall j :: j in w.positions && j != k ==> w'.positions[j] == w.positions[j]
  }

  /** `initialize`: the signer creates the configuration, naming itself
      admin. The configuration account is `init`, so a second call is
      refused. Nothing bounds the fee. */
  function Initialize(w: World, signer: Pubkey, treasury: Pubkey, betFee: U16): (r: Result<World>)
    ensures r.Ok? <==> w.config.None?
    ensures r.Err? ==> r.fault == AccountRejected
    ensures r.Ok? ==> r.value.config == Some(BetInfo(signer, treasury, betFee))
    ensures r.Ok? ==> r.value.(config := w.config) == w
  {
    if w.config.Some? then Err(AccountRejected)
    else Ok(w.(config := Some(BetInfo(signer, treasury, betFee))))
  }

  /** `update`: the admin replaces the treasury and the fee; the admin
      itself can never change. */
  function Update(w: World, signer: Pubkey, treasury: Pubkey, betFee: U16): (r: Result<World>)
    ensures r.Ok? <==> AdminSigned(w, signer)
    ensures r == Err(AccountRejected) <==> w.config.None?
    ensures r == Err(Raised(AccessDenied)) <==> w.config.Some? && w.config.value.adminAccount != signer
    ensures r.Ok? ==> r.value.config == Some(BetInfo(w.config.value.adminAccount, treasury, betFee))
    ensures r.Ok? ==> r.value.(config := w.config) == w
  {
    if w.config.None? then Err(AccountRejected)
    else if w.config.value.adminAccount != signer then Err(Raised(AccessDenied))
    else Ok(w.(config := Some(w.config.value.(treasuryAccount := treasury, betFee := betFee))))
  }

  /** `initialize_bet`: the admin opens the round `startTime` with the
      window `[startTime, endTime]`, which must not lie wholly in the past
      nor be reversed. */
  function InitializeBet(w: World, signer: Pubkey, now: U32, startTime: U32, endTime: U32): (r: Result<World>)
    ensures r == Err(AccountRejected) <==> w.config.None? || startTime in w.rounds
    ensures r == Err(Raised(AccessDenied)) <==>
      w.config.Some? && startTime !in w.rounds && w.config.value.adminAccount != signer
    ensures r == Err(Raised(WrongBettingPeriod)) <==>
      AdminSigned(w, signer) && startTime !in w.rounds && (now > endTime || startTime > endTime)
    ensures r.Ok? <==> AdminSigned(w, signer) && startTime !in w.rounds && now <= endTime && startTime <= endTime
    ensures r.Ok? ==>
      && OtherRoundsKept(w, r.value, startTime)
      && var b := r.value.rounds[startTime];
      && b.adminAccount == signer
      && b.totalBetAmount == 0 && b.totalLAmount == 0 && b.totalRAmount == 0
      && b.startTime == startTime && b.endTime == endTime
      && b.winnerResult == 0 && !b.isClose
    ensures r.Ok? ==> r.value.(rounds := w.rounds) == w
  {
    if w.config.None? || startTime in w.rounds then Err(AccountRejected)
    else if w.config.value.adminAccount != signer then Err(Raised(AccessDenied))
    else if now > endTime then Err(Raised(WrongBettingPeriod))
    else if startTime > endTime then Err(Raised(WrongBettingPeriod))
    else Ok(w.(rounds := w.rounds[startTime := BetDetails(signer, 0, 0, 0, startTime, endTime, 0, false)]))
  }

  /** The round as `finialize_bet` leaves it: closed, its end cut back to
      `now` if that is earlier, and the winner drawn from `now` and the
      round total. */
  function Close(b: BetDetails, select: Selector, now: U32): BetDetails {
    b.(endTime := if now < b.endTime then now else b.endTime,
       isClose := true,
       winnerResult := select(now, b.totalBetAmount))
  }

  /** The guards of `finialize_bet` before its arithmetic all pass. */
  predicate FinalizeAllowed(w: World, signer: Pubkey, treasury: Pubkey, id: RoundId) {
    && id in w.rounds && AdminSigned(w, signer)
    && w.config.value.treasuryAccount == treasury
    && !w.rounds[id].isClose
  }

  /** `finialize_bet`: the admin closes the round once, draws the winner
      and moves the team fee from the escrow to the treasury. */
  function FinializeBet(w: World, select: Selector, signer: Pubkey, treasury: Pubkey, now: U32, id: RoundId): (r: Result<World>)
    ensures r == Err(AccountRejected) <==> id !in w.rounds || w.config.None?
    ensures r == Err(Raised(AccessDenied)) <==>
      id in w.rounds && w.config.Some? && w.config.value.adminAccount != signer
    ensures r == Err(Raised(WrongTreasury)) <==>
      id in w.rounds && AdminSigned(w, signer) && w.config.value.treasuryAccount != treasury
    ensures r == Err(Raised(AlreadyEnd)) <==>
      id in w.rounds && AdminSigned(w, signer) && w.config.value.treasuryAccount == treasury && w.rounds[id].isClose
    ensures r == Err(Abort) <==>
      FinalizeAllowed(w, signer, treasury, id)
      && TeamFee(Close(w.rounds[id], select, now), w.config.value.betFee).None?
    ensures r == Err(TransferRefused) <==>
      FinalizeAllowed(w, signer, treasury, id)
      && var fee := TeamFee(Close(w.rounds[id], select, now), w.config.value.betFee);
      fee.Some? && w.escrow < fee.value
    ensures r.Ok? <==>
      && FinalizeAllowed(w, signer, treasury, id)
      && var fee := TeamFee(Close(w.rounds[id], select, now), w.config.value.betFee);
      && fee.Some? && fee.value <= w.escrow
    ensures r.Ok? ==>
      && FinalizeAllowed(w, signer, treasury, id)
      && OtherRoundsKept(w, r.value, id)
      && var b := w.rounds[id];
      && var b' := r.value.rounds[id];
      && b'.isClose
      && b'.winnerResult == select(now, b.totalBetAmount)
      && b'.endTime <= b.endTime && b'.endTime <= now
      && (b'.endTime == b.endTime || b'.endTime == now)
      && b'.(endTime := b.endTime, isClose := false, winnerResult := b.winnerResult) == b
      && var fee := TeamFee(b', w.config.value.betFee);
      && fee.Some?
      && r.value.escrow + fee.value == w.escrow
      && Balance(r.value.lamports, treasury) == Balance(w.lamports, treasury) + fee.value
      && (forall k :: k != treasury ==> Balance(r.value.lamports, k) == Balance(w.lamports, k))
    ensures r.Ok? ==> r.value.(rounds := w.rounds, escrow := w.escrow, lamports := w.lamports) == w
  {
    if id !in w.rounds || w.config.None? then Err(AccountRejected)
    else
      var cfg := w.config.value;
      if cfg.adminAccount != signer then Err(Raised(AccessDenied))
      else if cfg.treasuryAccount != treasury then Err(Raised(WrongTreasury))
      else if w.rounds[id].isClose then Err(Raised(AlreadyEnd))
      else
        var closed := Close(w.rounds[id], select, now);
        match TeamFee(closed, cfg.betFee)
        case None => Err(Abort)
        case Some(fee) =>
          if w.escrow < fee then Err(TransferRefused)
          else Ok(w.(rounds := w.rounds[id := closed],
                     escrow := w.escrow - fee,
                     lamports := Credit(w.lamports, treasury, fee)))
  }

  /** `init_user_bet`: a participant opens an empty position in a round
      that is accepting stakes; the position account is `init`, so one
      position per participant and round. */
  function InitUserBet(w: World, user: Pubkey, now: U32, id: RoundId): (r: Result<World>)
    ensures r == Err(AccountRejected) <==> id !in w.rounds || (id, user) in w.positions
    ensures r.Err? && r.fault.Raised? <==>
      id in w.rounds && (id, user) !in w.positions && WindowError(w.rounds[id], now).Some?
    ensures r.Err? && r.fault.Raised? ==> r.fault.error == WindowError(w.rounds[id], now).value
    ensures r.Ok? <==> id in w.rounds && (id, user) !in w.positions && Accepting(w.rounds[id], now)
    ensures r.Ok? ==>
      && OtherPositionsKept(w, r.value, (id, user))
      && r.value.positions[(id, user)] == UserBetDetails(user, 0, 0, id, false)
    ensures r.Ok? ==> r.value.(positions := w.positions) == w
  {
    if id !in w.rounds || (id, user) in w.positions then Err(AccountRejected)
    else
      match WindowError(w.rounds[id], now)
      case Some(e) => Err(Raised(e))
      case None => Ok(w.(positions := w.positions[(id, user) := UserBetDetails(user, 0, 0, id, false)]))
  }

  /** The guards of `user_bet` before its arithmetic all pass. */
  predicate StakeAllowed(w: World, user: Pubkey, now: U32, amount: U64, id: RoundId) {
    && id in w.rounds && (id, user) in w.positions
    && w.positions[(id, user)].userAccount == user
    && Accepting(w.rounds[id], now)
    && amount <= Balance(w.lamports, user)
  }

  /** The stake would overflow one of the three `u64` counters it adds to. */
  predicate StakeOverflows(b: BetDetails, p: UserBetDetails, amount: U64, betType: bool) {
    || b.totalBetAmount + amount > U64_MAX
    || (betType && (b.totalRAmount + amount > U64_MAX || p.betRAmount + amount > U64_MAX))
    || (!betType && (b.totalLAmount + amount > U64_MAX || p.betLAmount + amount > U64_MAX))
  }

  /** `user_bet`: the participant moves `amount` lamports into the escrow
      and adds it to the round total and to one side, R when `betType`
      and L otherwise, both in the round and in the position. */
  function UserBet(w: World, user: Pubkey, now: U32, amount: U64, id: RoundId, betType: bool): (r: Result<World>)
    ensures r == Err(AccountRejected) <==> id !in w.rounds || (id, user) !in w.positions
    ensures r == Err(Raised(AccessDenied)) <==>
      id in w.rounds && (id, user) in w.positions && w.positions[(id, user)].userAccount != user
    ensures r.Err? && r.fault.Raised? && r.fault.error in {NoStart, AlreadyEnd} <==>
      && id in w.rounds && (id, user) in w.positions && w.positions[(id, user)].userAccount == user
      && WindowError(w.rounds[id], now).Some?
    ensures r.Err? && r.fault.Raised? && r.fault.error in {NoStart, AlreadyEnd} ==>
      r.fault.error == WindowError(w.rounds[id], now).value
    ensures r == Err(Raised(NoEnoughSol)) <==>
      && id in w.rounds && (id, user) in w.positions && w.positions[(id, user)].userAccount == user
      && Accepting(w.rounds[id], now) && Balance(w.lamports, user) < amount
    ensures r == Err(Abort) <==>
      StakeAllowed(w, user, now, amount, id)
      && StakeOverflows(w.rounds[id], w.positions[(id, user)], amount, betType)
    ensures r.Ok? <==>
      StakeAllowed(w, user, now, amount, id)
      && !StakeOverflows(w.rounds[id], w.positions[(id, user)], amount, betType)
    ensures r.Ok? ==>
      && StakeAllowed(w, user, now, amount, id)
      && OtherRoundsKept(w, r.value, id)
      && OtherPositionsKept(w, r.value, (id, user))
      && var b := w.rounds[id];
      && var b' := r.value.rounds[id];
      && var p := w.positions[(id, user)];
      && var p' := r.value.positions[(id, user)];
      && b'.totalBetAmount == b.totalBetAmount + amount
      && (betType ==>
            && b'.totalRAmount == b.totalRAmount + amount && b'.totalLAmount == b.totalLAmount
            && p'.betRAmount == p.betRAmount + amount && p'.betLAmount == p.betLAmount)
      && (!betType ==>
            && b'.totalLAmount == b.totalLAmount + amount && b'.totalRAmount == b.totalRAmount
            && p'.betLAmount == p.betLAmount + amount && p'.betRAmount == p.betRAmount)
      && b'.(totalBetAmount := b.totalBetAmount, totalLAmount := b.totalLAmount, totalRAmount := b.totalRAmount) == b
      && p'.(betLAmount := p.betLAmount, betRAmount := p.betRAmount) == p
      && r.value.escrow == w.escrow + amount
      && Balance(r.value.lamports, user) + amount == Balance(w.lamports, user)
      && (forall k :: k != user ==> Balance(r.value.lamports, k) == Balance(w.lamports, k))
    ensures r.Ok? ==> r.value.config == w.config
  {
    if id !in w.rounds || (id, user) !in w.positions then Err(AccountRejected)
    else
      var b := w.rounds[id];
      var p := w.positions[(id, user)];
      if p.userAccount != user then Err(Raised(AccessDenied))
      else if WindowError(b, now).Some? then Err(Raised(WindowError(b, now).value))
      else if Balance(w.lamports, user) < amount then Err(Raised(NoEnoughSol))
      else
        match CheckedAdd64(b.totalBetAmount, amount)
        case None => Err(Abort)
        case Some(total) =>
          var staked: Option<(BetDetails, UserBetDetails)> :=
            if betType then
              var side :- CheckedAdd64(b.totalRAmount, amount);
              var mine :- CheckedAdd64(p.betRAmount, amount);
              Some((b.(totalBetAmount := total, totalRAmount := side), p.(betRAmount := mine)))
            else
              var side :- CheckedAdd64(b.totalLAmount, amount);
              var mine :- CheckedAdd64(p.betLAmount, amount);
              Some((b.(totalBetAmount := total, totalLAmount := side), p.(betLAmount := mine)));
          match staked
          case None => Err(Abort)
          case Some((b', p')) =>
            Ok(w.(rounds := w.rounds[id := b'],
                  positions := w.positions[(id, user) := p'],
                  lamports := Debit(w.lamports, user, amount),
                  escrow := w.escrow + amount))
  }

  /** The guards of `claim_reward` before its arithmetic all pass. */
  predicate ClaimAllowed(w: World, user: Pubkey, id: RoundId) {
    && id in w.rounds && (id, user) in w.positions && w.config.Some?
    && w.positions[(id, user)].userAccount == user
    && w.rounds[id].isClose
    && !w.positions[(id, user)].isClaim
  }

  /** The payout arithmetic of `claim_reward` does not panic for `user`'s
      position in round `id`, whose guards all pass. */
  predicate PayoutDefined(w: World, user: Pubkey, id: RoundId) {
    && ClaimAllowed(w, user, id)
    && var b := w.rounds[id];
    && var p := w.positions[(id, user)];
    && !PayoutAborts(LosingTotal(b), LosingStake(b, p), WinningStake(b, p), w.config.value.betFee)
  }

  /** The amount `claim_reward` pays `user` for round `id`, in closed form. */
  function Payout(w: World, user: Pubkey, id: RoundId): nat
    requires PayoutDefined(w, user, id)
  {
    var b := w.rounds[id];
    var p := w.positions[(id, user)];
    PayoutAsWritten(LosingTotal(b), LosingStake(b, p), WinningStake(b, p), w.config.value.betFee)
  }

  /** `claim_reward` as the program is written: once the round is closed
      the participant is paid `ClaimAmount` from the escrow, but the
      position account is not declared `mut` in the `ClaimReward` accounts
      struct, so its `is_claim = true` is never written back and the
      position is left exactly as it was. */
  function ClaimReward(w: World, user: Pubkey, id: RoundId): (r: Result<World>)
    ensures r == Err(AccountRejected) <==> id !in w.rounds || (id, user) !in w.positions || w.config.None?
    ensures r == Err(Raised(AccessDenied)) <==>
      && id in w.rounds && (id, user) in w.positions && w.config.Some?
      && w.positions[(id, user)].userAccount != user
    ensures r == Err(Raised(NoClose)) <==>
      && id in w.rounds && (id, user) in w.positions && w.config.Some?
      && w.positions[(id, user)].userAccount == user && !w.rounds[id].isClose
    ensures r == Err(Raised(AlreadyRewrdClaim)) <==>
      && id in w.rounds && (id, user) in w.positions && w.config.Some?
      && w.positions[(id, user)].userAccount == user && w.rounds[id].isClose
      && w.positions[(id, user)].isClaim
    ensures r == Err(Abort) <==> ClaimAllowed(w, user, id) && !PayoutDefined(w, user, id)
    ensures r == Err(Raised(NoEnoughSol)) <==>
      PayoutDefined(w, user, id) && w.escrow < Payout(w, user, id)
    ensures r.Ok? <==> PayoutDefined(w, user, id) && Payout(w, user, id) <= w.escrow
    ensures r.Ok? ==>
      && PayoutDefined(w, user, id)
      && r.value.escrow + Payout(w, user, id) == w.escrow
      && Balance(r.value.lamports, user) == Balance(w.lamports, user) + Payout(w, user, id)
      && (forall k :: k != user ==> Balance(r.value.lamports, k) == Balance(w.lamports, k))
    ensures r.Ok? ==> r.value.(escrow := w.escrow, lamports := w.lamports) == w
  {
    if id !in w.rounds || (id, user) !in w.positions || w.config.None? then Err(AccountRejected)
    else
      var b := w.rounds[id];
      var p := w.positions[(id, user)];
      if p.userAccount != user then Err(Raised(AccessDenied))
      else if !b.isClose then Err(Raised(NoClose))
      else if p.isClaim then Err(Raised(AlreadyRewrdClaim))
      else
        match ClaimAmount(b, p, w.config.value.betFee)
        case None => Err(Abort)
        case Some(amount) =>
          if w.escrow < amount then Err(Raised(NoEnoughSol))
          else Ok(w.(escrow := w.escrow - amount,
                     lamports := Credit(w.lamports, user, amount)))
  }

  /** As written, a successful claim can be repeated at once: the position
      still reads unclaimed, so the same claim is paid the same amount
      again whenever the escrow holds twice the payout. */
  lemma ClaimPaysAgain(w: World, user: Pubkey, id: RoundId)
    ensures var r1 := ClaimReward(w, user, id);
      r1.Ok? ==>
      && var payout := Payout(w, user, id);
      && var r2 := ClaimReward(r1.value, user, id);
      && (r2.Ok? <==> 2 * payout <= w.escrow)
      && (r2.Ok? ==>
            && r2.value.escrow + 2 * payout == w.escrow
            && Balance(r2.value.lamports, user) == Balance(w.lamports, user) + 2 * payout)
  {
  }

  /** `claim_reward` as evidently intended: the same payout, and the
      position is marked claimed so that the `AlreadyRewrdClaim` guard
      refuses every later claim of it. */
  function ClaimRewardPersisted(w: World, user: Pubkey, id: RoundId): (r: Result<World>)
    ensures r.Err? ==> r == ClaimReward(w, user, id)
    ensures r.Ok? <==> ClaimReward(w, user, id).Ok?
    ensures r.Ok? ==>
      && r.value.(positions := w.positions) == ClaimReward(w, user, id).value
      && OtherPositionsKept(w, r.value, (id, user))
      && r.value.positions[(id, user)] == w.positions[(id, user)].(isClaim := true)
  {
    match ClaimReward(w, user, id)
    case Err(f) => Err(f)
    case Ok(paid) => Ok(paid.(positions := paid.positions[(id, user) := w.positions[(id, user)].(isClaim := true)]))
  }
}
