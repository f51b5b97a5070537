/** Transactions: one instruction with the clock reading it runs under,
    and sequences of them applied one after another. A failed transaction
    leaves the world as it was. A claim is replayed either as the program
    is written (`Betting.ClaimReward`, which drops the claimed flag) or,
    when `persisted`, as `Betting.ClaimRewardPersisted`, which keeps it. */
module Transactions {
  import opened Ints
  import opened Faults
  import opened State
  import Betting

  datatype Instruction =
    | Initialize(signer: Pubkey, treasury: Pubkey, betFee: U16)
    | Update(signer: Pubkey, treasury: Pubkey, betFee: U16)
    | InitializeBet(signer: Pubkey, startTime: U32, endTime: U32)
    | FinializeBet(signer: Pubkey, treasury: Pubkey, roundId: RoundId)
    | InitUserBet(user: Pubkey, roundId: RoundId)
    | UserBet(user: Pubkey, amount: U64, roundId: RoundId, betType: bool)
    | ClaimReward(user: Pubkey, roundId: RoundId)

  datatype Transaction = Transaction(now: U32, ix: Instruction)

  function Step(w: World, select: Selector, persisted: bool, tx: Transaction): Result<World> {
    match tx.ix
    case Initialize(signer, treasury, betFee) => Betting.Initialize(w, signer, treasury, betFee)
    case Update(signer, treasury, betFee) => Betting.Update(w, signer, treasury, betFee)
    case InitializeBet(signer, startTime, endTime) => Betting.InitializeBet(w, signer, tx.now, startTime, endTime)
    case FinializeBet(signer, treasury, id) => Betting.FinializeBet(w, select, signer, treasury, tx.now, id)
    case InitUserBet(user, id) => Betting.InitUserBet(w, user, tx.now, id)
    case UserBet(user, amount, id, betType) => Betting.UserBet(w, user, tx.now, amount, id, betType)
    case ClaimReward(user, id) =>
      if persisted then Betting.ClaimRewardPersisted(w, user, id) else Betting.ClaimReward(w, user, id)
  }

  /** The world after a transaction: the new one if it succeeded, the old
      one if it was reverted. */
  function Apply(w: World, select: Selector, persisted: bool, tx: Transaction): World {
    var r := Step(w, select, persisted, tx);
    if r.Ok? then r.value else w
  }

  function Run(w: World, select: Selector, persisted: bool, txs: seq<Transaction>): World
    decreases |txs|
  {
    if |txs| == 0 then w else Run(Apply(w, select, persisted, txs[0]), select, persisted, txs[1..])
  }
}
