/** The program's three account records and the lamport balances they
    touch, gathered into one world value that every instruction maps to a
    new one. */
module State {
  import opened Ints

  type Pubkey = nat

  /** A round is addressed by the `start_time` it was created with. */
  type RoundId = U32

  /** The singleton global configuration (`BetInfo`). `betFee` is in
      parts per thousand: 100 is 10%. */
  datatype BetInfo = BetInfo(adminAccount: Pubkey, treasuryAccount: Pubkey, betFee: U16)

  /** One betting round (`BetDetails`). `winnerResult` 1 means R won;
      any other value means L won. */
  datatype BetDetails = BetDetails(
    adminAccount: Pubkey,
    totalBetAmount: U64,
    totalLAmount: U64,
    totalRAmount: U64,
    startTime: U32,
    endTime: U32,
    winnerResult: U8,
    isClose: bool)

  /** One participant's position in one round (`UserBetDetails`). */
  datatype UserBetDetails = UserBetDetails(
    userAccount: Pubkey,
    betLAmount: U64,
    betRAmount: U64,
    betId: U32,
    isClaim: bool)

  /** The outcome generator `rand::generate(cur_time, total_bet_amount)`.
      Its definition is not part of this model; all that is used of it is
      that it is a function of those two inputs. */
  type Selector = (U32, U64) -> U8

  /** Everything the instructions read or write. `escrow` is the balance
      of the one escrow account shared by all rounds; `lamports` holds
      every other account's balance, absent keys meaning zero. */
  datatype World = World(
    config: Option<BetInfo>,
    rounds: map<RoundId, BetDetails>,
    positions: map<(RoundId, Pubkey), UserBetDetails>,
    lamports: map<Pubkey, nat>,
    escrow: nat)

  function Balance(m: map<Pubkey, nat>, k: Pubkey): nat {
    if k in m then m[k] else 0
  }

  /** Adds `amount` to `k`'s balance and leaves every other balance alone. */
  function Credit(m: map<Pubkey, nat>, k: Pubkey, amount: nat): (m': map<Pubkey, nat>)
    ensures Balance(m', k) == Balance(m, k) + amount
    ensures forall j :: j != k ==> Balance(m', j) == Balance(m, j)
  {
    m[k := Balance(m, k) + amount]
  }

  /** Takes `amount` from `k`'s balance and leaves every other balance alone. */
  function Debit(m: map<Pubkey, nat>, k: Pubkey, amount: nat): (m': map<Pubkey, nat>)
    requires amount <= Balance(m, k)
    ensures Balance(m', k) + amount == Balance(m, k)
    ensures forall j :: j != k ==> Balance(m', j) == Balance(m, j)
  {
    m[k := Balance(m, k) - amount]
  }

  /** The state before any instruction: nothing created, escrow empty. */
  function Genesis(lamports: map<Pubkey, nat>): World {
    World(None, map[], map[], lamports, 0)
  }
}
