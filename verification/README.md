# test-betting: a Dafny model of the round and position accounting

This project models the Solana/Anchor betting program `test_betting`. It is a
two-sided wager: participants stake lamports on L or R during a round's
window. The admin then closes the round. A generated number picks the winner
and a team fee goes to the treasury. Each participant then claims, once by
the program's intent, although as written the claimed flag is never stored.

Each of the program's seven instructions is a pure transition. It takes the
world before the transaction, the clock reading `now` and the instruction
arguments. It returns the world after the transaction, or the fault that
reverted it. A reverted transaction changes nothing, so a fault carries no
state.

The world holds:
- the global configuration (`BetInfo`: admin, treasury, `bet_fee` in parts per thousand);
- the rounds (`BetDetails`), keyed by their start time;
- the positions (`UserBetDetails`), keyed by round and participant;
- the lamport balances of ordinary accounts;
- the balance of the single escrow account, which all rounds share.

Faults are:
- the program's own error codes;
- `Abort`, for a panicking `checked_*().unwrap()` or `u16` subtraction;
- `AccountRejected`, for a required account that is missing or an `init`
  account that already exists;
- `TransferRefused`, for a lamport transfer that the system program refuses.

Checks run in the program's order. The runtime's account checks come first.
The accounts structs' `constraint`s follow, in declaration order. The
handler's guards come last.

The generator `rand::generate` is a function-typed parameter
`(U32, U64) -> U8`. Nothing is assumed of it except that it is a function. A
result of 1 means R won; any other value means L won.

Modules:
- `Ints`: `u8`…`u128` and Rust's checked arithmetic.
- `Faults`: error codes and `Result`.
- `State`: records, world and balances.
- `Settlement`: fee and payout arithmetic.
- `Betting`: the seven instructions.
- `Transactions`: instruction logs and their replay.
- `Invariants`: what every run preserves.
- `Scenarios`: one concrete round.

## The payout is modelled as the program computes it

The comment on `claim_reward` says winners claim their stake plus a reward.
The code does something else. The reward term is
`floor(net_pool * user_losing_stake * 100 / losing_total)`, truncated to 64
bits. Here `net_pool = floor(losing_total * (1000 - bet_fee) / 1000)`. So a
participant is paid for their stake on the *losing* side, scaled by 100. A
participant with only a winning stake gets back exactly that stake, when the
computation does not panic. It panics for every claimant when the losing side
is empty (the division by its total) or when `bet_fee` exceeds 1000. In those
cases nobody is paid and the stakes stay in the escrow.

Value is therefore not conserved. Only the escrow-balance check in
`claim_reward` stops over-payment. `Scenarios.LoserIsOwedNineThousand` plays
one round:
- P1 stakes 100 on L, P2 stakes 100 on R, the fee is 10% and R wins.
- The fee is 10.
- P2 receives 100.
- The amount computed for P1 is 9000, which the remaining escrow of 90 refuses.

## Facts about the program that the model keeps

- Nothing bounds `bet_fee`: `initialize` and `update` store any `u16`. Above 1000, every claim panics (`FeeAbove1000Aborts`) and the fee can exceed the losing total (`FeeAbove1000ExceedsLosingTotal`).
- The winner is drawn from `cur_time`, the clock reading of the `finialize_bet` transaction, not from the possibly shortened end time. The model passes `now` to the generator.
- The reward term of a claim uses the participant's stake on the losing side, as described above.
- Settlement checks only the admin stored in the configuration, not the admin stored in the round (`FinializeBet`).
- Opening a position also enforces the stake window, so a closed round answers `AlreadyEnd`.
- Error names are the program's own (`WrongBettingPeriod`, `NoStart`, `AlreadyEnd`, `NoEnoughSol`, `NoClose`, `AlreadyRewrdClaim`, …).
- The claimed flag of a position is never stored (see Findings). `Betting.ClaimReward` models the claim as written, and `Betting.ClaimRewardPersisted` stores the flag. A transaction log is replayed with either, chosen by the `persisted` argument of `Transactions.Run`. The invariant lemmas hold for both choices.

## Model

| member | source | states |
|---|---|---|
| `Settlement.TeamFee` | programs/test-betting/src/lib.rs:96-102 | The fee is the floor of losing total × `bet_fee` / 1000, where the losing side is L exactly when the winner is 1. It panics exactly when that product overflows `u64`. |
| `Settlement.ClaimAmount` | programs/test-betting/src/lib.rs:224-244 | The operation-by-operation claim computation equals the closed form `PayoutAsWritten`: winning stake + (floor(net pool × losing stake × 100 / losing total) mod 2^64). It panics exactly under `PayoutAborts`: fee > 1000, gross pool over `u64`, scaled product over `u128`, losing total 0, or sum over `u64`. |
| `Settlement.FeeAtMostLosingTotal` | programs/test-betting/src/lib.rs:97-102 | With `bet_fee` ≤ 1000 the fee never exceeds the losing side's total. |
| `Settlement.FeeAbove1000ExceedsLosingTotal` | programs/test-betting/src/lib.rs:26-38 | `bet_fee` is stored unchecked. Above 1000, a losing total of at least 1000 yields a fee larger than that total. |
| `Settlement.PrincipalOnlyWithoutLosingStake` | programs/test-betting/src/lib.rs:227-243 | A participant with no losing-side stake is paid exactly their winning-side stake when the claim does not panic: the losing side is non-empty, `bet_fee` ≤ 1000 and the gross pool fits `u64`. |
| `Settlement.EmptyLosingSideAborts` | programs/test-betting/src/lib.rs:232-242 | When the losing side is empty, every claim of the round panics on the division, winners' included. |
| `Settlement.FeeAbove1000Aborts` | programs/test-betting/src/lib.rs:232-240 | A fee above 1000 makes every claim panic on `1000u16 - bet_fee`. |
| `Settlement.LosingStakeRewardedHundredfold` | programs/test-betting/src/lib.rs:235-243 | With no fee, a non-empty losing side and no truncation, the payout is winning stake + 100 × losing stake. Losers are paid. |
| `Betting.WindowError` | programs/test-betting/src/lib.rs:128-141 | A position stake is accepted iff the round is open and start ≤ now ≤ end, both ends included. Otherwise the error is `NoStart` before the start, and `AlreadyEnd` when the round is closed or past its end. |
| `Betting.Initialize` | programs/test-betting/src/lib.rs:16-29 | Succeeds iff no configuration exists. It stores signer as admin, plus the given treasury and fee, and changes nothing else. A second call is rejected. |
| `Betting.Update` | programs/test-betting/src/lib.rs:32-40 | Only the stored admin may call it (`AccessDenied` otherwise). It replaces treasury and fee and keeps the admin. |
| `Betting.InitializeBet` | programs/test-betting/src/lib.rs:43-71 | `AccessDenied` unless the signer is the configured admin. `WrongBettingPeriod` iff now > end or start > end. On success a new round has zero totals, winner 0, is open, and stores the window as given. No other round changes. |
| `Betting.FinializeBet` | programs/test-betting/src/lib.rs:74-122 | The error is `AccessDenied`, `WrongTreasury` or `AlreadyEnd`, exactly on its guard. It succeeds iff the guards pass, the fee does not overflow and the escrow covers it. On success the round is closed, its end becomes min(end, now) and its winner is `select(now, total)`. Totals are kept. Escrow decreases, and the treasury increases, by exactly the fee. A fee overflow aborts. An escrow short of the fee is refused. |
| `Betting.InitUserBet` | programs/test-betting/src/lib.rs:124-153 | Rejected if the position exists. Otherwise the window guard decides. On success the position is empty, unclaimed and owned by the signer. Nothing else changes. |
| `Betting.UserBet` | programs/test-betting/src/lib.rs:155-207 | Window errors as in `WindowError`. `NoEnoughSol` iff balance < amount. Abort iff a `u64` counter would overflow. It succeeds iff the guards pass and no counter overflows. On success, `amount` is added to the total and to exactly one side in both the round and the position (R if `betType`). The other side, window, flag and winner are unchanged. The user is debited and escrow credited by `amount`. |
| `Betting.ClaimReward` | programs/test-betting/src/lib.rs:210-270 | The claim as written. The error is `NoClose` before closing, `AlreadyRewrdClaim` if the flag is set, and `NoEnoughSol` iff escrow < payout. The panic conditions are those of the payout. It succeeds iff none of these holds. On success escrow decreases, and the user's balance increases, by exactly `PayoutAsWritten`. Because the position account is not `mut` (lines 465-474), the position, the rounds and the configuration are unchanged. |
| `Betting.ClaimPaysAgain` | programs/test-betting/src/lib.rs:465-474 | As written, right after a successful claim the same claim succeeds again iff the escrow held twice the payout. It then pays the same amount a second time. |
| `Betting.ClaimRewardPersisted` | programs/test-betting/src/lib.rs:219-268 | The claim with `is_claim = true` stored. It fails exactly when, and with the same fault as, `ClaimReward`. On success its world is the as-written claim's world (same payout, escrow and balances) except that the position is marked claimed. No other position changes. |
| `Invariants.InitializeBetKeepsInv` | programs/test-betting/src/lib.rs:43-71 | Opening a round keeps the invariant. |
| `Invariants.FinializeBetKeepsInv` | programs/test-betting/src/lib.rs:74-122 | Closing a round keeps the invariant. |
| `Invariants.InitUserBetKeepsInv` | programs/test-betting/src/lib.rs:124-153 | Opening a position keeps the invariant. |
| `Invariants.UserBetKeepsInv` | programs/test-betting/src/lib.rs:155-207 | A stake keeps the invariant: the round total stays L + R and each position stays within the round's sides. |
| `Invariants.ClaimAsWrittenKeepsInv` | programs/test-betting/src/lib.rs:210-270 | The claim as written keeps the invariant: it changes no round and no position. |
| `Invariants.ClaimKeepsInv` | programs/test-betting/src/lib.rs:210-270 | A claim with the flag stored keeps the invariant: a claimed position belongs to a closed round. |
| `Invariants.StepKeepsInv` | programs/test-betting/src/lib.rs:16-270 | Every instruction keeps the invariant, with the claim as written and with the flag stored. Each round is keyed by its start time and its total equals L + R. While open, its winner is 0 and start ≤ end. Each position belongs to an existing round and its owner, its stakes are within the round's sides, and it is claimed only if the round is closed. |
| `Invariants.InitializeBetEvolves` | programs/test-betting/src/lib.rs:43-71 | Opening a round moves the world forward: no existing round or position changes. |
| `Invariants.FinializeBetEvolves` | programs/test-betting/src/lib.rs:74-122 | Closing a round keeps its totals and only moves its end earlier. |
| `Invariants.InitUserBetEvolves` | programs/test-betting/src/lib.rs:124-153 | Opening a position changes no existing round or position. |
| `Invariants.UserBetEvolves` | programs/test-betting/src/lib.rs:155-207 | A stake only grows counters and never changes a claimed position. |
| `Invariants.ClaimAsWrittenEvolves` | programs/test-betting/src/lib.rs:210-270 | The claim as written leaves every round and position as it was. |
| `Invariants.ClaimEvolves` | programs/test-betting/src/lib.rs:210-270 | A claim with the flag stored changes only an unclaimed position, by setting its flag. |
| `Invariants.StepEvolves` | programs/test-betting/src/lib.rs:16-270 | Every instruction, with the claim as written and with the flag stored, keeps the admin fixed. Totals and stakes never decrease and end times never grow. A closed round and a claimed position never change again. |
| `Invariants.RunEvolves` | programs/test-betting/src/lib.rs:16-270 | The invariant and the forward evolution hold across any sequence of transactions, for the program as written and for the corrected claim alike. |
| `Invariants.Reachable` | programs/test-betting/src/lib.rs:62-66 | Every world reachable from the empty one satisfies the invariant, so total = L + R for every round, both for the program as written and with the flag stored. |
| `Invariants.ClaimAtMostOnce` | programs/test-betting/src/lib.rs:219-268 | With the flag stored (`ClaimRewardPersisted`, which sets it on success), once a position is claimed the same participant's claim on that round fails with `AlreadyRewrdClaim`, whatever transactions come in between, when those replay claims with the flag stored. |
| `Invariants.FinalizeAtMostOnce` | programs/test-betting/src/lib.rs:78-94 | After a successful close, the round never changes again. Every later `finialize_bet` of it fails, whoever signs and whenever, for runs of the program as written and with the flag stored. |
| `Invariants.UserBetNeverDenied` | programs/test-betting/src/lib.rs:436 | In a world satisfying the invariant, the owner constraint of `user_bet` (line 436) always holds for the position's own participant, so `user_bet` never answers `AccessDenied`. This is because `init_user_bet` records that participant as owner (line 145). |
| `Invariants.StakeAbortsOnlyOnTotalOverflow` | programs/test-betting/src/lib.rs:195-204 | In a reachable world a stake that passes the guards panics exactly when the round total would exceed `u64`. |
| `Scenarios.SetupStakes` | programs/test-betting/src/lib.rs:43-207 | A concrete transaction log (configure, open the round, two positions, 100 on L and 100 on R) runs without fault. It leaves totals 200/100/100 and escrow 200. |
| `Scenarios.TopUp` | programs/test-betting/src/lib.rs:155-207 | A second stake of 200 by P1 on L succeeds and adds to the same position. |
| `Scenarios.CloseWithRWinning` | programs/test-betting/src/lib.rs:74-122 | Closing that round with R drawn moves a tenth of L's total from the escrow to the treasury. |
| `Scenarios.LoserIsOwedNineThousand` | programs/test-betting/src/lib.rs:224-249 | With R winning at a 10% fee, P2 receives exactly 100. P1's computed payout is 9000, which the remaining escrow of 90 refuses with `NoEnoughSol`. |
| `Scenarios.WinnerPaidTwice` | programs/test-betting/src/lib.rs:465-474 | As written, with 370 in escrow P2 claims twice and is paid 200 for a stake of 100. The position still reads unclaimed. |
| `Scenarios.WinnerPaidOnceWhenPersisted` | programs/test-betting/src/lib.rs:219-268 | With the flag stored, P2's second claim fails with `AlreadyRewrdClaim`. |

## Findings

| source | as written | input that shows it | evidently intended | confidence | as-written member | corrected member |
|---|---|---|---|---|---|---|
| programs/test-betting/src/lib.rs:465-474 | `user_bet_detail_account` in the `ClaimReward` accounts lacks `mut`, so `is_claim = true` (line 268) is never written back. The double payout is latent: as written, the escrow transfer of every claim is refused first (see the signer-seed line under Left out) | P1 stakes 300 on L and P2 100 on R, the fee is 10% and R wins: the escrow holds 370 and P2 claims 100 twice | the flag is stored and a second claim fails with `AlreadyRewrdClaim` | high; not executed | `Betting.ClaimReward`, `Betting.ClaimPaysAgain`, `Scenarios.WinnerPaidTwice` | `Betting.ClaimRewardPersisted`, `Invariants.ClaimAtMostOnce`, `Scenarios.WinnerPaidOnceWhenPersisted` |

## Left out

- Anchor account plumbing is not modelled: PDA derivation, bumps, `init` space and rent, and decoding of `#[instruction]` arguments. Each instruction is assumed to reach the round it names.
- Account addressing and escrow signing are not modelled. As written they stop four instructions before the logic the model describes. `InitUserBet`, `UserBet` and `ClaimReward` declare `#[instruction(start_time: u64)]` (lib.rs lines 378, 406 and 444), while rounds are created under a `u32` start time (line 311). For `user_bet` that `u64` is decoded from the handler's first argument, the stake `bet_amount` (line 157), so the round and the position are looked up under the stake amount's eight bytes. For `init_user_bet` and `claim_reward` eight bytes are read where the arguments hold the four bytes of a `u32`. The escrow transfers of `finialize_bet` and `claim_reward` are signed with seed `"escrow"` (lines 104, 118, 251 and 265), which cannot sign for the escrow account derived from `"bet-escrow"` (lines 363 and 460). So as written every `finialize_bet` and every `claim_reward` reverts. The model assumes that each instruction reaches the round it names and that the escrow transfers are authorised. Every modelled success of `init_user_bet`, `user_bet`, `finialize_bet` and `claim_reward` rests on that assumption.
- System-program transfers are balance moves. A stake transfer cannot fail once the `NoEnoughSol` guard passes, because transaction fees and rent are not modelled. Balances are unbounded naturals, not `u64`.
- `Clock::get()` is not modelled. The clock reading is the `now` argument, already a `u32`, so the `i64` to `u32` cast is not modelled.
- `rand::generate` is not part of this model. `rand.rs` is absent, so the generator is a parameter.
- Rust overflow checks are assumed enabled in release builds. The Cargo manifest is not part of this model. Under that assumption `1000 as u16 - bet_fee` panics for fees above 1000.
- The model states no value conservation across claims, because the program does not conserve value.
- `Invariants.FinalizeAtMostOnce`: states only that a later close fails. Which error it fails with depends on the signer and treasury passed, and `Betting.FinializeBet` states that exactly.
- `tests/test-betting.ts` is not modelled: it makes no assertions.
- `error.rs` is used only as the list of error codes.
