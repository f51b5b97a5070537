/** How an instruction of the betting program can fail. Every failure
    reverts the whole transaction, so a failed instruction carries no state. */
module Faults {

  /** The program's own error codes, in declaration order. */
  datatype Error =
    | AccessDenied
    | WrongBettingPeriod
    | AlreadyEnd
    | NoStart
    | NoEnoughSol
    | WrongTreasury
    | NoClose
    | AlreadyRewrdClaim

  /** Everything that can end an instruction unsuccessfully. */
  datatype Fault =
    /** `return Err(error!(…))` or a violated account `constraint = … @ Error::…` */
    | Raised(error: Error)
    /** A `checked_*().unwrap()` or `u16` subtraction that panicked */
    | Abort
    /** The runtime refused the accounts: a required account does not
        exist, or an `init` account exists already */
    | AccountRejected
    /** The system program refused a lamport transfer */
    | TransferRefused

  datatype Result<+T> = Ok(value: T) | Err(fault: Fault) {
    predicate IsFailure() {
      Err?
    }

    function PropagateFailure<U>(): Result<U>
      requires Err?
    {
      Err(fault)
    }

    function Extract(): T
      requires Ok?
    {
      value
    }
  }
}
