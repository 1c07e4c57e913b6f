/** Shared result types.  Every `raise ValueError` of the source becomes an `Err`
    whose constructor names the check that failed; messages are not modelled. */
module Results {

  datatype Option<+T> = None | Some(value: T)

  datatype Error =
    | UnsupportedPolicy
    | UnsupportedMacMode
    | UnsupportedMovement
    | BadLayout
    | BadArgument
    | BadLevel
    | BadBankMap
    | MissingField
    | MissingBanks
    | NegativeAddress
    | Misaligned
    | OutOfCapacity
    | LeftoverAddress
    | BankOutOfRange
    | RankOutOfRange
    | BroadcastMissing
    | PairCountMismatch
    | AssertionFailed
    | UnresolvedParameter
    | MalformedExpression
    | NotAnObject
    | UnknownField
    | InvalidField

  datatype Result<+T> = Ok(value: T) | Err(error: Error) {
    predicate IsFailure() { Err? }

    function PropagateFailure<U>(): Result<U>
      requires Err?
    {
      Err(error)
    }

    function Extract(): T
      requires Ok?
    {
      value
    }
  }
}
