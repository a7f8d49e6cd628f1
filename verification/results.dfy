/** Failure-compatible result and option types, and the engine's error taxonomy. */
module Results {

  /** A value that may be absent: Java's `null` for a field or argument. */
  datatype Option<+T> = None | Some(value: T) {

    /** The value, or `default` when absent. */
    function GetOr(default: T): T {
      match this
      case Some(v) => v
      case None => default
    }
  }

  /** The operation an exception names. */
  datatype Operation = OpenShift | CloseShift | PostTransaction

  /** Why a service operation refused to go on. */
  datatype Reason =
    | ShiftAlreadyOpen      // the teller already has an open shift
    | MissingOpeningCash    // no opening cash count given
    | ShiftNotOpen          // the shift is not in the open state
    | MissingClosingCash    // no closing cash count given
    | InvalidType           // transaction type outside the two known ones
    | NonPositiveAmount     // transaction amount zero or negative
    | MissingDenominations  // no cash count given for a transaction
    | AmountMismatch        // amount differs from the cash count total

  /** The kind of record a lookup was after. */
  datatype Entity = ActiveTellerEntity | ShiftEntity

  /** The key a lookup used: a business code or a store id. */
  datatype Key = Code(code: string) | Id(id: nat)

  /** Every way an operation of the engine can fail. */
  datatype Error =
    | TurnoException(operation: Operation, reason: Reason)
    | TransaccionException(operation: Operation, reason: Reason)
    | NotFound(key: Key, entity: Entity)
    | IllegalArgument(denominacion: string)   // unknown denomination id
    | NonUniqueResult                         // a single-result query matched several records

  /** The outcome of an operation that may throw. */
  datatype Result<+T> = Success(value: T) | Failure(error: Error) {

    predicate IsFailure() {
      Failure?
    }

    function PropagateFailure<U>(): Result<U>
      requires Failure?
    {
      Failure(error)
    }

    function Extract(): T
      requires Success?
    {
      value
    }
  }
}
