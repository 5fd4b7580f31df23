/** Outcomes of an instruction: a value, or the error that aborts it. */
module Results {

  /** The program's own errors, then the runtime failures the handlers can run into. */
  datatype Error =
    | BondBelowParity | WindowTooSmall | MaxLinksTooSmall | ZeroValue | BondOverflow
    | AttemptRange | DuplicateSubmission | AllowanceExceeded | AllowanceCapBelowCommitted
    | VaultUnderflow | SerialMismatch | ValueMismatch | GenesisMismatch | ChainBroken
    | StatusInvalid | MaxLinksExceeded | EmptyLinks | StatesFull | WindowExpired
    | SubmissionMismatch | BondEscrowFailed | OwnerAnchorMismatch | LastHashMismatch
    | SigSchemeUnsupported | SigCommitFormat | SigCommitMismatch
    | ArithmeticOverflow | InsufficientFunds | OwnerMismatch | AccountMissing | AccountInUse | NotASigner
    | ClockReversed
    // thrown by the client
    | WrongSize | OutOfRange | NoStates | NoLinks | TooManyRecords | SigCount | TooShort | WrongMagic | UnknownVersion
    | WrongChecksum | WrongKeyHint | NotAuthentic | ChainInvalid | NotReady | WaitTimeout

  datatype Option<+T> = None | Some(value: T)

  datatype Result<+T> = Ok(value: T) | Err(error: Error) {
    predicate IsFailure() { Err? }
    function PropagateFailure<U>(): Result<U>
      requires Err?
    {
      Err(error)
    }
    function Extract(): T
      requires Ok?
    {
      value
    }
  }

  /** A guard: `var _ :- Need(condition, error)` is the program's `require!`. */
  function Need(condition: bool, error: Error): Result<()> {
    if condition then Ok(()) else Err(error)
  }

  /** A handler's outcome agrees with its specification; the accounts of a failed one are rolled back, so only the error
      counts. */
  predicate Meets<T>(spec: Result<T>, r: Result<()>) {
    if spec.Ok? then r.Ok? else r == Err(spec.error)
  }
}
