/** Account contents of the program, and the environment its instructions run in. */
module Accounts {
  import opened Bytes
  import opened StateOps
  import opened Ledgers

  /** Capacity of a submission's state buffer: MAX_SUBMISSION_STATES is 4, any u16 will do. */
  type StateCap = n: nat | 1 <= n <= U16_MAX witness 4

  /** What the program takes from outside: SHA-256, the owner a raw key stands for, the buffer capacity. */
  datatype Env = Env(hash: Bytes -> Bytes32, who: Bytes32 -> Owner, maxStates: StateCap)

  /** States in a submission's buffer; their number is stored as a u16. */
  type Chain = s: seq<State> | |s| <= U16_MAX

  datatype Config = Config(
    authority: Bytes32, bps: u32, window: u64, maxLinks: u16,
    defaultAllowance: u64, supply: u64, sigScheme: byte)

  datatype RegistryStatus = Active | Spent

  datatype Registry = Registry(
    serial: Bytes32, value: u64, genesis: Bytes32, recipient: Bytes32, status: RegistryStatus, count: byte)

  /** The accepted chain end; `isSet` is false until some submission is finalized. */
  datatype Head = Head(isSet: bool, state: State, attempt: byte, len: u16, since: u64)

  datatype SubmissionStatus = Receiving | Pending | Rejected | Won | Lost

  /** One check-in attempt: its chain and, beside each state, the commitment to that link's signature. */
  datatype Submission = Submission(
    serial: Bytes32, attempt: byte, checker: Bytes32, finalOwner: Bytes32, links: u16,
    started: u64, finalized: u64, status: SubmissionStatus, states: Chain, commits: seq<Bytes32>)

  datatype Allowance = Allowance(cap: u64, committed: u64, initialized: bool)

  datatype Link = Link(state: State, sig: Sig)

  type Sig = b: Bytes | |b| == 64 witness Zeros(64)

  const NO_HEAD := Head(false, Zeros(STATE_SIZE), 0, 0, 0)
  const NO_ALLOWANCE := Allowance(0, 0, false)

  function Last(states: seq<State>): State
    requires states != []
  {
    states[|states| - 1]
  }

  predicate Terminal(s: SubmissionStatus) { s.Won? || s.Lost? || s.Rejected? }

  /** Escrow still holds the bond of a submission that is not terminal. */
  predicate Live(s: SubmissionStatus) { s.Receiving? || s.Pending? }
}
