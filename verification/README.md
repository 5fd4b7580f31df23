# Offline bearer coins: the check-in protocol, modelled and proved

A coin is a chain of 104-byte states. Each state names an owner and the hash of the state before it; the owner of a
state signs the hash of the next one, offline. On-chain a coin is a registry entry backed by a vault. To cash it in, a
bearer starts a check-in with a bond, appends the chain, finalizes it and, after a challenge window counted in slots,
settles. A second bearer may contest with a chain of its own; the longer chain wins, the loser's bond goes to the winner.

The project models the on-chain program, the part of the client that builds, verifies and serialises what the program
consumes, and the client's restartable check-in driver, and proves what holds over every run.

## How it is laid out

- `Bytes`, `Sums`, `Results`, `Numbers`: bytes, little-endian numbers and buffers, sums over maps, outcomes and errors, and
  the rounding of large numbers in the client.
- `StateOps`, `Ledgers`, `Accounts`: the state layout, token balances, and the contents of the accounts.
- `Instructions`: what every instruction does, as functions on account contents: same guards, same order, same errors.
- `AccountObjects`, `Program`, `Runtime`: the same instructions as the source has them, methods that update account
  objects step by step; each is proved equal to its function, and the runtime that loads accounts and rolls back failed
  instructions is proved equal to the state machine.
- `Machine`: the program as a state machine over many coins, wallets, allowances and one ledger.
- `Invariant`, `Payouts`, `Reachable`, `Progress`: the invariant, the exact effect of every payment, preservation by every
  instruction, and the absence of stuck payouts.
- `Gates`, `CheckInGates`: for every instruction exactly when it succeeds, what it fails with first, and what it writes, in
  fields, numbers and bytes alone.
- `Dispute`, `Accounting`, `Spending`, `Evolution`, `Window`, `Batches`, `History`: the properties of whole runs.
- `Longest`, `Contests`: who wins at the end of an arbitrary run, and which chains can still win.
- `Escrows`: what becomes of tokens that lie in an escrow without belonging to a live attempt.
- `Guarantees`, `Spendable`: what all that means for a reachable world, and which coins can be paid out at all.
- `Witnesses`: concrete runs from init that reach the situations in which the code does less than promised.
- `Layout`, `Coins`, `ChainVerify`, `Agreement`: building and verifying coins offline, and agreement with the program.
- `Precompile`, `AppendWire`, `SignedRuns`: the append transaction, its signature offsets, and what they prove on-chain.
- `CoinFile`, `Wrapper`: the coin file and its encrypted container.
- `Plans`, `Driver`: the restartable check-in driver on top of the on-chain model.

## Assumptions made explicit

- The state hash is an arbitrary function. Where a property needs it, the lemma requires that it does not collide, and is
  never zero, on the finitely many states at hand; injectivity on all states is never assumed.
- Signature checks are an arbitrary predicate; encryption is an arbitrary pair of functions whose decryption undoes it.
- The ledger adds up all token accounts of an owner, and an instruction is taken to be given accounts that hold what it
  moves or, in `mint_coin`, asks for. The emptiness of the account for the bond is an argument of start_check_in instead,
  since a new account of the same address can always be had. The driver always gives the associated account of the
  address, and is taken to find there whatever the address has.
- `Env.who` says which owner a 32-byte key stands for, so the final owner of a chain may be one of the program's own
  addresses; only wallet keys can sign.
- A failed instruction leaves all accounts as they were, and an arithmetic overflow is a failure.
- The capacity of a submission, 4 in the source, is a parameter.
- An optional account of finalize or settle is missing, skipped, or the right one; passing a wrong one is an error like
  passing none.
- The token program refuses a transfer whose signer does not own the account, after checking the balance.
- In the driver, waiting for the window is one clock tick; the longest wait is counted in slots instead of milliseconds,
  and stopping the driver anywhere between two sends is a budget of sends.

## Where the code differs from its documentation

The model follows the code.

- `mint_coin` never looks at the bond, but `start_check_in` fails when value * bps does not fit 64 bits
  (`programs/obp-core/src/instructions/checkin.rs:214`). Such a coin stays ACTIVE for ever. `Spendable.SpendableIff` gives
  the exact condition, `Spendable.MintSpendableIff` what can be checked before minting, `Witnesses.LockedCoin` a run.
- A holder of a longer chain cannot always contest before settle, as the design has it: there are two attempts per coin,
  and both can be used up by shorter chains (`programs/obp-core/src/instructions/checkin.rs:181-182`).
  `Contests.CanWinIff` gives the exact condition, `Witnesses.LongerKeptOut` and `Witnesses.ShortChainPaid` a run.
- The design document lists a signature check among the steps of `append_links`; the code reads `sig` only for its commitment
  (`programs/obp-core/src/instructions/checkin.rs:308-310`) and never looks for the precompile. A stored chain is a valid
  coin exactly when every link was signed (`SignedRuns.StoredChainsVerifyIff`), and nothing on-chain asks for that
  (`SignedRuns.SignaturesUnread`, `Witnesses.UnsignedAppend`).
- `withdraw_vault` transfers from the account of the vault with the authority as signer and no seeds
  (`programs/obp-core/src/instructions/vault.rs:59-62` and `:86-93`), so it never succeeds (`Guarantees.WithdrawRefused`).
- The value of a coin can be paid into an escrow, when the final owner is a submission's address (`Witnesses.EscrowPaid`).
  `Escrows.TrapsIff` says for which calls, by what can be looked up before; no instruction takes the value out again
  (`Escrows.BesideForever`). `Accounting.ExactEscrow` and `Accounting.ExactEscrowIff` say what an escrow then holds.
- The registry is only ACTIVE or SPENT (`programs/obp-core/src/state.rs:19-22`); SUBMITTED and DISPUTED are never set.
- A bad link makes the append call fail; no submission is rejected and no bond is lost for it.
- The window starts at finalize, not at start (`programs/obp-core/src/instructions/checkin.rs:664`), and a contender may
  finalize at any time before settle, also after the window.
- The second of two identical copies is LOST, not rejected, and its bond goes to the first.
- `settle` may skip the counterparty, so a spent coin can still have an open attempt with its bond in escrow
  (`Guarantees.SkippedCounterpartyStays`, `Witnesses.CounterpartyLeft`; `Accounting.ExactEscrow` says what an escrow holds).
- `settle` may skip the allowance, so the commitment need not equal what is out (`Guarantees.SkippedAllowanceStays`);
  `Spending.ExactCommitment` says by how much it differs on any run, `Spending.CommitmentExactIff` when it does not, and
  `Witnesses.CommitmentLeft` is a run on which it does.
- With two chains of equal length the order of the finalizes decides (`Dispute.OrderIrrelevantIff`, `Witnesses.TieReached`).
- `set_allowance` may also lower the cap, down to the commitment.
- The layout comment in `sdk/src/instructions.ts:102` puts the last message 32 bytes too far; the code is right
  (`AppendWire.DocumentedOffsetMisses`).
- The driver announces batches "up to the limit" (`sdk/src/orchestrate.ts:129`) but names the hash of the last state of the
  coin in each call, so more than one batch never gets through (`Plans.DriverAppendIff`, `Witnesses.DriverRefused`).
- The driver may mint bond cover on every rerun; the at-most-once property is about the four program steps.

## Model

| member | source | states |
|---|---|---|
| Guarantees.SupplyBacked | programs/obp-core/src/instructions/mint.rs:74-80 | In every reachable world `total_unspent_supply` is the sum of the values of the ACTIVE coins, the vault holds at least that, and all balances add up to the tokens ever issued. |
| Guarantees.AllowanceBounds | programs/obp-core/src/instructions/mint.rs:82-92 | In every reachable world, for every wallet: value of ACTIVE coins minted to it <= `committed` <= `cap`. |
| Guarantees.JointShapes | programs/obp-core/src/instructions/checkin.rs:545-903 | Every reachable coin is in exactly one of three shapes of registry, head and two attempts; `submissions_count` is the number of attempts; SPENT holds exactly when one attempt is WON, and never two are. |
| Guarantees.StoredChains | programs/obp-core/src/instructions/checkin.rs:289-335 | Every stored chain of a reachable world is anchored at the registry hash and linked, within capacity; `links_count`, `final_owner` and the number of commitments agree with it. |
| Guarantees.BondsCover | programs/obp-core/src/instructions/checkin.rs:213-223 | The escrow of every live attempt holds at least one bond, and the bond is at least the value of the coin. |
| Guarantees.NeverStuck | programs/obp-core/src/instructions/checkin.rs:545-623 | In every reachable world, with the right recipient and counterparty named, finalize of a RECEIVING attempt succeeds if and only if the accounts it needs are supplied (none without a standing head; for a win the counterparty, its escrow and the allowance; for a loss the counterparty and its checker's account), and settle of a PENDING one if and only if the supplied accounts are right and the slot is the last one or has reached head slot + window. |
| Guarantees.WithdrawRefused | programs/obp-core/src/instructions/vault.rs:78-96 | withdraw_vault fails in every world; called by the authority it fails with the token program's owner mismatch exactly when its own guard on the supply is passed. |
| Guarantees.AlwaysSpendable | programs/obp-core/src/instructions/checkin.rs:1012-1194 | From every reachable world an ACTIVE coin that somebody has started to check in is brought to SPENT by finalize (if no head stands), waiting for the slot, and settle. |
| Spendable.SpendableIff | programs/obp-core/src/instructions/checkin.rs:171-231 | In every reachable world some run pays an ACTIVE coin out if and only if it has an attempt or value * bps fits 64 bits. A wallet that can pay the bond is assumed only where a first attempt has to be opened. |
| Spendable.MintSpendableIff | programs/obp-core/src/instructions/mint.rs:52-123 | What a caller can ask before mint_coin: from the world after a successful mint some run pays the new coin out exactly when value * bps fits 64 bits, given a wallet with the bond in the case that it does. |
| Spendable.ShutForever | programs/obp-core/src/instructions/checkin.rs:213-223 | A coin without attempts whose bond does not fit 64 bits is left exactly as it is by every run. |
| Spendable.StartOpens | programs/obp-core/src/instructions/checkin.rs:155-231 | Under the invariant a free attempt of an ACTIVE coin can be opened, at any first state that the registry admits, by any wallet that has the bond, if value * bps fits 64 bits; tokens that lie at its escrow address already do not prevent it. |
| Guarantees.SkippedAllowanceStays | programs/obp-core/src/instructions/checkin.rs:1173-1186 | In every reachable world a settle without the allowance account is accepted and leaves the whole commitment behind: the equality the design asks for fails by exactly the coin's value. |
| Guarantees.SkippedCounterpartyStays | programs/obp-core/src/instructions/checkin.rs:1098-1141 | In every reachable world a settle that skips an open counterparty leaves it open on a spent coin with its bond in escrow; a later finalize succeeds and sends that bond to the fee sink. |
| Guarantees.LongerChainWins | programs/obp-core/src/instructions/checkin.rs:707-721 | In every reachable world with a standing head the contender wins exactly when its chain is strictly longer, provided the state hash does not collide on the two chains and never yields zero there. |
| Reachable.ReachableInv | programs/obp-core/src/instructions/checkin.rs:171-1194 | The whole invariant (config bounds, token total, coins, escrows, backing, allowances) holds in every world reachable from init by any sequence of instructions, transfers and clock ticks. |
| Reachable.RunKeeps | programs/obp-core/src/instructions/checkin.rs:171-1194 | Any run of instructions, failed ones included, keeps the invariant. |
| Reachable.MintKeeps | programs/obp-core/src/instructions/mint.rs:52-123 | A successful mint keeps backing, allowances and every other part of the invariant. |
| Reachable.SetCapKeeps | programs/obp-core/src/instructions/allowance.rs:18-27 | A new cap keeps committed <= cap, whether it is raised or lowered. |
| Reachable.OutsideKeeps | programs/obp-core/src/instructions/vault.rs:35-96 | Funding, transfers, issue and time keep the invariant, and so does a withdrawal, which never succeeds. |
| Reachable.StartKeeps | programs/obp-core/src/instructions/checkin.rs:171-231 | A successful start adds a well-formed attempt whose bond is in its own escrow, and keeps the invariant. |
| Reachable.AppendKeeps | programs/obp-core/src/instructions/checkin.rs:255-343 | A successful append keeps the stored chain anchored and linked, and with it the invariant. |
| Reachable.FinalizeKeeps | programs/obp-core/src/instructions/checkin.rs:545-903 | All four outcomes of finalize keep the invariant. |
| Reachable.RejectKeeps | programs/obp-core/src/instructions/checkin.rs:626-652 | Rejecting an attempt on a spent coin keeps the invariant. |
| Reachable.SetHeadKeeps | programs/obp-core/src/instructions/checkin.rs:655-673 | Setting the first head keeps the invariant. |
| Reachable.WinKeeps | programs/obp-core/src/instructions/checkin.rs:731-848 | A contender win keeps the invariant: supply, commitment, vault and both escrows move together. |
| Reachable.LoseKeeps | programs/obp-core/src/instructions/checkin.rs:851-903 | A contender loss keeps the invariant. |
| Reachable.SettleKeeps | programs/obp-core/src/instructions/checkin.rs:1087-1194 | A settle pay-out keeps the invariant, with or without counterparty and allowance. |
| Gates.WindowGate | programs/obp-core/src/instructions/checkin.rs:1040-1047 | The saturating gate of settle lets a slot pass exactly when it is the last slot there is or at least since + window. |
| Gates.FormatGate | programs/obp-core/src/instructions/checkin.rs:312-321 | Under scheme 1 a signature field passes exactly when its bytes 32 to 63 are zero; under scheme 0 every one does. |
| Gates.FundIff | programs/obp-core/src/instructions/vault.rs:35-47 | fund_vault succeeds exactly for the authority with the tokens, moves exactly the amount to the vault and changes nothing else; else it fails with the first thing missing. |
| Gates.SetCapIff | programs/obp-core/src/instructions/allowance.rs:18-27 | set_allowance succeeds exactly for a wallet with an allowance whose commitment is at most the new cap; it writes that cap and changes nothing else; else it fails with the first thing missing. |
| Gates.MintIff | programs/obp-core/src/instructions/mint.rs:52-123 | Under the allowance invariant mint_coin succeeds exactly for the authority, a free serial, a positive value, the hash of the minted state, a supply and vault that take the value, and committed + value <= cap (default cap and no commitment for a new wallet), else it fails with the first of these; it writes a fresh coin, supply and commitment, and keeps the cap. |
| Gates.CapsOfRuns | programs/obp-core/src/instructions/allowance.rs:18-27 | After any run from init a wallet's cap is that of its last successful set_allowance, else the default of init from its first mint on, and it has none before; the configuration stays but for the supply. |
| CheckInGates.StartIff | programs/obp-core/src/instructions/checkin.rs:155-231 | Under the invariant start_check_in succeeds exactly for a signing wallet, an ACTIVE coin, a free attempt 0 or 1, an empty bond account, a first state with the coin's serial, value and hash, a product value * bps inside 64 bits and less than 10000 * (balance + 1), else it fails with the first of these; it writes the attempt field by field, raises the count, and moves a bond with 10000 * bond <= value * bps < 10000 * bond + 10000 from checker to escrow. |
| CheckInGates.AppendIff | programs/obp-core/src/instructions/checkin.rs:255-343 | Under the invariant append_links fails with the first thing wrong with the call, then with the fault of its first faulty link (serial, value, previous hash, under scheme 1 a non-zero byte from 32 on), then with a wrong last hash; otherwise it succeeds, and exactly the states and the hashes of the signatures are stored behind the old ones. |
| CheckInGates.FirstFault | programs/obp-core/src/instructions/checkin.rs:290-323 | The walk over the links stops at the first faulty link, with that link's first fault in bytes, and passes exactly when no link has one. |
| CheckInGates.FormatDecides | programs/obp-core/src/instructions/checkin.rs:312-321 | Links that are accepted with all signatures zero are accepted as they are exactly when, under scheme 1, bytes 32 to 63 of every signature field are zero; otherwise append_links fails with the format error. Under scheme 0 the signatures impose nothing. |
| CheckInGates.SigCommitIff | programs/obp-core/src/instructions/checkin.rs:932-958 | verify_sig_commit accepts exactly the right serial and attempt, an index from 1 below both lengths, and a signature with the stored hash, and names the first that is wrong. |
| CheckInGates.FinalizeIff | programs/obp-core/src/instructions/checkin.rs:545-903 | Under the invariant finalize succeeds exactly when nothing is wrong (attempt, status, recipient, counterparty number, and the accounts needed against a standing head) and else fails with the first thing that is; the coin afterwards is given field by field for all four outcomes. |
| CheckInGates.SettleIff | programs/obp-core/src/instructions/checkin.rs:1012-1194 | Under the invariant settle succeeds exactly when nothing is wrong (statuses, recipient, counterparty number, slot + window in plain numbers, supplied accounts) and else fails with the first thing that is, before the window with the window error; the coin afterwards is given field by field. |
| Invariant.VerifyFullChainIff | programs/obp-core/src/instructions/checkin.rs:95-119 | verify_full_chain accepts exactly the non-empty chains whose first state hashes to the registry anchor and whose later states carry serial and value and hash back. |
| Invariant.CheckLinksIff | programs/obp-core/src/instructions/checkin.rs:290-323 | The link loop of append_links accepts exactly the links that continue the stored chain and pass the format check, which `Gates.FormatGate` states by bytes. |
| Invariant.InitialInv | programs/obp-core/src/instructions/init.rs:53-90 | The parameters init accepts and the empty books it writes satisfy the invariant. |
| Instructions.BondAmount | programs/obp-core/src/instructions/checkin.rs:27-33 | Succeeds exactly when bps is at least 10000 and value * bps fits 64 bits, with the error of the first check that fails; 10000 * bond <= value * bps < 10000 * bond + 10000, and the bond is never below the value. |
| Payouts.WinEffect | programs/obp-core/src/instructions/checkin.rs:740-839 | A win moves both bonds to the contender's checker and the value to the owner of its chain, and changes exactly head, registry status, supply, commitment and the two statuses. |
| Payouts.LoseEffect | programs/obp-core/src/instructions/checkin.rs:877-895 | A loss moves one bond to the head's checker and changes only the loser's status and slot. |
| Payouts.RejectEffect | programs/obp-core/src/instructions/checkin.rs:631-650 | A rejection moves one bond to the fee sink and changes only the attempt's status and slot. |
| Payouts.SettleEffect | programs/obp-core/src/instructions/checkin.rs:1092-1187 | Settle pays value and bond, abandons the counterparty exactly when it is supplied and still RECEIVING, and releases the commitment exactly when the allowance is supplied. |
| Progress.FinalizePasses | programs/obp-core/src/instructions/checkin.rs:545-623 | Under the invariant finalize of a RECEIVING attempt passes every status, chain, bond, transfer and subtraction check. |
| Progress.SettlePasses | programs/obp-core/src/instructions/checkin.rs:1012-1187 | Under the invariant settle of a PENDING attempt after its window passes every check. |
| Dispute.FindsPrefix | programs/obp-core/src/instructions/checkin.rs:710-717 | The search finds the head state in the contender's chain exactly when the whole head chain is a prefix of it, and then at index head_len - 1. |
| Dispute.SamePosition | programs/obp-core/src/instructions/checkin.rs:95-119 | In two anchored chains a state occurs at one position only and fixes everything before it. |
| Dispute.LongerWins | programs/obp-core/src/instructions/checkin.rs:718-721 | The two-branch rule is my_len > head_len; a tie goes to the head. |
| Dispute.DisputeRule | programs/obp-core/src/instructions/checkin.rs:707-721 | The same for the chains and head stored in any world that satisfies the invariant. |
| Dispute.OrderIrrelevant | programs/obp-core/src/instructions/checkin.rs:654-903 | With two open attempts of different length, finalizing in either order and settling gives the same winner, statuses, head, supply, commitment and balances; only slots differ. |
| Dispute.TieGoesToFirst | programs/obp-core/src/instructions/checkin.rs:675-721 | With two chains of equal length whoever finalizes first is paid. |
| Dispute.OrderIrrelevantIff | programs/obp-core/src/instructions/checkin.rs:654-903 | The order of the two finalizes is irrelevant exactly when the chains differ in length. |
| Dispute.ShorterFirst | programs/obp-core/src/instructions/checkin.rs:731-848 | The shorter chain is head first: the longer one takes both bonds and the value. |
| Dispute.LongerFirst | programs/obp-core/src/instructions/checkin.rs:851-903 | The longer chain is head first: the shorter one loses its bond to it, and settle pays the same totals. |
| Longest.LostIsNotLonger | programs/obp-core/src/instructions/checkin.rs:851-903 | In every reachable coin, unless the state hash collides on the two chains, a LOST attempt's chain is no longer than the chain of the head that stands or was paid. |
| Longest.LongestWins | programs/obp-core/src/instructions/checkin.rs:545-903 | An attempt that is finalized while its coin is ACTIVE and that is strictly longest at the end of a run that spends the coin is the one that is WON then, whatever else happens in between, unless the state hash collides on the two chains. |
| Contests.CanWinIff | programs/obp-core/src/instructions/checkin.rs:171-721 | In every reachable world with the coin ACTIVE, a chain the registry admits that is longer than the head's (if there is one, and without hash collision between the two) can be made WON by some run if and only if one of the two attempts is free with a bond that fits 64 bits, or RECEIVING with stored states that are a prefix of this chain. A wallet with the bond is assumed only where an attempt has to be opened. |
| Contests.CarriedWins | programs/obp-core/src/instructions/checkin.rs:255-343 | From an open attempt at a prefix of such a chain, single-link appends that nobody has to sign, finalize and, without a head, settle after the window make exactly that chain WON. |
| Contests.KeptOutLoses | programs/obp-core/src/instructions/checkin.rs:181-182 | If neither attempt is free or open at a prefix of the chain, no run makes it WON, unless it is the head's chain already. |
| Accounting.RunFlows | programs/obp-core/src/instructions/checkin.rs:213-223 | Over any run every balance changes by the outside flows plus the change of the coins' own bills; each attempt's bill is fixed by its status alone. |
| Accounting.RunAccounts | programs/obp-core/src/instructions/checkin.rs:626-903 | From init on, every balance is its first value plus outside flows plus the bills of all coins. |
| Accounting.ClosedCoinFlow | programs/obp-core/src/instructions/checkin.rs:1143-1187 | The bill of a spent coin with all attempts terminal: value from the vault to the winning chain's owner, a LOST bond to the winner's checker, a REJECTED bond to the fee sink, nothing else. |
| Accounting.ExactEscrow | programs/obp-core/src/instructions/checkin.rs:155-164 | Over any run from init, the balance of an escrow is its first balance, plus what outsiders moved into it, plus one bond if its own attempt is live, plus the value of every coin that was paid out to it (a key may stand for an escrow). |
| Accounting.ExactEscrowIff | programs/obp-core/src/instructions/checkin.rs:155-164 | Beside outside deposits an escrow holds exactly one bond while its attempt is live, and nothing otherwise, if and only if no coin was ever paid out into it. |
| Accounting.VaultPaysCoinsOnly | programs/obp-core/src/instructions/vault.rs:35-96 | Over any run from init, the vault holds its first balance, plus what was moved into it, minus the values of the coins paid out of it; nothing else ever leaves it. |
| Escrows.PaidByCall | programs/obp-core/src/instructions/checkin.rs:731-848 | A successful start, append, finalize or settle turns its coin from ACTIVE to SPENT exactly when it is a settle or a finalize that beats the head of an ACTIVE coin, and then the value goes to the final owner the named attempt had before the call. |
| Escrows.TrapsIff | programs/obp-core/src/instructions/checkin.rs:1143-1164 | A successful call that pays a coin out (any settle, or a finalize that beats the head) adds the coin's value to what coins have put into an escrow exactly when the final owner of the attempt it names is that escrow, which can be looked up before the call. |
| Escrows.StepTraps | programs/obp-core/src/instructions/checkin.rs:626-903 | Every step of the machine adds exactly that to it: nothing on failure, nothing for any call that does not pay a coin out. |
| Escrows.BesideForever | programs/obp-core/src/instructions/checkin.rs:626-903 | Over every run, what lies at an escrow address beside the bond of its own live attempt never gets less: no instruction and no signature takes it out. |
| Escrows.EscrowFills | programs/obp-core/src/instructions/checkin.rs:155-164 | The balance of an escrow address whose attempt does not exist never falls. |
| Accounting.StepFlows | programs/obp-core/src/instructions/checkin.rs:213-1194 | Every single instruction moves tokens exactly as the bill of the coin it acts on changes. |
| Spending.PaidOnce | programs/obp-core/src/instructions/checkin.rs:815-821 | Over any run a coin turns SPENT at most once, and is SPENT at the end exactly if it was or did. |
| Spending.SpentIffWon | programs/obp-core/src/instructions/checkin.rs:1166-1187 | SPENT exactly when an attempt is WON; two attempts are never both WON. |
| Spending.ExactCommitment | programs/obp-core/src/instructions/checkin.rs:1173-1186 | Over any run from init, a wallet's `committed` is the value of its ACTIVE coins plus the values of its coins that were settled without the allowance account. |
| Spending.CommitmentExactIff | programs/obp-core/src/instructions/checkin.rs:1173-1186 | Over any run from init, a wallet's `committed` equals the value of its ACTIVE coins if and only if no successful settle of a coin minted to it skipped the allowance account. |
| Spending.StepSlack | programs/obp-core/src/instructions/checkin.rs:822-835 | Each instruction keeps the difference between commitment and outstanding value, except a settle that skips the allowance, which adds the coin's value. |
| Evolution.StepEvolves | programs/obp-core/src/instructions/checkin.rs:181-211 | A successful start, append, finalize or settle on a coin strictly lowers its measure and moves it only forward; any other step leaves the coin exactly as it was. |
| Evolution.RunEvolves | programs/obp-core/src/instructions/checkin.rs:247-252 | Over any run WON, LOST and REJECTED stay, stored chains only grow and freeze after RECEIVING, and the successful steps are paid for by the measure. |
| Evolution.FewSuccesses | programs/obp-core/src/instructions/checkin.rs:272-275 | At most 2 * (capacity + 3) instructions of any run can succeed on one coin. |
| Window.WindowRespected | programs/obp-core/src/instructions/checkin.rs:1040-1047 | Every successful settle of any run happens in the last slot there is, or at least the configured window after the finalize that set its head, and pays the chain finalized there. |
| Window.HeadUntouched | programs/obp-core/src/instructions/checkin.rs:655-673 | While a coin stays ACTIVE a head that was set keeps its state, its slot and its attempt's chain. |
| Window.HeadOrigin | programs/obp-core/src/instructions/checkin.rs:618-622 | Every standing head was set by one earlier finalize of this run, with its slot, and has been carried unchanged. |
| Window.HeadAppears | programs/obp-core/src/instructions/checkin.rs:655-664 | Only a finalize gives an unspent coin a head, and it stamps the current slot and its own attempt. |
| Batches.BatchingInvisible | programs/obp-core/src/instructions/checkin.rs:255-343 | Any split of links into allowed append calls is accepted exactly when the links as a whole are appendable, and stores the same states, commitments, length, count and owner. |
| Batches.SplitsAgree | programs/obp-core/src/instructions/checkin.rs:255-343 | Two splits of the same links are accepted or refused alike and cannot be told apart afterwards. |
| Batches.OneBatch | programs/obp-core/src/instructions/checkin.rs:266-335 | One call accepts exactly the links that fit, are linked on and are within the batch limit. |
| Batches.CommitOpens | programs/obp-core/src/instructions/checkin.rs:932-958 | verify_sig_commit accepts a signature for an appended link exactly when it hashes like the one the link came with. |
| History.StoredIsDelivered | programs/obp-core/src/instructions/checkin.rs:289-335 | After any run an attempt holds its first state and then exactly the links of its successful append calls, in order, and `sig_commits[i]` is the hash of link i's signature. |
| History.OthersKeepChain | programs/obp-core/src/instructions/checkin.rs:196-211 | Besides append only start writes states, and only the first. |
| Program.Init | programs/obp-core/src/instructions/init.rs:53-90 | Checks the four bounds in order and writes the seven fields of the config account; fails with the first bound broken. |
| Program.FundVault | programs/obp-core/src/instructions/vault.rs:35-47 | Moves tokens from the authority to the vault if the caller is the authority, or fails as specified. |
| Program.WithdrawVault | programs/obp-core/src/instructions/vault.rs:78-96 | Checks the authority and that the vault would still cover the supply, with a checked addition; the transfer, which the authority signs for the vault's tokens, is then refused by the token program. |
| Program.SetAllowance | programs/obp-core/src/instructions/allowance.rs:18-27 | Writes the cap if it is at least the commitment, else fails and writes nothing; nothing else changes. |
| Program.MintCoin | programs/obp-core/src/instructions/mint.rs:52-123 | The guards and field updates of mint_coin in their order, on config, allowance and registry objects. |
| Program.Commit | programs/obp-core/src/instructions/mint.rs:82-92 | Opens an uninitialised allowance at the default cap, then adds the value if the sum is within 64 bits and the cap, which stays; else fails. |
| Program.StartCheckIn | programs/obp-core/src/instructions/checkin.rs:155-231 | The checks, field writes, count and bond transfer of start_check_in, with the first failing check's error; the account given for the bond must be empty, whatever else its owner holds. |
| Program.VerifyFullChain | programs/obp-core/src/instructions/checkin.rs:95-119 | The read-only loop returns exactly the first failing check of the specified walk. |
| Program.StoreLinks | programs/obp-core/src/instructions/checkin.rs:289-323 | The in-place loop extends both buffers by the links and their commitments, or fails at the first bad link. |
| Program.AppendLinks | programs/obp-core/src/instructions/checkin.rs:255-343 | The whole append handler on the account object equals its specification, errors included. |
| Program.VerifySigCommit | programs/obp-core/src/instructions/checkin.rs:932-958 | Accepts exactly what the specification accepts. |
| Program.FinRejectSpent | programs/obp-core/src/instructions/checkin.rs:626-652 | Bond to the fee sink, status REJECTED, slot stamped. |
| Program.FinSetHead | programs/obp-core/src/instructions/checkin.rs:655-673 | Writes the five head fields from the attempt and makes it PENDING. |
| Program.FindHead | programs/obp-core/src/instructions/checkin.rs:710-717 | The search loop returns the first index of the head state, if any. |
| Program.PayWin | programs/obp-core/src/instructions/checkin.rs:746-806 | The three transfers of a win in order, stopping at the first that fails. |
| Program.FinResolveWin | programs/obp-core/src/instructions/checkin.rs:731-848 | Payments, head, registry, supply, allowance and both attempts as specified. |
| Program.FinResolveLose | programs/obp-core/src/instructions/checkin.rs:851-903 | The loser's bond and status as specified. |
| Program.FinResolve | programs/obp-core/src/instructions/checkin.rs:680-728 | Checks the counterparty, searches the head, and takes the branch of the two-branch rule. |
| Program.FinalizeCheckIn | programs/obp-core/src/instructions/checkin.rs:545-623 | The guards in order and the four outcomes. |
| Program.AbandonOther | programs/obp-core/src/instructions/checkin.rs:1098-1141 | An open counterparty loses its bond to the fee sink, a LOST or REJECTED one is left alone, anything else fails. |
| Program.PaySettled | programs/obp-core/src/instructions/checkin.rs:1143-1164 | Value to the final owner, then the bond back to the checker. |
| Program.ReleaseAllowance | programs/obp-core/src/instructions/checkin.rs:1173-1186 | Subtracts the value from the commitment unless the account is skipped; checked subtraction. |
| Program.SettleBooks | programs/obp-core/src/instructions/checkin.rs:1166-1187 | Registry, supply, allowance and status after a settled payment. |
| Program.SettlePayOut | programs/obp-core/src/instructions/checkin.rs:1087-1194 | The whole pay-out on account objects equals its specification. |
| Program.Settle | programs/obp-core/src/instructions/checkin.rs:1012-1084 | The guards of settle in order, including the saturating window, then the pay-out. |
| Runtime.Cluster.Submit | programs/obp-core/src/instructions/checkin.rs:171-1194 | Loading fresh account objects, running the handler and keeping the result only on success takes the world exactly where the state machine goes. |
| Runtime.Cluster.Replay | programs/obp-core/src/instructions/checkin.rs:171-1194 | Feeding a whole run to the handlers yields the run of the state machine and a world that satisfies the invariant. |
| AccountObjects.TokenProgram.Transfer | programs/obp-core/src/instructions/checkin.rs:48-64 | Refuses for lack of funds, for a signer that does not own the account, or for overflow; otherwise debits, then credits. Equal to the ledger function. |
| Ledgers.Transfer | programs/obp-core/src/instructions/checkin.rs:48-64 | Succeeds exactly when the sender has the amount and the receiver does not overflow; moves exactly the amount and keeps the total. |
| Ledgers.TransferAs | programs/obp-core/src/instructions/vault.rs:86-93 | A signed transfer succeeds only if the signer owns the account, and then does what a transfer does; the errors are those of the token program in their order. |
| StateOps.GenesisState | programs/obp-core/src/state.rs:204-211 | Filling a zeroed buffer field by field gives serial, little-endian value, owner and a zero previous hash. |
| StateOps.NextState | programs/obp-core/src/state.rs:241-247 | Copying the previous state and overwriting owner and previous hash. |
| StateOps.ParseFields | programs/obp-core/src/state.rs:213-235 | Parsing a built state gives the four fields back. |
| StateOps.FieldsOfParse | programs/obp-core/src/state.rs:213-235 | Rebuilding a state from its parsed fields gives the same 104 bytes. |
| StateOps.StateBytes | programs/obp-core/src/state.rs:204-235 | The state byte by byte: serial at 0, value at 32 as base-256 digits with the low one first, owner at 40, previous hash at 72. |
| StateOps.ParsedBytes | programs/obp-core/src/state.rs:213-235 | The parsers read exactly these bytes. |
| Layout.EncodeState | sdk/src/layout.ts:24-35 | Throws exactly on wrong sizes or a value outside 64 bits, otherwise writes the four fields at their offsets. |
| Layout.DecodeOfEncoded | sdk/src/layout.ts:24-46 | decodeState inverts encodeState on everything it accepts. |
| Layout.EncodedOfDecode | sdk/src/layout.ts:24-46 | encodeState inverts decodeState on every 104-byte buffer. |
| Layout.SameBytesAsProgram | sdk/src/layout.ts:49-57 | The client's genesisState and nextState give the bytes of the program's genesis_state and next_state. |
| Coins.BuiltCoinsAreValid | sdk/src/coin.ts:18-36 | newCoin followed by any list of appendLink calls, each signed by the owner of that moment, is a valid coin that starts at the genesis state and belongs to the last receiver. |
| Coins.AppendLinkValid | sdk/src/coin.ts:31-36 | One correctly signed appendLink keeps a coin valid and hands it to the new owner. |
| Coins.NewCoinValid | sdk/src/coin.ts:18-26 | A new coin is valid, has no signatures and belongs to its recipient. |
| ChainVerify.VerifyStructure | sdk/src/chain.ts:22-48 | Throws exactly on a state of the wrong size or an anchor without states; otherwise the errors are exactly the broken structure rules. |
| ChainVerify.VerifyCoinChain | sdk/src/chain.ts:50-67 | Throws exactly on no states or a wrong size; `ok` exactly for valid coins with the given anchor; the errors are exactly the broken rules; the head hash is that of the last state. |
| ChainVerify.AcceptsValid | sdk/src/chain.ts:13-19 | No rule is broken exactly when the coin is valid and anchored. |
| ChainVerify.ValidBytes | sdk/src/chain.ts:22-67 | A valid coin byte by byte: serial and value in every 104-byte state, zero previous hash in the first, and each later one with the hash of its predecessor and a 64-byte signature over its own hash by its predecessor's owner. |
| Agreement.ClientPassesStart | programs/obp-core/src/instructions/checkin.rs:183-194 | start_check_in never refuses the first state of a verified coin for serial, value or genesis hash. |
| Agreement.ClientPassesAppend | programs/obp-core/src/instructions/checkin.rs:266-331 | From any stored prefix of a verified coin its next links are accepted in every split into allowed batches, and the longer prefix is what is stored. |
| Agreement.ProgramPassesClient | sdk/src/chain.ts:22-48 | Every chain stored on-chain passes the client's structure check with the registry's anchor, if the state hash does not collide on the stored first state and the minted one and is not zero there. |
| Agreement.AnchoredStart | sdk/src/chain.ts:42-46 | An anchored valid coin starts at the minted state and carries the registry's serial and value. |
| Precompile.Ed25519VerifyIx | sdk/src/precompile.ts:12-28 | Throws exactly without records, beyond 12, or on a field beyond 16 bits, in this order; otherwise the count and every record read back from the bytes. |
| Precompile.WrittenOffsets | sdk/src/precompile.ts:15-25 | The written instruction byte by byte: the count at 0, and for record i seven 16-bit numbers, low byte first, at 2 + 14 * i and every second byte after. |
| Precompile.WritableIff | sdk/src/precompile.ts:13-16 | What the client accepts: one to 12 records, every field from 0 to 65535. |
| Precompile.AcceptsIff | sdk/src/precompile.ts:4-10 | The precompile accepts the written instruction exactly when every record's three slices exist and verify. |
| AppendWire.AppendLinksIxPair | sdk/src/instructions.ts:103-128 | For buffers of any size: throws exactly without links, on a serial of more than 32 bytes (no address can be derived from it), or beyond 12 links; otherwise the first instruction encodes the records of the code and the second is the concatenation of the buffers given. |
| AppendWire.AppendRoundTrip | sdk/src/instructions.ts:111-114 | What the program decodes from the append data is exactly what the client put in. |
| AppendWire.ReadsBackIff | sdk/src/instructions.ts:108-114 | The program decodes from the append data exactly the buffers the client was given if and only if they all have their proper sizes, which the client does not check. |
| AppendWire.RecordSlices | sdk/src/instructions.ts:116-126 | For any decodable data the three slices of record i are in bounds: link i's signature, the previous owner field, and the next previous-hash field or the last hash. |
| AppendWire.AcceptedHashes | programs/obp-core/src/instructions/checkin.rs:282-331 | When append_links accepts, those owner and hash fields are the true previous owner and the hash of link i's state. |
| AppendWire.SignatureCoverage | sdk/src/instructions.ts:93-128 | When append_links accepts, the precompile accepts exactly when every link is signed over its state's hash by the owner of the state before it. |
| AppendWire.DocumentedOffsetMisses | sdk/src/instructions.ts:98-102 | The offset the layout comment gives for the last message lies outside the data; the code's offset is the last hash. |
| SignedRuns.StoredChainsVerifyIff | programs/obp-core/src/instructions/checkin.rs:290-331 | For every run from init and every attempt, the stored chain with the signatures that came with its links is anchored, and is a coin the client accepts if and only if each of those signatures is the previous owner's; the state hash must not collide on the stored first state and the minted one, nor be zero there. |
| SignedRuns.StoredChainsVerify | sdk/src/instructions.ts:93-128 | If the successful append calls of one attempt came in transactions whose precompile passed, its stored chain with the signatures sent is a coin that the client accepts, under the same collision hypothesis; all other calls of the run are arbitrary. |
| SignedRuns.SignaturesUnread | programs/obp-core/src/instructions/checkin.rs:290-331 | Under scheme 0 append_links gives the same outcome, and stores the same states, for links that differ in their signatures only; only the stored commitments differ. |
| SignedRuns.VouchedAppend | programs/obp-core/src/instructions/checkin.rs:290-331 | An accepted append whose transaction passed the precompile stores signed links only. |
| SignedRuns.PlannedAppendVouched | sdk/src/orchestrate.ts:141-145 | The append transaction the driver builds for a valid coin always passes the precompile. |
| CoinFile.EncodeCoinCore | sdk/src/coinfile.ts:31-51 | Throws exactly on no states, a signature count other than n - 1, a serial of the wrong size or a number beyond its field. Otherwise every byte of the payload is that of the last copy that reaches it, whatever the sizes of states and signatures, and the checksum is the payload's hash; for well-sized parts this is the file layout. |
| CoinFile.DecodeCoinCore | sdk/src/coinfile.ts:53-73 | The loops return exactly the specified fields or the first failing check. |
| CoinFile.DecodeOfEncode | sdk/src/coinfile.ts:27-73 | decode(encode(c)) = c for every encodable coin with well-sized states and signatures. |
| CoinFile.EncodeOfDecode | sdk/src/coinfile.ts:53-73 | encode(decode(b)) = b for every accepted buffer, which always has n >= 1 and well-sized parts. |
| CoinFile.OnlyWellSizedReturn | sdk/src/coinfile.ts:31-51 | Some file decodes to an encodable coin exactly when its states and signatures are well-sized; the encoder itself does not check that. |
| CoinFile.CoinCoreSize | sdk/src/coinfile.ts:27-29 | The size formula reaches the 49-byte header exactly from one state on. |
| CoinFile.FileOffsets | sdk/src/coinfile.ts:13-23 | The coin file byte by byte, all offsets and sizes as numbers, magic and version literally. |
| CoinFile.DecodeFault | sdk/src/coinfile.ts:53-71 | What a refused file is refused for, in the order of the checks and in bytes: size, magic, version, size for the number of states, checksum. |
| Wrapper.SerializeEncrypted | sdk/src/wrapper.ts:44-55 | Throws exactly on a hint or length beyond its field. Otherwise every byte is that of the last copy that reaches it, whatever the sizes of nonce and tag; for well-sized ones this is the container layout. |
| Wrapper.ParseOfSerialize | sdk/src/wrapper.ts:44-68 | parse(serialise(e)) = e for every well-sized container. |
| Wrapper.SerializeOfParse | sdk/src/wrapper.ts:57-68 | serialise(parse(b)) = b for every accepted container. |
| Wrapper.ContainerRoundTrip | sdk/src/wrapper.ts:24-78 | Encode, encrypt, serialise, then parse, decrypt, decode returns the coin, for any cipher whose decryption undoes its encryption under 32-byte keys. |
| Wrapper.OpensIff | sdk/src/wrapper.ts:70-78 | A container opens exactly when it is a well-formed container with the given hint whose tag the cipher accepts. |
| Wrapper.ContainerOffsets | sdk/src/wrapper.ts:44-55 | The container byte by byte, all offsets and sizes as numbers, magic and version literally. |
| Wrapper.OpenFault | sdk/src/wrapper.ts:57-78 | What a refused container is refused for, in the order of the checks and in bytes: magic, version, size, key hint, tag. |
| Driver.RunCheckIn | sdk/src/orchestrate.ts:68-204 | A run on a coin that is not fit (scheme, sizes, validity, registry, status, recipient, anchor) throws the first such reason and sends nothing. On an expected check-in, with a limited number of sends and a limited wait, the steps that succeed on-chain are exactly the next ones of the plan; it throws only if the coin is already paid, or if the wait is shorter than the window; otherwise it completes unless cut off. |
| Driver.Rerun | sdk/src/orchestrate.ts:65-67 | Over any number of cut-off reruns the steps that succeed on-chain are exactly the first ones of the plan, each once; as many runs with two sends and a window of patience as there are steps bring the coin home. |
| Driver.TopUp | sdk/src/orchestrate.ts:100-110 | The bond cover: at most one mint per run. The balance becomes the old one plus the missing amount and 500, rounded to a double; for an expected check-in that is exactly bond + 500. |
| Driver.ExactCover | sdk/src/orchestrate.ts:106-109 | For every bond that start_check_in can charge the amount is below 2^53, so Number() does not change it, and a top-up ends at exactly the bond plus 500. |
| Numbers.Nearest | sdk/src/orchestrate.ts:109 | Number() keeps whole numbers below 2^53 and moves larger ones by at most half the distance between neighbouring doubles. |
| Driver.EnsureStarted | sdk/src/orchestrate.ts:112-124 | start_check_in is sent only if no attempt exists (an existing attempt 0 is taken before 1), with the account the address has, and needs the recipient's signature; on an expected check-in it succeeds. |
| Driver.AppendMissing | sdk/src/orchestrate.ts:129-148 | The append loop ends with the stored chain as long as the coin, sending only the missing links. |
| Driver.EnsureFinalized | sdk/src/orchestrate.ts:150-171 | Throws on an attempt that does not pay the coin's current owner; on a PENDING or WON one nothing is sent; on any other exactly one finalize, without optional accounts, which succeeds on an expected check-in. |
| Driver.AwaitAndSettle | sdk/src/orchestrate.ts:173-191 | On any attempt that is not PENDING nothing is sent. On a PENDING one it waits for head slot + window and then sends one settle, which pays the attempt on an expected check-in; it throws without settling only if the wait allowed is shorter than the window. |
| Driver.StepsOnce | sdk/src/orchestrate.ts:112-191 | A plan holds start, append, finalize and settle at most once each, in this order. |
| Driver.HomeIs | sdk/src/orchestrate.ts:150-154 | At the end the coin is SPENT, the attempt WON, and its final owner is the coin's current owner. |
| Plans.DriverAppendIff | sdk/src/orchestrate.ts:136-145 | Because the driver always announces the hash of the coin's last state, its append is accepted exactly when all missing links fit one call; otherwise it fails with the last-hash error. |
| Plans.AppendSucceeds | sdk/src/orchestrate.ts:129-148 | With all missing links in one call the append succeeds and completes the chain. |
| Plans.StartSucceeds | sdk/src/orchestrate.ts:112-121 | With the bond covered the driver's start succeeds. |
| Plans.FinalizeSucceeds | sdk/src/orchestrate.ts:161-165 | Alone on its coin the attempt becomes the head without any optional account. |
| Plans.SettleSucceeds | sdk/src/orchestrate.ts:185-189 | After the window settle succeeds with the counterparty skipped and the allowance supplied. |
| Witnesses.DriverRefused | sdk/src/orchestrate.ts:136-145 | A run from init, one link per call allowed, and a valid coin with two links whose first append call by the driver is refused with the last-hash error. |
| Witnesses.UnsignedAppend | programs/obp-core/src/instructions/checkin.rs:290-331 | A run from init after which an append without the owner's signature succeeds, and what it stores is not a valid coin. |
| Witnesses.TieReached | programs/obp-core/src/instructions/checkin.rs:675-721 | A run from init that reaches two open attempts of equal length, from where the two orders of finalize end differently, for every wallet key whose first state does not hash to zero. |
| Witnesses.CounterpartyLeft | programs/obp-core/src/instructions/checkin.rs:1098-1141 | For every environment with a wallet key: a run from init after which a SPENT coin has a RECEIVING attempt with its bond in escrow. |
| Witnesses.LongerKeptOut | programs/obp-core/src/instructions/checkin.rs:851-903 | A run from init: a chain of two states can win while both attempts are open; after both are finalized with the minted state alone the coin is still ACTIVE, no run makes the longer chain WON any more, and the bond of the LOST attempt is back with the wallet that paid it. |
| Witnesses.ShortChainPaid | programs/obp-core/src/instructions/checkin.rs:1012-1187 | Continuing that run, settle after the window pays the chain of one state. |
| Witnesses.EscrowPaid | programs/obp-core/src/instructions/checkin.rs:1143-1164 | For every environment with a wallet key and a key that stands for an escrow: a run from init whose settle pays that key, after which the escrow holds the value without a live attempt, and keeps it over every further run. |
| Witnesses.PayableCoin | programs/obp-core/src/instructions/mint.rs:52-123 | For every environment with a wallet key: a run from init whose mint of value 1 reaches an ACTIVE coin that some run pays out. |
| Witnesses.CommitmentLeft | programs/obp-core/src/instructions/checkin.rs:1173-1186 | For every environment with a wallet key: a run from init after which a wallet's commitment exceeds the value of its ACTIVE coins. |
| Witnesses.LockedCoin | programs/obp-core/src/instructions/mint.rs:52-123 | For every environment with a wallet key: a run from init with bps 10000 and one mint of value 2^60 reaches an ACTIVE coin that no run pays out. |

## Left out

- Cryptography itself: SHA-256, Ed25519, AES-256-GCM and the post-quantum schemes are parameters of the lemmas.
- Account plumbing of the platform: derived addresses and bumps, rent, discriminators, account ownership and mint checks,
  serialisation of accounts, cross-program calls; passing the right accounts is what `Given` means.
- `close_instance` and re-initialisation, `ping`, the post-quantum benchmark instructions, `verifyCoinChainAsync`: they would
  break the single instance or add only easy members.
- `mint_tx`, `mint_slot` and log messages: stored or printed, never read.
- Network code of the client: fetching, retries, account readers, confirmation; the driver reads the modelled world instead.
- Driver.RunCheckIn: contested coins, a checker other than the recipient, and links beyond one batch run through the same
  method but only the kept invariant is promised for them, because the driver has no way to succeed there.
- Driver.AwaitAndSettle: the slot at which the passed window is noticed is the deadline itself, not a later poll.
- Driver.Rerun: between the runs nobody else acts; a stranger's attempt or deposit into the escrow would end the expectation.
- Precompile.AcceptsIff: the precompile is modelled by its documented rule (slices in bounds, signature verifies), not by
  its own source, which is not part of this model.
