# A model of the payments engine

This project models a payments engine that turns a queue of small token payments into few blockchain
transactions and reads chain data back into payments. It proves that nobody is overpaid or forgotten on the way
there, and that what is read back is what was queued.

`dafny verify dfyconfig.toml` checks everything.

## Reading guide

- `Ledger`, `Orders`, `Chunks`, `Gathering`, `GatherFacts`, `PostFacts`, `MultiFacts`, `GatherTheorems` and
  `Conservation` model the batching compiler and prove what every gather keeps. `Plan` says from the pending rows, the
  settings and the allowances what a gather will do; `PlanFacts` and `GatherPlan` prove that it does; `Preservation`
  holds the main theorem, and `Witnesses` concrete tables for the exceptional outcomes. The two tables are a value,
  `State`. `Inv` says what is true of every ledger: each transaction pays exactly the rows linked to it, unless it is
  packed and some receiver is owed exactly 2^96. `IsGather` describes one round under arbitrary hash map orders.
- `Approvals` says what the allowance check of a gather asks for, in terms of the allowance rows, and `Targets` which
  contracts a gather calls.
- `Engine` is the same code as it runs: a class whose methods update the tables in place, loop by loop. Each method is
  proved against the function of the same stage, so the theorems are about it.
- `Contracts` says what a confirmed transaction pays. It follows the contracts in yatestnet/contracts/contracts
  (MultiTransferERC20.sol and LockPayment.sol). `Bytes` and `Text` hold the encodings.
- `Deposits` is the deposit closing protocol as a state machine over inserts, close requests and gathers, where requests
  may come between the two stages of a gather; `Overlays` proves what such a gather does. `Runs` says what whole runs
  keep. `Closings` follows a granted request to the closing transaction, or proves that there never is one;
  `Interleaved` says which requests granted within a gather survive it.
- `Receipts` is the analysis of EIP-20 Transfer events (section Events of EIP-20), and `EndToEnd` joins it to the ledger.
- `Scanner`, `Status`, `Fees`, `DecimalText`, `Decimals`, `CallHistory`, `ProblemPlan` and `ImageNames` model one
  component each: a class or a loop proved against a specification, and the lemmas about the specification.

## Where the code differs from what one would expect

- Packing refuses amounts above 2^96 but accepts 2^96 itself, which the contracts read as 0
  (crates/erc20_payment_lib/src/multi.rs:14). `Bytes.PackRoundTrip` and `Preservation.GatherConserves` give the
  exact condition, `Witnesses.FullTransferIsLost` a table.
- A failing chunk marks the rows of earlier, committed chunks as well, so an error and a transaction do not exclude
  each other (crates/erc20_payment_lib/src/sender/batching.rs:587-597). `GatherPlan.GatherFollowsPlan` says exactly when.
- A failed group in the chain's own currency is left pending without an error
  (crates/erc20_payment_lib/src/sender/batching.rs:515-536): exactly the groups of `GatherPlan.GatherErrors`.
- The check for closed deposits compares texts. `Deposits.RefusedIffCanonical` gives the exact condition.
- Gathering writes back whole rows read earlier, so a close request granted in between can be lost.
  `Interleaved.RequestBetweenStages` gives the exact condition, `Witnesses.RequestIsLost` a run.
- A close request may flag a row that was rejected, or one in the chain's own currency, or one whose chunk then fails;
  after that the deposit refuses every request and is never closed (`Closings.NeverClosed`, with the exact condition in
  `Closings.RequestThenGather` and a run in `Witnesses.DepositIsBlocked`).
- Transactions on a deposit are not read back from their receipts (`EndToEnd.DepositReceiptFails`).
- The scanner never leaves normal mode below block 100 (`Scanner.StuckBelow100`, reached as in
  `Scanner.StuckIsReachable`), and with fewer than 100 blocks at once it moves backwards (`Scanner.ProgressIff`,
  `Scanner.StepBackwards`). A new scan with from_block above 0 never gets into normal mode, nor does it ever look
  backward (`Scanner.NewScanReaches`).
- The status tracker's functions are documented to return true only when the list was changed; re-reporting a standing
  amount or text returns true as well (`Status.ReportWithoutChange`, `Status.RepeatIsAnnounced`).

## What the preconditions stand for

- Row ids are unique: a row's id is its position in the table.
- Adding 256-bit numbers aborts on overflow. `Engine.Database.GatherTransfers` requires the sum of every group to stay
  below 2^256, and the receipt loops require it of the amounts paid into the contract.
- `multi_contract_max_at_once` is at least 1 (`ValidSetup`); chunking by 0 aborts in the original.
- An inserted transfer is new: not flagged, not linked and without error
  (crates/erc20_payment_lib/src/transaction.rs:115-140).
- Replies of the node and of the database are parameters: readings of the current block, deposit details, allowances,
  receipts and logs.

## Model

| member | source | states |
|---|---|---|
| `Preservation.GatherConserves` | crates/erc20_payment_lib/src/sender/batching.rs:63-170 | Meaning preserved: when the pending rows can all be settled, the new transactions pay every (from, chain, token, deposit, receiver) exactly what paying the pending transfers one by one would, for every chunk size, encoding choice, single-payment setting and hash map order, if and only if no group that will be packed is owed exactly 2^96; both conditions are told from the pending rows, the settings and the allowances |
| `Preservation.GatherPaysEverybody` | crates/erc20_payment_lib/src/sender/batching.rs:248-361 | The same for one key and one receiver, with both conditions checked before the gather |
| `Preservation.SettledIsPaid` | crates/erc20_payment_lib/src/sender/batching.rs:362-375 | The same for every error-free gather, whatever groups and batches fail: the new transactions pay every key and receiver exactly what the rows that get paid owe, if and only if no packed group among them is owed exactly 2^96; which rows get paid is told from the pending rows, the settings and the allowances |
| `Preservation.OverfullIff` | crates/erc20_payment_lib/src/sender/batching.rs:269-361 | Whether any new transaction of an error-free gather is packed with the amount 2^96 is decided by which rows get paid, the group sums, the settings and each group's place among the groups of its four-part key |
| `Preservation.UnpackedConserves` | crates/erc20_payment_lib/src/sender/batching.rs:269-361 | With the unpacked method and without deposits a gather that settles everything pays exactly what is owed, whatever the amounts |
| `Preservation.RowPacking` | crates/erc20_payment_lib/src/sender/batching.rs:269-361 | The transaction of a token row is packed exactly as deposit, settings and the size of the chunk around its group say |
| `Witnesses.FullTransferIsLost` | crates/erc20_payment_lib/src/multi.rs:13-18 | One transfer of exactly 2^96: it is settled, and the receiver is paid 0 |
| `GatherPlan.GatherErrors` | crates/erc20_payment_lib/src/sender/batching.rs:543-608 | Exactly when a gather returns an error, which native groups and which batches fail otherwise, and when nothing fails, told from the pending rows, the settings and the allowances |
| `GatherPlan.SucceedsIff` | crates/erc20_payment_lib/src/sender/batching.rs:173-361 | Exactly when nothing fails: no deposit or chain of a close marker is unconfigured, and for every key the chain is configured, amounts are readable, and for tokens a confirmed allowance of at least 2^255 - 1 exists where the check applies, the addresses and contracts the encoding needs are there, and packed amounts are at most 2^96 |
| `GatherPlan.BatchOkIff` | crates/erc20_payment_lib/src/sender/batching.rs:173-361 | A batch does not fail if and only if its chain is configured, a confirmed allowance of at least 2^255 - 1 exists where the check applies, and every receiver's group is readable and fits the chunk around it |
| `GatherPlan.NativeFailsIff` | crates/erc20_payment_lib/src/sender/batching.rs:384-402 | A group in the chain's own currency fails if and only if its chain is not configured or one of its amounts is unreadable |
| `Approvals.StopsExactlyWhen` | crates/erc20_payment_lib/src/sender/batching.rs:63-119 | A gather returns an error if and only if some close marker has an unreadable deposit id or no configured chain or lock contract, or some token payment lacks its allowance; an error for want of an allowance comes only without such a marker, and asks for 2^256 - 1 on behalf of a pending payment that lacks it, by its payer, token, chain and multi contract |
| `Approvals.PaidIsApproved` | crates/erc20_payment_lib/src/sender/batching.rs:192-246 | In any gather, failing ones included, a token payment outside a deposit on a chain with a multi contract gets a transaction only if the check is off or its payer has a confirmed allowance of at least 2^255 - 1 for that contract |
| `Gathering.Gate` | crates/erc20_payment_lib/src/sender/batching.rs:192-246 | The check lets a batch pass if and only if it does not apply or such an allowance exists, and refuses it for want of one if and only if the row is missing, unconfirmed or too small |
| `Witnesses.UnconfirmedStops` | crates/erc20_payment_lib/src/sender/batching.rs:226-246 | An allowance of 2^256 - 1 that is not confirmed stops the gather, which pays nothing |
| `Witnesses.ConfirmedPays` | crates/erc20_payment_lib/src/sender/batching.rs:213-224 | A confirmed allowance of 2^255 - 1 is enough |
| `GatherPlan.GatherFollowsPlan` | crates/erc20_payment_lib/src/sender/batching.rs:543-608 | After every error-free gather each pending row has exactly the new value that the pending rows, the settings and the allowances decide, and no other row changes: a row of a failed batch carries the failure text, and keeps a transaction if and only if its chunk comes before the first that cannot be encoded |
| `Witnesses.LinkedAndMarked` | crates/erc20_payment_lib/src/sender/batching.rs:587-597 | A table whose gather leaves one row with both a transaction and the failure text |
| `Witnesses.NativeLeftPending` | crates/erc20_payment_lib/src/sender/batching.rs:515-536 | A table whose gather leaves an unreadable native transfer as it is, neither paid nor marked |
| `GatherPlan.BatchesArePlaced` | crates/erc20_payment_lib/src/sender/batching.rs:252-376 | At the end of an error-free gather the committed chunks of every four-part key sit in consecutive new transactions with exactly their rows, and the rows of the other chunks are linked to nothing |
| `GatherPlan.NativeIsPlaced` | crates/erc20_payment_lib/src/sender/batching.rs:436-456 | At the end of an error-free gather every payable group in the chain's own currency has its own new transaction with exactly its rows |
| `GatherPlan.GatherCount` | crates/erc20_payment_lib/src/sender/batching.rs:50-612 | An error-free gather inserts one transaction for each close marker, for each payable native group and for each committed chunk, whatever the hash map order |
| `GatherPlan.CleanCount` | crates/erc20_payment_lib/src/sender/batching.rs:248-252 | When nothing fails a four-part key with n receivers is paid by n / max transactions, rounded up |
| `GatherPlan.GatherExists` | crates/erc20_payment_lib/src/sender/batching.rs:50-612 | Every ledger has a gather, so the statements about gathers are about something |
| `Plan.PreRunPlan` | crates/erc20_payment_lib/src/sender/batching.rs:63-169 | The first stage stops exactly at a row whose deposit or chain is not configured, and otherwise groups exactly the payable rows in order |
| `Plan.PlanIsSorted` | crates/erc20_payment_lib/src/sender/batching.rs:467-478 | The order by smallest id is the order in which keys first appear among the pending rows |
| `Conservation.RangeConserves` | crates/erc20_payment_lib/src/sender/batching.rs:362-375 | In every reachable ledger, any range of transactions pays exactly the rows linked to it if and only if none of them is packed with the amount 2^96 |
| `Conservation.RangePays` | crates/erc20_payment_lib/src/sender/batching.rs:362-375 | In every reachable ledger, also after failed gathers, a range of transactions never pays anybody more than the rows linked to it owe |
| `Conservation.GroupTogether` | crates/erc20_payment_lib/src/sender/batching.rs:153-168 | Pending transfers of one five-part group always end in the same transaction |
| `GatherTheorems.ExactlyOneOutcome` | crates/erc20_payment_lib/src/sender/batching.rs:63-170 | After a clean gather each pending row is rejected, closed or paid by one new transaction; the three exclude each other and the row's contents decide which |
| `GatherTheorems.OutcomeByContents` | crates/erc20_payment_lib/src/sender/batching.rs:63-152 | The same outcome without the program's branches: paid if and only if both addresses name accounts, closed if and only if it is a close marker, rejected otherwise |
| `Runs.NobodyIsOverpaid` | crates/erc20_payment_lib/src/sender/batching.rs:362-375 | At any point of any run all transactions together never pay anybody more than the linked transfers owe, and exactly that if and only if none is packed with the amount 2^96 |
| `Runs.LinksAreFinal` | crates/erc20_payment_lib/src/sender/batching.rs:367-375 | Over every run of inserts, close requests and gathers, with requests between the stages of a gather or without, a linked transfer keeps its transaction, receiver and amount and no transaction changes: nothing is paid twice |
| `GatherTheorems.GatherKeepsInv` | crates/erc20_payment_lib/src/sender/batching.rs:50-612 | Every gather, failed or not, keeps the ledger invariant: each transaction is built from rows of one four-part key that agree with it, closes a deposit exactly when one of them asks, never overpays, and links only ever appear |
| `Orders.CommitKeepsInv` | crates/erc20_payment_lib/src/sender/batching.rs:362-375 | Inserting a transaction and linking exactly its rows in one database transaction keeps the ledger invariant and disturbs no older transaction |
| `Orders.OwedByAddress` | crates/erc20_payment_lib/src/sender/batching.rs:252-267 | Summing group by group owes each address what its rows owe, even when one address is spelt in two ways |
| `Chunks.BatchLinkage` | crates/erc20_payment_lib/src/sender/batching.rs:248-252 | Transaction number k of a batch, whether the batch fails later or not, is built from the k-th chunk of 1 to max receivers, and the rows linked to it are exactly the rows of that chunk |
| `Chunks.BatchCount` | crates/erc20_payment_lib/src/sender/batching.rs:248-252 | A batch inserts as many transactions as there are chunks before the first that cannot be encoded, and fails exactly when a chunk is left |
| `Chunks.OkChunksIff` | crates/erc20_payment_lib/src/sender/batching.rs:252-376 | The committed chunks are exactly those before the first that cannot be encoded |
| `Chunks.LaterUntouched` | crates/erc20_payment_lib/src/sender/batching.rs:252-376 | The rows of chunks that are not committed are left as they were |
| `Chunks.SizeAroundIs` | crates/erc20_payment_lib/src/sender/batching.rs:248-250 | The chunk around the i-th of g receivers holds max of them, or what is left of g at the end |
| `Chunks.ChunkCountIsCeiling` | crates/erc20_payment_lib/src/sender/batching.rs:248-250 | The number of chunks is g divided by max, rounded up |
| `Chunks.BatchKeepsInv` | crates/erc20_payment_lib/src/sender/batching.rs:252-376 | A batch that stops at any chunk still leaves a correct ledger |
| `Chunks.BatchFacts` | crates/erc20_payment_lib/src/sender/batching.rs:367-375 | A batch touches only its rows, splits no group, and its in-memory copies agree with the table, so writing them back after a failure loses nothing |
| `PostFacts.PassFacts` | crates/erc20_payment_lib/src/sender/batching.rs:483-565 | The pass over the sorted groups fails on no group of the first stage and loses none of them |
| `PostFacts.BatchesOldestFirst` | crates/erc20_payment_lib/src/sender/batching.rs:467-478 | Every batch gets its groups by smallest row id, whatever order the hash map had |
| `MultiFacts.MultiRunFacts` | crates/erc20_payment_lib/src/sender/batching.rs:566-608 | For any order of the four-part keys every collected row ends linked or marked, and every batch touches only its own rows |
| `GatherFacts.PreFacts` | crates/erc20_payment_lib/src/sender/batching.rs:63-169 | The first stage settles or groups every pending row, each group holding current copies of unlinked rows of one key |
| `GatherFacts.PendingIff` | crates/erc20_payment_lib_common/src/db/ops/token_transfer_ops.rs:236-255 | The selection is exactly the rows of the account and chain that have neither a transaction nor an error |
| `GatherFacts.RejectedWhy` | crates/erc20_payment_lib/src/sender/batching.rs:63-152 | A row is rejected if and only if its sender or, unless it is a close marker, its receiver is unreadable or zero, and the text says which |
| `GatherFacts.PendingComplete` | crates/erc20_payment_lib/src/sender/batching.rs:59-61 | No pending row of the account is missed by the selection |
| `Engine.Database.GatherTransfers` | crates/erc20_payment_lib/src/sender/batching.rs:459-612 | One whole round on the tables, updated in place, is a gather in the sense of the theorems above; in an error it stops where the original stops |
| `Engine.Database.GatherPre` | crates/erc20_payment_lib/src/sender/batching.rs:50-171 | The loop over pending rows computes the first stage's tables and groups |
| `Engine.Database.GatherBatch` | crates/erc20_payment_lib/src/sender/batching.rs:384-457 | Either one transaction is inserted and all rows linked, or nothing changes |
| `Engine.Database.GatherChunk` | crates/erc20_payment_lib/src/sender/batching.rs:252-376 | A chunk is inserted and linked together, or nothing changes |
| `Engine.Database.GatherBatchMulti` | crates/erc20_payment_lib/src/sender/batching.rs:173-382 | The loop over chunks computes the batch: tables, in-memory rows and first error |
| `Engine.Database.ChunkBatch` | crates/erc20_payment_lib/src/sender/batching.rs:253-267 | The summing loops find receivers, sums and the finish flag of a chunk, or fail on an unreadable amount |
| `Engine.Database.MultiGroups` | crates/erc20_payment_lib/src/sender/batching.rs:566-608 | The loop over the multi key map visits every key once, in some order, and stops only for a missing allowance |
| `Engine.Database.SortedGroups` | crates/erc20_payment_lib/src/sender/batching.rs:483-565 | The loop over the sorted groups commits native groups and collects token groups |
| `Engine.SortGroups` | crates/erc20_payment_lib/src/sender/batching.rs:467-478 | The ordered map yields every group exactly once by smallest id: none is lost because ids are unique |
| `Engine.IndexGroups` | crates/erc20_payment_lib/src/sender/batching.rs:469-478 | Filling the ordered map overwrites no entry |
| `Engine.SumAmounts` | crates/erc20_payment_lib/src/sender/batching.rs:391-394 | The sum of a group's amounts, or a failure if and only if one does not parse |
| `Contracts.EncodeChunkCarries` | crates/erc20_payment_lib/src/sender/batching.rs:269-361 | Whichever encoding is chosen, the transaction carries exactly the chunk's receivers and sums, with the right sender, chain, token and deposit, and closes the deposit exactly when asked |
| `Contracts.EncodesIff` | crates/erc20_payment_lib/src/sender/batching.rs:269-361 | Encoding succeeds if and only if the payer is readable, what the branch needs (deposit id and lock contract, token, or multi contract) is there and readable, and no packed amount exceeds 2^96 |
| `Contracts.EncodingTarget` | crates/erc20_payment_lib/src/sender/batching.rs:269-361 | Settings, deposit and chunk size decide contract and method: a payment from a deposit calls the configured lock contract, a single one the token where that is wanted, any other the configured multi contract, directly if and only if the direct method is set and packed if and only if the unpacked one is not |
| `Targets.NewTransactionsAimed` | crates/erc20_payment_lib/src/sender/batching.rs:329-352 | Every transaction a gather inserts, however it ends and whatever requests come between its stages, is for a configured chain and calls the lock or multi contract configured there, with the methods the settings name |
| `Targets.GatherAimed` | crates/erc20_payment_lib/src/sender/batching.rs:97-119 | The same for an undisturbed gather, close markers included |
| `Contracts.EncodingPacks` | crates/erc20_payment_lib/src/sender/batching.rs:269-361 | Settings, deposit and chunk size alone decide whether the encoding is packed |
| `Contracts.CarriedBatchIsPaid` | crates/erc20_payment_lib/src/transaction.rs:192-328 | A transaction pays exactly the batch it carries if and only if it is not packed with the amount 2^96; it never pays more |
| `Contracts.PackedPays` | crates/erc20_payment_lib/src/transaction.rs:243-328 | Decoded words pay the packed batch, receiver by receiver, exactly when no amount is 2^96 |
| `Bytes.PackRoundTrip` | crates/erc20_payment_lib/src/multi.rs:10-31 | An accepted batch decodes to itself in order with the announced sum if and only if no amount is 2^96 |
| `Bytes.PackAccepts` | crates/erc20_payment_lib/src/multi.rs:13-18 | Packing refuses exactly the amounts above 2^96, so 2^96 is accepted |
| `Bytes.UnpackPackWord` | crates/erc20_payment_lib/src/multi.rs:24-27 | A word decodes to its receiver and its amount modulo 2^96 |
| `Bytes.UnpackedBatch` | crates/erc20_payment_lib/src/multi.rs:20-29 | An accepted batch decodes to itself with every 2^96 read as 0 |
| `Bytes.PackTransfers` | crates/erc20_payment_lib/src/multi.rs:6-32 | The two loops over lists and buffers compute the packing that the round trip is about |
| `Bytes.DepositIdFromNonce` | crates/erc20_payment_lib/src/eth.rs:91-96 | The id is funder * 2^96 + nonce |
| `Bytes.NonceFromDepositId` | crates/erc20_payment_lib/src/eth.rs:98-102 | Decoding takes the id modulo 2^64 |
| `Bytes.DepositIdRoundTrip` | crates/erc20_payment_lib/src/eth.rs:91-102 | Decoding the id of a funder and nonce gives the nonce back |
| `Bytes.DepositIdInjective` | crates/erc20_payment_lib/src/eth.rs:91-96 | Two pairs of funder and nonce have the same id only if they are equal |
| `Bytes.FunderOfDeposit` | crates/erc20_payment_lib/src/eth.rs:91-96 | The lock contract reads the funder back from the id the engine builds |
| `Text.ReadableAddress` | crates/erc20_payment_lib/src/sender/batching.rs:64-64 | A text names an address if and only if it is 40 hexadecimal digits, with or without 0x |
| `Text.ReadableU256` | crates/erc20_payment_lib/src/sender/batching.rs:95-96 | A text is a deposit id if and only if it is at most 64 hexadecimal digits, with or without 0x |
| `Text.AddressRoundTrip` | crates/erc20_payment_lib/src/runtime.rs:1223-1224 | A printed address parses back to itself |
| `Text.U256RoundTrip` | crates/erc20_payment_lib/src/runtime.rs:1184-1228 | A printed deposit id parses back to itself |
| `Deposits.AtMostOneClosing` | crates/erc20_payment_lib/src/runtime.rs:1181-1239 | Over every run of inserts, close requests and gathers, also with requests granted between the stages of a gather, a deposit has at most one closing transaction, and a deposit transaction closes exactly when one of its rows asks for it |
| `Deposits.RunKeepsInvs` | crates/erc20_payment_lib/src/runtime.rs:1181-1239 | In every reachable state, also with requests between the stages of a gather, the ledger invariant holds and each (chain, deposit) has at most one row with deposit_finish > 0 |
| `Deposits.RequestStays` | crates/erc20_payment_lib/src/runtime.rs:1189-1196 | A close request standing between two steps of a run stays for the rest of it, also through gathers split by requests, and blocks every further one |
| `Deposits.RequestedBlocks` | crates/erc20_payment_lib/src/runtime.rs:1189-1196 | A requested deposit refuses any further close request |
| `Deposits.GrantedIff` | crates/erc20_payment_lib/src/runtime.rs:1163-1196 | A close request is granted if and only if the check is skipped or the deposit is not empty and the caller its spender, and no row of the deposit has deposit_finish > 0 |
| `Deposits.RefusedWhy` | crates/erc20_payment_lib/src/runtime.rs:1163-1196 | A refusal names an empty deposit first, then a wrong spender, then a close that is already asked for |
| `Deposits.CloseEffect` | crates/erc20_payment_lib/src/runtime.rs:1197-1239 | A successful request flags exactly the unsent transfer of the deposit with the highest id, or adds one marker when all are sent, and changes nothing else |
| `Deposits.CandidateIsLast` | crates/erc20_payment_lib/src/runtime.rs:1197-1210 | The loop's candidate is the unsent row with the highest id; there is none only if all are sent |
| `Deposits.AcceptedIsRequested` | crates/erc20_payment_lib/src/runtime.rs:1212-1239 | After a successful call the deposit is requested |
| `Deposits.InsertedIff` | crates/erc20_payment_lib_common/src/db/ops/token_transfer_ops.rs:62-104 | A transfer is refused if and only if it spells as printed a deposit of its chain that is being closed, and otherwise becomes the last row |
| `Deposits.RefusedIffCanonical` | crates/erc20_payment_lib_common/src/db/ops/token_transfer_ops.rs:62-104 | While a deposit is closing, a new transfer on it is refused if and only if it spells the id as printed |
| `Deposits.OtherSpellingIsAccepted` | crates/erc20_payment_lib_common/src/db/ops/token_transfer_ops.rs:18-31 | The check compares texts: a closing deposit 10 still accepts 0x0a |
| `Deposits.MarkerCloses` | crates/erc20_payment_lib/src/sender/batching.rs:85-136 | The marker of a deposit with nothing left to send is a request for its token, and becomes a call of the configured lock contract that only closes the deposit |
| `Closings.NeverClosed` | crates/erc20_payment_lib/src/runtime.rs:1189-1239 | Over every run, failing gathers and gathers split by requests included: once a deposit's flagged row cannot close it (it has an error, an unreadable address, or pays in the chain's own currency) or is paid outside it, the deposit is never closed, and every further request is refused |
| `Closings.RequestThenGather` | crates/erc20_payment_lib/src/runtime.rs:1197-1239 | After a granted request and an error-free gather of the flagged row's account and chain, a closing transaction exists if and only if the flagged row had no error, names a payer, and is the marker or a token payment to somebody in a committed chunk; otherwise the deposit is dead in the sense of NeverClosed, and it is dead at once if the row cannot close it |
| `Closings.OthersStay` | crates/erc20_payment_lib/src/sender/batching.rs:50-612 | No gather, failing ones included, touches a row that has a transaction or an error, or is of another account or chain |
| `Closings.RowAfterGather` | crates/erc20_payment_lib/src/sender/batching.rs:50-171 | After any gather, failing ones included, a row that was not pending is unchanged, and a row newly linked is a close marker or a payment between accounts |
| `Witnesses.DepositIsBlocked` | crates/erc20_payment_lib/src/runtime.rs:1197-1210 | A run in which a granted request flags a payment in the chain's own currency, which is then made outside the deposit: the deposit is never closed |
| `Interleaved.RequestBetweenStages` | crates/erc20_payment_lib/src/sender/batching.rs:367-375 | A request granted between the two stages of an error-free gather survives if and only if the flagged row is not one the first stage has copied and the second writes back |
| `Interleaved.SecondStageOver` | crates/erc20_payment_lib/src/sender/batching.rs:449-454 | The second stage over a table changed in between inserts the same transactions and fails for the same groups and batches; a row it writes back ends as undisturbed, any other stays as it was found |
| `Overlays.Undisturbed` | crates/erc20_payment_lib/src/sender/batching.rs:436-608 | The same for every gather, failing ones included: the table it leaves is that of the undisturbed gather on the rows written, and the changed table elsewhere |
| `Witnesses.RequestIsLost` | crates/erc20_payment_lib/src/runtime.rs:1181-1239 | A run with a request granted between the stages of a gather, after which nobody is asking to close the deposit |
| `Engine.Database.CloseDeposit` | crates/erc20_payment_lib/src/runtime.rs:1179-1245 | The method on the tables, loops included, grants or refuses as specified; a refusal changes nothing |
| `Engine.Database.InsertTransferChecked` | crates/erc20_payment_lib_common/src/db/ops/token_transfer_ops.rs:62-104 | Inserting with the deposit check either appends the row or changes nothing |
| `Receipts.FindPayments` | crates/erc20_payment_lib/src/transaction.rs:956-1072 | The two loops compute the declared meaning of a receipt: an error exactly for two funders, else a failure exactly for a payout without a funder, else all payments; the other three errors cannot happen |
| `Receipts.PaidInTwice` | crates/erc20_payment_lib/src/transaction.rs:980-1012 | A funder may pay in more than once: the payouts are still its own |
| `Receipts.TwoFundersFail` | crates/erc20_payment_lib/src/transaction.rs:980-1012 | Two different funders are an error |
| `Receipts.FindFunder` | crates/erc20_payment_lib/src/transaction.rs:970-1012 | The first loop fails only for two different funders and otherwise finds the one there is |
| `Receipts.SecondPassStep` | crates/erc20_payment_lib/src/transaction.rs:1014-1070 | With the funder recorded, the different-token and missing-funder errors are unreachable |
| `Receipts.ReceiptConserves` | crates/erc20_payment_lib/src/transaction.rs:956-1070 | The payments found add up to the value plus all token logs not going to the called contract |
| `Receipts.OtherLogsDoNotMatter` | crates/erc20_payment_lib/src/transaction.rs:975-979 | Logs of other contracts or events never change the outcome, wherever they stand |
| `Receipts.DirectRoundTrip` | crates/erc20_payment_lib/src/transaction.rs:1057-1067 | The direct log form of a batch reads back as the batch if and only if the contract is not a receiver |
| `Receipts.IndirectRoundTrip` | crates/erc20_payment_lib/src/transaction.rs:1026-1052 | The indirect log form reads back as the same batch if and only if the contract is not a receiver |
| `Receipts.BatchReadsBack` | crates/erc20_payment_lib/src/transaction.rs:287-328 | Whichever multi method was chosen, the receipt reads back as the transaction's payouts with the sender as payer |
| `Receipts.DepositReceipt` | crates/erc20_payment_lib/src/transaction.rs:1026-1032 | The receipt of a deposit transaction is a failure if and only if the lock contract transfers anything, refund and fee included, and nothing to itself |
| `Receipts.VerifyTransaction` | crates/erc20_payment_lib/src/runtime.rs:1448-1504 | Only a confirmed transaction verifies, with an amount that is enough and that its receipt shows the sender to have paid the receiver: as the value of the sender's own transaction, or as a token log whose payer, funder or transaction sender it is; any other status of a readable receipt is not found, and no match is reported if and only if nothing of the kind is shown |
| `Receipts.MatchesAreShown` | crates/erc20_payment_lib/src/runtime.rs:1474-1476 | The payments that match are exactly what the logs and the value show the sender to have paid the receiver |
| `Receipts.JudgeMeaning` | crates/erc20_payment_lib/src/runtime.rs:1467-1498 | Verified names the first matching payment with its amount and only if that is enough; no match is reported if and only if there is none |
| `Receipts.BatchedPaymentVerifies` | crates/erc20_payment_lib/src/runtime.rs:1448-1504 | Every first payment to a receiver of a confirmed multi transaction verifies with exactly its amount |
| `EndToEnd.ReceiptMatchesRows` | crates/erc20_payment_lib/src/transaction.rs:956-1072 | From queue to chain and back: in every reachable ledger the receipt of a transaction that is not a deposit transaction reads back, receiver by receiver, as exactly what the rows linked to it owe, paid by its sender |
| `EndToEnd.DepositReceiptFails` | crates/erc20_payment_lib/src/transaction.rs:1026-1032 | In every reachable ledger, unless the lock contract itself is paid, the receipt of every closing transaction is a failure, and that of any other deposit transaction exactly when it pays anybody |
| `Scanner.Coverage` | src/actions/scan_chain.rs:86-184 | After any readings, failures and errors, every block from start_block to last_block lies in a range whose logs the node has fetched after giving the current block |
| `Scanner.FailureChangesNothing` | src/actions/scan_chain.rs:81-85 | Without a reading of the current block, or when the logs cannot be fetched, nothing is recorded |
| `Scanner.StepInNumbers` | src/actions/scan_chain.rs:86-174 | With the default from_block 1 and 100 blocks behind: from where a step goes on, where it ends, and when it waits |
| `Scanner.BackwardStep` | src/actions/scan_chain.rs:105-120 | A step backward ends at the first block less blocks_at_once, but not before block 1 |
| `Scanner.StepExtends` | src/actions/scan_chain.rs:156-174 | A step adds nothing to the interval beyond the range it scanned |
| `Scanner.ChosenRange` | crates/erc20_payment_lib/src/transaction.rs:1143-1154 | After any run, every chosen range is ordered and small enough for the import; it is refused for a negative block exactly in normal mode before block 100 |
| `Scanner.NormalProgress` | src/actions/scan_chain.rs:122-136 | Under steady readings n steps take last_block exactly n * (blocks_at_once - 100) further, capped at current_block - blocks_behind, where it stays |
| `Scanner.ProgressIff` | src/actions/scan_chain.rs:160-165 | A steady step gains ground if and only if blocks_at_once exceeds 100 and the target is not reached, and loses ground if and only if it is below 100 |
| `Scanner.StuckBelow100` | src/actions/scan_chain.rs:122-124 | In normal mode with last_block below 100 every scan is refused and nothing ever changes |
| `Scanner.StepBackwards` | src/actions/scan_chain.rs:160-165 | A step of 50 blocks that sets an entry back from block 200 to block 150 |
| `Scanner.NewScanReaches` | src/actions/scan_chain.rs:86-120 | A new scan starts at block 0, never looks backward, and reaches normal mode only if from_block is 0 |
| `Scanner.CatchUpClimb` | src/actions/scan_chain.rs:90-104 | In catch-up mode n steady steps take last_block exactly n * (blocks_at_once + 1) further, capped at current_block - blocks_behind, as long as the buffer lies ahead |
| `Scanner.CatchUpRests` | src/actions/scan_chain.rs:90-120 | Once the target is reached or closer than the buffer, steady steps change nothing |
| `Scanner.FirstScanDecides` | src/actions/scan_chain.rs:122-136 | With from_block 0 the first scan decides everything: normal mode follows, and it is stuck for ever if and only if that scan ends before block 100 |
| `Scanner.StuckIsReachable` | src/actions/scan_chain.rs:122-124 | A scanner that is stuck after one scan from a new entry |
| `Scanner.ScanInfo.AutoStep` | src/actions/scan_chain.rs:72-185 | The step updates the entry in place as specified; it fails exactly when the current block or the chosen range cannot be read, and then changes nothing; it asks not to wait exactly after a backward scan |
| `Scanner.ScanInfo.AutoLoop` | src/actions/scan_chain.rs:261-287 | The loop is the repetition of the step, errors included |
| `Status.ListRefinesHistory` | crates/erc20_payment_lib/src/runtime.rs:124-217 | After every event history the list has one entry per issue, and holds a property if and only if it is the latest report of its issue since the last finished transfer on its chain |
| `Status.ReportsList` | crates/erc20_payment_lib/src/runtime.rs:229-304 | What each reporting event puts on the list after any history, payload included |
| `Status.OtherEventsList` | crates/erc20_payment_lib/src/runtime.rs:273-304 | After any history a finished transfer clears exactly its chain, and a success of the node or any other event changes nothing |
| `Status.SameIssueIff` | crates/erc20_payment_lib/src/runtime.rs:124-190 | Two properties are one issue if and only if they are of one kind and chain and, where they name an address, name the same |
| `Status.EventsAreForwarded` | crates/erc20_payment_lib/src/runtime.rs:306-338 | A listener is sent every event once and in order, except the successes of the node |
| `Status.ListenersAreUpToDate` | crates/erc20_payment_lib/src/runtime.rs:306-338 | A listener that keeps the last announced list always knows the tracker's list |
| `Status.SilenceMeansUnchanged` | crates/erc20_payment_lib/src/runtime.rs:119-217 | A false return means the list is unchanged |
| `Status.ReportWithoutChange` | crates/erc20_payment_lib/src/runtime.rs:119-194 | After any history, true is returned for an unchanged list if and only if the event repeats a standing amount or error text word for word |
| `Status.RepeatIsAnnounced` | crates/erc20_payment_lib/src/runtime.rs:119-194 | The second report of one error text returns true and leaves the list as it was |
| `Status.PutFacts` | crates/erc20_payment_lib/src/runtime.rs:124-194 | An update keeps every other entry and one entry per issue |
| `Status.StatusTracker.Update` | crates/erc20_payment_lib/src/runtime.rs:124-194 | The loop replaces the entry of the issue in place or appends it, and returns false only for a listed issue without payload |
| `Status.StatusTracker.ClearIssues` | crates/erc20_payment_lib/src/runtime.rs:200-217 | Exactly the entries of the chain go, the order of the rest stays, and the result says whether there were any |
| `Status.StatusTracker.HandleEvent` | crates/erc20_payment_lib/src/runtime.rs:229-336 | One event changes the list and what listeners are sent as specified |
| `Status.StatusTracker.Listen` | crates/erc20_payment_lib/src/runtime.rs:228-340 | The event loop reaches the list and the messages of the whole history |
| `Fees.HandOut` | crates/erc20_payment_lib/src/service.rs:202-219 | The two loops hand out a fair division of the fee: it adds up, shares differ by at most one and never grow; the branch that panics is unreachable and no subtraction underflows |
| `Fees.FairIsUnique` | crates/erc20_payment_lib/src/service.rs:202-219 | There is only one fair division of a fee over a list of transfers |
| `Fees.DistributeFee` | crates/erc20_payment_lib/src/service.rs:193-227 | Every transfer is stored with its share as text that reads back, unchanged otherwise; it fails only for an unreadable fee |
| `DecimalText.U256ToDecimalString` | crates/erc20_payment_lib_common/src/utils.rs:265-308 | The pushes, insertion, trims and pops produce the text the following lemmas are about |
| `DecimalText.ShownExactly` | crates/erc20_payment_lib_common/src/utils.rs:265-308 | Without precision the text denotes exactly amount / 10^d |
| `DecimalText.ShownRoundedDown` | crates/erc20_payment_lib_common/src/utils.rs:292-303 | With precision p, capped at d, the text has exactly that many fractional digits and denotes the amount rounded down to them |
| `DecimalText.ShownTidily` | crates/erc20_payment_lib_common/src/utils.rs:281-306 | No redundant leading zero, no trailing dot, and without precision no trailing zero after the dot |
| `DecimalText.ShownIsInjective` | crates/erc20_payment_lib_common/src/utils.rs:265-308 | Without precision different amounts print differently |
| `DecimalText.ShownAlikeIff` | crates/erc20_payment_lib_common/src/utils.rs:292-303 | With precision exactly the amounts that agree after rounding print alike |
| `Decimals.StrictIsExact` | crates/erc20_payment_lib_common/src/utils.rs:61-92 | Strict conversion succeeds if and only if there are at most 18 decimals and value * 10^d is an integer in [0, 2^96), and returns it |
| `Decimals.AmountRoundTrip` | crates/erc20_payment_lib_common/src/utils.rs:145-168 | Every amount below 2^96 survives conversion to a decimal and back, whichever representation the division yields |
| `Decimals.DecimalRoundTrip` | crates/erc20_payment_lib_common/src/utils.rs:61-92 | Whatever strict conversion accepts converts back to the same value |
| `Decimals.LenientSaturates` | crates/erc20_payment_lib_common/src/utils.rs:103-143 | Lenient conversion is min(floor(value * 10^d), 2^96 - 1), and 0 for negative values |
| `Decimals.LenientAgreesWithStrict` | crates/erc20_payment_lib_common/src/utils.rs:103-143 | Where strict conversion succeeds, lenient conversion agrees |
| `Decimals.CheckedMulExact` | crates/erc20_payment_lib_common/src/utils.rs:76-78 | Multiplying by a power of ten is exact when it succeeds and fails only for a product of at least 2^96 |
| `Decimals.NormalizeKeepsValue` | crates/erc20_payment_lib_common/src/utils.rs:81-81 | Normalising keeps the value and leaves no negative zero |
| `Decimals.DivisionIffStrict` | crates/erc20_payment_lib_common/src/utils.rs:145-168 | An amount can be turned into a decimal if and only if it is what strict conversion makes of some decimal |
| `CallHistory.RunIsWindow` | crates/web3_test_proxy/src/main.rs:436-463 | Whatever calls, removals and late answers happen, a key holds exactly the last min(n, q) calls of its unbounded log, numbered by their position in it |
| `CallHistory.PushIsWindow` | crates/web3_test_proxy/src/main.rs:456-462 | Recording in the bounded queue is recording in the unbounded log |
| `CallHistory.Proxy.GetCall` | crates/web3_test_proxy/src/main.rs:590-620 | The constant-time lookup answers as the unbounded log would: call i if and only if it is still held, else the right one of deleted, not yet, no calls and no key |
| `CallHistory.Proxy.GetCalls` | crates/web3_test_proxy/src/main.rs:216-232 | The newest calls first, never more than asked for or held |
| `CallHistory.Proxy.CompleteCall` | crates/web3_test_proxy/src/main.rs:436-463 | A completed call is appended in place and the oldest dropped; an answer for a removed key changes nothing |
| `ProblemPlan.OrderDoesNotMatter` | crates/web3_test_proxy/src/plan.rs:38-74 | Rearranged plans are accepted alike, and an accepted plan leaves every key with the same settings after any number of frames, with or without a cycle |
| `ProblemPlan.OrderDoesNotMatterAmid` | crates/web3_test_proxy/src/main.rs:493-548 | The order of entries does not matter either when requests set problems, create keys and remove keys between the rounds |
| `ProblemPlan.PlanRunner.Rounds` | crates/web3_test_proxy/src/main.rs:654-709 | The frame loop, with requests changing settings between its rounds, reaches exactly the specified settings |
| `ProblemPlan.RoundMeans` | crates/web3_test_proxy/src/main.rs:676-703 | In the round of a frame an accepted plan gives a key the values of the one entry that lists frame and key, starting from the defaults if the key is new, and leaves all other keys |
| `ProblemPlan.DefaultsAreHarmless` | crates/web3_test_proxy/src/problems.rs:31-45 | A new key simulates no problem and only takes single calls it can parse |
| `ProblemPlan.CycleRepeats` | crates/web3_test_proxy/src/main.rs:656-665 | A cycle of c frames runs through frames 0 to c - 1 and starts again |
| `ProblemPlan.DeliveredOnce` | crates/web3_test_proxy/src/plan.rs:78-88 | Draining frames 0 to n - 1 delivers each (entry, frame) pair with a frame below n exactly once, in frame order |
| `ProblemPlan.SortIsStable` | crates/web3_test_proxy/src/plan.rs:55-57 | Sorting rearranges the pairs by frame and keeps plan order within a frame |
| `ProblemPlan.SortKeepsConflicts` | crates/web3_test_proxy/src/plan.rs:58-69 | Checking the sorted pairs decides conflicts of the plan as written |
| `ProblemPlan.CheckForConflict` | crates/web3_test_proxy/src/plan.rs:58-69 | The loops reject if and only if some key is changed twice in one frame, also within one entry |
| `ProblemPlan.FromProblemProject` | crates/web3_test_proxy/src/plan.rs:38-75 | The plan is accepted if and only if it has no conflict, and then it is the sorted list of pairs |
| `ProblemPlan.EntriesApply` | crates/web3_test_proxy/src/main.rs:682-703 | A list of entries changes a key by exactly the changes made to it, starting from the defaults when the key is new |
| `ProblemPlan.PlanRunner.Tick` | crates/web3_test_proxy/src/main.rs:656-708 | One round applies exactly the entries of its frame, each once, and restarts after the last frame of a cycle |
| `ProblemPlan.PlanRunner.Ticks` | crates/web3_test_proxy/src/main.rs:654-709 | After n rounds the settings are those of frames 0 to n - 1, counted anew in each cycle |
| `ProblemPlan.PlanRunner.GetNextEntry` | crates/web3_test_proxy/src/plan.rs:78-88 | The next entry is delivered if and only if its frame has come |
| `ProblemPlan.EndpointSimulateProblems.ApplyChange` | crates/web3_test_proxy/src/problems.rs:48-81 | Every field given is overwritten and every other field stays |
| `ImageNames.FromStrName` | crates/erc20_payment_lib_test/src/blockchain_setup.rs:43-127 | Parsing succeeds exactly on well-formed names; each error names a defect the text really has, and the reported position is that of the first bad character |
| `ImageNames.NormalizedParsesBack` | crates/erc20_payment_lib_test/src/blockchain_setup.rs:31-127 | If a name parses, its normalised print parses to the same user, repository and tag |
| `ImageNames.NormalizingIsIdempotent` | crates/erc20_payment_lib_test/src/blockchain_setup.rs:31-42 | Normalising only appends the default tag, exactly when there is none, and normalising twice changes nothing more |
| `ImageNames.SameNormalFormIff` | crates/erc20_payment_lib_test/src/blockchain_setup.rs:31-42 | Two names have the same normal form if and only if they are the same image |

## Left out

- SQLite itself: statements become updates of two sequences, a committed database transaction one update, and errors
  of the database do not happen.
- Runs.LinksAreFinal: does not model replacing or removing a transaction, which moves or clears links
  (crates/erc20_payment_lib/src/sender/process.rs:493 and crates/erc20_payment_lib/src/runtime.rs:1523 and 1550),
  because neither is part of inserting, closing and gathering.
- Closings.NeverClosed: does not model replacing or removing a transaction either, for the same reason.
- Concurrency: a close request, an insert and each of the two stages of a gather are one step; requests that come in the
  middle of a stage are not modelled.
- RPC calls, signing, hashing and ABI encoding: a transaction is its method with structured arguments, except for the
  packed words, which are bytes.
- Transactions of other kinds, such as approvals, deposit creation and faucet calls, are not part of the ledger; they
  link no transfers.
- The token of a multi payment is not an argument of the call: the multi contract is deployed for one token.
- What the lock contract keeps for each deposit: what is left of its funds and fee when it is closed is a parameter of
  the receipt. Its limits on amounts, and whether a transaction is ever confirmed, are not modelled.
- `inserted_tx_count`: some groups are counted twice and no value is claimed.
- The token branch of `gather_transactions_batch` is never reached, because token groups always go the multi way.
- Raw topics and data of logs: a log is already decoded into addresses and an amount, or is of another kind.
- The fields of a chain transaction that have nothing to do with transfers (gas, block numbers, method).
- The search for logs on the node and the single scan without `auto`; only range checks and the auto loop are modelled.
- Rejoining after a restart: `Scanner.Coverage` starts from a new scan entry.
- Liveness of deposit closing, and sleeping, retrying and logging everywhere.
- Amounts in status properties are real numbers, so the overflow of a decimal subtraction is not modelled.
- Several listeners of the status tracker: all are sent the same messages, so one list of messages stands for each; a
  failing send is not modelled.
- The division and multiplication of decimals are taken as exact where the exact result fits in 96 bits; their
  rounding elsewhere is not needed by the conversions.
- Problem settings inside the frame loop are values in a map; aliasing of a key's settings does not arise.
- Dates, response bodies and statuses of proxied calls: a recorded call is its number and its request.
- `process_allowance`, statistics, configuration parsing, the frontend and command line options: only branch-level
  claims could be made about them.
