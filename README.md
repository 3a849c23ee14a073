# Ethereum wallet engine: a Dafny model

This project models the orchestration core of the wallet's Ethereum engine,
`EthEngine` in `src/eth/eth-engine.ts`, and proves properties of it. It covers four
parts:

- **Payability lookup** (`isMethodPayable`), module `Abi` in `abi.dfy`. A first-match
  search by name over an ordered ABI. It is given both as a recursive specification
  (`FirstNamed`, `Payable`) and as the source's early-return loop (`IsMethodPayable`).
- **Block-range scanner** (`scanBlockRange` with its inner functions
  `scanTransactionCallback`, `scanBlockCallback`, `asyncScanNextBlock` and `exitThread`),
  module `BlockScan` in `blockscan.dfy`.
  - The closure's state is a class `Scan`. Its fields are `blockNumber`, `gotError`,
    `numThreads` and `results`, plus records of what the scan has done: the block numbers
    requested, the blocks that wrote a progress line, and the `gotError` values passed to
    the completion callback.
  - Each step is a method: `Launch` (the start-up loop), `NextBlock`, `ExitThread` and
    `FetchCompleted`.
  - The node's replies are arguments, and the caller chooses the order in which they
    arrive. This is how the cooperative, single-threaded concurrency is modelled.
  - A ghost table records where each slot is: running, waiting for a block, stopped by a
    failed fetch, or exited. The class invariant `Valid` ties the fields to this table.
- **Ether transfers** (`sendAllEther`, `sendEther`), module `Transfer` in `transfer.dfy`.
  - `sendAllEther` is straight-line arithmetic on wei.
  - `sendEther`'s recursive retry is a loop over the rounds it meets. It returns how the
    call ends and every transaction it handed to `sendTransaction`, with its multiplier.
  - Gas multipliers are counted in tenths.
- **Contract calls** (`callFunction` and the `EthConfirmation` levels 0, 1 and 2),
  module `CallPipeline` in `callpipeline.dfy`.
  - The caller's `generalParams` is a class that the method updates in place.
  - The method returns the external calls in the order they are made, and how the
    returned promise ends.
  - The function `Resolve` states the same result as a value, and the lemmas are about
    `Resolve`. The part from building the method call on is a method `CallMethod` of its
    own, specified by `ResolveMethod`.

External reads are inputs, and a read that fails is `None`. What a failure does depends
on the read:
- In the transfers and in `callFunction`, a failed read of the balance, the gas price, a
  gas estimate, the bytecode or the nonce rejects the call.
- In the scanner, a failed chain-height read rejects nothing: the promise is left
  unsettled (`HeightUnavailable`).
- A failed `getBlock` rejects nothing either. It sets `gotError` and stalls its slot
  (`Scan.FetchCompleted` with reply `None`).

`wrappers.dfy` holds the shared `Option` and `Address` types.

The quirks of the source are kept as written:
- A start block after the stop block leaves the promise unsettled.
- Block 0 given as a bound counts as missing.
- The first slot to exit resolves the promise.
- A slot whose fetch fails never exits, so the completion callback never comes after an
  error.
- The confirmation `switch` has no default.
- The `sendEther` retry guard tests only the increment.
- A `view` or `pure` method counts as payable.
- Without a given ABI and address, a missing engine ABI configuration or bytecode holder
  makes `callFunction` reject.

Three of these behaviours decide how the scan and the retry end, and the model keeps
them as the code has them:
- **When the scan resolves.** The promise resolves at the first `exitThread`, not when
  `numThreads` reaches 0 (src/eth/eth-engine.ts:322; `Scan.ExitThread`,
  `Scan.ErrorKeepsScanOpen`).
- **Slots after an error.** The slot whose fetch failed only sets `gotError` and never
  calls `exitThread` (src/eth/eth-engine.ts:361-364; `Scan.Quiescent`).
- **The retry bound.** The retry guard tests only the increment, although the comment
  at src/eth/eth-engine.ts:107 says "Not more than 5x multiplier" (see Findings).

## Model

| member | source | states |
|---|---|---|
| Abi.FirstNamed | src/eth/eth-engine.ts:233-236 | the index found is a descriptor with the queried name and no earlier descriptor has it; none is found exactly when no descriptor has the name |
| Abi.IsMethodPayable | src/eth/eth-engine.ts:232-239 | the loop returns true iff the first descriptor with the name has a `stateMutability` other than "nonpayable", and false when no descriptor has the name |
| Abi.FirstNamedUnique | src/eth/eth-engine.ts:233-236 | the first descriptor with the name is the one the search stops at |
| Abi.AbsentNameNotPayable | src/eth/eth-engine.ts:238 | a name absent from the ABI is not payable |
| Abi.FirstMatchWins | src/eth/eth-engine.ts:233-236 | descriptors after the first match (such as a second overload) never change the verdict |
| Abi.OtherNamesIgnored | src/eth/eth-engine.ts:233-234 | descriptors with other names in front do not change the verdict |
| Abi.ReadOnlyMethodsArePayable | src/eth/eth-engine.ts:235 | the verdict is payable iff the first match's `stateMutability` is not exactly "nonpayable"; so a `view` or `pure` method, or one without `stateMutability`, is classified payable |
| BlockScan.ResolveRange | src/eth/eth-engine.ts:257-271 | the setup fails for lack of a height exactly when the stop is falsy and the height read fails; the stop is the given one or the chain height; the start is the given one or stop − 10; the range is accepted iff start ≤ stop |
| BlockScan.HeightReadOnlyWhenStopFalsy | src/eth/eth-engine.ts:257-259 | with a truthy stop, the chain height has no influence |
| BlockScan.ZeroIsMissing | src/eth/eth-engine.ts:257-262 | block 0 as start or stop behaves exactly like a missing argument |
| BlockScan.Classify | src/eth/eth-engine.ts:284-303 | at most one entry; an entry exactly when the transaction is to or from the observed account; a credit exactly when it is to the account, carrying the sender; otherwise a debit carrying the recipient; timestamp and amount carried over |
| BlockScan.SelfTransferIsCredit | src/eth/eth-engine.ts:289-296 | a self-transfer is recorded once, as a credit |
| BlockScan.Matches | src/eth/eth-engine.ts:326-333 | a block adds at most one entry per transaction |
| BlockScan.MatchesAppend | src/eth/eth-engine.ts:328-331 | scanning two transaction lists in turn adds the entries of their concatenation, in order |
| BlockScan.MatchesSound | src/eth/eth-engine.ts:289-302 | every entry comes from a transaction of the block that credits or debits the observed account, with its amount and counterparty |
| BlockScan.MatchesComplete | src/eth/eth-engine.ts:326-333 | the entries of a block are those of the transactions before position i, then the classification of transaction i, then those after it; so a transaction touching the observed account always leaves an entry |
| BlockScan.ReportsExactly | src/eth/eth-engine.ts:352-355 | a progress line is written for exactly the claimed blocks that are a multiple of `maxThreads` or the stop block |
| BlockScan.Scan.constructor | src/eth/eth-engine.ts:273-275 | the closure starts with the counter at the start block, no error, no slots and no results |
| BlockScan.Scan.Launch | src/eth/eth-engine.ts:372-378 | starts exactly min(maxThreads, stop − start + 1) slots, `numThreads` equals that count, and slot j waits for block start + j |
| BlockScan.Scan.NextBlock | src/eth/eth-engine.ts:335-370 | with the error flag set or the counter past stop the slot exits; otherwise it claims the counter's value, the counter goes up by one, and the claim is appended; the class invariant is kept and the work left drops by one |
| BlockScan.Scan.ExitThread | src/eth/eth-engine.ts:305-324 | `numThreads` drops by one, the promise is resolved, and the summary (with the error flag) is written exactly when `numThreads` reaches 0 |
| BlockScan.Scan.FetchCompleted | src/eth/eth-engine.ts:360-369 | a failed fetch sets the error flag and the slot neither claims nor exits; a successful one appends the block's entries and takes the slot's next step; the work left drops by one |
| BlockScan.Scan.ScanBlock | src/eth/eth-engine.ts:326-333 | results grow by exactly the block's entries, in transaction order, and a block without transactions adds nothing |
| BlockScan.Scan.ScanTransaction | src/eth/eth-engine.ts:284-303 | results grow by exactly the transaction's classification |
| BlockScan.Scan.ClaimsInRange | src/eth/eth-engine.ts:343-349 | the claimed blocks are start, start + 1, … in claim order: distinct, never past stop, and the counter is the next one |
| BlockScan.Scan.Quiescent | src/eth/eth-engine.ts:305-376 | once no fetch is outstanding: after an error `numThreads` stays positive and no summary is ever written; without one, every block of [start, stop] was claimed once and in order, every slot exited, the promise was resolved and the callback got `false` |
| BlockScan.ScanBlockRange | src/eth/eth-engine.ts:249-380 | a scan exists iff the range setup succeeds; it then uses the engine's 20 slots as `maxThreads`, has started min(20, stop − start + 1) slots with slot j waiting for block start + j, has claimed exactly those blocks, and has nothing resolved, no summary and no results; otherwise no block is fetched and no slot is started |
| BlockScan.Scan.ErrorKeepsScanOpen | src/eth/eth-engine.ts:305-324 | in every state after a failed fetch the failed slot is still in the table, `numThreads` is above 0 and no summary or completion callback has been produced |
| BlockScan.ErrorResolvesPartialResults | src/eth/eth-engine.ts:305-324 | one run started through `ScanBlockRange` over blocks 1 to 6: the fetch of block 1 fails and the slot that fetched block 2 then exits; the promise is resolved, `numThreads` is 5 and no summary was written |
| Transfer.SendAllEther | src/eth/eth-engine.ts:64-83 | the transaction exists iff all three reads succeed; its gas is the bare estimate and its price the price read; value plus fee is exactly the balance |
| Transfer.AllEtherIgnoresMultiplier | src/eth/eth-engine.ts:64 | the `gasMultiplier` argument has no effect |
| Transfer.AllEtherCanGoNegative | src/eth/eth-engine.ts:73-74 | a fee above the balance gives a negative value |
| Transfer.SendEther | src/eth/eth-engine.ts:85-113 | the loop over the rounds ends exactly as the recursive retry does and submits exactly the transactions of `Submitted` |
| Transfer.SubmittedShape | src/eth/eth-engine.ts:97-111 | the k-th submitted transaction belongs to round k, whose reads succeeded: destination and amount unchanged, the gas price read in that round, multiplier m + k·increment and gas round(estimate × that multiplier); every round before the last submission was refused and retried |
| Transfer.SubmittedMatchesOutcome | src/eth/eth-engine.ts:97-112 | an accepted run's last submission is the transaction it reports; a run that gave up submitted in each of its rounds, one whose read failed in each but the last, an unfinished one in every round |
| Transfer.CappedSubmissionsBounded | src/eth/eth-engine.ts:107-108 | with the multiplier bound the comment asks for, every submitted transaction, accepted or refused, uses a multiplier of at most 5 |
| Transfer.SkipRefused | src/eth/eth-engine.ts:105-111 | after n refused and retried rounds, the call goes on as a fresh call with the multiplier raised by n increments |
| Transfer.SentShape | src/eth/eth-engine.ts:97-111 | an accepted transaction in round k used multiplier m + (k − 1)·increment and gas round(estimate × multiplier), with the original destination and amount; every earlier round was refused and retried |
| Transfer.AsWrittenNeverGivesUp | src/eth/eth-engine.ts:108-111 | once the increment allows a retry, the call never resolves to `undefined` |
| Transfer.AsWrittenSingleAttempt | src/eth/eth-engine.ts:105-112 | without a retrying increment a refused send ends the call at once with `undefined` |
| Transfer.AsWrittenNeverStops | src/eth/eth-engine.ts:107-111 | with a retrying increment, refusals are retried however many there are |
| Transfer.UncappedMultiplier | src/eth/eth-engine.ts:107-110 | with the defaults, 31 refusals lead to a 32nd submission, accepted, with multiplier 5.1 and gas above five times the estimate |
| Transfer.CappedMultiplierBound | src/eth/eth-engine.ts:107-108 | with the multiplier bound the comment asks for, an accepted transaction never has a multiplier above 5 |
| Transfer.CappedRunEnds | src/eth/eth-engine.ts:107-110 | with that bound and a positive increment, the call ends within 51 − multiplier rounds (in tenths) |
| CallPipeline.CallFunction | src/eth/eth-engine.ts:129-203 | the calls made, how the promise ends, and `generalParams` afterwards are exactly those of the resolution order |
| CallPipeline.ResolveMethod | src/eth/eth-engine.ts:159-198 | the second half keeps the calls made before it as a prefix and never fetches code or estimates deployment gas; a dispatched call adds exactly gas price, method estimate (given the parameters written so far), nonce, then the send or call with the final parameters; whenever it does not reject, those parameters hold the method's own estimate, that estimate times the multiplier, the price read and the nonce read |
| CallPipeline.CallMethod | src/eth/eth-engine.ts:157-198 | the calls made, the outcome and `generalParams` afterwards are those of `ResolveMethod` from the parameters it started with |
| CallPipeline.MissingConfigRejects | src/eth/eth-engine.ts:146-148 | without a given ABI and address, a missing engine ABI configuration or bytecode holder rejects the call before any node call, with `generalParams` untouched |
| CallPipeline.MissingLevelIsReceipt | src/eth/eth-engine.ts:132 | a missing confirmation level behaves exactly like RECEIPT |
| CallPipeline.CodeFetchedOnlyWhenPayableAndGiven | src/eth/eth-engine.ts:137-150 | the bytecode is fetched, as the first call, iff the method is payable and both an ABI and a contract address are given |
| CallPipeline.FinalParamsFromMethodEstimate | src/eth/eth-engine.ts:159-166 | whenever the call gets past the nonce read, gas is the method's own estimate, gas limit is that estimate times the multiplier, and gas price and nonce are the values read |
| CallPipeline.NonceReadLast | src/eth/eth-engine.ts:161-197 | a dispatched call ends with gas price, method estimate, nonce, then the send or call with the final parameters |
| CallPipeline.UnmatchedLevelNeverSettles | src/eth/eth-engine.ts:170-198 | a level other than 0, 1 and 2 sends and calls nothing and the promise never settles |
| CallPipeline.ConditionalEstimateOverwritten | src/eth/eth-engine.ts:152-164 | a payable method without gas gets the conditional estimate, the method estimate is given it, and the final gas is the method estimate |
| CallPipeline.EstimateOnlyWhenNeeded | src/eth/eth-engine.ts:152-157 | a call that asks for the deployment estimate has a payable method and no caller-supplied `gas`, and asks only once; so a non-payable method or a given `gas` gets no estimate |
| CallPipeline.FailedCallKeepsEarlyWrites | src/eth/eth-engine.ts:153-159 | when building the method call fails after the conditional estimate, `generalParams` keeps that estimate and its gas limit |

## Left out

- Web3 and provider construction, `isListening`, key management (`createAccount`, `login`,
  `recoverAccountFromSeed`, `recoverAccount`): library calls with no logic of their own.
- `getBalance`, `getContractCode`, `getBlockNumber`, `getBlock`, `getGasPrice`,
  `estimateGas`, `getTransactionCount`: calls to the node. Each becomes an input that
  succeeds or fails.
- `toWei` and `fromWeiToEther`: amounts are wei throughout. A scanner entry keeps the
  amount in wei and its counterparty, not the formatted message.
- Progress and summary output: the percentage, the duration and blocks per second use
  floating point and the clock. The model records only which blocks write a progress line
  and the error flag of each summary.
- BlockScan.Scan.ExitThread: the padding of the summary line
  (src/eth/eth-engine.ts:313-314) is not modelled, so the model assumes a terminal at
  least as wide as the message; `Quiescent` assumes the same. `Array(1 + numSpaces)`
  throws a RangeError when stdout is not a terminal (`process.stdout.columns` is
  undefined) or is more than one column narrower than the message. The last
  `exitThread` then calls neither the callback nor `resolve`.
- The `callback` argument of `scanBlockRange` is assumed given. The summaries record what
  it would receive.
- Event semantics of `method.send(...).on("receipt" | "confirmation")` and of
  `method.call`: the model records only which branch is taken.
- `Common.wait` and the retry timeout: there is no time in the model.
- JavaScript floating point in the multipliers:
  - `sendEther`'s multiplier and increment are exact tenths, so the rounding of repeated
    `+ 0.1` is not modelled.
  - `callFunction`'s `gasMultiplier` is an integer.
- The contract object's method table: whether `contract.methods[name]` exists is an
  input (`methodFound`), not derived from the ABI.
- A `null` block from `getBlock` is not modelled. The node returns it for unknown blocks,
  and `scanBlockCallback` then throws inside the callback.
- An `abi` argument of `null`, and `for … in` over non-index properties of the ABI.
- Non-numeric block bounds, and a `maxThreads` of zero. The engine's value is 20, and
  `ScanBlockRange` always uses it.
- `dist/src/eth-tokens/bancor.js` and `storj.js`: configuration-only subclasses.
- BlockScan.Matches: its own contract states only the length bound. Soundness is the
  lemma `MatchesSound`; the exact place of each transaction's entry is `MatchesComplete`
  together with `MatchesAppend`.
- CallPipeline.CallFunction: the method-call arguments `params` (spread into
  `contract.methods[name](...params)`) are not modelled; they go to the contract
  library only, and no step of the call reads them.

## Findings

| source | as written | input that shows it | evidently intended | confidence | as-written member | corrected member |
|---|---|---|---|---|---|---|
| src/eth/eth-engine.ts:107-110 | the retry guard `gasIncremental !== 0 && gasIncremental < 5` tests the increment, which never changes, so the multiplier grows without bound | multiplier 2, increment 0.1, 31 refused sends then an accepted one: the send uses multiplier 5.1 (gas 51 for an estimate of 10) | retry only while `gasMultiplier + gasIncremental < 5`, as the comment "Not more than 5x multiplier" says | medium, not executed | Transfer.UncappedMultiplier | Transfer.CappedSubmissionsBounded |
