# Verified model of the TEE block builder

This project models the core of the TEE block builder in Dafny and proves what its parts promise
together. It covers four connected pieces and three smaller ones.

- **Block assembly** (`World`, `Evm`, `Executor`, `BlockReplay`, `BuildEnv`, `Trials`,
  `BundleFill`, `PoolFill`, `Builder`, `Determined`). One transaction is executed by buying gas,
  running the interpreter, paying the miner and refunding. A block is filled from bundles, then
  the sequential pool, then the price pool, then the payment to the proposer. Each attempt may
  succeed, be refused, be rolled back or stop its phase. The main result: whatever mix occurs, the environment is always
  the replay of exactly its transactions on the parent state (same state, same receipts, same
  gas), bundles are atomic, and in the finished block every wei is accounted for. Every phase
  keeps a record of what it tried with which outcome, traced back to the pools; without a
  deadline that record is determined by the pools and the parent state.
- **Sequential pool** (`TxList`, `SeqPool`). Three cross-linked indexes that refine one plain
  list of transactions.
- **Price pool and merge** (`Ordered`, `PricePool`, `PricePoolRuns`, `Merge`, `PriceHeads`). Per-sender nonce maps,
  flattened into runs of consecutive nonces and merged greedily through one head per sender.
- **Relay submitter** (`Relay`). A listener and detached submit threads, as atomic critical
  sections under every interleaving.
- **Fee market** (`FeeMarket`), **batched state fetch** (`FetchStates`), **bundle pool**
  (`BundlePool`).

## How the model is set up

- The EVM interpreter is a function value in `Evm.Context`. What is relied on is the predicate
  `Evm.Sound`: used gas is within the limit, a successful run conserves the total of all balances,
  the caller's nonce goes up by one, and an account owned by a key (`eoas`) other than the sender
  keeps its nonce and is not debited, while the sender is debited at most the value sent.
  `Evm.TransferEvmIsSound` exhibits an interpreter that satisfies it. A contract that destroys
  itself in favour of itself burns ether and is outside this contract.
- The state database is a current world and a last flushed world. A state root is the world it
  names, so `state_root` is the flushed world and `revert` returns to the world a root names.
  Adding or subtracting zero leaves the world untouched.
- Hashes identify transactions and a signature recovers to one sender, which is a field of the
  transaction. Hashes, addresses and bundle uuids are compared as numbers. The effective tip is
  `min(tip cap, fee cap - base fee)` when the fee cap covers the base fee and is otherwise
  missing; the gas price is `min(fee cap, base fee + tip cap)`; legacy transactions have both caps
  equal to their gas price.
- 64-bit gas arithmetic wraps around where the source could wrap, because the enclave's release
  profile turns overflow checks off (`bin/sgx/Cargo.toml:29`); everything else is proved not to
  wrap. 256-bit amounts are unbounded.
- The deadline is asked by `Alive.IsAlive`, which may answer either way at any time. Elapsed
  times, the hash of the signed payment and whether a nonce is already cached are arbitrary.
- Ordered maps are Dafny maps iterated through `Ordered.SortedKeys`; the ordered set of heads is a
  strictly sorted sequence. Pool locks make each pool call one sequential step.

## Findings

- The history that should hold back lower bids is pruned after every note, so it is empty
  whenever it is consulted: a request is sent exactly when its key is not recorded as failed
  (`Relay.DispatchedIff`), and `Relay.LowerBidGoesOut` is a run that sends a lower bid after a
  higher one.
- Taking the 32000 gas reserve off the gas limit wraps around exactly for limits under 32000
  (`BuildEnv.ReserveFits`).
- Repeated gas limit steps reach their target exactly when the parent limit is not between 1024
  and 2047 (`FeeMarket.ConvergesIff`). The claim leaves out parents from 2048 on with a target
  above them and within a step of 2^64: there a raise can wrap around into the band that never
  moves (`FeeMarket.WrapsIntoStuckBand`); what becomes of each such raise is
  `FeeMarket.WrapDecides`. Below 1024 the target is reached only because the step wraps around.
- A transaction pushed to the sequential pool is accepted yet evicted at once exactly when its
  sender already has at least as many later nonces waiting as the pool holds
  (`TxList.PushedSurvives`, `TxList.EvictedAtOnce`).
- Removing a hash from the price pool evicts whatever transaction holds that nonce now, also a
  replacement, which is then refused as known (`PricePool.RemoveEvictsReplacement`,
  `PricePool.RemoveTakes`).
- A new transaction whose nonce is behind a full list of twenty is accepted, dropped at once, and
  refused as known until its hash is removed (`PricePoolRuns.PushedHolds`,
  `PricePoolRuns.DroppedAtOnce`, `PricePoolRuns.RefusedEverAfter`).
- Listing bundles for an earlier block or time can notice earlier deletions, and only then
  (`BundlePool.UnobservableIffForward`).
- Without proofs, an item that names no account is skipped, so results line up with items exactly
  when every item names one (`FetchStates.ResultsLineUpIff`).

## Model

| member | source | states |
|---|---|---|
| `Executor.EtherAccounting` | src/common/evm_executor/src/executor.rs:165-278 | succeeded or reverted, a transaction that ran lowers the total of all balances by exactly used gas times base fee |
| `Executor.RevertedCost` | src/common/evm_executor/src/executor.rs:225-278 | a reverted transaction costs its sender used gas at the purchase price, pays the miner the tip on it, and touches no other balance |
| `Executor.EoaEffect` | src/common/evm_executor/src/executor.rs:189-278 | of key-owned accounts only the sender's nonce moves, by one, and nobody loses more than value sent plus gas used at the purchase price |
| `Evm.LastChange` | src/common/evm_executor/src/executor.rs:189-224 | after all changes, a deleted account reads as empty; a modified one has the balance, nonce, code and storage its last change gives, and otherwise what the changes before left, or nothing after a reset |
| `Evm.UnnamedKept` | src/common/evm_executor/src/executor.rs:189-224 | an account that no change names is kept whole |
| `Executor.FeesInNumbers` | src/common/evm_executor/src/executor.rs:255-266 | the tip is the smaller of priority fee and what the fee cap leaves over the base fee; gas is bought at base fee plus tip |
| `Executor.SuccessfulRun` | src/common/evm_executor/src/executor.rs:165-278 | a successful run leaves every account as the changes leave it on the bought world, with tip and refund added |
| `Executor.RunWrites` | src/common/evm_executor/src/executor.rs:189-278 | after a successful run the address of a last change has exactly the code, storage, nonce and balance written, plus the tip or refund due there, or reads as empty but for these |
| `Executor.RunLeavesAlone` | src/common/evm_executor/src/executor.rs:189-278 | an account that no change names and that is neither sender nor miner is unchanged |
| `Executor.RevertedRun` | src/common/evm_executor/src/executor.rs:225-278 | a reverted run changes the sender's nonce by one, the sender's and the miner's balance, and nothing else of any account |
| `Executor.Executor.CheckNonce` | src/common/evm_executor/src/executor.rs:338-363 | which nonce error, or none, for a cached or uncached nonce |
| `Executor.Executor.BuyGas` | src/common/evm_executor/src/executor.rs:301-336 | charges the gas limit at the gas price exactly when the sender can cover fee cap and value, otherwise changes nothing |
| `Executor.Executor.Write` | src/common/evm_executor/src/executor.rs:189-249 | the loop applies all changes in order, or the caller nonce alone after a revert |
| `Executor.Executor.Run` | src/common/evm_executor/src/executor.rs:70-279 | every error leaves the state as it was, also after buying and refunding gas for an unsupported transaction; which error comes first for a transaction under the base fee depends on nonce caching, nothing else does |
| `Executor.Executor.Interpret` | src/common/evm_executor/src/executor.rs:145-278 | once gas is bought: the writes, the tip and the refund make exactly the transition, and an unsupported transaction gets everything back |
| `BlockReplay.ReplayIsForward` | src/common/block_builder/src/block_builder.rs:494-499 | the incremental replay kept while building equals executing the block front to back |
| `BlockReplay.ReplayPrefix` | src/common/block_builder/src/block_builder.rs:494-499 | every prefix of a valid block is valid with the corresponding receipts |
| `BlockReplay.ReceiptAt` | src/common/evm_executor/src/executor.rs:49-56 | receipt i carries transaction i's hash, index i, its gas, and as cumulative gas the sum up to it |
| `BlockReplay.BlockConservation` | src/common/evm_executor/src/executor.rs:165-278 | over any valid block the total of balances falls by gas used times base fee |
| `BlockReplay.NonceDiscipline` | src/common/evm_executor/src/executor.rs:338-363 | in any valid block each sender's nonces are consecutive from its parent nonce, so no transaction occurs twice |
| `BuildEnv.Environment.CommitTransaction` | src/common/block_builder/src/block_builder.rs:435-561 | keeps replay consistency and the gas ledger; the outcome is the one due at this state and gas, or a stop by the deadline; only a transaction that ran moves state, transactions, receipts or gas; its hash is marked settled or not |
| `BuildEnv.Environment.ApplyTransaction` | src/common/block_builder/src/block_builder.rs:494-561 | without a deadline check: which execution result gives which outcome, and exactly what each moves |
| `BuildEnv.VerdictIff` | src/common/block_builder/src/block_builder.rs:446-516 | exactly when each outcome is due, in gas, fee cap, nonce, funds and the interpreter's answer; a transaction is removed if and only if its nonce has passed or it is unsupported, so one whose nonce is to come is kept |
| `BuildEnv.SuccessReceipt` | src/common/block_builder/src/block_builder.rs:494-499 | the receipt says what the interpreter said, at this place and after this gas |
| `BuildEnv.Environment.RevertTxsTo` | src/common/block_builder/src/block_builder.rs:383-397 | takes back exactly the transactions from a position on, their receipts, their gas and their marks, without wrap-around |
| `BuildEnv.Environment.UseGas` | src/common/block_builder/src/types.rs:286-289 | moves gas from the pool to gas used; their sum, the capacity, is kept |
| `BuildEnv.Environment.RefundGas` | src/common/block_builder/src/types.rs:291-294 | moves it back; the capacity is kept |
| `BuildEnv.ReserveFits` | src/common/block_builder/src/block_builder.rs:142-145 | pool plus reserve is the gas limit, and the pool is no larger than the block, if and only if the limit is at least 32000 |
| `Trials.JudgedPrefix` | src/common/block_builder/src/block_builder.rs:435-561 | in the record of a phase every outcome is the one due where the trials before it left the build, and nothing follows a stop |
| `Trials.StoppedForGas` | src/common/block_builder/src/block_builder.rs:446-468 | without a deadline only a lack of block gas stops a phase |
| `Trials.RemovalsIff` | src/common/block_builder/src/block_builder.rs:288-300 | exactly the hashes of trials that ended in removal are removed |
| `Trials.RemovedForCause` | src/common/block_builder/src/block_builder.rs:446-516 | in every phase a trial is removed if and only if, where it was tried, there was room for it and it was hopeless, unless the deadline came |
| `Trials.SuccessesIff` | src/common/block_builder/src/block_builder.rs:494-499 | exactly the trials that ran are in the block |
| `Trials.MarkSet` | src/common/block_builder/src/block_builder.rs:448-516 | what is tried is marked, as settled if and only if its last trial put it into the block or removed it |
| `Trials.MarkKept` | src/common/block_builder/src/block_builder.rs:448-516 | what is not tried keeps its mark |
| `Trials.OutcomesDetermined` | src/common/block_builder/src/block_builder.rs:435-561 | without a deadline, what is tried from a point decides all outcomes |
| `BundleFill.TryBundle` | src/common/block_builder/src/block_builder.rs:201-257 | a bundle goes in whole with every transaction successful or allowed to revert, or it is taken back because of the transaction named, which was refused or reverted without leave after all before it passed; then state, transactions, receipts, gas pool and gas used are as before; nothing is left unflushed |
| `BundleFill.StatusForCause` | src/common/block_builder/src/block_builder.rs:212-255 | a submitted bundle's transactions all ran and each succeeded or may revert; a reverted one names its first transaction that was refused or that reverted without leave |
| `BundleFill.TakenBackMarks` | src/common/block_builder/src/block_builder.rs:234-235 | taking a bundle back moves nothing but marks: those of its transactions that had run are erased |
| `BundleFill.FillBundles` | src/common/block_builder/src/block_builder.rs:183-259 | over any run of bundles, the transactions added are the in-order concatenation of exactly the bundles reported submitted; the results are about a prefix of the listed bundles, all of them unless the deadline or a stop came, each explained by its trials from where the bundles before it left the build |
| `PoolFill.FillSeq` | src/common/block_builder/src/block_builder.rs:261-308 | every pool transaction is tried in order unless a stop comes, each with the outcome due; what is added are the successes, in pool order, each counted as a private transaction; the pool loses exactly the hashes found stale or unsupported |
| `PoolFill.SequentialFate` | src/common/block_builder/src/block_builder.rs:261-308 | what goes into the block keeps the pool's order, and none of it is removed from the pool |
| `PoolFill.OffersAreQueues` | src/common/block_builder/src/block_builder.rs:747-762 | the price pool's offer is keyed by sender, told apart by hash, and each list can pay and has consecutive nonces |
| `PoolFill.AttemptFront` | src/common/block_builder/src/block_builder.rs:656-683 | one attempt at the front: its outcome is the one due at this point, included exactly on success, the queue moves on exactly on success or removal and is given up otherwise, the pool loses it exactly on removal, and one transaction is used up |
| `PoolFill.CommitPage` | src/common/block_builder/src/block_builder.rs:644-684 | serves the queues while the best next transaction is on the page; uses up at least one transaction, and stops exactly on a stop |
| `PoolFill.CommitPool` | src/common/block_builder/src/block_builder.rs:590-690 | ends even if the deadline never passes, then with all queues used up or a stop for lack of gas; the trials are a run of the greedy merge with every outcome due at its point, as many as transactions used up; what is added is the successes in order; the pool loses exactly the removals; the state is flushed |
| `PoolFill.FillPrice` | src/common/block_builder/src/block_builder.rs:310-325 | the same on exactly what the pool lists at this base fee by the marks so far; afterwards the pool is the listed one without the removals |
| `PoolFill.PhaseIsGreedy` | src/common/block_builder/src/block_builder.rs:644-684 | in a price phase each sender's attempts are a gapless prefix of a run of its pending transactions; each attempt leaves the miner a greater tip than the next, or the same with a greater hash, unless that is the same sender's; a sender is tried again only after a success or a removal |
| `PoolFill.AttemptIsBest` | src/common/block_builder/src/block_builder.rs:644-684 | every attempt leaves the miner a greater tip, or the same with a greater hash, than the next offered transaction of every other sender still in the running |
| `PoolFill.PhaseServesAll` | src/common/block_builder/src/block_builder.rs:609-685 | without a deadline or a lack of gas, every offered transaction of a sender is tried unless one of them was refused and kept |
| `Builder.GetTips` | src/common/block_builder/src/types.rs:184-229 | between the reward and the reward plus the strategy's maximum |
| `Builder.TipsInNumbers` | src/common/block_builder/src/types.rs:184-215 | what is added to the reward is the greatest of what bundles, private transactions and an ordinary block are worth, or the maximum if that is less |
| `Builder.MoreWorkNeverPaysLess` | src/common/block_builder/src/types.rs:184-215 | one more private transaction or bundle never lowers the payment |
| `Builder.IncludedCanPay` | src/common/block_builder/src/block_builder.rs:410-421 | every included transaction has a receipt and covers the base fee |
| `Builder.CalculateProfit` | src/common/block_builder/src/block_builder.rs:399-433 | the reward is the tips earned capped by the growth of the miner's balance; the two internal errors cannot occur |
| `Builder.SumTips` | src/common/block_builder/src/block_builder.rs:406-425 | the loop adds up gas used times tip over all transactions, without an internal error |
| `Builder.TipsStepInNumbers` | src/common/block_builder/src/block_builder.rs:410-421 | each transaction adds its gas times the smaller of its priority fee and what its fee cap leaves over the base fee |
| `Builder.MinerEarns` | src/common/evm_executor/src/executor.rs:255-274 | over any valid block without its own transactions a key-owned miner really earns at least the tips paid, and exactly these if every transaction reverted |
| `Builder.RewardIsTips` | src/common/block_builder/src/block_builder.rs:399-433 | so for such a block the measured reward is the tips paid |
| `Builder.TipCost` | src/common/block_builder/src/block_builder.rs:352-368 | a payment costs the payer at most its amount, fee included |
| `Builder.TipVerdict` | src/common/block_builder/src/block_builder.rs:358-379 | with the reserve released only missing funds can refuse the payment, or the interpreter by not supporting it |
| `Builder.SendTip` | src/common/block_builder/src/block_builder.rs:352-379 | the payment in full: sender, nonce, gas, price, recipient and value; unless the pool wraps it is never stopped or popped for lack of block gas, and fails only for missing funds or in the interpreter |
| `Builder.TipGasInNumbers` | src/common/block_builder/src/block_builder.rs:341-347 | 21000 gas for a recipient without code, 32000 for one with code |
| `Builder.FillTips` | src/common/block_builder/src/block_builder.rs:327-381 | when the fee is too low, what is paid and reported, how a payment can fail; reported profit is at most measured reward plus maximum; with coinbase equal to payer, the payer keeps at least the smaller of its balance at fill start and before the payment, less the maximum |
| `Builder.PayProposer` | src/common/block_builder/src/block_builder.rs:153-157 | the profit reported is the value of the payment, which is what the strategy makes of the measured reward, less the fee; how a payment fails; the payer's spend is bounded |
| `Builder.ProfitBounded` | src/common/block_builder/src/block_builder.rs:339-379 | so the reported profit exceeds the measured reward by at most the strategy's maximum |
| `Builder.FillFromPools` | src/common/block_builder/src/block_builder.rs:147-151 | the active bundles of the bundle pool, the sequential pool and the price pool's offers are tried in that order, each from where the one before left the build; the block is their successes, and what each pool holds afterwards is stated |
| `Builder.ListedIff` | src/common/block_builder/src/block_builder.rs:193-197 | the bundles tried are exactly the pool's bundles for the header's block number whose times allow its timestamp |
| `Builder.FillTransactions` | src/common/block_builder/src/block_builder.rs:136-159 | for every mix of outcomes, block or error, the environment is a faithful replay of submitted bundles, sequential, price pool and payment transactions in that order, traced back to what the three pools held, and what they hold afterwards; no transactions if and only if that error; how a payment fails; the reported profit; gas pool plus gas used is the gas limit once the reserve is released; bounded spend over the whole fill |
| `Builder.FinalizeAndAssemble` | src/common/block_builder/src/block_builder.rs:563-588 | the sealed state is the filled state with all withdrawals credited |
| `Builder.CreditedTotal` | src/common/block_builder/src/block_builder.rs:581-584 | withdrawals add exactly their amounts to the total of balances |
| `Builder.CreditedStep` | src/common/block_builder/src/block_builder.rs:581-584 | one more withdrawal raises the balance of its own address by its amount in gwei times 10^9 and leaves the rest of every account |
| `Builder.CreditedAccount` | src/common/block_builder/src/block_builder.rs:581-584 | every account ends with what was there plus all that is addressed to it |
| `Builder.PaidInFull` | src/common/block_builder/src/block_builder.rs:563-588 | in the state root every account has what the block's transactions leave it plus what is addressed to it by a withdrawal |
| `Builder.BlockIsHonest` | src/common/block_builder/src/block_builder.rs:563-588 | a faithful environment yields a block whose final total plus burnt fees is the parent's total plus withdrawals |
| `Builder.Build` | src/common/block_builder/src/block_builder.rs:48-115 | every block built replays on the parent state to its own receipts and state root, conserves ether, pays every withdrawal to its address, stays within the gas limit, comes from the pools phase by phase, reports the profit of its payment and keeps the payer's spend bounded; an error has its cause; what the pools hold afterwards |
| `Determined.BundlePhaseDetermined` | src/common/block_builder/src/block_builder.rs:197-257 | without a deadline the results of all bundles are determined by the bundles listed and the state |
| `Determined.SequentialDetermined` | src/common/block_builder/src/block_builder.rs:279-305 | without a deadline the sequential phase is determined by the pool's list and the state |
| `Determined.PriceDetermined` | src/common/block_builder/src/block_builder.rs:609-685 | without a deadline all attempts and what is left are determined by the price pool, the marks and the state |
| `Determined.FillDetermined` | src/common/block_builder/src/block_builder.rs:136-159 | so two fills without a deadline on the same pools and parent state have the same record: nothing listed or offered is left out, reordered or decided otherwise |
| `TxList.PushKeepsOrder` | src/common/txpool/src/seq_pool.rs:200-257 | a push keeps hashes distinct and each sender's nonces strictly increasing |
| `TxList.PushMembers` | src/common/txpool/src/seq_pool.rs:200-257 | after a push the list has the new transaction and all others but the one of its sender with its nonce |
| `TxList.PushPlaces` | src/common/txpool/src/seq_pool.rs:225-257 | other senders' transactions keep their order, and behind the new one come exactly the later nonces of its sender |
| `TxList.KeepLastMeans` | src/common/txpool/src/seq_pool.rs:98-102 | the size limit keeps the last ones, as many as it allows |
| `TxList.AcceptedOrdered` | src/common/txpool/src/seq_pool.rs:92-104 | over any run of pushes the list stays distinct, nonce ordered per sender and within the maximum |
| `TxList.PushedSurvives` | src/common/txpool/src/seq_pool.rs:92-104 | the pushed transaction survives eviction if and only if fewer than the maximum of its sender's later nonces are waiting |
| `TxList.EvictedAtOnce` | src/common/txpool/src/seq_pool.rs:92-104 | every full pool of one sender is reached by pushes, and an earlier nonce pushed then is accepted and evicted at once |
| `SeqPool.ListFacts` | src/common/txpool/src/seq_pool.rs:131-140 | the list the indexes stand for holds every live transaction exactly once |
| `SeqPool.RenumberMoves` | src/common/txpool/src/seq_pool.rs:233-239 | a new sequence number moves a transaction to the end of the list |
| `SeqPool.HeadOfList` | src/common/txpool/src/seq_pool.rs:182-184 | the smallest number names the head of the list |
| `SeqPool.DropKeepsAll` | src/common/txpool/src/seq_pool.rs:259-271 | taking a live transaction out of all three indexes keeps them in agreement and drops just it from the list |
| `SeqPool.PushAccounts` | src/common/txpool/src/seq_pool.rs:225-244 | after a push the account index still lists each sender's transactions in list order |
| `SeqPool.SeqPoolList.FindSlot` | src/common/txpool/src/seq_pool.rs:206-223 | finds the first entry of the sender with the same or a later nonce, or the known transaction |
| `SeqPool.SeqPoolList.MoveToEnd` | src/common/txpool/src/seq_pool.rs:229-241 | the still live entries behind the new transaction go to the end, in their old order |
| `SeqPool.SeqPoolList.Push` | src/common/txpool/src/seq_pool.rs:200-257 | the list becomes: all but the sender's same and later nonces, the new transaction, the sender's later nonces in old order; all indexes agree |
| `SeqPool.SeqPoolList.Pop` | src/common/txpool/src/seq_pool.rs:182-194 | removes the oldest transaction from all indexes |
| `SeqPool.SeqPoolList.Remove` | src/common/txpool/src/seq_pool.rs:259-271 | drops one hash from the list and all indexes |
| `SeqPool.SeqPoolList.EvictTo` | src/common/txpool/src/seq_pool.rs:98-102 | keeps the last of the list up to the maximum |
| `SeqPool.SeqPoolList.Clear` | src/common/txpool/src/seq_pool.rs:80-85 | empties the list |
| `SeqPool.SeqPoolList.ListBySeq` | src/common/txpool/src/seq_pool.rs:131-140 | returns every live transaction once, each sender's nonces strictly increasing |
| `SeqPool.SeqPool.Push` | src/common/txpool/src/seq_pool.rs:92-104 | a known hash changes nothing; otherwise the list becomes the last `max` of the pushed list |
| `SeqPool.SeqPool.RemoveList` | src/common/txpool/src/seq_pool.rs:149-153 | the list loses exactly the given hashes |
| `Merge.AttemptsArePrefix` | src/common/txpool/src/types.rs:75-96 | in any run of the merge a sender's attempts are a prefix of its queue |
| `Merge.AttemptsAreConsecutive` | src/common/txpool/src/price_pool.rs:346-351 | so on offered queues no nonce is skipped or repeated |
| `Merge.DroppedIsFinal` | src/common/txpool/src/types.rs:75-77 | a sender that was popped is never attempted again |
| `Merge.NeighboursAreGreedy` | src/common/txpool/src/types.rs:139-148 | an attempt leaves a greater tip than the next, or the same with a greater hash, unless that is its sender's own next |
| `Merge.LeaderPaysMost` | src/common/txpool/src/types.rs:139-148 | what leads leaves a greater tip than the front of every other queue, or the same with a greater hash |
| `Merge.EachIsBest` | src/common/txpool/src/types.rs:139-148 | in any run each attempt so beats the next transaction of every other sender not given up on |
| `Merge.ServedOut` | src/common/txpool/src/types.rs:75-96 | a sender is attempted until its queue is used up or is what is left, unless it was given up on |
| `PriceHeads.InsertSorted` | src/common/txpool/src/types.rs:175-177 | inserting keeps the heads strictly ordered and adds just the new one |
| `PriceHeads.FrontLeads` | src/common/txpool/src/types.rs:139-148 | the front has the greatest tip and hash among all senders' next transactions |
| `PriceHeads.FrontPaysMost` | src/common/txpool/src/types.rs:139-148 | the same in numbers: by tip left to the miner, then by hash |
| `PriceHeads.OneHeadPerSender` | src/common/txpool/src/types.rs:79-96 | no sender has two heads |
| `PriceHeads.TransactionsByPriceAndNonce.constructor` | src/common/txpool/src/types.rs:24-61 | stands for the queues whose first transaction can pay, and loses no transaction |
| `PriceHeads.TransactionsByPriceAndNonce.Peek` | src/common/txpool/src/types.rs:118-120 | the transaction with the greatest tip, then the greatest hash, among all senders' next transactions, if any queue is left |
| `PriceHeads.TransactionsByPriceAndNonce.PeekN` | src/common/txpool/src/types.rs:98-108 | a prefix of the heads in order, at least one if there is one |
| `PriceHeads.TransactionsByPriceAndNonce.Pop` | src/common/txpool/src/types.rs:75-77 | gives up the front's sender and holds one transaction less |
| `PriceHeads.TransactionsByPriceAndNonce.ShiftHead` | src/common/txpool/src/types.rs:79-96 | advances the front's queue, or drops it when the next is missing or cannot pay, and holds one transaction less |
| `PricePool.AddKeeps` | src/common/txpool/src/price_pool.rs:197-223 | adding keeps a list stored by nonce, non-empty and within 20, and a slot only changes for higher fee cap and priority fee |
| `PricePool.RemoveTakes` | src/common/txpool/src/price_pool.rs:225-231 | a removal takes exactly the sender's slots up to the nonce, provided that slot is occupied |
| `PricePool.RemoveEvictsReplacement` | src/common/txpool/src/price_pool.rs:41-62 | counterexample: after two pushes the outbid hash is still cached, removing it evicts its replacement, and pushing that again is refused |
| `PricePool.RemoveKeeps` | src/common/txpool/src/price_pool.rs:41-62 | after a removal every pending transaction is still cached and no list is empty |
| `PricePool.PushedKeeps` | src/common/txpool/src/price_pool.rs:115-143 | a push keeps the pool invariant, and an occupied slot only changes for higher fee cap and priority fee |
| `PricePool.UnderpricedSpares` | src/common/txpool/src/price_pool.rs:245-254 | an underpriced transaction is spared only by the limit, and only below all those taken |
| `PricePool.UnderpricedDescends` | src/common/txpool/src/price_pool.rs:247-254 | those taken are in descending nonce order |
| `PricePool.FindUnderprice` | src/common/txpool/src/price_pool.rs:245-254 | the loop collects exactly these |
| `PricePool.CleanUnderprice` | src/common/txpool/src/price_pool.rs:245-262 | deletes at most the limit, each a transaction that cannot pay, and returns exactly their hashes |
| `PricePool.RunAt` | src/common/txpool/src/price_pool.rs:341-355 | everything in a flattened run pays and continues the nonces |
| `PricePool.RunEnd` | src/common/txpool/src/price_pool.rs:341-351 | a run ends only where it cannot be continued |
| `PricePool.OfferInNumbers` | src/common/txpool/src/price_pool.rs:325-358 | nothing is offered if the first transaction not settled is marked failed or does not cover the base fee; otherwise the longest stretch from it on that covers the base fee without a gap |
| `PricePool.BlockerInNumbers` | src/common/txpool/src/price_pool.rs:337-355 | the blocker is the transaction after the offer, if it does not cover the base fee |
| `PricePool.InNonceOrderFacts` | src/common/txpool/src/price_pool.rs:330-336 | a sender's transactions are gone through completely and in ascending order of nonce |
| `PricePool.TakeRun` | src/common/txpool/src/price_pool.rs:341-355 | the loop collects the longest such run and notices an underpriced end |
| `PricePool.Flatten` | src/common/txpool/src/price_pool.rs:325-358 | the run starts at the first transaction not checked off, a failed one blocks it, an underpriced end is marked failed |
| `PricePool.FlatIsRun` | src/common/txpool/src/price_pool.rs:325-358 | what is returned is a run of that sender's own pending transactions |
| `PricePool.OfferInTurn` | src/common/txpool/src/price_pool.rs:88-97 | a sender's offer and blocker are those by the marks made before listing, whatever was marked for senders before it |
| `PricePool.OffersAreOffer` | src/common/txpool/src/price_pool.rs:88-97 | exactly the senders with a run are offered, with that run, unless the limit is reached |
| `PricePool.UncachedTurn` | src/common/txpool/src/price_pool.rs:98-108 | cleaning a sender's list uncaches exactly the transactions that went |
| `PricePool.PricePool.Push` | src/common/txpool/src/price_pool.rs:115-143 | keeps the pool invariant; a known hash is refused, otherwise it is cached and competes for its slot |
| `PricePool.PricePool.Remove` | src/common/txpool/src/price_pool.rs:41-62 | keeps the pool invariant; what is found and the whole pool after it |
| `PricePool.PricePool.CleanInTurn` | src/common/txpool/src/price_pool.rs:96-106 | the sender loses exactly its largest underpriced nonces, at most the excess over the size limit, if something of it was dropped and there is an excess; so the count never underflows |
| `PricePool.PricePool.List` | src/common/txpool/src/price_pool.rs:69-113 | offers, marks and the pool afterwards are exactly those of the listing: each scanned sender offered its run by the marks before listing, up to the limit; exactly the blockers marked failed; exactly the cleaned transactions gone from list and cache |
| `PricePool.ListingKeeps` | src/common/txpool/src/price_pool.rs:69-113 | a listing keeps the pool invariant, removes only transactions that cannot pay, and leaves at least the size limit or all |
| `PricePool.ListingOffers` | src/common/txpool/src/price_pool.rs:69-113 | a listing offers exactly the runs while there is room, and everything offered is still pending afterwards |
| `PricePool.ListingMarks` | src/common/txpool/src/price_pool.rs:88-97 | a listing marks blockers as failed and nothing else, and every blocker if there is room |
| `PricePool.ListingCleansEnough` | src/common/txpool/src/price_pool.rs:96-108 | a sender that had its turn and was blocked ends with nothing that cannot pay, or the lists up to it meet the size limit |
| `PricePool.ListingForgets` | src/common/txpool/src/price_pool.rs:100-103 | exactly what was cleaned out leaves the cache, so it can be pushed again |
| `PricePool.ListingWithinLimit` | src/common/txpool/src/price_pool.rs:91-95 | no more senders are offered than asked for, but at least one if there is one |
| `PricePool.PricePool.ScanAll` | src/common/txpool/src/price_pool.rs:85-108 | the scan in sender order makes this listing, with the senders to delete |
| `PricePoolRuns.EveryRunIsOk` | src/common/txpool/src/price_pool.rs:41-143 | after every run of pushes, removals and listings each pending transaction is stored under its own sender and nonce and cached, and no list is empty or exceeds 20 |
| `PricePoolRuns.SlotHistory` | src/common/txpool/src/price_pool.rs:197-205 | over every run, a slot that stays occupied ends with its first occupant or one that bids strictly more on both |
| `PricePoolRuns.PushedHolds` | src/common/txpool/src/price_pool.rs:115-143 | a pushed transaction is pending afterwards if and only if it already was, or is new and raises both fee cap and priority fee of its slot's occupant, or finds its slot free with fewer than 20 in the list or a later nonce to drop |
| `PricePoolRuns.PushedOthers` | src/common/txpool/src/price_pool.rs:276-282 | of other slots a push drops exactly the largest nonce of a full list, for a new transaction before it |
| `PricePoolRuns.RemovedForgets` | src/common/txpool/src/price_pool.rs:41-62 | a removal forgets its hash and no other |
| `PricePoolRuns.RefusedEverAfter` | src/common/txpool/src/price_pool.rs:115-120 | a transaction that is cached but not pending is refused in every run until its hash is removed |
| `PricePoolRuns.DroppedAtOnce` | src/common/txpool/src/price_pool.rs:276-282 | every list of twenty is reached by pushes, and a later nonce pushed then is cached, dropped at once and refused from then on |
| `Relay.RecordKeeps` | src/common/mev_boost/src/submitter.rs:162-184 | recording a result keeps keys distinct and at most a hundred entries |
| `Relay.RecordedIsRead` | src/common/mev_boost/src/submitter.rs:162-184 | a recorded result is read back, and every other key keeps its result, except the oldest of a full table when a new key comes in |
| `Relay.HistoryStaysEmpty` | src/common/mev_boost/src/submitter.rs:151-161 | noting a value and pruning leaves an empty history empty |
| `Relay.HistoryNoted` | src/common/mev_boost/src/submitter.rs:151-161 | noting keeps the greater value under its slot and leaves the others; then exactly the smallest slot goes |
| `Relay.StepKeepsInv` | src/common/mev_boost/src/submitter.rs:96-198 | every critical section keeps the safety invariant |
| `Relay.EveryInterleavingIsSafe` | src/common/mev_boost/src/submitter.rs:96-198 | in every interleaving on an optimistic relay a production signature goes out only after a request with the same slot, number, randao and withdrawals root completed with success; recorded keys stay distinct and bounded; the history is empty |
| `Relay.TestKeyGoesFirst` | src/common/mev_boost/src/submitter.rs:116-123 | in every interleaving on an optimistic relay, whatever is sent or completed for a key comes after a request for that key sent under the test key |
| `Relay.TableIsCurrent` | src/common/mev_boost/src/submitter.rs:162-184 | in every interleaving the entry of a key says what its last completion said, and until the table is full every completed key has one |
| `Relay.FailureHoldsBack` | src/common/mev_boost/src/submitter.rs:100-110 | while it is recorded, a key whose last completion failed is ignored |
| `Relay.ConsultIff` | src/common/mev_boost/src/submitter.rs:80-125 | consulting the history sends the request if and only if no bid as high is noted for its slot |
| `Relay.GuardNeverRejects` | src/common/mev_boost/src/submitter.rs:80-94 | the guard against lower bids never rejects |
| `Relay.DispatchedIff` | src/common/mev_boost/src/submitter.rs:96-125 | whatever threads do between lookup and history check, a request goes out if and only if its key was not recorded as failed on receipt, whatever it bids, and under which key |
| `Relay.LowerBidGoesOut` | src/common/mev_boost/src/submitter.rs:112-161 | a run in which a lower bid for the same slot follows a successful higher one |
| `Relay.RelaySubmitter.FindChecked` | src/common/mev_boost/src/submitter.rs:190-198 | the first entry with the request's key |
| `Relay.RelaySubmitter.NoteSubmission` | src/common/mev_boost/src/submitter.rs:151-161 | the history section: greater value kept, first slot pruned |
| `Relay.RelaySubmitter.RecordSubmission` | src/common/mev_boost/src/submitter.rs:162-184 | the result section: first match updated, or appended and the oldest dropped above a hundred |
| `FeeMarket.BaseFeeBounds` | src/common/block_builder/src/types.rs:103-131 | falls by at most an eighth; rises by at most the greater of one and an eighth up to twice the target |
| `FeeMarket.FallInNumbers` | src/common/block_builder/src/types.rs:124-129 | under its target a parent lowers the fee by exactly base fee times missing gas over eight times the target, rounded down |
| `FeeMarket.RiseInNumbers` | src/common/block_builder/src/types.rs:113-122 | above its target it raises the fee by exactly the greater of one and base fee times surplus gas over eight times the target, rounded down |
| `FeeMarket.BaseFeeAtExtremes` | src/common/block_builder/src/types.rs:103-131 | exact value for an empty parent, one at target and one at twice its target |
| `FeeMarket.BaseFeeMonotone` | src/common/block_builder/src/types.rs:103-131 | more gas used never lowers the fee, across all branches |
| `FeeMarket.SevenIsAFloor` | src/common/block_builder/src/types.rs:103-131 | along every chain a base fee of at least 7 stays at least 7 |
| `FeeMarket.SmallFeesOnlyRise` | src/common/block_builder/src/types.rs:111-129 | a fee under 8 never falls, and rises above target |
| `FeeMarket.GasLimitStep` | src/common/block_builder/src/types.rs:133-156 | for all limits: a step moves by less than a 1024th towards the larger of desired and 5000 and never past it, if and only if the parent is at least 1024 and raising it does not wrap around; from 2048 on it moves |
| `FeeMarket.GasLimitStepIsFull` | src/common/block_builder/src/types.rs:133-156 | short of the target such a step is the full allowed one |
| `FeeMarket.TargetInNumbers` | src/common/block_builder/src/types.rs:137-141 | the target is the limit asked for, but never less than 5000 |
| `FeeMarket.TargetIsStable` | src/common/block_builder/src/types.rs:142-155 | once reached, the target is kept |
| `FeeMarket.LargeLimitsReach` | src/common/block_builder/src/types.rs:133-156 | from 2048 on the target is reached in finitely many blocks, unless it lies above the parent and so near 2^64 that the last step could wrap around |
| `FeeMarket.WrapsIntoStuckBand` | src/common/block_builder/src/types.rs:136-149 | counterexample near 2^64: a parent that wraps around to 1500 and stays there |
| `FeeMarket.ReachesIffNext` | src/common/block_builder/src/types.rs:133-156 | for all limits, short of the target a limit converges if and only if the next one does |
| `FeeMarket.WrapDecides` | src/common/block_builder/src/types.rs:141-149 | for every limit whose raise wraps around: it converges if and only if it lands below 1024, or from 2048 on at a limit that converges |
| `FeeMarket.MiddleLimitsStick` | src/common/block_builder/src/types.rs:136-155 | between 1024 and 2047 the limit never moves |
| `FeeMarket.SmallLimitsWrapAround` | src/common/block_builder/src/types.rs:136-147 | below 1024 the wrapped step counts down and then lands on the target |
| `FeeMarket.ConvergesIff` | src/common/block_builder/src/types.rs:133-156 | the target is reached if and only if the parent is not between 1024 and 2047; from 2048 on, where no raise on the way can wrap around |
| `FetchStates.PackRequests` | src/common/eth_client/src/execution_client.rs:123-142 | the flat request list is the items' own requests in order, in both forms |
| `FetchStates.UnpackItem` | src/common/eth_client/src/execution_client.rs:146-177 | an item's balance, nonce, code and storage are read from its own responses, and just these are consumed |
| `FetchStates.Unpack` | src/common/eth_client/src/execution_client.rs:143-178 | equals fetching each item alone; every response is consumed exactly once |
| `FetchStates.UnpackWithProof` | src/common/eth_client/src/execution_client.rs:197-219 | equals fetching each item alone; the iterator is used up and never runs dry, so the length assertion holds |
| `FetchStates.FetchStates` | src/common/eth_client/src/execution_client.rs:114-220 | batched fetching refines one-at-a-time fetching, in both forms |
| `FetchStates.ResultsLineUpIff` | src/common/eth_client/src/execution_client.rs:124-128 | without proofs there is one result per item if and only if every item names an account |
| `FetchStates.OwnAnswers` | src/common/eth_client/src/execution_client.rs:146-177 | an item gets balance, nonce and storage of the account it names, the access list before the code, and the code of the code's address |
| `FetchStates.OwnProof` | src/common/eth_client/src/execution_client.rs:197-219 | with proofs it gets the proof of its access list and the code of the code's address |
| `FetchStates.EachInOrder` | src/common/eth_client/src/execution_client.rs:143-219 | results come in the order of their items |
| `BundlePool.DeletedIsExpired` | src/common/txpool/src/bundle.rs:74-104 | what the pool deleted can no longer become active |
| `BundlePool.VisibleIff` | src/common/txpool/src/bundle.rs:79-97 | a listing shows exactly the bundles for this very block whose first time has come and whose last has not passed |
| `BundlePool.PurgeIff` | src/common/txpool/src/bundle.rs:80-90 | it deletes exactly those whose block or last time has passed |
| `BundlePool.NewestWins` | src/common/txpool/src/bundle.rs:30-33 | the newest bundle of a uuid wins and the others are left alone |
| `BundlePool.ExpiryIsUnobservable` | src/common/txpool/src/bundle.rs:74-104 | for any run of adds and listings, a listing no earlier than all before it shows what a pool that never deletes would show |
| `BundlePool.UnobservableIffForward` | src/common/txpool/src/bundle.rs:79-103 | for all pools, a deletion goes unnoticed by a later listing if and only if neither block nor time went back |
| `BundlePool.RecordKeeps` | src/common/txpool/src/bundle.rs:113-134 | the history keeps one entry per hash and at most 100, and no other entry's status changes |
| `BundlePool.RecordStatus` | src/common/txpool/src/bundle.rs:113-134 | recording sets one status and leaves every other, except that of the last entry of a full history when a new one comes in |
| `BundlePool.AddStatus` | src/common/txpool/src/bundle.rs:29-52 | after an addition the bundle waits, the one it replaces says so unless it was submitted, and no other status changes, other than entries lost off the end |
| `BundlePool.ExpiryStatus` | src/common/txpool/src/bundle.rs:98-103 | after an expiry deleted bundles are expired and no other status changes, other than entries lost off the end |
| `BundlePool.ExpiredUuidsFacts` | src/common/txpool/src/bundle.rs:79-91 | the uuids a listing deletes are exactly the expired ones |
| `BundlePool.BundlePool.Add` | src/common/txpool/src/bundle.rs:29-52 | the newest bundle per uuid wins; the history is exactly the old one with the replaced bundle marked, unless it was submitted, and the new one waiting |
| `BundlePool.BundlePool.SetHistory` | src/common/txpool/src/bundle.rs:59-64 | the history is exactly the old one with this status recorded |
| `BundlePool.BundlePool.List` | src/common/txpool/src/bundle.rs:74-104 | exactly the active bundles, in uuid order; exactly the expired ones are deleted, and the history is exactly the old one with these marked expired in order |

## Left out

- State-backend errors: a failing fetch ends a build, and the price phase stops and still flushes on one; no claim is made about the state it leaves.
- Dry-run execution: it caps the purchase at the balance and refunds in full, so conservation does not apply to it.
- The EVM interpreter, the trie, signing, hashing, RLP, SSZ and BLS: only the contracts listed above.
- 256-bit overflow: amounts, fees and the sequence counter are unbounded, so a panic on an absurd fee cap is not modelled.
- Prefetching, access lists, nonce prefiltering, logs blooms and statistics: they do not change what is built.
- Pool metadata (failure reasons, submit times, the blocks a transaction was submitted to): it does not influence the lists.
- Unsupported pool entry points (`SeqPool::swap`, `TransactionsByPriceAndNonce::replace`): they bypass the size and one-head invariants and have no callers.
- Concurrent `PricePool::clear`: it takes its two locks one after the other; pool calls are sequential here.
- SeqPool.SeqPool.RemoveList: does not model the removal of the block number from the submission records, because these records are not modelled.
- Relay.StepKeepsInv: slots are taken to fit 32 bits, because the conversion `as_u32` panics on larger ones; the comparison of slots is then equality.
- FeeMarket.ConvergesIff: does not say which parents from 2048 on converge when the target is above them and within a step of 2^64, because there a limit may wrap around again and again, so its fate is only given from one block to the next (`FeeMarket.ReachesIffNext`, `FeeMarket.WrapDecides`).
- FeeMarket.LargeLimitsReach: has the same premise, for the same reason.
- BundlePool.BundlePool.SetHistory: does not model the processing time, because clocks are left out.
- The answer parsing of the relay, the HTTP, websocket and JSON-RPC servers, remote attestation, the simulator, precompiles and configuration: plumbing.
- `SendBundleRequest::to_bundle`, the header of the next block, and reports: the conversion of requests into bundles, the fields of the header other than base fee and gas limit, and what is logged.
