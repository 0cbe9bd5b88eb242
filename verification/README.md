# Stonkfolio, verified

A Dafny model of the part of Stonkfolio that decides who is paid, how much and when, with proofs about it. Stonkfolio
launches index coins. A keeper collects each coin's fees, buys a basket with them and pays the basket out to the coin's
holders in rounds; an on-chain distributor program holds the tokens of each round and lets nobody, the keeper
included, pay anything but what the round committed to.

| Files | What they hold |
|---|---|
| `Merkle.dfy`, `MerkleTheorems.dfy`, `MerkleTree.dfy` | Addresses and digests as terms; trees with odd nodes carried up, block proofs, both verifiers, and the loops that build and check them |
| `Bits.dfy`, `Fees.dfy`, `Distributor.dfy`, `Program.dfy` | Claim bitmaps, the transfer fee, and what each payout instruction does: as functions of the chain, and as handlers that change accounts in place |
| `PayoutSafety.dfy`, `PayoutTheorems.dfy`, `Committed.dfy`, `EndToEnd.dfy` | What every run of those instructions keeps; batches against single payouts; claimed totals; and an allocation from its leaves to its last payout |
| `SlotHashes.dfy`, `Lifecycle.dfy`, `LifecycleRuns.dfy`, `Provenance.dfy`, `SamplingProgram.dfy` | The seed lookup from bytes, a round's sampling lifecycle, its runs, where every recorded field comes from, and its handlers |
| `ProgramRuns.dfy` | Sampling and payouts together: runs of the whole program |
| `Sorting.dfy`, `Apportionment.dfy`, `Allocation.dfy`, `Holders.dfy`, `HolderLaws.dfy`, `ShareLaws.dfy`, `AllocateRound.dfy` | The allocation: a stable sort, largest remainders, truncation and drop passes, balances and medians, what the holder table and the shares say of the snapshots alone, and the loops |
| `Sampling.dfy`, `Select.dfy`, `SampleChances.dfy` | Draws from a seed, the shuffle, which snapshots count, and how evenly |
| `Ledger.dfy`, `Journal.dfy`, `Bookings.dfy`, `Engine.dfy`, `EngineInvariants.dfy`, `EngineRuns.dfy`, `EngineLaws.dfy`, `EngineFates.dfy`, `RoundEngine.dfy`, `KeeperRuns.dfy`, `GrossUp.dfy`, `Funding.dfy` | The keeper's buckets, its transaction journal and every booking behind them, its reserves and token reservations, what each step costs and settles, both on one state file, the gross-up loop, and whether what it sends activates an asset |
| `PushPhase.dfy`, `PushProgress.dfy`, `PushFates.dfy`, `PushSteps.dfy`, `BlockPayouts.dfy` | How payouts are pushed in halved and retried blocks, why that ends, what becomes of each leaf, and that the program accepts and pays those blocks |

Code that changes state is a class or a method with loops, proved equal to a function of its input and old state; what
the source promises is then proved about those functions, over all inputs and all runs. The classes require and ensure
the invariants those proofs give, so each handler and each step keeps them.

## What the model takes as given

- sha256 and address derivation are terms: two digests or addresses are equal only if they were derived from equal
  parts. Pair hashing forgets the order of its two parts and nothing else. Digests are ordered by a fixed total order
  that stands for the order of their bytes.
- A token transfer debits exactly the amount and credits it less the mint's transfer fee,
  `min(ceil(amount * bps / 10_000), cap)`. Between instructions anyone may use the token program, time may pass and fees
  may change; an account at a vault's address keeps its owner, mint and program and is only spent by its asset.
- `openings` and `paid` record what was done beside the accounts: each asset as it was opened, each payout made. No
  instruction reads them.
- What the program reads from elsewhere is a parameter: whether a mint was vetted, a decoded price, the sysvar's bytes.
- In the keeper every reply of the chain and the network is an input to the step that receives it. Signatures are never
  reused, and a final status is never reported wrongly. What is spent outside rounds names the flywheel, buyback or
  revenue bucket (`keeper/coin.ts:116-118`, `349`), or the basket, never the operations bucket. A new round's id is the
  chain's next one, which no committed round has.
- Dafny proves termination, so `below` and what calls it require that the hash stream keeps yielding accepted values;
  the source would loop for ever otherwise. Owners are the numbers their key bytes spell.

## Where the code and its documentation differ

- `docs/runbook.md:169` says a round cannot be abandoned once its seed is recorded, and the opening comment of
  `programs/stonkfolio-distributor/src/lib.rs` that a seeded round cannot be discarded. The code lets the keeper
  abandon a seeded round after seven days, as `docs/trust-model.md:30` says. The model follows the code:
  `LifecycleRuns.AbandonIff` says exactly when, `LifecycleRuns.SeededRoundDropped` gives a run, and
  `LifecycleRuns.LifecycleHolds` the cost over every run.
- A spend is documented as taking any excess over its bucket from the basket. For the basket bucket itself there is
  nothing more to take, so the ledger falls by `min(cost, basket)`, not by `min(cost, 2 * basket)`;
  `Ledgers.ChargeTakes` states both cases.
- `grossForNet` is documented as what to send so that the net arrives. Eight rounds do not reach every net, at fees the
  program admits too: at 300 bps and 10^15 units, 19 do not arrive (`GrossUp.AdmittedFeeFallsShort`). The program then
  refuses the activation as underfunded, so the transaction fails, is retried the same, and the asset is abandoned
  (`keeper/round/engine.ts:876-892`). `GrossUp.ReachesIff` and `Funding.FundingActivates` say for every fee and net when
  that happens: at 300 bps always from 51 * 10^12 up unless the cap helps, never up to 1.5 * 10^12 nor with a fee already
  at its cap for the net, and by the rounding of the fee in between.
- An asset found active after a crash is to give back whatever the transfer did not need. The keeper grosses the vault's
  funding up under the fee in force at recovery (`keeper/round/engine.ts:865-870`), not the one the tokens were sent
  under, so if the fee has fallen it can credit tokens it no longer has. `EngineRuns.CrashCreditsMoreIff` says exactly
  when, for every vault and fee; `EngineRuns.CrashCreditsNoMore` and `EngineRuns.FallenFeeCreditsMore` are the two sides
  in terms of the fees, `EngineRuns.DroppedFeeCreditsTooMuch` an instance.

## Model

| member | source | states |
|---|---|---|
| MerkleTheorems.BlockSound | programs/stonkfolio-distributor/src/merkle.rs:96-126 | A block of payout leaves accepted against the root of a committed tree is that tree's own block at that place, whatever proof and leaf count are passed |
| MerkleTheorems.BlockComplete | lib/merkle.ts:127-140 | For every tree, every level below 32, above its height too, and every aligned start, the block and its own siblings are accepted and use the proof up |
| MerkleTheorems.BlockIff | programs/stonkfolio-distributor/src/merkle.rs:96-126 | Exactly one block with exactly one proof passes at each aligned place of a committed tree |
| MerkleTheorems.VerifyIff | programs/stonkfolio-distributor/src/merkle.rs:73-76 | A single proof passes exactly for a committed leaf with that leaf's own siblings |
| MerkleTheorems.LevelZeroAgrees | programs/stonkfolio-distributor/src/merkle.rs:73-126 | For an indexed leaf the level-0 block verifier and the single verifier accept the same proofs |
| MerkleTheorems.BlockRoot | programs/stonkfolio-distributor/src/merkle.rs:80-89 | Pairing an aligned block on its own gives the whole tree's node above it, odd nodes included |
| MerkleTheorems.BlockSiblingsFit | programs/stonkfolio-distributor/src/merkle.rs:16-17 | Trees of up to 65,536 leaves never need more than 16 siblings for any block, within the program's limit of 17 |
| MerkleTheorems.RootIsTreeHash | lib/merkle.ts:99-115 | Level-by-level pairing computes the recursion that splits at the largest power of two below the size, section 2.1 of RFC 6962 |
| Merkle.PairsUnordered | programs/stonkfolio-distributor/src/merkle.rs:68-71 | Two pair hashes are equal exactly when their parts are, in either order |
| Merkle.BlockProvesLeaf | programs/stonkfolio-distributor/src/merkle.rs:73-126 | Whatever the root, an accepted block proves each of its leaves to the single verifier: the leaf's siblings within the block, then the block's proof, within the program's limit |
| MerkleTrees.BuildTree | lib/merkle.ts:99-111 | Refuses only the empty list; otherwise every level pairs up the one before it down to one node |
| MerkleTrees.MerkleTree.Root | lib/merkle.ts:113-115 | The last level's node is the root of the leaves |
| MerkleTrees.MerkleTree.BlockProof | lib/merkle.ts:127-140 | Gives a proof exactly for aligned starts inside the tree, and it is the siblings on the way up |
| MerkleTrees.MerkleTree.Proof | lib/merkle.ts:117-120 | Gives a proof exactly for indices in range, and the single verifier accepts it |
| MerkleTrees.VerifyBlock | programs/stonkfolio-distributor/src/merkle.rs:96-126 | The two loops decide the recursive verifier |
| Bits.ClaimsOne | programs/stonkfolio-distributor/src/state.rs:192-198 | Setting a leaf's bit sets it and no other leaf's |
| Bits.MarksOne | programs/stonkfolio-distributor/src/state.rs:152-156 | Marking one asset in a mask marks no other |
| PayoutSafety.StepKeepsInv | programs/stonkfolio-distributor/src/instructions/payout.rs:20-87 | Every instruction, by anyone, keeps the payout invariant |
| PayoutSafety.PushPayoutsKeepsInv | programs/stonkfolio-distributor/src/instructions/payout.rs:153-246 | So does a batched push |
| PayoutSafety.ReachableInv | programs/stonkfolio-distributor/src/instructions/open_asset.rs:24-98 | In every reachable state each asset was opened as one its round committed, its bits mark exactly the leaves paid, each at most once, `claimed` is their sum, and an active vault covers the rest; and no asset, live or closed, was ever paid more than its committed allocation or anything but leaves under its committed root |
| PayoutTheorems.StepPaysRecipients | programs/stonkfolio-distributor/src/instructions/payout.rs:53-65 | Whatever a step pays goes to an account its proved recipient owns, the canonical one unless the recipient signed a claim into another, and never to the vault |
| PayoutTheorems.OwedLeavesOnlyAsPayouts | programs/stonkfolio-distributor/src/instructions/sweep_excess.rs:28-46 | Before expiry `claimed` grows by exactly the payouts a step makes of the asset and its vault loses no more than those; only a sweep of that asset takes more, and leaves exactly what is owed |
| PayoutTheorems.BatchRefinesSingles | programs/stonkfolio-distributor/src/instructions/payout.rs:176-245 | In every reachable state and whatever the asset's root, a successful batch leaves the chain exactly as single pushes of its unpaid leaves in leaf order would, each with a proof made from the batch's own |
| PayoutTheorems.ResendChangesNothing | programs/stonkfolio-distributor/src/instructions/payout.rs:221-225 | Sending a successful batch again succeeds and changes nothing |
| PayoutTheorems.PlanIsThePushes | programs/stonkfolio-distributor/src/instructions/payout.rs:176-210 | The plan is exactly the block's Push leaves in order, each with the destination passed for it |
| PayoutTheorems.SweepReturnsExcess | programs/stonkfolio-distributor/src/instructions/sweep_excess.rs:28-46 | Whenever a sweep succeeds the vault keeps exactly what is owed, the authority's own account gains the excess less the fee, and nothing else on chain changes |
| PayoutTheorems.CloseReturnsRest | programs/stonkfolio-distributor/src/instructions/close_asset.rs:49-70 | Whenever a close succeeds the vault and the asset are gone, what the vault held is in the authority's own account less the fee, only this asset's closed bit is added, and no other account changes |
| Handlers.Program.OpenAsset | programs/stonkfolio-distributor/src/instructions/open_asset.rs:19-106 | Opens an asset once and never again, only as a tuple its round committed to and with nothing claimed, or fails at the first check broken and changes nothing; keeps the payout invariant |
| Handlers.Program.ActivateAsset | programs/stonkfolio-distributor/src/instructions/activate_asset.rs:8-33 | Activates only an asset whose vault covers the whole allocation, changing nothing but its status and measured funding, or fails and changes nothing; keeps the payout invariant |
| Handlers.Program.SweepExcess | programs/stonkfolio-distributor/src/instructions/sweep_excess.rs:10-55 | Moves exactly what the vault holds beyond the allocation not yet claimed into the authority's own account of the mint, less the mint's fee, and touches no other account, or fails and changes nothing; keeps the payout invariant |
| Handlers.Program.CloseAsset | programs/stonkfolio-distributor/src/instructions/close_asset.rs:13-83 | After expiry moves all that is left in the vault into the authority's own account, less the mint's fee, removes the vault and the asset, adds that asset's bit alone to the closed mask and touches no other account, or fails and changes nothing; keeps the payout invariant |
| Handlers.Program.ProcessPayout | programs/stonkfolio-distributor/src/instructions/payout.rs:20-87 | Pays one leaf under every check, a self-claim only for the recipient's signature, or fails and undoes the marking; keeps the payout invariant |
| Handlers.Program.PushBlock | programs/stonkfolio-distributor/src/instructions/payout.rs:153-246 | Pays a block's unpaid leaves under one proof, or fails and undoes them all; keeps the payout invariant |
| Committed.PaidAsCommitted | programs/stonkfolio-distributor/src/instructions/payout.rs:36-45 | In every reachable state each payout of an asset opened with a list of leaves is one of them, in its amount and to its recipient, and all of them together sum to the leaves paid and no more than the list: after the asset is closed too |
| Committed.ClaimedIsSetBits | programs/stonkfolio-distributor/src/instructions/payout.rs:47-68 | `claimed` is the sum of the committed amounts whose bits are set, leaves room for every other leaf, and is all of them once every bit is set |
| EndToEnd.AllocationIsPayable | keeper/round/allocate.ts:199-226 | Whatever `allocate` returns, with u64 amounts, is payable: full totals, dense positive leaves, at most 30 assets |
| EndToEnd.AllocationBuilds | keeper/round/trees.ts:17-48 | Every payable allocation builds, and the trees hold exactly its leaves and totals |
| EndToEnd.AllocationOpens | programs/stonkfolio-distributor/src/instructions/open_asset.rs:24-66 | Committed on chain, each of its assets opens with its own proof, in any order, until it expires |
| EndToEnd.OpenedAsCommitted | programs/stonkfolio-distributor/src/instructions/open_asset.rs:41-55 | Whoever opened it, and whether or not it was closed since, an asset was opened with the committed root, total, mint and leaf count |
| EndToEnd.AllocationPays | keeper/round/allocate.ts:210-226 | After any run everything ever paid from the round's assets, live or closed, is leaves of the allocation, each once and to its recipient; per asset they sum to the leaves paid and never more than was allocated; nothing is paid from an asset the allocation lacks |
| EndToEnd.AllocationClaims | programs/stonkfolio-distributor/src/state.rs:192-198 | And while an asset's account is there its bits are exactly the leaves paid, `claimed` is their sum, and with every bit set it is the whole allocation |
| EndToEnd.AllocationLeafPays | programs/stonkfolio-distributor/src/instructions/payout.rs:36-48 | After any run every leaf not yet paid passes every check and is paid, whatever was paid before it |
| BlockPayouts.BlockPays | keeper/distributor/client.ts:433-469 | In every reachable state before expiry the keeper's block of an active asset is accepted, and every leaf asked for is claimed after it, whatever was paid before |
| BlockPayouts.AllocationBlockPays | programs/stonkfolio-distributor/src/instructions/payout.rs:153-246 | After any run any aligned block of a committed allocation whose recipients can be paid is accepted and pays them |
| BlockPayouts.VisitPays | keeper/round/engine.ts:1016-1036 | Every transaction a paying step sends for such an asset is accepted by the program and pays all it was sent to pay |
| SlotHashes.FindSeedInBytes | programs/stonkfolio-distributor/src/slot_hashes.rs:23-50 | The scan over the bytes is the lookup over the parsed entries, refusals included |
| SlotHashes.ParseEncoded | programs/stonkfolio-distributor/src/slot_hashes.rs:23-33 | What the runtime writes is read back entry by entry |
| SlotHashes.TruncatedRefused | programs/stonkfolio-distributor/src/slot_hashes.rs:24-30 | Data cut short anywhere is refused |
| SlotHashes.FoundIsFirst | programs/stonkfolio-distributor/src/slot_hashes.rs:35-46 | Every Found answer is the first produced slot at or after the target, for any window of any history |
| SlotHashes.SeedIsUnique | programs/stonkfolio-distributor/src/slot_hashes.rs:1-3 | Any two windows that find a seed find the same one |
| SlotHashes.AnswersAdvance | programs/stonkfolio-distributor/src/slot_hashes.rs:35-49 | As the window slides the answer only moves from NotYet to Found to Expired |
| SlotHashes.ExpiredIff | programs/stonkfolio-distributor/src/slot_hashes.rs:44-49 | A seed is expired exactly when its slot, or the slot before it if the target was skipped, has left the window |
| LifecycleRuns.AbandonIff | programs/stonkfolio-distributor/src/state.rs:78-87 | A round is abandoned exactly by its authority, while it is the next one, and for one of three reasons: its window is open; its seed is expired and a day has passed since the close; a week has passed since it was seeded |
| LifecycleRuns.SeededDropsAfterAWeek | programs/stonkfolio-distributor/src/instructions/round_intent.rs:145-185 | In every reachable state a seeded round can be discarded by its authority once a week has passed |
| LifecycleRuns.SeededRoundDropped | programs/stonkfolio-distributor/src/instructions/round_intent.rs:145-185 | A run from a distributor's creation that opens, closes and seeds a round, after which it is abandoned |
| LifecycleRuns.LifecycleHolds | programs/stonkfolio-distributor/src/instructions/round_intent.rs:145-185 | Over every run: one settled intent for each used id and at most one in progress, a header exactly for each committed one, ids count commits and abandons, windows and seeds obey their rules, every seed's slot comes after its window's close, and discarded draws cost a day or a week each |
| LifecycleRuns.RunWritesOnce | programs/stonkfolio-distributor/src/instructions/round_intent.rs:93-131 | Commitment, window, price, chain head and seed are written once, and a settled round never changes |
| LifecycleRuns.ExpiredAbandonLosesNothing | programs/stonkfolio-distributor/src/instructions/round_intent.rs:156-175 | A round abandoned for an expired seed could not have recorded one then or later |
| LifecycleRuns.SeedIsNobodysChoice | programs/stonkfolio-distributor/src/instructions/round_intent.rs:115-143 | From a closed window on, whatever else happens, whoever records the seed and whenever, the same slot and hash are recorded: the first produced at or after the target |
| LifecycleRuns.SeedsAreDrawn | programs/stonkfolio-distributor/src/instructions/round_intent.rs:115-143 | Over every run whose sysvar shows one history, each recorded seed is the first slot that history produced at or after its target, with that slot's hash |
| Provenance.EverythingWasGiven | programs/stonkfolio-distributor/src/instructions/round_intent.rs:30-143 | Over every run from creation each field of each intent and header is what some accepted instruction of the run gave, signed by the authority of that moment where one must sign, at that moment's slot and time; the authority is the creator, or accepted an office that its holder offered |
| Provenance.StepRecords | programs/stonkfolio-distributor/src/instructions/commit_round.rs:57-77 | An accepted instruction records exactly what it was given: a header its root, artifact hash, asset count, freeze mask, expiry and times, over the window its intent recorded |
| SamplingHandlers.CreateDistributor | programs/stonkfolio-distributor/src/instructions/distributor.rs:26-73 | Creates a distributor in its starting state exactly for the configurations it accepts |
| SamplingHandlers.SamplingProgram.OpenRound | programs/stonkfolio-distributor/src/instructions/round_intent.rs:30-56 | Opens the next round's intent for the authority with the given commitment at that moment's slot and time, or fails and changes nothing; keeps the lifecycle invariant |
| SamplingHandlers.SamplingProgram.CloseWindow | programs/stonkfolio-distributor/src/instructions/round_intent.rs:58-113 | Closes only the round in progress, after the minimum window and on a price neither stale, future nor wide, recording the chain head, count, price, slot and time it was given, or fails at the first check broken and changes nothing; keeps the lifecycle invariant |
| SamplingHandlers.SamplingProgram.RecordSeed | programs/stonkfolio-distributor/src/instructions/round_intent.rs:115-143 | Records the slot and hash that the sysvar's bytes answer, at that moment's time, for anyone, or fails and changes nothing; keeps the lifecycle invariant |
| SamplingHandlers.SamplingProgram.AbandonRound | programs/stonkfolio-distributor/src/instructions/round_intent.rs:145-185 | Abandons for one of the three reasons and counts it, or fails and changes nothing; keeps the lifecycle invariant |
| SamplingHandlers.SamplingProgram.CommitRound | programs/stonkfolio-distributor/src/instructions/commit_round.rs:21-87 | Adds one header, for the round in progress, once its seed is drawn and its secret shown, with the root, artifact hash, counts, masks, expiry and window it stands for, so that headers number the commits; or fails at the first check broken and changes nothing; keeps the lifecycle invariant |
| SamplingHandlers.CommitStartsRound | programs/stonkfolio-distributor/src/instructions/commit_round.rs:57-77 | A commit hands payouts a round that is new to them, unopened and not yet expired |
| ProgramRuns.CommitOnChain | programs/stonkfolio-distributor/src/instructions/commit_round.rs:21-87 | A commit settles the intent and starts the round payouts read, with the committed root, or fails and changes neither; both invariants and the link between them are kept |
| ProgramRuns.ProgramHolds | programs/stonkfolio-distributor/src/lib.rs:40-121 | Over every run of sampling, commits, payouts and hand-overs together both invariants hold, and the payout side's rounds of a distributor are exactly its committed headers, under its current authority |
| ProgramRuns.EveryPayoutIsBacked | programs/stonkfolio-distributor/src/instructions/commit_round.rs:30-66 | Nothing is ever paid from a round unless its window was long enough, its seed's slot came after the close and its header was committed; only leaves under that header's root, per asset at most its allocation |
| ProgramRuns.EveryPayoutIsDrawn | programs/stonkfolio-distributor/src/instructions/round_intent.rs:115-143 | And where the sysvar shows one history, the seed behind every payout is the first slot produced at or after its target |
| Sorting.SortForgetsOrder | keeper/round/allocate.ts:191-193 | Without ties a sort gives the same list for any order of its input |
| Apportionment.Apportion | keeper/round/allocate.ts:161-176 | The loop returns an apportionment: the whole total, floors or one more, extra units by remainder |
| Apportionment.ApportionmentIff | keeper/round/allocate.ts:161-176 | What is returned is the one apportionment of the whole total with everyone's floor or one more, the extra units to the largest remainders, ties to the lower key, never to a zero remainder |
| Allocation.ShareOut | keeper/round/allocate.ts:178-227 | The drop loop and its counters; what it pays out it pays in full, in dense positive leaves within the cap |
| Allocation.TruncateKeepsTop | keeper/round/allocate.ts:189-197 | Truncation keeps exactly the cap's worth of highest ranked holders, in key order |
| Allocation.RankMonotone | keeper/round/allocate.ts:161-176 | Whoever outranks a holder by weight, then by key, is given at least as much |
| Allocation.DropPassKeepsTop | keeper/round/allocate.ts:201-207 | A pass keeps a top part of the ranking |
| Allocation.SurvivorLosesAtMostOne | keeper/round/allocate.ts:201-207 | Redistribution costs a survivor at most one unit |
| Allocation.SettlePasses | keeper/round/allocate.ts:199-208 | What is left is what some number of passes leave, each of which dropped someone, and stopping short of the limit means nobody is below the minimum |
| Allocation.OutrankingIsPaid | keeper/round/allocate.ts:187-213 | Everyone who outranks a paid holder is paid, and at least as much |
| Allocation.MinimumHolds | keeper/round/allocate.ts:200-208 | A leaf below the minimum means every pass allowed was made and each dropped someone, so with as many passes as holders there is none; and everyone eligible is truncated, dropped or kept |
| Allocation.PaidInFull | keeper/round/allocate.ts:210-226 | An asset is paid out in full with no dust, in positive leaves numbered without gaps, one a holder and within the cap; it is skipped only when no recipient is left |
| RoundAllocator.ComputeHolders | keeper/round/allocate.ts:88-153 | The row loops and maps compute the table: from the snapshots' rows alone, exactly the owners seen and not excluded, each with the floor of its average over all snapshots, that average's value at the median price, and eligible exactly when the average is positive and worth the minimum |
| RoundAllocator.AllocateRound | keeper/round/allocate.ts:229-253 | The loop over assets, errors included; in every result each asset is dealt out over the eligible holders, deal by deal down to those who reach the minimum, and listed in full or skipped accordingly, in order and one asset a mint |
| Holders.AllocateForgetsOrder | keeper/round/allocate.ts:100-150 | The same allocation, or the same refusal, for any order of the snapshots and of the rows in each |
| HolderLaws.EveryTableHolds | keeper/round/allocate.ts:98-150 | For every input the table says of the rows what `twab * n <= total < (twab + 1) * n`, eligibility, the list of holders, the exclusions with their reasons and the median should say, without mention of how it was made |
| HolderLaws.RecipientsHeld | keeper/round/allocate.ts:110-121 | Nobody excluded or off-curve is ever paid: every recipient was seen, held a positive average worth the minimum at the median price, and is in the table |
| Holders.MedianIsMiddle | keeper/round/allocate.ts:41-49 | The price used is an observed one with at most half of the others below and at most half above |
| Holders.AllocationPaysOut | keeper/round/allocate.ts:245-252 | Every listed asset is paid out to the last unit under a dense index, one asset a mint, and every input asset is listed or skipped |
| Holders.AllocationIsFair | keeper/round/allocate.ts:187-213 | From the snapshots on: wherever an eligible holder is paid, everyone eligible with a higher average, or the same under a lower key, is paid at least as much |
| Holders.OnlyEligiblePaid | keeper/round/allocate.ts:240-252 | Every recipient is an eligible holder of the round's table |
| Holders.RoundMinimumHolds | keeper/round/allocate.ts:200-208 | A leaf of a round below its asset's minimum means every pass allowed was made and dropped someone, and there are more eligible holders than passes |
| ShareLaws.EveryShareHolds | keeper/round/allocate.ts:178-227 | Every asset is dealt out from the highest ranked holders the cap has room for, each next deal among exactly those whose apportioned amount reached the minimum, until all reach it or passes run out; its leaves are exactly the last deal's positive amounts, and it is skipped exactly when nothing is allocatable or the last deal is among nobody |
| ShareLaws.EveryRoundHolds | keeper/round/allocate.ts:240-253 | In every round each input asset is so dealt among exactly the table's eligible holders, weighted by their averages, and is listed or skipped with its reason, the listed ones in the order they came |
| ShareLaws.SkippedIsScarce | keeper/round/allocate.ts:201-213 | An asset skipped although someone is eligible held less than the minimum for each of those it was last dealt to |
| Sampling.Sha256Rng.NextU64 | lib/rng.ts:18-31 | Draws are the 64-bit words of the block stream in order, none skipped or repeated |
| Sampling.Sha256Rng.Below | lib/rng.ts:34-41 | The draw is the first word below the limit, reduced; only bounds out of range are refused |
| Sampling.EqualShares | lib/rng.ts:36-39 | Every outcome is reached by equally many accepted words |
| Sampling.ShuffleStep | lib/rng.ts:45-52 | The last position gets the item its draw names, and the rest is shuffled on after that swap |
| Sampling.Shuffled | lib/rng.ts:45-52 | The array loop is the shuffle of the draws, one below each position from the last down |
| Sampling.ShuffleIsInjective | lib/rng.ts:45-52 | Different draws give different orders of distinct items |
| Sampling.ShuffleIsSurjective | lib/rng.ts:45-52 | Every order is given by some draws |
| SampleSelection.SelectSampleIndices | keeper/round/select.ts:34-43 | With more than k candidates inside, returns the first k of the shuffle of the window, in slot order, by the stream's own accepted draws; with no more, all of them; refuses a bad count, window or repeated index |
| SampleSelection.SelectionHolds | keeper/round/select.ts:29-43 | k distinct candidates inside the window, or all there are, in slot order |
| SampleSelection.SelectionForgetsOrder | keeper/round/select.ts:39-42 | The order the candidates are listed in does not matter |
| SampleSelection.SelectionIsDrawn | keeper/round/select.ts:38-43 | For every seed the selection is that one, each draw the next accepted word of the seed's stream reduced below its position |
| SampleChances.NoneIsFavoured | keeper/round/select.ts:41 | Any k of the candidates inside are selected by some draws, and by as many as any other k are |
| SampleChances.EqualChances | keeper/round/select.ts:41 | The draws that select one choice of k can be matched one to one with those that select another |
| Ledgers.SplitByBps | keeper/feeSplit.ts:26-35 | Nothing lost: all but the last share get their floor, the last the rest, less than one unit a share above its own floor |
| Ledgers.CreditConserves | keeper/feeSplit.ts:45-56 | A claim's credit adds up to what was received and shrinks no bucket |
| Ledgers.CreditSharesOut | keeper/feeSplit.ts:45-56 | Each bucket gains its own share of the claim rounded down, and the basket what is left |
| Ledgers.ChargeTakes | keeper/coin.ts:193-196 | A spend lowers the ledger by its cost or by all its bucket and the basket hold, and touches nothing else |
| Ledgers.ReconcileSettles | keeper/round/operations.ts:72-79 | Settling a reserve that is fully held frees exactly it and charges what was spent |
| Journal.CoinKeeper.Send | keeper/coin.ts:168-174 | An action is in the state file before it is sent, a transaction is handed over only while it is in the file, and a crash in between leaves it recorded and unsent |
| Journal.CoinKeeper.IsPending | keeper/coin.ts:177-179 | Finds an action exactly when one with that label is still in flight |
| Journal.CoinKeeper.SettlePending | keeper/coin.ts:210-239 | However much the chain has moved on, a pass applies the replies and saves once, or crashes and changes nothing; the ledger after it is the one before with each landed action's booking applied once, in order; it keeps what every run keeps and leaves what rounds have set aside alone |
| Journal.SettleEffect | keeper/coin.ts:215-238 | A pass removes exactly the actions whose fate is known and books exactly the landed ones |
| Journal.BookedExactlyOnce | keeper/coin.ts:210-239 | With crashes anywhere between saves, only recorded transactions are sent, one that lands is booked once or still pending, and a dead one never |
| Journal.PassBooksLanded | keeper/coin.ts:218-236 | A completed pass that is told of a landing books it |
| Journal.PassFollows | keeper/coin.ts:218-236 | The ledger moves through exactly the bookings of the landed actions of a pass, each a claim shared out over the buckets or a cost taken from its own bucket and then the basket |
| Journal.BookedIsOne | keeper/coin.ts:220-229 | What booking an action must do to the ledger determines the ledger after it |
| Bookings.LedgerIsAccounted | keeper/coin.ts:210-239 | Over every run, crashes included, the ledger is the first one with exactly the booked landings entered into it, each once, for what it was recorded for and with what it did to the wallet, and the bookings made outside the journal |
| Bookings.AccountTotals | keeper/coin.ts:193-229 | So the buckets together are what they held at first plus what those entries brought in, less what they took |
| Journal.BookingConserves | keeper/coin.ts:223-229 | What booking a claim or a spend does to the ledger's total |
| Journal.PassKeepsBuckets | keeper/coin.ts:193-196 | No pass makes a bucket negative or touches the operations bucket, which no spend outside rounds names |
| KeeperRuns.KeeperHolds | keeper/coin.ts:96-130 | However round steps, settling passes, crashes and charges interleave on one state file, the operations bucket is the sum of the reserves, no bucket is negative, each landing is booked once or still pending, and no token goes missing |
| KeeperRuns.KeeperTotals | keeper/coin.ts:96-130 | And over all of it the buckets, less the costs rounds have yet to settle, change by exactly what landed claims brought in less what spends, charges and rounds cost, as far as the buckets held it |
| GrossUp.GrossForNet | keeper/distributor/client.ts:392-400 | Returns the first guess that delivers under the fee its own round reads, or the eighth; never more than any gross that delivers under all of them; under one fee it delivers, and is then the least gross that does, exactly when `Reaches` holds |
| GrossUp.ReachesIff | keeper/distributor/client.ts:392-400 | For every fee and net: what is returned delivers if and only if eight rounds leave nothing of the exact fee missing, or no more than the cap forgives; and the amount returned without running them |
| GrossUp.ReachesUpTo | keeper/distributor/client.ts:392-400 | The same as a limit on the exact fee that depends on the rate and the rounding only |
| GrossUp.CapReached | keeper/distributor/client.ts:392-400 | A fee already at its cap for the net is reached in one round, whatever the net |
| GrossUp.EightRoundsReach | keeper/distributor/client.ts:392-400 | For fees up to 300 bps and nets up to 1.5 * 10^12 the result always is the least gross |
| GrossUp.LargeNetsFallShort | keeper/distributor/client.ts:392-400 | At 300 bps no net from 51 * 10^12 up is reached unless the cap helps |
| GrossUp.AdmittedFeeFallsShort | programs/stonkfolio-distributor/src/token_utils.rs:141 | At 300 bps, which the program admits, and a net of 10^15 the result is 1,030,927,835,051,527 and 19 units do not arrive |
| RoundEngines.RoundEngine.Select | keeper/round/engine.ts:494-523 | Sets the round's costs aside and splits the rest over distinct coins; keeps the reserve sum and each mint's holdings but for the step's flow |
| RoundEngines.RoundEngine.Settle | keeper/round/engine.ts:607-660 | Books an attempt's cost and credits what arrived; keeps the reserve sum and each mint's holdings but for the step's flow |
| RoundEngines.RoundEngine.Reserve | keeper/round/engine.ts:682-722 | Moves vetted holdings from inventory into reservations; keeps the reserve sum and each mint's holdings but for the step's flow |
| RoundEngines.RoundEngine.CommitRound | keeper/round/engine.ts:799-838 | Releases what the allocation left out and moves the round to paying, or finishes it; keeps the reserve sum and each mint's holdings but for the step's flow |
| RoundEngines.RoundEngine.ActivateAssets | keeper/round/engine.ts:854-902 | Activates at most one asset a step, releases or postpones one that fails, and returns leftovers; keeps the reserve sum and each mint's holdings but for the step's flow |
| RoundEngines.RoundEngine.FinishRound | keeper/round/engine.ts:1070-1082 | Releases what never activated, settles the reserve and drops the round; keeps the reserve sum and each mint's holdings but for the step's flow |
| RoundEngines.RoundEngine.CloseAsset | keeper/round/engine.ts:1096-1117 | Books an expired asset's leftovers and rent, or postpones it; keeps the reserve sum and each mint's holdings but for the step's flow |
| RoundEngines.RoundEngine.Open | keeper/round/engine.ts:291-319 | Saves the round before its opening is sent; keeps the reserve sum and each mint's holdings but for the step's flow |
| EngineRuns.BudgetFits | keeper/round/engine.ts:499-512 | Reserve and budget times coins never exceed the pot |
| EngineFates.SelectSplits | keeper/round/engine.ts:499-521 | Coins are bought if and only if the pot less the round's costs gives each more than its swap's overhead; then the costs are set aside, every coin gets the same, and less than a unit a coin stays over |
| EngineLaws.DeduplicateHolds | keeper/round/engine.ts:497-498 | Each selected coin once, as its first candidate has it |
| EngineLaws.PurchaseSettles | keeper/round/engine.ts:627-660 | A purchase is bought exactly when tokens arrived and given up exactly when refused or out of attempts; swaps landed unseen are looked for at most five times; a failed attempt leaves nothing booked on it |
| EngineLaws.BuyingEnds | keeper/round/engine.ts:627-660 | However swaps turn out, a purchase settles within its attempts and five checks |
| EngineLaws.ReserveHolds | keeper/round/engine.ts:693-719 | A holding is reserved if and only if it is considered, there is something of it, it passed vetting and there was room among thirty; all of it is, and once |
| EngineFates.ReleaseHolds | keeper/round/engine.ts:724-727 | Exactly the reservations to be let go are released, and each unspent one goes back to inventory in full |
| EngineFates.CommitFates | keeper/round/engine.ts:823-838 | A commit releases exactly what the allocation left out, and the round goes on as committed with every asset of its trees tracked under its index |
| EngineFates.FinishFates | keeper/round/engine.ts:1070-1082 | A finished round's unspent reservations are back in inventory, and no other round is touched |
| EngineFates.ActivateFates | keeper/round/engine.ts:854-902 | A step tries at most one asset and leaves the others as they were or as the chain has them; the round starts paying if and only if no asset of its trees is still to be activated |
| EngineLaws.ActivationFates | keeper/round/engine.ts:862-896 | An asset activates exactly when the chain has it active or took it; only refusals count against it, and it is abandoned exactly at the last one allowed |
| EngineLaws.BackoffDoubles | keeper/round/engine.ts:894 | Waits double from a minute and stop growing at six hours |
| EngineFates.StepOwes | keeper/round/engine.ts:1096-1117 | A committed asset is tracked until a step closes it or finds it closed |
| EngineLaws.StepCosts | keeper/round/engine.ts:178-184 | Every lamport a step's own transactions cost is charged once, to the buckets or to a round yet to be settled |
| EngineLaws.RunCosts | keeper/round/engine.ts:186-195 | And so over every run of steps |
| EngineRuns.FinishKeepsInv | keeper/round/operations.ts:72-79 | Settling never clips a reserve and leaves every other round's in place |
| EngineRuns.StepKeepsInv | keeper/round/engine.ts:178-184 | After every step and the mid-step save the operations bucket is the sum of the outstanding reserves, rounds have distinct ids, and no bucket is negative |
| EngineRuns.StepConserves | keeper/round/engine.ts:724-727 | Per mint, inventory and pending reservations change only by what buying and closing bring in and vaults are sent |
| EngineRuns.BooksBalance | keeper/round/engine.ts:186-195 | Both over every run, whatever order the steps come in |
| EngineRuns.FreshStateHolds | keeper/state.ts:205-208 | A fresh state file satisfies the invariant and holds nothing |
| EngineRuns.CrashCreditsNoMore | keeper/round/engine.ts:865-870 | An asset found active after a crash credits back no more than was left over, if the fee is nowhere lower than when its tokens were sent |
| EngineRuns.FallenFeeCreditsMore | keeper/round/engine.ts:865-870 | It always credits more than was left over if the vault holds what arrived and nothing else and the fee on what was sent has fallen |
| EngineRuns.CrashCreditsMoreIff | keeper/round/engine.ts:865-870 | For every vault, earlier balances and donations included, and every fee at recovery: more is credited than was left over if and only if the gross-up of what the vault was measured to hold comes out below what was sent; where it reaches, if and only if one unit less than was sent would deliver as much, and that suffices where it does not |
| EngineRuns.DroppedFeeCreditsTooMuch | keeper/round/engine.ts:865-870 | A 3% fee dropped before the recovery credits 30,928 units when nothing was left over |
| EngineRuns.TransferFunds | keeper/distributor/client.ts:363-378 | For every fee, need and balance: what is sent funds the vault if and only if nothing was missing or the gross-up reaches what was |
| Funding.FundingActivates | keeper/distributor/client.ts:363-389 | What the keeper sends activates the asset in the program if and only if nothing was missing or the gross-up reaches what was; otherwise the program refuses it as underfunded |
| EngineInvariants.ActivateEachConserves | keeper/round/engine.ts:858-897 | The activation loop loses exactly the tokens that were sent |
| PushPhase.BlockAdvances | keeper/round/engine.ts:1006-1068 | Halving and retrying send or record every planned leaf of the block unless paused, and touch no other |
| PushPhase.BlockVisits | keeper/round/engine.ts:1028-1034 | Halving and retrying an aligned block send only aligned blocks of the shape the program accepts |
| PushPhase.CompleteIff | keeper/round/engine.ts:922-949 | A step finds nothing to push or wait for exactly when every leaf of the active assets is claimed or left for self-claim for good |
| PushProgress.StepDecreases | keeper/round/engine.ts:961-998 | No step loses progress, and an unpaused one that pushes strictly lowers the refusals the open leaves can still take |
| PushProgress.StepVisits | keeper/round/engine.ts:922-953 | Every transaction of a step is a block of its asset's tree whose hashes and siblings the program's check accepts against the root, and pays only leaves open when the step began |
| PushProgress.CompleteIffUsedUp | keeper/round/engine.ts:951 | A step reports completion exactly when the refusals the leaves can still take are used up |
| PushProgress.PushingEnds | keeper/round/engine.ts:1057-1063 | So there are at most as many of them as the attempts that the leaves of the step's assets have to begin with |
| PushFates.EveryStepFates | keeper/round/engine.ts:916-998 | For every step: all due leaves are gathered, or as many as it may push; every leaf sent was gathered and is worth it; it pauses exactly at trouble on the way and otherwise sends every gathered leaf that is worth it; it leaves for self-claim exactly those gathered that are not, and every other record is what the replies to the leaf's own transactions make of it; and it reports what it sent and what landed |
| PushFates.DueIsDealtWith | keeper/round/engine.ts:961-992 | In a step neither paused nor full every due leaf is sent if it is worth it, and left for self-claim and not sent if it is not |
| PushFates.WorthIsNotLeft | keeper/round/engine.ts:1053-1060 | A leaf worth pushing is given up for good only by a refusal of a transaction that carried it alone |
| PushFates.BackoffDoubles | keeper/round/engine.ts:1061 | Waits double from half a minute and stop growing at six hours |
| PushSteps.RoundPusher.Block | keeper/round/engine.ts:1006-1068 | The recursive send, halving and retrying, leaves the same records and sends the same blocks as the function whose progress is proved |
| PushSteps.RoundPusher.Push | keeper/round/engine.ts:916-998 | A whole paying step: only blocks whose shape, hashes and proof the program accepts are sent, it reports completion exactly when no leaf is left open, and it deals with every leaf as `EveryStepFates` says: the worthy sent, the others left, nothing else given up but by refusals |

## Left out

- Keeper engine snapshots, triggers, cost estimates, `shouldAutoPush` and publishing: inputs to the steps, each settled by reading one branch.
- `takeSnapshot`, `buyOne` and the swap wallet's history search: they change no bucket, reservation or inventory; what they find is an input.
- Wallet SOL against the sum of the buckets: fees of failed transactions are not booked and debits clip, so the source does not keep it.
- Inventory across a step whose chain effect and save fall apart: a close that lands without its save is not credited again, and an activation that lands unseen right before expiry is released as if unsent. `EngineRuns.StepConserves` is about steps that save.
- Journal.BookedExactlyOnce: says nothing of how soon a landed transaction is booked, because replies may stay pending as long as the chain does.
- PushPhase.CompleteIff: speaks of the active assets whose accounts were found; an account the chain does not show is passed over, as in the source.
- BlockPayouts.BlockPays: takes the recipients' canonical accounts as there; creating the missing ones comes first in the same transaction.
- LifecycleRuns.LifecycleHolds: states the elapsed time only while the clock is below the i64 limit, where the program's saturating additions are exact.
- EngineRuns.TransferFunds: takes one fee for a gross-up and the transfer it is for; `GrossUp.GrossForNet` says what is returned when the fee changes between rounds.
- Which of several bad rows `computeHolders` names first: one error stands for a negative amount and for a repeated account.
- Vault harvesting of withheld fees and rent refunds at close, decimals, and the mint checks of `token_utils.rs`.
- Base58, canonical JSON, manifests, the process lock, RPC and venue adapters, and the monitor.
