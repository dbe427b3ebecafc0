# Verified model of the wllm engine

wllm serves language models with a paged KV cache and continuous batching. This project models the parts
of it where correctness is hard to see, and proves what they are for:

* **The paged cache and the scheduler.** Requests are admitted, prefilled whole or in chunks, decoded in
  batches, verified speculatively, preempted back to the queue or out to the host, and swapped in again, over
  reference-counted blocks that a hash-chained prefix index shares between sequences. The main theorem,
  `SchedulerRuns.SchedulingIsTransparent`, says that none of it shows: after any arrivals, cancellations and
  steps, every request has a prefix of what decoding its prompt alone, without a cache, would give, and
  is finished exactly when it has all of it. Beside it stand conservation of blocks, refinement of the contiguous
  cache, completion in swap and in recompute mode, bounded slack of admission, the retry loop after running out of
  blocks, what a step and a run return, and the prefill budget.
* **The paged attention kernel.** Four strided warps with online softmax and their merge equal plain softmax
  attention gathered through the block table, and so does the CPU reference with its gathered, cut and repeated tensors.
* **CUDA-graph decoding** does what eager decoding does, but for the slots of its scratch sequences.
* **Beam search**: pruning is optimal, a group ends in time with a best beam, one beam is greedy decoding.
* **Stop strings** and **Q6_K / Q4_0 dequantisation**.

## How it is built

The transformer is a pair of uninterpreted functions (`LanguageModel`): the cache entry of a position, from the
entries before it and its token, and the greedy token, from the entries of everything so far. Nothing else about the network is
used, so the theorems hold for every deterministic one. One position is one entry: the layers and the K and V tensors are
not told apart.

There are two layers. State that the source updates in place is a class here too: `BlockAllocator`, `KvCacheManager`
(`KvCacheManager.dfy`), `Sequence` (`SequenceObjects.dfy`), `Scheduler` (`Scheduler.dfy`), `CudaGraphDecoder` and its static
buffers (`GraphDecoder.dfy`), `BeamGroup`, `StopStringFilter`, and the model's methods that change a cache
(`ForwardPasses.dfy`, `CachedGeneration.dfy`). Every method is proved to take the object's value (`View()`) to the value
a function computes (`PagedKvCache.dfy`, `ModelRunner.dfy`, the `Scheduler*` and `Speculation` modules). The functions carry the invariants, and the
theorems are about them; through the methods' contracts they are about the objects.

| part | files |
|---|---|
| model and generator | `LanguageModel`, `Requests`, `SequenceObjects` |
| cache: values, accounting, content | `PagedKvCache`, `Positions`, `CacheInvariant`, `CacheOperations`, `PrefixReuse`, `PrefixIndex`, `SwapToHost`, `KvCacheManager` |
| model runs over the cache | `ModelRunner`, `BatchedDecode`, `ForwardPasses`, `CachedGeneration` |
| scheduler: state, invariant, steps | `SchedulerState`, `SchedulerSteps`, `SchedulerDecode`, `Speculation`, `SchedulerModel`, `Scheduler` |
| theorems about whole runs | `SchedulerRuns`, `SwapProgress`, `RecomputeProgress`, `Sums`, `AdmissionSlack`, `Overcommit`, `RetryLoop`, `ChunkBudget`, `ChunkedRoom`, `Departed`, `StepReturns`, `DraftCap` |
| the other cores | `PagedAttention`, `GraphDecode`, `GraphDecoder`, `BeamSearch`, `StopStrings`, `Dequantize` |

Terms: *sound* (`CacheInvariant.Sound`) is the accounting of blocks: counts equal holders, the free list is exactly the blocks of
count zero, a block in two tables is in the prefix index. *Faithful* is the content: every table reads
the contiguous cache of its tokens, and every indexed block is filed under the prefix it holds. `Inv` (`SchedulerState.dfy`) is the scheduler's
invariant, with both in it. A request is *on track* when its output is the greedy continuation so far and it is finished exactly if that
stops. `Reference` is the greedy continuation cut at the first end or stop token or at `max_new_tokens`. `ok == false`, or
`None`, is the source's out-of-memory `RuntimeError`.

## What the code does not do

Some of what the repository says about itself does not hold of its code. The model follows the code; each point is a theorem below.

* The pledge of a request past its prefill is not what it may still take from the free list. It is one block short exactly if its cached tokens
  end at a block boundary and the last tokens it may cache (all but the last one it generates) do not, one block too many
  exactly the other way round, and right otherwise (`AdmissionSlack.PledgeExactness`,
  `AdmissionSlack.PledgesAgainstNeeds`). So requests that were admitted can be preempted
  without any outside pressure (`Overcommit.AdmissionOvercommits`). Without speculation a decode preempts somebody exactly if more of its requests
  have filled their last block than blocks are free (`RetryLoop.DecodeWorkPreemptsIff`); how much admission overcommits is bounded (`AdmissionSlack.SlackIsBounded`).
* A draft may be longer than what its request may still generate. In recompute mode a request that fits alone can then be preempted, drafted for and preempted
  again in every second step, however long it runs (`DraftCap.DraftLoops`): verifying needs blocks for the whole draft (`DraftCap.LoneDraftFits`).
  With drafts of at most M-O tokens a lone request that fits completes (`DraftCap.LoneCompletes`).
* A chunked prefill can run out of blocks in the middle of its prompt, which nothing catches. A step raises exactly if the
  prompt in flight lacks blocks for its next chunk (`ChunkedRoom.StepRaisesIff`), and a run of three steps gets there (`ChunkedRoom.ChunkedPrefillRunsOut`).
* A swapped-out sequence comes back only if its table had no spare block, or a single block and no token
  (`SwapToHost.SwapRoundTrip`). A rollback leaves spare blocks behind and so can strand a sequence
  (`SwapToHost.RolledBackReturns`, `SwapToHost.RollbackStrands`). Speculation together with swap is therefore outside the invariant.
* A prefix match compares a block's own tokens, not those before it. A match is right if and only if everybody who holds one of its blocks has, at the same
  place, the whole prefix asked for, unless entries coincide by accident (`PrefixReuse.MatchIsRightIff`). Hash collisions whose last blocks differ do no harm; one whose last blocks
  are equal puts a wrong block into the match (`PrefixReuse.CollisionMatchesWrongBlock`), and without such collisions every match is right (`PrefixReuse.NoCollisionAgrees`).
* A prompt that has been filed is not always found again: blocks already filed under a hash that no longer
  leads to them are not filed anew (`PrefixIndex.FiledPromptIsMatched`). Freeing a sequence keeps exactly the hashes that lead to a block of somebody else
  (`CacheOperations.FreeSequenceIndex`), so a block that stays live and filed loses its hash exactly if the index leads from it to another block that only the freed
  sequence holds (`PrefixIndex.LiveHashLost`, `PrefixIndex.LiveBlockLost`).
* What beams prefill under a scratch id is not reusable afterwards: freeing it takes what it filed out of the index, and even hashes of that prompt that led elsewhere
  before (`CachedGeneration.ScratchPrefill`).
* With exclusive stop strings, what is shown depends on how the text was split into deltas
  (`StopStrings.ExclusiveCutIsIdeal`, `StopStrings.SplitMatchLeaks`). With both kinds, an inclusive stop string wins within a delta, and an
  exclusive one that ended before it is shown (`StopStrings.InclusiveShowsExclusive`).
* A beam group goes on with fewer beams than asked for whenever fewer than that many of its ranked candidates are not stop tokens
  (`BeamSearch.StepKeepsWidth`, `BeamSearch.StopLeavesFewer`).

## Model

| member | source | states |
|---|---|---|
| `SchedulerRuns.SchedulingIsTransparent` | src/wllm/engine/scheduler.py:455-498 | From an empty engine, after any arrivals, cancellations and steps, in every mode (chunked or not, prefix caching, speculation with any drafts, swap or recompute preemption; not swap with speculation): every output is a prefix of the sequential greedy decode cut at its first stop, and all of it exactly when the request is finished |
| `SchedulerRuns.RunsConserve` | src/wllm/engine/scheduler.py:455-498 | After any such run: every count equals the number of running tables naming the block, the free list is exactly the unnamed blocks without duplicates, the cache knows exactly the running and the host exactly the swapped requests, an idle engine has every block free, every resident table reads the contiguous cache with P+O-1 entries when running, and at most one request is mid-prefill |
| `SchedulerRuns.InvIsTransparent` | src/wllm/engine/sequence.py:53-59 | The invariant gives the transparency of every request, wherever it is |
| `SchedulerRuns.InvRefinesCache` | src/wllm/engine/kv_cache.py:245-257 | The invariant gives: reading context_len positions through a running request's block table yields exactly the contiguous cache of its tokens; a RUNNING one has cached P+O-1 |
| `SchedulerRuns.InvConserves` | src/wllm/engine/kv_cache.py:27-54 | The invariant gives the conservation of blocks, in terms of the running list |
| `SchedulerRuns.InitialInv` | src/wllm/engine/kv_cache.py:64-94 | A new engine satisfies the invariant |
| `SchedulerRuns.Perform` | src/wllm/engine/scheduler.py:149-176 | An arrival, a cancellation of any id, or a step keeps the invariant |
| `Departed.FinishedStays` | src/wllm/engine/scheduler.py:492-498 | A request finished after a completed step is out of the lists, and no later step changes it |
| `Departed.StepContained` | src/wllm/engine/scheduler.py:455-498 | A step touches no request outside the lists, and a completed one leaves no finished request running |
| `SwapProgress.SwapModeCompletes` | src/wllm/engine/scheduler.py:500-506 | Swap mode, unchunked, no speculation, every live request fits alone: running for at least as many steps as there are tokens left to generate never raises, empties the engine and serves every live request with its full sequential decode |
| `SwapProgress.EverybodyServed` | src/wllm/engine/scheduler.py:455-506 | The same from an empty engine after any history of arrivals that fit, cancellations and steps |
| `SwapProgress.StepDecreases` | src/wllm/engine/scheduler.py:455-498 | Every step with unfinished requests strictly decreases the sum of M-O over the live requests, whatever it preempts |
| `SwapProgress.StepProgresses` | src/wllm/engine/scheduler.py:455-498 | Such a step does not raise, loses no output of anybody, drops only finished requests from the lists, and gives some request another token |
| `SwapProgress.SomebodyDecodes` | src/wllm/engine/scheduler.py:395-427 | When the batch is everybody on the device, the preempt-and-retry loop ends with somebody decoding |
| `SwapProgress.AloneDecodes` | src/wllm/engine/scheduler.py:395-427 | The last request of a batch, alone on the device, always finds its block |
| `SwapProgress.IdleMeansDone` | src/wllm/engine/scheduler.py:307-324 | With nobody on the device, neither swap-in nor admission can be stuck: nobody is left |
| `SwapProgress.AdmitAdvances` | src/wllm/engine/scheduler.py:192-205 | Admission loses nothing, gives every admitted request a token, and stops only at an empty queue or a head that does not fit |
| `SwapProgress.DecodeActiveAdvances` | src/wllm/engine/scheduler.py:384-434 | Decoding with any number of swap preemptions loses no output; the survivors are the front of the batch, and if there are any somebody gained a token |
| `AdmissionSlack.SlackIsBounded` | src/wllm/engine/scheduler.py:181-205 | Without swap, speculation and prefix caching, in every reachable state, chunked or not: free blocks >= sum over the running of (ceil((P+M)/B) - blocks held) - number running |
| `AdmissionSlack.StepBounded` | src/wllm/engine/scheduler.py:455-498 | A step keeps the bound the slack rests on: running requests, a block less each, fit into the device together |
| `AdmissionSlack.PledgeExactness` | src/wllm/engine/scheduler.py:181-190 | Past its prefill, the pledge against ceil((P+M-1)/B) less the blocks held, which is what the request still takes: one short if and only if (P+O-1) mod B is 0 and (P+M-1) mod B is not, one over if and only if the reverse, equal otherwise |
| `AdmissionSlack.PledgesAgainstNeeds` | src/wllm/engine/scheduler.py:181-190 | In every reachable state without speculation no table exceeds ceil((P+M-1)/B), and every pledge past the prefill is off exactly so |
| `AdmissionSlack.PledgeCovers` | src/wllm/engine/scheduler.py:181-190 | Pledge and blocks held cover the worst case less one block |
| `AdmissionSlack.AdmissionRoom` | src/wllm/engine/scheduler.py:197-200 | A head that passes the admission test fits with its whole worst case beside the others' worst cases less a block each |
| `AdmissionSlack.BlocksSplit` | src/wllm/engine/kv_cache.py:27-54 | Without prefix sharing, free blocks and table lengths add up to all blocks |
| `AdmissionSlack.PledgedIsSum` | src/wllm/engine/scheduler.py:181-190 | The pledge is the sum of its requests' pledges, whatever their order |
| `Overcommit.AdmissionOvercommits` | src/wllm/engine/scheduler.py:192-205 | Three blocks of 16 and two requests of P=16, M=5: the first step admits both, the second preempts one and drops its output |
| `Overcommit.NoRoomForBoth` | src/wllm/engine/kv_cache.py:259-275 | In that engine the two requests cannot both take the block each needs for its next token |
| `RetryLoop.DecodeActiveRetries` | src/wllm/engine/scheduler.py:384-434 | The retry loop: the survivors are a front part of the batch and each gets exactly its one greedy token; the victims are the rest, go to the front of the list preemption uses in their original order, with the effect of preemption and no other; nobody else changes; without speculation every victim's table is tight when it is preempted |
| `RetryLoop.DecodesIff` | src/wllm/engine/scheduler.py:395-427 | An attempt finds room if and only if at most as many of the batch's requests need a block as are free |
| `RetryLoop.PreemptsIff` | src/wllm/engine/scheduler.py:384-434 | Between steps without speculation: the batch decodes whole if and only if at most as many of its requests have P+O-1 divisible by the block size as blocks are free, otherwise at least its last request is off the device |
| `RetryLoop.DecodeWorkPreemptsIff` | src/wllm/engine/scheduler.py:468-489 | So a step's decode part gives every active request its token, or takes somebody off the device, exactly by that count |
| `RetryLoop.ReserveTwice` | src/wllm/engine/kv_cache.py:259-275 | Reserving again without advancing does nothing, whether it succeeded or ran out of blocks |
| `SchedulerDecode.FailureNeverMovesLeft` | src/wllm/engine/scheduler.py:395-427 | Across retries the index at which a batch fails never moves left (no speculation) |
| `SchedulerDecode.DecodeOnceKeeps` | src/wllm/engine/scheduler.py:395-434 | One attempt: every request of the batch gets exactly its next greedy token and the invariant holds; or no request changes, and only a proper front part of the batch has a block reserved ahead |
| `SchedulerDecode.DecodeFailedKeeps` | src/wllm/engine/scheduler.py:421-425 | A failed attempt keeps the invariant, with exactly the rows before the failing one reserved ahead |
| `SchedulerDecode.PreemptKeeps` | src/wllm/engine/scheduler.py:293-305 | Preempting a running request, by recompute or by swap, keeps the invariant |
| `SchedulerModel.RetryKeeps` | src/wllm/engine/scheduler.py:421-425 | After preempting the last of a batch that failed, the loop is where it was, one request shorter; without speculation the victim's table is tight |
| `RecomputeProgress.RecomputeCompletes` | src/wllm/engine/scheduler.py:500-506 | Recompute mode, unchunked, no speculation, every live request fits alone: running for at least as many steps as the rank of the state never raises, empties the engine and serves every live request with its full sequential decode, although preemption throws output away |
| `RecomputeProgress.EverybodyRecomputed` | src/wllm/engine/scheduler.py:455-506 | The same from an empty engine after any history of arrivals that fit, cancellations and steps, within (live + 1) * (2K + 4) steps if no limit exceeds K |
| `RecomputeProgress.StepRanks` | src/wllm/engine/scheduler.py:455-498 | Every step with unfinished requests strictly lowers the rank: fewer live requests, or the oldest running one nearer its end |
| `RecomputeProgress.HeadStays` | src/wllm/engine/scheduler.py:395-427 | The oldest of a batch is not preempted if its next token has its slot or any block is free |
| `RecomputeProgress.HeadSurvives` | src/wllm/engine/scheduler.py:395-427 | Nor if nobody was admitted beside it, nor once it has all its blocks |
| `RecomputeProgress.HeadEvicted` | src/wllm/engine/scheduler.py:293-305 | If it is, the state is nearer to completion all the same: the new oldest has nothing pledged and the queue waits behind the victims |
| `RecomputeProgress.AdmitTakesAll` | src/wllm/engine/scheduler.py:192-205 | Admissions that leave no block free leave nothing pledged |
| `DraftCap.LoneDraftFits` | src/wllm/engine/scheduler.py:338-356 | A request alone on the device: verifying a draft finds room if and only if blocks for P+O+draft tokens are in the device |
| `DraftCap.CappedDraftFits` | src/wllm/engine/scheduler.py:338-356 | So a draft of at most M-O tokens always does, if the request fits at all |
| `DraftCap.DraftLoops` | src/wllm/engine/scheduler.py:338-356 | A request that fits alone, whose first draft does not: in recompute mode, for every number of steps, it is unfinished with at most one token, admitted and evicted in turn |
| `DraftCap.LoneCompletes` | src/wllm/engine/scheduler.py:500-506 | With drafts of at most M-O tokens, a lone request that fits, speculated on or not, completes with its full sequential decode within as many steps as it has tokens left |
| `ChunkBudget.PrefillWorkWrites` | src/wllm/engine/scheduler.py:207-249 | With or without prefix caching, raising or not, a step's prefill work changes at most as many cache slots as it takes from max_prefill_tokens_per_step |
| `ChunkBudget.PrefillWorkAccounts` | src/wllm/engine/scheduler.py:207-249 | Without prefix caching it caches exactly what it takes from the budget |
| `ChunkBudget.InFlightAdvances` | src/wllm/engine/scheduler.py:218-226 | The prompt in flight advances by min(budget, what is left) >= 1 and completes exactly when the budget reaches its end |
| `ChunkBudget.ChunkAccounts` | src/wllm/engine/scheduler.py:251-274 | A chunk caches exactly what it takes from the budget |
| `SchedulerModel.ContinueInFlight` | src/wllm/engine/scheduler.py:221-226 | Continuing keeps the invariant, and if budget is left over nobody is mid-prefill any more, so admission checks never see one |
| `SchedulerModel.AdmitChunked` | src/wllm/engine/scheduler.py:228-247 | Chunked admission, whose every check runs with nobody mid-prefill, keeps the invariant, even when a chunk raises |
| `SchedulerSteps.PrefillChunkKeeps` | src/wllm/engine/scheduler.py:251-274 | A chunk advances its prompt by min(budget, what is left), keeps the invariant even if it raises, and on completion appends the request's first greedy token |
| `SchedulerSteps.StartChunkedKeeps` | src/wllm/engine/scheduler.py:235-243 | Starting a prompt over whatever prefix is cached keeps the invariant |
| `ChunkedRoom.StepRaisesIff` | src/wllm/engine/scheduler.py:455-498 | A step raises if and only if it prefills in chunks and the prompt in flight lacks blocks for its next one |
| `ChunkedRoom.PrefillWorkRaisesIff` | src/wllm/engine/scheduler.py:207-249 | So does its prefill work: admissions never raise, chunked or not |
| `ChunkedRoom.ChunkRaisesIff` | src/wllm/engine/scheduler.py:251-274 | A chunk raises if and only if the blocks up to its end are not in its table or free; otherwise its table gets just those |
| `ChunkedRoom.FreshChunkFits` | src/wllm/engine/scheduler.py:228-247 | The first chunk of a prompt just admitted never raises |
| `ChunkedRoom.ChunkedPrefillRunsOut` | src/wllm/engine/scheduler.py:228-234 | Three blocks of three, three prompt tokens a step, requests of P=3, M=3 and P=5, M=1: both pass admission and the third step raises |
| `SchedulerModel.Step` | src/wllm/engine/scheduler.py:455-498 | A step keeps the invariant, even one that raises |
| `SchedulerModel.RunToCompletion` | src/wllm/engine/scheduler.py:500-506 | So does running to completion |
| `StepReturns.StepReturnsGrown` | src/wllm/engine/scheduler.py:455-498 | In every mode a completed step returns exactly the requests that have more output than before it, each once; theirs is extended, everybody else's is the same or dropped by an eviction, and nobody else finishes |
| `StepReturns.RunReturnsOnce` | src/wllm/engine/scheduler.py:500-506 | A run returns no request twice, only requests that finished during it, and, unless a step raised, all of those |
| `StepReturns.PrefillWorkReports` | src/wllm/engine/scheduler.py:207-249 | Raising or not, the prefill work reports exactly the prompts that got their first token |
| `StepReturns.DecodeWorkReports` | src/wllm/engine/scheduler.py:468-489 | The decode part, drafts and preemptions included, reports exactly who gained a token, out of those not just prefilled |
| `SchedulerModel.TrySwapIn` | src/wllm/engine/scheduler.py:307-324 | Swapping in while the head fits keeps the invariant |
| `SchedulerModel.Admit` | src/wllm/engine/scheduler.py:192-205 | Admitting while the head fits keeps the invariant |
| `SchedulerModel.DecodeActive` | src/wllm/engine/scheduler.py:384-434 | Decoding with retries keeps the invariant |
| `SchedulerModel.SpeculateActive` | src/wllm/engine/scheduler.py:455-498 | Speculating on the requests with a draft keeps the invariant and leaves a regular batch of running requests |
| `SchedulerModel.Retire` | src/wllm/engine/scheduler.py:492-495 | Retiring releases exactly the finished requests and keeps the invariant |
| `SchedulerModel.AvailableFits` | src/wllm/engine/scheduler.py:197-200 | A head that passes the test has as many free blocks as its swap-in or prefill takes |
| `SchedulerSteps.AdmitOneKeeps` | src/wllm/engine/scheduler.py:192-205 | An unchunked admission's own prefill never runs out of blocks, and the request starts with its first greedy token |
| `SchedulerSteps.SwapInOneKeeps` | src/wllm/engine/scheduler.py:321-324 | Swapping in a head that fits keeps the invariant: it never raises, and the request decodes on from its saved cache |
| `SchedulerSteps.FirstTokenKeeps` | src/wllm/engine/scheduler.py:276-288 | A completed prefill with its sampled token keeps content, residency and progress of all requests |
| `SchedulerSteps.CancelKeeps` | src/wllm/engine/scheduler.py:158-176 | Cancelling any id, running, swapped, waiting or unknown, keeps the invariant |
| `SchedulerSteps.AddRequestKeeps` | src/wllm/engine/scheduler.py:149-150 | So does adding a request |
| `Speculation.SpeculateKeeps` | src/wllm/engine/scheduler.py:338-382 | For any draft: one or more tokens of the greedy continuation are appended, finishing where plain decoding would, and the invariant (P+O-1 positions cached, each with the right entry) holds after the rollback; out of memory evicts this request to the front of the queue and touches nobody else |
| `Speculation.AcceptedIsGreedy` | src/wllm/engine/scheduler.py:361-366 | The accepted tokens of any draft are a greedy run |
| `Speculation.AppendUntilDoneOnTrack` | src/wllm/engine/scheduler.py:368-373 | Appending a greedy run until finished keeps the request on track and keeps all of it unless it finishes |
| `Speculation.VerifiedGrows` | src/wllm/engine/scheduler.py:361-373 | 1 <= kept <= accepted, the output grows by exactly the first kept tokens, and a request still running kept them all |
| `Speculation.VerifiedText` | src/wllm/engine/scheduler.py:378-380 | What the rollback leaves cached is a prefix of the new history, all but its last token while running |
| `Speculation.VerifiedCache` | src/wllm/engine/kv_cache.py:176-188 | After the rollback every remaining position holds the entry of that prefix |
| `Requests.AppendOnTrack` | src/wllm/engine/sequence.py:53-59 | Appending the greedy token keeps a request on track and finishes it exactly where plain decoding stops |
| `Requests.OnTrackIsReference` | src/wllm/engine/sequence.py:53-59 | On track: output is a prefix of the reference, equal to it when finished and shorter when not |
| `Requests.ReferenceIsCutGreedy` | src/wllm/models/llama.py:599-610 | The reference is the cache-free generator's text cut at the first end or stop token or at M tokens, and nothing before stops it |
| `LanguageModel.GenerateGreedyNaive` | src/wllm/models/llama.py:599-610 | The cache-free loop returns the prompt and its greedy continuation |
| `LanguageModel.GreedyPrefix` | src/wllm/models/llama.py:599-610 | Greedy decoding can be resumed: its first k tokens do not depend on how many follow |
| `LanguageModel.PredictionsAreNext` | src/wllm/models/llama.py:468-503 | One causal pass over a chunk predicts at every position what a full pass would |
| `LanguageModel.EntriesPrefix` | src/wllm/models/llama.py:468-503 | Entries never depend on later tokens |
| `CacheInvariant.AllocateSound` | src/wllm/engine/kv_cache.py:33-38 | An allocated block was nobody's and is unindexed; accounting is kept |
| `CacheInvariant.FreeBlockSound` | src/wllm/engine/kv_cache.py:110-114 | Dropping a reference keeps the accounting; the block leaves the index exactly at its last reference |
| `CacheInvariant.FreeBlocksSound` | src/wllm/engine/kv_cache.py:116-119 | Releasing a table keeps the accounting; exactly blocks of the table nobody else holds leave the index |
| `CacheInvariant.GrowSound` | src/wllm/engine/kv_cache.py:259-275 | Growing a table takes exactly the missing blocks, none of them indexed, and keeps the accounting, also when it stops for lack of blocks |
| `CacheInvariant.AttachSound` | src/wllm/engine/kv_cache.py:99-108 | A new sequence over referenced blocks keeps the accounting |
| `CacheInvariant.ReshapeIsGather` | src/wllm/engine/kv_cache.py:245-257 | Blocks laid end to end and cut are the positions read one by one through the table |
| `CacheInvariant.GatherGrown` | src/wllm/models/llama.py:481-500 | A gather through the list as reserve has grown it reads the same entries as before |
| `CacheInvariant.SlotsDistinct` | src/wllm/engine/kv_cache.py:259-275 | The slots of a sequence's next positions are pairwise distinct |
| `CacheInvariant.ReadWritten` | src/wllm/engine/kv_cache.py:277-289 | What was written to distinct slots is read back |
| `CacheInvariant.ReadUnwritten` | src/wllm/engine/kv_cache.py:277-289 | Writing elsewhere does not change what is read |
| `CacheOperations.AppendFaithful` | src/wllm/engine/kv_cache.py:277-292 | Writing and advancing extends this sequence by exactly these tokens and changes no other sequence and no indexed block |
| `CacheOperations.SlotIsPrivate` | src/wllm/engine/kv_cache.py:277-289 | A slot being written belongs to this sequence alone: shared and indexed blocks are never written |
| `CacheOperations.GrowFaithful` | src/wllm/engine/kv_cache.py:259-275 | Reserving changes no content |
| `CacheOperations.CreateSequenceKeeps` | src/wllm/engine/kv_cache.py:96-97 | A new empty sequence |
| `CacheOperations.FreeSequenceKeeps` | src/wllm/engine/kv_cache.py:116-119 | Freeing a sequence keeps accounting and everybody else's content, and leaves of the index what the next row says |
| `CacheOperations.FreeSequenceIndex` | src/wllm/engine/kv_cache.py:110-119 | After freeing, a hash is indexed if and only if it was and led to a block that another sequence holds, and it leads where it led; a block is filed if and only if it was and another sequence holds it |
| `CacheOperations.RollbackKeeps` | src/wllm/engine/kv_cache.py:176-188 | Rolling back forgets exactly the last n tokens, given no indexed block becomes writable |
| `PrefixReuse.MatchIsRightIff` | src/wllm/engine/kv_cache.py:190-219 | No assumption on the hash: if everybody who holds a block of a match has the whole prefix asked for up to it, the match reads exactly the contiguous cache of the matched tokens; and, when no two entries are equal by accident, only then |
| `PrefixReuse.ReuseKeeps` | src/wllm/engine/kv_cache.py:190-219 | When the match is right in that sense: its blocks, taken over by a new sequence, hold exactly the requested whole-block prefix, accounting and all other content are kept, and at least one prompt token stays unmatched |
| `PrefixReuse.NoCollisionAgrees` | src/wllm/engine/kv_cache.py:209-216 | Every match is right if no prefix filed and no prefix asked for have equal chains and equal last blocks without being equal: other collisions are misses |
| `PrefixReuse.InjectiveNoCollision` | src/wllm/engine/kv_cache.py:23-24 | An injective hash has no collision among any prefixes |
| `PrefixReuse.MatchedContent` | src/wllm/engine/kv_cache.py:190-219 | Matched blocks hold the contiguous cache of the matched tokens if everybody who holds one has the prefix asked for, whatever the hash |
| `PrefixReuse.MatchedHolder` | src/wllm/engine/kv_cache.py:190-219 | Every matched block is live: some sequence holds it, and in a right match at the same place, after the same tokens |
| `PrefixReuse.ContentMeansAgreed` | src/wllm/engine/kv_cache.py:190-219 | Conversely, when entries are injective: right content means that every holder of every matched block has the prefix asked for at the same place |
| `LanguageModel.EntryInjective` | src/wllm/models/llama.py:468-503 | With injective entries, equal entries of two prompts come from equal positions after equal tokens |
| `PrefixReuse.MatchPrefixMatches` | src/wllm/engine/kv_cache.py:190-219 | Every block of a match is filed under the hash chain of the tokens asked for |
| `PrefixReuse.ChainInjective` | src/wllm/engine/kv_cache.py:23-24 | Equal chains of an injective hash cover equal tokens |
| `PrefixReuse.RegisterKeeps` | src/wllm/engine/kv_cache.py:221-243 | Filing a prompt keeps accounting and content, files each block under its own prefix, and no block that is still written to |
| `PrefixReuse.CollisionMatchesWrongBlock` | src/wllm/engine/kv_cache.py:209-216 | Any two prompts with equal chains and equal last blocks: where the index leads to the filed block, the match takes it, and if the tokens before differ the match reads wrong entries |
| `PrefixReuse.ConstantHashMatchesWrongBlock` | src/wllm/engine/kv_cache.py:209-216 | An instance: with every hash the same a match offers one block for two positions, right if and only if the two entries happen to be equal |
| `PrefixIndex.MatchReach` | src/wllm/engine/kv_cache.py:190-219 | Without any colliding chains, a match reaches exactly to the first block whose hash is not indexed, or to the last block it may |
| `PrefixIndex.RegisterIndexes` | src/wllm/engine/kv_cache.py:221-243 | After filing, a block's hash is indexed if and only if it was before or the block was not filed |
| `PrefixIndex.RegisterNames` | src/wllm/engine/kv_cache.py:221-243 | Where every hash leads after filing: to a block just filed if one of the prompt's unfiled blocks has that hash, and where it led before otherwise |
| `PrefixIndex.FiledPromptIsMatched` | src/wllm/engine/kv_cache.py:221-243 | After filing a prompt, an equal prompt matches every block it may if and only if each of them was unfiled or its hash still indexed |
| `PrefixIndex.LiveHashLost` | src/wllm/engine/kv_cache.py:110-119 | Freeing a sequence unindexes the hash of a block that stays live and filed if and only if the index leads from it to another block, which only that sequence holds |
| `PrefixIndex.LiveBlockLost` | src/wllm/engine/kv_cache.py:110-114 | Two sequences with one prompt: freeing the second unindexes the hash of the first one's live, filed block, and filing again does not bring it back |
| `SwapToHost.SwapRoundTrip` | src/wllm/engine/kv_cache.py:121-161 | Out, anything on other sequences, and in again: succeeds if and only if there is room and the table was tight (or a single block without a token), and then length and every entry are restored, in blocks that were free and are this sequence's alone |
| `SwapToHost.RolledBackReturns` | src/wllm/engine/kv_cache.py:176-188 | A tight sequence rolled back and swapped out comes back, given room, if and only if the rollback freed no block or there was only one |
| `SwapToHost.RollbackStrands` | src/wllm/engine/kv_cache.py:121-188 | One slot a block, two tokens cached, one rolled back: the swap-in fails however many blocks are free |
| `SwapToHost.SwapInSucceedsIff` | src/wllm/engine/kv_cache.py:141-161 | Swap-in succeeds if and only if there are blocks enough and the copy has one row per block or a single row |
| `SwapToHost.SwapOutKeeps` | src/wllm/engine/kv_cache.py:121-139 | Swapping a tight sequence out saves its whole cache and releases its blocks |
| `SwapToHost.SwapInKeeps` | src/wllm/engine/kv_cache.py:141-161 | Swapping in restores the saved cache in private blocks, taking exactly as many as it needs |
| `ModelRunner.ContinuePrefillKeeps` | src/wllm/models/llama.py:468-503 | A pass extends the cached tokens by exactly the chunk and predicts what full passes would, or fails exactly when blocks do not suffice, changing no content |
| `ModelRunner.PrefillKeeps` | src/wllm/models/llama.py:505-529 | Prefill through the prefix index caches the whole prompt, predicts what a full pass would, and files it, or fails exactly when blocks do not suffice |
| `ModelRunner.CreateForPromptKeeps` | src/wllm/models/llama.py:518-523 | A sequence over the matched prefix caches exactly that prefix |
| `ModelRunner.ReserveKeeps` | src/wllm/engine/kv_cache.py:259-275 | Reserving succeeds exactly when there are blocks enough and changes no content |
| `BatchedDecode.DecodeBatchKeeps` | src/wllm/models/llama.py:535-560 | A batched step gives every row its own next greedy token and entry and leaves every other sequence alone; or it stops at the first row without a block and changes no content |
| `BatchedDecode.DecodeBatchOk` | src/wllm/models/llama.py:535-560 | It succeeds if and only if at most as many rows sit at a full table as blocks are free, and then every row has its next greedy token and entry |
| `BatchedDecode.ReserveAllIff` | src/wllm/models/llama.py:547-547 | Reserving row by row succeeds if and only if the rows whose next token needs a block are at most as many as the free blocks |
| `BatchedDecode.ReserveAllKeeps` | src/wllm/models/llama.py:547-547 | Reserving row by row stops at the first row without a block, with the rows before it roomy |
| `CachedGeneration.GenerateWithKvCache` | src/wllm/models/llama.py:586-596 | Cached generation returns the cache-free generator's tokens (one at least), if and only if blocks for P+n-1 tokens are free |
| `CachedGeneration.ScratchPrefill` | src/wllm/engine/beam_search.py:116-127 | A scratch prefill freed at once predicts what a full pass would and leaves tables and content of all others as they were; a hash is indexed afterwards if and only if it was and is not that of a whole block of the prompt which was not matched |
| `CachedGeneration.ScratchHashes` | src/wllm/engine/kv_cache.py:221-243 | That is so hash by hash, and every hash left leads where it led |
| `KvCacheManagers.BlockAllocator.constructor` | src/wllm/engine/kv_cache.py:28-31 | All blocks free, in order, with count zero |
| `KvCacheManagers.BlockAllocator.Allocate` | src/wllm/engine/kv_cache.py:33-38 | Pops the last free block with count one, or fails on an empty list, changing nothing |
| `KvCacheManagers.BlockAllocator.AddRef` | src/wllm/engine/kv_cache.py:40-41 | One more reference on this block alone |
| `KvCacheManagers.BlockAllocator.Free` | src/wllm/engine/kv_cache.py:43-50 | The last reference puts the block at the end of the free list |
| `KvCacheManagers.KvCacheManager.constructor` | src/wllm/engine/kv_cache.py:64-94 | A new cache: all blocks free, no sequence, no index |
| `KvCacheManagers.KvCacheManager.CreateSequence` | src/wllm/engine/kv_cache.py:96-97 | New value: `PagedKvCache.CreateSequence` of the old |
| `KvCacheManagers.KvCacheManager.CreateSequenceFromPrefix` | src/wllm/engine/kv_cache.py:99-108 | New value: one more reference per block, in order, and a sequence with that table and whole blocks cached |
| `KvCacheManagers.KvCacheManager.FreeBlock` | src/wllm/engine/kv_cache.py:110-114 | New value: `PagedKvCache.FreeBlock`; the index entry goes only if it still names this block |
| `KvCacheManagers.KvCacheManager.FreeSequence` | src/wllm/engine/kv_cache.py:116-119 | New value: `PagedKvCache.FreeSequence` |
| `KvCacheManagers.KvCacheManager.SwapOut` | src/wllm/engine/kv_cache.py:121-139 | New value: rows copied to the host, blocks released |
| `KvCacheManagers.KvCacheManager.SwapIn` | src/wllm/engine/kv_cache.py:141-161 | New value and outcome: `PagedKvCache.SwapIn`, including blocks that stay taken when it fails |
| `KvCacheManagers.KvCacheManager.DiscardSwapped` | src/wllm/engine/kv_cache.py:163-168 | New value: the snapshot gone |
| `KvCacheManagers.KvCacheManager.Rollback` | src/wllm/engine/kv_cache.py:176-188 | New value: a shorter length, the same table |
| `KvCacheManagers.KvCacheManager.MatchPrefix` | src/wllm/engine/kv_cache.py:190-219 | Returns `PagedKvCache.MatchPrefix` and changes nothing |
| `KvCacheManagers.KvCacheManager.RegisterPrefixBlocks` | src/wllm/engine/kv_cache.py:221-243 | New value: `PagedKvCache.RegisterPrefixBlocks` |
| `KvCacheManagers.KvCacheManager.GatherPrefixKv` | src/wllm/engine/kv_cache.py:245-257 | Returns the first n positions of the blocks laid end to end |
| `KvCacheManagers.KvCacheManager.Reserve` | src/wllm/engine/kv_cache.py:259-275 | New value and positions: the table grown to ceil((len+n)/B), the n next slots in order; on failure the blocks taken so far stay |
| `KvCacheManagers.KvCacheManager.Write` | src/wllm/engine/kv_cache.py:277-289 | New value: one entry per slot, nothing else |
| `KvCacheManagers.KvCacheManager.Advance` | src/wllm/engine/kv_cache.py:291-292 | New value: a longer length |
| `ForwardPasses.RunContinuePrefill` | src/wllm/models/llama.py:468-503 | The cache's new value and the predictions are `ModelRunner.ContinuePrefill` of the old |
| `ForwardPasses.RunPrefillWithPrefixReuse` | src/wllm/models/llama.py:505-529 | Likewise `ModelRunner.PrefillWithPrefixReuse` |
| `ForwardPasses.RunDecodeStepBatch` | src/wllm/models/llama.py:535-560 | Likewise `ModelRunner.DecodeBatch` |
| `ForwardPasses.ReserveRows` | src/wllm/models/llama.py:547-547 | Likewise `ModelRunner.ReserveAll`, with each row's slot |
| `SequenceObjects.Sequence.constructor` | src/wllm/engine/sequence.py:22-34 | A waiting request without output |
| `SequenceObjects.Sequence.LastTokenId` | src/wllm/engine/sequence.py:47-48 | The last output token, else the last prompt token |
| `SequenceObjects.Sequence.AppendToken` | src/wllm/engine/sequence.py:53-59 | The object's new value is the on-track-keeping append |
| `Schedulers.Scheduler.constructor` | src/wllm/engine/scheduler.py:71-147 | An engine with empty lists over a given cache |
| `Schedulers.Scheduler.AddRequest` | src/wllm/engine/scheduler.py:149-150 | New value: the request at the end of the queue |
| `Schedulers.Scheduler.HasUnfinishedRequests` | src/wllm/engine/scheduler.py:155-156 | Whether any list has a request |
| `Schedulers.Scheduler.Cancel` | src/wllm/engine/scheduler.py:158-176 | New value: `SchedulerSteps.Cancel` |
| `Schedulers.Scheduler.PledgedBlocks` | src/wllm/engine/scheduler.py:181-190 | The loop computes the pledge the slack theorems are about |
| `Schedulers.Scheduler.Available` | src/wllm/engine/scheduler.py:198-198 | Free blocks less the pledge |
| `Schedulers.Scheduler.Admit` | src/wllm/engine/scheduler.py:192-205 | New value and who was admitted: `SchedulerModel.Admit` |
| `Schedulers.Scheduler.StepPrefillWork` | src/wllm/engine/scheduler.py:207-249 | New value, who completed and whether it raised: `SchedulerModel.PrefillWork` |
| `Schedulers.Scheduler.ContinuePrefillChunk` | src/wllm/engine/scheduler.py:251-274 | New value, budget left, completion: `SchedulerSteps.PrefillChunk` |
| `Schedulers.Scheduler.Prefill` | src/wllm/engine/scheduler.py:276-288 | New value: the prompt prefilled through the prefix index and its last prediction appended; nothing appended if blocks run out |
| `Schedulers.Scheduler.Preempt` | src/wllm/engine/scheduler.py:293-305 | New value: `SchedulerDecode.Preempt` |
| `Schedulers.Scheduler.TrySwapIn` | src/wllm/engine/scheduler.py:307-324 | New value: `SchedulerModel.TrySwapIn` |
| `Schedulers.Scheduler.SpeculativeDecodeOne` | src/wllm/engine/scheduler.py:338-382 | New value and outcome: `Speculation.Speculate` |
| `Schedulers.Scheduler.DecodeActive` | src/wllm/engine/scheduler.py:384-434 | New value and survivors: `SchedulerModel.DecodeActive` |
| `Schedulers.Scheduler.Step` | src/wllm/engine/scheduler.py:455-498 | New value and whether it raised: `SchedulerModel.Step`, from any state that satisfies the invariant; what it returns is exactly the requests whose output grew, each once |
| `Schedulers.Scheduler.RunToCompletion` | src/wllm/engine/scheduler.py:500-506 | New value: `SchedulerModel.RunToCompletion`; it returns each request that finished meanwhile, exactly once, with its full sequential decode; every request is transparent afterwards |
| `PagedAttention.PagedAttentionDecode` | src/wllm/kernels/csrc/paged_attention.cu:26-154 | For every block size, table, context length >= 1 and grouped-query head mapping, the grid's output is softmax attention: sum of exp(s_t) v_t over sum of exp(s_t) |
| `PagedAttention.PagedAttentionDecodeCpu` | src/wllm/kernels/paged_attention.py:44-71 | The CPU reference's output, from the gathered tensors, is the same |
| `PagedAttention.SequenceTensorRow` | src/wllm/kernels/paged_attention.py:57-65 | Row (t, h) of the blocks indexed by the table, reshaped, cut to the context and with every head repeated, is the row the kernel reads: token t through the block table, key head h / (heads / kv heads) |
| `PagedAttention.RepeatedRow` | src/wllm/kernels/paged_attention.py:63-65 | Row i*rep+c of the repeated tensor is row i |
| `PagedAttention.GatheredToken` | src/wllm/kernels/paged_attention.py:59-62 | Row (t, kv head) of the gathered blocks is the token's row in its block |
| `PagedAttention.SequenceCpu` | src/wllm/kernels/paged_attention.py:56-69 | One sequence: gather, then every head's attention |
| `PagedAttention.HeadKernel` | src/wllm/kernels/csrc/paged_attention.cu:39-153 | One thread block computes its head's attention |
| `PagedAttention.Warp` | src/wllm/kernels/csrc/paged_attention.cu:63-106 | A warp's sum and accumulators stand for exactly its own tokens, scaled to its maximum, which is the largest of their scores (or the start value); an idle warp's are zero |
| `PagedAttention.WarpToken` | src/wllm/kernels/csrc/paged_attention.cu:90-104 | The online-softmax update takes in one token, and both exponents it takes are at most zero |
| `PagedAttention.Rescale` | src/wllm/kernels/csrc/paged_attention.cu:92-101 | Moving the maximum rescales what was summed |
| `PagedAttention.WarpDot` | src/wllm/kernels/csrc/paged_attention.cu:78-90 | The lanes' strided partial sums and the shuffles give the dot product |
| `PagedAttention.Reduce` | src/wllm/kernels/csrc/paged_attention.cu:87-90 | The five shuffle rounds leave the sum of all lanes in lane 0 |
| `PagedAttention.SharesCover` | src/wllm/kernels/csrc/paged_attention.cu:68-72 | The four warps' shares add up to all tokens, each once |
| `PagedAttention.Merge` | src/wllm/kernels/csrc/paged_attention.cu:130-153 | The cross-warp merge gives the attention |
| `PagedAttention.MergedMax` | src/wllm/kernels/csrc/paged_attention.cu:131-133 | The common maximum is the largest score of the sequence (or the start value), so every warp is scaled down |
| `PagedAttention.HeadCpu` | src/wllm/kernels/paged_attention.py:67-69 | Scores, softmax and weighted sum over the gathered tensors give the attention |
| `GraphDecode.ReplayedIsEager` | src/wllm/engine/cuda_graph_decoder.py:137-178 | A decode through the graph has the eager decode's predictions, tables, lengths and outcome, and its entries everywhere but in the scratch slots |
| `GraphDecode.ReplayedKeeps` | src/wllm/engine/cuda_graph_decoder.py:137-178 | So it meets the eager decode's contract: every row its next greedy token and entry, every other sequence untouched, scratch sequences as they were |
| `GraphDecode.GraphStepIsEager` | src/wllm/models/llama.py:562-582 | The captured computation on the padded rows writes and predicts for the real rows what the eager step does |
| `GraphDecode.WriteSlotsDistinct` | src/wllm/engine/cuda_graph_decoder.py:169-171 | All write slots of a step, real and padding, are pairwise distinct |
| `GraphDecode.BuffersFit` | src/wllm/engine/cuda_graph_decoder.py:144-148 | When the batch fits, there is a bucket, a scratch sequence for every padding row, and room in the buffers for every table |
| `GraphDecode.BucketFor` | src/wllm/engine/cuda_graph_decoder.py:145-145 | The chosen bucket is the least that holds the batch |
| `GraphDecode.ScratchAfter` | src/wllm/engine/cuda_graph_decoder.py:175-176 | Decoding never advances a scratch sequence |
| `GraphDecode.ScratchIsPrivate` | src/wllm/engine/cuda_graph_decoder.py:72-78 | A scratch sequence's block is in nobody else's table |
| `GraphDecode.AllRowsFit` | src/wllm/engine/cuda_graph_decoder.py:153-171 | The filled rows decode to exactly the real slots followed by the scratch slots |
| `GraphDecoders.CudaGraphDecoder.SetupScratchSequences` | src/wllm/engine/cuda_graph_decoder.py:72-78 | On success every scratch sequence has exactly its one dummy token cached, in a block of its own: what a replay asks for |
| `GraphDecoders.CudaGraphDecoder.Capture` | src/wllm/engine/cuda_graph_decoder.py:66-70 | Scratch sequences, then a buffer for every bucket; fails when the blocks run out, and when no bucket is larger than one |
| `GraphDecoders.CudaGraphDecoder.ScratchWriteIdx` | src/wllm/engine/cuda_graph_decoder.py:80-87 | The flat index of the first slot of the scratch block |
| `GraphDecoders.CudaGraphDecoder.FitsCapturedGraphs` | src/wllm/engine/cuda_graph_decoder.py:127-134 | Whether batch and tables fit the largest bucket |
| `GraphDecoders.CudaGraphDecoder.Decode` | src/wllm/engine/cuda_graph_decoder.py:136-178 | New cache value and result: replay when it fits, eager otherwise, an error before capture |
| `GraphDecoders.CudaGraphDecoder.FillRows` | src/wllm/engine/cuda_graph_decoder.py:153-171 | The static buffers hold exactly the rows: position, context, padded table, token and slot of each |
| `GraphDecoders.CudaGraphDecoder.RunGraphStep` | src/wllm/models/llama.py:562-582 | The captured computation off the buffers is the step on those rows |
| `BeamSearch.PruningIsOptimal` | src/wllm/engine/beam_search.py:116-148 | The first num_beams sorted candidates are different (active beam, token) pairs with their own scores, best first, and any pair outside them scores no higher than the last of them |
| `BeamSearch.RankedDistinct` | src/wllm/engine/beam_search.py:116-137 | No (active beam, token) pair is ranked twice |
| `BeamSearch.StepGroup` | src/wllm/engine/beam_search.py:105-154 | A step keeps all active beams one token longer with cum_logprob the sum of their per-token logprobs, or ends the group, exactly at the conditions of line 153, with a best-scoring member of its finished beams, or of the active ones it has just grown if none finished |
| `BeamSearch.EndsInTime` | src/wllm/engine/beam_search.py:150-154 | A group ends within M steps: it is active up to some group of the run, and the result is a best-scoring member of what one more token makes of that one |
| `BeamSearch.OneBeamReturnsReference` | src/wllm/engine/beam_search.py:105-154 | With one beam and a consistent tie-break the result is the greedy reference |
| `BeamSearch.FinalizeOk` | src/wllm/engine/beam_search.py:98-103 | Finalising a group picks a best-scoring one of its finished beams, or of its active ones if none finished |
| `BeamSearch.BestBeam` | src/wllm/engine/beam_search.py:91-103 | The first best-scoring one of a pool |
| `BeamSearch.CandidatesGenuine` | src/wllm/engine/beam_search.py:116-135 | Every candidate is a beam's cumulative log-probability plus that token's |
| `BeamSearch.SortedDescending` | src/wllm/engine/beam_search.py:137-137 | Sorting puts better scores first |
| `BeamSearch.CountSorted` | src/wllm/engine/beam_search.py:137-137 | and keeps how many reach any score |
| `BeamSearch.DealTakesFirst` | src/wllm/engine/beam_search.py:139-148 | Without stop tokens among them, the first candidates are the next beams, in order |
| `BeamSearch.StepKeepsWidth` | src/wllm/engine/beam_search.py:139-150 | The next beams are num_beams if and only if at least that many of the ranked candidates are not stop tokens, otherwise as many as are not; and they are the first num_beams candidates if and only if none of those is a stop token |
| `BeamSearch.StopLeavesFewer` | src/wllm/engine/beam_search.py:139-150 | Two beams, best token a stop token: the group goes on with one beam |
| `BeamSearch.BeamGroup.constructor` | src/wllm/engine/beam_search.py:64-86 | A group of one beam, the prompt |
| `BeamSearch.BeamGroup.IsDone` | src/wllm/engine/beam_search.py:88-89 | Whether the group has a result |
| `BeamSearch.BeamGroup.Step` | src/wllm/engine/beam_search.py:105-154 | New value: `StepGroup` of the old; nothing once done |
| `BeamSearch.BeamGroup.FinalizeInPlace` | src/wllm/engine/beam_search.py:98-103 | New value: the finalised group |
| `StopStrings.StopStringFilter.Run` | src/wllm/api/stop_strings.py:33-72 | For every split into deltas: with inclusive stop strings only, the output is the text cut at the earliest end of any of them; with exclusive ones only it is a prefix without a complete stop string; with both, an inclusive stop that is complete in the last delta taken wins, the output is that cut, and it contains an exclusive one if and only if one ends by there; it stops if and only if some stop string occurs, at the first delta that completes one, and how much an exclusive stop shows is stated exactly |
| `StopStrings.StopStringFilter.Inspect` | src/wllm/api/stop_strings.py:37-69 | One delta: passed on, cut at the earliest inclusive end, or cut at the earliest exclusive start but not before what was shown |
| `StopStrings.StopStringFilter.constructor` | src/wllm/api/stop_strings.py:26-31 | Empty stop strings are dropped |
| `StopStrings.EarliestEndIsUnique` | src/wllm/api/stop_strings.py:41-55 | The cut at the earliest end depends on the text alone, so no two splits differ |
| `StopStrings.CutIsClean` | src/wllm/api/stop_strings.py:57-68 | The exclusive cut leaves no complete stop string |
| `StopStrings.ExclusiveCutIsIdeal` | src/wllm/api/stop_strings.py:57-68 | It is the cut at the earliest start in the whole text if and only if that match is complete in the buffer and begins in its last delta |
| `StopStrings.CleanIffNoEnd` | src/wllm/api/stop_strings.py:57-68 | A cut text has no complete stop string if and only if none ends by the cut |
| `StopStrings.InclusiveShowsExclusive` | src/wllm/api/stop_strings.py:41-55 | "ab" with the exclusive "a" and the inclusive "b" is shown whole |
| `StopStrings.SplitMatchLeaks` | src/wllm/api/stop_strings.py:57-68 | "ab" in one delta shows nothing of the stop string "ab", in two it shows "a" |
| `Dequantize.PackBlockCodes` | src/wllm/quant/dequant.py:139-152 | No bit of a super-block's 192 ql and qh bytes is dropped: its 256 codes, both halves, give them all back |
| `Dequantize.BlockCodesPack` | src/wllm/quant/dequant.py:139-152 | No bit is shared: any 256 six-bit codes are those of the 192 bytes they pack into, whatever scales follow |
| `Dequantize.BlockCodesAt` | src/wllm/quant/dequant.py:145-152 | Code i of a super-block is the six-bit value element i uses |
| `Dequantize.PackCodes` | src/wllm/quant/dequant.py:112-123 | No bit of the 96 bytes of a half is dropped: they can be rebuilt from the 128 codes |
| `Dequantize.CodesPack` | src/wllm/quant/dequant.py:112-123 | No bit is shared: every 128 six-bit codes come from some 96 bytes |
| `Dequantize.HalfValueAt` | src/wllm/quant/dequant.py:112-136 | Element i of a half is d times scale i/16 times (code i less 32) |
| `Dequantize.BlockValueAt` | src/wllm/quant/dequant.py:139-152 | Element i of a super-block is d * scales[i/16] * (q_i - 32), across both halves |
| `Dequantize.ValueAt` | src/wllm/quant/dequant.py:139-152 | Value i of block k comes from that block's bytes alone |
| `Dequantize.Q4Bijection` | src/wllm/quant/dequant.py:79-92 | Q4_0: sixteen bytes and thirty-two nibbles correspond one to one |
| `Dequantize.Q4ValueAt` | src/wllm/quant/dequant.py:79-92 | Q4_0: element i is the scale times (nibble i less 8), low nibbles first |

## Left out

- The network's arithmetic (normalisation, rotary embedding, projections, logits), model loading and GGUF parsing: two uninterpreted functions instead. One entry stands for all layers and for K and V.
- Floating point: the kernel is over the reals with an abstract exponential (sums to products, positive); half-precision decoding is a parameter.
- Parallelism inside the kernel: lanes and warps run one after another between barriers, and a lane's accumulators are told apart by coordinate. The shuffle reduction is modelled round by round. The starting maximum -1e30 is not told from minus infinity.
- CUDA capture and streams: a replay is one call of the captured computation on the filled buffers; writes made while warming up before capture are not modelled, as is graph decoding inside the scheduler (its contract is that of the eager decode, `GraphDecode.ReplayedKeeps`, but for the scratch sequences' blocks, which the scheduler's accounting does not know).
- LoRA adapters, guided decoding, and batches split between the graph and the eager lane: one adapter, no guide, one lane.
- Sampling other than greedy, repetition penalty, log-probabilities of requests, and tie-breaks of the tensor library's top-k and argmax.
- Beam groups within the scheduler's loop and block accounting: `BeamGroup` is on its own, with each beam's scratch prefill in `CachedGeneration.ScratchPrefill`; its log-softmax is a parameter.
- The n-gram draft search: every draft is covered.
- Async engine, detokeniser, HTTP server, rate limiting, metrics, command line.
- The scheduler's out-of-memory errors other than while decoding or speculating are not caught by the source; a step then ends with `ok == false`, and the invariant still holds.
- SchedulerRuns.SchedulingIsTransparent: does not cover swap together with speculation, where a rollback's spare blocks make swap-in raise, and assumes distinct ids, non-empty prompts and, with prefix caching, an injective hash: over a run this stands for every match being right, whose exact condition for one match is in `PrefixReuse.MatchIsRightIff`.
- SwapProgress.SwapModeCompletes: does not cover chunked prefill, which can raise (`ChunkedRoom.ChunkedPrefillRunsOut`), nor speculation, which swap excludes.
- RecomputeProgress.RecomputeCompletes: does not cover chunked prefill, which can raise, nor speculation, with which a request can be preempted for ever (`DraftCap.DraftLoops`); with capped drafts `DraftCap.LoneCompletes` is about one request at a time.
- ChunkBudget.PrefillWorkAccounts: does not cover prefix caching, where matched blocks count as cached without being run; `ChunkBudget.PrefillWorkWrites` bounds the work there.
- AdmissionSlack.SlackIsBounded: does not cover prefix caching or swap: shared blocks are counted once for several tables, and swapped-in requests are admitted by their current length alone.
- Schedulers.Scheduler.Step: does not model log-probabilities, nor the beam groups a step advances last.
- BeamSearch.EndsInTime: does not cover a group asked for more beams than the vocabulary has tokens, for which the source raises.
- GraphDecoders.CudaGraphDecoder.Capture: does not model the dummy computation that warms up each bucket.
- Block tables and other values inside a sequence's cache state are held by value: the aliasing that matters, `continue_prefill` reading the list that `reserve` has grown, is modelled by reading the grown table.
