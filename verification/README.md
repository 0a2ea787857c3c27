# A verified model of vASR's batching, alignment and streaming logic

vASR transcribes audio with a Qwen3-ASR model. Around the network sits a good deal of logic that must not show in
the transcript: a paged key-value cache, a scheduler that decodes many sequences together, batching and re-batching
of audio chunks, a worker that answers jobs out of micro-batches, an audio cache for streaming, and repairs of
timestamps and text. This project models that logic and proves that it does not show, or says exactly when it does.

The network itself is left uninterpreted: the entry a token leaves in the cache is a function of the entries it
attends to, of its embedding and of its position, and the greedy choice is a function of the entries read back.
Whatever is proved therefore holds for every network.

- **Paged cache and engines** (`BlockPool`, `SlotMapping`, `PagedKvCache`, `PagedCacheRuntime`, `PrefillInput`,
  `PagedBatchPrefill`, `DecodeStep`, `DecodeSoundness`, `PagedBatchEngine`, `StaticBatch`, `StaticCapacity`). The
  block manager, the metadata builders, prefill in both layouts and decode steps, in place over arrays and objects,
  against value-level specifications. A decode step keeps all its sequences on their greedy paths exactly when it
  does not take one particular branch.
- **Continuous scheduler** (`ContinuousBatch`, `DecodePass`, `SchedulerPass`, `PassProgress`, `Admission`,
  `BatchRuns`, `BlockAccounts`, `ExactTables`, `CapacityBounds`, `CapacityRuns`, `ServedRuns`, `WaveInput`, `BatchScheduler`,
  `ContinuousScheduler`, `EngineAgreement`). The scheduler's loop is a state machine over schedules; safety,
  conservation and termination are proved over all its runs, and the method is proved to perform such a run.
- **What capacity decides** (`RoomNeeded`, `OnePlace`, `LosingBranch`, `UnequalPrompts`). How much room is enough, how
  much is necessary, what happens with less, and concrete runs in which the code does not end, or loses a token.
- **From chunks to text** (`ChunkGrouping`, `ChunkBatching`, `GreedyTranscripts`, `ChunkTranscription`). Grouping with
  the fewest groups, re-batching, and transcription chunk by chunk, over the paged engines down to greedy decoding of
  each chunk's prompt.
- **Graph replay** (`CudaGraphs`, `CudaPadding`). Padding batches and block tables to captured shapes is invisible.
- **ASR worker** (`SegmentJobs`, `AsrMessages`, `SegmentBatches`, `JobBatches`, `SegmentOrder`, `AsrWorker`, `AsrAnswers`,
  `LateSpeech`). A message loop with a stash and micro-batches, for every arrival order.
- **Sequences with optimality claims** (`CharacterErrorRate`, `LongestSubsequence`, `TimestampRepair`, `AlignedItems`,
  `AudioChunking`).
- **Streaming audio** (`FeatLengths`, `FeatureExtractor`, `AudioEncoder`, `EncoderForward`, `AudioStream`).
- **Text** (`TokenPasses`, `AlignerTokens`, `RepetitionRepair`).

`dafny verify dfyconfig.toml` checks everything.

## Findings

Properties that the source's comments, names or tests suggest and that do not hold of the code. Each has its input or
run, and the condition under which the property does hold.

- **The scheduler need not end.** `run_continuous_prepared` leaves its loop with an error only when nothing runs
  (vasr-models/src/inference/batch_scheduler.rs:494-504), and admission reserves one block beyond a prompt
  (batch_scheduler.rs:100-113). A prompt of 8 tokens in a pool of three blocks of 8, with a budget of 20 tokens, is
  admitted, fills the pool and waits for ever (`OnePlace.DecodesForEver`). Every pass either makes progress or repeats
  for ever (`BatchRuns.PassMeasure`). With one place a run ends well if and only if the pool can admit and hold every
  client's whole decoding (`OnePlace.OnePlaceOutcome`); in general that is necessary (`RoomNeeded.FinishedWereServable`)
  and room for all places at once is sufficient (`ContinuousScheduler.RoomyRunsFinish`).
- **A refused sequence can lose a token.** When every slot that got its block ends in a step, the slots that were
  refused are moved on without one (vasr-models/src/model/paged_batch_engine.rs:250-257). A step is right if and only if
  this does not happen (`DecodeSoundness.StepRightIff`), and slot by slot if and only if it does not happen to that slot
  (`DecodeSoundness.SlotSoundIff`). Over a whole run a client to whom it never happens has its greedy output, and each
  time costs a client one token of its budget (`LosingBranch.ClientOutcome`); who is refused in such a pass falls short
  (`LosingBranch.LosingRunsFallShort`). Prompts of 8 and 10 tokens in a pool of six blocks of 8 do it
  (`UnequalPrompts.LosesToken`): 8 tokens where decoding alone gives 9.
- **A job can get several errors.** A failed batch removes its jobs, and a later segment enters its job anew
  (vasr-transcribe/src/pipeline.rs:868-892, 1000-1013), so a job gets one error for every failed batch
  (`AsrAnswers.SegmentJobsAnswered`, `AsrAnswers.ManyErrors`). It never gets an error and a timeline
  (`AsrAnswers.NeverBoth`).
- **Compressing repeated patterns is not idempotent.** For every threshold from two on there is a text whose compression
  repeats a pattern that often (vasr-models/src/inference/utils.rs:156-214; `RepetitionRepair.CompressedRepeats`), so both
  passes together change it again (`RepetitionRepair.BothPassesAgain`). One pass is enough for all texts if and only if
  patterns are single characters (`RepetitionRepair.OnePassForAllIff`), while the source allows twenty; for one text, if
  and only if no stretch rejoins its surroundings when it is collapsed: copies reach past the copy kept, or lie within it
  (`RepetitionRepair.OnePassEnough`; `RepetitionRepair.OneStretchIff` for a text with one such stretch).
- **A job can lose its speech annotations, and the order of its segments.** The worker sets segments aside while it fills a
  batch of whole jobs, and a batch of segments is then filled from new arrivals, past those set aside
  (vasr-transcribe/src/pipeline.rs:776-866). Speech annotations go into a timeline only while it is empty (868-892), so they
  are missing exactly if no batch with them began before one of the job's segments was recognised
  (`AsrAnswers.SoundRecogniserAnswersAll`). For every batch size from two on this happens to a job whose two segments arrive
  on either side of a full batch of other jobs, behind another job's segment (`LateSpeech.LosesSpeech`). It cannot happen
  without batching, or when no job is sent whole (`AsrAnswers.InOrderTimelines`).
- **The flash-attention encoder accepts every length only with windows of a hundred frames.** With any other window some
  length fails the check of vasr-models/src/model/audio_encoder.rs:714-720 (`AudioEncoder.OnlyHundredAccepted`,
  `AudioEncoder.HundredAccepted`). The window is twice `n_window`, so fifty is the only value that accepts every length
  (`AudioEncoder.FiftyAccepted`); the default of 100 (vasr-models/src/config/audio_encoder_config.rs:91-93) refuses two
  hundred frames (`AudioEncoder.DefaultRefused`).
- **Feature lengths add up at multiples of a hundred and nowhere else** (vasr-models/src/processor/feat_lengths.rs:23-31;
  `FeatLengths.RowsAdd`, `FeatLengths.RowsAddOnlyThere`), so segments cached apart must be such multiples.
- **Bucketing block-table widths is idempotent only for some block sizes**: exactly when the least bucket is a power of
  two (vasr-paged-attn/src/cuda_graph.rs:65-76; `CudaGraphs.ColumnsIdempotentIff`), which it is for the supported 8, 16, 32.

## Model

| member | source | states |
|---|---|---|
| BlockPool.EveryRunPartitions | vasr-paged-attn/src/paged_cache_runtime.rs:225-371 | after any sequence of grow, trim and free on a new manager, refused growths included, the free list and the tables partition blocks 1 to `numBlocks - 1` without duplicates, and block 0 is never handed out |
| BlockPool.GrowValid | vasr-paged-attn/src/paged_cache_runtime.rs:286-314 | growing keeps the partition, granted or refused |
| BlockPool.TrimValid | vasr-paged-attn/src/paged_cache_runtime.rs:320-335 | trimming keeps the partition: what leaves a table returns to the free list once |
| BlockPool.ReleaseValid | vasr-paged-attn/src/paged_cache_runtime.rs:348-357 | freeing keeps the partition, and the free list grows by exactly the request's blocks |
| BlockPool.GrowExact | vasr-paged-attn/src/paged_cache_runtime.rs:286-314 | a granted growth appends free blocks, from the front of the free list, up to the least number that holds the tokens; it is granted exactly if they are there, and changes nothing otherwise |
| BlockPool.TrimExact | vasr-paged-attn/src/paged_cache_runtime.rs:320-335 | trimming leaves the least number of blocks that hold the tokens, or what there was if that is less; what is cut off goes to the end of the free list, last block first, and other requests keep theirs |
| BlockPool.ReleaseExact | vasr-paged-attn/src/paged_cache_runtime.rs:348-357 | freeing leaves the request nothing; its blocks go to the end of the free list, last block first |
| BlockPool.TrimUndoesGrow | vasr-models/src/model/paged_batch_engine.rs:209-245 | trimming to what a table held exactly undoes a growth: every request has its old blocks again and as many blocks are free |
| BlockPool.Conservation | vasr-paged-attn/src/paged_cache_runtime.rs:241-273 | free blocks plus the blocks of all holders are `numBlocks - 1` |
| PagedCacheRuntime.PagedBlockManager.TryAllocateSlots | vasr-paged-attn/src/paged_cache_runtime.rs:286-314 | true exactly when the missing blocks are free; the manager becomes `Grow` of itself, which for a refusal is itself |
| PagedCacheRuntime.PagedBlockManager.AllocateSlots | vasr-paged-attn/src/paged_cache_runtime.rs:275-283 | an error exactly when the blocks are missing, and then nothing has changed |
| PagedCacheRuntime.PagedBlockManager.SlotsAvailableFor | vasr-paged-attn/src/paged_cache_runtime.rs:245-254 | answers whether the growth would be granted |
| PagedCacheRuntime.PagedBlockManager.TrimRequestToNumTokens | vasr-paged-attn/src/paged_cache_runtime.rs:320-335 | the in-place loop is `Trim` |
| PagedCacheRuntime.PagedBlockManager.FreeMany | vasr-paged-attn/src/paged_cache_runtime.rs:348-363 | the in-place loop releases every listed request |
| PagedCacheRuntime.PagedBlockManager.BlockTablesFor | vasr-paged-attn/src/paged_cache_runtime.rs:365-370 | the tables in request order, an error exactly when a request is unknown |
| PagedCacheRuntime.PagedCacheRuntime.constructor | vasr-paged-attn/src/paged_cache_runtime.rs:398-454 | a new runtime is valid, with the new pool of its size |
| SlotMapping.SlotsInjective | vasr-paged-attn/src/paged_kv_cache.rs:74-103 | in every valid pool different (request, position) pairs have different slots, all inside the pool and outside block 0 |
| SlotMapping.SlotsStable | vasr-paged-attn/src/paged_cache_runtime.rs:286-357 | no operation moves the slot of a position that stays allocated |
| SlotMapping.DenseIsLookup | vasr-paged-attn/src/paged_kv_cache.rs:356-378 | the closed formula of the fixed layout is table lookup over consecutive blocks |
| SlotMapping.ReadThroughPrefix | vasr-paged-attn/src/paged_kv_cache.rs:74-103 | later growth of a table, or its padding, does not change what a read through it sees |
| SlotMapping.WriteRowEncodes | vasr-models/src/model/paged_batch_engine.rs:733-773 | storing a row's entries one by one leaves what encoding the items alone would |
| SlotMapping.WriteRowsEncodes | vasr-models/src/model/paged_batch_engine.rs:733-773 | the other rows of a batch do not show in a row's cache |
| SlotMapping.WriteRowsFrame | vasr-models/src/model/paged_batch_engine.rs:733-773 | a batch changes no entry of a request outside it |
| PagedKvCache.PagedKvCache.SlotForBlockTablePosition | vasr-paged-attn/src/paged_kv_cache.rs:74-103 | the slot of a position, with the exact error condition |
| PagedKvCache.PagedKvCache.InputMetadataFromAttentionMasks | vasr-paged-attn/src/paged_kv_cache.rs:651-773 | the nested loops build the padded metadata, and fail exactly when a row does not fit its table |
| PagedKvCache.PagedKvCache.InputMetadataFromQueryLens | vasr-paged-attn/src/paged_kv_cache.rs:775-869 | the nested loops build the packed metadata, with the exact error condition |
| PagedKvCache.PagedKvCache.DecodeMetadataForBatchSteps | vasr-paged-attn/src/paged_kv_cache.rs:924-1044 | every step of the batch builder is the metadata of that step; it fails exactly if one of them does |
| PagedKvCache.PagedKvCache.DecodeMetadataForBatchStep | vasr-paged-attn/src/paged_kv_cache.rs:1046-1059 | the single-step builder, with the exact error condition |
| PagedKvCache.CumulativeSeqlensFromLengths | vasr-paged-attn/src/paged_kv_cache.rs:58-72 | the prefix sums |
| PagedKvCache.CumulativeCuts | vasr-paged-attn/src/paged_kv_cache.rs:58-72 | the cumulative lengths start at zero and cut rows that are laid out one after the other apart again |
| PagedKvCache.MetadataMeans | vasr-paged-attn/src/paged_kv_cache.rs:651-1044 | in all three builders the longest context is the largest of the contexts; prefill queries are the contexts with their cumulative lengths; a padded prefill is causal only exactly if nothing is masked out |
| PagedKvCache.PaddedAgreesWithPacked | vasr-paged-attn/src/paged_kv_cache.rs:651-869 | for right-padded non-empty rows both builders succeed together, and dropping the padding slots of one gives all of the other |
| PagedKvCache.EarlierStepsSucceed | vasr-paged-attn/src/paged_kv_cache.rs:924-1059 | with tables from the allocator success at a step implies success at all earlier ones, so the single-step builder fails only for its own step |
| Decoding.GreedyCharacterised | vasr-models/src/model/paged_batch_engine.rs:174-314 | a token sequence that follows the network's choices and may not be extended is the recursive decoder's output, and the only one |
| PrefillInput.MergeFlatten | vasr-models/src/model/paged_batch_engine.rs:363-607 | filling the audio placeholders of a whole batch in one pass fills each row with its own audio |
| PrefillInput.PromptCached | vasr-models/src/model/paged_batch_engine.rs:363-607 | after the prefill pass each prompt is cached as if alone, and the gathered choice is its first greedy token |
| PrefillInput.PackedRecovered | vasr-models/src/model/paged_batch_engine.rs:363-607 | the packed flat inputs, cut by prompt lengths, are the prompts with their own slots and positions |
| PrefillInput.PaddedRecovered | vasr-models/src/model/paged_batch_engine.rs:363-607 | so are the padded flat inputs, cut by the common width |
| PagedBatchPrefill.GatherLastLogitsForPackedPromptLens | vasr-models/src/model/paged_batch_engine.rs:106-143 | picks each row's last token out of packed logits; fails exactly for an empty prompt or a wrong total |
| PagedBatchPrefill.NormalizeRow | vasr-models/src/model/generation.rs:1524-1559 | a row with scattered real tokens becomes the same tokens in front, padded with a masked-out token |
| PagedBatchPrefill.PackedForward | vasr-models/src/model/paged_batch_engine.rs:363-607 | the packed layout caches and starts every prompt alone; it fails exactly when audio rows are missing |
| PagedBatchPrefill.PaddedForward | vasr-models/src/model/paged_batch_engine.rs:363-607 | the padded layout does the same; it fails exactly when audio rows are missing or left over |
| PagedBatchPrefill.Prefill | vasr-models/src/model/paged_batch_engine.rs:363-607 | succeeds exactly under `PrefillOk`; then every row is cached and its first token chosen as if it were alone, blocks of rows that end at once are trimmed, other requests keep theirs |
| PagedBatchEngine.DecodeSlotsAtStep | vasr-models/src/model/paged_batch_engine.rs:174-314 | the in-place step is `DecodeAtStep` on slots, pool and memory, errors included |
| PagedBatchEngine.GrowForDecode | vasr-models/src/model/paged_batch_engine.rs:209-229 | slots whose growth is refused are skipped, the others are decodable |
| PagedBatchEngine.ForwardActiveSlots | vasr-models/src/model/paged_batch_engine.rs:259-309 | the forward pass stores and chooses what `ForwardActive` says, or fails without touching the cache |
| DecodeSoundness.ForwardEncodes | vasr-models/src/model/paged_batch_engine.rs:733-773 | the decode pass caches each pending token behind its own context and chooses greedy decoding's next token |
| DecodeSoundness.StepRightIff | vasr-models/src/model/paged_batch_engine.rs:174-314 | from sound slots at one step, a step leaves all slots sound and the pool valid if and only if it does not take the branch of lines 250-257 with a refused slot |
| DecodeSoundness.SlotSoundIff | vasr-models/src/model/paged_batch_engine.rs:174-314 | slot by slot: a slot that was on its greedy path is still on it after a step if and only if the step did not move it on without a token, whatever it did to the other slots |
| DecodeSoundness.StepKeepsOthers | vasr-models/src/model/paged_batch_engine.rs:174-314 | whatever another request has cached survives the step, in place |
| DecodeSoundness.StepPartitions | vasr-models/src/model/paged_batch_engine.rs:174-314 | sound or not, the step keeps the blocks partitioned and other tables untouched |
| DecodeSoundness.StepProgress | vasr-models/src/model/paged_batch_engine.rs:174-314 | every granted slot comes closer to its end, no slot gets farther from it |
| DecodePass.GroupRunningByDecodeStep | vasr-models/src/inference/batch_scheduler.rs:515-523 | one group per step that occurs, ascending, members in slot order |
| DecodePass.GroupsPartition | vasr-models/src/inference/batch_scheduler.rs:515-523 | the groups split the unfinished slots, each at its own step |
| Admission.WaveIsGreedy | vasr-models/src/inference/batch_scheduler.rs:398-431 | admission takes clients in order until one does not fit, and stops at none that does |
| Admission.AdmitHealthy | vasr-models/src/inference/batch_scheduler.rs:433-492 | admitting a wave keeps every sequence on its own greedy path |
| ContinuousBatch.PlaceSoundIff | vasr-models/src/inference/batch_scheduler.rs:343-380 | decoding one group leaves a place on its client's greedy path if and only if the group does not move it on without a token |
| ContinuousBatch.GroupStepTruthful | vasr-models/src/inference/batch_scheduler.rs:343-380 | decoding one group keeps the whole schedule truthful unless it takes the losing branch |
| BatchScheduler.FreeFinishedRunning | vasr-models/src/inference/batch_scheduler.rs:115-134 | the in-place collection stores outputs, frees blocks and empties places as `FreeFinished` does |
| BatchScheduler.DecodeRunning | vasr-models/src/inference/batch_scheduler.rs:326-396 | the pass up to admission is `DecodePart`, errors included |
| BatchScheduler.CanAdmitWithProjectedKv | vasr-models/src/inference/batch_scheduler.rs:100-113 | the admission test |
| BatchScheduler.FillPlaces | vasr-models/src/inference/batch_scheduler.rs:398-431 | the loop over empty places takes exactly the greedy wave, in order |
| BatchScheduler.RunningKvBlocks | vasr-models/src/inference/batch_scheduler.rs:91-97 | blocks held by the running sequences, and how many run |
| BatchScheduler.AudioLayout | vasr-models/src/inference/batch_scheduler.rs:295-316 | where each client's audio starts; an error exactly when some audio is unclaimed or missing |
| BatchScheduler.PrefillWave | vasr-models/src/inference/batch_scheduler.rs:433-465 | padding, audio concatenation and prefill of a wave succeed exactly when `WaveReady`, and leave its state |
| WaveInput.PadPreparedWaveForPrefill | vasr-models/src/inference/batch_scheduler.rs:137-178 | rows are padded to the longest prompt of the wave, with the exact error conditions |
| WaveInput.ConcatPreparedAudio | vasr-models/src/inference/batch_scheduler.rs:180-204 | the clients' audio slices back to back |
| WaveInput.WavePromptsMean | vasr-models/src/inference/batch_scheduler.rs:137-204 | a padded wave with its concatenated audio means the clients' own prompts |
| ContinuousScheduler.AsrBatchScheduler.RunPass | vasr-models/src/inference/batch_scheduler.rs:325-505 | one iteration of the loop is a pass of the specification, and fails exactly when that does |
| ContinuousScheduler.AsrBatchScheduler.RunContinuousPrepared | vasr-models/src/inference/batch_scheduler.rs:270-512 | the method's result is the end of a run of passes from the initial schedule: done, failed, or stuck; trivial inputs and a wrong audio total are answered at once |
| ContinuousScheduler.ContinuousIsGreedy | vasr-models/src/inference/batch_scheduler.rs:270-512 | a done run that never took the losing branch returns, for every client, greedy decoding of its own prompt |
| ContinuousScheduler.ContinuousReturnsBlocks | vasr-models/src/inference/batch_scheduler.rs:270-512 | a done run, whatever happened on the way, has returned every block it took |
| ContinuousScheduler.RoomyRunsFinish | vasr-models/src/inference/batch_scheduler.rs:270-512 | with blocks for the whole budget of every place, every run is done and never takes the losing branch |
| BatchRuns.EveryStateWellFormed | vasr-models/src/inference/batch_scheduler.rs:291-511 | in every state of every run blocks are partitioned, the queue is intact, each client is waiting, running or done, and none runs twice |
| BatchRuns.RunsAreGreedy | vasr-models/src/inference/batch_scheduler.rs:291-511 | the same for runs given as traces |
| BatchRuns.DoneIsFinal | vasr-models/src/inference/batch_scheduler.rs:115-134 | a client that is done is never queued or run again, and its output never changes |
| BatchRuns.PassMeasure | vasr-models/src/inference/batch_scheduler.rs:291-511 | every pass decreases a measure or changes nothing; it changes nothing exactly when everybody running is starved and nobody is admitted |
| BatchRuns.LivelockForever | vasr-models/src/inference/batch_scheduler.rs:494-504 | such a schedule is its own only successor |
| PassProgress.PassStill | vasr-models/src/inference/batch_scheduler.rs:326-396 | the decode part changes nothing exactly when all its sequences are refused |
| BlockAccounts.RunReturnsBlocks | vasr-models/src/inference/batch_scheduler.rs:115-134 | when all are done every id holds what it held at entry, and as many blocks are free |
| ExactTables.StepKeepsExact | vasr-models/src/model/paged_batch_engine.rs:174-314 | whatever a decode step does to a slot, it then holds exactly the blocks its prompt and tokens need: a refused slot keeps its own, one that goes on has room for its token, one that ends gives the spare block back |
| ExactTables.EveryStateExact | vasr-models/src/inference/batch_scheduler.rs:291-511 | in every state of every run in a pool nobody else uses, every running sequence holds exactly the blocks its prompt and its tokens need |
| CapacityBounds.HeadroomStep | vasr-models/src/model/paged_batch_engine.rs:209-233 | with a free block per slot a step refuses nobody and uses at most that many |
| CapacityBounds.LimitStep | vasr-models/src/model/paged_batch_engine.rs:209-233 | within a per-request limit that the pool covers a step refuses nobody |
| CapacityRuns.AdmittedWaveFits | vasr-models/src/inference/batch_scheduler.rs:100-113 | a wave that passes the projected-block check is never refused a block in its prefill, and leaves a free block per running sequence |
| CapacityRuns.WaveIsExact | vasr-models/src/inference/batch_scheduler.rs:398-431 | admission is exact: among the clients there are places for it takes as many as can be prefilled with a free block left for every running sequence, and never fewer |
| CapacityRuns.AdmitHeadroom | vasr-models/src/inference/batch_scheduler.rs:100-113 | the same after the wave is placed |
| CapacityRuns.HeadroomPass | vasr-models/src/inference/batch_scheduler.rs:326-396 | with that headroom the next decode pass is refused nothing |
| ServedRuns.RoomyRuns | vasr-models/src/inference/batch_scheduler.rs:291-511 | in a roomy pool every state of every run is healthy, no allocation is refused, and the measure falls until all are done |
| ServedRuns.NeverStuck | vasr-models/src/inference/batch_scheduler.rs:291-511 | in a roomy pool a pass that changes nothing has nothing left to do |
| RoomNeeded.FinishedWereServable | vasr-models/src/inference/batch_scheduler.rs:291-511 | whoever a run without the losing branch has finished with was admissible to an idle pool and had room for its whole decoding: the necessary half of the capacity bound |
| RoomNeeded.AdmittedAdmissible | vasr-models/src/inference/batch_scheduler.rs:100-113 | admission next to others implies admission alone |
| OnePlace.OnePlaceNeverBumps | vasr-models/src/model/paged_batch_engine.rs:250-257 | with one place the losing branch is never taken |
| OnePlace.OnePlaceOutcome | vasr-models/src/inference/batch_scheduler.rs:325-505 | for every queue run one at a time: done, with the greedy outputs, if and only if the pool can serve every client alone; otherwise the first client it cannot serve decides, a loop without end if it is admissible and an error if it is not |
| OnePlace.DecodesForEver | vasr-models/src/inference/batch_scheduler.rs:325-505 | a concrete legal call that never returns: the run from the initial schedule ends stuck |
| LosingBranch.StepKeepsBehind | vasr-models/src/model/paged_batch_engine.rs:174-314 | a sequence that is some tokens short of its step count stays as many short, and is one more short after a step that moves it on without a token |
| LosingBranch.PassLoser | vasr-models/src/model/paged_batch_engine.rs:250-257 | a pass takes the losing branch if and only if it moves some client on without a token |
| LosingBranch.ClientOutcome | vasr-models/src/inference/batch_scheduler.rs:291-511 | client by client, for every run: who was never moved on without a token has its greedy output, whatever happened to the others; each time costs one token of the budget; and when greedy decoding uses the whole budget the output is right if and only if it never happened |
| LosingBranch.SomebodyLost | vasr-models/src/inference/batch_scheduler.rs:326-396 | a run never took the losing branch if and only if it moved no client on without a token |
| LosingBranch.LosingRunsFallShort | vasr-models/src/model/paged_batch_engine.rs:250-257 | every client that a pass moves on without a token ends below its budget, and wrong if greedy decoding uses the whole budget; a pass that takes the branch moves such a client on |
| UnequalPrompts.UnequalOutcome | vasr-models/src/model/paged_batch_engine.rs:250-257 | every run over prompts of 8 and 10 items in a pool of six blocks of eight, under a network that ends at 18 entries, is done with 8 tokens for the first client where greedy decoding gives 9 |
| UnequalPrompts.LosesToken | vasr-models/src/model/paged_batch_engine.rs:250-257 | the same as a call of the scheduler on concrete inputs |
| StaticBatch.PagedBatchDecodeStep | vasr-models/src/model/paged_batch_engine.rs:613-731 | a step of the static batch is `DecodeAtStep` with nobody refused; it succeeds whenever every growth is granted and the forward pass is possible |
| StaticBatch.PagedBatchRun | vasr-models/src/model/paged_batch_engine.rs:316-361 | an Ok result is greedy decoding of every row and leaves no block behind; with room for every row's budget the result is Ok |
| StaticBatch.StepKeepsSound | vasr-models/src/model/paged_batch_engine.rs:613-731 | compacting finished rows out of the forward batch changes no other row |
| StaticCapacity.AmpleStep | vasr-models/src/model/paged_batch_engine.rs:613-731 | with room for every row's budget a static step is refused nothing and leaves that room |
| StaticCapacity.RoomGrants | vasr-models/src/model/paged_batch_engine.rs:316-361 | a batch with that room passes every check of its prefill |
| EngineAgreement.EnginesAgree | vasr-models/src/inference/batch_scheduler.rs:551-594 | static and continuous batching return the same tokens, client by client |
| EngineAgreement.SamePrompts | vasr-models/src/inference/batch_scheduler.rs:551-594 | both engines decode the same prompts |
| GreedyTranscripts.RunPagedPreparedBatch | vasr-models/src/inference/batch_scheduler.rs:551-594 | the static engine's rows have the texts of decoding them alone; the continuous engine's run along the returned trace, and the rows it never moved on without a token have them; with room for the rows either is done and moves nobody on |
| GreedyTranscripts.GenerateRawPaged | vasr-models/src/inference/transcribe.rs:378-492 | the engine calls made, each on the cache the one before left and along its trace, cover every row once; each row its call did not move on without a token has the text of greedily decoding its own prompt, in its own place; that is every row for the static engine, and with room for a micro-batch, when the call also succeeds |
| GreedyTranscripts.Collected | vasr-models/src/inference/transcribe.rs:466-492 | texts put back row by row are right for every row that was kept, and for all if nobody was moved on |
| GreedyTranscripts.BatchAudio | vasr-models/src/inference/batch_scheduler.rs:180-204 | each row's stretch of a batch's audio is its own |
| CudaPadding.WideForward | vasr-paged-attn/src/paged_kv_cache.rs:924-1044 | whatever the width of the block tables the forward pass is the same |
| CudaPadding.BucketedForward | vasr-paged-attn/src/paged_kv_cache.rs:945-951 | bucketed columns are wide enough and do not change the forward pass |
| CudaPadding.PaddedReplay | vasr-paged-attn/src/cuda_graph.rs:373-486 | a padded batch chooses the same tokens in its real rows, and leaves the same memory except slot 0 |
| CudaPadding.PaddedForwardActive | vasr-paged-attn/src/cuda_graph.rs:373-486 | in every valid state of the engine, bucketed or not, a padded replay gives the active slots the tokens of the plain pass and every request its cached entries |
| CudaGraphs.CudaGraphBatchBuckets | vasr-paged-attn/src/cuda_graph.rs:42-62 | the captured sizes, ascending, are exactly the bucket sizes within the limit |
| CudaGraphs.LeastBucket | vasr-paged-attn/src/cuda_graph.rs:28-40 | the chosen bucket is the least captured size that holds the batch; none exactly when it is empty or too large |
| CudaGraphs.ColumnsIdempotentIff | vasr-paged-attn/src/cuda_graph.rs:65-76 | bucketing columns twice is bucketing once if and only if the least bucket is a power of two |
| CudaGraphs.ColumnsMean | vasr-paged-attn/src/cuda_graph.rs:69-76 | a bucketed width is large enough, and is the least bucket or a power of two less than twice what is needed |
| CudaGraphs.BlockBucketLeast | vasr-paged-attn/src/cuda_graph.rs:65-67 | the least bucket is the least number of blocks that hold 256 tokens |
| CudaGraphs.UsualBlockSizes | vasr-paged-attn/src/cuda_graph.rs:65-67 | it is for blocks of 8, 16 and 32 tokens |
| CudaGraphs.GraphCache.InsertCudaDecodeGraph | vasr-paged-attn/src/paged_cache_runtime.rs:556-565 | a new graph is kept; another one is dropped only when the cache is full |
| CudaGraphs.GraphCache.PrewarmCudaDecodeGraphs | vasr-paged-attn/src/paged_cache_runtime.rs:655-704 | exactly the graphs of all batch sizes and the two smallest widths are there afterwards: prewarming drops none |
| CudaGraphs.BatchesHit | vasr-paged-attn/src/paged_cache_runtime.rs:499-529 | every batch within the limit whose tables have at most two buckets of tokens has a prewarmed key that is large enough |
| CharacterErrorRate.LevenshteinOps | vasr-data/src/cer.rs:73-127 | the counts are those of one particular cheapest edit script: of all of them the one that, read from the end, keeps rather than substitutes, substitutes rather than deletes, and deletes rather than inserts |
| CharacterErrorRate.FirstIsUnique | vasr-data/src/cer.rs:100-126 | there is only one such script, so the counts are determined |
| CharacterErrorRate.TraceBack | vasr-data/src/cer.rs:100-126 | the walk back never leaves the table and spells out that script, though its match branch does not look at the table |
| CharacterErrorRate.MatchIsDiagonal | vasr-data/src/cer.rs:106-110 | equal characters may be kept without looking at the table |
| CharacterErrorRate.NoCheaperScript | vasr-data/src/cer.rs:83-98 | no edit script is cheaper than the table's entry |
| CharacterErrorRate.ComputeCer | vasr-data/src/cer.rs:60-71 | the counts of that script from the reference to the hypothesis as given, and the reference's length |
| CharacterErrorRate.CerScales | vasr-data/src/cer.rs:23-31 | the rate times the reference's length is the number of edits; without a reference it is one if there are any edits |
| CharacterErrorRate.CerZeroIff | vasr-data/src/cer.rs:23-31 | the rate is zero exactly for a perfect transcription |
| LongestSubsequence.LongestChain | vasr-models/src/forced_aligner/processor.rs:904-925 | the positions found are the first of the longest non-decreasing subsequences: read from the end, its positions come earliest |
| LongestSubsequence.FirstLongestUnique | vasr-models/src/forced_aligner/processor.rs:904-925 | there is only one such subsequence |
| LongestSubsequence.FillChains | vasr-models/src/forced_aligner/processor.rs:904-914 | the tables hold the longest chain ending at each position and its predecessor |
| TimestampRepair.FixTimestamp | vasr-models/src/forced_aligner/processor.rs:898-1011 | a longest non-decreasing subsequence is kept; every maximal run between kept positions is filled from its kept neighbours; the repaired times are in order, change as few positions as possible, and are returned without their fractions, kept whole milliseconds as they were |
| TimestampRepair.FilledMeans | vasr-models/src/forced_aligner/processor.rs:951-1008 | between kept neighbours a run of one or two takes the nearer value, the left one on a tie, and a longer run climbs in equal steps; with one neighbour it takes that value |
| TimestampRepair.TruncMeans | vasr-models/src/forced_aligner/processor.rs:1009-1011 | truncation drops the fraction, toward zero |
| TimestampRepair.LongestIsFewest | vasr-models/src/forced_aligner/processor.rs:898-1011 | no non-decreasing sequence differs from the input in fewer positions |
| TimestampRepair.RunOrdered | vasr-models/src/forced_aligner/processor.rs:937-1008 | a filled run does not decrease, nor does it break order with its neighbours |
| AlignedItems.ParseTimestamp | vasr-models/src/forced_aligner/processor.rs:843-883 | every word gets its pair of repaired times, without their fractions; starts are not after ends and words do not overlap; an error exactly for a wrong number of times |
| AlignedItems.RepairMergedAlignItems | vasr-models/src/inference/transcribe.rs:1591-1679 | merged items in order are left alone; others are repaired, texts untouched, and are in order afterwards; a boundary that is kept stays where it was to the millisecond, and none is before zero |
| AlignedItems.RoundSeconds | vasr-models/src/inference/transcribe.rs:1569-1571 | rounding whole milliseconds to three decimals gives them back |
| AlignedItems.RoundNearest | vasr-models/src/inference/transcribe.rs:1591-1679 | rounding is to the nearest whole number, away from zero on a tie |
| ChunkGrouping.GroupChunkIndices | vasr-models/src/inference/transcribe.rs:573-635 | an order-preserving partition within the count cap and the sample budget, oversized chunks alone, with the fewest groups possible; an error exactly for an index out of range under a budget |
| ChunkGrouping.SamplesAdd | vasr-models/src/inference/transcribe.rs:573-635 | the samples counted against the budget are those of the chunks, added up |
| ChunkGrouping.GreedyIsMinimal | vasr-models/src/inference/transcribe.rs:573-635 | no order-preserving partition under the same rules has fewer groups than a maximal one |
| ChunkBatching.RebatchPreparedInputs | vasr-models/src/inference/transcribe.rs:212-292 | a permutation of the rows into micro-batches within the cap, lengths at most a third apart and 256 tokens, each row repadded to the longest |
| ChunkBatching.SplitSorted | vasr-models/src/inference/transcribe.rs:235-265 | cuts the sorted order into balanced groups |
| ChunkBatching.CloseMeans | vasr-models/src/inference/transcribe.rs:240-252 | lengths share a batch exactly if three times the longest is less than four times the shortest and three, and they differ by at most 256 |
| ChunkBatching.RepaddedMeans | vasr-models/src/inference/transcribe.rs:267-291 | unpadding recovers a row |
| ChunkBatching.GenerateRawPreparedBatch | vasr-models/src/inference/transcribe.rs:378-492 | every row gets the transcript it would get alone, in its own place, each place filled |
| ChunkTranscription.RunAsrOnChunksBatched | vasr-models/src/inference/transcribe.rs:637-834 | for every cap, budget and bucketing flag, over a row-wise recogniser and over the paged engine with room for a micro-batch: an error exactly for missing prompts, and otherwise every chunk's own transcript in chunk order; what the static engine returns is right with or without room |
| ChunkTranscription.PerChunkMeans | vasr-models/src/inference/transcribe.rs:637-834 | what a chunk's own transcript is: read off the recogniser's answer to its own prompt and samples, with the language its own input asks for |
| ChunkTranscription.StoreGroup | vasr-models/src/inference/transcribe.rs:792-822 | no place is filled twice |
| AsrWorker.Worker.Run | vasr-transcribe/src/pipeline.rs:689-774 | whatever arrives when, every message is handled and none twice, and the books below hold at the end |
| AsrWorker.Worker.Handle | vasr-transcribe/src/pipeline.rs:689-774 | one message with the companions its micro-batch collects keeps the books and conserves all messages |
| AsrWorker.Worker.CollectSegmentMicrobatch | vasr-transcribe/src/pipeline.rs:821-866 | it takes the segments among the next arrivals, in order, until the batch is full; everything else among them is set aside, in order, and nothing is lost |
| AsrWorker.Worker.CollectJobMicrobatch | vasr-transcribe/src/pipeline.rs:786-819 | it takes the whole-job and failure messages among the next arrivals until the batch is full or nothing more can come; segments among them are set aside, in order |
| AsrWorker.Worker.RecvAsrMessage | vasr-transcribe/src/pipeline.rs:776-784 | set-aside messages come first |
| AsrWorker.Worker.RunSegmentBatch | vasr-transcribe/src/pipeline.rs:1019-1033 | a micro-batch of segments keeps the books, whether recognition succeeds or fails |
| AsrWorker.Worker.PrepareSegmentJobState | vasr-transcribe/src/pipeline.rs:868-892 | entering a batch's segments keeps the books; their jobs are open afterwards |
| AsrWorker.Worker.FinishSegments | vasr-transcribe/src/pipeline.rs:952-981 | one timeline per segment is gathered, complete jobs are answered, the books are kept |
| AsrWorker.Worker.FailSegments | vasr-transcribe/src/pipeline.rs:981-1013 | a failed batch answers each of its jobs with one error and keeps the books |
| AsrWorker.Worker.RunAsrJobsBatch | vasr-transcribe/src/pipeline.rs:1035-1153 | one outcome per job, from its own samples, sorted by index |
| AsrAnswers.NeverBoth | vasr-transcribe/src/pipeline.rs:940-1017 | at every moment no job has both a timeline and an error, and none has two timelines |
| AsrAnswers.SegmentJobsAnswered | vasr-transcribe/src/pipeline.rs:940-1017 | at the end a segmented job has its timeline exactly if none of its batches failed, and otherwise one error per failed batch |
| AsrAnswers.OtherJobsAnswered | vasr-transcribe/src/pipeline.rs:1035-1153 | a whole-job or failure message has exactly one outcome, its own |
| JobBatches.AnswerMeans | vasr-transcribe/src/pipeline.rs:1035-1153 | a silent job's timeline is empty, a job of nothing but speech has its speech annotations before what was recognised, and a job without speech detection what was recognised; each outcome has its job's length |
| AsrAnswers.SoundRecogniserAnswersAll | vasr-transcribe/src/pipeline.rs:689-1017 | when every call returns one timeline per input, every segment sent is recognised once and every segmented job has exactly one outcome, with its audio's length: its speech annotations, if a batch with them began before any of its segments was recognised, and then every annotation returned for its segments, each later by its own segment's offset, and no other |
| AsrAnswers.ShiftedMeans | vasr-transcribe/src/pipeline.rs:960-968 | the gathered annotations are exactly the returned ones, start and end later by the segment's offset |
| AsrAnswers.InOrderTimelines | vasr-transcribe/src/pipeline.rs:776-866 | without batching, or when no job is sent whole, segments are recognised in the order sent; a job whose first segment carries its speech annotations then has them first, and its segments' annotations in that order |
| SegmentOrder.OrderKept | vasr-transcribe/src/pipeline.rs:776-866 | under that condition every end of the worker's loop has recognised the segments in the order they arrived |
| SegmentOrder.FirstLeads | vasr-transcribe/src/pipeline.rs:868-892 | if the first of a job's segments to be recognised carries its speech annotations, they come first |
| LateSpeech.LosesSpeech | vasr-transcribe/src/pipeline.rs:776-892 | for every batch size from two on a call of the worker on messages sent in order answers a job without its speech annotations and with its segments in the wrong order |
| AsrAnswers.ManyErrors | vasr-transcribe/src/pipeline.rs:868-1017 | under a recogniser that always fails a job gets one error per batch its segments fall into: more than one if they exceed the cap, one each without batching |
| SegmentJobs.ShiftMoves | vasr-runtime/src/pipeline/mod.rs:209-218 | shifting moves start and end of every annotation by the segment's offset, and nothing else |
| SegmentJobs.FinishKeeps | vasr-transcribe/src/pipeline.rs:960-980 | finishing one segment keeps the accounts of every job right: its timeline is its speech annotations, if they were there before any others, and then the shifted annotations so far |
| SegmentJobs.FailKeeps | vasr-transcribe/src/pipeline.rs:987-1012 | a failed batch keeps every job's books |
| AudioChunking.SplitAudioIntoChunks | vasr-models/src/audio/chunking.rs:19-135 | the chunks start at the cuts, carry their offsets and are padded with silence to the minimum; each cut is the quietest sample of the leftmost window of least energy in its search range |
| AudioChunking.SplitRejoins | vasr-models/src/audio/chunking.rs:40-132 | without padding the chunks join to the input, and all but the last have between half and one and a half times the target length |
| AudioChunking.CutBounds | vasr-models/src/audio/chunking.rs:56-106 | the bounds of one chunk |
| AudioChunking.CutUnique | vasr-models/src/audio/chunking.rs:56-106 | there is only one such cut |
| AudioChunking.StartsUnique | vasr-models/src/audio/chunking.rs:40-132 | the audio determines all cuts |
| AudioChunking.FindQuietestWindow | vasr-models/src/audio/chunking.rs:72-83 | the sliding sum tracks the energy of every window |
| FeatLengths.RowsOf | vasr-models/src/processor/feat_lengths.rs:9-31 | thirteen rows for each full hundred frames, one for each eight begun after that |
| FeatLengths.RowsAdd | vasr-models/src/processor/feat_lengths.rs:23-31 | lengths add at multiples of a hundred |
| FeatLengths.RowsAddOnlyThere | vasr-models/src/processor/feat_lengths.rs:23-31 | and at no other length |
| FeatureExtractor.FeaturesStable | vasr-models/src/processor/feature_extractor.rs:255-395 | while the largest value stays the same more audio changes no feature but the last |
| FeatureExtractor.MaxLogIsMax | vasr-models/src/processor/feature_extractor.rs:255-309 | the level features are compressed to is the largest value there is |
| FeatureExtractor.CompressMeans | vasr-models/src/processor/feature_extractor.rs:392-395 | values more than eight below it are raised to that, then everything is moved by four and divided by four |
| FeatureExtractor.ReflectBehind | vasr-models/src/processor/feature_extractor.rs:431-445 | samples behind the end of the audio are those before it, backwards |
| FeatureExtractor.ReflectRepeats | vasr-models/src/processor/feature_extractor.rs:431-445 | samples beyond the audio are reflected at its ends, again and again |
| FeatureExtractor.StreamingFeatureExtractor.Update | vasr-models/src/processor/feature_extractor.rs:255-309 | the incremental extractor holds the features of the whole audio |
| FeatureExtractor.StreamingFeatureExtractor.PushFramesRaw | vasr-models/src/processor/feature_extractor.rs:311-361 | the frames it recomputes are those of the whole audio |
| AudioEncoder.EncodedSplit | vasr-models/src/model/audio_encoder.rs:593-735 | frames before and after a segment boundary can be encoded apart |
| AudioEncoder.HundredAccepted | vasr-models/src/model/audio_encoder.rs:593-735 | with flash attention and a window of a hundred frames every length is accepted |
| AudioEncoder.OnlyHundredAccepted | vasr-models/src/model/audio_encoder.rs:593-735 | with any other window some length is refused |
| AudioEncoder.FiftyAccepted | vasr-models/src/model/audio_encoder.rs:593-735 | with flash attention every length is accepted if and only if `nWindow` is fifty |
| AudioEncoder.DefaultRefused | vasr-models/src/model/audio_encoder.rs:593-735 | with flash attention and the default `nWindow` of a hundred two hundred frames are refused |
| EncoderForward.CuSeqlensFromAftercnnLen | vasr-models/src/model/audio_encoder.rs:85-139 | segment boundaries at multiples of the segment size and at the end, with the exact error condition |
| EncoderForward.ForwardOne | vasr-models/src/model/audio_encoder.rs:593-735 | windows, ragged gather and attention together give the encoded rows, and fail exactly when the encoder does not accept the length |
| EncoderForward.RaggedIndices | vasr-models/src/model/audio_encoder.rs:689-711 | gathering by the ragged indices is concatenating the kept rows |
| AudioStream.AsrStream.AudioFeaturesForStep | vasr-models/src/inference/streaming.rs:234-368 | whatever is cached, the step returns what encoding from scratch would; none of its length checks fails |
| AudioStream.CachedPrefix | vasr-models/src/inference/streaming.rs:309-343 | the reused rows are those of the present audio |
| AudioStream.RecomputeFrom | vasr-models/src/inference/streaming.rs:45-51 | recomputing starts at the segment that holds the last cached frame |
| AudioStream.FirstFrame | vasr-models/src/inference/streaming.rs:77-95 | a windowed step encodes the last frames of the window, rounded to the nearest frame, or all there are |
| AudioStream.AsrStream.AudioCacheSegmentFrames | vasr-models/src/inference/streaming.rs:203-232 | a segment length exactly when segments are encoded apart |
| RepetitionRepair.FixPatternRepeats | vasr-models/src/inference/utils.rs:156-214 | collapses the leftmost start's shortest pattern that repeats often enough to one copy, and recurses behind the repeat |
| RepetitionRepair.DetectAndFixRepetitions | vasr-models/src/inference/utils.rs:219-225 | the character pass and then the pattern pass with patterns of up to 20 characters; the result is a subsequence of the text with the same characters |
| RepetitionRepair.FixCharRepeats | vasr-models/src/inference/utils.rs:130-154 | runs longer than the threshold become one character |
| RepetitionRepair.CompressedUnique | vasr-models/src/inference/utils.rs:156-214 | the text determines its compression |
| RepetitionRepair.CompressKeeps | vasr-models/src/inference/utils.rs:156-214 | the result is a subsequence with the same characters |
| RepetitionRepair.CollapseIdempotent | vasr-models/src/inference/utils.rs:130-154 | the character pass is idempotent |
| RepetitionRepair.CollapseKeeps | vasr-models/src/inference/utils.rs:130-154 | it leaves a subsequence with the same characters |
| RepetitionRepair.CompressIdentityIff | vasr-models/src/inference/utils.rs:156-214 | from threshold two on exactly the texts without such a repeat stay as they are |
| RepetitionRepair.OnePassEnough | vasr-models/src/inference/utils.rs:156-214 | the result has no such repeat if and only if no stretch of the text, collapsed in front of what becomes of the rest, leaves copies that reach past the kept one or lie within it; a condition on the text alone |
| RepetitionRepair.OneStretchIff | vasr-models/src/inference/utils.rs:156-214 | when only the first repeat is collapsed: the result, and that it has no repeat if and only if the kept copy does not rejoin the text around it |
| RepetitionRepair.OnePassForAllIff | vasr-models/src/inference/utils.rs:156-214 | one pass is enough for every text if and only if patterns are single characters |
| RepetitionRepair.BothPassesAgain | vasr-models/src/inference/utils.rs:219-225 | for every threshold from two on there is a text that both passes together change again when run on their result |
| RepetitionRepair.SecondPassIff | vasr-models/src/inference/utils.rs:156-214 | a second pass changes nothing under exactly that condition |
| RepetitionRepair.CompressedRepeats | vasr-models/src/inference/utils.rs:156-214 | for every threshold from two on a text whose result does repeat that often |
| TokenPasses.RejoinKeeps | vasr-models/src/forced_aligner/processor.rs:237-310 | a pass that only joins tokens keeps the text and makes no empty token |
| TokenPasses.JoinsOneScript | vasr-models/src/forced_aligner/processor.rs:237-590 | the repairs only join hiragana, and the kanji pass only kanji: every other token stays as it is |
| TokenPasses.RepairPairs | vasr-models/src/forced_aligner/processor.rs:513-589 | the bridge and prefix repairs only join neighbours, by their rules |
| TokenPasses.MergeTerms | vasr-models/src/forced_aligner/processor.rs:237-310 | greedy longest-term joining, in order |
| TokenPasses.MergeKanji | vasr-models/src/forced_aligner/processor.rs:237-310 | runs of single kanji are joined |
| TokenPasses.SplitTokens | vasr-models/src/forced_aligner/processor.rs:391-702 | the particle, digit and katakana passes are token-wise splits |
| TokenPasses.SplitByToken | vasr-models/src/forced_aligner/processor.rs:391-702 | a splitting pass treats every token by itself |
| TokenPasses.SplitKeeps | vasr-models/src/forced_aligner/processor.rs:391-702 | they keep the text and make no empty token |
| TokenPasses.ParticleSplitKeeps | vasr-models/src/forced_aligner/processor.rs:391-503 | so does the particle splitter |
| TokenPasses.ParticlesWhen | vasr-models/src/forced_aligner/processor.rs:391-503 | which tokens are looked at for particles: hiragana of six characters with a particle inside, and honorifics, which are cut apart instead |
| TokenPasses.ParticleCuts | vasr-models/src/forced_aligner/processor.rs:391-503 | with several particles a token is cut before and after each of them and nowhere else |
| TokenPasses.OneParticleCuts | vasr-models/src/forced_aligner/processor.rs:391-503 | a single particle cuts exactly the tokens of seven characters or more with two on either side |
| TokenPasses.TailCuts | vasr-models/src/forced_aligner/processor.rs:391-503 | a piece is cut exactly if it is a hiragana stem of two characters or more with a sentence ending, and before the longest one |
| TokenPasses.DigitCuts | vasr-models/src/forced_aligner/processor.rs:664-675 | exactly tokens of several characters, all digits, are cut into their digits |
| TokenPasses.KatakanaCuts | vasr-models/src/forced_aligner/processor.rs:682-702 | exactly katakana tokens that end in the word for katakana after two characters or more are cut before it |
| AlignerTokens.TokenizeJapaneseFallback | vasr-models/src/forced_aligner/processor.rs:591-634 | the buffers spell out the maximal runs of one script class |
| AlignerTokens.FallbackSpells | vasr-models/src/forced_aligner/processor.rs:591-634 | the fallback's tokens spell the cleaned text |
| AlignerTokens.FallbackSplitsScripts | vasr-models/src/forced_aligner/processor.rs:591-634 | no token of the fallback mixes kanji, hiragana and other scripts |
| AlignerTokens.CleanOne | vasr-models/src/forced_aligner/processor.rs:312-334 | a character is kept or left out, and cleaning a text is cleaning its characters |
| AlignerTokens.CleanKeepsExactly | vasr-models/src/forced_aligner/processor.rs:312-334 | cleaning keeps exactly the characters to be kept, as often as they occur, and leaves a text of them alone |
| AlignerTokens.CleanAllByToken | vasr-models/src/forced_aligner/processor.rs:591-662 | tokens are cleaned one by one, and left out when nothing is kept of them |
| AlignerTokens.RunsAreMaximal | vasr-models/src/forced_aligner/processor.rs:591-634 | the runs are the maximal stretches of one class from left to right and leave out dropped characters only |
| AlignerTokens.TokenizeJapanese | vasr-models/src/forced_aligner/processor.rs:646-662 | all passes together: no empty token, and the tokens spell the cleaned text if the analyser's do |
| AlignerTokens.KoreanSpells | vasr-models/src/forced_aligner/processor.rs:704-770 | the Korean tokens spell the cleaned text, none empty |
| AlignerTokens.SplitKoreanToken | vasr-models/src/forced_aligner/processor.rs:704-740 | the left part is the longest dictionary word of at least two characters the token starts with, or the whole token |
| AlignerTokens.SpaceSpells | vasr-models/src/forced_aligner/processor.rs:794-804 | the space tokenizer's tokens spell the cleaned text, none empty |
| AlignerTokens.SpaceTokensByWord | vasr-models/src/forced_aligner/processor.rs:794-804 | every word is cleaned and split by itself |
| AlignerTokens.SplitSegmentWithChinese | vasr-models/src/forced_aligner/processor.rs:772-792 | CJK characters stand alone, the rest in stretches |
| AlignerTokens.PiecesApart | vasr-models/src/forced_aligner/processor.rs:772-792 | a piece is a single CJK character or has none, and no two neighbours have none |

## Left out

- Tensor numerics: attention, projections, dtype conversion and f32 rounding. Times, samples and features are reals.
- Integer overflow, saturation and conversions between widths; sizes are taken to be in range.
- Batches without audio features (`audio_features = None`).
- Audio placeholders among padding: prepared rows are right-padded without them, as the processor builds them; this is the `CleanRow` and `CleanPadding` requirement of the engines.
- The loop without end: the scheduler method returns `Stalled` in a schedule that is its own only successor, where the source keeps looping.
- The slot's own copy of its block table, which the engine refreshes before use.
- Timing counters, logging, and the wording of errors.
- A graph replay that fails half-way and is repeated without a graph.
- Encoding the audio of a micro-batch row by row: `GreedyTranscripts` assumes that a row's audio rows depend on its own spectrogram only.
- Sorting with ties in `rebatch_prepared_inputs`, whose sort is unstable; the model's order is one of those it may produce.
- The order in which the jobs of a failed batch are answered, which is a hash set's.
- Speech jobs on the path of whole jobs, which the stage before never sends there, and the worker's state after a panic.
- Deduplicating equal inputs before, and expanding their outcomes after, the pipeline.
- Features are kept frame by frame, where the source stores one plane per mel band.
- Feature extraction with a padded waveform length, mel filter values and windows.
- Convolving windows in groups of `conv_chunksize`, which changes no window.
- Threshold zero in the repetition compressor, for which the source indexes past the end.
- The Japanese analyser, normalisation, whitespace and character classes: parameters of the tokenizer passes.
- `encode_timestamp`, language names, prompt building and output parsing: easy members only.
- HTTP and WebSocket services, downloads, audio decoding, configuration, the realtime crates.
- ContinuousScheduler.RoomyRunsFinish: sufficient, not necessary; with several places the exact bound depends on the whole schedule, and is exact for one place in `OnePlace.OnePlaceOutcome`.
- StaticBatch.PagedBatchRun: the capacity condition is sufficient, not necessary.
- LosingBranch.ClientOutcome: a client that lost a token and whose greedy output is shorter than the budget may still come out right by chance; the contract bounds its length only.
- AlignerTokens.TokenizeJapanese: that the tokens spell the text rests on the analyser's surfaces spelling it.
- GreedyTranscripts.GenerateRawPaged: an error stands for a run without end, too.
- ChunkTranscription.RunAsrOnChunksBatched: for the continuous engine without room it promises no transcript; which rows are right then is said call by call in `GreedyTranscripts.GenerateRawPaged`.
