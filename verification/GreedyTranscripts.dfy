/** From chunk to text through the paged engines: micro-batches, padding, waves and block reuse included, the
    transcript of a chunk is the decoded greedy output of its own prompt. */
module GreedyTranscripts {
  import opened Prelude
  import opened Decoding
  import opened BlockPool
  import opened SlotMapping
  import opened PagedKvCache
  import opened PagedCacheRuntime
  import opened PrefillInput
  import opened PagedBatchPrefill
  import opened ContinuousBatch
  import opened SchedulerPass
  import opened BatchRuns
  import opened CapacityRuns
  import opened LosingBranch
  import opened StaticCapacity
  import opened WaveInput
  import opened ContinuousScheduler
  import opened StaticBatch
  import opened EngineAgreement
  import opened ChunkGrouping
  import opened ChunkBatching

  /** The speech model: the network, its end tokens and budget, the audio encoder and the text decoder. */
  datatype Speech = Speech(net: Network, eos: seq<Token>, maxNew: nat, audioId: Token,
                           encode: seq<real> -> seq<AudioRow>, decode: seq<Token> -> string)

  /** A prompt's placeholders are exactly the audio rows of its spectrogram. */
  predicate AudioMatches(m: Speech, row: PreparedInputs) {
    CountAudio(ClientTokens(row), m.audioId) == |m.encode(row.inputFeatures)|
  }

  function OwnPrompt(m: Speech, tokens: seq<Token>, features: seq<real>): seq<Item> {
    if CountAudio(tokens, m.audioId) <= |m.encode(features)| then Merge(tokens, m.audioId, m.encode(features)) else []
  }

  /** What the model writes for one prompt on its own. */
  function AloneText(m: Speech, tokens: seq<Token>, features: seq<real>): string {
    m.decode(Greedy(m.net, m.eos, OwnPrompt(m, tokens, features), m.maxNew))
  }

  function TextOf(m: Speech, row: PreparedInputs): string {
    AloneText(m, ClientTokens(row), row.inputFeatures)
  }

  /** The row-wise recogniser this model amounts to. */
  function RecogniserOf(m: Speech, tokens: (string, seq<real>) -> seq<Token>, features: seq<real> -> seq<real>,
                        parse: (string, Option<string>) -> (string, string)): Recogniser
  {
    Recogniser(tokens, features, (toks, feats) => AloneText(m, toks, feats), parse)
  }

  function Encoded(m: Speech, rows: seq<PreparedInputs>): (audio: seq<seq<AudioRow>>)
    ensures |audio| == |rows|
  {
    seq(|rows|, i requires 0 <= i < |rows| => m.encode(rows[i].inputFeatures))
  }

  lemma {:induction false} EncodedOffset(m: Speech, rows: seq<PreparedInputs>, k: nat)
    requires k <= |rows| && forall i :: 0 <= i < |rows| ==> AudioMatches(m, rows[i])
    ensures AudioOffset(ClientRows(rows), m.audioId, k) == Sum(Lengths(Encoded(m, rows))[..k])
  {
    hide CountAudio, ClientTokens;
    if k > 0 {
      EncodedOffset(m, rows, k - 1);
      SumPrefix(Lengths(Encoded(m, rows)), k - 1);
      assert AudioMatches(m, rows[k - 1]);
    }
  }

  /** The audio of a batch back to back: each row's stretch is its own. */
  lemma BatchAudio(m: Speech, rows: seq<PreparedInputs>)
    requires forall i :: 0 <= i < |rows| ==> AudioMatches(m, rows[i])
    ensures AudioOffset(ClientRows(rows), m.audioId, |rows|) == |Flatten(Encoded(m, rows))|
    ensures forall i :: 0 <= i < |rows| ==>
              Prompts(ClientRows(rows), m.audioId, Flatten(Encoded(m, rows)))[i] ==
                OwnPrompt(m, ClientTokens(rows[i]), rows[i].inputFeatures)
  {
    hide CountAudio, ClientTokens, Merge, Flatten, AudioOffset, Sum;
    var audio := Encoded(m, rows);
    EncodedOffset(m, rows, |rows|);
    FlattenLength(audio);
    assert Lengths(audio)[..|rows|] == Lengths(audio);
    forall i: nat | i < |rows|
      ensures AudioOf(ClientRows(rows), m.audioId, Flatten(audio), i) == m.encode(rows[i].inputFeatures)
      ensures AudioMatches(m, rows[i])
    {
      EncodedOffset(m, rows, i);
      EncodedOffset(m, rows, i + 1);
      SumPrefix(Lengths(audio), i);
      FlattenRow(audio, i);
    }
  }

  /** A row that can enter a micro-batch. */
  ghost predicate ReadyRow(m: Speech, row: PreparedInputs) {
    && RightPadded(row.attentionMask) && PromptLen(row) <= |row.inputIds|
    && AudioMatches(m, row)
  }

  /** A row of a micro-batch. */
  ghost predicate BatchRow(m: Speech, row: PreparedInputs, len: nat) {
    && ReadyRow(m, row) && CleanRow(row, m.audioId)
    && |row.inputIds| == |row.attentionMask| == len
  }

  lemma RepaddedReady(m: Speech, row: PreparedInputs, len: nat, padId: Token)
    requires ReadyRow(m, row) && PromptLen(row) <= len && padId != m.audioId
    ensures BatchRow(m, Repadded(row, len, padId), len)
    ensures TextOf(m, Repadded(row, len, padId)) == TextOf(m, row)
  {
    hide ClientTokens, AloneText, PromptLen;
    RepaddedMeans(row, len, padId);
    RepaddedFeatures(row, len, padId);
    CountAudioNone(Padding(len - PromptLen(row), padId), m.audioId);
    assert PaddedIds(row, len, padId)[PromptLen(row)..] == Padding(len - PromptLen(row), padId);
  }

  function EnvFor(m: Speech, rows: seq<PreparedInputs>, numBlocks: nat): Env
    requires AudioOffset(ClientRows(rows), m.audioId, |rows|) <= |Flatten(Encoded(m, rows))|
  {
    EnvOf(m.net, m.eos, m.maxNew, rows, m.audioId, Flatten(Encoded(m, rows)), numBlocks, |rows|)
  }

  /** A pool nobody uses, with room for the whole budget of `batch` rows at a time, whichever prompts of these
      lengths they have. */
  ghost predicate RoomFor(m: Speech, lens: seq<nat>, p: Pool, numBlocks: nat, batch: nat, limit: nat) {
    && p.blockSize > 0 && Unowned(p) && m.eos != []
    && batch * limit < numBlocks
    && forall i :: 0 <= i < |lens| ==> LenFits(m, p.blockSize, lens[i], numBlocks, limit)
  }

  predicate LenFits(m: Speech, blockSize: nat, len: nat, numBlocks: nat, limit: nat)
    requires blockSize > 0
  {
    && len > 0
    && DivCeil(len + m.maxNew, blockSize) <= limit
    && DivCeil(len, blockSize) + 1 < numBlocks
  }

  lemma RoomyBatch(m: Speech, rows: seq<PreparedInputs>, len: nat, p: Pool, numBlocks: nat, limit: nat)
    requires rows != [] && m.maxNew > 0 && forall k :: 0 <= k < |rows| ==> BatchRow(m, rows[k], len)
    requires AudioOffset(ClientRows(rows), m.audioId, |rows|) == |Flatten(Encoded(m, rows))|
    requires RoomFor(m, PromptLensOf(rows), p, numBlocks, |rows|, limit)
    ensures Roomy(EnvFor(m, rows, numBlocks), p.blockSize, limit)
    ensures forall k :: 0 <= k < |rows| ==> PromptLen(rows[k]) <= |rows[k].inputIds|
  {
    hide AudioOffset, Flatten, CountAudio, Merge, AudioOf, MaskLen, DivCeil;
    forall k | 0 <= k < |rows|
      ensures PromptLensOf(rows)[k] == |ClientRows(rows)[k]| == PromptLen(rows[k]) <= |rows[k].inputIds|
      ensures LenFits(m, p.blockSize, PromptLen(rows[k]), numBlocks, limit)
    {
      assert BatchRow(m, rows[k], len) && LenFits(m, p.blockSize, PromptLensOf(rows)[k], numBlocks, limit);
    }
  }

  lemma StaticRoom(m: Speech, rows: seq<PreparedInputs>, len: nat, p: Pool, numBlocks: nat, limit: nat, packed: bool)
    requires rows != [] && forall k :: 0 <= k < |rows| ==> BatchRow(m, rows[k], len)
    requires AudioOffset(ClientRows(rows), m.audioId, |rows|) == |Flatten(Encoded(m, rows))|
    requires forall k :: 0 <= k < |rows| ==> |IdRowsOf(rows)[k]| == |MasksOf(rows)[k]|
    requires VisibleRows(IdRowsOf(rows), MasksOf(rows)) == ClientRows(rows)
    requires RoomFor(m, PromptLensOf(rows), p, numBlocks, |rows|, limit)
    ensures RoomForBatch(p, numBlocks, IdRowsOf(rows), MasksOf(rows), m.audioId, Flatten(Encoded(m, rows)), 0, m.maxNew,
                         m.eos, packed)
  {
    hide AudioOffset, Flatten, VisibleRows, ClientTokens, MaskLen, DivCeil;
    forall k | 0 <= k < |rows|
      ensures MaskLens(MasksOf(rows))[k] == PromptLen(rows[k]) && |IdRowsOf(rows)[k]| == |MasksOf(rows)[k]| == len
      ensures len >= PromptLen(rows[k]) > 0
      ensures DivCeil(PromptLen(rows[k]) + m.maxNew, p.blockSize) <= limit
    {
      assert BatchRow(m, rows[k], len) && LenFits(m, p.blockSize, PromptLensOf(rows)[k], numBlocks, limit);
    }
    assert RoomPerRow(p.blockSize, numBlocks, MaskLens(MasksOf(rows)), m.maxNew, limit);
  }

  /** The engines' precondition on a batch of repadded rows. */
  lemma BatchIsClean(m: Speech, rows: seq<PreparedInputs>, len: nat)
    requires forall k :: 0 <= k < |rows| ==> BatchRow(m, rows[k], len)
    ensures CleanBatch(IdRowsOf(rows), MasksOf(rows), m.audioId)
  {
    hide CountAudio, MaskLen, ClientTokens;
    forall k | 0 <= k < |rows|
      ensures CleanPadding(rows[k].inputIds, rows[k].attentionMask, m.audioId)
    {
      assert BatchRow(m, rows[k], len);
      PaddingClean(rows[k], m.audioId);
    }
  }

  lemma PaddingClean(row: PreparedInputs, audioId: Token)
    requires CleanRow(row, audioId) && |row.inputIds| == |row.attentionMask|
    ensures CleanPadding(row.inputIds, row.attentionMask, audioId)
  {
    RightPaddedMask(row.attentionMask);
    NoneCounted(row.inputIds[PromptLen(row)..], audioId);
  }

  lemma {:induction false} NoneCounted(ids: seq<Token>, audioId: Token)
    requires CountAudio(ids, audioId) == 0
    ensures forall p :: 0 <= p < |ids| ==> ids[p] != audioId
  {
    if ids != [] {
      NoneCounted(ids[..|ids| - 1], audioId);
    }
  }

  // ----- one micro-batch through either engine

  /** The continuous engine ran on these rows, in this cache, along this trace, to this result. */
  ghost predicate Traced(m: Speech, rows: seq<PreparedInputs>, c: Cache, numBlocks: nat, trace: seq<Sched>,
                         r: RunResult)
  {
    && AudioOffset(ClientRows(rows), m.audioId, |rows|) == |Flatten(Encoded(m, rows))|
    && RunsTo(EnvFor(m, rows, numBlocks), rows, c, 0, trace, r)
  }

  /** The run never moved row `k` on without a token. The static engine, which has no trace, moves nobody on. */
  ghost predicate RowKept(m: Speech, rows: seq<PreparedInputs>, numBlocks: nat, continuous: bool, trace: seq<Sched>,
                          k: nat)
  {
    continuous ==>
      && trace != [] && AudioOffset(ClientRows(rows), m.audioId, |rows|) <= |Flatten(Encoded(m, rows))|
      && Losses(EnvFor(m, rows, numBlocks), trace[..|trace| - 1], k) == 0
  }

  /** Every row that was kept has the text it has alone. */
  ghost predicate KeptTexts(m: Speech, rows: seq<PreparedInputs>, numBlocks: nat, continuous: bool, trace: seq<Sched>,
                            outputs: seq<seq<Token>>)
  {
    && |outputs| == |rows|
    && forall k :: 0 <= k < |rows| && RowKept(m, rows, numBlocks, continuous, trace, k) ==>
         m.decode(outputs[k]) == TextOf(m, rows[k])
  }

  ghost predicate AllKept(m: Speech, rows: seq<PreparedInputs>, numBlocks: nat, continuous: bool, trace: seq<Sched>) {
    forall k :: 0 <= k < |rows| ==> RowKept(m, rows, numBlocks, continuous, trace, k)
  }

  lemma ContinuousTexts(m: Speech, rows: seq<PreparedInputs>, c: Cache, numBlocks: nat, trace: seq<Sched>, r: RunResult)
    requires (forall k :: 0 <= k < |rows| ==> AudioMatches(m, rows[k])) && rows != [] && ValidCache(c, numBlocks)
    requires Traced(m, rows, c, numBlocks, trace, r) && r.Done?
    ensures KeptTexts(m, rows, numBlocks, true, trace, r.outputs)
  {
    hide ValidCache, AudioOffset, Flatten, ClientTokens, CountAudio, Greedy, Merge, OwnPrompt, AudioMatches, Prompts,
         Losses, BatchRuns.Run, Start, Admitted;
    BatchAudio(m, rows);
    var env := EnvFor(m, rows, numBlocks);
    DoneOutputs(env, rows, c, trace, r);
    forall k: nat | k < |rows| && RowKept(m, rows, numBlocks, true, trace, k)
      ensures m.decode(r.outputs[k]) == TextOf(m, rows[k])
    {
      ClientOutcome(env, c, 0, trace, k);
    }
  }

  lemma DoneOutputs(env: Env, rows: seq<PreparedInputs>, c: Cache, trace: seq<Sched>, r: RunResult)
    requires ValidCache(c, env.numBlocks) && |env.lens| == |env.prompts| && RunsTo(env, rows, c, 0, trace, r) && r.Done?
    ensures var last := trace[|trace| - 1];
            && r.outputs == last.outputs && |r.outputs| == |env.prompts| && |last.waiting| <= |env.prompts|
            && forall client: nat :: client < |env.prompts| ==> DoneClient(env, last, client)
  {
    hide BatchRuns.Run, Start, WellFormed;
    StartIsWellFormed(env, c, 0);
    EveryStateWellFormed(env, trace, |trace| - 1);
    OutputsOfAll(env, trace[|trace| - 1]);
  }

  lemma StaticTexts(m: Speech, rows: seq<PreparedInputs>, len: nat, outputs: seq<seq<Token>>)
    requires forall k :: 0 <= k < |rows| ==> BatchRow(m, rows[k], len)
    requires GreedyOutputs(m.net, m.eos, m.maxNew, IdRowsOf(rows), MasksOf(rows), m.audioId, Flatten(Encoded(m, rows)),
                           outputs)
    ensures |outputs| == |rows| && forall k :: 0 <= k < |rows| ==> m.decode(outputs[k]) == TextOf(m, rows[k])
  {
    RowsMatch(m, rows, len);
    hide AudioOffset, Flatten, ClientTokens, CountAudio, Greedy, Merge, OwnPrompt, AudioMatches, Prompts, BatchPrompts,
         VisibleRows, ClientRows, Encoded, BatchRow;
    BatchAudio(m, rows);
    var audio := Flatten(Encoded(m, rows));
    SamePrompts(rows, m.audioId, audio);
    forall k | 0 <= k < |rows|
      ensures m.decode(outputs[k]) == TextOf(m, rows[k])
    {
      var prompt := BatchPrompts(IdRowsOf(rows), MasksOf(rows), m.audioId, audio)[k];
      assert outputs[k] == Greedy(m.net, m.eos, prompt, m.maxNew);
    }
  }

  lemma RowsMatch(m: Speech, rows: seq<PreparedInputs>, len: nat)
    requires forall k :: 0 <= k < |rows| ==> BatchRow(m, rows[k], len)
    ensures forall k :: 0 <= k < |rows| ==>
              AudioMatches(m, rows[k]) && CleanRow(rows[k], m.audioId) && |rows[k].inputIds| == |rows[k].attentionMask|
  {
    hide AudioMatches, CleanRow, PromptLen, RightPadded;
  }

  /** With room for all its rows a batch is done, leaves no block behind, and loses nobody. */
  ghost predicate RoomIsEnough(m: Speech, rows: seq<PreparedInputs>, p: Pool, numBlocks: nat, q: Pool, continuous: bool,
                               trace: seq<Sched>, r: RunResult)
  {
    forall limit: nat :: RoomFor(m, PromptLensOf(rows), p, numBlocks, |rows|, limit)
      ==> r.Done? && Unowned(q) && AllKept(m, rows, numBlocks, continuous, trace)
  }

  method RunContinuously(m: Speech, rt: PagedCacheRuntime, rows: seq<PreparedInputs>, padId: Token, packed: bool,
                         ghost len: nat)
    returns (r: RunResult, ghost trace: seq<Sched>)
    requires rt.Valid() && padId != m.audioId && rows != [] && m.maxNew > 0
    requires forall k :: 0 <= k < |rows| ==> BatchRow(m, rows[k], len)
    modifies rt.manager, rt.cache
    ensures rt.Valid()
    ensures Traced(m, rows, old(rt.View()), rt.cache.numBlocks, trace, r) && trace != []
    ensures r.Done? ==> KeptTexts(m, rows, rt.cache.numBlocks, true, trace, r.outputs)
    ensures r.Done? ==> rt.View() == trace[|trace| - 1].cache
    ensures RoomIsEnough(m, rows, old(rt.manager.View()), rt.cache.numBlocks, rt.manager.View(), true, trace, r)
  {
    hide BatchRow, AudioMatches, CleanRow, AudioOffset, RunsTo, Flatten, Encoded, ClientRows, BlockPool.Valid,
         KeptTexts,
         RoomIsEnough, EnvOf;
    RowsMatch(m, rows, len);
    BatchAudio(m, rows);
    ghost var c := rt.View();
    var scheduler := new AsrBatchScheduler(|rows|);
    r, trace := scheduler.RunContinuousPrepared(m.net, rt, m.audioId, padId, rows, Flatten(Encoded(m, rows)), m.maxNew,
                                                m.eos,
                                                packed);
    if r.Done? {
      ContinuousTexts(m, rows, c, rt.cache.numBlocks, trace, r);
    }
    SomeTrace(m, rows, c, rt.cache.numBlocks, trace, r);
    ContinuousRoom(m, rows, len, c, rt.cache.numBlocks, trace, r, rt.manager.View());
  }

  lemma SomeTrace(m: Speech, rows: seq<PreparedInputs>, c: Cache, numBlocks: nat, trace: seq<Sched>, r: RunResult)
    requires Traced(m, rows, c, numBlocks, trace, r)
    ensures trace != []
  {
  }

  lemma ContinuousRoom(m: Speech, rows: seq<PreparedInputs>, len: nat, c: Cache, numBlocks: nat, trace: seq<Sched>,
                       r: RunResult, q: Pool)
    requires rows != [] && m.maxNew > 0 && (forall k :: 0 <= k < |rows| ==> BatchRow(m, rows[k], len))
    requires ValidCache(c, numBlocks)
    requires Traced(m, rows, c, numBlocks, trace, r)
    requires trace != [] && (r.Done? ==> q == trace[|trace| - 1].cache.pool)
    ensures RoomIsEnough(m, rows, c.pool, numBlocks, q, true, trace, r)
  {
    hide BatchRow, AudioOffset, RunsTo, Flatten, Encoded, ClientRows, ValidCache, RoomFor, EnvFor, Unowned,
         PromptLensOf;
    forall limit: nat | RoomFor(m, PromptLensOf(rows), c.pool, numBlocks, |rows|, limit)
      ensures r.Done? && Unowned(q) && AllKept(m, rows, numBlocks, true, trace)
    {
      RoomyRun(m, rows, len, c, numBlocks, limit, trace, r);
    }
  }

  lemma RoomyRun(m: Speech, rows: seq<PreparedInputs>, len: nat, c: Cache, numBlocks: nat, limit: nat,
                 trace: seq<Sched>,
                 r: RunResult)
    requires rows != [] && m.maxNew > 0 && (forall k :: 0 <= k < |rows| ==> BatchRow(m, rows[k], len))
    requires ValidCache(c, numBlocks)
    requires RoomFor(m, PromptLensOf(rows), c.pool, numBlocks, |rows|, limit) && Traced(m, rows, c, numBlocks, trace, r)
    ensures trace != [] && r.Done? && Unowned(trace[|trace| - 1].cache.pool) && AllKept(m, rows, numBlocks, true, trace)
  {
    var env := EnvFor(m, rows, numBlocks);
    RoomyBatch(m, rows, len, c.pool, numBlocks, limit);
    hide BatchRow, AudioOffset, Roomy, Flatten, ValidCache, PromptLen, PassBumps, EndsIn, BatchRuns.Run, Start, EnvOf,
         EnvFor,
         Losses;
    RoomyRunsFinish(env, rows, c, 0, limit, trace, r);
    EmptyTables(m, rows, c.pool, numBlocks, limit);
    ContinuousReturnsBlocks(env, rows, c, 0, trace, r);
    FewerBumps(env, trace);
    SomebodyLost(env, trace[..|trace| - 1]);
  }

  lemma FewerBumps(env: Env, trace: seq<Sched>)
    requires trace != [] && NoBumps(env, trace)
    ensures NoBumps(env, trace[..|trace| - 1])
  {
    hide PassBumps;
  }

  lemma EmptyTables(m: Speech, rows: seq<PreparedInputs>, p: Pool, numBlocks: nat, limit: nat)
    requires RoomFor(m, PromptLensOf(rows), p, numBlocks, |rows|, limit)
    ensures Unowned(p) && forall id: nat :: Table(p, id) == []
  {
  }

  method RunStatically(m: Speech, rt: PagedCacheRuntime, rows: seq<PreparedInputs>, packed: bool, ghost len: nat)
    returns (r: RunResult)
    requires rt.Valid() && rows != [] && m.maxNew > 0 && forall k :: 0 <= k < |rows| ==> BatchRow(m, rows[k], len)
    modifies rt.manager, rt.cache
    ensures rt.Valid() && !r.Stalled?
    ensures r.Done? ==>
              |r.outputs| == |rows| && forall k :: 0 <= k < |rows| ==> m.decode(r.outputs[k]) == TextOf(m, rows[k])
    ensures RoomIsEnough(m, rows, old(rt.manager.View()), rt.cache.numBlocks, rt.manager.View(), false, [], r)
  {
    hide BatchRow, AudioMatches, CleanRow, AudioOffset, CleanBatch, GreedyOutputs, RoomForBatch, Flatten, Encoded,
         ClientRows,
         BlockPool.Valid, VisibleRows, RoomIsEnough, RequestIds, TextOf;
    BatchIsClean(m, rows, len);
    ghost var p := rt.manager.View();
    var outputs :=
      PagedBatchRun(m.net, rt, m.audioId, IdRowsOf(rows), MasksOf(rows), Flatten(Encoded(m, rows)), 0, m.maxNew,
                                 m.eos, packed);
    r := if outputs.Ok? then Done(outputs.value) else Failed(outputs.error);
    if outputs.Ok? {
      StaticTexts(m, rows, len, outputs.value);
    }
    StaticOutcome(m, rows, len, p, rt.cache.numBlocks, packed, outputs, rt.manager.View(), r);
  }

  lemma StaticOutcome(m: Speech, rows: seq<PreparedInputs>, len: nat, p: Pool, numBlocks: nat, packed: bool,
                      outputs: Outcome<seq<seq<Token>>>, q: Pool, r: RunResult)
    requires rows != [] && m.maxNew > 0 && forall k :: 0 <= k < |rows| ==> BatchRow(m, rows[k], len)
    requires outputs.Ok? ==>
              r.Done? && forall id: nat :: Table(q, id) == if id in RequestIds(0, |rows|) then [] else Table(p, id)
    requires var audio := Flatten(Encoded(m, rows));
             RoomForBatch(p, numBlocks, IdRowsOf(rows), MasksOf(rows), m.audioId, audio, 0, m.maxNew, m.eos, packed) ==>
               outputs.Ok?
    ensures RoomIsEnough(m, rows, p, numBlocks, q, false, [], r)
  {
    hide BatchRow, AudioMatches, CleanRow, AudioOffset, RoomForBatch, RoomFor, Flatten, Encoded, ClientRows,
         VisibleRows, Unowned,
         Table, RequestIds, PromptLensOf;
    RowsMatch(m, rows, len);
    BatchAudio(m, rows);
    SamePrompts(rows, m.audioId, Flatten(Encoded(m, rows)));
    forall limit: nat | RoomFor(m, PromptLensOf(rows), p, numBlocks, |rows|, limit)
      ensures outputs.Ok? && Unowned(q)
    {
      StaticRoom(m, rows, len, p, numBlocks, limit, packed);
      StaysUnowned(m, rows, p, numBlocks, limit, q, RequestIds(0, |rows|));
    }
  }

  lemma StaysUnowned(m: Speech, rows: seq<PreparedInputs>, p: Pool, numBlocks: nat, limit: nat, q: Pool, ids: seq<nat>)
    requires RoomFor(m, PromptLensOf(rows), p, numBlocks, |rows|, limit)
    requires forall id: nat :: Table(q, id) == if id in ids then [] else Table(p, id)
    ensures Unowned(q)
  {
  }

  /** A batch of prepared rows through the continuous engine, or through the static one. */
  method RunPagedPreparedBatch(m: Speech, rt: PagedCacheRuntime, rows: seq<PreparedInputs>, padId: Token,
                               continuous: bool,
                               packed: bool, ghost len: nat)
    returns (r: RunResult, ghost trace: seq<Sched>)
    requires rt.Valid() && padId != m.audioId && rows != [] && m.maxNew > 0
    requires forall k :: 0 <= k < |rows| ==> BatchRow(m, rows[k], len)
    modifies rt.manager, rt.cache
    ensures rt.Valid()
    ensures continuous ==> Traced(m, rows, old(rt.View()), rt.cache.numBlocks, trace, r) && trace != []
    ensures continuous && r.Done? ==> rt.View() == trace[|trace| - 1].cache
    ensures !continuous ==> !r.Stalled?
    ensures r.Done? ==> KeptTexts(m, rows, rt.cache.numBlocks, continuous, trace, r.outputs)
    ensures RoomIsEnough(m, rows, old(rt.manager.View()), rt.cache.numBlocks, rt.manager.View(), continuous, trace, r)
  {
    hide BatchRow, BlockPool.Valid, Traced, TextOf, RoomIsEnough, RowKept;
    if continuous {
      r, trace := RunContinuously(m, rt, rows, padId, packed, len);
    } else {
      r := RunStatically(m, rt, rows, packed, len);
      trace := [];
    }
  }

  // ----- all micro-batches

  /** A budget of zero stands for the default. */
  function WithBudget(m: Speech): (b: Speech)
    ensures b.maxNew > 0 && (m.maxNew > 0 ==> b == m)
    ensures m.maxNew == 0 ==> b.maxNew == 256 && b.(maxNew := 0) == m
  {
    if m.maxNew == 0 then m.(maxNew := 256) else m
  }

  function RowsOfBatch(batch: seq<(nat, PreparedInputs)>): (rows: seq<PreparedInputs>)
    ensures |rows| == |batch|
  {
    seq(|batch|, k requires 0 <= k < |batch| => batch[k].1)
  }

  /** One call of the engine: its micro-batch, the caches it found and left, and how it went. */
  datatype EngineCall = EngineCall(
    batch: seq<(nat, PreparedInputs)>,
    before: Cache,
    trace: seq<Sched>,
    result: RunResult,
    after: Cache)

  ghost predicate CallTraced(m: Speech, numBlocks: nat, call: EngineCall) {
    && Traced(m, RowsOfBatch(call.batch), call.before, numBlocks, call.trace, call.result)
    && call.trace != [] && (call.result.Done? ==> call.after == call.trace[|call.trace| - 1].cache)
  }

  ghost predicate CallKept(m: Speech, numBlocks: nat, continuous: bool, call: EngineCall, k: nat) {
    RowKept(m, RowsOfBatch(call.batch), numBlocks, continuous, call.trace, k)
  }

  ghost function IndexLists(calls: seq<EngineCall>): (lists: seq<seq<nat>>)
    ensures |lists| == |calls|
  {
    seq(|calls|, n requires 0 <= n < |calls| => IndexesOf(calls[n].batch))
  }

  /** The calls were made: each on a micro-batch of these rows, on the cache the one before left, and as its
      trace says. */
  ghost predicate CallsMade(m: Speech, prepared: seq<PreparedInputs>, cap: nat, padId: Token, numBlocks: nat,
                            continuous: bool,
                            calls: seq<EngineCall>, before: Cache, after: Cache)
  {
    && before == (if calls == [] then after else calls[0].before)
    && after == (if calls == [] then before else calls[|calls| - 1].after)
    && (forall n :: 0 < n < |calls| ==> FollowsOn(calls[n - 1], calls[n]))
    && forall n :: 0 <= n < |calls| ==>
         MicroBatch(prepared, cap, padId, calls[n].batch) && (continuous ==> CallTraced(m, numBlocks, calls[n]))
  }

  ghost predicate FollowsOn(call: EngineCall, next: EngineCall) {
    call.result.Done? && next.before == call.after
  }

  /** What one row of one call wrote into its row's place. */
  ghost predicate PlaceRight(m: Speech, prepared: seq<PreparedInputs>, numBlocks: nat, continuous: bool,
                             call: EngineCall, k: nat,
                             out: seq<Option<string>>)
  {
    && k < |call.batch| && call.batch[k].0 < |prepared| == |out|
    && (CallKept(m, numBlocks, continuous, call, k) ==>
        out[call.batch[k].0] == Some(TextOf(m, prepared[call.batch[k].0])))
  }

  ghost predicate PlacesRight(m: Speech, prepared: seq<PreparedInputs>, numBlocks: nat, continuous: bool,
                              calls: seq<EngineCall>,
                              out: seq<Option<string>>)
  {
    forall n, k :: 0 <= n < |calls| && 0 <= k < |calls[n].batch| ==>
      PlaceRight(m, prepared, numBlocks, continuous, calls[n], k, out)
  }

  ghost predicate NobodyMovedOn(m: Speech, numBlocks: nat, continuous: bool, calls: seq<EngineCall>) {
    forall n, k :: 0 <= n < |calls| && 0 <= k < |calls[n].batch| ==> CallKept(m, numBlocks, continuous, calls[n], k)
  }

  /** A micro-batch is a batch of the engines, and says of each row what the row says itself. */
  lemma MicroBatchRows(m: Speech, prepared: seq<PreparedInputs>, cap: nat, padId: Token,
                       batch: seq<(nat, PreparedInputs)>)
    returns (len: nat)
    requires MicroBatch(prepared, cap, padId, batch) && padId != m.audioId
    requires forall i :: 0 <= i < |prepared| ==> ReadyRow(m, prepared[i])
    ensures 0 < |batch| <= cap
    ensures forall k :: 0 <= k < |batch| ==> BatchRow(m, RowsOfBatch(batch)[k], len)
    ensures forall k :: 0 <= k < |batch| ==> SameRow(m, prepared, batch[k])
  {
    hide ReadyRow, BatchRow, PromptLen, ClientTokens, AloneText, Repadded;
    len :| AllRepadded(prepared, padId, len, batch);
    forall k | 0 <= k < |batch|
      ensures BatchRow(m, RowsOfBatch(batch)[k], len)
      ensures SameRow(m, prepared, batch[k])
    {
      assert RepaddedFrom(prepared, padId, len, batch[k]);
      RepaddedReady(m, prepared[batch[k].0], len, padId);
      RepaddedMeans(prepared[batch[k].0], len, padId);
    }
  }

  ghost predicate SameRow(m: Speech, prepared: seq<PreparedInputs>, item: (nat, PreparedInputs)) {
    && item.0 < |prepared|
    && PromptLen(item.1) == PromptLen(prepared[item.0])
    && TextOf(m, item.1) == TextOf(m, prepared[item.0])
  }

  lemma MicroBatchRoom(m: Speech, prepared: seq<PreparedInputs>, batch: seq<(nat, PreparedInputs)>, p: Pool, q: Pool,
                       numBlocks: nat, cap: nat, limit: nat)
    requires RoomFor(m, PromptLensOf(prepared), p, numBlocks, cap, limit) && |batch| <= cap
    requires forall k :: 0 <= k < |batch| ==> SameRow(m, prepared, batch[k])
    requires q.blockSize == p.blockSize && Unowned(q)
    ensures RoomFor(m, PromptLensOf(RowsOfBatch(batch)), q, numBlocks, |batch|, limit)
  {
    hide PromptLen, TextOf, DivCeil, Unowned;
    MulMonotone(|batch|, cap, limit);
    forall k | 0 <= k < |batch|
      ensures PromptLensOf(RowsOfBatch(batch))[k] == PromptLensOf(prepared)[batch[k].0]
    {
      assert SameRow(m, prepared, batch[k]);
    }
  }

  method DecodeTexts(m: Speech, outputs: seq<seq<Token>>) returns (raws: seq<string>)
    ensures |raws| == |outputs| && forall k :: 0 <= k < |raws| ==> raws[k] == m.decode(outputs[k])
  {
    raws := seq(|outputs|, k requires 0 <= k < |outputs| => m.decode(outputs[k]));
  }

  /** One more call written to its places, which no earlier call has. */
  lemma ScatteredTexts(m: Speech, prepared: seq<PreparedInputs>, numBlocks: nat, continuous: bool,
                       calls: seq<EngineCall>,
                       call: EngineCall, raws: seq<string>, before: seq<Option<string>>, after: seq<Option<string>>)
    requires PlacesRight(m, prepared, numBlocks, continuous, calls, before) && |before| == |after| == |prepared|
    requires call.result.Done?
    requires KeptTexts(m, RowsOfBatch(call.batch), numBlocks, continuous, call.trace, call.result.outputs)
    requires |raws| == |call.batch| && forall k :: 0 <= k < |raws| ==> raws[k] == m.decode(call.result.outputs[k])
    requires forall k ::
              0 <= k < |call.batch| ==> SameRow(m, prepared, call.batch[k]) && after[call.batch[k].0] == Some(raws[k])
    requires forall i: nat :: i < |prepared| && i !in IndexesOf(call.batch) ==> after[i] == before[i]
    requires forall n, k ::
              0 <= n < |calls| && 0 <= k < |calls[n].batch| ==> calls[n].batch[k].0 !in IndexesOf(call.batch)
    ensures PlacesRight(m, prepared, numBlocks, continuous, calls + [call], after)
  {
    hide TextOf, RowKept, PromptLen;
    forall n, k | 0 <= n < |calls + [call]| && 0 <= k < |(calls + [call])[n].batch|
      ensures PlaceRight(m, prepared, numBlocks, continuous, (calls + [call])[n], k, after)
    {
      if n < |calls| {
        assert PlaceRight(m, prepared, numBlocks, continuous, calls[n], k, before);
      } else {
        assert SameRow(m, prepared, call.batch[k]) && RowsOfBatch(call.batch)[k] == call.batch[k].1;
      }
    }
  }

  /** What a call of all micro-batches returns: every row that was kept has the text of decoding it alone. */
  ghost predicate TextsKept(m: Speech, prepared: seq<PreparedInputs>, numBlocks: nat, continuous: bool,
                            calls: seq<EngineCall>,
                            texts: seq<string>)
  {
    && |texts| == |prepared| && Permutation(Flatten(IndexLists(calls)), |prepared|)
    && forall n, k ::
         0 <= n < |calls| && 0 <= k < |calls[n].batch| && CallKept(m, numBlocks, continuous, calls[n], k) ==>
         calls[n].batch[k].0 < |prepared| && texts[calls[n].batch[k].0] == TextOf(m, prepared[calls[n].batch[k].0])
  }

  lemma OneMoreCall(m: Speech, prepared: seq<PreparedInputs>, cap: nat, padId: Token, numBlocks: nat, continuous: bool,
                    calls: seq<EngineCall>, call: EngineCall, before: Cache, after: Cache)
    requires CallsMade(m, prepared, cap, padId, numBlocks, continuous, calls, before, call.before)
    requires calls != [] ==> calls[|calls| - 1].result.Done?
    requires MicroBatch(prepared, cap, padId, call.batch) && (continuous ==> CallTraced(m, numBlocks, call))
    requires after == call.after
    ensures CallsMade(m, prepared, cap, padId, numBlocks, continuous, calls + [call], before, after)
  {
    hide MicroBatch, CallTraced;
  }

  /** A pool nobody uses has room for the whole budget of a micro-batch of these rows. */
  ghost predicate HasRoom(m: Speech, lens: seq<nat>, cap: nat, p: Pool, numBlocks: nat) {
    exists limit: nat :: RoomFor(m, lens, p, numBlocks, cap, limit)
  }

  ghost predicate AllTexts(m: Speech, prepared: seq<PreparedInputs>, texts: seq<string>) {
    |texts| == |prepared| && forall i :: 0 <= i < |prepared| ==> texts[i] == TextOf(m, prepared[i])
  }

  method RunMicroBatch(m: Speech, rt: PagedCacheRuntime, ghost prepared: seq<PreparedInputs>, padId: Token,
                       ghost cap: nat,
                       batch: seq<(nat, PreparedInputs)>, continuous: bool, packed: bool)
    returns (r: RunResult, ghost call: EngineCall)
    requires rt.Valid() && padId != m.audioId && m.maxNew > 0 && MicroBatch(prepared, cap, padId, batch)
    requires forall i :: 0 <= i < |prepared| ==> ReadyRow(m, prepared[i])
    modifies rt.manager, rt.cache
    ensures rt.Valid() && |batch| <= cap && forall k :: 0 <= k < |batch| ==> SameRow(m, prepared, batch[k])
    ensures call == EngineCall(batch, old(rt.View()), call.trace, r, rt.View())
    ensures continuous ==> CallTraced(m, rt.cache.numBlocks, call)
    ensures r.Done? ==> KeptTexts(m, RowsOfBatch(batch), rt.cache.numBlocks, continuous, call.trace, r.outputs)
    ensures RoomIsEnough(m, RowsOfBatch(batch), call.before.pool, rt.cache.numBlocks, call.after.pool, continuous,
                         call.trace, r)
  {
    hide MicroBatch, BatchRow, ReadyRow, BlockPool.Valid, SameRow, Traced, KeptTexts, RoomIsEnough;
    ghost var len := MicroBatchRows(m, prepared, cap, padId, batch);
    ghost var c := rt.View();
    ghost var trace;
    r, trace := RunPagedPreparedBatch(m, rt, RowsOfBatch(batch), padId, continuous, packed, len);
    call := EngineCall(batch, c, trace, r, rt.View());
  }

  /** Every micro-batch through the paged engine. The calls made are returned, too: each ran as its trace says, and
      every row that its call did not move on without a token comes out with the decoded greedy output of its own
      prompt, in its own place. The static engine moves nobody on; with room for a micro-batch at a time neither
      does the continuous one, and the call succeeds. An error stands for a run without end, too. */
  method GenerateRawPaged(model: Speech, rt: PagedCacheRuntime, prepared: seq<PreparedInputs>, padId: Token,
                          maxBatchSize: nat,
                          continuous: bool, packed: bool)
    returns (r: Outcome<seq<string>>, ghost calls: seq<EngineCall>)
    requires rt.Valid() && padId != model.audioId && forall i :: 0 <= i < |prepared| ==> ReadyRow(model, prepared[i])
    modifies rt.manager, rt.cache
    ensures rt.Valid()
    ensures CallsMade(WithBudget(model), prepared, EffectiveMaxBatchCount(maxBatchSize, |prepared|), padId,
                      rt.cache.numBlocks,
                      continuous, calls, old(rt.View()), rt.View())
    ensures r.Ok? ==> TextsKept(WithBudget(model), prepared, rt.cache.numBlocks, continuous, calls, r.value)
    ensures r.Ok? && (!continuous || NobodyMovedOn(WithBudget(model), rt.cache.numBlocks, continuous, calls)) ==>
              AllTexts(WithBudget(model), prepared, r.value)
    ensures HasRoom(WithBudget(model), PromptLensOf(prepared), EffectiveMaxBatchCount(maxBatchSize, |prepared|),
                    old(rt.manager.View()), rt.cache.numBlocks) ==>
              r.Ok? && Unowned(rt.manager.View()) &&
                NobodyMovedOn(WithBudget(model), rt.cache.numBlocks, continuous, calls)
  {
    hide RowsFit, TextOf, MicroBatch, BatchRow, RoomFor, Unowned, BlockPool.Valid, SameRow, CallsMade, PlacesRight,
         NobodyMovedOn,
         TextsKept, AllTexts, CallTraced, KeptTexts, RoomIsEnough, HasRoom, IndexesOf, ReadyRow, Written, Flatten;
    calls := [];
    var m := WithBudget(model);
    var cap := EffectiveMaxBatchCount(maxBatchSize, |prepared|);
    ghost var (p, numBlocks) := (rt.manager.View(), rt.cache.numBlocks);
    NoCalls(m, prepared, cap, padId, numBlocks, continuous, rt.View());
    RoomIsUnowned(m, PromptLensOf(prepared), p, numBlocks, cap);
    if prepared == [] {
      NothingToWrite(m, numBlocks, continuous);
      return Ok([]), calls;
    }
    StillReady(model, prepared);
    var batches;
    ghost var groups;
    batches, groups := RebatchPreparedInputs(prepared, padId, cap);
    var out := new Option<string>[|prepared|](_ => None);
    NothingWritten(m, prepared, numBlocks, continuous, groups, out[..]);
    for b := 0 to |batches|
      invariant rt.Valid() && |calls| == b
      invariant forall n :: 0 <= n < b ==> calls[n].batch == batches[n] && calls[n].result.Done?
      invariant CallsMade(m, prepared, cap, padId, numBlocks, continuous, calls, old(rt.View()), rt.View())
      invariant Written(m, prepared, numBlocks, continuous, calls, out[..], Flatten(groups[..b]))
      invariant HasRoom(m, PromptLensOf(prepared), cap, p, numBlocks) ==>
                  Unowned(rt.manager.View()) && NobodyMovedOn(m, numBlocks, continuous, calls)
    {
      var result;
      ghost var call;
      result, call := RunMicroBatch(m, rt, prepared, padId, cap, batches[b], continuous, packed);
      OneMoreCall(m, prepared, cap, padId, numBlocks, continuous, calls, call, old(rt.View()), rt.View());
      if HasRoom(m, PromptLensOf(prepared), cap, p, numBlocks) {
        CallWithRoom(m, prepared, cap, p, numBlocks, continuous, calls, call);
      }
      calls := calls + [call];
      if !result.Done? {
        return Err("generation failed"), calls;
      }
      if |result.outputs| != |batches[b]| {
        SizeRight(m, numBlocks, continuous, call);
        return Err("internal error: generated micro-batch size mismatch"), calls;
      }
      WriteBatch(m, prepared, numBlocks, continuous, groups, batches, b, calls[..b], call, result.outputs,
                 out);
      assert calls[..b] + [call] == calls;
    }
    assert groups[..|batches|] == groups;
    AllWritten(m, prepared, numBlocks, continuous, calls, out[..], groups);
    r := Collect(out);
    ListsAre(batches, groups, calls);
    Collected(m, prepared, numBlocks, continuous, calls, out[..], r.value);
  }

  lemma NoCalls(m: Speech, prepared: seq<PreparedInputs>, cap: nat, padId: Token, numBlocks: nat, continuous: bool,
                c: Cache)
    ensures CallsMade(m, prepared, cap, padId, numBlocks, continuous, [], c, c)
    ensures NobodyMovedOn(m, numBlocks, continuous, [])
  {
  }

  /** The places of the rows in `done` are filled, and the kept ones rightly. */
  ghost predicate Written(m: Speech, prepared: seq<PreparedInputs>, numBlocks: nat, continuous: bool,
                          calls: seq<EngineCall>,
                          out: seq<Option<string>>, done: seq<nat>)
  {
    && |out| == |prepared| && PlacesRight(m, prepared, numBlocks, continuous, calls, out)
    && forall i: nat :: i < |out| && i in done ==> out[i].Some?
  }

  lemma NothingWritten(m: Speech, prepared: seq<PreparedInputs>, numBlocks: nat, continuous: bool,
                       groups: seq<seq<nat>>,
                       out: seq<Option<string>>)
    requires |out| == |prepared|
    ensures Written(m, prepared, numBlocks, continuous, [], out, Flatten(groups[..0]))
  {
  }

  /** The texts of one call into their places. */
  method WriteBatch(m: Speech, prepared: seq<PreparedInputs>, ghost numBlocks: nat, ghost continuous: bool,
                    ghost groups: seq<seq<nat>>, batches: seq<seq<(nat, PreparedInputs)>>, b: nat,
                    ghost calls: seq<EngineCall>, ghost call: EngineCall, outputs: seq<seq<Token>>,
                    out: array<Option<string>>)
    requires b < |groups| == |batches| && |calls| == b && Permutation(Flatten(groups), |prepared|)
    requires forall n :: 0 <= n <= b ==> IndexesOf(batches[n]) == groups[n]
    requires forall n :: 0 <= n < b ==> calls[n].batch == batches[n]
    requires call.batch == batches[b] && call.result == Done(outputs) && |outputs| == |batches[b]|
    requires KeptTexts(m, RowsOfBatch(call.batch), numBlocks, continuous, call.trace, call.result.outputs)
    requires forall k :: 0 <= k < |call.batch| ==> SameRow(m, prepared, call.batch[k])
    requires Written(m, prepared, numBlocks, continuous, calls, out[..], Flatten(groups[..b]))
    modifies out
    ensures Written(m, prepared, numBlocks, continuous, calls + [call], out[..], Flatten(groups[..b + 1]))
  {
    hide TextOf, SameRow, PlacesRight, KeptTexts, IndexesOf, Flatten;
    var raws := DecodeTexts(m, outputs);
    ghost var before := out[..];
    InRange(groups, b, |prepared|, batches[b]);
    FlattenMembers(groups, b);
    Scatter(out, batches[b], raws);
    MorePlaces(batches[b], raws, before, out[..], Flatten(groups[..b]), Flatten(groups[..b + 1]));
    NewPlaces(groups, batches, b, calls);
    ScatteredTexts(m, prepared, numBlocks, continuous, calls, call, raws, before, out[..]);
  }

  lemma NothingToWrite(m: Speech, numBlocks: nat, continuous: bool)
    ensures TextsKept(m, [], numBlocks, continuous, [], []) && AllTexts(m, [], [])
  {
  }

  /** With room, a call succeeds, moves nobody on, and leaves the room. */
  lemma CallWithRoom(m: Speech, prepared: seq<PreparedInputs>, cap: nat, p: Pool, numBlocks: nat, continuous: bool,
                     calls: seq<EngineCall>, call: EngineCall)
    requires HasRoom(m, PromptLensOf(prepared), cap, p, numBlocks) && |call.batch| <= cap
    requires call.before.pool.blockSize == p.blockSize && Unowned(call.before.pool)
    requires NobodyMovedOn(m, numBlocks, continuous, calls)
    requires forall k :: 0 <= k < |call.batch| ==> SameRow(m, prepared, call.batch[k])
    requires RoomIsEnough(m, RowsOfBatch(call.batch), call.before.pool, numBlocks, call.after.pool, continuous,
                          call.trace, call.result)
    ensures call.result.Done? && Unowned(call.after.pool) && NobodyMovedOn(m, numBlocks, continuous, calls + [call])
  {
    hide RoomFor, Unowned, SameRow, RowKept;
    var limit: nat :| RoomFor(m, PromptLensOf(prepared), p, numBlocks, cap, limit);
    MicroBatchRoom(m, prepared, call.batch, p, call.before.pool, numBlocks, cap, limit);
    forall n, k | 0 <= n < |calls + [call]| && 0 <= k < |(calls + [call])[n].batch|
      ensures CallKept(m, numBlocks, continuous, (calls + [call])[n], k)
    {
      if n < |calls| {
        assert CallKept(m, numBlocks, continuous, calls[n], k);
      }
    }
  }

  lemma SizeRight(m: Speech, numBlocks: nat, continuous: bool, call: EngineCall)
    requires call.result.Done?
    requires KeptTexts(m, RowsOfBatch(call.batch), numBlocks, continuous, call.trace, call.result.outputs)
    ensures |call.result.outputs| == |call.batch|
  {
  }

  lemma MorePlaces(batch: seq<(nat, PreparedInputs)>, raws: seq<string>, before: seq<Option<string>>,
                   after: seq<Option<string>>,
                   done: seq<nat>, doneNow: seq<nat>)
    requires |before| == |after| && |raws| == |batch|
    requires forall k :: 0 <= k < |batch| ==> batch[k].0 < |after| && after[batch[k].0] == Some(raws[k])
    requires forall i: nat :: i < |after| && i !in IndexesOf(batch) ==> after[i] == before[i]
    requires forall i: nat :: i in doneNow <==> i in done || i in IndexesOf(batch)
    requires forall i: nat :: i < |before| && i in done ==> before[i].Some?
    ensures forall i: nat :: i < |after| && i in doneNow ==> after[i].Some?
  {
    forall i: nat | i < |after| && i in doneNow
      ensures after[i].Some?
    {
      if i in IndexesOf(batch) {
        var k :| 0 <= k < |batch| && IndexesOf(batch)[k] == i;
        assert after[batch[k].0].Some?;
      }
    }
  }

  /** No earlier call has a row of this batch. */
  lemma NewPlaces(groups: seq<seq<nat>>, batches: seq<seq<(nat, PreparedInputs)>>, b: nat, calls: seq<EngineCall>)
    requires b < |groups| == |batches| && |calls| == b && NoDup(Flatten(groups))
    requires forall n :: 0 <= n <= b ==> IndexesOf(batches[n]) == groups[n]
    requires forall n :: 0 <= n < b ==> calls[n].batch == batches[n]
    ensures forall n, k ::
              0 <= n < |calls| && 0 <= k < |calls[n].batch| ==> calls[n].batch[k].0 !in IndexesOf(batches[b])
  {
    hide Flatten;
    forall n, k | 0 <= n < |calls| && 0 <= k < |calls[n].batch|
      ensures calls[n].batch[k].0 !in IndexesOf(batches[b])
    {
      FlattenMembers(groups, b);
      EarlierIn(groups, n, b);
      assert groups[n][k] in groups[n];
    }
  }

  lemma {:induction false} EarlierIn(groups: seq<seq<nat>>, n: nat, b: nat)
    requires n < b <= |groups| && NoDup(Flatten(groups))
    ensures forall i: nat :: i in groups[n] ==> i in Flatten(groups[..b])
    decreases b
  {
    hide Flatten;
    FlattenMembers(groups, b - 1);
    if n < b - 1 {
      EarlierIn(groups, n, b - 1);
    }
  }

  lemma AllWritten(m: Speech, prepared: seq<PreparedInputs>, numBlocks: nat, continuous: bool, calls: seq<EngineCall>,
                   out: seq<Option<string>>, groups: seq<seq<nat>>)
    requires Written(m, prepared, numBlocks, continuous, calls, out, Flatten(groups))
    requires Permutation(Flatten(groups), |prepared|)
    ensures PlacesRight(m, prepared, numBlocks, continuous, calls, out) && forall i :: 0 <= i < |out| ==> out[i].Some?
  {
    hide PlacesRight, Flatten;
    PermutationIsOnto(Flatten(groups), |prepared|);
  }

  lemma ListsAre(batches: seq<seq<(nat, PreparedInputs)>>, groups: seq<seq<nat>>, calls: seq<EngineCall>)
    requires |groups| == |batches| == |calls|
    requires forall n :: 0 <= n < |calls| ==> calls[n].batch == batches[n] && IndexesOf(batches[n]) == groups[n]
    ensures IndexLists(calls) == groups
  {
  }

  /** The texts are what the places hold, so they are right wherever the places are. */
  lemma Collected(m: Speech, prepared: seq<PreparedInputs>, numBlocks: nat, continuous: bool, calls: seq<EngineCall>,
                  out: seq<Option<string>>, texts: seq<string>)
    requires PlacesRight(m, prepared, numBlocks, continuous, calls, out)
    requires Permutation(Flatten(IndexLists(calls)), |prepared|)
    requires |texts| == |out| == |prepared| && forall i :: 0 <= i < |texts| ==> out[i] == Some(texts[i])
    ensures TextsKept(m, prepared, numBlocks, continuous, calls, texts)
    ensures !continuous || NobodyMovedOn(m, numBlocks, continuous, calls) ==> AllTexts(m, prepared, texts)
  {
    hide TextOf, Flatten, Permutation, RowKept;
    forall n, k | 0 <= n < |calls| && 0 <= k < |calls[n].batch| && CallKept(m, numBlocks, continuous, calls[n], k)
      ensures calls[n].batch[k].0 < |prepared| && texts[calls[n].batch[k].0] == TextOf(m, prepared[calls[n].batch[k].0])
    {
      assert PlaceRight(m, prepared, numBlocks, continuous, calls[n], k, out);
    }
    if !continuous || NobodyMovedOn(m, numBlocks, continuous, calls) {
      forall i: nat | i < |prepared|
        ensures texts[i] == TextOf(m, prepared[i])
      {
        var n, k := HolderOf(calls, |prepared|, i);
        StaticKeeps(m, numBlocks, continuous, calls[n], k);
        assert continuous ==> CallKept(m, numBlocks, continuous, calls[n], k);
      }
    }
  }

  lemma StaticKeeps(m: Speech, numBlocks: nat, continuous: bool, call: EngineCall, k: nat)
    ensures !continuous ==> CallKept(m, numBlocks, continuous, call, k)
  {
  }

  /** Every row is in some call. */
  lemma HolderOf(calls: seq<EngineCall>, n: nat, i: nat) returns (c: nat, k: nat)
    requires Permutation(Flatten(IndexLists(calls)), n) && i < n
    ensures c < |calls| && k < |calls[c].batch| && calls[c].batch[k].0 == i
  {
    hide Flatten;
    var lists := IndexLists(calls);
    PermutationIsOnto(Flatten(lists), n);
    assert lists[..|lists|] == lists;
    c := GroupWith(lists, |lists|, i);
    k :| 0 <= k < |lists[c]| && lists[c][k] == i;
  }

  lemma {:induction false} GroupWith(groups: seq<seq<nat>>, b: nat, i: nat) returns (g: nat)
    requires b <= |groups| && NoDup(Flatten(groups)) && i in Flatten(groups[..b])
    ensures g < b && i in groups[g]
  {
    FlattenNothing(groups);
    hide Flatten;
    assert b > 0;
    FlattenMembers(groups, b - 1);
    if i in groups[b - 1] {
      g := b - 1;
    } else {
      g := GroupWith(groups, b - 1, i);
    }
  }

  lemma FlattenNothing(groups: seq<seq<nat>>)
    ensures Flatten(groups[..0]) == []
  {
  }

  lemma StillReady(m: Speech, prepared: seq<PreparedInputs>)
    requires forall i :: 0 <= i < |prepared| ==> ReadyRow(m, prepared[i])
    ensures RowsFit(prepared) && forall i :: 0 <= i < |prepared| ==> ReadyRow(WithBudget(m), prepared[i])
  {
  }

  lemma RoomIsUnowned(m: Speech, lens: seq<nat>, p: Pool, numBlocks: nat, cap: nat)
    ensures HasRoom(m, lens, cap, p, numBlocks) ==> Unowned(p)
  {
    hide Unowned, LenFits;
  }

  lemma InRange(groups: seq<seq<nat>>, b: nat, n: nat, batch: seq<(nat, PreparedInputs)>)
    requires b < |groups| && Permutation(Flatten(groups), n) && IndexesOf(batch) == groups[b]
    ensures forall k :: 0 <= k < |batch| ==> batch[k].0 < n
  {
    hide Flatten;
    FlattenMembers(groups, b);
    forall k | 0 <= k < |batch|
      ensures batch[k].0 < n
    {
      assert groups[b][k] in groups[b];
    }
  }
}
