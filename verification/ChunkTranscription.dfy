/** Transcribing all chunks, with or without the paged engines: whatever the caps and the bucketing, the result is
    the per-chunk transcript in chunk order. */
module ChunkTranscription {
  import opened Prelude
  import opened Decoding
  import opened BlockPool
  import opened PagedKvCache
  import opened PagedCacheRuntime
  import opened PrefillInput
  import opened WaveInput
  import opened ChunkGrouping
  import opened ChunkBatching
  import opened CapacityRuns
  import opened GreedyTranscripts

  /** What a micro-batch runs on: a recogniser of single rows, or a speech model on the paged cache. */
  datatype Engine = Plain | Paged(m: Speech, rt: PagedCacheRuntime, continuous: bool, packed: bool)

  ghost function Parts(engine: Engine): set<object> {
    if engine.Paged? then {engine.rt.manager, engine.rt.cache} else {}
  }

  ghost predicate Usable(engine: Engine)
    reads Parts(engine)
  {
    engine.Paged? ==> engine.rt.Valid()
  }

  /** The recogniser is what the speech model amounts to, and the processor gives each audio row a placeholder. */
  ghost predicate EngineFits(asr: Recogniser, engine: Engine, padId: Token) {
    engine.Paged? ==>
      && padId != engine.m.audioId
      && asr == RecogniserOf(WithBudget(engine.m), asr.tokens, asr.features, asr.parse)
      && forall prompt, wav ::
           CountAudio(asr.tokens(prompt, wav), engine.m.audioId) == |engine.m.encode(asr.features(wav))|
  }

  function LensOfChunks(asr: Recogniser, chunks: seq<Chunk>, prompts: seq<string>): (lens: seq<nat>)
    ensures |lens| == |chunks|
  {
    seq(|chunks|, i requires 0 <= i < |chunks| => LenOf(asr, chunks[i], prompts))
  }

  function LenOf(asr: Recogniser, chunk: Chunk, prompts: seq<string>): nat {
    if chunk.origIndex < |prompts| then |asr.tokens(prompts[chunk.origIndex], chunk.wav)| else 0
  }

  /** The paged engine has room for the whole budget of a micro-batch of rows of these lengths. */
  ghost predicate Room(engine: Engine, lens: seq<nat>, cap: nat)
    reads Parts(engine)
  {
    engine.Paged? ==> HasRoom(WithBudget(engine.m), lens, cap, engine.rt.manager.View(), engine.rt.cache.numBlocks)
  }

  ghost predicate Static(engine: Engine) {
    engine.Paged? && !engine.continuous
  }

  /** Room for all lengths is room for some of them, and nothing but the blocks' being unused matters. */
  lemma RoomForFewer(m: Speech, lens: seq<nat>, cap: nat, p: Pool, numBlocks: nat, fewer: seq<nat>, less: nat, q: Pool)
    requires HasRoom(m, lens, cap, p, numBlocks) && less <= cap && Unowned(q) && q.blockSize == p.blockSize
    requires forall k :: 0 <= k < |fewer| ==> fewer[k] in lens
    ensures HasRoom(m, fewer, less, q, numBlocks)
  {
    hide Unowned, LenFits;
    var limit: nat :| RoomFor(m, lens, p, numBlocks, cap, limit);
    MulMonotone(less, cap, limit);
    assert RoomFor(m, fewer, q, numBlocks, less, limit);
  }

  /** The rows a micro-batch is made of, as they are handed to the engine. */
  ghost predicate RowsFor(engine: Engine, prepared: seq<PreparedInputs>) {
    && RowsFit(prepared)
    && (engine.Paged? ==> forall k :: 0 <= k < |prepared| ==> ReadyRow(engine.m, prepared[k]))
  }

  /** All rows through the engine. The paged one may fail for want of room, and only the continuous one may then
      move a row on without a token. */
  method GenerateRows(asr: Recogniser, engine: Engine, prepared: seq<PreparedInputs>, padId: Token, maxBatchSize: nat)
    returns (r: Outcome<seq<string>>)
    requires Usable(engine) && EngineFits(asr, engine, padId) && RowsFor(engine, prepared)
    modifies Parts(engine)
    ensures Usable(engine)
    ensures r.Ok? ==> |r.value| == |prepared|
    ensures var room := old(Room(engine, PromptLensOf(prepared), EffectiveMaxBatchCount(maxBatchSize, |prepared|)));
            r.Ok? && (Static(engine) || room) ==>
              forall k :: 0 <= k < |prepared| ==> r.value[k] == Transcript(asr, prepared[k])
    ensures old(Room(engine, PromptLensOf(prepared), EffectiveMaxBatchCount(maxBatchSize, |prepared|))) ==>
              r.Ok? && (engine.Paged? ==> Unowned(engine.rt.manager.View()))
  {
    if engine.Plain? {
      r := GenerateRawPreparedBatch(asr, prepared, padId, maxBatchSize);
    } else {
      hide RowsFit, ReadyRow, HasRoom, BlockPool.Valid, Unowned, AloneText;
      ghost var calls;
      r, calls := GenerateRawPaged(engine.m, engine.rt, prepared, padId, maxBatchSize, engine.continuous,
                                   engine.packed);
    }
  }

  datatype Chunk = Chunk(origIndex: nat, wav: seq<real>)

  function Raw(asr: Recogniser, prompt: string, wav: seq<real>): string {
    asr.generate(asr.tokens(prompt, wav), asr.features(wav))
  }

  function ForcedFor(forced: seq<Option<string>>, i: nat): Option<string> {
    if i < |forced| then forced[i] else None
  }

  /** Language and text of one chunk on its own. */
  function Expected(asr: Recogniser, chunk: Chunk, prompts: seq<string>, forced: seq<Option<string>>): (string, string)
    requires chunk.origIndex < |prompts|
  {
    asr.parse(Raw(asr, prompts[chunk.origIndex], chunk.wav), ForcedFor(forced, chunk.origIndex))
  }

  function Longest(rows: seq<seq<Token>>): (n: nat)
    ensures forall k :: 0 <= k < |rows| ==> |rows[k]| <= n
    ensures rows != [] ==> exists k :: 0 <= k < |rows| && |rows[k]| == n
  {
    if rows == [] then 0 else Max(Longest(rows[..|rows| - 1]), |rows[|rows| - 1]|)
  }

  function PaddedRow(tokens: seq<Token>, features: seq<real>, len: nat, padId: Token): PreparedInputs
    requires |tokens| <= len
  {
    PreparedInputs(tokens + Padding(len - |tokens|, padId), Ones(|tokens|) + Padding(len - |tokens|, 0), features)
  }

  lemma PaddedRowMeans(tokens: seq<Token>, features: seq<real>, len: nat, padId: Token)
    requires |tokens| <= len
    ensures var row := PaddedRow(tokens, features, len, padId);
            && PromptLen(row) == |tokens| <= |row.inputIds| && RightPadded(row.attentionMask)
            && ClientTokens(row) == tokens && row.inputFeatures == features
            && |row.inputIds| == |row.attentionMask| == len
  {
    MaskLenFull(Ones(|tokens|));
    ZeroMask(Ones(|tokens|), Padding(len - |tokens|, 0));
    assert (tokens + Padding(len - |tokens|, padId))[..|tokens|] == tokens;
  }

  ghost predicate RowMeans(asr: Recogniser, row: PreparedInputs, prompt: string, wav: seq<real>) {
    && RightPadded(row.attentionMask) && PromptLen(row) <= |row.inputIds|
    && ClientTokens(row) == asr.tokens(prompt, wav) && row.inputFeatures == asr.features(wav)
  }

  /** Every row is as long as this item's prompt. */
  ghost predicate PaddedAlike(asr: Recogniser, prompt: string, wav: seq<real>, prepared: seq<PreparedInputs>) {
    forall k :: 0 <= k < |prepared| ==>
      |prepared[k].inputIds| == |prepared[k].attentionMask| == |asr.tokens(prompt, wav)|
  }

  /** The processor on one micro-batch: each row prepared alone, then padded to the longest. */
  method PrepareItems(asr: Recogniser, items: seq<(string, seq<real>)>, padId: Token)
    returns (prepared: seq<PreparedInputs>)
    ensures |prepared| == |items|
    ensures forall k :: 0 <= k < |items| ==> RowMeans(asr, prepared[k], items[k].0, items[k].1)
    ensures items != [] ==> exists l :: 0 <= l < |items| && PaddedAlike(asr, items[l].0, items[l].1, prepared)
  {
    hide PaddedRow, PromptLen, RightPadded, ClientTokens;
    var rows: seq<seq<Token>> := seq(|items|, k requires 0 <= k < |items| => asr.tokens(items[k].0, items[k].1));
    var len := Longest(rows);
    prepared := [];
    for k := 0 to |items|
      invariant |prepared| == k && forall l :: 0 <= l < k ==> RowMeans(asr, prepared[l], items[l].0, items[l].1)
      invariant forall l :: 0 <= l < k ==> |prepared[l].inputIds| == |prepared[l].attentionMask| == len
    {
      PaddedRowMeans(rows[k], asr.features(items[k].1), len, padId);
      prepared := prepared + [PaddedRow(rows[k], asr.features(items[k].1), len, padId)];
    }
    if items != [] {
      var l :| 0 <= l < |rows| && |rows[l]| == len;
      assert PaddedAlike(asr, items[l].0, items[l].1, prepared);
    }
  }

  /** Prepared rows suit the engine, and have the lengths of their prompts. */
  lemma PreparedSuits(asr: Recogniser, engine: Engine, items: seq<(string, seq<real>)>, padId: Token,
                      prepared: seq<PreparedInputs>)
    requires EngineFits(asr, engine, padId) && |prepared| == |items|
    requires forall k :: 0 <= k < |items| ==> RowMeans(asr, prepared[k], items[k].0, items[k].1)
    ensures RowsFor(engine, prepared)
    ensures forall k :: 0 <= k < |items| ==> Transcript(asr, prepared[k]) == Raw(asr, items[k].0, items[k].1)
    ensures forall k :: 0 <= k < |items| ==> PromptLensOf(prepared)[k] == |asr.tokens(items[k].0, items[k].1)|
  {
    hide PromptLen, RightPadded, CountAudio, AloneText;
    forall k | 0 <= k < |items|
      ensures RightPadded(prepared[k].attentionMask) && PromptLen(prepared[k]) <= |prepared[k].inputIds|
      ensures engine.Paged? ==> AudioMatches(engine.m, prepared[k])
      ensures Transcript(asr, prepared[k]) == Raw(asr, items[k].0, items[k].1)
      ensures PromptLen(prepared[k]) == |asr.tokens(items[k].0, items[k].1)|
    {
      assert RowMeans(asr, prepared[k], items[k].0, items[k].1);
    }
  }

  ghost predicate PromptsKnown(chunks: seq<Chunk>, prompts: seq<string>, group: seq<nat>) {
    forall k :: 0 <= k < |group| ==> group[k] < |chunks| && chunks[group[k]].origIndex < |prompts|
  }

  ghost predicate RoomForChunks(asr: Recogniser, engine: Engine, chunks: seq<Chunk>, prompts: seq<string>,
                                maxBatchSize: nat)
    reads Parts(engine)
  {
    Room(engine, LensOfChunks(asr, chunks, prompts), EffectiveMaxBatchCount(maxBatchSize, |chunks|))
  }

  ghost function ItemsOf(chunks: seq<Chunk>, prompts: seq<string>, group: seq<nat>): (items: seq<(string, seq<real>)>)
    requires PromptsKnown(chunks, prompts, group)
    ensures |items| == |group|
  {
    seq(|group|, k requires 0 <= k < |group| => (prompts[chunks[group[k]].origIndex], chunks[group[k]].wav))
  }

  lemma GroupRoom(asr: Recogniser, engine: Engine, chunks: seq<Chunk>, prompts: seq<string>, group: seq<nat>,
                  maxBatchSize: nat,
                  lens: seq<nat>)
    requires PromptsKnown(chunks, prompts, group) && |lens| == |group| <= |chunks|
    requires forall k :: 0 <= k < |group| ==> lens[k] == LenOf(asr, chunks[group[k]], prompts)
    requires RoomForChunks(asr, engine, chunks, prompts, maxBatchSize)
    ensures Room(engine, lens, EffectiveMaxBatchCount(maxBatchSize, |lens|))
  {
    hide HasRoom, LenOf;
    if engine.Paged? {
      var all := LensOfChunks(asr, chunks, prompts);
      forall k | 0 <= k < |lens|
        ensures lens[k] in all
      {
        assert lens[k] == all[group[k]];
      }
      var (p, cap) := (engine.rt.manager.View(), EffectiveMaxBatchCount(maxBatchSize, |chunks|));
      RoomIsUnowned(WithBudget(engine.m), all, p, engine.rt.cache.numBlocks, cap);
      RoomForFewer(WithBudget(engine.m), all, cap, p, engine.rt.cache.numBlocks, lens,
                   EffectiveMaxBatchCount(maxBatchSize, |lens|), p);
    }
  }

  /** What a group comes to, for `room` before it. */
  ghost predicate GroupOutcome(asr: Recogniser, engine: Engine, chunks: seq<Chunk>, prompts: seq<string>,
                               group: seq<nat>,
                               room: bool, r: Outcome<seq<string>>)
  {
    && (r.Ok? ==> PromptsKnown(chunks, prompts, group) && |r.value| == |group|)
    && (room && PromptsKnown(chunks, prompts, group) ==> r.Ok?)
    && (r.Ok? ==> RawsMatch(asr, chunks, prompts, group, room || Static(engine), r.value))
  }

  ghost predicate RawsMatch(asr: Recogniser, chunks: seq<Chunk>, prompts: seq<string>, group: seq<nat>, sure: bool,
                            raws: seq<string>)
    requires PromptsKnown(chunks, prompts, group)
  {
    && |raws| == |group|
    && (sure ==> forall k :: 0 <= k < |group| ==>
        raws[k] == Raw(asr, prompts[chunks[group[k]].origIndex], chunks[group[k]].wav))
  }

  lemma MatchAtLeast(asr: Recogniser, engine: Engine, chunks: seq<Chunk>, prompts: seq<string>, group: seq<nat>,
                     room: bool,
                     sure: bool, raws: seq<string>)
    requires GroupOutcome(asr, engine, chunks, prompts, group, room, Ok(raws)) && (sure ==> room || Static(engine))
    ensures PromptsKnown(chunks, prompts, group) && RawsMatch(asr, chunks, prompts, group, sure, raws)
  {
  }

  /** One micro-batch of chunks. */
  method RunGroup(asr: Recogniser, engine: Engine, chunks: seq<Chunk>, prompts: seq<string>, group: seq<nat>,
                  padId: Token,
                  maxBatchSize: nat) returns (r: Outcome<seq<string>>)
    requires Usable(engine) && EngineFits(asr, engine, padId)
    requires |group| <= |chunks| && forall k :: 0 <= k < |group| ==> group[k] < |chunks|
    modifies Parts(engine)
    ensures Usable(engine)
    ensures GroupOutcome(asr, engine, chunks, prompts, group,
                         old(RoomForChunks(asr, engine, chunks, prompts, maxBatchSize)), r)
    ensures r.Ok? && old(RoomForChunks(asr, engine, chunks, prompts, maxBatchSize)) ==>
              RoomForChunks(asr, engine, chunks, prompts, maxBatchSize)
  {
    hide Raw, Transcript, EngineFits, RowsFor, HasRoom, BlockPool.Valid, Unowned, LenOf;
    var items: seq<(string, seq<real>)> := [];
    for k := 0 to |group|
      invariant forall l :: 0 <= l < k ==> chunks[group[l]].origIndex < |prompts|
      invariant |items| == k
      invariant forall l :: 0 <= l < k ==> items[l] == (prompts[chunks[group[l]].origIndex], chunks[group[l]].wav)
    {
      var c := chunks[group[k]];
      if c.origIndex >= |prompts| {
        return Err("missing prompt");
      }
      items := items + [(prompts[c.origIndex], c.wav)];
    }
    var prepared := PrepareItems(asr, items, padId);
    PreparedSuits(asr, engine, items, padId, prepared);
    ghost var room := RoomForChunks(asr, engine, chunks, prompts, maxBatchSize);
    if room {
      LensMatch(asr, chunks, prompts, group, items, PromptLensOf(prepared));
      GroupRoom(asr, engine, chunks, prompts, group, maxBatchSize, PromptLensOf(prepared));
    }
    r := GenerateRows(asr, engine, prepared, padId, maxBatchSize);
    if room && engine.Paged? {
      RoomStays(WithBudget(engine.m), LensOfChunks(asr, chunks, prompts),
                EffectiveMaxBatchCount(maxBatchSize, |chunks|),
                old(engine.rt.manager.View()), engine.rt.cache.numBlocks, engine.rt.manager.View());
    }
  }

  lemma LensMatch(asr: Recogniser, chunks: seq<Chunk>, prompts: seq<string>, group: seq<nat>,
                  items: seq<(string, seq<real>)>,
                  lens: seq<nat>)
    requires PromptsKnown(chunks, prompts, group) && |lens| == |group| && items == ItemsOf(chunks, prompts, group)
    requires forall k :: 0 <= k < |items| ==> lens[k] == |asr.tokens(items[k].0, items[k].1)|
    ensures forall k :: 0 <= k < |group| ==> lens[k] == LenOf(asr, chunks[group[k]], prompts)
  {
  }

  lemma RoomStays(m: Speech, lens: seq<nat>, cap: nat, p: Pool, numBlocks: nat, q: Pool)
    requires HasRoom(m, lens, cap, p, numBlocks) && Unowned(q) && q.blockSize == p.blockSize
    ensures HasRoom(m, lens, cap, q, numBlocks)
  {
    RoomForFewer(m, lens, cap, p, numBlocks, lens, cap, q);
  }

  /** Row `i` of the outputs is chunk `i` on its own. */
  ghost predicate PerChunk(asr: Recogniser, chunks: seq<Chunk>, prompts: seq<string>, forced: seq<Option<string>>,
                           langs: seq<string>, texts: seq<string>)
  {
    && |langs| == |texts| == |chunks|
    && forall i ::
         0 <= i < |chunks| ==>
           chunks[i].origIndex < |prompts| && (langs[i], texts[i]) == Expected(asr, chunks[i], prompts, forced)
  }

  function ChunkLens(chunks: seq<Chunk>): (lens: seq<nat>)
    ensures |lens| == |chunks| && forall i :: 0 <= i < |chunks| ==> lens[i] == |chunks[i].wav|
  {
    seq(|chunks|, i requires 0 <= i < |chunks| => |chunks[i].wav|)
  }

  function Indices(n: nat): (idx: seq<nat>)
    ensures |idx| == n
  {
    seq(n, i requires 0 <= i => i)
  }

  lemma GroupsInRange(groups: seq<seq<nat>>, order: seq<nat>, g: nat, n: nat)
    requires g < |groups| && Flatten<nat>(groups) == order && forall k :: 0 <= k < |order| ==> order[k] < n
    ensures |groups[g]| <= |order| && forall k :: 0 <= k < |groups[g]| ==> groups[g][k] < n
  {
    GroupIsSlice(groups, g);
  }

  /** Language and text of a chunk, written out: read off what the recogniser writes for its own prompt and samples,
      with the language its own input asks for. */
  lemma PerChunkMeans(asr: Recogniser, chunks: seq<Chunk>, prompts: seq<string>, forced: seq<Option<string>>,
                      langs: seq<string>, texts: seq<string>, i: nat)
    requires PerChunk(asr, chunks, prompts, forced, langs, texts) && i < |chunks| && |forced| == |prompts|
    ensures var k := chunks[i].origIndex;
            && k < |prompts| && |langs| == |texts| == |chunks|
            && var wav := chunks[i].wav;
            (langs[i], texts[i]) == asr.parse(asr.generate(asr.tokens(prompts[k], wav), asr.features(wav)), forced[k])
  {
  }

  predicate AllKnown(chunks: seq<Chunk>, prompts: seq<string>) {
    forall i :: 0 <= i < |chunks| ==> chunks[i].origIndex < |prompts|
  }

  /** Every chunk through the pipeline. With a recogniser of single rows, and with the paged engine if it has room
      for a micro-batch, the call fails exactly for missing prompts and returns what each chunk gives on its own;
      whatever the static engine returns is right, too. */
  method RunAsrOnChunksBatched(asr: Recogniser, engine: Engine, chunks: seq<Chunk>, prompts: seq<string>,
                               forced: seq<Option<string>>, padId: Token, maxBatchSize: nat, budget: int,
                               bucketByLength: bool)
    returns (r: Outcome<(seq<string>, seq<string>)>)
    requires Usable(engine) && EngineFits(asr, engine, padId)
    modifies Parts(engine)
    ensures Usable(engine)
    ensures r.Ok? ==> chunks == [] || (|prompts| == |forced| && AllKnown(chunks, prompts))
    ensures r.Ok? && (Static(engine) || old(RoomForChunks(asr, engine, chunks, prompts, maxBatchSize))) ==>
              PerChunk(asr, chunks, prompts, forced, r.value.0, r.value.1)
    ensures old(RoomForChunks(asr, engine, chunks, prompts, maxBatchSize)) ==>
              (r.Ok? <==> chunks == [] || (|prompts| == |forced| && AllKnown(chunks, prompts)))
  {
    hide RoomForChunks;
    if chunks == [] {
      return Ok(([], []));
    }
    if |prompts| != |forced| {
      return Err("prompts/forced_langs_norm length mismatch");
    }
    if !bucketByLength {
      r := RunInOrder(asr, engine, chunks, prompts, forced, padId, maxBatchSize, budget);
    } else {
      r := RunBucketed(asr, engine, chunks, prompts, forced, padId, maxBatchSize, budget);
    }
  }

  /** The result of one chunk, which is what the chunk gives on its own if the engine is `sure` to be right. */
  ghost predicate Matches(asr: Recogniser, sure: bool, chunk: Chunk, prompts: seq<string>, forced: seq<Option<string>>,
                          result: (string, string))
  {
    && chunk.origIndex < |prompts|
    && (sure ==> result == Expected(asr, chunk, prompts, forced))
  }

  /** The groups done so far, in the order given. */
  ghost predicate DoneInOrder(asr: Recogniser, sure: bool, chunks: seq<Chunk>, prompts: seq<string>,
                              forced: seq<Option<string>>,
                              n: nat, langs: seq<string>, texts: seq<string>)
  {
    && |langs| == |texts| == n <= |chunks|
    && forall i :: 0 <= i < n ==> Matches(asr, sure, chunks[i], prompts, forced, (langs[i], texts[i]))
  }

  method RunInOrder(asr: Recogniser, engine: Engine, chunks: seq<Chunk>, prompts: seq<string>,
                    forced: seq<Option<string>>,
                    padId: Token, maxBatchSize: nat, budget: int)
    returns (r: Outcome<(seq<string>, seq<string>)>)
    requires Usable(engine) && EngineFits(asr, engine, padId)
    modifies Parts(engine)
    ensures Usable(engine)
    ensures r.Ok? ==> AllKnown(chunks, prompts)
    ensures r.Ok? && (Static(engine) || old(RoomForChunks(asr, engine, chunks, prompts, maxBatchSize))) ==>
              PerChunk(asr, chunks, prompts, forced, r.value.0, r.value.1)
    ensures old(RoomForChunks(asr, engine, chunks, prompts, maxBatchSize)) && AllKnown(chunks, prompts) ==> r.Ok?
  {
    hide Flatten, Allowed, End, DoneInOrder, RoomForChunks, Usable, EngineFits, RawsMatch, Minimal;
    var order := Indices(|chunks|);
    var groups := GroupChunkIndices(order, ChunkLens(chunks), maxBatchSize, budget);
    var langs: seq<string>, texts: seq<string> := [], [];
    FlattenEnd(groups.value);
    GroupsStart(groups.value);
    ghost var sure := Static(engine) || RoomForChunks(asr, engine, chunks, prompts, maxBatchSize);
    NothingDone(asr, sure, chunks, prompts, forced);
    for g := 0 to |groups.value|
      invariant Usable(engine)
      invariant old(RoomForChunks(asr, engine, chunks, prompts, maxBatchSize)) ==>
                  RoomForChunks(asr, engine, chunks, prompts, maxBatchSize)
      invariant End(groups.value, g) <= |chunks|
      invariant DoneInOrder(asr, sure, chunks, prompts, forced, End(groups.value, g), langs, texts)
    {
      var group := groups.value[g];
      OrderedGroup(groups.value, |chunks|, g);
      ghost var room := RoomForChunks(asr, engine, chunks, prompts, maxBatchSize);
      var raws := RunGroup(asr, engine, chunks, prompts, group, padId, maxBatchSize);
      if raws.Err? {
        return Err(raws.error);
      }
      MatchAtLeast(asr, engine, chunks, prompts, group, room, sure, raws.value);
      langs, texts :=
        AppendGroup(asr, sure, chunks, prompts, forced, group, raws.value, End(groups.value, g), langs, texts);
    }
    AllDoneInOrder(asr, sure, chunks, prompts, forced, langs, texts);
    r := Ok((langs, texts));
  }

  lemma GroupsStart(groups: seq<seq<nat>>)
    ensures End(groups, 0) == 0
  {
  }

  lemma NothingDone(asr: Recogniser, sure: bool, chunks: seq<Chunk>, prompts: seq<string>, forced: seq<Option<string>>)
    ensures DoneInOrder(asr, sure, chunks, prompts, forced, 0, [], [])
  {
  }

  lemma AllDoneInOrder(asr: Recogniser, sure: bool, chunks: seq<Chunk>, prompts: seq<string>,
                       forced: seq<Option<string>>,
                       langs: seq<string>, texts: seq<string>)
    requires DoneInOrder(asr, sure, chunks, prompts, forced, |chunks|, langs, texts)
    ensures AllKnown(chunks, prompts) && (sure ==> PerChunk(asr, chunks, prompts, forced, langs, texts))
  {
    hide Expected;
    forall i | 0 <= i < |chunks|
      ensures Matches(asr, sure, chunks[i], prompts, forced, (langs[i], texts[i]))
    {
    }
  }

  method AppendGroup(asr: Recogniser, ghost sure: bool, chunks: seq<Chunk>, prompts: seq<string>,
                     forced: seq<Option<string>>,
                     group: seq<nat>, raws: seq<string>, ghost from: nat, langsBefore: seq<string>,
                     textsBefore: seq<string>)
    returns (langs: seq<string>, texts: seq<string>)
    requires DoneInOrder(asr, sure, chunks, prompts, forced, from, langsBefore, textsBefore)
    requires from + |group| <= |chunks|
    requires PromptsKnown(chunks, prompts, group) && forall k :: 0 <= k < |group| ==> group[k] == from + k
    requires RawsMatch(asr, chunks, prompts, group, sure, raws)
    ensures DoneInOrder(asr, sure, chunks, prompts, forced, from + |group|, langs, texts)
  {
    hide Expected, Raw;
    langs, texts := langsBefore, textsBefore;
    for k := 0 to |group|
      invariant DoneInOrder(asr, sure, chunks, prompts, forced, from + k, langs, texts)
    {
      var (lang, text) := asr.parse(raws[k], ForcedFor(forced, chunks[group[k]].origIndex));
      ParsedIs(asr, sure, chunks[group[k]], prompts, forced, raws[k]);
      langs, texts := langs + [lang], texts + [text];
    }
  }

  /** In order, the group that starts at `from` is `from, from + 1, ...`. */
  lemma OrderedGroup(groups: seq<seq<nat>>, n: nat, g: nat)
    requires g < |groups| && Flatten<nat>(groups) == Indices(n)
    ensures End(groups, g + 1) == End(groups, g) + |groups[g]| <= n && End(groups, |groups|) == n
    ensures forall k :: 0 <= k < |groups[g]| ==> groups[g][k] == End(groups, g) + k
  {
    GroupIsSlice(groups, g);
  }

  lemma ParsedIs(asr: Recogniser, sure: bool, chunk: Chunk, prompts: seq<string>, forced: seq<Option<string>>,
                 raw: string)
    requires chunk.origIndex < |prompts| && (sure ==> raw == Raw(asr, prompts[chunk.origIndex], chunk.wav))
    ensures Matches(asr, sure, chunk, prompts, forced, asr.parse(raw, ForcedFor(forced, chunk.origIndex)))
  {
  }

  /** The slots that are filled hold the right results; exactly the chunks in `done` are filled. */
  ghost predicate Filled(asr: Recogniser, sure: bool, chunks: seq<Chunk>, prompts: seq<string>,
                         forced: seq<Option<string>>,
                         slots: seq<Option<(string, string)>>, done: seq<nat>)
  {
    && |slots| == |chunks|
    && forall i: nat :: i < |chunks| ==>
         if i in done then slots[i].Some? &&
           Matches(asr, sure, chunks[i], prompts, forced, slots[i].value) else slots[i] == None
  }

  /** Store one group; a slot already taken would be an internal error. */
  method StoreGroup(asr: Recogniser, ghost sure: bool, chunks: seq<Chunk>, prompts: seq<string>,
                    forced: seq<Option<string>>,
                    slots: array<Option<(string, string)>>, group: seq<nat>, raws: seq<string>, ghost done: seq<nat>)
    returns (r: Outcome<()>)
    requires Filled(asr, sure, chunks, prompts, forced, slots[..], done)
    requires PromptsKnown(chunks, prompts, group) && RawsMatch(asr, chunks, prompts, group, sure, raws)
    requires NoDup(group) && forall i: nat :: i in group ==> i !in done
    modifies slots
    ensures r.Ok? && Filled(asr, sure, chunks, prompts, forced, slots[..], done + group)
  {
    hide Expected, Raw, Matches;
    for k := 0 to |group|
      invariant Filled(asr, sure, chunks, prompts, forced, slots[..], done + group[..k])
    {
      var i := group[k];
      assert i in group && i !in group[..k];
      if slots[i].Some? {
        return Err("duplicate output for chunk");
      }
      ParsedIs(asr, sure, chunks[i], prompts, forced, raws[k]);
      slots[i] := Some(asr.parse(raws[k], ForcedFor(forced, chunks[i].origIndex)));
      assert group[..k + 1] == group[..k] + [i];
    }
    assert group[..|group|] == group;
    r := Ok(());
  }

  function LongestFirst(lens: seq<nat>): (keys: seq<int>)
    ensures |keys| == |lens|
    ensures forall i, j :: 0 <= i < |lens| && 0 <= j < |lens| ==> (keys[i] <= keys[j] <==> lens[i] >= lens[j])
  {
    seq<int>(|lens|, i requires 0 <= i < |lens| => var len: int := lens[i]; -len)
  }

  /** Run the groups one after the other and store their results. */
  method FillSlots(asr: Recogniser, engine: Engine, chunks: seq<Chunk>, prompts: seq<string>,
                   forced: seq<Option<string>>,
                   padId: Token, maxBatchSize: nat, groups: seq<seq<nat>>, ghost order: seq<nat>)
    returns (r: Outcome<()>, slots: array<Option<(string, string)>>)
    requires Usable(engine) && EngineFits(asr, engine, padId)
    requires Flatten<nat>(groups) == order && Permutation(order, |chunks|)
    modifies Parts(engine)
    ensures Usable(engine) && fresh(slots)
    ensures r.Ok? ==>
              Filled(asr, Static(engine) || old(RoomForChunks(asr, engine, chunks, prompts, maxBatchSize)), chunks,
                     prompts,
                             forced, slots[..], order)
    ensures old(RoomForChunks(asr, engine, chunks, prompts, maxBatchSize)) && AllKnown(chunks, prompts) ==> r.Ok?
  {
    hide Expected, Raw, Flatten, Filled, RoomForChunks, Usable, EngineFits, RawsMatch;
    slots := new Option<(string, string)>[|chunks|](_ => None);
    ghost var sure := Static(engine) || RoomForChunks(asr, engine, chunks, prompts, maxBatchSize);
    NoneYet(groups, slots[..], asr, sure, chunks, prompts, forced);
    for g := 0 to |groups|
      invariant Usable(engine)
      invariant old(RoomForChunks(asr, engine, chunks, prompts, maxBatchSize)) ==>
                  RoomForChunks(asr, engine, chunks, prompts, maxBatchSize)
      invariant Filled(asr, sure, chunks, prompts, forced, slots[..], Flatten<nat>(groups[..g]))
    {
      GroupsInRange(groups, order, g, |chunks|);
      FlattenMembers(groups, g);
      ghost var room := RoomForChunks(asr, engine, chunks, prompts, maxBatchSize);
      var raws := RunGroup(asr, engine, chunks, prompts, groups[g], padId, maxBatchSize);
      if raws.Err? {
        return Err(raws.error), slots;
      }
      MatchAtLeast(asr, engine, chunks, prompts, groups[g], room, sure, raws.value);
      FlattenPrefix<nat>(groups, g);
      r := StoreGroup(asr, sure, chunks, prompts, forced, slots, groups[g], raws.value, Flatten<nat>(groups[..g]));
    }
    assert groups[..|groups|] == groups;
    r := Ok(());
  }

  method RunBucketed(asr: Recogniser, engine: Engine, chunks: seq<Chunk>, prompts: seq<string>,
                     forced: seq<Option<string>>,
                     padId: Token, maxBatchSize: nat, budget: int)
    returns (r: Outcome<(seq<string>, seq<string>)>)
    requires Usable(engine) && EngineFits(asr, engine, padId)
    modifies Parts(engine)
    ensures Usable(engine)
    ensures r.Ok? ==> AllKnown(chunks, prompts)
    ensures r.Ok? && (Static(engine) || old(RoomForChunks(asr, engine, chunks, prompts, maxBatchSize))) ==>
              PerChunk(asr, chunks, prompts, forced, r.value.0, r.value.1)
    ensures old(RoomForChunks(asr, engine, chunks, prompts, maxBatchSize)) && AllKnown(chunks, prompts) ==> r.Ok?
  {
    hide Expected, Allowed, SortedBy, Flatten, Filled, Minimal, RoomForChunks, Usable, EngineFits;
    var lens := ChunkLens(chunks);
    var order := SortIndices(LongestFirst(lens));
    var groups := GroupChunkIndices(order, lens, maxBatchSize, budget);
    ghost var sure := Static(engine) || RoomForChunks(asr, engine, chunks, prompts, maxBatchSize);
    var filled, slots := FillSlots(asr, engine, chunks, prompts, forced, padId, maxBatchSize, groups.value, order);
    if filled.Err? {
      return Err(filled.error);
    }
    PermutationIsOnto(order, |chunks|);
    AllFilled(asr, sure, chunks, prompts, forced, slots[..], order);
    r := CollectPairs(slots);
    PairsRight(asr, sure, chunks, prompts, forced, slots[..], r.value);
  }

  /** Unzip the filled slots. */
  method CollectPairs(slots: array<Option<(string, string)>>) returns (r: Outcome<(seq<string>, seq<string>)>)
    ensures r.Ok? <==> forall i :: 0 <= i < slots.Length ==> slots[i].Some?
    ensures r.Ok? ==>
              |r.value.0| == |r.value.1| == slots.Length && forall i :: 0 <= i < slots.Length ==>
                slots[i] == Some((r.value.0[i], r.value.1[i]))
  {
    var all := Collect(slots);
    if all.Err? {
      return Err(all.error);
    }
    var langs: seq<string> := seq(|all.value|, i requires 0 <= i < |all.value| => all.value[i].0);
    var texts: seq<string> := seq(|all.value|, i requires 0 <= i < |all.value| => all.value[i].1);
    r := Ok((langs, texts));
  }

  lemma NoneYet(groups: seq<seq<nat>>, slots: seq<Option<(string, string)>>, asr: Recogniser, sure: bool,
                chunks: seq<Chunk>,
                prompts: seq<string>, forced: seq<Option<string>>)
    requires |slots| == |chunks| && forall i :: 0 <= i < |slots| ==> slots[i] == None
    ensures Filled(asr, sure, chunks, prompts, forced, slots, Flatten(groups[..0]))
  {
  }

  lemma AllFilled(asr: Recogniser, sure: bool, chunks: seq<Chunk>, prompts: seq<string>, forced: seq<Option<string>>,
                  slots: seq<Option<(string, string)>>, order: seq<nat>)
    requires Filled(asr, sure, chunks, prompts, forced, slots, order) && forall i: nat :: i < |chunks| ==> i in order
    ensures |slots| == |chunks|
    ensures forall i ::
              0 <= i < |chunks| ==> slots[i].Some? && Matches(asr, sure, chunks[i], prompts, forced, slots[i].value)
  {
    hide Matches;
    forall i: nat | i < |chunks|
      ensures slots[i].Some? && Matches(asr, sure, chunks[i], prompts, forced, slots[i].value)
    {
      assert i in order;
    }
  }

  lemma PairsRight(asr: Recogniser, sure: bool, chunks: seq<Chunk>, prompts: seq<string>, forced: seq<Option<string>>,
                   slots: seq<Option<(string, string)>>, pairs: (seq<string>, seq<string>))
    requires |slots| == |chunks| == |pairs.0| == |pairs.1|
    requires forall i :: 0 <= i < |chunks| ==> slots[i] == Some((pairs.0[i], pairs.1[i]))
    requires forall i :: 0 <= i < |chunks| ==> Matches(asr, sure, chunks[i], prompts, forced, slots[i].value)
    ensures AllKnown(chunks, prompts) && (sure ==> PerChunk(asr, chunks, prompts, forced, pairs.0, pairs.1))
  {
    hide Expected;
    forall i | 0 <= i < |chunks|
      ensures Matches(asr, sure, chunks[i], prompts, forced, (pairs.0[i], pairs.1[i]))
    {
    }
  }
}
