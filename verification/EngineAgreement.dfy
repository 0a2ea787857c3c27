/** The same segments through either engine give the same tokens. */
module EngineAgreement {
  import opened Decoding
  import opened PagedKvCache
  import opened PagedCacheRuntime
  import opened PrefillInput
  import opened PagedBatchPrefill
  import opened ContinuousBatch
  import opened BatchRuns
  import opened WaveInput
  import opened ContinuousScheduler
  import opened StaticBatch

  function IdRowsOf(prepared: seq<PreparedInputs>): (rows: seq<seq<Token>>)
    ensures |rows| == |prepared|
  {
    seq(|prepared|, i requires 0 <= i < |prepared| => prepared[i].inputIds)
  }

  function MasksOf(prepared: seq<PreparedInputs>): (masks: seq<seq<nat>>)
    ensures |masks| == |prepared|
  {
    seq(|prepared|, i requires 0 <= i < |prepared| => prepared[i].attentionMask)
  }

  /** For right-padded segments both engines decode the same prompts. */
  lemma SamePrompts(prepared: seq<PreparedInputs>, audioId: Token, audio: seq<AudioRow>)
    requires forall i ::
              0 <= i < |prepared| ==>
                CleanRow(prepared[i], audioId) && |prepared[i].inputIds| == |prepared[i].attentionMask|
    requires AudioOffset(ClientRows(prepared), audioId, |prepared|) == |audio|
    ensures VisibleRows(IdRowsOf(prepared), MasksOf(prepared)) == ClientRows(prepared)
    ensures BatchPrompts(IdRowsOf(prepared), MasksOf(prepared), audioId, audio) ==
              Prompts(ClientRows(prepared), audioId, audio)
  {
    hide AudioOffset, CountAudio, Prompts, MaskLen, Visible;
    var rows, masks := IdRowsOf(prepared), MasksOf(prepared);
    forall i | 0 <= i < |prepared|
      ensures Visible(rows[i], masks[i]) == ClientTokens(prepared[i])
    {
      VisiblePrefix(rows[i], masks[i]);
    }
    assert VisibleRows(rows, masks) == ClientRows(prepared);
    OwnAll(audio, ClientRows(prepared), audioId);
  }

  /** Static and continuous batching agree, client by client. */
  lemma EnginesAgree(net: Network, eos: seq<Token>, maxNew: nat, prepared: seq<PreparedInputs>, audioId: Token,
                     audio: seq<AudioRow>, numBlocks: nat, maxNumSeqs: nat,
                     c: Cache, base: nat, trace: seq<Sched>, continuous: RunResult, batch: seq<seq<Token>>)
    requires forall i ::
              0 <= i < |prepared| ==>
                CleanRow(prepared[i], audioId) && |prepared[i].inputIds| == |prepared[i].attentionMask|
    requires AudioOffset(ClientRows(prepared), audioId, |prepared|) == |audio| && eos != [] && ValidCache(c, numBlocks)
    requires RunsTo(EnvOf(net, eos, maxNew, prepared, audioId, audio, numBlocks, maxNumSeqs), prepared, c, base, trace,
                    continuous)
    requires continuous.Done?
    requires NoBumps(EnvOf(net, eos, maxNew, prepared, audioId, audio, numBlocks, maxNumSeqs), trace[..|trace| - 1])
    requires GreedyOutputs(net, eos, maxNew, IdRowsOf(prepared), MasksOf(prepared), audioId, audio, batch)
    ensures continuous.outputs == batch
  {
    hide CleanRow, AudioOffset, ClientRows, Prompts, BatchPrompts, RunsTo, NoBumps, Greedy, VisibleRows, ValidCache;
    SamePrompts(prepared, audioId, audio);
    var env := EnvOf(net, eos, maxNew, prepared, audioId, audio, numBlocks, maxNumSeqs);
    if prepared == [] {
      NobodyRanForNobody(env, prepared, c, base, trace, continuous);
    } else {
      ContinuousIsGreedy(env, prepared, c, base, trace, continuous, 0);
    }
    forall i | 0 <= i < |prepared|
      ensures i < |continuous.outputs| && continuous.outputs[i] == batch[i]
    {
      ContinuousIsGreedy(env, prepared, c, base, trace, continuous, i);
    }
  }

  lemma NobodyRanForNobody(env: Env, prepared: seq<PreparedInputs>, c: Cache, base: nat, trace: seq<Sched>,
                           r: RunResult)
    requires ValidCache(c, env.numBlocks) && |env.lens| == |env.prompts| == 0
    requires RunsTo(env, prepared, c, base, trace, r) && r.Done?
    ensures r.outputs == []
  {
    StartHealthy(env, c, base);
    EveryStateWellFormed(env, trace, |trace| - 1);
  }
}
