/** The language model as the engine sees it, and the unbatched greedy decoding it must reproduce. */
module Decoding {
  type Token = nat

  /** One row of encoded audio features. */
  type AudioRow(!new, 0)

  /** Everything the cache holds for one position: the keys and values of all layers. */
  type Kv(!new, 0)

  /** What is embedded at one position: a vocabulary entry or an audio feature row. */
  datatype Item = Embedding(id: Token) | Audio(row: AudioRow)

  /** The forward pass, left uninterpreted: the entry a token leaves in the cache depends on the
      entries it attends to, on its embedding and on its position id; the greedy choice depends on
      all entries up to and including the token's own. `blank` is the zero-filled cache content. */
  datatype Network = Network(entry: (seq<Kv>, Item, nat) -> Kv, head: seq<Kv> -> Token, blank: Kv)

  /** The cache of a sequence processed alone, from position 0. */
  function Encode(net: Network, items: seq<Item>): (entries: seq<Kv>)
    ensures |entries| == |items|
  {
    if items == [] then [] else
      var k := |items| - 1;
      var entries := Encode(net, items[..k]);
      entries + [net.entry(entries, items[k], k)]
  }

  function NextToken(net: Network, items: seq<Item>): Token {
    net.head(Encode(net, items))
  }

  function Embed(tokens: seq<Token>): (items: seq<Item>)
    ensures |items| == |tokens|
  {
    seq(|tokens|, i requires 0 <= i < |tokens| => Embedding(tokens[i]))
  }

  /** Greedy decoding of one prompt on its own: stop before an end token or after `budget` tokens. */
  function Greedy(net: Network, eos: seq<Token>, context: seq<Item>, budget: nat): seq<Token>
    decreases budget
  {
    if budget == 0 then []
    else
      var t := NextToken(net, context);
      if t in eos then [] else [t] + Greedy(net, eos, context + [Embedding(t)], budget - 1)
  }

  /** Every generated token is the network's choice after the prompt and the tokens before it. */
  ghost predicate GreedyPrefix(net: Network, eos: seq<Token>, prompt: seq<Item>, g: seq<Token>) {
    forall k :: 0 <= k < |g| ==> g[k] == NextToken(net, prompt + Embed(g[..k])) && g[k] !in eos
  }

  /** A greedy prefix that may not be extended: the budget is spent or the next choice ends it. */
  ghost predicate GreedyComplete(net: Network, eos: seq<Token>, prompt: seq<Item>, budget: nat, g: seq<Token>) {
    && GreedyPrefix(net, eos, prompt, g)
    && |g| <= budget
    && (|g| < budget ==> NextToken(net, prompt + Embed(g)) in eos)
  }

  lemma EmbedPrepend(prompt: seq<Item>, t: Token, g: seq<Token>)
    ensures prompt + Embed([t] + g) == prompt + [Embedding(t)] + Embed(g)
  {
  }

  lemma GreedyPrefixExtend(net: Network, eos: seq<Token>, prompt: seq<Item>, g: seq<Token>, t: Token)
    requires GreedyPrefix(net, eos, prompt, g)
    requires t == NextToken(net, prompt + Embed(g)) && t !in eos
    ensures GreedyPrefix(net, eos, prompt, g + [t])
  {
    forall k | 0 <= k < |g + [t]|
      ensures (g + [t])[k] == NextToken(net, prompt + Embed((g + [t])[..k])) && (g + [t])[k] !in eos
    {
      if k == |g| {
        assert (g + [t])[..k] == g;
      } else {
        assert (g + [t])[..k] == g[..k];
      }
    }
  }

  /** Moving the first generated token into the prompt. */
  lemma GreedyPrefixShift(net: Network, eos: seq<Token>, prompt: seq<Item>, t: Token, tail: seq<Token>)
    requires t == NextToken(net, prompt) && t !in eos
    ensures GreedyPrefix(net, eos, prompt, [t] + tail) <==> GreedyPrefix(net, eos, prompt + [Embedding(t)], tail)
  {
    var g := [t] + tail;
    forall k | 0 <= k < |tail|
      ensures prompt + [Embedding(t)] + Embed(tail[..k]) == prompt + Embed(g[..k + 1])
    {
      assert g[..k + 1] == [t] + tail[..k];
      EmbedPrepend(prompt, t, tail[..k]);
    }
    assert prompt + Embed(g[..0]) == prompt;
    forall k | 0 <= k < |tail|
      ensures g[k + 1] == tail[k]
    {
    }
    if GreedyPrefix(net, eos, prompt + [Embedding(t)], tail) {
      forall k | 0 <= k < |g|
        ensures g[k] == NextToken(net, prompt + Embed(g[..k])) && g[k] !in eos
      {
        if k > 0 {
          assert g[k] == tail[k - 1];
        }
      }
    }
  }

  /** The stepwise description determines the output: it is the recursive decoder's, and only it. */
  lemma {:induction false} GreedyCharacterised(net: Network, eos: seq<Token>, prompt: seq<Item>, budget: nat,
                                               g: seq<Token>)
    ensures GreedyComplete(net, eos, prompt, budget, g) <==> g == Greedy(net, eos, prompt, budget)
    decreases budget
  {
    var t := NextToken(net, prompt);
    assert prompt + Embed([]) == prompt;
    hide Encode, NextToken;
    if budget == 0 || g == [] {
    } else if t in eos || g[0] != t {
      assert g[..0] == [];
    } else {
      hide GreedyPrefix;
      var tail := g[1..];
      assert g == [t] + tail;
      GreedyPrefixShift(net, eos, prompt, t, tail);
      EmbedPrepend(prompt, t, tail);
      GreedyCharacterised(net, eos, prompt + [Embedding(t)], budget - 1, tail);
    }
  }

  function CountAudio(ids: seq<Token>, audioId: Token): (n: nat)
    ensures n <= |ids|
  {
    if ids == [] then 0
    else CountAudio(ids[..|ids| - 1], audioId) + (if ids[|ids| - 1] == audioId then 1 else 0)
  }

  /** Replace the k-th audio placeholder by the k-th feature row. */
  function Merge(ids: seq<Token>, audioId: Token, rows: seq<AudioRow>): (items: seq<Item>)
    requires CountAudio(ids, audioId) <= |rows|
    ensures |items| == |ids|
  {
    if ids == [] then [] else
      var k := |ids| - 1;
      var n := CountAudio(ids[..k], audioId);
      Merge(ids[..k], audioId, rows) + [if ids[k] == audioId then Audio(rows[n]) else Embedding(ids[k])]
  }

  lemma {:induction false} CountAudioConcat(a: seq<Token>, b: seq<Token>, audioId: Token)
    ensures CountAudio(a + b, audioId) == CountAudio(a, audioId) + CountAudio(b, audioId)
  {
    if b == [] {
      assert a + b == a;
    } else {
      var k := |b| - 1;
      CountAudioConcat(a, b[..k], audioId);
      assert (a + b)[..|a + b| - 1] == a + b[..k];
    }
  }

  lemma MergeLast(ids: seq<Token>, audioId: Token, rows: seq<AudioRow>)
    requires ids != [] && CountAudio(ids, audioId) <= |rows|
    ensures var k := |ids| - 1;
            var n := CountAudio(ids[..k], audioId);
            && CountAudio(ids, audioId) == n + (if ids[k] == audioId then 1 else 0)
            && Merge(ids, audioId, rows) ==
              Merge(ids[..k], audioId, rows) + [if ids[k] == audioId then Audio(rows[n]) else Embedding(ids[k])]
  {
  }

  /** Merging a concatenation gives each part its own stretch of the feature rows. */
  lemma {:induction false} MergeConcat(a: seq<Token>, b: seq<Token>, audioId: Token, ra: seq<AudioRow>,
                                       rb: seq<AudioRow>)
    requires CountAudio(a, audioId) == |ra| && CountAudio(b, audioId) <= |rb|
    ensures CountAudio(a + b, audioId) <= |ra + rb|
    ensures Merge(a + b, audioId, ra + rb) == Merge(a, audioId, ra) + Merge(b, audioId, rb)
  {
    CountAudioConcat(a, b, audioId);
    if b == [] {
      assert a + b == a;
      MergeIgnoresExtraRows(a, audioId, ra, rb);
    } else {
      MergeLast(b, audioId, rb);
      MergeLast(a + b, audioId, ra + rb);
      hide Merge, CountAudio;
      var k := |b| - 1;
      CountAudioConcat(a, b[..k], audioId);
      MergeConcat(a, b[..k], audioId, ra, rb);
      assert (a + b)[..|a + b| - 1] == a + b[..k];
    }
  }

  lemma {:induction false} MergeIgnoresExtraRows(ids: seq<Token>, audioId: Token, rows: seq<AudioRow>,
                                                 extra: seq<AudioRow>)
    requires CountAudio(ids, audioId) <= |rows|
    ensures Merge(ids, audioId, rows + extra) == Merge(ids, audioId, rows)
  {
    if ids != [] {
      MergeIgnoresExtraRows(ids[..|ids| - 1], audioId, rows, extra);
    }
  }
}
