/** Passes over the tokens of a text that move token boundaries: they regroup neighbouring tokens or split
    single ones, and never touch the text itself. */
module TokenPasses {
  import opened Prelude

  type Tokens = seq<string>

  ghost predicate NoEmpty(tokens: Tokens) {
    forall t :: t in tokens ==> t != ""
  }

  // ----- characters

  predicate IsCjkChar(ch: char) {
    var code := ch as int;
    || 0x4E00 <= code <= 0x9FFF
    || 0x3400 <= code <= 0x4DBF
    || 0x20000 <= code <= 0x2A6DF
    || 0x2A700 <= code <= 0x2B73F
    || 0x2B740 <= code <= 0x2B81F
    || 0x2B820 <= code <= 0x2CEAF
    || 0xF900 <= code <= 0xFAFF
  }

  predicate IsHiraganaChar(ch: char) { 0x3040 <= ch as int <= 0x309F }

  predicate IsFullwidthKatakanaChar(ch: char) { 0x30A0 <= ch as int <= 0x30FF }

  predicate IsHiraganaSmallChar(ch: char) {
    ch in {'ゃ', 'ゅ', 'ょ', 'ぁ', 'ぃ', 'ぅ', 'ぇ', 'ぉ', 'ゎ', 'っ', 'ゕ', 'ゖ'}
  }

  predicate IsParticleChar(ch: char) {
    ch in {'は', 'が', 'を', 'に', 'で', 'へ', 'と', 'の', 'も', 'や'}
  }

  predicate IsParticleToken(t: string) { |t| == 1 && IsParticleChar(t[0]) }

  predicate AllHiragana(t: string) {
    forall i :: 0 <= i < |t| ==> IsHiraganaChar(t[i])
  }

  predicate IsAsciiDigit(ch: char) { '0' <= ch <= '9' }

  predicate IsSingleKanji(t: string) { |t| == 1 && IsCjkChar(t[0]) }

  // ----- regrouping neighbours

  /** The passes that join neighbouring tokens. */
  datatype Join = Bridge | Prefix | Kanji | Terms(terms: set<string>)

  /** A short hiragana token before a longer one with a particle inside it. */
  predicate BridgeAt(tokens: Tokens, i: nat) {
    && i + 1 < |tokens|
    && var (cur, next) := (tokens[i], tokens[i + 1]);
       && cur != "" && AllHiragana(cur) && next != "" && AllHiragana(next)
       && !IsParticleToken(cur)
       && |cur| <= 2
       && |next| >= 4
       && exists k :: 0 < k < |next| - 1 && IsParticleChar(next[k])
  }

  /** A hiragana token cut off from its last character before a particle. */
  predicate PrefixAt(tokens: Tokens, i: nat) {
    && i + 2 < |tokens|
    && var (cur, next) := (tokens[i], tokens[i + 1]);
       && cur != "" && AllHiragana(cur) && next != "" && AllHiragana(next)
       && IsParticleToken(tokens[i + 2])
       && !IsParticleToken(next)
       && (|next| == 1 || IsHiraganaSmallChar(next[0]))
  }

  ghost predicate IsTerm(tokens: Tokens, terms: set<string>, a: nat, b: nat)
    requires a <= b <= |tokens|
  {
    Flatten(tokens[a..b]) in terms
  }

  /** The pass joins exactly the tokens from `a` to `b`: a pair, a whole run of single kanji, or the longest
      stretch that makes a term. */
  ghost predicate JoinsTo(pass: Join, tokens: Tokens, a: nat, b: nat)
    requires a < b <= |tokens|
  {
    match pass
    case Bridge => b == if BridgeAt(tokens, a) then a + 2 else a + 1
    case Prefix => b == if PrefixAt(tokens, a) then a + 2 else a + 1
    case Kanji =>
      if IsSingleKanji(tokens[a]) then (forall k :: a <= k < b ==> IsSingleKanji(tokens[k])) &&
        (b < |tokens| ==> !IsSingleKanji(tokens[b]))
      else b == a + 1
    case Terms(terms) =>
      && (IsTerm(tokens, terms, a, b) || b == a + 1)
      && forall c :: b < c <= |tokens| ==> !IsTerm(tokens, terms, a, c)
  }

  /** Each new token is the join of the old ones between two cuts. */
  ghost predicate GroupAt(pass: Join, tokens: Tokens, out: Tokens, cuts: seq<nat>, k: nat)
    requires k < |out| && |cuts| == |out| + 1
  {
    && cuts[k] < cuts[k + 1] <= |tokens|
    && out[k] == Flatten(tokens[cuts[k]..cuts[k + 1]])
    && JoinsTo(pass, tokens, cuts[k], cuts[k + 1])
  }

  /** The first `n` tokens are regrouped. */
  ghost predicate Regrouped(pass: Join, tokens: Tokens, out: Tokens, cuts: seq<nat>, n: nat) {
    && |cuts| == |out| + 1
    && cuts[0] == 0
    && cuts[|out|] == n
    && forall k: nat :: k < |out| ==> GroupAt(pass, tokens, out, cuts, k)
  }

  /** The whole text is regrouped. */
  ghost predicate Rejoined(pass: Join, tokens: Tokens, out: Tokens) {
    exists cuts :: Regrouped(pass, tokens, out, cuts, |tokens|)
  }

  lemma NextGroup(pass: Join, tokens: Tokens, out: Tokens, cuts: seq<nat>, a: nat, b: nat)
    requires Regrouped(pass, tokens, out, cuts, a) && a < b <= |tokens| && JoinsTo(pass, tokens, a, b)
    ensures Regrouped(pass, tokens, out + [Flatten(tokens[a..b])], cuts + [b], b)
  {
    hide JoinsTo;
    var (out', cuts') := (out + [Flatten(tokens[a..b])], cuts + [b]);
    forall k: nat | k < |out'|
      ensures GroupAt(pass, tokens, out', cuts', k)
    {
      if k < |out| {
        assert GroupAt(pass, tokens, out, cuts, k);
      }
    }
  }

  lemma {:induction false} FlattenConcat<T>(a: seq<seq<T>>, b: seq<seq<T>>)
    ensures Flatten(a + b) == Flatten(a) + Flatten(b)
  {
    if b == [] {
      assert a + b == a;
    } else {
      FlattenConcat(a, b[..|b| - 1]);
      assert (a + b)[..|a + b| - 1] == a + b[..|b| - 1];
    }
  }

  lemma FlattenOne<T>(row: seq<T>)
    ensures Flatten([row]) == row
  {
  }

  /** Regrouping keeps the text, and makes no empty token. */
  lemma RejoinKeeps(pass: Join, tokens: Tokens, out: Tokens)
    requires Rejoined(pass, tokens, out)
    ensures Flatten(out) == Flatten(tokens) && (NoEmpty(tokens) ==> NoEmpty(out))
  {
    var cuts :| Regrouped(pass, tokens, out, cuts, |tokens|);
    RegroupKeeps(pass, tokens, out, cuts, |tokens|);
    assert tokens[..|tokens|] == tokens;
  }

  lemma {:induction false} RegroupKeeps(pass: Join, tokens: Tokens, out: Tokens, cuts: seq<nat>, n: nat)
    requires Regrouped(pass, tokens, out, cuts, n)
    ensures n <= |tokens| && Flatten(out) == Flatten(tokens[..n])
    ensures NoEmpty(tokens) ==> NoEmpty(out)
  {
    hide JoinsTo, Flatten;
    FlattenNothing(out, tokens);
    if out != [] {
      var k := |out| - 1;
      assert GroupAt(pass, tokens, out, cuts, k);
      var (o, c) := (out[..k], cuts[..k + 1]);
      forall j: nat | j < k
        ensures GroupAt(pass, tokens, o, c, j)
      {
        assert GroupAt(pass, tokens, out, cuts, j);
      }
      RegroupKeeps(pass, tokens, out[..k], cuts[..k + 1], cuts[k]);
      assert tokens[..n] == tokens[..cuts[k]] + tokens[cuts[k]..n] && out == out[..k] + [out[k]];
      FlattenConcat(tokens[..cuts[k]], tokens[cuts[k]..n]);
      FlattenConcat(out[..k], [out[k]]);
      FlattenOne(out[k]);
      JoinNotEmpty(tokens, cuts[k], n);
    }
  }

  lemma FlattenNothing(out: Tokens, tokens: Tokens)
    ensures out == [] ==> Flatten(out) == Flatten(tokens[..0])
  {
  }

  lemma JoinNotEmpty(tokens: Tokens, a: nat, b: nat)
    requires a < b <= |tokens|
    ensures NoEmpty(tokens) ==> Flatten(tokens[a..b]) != ""
  {
    var part := tokens[a..b];
    assert part[|part| - 1] == tokens[b - 1] && tokens[b - 1] in tokens;
  }

  /** The repairs only join hiragana, and the kanji pass only kanji: every other token stays as it is. */
  lemma JoinsOneScript(pass: Join, tokens: Tokens, out: Tokens, t: string)
    requires Rejoined(pass, tokens, out) && t in out
    ensures pass == Bridge || pass == Prefix ==> t in tokens || AllHiragana(t)
    ensures pass == Kanji ==> t in tokens || forall c :: c in t ==> IsCjkChar(c)
  {
    var cuts :| Regrouped(pass, tokens, out, cuts, |tokens|);
    var k: nat :| k < |out| && out[k] == t;
    assert GroupAt(pass, tokens, out, cuts, k);
    var (a, b) := (cuts[k], cuts[k + 1]);
    if b <= a + 2 {
      PairJoined(tokens, a, b);
    }
    if pass == Kanji && IsSingleKanji(tokens[a]) {
      AllKanji(tokens[a..b]);
    }
  }

  lemma {:induction false} AllKanji(tokens: Tokens)
    requires forall k :: 0 <= k < |tokens| ==> IsSingleKanji(tokens[k])
    ensures forall c :: c in Flatten(tokens) ==> IsCjkChar(c)
  {
    if tokens != [] {
      AllKanji(tokens[..|tokens| - 1]);
    }
  }

  method RepairPairs(pass: Join, tokens: Tokens) returns (out: Tokens)
    requires pass == Bridge || pass == Prefix
    ensures Rejoined(pass, tokens, out)
  {
    out := [];
    ghost var cuts: seq<nat> := [0];
    var i := 0;
    while i < |tokens|
      invariant Regrouped(pass, tokens, out, cuts, i) && i <= |tokens|
    {
      var pair := if pass == Bridge then BridgeAt(tokens, i) else PrefixAt(tokens, i);
      var next := if pair then i + 2 else i + 1;
      NextGroup(pass, tokens, out, cuts, i, next);
      PairJoined(tokens, i, next);
      out := out + [if pair then tokens[i] + tokens[i + 1] else tokens[i]];
      cuts := cuts + [next];
      i := next;
    }
  }

  lemma PairJoined(tokens: Tokens, a: nat, b: nat)
    requires a < b <= |tokens| && (b == a + 1 || b == a + 2)
    ensures Flatten(tokens[a..b]) == if b == a + 1 then tokens[a] else tokens[a] + tokens[a + 1]
  {
    if b == a + 1 {
      assert tokens[a..b] == [tokens[a]];
      FlattenOne(tokens[a]);
    } else {
      assert tokens[a..b] == [tokens[a]] + [tokens[a + 1]];
      FlattenConcat([tokens[a]], [tokens[a + 1]]);
      FlattenOne(tokens[a]);
      FlattenOne(tokens[a + 1]);
    }
  }

  /** Runs of single kanji become one token. */
  method MergeKanji(tokens: Tokens) returns (merged: Tokens)
    ensures Rejoined(Kanji, tokens, merged)
  {
    merged := [];
    ghost var cuts: seq<nat> := [0];
    var kanjiBuf := "";
    ghost var start := 0;
    for i := 0 to |tokens|
      invariant start <= i && Regrouped(Kanji, tokens, merged, cuts, start)
      invariant kanjiBuf == Flatten(tokens[start..i]) && |kanjiBuf| == i - start
      invariant forall k :: start <= k < i ==> IsSingleKanji(tokens[k])
    {
      var tok := tokens[i];
      OneMore(tokens, start, i);
      if IsSingleKanji(tok) {
        kanjiBuf := kanjiBuf + [tok[0]];
      } else {
        if kanjiBuf != "" {
          NextGroup(Kanji, tokens, merged, cuts, start, i);
          merged, cuts := merged + [kanjiBuf], cuts + [i];
          kanjiBuf := "";
        }
        NextGroup(Kanji, tokens, merged, cuts, i, i + 1);
        PairJoined(tokens, i, i + 1);
        merged, cuts := merged + [tok], cuts + [i + 1];
        start := i + 1;
      }
    }
    if kanjiBuf != "" {
      NextGroup(Kanji, tokens, merged, cuts, start, |tokens|);
      merged, cuts := merged + [kanjiBuf], cuts + [|tokens|];
    }
  }

  /** The phrase terms, and the length of the longest. */
  ghost predicate TermsFit(terms: set<string>, maxChars: nat) {
    forall t :: t in terms ==> 0 < |t| <= maxChars
  }

  /** Greedily, the longest stretch of tokens that makes a term becomes one token. */
  method MergeTerms(tokens: Tokens, terms: set<string>, maxChars: nat) returns (merged: Tokens)
    requires TermsFit(terms, maxChars)
    ensures Rejoined(Terms(terms), tokens, merged)
  {
    if maxChars == 0 {
      ghost var same := NothingToMerge(tokens, terms);
      return tokens;
    }
    merged := [];
    ghost var cuts: seq<nat> := [0];
    var i := 0;
    while i < |tokens|
      invariant Regrouped(Terms(terms), tokens, merged, cuts, i) && i <= |tokens|
    {
      var next := LongestTerm(tokens, terms, maxChars, i);
      NextGroup(Terms(terms), tokens, merged, cuts, i, next);
      merged, cuts := merged + [Flatten(tokens[i..next])], cuts + [next];
      i := next;
    }
  }

  /** The end of the longest term that starts at `i`; the next token when there is none. */
  method LongestTerm(tokens: Tokens, terms: set<string>, maxChars: nat, i: nat) returns (next: nat)
    requires TermsFit(terms, maxChars) && i < |tokens|
    ensures i < next <= |tokens| && JoinsTo(Terms(terms), tokens, i, next)
  {
    hide Flatten;
    next := i + 1;
    var acc := "";
    var j := i;
    PiecesStart();
    assert tokens[i..i] == [];
    while j < |tokens|
      invariant i <= j <= |tokens| && acc == Flatten(tokens[i..j])
      invariant i < next <= |tokens| && (IsTerm(tokens, terms, i, next) || next == i + 1)
      invariant forall c :: next < c <= j ==> !IsTerm(tokens, terms, i, c)
      decreases |tokens| - j
    {
      OneMore(tokens, i, j);
      acc := acc + tokens[j];
      if |acc| > maxChars {
        TooLongForTerm(tokens, terms, maxChars, i, j + 1);
        return;
      }
      j := j + 1;
      if acc in terms {
        next := j;
      }
    }
  }

  lemma OneMore(tokens: Tokens, a: nat, b: nat)
    requires a <= b < |tokens|
    ensures Flatten(tokens[a..b + 1]) == Flatten(tokens[a..b]) + tokens[b]
  {
    assert tokens[a..b + 1] == tokens[a..b] + [tokens[b]];
    FlattenConcat(tokens[a..b], [tokens[b]]);
    FlattenOne(tokens[b]);
  }

  lemma TooLongForTerm(tokens: Tokens, terms: set<string>, maxChars: nat, a: nat, b: nat)
    requires TermsFit(terms, maxChars) && a < b <= |tokens| && |Flatten(tokens[a..b])| > maxChars
    ensures forall c :: b <= c <= |tokens| ==> !IsTerm(tokens, terms, a, c)
  {
    forall c | b <= c <= |tokens|
      ensures !IsTerm(tokens, terms, a, c)
    {
      assert tokens[a..c] == tokens[a..b] + tokens[b..c];
      FlattenConcat(tokens[a..b], tokens[b..c]);
    }
  }

  lemma {:induction false} NothingToMerge(tokens: Tokens, terms: set<string>) returns (cuts: seq<nat>)
    requires TermsFit(terms, 0)
    ensures Regrouped(Terms(terms), tokens, tokens, cuts, |tokens|)
  {
    cuts := seq(|tokens| + 1, i requires 0 <= i <= |tokens| => i);
    forall k: nat | k < |tokens|
      ensures GroupAt(Terms(terms), tokens, tokens, cuts, k)
    {
      PairJoined(tokens, k, k + 1);
      assert terms == {} by {
        assert forall t :: t in terms ==> 0 < |t| <= 0;
      }
    }
  }

  // ----- splitting single tokens

  /** The passes that split tokens. */
  datatype Split = Digits | Katakana | Particles

  function Singles(t: string): (r: Tokens)
    ensures |r| == |t|
  {
    seq(|t|, i requires 0 <= i < |t| => [t[i]])
  }

  function SplitDigitRun(t: string): Tokens {
    if |t| > 1 && forall i :: 0 <= i < |t| ==> IsAsciiDigit(t[i]) then Singles(t) else [t]
  }

  const KATAKANA := "カタカナ"

  predicate EndsWith(t: string, suffix: string) {
    |t| >= |suffix| && t[|t| - |suffix|..] == suffix
  }

  function SplitKatakanaCompound(t: string): Tokens {
    if (forall i :: 0 <= i < |t| ==> IsFullwidthKatakanaChar(t[i])) && EndsWith(t, KATAKANA) && |t| >= |KATAKANA| + 2
    then [t[..|t| - |KATAKANA|], KATAKANA] else [t]
  }

  /** Where particles stand inside a token, below `n`. */
  function ParticlePositions(t: string, n: nat): (ps: seq<nat>)
    requires n <= |t|
    ensures forall k :: 0 <= k < |ps| ==> 0 < ps[k] < n && ps[k] + 1 < |t|
    ensures forall j, k :: 0 <= j < k < |ps| ==> ps[j] < ps[k]
  {
    if n == 0 then [] else
      var ps := ParticlePositions(t, n - 1);
      if 0 < n - 1 && n < |t| && IsParticleChar(t[n - 1]) then ps + [n - 1] else ps
  }

  /** The token cut before and after each of these positions, as far as the last. */
  function Pieces(t: string, ps: seq<nat>): (r: (Tokens, nat))
    requires (forall k :: 0 <= k < |ps| ==> ps[k] + 1 < |t|) && forall j, k :: 0 <= j < k < |ps| ==> ps[j] < ps[k]
    ensures r.1 == if ps == [] then 0 else ps[|ps| - 1] + 1
  {
    if ps == [] then ([], 0) else
      var i := ps[|ps| - 1];
      var (out, start) := Pieces(t, ps[..|ps| - 1]);
      ((if start < i then out + [t[start..i]] else out) + [t[i..i + 1]], i + 1)
  }

  function ParticlePieces(t: string, ps: seq<nat>): Tokens
    requires ps != [] && (forall k :: 0 <= k < |ps| ==> ps[k] + 1 < |t|)
    requires forall j, k :: 0 <= j < k < |ps| ==> ps[j] < ps[k]
  {
    if |ps| == 1 then
      var i := ps[0];
      if |t| < 7 || i < 2 || |t| - (i + 1) < 2 then [t] else [t[..i], t[i..i + 1], t[i + 1..]]
    else
      var (out, start) := Pieces(t, ps);
      if start < |t| then out + [t[start..]] else out
  }

  /** Sentence endings split off a piece. */
  function TailPieces(seg: string): Tokens {
    var m := |seg|;
    if m >= 4 && seg[m - 2] == 'か' && seg[m - 1] == 'な' && AllHiragana(seg[..m - 2]) then [seg[..m - 2], "か", "な"]
    else if m >= 4 && seg[m - 2] == 'よ' && seg[m - 1] == 'ね' && AllHiragana(seg[..m - 2]) then [seg[..m - 2], "よ", "ね"]
    else if m >= 3 && seg[m - 1] in {'か', 'ね', 'よ', 'な'} && AllHiragana(seg[..m - 1]) then [seg[..m - 1], seg[m - 1..]]
    else [seg]
  }

  function AllTails(segs: Tokens): Tokens {
    if segs == [] then [] else AllTails(segs[..|segs| - 1]) + TailPieces(segs[|segs| - 1])
  }

  function FilterNonEmpty(tokens: Tokens): Tokens {
    if tokens == [] then [] else
      var rest := FilterNonEmpty(tokens[..|tokens| - 1]);
      if tokens[|tokens| - 1] == "" then rest else rest + [tokens[|tokens| - 1]]
  }

  function SplitHiraganaParticleToken(t: string): Tokens {
    var n := |t|;
    if !AllHiragana(t) then [t]
    else if n >= 5 && t[0] == 'お' && t[n - 2] == 'さ' && t[n - 1] == 'ん' then ["お", t[1..n - 2], "さん"]
    else if n < 6 then [t]
    else
      var ps := ParticlePositions(t, n);
      if ps == [] then [t] else FilterNonEmpty(AllTails(ParticlePieces(t, ps)))
  }

  function SplitToken(kind: Split, t: string): Tokens {
    match kind
    case Digits => SplitDigitRun(t)
    case Katakana => SplitKatakanaCompound(t)
    case Particles => SplitHiraganaParticleToken(t)
  }

  function SplitAll(kind: Split, tokens: Tokens): Tokens {
    if tokens == [] then [] else SplitAll(kind, tokens[..|tokens| - 1]) + SplitToken(kind, tokens[|tokens| - 1])
  }

  method SplitTokens(kind: Split, tokens: Tokens) returns (out: Tokens)
    ensures out == SplitAll(kind, tokens)
  {
    out := [];
    for k := 0 to |tokens|
      invariant out == SplitAll(kind, tokens[..k])
    {
      assert tokens[..k + 1][..k] == tokens[..k];
      out := out + SplitToken(kind, tokens[k]);
    }
    assert tokens[..|tokens|] == tokens;
  }

  lemma {:induction false} SinglesJoin(t: string)
    ensures Flatten(Singles(t)) == t
  {
    if t != "" {
      SinglesJoin(t[..|t| - 1]);
      assert Singles(t)[..|t| - 1] == Singles(t[..|t| - 1]);
    }
  }

  lemma FlattenTwo<T>(a: seq<T>, b: seq<T>)
    ensures Flatten([a, b]) == a + b
  {
    assert [a, b] == [a] + [b];
    FlattenConcat([a], [b]);
    FlattenOne(a);
    FlattenOne(b);
  }

  lemma FlattenThree<T>(a: seq<T>, b: seq<T>, c: seq<T>)
    ensures Flatten([a, b, c]) == a + b + c
  {
    assert [a, b, c] == [a, b] + [c];
    FlattenConcat([a, b], [c]);
    FlattenTwo(a, b);
    FlattenOne(c);
  }

  lemma {:induction false} FilterKeeps(tokens: Tokens)
    ensures Flatten(FilterNonEmpty(tokens)) == Flatten(tokens) && NoEmpty(FilterNonEmpty(tokens))
  {
    if tokens != [] {
      var n := |tokens| - 1;
      FilterKeeps(tokens[..n]);
      FlattenConcat(FilterNonEmpty(tokens[..n]), [tokens[n]]);
      FlattenOne(tokens[n]);
    }
  }

  lemma TailKeeps(seg: string)
    ensures Flatten(TailPieces(seg)) == seg
  {
    var m := |seg|;
    if m >= 4 {
      FlattenThree(seg[..m - 2], [seg[m - 2]], [seg[m - 1]]);
      assert seg == seg[..m - 2] + [seg[m - 2]] + [seg[m - 1]];
    }
    if m >= 3 {
      FlattenTwo(seg[..m - 1], seg[m - 1..]);
    }
    FlattenOne(seg);
  }

  lemma {:induction false} TailsKeep(segs: Tokens)
    ensures Flatten(AllTails(segs)) == Flatten(segs)
  {
    if segs != [] {
      var n := |segs| - 1;
      TailsKeep(segs[..n]);
      TailKeeps(segs[n]);
      FlattenConcat(AllTails(segs[..n]), TailPieces(segs[n]));
    }
  }

  lemma {:induction false} PiecesJoin(t: string, ps: seq<nat>)
    requires (forall k :: 0 <= k < |ps| ==> ps[k] + 1 < |t|) && forall j, k :: 0 <= j < k < |ps| ==> ps[j] < ps[k]
    ensures Flatten(Pieces(t, ps).0) == t[..Pieces(t, ps).1]
  {
    hide Flatten;
    PiecesStart();
    if ps != [] {
      var n := |ps| - 1;
      var i := ps[n];
      PiecesJoin(t, ps[..n]);
      PieceJoined(t, Pieces(t, ps[..n]).0, Pieces(t, ps[..n]).1, i);
    }
  }

  lemma PiecesStart()
    ensures Flatten<char>([]) == []
  {
  }

  lemma PieceJoined(t: string, out: Tokens, start: nat, i: nat)
    requires start <= i < |t| && Flatten(out) == t[..start]
    ensures Flatten((if start < i then out + [t[start..i]] else out) + [t[i..i + 1]]) == t[..i + 1]
  {
    hide Flatten;
    var longer := if start < i then out + [t[start..i]] else out;
    FlattenConcat(out, [t[start..i]]);
    FlattenOne(t[start..i]);
    assert t[..start] + t[start..i] == t[..i];
    FlattenConcat(longer, [t[i..i + 1]]);
    FlattenOne(t[i..i + 1]);
    assert t[..i] + t[i..i + 1] == t[..i + 1];
  }

  lemma ParticlePiecesJoin(t: string, ps: seq<nat>)
    requires ps != [] && (forall k :: 0 <= k < |ps| ==> ps[k] + 1 < |t|)
    requires forall j, k :: 0 <= j < k < |ps| ==> ps[j] < ps[k]
    ensures Flatten(ParticlePieces(t, ps)) == t
  {
    hide Flatten, Pieces;
    if |ps| == 1 {
      var i := ps[0];
      FlattenOne(t);
      FlattenThree(t[..i], t[i..i + 1], t[i + 1..]);
      assert t == t[..i] + t[i..i + 1] + t[i + 1..];
    } else {
      PiecesJoin(t, ps);
      var (out, start) := Pieces(t, ps);
      FlattenConcat(out, [t[start..]]);
      FlattenOne(t[start..]);
      assert t == t[..start] + t[start..];
    }
  }

  /** Splitting keeps the token's text, and makes no empty token. */
  lemma SplitTokenKeeps(kind: Split, t: string)
    ensures Flatten(SplitToken(kind, t)) == t
    ensures t != "" ==> NoEmpty(SplitToken(kind, t))
  {
    FlattenOne(t);
    match kind
    case Digits => SinglesJoin(t);
    case Katakana =>
      if |t| >= |KATAKANA| {
        FlattenTwo(t[..|t| - |KATAKANA|], t[|t| - |KATAKANA|..]);
      }
    case Particles => ParticleSplitKeeps(t);
  }

  lemma ParticleSplitKeeps(t: string)
    ensures Flatten(SplitHiraganaParticleToken(t)) == t
    ensures t != "" ==> NoEmpty(SplitHiraganaParticleToken(t))
  {
    hide FilterNonEmpty, AllTails, ParticlePieces, Flatten, ParticlePositions;
    FlattenOne(t);
    var n := |t|;
    if n >= 5 {
      FlattenThree(t[..1], t[1..n - 2], t[n - 2..]);
      assert t == t[..1] + t[1..n - 2] + t[n - 2..];
      assert t[0] == 'お' ==> t[..1] == "お";
      assert t[n - 2] == 'さ' && t[n - 1] == 'ん' ==> t[n - 2..] == "さん";
    }
    var ps := ParticlePositions(t, n);
    if ps != [] {
      FilterKeeps(AllTails(ParticlePieces(t, ps)));
      TailsKeep(ParticlePieces(t, ps));
      ParticlePiecesJoin(t, ps);
    }
  }

  lemma {:induction false} SplitKeeps(kind: Split, tokens: Tokens)
    ensures Flatten(SplitAll(kind, tokens)) == Flatten(tokens)
    ensures NoEmpty(tokens) ==> NoEmpty(SplitAll(kind, tokens))
  {
    hide SplitToken;
    if tokens != [] {
      var n := |tokens| - 1;
      SplitKeeps(kind, tokens[..n]);
      SplitTokenKeeps(kind, tokens[n]);
      FlattenConcat(SplitAll(kind, tokens[..n]), SplitToken(kind, tokens[n]));
      assert forall t :: t in tokens[..n] ==> t in tokens;
      assert tokens[n] in tokens;
    }
  }

  // ----- where the splits are

  /** Between two tokens, or at an end, the text is cut at position `p`. */
  ghost predicate CutAt(tokens: Tokens, p: nat) {
    exists k: nat :: k <= |tokens| && CutBefore(tokens, k) == p
  }

  /** Where the text of the first `k` tokens ends. */
  ghost function CutBefore(tokens: Tokens, k: nat): nat
    requires k <= |tokens|
  {
    |Flatten(tokens[..k])|
  }

  lemma CutsOfMore(tokens: Tokens, t: string, p: nat)
    ensures CutAt(tokens + [t], p) <==> CutAt(tokens, p) || p == |Flatten(tokens)| + |t|
  {
    var more := tokens + [t];
    FlattenConcat(tokens, [t]);
    FlattenOne(t);
    hide Flatten;
    assert more[..|more|] == more;
    forall k: nat | k <= |tokens|
      ensures CutBefore(more, k) == CutBefore(tokens, k)
    {
      assert more[..k] == tokens[..k];
    }
    assert CutBefore(more, |more|) == |Flatten(tokens)| + |t|;
  }

  /** A token is split into its digits exactly if it has several characters, all of them digits. */
  lemma DigitCuts(t: string)
    ensures var pieces := SplitDigitRun(t);
            && (|pieces| > 1 <==> |t| > 1 && forall i :: 0 <= i < |t| ==> IsAsciiDigit(t[i]))
            && (|pieces| > 1 ==> forall k :: 0 <= k < |pieces| ==> |pieces[k]| == 1)
            && (|pieces| <= 1 ==> pieces == [t])
  {
  }

  /** A token is split exactly if it is katakana, ends in the word itself, and has two characters more; the word is
      what is split off. */
  lemma KatakanaCuts(t: string)
    ensures var pieces := SplitKatakanaCompound(t);
            && (|pieces| > 1 <==> exists a: string :: IsCompound(t, a))
            && (|pieces| > 1 ==> |pieces| == 2 && IsCompound(t, pieces[0]) && pieces[1] == KATAKANA)
            && (|pieces| <= 1 ==> pieces == [t])
  {
    if a: string :| IsCompound(t, a) {
      assert t[|t| - |KATAKANA|..] == KATAKANA;
    }
    if EndsWith(t, KATAKANA) {
      assert t == t[..|t| - |KATAKANA|] + KATAKANA;
      assert |SplitKatakanaCompound(t)| > 1 ==> IsCompound(t, t[..|t| - |KATAKANA|]);
    }
  }

  ghost predicate IsCompound(t: string, a: string) {
    t == a + KATAKANA && |a| >= 2 && forall i :: 0 <= i < |t| ==> IsFullwidthKatakanaChar(t[i])
  }

  /** The positions are those of the particles inside the token. */
  lemma {:induction false} ParticlesFound(t: string, n: nat)
    requires n <= |t|
    ensures forall p: nat :: p in ParticlePositions(t, n) <==> 0 < p < n && p + 1 < |t| && IsParticleChar(t[p])
  {
    if n > 0 {
      ParticlesFound(t, n - 1);
    }
  }

  /** With several particles a token is cut before and after each of them, and nowhere else. */
  lemma ParticleCuts(t: string, ps: seq<nat>, p: nat)
    requires |ps| > 1 && (forall k :: 0 <= k < |ps| ==> ps[k] + 1 < |t|)
    requires forall j, k :: 0 <= j < k < |ps| ==> ps[j] < ps[k]
    ensures CutAt(ParticlePieces(t, ps), p) <==> p == 0 || p == |t| || p in ps || (p > 0 && p - 1 in ps)
  {
    hide Pieces, Flatten, CutAt;
    var (out, start) := Pieces(t, ps);
    PiecesJoin(t, ps);
    PiecesCut(t, ps, p);
    CutsOfMore(out, t[start..], p);
  }

  lemma {:induction false} PiecesCut(t: string, ps: seq<nat>, p: nat)
    requires (forall k :: 0 <= k < |ps| ==> ps[k] + 1 < |t|) && forall j, k :: 0 <= j < k < |ps| ==> ps[j] < ps[k]
    ensures CutAt(Pieces(t, ps).0, p) <==> p == 0 || p in ps || (p > 0 && p - 1 in ps)
    decreases |ps|
  {
    hide Flatten, CutAt;
    if ps == [] {
      NoCuts(p);
    } else {
      var n := |ps| - 1;
      var (i, rest) := (ps[n], ps[..n]);
      var (out, start) := Pieces(t, rest);
      PiecesCut(t, rest, p);
      PiecesJoin(t, rest);
      PieceCuts(t, out, start, i, p);
      assert ps == rest + [i];
    }
  }

  /** What comes before the particle, if anything, and the particle. */
  lemma PieceCuts(t: string, out: Tokens, start: nat, i: nat, p: nat)
    requires start <= i < |t| && Flatten(out) == t[..start]
    ensures CutAt((if start < i then out + [t[start..i]] else out) + [t[i..i + 1]], p) <==>
              CutAt(out, p) || p == i || p == i + 1
  {
    hide Flatten, CutAt;
    FlattenConcat(out, [t[start..i]]);
    FlattenOne(t[start..i]);
    CutsOfMore(out, t[start..i], p);
    CutsOfMore(if start < i then out + [t[start..i]] else out, t[i..i + 1], p);
    CutAtEnd(out);
  }

  lemma CutAtEnd(tokens: Tokens)
    ensures CutAt(tokens, |Flatten(tokens)|)
  {
    assert tokens[..|tokens|] == tokens;
    assert CutBefore(tokens, |tokens|) == |Flatten(tokens)|;
  }

  lemma NoCuts(p: nat)
    ensures CutAt([], p) <==> p == 0
  {
    assert CutBefore([], 0) == 0;
  }

  /** A single particle cuts a token in three exactly if the token has seven characters and two on either side. */
  lemma OneParticleCuts(t: string, i: nat)
    requires 0 < i && i + 1 < |t|
    ensures |ParticlePieces(t, [i])| > 1 <==> |t| >= 7 && i >= 2 && |t| - (i + 1) >= 2
    ensures |ParticlePieces(t, [i])| > 1 ==> ParticlePieces(t, [i]) == [t[..i], [t[i]], t[i + 1..]]
    ensures |ParticlePieces(t, [i])| <= 1 ==> ParticlePieces(t, [i]) == [t]
  {
    assert t[i..i + 1] == [t[i]];
  }

  /** Sentence endings, as they are split off. */
  ghost predicate IsEnding(e: Tokens) {
    || e == ["か", "な"] || e == ["よ", "ね"]
    || e == ["か"] || e == ["ね"] || e == ["よ"] || e == ["な"]
  }

  /** A piece is hiragana of two characters at least, and then an ending. */
  ghost predicate Ends(seg: string, stem: string, e: Tokens) {
    IsEnding(e) && seg == stem + Flatten(e) && |stem| >= 2 && AllHiragana(stem)
  }

  /** A piece is split exactly if it is such a stem with an ending, and then into the stem and the longest ending. */
  lemma TailCuts(seg: string)
    ensures |TailPieces(seg)| > 1 <==> exists stem: string, e: Tokens :: Ends(seg, stem, e)
    ensures |TailPieces(seg)| > 1 ==> Ends(seg, TailPieces(seg)[0], TailPieces(seg)[1..])
    ensures |TailPieces(seg)| > 1 ==>
              forall stem: string, e: Tokens :: Ends(seg, stem, e) ==> |e| <= |TailPieces(seg)| - 1
    ensures |TailPieces(seg)| <= 1 ==> TailPieces(seg) == [seg]
  {
    forall stem: string, e: Tokens | Ends(seg, stem, e)
      ensures |e| <= |TailPieces(seg)| - 1
    {
      EndingSplit(seg, stem, e);
    }
    if |TailPieces(seg)| > 1 {
      TailKeeps(seg);
      var (stem, e) := (TailPieces(seg)[0], TailPieces(seg)[1..]);
      assert TailPieces(seg) == [stem] + e;
      FlattenConcat([stem], e);
      FlattenOne(stem);
      EndingFound(seg);
      assert Ends(seg, stem, e);
    }
  }

  lemma EndingFound(seg: string)
    requires |TailPieces(seg)| > 1
    ensures IsEnding(TailPieces(seg)[1..]) && |TailPieces(seg)[0]| >= 2 && AllHiragana(TailPieces(seg)[0])
  {
    var m := |seg|;
    assert seg[m - 1..] == [seg[m - 1]];
  }

  lemma EndingSplit(seg: string, stem: string, e: Tokens)
    requires Ends(seg, stem, e)
    ensures |TailPieces(seg)| - 1 >= |e|
  {
    var m := |seg|;
    if |e| == 1 {
      FlattenOne(e[0]);
      assert e == [e[0]];
      assert seg[..m - 1] == stem;
    } else {
      FlattenTwo(e[0], e[1]);
      assert e == [e[0], e[1]];
      assert seg[..m - 2] == stem;
    }
  }

  /** When a token is looked at for particles at all: it is hiragana, and has six characters; or it is an honorific
      with a name of two characters at least, which is cut apart instead. */
  lemma ParticlesWhen(t: string)
    ensures var pieces := SplitHiraganaParticleToken(t);
            if AllHiragana(t) && |t| >= 5 && t[0] == 'お' && t[|t| - 2..] == "さん" then
              pieces == ["お", t[1..|t| - 2], "さん"]
            else if AllHiragana(t) && |t| >= 6 && exists p :: 0 < p < |t| - 1 && IsParticleChar(t[p]) then
              && ParticlePositions(t, |t|) != []
              && pieces == FilterNonEmpty(AllTails(ParticlePieces(t, ParticlePositions(t, |t|))))
            else pieces == [t]
  {
    hide FilterNonEmpty, AllTails, ParticlePieces, ParticlePositions;
    ParticlesFound(t, |t|);
    if ParticlePositions(t, |t|) != [] {
      assert ParticlePositions(t, |t|)[0] in ParticlePositions(t, |t|);
    }
  }

  /** A pass splits every token by itself. */
  lemma {:induction false} SplitByToken(kind: Split, a: Tokens, b: Tokens)
    ensures SplitAll(kind, a + b) == SplitAll(kind, a) + SplitAll(kind, b)
    ensures |b| == 1 ==> SplitAll(kind, b) == SplitToken(kind, b[0])
  {
    hide SplitToken;
    if |b| == 1 {
      SplitOfToken(kind, b[0]);
    }
    if b == [] {
      assert a + b == a && SplitAll(kind, []) == [];
    } else {
      SplitByToken(kind, a, b[..|b| - 1]);
      assert (a + b)[..|a + b| - 1] == a + b[..|b| - 1];
    }
  }

  lemma SplitOfToken(kind: Split, t: string)
    ensures SplitAll(kind, [t]) == SplitToken(kind, t)
  {
    hide SplitToken;
    assert [t][..0] == [];
  }
}
