/** The forced aligner's tokenizers: whatever the language, the tokens spell the cleaned text. */
module AlignerTokens {
  import opened Prelude
  import opened TokenPasses

  /** Which characters are letters, numbers or apostrophes, by their Unicode category. */
  type Kept = char -> bool

  function CleanToken(kept: Kept, t: string): string {
    if t == "" then "" else
      var rest := CleanToken(kept, t[..|t| - 1]);
      if kept(t[|t| - 1]) then rest + [t[|t| - 1]] else rest
  }

  lemma {:induction false} CleanConcat(kept: Kept, a: string, b: string)
    ensures CleanToken(kept, a + b) == CleanToken(kept, a) + CleanToken(kept, b)
  {
    if b == "" {
      assert a + b == a;
    } else {
      CleanConcat(kept, a, b[..|b| - 1]);
      assert (a + b)[..|a + b| - 1] == a + b[..|b| - 1];
    }
  }

  /** A character is kept or left out. With `CleanConcat` this says what cleaning does to any text. */
  lemma CleanOne(kept: Kept, c: char)
    ensures CleanToken(kept, [c]) == if kept(c) then [c] else ""
  {
    assert [c][..0] == "";
  }

  /** Cleaning keeps exactly the characters to be kept, as often as they occur; a text of such characters is its own
      cleaning. */
  lemma {:induction false} CleanKeepsExactly(kept: Kept, t: string)
    ensures forall c :: multiset(CleanToken(kept, t))[c] == if kept(c) then multiset(t)[c] else 0
    ensures (forall i :: 0 <= i < |t| ==> kept(t[i])) ==> CleanToken(kept, t) == t
  {
    hide CleanToken;
    CleanNothing(kept);
    if t != "" {
      var n := |t| - 1;
      CleanKeepsExactly(kept, t[..n]);
      CleanGrows(kept, t[..n], t[n]);
      assert t == t[..n] + [t[n]];
    }
  }

  lemma CleanNothing(kept: Kept)
    ensures CleanToken(kept, "") == ""
  {
  }

  lemma CleanGrows(kept: Kept, t: string, c: char)
    ensures CleanToken(kept, t + [c]) == if kept(c) then CleanToken(kept, t) + [c] else CleanToken(kept, t)
  {
    assert (t + [c])[..|t|] == t;
  }

  /** Clean every token and leave out those with nothing left. */
  function CleanAll(kept: Kept, tokens: Tokens): (out: Tokens) {
    if tokens == [] then [] else
      var rest := CleanAll(kept, tokens[..|tokens| - 1]);
      var cleaned := CleanToken(kept, tokens[|tokens| - 1]);
      if cleaned == "" then rest else rest + [cleaned]
  }

  /** Tokens are cleaned one by one, and left out when nothing is kept of them. */
  lemma {:induction false} CleanAllByToken(kept: Kept, a: Tokens, b: Tokens)
    ensures CleanAll(kept, a + b) == CleanAll(kept, a) + CleanAll(kept, b)
    ensures |b| == 1 ==> CleanAll(kept, b) == if CleanToken(kept, b[0]) == "" then [] else [CleanToken(kept, b[0])]
  {
    hide CleanToken;
    if |b| == 1 {
      CleanAllOfToken(kept, b[0]);
    }
    if b == [] {
      assert a + b == a;
    } else {
      CleanAllByToken(kept, a, b[..|b| - 1]);
      assert (a + b)[..|a + b| - 1] == a + b[..|b| - 1];
    }
  }

  lemma CleanAllOfToken(kept: Kept, t: string)
    ensures CleanAll(kept, [t]) == if CleanToken(kept, t) == "" then [] else [CleanToken(kept, t)]
  {
    hide CleanToken;
    assert [t][..0] == [];
  }

  lemma {:induction false} CleanAllKeeps(kept: Kept, tokens: Tokens)
    ensures Flatten(CleanAll(kept, tokens)) == CleanToken(kept, Flatten(tokens)) && NoEmpty(CleanAll(kept, tokens))
  {
    if tokens != [] {
      var n := |tokens| - 1;
      CleanAllKeeps(kept, tokens[..n]);
      CleanConcat(kept, Flatten(tokens[..n]), tokens[n]);
    }
  }

  // ----- runs of characters of one class

  datatype Class = Of(kind: nat) | Dropped

  type Classify = char -> Class

  /** The maximal runs of characters of one class; dropped characters only separate runs. */
  function Runs(class_: Classify, text: string): (runs: Tokens)
    ensures text != "" && class_(text[|text| - 1]) != Dropped ==> runs != []
  {
    if text == "" then [] else
      var n := |text| - 1;
      var runs := Runs(class_, text[..n]);
      if class_(text[n]) == Dropped then runs
      else if n > 0 && class_(text[n - 1]) == class_(text[n]) then runs[..|runs| - 1] + [runs[|runs| - 1] + [text[n]]]
      else runs + [[text[n]]]
  }

  /** The `k`-th run is where it is said to start: a stretch of one class that goes on to neither side. */
  ghost predicate RunAt(class_: Classify, text: string, run: string, start: nat) {
    && run != "" && start + |run| <= |text|
    && text[start..start + |run|] == run
    && class_(run[0]) != Dropped
    && (forall i :: 0 <= i < |run| ==> class_(run[i]) == class_(run[0]))
    && (start > 0 ==> class_(text[start - 1]) != class_(run[0]))
    && (start + |run| < |text| ==> class_(text[start + |run|]) != class_(run[0]))
  }

  /** Position `p` of the text is in the `k`-th run. */
  ghost predicate InRun(runs: Tokens, starts: seq<nat>, k: nat, p: nat) {
    k < |runs| && k < |starts| && starts[k] <= p < starts[k] + |runs[k]|
  }

  ghost predicate RunsPlaced(class_: Classify, text: string, runs: Tokens, starts: seq<nat>) {
    |starts| == |runs| && forall k :: 0 <= k < |runs| ==> RunAt(class_, text, runs[k], starts[k])
  }

  ghost predicate RunsApart(runs: Tokens, starts: seq<nat>) {
    |starts| == |runs| && forall k, l :: 0 <= k < l < |runs| ==> starts[k] + |runs[k]| <= starts[l]
  }

  ghost predicate Covered(runs: Tokens, starts: seq<nat>, p: nat) {
    exists k: nat :: InRun(runs, starts, k, p)
  }

  ghost predicate RunsCover(class_: Classify, text: string, runs: Tokens, starts: seq<nat>) {
    forall p: nat :: p < |text| && class_(text[p]) != Dropped ==> Covered(runs, starts, p)
  }

  /** The runs are the maximal stretches of one class, from left to right, and leave out dropped characters only. */
  ghost predicate MaximalRuns(class_: Classify, text: string, runs: Tokens, starts: seq<nat>) {
    RunsPlaced(class_, text, runs, starts) && RunsApart(runs, starts) && RunsCover(class_, text, runs, starts)
  }

  lemma {:induction false} RunsAreMaximal(class_: Classify, text: string) returns (starts: seq<nat>)
    ensures MaximalRuns(class_, text, Runs(class_, text), starts)
  {
    hide MaximalRuns;
    if text == "" {
      starts := [];
      NoRuns(class_);
    } else {
      var n := |text| - 1;
      var runs := Runs(class_, text[..n]);
      starts := RunsAreMaximal(class_, text[..n]);
      assert text == text[..n] + [text[n]];
      if class_(text[n]) == Dropped {
        RunsDropped(class_, text[..n], text[n], runs, starts);
      } else if n > 0 && class_(text[n - 1]) == class_(text[n]) {
        RunsLonger(class_, text[..n], text[n], runs, starts);
      } else {
        RunsNew(class_, text[..n], text[n], runs, starts);
        starts := starts + [n];
      }
    }
  }

  lemma NoRuns(class_: Classify)
    ensures MaximalRuns(class_, "", [], [])
  {
  }

  /** A run that does not go on stays a run. */
  lemma RunKept(class_: Classify, text: string, c: char, run: string, start: nat)
    requires RunAt(class_, text, run, start) && (start + |run| == |text| ==> class_(c) != class_(run[0]))
    ensures RunAt(class_, text + [c], run, start)
  {
    assert (text + [c])[start..start + |run|] == text[start..start + |run|];
  }

  lemma RunGrows(class_: Classify, text: string, c: char, run: string, start: nat)
    requires RunAt(class_, text, run, start) && start + |run| == |text| && class_(c) == class_(run[0])
    ensures RunAt(class_, text + [c], run + [c], start)
  {
    assert (text + [c])[start..|text| + 1] == text[start..|text|] + [c];
  }

  lemma RunStarts(class_: Classify, text: string, c: char)
    requires class_(c) != Dropped && (text != "" ==> class_(text[|text| - 1]) != class_(c))
    ensures RunAt(class_, text + [c], [c], |text|)
  {
  }

  lemma RunBounds(class_: Classify, text: string, run: string, start: nat)
    requires RunAt(class_, text, run, start)
    ensures run != "" && start + |run| <= |text| && class_(text[start + |run| - 1]) == class_(run[0])
  {
    assert text[start..start + |run|][|run| - 1] == text[start + |run| - 1];
  }

  lemma RunClass(class_: Classify, text: string, run: string, start: nat)
    requires RunAt(class_, text, run, start)
    ensures run != "" && class_(run[0]) != Dropped
  {
  }

  lemma CoverMore(class_: Classify, text: string, c: char, runs: Tokens, starts: seq<nat>, more: Tokens, at: seq<nat>)
    requires RunsCover(class_, text, runs, starts) && |runs| == |starts| <= |more| == |at|
    requires forall k :: 0 <= k < |runs| ==> at[k] == starts[k] && |more[k]| >= |runs[k]|
    requires class_(c) != Dropped ==> Covered(more, at, |text|)
    ensures RunsCover(class_, text + [c], more, at)
  {
    forall p: nat | p < |text + [c]| && class_((text + [c])[p]) != Dropped
      ensures Covered(more, at, p)
    {
      if p < |text| {
        assert Covered(runs, starts, p);
        var k: nat :| InRun(runs, starts, k, p);
        assert InRun(more, at, k, p);
      }
    }
  }

  lemma RunsDropped(class_: Classify, text: string, c: char, runs: Tokens, starts: seq<nat>)
    requires MaximalRuns(class_, text, runs, starts) && class_(c) == Dropped
    ensures MaximalRuns(class_, text + [c], runs, starts)
  {
    hide RunAt, RunsCover;
    CoverMore(class_, text, c, runs, starts, runs, starts);
    forall k | 0 <= k < |runs|
      ensures RunAt(class_, text + [c], runs[k], starts[k])
    {
      RunClass(class_, text, runs[k], starts[k]);
      RunKept(class_, text, c, runs[k], starts[k]);
    }
  }

  /** The last run is the one that ends with the text. */
  lemma LastRun(class_: Classify, text: string, runs: Tokens, starts: seq<nat>)
    requires MaximalRuns(class_, text, runs, starts) && text != "" && class_(text[|text| - 1]) != Dropped
    ensures runs != [] && starts[|runs| - 1] + |runs[|runs| - 1]| == |text|
    ensures runs[|runs| - 1] != "" && class_(runs[|runs| - 1][0]) == class_(text[|text| - 1])
    ensures forall k :: 0 <= k < |runs| - 1 ==> starts[k] + |runs[k]| < |text|
  {
    hide RunAt;
    assert Covered(runs, starts, |text| - 1);
    var k: nat :| InRun(runs, starts, k, |text| - 1);
    var last := |runs| - 1;
    RunBounds(class_, text, runs[last], starts[last]);
    RunBounds(class_, text, runs[k], starts[k]);
  }

  lemma RunsLonger(class_: Classify, text: string, c: char, runs: Tokens, starts: seq<nat>)
    requires MaximalRuns(class_, text, runs, starts) && text != "" && class_(text[|text| - 1]) == class_(c) != Dropped
    ensures runs != []
    ensures MaximalRuns(class_, text + [c], runs[..|runs| - 1] + [runs[|runs| - 1] + [c]], starts)
  {
    LastRun(class_, text, runs, starts);
    hide RunAt, RunsCover;
    var last := |runs| - 1;
    var longer := runs[..last] + [runs[last] + [c]];
    assert InRun(longer, starts, last, |text|);
    CoverMore(class_, text, c, runs, starts, longer, starts);
    RunGrows(class_, text, c, runs[last], starts[last]);
    forall k | 0 <= k < last
      ensures RunAt(class_, text + [c], longer[k], starts[k])
    {
      RunKept(class_, text, c, runs[k], starts[k]);
    }
  }

  lemma RunsNew(class_: Classify, text: string, c: char, runs: Tokens, starts: seq<nat>)
    requires MaximalRuns(class_, text, runs, starts) && class_(c) != Dropped
    requires text != "" ==> class_(text[|text| - 1]) != class_(c)
    ensures MaximalRuns(class_, text + [c], runs + [[c]], starts + [|text|])
  {
    hide RunAt, RunsCover;
    var (more, at) := (runs + [[c]], starts + [|text|]);
    assert InRun(more, at, |runs|, |text|);
    CoverMore(class_, text, c, runs, starts, more, at);
    RunStarts(class_, text, c);
    forall k | 0 <= k < |runs|
      ensures RunAt(class_, text + [c], more[k], at[k]) && starts[k] + |runs[k]| <= |text|
    {
      RunBounds(class_, text, runs[k], starts[k]);
      RunKept(class_, text, c, runs[k], starts[k]);
    }
  }

  /** Only dropped characters are missing from the runs. */
  lemma {:induction false} RunsSpell(class_: Classify, kept: Kept, text: string)
    requires forall c :: class_(c) == Dropped ==> !kept(c)
    ensures CleanToken(kept, Flatten(Runs(class_, text))) == CleanToken(kept, text)
  {
    if text != "" {
      var n := |text| - 1;
      RunsSpell(class_, kept, text[..n]);
      var runs := Runs(class_, text[..n]);
      assert text == text[..n] + [text[n]];
      CleanConcat(kept, text[..n], [text[n]]);
      if class_(text[n]) == Dropped {
        CleanOne(kept, text[n]);
      } else {
        LongerRun(runs, text[n]);
        CleanConcat(kept, Flatten(runs), [text[n]]);
      }
    }
  }

  lemma LongerRun(runs: Tokens, c: char)
    ensures Flatten(runs + [[c]]) == Flatten(runs) + [c]
    ensures runs != [] ==> Flatten(runs[..|runs| - 1] + [runs[|runs| - 1] + [c]]) == Flatten(runs) + [c]
  {
    FlattenConcat(runs, [[c]]);
    FlattenOne([c]);
    if runs != [] {
      var (head, last) := (runs[..|runs| - 1], runs[|runs| - 1]);
      FlattenConcat(head, [last + [c]]);
      FlattenOne(last + [c]);
    }
  }

  // ----- Japanese without a dictionary

  function JapaneseScriptKind(ch: char): Option<nat> {
    var code := ch as int;
    if IsCjkChar(ch) then Some(0)
    else if 0x3040 <= code <= 0x309F then Some(1)
    else if 0x30A0 <= code <= 0x30FF || 0xFF65 <= code <= 0xFF9F then Some(2)
    else None
  }

  function ScriptClass(kept: Kept): Classify {
    ch => if JapaneseScriptKind(ch).Some? then Of(JapaneseScriptKind(ch).value) else if kept(ch) then Of(3) else Dropped
  }

  /** The tokens and the buffers after a prefix of the text. */
  ghost predicate Buffered(kept: Kept, text: string, tokens: Tokens, latin: string, jp: string, jpKind: Option<nat>) {
    && Runs(ScriptClass(kept), text) == Flushed(tokens, latin, jp)
    && (jp == "" || latin == "")
    && (jp != "" ==> text != "" && jpKind.Some? && JapaneseScriptKind(text[|text| - 1]) == jpKind)
    && (latin != "" ==> text != "" && ScriptClass(kept)(text[|text| - 1]) == Of(3))
    && (jp == "" && latin == "" ==> text == "" || ScriptClass(kept)(text[|text| - 1]) == Dropped)
  }

  method TokenizeJapaneseFallback(kept: Kept, text: string) returns (out: Tokens)
    ensures out == CleanAll(kept, Runs(ScriptClass(kept), text))
  {
    hide Runs, CleanAll, Buffered;
    var tokens: Tokens := [];
    var latinBuf, jpBuf := "", "";
    var jpKind: Option<nat> := None;
    NothingBuffered(kept);
    for i := 0 to |text|
      invariant Buffered(kept, text[..i], tokens, latinBuf, jpBuf, jpKind)
    {
      var ch := text[i];
      OneMoreChar(kept, text[..i], ch, tokens, latinBuf, jpBuf, jpKind);
      assert text[..i + 1] == text[..i] + [ch] && "" + [ch] == [ch];
      var kind := JapaneseScriptKind(ch);
      if kind.Some? {
        if latinBuf != "" {
          tokens, latinBuf := tokens + [latinBuf], "";
        }
        if jpKind != kind && jpBuf != "" {
          tokens, jpBuf := tokens + [jpBuf], "";
        }
        jpKind := kind;
        jpBuf := jpBuf + [ch];
      } else {
        if jpBuf != "" {
          tokens, jpBuf, jpKind := tokens + [jpBuf], "", None;
        }
        if kept(ch) {
          latinBuf := latinBuf + [ch];
        } else if latinBuf != "" {
          tokens, latinBuf := tokens + [latinBuf], "";
        }
      }
    }
    assert text[..|text|] == text;
    AllBuffered(kept, text, tokens, latinBuf, jpBuf, jpKind);
    if jpBuf != "" {
      tokens := tokens + [jpBuf];
    }
    if latinBuf != "" {
      tokens := tokens + [latinBuf];
    }
    out := CleanAll(kept, tokens);
  }

  /** The tokens once the buffers are flushed. */
  function Flushed(tokens: Tokens, latin: string, jp: string): Tokens {
    if jp != "" then tokens + [jp] else if latin != "" then tokens + [latin] else tokens
  }

  lemma AllBuffered(kept: Kept, text: string, tokens: Tokens, latin: string, jp: string, jpKind: Option<nat>)
    requires Buffered(kept, text, tokens, latin, jp, jpKind)
    ensures Runs(ScriptClass(kept), text) == Flushed(tokens, latin, jp) && (jp == "" || latin == "")
  {
  }

  lemma NothingBuffered(kept: Kept)
    ensures Buffered(kept, "", [], "", "", None)
  {
  }

  /** What one more character does to the tokens and the buffers. */
  lemma OneMoreChar(kept: Kept, text: string, ch: char, tokens: Tokens, latin: string, jp: string, jpKind: Option<nat>)
    requires Buffered(kept, text, tokens, latin, jp, jpKind)
    ensures jp == "" || latin == ""
    ensures var (runs, kind) := (Flushed(tokens, latin, jp), JapaneseScriptKind(ch));
            && (kind.Some? && jp != "" && jpKind == kind ==> Buffered(kept, text + [ch], tokens, "", jp + [ch], kind))
            && (kind.Some? && !(jp != "" && jpKind == kind) ==> Buffered(kept, text + [ch], runs, "", [ch], kind))
            && (kind.None? && kept(ch) && latin != "" ==> Buffered(kept, text + [ch], tokens, latin + [ch], "", jpKind))
            && (kind.None? && kept(ch) && latin == "" ==> forall k :: Buffered(kept, text + [ch], runs, [ch], "", k))
            && (kind.None? && !kept(ch) ==> forall k :: Buffered(kept, text + [ch], runs, "", "", k))
  {
    assert (text + [ch])[..|text|] == text;
  }

  /** The fallback's tokens spell the cleaned text. */
  lemma FallbackSpells(kept: Kept, text: string)
    ensures Flatten(CleanAll(kept, Runs(ScriptClass(kept), text))) == CleanToken(kept, text)
    ensures NoEmpty(CleanAll(kept, Runs(ScriptClass(kept), text)))
  {
    CleanAllKeeps(kept, Runs(ScriptClass(kept), text));
    RunsSpell(ScriptClass(kept), kept, text);
  }

  /** All characters of a token are written in one script. */
  ghost predicate OneScript(token: string) {
    && ((exists c :: c in token && IsCjkChar(c)) ==> forall c :: c in token ==> IsCjkChar(c))
    && ((exists c :: c in token && IsHiraganaChar(c)) ==> forall c :: c in token ==> IsHiraganaChar(c))
    && ((exists c :: c in token && IsFullwidthKatakanaChar(c)) ==>
          forall c :: c in token ==> !IsCjkChar(c) && !IsHiraganaChar(c))
  }

  /** Whatever is kept of a text, no token mixes kanji, hiragana and other scripts. */
  lemma FallbackSplitsScripts(kept: Kept, text: string)
    ensures forall t :: t in CleanAll(kept, Runs(ScriptClass(kept), text)) ==> OneScript(t)
  {
    hide OneScript, MaximalRuns, RunAt, CleanAll, CleanToken;
    var runs := Runs(ScriptClass(kept), text);
    var starts := RunsAreMaximal(ScriptClass(kept), text);
    forall t | t in CleanAll(kept, runs)
      ensures OneScript(t)
    {
      var k := CleanAllMember(kept, runs, t);
      CleanKeepsExactly(kept, runs[k]);
      CleanMembers(kept, runs[k]);
      RunOneScript(kept, text, runs, starts, k);
      FewerOneScript(runs[k], CleanToken(kept, runs[k]));
    }
  }

  lemma {:induction false} CleanAllMember(kept: Kept, tokens: Tokens, t: string) returns (k: nat)
    requires t in CleanAll(kept, tokens)
    ensures k < |tokens| && t == CleanToken(kept, tokens[k])
  {
    hide CleanToken;
    k := |tokens| - 1;
    if t != CleanToken(kept, tokens[k]) {
      k := CleanAllMember(kept, tokens[..k], t);
    }
  }

  lemma CleanMembers(kept: Kept, t: string)
    requires forall c :: multiset(CleanToken(kept, t))[c] == if kept(c) then multiset(t)[c] else 0
    ensures forall c :: c in CleanToken(kept, t) ==> c in t
  {
    hide CleanToken;
    forall c | c in CleanToken(kept, t)
      ensures c in t
    {
      assert c in multiset(CleanToken(kept, t));
    }
  }

  lemma FewerOneScript(token: string, part: string)
    requires OneScript(token) && forall c :: c in part ==> c in token
    ensures OneScript(part)
  {
  }

  lemma RunOneScript(kept: Kept, text: string, runs: Tokens, starts: seq<nat>, k: nat)
    requires MaximalRuns(ScriptClass(kept), text, runs, starts) && k < |runs|
    ensures OneScript(runs[k])
  {
    var run := runs[k];
    assert RunAt(ScriptClass(kept), text, run, starts[k]);
  }

  // ----- Japanese

  /** The passes in their order, from the first tokens to the last. */
  ghost predicate Repaired(base: Tokens, bridged: Tokens, prefixed: Tokens, kanji: Tokens, terms: set<string>,
                           out: Tokens)
  {
    && Rejoined(Bridge, base, bridged)
    && Rejoined(Prefix, SplitAll(Particles, bridged), prefixed)
    && Rejoined(Kanji, SplitAll(Katakana, SplitAll(Digits, prefixed)), kanji)
    && Rejoined(Terms(terms), kanji, out)
  }

  lemma RepairKeeps(base: Tokens, bridged: Tokens, prefixed: Tokens, kanji: Tokens, terms: set<string>, out: Tokens)
    requires Repaired(base, bridged, prefixed, kanji, terms, out)
    ensures Flatten(out) == Flatten(base) && (NoEmpty(base) ==> NoEmpty(out))
  {
    hide Rejoined, Flatten, NoEmpty, SplitAll;
    RejoinKeeps(Bridge, base, bridged);
    SplitKeeps(Particles, bridged);
    RejoinKeeps(Prefix, SplitAll(Particles, bridged), prefixed);
    SplitKeeps(Digits, prefixed);
    SplitKeeps(Katakana, SplitAll(Digits, prefixed));
    RejoinKeeps(Kanji, SplitAll(Katakana, SplitAll(Digits, prefixed)), kanji);
    RejoinKeeps(Terms(terms), kanji, out);
  }

  /** The tokens the passes start from: the analyser's, cleaned, or the fallback's if it has none. */
  function BaseTokens(kept: Kept, text: string, surfaces: Outcome<Tokens>): Tokens {
    if surfaces.Ok? && CleanAll(kept, surfaces.value) != [] then CleanAll(kept, surfaces.value)
    else CleanAll(kept, Runs(ScriptClass(kept), text))
  }

  /** `text` is in normal form; `surfaces` are the morphological analyser's tokens of it. */
  method TokenizeJapanese(kept: Kept, text: string, surfaces: Outcome<Tokens>, terms: set<string>, maxChars: nat)
    returns (out: Tokens, ghost bridged: Tokens, ghost prefixed: Tokens, ghost kanji: Tokens)
    requires TermsFit(terms, maxChars)
    ensures Repaired(BaseTokens(kept, text, surfaces), bridged, prefixed, kanji, terms, out)
    ensures (surfaces.Ok? ==> Flatten(surfaces.value) == text) ==> Flatten(out) == CleanToken(kept, text)
    ensures NoEmpty(out)
  {
    hide SplitAll, CleanAll, Runs, Rejoined;
    var tokens: Tokens;
    if surfaces.Ok? && CleanAll(kept, surfaces.value) != [] {
      tokens := CleanAll(kept, surfaces.value);
    } else {
      tokens := TokenizeJapaneseFallback(kept, text);
    }
    ghost var base := tokens;
    BaseSpells(kept, text, surfaces);
    tokens := RepairPairs(Bridge, tokens);
    bridged := tokens;
    tokens := SplitTokens(Particles, tokens);
    tokens := RepairPairs(Prefix, tokens);
    prefixed := tokens;
    tokens := SplitTokens(Digits, tokens);
    tokens := SplitTokens(Katakana, tokens);
    tokens := MergeKanji(tokens);
    kanji := tokens;
    out := MergeTerms(tokens, terms, maxChars);
    RepairKeeps(base, bridged, prefixed, kanji, terms, out);
  }

  lemma BaseSpells(kept: Kept, text: string, surfaces: Outcome<Tokens>)
    ensures NoEmpty(BaseTokens(kept, text, surfaces))
    ensures (surfaces.Ok? ==> Flatten(surfaces.value) == text) ==>
              Flatten(BaseTokens(kept, text, surfaces)) == CleanToken(kept, text)
  {
    hide CleanAll, Runs, Flatten, CleanToken;
    FallbackSpells(kept, text);
    if surfaces.Ok? {
      CleanAllKeeps(kept, surfaces.value);
    }
  }

  // ----- Korean

  /** Whitespace separates words. */
  function WordClass(space: char -> bool): Classify {
    ch => if space(ch) then Dropped else Of(0)
  }

  function Words(space: char -> bool, text: string): Tokens { Runs(WordClass(space), text) }

  /** The length of the left part: the longest dictionary word of at least two characters the token starts with,
      or the whole token. */
  ghost predicate LeftPart(dict: set<string>, maxLen: nat, t: string, e: nat) {
    if |t| <= 2 then e == |t|
    else
      || (2 <= e <= Min(|t|, maxLen) && t[..e] in dict && forall d :: e < d <= Min(|t|, maxLen) ==> t[..d] !in dict)
      || (e == |t| && forall d :: 2 <= d <= Min(|t|, maxLen) ==> t[..d] !in dict)
  }

  method SplitKoreanToken(dict: set<string>, maxLen: nat, t: string) returns (left: string, right: string)
    ensures t == left + right && LeftPart(dict, maxLen, t, |left|)
  {
    var len := |t|;
    if len <= 2 {
      return t, "";
    }
    var best: Option<nat> := None;
    var searchMax := Min(len, maxLen);
    var e := 2;
    while e <= searchMax
      invariant 2 <= e && (e <= searchMax + 1 || best == None)
      invariant match best
                case None => forall d :: 2 <= d < e && d <= searchMax ==> t[..d] !in dict
                case Some(b) => 2 <= b < e && b <= searchMax && t[..b] in dict && forall d :: b < d < e ==>
                  t[..d] !in dict
    {
      if t[..e] in dict {
        best := Some(e);
      }
      e := e + 1;
    }
    var split := if best.Some? then best.value else len;
    left, right := t[..split], t[split..];
  }

  /** The tokens of the first words: each word's two parts, cleaned. */
  ghost predicate KoreanTokens(kept: Kept, dict: set<string>, maxLen: nat, words: Tokens, parts: Tokens, out: Tokens) {
    && |parts| == 2 * |words|
    && (forall k :: 0 <= k < |words| ==>
        words[k] == parts[2 * k] + parts[2 * k + 1] && LeftPart(dict, maxLen, words[k], |parts[2 * k]|))
    && out == CleanAll(kept, parts)
  }

  ghost predicate KoreanTokenized(kept: Kept, dict: set<string>, maxLen: nat, words: Tokens, out: Tokens) {
    exists parts :: KoreanTokens(kept, dict, maxLen, words, parts, out)
  }

  method TokenizeKorean(kept: Kept, space: char -> bool, dict: set<string>, maxLen: nat, text: string)
    returns (out: Tokens)
    ensures KoreanTokenized(kept, dict, maxLen, Words(space, text), out)
  {
    hide LeftPart, CleanToken, Words, CleanAll;
    NoneCleaned(kept);
    var words := Words(space, text);
    out := [];
    ghost var parts: Tokens := [];
    for k := 0 to |words|
      invariant KoreanTokens(kept, dict, maxLen, words[..k], parts, out)
    {
      var left, right := SplitKoreanToken(dict, maxLen, words[k]);
      var leftClean := CleanToken(kept, left);
      if leftClean != "" {
        out := out + [leftClean];
      }
      if right != "" {
        var rightClean := CleanToken(kept, right);
        if rightClean != "" {
          out := out + [rightClean];
        }
      }
      TwoCleaned(kept, parts, left, right);
      assert words[..k + 1] == words[..k] + [words[k]];
      parts := parts + [left, right];
    }
    assert words[..|words|] == words;
  }

  lemma NoneCleaned(kept: Kept)
    ensures CleanAll(kept, []) == []
  {
  }

  lemma TwoCleaned(kept: Kept, parts: Tokens, left: string, right: string)
    ensures var (l, r) := (CleanToken(kept, left), CleanToken(kept, right));
            CleanAll(kept, parts + [left, right]) ==
              CleanAll(kept, parts) + (if l == "" then [] else [l]) + (if r == "" then [] else [r])
    ensures CleanToken(kept, "") == ""
  {
    var more := parts + [left];
    assert parts + [left, right] == more + [right] && (more + [right])[..|more|] == more && more[..|parts|] == parts;
  }

  lemma {:induction false} PartsJoin(words: Tokens, parts: Tokens)
    requires |parts| == 2 * |words| && forall k :: 0 <= k < |words| ==> words[k] == parts[2 * k] + parts[2 * k + 1]
    ensures Flatten(parts) == Flatten(words)
  {
    if words != [] {
      var n := |words| - 1;
      PartsJoin(words[..n], parts[..2 * n]);
      assert parts == parts[..2 * n] + [parts[2 * n], parts[2 * n + 1]];
      FlattenConcat(parts[..2 * n], [parts[2 * n], parts[2 * n + 1]]);
      FlattenTwo(parts[2 * n], parts[2 * n + 1]);
    }
  }

  /** The Korean tokens spell the cleaned text, as whitespace is never kept. */
  lemma KoreanSpells(kept: Kept, space: char -> bool, dict: set<string>, maxLen: nat, text: string, out: Tokens)
    requires KoreanTokenized(kept, dict, maxLen, Words(space, text), out) && forall c :: space(c) ==> !kept(c)
    ensures Flatten(out) == CleanToken(kept, text) && NoEmpty(out)
  {
    hide LeftPart, Runs, CleanAll, CleanToken, Flatten;
    var parts :| KoreanTokens(kept, dict, maxLen, Words(space, text), parts, out);
    PartsJoin(Words(space, text), parts);
    CleanAllKeeps(kept, parts);
    RunsSpell(WordClass(space), kept, text);
  }

  // ----- languages written with spaces

  /** Each CJK character by itself, and the stretches between. */
  function CjkPieces(seg: string): (pieces: Tokens)
    ensures seg != "" ==> pieces != []
  {
    if seg == "" then [] else
      var n := |seg| - 1;
      var pieces := CjkPieces(seg[..n]);
      if IsCjkChar(seg[n]) || n == 0 || IsCjkChar(seg[n - 1]) then pieces + [[seg[n]]]
      else pieces[..|pieces| - 1] + [pieces[|pieces| - 1] + [seg[n]]]
  }

  method SplitSegmentWithChinese(seg: string) returns (tokens: Tokens)
    ensures tokens == CjkPieces(seg)
  {
    hide CjkPieces;
    NoPieces();
    tokens := [];
    var buf := "";
    for i := 0 to |seg|
      invariant CjkPieces(seg[..i]) == Flushed(tokens, buf, "")
      invariant buf == "" <==> i == 0 || IsCjkChar(seg[i - 1])
    {
      OneMorePiece(seg, i);
      assert "" + [seg[i]] == [seg[i]];
      if IsCjkChar(seg[i]) {
        if buf != "" {
          tokens, buf := tokens + [buf], "";
        }
        tokens := tokens + [[seg[i]]];
      } else {
        buf := buf + [seg[i]];
      }
    }
    assert seg[..|seg|] == seg;
    if buf != "" {
      tokens := tokens + [buf];
    }
  }

  lemma NoPieces()
    ensures CjkPieces("") == [] && Flatten(CjkPieces("")) == ""
  {
  }

  lemma OneMorePiece(seg: string, i: nat)
    requires i < |seg|
    ensures CjkPieces(seg[..i]) == [] ==> i == 0
    ensures CjkPieces(seg[..i + 1]) == if IsCjkChar(seg[i]) || i == 0 ||
              IsCjkChar(seg[i - 1]) then CjkPieces(seg[..i]) + [[seg[i]]]
                                       else Longer(CjkPieces(seg[..i]), seg[i])
  {
    assert seg[..i + 1][..i] == seg[..i];
  }

  /** The last piece grows by a character. */
  function Longer(pieces: Tokens, c: char): Tokens {
    if pieces == [] then [[c]] else pieces[..|pieces| - 1] + [pieces[|pieces| - 1] + [c]]
  }

  lemma LongerNoEmpty(pieces: Tokens, c: char)
    requires NoEmpty(pieces)
    ensures NoEmpty(Longer(pieces, c)) && NoEmpty(pieces + [[c]])
  {
    if pieces != [] {
      forall t | t in Longer(pieces, c)
        ensures t != ""
      {
        if t in pieces[..|pieces| - 1] {
          assert t in pieces;
        } else {
          assert t == pieces[|pieces| - 1] + [c];
        }
      }
    }
  }

  lemma {:induction false} PiecesSpell(seg: string, i: nat)
    requires i <= |seg|
    ensures Flatten(CjkPieces(seg[..i])) == seg[..i] && NoEmpty(CjkPieces(seg[..i]))
  {
    hide CjkPieces, Flatten;
    NoPieces();
    if i > 0 {
      PiecesSpell(seg, i - 1);
      OneMorePiece(seg, i - 1);
      LongerRun(CjkPieces(seg[..i - 1]), seg[i - 1]);
      LongerNoEmpty(CjkPieces(seg[..i - 1]), seg[i - 1]);
      assert seg[..i] == seg[..i - 1] + [seg[i - 1]];
    } else {
      assert seg[..0] == "";
    }
  }

  predicate NoCjk(t: string) {
    forall i :: 0 <= i < |t| ==> !IsCjkChar(t[i])
  }

  /** A CJK character by itself, or a stretch without any. */
  predicate PieceOk(t: string) {
    t != "" && (NoCjk(t) || |t| == 1)
  }

  /** The pieces of a text: CJK characters stand alone, and a stretch without any is not cut. With `PiecesSpell` this
      determines them. */
  lemma {:induction false} PiecesApart(seg: string, i: nat)
    requires i <= |seg|
    ensures var pieces := CjkPieces(seg[..i]);
            && (forall k :: 0 <= k < |pieces| ==> PieceOk(pieces[k]))
            && (forall k :: 0 < k < |pieces| ==> !NoCjk(pieces[k - 1]) || !NoCjk(pieces[k]))
            && (i > 0 ==> pieces != [] && (NoCjk(pieces[|pieces| - 1]) <==> !IsCjkChar(seg[i - 1])))
  {
    hide CjkPieces;
    NoPieces();
    if i == 0 {
      assert seg[..0] == "";
    } else {
      PiecesApart(seg, i - 1);
      OneMorePiece(seg, i - 1);
      var (pieces, c) := (CjkPieces(seg[..i - 1]), seg[i - 1]);
      assert NoCjk([c]) <==> !IsCjkChar([c][0]);
      if !IsCjkChar(c) && i > 1 && !IsCjkChar(seg[i - 2]) {
        var last := |pieces| - 1;
        var longer := pieces[last] + [c];
        assert NoCjk(longer);
        assert CjkPieces(seg[..i]) == pieces[..last] + [longer];
      } else {
        assert CjkPieces(seg[..i]) == pieces + [[c]];
      }
    }
  }

  function SpaceTokens(kept: Kept, words: Tokens): Tokens {
    if words == [] then [] else
      SpaceTokens(kept, words[..|words| - 1]) + CjkPieces(CleanToken(kept, words[|words| - 1]))
  }

  method TokenizeSpaceLang(kept: Kept, space: char -> bool, text: string) returns (out: Tokens)
    ensures out == SpaceTokens(kept, Words(space, text))
  {
    var words := Words(space, text);
    out := [];
    for k := 0 to |words|
      invariant out == SpaceTokens(kept, words[..k])
    {
      assert words[..k + 1][..k] == words[..k];
      var cleaned := CleanToken(kept, words[k]);
      if cleaned != "" {
        var pieces := SplitSegmentWithChinese(cleaned);
        out := out + pieces;
      }
    }
    assert words[..|words|] == words;
  }

  /** Words are tokenized one by one. */
  lemma {:induction false} SpaceTokensByWord(kept: Kept, a: Tokens, b: Tokens)
    ensures SpaceTokens(kept, a + b) == SpaceTokens(kept, a) + SpaceTokens(kept, b)
    ensures |b| == 1 ==> SpaceTokens(kept, b) == CjkPieces(CleanToken(kept, b[0]))
  {
    hide CjkPieces, CleanToken;
    if |b| == 1 {
      SpaceTokensOfWord(kept, b[0]);
    }
    if b == [] {
      assert a + b == a && SpaceTokens(kept, []) == [];
    } else {
      SpaceTokensByWord(kept, a, b[..|b| - 1]);
      assert (a + b)[..|a + b| - 1] == a + b[..|b| - 1];
    }
  }

  lemma SpaceTokensOfWord(kept: Kept, w: string)
    ensures SpaceTokens(kept, [w]) == CjkPieces(CleanToken(kept, w))
  {
    hide CjkPieces, CleanToken;
    assert [w][..0] == [];
  }

  lemma {:induction false} SpaceTokensSpell(kept: Kept, words: Tokens)
    ensures Flatten(SpaceTokens(kept, words)) == CleanToken(kept, Flatten(words)) && NoEmpty(SpaceTokens(kept, words))
  {
    if words != [] {
      var n := |words| - 1;
      SpaceTokensSpell(kept, words[..n]);
      var cleaned := CleanToken(kept, words[n]);
      PiecesSpell(cleaned, |cleaned|);
      assert cleaned[..|cleaned|] == cleaned;
      FlattenConcat(SpaceTokens(kept, words[..n]), CjkPieces(CleanToken(kept, words[n])));
      CleanConcat(kept, Flatten(words[..n]), words[n]);
    }
  }

  /** The tokens of any other language spell the cleaned text. */
  lemma SpaceSpells(kept: Kept, space: char -> bool, text: string)
    requires forall c :: space(c) ==> !kept(c)
    ensures Flatten(SpaceTokens(kept, Words(space, text))) == CleanToken(kept, text)
    ensures NoEmpty(SpaceTokens(kept, Words(space, text)))
  {
    hide Runs, SpaceTokens, CleanToken, Flatten;
    SpaceTokensSpell(kept, Words(space, text));
    RunsSpell(WordClass(space), kept, text);
  }
}
