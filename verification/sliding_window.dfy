/** The packing loop of `SlidingWindowChunker.chunk_text`: sentences are
    accumulated greedily into token-bounded groups; when a sentence would
    overflow a non-empty group, the group is emitted and the next one is
    seeded with an overlap decoded from the tail of the emitted text.

    The loop is modelled as a left fold (`Step`, `Run`) whose result is the
    list of emitted sentence groups; the chunk records built from the groups
    are in module TextChunks. */
module SlidingWindow {
  import opened TextUtil
  import opened Tokens
  import opened SentenceSplitter

  /** `chunk_size` and `overlap_size`; the model name only picks the
      tokenizer, which is a parameter here. */
  datatype Config = Config(chunkSize: int, overlapSize: int)

  const DefaultConfig: Config := Config(512, 50)

  /** The starting state `_create_overlap_chunk` hands to the next group:
      its sentences and the token count the loop continues from. */
  datatype Seed = Seed(sentences: seq<string>, tokens: int)

  /** `_create_overlap_chunk`: with overlap disabled the next group starts
      empty; otherwise it starts with the sentences of the text decoded from
      the last `min(overlap_size, n)` of the `n` tokens of the emitted text,
      and its count is that decoded text's token count. */
  function OverlapSeed(cfg: Config, tk: Tokenizer, chunkText: string): (r: Seed)
    ensures cfg.overlapSize <= 0 ==> r == Seed([], 0)
    ensures cfg.overlapSize > 0 ==>
      var tail := LastTokens(tk.encode(chunkText), cfg.overlapSize);
      && r.sentences == Sentences(tk.decode(tail))
      && r.tokens == Count(tk, tk.decode(tail))
    ensures forall i :: 0 <= i < |r.sentences| ==> IsTrimmed(r.sentences[i])
  {
    if cfg.overlapSize <= 0 then Seed([], 0)
    else
      var text := tk.decode(LastTokens(tk.encode(chunkText), cfg.overlapSize));
      Seed(Sentences(text), Count(tk, text))
  }

  /** The overlap tokens: the last `n` when there are more than `n`, else
      all of them. */
  function LastTokens(toks: seq<int>, n: int): (tail: seq<int>)
    requires n > 0
    ensures |tail| == Min(n, |toks|)
    ensures tail == toks[|toks| - |tail|..]
  {
    if |toks| > n then toks[|toks| - n..] else toks
  }

  /** The seed sentences that follow an emitted group. */
  function SeedOf(cfg: Config, tk: Tokenizer, group: seq<string>): seq<string> {
    OverlapSeed(cfg, tk, Join(" ", group)).sentences
  }

  /** Loop state: the groups emitted so far, the accumulated sentences
      (`current_chunk`) and the running count (`current_tokens`). */
  datatype Pack = Pack(emitted: seq<seq<string>>, current: seq<string>, tokens: int)

  const Start: Pack := Pack([], [], 0)

  /** One iteration of the `for sentence in sentences` loop. */
  function Step(cfg: Config, tk: Tokenizer, st: Pack, sentence: string): Pack {
    var c := Count(tk, sentence);
    if st.tokens + c > cfg.chunkSize && |st.current| > 0 then
      var seed := OverlapSeed(cfg, tk, Join(" ", st.current));
      Pack(st.emitted + [st.current], seed.sentences + [sentence], seed.tokens + c)
    else
      Pack(st.emitted, st.current + [sentence], st.tokens + c)
  }

  /** The loop over the remaining sentences. */
  function Run(cfg: Config, tk: Tokenizer, st: Pack, ss: seq<string>): Pack
    decreases |ss|
  {
    if |ss| == 0 then st else Run(cfg, tk, Step(cfg, tk, st, ss[0]), ss[1..])
  }

  /** The groups of all emitted chunks: those flushed inside the loop, then
      the final non-empty accumulator. */
  function Groups(cfg: Config, tk: Tokenizer, ss: seq<string>): seq<seq<string>> {
    var end := Run(cfg, tk, Start, ss);
    if |end.current| > 0 then end.emitted + [end.current] else end.emitted
  }

  // ---------------------------------------------------------------------
  // Every group is non-empty, and a non-empty input yields a group.

  ghost predicate NonEmptyInv(st: Pack, done: seq<string>) {
    && (forall i :: 0 <= i < |st.emitted| ==> |st.emitted[i]| > 0)
    && (|done| > 0 ==> |st.current| > 0)
    && (|done| == 0 ==> st.emitted == [])
  }

  lemma {:induction false} RunNonEmpty(cfg: Config, tk: Tokenizer, st: Pack, done: seq<string>, ss: seq<string>)
    requires NonEmptyInv(st, done)
    ensures NonEmptyInv(Run(cfg, tk, st, ss), done + ss)
    decreases |ss|
  {
    if |ss| == 0 {
      assert done + ss == done;
    } else {
      var st' := Step(cfg, tk, st, ss[0]);
      StepNonEmpty(cfg, tk, st, done, ss[0]);
      RunNonEmpty(cfg, tk, st', done + [ss[0]], ss[1..]);
      assert Run(cfg, tk, st, ss) == Run(cfg, tk, st', ss[1..]);
      SnocThenRest(done, ss);
    }
  }

  lemma SnocThenRest<T>(done: seq<T>, ss: seq<T>)
    requires |ss| > 0
    ensures done + [ss[0]] + ss[1..] == done + ss
  {
    assert ss == [ss[0]] + ss[1..];
  }

  lemma StepNonEmpty(cfg: Config, tk: Tokenizer, st: Pack, done: seq<string>, s: string)
    requires NonEmptyInv(st, done)
    ensures NonEmptyInv(Step(cfg, tk, st, s), done + [s])
  {
    var st' := Step(cfg, tk, st, s);
    assert |st'.current| > 0;
    if |st'.emitted| > |st.emitted| {
      assert st'.emitted == st.emitted + [st.current];
      assert forall i :: 0 <= i < |st.emitted| ==> st'.emitted[i] == st.emitted[i];
    }
  }

  /** A flush happens only when the accumulator is non-empty, so every
      emitted group holds at least one sentence, and at least one group is
      emitted when there is at least one sentence. */
  lemma GroupsNonEmpty(cfg: Config, tk: Tokenizer, ss: seq<string>)
    ensures forall i :: 0 <= i < |Groups(cfg, tk, ss)| ==> |Groups(cfg, tk, ss)[i]| > 0
    ensures |ss| > 0 <==> |Groups(cfg, tk, ss)| > 0
  {
    RunNonEmpty(cfg, tk, Start, [], ss);
    assert [] + ss == ss;
  }

  predicate AllTrimmed(ss: seq<string>) {
    forall i :: 0 <= i < |ss| ==> IsTrimmed(ss[i])
  }

  ghost predicate TrimInv(st: Pack) {
    && (forall i :: 0 <= i < |st.emitted| ==> AllTrimmed(st.emitted[i]))
    && AllTrimmed(st.current)
  }

  lemma {:induction false} RunTrimmed(cfg: Config, tk: Tokenizer, st: Pack, ss: seq<string>)
    requires TrimInv(st) && AllTrimmed(ss)
    ensures TrimInv(Run(cfg, tk, st, ss))
    decreases |ss|
  {
    if |ss| > 0 {
      var st' := Step(cfg, tk, st, ss[0]);
      StepTrimmed(cfg, tk, st, ss[0]);
      RunTrimmed(cfg, tk, st', ss[1..]);
      assert Run(cfg, tk, st, ss) == Run(cfg, tk, st', ss[1..]);
    }
  }

  lemma StepTrimmed(cfg: Config, tk: Tokenizer, st: Pack, s: string)
    requires TrimInv(st) && IsTrimmed(s)
    ensures TrimInv(Step(cfg, tk, st, s))
  {
    var st' := Step(cfg, tk, st, s);
    if |st'.emitted| > |st.emitted| {
      assert st'.emitted == st.emitted + [st.current];
      assert forall i :: 0 <= i < |st.emitted| ==> st'.emitted[i] == st.emitted[i];
    }
  }

  /** Both the input sentences and the overlap sentences are stripped, so
      every sentence of every group is. */
  lemma GroupsTrimmed(cfg: Config, tk: Tokenizer, ss: seq<string>)
    requires AllTrimmed(ss)
    ensures forall i :: 0 <= i < |Groups(cfg, tk, ss)| ==> AllTrimmed(Groups(cfg, tk, ss)[i])
  {
    RunTrimmed(cfg, tk, Start, ss);
  }

  // ---------------------------------------------------------------------
  // Overlap: each group starts with the seed of the group before it, and
  // dropping the seeds gives back the input sentences.

  /** The seed function of a configuration, as a value. */
  function SeedFn(cfg: Config, tk: Tokenizer): seq<string> -> seq<string> {
    g => SeedOf(cfg, tk, g)
  }

  /** Group `i + 1` begins with the seed taken from group `i`. */
  ghost predicate SeedChained(seed: seq<string> -> seq<string>, gs: seq<seq<string>>) {
    forall i :: 0 <= i < |gs| - 1 ==> seed(gs[i]) <= gs[i + 1]
  }

  /** The sentences a group adds beyond its seed. */
  function Fresh(seed: seq<string> -> seq<string>, gs: seq<seq<string>>, i: nat): seq<string>
    requires SeedChained(seed, gs)
    requires i < |gs|
  {
    if i == 0 then gs[0] else gs[i][|seed(gs[i - 1])|..]
  }

  /** All groups with the known overlap removed, concatenated. */
  function Dedup(seed: seq<string> -> seq<string>, gs: seq<seq<string>>): seq<string>
    requires SeedChained(seed, gs)
    decreases |gs|
  {
    if |gs| == 0 then []
    else
      var init := gs[..|gs| - 1];
      assert forall i :: 0 <= i < |init| ==> init[i] == gs[i];
      Dedup(seed, init) + Fresh(seed, gs, |gs| - 1)
  }

  ghost predicate ChainInv(cfg: Config, tk: Tokenizer, st: Pack, done: seq<string>) {
    if |done| == 0 then st.emitted == [] && st.current == []
    else
      && |st.current| > 0
      && SeedChained(SeedFn(cfg, tk), st.emitted + [st.current])
      && Dedup(SeedFn(cfg, tk), st.emitted + [st.current]) == done
  }

  lemma DedupInit(seed: seq<string> -> seq<string>, gs: seq<seq<string>>, g: seq<string>)
    requires SeedChained(seed, gs + [g])
    ensures SeedChained(seed, gs)
    ensures |gs| > 0 ==> seed(gs[|gs| - 1]) <= g
    ensures Dedup(seed, gs + [g]) ==
      Dedup(seed, gs) + (if |gs| == 0 then g else g[|seed(gs[|gs| - 1])|..])
  {
    ChainedInit(seed, gs, g);
    var all := gs + [g];
    assert all[..|all| - 1] == gs;
    assert all[|all| - 1] == g;
    if |gs| > 0 {
      assert all[|all| - 2] == gs[|gs| - 1];
    }
  }

  lemma ChainedInit(seed: seq<string> -> seq<string>, gs: seq<seq<string>>, g: seq<string>)
    requires SeedChained(seed, gs + [g])
    ensures SeedChained(seed, gs)
    ensures |gs| > 0 ==> seed(gs[|gs| - 1]) <= g
  {
    var all := gs + [g];
    forall i | 0 <= i < |gs| - 1 ensures seed(gs[i]) <= gs[i + 1] {
      assert all[i] == gs[i] && all[i + 1] == gs[i + 1];
    }
    if |gs| > 0 {
      assert all[|gs| - 1] == gs[|gs| - 1] && all[|gs|] == g;
      assert seed(all[|gs| - 1]) <= all[|gs|];
    }
  }

  /** Extending the last group by one sentence extends the de-duplicated
      sequence by that sentence. */
  lemma ChainExtend(seed: seq<string> -> seq<string>, em: seq<seq<string>>, cur: seq<string>, s: string)
    requires SeedChained(seed, em + [cur])
    ensures SeedChained(seed, em + [cur + [s]])
    ensures Dedup(seed, em + [cur + [s]]) == Dedup(seed, em + [cur]) + [s]
  {
    DedupInit(seed, em, cur);
    var all := em + [cur + [s]];
    forall i | 0 <= i < |all| - 1 ensures seed(all[i]) <= all[i + 1] {
      assert all[i] == em[i];
      if i < |em| - 1 {
        assert all[i + 1] == em[i + 1];
      }
    }
    DedupInit(seed, em, cur + [s]);
    if |em| > 0 {
      var k := |seed(em[|em| - 1])|;
      assert (cur + [s])[k..] == cur[k..] + [s];
    }
  }

  /** Flushing `cur` and starting the next group from its seed extends the
      de-duplicated sequence by the triggering sentence only. */
  lemma ChainFlush(seed: seq<string> -> seq<string>, em: seq<seq<string>>, cur: seq<string>, s: string)
    requires SeedChained(seed, em + [cur])
    ensures SeedChained(seed, em + [cur] + [seed(cur) + [s]])
    ensures Dedup(seed, em + [cur] + [seed(cur) + [s]]) == Dedup(seed, em + [cur]) + [s]
  {
    var gs := em + [cur];
    var all := gs + [seed(cur) + [s]];
    forall i | 0 <= i < |all| - 1 ensures seed(all[i]) <= all[i + 1] {
      if i < |gs| - 1 {
        assert all[i] == gs[i] && all[i + 1] == gs[i + 1];
      } else {
        assert all[i] == cur;
      }
    }
    DedupInit(seed, gs, seed(cur) + [s]);
    assert gs[|gs| - 1] == cur;
    assert (seed(cur) + [s])[|seed(cur)|..] == [s];
  }

  lemma StepChainFirst(cfg: Config, tk: Tokenizer, st: Pack, s: string)
    requires ChainInv(cfg, tk, st, [])
    ensures ChainInv(cfg, tk, Step(cfg, tk, st, s), [s])
  {
    var st' := Step(cfg, tk, st, s);
    assert st'.current == st.current + [s] == [s];
    assert st'.emitted + [st'.current] == [[s]] == [] + [[s]];
    var seed := SeedFn(cfg, tk);
    assert SeedChained(seed, [[s]]);
    DedupInit(seed, [], [s]);
    assert Dedup(seed, [[s]]) == [s];
  }

  lemma StepChainFlush(cfg: Config, tk: Tokenizer, st: Pack, done: seq<string>, s: string)
    requires |done| > 0 && ChainInv(cfg, tk, st, done)
    requires st.tokens + Count(tk, s) > cfg.chunkSize
    ensures ChainInv(cfg, tk, Step(cfg, tk, st, s), done + [s])
  {
    var seed := SeedFn(cfg, tk);
    ChainFlush(seed, st.emitted, st.current, s);
    assert seed(st.current) == OverlapSeed(cfg, tk, Join(" ", st.current)).sentences;
  }

  lemma StepChainExtend(cfg: Config, tk: Tokenizer, st: Pack, done: seq<string>, s: string)
    requires |done| > 0 && ChainInv(cfg, tk, st, done)
    requires st.tokens + Count(tk, s) <= cfg.chunkSize
    ensures ChainInv(cfg, tk, Step(cfg, tk, st, s), done + [s])
  {
    ChainExtend(SeedFn(cfg, tk), st.emitted, st.current, s);
  }

  lemma StepChain(cfg: Config, tk: Tokenizer, st: Pack, done: seq<string>, s: string)
    requires ChainInv(cfg, tk, st, done)
    ensures ChainInv(cfg, tk, Step(cfg, tk, st, s), done + [s])
  {
    if |done| == 0 {
      assert done + [s] == [s];
      StepChainFirst(cfg, tk, st, s);
    } else if st.tokens + Count(tk, s) > cfg.chunkSize {
      StepChainFlush(cfg, tk, st, done, s);
    } else {
      StepChainExtend(cfg, tk, st, done, s);
    }
  }

  lemma {:induction false} RunChain(cfg: Config, tk: Tokenizer, st: Pack, done: seq<string>, ss: seq<string>)
    requires ChainInv(cfg, tk, st, done)
    ensures ChainInv(cfg, tk, Run(cfg, tk, st, ss), done + ss)
    decreases |ss|
  {
    if |ss| == 0 {
      assert done + ss == done;
    } else {
      var next := Step(cfg, tk, st, ss[0]);
      var done' := done + [ss[0]];
      assert done' + ss[1..] == done + ss;
      StepChain(cfg, tk, st, done, ss[0]);
      RunChain(cfg, tk, next, done', ss[1..]);
      assert Run(cfg, tk, st, ss) == Run(cfg, tk, next, ss[1..]);
    }
  }

  /** Consecutive groups overlap by the seed, and removing the known
      overlap from every group after the first gives back exactly the input
      sentences, in order. */
  lemma {:induction false} GroupsReconstruct(cfg: Config, tk: Tokenizer, ss: seq<string>)
    ensures SeedChained(SeedFn(cfg, tk), Groups(cfg, tk, ss))
    ensures Dedup(SeedFn(cfg, tk), Groups(cfg, tk, ss)) == ss
  {
    RunChain(cfg, tk, Start, [], ss);
    assert [] + ss == ss;
  }

  /** With overlap disabled, the seeds are empty and de-duplication is plain
      concatenation. */
  lemma {:induction false} DedupNoOverlap(cfg: Config, tk: Tokenizer, gs: seq<seq<string>>)
    requires cfg.overlapSize <= 0
    requires SeedChained(SeedFn(cfg, tk), gs)
    ensures Dedup(SeedFn(cfg, tk), gs) == Flatten(gs)
    decreases |gs|
  {
    if |gs| > 0 {
      var init := gs[..|gs| - 1];
      assert gs == init + [gs[|gs| - 1]];
      DedupInit(SeedFn(cfg, tk), init, gs[|gs| - 1]);
      DedupNoOverlap(cfg, tk, init);
      FlattenSnoc(init, gs[|gs| - 1]);
      if |init| > 0 {
        assert SeedFn(cfg, tk)(init[|init| - 1]) == [];
      }
    }
  }

  /** With `overlap_size <= 0` the groups partition the sentences: their
      concatenation is the input sentence sequence. */
  lemma GroupsPartitionWithoutOverlap(cfg: Config, tk: Tokenizer, ss: seq<string>)
    requires cfg.overlapSize <= 0
    ensures Flatten(Groups(cfg, tk, ss)) == ss
  {
    GroupsReconstruct(cfg, tk, ss);
    DedupNoOverlap(cfg, tk, Groups(cfg, tk, ss));
  }

  // ---------------------------------------------------------------------
  // Size bound without overlap.

  /** Summed token counts of the sentences of a group. */
  function SumTokens(tk: Tokenizer, g: seq<string>): nat {
    if |g| == 0 then 0 else SumTokens(tk, g[..|g| - 1]) + Count(tk, g[|g| - 1])
  }

  /** Over the limit only as a lone sentence. */
  ghost predicate WithinLimit(cfg: Config, tk: Tokenizer, g: seq<string>) {
    SumTokens(tk, g) > cfg.chunkSize ==> |g| == 1
  }

  ghost predicate SizeInv(cfg: Config, tk: Tokenizer, st: Pack) {
    && st.tokens == SumTokens(tk, st.current)
    && (|st.current| >= 2 ==> st.tokens <= cfg.chunkSize)
    && forall i :: 0 <= i < |st.emitted| ==> WithinLimit(cfg, tk, st.emitted[i])
  }

  lemma StepSize(cfg: Config, tk: Tokenizer, st: Pack, s: string)
    requires cfg.overlapSize <= 0
    requires SizeInv(cfg, tk, st)
    ensures SizeInv(cfg, tk, Step(cfg, tk, st, s))
  {
    var c := Count(tk, s);
    var st' := Step(cfg, tk, st, s);
    if st.tokens + c > cfg.chunkSize && |st.current| > 0 {
      assert st'.current == [s];
      assert [s][..0] == [];
      assert WithinLimit(cfg, tk, st.current);
      forall i | 0 <= i < |st'.emitted| ensures WithinLimit(cfg, tk, st'.emitted[i]) {
        if i < |st.emitted| {
          assert st'.emitted[i] == st.emitted[i];
        }
      }
    } else {
      assert st'.current[..|st'.current| - 1] == st.current;
    }
  }

  lemma {:induction false} RunSize(cfg: Config, tk: Tokenizer, st: Pack, ss: seq<string>)
    requires cfg.overlapSize <= 0
    requires SizeInv(cfg, tk, st)
    ensures SizeInv(cfg, tk, Run(cfg, tk, st, ss))
    decreases |ss|
  {
    if |ss| > 0 {
      StepSize(cfg, tk, st, ss[0]);
      RunSize(cfg, tk, Step(cfg, tk, st, ss[0]), ss[1..]);
    }
  }

  /** With `overlap_size <= 0`, a group's summed sentence token count
      exceeds `chunk_size` only when the group is one sentence: a sentence
      is never split, and nothing is added to an over-long group. */
  lemma GroupsWithinLimitWithoutOverlap(cfg: Config, tk: Tokenizer, ss: seq<string>)
    requires cfg.overlapSize <= 0
    ensures forall i :: 0 <= i < |Groups(cfg, tk, ss)| ==>
      (SumTokens(tk, Groups(cfg, tk, ss)[i]) > cfg.chunkSize ==> |Groups(cfg, tk, ss)[i]| == 1)
  {
    RunSize(cfg, tk, Start, ss);
    var end := Run(cfg, tk, Start, ss);
    var gs := Groups(cfg, tk, ss);
    forall i | 0 <= i < |gs| ensures WithinLimit(cfg, tk, gs[i]) {
      if i < |end.emitted| {
        assert gs[i] == end.emitted[i];
      } else {
        assert gs[i] == end.current;
      }
    }
  }

  // ---------------------------------------------------------------------
  // Greedy packing without overlap.

  /** Group `b` was started because its first sentence did not fit after
      group `a`. */
  ghost predicate Overflowed(cfg: Config, tk: Tokenizer, a: seq<string>, b: seq<string>) {
    |b| > 0 && SumTokens(tk, a) + Count(tk, b[0]) > cfg.chunkSize
  }

  ghost predicate GreedyInv(cfg: Config, tk: Tokenizer, st: Pack) {
    && st.tokens == SumTokens(tk, st.current)
    && (forall k :: 0 <= k < |st.emitted| - 1 ==> Overflowed(cfg, tk, st.emitted[k], st.emitted[k + 1]))
    && (|st.emitted| > 0 ==> Overflowed(cfg, tk, st.emitted[|st.emitted| - 1], st.current))
  }

  lemma StepGreedy(cfg: Config, tk: Tokenizer, st: Pack, s: string)
    requires cfg.overlapSize <= 0
    requires GreedyInv(cfg, tk, st)
    ensures GreedyInv(cfg, tk, Step(cfg, tk, st, s))
  {
    var c := Count(tk, s);
    var st' := Step(cfg, tk, st, s);
    if st.tokens + c > cfg.chunkSize && |st.current| > 0 {
      assert st'.current == [s];
      assert [s][..0] == [];
      assert st'.emitted == st.emitted + [st.current];
      forall k | 0 <= k < |st'.emitted| - 1
        ensures Overflowed(cfg, tk, st'.emitted[k], st'.emitted[k + 1])
      {
        assert st'.emitted[k] == st.emitted[k];
        if k < |st.emitted| - 1 {
          assert st'.emitted[k + 1] == st.emitted[k + 1];
        } else {
          assert st'.emitted[k + 1] == st.current;
        }
      }
    } else {
      assert st'.current == st.current + [s];
      assert st'.current[..|st'.current| - 1] == st.current;
      if |st.emitted| > 0 {
        assert st'.current[0] == st.current[0];
      }
    }
  }

  lemma {:induction false} RunGreedy(cfg: Config, tk: Tokenizer, st: Pack, ss: seq<string>)
    requires cfg.overlapSize <= 0
    requires GreedyInv(cfg, tk, st)
    ensures GreedyInv(cfg, tk, Run(cfg, tk, st, ss))
    decreases |ss|
  {
    if |ss| > 0 {
      StepGreedy(cfg, tk, st, ss[0]);
      RunGreedy(cfg, tk, Step(cfg, tk, st, ss[0]), ss[1..]);
    }
  }

  /** With `overlap_size <= 0` the packing is greedy: a group is closed only
      when the first sentence of the next group would have pushed its token
      count past `chunk_size`. */
  lemma GroupsFlushOnlyWhenFull(cfg: Config, tk: Tokenizer, ss: seq<string>)
    requires cfg.overlapSize <= 0
    ensures var gs := Groups(cfg, tk, ss);
            forall k :: 0 < k < |gs| ==>
              |gs[k]| > 0 && SumTokens(tk, gs[k - 1]) + Count(tk, gs[k][0]) > cfg.chunkSize
  {
    RunGreedy(cfg, tk, Start, ss);
    var end := Run(cfg, tk, Start, ss);
    var gs := Groups(cfg, tk, ss);
    if |end.current| == 0 {
      assert gs == end.emitted;
      assert |end.emitted| == 0;
    } else {
      assert gs == end.emitted + [end.current];
    }
    forall k | 0 < k < |gs|
      ensures |gs[k]| > 0 && SumTokens(tk, gs[k - 1]) + Count(tk, gs[k][0]) > cfg.chunkSize
    {
      assert gs[k - 1] == end.emitted[k - 1];
      if k < |end.emitted| {
        assert gs[k] == end.emitted[k];
      } else {
        assert gs[k] == end.current;
      }
    }
  }
}
