/** The chunk records `SlidingWindowChunker.chunk_text` builds from the
    sentence groups (`_create_chunk_data`), and `chunk_json_data`.

    `_create_chunk_data` stores `metadata or {}` in the record and then
    writes the section label into that dictionary. A caller-supplied
    non-empty dictionary is therefore one object shared by every chunk of
    the call, and after the loop every chunk carries the label of the last
    chunk. `ChunkText` models that as written; `ChunkTextPerChunk` is the
    per-chunk labelling the code evidently intends. */
module TextChunks {
  import opened Wrappers
  import opened TextUtil
  import opened Tokens
  import opened SentenceSplitter
  import opened SectionTagger
  import opened SlidingWindow
  import opened Profiles
  import opened JsonToText

  datatype MetaValue = Text(text: string) | TextList(items: seq<string>)

  /** A chunk's metadata dictionary. */
  type Metadata = map<string, MetaValue>

  datatype TextChunk = TextChunk(
    chunkText: string, sourceType: string, chunkIndex: nat,
    tokenCount: nat, metadata: Metadata)

  /** The section label `_create_chunk_data` adds for a known source type. */
  function SectionFor(sourceType: string, text: string): (r: Option<string>)
    ensures r.Some? <==> sourceType in {"resume", "linkedin", "github"}
  {
    if sourceType == "resume" then Some(IdentifyResumeSection(text))
    else if sourceType == "linkedin" then Some(IdentifyLinkedInSection(text))
    else if sourceType == "github" then Some(IdentifyGitHubSection(text))
    else None
  }

  function WithSection(m: Metadata, section: Option<string>): Metadata {
    match section
    case Some(tag) => m["section" := Text(tag)]
    case None => m
  }

  /** The sentence groups of one `chunk_text` call: none for a blank text. */
  function ChunkGroups(cfg: Config, tk: Tokenizer, text: string): seq<seq<string>> {
    if IsBlank(text) then []
    else
      var ss := Sentences(text);
      if |ss| == 0 then [] else Groups(cfg, tk, ss)
  }

  /** `" ".join(group)` for every group, in order. */
  function JoinAll(gs: seq<seq<string>>): (texts: seq<string>)
    ensures |texts| == |gs|
    ensures forall i :: 0 <= i < |gs| ==> texts[i] == Join(" ", gs[i])
  {
    if |gs| == 0 then [] else [Join(" ", gs[0])] + JoinAll(gs[1..])
  }

  /** Joining stripped sentences with single spaces gives a stripped text. */
  lemma {:induction false} JoinTrimmed(parts: seq<string>)
    requires |parts| > 0 && AllTrimmed(parts)
    ensures IsTrimmed(Join(" ", parts))
  {
    if |parts| > 1 {
      JoinTrimmed(parts[1..]);
      var rest := Join(" ", parts[1..]);
      assert Join(" ", parts) == parts[0] + " " + rest;
    }
  }

  /** The chunk texts of a call, all stripped and non-empty. */
  lemma ChunkTextsTrimmed(cfg: Config, tk: Tokenizer, text: string)
    ensures forall i :: 0 <= i < |ChunkGroups(cfg, tk, text)| ==>
              IsTrimmed(JoinAll(ChunkGroups(cfg, tk, text))[i])
  {
    var gs := ChunkGroups(cfg, tk, text);
    if !IsBlank(text) && |Sentences(text)| > 0 {
      GroupsNonEmpty(cfg, tk, Sentences(text));
      GroupsTrimmed(cfg, tk, Sentences(text));
      forall i | 0 <= i < |gs| ensures IsTrimmed(JoinAll(gs)[i]) {
        JoinTrimmed(gs[i]);
      }
    }
  }

  /** A blank text yields no group, any other text at least one. */
  lemma ChunkGroupsEmptyIff(cfg: Config, tk: Tokenizer, text: string)
    ensures ChunkGroups(cfg, tk, text) == [] <==> IsBlank(text)
  {
    if !IsBlank(text) {
      SentencesEmptyIffBlank(text);
      GroupsNonEmpty(cfg, tk, Sentences(text));
    }
  }

  /** The metadata dictionaries of the chunks, as written: a fresh one per
      chunk when the caller passed none, otherwise the caller's dictionary,
      shared, holding the label written last. */
  function AliasedMetadata(metadata: Metadata, sourceType: string, texts: seq<string>): (ms: seq<Metadata>)
    ensures |ms| == |texts|
    ensures metadata == map[] ==>
              forall i :: 0 <= i < |texts| ==> ms[i] == WithSection(map[], SectionFor(sourceType, texts[i]))
    ensures metadata != map[] ==>
              forall i :: 0 <= i < |texts| ==> ms[i] == WithSection(metadata, SectionFor(sourceType, texts[|texts| - 1]))
  {
    seq(|texts|, i requires 0 <= i < |texts| =>
      if metadata == map[] then WithSection(map[], SectionFor(sourceType, texts[i]))
      else WithSection(metadata, SectionFor(sourceType, texts[|texts| - 1])))
  }

  /** The corrected metadata: each chunk labels its own copy of the
      caller's dictionary. */
  function OwnMetadata(metadata: Metadata, sourceType: string, texts: seq<string>): (ms: seq<Metadata>)
    ensures |ms| == |texts|
    ensures forall i :: 0 <= i < |texts| ==> ms[i] == WithSection(metadata, SectionFor(sourceType, texts[i]))
  {
    seq(|texts|, i requires 0 <= i < |texts| => WithSection(metadata, SectionFor(sourceType, texts[i])))
  }

  /** One record per chunk text, numbered from 0. */
  function BuildChunks(tk: Tokenizer, sourceType: string, texts: seq<string>, metas: seq<Metadata>): (r: seq<TextChunk>)
    requires |metas| == |texts|
    ensures |r| == |texts|
    ensures forall i :: 0 <= i < |r| ==>
              r[i] == TextChunk(texts[i], sourceType, i, Count(tk, texts[i]), metas[i])
  {
    seq(|texts|, i requires 0 <= i < |texts| => TextChunk(texts[i], sourceType, i, Count(tk, texts[i]), metas[i]))
  }

  /** Chunk texts of a call, named so the proofs below need not look
      inside the packing loop. */
  function ChunkTextsOf(cfg: Config, tk: Tokenizer, text: string): (texts: seq<string>)
    ensures texts == [] <==> IsBlank(text)
    ensures forall i :: 0 <= i < |texts| ==> IsTrimmed(texts[i])
  {
    ChunkGroupsEmptyIff(cfg, tk, text);
    ChunkTextsTrimmed(cfg, tk, text);
    JoinAll(ChunkGroups(cfg, tk, text))
  }

  /** `chunk_text` as written. */
  function ChunkText(cfg: Config, tk: Tokenizer, text: string, sourceType: string, metadata: Metadata): (r: seq<TextChunk>)
    ensures r == [] <==> IsBlank(text)
    ensures forall i :: 0 <= i < |r| ==>
              && r[i].chunkIndex == i
              && r[i].sourceType == sourceType
              && IsTrimmed(r[i].chunkText)
              && r[i].tokenCount == Count(tk, r[i].chunkText)
    ensures metadata != map[] ==>
              forall i :: 0 <= i < |r| ==>
                r[i].metadata == WithSection(metadata, SectionFor(sourceType, r[|r| - 1].chunkText))
    ensures metadata == map[] ==>
              forall i :: 0 <= i < |r| ==>
                r[i].metadata == WithSection(map[], SectionFor(sourceType, r[i].chunkText))
  {
    var texts := ChunkTextsOf(cfg, tk, text);
    AliasedChunks(tk, sourceType, texts, metadata);
    BuildChunks(tk, sourceType, texts, AliasedMetadata(metadata, sourceType, texts))
  }

  /** The records built over the aliased dictionaries. */
  lemma AliasedChunks(tk: Tokenizer, sourceType: string, texts: seq<string>, metadata: Metadata)
    ensures var r := BuildChunks(tk, sourceType, texts, AliasedMetadata(metadata, sourceType, texts));
            && (metadata != map[] ==>
                  forall i :: 0 <= i < |r| ==>
                    r[i].metadata == WithSection(metadata, SectionFor(sourceType, r[|r| - 1].chunkText)))
            && (metadata == map[] ==>
                  forall i :: 0 <= i < |r| ==>
                    r[i].metadata == WithSection(map[], SectionFor(sourceType, r[i].chunkText)))
  {
    var ms := AliasedMetadata(metadata, sourceType, texts);
    var r := BuildChunks(tk, sourceType, texts, ms);
    if metadata != map[] && |r| > 0 {
      var shared := WithSection(metadata, SectionFor(sourceType, texts[|texts| - 1]));
      assert r[|r| - 1].chunkText == texts[|texts| - 1];
      forall i | 0 <= i < |r| ensures r[i].metadata == shared {
        assert r[i].metadata == ms[i];
      }
    }
  }

  /** `chunk_text` with the section label computed for each chunk on its own
      copy of the metadata. */
  function ChunkTextPerChunk(cfg: Config, tk: Tokenizer, text: string, sourceType: string, metadata: Metadata): (r: seq<TextChunk>)
    ensures r == [] <==> IsBlank(text)
    ensures forall i :: 0 <= i < |r| ==>
              && r[i].chunkIndex == i
              && r[i].sourceType == sourceType
              && IsTrimmed(r[i].chunkText)
              && r[i].tokenCount == Count(tk, r[i].chunkText)
              && r[i].metadata == WithSection(metadata, SectionFor(sourceType, r[i].chunkText))
  {
    var texts := ChunkTextsOf(cfg, tk, text);
    BuildChunks(tk, sourceType, texts, OwnMetadata(metadata, sourceType, texts))
  }

  /** Both versions produce the same texts, indices and counts; they differ
      only in metadata, and not at all without a caller dictionary or on
      the last chunk. */
  lemma AliasingOnlyAffectsMetadata(cfg: Config, tk: Tokenizer, text: string, sourceType: string, metadata: Metadata)
    ensures |ChunkText(cfg, tk, text, sourceType, metadata)| == |ChunkTextPerChunk(cfg, tk, text, sourceType, metadata)|
    ensures forall i :: 0 <= i < |ChunkText(cfg, tk, text, sourceType, metadata)| ==>
              ChunkText(cfg, tk, text, sourceType, metadata)[i].chunkText
              == ChunkTextPerChunk(cfg, tk, text, sourceType, metadata)[i].chunkText
    ensures metadata == map[] ==>
              ChunkText(cfg, tk, text, sourceType, metadata) == ChunkTextPerChunk(cfg, tk, text, sourceType, metadata)
    ensures |ChunkText(cfg, tk, text, sourceType, metadata)| > 0 ==>
              var n := |ChunkText(cfg, tk, text, sourceType, metadata)|;
              ChunkText(cfg, tk, text, sourceType, metadata)[n - 1]
              == ChunkTextPerChunk(cfg, tk, text, sourceType, metadata)[n - 1]
  {
    var texts := ChunkTextsOf(cfg, tk, text);
    var aliased := AliasedMetadata(metadata, sourceType, texts);
    var own := OwnMetadata(metadata, sourceType, texts);
    assert ChunkText(cfg, tk, text, sourceType, metadata) == BuildChunks(tk, sourceType, texts, aliased);
    assert ChunkTextPerChunk(cfg, tk, text, sourceType, metadata) == BuildChunks(tk, sourceType, texts, own);
    AliasedAgrees(metadata, sourceType, texts, aliased, own);
    SameTextsSameChunks(tk, sourceType, texts, aliased, own);
    var a, b := BuildChunks(tk, sourceType, texts, aliased), BuildChunks(tk, sourceType, texts, own);
    assert forall i :: 0 <= i < |a| ==> a[i].chunkText == b[i].chunkText;
  }

  /** The shared metadata agrees with the per-chunk one on the last chunk,
      and everywhere when the caller passed no dictionary. */
  lemma AliasedAgrees(metadata: Metadata, sourceType: string, texts: seq<string>, aliased: seq<Metadata>, own: seq<Metadata>)
    requires aliased == AliasedMetadata(metadata, sourceType, texts)
    requires own == OwnMetadata(metadata, sourceType, texts)
    ensures metadata == map[] ==> aliased == own
    ensures |texts| > 0 ==> aliased[|texts| - 1] == own[|texts| - 1]
  {
    if metadata == map[] {
      forall i | 0 <= i < |texts|
        ensures aliased[i] == own[i]
      {
        assert aliased[i] == WithSection(map[], SectionFor(sourceType, texts[i]));
        assert own[i] == WithSection(metadata, SectionFor(sourceType, texts[i]));
      }
    }
  }

  /** Chunks built from the same texts differ at most in their metadata. */
  lemma SameTextsSameChunks(tk: Tokenizer, sourceType: string, texts: seq<string>, m1: seq<Metadata>, m2: seq<Metadata>)
    requires |m1| == |texts| && |m2| == |texts|
    ensures var a, b := BuildChunks(tk, sourceType, texts, m1), BuildChunks(tk, sourceType, texts, m2);
            && |a| == |b|
            && (forall i :: 0 <= i < |a| ==> a[i].chunkText == b[i].chunkText)
            && (m1 == m2 ==> a == b)
            && (|a| > 0 && m1[|a| - 1] == m2[|a| - 1] ==> a[|a| - 1] == b[|a| - 1])
  {
  }

  /** With overlap disabled, the chunk texts hold exactly the non-whitespace
      characters of the input, in order. */
  lemma ChunksKeepTextWithoutOverlap(cfg: Config, tk: Tokenizer, text: string, sourceType: string, metadata: Metadata)
    requires cfg.overlapSize <= 0
    ensures NonSpace(Flatten(ChunkTexts(ChunkTextPerChunk(cfg, tk, text, sourceType, metadata)))) == NonSpace(text)
  {
    var gs := ChunkGroups(cfg, tk, text);
    var r := ChunkTextPerChunk(cfg, tk, text, sourceType, metadata);
    assert ChunkTexts(r) == ChunkTextsOf(cfg, tk, text) == JoinAll(gs);
    NonSpaceJoinAll(gs);
    if IsBlank(text) {
      NonSpaceEmptyIffBlank(text);
    } else {
      SentencesEmptyIffBlank(text);
      GroupsPartitionWithoutOverlap(cfg, tk, Sentences(text));
      SentencesKeepText(text);
    }
  }

  function ChunkTexts(r: seq<TextChunk>): (texts: seq<string>)
    ensures |texts| == |r|
    ensures forall i :: 0 <= i < |r| ==> texts[i] == r[i].chunkText
  {
    seq(|r|, i requires 0 <= i < |r| => r[i].chunkText)
  }

  lemma {:induction false} NonSpaceJoin(parts: seq<string>)
    ensures NonSpace(Join(" ", parts)) == NonSpace(Flatten(parts))
  {
    if |parts| == 1 {
      assert Flatten(parts) == parts[0] + Flatten(parts[1..]);
      assert parts[0] + [] == parts[0];
    } else if |parts| > 1 {
      NonSpaceJoin(parts[1..]);
      var rest := Join(" ", parts[1..]);
      NonSpaceAppend(parts[0] + " ", rest);
      NonSpaceAppend(parts[0], " ");
      assert NonSpace(" ") == [];
      NonSpaceAppend(parts[0], Flatten(parts[1..]));
    }
  }

  lemma {:induction false} FlattenAppend<T>(a: seq<seq<T>>, b: seq<seq<T>>)
    ensures Flatten(a + b) == Flatten(a) + Flatten(b)
  {
    if |a| > 0 {
      assert (a + b)[1..] == a[1..] + b;
      FlattenAppend(a[1..], b);
    } else {
      assert a + b == b;
    }
  }

  lemma {:induction false} NonSpaceJoinAll(gs: seq<seq<string>>)
    ensures NonSpace(Flatten(JoinAll(gs))) == NonSpace(Flatten(Flatten(gs)))
  {
    if |gs| > 0 {
      NonSpaceJoinAll(gs[1..]);
      NonSpaceJoin(gs[0]);
      assert JoinAll(gs)[1..] == JoinAll(gs[1..]);
      NonSpaceAppend(Join(" ", gs[0]), Flatten(JoinAll(gs[1..])));
      FlattenAppend(gs[0], Flatten(gs[1..]));
      NonSpaceAppend(Flatten(gs[0]), Flatten(Flatten(gs[1..])));
    }
  }

  /** The metadata `chunk_json_data` attaches: the record's top-level keys
      and its source type. */
  function JsonMetadata(keys: seq<string>, sourceType: string): Metadata {
    map["original_json_keys" := TextList(keys), "source_type" := Text(sourceType)]
  }

  /** `chunk_json_data` as written: the profile is flattened to text and
      chunked, and since its metadata dictionary is never empty, every chunk
      carries the section label of the last chunk. */
  function ChunkJsonData(cfg: Config, tk: Tokenizer, profile: Profile, keys: seq<string>): (r: seq<TextChunk>)
    ensures r == [] <==> IsBlank(ProfileToText(profile))
    ensures forall i :: 0 <= i < |r| ==>
              && r[i].sourceType == SourceTypeOf(profile)
              && r[i].metadata == r[|r| - 1].metadata
              && r[i].metadata.Keys == {"original_json_keys", "source_type", "section"}
              && r[i].metadata["original_json_keys"] == TextList(keys)
              && r[i].metadata["source_type"] == Text(SourceTypeOf(profile))
              && SectionFor(SourceTypeOf(profile), r[|r| - 1].chunkText).Some?
              && r[i].metadata["section"] == Text(SectionFor(SourceTypeOf(profile), r[|r| - 1].chunkText).value)
  {
    var st := SourceTypeOf(profile);
    var m := JsonMetadata(keys, st);
    MetadataNonEmpty(m, "source_type");
    var r := ChunkText(cfg, tk, ProfileToText(profile), st, m);
    if |r| == 0 then r
    else
      var tag := SectionFor(st, r[|r| - 1].chunkText);
      JsonMetadataLabelled(keys, st, tag.value);
      r
  }

  /** `chunk_json_data` over the per-chunk labelling: every chunk keeps the
      record's keys and source type and carries the section of its own
      text. */
  function ChunkJsonDataPerChunk(cfg: Config, tk: Tokenizer, profile: Profile, keys: seq<string>): (r: seq<TextChunk>)
    ensures r == [] <==> IsBlank(ProfileToText(profile))
    ensures forall i :: 0 <= i < |r| ==>
              && r[i].sourceType == SourceTypeOf(profile)
              && SectionFor(SourceTypeOf(profile), r[i].chunkText).Some?
              && r[i].metadata == JsonMetadata(keys, SourceTypeOf(profile))
                                  ["section" := Text(SectionFor(SourceTypeOf(profile), r[i].chunkText).value)]
  {
    var st := SourceTypeOf(profile);
    assert st in {"resume", "linkedin", "github"};
    ChunkTextPerChunk(cfg, tk, ProfileToText(profile), st, JsonMetadata(keys, st))
  }

  lemma MetadataNonEmpty(m: Metadata, k: string)
    requires k in m
    ensures m != map[]
  {
    var empty: Metadata := map[];
    assert k !in empty;
  }

  lemma JsonMetadataLabelled(keys: seq<string>, sourceType: string, tag: string)
    ensures var m := WithSection(JsonMetadata(keys, sourceType), Some(tag));
            && m.Keys == {"original_json_keys", "source_type", "section"}
            && m["original_json_keys"] == TextList(keys)
            && m["source_type"] == Text(sourceType)
  {
  }
}
