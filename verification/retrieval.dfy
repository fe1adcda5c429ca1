/** Retrieval side of the chat backend: `find_similar_documents` (the
    vector-search pipeline, its truncation and its exception fallback) and
    the assembly of the retrieved chunks into the prompt's context block. */
module Retrieval {
  import opened Wrappers
  import opened TextUtil

  /** A stored chunk as the pipeline projects it; a key the document lacks
      is `None`. `section` is the `section` key of the chunk's metadata. */
  datatype Doc = Doc(chunkText: Option<string>, sourceType: Option<string>,
                     chunkIndex: Option<int>, section: Option<string>)

  /** The `$vectorSearch` stage sent to the database. */
  datatype VectorQuery = VectorQuery(index: string, path: string, queryVector: seq<real>,
                                     numCandidates: nat, limit: int)

  /** What iterating the aggregation gives: the documents, or an exception. */
  datatype SearchOutcome = Found(docs: seq<Doc>) | SearchFailed

  const NumCandidates: nat := 49
  const DefaultNoOfDocs: int := 3

  /** Python's `xs[:stop]`: a negative stop counts from the end. */
  function SliceTo<T>(xs: seq<T>, stop: int): (r: seq<T>)
    ensures r <= xs
    ensures stop >= 0 ==> |r| == Min(stop, |xs|)
    ensures stop < 0 ==> |r| == Max(0, |xs| + stop)
  {
    if stop >= 0 then (if stop <= |xs| then xs[..stop] else xs)
    else if -stop <= |xs| then xs[..|xs| + stop]
    else []
  }

  function Query(embedding: seq<real>, indexName: string, colName: string, noOfDocs: int): (q: VectorQuery)
    ensures q.numCandidates == 49 && q.limit == noOfDocs && q.queryVector == embedding
  {
    VectorQuery(indexName, colName, embedding, NumCandidates, noOfDocs)
  }

  /** `find_similar_documents`: the search's documents cut to `no_of_docs`,
      or no documents at all when the search raises. */
  function FindSimilarDocuments(search: VectorQuery -> SearchOutcome, embedding: seq<real>,
                                indexName: string, colName: string, noOfDocs: int): (r: seq<Doc>)
    ensures search(Query(embedding, indexName, colName, noOfDocs)).SearchFailed? ==> r == []
    ensures search(Query(embedding, indexName, colName, noOfDocs)).Found? ==>
              r <= search(Query(embedding, indexName, colName, noOfDocs)).docs
    ensures search(Query(embedding, indexName, colName, noOfDocs)).Found? && noOfDocs >= 0 ==>
              |r| == Min(noOfDocs, |search(Query(embedding, indexName, colName, noOfDocs)).docs|)
    ensures noOfDocs >= 0 ==> |r| <= noOfDocs
  {
    match search(Query(embedding, indexName, colName, noOfDocs))
    case SearchFailed => []
    case Found(docs) => SliceTo(docs, noOfDocs)
  }

  // ---------------------------------------------------------------------
  // The context block.

  /** `[Source: type - section - Chunk i]`, with `unknown`, `general` and 0
      standing in for missing keys. */
  function SourceTag(d: Doc): (t: string)
    ensures "[Source: " <= t && EndsWith(t, "]")
  {
    var t := "[Source: " + d.sourceType.GetOr("unknown") + " - " + d.section.GetOr("general")
             + " - Chunk " + IntToString(d.chunkIndex.GetOr(0)) + "]";
    assert t[|t| - 1..] == "]";
    t
  }

  /** Each missing key falls back to its own default, whatever the other
      two hold. */
  lemma {:induction false} SourceTagDefaults(d: Doc)
    ensures d.sourceType.None? ==> "[Source: unknown - " <= SourceTag(d)
    ensures d.section.None? ==> Contains(SourceTag(d), " - general - Chunk ")
    ensures d.chunkIndex.None? ==> EndsWith(SourceTag(d), " - Chunk 0]")
    ensures d.sourceType.None? && d.section.None? && d.chunkIndex.None? ==>
              SourceTag(d) == "[Source: unknown - general - Chunk 0]"
  {
    if d.sourceType.None? {
      UnknownType(d);
    }
    if d.section.None? {
      GeneralSection(d);
    }
    if d.chunkIndex.None? {
      ZeroIndex(d);
    }
    if d.sourceType.None? && d.section.None? && d.chunkIndex.None? {
      AllDefaults(d);
    }
  }

  /** What the tag says about each field, default or not. */
  lemma TagFields(d: Doc)
    ensures "[Source: " + d.sourceType.GetOr("unknown") + " - " <= SourceTag(d)
    ensures Contains(SourceTag(d), " - " + d.section.GetOr("general") + " - Chunk ")
    ensures EndsWith(SourceTag(d), " - Chunk " + IntToString(d.chunkIndex.GetOr(0)) + "]")
  {
    TagParts(d.sourceType.GetOr("unknown"), d.section.GetOr("general"), IntToString(d.chunkIndex.GetOr(0)));
  }

  lemma UnknownType(d: Doc)
    requires d.sourceType.None?
    ensures "[Source: unknown - " <= SourceTag(d)
  {
    TagFields(d);
    assert "[Source: " + d.sourceType.GetOr("unknown") + " - " == "[Source: unknown - ";
  }

  lemma GeneralSection(d: Doc)
    requires d.section.None?
    ensures Contains(SourceTag(d), " - general - Chunk ")
  {
    TagFields(d);
    assert " - " + d.section.GetOr("general") + " - Chunk " == " - general - Chunk ";
  }

  lemma ZeroIndex(d: Doc)
    requires d.chunkIndex.None?
    ensures EndsWith(SourceTag(d), " - Chunk 0]")
  {
    TagFields(d);
    assert IntToString(0) == "0";
    assert " - Chunk " + IntToString(d.chunkIndex.GetOr(0)) + "]" == " - Chunk 0]";
  }

  lemma AllDefaults(d: Doc)
    requires d.sourceType.None? && d.section.None? && d.chunkIndex.None?
    ensures SourceTag(d) == "[Source: unknown - general - Chunk 0]"
  {
    assert IntToString(0) == "0";
    DefaultTagText();
    assert SourceTag(d) == "[Source: " + "unknown" + " - " + "general" + " - Chunk " + "0" + "]";
  }

  lemma DefaultTagText()
    ensures "[Source: " + "unknown" + " - " + "general" + " - Chunk " + "0" + "]" == "[Source: unknown - general - Chunk 0]"
  {
  }

  /** The tag's type opens it, its section sits between two separators and
      its index closes it. */
  lemma TagParts(st: string, sec: string, idx: string)
    ensures var t := "[Source: " + st + " - " + sec + " - Chunk " + idx + "]";
            && "[Source: " + st + " - " <= t
            && Contains(t, " - " + sec + " - Chunk ")
            && EndsWith(t, " - Chunk " + idx + "]")
  {
    var t := "[Source: " + st + " - " + sec + " - Chunk " + idx + "]";
    var head, rest := "[Source: " + st + " - ", sec + " - Chunk " + idx + "]";
    assert t == head + rest;
    assert t[..|head|] == head;
    assert t == ("[Source: " + st) + (" - " + sec + " - Chunk ") + (idx + "]");
    ContainsMiddle("[Source: " + st, " - " + sec + " - Chunk ", idx + "]");
    var front, tail := "[Source: " + st + " - " + sec, " - Chunk " + idx + "]";
    assert t == front + tail;
    assert t[|t| - |tail|..] == tail;
  }

  /** What one retrieved document contributes: its tag, its text and a
      blank line, or nothing when it has no `chunk_text`. */
  function EntryOf(d: Doc): (e: string)
    ensures d.chunkText.None? <==> e == ""
    ensures d.chunkText.Some? ==> SourceTag(d) + "\n" + d.chunkText.value + "\n\n" == e
  {
    match d.chunkText
    case None => ""
    case Some(text) => SourceTag(d) + "\n" + text + "\n\n"
  }

  /** A string built by appending `f` of each element, in order, as the
      backend's loops build theirs. */
  function Accumulate<T>(xs: seq<T>, f: T -> string): string
    decreases |xs|
  {
    if |xs| == 0 then "" else Accumulate(xs[..|xs| - 1], f) + f(xs[|xs| - 1])
  }

  /** The pieces, element by element. */
  function Pieces<T>(xs: seq<T>, f: T -> string): (ps: seq<string>)
    ensures |ps| == |xs| && forall i :: 0 <= i < |xs| ==> ps[i] == f(xs[i])
  {
    seq(|xs|, i requires 0 <= i < |xs| => f(xs[i]))
  }

  lemma {:induction false} AccumulateFlatten<T>(xs: seq<T>, f: T -> string)
    ensures Accumulate(xs, f) == Flatten(Pieces(xs, f))
    decreases |xs|
  {
    if |xs| > 0 {
      var init := xs[..|xs| - 1];
      var e := f(xs[|xs| - 1]);
      AccumulateFlatten(init, f);
      var ps, front := Pieces(xs, f), Pieces(init, f);
      forall k | 0 <= k < |ps| ensures ps[k] == (front + [e])[k] {
        if k < |init| {
          assert init[k] == xs[k];
        }
      }
      assert ps == front + [e];
      FlattenSnoc(front, e);
    }
  }

  /** `combined_texts`: one entry appended per retrieved document. */
  function CombinedTexts(docs: seq<Doc>): string {
    Accumulate(docs, EntryOf)
  }

  /** The entries, document by document. */
  function Entries(docs: seq<Doc>): (es: seq<string>)
    ensures |es| == |docs| && forall i :: 0 <= i < |docs| ==> es[i] == EntryOf(docs[i])
  {
    Pieces(docs, EntryOf)
  }

  /** The loop's result is every document's entry, concatenated in result
      order. */
  lemma CombinedTextsInOrder(docs: seq<Doc>)
    ensures CombinedTexts(docs) == Flatten(Entries(docs))
  {
    AccumulateFlatten(docs, EntryOf);
  }

  /** Each document with `chunk_text` shows up, tagged, in the block. */
  lemma CombinedTextsHasEntry(docs: seq<Doc>, i: nat)
    requires i < |docs| && docs[i].chunkText.Some?
    ensures Contains(CombinedTexts(docs), SourceTag(docs[i]) + "\n" + docs[i].chunkText.value + "\n\n")
  {
    CombinedTextsInOrder(docs);
    FlattenContains(Entries(docs), i);
  }

  lemma {:induction false} FlattenContains(xss: seq<string>, i: nat)
    requires i < |xss|
    ensures Contains(Flatten(xss), xss[i])
  {
    if i == 0 {
      ContainsMiddle("", xss[0], Flatten(xss[1..]));
      assert "" + xss[0] + Flatten(xss[1..]) == Flatten(xss);
    } else {
      FlattenContains(xss[1..], i - 1);
      ContainsWithin(xss[0], Flatten(xss[1..]), "", xss[i]);
      assert xss[0] + Flatten(xss[1..]) + "" == Flatten(xss);
    }
  }

  /** The block is empty exactly when no retrieved document has text. */
  lemma CombinedTextsEmptyIff(docs: seq<Doc>)
    ensures CombinedTexts(docs) == "" <==> forall i :: 0 <= i < |docs| ==> docs[i].chunkText.None?
  {
    AccumulateEmptyIff(docs, EntryOf);
  }

  lemma {:induction false} AccumulateEmptyIff<T>(xs: seq<T>, f: T -> string)
    ensures Accumulate(xs, f) == "" <==> forall i :: 0 <= i < |xs| ==> f(xs[i]) == ""
    decreases |xs|
  {
    if |xs| > 0 {
      var init := xs[..|xs| - 1];
      AccumulateEmptyIff(init, f);
      assert forall i :: 0 <= i < |init| ==> init[i] == xs[i];
    }
  }
}
