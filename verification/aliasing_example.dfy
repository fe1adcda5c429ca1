/** A concrete input on which the shared metadata dictionary of
    `chunk_text` mislabels a chunk. */
module AliasingExample {
  import opened Wrappers
  import opened TextUtil
  import opened Tokens
  import opened SentenceSplitter
  import opened SectionTagger
  import opened SlidingWindow
  import opened TextChunks

  /** One token per character; decoding is never needed without overlap. */
  const CharTokenizer: Tokenizer := Tokenizer(s => seq(|s|, i => 0), t => [])

  const AliasingConfig: Config := Config(10, 0)

  const AliasingText: string := "Work. Degree."

  /** Two boundary-free sentences separated by one space split apart. */
  lemma RawSplitTwo(a: string, b: string)
    requires |a| > 0 && IsTerminal(a[|a| - 1]) && BoundaryFree(a)
    requires |b| > 0 && !IsSpace(b[0]) && BoundaryFree(b)
    ensures RawSplit(a + " " + b) == [a, b]
  {
    var s := a + " " + b;
    assert IsBoundary(s, |a|);
    forall p | 1 <= p < |a| ensures !IsBoundary(s, p) {
      assert !IsBoundary(a, p);
    }
    var f := FirstBoundary(s, 1);
    assert f == Some(|a|);
    assert s[|a| + 1] == b[0];
    assert SpaceRunEnd(s, |a| + 1) == |a| + 1;
    assert SpaceRunEnd(s, |a|) == |a| + 1;
    assert s[|a| + 1..] == b;
    assert s[..|a|] == a;
    assert FirstBoundary(b, 1) == None;
  }

  lemma AliasingTextSentences()
    ensures Sentences(AliasingText) == ["Work.", "Degree."]
  {
    SentenceFacts();
    RawSplitTwo("Work.", "Degree.");
    assert AliasingText == "Work." + " " + "Degree.";
    CleanTrimmed(["Work.", "Degree."]);
  }

  lemma SentenceFacts()
    ensures BoundaryFree("Work.") && BoundaryFree("Degree.")
    ensures IsTerminal("Work."[4]) && !IsSpace("Degree."[0])
    ensures IsTrimmed("Work.") && IsTrimmed("Degree.")
  {
  }

  lemma AliasingSentenceGroups()
    ensures Groups(AliasingConfig, CharTokenizer, ["Work.", "Degree."]) == [["Work."], ["Degree."]]
  {
    var cfg, tk := AliasingConfig, CharTokenizer;
    var ss := ["Work.", "Degree."];
    assert Count(tk, ss[0]) == 5;
    assert Count(tk, ss[1]) == 7;
    var st1 := Step(cfg, tk, Start, ss[0]);
    assert st1 == Pack([], [ss[0]], 5);
    var st2 := Step(cfg, tk, st1, ss[1]);
    assert st2 == Pack([[ss[0]]], [ss[1]], 7);
    assert Run(cfg, tk, Start, ss) == Run(cfg, tk, st1, ss[1..]);
    assert Run(cfg, tk, st1, ss[1..]) == Run(cfg, tk, st2, []);
  }

  lemma AliasingTextGroups()
    ensures ChunkGroups(AliasingConfig, CharTokenizer, AliasingText) == [["Work."], ["Degree."]]
  {
    AliasingTextSentences();
    AliasingTextNotBlank(AliasingText);
    AliasingSentenceGroups();
    GroupsOfSentences(AliasingConfig, CharTokenizer, AliasingText, ["Work.", "Degree."]);
  }

  lemma AliasingTextNotBlank(text: string)
    requires text == AliasingText
    ensures !IsBlank(text)
  {
    assert !IsSpace(text[0]);
  }

  lemma GroupsOfSentences(cfg: Config, tk: Tokenizer, text: string, ss: seq<string>)
    requires !IsBlank(text) && Sentences(text) == ss && |ss| > 0
    ensures ChunkGroups(cfg, tk, text) == Groups(cfg, tk, ss)
  {
  }

  lemma WorkSection()
    ensures IdentifyResumeSection("Work.") == "work_experience"
  {
    assert LowerAscii("Work.") == "work.";
    assert OccursAt("work.", "work", 0);
    ResumeWorkKeywordWins("Work.");
  }

  lemma DegreeSection()
    ensures IdentifyResumeSection("Degree.") == "education"
  {
    LowerDegree();
    DegreeMissesWork("degree.");
    DegreeHitsEducation("degree.");
  }

  lemma LowerDegree()
    ensures LowerAscii("Degree.") == "degree."
  {
  }

  lemma DegreeMissesWork(s: string)
    requires s == "degree."
    ensures !Hits(ResumeRules[0], s)
  {
    assert ResumeRules[0].keywords == ["experience", "work", "employment", "career"];
    NotContainsLonger(s, "experience");
    NotContainsFirstChar(s, "work");
    NotContainsLonger(s, "employment");
    NotContainsFirstChar(s, "career");
  }

  lemma DegreeHitsEducation(s: string)
    requires s == "degree."
    ensures Hits(ResumeRules[1], s)
  {
    assert "degree" in ResumeRules[1].keywords;
    assert OccursAt(s, "degree", 0);
  }

  /** The example text packs into the two chunks `Work.` and `Degree.`. */
  lemma AliasingTexts()
    ensures ChunkTextsOf(AliasingConfig, CharTokenizer, AliasingText) == ["Work.", "Degree."]
  {
    AliasingTextGroups();
    var gs := [["Work."], ["Degree."]];
    assert JoinAll(gs)[0] == Join(" ", ["Work."]) == "Work.";
    assert JoinAll(gs)[1] == Join(" ", ["Degree."]) == "Degree.";
  }

  /** With a caller dictionary, the as-written first chunk carries the
      label of the last chunk; the per-chunk version carries its own. */
  lemma FirstChunkLabels(cfg: Config, tk: Tokenizer, text: string, sourceType: string, m: Metadata, first: string, last: string)
    requires m != map[]
    requires |ChunkTextsOf(cfg, tk, text)| >= 2
    requires SectionFor(sourceType, ChunkTextsOf(cfg, tk, text)[0]) == Some(first)
    requires SectionFor(sourceType, ChunkTextsOf(cfg, tk, text)[|ChunkTextsOf(cfg, tk, text)| - 1]) == Some(last)
    ensures Labelled(ChunkText(cfg, tk, text, sourceType, m), last)
    ensures Labelled(ChunkTextPerChunk(cfg, tk, text, sourceType, m), first)
  {
  }

  /** The first chunk exists and its `section` label is `tag`. */
  predicate Labelled(r: seq<TextChunk>, tag: string) {
    |r| > 0 && "section" in r[0].metadata && r[0].metadata["section"] == Text(tag)
  }

  /** A two-chunk resume text whose first chunk is about work: with a
      caller-supplied dictionary the first chunk comes out labelled
      `education` (the label of the second chunk), while labelling each
      chunk on its own gives `work_experience`. */
  lemma FirstTextSection(text: string)
    requires text == AliasingText
    ensures |ChunkTextsOf(AliasingConfig, CharTokenizer, text)| == 2
    ensures SectionFor("resume", ChunkTextsOf(AliasingConfig, CharTokenizer, text)[0]) == Some("work_experience")
  {
    AliasingTexts();
    WorkSection();
  }

  lemma LastTextSection(text: string)
    requires text == AliasingText
    ensures |ChunkTextsOf(AliasingConfig, CharTokenizer, text)| == 2
    ensures SectionFor("resume", ChunkTextsOf(AliasingConfig, CharTokenizer, text)[1]) == Some("education")
  {
    AliasingTexts();
    DegreeSection();
  }

  lemma {:induction false} AliasingMislabels(cfg: Config, tk: Tokenizer, text: string, m: Metadata)
    requires cfg == AliasingConfig && tk == CharTokenizer && text == AliasingText
    requires "source_type" in m && m["source_type"] == Text("resume")
    ensures Labelled(ChunkText(cfg, tk, text, "resume", m), "education")
    ensures Labelled(ChunkTextPerChunk(cfg, tk, text, "resume", m), "work_experience")
  {
    AliasingPremises(cfg, tk, text);
    MetadataNonEmpty(m, "source_type");
    FirstChunkLabels(cfg, tk, text, "resume", m, "work_experience", "education");
  }

  lemma AliasingPremises(cfg: Config, tk: Tokenizer, text: string)
    requires cfg == AliasingConfig && tk == CharTokenizer && text == AliasingText
    ensures |ChunkTextsOf(cfg, tk, text)| >= 2
    ensures SectionFor("resume", ChunkTextsOf(cfg, tk, text)[0]) == Some("work_experience")
    ensures SectionFor("resume", ChunkTextsOf(cfg, tk, text)[|ChunkTextsOf(cfg, tk, text)| - 1]) == Some("education")
  {
    FirstTextSection(text);
    LastTextSection(text);
  }
}
