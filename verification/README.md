# Portfolio chatbot core, modelled in Dafny

This project models the retrieval-augmented chatbot behind a personal
portfolio site. The model has two halves.

Ingestion turns a résumé, a LinkedIn profile and a GitHub profile into
chunks for a vector index:
- the sliding-window text chunker (`SlidingWindowChunker`);
- the structured chunker (`StructuredChunker`);
- the chunking configuration module.

Serving is the `/chat` route of the Flask backend:
- the request guards;
- the Gemini classification of the message;
- the three answer branches (retrieval, casual, generic);
- the vector search with its truncation and exception fallback;
- the `[Source: …]` context block;
- the reply formatter `format_text`;
- the session conversation-memory helpers.

Everything is a pure function over immutable datatypes. The outside world
is passed in as parameters:
- The tokenizer is a pair of total functions, `encode` and `decode`. Nothing
  is assumed about how they relate.
- The Gemini client is a `generate` function plus a flag saying whether the
  client could be built.
- The embedding client is an `embed` function.
- The database aggregation is a `search` function.

A chat result records the HTTP response, the prompt chosen for the answer,
and every external call in order. The properties below can therefore talk
about what is called and when.

Modules, following the source's structure:
- `TextUtil`: Python string helpers.
  - whitespace as `str.isspace`;
  - `strip` and `split()`;
  - `" ".join`;
  - decimal rendering of integers.
- `Wrappers`: `Option` and `Result`.
- `Tokens`: the tokenizer.
- `Profiles`: the résumé, LinkedIn and GitHub records.
- `SentenceSplitter`, `SlidingWindow`, `SectionTagger`, `JsonToText`, `TextChunks`: `text_chunker.py`.
- `AliasingExample`: a concrete input for the first finding below.
- `StructuredFormat`, `PortfolioOverview`, `StructuredChunker`: `structured_chunker.py`.
- `ChunkingConfig`: `chunking_config.py`.
- `ResponseFormat`, `Conversation`, `Retrieval`, `Chat`: `app.py`.

The structured chunkers take the `_format_*` helpers as a `Formatters`
record:
- The block-structure lemmas hold for any wording.
- `StructuredChunker.Formats` is the record of the source's own helpers.
- The `…Texts` lemmas instantiate the block lemmas with it.

Sections and sources are enumerations. `SectionName`, `SourceName` and
`ChunkType` give the exact strings the source writes.

## Model

| member | source | states |
|---|---|---|
| TextUtil.Strip | Scripts/chunking/text_chunker.py:46 | `str.strip()`: the result is empty or starts and ends with a non-space, it keeps every non-space character in order, and it is empty exactly when the input is blank |
| TextUtil.StripIdempotent | Scripts/chunking/text_chunker.py:46 | stripping twice is stripping once |
| TextUtil.WordsOfJoin | Backend/app.py:176-179 | `" ".join(words).split()` gives back the same words, so the truncated context re-splits into exactly the words kept |
| TextUtil.NatToStringRoundTrip | Scripts/chunking/structured_chunker.py:464 | the decimal rendering of a count parses back to the count |
| SentenceSplitter.Sentences | Scripts/chunking/text_chunker.py:39-46 | every sentence is non-empty and has no surrounding whitespace |
| SentenceSplitter.SentencesKeepText | Scripts/chunking/text_chunker.py:45-46 | splitting loses only whitespace: the sentences hold every non-space character of the text, in order |
| SentenceSplitter.SentencesEmptyIffBlank | Scripts/chunking/text_chunker.py:45-46 | a text yields no sentence exactly when it is blank |
| SentenceSplitter.SentencesAreMaximal | Scripts/chunking/text_chunker.py:45 | no sentence still contains a `.`, `!` or `?` followed by whitespace: every split point was taken |
| SentenceSplitter.RawSplitReconstruct | Scripts/chunking/text_chunker.py:45 | putting the consumed separators back between the raw pieces gives the text again; every separator is a non-empty whitespace run that directly follows a piece ending in `.`, `!` or `?`, and the next piece does not start with whitespace |
| SentenceSplitter.SentencesEndInTerminal | Scripts/chunking/text_chunker.py:45-46 | every sentence except the last ends in `.`, `!` or `?`: the text is cut only after a terminal |
| SlidingWindow.LastTokens | Scripts/chunking/text_chunker.py:117 | the overlap is the last `min(n, len)` tokens of the encoding |
| SlidingWindow.OverlapSeed | Scripts/chunking/text_chunker.py:106-123 | with overlap off, the next group starts empty at 0 tokens; otherwise it starts with the sentences of the decoded token tail, counted by re-encoding that text |
| SlidingWindow.GroupsNonEmpty | Scripts/chunking/text_chunker.py:74-102 | every emitted group has a sentence, and there is a group exactly when there is a sentence |
| SlidingWindow.GroupsTrimmed | Scripts/chunking/text_chunker.py:74-102 | groups hold only stripped, non-empty sentences when the input sentences are |
| SlidingWindow.GroupsReconstruct | Scripts/chunking/text_chunker.py:74-102 | each group begins with the overlap seed of the group before it; dropping the seeds gives back the input sentences exactly, in order |
| SlidingWindow.GroupsPartitionWithoutOverlap | Scripts/chunking/text_chunker.py:74-111 | with overlap off, the groups concatenate to the sentence list: a partition |
| SlidingWindow.GroupsWithinLimitWithoutOverlap | Scripts/chunking/text_chunker.py:77-94 | with overlap off, a group over `chunk_size` tokens is a single sentence: sentences are never split |
| SlidingWindow.GroupsFlushOnlyWhenFull | Scripts/chunking/text_chunker.py:74-94 | with overlap off, the packing is greedy: each group after the first was started because its first sentence would have pushed the previous group past `chunk_size` |
| SectionTagger.TagWith | Scripts/chunking/text_chunker.py:148-193 | the label is that of the first rule with a keyword in the lower-cased text, and `general` when no rule hits |
| SectionTagger.ResumeWorkKeywordWins | Scripts/chunking/text_chunker.py:150-153 | any text containing `work` is labelled `work_experience`, whatever else it contains |
| SectionTagger.ResumeSkillKeyword | Scripts/chunking/text_chunker.py:150-157 | `skill` labels `skills` once neither earlier rule hits |
| SectionTagger.LinkedInNoKeywordIsGeneral | Scripts/chunking/text_chunker.py:165-180 | a LinkedIn text with no keyword is labelled `general` |
| SectionTagger.GitHubRepoKeywordWins | Scripts/chunking/text_chunker.py:182-187 | any GitHub text containing `repo` is labelled `repositories` |
| JsonToText.ResumeToText | Scripts/chunking/text_chunker.py:230-270 | the text is empty exactly when the résumé has no field set; every line of every block appears in it, blocks in the order basic fields, work experience, skills, projects, certifications, and lines within a block in list order |
| JsonToText.ResumeTextOrder | Scripts/chunking/text_chunker.py:243-268 | every position line appears, positions in list order, all before the skills line and every project line; the skills line comes before every project; every project comes before the certifications line |
| JsonToText.LinkedInToText | Scripts/chunking/text_chunker.py:272-326 | the text is empty exactly when the profile has no field set; every line of every block appears in it, blocks in the order basic fields, positions, education, skills, certifications, honors and awards, and lines within a block in list order |
| JsonToText.LinkedInTextOrder | Scripts/chunking/text_chunker.py:285-324 | every degree line appears, degrees in list order, after every position and before the skills line; the skills line comes before every certification; every certification comes before every honor |
| JsonToText.GitHubToText | Scripts/chunking/text_chunker.py:328-346 | the text is empty exactly when there is no repository; otherwise it opens with `GitHub Repositories:` and contains every repository's line |
| JsonToText.GitHubTextOrder | Scripts/chunking/text_chunker.py:334-344 | the repository lines appear in list order: an earlier repository's line occurs before a later one's |
| TextChunks.SectionFor | Scripts/chunking/text_chunker.py:138-144 | a section label is added exactly for the source types `resume`, `linkedin` and `github` |
| TextChunks.ChunkText | Scripts/chunking/text_chunker.py:48-146 | as written: no chunk exactly for a blank text; chunks are numbered from 0, stripped, and carry their own token count; with a caller dictionary every chunk carries the last chunk's section label, and without one each carries its own |
| TextChunks.ChunkTextPerChunk | Scripts/chunking/text_chunker.py:48-146 | the same chunks, each labelled with the section of its own text |
| TextChunks.AliasingOnlyAffectsMetadata | Scripts/chunking/text_chunker.py:130-144 | the two versions agree on count and texts; they agree everywhere without a caller dictionary and always on the last chunk |
| TextChunks.ChunksKeepTextWithoutOverlap | Scripts/chunking/text_chunker.py:60-104 | with overlap off, the chunk texts hold exactly the non-space characters of the input, in order |
| TextChunks.ChunkJsonData | Scripts/chunking/text_chunker.py:195-215 | as written: the profile's text is chunked under `original_json_keys`/`source_type` metadata, and every chunk shares the last chunk's metadata, whose `section` is the label of the last chunk's text |
| TextChunks.ChunkJsonDataPerChunk | Scripts/chunking/text_chunker.py:195-215 | corrected: every chunk keeps the keys and source type and carries the section label of its own text |
| AliasingExample.AliasingMislabels | Scripts/chunking/text_chunker.py:130-144 | for `"Work. Degree."` under a 10-token limit with a caller dictionary, the as-written chunker labels a chunk `education` whose own label is `work_experience` |
| StructuredFormat.FormatBasicInfo | Scripts/chunking/structured_chunker.py:310-319 | ends with `.` and opens with `Name: …` when the name is set |
| StructuredFormat.FormatLinkedInBasicInfo | Scripts/chunking/structured_chunker.py:321-330 | ends with `.` and opens with `Name: …` when the name is set |
| StructuredFormat.FormatWorkExperience | Scripts/chunking/structured_chunker.py:332-352 | opens with `designation at company`; the date range follows exactly when both dates are set; a set description appears as its own sentence |
| StructuredFormat.FormatProject | Scripts/chunking/structured_chunker.py:354-366 | opens with `Project: name` when named, and is just `.` when name and description are both empty |
| StructuredFormat.FormatSkills | Scripts/chunking/structured_chunker.py:368-370 | opens with `Technical Skills: ` and ends with `.` |
| StructuredFormat.FormatCertifications | Scripts/chunking/structured_chunker.py:372-374 | opens with `Certifications: ` and ends with `.` |
| StructuredFormat.FormatEducation | Scripts/chunking/structured_chunker.py:376-394 | opens with the degree, followed by ` in field` when a field is set |
| StructuredFormat.FormatCertification | Scripts/chunking/structured_chunker.py:396-411 | opens with `Certification: name` and ends with `.` |
| StructuredFormat.FormatAward | Scripts/chunking/structured_chunker.py:413-428 | opens with `Award: name` and ends with `.` |
| StructuredFormat.FormatRepository | Scripts/chunking/structured_chunker.py:430-456 | opens with `GitHub Repository: name` and ends with `.` |
| StructuredFormat.FormatWorkExperienceSummary | Scripts/chunking/structured_chunker.py:462-481 | opens with the header counting the positions, and contains ` i. entry` for every position, numbered from 1 |
| StructuredFormat.FormatProjectsSummary | Scripts/chunking/structured_chunker.py:483-499 | counted header, every project numbered from 1, and ends with the `Total: N completed projects …` trailer |
| StructuredFormat.FormatEducationSummary | Scripts/chunking/structured_chunker.py:501-522 | counted header and every degree numbered from 1 |
| StructuredFormat.FormatCertificationsSummary | Scripts/chunking/structured_chunker.py:524-541 | counted header and every certification numbered from 1 |
| StructuredFormat.FormatAwardsSummary | Scripts/chunking/structured_chunker.py:543-560 | counted header and every award numbered from 1 |
| PortfolioOverview.LexTotal | Scripts/chunking/structured_chunker.py:582 | Python's string order is total on distinct strings (with `LexIrreflexive` and `LexTransitive`, a strict total order) |
| PortfolioOverview.InsertAll | Scripts/chunking/structured_chunker.py:567-570 | inserting into a sorted duplicate-free list keeps it so and adds exactly the inserted elements |
| PortfolioOverview.SortedUnique | Scripts/chunking/structured_chunker.py:582 | two strictly sorted lists with the same elements are equal, so `sorted(set)` has exactly one answer |
| PortfolioOverview.SortedLanguages | Scripts/chunking/structured_chunker.py:566-582 | the languages line lists, strictly sorted, exactly the languages some repository uses |
| PortfolioOverview.Described | Scripts/chunking/structured_chunker.py:573 | the key-project filter keeps exactly the repositories with a description |
| PortfolioOverview.DescribedAppend | Scripts/chunking/structured_chunker.py:573 | the filter keeps input order: it distributes over concatenation |
| PortfolioOverview.KeyProjects | Scripts/chunking/structured_chunker.py:572-576 | the first `min(10, k)` described repositories, all of them when there are at most ten |
| PortfolioOverview.FormatRepositoriesSummary | Scripts/chunking/structured_chunker.py:562-586 | the text is the space-joined parts: counted header, `Key Projects:`, exactly the bullets of the key projects (at most ten, in order), the languages line if and only if some repository lists a language, and the `Total:` trailer |
| StructuredChunker.ResumeChunkCount | Scripts/chunking/structured_chunker.py:30-130 | the exact number of résumé chunks; all are tagged `resume`, in section order |
| StructuredChunker.ResumeBasicInfo | Scripts/chunking/structured_chunker.py:41-54 | one basic-info chunk exactly when name, e-mail or LinkedIn URL is set |
| StructuredChunker.ResumeWorkChunks | Scripts/chunking/structured_chunker.py:56-80 | one chunk per position, in order, with `item_index` i and the position as content; a summary exactly when summaries are on and there is a position |
| StructuredChunker.ResumeProjectChunks | Scripts/chunking/structured_chunker.py:82-106 | one chunk per project with `item_index` 0..n-1 and the project's own text; the summary chunk exists exactly when summaries are on and there is a project, and carries the summary text and all projects |
| StructuredChunker.ResumeSkills | Scripts/chunking/structured_chunker.py:108-117 | one skills chunk exactly when the list is non-empty |
| StructuredChunker.ResumeCertifications | Scripts/chunking/structured_chunker.py:119-128 | one certification-names chunk exactly when the list is non-empty |
| StructuredChunker.ResumeWorkTexts | Scripts/chunking/structured_chunker.py:56-66 | with the source's helpers, each position chunk's text is `_format_work_experience` of it |
| StructuredChunker.LinkedInChunkShape | Scripts/chunking/structured_chunker.py:132-270 | every LinkedIn chunk is tagged `linkedin`, in section order |
| StructuredChunker.LinkedInNoSummariesWhenOff | Scripts/chunking/structured_chunker.py:167-268 | with summaries off, no summary section appears |
| StructuredChunker.LinkedInBasicInfo | Scripts/chunking/structured_chunker.py:140-153 | one basic-info chunk exactly when name, headline or location is set |
| StructuredChunker.LinkedInWorkChunks | Scripts/chunking/structured_chunker.py:155-179 | one numbered chunk per position, in order, and the summary exactly when summaries are on and there is a position |
| StructuredChunker.LinkedInEducationChunks | Scripts/chunking/structured_chunker.py:181-191 | one numbered chunk per degree, in order |
| StructuredChunker.LinkedInEducationSummary | Scripts/chunking/structured_chunker.py:193-205 | the education summary exactly when summaries are on and there is a degree |
| StructuredChunker.LinkedInSkills | Scripts/chunking/structured_chunker.py:207-216 | one skills chunk exactly when the list is non-empty |
| StructuredChunker.LinkedInCertificationChunks | Scripts/chunking/structured_chunker.py:218-228 | one numbered chunk per certification, in order |
| StructuredChunker.LinkedInCertificationsSummary | Scripts/chunking/structured_chunker.py:230-242 | the certifications summary exactly when summaries are on and there is a certification |
| StructuredChunker.LinkedInAwardChunks | Scripts/chunking/structured_chunker.py:244-254 | one numbered chunk per honor or award, in order |
| StructuredChunker.LinkedInAwardsSummary | Scripts/chunking/structured_chunker.py:256-268 | the awards summary exactly when summaries are on and there is an award |
| StructuredChunker.LinkedInEducationTexts | Scripts/chunking/structured_chunker.py:181-191 | with the source's helpers, each degree chunk's text is `_format_education` of it |
| StructuredChunker.GitHubChunks | Scripts/chunking/structured_chunker.py:272-306 | one numbered chunk per repository, in order, then the overview exactly when summaries are on and there is a repository |
| StructuredChunker.GitHubChunkTexts | Scripts/chunking/structured_chunker.py:280-304 | with the source's helpers, each repository chunk's text is `_format_repository` of it and the overview is `_format_repositories_summary` |
| ChunkingConfig.Defaults | Scripts/chunking/chunking_config.py:7-26 | 512-token chunks, a 50-token overlap and the gpt-3.5-turbo tokenizer; the overlap is smaller than the chunk; the sliding window is current |
| ChunkingConfig.GetChunkingConfig | Scripts/chunking/chunking_config.py:78-80 | the copy has the stored keys and values |
| ChunkingConfig.UpdateChunkingConfig | Scripts/chunking/chunking_config.py:90-93 | a dictionary merge: new keys win, other keys are kept, the strategy is untouched |
| ChunkingConfig.UpdateTwice | Scripts/chunking/chunking_config.py:90-93 | two updates are one update with the merged arguments |
| ChunkingConfig.UpdateIdempotent | Scripts/chunking/chunking_config.py:90-93 | an empty update changes nothing, and repeating an update changes nothing more |
| ChunkingConfig.SetChunkingStrategy | Scripts/chunking/chunking_config.py:95-101 | succeeds exactly for a name in the table, which then becomes current with the settings untouched; otherwise an `Unknown strategy:` error |
| ChunkingConfig.UnknownStrategyMessage | Scripts/chunking/chunking_config.py:100-101 | the error names the strategy and lists the three known names in table order |
| ChunkingConfig.AfterSet | Scripts/chunking/chunking_config.py:95-101 | a rejected name leaves the state as it was |
| ChunkingConfig.GetCurrentStrategy | Scripts/chunking/chunking_config.py:86-88 | the lookup yields one of the table's entries |
| ChunkingConfig.FailedSetKeepsStrategy | Scripts/chunking/chunking_config.py:86-101 | after a rejected switch the lookup returns what it returned before |
| ChunkingConfig.SetThenGet | Scripts/chunking/chunking_config.py:86-99 | after an accepted switch the lookup returns the chosen entry |
| ChunkingConfig.PlaceholdersAccepted | Scripts/chunking/chunking_config.py:60-73 | the two strategies without an implementation are accepted like the real one |
| ChunkingConfig.RunKeepsValid | Scripts/chunking/chunking_config.py:86-101 | any sequence of calls keeps the current name in the table |
| ChunkingConfig.ReachableValid | Scripts/chunking/chunking_config.py:75-101 | from the import-time state, `get_current_strategy` never fails |
| ChunkingConfig.RunSeparatesConcerns | Scripts/chunking/chunking_config.py:90-93 | settings updates never move the strategy |
| ChunkingConfig.SwitchesKeepConfig | Scripts/chunking/chunking_config.py:95-101 | strategy switches, accepted or not, never touch the settings |
| ResponseFormat.BoldSpan | Backend/app.py:168 | `**x**` on one line with no asterisk inside becomes `<b>x</b>` |
| ResponseFormat.BoldSubNoMatch | Backend/app.py:168 | where no `**…**` pair sits on one line, the bold pass changes nothing |
| ResponseFormat.BoldSubDropsStars | Backend/app.py:168 | where a pair exists, the bold pass removes at least four asterisks |
| ResponseFormat.BoldSubStars | Backend/app.py:168 | the bold pass never adds an asterisk |
| ResponseFormat.BoldSubKeepsNewlines | Backend/app.py:168 | the bold pass keeps every newline |
| ResponseFormat.BulletLine | Backend/app.py:169 | `*x` up to its newline becomes `<ul><li>x</li></ul>`, consuming the newline |
| ResponseFormat.BulletSubNoMatch | Backend/app.py:169 | with no asterisk before a later newline, the bullet pass changes nothing |
| ResponseFormat.BulletSubNewlines | Backend/app.py:169 | the bullet pass never adds a newline, and removes one when a bullet matches |
| ResponseFormat.FormatTextStarFree | Backend/app.py:167-170 | a reply without asterisks is returned unchanged |
| ResponseFormat.FormatTextNewlines | Backend/app.py:167-170 | formatting never adds newlines, and keeps all of them exactly when no bullet survives the bold pass |
| Conversation.SliceFrom | Backend/app.py:179 | Python's `xs[start:]`: a suffix, `min(-start, len)` long for a negative start |
| Conversation.GetConversationContext | Backend/app.py:173-181 | as written: no history gives `""`, and a history within the limit is returned as it is |
| Conversation.GetConversationContextBounded | Backend/app.py:173-181 | corrected: the words of the result are the last `min(n, max(0, limit))` words of the history |
| Conversation.ContextKeepsLastWords | Backend/app.py:176-179 | for a positive limit both readings agree, and an over-long history keeps exactly its last `limit` words |
| Conversation.ZeroLimitKeepsEverything | Backend/app.py:177-179 | with a limit of 0 the code keeps every word, and the corrected reading keeps none |
| Conversation.SaveConversationContext | Backend/app.py:184-188 | the exchange is appended after a newline, or starts the history |
| Conversation.TurnWords | Backend/app.py:186-188 | the words of a stored exchange are `User:`, the message's words, `Bot:`, then the reply's words |
| Conversation.SavedWords | Backend/app.py:184-188 | saving appends exactly the exchange's words after the history's words |
| Conversation.ReplySurvivesTruncation | Backend/app.py:173-188 | read back under any limit at least the reply's length, the context ends with the reply's words |
| Retrieval.SliceTo | Backend/app.py:229 | Python's `xs[:stop]`: a prefix of length `min(stop, len)` |
| Retrieval.Query | Backend/app.py:205-214 | the search asks for `no_of_docs` results among 49 candidates, with the query vector |
| Retrieval.FindSimilarDocuments | Backend/app.py:191-243 | a prefix of the search's documents, cut to `no_of_docs`; no documents when the search raises |
| Retrieval.SourceTag | Backend/app.py:441-452 | the tag opens with `[Source: ` and ends with `]` |
| Retrieval.SourceTagDefaults | Backend/app.py:442-451 | each missing key falls back on its own, whatever the other two hold: no `source_type` opens the tag with `[Source: unknown - `, no `section` puts ` - general - Chunk ` in it, no `chunk_index` ends it with ` - Chunk 0]`; with all three missing the tag is `[Source: unknown - general - Chunk 0]` |
| Retrieval.EntryOf | Backend/app.py:437-453 | a document contributes nothing exactly when it lacks `chunk_text`; otherwise its tag, its text and a blank line |
| Retrieval.CombinedTextsInOrder | Backend/app.py:450-453 | the block is the documents' entries concatenated in result order |
| Retrieval.CombinedTextsHasEntry | Backend/app.py:437-453 | every document with text appears, tagged, in the block |
| Retrieval.CombinedTextsEmptyIff | Backend/app.py:437-453 | the block is empty exactly when no document has text |
| Chat.Classification | Backend/app.py:394-404 | without a client, or when the call fails, the label is `casual`; with a client the classifier is called once |
| Chat.Answer | Backend/app.py:511-523 | 200 exactly when the client exists and generation succeeds, with the formatted text; otherwise the generation error; generation is the last call |
| Chat.Retrieve | Backend/app.py:406-466 | the retrieval branch keeps the earlier calls, embeds the message next, and answers 200 or 500 |
| Chat.Chat | Backend/app.py:342-527 | every response is 200, 400 or 500 |
| Chat.Dispatch | Backend/app.py:406-509 | every branch keeps the calls already made and answers 200 or 500 |
| Chat.GuardsAnswerDirectly | Backend/app.py:344-372 | preflight gives an empty 200; no database gives the 500 message, checked before the message; an empty message gives 400; none makes a call or builds a prompt |
| Chat.AdmittedProceeds | Backend/app.py:367-523 | an admitted request always makes a call or builds a prompt, and never gets 400 |
| Chat.GuardsComeFirst | Backend/app.py:344-372 | the guarded requests are exactly those answered without a call or a prompt, and 400 means exactly an empty message |
| Chat.ClassificationFirst | Backend/app.py:380-400 | with a client, the classifier is the first call of every admitted request |
| Chat.ClassifierFailureIsCasual | Backend/app.py:402-404 | a failing classifier leads to the casual prompt |
| Chat.BranchSelection | Backend/app.py:406-509 | `context-specific` in the label leads to the embedding call; else `casual` to the casual prompt; else the generic prompt |
| Chat.EmptyEmbeddingStops | Backend/app.py:408-413 | an empty embedding ends the request with the processing error, with no search, no generation and no prompt |
| Chat.RetrieveSearches | Backend/app.py:415-466 | after a non-empty embedding, the next call searches for 3 documents among 49 candidates; no documents gives the no-information prompt, documents give the prompt with their block |
| Chat.RetrievalPrompt | Backend/app.py:406-466 | the same from the route: the third call is the search, and the prompt depends on whether documents came back |
| Chat.AnswerDecided | Backend/app.py:511-523 | answering satisfies `GenerationDecides` (next row) |
| Chat.SuccessOnlyThroughGeneration | Backend/app.py:342-527 | for a POST: 200 exactly when a prompt was built and the generator answered it; the reply is then the formatted answer and generation was the last call; any other outcome after a prompt is the generation error |
| Chat.PromptHeads | Backend/app.py:425-509 | the retrieval prompt with documents opens with the information block; the other prompts open with the conversation history and never with the information block |

## Left out

- Tokenizer: tiktoken and its model-name lookup are a parameter with no assumed properties. `count_tokens` is the length of `encode`.
- `str.lower()` is modelled on ASCII letters only, as `TextUtil.LowerAscii`. Every keyword the section tagger looks for is ASCII. A non-ASCII capital letter that lowers to ASCII could still change a label.
- `_json_to_text` falls back to `json.dumps` for an unknown source type. That fallback is left out: a profile is always one of the three sources. The `isinstance(json_data, dict)` check is also left out, because the record is always a dictionary here.
- The section-keyword table and `get_section_keywords` (chunking_config.py:29-49, 82-84) are left out. Nothing in the core reads them; the tagger has its own keyword lists.
- Settings that are only stored are not given meaning: `max_chunks_per_query`, `min_chunk_score`, `embedding_delay` and the metadata flags.
- `ChunkingConfig` models module globals as a state value that each call takes and returns. The `.copy()` of `get_chunking_config` is automatic for values.
- Not modelled in `app.py`:
  - the Flask app, CORS, `/health`, `/debug-vector-search` and the Mongo bootstrap;
  - logging;
  - the `session_id` argument, which is unused.
- The raw-body fallback parser of `/chat` (app.py:354-365) is left out. The request arrives already parsed into its message and history.
- `$match` with the default empty query filters nothing, and is not modelled. Nor is the `score` field.
- A `metadata` field that is not a dictionary would make the route's `.get` raise. That path is left out: `Doc.section` is already the looked-up value.
- The Gemini and Fireworks clients are parameters.
  - `generate` returning `None` stands for any exception, or a missing `.text`.
  - `EmbedOutcome.EmbedClientError` stands for an exception while building the embedding client. Only the outer handler catches it.
- The route does not rewrite the query: the message itself is embedded (Backend/app.py:408-409).
- The search uses a fixed `numCandidates` of 49 and asks for 3 documents (Backend/app.py:211, 413-418).
- The generator receives only the prompt. The history reaches it inside the prompt text (Backend/app.py:513-516).
- An exception while building the embedding client reaches the outer handler as a 500 `Internal server error` (Backend/app.py:408, 525-527). It does not produce the processing-issue reply.
- The session helpers are not called from `/chat`. `Conversation` models them on their own.
- `Chat.Retrieve`: its own contract states only the call-order and status facts. The prompt and the reply are stated by `RetrieveSearches`, `EmptyEmbeddingStops` and `SuccessOnlyThroughGeneration`.
- StructuredFormat.FormatBasicInfo, FormatLinkedInBasicInfo, FormatProject, FormatSkills, FormatCertifications, FormatEducation, FormatCertification, FormatAward, FormatRepository: each contract states how the text opens and that it ends with `.`, not the full text. The full text is the function itself.
- StructuredFormat.FormatEducationSummary, FormatCertificationsSummary, FormatAwardsSummary: each contract states the counted header and every numbered entry, not their separators.
- StructuredChunker.LinkedInChunkShape: states tagging and section order but not the total count. The count follows from the per-section lemmas, one per LinkedIn section.

## Findings

| source | as written | input that shows it | evidently intended | confidence | as-written member | corrected member |
|---|---|---|---|---|---|---|
| Scripts/chunking/text_chunker.py:135-144 | `metadata or {}` keeps the caller's dictionary, and the section label is written into it. With a non-empty dictionary, as `chunk_json_data` always passes, every chunk shares one dictionary and ends up with the last chunk's label | `"Work. Degree."`, chunk size 10, one token per character, a caller dictionary: the first chunk `Work.` is labelled `education` | each chunk labelled by its own text | not executed | TextChunks.ChunkText, AliasingExample.AliasingMislabels | TextChunks.ChunkTextPerChunk, TextChunks.ChunkJsonDataPerChunk |
| Backend/app.py:177-179 | `split()[-max_tokens:]` with `max_tokens == 0` is `[-0:]`, the whole list, so every word is kept | any history with at least one word, `max_tokens=0` | at most `max_tokens` words, so none | not executed | Conversation.GetConversationContext, Conversation.ZeroLimitKeepsEverything | Conversation.GetConversationContextBounded |
