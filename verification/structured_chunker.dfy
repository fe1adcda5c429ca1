/** `StructuredChunker.chunk_resume`, `chunk_linkedin` and `chunk_github`:
    one chunk per list element (numbered by `item_index`), an optional
    summary chunk after each non-empty list, and single chunks for basic
    information, skills and the resume's certification names. */
module StructuredChunker {
  import opened Wrappers
  import opened TextUtil
  import opened Profiles
  import opened StructuredFormat
  import opened PortfolioOverview

  /** The `content` dictionary of a chunk. */
  datatype Content =
    | ResumeBasic(fullName: string, emailAddress: string, linkedinUrl: string)
    | LinkedInBasic(fullName: string, headline: string, location: string)
    | WorkItem(work: WorkExperience)
    | ProjectItem(project: Project)
    | EducationItem(education: Education)
    | CertificationItem(certification: Certification)
    | AwardItem(award: Award)
    | RepositoryItem(repository: Repository)
    | WorkAll(allExperiences: seq<WorkExperience>, total: nat)
    | ProjectsAll(allProjects: seq<Project>, total: nat)
    | EducationAll(allEducation: seq<Education>, total: nat)
    | CertificationsAll(allCertifications: seq<Certification>, total: nat)
    | AwardsAll(allAwards: seq<Award>, total: nat)
    | RepositoriesAll(allRepositories: seq<Repository>, total: nat)
    | SkillList(skills: seq<string>)
    | CertificationNames(names: seq<string>)

  /** The `source_type` of a chunk. */
  datatype Source = ResumeSource | LinkedInSource | GitHubSource

  function SourceName(s: Source): string {
    match s
    case ResumeSource => "resume"
    case LinkedInSource => "linkedin"
    case GitHubSource => "github"
  }

  /** The `section` of a chunk. */
  datatype Section =
    | BasicInfo | WorkEntries | WorkSummary | Projects | ProjectsSummary
    | EducationEntries | EducationSummary | Skills | Certifications | CertificationsSummary
    | HonorsAwards | HonorsAwardsSummary | Repositories | RepositoriesSummary

  function SectionName(s: Section): string {
    match s
    case BasicInfo => "basic_info"
    case WorkEntries => "work_experience"
    case WorkSummary => "work_experience_summary"
    case Projects => "projects"
    case ProjectsSummary => "projects_summary"
    case EducationEntries => "education"
    case EducationSummary => "education_summary"
    case Skills => "skills"
    case Certifications => "certifications"
    case CertificationsSummary => "certifications_summary"
    case HonorsAwards => "honors_awards"
    case HonorsAwardsSummary => "honors_awards_summary"
    case Repositories => "repositories"
    case RepositoriesSummary => "repositories_summary"
  }

  /** The `chunk_type` the chunkers write, fixed by source and section: the
      source's name, an underscore, and the section's name with the item
      sections in the singular (a resume's certification names form one
      chunk, so theirs stays plural). */
  function ChunkType(source: Source, section: Section): string {
    SourceName(source) + "_" +
    match section
    case BasicInfo => "basic_info"
    case WorkEntries => "work_experience"
    case WorkSummary => "work_experience_summary"
    case Projects => "project"
    case ProjectsSummary => "projects_summary"
    case EducationEntries => "education"
    case EducationSummary => "education_summary"
    case Skills => "skills"
    case Certifications => if source == LinkedInSource then "certification" else "certifications"
    case CertificationsSummary => "certifications_summary"
    case HonorsAwards => "honor_award"
    case HonorsAwardsSummary => "honors_awards_summary"
    case Repositories => "repository"
    case RepositoriesSummary => "repositories_summary"
  }

  /** A chunk's `chunk_type` is its `content`'s kind; its metadata carry
      `source_type`, `section` and, for list items, `item_index`. */
  datatype StructuredChunk = StructuredChunk(
    sourceType: Source, section: Section, content: Content, chunkText: string, itemIndex: Option<nat>)
  {
    function ChunkTypeName(): string {
      ChunkType(sourceType, section)
    }
  }

  // The `content` builders, named so that blocks can refer to them.
  function ResumeBasicContent(r: Resume): Content { ResumeBasic(r.fullName, r.emailAddress, r.linkedinUrl) }
  function LinkedInBasicContent(l: LinkedIn): Content { LinkedInBasic(l.fullName, l.headline, l.location) }
  function WorkContent(e: WorkExperience): Content { WorkItem(e) }
  function WorkAllContent(es: seq<WorkExperience>, n: nat): Content { WorkAll(es, n) }
  function ProjectContent(p: Project): Content { ProjectItem(p) }
  function ProjectsAllContent(ps: seq<Project>, n: nat): Content { ProjectsAll(ps, n) }
  function SkillsContent(ss: seq<string>): Content { SkillList(ss) }
  function CertificationNamesContent(ns: seq<string>): Content { CertificationNames(ns) }
  function EducationContent(e: Education): Content { EducationItem(e) }
  function EducationAllContent(es: seq<Education>, n: nat): Content { EducationAll(es, n) }
  function CertificationContent(c: Certification): Content { CertificationItem(c) }
  function CertificationsAllContent(cs: seq<Certification>, n: nat): Content { CertificationsAll(cs, n) }
  function AwardContent(a: Award): Content { AwardItem(a) }
  function AwardsAllContent(as_: seq<Award>, n: nat): Content { AwardsAll(as_, n) }
  function RepositoryContent(r: Repository): Content { RepositoryItem(r) }
  function RepositoriesAllContent(rs: seq<Repository>, n: nat): Content { RepositoriesAll(rs, n) }

  /** One chunk per element, with `item_index` its position. */
  function Items<T>(source: Source, section: Section,
                    xs: seq<T>, content: T -> Content, text: T -> string): (r: seq<StructuredChunk>)
    ensures |r| == |xs|
    ensures forall i :: 0 <= i < |r| ==>
              r[i] == StructuredChunk(source, section, content(xs[i]), text(xs[i]), Some(i))
  {
    seq(|xs|, i requires 0 <= i < |xs| =>
      StructuredChunk(source, section, content(xs[i]), text(xs[i]), Some(i)))
  }

  /** A single chunk without `item_index`, present when `present` holds. */
  function Single(present: bool, source: Source, section: Section, content: Content, text: string)
    : (r: seq<StructuredChunk>)
    ensures |r| == (if present then 1 else 0)
    ensures forall i :: 0 <= i < |r| ==> r[i] == StructuredChunk(source, section, content, text, None)
  {
    if present then [StructuredChunk(source, section, content, text, None)] else []
  }

  /** Every chunk of `b` comes from `source` and carries `section`. */
  predicate Uniform(b: seq<StructuredChunk>, source: Source, section: Section) {
    forall i :: 0 <= i < |b| ==> b[i].sourceType == source && b[i].section == section
  }

  /** The item chunks of a list, the summary chunk after it, and the
      guarded single chunks, each with the shape its builder promises. */
  function ItemBlock<T>(source: Source, section: Section,
                        xs: seq<T>, content: T -> Content, text: T -> string): (b: seq<StructuredChunk>)
    ensures |b| == |xs| && Uniform(b, source, section)
    ensures forall i :: 0 <= i < |b| ==>
              b[i].itemIndex == Some(i) && b[i].content == content(xs[i]) && b[i].chunkText == text(xs[i])
  {
    Items(source, section, xs, content, text)
  }

  function SummaryBlock<T>(includeSummaries: bool, source: Source, section: Section,
                           xs: seq<T>, content: (seq<T>, nat) -> Content, text: seq<T> -> string)
    : (b: seq<StructuredChunk>)
    ensures |b| == (if includeSummaries && |xs| > 0 then 1 else 0) && Uniform(b, source, section)
    ensures forall i :: 0 <= i < |b| ==>
              b[i].itemIndex == None && b[i].content == content(xs, |xs|) && b[i].chunkText == text(xs)
  {
    Single(includeSummaries && |xs| > 0, source, section, content(xs, |xs|), text(xs))
  }

  function GuardedBlock<T>(present: bool, source: Source, section: Section,
                           x: T, content: T -> Content, text: T -> string): (b: seq<StructuredChunk>)
    ensures |b| == (if present then 1 else 0) && Uniform(b, source, section)
    ensures forall i :: 0 <= i < |b| ==>
              b[i].itemIndex == None && b[i].content == content(x) && b[i].chunkText == text(x)
  {
    Single(present, source, section, content(x), text(x))
  }

  /** The `_format_*` helper each chunk's text comes from. The chunkers
      below take them as a record so that their block structure can be
      reasoned about apart from the wording; `Formats` holds the helpers
      the source calls. */
  datatype Formatters = Formatters(
    resumeBasic: Resume -> string,
    linkedInBasic: LinkedIn -> string,
    work: WorkExperience -> string,
    workSummary: seq<WorkExperience> -> string,
    project: Project -> string,
    projectsSummary: seq<Project> -> string,
    skills: seq<string> -> string,
    certificationNames: seq<string> -> string,
    education: Education -> string,
    educationSummary: seq<Education> -> string,
    certification: Certification -> string,
    certificationsSummary: seq<Certification> -> string,
    award: Award -> string,
    awardsSummary: seq<Award> -> string,
    repository: Repository -> string,
    repositoriesSummary: seq<Repository> -> string)

  const Formats: Formatters := Formatters(
    FormatBasicInfo, FormatLinkedInBasicInfo, FormatWorkExperience, FormatWorkExperienceSummary,
    FormatProject, FormatProjectsSummary, FormatSkills, FormatCertifications,
    FormatEducation, FormatEducationSummary, FormatCertification, FormatCertificationsSummary,
    FormatAward, FormatAwardsSummary, FormatRepository, FormatRepositoriesSummary)

  // ---------------------------------------------------------------------
  // The three chunkers, as a sequence of blocks each.

  const ResumeSections: seq<Section> := [
    BasicInfo, WorkEntries, WorkSummary, Projects, ProjectsSummary, Skills, Certifications]

  /** Block `k` of `chunk_resume`: basic information, positions, their
      summary, projects, their summary, skills, certification names. */
  function ResumeBlock(f: Formatters, r: Resume, includeSummaries: bool, k: nat): (b: seq<StructuredChunk>)
    requires k < |ResumeSections|
    ensures Uniform(b, ResumeSource, ResumeSections[k])
  {
    var es, ps, src, sec := r.workExperience, r.projects, ResumeSource, ResumeSections[k];
    if k == 0 then
      GuardedBlock(r.fullName != "" || r.emailAddress != "" || r.linkedinUrl != "", src, sec,
                   r, ResumeBasicContent, f.resumeBasic)
    else if k == 1 then ItemBlock(src, sec, es, WorkContent, f.work)
    else if k == 2 then
      SummaryBlock(includeSummaries, src, sec, es, WorkAllContent, f.workSummary)
    else if k == 3 then ItemBlock(src, sec, ps, ProjectContent, f.project)
    else if k == 4 then
      SummaryBlock(includeSummaries, src, sec, ps, ProjectsAllContent, f.projectsSummary)
    else if k == 5 then GuardedBlock(|r.skills| > 0, src, sec, r.skills, SkillsContent, f.skills)
    else
      GuardedBlock(|r.certifications| > 0, src, sec,
                   r.certifications, CertificationNamesContent, f.certificationNames)
  }

  function ResumeBlocks(f: Formatters, r: Resume, includeSummaries: bool): (bs: seq<seq<StructuredChunk>>)
    ensures Blocked(bs, ResumeSections, ResumeSource)
    ensures forall k :: 0 <= k < |bs| ==> bs[k] == ResumeBlock(f, r, includeSummaries, k)
  {
    seq(|ResumeSections|, k requires 0 <= k < |ResumeSections| => ResumeBlock(f, r, includeSummaries, k))
  }

  const LinkedInSections: seq<Section> := [
    BasicInfo, WorkEntries, WorkSummary, EducationEntries, EducationSummary,
    Skills, Certifications, CertificationsSummary, HonorsAwards, HonorsAwardsSummary]

  /** Block `k` of `chunk_linkedin`: basic information, positions, their
      summary, degrees, their summary, skills, certifications, their
      summary, honors and awards, their summary. */
  function LinkedInBlock(f: Formatters, l: LinkedIn, includeSummaries: bool, k: nat): (b: seq<StructuredChunk>)
    requires k < |LinkedInSections|
    ensures Uniform(b, LinkedInSource, LinkedInSections[k])
  {
    var es, ed, cs, as_, src, sec := l.workExperience, l.education, l.certifications, l.honorsAndAwards, LinkedInSource, LinkedInSections[k];
    if k == 0 then
      GuardedBlock(l.fullName != "" || l.headline != "" || l.location != "", src, sec,
                   l, LinkedInBasicContent, f.linkedInBasic)
    else if k == 1 then ItemBlock(src, sec, es, WorkContent, f.work)
    else if k == 2 then
      SummaryBlock(includeSummaries, src, sec, es, WorkAllContent, f.workSummary)
    else if k == 3 then ItemBlock(src, sec, ed, EducationContent, f.education)
    else if k == 4 then
      SummaryBlock(includeSummaries, src, sec, ed, EducationAllContent, f.educationSummary)
    else if k == 5 then GuardedBlock(|l.skills| > 0, src, sec, l.skills, SkillsContent, f.skills)
    else if k == 6 then ItemBlock(src, sec, cs, CertificationContent, f.certification)
    else if k == 7 then
      SummaryBlock(includeSummaries, src, sec,
                   cs, CertificationsAllContent, f.certificationsSummary)
    else if k == 8 then ItemBlock(src, sec, as_, AwardContent, f.award)
    else SummaryBlock(includeSummaries, src, sec, as_, AwardsAllContent, f.awardsSummary)
  }

  function LinkedInBlocks(f: Formatters, l: LinkedIn, includeSummaries: bool): (bs: seq<seq<StructuredChunk>>)
    ensures Blocked(bs, LinkedInSections, LinkedInSource)
    ensures forall k :: 0 <= k < |bs| ==> bs[k] == LinkedInBlock(f, l, includeSummaries, k)
  {
    seq(|LinkedInSections|, k requires 0 <= k < |LinkedInSections| => LinkedInBlock(f, l, includeSummaries, k))
  }

  const GitHubSections: seq<Section> := [Repositories, RepositoriesSummary]

  function GitHubBlocks(f: Formatters, g: GitHub, includeSummaries: bool): (bs: seq<seq<StructuredChunk>>)
    ensures |bs| == 2
  {
    var rs := g.repositories;
    [ ItemBlock(GitHubSource, Repositories, rs, RepositoryContent, f.repository),
      SummaryBlock(includeSummaries, GitHubSource, RepositoriesSummary,
                   rs, RepositoriesAllContent, f.repositoriesSummary) ]
  }

  /** `chunk_resume`. */
  function ChunkResume(f: Formatters, r: Resume, includeSummaries: bool): seq<StructuredChunk> {
    Concat(ResumeBlocks(f, r, includeSummaries))
  }

  /** `chunk_linkedin`. */
  function ChunkLinkedIn(f: Formatters, l: LinkedIn, includeSummaries: bool): seq<StructuredChunk> {
    Concat(LinkedInBlocks(f, l, includeSummaries))
  }

  /** `chunk_github`. */
  function ChunkGitHub(f: Formatters, g: GitHub, includeSummaries: bool): seq<StructuredChunk> {
    Concat(GitHubBlocks(f, g, includeSummaries))
  }

  function Concat(bs: seq<seq<StructuredChunk>>): (r: seq<StructuredChunk>)
    ensures |bs| == 0 ==> r == []
  {
    if |bs| == 0 then [] else bs[0] + Concat(bs[1..])
  }

  // ---------------------------------------------------------------------
  // Selecting the chunks of one section.

  /** The chunks whose `section` is `section`, in order. */
  function WithSection(cs: seq<StructuredChunk>, section: Section): (r: seq<StructuredChunk>)
    ensures |r| <= |cs|
    ensures forall c :: c in r <==> c in cs && c.section == section
  {
    if |cs| == 0 then []
    else
      var rest := WithSection(cs[1..], section);
      assert forall c :: c in cs <==> c == cs[0] || c in cs[1..];
      if cs[0].section == section then [cs[0]] + rest else rest
  }

  lemma {:induction false} WithSectionAppend(a: seq<StructuredChunk>, b: seq<StructuredChunk>, section: Section)
    ensures WithSection(a + b, section) == WithSection(a, section) + WithSection(b, section)
  {
    if |a| == 0 {
      assert a + b == b;
    } else {
      assert (a + b)[1..] == a[1..] + b;
      WithSectionAppend(a[1..], b, section);
    }
  }

  lemma {:induction false} WithSectionAll(cs: seq<StructuredChunk>, section: Section)
    requires forall i :: 0 <= i < |cs| ==> cs[i].section == section
    ensures WithSection(cs, section) == cs
  {
    if |cs| > 0 {
      WithSectionAll(cs[1..], section);
    }
  }

  lemma {:induction false} WithSectionNone(cs: seq<StructuredChunk>, section: Section)
    requires forall i :: 0 <= i < |cs| ==> cs[i].section != section
    ensures WithSection(cs, section) == []
  {
    if |cs| > 0 {
      WithSectionNone(cs[1..], section);
    }
  }


  // ---------------------------------------------------------------------
  // Facts about a concatenation of uniform blocks.

  /** `bs[k]` holds exactly the chunks of section `secs[k]`. */
  predicate Blocked(bs: seq<seq<StructuredChunk>>, secs: seq<Section>, sourceType: Source) {
    |bs| == |secs| && forall k :: 0 <= k < |bs| ==> Uniform(bs[k], sourceType, secs[k])
  }

  predicate Distinct(secs: seq<Section>) {
    forall i, j :: 0 <= i < j < |secs| ==> secs[i] != secs[j]
  }

  /** Position of a section in the chunker's emission order. */
  function Rank(secs: seq<Section>, section: Section): (k: nat)
    ensures section in secs ==> k < |secs| && secs[k] == section
  {
    if |secs| == 0 || secs[0] == section then 0 else 1 + Rank(secs[1..], section)
  }

  function SumLengths(bs: seq<seq<StructuredChunk>>): nat {
    if |bs| == 0 then 0 else |bs[0]| + SumLengths(bs[1..])
  }

  lemma BlockedTail(bs: seq<seq<StructuredChunk>>, secs: seq<Section>, sourceType: Source)
    requires |bs| > 0 && Blocked(bs, secs, sourceType)
    ensures Blocked(bs[1..], secs[1..], sourceType)
  {
    forall k | 0 <= k < |bs| - 1 ensures Uniform(bs[1..][k], sourceType, secs[1..][k]) {
      assert bs[1..][k] == bs[k + 1] && secs[1..][k] == secs[k + 1];
    }
  }

  /** Every chunk of the concatenation keeps its block's source type and
      carries one of the block sections; the length is the sum of the
      block lengths. */
  lemma {:induction false} ConcatShape(bs: seq<seq<StructuredChunk>>, secs: seq<Section>, sourceType: Source)
    requires Blocked(bs, secs, sourceType)
    ensures |Concat(bs)| == SumLengths(bs)
    ensures forall i :: 0 <= i < |Concat(bs)| ==>
              Concat(bs)[i].sourceType == sourceType && Concat(bs)[i].section in secs
  {
    if |bs| > 0 {
      BlockedTail(bs, secs, sourceType);
      ConcatShape(bs[1..], secs[1..], sourceType);
      var c := Concat(bs);
      forall i | 0 <= i < |c| ensures c[i].sourceType == sourceType && c[i].section in secs {
        if i < |bs[0]| {
          assert c[i] == bs[0][i];
        } else {
          assert c[i] == Concat(bs[1..])[i - |bs[0]|];
        }
      }
    }
  }

  /** Selecting the section of block `k` gives back exactly that block. */
  lemma {:induction false} ConcatWithSection(bs: seq<seq<StructuredChunk>>, secs: seq<Section>,
                                            sourceType: Source, k: nat)
    requires Blocked(bs, secs, sourceType) && Distinct(secs) && k < |bs|
    ensures WithSection(Concat(bs), secs[k]) == bs[k]
  {
    BlockedTail(bs, secs, sourceType);
    ConcatShape(bs[1..], secs[1..], sourceType);
    WithSectionAppend(bs[0], Concat(bs[1..]), secs[k]);
    if k == 0 {
      WithSectionAll(bs[0], secs[0]);
      forall i | 0 <= i < |Concat(bs[1..])| ensures Concat(bs[1..])[i].section != secs[0] {
        var s := Concat(bs[1..])[i].section;
        var j :| 0 <= j < |secs[1..]| && secs[1..][j] == s;
        assert secs[j + 1] == s;
      }
      WithSectionNone(Concat(bs[1..]), secs[0]);
      assert bs[0] + [] == bs[0];
    } else {
      assert secs[0] != secs[k];
      WithSectionNone(bs[0], secs[k]);
      assert Distinct(secs[1..]) by {
        forall i, j | 0 <= i < j < |secs[1..]| ensures secs[1..][i] != secs[1..][j] {
          assert secs[1..][i] == secs[i + 1] && secs[1..][j] == secs[j + 1];
        }
      }
      ConcatWithSection(bs[1..], secs[1..], sourceType, k - 1);
      assert bs[1..][k - 1] == bs[k] && secs[1..][k - 1] == secs[k];
    }
  }

  /** Chunks appear block by block: section ranks never decrease. */
  lemma {:induction false} ConcatOrdered(bs: seq<seq<StructuredChunk>>, secs: seq<Section>, sourceType: Source)
    requires Blocked(bs, secs, sourceType) && Distinct(secs)
    ensures forall i, j :: 0 <= i < j < |Concat(bs)| ==>
              Rank(secs, Concat(bs)[i].section) <= Rank(secs, Concat(bs)[j].section)
  {
    if |bs| > 0 {
      BlockedTail(bs, secs, sourceType);
      assert Distinct(secs[1..]) by {
        forall i, j | 0 <= i < j < |secs[1..]| ensures secs[1..][i] != secs[1..][j] {
          assert secs[1..][i] == secs[i + 1] && secs[1..][j] == secs[j + 1];
        }
      }
      ConcatOrdered(bs[1..], secs[1..], sourceType);
      ConcatShape(bs[1..], secs[1..], sourceType);
      var c, rest := Concat(bs), Concat(bs[1..]);
      forall i | 0 <= i < |rest|
        ensures Rank(secs, rest[i].section) == 1 + Rank(secs[1..], rest[i].section)
      {
        var j :| 0 <= j < |secs[1..]| && secs[1..][j] == rest[i].section;
        assert secs[j + 1] == rest[i].section;
      }
      forall i, j | 0 <= i < j < |c| ensures Rank(secs, c[i].section) <= Rank(secs, c[j].section) {
        if i < |bs[0]| {
          assert c[i] == bs[0][i];
          assert Rank(secs, c[i].section) == 0;
        } else {
          assert c[i] == rest[i - |bs[0]|] && c[j] == rest[j - |bs[0]|];
        }
      }
    }
  }

  // ---------------------------------------------------------------------
  // What each chunker emits.

  lemma ResumeSectionsDistinct()
    ensures Distinct(ResumeSections)
  {
  }

  lemma LinkedInSectionsDistinct()
    ensures Distinct(LinkedInSections)
  {
  }

  /** Selecting section `k` of a resume's chunks gives block `k`. */
  lemma ResumeSection(f: Formatters, r: Resume, includeSummaries: bool, k: nat)
    requires k < |ResumeSections|
    ensures WithSection(ChunkResume(f, r, includeSummaries), ResumeSections[k]) == ResumeBlock(f, r, includeSummaries, k)
  {
    var bs := ResumeBlocks(f, r, includeSummaries);
    ResumeSectionsDistinct();
    ConcatWithSection(bs, ResumeSections, ResumeSource, k);
  }

  lemma LinkedInSection(f: Formatters, l: LinkedIn, includeSummaries: bool, k: nat)
    requires k < |LinkedInSections|
    ensures WithSection(ChunkLinkedIn(f, l, includeSummaries), LinkedInSections[k]) == LinkedInBlock(f, l, includeSummaries, k)
  {
    var bs := LinkedInBlocks(f, l, includeSummaries);
    LinkedInSectionsDistinct();
    ConcatWithSection(bs, LinkedInSections, LinkedInSource, k);
  }

  lemma ResumeShapeOf(bs: seq<seq<StructuredChunk>>)
    requires Blocked(bs, ResumeSections, ResumeSource)
    ensures |Concat(bs)| == |bs[0]| + |bs[1]| + |bs[2]| + |bs[3]| + |bs[4]| + |bs[5]| + |bs[6]|
    ensures forall i :: 0 <= i < |Concat(bs)| ==>
              Concat(bs)[i].sourceType == ResumeSource && Concat(bs)[i].section in ResumeSections
    ensures forall i, j :: 0 <= i < j < |Concat(bs)| ==>
              Rank(ResumeSections, Concat(bs)[i].section) <= Rank(ResumeSections, Concat(bs)[j].section)
  {
    ResumeSectionsDistinct();
    ConcatShape(bs, ResumeSections, ResumeSource);
    ConcatOrdered(bs, ResumeSections, ResumeSource);
    SumLengthsUnfold(bs);
  }

  lemma SumLengthsUnfold(bs: seq<seq<StructuredChunk>>)
    requires |bs| == 7
    ensures SumLengths(bs) == |bs[0]| + |bs[1]| + |bs[2]| + |bs[3]| + |bs[4]| + |bs[5]| + |bs[6]|
  {
    var t := bs[1..];
    assert SumLengths(bs) == |bs[0]| + SumLengths(t);
    assert SumLengths(t) == |t[0]| + SumLengths(t[1..]);
    var u := t[1..];
    assert SumLengths(u) == |u[0]| + SumLengths(u[1..]);
    var v := u[1..];
    assert SumLengths(v) == |v[0]| + SumLengths(v[1..]);
    var w := v[1..];
    assert SumLengths(w) == |w[0]| + SumLengths(w[1..]);
    var x := w[1..];
    assert SumLengths(x) == |x[0]| + SumLengths(x[1..]);
    var y := x[1..];
    assert SumLengths(y) == |y[0]| + SumLengths(y[1..]);
    assert y[1..] == [];
  }

  lemma LinkedInShapeOf(bs: seq<seq<StructuredChunk>>)
    requires Blocked(bs, LinkedInSections, LinkedInSource)
    ensures forall i :: 0 <= i < |Concat(bs)| ==>
              Concat(bs)[i].sourceType == LinkedInSource && Concat(bs)[i].section in LinkedInSections
    ensures forall i, j :: 0 <= i < j < |Concat(bs)| ==>
              Rank(LinkedInSections, Concat(bs)[i].section) <= Rank(LinkedInSections, Concat(bs)[j].section)
  {
    LinkedInSectionsDistinct();
    ConcatShape(bs, LinkedInSections, LinkedInSource);
    ConcatOrdered(bs, LinkedInSections, LinkedInSource);
  }

  /** A resume yields one basic-info chunk when any of name, e-mail or
      LinkedIn URL is set, one chunk per position and per project, a
      summary after each non-empty list when summaries are on, and one
      chunk each for a non-empty skill list and certification list; all
      tagged `resume`, in that section order. */
  lemma ResumeChunkCount(f: Formatters, r: Resume, includeSummaries: bool)
    ensures var cs := ChunkResume(f, r, includeSummaries);
            && |cs| == (if r.fullName != "" || r.emailAddress != "" || r.linkedinUrl != "" then 1 else 0)
                       + |r.workExperience| + (if includeSummaries && |r.workExperience| > 0 then 1 else 0)
                       + |r.projects| + (if includeSummaries && |r.projects| > 0 then 1 else 0)
                       + (if |r.skills| > 0 then 1 else 0) + (if |r.certifications| > 0 then 1 else 0)
            && (forall i :: 0 <= i < |cs| ==> cs[i].sourceType == ResumeSource && cs[i].section in ResumeSections)
            && (forall i, j :: 0 <= i < j < |cs| ==>
                  Rank(ResumeSections, cs[i].section) <= Rank(ResumeSections, cs[j].section))
  {
    var bs := ResumeBlocks(f, r, includeSummaries);
    ResumeShapeOf(bs);
  }

  /** The work-experience chunks of a resume are one per position, in list
      order, with `item_index` 0..n-1 and the position's own text; the
      summary chunk exists exactly when summaries are on and there is a
      position. */
  lemma ResumeWorkChunks(f: Formatters, r: Resume, includeSummaries: bool)
    ensures var ws := WithSection(ChunkResume(f, r, includeSummaries), WorkEntries);
            && |ws| == |r.workExperience|
            && forall i :: 0 <= i < |ws| ==>
                 && ws[i].itemIndex == Some(i)
                 && ws[i].content == WorkItem(r.workExperience[i])
                 && ws[i].chunkText == f.work(r.workExperience[i])
    ensures var ss := WithSection(ChunkResume(f, r, includeSummaries), WorkSummary);
            && |ss| == (if includeSummaries && |r.workExperience| > 0 then 1 else 0)
            && forall i :: 0 <= i < |ss| ==>
                 ss[i].chunkText == f.workSummary(r.workExperience)
                 && ss[i].content == WorkAll(r.workExperience, |r.workExperience|)
  {
    ResumeSection(f, r, includeSummaries, 1);
    ResumeSection(f, r, includeSummaries, 2);
  }

  /** Likewise for projects: one chunk per project with its own text, and
      the summary chunk, with the summary text over all projects, exactly
      when summaries are on and there is a project. */
  lemma ResumeProjectChunks(f: Formatters, r: Resume, includeSummaries: bool)
    ensures var ps := WithSection(ChunkResume(f, r, includeSummaries), Projects);
            && |ps| == |r.projects|
            && forall i :: 0 <= i < |ps| ==>
                 && ps[i].itemIndex == Some(i)
                 && ps[i].content == ProjectItem(r.projects[i])
                 && ps[i].chunkText == f.project(r.projects[i])
    ensures var ss := WithSection(ChunkResume(f, r, includeSummaries), ProjectsSummary);
            && |ss| == (if includeSummaries && |r.projects| > 0 then 1 else 0)
            && forall i :: 0 <= i < |ss| ==>
                 ss[i].chunkText == f.projectsSummary(r.projects)
                 && ss[i].content == ProjectsAll(r.projects, |r.projects|)
  {
    ResumeSection(f, r, includeSummaries, 3);
    ResumeSection(f, r, includeSummaries, 4);
  }

  /** The basic-info chunk appears exactly when name, e-mail or LinkedIn
      URL is set. */
  lemma ResumeBasicInfo(f: Formatters, r: Resume, includeSummaries: bool)
    ensures var bi := WithSection(ChunkResume(f, r, includeSummaries), BasicInfo);
            && |bi| == (if r.fullName != "" || r.emailAddress != "" || r.linkedinUrl != "" then 1 else 0)
            && forall i :: 0 <= i < |bi| ==>
                 bi[i].content == ResumeBasic(r.fullName, r.emailAddress, r.linkedinUrl)
                 && bi[i].chunkText == f.resumeBasic(r)
  {
    ResumeSection(f, r, includeSummaries, 0);
  }

  /** The skills chunk appears exactly when the skill list is non-empty. */
  lemma ResumeSkills(f: Formatters, r: Resume, includeSummaries: bool)
    ensures var sk := WithSection(ChunkResume(f, r, includeSummaries), Skills);
            |sk| == (if |r.skills| > 0 then 1 else 0)
            && forall i :: 0 <= i < |sk| ==> sk[i].content == SkillList(r.skills) && sk[i].chunkText == f.skills(r.skills)
  {
    ResumeSection(f, r, includeSummaries, 5);
    assert ResumeBlock(f, r, includeSummaries, 5)
        == GuardedBlock(|r.skills| > 0, ResumeSource, Skills, r.skills, SkillsContent, f.skills);
  }

  /** The certification-names chunk appears exactly when there is a
      certification. */
  lemma ResumeCertifications(f: Formatters, r: Resume, includeSummaries: bool)
    ensures var cs := WithSection(ChunkResume(f, r, includeSummaries), Certifications);
            |cs| == (if |r.certifications| > 0 then 1 else 0)
            && forall i :: 0 <= i < |cs| ==>
                 cs[i].content == CertificationNames(r.certifications)
                 && cs[i].chunkText == f.certificationNames(r.certifications)
  {
    ResumeSection(f, r, includeSummaries, 6);
    assert ResumeBlock(f, r, includeSummaries, 6)
        == GuardedBlock(|r.certifications| > 0, ResumeSource, Certifications,
                        r.certifications, CertificationNamesContent, f.certificationNames);
  }

  /** A LinkedIn profile yields its chunks tagged `linkedin`, in section
      order. */
  lemma LinkedInChunkShape(f: Formatters, l: LinkedIn, includeSummaries: bool)
    ensures var cs := ChunkLinkedIn(f, l, includeSummaries);
            && (forall i :: 0 <= i < |cs| ==> cs[i].sourceType == LinkedInSource && cs[i].section in LinkedInSections)
            && (forall i, j :: 0 <= i < j < |cs| ==>
                  Rank(LinkedInSections, cs[i].section) <= Rank(LinkedInSections, cs[j].section))
  {
    LinkedInShapeOf(LinkedInBlocks(f, l, includeSummaries));
  }

  predicate IsLinkedInSummary(s: Section) {
    s == WorkSummary || s == EducationSummary || s == CertificationsSummary || s == HonorsAwardsSummary
  }

  /** With summaries off, no LinkedIn summary section appears at all. */
  lemma LinkedInNoSummariesWhenOff(f: Formatters, l: LinkedIn, s: Section)
    requires IsLinkedInSummary(s)
    ensures WithSection(ChunkLinkedIn(f, l, false), s) == []
  {
    var k := if s == WorkSummary then 2 else if s == EducationSummary then 4 else if s == CertificationsSummary then 7 else 9;
    LinkedInSection(f, l, false, k);
  }

  /** The basic-info chunk appears exactly when name, headline or location
      is set. */
  lemma LinkedInBasicInfo(f: Formatters, l: LinkedIn, includeSummaries: bool)
    ensures var bi := WithSection(ChunkLinkedIn(f, l, includeSummaries), BasicInfo);
            && |bi| == (if l.fullName != "" || l.headline != "" || l.location != "" then 1 else 0)
            && forall i :: 0 <= i < |bi| ==>
                 bi[i].content == LinkedInBasic(l.fullName, l.headline, l.location)
                 && bi[i].chunkText == f.linkedInBasic(l)
  {
    LinkedInSection(f, l, includeSummaries, 0);
  }

  /** The positions of a LinkedIn profile are chunked as a resume's are:
      one numbered chunk each, then the summary when summaries are on and
      there is a position. */
  lemma LinkedInWorkChunks(f: Formatters, l: LinkedIn, includeSummaries: bool)
    ensures var ws := WithSection(ChunkLinkedIn(f, l, includeSummaries), WorkEntries);
            && |ws| == |l.workExperience|
            && forall i :: 0 <= i < |ws| ==>
                 && ws[i].itemIndex == Some(i)
                 && ws[i].content == WorkItem(l.workExperience[i])
                 && ws[i].chunkText == f.work(l.workExperience[i])
    ensures var ss := WithSection(ChunkLinkedIn(f, l, includeSummaries), WorkSummary);
            && |ss| == (if includeSummaries && |l.workExperience| > 0 then 1 else 0)
            && forall i :: 0 <= i < |ss| ==>
                 ss[i].chunkText == f.workSummary(l.workExperience)
                 && ss[i].content == WorkAll(l.workExperience, |l.workExperience|)
  {
    LinkedInSection(f, l, includeSummaries, 1);
    LinkedInSection(f, l, includeSummaries, 2);
  }

  /** The skills chunk appears exactly when the skill list is non-empty. */
  lemma LinkedInSkills(f: Formatters, l: LinkedIn, includeSummaries: bool)
    ensures var sk := WithSection(ChunkLinkedIn(f, l, includeSummaries), Skills);
            |sk| == (if |l.skills| > 0 then 1 else 0)
            && forall i :: 0 <= i < |sk| ==> sk[i].content == SkillList(l.skills) && sk[i].chunkText == f.skills(l.skills)
  {
    LinkedInSection(f, l, includeSummaries, 5);
    assert LinkedInBlock(f, l, includeSummaries, 5)
        == GuardedBlock(|l.skills| > 0, LinkedInSource, Skills, l.skills, SkillsContent, f.skills);
  }

  /** The certifications summary appears exactly when summaries are on and
      there is a certification. */
  lemma LinkedInCertificationsSummary(f: Formatters, l: LinkedIn, includeSummaries: bool)
    ensures var ss := WithSection(ChunkLinkedIn(f, l, includeSummaries), CertificationsSummary);
            && |ss| == (if includeSummaries && |l.certifications| > 0 then 1 else 0)
            && forall i :: 0 <= i < |ss| ==>
                 ss[i].content == CertificationsAll(l.certifications, |l.certifications|)
                 && ss[i].chunkText == f.certificationsSummary(l.certifications)
  {
    LinkedInSection(f, l, includeSummaries, 7);
    assert LinkedInBlock(f, l, includeSummaries, 7)
        == SummaryBlock(includeSummaries, LinkedInSource, CertificationsSummary,
                        l.certifications, CertificationsAllContent, f.certificationsSummary);
  }

  /** The honors-and-awards summary appears exactly when summaries are on
      and there is an award. */
  lemma LinkedInAwardsSummary(f: Formatters, l: LinkedIn, includeSummaries: bool)
    ensures var ss := WithSection(ChunkLinkedIn(f, l, includeSummaries), HonorsAwardsSummary);
            && |ss| == (if includeSummaries && |l.honorsAndAwards| > 0 then 1 else 0)
            && forall i :: 0 <= i < |ss| ==>
                 ss[i].content == AwardsAll(l.honorsAndAwards, |l.honorsAndAwards|)
                 && ss[i].chunkText == f.awardsSummary(l.honorsAndAwards)
  {
    LinkedInSection(f, l, includeSummaries, 9);
    assert LinkedInBlock(f, l, includeSummaries, 9)
        == SummaryBlock(includeSummaries, LinkedInSource, HonorsAwardsSummary,
                        l.honorsAndAwards, AwardsAllContent, f.awardsSummary);
  }

  /** One education chunk per degree, in order and numbered. */
  lemma LinkedInEducationChunks(f: Formatters, l: LinkedIn, includeSummaries: bool)
    ensures var es := WithSection(ChunkLinkedIn(f, l, includeSummaries), EducationEntries);
            && |es| == |l.education|
            && forall i :: 0 <= i < |es| ==>
                 && es[i].itemIndex == Some(i)
                 && es[i].content == EducationItem(l.education[i])
                 && es[i].chunkText == f.education(l.education[i])
  {
    LinkedInSection(f, l, includeSummaries, 3);
  }

  /** The education summary appears exactly when summaries are on and there
      is a degree. */
  lemma LinkedInEducationSummary(f: Formatters, l: LinkedIn, includeSummaries: bool)
    ensures var ss := WithSection(ChunkLinkedIn(f, l, includeSummaries), EducationSummary);
            && |ss| == (if includeSummaries && |l.education| > 0 then 1 else 0)
            && forall i :: 0 <= i < |ss| ==>
                 ss[i].content == EducationAll(l.education, |l.education|)
                 && ss[i].chunkText == f.educationSummary(l.education)
  {
    LinkedInSection(f, l, includeSummaries, 4);
  }

  /** One chunk per certification, in order and numbered. */
  lemma LinkedInCertificationChunks(f: Formatters, l: LinkedIn, includeSummaries: bool)
    ensures var cs := WithSection(ChunkLinkedIn(f, l, includeSummaries), Certifications);
            && |cs| == |l.certifications|
            && forall i :: 0 <= i < |cs| ==>
                 && cs[i].itemIndex == Some(i)
                 && cs[i].content == CertificationItem(l.certifications[i])
                 && cs[i].chunkText == f.certification(l.certifications[i])
  {
    LinkedInSection(f, l, includeSummaries, 6);
    assert LinkedInBlock(f, l, includeSummaries, 6)
        == ItemBlock(LinkedInSource, Certifications, l.certifications, CertificationContent, f.certification);
  }

  /** One chunk per honor or award, in order and numbered. */
  lemma LinkedInAwardChunks(f: Formatters, l: LinkedIn, includeSummaries: bool)
    ensures var as_ := WithSection(ChunkLinkedIn(f, l, includeSummaries), HonorsAwards);
            && |as_| == |l.honorsAndAwards|
            && forall i :: 0 <= i < |as_| ==>
                 && as_[i].itemIndex == Some(i)
                 && as_[i].content == AwardItem(l.honorsAndAwards[i])
                 && as_[i].chunkText == f.award(l.honorsAndAwards[i])
  {
    LinkedInSection(f, l, includeSummaries, 8);
    assert LinkedInBlock(f, l, includeSummaries, 8)
        == ItemBlock(LinkedInSource, HonorsAwards, l.honorsAndAwards, AwardContent, f.award);
  }

  /** A GitHub profile yields one chunk per repository, in order and
      numbered, then the overview chunk exactly when summaries are on and
      there is a repository. */
  lemma GitHubChunks(f: Formatters, g: GitHub, includeSummaries: bool)
    ensures var cs := ChunkGitHub(f, g, includeSummaries);
            var n := |g.repositories|;
            && |cs| == n + (if includeSummaries && n > 0 then 1 else 0)
            && (forall i :: 0 <= i < |cs| ==> cs[i].sourceType == GitHubSource)
            && (forall i :: 0 <= i < n ==>
                  && cs[i].itemIndex == Some(i)
                  && cs[i].section == Repositories
                  && cs[i].content == RepositoryItem(g.repositories[i])
                  && cs[i].chunkText == f.repository(g.repositories[i]))
            && (|cs| > n ==>
                  && cs[n].section == RepositoriesSummary
                  && cs[n].content == RepositoriesAll(g.repositories, n)
                  && cs[n].chunkText == f.repositoriesSummary(g.repositories))
  {
    GitHubIsConcat(f, g, includeSummaries, GitHubBlocks(f, g, includeSummaries));
  }

  lemma GitHubIsConcat(f: Formatters, g: GitHub, includeSummaries: bool, bs: seq<seq<StructuredChunk>>)
    requires bs == GitHubBlocks(f, g, includeSummaries)
    ensures ChunkGitHub(f, g, includeSummaries) == bs[0] + bs[1]
  {
    assert bs[1..][1..] == [];
    assert Concat(bs) == bs[0] + Concat(bs[1..]);
    assert Concat(bs[1..]) == bs[1] + Concat(bs[1..][1..]);
  }

  /** With the source's own helpers, each repository chunk's text is its
      `_format_repository` text, and the overview chunk is the portfolio
      overview. */
  lemma {:induction false} GitHubChunkTexts(g: GitHub, includeSummaries: bool)
    ensures var cs := ChunkGitHub(Formats, g, includeSummaries);
            var n := |g.repositories|;
            && (forall i :: 0 <= i < n ==> cs[i].chunkText == FormatRepository(g.repositories[i]))
            && (|cs| > n ==> cs[n].chunkText == FormatRepositoriesSummary(g.repositories))
  {
    GitHubChunks(Formats, g, includeSummaries);
  }

  /** With the source's own helpers, each position chunk of a resume
      carries its `_format_work_experience` text. */
  lemma ResumeWorkTexts(r: Resume, includeSummaries: bool)
    ensures var ws := WithSection(ChunkResume(Formats, r, includeSummaries), WorkEntries);
            |ws| == |r.workExperience|
            && forall i :: 0 <= i < |ws| ==> ws[i].chunkText == FormatWorkExperience(r.workExperience[i])
  {
    ResumeWorkChunks(Formats, r, includeSummaries);
  }

  /** Likewise for the degree chunks of a LinkedIn profile. */
  lemma {:induction false} LinkedInEducationTexts(l: LinkedIn, includeSummaries: bool)
    ensures var es := WithSection(ChunkLinkedIn(Formats, l, includeSummaries), EducationEntries);
            |es| == |l.education|
            && forall i :: 0 <= i < |es| ==> es[i].chunkText == FormatEducation(l.education[i])
  {
    LinkedInEducationChunks(Formats, l, includeSummaries);
  }
}
