/** `_json_to_text` and the per-source `*_json_to_text` functions of the
    sliding-window chunker: a profile is flattened into newline-separated
    lines before it is split into sentences. */
module JsonToText {
  import opened TextUtil
  import opened Profiles

  /** `- designation at company (start - end): description`. */
  function JobLine(e: WorkExperience): string {
    "- " + e.designation + " at " + e.companyName + DateRange(e.startDate, e.endDate)
    + (if e.description != "" then ": " + e.description else "")
  }

  function ProjectLine(p: Project): string {
    "- " + p.projectName + (if p.description != "" then ": " + p.description else "")
  }

  function EducationLine(e: Education): string {
    "- " + e.degree + " in " + e.fieldOfStudy + " from " + e.institutionName
    + DateRange(e.startDate, e.endDate)
  }

  function CertificationLine(c: Certification): string {
    "- " + c.certificationName + " from " + c.issuingOrganization
    + (if c.issueDate != "" then " (" + c.issueDate + ")" else "")
  }

  function AwardLine(a: Award): string {
    "- " + a.awardName + " from " + a.issuingOrganization
    + (if a.issueDate != "" then " (" + a.issueDate + ")" else "")
  }

  function RepositoryLine(r: Repository): string {
    "- " + r.name
    + (if r.description != "" then ": " + r.description else "")
    + (if |r.languagesUsed| > 0 then " (Languages: " + Join(", ", r.languagesUsed) + ")" else "")
    + (if r.creationDate != "" then " (Created: " + r.creationDate + ")" else "")
    + (if r.lastUpdated != "" then " (Updated: " + r.lastUpdated + ")" else "")
  }

  /** `"Label: value"` when the value is present. */
  function Field(name: string, value: string): seq<string> {
    if value != "" then [name + ": " + value] else []
  }

  /** A header line followed by one line per record, when there are any. */
  function Block<T>(header: string, items: seq<T>, line: T -> string): seq<string> {
    if |items| == 0 then [] else [header] + seq(|items|, i requires 0 <= i < |items| => line(items[i]))
  }

  const WorkHeader: string := "\nWork Experience:"
  const ProjectsHeader: string := "\nProjects:"
  const EducationHeader: string := "\nEducation:"
  const CertificationsHeader: string := "\nCertifications:"
  const AwardsHeader: string := "\nHonors and Awards:"
  const RepositoriesHeader: string := "GitHub Repositories:"

  function SkillsLine(skills: seq<string>): string {
    "\nSkills: " + Join(", ", skills)
  }

  /** The résumé keeps certifications as plain names on one line. */
  function CertificationNamesLine(names: seq<string>): string {
    "\nCertifications: " + Join(", ", names)
  }

  /** The one-line blocks: present only for a non-empty list. */
  function ListLine(items: seq<string>, line: seq<string> -> string): seq<string> {
    if |items| > 0 then [line(items)] else []
  }

  /** The résumé's blocks, in the order `_resume_json_to_text` appends
      them: the set basic fields, the work experience, the skills line, the
      projects and the certifications line. */
  function ResumeBlocks(r: Resume): seq<seq<string>> {
    [ Field("Name", r.fullName) + Field("Email", r.emailAddress) + Field("LinkedIn", r.linkedinUrl),
      Block(WorkHeader, r.workExperience, JobLine),
      ListLine(r.skills, SkillsLine),
      Block(ProjectsHeader, r.projects, ProjectLine),
      ListLine(r.certifications, CertificationNamesLine) ]
  }

  function ResumeLines(r: Resume): seq<string> {
    Flatten(ResumeBlocks(r))
  }

  predicate ResumeIsEmpty(r: Resume) {
    && r.fullName == "" && r.emailAddress == "" && r.linkedinUrl == ""
    && |r.workExperience| == 0 && |r.skills| == 0 && |r.projects| == 0
    && |r.certifications| == 0
  }

  predicate LinkedInIsEmpty(l: LinkedIn) {
    && l.fullName == "" && l.headline == "" && l.location == ""
    && |l.workExperience| == 0 && |l.education| == 0 && |l.skills| == 0
    && |l.certifications| == 0 && |l.honorsAndAwards| == 0
  }

  /** The LinkedIn profile's blocks, in the order
      `_linkedin_json_to_text` appends them: the set basic fields, the
      positions, the degrees, the skills line, the certifications and the
      honors and awards. */
  function LinkedInBlocks(l: LinkedIn): seq<seq<string>> {
    [ Field("Name", l.fullName) + Field("Headline", l.headline) + Field("Location", l.location),
      Block(WorkHeader, l.workExperience, JobLine),
      Block(EducationHeader, l.education, EducationLine),
      ListLine(l.skills, SkillsLine),
      Block(CertificationsHeader, l.certifications, CertificationLine),
      Block(AwardsHeader, l.honorsAndAwards, AwardLine) ]
  }

  function LinkedInLines(l: LinkedIn): seq<string> {
    Flatten(LinkedInBlocks(l))
  }

  function GitHubLines(g: GitHub): seq<string> {
    Block(RepositoriesHeader, g.repositories, RepositoryLine)
  }

  predicate AllNonEmpty(parts: seq<string>) {
    forall i :: 0 <= i < |parts| ==> |parts[i]| > 0
  }

  lemma JoinEmptyIff(sep: string, parts: seq<string>)
    requires AllNonEmpty(parts)
    ensures Join(sep, parts) == "" <==> parts == []
  {
    if |parts| > 1 {
      assert |Join(sep, parts)| >= |parts[0]|;
    }
  }

  lemma BlockLines<T>(header: string, items: seq<T>, line: T -> string)
    requires forall x :: |line(x)| > 0
    ensures AllNonEmpty(Block(header, items, line)) <== |header| > 0
    ensures |Block(header, items, line)| == 0 <==> |items| == 0
    ensures forall i :: 0 <= i < |items| ==> line(items[i]) in Block(header, items, line)
  {
    if |items| > 0 {
      var b := Block(header, items, line);
      forall i | 0 <= i < |items| ensures line(items[i]) in b {
        assert b[i + 1] == line(items[i]);
      }
    }
  }

  lemma AllNonEmptyAppend(a: seq<string>, b: seq<string>)
    requires AllNonEmpty(a) && AllNonEmpty(b)
    ensures AllNonEmpty(a + b)
  {
    forall i | 0 <= i < |a + b| ensures |(a + b)[i]| > 0 {
      if i >= |a| { assert (a + b)[i] == b[i - |a|]; }
    }
  }

  lemma FlattenFive(a: seq<string>, b: seq<string>, c: seq<string>, d: seq<string>, e: seq<string>)
    ensures Flatten([a, b, c, d, e]) == a + b + c + d + e
  {
    FlattenAppend([a, b], [c, d, e]);
    FlattenAppend([a], [b]);
    FlattenAppend([c], [d, e]);
    FlattenAppend([d], [e]);
    assert [a, b] + [c, d, e] == [a, b, c, d, e];
    assert [a] + [b] == [a, b];
    assert [c] + [d, e] == [c, d, e];
    assert [d] + [e] == [d, e];
  }

  lemma FlattenSix(a: seq<string>, b: seq<string>, c: seq<string>, d: seq<string>, e: seq<string>, f: seq<string>)
    ensures Flatten([a, b, c, d, e, f]) == a + b + c + d + e + f
  {
    FlattenFive(a, b, c, d, e);
    FlattenSnoc([a, b, c, d, e], f);
    assert [a, b, c, d, e] + [f] == [a, b, c, d, e, f];
  }

  lemma ResumeLinesFacts(r: Resume)
    ensures AllNonEmpty(ResumeLines(r))
    ensures |ResumeLines(r)| == 0 <==> ResumeIsEmpty(r)
  {
    var bs := ResumeBlocks(r);
    var head, work, skills, projects, certs := bs[0], bs[1], bs[2], bs[3], bs[4];
    BlockLines(WorkHeader, r.workExperience, JobLine);
    BlockLines(ProjectsHeader, r.projects, ProjectLine);
    assert bs == [head, work, skills, projects, certs];
    FlattenFive(head, work, skills, projects, certs);
    AllNonEmptyAppend(Field("Name", r.fullName), Field("Email", r.emailAddress));
    AllNonEmptyAppend(Field("Name", r.fullName) + Field("Email", r.emailAddress), Field("LinkedIn", r.linkedinUrl));
    AllNonEmptyAppend(head, work);
    AllNonEmptyAppend(head + work, skills);
    AllNonEmptyAppend(head + work + skills, projects);
    AllNonEmptyAppend(head + work + skills + projects, certs);
  }

  lemma LinkedInLinesFacts(l: LinkedIn)
    ensures AllNonEmpty(LinkedInLines(l))
    ensures |LinkedInLines(l)| == 0 <==> LinkedInIsEmpty(l)
  {
    var bs := LinkedInBlocks(l);
    var head, work, edu, skills, certs, awards := bs[0], bs[1], bs[2], bs[3], bs[4], bs[5];
    BlockLines(WorkHeader, l.workExperience, JobLine);
    BlockLines(EducationHeader, l.education, EducationLine);
    BlockLines(CertificationsHeader, l.certifications, CertificationLine);
    BlockLines(AwardsHeader, l.honorsAndAwards, AwardLine);
    assert bs == [head, work, edu, skills, certs, awards];
    FlattenSix(head, work, edu, skills, certs, awards);
    AllNonEmptyAppend(Field("Name", l.fullName), Field("Headline", l.headline));
    AllNonEmptyAppend(Field("Name", l.fullName) + Field("Headline", l.headline), Field("Location", l.location));
    AllNonEmptyAppend(head, work);
    AllNonEmptyAppend(head + work, edu);
    AllNonEmptyAppend(head + work + edu, skills);
    AllNonEmptyAppend(head + work + edu + skills, certs);
    AllNonEmptyAppend(head + work + edu + skills + certs, awards);
  }

  /** `_resume_json_to_text`: empty exactly for an empty resume; otherwise
      every line of every block appears, the blocks in the order basic
      fields, work experience, skills, projects, certifications, and each
      block's lines in list order. */
  function ResumeToText(r: Resume): (t: string)
    ensures t == "" <==> ResumeIsEmpty(r)
    ensures InBlockOrder(t, ResumeBlocks(r))
  {
    var parts := ResumeLines(r);
    ResumeLinesFacts(r);
    JoinEmptyIff("\n", parts);
    JoinInBlockOrder("\n", ResumeBlocks(r));
    Join("\n", parts)
  }

  /** `_linkedin_json_to_text`: empty exactly for an empty profile;
      otherwise every line of every block appears, the blocks in the order
      basic fields, positions, education, skills, certifications, honors
      and awards, and each block's lines in list order. */
  function LinkedInToText(l: LinkedIn): (t: string)
    ensures t == "" <==> LinkedInIsEmpty(l)
    ensures InBlockOrder(t, LinkedInBlocks(l))
  {
    var parts := LinkedInLines(l);
    LinkedInLinesFacts(l);
    JoinEmptyIff("\n", parts);
    JoinInBlockOrder("\n", LinkedInBlocks(l));
    Join("\n", parts)
  }

  /** Line `i` of a block is the line of item `i`, after the header. */
  lemma BlockAt<T>(header: string, items: seq<T>, line: T -> string, i: nat)
    requires i < |items|
    ensures |Block(header, items, line)| == |items| + 1
    ensures Block(header, items, line)[i + 1] == line(items[i])
  {
  }

  /** The items of block `a` appear in list order. */
  lemma ItemsInOrder<T>(t: string, bs: seq<seq<string>>, a: nat, h: string, xs: seq<T>, f: T -> string)
    requires InBlockOrder(t, bs) && a < |bs| && bs[a] == Block(h, xs, f)
    ensures forall i :: 0 <= i < |xs| ==> Contains(t, f(xs[i]))
    ensures forall i, j :: 0 <= i < j < |xs| ==> Precedes(t, f(xs[i]), f(xs[j]))
  {
    forall i | 0 <= i < |xs| ensures Contains(t, f(xs[i])) {
      BlockAt(h, xs, f, i);
      assert Contains(t, bs[a][i + 1]);
    }
    forall i, j | 0 <= i < j < |xs| ensures Precedes(t, f(xs[i]), f(xs[j])) {
      BlockAt(h, xs, f, i);
      BlockAt(h, xs, f, j);
      assert Precedes(t, bs[a][i + 1], bs[a][j + 1]);
    }
  }

  /** Every item of an earlier block precedes every item of a later one. */
  lemma ItemsBeforeItems<T, U>(t: string, bs: seq<seq<string>>, a: nat, b: nat,
                               h: string, xs: seq<T>, f: T -> string, k: string, ys: seq<U>, g: U -> string)
    requires InBlockOrder(t, bs) && a < b < |bs| && bs[a] == Block(h, xs, f) && bs[b] == Block(k, ys, g)
    ensures forall i, j :: 0 <= i < |xs| && 0 <= j < |ys| ==> Precedes(t, f(xs[i]), g(ys[j]))
  {
    forall i, j | 0 <= i < |xs| && 0 <= j < |ys| ensures Precedes(t, f(xs[i]), g(ys[j])) {
      BlockAt(h, xs, f, i);
      BlockAt(k, ys, g, j);
      assert Precedes(t, bs[a][i + 1], bs[b][j + 1]);
    }
  }

  /** Every item of block `a` precedes the one-line block `b`. */
  lemma ItemsBeforeLine<T>(t: string, bs: seq<seq<string>>, a: nat, b: nat,
                           h: string, xs: seq<T>, f: T -> string, line: string)
    requires InBlockOrder(t, bs) && a < b < |bs| && bs[a] == Block(h, xs, f) && bs[b] == [line]
    ensures forall i :: 0 <= i < |xs| ==> Precedes(t, f(xs[i]), line)
  {
    forall i | 0 <= i < |xs| ensures Precedes(t, f(xs[i]), line) {
      BlockAt(h, xs, f, i);
      assert Precedes(t, bs[a][i + 1], bs[b][0]);
    }
  }

  /** The one-line block `a` precedes every item of block `b`. */
  lemma LineBeforeItems<T>(t: string, bs: seq<seq<string>>, a: nat, b: nat,
                           line: string, h: string, ys: seq<T>, g: T -> string)
    requires InBlockOrder(t, bs) && a < b < |bs| && bs[a] == [line] && bs[b] == Block(h, ys, g)
    ensures forall j :: 0 <= j < |ys| ==> Precedes(t, line, g(ys[j]))
  {
    forall j | 0 <= j < |ys| ensures Precedes(t, line, g(ys[j])) {
      BlockAt(h, ys, g, j);
      assert Precedes(t, bs[a][0], bs[b][j + 1]);
    }
  }

  /** The résumé text in terms of its lines: every position appears, in
      list order, before the skills line, which comes before every
      project; every project comes before the certifications line. */
  lemma ResumeTextOrder(r: Resume)
    ensures var t, es, ps := ResumeToText(r), r.workExperience, r.projects;
            && (forall i :: 0 <= i < |es| ==> Contains(t, JobLine(es[i])))
            && (forall i, j :: 0 <= i < j < |es| ==> Precedes(t, JobLine(es[i]), JobLine(es[j])))
            && (forall i, j :: 0 <= i < |es| && 0 <= j < |ps| ==> Precedes(t, JobLine(es[i]), ProjectLine(ps[j])))
            && (|r.skills| > 0 ==>
                  && (forall i :: 0 <= i < |es| ==> Precedes(t, JobLine(es[i]), SkillsLine(r.skills)))
                  && (forall j :: 0 <= j < |ps| ==> Precedes(t, SkillsLine(r.skills), ProjectLine(ps[j]))))
            && (|r.certifications| > 0 ==>
                  forall j :: 0 <= j < |ps| ==> Precedes(t, ProjectLine(ps[j]), CertificationNamesLine(r.certifications)))
  {
    var t, bs := ResumeToText(r), ResumeBlocks(r);
    ItemsInOrder(t, bs, 1, WorkHeader, r.workExperience, JobLine);
    ItemsBeforeItems(t, bs, 1, 3, WorkHeader, r.workExperience, JobLine, ProjectsHeader, r.projects, ProjectLine);
    if |r.skills| > 0 {
      ItemsBeforeLine(t, bs, 1, 2, WorkHeader, r.workExperience, JobLine, SkillsLine(r.skills));
      LineBeforeItems(t, bs, 2, 3, SkillsLine(r.skills), ProjectsHeader, r.projects, ProjectLine);
    }
    if |r.certifications| > 0 {
      ItemsBeforeLine(t, bs, 3, 4, ProjectsHeader, r.projects, ProjectLine, CertificationNamesLine(r.certifications));
    }
  }

  /** The LinkedIn text in terms of its lines: every degree appears, in
      list order, after every position and before the skills line; every
      certification comes after the skills line and before every honor. */
  lemma LinkedInTextOrder(l: LinkedIn)
    ensures var t, es, ed, cs, as_ := LinkedInToText(l), l.workExperience, l.education, l.certifications, l.honorsAndAwards;
            && (forall i :: 0 <= i < |ed| ==> Contains(t, EducationLine(ed[i])))
            && (forall i, j :: 0 <= i < j < |ed| ==> Precedes(t, EducationLine(ed[i]), EducationLine(ed[j])))
            && (forall i, j :: 0 <= i < |es| && 0 <= j < |ed| ==> Precedes(t, JobLine(es[i]), EducationLine(ed[j])))
            && (|l.skills| > 0 ==>
                  && (forall i :: 0 <= i < |ed| ==> Precedes(t, EducationLine(ed[i]), SkillsLine(l.skills)))
                  && (forall j :: 0 <= j < |cs| ==> Precedes(t, SkillsLine(l.skills), CertificationLine(cs[j]))))
            && (forall i, j :: 0 <= i < |cs| && 0 <= j < |as_| ==> Precedes(t, CertificationLine(cs[i]), AwardLine(as_[j])))
  {
    var t, bs := LinkedInToText(l), LinkedInBlocks(l);
    ItemsInOrder(t, bs, 2, EducationHeader, l.education, EducationLine);
    ItemsBeforeItems(t, bs, 1, 2, WorkHeader, l.workExperience, JobLine, EducationHeader, l.education, EducationLine);
    ItemsBeforeItems(t, bs, 4, 5, CertificationsHeader, l.certifications, CertificationLine,
                     AwardsHeader, l.honorsAndAwards, AwardLine);
    if |l.skills| > 0 {
      ItemsBeforeLine(t, bs, 2, 3, EducationHeader, l.education, EducationLine, SkillsLine(l.skills));
      LineBeforeItems(t, bs, 3, 4, SkillsLine(l.skills), CertificationsHeader, l.certifications, CertificationLine);
    }
  }

  /** `_github_json_to_text`: empty exactly when there are no repositories,
      otherwise headed `GitHub Repositories:` with one line per repository. */
  function GitHubToText(g: GitHub): (t: string)
    ensures t == "" <==> |g.repositories| == 0
    ensures |g.repositories| > 0 ==> RepositoriesHeader <= t
    ensures forall i :: 0 <= i < |g.repositories| ==> Contains(t, RepositoryLine(g.repositories[i]))
  {
    var parts := GitHubLines(g);
    BlockLines(RepositoriesHeader, g.repositories, RepositoryLine);
    JoinEmptyIff("\n", parts);
    JoinContainsMember("\n", parts);
    Join("\n", parts)
  }

  /** The repository lines follow the list order. */
  lemma {:induction false} GitHubTextOrder(g: GitHub)
    ensures forall i, j :: 0 <= i < j < |g.repositories| ==>
              Precedes(GitHubToText(g), RepositoryLine(g.repositories[i]), RepositoryLine(g.repositories[j]))
  {
    forall i, j | 0 <= i < j < |g.repositories|
      ensures Precedes(GitHubToText(g), RepositoryLine(g.repositories[i]), RepositoryLine(g.repositories[j]))
    {
      RepositoryLinePrecedes(g, i, j);
    }
  }

  lemma {:induction false} RepositoryLinePrecedes(g: GitHub, i: nat, j: nat)
    requires i < j < |g.repositories|
    ensures Precedes(GitHubToText(g), RepositoryLine(g.repositories[i]), RepositoryLine(g.repositories[j]))
  {
    GitHubTextIsJoin(g);
    LinesPrecede(g, i, j);
  }

  lemma GitHubTextIsJoin(g: GitHub)
    ensures GitHubToText(g) == Join("\n", GitHubLines(g))
  {
  }

  lemma {:induction false} LinesPrecede(g: GitHub, i: nat, j: nat)
    requires i < j < |g.repositories|
    ensures Precedes(Join("\n", GitHubLines(g)), RepositoryLine(g.repositories[i]), RepositoryLine(g.repositories[j]))
  {
    BlockAt(RepositoriesHeader, g.repositories, RepositoryLine, i);
    BlockAt(RepositoriesHeader, g.repositories, RepositoryLine, j);
    JoinPrecedes("\n", GitHubLines(g), i + 1, j + 1);
  }

  /** `_json_to_text`, dispatching on the source type. */
  function ProfileToText(p: Profile): string {
    match p
    case ResumeProfile(r) => ResumeToText(r)
    case LinkedInProfile(l) => LinkedInToText(l)
    case GitHubProfile(g) => GitHubToText(g)
  }
}
