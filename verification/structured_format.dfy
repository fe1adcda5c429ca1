/** The `_format_*` helpers of `StructuredChunker`: the text each structured
    chunk is embedded with. Single-record formatters join their parts with
    `". "` and end with `"."`; summaries join a counted header and numbered
    entries with single spaces. */
module StructuredFormat {
  import opened TextUtil
  import opened Profiles
  import opened JsonToText

  /** `". ".join(parts) + "."`. */
  function Sentence(parts: seq<string>): (r: string)
    ensures EndsWith(r, ".")
    ensures |parts| > 0 ==> parts[0] <= r
  {
    assert |parts| > 1 ==> Join(". ", parts) == parts[0] + ". " + Join(". ", parts[1..]);
    Join(". ", parts) + "."
  }

  function Optional(present: bool, part: string): seq<string> {
    if present then [part] else []
  }

  /** `_format_basic_info`. */
  function FormatBasicInfo(r: Resume): (t: string)
    ensures EndsWith(t, ".")
    ensures r.fullName != "" ==> ("Name: " + r.fullName) <= t
  {
    Sentence(Field("Name", r.fullName) + Field("Email", r.emailAddress) + Field("LinkedIn", r.linkedinUrl))
  }

  /** `_format_linkedin_basic_info`. */
  function FormatLinkedInBasicInfo(l: LinkedIn): (t: string)
    ensures EndsWith(t, ".")
    ensures l.fullName != "" ==> ("Name: " + l.fullName) <= t
  {
    Sentence(Field("Name", l.fullName) + Field("Headline", l.headline) + Field("Location", l.location))
  }

  /** `designation at company`, the title every work formatter starts with. */
  function WorkTitle(e: WorkExperience): string {
    e.designation + " at " + e.companyName
  }

  /** `_format_work_experience`: the title, the date range exactly when both
      dates are present, then the description as a second part. */
  function FormatWorkExperience(e: WorkExperience): (t: string)
    ensures EndsWith(t, ".")
    ensures WorkTitle(e) <= t
    ensures (e.startDate != "" && e.endDate != "") <==> WorkTitle(e) + " (" <= t
    ensures e.startDate != "" && e.endDate != "" ==>
              WorkTitle(e) + " (" + e.startDate + " - " + e.endDate + ")" <= t
    ensures e.description != "" ==> Contains(t, ". " + e.description + ".")
  {
    var title := WorkTitle(e) + DateRange(e.startDate, e.endDate);
    var parts := [title] + Optional(e.description != "", e.description);
    var t := Sentence(parts);
    SentenceOfOne(title);
    SentenceOfTwo(title, e.description);
    assert parts == if e.description != "" then [title, e.description] else [title];
    assert t == if e.description != "" then title + ". " + e.description + "." else title + ".";
    assert t[..|title|] == title;
    var w := WorkTitle(e);
    assert !(e.startDate != "" && e.endDate != "") ==> title == w && t[|w|] == '.';
    assert (w + " (")[|w|] == ' ';
    DescriptionPart(title, e.description);
    t
  }

  lemma SentenceOfOne(a: string)
    ensures Sentence([a]) == a + "."
  {
  }

  lemma SentenceOfTwo(a: string, b: string)
    ensures Sentence([a, b]) == a + ". " + b + "."
  {
    assert [a, b][1..] == [b];
    assert Join(". ", [b]) == b;
    assert Join(". ", [a, b]) == a + ". " + Join(". ", [b]);
  }

  lemma DescriptionPart(title: string, desc: string)
    ensures Contains(title + ". " + desc + ".", ". " + desc + ".")
  {
    ContainsMiddle(title, ". " + desc + ".", "");
    assert title + (". " + desc + ".") + "" == title + ". " + desc + ".";
  }

  /** `_format_project`. */
  function FormatProject(p: Project): (t: string)
    ensures EndsWith(t, ".")
    ensures p.projectName != "" ==> ("Project: " + p.projectName) <= t
    ensures p.projectName == "" && p.description == "" ==> t == "."
  {
    Sentence(Optional(p.projectName != "", "Project: " + p.projectName) + Optional(p.description != "", p.description))
  }

  /** `_format_skills`. */
  function FormatSkills(skills: seq<string>): (t: string)
    ensures "Technical Skills: " <= t && EndsWith(t, ".")
  {
    "Technical Skills: " + Join(", ", skills) + "."
  }

  /** `_format_certifications` (the resume's list of names). */
  function FormatCertifications(names: seq<string>): (t: string)
    ensures "Certifications: " <= t && EndsWith(t, ".")
  {
    "Certifications: " + Join(", ", names) + "."
  }

  /** `_format_education`: ` in field` only with a field, ` from
      institution` only with an institution. */
  function FormatEducation(e: Education): (t: string)
    ensures EndsWith(t, ".")
    ensures e.degree <= t
    ensures e.fieldOfStudy != "" ==> e.degree + " in " + e.fieldOfStudy <= t
  {
    var s := (if e.fieldOfStudy != "" then e.degree + " in " + e.fieldOfStudy else e.degree)
             + (if e.institutionName != "" then " from " + e.institutionName else "")
             + DateRange(e.startDate, e.endDate);
    Sentence([s])
  }

  /** `_format_certification`. */
  function FormatCertification(c: Certification): (t: string)
    ensures EndsWith(t, ".")
    ensures "Certification: " + c.certificationName <= t
  {
    Sentence(["Certification: " + c.certificationName
              + (if c.issuingOrganization != "" then " from " + c.issuingOrganization else "")
              + (if c.issueDate != "" then " (issued " + c.issueDate + ")" else "")])
  }

  /** `_format_award`. */
  function FormatAward(a: Award): (t: string)
    ensures EndsWith(t, ".")
    ensures "Award: " + a.awardName <= t
  {
    Sentence(["Award: " + a.awardName
              + (if a.issuingOrganization != "" then " from " + a.issuingOrganization else "")
              + (if a.issueDate != "" then " (" + a.issueDate + ")" else "")])
  }

  /** `_format_repository`. */
  function FormatRepository(r: Repository): (t: string)
    ensures EndsWith(t, ".")
    ensures "GitHub Repository: " + r.name <= t
  {
    Sentence(["GitHub Repository: " + r.name]
             + Optional(r.description != "", "Description: " + r.description)
             + Optional(|r.languagesUsed| > 0, "Technologies: " + Join(", ", r.languagesUsed))
             + Optional(r.creationDate != "", "Created: " + r.creationDate)
             + Optional(r.lastUpdated != "", "Last Updated: " + r.lastUpdated))
  }

  // ---------------------------------------------------------------------
  // Summaries

  /** `f"{i}. {entry}"` for `i, entry in enumerate(entries, 1)`. */
  function Numbered(entries: seq<string>): (r: seq<string>)
    ensures |r| == |entries|
    ensures forall i :: 0 <= i < |r| ==> r[i] == NatToString(i + 1) + ". " + entries[i]
  {
    seq(|entries|, i requires 0 <= i < |entries| => NatToString(i + 1) + ". " + entries[i])
  }

  /** `f"{n}"` in the header of every summary. */
  function Counted(prefix: string, n: nat, noun: string): string {
    prefix + " (" + NatToString(n) + " " + noun + "):"
  }

  /** A header followed by one numbered entry per item and any trailer,
      joined with single spaces. */
  function Summary<T>(header: string, items: seq<T>, entry: T -> string, trailer: seq<string>): (t: string)
    requires |header| > 0
    ensures header <= t
    ensures |items| == 0 && trailer == [] ==> t == header
    ensures forall i :: 0 <= i < |items| ==> Contains(t, " " + NatToString(i + 1) + ". " + entry(items[i]))
    ensures |trailer| == 1 ==> EndsWith(t, " " + trailer[0])
  {
    var parts := SummaryParts(header, items, entry, trailer);
    assert |parts| > 1 ==> Join(" ", parts) == header + " " + Join(" ", parts[1..]);
    SummaryEntries(header, items, entry, trailer);
    assert |trailer| == 1 ==> parts == SummaryParts(header, items, entry, []) + [trailer[0]];
    TrailerLast(" ", SummaryParts(header, items, entry, []), trailer);
    Join(" ", parts)
  }

  /** The header, the numbered entries, then the trailer. */
  function SummaryParts<T>(header: string, items: seq<T>, entry: T -> string, trailer: seq<string>): (parts: seq<string>)
    ensures |parts| == 1 + |items| + |trailer|
    ensures parts[0] == header
    ensures forall i :: 0 <= i < |items| ==> parts[i + 1] == NatToString(i + 1) + ". " + entry(items[i])
    ensures parts[1 + |items|..] == trailer
  {
    [header] + Numbered(seq(|items|, i requires 0 <= i < |items| => entry(items[i]))) + trailer
  }

  lemma SummaryEntries<T>(header: string, items: seq<T>, entry: T -> string, trailer: seq<string>)
    ensures var t := Join(" ", SummaryParts(header, items, entry, trailer));
            forall i :: 0 <= i < |items| ==> Contains(t, " " + NatToString(i + 1) + ". " + entry(items[i]))
  {
    var parts := SummaryParts(header, items, entry, trailer);
    forall i | 0 <= i < |items| ensures Contains(Join(" ", parts), " " + NatToString(i + 1) + ". " + entry(items[i])) {
      JoinContainsSeparated(parts, i + 1);
      assert " " + parts[i + 1] == " " + NatToString(i + 1) + ". " + entry(items[i]);
    }
  }

  lemma TrailerLast(sep: string, prefix: seq<string>, trailer: seq<string>)
    requires |prefix| > 0
    ensures |trailer| == 1 ==> EndsWith(Join(sep, prefix + trailer), sep + trailer[0])
  {
    if |trailer| == 1 {
      assert trailer == [trailer[0]];
      JoinSnoc(sep, prefix, trailer[0]);
      assert Join(sep, prefix) + sep + trailer[0] == Join(sep, prefix) + (sep + trailer[0]);
    }
  }

  /** Every part after the first is preceded by the separator. */
  lemma {:induction false} JoinContainsSeparated(parts: seq<string>, k: nat)
    requires 1 <= k < |parts|
    ensures Contains(Join(" ", parts), " " + parts[k])
  {
    var rest := Join(" ", parts[1..]);
    assert Join(" ", parts) == parts[0] + " " + rest;
    if k == 1 {
      if |parts| == 2 {
        ContainsMiddle(parts[0], " " + parts[1], "");
        assert parts[0] + (" " + parts[1]) + "" == Join(" ", parts);
      } else {
        var tail := " " + Join(" ", parts[2..]);
        assert rest == parts[1] + tail;
        ContainsMiddle(parts[0], " " + parts[1], tail);
        assert parts[0] + (" " + parts[1]) + tail == Join(" ", parts);
      }
    } else {
      JoinContainsSeparated(parts[1..], k - 1);
      ContainsWithin(parts[0] + " ", rest, "", " " + parts[k]);
      assert parts[0] + " " + rest + "" == Join(" ", parts);
    }
  }

  function WorkEntry(e: WorkExperience): string {
    WorkTitle(e) + DateRange(e.startDate, e.endDate)
    + (if e.description != "" then ": " + e.description else "")
  }

  /** `_format_work_experience_summary`: headed by the number of positions,
      then one numbered entry per position. */
  function FormatWorkExperienceSummary(es: seq<WorkExperience>): (t: string)
    ensures Counted("Professional Work Experience Summary", |es|, "positions") <= t
    ensures forall i :: 0 <= i < |es| ==> Contains(t, " " + NatToString(i + 1) + ". " + WorkEntry(es[i]))
  {
    Summary(Counted("Professional Work Experience Summary", |es|, "positions"),
            es, WorkEntry, [])
  }

  function ProjectEntry(p: Project): string {
    p.projectName + (if p.description != "" then ": " + p.description else "")
  }

  function ProjectsTrailer(n: nat): string {
    "Total: " + NatToString(n)
    + " completed projects demonstrating full-stack development, AI/ML integration, and automation expertise."
  }

  /** `_format_projects_summary`: header, numbered entries, and a closing
      total that repeats the count. */
  function FormatProjectsSummary(ps: seq<Project>): (t: string)
    ensures Counted("Projects Portfolio", |ps|, "projects") <= t
    ensures forall i :: 0 <= i < |ps| ==> Contains(t, " " + NatToString(i + 1) + ". " + ProjectEntry(ps[i]))
    ensures EndsWith(t, " " + ProjectsTrailer(|ps|))
  {
    Summary(Counted("Projects Portfolio", |ps|, "projects"), ps, ProjectEntry, [ProjectsTrailer(|ps|)])
  }

  function EducationEntry(e: Education): string {
    e.degree
    + (if e.fieldOfStudy != "" then " in " + e.fieldOfStudy else "")
    + (if e.institutionName != "" then " from " + e.institutionName else "")
    + DateRange(e.startDate, e.endDate)
  }

  /** `_format_education_summary`. */
  function FormatEducationSummary(es: seq<Education>): (t: string)
    ensures Counted("Educational Background", |es|, "degrees") <= t
    ensures forall i :: 0 <= i < |es| ==> Contains(t, " " + NatToString(i + 1) + ". " + EducationEntry(es[i]))
  {
    Summary(Counted("Educational Background", |es|, "degrees"),
            es, EducationEntry, [])
  }

  function CertificationEntry(c: Certification): string {
    c.certificationName
    + (if c.issuingOrganization != "" then " from " + c.issuingOrganization else "")
    + (if c.issueDate != "" then " (issued " + c.issueDate + ")" else "")
  }

  /** `_format_certifications_summary`. */
  function FormatCertificationsSummary(cs: seq<Certification>): (t: string)
    ensures Counted("Professional Certifications", |cs|, "certifications") <= t
    ensures forall i :: 0 <= i < |cs| ==> Contains(t, " " + NatToString(i + 1) + ". " + CertificationEntry(cs[i]))
  {
    Summary(Counted("Professional Certifications", |cs|, "certifications"),
            cs, CertificationEntry, [])
  }

  function AwardEntry(a: Award): string {
    a.awardName
    + (if a.issuingOrganization != "" then " from " + a.issuingOrganization else "")
    + (if a.issueDate != "" then " (" + a.issueDate + ")" else "")
  }

  /** `_format_awards_summary`. */
  function FormatAwardsSummary(as_: seq<Award>): (t: string)
    ensures Counted("Honors and Awards", |as_|, "awards") <= t
    ensures forall i :: 0 <= i < |as_| ==> Contains(t, " " + NatToString(i + 1) + ". " + AwardEntry(as_[i]))
  {
    Summary(Counted("Honors and Awards", |as_|, "awards"),
            as_, AwardEntry, [])
  }
}
