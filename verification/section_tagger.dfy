/** Keyword section tagging of sliding-window chunks
    (`_identify_resume_section`, `_identify_linkedin_section`,
    `_identify_github_section`): an ordered priority list of
    (label, keywords) rules, matched by substring on the lower-cased text. */
module SectionTagger {
  import opened TextUtil

  datatype Rule = Rule(section: string, keywords: seq<string>)

  const General: string := "general"

  const ResumeRules: seq<Rule> := [
    Rule("work_experience", ["experience", "work", "employment", "career"]),
    Rule("education", ["education", "degree", "university", "college"]),
    Rule("skills", ["skill", "technology", "programming"]),
    Rule("projects", ["project", "portfolio"]),
    Rule("certifications", ["certification", "certificate"])
  ]

  const LinkedInRules: seq<Rule> := [
    Rule("work_experience", ["experience", "work", "employment"]),
    Rule("education", ["education", "degree", "university"]),
    Rule("skills", ["skill", "endorsement"]),
    Rule("certifications", ["certification", "license"]),
    Rule("honors_awards", ["award", "honor", "achievement"])
  ]

  const GitHubRules: seq<Rule> := [
    Rule("repositories", ["repository", "repo"]),
    Rule("languages", ["language", "programming"]),
    Rule("descriptions", ["description", "readme"])
  ]

  /** `any(keyword in text_lower for keyword in ...)`. */
  predicate Hits(rule: Rule, lowered: string) {
    exists k | k in rule.keywords :: Contains(lowered, k)
  }

  /** The label of the first rule with a keyword hit, else `general`. */
  function TagWith(rules: seq<Rule>, lowered: string): (tag: string)
    ensures (forall i :: 0 <= i < |rules| ==> !Hits(rules[i], lowered)) ==> tag == General
    ensures forall i ::
              (0 <= i < |rules| && Hits(rules[i], lowered) && forall j :: 0 <= j < i ==> !Hits(rules[j], lowered))
              ==> tag == rules[i].section
  {
    if |rules| == 0 then General
    else if Hits(rules[0], lowered) then rules[0].section
    else
      var rest := TagWith(rules[1..], lowered);
      assert forall i :: 1 <= i < |rules| ==> rules[i] == rules[1..][i - 1];
      rest
  }

  function IdentifyResumeSection(text: string): string {
    TagWith(ResumeRules, LowerAscii(text))
  }

  function IdentifyLinkedInSection(text: string): string {
    TagWith(LinkedInRules, LowerAscii(text))
  }

  function IdentifyGitHubSection(text: string): string {
    TagWith(GitHubRules, LowerAscii(text))
  }

  /** Rule order is a priority: any work keyword makes a resume chunk
      `work_experience`, whatever other keywords (say "skill") it holds. */
  lemma ResumeWorkKeywordWins(text: string)
    requires Contains(LowerAscii(text), "work")
    ensures IdentifyResumeSection(text) == "work_experience"
  {
    assert "work" in ResumeRules[0].keywords;
    assert Hits(ResumeRules[0], LowerAscii(text));
  }

  /** A resume chunk with a skill keyword but no work or education keyword
      is tagged `skills`. */
  lemma {:induction false} ResumeSkillKeyword(text: string)
    requires Contains(LowerAscii(text), "skill")
    requires !Hits(ResumeRules[0], LowerAscii(text)) && !Hits(ResumeRules[1], LowerAscii(text))
    ensures IdentifyResumeSection(text) == "skills"
  {
    assert "skill" in ResumeRules[2].keywords;
    assert Hits(ResumeRules[2], LowerAscii(text));
  }

  /** Any `repo` substring makes a GitHub chunk `repositories`. */
  lemma GitHubRepoKeywordWins(text: string)
    requires Contains(LowerAscii(text), "repo")
    ensures IdentifyGitHubSection(text) == "repositories"
  {
    assert "repo" in GitHubRules[0].keywords;
    assert Hits(GitHubRules[0], LowerAscii(text));
  }

  /** A LinkedIn chunk with none of the keywords is `general`. */
  lemma LinkedInNoKeywordIsGeneral(text: string)
    requires forall i :: 0 <= i < |LinkedInRules| ==> !Hits(LinkedInRules[i], LowerAscii(text))
    ensures IdentifyLinkedInSection(text) == General
  {
  }
}
