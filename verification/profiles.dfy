/** The profile records both chunkers read. Every text field is a string in
    which `""` stands for a missing key (the source reads them with
    `.get(key, '')` and tests them for truthiness); list fields are
    sequences, empty when missing. */
module Profiles {

  datatype WorkExperience = WorkExperience(
    designation: string, companyName: string,
    startDate: string, endDate: string, description: string)

  datatype Project = Project(projectName: string, description: string)

  datatype Resume = Resume(
    fullName: string, emailAddress: string, linkedinUrl: string,
    workExperience: seq<WorkExperience>, skills: seq<string>,
    projects: seq<Project>, certifications: seq<string>)

  datatype Education = Education(
    degree: string, fieldOfStudy: string, institutionName: string,
    startDate: string, endDate: string)

  datatype Certification = Certification(
    certificationName: string, issuingOrganization: string, issueDate: string)

  datatype Award = Award(awardName: string, issuingOrganization: string, issueDate: string)

  datatype LinkedIn = LinkedIn(
    fullName: string, headline: string, location: string,
    workExperience: seq<WorkExperience>, education: seq<Education>,
    skills: seq<string>, certifications: seq<Certification>,
    honorsAndAwards: seq<Award>)

  datatype Repository = Repository(
    name: string, description: string, languagesUsed: seq<string>,
    creationDate: string, lastUpdated: string)

  datatype GitHub = GitHub(repositories: seq<Repository>)

  /** One source document together with its `source_type`. */
  datatype Profile =
    | ResumeProfile(resume: Resume)
    | LinkedInProfile(linkedin: LinkedIn)
    | GitHubProfile(github: GitHub)

  function SourceTypeOf(p: Profile): string {
    match p
    case ResumeProfile(_) => "resume"
    case LinkedInProfile(_) => "linkedin"
    case GitHubProfile(_) => "github"
  }

  /** ` (start - end)`, printed only when both dates are present. */
  function DateRange(start: string, end: string): string {
    if start != "" && end != "" then " (" + start + " - " + end + ")" else ""
  }
}
