/**
  The structured LinkedIn profile (the Pydantic records of `linkedin_service.py`).
  Every text field is a `string`; `Optional[...] = None` fields are `Option`s that
  default to `None`.
 */
module Profile {
  import opened Wrappers
  import opened Strings

  datatype Experience = Experience(
    title: string,
    company: string,
    duration: string,
    description: Option<string> := None)

  datatype Education = Education(
    school: string,
    degree: string,
    field: Option<string> := None,
    years: Option<string> := None)

  datatype Certification = Certification(
    name: string,
    issuer: string,
    date: Option<string> := None)

  datatype Volunteer = Volunteer(
    organization: string,
    role: string,
    duration: Option<string> := None)

  datatype Recommendation = Recommendation(
    author: string,
    relationship: string,
    text: string)

  datatype LinkedInProfile = LinkedInProfile(
    name: string,
    headline: string,
    location: string,
    about: string,
    experience: seq<Experience>,
    education: seq<Education>,
    skills: seq<string>,
    certifications: Option<seq<Certification>> := None,
    languages: Option<seq<string>> := None,
    volunteer: Option<seq<Volunteer>> := None,
    recommendations: Option<seq<Recommendation>> := None)

  /** A record built with only its required fields gets `None` for every optional one. */
  lemma ProfileDefaults(name: string, headline: string, location: string, about: string,
                        experience: seq<Experience>, education: seq<Education>, skills: seq<string>)
    ensures var p := LinkedInProfile(name, headline, location, about, experience, education, skills);
      p.certifications.None? && p.languages.None? && p.volunteer.None? && p.recommendations.None?
  {
  }

  /** `exp.description if exp.description else ''`. */
  function DescriptionText(e: Experience): string {
    if Truthy(e.description) then e.description.value else ""
  }

  /** `f"{edu.degree}{f' in {edu.field}' if edu.field else ''}"`, shared by the Markdown and HTML output. */
  function DegreeText(e: Education): string {
    e.degree + (if Truthy(e.field) then " in " + e.field.value else "")
  }

  /** The degree line starts with the degree and ends with ` in field` exactly when the field is non-empty. */
  lemma DegreeLine(e: Education)
    ensures StartsWith(DegreeText(e), e.degree)
    ensures Truthy(e.field) ==> EndsWith(DegreeText(e), " in " + e.field.value)
    ensures !Truthy(e.field) ==> DegreeText(e) == e.degree
  {
    StartsWithConcat(e.degree, if Truthy(e.field) then " in " + e.field.value else "");
    if Truthy(e.field) {
      var t := DegreeText(e);
      assert t[|t| - |" in " + e.field.value|..] == " in " + e.field.value;
    }
  }

  /**
    The section headings both renderers emit, in order: About, Experience and Education always,
    then Skills, Certifications, Languages and Recommendations when their list is non-empty.
   */
  function SectionTitles(p: LinkedInProfile): seq<string> {
    ["About", "Experience", "Education"]
    + (if p.skills != [] then ["Skills"] else [])
    + (if NonEmpty(p.certifications) then ["Certifications"] else [])
    + (if NonEmpty(p.languages) then ["Languages"] else [])
    + (if NonEmpty(p.recommendations) then ["Recommendations"] else [])
  }

  /**
    A text without a line break: no `\n`, and no `\r`, which Python's text-mode read (universal
    newlines) turns into `\n` when the Markdown file is read back.
   */
  predicate OneLine(s: string) {
    '\n' !in s && '\r' !in s
  }

  predicate OneLineOpt(o: Option<string>) {
    o.Some? ==> OneLine(o.value)
  }

  /** No field that either renderer prints holds a line break. */
  predicate NoLineBreaks(p: LinkedInProfile) {
    OneLine(p.name) && OneLine(p.headline) && OneLine(p.location) && OneLine(p.about)
    && (forall e | e in p.experience ::
          OneLine(e.title) && OneLine(e.company) && OneLine(e.duration) && OneLineOpt(e.description))
    && (forall e | e in p.education ::
          OneLine(e.school) && OneLine(e.degree) && OneLineOpt(e.field) && OneLineOpt(e.years))
    && (forall s | s in p.skills :: OneLine(s))
    && (forall c | c in Items(p.certifications) :: OneLine(c.name) && OneLine(c.issuer) && OneLineOpt(c.date))
    && (forall s | s in Items(p.languages) :: OneLine(s))
    && (forall r | r in Items(p.recommendations) ::
          OneLine(r.author) && OneLine(r.relationship) && OneLine(r.text))
  }
}
