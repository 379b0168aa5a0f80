/**
 * The normalised CV document handed to the page templates (the `CV`,
 * `Basics` and `PageLayout` declarations), and its encoding back into a
 * value tree. Entries of the sequence fields, and every optional field of
 * `Basics`, are carried as the raw values the data file held: the loader
 * passes them through without looking inside.
 */
module CvTypes {
  import opened Json

  datatype PageLayout = Single | Two

  /** `title` holds the document's `label` field (a reserved word in Dafny). */
  datatype Basics = Basics(
    name: Json,
    title: Json,
    image: Json,
    email: Json,
    phone: Json,
    url: Json,
    summary: Json,
    theme: Json,
    location: Json,
    profiles: seq<Json>,
    beian: Json,
    about: Json)

  datatype CV = CV(
    analyticsCode: Json,
    pageLayout: PageLayout,
    basics: Basics,
    work: seq<Json>,
    volunteer: seq<Json>,
    education: seq<Json>,
    awards: seq<Json>,
    certificates: seq<Json>,
    publications: seq<Json>,
    skills: seq<Json>,
    languages: seq<Json>,
    interests: seq<Json>,
    references: seq<Json>,
    projects: seq<Json>,
    images: Json)

  /** The eleven sequence fields of a CV document. */
  datatype SequenceField =
    | Work | Volunteer | Education | Awards | Certificates | Publications
    | Skills | Languages | Interests | References | Projects

  /** The document field holding each sequence. */
  function Key(f: SequenceField): string {
    match f
    case Work => "work"
    case Volunteer => "volunteer"
    case Education => "education"
    case Awards => "awards"
    case Certificates => "certificates"
    case Publications => "publications"
    case Skills => "skills"
    case Languages => "languages"
    case Interests => "interests"
    case References => "references"
    case Projects => "projects"
  }

  /** The sequence field `f` of `cv`. */
  function Sequence(cv: CV, f: SequenceField): seq<Json> {
    match f
    case Work => cv.work
    case Volunteer => cv.volunteer
    case Education => cv.education
    case Awards => cv.awards
    case Certificates => cv.certificates
    case Publications => cv.publications
    case Skills => cv.skills
    case Languages => cv.languages
    case Interests => cv.interests
    case References => cv.references
    case Projects => cv.projects
  }

  function LayoutToJson(layout: PageLayout): Json {
    match layout
    case Single => Str("single")
    case Two => Str("two")
  }

  function BasicsToJson(b: Basics): Json {
    Obj(map[
      "name" := b.name,
      "label" := b.title,
      "image" := b.image,
      "email" := b.email,
      "phone" := b.phone,
      "url" := b.url,
      "summary" := b.summary,
      "theme" := b.theme,
      "location" := b.location,
      "profiles" := Arr(b.profiles),
      "beian" := b.beian,
      "about" := b.about])
  }

  /** The object the loader builds for a CV, as a value tree. */
  function CVToJson(cv: CV): Json {
    Obj(map[
      "analyticsCode" := cv.analyticsCode,
      "pageLayout" := LayoutToJson(cv.pageLayout),
      "basics" := BasicsToJson(cv.basics),
      "work" := Arr(cv.work),
      "volunteer" := Arr(cv.volunteer),
      "education" := Arr(cv.education),
      "awards" := Arr(cv.awards),
      "certificates" := Arr(cv.certificates),
      "publications" := Arr(cv.publications),
      "skills" := Arr(cv.skills),
      "languages" := Arr(cv.languages),
      "interests" := Arr(cv.interests),
      "references" := Arr(cv.references),
      "projects" := Arr(cv.projects),
      "images" := cv.images])
  }
}
