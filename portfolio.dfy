/** The content document the admin page edits and the public galleries read.
    Every item is a whole record; list order is display order. */
module Portfolio {
  import opened Wrappers

  /** A case study. It has no identifier: its identity is its position in its list. */
  datatype Project = Project(title: string, image: string, summary: string, details: string, link: Option<string>)

  /** A gallery photo. `id` is a number (a creation timestamp); nothing makes it unique.
      `category` is free text, not an enumeration. */
  datatype Photo = Photo(id: int, src: string, alt: string, category: string)

  /** A showcase video; `url` is optional. */
  datatype Video = Video(id: int, title: string, category: string, url: Option<string>)

  /** The two case-study lists; `caseStudies[category]` in the source. */
  datatype CaseStudies = CaseStudies(store: seq<Project>, website: seq<Project>)

  datatype PortfolioData = PortfolioData(caseStudies: CaseStudies, photos: seq<Photo>, videos: seq<Video>)

  /** The two keys of `caseStudies`. */
  datatype ProjectCategory = Store | Website

  /** The keys of `Project`, `Photo` and `Video` that the editor writes strings into. */
  datatype ProjectField = Title | Image | Summary | Details | Link
  datatype PhotoField = Src | Alt | PhotoCategory
  datatype VideoField = VideoTitle | VideoCategory | Url

  function Projects(d: PortfolioData, c: ProjectCategory): seq<Project> {
    match c
    case Store => d.caseStudies.store
    case Website => d.caseStudies.website
  }

  /** `project[field]`: `None` stands for an absent optional `link`. */
  function ProjectGet(p: Project, f: ProjectField): Option<string> {
    match f
    case Title => Some(p.title)
    case Image => Some(p.image)
    case Summary => Some(p.summary)
    case Details => Some(p.details)
    case Link => p.link
  }

  /** `photo[field]` for the string-valued keys. */
  function PhotoGet(p: Photo, f: PhotoField): string {
    match f
    case Src => p.src
    case Alt => p.alt
    case PhotoCategory => p.category
  }

  /** `video[field]`: `None` stands for an absent optional `url`. */
  function VideoGet(v: Video, f: VideoField): Option<string> {
    match f
    case VideoTitle => Some(v.title)
    case VideoCategory => Some(v.category)
    case Url => v.url
  }

  /** A project is nothing but its five fields: two projects that agree on every
      field are the same project. */
  lemma ProjectExtensionality(p: Project, q: Project)
    requires forall f :: ProjectGet(p, f) == ProjectGet(q, f)
    ensures p == q
  {
    assert ProjectGet(p, Title) == ProjectGet(q, Title);
    assert ProjectGet(p, Image) == ProjectGet(q, Image);
    assert ProjectGet(p, Summary) == ProjectGet(q, Summary);
    assert ProjectGet(p, Details) == ProjectGet(q, Details);
    assert ProjectGet(p, Link) == ProjectGet(q, Link);
  }
}
