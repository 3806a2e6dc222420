/** The document edits of the admin page, as functions from the old working copy
    to the new one. Each source helper deep-copies the document and then changes
    one list of the copy; on values the copy is implicit. */
module Editing {
  import opened Wrappers
  import opened Portfolio

  // ---------------------------------------------------------------------------
  // List surgery

  /** `list.unshift(x)`. */
  function Prepend<T>(x: T, s: seq<T>): (r: seq<T>)
    ensures |r| == |s| + 1 && r[0] == x
    ensures forall i :: 0 <= i < |s| ==> r[i + 1] == s[i]
  {
    [x] + s
  }

  /** `list.splice(index, 1)` for a non-negative index: removes the item at `index`,
      and removes nothing when `index` is past the end. */
  function Splice<T>(s: seq<T>, index: nat): (r: seq<T>)
    ensures index < |s| ==> |r| == |s| - 1
    ensures index >= |s| ==> r == s
    ensures forall j :: 0 <= j < index && j < |r| ==> r[j] == s[j]
    ensures forall j :: index <= j < |r| ==> r[j] == s[j + 1]
  {
    if index < |s| then s[..index] + s[index + 1..] else s
  }

  /** `list.splice(index, 0, x)`: the reference insertion used to state that a
      removal loses exactly one item. */
  function Insert<T>(s: seq<T>, index: nat, x: T): (r: seq<T>)
    requires index <= |s|
    ensures |r| == |s| + 1 && r[index] == x
  {
    s[..index] + [x] + s[index..]
  }

  /** Putting the removed item back where it was restores the list. */
  lemma SpliceInsert<T>(s: seq<T>, index: nat)
    requires index < |s|
    ensures Insert(Splice(s, index), index, s[index]) == s
  {
    var r := Splice(s, index);
    assert r[..index] == s[..index];
    assert r[index..] == s[index + 1..];
  }

  /** A removal takes exactly one occurrence of the removed item out of the list. */
  lemma SpliceMultiset<T>(s: seq<T>, index: nat)
    requires index < |s|
    ensures multiset(Splice(s, index)) + multiset{s[index]} == multiset(s)
  {
    assert s == s[..index] + [s[index]] + s[index + 1..];
  }

  /** Removing the item just added restores the list. */
  lemma SplicePrepend<T>(x: T, s: seq<T>)
    ensures Splice(Prepend(x, s), 0) == s
  {
  }

  // ---------------------------------------------------------------------------
  // Item edits: `{ ...item, [field]: value }`

  function SetProjectField(p: Project, f: ProjectField, v: string): (q: Project)
    ensures ProjectGet(q, f) == Some(v)
    ensures forall g :: g != f ==> ProjectGet(q, g) == ProjectGet(p, g)
  {
    match f
    case Title => p.(title := v)
    case Image => p.(image := v)
    case Summary => p.(summary := v)
    case Details => p.(details := v)
    case Link => p.(link := Some(v))
  }

  function SetPhotoField(p: Photo, f: PhotoField, v: string): (q: Photo)
    ensures PhotoGet(q, f) == v && q.id == p.id
    ensures forall g :: g != f ==> PhotoGet(q, g) == PhotoGet(p, g)
  {
    match f
    case Src => p.(src := v)
    case Alt => p.(alt := v)
    case PhotoCategory => p.(category := v)
  }

  function SetVideoField(w: Video, f: VideoField, v: string): (q: Video)
    ensures VideoGet(q, f) == Some(v) && q.id == w.id
    ensures forall g :: g != f ==> VideoGet(q, g) == VideoGet(w, g)
  {
    match f
    case VideoTitle => w.(title := v)
    case VideoCategory => w.(category := v)
    case Url => w.(url := Some(v))
  }

  // ---------------------------------------------------------------------------
  // Templates that the add buttons prepend; `now` is `Date.now()`.

  function EmptyProject(): Project {
    Project("", "", "", "", Some(""))
  }

  function NewPhoto(now: int): Photo {
    Photo(now, "", "", "Model")
  }

  function NewVideo(now: int): Video {
    Video(now, "", "Commercial", Some(""))
  }

  // ---------------------------------------------------------------------------
  // Document edits

  /** The document with the case-study list of `c` replaced by `ps`. */
  function WithProjects(d: PortfolioData, c: ProjectCategory, ps: seq<Project>): (r: PortfolioData)
    ensures Projects(r, c) == ps
    ensures forall o :: o != c ==> Projects(r, o) == Projects(d, o)
    ensures r.photos == d.photos && r.videos == d.videos
  {
    match c
    case Store => d.(caseStudies := d.caseStudies.(store := ps))
    case Website => d.(caseStudies := d.caseStudies.(website := ps))
  }

  /** `updateProject(category, index, field, value)` on a loaded document. */
  function UpdateProject(d: PortfolioData, c: ProjectCategory, index: nat, f: ProjectField, v: string): (r: PortfolioData)
    requires index < |Projects(d, c)|
    ensures |Projects(r, c)| == |Projects(d, c)|
    ensures ProjectGet(Projects(r, c)[index], f) == Some(v)
    ensures forall g :: g != f ==> ProjectGet(Projects(r, c)[index], g) == ProjectGet(Projects(d, c)[index], g)
    ensures forall j :: 0 <= j < |Projects(d, c)| && j != index ==> Projects(r, c)[j] == Projects(d, c)[j]
    ensures forall o :: o != c ==> Projects(r, o) == Projects(d, o)
    ensures r.photos == d.photos && r.videos == d.videos
  {
    var ps := Projects(d, c);
    WithProjects(d, c, ps[index := SetProjectField(ps[index], f, v)])
  }

  /** `addProject(category)`: the empty template becomes item 0 and every old item
      moves up by one. */
  function AddProject(d: PortfolioData, c: ProjectCategory): (r: PortfolioData)
    ensures |Projects(r, c)| == |Projects(d, c)| + 1
    ensures Projects(r, c)[0] == EmptyProject()
    ensures forall j :: 0 <= j < |Projects(d, c)| ==> Projects(r, c)[j + 1] == Projects(d, c)[j]
    ensures forall o :: o != c ==> Projects(r, o) == Projects(d, o)
    ensures r.photos == d.photos && r.videos == d.videos
  {
    WithProjects(d, c, Prepend(EmptyProject(), Projects(d, c)))
  }

  /** The confirmed half of `removeProject(category, index)`. */
  function RemoveProject(d: PortfolioData, c: ProjectCategory, index: nat): (r: PortfolioData)
    ensures Projects(r, c) == Splice(Projects(d, c), index)
    ensures forall o :: o != c ==> Projects(r, o) == Projects(d, o)
    ensures r.photos == d.photos && r.videos == d.videos
  {
    WithProjects(d, c, Splice(Projects(d, c), index))
  }

  /** `updatePhoto(index, field, value)` on a loaded document. */
  function UpdatePhoto(d: PortfolioData, index: nat, f: PhotoField, v: string): (r: PortfolioData)
    requires index < |d.photos|
    ensures |r.photos| == |d.photos|
    ensures PhotoGet(r.photos[index], f) == v && r.photos[index].id == d.photos[index].id
    ensures forall g :: g != f ==> PhotoGet(r.photos[index], g) == PhotoGet(d.photos[index], g)
    ensures forall j :: 0 <= j < |d.photos| && j != index ==> r.photos[j] == d.photos[j]
    ensures r.caseStudies == d.caseStudies && r.videos == d.videos
  {
    d.(photos := d.photos[index := SetPhotoField(d.photos[index], f, v)])
  }

  /** `addPhoto()`, stamped with `now`. */
  function AddPhoto(d: PortfolioData, now: int): (r: PortfolioData)
    ensures |r.photos| == |d.photos| + 1
    ensures r.photos[0] == NewPhoto(now)
    ensures forall j :: 0 <= j < |d.photos| ==> r.photos[j + 1] == d.photos[j]
    ensures r.caseStudies == d.caseStudies && r.videos == d.videos
  {
    d.(photos := Prepend(NewPhoto(now), d.photos))
  }

  /** The confirmed half of `removePhoto(index)`. */
  function RemovePhoto(d: PortfolioData, index: nat): (r: PortfolioData)
    ensures r.photos == Splice(d.photos, index)
    ensures r.caseStudies == d.caseStudies && r.videos == d.videos
  {
    d.(photos := Splice(d.photos, index))
  }

  /** `updateVideo(index, field, value)` on a loaded document. */
  function UpdateVideo(d: PortfolioData, index: nat, f: VideoField, v: string): (r: PortfolioData)
    requires index < |d.videos|
    ensures |r.videos| == |d.videos|
    ensures VideoGet(r.videos[index], f) == Some(v) && r.videos[index].id == d.videos[index].id
    ensures forall g :: g != f ==> VideoGet(r.videos[index], g) == VideoGet(d.videos[index], g)
    ensures forall j :: 0 <= j < |d.videos| && j != index ==> r.videos[j] == d.videos[j]
    ensures r.caseStudies == d.caseStudies && r.photos == d.photos
  {
    d.(videos := d.videos[index := SetVideoField(d.videos[index], f, v)])
  }

  /** `addVideo()`, stamped with `now`. */
  function AddVideo(d: PortfolioData, now: int): (r: PortfolioData)
    ensures |r.videos| == |d.videos| + 1
    ensures r.videos[0] == NewVideo(now)
    ensures forall j :: 0 <= j < |d.videos| ==> r.videos[j + 1] == d.videos[j]
    ensures r.caseStudies == d.caseStudies && r.photos == d.photos
  {
    d.(videos := Prepend(NewVideo(now), d.videos))
  }

  /** The confirmed half of `removeVideo(index)`. */
  function RemoveVideo(d: PortfolioData, index: nat): (r: PortfolioData)
    ensures r.videos == Splice(d.videos, index)
    ensures r.caseStudies == d.caseStudies && r.photos == d.photos
  {
    d.(videos := Splice(d.videos, index))
  }

  // ---------------------------------------------------------------------------
  // How edits combine

  /** Writing a field with the value it already holds changes nothing. */
  lemma UpdateProjectSameValue(d: PortfolioData, c: ProjectCategory, index: nat, f: ProjectField, v: string)
    requires index < |Projects(d, c)|
    requires ProjectGet(Projects(d, c)[index], f) == Some(v)
    ensures UpdateProject(d, c, index, f, v) == d
  {
    var r := UpdateProject(d, c, index, f, v);
    ProjectExtensionality(Projects(r, c)[index], Projects(d, c)[index]);
  }

  /** Two writes to the same field: the second one wins. */
  lemma UpdateProjectLastWins(d: PortfolioData, c: ProjectCategory, index: nat, f: ProjectField, v: string, w: string)
    requires index < |Projects(d, c)|
    ensures UpdateProject(UpdateProject(d, c, index, f, v), c, index, f, w) == UpdateProject(d, c, index, f, w)
  {
    var a := UpdateProject(UpdateProject(d, c, index, f, v), c, index, f, w);
    var b := UpdateProject(d, c, index, f, w);
    ProjectExtensionality(Projects(a, c)[index], Projects(b, c)[index]);
  }

  /** Writes to two different fields of a project give the same document in
      either order. */
  lemma UpdateProjectCommutes(d: PortfolioData, c: ProjectCategory, index: nat, f: ProjectField, v: string, g: ProjectField, w: string)
    requires index < |Projects(d, c)| && f != g
    ensures UpdateProject(UpdateProject(d, c, index, f, v), c, index, g, w)
         == UpdateProject(UpdateProject(d, c, index, g, w), c, index, f, v)
  {
    var a := UpdateProject(UpdateProject(d, c, index, f, v), c, index, g, w);
    var b := UpdateProject(UpdateProject(d, c, index, g, w), c, index, f, v);
    ProjectExtensionality(Projects(a, c)[index], Projects(b, c)[index]);
  }

  /** Two writes to the same field of a photo: the second one wins. */
  lemma UpdatePhotoLastWins(d: PortfolioData, index: nat, f: PhotoField, v: string, w: string)
    requires index < |d.photos|
    ensures UpdatePhoto(UpdatePhoto(d, index, f, v), index, f, w) == UpdatePhoto(d, index, f, w)
  {
  }

  /** Two writes to the same field of a video: the second one wins. */
  lemma UpdateVideoLastWins(d: PortfolioData, index: nat, f: VideoField, v: string, w: string)
    requires index < |d.videos|
    ensures UpdateVideo(UpdateVideo(d, index, f, v), index, f, w) == UpdateVideo(d, index, f, w)
  {
  }

  /** Deleting the project that was just added gives back the document. */
  lemma AddThenRemoveProject(d: PortfolioData, c: ProjectCategory)
    ensures RemoveProject(AddProject(d, c), c, 0) == d
  {
    SplicePrepend(EmptyProject(), Projects(d, c));
  }

  /** Deleting the photo that was just added gives back the document. */
  lemma AddThenRemovePhoto(d: PortfolioData, now: int)
    ensures RemovePhoto(AddPhoto(d, now), 0) == d
  {
    SplicePrepend(NewPhoto(now), d.photos);
  }

  /** Deleting the video that was just added gives back the document. */
  lemma AddThenRemoveVideo(d: PortfolioData, now: int)
    ensures RemoveVideo(AddVideo(d, now), 0) == d
  {
    SplicePrepend(NewVideo(now), d.videos);
  }

  /** A confirmed project delete loses exactly the deleted project: putting it
      back where it was restores the document. */
  lemma RemoveProjectLosesOnlyThatItem(d: PortfolioData, c: ProjectCategory, index: nat)
    requires index < |Projects(d, c)|
    ensures WithProjects(RemoveProject(d, c, index), c,
                         Insert(Projects(RemoveProject(d, c, index), c), index, Projects(d, c)[index])) == d
  {
    SpliceInsert(Projects(d, c), index);
  }
}
