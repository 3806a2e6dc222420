/** The admin dashboard: a password gate, a working copy of the portfolio
    document edited in place, a confirmation gate in front of every delete, image
    uploads written back into the document, and the save round trip.
    Network replies arrive as outcome parameters. */
module Admin {
  import opened Wrappers
  import opened Portfolio
  import opened Editing
  import opened Text

  const Password := "12345"

  /** What the Delete button of the confirmation modal will do. The source's
      `onConfirm` closure captures the document as it was when the delete was
      requested; `snapshot` is that captured value. */
  datatype PendingDelete =
    | NoDelete
    | DeleteProject(category: ProjectCategory, index: nat, snapshot: Option<PortfolioData>)
    | DeletePhoto(index: nat, snapshot: Option<PortfolioData>)
    | DeleteVideo(index: nat, snapshot: Option<PortfolioData>)

  datatype ConfirmModal = ConfirmModal(isOpen: bool, onConfirm: PendingDelete, title: string, message: string)

  const ClosedModal := ConfirmModal(false, NoDelete, "", "")

  /** Which field an upload's URL is written into: a photo's `src`, or the `image`
      of a project in the given case-study list (no list: nothing is written). */
  datatype UploadTarget = PhotoUpload | ProjectUpload(category: Option<ProjectCategory>)

  /** How `fetch('/api/portfolio')` ended: a thrown failure, or a document body. */
  datatype FetchOutcome = FetchThrew | FetchedDocument(doc: PortfolioData)

  /** How the save request ended: a thrown failure (network, or a body that is not
      JSON), or a response with its `ok` flag and the `error`/`details` of its body. */
  datatype SaveOutcome = SaveThrew | SaveResponse(ok: bool, error: Option<string>, details: Option<string>)

  /** How the upload request ended; `url` is the `url` of the response body. */
  datatype UploadOutcome =
    | UploadThrew
    | UploadResponse(ok: bool, url: Option<string>, error: Option<string>, details: Option<string>)

  /** `${x}` of an optional string: an absent value prints as `undefined`. */
  function Interpolate(x: Option<string>): string {
    x.GetOr("undefined")
  }

  /** The `Details:` tail of an alert: only for a truthy (present, non-empty) `details`. */
  function DetailsSuffix(details: Option<string>): (r: string)
    ensures r == "" <==> (details.None? || details.value == "")
  {
    if details.Some? && Truthy(details.value) then "\n\nDetails: " + details.value else ""
  }

  /** The alert that `handleSave` shows for an outcome, if any. */
  function SaveAlert(o: SaveOutcome): (alert: Option<string>)
    ensures alert.None? <==> (o.SaveResponse? && o.ok)
  {
    match o
    case SaveThrew => Some("An unexpected error occurred while saving.")
    case SaveResponse(ok, error, details) =>
      if ok then None
      else Some("Failed to update portfolio: " + Interpolate(error) + DetailsSuffix(details))
  }

  /** The URL an upload outcome carries, when `res.ok && json.url` holds. */
  function UploadedUrl(o: UploadOutcome): (url: Option<string>)
    ensures url.Some? <==> (o.UploadResponse? && o.ok && o.url.Some? && Truthy(o.url.value))
    ensures url.Some? ==> url == o.url
  {
    if o.UploadResponse? && o.ok && o.url.Some? && Truthy(o.url.value) then o.url else None
  }

  /** The alert that `handleFileUpload` shows for an outcome, if any. */
  function UploadAlert(o: UploadOutcome): (alert: Option<string>)
    ensures alert.None? <==> UploadedUrl(o).Some?
  {
    match o
    case UploadThrew => Some("An unexpected error occurred during upload.")
    case UploadResponse(ok, url, error, details) =>
      if ok && url.Some? && Truthy(url.value) then None
      else Some("Failed to upload image: " + Interpolate(error) + DetailsSuffix(details))
  }

  /** The document after Delete runs `onConfirm` against the current document. */
  function ApplyDelete(p: PendingDelete, current: Option<PortfolioData>): (r: Option<PortfolioData>)
    ensures p.NoDelete? ==> r == current
    ensures !p.NoDelete? && p.snapshot.None? ==> r == current
    ensures p.DeleteProject? && p.snapshot.Some? ==> r == Some(RemoveProject(p.snapshot.value, p.category, p.index))
    ensures p.DeletePhoto? && p.snapshot.Some? ==> r == Some(RemovePhoto(p.snapshot.value, p.index))
    ensures p.DeleteVideo? && p.snapshot.Some? ==> r == Some(RemoveVideo(p.snapshot.value, p.index))
  {
    match p
    case NoDelete => current
    case DeleteProject(c, i, snapshot) => if snapshot.None? then current else Some(RemoveProject(snapshot.value, c, i))
    case DeletePhoto(i, snapshot) => if snapshot.None? then current else Some(RemovePhoto(snapshot.value, i))
    case DeleteVideo(i, snapshot) => if snapshot.None? then current else Some(RemoveVideo(snapshot.value, i))
  }

  /** The list index an upload target refers to is in range of the document. */
  predicate UploadIndexInRange(d: PortfolioData, index: nat, target: UploadTarget) {
    match target
    case PhotoUpload => index < |d.photos|
    case ProjectUpload(c) => c.Some? ==> index < |Projects(d, c.value)|
  }

  /** The document after an upload outcome's URL is written into its target. */
  function ApplyUpload(d: PortfolioData, index: nat, target: UploadTarget, o: UploadOutcome): (r: PortfolioData)
    requires UploadIndexInRange(d, index, target)
    ensures UploadedUrl(o).None? ==> r == d
    ensures target.ProjectUpload? && target.category.None? ==> r == d
    ensures UploadedUrl(o).Some? && target.PhotoUpload? ==> r == UpdatePhoto(d, index, Src, UploadedUrl(o).value)
    ensures UploadedUrl(o).Some? && target.ProjectUpload? && target.category.Some? ==>
              r == UpdateProject(d, target.category.value, index, Image, UploadedUrl(o).value)
  {
    match UploadedUrl(o)
    case None => d
    case Some(url) =>
      match target
      case PhotoUpload => UpdatePhoto(d, index, Src, url)
      case ProjectUpload(c) => if c.Some? then UpdateProject(d, c.value, index, Image, url) else d
  }

  /** A successful photo upload puts the returned URL in exactly that photo's `src`
      and leaves every other photo, field and list alone. */
  lemma PhotoUploadWritesSrc(d: PortfolioData, index: nat, o: UploadOutcome)
    requires index < |d.photos| && UploadedUrl(o).Some?
    ensures ApplyUpload(d, index, PhotoUpload, o).photos[index].src == o.url.value
    ensures ApplyUpload(d, index, PhotoUpload, o).photos[index].alt == d.photos[index].alt
    ensures ApplyUpload(d, index, PhotoUpload, o).photos[index].category == d.photos[index].category
    ensures forall j :: 0 <= j < |d.photos| && j != index ==> ApplyUpload(d, index, PhotoUpload, o).photos[j] == d.photos[j]
    ensures ApplyUpload(d, index, PhotoUpload, o).caseStudies == d.caseStudies
    ensures ApplyUpload(d, index, PhotoUpload, o).videos == d.videos
  {
  }

  /** When nothing changed the document between the delete request and the click
      on Delete, the click removes exactly the requested project from the current
      document. */
  lemma ConfirmRemovesRequestedProject(d: PortfolioData, c: ProjectCategory, index: nat)
    requires index < |Projects(d, c)|
    ensures ApplyDelete(DeleteProject(c, index, Some(d)), Some(d)).Some?
    ensures var r := ApplyDelete(DeleteProject(c, index, Some(d)), Some(d)).value;
            && |Projects(r, c)| == |Projects(d, c)| - 1
            && multiset(Projects(r, c)) + multiset{Projects(d, c)[index]} == multiset(Projects(d, c))
            && (forall o :: o != c ==> Projects(r, o) == Projects(d, o))
            && r.photos == d.photos && r.videos == d.videos
  {
    SpliceMultiset(Projects(d, c), index);
  }

  class AdminDashboard {
    var isAuthenticated: bool
    var data: Option<PortfolioData>
    var loading: bool
    var saving: bool
    var uploading: Option<nat>
    var showSuccess: bool
    var confirmModal: ConfirmModal

    /** A document is only ever loaded (or captured by a pending delete) after
        login; a save is only in flight for a loaded document; an open modal
        always has a delete to confirm. */
    ghost predicate Valid()
      reads this
    {
      && (data.Some? ==> isAuthenticated)
      && (!confirmModal.onConfirm.NoDelete? && confirmModal.onConfirm.snapshot.Some? ==> isAuthenticated)
      && (saving ==> data.Some?)
      && (confirmModal.isOpen ==> !confirmModal.onConfirm.NoDelete?)
    }

    /** The page's initial state: logged out, nothing loaded, modal closed. */
    constructor ()
      ensures Valid()
      ensures !isAuthenticated && data.None? && loading && !saving && uploading.None? && !showSuccess
      ensures confirmModal == ClosedModal
    {
      isAuthenticated := false;
      data := None;
      loading := true;
      saving := false;
      uploading := None;
      showSuccess := false;
      confirmModal := ClosedModal;
    }

    /** `handleLogin`: only the literal password authenticates. */
    method HandleLogin(password: string) returns (alert: Option<string>)
      requires Valid()
      modifies this`isAuthenticated
      ensures Valid()
      ensures isAuthenticated == (old(isAuthenticated) || password == Password)
      ensures alert == if password == Password then None else Some("Incorrect password")
    {
      if password == Password {
        isAuthenticated := true;
        alert := None;
      } else {
        alert := Some("Incorrect password");
      }
    }

    /** `fetchPortfolio`, run once authentication succeeds. */
    method FetchPortfolio(outcome: FetchOutcome)
      requires Valid() && isAuthenticated
      modifies this`data, this`loading
      ensures Valid()
      ensures data == if outcome.FetchedDocument? then Some(outcome.doc) else old(data)
      ensures !loading
    {
      if outcome.FetchedDocument? {
        data := Some(outcome.doc);
      }
      loading := false;
    }

    /** The first half of `handleSave`, up to the request: returns the body it
        sends (the whole working copy), or nothing when no document is loaded. */
    method BeginSave() returns (request: Option<PortfolioData>)
      requires Valid() && !saving
      modifies this`saving
      ensures Valid()
      ensures request == data
      ensures saving == data.Some?
    {
      if data.None? {
        return None;
      }
      saving := true;
      request := data;
    }

    /** The second half of `handleSave`: the document is never touched, and
        `saving` ends false whatever the outcome. */
    method FinishSave(outcome: SaveOutcome) returns (alert: Option<string>)
      requires Valid() && saving
      modifies this`saving, this`showSuccess
      ensures Valid()
      ensures !saving
      ensures showSuccess == ((outcome.SaveResponse? && outcome.ok) || old(showSuccess))
      ensures alert == SaveAlert(outcome)
    {
      if outcome.SaveResponse? && outcome.ok {
        showSuccess := true;
      }
      alert := SaveAlert(outcome);
      saving := false;
    }

    /** `handleFileUpload(file, index, type, category)`, with the request's
        outcome given. Only a reply that is ok and carries a URL changes the
        document; `uploading` is cleared in every outcome. */
    method HandleFileUpload(index: nat, target: UploadTarget, outcome: UploadOutcome) returns (alert: Option<string>)
      requires Valid()
      requires data.Some? ==> UploadIndexInRange(data.value, index, target)
      modifies this`data, this`uploading
      ensures Valid()
      ensures data == if old(data).None? then None else Some(ApplyUpload(old(data).value, index, target, outcome))
      ensures uploading.None?
      ensures alert == UploadAlert(outcome)
    {
      uploading := Some(index);
      var url := UploadedUrl(outcome);
      if url.Some? {
        match target {
          case PhotoUpload =>
            UpdatePhotoField(index, Src, url.value);
          case ProjectUpload(c) =>
            if c.Some? {
              UpdateProjectField(c.value, index, Image, url.value);
            }
        }
      }
      alert := UploadAlert(outcome);
      uploading := None;
    }

    /** `updateProject(category, index, field, value)`. */
    method UpdateProjectField(c: ProjectCategory, index: nat, f: ProjectField, v: string)
      requires Valid()
      requires data.Some? ==> index < |Projects(data.value, c)|
      modifies this`data
      ensures Valid()
      ensures data == if old(data).None? then None else Some(UpdateProject(old(data).value, c, index, f, v))
    {
      if data.None? {
        return;
      }
      var newData := data.value;
      var list := Projects(newData, c);
      list := list[index := SetProjectField(list[index], f, v)];
      data := Some(WithProjects(newData, c, list));
    }

    /** `addProject(category)`. */
    method AddProjectItem(c: ProjectCategory)
      requires Valid()
      modifies this`data
      ensures Valid()
      ensures data == if old(data).None? then None else Some(AddProject(old(data).value, c))
    {
      if data.None? {
        return;
      }
      var newData := data.value;
      var list := Prepend(EmptyProject(), Projects(newData, c));
      data := Some(WithProjects(newData, c, list));
    }

    /** `removeProject(category, index)`: opens the modal and changes nothing else. */
    method RemoveProjectItem(c: ProjectCategory, index: nat)
      requires Valid()
      modifies this`confirmModal
      ensures Valid()
      ensures confirmModal == ConfirmModal(true, DeleteProject(c, index, data), "Delete Project?",
                                           "Are you sure you want to remove this project? This action cannot be undone.")
    {
      confirmModal := ConfirmModal(true, DeleteProject(c, index, data), "Delete Project?",
                                   "Are you sure you want to remove this project? This action cannot be undone.");
    }

    /** `updatePhoto(index, field, value)`. */
    method UpdatePhotoField(index: nat, f: PhotoField, v: string)
      requires Valid()
      requires data.Some? ==> index < |data.value.photos|
      modifies this`data
      ensures Valid()
      ensures data == if old(data).None? then None else Some(UpdatePhoto(old(data).value, index, f, v))
    {
      if data.None? {
        return;
      }
      var newData := data.value;
      var photos := newData.photos;
      photos := photos[index := SetPhotoField(photos[index], f, v)];
      data := Some(newData.(photos := photos));
    }

    /** `addPhoto()`, where `now` is `Date.now()`. */
    method AddPhotoItem(now: int)
      requires Valid()
      modifies this`data
      ensures Valid()
      ensures data == if old(data).None? then None else Some(AddPhoto(old(data).value, now))
    {
      if data.None? {
        return;
      }
      var newData := data.value;
      data := Some(newData.(photos := Prepend(NewPhoto(now), newData.photos)));
    }

    /** `removePhoto(index)`: opens the modal and changes nothing else. */
    method RemovePhotoItem(index: nat)
      requires Valid()
      modifies this`confirmModal
      ensures Valid()
      ensures confirmModal == ConfirmModal(true, DeletePhoto(index, data), "Delete Photo?",
                                           "Are you sure you want to remove this photo from the gallery?")
    {
      confirmModal := ConfirmModal(true, DeletePhoto(index, data), "Delete Photo?",
                                   "Are you sure you want to remove this photo from the gallery?");
    }

    /** `updateVideo(index, field, value)`. */
    method UpdateVideoField(index: nat, f: VideoField, v: string)
      requires Valid()
      requires data.Some? ==> index < |data.value.videos|
      modifies this`data
      ensures Valid()
      ensures data == if old(data).None? then None else Some(UpdateVideo(old(data).value, index, f, v))
    {
      if data.None? {
        return;
      }
      var newData := data.value;
      var videos := newData.videos;
      videos := videos[index := SetVideoField(videos[index], f, v)];
      data := Some(newData.(videos := videos));
    }

    /** `addVideo()`, where `now` is `Date.now()`. */
    method AddVideoItem(now: int)
      requires Valid()
      modifies this`data
      ensures Valid()
      ensures data == if old(data).None? then None else Some(AddVideo(old(data).value, now))
    {
      if data.None? {
        return;
      }
      var newData := data.value;
      data := Some(newData.(videos := Prepend(NewVideo(now), newData.videos)));
    }

    /** `removeVideo(index)`: opens the modal and changes nothing else. */
    method RemoveVideoItem(index: nat)
      requires Valid()
      modifies this`confirmModal
      ensures Valid()
      ensures confirmModal == ConfirmModal(true, DeleteVideo(index, data), "Delete Video?",
                                           "Are you sure you want to remove this video from the showcase?")
    {
      confirmModal := ConfirmModal(true, DeleteVideo(index, data), "Delete Video?",
                                   "Are you sure you want to remove this video from the showcase?");
    }

    /** The modal's Delete button: runs `onConfirm`, then closes the modal. */
    method ConfirmDelete()
      requires Valid() && confirmModal.isOpen
      modifies this`data, this`confirmModal
      ensures Valid()
      ensures data == ApplyDelete(old(confirmModal.onConfirm), old(data))
      ensures confirmModal == old(confirmModal).(isOpen := false)
    {
      match confirmModal.onConfirm {
        case NoDelete =>
        case DeleteProject(c, i, snapshot) =>
          if snapshot.Some? {
            var newData := snapshot.value;
            data := Some(WithProjects(newData, c, Splice(Projects(newData, c), i)));
          }
        case DeletePhoto(i, snapshot) =>
          if snapshot.Some? {
            var newData := snapshot.value;
            data := Some(newData.(photos := Splice(newData.photos, i)));
          }
        case DeleteVideo(i, snapshot) =>
          if snapshot.Some? {
            var newData := snapshot.value;
            data := Some(newData.(videos := Splice(newData.videos, i)));
          }
      }
      confirmModal := confirmModal.(isOpen := false);
    }

    /** The modal's Cancel button and its backdrop: close without touching the document. */
    method CloseModal()
      requires Valid()
      modifies this`confirmModal
      ensures Valid()
      ensures confirmModal == old(confirmModal).(isOpen := false)
    {
      confirmModal := confirmModal.(isOpen := false);
    }
  }
}
