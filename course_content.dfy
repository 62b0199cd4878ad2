/**
 * `CourseContentModal`: the course-authoring dialog. It edits the course's
 * metadata and its list of modules, attaches videos to modules, and publishes
 * the result through the course repository, as a new course or as an update
 * of the course being edited.
 */
module CourseContent {
  import opened Wrappers
  import opened Domain
  import Seqs
  import Text
  import CourseCatalog

  datatype Tab = Overview | Curriculum | Instructor | VideoEdit

  /** `Partial<Module>`: each present field overwrites the module's; `video` and `videoPreview` may be set to null. */
  datatype ModulePatch = ModulePatch(
    id: Option<string>,
    title: Option<string>,
    description: Option<string>,
    videoUploaded: Option<bool>,
    video: Option<Option<VideoFile>>,
    videoPreview: Option<Option<string>>,
    duration: Option<string>)

  /** `{ ...module, ...updates }`. */
  function MergeModule(m: ModuleData, p: ModulePatch): (r: ModuleData)
    ensures p.id.Some? ==> r.id == p.id.value
    ensures p.id.None? ==> r.id == m.id
    ensures p.title.Some? ==> r.title == p.title.value
    ensures p.title.None? ==> r.title == m.title
    ensures p.description.Some? ==> r.description == p.description.value
    ensures p.description.None? ==> r.description == m.description
    ensures p.videoUploaded.Some? ==> r.videoUploaded == p.videoUploaded.value
    ensures p.videoUploaded.None? ==> r.videoUploaded == m.videoUploaded
    ensures p.video.Some? ==> r.video == p.video.value
    ensures p.video.None? ==> r.video == m.video
    ensures p.videoPreview.Some? ==> r.videoPreview == p.videoPreview.value
    ensures p.videoPreview.None? ==> r.videoPreview == m.videoPreview
    ensures p.duration.Some? ==> r.duration == p.duration.value
    ensures p.duration.None? ==> r.duration == m.duration
  {
    ModuleData(p.id.GetOr(m.id), p.title.GetOr(m.title), p.description.GetOr(m.description),
               p.videoUploaded.GetOr(m.videoUploaded), p.video.GetOr(m.video),
               p.videoPreview.GetOr(m.videoPreview), p.duration.GetOr(m.duration))
  }

  /** The module `addModule` appends: a timestamp id, a title numbered after the current count, nothing else filled in. */
  function NewModule(now: nat, count: nat): (m: ModuleData)
    ensures m.id == Text.NatToString(now) && m.title == "Module " + Text.NatToString(count + 1)
    ensures m.description == "" && m.duration == "" && !m.videoUploaded
    ensures m.video.None? && m.videoPreview.None?
  {
    ModuleData(Text.NatToString(now), "Module " + Text.NatToString(count + 1), "", false, None, None, "")
  }

  function ModuleHasId(id: string): ModuleData -> bool {
    (m: ModuleData) => m.id == id
  }

  function ModuleLacksId(id: string): ModuleData -> bool {
    (m: ModuleData) => m.id != id
  }

  function FindModule(modules: seq<ModuleData>, id: string): (r: Option<ModuleData>)
    ensures r.None? <==> forall m :: m in modules ==> m.id != id
    ensures r.Some? ==> r.value in modules && r.value.id == id
  {
    Seqs.Find(modules, ModuleHasId(id))
  }

  /** `removeModule`: every module with the id is dropped; the rest keep their order. */
  function RemoveModules(modules: seq<ModuleData>, id: string): (r: seq<ModuleData>)
    ensures forall m :: m in r <==> m in modules && m.id != id
    ensures Seqs.IsSubsequence(r, modules)
    ensures forall m :: multiset(r)[m] == if m.id != id then multiset(modules)[m] else 0
  {
    Seqs.FilterCounts(modules, ModuleLacksId(id));
    Seqs.Filter(modules, ModuleLacksId(id))
  }

  /** `updateModule`: the patch is merged into the modules with the id, and into no other. */
  function UpdateModules(modules: seq<ModuleData>, id: string, p: ModulePatch): (r: seq<ModuleData>)
    ensures |r| == |modules|
    ensures forall i :: 0 <= i < |modules| && modules[i].id != id ==> r[i] == modules[i]
    ensures forall i :: 0 <= i < |modules| && modules[i].id == id ==> r[i] == MergeModule(modules[i], p)
  {
    Seqs.MapWhere(modules, ModuleHasId(id), (m: ModuleData) => MergeModule(m, p))
  }

  /** The updates a video upload merges in: the file, its preview URL and the uploaded flag. */
  function UploadPatch(file: VideoFile, url: string): (p: ModulePatch)
    ensures forall m: ModuleData :: MergeModule(m, p) == m.(videoUploaded := true, video := Some(file), videoPreview := Some(url))
  {
    ModulePatch(None, None, None, Some(true), Some(Some(file)), Some(Some(url)), None)
  }

  /** After an upload, the module found by the id is the old one carrying the file and the preview. */
  lemma UploadThenFind(modules: seq<ModuleData>, id: string, file: VideoFile, url: string)
    ensures FindModule(UpdateModules(modules, id, UploadPatch(file, url)), id) ==
            match FindModule(modules, id)
            case Some(m) => Some(m.(videoUploaded := true, video := Some(file), videoPreview := Some(url)))
            case None => None
  {
    Seqs.FindIndexMapWhere(modules, ModuleHasId(id), (m: ModuleData) => MergeModule(m, UploadPatch(file, url)));
  }

  /** The publish-time form of a module: the file is dropped and an empty preview becomes null. */
  function Sanitize(m: ModuleData): (r: ModuleData)
    ensures r.id == m.id && r.title == m.title && r.description == m.description
    ensures r.videoUploaded == m.videoUploaded && r.duration == m.duration
    ensures r.video.None?
    ensures r.videoPreview.Some? <==> m.videoPreview.Some? && m.videoPreview.value != ""
    ensures r.videoPreview.Some? ==> r.videoPreview == m.videoPreview
  {
    ModuleData(m.id, m.title, m.description, m.videoUploaded, None,
               if m.videoPreview == Some("") then None else m.videoPreview, m.duration)
  }

  /** `modules.map(...)` in `handlePublish`. */
  function SanitizeAll(modules: seq<ModuleData>): (r: seq<ModuleData>)
    ensures |r| == |modules|
    ensures forall i :: 0 <= i < |modules| ==> r[i] == Sanitize(modules[i])
  {
    seq(|modules|, i requires 0 <= i < |modules| => Sanitize(modules[i]))
  }

  /** Sanitising is idempotent: publishing an already-published module list changes none of its modules. */
  lemma SanitizeIdempotent(modules: seq<ModuleData>)
    ensures SanitizeAll(SanitizeAll(modules)) == SanitizeAll(modules)
  {
  }

  /** The course data `handlePublish` sends: the form's fields, the parsed price and the sanitised modules. */
  function PublishedDraft(title: string, description: string, category: string, price: real, duration: string,
                          instructor: string, instructorBio: string, modules: seq<ModuleData>): (d: CourseCatalog.CourseDraft)
    ensures d.title == title && d.description == description && d.category == category && d.price == price
    ensures d.duration == duration && d.instructor == instructor && d.instructorBio == Some(instructorBio)
    ensures d.modules == Some(SanitizeAll(modules)) && d.thumbnail.None?
  {
    CourseCatalog.CourseDraft(title, description, instructor, duration, price, category,
                              Some(instructorBio), Some(SanitizeAll(modules)), None)
  }

  /** The same data as a partial update: every sent field present, no id, students or thumbnail. */
  function AsPatch(d: CourseCatalog.CourseDraft): CourseCatalog.CoursePatch {
    CourseCatalog.CoursePatch(None, Some(d.title), Some(d.description), Some(d.instructor), Some(d.duration), None,
                              Some(d.price), Some(d.category), d.instructorBio, d.modules, None)
  }

  /**
   * Updating an existing course with the published data gives it exactly that
   * data, keeping its id, its student count and its thumbnail.
   */
  lemma UpdateAppliesDraft(c: Course, d: CourseCatalog.CourseDraft)
    requires d.instructorBio.Some? && d.modules.Some? && d.thumbnail.None?
    ensures var u := CourseCatalog.Merge(c, AsPatch(d));
            CourseCatalog.DraftOf(u) == d.(thumbnail := c.thumbnail) && u.id == c.id && u.students == c.students
  {
  }

  /** The Publish button is enabled: title, description and instructor filled in, and at least one module. */
  predicate PublishEnabled(title: string, description: string, instructor: string, modules: seq<ModuleData>): (b: bool)
    ensures b ==> |modules| >= 1 && |title| >= 1 && |description| >= 1 && |instructor| >= 1
    ensures title == "" || description == "" || instructor == "" || modules == [] ==> !b
  {
    title != "" && description != "" && instructor != "" && |modules| > 0
  }

  /** The video-editor tab is disabled while no module is selected. */
  predicate VideoTabDisabled(selected: Option<string>): (b: bool)
    ensures !b <==> exists id :: id != "" && selected == Some(id)
  {
    selected.None? || selected.value == ""
  }

  /** The dialog's state. `repo` is the course repository it publishes through. */
  class Editor {
    var title: string
    var description: string
    var category: string
    var price: string
    var duration: string
    var instructor: string
    var instructorBio: string
    var currentTab: Tab
    var modules: seq<ModuleData>
    var selectedModuleId: Option<string>
    const editCourse: Option<Course>
    const repo: CourseCatalog.CourseRepository

    /**
     * Opening the dialog, for `editCourse` or for a new course. Each field
     * starts from the edited course's, or empty; `priceText` is the edited
     * course's price as JavaScript writes it.
     */
    constructor (editCourse: Option<Course>, priceText: string, repo: CourseCatalog.CourseRepository)
      ensures this.editCourse == editCourse && this.repo == repo
      ensures editCourse.None? ==> title == "" && description == "" && category == "" && price == ""
                                   && duration == "" && instructor == "" && instructorBio == "" && modules == []
      ensures editCourse.Some? ==> title == editCourse.value.title && description == editCourse.value.description
                                   && category == editCourse.value.category && price == priceText
                                   && duration == editCourse.value.duration && instructor == editCourse.value.instructor
                                   && instructorBio == editCourse.value.instructorBio.GetOr("")
                                   && modules == editCourse.value.modules.GetOr([])
      ensures currentTab == Overview && selectedModuleId.None?
    {
      this.editCourse := editCourse;
      this.repo := repo;
      match editCourse {
        case None =>
          title, description, category, price := "", "", "", "";
          duration, instructor, instructorBio, modules := "", "", "", [];
        case Some(c) =>
          title, description, category, price := c.title, c.description, c.category, priceText;
          duration, instructor, instructorBio := c.duration, c.instructor, c.instructorBio.GetOr("");
          modules := c.modules.GetOr([]);
      }
      currentTab := Overview;
      selectedModuleId := None;
    }

    /** `addModule`, with `now` standing for `Date.now()`. */
    method AddModule(now: nat)
      modifies this`modules
      ensures modules == old(modules) + [NewModule(now, |old(modules)|)]
    {
      modules := modules + [NewModule(now, |modules|)];
    }

    /** `removeModule`. */
    method RemoveModule(id: string)
      modifies this`modules
      ensures modules == RemoveModules(old(modules), id)
    {
      modules := RemoveModules(modules, id);
    }

    /** `updateModule`. */
    method UpdateModule(id: string, p: ModulePatch)
      modifies this`modules
      ensures modules == UpdateModules(old(modules), id, p)
    {
      modules := UpdateModules(modules, id, p);
    }

    /**
     * `handleVideoUpload`: with a chosen file, attach it and its preview `url`
     * to the module, select the module and open the video editor; without a
     * file, nothing changes.
     */
    method HandleVideoUpload(id: string, file: Option<VideoFile>, url: string)
      modifies this`modules, this`selectedModuleId, this`currentTab
      ensures file.None? ==> modules == old(modules) && selectedModuleId == old(selectedModuleId) && currentTab == old(currentTab)
      ensures file.Some? ==> modules == UpdateModules(old(modules), id, UploadPatch(file.value, url))
                             && selectedModuleId == Some(id) && currentTab == VideoEdit
    {
      if file.Some? {
        UpdateModule(id, UploadPatch(file.value, url));
        selectedModuleId := Some(id);
        currentTab := VideoEdit;
      }
    }

    /** "Edit Video" on a module: select it. */
    method SelectModule(id: string)
      modifies this`selectedModuleId
      ensures selectedModuleId == Some(id)
    {
      selectedModuleId := Some(id);
    }

    /** "Save Video Changes": clear the selection, which disables the video-editor tab. */
    method SaveVideoChanges()
      modifies this`selectedModuleId
      ensures selectedModuleId.None? && VideoTabDisabled(selectedModuleId)
    {
      selectedModuleId := None;
    }

    /** Switching tabs; the video-editor tab cannot be chosen while it is disabled. */
    method SetTab(t: Tab)
      requires t == VideoEdit ==> !VideoTabDisabled(selectedModuleId)
      modifies this`currentTab
      ensures currentTab == t
    {
      currentTab := t;
    }

    /**
     * `handlePublish`, with `parsedPrice` standing for `parseFloat(price)`:
     * update the edited course, or create a new one.
     */
    method Publish(parsedPrice: real)
      requires PublishEnabled(title, description, instructor, modules)
      modifies repo
      ensures var d := PublishedDraft(title, description, category, parsedPrice, duration, instructor, instructorBio, modules);
              if editCourse.Some? then repo.courses == CourseCatalog.UpdateCourses(old(repo.courses), editCourse.value.id, AsPatch(d))
              else repo.courses == old(repo.courses) + [CourseCatalog.NewCourse(d, |old(repo.courses)|)]
      ensures !repo.loading
    {
      var d := PublishedDraft(title, description, category, parsedPrice, duration, instructor, instructorBio, modules);
      if editCourse.Some? {
        repo.UpdateCourse(editCourse.value.id, AsPatch(d));
      } else {
        var _ := repo.CreateCourse(d);
      }
    }
  }
}
