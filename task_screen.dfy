/**
 * The state of `CreateTaskScreen` (app/createTask.tsx): the catalog, the three
 * cascading selections, the form fields, the CREATE/UPDATE mode, the
 * attachment list and the `submitting` flag, with the handlers that change
 * them. Every network answer is a parameter.
 */
module TaskScreen {
  import opened Js
  import opened Dropdown
  import opened Catalog
  import opened Attachments
  import opened Uploader
  import opened Resolver
  import opened Submission

  /** How the catalog request ended. */
  datatype CatalogOutcome = CatalogThrew | CatalogNotOk(status: int) | CatalogAnswered(success: bool, data: seq<Project>)

  /** `fetchProjects`: the served catalog on success, the demonstration catalog on every other path. */
  function CatalogOf(outcome: CatalogOutcome): (r: seq<Project>)
    ensures outcome.CatalogAnswered? && outcome.success ==> r == outcome.data
    ensures !(outcome.CatalogAnswered? && outcome.success) ==> r == MockCatalog()
  {
    if outcome.CatalogAnswered? && outcome.success then outcome.data else MockCatalog()
  }

  class CreateTaskScreen {
    var projectsData: seq<Project>
    var loading: bool
    var selectedProject: string
    var selectedActivity: string
    var selectedSubActivity: string
    var progress: string
    var catatan: string
    var koordinat: string
    var isUpdateMode: bool
    var loadingExistingData: bool
    var submitting: bool
    /** The report date, today's date when the screen was created. */
    const tanggalProgres: string
    /** The attachment list and its component. */
    const uploader: ImageUploader

    predicate Valid()
      reads this, uploader
    {
      uploader.Valid()
    }

    /** Every selected level is among the options its parent level offers. */
    predicate Consistent()
      reads this
    {
      (selectedActivity != "" ==> Offers(ActivityOptions(projectsData, selectedProject), selectedActivity))
      && (selectedSubActivity != "" ==>
            Offers(SubActivityOptions(projectsData, selectedProject, selectedActivity), selectedSubActivity))
    }

    /** The fields the existing-record lookup seeds. */
    function Fields(): Form
      reads this, uploader
    {
      Form(progress, catatan, koordinat, uploader.images)
    }

    constructor (today: string)
      ensures Valid() && Consistent() && fresh(uploader)
      ensures projectsData == [] && loading && !submitting && !isUpdateMode && !loadingExistingData
      ensures selectedProject == "" && selectedActivity == "" && selectedSubActivity == ""
      ensures Fields() == EmptyForm && tanggalProgres == today
      ensures uploader.maxImages == MAX_IMAGES && uploader.maxSize == MAX_SIZE
    {
      projectsData, loading := [], true;
      selectedProject, selectedActivity, selectedSubActivity := "", "", "";
      progress, catatan, koordinat := "", "", "";
      isUpdateMode, loadingExistingData, submitting := false, false, false;
      tanggalProgres := today;
      uploader := new ImageUploader(MAX_IMAGES, MAX_SIZE);
    }

    /** `fetchProjects` once its request settled; `loading` is cleared on every path. */
    method LoadCatalog(outcome: CatalogOutcome)
      requires Valid()
      modifies this
      ensures Valid()
      ensures projectsData == CatalogOf(outcome) && !loading
      ensures selectedProject == old(selectedProject) && selectedActivity == old(selectedActivity)
      ensures selectedSubActivity == old(selectedSubActivity)
      ensures Fields() == old(Fields()) && isUpdateMode == old(isUpdateMode)
      ensures loadingExistingData == old(loadingExistingData) && submitting == old(submitting)
    {
      loading := true;
      if outcome.CatalogAnswered? && outcome.success {
        projectsData := outcome.data;
      } else {
        projectsData := MockCatalog();
      }
      loading := false;
    }

    /** `handleProjectChange`: the lower levels are cleared; the form is left alone. */
    method OnProjectChange(projectId: string)
      requires Valid()
      modifies this
      ensures Valid() && Consistent()
      ensures selectedProject == projectId && selectedActivity == "" && selectedSubActivity == ""
      ensures Fields() == old(Fields()) && isUpdateMode == old(isUpdateMode) && projectsData == old(projectsData)
      ensures loading == old(loading) && loadingExistingData == old(loadingExistingData)
      ensures submitting == old(submitting)
    {
      selectedProject := projectId;
      selectedActivity := "";
      selectedSubActivity := "";
    }

    /** `handleActivityChange`: the sub-activity is cleared. */
    method OnActivityChange(activityId: string)
      requires Valid()
      modifies this
      ensures Valid()
      ensures selectedActivity == activityId && selectedSubActivity == "" && selectedProject == old(selectedProject)
      ensures Fields() == old(Fields()) && isUpdateMode == old(isUpdateMode) && projectsData == old(projectsData)
      ensures loading == old(loading) && loadingExistingData == old(loadingExistingData)
      ensures submitting == old(submitting)
      ensures old(activityId == "" || Offers(ActivityOptions(projectsData, selectedProject), activityId)) ==> Consistent()
    {
      selectedActivity := activityId;
      selectedSubActivity := "";
    }

    /**
     * `handleSubActivityChange` up to the lookup request: the selection is
     * taken, and a non-empty id starts the lookup (`loadingExistingData`).
     */
    method SelectSubActivity(subActivityId: string)
      requires Valid()
      modifies this
      ensures Valid()
      ensures selectedSubActivity == subActivityId
      ensures loadingExistingData == (subActivityId != "" || old(loadingExistingData))
      ensures selectedProject == old(selectedProject) && selectedActivity == old(selectedActivity)
      ensures Fields() == old(Fields()) && isUpdateMode == old(isUpdateMode) && projectsData == old(projectsData)
      ensures loading == old(loading) && submitting == old(submitting)
      ensures old(Consistent()) && old(subActivityId == ""
                || Offers(SubActivityOptions(projectsData, selectedProject, selectedActivity), subActivityId))
              ==> Consistent()
    {
      selectedSubActivity := subActivityId;
      if subActivityId != "" {
        loadingExistingData := true;
      }
    }

    /**
     * `fetchExistingDailyData` once the lookup for `answeredId` settled: the
     * mode and the form as the resolver decides, `loadingExistingData`
     * cleared. The answer is applied whatever is selected by then, so a slow
     * answer for an earlier selection overwrites the form of a later one.
     */
    method SettleLookup(answeredId: string, outcome: LookupOutcome, now: nat)
      requires Valid()
      modifies this, uploader
      ensures Valid()
      ensures Fields() == Seed(old(Fields()), Resolve(answeredId, outcome), now)
      ensures isUpdateMode == match Resolve(answeredId, outcome)
                              case Skipped => old(isUpdateMode)
                              case CreateMode => false
                              case UpdateMode(_) => true
      ensures loadingExistingData == (old(loadingExistingData) && answeredId == "")
      ensures selectedProject == old(selectedProject) && selectedActivity == old(selectedActivity)
      ensures selectedSubActivity == old(selectedSubActivity)
      ensures projectsData == old(projectsData) && loading == old(loading) && submitting == old(submitting)
      ensures uploader.rendered == old(uploader.rendered)
    {
      var resolution := Resolve(answeredId, outcome);
      if resolution.Skipped? {
        return;
      }
      match resolution {
        case CreateMode =>
          isUpdateMode := false;
          progress, catatan, koordinat := "", "", "";
          uploader.Replace([]);
        case UpdateMode(record) =>
          isUpdateMode := true;
          var seeded := Populate(Fields(), record, now);
          progress, catatan, koordinat := seeded.progress, seeded.catatan, seeded.koordinat;
          if record.files.Some? {
            SeededIdsDistinct(record.files.value, now);
            uploader.Replace(seeded.images);
          }
      }
      loadingExistingData := false;
    }

    /**
     * `SettleLookup` as evidently intended: an answer for a sub-activity that
     * is no longer selected is dropped, so the form only ever reflects the
     * lookup of the current selection.
     */
    method SettleLookupCorrected(answeredId: string, outcome: LookupOutcome, now: nat)
      requires Valid()
      modifies this, uploader
      ensures Valid()
      ensures answeredId != old(selectedSubActivity) ==>
                Fields() == old(Fields()) && isUpdateMode == old(isUpdateMode)
                && loadingExistingData == old(loadingExistingData)
      ensures answeredId == old(selectedSubActivity) ==>
                Fields() == Seed(old(Fields()), Resolve(answeredId, outcome), now)
                && loadingExistingData == (old(loadingExistingData) && answeredId == "")
      ensures isUpdateMode == if answeredId != old(selectedSubActivity) then old(isUpdateMode)
                              else match Resolve(answeredId, outcome)
                                case Skipped => old(isUpdateMode)
                                case CreateMode => false
                                case UpdateMode(_) => true
      ensures selectedProject == old(selectedProject) && selectedActivity == old(selectedActivity)
      ensures selectedSubActivity == old(selectedSubActivity)
      ensures projectsData == old(projectsData) && loading == old(loading) && submitting == old(submitting)
      ensures uploader.rendered == old(uploader.rendered)
    {
      if answeredId == selectedSubActivity {
        SettleLookup(answeredId, outcome, now);
      }
    }

    /**
     * `handleSubmit` up to the request: the checks, then `submitting` is
     * raised. The handler belongs to the render where submit was tapped, so
     * its files are those of the rendered list, and the mode it later words
     * the alert with is the one of that render, returned here.
     */
    method BeginSubmit() returns (s: Submission, submittedInUpdateMode: bool)
      requires Valid()
      modifies this
      ensures Valid()
      ensures s == Assemble(selectedProject, selectedActivity, selectedSubActivity, tanggalProgres,
                            catatan, uploader.rendered)
      ensures submittedInUpdateMode == isUpdateMode
      ensures submitting == (s.Ready? || old(submitting))
      ensures Fields() == old(Fields()) && selectedSubActivity == old(selectedSubActivity)
      ensures selectedProject == old(selectedProject) && selectedActivity == old(selectedActivity)
      ensures isUpdateMode == old(isUpdateMode) && projectsData == old(projectsData)
      ensures loading == old(loading) && loadingExistingData == old(loadingExistingData)
    {
      s := Assemble(selectedProject, selectedActivity, selectedSubActivity, tanggalProgres,
                    catatan, uploader.rendered);
      submittedInUpdateMode := isUpdateMode;
      if s.Ready? {
        submitting := true;
      }
      assert Fields() == Form(old(progress), old(catatan), old(koordinat), old(uploader.images));
    }

    /**
     * `handleSubmit` after the request: the alert, worded in the mode
     * captured when submit was tapped, and `submitting` cleared on every path.
     */
    method FinishSubmit(submittedInUpdateMode: bool, outcome: UpsertOutcome) returns (r: SubmitResult)
      requires Valid()
      modifies this
      ensures Valid()
      ensures r == SubmitResultOf(submittedInUpdateMode, outcome) && !submitting
      ensures Fields() == old(Fields()) && isUpdateMode == old(isUpdateMode)
      ensures selectedProject == old(selectedProject) && selectedActivity == old(selectedActivity)
      ensures selectedSubActivity == old(selectedSubActivity) && projectsData == old(projectsData)
      ensures loading == old(loading) && loadingExistingData == old(loadingExistingData)
    {
      r := SubmitResultOf(submittedInUpdateMode, outcome);
      submitting := false;
    }
  }

  /** A stored record with progress "12.5" and no coordinates or files. */
  const StoredRecord := ExistingRecord(Some("12.5"), Some("Galian 20 m"), None, None)

  /**
   * The race as written: "sub001" is picked, then "sub002"; the lookup for
   * "sub002" answers 404 first, and the slower answer for "sub001" then puts
   * the screen in UPDATE mode with that record while "sub002" stays selected.
   */
  method StaleAnswerRace(now: nat) returns (screen: CreateTaskScreen)
    ensures screen.selectedSubActivity == "sub002"
    ensures screen.isUpdateMode && screen.progress == "12.5" && screen.catatan == "Galian 20 m"
  {
    screen := new CreateTaskScreen("2025-01-15");
    screen.SelectSubActivity("sub001");
    screen.SelectSubActivity("sub002");
    screen.SettleLookup("sub002", NotOk(404), now);
    screen.SettleLookup("sub001", Answered(true, Records([StoredRecord])), now);
  }

  /** The same sequence with the corrected settle step: the form stays the one "sub002" resolved to. */
  method StaleAnswerIgnored(now: nat) returns (screen: CreateTaskScreen)
    ensures screen.selectedSubActivity == "sub002"
    ensures !screen.isUpdateMode && screen.Fields() == EmptyForm && !screen.loadingExistingData
  {
    screen := new CreateTaskScreen("2025-01-15");
    screen.SelectSubActivity("sub001");
    screen.SelectSubActivity("sub002");
    screen.SettleLookupCorrected("sub002", NotOk(404), now);
    screen.SettleLookupCorrected("sub001", Answered(true, Records([StoredRecord])), now);
  }

  /**
   * A lookup that settles while the upsert is in flight: submit is tapped in
   * CREATE mode, the record found for the selected sub-activity then turns
   * the screen to UPDATE mode, and the alert still reads "dibuat".
   */
  method ModeCapturedAtTap(now: nat) returns (screen: CreateTaskScreen, r: SubmitResult)
    ensures screen.isUpdateMode && !screen.submitting
    ensures r == Saved("Laporan harian berhasil dibuat!")
  {
    screen := new CreateTaskScreen("2025-01-15");
    screen.OnProjectChange("proj1");
    screen.OnActivityChange("act1");
    screen.SelectSubActivity("sub001");
    var s, submittedInUpdateMode := screen.BeginSubmit();
    screen.SettleLookup("sub001", Answered(true, Records([StoredRecord])), now);
    r := screen.FinishSubmit(submittedInUpdateMode, UpsertAnswered(true, None));
  }
}
