/**
 * The project catalog (hooks/useProjects.ts) and the lookups both screens run
 * over it: the activities of a project, the sub-activities of an activity and
 * the dropdown options built from them (app/createTask.tsx, app/dailyActivities.tsx).
 */
module Catalog {
  import opened Js
  import opened Dropdown

  datatype SubActivity = SubActivity(
    id: string, name: string, satuan: string, volumeKontrak: real, weight: real, order: int)

  datatype Activity = Activity(id: string, name: string, order: int, subActivities: seq<SubActivity>)

  datatype Project = Project(
    id: string, pekerjaan: string, penyediaJasa: string, nilaiKontrak: string,
    tanggalKontrak: string, akhirKontrak: string, fisikProgress: real, fisikTarget: real,
    activities: seq<Activity>)

  /** `projects.find(p => p.id === id)`: the first project carrying the id, if any. */
  function FindProject(projects: seq<Project>, id: string): (r: Option<Project>)
    ensures r.None? <==> forall i :: 0 <= i < |projects| ==> projects[i].id != id
    ensures r.Some? ==> exists i :: 0 <= i < |projects| && projects[i] == r.value && r.value.id == id
                          && forall j :: 0 <= j < i ==> projects[j].id != id
  {
    if projects == [] then None
    else if projects[0].id == id then Some(projects[0])
    else
      var r := FindProject(projects[1..], id);
      assert r.Some? ==> exists i :: 0 <= i < |projects[1..]| && projects[1..][i] == r.value
                          && forall j :: 0 <= j < i ==> projects[1..][j].id != id;
      r
  }

  /** `activities.find(a => a.id === id)`: the first activity carrying the id, if any. */
  function FindActivity(activities: seq<Activity>, id: string): (r: Option<Activity>)
    ensures r.None? <==> forall i :: 0 <= i < |activities| ==> activities[i].id != id
    ensures r.Some? ==> exists i :: 0 <= i < |activities| && activities[i] == r.value && r.value.id == id
                          && forall j :: 0 <= j < i ==> activities[j].id != id
  {
    if activities == [] then None
    else if activities[0].id == id then Some(activities[0])
    else
      var r := FindActivity(activities[1..], id);
      assert r.Some? ==> exists i :: 0 <= i < |activities[1..]| && activities[1..][i] == r.value
                          && forall j :: 0 <= j < i ==> activities[1..][j].id != id;
      r
  }

  /** The activities listed for a project id: none for an empty or unknown id. */
  function ActivitiesOf(projects: seq<Project>, projectId: string): (r: seq<Activity>)
    ensures projectId == "" || FindProject(projects, projectId).None? ==> r == []
    ensures projectId != "" && FindProject(projects, projectId).Some? ==>
              r == FindProject(projects, projectId).value.activities
  {
    if projectId == "" then []
    else match FindProject(projects, projectId)
      case Some(p) => p.activities
      case None => []
  }

  /** The sub-activities listed for an activity id: none for an empty or unknown id. */
  function SubActivitiesOf(activities: seq<Activity>, activityId: string): (r: seq<SubActivity>)
    ensures activityId == "" || FindActivity(activities, activityId).None? ==> r == []
    ensures activityId != "" && FindActivity(activities, activityId).Some? ==>
              r == FindActivity(activities, activityId).value.subActivities
  {
    if activityId == "" then []
    else match FindActivity(activities, activityId)
      case Some(a) => a.subActivities
      case None => []
  }

  // ---------------------------------------------------------------------------
  // Dropdown options (app/createTask.tsx)

  function ProjectChoices(projects: seq<Project>): (r: seq<Choice>)
    ensures |r| == |projects|
    ensures forall i :: 0 <= i < |r| ==> r[i] == Choice(projects[i].pekerjaan, projects[i].id)
  {
    if projects == [] then [] else [Choice(projects[0].pekerjaan, projects[0].id)] + ProjectChoices(projects[1..])
  }

  function ActivityChoices(activities: seq<Activity>): (r: seq<Choice>)
    ensures |r| == |activities|
    ensures forall i :: 0 <= i < |r| ==> r[i] == Choice(activities[i].name, activities[i].id)
  {
    if activities == [] then [] else [Choice(activities[0].name, activities[0].id)] + ActivityChoices(activities[1..])
  }

  function SubActivityChoices(subs: seq<SubActivity>): (r: seq<Choice>)
    ensures |r| == |subs|
    ensures forall i :: 0 <= i < |r| ==> r[i] == Choice(subs[i].name, subs[i].id)
  {
    if subs == [] then [] else [Choice(subs[0].name, subs[0].id)] + SubActivityChoices(subs[1..])
  }

  /** Some option carries the value. */
  predicate Offers(options: seq<Choice>, value: string) {
    exists i :: 0 <= i < |options| && options[i].value == value
  }

  /** `getActivityOptions`: empty unless the selected project id is set and known. */
  function ActivityOptions(projects: seq<Project>, selectedProject: string): (r: seq<Choice>)
    ensures selectedProject == "" || FindProject(projects, selectedProject).None? ==> r == []
  {
    if selectedProject == "" then []
    else match FindProject(projects, selectedProject)
      case None => []
      case Some(project) => ActivityChoices(project.activities)
  }

  /** `getSubActivityOptions`: empty unless both selected ids are set and known. */
  function SubActivityOptions(projects: seq<Project>, selectedProject: string, selectedActivity: string): (r: seq<Choice>)
    ensures selectedProject == "" || selectedActivity == "" ==> r == []
    ensures FindProject(projects, selectedProject).None? ==> r == []
    ensures (FindProject(projects, selectedProject).Some?
             && FindActivity(FindProject(projects, selectedProject).value.activities, selectedActivity).None?) ==> r == []
  {
    if selectedProject == "" || selectedActivity == "" then []
    else match FindProject(projects, selectedProject)
      case None => []
      case Some(project) =>
        match FindActivity(project.activities, selectedActivity)
        case None => []
        case Some(activity) => SubActivityChoices(activity.subActivities)
  }

  /**
   * The two screens agree: the options the report form offers are the choices
   * built from the lists the history filters keep for the same ids.
   */
  lemma OptionsAgreeWithFilterLists(projects: seq<Project>, p: string, a: string)
    ensures ActivityOptions(projects, p) == ActivityChoices(ActivitiesOf(projects, p))
    ensures SubActivityOptions(projects, p, a) == SubActivityChoices(SubActivitiesOf(ActivitiesOf(projects, p), a))
  {
  }

  /** A project the lookup finds is among the project options. */
  lemma FoundProjectOffered(projects: seq<Project>, p: string)
    requires FindProject(projects, p).Some?
    ensures Offers(ProjectChoices(projects), p)
  {
    var i :| 0 <= i < |projects| && projects[i] == FindProject(projects, p).value && projects[i].id == p
               && forall j :: 0 <= j < i ==> projects[j].id != p;
    assert ProjectChoices(projects)[i].value == p;
  }

  /** An activity the lookup finds is among the activity options. */
  lemma FoundActivityOffered(activities: seq<Activity>, a: string)
    requires FindActivity(activities, a).Some?
    ensures Offers(ActivityChoices(activities), a)
  {
    var k :| 0 <= k < |activities| && activities[k] == FindActivity(activities, a).value && activities[k].id == a
               && forall j :: 0 <= j < k ==> activities[j].id != a;
    assert ActivityChoices(activities)[k].value == a;
  }

  /** The project and activity ids of every sub-activity option are themselves offered. */
  lemma SubOptionImpliesActivityOption(projects: seq<Project>, p: string, a: string, s: string)
    requires Offers(SubActivityOptions(projects, p, a), s)
    ensures Offers(ProjectChoices(projects), p)
    ensures Offers(ActivityOptions(projects, p), a)
  {
    FoundProjectOffered(projects, p);
    FoundActivityOffered(FindProject(projects, p).value.activities, a);
  }

  // ---------------------------------------------------------------------------
  // The demonstration catalog used when the live catalog cannot be loaded

  function MockCatalog(): (r: seq<Project>)
    ensures |r| == 2 && r[0].id != r[1].id
  {
    [MockIrrigation(), MockRehabilitation()]
  }

  /** The project dropdown over the demonstration catalog offers its two projects, in order. */
  lemma MockProjectChoices()
    ensures ProjectChoices(MockCatalog()) ==
              [Choice("Pembangunan Irigasi Desa Sukamaju", "cm0txl9yk00015wjn8h2r3k7b"),
               Choice("Rehabilitasi Jaringan Irigasi Cikampek", "cm0txl9yk00025wjn8h2r3k8c")]
  {
    var r := ProjectChoices(MockCatalog());
    assert r[0] == Choice("Pembangunan Irigasi Desa Sukamaju", "cm0txl9yk00015wjn8h2r3k7b");
  }

  function MockIrrigation(): Project {
    Project("cm0txl9yk00015wjn8h2r3k7b", "Pembangunan Irigasi Desa Sukamaju", "CV Maju Bersama",
      "Rp 5,500,000,000", "2025-01-15", "2025-12-15", 25.5, 100.0,
      [
        Activity("act001", "Pekerjaan Persiapan", 1, [
          SubActivity("sub001", "Pembersihan Lahan", "m2", 1500.0, 15.0, 1),
          SubActivity("sub002", "Pematokan", "m", 500.0, 10.0, 2)]),
        Activity("act002", "Pekerjaan Galian", 2, [
          SubActivity("sub003", "Galian Saluran Primer", "m3", 2500.0, 30.0, 1),
          SubActivity("sub004", "Galian Saluran Sekunder", "m3", 1200.0, 20.0, 2)]),
        Activity("act003", "Pekerjaan Struktur", 3, [
          SubActivity("sub005", "Pemasangan Pintu Air", "unit", 5.0, 15.0, 1),
          SubActivity("sub006", "Pembetonan Saluran", "m", 800.0, 10.0, 2)])
      ])
  }

  function MockRehabilitation(): Project {
    Project("cm0txl9yk00025wjn8h2r3k8c", "Rehabilitasi Jaringan Irigasi Cikampek", "PT Bangun Karya",
      "Rp 8,200,000,000", "2025-02-01", "2026-01-31", 45.2, 100.0,
      [
        Activity("act004", "Pekerjaan Pembongkaran", 1, [
          SubActivity("sub007", "Pembongkaran Struktur Lama", "m3", 800.0, 20.0, 1)]),
        Activity("act005", "Pekerjaan Rekonstruksi", 2, [
          SubActivity("sub008", "Pembuatan Pondasi", "m3", 600.0, 25.0, 1),
          SubActivity("sub009", "Pemasangan Dinding", "m2", 1500.0, 35.0, 2),
          SubActivity("sub010", "Finishing", "m2", 1500.0, 20.0, 3)])
      ])
  }

  /** The demonstration catalog: the activities of its first project. */
  lemma MockProjectActivities()
    ensures ActivityOptions(MockCatalog(), "cm0txl9yk00015wjn8h2r3k7b") ==
              [Choice("Pekerjaan Persiapan", "act001"), Choice("Pekerjaan Galian", "act002"),
               Choice("Pekerjaan Struktur", "act003")]
  {
    assert FindProject(MockCatalog(), "cm0txl9yk00015wjn8h2r3k7b") == Some(MockIrrigation());
  }

  /** The demonstration catalog: the sub-activities of one of its activities. */
  lemma MockActivitySubActivities()
    ensures SubActivityOptions(MockCatalog(), "cm0txl9yk00015wjn8h2r3k7b", "act002") ==
              [Choice("Galian Saluran Primer", "sub003"), Choice("Galian Saluran Sekunder", "sub004")]
  {
    var p := MockIrrigation();
    assert FindProject(MockCatalog(), "cm0txl9yk00015wjn8h2r3k7b") == Some(p);
    assert FindActivity(p.activities, "act002") == Some(p.activities[1]);
  }

  /** An activity of another project, or an unknown project, offers nothing. */
  lemma MockCascadeMisses()
    ensures SubActivityOptions(MockCatalog(), "cm0txl9yk00025wjn8h2r3k8c", "act001") == []
    ensures ActivityOptions(MockCatalog(), "unknown") == []
  {
    var q := MockRehabilitation();
    assert FindProject(MockCatalog(), "cm0txl9yk00025wjn8h2r3k8c") == Some(q);
    assert FindActivity(q.activities, "act001") == None;
    assert FindProject(MockCatalog(), "unknown") == None;
  }
}
