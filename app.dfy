/** App.tsx: the application shell. It keeps the list of projects (loaded
    from and saved to the browser's storage), the current view and the
    project open in the details view. */
module App {
  import opened Wrappers
  import opened Types
  import opened JsBuiltins
  import GrowthTracker

  datatype View = DashboardView | CreateView | DetailsView

  /** What `renderContent` puts on the page. */
  datatype Content =
    | DashboardContent(projects: seq<Project>)
    | WizardContent
    | DetailsContent(project: Project)
    | NoContent

  /** A project from the wizard's fields, the creation instant's ISO text as
      its id and the creation day written in the French locale. */
  function NewProject(draft: ProjectDraft, id: string, day: nat, month: nat, year: nat): (p: Project)
    ensures p.id == id && p.creationDate == FormatDateFr(day, month, year)
    ensures p.cropName == draft.cropName && p.fieldSizeHectares == draft.fieldSizeHectares
    ensures p.calculatedData == draft.calculatedData
    ensures p.soilType == draft.soilType && p.irrigationSystem == draft.irrigationSystem
  {
    Project(id, draft.cropName, draft.fieldSizeHectares, FormatDateFr(day, month, year),
            draft.calculatedData, draft.soilType, draft.irrigationSystem)
  }

  /** A project created today reads back, in the growth tracker, as started
      today: zero days passed, no progress, the Germination stage. */
  lemma NewProjectStartsToday(draft: ProjectDraft, id: string, day: nat, month: nat, year: nat)
    requires 1 <= month <= 12 && year >= 100 && InDateRange(DaysFromCivil(year, month, day))
    requires draft.calculatedData.estimatedGrowthTimeDays > 0
    ensures var p := NewProject(draft, id, day, month, year);
            var today := DaysFromCivil(year, month, day);
            var totalDays := p.calculatedData.estimatedGrowthTimeDays;
            && GrowthTracker.DaysPassed(p.creationDate, today, totalDays) == Some(0)
            && GrowthTracker.Progress(Some(0), totalDays) == Some(0.0)
            && GrowthTracker.CurrentStage(Some(0.0)).name == "Germination"
  {
    var p := NewProject(draft, id, day, month, year);
    var today := DaysFromCivil(year, month, day);
    GrowthTracker.StartDayOfFormattedDate(day, month, year);
    StartedOnDay(p.creationDate, today, p.calculatedData.estimatedGrowthTimeDays);
    NoDaysNoProgress(p.calculatedData.estimatedGrowthTimeDays);
    GrowthTracker.StageByProgress(0.0);
  }

  lemma NoDaysNoProgress(totalDays: int)
    requires totalDays > 0
    ensures GrowthTracker.Progress(Some(0), totalDays) == Some(0.0)
  {
    assert 0 as real / totalDays as real == 0.0;
  }

  lemma StartedOnDay(creationDate: string, today: int, totalDays: int)
    requires GrowthTracker.StartDay(creationDate) == Some(today) && totalDays > 0
    ensures GrowthTracker.DaysPassed(creationDate, today, totalDays) == Some(0)
  {
    assert GrowthTracker.RawDaysPassed(creationDate, today) == Some(0);
  }

  class AppState {
    var projects: seq<Project>
    /** The list as last written to storage under `agriProjects`. */
    var stored: seq<Project>
    var view: View
    var selectedProject: Option<Project>

    /** Storage mirrors the list; the open project is one of the list; the
        details view always has a project open once a project was chosen. */
    predicate Valid()
      reads this
    {
      && stored == projects
      && (selectedProject.Some? ==> selectedProject.value in projects)
      && (view == DetailsView ==> selectedProject.Some?)
    }

    /** The list saved earlier, or an empty one; the dashboard, nothing
        open. */
    constructor (saved: Option<seq<Project>>)
      ensures Valid()
      ensures projects == (if saved.Some? then saved.value else [])
      ensures view == DashboardView && selectedProject == None
    {
      projects := if saved.Some? then saved.value else [];
      stored := projects;
      view := DashboardView;
      selectedProject := None;
    }

    /** `handleCreateProject`: the new project goes at the end of the list,
        the earlier ones stay as they were, and the dashboard is shown. */
    method CreateProject(draft: ProjectDraft, id: string, day: nat, month: nat, year: nat)
      requires Valid()
      modifies this
      ensures Valid()
      ensures projects == old(projects) + [NewProject(draft, id, day, month, year)]
      ensures view == DashboardView && selectedProject == old(selectedProject)
    {
      projects := projects + [NewProject(draft, id, day, month, year)];
      stored := projects;
      view := DashboardView;
    }

    /** `handleSelectProject`: opens a project of the dashboard's list. */
    method SelectProject(p: Project)
      requires Valid() && p in projects
      modifies this
      ensures Valid()
      ensures selectedProject == Some(p) && view == DetailsView
      ensures projects == old(projects)
    {
      selectedProject := Some(p);
      view := DetailsView;
    }

    /** `handleBackToDashboard`: the header's back button. */
    method BackToDashboard()
      requires Valid()
      modifies this
      ensures Valid()
      ensures view == DashboardView && selectedProject == None
      ensures projects == old(projects)
    {
      view := DashboardView;
      selectedProject := None;
    }

    /** The dashboard's new-project button. */
    method OpenWizard()
      requires Valid()
      modifies this
      ensures Valid()
      ensures view == CreateView
      ensures projects == old(projects) && selectedProject == old(selectedProject)
    {
      view := CreateView;
    }

    /** The wizard's cancel callback. */
    method CancelCreate()
      requires Valid()
      modifies this
      ensures Valid()
      ensures view == DashboardView
      ensures projects == old(projects) && selectedProject == old(selectedProject)
    {
      view := DashboardView;
    }

    /** `renderContent`: the wizard for the create view, the open project
        for the details view (nothing when none is open), the dashboard
        over the whole list otherwise. */
    function RenderContent(): (c: Content)
      reads this
      ensures c.WizardContent? <==> view == CreateView
      ensures c.DashboardContent? <==> view == DashboardView
      ensures c.DashboardContent? ==> c.projects == projects
      ensures c.DetailsContent? <==> view == DetailsView && selectedProject.Some?
      ensures c.DetailsContent? ==> Some(c.project) == selectedProject
    {
      match view
      case CreateView => WizardContent
      case DetailsView => if selectedProject.Some? then DetailsContent(selectedProject.value) else NoContent
      case DashboardView => DashboardContent(projects)
    }

    /** The header shows the back button on every view but the dashboard. */
    function ShowBackButton(): (shown: bool)
      reads this
      ensures shown <==> !RenderContent().DashboardContent?
    {
      view != DashboardView
    }
  }

  /** In a valid shell the details view always renders a project of the
      list, never an empty page. */
  lemma ValidNeverRendersNothing(s: AppState)
    requires s.Valid()
    ensures !s.RenderContent().NoContent?
    ensures s.RenderContent().DetailsContent? ==> s.RenderContent().project in s.projects
  {
  }

  /** Creating a project from the wizard and reopening the app later: the
      project is in the stored list, which the next start loads. */
  method CreateThenReload(saved: Option<seq<Project>>, draft: ProjectDraft, id: string, day: nat, month: nat, year: nat)
    returns (reloaded: seq<Project>)
    ensures reloaded == (if saved.Some? then saved.value else []) + [NewProject(draft, id, day, month, year)]
  {
    var app := new AppState(saved);
    app.OpenWizard();
    app.CreateProject(draft, id, day, month, year);
    var next := new AppState(Some(app.stored));
    reloaded := next.projects;
  }
}
