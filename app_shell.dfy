/**
 * The application shell: the notification queue behind the toasts and the notification
 * panel, the project list with its active project, and the sidebar toggle.
 */
module AppShell {
  import opened Wrappers
  import opened Seqs
  import opened Ids

  datatype NotificationType = Info | Warning | Error | Success

  datatype Notification = Notification(id: string, kind: NotificationType, title: string, message: string, timestamp: int)

  datatype ProjectStatus = Active | Initializing

  datatype Project = Project(id: string, name: string, template: string, description: string,
                             status: ProjectStatus, createdAt: int)

  datatype View = Dashboard | Pipeline | Pulse | Forge | Architect | Profile | Settings | Help

  /** Viewports narrower than this are treated as mobile. */
  const MobileBreakpoint := 768

  function InitialProject(now: int): Project
  {
    Project(DefaultProjectId, "Main Cluster", "general", "Primary production environment", Active, now)
  }

  /** The notifications shown as toasts: the first three, which are the newest. */
  function Toasts(ns: seq<Notification>): (r: seq<Notification>)
    ensures |r| <= 3 && r <= ns
    ensures |ns| <= 3 ==> r == ns
    ensures |ns| >= 3 ==> |r| == 3
  {
    if |ns| <= 3 then ns else ns[..3]
  }

  /** The notifications left after closing those with id `id`. */
  function WithoutId(ns: seq<Notification>, id: string): (r: seq<Notification>)
    ensures forall n :: n in r <==> n in ns && n.id != id
    ensures IsSubsequence(r, ns)
    ensures forall n :: multiset(r)[n] == if n.id != id then multiset(ns)[n] else 0
  {
    FilterIsSubsequence(ns, (n: Notification) => n.id != id);
    FilterCount(ns, (n: Notification) => n.id != id);
    Filter(ns, (n: Notification) => n.id != id)
  }

  /** Closing an id that is not in the list leaves it as it was. */
  lemma WithoutAbsentId(ns: seq<Notification>, id: string)
    requires forall n :: n in ns ==> n.id != id
    ensures WithoutId(ns, id) == ns
  {
    FilterKeepsAll(ns, (n: Notification) => n.id != id);
  }

  /** The index `Array.prototype.findIndex` returns for the first project with id `id`. */
  function FindIndex(ps: seq<Project>, id: string): (r: Option<nat>)
    ensures r.Some? ==> r.value < |ps| && ps[r.value].id == id &&
                        forall j :: 0 <= j < r.value ==> ps[j].id != id
    ensures r.None? ==> forall j :: 0 <= j < |ps| ==> ps[j].id != id
  {
    if ps == [] then None
    else if ps[0].id == id then Some(0)
    else match FindIndex(ps[1..], id)
      case None => None
      case Some(k) => Some(k + 1)
  }

  /** The active project: the first with the active id, or else the first project. */
  function ActiveProject(ps: seq<Project>, activeId: string): (p: Project)
    requires |ps| > 0
    ensures p in ps
    ensures (exists k :: 0 <= k < |ps| && ps[k].id == activeId) ==> p.id == activeId
    ensures (forall k :: 0 <= k < |ps| ==> ps[k].id != activeId) ==> p == ps[0]
    ensures forall k :: 0 <= k < |ps| && ps[k].id == activeId && (forall j :: 0 <= j < k ==> ps[j].id != activeId) ==>
      p == ps[k]
  {
    match FindIndex(ps, activeId)
    case Some(k) => ps[k]
    case None => ps[0]
  }

  /** Some project in `ps` has id `id`. */
  predicate HasId(ps: seq<Project>, id: string)
  {
    exists k :: 0 <= k < |ps| && ps[k].id == id
  }

  /** A project appended under a fresh id is the one the active-project lookup finds for that id. */
  lemma ActiveAppended(ps: seq<Project>, p: Project)
    requires !HasId(ps, p.id)
    ensures ActiveProject(ps + [p], p.id) == p
  {
    var qs := ps + [p];
    assert qs[|ps|] == p;
    assert forall k :: 0 <= k < |ps| ==> qs[k] == ps[k];
  }

  /** The projects after the delayed completion of project `id`. */
  function MarkActive(ps: seq<Project>, id: string): (r: seq<Project>)
    ensures |r| == |ps|
    ensures forall k :: 0 <= k < |r| ==> r[k] == ps[k] || r[k].status == Active
  {
    seq(|ps|, k requires 0 <= k < |ps| => if ps[k].id == id then ps[k].(status := Active) else ps[k])
  }

  /** Completion changes only the status of the projects with that id, and only to active. */
  lemma MarkActiveOnlyTarget(ps: seq<Project>, id: string, k: nat)
    requires k < |ps|
    ensures var r := MarkActive(ps, id);
      |r| == |ps| &&
      (ps[k].id != id ==> r[k] == ps[k]) &&
      (ps[k].id == id ==> r[k].status == Active && r[k].(status := ps[k].status) == ps[k])
  {
  }

  class AppState {
    var currentView: View
    var sidebarCollapsed: bool
    var mobileMenuOpen: bool
    var projects: seq<Project>
    var activeProjectId: string
    var notifications: seq<Notification>
    var newProjectModalOpen: bool
    var newProjectName: string
    var newProjectTemplate: string
    var newProjectDescription: string

    /** The project list is never empty, so the active project always exists. */
    ghost predicate Valid()
      reads this
    {
      |projects| > 0
    }

    constructor (now: int)
      ensures Valid()
      ensures currentView == Dashboard && !sidebarCollapsed && !mobileMenuOpen
      ensures projects == [InitialProject(now)] && activeProjectId == DefaultProjectId
      ensures notifications == [] && !newProjectModalOpen
      ensures newProjectName == "" && newProjectTemplate == "empty" && newProjectDescription == ""
    {
      currentView := Dashboard;
      sidebarCollapsed := false;
      mobileMenuOpen := false;
      projects := [InitialProject(now)];
      activeProjectId := DefaultProjectId;
      notifications := [];
      newProjectModalOpen := false;
      newProjectName := "";
      newProjectTemplate := "empty";
      newProjectDescription := "";
    }

    function Current(): (p: Project)
      reads this
      requires Valid()
      ensures p in projects
    {
      ActiveProject(projects, activeProjectId)
    }

    /** On narrow screens the button opens or closes the mobile menu, otherwise it folds the sidebar. */
    method ToggleSidebar(innerWidth: int)
      modifies this
      ensures innerWidth < MobileBreakpoint ==>
        mobileMenuOpen == !old(mobileMenuOpen) && sidebarCollapsed == old(sidebarCollapsed)
      ensures innerWidth >= MobileBreakpoint ==>
        sidebarCollapsed == !old(sidebarCollapsed) && mobileMenuOpen == old(mobileMenuOpen)
      ensures currentView == old(currentView) && projects == old(projects)
      ensures activeProjectId == old(activeProjectId) && notifications == old(notifications)
      ensures newProjectModalOpen == old(newProjectModalOpen) && newProjectName == old(newProjectName)
      ensures newProjectTemplate == old(newProjectTemplate) && newProjectDescription == old(newProjectDescription)
    {
      if innerWidth < MobileBreakpoint {
        mobileMenuOpen := !mobileMenuOpen;
      } else {
        sidebarCollapsed := !sidebarCollapsed;
      }
    }

    /** Switching views; the mobile menu closes whenever the view actually changes. */
    method Navigate(v: View)
      modifies this`currentView, this`mobileMenuOpen
      ensures currentView == v
      ensures mobileMenuOpen == (if v != old(currentView) then false else old(mobileMenuOpen))
    {
      if v != currentView {
        mobileMenuOpen := false;
      }
      currentView := v;
    }

    /** The new notification goes in front; the older ones follow unchanged. */
    method AddNotification(id: string, kind: NotificationType, title: string, message: string, now: int)
      modifies this`notifications
      ensures notifications == [Notification(id, kind, title, message, now)] + old(notifications)
    {
      notifications := [Notification(id, kind, title, message, now)] + notifications;
    }

    method RemoveNotification(id: string)
      modifies this`notifications
      ensures notifications == WithoutId(old(notifications), id)
    {
      notifications := WithoutId(notifications, id);
    }

    method ClearAllNotifications()
      modifies this`notifications
      ensures notifications == []
    {
      notifications := [];
    }

    /**
     * Submitting the new-project form: the project is appended as initializing and made
     * active, the modal closes, the form resets, the dashboard opens and a notification
     * announces the switch. Returns the new project, which the delayed completion needs.
     */
    method CreateProject(now: nat, notificationId: string) returns (created: Project)
      requires Valid()
      modifies this
      ensures Valid()
      ensures created == Project("proj-" + NatToString(now), old(newProjectName), old(newProjectTemplate),
                                 old(newProjectDescription), Initializing, now)
      ensures projects == old(projects) + [created]
      ensures activeProjectId == created.id
      ensures !HasId(old(projects), created.id) ==> Current() == created
      ensures !newProjectModalOpen
      ensures newProjectName == "" && newProjectTemplate == "empty" && newProjectDescription == ""
      ensures currentView == Dashboard
      ensures mobileMenuOpen == (if old(currentView) != Dashboard then false else old(mobileMenuOpen))
      ensures sidebarCollapsed == old(sidebarCollapsed)
      ensures notifications == [Notification(notificationId, Success, "Project Initialized",
                                  "Switched workspace to \"" + created.name + "\".", now)] + old(notifications)
    {
      created := Project("proj-" + NatToString(now), newProjectName, newProjectTemplate,
                         newProjectDescription, Initializing, now);
      AppendActive(created);
      CloseNewProjectForm();
      Navigate(Dashboard);
      AddNotification(notificationId, Success, "Project Initialized",
                      "Switched workspace to \"" + created.name + "\".", now);
    }

    /** Appending a project and making it the active one. */
    method AppendActive(created: Project)
      requires Valid()
      modifies this`projects, this`activeProjectId
      ensures Valid()
      ensures projects == old(projects) + [created] && activeProjectId == created.id
      ensures !HasId(old(projects), created.id) ==> ActiveProject(projects, activeProjectId) == created
    {
      if !HasId(projects, created.id) {
        ActiveAppended(projects, created);
      }
      projects := projects + [created];
      activeProjectId := created.id;
    }

    /** Closing the new-project modal and resetting its form. */
    method CloseNewProjectForm()
      modifies this`newProjectModalOpen, this`newProjectName, this`newProjectTemplate, this`newProjectDescription
      ensures !newProjectModalOpen
      ensures newProjectName == "" && newProjectTemplate == "empty" && newProjectDescription == ""
    {
      newProjectModalOpen := false;
      newProjectName := "";
      newProjectTemplate := "empty";
      newProjectDescription := "";
    }

    /**
     * Choosing a project from the project menu: it becomes the active one and the dashboard
     * opens. The menu's own open flag is not part of this state.
     */
    method SelectProject(id: string)
      requires Valid()
      modifies this
      ensures Valid()
      ensures activeProjectId == id && currentView == Dashboard
      ensures HasId(projects, id) ==> Current().id == id
      ensures mobileMenuOpen == (if old(currentView) != Dashboard then false else old(mobileMenuOpen))
      ensures projects == old(projects) && notifications == old(notifications)
      ensures sidebarCollapsed == old(sidebarCollapsed) && newProjectModalOpen == old(newProjectModalOpen)
      ensures newProjectName == old(newProjectName) && newProjectTemplate == old(newProjectTemplate)
      ensures newProjectDescription == old(newProjectDescription)
    {
      activeProjectId := id;
      Navigate(Dashboard);
    }

    /** The delayed completion of `created`: it becomes active and a notification says so. */
    method FinishInitialization(created: Project, now: nat, notificationId: string)
      requires Valid()
      modifies this
      ensures Valid()
      ensures projects == MarkActive(old(projects), created.id)
      ensures notifications == [Notification(notificationId, Info, "System Ready",
                                  "Resources for \"" + created.name + "\" are now online.", now)] + old(notifications)
      ensures activeProjectId == old(activeProjectId) && currentView == old(currentView)
      ensures sidebarCollapsed == old(sidebarCollapsed) && mobileMenuOpen == old(mobileMenuOpen)
      ensures newProjectModalOpen == old(newProjectModalOpen) && newProjectName == old(newProjectName)
      ensures newProjectTemplate == old(newProjectTemplate) && newProjectDescription == old(newProjectDescription)
    {
      projects := MarkActive(projects, created.id);
      AddNotification(notificationId, Info, "System Ready",
                      "Resources for \"" + created.name + "\" are now online.", now);
    }
  }
}
