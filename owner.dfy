/** The project owner's dashboard (src/pages/dashboard/ProjectOwnerDashboard.tsx):
    the owner's projects with their totals, revenue and pending count, and the
    submission of a new project for verification. */
module ProjectOwnerDashboard {
  import opened Seqs
  import opened Entities
  import opened LocalStore

  /** What a project has earned its owner: the credits sold times the price. */
  function ProjectRevenue(p: Project): (r: int)
    ensures p.creditsAvailable == p.creditsGenerated || p.pricePerCredit == 0 ==> r == 0
    ensures p.creditsAvailable <= p.creditsGenerated && p.pricePerCredit >= 0 ==> r >= 0
  {
    var sold := p.creditsGenerated - p.creditsAvailable;
    assert sold >= 0 && p.pricePerCredit >= 0 ==> sold * p.pricePerCredit >= 0;
    sold * p.pricePerCredit
  }

  function CreditsOf(p: Project): int { p.creditsGenerated }

  /** The four figures at the top of the dashboard. */
  datatype OwnerStats = OwnerStats(totalProjects: nat, creditsGenerated: int, totalRevenue: int, pendingProjects: nat)

  function StatsOf(ps: seq<Project>): (s: OwnerStats)
    ensures s.totalProjects == |ps| && s.pendingProjects == CountStatus(ps, Pending)
    ensures s.pendingProjects <= s.totalProjects
    ensures s.creditsGenerated == Sum(ps, CreditsOf) && s.totalRevenue == Sum(ps, ProjectRevenue)
  {
    StatusCountsPartition(ps);
    OwnerStats(|ps|, Sum(ps, CreditsOf), Sum(ps, ProjectRevenue), CountStatus(ps, Pending))
  }

  /** Revenue is never negative while every project has no more credits
      available than generated and a non-negative price. */
  lemma RevenueNonNegative(ps: seq<Project>)
    requires forall i :: 0 <= i < |ps| ==> ps[i].creditsAvailable <= ps[i].creditsGenerated && ps[i].pricePerCredit >= 0
    ensures StatsOf(ps).totalRevenue >= 0
  {
    forall i | 0 <= i < |ps| ensures ProjectRevenue(ps[i]) >= 0 {
      var p := ps[i];
      assert p.creditsGenerated - p.creditsAvailable >= 0;
    }
    SumNonNegative(ps, ProjectRevenue);
  }

  /** Selling `amount` credits of a project raises its revenue by `amount` times its price. */
  lemma SoldRevenue(p: Project, amount: int)
    ensures ProjectRevenue(p.(creditsAvailable := p.creditsAvailable - amount))
      == ProjectRevenue(p) + amount * p.pricePerCredit
  {
    var g, a, c := p.creditsGenerated, p.creditsAvailable, p.pricePerCredit;
    assert (g - (a - amount)) * c == (g - a) * c + amount * c by {
      assert g - (a - amount) == (g - a) + amount;
    }
  }

  /** A sale of `amount` credits of one of the owner's projects (ids unique)
      raises the owner's revenue by exactly `amount` times the price and
      leaves the credits generated and the project count as they were. */
  lemma SaleRaisesRevenue(ps: seq<Project>, k: nat, amount: int)
    requires k < |ps| && UniqueIds(ps, ProjectId)
    ensures var v := ps[k].(creditsAvailable := ps[k].creditsAvailable - amount);
      var after := StatsOf(ReplaceAll(ps, ps[k].id, v, ProjectId));
      && after.totalRevenue == StatsOf(ps).totalRevenue + amount * ps[k].pricePerCredit
      && after.creditsGenerated == StatsOf(ps).creditsGenerated
      && after.totalProjects == StatsOf(ps).totalProjects
  {
    var v := ps[k].(creditsAvailable := ps[k].creditsAvailable - amount);
    assert ProjectId(v) == ProjectId(ps[k]);
    SumReplace(ps, k, v, ProjectRevenue, ProjectId);
    SumReplace(ps, k, v, CreditsOf, ProjectId);
    SoldRevenue(ps[k], amount);
  }

  /** The submission form. `saplings` holds `parseInt(value) || 0`. */
  datatype ProjectForm = ProjectForm(title: string, location: string, ecosystem: string, description: string, saplings: int)

  const EmptyForm := ProjectForm("", "", "", "", 0)

  /** The saplings input: an unparsable entry is stored as 0. */
  function SaplingsInput(parsed: Option<int>): (n: int)
    ensures parsed.Some? ==> n == parsed.value
    ensures parsed.None? ==> n == 0
  {
    if parsed.Some? && parsed.value != 0 then parsed.value else 0
  }

  /** All four text fields are required. */
  predicate Complete(f: ProjectForm)
  {
    f.title != "" && f.location != "" && f.ecosystem != "" && f.description != ""
  }

  /** The project a submission creates: pending, with no credits, price or
      offset yet, owned by the submitter and carrying the form's text fields. */
  function NewProject(f: ProjectForm, owner: User, id: string, now: string): (p: Project)
    ensures p.id == id && p.status == Pending && p.createdAt == now
    ensures p.title == f.title && p.location == f.location && p.ecosystem == f.ecosystem && p.description == f.description
    ensures p.creditsGenerated == 0 && p.creditsAvailable == 0 && p.pricePerCredit == 0 && p.co2Offset == 0
    ensures p.ownerId == owner.id && p.ownerName == owner.name && p.saplingsPlanted == Some(f.saplings)
    ensures p.verifiedAt.None? && p.verificationNotes.None?
  {
    Project(id, f.title, f.location, f.ecosystem, f.description, 0, 0, 0, Pending, owner.id, owner.name, 0,
            Some(f.saplings), now, None, None)
  }

  /** A new submission adds one project and one pending project, and nothing
      to the credits generated or the revenue. */
  lemma SubmissionStats(ps: seq<Project>, f: ProjectForm, owner: User, id: string, now: string)
    ensures var after := StatsOf(ps + [NewProject(f, owner, id, now)]);
      && after.totalProjects == StatsOf(ps).totalProjects + 1
      && after.pendingProjects == StatsOf(ps).pendingProjects + 1
      && after.creditsGenerated == StatsOf(ps).creditsGenerated
      && after.totalRevenue == StatsOf(ps).totalRevenue
  {
    var p := NewProject(f, owner, id, now);
    SumAppend(ps, p, CreditsOf);
    SumAppend(ps, p, ProjectRevenue);
    CountStatusConcat(ps, [p], Pending);
  }

  /** With an id no stored project carries, the submission is appended to the
      store, and re-reading the owner's projects gives the old ones followed by it. */
  lemma FreshSubmissionAppends(stored: seq<Project>, f: ProjectForm, owner: User, id: string, now: string)
    requires !HasId(stored, id, ProjectId)
    ensures var p := NewProject(f, owner, id, now);
      && Upsert(stored, p, ProjectId) == stored + [p]
      && ProjectsOwnedBy(Upsert(stored, p, ProjectId), owner.id) == ProjectsOwnedBy(stored, owner.id) + [p]
  {
    var p := NewProject(f, owner, id, now);
    UpsertNew(stored, p, ProjectId);
    FilterConcat(stored, [p], (q: Project) => q.ownerId == owner.id);
  }

  function SubmittedNotice(f: ProjectForm): string
  {
    "Project \"" + f.title + "\" submitted for verification"
  }

  function AdminSubmittedNotice(f: ProjectForm, owner: User): string
  {
    "New project \"" + f.title + "\" submitted by " + owner.name + " for verification"
  }

  /** The two notifications a submission adds, newest first: the admin's and then the owner's. */
  function SubmissionNotifications(f: ProjectForm, owner: User, now: string, ownerNoteId: string, adminNoteId: string)
    : (r: seq<Notification>)
    ensures |r| == 2
    ensures r[0].id == adminNoteId && r[0].userId == "admin-1" && r[0].message == AdminSubmittedNotice(f, owner)
    ensures r[1].id == ownerNoteId && r[1].userId == owner.id && r[1].message == SubmittedNotice(f)
    ensures forall n :: n in r ==> n.kind == Info && !n.read && n.timestamp == now
  {
    [ Notification(adminNoteId, "admin-1", AdminSubmittedNotice(f, owner), Info, now, false),
      Notification(ownerNoteId, owner.id, SubmittedNotice(f), Info, now, false) ]
  }

  datatype SubmitOutcome = NotSignedIn | MissingFields | Submitted(project: Project)

  class OwnerPage {
    const store: Store
    const user: Option<User>
    var projects: seq<Project>
    var notifications: seq<Notification>
    var form: ProjectForm
    var stats: OwnerStats

    /** Only a signed-in project owner sees the dashboard. */
    predicate Authorized()
    {
      user.Some? && user.value.role == ProjectOwnerRole
    }

    /** Mounting: an owner gets their stored projects, the statistics over
        them and their five newest notifications; anyone else keeps the empty
        initial state. */
    constructor (store: Store)
      ensures this.store == store && user == store.GetCurrentUser() && form == EmptyForm
      ensures Authorized() ==>
        && projects == store.GetProjectsByOwner(user.value.id)
        && stats == StatsOf(projects)
        && notifications == Latest(store.GetNotificationsByUser(user.value.id))
      ensures !Authorized() ==> projects == [] && notifications == [] && stats == OwnerStats(0, 0, 0, 0)
    {
      this.store := store;
      var current := store.GetCurrentUser();
      user := current;
      form := EmptyForm;
      if current.None? || current.value.role != ProjectOwnerRole {
        projects, notifications, stats := [], [], OwnerStats(0, 0, 0, 0);
      } else {
        var mine := store.GetProjectsByOwner(current.value.id);
        projects := mine;
        stats := StatsOf(mine);
        notifications := Latest(store.GetNotificationsByUser(current.value.id));
      }
    }

    /** Editing the text fields of the form. */
    method SetText(title: string, location: string, ecosystem: string, description: string)
      modifies this`form
      ensures form == old(form).(title := title, location := location, ecosystem := ecosystem, description := description)
    {
      form := form.(title := title, location := location, ecosystem := ecosystem, description := description);
    }

    /** Editing the saplings field. */
    method SetSaplings(parsed: Option<int>)
      modifies this`form
      ensures form == old(form).(saplings := SaplingsInput(parsed))
    {
      form := form.(saplings := SaplingsInput(parsed));
    }

    /** `handleSubmitProject`: without a user nothing happens; with a required
        field empty nothing is written; otherwise the new project is saved,
        the owner and then the admin are notified, the project is appended to
        the page's list and the form is reset. The statistics are not
        recomputed. */
    method HandleSubmitProject(id: string, now: string, ownerNoteId: string, adminNoteId: string)
      returns (outcome: SubmitOutcome)
      modifies this`projects, this`form, store`storedProjects, store`storedNotifications
      ensures user.None? ==> outcome == NotSignedIn
      ensures user.Some? && !Complete(old(form)) ==> outcome == MissingFields
      ensures !outcome.Submitted? ==> unchanged(this) && unchanged(store)
      ensures outcome.Submitted? <==> user.Some? && Complete(old(form))
      ensures outcome.Submitted? ==>
        && outcome.project == NewProject(old(form), user.value, id, now)
        && store.GetProjects() == Upsert(old(store.GetProjects()), outcome.project, ProjectId)
        && store.GetNotifications() ==
             SubmissionNotifications(old(form), user.value, now, ownerNoteId, adminNoteId) + old(store.GetNotifications())
        && projects == old(projects) + [outcome.project]
        && form == EmptyForm && stats == old(stats)
    {
      if user.None? {
        return NotSignedIn;
      }
      if !Complete(form) {
        return MissingFields;
      }
      var project := NewProject(form, user.value, id, now);
      RecordSubmission(project, now, ownerNoteId, adminNoteId);
      projects := projects + [project];
      form := EmptyForm;
      outcome := Submitted(project);
    }

    /** The store writes of a submission: `saveProject`, then the owner's and the admin's notification. */
    method RecordSubmission(project: Project, now: string, ownerNoteId: string, adminNoteId: string)
      requires user.Some?
      modifies store`storedProjects, store`storedNotifications
      ensures store.GetProjects() == Upsert(old(store.GetProjects()), project, ProjectId)
      ensures store.GetNotifications() ==
        SubmissionNotifications(form, user.value, now, ownerNoteId, adminNoteId) + old(store.GetNotifications())
    {
      store.SaveProject(project);
      store.AddNotification(Draft(user.value.id, SubmittedNotice(form), Info, now, false), ownerNoteId);
      store.AddNotification(Draft("admin-1", AdminSubmittedNotice(form, user.value), Info, now, false), adminNoteId);
    }
  }
}
