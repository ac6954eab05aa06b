/** The verifier's dashboard (src/pages/dashboard/VerifierDashboard.tsx): the
    list of all projects with its pending/approved/rejected counts, the
    verifier's latest notifications, and the approve/reject handler with its
    project write and two notifications. */
module VerifierDashboard {
  import opened Seqs
  import opened Text
  import opened Entities
  import opened LocalStore

  /** The three status counts shown on the dashboard. */
  datatype Stats = Stats(totalPending: nat, totalApproved: nat, totalRejected: nat)

  /** The counts of a project list: every project lands in exactly one of them. */
  function StatusStats(ps: seq<Project>): (s: Stats)
    ensures s.totalPending + s.totalApproved + s.totalRejected == |ps|
    ensures s.totalPending == CountStatus(ps, Pending)
    ensures s.totalApproved == CountStatus(ps, Approved)
    ensures s.totalRejected == CountStatus(ps, Rejected)
  {
    StatusCountsPartition(ps);
    Stats(CountStatus(ps, Pending), CountStatus(ps, Approved), CountStatus(ps, Rejected))
  }

  /** One for a project in the given status, zero otherwise. */
  function StatusIndicator(status: Status): Project -> int
  {
    (p: Project) => if p.status == status then 1 else 0
  }

  /** A status count is the sum of the indicator over the list. */
  lemma {:induction false} CountIsSum(ps: seq<Project>, status: Status)
    ensures CountStatus(ps, status) == Sum(ps, StatusIndicator(status))
  {
    if ps != [] {
      CountIsSum(ps[1..], status);
    }
  }

  /** Replacing the one entry with a given id moves one unit from the old
      status's count to the new status's count. */
  lemma CountAfterReplace(ps: seq<Project>, k: nat, v: Project, status: Status)
    requires k < |ps| && UniqueIds(ps, ProjectId) && v.id == ps[k].id
    ensures CountStatus(ReplaceAll(ps, v.id, v, ProjectId), status) ==
      CountStatus(ps, status) - (if ps[k].status == status then 1 else 0) + (if v.status == status then 1 else 0)
  {
    CountIsSum(ps, status);
    CountIsSum(ReplaceAll(ps, v.id, v, ProjectId), status);
    assert ProjectId(v) == ProjectId(ps[k]);
    SumReplace(ps, k, v, StatusIndicator(status), ProjectId);
  }

  /** `status.toLowerCase()` of the status names. */
  function StatusWord(status: Status): (w: string)
    ensures w == ToLower(match status case Pending => "Pending" case Approved => "Approved" case Rejected => "Rejected")
  {
    match status
    case Pending => "pending"
    case Approved => "approved"
    case Rejected => "rejected"
  }

  /** The project as the verifier leaves it: the decision, the time and the
      notes (an empty string when none were typed); every other field kept. */
  function Verified(p: Project, status: Status, now: string, notes: string): (r: Project)
    ensures r.status == status && r.verifiedAt == Some(now) && r.verificationNotes == Some(notes)
    ensures r.(status := p.status, verifiedAt := p.verifiedAt, verificationNotes := p.verificationNotes) == p
  {
    p.(status := status, verifiedAt := Some(now), verificationNotes := Some(notes))
  }

  /** Deciding twice leaves only the second decision, its time and its notes. */
  lemma LastDecisionWins(p: Project, s1: Status, t1: string, n1: string, s2: Status, t2: string, n2: string)
    ensures Verified(Verified(p, s1, t1, n1), s2, t2, n2) == Verified(p, s2, t2, n2)
  {
  }

  /** Saving a second decision about a project overwrites the first in the store. */
  lemma SecondVerificationOverwrites(stored: seq<Project>, p: Project, s1: Status, t1: string, n1: string,
                                     s2: Status, t2: string, n2: string)
    ensures var first := Verified(p, s1, t1, n1);
      Upsert(Upsert(stored, first, ProjectId), Verified(first, s2, t2, n2), ProjectId)
        == Upsert(stored, Verified(p, s2, t2, n2), ProjectId)
  {
    var first := Verified(p, s1, t1, n1);
    UpsertOverwrites(stored, first, Verified(first, s2, t2, n2), ProjectId);
    LastDecisionWins(p, s1, t1, n1, s2, t2, n2);
  }

  /** The owner's message without the notes. */
  function DecisionText(p: Project, status: Status): string
  {
    "Your project \"" + p.title + "\" has been " + StatusWord(status) + " by the verification team."
  }

  /** The owner's message: the notes are appended after " Notes: " only when non-empty. */
  function OwnerNotice(p: Project, status: Status, notes: string): (m: string)
    ensures notes == "" ==> m == DecisionText(p, status)
    ensures notes != "" ==>
      (|m| > |DecisionText(p, status)| && m[..|DecisionText(p, status)|] == DecisionText(p, status)
       && m[|DecisionText(p, status)|..] == " Notes: " + notes)
  {
    DecisionText(p, status) + (if notes != "" then " Notes: " + notes else "")
  }

  function AdminNotice(p: Project, status: Status, verifierName: string): string
  {
    "Project \"" + p.title + "\" has been " + StatusWord(status) + " by " + verifierName
  }

  /** Approval is announced as a success, rejection as a warning. */
  function DecisionKind(status: Status): (k: NotificationKind)
    ensures k == Success <==> status == Approved
    ensures k == Warning <==> status != Approved
  {
    if status == Approved then Success else Warning
  }

  /** The two notifications a decision adds, newest first: the admin's notice
      and then the owner's. */
  function DecisionNotifications(verifier: User, p: Project, status: Status, notes: string, now: string,
                                 ownerNoteId: string, adminNoteId: string): (r: seq<Notification>)
    ensures |r| == 2
    ensures r[0].id == adminNoteId && r[0].userId == "admin-1" && r[0].kind == Info
    ensures r[0].message == AdminNotice(p, status, verifier.name)
    ensures r[1].id == ownerNoteId && r[1].userId == p.ownerId && r[1].kind == DecisionKind(status)
    ensures r[1].message == OwnerNotice(p, status, notes)
    ensures forall n :: n in r ==> !n.read && n.timestamp == now
  {
    [ Notification(adminNoteId, "admin-1", AdminNotice(p, status, verifier.name), Info, now, false),
      Notification(ownerNoteId, p.ownerId, OwnerNotice(p, status, notes), DecisionKind(status), now, false) ]
  }

  class VerifierPage {
    const store: Store
    const user: Option<User>
    var projects: seq<Project>
    var selected: Option<Project>
    var notes: string
    var notifications: seq<Notification>
    var stats: Stats

    /** Only a signed-in verifier sees the dashboard; anyone else is sent to sign in. */
    predicate Authorized()
    {
      user.Some? && user.value.role == VerifierRole
    }

    /** Mounting: a verifier gets every stored project, its counts and their
        five newest notifications; anyone else keeps the empty initial state. */
    constructor (store: Store)
      ensures this.store == store && user == store.GetCurrentUser()
      ensures Authorized() ==>
        && projects == store.GetProjects()
        && stats == StatusStats(projects)
        && notifications == Latest(store.GetNotificationsByUser(user.value.id))
      ensures !Authorized() ==> projects == [] && stats == Stats(0, 0, 0) && notifications == []
      ensures selected.None? && notes == ""
    {
      this.store := store;
      var current := store.GetCurrentUser();
      user := current;
      selected, notes := None, "";
      if current.None? || current.value.role != VerifierRole {
        projects, stats, notifications := [], Stats(0, 0, 0), [];
      } else {
        var all := store.GetProjects();
        projects := all;
        stats := StatusStats(all);
        notifications := Latest(store.GetNotificationsByUser(current.value.id));
      }
    }

    method SelectProject(p: Project)
      requires p in projects
      modifies this`selected
      ensures selected == Some(p)
    {
      selected := Some(p);
    }

    /** Typing in the notes box. */
    method SetNotes(text: string)
      modifies this`notes
      ensures notes == text
    {
      notes := text;
    }

    /** `handleVerification`: a project id not in the page's list writes
        nothing; otherwise the decided project is saved, the owner and then
        the admin are notified, the page's list and counts are updated and the
        dialog is cleared. The handler itself does not check that the project
        is still pending. */
    method HandleVerification(projectId: string, status: Status, now: string, ownerNoteId: string, adminNoteId: string)
      requires user.Some?
      requires status != Pending
      modifies this`projects, this`stats, this`selected, this`notes, store`storedProjects, store`storedNotifications
      ensures IndexOfId(old(projects), projectId, ProjectId).None? ==> unchanged(this) && unchanged(store)
      ensures IndexOfId(old(projects), projectId, ProjectId).Some? ==>
        var p := old(projects)[IndexOfId(old(projects), projectId, ProjectId).value];
        var v := Verified(p, status, now, old(notes));
        && store.GetProjects() == Upsert(old(store.GetProjects()), v, ProjectId)
        && store.GetNotifications() ==
             DecisionNotifications(user.value, p, status, old(notes), now, ownerNoteId, adminNoteId)
             + old(store.GetNotifications())
        && projects == ReplaceAll(old(projects), projectId, v, ProjectId)
        && stats == StatusStats(projects)
        && selected.None? && notes == ""
    {
      var found := IndexOfId(projects, projectId, ProjectId);
      if found.Some? {
        Decide(found.value, status, now, ownerNoteId, adminNoteId);
      }
    }

    /** The decision on the project at position `k` of the page's list. */
    method Decide(k: nat, status: Status, now: string, ownerNoteId: string, adminNoteId: string)
      requires user.Some? && k < |projects|
      modifies this`projects, this`stats, this`selected, this`notes, store`storedProjects, store`storedNotifications
      ensures var p := old(projects)[k];
        var v := Verified(p, status, now, old(notes));
        && store.GetProjects() == Upsert(old(store.GetProjects()), v, ProjectId)
        && store.GetNotifications() ==
             DecisionNotifications(user.value, p, status, old(notes), now, ownerNoteId, adminNoteId)
             + old(store.GetNotifications())
        && projects == ReplaceAll(old(projects), p.id, v, ProjectId)
        && stats == StatusStats(projects)
        && selected.None? && notes == ""
    {
      var project := projects[k];
      var updated := Verified(project, status, now, notes);
      RecordDecision(project, updated, status, now, ownerNoteId, adminNoteId);
      ShowDecision(ReplaceAll(projects, updated.id, updated, ProjectId));
    }

    /** The page's side of a decision: the list with the decided project
        replaced is shown, the counts are recomputed over it and the dialog
        is cleared. */
    method ShowDecision(updatedProjects: seq<Project>)
      modifies this`projects, this`stats, this`selected, this`notes
      ensures projects == updatedProjects && stats == StatusStats(updatedProjects)
      ensures selected.None? && notes == ""
    {
      var updatedStats := StatusStats(updatedProjects);
      projects, stats, selected, notes := updatedProjects, updatedStats, None, "";
    }

    /** The store writes of a decision: `saveProject`, then the owner's and the admin's notification. */
    method RecordDecision(project: Project, updated: Project, status: Status, now: string,
                          ownerNoteId: string, adminNoteId: string)
      requires user.Some?
      modifies store`storedProjects, store`storedNotifications
      ensures store.GetProjects() == Upsert(old(store.GetProjects()), updated, ProjectId)
      ensures store.GetNotifications() ==
        DecisionNotifications(user.value, project, status, notes, now, ownerNoteId, adminNoteId)
        + old(store.GetNotifications())
    {
      store.SaveProject(updated);
      store.AddNotification(Draft(project.ownerId, OwnerNotice(project, status, notes), DecisionKind(status), now, false),
                            ownerNoteId);
      store.AddNotification(Draft("admin-1", AdminNotice(project, status, user.value.name), Info, now, false),
                            adminNoteId);
    }
  }

  /** Approving a pending project in a list with unique ids moves it from the
      pending count to the approved count; the rejected count is unchanged. */
  lemma ApprovalMovesCounts(ps: seq<Project>, k: nat, now: string, notes: string)
    requires k < |ps| && UniqueIds(ps, ProjectId) && ps[k].status == Pending
    ensures var after := StatusStats(ReplaceAll(ps, ps[k].id, Verified(ps[k], Approved, now, notes), ProjectId));
      && after.totalPending == StatusStats(ps).totalPending - 1
      && after.totalApproved == StatusStats(ps).totalApproved + 1
      && after.totalRejected == StatusStats(ps).totalRejected
  {
    var v := Verified(ps[k], Approved, now, notes);
    CountAfterReplace(ps, k, v, Pending);
    CountAfterReplace(ps, k, v, Approved);
    CountAfterReplace(ps, k, v, Rejected);
  }
}
