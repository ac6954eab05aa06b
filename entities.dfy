/** The records the application keeps in browser storage (src/utils/localStorage.ts:3-50),
    the role strings and the role-to-dashboard routing shared by sign-up and login. */
module Entities {
  import opened Seqs

  const ProjectOwnerRole := "Project Owner"
  const CreditBuyerRole := "Credit Buyer"
  const VerifierRole := "Verifier"
  const AdminRole := "Admin"

  /** A registered account. `role` is kept as the string the sign-up form
      supplied: the form casts it to the role union without checking it. */
  datatype User = User(
    id: string,
    name: string,
    email: string,
    wallet: Option<string>,
    role: string,
    password: string,
    createdAt: string)

  datatype Status = Pending | Approved | Rejected

  /** A restoration project. Credits, prices and offsets are whole numbers. */
  datatype Project = Project(
    id: string,
    title: string,
    location: string,
    ecosystem: string,
    description: string,
    creditsGenerated: int,
    creditsAvailable: int,
    pricePerCredit: int,
    status: Status,
    ownerId: string,
    ownerName: string,
    co2Offset: int,
    saplingsPlanted: Option<int>,
    createdAt: string,
    verifiedAt: Option<string>,
    verificationNotes: Option<string>)

  datatype Purchase = Purchase(
    id: string,
    projectId: string,
    buyerId: string,
    credits: int,
    totalAmount: int,
    co2Offset: int,
    timestamp: string)

  datatype NotificationKind = Success | Info | Warning

  datatype Notification = Notification(
    id: string,
    userId: string,
    message: string,
    kind: NotificationKind,
    timestamp: string,
    read: bool)

  /** What a caller hands to `addNotification`: a notification without its id. */
  datatype Draft = Draft(
    userId: string,
    message: string,
    kind: NotificationKind,
    timestamp: string,
    read: bool)
  {
    function WithId(id: string): (n: Notification)
      ensures n.id == id && n.userId == userId && n.message == message
      ensures n.kind == kind && n.timestamp == timestamp && n.read == read
    {
      Notification(id, userId, message, kind, timestamp, read)
    }
  }

  function UserId(u: User): string { u.id }
  function ProjectId(p: Project): string { p.id }
  function NotificationId(n: Notification): string { n.id }

  /** The number of projects in the given status. */
  function CountStatus(ps: seq<Project>, status: Status): (n: nat)
    ensures n <= |ps|
  {
    if ps == [] then 0 else (if ps[0].status == status then 1 else 0) + CountStatus(ps[1..], status)
  }

  /** The count is `projects.filter(p => p.status === status).length`. */
  lemma {:induction false} CountStatusIsFilter(ps: seq<Project>, status: Status)
    ensures CountStatus(ps, status) == |Filter(ps, (p: Project) => p.status == status)|
  {
    if ps != [] {
      CountStatusIsFilter(ps[1..], status);
    }
  }

  /** Counting over two lists one after the other adds their counts. */
  lemma {:induction false} CountStatusConcat(a: seq<Project>, b: seq<Project>, status: Status)
    ensures CountStatus(a + b, status) == CountStatus(a, status) + CountStatus(b, status)
  {
    if a == [] {
      assert a + b == b;
    } else {
      assert (a + b)[1..] == a[1..] + b;
      CountStatusConcat(a[1..], b, status);
    }
  }

  /** The three status counts always add up to the number of projects:
      every project is in exactly one of the three states. */
  lemma {:induction false} StatusCountsPartition(ps: seq<Project>)
    ensures CountStatus(ps, Pending) + CountStatus(ps, Approved) + CountStatus(ps, Rejected) == |ps|
  {
    if ps != [] {
      StatusCountsPartition(ps[1..]);
    }
  }

  /** The dashboard a role lands on after sign-up or login; any other role
      string lands on the profile page. */
  function DashboardRoute(role: string): (route: string)
    ensures role == ProjectOwnerRole ==> route == "/dashboard/project-owner"
    ensures role == CreditBuyerRole ==> route == "/dashboard/buyer"
    ensures role == VerifierRole ==> route == "/dashboard/verifier"
    ensures role == AdminRole ==> route == "/dashboard/admin"
    ensures role !in {ProjectOwnerRole, CreditBuyerRole, VerifierRole, AdminRole} ==> route == "/profile"
  {
    if role == ProjectOwnerRole then "/dashboard/project-owner"
    else if role == CreditBuyerRole then "/dashboard/buyer"
    else if role == VerifierRole then "/dashboard/verifier"
    else if role == AdminRole then "/dashboard/admin"
    else "/profile"
  }

  /** Each of the four roles has its own dashboard, distinct from the fallback. */
  lemma RoutesDistinguishRoles(a: string, b: string)
    requires a in {ProjectOwnerRole, CreditBuyerRole, VerifierRole, AdminRole}
    requires a != b
    ensures DashboardRoute(a) != DashboardRoute(b)
  {
  }

  /** `notifications.slice(0, 5)`: the first five, or all of them when fewer. */
  function Latest(s: seq<Notification>): (r: seq<Notification>)
    ensures |r| == if |s| < 5 then |s| else 5
    ensures r == s[..|r|]
  {
    if |s| <= 5 then s else s[..5]
  }
}
