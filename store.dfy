/** The persistence layer (src/utils/localStorage.ts): one key-value store holding
    the users, the signed-in user, projects, purchases, notifications and the
    wallet map, each under its own key. A key that was never written is `None`
    and reads as an empty collection. */
module LocalStore {
  import opened Seqs
  import opened Entities

  /** The balance every wallet starts from. */
  const DefaultBalance := 100000

  /** `walletsData[id] || 100000`: an absent entry and a stored 0 both read as the default. */
  function Balance(wallets: map<string, int>, id: string): (b: int)
    ensures b != 0
    ensures id in wallets && wallets[id] != 0 ==> b == wallets[id]
    ensures id in wallets && wallets[id] == 0 ==> b == DefaultBalance
    ensures id !in wallets ==> b == DefaultBalance
  {
    if id in wallets && wallets[id] != 0 then wallets[id] else DefaultBalance
  }

  /** `walletsData[id] = (walletsData[id] || 100000) + amount` */
  function Credit(wallets: map<string, int>, id: string, amount: int): (w: map<string, int>)
    ensures w.Keys == wallets.Keys + {id}
    ensures forall k :: k in wallets && k != id ==> w[k] == wallets[k]
  {
    wallets[id := Balance(wallets, id) + amount]
  }

  /** After a credit, the balance read back is the old balance plus the amount,
      except that a result of exactly 0 reads back as the default; every other
      wallet reads as before. */
  lemma CreditThenRead(wallets: map<string, int>, id: string, amount: int)
    ensures Credit(wallets, id, amount)[id] == Balance(wallets, id) + amount
    ensures Balance(Credit(wallets, id, amount), id) ==
      if Balance(wallets, id) + amount == 0 then DefaultBalance else Balance(wallets, id) + amount
    ensures forall k :: k != id ==> Balance(Credit(wallets, id, amount), k) == Balance(wallets, k)
  {
  }

  /** From an empty wallet map, -500 then +200 leaves 99700. */
  lemma FreshWalletScenario(id: string)
    ensures Balance(Credit(Credit(map[], id, -500), id, 200), id) == 99700
  {
  }

  /** A wallet driven to exactly 0 reads back as a full default balance. */
  lemma ZeroReadsAsDefault(wallets: map<string, int>, id: string)
    ensures Balance(Credit(wallets, id, -Balance(wallets, id)), id) == DefaultBalance
  {
  }

  /** The first notification with `id` has its `read` flag set; no match leaves the list as is. */
  function MarkRead(s: seq<Notification>, id: string): (r: seq<Notification>)
    ensures |r| == |s|
    ensures IndexOfId(s, id, NotificationId).Some? ==> r[IndexOfId(s, id, NotificationId).value].read
  {
    match IndexOfId(s, id, NotificationId)
    case Some(i) => s[i := s[i].(read := true)]
    case None => s
  }

  /** Marking touches only the `read` flag of the first match and nothing else. */
  lemma MarkReadOnlyFlag(s: seq<Notification>, id: string)
    ensures forall j :: 0 <= j < |s| ==> MarkRead(s, id)[j].(read := s[j].read) == s[j]
    ensures forall j :: 0 <= j < |s| && MarkRead(s, id)[j] != s[j] ==>
      s[j].id == id && !s[j].read && MarkRead(s, id)[j].read &&
      forall k :: 0 <= k < j ==> s[k].id != id
    ensures (forall j :: 0 <= j < |s| ==> s[j].id != id) ==> MarkRead(s, id) == s
  {
  }

  lemma MarkReadIdempotent(s: seq<Notification>, id: string)
    ensures MarkRead(MarkRead(s, id), id) == MarkRead(s, id)
  {
    var once := MarkRead(s, id);
    match IndexOfId(s, id, NotificationId)
    case Some(i) =>
      assert IndexOfId(once, id, NotificationId) == Some(i) by {
        assert forall j :: 0 <= j < |s| ==> once[j].id == s[j].id;
      }
    case None =>
  }

  /** `getProjectsByOwner`: the projects whose `ownerId` is `owner`, in stored order. */
  function ProjectsOwnedBy(ps: seq<Project>, owner: string): (r: seq<Project>)
    ensures IsSubsequence(r, ps)
    ensures forall i :: 0 <= i < |r| ==> r[i].ownerId == owner
    ensures forall p :: multiset(r)[p] == if p.ownerId == owner then multiset(ps)[p] else 0
  {
    FilterIsSubsequence(ps, (p: Project) => p.ownerId == owner);
    Filter(ps, (p: Project) => p.ownerId == owner)
  }

  /** The contents stored under a key, or the empty collection when the key is absent. */
  function Stored<T>(key: Option<seq<T>>): (r: seq<T>)
    ensures key.None? ==> r == []
    ensures key.Some? ==> r == key.value
  {
    if key.Some? then key.value else []
  }

  /** The three projects `initializeDemoData` seeds, one per blue-carbon ecosystem. */
  const Sundarbans := Project("1", "Sundarbans Mangrove Restoration", "West Bengal, India", "Mangroves",
    "Large-scale mangrove restoration project in the Sundarbans delta, protecting coastal communities and sequestering carbon.",
    1200, 800, 450, Approved, "demo-owner-1", "Coastal Conservation Trust", 2400, None,
    "2024-01-15", Some("2024-02-01"), None)

  const GoaSeagrass := Project("2", "Goa Seagrass Conservation", "Goa, India", "Seagrass",
    "Seagrass meadow restoration and protection project along the Goa coastline.",
    850, 650, 380, Approved, "demo-owner-2", "Marine Conservation Society", 1700, None,
    "2024-02-10", Some("2024-02-25"), None)

  const AndamanReef := Project("3", "Andaman Coral Reef Protection", "Andaman & Nicobar Islands, India", "Coral Reefs",
    "Coral reef restoration and protection initiative in the pristine waters of Andaman Islands.",
    950, 400, 520, Approved, "demo-owner-3", "Island Ecology Foundation", 1900, None,
    "2024-01-20", Some("2024-02-05"), None)

  /** The projects `initializeDemoData` seeds when the projects key is absent. */
  function DemoProjects(): seq<Project>
  {
    [Sundarbans, GoaSeagrass, AndamanReef]
  }

  /** The demo projects have distinct ids, are approved and have
      0 < available <= generated and a positive price. */
  lemma DemoProjectsWellFormed()
    ensures UniqueIds(DemoProjects(), ProjectId)
    ensures forall p :: p in DemoProjects() ==>
      p.status == Approved && 0 < p.creditsAvailable <= p.creditsGenerated && p.pricePerCredit > 0
  {
  }

  class Store {
    var storedUsers: Option<seq<User>>
    var session: Option<User>
    var storedProjects: Option<seq<Project>>
    var storedPurchases: Option<seq<Purchase>>
    var storedNotifications: Option<seq<Notification>>
    var storedWallets: Option<map<string, int>>

    /** Storage with no key written yet. */
    constructor ()
      ensures storedUsers.None? && session.None? && storedProjects.None?
      ensures storedPurchases.None? && storedNotifications.None? && storedWallets.None?
    {
      storedUsers, session, storedProjects := None, None, None;
      storedPurchases, storedNotifications, storedWallets := None, None, None;
    }

    function GetUsers(): (r: seq<User>)
      reads this`storedUsers
      ensures storedUsers.None? ==> r == []
      ensures storedUsers.Some? ==> r == storedUsers.value
    {
      Stored(storedUsers)
    }

    /** `getCurrentUser`: the user last stored under the session key, or None
        when it was removed or never written. */
    function GetCurrentUser(): (r: Option<User>)
      reads this`session
      ensures r == session
    {
      session
    }

    function GetProjects(): (r: seq<Project>)
      reads this`storedProjects
      ensures storedProjects.None? ==> r == []
      ensures storedProjects.Some? ==> r == storedProjects.value
    {
      Stored(storedProjects)
    }

    function GetPurchases(): (r: seq<Purchase>)
      reads this`storedPurchases
      ensures storedPurchases.None? ==> r == []
      ensures storedPurchases.Some? ==> r == storedPurchases.value
    {
      Stored(storedPurchases)
    }

    function GetNotifications(): (r: seq<Notification>)
      reads this`storedNotifications
      ensures storedNotifications.None? ==> r == []
      ensures storedNotifications.Some? ==> r == storedNotifications.value
    {
      Stored(storedNotifications)
    }

    /** The parsed wallet map, `{}` when the key is absent. */
    function Wallets(): (w: map<string, int>)
      reads this`storedWallets
      ensures storedWallets.None? ==> w == map[]
      ensures storedWallets.Some? ==> w == storedWallets.value
    {
      if storedWallets.Some? then storedWallets.value else map[]
    }

    function GetProjectsByOwner(owner: string): (r: seq<Project>)
      reads this`storedProjects
      ensures IsSubsequence(r, GetProjects())
      ensures forall p :: p in r <==> p in GetProjects() && p.ownerId == owner
      ensures forall p :: multiset(r)[p] == if p.ownerId == owner then multiset(GetProjects())[p] else 0
    {
      ProjectsOwnedBy(GetProjects(), owner)
    }

    function GetPurchasesByBuyer(buyer: string): (r: seq<Purchase>)
      reads this`storedPurchases
      ensures IsSubsequence(r, GetPurchases())
      ensures forall p :: p in r <==> p in GetPurchases() && p.buyerId == buyer
      ensures forall p :: multiset(r)[p] == if p.buyerId == buyer then multiset(GetPurchases())[p] else 0
    {
      FilterIsSubsequence(GetPurchases(), (p: Purchase) => p.buyerId == buyer);
      Filter(GetPurchases(), (p: Purchase) => p.buyerId == buyer)
    }

    function GetNotificationsByUser(user: string): (r: seq<Notification>)
      reads this`storedNotifications
      ensures IsSubsequence(r, GetNotifications())
      ensures forall n :: n in r <==> n in GetNotifications() && n.userId == user
      ensures forall n :: multiset(r)[n] == if n.userId == user then multiset(GetNotifications())[n] else 0
    {
      FilterIsSubsequence(GetNotifications(), (n: Notification) => n.userId == user);
      Filter(GetNotifications(), (n: Notification) => n.userId == user)
    }

    function GetUserWallet(id: string): (b: int)
      reads this`storedWallets
      ensures b != 0
      ensures id !in Wallets() ==> b == DefaultBalance
      ensures id in Wallets() && Wallets()[id] != 0 ==> b == Wallets()[id]
      ensures id in Wallets() && Wallets()[id] == 0 ==> b == DefaultBalance
    {
      Balance(Wallets(), id)
    }

    method SaveUser(user: User)
      modifies this`storedUsers
      ensures storedUsers == Some(Upsert(old(GetUsers()), user, UserId))
    {
      var users := GetUsers();
      var existing := IndexOfId(users, user.id, UserId);
      if existing.Some? {
        users := users[existing.value := user];
      } else {
        users := users + [user];
      }
      storedUsers := Some(users);
    }

    method SetCurrentUser(user: Option<User>)
      modifies this`session
      ensures session == user && GetCurrentUser() == user
    {
      session := user;
    }

    method SaveProject(project: Project)
      modifies this`storedProjects
      ensures storedProjects == Some(Upsert(old(GetProjects()), project, ProjectId))
    {
      var projects := GetProjects();
      var existing := IndexOfId(projects, project.id, ProjectId);
      if existing.Some? {
        projects := projects[existing.value := project];
      } else {
        projects := projects + [project];
      }
      storedProjects := Some(projects);
    }

    /** Always appends: purchases are never matched by id. */
    method SavePurchase(purchase: Purchase)
      modifies this`storedPurchases
      ensures storedPurchases == Some(old(GetPurchases()) + [purchase])
      ensures |GetPurchases()| == |old(GetPurchases())| + 1
    {
      storedPurchases := Some(GetPurchases() + [purchase]);
    }

    /** Prepends the draft completed with `id` (the source's `Date.now()`). */
    method AddNotification(draft: Draft, id: string)
      modifies this`storedNotifications
      ensures storedNotifications == Some([draft.WithId(id)] + old(GetNotifications()))
      ensures GetNotifications()[0].id == id && GetNotifications()[1..] == old(GetNotifications())
    {
      storedNotifications := Some([draft.WithId(id)] + GetNotifications());
    }

    /** Sets `read` on the first notification with `id`; with no match nothing is written. */
    method MarkNotificationAsRead(id: string)
      modifies this`storedNotifications
      ensures IndexOfId(old(GetNotifications()), id, NotificationId).None? ==>
        storedNotifications == old(storedNotifications)
      ensures IndexOfId(old(GetNotifications()), id, NotificationId).Some? ==>
        storedNotifications == Some(MarkRead(old(GetNotifications()), id))
    {
      var notifications := GetNotifications();
      var found := IndexOfId(notifications, id, NotificationId);
      if found.Some? {
        var i := found.value;
        notifications := notifications[i := notifications[i].(read := true)];
        storedNotifications := Some(notifications);
      }
    }

    method UpdateUserWallet(id: string, amount: int)
      modifies this`storedWallets
      ensures storedWallets == Some(Credit(old(Wallets()), id, amount))
    {
      storedWallets := Some(Credit(Wallets(), id, amount));
    }

    /** Seeds the demo projects only when the projects key was never written
        (a stored empty list is left alone). */
    method InitializeDemoData()
      modifies this`storedProjects
      ensures old(storedProjects).None? ==> storedProjects == Some(DemoProjects())
      ensures old(storedProjects).Some? ==> storedProjects == old(storedProjects)
    {
      if storedProjects.None? {
        storedProjects := Some(DemoProjects());
      }
    }
  }
}
