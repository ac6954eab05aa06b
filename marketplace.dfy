/** The marketplace page (src/pages/Marketplace.tsx): the listing of approved
    projects with credits left, the search/ecosystem/location/price filter
    pipeline, the purchase-amount input and the purchase transaction with its
    guards and store writes. */
module Marketplace {
  import opened Seqs
  import opened Text
  import opened Entities
  import opened LocalStore

  /** A project is offered for sale when it is approved and has credits left. */
  predicate Listable(p: Project)
  {
    p.status == Approved && p.creditsAvailable > 0
  }

  /** The projects the page lists: exactly the listable ones, in stored order. */
  function Listing(ps: seq<Project>): (r: seq<Project>)
    ensures IsSubsequence(r, ps)
    ensures forall p :: p in r <==> p in ps && p.status == Approved && p.creditsAvailable > 0
    ensures forall p :: multiset(r)[p] == if Listable(p) then multiset(ps)[p] else 0
  {
    FilterIsSubsequence(ps, Listable);
    Filter(ps, Listable)
  }

  /** The filter controls besides the search box. */
  datatype Filters = Filters(ecosystem: string, location: string, priceRange: string)

  const DefaultFilters := Filters("all", "", "all")

  /** `priceRange.split('-').map(Number)` destructured into `[min, max]`;
      a missing or non-numeric bound is None (NaN or undefined). */
  datatype PriceBounds = PriceBounds(min: Option<int>, max: Option<int>)

  function ParsePriceRange(s: string): (b: PriceBounds)
    ensures '-' !in s ==> b.max.None?
    ensures b.min.Some? ==> b.min.value >= 0
    ensures b.max.Some? ==> b.max.value >= 0
  {
    var parts := Split(s, '-');
    assert '-' !in s ==> parts == [s] by {
      if '-' !in s { SplitNoSeparator(s, '-'); }
    }
    PriceBounds(ParseNumber(parts[0]), if |parts| >= 2 then ParseNumber(parts[1]) else None)
  }

  /** `price >= min && price <= max`; any comparison with NaN or undefined is false. */
  predicate InPriceBounds(price: int, b: PriceBounds)
    ensures b.min.None? || b.max.None? ==> !InPriceBounds(price, b)
  {
    b.min.Some? && b.max.Some? && b.min.value <= price <= b.max.value
  }

  /** A search term matches when it occurs, case-insensitively, in the title, the location or the ecosystem. */
  predicate MatchesSearch(p: Project, term: string)
  {
    var t := ToLower(term);
    Includes(ToLower(p.title), t) || Includes(ToLower(p.location), t) || Includes(ToLower(p.ecosystem), t)
  }

  predicate SearchActive(term: string) { term != "" }
  predicate EcosystemActive(f: Filters) { f.ecosystem != "" && f.ecosystem != "all" }
  predicate LocationActive(f: Filters) { f.location != "" }
  predicate PriceActive(f: Filters) { f.priceRange != "" && f.priceRange != "all" }

  /** What the pipeline keeps: each active stage's test holds. */
  predicate Keeps(p: Project, term: string, f: Filters)
  {
    && (SearchActive(term) ==> MatchesSearch(p, term))
    && (EcosystemActive(f) ==> p.ecosystem == f.ecosystem)
    && (LocationActive(f) ==> Includes(ToLower(p.location), ToLower(f.location)))
    && (PriceActive(f) ==> InPriceBounds(p.pricePerCredit, ParsePriceRange(f.priceRange)))
  }

  /** One stage of the pipeline: filter when the control is set, otherwise pass the list through. */
  function FilterWhen(s: seq<Project>, active: bool, p: Project -> bool): (r: seq<Project>)
    ensures IsSubsequence(r, s)
    ensures forall x :: x in r <==> x in s && (active ==> p(x))
    ensures forall x :: multiset(r)[x] == if !active || p(x) then multiset(s)[x] else 0
    ensures !active ==> r == s
  {
    if active then FilterIsSubsequence(s, p); Filter(s, p) else SubsequenceReflexive(s); s
  }

  /** The filter effect: search, then ecosystem, then location, then price. The
      result is a subsequence of the listing holding exactly the projects the
      active controls accept. */
  function ApplyFilters(ps: seq<Project>, term: string, f: Filters): (r: seq<Project>)
    ensures IsSubsequence(r, ps)
    ensures forall p :: p in r <==> p in ps && Keeps(p, term, f)
  {
    var bySearch := FilterWhen(ps, SearchActive(term), (p: Project) => MatchesSearch(p, term));
    var byEcosystem := FilterWhen(bySearch, EcosystemActive(f), (p: Project) => p.ecosystem == f.ecosystem);
    var byLocation := FilterWhen(byEcosystem, LocationActive(f),
      (p: Project) => Includes(ToLower(p.location), ToLower(f.location)));
    var byPrice := FilterWhen(byLocation, PriceActive(f),
      (p: Project) => InPriceBounds(p.pricePerCredit, ParsePriceRange(f.priceRange)));
    SubsequenceTransitive(byEcosystem, bySearch, ps);
    SubsequenceTransitive(byLocation, byEcosystem, ps);
    SubsequenceTransitive(byPrice, byLocation, ps);
    byPrice
  }

  /** The filter effect keeps every accepted project as often as the listing
      holds it, and drops every other one. */
  lemma ApplyFiltersCounts(ps: seq<Project>, term: string, f: Filters)
    ensures forall p :: multiset(ApplyFilters(ps, term, f))[p] == if Keeps(p, term, f) then multiset(ps)[p] else 0
  {
    var bySearch := FilterWhen(ps, SearchActive(term), (p: Project) => MatchesSearch(p, term));
    var byEcosystem := FilterWhen(bySearch, EcosystemActive(f), (p: Project) => p.ecosystem == f.ecosystem);
    var byLocation := FilterWhen(byEcosystem, LocationActive(f),
      (p: Project) => Includes(ToLower(p.location), ToLower(f.location)));
    var byPrice := FilterWhen(byLocation, PriceActive(f),
      (p: Project) => InPriceBounds(p.pricePerCredit, ParsePriceRange(f.priceRange)));
    assert ApplyFilters(ps, term, f) == byPrice;
  }

  /** An empty search, ecosystem "all", an empty location and price "all" leave the list unchanged. */
  lemma NeutralFiltersKeepAll(ps: seq<Project>)
    ensures ApplyFilters(ps, "", DefaultFilters) == ps
  {
  }

  /** A price range "lo-hi" parses to the two inclusive bounds. */
  lemma {:induction false} PriceRangeParses(lo: nat, hi: nat)
    ensures ParsePriceRange(NatToString(lo) + "-" + NatToString(hi)) == PriceBounds(Some(lo), Some(hi))
  {
    var a, b := NatToString(lo), NatToString(hi);
    assert Join([a, b], '-') == a + "-" + b;
    SplitJoin([a, b], '-');
    ParseNatToString(lo);
    ParseNatToString(hi);
  }

  /** With a range "lo-hi" selected, the price stage keeps exactly the projects
      priced from lo to hi, both ends included. */
  lemma PriceRangeInclusive(p: Project, term: string, f: Filters, lo: nat, hi: nat)
    requires f.priceRange == NatToString(lo) + "-" + NatToString(hi)
    ensures Keeps(p, term, f) <==>
      Keeps(p, term, f.(priceRange := "all")) && lo <= p.pricePerCredit <= hi
  {
    PriceRangeParses(lo, hi);
    var a := NatToString(lo);
    assert f.priceRange[|a|] == '-';
    assert f.priceRange != "all";
  }

  /** The three ranges offered by the price selector. */
  lemma PriceOptionsParse()
    ensures ParsePriceRange("0-400") == PriceBounds(Some(0), Some(400))
    ensures ParsePriceRange("400-500") == PriceBounds(Some(400), Some(500))
    ensures ParsePriceRange("500-1000") == PriceBounds(Some(500), Some(1000))
  {
    assert NatToString(0) == "0";
    assert NatToString(400) == "400";
    assert NatToString(500) == "500";
    assert NatToString(1000) == "1000";
    PriceRangeParses(0, 400);
    PriceRangeParses(400, 500);
    PriceRangeParses(500, 1000);
    assert "0-400" == NatToString(0) + "-" + NatToString(400);
    assert "400-500" == NatToString(400) + "-" + NatToString(500);
    assert "500-1000" == NatToString(500) + "-" + NatToString(1000);
  }

  /** The amount input: `Math.max(1, parseInt(value) || 1)`, where None is NaN. */
  function ClampAmount(parsed: Option<int>): (n: int)
    ensures n >= 1
    ensures parsed.Some? && parsed.value >= 1 ==> n == parsed.value
    ensures parsed.None? || parsed.value < 1 ==> n == 1
  {
    var v := if parsed.Some? && parsed.value != 0 then parsed.value else 1;
    if v > 1 then v else 1
  }

  function BuyerMessage(amount: int, title: string, cost: int): string
  {
    "Successfully purchased " + IntToString(amount) + " credits from " + title + " for ₹" + IntToString(cost)
  }

  function OwnerMessage(buyerName: string, amount: int, title: string, cost: int): string
  {
    buyerName + " purchased " + IntToString(amount) + " credits from your project " + title
      + " - Revenue: ₹" + IntToString(cost)
  }

  datatype PurchaseOutcome =
    | NotSignedIn
    | NoProjectSelected
    | InsufficientFunds
    | NotEnoughCredits
    | Purchased(record: Purchase)

  /** The wallet writes of a purchase: debit the buyer, then credit the owner. */
  function Transfer(wallets: map<string, int>, buyer: string, owner: string, cost: int): (w: map<string, int>)
    ensures w.Keys == wallets.Keys + {buyer, owner}
    ensures buyer != owner ==> w[buyer] == Balance(wallets, buyer) - cost && w[owner] == Balance(wallets, owner) + cost
  {
    Credit(Credit(wallets, buyer, -cost), owner, cost)
  }

  /** Between a distinct buyer and owner the stored amounts move by exactly the
      cost, so their sum is conserved and every other wallet is untouched. */
  lemma TransferConserves(wallets: map<string, int>, buyer: string, owner: string, cost: int)
    requires buyer != owner
    ensures var w := Transfer(wallets, buyer, owner, cost);
      && w[buyer] == Balance(wallets, buyer) - cost
      && w[owner] == Balance(wallets, owner) + cost
      && w[buyer] + w[owner] == Balance(wallets, buyer) + Balance(wallets, owner)
      && w.Keys == wallets.Keys + {buyer, owner}
      && forall k :: k in wallets && k != buyer && k != owner ==> w[k] == wallets[k]
  {
  }

  /** A purchase that passed the funds guard against the buyer's current balance
      leaves the buyer's stored balance non-negative, and the balance the page
      re-reads after the debit is still the buyer's balance once the owner is paid. */
  lemma GuardedPurchaseSolvent(wallets: map<string, int>, buyer: string, owner: string, cost: int)
    requires buyer != owner
    requires cost <= Balance(wallets, buyer)
    ensures Transfer(wallets, buyer, owner, cost)[buyer] >= 0
    ensures Balance(Transfer(wallets, buyer, owner, cost), buyer) >= 0
    ensures Balance(Transfer(wallets, buyer, owner, cost), buyer) == Balance(Credit(wallets, buyer, -cost), buyer)
  {
    TransferConserves(wallets, buyer, owner, cost);
  }

  /** Spending the whole balance stores 0, which reads back as the default balance. */
  lemma ExactSpendReadsAsDefault(wallets: map<string, int>, buyer: string, owner: string)
    requires buyer != owner
    ensures Balance(Transfer(wallets, buyer, owner, Balance(wallets, buyer)), buyer) == DefaultBalance
  {
    TransferConserves(wallets, buyer, owner, Balance(wallets, buyer));
  }

  /** A buyer buying from their own project: the two writes cancel, except that
      spending the whole balance first reads back as the default and the credit
      lands on top of it. */
  lemma SelfPurchase(wallets: map<string, int>, id: string, cost: int)
    ensures Transfer(wallets, id, id, cost)[id] ==
      if Balance(wallets, id) == cost then DefaultBalance + cost else Balance(wallets, id)
  {
  }

  /** The project after `amount` of its credits are sold: only the available count changes. */
  function Sold(p: Project, amount: int): (r: Project)
    ensures r.creditsAvailable == p.creditsAvailable - amount
    ensures r.(creditsAvailable := p.creditsAvailable) == p
  {
    p.(creditsAvailable := p.creditsAvailable - amount)
  }

  /** The two notifications a sale adds, newest first: the owner's revenue
      notice, then the buyer's receipt; both successes, unread and stamped with
      the purchase time. */
  function SaleNotifications(buyer: User, sel: Project, record: Purchase, buyerNoteId: string, ownerNoteId: string)
    : (r: seq<Notification>)
    ensures |r| == 2
    ensures r[0].id == ownerNoteId && r[0].userId == sel.ownerId
    ensures r[0].message == OwnerMessage(buyer.name, record.credits, sel.title, record.totalAmount)
    ensures r[1].id == buyerNoteId && r[1].userId == buyer.id
    ensures r[1].message == BuyerMessage(record.credits, sel.title, record.totalAmount)
    ensures forall n :: n in r ==> n.kind == Success && !n.read && n.timestamp == record.timestamp
  {
    [ Notification(ownerNoteId, sel.ownerId, OwnerMessage(buyer.name, record.credits, sel.title, record.totalAmount),
                   Success, record.timestamp, false),
      Notification(buyerNoteId, buyer.id, BuyerMessage(record.credits, sel.title, record.totalAmount),
                   Success, record.timestamp, false) ]
  }

  /** The guards of a purchase, in the source's order: a signed-in user, a
      selected project, a cost within the balance the page shows, enough
      credits left. When all pass, the purchase record: `amount` credits at
      the project's price, offsetting 2 tons each. */
  function Verdict(user: Option<User>, selected: Option<Project>, amount: int, balance: int,
                   purchaseId: string, now: string): (r: PurchaseOutcome)
    ensures user.None? ==> r == NotSignedIn
    ensures user.Some? && selected.None? ==> r == NoProjectSelected
    ensures r.Purchased? <==>
      user.Some? && selected.Some? && amount * selected.value.pricePerCredit <= balance
      && amount <= selected.value.creditsAvailable
    ensures r.InsufficientFunds? <==>
      user.Some? && selected.Some? && amount * selected.value.pricePerCredit > balance
    ensures r.Purchased? ==> r.record == Purchase(purchaseId, selected.value.id, user.value.id, amount,
                                                  amount * selected.value.pricePerCredit, 2 * amount, now)
  {
    if user.None? then NotSignedIn
    else if selected.None? then NoProjectSelected
    else
      var sel := selected.value;
      var totalCost := amount * sel.pricePerCredit;
      if totalCost > balance then InsufficientFunds
      else if amount > sel.creditsAvailable then NotEnoughCredits
      else Purchased(Purchase(purchaseId, sel.id, user.value.id, amount, totalCost, amount * 2, now))
  }

  /** A purchase that goes through never sells more credits than are left and
      never costs more than the balance the page showed. */
  lemma VerdictWithinLimits(user: Option<User>, selected: Option<Project>, amount: int, balance: int,
                            purchaseId: string, now: string)
    requires Verdict(user, selected, amount, balance, purchaseId, now).Purchased?
    ensures var record := Verdict(user, selected, amount, balance, purchaseId, now).record;
      record.credits <= selected.value.creditsAvailable && record.totalAmount <= balance
      && Sold(selected.value, record.credits).creditsAvailable >= 0
  {
  }

  class MarketplacePage {
    const store: Store
    const user: Option<User>
    var projects: seq<Project>
    var filtered: seq<Project>
    var searchTerm: string
    var filters: Filters
    var selected: Option<Project>
    var purchaseAmount: int
    var walletBalance: int

    /** Mounting the page: the current user is read once, the listing is loaded
        and shown unfiltered, and the user's balance is read. */
    constructor (store: Store)
      ensures this.store == store && user == store.GetCurrentUser()
      ensures projects == Listing(store.GetProjects()) && filtered == projects
      ensures searchTerm == "" && filters == DefaultFilters
      ensures selected.None? && purchaseAmount == 1
      ensures walletBalance == if user.Some? then store.GetUserWallet(user.value.id) else 0
    {
      this.store := store;
      var current := store.GetCurrentUser();
      user := current;
      var listed := Listing(store.GetProjects());
      projects := listed;
      searchTerm, filters := "", DefaultFilters;
      filtered := ApplyFilters(listed, "", DefaultFilters);
      selected, purchaseAmount := None, 1;
      walletBalance := if current.Some? then store.GetUserWallet(current.value.id) else 0;
    }

    /** Typing in the search box; the filter effect re-runs. */
    method SetSearchTerm(term: string)
      modifies this
      ensures searchTerm == term && filtered == ApplyFilters(projects, term, filters)
      ensures projects == old(projects) && filters == old(filters) && selected == old(selected)
      ensures purchaseAmount == old(purchaseAmount) && walletBalance == old(walletBalance)
    {
      searchTerm := term;
      filtered := ApplyFilters(projects, searchTerm, filters);
    }

    /** Changing a filter control; the filter effect re-runs. */
    method SetFilters(f: Filters)
      modifies this
      ensures filters == f && filtered == ApplyFilters(projects, searchTerm, f)
      ensures projects == old(projects) && searchTerm == old(searchTerm) && selected == old(selected)
      ensures purchaseAmount == old(purchaseAmount) && walletBalance == old(walletBalance)
    {
      filters := f;
      filtered := ApplyFilters(projects, searchTerm, filters);
    }

    /** Opening the purchase dialog on a card of the grid; the card's button is
        enabled only for a signed-in credit buyer. */
    method SelectProject(p: Project)
      requires p in filtered
      requires user.Some? && user.value.role == CreditBuyerRole
      modifies this`selected
      ensures selected == Some(p)
    {
      selected := Some(p);
    }

    /** Editing the amount field. */
    method SetPurchaseAmount(parsed: Option<int>)
      modifies this`purchaseAmount
      ensures purchaseAmount == ClampAmount(parsed) && purchaseAmount >= 1
    {
      purchaseAmount := ClampAmount(parsed);
    }

    /** `handlePurchase`: the guards of `Verdict`, which write nothing, then the
        writes of `Commit`. */
    method HandlePurchase(purchaseId: string, now: string, buyerNoteId: string, ownerNoteId: string)
      returns (outcome: PurchaseOutcome)
      modifies this`projects, this`filtered, this`walletBalance, this`selected, this`purchaseAmount
      modifies store`storedPurchases, store`storedWallets, store`storedProjects, store`storedNotifications
      ensures outcome == Verdict(user, old(selected), old(purchaseAmount), old(walletBalance), purchaseId, now)
      ensures !outcome.Purchased? ==> unchanged(store) && unchanged(this)
      ensures outcome.Purchased? ==>
        var record, sel := outcome.record, old(selected).value;
        && store.GetPurchases() == old(store.GetPurchases()) + [record]
        && store.Wallets() == Transfer(old(store.Wallets()), user.value.id, sel.ownerId, record.totalAmount)
        && store.GetProjects() == Upsert(old(store.GetProjects()), Sold(sel, record.credits), ProjectId)
        && store.GetNotifications() ==
             SaleNotifications(user.value, sel, record, buyerNoteId, ownerNoteId) + old(store.GetNotifications())
        && projects == ReplaceAll(old(projects), sel.id, Sold(sel, record.credits), ProjectId)
        && filtered == ApplyFilters(projects, searchTerm, filters)
        && walletBalance == Balance(Credit(old(store.Wallets()), user.value.id, -record.totalAmount), user.value.id)
        && selected.None? && purchaseAmount == 1
      ensures outcome.Purchased? && old(walletBalance) == old(store.GetUserWallet(user.value.id))
              && user.value.id != old(selected).value.ownerId ==>
        store.Wallets()[user.value.id] >= 0 && walletBalance == store.GetUserWallet(user.value.id)
    {
      outcome := Verdict(user, selected, purchaseAmount, walletBalance, purchaseId, now);
      if outcome.Purchased? {
        var sel, record := selected.value, outcome.record;
        ghost var buyer, wallets := user.value.id, store.Wallets();
        if walletBalance == store.GetUserWallet(buyer) && buyer != sel.ownerId {
          GuardedPurchaseSolvent(wallets, buyer, sel.ownerId, record.totalAmount);
        }
        Buy(sel, record, buyerNoteId, ownerNoteId, now);
      }
    }

    /** A purchase that passed the guards: the store writes of `Commit`, then
        the page's own update in `Relist`. */
    method Buy(sel: Project, record: Purchase, buyerNoteId: string, ownerNoteId: string, now: string)
      requires user.Some? && record.timestamp == now
      modifies this`projects, this`filtered, this`walletBalance, this`selected, this`purchaseAmount
      modifies store`storedPurchases, store`storedWallets, store`storedProjects, store`storedNotifications
      ensures store.GetPurchases() == old(store.GetPurchases()) + [record]
      ensures store.Wallets() == Transfer(old(store.Wallets()), user.value.id, sel.ownerId, record.totalAmount)
      ensures store.GetProjects() == Upsert(old(store.GetProjects()), Sold(sel, record.credits), ProjectId)
      ensures store.GetNotifications() ==
        SaleNotifications(user.value, sel, record, buyerNoteId, ownerNoteId) + old(store.GetNotifications())
      ensures projects == ReplaceAll(old(projects), sel.id, Sold(sel, record.credits), ProjectId)
      ensures filtered == ApplyFilters(projects, searchTerm, filters)
      ensures walletBalance == Balance(Credit(old(store.Wallets()), user.value.id, -record.totalAmount), user.value.id)
      ensures selected.None? && purchaseAmount == 1
    {
      Commit(user.value, sel, record, buyerNoteId, ownerNoteId, now);
      Relist(ReplaceAll(projects, sel.id, Sold(sel, record.credits), ProjectId));
    }

    /** The store writes of a purchase, in the source's order: the payment,
        then the project and notification writes. */
    method Commit(buyer: User, sel: Project, record: Purchase, buyerNoteId: string, ownerNoteId: string, now: string)
      requires record.timestamp == now
      modifies this`walletBalance
      modifies store`storedPurchases, store`storedWallets, store`storedProjects, store`storedNotifications
      ensures store.GetPurchases() == old(store.GetPurchases()) + [record]
      ensures store.Wallets() == Transfer(old(store.Wallets()), buyer.id, sel.ownerId, record.totalAmount)
      ensures store.GetProjects() == Upsert(old(store.GetProjects()), Sold(sel, record.credits), ProjectId)
      ensures store.GetNotifications() == SaleNotifications(buyer, sel, record, buyerNoteId, ownerNoteId) + old(store.GetNotifications())
      ensures walletBalance == Balance(Credit(old(store.Wallets()), buyer.id, -record.totalAmount), buyer.id)
    {
      Pay(buyer, sel, record);
      RecordSale(buyer, sel, record, buyerNoteId, ownerNoteId, now);
    }

    /** The page's side of a sale. The handler shows its list with the sold
        project replaced, re-listed, closes the dialog and resets the amount
        to 1. Because the page's list changed, the filter effect then runs
        again over it and its result replaces the re-listed one: the grid
        shows the filtered page list. */
    method Relist(updatedProjects: seq<Project>)
      modifies this`projects, this`filtered, this`selected, this`purchaseAmount
      ensures projects == updatedProjects
      ensures filtered == ApplyFilters(updatedProjects, searchTerm, filters)
      ensures selected.None? && purchaseAmount == 1
    {
      var shown := ApplyFilters(updatedProjects, searchTerm, filters);
      projects, filtered, selected, purchaseAmount := updatedProjects, shown, None, 1;
    }

    /** `savePurchase`, the buyer's debit (whose balance the page re-reads) and the owner's credit. */
    method Pay(buyer: User, sel: Project, record: Purchase)
      modifies store`storedPurchases, store`storedWallets, this`walletBalance
      ensures store.GetPurchases() == old(store.GetPurchases()) + [record]
      ensures store.Wallets() == Transfer(old(store.Wallets()), buyer.id, sel.ownerId, record.totalAmount)
      ensures walletBalance == Balance(Credit(old(store.Wallets()), buyer.id, -record.totalAmount), buyer.id)
    {
      store.SavePurchase(record);
      store.UpdateUserWallet(buyer.id, -record.totalAmount);
      walletBalance := store.GetUserWallet(buyer.id);
      store.UpdateUserWallet(sel.ownerId, record.totalAmount);
    }

    /** `saveProject` of the reduced project, then the buyer's and the owner's notification. */
    method RecordSale(buyer: User, sel: Project, record: Purchase, buyerNoteId: string, ownerNoteId: string, now: string)
      requires record.timestamp == now
      modifies store`storedProjects, store`storedNotifications
      ensures store.GetProjects() == Upsert(old(store.GetProjects()), Sold(sel, record.credits), ProjectId)
      ensures store.GetNotifications() == SaleNotifications(buyer, sel, record, buyerNoteId, ownerNoteId) + old(store.GetNotifications())
    {
      var amount, totalCost := record.credits, record.totalAmount;
      store.SaveProject(Sold(sel, amount));
      store.AddNotification(Draft(buyer.id, BuyerMessage(amount, sel.title, totalCost), Success, now, false), buyerNoteId);
      store.AddNotification(Draft(sel.ownerId, OwnerMessage(buyer.name, amount, sel.title, totalCost), Success, now, false), ownerNoteId);
    }
  }

  /** The sale of 10 credits of the first demo project (800 available at 450
      each) to a fresh buyer: 4500 paid, 20 tons offset, 95500 left in the
      buyer's wallet, 104500 in the owner's, 790 credits left. */
  method DemoPurchase() returns (record: Purchase, buyerBalance: int, ownerBalance: int, creditsLeft: int)
    ensures record.credits == 10 && record.totalAmount == 4500 && record.co2Offset == 20
    ensures buyerBalance == 95500 && ownerBalance == 104500 && creditsLeft == 790
  {
    var store := OpenDemoStore();
    var page := OpenDemoMarketplace(store);
    var demo := Sundarbans;
    page.SelectProject(demo);
    page.SetPurchaseAmount(Some(10));
    assert page.walletBalance == DefaultBalance;
    var outcome := page.HandlePurchase("purchase-1", "2024-03-02T10:00:00.000Z", "note-1", "note-2");
    assert outcome.Purchased?;
    record := outcome.record;
    DemoSaleWrites();
    buyerBalance := store.GetUserWallet("buyer-1");
    ownerBalance := store.GetUserWallet(demo.ownerId);
    creditsLeft := store.GetProjects()[0].creditsAvailable;
  }

  /** The store values a sale of 10 credits of the first demo project at 450
      writes over fresh wallets and the seeded project list. */
  lemma DemoSaleWrites()
    ensures var w := Transfer(map[], "buyer-1", Sundarbans.ownerId, 4500);
      Balance(w, "buyer-1") == 95500 && Balance(w, Sundarbans.ownerId) == 104500
    ensures var ps := Upsert(DemoProjects(), Sold(Sundarbans, 10), ProjectId);
      |ps| == 3 && ps[0].creditsAvailable == 790
  {
    TransferConserves(map[], "buyer-1", Sundarbans.ownerId, 4500);
    UpsertExisting(DemoProjects(), Sold(Sundarbans, 10), ProjectId, 0);
  }

  /** A list of listable projects is listed whole, and unfiltered it is shown whole. */
  lemma ListingOfListable(ps: seq<Project>)
    requires forall i :: 0 <= i < |ps| ==> Listable(ps[i])
    ensures Listing(ps) == ps
    ensures ApplyFilters(ps, "", DefaultFilters) == ps
  {
    FilterKeepsAll(ps, Listable);
    NeutralFiltersKeepAll(ps);
  }

  /** Every demo project is listed, and the unfiltered page shows them all. */
  lemma DemoListing()
    ensures Listing(DemoProjects()) == DemoProjects()
    ensures ApplyFilters(DemoProjects(), "", DefaultFilters) == DemoProjects()
  {
    var ps := DemoProjects();
    assert forall i :: 0 <= i < |ps| ==> Listable(ps[i]) by {
      DemoProjectsWellFormed();
    }
    ListingOfListable(ps);
  }

  /** Buying every credit left of a listed project, with the filters at
      their defaults, leaves the sold-out project on the page: the list the
      filter effect works from is not re-listed. */
  lemma SoldOutStaysShown(projects: seq<Project>, k: nat)
    requires k < |projects| && Listable(projects[k])
    ensures var sold := Sold(projects[k], projects[k].creditsAvailable);
      && !Listable(sold)
      && sold in ApplyFilters(ReplaceAll(projects, projects[k].id, sold, ProjectId), "", DefaultFilters)
      && sold !in Listing(ReplaceAll(projects, projects[k].id, sold, ProjectId))
  {
    var sold := Sold(projects[k], projects[k].creditsAvailable);
    var after := ReplaceAll(projects, projects[k].id, sold, ProjectId);
    NeutralFiltersKeepAll(after);
    assert after[k] == sold;
  }

  /** A fresh store seeded with the demo projects, with a buyer signed in
      and no wallet written yet. */
  method OpenDemoStore() returns (store: Store)
    ensures fresh(store)
    ensures store.storedProjects == Some(DemoProjects()) && store.storedWallets.None?
    ensures store.session.Some? && store.session.value.id == "buyer-1"
    ensures store.session.value.role == CreditBuyerRole
  {
    store := new Store();
    store.InitializeDemoData();
    var buyer := User("buyer-1", "Asha", "asha@example.org", None, CreditBuyerRole, "secret", "2024-03-01");
    store.SetCurrentUser(Some(buyer));
  }

  /** Mounting the marketplace on that store: all three demo projects are
      listed and the buyer's wallet shows the default balance. */
  method OpenDemoMarketplace(store: Store) returns (page: MarketplacePage)
    requires store.storedProjects == Some(DemoProjects()) && store.storedWallets.None?
    requires store.session.Some? && store.session.value.id == "buyer-1"
    requires store.session.value.role == CreditBuyerRole
    ensures fresh(page) && page.store == store
    ensures page.user.Some? && page.user.value.id == "buyer-1" && page.user.value.role == CreditBuyerRole
    ensures page.projects == DemoProjects() && page.filtered == DemoProjects()
    ensures page.selected.None? && page.walletBalance == DefaultBalance
  {
    DemoListing();
    page := new MarketplacePage(store);
  }
}
