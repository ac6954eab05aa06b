# AquaCreds core, modelled in Dafny

AquaCreds is a demo marketplace for blue-carbon credits. Project owners submit
coastal-restoration projects, verifiers approve or reject them, and buyers buy
credits from approved projects. All state lives in the browser's local storage
under one key per collection: users, the signed-in user, projects, purchases,
notifications, and a map from user id to wallet balance.

This project models that store and the page handlers that read and write it.
It proves what each handler writes and what it leaves alone, together with
properties of those writes: the upsert's effect on ids, the partition of the
status counts, the conservation of a transfer between two wallets, and the
filter effect keeping exactly the projects its controls accept.

The model is split into modules:

- `Seqs` (seqs.dfy): the array operations the code leans on, in generic form.
  - `filter`, `findIndex`/`find`.
  - The find-then-replace-or-push upsert shared by `saveUser` and `saveProject`.
  - The id-keyed `.map` replacement the pages apply to their local lists.
  - The `reduce` sum.
- `Text` (text.dfy): the JavaScript string primitives the filters use, over `seq<char>`.
  - ASCII `toLowerCase`, `includes` and `split`.
  - `Number` on digit strings, and decimal rendering.
- `Entities` (entities.dfy): the stored records and the role strings.
  - The role-to-dashboard route switch that sign-up and login share.
  - The status count, and `slice(0, 5)` of notifications.
- `LocalStore` (store.dfy): the persistence layer as a class `Store`.
  - One `Option` field per storage key; `None` means the key was never written, and it reads as an empty collection.
  - A method per writer (`saveUser`, `saveProject`, `savePurchase`, `addNotification`, `markNotificationAsRead`, `updateUserWallet`, `initializeDemoData`), and a function per reader.
  - The wallet rule `walletsData[id] || 100000` is modelled as written: a stored balance of exactly 0 reads back as 100000.
- `Marketplace` (marketplace.dfy): the marketplace page as a class.
  - The listing of approved projects with credits left.
  - The four-stage filter effect.
  - The amount input.
  - `handlePurchase`: its guards (`Verdict`), then its ordered store writes (`Commit`, split into `Pay` and `RecordSale`), then the page's own update (`Relist`).
- `VerifierDashboard` (verifier.dfy): the verifier's page.
  - The status counts.
  - `handleVerification`: the project write, two notifications, and the local list and count update.
- `ProjectOwnerDashboard` (owner.dfy): the owner's page.
  - The totals, revenue and pending statistics.
  - `handleSubmitProject`.
- `SignIn` (signin.dfy) and `Login` (login.dfy): account creation, and the credential lookup.

Ids (`Date.now()`) and timestamps (`new Date().toISOString()`) are parameters of the handlers. One handler uses one timestamp for all of its writes.

Two behaviours of the code are modelled as they are:

- After a purchase, `handlePurchase` sets the grid to the re-listed page list. The page list itself is not re-listed, so the filter effect, which depends on it, runs again and replaces the grid with the filtered page list. A project whose last credits were just bought therefore stays on screen (`Marketplace.SoldOutStaysShown`).
- `handleVerification` does not check that the project is still pending; only the dialog hides the buttons. A second decision overwrites the first (`VerifierDashboard.SecondVerificationOverwrites`).

## Model

| member | source | states |
|---|---|---|
| Seqs.Filter | src/utils/localStorage.ts:160-162 | `filter` keeps exactly the elements satisfying the predicate, with their multiplicities |
| Seqs.FilterIsSubsequence | src/utils/localStorage.ts:160-162 | the kept elements stay in their stored order: the result is a subsequence of the input |
| Seqs.FilterKeepsAll | src/pages/Marketplace.tsx:34 | filtering a list whose every element passes returns the list itself |
| Seqs.FilterConcat | src/utils/localStorage.ts:160-162 | filtering distributes over concatenation |
| Seqs.SubsequenceTransitive | src/pages/Marketplace.tsx:43-72 | a subsequence of a subsequence is a subsequence, so chaining filter stages stays within the original list |
| Seqs.SubsequenceReflexive | src/pages/Marketplace.tsx:43-72 | a stage that is switched off passes its list through as a subsequence of itself |
| Seqs.FirstIndex | src/utils/localStorage.ts:112 | `findIndex` returns the first position whose element satisfies the predicate, or none when no element does |
| Seqs.FirstIndexConcat | src/pages/Login.tsx:37-38 | the first match in `a + b` is the first in `a`, or else the first in `b` shifted by `|a|` |
| Seqs.IndexOfId | src/utils/localStorage.ts:144 | the first position carrying the id, or none when no entry carries it |
| Seqs.Upsert | src/utils/localStorage.ts:112-118 | after the find-then-replace-or-push, the saved item is in the list, and the list grew by at most one |
| Seqs.UpsertLength | src/utils/localStorage.ts:142-153 | the saved item is present afterwards; the length is unchanged when the id existed and grows by one when it did not |
| Seqs.UpsertExisting | src/utils/localStorage.ts:110-121 | with the id present, the first entry carrying it becomes the item and every other position is unchanged |
| Seqs.UpsertNew | src/utils/localStorage.ts:112-120 | with the id absent, the item is appended and the old list is a prefix of the new one |
| Seqs.UpsertIdempotent | src/utils/localStorage.ts:144-152 | saving the same item twice equals saving it once |
| Seqs.UpsertOverwrites | src/utils/localStorage.ts:142-153 | saving two items with the same id leaves only the second |
| Seqs.UpsertKeepsUniqueIds | src/utils/localStorage.ts:144-152 | an upsert creates no duplicate id when there was none |
| Seqs.UpsertSoleEntry | src/utils/localStorage.ts:144-152 | with unique ids, the saved item is the only entry carrying its id afterwards |
| Seqs.ReplaceAll | src/pages/Marketplace.tsx:167 | the `.map` replacement changes exactly the entries carrying the id, keeping the length |
| Seqs.ReplaceAllIsUpsert | src/pages/dashboard/VerifierDashboard.tsx:94 | on a list with unique ids containing the id, the page's `.map` replacement agrees with the store's upsert |
| Seqs.ReplaceAbsent | src/pages/dashboard/VerifierDashboard.tsx:94 | replacing an id that no entry carries changes nothing |
| Seqs.UniqueIdsTail | src/utils/localStorage.ts:144-152 | the tail of a list with unique ids has unique ids, none equal to the head's |
| Seqs.Sum | src/pages/dashboard/ProjectOwnerDashboard.tsx:47-48 | `reduce` from 0 gives 0 on an empty list and the one term on a single-element list |
| Seqs.SumAppend | src/pages/dashboard/ProjectOwnerDashboard.tsx:47-48 | appending an element adds its term to the `reduce` sum |
| Seqs.SumNonNegative | src/pages/dashboard/ProjectOwnerDashboard.tsx:48 | a sum of non-negative terms is non-negative |
| Seqs.SumReplace | src/pages/dashboard/ProjectOwnerDashboard.tsx:47-48 | replacing the entry with a given id (ids unique) swaps its term for the new entry's |
| Text.ToLower | src/pages/Marketplace.tsx:49-51 | ASCII case folding: same length, each character folded, no upper-case letter left |
| Text.IncludesAt | src/pages/Marketplace.tsx:49-51 | `includes` holds exactly when the needle occurs at some position |
| Text.Split | src/pages/Marketplace.tsx:67 | `split` yields at least one part and no part contains the separator |
| Text.JoinSplit | src/pages/Marketplace.tsx:67 | joining the parts of a split gives back the string |
| Text.SplitNoSeparator | src/pages/Marketplace.tsx:67 | a string without the separator splits into itself alone |
| Text.SplitAfterSeparator | src/pages/Marketplace.tsx:67 | a separator-free prefix followed by the separator becomes the first part |
| Text.SplitJoin | src/pages/Marketplace.tsx:67 | splitting a join of separator-free parts gives back the parts |
| Text.ParseNumber | src/pages/Marketplace.tsx:67 | `Number` on a digit string gives a non-negative value, and anything else is NaN |
| Text.NatToString | src/pages/Marketplace.tsx:152 | the decimal rendering is a non-empty digit string with no minus sign |
| Text.ParseNatToString | src/pages/Marketplace.tsx:67 | reading back a rendered number gives the number |
| Entities.CountStatus | src/pages/dashboard/VerifierDashboard.tsx:41-43 | a status count never exceeds the number of projects |
| Entities.CountStatusIsFilter | src/pages/dashboard/VerifierDashboard.tsx:41-43 | the recursive status count equals the length of the list filtered on that status |
| Entities.CountStatusConcat | src/pages/dashboard/ProjectOwnerDashboard.tsx:49 | the count over two lists in a row is the sum of their counts |
| Entities.StatusCountsPartition | src/pages/dashboard/VerifierDashboard.tsx:41-43 | the pending, approved and rejected counts add up to the number of projects |
| Entities.DashboardRoute | src/pages/SignIn.tsx:70-85 | each of the four roles goes to its dashboard and any other role to `/profile` |
| Entities.RoutesDistinguishRoles | src/pages/Login.tsx:57-72 | the four roles get four distinct routes, all different from the fallback |
| Entities.Latest | src/pages/dashboard/VerifierDashboard.tsx:59 | `slice(0, 5)` gives the first five notifications, or all of them when there are fewer |
| Entities.Draft.WithId | src/utils/localStorage.ts:183-186 | the stored notification is the draft's fields plus the supplied id |
| LocalStore.Balance | src/utils/localStorage.ts:210-214 | an absent wallet or a stored 0 reads as 100000, and any other stored value reads as itself; a balance never reads as 0 |
| LocalStore.Credit | src/utils/localStorage.ts:216-221 | an update writes only the given id's entry |
| LocalStore.CreditThenRead | src/utils/localStorage.ts:216-221 | after an update the entry is the old balance plus the amount, read back as the default when it is 0; other wallets read as before |
| LocalStore.FreshWalletScenario | src/utils/localStorage.ts:210-221 | from no wallets, −500 then +200 leaves 99700 |
| LocalStore.ZeroReadsAsDefault | src/utils/localStorage.ts:213 | spending a whole balance, whatever its sign, stores 0, which reads back as 100000 |
| LocalStore.MarkRead | src/utils/localStorage.ts:200-207 | marking keeps the list's length |
| LocalStore.MarkReadOnlyFlag | src/utils/localStorage.ts:200-207 | only the `read` flag of the first entry with the id can change; an unknown id leaves the list as it is |
| LocalStore.MarkReadIdempotent | src/utils/localStorage.ts:200-207 | marking twice equals marking once |
| LocalStore.ProjectsOwnedBy | src/utils/localStorage.ts:160-162 | exactly the owner's projects, in stored order |
| LocalStore.Stored | src/utils/localStorage.ts:123-126 | an absent key reads as the empty collection |
| LocalStore.DemoProjectsWellFormed | src/utils/localStorage.ts:53-107 | the demo projects have distinct ids, are approved, have 0 < available ≤ generated and a positive price |
| LocalStore.Store.GetCurrentUser | src/utils/localStorage.ts:128-131 | the signed-in user is whatever the session key holds, and no one when it is absent |
| LocalStore.Store.GetUsers | src/utils/localStorage.ts:123-126 | an absent users key reads as no users |
| LocalStore.Store.GetProjects | src/utils/localStorage.ts:155-158 | an absent projects key reads as no projects |
| LocalStore.Store.GetPurchases | src/utils/localStorage.ts:171-174 | an absent purchases key reads as no purchases |
| LocalStore.Store.GetNotifications | src/utils/localStorage.ts:191-194 | an absent notifications key reads as no notifications |
| LocalStore.Store.Wallets | src/utils/localStorage.ts:211-212 | an absent wallets key reads as the empty map |
| LocalStore.Store.GetProjectsByOwner | src/utils/localStorage.ts:160-162 | the stored projects whose `ownerId` is the argument, as a subsequence with multiplicities |
| LocalStore.Store.GetPurchasesByBuyer | src/utils/localStorage.ts:176-178 | the stored purchases whose `buyerId` is the argument, as a subsequence with multiplicities |
| LocalStore.Store.GetNotificationsByUser | src/utils/localStorage.ts:196-198 | the stored notifications whose `userId` is the argument, as a subsequence with multiplicities |
| LocalStore.Store.GetUserWallet | src/utils/localStorage.ts:210-214 | an id without an entry or with a stored 0 reads 100000, any other stored value reads as itself, so a balance is never 0 |
| LocalStore.Store.constructor | src/utils/localStorage.ts:123-126 | storage with no key written |
| LocalStore.Store.SaveUser | src/utils/localStorage.ts:110-121 | the users key holds the upsert of the user into the old users |
| LocalStore.Store.SetCurrentUser | src/utils/localStorage.ts:133-139 | the session holds the given user, or nothing when it is removed |
| LocalStore.Store.SaveProject | src/utils/localStorage.ts:142-153 | the projects key holds the upsert of the project into the old projects |
| LocalStore.Store.SavePurchase | src/utils/localStorage.ts:165-169 | the purchase is appended with no id check; the length grows by exactly one |
| LocalStore.Store.AddNotification | src/utils/localStorage.ts:181-189 | the new notification, with the supplied id, is at index 0 and the old list follows unchanged |
| LocalStore.Store.MarkNotificationAsRead | src/utils/localStorage.ts:200-207 | an unknown id writes nothing; otherwise the first match is marked read |
| LocalStore.Store.UpdateUserWallet | src/utils/localStorage.ts:216-221 | the wallets key holds `(old \|\| 100000) + amount` for the id, with the other entries unchanged |
| LocalStore.Store.InitializeDemoData | src/utils/localStorage.ts:53-107 | the demo projects are seeded only when the projects key was never written |
| Marketplace.Listing | src/pages/Marketplace.tsx:34 | the listing is exactly the approved projects with credits left, in stored order and with their multiplicities |
| Marketplace.FilterWhen | src/pages/Marketplace.tsx:47-69 | a stage filters when its control is set, keeping each accepted project as often as it occurs, and passes the list through otherwise |
| Marketplace.ApplyFilters | src/pages/Marketplace.tsx:43-72 | the result is a subsequence of the page list holding exactly the projects every active control accepts |
| Marketplace.ApplyFiltersCounts | src/pages/Marketplace.tsx:43-72 | each accepted project is shown as often as the page list holds it, and every other project not at all |
| Marketplace.ParsePriceRange | src/pages/Marketplace.tsx:67 | a range without `-` has no upper bound, and every bound that parses is non-negative |
| Marketplace.InPriceBounds | src/pages/Marketplace.tsx:68 | a bound that did not parse (NaN) makes both comparisons false, so no price passes |
| Marketplace.NeutralFiltersKeepAll | src/pages/Marketplace.tsx:20-25 | an empty search, ecosystem `all`, an empty location and price `all` leave the list unchanged |
| Marketplace.PriceRangeParses | src/pages/Marketplace.tsx:67 | a range `"lo-hi"` parses to the two bounds |
| Marketplace.PriceRangeInclusive | src/pages/Marketplace.tsx:66-69 | with range `"lo-hi"`, the price stage keeps exactly the projects priced from lo to hi, both ends included |
| Marketplace.PriceOptionsParse | src/pages/Marketplace.tsx:244-246 | the three ranges of the price selector parse to their bounds |
| Marketplace.ClampAmount | src/pages/Marketplace.tsx:351 | the amount is at least 1; a parsed value of 1 or more is kept, and anything else becomes 1 |
| Marketplace.Transfer | src/pages/Marketplace.tsx:136-140 | the two updates write the buyer's and the owner's entries; between distinct users the buyer's balance drops by the cost and the owner's rises by it |
| Marketplace.TransferConserves | src/pages/Marketplace.tsx:136-140 | between a distinct buyer and owner, the cost moves from one to the other, their sum is conserved and no other wallet changes |
| Marketplace.GuardedPurchaseSolvent | src/pages/Marketplace.tsx:101-140 | a cost within the buyer's stored balance leaves it non-negative, and the balance re-read after the debit is still the buyer's balance after the owner is paid |
| Marketplace.ExactSpendReadsAsDefault | src/pages/Marketplace.tsx:136-137 | spending exactly the whole balance makes the re-read balance 100000 |
| Marketplace.SelfPurchase | src/pages/Marketplace.tsx:136-140 | buying from one's own project leaves the balance as it was, unless the whole balance was spent |
| Marketplace.Sold | src/pages/Marketplace.tsx:143-146 | the sold project differs from the original only in its available credits, reduced by the amount |
| Marketplace.SaleNotifications | src/pages/Marketplace.tsx:150-164 | a sale adds the owner's revenue notice in front of the buyer's receipt, both unread successes |
| Marketplace.Verdict | src/pages/Marketplace.tsx:88-133 | no user, then no selection, then cost above the balance, then too few credits, are refused in that order; otherwise the record has credits = amount, total = amount × price, offset = 2 × amount |
| Marketplace.VerdictWithinLimits | src/pages/Marketplace.tsx:99-117 | an accepted purchase costs no more than the balance, and leaves the project's credits non-negative |
| Marketplace.MarketplacePage.constructor | src/pages/Marketplace.tsx:33-41 | mounting lists the listable projects unfiltered and reads the user's balance |
| Marketplace.MarketplacePage.SetSearchTerm | src/pages/Marketplace.tsx:43-72 | typing re-runs the filter effect over the page list |
| Marketplace.MarketplacePage.SetFilters | src/pages/Marketplace.tsx:43-72 | changing a control re-runs the filter effect over the page list |
| Marketplace.MarketplacePage.SelectProject | src/pages/Marketplace.tsx:314-315 | the clicked card becomes the selected project; the button is enabled only for a signed-in credit buyer |
| Marketplace.MarketplacePage.SetPurchaseAmount | src/pages/Marketplace.tsx:351 | the amount field holds the clamped input |
| Marketplace.MarketplacePage.HandlePurchase | src/pages/Marketplace.tsx:87-187 | a refused purchase writes nothing. A sale appends the record, moves the cost, reduces the project's credits through the upsert, adds both notifications and updates the page list. The grid shows the filter effect over the page list. When the balance the page showed was the stored one and the buyer does not own the project, the buyer's stored balance stays non-negative and the page shows it |
| Marketplace.MarketplacePage.Buy | src/pages/Marketplace.tsx:121-177 | an accepted purchase: the store writes of `Commit`, then the page update of `Relist` |
| Marketplace.MarketplacePage.Commit | src/pages/Marketplace.tsx:133-164 | the purchase's store writes, in order: record, debit, credit, project, two notifications |
| Marketplace.MarketplacePage.Relist | src/pages/Marketplace.tsx:166-177 | the page list becomes the updated list, the grid the filter effect over it, the selection clears and the amount resets to 1 |
| Marketplace.MarketplacePage.Pay | src/pages/Marketplace.tsx:133-140 | the record is appended, the buyer debited and the owner credited; the page re-reads the buyer's balance after the debit |
| Marketplace.MarketplacePage.RecordSale | src/pages/Marketplace.tsx:143-164 | the reduced project is upserted and the two notifications prepended |
| Marketplace.SoldOutStaysShown | src/pages/Marketplace.tsx:167-169 | after the last credits of a project are bought, the re-listing drops it but the filter effect keeps it on the page |
| Marketplace.ListingOfListable | src/pages/Marketplace.tsx:34-36 | a list of listable projects is listed whole and shown whole |
| Marketplace.DemoListing | src/utils/localStorage.ts:53-107 | all three demo projects are listed and shown |
| Marketplace.OpenDemoStore | src/utils/localStorage.ts:53-107 | seeding a fresh store gives the demo projects and no wallets |
| Marketplace.OpenDemoMarketplace | src/pages/Marketplace.tsx:33-41 | mounting on the demo store lists all three projects, with a balance of 100000 |
| Marketplace.DemoSaleWrites | src/pages/Marketplace.tsx:136-146 | over fresh wallets and the seeded projects, a sale of 10 at 450 leaves 95500 and 104500 and 790 credits |
| Marketplace.DemoPurchase | src/pages/Marketplace.tsx:87-187 | 10 credits of the first demo project cost 4500 and offset 20 tons; the buyer keeps 95500, the owner has 104500 and 790 credits are left |
| VerifierDashboard.StatusStats | src/pages/dashboard/VerifierDashboard.tsx:41-43 | the three counts are the status counts and add up to the number of projects |
| VerifierDashboard.CountIsSum | src/pages/dashboard/VerifierDashboard.tsx:41-43 | a status count equals the sum of the 0/1 status indicator over the list |
| VerifierDashboard.CountAfterReplace | src/pages/dashboard/VerifierDashboard.tsx:94-100 | replacing the one entry with an id moves one unit from its old status's count to its new one |
| VerifierDashboard.StatusWord | src/pages/dashboard/VerifierDashboard.tsx:78 | the lower-cased status name |
| VerifierDashboard.Verified | src/pages/dashboard/VerifierDashboard.tsx:66-71 | the decided project equals the original except for status, verification time and notes |
| VerifierDashboard.LastDecisionWins | src/pages/dashboard/VerifierDashboard.tsx:66-71 | deciding twice leaves only the second decision |
| VerifierDashboard.SecondVerificationOverwrites | src/pages/dashboard/VerifierDashboard.tsx:62-73 | a second decision saved over the first leaves the store as if only the second had been made |
| VerifierDashboard.OwnerNotice | src/pages/dashboard/VerifierDashboard.tsx:78 | the notes are appended after " Notes: " only when they are non-empty |
| VerifierDashboard.DecisionKind | src/pages/dashboard/VerifierDashboard.tsx:79 | approval is a success and rejection a warning |
| VerifierDashboard.DecisionNotifications | src/pages/dashboard/VerifierDashboard.tsx:76-91 | exactly two notifications: the admin's info at the head, then the owner's |
| VerifierDashboard.VerifierPage.constructor | src/pages/dashboard/VerifierDashboard.tsx:30-60 | a verifier gets every project, the counts and their five newest notifications; anyone else gets the empty state |
| VerifierDashboard.VerifierPage.SelectProject | src/pages/dashboard/VerifierDashboard.tsx:233 | the reviewed project becomes the selection |
| VerifierDashboard.VerifierPage.SetNotes | src/pages/dashboard/VerifierDashboard.tsx:310 | the notes box holds the typed text |
| VerifierDashboard.VerifierPage.HandleVerification | src/pages/dashboard/VerifierDashboard.tsx:62-116 | an unknown id writes nothing; otherwise the decided project is upserted, two notifications are prepended, the entry is replaced in the page list, the counts are recomputed and the dialog is cleared |
| VerifierDashboard.VerifierPage.Decide | src/pages/dashboard/VerifierDashboard.tsx:66-110 | the decision on a found project, store and page together |
| VerifierDashboard.VerifierPage.ShowDecision | src/pages/dashboard/VerifierDashboard.tsx:94-110 | the page shows the given list, the counts are recomputed over it and the dialog is cleared |
| VerifierDashboard.VerifierPage.RecordDecision | src/pages/dashboard/VerifierDashboard.tsx:73-91 | the project upsert, then the owner's and then the admin's notification |
| VerifierDashboard.ApprovalMovesCounts | src/pages/dashboard/VerifierDashboard.tsx:98-100 | approving a pending project moves one from pending to approved and leaves rejected unchanged |
| ProjectOwnerDashboard.StatsOf | src/pages/dashboard/ProjectOwnerDashboard.tsx:47-56 | the project count, Σ credits generated, Σ revenue and the pending count, with pending ≤ total |
| ProjectOwnerDashboard.ProjectRevenue | src/pages/dashboard/ProjectOwnerDashboard.tsx:48 | a project with nothing sold or a zero price earns nothing, and one with available ≤ generated and a non-negative price earns a non-negative amount |
| ProjectOwnerDashboard.RevenueNonNegative | src/pages/dashboard/ProjectOwnerDashboard.tsx:48 | revenue is non-negative while available ≤ generated and prices are non-negative |
| ProjectOwnerDashboard.SoldRevenue | src/pages/dashboard/ProjectOwnerDashboard.tsx:48 | selling n credits raises a project's revenue by n × price |
| ProjectOwnerDashboard.SaleRaisesRevenue | src/pages/dashboard/ProjectOwnerDashboard.tsx:47-52 | a sale raises the owner's revenue by amount × price and leaves the credits generated and the project count unchanged |
| ProjectOwnerDashboard.SaplingsInput | src/pages/dashboard/ProjectOwnerDashboard.tsx:298 | an unparsable saplings entry becomes 0, and a parsed one is kept |
| ProjectOwnerDashboard.NewProject | src/pages/dashboard/ProjectOwnerDashboard.tsx:75-90 | the new project is pending, has zero credits, price and offset, is owned by the submitter and carries the form's fields |
| ProjectOwnerDashboard.SubmissionStats | src/pages/dashboard/ProjectOwnerDashboard.tsx:47-49 | a submission adds one project and one pending project, and nothing to credits or revenue |
| ProjectOwnerDashboard.FreshSubmissionAppends | src/pages/dashboard/ProjectOwnerDashboard.tsx:92 | with a fresh id, the project is appended to the store and to the owner's re-read projects |
| ProjectOwnerDashboard.SubmissionNotifications | src/pages/dashboard/ProjectOwnerDashboard.tsx:95-110 | two unread info notifications: the admin's at the head, then the owner's |
| ProjectOwnerDashboard.OwnerPage.constructor | src/pages/dashboard/ProjectOwnerDashboard.tsx:36-61 | an owner gets their projects, the statistics and their five newest notifications; anyone else gets the empty state |
| ProjectOwnerDashboard.OwnerPage.SetText | src/pages/dashboard/ProjectOwnerDashboard.tsx:252-286 | only the text fields of the form change |
| ProjectOwnerDashboard.OwnerPage.SetSaplings | src/pages/dashboard/ProjectOwnerDashboard.tsx:298 | only the saplings field changes |
| ProjectOwnerDashboard.OwnerPage.HandleSubmitProject | src/pages/dashboard/ProjectOwnerDashboard.tsx:63-126 | no user or a missing field writes nothing; otherwise the project is saved once, two notifications are added, the project is appended to the page list and the form is reset, and the statistics stay as they were |
| ProjectOwnerDashboard.OwnerPage.RecordSubmission | src/pages/dashboard/ProjectOwnerDashboard.tsx:92-110 | the project upsert, then the owner's and then the admin's notification |
| SignIn.NewUser | src/pages/SignIn.tsx:51-59 | the account carries the form's name, e-mail, wallet, role and password |
| SignIn.HandleSubmit | src/pages/SignIn.tsx:27-95 | a missing required field or a mismatched confirmation writes nothing; otherwise the user is upserted, becomes the current user, and the role picks the route |
| SignIn.DuplicateEmailAppends | src/pages/SignIn.tsx:51-61 | with a fresh id the account is appended even when its e-mail is already taken |
| Login.FindUser | src/pages/Login.tsx:37-38 | the first stored user whose e-mail and password both match, or none when no user matches |
| Login.HandleSubmit | src/pages/Login.tsx:22-72 | an empty field or no match leaves the current user unchanged; a match becomes the current user and its role picks the route |
| Login.LoginAfterSignUp | src/pages/Login.tsx:37-49 | right after a sign-up with a fresh id, login finds the new account unless an older account has the same credentials |

## Left out

- The browser `localStorage` API and JSON (de)serialisation: each key is a typed field, so parse and quota errors do not arise.
- `try`/`catch` around the handlers: nothing in the modelled writes can throw.
- Toasts, dialogs, `navigate` calls, `isLoading` flags and JSX rendering: there is no state in them that the store or the handlers read.
- `Date.now()` ids and `new Date()` timestamps: these are handler parameters. Their uniqueness is not assumed, and the calls to `new Date()` within one handler share one value.
- The verifier's `thisMonth` statistic: it depends on the current month.
- Project images and `getProjectImage`: presentation only.
- `toLocaleString` digit grouping in the purchase messages: amounts are rendered as plain decimals.
- Text.ToLower: folds ASCII letters only, not Unicode's full case mapping.
- Text.ParseNumber: accepts only digit strings (with "" as 0). JavaScript `Number` also takes signs, whitespace, decimals and exponents. The price ranges the page offers are digit pairs.
- Marketplace.MarketplacePage.SetPurchaseAmount and ProjectOwnerDashboard.OwnerPage.SetSaplings: take the result of `parseInt` as an argument rather than parsing the input text.
- Marketplace.MarketplacePage.HandlePurchase: the buyer's solvency after a sale is stated only when the balance the page shows is the stored one and the buyer does not own the project. The page's balance is a copy read at mount and after each debit, and on a self-purchase the owner's credit lands after the re-read, so the shown balance is then stale.
- Credits, prices and balances are unbounded integers, not floating-point numbers. The demo data and every value the pages compute are integral.
- `getAnalyticsData`/`updateAnalytics`: fixed data with no logic.
- The start-up wipe of storage in src/main.tsx and src/utils/clearLocalStorage.ts: module-load side effects.
- The pages outside the marketplace, the two dashboards and the sign-up and login forms are not part of this model. They write the store only through operations modelled here:
  - Profile's edit form (src/pages/Profile.tsx:86-87) saves the edited user and makes it the current user (`LocalStore.Store.SaveUser`, then `LocalStore.Store.SetCurrentUser`).
  - Navbar's logout (src/components/Navbar.tsx:34) removes the session key (`SetCurrentUser(None)`).
  - App's start-up effect (src/App.tsx:29) seeds the demo data (`LocalStore.Store.InitializeDemoData`).
  - AdminDashboard, BuyerDashboard, Profile and Navbar otherwise only read the store. Footer, Index, About and Help are display only.
- The role union: a role is kept as the string the form supplied, as the source casts it unchecked. A status is a three-valued datatype, so the three counts always partition the list.
