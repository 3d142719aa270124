# Freelancer dashboard — verified model of its view logic

This project models, in Dafny, the logic inside a mock admin dashboard for
managing freelancers. Most of that dashboard only draws screens; the model
covers the five pieces that compute something:

- **Freelancer list** (`FreelancersList.dfy`, module `FreelancersList`).
  - A case-insensitive search over names and skills, a skill filter and an
    availability filter; `"all"` in either filter accepts everything.
  - Pages of five rows, the "Showing X to Y of N" line, and the
    de-duplicated skill list of the drop-down.
  - The component state (`FreelancersView`): the three inputs and the
    current page.
- **Project list** (`ProjectsList.dfy`, module `ProjectsList`).
  - A name search combined with an exact, case-sensitive status filter.
  - The capitalised status badge.
  - The avatar row: at most three avatars, then "+k".
- **Approval queue** (`ApprovalsQueue.dfy`, module `ApprovalsQueue`).
  - Approve and reject replace the `status` of the items with a given id.
  - The "All" and per-type tabs list the pending items.
  - `formatAmount` chooses an hours label, a dollar label or none.
  - The component state (`ApprovalsQueueView`): the list, the selected item
    and the details dialog.
- **Session store** (`AuthContext.dfy`, module `Session`).
  - `AuthProvider` holds the user, the loading flag and the error, and keeps
    the user under the storage key `"user"`.
  - Operations: login, register, a shallow-merge profile update, logout,
    and the restore step at start-up.
  - `isAuthenticated` is `AuthProvider.IsAuthenticated`, which holds exactly
    when there is a user.
- **Profile editor** (`FreelancerProfile.dfy`, module `Profile`).
  - The form's defaults taken from the user, and the schema's length and
    number bounds.
  - The local skills list with its add and remove buttons.
  - The update sent on submit.

Shared modules:

- `Strings`: ASCII lower- and upper-casing, `includes`, capitalisation.
- `Seqs`: `filter`, `slice` (including its negative-index rules),
  `flatMap` and `Array.from(new Set(...))`.
- `Wrappers`: an `Option` type, standing for an optional field or `null`.

## Modelling notes

- Types:
  - String-valued unions (availability, project status, submission type,
    approval status, role) are datatypes.
  - Functions such as `StatusName` give back the strings the code compares.
  - Ratings, approval amounts and the form's hourly rate are `real`.
  - A freelancer's `hourlyRate` and a project's `budget` and
    `budgetUtilization` are `int`, as in the data.
  - No rounding is modelled.
- Users:
  - A user and a `Partial<User>` are both a `map<Field, Value>`.
  - A shallow spread `{ ...a, ...b }` is map union `a + b`.
- `localStorage` is a `Storage` object holding a map from key to record.
  Writing a record and reading it back through `JSON.stringify` and
  `JSON.parse` is taken to give the same record.
- `Date.now()` becomes a `stamp` parameter; the generated id is
  `"user-" + stamp`.
- `async`/`await` is dropped, because nothing suspends. Each operation's
  contract describes the state once it has finished.
- The mount effect of `AuthProvider` is a separate `Restore` method. It is
  called after the constructor, which leaves `isLoading` true.
- `Session.Reload` states the persistence round trip: a fresh provider on the
  same storage, once restored, has the user that the last write left behind.

## Model

| member | source | states |
|---|---|---|
| Strings.ToLower | src/components/dashboard/FreelancersList.tsx:128-129 | lower-casing keeps the length and maps each character on its own: ASCII capitals become small letters and everything else stays |
| Strings.ToLowerIdempotent | src/components/dashboard/FreelancersList.tsx:133-137 | lower-casing an already lower-cased value (the skill options' values) changes nothing |
| Strings.ContainsEmpty | src/components/dashboard/ProjectsList.tsx:182-184 | the empty query occurs in every name |
| Strings.ContainsToLower | src/components/dashboard/FreelancersList.tsx:127-131 | a substring stays a substring once both sides are lower-cased |
| Strings.ContainsTransitive | src/components/dashboard/FreelancersList.tsx:127-131 | "occurs in" is transitive |
| Strings.Capitalize | src/components/dashboard/ProjectsList.tsx:264-265 | the result has the same length, an upper-cased first character and an unchanged rest |
| Strings.CapitalizeSameIgnoringCase | src/components/dashboard/ProjectsList.tsx:264-265 | the capitalised text equals the original once lower-cased |
| Seqs.Filter | src/components/dashboard/FreelancersList.tsx:126 | a filtered list is never longer than the list |
| Seqs.FilterMembers | src/components/dashboard/FreelancersList.tsx:126-145 | an element is in the result iff it is in the list and passes the predicate |
| Seqs.FilterMultiplicity | src/components/dashboard/FreelancersList.tsx:126-145 | a passing element occurs as often as in the list; a failing one does not occur |
| Seqs.FilterIsSubsequence | src/components/dashboard/FreelancersList.tsx:126-145 | the result keeps the list's order: it is a subsequence |
| Seqs.FilterNoDuplicates | src/components/auth/FreelancerProfile.tsx:118-120 | filtering a list without duplicates gives a list without duplicates |
| Seqs.FilterKeepsAll | src/components/dashboard/FreelancersList.tsx:127-142 | when every element passes, the result is the list itself |
| Seqs.FilterAppend | src/components/auth/FreelancerProfile.tsx:111-120 | filtering distributes over concatenation |
| Seqs.FilterMonotone | src/components/dashboard/FreelancersList.tsx:127-131 | a stronger predicate keeps a subsequence of what a weaker one keeps, and no more elements |
| Seqs.FilterPartition4 | src/components/dashboard/ProjectsList.tsx:181-188 | when each element passes exactly one of four predicates, the four results split the list, by length and by multiset |
| Seqs.Flatten | src/components/dashboard/FreelancersList.tsx:156 | `flatMap`: a value is in the result iff it is in one of the inner lists |
| Seqs.Distinct | src/components/dashboard/FreelancersList.tsx:155-157 | `Array.from(new Set(s))`: no duplicates, the same values as `s`, and a subsequence of `s` |
| Seqs.SliceIndex | src/components/dashboard/FreelancersList.tsx:149-152 | `slice` reads an in-range index as is, clamps a large one to the length, counts a negative one from the end, and clamps a very negative one to 0 |
| Seqs.Slice | src/components/dashboard/FreelancersList.tsx:149-152 | on in-range bounds, `slice` is the subsequence between them, and it is never longer than the list |
| FreelancersList.FilterFreelancers | src/components/dashboard/FreelancersList.tsx:126-145 | the filtered list is a subsequence of the list; a freelancer is kept iff the search, the skill filter and the availability filter all hold; each kept freelancer occurs exactly as often as in the list |
| FreelancersList.NoCriteriaKeepsAll | src/components/dashboard/FreelancersList.tsx:127-142 | an empty query with both filters on "all" returns the whole list |
| FreelancersList.SearchNarrowing | src/components/dashboard/FreelancersList.tsx:127-131 | a freelancer matched by a query is matched by every substring of it |
| FreelancersList.FilterNarrowing | src/components/dashboard/FreelancersList.tsx:127-131 | the result for a longer query that contains a shorter one is a subsequence of the shorter one's result, and no longer |
| FreelancersList.AvailabilityOptionExact | src/components/dashboard/FreelancersList.tsx:139-141 | choosing an availability option keeps a freelancer iff it has that availability |
| FreelancersList.TotalPages | src/components/dashboard/FreelancersList.tsx:148 | `ceil(n / 5)`: the smallest page count whose pages hold n rows |
| FreelancersList.Page | src/components/dashboard/FreelancersList.tsx:149-152 | page p is the block of rows `[(p-1)*5, p*5)` clipped to the list, so at most 5 rows |
| FreelancersList.PageBeyondLastIsEmpty | src/components/dashboard/FreelancersList.tsx:147-152 | a page past the last is empty, and its "Showing" range runs backwards |
| FreelancersList.ExistingPageHasRows | src/components/dashboard/FreelancersList.tsx:147-152 | page 1, or any page up to the last, of a non-empty list has rows |
| FreelancersList.PagesUpToIsPrefix | src/components/dashboard/FreelancersList.tsx:149-152 | pages 1 to k laid end to end are the first `min(5k, n)` rows |
| FreelancersList.PagesPartitionList | src/components/dashboard/FreelancersList.tsx:147-152 | pages 1 to `totalPages`, concatenated, are exactly the filtered list |
| FreelancersList.ShowingFrom | src/components/dashboard/FreelancersList.tsx:362 | the first row number is the 1-based start of a block of five, at least 1 on pages from 1 on |
| FreelancersList.ShowingTo | src/components/dashboard/FreelancersList.tsx:363-366 | the last row number is the smaller of the page's block end and the row count |
| FreelancersList.ShowingRangeMatchesPage | src/components/dashboard/FreelancersList.tsx:362-367 | on an existing page, `1 <= from <= to <= n`, and rows from..to are exactly the rows of that page |
| FreelancersList.SkillOptionSelects | src/components/dashboard/FreelancersList.tsx:133-137 | choosing a skill option (the lower-cased skill) keeps exactly the freelancers with that skill ignoring case, provided the skill does not read "all" ignoring case |
| FreelancersList.AllSkills | src/components/dashboard/FreelancersList.tsx:155-157 | the skill options have no duplicates and are exactly the skills some freelancer has |
| FreelancersList.FreelancersView.Filtered | src/components/dashboard/FreelancersList.tsx:126-145 | the current filtered list is a subsequence of the freelancers and holds exactly those passing the current search and filters |
| FreelancersList.FreelancersView.PageCount | src/components/dashboard/FreelancersList.tsx:148 | the page count is the ceiling of the filtered count over five |
| FreelancersList.FreelancersView.Visible | src/components/dashboard/FreelancersList.tsx:149-152 | on a page from 1 on, the table shows at most five rows: the filtered rows of that page's block |
| FreelancersList.FreelancersView.SkillOptions | src/components/dashboard/FreelancersList.tsx:155-157 | the skill drop-down lists each skill some freelancer has, once |
| FreelancersList.FreelancersView.constructor | src/components/dashboard/FreelancersList.tsx:52-56 | empty search, both filters "all", page 1; the filtered list is the whole list |
| FreelancersList.FreelancersView.SetSearchQuery | src/components/dashboard/FreelancersList.tsx:215 | replaces the query; the filters and the page are unchanged |
| FreelancersList.FreelancersView.SetSkillFilter | src/components/dashboard/FreelancersList.tsx:220 | replaces the skill filter; the other inputs and the page are unchanged |
| FreelancersList.FreelancersView.SetAvailabilityFilter | src/components/dashboard/FreelancersList.tsx:234-237 | replaces the availability filter; the other inputs and the page are unchanged |
| FreelancersList.FreelancersView.HandlePageChange | src/components/dashboard/FreelancersList.tsx:160-162 | sets the page; the inputs are unchanged |
| FreelancersList.FreelancersView.PreviousPage | src/components/dashboard/FreelancersList.tsx:370-375 | goes back one page when the bar is shown and the page is not 1, and otherwise stays |
| FreelancersList.FreelancersView.NextPage | src/components/dashboard/FreelancersList.tsx:390-395 | goes forward one page when the bar is shown and the page is not the last, and otherwise stays |
| FreelancersList.FreelancersView.SetSearchQueryFromFirstPage | src/components/dashboard/FreelancersList.tsx:215 | corrected search box: it returns to page 1, so a non-empty result always shows rows |
| FreelancersList.StalePageAfterSearch | src/components/dashboard/FreelancersList.tsx:147-152 | as written: from page 2, a query that leaves 1 to 5 matches shows an empty table with a single page (no page bar) |
| FreelancersList.SearchFromFirstPage | src/components/dashboard/FreelancersList.tsx:147-152 | with the page reset, the same search from page 2 shows the matching rows |
| ProjectsList.FilterProjects | src/components/dashboard/ProjectsList.tsx:181-188 | the result is a subsequence of the projects; a project is kept iff its lower-cased name contains the lower-cased query and the status filter is "all" or equal to its status; each kept project occurs exactly as often as in the list |
| ProjectsList.NoCriteriaKeepsAll | src/components/dashboard/ProjectsList.tsx:182-186 | an empty query with "all" returns every project |
| ProjectsList.FilterNarrowing | src/components/dashboard/ProjectsList.tsx:182-184 | a longer query containing a shorter one keeps a subsequence of the shorter one's result, and no more projects |
| ProjectsList.StatusOptionSelects | src/components/dashboard/ProjectsList.tsx:186 | with an empty query, a status option keeps a project iff the project has that status |
| ProjectsList.StatusOptionsPartition | src/components/dashboard/ProjectsList.tsx:181-188 | the four status options together list every project exactly once |
| ProjectsList.ShownAvatars | src/components/dashboard/ProjectsList.tsx:280-282 | `min(3, n)` avatars are drawn: the first ones, in order |
| ProjectsList.AvatarsAccountForAll | src/components/dashboard/ProjectsList.tsx:280-301 | "+k" appears iff n > 3, with k >= 1, and drawn avatars plus k equal n |
| ProjectsList.OverflowCount | src/components/dashboard/ProjectsList.tsx:297-300 | no "+k" badge when every avatar is drawn; otherwise k is at least 1 and the drawn avatars plus k make up the whole team |
| ProjectsList.StatusLabel | src/components/dashboard/ProjectsList.tsx:264-265 | the badge text equals the status ignoring case, starts with a non-lower-case letter, and keeps the rest |
| ProjectsList.StatusLabels | src/components/dashboard/ProjectsList.tsx:264-265 | the four badges read "Active", "Completed", "On-hold" and "Cancelled" |
| ApprovalsQueue.SetStatusById | src/components/dashboard/ApprovalsQueue.tsx:102-108 | length and order are kept; items with the id get the new status with every other field kept; all other items are unchanged |
| ApprovalsQueue.SetStatusLastWins | src/components/dashboard/ApprovalsQueue.tsx:102-116 | the current status is not checked: a second decision on the same id overrides the first, and repeating one is idempotent |
| ApprovalsQueue.SetStatusUnknownId | src/components/dashboard/ApprovalsQueue.tsx:361 | an id no item has, such as the "" fallback, leaves the list unchanged |
| ApprovalsQueue.AllPending | src/components/dashboard/ApprovalsQueue.tsx:226 | the "All" tab lists exactly the pending items, in their original order, each as often as in the list |
| ApprovalsQueue.TypeTab | src/components/dashboard/ApprovalsQueue.tsx:127-136 | each type tab lists exactly the pending items of that type, in their original order, each as often as in the list |
| ApprovalsQueue.AllCountIsSumOfTabs | src/components/dashboard/ApprovalsQueue.tsx:127-136 | the "All" count is the sum of the three type-tab counts |
| ApprovalsQueue.DecidedItemLeavesPending | src/components/dashboard/ApprovalsQueue.tsx:102-118 | after approving or rejecting an id, no item with it remains in the "All" tab |
| ApprovalsQueue.DecidingUniquePendingDecrementsCount | src/components/dashboard/ApprovalsQueue.tsx:102-108 | deciding a pending item whose id is unique lowers the "All" count by exactly one |
| ApprovalsQueue.FormatAmount | src/components/dashboard/ApprovalsQueue.tsx:153-160 | an hours label iff a time item has a truthy amount; a dollar label iff an expense item does; no label otherwise (deliverables, missing or zero amounts); the label carries the amount |
| ApprovalsQueue.PendingFilterDecrements | src/components/dashboard/ApprovalsQueue.tsx:102-108 | the induction behind the count lemma: deciding a unique pending item removes exactly one item from the pending filter |
| ApprovalsQueue.ApprovalsQueueView.PendingCount | src/components/dashboard/ApprovalsQueue.tsx:226 | the "All" count equals the sum of the three type-tab counts |
| ApprovalsQueue.ApprovalsQueueView.SelectedId | src/components/dashboard/ApprovalsQueue.tsx:361-371 | the selected item's id when there is one and it is non-empty; otherwise "" |
| ApprovalsQueue.ApprovalsQueueView.constructor | src/components/dashboard/ApprovalsQueue.tsx:39-98 | starts with the given list, nothing selected and the dialog closed |
| ApprovalsQueue.ApprovalsQueueView.HandleApprove | src/components/dashboard/ApprovalsQueue.tsx:102-108 | the list becomes the list with that id approved; selection and dialog are unchanged |
| ApprovalsQueue.ApprovalsQueueView.HandleReject | src/components/dashboard/ApprovalsQueue.tsx:111-118 | the list becomes the list with that id rejected, and the dialog closes |
| ApprovalsQueue.ApprovalsQueueView.ViewDetails | src/components/dashboard/ApprovalsQueue.tsx:121-124 | selects the item and opens the dialog; the list is unchanged |
| ApprovalsQueue.ApprovalsQueueView.RejectSelected | src/components/dashboard/ApprovalsQueue.tsx:358-368 | rejects the selected id (or "" when none) and closes the dialog |
| ApprovalsQueue.ApprovalsQueueView.ApproveSelected | src/components/dashboard/ApprovalsQueue.tsx:369-379 | approves the selected id (or "" when none) and closes the dialog |
| ApprovalsQueue.ApprovalsQueueView.CloseDetails | src/components/dashboard/ApprovalsQueue.tsx:355 | closes the dialog and changes nothing else |
| Session.LocalPart | src/contexts/AuthContext.tsx:83 | `email.split("@")[0]`: a prefix of the email without "@" that is the whole email or stops at an "@" |
| Session.LocalPartUnique | src/contexts/AuthContext.tsx:83 | those three properties determine the local part: any string that has them is it |
| Session.MockUser | src/contexts/AuthContext.tsx:80-85 | a complete user with exactly id `"user-" + stamp`, email, name and role |
| Session.TextOr | src/contexts/AuthContext.tsx:110-111 | the or-operator with a text default: a present, non-empty text value is the result; otherwise (missing, not text, or "") the result is the fallback |
| Session.LoginUser | src/contexts/AuthContext.tsx:80-85 | login's user has exactly four fields: the id "user-" followed by the time stamp, the given email and role, and as name the text before the first "@" |
| Session.RegisteredUser | src/contexts/AuthContext.tsx:108-113 | register keeps only id, email, name and role; email and name come from the data, else ""; other supplied fields are dropped |
| Session.Merge | src/contexts/AuthContext.tsx:138 | `{ ...user, ...data }`: the update's fields win, all other fields are kept, and no field is lost |
| Session.MergeKeepsUser | src/contexts/AuthContext.tsx:138 | a well-typed update of a complete user is a complete user |
| Session.MergeIdempotent | src/contexts/AuthContext.tsx:138 | applying the same update twice equals applying it once |
| Session.MergeSequential | src/contexts/AuthContext.tsx:131-148 | two updates in a row equal one update with the second's fields winning |
| Session.Storage.GetItem | src/contexts/AuthContext.tsx:67 | returns the stored record iff the key is present |
| Session.Storage.SetItem | src/contexts/AuthContext.tsx:88 | stores the record under the key and leaves the other keys alone |
| Session.Storage.RemoveItem | src/contexts/AuthContext.tsx:127 | removes the key and leaves the other keys alone |
| Session.AuthProvider.constructor | src/contexts/AuthContext.tsx:61-63 | no user, loading, no error |
| Session.AuthProvider.Restore | src/contexts/AuthContext.tsx:65-72 | a stored user becomes current, otherwise the user is kept; loading ends; memory and storage agree afterwards |
| Session.AuthProvider.IsAuthenticated | src/contexts/AuthContext.tsx:152 | authenticated iff a user is set |
| Session.AuthProvider.Login | src/contexts/AuthContext.tsx:74-96 | the user becomes login's user for that email and role, whatever the password; it is stored; the error is cleared; loading ends |
| Session.AuthProvider.Register | src/contexts/AuthContext.tsx:98-124 | the user becomes register's user; it is stored; the error is cleared; loading ends |
| Session.AuthProvider.UpdateProfile | src/contexts/AuthContext.tsx:131-148 | logged out: neither the user nor storage changes; logged in: the merged user is stored and becomes current; either way the error is cleared and loading ends |
| Session.AuthProvider.Logout | src/contexts/AuthContext.tsx:126-129 | removes the stored user and clears the user, whatever the prior state; afterwards not authenticated |
| Session.Reload | src/contexts/AuthContext.tsx:65-72 | a fresh provider restored from the same storage has the same user as one whose memory and storage agree |
| Profile.DefaultValues | src/components/auth/FreelancerProfile.tsx:86-94 | each form field comes from the user when the user supplies a truthy value of the right type, else from its fallback ("" , 0 or "Available") |
| Profile.SatisfiesSchema | src/components/auth/FreelancerProfile.tsx:40-46 | a form the schema accepts has a name of at least 2 characters and a rate of at least 1, hence a truthy name and rate |
| Profile.SavedFormReloads | src/components/auth/FreelancerProfile.tsx:80-94 | after a save, the defaults rebuilt from the saved user give back every truthy form value, and the initial skills give back the saved skills |
| Profile.DefaultsValidIff | src/components/auth/FreelancerProfile.tsx:40-46 | the default form passes the schema iff the user's name has at least 2 characters, the bio at most 500, and the rate is at least 1 |
| Profile.Payload | src/components/auth/FreelancerProfile.tsx:99-102 | the update holds every form field plus `skills`, replaced wholesale by the local list, and is well typed |
| Profile.SubmitDefaultsKeepsUser | src/components/auth/FreelancerProfile.tsx:97-102 | saving the untouched defaults keeps every supplied form field and every field outside the form, and replaces the skills |
| Profile.WithSkill | src/components/auth/FreelancerProfile.tsx:111-116 | a non-empty new skill is appended at the end; an empty or already listed one leaves the list unchanged; the list stays free of duplicates |
| Profile.RemoveAll | src/components/auth/FreelancerProfile.tsx:118-120 | every copy of the skill goes, every other skill keeps its number of copies and its order, and no duplicates appear |
| Profile.AddThenRemoveRestores | src/components/auth/FreelancerProfile.tsx:111-120 | adding a skill that was not there and then removing it restores the list |
| Profile.RemoveIdempotent | src/components/auth/FreelancerProfile.tsx:118-120 | removing a skill twice equals removing it once |
| Profile.InitialSkills | src/components/auth/FreelancerProfile.tsx:80 | the user's skills list when it has one, even an empty one; [] only when there is no such list |
| Profile.ProfileEditor.constructor | src/components/auth/FreelancerProfile.tsx:79-82 | skills come from the user's list (or []), empty input, not editing, no banner |
| Profile.ProfileEditor.SetNewSkill | src/components/auth/FreelancerProfile.tsx:381 | sets the pending skill and nothing else |
| Profile.ProfileEditor.AddSkill | src/components/auth/FreelancerProfile.tsx:111-116 | appends a non-empty new skill and clears the input; otherwise changes nothing; keeps the list free of duplicates |
| Profile.ProfileEditor.RemoveSkill | src/components/auth/FreelancerProfile.tsx:118-120 | removes every copy of the skill, keeps the order, and keeps the list free of duplicates |
| Profile.ProfileEditor.OnSubmit | src/components/auth/FreelancerProfile.tsx:97-109 | the session user becomes the user merged with the form values and the local skills, and that user is what is stored under "user" (no change to user or storage when logged out); edit mode ends; the banner shows |
| Profile.ProfileEditor.StartEditing | src/components/auth/FreelancerProfile.tsx:135 | the "Edit Profile" button enters edit mode and changes nothing else |
| Profile.ProfileEditor.CancelEditing | src/components/auth/FreelancerProfile.tsx:139 | the "Cancel" button leaves edit mode and changes nothing else |
| Profile.ProfileEditor.HideSuccessBanner | src/components/auth/FreelancerProfile.tsx:105 | hides the banner and changes nothing else |

## Left out

- Everything drawn on screen: JSX, styling, icons, badges, dialogs and
  toasts.
- Other files: `src/components/home.tsx` and `src/App.tsx` (layout and
  routes), and `src/components/dashboard/DashboardMetrics.tsx` (static
  numbers).
- The browser:
  - `localStorage` and JSON encoding become a map;
  - `Date.now()` becomes a parameter;
  - `async`/`await` is gone, so the intermediate `isLoading = true` state
    between an operation's start and end cannot be seen.
- The `catch` branches of login, register, updateProfile and onSubmit: no
  modelled step can throw, so their error strings are never set.
- Number formatting:
  - `toFixed(2)`, `toLocaleDateString` and `Intl.NumberFormat`;
  - ratings and amounts as floating point, and NaN truthiness.
- ApprovalsQueue.FormatAmount: chooses which label is shown and carries the
  amount, but does not build the label text.
- Profile.SatisfiesSchema:
  - lengths are counted in characters, not in the UTF-16 code units that
    zod's `min` and `max` count;
  - the e-mail format check of the schema is not modelled;
  - nor is `z.coerce.number`, which turns the typed text into a number.
- Profile.FormValues: phone and location are always strings. The form
  starts them at "", so the schema's "absent" case does not arise, and an
  explicit `undefined` inside an update is not modelled.
- Outside the session store's concern:
  - the profile page's redirect to the login page when nobody is logged in;
  - `navigate`, `alert` and `console`.
- The `rejectionReason` state of the approval queue: it is declared but
  never set or read.
- Strings.ToLower: only ASCII letters change case; Unicode case mapping is
  not modelled.
- The mock data arrays, other than their shape.

## Findings

| source | as written | input that shows it | evidently intended | confidence | as-written member | corrected member |
|---|---|---|---|---|---|---|
| src/components/dashboard/FreelancersList.tsx:147-152 | changing the search (or either filter) keeps `currentPage`; nothing clamps it to `totalPages` | 7 freelancers, go to page 2, type a query matching 3: `slice(5, 10)` of 3 rows is empty, "No freelancers found" shows, and with one page left the page bar is hidden, so page 1 cannot be reached | return to page 1 when the search changes, so that matching rows are always shown | medium, not executed | FreelancersList.StalePageAfterSearch | FreelancersList.FreelancersView.SetSearchQueryFromFirstPage |
