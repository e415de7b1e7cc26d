# WorkBridge task store and dashboard, modelled in Dafny

WorkBridge is a small marketplace. Clients post tasks, workers bid on them,
and each user's dashboard shows figures derived from the store. This project
models two parts of it:

- **The in-memory task store** (`src/data/mockData.ts`). It holds the
  sample `USERS` and `TASKS` arrays and offers these queries:
  - `getFilteredTasks`: filter by category, search term and status;
  - `getTaskWithClient`: find a task and join it with its client;
  - `getTaskWithBids`: find a task and join each bid with its worker;
  - `createBid`: build a new pending bid.
- **The values the dashboard page computes** from the store for the
  signed-in user (`src/pages/Dashboard.tsx`):
  - the role's task list;
  - the client's "Active Tasks" and "Total Bids" figures;
  - the worker's own bid on a task and its badge;
  - the avatar initials.

Everything here is pure, so it is written as datatypes, functions and
lemmas. The global arrays become `seq` parameters. The JavaScript array and
string built-ins the code uses are modelled in their own modules:

| module | what it models |
|---|---|
| `JsArray` | `filter`, `find`, `some`, `map` and `reduce` |
| `JsString` | ASCII `toLowerCase`/`toUpperCase`, `includes`, one-character `split`/`join`, decimal rendering of a number |

The other modules:

| module | contents |
|---|---|
| `Wrappers` | `Option` |
| `Types` | the entities: user, task, bid and the joined records |
| `MockData` | the store's queries and `createBid` |
| `Dashboard` | the page's derived values |
| `SampleData` | the sample arrays as constants, and facts about them |

How JavaScript behaviour is modelled:

- **Truthiness.** A criterion counts only when it is present and not the
  empty string. That is the code's `if (filters.category && …)`.
- **`includes`.** It is proved equivalent to "is a contiguous substring".
- **`split(' ')`.** It always yields one part more than there are spaces,
  empty parts included.
- **`join('')`.** It renders the `undefined` of an empty part's `part[0]`
  as nothing.
- **`createBid`'s clock reads.** `Date.now()` and
  `new Date().toISOString()` are two separate reads, so they are two
  parameters. The id is `"bid-"` followed by the decimal digits of the
  millisecond count.

## Model

| member | source | states |
|---|---|---|
| MockData.FindTask | src/data/mockData.ts:307 | `TASKS.find` by id is absent exactly when no task has the id, and otherwise is the first task with it |
| MockData.FindUser | src/data/mockData.ts:310 | `USERS.find` by id is absent exactly when no user has the id, and otherwise is the first user with it |
| MockData.GetTaskWithClient | src/data/mockData.ts:306-315 | null exactly when no task has the id; otherwise the first task with that id, unchanged, plus the first user whose id is its `clientId`, or no client when there is none |
| MockData.GetTaskWithBids | src/data/mockData.ts:318-334 | null exactly when no task has the id; otherwise the first such task with every field but `bids` unchanged, the bids the same number and order, each bid unchanged and joined to the first user with its `workerId` (or none) |
| MockData.GetFilteredTasks | src/data/mockData.ts:342-364 | the result is no longer than the store and holds only tasks of the store |
| MockData.PassesFiltersMeaning | src/data/mockData.ts:342-364 | the three early returns accept a task exactly when each criterion is absent or empty, or is met; search is met when the lower-cased term is a substring of the lower-cased title or description |
| MockData.FilteredTasksMembership | src/data/mockData.ts:344-363 | a task is in the result if and only if it is in the store and meets the category, search and status criteria |
| MockData.FilteredTasksSelection | src/data/mockData.ts:342-364 | the result is the subsequence of the store's matching tasks: increasing positions, nothing added or reordered, every matching task kept as often as the store holds it |
| MockData.NoCriteriaKeepsAll | src/data/mockData.ts:344-359 | with no effective criterion the whole store is returned, in order |
| MockData.Effective | src/data/mockData.ts:344-359 | a criterion is dropped exactly when it is absent or empty, and a present non-empty criterion is kept unchanged |
| MockData.EmptyCriterionIsAbsent | src/data/mockData.ts:344-359 | an empty-string criterion gives the same result as an absent one |
| MockData.SearchIsCaseInsensitive | src/data/mockData.ts:350-352 | two search terms with the same lower case select the same tasks |
| MockData.CriteriaCompose | src/data/mockData.ts:342-364 | filtering by all criteria at once equals filtering by category, then search, then status |
| MockData.FilteringCommutes | src/data/mockData.ts:342-364 | two successive filterings give the same result in either order |
| MockData.FilteringIsIdempotent | src/data/mockData.ts:342-364 | filtering a result again by the same criteria changes nothing |
| MockData.CriteriaIntersect | src/data/mockData.ts:342-364 | the combined result's members are those in all three single-criterion results |
| MockData.CreateBid | src/data/mockData.ts:368-378 | the new bid carries the given task, worker, amount and message, is pending, is stamped with the clock's ISO time, and has id `bid-` plus the millisecond count; nothing is validated and the store is not touched |
| MockData.CreateBidIdsCollideOnlyInSameTick | src/data/mockData.ts:370 | two created bids share an id exactly when they were created in the same millisecond, so ids are not unique in general |
| JsString.IncludesIsSubstring | src/data/mockData.ts:351-352 | `includes` holds exactly when the needle occurs contiguously in the haystack |
| JsString.Split | src/pages/Dashboard.tsx:41 | `split` yields one part more than there are separators, and no part contains the separator |
| JsString.JoinSplit | src/pages/Dashboard.tsx:41 | joining the parts of a split restores the string |
| JsString.SplitJoin | src/pages/Dashboard.tsx:41 | splitting a join of separator-free parts gives the parts back |
| JsString.NumberToStringInjective | src/data/mockData.ts:370 | different millisecond counts render as different digit strings |
| Dashboard.MyTasks | src/pages/Dashboard.tsx:32-38 | a client's list holds exactly the store's tasks with that `clientId`; any other role's list (admin included) holds exactly the tasks with at least one bid by the user |
| Dashboard.MyTasksSelection | src/pages/Dashboard.tsx:32-38 | the list is the store's subsequence of the user's tasks, in store order, each as often as the store holds it |
| Dashboard.ActiveTaskCount | src/pages/Dashboard.tsx:81 | the figure is the number of positions of the list holding an open task; so it is at most the list's length, zero exactly when no task is open and the full length exactly when all are |
| JsArray.FilterLengthCounts | src/pages/Dashboard.tsx:81 | the length of a `filter` result is the number of positions whose element passes |
| Dashboard.TotalBids | src/pages/Dashboard.tsx:99-100 | the reduce equals the number of bids over all the tasks together, and is zero for an empty list |
| Dashboard.TotalBidsAdds | src/pages/Dashboard.tsx:100 | the total over two concatenated lists is the sum of their totals |
| Dashboard.NoBidsMeansZero | src/pages/Dashboard.tsx:99-100 | the total is zero exactly when no task in the list has a bid |
| Dashboard.UserBid | src/pages/Dashboard.tsx:271-273 | null for every role but worker; for a worker, present exactly when the user has bid on the task, and then the first such bid |
| Dashboard.WorkerSeesOwnBid | src/pages/Dashboard.tsx:271-273 | every task on a worker's own list shows a bid by that worker |
| Dashboard.BidBadge | src/pages/Dashboard.tsx:284-292 | "Won" exactly for accepted, "Not Selected" exactly for rejected, "Pending" otherwise; success exactly with "Won", destructive exactly with "Not Selected" |
| Dashboard.BadgeDistinguishesStatuses | src/pages/Dashboard.tsx:284-292 | different statuses show different labels, and equal labels come with equal variants |
| Dashboard.NewBidShowsPending | src/pages/Dashboard.tsx:284-292 | a bid fresh from `createBid` shows the "Pending" default badge |
| Dashboard.GetInitials | src/pages/Dashboard.tsx:40-45 | at most one character per space-separated part; exactly one per non-empty part, in order, each that part's upper-cased first character |
| Dashboard.InitialsOfFullName | src/pages/Dashboard.tsx:40-45 | a first and last name give their two upper-cased first letters |
| Dashboard.InitialsSkipEmptyParts | src/pages/Dashboard.tsx:40-45 | a doubled space adds an empty part, which adds no letter |
| SampleData.SampleIdsAreConsistent | src/data/mockData.ts:39-303 | the sample users have distinct ids, the sample tasks have distinct ids, and every bid's `taskId` names the task that holds it |
| SampleData.SampleReferencesResolve | src/data/mockData.ts:39-303 | every sample task's client is a user with the client role, and every bid's worker is a user with the worker role |
| SampleData.SampleTaskWithClient | src/data/mockData.ts:306-315 | `task-1` joins with user `user-1`; an unknown id gives null |
| SampleData.SampleTaskWithBids | src/data/mockData.ts:318-334 | `task-1`'s one bid joins with `user-3` |
| SampleData.SampleFilterByCategory | src/data/mockData.ts:342-364 | filtering the sample by "Home Services" gives tasks 1, 3 and 4 in that order |
| SampleData.SampleFilterByStatus | src/data/mockData.ts:342-364 | filtering the sample by "open" gives every task |
| SampleData.SampleClientTasks | src/pages/Dashboard.tsx:33-34 | `user-1`'s client list is tasks 1, 4 and 5 |
| SampleData.SampleClientFigures | src/pages/Dashboard.tsx:81-100 | that list has 3 open tasks and 1 bid in all |
| SampleData.SampleWorkerDashboard | src/pages/Dashboard.tsx:271-292 | worker `user-3` sees only task 1, with its pending bid and the "Pending" badge |
| SampleData.SampleAdminDashboard | src/pages/Dashboard.tsx:35-37 | the admin falls into the bidder branch and, having bid on nothing, sees an empty list |

## Left out

- Rendering is not modelled: JSX, styling, the tab state, the navigation and links of the dashboard, the navigation bar and the how-it-works page. None of it computes more than trivial reads, such as the list lengths `myTasks.length > 0` and `task.bids.length` (src/pages/Dashboard.tsx:268, 319) and the star comparison listed below.
- The sign-in context (`src/contexts/AuthContext.tsx`) is not modelled: timers, `localStorage`, JSON parsing and toasts. The signed-in user is a parameter, and the page's early return when no user is signed in is not modelled.
- The navigation bar's own `getInitials` copy is not modelled separately, because it is the same function as the dashboard's.
- Dashboard.GetInitials: case mapping covers ASCII letters only. Full Unicode `toUpperCase` is not modelled (one character can map to several), and neither is `split` over UTF-16 code units.
- MockData.SearchIsCaseInsensitive: lower-casing is ASCII only, so the claim covers ASCII case differences only.
- The clock is not modelled. `Date.now()` and `toISOString()` are inputs to `createBid`. The id's uniqueness is not claimed, because the code does not ensure it.
- MockData.CreateBid: a number of `1e21` or more would render in exponent notation in JavaScript. That is not modelled; the millisecond count is a plain `nat`.
- Dashboard.TotalBids: JavaScript numbers are doubles. The model's sum is an unbounded integer, so precision loss past 2^53 bids is not modelled.
- Floating-point fields are carried as `real` and never computed on: ratings, coordinates, budgets and amounts. The star display, `toFixed`, and the date formatting calls into date-fns and `Intl` are not modelled.
- The hard-coded figures are constants, so there is nothing to model: '3' and '12' for non-clients (src/pages/Dashboard.tsx:81, 101), and the notifications count '5' that every role sees (src/pages/Dashboard.tsx:131-133).
- The `CATEGORIES` list is static reference data that none of the modelled code reads, so it is not modelled.
- `src/types` is not part of this model. The entity shapes are taken from the field names and values of the sample `USERS` and `TASKS` literals (src/data/mockData.ts:39-303).
- `BidStatus` has exactly three values, pending, accepted and rejected, because those are the only statuses the code writes or compares a bid's status with (src/data/mockData.ts:375 and src/pages/Dashboard.tsx:285-291). A status string outside those three is not modelled; the badge's fallback branch therefore covers only pending.
