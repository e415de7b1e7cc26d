/** The query and construction layer over the task store: the lookups that
    join a task to its client or its bids to their workers, the conjunctive
    task filter, and the bid constructor. The store's `TASKS` and `USERS`
    arrays are parameters. */
module MockData {
  import opened Wrappers
  import opened Types
  import opened JsString
  import JsArray

  // ---------------------------------------------------------------------
  // Lookups

  function TaskIdIs(id: string): Task -> bool {
    (t: Task) => t.id == id
  }

  function UserIdIs(id: string): User -> bool {
    (u: User) => u.id == id
  }

  /** Position `k` holds the first task with this id. */
  ghost predicate FirstTaskAt(tasks: seq<Task>, id: string, k: int) {
    0 <= k < |tasks| && tasks[k].id == id && forall j :: 0 <= j < k ==> tasks[j].id != id
  }

  /** `u` is what `users.find(u => u.id === id)` yields: the first user
      with that id, or `undefined` when there is none. */
  ghost predicate ResolvesTo(users: seq<User>, id: string, u: Option<User>) {
    && (u.None? <==> forall j :: 0 <= j < |users| ==> users[j].id != id)
    && (u.Some? ==> exists k :: 0 <= k < |users| && users[k] == u.value && users[k].id == id
                               && forall j :: 0 <= j < k ==> users[j].id != id)
  }

  /** `TASKS.find(t => t.id === id)`. */
  function FindTask(tasks: seq<Task>, id: string): (r: Option<Task>)
    ensures r.None? <==> forall j :: 0 <= j < |tasks| ==> tasks[j].id != id
    ensures r.Some? ==> exists k :: FirstTaskAt(tasks, id, k) && tasks[k] == r.value
  {
    var r := JsArray.Find(tasks, TaskIdIs(id));
    ghost var k := JsArray.FirstIndex(tasks, TaskIdIs(id));
    assert k.Some? ==> FirstTaskAt(tasks, id, k.value);
    r
  }

  /** `USERS.find(u => u.id === id)`. */
  function FindUser(users: seq<User>, id: string): (r: Option<User>)
    ensures ResolvesTo(users, id, r)
  {
    var r := JsArray.Find(users, UserIdIs(id));
    ghost var k := JsArray.FirstIndex(users, UserIdIs(id));
    assert k.Some? ==> users[k.value].id == id && forall j :: 0 <= j < k.value ==> users[j].id != id;
    r
  }

  /** A lookup of an id whose first holder is known. */
  lemma FindTaskAt(tasks: seq<Task>, id: string, k: nat)
    requires FirstTaskAt(tasks, id, k)
    ensures FindTask(tasks, id) == Some(tasks[k])
  {
  }

  lemma FindUserAt(users: seq<User>, id: string, k: nat)
    requires 0 <= k < |users| && users[k].id == id && forall j :: 0 <= j < k ==> users[j].id != id
    ensures FindUser(users, id) == Some(users[k])
  {
  }

  /** `getTaskWithClient(taskId)`: `null` when no task has the id; otherwise
      the first such task, unchanged, with its client resolved (which may
      be absent when `clientId` names no user). */
  function GetTaskWithClient(tasks: seq<Task>, users: seq<User>, taskId: string): (r: Option<TaskWithClient>)
    ensures r.None? <==> forall j :: 0 <= j < |tasks| ==> tasks[j].id != taskId
    ensures r.Some? ==> exists k :: FirstTaskAt(tasks, taskId, k) && r.value.task == tasks[k]
                                    && ResolvesTo(users, tasks[k].clientId, r.value.client)
  {
    match FindTask(tasks, taskId)
    case None => None
    case Some(task) => Some(TaskWithClient(task, FindUser(users, task.clientId)))
  }

  /** `{...bid, worker}` with the worker looked up by `workerId`. */
  function WithWorker(users: seq<User>): Bid -> BidWithWorker {
    (b: Bid) => BidWithWorker(b, FindUser(users, b.workerId))
  }

  /** Every bid of `task` is kept, in order and unchanged, and gains the
      user its `workerId` resolves to. */
  ghost predicate JoinsWorkers(r: TaskWithBids, task: Task, users: seq<User>) {
    && SameExceptBids(r, task)
    && |r.bids| == |task.bids|
    && forall i :: 0 <= i < |task.bids| ==>
         r.bids[i].bid == task.bids[i] && ResolvesTo(users, task.bids[i].workerId, r.bids[i].worker)
  }

  /** `getTaskWithBids(taskId)`: `null` when no task has the id; otherwise
      the first such task with each of its bids joined to its worker. */
  function GetTaskWithBids(tasks: seq<Task>, users: seq<User>, taskId: string): (r: Option<TaskWithBids>)
    ensures r.None? <==> forall j :: 0 <= j < |tasks| ==> tasks[j].id != taskId
    ensures r.Some? ==> exists k :: FirstTaskAt(tasks, taskId, k) && JoinsWorkers(r.value, tasks[k], users)
  {
    match FindTask(tasks, taskId)
    case None => None
    case Some(task) => Some(WithBids(task, JsArray.Map(task.bids, WithWorker(users))))
  }

  // ---------------------------------------------------------------------
  // The task filter

  /** The optional criteria of `getFilteredTasks`. */
  datatype Filters = Filters(category: Option<string>, search: Option<string>, status: Option<string>)

  /** JavaScript truthiness of an optional string: supplied and non-empty. */
  predicate Given(o: Option<string>) {
    o.Some? && o.value != ""
  }

  /** The search test: the lower-cased term occurs in the lower-cased title
      or the lower-cased description. */
  predicate MatchesSearch(term: string, task: Task) {
    var t := ToLowerCase(term);
    Includes(ToLowerCase(task.title), t) || Includes(ToLowerCase(task.description), t)
  }

  /** The callback `getFilteredTasks` passes to `filter`, with its three
      early returns in the source's order. */
  predicate PassesFilters(f: Filters, task: Task) {
    if Given(f.category) && task.category != f.category.value then false
    else if Given(f.search) && !MatchesSearch(f.search.value, task) then false
    else if Given(f.status) && task.status != f.status.value then false
    else true
  }

  function Matcher(f: Filters): Task -> bool {
    t => PassesFilters(f, t)
  }

  /** `getFilteredTasks(filters)`. */
  function GetFilteredTasks(tasks: seq<Task>, f: Filters): (r: seq<Task>)
    ensures |r| <= |tasks|
    ensures forall t :: t in r ==> t in tasks
  {
    JsArray.Filter(tasks, Matcher(f))
  }

  /** Each criterion on its own, as a reader of the code states it. */
  ghost predicate CategoryOk(f: Filters, t: Task) {
    f.category.None? || f.category.value == "" || t.category == f.category.value
  }

  ghost predicate SearchOk(f: Filters, t: Task) {
    || f.search.None? || f.search.value == ""
    || IsSubstring(ToLowerCase(f.search.value), ToLowerCase(t.title))
    || IsSubstring(ToLowerCase(f.search.value), ToLowerCase(t.description))
  }

  ghost predicate StatusOk(f: Filters, t: Task) {
    f.status.None? || f.status.value == "" || t.status == f.status.value
  }

  /** The filter callback accepts a task exactly when all three criteria hold. */
  lemma PassesFiltersMeaning(f: Filters, t: Task)
    ensures PassesFilters(f, t) <==> CategoryOk(f, t) && SearchOk(f, t) && StatusOk(f, t)
  {
    if Given(f.search) {
      IncludesIsSubstring(ToLowerCase(t.title), ToLowerCase(f.search.value));
      IncludesIsSubstring(ToLowerCase(t.description), ToLowerCase(f.search.value));
    }
  }

  /** A task is in the result exactly when it is in the store and meets
      every supplied criterion. */
  lemma FilteredTasksMembership(tasks: seq<Task>, f: Filters, t: Task)
    ensures t in GetFilteredTasks(tasks, f) <==> t in tasks && CategoryOk(f, t) && SearchOk(f, t) && StatusOk(f, t)
  {
    PassesFiltersMeaning(f, t);
  }

  /** The result is the store's matching tasks, in store order, each as
      many times as the store holds it: nothing added, dropped or reordered. */
  lemma FilteredTasksSelection(tasks: seq<Task>, f: Filters) returns (idx: seq<nat>)
    ensures JsArray.Selects(GetFilteredTasks(tasks, f), tasks, Matcher(f), idx)
    ensures forall t :: multiset(GetFilteredTasks(tasks, f))[t] == if PassesFilters(f, t) then multiset(tasks)[t] else 0
  {
    idx := JsArray.FilterSelects(tasks, Matcher(f));
    JsArray.FilterCounts(tasks, Matcher(f));
  }

  /** With no effective criterion the whole store is returned. */
  lemma NoCriteriaKeepsAll(tasks: seq<Task>, f: Filters)
    requires !Given(f.category) && !Given(f.search) && !Given(f.status)
    ensures GetFilteredTasks(tasks, f) == tasks
  {
    JsArray.FilterKeepsAll(tasks, Matcher(f));
  }

  /** An empty-string criterion is no criterion at all. */
  function Effective(o: Option<string>): (r: Option<string>)
    ensures r.None? <==> !Given(o)
    ensures Given(o) ==> r == o
  {
    if Given(o) then o else None
  }

  lemma {:induction false} EmptyCriterionIsAbsent(tasks: seq<Task>, f: Filters)
    ensures GetFilteredTasks(tasks, f)
         == GetFilteredTasks(tasks, Filters(Effective(f.category), Effective(f.search), Effective(f.status)))
  {
    var g := Filters(Effective(f.category), Effective(f.search), Effective(f.status));
    JsArray.FilterExtensional(tasks, Matcher(f), Matcher(g));
  }

  /** Search terms that lower-case alike select the same tasks. */
  lemma {:induction false} SearchIsCaseInsensitive(tasks: seq<Task>, f: Filters, a: string, b: string)
    requires ToLowerCase(a) == ToLowerCase(b)
    ensures GetFilteredTasks(tasks, f.(search := Some(a))) == GetFilteredTasks(tasks, f.(search := Some(b)))
  {
    assert |a| == |ToLowerCase(a)| == |ToLowerCase(b)| == |b|;
    JsArray.FilterExtensional(tasks, Matcher(f.(search := Some(a))), Matcher(f.(search := Some(b))));
  }

  function OnlyCategory(f: Filters): Filters { Filters(f.category, None, None) }
  function OnlySearch(f: Filters): Filters { Filters(None, f.search, None) }
  function OnlyStatus(f: Filters): Filters { Filters(None, None, f.status) }

  /** Filtering by all criteria at once is filtering by the category, then
      the search, then the status. */
  lemma {:induction false} CriteriaCompose(tasks: seq<Task>, f: Filters)
    ensures GetFilteredTasks(tasks, f)
         == GetFilteredTasks(GetFilteredTasks(GetFilteredTasks(tasks, OnlyCategory(f)), OnlySearch(f)), OnlyStatus(f))
  {
    var cs := Filters(f.category, f.search, None);
    JsArray.FilterConjunction(tasks, Matcher(OnlyCategory(f)), Matcher(OnlySearch(f)), Matcher(cs));
    JsArray.FilterConjunction(tasks, Matcher(cs), Matcher(OnlyStatus(f)), Matcher(f));
  }

  /** Successive filterings may be applied in either order. */
  lemma {:induction false} FilteringCommutes(tasks: seq<Task>, f: Filters, g: Filters)
    ensures GetFilteredTasks(GetFilteredTasks(tasks, f), g) == GetFilteredTasks(GetFilteredTasks(tasks, g), f)
  {
    JsArray.FilterCommutes(tasks, Matcher(f), Matcher(g));
  }

  /** Filtering a filtered result again by the same criteria changes nothing. */
  lemma {:induction false} FilteringIsIdempotent(tasks: seq<Task>, f: Filters)
    ensures GetFilteredTasks(GetFilteredTasks(tasks, f), f) == GetFilteredTasks(tasks, f)
  {
    JsArray.FilterConjunction(tasks, Matcher(f), Matcher(f), Matcher(f));
  }

  /** The combined result is the intersection of the single-criterion results. */
  lemma CriteriaIntersect(tasks: seq<Task>, f: Filters, t: Task)
    ensures t in GetFilteredTasks(tasks, f)
        <==> (&& t in GetFilteredTasks(tasks, OnlyCategory(f))
              && t in GetFilteredTasks(tasks, OnlySearch(f))
              && t in GetFilteredTasks(tasks, OnlyStatus(f)))
  {
    FilteredTasksMembership(tasks, f, t);
    FilteredTasksMembership(tasks, OnlyCategory(f), t);
    FilteredTasksMembership(tasks, OnlySearch(f), t);
    FilteredTasksMembership(tasks, OnlyStatus(f), t);
  }

  // ---------------------------------------------------------------------
  // Bid construction

  /** `createBid(taskId, workerId, amount, message)`. `now` is the value of
      `Date.now()` and `nowIso` that of `new Date().toISOString()`; they are
      two separate clock reads. Nothing is validated and the store is not
      touched. */
  function CreateBid(taskId: string, workerId: string, amount: real, message: Option<string>,
                     now: nat, nowIso: string): (b: Bid)
    ensures b.taskId == taskId && b.workerId == workerId && b.amount == amount && b.message == message
    ensures b.status == Pending
    ensures b.createdAt == nowIso
    ensures b.id == "bid-" + NumberToString(now)
  {
    Bid("bid-" + NumberToString(now), taskId, workerId, amount, message, Pending, nowIso)
  }

  /** Two bids get the same id exactly when they are created in the same
      millisecond, whatever else they are created from. */
  lemma CreateBidIdsCollideOnlyInSameTick(t1: string, w1: string, a1: real, m1: Option<string>, n1: nat, i1: string,
                                          t2: string, w2: string, a2: real, m2: Option<string>, n2: nat, i2: string)
    ensures CreateBid(t1, w1, a1, m1, n1, i1).id == CreateBid(t2, w2, a2, m2, n2, i2).id <==> n1 == n2
  {
    NumberToStringInjective(n1, n2);
    var p := "bid-";
    if p + NumberToString(n1) == p + NumberToString(n2) {
      assert NumberToString(n1) == (p + NumberToString(n1))[|p|..];
      assert NumberToString(n2) == (p + NumberToString(n2))[|p|..];
    }
  }
}
