/** The values the dashboard page derives from the task store for the
    signed-in user: the role's task list, the client's two figures, the
    worker's own bid on a task with its badge, and the avatar initials. */
module Dashboard {
  import opened Wrappers
  import opened Types
  import opened JsString
  import JsArray
  import MockData

  // ---------------------------------------------------------------------
  // The role's task list

  function ClientIs(id: string): Task -> bool {
    (t: Task) => t.clientId == id
  }

  function BidBy(id: string): Bid -> bool {
    (b: Bid) => b.workerId == id
  }

  function HasBidBy(id: string): Task -> bool {
    (t: Task) => JsArray.Any(t.bids, BidBy(id))
  }

  /** The user has placed at least one bid on the task. */
  ghost predicate BidOn(t: Task, id: string) {
    exists i :: 0 <= i < |t.bids| && t.bids[i].workerId == id
  }

  /** `myTasks`: a client's own tasks; for every other role (admin
      included) the tasks the user has bid on. */
  function MyTasks(tasks: seq<Task>, user: User): (r: seq<Task>)
    ensures user.role == Client ==> forall t :: t in r <==> t in tasks && t.clientId == user.id
    ensures user.role != Client ==> forall t :: t in r <==> t in tasks && BidOn(t, user.id)
  {
    if user.role == Client then JsArray.Filter(tasks, ClientIs(user.id))
    else JsArray.Filter(tasks, HasBidBy(user.id))
  }

  /** The tasks that belong on the user's list: a client's own tasks, and
      for every other role the tasks the user has bid on. */
  ghost predicate Mine(user: User, t: Task) {
    if user.role == Client then t.clientId == user.id else BidOn(t, user.id)
  }

  /** `myTasks` keeps exactly the user's tasks, in store order, each as
      often as the store holds it. */
  lemma MyTasksSelection(tasks: seq<Task>, user: User) returns (idx: seq<nat>)
    ensures JsArray.Selects(MyTasks(tasks, user), tasks, (t: Task) => Mine(user, t), idx)
    ensures forall t :: multiset(MyTasks(tasks, user))[t] == if Mine(user, t) then multiset(tasks)[t] else 0
  {
    var p := if user.role == Client then ClientIs(user.id) else HasBidBy(user.id);
    idx := JsArray.FilterSelects(tasks, p);
    JsArray.FilterCounts(tasks, p);
    var q := (t: Task) => Mine(user, t);
    assert JsArray.Selects(MyTasks(tasks, user), tasks, q, idx) by {
      assert forall j :: 0 <= j < |tasks| ==> p(tasks[j]) == q(tasks[j]);
    }
  }

  // ---------------------------------------------------------------------
  // The client's figures

  function IsOpen(t: Task): bool {
    t.status == "open"
  }

  /** "Active Tasks": `myTasks.filter(t => t.status === 'open').length`. */
  function ActiveTaskCount(myTasks: seq<Task>): (n: nat)
    ensures n == |set i | 0 <= i < |myTasks| && myTasks[i].status == "open"|
    ensures n <= |myTasks|
    ensures n == 0 <==> forall i :: 0 <= i < |myTasks| ==> myTasks[i].status != "open"
    ensures n == |myTasks| <==> forall i :: 0 <= i < |myTasks| ==> myTasks[i].status == "open"
  {
    JsArray.FilterKeepsAll(myTasks, IsOpen);
    JsArray.FilterLengthCounts(myTasks, IsOpen);
    assert JsArray.Positions(myTasks, IsOpen) == set i | 0 <= i < |myTasks| && myTasks[i].status == "open";
    var open := JsArray.Filter(myTasks, IsOpen);
    assert |open| > 0 ==> open[0] in open;
    assert forall i :: 0 <= i < |myTasks| ==> myTasks[i] in myTasks;
    |open|
  }

  function AddBidCount(acc: int, t: Task): int {
    acc + |t.bids|
  }

  /** Every bid of every task, task by task. */
  function AllBids(ts: seq<Task>): seq<Bid> {
    if ts == [] then [] else ts[0].bids + AllBids(ts[1..])
  }

  lemma {:induction false} ReduceCountsBids(ts: seq<Task>, acc: int)
    ensures JsArray.Reduce(ts, AddBidCount, acc) == acc + |AllBids(ts)|
  {
    if ts != [] {
      ReduceCountsBids(ts[1..], AddBidCount(acc, ts[0]));
    }
  }

  /** "Total Bids": `myTasks.reduce((acc, task) => acc + task.bids.length, 0)`,
      the number of bids on all of the tasks together. */
  function TotalBids(myTasks: seq<Task>): (n: int)
    ensures n == |AllBids(myTasks)|
    ensures myTasks == [] ==> n == 0
  {
    ReduceCountsBids(myTasks, 0);
    JsArray.Reduce(myTasks, AddBidCount, 0)
  }

  /** The total over two task lists is the sum of their totals. */
  lemma {:induction false} TotalBidsAdds(a: seq<Task>, b: seq<Task>)
    ensures TotalBids(a + b) == TotalBids(a) + TotalBids(b)
  {
    AllBidsAppend(a, b);
  }

  lemma {:induction false} AllBidsAppend(a: seq<Task>, b: seq<Task>)
    ensures AllBids(a + b) == AllBids(a) + AllBids(b)
  {
    if a == [] {
      assert a + b == b;
    } else {
      AllBidsAppend(a[1..], b);
      calc {
        AllBids(a + b);
        (a + b)[0].bids + AllBids((a + b)[1..]);
        { assert (a + b)[0] == a[0] && (a + b)[1..] == a[1..] + b; }
        a[0].bids + (AllBids(a[1..]) + AllBids(b));
        (a[0].bids + AllBids(a[1..])) + AllBids(b);
      }
    }
  }

  /** The total is zero exactly when none of the tasks has a bid. */
  lemma {:induction false} NoBidsMeansZero(ts: seq<Task>)
    ensures TotalBids(ts) == 0 <==> forall i :: 0 <= i < |ts| ==> ts[i].bids == []
  {
    if ts != [] {
      NoBidsMeansZero(ts[1..]);
      assert TotalBids(ts) == |ts[0].bids| + TotalBids(ts[1..]);
      forall i | 0 < i < |ts|
        ensures ts[i] == ts[1..][i - 1]
      {
      }
    }
  }

  // ---------------------------------------------------------------------
  // The worker's own bid and its badge

  /** `userBid`: for a worker, the first bid on the task placed by the
      user; `null` for every other role. */
  function UserBid(user: User, task: Task): (r: Option<Bid>)
    ensures user.role != Worker ==> r.None?
    ensures user.role == Worker ==> (r.Some? <==> BidOn(task, user.id))
    ensures r.Some? ==> exists i :: 0 <= i < |task.bids| && task.bids[i] == r.value && r.value.workerId == user.id
                                     && forall j :: 0 <= j < i ==> task.bids[j].workerId != user.id
  {
    if user.role == Worker then
      var r := JsArray.Find(task.bids, BidBy(user.id));
      ghost var k := JsArray.FirstIndex(task.bids, BidBy(user.id));
      assert k.Some? ==> task.bids[k.value].workerId == user.id
                         && forall j :: 0 <= j < k.value ==> task.bids[j].workerId != user.id;
      r
    else None
  }

  /** On a worker's own task list every task shows that worker's bid. */
  lemma WorkerSeesOwnBid(tasks: seq<Task>, user: User, t: Task)
    requires user.role == Worker && t in MyTasks(tasks, user)
    ensures UserBid(user, t).Some? && UserBid(user, t).value.workerId == user.id
  {
  }

  datatype Variant = Success | Destructive | Default

  datatype Badge = Badge(text: string, variant: Variant)

  /** The badge shown for the user's bid. */
  function BidBadge(s: BidStatus): (b: Badge)
    ensures b.text == "Won" <==> s == Accepted
    ensures b.text == "Not Selected" <==> s == Rejected
    ensures b.text == "Pending" <==> s != Accepted && s != Rejected
    ensures b.variant == Success <==> b.text == "Won"
    ensures b.variant == Destructive <==> b.text == "Not Selected"
  {
    if s == Accepted then Badge("Won", Success)
    else if s == Rejected then Badge("Not Selected", Destructive)
    else Badge("Pending", Default)
  }

  /** Different statuses show different badges, and already different
      labels; each label always comes with the same variant. */
  lemma BadgeDistinguishesStatuses(a: BidStatus, b: BidStatus)
    ensures BidBadge(a).text == BidBadge(b).text <==> a == b
    ensures BidBadge(a).text == BidBadge(b).text ==> BidBadge(a).variant == BidBadge(b).variant
  {
  }

  /** A freshly created bid shows the "Pending" badge. */
  lemma NewBidShowsPending(taskId: string, workerId: string, amount: real, message: Option<string>,
                           now: nat, nowIso: string)
    ensures BidBadge(MockData.CreateBid(taskId, workerId, amount, message, now, nowIso).status)
         == Badge("Pending", Default)
  {
  }

  // ---------------------------------------------------------------------
  // Initials

  /** `part[0]`: the first character, `undefined` for an empty part. */
  function FirstChar(part: string): Option<char> {
    if |part| > 0 then Some(part[0]) else None
  }

  function NonEmpty(part: string): bool {
    |part| > 0
  }

  /** `getInitials(name)`: `name.split(' ').map(part => part[0]).join('').toUpperCase()`.
      One upper-cased character per non-empty space-separated part, in order. */
  function GetInitials(name: string): (r: string)
    ensures var parts := Split(name, ' ');
            var words := JsArray.Filter(parts, NonEmpty);
            && |r| <= |parts|
            && |r| == |words|
            && forall k :: 0 <= k < |words| ==> |words[k]| > 0 && r[k] == UpperChar(words[k][0])
  {
    var parts := Split(name, ' ');
    var joined := JoinChars(JsArray.Map(parts, FirstChar));
    FirstCharsOfWords(parts);
    ToUpperCase(joined)
  }

  /** Joining the first characters keeps one per non-empty part, in order. */
  lemma {:induction false} FirstCharsOfWords(parts: seq<string>)
    ensures var words := JsArray.Filter(parts, NonEmpty);
            var joined := JoinChars(JsArray.Map(parts, FirstChar));
            && |joined| == |words|
            && forall k :: 0 <= k < |words| ==> |words[k]| > 0 && joined[k] == words[k][0]
  {
    if parts != [] {
      FirstCharsOfWords(parts[1..]);
      var cs, cs' := JsArray.Map(parts, FirstChar), JsArray.Map(parts[1..], FirstChar);
      var words, words' := JsArray.Filter(parts, NonEmpty), JsArray.Filter(parts[1..], NonEmpty);
      var joined, joined' := JoinChars(cs), JoinChars(cs');
      assert cs[1..] == cs';
      if |parts[0]| > 0 {
        assert words == [parts[0]] + words';
        assert joined == [parts[0][0]] + joined';
        forall k | 1 <= k < |words|
          ensures |words[k]| > 0 && joined[k] == words[k][0]
        {
          assert words[k] == words'[k - 1];
          assert joined[k] == joined'[k - 1] by {
            assert joined == [parts[0][0]] + joined';
          }
        }
      } else {
        assert words == words';
        assert joined == joined';
      }
    }
  }

  /** A first and a last name give their two upper-cased first letters. */
  lemma InitialsOfFullName(first: string, last: string)
    requires |first| > 0 && |last| > 0 && ' ' !in first && ' ' !in last
    ensures GetInitials(first + " " + last) == [UpperChar(first[0]), UpperChar(last[0])]
  {
    var name := first + " " + last;
    SplitJoin([first, last], ' ');
    assert Join([first, last], ' ') == name;
    JsArray.FilterCons(first, [last], NonEmpty);
    JsArray.FilterCons(last, [], NonEmpty);
    var words := JsArray.Filter([first, last], NonEmpty);
    assert words == [first, last];
    var r := GetInitials(name);
    assert |r| == 2 && r[0] == UpperChar(words[0][0]) && r[1] == UpperChar(words[1][0]);
  }

  /** A doubled space between the names adds an empty part, which gives
      no letter. */
  lemma InitialsSkipEmptyParts(first: string, last: string)
    requires |first| > 0 && |last| > 0 && ' ' !in first && ' ' !in last
    ensures GetInitials(first + "  " + last) == [UpperChar(first[0]), UpperChar(last[0])]
  {
    var name := first + "  " + last;
    SplitAroundEmptyPart(first, last);
    FilterDropsEmptyPart(first, last);
    var words := JsArray.Filter(Split(name, ' '), NonEmpty);
    var r := GetInitials(name);
    assert |r| == 2 && r[0] == UpperChar(words[0][0]) && r[1] == UpperChar(words[1][0]);
  }

  lemma SplitAroundEmptyPart(first: string, last: string)
    requires ' ' !in first && ' ' !in last
    ensures Split(first + "  " + last, ' ') == [first, "", last]
  {
    var parts := [first, "", last];
    assert forall k :: 0 <= k < |parts| ==> ' ' !in parts[k];
    SplitJoin(parts, ' ');
    assert parts[1..] == ["", last] && ["", last][1..] == [last];
    assert Join(["", last], ' ') == "" + [' '] + last;
    assert Join(parts, ' ') == first + [' '] + ("" + [' '] + last);
    assert Join(parts, ' ') == first + "  " + last;
  }

  lemma FilterDropsEmptyPart(first: string, last: string)
    requires |first| > 0 && |last| > 0
    ensures JsArray.Filter([first, "", last], NonEmpty) == [first, last]
  {
    JsArray.FilterCons(first, ["", last], NonEmpty);
    JsArray.FilterCons("", [last], NonEmpty);
    JsArray.FilterCons(last, [], NonEmpty);
  }
}
