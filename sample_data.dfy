/** The store's sample contents (`USERS` and `TASKS`) and what holds of
    them: distinct ids, references that resolve to users of the right role,
    and the query results and dashboard figures they give. */
module SampleData {
  import opened Wrappers
  import opened Types
  import JsArray
  import MockData
  import Dashboard

  const USER_1: User := User(
    "user-1", "Rohit Sharma", "rohit@example.com", Some("+91 9876543210"), Client,
    "https://images.unsplash.com/photo-1633332755192-727a05c4013d?w=500&auto=format&fit=crop&q=60&ixlib=rb-4.0.3&ixid=M3wxMjA3fDB8MHxzZWFyY2h8OHx8YXZhdGFyfGVufDB8fDB8fHww",
    4.8, 15, "2023-09-15T10:30:00.000Z",
    Some("Business owner looking for reliable services"),
    None,
    true, Some(Location(28.6139, 77.209, "Delhi, India")))

  const USER_2: User := User(
    "user-2", "Priya Singh", "priya@example.com", Some("+91 9876543211"), Worker,
    "https://images.unsplash.com/photo-1494790108377-be9c29b29330?w=500&auto=format&fit=crop&q=60&ixlib=rb-4.0.3&ixid=M3wxMjA3fDB8MHxzZWFyY2h8M3x8YXZhdGFyfGVufDB8fDB8fHww",
    4.9, 27, "2023-08-20T15:45:00.000Z",
    Some("Professional interior painter with 5 years of experience"),
    Some(["Painting", "Wall Repair", "Furniture Assembly"]),
    true, Some(Location(28.6129, 77.2295, "East Delhi, India")))

  const USER_3: User := User(
    "user-3", "Amit Patel", "amit@example.com", Some("+91 9876543212"), Worker,
    "https://images.unsplash.com/photo-1566492031773-4f4e44671857?w=500&auto=format&fit=crop&q=60&ixlib=rb-4.0.3&ixid=M3wxMjA3fDB8MHxzZWFyY2h8MTh8fGluZGlhbiUyMG1hbnxlbnwwfHwwfHx8MA%3D%3D",
    4.7, 32, "2023-07-10T09:20:00.000Z",
    Some("Certified plumber specializing in residential work"),
    Some(["Plumbing", "Installation", "Maintenance"]),
    true, Some(Location(28.5355, 77.391, "Noida, UP, India")))

  const USER_4: User := User(
    "user-4", "Neha Gupta", "neha@example.com", Some("+91 9876543213"), Client,
    "https://images.unsplash.com/photo-1664575599736-c5197c684153?w=500&auto=format&fit=crop&q=60&ixlib=rb-4.0.3&ixid=M3wxMjA3fDB8MHxzZWFyY2h8MTd8fGluZGlhbiUyMHdvbWFufGVufDB8fDB8fHww",
    4.6, 8, "2023-10-05T14:15:00.000Z",
    Some("Homemaker looking for household services"),
    None,
    true, Some(Location(28.4595, 77.0266, "Gurugram, HR, India")))

  const USER_5: User := User(
    "user-5", "Raj Kumar", "raj@example.com", Some("+91 9876543214"), Worker,
    "https://images.unsplash.com/photo-1506794778202-cad84cf45f1d?w=500&auto=format&fit=crop&q=60&ixlib=rb-4.0.3&ixid=M3wxMjA3fDB8MHxzZWFyY2h8Mnx8bWFuJTIwcG9ydHJhaXR8ZW58MHx8MHx8fDA%3D",
    4.9, 41, "2023-06-12T11:50:00.000Z",
    Some("Full stack web developer with expertise in React and Node.js"),
    Some(["Web Development", "UI/UX Design", "Mobile App Development"]),
    true, Some(Location(12.9716, 77.5946, "Bangalore, India")))

  const USER_6: User := User(
    "user-6", "Admin User", "admin@workbridge.com", None, Admin,
    "https://images.unsplash.com/photo-1472099645785-5658abf4ff4e?w=500&auto=format&fit=crop&q=60&ixlib=rb-4.0.3&ixid=M3wxMjA3fDB8MHxzZWFyY2h8MTJ8fG1hbnxlbnwwfHwwfHx8MA%3D%3D",
    5.0, 0, "2023-01-01T00:00:00.000Z",
    None,
    None,
    true, None)

  const TASK_1: Task := TaskOf(
    "task-1", "Bathroom Plumbing Repair",
    "Need to fix a leaking sink and replace the shower head in my bathroom. The sink has been leaking for about a week and water pressure in the shower is very low.",
    "Home Services", "Plumbing", "user-1", "open",
    Budget(2000.0, 3500.0),
    Location(28.6139, 77.209, "Connaught Place, Delhi, India"),
    ["https://images.unsplash.com/photo-1585909695284-32d2985ac9c0?w=500&auto=format&fit=crop&q=60&ixlib=rb-4.0.3&ixid=M3wxMjA3fDB8MHxzZWFyY2h8NHx8cGx1bWJpbmd8ZW58MHx8MHx8fDA%3D",
     "https://images.unsplash.com/photo-1534137667199-675a39f476d4?w=500&auto=format&fit=crop&q=60&ixlib=rb-4.0.3&ixid=M3wxMjA3fDB8MHxzZWFyY2h8M3x8cGx1bWJpbmd8ZW58MHx8MHx8fDA%3D"],
    "2023-11-10T09:30:00.000Z", "2023-11-15T18:00:00.000Z",
    [Bid("bid-1", "task-1", "user-3", 2800.0,
           Some("I can fix this in 2 hours. Have all necessary tools and replacement parts."),
           Pending, "2023-11-11T10:15:00.000Z")])

  const TASK_2: Task := TaskOf(
    "task-2", "Website Development for Small Business",
    "Looking for a web developer to create a responsive website for my small retail business. Need product catalog, contact form, and about page. Design should be modern and mobile-friendly.",
    "Professional", "Web Development", "user-4", "open",
    Budget(15000.0, 30000.0),
    Location(28.4595, 77.0266, "Sector 29, Gurugram, Haryana, India"),
    ["https://images.unsplash.com/photo-1547658719-da2b51169166?w=500&auto=format&fit=crop&q=60&ixlib=rb-4.0.3&ixid=M3wxMjA3fDB8MHxzZWFyY2h8MTB8fHdlYnNpdGV8ZW58MHx8MHx8fDA%3D",
     "https://images.unsplash.com/photo-1499951360447-b19be8fe80f5?w=500&auto=format&fit=crop&q=60&ixlib=rb-4.0.3&ixid=M3wxMjA3fDB8MHxzZWFyY2h8OHx8d2Vic2l0ZXxlbnwwfHwwfHx8MA%3D%3D"],
    "2023-11-08T14:45:00.000Z", "2023-12-10T23:59:00.000Z",
    [Bid("bid-2", "task-2", "user-5", 25000.0,
           Some("I specialize in creating modern, responsive websites for small businesses. Can deliver in 3 weeks with all requested features."),
           Pending, "2023-11-09T16:20:00.000Z")])

  const TASK_3: Task := TaskOf(
    "task-3", "Living Room Painting",
    "Need to paint my living room (approximately 20x15 feet) with premium quality paint. The walls need minor repairs before painting. I have already purchased the paint (light beige color).",
    "Home Services", "Painting", "user-4", "open",
    Budget(5000.0, 8000.0),
    Location(28.4595, 77.0266, "DLF Phase 4, Gurugram, Haryana, India"),
    ["https://images.unsplash.com/photo-1562663464-36b9b99558c9?w=500&auto=format&fit=crop&q=60&ixlib=rb-4.0.3&ixid=M3wxMjA3fDB8MHxzZWFyY2h8Mnx8cGFpbnRpbmclMjB3YWxsc3xlbnwwfHwwfHx8MA%3D%3D",
     "https://images.unsplash.com/photo-1599619585752-c3edb42a414c?w=500&auto=format&fit=crop&q=60&ixlib=rb-4.0.3&ixid=M3wxMjA3fDB8MHxzZWFyY2h8MTJ8fHBhaW50aW5nJTIwd2FsbHN8ZW58MHx8MHx8fDA%3D"],
    "2023-11-09T11:20:00.000Z", "2023-11-20T18:00:00.000Z",
    [Bid("bid-3", "task-3", "user-2", 6500.0,
           Some("I can complete this job in 2 days with wall repairs and proper finishing. Have 5 years of experience in interior painting."),
           Pending, "2023-11-10T09:45:00.000Z")])

  const TASK_4: Task := TaskOf(
    "task-4", "Furniture Delivery and Assembly",
    "Need someone to pick up a desk from the furniture store and assemble it at my home. The store is about 10 km from my location. The desk is boxed and weighs approximately 30 kg.",
    "Home Services", "Furniture Assembly", "user-1", "open",
    Budget(1500.0, 2500.0),
    Location(28.6129, 77.2295, "Laxmi Nagar, Delhi, India"),
    ["https://images.unsplash.com/photo-1595515106969-3bca31fea6e7?w=500&auto=format&fit=crop&q=60&ixlib=rb-4.0.3&ixid=M3wxMjA3fDB8MHxzZWFyY2h8N3x8ZnVybml0dXJlJTIwYXNzZW1ibHl8ZW58MHx8MHx8fDA%3D",
     "https://images.unsplash.com/photo-1586023492125-27b2c045efd7?w=500&auto=format&fit=crop&q=60&ixlib=rb-4.0.3&ixid=M3wxMjA3fDB8MHxzZWFyY2h8M3x8ZnVybml0dXJlfGVufDB8fDB8fHww"],
    "2023-11-11T13:10:00.000Z", "2023-11-14T20:00:00.000Z",
    [])

  const TASK_5: Task := TaskOf(
    "task-5", "Digital Marketing Strategy",
    "Looking for a digital marketing expert to create a 3-month strategy for my online business. Need help with social media, content marketing, and SEO optimization. Budget is negotiable for the right candidate.",
    "Professional", "Marketing", "user-1", "open",
    Budget(20000.0, 35000.0),
    Location(28.6139, 77.209, "Rajouri Garden, Delhi, India"),
    ["https://images.unsplash.com/photo-1460925895917-afdab827c52f?w=500&auto=format&fit=crop&q=60&ixlib=rb-4.0.3&ixid=M3wxMjA3fDB8MHxzZWFyY2h8M3x8ZGlnaXRhbCUyMG1hcmtldGluZ3xlbnwwfHwwfHx8MA%3D%3D",
     "https://images.unsplash.com/photo-1533750516457-a7f992034fec?w=500&auto=format&fit=crop&q=60&ixlib=rb-4.0.3&ixid=M3wxMjA3fDB8MHxzZWFyY2h8MTR8fGRpZ2l0YWwlMjBtYXJrZXRpbmd8ZW58MHx8MHx8fDA%3D"],
    "2023-11-07T16:35:00.000Z", "2023-11-21T23:59:00.000Z",
    [])

  const USERS: seq<User> := [USER_1, USER_2, USER_3, USER_4, USER_5, USER_6]

  const TASKS: seq<Task> := [TASK_1, TASK_2, TASK_3, TASK_4, TASK_5]

  /** No two users and no two tasks share an id, and every bid's `taskId`
      names the task that holds it. */
  lemma SampleIdsAreConsistent()
    ensures forall i, j :: 0 <= i < j < |USERS| ==> USERS[i].id != USERS[j].id
    ensures forall i, j :: 0 <= i < j < |TASKS| ==> TASKS[i].id != TASKS[j].id
    ensures forall i, k :: 0 <= i < |TASKS| && 0 <= k < |TASKS[i].bids| ==> TASKS[i].bids[k].taskId == TASKS[i].id
  {
  }

  /** The first task of the store joined with its client, and a lookup of
      an id no task has. */
  lemma SampleTaskWithClient()
    ensures MockData.GetTaskWithClient(TASKS, USERS, "task-1") == Some(TaskWithClient(TASK_1, Some(USER_1)))
    ensures MockData.GetTaskWithClient(TASKS, USERS, "nonexistent").None?
  {
  }

  /** Where each user id used in the tasks first occurs in the store. */
  lemma SampleUsersAt()
    ensures MockData.FindUser(USERS, "user-1") == Some(USER_1)
    ensures MockData.FindUser(USERS, "user-2") == Some(USER_2)
    ensures MockData.FindUser(USERS, "user-3") == Some(USER_3)
    ensures MockData.FindUser(USERS, "user-4") == Some(USER_4)
    ensures MockData.FindUser(USERS, "user-5") == Some(USER_5)
  {
    MockData.FindUserAt(USERS, "user-1", 0);
    MockData.FindUserAt(USERS, "user-2", 1);
    MockData.FindUserAt(USERS, "user-3", 2);
    MockData.FindUserAt(USERS, "user-4", 3);
    MockData.FindUserAt(USERS, "user-5", 4);
  }

  /** Every task's client and every bid's worker is a user of the store,
      with the role the reference implies. */
  lemma SampleReferencesResolve()
    ensures forall i :: 0 <= i < |TASKS| ==>
      var c := MockData.FindUser(USERS, TASKS[i].clientId); c.Some? && c.value.role == Client
    ensures forall i, k :: 0 <= i < |TASKS| && 0 <= k < |TASKS[i].bids| ==>
      var w := MockData.FindUser(USERS, TASKS[i].bids[k].workerId); w.Some? && w.value.role == Worker
  {
    SampleUsersAt();
    forall i | 0 <= i < |TASKS|
      ensures var c := MockData.FindUser(USERS, TASKS[i].clientId); c.Some? && c.value.role == Client
    {
      assert i == 0 || i == 1 || i == 2 || i == 3 || i == 4;
    }
    forall i, k | 0 <= i < |TASKS| && 0 <= k < |TASKS[i].bids|
      ensures var w := MockData.FindUser(USERS, TASKS[i].bids[k].workerId); w.Some? && w.value.role == Worker
    {
      assert i == 0 || i == 1 || i == 2 || i == 3 || i == 4;
      assert k == 0;
    }
  }

  /** The first task of the store with its one bid joined to its worker. */
  lemma SampleTaskWithBids()
    ensures MockData.GetTaskWithBids(TASKS, USERS, "task-1")
         == Some(WithBids(TASK_1, [BidWithWorker(TASK_1.bids[0], Some(USER_3))]))
  {
    SampleUsersAt();
    MockData.FindTaskAt(TASKS, "task-1", 0);
    assert JsArray.Map(TASK_1.bids, MockData.WithWorker(USERS)) == [BidWithWorker(TASK_1.bids[0], Some(USER_3))];
  }

  function Keep(p: Task -> bool, t: Task, rest: seq<Task>): seq<Task> {
    if p(t) then [t] + rest else rest
  }

  /** `filter` over the store, one task at a time. */
  lemma FilterSample(p: Task -> bool)
    ensures JsArray.Filter(TASKS, p)
         == Keep(p, TASK_1, Keep(p, TASK_2, Keep(p, TASK_3, Keep(p, TASK_4, Keep(p, TASK_5, [])))))
  {
    var s5 := [TASK_5];
    var s4 := [TASK_4] + s5;
    var s3 := [TASK_3] + s4;
    var s2 := [TASK_2] + s3;
    var s1 := [TASK_1] + s2;
    JsArray.FilterCons(TASK_5, [], p);
    assert [TASK_5] + [] == s5;
    JsArray.FilterCons(TASK_4, s5, p);
    JsArray.FilterCons(TASK_3, s4, p);
    JsArray.FilterCons(TASK_2, s3, p);
    JsArray.FilterCons(TASK_1, s2, p);
    assert TASKS == s1;
  }

  /** A category-only filter keeps exactly the tasks of that category. */
  lemma CategoryMatcher(c: string, t: Task)
    requires c != ""
    ensures MockData.Matcher(MockData.Filters(Some(c), None, None))(t) == (t.category == c)
  {
  }

  /** Filtering the store by category. */
  lemma SampleFilterByCategory()
    ensures MockData.GetFilteredTasks(TASKS, MockData.Filters(Some("Home Services"), None, None)) == [TASK_1, TASK_3, TASK_4]
  {
    var c := "Home Services";
    var home := MockData.Matcher(MockData.Filters(Some(c), None, None));
    FilterSample(home);
    CategoryMatcher(c, TASK_1);
    CategoryMatcher(c, TASK_2);
    CategoryMatcher(c, TASK_3);
    CategoryMatcher(c, TASK_4);
    CategoryMatcher(c, TASK_5);
    assert home(TASK_1) && !home(TASK_2) && home(TASK_3) && home(TASK_4) && !home(TASK_5);
    var k5 := Keep(home, TASK_5, []);
    assert k5 == [];
    var k4 := Keep(home, TASK_4, k5);
    assert k4 == [TASK_4];
    var k3 := Keep(home, TASK_3, k4);
    assert k3 == [TASK_3, TASK_4];
    var k2 := Keep(home, TASK_2, k3);
    assert k2 == k3;
    assert Keep(home, TASK_1, k2) == [TASK_1, TASK_3, TASK_4];
  }

  /** Filtering by a status every task of the store has returns all of it. */
  lemma SampleFilterByStatus()
    ensures MockData.GetFilteredTasks(TASKS, MockData.Filters(None, None, Some("open"))) == TASKS
  {
    var open := MockData.Filters(None, None, Some("open"));
    assert TASKS[0] == TASK_1 && TASKS[1] == TASK_2 && TASKS[2] == TASK_3 && TASKS[3] == TASK_4 && TASKS[4] == TASK_5;
    JsArray.FilterKeepsAll(TASKS, MockData.Matcher(open));
  }

  /** The first client's task list and figures. */
  lemma SampleClientTasks()
    ensures Dashboard.MyTasks(TASKS, USER_1) == [TASK_1, TASK_4, TASK_5]
  {
    var own := Dashboard.ClientIs("user-1");
    FilterSample(own);
    assert own(TASK_1) && !own(TASK_2) && !own(TASK_3) && own(TASK_4) && own(TASK_5);
    assert Keep(own, TASK_4, Keep(own, TASK_5, [])) == [TASK_4, TASK_5];
  }

  lemma SampleClientFigures()
    ensures Dashboard.ActiveTaskCount([TASK_1, TASK_4, TASK_5]) == 3
    ensures Dashboard.TotalBids([TASK_1, TASK_4, TASK_5]) == 1
  {
    var mine := [TASK_1, TASK_4, TASK_5];
    calc {
      Dashboard.AllBids(mine);
      TASK_1.bids + Dashboard.AllBids([TASK_4, TASK_5]);
      { assert [TASK_4, TASK_5][1..] == [TASK_5]; }
      TASK_1.bids + (TASK_4.bids + Dashboard.AllBids([TASK_5]));
      { assert [TASK_5][1..] == []; }
      TASK_1.bids + (TASK_4.bids + (TASK_5.bids + []));
    }
  }

  /** The worker who bid on the first task sees it, with a "Pending" badge. */
  lemma SampleWorkerDashboard()
    ensures Dashboard.MyTasks(TASKS, USER_3) == [TASK_1]
    ensures Dashboard.UserBid(USER_3, TASK_1) == Some(TASK_1.bids[0])
    ensures Dashboard.BidBadge(TASK_1.bids[0].status) == Dashboard.Badge("Pending", Dashboard.Default)
  {
    var bid := Dashboard.HasBidBy("user-3");
    FilterSample(bid);
    assert bid(TASK_1) && !bid(TASK_2) && !bid(TASK_3) && !bid(TASK_4) && !bid(TASK_5);
  }

  /** The admin has bid on nothing, so the admin's task list is empty. */
  lemma SampleAdminDashboard()
    ensures Dashboard.MyTasks(TASKS, USER_6) == []
  {
    var bid := Dashboard.HasBidBy("user-6");
    FilterSample(bid);
    assert !bid(TASK_1) && !bid(TASK_2) && !bid(TASK_3) && !bid(TASK_4) && !bid(TASK_5);
  }

}
