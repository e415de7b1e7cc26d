/** The entities of the marketplace: users, tasks and the bids embedded in
    them. Every field is a plain value; numbers that the source stores as
    JavaScript numbers and never computes with are `real`. */
module Types {
  import opened Wrappers

  datatype Role = Client | Worker | Admin

  datatype Location = Location(lat: real, lng: real, address: string)

  datatype User = User(
    id: string,
    name: string,
    email: string,
    phone: Option<string>,
    role: Role,
    avatar: string,
    rating: real,
    totalReviews: nat,
    createdAt: string,
    bio: Option<string>,
    skills: Option<seq<string>>,
    verified: bool,
    location: Option<Location>)

  datatype BidStatus = Pending | Accepted | Rejected

  datatype Bid = Bid(
    id: string,
    taskId: string,
    workerId: string,
    amount: real,
    message: Option<string>,
    status: BidStatus,
    createdAt: string)

  datatype Budget = Budget(min: real, max: real)

  /** A task whose embedded bids have type `B`: plain `Bid`s in the store,
      bids joined with their workers in the result of `getTaskWithBids`. */
  datatype TaskOf<B> = TaskOf(
    id: string,
    title: string,
    description: string,
    category: string,
    subcategory: string,
    clientId: string,
    status: string,
    budget: Budget,
    location: Location,
    images: seq<string>,
    createdAt: string,
    deadline: string,
    bids: seq<B>)

  type Task = TaskOf<Bid>

  /** A bid together with the user its `workerId` names, if any. */
  datatype BidWithWorker = BidWithWorker(bid: Bid, worker: Option<User>)

  type TaskWithBids = TaskOf<BidWithWorker>

  /** A task together with the user its `clientId` names, if any. */
  datatype TaskWithClient = TaskWithClient(task: Task, client: Option<User>)

  /** `{...task, bids}`: the same task with its bids replaced. */
  function WithBids<A, B>(task: TaskOf<A>, bids: seq<B>): (r: TaskOf<B>)
    ensures r.bids == bids && SameExceptBids(r, task)
  {
    TaskOf(task.id, task.title, task.description, task.category, task.subcategory, task.clientId,
           task.status, task.budget, task.location, task.images, task.createdAt, task.deadline, bids)
  }

  /** `x` and `y` agree on every field except their bids. */
  ghost predicate SameExceptBids<A, B>(x: TaskOf<A>, y: TaskOf<B>) {
    && x.id == y.id && x.title == y.title && x.description == y.description
    && x.category == y.category && x.subcategory == y.subcategory
    && x.clientId == y.clientId && x.status == y.status && x.budget == y.budget
    && x.location == y.location && x.images == y.images
    && x.createdAt == y.createdAt && x.deadline == y.deadline
  }
}
