/** The database, the broker and the workers' memory as one value, and the single
    mutation point of a task's status with the cascade it triggers through the
    dependency graph. */
module Store {
  import opened Rows

  datatype Edge = Edge(parent: TaskId, child: TaskId)

  datatype OutboxStatus = Pending | Sent

  datatype OutboxRow = OutboxRow(task: TaskId, status: OutboxStatus, attempts: nat, processedAt: Option<Time>)

  datatype Subscription = Subscription(active: bool, everything: bool, events: set<EventKind>)

  datatype DeliveryStatus = DeliveryPending | DeliverySent | DeliveryFailed

  datatype Delivery = Delivery(
    subscription: nat, kind: EventKind, task: TaskId, reported: Status,
    status: DeliveryStatus, attempts: nat, nextRetryAt: Time)

  /** One execution of one task by one worker, from the first transaction to the second. */
  datatype Flight = Flight(task: TaskId, number: nat)

  datatype State = State(
    tasks: map<TaskId, Task>,
    edges: seq<Edge>,
    outbox: map<nat, OutboxRow>,
    subs: seq<Subscription>,
    hooks: seq<Delivery>,
    broker: multiset<TaskId>,
    flights: map<Flight, TaskSnapshot>,
    nextTask: TaskId,
    nextOutbox: nat,
    now: Time)

  // ---------- the dependency graph ----------

  function ChildrenOf(edges: seq<Edge>, parent: TaskId): (kids: seq<TaskId>)
    ensures forall c :: c in kids <==> Edge(parent, c) in edges
  {
    if edges == [] then []
    else
      assert edges == [edges[0]] + edges[1..];
      (if edges[0].parent == parent then [edges[0].child] else []) + ChildrenOf(edges[1..], parent)
  }

  function ParentsOf(edges: seq<Edge>, child: TaskId): (parents: seq<TaskId>)
    ensures forall p :: p in parents <==> Edge(p, child) in edges
  {
    if edges == [] then []
    else
      assert edges == [edges[0]] + edges[1..];
      (if edges[0].child == child then [edges[0].parent] else []) + ParentsOf(edges[1..], child)
  }

  function StatusesOf(tasks: map<TaskId, Task>, ids: seq<TaskId>): (r: set<Status>) {
    set id | id in ids && id in tasks :: tasks[id].status
  }

  predicate AllParentsSucceeded(s: State, child: TaskId) {
    var parents := ParentsOf(s.edges, child);
    if parents == [] then true
    else StatusesOf(s.tasks, parents) == {Success}
  }

  // ---------- writing a status ----------

  predicate Matches(sub: Subscription, kind: EventKind) {
    sub.everything || kind in sub.events
  }

  /** The webhook deliveries queued for one event: one per matching active subscription. */
  function DeliveriesFor(subs: seq<Subscription>, kind: EventKind, task: TaskId, reported: Status, now: Time): seq<Delivery> {
    if subs == [] then []
    else
      var last := |subs| - 1;
      DeliveriesFor(subs[..last], kind, task, reported, now)
      + if subs[last].active && Matches(subs[last], kind)
        then [Delivery(last, kind, task, reported, DeliveryPending, 0, now)] else []
  }

  /** The write itself: row, event and deliveries. */
  function Put(s: State, id: TaskId, next: Status, kind: EventKind): State
    requires id in s.tasks
  {
    s.(tasks := s.tasks[id := Moved(s.tasks[id], next, kind, s.now)],
       hooks := s.hooks + DeliveriesFor(s.subs, kind, id, next, s.now))
  }

  function AddOutbox(s: State, id: TaskId): State {
    s.(outbox := s.outbox[s.nextOutbox := OutboxRow(id, Pending, 0, None)], nextOutbox := s.nextOutbox + 1)
  }

  /** Entering `queued` always comes with one outbox row. */
  function Release(s: State, id: TaskId, kind: EventKind): State
    requires id in s.tasks
  {
    AddOutbox(Put(s, id, Queued, kind), id)
  }

  function CreatedTasks(s: State): set<TaskId> {
    set id | id in s.tasks && s.tasks[id].status == Created
  }

  predicate Applies(s: State, id: TaskId, next: Status) {
    id in s.tasks && s.tasks[id].status != next && CanTransition(s.tasks[id].status, next)
  }

  /** The single mutation point: an invalid transition is refused and changes
      nothing, and a terminal status is passed on to the children. */
  function SetStatus(s: State, id: TaskId, next: Status, kind: EventKind): (r: State)
    ensures CreatedTasks(r) <= CreatedTasks(s)
    ensures r.edges == s.edges && r.tasks.Keys == s.tasks.Keys
    decreases CreatedTasks(s) - {id}, 1, 0
  {
    if !Applies(s, id, next) then s
    else
      var moved := Put(s, id, next, kind);
      assert CreatedTasks(moved) == CreatedTasks(s) - {id};
      if Terminal(next) then Advance(moved, next, ChildrenOf(s.edges, id)) else moved
  }

  /** The loop over the children of a task that has just reached the terminal status `reached`. */
  function Advance(s: State, reached: Status, kids: seq<TaskId>): (r: State)
    ensures CreatedTasks(r) <= CreatedTasks(s)
    ensures r.edges == s.edges && r.tasks.Keys == s.tasks.Keys
    decreases CreatedTasks(s), 0, |kids|
  {
    if kids == [] then s
    else Advance(AdvanceChild(s, reached, kids[0]), reached, kids[1..])
  }

  function AdvanceChild(s: State, reached: Status, child: TaskId): (r: State)
    ensures CreatedTasks(r) <= CreatedTasks(s)
    ensures r.edges == s.edges && r.tasks.Keys == s.tasks.Keys
    decreases CreatedTasks(s), 0, 0
  {
    if child !in s.tasks || s.tasks[child].status != Created then s
    else if reached != Success then SetStatus(s, child, Cancelled, TaskCancelled)
    else if AllParentsSucceeded(s, child) then
      var released := Release(s, child, TaskUnblocked);
      assert CreatedTasks(released) <= CreatedTasks(s);
      released
    else s
  }
}
