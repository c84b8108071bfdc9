/** The in-memory task queue: a deque of ids that may hold stale and repeated entries, over a table of tasks. */
module TaskQueue {
  import opened Common

  datatype TaskType = ConfirmTx | BridgeRelay | IcmDeliver | SettleEventTask

  datatype Status = Pending | Running | Completed | Failed

  datatype Entry = Entry(taskType: TaskType, payload: string, status: Status,
                         result: Option<string>, error: Option<string>, retries: nat)

  /** The queue as a value: the task table, and the ids in the deque from front to back. */
  datatype Queue = Queue(tasks: map<string, Entry>, order: seq<string>)

  datatype QueueError = TaskNotFound | MaxRetries

  ghost predicate IsPending(q: Queue, id: string) {
    id in q.tasks && q.tasks[id].status == Pending
  }

  ghost function PendingIds(q: Queue): set<string> {
    set id | id in q.tasks && q.tasks[id].status == Pending
  }

  // ---- The operations ----

  function Enqueue(q: Queue, id: string, taskType: TaskType, payload: string): Queue {
    Queue(q.tasks[id := Entry(taskType, payload, Pending, None, None, 0)], q.order + [id])
  }

  function Dequeue(q: Queue): (Queue, Option<string>)
    decreases |q.order|
  {
    if q.order == [] then (q, None)
    else
      var id, rest := q.order[0], q.(order := q.order[1..]);
      if id in q.tasks && q.tasks[id].status == Pending
      then (rest.(tasks := q.tasks[id := q.tasks[id].(status := Running)]), Some(id))
      else Dequeue(rest)
  }

  function Complete(q: Queue, id: string, result: Option<string>): Result<Queue, QueueError> {
    if id !in q.tasks then Err(TaskNotFound)
    else Ok(q.(tasks := q.tasks[id := q.tasks[id].(status := Completed, result := result)]))
  }

  function Fail(q: Queue, id: string, error: string): Result<Queue, QueueError> {
    if id !in q.tasks then Err(TaskNotFound)
    else Ok(q.(tasks := q.tasks[id := q.tasks[id].(status := Failed, error := Some(error))]))
  }

  /** A retry puts the id at the back again, whatever the task's status and whether or not it is still queued. */
  function Retry(q: Queue, id: string, maxRetries: int): Result<Queue, QueueError> {
    if id !in q.tasks then Err(TaskNotFound)
    else if q.tasks[id].retries >= maxRetries then Err(MaxRetries)
    else Ok(Queue(q.tasks[id := q.tasks[id].(status := Pending, error := None, retries := q.tasks[id].retries + 1)],
                  q.order + [id]))
  }

  // ---- The deque and the pending tasks ----

  function Budget(maxRetries: int): nat {
    if maxRetries < 0 then 0 else maxRetries
  }

  ghost predicate Sound(q: Queue, maxRetries: int) {
    && (forall id :: IsPending(q, id) ==> id in q.order)
    && (forall id :: id in q.tasks ==> q.tasks[id].retries <= Budget(maxRetries))
  }

  /** The index of the entry that a dequeue takes. */
  ghost predicate Earliest(q: Queue, i: nat) {
    && i < |q.order| && IsPending(q, q.order[i])
    && forall j :: 0 <= j < i ==> !IsPending(q, q.order[j])
  }

  lemma {:induction false} DequeueTakesEarliest(q: Queue)
    ensures Dequeue(q).1.None? ==>
              (forall i :: 0 <= i < |q.order| ==> !IsPending(q, q.order[i])) && Dequeue(q).0 == q.(order := [])
    ensures Dequeue(q).1.Some? ==>
              var id := Dequeue(q).1.value;
              exists i: nat :: Earliest(q, i) && q.order[i] == id
                && Dequeue(q).0 == Queue(q.tasks[id := q.tasks[id].(status := Running)], q.order[i + 1..])
    decreases |q.order|
  {
    if q.order == [] {
    } else if IsPending(q, q.order[0]) {
      assert Earliest(q, 0);
    } else {
      var rest := q.(order := q.order[1..]);
      DequeueTakesEarliest(rest);
      if Dequeue(rest).1.Some? {
        var i: nat :| Earliest(rest, i) && rest.order[i] == Dequeue(rest).1.value
                 && Dequeue(rest).0
                      == Queue(rest.tasks[rest.order[i] := rest.tasks[rest.order[i]].(status := Running)],
                               rest.order[i + 1..]);
        assert Earliest(q, i + 1);
        assert q.order[i + 2..] == rest.order[i + 1..];
      } else {
        forall i | 0 <= i < |q.order| ensures !IsPending(q, q.order[i]) {
          if i > 0 {
            assert rest.order[i - 1] == q.order[i];
          }
        }
      }
    }
  }

  /** Nothing comes out exactly when nothing is pending; otherwise one pending task starts running. */
  lemma DequeueServesPending(q: Queue, maxRetries: int)
    requires Sound(q, maxRetries)
    ensures Dequeue(q).1.None? <==> PendingIds(q) == {}
    ensures Dequeue(q).1.Some? ==>
              && Dequeue(q).1.value in PendingIds(q)
              && PendingIds(Dequeue(q).0) == PendingIds(q) - {Dequeue(q).1.value}
              && |PendingIds(Dequeue(q).0)| == |PendingIds(q)| - 1
    ensures Sound(Dequeue(q).0, maxRetries)
  {
    DequeueTakesEarliest(q);
    if Dequeue(q).1.None? {
      forall id ensures id !in PendingIds(q) {
        if id in PendingIds(q) {
          assert IsPending(q, id);
        }
      }
      forall id ensures !IsPending(Dequeue(q).0, id) {
        assert IsPending(q, id) ==> id in PendingIds(q);
      }
    } else {
      var id, next := Dequeue(q).1.value, Dequeue(q).0;
      var i: nat :| Earliest(q, i) && q.order[i] == id && next.order == q.order[i + 1..];
      assert id in PendingIds(q);
      assert PendingIds(next) == PendingIds(q) - {id};
      forall x | IsPending(next, x) ensures x in next.order {
        assert IsPending(q, x);
        var j :| 0 <= j < |q.order| && q.order[j] == x;
        assert next.order[j - i - 1] == x;
      }
    }
  }

  // ---- Runs ----

  datatype Op =
    | DoEnqueue(id: string, taskType: TaskType, payload: string)
    | DoDequeue
    | DoComplete(id: string, result: Option<string>)
    | DoFail(id: string, error: string)
    | DoRetry(id: string)

  function OrSame(r: Result<Queue, QueueError>, q: Queue): Queue {
    match r
    case Ok(next) => next
    case Err(_) => q
  }

  function Step(q: Queue, maxRetries: int, op: Op): Queue {
    match op
    case DoEnqueue(id, taskType, payload) => Enqueue(q, id, taskType, payload)
    case DoDequeue => Dequeue(q).0
    case DoComplete(id, result) => OrSame(Complete(q, id, result), q)
    case DoFail(id, error) => OrSame(Fail(q, id, error), q)
    case DoRetry(id) => OrSame(Retry(q, id, maxRetries), q)
  }

  /** Ids are fresh. */
  ghost predicate Legal(q: Queue, maxRetries: int, ops: seq<Op>)
    decreases |ops|
  {
    ops == [] || ((ops[0].DoEnqueue? ==> ops[0].id !in q.tasks)
                  && Legal(Step(q, maxRetries, ops[0]), maxRetries, ops[1..]))
  }

  function Run(q: Queue, maxRetries: int, ops: seq<Op>): Queue
    decreases |ops|
  {
    if ops == [] then q else Run(Step(q, maxRetries, ops[0]), maxRetries, ops[1..])
  }

  /** How often a run hands one task out. */
  function Served(q: Queue, maxRetries: int, ops: seq<Op>, id: string): nat
    decreases |ops|
  {
    if ops == [] then 0
    else
      (if ops[0].DoDequeue? && Dequeue(q).1 == Some(id) then 1 else 0)
      + Served(Step(q, maxRetries, ops[0]), maxRetries, ops[1..], id)
  }

  lemma StepKeepsSound(q: Queue, maxRetries: int, op: Op)
    requires Sound(q, maxRetries)
    ensures Sound(Step(q, maxRetries, op), maxRetries)
  {
    if op.DoDequeue? {
      DequeueServesPending(q, maxRetries);
    } else {
      var next := Step(q, maxRetries, op);
      forall id | IsPending(next, id) ensures id in next.order {
        assert IsPending(q, id) || id == op.id;
        assert op.DoEnqueue? ==> next.order[|q.order|] == op.id;
      }
    }
  }

  /** Whenever a task is pending its id is in the deque, in every reachable state. */
  lemma {:induction false} RunKeepsSound(q: Queue, maxRetries: int, ops: seq<Op>)
    requires Sound(q, maxRetries)
    ensures Sound(Run(q, maxRetries, ops), maxRetries)
    decreases |ops|
  {
    if ops != [] {
      StepKeepsSound(q, maxRetries, ops[0]);
      RunKeepsSound(Step(q, maxRetries, ops[0]), maxRetries, ops[1..]);
    }
  }

  /** What a task may still be handed out: once if it is pending, and not before its next retry otherwise. */
  ghost function Owed(q: Queue, id: string): int {
    if id !in q.tasks then 0 else q.tasks[id].retries + (if q.tasks[id].status == Pending then 0 else 1)
  }

  lemma StepOwes(q: Queue, maxRetries: int, op: Op, id: string)
    requires op.DoEnqueue? ==> op.id !in q.tasks
    ensures id in q.tasks ==> id in Step(q, maxRetries, op).tasks
    ensures (if op.DoDequeue? && Dequeue(q).1 == Some(id) then 1 else 0) + Owed(q, id)
              <= Owed(Step(q, maxRetries, op), id)
  {
    if op.DoDequeue? {
      DequeueTakesEarliest(q);
    }
  }

  lemma {:induction false} RunOwes(q: Queue, maxRetries: int, ops: seq<Op>, id: string)
    requires Legal(q, maxRetries, ops)
    ensures Served(q, maxRetries, ops, id) + Owed(q, id) <= Owed(Run(q, maxRetries, ops), id)
    decreases |ops|
  {
    if ops != [] {
      StepOwes(q, maxRetries, ops[0], id);
      RunOwes(Step(q, maxRetries, ops[0]), maxRetries, ops[1..], id);
    }
  }

  const EMPTY_QUEUE := Queue(map[], [])

  /** Over any run a task is handed out at most once more than it was retried, and the retries stay in their limit. */
  lemma ServedAtMostOncePerTry(maxRetries: int, ops: seq<Op>, id: string)
    requires Legal(EMPTY_QUEUE, maxRetries, ops)
    ensures var end := Run(EMPTY_QUEUE, maxRetries, ops);
            && (id !in end.tasks ==> Served(EMPTY_QUEUE, maxRetries, ops, id) == 0)
            && (id in end.tasks ==>
                 Served(EMPTY_QUEUE, maxRetries, ops, id) <= 1 + end.tasks[id].retries <= 1 + Budget(maxRetries))
  {
    RunOwes(EMPTY_QUEUE, maxRetries, ops, id);
    RunKeepsSound(EMPTY_QUEUE, maxRetries, ops);
  }

  // ---- What a task shows ----

  /** The operation changes the task: it makes it, serves it, or is accepted for it. */
  ghost predicate TakesEffect(q: Queue, maxRetries: int, op: Op, id: string) {
    match op
    case DoEnqueue(x, _, _) => x == id
    case DoDequeue => exists i: nat :: Earliest(q, i) && q.order[i] == id
    case DoComplete(x, _) => x == id && id in q.tasks
    case DoFail(x, _) => x == id && id in q.tasks
    case DoRetry(x) => x == id && id in q.tasks && q.tasks[id].retries < maxRetries
  }

  ghost function LastEffect(q: Queue, maxRetries: int, ops: seq<Op>, id: string): Option<Op>
    decreases |ops|
  {
    if ops == [] then None
    else
      var later := LastEffect(Step(q, maxRetries, ops[0]), maxRetries, ops[1..], id);
      if later.Some? then later
      else if TakesEffect(q, maxRetries, ops[0], id) then Some(ops[0])
      else None
  }

  ghost function RetriesOf(q: Queue, maxRetries: int, ops: seq<Op>, id: string): nat
    decreases |ops|
  {
    if ops == [] then 0
    else
      (if ops[0] == DoRetry(id) && TakesEffect(q, maxRetries, ops[0], id) then 1 else 0)
      + RetriesOf(Step(q, maxRetries, ops[0]), maxRetries, ops[1..], id)
  }

  /** The result of the last complete that took effect. */
  ghost function ResultOf(q: Queue, maxRetries: int, ops: seq<Op>, id: string, before: Option<string>): Option<string>
    decreases |ops|
  {
    if ops == [] then before
    else
      ResultOf(Step(q, maxRetries, ops[0]), maxRetries, ops[1..], id,
               if ops[0].DoComplete? && TakesEffect(q, maxRetries, ops[0], id) then ops[0].result else before)
  }

  /** The error of the last fail that took effect, unless a retry cleared it since. */
  ghost function ErrorOf(q: Queue, maxRetries: int, ops: seq<Op>, id: string, before: Option<string>): Option<string>
    decreases |ops|
  {
    if ops == [] then before
    else
      ErrorOf(Step(q, maxRetries, ops[0]), maxRetries, ops[1..], id,
              if !TakesEffect(q, maxRetries, ops[0], id) then before
              else if ops[0].DoFail? then Some(ops[0].error)
              else if ops[0].DoRetry? then None
              else before)
  }

  /** The task's columns are what this operation left. */
  ghost predicate Shows(task: Entry, op: Op) {
    && (task.status == Completed <==> op.DoComplete?) && (op.DoComplete? ==> task.result == op.result)
    && (task.status == Failed <==> op.DoFail?) && (op.DoFail? ==> task.error == Some(op.error))
    && (task.status == Running <==> op.DoDequeue?)
    && (task.status == Pending <==> op.DoEnqueue? || op.DoRetry?)
    && (task.status == Pending || task.status == Running ==> task.error == None)
    && (op.DoEnqueue? ==> task == Entry(op.taskType, op.payload, Pending, None, None, 0))
  }

  /** What came with the task's enqueue stays. */
  ghost predicate SameWork(task: Entry, next: Entry) {
    task.taskType == next.taskType && task.payload == next.payload
  }

  ghost predicate NoErrorBefore(q: Queue) {
    forall id :: id in q.tasks && (q.tasks[id].status == Pending || q.tasks[id].status == Running) ==>
      q.tasks[id].error == None
  }

  lemma DequeueServes(q: Queue, id: string)
    ensures (exists i: nat :: Earliest(q, i) && q.order[i] == id) <==> Dequeue(q).1 == Some(id)
  {
    DequeueTakesEarliest(q);
    if i: nat :| Earliest(q, i) && q.order[i] == id {
      if Dequeue(q).1.Some? {
        var j: nat :| Earliest(q, j) && q.order[j] == Dequeue(q).1.value;
        assert !(i < j) && !(j < i);
      }
    }
  }

  lemma StepShows(q: Queue, maxRetries: int, op: Op, id: string)
    requires NoErrorBefore(q) && (op.DoEnqueue? ==> op.id !in q.tasks)
    ensures NoErrorBefore(Step(q, maxRetries, op))
    ensures var n := Step(q, maxRetries, op);
            if TakesEffect(q, maxRetries, op, id) then
              && id in n.tasks && Shows(n.tasks[id], op)
              && (id in q.tasks <==> !op.DoEnqueue?)
              && (id in q.tasks ==>
                   && SameWork(q.tasks[id], n.tasks[id])
                   && n.tasks[id].retries == q.tasks[id].retries + (if op.DoRetry? then 1 else 0)
                   && (!op.DoComplete? ==> n.tasks[id].result == q.tasks[id].result)
                   && n.tasks[id].error == if op.DoFail? then Some(op.error) else if op.DoRetry? then None
                                           else q.tasks[id].error)
            else
              (id in n.tasks <==> id in q.tasks) && (id in q.tasks ==> n.tasks[id] == q.tasks[id])
  {
    if op.DoDequeue? {
      DequeueServes(q, id);
      DequeueTakesEarliest(q);
    }
  }

  lemma {:induction false} RunShows(q: Queue, maxRetries: int, ops: seq<Op>, id: string)
    requires NoErrorBefore(q) && Legal(q, maxRetries, ops)
    ensures var n, last := Run(q, maxRetries, ops), LastEffect(q, maxRetries, ops, id);
            && (id in n.tasks <==> id in q.tasks || last.Some?)
            && (last.Some? ==> Shows(n.tasks[id], last.value))
            && (last.None? && id in q.tasks ==> n.tasks[id] == q.tasks[id])
            && (id in q.tasks ==>
                 && SameWork(q.tasks[id], n.tasks[id])
                 && n.tasks[id].retries == q.tasks[id].retries + RetriesOf(q, maxRetries, ops, id)
                 && n.tasks[id].result == ResultOf(q, maxRetries, ops, id, q.tasks[id].result)
                 && n.tasks[id].error == ErrorOf(q, maxRetries, ops, id, q.tasks[id].error))
            && (id in n.tasks && id !in q.tasks ==>
                 && n.tasks[id].retries == RetriesOf(q, maxRetries, ops, id)
                 && n.tasks[id].result == ResultOf(q, maxRetries, ops, id, None)
                 && n.tasks[id].error == ErrorOf(q, maxRetries, ops, id, None)
                 && DoEnqueue(id, n.tasks[id].taskType, n.tasks[id].payload) in ops)
            && (id !in n.tasks ==> RetriesOf(q, maxRetries, ops, id) == 0)
    decreases |ops|
  {
    if ops != [] {
      var next := Step(q, maxRetries, ops[0]);
      StepShows(q, maxRetries, ops[0], id);
      RunShows(next, maxRetries, ops[1..], id);
      hide Step, TakesEffect, NoErrorBefore, Shows;
      assert id !in q.tasks && id in next.tasks ==> ops[0].DoEnqueue? && TakesEffect(q, maxRetries, ops[0], id);
    }
  }

  /**
   After every run a task is there exactly when some operation took effect on it, and shows the last one: completed with
   its result, failed with its error, running since it was served, or pending without an error after its enqueue or a
   retry. Its kind and payload are those of its enqueue, and its count is that of its accepted retries.
   */
  lemma TaskShowsLastEffect(maxRetries: int, ops: seq<Op>, id: string)
    requires Legal(EMPTY_QUEUE, maxRetries, ops)
    ensures var n, last := Run(EMPTY_QUEUE, maxRetries, ops), LastEffect(EMPTY_QUEUE, maxRetries, ops, id);
            && (id in n.tasks <==> last.Some?)
            && (id in n.tasks ==>
                 && Shows(n.tasks[id], last.value)
                 && DoEnqueue(id, n.tasks[id].taskType, n.tasks[id].payload) in ops
                 && n.tasks[id].retries == RetriesOf(EMPTY_QUEUE, maxRetries, ops, id)
                 && n.tasks[id].result == ResultOf(EMPTY_QUEUE, maxRetries, ops, id, None)
                 && n.tasks[id].error == ErrorOf(EMPTY_QUEUE, maxRetries, ops, id, None))
  {
    RunShows(EMPTY_QUEUE, maxRetries, ops, id);
  }

  /** The pending ids outside a set of ids still to be looked at. */
  ghost function CountedPending(q: Queue, left: set<string>): nat {
    |PendingIds(q) - left|
  }

  lemma CountEnds(q: Queue)
    ensures CountedPending(q, q.tasks.Keys) == 0
    ensures CountedPending(q, {}) == |PendingIds(q)|
  {
    assert PendingIds(q) - q.tasks.Keys == {};
    assert PendingIds(q) - {} == PendingIds(q);
  }

  lemma CountOneMore(q: Queue, left: set<string>, id: string)
    requires id in q.tasks && id in left
    ensures CountedPending(q, left - {id}) == CountedPending(q, left) + if q.tasks[id].status == Pending then 1 else 0
  {
    if q.tasks[id].status == Pending {
      assert PendingIds(q) - (left - {id}) == (PendingIds(q) - left) + {id};
    } else {
      assert PendingIds(q) - (left - {id}) == PendingIds(q) - left;
    }
  }

  // ---- The queue as an object over task objects ----

  class Task {
    const id: string
    const taskType: TaskType
    const payload: string
    var status: Status
    var result: Option<string>
    var error: Option<string>
    var retryCount: nat

    constructor (taskId: string, kind: TaskType, body: string)
      ensures id == taskId && taskType == kind && payload == body
      ensures status == Pending && result == None && error == None && retryCount == 0
    {
      id, taskType, payload := taskId, kind, body;
      status, result, error, retryCount := Pending, None, None, 0;
    }

    function Value(): Entry
      reads this
    {
      Entry(taskType, payload, status, result, error, retryCount)
    }
  }

  class InMemoryTaskQueue {
    const maxRetries: int
    var tasks: map<string, Task>
    var queue: seq<string>

    constructor (limit: int)
      ensures maxRetries == limit && Valid() && State() == EMPTY_QUEUE
    {
      maxRetries, tasks, queue := limit, map[], [];
    }

    ghost function Repr(): set<object>
      reads this
    {
      set id | id in tasks :: tasks[id]
    }

    /** Each task object stands under its own id. */
    ghost predicate Valid()
      reads this, Repr()
    {
      forall id :: id in tasks ==> tasks[id].id == id
    }

    ghost function State(): Queue
      reads this, Repr()
    {
      Queue(map id | id in tasks :: tasks[id].Value(), queue)
    }

    method EnqueueTask(taskType: TaskType, payload: string, id: string) returns (task: Task)
      requires Valid()
      modifies this
      ensures Valid() && State() == Enqueue(old(State()), id, taskType, payload)
      ensures id in tasks && tasks[id] == task && fresh(task)
    {
      task := new Task(id, taskType, payload);
      tasks := tasks[id := task];
      queue := queue + [id];
    }

    /** Pop ids until one names a pending task. */
    method DequeueTask() returns (task: Option<Task>)
      requires Valid()
      modifies this`queue, Repr()
      ensures Valid() && tasks == old(tasks) && State() == Dequeue(old(State())).0
      ensures match Dequeue(old(State())).1
              case None => task == None
              case Some(id) => id in tasks && task == Some(tasks[id])
    {
      while queue != []
        invariant Valid() && tasks == old(tasks)
        invariant Dequeue(State()) == Dequeue(old(State()))
        decreases |queue|
      {
        ghost var before := State();
        var id := queue[0];
        queue := queue[1..];
        assert State() == before.(order := before.order[1..]);
        if id in tasks && tasks[id].status == Pending {
          tasks[id].status := Running;
          return Some(tasks[id]);
        }
      }
      return None;
    }

    method CompleteTask(id: string, result: Option<string>) returns (r: Result<Task, QueueError>)
      requires Valid()
      modifies Repr()
      ensures Valid() && tasks == old(tasks) && queue == old(queue)
      ensures r.Ok? ==> id in tasks && tasks[id].status == Completed && tasks[id].result == result
      ensures match Complete(old(State()), id, result)
              case Ok(next) => r.Ok? && id in tasks && r.value == tasks[id] && State() == next
              case Err(e) => r.Err? && r.error == e && State() == old(State())
    {
      if id !in tasks { return Err(TaskNotFound); }
      var task := tasks[id];
      task.status := Completed;
      task.result := result;
      return Ok(task);
    }

    method FailTask(id: string, error: string) returns (r: Result<Task, QueueError>)
      requires Valid()
      modifies Repr()
      ensures Valid() && tasks == old(tasks) && queue == old(queue)
      ensures r.Ok? ==> id in tasks && tasks[id].status == Failed && tasks[id].error == Some(error)
      ensures match Fail(old(State()), id, error)
              case Ok(next) => r.Ok? && id in tasks && r.value == tasks[id] && State() == next
              case Err(e) => r.Err? && r.error == e && State() == old(State())
    {
      if id !in tasks { return Err(TaskNotFound); }
      var task := tasks[id];
      task.status := Failed;
      task.error := Some(error);
      return Ok(task);
    }

    method RetryTask(id: string) returns (r: Result<Task, QueueError>)
      requires Valid()
      modifies this`queue, Repr()
      ensures Valid() && tasks == old(tasks)
      ensures r.Ok? ==>
                && id in tasks && tasks[id].status == Pending && tasks[id].error == None
                && tasks[id].retryCount == old(tasks[id].retryCount) + 1 && queue == old(queue) + [id]
      ensures match Retry(old(State()), id, maxRetries)
              case Ok(next) => r.Ok? && id in tasks && r.value == tasks[id] && State() == next
              case Err(e) => r.Err? && r.error == e && State() == old(State())
    {
      if id !in tasks { return Err(TaskNotFound); }
      var task := tasks[id];
      if task.retryCount >= maxRetries { return Err(MaxRetries); }
      task.status := Pending;
      task.error := None;
      task.retryCount := task.retryCount + 1;
      queue := queue + [id];
      return Ok(task);
    }

    method PendingCount() returns (n: nat)
      ensures n == |PendingIds(State())|
    {
      ghost var q := State();
      n := CountStatuses(q);
      assert State().tasks == q.tasks;
      assert State() == q;
    }

    method CountStatuses(ghost q: Queue) returns (n: nat)
      requires q.tasks.Keys == tasks.Keys
      requires forall id :: id in tasks ==> q.tasks[id].status == tasks[id].status
      ensures n == |PendingIds(q)|
    {
      n := 0;
      var left := tasks.Keys;
      CountEnds(q);
      hide CountedPending, PendingIds;
      while left != {}
        invariant left <= tasks.Keys && n == CountedPending(q, left)
        decreases left
      {
        var id :| id in left;
        CountOneMore(q, left, id);
        if tasks[id].status == Pending {
          n := n + 1;
        }
        left := left - {id};
      }
    }
  }
}
