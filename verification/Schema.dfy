/** The rows of the bus database (internal/db/schema.go, internal/models) and the
    two ways the code asks whether a list of parents is done. */
module Schema {
  datatype Option<+T> = None | Some(value: T)

  type TaskId = string
  type GateId = string
  type AgentName = string

  datatype Status = Pending | Claimed | InProgress | Blocked | Completed | Failed

  /** What a client sends to create a task; `now` is the server clock. */
  datatype TaskInput = TaskInput(
    assignee: AgentName,
    priority: int,
    parents: seq<TaskId>,
    requiredSkills: seq<string>,
    maxRetries: int,
    now: int)

  datatype Task = Task(
    status: Status,
    assignee: AgentName,
    priority: int,
    parents: seq<TaskId>,
    requiredSkills: seq<string>,
    maxRetries: int,
    retryCount: int,
    createdAt: int,
    lastHeartbeat: Option<int>)

  type Tasks = map<TaskId, Task>

  datatype GateStatus = Unasked | Asked | Answered | Resolved

  datatype Gate = Gate(taskId: TaskId, status: GateStatus, answer: string, answeredAt: Option<int>)

  type Gates = map<GateId, Gate>

  datatype Agent = Agent(skills: seq<string>, webhookUrl: string, lastHeartbeat: Option<int>)

  type Agents = map<AgentName, Agent>

  datatype EventKind =
    | CreateTask
    | ClaimTask
    | StartTask
    | BlockTask
    | UpdateStatus
    | CompleteTask
    | FailTask
    | TaskRetry
    | PendingTimeout
    | TaskHeartbeatTimeout
    | StaleAgentRelease
    | ParentsCompleted

  datatype Event = Event(task: TaskId, kind: EventKind, agent: AgentName)

  /** The row the create handler inserts: pending, with no retry used yet. */
  function NewTask(input: TaskInput): Task {
    Task(Pending, input.assignee, input.priority, input.parents, input.requiredSkills,
         input.maxRetries, 0, input.now, None)
  }

  function NewGate(task: TaskId): Gate {
    Gate(task, Unasked, "", None)
  }

  predicate Held(status: Status) {
    status == Claimed || status == InProgress
  }

  /** The states a task can only be in after a claim that was not undone. */
  predicate Owned(status: Status) {
    Held(status) || status == Blocked
  }

  predicate IsCompleted(tasks: Tasks, id: TaskId) {
    id in tasks && tasks[id].status == Completed
  }

  /** The plain check: each listed parent is there and completed. */
  predicate AllCompleted(tasks: Tasks, ids: seq<TaskId>) {
    forall i | 0 <= i < |ids| :: IsCompleted(tasks, ids[i])
  }

  predicate NoDuplicates<T(==)>(s: seq<T>) {
    forall i, j | 0 <= i < j < |s| :: s[i] != s[j]
  }

  /** The rows that `id IN (...) AND status = 'completed'` selects. */
  function CompletedAmong(tasks: Tasks, ids: seq<TaskId>): set<TaskId> {
    set id | id in ids && IsCompleted(tasks, id)
  }

  /** The counting check: the number of selected rows equals the length of the list. */
  predicate CountSaysDone(tasks: Tasks, ids: seq<TaskId>) {
    |ids| == 0 || |CompletedAmong(tasks, ids)| == |ids|
  }

  function Elements<T(==)>(s: seq<T>): set<T> {
    set x | x in s
  }

  lemma {:induction false} ElementsCount<T>(s: seq<T>)
    ensures |Elements(s)| <= |s|
    ensures |Elements(s)| == |s| <==> NoDuplicates(s)
  {
    if s != [] {
      var front, x := s[..|s| - 1], s[|s| - 1];
      ElementsCount(front);
      assert s == front + [x];
      assert Elements(s) == Elements(front) + {x};
      if x in front {
        assert Elements(s) == Elements(front);
        var i :| 0 <= i < |front| && front[i] == x;
        assert s[i] == s[|s| - 1];
      } else {
        assert NoDuplicates(s) <==> NoDuplicates(front) by {
          if NoDuplicates(s) {
            forall i, j | 0 <= i < j < |front| ensures front[i] != front[j] {
              assert s[i] != s[j];
            }
          }
        }
      }
    }
  }

  /** The counting check accepts exactly the duplicate-free lists the plain check accepts. */
  lemma CountingCheckExact(tasks: Tasks, ids: seq<TaskId>)
    ensures CountSaysDone(tasks, ids) <==> AllCompleted(tasks, ids) && NoDuplicates(ids)
  {
    ElementsCount(ids);
    var done := CompletedAmong(tasks, ids);
    assert done <= Elements(ids);
    SubsetCount(done, Elements(ids));
    if AllCompleted(tasks, ids) {
      assert done == Elements(ids);
    } else {
      var i :| 0 <= i < |ids| && !IsCompleted(tasks, ids[i]);
      assert ids[i] in Elements(ids) && ids[i] !in done;
    }
  }

  lemma SubsetCount<T>(a: set<T>, b: set<T>)
    requires a <= b
    ensures |a| <= |b|
    ensures |a| == |b| ==> a == b
  {
    assert b == a + (b - a);
  }

  /** So the two checks of the code differ exactly on completed lists with a repeated parent. */
  lemma CountingCheckVersusPlain(tasks: Tasks, ids: seq<TaskId>)
    ensures CountSaysDone(tasks, ids) ==> AllCompleted(tasks, ids)
    ensures (CountSaysDone(tasks, ids) <==> AllCompleted(tasks, ids))
       <==> (NoDuplicates(ids) || !AllCompleted(tasks, ids))
  {
    CountingCheckExact(tasks, ids);
  }

  // ---- What single statements select and write ----

  /** The rows `parents LIKE '%id%' AND status = 'pending'` returns: the pending children,
      and possibly other pending tasks whose list only contains the id as a substring. */
  function MatchedChildren(tasks: Tasks, id: TaskId, spurious: set<TaskId>): set<TaskId> {
    set c | c in tasks && tasks[c].status == Pending && (id in tasks[c].parents || c in spurious)
  }

  predicate MayRetry(row: Task) {
    row.maxRetries > 0 && row.retryCount < row.maxRetries
  }

  function RetriedRow(row: Task): Task {
    row.(status := Pending, retryCount := row.retryCount + 1, assignee := "")
  }

  function HeldBy(tasks: Tasks, agent: AgentName): set<TaskId> {
    set id | id in tasks && tasks[id].assignee == agent && Held(tasks[id].status)
  }

  function ReleasedRow(row: Task): Task {
    row.(status := Pending, assignee := "")
  }
}
