/** The event log read as an audit trail: what replaying it says about a task. */
module Audit {
  import opened Schema

  datatype Snapshot = Snapshot(status: Status, assignee: AgentName, retryCount: int)

  function SnapshotOf(row: Task): Snapshot {
    Snapshot(row.status, row.assignee, row.retryCount)
  }

  /** One event read back. UpdateStatus is only ever logged for a move to in_progress. */
  function ReplayOne(was: Option<Snapshot>, event: Event): Option<Snapshot> {
    match event.kind
    case CreateTask => Some(Snapshot(Pending, event.agent, 0))
    case _ =>
      match was
      case None => None
      case Some(w) =>
        match event.kind
        case ClaimTask => Some(w.(status := Claimed, assignee := event.agent))
        case StartTask => Some(w.(status := InProgress))
        case BlockTask => Some(w.(status := Blocked))
        case UpdateStatus => Some(w.(status := InProgress))
        case CompleteTask => Some(w.(status := Completed))
        case FailTask => Some(w.(status := Failed))
        case TaskRetry => Some(Snapshot(Pending, "", w.retryCount + 1))
        case PendingTimeout => Some(w.(status := Failed))
        case TaskHeartbeatTimeout => Some(w.(status := Failed))
        case StaleAgentRelease => Some(w.(status := Pending, assignee := ""))
        case ParentsCompleted => was
        case CreateTask => was
  }

  function Replay(events: seq<Event>, t: TaskId): Option<Snapshot> {
    if events == [] then None
    else
      var was := Replay(events[..|events| - 1], t);
      var last := events[|events| - 1];
      if last.task == t then ReplayOne(was, last) else was
  }

  /** The log says of every task exactly what its row says, and nothing of other ids. */
  ghost predicate TellsState(events: seq<Event>, tasks: Tasks) {
    forall t {:trigger Replay(events, t)} ::
      Replay(events, t) == if t in tasks then Some(SnapshotOf(tasks[t])) else None
  }

  lemma ReplayAppend(events: seq<Event>, e: Event, t: TaskId)
    ensures Replay(events + [e], t) == if e.task == t then ReplayOne(Replay(events, t), e) else Replay(events, t)
  {
    assert (events + [e])[..|events|] == events;
  }

  /** Logging the event that a row change stands for keeps the log truthful. */
  lemma TellsAfter(events: seq<Event>, tasks: Tasks, e: Event, row: Task)
    requires TellsState(events, tasks)
    requires ReplayOne(if e.task in tasks then Some(SnapshotOf(tasks[e.task])) else None, e) == Some(SnapshotOf(row))
    ensures TellsState(events + [e], tasks[e.task := row])
  {
    forall t ensures Replay(events + [e], t)
      == if t in tasks[e.task := row] then Some(SnapshotOf(tasks[e.task := row][t])) else None
    {
      ReplayAppend(events, e, t);
    }
  }

  /** A log that tells two tables finds the same tasks in both, and in each the same status,
      owner and number of retries. */
  lemma TrailDetermines(events: seq<Event>, tasks: Tasks, tasks': Tasks)
    requires TellsState(events, tasks) && TellsState(events, tasks')
    ensures tasks.Keys == tasks'.Keys
    ensures forall t | t in tasks ::
              && tasks[t].status == tasks'[t].status && tasks[t].assignee == tasks'[t].assignee
              && tasks[t].retryCount == tasks'[t].retryCount
  {
    forall t
      ensures t in tasks <==> t in tasks'
      ensures t in tasks ==> SnapshotOf(tasks[t]) == SnapshotOf(tasks'[t])
    {
      assert Replay(events, t) == if t in tasks then Some(SnapshotOf(tasks[t])) else None;
    }
  }

  function EventsFor(ids: seq<TaskId>, kind: EventKind): seq<Event> {
    seq(|ids|, i requires 0 <= i < |ids| => Event(ids[i], kind, ""))
  }

  lemma EventsForAppend(ids: seq<TaskId>, id: TaskId, kind: EventKind)
    ensures EventsFor(ids + [id], kind) == EventsFor(ids, kind) + [Event(id, kind, "")]
  {
  }
}
