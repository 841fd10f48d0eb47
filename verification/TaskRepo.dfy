/** The database and the task repository on it, each method run as a whole
    (internal/db/task_repo.go). */
module TaskRepo {
  import opened Schema
  import opened Audit

  class Database {
    var tasks: Tasks
    var gates: Gates
    var agents: Agents
    var events: seq<Event>

    constructor ()
      ensures tasks == map[] && gates == map[] && agents == map[] && events == []
      ensures Audited()
    {
      tasks, gates, agents, events := map[], map[], map[], [];
    }

    /** Everything the bus knows of a task's state is in its event trail. */
    ghost predicate Audited()
      reads this`tasks, this`events
    {
      TellsState(events, tasks)
    }
  }

  /** What a guarded update reports: the new row, or why nothing was updated. A conflict
      names the current status, or none where the code does not look whether there is a row. */
  datatype Outcome = Done(row: Task) | NotFound | Conflict(current: Option<Status>)

  /** Pending rows older than the cutoff. */
  function OverAge(tasks: Tasks, cutoff: int): set<TaskId> {
    set t | t in tasks && tasks[t].status == Pending && tasks[t].createdAt < cutoff
  }

  /** The last sign of life of a task: its heartbeat, or its creation if it has none. */
  function LastSign(row: Task): int {
    match row.lastHeartbeat
    case Some(h) => h
    case None => row.createdAt
  }

  function Stalled(tasks: Tasks, cutoff: int): set<TaskId> {
    set t | t in tasks && tasks[t].status == InProgress && LastSign(tasks[t]) < cutoff
  }

  function WithStatus(tasks: Tasks, ids: set<TaskId>, status: Status): Tasks {
    map t | t in tasks :: if t in ids then tasks[t].(status := status) else tasks[t]
  }

  function Released(tasks: Tasks, ids: set<TaskId>): Tasks {
    map t | t in tasks :: if t in ids then ReleasedRow(tasks[t]) else tasks[t]
  }

  /** Releasing one more listed row extends the set of rows released. */
  lemma OneMoreReleased(tasks: Tasks, ids: seq<TaskId>, id: TaskId)
    requires id in tasks && id !in ids
    ensures Released(tasks, Elements(ids + [id])) == Released(tasks, Elements(ids))[id := ReleasedRow(tasks[id])]
    ensures Released(tasks, Elements(ids))[id] == tasks[id]
  {
    assert Elements(ids + [id]) == Elements(ids) + {id};
  }

  /** The listed tasks that exist and have the given status. */
  function HavingStatus(tasks: Tasks, ids: seq<TaskId>, status: Status): set<TaskId> {
    set t | t in ids && t in tasks && tasks[t].status == status
  }

  lemma HavingStatusOneMore(tasks: Tasks, ids: seq<TaskId>, id: TaskId, guard: Status)
    requires id !in ids
    ensures var before := WithStatus(tasks, HavingStatus(tasks, ids, guard), Failed);
            WithStatus(tasks, HavingStatus(tasks, ids + [id], guard), Failed)
            == if id in tasks && tasks[id].status == guard then before[id := tasks[id].(status := Failed)] else before
    ensures id in tasks ==> WithStatus(tasks, HavingStatus(tasks, ids, guard), Failed)[id] == tasks[id]
  {
    assert HavingStatus(tasks, ids + [id], guard)
        == HavingStatus(tasks, ids, guard) + if id in tasks && tasks[id].status == guard then {id} else {};
  }

  /** The event is what turns the old row, if any, into the new one. */
  predicate Stands(tasks: Tasks, id: TaskId, row: Task, kind: EventKind, agent: AgentName) {
    var was := if id in tasks then Some(SnapshotOf(tasks[id])) else None;
    ReplayOne(was, Event(id, kind, agent)) == Some(SnapshotOf(row))
  }

  /** Those of the listed tasks whose parents the counting check accepts. */
  function WithParentsDone(tasks: Tasks, ids: seq<TaskId>): set<TaskId> {
    set c | c in ids && c in tasks && CountSaysDone(tasks, tasks[c].parents)
  }

  /** `ids` names each member of `s` once. */
  predicate Lists<T(==)>(ids: seq<T>, s: set<T>) {
    NoDuplicates(ids) && Elements(ids) == s
  }

  lemma ListsOneMore<T>(ids: seq<T>, s: set<T>, id: T)
    requires Lists(ids, s) && id !in s
    ensures Lists(ids + [id], s + {id})
  {
    assert id in ids ==> id in Elements(ids);
    assert Elements(ids + [id]) == Elements(ids) + {id};
  }

  lemma PrefixOneMore<T>(ids: seq<T>, i: nat)
    requires NoDuplicates(ids) && i < |ids|
    ensures ids[..i + 1] == ids[..i] + [ids[i]] && ids[i] !in ids[..i] && ids[i] in Elements(ids)
    ensures Elements(ids[..i + 1]) == Elements(ids[..i]) + {ids[i]} && ids[i] !in Elements(ids[..i])
  {
  }

  /** Reading a result set: each selected id once, in no particular order. */
  method ScanIds<T(==)>(rows: set<T>) returns (ids: seq<T>)
    ensures Lists(ids, rows)
  {
    ids := [];
    var rest := rows;
    while rest != {}
      invariant rest <= rows && Lists(ids, rows - rest)
    {
      var id :| id in rest;
      ListsOneMore(ids, rows - rest, id);
      assert rows - (rest - {id}) == rows - rest + {id};
      ids := ids + [id];
      rest := rest - {id};
    }
    assert rows - rest == rows;
  }

  class TaskRepo {
    const db: Database

    constructor (db: Database)
      ensures this.db == db
    {
      this.db := db;
    }

    method LogTaskEvent(task: TaskId, kind: EventKind, agent: AgentName)
      modifies db`events
      ensures db.events == old(db.events) + [Event(task, kind, agent)]
    {
      db.events := db.events + [Event(task, kind, agent)];
    }

    /** Writes one row and logs what that stands for. */
    method WriteAndLog(id: TaskId, row: Task, kind: EventKind, agent: AgentName)
      modifies db`tasks, db`events
      ensures db.tasks == old(db.tasks)[id := row]
      ensures db.events == old(db.events) + [Event(id, kind, agent)]
      ensures old(db.Audited()) && Stands(old(db.tasks), id, row, kind, agent) ==> db.Audited()
    {
      if db.Audited() && Stands(db.tasks, id, row, kind, agent) {
        TellsAfter(db.events, db.tasks, Event(id, kind, agent), row);
      }
      db.tasks := db.tasks[id := row];
      LogTaskEvent(id, kind, agent);
    }

    /** Inserts a pending row and logs it; a taken id is refused and nothing changes. */
    method Create(id: TaskId, input: TaskInput) returns (ok: bool)
      modifies db`tasks, db`events
      ensures ok <==> id !in old(db.tasks)
      ensures ok ==>
                db.tasks == old(db.tasks)[id := Task(Pending, input.assignee, input.priority, input.parents,
                                                     input.requiredSkills, input.maxRetries, 0, input.now, None)]
      ensures ok ==> db.events == old(db.events) + [Event(id, CreateTask, input.assignee)]
      ensures !ok ==> db.tasks == old(db.tasks) && db.events == old(db.events)
      ensures old(db.Audited()) ==> db.Audited()
    {
      if id in db.tasks {
        return false;
      }
      WriteAndLog(id, NewTask(input), CreateTask, input.assignee);
      return true;
    }

    method ClaimTask(id: TaskId, agent: AgentName) returns (outcome: Outcome)
      modifies db`tasks, db`events
      ensures outcome.NotFound? <==> id !in old(db.tasks)
      ensures outcome.Done? <==> id in old(db.tasks) && old(db.tasks)[id].status == Pending
      ensures outcome.Conflict? ==> outcome.current == Some(old(db.tasks)[id].status)
      ensures outcome.Done? ==> outcome.row == old(db.tasks)[id].(status := Claimed, assignee := agent)
      ensures db.tasks == if outcome.Done? then old(db.tasks)[id := outcome.row] else old(db.tasks)
      ensures db.events == old(db.events) + if outcome.Done? then [Event(id, EventKind.ClaimTask, agent)] else []
      ensures old(db.Audited()) ==> db.Audited()
    {
      if id !in db.tasks {
        return NotFound;
      }
      if db.tasks[id].status != Pending {
        return Conflict(Some(db.tasks[id].status));
      }
      var row := db.tasks[id].(status := Claimed, assignee := agent);
      WriteAndLog(id, row, EventKind.ClaimTask, agent);
      return Done(row);
    }

    method StartTask(id: TaskId) returns (outcome: Outcome)
      modifies db`tasks, db`events
      ensures outcome.NotFound? <==> id !in old(db.tasks)
      ensures outcome.Done? <==> id in old(db.tasks) && old(db.tasks)[id].status == Claimed
      ensures outcome.Conflict? ==> outcome.current == Some(old(db.tasks)[id].status)
      ensures outcome.Done? ==> outcome.row == old(db.tasks)[id].(status := InProgress)
      ensures db.tasks == if outcome.Done? then old(db.tasks)[id := outcome.row] else old(db.tasks)
      ensures db.events == old(db.events) + if outcome.Done? then [Event(id, EventKind.StartTask, "")] else []
      ensures old(db.Audited()) ==> db.Audited()
    {
      if id !in db.tasks {
        return NotFound;
      }
      if db.tasks[id].status != Claimed {
        return Conflict(Some(db.tasks[id].status));
      }
      var row := db.tasks[id].(status := InProgress);
      WriteAndLog(id, row, EventKind.StartTask, "");
      return Done(row);
    }

    /** An unknown id is reported as a conflict, here and nowhere else. */
    method BlockTask(id: TaskId) returns (outcome: Outcome)
      modifies db`tasks, db`events
      ensures !outcome.NotFound?
      ensures outcome.Done? <==> id in old(db.tasks) && old(db.tasks)[id].status in {Claimed, InProgress}
      ensures outcome.Conflict? ==>
                outcome.current == if id in old(db.tasks) then Some(old(db.tasks)[id].status) else None
      ensures outcome.Done? ==> outcome.row == old(db.tasks)[id].(status := Blocked)
      ensures db.tasks == if outcome.Done? then old(db.tasks)[id := outcome.row] else old(db.tasks)
      ensures db.events == old(db.events) + if outcome.Done? then [Event(id, EventKind.BlockTask, "")] else []
      ensures old(db.Audited()) ==> db.Audited()
    {
      if id !in db.tasks {
        return Conflict(None);
      }
      if !Held(db.tasks[id].status) {
        return Conflict(Some(db.tasks[id].status));
      }
      var row := db.tasks[id].(status := Blocked);
      WriteAndLog(id, row, EventKind.BlockTask, "");
      return Done(row);
    }

    /** The unguarded update. Its event does not say which status was written, so the
        trail stays truthful only for the one status its caller writes. */
    method UpdateStatus(id: TaskId, status: Status) returns (ok: bool)
      modifies db`tasks, db`events
      ensures ok <==> id in old(db.tasks)
      ensures ok ==> db.tasks == old(db.tasks)[id := old(db.tasks)[id].(status := status)]
      ensures ok ==> db.events == old(db.events) + [Event(id, EventKind.UpdateStatus, "")]
      ensures !ok ==> db.tasks == old(db.tasks) && db.events == old(db.events)
      ensures old(db.Audited()) ==> (db.Audited() <==> !ok || status == InProgress)
    {
      if id !in db.tasks {
        return false;
      }
      ghost var events := db.events;
      WriteAndLog(id, db.tasks[id].(status := status), EventKind.UpdateStatus, "");
      if old(db.Audited()) {
        ReplayAppend(events, Event(id, EventKind.UpdateStatus, ""), id);
        assert Replay(db.events, id) == Some(SnapshotOf(db.tasks[id].(status := InProgress)));
      }
      return true;
    }

    /** Fails an in-progress task, and puts it back to pending when a retry is left. */
    method FailTask(id: TaskId) returns (outcome: Outcome, didRetry: bool)
      modifies db`tasks, db`events
      ensures outcome.NotFound? <==> id !in old(db.tasks)
      ensures outcome.Done? <==> id in old(db.tasks) && old(db.tasks)[id].status == InProgress
      ensures outcome.Conflict? ==> outcome.current == Some(old(db.tasks)[id].status)
      ensures didRetry <==> outcome.Done? && old(db.tasks)[id].maxRetries > 0
                            && old(db.tasks)[id].retryCount < old(db.tasks)[id].maxRetries
      ensures outcome.Done? ==>
                var was := old(db.tasks)[id];
                outcome.row
                == if didRetry then was.(status := Pending, retryCount := was.retryCount + 1, assignee := "")
                   else was.(status := Failed)
      ensures db.tasks == if outcome.Done? then old(db.tasks)[id := outcome.row] else old(db.tasks)
      ensures db.events == old(db.events)
                           + (if outcome.Done? then [Event(id, EventKind.FailTask, "")] else [])
                           + (if didRetry then [Event(id, TaskRetry, "")] else [])
      ensures old(db.Audited()) ==> db.Audited()
    {
      if id !in db.tasks {
        return NotFound, false;
      }
      if db.tasks[id].status != InProgress {
        return Conflict(Some(db.tasks[id].status)), false;
      }
      WriteAndLog(id, db.tasks[id].(status := Failed), EventKind.FailTask, "");
      var row := db.tasks[id];
      if row.maxRetries > 0 && row.retryCount < row.maxRetries {
        WriteAndLog(id, RetriedRow(row), TaskRetry, "");
        return Done(db.tasks[id]), true;
      }
      return Done(row), false;
    }

    method AreParentsCompleted(parents: seq<TaskId>) returns (done: bool)
      ensures done <==>
                && (forall i | 0 <= i < |parents| ::
                      parents[i] in db.tasks && db.tasks[parents[i]].status == Completed)
                && (forall i, j | 0 <= i < j < |parents| :: parents[i] != parents[j])
    {
      CountingCheckExact(db.tasks, parents);
      if |parents| == 0 {
        return true;
      }
      return |CompletedAmong(db.tasks, parents)| == |parents|;
    }

    method CheckParentsCompleted(id: TaskId) returns (done: bool)
      ensures done <==>
                && id in db.tasks
                && AllCompleted(db.tasks, db.tasks[id].parents) && NoDuplicates(db.tasks[id].parents)
    {
      if id !in db.tasks {
        return false;
      }
      done := AreParentsCompleted(db.tasks[id].parents);
    }

    /** Logs one ParentsCompleted event for each matched pending child whose parents are done. */
    method PromoteChildren(id: TaskId, spurious: set<TaskId>) returns (ghost promoted: seq<TaskId>)
      modifies db`events
      ensures NoDuplicates(promoted)
      ensures forall c :: c in promoted <==>
                && c in db.tasks && db.tasks[c].status == Pending && (id in db.tasks[c].parents || c in spurious)
                && AllCompleted(db.tasks, db.tasks[c].parents) && NoDuplicates(db.tasks[c].parents)
      ensures db.events == old(db.events) + EventsFor(promoted, ParentsCompleted)
      ensures old(db.Audited()) ==> db.Audited()
    {
      var children := ScanIds(MatchedChildren(db.tasks, id, spurious));
      promoted := [];
      for i := 0 to |children|
        invariant Lists(promoted, WithParentsDone(db.tasks, children[..i]))
        invariant db.events == old(db.events) + EventsFor(promoted, ParentsCompleted)
        invariant old(db.Audited()) ==> db.Audited()
      {
        var child := children[i];
        assert child in Elements(children);
        assert children[..i + 1] == children[..i] + [child];
        var allDone := CheckParentsCompleted(child);
        CountingCheckExact(db.tasks, db.tasks[child].parents);
        if allDone {
          assert child !in children[..i];
          PromotionTellsNothingNew(db.events, db.tasks, child);
          ListsOneMore(promoted, WithParentsDone(db.tasks, children[..i]), child);
          EventsForAppend(promoted, child, ParentsCompleted);
          LogTaskEvent(child, ParentsCompleted, "");
          promoted := promoted + [child];
        }
        assert WithParentsDone(db.tasks, children[..i + 1])
            == WithParentsDone(db.tasks, children[..i]) + if allDone then {child} else {};
      }
      assert children[..|children|] == children;
      forall c
        ensures c in promoted <==> c in MatchedChildren(db.tasks, id, spurious)
                                   && AllCompleted(db.tasks, db.tasks[c].parents) && NoDuplicates(db.tasks[c].parents)
      {
        assert c in children <==> c in Elements(children);
        assert c in promoted <==> c in Elements(promoted);
        if c in db.tasks {
          CountingCheckExact(db.tasks, db.tasks[c].parents);
        }
      }
    }

    method CompleteTask(id: TaskId, spurious: set<TaskId>) returns (outcome: Outcome, ghost promoted: seq<TaskId>)
      modifies db`tasks, db`events
      ensures outcome.NotFound? <==> id !in old(db.tasks)
      ensures outcome.Done? <==> id in old(db.tasks) && old(db.tasks)[id].status == InProgress
      ensures outcome.Conflict? ==> outcome.current == Some(old(db.tasks)[id].status)
      ensures outcome.Done? ==> outcome.row == old(db.tasks)[id].(status := Completed)
      ensures db.tasks == if outcome.Done? then old(db.tasks)[id := outcome.row] else old(db.tasks)
      ensures NoDuplicates(promoted)
      ensures forall c :: c in promoted <==>
                && outcome.Done? && c in db.tasks && db.tasks[c].status == Pending
                && (id in db.tasks[c].parents || c in spurious)
                && AllCompleted(db.tasks, db.tasks[c].parents) && NoDuplicates(db.tasks[c].parents)
      ensures db.events == old(db.events)
                           + (if outcome.Done? then [Event(id, EventKind.CompleteTask, "")] else [])
                           + EventsFor(promoted, ParentsCompleted)
      ensures old(db.Audited()) ==> db.Audited()
    {
      promoted := [];
      if id !in db.tasks {
        return NotFound, [];
      }
      if db.tasks[id].status != InProgress {
        return Conflict(Some(db.tasks[id].status)), [];
      }
      var row := db.tasks[id].(status := Completed);
      WriteAndLog(id, row, EventKind.CompleteTask, "");
      promoted := PromoteChildren(id, spurious);
      outcome := Done(row);
    }

    /** Fails every pending task older than the limit. A limit of zero or less is an error. */
    method ExpirePendingTasks(now: int, minutes: int) returns (ok: bool, expired: seq<TaskId>)
      modifies db`tasks, db`events
      ensures ok <==> minutes > 0
      ensures Lists(expired, if ok then OverAge(old(db.tasks), now - 60 * minutes) else {})
      ensures forall t :: t in expired <==> ok && t in old(db.tasks) && old(db.tasks)[t].status == Pending
                                            && old(db.tasks)[t].createdAt < now - 60 * minutes
      ensures db.tasks == WithStatus(old(db.tasks), Elements(expired), Failed)
      ensures db.tasks == map t | t in old(db.tasks) ::
                            if t in expired then old(db.tasks)[t].(status := Failed) else old(db.tasks)[t]
      ensures db.events == old(db.events) + EventsFor(expired, PendingTimeout)
      ensures old(db.Audited()) ==> db.Audited()
    {
      expired := [];
      assert db.tasks == WithStatus(db.tasks, Elements(expired), Failed);
      if minutes <= 0 {
        return false, [];
      }
      expired := ScanIds(OverAge(db.tasks, now - 60 * minutes));
      assert forall t :: t in expired <==> t in Elements(expired);
      assert HavingStatus(db.tasks, expired, Pending) == Elements(expired);
      ExpireEach(expired, Pending, PendingTimeout);
      return true, expired;
    }

    /** Fails every in-progress task without a sign of life. A limit of zero or less does nothing. */
    method ExpireStaleInProgressTasks(now: int, minutes: int) returns (stalled: seq<TaskId>)
      modifies db`tasks, db`events
      ensures Lists(stalled, if minutes > 0 then Stalled(old(db.tasks), now - 60 * minutes) else {})
      ensures forall t :: t in stalled <==>
                && minutes > 0 && t in old(db.tasks) && old(db.tasks)[t].status == InProgress
                && match old(db.tasks)[t].lastHeartbeat
                   case Some(h) => h < now - 60 * minutes
                   case None => old(db.tasks)[t].createdAt < now - 60 * minutes
      ensures db.tasks == WithStatus(old(db.tasks), Elements(stalled), Failed)
      ensures db.tasks == map t | t in old(db.tasks) ::
                            if t in stalled then old(db.tasks)[t].(status := Failed) else old(db.tasks)[t]
      ensures db.events == old(db.events) + EventsFor(stalled, TaskHeartbeatTimeout)
      ensures old(db.Audited()) ==> db.Audited()
    {
      stalled := [];
      assert db.tasks == WithStatus(db.tasks, Elements(stalled), Failed);
      if minutes <= 0 {
        return;
      }
      stalled := ScanIds(Stalled(db.tasks, now - 60 * minutes));
      assert forall t :: t in stalled <==> t in Elements(stalled);
      assert HavingStatus(db.tasks, stalled, InProgress) == Elements(stalled);
      ExpireEach(stalled, InProgress, TaskHeartbeatTimeout);
    }

    /** The write loop both expirations share. The write is guarded by the status; the event
        is logged regardless, so the trail stays truthful when every guard holds. */
    method ExpireEach(ids: seq<TaskId>, guard: Status, kind: EventKind)
      requires NoDuplicates(ids) && kind in {PendingTimeout, TaskHeartbeatTimeout}
      modifies db`tasks, db`events
      ensures db.tasks == WithStatus(old(db.tasks), HavingStatus(old(db.tasks), ids, guard), Failed)
      ensures db.tasks == map t | t in old(db.tasks) ::
                            if t in ids && old(db.tasks)[t].status == guard then old(db.tasks)[t].(status := Failed)
                            else old(db.tasks)[t]
      ensures db.events == old(db.events) + EventsFor(ids, kind)
      ensures old(db.Audited()) && HavingStatus(old(db.tasks), ids, guard) == Elements(ids) ==> db.Audited()
    {
      ghost var tasks0 := db.tasks;
      for i := 0 to |ids|
        invariant db.tasks == WithStatus(tasks0, HavingStatus(tasks0, ids[..i], guard), Failed)
        invariant db.events == old(db.events) + EventsFor(ids[..i], kind)
        invariant old(db.Audited()) && HavingStatus(tasks0, ids, guard) == Elements(ids) ==> db.Audited()
      {
        var id := ids[i];
        PrefixOneMore(ids, i);
        EventsForAppend(ids[..i], id, kind);
        HavingStatusOneMore(tasks0, ids[..i], id, guard);
        if id in db.tasks && db.tasks[id].status == guard {
          WriteAndLog(id, db.tasks[id].(status := Failed), kind, "");
        } else {
          LogTaskEvent(id, kind, "");
        }
      }
      assert ids[..|ids|] == ids;
    }

    /** A sign of life: moves no other column and logs nothing, and the trail stays truthful. */
    method UpdateTaskHeartbeat(id: TaskId, now: int) returns (ok: bool)
      modifies db`tasks
      ensures ok <==> id in old(db.tasks)
      ensures db.tasks == if ok then old(db.tasks)[id := old(db.tasks)[id].(lastHeartbeat := Some(now))]
                          else old(db.tasks)
      ensures old(db.Audited()) ==> db.Audited()
    {
      if id !in db.tasks {
        return false;
      }
      db.tasks := db.tasks[id := db.tasks[id].(lastHeartbeat := Some(now))];
      return true;
    }

    /** Puts every task the agent holds back to pending, with no owner. */
    method ReleaseAgentTasks(agent: AgentName) returns (released: seq<TaskId>)
      modifies db`tasks, db`events
      ensures Lists(released, HeldBy(old(db.tasks), agent))
      ensures forall t :: t in released <==> t in old(db.tasks) && old(db.tasks)[t].assignee == agent
                                             && old(db.tasks)[t].status in {Claimed, InProgress}
      ensures db.tasks == Released(old(db.tasks), Elements(released))
      ensures db.tasks == map t | t in old(db.tasks) ::
                            if t in released then old(db.tasks)[t].(status := Pending, assignee := "")
                            else old(db.tasks)[t]
      ensures db.events == old(db.events) + EventsFor(released, StaleAgentRelease)
      ensures old(db.Audited()) ==> db.Audited()
    {
      released := ScanIds(HeldBy(db.tasks, agent));
      assert forall t :: t in released <==> t in Elements(released);
      for i := 0 to |released|
        invariant db.tasks == Released(old(db.tasks), Elements(released[..i]))
        invariant db.events == old(db.events) + EventsFor(released[..i], StaleAgentRelease)
        invariant old(db.Audited()) ==> db.Audited()
      {
        var id := released[i];
        PrefixOneMore(released, i);
        EventsForAppend(released[..i], id, StaleAgentRelease);
        OneMoreReleased(old(db.tasks), released[..i], id);
        WriteAndLog(id, ReleasedRow(db.tasks[id]), StaleAgentRelease, "");
      }
      assert released[..|released|] == released;
    }
  }

  /** A promotion event changes nothing a replay says. */
  lemma PromotionTellsNothingNew(events: seq<Event>, tasks: Tasks, child: TaskId)
    requires child in tasks
    ensures TellsState(events, tasks) ==> TellsState(events + [Event(child, ParentsCompleted, "")], tasks)
  {
    if TellsState(events, tasks) {
      TellsAfter(events, tasks, Event(child, ParentsCompleted, ""), tasks[child]);
      assert tasks[child := tasks[child]] == tasks;
    }
  }
}
