/** The timeout sweep: three passes in a fixed order (internal/timeout/timeout.go). */
module Timeout {
  import opened Schema
  import opened Audit
  import opened TaskRepo

  /** Limits in minutes; zero or less turns a pass off. */
  datatype Limits = Limits(pending: int, task: int, agent: int)

  function Cutoff(now: int, minutes: int): int {
    now - 60 * minutes
  }

  function StaleAgents(agents: Agents, cutoff: int): set<AgentName> {
    set a | a in agents && (agents[a].lastHeartbeat.None? || agents[a].lastHeartbeat.value < cutoff)
  }

  function HeldByAny(tasks: Tasks, agents: set<AgentName>): set<TaskId> {
    set t | t in tasks && tasks[t].assignee in agents && Held(tasks[t].status)
  }

  // ---- What each pass selects, and what the three leave behind ----

  function ToExpire(tasks: Tasks, limits: Limits, now: int): set<TaskId> {
    if limits.pending > 0 then OverAge(tasks, Cutoff(now, limits.pending)) else {}
  }

  function AfterFirst(tasks: Tasks, limits: Limits, now: int): Tasks {
    WithStatus(tasks, ToExpire(tasks, limits, now), Failed)
  }

  function ToStop(tasks: Tasks, limits: Limits, now: int): set<TaskId> {
    if limits.task > 0 then Stalled(tasks, Cutoff(now, limits.task)) else {}
  }

  function AfterSecond(tasks: Tasks, limits: Limits, now: int): Tasks {
    var first := AfterFirst(tasks, limits, now);
    WithStatus(first, ToStop(first, limits, now), Failed)
  }

  function ToRelease(tasks: Tasks, agents: Agents, limits: Limits, now: int): set<TaskId> {
    if limits.agent > 0 then HeldByAny(tasks, StaleAgents(agents, Cutoff(now, limits.agent))) else {}
  }

  function AfterCheck(tasks: Tasks, agents: Agents, limits: Limits, now: int): Tasks {
    var second := AfterSecond(tasks, limits, now);
    Released(second, ToRelease(second, agents, limits, now))
  }

  /** A sweep has nothing to do. */
  predicate Settled(tasks: Tasks, agents: Agents, limits: Limits, now: int) {
    && ToExpire(tasks, limits, now) == {} && ToStop(tasks, limits, now) == {}
    && ToRelease(tasks, agents, limits, now) == {}
  }

  /** Releasing the tasks of one more agent, after those of others, releases them all. */
  lemma ReleaseOneMore(tasks: Tasks, done: set<AgentName>, agent: AgentName)
    ensures var before := Released(tasks, HeldByAny(tasks, done));
            && Released(before, HeldBy(before, agent)) == Released(tasks, HeldByAny(tasks, done + {agent}))
            && HeldBy(before, agent) == HeldByAny(tasks, done + {agent}) - HeldByAny(tasks, done)
  {
  }

  lemma ListsAppend<T>(ids: seq<T>, s: set<T>, more: seq<T>, s': set<T>)
    requires Lists(ids, s) && Lists(more, s') && s !! s'
    ensures Lists(ids + more, s + s')
  {
    forall x ensures x in Elements(ids + more) <==> x in s + s' {
      assert x in ids + more <==> x in ids || x in more;
      assert x in ids <==> x in Elements(ids);
      assert x in more <==> x in Elements(more);
    }
    forall i, j | 0 <= i < j < |ids + more| ensures (ids + more)[i] != (ids + more)[j] {
      if i < |ids| <= j {
        assert ids[i] in Elements(ids) && more[j - |ids|] in Elements(more);
      }
    }
  }

  lemma EventsForConcat(ids: seq<TaskId>, more: seq<TaskId>, kind: EventKind)
    ensures EventsFor(ids + more, kind) == EventsFor(ids, kind) + EventsFor(more, kind)
  {
  }

  lemma ReleasedSoFar(tasks: Tasks, done: set<AgentName>, agent: AgentName, released: seq<TaskId>, more: seq<TaskId>)
    requires Lists(released, HeldByAny(tasks, done))
    requires Lists(more, HeldBy(Released(tasks, Elements(released)), agent))
    ensures Lists(released + more, HeldByAny(tasks, done + {agent}))
    ensures Released(Released(tasks, Elements(released)), Elements(more)) == Released(tasks, Elements(released + more))
  {
    var before, all := HeldByAny(tasks, done), HeldByAny(tasks, done + {agent});
    ReleaseOneMore(tasks, done, agent);
    ListsAppend(released, before, more, all - before);
    assert before + (all - before) == all;
  }

  class TimeoutService {
    const db: Database
    const repo: TaskRepo
    const limits: Limits

    constructor (db: Database, repo: TaskRepo, limits: Limits)
      requires repo.db == db
      ensures this.db == db && this.repo == repo && this.limits == limits
    {
      this.db, this.repo, this.limits := db, repo, limits;
    }

    predicate Wired() {
      repo.db == db
    }

    method ListStale(cutoff: int) returns (agents: seq<AgentName>)
      ensures Lists(agents, StaleAgents(db.agents, cutoff))
      ensures forall a :: a in agents <==>
                a in db.agents && match db.agents[a].lastHeartbeat
                                  case Some(h) => h < cutoff
                                  case None => true
    {
      agents := ScanIds(StaleAgents(db.agents, cutoff));
      assert forall a :: a in agents <==> a in Elements(agents);
    }

    /** The first pass. */
    method ExpireOverAge(now: int) returns (ghost expired: seq<TaskId>)
      requires Wired()
      modifies db`tasks, db`events
      ensures Lists(expired, ToExpire(old(db.tasks), limits, now))
      ensures db.tasks == AfterFirst(old(db.tasks), limits, now)
      ensures db.events == old(db.events) + EventsFor(expired, PendingTimeout)
      ensures old(db.Audited()) ==> db.Audited()
    {
      expired := [];
      assert WithStatus(db.tasks, {}, Failed) == db.tasks;
      if limits.pending > 0 {
        var ok, ids := repo.ExpirePendingTasks(now, limits.pending);
        expired := ids;
      }
    }

    /** The second pass. */
    method StopStalled(now: int) returns (ghost stopped: seq<TaskId>)
      requires Wired()
      modifies db`tasks, db`events
      ensures Lists(stopped, ToStop(old(db.tasks), limits, now))
      ensures db.tasks == WithStatus(old(db.tasks), ToStop(old(db.tasks), limits, now), Failed)
      ensures db.events == old(db.events) + EventsFor(stopped, TaskHeartbeatTimeout)
      ensures old(db.Audited()) ==> db.Audited()
    {
      stopped := [];
      assert WithStatus(db.tasks, {}, Failed) == db.tasks;
      if limits.task > 0 {
        var ids := repo.ExpireStaleInProgressTasks(now, limits.task);
        stopped := ids;
      }
    }

    /** The third pass: one agent after the other. */
    method ReleaseStale(now: int) returns (ghost released: seq<TaskId>)
      requires Wired()
      modifies db`tasks, db`events
      ensures Lists(released, ToRelease(old(db.tasks), db.agents, limits, now))
      ensures forall t :: t in released <==>
                && limits.agent > 0 && t in old(db.tasks) && old(db.tasks)[t].status in {Claimed, InProgress}
                && old(db.tasks)[t].assignee in db.agents
                && match db.agents[old(db.tasks)[t].assignee].lastHeartbeat
                   case Some(h) => h < now - 60 * limits.agent
                   case None => true
      ensures db.tasks == Released(old(db.tasks), Elements(released))
      ensures db.events == old(db.events) + EventsFor(released, StaleAgentRelease)
      ensures old(db.Audited()) ==> db.Audited()
    {
      released := [];
      ghost var tasks0 := db.tasks;
      assert Released(tasks0, {}) == tasks0 && HeldByAny(tasks0, {}) == {};
      if limits.agent > 0 {
        var stale := ListStale(Cutoff(now, limits.agent));
        for i := 0 to |stale|
          invariant Lists(released, HeldByAny(tasks0, Elements(stale[..i])))
          invariant db.tasks == Released(tasks0, Elements(released))
          invariant db.events == old(db.events) + EventsFor(released, StaleAgentRelease)
          invariant old(db.Audited()) ==> db.Audited()
        {
          PrefixOneMore(stale, i);
          var more := repo.ReleaseAgentTasks(stale[i]);
          ReleasedSoFar(tasks0, Elements(stale[..i]), stale[i], released, more);
          EventsForConcat(released, more, StaleAgentRelease);
          released := released + more;
        }
        assert stale[..|stale|] == stale;
      }
      assert forall t :: t in released <==> t in Elements(released);
    }

    /** One whole check. It logs one event for each task it touches, pass by pass. */
    method Check(now: int) returns (ghost expired: seq<TaskId>, ghost stopped: seq<TaskId>, ghost released: seq<TaskId>)
      requires Wired()
      modifies db`tasks, db`events
      ensures db.tasks == AfterCheck(old(db.tasks), db.agents, limits, now)
      ensures db.tasks.Keys == old(db.tasks).Keys
      ensures forall t | t in old(db.tasks) ::
                var was := old(db.tasks)[t];
                var sign := if was.lastHeartbeat.Some? then was.lastHeartbeat.value else was.createdAt;
                var expires := limits.pending > 0 && was.status == Pending && was.createdAt < now - 60 * limits.pending;
                var stops := limits.task > 0 && was.status == InProgress && sign < now - 60 * limits.task;
                var leaves :=
                  && limits.agent > 0 && was.status in {Claimed, InProgress} && was.assignee in db.agents
                  && match db.agents[was.assignee].lastHeartbeat
                     case Some(h) => h < now - 60 * limits.agent
                     case None => true;
                db.tasks[t] == if expires || stops then was.(status := Failed)
                               else if leaves then was.(status := Pending, assignee := "")
                               else was
      ensures Lists(expired, ToExpire(old(db.tasks), limits, now))
      ensures Lists(stopped, ToStop(AfterFirst(old(db.tasks), limits, now), limits, now))
      ensures Lists(released, ToRelease(AfterSecond(old(db.tasks), limits, now), db.agents, limits, now))
      ensures db.events == old(db.events) + EventsFor(expired, PendingTimeout)
                           + EventsFor(stopped, TaskHeartbeatTimeout) + EventsFor(released, StaleAgentRelease)
      ensures old(db.Audited()) ==> db.Audited()
    {
      ghost var tasks0 := db.tasks;
      expired := ExpireOverAge(now);
      stopped := StopStalled(now);
      released := ReleaseStale(now);
      CheckedRows(tasks0, db.agents, limits, now);
    }
  }

  // ---- What a check achieves ----

  lemma AfterCheckRow(tasks: Tasks, agents: Agents, limits: Limits, now: int, t: TaskId)
    requires t in tasks
    ensures t in AfterSecond(tasks, limits, now) && t in AfterCheck(tasks, agents, limits, now)
    ensures var first := AfterFirst(tasks, limits, now);
            var second := AfterSecond(tasks, limits, now);
            var row := AfterCheck(tasks, agents, limits, now)[t];
            && (t in ToRelease(second, agents, limits, now) ==> row == ReleasedRow(tasks[t]))
            && (t !in ToRelease(second, agents, limits, now) ==>
                  row == if t in ToExpire(tasks, limits, now) || t in ToStop(first, limits, now)
                         then tasks[t].(status := Failed) else tasks[t])
  {
  }

  /** What a whole check makes of a row, in terms of the row and the agents before it. */
  lemma CheckedRow(tasks: Tasks, agents: Agents, limits: Limits, now: int, t: TaskId)
    requires t in tasks
    ensures t in AfterCheck(tasks, agents, limits, now)
    ensures var was := tasks[t];
            var sign := if was.lastHeartbeat.Some? then was.lastHeartbeat.value else was.createdAt;
            var expires := limits.pending > 0 && was.status == Pending && was.createdAt < now - 60 * limits.pending;
            var stops := limits.task > 0 && was.status == InProgress && sign < now - 60 * limits.task;
            var leaves :=
              && limits.agent > 0 && was.status in {Claimed, InProgress} && was.assignee in agents
              && match agents[was.assignee].lastHeartbeat
                 case Some(h) => h < now - 60 * limits.agent
                 case None => true;
            AfterCheck(tasks, agents, limits, now)[t]
            == if expires || stops then was.(status := Failed)
               else if leaves then was.(status := Pending, assignee := "")
               else was
  {
    AfterCheckRow(tasks, agents, limits, now, t);
  }

  lemma CheckedRows(tasks: Tasks, agents: Agents, limits: Limits, now: int)
    ensures AfterCheck(tasks, agents, limits, now).Keys == tasks.Keys
    ensures forall t | t in tasks ::
              var was := tasks[t];
              var sign := if was.lastHeartbeat.Some? then was.lastHeartbeat.value else was.createdAt;
              var expires := limits.pending > 0 && was.status == Pending && was.createdAt < now - 60 * limits.pending;
              var stops := limits.task > 0 && was.status == InProgress && sign < now - 60 * limits.task;
              var leaves :=
                && limits.agent > 0 && was.status in {Claimed, InProgress} && was.assignee in agents
                && match agents[was.assignee].lastHeartbeat
                   case Some(h) => h < now - 60 * limits.agent
                   case None => true;
              AfterCheck(tasks, agents, limits, now)[t]
              == if expires || stops then was.(status := Failed)
                 else if leaves then was.(status := Pending, assignee := "")
                 else was
  {
    forall t | t in tasks
      ensures t in AfterCheck(tasks, agents, limits, now)
    {
      CheckedRow(tasks, agents, limits, now, t);
    }
  }

  /** After one check no task in progress is without a sign of life, no stale agent holds a
      task, and the only pending tasks over age are those this same check released. */
  lemma CheckClears(tasks: Tasks, agents: Agents, limits: Limits, now: int)
    ensures var second := AfterSecond(tasks, limits, now);
            var after := AfterCheck(tasks, agents, limits, now);
            && ToStop(after, limits, now) == {}
            && ToRelease(after, agents, limits, now) == {}
            && ToExpire(after, limits, now) <= ToRelease(second, agents, limits, now)
  {
    var second := AfterSecond(tasks, limits, now);
    var after := AfterCheck(tasks, agents, limits, now);
    forall t | t in tasks
      ensures t !in ToStop(after, limits, now) && t !in ToRelease(after, agents, limits, now)
      ensures t in ToExpire(after, limits, now) ==> t in ToRelease(second, agents, limits, now)
    {
      AfterCheckRow(tasks, agents, limits, now, t);
    }
  }

  /** What a whole check releases, read off the table before it: the tasks of stale agents
      that the second pass does not stop first. */
  lemma ReleasedByCheck(tasks: Tasks, agents: Agents, limits: Limits, now: int)
    ensures ToRelease(AfterSecond(tasks, limits, now), agents, limits, now)
         == if limits.agent > 0
            then HeldByAny(tasks, StaleAgents(agents, Cutoff(now, limits.agent))) - ToStop(tasks, limits, now)
            else {}
  {
    var first, second := AfterFirst(tasks, limits, now), AfterSecond(tasks, limits, now);
    forall t | t in tasks ensures t in ToStop(first, limits, now) <==> t in ToStop(tasks, limits, now) {
    }
    if limits.agent > 0 {
      var stale := StaleAgents(agents, Cutoff(now, limits.agent));
      assert HeldByAny(second, stale) == HeldByAny(tasks, stale) - ToStop(tasks, limits, now);
    }
  }

  /** So one check is enough exactly when no over-age task is held by a stale agent, save for
      those in progress that have stalled themselves. */
  lemma OneCheckSettles(tasks: Tasks, agents: Agents, limits: Limits, now: int)
    ensures Settled(AfterCheck(tasks, agents, limits, now), agents, limits, now) <==>
            (limits.pending > 0 && limits.agent > 0 ==>
               forall t | t in HeldByAny(tasks, StaleAgents(agents, Cutoff(now, limits.agent)))
                          && tasks[t].createdAt < Cutoff(now, limits.pending) ::
                 t in ToStop(tasks, limits, now))
  {
    CheckClears(tasks, agents, limits, now);
    ReleasedByCheck(tasks, agents, limits, now);
    var second := AfterSecond(tasks, limits, now);
    var after := AfterCheck(tasks, agents, limits, now);
    forall t | t in ToRelease(second, agents, limits, now)
      ensures t in tasks && t in after
      ensures limits.pending > 0 ==>
                (t in ToExpire(after, limits, now) <==> tasks[t].createdAt < Cutoff(now, limits.pending))
    {
      AfterCheckRow(tasks, agents, limits, now, t);
    }
    if limits.pending > 0 && limits.agent > 0 {
      forall t | t in HeldByAny(tasks, StaleAgents(agents, Cutoff(now, limits.agent)))
                 && tasks[t].createdAt < Cutoff(now, limits.pending) && t !in ToStop(tasks, limits, now)
        ensures t in ToExpire(after, limits, now)
      {
        assert t in ToRelease(second, agents, limits, now);
      }
    }
  }

  /** A settled database is left alone. */
  lemma SettledStays(tasks: Tasks, agents: Agents, limits: Limits, now: int)
    requires Settled(tasks, agents, limits, now)
    ensures AfterCheck(tasks, agents, limits, now) == tasks
    ensures ToStop(AfterFirst(tasks, limits, now), limits, now) == {}
    ensures ToRelease(AfterSecond(tasks, limits, now), agents, limits, now) == {}
  {
    assert AfterFirst(tasks, limits, now) == tasks;
    assert AfterSecond(tasks, limits, now) == tasks;
  }

  /** Two checks at one time always settle the database, whichever passes are on. */
  lemma TwoChecksSettle(tasks: Tasks, agents: Agents, limits: Limits, now: int)
    ensures var once := AfterCheck(tasks, agents, limits, now);
            Settled(AfterCheck(once, agents, limits, now), agents, limits, now)
  {
    var once := AfterCheck(tasks, agents, limits, now);
    CheckClears(tasks, agents, limits, now);
    OneCheckSettles(once, agents, limits, now);
    if limits.agent > 0 {
      assert HeldByAny(once, StaleAgents(agents, Cutoff(now, limits.agent))) == {};
    }
  }

  /** The third check at one time changes neither the tables nor the log: whatever it
      lists, the lists are empty, so by its contract it writes and logs nothing. */
  lemma ThirdCheckChangesNothing(tasks: Tasks, agents: Agents, limits: Limits, now: int,
                                 expired: seq<TaskId>, stopped: seq<TaskId>, released: seq<TaskId>)
    requires var two := AfterCheck(AfterCheck(tasks, agents, limits, now), agents, limits, now);
             && Lists(expired, ToExpire(two, limits, now))
             && Lists(stopped, ToStop(AfterFirst(two, limits, now), limits, now))
             && Lists(released, ToRelease(AfterSecond(two, limits, now), agents, limits, now))
    ensures var two := AfterCheck(AfterCheck(tasks, agents, limits, now), agents, limits, now);
            && AfterCheck(two, agents, limits, now) == two
            && EventsFor(expired, PendingTimeout) + EventsFor(stopped, TaskHeartbeatTimeout)
               + EventsFor(released, StaleAgentRelease) == []
  {
    TwoChecksSettle(tasks, agents, limits, now);
    SettledStays(AfterCheck(AfterCheck(tasks, agents, limits, now), agents, limits, now), agents, limits, now);
    EmptyListing(expired);
    EmptyListing(stopped);
    EmptyListing(released);
  }

  /** One check may leave work: an old task of a stale agent is released too late to expire. */
  lemma OneCheckMayNotSettle(t: TaskId, agent: AgentName)
    ensures var tasks := map[t := NewTask(TaskInput(agent, 3, [], [], 0, 0)).(status := Claimed)];
            var agents := map[agent := Agent([], "", None)];
            !Settled(AfterCheck(tasks, agents, Limits(15, 30, 10), 6000), agents, Limits(15, 30, 10), 6000)
  {
    var tasks := map[t := NewTask(TaskInput(agent, 3, [], [], 0, 0)).(status := Claimed)];
    var agents := map[agent := Agent([], "", None)];
    assert t in ToRelease(AfterSecond(tasks, Limits(15, 30, 10), 6000), agents, Limits(15, 30, 10), 6000);
    OneCheckSettles(tasks, agents, Limits(15, 30, 10), 6000);
  }

  lemma EmptyListing<T>(ids: seq<T>)
    requires Lists(ids, {})
    ensures ids == []
  {
    ElementsCount(ids);
  }
}
