/** Pull selection and push matching (internal/dispatcher/dispatcher.go,
    internal/db/agent_repo.go), and how they agree with the claim handler. */
module Dispatch {
  import opened Schema
  import opened TaskRepo
  import opened Handlers

  /** What the polling endpoint considers for a registered agent. */
  predicate PullMatches(tasks: Tasks, agents: Agents, t: TaskId, agent: AgentName) {
    && agent in agents && t in tasks && tasks[t].status == Pending
    && CountSaysDone(tasks, tasks[t].parents)
    && HasSkills(agents[agent].skills, tasks[t].requiredSkills)
  }

  /** What a new-task webhook is sent for: it does not look at the status. */
  predicate PushMatches(tasks: Tasks, agents: Agents, t: TaskId, agent: AgentName) {
    && agent in agents && agents[agent].webhookUrl != "" && t in tasks
    && AllCompleted(tasks, tasks[t].parents)
    && HasSkills(agents[agent].skills, tasks[t].requiredSkills)
  }

  /** Pull considers exactly the ready tasks whose skills the registered agent has. */
  lemma ClaimableIs(tasks: Tasks, agents: Agents, agent: AgentName)
    ensures forall t :: PullMatches(tasks, agents, t, agent) <==>
              && agent in agents && t in tasks && tasks[t].status == Pending
              && AllCompleted(tasks, tasks[t].parents) && NoDuplicates(tasks[t].parents)
              && forall skill | skill in tasks[t].requiredSkills :: skill in agents[agent].skills
  {
    forall t | t in tasks
      ensures CountSaysDone(tasks, tasks[t].parents)
         <==> AllCompleted(tasks, tasks[t].parents) && NoDuplicates(tasks[t].parents)
    {
      CountingCheckExact(tasks, tasks[t].parents);
    }
  }

  class Dispatcher {
    const db: Database
    const taskRepo: TaskRepo

    constructor (db: Database, taskRepo: TaskRepo)
      requires taskRepo.db == db
      ensures this.db == db && this.taskRepo == taskRepo
    {
      this.db, this.taskRepo := db, taskRepo;
    }

    /** The best pending task for an agent: the first of the highest priority, in the order
        the database listed them, among all that match; none exactly when none matches. A lower
        number is a higher priority. */
    method FindNextForAgent(agent: AgentName) returns (next: Option<TaskId>, ghost list: seq<TaskId>, ghost at: nat)
      requires taskRepo.db == db
      ensures NoDuplicates(list) && forall t :: t in list <==> t in db.tasks && db.tasks[t].status == Pending
      ensures next.None? <==>
                forall t | t in db.tasks && db.tasks[t].status == Pending
                           && AllCompleted(db.tasks, db.tasks[t].parents) && NoDuplicates(db.tasks[t].parents) ::
                  agent !in db.agents
                  || exists skill | skill in db.tasks[t].requiredSkills :: skill !in db.agents[agent].skills
      ensures next.Some? ==> at < |list| && list[at] == next.value
      ensures next.Some? ==> PullMatches(db.tasks, db.agents, next.value, agent)
      ensures next.Some? ==>
                forall i | 0 <= i < |list| && PullMatches(db.tasks, db.agents, list[i], agent) ::
                  && db.tasks[next.value].priority <= db.tasks[list[i]].priority
                  && (i < at ==> db.tasks[next.value].priority < db.tasks[list[i]].priority)
    {
      at := 0;
      var tasks := ScanIds(set t | t in db.tasks && db.tasks[t].status == Pending);
      list := tasks;
      assert forall t :: t in list <==> t in Elements(list);
      if agent !in db.agents {
        return None, list, 0;
      }
      if |tasks| == 0 {
        assert forall t :: t in db.tasks ==> t !in list;
        return None, list, 0;
      }
      var matching;
      ghost var places;
      matching, places := Eligible(tasks, agent);
      ClaimableIs(db.tasks, db.agents, agent);
      if |matching| == 0 {
        return None, list, 0;
      }
      var best, k := PickBest(matching);
      at := places[k];
      next := Some(best);
    }

    /** Those of the listed pending tasks that match, in list order, and their places in the list. */
    method Eligible(tasks: seq<TaskId>, agent: AgentName) returns (matching: seq<TaskId>, ghost places: seq<nat>)
      requires taskRepo.db == db && agent in db.agents
      requires forall t | t in tasks :: t in db.tasks && db.tasks[t].status == Pending
      ensures |places| == |matching|
      ensures forall k | 0 <= k < |places| :: places[k] < |tasks| && matching[k] == tasks[places[k]]
      ensures forall k | 0 <= k < |places| :: PullMatches(db.tasks, db.agents, matching[k], agent)
      ensures forall k, l | 0 <= k < l < |places| :: places[k] < places[l]
      ensures forall j | 0 <= j < |tasks| && PullMatches(db.tasks, db.agents, tasks[j], agent) :: j in places
    {
      matching, places := [], [];
      for i := 0 to |tasks|
        invariant |places| == |matching|
        invariant forall k | 0 <= k < |places| :: places[k] < i && matching[k] == tasks[places[k]]
        invariant forall k | 0 <= k < |places| :: PullMatches(db.tasks, db.agents, matching[k], agent)
        invariant forall k, l | 0 <= k < l < |places| :: places[k] < places[l]
        invariant forall j | 0 <= j < i && PullMatches(db.tasks, db.agents, tasks[j], agent) :: j in places
      {
        var t := tasks[i];
        assert t in tasks;
        var ok := Suits(t, agent);
        if ok {
          matching := matching + [t];
          places := places + [i];
        }
      }
    }

    /** The filter of the pull loop: parents first, then skills. */
    method Suits(t: TaskId, agent: AgentName) returns (ok: bool)
      requires taskRepo.db == db
      requires agent in db.agents && t in db.tasks && db.tasks[t].status == Pending
      ensures ok <==> AllCompleted(db.tasks, db.tasks[t].parents) && NoDuplicates(db.tasks[t].parents)
                      && forall skill | skill in db.tasks[t].requiredSkills :: skill in db.agents[agent].skills
      ensures ok <==> PullMatches(db.tasks, db.agents, t, agent)
    {
      CountingCheckExact(db.tasks, db.tasks[t].parents);
      if |db.tasks[t].parents| > 0 {
        var parentsDone := taskRepo.AreParentsCompleted(db.tasks[t].parents);
        if !parentsDone {
          return false;
        }
      }
      if |db.tasks[t].requiredSkills| == 0 {
        return true;
      }
      ok := CoversSkills(db.agents[agent].skills, db.tasks[t].requiredSkills);
    }

    /** The first of the matching tasks with the smallest priority number. */
    method PickBest(matching: seq<TaskId>) returns (best: TaskId, ghost k: nat)
      requires |matching| > 0 && forall i | 0 <= i < |matching| :: matching[i] in db.tasks
      ensures best in matching && forall t | t in matching :: db.tasks[best].priority <= db.tasks[t].priority
      ensures k < |matching| && best == matching[k]
      ensures forall i | 0 <= i < k :: db.tasks[best].priority < db.tasks[matching[i]].priority
    {
      best, k := matching[0], 0;
      for i := 1 to |matching|
        invariant k < i <= |matching| && best == matching[k]
        invariant forall j | 0 <= j < k :: db.tasks[matching[j]].priority > db.tasks[best].priority
        invariant forall j | k < j < i :: db.tasks[matching[j]].priority >= db.tasks[best].priority
      {
        if db.tasks[matching[i]].priority < db.tasks[best].priority {
          best, k := matching[i], i;
        }
      }
    }

    /** All agents whose skills include the required ones. */
    method FindMatchingAgents(required: seq<string>) returns (result: seq<AgentName>)
      ensures Lists(result, set a | a in db.agents && HasSkills(db.agents[a].skills, required))
      ensures forall a :: a in result <==>
                a in db.agents && forall skill | skill in required :: skill in db.agents[a].skills
    {
      var rows := ScanIds(db.agents.Keys);
      result := [];
      for i := 0 to |rows|
        invariant Lists(result, set a | a in rows[..i] && a in db.agents && HasSkills(db.agents[a].skills, required))
      {
        PrefixOneMore(rows, i);
        var done := set a | a in rows[..i] && a in db.agents && HasSkills(db.agents[a].skills, required);
        var after := set a | a in rows[..i + 1] && a in db.agents && HasSkills(db.agents[a].skills, required);
        var match_ := true;
        if |required| > 0 {
          match_ := CoversSkills(db.agents[rows[i]].skills, required);
        }
        assert after == done + if match_ then {rows[i]} else {};
        if match_ {
          ListsOneMore(result, done, rows[i]);
          result := result + [rows[i]];
        }
      }
      assert rows[..|rows|] == rows;
      assert forall a :: a in rows <==> a in Elements(rows);
      assert (set a | a in rows && a in db.agents && HasSkills(db.agents[a].skills, required))
          == (set a | a in db.agents && HasSkills(db.agents[a].skills, required));
      assert forall a :: a in result <==> a in Elements(result);
    }

    /** The agents a new task is pushed to: the parents one by one, then the skills. */
    method DispatchNewTask(t: TaskId) returns (sent: seq<AgentName>)
      requires t in db.tasks
      ensures NoDuplicates(sent)
      ensures forall a :: a in sent <==>
                && a in db.agents && db.agents[a].webhookUrl != ""
                && (forall skill | skill in db.tasks[t].requiredSkills :: skill in db.agents[a].skills)
                && AllCompleted(db.tasks, db.tasks[t].parents)
      ensures Lists(sent, set a | a in db.agents && PushMatches(db.tasks, db.agents, t, a))
    {
      sent := [];
      var parents := db.tasks[t].parents;
      for i := 0 to |parents|
        invariant AllCompleted(db.tasks, parents[..i])
      {
        if !IsCompleted(db.tasks, parents[i]) {
          return;
        }
      }
      assert parents[..|parents|] == parents;
      var agents := FindMatchingAgents(db.tasks[t].requiredSkills);
      for i := 0 to |agents|
        invariant Lists(sent, set a | a in agents[..i] && PushMatches(db.tasks, db.agents, t, a))
      {
        PrefixOneMore(agents, i);
        var done := set a | a in agents[..i] && PushMatches(db.tasks, db.agents, t, a);
        var after := set a | a in agents[..i + 1] && PushMatches(db.tasks, db.agents, t, a);
        assert after == done + if db.agents[agents[i]].webhookUrl == "" then {} else {agents[i]};
        if db.agents[agents[i]].webhookUrl == "" {
          continue;
        }
        ListsOneMore(sent, done, agents[i]);
        sent := sent + [agents[i]];
      }
      assert agents[..|agents|] == agents;
      assert forall a :: a in agents <==> a in Elements(agents);
      assert (set a | a in agents && PushMatches(db.tasks, db.agents, t, a))
          == (set a | a in db.agents && PushMatches(db.tasks, db.agents, t, a));
      assert forall a :: a in sent <==> a in Elements(sent);
    }
  }

  /** For a registered agent, the tasks pull considers are exactly those the claim handler
      would give it now. */
  lemma PullAgreesWithClaim(tasks: Tasks, agents: Agents, t: TaskId, agent: AgentName)
    requires agent in agents && agent != ""
    ensures PullMatches(tasks, agents, t, agent) <==> ClaimAccepts(tasks, agents, t, agent)
  {
    if t in tasks {
      CountingCheckExact(tasks, tasks[t].parents);
    }
  }

  /** Pull and push agree on a pending task and an agent with a webhook, except that push
      announces a task with a repeated parent, which pull never offers. */
  lemma PullAgreesWithPush(tasks: Tasks, agents: Agents, t: TaskId, agent: AgentName)
    requires agent in agents && agents[agent].webhookUrl != "" && t in tasks && tasks[t].status == Pending
    ensures PullMatches(tasks, agents, t, agent) ==> PushMatches(tasks, agents, t, agent)
    ensures PushMatches(tasks, agents, t, agent) ==>
              (PullMatches(tasks, agents, t, agent) <==> NoDuplicates(tasks[t].parents))
  {
    CountingCheckExact(tasks, tasks[t].parents);
  }

  /** The claim handler also accepts agents nobody registered, but only for tasks that
      require no skill; pull offers them nothing. */
  lemma UnregisteredClaims(tasks: Tasks, agents: Agents, t: TaskId, agent: AgentName)
    requires agent !in agents && agent != ""
    ensures ClaimAccepts(tasks, agents, t, agent) <==>
            && t in tasks && tasks[t].status == Pending && tasks[t].requiredSkills == []
            && AllCompleted(tasks, tasks[t].parents) && NoDuplicates(tasks[t].parents)
    ensures !PullMatches(tasks, agents, t, agent)
  {
  }
}
