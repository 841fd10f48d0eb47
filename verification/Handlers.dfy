/** The gate repository and the check-then-act handlers, each call run as a whole
    (internal/db/gate_repo.go, internal/api/task_handler.go). */
module Handlers {
  import opened Schema
  import opened Audit
  import opened TaskRepo

  datatype Reply = Ok | BadRequest | Missing | Forbidden | Clash | ServerError

  predicate HasSkills(skills: seq<string>, required: seq<string>) {
    forall i | 0 <= i < |required| :: required[i] in skills
  }

  /** The nested search the code repeats wherever it compares skills. */
  method CoversSkills(skills: seq<string>, required: seq<string>) returns (hasSkills: bool)
    ensures hasSkills <==> forall skill | skill in required :: skill in skills
    ensures hasSkills <==> HasSkills(skills, required)
  {
    hasSkills := true;
    for i := 0 to |required|
      invariant hasSkills && HasSkills(skills, required[..i])
    {
      var found := false;
      for j := 0 to |skills|
        invariant !found && required[i] !in skills[..j]
      {
        if skills[j] == required[i] {
          found := true;
          break;
        }
      }
      if !found {
        assert skills[..|skills|] == skills;
        hasSkills := false;
        break;
      }
    }
    assert required[..|required|] == required;
  }

  class GateRepo {
    const db: Database

    constructor (db: Database)
      ensures this.db == db
    {
      this.db := db;
    }

    /** A taken gate id or an unknown task is an insert error. */
    method CreateGate(gate: GateId, task: TaskId) returns (ok: bool)
      modifies db`gates
      ensures ok <==> gate !in old(db.gates) && task in db.tasks
      ensures db.gates == if ok then old(db.gates)[gate := Gate(task, Unasked, "", None)] else old(db.gates)
    {
      if gate in db.gates || task !in db.tasks {
        return false;
      }
      db.gates := db.gates[gate := NewGate(task)];
      return true;
    }

    method AskGate(gate: GateId, answer: string) returns (ok: bool)
      modifies db`gates
      ensures ok <==> gate in old(db.gates) && old(db.gates)[gate].status == Unasked
      ensures db.gates == if ok then old(db.gates)[gate := old(db.gates)[gate].(status := Asked, answer := answer)]
                          else old(db.gates)
    {
      if gate !in db.gates || db.gates[gate].status != Unasked {
        return false;
      }
      db.gates := db.gates[gate := db.gates[gate].(status := Asked, answer := answer)];
      return true;
    }

    method AnswerGate(gate: GateId, answer: string, now: int) returns (ok: bool)
      modifies db`gates
      ensures ok <==> gate in old(db.gates) && old(db.gates)[gate].status == Asked
      ensures db.gates
           == if ok then old(db.gates)[gate := Gate(old(db.gates)[gate].taskId, Answered, answer, Some(now))]
              else old(db.gates)
    {
      if gate !in db.gates || db.gates[gate].status != Asked {
        return false;
      }
      db.gates := db.gates[gate := db.gates[gate].(status := Answered, answer := answer, answeredAt := Some(now))];
      return true;
    }

    method ResolveGate(gate: GateId) returns (ok: bool)
      modifies db`gates
      ensures ok <==> gate in old(db.gates) && old(db.gates)[gate].status == Answered
      ensures db.gates == if ok then old(db.gates)[gate := old(db.gates)[gate].(status := Resolved)] else old(db.gates)
    {
      if gate !in db.gates || db.gates[gate].status != Answered {
        return false;
      }
      db.gates := db.gates[gate := db.gates[gate].(status := Resolved)];
      return true;
    }
  }

  /** When the claim handler gives task `id` to `agent`. A task without required skills
      goes to any name; only required skills make the handler look the agent up. */
  predicate ClaimAccepts(tasks: Tasks, agents: Agents, id: TaskId, agent: AgentName) {
    && agent != "" && id in tasks && tasks[id].status == Pending
    && AllCompleted(tasks, tasks[id].parents) && NoDuplicates(tasks[id].parents)
    && (tasks[id].requiredSkills != [] ==>
          agent in agents && HasSkills(agents[agent].skills, tasks[id].requiredSkills))
  }

  class TaskHandler {
    const db: Database
    const taskRepo: TaskRepo
    const gateRepo: GateRepo
    /** The unblock calls that reached the handler, oldest first. */
    ghost var unblocks: seq<(TaskId, GateId)>

    constructor (db: Database)
      ensures this.db == db && taskRepo.db == db && gateRepo.db == db && unblocks == []
    {
      this.db := db;
      unblocks := [];
      taskRepo := new TaskRepo(db);
      gateRepo := new GateRepo(db);
    }

    predicate Wired() {
      taskRepo.db == db && gateRepo.db == db
    }

    method ClaimTask(id: TaskId, agent: AgentName) returns (reply: Reply)
      requires Wired()
      modifies db`tasks, db`events
      ensures reply == Ok <==>
                && agent != "" && id in old(db.tasks) && old(db.tasks)[id].status == Pending
                && AllCompleted(old(db.tasks), old(db.tasks)[id].parents) && NoDuplicates(old(db.tasks)[id].parents)
                && (old(db.tasks)[id].requiredSkills != [] ==>
                      agent in db.agents
                      && forall skill | skill in old(db.tasks)[id].requiredSkills :: skill in db.agents[agent].skills)
      ensures reply == Ok <==> ClaimAccepts(old(db.tasks), db.agents, id, agent)
      ensures reply == Ok ==>
                && db.tasks == old(db.tasks)[id := old(db.tasks)[id].(status := Claimed, assignee := agent)]
                && db.events == old(db.events) + [Event(id, EventKind.ClaimTask, agent)]
      ensures reply != Ok ==> db.tasks == old(db.tasks) && db.events == old(db.events)
      ensures reply == BadRequest <==> agent == ""
      ensures reply == Clash ==> id in old(db.tasks) && old(db.tasks)[id].status != Pending
      ensures reply == Missing <==>
                agent != "" && (id !in old(db.tasks) ||
                                (agent !in db.agents && old(db.tasks)[id].requiredSkills != []
                                 && AllCompleted(old(db.tasks), old(db.tasks)[id].parents)
                                 && NoDuplicates(old(db.tasks)[id].parents)))
      ensures reply == Forbidden <==>
                agent != "" && id in old(db.tasks) &&
                (!AllCompleted(old(db.tasks), old(db.tasks)[id].parents) || !NoDuplicates(old(db.tasks)[id].parents)
                 || (agent in db.agents
                     && exists skill | skill in old(db.tasks)[id].requiredSkills :: skill !in db.agents[agent].skills))
      ensures reply != ServerError
      ensures old(db.Audited()) ==> db.Audited()
    {
      if agent == "" {
        return BadRequest;
      }
      if id !in db.tasks {
        return Missing;
      }
      var task := db.tasks[id];
      if |task.parents| > 0 {
        var parentsDone := taskRepo.CheckParentsCompleted(id);
        if !parentsDone {
          return Forbidden;
        }
      }
      if |task.requiredSkills| > 0 {
        if agent !in db.agents {
          return Missing;
        }
        var hasSkills := CoversSkills(db.agents[agent].skills, task.requiredSkills);
        if !hasSkills {
          return Forbidden;
        }
      }
      var outcome := taskRepo.ClaimTask(id, agent);
      return if outcome.Done? then Ok else Clash;
    }

    /** Blocks a held task and opens a gate for it. When the gate id is taken the handler
        reports an error after the first of its two writes, and the task stays blocked. */
    method BlockTask(id: TaskId, gate: GateId, question: string) returns (reply: Reply)
      requires Wired()
      modifies db`tasks, db`gates, db`events
      ensures var blocked := gate != "" && question != ""
                             && id in old(db.tasks) && old(db.tasks)[id].status in {Claimed, InProgress};
              && (reply == Ok <==> blocked && gate !in old(db.gates))
              && (reply == ServerError <==> blocked && gate in old(db.gates))
              && (reply == BadRequest <==> gate == "" || question == "")
              && (reply == Missing <==> gate != "" && question != "" && id !in old(db.tasks))
              && db.tasks == (if blocked then old(db.tasks)[id := old(db.tasks)[id].(status := Blocked)]
                              else old(db.tasks))
              && db.gates == (if reply == Ok then old(db.gates)[gate := Gate(id, Unasked, "", None)] else old(db.gates))
              && db.events == old(db.events) + if blocked then [Event(id, EventKind.BlockTask, "")] else []
      ensures old(db.Audited()) ==> db.Audited()
    {
      if gate == "" || question == "" {
        return BadRequest;
      }
      if id !in db.tasks {
        return Missing;
      }
      var outcome := taskRepo.BlockTask(id);
      if !outcome.Done? {
        return Clash;
      }
      var created := gateRepo.CreateGate(gate, id);
      return if created then Ok else ServerError;
    }

    /** Resolves the named gate and puts the named task in progress. Nothing relates the two. */
    method UnblockTask(id: TaskId, gate: GateId) returns (reply: Reply)
      requires Wired()
      modifies db`tasks, db`gates, db`events, this`unblocks
      ensures unblocks == old(unblocks) + [(id, gate)]
      ensures reply == Ok <==>
                gate != "" && id in old(db.tasks) && gate in old(db.gates) && old(db.gates)[gate].status == Answered
      ensures reply == BadRequest <==> gate == ""
      ensures reply == Missing <==> gate != "" && id !in old(db.tasks)
      ensures reply in {Ok, BadRequest, Missing, Clash}
      ensures reply == Ok ==>
                && db.tasks == old(db.tasks)[id := old(db.tasks)[id].(status := InProgress)]
                && db.gates == old(db.gates)[gate := old(db.gates)[gate].(status := Resolved)]
                && db.events == old(db.events) + [Event(id, EventKind.UpdateStatus, "")]
      ensures reply != Ok ==> db.tasks == old(db.tasks) && db.gates == old(db.gates) && db.events == old(db.events)
      ensures old(db.Audited()) ==> db.Audited()
    {
      unblocks := unblocks + [(id, gate)];
      if gate == "" {
        return BadRequest;
      }
      if id !in db.tasks {
        return Missing;
      }
      var resolved := gateRepo.ResolveGate(gate);
      if !resolved {
        return Clash;
      }
      var updated := taskRepo.UpdateStatus(id, InProgress);
      return if updated then Ok else ServerError;
    }

    /** An agent's answer; here the gate must belong to the task. */
    method AnswerGate(id: TaskId, gate: GateId, answer: string) returns (reply: Reply)
      requires Wired()
      modifies db`gates
      ensures reply == Ok <==> answer != "" && gate in old(db.gates)
                               && old(db.gates)[gate].taskId == id && old(db.gates)[gate].status == Unasked
      ensures reply == Missing <==> answer != "" && gate !in old(db.gates)
      ensures reply == BadRequest <==> answer == "" || (gate in old(db.gates) && old(db.gates)[gate].taskId != id)
      ensures reply in {Ok, BadRequest, Missing, Clash}
      ensures db.gates
           == if reply == Ok then old(db.gates)[gate := old(db.gates)[gate].(status := Asked, answer := answer)]
              else old(db.gates)
    {
      if answer == "" {
        return BadRequest;
      }
      if gate !in db.gates {
        return Missing;
      }
      if db.gates[gate].taskId != id {
        return BadRequest;
      }
      if db.gates[gate].status != Unasked {
        return Clash;
      }
      var asked := gateRepo.AskGate(gate, answer);
      return if asked then Ok else Clash;
    }

    /** The orchestrator's approval of an answer; here too the gate must belong to the task. */
    method ApproveGate(id: TaskId, gate: GateId, answer: string, now: int) returns (reply: Reply)
      requires Wired()
      modifies db`gates
      ensures reply == Ok <==> answer != "" && gate in old(db.gates)
                               && old(db.gates)[gate].taskId == id && old(db.gates)[gate].status == Asked
      ensures reply == Missing <==> answer != "" && gate !in old(db.gates)
      ensures reply == BadRequest <==> answer == "" || (gate in old(db.gates) && old(db.gates)[gate].taskId != id)
      ensures reply in {Ok, BadRequest, Missing, Clash}
      ensures db.gates
           == if reply == Ok then old(db.gates)[gate := Gate(id, Answered, answer, Some(now))] else old(db.gates)
    {
      if answer == "" {
        return BadRequest;
      }
      if gate !in db.gates {
        return Missing;
      }
      if db.gates[gate].taskId != id {
        return BadRequest;
      }
      if db.gates[gate].status != Asked {
        return Clash;
      }
      var answered := gateRepo.AnswerGate(gate, answer, now);
      return if answered then Ok else Clash;
    }
  }
}
