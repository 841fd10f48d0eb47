/** The two views of one call: its statements one after the other, uninterrupted, do to the
    tables and the log what the contract of the whole call says. */
module Serial {
  import opened Schema
  import opened Interleaving
  import opened TaskRepo
  import opened Handlers
  import opened Audit
  import opened Theorems

  /** The skill check of the claim handler, between its parent check and its write. */
  predicate Skilled(tasks: Tasks, agents: Agents, t: TaskId, agent: AgentName) {
    t in tasks && tasks[t].requiredSkills != [] ==>
      agent in agents && HasSkills(agents[agent].skills, tasks[t].requiredSkills)
  }

  /** The claim handler; it stops after its parent check when the skill check fails. */
  lemma ClaimIsWhole(s: State, o: OpId, t: TaskId, agents: Agents, agent: AgentName)
    requires Fresh(s, o)
    ensures var checked := Apply(s, CheckParents(o, t, agent));
            var s' := if Skilled(s.tasks, agents, t, agent) then Apply(Apply(checked, ClaimWrite(o)), LogInsert(o))
                      else Apply(checked, Abort(o));
            if ClaimAccepts(s.tasks, agents, t, agent) then
              && s'.tasks == s.tasks[t := s.tasks[t].(status := Claimed, assignee := agent)]
              && s'.log == s.log + [Event(t, EventKind.ClaimTask, agent)]
            else s'.tasks == s.tasks && s'.log == s.log
  {
    if Skilled(s.tasks, agents, t, agent) {
      ClaimGoesOn(s, o, t, agents, agent);
    } else {
      assert Apply(s, CheckParents(o, t, agent)).tasks == s.tasks;
    }
  }

  lemma ClaimGoesOn(s: State, o: OpId, t: TaskId, agents: Agents, agent: AgentName)
    requires Fresh(s, o) && Skilled(s.tasks, agents, t, agent)
    ensures var s' := ApplyLogInsert(ApplyClaimWrite(ApplyCheckParents(s, o, t, agent), o), o);
            if ClaimAccepts(s.tasks, agents, t, agent) then
              && s'.tasks == s.tasks[t := s.tasks[t].(status := Claimed, assignee := agent)]
              && s'.log == s.log + [Event(t, EventKind.ClaimTask, agent)]
            else s'.tasks == s.tasks && s'.log == s.log
  {
    if t in s.tasks {
      CountingCheckExact(s.tasks, s.tasks[t].parents);
    }
    var s1 := ApplyCheckParents(s, o, t, agent);
    var s2 := ApplyClaimWrite(s1, o);
    assert s2.tasks == s.tasks || s2.log == s.log;
  }

  /** The block handler: both writes, or the first alone when the gate id is taken. */
  lemma BlockIsWhole(s: State, o: OpId, t: TaskId, gate: GateId)
    requires Fresh(s, o)
    ensures var s' := Apply(Apply(Apply(s, BlockWrite(o, t, gate)), LogInsert(o)), CreateGateWrite(o));
            var blocked := t in s.tasks && Held(s.tasks[t].status);
            && s'.tasks == (if blocked then s.tasks[t := s.tasks[t].(status := Blocked)] else s.tasks)
            && s'.gates == (if blocked && gate !in s.gates then s.gates[gate := NewGate(t)] else s.gates)
            && s'.log == s.log + if blocked then [Event(t, EventKind.BlockTask, "")] else []
  {
    var s1 := ApplyBlockWrite(s, o, t, gate);
    var s2 := ApplyLogInsert(s1, o);
    if t in s.tasks && Held(s.tasks[t].status) {
      assert s2.ops[o] == Op(BlockBeforeCreateGate(t, gate), true, None);
    }
  }

  /** The unblock handler. */
  lemma UnblockIsWhole(s: State, o: OpId, t: TaskId, gate: GateId)
    requires Fresh(s, o)
    ensures var s' := Apply(Apply(Apply(s, ResolveWrite(o, t, gate)), UnblockWrite(o)), LogInsert(o));
            if t in s.tasks && gate in s.gates && s.gates[gate].status == Answered then
              && s'.tasks == s.tasks[t := s.tasks[t].(status := InProgress)]
              && s'.gates == s.gates[gate := s.gates[gate].(status := Resolved)]
              && s'.log == s.log + [Event(t, EventKind.UpdateStatus, "")]
            else s'.tasks == s.tasks && s'.gates == s.gates && s'.log == s.log
  {
    var s1 := ApplyResolveWrite(s, o, t, gate);
    var s2 := ApplyUnblockWrite(s1, o);
    if t in s.tasks && gate in s.gates && s.gates[gate].status == Answered {
      assert Noting(s2, o) && s2.log == s.log;
    }
  }

  lemma FailBegins(s: State, o: OpId, t: TaskId)
    requires Fresh(s, o) && HasStatus(s, t, InProgress)
    ensures var s' := ApplyLogInsert(ApplyFailWrite(s, o, t), o);
            && s'.tasks == s.tasks[t := s.tasks[t].(status := Failed)]
            && s'.log == s.log + [Event(t, EventKind.FailTask, "")]
            && s'.ops == s.ops[o := Op(FailAfterUpdate(t), true, None)]
  {
    var s1 := ApplyFailWrite(s, o, t);
    assert Noting(s1, o) && s1.ops[o].pc == FailAfterUpdate(t) && s1.log == s.log;
  }

  lemma FailEnds(s: State, o: OpId, t: TaskId)
    requires o in s.ops && s.ops[o] == Op(FailAfterUpdate(t), true, None) && t in s.tasks
    ensures var s' := ApplyLogInsert(ApplyRetryWrite(ApplyFailRead(s, o), o), o);
            if MayRetry(s.tasks[t]) then
              && s'.tasks == s.tasks[t := RetriedRow(s.tasks[t])]
              && s'.log == s.log + [Event(t, TaskRetry, "")]
            else s'.tasks == s.tasks && s'.log == s.log
  {
    if MayRetry(s.tasks[t]) {
      RetryFollows(ApplyFailRead(s, o), o, t);
    } else {
      NothingFollows(ApplyFailRead(s, o), o);
    }
  }

  lemma RetryFollows(s: State, o: OpId, t: TaskId)
    requires o in s.ops && s.ops[o] == Op(FailBeforeRetry(t), true, None) && t in s.tasks
    ensures var s' := ApplyLogInsert(ApplyRetryWrite(s, o), o);
            s'.tasks == s.tasks[t := RetriedRow(s.tasks[t])] && s'.log == s.log + [Event(t, TaskRetry, "")]
  {
    var s1 := ApplyRetryWrite(s, o);
    assert Noting(s1, o) && s1.log == s.log;
  }

  lemma NothingFollows(s: State, o: OpId)
    requires o in s.ops && s.ops[o] == Op(Finished, true, None)
    ensures ApplyRetryWrite(s, o) == s && ApplyLogInsert(s, o) == s
  {
  }

  /** A FailTask whose guarded write finds no row in progress does nothing at all. */
  lemma FailRefused(s: State, o: OpId, t: TaskId)
    requires Fresh(s, o) && !HasStatus(s, t, InProgress)
    ensures ApplyFailWrite(s, o, t) == s && ApplyLogInsert(s, o) == s
    ensures ApplyFailRead(s, o) == s && ApplyRetryWrite(s, o) == s
  {
  }

  /** FailTask with its retry: five statements, one row. */
  lemma FailIsWhole(s: State, o: OpId, t: TaskId)
    requires Fresh(s, o) && HasStatus(s, t, InProgress)
    ensures var s1 := ApplyLogInsert(ApplyFailWrite(s, o, t), o);
            var s' := ApplyLogInsert(ApplyRetryWrite(ApplyFailRead(s1, o), o), o);
            var was := s.tasks[t];
            var again := was.maxRetries > 0 && was.retryCount < was.maxRetries;
            && s'.tasks
               == s.tasks[t := if again then was.(status := Pending, retryCount := was.retryCount + 1, assignee := "")
                               else was.(status := Failed)]
            && s'.log == s.log + [Event(t, EventKind.FailTask, "")] + if again then [Event(t, TaskRetry, "")] else []
  {
    FailBegins(s, o, t);
    var s1 := ApplyLogInsert(ApplyFailWrite(s, o, t), o);
    FailEnds(s1, o, t);
    assert s1.tasks[t] == s.tasks[t].(status := Failed);
  }

  function FailRun(r: Run, o: OpId, t: TaskId): Run {
    Then(Then(Then(FailedRun(r, o, t), FailRead(o)), RetryWrite(o)), LogInsert(o))
  }

  function FailedRun(r: Run, o: OpId, t: TaskId): Run {
    Then(Then(r, FailWrite(o, t)), LogInsert(o))
  }

  lemma {:induction false} FailedRunIs(r: Run, o: OpId, t: TaskId)
    ensures Exec(FailedRun(r, o, t)) == ApplyLogInsert(ApplyFailWrite(Exec(r), o, t), o)
  {
  }

  lemma {:induction false} RetriedRunIs(r: Run, o: OpId)
    ensures Exec(Then(Then(Then(r, FailRead(o)), RetryWrite(o)), LogInsert(o)))
         == ApplyLogInsert(ApplyRetryWrite(ApplyFailRead(Exec(r), o), o), o)
  {
    assert Exec(Then(r, FailRead(o))) == ApplyFailRead(Exec(r), o);
  }

  /** So a FailTask that nothing interrupts leaves its task failed exactly when the retries the
      task was created with are used up. */
  lemma {:induction false} FailsForGoodExactly(r: Run, o: OpId, t: TaskId)
    requires Fresh(Exec(r), o) && HasStatus(Exec(r), t, InProgress)
    ensures HasStatus(Exec(FailRun(r, o, t)), t, Failed)
       <==> Exec(r).tasks[t].retryCount >= if Exec(r).tasks[t].maxRetries > 0 then Exec(r).tasks[t].maxRetries else 0
  {
    RetryCountCounts(r, t);
    FailIsWhole(Exec(r), o, t);
    FailedRunIs(r, o, t);
    RetriedRunIs(FailedRun(r, o, t), o);
  }

  /** Creation: the row and its event, or nothing at all. */
  lemma CreateIsWhole(s: State, o: OpId, t: TaskId, input: TaskInput)
    requires Fresh(s, o)
    ensures var s' := Apply(Apply(s, Create(o, t, input)), LogInsert(o));
            if t !in s.tasks then
              && s'.tasks == s.tasks[t := Task(Pending, input.assignee, input.priority, input.parents,
                                               input.requiredSkills, input.maxRetries, 0, input.now, None)]
              && s'.gates == s.gates && s'.log == s.log + [Event(t, CreateTask, input.assignee)]
            else s' == s
  {
    var s1 := ApplyCreate(s, o, t, input);
    assert t !in s.tasks ==> Noting(s1, o) && s1.log == s.log;
  }

  /** The writes that are one statement and log nothing. */
  lemma SingleWritesAreWhole(s: State, t: TaskId, g: GateId, answer: string, now: int)
    ensures Apply(s, AskGate(g, answer))
         == if g in s.gates && s.gates[g].status == Unasked
            then s.(gates := s.gates[g := s.gates[g].(status := Asked, answer := answer)]) else s
    ensures Apply(s, AnswerGate(g, answer, now))
         == if g in s.gates && s.gates[g].status == Asked
            then s.(gates := s.gates[g := Gate(s.gates[g].taskId, Answered, answer, Some(now))]) else s
    ensures Apply(s, HeartbeatWrite(t, now))
         == if t in s.tasks then s.(tasks := s.tasks[t := s.tasks[t].(lastHeartbeat := Some(now))]) else s
  {
  }

  lemma StartIsWhole(s: State, o: OpId, t: TaskId)
    requires Fresh(s, o)
    ensures var s' := Apply(Apply(s, StartWrite(o, t)), LogInsert(o));
            if HasStatus(s, t, Claimed) then
              && s'.tasks == s.tasks[t := s.tasks[t].(status := InProgress)]
              && s'.log == s.log + [Event(t, EventKind.StartTask, "")]
            else s'.tasks == s.tasks && s'.log == s.log
  {
    var s1 := ApplyStartWrite(s, o, t);
    assert HasStatus(s, t, Claimed) ==> Noting(s1, o) && s1.log == s.log;
  }

  // ---- Calls with a loop: one write and one event for each selected id ----

  /** The write loop of a sweep, each write followed by its event. */
  function WriteEach(s: State, o: OpId, ids: seq<TaskId>, write: (OpId, TaskId) -> Action): State {
    if ids == [] then s
    else Apply(Apply(WriteEach(s, o, ids[..|ids| - 1], write), write(o, ids[|ids| - 1])), LogInsert(o))
  }

  function ReleaseOf(o: OpId, t: TaskId): Action {
    ReleaseWrite(o, t)
  }

  function ExpireOf(o: OpId, t: TaskId): Action {
    ExpirePendingWrite(o, t)
  }

  function StopOf(o: OpId, t: TaskId): Action {
    ExpireStaleWrite(o, t)
  }

  function CheckOf(o: OpId, t: TaskId): Action {
    CheckChild(o, t)
  }

  lemma FrontOf(ids: seq<TaskId>)
    requires ids != [] && NoDuplicates(ids)
    ensures var front, last := ids[..|ids| - 1], ids[|ids| - 1];
            && ids == front + [last] && NoDuplicates(front) && last !in front && last !in Elements(front)
            && Elements(ids) == Elements(front) + {last}
  {
    PrefixOneMore(ids, |ids| - 1);
    assert ids[..|ids|] == ids;
  }

  lemma ReleaseTurn(s: State, o: OpId, todo: set<TaskId>, t: TaskId)
    requires o in s.ops && s.ops[o] == Op(Releasing(todo), true, None) && t in todo && t in s.tasks
    ensures var s' := Apply(Apply(s, ReleaseWrite(o, t)), LogInsert(o));
            s' == s.(tasks := s.tasks[t := ReleasedRow(s.tasks[t])],
                     ops := s.ops[o := Op(Releasing(todo - {t}), true, None)],
                     log := s.log + [Event(t, StaleAgentRelease, "")])
  {
    var s1 := ApplyReleaseWrite(s, o, t);
    assert Noting(s1, o);
  }

  lemma {:induction false} ReleaseLoop(s: State, o: OpId, todo: set<TaskId>, ids: seq<TaskId>)
    requires o in s.ops && s.ops[o] == Op(Releasing(todo), true, None)
    requires NoDuplicates(ids) && Elements(ids) <= todo && todo <= s.tasks.Keys
    ensures WriteEach(s, o, ids, ReleaseOf)
         == s.(tasks := Released(s.tasks, Elements(ids)),
               ops := s.ops[o := Op(Releasing(todo - Elements(ids)), true, None)],
               log := s.log + EventsFor(ids, StaleAgentRelease))
  {
    assert ids == [] ==> todo - Elements(ids) == todo && Elements(ids) == {};
    assert ids == [] ==> Released(s.tasks, {}) == s.tasks;
    if ids != [] {
      var front, last := ids[..|ids| - 1], ids[|ids| - 1];
      FrontOf(ids);
      assert todo - Elements(front) - {last} == todo - Elements(ids);
      ReleaseLoop(s, o, todo, front);
      OneMoreReleased(s.tasks, front, last);
      EventsForAppend(front, last, StaleAgentRelease);
      ReleaseTurn(WriteEach(s, o, front, ReleaseOf), o, todo - Elements(front), last);
    }
  }

  /** ReleaseAgentTasks: every task the agent holds goes back to pending, one event each. */
  lemma ReleaseIsWhole(s: State, o: OpId, agent: AgentName, ids: seq<TaskId>)
    requires Fresh(s, o) && Lists(ids, HeldBy(s.tasks, agent))
    ensures var s' := WriteEach(Apply(s, SelectHeld(o, agent)), o, ids, ReleaseOf);
            s'.tasks == Released(s.tasks, Elements(ids)) && s'.gates == s.gates
    ensures var s' := WriteEach(Apply(s, SelectHeld(o, agent)), o, ids, ReleaseOf);
            s'.log == s.log + EventsFor(ids, StaleAgentRelease)
  {
    ReleaseLoop(ApplySelectHeld(s, o, agent), o, HeldBy(s.tasks, agent), ids);
  }

  lemma FailOneMore(tasks: Tasks, ids: seq<TaskId>, id: TaskId)
    requires id in tasks && id !in ids
    ensures WithStatus(tasks, Elements(ids + [id]), Failed)
         == WithStatus(tasks, Elements(ids), Failed)[id := tasks[id].(status := Failed)]
    ensures WithStatus(tasks, Elements(ids), Failed)[id] == tasks[id]
  {
    assert Elements(ids + [id]) == Elements(ids) + {id};
  }

  /** The two expirations: of pending tasks, and of stalled ones. */
  function SweepPc(stalled: bool, todo: set<TaskId>): Pc {
    if stalled then ExpiringStale(todo) else ExpiringPending(todo)
  }

  function SweepGuard(stalled: bool): Status {
    if stalled then InProgress else Pending
  }

  function SweepKind(stalled: bool): EventKind {
    if stalled then TaskHeartbeatTimeout else PendingTimeout
  }

  function SweepOf(stalled: bool): (OpId, TaskId) -> Action {
    if stalled then StopOf else ExpireOf
  }

  lemma SweepTurn(s: State, o: OpId, stalled: bool, todo: set<TaskId>, t: TaskId)
    requires o in s.ops && s.ops[o] == Op(SweepPc(stalled, todo), true, None)
    requires t in todo && HasStatus(s, t, SweepGuard(stalled))
    ensures var s' := Apply(Apply(s, SweepOf(stalled)(o, t)), LogInsert(o));
            s' == s.(tasks := s.tasks[t := s.tasks[t].(status := Failed)],
                     ops := s.ops[o := Op(SweepPc(stalled, todo - {t}), true, None)],
                     log := s.log + [Event(t, SweepKind(stalled), "")])
  {
    var s1 := Apply(s, SweepOf(stalled)(o, t));
    assert Noting(s1, o);
  }

  lemma {:induction false} SweepLoop(s: State, o: OpId, stalled: bool, todo: set<TaskId>, ids: seq<TaskId>)
    requires o in s.ops && s.ops[o] == Op(SweepPc(stalled, todo), true, None)
    requires NoDuplicates(ids) && Elements(ids) <= todo
    requires forall t | t in todo :: HasStatus(s, t, SweepGuard(stalled))
    ensures WriteEach(s, o, ids, SweepOf(stalled))
         == s.(tasks := WithStatus(s.tasks, Elements(ids), Failed),
               ops := s.ops[o := Op(SweepPc(stalled, todo - Elements(ids)), true, None)],
               log := s.log + EventsFor(ids, SweepKind(stalled)))
  {
    assert ids == [] ==> todo - Elements(ids) == todo && Elements(ids) == {};
    assert ids == [] ==> WithStatus(s.tasks, {}, Failed) == s.tasks;
    if ids != [] {
      var front, last := ids[..|ids| - 1], ids[|ids| - 1];
      FrontOf(ids);
      assert todo - Elements(front) - {last} == todo - Elements(ids);
      SweepLoop(s, o, stalled, todo, front);
      FailOneMore(s.tasks, front, last);
      EventsForAppend(front, last, SweepKind(stalled));
      SweepTurn(WriteEach(s, o, front, SweepOf(stalled)), o, stalled, todo - Elements(front), last);
    }
  }

  /** ExpirePendingTasks, when the SELECT picks the rows that are over age. */
  lemma ExpireIsWhole(s: State, o: OpId, cutoff: int, ids: seq<TaskId>)
    requires Fresh(s, o) && Lists(ids, OverAge(s.tasks, cutoff))
    ensures var s' := WriteEach(Apply(s, SelectOverAge(o, OverAge(s.tasks, cutoff))), o, ids, ExpireOf);
            s'.tasks == WithStatus(s.tasks, Elements(ids), Failed) && s'.gates == s.gates
    ensures var s' := WriteEach(Apply(s, SelectOverAge(o, OverAge(s.tasks, cutoff))), o, ids, ExpireOf);
            s'.log == s.log + EventsFor(ids, PendingTimeout)
  {
    var old_ := OverAge(s.tasks, cutoff);
    assert WithStatusAmong(s.tasks, Pending, old_) == old_;
    SweepLoop(ApplySelectOverAge(s, o, old_), o, false, old_, ids);
  }

  /** ExpireStaleInProgressTasks, when the SELECT picks the rows without a sign of life. */
  lemma StopIsWhole(s: State, o: OpId, cutoff: int, ids: seq<TaskId>)
    requires Fresh(s, o) && Lists(ids, Stalled(s.tasks, cutoff))
    ensures var s' := WriteEach(Apply(s, SelectStale(o, Stalled(s.tasks, cutoff))), o, ids, StopOf);
            s'.tasks == WithStatus(s.tasks, Elements(ids), Failed) && s'.gates == s.gates
    ensures var s' := WriteEach(Apply(s, SelectStale(o, Stalled(s.tasks, cutoff))), o, ids, StopOf);
            s'.log == s.log + EventsFor(ids, TaskHeartbeatTimeout)
  {
    var stalled := Stalled(s.tasks, cutoff);
    assert WithStatusAmong(s.tasks, InProgress, stalled) == stalled;
    SweepLoop(ApplySelectStale(s, o, stalled), o, true, stalled, ids);
  }

  /** Those of the ids whose parents the counting check accepts, in order. */
  function Accepted(tasks: Tasks, ids: seq<TaskId>): seq<TaskId> {
    if ids == [] then []
    else
      var last := ids[|ids| - 1];
      Accepted(tasks, ids[..|ids| - 1])
      + if last in tasks && CountSaysDone(tasks, tasks[last].parents) then [last] else []
  }

  lemma {:induction false} AcceptedLists(tasks: Tasks, ids: seq<TaskId>)
    requires NoDuplicates(ids)
    ensures Lists(Accepted(tasks, ids), WithParentsDone(tasks, ids))
  {
    if ids != [] {
      var front, last := ids[..|ids| - 1], ids[|ids| - 1];
      FrontOf(ids);
      AcceptedLists(tasks, front);
      if last in tasks && CountSaysDone(tasks, tasks[last].parents) {
        ListsOneMore(Accepted(tasks, front), WithParentsDone(tasks, front), last);
        assert WithParentsDone(tasks, ids) == WithParentsDone(tasks, front) + {last};
      } else {
        assert WithParentsDone(tasks, ids) == WithParentsDone(tasks, front);
        assert Accepted(tasks, ids) == Accepted(tasks, front);
      }
    }
  }

  lemma PromotionTurn(s: State, o: OpId, p: TaskId, todo: set<TaskId>, t: TaskId)
    requires o in s.ops && s.ops[o] == Op(Promoting(p, todo), true, None) && t in todo
    ensures var s' := Apply(Apply(s, CheckChild(o, t)), LogInsert(o));
            s' == s.(ops := s.ops[o := Op(Promoting(p, todo - {t}), true, None)],
                     log := s.log + if t in s.tasks && CountSaysDone(s.tasks, s.tasks[t].parents)
                                    then [Event(t, ParentsCompleted, "")] else [])
  {
    var s1 := ApplyCheckChild(s, o, t);
    if t in s.tasks && CountSaysDone(s.tasks, s.tasks[t].parents) {
      assert Noting(s1, o);
    } else {
      assert ApplyLogInsert(s1, o) == s1;
    }
  }

  lemma {:induction false} PromotionLoop(s: State, o: OpId, p: TaskId, todo: set<TaskId>, ids: seq<TaskId>)
    requires o in s.ops && s.ops[o] == Op(Promoting(p, todo), true, None)
    requires NoDuplicates(ids) && Elements(ids) <= todo
    ensures WriteEach(s, o, ids, CheckOf)
         == s.(ops := s.ops[o := Op(Promoting(p, todo - Elements(ids)), true, None)],
               log := s.log + EventsFor(Accepted(s.tasks, ids), ParentsCompleted))
  {
    assert ids == [] ==> todo - Elements(ids) == todo && Elements(ids) == {};
    if ids != [] {
      var front, last := ids[..|ids| - 1], ids[|ids| - 1];
      FrontOf(ids);
      assert todo - Elements(front) - {last} == todo - Elements(ids);
      PromotionLoop(s, o, p, todo, front);
      EventsForAppend(Accepted(s.tasks, front), last, ParentsCompleted);
      PromotionTurn(WriteEach(s, o, front, CheckOf), o, p, todo - Elements(front), last);
      assert Accepted(s.tasks, front) + [] == Accepted(s.tasks, front);
    }
  }

  lemma CompleteBegins(s: State, o: OpId, t: TaskId)
    requires Fresh(s, o) && HasStatus(s, t, InProgress)
    ensures var s' := Apply(Apply(s, CompleteWrite(o, t)), LogInsert(o));
            && s'.tasks == s.tasks[t := s.tasks[t].(status := Completed)] && s'.gates == s.gates
            && s'.log == s.log + [Event(t, EventKind.CompleteTask, "")]
            && s'.ops == s.ops[o := Op(PromoteBeforeSelect(t), true, None)]
  {
    var s1 := ApplyCompleteWrite(s, o, t);
    assert Noting(s1, o) && s1.ops[o].pc == PromoteBeforeSelect(t);
  }

  /** A CompleteTask whose guarded write finds no row in progress does nothing at all. */
  lemma CompleteRefused(s: State, o: OpId, t: TaskId, spurious: set<TaskId>, c: TaskId)
    requires Fresh(s, o) && !HasStatus(s, t, InProgress)
    ensures Apply(s, CompleteWrite(o, t)) == s && Apply(s, LogInsert(o)) == s
    ensures Apply(s, SelectChildren(o, spurious)) == s && Apply(s, CheckChild(o, c)) == s
  {
  }

  /** Of the matched children, those whose parents are completed and distinct are accepted. */
  lemma {:induction false} AcceptedAre(tasks: Tasks, t: TaskId, spurious: set<TaskId>, ids: seq<TaskId>)
    requires Lists(ids, MatchedChildren(tasks, t, spurious))
    ensures NoDuplicates(Accepted(tasks, ids))
    ensures forall c :: c in Accepted(tasks, ids) <==>
              && c in tasks && tasks[c].status == Pending && (t in tasks[c].parents || c in spurious)
              && AllCompleted(tasks, tasks[c].parents) && NoDuplicates(tasks[c].parents)
  {
    AcceptedLists(tasks, ids);
    forall c
      ensures c in Accepted(tasks, ids) <==> c in MatchedChildren(tasks, t, spurious)
                                             && AllCompleted(tasks, tasks[c].parents) && NoDuplicates(tasks[c].parents)
    {
      assert c in ids <==> c in Elements(ids);
      assert c in Accepted(tasks, ids) <==> c in Elements(Accepted(tasks, ids));
      if c in tasks {
        CountingCheckExact(tasks, tasks[c].parents);
      }
    }
  }

  /** CompleteTask with its promotion: the completed row, its event, and one event for each
      matched child whose parents are now done. */
  lemma {:induction false} CompleteIsWhole(s: State, o: OpId, t: TaskId, spurious: set<TaskId>, ids: seq<TaskId>)
    requires Fresh(s, o) && HasStatus(s, t, InProgress)
    requires Lists(ids, MatchedChildren(s.tasks[t := s.tasks[t].(status := Completed)], t, spurious))
    ensures var after := s.tasks[t := s.tasks[t].(status := Completed)];
            var s1 := Apply(Apply(Apply(s, CompleteWrite(o, t)), LogInsert(o)), SelectChildren(o, spurious));
            var s' := WriteEach(s1, o, ids, CheckOf);
            && s'.tasks == after && s'.gates == s.gates
            && s'.log == s.log + [Event(t, EventKind.CompleteTask, "")]
                         + EventsFor(Accepted(after, ids), ParentsCompleted)
    ensures var after := s.tasks[t := s.tasks[t].(status := Completed)];
            NoDuplicates(Accepted(after, ids)) && forall c :: c in Accepted(after, ids) <==>
              && c in after && after[c].status == Pending && (t in after[c].parents || c in spurious)
              && AllCompleted(after, after[c].parents) && NoDuplicates(after[c].parents)
  {
    var after := s.tasks[t := s.tasks[t].(status := Completed)];
    var s1 := Apply(Apply(s, CompleteWrite(o, t)), LogInsert(o));
    CompleteBegins(s, o, t);
    var s2 := ApplySelectChildren(s1, o, spurious);
    PromotionLoop(s2, o, t, MatchedChildren(after, t, spurious), ids);
    AcceptedAre(after, t, spurious, ids);
  }
}
