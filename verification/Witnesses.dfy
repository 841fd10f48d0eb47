/** Why the hypotheses are there: concrete short runs that obey one of H1 and H2 and break
    the results that need the other. Names and ids are arbitrary where they can be. */
module Witnesses {
  import opened Schema
  import opened Interleaving
  import opened Invariant
  import opened Theorems
  import opened Hypotheses
  import opened Stuck
  import opened Promotion

  function Plain(parents: seq<TaskId>, maxRetries: int): TaskInput {
    TaskInput("", 3, parents, [], maxRetries, 0)
  }

  function Working(agent: AgentName, parents: seq<TaskId>, maxRetries: int): Task {
    NewTask(Plain(parents, maxRetries)).(status := InProgress, assignee := agent)
  }

  predicate NeverReleases(r: Run) {
    r.Then? ==> !r.action.ReleaseWrite? && NeverReleases(r.before)
  }

  predicate NeverResolves(r: Run) {
    r.Then? ==> !r.action.ResolveWrite? && NeverResolves(r.before)
  }

  /** A run without release writes obeys H2. */
  lemma {:induction false} NoReleaseNoQuarrel(r: Run)
    requires NeverReleases(r)
    ensures ObeysH2(r) && forall t :: Count(r, t, Release) == 0
  {
    if r.Then? {
      NoReleaseNoQuarrel(r.before);
    }
  }

  /** A run without unblocks obeys H1. */
  lemma {:induction false} NoResolveNoMixup(r: Run)
    requires NeverResolves(r)
    ensures ObeysH1(r)
  {
    if r.Then? {
      NoResolveNoMixup(r.before);
    }
  }

  /** Run `r'` goes on after `r` without an unblock or a release write. */
  predicate Plainly(r: Run, r': Run) {
    r' == r || (r'.Then? && !r'.action.ResolveWrite? && !r'.action.ReleaseWrite? && Plainly(r, r'.before))
  }

  lemma {:induction false} PlainlyIs(r: Run, r': Run)
    requires Plainly(r, r')
    ensures Prefix(r, r')
    ensures (NeverReleases(r) ==> NeverReleases(r')) && (NeverResolves(r) ==> NeverResolves(r'))
  {
    if r' != r {
      PlainlyIs(r, r'.before);
    }
  }

  lemma {:induction false} PlainlyTrans(p: Run, q: Run, r: Run)
    requires Plainly(p, q) && Plainly(q, r)
    ensures Plainly(p, r)
  {
    if q != r {
      PlainlyTrans(p, q, r.before);
    }
  }

  // ---- Calls of a run, and the states they lead to ----

  /** A call that is done but for its event. */
  function Waiting(e: Event): Op {
    Op(Finished, true, Some(e))
  }

  predicate Free(s: State, k: OpId) {
    forall o | o in s.ops :: o < k
  }

  function Creating(r: Run, k: OpId, t: TaskId, input: TaskInput): Run {
    Then(r, Create(k, t, input))
  }

  lemma {:induction false} CreatingIs(r: Run, k: OpId, t: TaskId, input: TaskInput)
    requires Free(Exec(r), k) && t !in Exec(r).tasks
    ensures Plainly(r, Creating(r, k, t, input)) && NoReturns(r, Creating(r, k, t, input))
    ensures var s := Exec(r);
            Exec(Creating(r, k, t, input)) == s.(
              tasks := s.tasks[t := NewTask(input)],
              ops := s.ops[k := Waiting(Event(t, CreateTask, input.assignee))])
  {
    assert Fresh(Exec(r), k);
  }

  /** Call k claims a pending task and call k+1 starts it. */
  function PickingUp(r: Run, k: OpId, t: TaskId, agent: AgentName): Run {
    Then(Claiming(r, k, t, agent), StartWrite(k + 1, t))
  }

  function Claiming(r: Run, k: OpId, t: TaskId, agent: AgentName): Run {
    Then(Then(r, CheckParents(k, t, agent)), ClaimWrite(k))
  }

  predicate Claimable(s: State, t: TaskId) {
    HasStatus(s, t, Pending) && CountSaysDone(s.tasks, s.tasks[t].parents)
  }

  lemma ClaimApplies(s: State, k: OpId, t: TaskId, agent: AgentName)
    requires Fresh(s, k) && Claimable(s, t) && agent != ""
    ensures Apply(Apply(s, CheckParents(k, t, agent)), ClaimWrite(k)) == s.(
              tasks := s.tasks[t := s.tasks[t].(status := Claimed, assignee := agent)],
              ops := s.ops[k := Waiting(Event(t, ClaimTask, agent))])
  {
    assert Apply(s, CheckParents(k, t, agent)) == Goto(s, k, ClaimAfterParentCheck(t, agent));
  }

  lemma {:induction false} PickingUpIs(r: Run, k: OpId, t: TaskId, agent: AgentName)
    requires Free(Exec(r), k) && Claimable(Exec(r), t) && agent != ""
    ensures Plainly(r, PickingUp(r, k, t, agent))
    ensures var s := Exec(r);
            Exec(PickingUp(r, k, t, agent)) == s.(
              tasks := s.tasks[t := s.tasks[t].(status := InProgress, assignee := agent)],
              ops := s.ops[k := Waiting(Event(t, ClaimTask, agent))]
                          [k + 1 := Waiting(Event(t, StartTask, ""))])
  {
    assert Fresh(Exec(r), k) && Fresh(Exec(r), k + 1);
    ClaimingIs(r, k, t, agent);
    StartApplies(Exec(Claiming(r, k, t, agent)), k + 1, t);
    PlainlyTrans(r, Claiming(r, k, t, agent), PickingUp(r, k, t, agent));
  }

  lemma StartApplies(s: State, k: OpId, t: TaskId)
    requires Fresh(s, k) && HasStatus(s, t, Claimed)
    ensures Apply(s, StartWrite(k, t)) == s.(
              tasks := s.tasks[t := s.tasks[t].(status := InProgress)],
              ops := s.ops[k := Waiting(Event(t, StartTask, ""))])
  {
  }

  lemma {:induction false} ClaimingIs(r: Run, k: OpId, t: TaskId, agent: AgentName)
    requires Fresh(Exec(r), k) && Claimable(Exec(r), t) && agent != ""
    ensures Plainly(r, Claiming(r, k, t, agent))
    ensures var s := Exec(r);
            Exec(Claiming(r, k, t, agent)) == s.(
              tasks := s.tasks[t := s.tasks[t].(status := Claimed, assignee := agent)],
              ops := s.ops[k := Waiting(Event(t, ClaimTask, agent))])
  {
    ClaimApplies(Exec(r), k, t, agent);
    assert Exec(Claiming(r, k, t, agent)) == Apply(Apply(Exec(r), CheckParents(k, t, agent)), ClaimWrite(k));
  }

  /** Call k completes a task; what it still has to do is promotion. */
  function Completing(r: Run, k: OpId, t: TaskId): Run {
    Then(r, CompleteWrite(k, t))
  }

  lemma {:induction false} CompletingIs(r: Run, k: OpId, t: TaskId)
    requires Free(Exec(r), k) && HasStatus(Exec(r), t, InProgress)
    ensures Plainly(r, Completing(r, k, t)) && NoReturns(r, Completing(r, k, t))
    ensures var s := Exec(r);
            Exec(Completing(r, k, t)) == s.(
              tasks := s.tasks[t := s.tasks[t].(status := Completed)],
              ops := s.ops[k := Op(PromoteBeforeSelect(t), true, Some(Event(t, CompleteTask, "")))])
  {
    assert Fresh(Exec(r), k);
  }

  /** Call k blocks a task with a new gate, and logs that in between. */
  function Blocking(r: Run, k: OpId, t: TaskId, g: GateId): Run {
    Then(BlockLogging(r, k, t, g), CreateGateWrite(k))
  }

  function BlockLogging(r: Run, k: OpId, t: TaskId, g: GateId): Run {
    Then(Then(r, BlockWrite(k, t, g)), LogInsert(k))
  }

  lemma {:induction false} BlockLoggingIs(r: Run, k: OpId, t: TaskId, g: GateId)
    requires Free(Exec(r), k) && HasStatus(Exec(r), t, InProgress)
    ensures Plainly(r, BlockLogging(r, k, t, g))
    ensures var s := Exec(r);
            Exec(BlockLogging(r, k, t, g)) == s.(
              tasks := s.tasks[t := s.tasks[t].(status := Blocked)],
              ops := s.ops[k := Op(BlockBeforeCreateGate(t, g), true, None)],
              log := s.log + [Event(t, BlockTask, "")])
  {
    assert Fresh(Exec(r), k);
    BlockLogs(Exec(r), k, t, g);
    assert Exec(BlockLogging(r, k, t, g)) == Apply(Apply(Exec(r), BlockWrite(k, t, g)), LogInsert(k));
  }

  lemma BlockLogs(s: State, k: OpId, t: TaskId, g: GateId)
    requires Fresh(s, k) && HasStatus(s, t, InProgress)
    ensures Apply(Apply(s, BlockWrite(k, t, g)), LogInsert(k)) == s.(
              tasks := s.tasks[t := s.tasks[t].(status := Blocked)],
              ops := s.ops[k := Op(BlockBeforeCreateGate(t, g), true, None)],
              log := s.log + [Event(t, BlockTask, "")])
  {
    var s1 := Apply(s, BlockWrite(k, t, g));
    assert s1.ops[k] == Op(BlockBeforeCreateGate(t, g), true, Some(Event(t, BlockTask, "")));
  }

  lemma GateApplies(s: State, k: OpId, t: TaskId, g: GateId)
    requires k in s.ops && s.ops[k] == Op(BlockBeforeCreateGate(t, g), true, None) && g !in s.gates
    ensures Apply(s, CreateGateWrite(k))
         == s.(gates := s.gates[g := NewGate(t)], ops := s.ops[k := Op(Finished, true, None)])
  {
  }

  lemma {:induction false} BlockingIs(r: Run, k: OpId, t: TaskId, g: GateId)
    requires Free(Exec(r), k) && HasStatus(Exec(r), t, InProgress) && g !in Exec(r).gates
    ensures Plainly(r, Blocking(r, k, t, g))
    ensures var s := Exec(r);
            Exec(Blocking(r, k, t, g)) == s.(
              tasks := s.tasks[t := s.tasks[t].(status := Blocked)],
              gates := s.gates[g := NewGate(t)],
              ops := s.ops[k := Op(Finished, true, None)],
              log := s.log + [Event(t, BlockTask, "")])
  {
    var logged := BlockLogging(r, k, t, g);
    BlockLoggingIs(r, k, t, g);
    PlainlyTrans(r, logged, Blocking(r, k, t, g));
    GateApplies(Exec(logged), k, t, g);
  }

  /** An agent answers a gate and the orchestrator approves the answer. */
  function Answering(r: Run, g: GateId): Run {
    Then(Then(r, AskGate(g, "yes")), AnswerGate(g, "yes", 0))
  }

  lemma AnswerApplies(s: State, g: GateId)
    requires g in s.gates && s.gates[g].status == Unasked
    ensures Apply(Apply(s, AskGate(g, "yes")), AnswerGate(g, "yes", 0))
         == s.(gates := s.gates[g := Gate(s.gates[g].taskId, Answered, "yes", Some(0))])
  {
    var asked := Gate(s.gates[g].taskId, Asked, "yes", s.gates[g].answeredAt);
    assert Apply(s, AskGate(g, "yes")) == s.(gates := s.gates[g := asked]);
  }

  lemma {:induction false} AnsweringIs(r: Run, g: GateId)
    requires g in Exec(r).gates && Exec(r).gates[g].status == Unasked
    ensures Plainly(r, Answering(r, g)) && NoReturns(r, Answering(r, g))
    ensures Exec(Answering(r, g)) == Exec(r).(
              gates := Exec(r).gates[g := Gate(Exec(r).gates[g].taskId, Answered, "yes", Some(0))])
  {
    AnswerApplies(Exec(r), g);
    assert Exec(Answering(r, g)) == Apply(Apply(Exec(r), AskGate(g, "yes")), AnswerGate(g, "yes", 0));
  }

  /** Call k unblocks task `t` naming gate `g`, whatever task the gate is of. */
  function Resolving(r: Run, k: OpId, t: TaskId, g: GateId): Run {
    Then(r, ResolveWrite(k, t, g))
  }

  function Unblocking(r: Run, k: OpId, t: TaskId, g: GateId): Run {
    Then(Resolving(r, k, t, g), UnblockWrite(k))
  }

  lemma {:induction false} ResolvingIs(r: Run, k: OpId, t: TaskId, g: GateId)
    requires Free(Exec(r), k) && t in Exec(r).tasks
    requires g in Exec(r).gates && Exec(r).gates[g].status == Answered
    ensures Prefix(r, Resolving(r, k, t, g)) && NoReturns(r, Resolving(r, k, t, g))
    ensures NeverReleases(r) ==> NeverReleases(Resolving(r, k, t, g))
    ensures ObeysH1(r) && Exec(r).gates[g].taskId == t ==> ObeysH1(Resolving(r, k, t, g))
    ensures var s := Exec(r);
            Exec(Resolving(r, k, t, g)) == s.(
              gates := s.gates[g := s.gates[g].(status := Resolved)],
              ops := s.ops[k := Op(UnblockAfterResolve(t), true, None)])
  {
    assert Fresh(Exec(r), k);
  }

  lemma {:induction false} UnblockingIs(r: Run, k: OpId, t: TaskId, g: GateId)
    requires Free(Exec(r), k) && t in Exec(r).tasks
    requires g in Exec(r).gates && Exec(r).gates[g].status == Answered
    ensures Prefix(r, Unblocking(r, k, t, g)) && NoReturns(r, Unblocking(r, k, t, g))
    ensures NeverReleases(r) ==> NeverReleases(Unblocking(r, k, t, g))
    ensures ObeysH1(r) && Exec(r).gates[g].taskId == t ==> ObeysH1(Unblocking(r, k, t, g))
    ensures var s := Exec(r);
            Exec(Unblocking(r, k, t, g)) == s.(
              tasks := s.tasks[t := s.tasks[t].(status := InProgress)],
              gates := s.gates[g := s.gates[g].(status := Resolved)],
              ops := s.ops[k := Waiting(Event(t, UpdateStatus, ""))])
  {
    ResolvingIs(r, k, t, g);
    var r1 := Resolving(r, k, t, g);
    assert Exec(Unblocking(r, k, t, g)) == Apply(Exec(r1), UnblockWrite(k));
  }

  /** Call k fails a task and decides to retry it, but has not written the retry yet. */
  function FailingCall(r: Run, k: OpId, t: TaskId): Run {
    Then(Then(Then(r, FailWrite(k, t)), LogInsert(k)), FailRead(k))
  }

  lemma FailLogs(s: State, k: OpId, t: TaskId)
    requires Fresh(s, k) && HasStatus(s, t, InProgress)
    ensures Apply(Apply(s, FailWrite(k, t)), LogInsert(k)) == s.(
              tasks := s.tasks[t := s.tasks[t].(status := Failed)],
              ops := s.ops[k := Op(FailAfterUpdate(t), true, None)],
              log := s.log + [Event(t, FailTask, "")])
  {
    var s1 := Apply(s, FailWrite(k, t));
    assert s1.ops[k] == Op(FailAfterUpdate(t), true, Some(Event(t, FailTask, "")));
  }

  lemma RetryChosen(s: State, k: OpId, t: TaskId)
    requires k in s.ops && s.ops[k] == Op(FailAfterUpdate(t), true, None) && t in s.tasks && MayRetry(s.tasks[t])
    ensures Apply(s, FailRead(k)) == s.(ops := s.ops[k := Op(FailBeforeRetry(t), true, None)])
  {
  }

  lemma {:induction false} FailingCallIs(r: Run, k: OpId, t: TaskId)
    requires Free(Exec(r), k) && HasStatus(Exec(r), t, InProgress) && MayRetry(Exec(r).tasks[t])
    ensures Plainly(r, FailingCall(r, k, t))
    ensures var s := Exec(r);
            Exec(FailingCall(r, k, t)) == s.(
              tasks := s.tasks[t := s.tasks[t].(status := Failed)],
              ops := s.ops[k := Op(FailBeforeRetry(t), true, None)],
              log := s.log + [Event(t, FailTask, "")])
  {
    assert Fresh(Exec(r), k);
    FailLogs(Exec(r), k, t);
    var logged := Then(Then(r, FailWrite(k, t)), LogInsert(k));
    assert Plainly(r, logged);
    PlainlyTrans(r, logged, FailingCall(r, k, t));
    assert Exec(logged) == Apply(Apply(Exec(r), FailWrite(k, t)), LogInsert(k));
    RetryChosen(Exec(logged), k, t);
  }

  function Retrying(r: Run, k: OpId): Run {
    Then(r, RetryWrite(k))
  }

  lemma {:induction false} RetryingIs(r: Run, k: OpId, t: TaskId)
    requires k in Exec(r).ops && Exec(r).ops[k] == Op(FailBeforeRetry(t), true, None) && t in Exec(r).tasks
    ensures Plainly(r, Retrying(r, k))
    ensures var s := Exec(r);
            Exec(Retrying(r, k)) == s.(tasks := s.tasks[t := RetriedRow(s.tasks[t])],
                                       ops := s.ops[k := Waiting(Event(t, TaskRetry, ""))])
  {
  }

  /** Call k, a release, selects the tasks an agent holds. */
  function Selecting(r: Run, k: OpId, agent: AgentName): Run {
    Then(r, SelectHeld(k, agent))
  }

  lemma {:induction false} SelectingIs(r: Run, k: OpId, agent: AgentName)
    requires Free(Exec(r), k)
    ensures Plainly(r, Selecting(r, k, agent)) && NoReturns(r, Selecting(r, k, agent))
    ensures Exec(Selecting(r, k, agent))
         == Exec(r).(ops := Exec(r).ops[k := Op(Releasing(HeldBy(Exec(r).tasks, agent)), true, None)])
  {
    assert Fresh(Exec(r), k);
  }

  /** Call k writes the release of a task it selected, whatever happened to it since. */
  function Returning(r: Run, k: OpId, t: TaskId): Run {
    Then(r, ReleaseWrite(k, t))
  }

  lemma {:induction false} ReturningIs(r: Run, k: OpId, t: TaskId)
    requires k in Exec(r).ops && Exec(r).ops[k] == Op(Releasing({t}), true, None) && t in Exec(r).tasks
    ensures Prefix(r, Returning(r, k, t)) && (NeverResolves(r) ==> NeverResolves(Returning(r, k, t)))
    ensures var s := Exec(r);
            Exec(Returning(r, k, t)) == s.(
              tasks := s.tasks[t := ReleasedRow(s.tasks[t])],
              ops := s.ops[k := Op(Releasing({}), true, Some(Event(t, StaleAgentRelease, "")))])
  {
    assert {t} - {t} == {};
  }

  /** Call k, which completed `v`, logs that, selects the children and promotes `c`. */
  function Promoting(r: Run, k: OpId, c: TaskId): Run {
    Then(Then(Then(Then(r, LogInsert(k)), SelectChildren(k, {})), CheckChild(k, c)), LogInsert(k))
  }

  lemma ChildSelected(s: State, k: OpId, v: TaskId, c: TaskId, e: Event)
    requires k in s.ops && s.ops[k] == Op(PromoteBeforeSelect(v), true, Some(e))
    requires HasStatus(s, c, Pending) && v in s.tasks[c].parents
    ensures var s' := Apply(Apply(s, LogInsert(k)), SelectChildren(k, {}));
            && s'.tasks == s.tasks && s'.gates == s.gates && k in s'.ops && s'.ops == s.ops[k := s'.ops[k]]
            && Ready(s', k) && s'.ops[k].pc.Promoting? && c in s'.ops[k].pc.todo
  {
    assert Apply(s, LogInsert(k)).ops[k] == Op(PromoteBeforeSelect(v), true, None);
  }

  lemma ChildChecked(s: State, k: OpId, c: TaskId)
    requires Ready(s, k) && s.ops[k].pc.Promoting? && c in s.ops[k].pc.todo
    requires c in s.tasks && CountSaysDone(s.tasks, s.tasks[c].parents)
    ensures var s' := Apply(Apply(s, CheckChild(k, c)), LogInsert(k));
            && s'.tasks == s.tasks && s'.gates == s.gates && k in s'.ops && s'.ops == s.ops[k := s'.ops[k]]
            && Promoted(s', c)
  {
    var s1 := Apply(s, CheckChild(k, c));
    assert s1.ops[k].live && s1.ops[k].note == Some(PromotedEvent(c));
    var s2 := Apply(s1, LogInsert(k));
    assert s2.log[|s2.log| - 1] == PromotedEvent(c);
  }

  lemma {:induction false} PromotingIs(r: Run, k: OpId, v: TaskId, c: TaskId, e: Event)
    requires k in Exec(r).ops && Exec(r).ops[k] == Op(PromoteBeforeSelect(v), true, Some(e))
    requires HasStatus(Exec(r), c, Pending) && Exec(r).tasks[c].parents == [v] && IsCompleted(Exec(r).tasks, v)
    ensures Plainly(r, Promoting(r, k, c)) && Promoted(Exec(Promoting(r, k, c)), c)
    ensures var s, s' := Exec(r), Exec(Promoting(r, k, c));
            s'.tasks == s.tasks && s'.gates == s.gates && k in s'.ops && s'.ops == s.ops[k := s'.ops[k]]
  {
    var r1 := Then(Then(r, LogInsert(k)), SelectChildren(k, {}));
    CountingCheckExact(Exec(r).tasks, [v]);
    ChildSelected(Exec(r), k, v, c, e);
    assert Exec(r1) == Apply(Apply(Exec(r), LogInsert(k)), SelectChildren(k, {}));
    ChildChecked(Exec(r1), k, c);
    assert Plainly(r, r1);
    PlainlyTrans(r, r1, Promoting(r, k, c));
    assert Exec(Promoting(r, k, c)) == Apply(Apply(Exec(r1), CheckChild(k, c)), LogInsert(k));
  }

  // ---- What such calls add to the counts of a task ----

  /** Run `r'` goes on after `r` without a claim, block, retry or release write. */
  predicate NoReturns(r: Run, r': Run) {
    r' == r
    || (r'.Then? && !r'.action.ClaimWrite? && !r'.action.BlockWrite? && !r'.action.RetryWrite?
        && !r'.action.ReleaseWrite? && NoReturns(r, r'.before))
  }

  lemma {:induction false} NoReturnsCount(r: Run, r': Run, t: TaskId)
    requires NoReturns(r, r')
    ensures Count(r', t, Claim) == Count(r, t, Claim) && Count(r', t, Block) == Count(r, t, Block)
    ensures Count(r', t, Retry) == Count(r, t, Retry) && Count(r', t, Release) == Count(r, t, Release)
  {
    if r' != r {
      NoReturnsCount(r, r'.before, t);
    }
  }

  lemma {:induction false} NoReturnsTrans(p: Run, q: Run, r: Run)
    requires NoReturns(p, q) && NoReturns(q, r)
    ensures NoReturns(p, r)
  {
    if r != q {
      NoReturnsTrans(p, q, r.before);
    }
  }

  /** Between two moments with different statuses of a task, its status changed. */
  lemma {:induction false} ChangesGrow(q: Run, r: Run, t: TaskId)
    requires Prefix(q, r) && t in Exec(q).tasks
    ensures t in Exec(r).tasks && Changes(q, t) <= Changes(r, t)
    ensures Exec(r).tasks[t].status != Exec(q).tasks[t].status ==> Changes(q, t) < Changes(r, t)
  {
    if q != r {
      ChangesGrow(q, r.before, t);
      RowKept(Exec(r.before), r.action, t);
    }
  }

  /** Picking up a pending task changes its status twice, and blocks and releases nothing. */
  lemma {:induction false} PickedUpCounts(r: Run, k: OpId, t: TaskId, agent: AgentName)
    requires Free(Exec(r), k) && Claimable(Exec(r), t) && agent != ""
    ensures var r' := PickingUp(r, k, t, agent);
            && Changes(r', t) >= Changes(r, t) + 2
            && Count(r', t, Block) == Count(r, t, Block) && Count(r', t, Release) == Count(r, t, Release)
  {
    assert Fresh(Exec(r), k);
    var claimed := Claiming(r, k, t, agent);
    ClaimingIs(r, k, t, agent);
    PickingUpIs(r, k, t, agent);
    PlainlyIs(r, claimed);
    ChangesGrow(r, claimed, t);
    ChangesGrow(claimed, PickingUp(r, k, t, agent), t);
    assert Count(Then(r, CheckParents(k, t, agent)), t, Block) == Count(r, t, Block);
    assert Count(Then(r, CheckParents(k, t, agent)), t, Release) == Count(r, t, Release);
  }

  /** Calls k to k+2 create a task without parents, claim it and start it. */
  function Starting(r: Run, k: OpId, t: TaskId, agent: AgentName, maxRetries: int): Run {
    PickingUp(Creating(r, k, t, Plain([], maxRetries)), k + 1, t, agent)
  }

  lemma {:induction false} StartingIs(r: Run, k: OpId, t: TaskId, agent: AgentName, maxRetries: int)
    requires Free(Exec(r), k) && t !in Exec(r).tasks && agent != ""
    ensures Plainly(r, Starting(r, k, t, agent, maxRetries))
    ensures var s := Exec(r);
            Exec(Starting(r, k, t, agent, maxRetries)) == s.(
              tasks := s.tasks[t := Working(agent, [], maxRetries)],
              ops := s.ops[k := Waiting(Event(t, CreateTask, ""))]
                          [k + 1 := Waiting(Event(t, ClaimTask, agent))]
                          [k + 2 := Waiting(Event(t, StartTask, ""))])
  {
    var created := Creating(r, k, t, Plain([], maxRetries));
    CreatingIs(r, k, t, Plain([], maxRetries));
    PickingUpIs(created, k + 1, t, agent);
    PlainlyTrans(r, created, Starting(r, k, t, agent, maxRetries));
  }

  lemma {:induction false} StartedCounts(r: Run, k: OpId, t: TaskId, agent: AgentName, maxRetries: int)
    requires Free(Exec(r), k) && t !in Exec(r).tasks && agent != ""
    ensures Changes(Starting(r, k, t, agent, maxRetries), t) >= 2
    ensures Count(Starting(r, k, t, agent, maxRetries), t, Block) == 0
  {
    UnbornIsUntouched(r, t);
    CreatingIs(r, k, t, Plain([], maxRetries));
    NoReturnsCount(r, Creating(r, k, t, Plain([], maxRetries)), t);
    PickedUpCounts(Creating(r, k, t, Plain([], maxRetries)), k + 1, t, agent);
  }

  // ---- Runs that obey H2 but not H1 ----

  /** A task blocked on an answered gate, and nothing else going on. */
  lemma {:induction false} WaitingForUnblock(x: TaskId, g: GateId, agent: AgentName) returns (r: Run)
    requires agent != ""
    ensures NeverReleases(r) && NeverResolves(r) && Free(Exec(r), 4)
    ensures Exec(r).tasks == map[x := Working(agent, [], 0).(status := Blocked)]
    ensures Exec(r).gates == map[g := Gate(x, Answered, "yes", Some(0))]
    ensures forall o | o in Exec(r).ops :: Exec(r).ops[o].pc == Finished
  {
    var r0 := Starting(Begin, 0, x, agent, 0);
    StartingIs(Begin, 0, x, agent, 0);
    var r1 := Blocking(r0, 3, x, g);
    BlockingIs(r0, 3, x, g);
    AnsweringIs(r1, g);
    r := Answering(r1, g);
    PlainlyTrans(Begin, r0, r1);
    PlainlyTrans(Begin, r1, r);
    PlainlyIs(Begin, r);
  }

  lemma SelfCycle(tasks: Tasks, v: TaskId)
    requires v in tasks && v in tasks[v].parents && tasks[v].status != Completed
    ensures IsCycle(tasks, [v, v]) && !AllCompleted(tasks, tasks[v].parents)
  {
    var i :| 0 <= i < |tasks[v].parents| && tasks[v].parents[i] == v;
    assert !IsCompleted(tasks, tasks[v].parents[i]);
  }

  lemma {:induction false} WrongUnblock(r: Run, x: TaskId, v: TaskId, g: GateId) returns (r': Run)
    requires Free(Exec(r), 5) && NeverReleases(r) && x != v && v in Exec(r).tasks
    requires HasStatus(Exec(r), x, Blocked)
    requires Exec(r).gates == map[g := Gate(x, Answered, "yes", Some(0))]
    requires forall o | o in Exec(r).ops :: Exec(r).ops[o].pc == Finished
    ensures r' == Unblocking(r, 5, v, g) && NeverReleases(r') && NoReturns(r, r')
    ensures Exec(r').tasks == Exec(r).tasks[v := Exec(r).tasks[v].(status := InProgress)]
    ensures Tokens(Exec(r'), x) == {}
  {
    UnblockingIs(r, 5, v, g);
    r' := Unblocking(r, 5, v, g);
  }

  /** Unblocking pending task `v`, whatever its parents, with the gate of task `x`: between
      the two writes the task of the call is not blocked, and after them `v` is in progress
      with no owner and no claim, and `x` is blocked without a token. */
  lemma {:induction false} WithoutH1PendingTaskRuns(
      x: TaskId, v: TaskId, g: GateId, agent: AgentName, parents: seq<TaskId>)
      returns (q: Run, r: Run)
    requires agent != "" && x != v
    ensures ObeysH2(r) && Prefix(q, r)
    ensures HasStatus(Exec(q), v, Pending) && 5 in Exec(q).ops && Exec(q).ops[5].pc == UnblockAfterResolve(v)
    ensures HasStatus(Exec(r), x, Blocked) && Tokens(Exec(r), x) == {}
    ensures HasStatus(Exec(r), v, InProgress) && Exec(r).tasks[v].assignee == "" && Count(r, v, Claim) == 0
    ensures Exec(r).tasks.Keys == {x, v} && Exec(r).tasks[v].parents == parents
    ensures v in parents ==> IsCycle(Exec(r).tasks, [v, v]) && !AllCompleted(Exec(r).tasks, parents)
  {
    var r0 := WaitingForUnblock(x, g, agent);
    var r1 := Creating(r0, 4, v, Plain(parents, 0));
    CreatingIs(r0, 4, v, Plain(parents, 0));
    ResolvingIs(r1, 5, v, g);
    q := Resolving(r1, 5, v, g);
    r := WrongUnblock(r1, x, v, g);
    UnbornIsUntouched(r0, v);
    NoReturnsTrans(r0, r1, r);
    NoReturnsCount(r0, r, v);
    NoReleaseNoQuarrel(r);
    if v in parents {
      SelfCycle(Exec(r).tasks, v);
    }
  }

  /** Unblocking a completed task with the gate of another: completed is left, and the task
      changes status a fourth time without a retry, a release or a block. */
  lemma {:induction false} WithoutH1CompletedIsLeft(x: TaskId, v: TaskId, g: GateId, agent: AgentName)
      returns (q: Run, r: Run)
    requires agent != "" && x != v
    ensures Prefix(q, r) && ObeysH2(r)
    ensures HasStatus(Exec(q), v, Completed) && HasStatus(Exec(r), v, InProgress)
    ensures Changes(r, v) > 3 + 4 * Count(r, v, Retry) + 3 * Count(r, v, Release) + 2 * Count(r, v, Block)
  {
    var r0 := WaitingForUnblock(x, g, agent);
    var r1 := Starting(r0, 4, v, agent, 0);
    StartingIs(r0, 4, v, agent, 0);
    StartedCounts(r0, 4, v, agent, 0);
    PlainlyIs(r0, r1);
    q := Completing(r1, 7, v);
    CompletingIs(r1, 7, v);
    ChangesGrow(r1, q, v);
    r := Unblocking(q, 8, v, g);
    UnblockingIs(q, 8, v, g);
    ChangesGrow(q, r, v);
    NoReturnsCount(q, r, v);
    NoReturnsCount(r1, q, v);
    RetryCountCounts(r, v);
    NoReleaseNoQuarrel(r);
  }

  /** A task unblocked with the gate of another completes although it was never claimed and
      its parent is not completed. */
  lemma {:induction false} WithoutH1AncestorIsLeftOut(x: TaskId, v: TaskId, c: TaskId, g: GateId, agent: AgentName)
      returns (r: Run)
    requires agent != "" && x != v && c != v && c != x
    ensures ObeysH2(r) && IsPath(Exec(r).tasks, [c, v])
    ensures HasStatus(Exec(r), c, Completed) && Count(r, c, Claim) == 0 && !IsCompleted(Exec(r).tasks, v)
  {
    var q, m := WithoutH1PendingTaskRuns(x, c, g, agent, [v]);
    var k := FreshFrom(Exec(m).ops.Keys);
    r := Completing(m, k, c);
    CompletingIs(m, k, c);
  }

  /** Call 7 is about to retry `v`, while gate `g` of another task waits to be resolved. */
  lemma {:induction false} FailingWhileAnswered(x: TaskId, v: TaskId, g: GateId, agent: AgentName) returns (r: Run)
    requires agent != "" && x != v
    ensures NeverReleases(r) && Free(Exec(r), 8)
    ensures v in Exec(r).tasks && Exec(r).tasks[v] == Working(agent, [], 1).(status := Failed)
    ensures Exec(r).gates == map[g := Gate(x, Answered, "yes", Some(0))]
    ensures 7 in Exec(r).ops && Exec(r).ops[7] == Op(FailBeforeRetry(v), true, None)
  {
    var r0 := WaitingForUnblock(x, g, agent);
    var r1 := Starting(r0, 4, v, agent, 1);
    StartingIs(r0, 4, v, agent, 1);
    r := FailingCall(r1, 7, v);
    FailingCallIs(r1, 7, v);
    PlainlyTrans(r0, r1, r);
    PlainlyIs(r0, r);
  }

  /** Unblocking a failed task between the two writes of its FailTask call: failed is left
      without a retry, a second call fails the task, both calls retry it, and the limit of one
      retry is passed. */
  lemma {:induction false} WithoutH1RetriesPassLimit(x: TaskId, v: TaskId, g: GateId, agent: AgentName)
      returns (q: Run, a: Action, m: Run, r: Run)
    requires agent != "" && x != v
    ensures ObeysH2(r) && Prefix(Then(q, a), m) && Prefix(m, r)
    ensures HasStatus(Exec(q), v, Failed) && HasStatus(Exec(Then(q, a)), v, InProgress) && !a.RetryWrite?
    ensures Failing(Exec(m), 7, v) && Failing(Exec(m), 9, v)
    ensures v in Exec(r).tasks && Exec(r).tasks[v].maxRetries == 1 && Exec(r).tasks[v].retryCount == 2
  {
    var r2 := FailingWhileAnswered(x, v, g, agent);
    ResolvingIs(r2, 8, v, g);
    UnblockingIs(r2, 8, v, g);
    q, a := Resolving(r2, 8, v, g), UnblockWrite(8);
    m := FailingCall(Then(q, a), 9, v);
    FailingCallIs(Then(q, a), 9, v);
    r := RetriedTwice(m, 7, 9, v);
    PlainlyIs(Then(q, a), m);
    PlainlyIs(m, r);
    NoReleaseNoQuarrel(r);
  }

  /** Two calls that are both failing one task both retry it. */
  lemma {:induction false} RetriedTwice(m: Run, k: OpId, j: OpId, v: TaskId) returns (r: Run)
    requires k != j && Exec(m).ops.Keys >= {k, j} && v in Exec(m).tasks
    requires Exec(m).ops[k] == Exec(m).ops[j] == Op(FailBeforeRetry(v), true, None)
    ensures Plainly(m, r) && v in Exec(r).tasks && Exec(r).tasks[v].maxRetries == Exec(m).tasks[v].maxRetries
    ensures Exec(r).tasks[v].retryCount == Exec(m).tasks[v].retryCount + 2
  {
    RetryingIs(m, k, v);
    RetryingIs(Retrying(m, k), j, v);
    r := Retrying(Retrying(m, k), j);
    PlainlyTrans(m, Retrying(m, k), r);
  }

  /** Call k completes `v`, call k+1 creates its child `c`, and call k promotes the child. */
  lemma {:induction false} PromotedChild(r: Run, k: OpId, v: TaskId, c: TaskId) returns (r': Run)
    requires Free(Exec(r), k) && HasStatus(Exec(r), v, InProgress) && c !in Exec(r).tasks
    ensures Plainly(r, r') && Promoted(Exec(r'), c) && Exec(r').gates == Exec(r).gates
    ensures Exec(r').tasks
         == Exec(r).tasks[v := Exec(r).tasks[v].(status := Completed)][c := NewTask(Plain([v], 0))]
    ensures Free(Exec(r'), k + 2)
    ensures forall o | o in Exec(r).ops :: o in Exec(r').ops && Exec(r').ops[o] == Exec(r).ops[o]
  {
    var r1 := Completing(r, k, v);
    CompletingIs(r, k, v);
    var r2 := Creating(r1, k + 1, c, Plain([v], 0));
    CreatingIs(r1, k + 1, c, Plain([v], 0));
    PlainlyTrans(r, r1, r2);
    PromotingIs(r2, k, v, c, Event(v, CompleteTask, ""));
    r' := Promoting(r2, k, c);
    PlainlyTrans(r, r2, r');
  }

  /** A child is promoted by the completion that a wrong unblock then undoes. */
  lemma {:induction false} WithoutH1PromotionIsUndone(x: TaskId, v: TaskId, c: TaskId, g: GateId, agent: AgentName)
      returns (r: Run)
    requires agent != "" && x != v && c != v && c != x
    ensures ObeysH2(r) && Promoted(Exec(r), c)
    ensures HasStatus(Exec(r), c, Pending) && !AllCompleted(Exec(r).tasks, Exec(r).tasks[c].parents)
  {
    var r0 := WaitingForUnblock(x, g, agent);
    StartingIs(r0, 4, v, agent, 0);
    var r1 := PromotedChild(Starting(r0, 4, v, agent, 0), 7, v, c);
    PlainlyTrans(r0, Starting(r0, 4, v, agent, 0), r1);
    PlainlyIs(r0, r1);
    UnblockingIs(r1, 9, v, g);
    r := Unblocking(r1, 9, v, g);
    assert !IsCompleted(Exec(r).tasks, Exec(r).tasks[c].parents[0]);
    NoReleaseNoQuarrel(r);
  }

  /** An aborted block is blocked for good only under H1: here a wrong unblock frees its task. */
  lemma {:induction false} WithoutH1StrandedIsFreed(x: TaskId, v: TaskId, g: GateId, agent: AgentName)
      returns (q: Run, r: Run)
    requires agent != "" && x != v
    ensures ObeysH2(r) && Prefix(q, r)
    ensures Stranded(Exec(q), 7, v) && HasStatus(Exec(q), v, Blocked) && HasStatus(Exec(r), v, InProgress)
  {
    var r0 := WaitingForUnblock(x, g, agent);
    var r1 := Starting(r0, 4, v, agent, 0);
    StartingIs(r0, 4, v, agent, 0);
    q := StoppedBlock(r1, 7, v, g);
    PlainlyTrans(r0, r1, q);
    PlainlyIs(r0, q);
    UnblockingIs(q, 8, v, g);
    r := Unblocking(q, 8, v, g);
    NoReleaseNoQuarrel(r);
  }

  /** Call k blocks a task and stops. */
  lemma {:induction false} StoppedBlock(r: Run, k: OpId, t: TaskId, g: GateId) returns (r': Run)
    requires Free(Exec(r), k) && HasStatus(Exec(r), t, InProgress)
    ensures Plainly(r, r') && Stranded(Exec(r'), k, t)
    ensures Exec(r').tasks == Exec(r).tasks[t := Exec(r).tasks[t].(status := Blocked)]
    ensures Exec(r').gates == Exec(r).gates
    ensures Exec(r').ops == Exec(r).ops[k := Op(BlockBeforeCreateGate(t, g), false, None)]
  {
    var logged := BlockLogging(r, k, t, g);
    BlockLoggingIs(r, k, t, g);
    r' := Then(logged, Abort(k));
    PlainlyTrans(r, logged, r');
  }

  // ---- Runs that obey H1 but not H2 ----

  /** A stale agent's tasks were selected for release while it worked on task `v`. */
  lemma {:induction false} SelectedForRelease(v: TaskId, agent: AgentName, maxRetries: int) returns (r: Run)
    requires agent != ""
    ensures NeverResolves(r) && Free(Exec(r), 4)
    ensures Exec(r).tasks == map[v := Working(agent, [], maxRetries)] && Exec(r).gates == map[]
    ensures 3 in Exec(r).ops && Exec(r).ops[3] == Op(Releasing({v}), true, None)
    ensures NeverReleases(r) && Changes(r, v) >= 2 && Count(r, v, Block) == 0
  {
    var r0 := Starting(Begin, 0, v, agent, maxRetries);
    StartingIs(Begin, 0, v, agent, maxRetries);
    StartedCounts(Begin, 0, v, agent, maxRetries);
    assert Exec(r0).tasks == map[v := Working(agent, [], maxRetries)];
    r := SelectedOnly(r0, v, agent);
    PlainlyTrans(Begin, r0, r);
    PlainlyIs(Begin, r);
    PlainlyIs(r0, r);
    ChangesGrow(r0, r, v);
    NoReturnsCount(r0, r, v);
  }

  lemma {:induction false} SelectedOnly(r: Run, v: TaskId, agent: AgentName) returns (r': Run)
    requires Free(Exec(r), 3) && Exec(r).tasks.Keys == {v}
    requires HasStatus(Exec(r), v, InProgress) && Exec(r).tasks[v].assignee == agent
    ensures Plainly(r, r') && NoReturns(r, r')
    ensures Exec(r') == Exec(r).(ops := Exec(r).ops[3 := Op(Releasing({v}), true, None)])
  {
    assert HeldBy(Exec(r).tasks, agent) == {v};
    SelectingIs(r, 3, agent);
    r' := Selecting(r, 3, agent);
  }

  /** The task completes before the release is written: completed is left, and a second way
      through is more than a release pays for. */
  lemma {:induction false} WithoutH2CompletedIsLeft(v: TaskId, agent: AgentName) returns (q: Run, m: Run, r: Run)
    requires agent != ""
    ensures Prefix(q, m) && Prefix(m, r) && ObeysH1(r)
    ensures HasStatus(Exec(q), v, Completed) && HasStatus(Exec(m), v, Pending)
    ensures Changes(r, v) > 3 + 4 * Count(r, v, Retry) + 3 * Count(r, v, Release) + 2 * Count(r, v, Block)
  {
    var r0 := SelectedForRelease(v, agent, 0);
    q := Completing(r0, 4, v);
    CompletingIs(r0, 4, v);
    ChangesGrow(r0, q, v);
    NoReturnsCount(r0, q, v);
    NoReleaseNoQuarrel(q);
    m := Returning(q, 3, v);
    ReturningIs(q, 3, v);
    ChangesGrow(q, m, v);
    RetryCountCounts(m, v);
    r := SecondWayThrough(m, v, agent);
  }

  lemma {:induction false} SecondWayThrough(m: Run, v: TaskId, agent: AgentName) returns (r: Run)
    requires Free(Exec(m), 5) && Claimable(Exec(m), v) && agent != "" && NeverResolves(m)
    ensures ObeysH1(r) && Prefix(m, r)
    ensures Changes(r, v) >= Changes(m, v) + 3 && Count(r, v, Retry) == Count(m, v, Retry)
    ensures Count(r, v, Release) == Count(m, v, Release) && Count(r, v, Block) == Count(m, v, Block)
  {
    var r1 := PickingUp(m, 5, v, agent);
    PickingUpIs(m, 5, v, agent);
    PickedUpCounts(m, 5, v, agent);
    PlainlyIs(m, r1);
    r := Completing(r1, 7, v);
    CompletingIs(r1, 7, v);
    ChangesGrow(r1, r, v);
    NoReturnsCount(r1, r, v);
    RetryCountCounts(m, v);
    RetryCountCounts(r, v);
    PrefixTrans(m, r1, r);
    NoResolveNoMixup(r);
  }

  /** Its child is picked up and completed before the release is written: a child in progress,
      and then a completed one, has a parent that is not completed. */
  lemma {:induction false} WithoutH2AncestorIsLeftOut(v: TaskId, c: TaskId, agent: AgentName)
      returns (q: Run, r: Run)
    requires agent != "" && c != v
    ensures ObeysH1(q) && HasStatus(Exec(q), c, InProgress) && !AllCompleted(Exec(q).tasks, Exec(q).tasks[c].parents)
    ensures ObeysH1(r) && HasStatus(Exec(r), c, Completed) && !IsCompleted(Exec(r).tasks, v)
    ensures Prefix(q, r) && IsPath(Exec(r).tasks, [c, v])
  {
    var r0 := SelectedForRelease(v, agent, 0);
    var r1 := Completing(r0, 4, v);
    CompletingIs(r0, 4, v);
    var r2 := Creating(r1, 5, c, Plain([v], 0));
    CreatingIs(r1, 5, c, Plain([v], 0));
    CountingCheckExact(Exec(r2).tasks, [v]);
    q := ReleasedUnderChild(r2, v, c, agent);
    CompletingIs(q, 8, c);
    r := Completing(q, 8, c);
    NoResolveNoMixup(q);
  }

  lemma {:induction false} ReleasedUnderChild(r: Run, v: TaskId, c: TaskId, agent: AgentName) returns (r': Run)
    requires Free(Exec(r), 6) && Claimable(Exec(r), c) && agent != "" && c != v && NeverResolves(r)
    requires 3 in Exec(r).ops && Exec(r).ops[3] == Op(Releasing({v}), true, None)
    requires v in Exec(r).tasks && Exec(r).tasks[c].parents == [v]
    ensures NeverResolves(r') && Free(Exec(r'), 8) && HasStatus(Exec(r'), c, InProgress)
    ensures Exec(r').tasks[c].parents == [v] && HasStatus(Exec(r'), v, Pending)
    ensures !AllCompleted(Exec(r').tasks, Exec(r').tasks[c].parents)
  {
    PickingUpIs(r, 6, c, agent);
    var r1 := PickingUp(r, 6, c, agent);
    PlainlyIs(r, r1);
    ReturningIs(r1, 3, v);
    r' := Returning(r1, 3, v);
    assert !IsCompleted(Exec(r').tasks, Exec(r').tasks[c].parents[0]);
  }

  lemma {:induction false} BlockedThenReleased(v: TaskId, g: GateId, agent: AgentName) returns (r: Run)
    requires agent != ""
    ensures NeverResolves(r) && Free(Exec(r), 5) && HasStatus(Exec(r), v, Pending)
    ensures Exec(r).tasks[v].assignee == "" && Exec(r).gates == map[g := NewGate(v)]
    ensures Count(r, v, Claim) == Returns(r, v)
  {
    var r0 := SelectedForRelease(v, agent, 0);
    var r1 := Blocking(r0, 4, v, g);
    BlockingIs(r0, 4, v, g);
    PlainlyIs(r0, r1);
    NoReleaseNoQuarrel(r1);
    NoResolveNoMixup(r1);
    ClaimsBalance(r1, v);
    r := Returning(r1, 3, v);
    ReturningIs(r1, 3, v);
  }

  /** The task is blocked before the release is written: it is pending with a token, an
      unblock call for it is past its first write, and after its second write the task runs
      with no owner and one claim for one return to pending. */
  lemma {:induction false} WithoutH2BlockedIsReleased(v: TaskId, g: GateId, agent: AgentName)
      returns (q: Run, m: Run, r: Run)
    requires agent != ""
    ensures ObeysH1(r) && Prefix(q, m) && Prefix(m, r)
    ensures HasStatus(Exec(q), v, Pending) && Tokens(Exec(q), v) != {}
    ensures HasStatus(Exec(m), v, Pending) && 5 in Exec(m).ops && Exec(m).ops[5].pc == UnblockAfterResolve(v)
    ensures HasStatus(Exec(r), v, InProgress) && Exec(r).tasks[v].assignee == ""
    ensures Count(r, v, Claim) == Returns(r, v)
  {
    q := BlockedThenReleased(v, g, agent);
    assert GateToken(g) in Tokens(Exec(q), v);
    var r1 := Answering(q, g);
    AnsweringIs(q, g);
    PlainlyIs(q, r1);
    NoResolveNoMixup(r1);
    ResolvingIs(r1, 5, v, g);
    UnblockingIs(r1, 5, v, g);
    m, r := Resolving(r1, 5, v, g), Unblocking(r1, 5, v, g);
    PrefixTrans(q, r1, m);
    NoReturnsTrans(q, r1, r);
    NoReturnsCount(q, r, v);
  }

  /** The task fails before the release is written: failed is left without a retry, the task
      is claimed, started and failed again, both calls retry it, and the limit of one retry is
      passed. */
  lemma {:induction false} WithoutH2RetriesPassLimit(v: TaskId, agent: AgentName)
      returns (q: Run, a: Action, m: Run, r: Run)
    requires agent != ""
    ensures ObeysH1(r) && Prefix(Then(q, a), m) && Prefix(m, r)
    ensures HasStatus(Exec(q), v, Failed) && HasStatus(Exec(Then(q, a)), v, Pending) && !a.RetryWrite?
    ensures Failing(Exec(m), 4, v) && Failing(Exec(m), 7, v)
    ensures v in Exec(r).tasks && Exec(r).tasks[v].maxRetries == 1 && Exec(r).tasks[v].retryCount == 2
  {
    var r0 := SelectedForRelease(v, agent, 1);
    q, a := FailingCall(r0, 4, v), ReleaseWrite(3, v);
    FailingCallIs(r0, 4, v);
    ReturningIs(q, 3, v);
    m := FailedAgain(Then(q, a), v, agent);
    r := RetriedTwice(m, 4, 7, v);
    PlainlyIs(r0, q);
    PlainlyIs(Then(q, a), m);
    PlainlyIs(m, r);
    NoResolveNoMixup(r);
  }

  lemma {:induction false} FailedAgain(r: Run, v: TaskId, agent: AgentName) returns (r': Run)
    requires Free(Exec(r), 5) && Claimable(Exec(r), v) && agent != "" && MayRetry(Exec(r).tasks[v])
    ensures Plainly(r, r') && v in Exec(r').tasks && Exec(r').tasks[v].retryCount == Exec(r).tasks[v].retryCount
    ensures Exec(r').tasks[v].maxRetries == Exec(r).tasks[v].maxRetries
    ensures forall o | o in Exec(r).ops :: o in Exec(r').ops && Exec(r').ops[o] == Exec(r).ops[o]
    ensures 7 in Exec(r').ops && Exec(r').ops[7] == Op(FailBeforeRetry(v), true, None)
  {
    PickingUpIs(r, 5, v, agent);
    FailingCallIs(PickingUp(r, 5, v, agent), 7, v);
    r' := FailingCall(PickingUp(r, 5, v, agent), 7, v);
    PlainlyTrans(r, PickingUp(r, 5, v, agent), r');
  }

  /** A child is promoted by the completion that the release then undoes. */
  lemma {:induction false} WithoutH2PromotionIsUndone(v: TaskId, c: TaskId, agent: AgentName) returns (r: Run)
    requires agent != "" && c != v
    ensures ObeysH1(r) && Promoted(Exec(r), c)
    ensures HasStatus(Exec(r), c, Pending) && !AllCompleted(Exec(r).tasks, Exec(r).tasks[c].parents)
  {
    var r0 := SelectedForRelease(v, agent, 0);
    var r1 := PromotedChild(r0, 4, v, c);
    PlainlyIs(r0, r1);
    ReturningIs(r1, 3, v);
    r := Returning(r1, 3, v);
    assert !IsCompleted(Exec(r).tasks, Exec(r).tasks[c].parents[0]);
    NoResolveNoMixup(r);
  }

  /** A task whose block stopped is freed by a release that selected it before. */
  lemma {:induction false} WithoutH2StrandedIsFreed(v: TaskId, g: GateId, agent: AgentName)
      returns (q: Run, r: Run)
    requires agent != ""
    ensures ObeysH1(r) && Prefix(q, r)
    ensures Stranded(Exec(q), 4, v) && HasStatus(Exec(q), v, Blocked) && HasStatus(Exec(r), v, Pending)
  {
    var r0 := SelectedForRelease(v, agent, 0);
    q := StoppedBlock(r0, 4, v, g);
    PlainlyIs(r0, q);
    ReturningIs(q, 3, v);
    r := Returning(q, 3, v);
    NoResolveNoMixup(r);
  }

  // ---- Runs that obey both ----

  /** The agent starts its claimed task between the SELECT of a release and its write. */
  lemma {:induction false} StartDuringRelease(v: TaskId, agent: AgentName) returns (r0: Run, r: Run)
    requires agent != ""
    ensures Obeys(r) && Prefix(Then(r0, StartWrite(3, v)), r)
    ensures Selected(Exec(r0), 2, v) && ChangesStatus(Exec(r0), StartWrite(3, v), v)
    ensures HasStatus(Exec(r), v, Pending)
  {
    r0 := ClaimedAndSelected(v, agent);
    assert Fresh(Exec(r0), 3);
    var r1 := Then(r0, StartWrite(3, v));
    assert HasStatus(Exec(r1), v, InProgress) && Exec(r1).ops[2] == Exec(r0).ops[2];
    assert Selected(Exec(r0), 2, v) && ChangesStatus(Exec(r0), StartWrite(3, v), v);
    ReturningIs(r1, 2, v);
    r := Returning(r1, 2, v);
  }

  lemma {:induction false} ClaimedAndSelected(v: TaskId, agent: AgentName) returns (r: Run)
    requires agent != ""
    ensures Obeys(r)
    ensures Free(Exec(r), 3) && HasStatus(Exec(r), v, Claimed)
    ensures 2 in Exec(r).ops && Exec(r).ops[2] == Op(Releasing({v}), true, None)
  {
    var r0 := Creating(Begin, 0, v, Plain([], 0));
    CreatingIs(Begin, 0, v, Plain([], 0));
    var r1 := Claiming(r0, 1, v, agent);
    ClaimingIs(r0, 1, v, agent);
    assert NeverReleases(r0) && NeverResolves(r0);
    PlainlyIs(r0, r1);
    NoReleaseNoQuarrel(r1);
    NoResolveNoMixup(r1);
    assert HeldBy(Exec(r1).tasks, agent) == {v};
    SelectingIs(r1, 2, agent);
    r := Selecting(r1, 2, agent);
  }

  /** A block call that names the gate id of another task strands its own. */
  lemma {:induction false} TakenGateIdStrands(x: TaskId, v: TaskId, g: GateId, agent: AgentName) returns (r: Run)
    requires agent != "" && x != v
    ensures Obeys(r)
    ensures HasStatus(Exec(r), v, Blocked) && !CanMoveOn(Exec(r), v)
  {
    var r0 := WaitingForUnblock(x, g, agent);
    StartingIs(r0, 4, v, agent, 0);
    var r1 := Starting(r0, 4, v, agent, 0);
    var logged := BlockLogging(r1, 7, v, g);
    BlockLoggingIs(r1, 7, v, g);
    r := Then(logged, CreateGateWrite(7));
    PlainlyTrans(r0, r1, logged);
    PlainlyIs(r0, logged);
    StrandedCannotMove(r, 7, v);
  }

  lemma {:induction false} StrandedCannotMove(r: Run, o: OpId, t: TaskId)
    requires NeverReleases(r) && NeverResolves(r) && Stranded(Exec(r), o, t)
    ensures Obeys(r)
    ensures HasStatus(Exec(r), t, Blocked) && !CanMoveOn(Exec(r), t)
  {
    NoReleaseNoQuarrel(r);
    NoResolveNoMixup(r);
    ReachableInv(r);
    OnlyToken(Exec(r), CallToken(o), t);
    assert IsToken(Exec(r), CallToken(o), t);
  }

  /** An unblock call that stops between its writes strands its task. */
  lemma {:induction false} AbortedUnblockStrands(x: TaskId, g: GateId, agent: AgentName) returns (r: Run)
    requires agent != ""
    ensures Obeys(r)
    ensures HasStatus(Exec(r), x, Blocked) && !CanMoveOn(Exec(r), x)
  {
    var r0 := WaitingForUnblock(x, g, agent);
    NoResolveNoMixup(r0);
    ResolvingIs(r0, 4, x, g);
    r := Then(Resolving(r0, 4, x, g), Abort(4));
    NoReleaseNoQuarrel(r);
    ReachableInv(r);
    assert Stranded(Exec(r), 4, x);
    OnlyToken(Exec(r), CallToken(4), x);
    assert IsToken(Exec(r), CallToken(4), x);
  }
}
