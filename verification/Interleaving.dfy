/** The task engine under concurrency. Each repository method and each handler is a
    sequence of separate SQL statements with no transaction around them, so a step of
    this system is one statement of one call in flight. What a call still has to do is
    its program counter; a call that stops early (crash, lost connection, error return)
    keeps its program counter and is never scheduled again. */
module Interleaving {
  import opened Schema

  type OpId = nat

  /** What a call has left to do, named by the statement before it. */
  datatype Pc =
    | Finished
    | ClaimAfterParentCheck(task: TaskId, agent: AgentName)
    | BlockBeforeCreateGate(task: TaskId, gate: GateId)
    | UnblockAfterResolve(task: TaskId)
    | PromoteBeforeSelect(task: TaskId)
    | Promoting(task: TaskId, todo: set<TaskId>)
    | FailAfterUpdate(task: TaskId)
    | FailBeforeRetry(task: TaskId)
    | Releasing(todo: set<TaskId>)
    | ExpiringPending(todo: set<TaskId>)
    | ExpiringStale(todo: set<TaskId>)

  /** `note` is the event row the call inserts next; nothing else of the call runs before. */
  datatype Op = Op(pc: Pc, live: bool, note: Option<Event>)

  datatype State = State(tasks: Tasks, gates: Gates, ops: map<OpId, Op>, log: seq<Event>)

  datatype Action =
    | Create(op: OpId, task: TaskId, input: TaskInput)
    | CheckParents(op: OpId, task: TaskId, agent: AgentName)
    | ClaimWrite(op: OpId)
    | StartWrite(op: OpId, task: TaskId)
    | BlockWrite(op: OpId, task: TaskId, gate: GateId)
    | CreateGateWrite(op: OpId)
    | AskGate(gate: GateId, answer: string)
    | AnswerGate(gate: GateId, answer: string, now: int)
    | ResolveWrite(op: OpId, task: TaskId, gate: GateId)
    | UnblockWrite(op: OpId)
    | CompleteWrite(op: OpId, task: TaskId)
    | SelectChildren(op: OpId, spurious: set<TaskId>)
    | CheckChild(op: OpId, task: TaskId)
    | FailWrite(op: OpId, task: TaskId)
    | FailRead(op: OpId)
    | RetryWrite(op: OpId)
    | SelectHeld(op: OpId, agent: AgentName)
    | ReleaseWrite(op: OpId, task: TaskId)
    | SelectOverAge(op: OpId, picked: set<TaskId>)
    | ExpirePendingWrite(op: OpId, task: TaskId)
    | SelectStale(op: OpId, picked: set<TaskId>)
    | ExpireStaleWrite(op: OpId, task: TaskId)
    | Skip(op: OpId, task: TaskId)
    | HeartbeatWrite(task: TaskId, now: int)
    | LogInsert(op: OpId)
    | LogDrop(op: OpId)
    | Abort(op: OpId)

  const EMPTY: State := State(map[], map[], map[], [])

  predicate Fresh(s: State, o: OpId) {
    o !in s.ops
  }

  /** The call is running and has no event row waiting to be inserted. */
  predicate Ready(s: State, o: OpId) {
    o in s.ops && s.ops[o].live && s.ops[o].note.None?
  }

  function Goto(s: State, o: OpId, pc: Pc): State {
    s.(ops := s.ops[o := Op(pc, true, None)])
  }

  function GotoNoting(s: State, o: OpId, pc: Pc, event: Event): State {
    s.(ops := s.ops[o := Op(pc, true, Some(event))])
  }

  function SetStatus(s: State, id: TaskId, status: Status): State
    requires id in s.tasks
  {
    s.(tasks := s.tasks[id := s.tasks[id].(status := status)])
  }

  function SetRow(s: State, id: TaskId, row: Task): State {
    s.(tasks := s.tasks[id := row])
  }

  predicate HasStatus(s: State, id: TaskId, status: Status) {
    id in s.tasks && s.tasks[id].status == status
  }

  /** Task creation: one INSERT, refused when the id is taken. */
  function ApplyCreate(s: State, o: OpId, id: TaskId, input: TaskInput): State {
    if Fresh(s, o) && id !in s.tasks then
      GotoNoting(SetRow(s, id, NewTask(input)), o, Finished, Event(id, CreateTask, input.assignee))
    else s
  }

  /** The claim handler up to its parent check. The check is skipped for an empty list.
      The skill check that follows can only make the call stop early. */
  function ApplyCheckParents(s: State, o: OpId, id: TaskId, agent: AgentName): State {
    if Fresh(s, o) && agent != "" && id in s.tasks && CountSaysDone(s.tasks, s.tasks[id].parents) then
      Goto(s, o, ClaimAfterParentCheck(id, agent))
    else s
  }

  function ApplyClaimWrite(s: State, o: OpId): State {
    if Ready(s, o) && s.ops[o].pc.ClaimAfterParentCheck? then
      var id, agent := s.ops[o].pc.task, s.ops[o].pc.agent;
      if HasStatus(s, id, Pending) then
        GotoNoting(SetRow(s, id, s.tasks[id].(status := Claimed, assignee := agent)),
                   o, Finished, Event(id, ClaimTask, agent))
      else Goto(s, o, Finished)
    else s
  }

  function ApplyStartWrite(s: State, o: OpId, id: TaskId): State {
    if Fresh(s, o) && HasStatus(s, id, Claimed) then
      GotoNoting(SetStatus(s, id, InProgress), o, Finished, Event(id, StartTask, ""))
    else s
  }

  function ApplyBlockWrite(s: State, o: OpId, id: TaskId, gate: GateId): State {
    if Fresh(s, o) && id in s.tasks && Held(s.tasks[id].status) then
      GotoNoting(SetStatus(s, id, Blocked), o, BlockBeforeCreateGate(id, gate), Event(id, BlockTask, ""))
    else s
  }

  /** The second write of the block handler. A taken gate id is an insert error: the
      handler returns, and the task stays blocked with no gate of this call. */
  function ApplyCreateGateWrite(s: State, o: OpId): State {
    if Ready(s, o) && s.ops[o].pc.BlockBeforeCreateGate? then
      var id, gate := s.ops[o].pc.task, s.ops[o].pc.gate;
      if gate in s.gates then s.(ops := s.ops[o := s.ops[o].(live := false)])
      else Goto(s.(gates := s.gates[gate := NewGate(id)]), o, Finished)
    else s
  }

  function ApplyAskGate(s: State, gate: GateId, answer: string): State {
    if gate in s.gates && s.gates[gate].status == Unasked then
      s.(gates := s.gates[gate := s.gates[gate].(status := Asked, answer := answer)])
    else s
  }

  function ApplyAnswerGate(s: State, gate: GateId, answer: string, now: int): State {
    if gate in s.gates && s.gates[gate].status == Asked then
      s.(gates := s.gates[gate := s.gates[gate].(status := Answered, answer := answer, answeredAt := Some(now))])
    else s
  }

  /** The first write of the unblock handler. Nothing compares the gate's task with `id`. */
  function ApplyResolveWrite(s: State, o: OpId, id: TaskId, gate: GateId): State {
    if Fresh(s, o) && id in s.tasks && gate in s.gates && s.gates[gate].status == Answered then
      Goto(s.(gates := s.gates[gate := s.gates[gate].(status := Resolved)]), o, UnblockAfterResolve(id))
    else s
  }

  /** The second write of the unblock handler: no status guard. */
  function ApplyUnblockWrite(s: State, o: OpId): State {
    if Ready(s, o) && s.ops[o].pc.UnblockAfterResolve? && s.ops[o].pc.task in s.tasks then
      var id := s.ops[o].pc.task;
      GotoNoting(SetStatus(s, id, InProgress), o, Finished, Event(id, UpdateStatus, ""))
    else s
  }

  function ApplyCompleteWrite(s: State, o: OpId, id: TaskId): State {
    if Fresh(s, o) && HasStatus(s, id, InProgress) then
      GotoNoting(SetStatus(s, id, Completed), o, PromoteBeforeSelect(id), Event(id, CompleteTask, ""))
    else s
  }

  function ApplySelectChildren(s: State, o: OpId, spurious: set<TaskId>): State {
    if Ready(s, o) && s.ops[o].pc.PromoteBeforeSelect? then
      var id := s.ops[o].pc.task;
      Goto(s, o, Promoting(id, MatchedChildren(s.tasks, id, spurious)))
    else s
  }

  function ApplyCheckChild(s: State, o: OpId, child: TaskId): State {
    if Ready(s, o) && s.ops[o].pc.Promoting? && child in s.ops[o].pc.todo then
      var rest := Promoting(s.ops[o].pc.task, s.ops[o].pc.todo - {child});
      if child in s.tasks && CountSaysDone(s.tasks, s.tasks[child].parents) then
        GotoNoting(s, o, rest, Event(child, ParentsCompleted, ""))
      else Goto(s, o, rest)
    else s
  }

  function ApplyFailWrite(s: State, o: OpId, id: TaskId): State {
    if Fresh(s, o) && HasStatus(s, id, InProgress) then
      GotoNoting(SetStatus(s, id, Failed), o, FailAfterUpdate(id), Event(id, FailTask, ""))
    else s
  }

  function ApplyFailRead(s: State, o: OpId): State {
    if Ready(s, o) && s.ops[o].pc.FailAfterUpdate? && s.ops[o].pc.task in s.tasks then
      var id := s.ops[o].pc.task;
      Goto(s, o, if MayRetry(s.tasks[id]) then FailBeforeRetry(id) else Finished)
    else s
  }

  /** The retry write: no status guard, and the count is read again by the database. */
  function ApplyRetryWrite(s: State, o: OpId): State {
    if Ready(s, o) && s.ops[o].pc.FailBeforeRetry? && s.ops[o].pc.task in s.tasks then
      var id := s.ops[o].pc.task;
      GotoNoting(SetRow(s, id, RetriedRow(s.tasks[id])), o, Finished, Event(id, TaskRetry, ""))
    else s
  }

  function ApplySelectHeld(s: State, o: OpId, agent: AgentName): State {
    if Fresh(s, o) then Goto(s, o, Releasing(HeldBy(s.tasks, agent))) else s
  }

  /** The per-task write of a release: no status guard and no assignee guard. */
  function ApplyReleaseWrite(s: State, o: OpId, id: TaskId): State {
    if Ready(s, o) && s.ops[o].pc.Releasing? && id in s.ops[o].pc.todo && id in s.tasks then
      GotoNoting(SetRow(s, id, ReleasedRow(s.tasks[id])), o, Releasing(s.ops[o].pc.todo - {id}),
                 Event(id, StaleAgentRelease, ""))
    else s
  }

  function WithStatusAmong(tasks: Tasks, status: Status, picked: set<TaskId>): set<TaskId> {
    set id | id in picked && id in tasks && tasks[id].status == status
  }

  /** Which rows are old enough depends on the clock, so the sweep picks any of the right status. */
  function ApplySelectOverAge(s: State, o: OpId, picked: set<TaskId>): State {
    if Fresh(s, o) then Goto(s, o, ExpiringPending(WithStatusAmong(s.tasks, Pending, picked))) else s
  }

  /** Guarded by the status, but the event is logged whether or not a row changed. */
  function ApplyExpirePendingWrite(s: State, o: OpId, id: TaskId): State {
    if Ready(s, o) && s.ops[o].pc.ExpiringPending? && id in s.ops[o].pc.todo then
      GotoNoting(if HasStatus(s, id, Pending) then SetStatus(s, id, Failed) else s,
                 o, ExpiringPending(s.ops[o].pc.todo - {id}), Event(id, PendingTimeout, ""))
    else s
  }

  function ApplySelectStale(s: State, o: OpId, picked: set<TaskId>): State {
    if Fresh(s, o) then Goto(s, o, ExpiringStale(WithStatusAmong(s.tasks, InProgress, picked))) else s
  }

  function ApplyExpireStaleWrite(s: State, o: OpId, id: TaskId): State {
    if Ready(s, o) && s.ops[o].pc.ExpiringStale? && id in s.ops[o].pc.todo then
      GotoNoting(if HasStatus(s, id, InProgress) then SetStatus(s, id, Failed) else s,
                 o, ExpiringStale(s.ops[o].pc.todo - {id}), Event(id, TaskHeartbeatTimeout, ""))
    else s
  }

  /** A loop of a sweep or a promotion goes on after an error on one task. */
  function ApplySkip(s: State, o: OpId, id: TaskId): State {
    if Ready(s, o) then
      match s.ops[o].pc
      case Promoting(p, todo) => Goto(s, o, Promoting(p, todo - {id}))
      case Releasing(todo) => Goto(s, o, Releasing(todo - {id}))
      case ExpiringPending(todo) => Goto(s, o, ExpiringPending(todo - {id}))
      case ExpiringStale(todo) => Goto(s, o, ExpiringStale(todo - {id}))
      case _ => s
    else s
  }

  function ApplyHeartbeat(s: State, id: TaskId, now: int): State {
    if id in s.tasks then SetRow(s, id, s.tasks[id].(lastHeartbeat := Some(now))) else s
  }

  predicate Noting(s: State, o: OpId) {
    o in s.ops && s.ops[o].live && s.ops[o].note.Some?
  }

  function ApplyLogInsert(s: State, o: OpId): State {
    if Noting(s, o) then Goto(s, o, s.ops[o].pc).(log := s.log + [s.ops[o].note.value]) else s
  }

  /** A failed event insert is ignored by the code. */
  function ApplyLogDrop(s: State, o: OpId): State {
    if Noting(s, o) then Goto(s, o, s.ops[o].pc) else s
  }

  function ApplyAbort(s: State, o: OpId): State {
    if o in s.ops then s.(ops := s.ops[o := s.ops[o].(live := false)]) else s
  }

  /** One statement. A statement that cannot run now leaves the state alone. */
  function Apply(s: State, a: Action): State {
    match a
    case Create(o, t, input) => ApplyCreate(s, o, t, input)
    case CheckParents(o, t, agent) => ApplyCheckParents(s, o, t, agent)
    case ClaimWrite(o) => ApplyClaimWrite(s, o)
    case StartWrite(o, t) => ApplyStartWrite(s, o, t)
    case BlockWrite(o, t, g) => ApplyBlockWrite(s, o, t, g)
    case CreateGateWrite(o) => ApplyCreateGateWrite(s, o)
    case AskGate(g, answer) => ApplyAskGate(s, g, answer)
    case AnswerGate(g, answer, now) => ApplyAnswerGate(s, g, answer, now)
    case ResolveWrite(o, t, g) => ApplyResolveWrite(s, o, t, g)
    case UnblockWrite(o) => ApplyUnblockWrite(s, o)
    case CompleteWrite(o, t) => ApplyCompleteWrite(s, o, t)
    case SelectChildren(o, spurious) => ApplySelectChildren(s, o, spurious)
    case CheckChild(o, t) => ApplyCheckChild(s, o, t)
    case FailWrite(o, t) => ApplyFailWrite(s, o, t)
    case FailRead(o) => ApplyFailRead(s, o)
    case RetryWrite(o) => ApplyRetryWrite(s, o)
    case SelectHeld(o, agent) => ApplySelectHeld(s, o, agent)
    case ReleaseWrite(o, t) => ApplyReleaseWrite(s, o, t)
    case SelectOverAge(o, picked) => ApplySelectOverAge(s, o, picked)
    case ExpirePendingWrite(o, t) => ApplyExpirePendingWrite(s, o, t)
    case SelectStale(o, picked) => ApplySelectStale(s, o, picked)
    case ExpireStaleWrite(o, t) => ApplyExpireStaleWrite(s, o, t)
    case Skip(o, t) => ApplySkip(s, o, t)
    case HeartbeatWrite(t, now) => ApplyHeartbeat(s, t, now)
    case LogInsert(o) => ApplyLogInsert(s, o)
    case LogDrop(o) => ApplyLogDrop(s, o)
    case Abort(o) => ApplyAbort(s, o)
  }

  /** The call whose program counter or log line an action may move. */
  function Caller(a: Action): Option<OpId> {
    match a
    case AskGate(_, _) => None
    case AnswerGate(_, _, _) => None
    case HeartbeatWrite(_, _) => None
    case _ => Some(a.op)
  }

  /** A finite run from the empty database, written last action outermost. */
  datatype Run = Begin | Then(before: Run, action: Action)

  function Exec(r: Run): State {
    match r
    case Begin => EMPTY
    case Then(before, a) => Apply(Exec(before), a)
  }

  predicate ChangesStatus(s: State, a: Action, t: TaskId) {
    t in s.tasks && t in Apply(s, a).tasks && Apply(s, a).tasks[t].status != s.tasks[t].status
  }

  /** The resolve write of an unblock call takes effect. */
  predicate Resolves(s: State, o: OpId, t: TaskId, g: GateId) {
    Fresh(s, o) && t in s.tasks && g in s.gates && s.gates[g].status == Answered
  }

  /** The per-task write of a release takes effect. */
  predicate Releases(s: State, o: OpId, t: TaskId) {
    Ready(s, o) && s.ops[o].pc.Releasing? && t in s.ops[o].pc.todo && t in s.tasks
  }

  /** H1: an unblock call that resolves a gate resolves one created for the same task. */
  predicate GateOfTask(s: State, a: Action) {
    a.ResolveWrite? && Resolves(s, a.op, a.task, a.gate) ==> s.gates[a.gate].taskId == a.task
  }

  /** H2: the write of a release meets the guard it lacks, or finds the task pending again. */
  predicate ReleaseInTime(s: State, a: Action) {
    a.ReleaseWrite? && Releases(s, a.op, a.task) ==> s.tasks[a.task].status in {Pending, Claimed, InProgress}
  }

  predicate ObeysH1(r: Run) {
    match r
    case Begin => true
    case Then(before, a) =>
      && ObeysH1(before)
      && GateOfTask(Exec(before), a)
  }

  predicate ObeysH2(r: Run) {
    match r
    case Begin => true
    case Then(before, a) =>
      && ObeysH2(before)
      && ReleaseInTime(Exec(before), a)
  }

  predicate Obeys(r: Run) {
    ObeysH1(r) && ObeysH2(r)
  }
}
