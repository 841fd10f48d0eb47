/** The inductive invariant of the interleaved engine, and its proof action by action. */
module Invariant {
  import opened Schema
  import opened Interleaving

  /** What keeps a task blocked: a call that owes its second write, or an unresolved gate. */
  datatype Token = CallToken(op: OpId) | GateToken(gate: GateId)

  function OwedTo(pc: Pc): Option<TaskId> {
    match pc
    case BlockBeforeCreateGate(t, _) => Some(t)
    case UnblockAfterResolve(t) => Some(t)
    case _ => None
  }

  predicate IsToken(s: State, k: Token, t: TaskId) {
    match k
    case CallToken(o) => o in s.ops && OwedTo(s.ops[o].pc) == Some(t)
    case GateToken(g) => g in s.gates && s.gates[g].taskId == t && s.gates[g].status != Resolved
  }

  ghost predicate OneToken(s: State, k: Token, t: TaskId) {
    forall j :: IsToken(s, j, t) <==> j == k
  }

  ghost predicate BlockedByOneToken(s: State) {
    && (forall k, t | IsToken(s, k, t) :: HasStatus(s, t, Blocked))
    && (forall t | HasStatus(s, t, Blocked) :: exists k :: IsToken(s, k, t))
    && (forall k, k', t | IsToken(s, k, t) && IsToken(s, k', t) :: k == k')
  }

  function Max(a: int, b: int): int {
    if a < b then b else a
  }

  predicate RowOk(tasks: Tasks, row: Task) {
    && 0 <= row.retryCount <= Max(0, row.maxRetries)
    && (Owned(row.status) ==> row.assignee != "")
    && (Owned(row.status) || row.status == Completed ==>
          AllCompleted(tasks, row.parents) && NoDuplicates(row.parents))
  }

  predicate RowsOk(s: State) {
    forall t | t in s.tasks :: RowOk(s.tasks, s.tasks[t])
  }

  /** What a call has read is still true when it acts on it. */
  predicate PcOk(tasks: Tasks, op: Op) {
    match op.pc
    case ClaimAfterParentCheck(t, agent) =>
      && agent != "" && t in tasks
      && AllCompleted(tasks, tasks[t].parents) && NoDuplicates(tasks[t].parents)
    case FailAfterUpdate(t) => t in tasks && tasks[t].status == Failed
    case FailBeforeRetry(t) => t in tasks && tasks[t].status == Failed && MayRetry(tasks[t])
    case PromoteBeforeSelect(t) => t in tasks && tasks[t].status == Completed
    case _ => true
  }

  predicate NoteOk(tasks: Tasks, event: Event) {
    event.kind == ParentsCompleted ==> event.task in tasks && AllCompleted(tasks, tasks[event.task].parents)
  }

  predicate OpOk(tasks: Tasks, op: Op) {
    PcOk(tasks, op) && (op.note.Some? ==> NoteOk(tasks, op.note.value))
  }

  predicate OpsOk(s: State) {
    forall o | o in s.ops :: OpOk(s.tasks, s.ops[o])
  }

  predicate LogOk(s: State) {
    forall i | 0 <= i < |s.log| :: NoteOk(s.tasks, s.log[i])
  }

  function FailingTask(pc: Pc): Option<TaskId> {
    match pc
    case FailAfterUpdate(t) => Some(t)
    case FailBeforeRetry(t) => Some(t)
    case _ => None
  }

  predicate Failing(s: State, o: OpId, t: TaskId) {
    o in s.ops && FailingTask(s.ops[o].pc) == Some(t)
  }

  ghost predicate OneFailer(s: State) {
    forall o, o', t | Failing(s, o, t) && Failing(s, o', t) :: o == o'
  }

  ghost predicate Inv(s: State) {
    && BlockedByOneToken(s)
    && RowsOk(s)
    && OpsOk(s)
    && LogOk(s)
    && OneFailer(s)
  }

  lemma OtherCallsKept(s: State, a: Action, o: OpId)
    requires o in s.ops && Caller(a) != Some(o)
    ensures o in Apply(s, a).ops && Apply(s, a).ops[o] == s.ops[o]
  {
  }

  // ---- What one write may do without disturbing the rest ----

  /** Rows stay, parents stay, and a completed task stays completed. */
  predicate Grows(tasks: Tasks, tasks': Tasks) {
    forall t | t in tasks ::
      && t in tasks' && tasks'[t].parents == tasks[t].parents
      && (tasks[t].status == Completed ==> tasks'[t].status == Completed)
  }

  lemma AllCompletedStable(tasks: Tasks, tasks': Tasks, ids: seq<TaskId>)
    requires Grows(tasks, tasks') && AllCompleted(tasks, ids)
    ensures AllCompleted(tasks', ids)
  {
    forall i | 0 <= i < |ids| ensures IsCompleted(tasks', ids[i]) {
      assert IsCompleted(tasks, ids[i]);
    }
  }

  /** A write to one row leaves every other row in order. */
  lemma RowsAfterWrite(s: State, s': State, t: TaskId, row: Task)
    requires RowsOk(s) && s'.tasks == s.tasks[t := row]
    requires Grows(s.tasks, s'.tasks)
    requires RowOk(s'.tasks, row)
    ensures RowsOk(s')
  {
    forall u | u in s'.tasks ensures RowOk(s'.tasks, s'.tasks[u]) {
      if u != t {
        assert RowOk(s.tasks, s.tasks[u]);
        if Owned(s.tasks[u].status) || s.tasks[u].status == Completed {
          AllCompletedStable(s.tasks, s'.tasks, s.tasks[u].parents);
        }
      }
    }
  }

  lemma LogAfterWrite(s: State, s': State)
    requires LogOk(s) && s'.log == s.log && Grows(s.tasks, s'.tasks)
    ensures LogOk(s')
  {
    forall i | 0 <= i < |s'.log| ensures NoteOk(s'.tasks, s'.log[i]) {
      assert NoteOk(s.tasks, s.log[i]);
      NoteStable(s.tasks, s'.tasks, s.log[i]);
    }
  }

  lemma NoteStable(tasks: Tasks, tasks': Tasks, event: Event)
    requires NoteOk(tasks, event) && Grows(tasks, tasks')
    ensures NoteOk(tasks', event)
  {
    if event.kind == ParentsCompleted {
      AllCompletedStable(tasks, tasks', tasks[event.task].parents);
    }
  }

  predicate SameForFailing(row: Task, row': Task) {
    row'.status == row.status && row'.maxRetries == row.maxRetries && row'.retryCount == row.retryCount
  }

  lemma PcStable(tasks: Tasks, tasks': Tasks, op: Op)
    requires OpOk(tasks, op) && Grows(tasks, tasks')
    requires forall t | t in tasks && FailingTask(op.pc) == Some(t) :: SameForFailing(tasks[t], tasks'[t])
    ensures OpOk(tasks', op)
  {
    if op.note.Some? {
      NoteStable(tasks, tasks', op.note.value);
    }
    if op.pc.ClaimAfterParentCheck? {
      AllCompletedStable(tasks, tasks', tasks[op.pc.task].parents);
    }
    assert op.pc.FailAfterUpdate? || op.pc.FailBeforeRetry? ==> FailingTask(op.pc) == Some(op.pc.task);
  }

  /** A write to one task by call `o` that no other call is failing keeps every
      other call's knowledge true. */
  lemma OpsAfterWrite(s: State, s': State, o: OpId, t: TaskId)
    requires OpsOk(s) && Grows(s.tasks, s'.tasks)
    requires forall u | u in s.tasks && u != t :: s'.tasks[u] == s.tasks[u]
    requires o in s'.ops && s'.ops == s.ops[o := s'.ops[o]]
    requires OpOk(s'.tasks, s'.ops[o])
    requires t in s.tasks ==> forall o' | o' in s.ops && o' != o :: FailingTask(s.ops[o'].pc) != Some(t)
    ensures OpsOk(s')
  {
    forall o' | o' in s'.ops ensures OpOk(s'.tasks, s'.ops[o']) {
      if o' != o {
        assert OpOk(s.tasks, s.ops[o']);
        PcStable(s.tasks, s'.tasks, s.ops[o']);
      }
    }
  }

  /** A failing call relies on a failed task. */
  lemma NobodyFailing(s: State, t: TaskId)
    requires OpsOk(s) && !HasStatus(s, t, Failed)
    ensures forall o | o in s.ops :: FailingTask(s.ops[o].pc) != Some(t)
  {
    forall o | o in s.ops ensures FailingTask(s.ops[o].pc) != Some(t) {
      assert OpOk(s.tasks, s.ops[o]);
    }
  }

  // ---- Tokens and failing calls, seen from the outside ----

  /** A token of a task is its only one. */
  lemma OnlyToken(s: State, k: Token, t: TaskId)
    requires BlockedByOneToken(s) && IsToken(s, k, t)
    ensures OneToken(s, k, t)
  {
  }

  /** Nothing about tokens changed: same gates, same debts, same blocked tasks. */
  lemma TokensUntouched(s: State, s': State)
    requires BlockedByOneToken(s)
    requires forall t :: HasStatus(s, t, Blocked) <==> HasStatus(s', t, Blocked)
    requires forall k, t :: IsToken(s, k, t) <==> IsToken(s', k, t)
    ensures BlockedByOneToken(s')
  {
    forall t | HasStatus(s', t, Blocked) ensures exists k :: IsToken(s', k, t) {
      assert HasStatus(s, t, Blocked);
      var k :| IsToken(s, k, t);
      assert IsToken(s', k, t);
    }
  }

  /** The one token of `t` is replaced by another. */
  lemma TokenMoves(s: State, s': State, t: TaskId, k: Token, k': Token)
    requires BlockedByOneToken(s) && IsToken(s, k, t)
    requires s'.tasks == s.tasks
    requires forall j, u :: IsToken(s', j, u) <==> (if u == t then j == k' else IsToken(s, j, u))
    ensures BlockedByOneToken(s')
  {
    assert HasStatus(s', t, Blocked);
    forall u | HasStatus(s', u, Blocked) ensures exists j :: IsToken(s', j, u) {
      if u == t {
        assert IsToken(s', k', u);
      } else {
        assert HasStatus(s, u, Blocked);
        var j :| IsToken(s, j, u);
        assert IsToken(s', j, u);
      }
    }
  }

  /** A task that gets blocked gets its token in the same statement. */
  lemma TokenAppears(s: State, s': State, t: TaskId, k: Token)
    requires BlockedByOneToken(s) && !HasStatus(s, t, Blocked)
    requires forall u :: HasStatus(s', u, Blocked) <==> u == t || HasStatus(s, u, Blocked)
    requires forall j, u :: IsToken(s', j, u) <==> (u == t && j == k) || IsToken(s, j, u)
    ensures BlockedByOneToken(s')
  {
    forall u | HasStatus(s', u, Blocked) ensures exists j :: IsToken(s', j, u) {
      if u == t {
        assert IsToken(s', k, u);
      } else {
        assert HasStatus(s, u, Blocked);
        var j :| IsToken(s, j, u);
        assert IsToken(s', j, u);
      }
    }
  }

  /** A task that is unblocked loses its token in the same statement. */
  lemma TokenDisappears(s: State, s': State, t: TaskId, k: Token)
    requires BlockedByOneToken(s) && IsToken(s, k, t)
    requires forall u :: HasStatus(s', u, Blocked) <==> u != t && HasStatus(s, u, Blocked)
    requires forall j, u :: IsToken(s', j, u) <==> j != k && IsToken(s, j, u)
    ensures BlockedByOneToken(s')
  {
    forall u | HasStatus(s', u, Blocked) ensures exists j :: IsToken(s', j, u) {
      assert HasStatus(s, u, Blocked);
      var j :| IsToken(s, j, u);
      assert IsToken(s', j, u);
    }
  }

  lemma FailersUntouched(s: State, s': State)
    requires OneFailer(s)
    requires forall o, t | Failing(s', o, t) :: Failing(s, o, t)
    ensures OneFailer(s')
  {
  }

  /** Only the program counter and the log line of one call change. */
  lemma OnlyCallMoves(s: State, s': State, o: OpId)
    requires Inv(s)
    requires s'.tasks == s.tasks && s'.gates == s.gates
    requires o in s'.ops && s'.ops == s.ops[o := s'.ops[o]]
    requires OwedTo(s'.ops[o].pc) == if o in s.ops then OwedTo(s.ops[o].pc) else None
    requires FailingTask(s'.ops[o].pc).Some? ==> o in s.ops && FailingTask(s.ops[o].pc) == FailingTask(s'.ops[o].pc)
    requires OpOk(s'.tasks, s'.ops[o])
    requires LogOk(s')
    ensures Inv(s')
  {
    forall k, t ensures IsToken(s, k, t) <==> IsToken(s', k, t) {
    }
    TokensUntouched(s, s');
    forall p, q, t | Failing(s', p, t) && Failing(s', q, t) ensures p == q {
      assert Failing(s, p, t) && Failing(s, q, t);
    }
  }

  predicate NoOtherFails(s: State, o: OpId, t: TaskId) {
    forall o' | o' in s.ops && o' != o :: FailingTask(s.ops[o'].pc) != Some(t)
  }

  /** Call `o`, owing no token before or after, writes the row of one task that
      no other call is failing. */
  lemma RowWrite(s: State, s': State, o: OpId, t: TaskId, row: Task)
    requires Inv(s) && NoOtherFails(s, o, t)
    requires t in s.tasks && s.tasks[t].status !in {Completed, Blocked}
    requires row.status != Blocked && row.parents == s.tasks[t].parents
    requires s'.tasks == s.tasks[t := row] && s'.gates == s.gates && s'.log == s.log
    requires RowOk(s'.tasks, row)
    requires o in s'.ops && s'.ops == s.ops[o := s'.ops[o]] && OpOk(s'.tasks, s'.ops[o])
    requires OwedTo(s'.ops[o].pc).None? && (o in s.ops ==> OwedTo(s.ops[o].pc).None?)
    requires FailingTask(s'.ops[o].pc) in {None, Some(t)}
    ensures Inv(s')
  {
    RowsAfterWrite(s, s', t, row);
    LogAfterWrite(s, s');
    OpsAfterWrite(s, s', o, t);
    TokensUntouched(s, s') by {
      forall k, u ensures IsToken(s, k, u) <==> IsToken(s', k, u) {
      }
    }
    forall p, q, u | Failing(s', p, u) && Failing(s', q, u) ensures p == q {
      if u == t {
        assert p == o && q == o;
      } else {
        assert Failing(s, p, u) && Failing(s, q, u);
      }
    }
  }

  /** The same for a task that is not failed, so that nobody is failing it. */
  lemma StatusWrite(s: State, s': State, o: OpId, t: TaskId, row: Task)
    requires Inv(s)
    requires t in s.tasks && s.tasks[t].status !in {Failed, Completed, Blocked}
    requires row.status != Blocked && row.parents == s.tasks[t].parents
    requires s'.tasks == s.tasks[t := row] && s'.gates == s.gates && s'.log == s.log
    requires RowOk(s'.tasks, row)
    requires o in s'.ops && s'.ops == s.ops[o := s'.ops[o]] && OpOk(s'.tasks, s'.ops[o])
    requires OwedTo(s'.ops[o].pc).None? && (o in s.ops ==> OwedTo(s.ops[o].pc).None?)
    requires FailingTask(s'.ops[o].pc) in {None, Some(t)}
    ensures Inv(s')
  {
    NobodyFailing(s, t);
    RowWrite(s, s', o, t, row);
  }

  // ---- Action by action ----

  lemma CreateKeeps(s: State, o: OpId, t: TaskId, input: TaskInput)
    requires Inv(s)
    ensures Inv(ApplyCreate(s, o, t, input))
  {
    var s' := ApplyCreate(s, o, t, input);
    if s' != s {
      RowsAfterWrite(s, s', t, NewTask(input));
      LogAfterWrite(s, s');
      OpsAfterWrite(s, s', o, t);
      TokensUntouched(s, s') by {
        forall k, u ensures IsToken(s, k, u) <==> IsToken(s', k, u) {
        }
      }
      FailersUntouched(s, s');
    }
  }

  lemma ClaimWriteKeeps(s: State, o: OpId)
    requires Inv(s)
    ensures Inv(ApplyClaimWrite(s, o))
  {
    var s' := ApplyClaimWrite(s, o);
    if s' != s {
      assert OpOk(s.tasks, s.ops[o]);
      var t := s.ops[o].pc.task;
      if HasStatus(s, t, Pending) {
        assert RowOk(s.tasks, s.tasks[t]);
        var row := s.tasks[t].(status := Claimed, assignee := s.ops[o].pc.agent);
        AllCompletedStable(s.tasks, s'.tasks, row.parents);
        StatusWrite(s, s', o, t, row);
      } else {
        OnlyCallMoves(s, s', o);
      }
    }
  }

  /** The guarded writes that keep the assignee: start, complete and fail. */
  lemma GuardedWriteKeeps(s: State, s': State, o: OpId, t: TaskId)
    requires Inv(s)
    requires s' in {ApplyStartWrite(s, o, t), ApplyCompleteWrite(s, o, t), ApplyFailWrite(s, o, t)}
    ensures Inv(s')
  {
    if s' != s {
      assert RowOk(s.tasks, s.tasks[t]);
      AllCompletedStable(s.tasks, s'.tasks, s.tasks[t].parents);
      StatusWrite(s, s', o, t, s'.tasks[t]);
    }
  }

  lemma ExpireWriteKeeps(s: State, s': State, o: OpId, t: TaskId)
    requires Inv(s) && s' in {ApplyExpirePendingWrite(s, o, t), ApplyExpireStaleWrite(s, o, t)}
    ensures Inv(s')
  {
    if s'.tasks != s.tasks {
      assert RowOk(s.tasks, s.tasks[t]);
      StatusWrite(s, s', o, t, s.tasks[t].(status := Failed));
    } else if s' != s {
      OnlyCallMoves(s, s', o);
    }
  }

  lemma BlockWriteKeeps(s: State, o: OpId, t: TaskId, g: GateId)
    requires Inv(s)
    ensures Inv(ApplyBlockWrite(s, o, t, g))
    ensures Fresh(s, o) && t in s.tasks && Held(s.tasks[t].status) ==>
              OneToken(ApplyBlockWrite(s, o, t, g), CallToken(o), t)
  {
    var s' := ApplyBlockWrite(s, o, t, g);
    if s' != s {
      assert RowOk(s.tasks, s.tasks[t]);
      var row := s.tasks[t].(status := Blocked);
      NobodyFailing(s, t);
      AllCompletedStable(s.tasks, s'.tasks, row.parents);
      RowsAfterWrite(s, s', t, row);
      LogAfterWrite(s, s');
      OpsAfterWrite(s, s', o, t);
      TokenAppears(s, s', t, CallToken(o)) by {
        forall k, u ensures IsToken(s', k, u) <==> (u == t && k == CallToken(o)) || IsToken(s, k, u) {
        }
      }
      FailersUntouched(s, s');
      OnlyToken(s', CallToken(o), t);
    }
  }

  lemma CreateGateWriteKeeps(s: State, o: OpId)
    requires Inv(s)
    ensures Inv(ApplyCreateGateWrite(s, o))
    ensures Ready(s, o) && s.ops[o].pc.BlockBeforeCreateGate? ==>
              var t, g := s.ops[o].pc.task, s.ops[o].pc.gate;
              && OneToken(s, CallToken(o), t)
              && OneToken(ApplyCreateGateWrite(s, o), if g in s.gates then CallToken(o) else GateToken(g), t)
  {
    var s' := ApplyCreateGateWrite(s, o);
    if s' != s {
      var t, g := s.ops[o].pc.task, s.ops[o].pc.gate;
      assert OpOk(s.tasks, s.ops[o]);
      OnlyToken(s, CallToken(o), t);
      if g in s.gates {
        OnlyCallMoves(s, s', o);
        OnlyToken(s', CallToken(o), t);
      } else {
        TokenMoves(s, s', t, CallToken(o), GateToken(g)) by {
          forall k, u ensures IsToken(s', k, u) <==> (if u == t then k == GateToken(g) else IsToken(s, k, u)) {
            assert IsToken(s', k, u) && k != GateToken(g) ==> IsToken(s, k, u);
          }
        }
        FailersUntouched(s, s');
        OnlyToken(s', GateToken(g), t);
      }
    }
  }

  lemma GateMoveKeeps(s: State, s': State)
    requires Inv(s) && s' == s.(gates := s'.gates)
    requires forall k, u :: IsToken(s, k, u) <==> IsToken(s', k, u)
    ensures Inv(s')
  {
    TokensUntouched(s, s');
    FailersUntouched(s, s');
  }

  lemma ResolveWriteKeeps(s: State, o: OpId, t: TaskId, g: GateId)
    requires Inv(s) && GateOfTask(s, ResolveWrite(o, t, g))
    ensures Inv(ApplyResolveWrite(s, o, t, g))
    ensures Resolves(s, o, t, g) ==>
              OneToken(s, GateToken(g), t) && OneToken(ApplyResolveWrite(s, o, t, g), CallToken(o), t)
  {
    var s' := ApplyResolveWrite(s, o, t, g);
    if s' != s {
      OnlyToken(s, GateToken(g), t);
      TokenMoves(s, s', t, GateToken(g), CallToken(o)) by {
        forall k, u ensures IsToken(s', k, u) <==> (if u == t then k == CallToken(o) else IsToken(s, k, u)) {
          assert IsToken(s', k, u) && k != CallToken(o) ==> IsToken(s, k, u);
        }
      }
      FailersUntouched(s, s');
      OnlyToken(s', CallToken(o), t);
    }
  }

  /** The unguarded write of unblock finds its task blocked, because the call is a token. */
  lemma UnblockFindsBlocked(s: State, o: OpId)
    requires Inv(s) && o in s.ops && s.ops[o].pc.UnblockAfterResolve?
    ensures HasStatus(s, s.ops[o].pc.task, Blocked)
  {
    assert IsToken(s, CallToken(o), s.ops[o].pc.task);
  }

  lemma UnblockWriteKeeps(s: State, o: OpId)
    requires Inv(s)
    ensures Inv(ApplyUnblockWrite(s, o))
    ensures Ready(s, o) && s.ops[o].pc.UnblockAfterResolve? ==>
              var t := s.ops[o].pc.task;
              OneToken(s, CallToken(o), t) && forall k :: !IsToken(ApplyUnblockWrite(s, o), k, t)
  {
    var s' := ApplyUnblockWrite(s, o);
    if s' != s {
      UnblockFindsBlocked(s, o);
      var t := s.ops[o].pc.task;
      OnlyToken(s, CallToken(o), t);
      assert RowOk(s.tasks, s.tasks[t]);
      var row := s.tasks[t].(status := InProgress);
      NobodyFailing(s, t);
      AllCompletedStable(s.tasks, s'.tasks, row.parents);
      RowsAfterWrite(s, s', t, row);
      LogAfterWrite(s, s');
      OpsAfterWrite(s, s', o, t);
      TokenDisappears(s, s', t, CallToken(o)) by {
        forall j, u ensures IsToken(s', j, u) <==> j != CallToken(o) && IsToken(s, j, u) {
        }
      }
      FailersUntouched(s, s');
    }
  }

  /** The unguarded retry write finds its task failed and the retry still allowed. */
  lemma RetryFindsFailed(s: State, o: OpId)
    requires Inv(s) && o in s.ops && s.ops[o].pc.FailBeforeRetry?
    ensures HasStatus(s, s.ops[o].pc.task, Failed) && MayRetry(s.tasks[s.ops[o].pc.task])
  {
    assert OpOk(s.tasks, s.ops[o]);
  }

  lemma RetryWriteKeeps(s: State, o: OpId)
    requires Inv(s)
    ensures Inv(ApplyRetryWrite(s, o))
    ensures Ready(s, o) && s.ops[o].pc.FailBeforeRetry? ==>
              HasStatus(s, s.ops[o].pc.task, Failed) && MayRetry(s.tasks[s.ops[o].pc.task])
  {
    var s' := ApplyRetryWrite(s, o);
    if s' != s {
      RetryFindsFailed(s, o);
      var t := s.ops[o].pc.task;
      assert RowOk(s.tasks, s.tasks[t]);
      forall o' | o' in s.ops && o' != o ensures FailingTask(s.ops[o'].pc) != Some(t) {
        assert Failing(s, o, t);
        assert FailingTask(s.ops[o'].pc) == Some(t) ==> Failing(s, o', t);
      }
      RowWrite(s, s', o, t, RetriedRow(s.tasks[t]));
    }
  }

  /** H2 is what the unguarded release write needs. */
  lemma ReleaseWriteKeeps(s: State, o: OpId, t: TaskId)
    requires Inv(s) && ReleaseInTime(s, ReleaseWrite(o, t))
    ensures Inv(ApplyReleaseWrite(s, o, t))
  {
    var s' := ApplyReleaseWrite(s, o, t);
    if s' != s {
      assert RowOk(s.tasks, s.tasks[t]);
      assert OpOk(s.tasks, s.ops[o]);
      StatusWrite(s, s', o, t, ReleasedRow(s.tasks[t]));
    }
  }

  lemma HeartbeatKeeps(s: State, t: TaskId, now: int)
    requires Inv(s)
    ensures Inv(ApplyHeartbeat(s, t, now))
  {
    var s' := ApplyHeartbeat(s, t, now);
    if t in s.tasks {
      var row := s'.tasks[t];
      assert RowOk(s.tasks, s.tasks[t]);
      if AllCompleted(s.tasks, row.parents) {
        AllCompletedStable(s.tasks, s'.tasks, row.parents);
      }
      RowsAfterWrite(s, s', t, row);
      LogAfterWrite(s, s');
      forall o | o in s'.ops ensures OpOk(s'.tasks, s'.ops[o]) {
        assert OpOk(s.tasks, s.ops[o]);
        PcStable(s.tasks, s'.tasks, s.ops[o]);
      }
      TokensUntouched(s, s') by {
        forall k, u ensures IsToken(s, k, u) <==> IsToken(s', k, u) {
        }
      }
      FailersUntouched(s, s');
    }
  }

  predicate OfSweep(a: Action) {
    a.SelectOverAge? || a.ExpirePendingWrite? || a.SelectStale? || a.ExpireStaleWrite?
  }

  predicate OfUpkeep(a: Action) {
    a.HeartbeatWrite? || a.LogInsert? || a.LogDrop? || a.Abort?
  }

  predicate OfRelease(a: Action) {
    a.SelectHeld? || a.ReleaseWrite? || a.Skip?
  }

  predicate OfFinish(a: Action) {
    a.CompleteWrite? || a.SelectChildren? || a.CheckChild? || a.FailWrite? || a.FailRead? || a.RetryWrite?
  }

  /** The statements that write no table: they read, or end a wait, or stop. */
  predicate OnlyMoves(a: Action) {
    || a.CheckParents? || a.SelectChildren? || a.CheckChild? || a.FailRead? || a.SelectHeld? || a.SelectOverAge?
    || a.SelectStale? || a.Skip? || a.LogInsert? || a.LogDrop? || a.Abort?
  }

  lemma CheckKeeps(s: State, a: Action)
    requires Inv(s) && (a.CheckParents? || a.CheckChild? || a.FailRead?)
    ensures Inv(Apply(s, a))
  {
    var o, s' := a.op, Apply(s, a);
    if s' != s {
      if !a.FailRead? && a.task in s.tasks {
        CountingCheckExact(s.tasks, s.tasks[a.task].parents);
      }
      assert o in s.ops ==> OpOk(s.tasks, s.ops[o]);
      OnlyCallMoves(s, s', o);
    }
  }

  lemma SelectKeeps(s: State, a: Action)
    requires Inv(s) && OnlyMoves(a) && !a.CheckParents? && !a.CheckChild? && !a.FailRead?
    ensures Inv(Apply(s, a))
  {
    var o, s' := a.op, Apply(s, a);
    if s' != s {
      assert o in s.ops ==> OpOk(s.tasks, s.ops[o]);
      OnlyCallMoves(s, s', o);
    }
  }

  /** Every statement that respects H1 and H2 keeps the invariant. */
  lemma StepKeeps(s: State, a: Action)
    requires Inv(s) && GateOfTask(s, a) && ReleaseInTime(s, a)
    ensures Inv(Apply(s, a))
  {
    if a.CheckParents? || a.CheckChild? || a.FailRead? {
      CheckKeeps(s, a);
    } else if OnlyMoves(a) {
      SelectKeeps(s, a);
    } else {
      WriteKeeps(s, a);
    }
  }

  lemma WriteKeeps(s: State, a: Action)
    requires Inv(s) && GateOfTask(s, a) && ReleaseInTime(s, a) && !OnlyMoves(a)
    ensures Inv(Apply(s, a))
  {
    match a
    case Create(o, t, input) => CreateKeeps(s, o, t, input);
    case ClaimWrite(o) => ClaimWriteKeeps(s, o);
    case StartWrite(o, t) => GuardedWriteKeeps(s, Apply(s, a), o, t);
    case BlockWrite(o, t, g) => BlockWriteKeeps(s, o, t, g);
    case CreateGateWrite(o) => CreateGateWriteKeeps(s, o);
    case AskGate(_, _) => GateMoveKeeps(s, Apply(s, a));
    case AnswerGate(_, _, _) => GateMoveKeeps(s, Apply(s, a));
    case ResolveWrite(o, t, g) => ResolveWriteKeeps(s, o, t, g);
    case UnblockWrite(o) => UnblockWriteKeeps(s, o);
    case CompleteWrite(o, t) => GuardedWriteKeeps(s, Apply(s, a), o, t);
    case FailWrite(o, t) => GuardedWriteKeeps(s, Apply(s, a), o, t);
    case RetryWrite(o) => RetryWriteKeeps(s, o);
    case ReleaseWrite(o, t) => ReleaseWriteKeeps(s, o, t);
    case ExpirePendingWrite(o, t) => ExpireWriteKeeps(s, Apply(s, a), o, t);
    case ExpireStaleWrite(o, t) => ExpireWriteKeeps(s, Apply(s, a), o, t);
    case HeartbeatWrite(t, now) => HeartbeatKeeps(s, t, now);
  }

  /** Every reachable state under H1 and H2 satisfies the invariant. */
  lemma {:induction false} ReachableInv(r: Run)
    requires Obeys(r)
    ensures Inv(Exec(r))
  {
    if r.Then? {
      ReachableInv(r.before);
      StepKeeps(Exec(r.before), r.action);
    }
  }
}
