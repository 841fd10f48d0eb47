/** What holds in every run of the interleaved engine that respects H1 and H2. */
module Theorems {
  import opened Schema
  import opened Interleaving
  import opened Invariant

  // ---- Blocked tasks ----

  function Tokens(s: State, t: TaskId): set<Token> {
    (set o | o in s.ops && OwedTo(s.ops[o].pc) == Some(t) :: CallToken(o))
    + (set g | g in s.gates && s.gates[g].taskId == t && s.gates[g].status != Resolved :: GateToken(g))
  }

  /** A task is blocked exactly when one token exists for it, and there is never a second. */
  lemma {:induction false} BlockedExactlyByOneToken(r: Run, t: TaskId)
    requires Obeys(r)
    ensures |Tokens(Exec(r), t)| == if HasStatus(Exec(r), t, Blocked) then 1 else 0
  {
    ReachableInv(r);
    var s := Exec(r);
    assert forall k :: k in Tokens(s, t) <==> IsToken(s, k, t);
    if HasStatus(s, t, Blocked) {
      var k :| IsToken(s, k, t);
      assert Tokens(s, t) == {k};
    } else {
      assert Tokens(s, t) == {};
    }
  }

  /** So the unguarded write of unblock only ever takes a blocked task to in_progress. */
  lemma {:induction false} UnblockOnlyUnblocks(r: Run, o: OpId)
    requires Obeys(r)
    requires Exec(r).ops.Keys >= {o} && Exec(r).ops[o].pc.UnblockAfterResolve?
    ensures HasStatus(Exec(r), Exec(r).ops[o].pc.task, Blocked)
  {
    ReachableInv(r);
    UnblockFindsBlocked(Exec(r), o);
  }

  // ---- Parents ----

  /** Parents are completed for every task that is claimed, in progress, blocked or
      completed, although the check and the claim are separate statements. A task with a
      repeated parent never gets there. */
  lemma {:induction false} ParentsDoneBeforeWork(r: Run, t: TaskId)
    requires Obeys(r) && t in Exec(r).tasks
    requires Owned(Exec(r).tasks[t].status) || Exec(r).tasks[t].status == Completed
    ensures AllCompleted(Exec(r).tasks, Exec(r).tasks[t].parents)
    ensures NoDuplicates(Exec(r).tasks[t].parents)
  {
    ReachableInv(r);
    assert RowOk(Exec(r).tasks, Exec(r).tasks[t]);
  }

  // ---- Steps of one task ----

  /** What happens to task `t` in one action: the successful writes of each kind. `Clear` is
      a release of a task that is pending again, which only takes its assignee. */
  datatype Mark = Claim | Start | Block | Unblock | Complete | Fail | Retry | Release | Clear | Expire

  function MarkOf(s: State, a: Action, t: TaskId): Option<Mark> {
    match a
    case ClaimWrite(o) =>
      if Ready(s, o) && s.ops[o].pc.ClaimAfterParentCheck? && s.ops[o].pc.task == t
         && HasStatus(s, t, Pending) then Some(Claim) else None
    case StartWrite(o, u) => if u == t && Fresh(s, o) && HasStatus(s, t, Claimed) then Some(Start) else None
    case BlockWrite(o, u, _) =>
      if u == t && Fresh(s, o) && t in s.tasks && Held(s.tasks[t].status) then Some(Block) else None
    case UnblockWrite(o) =>
      if Ready(s, o) && s.ops[o].pc.UnblockAfterResolve? && s.ops[o].pc.task == t && t in s.tasks
      then Some(Unblock) else None
    case CompleteWrite(o, u) => if u == t && Fresh(s, o) && HasStatus(s, t, InProgress) then Some(Complete) else None
    case FailWrite(o, u) => if u == t && Fresh(s, o) && HasStatus(s, t, InProgress) then Some(Fail) else None
    case RetryWrite(o) =>
      if Ready(s, o) && s.ops[o].pc.FailBeforeRetry? && s.ops[o].pc.task == t && t in s.tasks
      then Some(Retry) else None
    case ReleaseWrite(o, u) =>
      if u != t || !Releases(s, o, t) then None
      else if s.tasks[t].status == Pending then Some(Clear) else Some(Release)
    case ExpirePendingWrite(o, u) =>
      if u == t && Ready(s, o) && s.ops[o].pc.ExpiringPending? && t in s.ops[o].pc.todo && HasStatus(s, t, Pending)
      then Some(Expire) else None
    case ExpireStaleWrite(o, u) =>
      if u == t && Ready(s, o) && s.ops[o].pc.ExpiringStale? && t in s.ops[o].pc.todo && HasStatus(s, t, InProgress)
      then Some(Expire) else None
    case _ => None
  }

  /** The edges of the lifecycle graph, by kind of write. */
  predicate Edge(m: Mark, from: Status, to: Status) {
    match m
    case Claim => from == Pending && to == Claimed
    case Start => from == Claimed && to == InProgress
    case Block => Held(from) && to == Blocked
    case Unblock => from == Blocked && to == InProgress
    case Complete => from == InProgress && to == Completed
    case Fail => from == InProgress && to == Failed
    case Retry => from == Failed && to == Pending
    case Release => Held(from) && to == Pending
    case Clear => from == Pending && to == Pending
    case Expire => from in {Pending, InProgress} && to == Failed
  }

  ghost predicate Respects(s: State, a: Action) {
    Inv(s) && GateOfTask(s, a) && ReleaseInTime(s, a)
  }

  /** What each kind of write does to the row. */
  function Marked(m: Mark, row: Task, claimer: AgentName): Task {
    match m
    case Claim => row.(status := Claimed, assignee := claimer)
    case Start => row.(status := InProgress)
    case Block => row.(status := Blocked)
    case Unblock => row.(status := InProgress)
    case Complete => row.(status := Completed)
    case Fail => row.(status := Failed)
    case Retry => RetriedRow(row)
    case Release => ReleasedRow(row)
    case Clear => ReleasedRow(row)
    case Expire => row.(status := Failed)
  }

  function Claimer(s: State, a: Action): AgentName {
    if a.ClaimWrite? && a.op in s.ops && s.ops[a.op].pc.ClaimAfterParentCheck? then s.ops[a.op].pc.agent else ""
  }

  lemma MarkedRow(s: State, a: Action, t: TaskId)
    requires t in s.tasks && MarkOf(s, a, t).Some?
    ensures t in Apply(s, a).tasks
    ensures Apply(s, a).tasks[t] == Marked(MarkOf(s, a, t).value, s.tasks[t], Claimer(s, a))
  {
  }

  predicate WritesRows(a: Action) {
    || a.Create? || a.ClaimWrite? || a.StartWrite? || a.BlockWrite? || a.UnblockWrite? || a.CompleteWrite?
    || a.FailWrite? || a.RetryWrite? || a.ReleaseWrite? || a.ExpirePendingWrite? || a.ExpireStaleWrite?
    || a.HeartbeatWrite?
  }

  /** The other statements write no row. */
  lemma RowsKept(s: State, a: Action)
    requires !WritesRows(a)
    ensures Apply(s, a).tasks == s.tasks
  {
  }

  lemma UnmarkedWriteIsStill(s: State, a: Action, t: TaskId)
    requires WritesRows(a) && t in s.tasks && MarkOf(s, a, t).None?
    ensures t in Apply(s, a).tasks
    ensures Apply(s, a).tasks[t] == s.tasks[t].(lastHeartbeat := Apply(s, a).tasks[t].lastHeartbeat)
  {
  }

  /** Nothing but a marked write moves more of a row than its heartbeat. */
  lemma UnmarkedIsStill(s: State, a: Action, t: TaskId)
    requires t in s.tasks && MarkOf(s, a, t).None?
    ensures t in Apply(s, a).tasks
    ensures Apply(s, a).tasks[t] == s.tasks[t].(lastHeartbeat := Apply(s, a).tasks[t].lastHeartbeat)
  {
    if WritesRows(a) {
      UnmarkedWriteIsStill(s, a, t);
    } else {
      RowsKept(s, a);
    }
  }

  /** Any action at all keeps the row, its parents and its limit; only a retry counts. */
  lemma RowKept(s: State, a: Action, t: TaskId)
    requires t in s.tasks
    ensures t in Apply(s, a).tasks
    ensures Apply(s, a).tasks[t].parents == s.tasks[t].parents
    ensures Apply(s, a).tasks[t].maxRetries == s.tasks[t].maxRetries
    ensures Apply(s, a).tasks[t].retryCount == s.tasks[t].retryCount + if MarkOf(s, a, t) == Some(Retry) then 1 else 0
  {
    if MarkOf(s, a, t).Some? {
      MarkedRow(s, a, t);
    } else {
      UnmarkedIsStill(s, a, t);
    }
  }

  /** A new row is pending and unused. */
  lemma RowBorn(s: State, a: Action, t: TaskId)
    requires t !in s.tasks
    ensures MarkOf(s, a, t).None?
    ensures t in Apply(s, a).tasks ==> a.Create? && a.task == t && Apply(s, a).tasks[t] == NewTask(a.input)
  {
    if !WritesRows(a) {
      RowsKept(s, a);
    }
  }

  predicate Unguarded(a: Action) {
    a.UnblockWrite? || a.RetryWrite? || a.ReleaseWrite?
  }

  /** The mark goes along its edge, judged by the row it writes. */
  predicate Enters(s: State, a: Action, t: TaskId)
    requires t in s.tasks && MarkOf(s, a, t).Some?
  {
    var m := MarkOf(s, a, t).value;
    Edge(m, s.tasks[t].status, Marked(m, s.tasks[t], "").status)
  }

  lemma MarkEntered(s: State, a: Action, t: TaskId)
    requires t in s.tasks && MarkOf(s, a, t).Some? && !Unguarded(a)
    ensures Enters(s, a, t)
  {
  }

  lemma UnguardedEntered(s: State, a: Action, t: TaskId)
    requires Respects(s, a) && t in s.tasks && MarkOf(s, a, t).Some? && Unguarded(a)
    ensures Enters(s, a, t)
  {
    if a.UnblockWrite? {
      UnblockFindsBlocked(s, a.op);
    } else if a.RetryWrite? {
      RetryFindsFailed(s, a.op);
    }
  }

  /** The assignee column moves only with a claim, a retry or a release write. */
  lemma AssigneeKept(s: State, a: Action, t: TaskId)
    requires t in s.tasks
    ensures t in Apply(s, a).tasks
    ensures Apply(s, a).tasks[t].assignee ==
            match MarkOf(s, a, t)
            case Some(Claim) => s.ops[a.op].pc.agent
            case Some(Retry) => ""
            case Some(Release) => ""
            case Some(Clear) => ""
            case _ => s.tasks[t].assignee
  {
    if MarkOf(s, a, t).Some? {
      MarkedRow(s, a, t);
    } else {
      UnmarkedIsStill(s, a, t);
    }
  }

  /** A call starts failing a task only with its own guarded write. */
  lemma FailingStarts(s: State, a: Action, o: OpId, t: TaskId)
    requires Failing(Apply(s, a), o, t) && !Failing(s, o, t)
    ensures MarkOf(s, a, t) == Some(Fail) && a.op == o
  {
  }

  /** While a call is failing a task, nothing else happens to the task. */
  lemma FailingStep(s: State, a: Action, o: OpId, t: TaskId)
    requires Respects(s, a) && t in s.tasks && Failing(Apply(s, a), o, t)
    ensures MarkOf(s, a, t) == Some(Fail) || (Failing(s, o, t) && MarkOf(s, a, t).None?)
  {
    if !Failing(s, o, t) {
      FailingStarts(s, a, o, t);
    } else {
      StepKeeps(s, a);
      assert OpOk(s.tasks, s.ops[o]) && OpOk(Apply(s, a).tasks, Apply(s, a).ops[o]);
      StatusStep(s, a, t);
    }
  }

  /** One action seen from one task: a marked write, guarded or not, goes along its edge of the
      lifecycle, anything else stands still. */
  lemma StatusStep(s: State, a: Action, t: TaskId)
    requires Respects(s, a) && t in s.tasks
    ensures t in Apply(s, a).tasks
    ensures match MarkOf(s, a, t)
            case Some(m) => Edge(m, s.tasks[t].status, Apply(s, a).tasks[t].status)
            case None => Apply(s, a).tasks[t].status == s.tasks[t].status
  {
    if MarkOf(s, a, t).Some? {
      MarkedRow(s, a, t);
      if Unguarded(a) {
        UnguardedEntered(s, a, t);
      } else {
        MarkEntered(s, a, t);
      }
    } else {
      UnmarkedIsStill(s, a, t);
    }
  }

  /** The lifecycle of a task: the moves its status can make, and no others. */
  lemma LifecycleGraph(s: State, a: Action, t: TaskId)
    requires Respects(s, a) && t in s.tasks
    ensures t in Apply(s, a).tasks
    ensures Apply(s, a).tasks[t].status == s.tasks[t].status
            || match s.tasks[t].status
               case Pending => Apply(s, a).tasks[t].status in {Claimed, Failed}
               case Claimed => Apply(s, a).tasks[t].status in {InProgress, Blocked, Pending}
               case InProgress => Apply(s, a).tasks[t].status in {Blocked, Completed, Failed, Pending}
               case Blocked => Apply(s, a).tasks[t].status == InProgress
               case Failed => Apply(s, a).tasks[t].status == Pending
               case Completed => false
  {
    StatusStep(s, a, t);
  }

  // ---- Counting over runs ----

  function One(b: bool): nat {
    if b then 1 else 0
  }

  /** How often a write of one kind succeeded on task `t`. */
  function Count(r: Run, t: TaskId, m: Mark): nat {
    match r
    case Begin => 0
    case Then(before, a) => Count(before, t, m) + One(MarkOf(Exec(before), a, t) == Some(m))
  }

  /** How often the status of task `t` changed, by comparing the rows. */
  function Changes(r: Run, t: TaskId): nat {
    match r
    case Begin => 0
    case Then(before, a) => Changes(before, t) + One(ChangesStatus(Exec(before), a, t))
  }

  function LastClaimer(r: Run, t: TaskId): Option<AgentName> {
    match r
    case Begin => None
    case Then(before, a) =>
      if MarkOf(Exec(before), a, t) == Some(Claim) then Some(Exec(before).ops[a.op].pc.agent)
      else LastClaimer(before, t)
  }

  /** How often a task went back to pending. */
  function Returns(r: Run, t: TaskId): nat {
    Count(r, t, Retry) + Count(r, t, Release)
  }

  /** Status changes still ahead on the longest way forward. */
  function Ahead(status: Status): nat {
    match status
    case Pending => 3
    case Claimed => 2
    case InProgress => 1
    case Blocked => 2
    case Completed => 0
    case Failed => 0
  }

  ghost predicate IsFailing(s: State, t: TaskId) {
    exists o :: Failing(s, o, t)
  }

  /** How claims and returns to pending alternate, by the status they lead to. */
  predicate Balanced(status: Status, failing: bool, claims: nat, back: nat) {
    && (status == Pending ==> claims == back)
    && (Owned(status) || status == Completed || failing ==> claims == back + 1)
    && back <= claims <= back + 1
  }

  ghost predicate ClaimsBalanced(r: Run, t: TaskId)
    requires t in Exec(r).tasks
  {
    Balanced(Exec(r).tasks[t].status, IsFailing(Exec(r), t), Count(r, t, Claim), Returns(r, t))
  }

  lemma BalanceEdge(m: Option<Mark>, from: Status, to: Status, failing: bool, failing': bool, claims: nat, back: nat)
    requires Balanced(from, failing, claims, back)
    requires if m.Some? then Edge(m.value, from, to) else to == from
    requires m == Some(Retry) ==> failing
    requires failing' ==> m == Some(Fail) || (failing && m.None?)
    ensures Balanced(to, failing', claims + One(m == Some(Claim)),
                     back + One(m == Some(Retry)) + One(m == Some(Release)))
  {
  }

  lemma BalanceStep(s: State, a: Action, t: TaskId, claims: nat, back: nat)
    requires Respects(s, a) && t in s.tasks
    requires Balanced(s.tasks[t].status, IsFailing(s, t), claims, back)
    ensures t in Apply(s, a).tasks
    ensures Balanced(Apply(s, a).tasks[t].status, IsFailing(Apply(s, a), t),
                     claims + One(MarkOf(s, a, t) == Some(Claim)),
                     back + One(MarkOf(s, a, t) == Some(Retry)) + One(MarkOf(s, a, t) == Some(Release)))
  {
    StatusStep(s, a, t);
    FailingMoves(s, a, t);
    BalanceEdge(MarkOf(s, a, t), s.tasks[t].status, Apply(s, a).tasks[t].status,
                IsFailing(s, t), IsFailing(Apply(s, a), t), claims, back);
  }

  lemma FailingMoves(s: State, a: Action, t: TaskId)
    requires Respects(s, a) && t in s.tasks
    ensures MarkOf(s, a, t) == Some(Retry) ==> IsFailing(s, t)
    ensures IsFailing(Apply(s, a), t) ==>
              MarkOf(s, a, t) == Some(Fail) || (IsFailing(s, t) && MarkOf(s, a, t).None?)
  {
    if MarkOf(s, a, t) == Some(Retry) {
      assert Failing(s, a.op, t);
    }
    if o :| Failing(Apply(s, a), o, t) {
      FailingStep(s, a, o, t);
    }
  }

  predicate Allowance(r: Run, t: TaskId)
    requires t in Exec(r).tasks
  {
    Changes(r, t) + Ahead(Exec(r).tasks[t].status)
      <= 3 + 4 * Count(r, t, Retry) + 3 * Count(r, t, Release) + 2 * Count(r, t, Block)
  }

  predicate Untouched(r: Run, t: TaskId) {
    Changes(r, t) == 0 && Count(r, t, Claim) == 0 && Count(r, t, Block) == 0 && Returns(r, t) == 0
  }

  lemma {:induction false} UnbornIsUntouched(r: Run, t: TaskId)
    requires t !in Exec(r).tasks
    ensures Untouched(r, t) && LastClaimer(r, t).None?
  {
    if r.Then? {
      if t in Exec(r.before).tasks {
        RowKept(Exec(r.before), r.action, t);
      }
      UnbornIsUntouched(r.before, t);
      RowBorn(Exec(r.before), r.action, t);
    }
  }

  /** Claims and returns to pending alternate. */
  lemma {:induction false} ClaimsBalance(r: Run, t: TaskId)
    requires Obeys(r) && t in Exec(r).tasks
    ensures ClaimsBalanced(r, t)
  {
    var s, a := Exec(r.before), r.action;
    ReachableInv(r.before);
    if t in s.tasks {
      ClaimsBalance(r.before, t);
      var claims, back := Count(r.before, t, Claim), Returns(r.before, t);
      BalanceStep(s, a, t, claims, back);
      assert Exec(r) == Apply(s, a);
      assert Count(r, t, Claim) == claims + One(MarkOf(s, a, t) == Some(Claim));
      assert Returns(r, t) == back + One(MarkOf(s, a, t) == Some(Retry)) + One(MarkOf(s, a, t) == Some(Release));
    } else {
      UnbornIsUntouched(r.before, t);
      RowBorn(s, a, t);
      ReachableInv(r);
      NobodyFailing(Exec(r), t);
    }
  }

  lemma {:induction false} AllowanceHolds(r: Run, t: TaskId)
    requires Obeys(r) && t in Exec(r).tasks
    ensures Allowance(r, t)
  {
    var s, a := Exec(r.before), r.action;
    ReachableInv(r.before);
    if t in s.tasks {
      AllowanceHolds(r.before, t);
      StatusStep(s, a, t);
    } else {
      UnbornIsUntouched(r.before, t);
      RowBorn(s, a, t);
    }
  }

  /** retry_count counts the retries, hypotheses or not. */
  lemma {:induction false} RetryCountCounts(r: Run, t: TaskId)
    requires t in Exec(r).tasks
    ensures Exec(r).tasks[t].retryCount == Count(r, t, Retry)
  {
    var s, a := Exec(r.before), r.action;
    if t in s.tasks {
      RetryCountCounts(r.before, t);
      RowKept(s, a, t);
    } else {
      UnbornIsUntouched(r.before, t);
      RowBorn(s, a, t);
    }
  }

  lemma {:induction false} OwnerIsLastClaimer(r: Run, t: TaskId)
    requires Obeys(r) && t in Exec(r).tasks && Owned(Exec(r).tasks[t].status)
    ensures LastClaimer(r, t) == Some(Exec(r).tasks[t].assignee)
  {
    var s, a := Exec(r.before), r.action;
    ReachableInv(r.before);
    if t in s.tasks {
      StatusStep(s, a, t);
      AssigneeKept(s, a, t);
      if MarkOf(s, a, t) != Some(Claim) {
        OwnerIsLastClaimer(r.before, t);
      }
    } else {
      RowBorn(s, a, t);
    }
  }

  // ---- Main results about one task ----

  /** However many claim calls race, each stay in pending ends with at most one successful
      claim, and the owner of a held or blocked task is the one who claimed it last. */
  lemma {:induction false} OneOwnerPerPendingPeriod(r: Run, t: TaskId)
    requires Obeys(r) && t in Exec(r).tasks
    ensures Returns(r, t) <= Count(r, t, Claim) <= Returns(r, t) + 1
    ensures Exec(r).tasks[t].status == Pending ==> Count(r, t, Claim) == Returns(r, t)
    ensures Owned(Exec(r).tasks[t].status) ==>
              && Exec(r).tasks[t].assignee != ""
              && LastClaimer(r, t) == Some(Exec(r).tasks[t].assignee)
  {
    ReachableInv(r);
    ClaimsBalance(r, t);
    assert RowOk(Exec(r).tasks, Exec(r).tasks[t]);
    if Owned(Exec(r).tasks[t].status) {
      OwnerIsLastClaimer(r, t);
    }
  }

  /** At most one FailTask per task is between its first and last write, the task is failed
      all that time, and the unguarded retry write stays within the limit. */
  lemma {:induction false} RetriesBounded(r: Run, t: TaskId)
    requires Obeys(r) && t in Exec(r).tasks
    ensures Exec(r).tasks[t].retryCount == Count(r, t, Retry)
    ensures Count(r, t, Retry) <= if Exec(r).tasks[t].maxRetries > 0 then Exec(r).tasks[t].maxRetries else 0
    ensures forall o | Failing(Exec(r), o, t) :: HasStatus(Exec(r), t, Failed)
    ensures forall o, o' | Failing(Exec(r), o, t) && Failing(Exec(r), o', t) :: o == o'
  {
    ReachableInv(r);
    RetryCountCounts(r, t);
    assert RowOk(Exec(r).tasks, Exec(r).tasks[t]);
    forall o | Failing(Exec(r), o, t) ensures HasStatus(Exec(r), t, Failed) {
      assert OpOk(Exec(r).tasks, Exec(r).ops[o]);
    }
  }

  /** Without endless releases or blocks a task stops moving: its status changes are paid
      for by the first way through, the bounded retries, the releases and the blocks. */
  lemma {:induction false} StatusChangesBounded(r: Run, t: TaskId)
    requires Obeys(r) && t in Exec(r).tasks
    ensures Changes(r, t)
         <= 3 + 4 * Count(r, t, Retry) + 3 * Count(r, t, Release) + 2 * Count(r, t, Block)
    ensures Exec(r).tasks[t].maxRetries >= 0 ==>
              Changes(r, t)
              <= 3 + 4 * Exec(r).tasks[t].maxRetries + 3 * Count(r, t, Release) + 2 * Count(r, t, Block)
    ensures Exec(r).tasks[t].maxRetries <= 0 ==>
              Changes(r, t) <= 3 + 3 * Count(r, t, Release) + 2 * Count(r, t, Block)
  {
    AllowanceHolds(r, t);
    RetriesBounded(r, t);
  }

  // ---- Terminal states ----

  /** `q` is an earlier moment of run `r`, or the same. */
  predicate Prefix(q: Run, r: Run) {
    q == r || (r.Then? && Prefix(q, r.before))
  }

  lemma {:induction false} PrefixTrans(p: Run, q: Run, r: Run)
    requires Prefix(p, q) && Prefix(q, r)
    ensures Prefix(p, r)
  {
    if q != r {
      PrefixTrans(p, q, r.before);
    }
  }

  /** Completed is never left. */
  lemma {:induction false} CompletedForever(q: Run, r: Run, t: TaskId)
    requires Prefix(q, r) && Obeys(r) && HasStatus(Exec(q), t, Completed)
    ensures HasStatus(Exec(r), t, Completed)
  {
    if q != r {
      CompletedForever(q, r.before, t);
      ReachableInv(r.before);
      StatusStep(Exec(r.before), r.action, t);
    }
  }

  /** The FailTask call that put `t` into failed, if the last such move was a call's. */
  function EnteredBy(r: Run, t: TaskId): Option<OpId> {
    match r
    case Begin => None
    case Then(before, a) =>
      match MarkOf(Exec(before), a, t)
      case Some(Fail) => Some(a.op)
      case Some(Expire) => None
      case _ => EnteredBy(before, t)
  }

  lemma {:induction false} FailerEntered(r: Run, o: OpId, t: TaskId)
    requires Obeys(r) && Failing(Exec(r), o, t)
    ensures EnteredBy(r, t) == Some(o)
  {
    var s, a := Exec(r.before), r.action;
    ReachableInv(r.before);
    if Failing(s, o, t) {
      FailerEntered(r.before, o, t);
      assert OpOk(s.tasks, s.ops[o]);
      StatusStep(s, a, t);
    } else {
      FailingStarts(s, a, o, t);
    }
  }

  /** Failed is left only by the retry write of the very call that entered it. */
  lemma {:induction false} FailedLeftOnlyByOwnRetry(r: Run, a: Action, t: TaskId)
    requires Obeys(Then(r, a)) && HasStatus(Exec(r), t, Failed) && !HasStatus(Exec(Then(r, a)), t, Failed)
    ensures a.RetryWrite? && EnteredBy(r, t) == Some(a.op) && HasStatus(Exec(Then(r, a)), t, Pending)
  {
    var s := Exec(r);
    ReachableInv(r);
    StatusStep(s, a, t);
    assert MarkOf(s, a, t) == Some(Retry);
    FailerEntered(r, a.op, t);
  }

  /** The other half of the retry bound, over any interleaving: a task that a FailTask call took
      into failed stays there only while that very call is between its writes, running or stopped,
      or because every retry the task was created with has been used. Neither H1 nor H2 is needed;
      under both, no more than those were used. */
  lemma {:induction false} FailedOnlyWithoutRetries(r: Run, t: TaskId, o: OpId)
    requires HasStatus(Exec(r), t, Failed) && EnteredBy(r, t) == Some(o)
    ensures o in Exec(r).ops
    ensures || Exec(r).ops[o].pc == FailAfterUpdate(t)
            || Exec(r).ops[o].pc == FailBeforeRetry(t)
            || (Exec(r).ops[o].pc == Finished
                && Exec(r).tasks[t].retryCount
                   >= if Exec(r).tasks[t].maxRetries > 0 then Exec(r).tasks[t].maxRetries else 0)
    ensures Obeys(r) && Exec(r).ops[o].pc == Finished ==>
              Exec(r).tasks[t].retryCount
              == if Exec(r).tasks[t].maxRetries > 0 then Exec(r).tasks[t].maxRetries else 0
  {
    var s, a := Exec(r.before), r.action;
    RetryCountCounts(r, t);
    if Obeys(r) {
      RetriesBounded(r, t);
    }
    if t in s.tasks {
      RowKept(s, a, t);
      if MarkOf(s, a, t) != Some(Fail) {
        StillFailed(s, a, t);
        FailedOnlyWithoutRetries(r.before, t, o);
        FailerMoves(s, a, o, t);
      }
    } else {
      RowBorn(s, a, t);
    }
  }

  lemma StillFailed(s: State, a: Action, t: TaskId)
    requires t in s.tasks && HasStatus(Apply(s, a), t, Failed)
    ensures MarkOf(s, a, t) in {None, Some(Fail), Some(Expire)}
    ensures MarkOf(s, a, t).None? ==> HasStatus(s, t, Failed)
  {
    if MarkOf(s, a, t).Some? {
      MarkedRow(s, a, t);
    } else {
      UnmarkedIsStill(s, a, t);
    }
  }

  /** A failing call moves on by reading the row, and only from there to the end or to its retry. */
  lemma FailerMoves(s: State, a: Action, o: OpId, t: TaskId)
    requires o in s.ops && t in s.tasks
    requires s.ops[o].pc == Finished || FailingTask(s.ops[o].pc) == Some(t)
    ensures o in Apply(s, a).ops
    ensures || Apply(s, a).ops[o].pc == s.ops[o].pc
            || (s.ops[o].pc == FailBeforeRetry(t) && MarkOf(s, a, t) == Some(Retry))
            || (s.ops[o].pc == FailAfterUpdate(t) && Apply(s, a).tasks == s.tasks
                && Apply(s, a).ops[o].pc
                   == if s.tasks[t].maxRetries > 0 && s.tasks[t].retryCount < s.tasks[t].maxRetries
                      then FailBeforeRetry(t) else Finished)
  {
    if Caller(a) != Some(o) {
      OtherCallsKept(s, a, o);
    }
  }

  // ---- Ancestors and cycles ----

  /** Each element lists the next one as a parent. */
  predicate IsPath(tasks: Tasks, path: seq<TaskId>) {
    forall i | 0 <= i < |path| - 1 :: path[i] in tasks && path[i + 1] in tasks[path[i]].parents
  }

  /** A cycle in the parent graph; a task that lists itself is one. */
  predicate IsCycle(tasks: Tasks, path: seq<TaskId>) {
    |path| >= 2 && IsPath(tasks, path) && path[0] == path[|path| - 1]
  }

  /** The moment right after the last successful claim of `t`. */
  function AtLastClaim(r: Run, t: TaskId): (q: Run)
    requires Count(r, t, Claim) > 0
    ensures Prefix(q, r) && HasStatus(Exec(q), t, Claimed)
    ensures Count(q, t, Claim) == Count(r, t, Claim)
  {
    if MarkOf(Exec(r.before), r.action, t) == Some(Claim) then r else AtLastClaim(r.before, t)
  }

  lemma {:induction false} PrefixObeys(q: Run, r: Run)
    requires Prefix(q, r) && Obeys(r)
    ensures Obeys(q)
  {
    if q != r {
      PrefixObeys(q, r.before);
    }
  }

  lemma {:induction false} ParentsImmutable(q: Run, r: Run, t: TaskId)
    requires Prefix(q, r) && t in Exec(q).tasks
    ensures t in Exec(r).tasks && Exec(r).tasks[t].parents == Exec(q).tasks[t].parents
  {
    if q != r {
      ParentsImmutable(q, r.before, t);
      RowKept(Exec(r.before), r.action, t);
    }
  }

  /** At any moment when a task is worked on, everything above it is already completed,
      along every path of the parent graph as it will ever be. */
  lemma {:induction false} AncestorsCompletedAt(q: Run, r: Run, path: seq<TaskId>, i: nat)
    requires Prefix(q, r) && Obeys(r) && IsPath(Exec(r).tasks, path) && 0 < i < |path|
    requires path[0] in Exec(q).tasks
    requires Owned(Exec(q).tasks[path[0]].status) || Exec(q).tasks[path[0]].status == Completed
    ensures IsCompleted(Exec(q).tasks, path[i])
  {
    PrefixObeys(q, r);
    if i > 1 {
      AncestorsCompletedAt(q, r, path, i - 1);
    }
    var child := path[i - 1];
    ParentsImmutable(q, r, child);
    ParentsDoneBeforeWork(q, child);
    var parents := Exec(q).tasks[child].parents;
    assert path[i - 1 + 1] in parents;
    var j :| 0 <= j < |parents| && parents[j] == path[i];
    assert IsCompleted(Exec(q).tasks, parents[j]);
  }

  /** All transitive ancestors of a completed task are completed, and were so already when
      the task was claimed for the last time. */
  lemma {:induction false} AncestorsBeforeLastClaim(r: Run, path: seq<TaskId>, i: nat)
    requires Obeys(r) && 0 < i < |path| && HasStatus(Exec(r), path[0], Completed)
    requires forall j | 0 <= j < |path| - 1 ::
               path[j] in Exec(r).tasks && path[j + 1] in Exec(r).tasks[path[j]].parents
    ensures Count(r, path[0], Claim) > 0
    ensures IsCompleted(Exec(AtLastClaim(r, path[0])).tasks, path[i])
    ensures IsCompleted(Exec(r).tasks, path[i])
  {
    ClaimsBalance(r, path[0]);
    var q := AtLastClaim(r, path[0]);
    AncestorsCompletedAt(q, r, path, i);
    CompletedForever(q, r, path[i]);
  }

  // ---- Knots: tasks that wait for each other ----

  /** Each member that exists lists a member as a parent, or lists a parent twice. */
  ghost predicate Knot(tasks: Tasks, members: set<TaskId>) {
    forall t | t in members && t in tasks ::
      !NoDuplicates(tasks[t].parents) || exists p :: p in members && p in tasks[t].parents
  }

  /** Nobody works on a member, is about to, or holds a gate or a token of one. */
  ghost predicate LeftAlone(s: State, members: set<TaskId>) {
    && (forall t | t in members && t in s.tasks :: s.tasks[t].status in {Pending, Failed})
    && (forall o | o in s.ops :: s.ops[o].pc.ClaimAfterParentCheck? ==> s.ops[o].pc.task !in members)
    && (forall o, t | o in s.ops && OwedTo(s.ops[o].pc) == Some(t) :: t !in members)
    && (forall g | g in s.gates :: s.gates[g].taskId !in members)
  }

  lemma KnotNeverAccepted(s: State, members: set<TaskId>, t: TaskId)
    requires Knot(s.tasks, members) && LeftAlone(s, members) && t in members && t in s.tasks
    ensures !CountSaysDone(s.tasks, s.tasks[t].parents)
  {
    var parents := s.tasks[t].parents;
    CountingCheckExact(s.tasks, parents);
    if NoDuplicates(parents) {
      var p :| p in members && p in parents;
      var i :| 0 <= i < |parents| && parents[i] == p;
      assert !IsCompleted(s.tasks, parents[i]);
    }
  }

  lemma KnotRowStep(s: State, a: Action, members: set<TaskId>, t: TaskId)
    requires LeftAlone(s, members) && t in members && t in s.tasks
    ensures MarkOf(s, a, t) != Some(Claim)
    ensures t in Apply(s, a).tasks && Apply(s, a).tasks[t].status in {Pending, Failed}
  {
    if MarkOf(s, a, t).Some? {
      MarkedRow(s, a, t);
    } else {
      UnmarkedIsStill(s, a, t);
    }
  }

  /** A call comes to hold a finished parent check only by the check itself. */
  lemma CheckStarts(s: State, a: Action, o: OpId)
    requires o in Apply(s, a).ops && Apply(s, a).ops[o].pc.ClaimAfterParentCheck?
    requires !(o in s.ops && s.ops[o].pc == Apply(s, a).ops[o].pc)
    ensures a.CheckParents? && a.task in s.tasks && CountSaysDone(s.tasks, s.tasks[a.task].parents)
    ensures Apply(s, a).ops[o].pc.task == a.task
  {
    if OfSweep(a) || OfUpkeep(a) {
      NoCheckInUpkeep(s, a, o);
    } else if OfRelease(a) || OfFinish(a) {
      NoCheckInLaterCalls(s, a, o);
    }
  }

  lemma NoCheckInUpkeep(s: State, a: Action, o: OpId)
    requires OfSweep(a) || OfUpkeep(a)
    requires o in Apply(s, a).ops && Apply(s, a).ops[o].pc.ClaimAfterParentCheck?
    ensures o in s.ops && s.ops[o].pc == Apply(s, a).ops[o].pc
  {
  }

  lemma NoCheckInLaterCalls(s: State, a: Action, o: OpId)
    requires OfRelease(a) || OfFinish(a)
    requires o in Apply(s, a).ops && Apply(s, a).ops[o].pc.ClaimAfterParentCheck?
    ensures o in s.ops && s.ops[o].pc == Apply(s, a).ops[o].pc
  {
  }

  lemma KnotClaimStep(s: State, a: Action, members: set<TaskId>, o: OpId)
    requires Knot(s.tasks, members) && LeftAlone(s, members)
    requires o in Apply(s, a).ops && Apply(s, a).ops[o].pc.ClaimAfterParentCheck?
    ensures Apply(s, a).ops[o].pc.task !in members
  {
    if !(o in s.ops && s.ops[o].pc == Apply(s, a).ops[o].pc) {
      CheckStarts(s, a, o);
      if a.task in members {
        KnotNeverAccepted(s, members, a.task);
      }
    }
  }

  /** A call comes to owe a token only by blocking the task or by resolving a gate for it. */
  lemma DebtStarts(s: State, a: Action, o: OpId)
    requires o in Apply(s, a).ops && OwedTo(Apply(s, a).ops[o].pc).Some?
    requires !(o in s.ops && OwedTo(s.ops[o].pc) == OwedTo(Apply(s, a).ops[o].pc))
    ensures var t := OwedTo(Apply(s, a).ops[o].pc).value;
            || MarkOf(s, a, t) == Some(Block)
            || (a.ResolveWrite? && a.task == t && Resolves(s, o, t, a.gate))
  {
    if OfSweep(a) || OfUpkeep(a) {
      NoDebtInUpkeep(s, a, o);
    } else if OfRelease(a) || OfFinish(a) {
      NoDebtInLaterCalls(s, a, o);
    }
  }

  lemma NoDebtInUpkeep(s: State, a: Action, o: OpId)
    requires OfSweep(a) || OfUpkeep(a)
    requires o in Apply(s, a).ops && OwedTo(Apply(s, a).ops[o].pc).Some?
    ensures o in s.ops && OwedTo(s.ops[o].pc) == OwedTo(Apply(s, a).ops[o].pc)
  {
  }

  lemma NoDebtInLaterCalls(s: State, a: Action, o: OpId)
    requires OfRelease(a) || OfFinish(a)
    requires o in Apply(s, a).ops && OwedTo(Apply(s, a).ops[o].pc).Some?
    ensures o in s.ops && OwedTo(s.ops[o].pc) == OwedTo(Apply(s, a).ops[o].pc)
  {
  }

  lemma KnotOwedStep(s: State, a: Action, members: set<TaskId>, o: OpId)
    requires LeftAlone(s, members) && GateOfTask(s, a)
    requires o in Apply(s, a).ops && OwedTo(Apply(s, a).ops[o].pc).Some?
    ensures OwedTo(Apply(s, a).ops[o].pc).value !in members
  {
    if !(o in s.ops && OwedTo(s.ops[o].pc) == OwedTo(Apply(s, a).ops[o].pc)) {
      DebtStarts(s, a, o);
    }
  }

  lemma KnotGateStep(s: State, a: Action, members: set<TaskId>, g: GateId)
    requires LeftAlone(s, members) && g in Apply(s, a).gates
    ensures Apply(s, a).gates[g].taskId !in members
  {
  }

  lemma KnotStep(s: State, a: Action, members: set<TaskId>)
    requires Knot(s.tasks, members) && LeftAlone(s, members) && GateOfTask(s, a)
    ensures LeftAlone(Apply(s, a), members)
  {
    var s' := Apply(s, a);
    forall t | t in members && t in s'.tasks ensures s'.tasks[t].status in {Pending, Failed} {
      if t in s.tasks {
        KnotRowStep(s, a, members, t);
      } else {
        RowBorn(s, a, t);
      }
    }
    forall o | o in s'.ops
      ensures s'.ops[o].pc.ClaimAfterParentCheck? ==> s'.ops[o].pc.task !in members
      ensures OwedTo(s'.ops[o].pc).Some? ==> OwedTo(s'.ops[o].pc).value !in members
    {
      if s'.ops[o].pc.ClaimAfterParentCheck? {
        KnotClaimStep(s, a, members, o);
      } else if OwedTo(s'.ops[o].pc).Some? {
        KnotOwedStep(s, a, members, o);
      }
    }
    forall g | g in s'.gates ensures s'.gates[g].taskId !in members {
      KnotGateStep(s, a, members, g);
    }
  }

  lemma {:induction false} KnotEarlier(r: Run, members: set<TaskId>)
    requires r.Then? && Knot(Exec(r).tasks, members)
    ensures Knot(Exec(r.before).tasks, members)
  {
    forall t | t in members && t in Exec(r.before).tasks
      ensures !NoDuplicates(Exec(r.before).tasks[t].parents)
           || exists p :: p in members && p in Exec(r.before).tasks[t].parents
    {
      RowKept(Exec(r.before), r.action, t);
    }
  }

  lemma {:induction false} KnotLeftAlone(r: Run, members: set<TaskId>, t: TaskId)
    requires ObeysH1(r) && Knot(Exec(r).tasks, members) && t in members
    ensures LeftAlone(Exec(r), members) && Count(r, t, Claim) == 0
  {
    if r.Then? {
      KnotEarlier(r, members);
      KnotLeftAlone(r.before, members, t);
      KnotStep(Exec(r.before), r.action, members);
      if t in Exec(r.before).tasks {
        KnotRowStep(Exec(r.before), r.action, members, t);
      } else {
        RowBorn(Exec(r.before), r.action, t);
      }
    }
  }

  /** A task on a parent cycle is never claimed and stays pending or failed. H1 is enough. */
  lemma {:induction false} CycleNeverClaimed(r: Run, path: seq<TaskId>, i: nat)
    requires ObeysH1(r) && i < |path| && |path| >= 2 && path[0] == path[|path| - 1]
    requires forall j | 0 <= j < |path| - 1 ::
               path[j] in Exec(r).tasks && path[j + 1] in Exec(r).tasks[path[j]].parents
    ensures Count(r, path[i], Claim) == 0
    ensures path[i] in Exec(r).tasks && Exec(r).tasks[path[i]].status in {Pending, Failed}
  {
    var members := Elements(path);
    forall t | t in members && t in Exec(r).tasks ensures exists p :: p in members && p in Exec(r).tasks[t].parents {
      var j :| 0 <= j < |path| && path[j] == t;
      var k := if j == |path| - 1 then 0 else j;
      assert path[k] == t && path[k + 1] in members;
    }
    KnotLeftAlone(r, members, path[i]);
    var k := if i == |path| - 1 then 0 else i;
    assert path[k] == path[i] && path[k] in Exec(r).tasks;
  }

  /** The same fate for a task that lists a parent twice: the counting check never accepts it. */
  lemma {:induction false} RepeatedParentNeverClaimed(r: Run, t: TaskId)
    requires ObeysH1(r) && t in Exec(r).tasks && !NoDuplicates(Exec(r).tasks[t].parents)
    ensures Count(r, t, Claim) == 0 && Exec(r).tasks[t].status in {Pending, Failed}
  {
    KnotLeftAlone(r, {t}, t);
  }

  lemma KnotBelow(tasks: Tasks, members: set<TaskId>, path: seq<TaskId>)
    requires Knot(tasks, members) && |path| > 0 && IsPath(tasks, path) && path[|path| - 1] in members
    ensures Knot(tasks, members + Elements(path))
  {
    var all := members + Elements(path);
    forall t | t in all && t in tasks
      ensures !NoDuplicates(tasks[t].parents) || exists p :: p in all && p in tasks[t].parents
    {
      if t !in members {
        var j :| 0 <= j < |path| && path[j] == t;
        assert path[j + 1] in all;
      }
    }
  }

  /** And for every task that has a cycle or a repeated parent anywhere above it. */
  lemma {:induction false} BelowKnotNeverClaimed(r: Run, members: set<TaskId>, path: seq<TaskId>)
    requires ObeysH1(r) && Knot(Exec(r).tasks, members)
    requires |path| > 0 && path[0] in Exec(r).tasks && path[|path| - 1] in members
    requires forall j | 0 <= j < |path| - 1 ::
               path[j] in Exec(r).tasks && path[j + 1] in Exec(r).tasks[path[j]].parents
    ensures Count(r, path[0], Claim) == 0 && Exec(r).tasks[path[0]].status in {Pending, Failed}
  {
    KnotBelow(Exec(r).tasks, members, path);
    KnotLeftAlone(r, members + Elements(path), path[0]);
  }
}
