/** When the event log of an interleaved run is a truthful audit trail. */
module Trail {
  import opened Schema
  import opened Interleaving
  import opened Invariant
  import opened Theorems
  import opened Audit
  import opened EventQueue
  import opened Witnesses

  /** Call `o` is running and has yet to insert an event that tells something about `t`. */
  predicate Waits(s: State, o: OpId, t: TaskId) {
    && o in s.ops && s.ops[o].live && s.ops[o].note.Some?
    && s.ops[o].note.value.task == t && Tells(s.ops[o].note.value)
  }

  /** The action leaves such an event waiting. */
  predicate Notes(s: State, a: Action, t: TaskId) {
    Caller(a).Some? && Waits(Apply(s, a), Caller(a).value, t) && !Waits(s, Caller(a).value, t)
  }

  function SnapAt(s: State, t: TaskId): Option<Snapshot> {
    if t in s.tasks then Some(SnapshotOf(s.tasks[t])) else None
  }

  // ---- The waiting events of one task, oldest write first ----

  /** The queue holds exactly the events of the task that wait, one for each call. */
  ghost predicate Holds(s: State, q: seq<Wait>, t: TaskId) {
    && OneEach(q)
    && (forall w | w in q :: Waits(s, w.op, t) && s.ops[w.op].note == Some(w.event))
    && (forall o | Waits(s, o, t) :: InQueue(q, o))
  }

  /** A write appends its event, and an event that is inserted or lost leaves the queue. */
  function NextQueue(s: State, a: Action, t: TaskId, q: seq<Wait>): seq<Wait> {
    if Notes(s, a, t) then q + [Wait(Caller(a).value, Apply(s, a).ops[Caller(a).value].note.value)]
    else if EndsSome(a) && InQueue(q, a.op) then Dropped(q, Position(q, a.op))
    else q
  }

  function Queue(r: Run, t: TaskId): seq<Wait> {
    match r
    case Begin => []
    case Then(before, a) => NextQueue(Exec(before), a, t, Queue(before, t))
  }

  /** Inserting what waits in the order of the writes would make the log tell the row. */
  predicate OnCourse(s: State, q: seq<Wait>, t: TaskId) {
    ReplayQueue(Replay(s.log, t), q) == SnapAt(s, t)
  }

  /** An expiration write, whose event is inserted whatever its guard says, meets its guard,
      or finds the task failed already, or gone. */
  predicate ExpiresTruly(s: State, a: Action) {
    match a
    case ExpirePendingWrite(o, t) =>
      Ready(s, o) && s.ops[o].pc.ExpiringPending? && t in s.ops[o].pc.todo && t in s.tasks ==>
        s.tasks[t].status in {Pending, Failed}
    case ExpireStaleWrite(o, t) =>
      Ready(s, o) && s.ops[o].pc.ExpiringStale? && t in s.ops[o].pc.todo && t in s.tasks ==>
        s.tasks[t].status in {InProgress, Failed}
    case _ => true
  }

  // ---- What an action does to waiting events, rows and the log ----

  /** The action ends the waiting of call `o`. */
  predicate EndsWait(a: Action, o: OpId) {
    EndsSome(a) && a.op == o
  }

  predicate EndsSome(a: Action) {
    a.LogInsert? || a.LogDrop? || a.Abort?
  }

  lemma WaitingStays(s: State, a: Action, o: OpId, t: TaskId)
    requires Waits(s, o, t) && !EndsWait(a, o)
    ensures o in Apply(s, a).ops && Apply(s, a).ops[o] == s.ops[o]
  {
    if Caller(a) != Some(o) {
      OtherCallsKept(s, a, o);
    } else if OfSweep(a) || OfUpkeep(a) || OfRelease(a) {
      WaitingSweepStays(s, a, o, t);
    } else {
      WaitingCallStays(s, a, o, t);
    }
  }

  lemma WaitingSweepStays(s: State, a: Action, o: OpId, t: TaskId)
    requires Waits(s, o, t) && !EndsWait(a, o) && Caller(a) == Some(o)
    requires OfSweep(a) || OfUpkeep(a) || OfRelease(a)
    ensures o in Apply(s, a).ops && Apply(s, a).ops[o] == s.ops[o]
  {
  }

  lemma WaitingCallStays(s: State, a: Action, o: OpId, t: TaskId)
    requires Waits(s, o, t) && Caller(a) == Some(o)
    requires !OfSweep(a) && !OfUpkeep(a) && !OfRelease(a)
    ensures o in Apply(s, a).ops && Apply(s, a).ops[o] == s.ops[o]
  {
  }

  lemma WaitingEnds(s: State, a: Action, o: OpId, t: TaskId)
    requires EndsWait(a, o)
    ensures Waits(Apply(s, a), o, t) ==> Waits(s, o, t) && a.LogInsert? && !Noting(s, o)
  {
  }

  /** Who waits afterwards: those that waited and were not ended, and the call that notes. */
  lemma WhoWaits(s: State, a: Action, o: OpId, t: TaskId)
    ensures Waits(Apply(s, a), o, t) <==>
              (Waits(s, o, t) && !EndsWait(a, o)) || (Notes(s, a, t) && Caller(a) == Some(o))
  {
    if Waits(s, o, t) {
      if !EndsWait(a, o) {
        WaitingStays(s, a, o, t);
      } else {
        WaitingEnds(s, a, o, t);
      }
    } else if Caller(a) != Some(o) && o in s.ops {
      OtherCallsKept(s, a, o);
    } else if Caller(a) != Some(o) {
      NoOtherCalls(s, a, o);
    }
  }

  lemma NoOtherCalls(s: State, a: Action, o: OpId)
    requires o !in s.ops && Caller(a) != Some(o)
    ensures o !in Apply(s, a).ops
  {
  }

  lemma LogStays(s: State, a: Action)
    requires !a.LogInsert?
    ensures Apply(s, a).log == s.log
  {
  }

  /** A row that changes what the trail should tell leaves an event waiting. */
  lemma UnnotedIsStill(s: State, a: Action, t: TaskId)
    requires !Notes(s, a, t)
    ensures SnapAt(Apply(s, a), t) == SnapAt(s, t)
  {
    if t !in s.tasks {
      RowBorn(s, a, t);
    } else if MarkOf(s, a, t).None? {
      UnmarkedIsStill(s, a, t);
    } else {
      MarkNotes(s, a, t);
    }
  }

  function EventOf(m: Mark, a: Action, t: TaskId, claimer: AgentName): Event {
    match m
    case Claim => Event(t, ClaimTask, claimer)
    case Start => Event(t, StartTask, "")
    case Block => Event(t, BlockTask, "")
    case Unblock => Event(t, UpdateStatus, "")
    case Complete => Event(t, CompleteTask, "")
    case Fail => Event(t, FailTask, "")
    case Retry => Event(t, TaskRetry, "")
    case Release => Event(t, StaleAgentRelease, "")
    case Clear => Event(t, StaleAgentRelease, "")
    case Expire => Event(t, if a.ExpirePendingWrite? then PendingTimeout else TaskHeartbeatTimeout, "")
  }

  /** Each successful write leaves its own event waiting. */
  lemma MarkNotes(s: State, a: Action, t: TaskId)
    requires t in s.tasks && MarkOf(s, a, t).Some?
    ensures Notes(s, a, t)
    ensures Apply(s, a).ops[Caller(a).value].note == Some(EventOf(MarkOf(s, a, t).value, a, t, Claimer(s, a)))
  {
    if Unguarded(a) {
      UnguardedMarkNotes(s, a, t);
    } else if Expires(a) {
      ExpiryMarkNotes(s, a, t);
    } else {
      EarlyMarkNotes(s, a, t);
    }
  }

  lemma UnguardedMarkNotes(s: State, a: Action, t: TaskId)
    requires t in s.tasks && MarkOf(s, a, t).Some? && Unguarded(a)
    ensures Notes(s, a, t)
    ensures Apply(s, a).ops[Caller(a).value].note == Some(EventOf(MarkOf(s, a, t).value, a, t, Claimer(s, a)))
  {
  }

  lemma ExpiryMarkNotes(s: State, a: Action, t: TaskId)
    requires t in s.tasks && MarkOf(s, a, t).Some? && Expires(a)
    ensures Notes(s, a, t)
    ensures Apply(s, a).ops[Caller(a).value].note == Some(EventOf(MarkOf(s, a, t).value, a, t, Claimer(s, a)))
  {
  }

  lemma EarlyMarkNotes(s: State, a: Action, t: TaskId)
    requires t in s.tasks && MarkOf(s, a, t).Some? && !Unguarded(a) && !Expires(a)
    ensures Notes(s, a, t)
    ensures Apply(s, a).ops[Caller(a).value].note == Some(EventOf(MarkOf(s, a, t).value, a, t, Claimer(s, a)))
  {
  }

  predicate Expires(a: Action) {
    a.ExpirePendingWrite? || a.ExpireStaleWrite?
  }

  /** An event that waits belongs to a creation, a successful write, or an expiration. */
  lemma NotedBy(s: State, a: Action, t: TaskId)
    requires Notes(s, a, t)
    ensures !a.LogInsert? && !a.LogDrop? && !a.Abort?
    ensures (a.Create? && a.task == t && t !in s.tasks) || (t in s.tasks && MarkOf(s, a, t).Some?)
         || (Expires(a) && a.task == t)
  {
  }

  lemma BirthTells(s: State, a: Action, t: TaskId)
    requires Notes(s, a, t) && a.Create? && a.task == t && t !in s.tasks
    ensures ReplayOne(SnapAt(s, t), Apply(s, a).ops[Caller(a).value].note.value) == SnapAt(Apply(s, a), t)
  {
  }

  lemma VainExpiry(s: State, a: Action, t: TaskId)
    requires Notes(s, a, t) && Expires(a) && a.task == t && (t !in s.tasks || MarkOf(s, a, t).None?)
    ensures SnapAt(Apply(s, a), t) == SnapAt(s, t)
    ensures Apply(s, a).ops[Caller(a).value].note.value.kind in {PendingTimeout, TaskHeartbeatTimeout}
    ensures ExpiresTruly(s, a) <==> t !in s.tasks || s.tasks[t].status == Failed
  {
  }

  lemma TrulyMarked(s: State, a: Action, t: TaskId)
    requires t in s.tasks && MarkOf(s, a, t).Some? && Expires(a) && a.task == t
    ensures ExpiresTruly(s, a)
  {
  }

  lemma EventTellsMark(m: Mark, row: Task, a: Action, t: TaskId, claimer: AgentName)
    ensures ReplayOne(Some(SnapshotOf(row)), EventOf(m, a, t, claimer)) == Some(SnapshotOf(Marked(m, row, claimer)))
  {
  }

  lemma MarkTells(s: State, a: Action, t: TaskId)
    requires t in s.tasks && MarkOf(s, a, t).Some?
    ensures Notes(s, a, t)
    ensures ReplayOne(SnapAt(s, t), Apply(s, a).ops[Caller(a).value].note.value) == SnapAt(Apply(s, a), t)
  {
    MarkNotes(s, a, t);
    MarkedRow(s, a, t);
    EventTellsMark(MarkOf(s, a, t).value, s.tasks[t], a, t, Claimer(s, a));
  }

  /** What a waiting event tells turns the old row into the new one, exactly if the action is
      not an expiration that says what is not so. */
  lemma NoteTells(s: State, a: Action, t: TaskId)
    requires Notes(s, a, t)
    ensures ReplayOne(SnapAt(s, t), Apply(s, a).ops[Caller(a).value].note.value) == SnapAt(Apply(s, a), t)
       <==> ExpiresTruly(s, a)
  {
    NotedBy(s, a, t);
    if t in s.tasks && MarkOf(s, a, t).Some? {
      MarkTells(s, a, t);
      if Expires(a) {
        TrulyMarked(s, a, t);
      }
    } else if Expires(a) {
      VainExpiry(s, a, t);
    } else {
      BirthTells(s, a, t);
    }
  }

  lemma UnchangedByLog(s: State, a: Action)
    requires EndsSome(a)
    ensures Apply(s, a).tasks == s.tasks
  {
  }

  // ---- One task, one step ----

  lemma NothingNoted(s: State, a: Action, t: TaskId)
    requires EndsSome(a)
    ensures !Notes(s, a, t)
  {
    if Notes(s, a, t) {
      NotedBy(s, a, t);
    }
  }

  lemma DroppedHolds(s: State, a: Action, t: TaskId, q: seq<Wait>)
    requires Holds(s, q, t) && EndsSome(a) && InQueue(q, a.op)
    ensures Holds(Apply(s, a), Dropped(q, Position(q, a.op)), t)
  {
    var i := Position(q, a.op);
    var q' := Dropped(q, i);
    NothingNoted(s, a, t);
    forall o ensures Waits(Apply(s, a), o, t) <==> Waits(s, o, t) && o != a.op {
      WhoWaits(s, a, o, t);
    }
    DroppedIs(q, i);
    forall w | w in q' ensures Apply(s, a).ops[w.op].note == Some(w.event) {
      WaitingStays(s, a, w.op, t);
    }
    forall o | Waits(Apply(s, a), o, t) ensures InQueue(q', o) {
      assert q[Position(q, o)] in q';
    }
  }

  lemma AppendedHolds(s: State, a: Action, t: TaskId, q: seq<Wait>)
    requires Holds(s, q, t) && Notes(s, a, t)
    ensures Holds(Apply(s, a), NextQueue(s, a, t, q), t)
  {
    var q' := NextQueue(s, a, t, q);
    NotingWaits(s, a, t);
    NotedBy(s, a, t);
    forall w | w in q ensures Apply(s, a).ops[w.op] == s.ops[w.op] && w.op != Caller(a).value {
      WaitingStays(s, a, w.op, t);
    }
    forall o | Waits(Apply(s, a), o, t) ensures InQueue(q', o) {
      if o == Caller(a).value {
        assert q'[|q|].op == o;
      } else {
        assert q'[Position(q, o)].op == o;
      }
    }
  }

  lemma QuietHolds(s: State, a: Action, t: TaskId, q: seq<Wait>)
    requires Holds(s, q, t) && !Notes(s, a, t) && !(EndsSome(a) && InQueue(q, a.op))
    ensures Holds(Apply(s, a), q, t)
  {
    forall o ensures Waits(Apply(s, a), o, t) <==> Waits(s, o, t) {
      WhoWaits(s, a, o, t);
    }
    forall w | w in q ensures Apply(s, a).ops[w.op] == s.ops[w.op] {
      WaitingStays(s, a, w.op, t);
    }
  }

  lemma NotingWaits(s: State, a: Action, t: TaskId)
    requires Notes(s, a, t)
    ensures Apply(s, a).log == s.log
    ensures forall p :: Waits(Apply(s, a), p, t) <==> Waits(s, p, t) || p == Caller(a).value
  {
    NotedBy(s, a, t);
    LogStays(s, a);
    forall p ensures Waits(Apply(s, a), p, t) <==> Waits(s, p, t) || p == Caller(a).value {
      WhoWaits(s, a, p, t);
    }
  }

  /** What keeps a step on course: an expiration event is true; an event inserted out of turn
      leaves what the queue says as it is, and so does an event that is lost. */
  predicate KeepsCourse(s: State, a: Action, t: TaskId, q: seq<Wait>) {
    && (Notes(s, a, t) ==> ExpiresTruly(s, a))
    && (EndsSome(a) && InQueue(q, a.op) ==>
          var was, i := Replay(s.log, t), Position(q, a.op);
          ReplayQueue(was, if a.LogInsert? then Moved(q, i) else Dropped(q, i)) == ReplayQueue(was, q))
  }

  lemma AppendedCourse(s: State, a: Action, t: TaskId, q: seq<Wait>)
    requires OnCourse(s, q, t) && Notes(s, a, t)
    ensures OnCourse(Apply(s, a), NextQueue(s, a, t, q), t) <==> ExpiresTruly(s, a)
  {
    NotingWaits(s, a, t);
    NoteTells(s, a, t);
    var q' := NextQueue(s, a, t, q);
    assert q'[..|q'| - 1] == q;
  }

  lemma InsertedLog(s: State, o: OpId, t: TaskId)
    requires Noting(s, o)
    ensures Apply(s, LogInsert(o)).log == s.log + [s.ops[o].note.value]
    ensures !Waits(s, o, t) ==> Replay(Apply(s, LogInsert(o)).log, t) == Replay(s.log, t)
    ensures Waits(s, o, t) ==>
              Replay(Apply(s, LogInsert(o)).log, t) == ReplayOne(Replay(s.log, t), s.ops[o].note.value)
  {
    ReplayAppend(s.log, s.ops[o].note.value, t);
  }

  lemma DroppedCourse(s: State, a: Action, t: TaskId, q: seq<Wait>)
    requires Holds(s, q, t) && EndsSome(a) && InQueue(q, a.op)
    ensures var was, i := Replay(s.log, t), Position(q, a.op);
            ReplayQueue(Replay(Apply(s, a).log, t), Dropped(q, i))
            == ReplayQueue(was, if a.LogInsert? then Moved(q, i) else Dropped(q, i))
    ensures SnapAt(Apply(s, a), t) == SnapAt(s, t)
  {
    var was, i := Replay(s.log, t), Position(q, a.op);
    UnchangedByLog(s, a);
    assert q[i] in q && Waits(s, q[i].op, t) && s.ops[q[i].op].note == Some(q[i].event);
    if a.LogInsert? {
      InsertedLog(s, a.op, t);
      ReplayConcat(was, [q[i]], Dropped(q, i));
      assert [q[i]][..0] == [];
    } else {
      LogStays(s, a);
    }
  }

  lemma QuietCourse(s: State, a: Action, t: TaskId, q: seq<Wait>)
    requires Holds(s, q, t) && !Notes(s, a, t) && !(EndsSome(a) && InQueue(q, a.op))
    ensures OnCourse(Apply(s, a), q, t) <==> OnCourse(s, q, t)
  {
    UnnotedIsStill(s, a, t);
    if a.LogInsert? && Noting(s, a.op) {
      InsertedLog(s, a.op, t);
    } else if !a.LogInsert? {
      LogStays(s, a);
    }
  }

  /** A step stays on course exactly when it keeps the course. */
  lemma StepCourseExactly(s: State, a: Action, t: TaskId, q: seq<Wait>)
    requires Holds(s, q, t) && OnCourse(s, q, t)
    ensures OnCourse(Apply(s, a), NextQueue(s, a, t, q), t) <==> KeepsCourse(s, a, t, q)
  {
    if Notes(s, a, t) {
      if EndsSome(a) {
        NothingNoted(s, a, t);
      }
      AppendedCourse(s, a, t, q);
    } else if EndsSome(a) && InQueue(q, a.op) {
      DroppedCourse(s, a, t, q);
    } else {
      QuietCourse(s, a, t, q);
    }
  }

  /** For a task whose creation is in the log, it can be read off the kinds of the waiting
      events which of them may be inserted next without leaving the course, and which may be
      lost. */
  lemma OutOfTurnExactly(s: State, o: OpId, t: TaskId, q: seq<Wait>)
    requires Replay(s.log, t).Some? && AfterCreation(q) && InQueue(q, o)
    ensures KeepsCourse(s, LogInsert(o), t, q) <==> MayComeFirst(q, Position(q, o))
  {
    NothingNoted(s, LogInsert(o), t);
    MovedExactly(Replay(s.log, t).value, q, Position(q, o));
  }

  lemma LossExactly(s: State, a: Action, t: TaskId, q: seq<Wait>)
    requires Replay(s.log, t).Some? && AfterCreation(q) && (a.LogDrop? || a.Abort?) && InQueue(q, a.op)
    ensures KeepsCourse(s, a, t, q) <==> MayBeMissing(Replay(s.log, t).value, q, Position(q, a.op))
  {
    NothingNoted(s, a, t);
    DroppedExactly(Replay(s.log, t).value, q, Position(q, a.op));
  }

  // ---- Runs ----

  lemma {:induction false} QueueHolds(r: Run, t: TaskId)
    ensures Holds(Exec(r), Queue(r, t), t)
  {
    if r.Then? {
      var s, a, q := Exec(r.before), r.action, Queue(r.before, t);
      QueueHolds(r.before, t);
      if Notes(s, a, t) {
        AppendedHolds(s, a, t, q);
      } else if EndsSome(a) && InQueue(q, a.op) {
        DroppedHolds(s, a, t, q);
      } else {
        QuietHolds(s, a, t, q);
      }
    }
  }

  /** The step inserts the oldest waiting event of its task, if it inserts one that tells
      something, loses none, and notes no untrue expiration. */
  predicate InOrder(s: State, a: Action, t: TaskId, q: seq<Wait>) {
    && (Notes(s, a, t) ==> ExpiresTruly(s, a))
    && (EndsSome(a) && InQueue(q, a.op) ==> a.LogInsert? && q[0].op == a.op)
  }

  ghost predicate InOrderRun(r: Run) {
    match r
    case Begin => true
    case Then(before, a) => InOrderRun(before) && forall t :: InOrder(Exec(before), a, t, Queue(before, t))
  }

  lemma {:induction false} InOrderOnCourse(r: Run, t: TaskId)
    requires InOrderRun(r)
    ensures OnCourse(Exec(r), Queue(r, t), t)
  {
    if r.Then? {
      var s, a, q := Exec(r.before), r.action, Queue(r.before, t);
      InOrderOnCourse(r.before, t);
      QueueHolds(r.before, t);
      assert InOrder(s, a, t, q);
      if EndsSome(a) && InQueue(q, a.op) {
        assert Moved(q, 0) == q && Position(q, a.op) == 0;
      }
      StepCourseExactly(s, a, t, q);
    }
  }

  /** In order, said of every moment and every step of the run. */
  lemma {:induction false} InOrderAllAlong(r: Run)
    requires forall q, a, t | Prefix(Then(q, a), r) && Notes(Exec(q), a, t) :: ExpiresTruly(Exec(q), a)
    requires forall q, a, t | Prefix(Then(q, a), r) && EndsSome(a) && Waits(Exec(q), a.op, t) ::
               a.LogInsert? && Queue(q, t) != [] && Queue(q, t)[0].op == a.op
    ensures InOrderRun(r)
  {
    if r.Then? {
      var q, a := r.before, r.action;
      assert Prefix(Then(q, a), r);
      InOrderAllAlong(q);
      forall t ensures InOrder(Exec(q), a, t, Queue(q, t)) {
        QueueHolds(q, t);
      }
    }
  }

  /** However calls overlap: if the events of each task are inserted in the order of its
      writes, none is lost and no expiration event is untrue, then whenever nothing waits the
      log tells of every task exactly what its row says. Neither H1 nor H2 is needed. */
  lemma {:induction false} InOrderTrailTellsState(r: Run)
    requires forall q, a, t | Prefix(Then(q, a), r) && Notes(Exec(q), a, t) :: ExpiresTruly(Exec(q), a)
    requires forall q, o, t | Waits(Exec(q), o, t) ::
               !Prefix(Then(q, LogDrop(o)), r) && !Prefix(Then(q, Abort(o)), r)
    requires forall q, o, t | Prefix(Then(q, LogInsert(o)), r) && Waits(Exec(q), o, t) ::
               Queue(q, t) != [] && Queue(q, t)[0].op == o
    requires forall o | o in Exec(r).ops && Exec(r).ops[o].live && Exec(r).ops[o].note.Some? ::
               Exec(r).ops[o].note.value.kind == ParentsCompleted
    ensures TellsState(Exec(r).log, Exec(r).tasks)
  {
    forall q, a, t | Prefix(Then(q, a), r) && EndsSome(a) && Waits(Exec(q), a.op, t)
      ensures a.LogInsert? && Queue(q, t) != [] && Queue(q, t)[0].op == a.op
    {
      var o := a.op;
      assert a in {LogInsert(o), LogDrop(o), Abort(o)};
    }
    InOrderAllAlong(r);
    forall t ensures Replay(Exec(r).log, t) == SnapAt(Exec(r), t) {
      InOrderOnCourse(r, t);
      QueueHolds(r, t);
      assert Queue(r, t) != [] ==> Queue(r, t)[0] in Queue(r, t) && Waits(Exec(r), Queue(r, t)[0].op, t);
    }
  }

  ghost predicate AlwaysOnCourse(r: Run, t: TaskId) {
    OnCourse(Exec(r), Queue(r, t), t) && (r.Then? ==> AlwaysOnCourse(r.before, t))
  }

  ghost predicate AlwaysKeepsCourse(r: Run, t: TaskId) {
    r.Then? ==> AlwaysKeepsCourse(r.before, t) && KeepsCourse(Exec(r.before), r.action, t, Queue(r.before, t))
  }

  /** The trail of a task is on course all along exactly in the runs whose steps keep it. */
  lemma {:induction false} CourseExactly(r: Run, t: TaskId)
    ensures AlwaysOnCourse(r, t) <==> AlwaysKeepsCourse(r, t)
  {
    if r.Then? {
      CourseExactly(r.before, t);
      if AlwaysOnCourse(r.before, t) {
        QueueHolds(r.before, t);
        StepCourseExactly(Exec(r.before), r.action, t, Queue(r.before, t));
      }
    }
  }

  // ---- Off course is lost ----

  /** Inserting what waits, oldest first, empties the queue of the task; afterwards the log
      tells its row if and only if the run was on course. */
  lemma {:induction false} Drained(r: Run, t: TaskId) returns (r': Run)
    ensures Prefix(r, r') && Queue(r', t) == []
    ensures (Obeys(r) ==> Obeys(r')) && (InOrderRun(r) ==> InOrderRun(r'))
    ensures Replay(Exec(r').log, t) == SnapAt(Exec(r'), t) <==> OnCourse(Exec(r), Queue(r, t), t)
    decreases |Queue(r, t)|
  {
    var q := Queue(r, t);
    if q == [] {
      r' := r;
    } else {
      OldestInserted(r, t);
      var r1 := Then(r, LogInsert(q[0].op));
      r' := Drained(r1, t);
      PrefixTrans(r, r1, r');
    }
  }

  lemma {:induction false} OldestInserted(r: Run, t: TaskId)
    requires Queue(r, t) != []
    ensures var r1 := Then(r, LogInsert(Queue(r, t)[0].op));
            && Queue(r1, t) == Queue(r, t)[1..] && (Obeys(r) ==> Obeys(r1)) && (InOrderRun(r) ==> InOrderRun(r1))
            && (OnCourse(Exec(r1), Queue(r1, t), t) <==> OnCourse(Exec(r), Queue(r, t), t))
  {
    var q, a := Queue(r, t), LogInsert(Queue(r, t)[0].op);
    QueueHolds(r, t);
    OldestIsFirst(q);
    NothingNoted(Exec(r), a, t);
    DroppedCourse(Exec(r), a, t, q);
    forall u ensures InOrder(Exec(r), a, u, Queue(r, u)) {
      QueueHolds(r, u);
      OldestInOrder(Exec(r), t, Queue(r, t), u, Queue(r, u));
    }
  }

  lemma OldestInOrder(s: State, t: TaskId, q: seq<Wait>, u: TaskId, p: seq<Wait>)
    requires Holds(s, q, t) && q != [] && Holds(s, p, u)
    requires u == t ==> p == q
    ensures InOrder(s, LogInsert(q[0].op), u, p)
  {
    assert q[0] in q && Waits(s, q[0].op, t);
    if InQueue(p, q[0].op) {
      assert p[Position(p, q[0].op)] in p && Waits(s, q[0].op, u);
    }
    NothingNoted(s, LogInsert(q[0].op), u);
  }

  /** Whatever the length of the queue: if the newest event is inserted before the one that
      stands before it, and the two stand for different statuses, then inserting the others in
      order leaves a wrong trail with nothing of the task waiting. */
  lemma {:induction false} WrongOrderMisleads(r: Run, t: TaskId) returns (r': Run)
    requires t in Exec(r).tasks && OnCourse(Exec(r), Queue(r, t), t) && |Queue(r, t)| >= 2
    requires var q := Queue(r, t);
             KindStatus(q[|q| - 1].event.kind) != KindStatus(q[|q| - 2].event.kind)
    ensures Prefix(Then(r, LogInsert(Queue(r, t)[|Queue(r, t)| - 1].op)), r') && (Obeys(r) ==> Obeys(r'))
    ensures Queue(r', t) == [] && Replay(Exec(r').log, t) != SnapAt(Exec(r'), t)
  {
    var q := Queue(r, t);
    QueueHolds(r, t);
    NewestBreaks(Exec(r), q, t);
    r' := Drained(Then(r, LogInsert(q[|q| - 1].op)), t);
  }

  lemma NewestBreaks(s: State, q: seq<Wait>, t: TaskId)
    requires Holds(s, q, t) && OnCourse(s, q, t) && t in s.tasks && |q| >= 2
    requires KindStatus(q[|q| - 1].event.kind) != KindStatus(q[|q| - 2].event.kind)
    ensures var a := LogInsert(q[|q| - 1].op);
            !OnCourse(Apply(s, a), NextQueue(s, a, t, q), t)
  {
    NewestIsLast(q);
    StepCourseExactly(s, LogInsert(q[|q| - 1].op), t, q);
    assert q[|q| - 1] in q && q[|q| - 2] in q;
    NewestFirst(Replay(s.log, t), q);
  }

  // ---- Overlapping calls, in order and out of order ----

  lemma PlainInOrder(s: State, a: Action)
    requires !EndsSome(a) && !Expires(a)
    ensures forall t, q :: InOrder(s, a, t, q)
  {
  }

  lemma {:induction false} CheckedUnlogged(t: TaskId, agent: AgentName) returns (r: Run)
    requires agent != ""
    ensures NeverReleases(r) && NeverResolves(r) && InOrderRun(r)
    ensures HasStatus(Exec(r), t, Pending)
    ensures Queue(r, t) == [Wait(0, Event(t, CreateTask, ""))]
    ensures Ready(Exec(r), 1) && Exec(r).ops[1].pc == ClaimAfterParentCheck(t, agent)
  {
    var r0 := Creating(Begin, 0, t, Plain([], 0));
    CreatingIs(Begin, 0, t, Plain([], 0));
    PlainInOrder(EMPTY, r0.action);
    assert Queue(r0, t) == [Wait(0, Event(t, CreateTask, ""))];
    r := Then(r0, CheckParents(1, t, agent));
    PlainInOrder(Exec(r0), r.action);
    assert Exec(r) == Goto(Exec(r0), 1, ClaimAfterParentCheck(t, agent));
  }

  /** A task created and claimed at once: both events wait, the creation first. */
  lemma {:induction false} ClaimedUnlogged(t: TaskId, agent: AgentName) returns (r: Run)
    requires agent != ""
    ensures NeverReleases(r) && NeverResolves(r) && InOrderRun(r)
    ensures HasStatus(Exec(r), t, Claimed)
    ensures Queue(r, t) == [Wait(0, Event(t, CreateTask, "")), Wait(1, Event(t, ClaimTask, agent))]
  {
    var r0 := CheckedUnlogged(t, agent);
    r := Then(r0, ClaimWrite(1));
    PlainInOrder(Exec(r0), r.action);
    assert Exec(r).ops[1].note == Some(Event(t, ClaimTask, agent));
  }

  /** Two overlapping calls whose events go in as their writes did: the run is in order to its
      end, and the log tells the row. */
  lemma {:induction false} OverlapInOrderTells(t: TaskId, agent: AgentName) returns (q: Run, r: Run)
    requires agent != ""
    ensures Obeys(r) && Prefix(q, r) && |Queue(q, t)| == 2 && InOrderRun(r)
    ensures Queue(r, t) == [] && Replay(Exec(r).log, t) == SnapAt(Exec(r), t)
  {
    q := ClaimedUnlogged(t, agent);
    NoReleaseNoQuarrel(q);
    NoResolveNoMixup(q);
    InOrderOnCourse(q, t);
    r := Drained(q, t);
  }

  /** The same two calls with the claim inserted first, under H1 and H2, with nothing lost and
      no expiration: that insert alone is out of order, and the log tells something else. */
  lemma {:induction false} InterleavedLogMisleads(t: TaskId, agent: AgentName) returns (q: Run, r: Run)
    requires agent != ""
    ensures InOrderRun(q) && !InOrder(Exec(q), LogInsert(1), t, Queue(q, t))
    ensures Obeys(r) && Prefix(Then(q, LogInsert(1)), r)
    ensures Queue(r, t) == [] && Replay(Exec(r).log, t) != SnapAt(Exec(r), t)
  {
    q := ClaimedUnlogged(t, agent);
    NoReleaseNoQuarrel(q);
    NoResolveNoMixup(q);
    InOrderOnCourse(q, t);
    assert Queue(q, t)[1].op == 1;
    r := WrongOrderMisleads(q, t);
  }
}
