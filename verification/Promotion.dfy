/** Promotion of children under concurrency: the last parent to complete is never missed. */
module Promotion {
  import opened Schema
  import opened Interleaving
  import opened Invariant
  import opened Theorems

  function PromotedEvent(c: TaskId): Event {
    Event(c, ParentsCompleted, "")
  }

  /** A running completion of one of the parents of `c` that has yet to look at `c`, or
      has looked and has yet to log what it found. */
  predicate StillToPromote(s: State, o: OpId, c: TaskId)
    requires c in s.tasks
  {
    && o in s.ops && s.ops[o].live
    && match s.ops[o].pc
       case PromoteBeforeSelect(p) => p in s.tasks[c].parents
       case Promoting(p, todo) =>
         p in s.tasks[c].parents && (c in todo || s.ops[o].note == Some(PromotedEvent(c)))
       case _ => false
  }

  predicate Promoted(s: State, c: TaskId) {
    PromotedEvent(c) in s.log
  }

  /** The call that still has to promote `c` stops, gives up on `c`, or fails to log. */
  predicate GivesUp(s: State, a: Action, c: TaskId)
    requires c in s.tasks
  {
    match a
    case Abort(o) => StillToPromote(s, o, c)
    case Skip(o, t) => t == c && StillToPromote(s, o, c) && Ready(s, o) && s.ops[o].pc.Promoting?
    case LogDrop(o) =>
      && StillToPromote(s, o, c) && s.ops[o].note == Some(PromotedEvent(c))
      && s.ops[o].pc.Promoting? && c !in s.ops[o].pc.todo
    case _ => false
  }

  ghost predicate Promise(s: State, c: TaskId)
    requires c in s.tasks
  {
    || !AllCompleted(s.tasks, s.tasks[c].parents)
    || Promoted(s, c)
    || exists o :: StillToPromote(s, o, c)
  }

  /** From moment `q` to moment `r` the child stays pending and no promoting call gives up. */
  predicate WaitsQuietly(q: Run, r: Run, c: TaskId) {
    && HasStatus(Exec(r), c, Pending)
    && (q != r ==>
          && r.Then? && WaitsQuietly(q, r.before, c)
          && !GivesUp(Exec(r.before), r.action, c))
  }

  /** A task becomes completed only by a successful complete write. */
  lemma BecomesCompleted(s: State, a: Action, p: TaskId)
    requires !IsCompleted(s.tasks, p) && IsCompleted(Apply(s, a).tasks, p)
    ensures MarkOf(s, a, p) == Some(Complete)
  {
    if p !in s.tasks {
      RowBorn(s, a, p);
    } else if MarkOf(s, a, p).Some? {
      MarkedRow(s, a, p);
    } else {
      UnmarkedIsStill(s, a, p);
    }
  }

  /** So only such a write can be the one that finishes a list of parents. */
  lemma LastParentCompletes(s: State, a: Action, ids: seq<TaskId>) returns (p: TaskId)
    requires !AllCompleted(s.tasks, ids) && AllCompleted(Apply(s, a).tasks, ids)
    ensures p in ids && MarkOf(s, a, p) == Some(Complete)
  {
    var i :| 0 <= i < |ids| && !IsCompleted(s.tasks, ids[i]);
    p := ids[i];
    assert IsCompleted(Apply(s, a).tasks, ids[i]);
    BecomesCompleted(s, a, p);
  }

  /** The complete write leaves its call in charge of promotion. */
  lemma CompletionTakesCharge(s: State, a: Action, p: TaskId, c: TaskId)
    requires c in s.tasks && p in s.tasks[c].parents && MarkOf(s, a, p) == Some(Complete)
    ensures c in Apply(s, a).tasks && StillToPromote(Apply(s, a), a.op, c)
  {
    RowKept(s, a, c);
  }

  /** A call in charge stays in charge until it has logged. */
  lemma ChargeKept(s: State, a: Action, o: OpId, c: TaskId)
    requires HasStatus(s, c, Pending) && StillToPromote(s, o, c) && !GivesUp(s, a, c)
    requires AllCompleted(s.tasks, s.tasks[c].parents) && NoDuplicates(s.tasks[c].parents)
    ensures c in Apply(s, a).tasks
    ensures StillToPromote(Apply(s, a), o, c) || Promoted(Apply(s, a), c)
  {
    RowKept(s, a, c);
    if Caller(a) != Some(o) {
      OtherCallsKept(s, a, o);
    } else {
      OwnStepKeepsCharge(s, a, o, c);
    }
  }

  /** Once all parents are done, the check of a matched child comes out true. */
  lemma ChildAccepted(s: State, o: OpId, c: TaskId)
    requires c in s.tasks && AllCompleted(s.tasks, s.tasks[c].parents) && NoDuplicates(s.tasks[c].parents)
    requires Ready(s, o) && s.ops[o].pc.Promoting? && c in s.ops[o].pc.todo
    ensures o in Apply(s, CheckChild(o, c)).ops
    ensures Apply(s, CheckChild(o, c)).ops[o]
         == Op(Promoting(s.ops[o].pc.task, s.ops[o].pc.todo - {c}), true, Some(PromotedEvent(c)))
  {
    CountingCheckExact(s.tasks, s.tasks[c].parents);
  }

  /** A call with a note does nothing before it has inserted or dropped it. */
  lemma NotedIsKept(s: State, a: Action, o: OpId)
    requires Noting(s, o) && Caller(a) == Some(o) && !a.Abort?
    ensures o in Apply(s, a).ops
    ensures a.LogInsert? ==> s.ops[o].note.value in Apply(s, a).log
    ensures if a.LogInsert? || a.LogDrop? then Apply(s, a).ops[o] == s.ops[o].(note := None) else Apply(s, a) == s
  {
    assert a.LogInsert? ==> Apply(s, a).log[|s.log|] == s.ops[o].note.value;
  }

  lemma SelectKeepsCharge(s: State, a: Action, o: OpId, c: TaskId)
    requires HasStatus(s, c, Pending) && Ready(s, o) && Caller(a) == Some(o) && !a.Abort?
    requires s.ops[o].pc.PromoteBeforeSelect? && s.ops[o].pc.task in s.tasks[c].parents
    ensures var s' := Apply(s, a);
            o in s'.ops && s'.ops[o].live && if a.SelectChildren?
            then s'.ops[o].pc.Promoting? && s'.ops[o].pc.task == s.ops[o].pc.task && c in s'.ops[o].pc.todo
            else s'.ops[o] == s.ops[o]
  {
  }

  lemma OtherChildKeepsCharge(s: State, a: Action, o: OpId, c: TaskId)
    requires Ready(s, o) && Caller(a) == Some(o) && s.ops[o].pc.Promoting? && c in s.ops[o].pc.todo
    requires !a.Abort? && a != CheckChild(o, c) && a != Skip(o, c)
    ensures var s' := Apply(s, a);
            && o in s'.ops && s'.ops[o].live && s'.ops[o].pc.Promoting?
            && s'.ops[o].pc.task == s.ops[o].pc.task && c in s'.ops[o].pc.todo
  {
  }

  lemma NotedKeepsCharge(s: State, a: Action, o: OpId, c: TaskId)
    requires HasStatus(s, c, Pending) && StillToPromote(s, o, c) && !GivesUp(s, a, c) && Caller(a) == Some(o)
    requires s.ops[o].note.Some?
    requires c in Apply(s, a).tasks && Apply(s, a).tasks[c].parents == s.tasks[c].parents
    ensures StillToPromote(Apply(s, a), o, c) || Promoted(Apply(s, a), c)
  {
    assert !a.Abort?;
    NotedIsKept(s, a, o);
  }

  lemma OwnStepKeepsCharge(s: State, a: Action, o: OpId, c: TaskId)
    requires HasStatus(s, c, Pending) && StillToPromote(s, o, c) && !GivesUp(s, a, c) && Caller(a) == Some(o)
    requires AllCompleted(s.tasks, s.tasks[c].parents) && NoDuplicates(s.tasks[c].parents)
    requires c in Apply(s, a).tasks && Apply(s, a).tasks[c].parents == s.tasks[c].parents
    ensures StillToPromote(Apply(s, a), o, c) || Promoted(Apply(s, a), c)
  {
    if s.ops[o].note.Some? {
      NotedKeepsCharge(s, a, o, c);
    } else if s.ops[o].pc.PromoteBeforeSelect? {
      SelectKeepsCharge(s, a, o, c);
    } else if a == CheckChild(o, c) {
      ChildAccepted(s, o, c);
    } else {
      OtherChildKeepsCharge(s, a, o, c);
    }
  }

  lemma LogOnlyGrows(s: State, a: Action)
    ensures s.log <= Apply(s, a).log
  {
  }

  lemma PromiseStep(s: State, a: Action, c: TaskId)
    requires HasStatus(s, c, Pending) && NoDuplicates(s.tasks[c].parents)
    requires Promise(s, c) && !GivesUp(s, a, c)
    ensures c in Apply(s, a).tasks && Promise(Apply(s, a), c)
  {
    RowKept(s, a, c);
    LogOnlyGrows(s, a);
    var parents := s.tasks[c].parents;
    if !AllCompleted(s.tasks, parents) {
      if AllCompleted(Apply(s, a).tasks, parents) {
        var p := LastParentCompletes(s, a, parents);
        CompletionTakesCharge(s, a, p, c);
      }
    } else if !Promoted(s, c) {
      var o :| StillToPromote(s, o, c);
      ChargeKept(s, a, o, c);
    }
  }

  lemma {:induction false} PromiseHolds(q: Run, r: Run, c: TaskId)
    requires WaitsQuietly(q, r, c)
    requires c in Exec(q).tasks && !AllCompleted(Exec(q).tasks, Exec(q).tasks[c].parents)
    requires NoDuplicates(Exec(r).tasks[c].parents)
    ensures Promise(Exec(r), c) && Exec(r).tasks[c].parents == Exec(q).tasks[c].parents
  {
    if q != r {
      RowKept(Exec(r.before), r.action, c);
      PromiseHolds(q, r.before, c);
      PromiseStep(Exec(r.before), r.action, c);
    }
  }

  function Steps(r: Run): nat {
    match r
    case Begin => 0
    case Then(before, _) => Steps(before) + 1
  }

  lemma {:induction false} PrefixSteps(q: Run, r: Run)
    requires Prefix(q, r)
    ensures q == r || Steps(q) < Steps(r)
  {
    if q != r {
      PrefixSteps(q, r.before);
    }
  }

  /** A quiet wait, said of every moment and every step between its two ends. */
  lemma {:induction false} QuietExactly(q: Run, r: Run, c: TaskId)
    ensures WaitsQuietly(q, r, c) <==>
              && Prefix(q, r) && (forall m | Prefix(q, m) && Prefix(m, r) :: HasStatus(Exec(m), c, Pending))
              && forall m, a | Prefix(q, m) && Prefix(Then(m, a), r) && c in Exec(m).tasks :: !GivesUp(Exec(m), a, c)
  {
    if q == r {
      forall m | Prefix(q, m) && Prefix(m, r) ensures m == q {
        PrefixSteps(q, m);
        PrefixSteps(m, q);
      }
      forall m, a | Prefix(q, m) ensures !Prefix(Then(m, a), r) {
        PrefixSteps(q, m);
        var next := Then(m, a);
        assert Steps(next) > Steps(r);
        if Prefix(next, r) {
          PrefixSteps(next, r);
        }
      }
    } else if r.Then? {
      QuietExactly(q, r.before, c);
      assert Prefix(q, r.before) ==> Prefix(r, r) && r == Then(r.before, r.action);
    }
  }

  /** Giving up always ends the charge of the call that steps, and logs nothing. */
  lemma GivingUpEnds(s: State, a: Action, c: TaskId)
    requires HasStatus(s, c, Pending) && GivesUp(s, a, c)
    ensures Caller(a).Some? && StillToPromote(s, a.op, c)
    ensures c in Apply(s, a).tasks && !StillToPromote(Apply(s, a), a.op, c)
    ensures Apply(s, a).log == s.log
  {
    RowKept(s, a, c);
  }

  /** And nothing else does, once the parents are done and before the event is in the log. */
  lemma GivingUpExactly(s: State, a: Action, c: TaskId)
    requires HasStatus(s, c, Pending) && !Promoted(s, c)
    requires AllCompleted(s.tasks, s.tasks[c].parents) && NoDuplicates(s.tasks[c].parents)
    ensures c in Apply(s, a).tasks
    ensures GivesUp(s, a, c) <==>
              && Caller(a).Some? && StillToPromote(s, a.op, c)
              && !StillToPromote(Apply(s, a), a.op, c) && !Promoted(Apply(s, a), c)
  {
    RowKept(s, a, c);
    if GivesUp(s, a, c) {
      GivingUpEnds(s, a, c);
    } else if Caller(a).Some? && StillToPromote(s, a.op, c) {
      ChargeKept(s, a, a.op, c);
    }
  }

  /** No lost promotion: a child that was pending while some parent was unfinished, and that
      stays pending while its parents complete in any order, ends up with a ParentsCompleted
      event once every call that completed a parent has run to its end. Neither H1 nor H2
      is needed: even a parent that is taken out of completed has to complete again. */
  lemma {:induction false} NoLostPromotion(q: Run, r: Run, c: TaskId)
    requires WaitsQuietly(q, r, c)
    requires c in Exec(q).tasks && !AllCompleted(Exec(q).tasks, Exec(q).tasks[c].parents)
    requires c in Exec(r).tasks && NoDuplicates(Exec(r).tasks[c].parents)
    requires AllCompleted(Exec(r).tasks, Exec(r).tasks[c].parents)
    requires forall o | o in Exec(r).ops && Exec(r).ops[o].live ::
               match Exec(r).ops[o].pc
               case PromoteBeforeSelect(p) => p !in Exec(r).tasks[c].parents
               case Promoting(p, todo) =>
                 p in Exec(r).tasks[c].parents ==>
                   c !in todo && Exec(r).ops[o].note != Some(Event(c, ParentsCompleted, ""))
               case _ => true
    ensures Event(c, ParentsCompleted, "") in Exec(r).log
  {
    PromiseHolds(q, r, c);
  }

  /** And nothing is promoted early: whenever the log has a ParentsCompleted event for a
      task, every parent of the task is completed, from the moment of the event on. */
  lemma {:induction false} PromotedOnlyWhenDone(r: Run, c: TaskId)
    requires Obeys(r) && Promoted(Exec(r), c)
    ensures c in Exec(r).tasks && AllCompleted(Exec(r).tasks, Exec(r).tasks[c].parents)
  {
    ReachableInv(r);
    var i :| 0 <= i < |Exec(r).log| && Exec(r).log[i] == PromotedEvent(c);
    assert NoteOk(Exec(r).tasks, Exec(r).log[i]);
  }
}
