/** Blocked tasks that can move on, and those that never will. */
module Stuck {
  import opened Schema
  import opened Interleaving
  import opened Invariant
  import opened Theorems

  /** A call that has stopped. */
  predicate Dead(s: State, o: OpId) {
    o in s.ops && !s.ops[o].live
  }

  lemma DeadStaysDead(s: State, a: Action, o: OpId)
    requires Dead(s, o)
    ensures Dead(Apply(s, a), o) && Apply(s, a).ops[o] == s.ops[o]
  {
    if Caller(a) != Some(o) {
      OtherCallsKept(s, a, o);
    } else if OfSweep(a) || OfUpkeep(a) || OfRelease(a) {
      DeadSweepsNothing(s, a, o);
    } else {
      DeadMovesNothing(s, a, o);
    }
  }

  lemma DeadSweepsNothing(s: State, a: Action, o: OpId)
    requires Dead(s, o) && Caller(a) == Some(o) && (OfSweep(a) || OfUpkeep(a) || OfRelease(a))
    ensures o in Apply(s, a).ops && Apply(s, a).ops[o] == s.ops[o]
  {
  }

  lemma DeadMovesNothing(s: State, a: Action, o: OpId)
    requires Dead(s, o) && Caller(a) == Some(o) && !OfSweep(a) && !OfUpkeep(a) && !OfRelease(a)
    ensures o in Apply(s, a).ops && Apply(s, a).ops[o] == s.ops[o]
  {
  }

  lemma GatesStay(s: State, a: Action)
    ensures s.gates.Keys <= Apply(s, a).gates.Keys
  {
  }

  // ---- Which tokens can be given back ----

  /** Call `o` owes a second write it can still make: an unblock that runs, or a block that
      runs and whose gate id is free. */
  predicate CanPay(s: State, o: OpId)
    requires o in s.ops
  {
    && s.ops[o].live
    && (s.ops[o].pc.UnblockAfterResolve?
        || (s.ops[o].pc.BlockBeforeCreateGate? && s.ops[o].pc.gate !in s.gates))
  }

  /** The token of the task is an unresolved gate, or a call that can pay. */
  ghost predicate CanMoveOn(s: State, t: TaskId) {
    || (exists g :: IsToken(s, GateToken(g), t))
    || (exists o :: IsToken(s, CallToken(o), t) && CanPay(s, o))
  }

  /** Call `o` holds the task blocked and will never let go. */
  predicate Stranded(s: State, o: OpId, t: TaskId) {
    IsToken(s, CallToken(o), t) && !CanPay(s, o)
  }

  lemma StrandedStep(s: State, a: Action, o: OpId, t: TaskId)
    requires Stranded(s, o, t)
    ensures Stranded(Apply(s, a), o, t)
  {
    GatesStay(s, a);
    if Dead(s, o) {
      DeadStaysDead(s, a, o);
    } else if Caller(a) != Some(o) {
      OtherCallsKept(s, a, o);
    } else {
      StrandedOwnStep(s, a, o, t);
    }
  }

  lemma StrandedOwnStep(s: State, a: Action, o: OpId, t: TaskId)
    requires Stranded(s, o, t) && s.ops[o].live && Caller(a) == Some(o)
    ensures o in Apply(s, a).ops && Apply(s, a).ops[o].pc == s.ops[o].pc
  {
  }

  lemma {:induction false} StrandedForever(q: Run, r: Run, o: OpId, t: TaskId)
    requires Prefix(q, r) && Stranded(Exec(q), o, t)
    ensures Stranded(Exec(r), o, t)
  {
    if q != r {
      StrandedForever(q, r.before, o, t);
      StrandedStep(Exec(r.before), r.action, o, t);
    }
  }

  /** A task whose block or unblock stopped before its second write, or whose block named a
      gate id already taken, is blocked at every later moment of the run. */
  lemma {:induction false} BlockedForGood(q: Run, r: Run, o: OpId, t: TaskId)
    requires Prefix(q, r) && Obeys(r)
    requires o in Exec(q).ops && OwedTo(Exec(q).ops[o].pc) == Some(t) && !CanPay(Exec(q), o)
    ensures HasStatus(Exec(r), t, Blocked)
  {
    StrandedForever(q, r, o, t);
    ReachableInv(r);
    assert IsToken(Exec(r), CallToken(o), t);
  }

  // ---- How a task that can move on does ----

  /** `r'` goes on after `r`, under the same hypotheses. */
  predicate Continues(r: Run, r': Run) {
    Prefix(r, r') && (Obeys(r) ==> Obeys(r'))
  }

  lemma ContinuesTrans(p: Run, q: Run, r: Run)
    requires Continues(p, q) && Continues(q, r)
    ensures Continues(p, r)
  {
    PrefixTrans(p, q, r);
  }

  lemma {:induction false} FreshFrom(ids: set<OpId>) returns (o: OpId)
    ensures forall i | i in ids :: i < o
  {
    o := 0;
    var rest := ids;
    while rest != {}
      invariant rest <= ids && forall i | i in ids && i !in rest :: i < o
    {
      var i :| i in rest;
      rest := rest - {i};
      o := if i < o then o else i + 1;
    }
  }

  /** A call inserts the event it is holding, if any. */
  lemma {:induction false} Logged(r: Run, o: OpId) returns (r': Run)
    requires o in Exec(r).ops && Exec(r).ops[o].live
    ensures Continues(r, r') && Exec(r').tasks == Exec(r).tasks && Exec(r').gates == Exec(r).gates
    ensures o in Exec(r').ops && Exec(r').ops[o] == Exec(r).ops[o].(note := None)
  {
    r' := if Exec(r).ops[o].note.Some? then Then(r, LogInsert(o)) else r;
  }

  lemma {:induction false} Paid(r: Run, o: OpId) returns (r': Run)
    requires o in Exec(r).ops && Exec(r).ops[o].live && Exec(r).ops[o].pc.UnblockAfterResolve?
    requires Exec(r).ops[o].pc.task in Exec(r).tasks
    ensures Continues(r, r') && HasStatus(Exec(r'), Exec(r).ops[o].pc.task, InProgress)
  {
    var r1 := Logged(r, o);
    r' := Then(r1, UnblockWrite(o));
    ContinuesTrans(r, r1, r');
  }

  lemma {:induction false} Gated(r: Run, o: OpId) returns (r': Run)
    requires o in Exec(r).ops && Exec(r).ops[o].live && Exec(r).ops[o].pc.BlockBeforeCreateGate?
    requires Exec(r).ops[o].pc.gate !in Exec(r).gates
    ensures Continues(r, r') && Exec(r').tasks == Exec(r).tasks
    ensures IsToken(Exec(r'), GateToken(Exec(r).ops[o].pc.gate), Exec(r).ops[o].pc.task)
  {
    var r1 := Logged(r, o);
    r' := Then(r1, CreateGateWrite(o));
    ContinuesTrans(r, r1, r');
  }

  lemma {:induction false} Answering(r: Run, g: GateId) returns (r': Run)
    requires g in Exec(r).gates && Exec(r).gates[g].status != Resolved
    ensures Continues(r, r') && Exec(r').tasks == Exec(r).tasks && g in Exec(r').gates
    ensures Exec(r').gates[g].status == Answered && Exec(r').gates[g].taskId == Exec(r).gates[g].taskId
  {
    var r1 := if Exec(r).gates[g].status == Unasked then Then(r, AskGate(g, "")) else r;
    r' := if Exec(r1).gates[g].status == Asked then Then(r1, AnswerGate(g, "", 0)) else r1;
    ContinuesTrans(r, r1, r');
  }

  lemma {:induction false} ResolvedAndPaid(r: Run, t: TaskId, g: GateId) returns (r': Run)
    requires g in Exec(r).gates && Exec(r).gates[g].status == Answered && Exec(r).gates[g].taskId == t
    requires t in Exec(r).tasks
    ensures Continues(r, r') && HasStatus(Exec(r'), t, InProgress)
  {
    var o := FreshFrom(Exec(r).ops.Keys);
    assert Fresh(Exec(r), o);
    var r1 := Then(r, ResolveWrite(o, t, g));
    assert Exec(r1).ops[o] == Op(UnblockAfterResolve(t), true, None);
    r' := Paid(r1, o);
    ContinuesTrans(r, r1, r');
  }

  lemma {:induction false} MovesOn(r: Run, t: TaskId) returns (r': Run)
    requires Obeys(r) && HasStatus(Exec(r), t, Blocked) && CanMoveOn(Exec(r), t)
    ensures Continues(r, r') && HasStatus(Exec(r'), t, InProgress)
  {
    if g :| IsToken(Exec(r), GateToken(g), t) {
      var r1 := Answering(r, g);
      r' := ResolvedAndPaid(r1, t, g);
      ContinuesTrans(r, r1, r');
    } else {
      var o :| IsToken(Exec(r), CallToken(o), t) && CanPay(Exec(r), o);
      if Exec(r).ops[o].pc.UnblockAfterResolve? {
        r' := Paid(r, o);
      } else {
        var g := Exec(r).ops[o].pc.gate;
        var r1 := Gated(r, o);
        var r2 := Answering(r1, g);
        ContinuesTrans(r, r1, r2);
        r' := ResolvedAndPaid(r2, t, g);
        ContinuesTrans(r, r2, r');
      }
    }
  }

  /** The exact condition: a blocked task has a way on under H1 and H2 if and only if its one
      token is an unresolved gate, a running unblock, or a running block with a free gate id. */
  lemma {:induction false} MovesOnExactly(r: Run, t: TaskId)
    requires Obeys(r) && HasStatus(Exec(r), t, Blocked)
    ensures CanMoveOn(Exec(r), t) <==>
              exists r' :: Continues(r, r') && !HasStatus(Exec(r'), t, Blocked)
  {
    if CanMoveOn(Exec(r), t) {
      var r' := MovesOn(r, t);
      assert Continues(r, r') && !HasStatus(Exec(r'), t, Blocked);
    } else {
      ReachableInv(r);
      var k :| IsToken(Exec(r), k, t);
      assert k == CallToken(k.op) && Stranded(Exec(r), k.op, t);
      forall r' | Continues(r, r') ensures HasStatus(Exec(r'), t, Blocked) {
        BlockedForGood(r, r', k.op, t);
      }
    }
  }
}
