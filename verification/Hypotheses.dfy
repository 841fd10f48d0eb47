/** H1 and H2 are not only enough: each is the exact condition under which a step is sound.
    And H2 is weaker than leaving the selected tasks of a release alone. */
module Hypotheses {
  import opened Schema
  import opened Interleaving
  import opened Invariant
  import opened Theorems

  // ---- H1 ----

  /** Resolving a gate keeps the invariant exactly when the gate is of the unblocked task:
      otherwise the task the gate is of stays blocked without a token. */
  lemma GateOfTaskExact(s: State, o: OpId, t: TaskId, g: GateId)
    requires Inv(s) && Resolves(s, o, t, g)
    ensures Inv(ApplyResolveWrite(s, o, t, g)) <==> s.gates[g].taskId == t
  {
    var s', u := ApplyResolveWrite(s, o, t, g), s.gates[g].taskId;
    if u == t {
      ResolveWriteKeeps(s, o, t, g);
    } else {
      OnlyToken(s, GateToken(g), u);
      assert IsToken(s, GateToken(g), u) && HasStatus(s, u, Blocked);
      assert HasStatus(s', u, Blocked);
      forall k ensures !IsToken(s', k, u) {
        assert IsToken(s', k, u) ==> IsToken(s, k, u);
      }
    }
  }

  // ---- H2 ----

  /** What a release write does to a task outside H2, status by status: a blocked one loses
      its status and keeps its token, a completed one is completed no more, and a failed one
      leaves failed without a retry, under the eyes of the call that is failing it, if any. */
  lemma ReleaseTooLate(s: State, o: OpId, t: TaskId)
    requires Inv(s) && Releases(s, o, t) && !ReleaseInTime(s, ReleaseWrite(o, t))
    ensures HasStatus(ApplyReleaseWrite(s, o, t), t, Pending)
    ensures s.tasks[t].status in {Blocked, Completed, Failed}
    ensures s.tasks[t].status == Blocked ==> !BlockedByOneToken(ApplyReleaseWrite(s, o, t))
    ensures s.tasks[t].status == Failed && IsFailing(s, t) ==> !OpsOk(ApplyReleaseWrite(s, o, t))
  {
    var s' := ApplyReleaseWrite(s, o, t);
    if s.tasks[t].status == Blocked {
      assert HasStatus(s, t, Blocked);
      var k :| IsToken(s, k, t);
      assert IsToken(s', k, t);
    }
    if c :| Failing(s, c, t) {
      assert s'.ops[c] == s.ops[c] && !OpOk(s'.tasks, s'.ops[c]);
    }
  }

  // ---- Both: soundness of a step ----

  /** The step keeps the invariant, a completed task stays completed, and a failed one is left
      only by the retry of a call that is failing it. */
  ghost predicate SoundStep(s: State, a: Action) {
    && Inv(Apply(s, a))
    && (forall t | HasStatus(s, t, Completed) :: HasStatus(Apply(s, a), t, Completed))
    && (forall t | HasStatus(s, t, Failed) && !HasStatus(Apply(s, a), t, Failed) ::
          a.RetryWrite? && Failing(s, a.op, t))
  }

  lemma RetryIsOfFailing(s: State, a: Action, t: TaskId)
    requires MarkOf(s, a, t) == Some(Retry)
    ensures a.RetryWrite? && Failing(s, a.op, t)
  {
  }

  lemma ObedientRow(s: State, a: Action, t: TaskId)
    requires Respects(s, a) && t in s.tasks && s.tasks[t].status in {Completed, Failed}
    ensures HasStatus(Apply(s, a), t, s.tasks[t].status)
         || (s.tasks[t].status == Failed && a.RetryWrite? && Failing(s, a.op, t))
  {
    StatusStep(s, a, t);
    if MarkOf(s, a, t) == Some(Retry) {
      RetryIsOfFailing(s, a, t);
    }
  }

  lemma ObedientIsSound(s: State, a: Action)
    requires Respects(s, a)
    ensures SoundStep(s, a)
  {
    StepKeeps(s, a);
    forall t | t in s.tasks && s.tasks[t].status in {Completed, Failed}
      ensures HasStatus(Apply(s, a), t, s.tasks[t].status)
           || (s.tasks[t].status == Failed && a.RetryWrite? && Failing(s, a.op, t))
    {
      ObedientRow(s, a, t);
    }
  }

  /** From a state that satisfies the invariant, a step is sound if and only if it obeys both. */
  lemma StepSoundExactly(s: State, a: Action)
    requires Inv(s)
    ensures SoundStep(s, a) <==> GateOfTask(s, a) && ReleaseInTime(s, a)
  {
    if GateOfTask(s, a) && ReleaseInTime(s, a) {
      ObedientIsSound(s, a);
    } else if !GateOfTask(s, a) {
      GateOfTaskExact(s, a.op, a.task, a.gate);
    } else {
      ReleaseTooLate(s, a.op, a.task);
      assert HasStatus(s, a.task, s.tasks[a.task].status) && Apply(s, a) == ApplyReleaseWrite(s, a.op, a.task);
    }
  }

  ghost predicate AlwaysSound(r: Run) {
    match r
    case Begin => true
    case Then(before, a) => AlwaysSound(before) && SoundStep(Exec(before), a)
  }

  /** The runs that obey H1 and H2 are exactly the runs in which every step is sound. */
  lemma {:induction false} HypothesesExact(r: Run)
    ensures Obeys(r) <==> AlwaysSound(r)
  {
    if r.Then? {
      HypothesesExact(r.before);
      if Obeys(r.before) {
        ReachableInv(r.before);
        StepSoundExactly(Exec(r.before), r.action);
      }
    }
  }

  // ---- A stricter rule that implies H2 ----

  predicate Selected(s: State, o: OpId, t: TaskId) {
    o in s.ops && s.ops[o].live && s.ops[o].pc.Releasing? && t in s.ops[o].pc.todo
  }

  /** Between the SELECT of a release and its write to a task, the status of that task is
      changed by nothing else. */
  ghost predicate LeftToRelease(s: State, a: Action) {
    forall o, t | Selected(s, o, t) && ChangesStatus(s, a, t) :: a == ReleaseWrite(o, t)
  }

  predicate HeldIn(s: State, t: TaskId) {
    t in s.tasks && Held(s.tasks[t].status)
  }

  ghost predicate SelectedHeld(s: State) {
    forall o, t | Selected(s, o, t) :: HeldIn(s, t)
  }

  lemma SelectionStarts(s: State, a: Action, o: OpId, t: TaskId)
    requires Selected(Apply(s, a), o, t) && !Selected(s, o, t)
    ensures a.SelectHeld? && HeldIn(s, t)
  {
    if OfSweep(a) || OfUpkeep(a) {
      NoSelectionInUpkeep(s, a, o, t);
    } else if !OfRelease(a) {
      NoSelectionElsewhere(s, a, o, t);
    }
  }

  lemma NoSelectionInUpkeep(s: State, a: Action, o: OpId, t: TaskId)
    requires OfSweep(a) || OfUpkeep(a)
    ensures Selected(Apply(s, a), o, t) ==> Selected(s, o, t)
  {
  }

  lemma NoSelectionElsewhere(s: State, a: Action, o: OpId, t: TaskId)
    requires !OfSweep(a) && !OfUpkeep(a) && !OfRelease(a)
    ensures Selected(Apply(s, a), o, t) ==> Selected(s, o, t)
  {
  }

  lemma SelectedHeldStep(s: State, a: Action)
    requires SelectedHeld(s) && LeftToRelease(s, a)
    ensures SelectedHeld(Apply(s, a))
  {
    forall o, t | Selected(Apply(s, a), o, t) ensures HeldIn(Apply(s, a), t) {
      if !Selected(s, o, t) {
        SelectionStarts(s, a, o, t);
        RowsKept(s, a);
      } else {
        RowKept(s, a, t);
        assert a == ReleaseWrite(o, t) ==> !ChangesStatus(s, a, t);
      }
    }
  }

  lemma {:induction false} UndisturbedObeysH2(r: Run)
    requires forall q, a, o, t | Prefix(Then(q, a), r) && Selected(Exec(q), o, t) && ChangesStatus(Exec(q), a, t) ::
               a == ReleaseWrite(o, t)
    ensures ObeysH2(r)
    ensures forall o, t | Selected(Exec(r), o, t) ::
              t in Exec(r).tasks && Exec(r).tasks[t].status in {Claimed, InProgress}
  {
    if r.Then? {
      var s, a := Exec(r.before), r.action;
      UndisturbedObeysH2(r.before);
      assert Prefix(Then(r.before, a), r);
      assert SelectedHeld(s);
      SelectedHeldStep(s, a);
      assert SelectedHeld(Exec(r));
      assert a.ReleaseWrite? && Releases(s, a.op, a.task) ==> Selected(s, a.op, a.task);
    }
  }
}
