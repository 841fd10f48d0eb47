/** The orchestrator client that approves answers and unblocks
    (scripts/acb-orchestrator-poller.py). It is the caller that H1 speaks about. */
module Orchestrator {
  import opened Schema
  import opened Audit
  import opened TaskRepo
  import opened Handlers

  /** One row of the task list the client fetched, and one of a gate list, each possibly out
      of date by now. */
  datatype ListedTask = ListedTask(id: TaskId, status: Status)
  datatype ListedGate = ListedGate(id: GateId, status: GateStatus)

  /** What becomes of a request: it is handled and answered, it never arrives, or it is
      handled and the answer is lost. */
  datatype Wire = Delivered | LostBefore | LostAfter

  /** How far the client gets with one gate. */
  datatype Progress = Untouched | Approved | Settled

  const APPROVAL := "Approved by orchestrator"

  predicate GatesRefer(gates: Gates, tasks: Tasks) {
    forall g | g in gates :: gates[g].taskId in tasks
  }

  /** Gates are listed under their own task; gates are never removed or moved. */
  predicate ListedUnder(gates: Gates, listed: seq<ListedGate>, task: TaskId) {
    forall row | row in listed :: row.id in gates && gates[row.id].taskId == task
  }

  function AskedGates(gates: Gates, owners: set<TaskId>): set<GateId> {
    set g | g in gates && gates[g].taskId in owners && gates[g].status == Asked
  }

  function AskedAmong(gates: Gates, listed: seq<ListedGate>): set<GateId> {
    set row | row in listed && row.status == Asked && row.id in gates && gates[row.id].status == Asked :: row.id
  }

  /** Some gates approved, and some approved and resolved. */
  function Passed(gates: Gates, approved: set<GateId>, settled: set<GateId>, now: int): Gates {
    map g | g in gates ::
      if g in settled then Gate(gates[g].taskId, Resolved, APPROVAL, Some(now))
      else if g in approved then Gate(gates[g].taskId, Answered, APPROVAL, Some(now))
      else gates[g]
  }

  /** The tasks of the given gates put in progress. */
  function Resumed(tasks: Tasks, gates: Gates, ids: set<GateId>): Tasks {
    map t | t in tasks ::
      if exists g | g in ids :: g in gates && gates[g].taskId == t then tasks[t].(status := InProgress) else tasks[t]
  }

  function ListedBlocked(snapshot: seq<ListedTask>): set<TaskId> {
    set row | row in snapshot && row.status == Blocked :: row.id
  }

  /** The gates that were touched are among those that may be. */
  predicate Within(approved: set<GateId>, settled: set<GateId>, all: set<GateId>) {
    approved !! settled && approved + settled <= all
  }

  lemma PassedNone(gates: Gates, tasks: Tasks, now: int)
    ensures Passed(gates, {}, {}, now) == gates && Resumed(tasks, gates, {}) == tasks
  {
  }

  /** Passing some gates after others passes them all. */
  lemma PassedTwice(gates: Gates, tasks: Tasks, approved: set<GateId>, settled: set<GateId>,
                    approved': set<GateId>, settled': set<GateId>, now: int)
    requires approved !! approved' && approved !! settled' && settled !! approved' && settled !! settled'
    ensures var between, resumed := Passed(gates, approved, settled, now), Resumed(tasks, gates, settled);
            && between.Keys == gates.Keys && (forall g | g in gates :: between[g].taskId == gates[g].taskId)
            && Passed(between, approved', settled', now)
               == Passed(gates, approved + approved', settled + settled', now)
            && Resumed(resumed, between, settled') == Resumed(tasks, gates, settled + settled')
  {
    var between, resumed := Passed(gates, approved, settled, now), Resumed(tasks, gates, settled);
    forall t | t in tasks
      ensures Resumed(resumed, between, settled')[t] == Resumed(tasks, gates, settled + settled')[t]
    {
      if g :| g in settled + settled' && g in gates && gates[g].taskId == t {
        assert g in settled || (g in settled' && g in between && between[g].taskId == t);
      }
    }
  }

  /** The unblock calls made since `before` each name a gate of the task they unblock. */
  predicate GrewByOwnGates(before: seq<(TaskId, GateId)>, calls: seq<(TaskId, GateId)>, gates: Gates) {
    before <= calls && forall c | c in calls[|before|..] :: c.1 in gates && gates[c.1].taskId == c.0
  }

  function MoreApproved(approved: set<GateId>, g: GateId, progress: Progress): set<GateId> {
    if progress == Approved then approved + {g} else approved
  }

  function MoreSettled(settled: set<GateId>, g: GateId, progress: Progress): set<GateId> {
    if progress == Settled then settled + {g} else settled
  }

  /** One more gate that was asked until now. */
  lemma PassedOne(gates: Gates, tasks: Tasks, approved: set<GateId>, settled: set<GateId>,
                  g: GateId, progress: Progress, now: int)
    requires g in gates && gates[g].taskId in tasks
    requires progress != Untouched ==> Passed(gates, approved, settled, now)[g].status == Asked
    ensures var t, between := gates[g].taskId, Passed(gates, approved, settled, now);
            && Passed(gates, MoreApproved(approved, g, progress), MoreSettled(settled, g, progress), now)
               == (match progress
                   case Untouched => between
                   case Approved => between[g := Gate(t, Answered, APPROVAL, Some(now))]
                   case Settled => between[g := Gate(t, Resolved, APPROVAL, Some(now))])
            && Resumed(tasks, gates, MoreSettled(settled, g, progress))
               == if progress == Settled then Resumed(tasks, gates, settled)[t := tasks[t].(status := InProgress)]
                  else Resumed(tasks, gates, settled)
    ensures Resumed(tasks, gates, settled)[gates[g].taskId].(status := InProgress)
         == tasks[gates[g].taskId].(status := InProgress)
  {
    var t := gates[g].taskId;
    if progress == Settled {
      forall u | u in tasks
        ensures Resumed(tasks, gates, settled + {g})[u]
             == if u == t then tasks[u].(status := InProgress) else Resumed(tasks, gates, settled)[u]
      {
        assert u == t ==> g in settled + {g};
      }
    }
  }

  /** What one more row of a gate list allows the client to touch. */
  lemma OneMoreRow(gates: Gates, listed: seq<ListedGate>, i: nat, approved: set<GateId>, settled: set<GateId>,
                   progress: Progress, now: int)
    requires i < |listed| && listed[i].id in gates && Within(approved, settled, AskedAmong(gates, listed[..i]))
    requires progress != Untouched ==>
               listed[i].status == Asked && Passed(gates, approved, settled, now)[listed[i].id].status == Asked
    ensures Within(MoreApproved(approved, listed[i].id, progress), MoreSettled(settled, listed[i].id, progress),
                   AskedAmong(gates, listed[..i + 1]))
    ensures settled == AskedAmong(gates, listed[..i])
            && (progress == Settled
                || listed[i].status != Asked || Passed(gates, approved, settled, now)[listed[i].id].status != Asked) ==>
              MoreSettled(settled, listed[i].id, progress) == AskedAmong(gates, listed[..i + 1])
  {
    var row := listed[i];
    assert listed[..i + 1] == listed[..i] + [row];
    assert AskedAmong(gates, listed[..i + 1])
        == AskedAmong(gates, listed[..i])
           + if row.status == Asked && gates[row.id].status == Asked then {row.id} else {};
  }

  class Client {
    const handler: TaskHandler
    /** What becomes of the n-th request that changes something, and how many were sent. */
    const wire: nat -> Wire
    var sent: nat

    constructor (handler: TaskHandler, wire: nat -> Wire)
      ensures this.handler == handler && this.wire == wire && sent == 0
    {
      this.handler, this.wire, sent := handler, wire, 0;
    }

    ghost predicate AllDelivered() {
      forall n :: wire(n) == Delivered
    }

    /** Approves one gate that was listed as asked, and after an answer unblocks the task
        with that very gate. */
    method ApproveAndUnblock(task: TaskId, gate: GateId, now: int) returns (ghost progress: Progress)
      requires handler.Wired() && gate != ""
      requires task in handler.db.tasks && gate in handler.db.gates && handler.db.gates[gate].taskId == task
      modifies handler.db`tasks, handler.db`gates, handler.db`events, handler`unblocks, this`sent
      ensures progress == Untouched <==>
                old(handler.db.gates)[gate].status != Asked || wire(old(sent)) == LostBefore
      ensures progress == Settled <==>
                old(handler.db.gates)[gate].status == Asked
                && wire(old(sent)) == Delivered && wire(old(sent) + 1) != LostBefore
      ensures handler.db.gates == match progress
                case Untouched => old(handler.db.gates)
                case Approved =>
                  old(handler.db.gates)[gate := Gate(task, Answered, "Approved by orchestrator", Some(now))]
                case Settled =>
                  old(handler.db.gates)[gate := Gate(task, Resolved, "Approved by orchestrator", Some(now))]
      ensures handler.db.tasks
           == if progress == Settled
              then old(handler.db.tasks)[task := old(handler.db.tasks)[task].(status := InProgress)]
              else old(handler.db.tasks)
      ensures handler.unblocks == old(handler.unblocks) + if progress == Settled then [(task, gate)] else []
      ensures old(handler.db.Audited()) ==> handler.db.Audited()
    {
      var first := wire(sent);
      sent := sent + 1;
      if first == LostBefore {
        return Untouched;
      }
      var approved := handler.ApproveGate(task, gate, APPROVAL, now);
      if approved != Ok {
        return Untouched;
      }
      if first == LostAfter {
        return Approved;
      }
      var second := wire(sent);
      sent := sent + 1;
      if second == LostBefore {
        return Approved;
      }
      var unblocked := handler.UnblockTask(task, gate);
      return Settled;
    }

    /** The gates of one listed task, as the client fetched them. Each that was listed as
        asked and still is gets as far as the wire allows; nothing else changes, and every
        unblock call names a gate of the task. */
    method HandleTask(task: TaskId, listed: seq<ListedGate>, now: int)
        returns (ghost approved: set<GateId>, ghost settled: set<GateId>)
      requires handler.Wired() && GatesRefer(handler.db.gates, handler.db.tasks) && "" !in handler.db.gates
      requires ListedUnder(handler.db.gates, listed, task)
      modifies handler.db`tasks, handler.db`gates, handler.db`events, handler`unblocks, this`sent
      ensures Within(approved, settled, AskedAmong(old(handler.db.gates), listed))
      ensures forall g | g in approved || g in settled ::
                g in old(handler.db.gates) && old(handler.db.gates)[g].status == Asked && ListedGate(g, Asked) in listed
      ensures handler.db.gates == Passed(old(handler.db.gates), approved, settled, now)
      ensures handler.db.tasks == Resumed(old(handler.db.tasks), old(handler.db.gates), settled)
      ensures AllDelivered() ==> settled == AskedAmong(old(handler.db.gates), listed)
      ensures (forall n :: wire(n) == Delivered) ==>
                forall g | g in old(handler.db.gates) && old(handler.db.gates)[g].status == Asked
                           && ListedGate(g, Asked) in listed ::
                  g in settled
      ensures GrewByOwnGates(old(handler.unblocks), handler.unblocks, old(handler.db.gates))
      ensures old(handler.db.Audited()) ==> handler.db.Audited()
    {
      var db := handler.db;
      ghost var gates0, tasks0, before := db.gates, db.tasks, handler.unblocks;
      approved, settled := {}, {};
      PassedNone(gates0, tasks0, now);
      for i := 0 to |listed|
        invariant Within(approved, settled, AskedAmong(gates0, listed[..i]))
        invariant db.gates == Passed(gates0, approved, settled, now)
        invariant db.tasks == Resumed(tasks0, gates0, settled)
        invariant AllDelivered() ==> settled == AskedAmong(gates0, listed[..i])
        invariant GrewByOwnGates(before, handler.unblocks, gates0)
        invariant old(handler.db.Audited()) ==> db.Audited()
      {
        var row := listed[i];
        assert row in listed;
        ghost var progress := Untouched;
        if row.status == Asked {
          progress := ApproveAndUnblock(task, row.id, now);
        }
        PassedOne(gates0, tasks0, approved, settled, row.id, progress, now);
        OneMoreRow(gates0, listed, i, approved, settled, progress, now);
        approved, settled := MoreApproved(approved, row.id, progress), MoreSettled(settled, row.id, progress);
      }
      assert listed[..|listed|] == listed;
    }

    /** The whole pass over a fetched task list: of each task listed as blocked, the gates that
        were listed as asked and still are get as far as the wire allows, their tasks go on,
        and nothing else changes. Every unblock call obeys H1. */
    method HandleBlockedTasks(
        snapshot: seq<ListedTask>, gatesOf: TaskId -> seq<ListedGate>, autoApprove: bool, now: int)
        returns (ghost approved: set<GateId>, ghost settled: set<GateId>)
      requires handler.Wired() && GatesRefer(handler.db.gates, handler.db.tasks) && "" !in handler.db.gates
      requires forall t :: ListedUnder(handler.db.gates, gatesOf(t), t)
      modifies handler.db`tasks, handler.db`gates, handler.db`events, handler`unblocks, this`sent
      ensures approved !! settled
      ensures forall g | g in approved || g in settled ::
                && autoApprove && g in old(handler.db.gates) && old(handler.db.gates)[g].status == Asked
                && ListedTask(old(handler.db.gates)[g].taskId, Blocked) in snapshot
      ensures handler.db.gates == map g | g in old(handler.db.gates) ::
                if g in settled
                then Gate(old(handler.db.gates)[g].taskId, Resolved, "Approved by orchestrator", Some(now))
                else if g in approved
                then Gate(old(handler.db.gates)[g].taskId, Answered, "Approved by orchestrator", Some(now))
                else old(handler.db.gates)[g]
      ensures handler.db.tasks == map t | t in old(handler.db.tasks) ::
                if exists g | g in settled :: g in old(handler.db.gates) && old(handler.db.gates)[g].taskId == t
                then old(handler.db.tasks)[t].(status := InProgress) else old(handler.db.tasks)[t]
      ensures autoApprove && (forall n :: wire(n) == Delivered)
              && (forall g | g in old(handler.db.gates) && old(handler.db.gates)[g].status == Asked ::
                    ListedGate(g, Asked) in gatesOf(old(handler.db.gates)[g].taskId)) ==>
                forall g | g in old(handler.db.gates) && old(handler.db.gates)[g].status == Asked
                           && ListedTask(old(handler.db.gates)[g].taskId, Blocked) in snapshot ::
                  g in settled
      ensures old(handler.unblocks) <= handler.unblocks
      ensures forall c | c in handler.unblocks[|old(handler.unblocks)|..] ::
                c.1 in old(handler.db.gates) && old(handler.db.gates)[c.1].taskId == c.0
      ensures old(handler.db.Audited()) ==> handler.db.Audited()
    {
      var db := handler.db;
      ghost var gates0, tasks0, before := db.gates, db.tasks, handler.unblocks;
      approved, settled := {}, {};
      PassedNone(gates0, tasks0, now);
      if !autoApprove {
        return;
      }
      for i := 0 to |snapshot|
        invariant Within(approved, settled, AskedGates(gates0, ListedBlocked(snapshot[..i])))
        invariant db.gates == Passed(gates0, approved, settled, now)
        invariant db.tasks == Resumed(tasks0, gates0, settled)
        invariant AllDelivered() && ListsAsked(gates0, gatesOf) ==>
                    settled == AskedGates(gates0, ListedBlocked(snapshot[..i]))
        invariant GrewByOwnGates(before, handler.unblocks, gates0)
        invariant old(handler.db.Audited()) ==> db.Audited()
      {
        var row := snapshot[i];
        ListedBlockedOneMore(gates0, snapshot, i);
        if row.status == Blocked {
          var listed := gatesOf(row.id);
          assert ListedUnder(gates0, listed, row.id);
          AskedOfOne(gates0, listed, row.id, approved, settled, now);
          ghost var more, done := HandleTask(row.id, listed, now);
          PassedTwice(gates0, tasks0, approved, settled, more, done, now);
          if ListsAsked(gates0, gatesOf) {
            AllAskedOfOne(gates0, gatesOf, row.id, approved, settled, now);
          }
          approved, settled := approved + more, settled + done;
        }
      }
      assert snapshot[..|snapshot|] == snapshot;
    }
  }

  /** The gate lists miss no gate that is asked. */
  ghost predicate ListsAsked(gates: Gates, gatesOf: TaskId -> seq<ListedGate>) {
    forall g | g in gates && gates[g].status == Asked :: ListedGate(g, Asked) in gatesOf(gates[g].taskId)
  }

  lemma ListedBlockedOneMore(gates: Gates, snapshot: seq<ListedTask>, i: nat)
    requires i < |snapshot|
    ensures AskedGates(gates, ListedBlocked(snapshot[..i + 1]))
         == AskedGates(gates, ListedBlocked(snapshot[..i]))
            + if snapshot[i].status == Blocked then AskedGates(gates, {snapshot[i].id}) else {}
  {
    assert snapshot[..i + 1] == snapshot[..i] + [snapshot[i]];
    assert ListedBlocked(snapshot[..i + 1])
        == ListedBlocked(snapshot[..i]) + if snapshot[i].status == Blocked then {snapshot[i].id} else {};
  }

  /** What one gate list lets the client touch is new, and of its task. */
  lemma AskedOfOne(gates: Gates, listed: seq<ListedGate>, t: TaskId,
                   approved: set<GateId>, settled: set<GateId>, now: int)
    requires ListedUnder(gates, listed, t)
    ensures var between := Passed(gates, approved, settled, now);
            && ListedUnder(between, listed, t)
            && AskedAmong(between, listed) <= AskedGates(gates, {t})
            && AskedAmong(between, listed) !! approved && AskedAmong(between, listed) !! settled
  {
  }

  lemma AllAskedOfOne(gates: Gates, gatesOf: TaskId -> seq<ListedGate>, t: TaskId,
                      approved: set<GateId>, settled: set<GateId>, now: int)
    requires ListsAsked(gates, gatesOf) && ListedUnder(gates, gatesOf(t), t)
    ensures AskedAmong(Passed(gates, approved, settled, now), gatesOf(t)) + approved + settled
         >= AskedGates(gates, {t})
  {
    var between := Passed(gates, approved, settled, now);
    forall g | g in AskedGates(gates, {t}) && g !in approved && g !in settled
      ensures g in AskedAmong(between, gatesOf(t))
    {
      assert ListedGate(g, Asked) in gatesOf(t) && between[g] == gates[g];
    }
  }
}
