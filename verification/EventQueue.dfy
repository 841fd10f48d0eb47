/** Events of one task that wait to be inserted, in the order of their writes, and what
    replaying them says in that order and in others. */
module EventQueue {
  import opened Schema
  import opened Interleaving
  import opened Audit

  datatype Wait = Wait(op: OpId, event: Event)

  /** A promotion event says nothing about the row of its task; every other event does. */
  predicate Tells(e: Event) {
    e.kind != ParentsCompleted
  }

  function ReplayQueue(was: Option<Snapshot>, q: seq<Wait>): Option<Snapshot> {
    if q == [] then was else ReplayOne(ReplayQueue(was, q[..|q| - 1]), q[|q| - 1].event)
  }

  lemma {:induction false} ReplayConcat(was: Option<Snapshot>, a: seq<Wait>, b: seq<Wait>)
    ensures ReplayQueue(was, a + b) == ReplayQueue(ReplayQueue(was, a), b)
  {
    if b == [] {
      assert a + b == a;
    } else {
      assert (a + b)[..|a + b| - 1] == a + b[..|b| - 1];
      ReplayConcat(was, a, b[..|b| - 1]);
    }
  }

  /** The queue with its i-th event at the head, or gone. */
  function Moved(q: seq<Wait>, i: nat): seq<Wait>
    requires i < |q|
  {
    [q[i]] + Dropped(q, i)
  }

  function Dropped(q: seq<Wait>, i: nat): seq<Wait>
    requires i < |q|
  {
    q[..i] + q[i + 1..]
  }

  predicate InQueue(q: seq<Wait>, o: OpId) {
    exists i :: 0 <= i < |q| && q[i].op == o
  }

  function Position(q: seq<Wait>, o: OpId): (i: nat)
    requires InQueue(q, o)
    ensures i < |q| && q[i].op == o
  {
    if q[0].op == o then 0
    else
      assert InQueue(q[1..], o) by {
        var i :| 0 <= i < |q| && q[i].op == o;
        assert q[1..][i - 1] == q[i];
      }
      1 + Position(q[1..], o)
  }

  predicate OneEach(q: seq<Wait>) {
    forall i, j | 0 <= i < j < |q| :: q[i].op != q[j].op
  }

  lemma DroppedIs(q: seq<Wait>, i: nat)
    requires i < |q| && OneEach(q)
    ensures OneEach(Dropped(q, i)) && forall w :: w in Dropped(q, i) <==> w in q && w.op != q[i].op
  {
    var q' := Dropped(q, i);
    forall j | 0 <= j < |q'| ensures q'[j] == q[if j < i then j else j + 1] {
    }
    forall w | w in q && w.op != q[i].op ensures w in q' {
      var j :| 0 <= j < |q| && q[j] == w;
      assert q'[if j < i then j else j - 1] == w;
    }
  }

  lemma OldestIsFirst(q: seq<Wait>)
    requires q != []
    ensures InQueue(q, q[0].op) && Position(q, q[0].op) == 0 && Dropped(q, 0) == q[1..] && Moved(q, 0) == q
  {
    assert q[0].op == q[0].op;
  }

  lemma NewestIsLast(q: seq<Wait>)
    requires q != [] && OneEach(q)
    ensures InQueue(q, q[|q| - 1].op) && Position(q, q[|q| - 1].op) == |q| - 1
  {
    assert q[|q| - 1].op == q[|q| - 1].op;
  }

  lemma KindTells(was: Option<Snapshot>, e: Event)
    requires Tells(e)
    ensures ReplayOne(was, e).Some? ==> ReplayOne(was, e).value.status == KindStatus(e.kind)
  {
  }

  /** The newest event at the head leaves the one before it to say the status. */
  lemma NewestFirst(was: Option<Snapshot>, q: seq<Wait>)
    requires |q| >= 2 && Tells(q[|q| - 1].event) && Tells(q[|q| - 2].event) && ReplayQueue(was, q).Some?
    requires KindStatus(q[|q| - 1].event.kind) != KindStatus(q[|q| - 2].event.kind)
    ensures ReplayQueue(was, Moved(q, |q| - 1)) != ReplayQueue(was, q)
  {
    var q' := Moved(q, |q| - 1);
    assert q'[|q'| - 1] == q[|q| - 2];
    KindTells(ReplayQueue(was, q[..|q| - 1]), q[|q| - 1].event);
    KindTells(ReplayQueue(was, q'[..|q'| - 1]), q[|q| - 2].event);
  }

  // ---- What a queue says, read off the kinds of its events ----

  function KindStatus(kind: EventKind): Status {
    match kind
    case CreateTask => Pending
    case ClaimTask => Claimed
    case StartTask => InProgress
    case BlockTask => Blocked
    case UpdateStatus => InProgress
    case CompleteTask => Completed
    case FailTask => Failed
    case TaskRetry => Pending
    case PendingTimeout => Failed
    case TaskHeartbeatTimeout => Failed
    case StaleAgentRelease => Pending
    case ParentsCompleted => Pending
  }

  /** The assignee an event stands for, if it stands for one. */
  function Names(e: Event): Option<AgentName> {
    if e.kind in {CreateTask, ClaimTask} then Some(e.agent)
    else if e.kind in {TaskRetry, StaleAgentRelease} then Some("")
    else None
  }

  /** The assignee the last such event of the queue stands for. */
  function LastName(q: seq<Wait>): Option<AgentName> {
    if q == [] then None
    else if Names(q[|q| - 1].event).Some? then Names(q[|q| - 1].event) else LastName(q[..|q| - 1])
  }

  function Or<T>(a: Option<T>, b: T): T {
    if a.Some? then a.value else b
  }

  function LastStatus(q: seq<Wait>, status: Status): Status {
    if q == [] then status else KindStatus(q[|q| - 1].event.kind)
  }

  function Retries(q: seq<Wait>): nat {
    if q == [] then 0 else Retries(q[..|q| - 1]) + if q[|q| - 1].event.kind == TaskRetry then 1 else 0
  }

  /** The creation of the task is not among the waiting events, so it was inserted before. */
  predicate AfterCreation(q: seq<Wait>) {
    forall i | 0 <= i < |q| :: Tells(q[i].event) && q[i].event.kind != CreateTask
  }

  lemma {:induction false} ReplayIs(was: Snapshot, q: seq<Wait>)
    requires AfterCreation(q)
    ensures ReplayQueue(Some(was), q) == Some(Snapshot(
              LastStatus(q, was.status), Or(LastName(q), was.assignee), was.retryCount + Retries(q)))
  {
    if q != [] {
      ReplayIs(was, q[..|q| - 1]);
    }
  }

  lemma {:induction false} ConcatIs(a: seq<Wait>, b: seq<Wait>)
    ensures LastName(a + b) == (if LastName(b).Some? then LastName(b) else LastName(a))
    ensures Retries(a + b) == Retries(a) + Retries(b)
  {
    if b == [] {
      assert a + b == a;
    } else {
      assert (a + b)[..|a + b| - 1] == a + b[..|b| - 1];
      ConcatIs(a, b[..|b| - 1]);
    }
  }

  lemma OneIs(w: Wait)
    ensures LastName([w]) == Names(w.event) && Retries([w]) == if w.event.kind == TaskRetry then 1 else 0
  {
    assert [w][..0] == [];
  }

  lemma QueueSplits(q: seq<Wait>, i: nat)
    requires i < |q|
    ensures q == q[..i] + [q[i]] + q[i + 1..]
  {
  }

  function Either(a: Option<AgentName>, b: Option<AgentName>): Option<AgentName> {
    if a.Some? then a else b
  }

  lemma PartsAre(q: seq<Wait>, i: nat)
    requires i < |q|
    ensures LastName(q) == Either(LastName(q[i + 1..]), Either(Names(q[i].event), LastName(q[..i])))
    ensures LastName(Moved(q, i)) == Either(LastName(q[i + 1..]), Either(LastName(q[..i]), Names(q[i].event)))
    ensures LastName(Dropped(q, i)) == Either(LastName(q[i + 1..]), LastName(q[..i]))
    ensures Retries(Moved(q, i)) == Retries(q)
         == Retries(Dropped(q, i)) + if q[i].event.kind == TaskRetry then 1 else 0
  {
    var a, e, b := q[..i], [q[i]], q[i + 1..];
    QueueSplits(q, i);
    ConcatIs(a + e, b);
    ConcatIs(a, e);
    ConcatIs(e, a + b);
    ConcatIs(a, b);
    OneIs(q[i]);
  }

  /** The i-th event may come first: it is the head already, or it is not the newest, or the
      one before it stands for the same status; and it names no assignee, or a newer event
      names one, or no older one does, or the last older name is the same. */
  predicate MayComeFirst(q: seq<Wait>, i: nat)
    requires i < |q|
  {
    i == 0
    || (&& (i < |q| - 1 || KindStatus(q[i].event.kind) == KindStatus(q[i - 1].event.kind))
        && (|| Names(q[i].event).None? || LastName(q[i + 1..]).Some?
            || LastName(q[..i]) in {None, Names(q[i].event)}))
  }

  /** The i-th event may be missing: it is no retry; it is not the newest, or what is before
      it stands for the same status; and it names no assignee, or a newer event names one, or
      what is before it names the same. */
  predicate MayBeMissing(was: Snapshot, q: seq<Wait>, i: nat)
    requires i < |q|
  {
    && q[i].event.kind != TaskRetry
    && (i < |q| - 1 || KindStatus(q[i].event.kind) == LastStatus(q[..i], was.status))
    && (|| Names(q[i].event).None? || LastName(q[i + 1..]).Some?
        || Names(q[i].event).value == Or(LastName(q[..i]), was.assignee))
  }

  lemma MovedExactly(was: Snapshot, q: seq<Wait>, i: nat)
    requires AfterCreation(q) && i < |q|
    ensures ReplayQueue(Some(was), Moved(q, i)) == ReplayQueue(Some(was), q) <==> MayComeFirst(q, i)
  {
    ReplayIs(was, q);
    ReplayIs(was, Moved(q, i));
    PartsAre(q, i);
    if i == 0 {
      assert Moved(q, i) == q;
    } else {
      assert Moved(q, i)[|q| - 1] == if i < |q| - 1 then q[|q| - 1] else q[i - 1];
    }
  }

  lemma DroppedExactly(was: Snapshot, q: seq<Wait>, i: nat)
    requires AfterCreation(q) && i < |q|
    ensures ReplayQueue(Some(was), Dropped(q, i)) == ReplayQueue(Some(was), q) <==> MayBeMissing(was, q, i)
  {
    ReplayIs(was, q);
    ReplayIs(was, Dropped(q, i));
    PartsAre(q, i);
    if i == |q| - 1 {
      assert Dropped(q, i) == q[..i] && LastName(q[i + 1..]) == None;
    } else {
      assert Dropped(q, i)[|q| - 2] == q[|q| - 1];
    }
  }
}
