/** The webhook retry queues (internal/dispatcher/dispatcher.go): one Redis list per agent,
    trimmed before each push and drained by a pop loop that may push again. */
module RetryQueue {
  import opened Schema

  const MAX_RETRIES := 5
  const MAX_QUEUE := 1000
  const MAX_BACKOFF := 30

  /** One element of a list: a retry entry, or bytes that do not parse as one. */
  datatype Item = Garbage | Entry(task: TaskId, agent: AgentName, attempt: int)

  /** What becomes of a retry once its backoff is over: the task or the agent is no longer
      fit for it, or the POST is made and succeeds or fails. */
  datatype Fate = Dropped | Delivered | Refused

  /** LTRIM key -(n-1) -1: the newest n-1 elements stay. */
  function Trim<T>(q: seq<T>): seq<T> {
    if |q| > MAX_QUEUE - 1 then q[|q| - (MAX_QUEUE - 1)..] else q
  }

  /** 1 << uint(attempt) for attempts below the limit; a negative count shifts everything out. */
  function Shift(attempt: int): nat
    requires attempt < MAX_RETRIES
    decreases attempt
  {
    if attempt < 0 then 0 else if attempt == 0 then 1 else 2 * Shift(attempt - 1)
  }

  function Backoff(attempt: int): nat
    requires attempt < MAX_RETRIES
  {
    if Shift(attempt) > MAX_BACKOFF then MAX_BACKOFF else Shift(attempt)
  }

  /** The waits double; a negative attempt count shifts everything out, and no wait reaches the cap. */
  lemma BackoffIs(attempt: int)
    requires attempt < 5
    ensures Backoff(attempt) == match attempt
                                case 4 => 16
                                case 3 => 8
                                case 2 => 4
                                case 1 => 2
                                case 0 => 1
                                case _ => 0
  {
    assert Shift(1) == 2;
    assert Shift(2) == 4;
    assert Shift(3) == 8;
    assert Shift(4) == 16;
  }

  // ---- Budgets: what an element can still cost ----

  /** Turns an element can still take in the pop loop. */
  function Turns(item: Item): nat {
    match item
    case Garbage => 1
    case Entry(_, _, attempt) => if attempt >= MAX_RETRIES then 1 else MAX_RETRIES + 1 - attempt
  }

  /** POSTs an element can still cause. */
  function Posts(item: Item): nat {
    match item
    case Garbage => 0
    case Entry(_, _, attempt) => if attempt >= MAX_RETRIES then 0 else MAX_RETRIES - attempt
  }

  function SleepFrom(attempt: int): nat
    decreases MAX_RETRIES - attempt
  {
    if attempt >= MAX_RETRIES then 0 else Backoff(attempt) + SleepFrom(attempt + 1)
  }

  /** Seconds of backoff an element can still cause. */
  function Sleep(item: Item): nat {
    match item
    case Garbage => 0
    case Entry(_, _, attempt) => SleepFrom(attempt)
  }

  function Total(q: seq<Item>, cost: Item -> nat): nat {
    if q == [] then 0 else cost(q[0]) + Total(q[1..], cost)
  }

  lemma {:induction false} TotalConcat(p: seq<Item>, q: seq<Item>, cost: Item -> nat)
    ensures Total(p + q, cost) == Total(p, cost) + Total(q, cost)
  {
    if p == [] {
      assert p + q == q;
    } else {
      assert (p + q)[1..] == p[1..] + q;
      TotalConcat(p[1..], q, cost);
    }
  }

  lemma TotalTrim(q: seq<Item>, cost: Item -> nat)
    ensures Total(Trim(q), cost) <= Total(q, cost)
  {
    if |q| > MAX_QUEUE - 1 {
      var cut := |q| - (MAX_QUEUE - 1);
      assert q == q[..cut] + q[cut..];
      TotalConcat(q[..cut], q[cut..], cost);
    }
  }

  lemma TotalOne(item: Item, cost: Item -> nat)
    ensures Total([item], cost) == cost(item)
  {
    assert [item][1..] == [];
  }

  lemma {:induction false} TotalPush(q: seq<Item>, item: Item, cost: Item -> nat)
    ensures Total(Trim(q) + [item], cost) <= Total(q, cost) + cost(item)
    ensures |q| < MAX_QUEUE ==> Total(Trim(q) + [item], cost) == Total(q, cost) + cost(item)
  {
    TotalTrim(q, cost);
    TotalConcat(Trim(q), [item], cost);
    TotalOne(item, cost);
  }

  predicate Again(item: Item) {
    item.Entry? && item.attempt < MAX_RETRIES
  }

  /** The entry a failed retry pushes. */
  function Successor(item: Item): Item
    requires item.Entry?
  {
    Entry(item.task, item.agent, item.attempt + 1)
  }

  /** The list of `key` after its first element has had its turn. */
  function AfterTurn(q: seq<Item>, key: AgentName, fate: Fate): seq<Item>
    requires q != []
  {
    if Again(q[0]) && fate.Refused? && q[0].agent == key then Trim(q[1..]) + [Successor(q[0])] else q[1..]
  }

  /** A turn uses up at least one turn, and no more POSTs and seconds than it frees. */
  lemma {:induction false} TurnPays(q: seq<Item>, key: AgentName, fate: Fate)
    requires q != []
    ensures var q' := AfterTurn(q, key, fate);
            && Total(q', Turns) < Total(q, Turns)
            && Total(q', Posts) + (if Again(q[0]) && !fate.Dropped? then 1 else 0) <= Total(q, Posts)
            && Total(q', Sleep) + (if Again(q[0]) then Backoff(q[0].attempt) else 0) <= Total(q, Sleep)
  {
    if Again(q[0]) && fate.Refused? && q[0].agent == key {
      TotalPush(q[1..], Successor(q[0]), Turns);
      TotalPush(q[1..], Successor(q[0]), Posts);
      TotalPush(q[1..], Successor(q[0]), Sleep);
    }
  }

  /** It uses exactly what it frees when the POST is refused and nothing has to be trimmed. */
  lemma RefusedTurnPaysExactly(q: seq<Item>, key: AgentName)
    requires q != [] && |q| <= MAX_QUEUE && Written(q[0], key)
    ensures var q' := AfterTurn(q, key, Refused);
            && |q'| <= MAX_QUEUE
            && Total(q', Posts) + (if Again(q[0]) then 1 else 0) == Total(q, Posts)
            && Total(q', Sleep) + (if Again(q[0]) then Backoff(q[0].attempt) else 0) == Total(q, Sleep)
  {
    if Again(q[0]) {
      TotalPush(q[1..], Successor(q[0]), Posts);
      TotalPush(q[1..], Successor(q[0]), Sleep);
    }
  }

  lemma TrimWritten(q: seq<Item>, key: AgentName)
    requires AllWritten(q, key)
    ensures AllWritten(Trim(q), key)
  {
    forall i | 0 <= i < |Trim(q)| ensures Written(Trim(q)[i], key) {
      assert Trim(q)[i] == q[i + |q| - |Trim(q)|];
    }
  }

  /** An entry as the code writes it. */
  predicate Written(item: Item, key: AgentName) {
    item.Entry? && item.agent == key && 1 <= item.attempt <= MAX_RETRIES
  }

  predicate AllWritten(q: seq<Item>, key: AgentName) {
    forall i | 0 <= i < |q| :: Written(q[i], key)
  }

  class Queues {
    var lists: map<AgentName, seq<Item>>

    constructor ()
      ensures lists == map[]
    {
      lists := map[];
    }

    function At(key: AgentName): seq<Item>
      reads this
    {
      if key in lists then lists[key] else []
    }

    /** Trims the agent's list and appends the failed dispatch with its next attempt number. */
    method EnqueueRetry(agent: AgentName, task: TaskId, attempt: int)
      modifies this
      ensures var q := old(At(agent));
              At(agent) == (if |q| < 1000 then q else q[|q| - 999..]) + [Entry(task, agent, attempt + 1)]
      ensures At(agent) == Trim(old(At(agent))) + [Entry(task, agent, attempt + 1)]
      ensures forall k | k != agent :: At(k) == old(At(k))
      ensures 0 <= attempt < MAX_RETRIES && AllWritten(old(At(agent)), agent) ==> AllWritten(At(agent), agent)
    {
      lists := lists[agent := Trim(At(agent)) + [Entry(task, agent, attempt + 1)]];
    }

    /** One webhook; `fate` says how far it gets. Only a POST that fails is queued again. */
    method SendWebhook(agent: AgentName, task: TaskId, attempt: int, fate: Fate) returns (posts: nat)
      modifies this
      ensures posts == if fate.Dropped? then 0 else 1
      ensures At(agent) == if fate.Refused? then Trim(old(At(agent))) + [Entry(task, agent, attempt + 1)]
                           else old(At(agent))
      ensures forall k | k != agent :: At(k) == old(At(k))
      ensures 0 <= attempt < MAX_RETRIES && AllWritten(old(At(agent)), agent) ==> AllWritten(At(agent), agent)
    {
      if fate.Dropped? {
        return 0;
      }
      if fate.Refused? {
        EnqueueRetry(agent, task, attempt);
      }
      return 1;
    }

    /** A popped element: given up on, or retried after its backoff. */
    method RetryEntry(item: Item, fate: Fate) returns (posts: nat, slept: nat)
      modifies this
      ensures item.Entry? && item.attempt < 5 ==>
                slept == match item.attempt
                         case 4 => 16
                         case 3 => 8
                         case 2 => 4
                         case 1 => 2
                         case 0 => 1
                         case _ => 0
      ensures var again := item.Entry? && item.attempt < 5;
              && posts == (if again && !fate.Dropped? then 1 else 0)
              && slept == (if again then Backoff(item.attempt) else 0)
              && (again && fate.Refused? ==>
                    At(item.agent) == Trim(old(At(item.agent))) + [Entry(item.task, item.agent, item.attempt + 1)])
              && (forall k | !(again && fate.Refused? && k == item.agent) :: At(k) == old(At(k)))
    {
      if item.Garbage? || item.attempt >= MAX_RETRIES {
        return 0, 0;
      }
      slept := Backoff(item.attempt);
      BackoffIs(item.attempt);
      posts := SendWebhook(item.agent, item.task, item.attempt, fate);
    }

    /** Drains one list. Whatever it holds and however the POSTs go, the loop ends with the
        list empty, within the POSTs and the seconds its elements allow. When nothing is
        delivered or dropped and nothing has to be trimmed, all allowed POSTs are made. */
    method Drain(key: AgentName, fates: nat -> Fate) returns (posts: nat, slept: nat)
      modifies this
      ensures At(key) == []
      ensures posts <= Total(old(At(key)), Posts) && slept <= Total(old(At(key)), Sleep)
      ensures AllWritten(old(At(key)), key) ==> forall k | k != key :: At(k) == old(At(k))
      ensures AllWritten(old(At(key)), key) && |old(At(key))| <= MAX_QUEUE && (forall n :: fates(n) == Refused) ==>
                posts == Total(old(At(key)), Posts) && slept == Total(old(At(key)), Sleep)
    {
      posts, slept := 0, 0;
      var n := 0;
      ghost var own := AllWritten(At(key), key);
      ghost var full := own && |At(key)| <= MAX_QUEUE && forall n :: fates(n) == Refused;
      while |At(key)| > 0
        invariant posts + Total(At(key), Posts) <= Total(old(At(key)), Posts)
        invariant slept + Total(At(key), Sleep) <= Total(old(At(key)), Sleep)
        invariant own ==> AllWritten(At(key), key) && forall k | k != key :: At(k) == old(At(k))
        invariant full ==> |At(key)| <= MAX_QUEUE
        invariant full ==> posts + Total(At(key), Posts) == Total(old(At(key)), Posts)
        invariant full ==> slept + Total(At(key), Sleep) == Total(old(At(key)), Sleep)
        decreases Total(At(key), Turns)
      {
        ghost var q := At(key);
        TurnPays(q, key, fates(n));
        if full {
          RefusedTurnPaysExactly(q, key);
        }
        var p, s := TakeTurn(key, fates(n));
        posts, slept, n := posts + p, slept + s, n + 1;
      }
    }

    /** One new-task webhook, followed by the drain of the agent's list, whatever it holds: the
        dispatch adds at most five POSTs and thirty seconds to what the list may cost, and
        exactly that when every POST is refused and nothing has to be trimmed. */
    method DispatchAndDrain(agent: AgentName, task: TaskId, first: Fate, fates: nat -> Fate)
        returns (posts: nat, slept: nat)
      modifies this
      ensures At(agent) == []
      ensures posts <= Total(old(At(agent)), Posts) + 5 && slept <= Total(old(At(agent)), Sleep) + 30
      ensures AllWritten(old(At(agent)), agent) && |old(At(agent))| < 1000
              && first == Refused && (forall n :: fates(n) == Refused) ==>
                posts == Total(old(At(agent)), Posts) + 5 && slept == Total(old(At(agent)), Sleep) + 30
      ensures AllWritten(old(At(agent)), agent) ==> forall k | k != agent :: At(k) == old(At(k))
    {
      ghost var q := At(agent);
      posts := SendWebhook(agent, task, 0, first);
      DispatchBudget(task, agent);
      TotalPush(q, Entry(task, agent, 1), Posts);
      TotalPush(q, Entry(task, agent, 1), Sleep);
      var more;
      more, slept := Drain(agent, fates);
      posts := posts + more;
    }

    /** One turn of the pop loop: LPOP, then retry what came out. */
    method TakeTurn(key: AgentName, fate: Fate) returns (posts: nat, slept: nat)
      requires At(key) != []
      modifies this
      ensures var item := old(At(key))[0];
              && At(key) == AfterTurn(old(At(key)), key, fate)
              && posts == (if Again(item) && !fate.Dropped? then 1 else 0)
              && slept == (if Again(item) then Backoff(item.attempt) else 0)
      ensures AllWritten(old(At(key)), key) ==> AllWritten(At(key), key) && forall k | k != key :: At(k) == old(At(k))
    {
      ghost var q := At(key);
      var item := PopFirst(key);
      posts, slept := RetryEntry(item, fate);
      if AllWritten(q, key) {
        assert Written(q[0], key);
        TrimWritten(q[1..], key);
      }
    }

    /** LPOP. */
    method PopFirst(key: AgentName) returns (item: Item)
      requires At(key) != []
      modifies this
      ensures item == old(At(key))[0] && At(key) == old(At(key))[1..]
      ensures forall k | k != key :: At(k) == old(At(k))
    {
      item := lists[key][0];
      lists := lists[key := lists[key][1..]];
    }
  }

  /** A first dispatch that fails leaves an entry with four POSTs and thirty seconds to go,
      so one dispatch to one agent makes at most five POSTs with thirty seconds of backoff. */
  lemma DispatchBudget(task: TaskId, agent: AgentName)
    ensures Posts(Entry(task, agent, 1)) == 4 && Sleep(Entry(task, agent, 1)) == 30
    ensures Posts(Entry(task, agent, 2)) == 3 && Sleep(Entry(task, agent, 2)) == 28
    ensures Posts(Entry(task, agent, 3)) == 2 && Sleep(Entry(task, agent, 3)) == 24
    ensures Posts(Entry(task, agent, 4)) == 1 && Sleep(Entry(task, agent, 4)) == 16
    ensures Posts(Entry(task, agent, 5)) == 0 && Sleep(Entry(task, agent, 5)) == 0
    ensures Backoff(1) == 2 && Backoff(2) == 4 && Backoff(3) == 8 && Backoff(4) == 16
  {
    BackoffIs(1);
    BackoffIs(2);
    BackoffIs(3);
    BackoffIs(4);
    assert SleepFrom(4) == 16;
    assert SleepFrom(3) == 24;
    assert SleepFrom(2) == 28;
  }

  // ---- One list under concurrent pushers and workers ----

  /** How an element left the list. */
  datatype Exit = PoppedBy(worker: nat) | TrimmedOff

  /** The list, the pushers that have trimmed and not yet pushed, and the history: every
      element ever pushed, and how the ones that are gone left, oldest first. */
  datatype Shared = Shared(list: seq<Item>, pushers: nat, pushed: seq<Item>, exits: seq<Exit>)

  datatype Step = TrimList | PushItem(item: Item) | PusherStops | PopItem(worker: nat)

  function Times<T>(n: nat, x: T): seq<T> {
    seq(n, i => x)
  }

  /** One Redis command. */
  function Next(s: Shared, step: Step): Shared {
    match step
    case TrimList =>
      var gone := |s.list| - |Trim(s.list)|;
      s.(list := Trim(s.list), pushers := s.pushers + 1, exits := s.exits + Times(gone, TrimmedOff))
    case PushItem(item) =>
      if s.pushers == 0 then s
      else s.(list := s.list + [item], pushers := s.pushers - 1, pushed := s.pushed + [item])
    case PusherStops =>
      if s.pushers == 0 then s else s.(pushers := s.pushers - 1)
    case PopItem(worker) =>
      if s.list == [] then s else s.(list := s.list[1..], exits := s.exits + [PoppedBy(worker)])
  }

  function After(steps: seq<Step>): Shared {
    if steps == [] then Shared([], 0, [], [])
    else Next(After(steps[..|steps| - 1]), steps[|steps| - 1])
  }

  /** If at no moment more than `k` pushers are between their trim and their push,
      length plus waiting pushers stays within 999 + k, so 1000 when pushers take turns. */
  lemma {:induction false} LengthBounded(steps: seq<Step>, k: nat)
    requires forall i | 0 <= i <= |steps| :: After(steps[..i]).pushers <= k
    ensures |After(steps).list| + After(steps).pushers <= 999 + k
    ensures k == 1 ==> |After(steps).list| <= 1000
  {
    assert steps[..|steps|] == steps;
    if steps != [] {
      var front := steps[..|steps| - 1];
      assert forall i | 0 <= i <= |front| :: front[..i] == steps[..i];
      LengthBounded(front, k);
    }
  }

  /** The list is always what was pushed, less what left from its front. */
  ghost predicate Conserved(s: Shared) {
    |s.exits| <= |s.pushed| && s.list == s.pushed[|s.exits|..]
  }

  lemma ConservedStep(s: Shared, step: Step)
    requires Conserved(s)
    ensures Conserved(Next(s, step))
    ensures s.exits <= Next(s, step).exits && s.pushed <= Next(s, step).pushed
  {
  }

  lemma {:induction false} AlwaysConserved(steps: seq<Step>)
    ensures Conserved(After(steps))
  {
    if steps != [] {
      AlwaysConserved(steps[..|steps| - 1]);
      ConservedStep(After(steps[..|steps| - 1]), steps[|steps| - 1]);
    }
  }

  /** A trim leaves the newest 999 elements, or all of a shorter list. */
  lemma TrimLeaves(s: Shared)
    ensures |Next(s, TrimList).list| == if |s.list| < 999 then |s.list| else 999
    ensures forall i | 0 <= i < |Next(s, TrimList).list| ::
              Next(s, TrimList).list[i] == s.list[|s.list| - |Next(s, TrimList).list| + i]
  {
    var q := Trim(s.list);
    assert Next(s, TrimList).list == q;
    assert q == s.list[|s.list| - |q|..];
  }

  /** A pusher that nothing interrupts does what EnqueueRetry does as a whole, and a pop takes
      the oldest element. */
  lemma PushIsWhole(s: Shared, item: Item, worker: nat)
    ensures var s' := Next(Next(s, TrimList), PushItem(item));
            && s'.list == (if |s.list| < 1000 then s.list else s.list[|s.list| - 999..]) + [item]
            && s'.pushed == s.pushed + [item] && s'.pushers == s.pushers
    ensures s.list != [] ==>
              Next(s, PopItem(worker)) == s.(list := s.list[1..], exits := s.exits + [PoppedBy(worker)])
  {
  }

  /** An element is only trimmed off while at least 999 younger ones are listed, so whatever
      was trimmed off had by then been followed by 999 more. */
  lemma {:induction false} TrimmedWhenFull(steps: seq<Step>, i: nat)
    requires i < |After(steps).exits| && After(steps).exits[i] == TrimmedOff
    ensures exists n: nat ::
              && n < |steps| && steps[n] == TrimList
              && |After(steps[..n]).exits| <= i < |After(steps[..n]).pushed| - 999
  {
    var front, before := steps[..|steps| - 1], After(steps[..|steps| - 1]);
    if i < |before.exits| {
      AlwaysConserved(front);
      ConservedStep(before, steps[|steps| - 1]);
      assert before.exits[i] == After(steps).exits[i];
      TrimmedWhenFull(front, i);
      var n: nat :| n < |front| && front[n] == TrimList
                    && |After(front[..n]).exits| <= i < |After(front[..n]).pushed| - 999;
      assert front[..n] == steps[..n] && steps[n] == TrimList;
    } else {
      AlwaysConserved(front);
      assert steps[|steps| - 1] == TrimList;
    }
  }

  function PoppedItems(pushed: seq<Item>, exits: seq<Exit>): seq<Item>
    requires |exits| <= |pushed|
  {
    if exits == [] then []
    else
      var i := |exits| - 1;
      PoppedItems(pushed, exits[..i]) + if exits[i].PoppedBy? then [pushed[i]] else []
  }

  function TrimmedItems(pushed: seq<Item>, exits: seq<Exit>): seq<Item>
    requires |exits| <= |pushed|
  {
    if exits == [] then []
    else
      var i := |exits| - 1;
      TrimmedItems(pushed, exits[..i]) + if exits[i].TrimmedOff? then [pushed[i]] else []
  }

  lemma {:induction false} ExitsPartition(pushed: seq<Item>, exits: seq<Exit>)
    requires |exits| <= |pushed|
    ensures multiset(PoppedItems(pushed, exits)) + multiset(TrimmedItems(pushed, exits)) == multiset(pushed[..|exits|])
  {
    if exits != [] {
      var i := |exits| - 1;
      assert |exits[..i]| == i;
      ExitsPartition(pushed, exits[..i]);
      var popped, trimmed := PoppedItems(pushed, exits[..i]), TrimmedItems(pushed, exits[..i]);
      assert pushed[..|exits|] == pushed[..i] + [pushed[i]];
      assert multiset(pushed[..|exits|]) == multiset(popped) + multiset(trimmed) + multiset{pushed[i]};
      if exits[i].PoppedBy? {
        assert PoppedItems(pushed, exits) == popped + [pushed[i]];
        assert TrimmedItems(pushed, exits) == trimmed + [] == trimmed;
      } else {
        assert PoppedItems(pushed, exits) == popped + [] == popped;
        assert TrimmedItems(pushed, exits) == trimmed + [pushed[i]];
      }
    }
  }

  /** Every pushed element is in exactly one place: still listed, popped once by one worker,
      or trimmed; and whatever left, left before anything younger did. */
  lemma {:induction false} NothingLostNothingTwice(steps: seq<Step>)
    ensures var s := After(steps);
            && |s.exits| <= |s.pushed| && |s.list| == |s.pushed| - |s.exits|
            && (forall i | 0 <= i < |s.list| :: s.list[i] == s.pushed[|s.exits| + i])
            && multiset(s.pushed) == multiset(s.list) + multiset(PoppedItems(s.pushed, s.exits))
                                     + multiset(TrimmedItems(s.pushed, s.exits))
  {
    AlwaysConserved(steps);
    var s := After(steps);
    ExitsPartition(s.pushed, s.exits);
    var gone := s.pushed[..|s.exits|];
    assert s.pushed == gone + s.list;
    assert multiset(s.pushed) == multiset(gone) + multiset(s.list);
  }

  /** An exit is final: later steps never change how an element left. */
  lemma {:induction false} ExitsFinal(steps: seq<Step>, more: seq<Step>)
    ensures After(steps).exits <= After(steps + more).exits && After(steps).pushed <= After(steps + more).pushed
  {
    if more == [] {
      assert steps + more == steps;
    } else {
      var front := more[..|more| - 1];
      assert (steps + more)[..|steps + more| - 1] == steps + front;
      ExitsFinal(steps, front);
      AlwaysConserved(steps + front);
      ConservedStep(After(steps + front), more[|more| - 1]);
    }
  }
}
