/** The event log and the cursor protocol of the pollers: server half in
    internal/db/task_event_repo.go and internal/db/agent_repo.go, client half in
    scripts/acb-agent-poller.py and scripts/acb-orchestrator-poller.py.
    Event ids are taken to increase in the order in which rows become visible. */
module Cursor {
  import opened Schema

  datatype Row = Row(id: nat, agent: AgentName)

  /** The filter of the query; the orchestrator sends no agent. */
  predicate Matches(row: Row, agent: AgentName) {
    agent == "" || row.agent == agent || row.agent == ""
  }

  const PAGE_LIMIT := 50

  function EffectiveLimit(limit: int): (n: nat)
    ensures 1 <= n <= 200
  {
    if limit <= 0 || limit > 200 then PAGE_LIMIT else limit
  }

  predicate Increasing(rows: seq<Row>) {
    && (forall i | 0 <= i < |rows| :: rows[i].id > 0)
    && (forall i, j | 0 <= i < j < |rows| :: rows[i].id < rows[j].id)
  }

  /** The ids the poller has not passed yet, oldest first. */
  function Backlog(rows: seq<Row>, after: nat, agent: AgentName): seq<nat> {
    if rows == [] then []
    else
      var front, last := rows[..|rows| - 1], rows[|rows| - 1];
      Backlog(front, after, agent) + if last.id > after && Matches(last, agent) then [last.id] else []
  }

  /** ORDER BY id DESC LIMIT n: the newest ids first, at most n of them. */
  function Page(rows: seq<Row>, after: nat, agent: AgentName, n: nat): seq<nat> {
    if rows == [] || n == 0 then []
    else
      var front, last := rows[..|rows| - 1], rows[|rows| - 1];
      if last.id > after && Matches(last, agent) then [last.id] + Page(front, after, agent, n - 1)
      else Page(front, after, agent, n)
  }

  function Reversed(s: seq<nat>): seq<nat> {
    if s == [] then [] else Reversed(s[1..]) + [s[0]]
  }

  /** What a page leaves out. */
  function LeftOut(rows: seq<Row>, after: nat, agent: AgentName, n: nat): seq<nat> {
    var backlog := Backlog(rows, after, agent);
    if |backlog| > n then backlog[..|backlog| - n] else []
  }

  /** A page is the newest end of the backlog, read backwards; what it leaves out is exactly
      the oldest backlog-minus-limit ids. */
  lemma {:induction false} PageIsNewest(rows: seq<Row>, after: nat, agent: AgentName, n: nat)
    ensures Backlog(rows, after, agent) == LeftOut(rows, after, agent, n) + Reversed(Page(rows, after, agent, n))
    ensures |Page(rows, after, agent, n)| <= n
    ensures |Backlog(rows, after, agent)| <= n ==> LeftOut(rows, after, agent, n) == []
  {
    if n == 0 {
      assert LeftOut(rows, after, agent, n) == Backlog(rows, after, agent);
    } else if rows != [] {
      var front, last := rows[..|rows| - 1], rows[|rows| - 1];
      if last.id > after && Matches(last, agent) {
        PageIsNewest(front, after, agent, n - 1);
        var page := Page(front, after, agent, n - 1);
        assert ([last.id] + page)[1..] == page;
        assert Reversed([last.id] + page) == Reversed(page) + [last.id];
        assert LeftOut(rows, after, agent, n) == LeftOut(front, after, agent, n - 1);
      } else {
        PageIsNewest(front, after, agent, n);
        assert Backlog(rows, after, agent) == Backlog(front, after, agent);
      }
    }
  }

  /** The rows newer than the id that are past the cursor and pass the filter. */
  function Newer(rows: seq<Row>, after: nat, agent: AgentName, id: nat): set<nat> {
    set j | 0 <= j < |rows| && rows[j].id > id && rows[j].id > after && Matches(rows[j], agent)
  }

  lemma NewerOneMore(rows: seq<Row>, after: nat, agent: AgentName, id: nat)
    requires rows != []
    ensures var front, last := rows[..|rows| - 1], rows[|rows| - 1];
            |Newer(rows, after, agent, id)|
            == |Newer(front, after, agent, id)|
               + if last.id > id && last.id > after && Matches(last, agent) then 1 else 0
  {
    var front, last := rows[..|rows| - 1], rows[|rows| - 1];
    assert Newer(rows, after, agent, id)
        == Newer(front, after, agent, id)
           + if last.id > id && last.id > after && Matches(last, agent) then {|front|} else {};
  }

  /** An id is on the page exactly when a row that qualifies has it and fewer than the limit
      of newer rows qualify. */
  lemma {:induction false} OnPage(rows: seq<Row>, after: nat, agent: AgentName, n: nat, id: nat)
    requires Increasing(rows)
    ensures id in Page(rows, after, agent, n) <==>
              && (exists i :: 0 <= i < |rows| && rows[i].id == id && id > after && Matches(rows[i], agent))
              && |Newer(rows, after, agent, id)| < n
  {
    if rows != [] && n > 0 {
      var front, last := rows[..|rows| - 1], rows[|rows| - 1];
      var taken := last.id > after && Matches(last, agent);
      NewerOneMore(rows, after, agent, id);
      OnPage(front, after, agent, if taken then n - 1 else n, id);
      assert rows == front + [last];
      if id == last.id {
        assert Newer(rows, after, agent, id) == {};
        assert forall i | 0 <= i < |front| :: rows[i].id < id;
      }
    }
  }

  lemma PageHolds(rows: seq<Row>, after: nat, agent: AgentName, n: nat)
    requires Increasing(rows)
    ensures forall id: nat :: id in Page(rows, after, agent, n) <==>
              && id > after
              && (exists i :: 0 <= i < |rows| && rows[i].id == id
                              && (agent == "" || rows[i].agent == agent || rows[i].agent == ""))
              && |set j | 0 <= j < |rows| && rows[j].id > id && rows[j].id > after
                          && (agent == "" || rows[j].agent == agent || rows[j].agent == "")| < n
  {
    forall id: nat
      ensures id in Page(rows, after, agent, n) <==>
              && id > after
              && (exists i :: 0 <= i < |rows| && rows[i].id == id
                              && (agent == "" || rows[i].agent == agent || rows[i].agent == ""))
              && |set j | 0 <= j < |rows| && rows[j].id > id && rows[j].id > after
                          && (agent == "" || rows[j].agent == agent || rows[j].agent == "")| < n
    {
      OnPage(rows, after, agent, n, id);
      assert Newer(rows, after, agent, id)
          == set j | 0 <= j < |rows| && rows[j].id > id && rows[j].id > after
                     && (agent == "" || rows[j].agent == agent || rows[j].agent == "");
    }
  }

  /** And the page is in descending order. */
  lemma {:induction false} PageDescends(rows: seq<Row>, after: nat, agent: AgentName, n: nat)
    requires Increasing(rows)
    ensures forall i, j | 0 <= i < j < |Page(rows, after, agent, n)| ::
              Page(rows, after, agent, n)[i] > Page(rows, after, agent, n)[j]
  {
    if rows != [] && n > 0 {
      var front, last := rows[..|rows| - 1], rows[|rows| - 1];
      if last.id > after && Matches(last, agent) {
        PageDescends(front, after, agent, n - 1);
        var rest := Page(front, after, agent, n - 1);
        forall k | 0 <= k < |rest| ensures rest[k] < last.id {
          OnPage(front, after, agent, n - 1, rest[k]);
        }
      } else {
        PageDescends(front, after, agent, n);
      }
    }
  }

  /** Some row has this id and passes the filter. */
  predicate IsMatch(rows: seq<Row>, agent: AgentName, id: nat) {
    exists i :: 0 <= i < |rows| && rows[i].id == id && Matches(rows[i], agent)
  }

  predicate Ascending(s: seq<nat>) {
    forall i, j | 0 <= i < j < |s| :: s[i] < s[j]
  }

  lemma {:induction false} BacklogIsRest(rows: seq<Row>, after: nat, agent: AgentName)
    requires Increasing(rows)
    ensures Ascending(Backlog(rows, after, agent))
    ensures forall id: nat :: id in Backlog(rows, after, agent) <==> IsMatch(rows, agent, id) && id > after
  {
    if rows != [] {
      var front, last := rows[..|rows| - 1], rows[|rows| - 1];
      BacklogIsRest(front, after, agent);
      forall id: nat
        ensures IsMatch(rows, agent, id) <==> IsMatch(front, agent, id) || (id == last.id && Matches(last, agent))
      {
        if IsMatch(front, agent, id) {
          var i :| 0 <= i < |front| && front[i].id == id && Matches(front[i], agent);
          assert rows[i] == front[i];
        }
        if id == last.id && Matches(last, agent) {
          assert rows[|rows| - 1].id == id;
        }
        if IsMatch(rows, agent, id) {
          var i :| 0 <= i < |rows| && rows[i].id == id && Matches(rows[i], agent);
          assert i == |rows| - 1 || front[i] == rows[i];
        }
      }
      var older := Backlog(front, after, agent);
      forall i | 0 <= i < |older| ensures older[i] < last.id {
        assert older[i] in older && IsMatch(front, agent, older[i]);
      }
    }
  }

  lemma {:induction false} ReversedIn(s: seq<nat>, x: nat)
    ensures |Reversed(s)| == |s| && (x in Reversed(s) <==> x in s)
  {
    if s != [] {
      ReversedIn(s[1..], x);
      assert s == [s[0]] + s[1..];
    }
  }

  lemma {:induction false} ReversedAt(s: seq<nat>, k: nat)
    requires k < |s|
    ensures |Reversed(s)| == |s| && Reversed(s)[k] == s[|s| - 1 - k]
  {
    if |s| > 1 {
      ReversedAt(s[1..], if k < |s| - 1 then k else 0);
    }
  }

  // ---- The protocol, statement by statement ----

  /** Where the poller is: between polls, holding a cursor, holding a page, or having saved
      the new cursor and not yet printed the page. */
  datatype Poll = Idle | HasCursor(after: nat) | HasPage(page: seq<nat>) | Saved(page: seq<nat>)

  /** The log, the stored cursor, the poller, and the history of what it reported and passed over. */
  datatype State = State(rows: seq<Row>, cursor: nat, poll: Poll, reported: seq<nat>, skipped: seq<nat>)

  datatype Step = Insert(row: Row) | ReadCursor | Fetch | Save | Print

  const INITIAL := State([], 0, Idle, [], [])

  predicate CanInsert(s: State, row: Row) {
    row.id > 0 && forall i | 0 <= i < |s.rows| :: s.rows[i].id < row.id
  }

  function Largest(s: seq<nat>): (m: nat)
    requires s != []
    ensures m in s && forall x | x in s :: x <= m
  {
    if |s| == 1 then s[0]
    else
      var m := Largest(s[1..]);
      assert s == [s[0]] + s[1..];
      if s[0] < m then m else s[0]
  }

  function Next(s: State, agent: AgentName, step: Step): State {
    match step
    case Insert(row) => if CanInsert(s, row) then s.(rows := s.rows + [row]) else s
    case ReadCursor => if s.poll.Idle? then s.(poll := HasCursor(s.cursor)) else s
    case Fetch =>
      if s.poll.HasCursor? then
        s.(poll := HasPage(Page(s.rows, s.poll.after, agent, PAGE_LIMIT)),
           skipped := s.skipped + LeftOut(s.rows, s.poll.after, agent, PAGE_LIMIT))
      else s
    case Save =>
      if s.poll.HasPage? then
        s.(cursor := if s.poll.page == [] then s.cursor else Largest(s.poll.page), poll := Saved(s.poll.page))
      else s
    case Print => if s.poll.Saved? then s.(reported := s.reported + s.poll.page, poll := Idle) else s
  }

  function After(steps: seq<Step>, agent: AgentName): State {
    if steps == [] then INITIAL
    else Next(After(steps[..|steps| - 1], agent), agent, steps[|steps| - 1])
  }

  /** The page the poller is holding. */
  function InHand(s: State): seq<nat> {
    match s.poll
    case HasPage(page) => page
    case Saved(page) => page
    case _ => []
  }

  /** The four steps of a poll without an insert between them do what one run of the script
      does: report the page, pass over what it leaves out, and move to its largest id. */
  lemma PollIsWhole(s: State, agent: AgentName)
    requires s.poll.Idle?
    ensures var page := Page(s.rows, s.cursor, agent, PAGE_LIMIT);
            Next(Next(Next(Next(s, agent, ReadCursor), agent, Fetch), agent, Save), agent, Print)
            == s.(cursor := if page == [] then s.cursor else Largest(page),
                  reported := s.reported + page,
                  skipped := s.skipped + LeftOut(s.rows, s.cursor, agent, PAGE_LIMIT))
  {
  }

  /** How far the poller has come, counting the page it is holding. */
  function Frontier(s: State): nat {
    if s.poll.HasPage? && s.poll.page != [] then Largest(s.poll.page) else s.cursor
  }

  /** Everything reported, in hand or passed over. */
  function Handled(s: State): seq<nat> {
    s.reported + InHand(s) + s.skipped
  }

  ghost predicate Inv(s: State, agent: AgentName) {
    && Increasing(s.rows)
    && (s.poll.HasCursor? ==> s.poll.after == s.cursor)
    && s.cursor <= Frontier(s)
    && (Frontier(s) > 0 ==> exists i :: 0 <= i < |s.rows| && s.rows[i].id == Frontier(s))
    && NoDuplicates(Handled(s))
    && (forall id: nat :: id in Handled(s) <==> IsMatch(s.rows, agent, id) && id <= Frontier(s))
  }

  lemma {:induction false} InsertKeeps(s: State, agent: AgentName, row: Row)
    requires Inv(s, agent) && CanInsert(s, row)
    ensures Inv(Next(s, agent, Insert(row)), agent)
  {
    var s' := Next(s, agent, Insert(row));
    if Frontier(s) > 0 {
      var i :| 0 <= i < |s.rows| && s.rows[i].id == Frontier(s);
      assert s'.rows[i].id == Frontier(s');
    }
    forall id: nat
      ensures IsMatch(s'.rows, agent, id) && id <= Frontier(s')
         <==> IsMatch(s.rows, agent, id) && id <= Frontier(s)
    {
      if IsMatch(s.rows, agent, id) {
        var i :| 0 <= i < |s.rows| && s.rows[i].id == id && Matches(s.rows[i], agent);
        assert s'.rows[i] == s.rows[i];
      }
      if IsMatch(s'.rows, agent, id) && id <= Frontier(s') {
        var i :| 0 <= i < |s'.rows| && s'.rows[i].id == id && Matches(s'.rows[i], agent);
        assert i < |s.rows| && s'.rows[i] == s.rows[i];
      }
    }
    assert Handled(s') == Handled(s);
  }

  lemma {:induction false} ConcatNoDuplicates(x: seq<nat>, y: seq<nat>)
    requires NoDuplicates(x) && NoDuplicates(y) && forall e | e in x :: e !in y
    ensures NoDuplicates(x + y)
  {
    forall i, j | 0 <= i < j < |x + y| ensures (x + y)[i] != (x + y)[j] {
      if i < |x| <= j {
        assert x[i] in x && y[j - |x|] in y;
      }
    }
  }

  lemma {:induction false} PartsNoDuplicates(x: seq<nat>, y: seq<nat>)
    requires NoDuplicates(x + y)
    ensures NoDuplicates(x) && NoDuplicates(y) && forall e | e in x :: e !in y
  {
    forall i, j | 0 <= i < j < |x| ensures x[i] != x[j] {
      assert (x + y)[i] != (x + y)[j];
    }
    forall i, j | 0 <= i < j < |y| ensures y[i] != y[j] {
      assert (x + y)[|x| + i] != (x + y)[|x| + j];
    }
    forall e | e in x ensures e !in y {
      var i :| 0 <= i < |x| && x[i] == e;
      forall j | 0 <= j < |y| ensures y[j] != e {
        assert (x + y)[i] != (x + y)[|x| + j];
      }
    }
  }

  lemma {:induction false} PageNoDuplicates(backlog: seq<nat>, left: seq<nat>, page: seq<nat>)
    requires Ascending(backlog) && backlog == left + Reversed(page)
    ensures NoDuplicates(page) && NoDuplicates(left) && forall e | e in page :: e in backlog && e !in left
    ensures forall e | e in left :: e in backlog
  {
    PartsNoDuplicates(left, Reversed(page));
    forall i, j | 0 <= i < j < |page| ensures page[i] != page[j] {
      ReversedAt(page, |page| - 1 - i);
      ReversedAt(page, |page| - 1 - j);
    }
    forall e | e in page ensures e in backlog && e !in left {
      ReversedIn(page, e);
    }
  }

  /** Adding a page to the report and the rest of its backlog to the skipped ones. */
  lemma {:induction false} Shuffle(a: seq<nat>, page: seq<nat>, skipped: seq<nat>, left: seq<nat>, backlog: seq<nat>)
    requires NoDuplicates(a + skipped) && Ascending(backlog) && backlog == left + Reversed(page)
    requires forall x, y | x in a + skipped && y in backlog :: x < y
    ensures NoDuplicates(a + page + (skipped + left))
    ensures forall x: nat :: x in a + page + (skipped + left) <==> x in a + skipped || x in backlog
  {
    forall x: nat ensures x in a + page + (skipped + left) <==> x in a + skipped || x in backlog {
      ReversedIn(page, x);
    }
    PartsNoDuplicates(a, skipped);
    PageNoDuplicates(backlog, left, page);
    assert forall x | x in a || x in skipped :: x in a + skipped;
    ConcatNoDuplicates(a, page);
    ConcatNoDuplicates(skipped, left);
    ConcatNoDuplicates(a + page, skipped + left);
  }

  /** A fetch handles exactly its backlog. */
  lemma {:induction false} FetchHandles(s: State, agent: AgentName)
    requires Inv(s, agent) && s.poll.HasCursor?
    ensures var s' := Next(s, agent, Fetch);
            var backlog := Backlog(s.rows, s.cursor, agent);
            && NoDuplicates(Handled(s'))
            && forall x: nat :: x in Handled(s') <==> x in Handled(s) || x in backlog
  {
    var s' := Next(s, agent, Fetch);
    var backlog, page := Backlog(s.rows, s.cursor, agent), s'.poll.page;
    var left := LeftOut(s.rows, s.cursor, agent, PAGE_LIMIT);
    BacklogIsRest(s.rows, s.cursor, agent);
    PageIsNewest(s.rows, s.cursor, agent, PAGE_LIMIT);
    assert Handled(s) == s.reported + s.skipped;
    forall x: nat, y: nat | x in s.reported + s.skipped && y in backlog ensures x < y {
      assert x in Handled(s);
    }
    Shuffle(s.reported, page, s.skipped, left, backlog);
    assert Handled(s') == s.reported + page + (s.skipped + left);
  }

  /** And moves the frontier to the newest matching row, if there is a new one. */
  lemma {:induction false} FetchFrontier(s: State, agent: AgentName)
    requires Inv(s, agent) && s.poll.HasCursor?
    ensures var end := Frontier(Next(s, agent, Fetch));
            s.cursor <= end && (end != s.cursor ==> IsMatch(s.rows, agent, end))
    ensures var s' := Next(s, agent, Fetch);
            forall x: nat :: IsMatch(s.rows, agent, x) && x <= Frontier(s')
                 <==> IsMatch(s.rows, agent, x) && (x <= s.cursor || x in Backlog(s.rows, s.cursor, agent))
  {
    var s' := Next(s, agent, Fetch);
    var backlog, page := Backlog(s.rows, s.cursor, agent), s'.poll.page;
    BacklogIsRest(s.rows, s.cursor, agent);
    PageIsNewest(s.rows, s.cursor, agent, PAGE_LIMIT);
    ReversedIn(page, 0);
    if page == [] {
      assert |backlog| == |LeftOut(s.rows, s.cursor, agent, PAGE_LIMIT)|;
      assert backlog == [];
    } else {
      FrontierOfPage(backlog, LeftOut(s.rows, s.cursor, agent, PAGE_LIMIT), page);
    }
  }

  lemma {:induction false} FetchKeeps(s: State, agent: AgentName)
    requires Inv(s, agent) && s.poll.HasCursor?
    ensures Inv(Next(s, agent, Fetch), agent)
  {
    var s' := Next(s, agent, Fetch);
    BacklogIsRest(s.rows, s.cursor, agent);
    FetchHandles(s, agent);
    FetchFrontier(s, agent);
    forall x: nat ensures x in Handled(s') <==> IsMatch(s'.rows, agent, x) && x <= Frontier(s') {
    }
  }

  /** The largest id of a page is the newest of the backlog. */
  lemma {:induction false} FrontierOfPage(backlog: seq<nat>, left: seq<nat>, page: seq<nat>)
    requires page != [] && Ascending(backlog) && backlog == left + Reversed(page)
    ensures Largest(page) in backlog && forall x | x in backlog :: x <= Largest(page)
  {
    ReversedIn(page, Largest(page));
    ReversedAt(page, |page| - 1);
    assert backlog[|backlog| - 1] == page[0];
  }

  lemma {:induction false} StepKeeps(s: State, agent: AgentName, step: Step)
    requires Inv(s, agent)
    ensures Inv(Next(s, agent, step), agent)
    ensures s.cursor <= Next(s, agent, step).cursor
    ensures s.reported <= Next(s, agent, step).reported && s.skipped <= Next(s, agent, step).skipped
  {
    match step
    case Insert(row) => if CanInsert(s, row) { InsertKeeps(s, agent, row); }
    case Fetch => if s.poll.HasCursor? { FetchKeeps(s, agent); }
    case Print => assert s.poll.Saved? ==> Handled(Next(s, agent, Print)) == Handled(s);
    case _ => assert Handled(Next(s, agent, step)) == Handled(s);
  }

  lemma {:induction false} ReachableInv(steps: seq<Step>, agent: AgentName)
    ensures Inv(After(steps, agent), agent)
  {
    if steps != [] {
      ReachableInv(steps[..|steps| - 1], agent);
      StepKeeps(After(steps[..|steps| - 1], agent), agent, steps[|steps| - 1]);
    }
  }

  // ---- Main results ----

  /** The stored cursor never goes back, and what was reported stays reported. */
  lemma {:induction false} CursorNeverDecreases(steps: seq<Step>, more: seq<Step>, agent: AgentName)
    ensures After(steps, agent).cursor <= After(steps + more, agent).cursor
    ensures After(steps, agent).reported <= After(steps + more, agent).reported
  {
    if more == [] {
      assert steps + more == steps;
    } else {
      var front := more[..|more| - 1];
      assert (steps + more)[..|steps + more| - 1] == steps + front;
      CursorNeverDecreases(steps, front, agent);
      ReachableInv(steps + front, agent);
      StepKeeps(After(steps + front, agent), agent, more[|more| - 1]);
    }
  }

  /** Over any interleaving of inserts and polls no event is reported twice, only matching
      events are reported, and between polls every matching event up to the cursor was
      either reported once or passed over once. */
  lemma {:induction false} EachEventOnce(steps: seq<Step>, agent: AgentName, id: nat)
    ensures NoDuplicates(After(steps, agent).reported) && NoDuplicates(After(steps, agent).skipped)
    ensures !(id in After(steps, agent).reported && id in After(steps, agent).skipped)
    ensures id in After(steps, agent).reported ==> IsMatch(After(steps, agent).rows, agent, id)
    ensures var s := After(steps, agent);
            s.poll.Idle? ==>
              (id in s.reported || id in s.skipped <==> IsMatch(s.rows, agent, id) && id <= s.cursor)
  {
    ReachableInv(steps, agent);
    var s := After(steps, agent);
    PartsNoDuplicates(s.reported + InHand(s), s.skipped);
    PartsNoDuplicates(s.reported, InHand(s));
    assert id in Handled(s) <==> id in s.reported || id in InHand(s) || id in s.skipped;
  }

  /** Every backlog a fetch met fits the page. */
  predicate BacklogsFit(steps: seq<Step>, agent: AgentName) {
    steps != [] ==>
      && BacklogsFit(steps[..|steps| - 1], agent)
      && var s := After(steps[..|steps| - 1], agent);
         steps[|steps| - 1].Fetch? && s.poll.HasCursor? ==>
           |Backlog(s.rows, s.poll.after, agent)| <= PAGE_LIMIT
  }

  lemma {:induction false} NothingSkipped(steps: seq<Step>, agent: AgentName)
    requires BacklogsFit(steps, agent)
    ensures After(steps, agent).skipped == []
  {
    if steps != [] {
      NothingSkipped(steps[..|steps| - 1], agent);
    }
  }

  lemma {:induction false} AllFit(steps: seq<Step>, agent: AgentName)
    requires forall i | 0 <= i < |steps| && steps[i].Fetch? && After(steps[..i], agent).poll.HasCursor? ::
               |Backlog(After(steps[..i], agent).rows, After(steps[..i], agent).poll.after, agent)| <= 50
    ensures BacklogsFit(steps, agent)
  {
    if steps != [] {
      var front := steps[..|steps| - 1];
      assert forall i | 0 <= i < |front| :: front[i] == steps[i] && front[..i] == steps[..i];
      AllFit(front, agent);
    }
  }

  /** If no backlog outgrows the page, between polls exactly the matching events up to the
      cursor were reported, each once. */
  lemma {:induction false} AllReportedWhenBacklogsFit(steps: seq<Step>, agent: AgentName, id: nat)
    requires After(steps, agent).poll.Idle?
    requires forall i | 0 <= i < |steps| && steps[i].Fetch? && After(steps[..i], agent).poll.HasCursor? ::
               |Backlog(After(steps[..i], agent).rows, After(steps[..i], agent).poll.after, agent)| <= 50
    ensures var s := After(steps, agent);
            id in s.reported <==> IsMatch(s.rows, agent, id) && id <= s.cursor
    ensures NoDuplicates(After(steps, agent).reported)
  {
    AllFit(steps, agent);
    NothingSkipped(steps, agent);
    EachEventOnce(steps, agent, id);
  }

  function Excess(s: State, agent: AgentName): nat {
    var backlog := Backlog(s.rows, s.cursor, agent);
    if |backlog| > PAGE_LIMIT then |backlog| - PAGE_LIMIT else 0
  }

  /** The oldest part of the backlog, as many events as it has above the limit, and the rest. */
  function Oldest(s: State, agent: AgentName): seq<nat> {
    Backlog(s.rows, s.cursor, agent)[..Excess(s, agent)]
  }

  function Newest(s: State, agent: AgentName): seq<nat> {
    Backlog(s.rows, s.cursor, agent)[Excess(s, agent)..]
  }

  /** A fetch that meets a longer backlog passes over exactly its oldest part, for good. */
  lemma {:induction false} OldestSkippedForGood(steps: seq<Step>, more: seq<Step>, agent: AgentName, id: nat)
    requires After(steps, agent).poll.HasCursor?
    ensures After(steps + [Fetch], agent).skipped == After(steps, agent).skipped + Oldest(After(steps, agent), agent)
    ensures id in Oldest(After(steps, agent), agent) ==> id !in After(steps + [Fetch] + more, agent).reported
    ensures id in Newest(After(steps, agent), agent) <==> id in InHand(After(steps + [Fetch], agent))
  {
    var s := After(steps, agent);
    ReachableInv(steps, agent);
    assert (steps + [Fetch])[..|steps|] == steps;
    var s' := After(steps + [Fetch], agent);
    assert s' == Next(s, agent, Fetch);
    var backlog := Backlog(s.rows, s.cursor, agent);
    var excess := if |backlog| > PAGE_LIMIT then |backlog| - PAGE_LIMIT else 0;
    PageIsNewest(s.rows, s.cursor, agent, PAGE_LIMIT);
    assert backlog[..excess] == LeftOut(s.rows, s.cursor, agent, PAGE_LIMIT);
    assert backlog[excess..] == Reversed(s'.poll.page);
    ReversedIn(s'.poll.page, id);
    if id in backlog[..excess] {
      SkippedGrows(steps + [Fetch], more, agent);
      assert id in s'.skipped;
      InPrefix(s'.skipped, After(steps + [Fetch] + more, agent).skipped, id);
      EachEventOnce(steps + [Fetch] + more, agent, id);
    }
  }

  lemma InPrefix(p: seq<nat>, q: seq<nat>, x: nat)
    requires p <= q && x in p
    ensures x in q
  {
    var i :| 0 <= i < |p| && p[i] == x;
    assert q[i] == x;
  }

  lemma {:induction false} SkippedGrows(steps: seq<Step>, more: seq<Step>, agent: AgentName)
    ensures After(steps, agent).skipped <= After(steps + more, agent).skipped
  {
    if more == [] {
      assert steps + more == steps;
    } else {
      var front := more[..|more| - 1];
      assert (steps + more)[..|steps + more| - 1] == steps + front;
      SkippedGrows(steps, front, agent);
      ReachableInv(steps + front, agent);
      StepKeeps(After(steps + front, agent), agent, more[|more| - 1]);
    }
  }

  // ---- Whole calls ----

  /** The event table and the cursor column of the agents. */
  class Server {
    var rows: seq<Row>
    var nextId: nat
    var cursors: map<AgentName, nat>

    ghost predicate Valid()
      reads this
    {
      Increasing(rows) && nextId > 0 && forall i | 0 <= i < |rows| :: rows[i].id < nextId
    }

    constructor ()
      ensures Valid() && rows == [] && cursors == map[]
    {
      rows, nextId, cursors := [], 1, map[];
    }

    method InsertEvent(agent: AgentName)
      requires Valid()
      modifies this`rows, this`nextId
      ensures Valid() && rows == old(rows) + [Row(old(nextId), agent)] && nextId == old(nextId) + 1
    {
      rows, nextId := rows + [Row(nextId, agent)], nextId + 1;
    }

    /** The id-cursor query, newest first: an id is in the answer exactly when it is past the
        cursor, its row is the filter's own or nobody's or there is no filter, and fewer than
        the limit of newer rows are such. */
    method ListSince(agent: AgentName, limit: int, afterId: nat) returns (events: seq<nat>)
      ensures events == Page(rows, afterId, agent, EffectiveLimit(limit))
      ensures Valid() ==> forall i, j | 0 <= i < j < |events| :: events[i] > events[j]
      ensures Valid() ==>
                forall id: nat :: id in events <==>
                  && id > afterId
                  && (exists i :: 0 <= i < |rows| && rows[i].id == id
                                  && (agent == "" || rows[i].agent == agent || rows[i].agent == ""))
                  && |set j | 0 <= j < |rows| && rows[j].id > id && rows[j].id > afterId
                              && (agent == "" || rows[j].agent == agent || rows[j].agent == "")|
                     < if limit <= 0 || limit > 200 then 50 else limit
    {
      events := NewestFirst(agent, EffectiveLimit(limit), afterId);
      if Valid() {
        PageDescends(rows, afterId, agent, EffectiveLimit(limit));
        PageHolds(rows, afterId, agent, EffectiveLimit(limit));
      }
    }

    /** What the database does for ORDER BY id DESC LIMIT n. */
    method NewestFirst(agent: AgentName, n: nat, afterId: nat) returns (events: seq<nat>)
      ensures events == Page(rows, afterId, agent, n)
    {
      events := [];
      var i := |rows|;
      assert rows[..i] == rows;
      while i > 0 && |events| < n
        invariant 0 <= i <= |rows| && |events| <= n
        invariant Page(rows, afterId, agent, n) == events + Page(rows[..i], afterId, agent, n - |events|)
      {
        i := i - 1;
        assert rows[..i + 1][..i] == rows[..i];
        if rows[i].id > afterId && Matches(rows[i], agent) {
          events := events + [rows[i].id];
        }
      }
    }

    /** Absent for a name that is not registered. */
    method GetLastEventID(name: AgentName) returns (id: Option<nat>)
      ensures id == if name in cursors then Some(cursors[name]) else None
    {
      return if name in cursors then Some(cursors[name]) else None;
    }

    method UpdateLastEventID(name: AgentName, id: nat) returns (ok: bool)
      modifies this`cursors
      ensures ok <==> name in old(cursors)
      ensures cursors == if ok then old(cursors)[name := id] else old(cursors)
    {
      if name !in cursors {
        return false;
      }
      cursors := cursors[name := id];
      return true;
    }
  }

  method MaxId(events: seq<nat>) returns (maxId: nat)
    requires events != []
    ensures maxId in events && forall x | x in events :: x <= maxId
  {
    maxId := events[0];
    for i := 1 to |events|
      invariant maxId in events[..i] && forall x | x in events[..i] :: x <= maxId
    {
      assert events[..i + 1] == events[..i] + [events[i]];
      if events[i] > maxId {
        maxId := events[i];
      }
    }
    assert events[..|events|] == events;
  }

  /** One run of a poller script. A failed cursor read counts as zero and a failed save is
      not noticed, so for an unregistered name every run reports the newest page again. */
  method PollOnce(server: Server, name: AgentName, filter: AgentName) returns (lines: seq<nat>)
    requires server.Valid()
    modifies server`cursors
    ensures var afterId := if name in old(server.cursors) then old(server.cursors)[name] else 0;
            lines == Page(server.rows, afterId, filter, PAGE_LIMIT)
    ensures forall i, j | 0 <= i < j < |lines| :: lines[i] > lines[j]
    ensures var afterId := if name in old(server.cursors) then old(server.cursors)[name] else 0;
            forall id: nat :: id in lines <==>
              && id > afterId
              && (exists i :: 0 <= i < |server.rows| && server.rows[i].id == id
                              && (filter == "" || server.rows[i].agent == filter || server.rows[i].agent == ""))
              && |set j | 0 <= j < |server.rows| && server.rows[j].id > id && server.rows[j].id > afterId
                          && (filter == "" || server.rows[j].agent == filter || server.rows[j].agent == "")| < 50
    ensures server.cursors == if name in old(server.cursors) && lines != []
                              then old(server.cursors)[name := lines[0]] else old(server.cursors)
  {
    var stored := server.GetLastEventID(name);
    var afterId := match stored case Some(id) => id case None => 0;
    var events := server.ListSince(filter, PAGE_LIMIT, afterId);
    lines := [];
    for i := 0 to |events|
      invariant lines == events[..i]
    {
      lines := lines + [events[i]];
    }
    assert events[..|events|] == events;
    if |events| > 0 {
      var maxId := MaxId(events);
      assert events[0] in events;
      var saved := server.UpdateLastEventID(name, maxId);
    }
  }

  // ---- Two pollers under one name ----

  /** The log and the cursor that two pollers share, with the first poller in `s`. */
  datatype Duo = Duo(s: State, other: Poll)

  datatype Turn = First(step: Step) | Second(step: Step)

  function NextTurn(d: Duo, agent: AgentName, turn: Turn): Duo {
    match turn
    case First(step) => d.(s := Next(d.s, agent, step))
    case Second(step) =>
      var s' := Next(d.s.(poll := d.other), agent, step);
      Duo(s'.(poll := d.s.poll), s'.poll)
  }

  function AfterTurns(turns: seq<Turn>, agent: AgentName): Duo {
    if turns == [] then Duo(INITIAL, Idle)
    else NextTurn(AfterTurns(turns[..|turns| - 1], agent), agent, turns[|turns| - 1])
  }

  lemma OneMoreTurn(turns: seq<Turn>, agent: AgentName, turn: Turn)
    ensures AfterTurns(turns + [turn], agent) == NextTurn(AfterTurns(turns, agent), agent, turn)
  {
    assert (turns + [turn])[..|turns|] == turns;
  }

  /** The second poller polls from start to end and meets a short, non-empty backlog. */
  lemma {:induction false} SecondPolls(turns: seq<Turn>, agent: AgentName, page: seq<nat>) returns (turns': seq<Turn>)
    requires AfterTurns(turns, agent).other.Idle? && page != []
    requires page == Page(AfterTurns(turns, agent).s.rows, AfterTurns(turns, agent).s.cursor, agent, PAGE_LIMIT)
    ensures var s, s' := AfterTurns(turns, agent).s, AfterTurns(turns', agent).s;
            s' == s.(cursor := Largest(page), reported := s.reported + page, skipped := s'.skipped)
    ensures AfterTurns(turns', agent).other.Idle?
    ensures turns <= turns'
  {
    OneMoreTurn(turns, agent, Second(ReadCursor));
    var one := turns + [Second(ReadCursor)];
    OneMoreTurn(one, agent, Second(Fetch));
    var two := one + [Second(Fetch)];
    OneMoreTurn(two, agent, Second(Save));
    var three := two + [Second(Save)];
    OneMoreTurn(three, agent, Second(Print));
    turns' := three + [Second(Print)];
  }

  lemma TwoRows(agent: AgentName)
    ensures Page([Row(1, "")], 0, agent, PAGE_LIMIT) == [1]
    ensures Page([Row(1, "")] + [Row(2, "")], 1, agent, PAGE_LIMIT) == [2]
  {
    var one, two := [Row(1, "")], [Row(1, "")] + [Row(2, "")];
    assert one[..0] == [] && two[..1] == one;
    assert Page(one, 1, agent, PAGE_LIMIT - 1) == [];
  }

  /** The first poller has fetched the only event there is. */
  lemma {:induction false} FirstFetches(agent: AgentName) returns (turns: seq<Turn>)
    ensures var s := AfterTurns(turns, agent).s;
            s == State([Row(1, "")], 0, HasPage([1]), [], s.skipped)
    ensures AfterTurns(turns, agent).other.Idle?
  {
    TwoRows(agent);
    OneMoreTurn([], agent, First(Insert(Row(1, ""))));
    var one := [] + [First(Insert(Row(1, "")))];
    OneMoreTurn(one, agent, First(ReadCursor));
    var two := one + [First(ReadCursor)];
    OneMoreTurn(two, agent, First(Fetch));
    turns := two + [First(Fetch)];
  }

  /** Why there must be one poller per name: of two that share a cursor, the first reads the
      cursor and fetches, the second polls around a second event, then the first saves. The
      stored cursor goes back, and an event is reported twice. */
  lemma {:induction false} TwoPollersInterfere(agent: AgentName) returns (early: seq<Turn>, late: seq<Turn>)
    ensures early <= late
    ensures AfterTurns(late, agent).s.cursor < AfterTurns(early, agent).s.cursor
    ensures !NoDuplicates(AfterTurns(late, agent).s.reported)
  {
    TwoRows(agent);
    var start := FirstFetches(agent);
    var mid := SecondPolls(start, agent, [1]);
    OneMoreTurn(mid, agent, First(Insert(Row(2, ""))));
    early := SecondPolls(mid + [First(Insert(Row(2, "")))], agent, [2]);
    OneMoreTurn(early, agent, First(Save));
    var saved := early + [First(Save)];
    OneMoreTurn(saved, agent, First(Print));
    late := saved + [First(Print)];
    var reported := AfterTurns(late, agent).s.reported;
    assert reported == [1, 2, 1];
    assert reported[0] == reported[2];
  }
}
