/** One retry queue under several dispatches and several workers at once: the timer starts a
    worker on every non-empty list every five seconds, whether or not the last one is done
    (internal/dispatcher/dispatcher.go). */
module RetryRace {
  import opened Schema
  import opened RetryQueue

  /** An entry of the list, with the dispatch that caused it. */
  datatype Ticket = Ticket(dispatch: nat, attempt: nat)

  /** What a call holds: an entry it is about to push, or one it has popped. */
  datatype Work = Pushing(ticket: Ticket) | Retrying(ticket: Ticket)

  /** The list, the calls in flight, and for each dispatch its POSTs and seconds so far. */
  datatype State = State(list: seq<Ticket>, work: map<nat, Work>, posts: map<nat, nat>, slept: map<nat, nat>)

  datatype Step =
    | Dispatch(c: nat, d: nat, fate: Fate)
    | TrimList(c: nat)
    | Push(c: nat)
    | Pop(c: nat)
    | Retry(c: nat, fate: Fate)
    | Stop(c: nat)

  const INITIAL := State([], map[], map[], map[])

  function Posted(fate: Fate): nat {
    if fate.Dropped? then 0 else 1
  }

  /** A first POST; when it is refused the call goes on to push. */
  function ApplyDispatch(s: State, c: nat, d: nat, fate: Fate): State {
    if c in s.work || d in s.posts then s
    else
      s.(posts := s.posts[d := Posted(fate)], slept := s.slept[d := 0],
         work := if fate.Refused? then s.work[c := Pushing(Ticket(d, 1))] else s.work)
  }

  /** A popped entry: given up on, or sent again after its backoff. */
  function ApplyRetry(s: State, c: nat, fate: Fate): State {
    if c !in s.work || s.work[c].Pushing? || s.work[c].ticket.dispatch !in s.posts
       || s.work[c].ticket.dispatch !in s.slept then s
    else
      var d, attempt := s.work[c].ticket.dispatch, s.work[c].ticket.attempt;
      if attempt >= MAX_RETRIES then s.(work := s.work - {c})
      else
        s.(posts := s.posts[d := s.posts[d] + Posted(fate)],
           slept := s.slept[d := s.slept[d] + Backoff(attempt)],
           work := if fate.Refused? then s.work[c := Pushing(Ticket(d, attempt + 1))] else s.work - {c})
  }

  function Next(s: State, step: Step): State {
    match step
    case Dispatch(c, d, fate) => ApplyDispatch(s, c, d, fate)
    case TrimList(c) => if c in s.work && s.work[c].Pushing? then s.(list := Trim(s.list)) else s
    case Push(c) =>
      if c in s.work && s.work[c].Pushing? then s.(list := s.list + [s.work[c].ticket], work := s.work - {c}) else s
    case Pop(c) =>
      if c in s.work || s.list == [] then s
      else s.(list := s.list[1..], work := s.work[c := Retrying(s.list[0])])
    case Retry(c, fate) => ApplyRetry(s, c, fate)
    case Stop(c) => s.(work := s.work - {c})
  }

  function After(steps: seq<Step>): State {
    if steps == [] then INITIAL else Next(After(steps[..|steps| - 1]), steps[|steps| - 1])
  }

  /** No dispatch has two entries, wherever they are. */
  ghost predicate OneEach(s: State) {
    && (forall i, j | 0 <= i < j < |s.list| :: s.list[i].dispatch != s.list[j].dispatch)
    && (forall c, e | c in s.work && e in s.work && c != e ::
          s.work[c].ticket.dispatch != s.work[e].ticket.dispatch)
    && (forall i, c | 0 <= i < |s.list| && c in s.work :: s.list[i].dispatch != s.work[c].ticket.dispatch)
  }

  /** The attempt of an entry covers the POSTs of its dispatch, and what it can still sleep
      fits thirty seconds with what the dispatch has slept. */
  predicate Covers(s: State, ticket: Ticket) {
    && ticket.dispatch in s.posts && ticket.dispatch in s.slept
    && 1 <= ticket.attempt <= MAX_RETRIES && s.posts[ticket.dispatch] <= ticket.attempt
    && s.slept[ticket.dispatch] + SleepFrom(ticket.attempt) <= 30
  }

  ghost predicate Within(s: State) {
    && s.posts.Keys == s.slept.Keys
    && (forall d | d in s.posts :: s.posts[d] <= MAX_RETRIES && s.slept[d] <= 30)
    && (forall i | 0 <= i < |s.list| :: Covers(s, s.list[i]))
    && (forall c | c in s.work :: Covers(s, s.work[c].ticket))
  }

  lemma DispatchKeeps(s: State, c: nat, d: nat, fate: Fate)
    requires OneEach(s) && Within(s)
    ensures OneEach(ApplyDispatch(s, c, d, fate)) && Within(ApplyDispatch(s, c, d, fate))
  {
    DispatchBudget("", "");
  }

  lemma RetryKeeps(s: State, c: nat, fate: Fate)
    requires OneEach(s) && Within(s)
    ensures OneEach(ApplyRetry(s, c, fate)) && Within(ApplyRetry(s, c, fate))
  {
    if c in s.work {
      assert Covers(s, s.work[c].ticket);
    }
  }

  lemma PushKeeps(s: State, c: nat)
    requires OneEach(s) && Within(s)
    ensures OneEach(Next(s, Push(c))) && Within(Next(s, Push(c)))
  {
  }

  lemma PopKeeps(s: State, c: nat)
    requires OneEach(s) && Within(s)
    ensures OneEach(Next(s, Pop(c))) && Within(Next(s, Pop(c)))
  {
  }

  lemma StepKeeps(s: State, step: Step)
    requires OneEach(s) && Within(s)
    ensures OneEach(Next(s, step)) && Within(Next(s, step))
  {
    match step
    case Dispatch(c, d, fate) => DispatchKeeps(s, c, d, fate);
    case Retry(c, fate) => RetryKeeps(s, c, fate);
    case Push(c) => PushKeeps(s, c);
    case Pop(c) => PopKeeps(s, c);
    case _ =>
  }

  /** However dispatches, pushers and workers interleave on one list, and wherever calls stop:
      no dispatch makes more than five POSTs or waits more than thirty seconds, and at every
      moment it has at most one entry, listed or in hand. */
  lemma {:induction false} DispatchBounded(steps: seq<Step>)
    ensures OneEach(After(steps)) && Within(After(steps))
    ensures forall d | d in After(steps).posts ::
              After(steps).posts[d] <= 5 && d in After(steps).slept && After(steps).slept[d] <= 30
  {
    if steps != [] {
      DispatchBounded(steps[..|steps| - 1]);
      StepKeeps(After(steps[..|steps| - 1]), steps[|steps| - 1]);
    }
  }

  // ---- The statements of one call, one after the other ----

  /** A refused dispatch that nothing interrupts makes one POST and leaves its entry at the end
      of the list, of which it keeps at most the newest 999. */
  lemma DispatchIsWhole(s: State, c: nat, d: nat)
    requires c !in s.work && d !in s.posts
    ensures var s' := Next(Next(Next(s, Dispatch(c, d, Refused)), Step.TrimList(c)), Push(c));
            && s'.list == (if |s.list| < 1000 then s.list else s.list[|s.list| - 999..]) + [Ticket(d, 1)]
            && s'.work == s.work && s'.posts == s.posts[d := 1] && s'.slept == s.slept[d := 0]
  {
    var s1 := Next(s, Dispatch(c, d, Refused));
    assert s1.work - {c} == s.work;
  }

  /** A worker that pops an entry and is not interrupted: an exhausted entry is dropped; any
      other waits and is sent, and a refused one goes back with its next attempt. */
  lemma RetryIsWhole(s: State, c: nat, fate: Fate)
    requires c !in s.work && s.list != []
    requires s.list[0].dispatch in s.posts && s.list[0].dispatch in s.slept
    ensures var e := s.list[0];
            var popped := Next(Next(s, Pop(c)), Retry(c, fate));
            if e.attempt >= 5 then popped == s.(list := s.list[1..])
            else
              && popped.list == s.list[1..]
              && popped.posts == s.posts[e.dispatch := s.posts[e.dispatch] + if fate.Dropped? then 0 else 1]
              && popped.slept == s.slept[e.dispatch := s.slept[e.dispatch] + Backoff(e.attempt)]
              && popped.work
                 == if fate.Refused? then s.work[c := Pushing(Ticket(e.dispatch, e.attempt + 1))] else s.work
  {
    var s1 := Next(s, Pop(c));
    assert s1.work - {c} == s.work;
  }
}
