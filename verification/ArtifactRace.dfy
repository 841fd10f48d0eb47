/** Requests on the artifacts of one task that overlap. An upload or a delete changes the
    object store, then reads the artifact list, then writes the whole list back; a cleanup
    lists the stored keys, erases them one by one, and writes an empty list without reading
    (internal/api/artifact_handler.go, internal/db/task_repo.go). */
module ArtifactRace {
  import opened Schema
  import opened Artifacts

  datatype Change = Add | Remove

  /** A request past its first store statement; `read` is the list it has read. */
  datatype Call =
    | Update(key: Key, change: Change, read: Option<seq<Key>>)
    | Cleanup(listed: set<Key>, todo: set<Key>)

  /** A request that breaks off stays, and is not live any more. */
  datatype Request = Request(call: Call, live: bool)

  /** The list and the stored keys of the task, and the requests in flight. */
  datatype State = State(list: seq<Key>, store: set<Key>, calls: map<nat, Request>)

  datatype Step =
    | Put(c: nat, key: Key)
    | Delete(c: nat, key: Key)
    | Read(c: nat)
    | List(c: nat)
    | Erase(c: nat, key: Key)
    | Finish(c: nat)
    | Stop(c: nat)

  const INITIAL := State([], {}, map[])

  predicate Runs(s: State, c: nat) {
    c in s.calls && s.calls[c].live
  }

  /** The request is ready for its list write. */
  predicate CanFinish(s: State, c: nat) {
    Runs(s, c) && match s.calls[c].call
                  case Update(_, _, read) => read.Some?
                  case Cleanup(_, todo) => todo == {}
  }

  /** The list a request writes. */
  function Result(s: State, c: nat): seq<Key>
    requires CanFinish(s, c)
  {
    match s.calls[c].call
    case Update(key, Add, read) => read.value + [key]
    case Update(key, Remove, read) => Without(read.value, key)
    case Cleanup(_, _) => []
  }

  function With(s: State, c: nat, call: Call): map<nat, Request> {
    s.calls[c := Request(call, true)]
  }

  function Next(s: State, step: Step): State {
    match step
    case Put(c, key) =>
      if c in s.calls then s else s.(store := s.store + {key}, calls := With(s, c, Update(key, Add, None)))
    case Delete(c, key) =>
      if c in s.calls || key !in s.store then s
      else s.(store := s.store - {key}, calls := With(s, c, Update(key, Remove, None)))
    case Read(c) =>
      if Runs(s, c) && s.calls[c].call.Update? then
        s.(calls := With(s, c, s.calls[c].call.(read := Some(s.list))))
      else s
    case List(c) =>
      if c in s.calls then s else s.(calls := With(s, c, Cleanup(s.store, s.store)))
    case Erase(c, key) =>
      if Runs(s, c) && s.calls[c].call.Cleanup? && key in s.calls[c].call.todo then
        s.(store := s.store - {key}, calls := With(s, c, s.calls[c].call.(todo := s.calls[c].call.todo - {key})))
      else s
    case Finish(c) =>
      if CanFinish(s, c) then s.(list := Result(s, c), calls := s.calls - {c}) else s
    case Stop(c) =>
      if c in s.calls then s.(calls := s.calls[c := s.calls[c].(live := false)]) else s
  }

  function After(steps: seq<Step>): State {
    if steps == [] then INITIAL else Next(After(steps[..|steps| - 1]), steps[|steps| - 1])
  }

  // ---- One request without interruption does what the whole call does ----

  lemma UploadIsWhole(s: State, c: nat, key: Key)
    requires c !in s.calls
    ensures Next(Next(Next(s, Put(c, key)), Read(c)), Finish(c))
         == s.(list := s.list + [key], store := s.store + {key})
  {
    assert Next(Next(s, Put(c, key)), Read(c)).calls - {c} == s.calls;
  }

  lemma DeleteIsWhole(s: State, c: nat, key: Key)
    requires c !in s.calls && key in s.store
    ensures Next(Next(Next(s, Delete(c, key)), Read(c)), Finish(c))
         == s.(list := Without(s.list, key), store := s.store - {key})
  {
    assert Next(Next(s, Delete(c, key)), Read(c)).calls - {c} == s.calls;
  }

  function EraseEach(s: State, c: nat, keys: seq<Key>): State
    decreases |keys|
  {
    if keys == [] then s else EraseEach(Next(s, Erase(c, keys[0])), c, keys[1..])
  }

  lemma {:induction false} EraseLoop(s: State, c: nat, listed: set<Key>, keys: seq<Key>)
    requires c in s.calls && s.calls[c] == Request(Cleanup(listed, Elements(keys)), true) && NoDuplicates(keys)
    ensures EraseEach(s, c, keys)
         == s.(store := s.store - Elements(keys), calls := s.calls[c := Request(Cleanup(listed, {}), true)])
    decreases |keys|
  {
    assert keys == [] ==> Elements(keys) == {};
    if keys != [] {
      var rest := Elements(keys) - {keys[0]};
      assert keys == [keys[0]] + keys[1..];
      assert Elements(keys[1..]) == rest;
      EraseLoop(Next(s, Erase(c, keys[0])), c, listed, keys[1..]);
      assert s.store - {keys[0]} - rest == s.store - Elements(keys);
    }
  }

  lemma CleanupIsWhole(s: State, c: nat, keys: seq<Key>)
    requires c !in s.calls && NoDuplicates(keys) && Elements(keys) == s.store
    ensures Next(EraseEach(Next(s, List(c)), c, keys), Finish(c)) == s.(list := [], store := {})
  {
    EraseLoop(Next(s, List(c)), c, s.store, keys);
    assert Next(s, List(c)).calls - {c} == s.calls;
  }

  predicate Touches(call: Call, key: Key) {
    match call
    case Update(k, _, _) => key == k
    case Cleanup(listed, _) => key in listed
  }

  predicate InFlight(s: State, key: Key) {
    exists c :: c in s.calls && Touches(s.calls[c].call, key)
  }

  predicate OtherInFlight(s: State, c: nat, key: Key) {
    exists d :: d in s.calls && d != c && Touches(s.calls[d].call, key)
  }

  predicate LiveInFlight(s: State, key: Key) {
    exists c :: c in s.calls && s.calls[c].live && Touches(s.calls[c].call, key)
  }

  /** List and store agree on every key that no request is in flight on. */
  ghost predicate Agree(s: State) {
    forall k | !InFlight(s, k) :: k in s.list <==> k in s.store
  }

  // ---- The rule ----

  /** The request relies on the list: it has read it, or it is a cleanup. */
  predicate Relies(s: State, c: nat) {
    Runs(s, c) && (s.calls[c].call.Cleanup? || s.calls[c].call.read.Some?)
  }

  /** No request starts on a key that a live request is in flight on, and none writes the list
      while another live request relies on it. */
  ghost predicate InTurn(s: State, step: Step) {
    match step
    case Put(c, key) => c !in s.calls ==> !LiveInFlight(s, key)
    case Delete(c, key) => c !in s.calls && key in s.store ==> !LiveInFlight(s, key)
    case List(c) => c !in s.calls ==> forall k | k in s.store :: !LiveInFlight(s, k)
    case Finish(c) => CanFinish(s, c) ==> forall d | Relies(s, d) :: d == c
    case _ => true
  }

  ghost predicate AllInTurn(steps: seq<Step>) {
    steps != [] ==>
      AllInTurn(steps[..|steps| - 1]) && InTurn(After(steps[..|steps| - 1]), steps[|steps| - 1])
  }

  // ---- The invariant ----

  /** What a live request knows is still so: a list it has read, the state of its own key, and
      for a cleanup that what is stored is still to be erased or came with another request. */
  ghost predicate Knows(s: State, c: nat)
    requires c in s.calls
  {
    match s.calls[c].call
    case Update(key, change, read) =>
      (read.Some? ==> read.value == s.list) && (key in s.store <==> change.Add?)
    case Cleanup(listed, todo) =>
      todo <= listed && forall k | k in s.store :: k in todo || OtherInFlight(s, c, k)
  }

  ghost predicate Apart(s: State) {
    forall c, d, k | Runs(s, c) && Runs(s, d) && Touches(s.calls[c].call, k) && Touches(s.calls[d].call, k) :: c == d
  }

  ghost predicate Good(s: State) {
    Agree(s) && Apart(s) && forall c | Runs(s, c) :: Knows(s, c)
  }

  lemma ResultIs(s: State, c: nat, k: Key)
    requires CanFinish(s, c)
    ensures k in Result(s, c) <==>
              match s.calls[c].call
              case Update(key, change, read) => if k == key then change.Add? else k in read.value
              case Cleanup(_, _) => false
  {
    if s.calls[c].call.Update? {
      WithoutIs(s.calls[c].call.read.value, s.calls[c].call.key, k);
    }
  }

  /** The list a request writes is right about every key no other request is in flight on. */
  lemma ResultFits(s: State, c: nat, k: Key)
    requires Good(s) && CanFinish(s, c) && !OtherInFlight(s, c, k)
    ensures k in Result(s, c) <==> k in s.store
  {
    ResultIs(s, c, k);
    assert Knows(s, c);
    if !Touches(s.calls[c].call, k) {
      assert !InFlight(s, k);
    }
  }

  lemma FinishFlight(s: State, c: nat, k: Key)
    requires CanFinish(s, c)
    ensures InFlight(Next(s, Finish(c)), k) <==> OtherInFlight(s, c, k)
  {
    var s' := Next(s, Finish(c));
    if d :| d in s.calls && d != c && Touches(s.calls[d].call, k) {
      assert d in s'.calls && s'.calls[d] == s.calls[d];
    }
    if d :| d in s'.calls && Touches(s'.calls[d].call, k) {
      assert d in s.calls && d != c && s'.calls[d] == s.calls[d];
    }
  }

  lemma FinishAgrees(s: State, c: nat)
    requires Good(s) && CanFinish(s, c)
    ensures Agree(Next(s, Finish(c)))
  {
    forall k | !InFlight(Next(s, Finish(c)), k) ensures k in Result(s, c) <==> k in s.store {
      FinishFlight(s, c, k);
      ResultFits(s, c, k);
    }
  }

  lemma FinishKeeps(s: State, c: nat)
    requires Good(s) && InTurn(s, Finish(c))
    ensures Good(Next(s, Finish(c)))
  {
    var s' := Next(s, Finish(c));
    if CanFinish(s, c) {
      FinishAgrees(s, c);
      forall d | Runs(s', d) ensures Knows(s', d) {
        assert Runs(s, d) && Knows(s, d) && !Relies(s, d);
      }
      assert forall d | Runs(s', d) :: Runs(s, d) && s'.calls[d] == s.calls[d];
    }
  }

  /** What is in flight stays so until its request finishes. */
  lemma FlightStays(s: State, step: Step, c: nat, k: Key)
    requires !step.Finish?
    ensures InFlight(s, k) ==> InFlight(Next(s, step), k)
    ensures OtherInFlight(s, c, k) ==> OtherInFlight(Next(s, step), c, k)
  {
    forall d | d in s.calls && Touches(s.calls[d].call, k)
      ensures d in Next(s, step).calls && Touches(Next(s, step).calls[d].call, k)
    {
    }
  }

  lemma OthersAgree(s: State, step: Step)
    requires Good(s) && !step.Finish?
    ensures Agree(Next(s, step))
  {
    var s' := Next(s, step);
    forall k | !InFlight(s', k) ensures k in s'.list <==> k in s'.store {
      FlightStays(s, step, step.c, k);
      assert step.c in s'.calls ==> !Touches(s'.calls[step.c].call, k);
      if step.Erase? && s' != s {
        assert Runs(s, step.c) && Knows(s, step.c);
      }
    }
  }

  lemma OthersApart(s: State, step: Step)
    requires Good(s) && InTurn(s, step) && !step.Finish?
    ensures Apart(Next(s, step))
  {
    var s' := Next(s, step);
    forall c, d, k | Runs(s', c) && Runs(s', d) && Touches(s'.calls[c].call, k) && Touches(s'.calls[d].call, k)
      ensures c == d
    {
      assert Runs(s, c) && Touches(s.calls[c].call, k) ==> LiveInFlight(s, k);
      assert Runs(s, d) && Touches(s.calls[d].call, k) ==> LiveInFlight(s, k);
    }
  }

  lemma OthersKnow(s: State, step: Step, d: nat)
    requires Good(s) && InTurn(s, step) && !step.Finish? && Runs(Next(s, step), d)
    ensures Knows(Next(s, step), d)
  {
    var s' := Next(s, step);
    forall k ensures OtherInFlight(s, d, k) ==> OtherInFlight(s', d, k) {
      FlightStays(s, step, d, k);
    }
    if d in s.calls {
      assert Runs(s, d) && Knows(s, d);
      assert step.Put? && s' != s ==> Touches(s'.calls[step.c].call, step.key) && OtherInFlight(s', d, step.key);
      assert forall k | Touches(s.calls[d].call, k) :: LiveInFlight(s, k);
      if step.Erase? && s' != s && d != step.c {
        assert Runs(s, step.c) && Knows(s, step.c) && Touches(s.calls[step.c].call, step.key);
      }
    }
  }

  lemma TurnKeeps(s: State, step: Step)
    requires Good(s) && InTurn(s, step)
    ensures Good(Next(s, step))
  {
    if step.Finish? {
      FinishKeeps(s, step.c);
    } else {
      OthersAgree(s, step);
      OthersApart(s, step);
      forall d | Runs(Next(s, step), d) ensures Knows(Next(s, step), d) {
        OthersKnow(s, step, d);
      }
    }
  }

  /** Requests that overlap keep list and store in agreement, on all keys not in flight and at
      every moment, as long as no request starts on a key in flight and none writes the list
      while another that is not broken off relies on it. */
  lemma {:induction false} TurnsAgree(steps: seq<Step>)
    requires forall i | 0 <= i < |steps| ::
               var s := After(steps[..i]);
               match steps[i]
               case Put(c, key) => c in s.calls || forall d | Runs(s, d) :: !Touches(s.calls[d].call, key)
               case Delete(c, key) =>
                 c in s.calls || key !in s.store || forall d | Runs(s, d) :: !Touches(s.calls[d].call, key)
               case List(c) =>
                 c in s.calls || forall d, k | Runs(s, d) && k in s.store :: !Touches(s.calls[d].call, k)
               case Finish(c) =>
                 !CanFinish(s, c) || forall d | Runs(s, d) && d != c ::
                                       s.calls[d].call.Update? && s.calls[d].call.read.None?
               case _ => true
    ensures forall i | 0 <= i <= |steps| :: Agree(After(steps[..i]))
  {
    forall i | 0 <= i <= |steps| ensures Agree(After(steps[..i])) {
      InTurnAllAlong(steps, i);
      AgreeInTurn(steps[..i]);
    }
  }

  lemma {:induction false} InTurnAllAlong(steps: seq<Step>, n: nat)
    requires n <= |steps| && forall i | 0 <= i < |steps| :: InTurn(After(steps[..i]), steps[i])
    ensures AllInTurn(steps[..n])
  {
    if n > 0 {
      InTurnAllAlong(steps, n - 1);
      assert steps[..n][..n - 1] == steps[..n - 1];
    }
  }

  lemma {:induction false} AgreeInTurn(steps: seq<Step>)
    requires AllInTurn(steps)
    ensures Good(After(steps))
  {
    if steps != [] {
      AgreeInTurn(steps[..|steps| - 1]);
      TurnKeeps(After(steps[..|steps| - 1]), steps[|steps| - 1]);
    }
  }

  // ---- And otherwise ----

  /** Seen from two requests that finish one after the other. */
  lemma FlightAfterBoth(s: State, c: nat, d: nat, k: Key)
    requires c != d && CanFinish(s, c) && CanFinish(s, d)
    ensures CanFinish(Next(s, Finish(c)), d) && Result(Next(s, Finish(c)), d) == Result(s, d)
    ensures OtherInFlight(s, c, k)
       <==> Touches(s.calls[d].call, k) || OtherInFlight(Next(s, Finish(c)), d, k)
  {
    var s1 := Next(s, Finish(c));
    if e :| e in s.calls && e != c && Touches(s.calls[e].call, k) {
      assert e == d || (e in s1.calls && s1.calls[e] == s.calls[e]);
    }
    if e :| e in s1.calls && e != d && Touches(s1.calls[e].call, k) {
      assert e in s.calls && e != c && s1.calls[e] == s.calls[e];
    }
  }

  /** Two requests rely on the list and finish one after the other: on a key that only these
      two may touch, list and store agree afterwards if and only if the second one touches the
      key or the two write the same about it. */
  lemma BothFit(s: State, c: nat, d: nat, k: Key)
    requires Good(s) && c != d && CanFinish(s, c) && CanFinish(s, d)
    requires !OtherInFlight(Next(s, Finish(c)), d, k)
    ensures (k in Result(s, d) <==> k in s.store)
       <==> Touches(s.calls[d].call, k) || (k in Result(s, d) <==> k in Result(s, c))
  {
    FlightAfterBoth(s, c, d, k);
    if Touches(s.calls[d].call, k) {
      ResultIs(s, d, k);
      assert Knows(s, d);
      forall e | e in s.calls && e != d ensures !Touches(s.calls[e].call, k) {
        assert e != c ==> e in Next(s, Finish(c)).calls && Next(s, Finish(c)).calls[e] == s.calls[e];
      }
    } else {
      ResultFits(s, c, k);
    }
  }

  /** Two requests that both rely on the list finish one after the other: they keep the
      agreement if and only if they write the same about every key that the second one does
      not touch and no third one is in flight on. */
  lemma OverlapExactly(s: State, c: nat, d: nat)
    requires Good(s) && c != d && CanFinish(s, c) && CanFinish(s, d)
    ensures Agree(Next(Next(s, Finish(c)), Finish(d))) <==>
              forall k | !Touches(s.calls[d].call, k) && !OtherInFlight(Next(s, Finish(c)), d, k) ::
                k in Result(s, d) <==> k in Result(s, c)
  {
    var s1 := Next(s, Finish(c));
    var s2 := Next(s1, Finish(d));
    forall k
      ensures CanFinish(s1, d) && Result(s1, d) == Result(s, d) && (InFlight(s2, k) <==> OtherInFlight(s1, d, k))
    {
      FlightAfterBoth(s, c, d, k);
      FinishFlight(s1, d, k);
    }
    forall k | !OtherInFlight(s1, d, k)
      ensures (k in s2.list <==> k in s2.store)
         <==> Touches(s.calls[d].call, k) || (k in Result(s, d) <==> k in Result(s, c))
    {
      BothFit(s, c, d, k);
    }
  }

  /** Of two uploads or deletes, that is: if and only if the first did not change which keys
      are listed. */
  lemma UpdatesOverlapExactly(s: State, c: nat, d: nat)
    requires Good(s) && c != d && CanFinish(s, c) && CanFinish(s, d)
    requires s.calls[c].call.Update? && s.calls[d].call.Update? && !OtherInFlight(s, c, s.calls[c].call.key)
    ensures Agree(Next(Next(s, Finish(c)), Finish(d))) <==>
              (s.calls[c].call.key in s.list <==> s.calls[c].call.change.Add?)
  {
    var key := s.calls[c].call.key;
    OverlapExactly(s, c, d);
    FlightAfterBoth(s, c, d, key);
    assert Knows(s, c) && Knows(s, d);
    forall k | !Touches(s.calls[d].call, k)
      ensures (k in Result(s, d) <==> k in s.list)
           && (k in Result(s, c) <==> if k == key then s.calls[c].call.change.Add? else k in s.list)
    {
      ResultIs(s, c, k);
      ResultIs(s, d, k);
    }
  }

  /** An upload that finishes between the listing of a cleanup and its list write ends stored
      and not listed. */
  lemma CleanupLosesUpload(s: State, c: nat, d: nat)
    requires Good(s) && c != d && CanFinish(s, c) && CanFinish(s, d)
    requires s.calls[c].call.Update? && s.calls[c].call.change.Add? && s.calls[d].call.Cleanup?
    requires !OtherInFlight(s, c, s.calls[c].call.key)
    ensures var s' := Next(Next(s, Finish(c)), Finish(d));
            s.calls[c].call.key in s'.store && s'.list == [] && !Agree(s')
  {
    var key := s.calls[c].call.key;
    FlightAfterBoth(s, c, d, key);
    ResultIs(s, c, key);
    OverlapExactly(s, c, d);
    assert Knows(s, c);
  }

  lemma OneMoreStep(steps: seq<Step>, step: Step)
    ensures After(steps + [step]) == Next(After(steps), step)
    ensures AllInTurn(steps + [step]) <==> AllInTurn(steps) && InTurn(After(steps), step)
  {
    assert (steps + [step])[..|steps|] == steps;
  }

  function Adding(key: Key, read: Option<seq<Key>>): Request {
    Request(Update(key, Add, read), true)
  }

  lemma PutLeads(s: State, c: nat, key: Key)
    requires c !in s.calls && !LiveInFlight(s, key)
    ensures InTurn(s, Put(c, key))
    ensures Next(s, Put(c, key)) == State(s.list, s.store + {key}, s.calls[c := Adding(key, None)])
  {
  }

  lemma BothPut(a: Key, b: Key) returns (steps: seq<Step>)
    requires a != b
    ensures AllInTurn(steps) && After(steps) == State([], {a, b}, map[0 := Adding(a, None), 1 := Adding(b, None)])
  {
    var one := [] + [Put(0, a)];
    OneMoreStep([], Put(0, a));
    PutLeads(INITIAL, 0, a);
    OneMoreStep(one, Put(1, b));
    PutLeads(After(one), 1, b);
    steps := one + [Put(1, b)];
    assert {} + {a} + {b} == {a, b};
  }

  lemma BothRead(a: Key, b: Key) returns (steps: seq<Step>)
    requires a != b
    ensures AllInTurn(steps)
    ensures After(steps) == State([], {a, b}, map[0 := Adding(a, Some([])), 1 := Adding(b, Some([]))])
  {
    var put := BothPut(a, b);
    OneMoreStep(put, Read(0));
    var one := put + [Read(0)];
    assert After(one) == State([], {a, b}, map[0 := Adding(a, Some([])), 1 := Adding(b, None)]);
    OneMoreStep(one, Read(1));
    steps := one + [Read(1)];
  }

  /** Two uploads that both read the list before either writes it back. The first write alone
      is out of turn, and at the end the first key is stored and not listed. */
  lemma OverlappingUploadsLoseOne(a: Key, b: Key) returns (steps: seq<Step>)
    requires a != b
    ensures AllInTurn(steps)
    ensures !InTurn(After(steps), Finish(0)) && InTurn(Next(After(steps), Finish(0)), Finish(1))
    ensures var s := Next(Next(After(steps), Finish(0)), Finish(1));
            s.calls == map[] && a in s.store && a !in s.list && b in s.store && b in s.list && !Agree(s)
  {
    steps := BothRead(a, b);
    AgreeInTurn(steps);
    assert Relies(After(steps), 1);
    UpdatesOverlapExactly(After(steps), 0, 1);
  }

  /** A cleanup that lists an empty store while an upload is about to begin: up to the two list
      writes everything is in turn, the upload's write alone is not, and at the end its key is
      stored and not listed. */
  lemma {:induction false} CleanupRunLosesUpload(key: Key) returns (steps: seq<Step>)
    ensures AllInTurn(steps)
    ensures !InTurn(After(steps), Finish(0)) && InTurn(Next(After(steps), Finish(0)), Finish(1))
    ensures var s := Next(Next(After(steps), Finish(0)), Finish(1));
            s.calls == map[] && key in s.store && s.list == [] && !Agree(s)
  {
    var one := [] + [List(1)];
    OneMoreStep([], List(1));
    assert After(one) == State([], {}, map[1 := Request(Cleanup({}, {}), true)]);
    var two := one + [Put(0, key)];
    OneMoreStep(one, Put(0, key));
    PutLeads(After(one), 0, key);
    steps := two + [Read(0)];
    OneMoreStep(two, Read(0));
    assert Relies(After(steps), 1);
    AgreeInTurn(steps);
    CleanupLosesUpload(After(steps), 0, 1);
  }
}
