/** Keeping the object store and the artifact lists of the tasks in step
    (internal/api/artifact_handler.go, internal/db/task_repo.go, internal/rustfs/client.go).
    Each request changes the store first and the list second, with nothing around the two. */
module Artifacts {
  import opened Schema

  type Key = string

  datatype Reply = Ok | BadRequest | Missing | Disabled | ServerError

  /** Where a request breaks off, and whether the statement it breaks off at took effect. */
  datatype Fault = NoFault | AtStore(applied: bool) | AtList(applied: bool)

  predicate NoSlash(id: TaskId) {
    '/' !in id
  }

  /** The key lies under the prefix of the task. */
  predicate Under(t: TaskId, k: Key) {
    t + "/" <= k
  }

  /** Prefixes of different tasks do not overlap, because task ids have no slash. */
  lemma OneOwner(t: TaskId, u: TaskId, k: Key)
    requires '/' !in t && '/' !in u && t + "/" <= k && u + "/" <= k
    ensures t == u
  {
    NoLonger(t, u, k);
    NoLonger(u, t, k);
    assert t == (t + "/")[..|t|] == k[..|t|];
    assert u == (u + "/")[..|u|] == k[..|u|];
  }

  lemma NoLonger(t: TaskId, u: TaskId, k: Key)
    requires NoSlash(u) && Under(t, k) && Under(u, k)
    ensures |u| <= |t|
  {
    assert k[|t|] == (t + "/")[|t|] == '/';
    assert u == (u + "/")[..|u|] == k[..|u|];
    assert forall i | 0 <= i < |u| :: u[i] == k[i];
  }

  function Without(list: seq<Key>, key: Key): seq<Key> {
    if list == [] then []
    else Without(list[..|list| - 1], key) + if list[|list| - 1] != key then [list[|list| - 1]] else []
  }

  lemma {:induction false} WithoutIs(list: seq<Key>, key: Key, k: Key)
    ensures k in Without(list, key) <==> k in list && k != key
  {
    if list != [] {
      WithoutIs(list[..|list| - 1], key, k);
      assert list == list[..|list| - 1] + [list[|list| - 1]];
    }
  }

  function StoredUnder(store: set<Key>, t: TaskId): set<Key> {
    set k | k in store && Under(t, k)
  }

  function Outside(keys: set<Key>, t: TaskId): set<Key> {
    set k | k in keys && !Under(t, k)
  }

  /** Every listed key is under the prefix of its task, and lists and store agree on every key
      of every task, but for the keys in `except`. */
  ghost predicate Agreed(lists: map<TaskId, seq<Key>>, store: set<Key>, except: set<Key>) {
    && (forall t | t in lists :: forall k | k in lists[t] :: Under(t, k))
    && (forall t, k | t in lists && Under(t, k) && k !in except :: k in lists[t] <==> k in store)
  }

  ghost predicate AllSlashFree(lists: map<TaskId, seq<Key>>) {
    forall t | t in lists :: NoSlash(t)
  }

  lemma CleanedAgrees(lists: map<TaskId, seq<Key>>, store: set<Key>, t: TaskId, except: set<Key>)
    requires t in lists && Agreed(lists, store, except)
    ensures var rest := Outside(except, t);
            && (Agreed(lists[t := []], store - StoredUnder(store, t), rest) <==>
                  forall u, k | u in lists && u != t && k in lists[u] :: !Under(t, k))
            && (AllSlashFree(lists) ==> Agreed(lists[t := []], store - StoredUnder(store, t), rest))
    ensures Agreed(lists[t := []], store - StoredUnder(store, t), except + StoredUnder(store, t))
  {
    var lists', store' := lists[t := []], store - StoredUnder(store, t);
    var rest := Outside(except, t);
    if Agreed(lists', store', rest) {
      forall u, k | u in lists && u != t && k in lists[u] ensures !Under(t, k) {
        assert u in lists' && lists'[u] == lists[u] && Under(u, k);
      }
    }
    if AllSlashFree(lists) {
      forall u, k | u in lists && u != t && k in lists[u] ensures !Under(t, k) {
        if Under(t, k) {
          OneOwner(t, u, k);
        }
      }
    }
  }

  lemma PartlyCleanedAgrees(lists: map<TaskId, seq<Key>>, store: set<Key>, store': set<Key>, t: TaskId,
                            except: set<Key>)
    requires t in lists && store - StoredUnder(store, t) <= store' <= store
    ensures Agreed(lists, store, except) ==> Agreed(lists, store', except + StoredUnder(store, t))
    ensures Agreed(lists, store, except) && store' == store - StoredUnder(store, t) ==>
              Agreed(lists[t := []], store', except + StoredUnder(store, t))
  {
  }

  function Delisted(lists: map<TaskId, seq<Key>>, t: TaskId, key: Key): map<TaskId, seq<Key>>
    requires t in lists
  {
    lists[t := Without(lists[t], key)]
  }

  /** A key that left the store and one list. */
  lemma DeletedAgrees(lists: map<TaskId, seq<Key>>, store: set<Key>, t: TaskId, key: Key, except: set<Key>)
    requires t in lists && Agreed(lists, store, except)
    ensures Agreed(Delisted(lists, t, key), store - {key}, except - {key})
       <==> forall u | u in lists && u != t :: key !in lists[u]
    ensures Under(t, key) && AllSlashFree(lists) ==> Agreed(Delisted(lists, t, key), store - {key}, except - {key})
    ensures Agreed(Delisted(lists, t, key), store - {key}, except + {key})
    ensures Agreed(lists, store - {key}, except + {key})
  {
    ForgetOne(lists[t], key);
    var lists', store' := Delisted(lists, t, key), store - {key};
    forall u, k | u in lists && k in lists[u] ensures Under(u, k) {
    }
    if Agreed(lists', store', except - {key}) {
      forall u | u in lists && u != t ensures key !in lists[u] {
        assert u in lists' && lists'[u] == lists[u];
      }
    }
    if Under(t, key) && AllSlashFree(lists) {
      forall u | u in lists && u != t ensures key !in lists[u] {
        if Under(u, key) {
          OneOwner(t, u, key);
        }
      }
    }
  }

  class Storage {
    /** The artifact list of each task, and the keys in the object store. */
    var lists: map<TaskId, seq<Key>>
    var store: set<Key>
    const enabled: bool

    constructor (enabled: bool)
      ensures lists == map[] && store == {} && this.enabled == enabled
      ensures Agree()
    {
      lists, store := map[], {};
      this.enabled := enabled;
    }

    ghost predicate SlashFree()
      reads this`lists
    {
      AllSlashFree(lists)
    }

    ghost predicate AgreeBut(except: set<Key>)
      reads this`lists, this`store
    {
      Agreed(lists, store, except)
    }

    ghost predicate Agree()
      reads this`lists, this`store
    {
      AgreeBut({})
    }

    /** The list is read, extended in memory and written back. */
    method AddArtifact(t: TaskId, key: Key) returns (ok: bool)
      modifies this`lists
      ensures ok <==> t in old(lists)
      ensures lists == if ok then old(lists)[t := old(lists)[t] + [key]] else old(lists)
    {
      if t !in lists {
        return false;
      }
      var list := lists[t];
      list := list + [key];
      lists := lists[t := list];
      return true;
    }

    /** `kept` are the places of the entries that stay, in the order in which they stood. */
    method RemoveArtifact(t: TaskId, key: Key) returns (ok: bool, ghost kept: seq<nat>)
      modifies this`lists
      ensures ok <==> t in old(lists)
      ensures lists == if ok then old(lists)[t := Without(old(lists)[t], key)] else old(lists)
      ensures ok ==> |lists[t]| == |kept| && forall i, j | 0 <= i < j < |kept| :: kept[i] < kept[j]
      ensures ok ==> forall i | 0 <= i < |kept| :: kept[i] < |old(lists)[t]| && lists[t][i] == old(lists)[t][kept[i]]
      ensures ok ==> forall j: nat | j < |old(lists)[t]| :: j in kept <==> old(lists)[t][j] != key
    {
      if t !in lists {
        return false, [];
      }
      var list := lists[t];
      var filtered: seq<Key> := [];
      kept := [];
      for i := 0 to |list|
        invariant filtered == Without(list[..i], key) && |filtered| == |kept|
        invariant forall k | 0 <= k < |kept| :: kept[k] < i && filtered[k] == list[kept[k]]
        invariant forall k, l | 0 <= k < l < |kept| :: kept[k] < kept[l]
        invariant forall j: nat | j < i :: j in kept <==> list[j] != key
      {
        assert list[..i + 1][..i] == list[..i];
        if list[i] != key {
          filtered := filtered + [list[i]];
          kept := kept + [i];
        }
      }
      assert list[..|list|] == list;
      lists := lists[t := filtered];
      return true, kept;
    }

    /** On success both sides gain the key; they agree as before if and only if the store
        really has it and every task whose prefix covers it lists it, which slash-free ids
        make sure of. A request that breaks off can leave the sides apart on the key only. */
    method UploadArtifact(t: TaskId, suffix: string, size: nat, fault: Fault, ghost except: set<Key>)
        returns (reply: Reply)
      modifies this`lists, this`store
      ensures reply == Ok <==> t in old(lists) && size > 0 && !(enabled && fault.AtStore?) && !fault.AtList?
      ensures reply == Missing <==> t !in old(lists)
      ensures reply == BadRequest <==> t in old(lists) && size == 0
      ensures reply in {Ok, Missing, BadRequest, ServerError}
      ensures lists == if reply == Ok || (reply == ServerError && fault == AtList(true))
                       then old(lists)[t := old(lists)[t] + [t + "/" + suffix]] else old(lists)
      ensures store == if enabled && (reply == Ok || (reply == ServerError && fault != AtStore(false)))
                       then old(store) + {t + "/" + suffix} else old(store)
      ensures old(AgreeBut(except)) && reply == Ok ==>
                (AgreeBut(except) <==>
                   (t + "/" + suffix !in except ==>
                      && t + "/" + suffix in store
                      && forall u | u in lists && u + "/" <= t + "/" + suffix :: t + "/" + suffix in lists[u]))
      ensures old(AgreeBut(except)) && reply == Ok && enabled && (forall u | u in lists :: '/' !in u) ==>
                AgreeBut(except)
      ensures old(AgreeBut(except)) ==> AgreeBut(except + {t + "/" + suffix})
    {
      var key := t + "/" + suffix;
      if t !in lists {
        return Missing;
      }
      if size == 0 {
        return BadRequest;
      }
      if enabled {
        if fault.AtStore? {
          if fault.applied {
            store := store + {key};
          }
          return ServerError;
        }
        store := store + {key};
      }
      if fault.AtList? {
        if fault.applied {
          var done := AddArtifact(t, key);
        }
        return ServerError;
      }
      var ok := AddArtifact(t, key);
      assert t in lists && Under(t, key) && key in lists[t];
      if SlashFree() {
        forall u | u in lists && Under(u, key) ensures u == t {
          OneOwner(t, u, key);
        }
      }
      return Ok;
    }

    /** Delete of a stored key. The handler never compares the key with the task: the two
        sides agree afterwards exactly when no other task lists the key. */
    method DeleteArtifact(t: TaskId, key: Key, fault: Fault, ghost except: set<Key>) returns (reply: Reply)
      modifies this`lists, this`store
      ensures reply == Ok <==> key != "" && t in old(lists) && enabled && key in old(store) && fault.NoFault?
      ensures reply == BadRequest <==> key == ""
      ensures reply == Missing <==> key != "" && (t !in old(lists) || !enabled || key !in old(store))
      ensures reply in {Ok, Missing, BadRequest, ServerError}
      ensures lists == if reply == Ok || (reply == ServerError && fault == AtList(true))
                       then old(lists)[t := Without(old(lists)[t], key)] else old(lists)
      ensures store == if reply == Ok || (reply == ServerError && fault != AtStore(false))
                       then old(store) - {key} else old(store)
      ensures old(AgreeBut(except)) && reply == Ok ==>
                (AgreeBut(except - {key}) <==> forall u | u in old(lists) && u != t :: key !in old(lists)[u])
      ensures old(AgreeBut(except)) && reply == Ok && t + "/" <= key && (forall u | u in lists :: '/' !in u) ==>
                AgreeBut(except - {key})
      ensures old(AgreeBut(except)) ==> AgreeBut(except + {key})
    {
      if key == "" {
        return BadRequest;
      }
      if t !in lists {
        return Missing;
      }
      if !enabled || key !in store {
        return Missing;
      }
      if AgreeBut(except) {
        DeletedAgrees(lists, store, t, key, except);
      }
      if fault.AtStore? {
        if fault.applied {
          store := store - {key};
        }
        return ServerError;
      }
      store := store - {key};
      if fault.AtList? {
        if fault.applied {
          var done, kept := RemoveArtifact(t, key);
        }
        return ServerError;
      }
      var ok, kept := RemoveArtifact(t, key);
      assert SlashFree() ==> AllSlashFree(old(lists));
      return Ok;
    }

    /** The erase loop of a cleanup, up to the statement that breaks off. */
    method EraseAll(keys: set<Key>, faultAt: nat, applied: bool) returns (n: nat)
      modifies this`store
      ensures n <= faultAt && (n == |keys| ==> store == old(store) - keys)
      ensures n < |keys| ==> n == faultAt
      ensures old(store) - keys <= store <= old(store) && n <= |keys|
    {
      var rest := keys;
      n := 0;
      while rest != {}
        invariant rest <= keys && n + |rest| == |keys| && n <= faultAt
        invariant store == old(store) - (keys - rest)
      {
        var key :| key in rest;
        if n == faultAt {
          store := if applied then store - {key} else store;
          return;
        }
        store := store - {key};
        rest := rest - {key};
        n := n + 1;
      }
    }

    /** Removes every stored object of one task and empties its list. All other lists and
        all other keys stay as they are; the sides agree afterwards exactly when no other task
        lists a key under the prefix. A request that breaks off can leave the two sides apart
        on keys of this task only. */
    method CleanupArtifacts(t: TaskId, faultAt: nat, applied: bool, ghost except: set<Key>) returns (reply: Reply)
      modifies this`lists, this`store
      ensures reply == Ok <==> t in old(lists) && enabled && faultAt > |StoredUnder(old(store), t)|
      ensures reply == Ok ==> lists == old(lists)[t := []]
      ensures reply == Ok ==> store == set k | k in old(store) && !(t + "/" <= k)
      ensures reply == Missing <==> t !in old(lists)
      ensures reply == Disabled <==> t in old(lists) && !enabled
      ensures reply in {Missing, Disabled} ==> lists == old(lists) && store == old(store)
      ensures reply in {Ok, Missing, Disabled, ServerError}
      ensures lists == old(lists) || (t in old(lists) && lists == old(lists)[t := []])
      ensures old(store) - StoredUnder(old(store), t) <= store <= old(store)
      ensures old(AgreeBut(except)) && reply == Ok ==>
                (AgreeBut(Outside(except, t)) <==>
                   forall u, k | u in old(lists) && u != t && k in old(lists)[u] :: !(t + "/" <= k))
      ensures old(AgreeBut(except)) && reply == Ok && (forall u | u in lists :: '/' !in u) ==>
                AgreeBut(Outside(except, t))
      ensures old(AgreeBut(except)) ==> AgreeBut(except + StoredUnder(old(store), t))
    {
      if t !in lists {
        return Missing;
      }
      if !enabled {
        return Disabled;
      }
      ghost var store0 := store;
      var objects := StoredUnder(store, t);
      var n := EraseAll(objects, faultAt, applied);
      PartlyCleanedAgrees(lists, store0, store, t, except);
      if n < |objects| {
        return ServerError;
      }
      if n == faultAt {
        lists := if applied then lists[t := []] else lists;
        return ServerError;
      }
      if old(AgreeBut(except)) {
        CleanedAgrees(lists, store0, t, except);
      }
      lists := lists[t := []];
      assert SlashFree() ==> AllSlashFree(old(lists));
      return Ok;
    }
  }

  lemma ForgetOne(list: seq<Key>, key: Key)
    ensures forall k :: k in Without(list, key) <==> k in list && k != key
  {
    forall k ensures k in Without(list, key) <==> k in list && k != key {
      WithoutIs(list, key, k);
    }
  }

  /** In agreement, the listed keys of a task are exactly the stored keys under its prefix, and
      an excepted key may be listed under its task without being stored, or stored and not listed. */
  lemma AgreementIsEquality(s: Storage, except: set<Key>)
    ensures s.AgreeBut(except) <==>
              forall t, k | t in s.lists ::
                if k in except then k in s.lists[t] ==> Under(t, k)
                else k in s.lists[t] <==> k in s.store && Under(t, k)
    ensures s.Agree() ==> forall t | t in s.lists :: Elements(s.lists[t]) == StoredUnder(s.store, t)
  {
  }
}
