/**
 * The VB6-style keyed `Collection` of containers.py: an ordered storage
 * deque whose entries are either raw values or the names of keyed items,
 * beside a key store mapping each name to its item.
 */
module Containers {
  import opened Wrappers

  /** A Python value held by the collection: a string, an int or any other object. */
  datatype Value = Str(s: string) | Int(n: int) | Obj(id: nat)

  /** The argument of `__getitem__` / `__delitem__`: a key name or a storage index. */
  datatype Key = Name(name: string) | Index(i: int)

  /** The two stores of a collection: `_storage` and `_key_store`. */
  datatype Store = Store(storage: seq<Value>, keyStore: map<string, Value>)

  /** Every recorded key has its name somewhere in the storage. */
  ghost predicate Consistent(st: Store)
  {
    forall k :: k in st.keyStore ==> Str(k) in st.storage
  }

  /** `str(key)`: a missing key becomes the text "None". */
  function KeyText(key: Option<string>): (k: string)
    ensures key.Some? ==> k == key.value
    ensures key.None? ==> k == "None"
  {
    if key.Some? then key.value else "None"
  }

  /** Python truthiness of an optional int: `None` and 0 are false. */
  predicate Truthy(o: Option<int>)
  {
    o.Some? && o.value != 0
  }

  /** The position `deque.insert(i, x)` puts `x` at in a deque of length `n`. */
  function InsertIndex(i: int, n: nat): (j: nat)
    ensures j <= n
    ensures 0 <= i <= n ==> j == i
    ensures 0 <= i + n && i < 0 ==> j == n + i
    ensures i > n ==> j == n
    ensures i + n < 0 ==> j == 0
  {
    if i < 0 then (if i + n < 0 then 0 else i + n)
    else if i > n then n
    else i
  }

  /** `deque.insert(i, x)`. */
  function InsertAt(s: seq<Value>, i: int, x: Value): (r: seq<Value>)
    ensures |r| == |s| + 1
    ensures r[InsertIndex(i, |s|)] == x
    ensures r[..InsertIndex(i, |s|)] == s[..InsertIndex(i, |s|)]
    ensures r[InsertIndex(i, |s|) + 1..] == s[InsertIndex(i, |s|)..]
    ensures multiset(r) == multiset(s) + multiset{x}
  {
    var j := InsertIndex(i, |s|);
    assert s == s[..j] + s[j..];
    s[..j] + [x] + s[j..]
  }

  /** The index of the first occurrence of `x` in `s`. */
  function FirstIndex(s: seq<Value>, x: Value): (j: nat)
    requires x in s
    ensures j < |s| && s[j] == x && x !in s[..j]
  {
    if s[0] == x then 0
    else
      var j := FirstIndex(s[1..], x);
      assert s[..j + 1] == [s[0]] + s[1..][..j];
      j + 1
  }

  /** `deque.remove(x)`: drops the first occurrence of `x`. */
  function RemoveFirst(s: seq<Value>, x: Value): (r: seq<Value>)
    requires x in s
    ensures |r| == |s| - 1
    ensures multiset(r) == multiset(s) - multiset{x}
    ensures r == s[..FirstIndex(s, x)] + s[FirstIndex(s, x) + 1..]
  {
    var j := FirstIndex(s, x);
    assert s == s[..j] + [s[j]] + s[j + 1..];
    s[..j] + s[j + 1..]
  }

  /** `s[i]` with Python's negative indexing; `None` stands for `IndexError`. */
  function Normalize(i: int, n: nat): (j: Option<nat>)
    ensures j.Some? <==> 0 <= i + n && i < n
    ensures j.Some? ==> j.value < n && (j.value == i || j.value == i + n)
  {
    if 0 <= i < n then Some(i)
    else if 0 <= i + n && i < 0 then Some(i + n)
    else None
  }

  /** `add(item, key, before, after)`: the new stores and whether it raised. */
  function AddItem(st: Store, item: Value, key: Option<string>, before: Option<int>, after: Option<int>): (r: (Store, Result<()>))
    ensures var k := KeyText(key);
      (r.1.Ok? <==> k != "" && k !in st.keyStore && !(Truthy(before) && before == after))
    ensures var k := KeyText(key);
      r.1 == Err(KeyError) <==> k == "" || k in st.keyStore
    ensures r.1 == Err(KeyError) ==> r.0 == st
    ensures r.1 == Err(ValueError) ==> r.0 == Store(st.storage, st.keyStore[KeyText(key) := item])
    ensures r.1.Ok? ==> r.0.keyStore == st.keyStore[KeyText(key) := item]
    ensures r.1.Ok? ==> multiset(r.0.storage) == multiset(st.storage) + multiset{Str(KeyText(key))}
    ensures r.1.Ok? && !Truthy(before) && !Truthy(after) ==> r.0.storage == st.storage + [Str(KeyText(key))]
    ensures r.1.Ok? && Truthy(before) ==> r.0.storage == InsertAt(st.storage, before.value - 1, Str(KeyText(key)))
    ensures r.1.Ok? && !Truthy(before) && Truthy(after) ==> r.0.storage == InsertAt(st.storage, after.value + 1, Str(KeyText(key)))
  {
    var k := KeyText(key);
    if k == "" || k in st.keyStore then (st, Err(KeyError))
    else
      var keys := st.keyStore[k := item];
      if !Truthy(before) && !Truthy(after) then (Store(st.storage + [Str(k)], keys), Ok(()))
      else if before == after && before.Some? then (Store(st.storage, keys), Err(ValueError))
      else if Truthy(before) then (Store(InsertAt(st.storage, before.value - 1, Str(k)), keys), Ok(()))
      else (Store(InsertAt(st.storage, after.value + 1, Str(k)), keys), Ok(()))
  }

  /** `del collection[key]`. */
  function DeleteItem(st: Store, key: Key): (r: (Store, Result<()>))
    ensures key.Name? ==> (r.1 == Err(KeyError) <==> key.name !in st.keyStore)
    ensures key.Name? && key.name in st.keyStore ==> r.0.keyStore == st.keyStore - {key.name}
    ensures key.Name? && r.1.Ok? ==> multiset(r.0.storage) == multiset(st.storage) - multiset{Str(key.name)}
    ensures key.Index? ==> (r.1.Ok? <==> 0 <= key.i + |st.storage| && key.i < |st.storage|)
    ensures key.Index? ==> r.0.keyStore == st.keyStore
    ensures key.Name? && r.1.Ok? ==> Str(key.name) in st.storage && r.0.storage == RemoveFirst(st.storage, Str(key.name))
    ensures key.Index? && r.1.Ok? ==> |r.0.storage| == |st.storage| - 1
    ensures key.Index? && r.1.Ok? ==> var j := Normalize(key.i, |st.storage|).value;
      r.0.storage == st.storage[..j] + st.storage[j + 1..]
    ensures r.1.Err? && r.1 != Err(ValueError) ==> r.0 == st
  {
    match key
    case Name(k) =>
      if k in st.keyStore then
        var keys := st.keyStore - {k};
        if Str(k) in st.storage then (Store(RemoveFirst(st.storage, Str(k)), keys), Ok(()))
        else (Store(st.storage, keys), Err(ValueError))
      else (st, Err(KeyError))
    case Index(i) =>
      match Normalize(i, |st.storage|)
      case None => (st, Err(IndexError))
      case Some(j) => (Store(st.storage[..j] + st.storage[j + 1..], st.keyStore), Ok(()))
  }

  /** `collection[key]`: `Ok(None)` is Python's `None`. */
  function GetItem(st: Store, key: Key): (r: Result<Option<Value>>)
    ensures key.Name? ==> r.Ok? && (r.value.Some? <==> key.name in st.keyStore)
    ensures key.Name? && key.name in st.keyStore ==> r.value == Some(st.keyStore[key.name])
    ensures key.Index? ==> (r.Ok? <==> 0 <= key.i + |st.storage| && key.i < |st.storage|)
    ensures key.Index? && r.Ok? ==> r.value.Some?
    ensures r == Err(IndexError) || r.Ok?
  {
    match key
    case Name(k) => Ok(if k in st.keyStore then Some(st.keyStore[k]) else None)
    case Index(i) =>
      match Normalize(i, |st.storage|)
      case None => Err(IndexError)
      case Some(j) =>
        var e := st.storage[j];
        if e.Str? && e.s in st.keyStore then Ok(Some(st.keyStore[e.s])) else Ok(Some(e))
  }

  /** `item in collection`: ints are looked up in the storage, anything else among the keys. */
  function HasItem(st: Store, item: Value): (r: bool)
    ensures item.Int? ==> (r <==> item in st.storage)
    ensures item.Str? ==> (r <==> item.s in st.keyStore)
    ensures item.Obj? ==> !r
  {
    match item
    case Int(_) => item in st.storage
    case Str(k) => k in st.keyStore
    case Obj(_) => false
  }

  /** The corrected `add`: the clash of `before` and `after` is rejected before anything is recorded. */
  function AddChecked(st: Store, item: Value, key: Option<string>, before: Option<int>, after: Option<int>): (r: (Store, Result<()>))
    ensures r.1.Err? ==> r.0 == st
    ensures r.1.Ok? ==> r == AddItem(st, item, key, before, after)
    ensures r.1.Ok? <==> AddItem(st, item, key, before, after).1.Ok?
  {
    if Truthy(before) && before == after then (st, Err(ValueError))
    else AddItem(st, item, key, before, after)
  }

  /** A successful `add` makes the item reachable under its key. */
  lemma AddThenGet(st: Store, item: Value, key: Option<string>, before: Option<int>, after: Option<int>)
    requires AddItem(st, item, key, before, after).1.Ok?
    ensures GetItem(AddItem(st, item, key, before, after).0, Name(KeyText(key))) == Ok(Some(item))
    ensures HasItem(AddItem(st, item, key, before, after).0, Str(KeyText(key)))
  {
  }

  /** A successful `add` keeps every recorded key in the storage. */
  lemma AddKeepsConsistent(st: Store, item: Value, key: Option<string>, before: Option<int>, after: Option<int>)
    requires Consistent(st)
    requires AddItem(st, item, key, before, after).1.Ok?
    ensures Consistent(AddItem(st, item, key, before, after).0)
  {
    var r := AddItem(st, item, key, before, after);
    var k := KeyText(key);
    forall k' | k' in r.0.keyStore
      ensures Str(k') in r.0.storage
    {
      assert Str(k') in multiset(r.0.storage);
    }
  }

  /** Deleting by key name keeps every other recorded key in the storage. */
  lemma DeleteKeepsConsistent(st: Store, k: string)
    requires Consistent(st)
    ensures Consistent(DeleteItem(st, Name(k)).0)
  {
    var r := DeleteItem(st, Name(k));
    if k in st.keyStore {
      forall k' | k' in r.0.keyStore
        ensures Str(k') in r.0.storage
      {
        assert k' != k && Str(k') in multiset(st.storage);
        assert Str(k') in multiset(r.0.storage);
      }
    }
  }

  /** Once deleted, a key is gone: its lookup gives `None` and membership fails. */
  lemma DeleteThenGet(st: Store, k: string)
    requires DeleteItem(st, Name(k)).1.Ok?
    ensures GetItem(DeleteItem(st, Name(k)).0, Name(k)) == Ok(None)
    ensures !HasItem(DeleteItem(st, Name(k)).0, Str(k))
  {
  }

  /** Removing the element just appended, when it did not occur before, gives back the sequence. */
  lemma {:induction false} RemoveLastAdded(s: seq<Value>, x: Value)
    requires x !in s
    ensures RemoveFirst(s + [x], x) == s
  {
    var t := s + [x];
    var j := FirstIndex(t, x);
    assert forall i :: 0 <= i < |s| ==> t[i] == s[i] && t[i] != x;
    assert j == |s|;
    assert t[..j] == s;
  }

  /** Adding a fresh key at the end and deleting it again restores the collection. */
  lemma AddThenDelete(st: Store, item: Value, k: string)
    requires k != "" && k !in st.keyStore && Str(k) !in st.storage
    ensures DeleteItem(AddItem(st, item, Some(k), None, None).0, Name(k)) == (st, Ok(()))
  {
    var r := AddItem(st, item, Some(k), None, None);
    RemoveLastAdded(st.storage, Str(k));
    assert r.0.keyStore - {k} == st.keyStore;
  }

  /** An int index that holds a key name reads through to the keyed item. */
  lemma IndexReadsThroughKey(st: Store, j: nat)
    requires j < |st.storage| && st.storage[j].Str? && st.storage[j].s in st.keyStore
    ensures GetItem(st, Index(j)) == Ok(Some(st.keyStore[st.storage[j].s]))
  {
  }

  /**
   * As written, `add` with equal `before` and `after` records the key and then
   * raises, leaving a key whose name is in no storage slot; deleting it later
   * drops the key and raises `ValueError` from `deque.remove`.
   */
  lemma AddClashOrphansKey(st: Store, item: Value, k: string, b: int)
    requires Consistent(st)
    requires k != "" && k !in st.keyStore && Str(k) !in st.storage && b != 0
    ensures var r := AddItem(st, item, Some(k), Some(b), Some(b));
      r.1 == Err(ValueError) && !Consistent(r.0)
      && DeleteItem(r.0, Name(k)) == (st, Err(ValueError))
  {
    var r := AddItem(st, item, Some(k), Some(b), Some(b));
    assert k in r.0.keyStore && Str(k) !in r.0.storage;
    assert r.0.keyStore - {k} == st.keyStore;
  }

  /** The corrected `add` keeps every recorded key in the storage, whatever it returns. */
  lemma AddCheckedKeepsConsistent(st: Store, item: Value, key: Option<string>, before: Option<int>, after: Option<int>)
    requires Consistent(st)
    ensures Consistent(AddChecked(st, item, key, before, after).0)
  {
    if AddChecked(st, item, key, before, after).1.Ok? {
      AddKeepsConsistent(st, item, key, before, after);
    }
  }

  /** The collection object: the two stores are fields that the methods reassign. */
  class Collection {
    var storage: seq<Value>
    var keyStore: map<string, Value>

    function State(): Store
      reads this
    {
      Store(storage, keyStore)
    }

    /** `Collection(items)`: a plain iterable extends the storage with its items. */
    constructor(items: seq<Value>)
      ensures storage == items && keyStore == map[]
    {
      storage := items;
      keyStore := map[];
    }

    method Add(item: Value, key: Option<string>, before: Option<int>, after: Option<int>) returns (r: Result<()>)
      modifies this
      ensures (State(), r) == AddItem(old(State()), item, key, before, after)
    {
      var k := KeyText(key);
      if k == "" || k in keyStore {
        return Err(KeyError);
      }
      keyStore := keyStore[k := item];
      if !Truthy(before) && !Truthy(after) {
        storage := storage + [Str(k)];
        return Ok(());
      }
      if before == after && before.Some? {
        return Err(ValueError);
      }
      if Truthy(before) {
        storage := InsertAt(storage, before.value - 1, Str(k));
      } else {
        storage := InsertAt(storage, after.value + 1, Str(k));
      }
      return Ok(());
    }

    method Delete(key: Key) returns (r: Result<()>)
      modifies this
      ensures (State(), r) == DeleteItem(old(State()), key)
    {
      if key.Name? && key.name in keyStore {
        keyStore := keyStore - {key.name};
        if Str(key.name) !in storage {
          return Err(ValueError);
        }
        storage := RemoveFirst(storage, Str(key.name));
        return Ok(());
      }
      if key.Name? {
        return Err(KeyError);
      }
      var j := Normalize(key.i, |storage|);
      if j.None? {
        return Err(IndexError);
      }
      storage := storage[..j.value] + storage[j.value + 1..];
      return Ok(());
    }

    method Get(key: Key) returns (r: Result<Option<Value>>)
      ensures r == GetItem(State(), key)
    {
      if key.Name? {
        if key.name !in keyStore {
          return Ok(None);
        }
        return Ok(Some(keyStore[key.name]));
      }
      var j := Normalize(key.i, |storage|);
      if j.None? {
        return Err(IndexError);
      }
      var e := storage[j.value];
      if e.Str? && e.s in keyStore {
        return Ok(Some(keyStore[e.s]));
      }
      return Ok(Some(e));
    }

    method Contains(item: Value) returns (r: bool)
      ensures r == HasItem(State(), item)
    {
      if item.Int? {
        return item in storage;
      }
      return item.Str? && item.s in keyStore;
    }

    /** `len(collection)` and `count`. */
    method Count() returns (n: nat)
      ensures n == |storage|
    {
      return |storage|;
    }

    method Clear()
      modifies this
      ensures storage == [] && keyStore == map[]
      ensures Consistent(State())
    {
      storage := [];
      keyStore := map[];
    }
  }
}
