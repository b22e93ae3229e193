/** The idempotency table of Orders: an ordered dictionary with expiry and capacity eviction. */
module Idempotency {

  const TTL_SECONDS: int := 900

  /** `order` is the fingerprint, taken as collision-free; `owner` identifies the checkout that created the
      entry object. Times are in seconds. */
  datatype Entry = Entry(order: string, createdAt: int, completed: bool, status: nat, owner: nat)

  datatype Slot = Slot(key: string, entry: Entry)

  /** The OrderedDict, oldest first. */
  type Table = seq<Slot>

  ghost predicate Unique(t: Table) {
    forall i, j | 0 <= i < j < |t| :: t[i].key != t[j].key
  }

  /** Position of a key, or the length when absent. */
  function Index(t: Table, key: string): (i: nat)
    ensures i <= |t| && (i < |t| ==> t[i].key == key) && forall j | 0 <= j < i :: t[j].key != key
  {
    if t == [] then 0 else if t[0].key == key then 0 else 1 + Index(t[1..], key)
  }

  predicate Expired(entry: Entry, now: int) {
    entry.completed && now - entry.createdAt > TTL_SECONDS
  }

  /** The table without the slots of some keys. */
  function Without(t: Table, keys: set<string>): Table {
    if t == [] then [] else (if t[0].key in keys then [] else [t[0]]) + Without(t[1..], keys)
  }

  function ExpiredKeys(t: Table, now: int): set<string> {
    set x | x in t && Expired(x.entry, now) :: x.key
  }

  function KeySet(keys: seq<string>): set<string> {
    set key | key in keys
  }

  function Pruned(t: Table, now: int): Table {
    Without(t, ExpiredKeys(t, now))
  }

  function RemoveAt(t: Table, i: nat): Table
    requires i < |t|
  {
    t[..i] + t[i + 1..]
  }

  /** `pop(key, None)`. */
  function Pop(t: Table, key: string): Table {
    var i := Index(t, key);
    if i < |t| then RemoveAt(t, i) else t
  }

  function FirstCompleted(t: Table): (i: nat)
    ensures i <= |t| && (i < |t| ==> t[i].entry.completed) && forall j | 0 <= j < i :: !t[j].entry.completed
  {
    if t == [] then 0 else if t[0].entry.completed then 0 else 1 + FirstCompleted(t[1..])
  }

  /** `_make_idempotency_room` for a table of at most `capacity` entries. */
  function WithRoom(t: Table, capacity: nat): (Table, bool)
    decreases |t|
  {
    if |t| < capacity then (t, true)
    else
      var i := FirstCompleted(t);
      if i == |t| then (t, false) else WithRoom(RemoveAt(t, i), capacity)
  }

  /** `move_to_end`. */
  function MoveToEnd(t: Table, i: nat): Table
    requires i < |t|
  {
    RemoveAt(t, i) + [t[i]]
  }

  // ----- Membership -----

  lemma {:induction false} WithoutMembers(t: Table, keys: set<string>, x: Slot)
    ensures x in Without(t, keys) <==> x in t && x.key !in keys
  {
    if t != [] {
      WithoutMembers(t[1..], keys, x);
      assert t == [t[0]] + t[1..];
    }
  }

  lemma {:induction false} WithoutUnique(t: Table, keys: set<string>)
    requires Unique(t)
    ensures Unique(Without(t, keys)) && |Without(t, keys)| <= |t|
  {
    if t != [] {
      var rest := Without(t[1..], keys);
      WithoutUnique(t[1..], keys);
      forall j | 0 <= j < |rest| ensures rest[j].key != t[0].key {
        WithoutMembers(t[1..], keys, rest[j]);
        assert rest[j] in t[1..];
      }
    }
  }

  lemma UniqueSlot(t: Table, x: Slot, y: Slot)
    requires Unique(t) && x in t && y in t && x.key == y.key
    ensures x == y
  {
  }

  /** Pruning keeps exactly the entries that are in progress or not yet too old. */
  lemma PrunedMembers(t: Table, now: int, x: Slot)
    requires Unique(t)
    ensures x in Pruned(t, now) <==> x in t && !(x.entry.completed && now - x.entry.createdAt > 900)
  {
    WithoutMembers(t, ExpiredKeys(t, now), x);
    if x in t && x.key in ExpiredKeys(t, now) {
      var y :| y in t && Expired(y.entry, now) && y.key == x.key;
      UniqueSlot(t, x, y);
    }
  }

  lemma RemoveMembers(t: Table, i: nat, x: Slot)
    requires Unique(t) && i < |t|
    ensures Unique(RemoveAt(t, i)) && (x in RemoveAt(t, i) <==> x in t && x != t[i])
  {
    var r := RemoveAt(t, i);
    if x in t && x != t[i] {
      var j :| 0 <= j < |t| && t[j] == x;
      assert r[if j < i then j else j - 1] == x;
    }
    if x in r {
      var j :| 0 <= j < |r| && r[j] == x;
      assert t[if j < i then j else j + 1] == x;
    }
  }

  lemma PopMembers(t: Table, key: string, x: Slot)
    requires Unique(t)
    ensures Unique(Pop(t, key)) && (x in Pop(t, key) <==> x in t && x.key != key)
  {
    var i := Index(t, key);
    if i < |t| {
      RemoveMembers(t, i, x);
      if x in t && x.key == key {
        UniqueSlot(t, x, t[i]);
      }
    } else if x in t {
      var j :| 0 <= j < |t| && t[j] == x;
    }
  }

  /** Room is refused only when every entry is in progress. Otherwise one slot is free, what is in progress
      stays, and an eviction (needed only at capacity) takes the first completed entry and nothing else. */
  lemma RoomMeans(t: Table, capacity: nat)
    requires Unique(t) && |t| <= capacity && capacity > 0
    ensures var (t', ok) := WithRoom(t, capacity);
            var i := FirstCompleted(t);
            && (ok <==> |t| < capacity || i < |t|)
            && (!ok ==> t' == t && forall x | x in t :: !x.entry.completed)
            && (ok ==> |t'| < capacity && t' == if |t| < capacity then t else RemoveAt(t, i))
  {
  }

  lemma MoveToEndMembers(t: Table, i: nat, x: Slot)
    requires Unique(t) && i < |t|
    ensures Unique(MoveToEnd(t, i)) && (x in MoveToEnd(t, i) <==> x in t)
  {
    RemoveMembers(t, i, x);
    RemoveMembers(t, i, t[i]);
    var r := RemoveAt(t, i);
    forall j | 0 <= j < |r| ensures r[j].key != t[i].key {
      assert r[j] == t[if j < i then j else j + 1];
    }
  }

  lemma {:induction false} PopWithout(t: Table, keys: set<string>, key: string)
    requires Unique(t)
    ensures Pop(Without(t, keys), key) == Without(t, keys + {key})
  {
    if t != [] {
      PopWithout(t[1..], keys, key);
      if t[0].key !in keys {
        if t[0].key == key {
          PopHead(t, keys);
        } else {
          PopBehind(t[0], Without(t[1..], keys), key);
        }
      } else {
        assert Without(t, keys) == Without(t[1..], keys);
        assert Without(t, keys + {key}) == Without(t[1..], keys + {key});
      }
    }
  }

  lemma PopHead(t: Table, keys: set<string>)
    requires Unique(t) && t != [] && t[0].key !in keys
    ensures Pop(Without(t, keys), t[0].key) == Without(t, keys + {t[0].key})
  {
    var rest := Without(t[1..], keys);
    NoneToDrop(t[1..], keys, t[0].key);
    assert Without(t, keys) == [t[0]] + rest;
    assert RemoveAt([t[0]] + rest, 0) == rest;
  }

  lemma PopBehind(x: Slot, t: Table, key: string)
    requires x.key != key
    ensures Pop([x] + t, key) == [x] + Pop(t, key)
  {
    assert ([x] + t)[1..] == t;
    var i := Index(t, key);
    if i < |t| {
      assert RemoveAt([x] + t, i + 1) == [x] + RemoveAt(t, i);
    }
  }

  lemma {:induction false} NoneToDrop(t: Table, keys: set<string>, key: string)
    requires forall x | x in t :: x.key != key
    ensures Without(t, keys + {key}) == Without(t, keys)
  {
    if t != [] {
      NoneToDrop(t[1..], keys, key);
    }
  }

  lemma ExpiredSoFar(t: Table, i: nat, now: int)
    requires i < |t|
    ensures ExpiredKeys(t[..i + 1], now) == ExpiredKeys(t[..i], now) + if Expired(t[i].entry, now) then {t[i].key}
            else {}
  {
    assert t[..i + 1] == t[..i] + [t[i]];
    assert forall x: Slot :: x in t[..i + 1] <==> x in t[..i] || x == t[i];
  }

  // ----- The dictionary as Orders mutates it -----

  class IdempotencyTable {
    var slots: Table
    const capacity: nat

    constructor (capacity: nat)
      ensures slots == [] && this.capacity == capacity
    {
      this.capacity := capacity;
      slots := [];
    }

    /** `_prune_idempotency`: collect the expired keys, then pop each. */
    method Prune(now: int)
      requires Unique(slots)
      modifies this`slots
      ensures slots == Pruned(old(slots), now) && Unique(slots)
    {
      var before, expired := slots, [];
      for i := 0 to |before|
        invariant slots == before && KeySet(expired) == ExpiredKeys(before[..i], now)
      {
        ExpiredSoFar(before, i, now);
        if Expired(before[i].entry, now) {
          expired := expired + [before[i].key];
        }
      }
      assert before[..|before|] == before;
      WithoutNothing(before);
      for i := 0 to |expired|
        invariant slots == Without(before, KeySet(expired[..i]))
      {
        PopWithout(before, KeySet(expired[..i]), expired[i]);
        assert KeySet(expired[..i]) + {expired[i]} == KeySet(expired[..i + 1]);
        slots := Pop(slots, expired[i]);
      }
      assert expired[..|expired|] == expired;
      WithoutUnique(before, ExpiredKeys(before, now));
    }

    /** `_make_idempotency_room`: evict the first completed entry until there is room. */
    method MakeRoom() returns (ok: bool)
      modifies this`slots
      ensures (slots, ok) == WithRoom(old(slots), capacity)
    {
      while |slots| >= capacity
        invariant WithRoom(slots, capacity) == WithRoom(old(slots), capacity)
        decreases |slots|
      {
        var i := 0;
        while i < |slots| && !slots[i].entry.completed
          invariant i <= FirstCompleted(slots)
        {
          i := i + 1;
        }
        if i == |slots| {
          return false;
        }
        slots := RemoveAt(slots, i);
      }
      ok := true;
    }
  }

  lemma {:induction false} WithoutNothing(t: Table)
    ensures Without(t, {}) == t
    ensures KeySet([]) == {}
  {
    if t != [] {
      WithoutNothing(t[1..]);
    }
  }
}
