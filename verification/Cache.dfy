/**
 internal/cache/cache.go: a bounded cache with a time to live, emptied as a whole when it is full.

 `Store` is the value of a cache and gives each operation as a function of the clock reading it
 takes; `Cache` is the mutable object, proved against those functions. The theorems at the end say
 what a store means: it is a view of the timestamped log of the operations that produced it.
 */
module Caches {
  import opened GoText

  datatype Slot<V> = Slot(value: V, expiresAt: int)

  datatype Store<V> = Store(entries: map<string, Slot<V>>, ttl: int, capacity: int)

  predicate Fresh<V>(s: Store<V>, key: string, now: int) {
    key in s.entries && now < s.entries[key].expiresAt
  }

  function Lookup<V>(s: Store<V>, key: string, now: int): Option<V> {
    if Fresh(s, key, now) then Some(s.entries[key].value) else None
  }

  /** The store a lookup leaves: a stale entry is deleted in passing. */
  function AfterGet<V>(s: Store<V>, key: string, now: int): Store<V> {
    if Fresh(s, key, now) then s else s.(entries := s.entries - {key})
  }

  predicate Full<V>(s: Store<V>) {
    0 < s.capacity <= |s.entries|
  }

  function AfterPut<V>(s: Store<V>, key: string, value: V, now: int): Store<V> {
    if s.ttl <= 0 then s
    else
      var kept := if Full(s) then map[] else s.entries;
      s.(entries := kept[key := Slot(value, now + s.ttl)])
  }

  function AfterEvict<V>(s: Store<V>, key: string): Store<V> {
    s.(entries := s.entries - {key})
  }

  function AfterClear<V>(s: Store<V>): Store<V> {
    s.(entries := map[])
  }

  function Empty<V>(ttl: int, capacity: int): Store<V> {
    Store(map[], ttl, capacity)
  }

  // ---------------------------------------------------------------------------------------------
  // The object
  // ---------------------------------------------------------------------------------------------

  class Cache<V> {
    var entries: map<string, Slot<V>>
    const ttl: int
    const capacity: int

    ghost function Value(): Store<V>
      reads this
    {
      Store(entries, ttl, capacity)
    }

    constructor (capacity: int, ttl: int)
      ensures Value() == Empty(ttl, capacity)
    {
      this.entries := map[];
      this.capacity := capacity;
      this.ttl := ttl;
    }

    method Get(key: string, now: int) returns (hit: Option<V>)
      modifies this
      ensures hit == old(Lookup(Value(), key, now))
      ensures Value() == old(AfterGet(Value(), key, now))
    {
      if key !in entries || now >= entries[key].expiresAt {
        entries := entries - {key};
        return None;
      }
      return Some(entries[key].value);
    }

    method Put(key: string, value: V, now: int)
      modifies this
      ensures Value() == old(AfterPut(Value(), key, value, now))
    {
      if ttl <= 0 {
        return;
      }
      if capacity > 0 && |entries| >= capacity {
        entries := map[];
      }
      entries := entries[key := Slot(value, now + ttl)];
    }

    method Evict(key: string)
      modifies this
      ensures Value() == old(AfterEvict(Value(), key))
    {
      entries := entries - {key};
    }

    method Clear()
      modifies this
      ensures Value() == old(AfterClear(Value()))
    {
      entries := map[];
    }

    method Size() returns (size: nat)
      ensures size == |Value().entries|
    {
      return |entries|;
    }
  }

  // ---------------------------------------------------------------------------------------------
  // A store is a view of the log of its operations
  // ---------------------------------------------------------------------------------------------

  datatype Op<V> = Get(key: string) | Put(key: string, value: V) | Evict(key: string) | Clear

  datatype Event<V> = Event(at: int, op: Op<V>)

  function Apply<V>(s: Store<V>, e: Event<V>): Store<V> {
    match e.op
    case Get(key) => AfterGet(s, key, e.at)
    case Put(key, value) => AfterPut(s, key, value, e.at)
    case Evict(key) => AfterEvict(s, key)
    case Clear => AfterClear(s)
  }

  function Replay<V>(log: seq<Event<V>>, ttl: int, capacity: int): Store<V> {
    if |log| == 0 then Empty(ttl, capacity)
    else Apply(Replay(log[..|log| - 1], ttl, capacity), log[|log| - 1])
  }

  ghost predicate Ordered<V>(log: seq<Event<V>>) {
    forall i, j :: 0 <= i <= j < |log| ==> log[i].at <= log[j].at
  }

  /** Operation j of the log ends the life of what was stored under `key` before it. */
  ghost predicate Ends<V>(log: seq<Event<V>>, ttl: int, capacity: int, j: nat, key: string)
    requires j < |log|
  {
    match log[j].op
    case Get(_) => false
    case Put(k, _) => k == key || 0 < capacity <= |Replay(log[..j], ttl, capacity).entries|
    case Evict(k) => k == key
    case Clear => true
  }

  /** Operation i stored under `key`, and no later operation ended that. */
  ghost predicate LastStored<V>(log: seq<Event<V>>, ttl: int, capacity: int, i: nat, key: string) {
    && i < |log|
    && log[i].op.Put?
    && log[i].op.key == key
    && ttl > 0
    && forall j :: i < j < |log| ==> !Ends(log, ttl, capacity, j, key)
  }

  lemma LastStoredExtends<V>(log: seq<Event<V>>, ttl: int, capacity: int, i: nat, key: string)
    requires |log| > 0 && i < |log| - 1
    ensures LastStored(log, ttl, capacity, i, key)
       <==> LastStored(log[..|log| - 1], ttl, capacity, i, key) && !Ends(log, ttl, capacity, |log| - 1, key)
  {
    var before := log[..|log| - 1];
    assert forall j :: 0 <= j < |before| ==> before[..j] == log[..j];
    assert forall j :: 0 <= j < |before| ==> Ends(before, ttl, capacity, j, key) == Ends(log, ttl, capacity, j, key);
  }

  lemma {:induction false} EntryComesFromPut<V>(log: seq<Event<V>>, ttl: int, capacity: int, key: string) returns (i: nat)
    requires key in Replay(log, ttl, capacity).entries
    ensures LastStored(log, ttl, capacity, i, key)
    ensures Replay(log, ttl, capacity).entries[key] == Slot(log[i].op.value, log[i].at + ttl)
  {
    ReplayKeepsParameters(log[..|log| - 1], ttl, capacity);
    var last := log[|log| - 1];
    if last.op.Put? && last.op.key == key && ttl > 0 {
      i := |log| - 1;
    } else {
      i := EntryComesFromPut(log[..|log| - 1], ttl, capacity, key);
      LastStoredExtends(log, ttl, capacity, i, key);
    }
  }

  lemma {:induction false} ReplayKeepsParameters<V>(log: seq<Event<V>>, ttl: int, capacity: int)
    ensures Replay(log, ttl, capacity).ttl == ttl && Replay(log, ttl, capacity).capacity == capacity
  {
    if |log| > 0 {
      ReplayKeepsParameters(log[..|log| - 1], ttl, capacity);
    }
  }

  lemma {:induction false} UnexpiredPutIsStored<V>(log: seq<Event<V>>, ttl: int, capacity: int, i: nat, key: string)
    requires Ordered(log)
    requires LastStored(log, ttl, capacity, i, key)
    requires log[|log| - 1].at < log[i].at + ttl
    ensures key in Replay(log, ttl, capacity).entries
    ensures Replay(log, ttl, capacity).entries[key] == Slot(log[i].op.value, log[i].at + ttl)
  {
    var before := log[..|log| - 1];
    ReplayKeepsParameters(before, ttl, capacity);
    if i < |log| - 1 {
      LastStoredExtends(log, ttl, capacity, i, key);
      UnexpiredPutIsStored(before, ttl, capacity, i, key);
      assert !Ends(log, ttl, capacity, |log| - 1, key);
    }
  }

  /**
   A hit returns the value of the latest put of the key, made less than a ttl ago, with no evict,
   clear or overflow since, and every such put is a hit.
   */
  lemma HitIffLatestUnexpiredPut<V>(log: seq<Event<V>>, ttl: int, capacity: int, key: string, now: int, value: V)
    requires Ordered(log)
    requires |log| > 0 ==> log[|log| - 1].at <= now
    ensures Lookup(Replay(log, ttl, capacity), key, now) == Some(value)
       <==> exists i: nat :: LastStored(log, ttl, capacity, i, key) && log[i].op.value == value && now < log[i].at + ttl
  {
    var s := Replay(log, ttl, capacity);
    if Fresh(s, key, now) {
      var i := EntryComesFromPut(log, ttl, capacity, key);
      forall k: nat | LastStored(log, ttl, capacity, k, key) && now < log[k].at + ttl
        ensures log[k].op.value == s.entries[key].value
      {
        UnexpiredPutIsStored(log, ttl, capacity, k, key);
      }
    } else {
      forall k: nat | LastStored(log, ttl, capacity, k, key)
        ensures now >= log[k].at + ttl
      {
        if now < log[k].at + ttl {
          UnexpiredPutIsStored(log, ttl, capacity, k, key);
        }
      }
    }
  }

  /** A positive capacity bounds the size, and a non-positive ttl stores nothing. */
  lemma {:induction false} SizeBounded<V>(log: seq<Event<V>>, ttl: int, capacity: int)
    ensures capacity > 0 ==> |Replay(log, ttl, capacity).entries| <= capacity
    ensures ttl <= 0 ==> Replay(log, ttl, capacity).entries == map[]
  {
    if |log| > 0 {
      var before := Replay(log[..|log| - 1], ttl, capacity);
      ReplayKeepsParameters(log[..|log| - 1], ttl, capacity);
      SizeBounded(log[..|log| - 1], ttl, capacity);
      var after := Replay(log, ttl, capacity);
      match log[|log| - 1].op
      case Get(key) => ShrinkingBounds(before.entries, after.entries);
      case Put(key, _) => GrowsByOne(if Full(before) then map[] else before.entries, after.entries, key);
      case Evict(key) => ShrinkingBounds(before.entries, after.entries);
      case Clear =>
    }
  }

  /** The keys put since the last clear; a get or an evict takes none away. */
  function KeysPut<V>(log: seq<Event<V>>): set<string> {
    if |log| == 0 then {}
    else
      var last := log[|log| - 1].op;
      match last
      case Put(key, _) => KeysPut(log[..|log| - 1]) + {key}
      case Clear => {}
      case _ => KeysPut(log[..|log| - 1])
  }

  lemma {:induction false} EntriesWerePut<V>(log: seq<Event<V>>, ttl: int, capacity: int)
    ensures Replay(log, ttl, capacity).entries.Keys <= KeysPut(log)
  {
    if |log| > 0 {
      EntriesWerePut(log[..|log| - 1], ttl, capacity);
    }
  }

  /**
   Overflow in terms of the log alone: without a capacity, or while fewer keys than the capacity have been
   put since the last clear, a put ends the life of no other key.
   */
  lemma NoOverflowBelowCapacity<V>(log: seq<Event<V>>, ttl: int, capacity: int, j: nat, key: string)
    requires j < |log| && log[j].op.Put? && log[j].op.key != key
    requires capacity <= 0 || |KeysPut(log[..j])| < capacity
    ensures !Ends(log, ttl, capacity, j, key)
  {
    EntriesWerePut(log[..j], ttl, capacity);
    var entries := Replay(log[..j], ttl, capacity).entries;
    SubsetSize(entries.Keys, KeysPut(log[..j]));
    assert |entries| == |entries.Keys|;
  }

  lemma ShrinkingBounds<V>(before: map<string, V>, after: map<string, V>)
    requires after.Keys <= before.Keys
    ensures |after| <= |before|
  {
    SubsetSize(after.Keys, before.Keys);
    assert |after| == |after.Keys| && |before| == |before.Keys|;
  }

  lemma SubsetSize(a: set<string>, b: set<string>)
    requires a <= b
    ensures |a| <= |b|
  {
    assert b == a + (b - a);
  }

  lemma GrowsByOne<V>(before: map<string, V>, after: map<string, V>, key: string)
    requires after.Keys <= before.Keys + {key}
    ensures |after| <= |before| + 1
  {
    SubsetSize(after.Keys, before.Keys + {key});
    assert |after| == |after.Keys| && |before| == |before.Keys|;
  }
}
