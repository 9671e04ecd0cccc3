/**
 slices.Sorted(maps.Keys(m)): the keys in ascending byte order, whatever order the map yields them in.
 */
module Ordering {

  /** The order of Go strings. */
  predicate Less(a: string, b: string) {
    if b == "" then false
    else if a == "" then true
    else if a[0] != b[0] then a[0] < b[0]
    else Less(a[1..], b[1..])
  }

  /** The first difference decides: a byte, or the end of the shorter text. */
  lemma {:induction false} LessIff(a: string, b: string)
    ensures Less(a, b) <==>
            exists n: nat :: n <= |a| && n < |b| && a[..n] == b[..n] && (n == |a| || a[n] < b[n])
  {
    if a != "" && b != "" && a[0] == b[0] {
      LessIff(a[1..], b[1..]);
      if Less(a, b) {
        var n: nat :| n <= |a| - 1 && n < |b| - 1 && a[1..][..n] == b[1..][..n] && (n == |a| - 1 || a[1..][n] < b[1..][n]);
        assert a[..n + 1] == [a[0]] + a[1..][..n] && b[..n + 1] == [b[0]] + b[1..][..n];
        assert n + 1 == |a| || a[n + 1] < b[n + 1];
      }
      forall n: nat | n <= |a| && n < |b| && a[..n] == b[..n] && (n == |a| || a[n] < b[n])
        ensures Less(a, b)
      {
        assert a[1..][..n - 1] == a[..n][1..] && b[1..][..n - 1] == b[..n][1..];
        assert n - 1 == |a[1..]| || a[1..][n - 1] < b[1..][n - 1];
      }
    } else if Less(a, b) {
      assert a[..0] == b[..0];
    }
  }

  lemma {:induction false} LessIsTotal(a: string, b: string)
    ensures a == b || Less(a, b) || Less(b, a)
  {
    if a != "" && b != "" && a[0] == b[0] {
      LessIsTotal(a[1..], b[1..]);
      assert a == [a[0]] + a[1..] && b == [b[0]] + b[1..];
    }
  }

  lemma {:induction false} LessIsTransitive(a: string, b: string, c: string)
    requires Less(a, b) && Less(b, c)
    ensures Less(a, c)
  {
    if a != "" && a[0] == b[0] && b[0] == c[0] {
      LessIsTransitive(a[1..], b[1..], c[1..]);
    }
  }

  lemma {:induction false} LessIsIrreflexive(a: string)
    ensures !Less(a, a)
  {
    if a != "" {
      LessIsIrreflexive(a[1..]);
    }
  }

  ghost predicate Ascending(keys: seq<string>) {
    forall i, j :: 0 <= i < j < |keys| ==> Less(keys[i], keys[j])
  }

  /** `sorted` lists the keys once each, in order. */
  ghost predicate Sorts(sorted: seq<string>, keys: set<string>) {
    Ascending(sorted) && forall k :: k in sorted <==> k in keys
  }

  function Insert(sorted: seq<string>, key: string): seq<string> {
    if sorted == [] then [key]
    else if Less(key, sorted[0]) then [key] + sorted
    else [sorted[0]] + Insert(sorted[1..], key)
  }

  lemma {:induction false} InsertKeepsOrder(sorted: seq<string>, key: string)
    requires Ascending(sorted) && key !in sorted
    ensures Ascending(Insert(sorted, key))
    ensures forall k :: k in Insert(sorted, key) <==> k == key || k in sorted
  {
    if sorted != [] {
      if Less(key, sorted[0]) {
        forall j | 0 <= j < |sorted|
          ensures Less(key, sorted[j])
        {
          if j > 0 {
            LessIsTransitive(key, sorted[0], sorted[j]);
          }
        }
      } else {
        LessIsTotal(key, sorted[0]);
        InsertKeepsOrder(sorted[1..], key);
        var rest := Insert(sorted[1..], key);
        forall j | 0 <= j < |rest|
          ensures Less(sorted[0], rest[j])
        {
          assert rest[j] in rest;
        }
      }
    }
  }

  lemma {:induction false} SortedIsUnique(a: seq<string>, b: seq<string>, keys: set<string>)
    requires Sorts(a, keys) && Sorts(b, keys)
    ensures a == b
  {
    assert a != [] ==> a[0] in b;
    assert b != [] ==> b[0] in a;
    if a != [] && b != [] {
      LeastIsFirst(a, b[0]);
      LeastIsFirst(b, a[0]);
      if a[0] != b[0] {
        LessIsTransitive(a[0], b[0], a[0]);
        LessIsIrreflexive(a[0]);
      }
      TailSorts(a, keys);
      TailSorts(b, keys);
      SortedIsUnique(a[1..], b[1..], keys - {a[0]});
      assert a == [a[0]] + a[1..] && b == [b[0]] + b[1..];
    }
  }

  lemma LeastIsFirst(sorted: seq<string>, key: string)
    requires Ascending(sorted) && key in sorted
    ensures key == sorted[0] || Less(sorted[0], key)
  {
  }

  lemma TailSorts(sorted: seq<string>, keys: set<string>)
    requires Sorts(sorted, keys) && sorted != []
    ensures Sorts(sorted[1..], keys - {sorted[0]})
  {
    LessIsIrreflexive(sorted[0]);
    assert forall k :: k in sorted <==> k == sorted[0] || k in sorted[1..];
  }

  ghost function Sorted(keys: set<string>): (sorted: seq<string>)
    ensures Sorts(sorted, keys)
  {
    if keys == {} then []
    else
      var key :| key in keys;
      InsertKeepsOrder(Sorted(keys - {key}), key);
      Insert(Sorted(keys - {key}), key)
  }

  /** The result does not depend on the order in which the keys are taken. */
  method SortKeys(keys: set<string>) returns (sorted: seq<string>)
    ensures sorted == Sorted(keys)
  {
    sorted := [];
    var rest := keys;
    while rest != {}
      invariant rest <= keys
      invariant Sorts(sorted, keys - rest)
    {
      var key :| key in rest;
      InsertKeepsOrder(sorted, key);
      sorted := Insert(sorted, key);
      rest := rest - {key};
    }
    assert keys - rest == keys;
    SortedIsUnique(sorted, Sorted(keys), keys);
  }
}
