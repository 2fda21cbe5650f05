// UTF-16 texts, their order, and entries sorted by key.
module Keyed {

  // One UTF-16 code unit. JavaScript strings are sequences of them.
  type Unit = x: int | 0 <= x < 0x1_0000

  type Text = seq<Unit>

  datatype Entry<+T> = Entry(key: Text, value: T)

  // The default order of Array.prototype.sort on strings: by code units, a prefix first.
  predicate Before(a: Text, b: Text) {
    b != [] && (a == [] || a[0] < b[0] || (a[0] == b[0] && Before(a[1..], b[1..])))
  }

  // At the first place where they differ the smaller code unit comes first; a text comes before its extensions.
  lemma {:induction false} BeforeAtFirstDifference(a: Text, b: Text)
    ensures Before(a, b) <==> a < b || exists k | 0 <= k < |a| && k < |b| :: a[..k] == b[..k] && a[k] < b[k]
  {
    if a != [] && b != [] && a[0] == b[0] {
      var x, y := a[1..], b[1..];
      BeforeAtFirstDifference(x, y);
      assert a == [a[0]] + x && b == [a[0]] + y;
      forall k | 0 <= k < |x| && k < |y|
        ensures x[..k] == y[..k] <==> a[..k + 1] == b[..k + 1]
      {
        assert a[..k + 1] == [a[0]] + x[..k] && b[..k + 1] == [a[0]] + y[..k];
        assert a[..k + 1][1..] == x[..k] && b[..k + 1][1..] == y[..k];
      }
      if exists k | 0 <= k < |x| && k < |y| :: x[..k] == y[..k] && x[k] < y[k] {
        var k :| 0 <= k < |x| && k < |y| && x[..k] == y[..k] && x[k] < y[k];
        assert a[..k + 1] == b[..k + 1] && a[k + 1] < b[k + 1];
      }
      if exists k | 0 <= k < |a| && k < |b| :: a[..k] == b[..k] && a[k] < b[k] {
        var k :| 0 <= k < |a| && k < |b| && a[..k] == b[..k] && a[k] < b[k];
        assert x[..k - 1] == y[..k - 1] && x[k - 1] < y[k - 1];
      }
    } else if a != [] && b != [] {
      assert a[..0] == b[..0];
    }
  }

  lemma {:induction false} BeforeIsTotal(a: Text, b: Text)
    ensures a == b || Before(a, b) || Before(b, a)
    ensures !(Before(a, b) && Before(b, a))
    ensures Before(a, b) ==> a != b
  {
    if a != [] && b != [] {
      BeforeIsTotal(a[1..], b[1..]);
      if a[0] == b[0] && a[1..] == b[1..] { assert a == [a[0]] + a[1..] == b; }
    }
  }

  lemma {:induction false} BeforeIsTransitive(a: Text, b: Text, c: Text)
    requires Before(a, b) && Before(b, c)
    ensures Before(a, c)
  {
    if a != [] && a[0] == b[0] == c[0] { BeforeIsTransitive(a[1..], b[1..], c[1..]); }
  }

  function Insert<T>(x: Entry<T>, sorted: seq<Entry<T>>): (r: seq<Entry<T>>)
    ensures |r| == |sorted| + 1
  {
    if sorted == [] || Before(x.key, sorted[0].key) then [x] + sorted
    else [sorted[0]] + Insert(x, sorted[1..])
  }

  function Sort<T>(entries: seq<Entry<T>>): (sorted: seq<Entry<T>>)
    ensures |sorted| == |entries|
  {
    if entries == [] then [] else Insert(entries[0], Sort(entries[1..]))
  }

  predicate DistinctKeys<T>(entries: seq<Entry<T>>) {
    forall i, j | 0 <= i < j < |entries| :: entries[i].key != entries[j].key
  }

  lemma {:induction false} InsertKeeps<T>(x: Entry<T>, sorted: seq<Entry<T>>)
    ensures forall e <- Insert(x, sorted) :: e == x || e in sorted
    ensures forall e <- sorted :: e in Insert(x, sorted)
    ensures x in Insert(x, sorted)
  {
    if sorted == [] || Before(x.key, sorted[0].key) {
      assert Insert(x, sorted) == [x] + sorted;
    } else {
      InsertKeeps(x, sorted[1..]);
      assert sorted == [sorted[0]] + sorted[1..];
    }
  }

  lemma {:induction false} SortKeeps<T>(entries: seq<Entry<T>>)
    ensures forall e <- Sort(entries) :: e in entries
    ensures forall e <- entries :: e in Sort(entries)
  {
    if entries != [] {
      SortKeeps(entries[1..]);
      InsertKeeps(entries[0], Sort(entries[1..]));
      assert entries == [entries[0]] + entries[1..];
    }
  }

  predicate Ascending<T>(entries: seq<Entry<T>>) {
    forall i, j | 0 <= i < j < |entries| :: Before(entries[i].key, entries[j].key)
  }

  lemma {:induction false} InsertAscends<T>(x: Entry<T>, sorted: seq<Entry<T>>)
    requires Ascending(sorted) && forall e | e in sorted :: e.key != x.key
    ensures Ascending(Insert(x, sorted))
  {
    var r := Insert(x, sorted);
    if sorted != [] {
      BeforeIsTotal(x.key, sorted[0].key);
      assert sorted[0] in sorted;
      if Before(x.key, sorted[0].key) {
        forall j | 0 <= j < |sorted|
          ensures Before(x.key, sorted[j].key)
        {
          if j > 0 { BeforeIsTransitive(x.key, sorted[0].key, sorted[j].key); }
        }
      } else {
        var rest := Insert(x, sorted[1..]);
        InsertAscends(x, sorted[1..]);
        InsertKeeps(x, sorted[1..]);
        forall j | 0 <= j < |rest|
          ensures Before(sorted[0].key, rest[j].key)
        {
          assert rest[j] in rest;
          if rest[j] != x {
            var tail := sorted[1..];
            assert rest[j] in tail;
            var i :| 0 <= i < |tail| && tail[i] == rest[j];
            assert Before(sorted[0].key, sorted[i + 1].key);
          }
        }
        assert r == [sorted[0]] + rest;
      }
    }
  }

  // Distinct keys come out strictly ascending.
  lemma {:induction false} SortAscends<T>(entries: seq<Entry<T>>)
    requires DistinctKeys(entries)
    ensures Ascending(Sort(entries))
  {
    if entries != [] {
      SortAscends(entries[1..]);
      SortKeeps(entries[1..]);
      forall e | e in Sort(entries[1..])
        ensures e.key != entries[0].key
      {
        var tail := entries[1..];
        assert e in tail;
        var i :| 0 <= i < |tail| && tail[i] == e;
        assert entries[i + 1].key != entries[0].key;
      }
      InsertAscends(entries[0], Sort(entries[1..]));
    }
  }

  lemma {:induction false} InsertsCommute<T>(x: Entry<T>, y: Entry<T>, sorted: seq<Entry<T>>)
    requires x.key != y.key
    ensures Insert(x, Insert(y, sorted)) == Insert(y, Insert(x, sorted))
  {
    BeforeIsTotal(x.key, y.key);
    if sorted != [] {
      var k := sorted[0].key;
      BeforeIsTotal(x.key, k);
      BeforeIsTotal(y.key, k);
      if Before(x.key, y.key) && Before(y.key, k) { BeforeIsTransitive(x.key, y.key, k); }
      if Before(y.key, x.key) && Before(x.key, k) { BeforeIsTransitive(y.key, x.key, k); }
      InsertsCommute(x, y, sorted[1..]);
    }
  }

  function Without<T>(entries: seq<T>, i: nat): seq<T>
    requires i < |entries|
  {
    entries[..i] + entries[i + 1..]
  }

  lemma {:induction false} SortTakesAnyFirst<T>(entries: seq<Entry<T>>, i: nat)
    requires DistinctKeys(entries) && i < |entries|
    ensures Sort(entries) == Insert(entries[i], Sort(Without(entries, i)))
    decreases i
  {
    if i > 0 {
      var rest := entries[1..];
      SortTakesAnyFirst(rest, i - 1);
      assert Without(entries, i)[1..] == Without(rest, i - 1);
      InsertsCommute(entries[0], entries[i], Sort(Without(rest, i - 1)));
    } else {
      assert Without(entries, 0) == entries[1..];
    }
  }

  // The order the entries came in does not matter.
  lemma {:induction false} SameEntriesSortAlike<T>(a: seq<Entry<T>>, b: seq<Entry<T>>)
    requires DistinctKeys(a) && DistinctKeys(b) && |a| == |b|
    requires forall e | e in a :: e in b
    ensures Sort(a) == Sort(b)
  {
    if a != [] {
      var x := a[0];
      assert x in b;
      var j :| 0 <= j < |b| && b[j] == x;
      var rest := Without(b, j);
      forall e | e in a[1..]
        ensures e in rest
      {
        assert e in a && e.key != x.key;
        var k :| 0 <= k < |b| && b[k] == e;
        assert if k < j then rest[k] == e else rest[k - 1] == e;
      }
      assert DistinctKeys(rest) by {
        assert forall k | 0 <= k < |rest| :: rest[k] == b[if k < j then k else k + 1];
      }
      SameEntriesSortAlike(a[1..], rest);
      SortTakesAnyFirst(b, j);
    }
  }

  /******* Sorting looks only at the keys *******/

  function MapEntries<T, U>(f: T -> U, entries: seq<Entry<T>>): (r: seq<Entry<U>>)
    ensures |r| == |entries|
    ensures forall i | 0 <= i < |r| :: r[i] == Entry(entries[i].key, f(entries[i].value))
  {
    if entries == [] then []
    else [Entry(entries[0].key, f(entries[0].value))] + MapEntries(f, entries[1..])
  }

  lemma {:induction false} InsertMaps<T, U>(f: T -> U, x: Entry<T>, sorted: seq<Entry<T>>)
    ensures Insert(Entry(x.key, f(x.value)), MapEntries(f, sorted)) == MapEntries(f, Insert(x, sorted))
  {
    if sorted != [] && !Before(x.key, sorted[0].key) {
      InsertMaps(f, x, sorted[1..]);
      assert MapEntries(f, sorted)[1..] == MapEntries(f, sorted[1..]);
    } else {
      assert Insert(x, sorted) == [x] + sorted;
    }
  }

  lemma {:induction false} SortMaps<T, U>(f: T -> U, entries: seq<Entry<T>>)
    ensures Sort(MapEntries(f, entries)) == MapEntries(f, Sort(entries))
  {
    if entries != [] {
      SortMaps(f, entries[1..]);
      InsertMaps(f, entries[0], Sort(entries[1..]));
    }
  }
}
