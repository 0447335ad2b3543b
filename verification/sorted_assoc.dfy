/**
 * Association lists kept in strictly increasing key order: the model of
 * the `Vec<(String, Vec<Kid>)>` that the license check keeps sorted with
 * `binary_search_by` + `insert`, and of the `BTreeMap` it fills per crate.
 */
module SortedAssoc {
  import opened Wrappers
  import opened StrUtil

  /** Keys strictly increase, so no key occurs twice. */
  predicate Sorted<V>(s: seq<(string, V)>) {
    forall i, j :: 0 <= i < j < |s| ==> Less(s[i].0, s[j].0)
  }

  /** The value stored under `k`. */
  function Lookup<V>(s: seq<(string, V)>, k: string): (r: Option<V>)
    ensures r.Some? <==> exists i :: 0 <= i < |s| && s[i].0 == k
  {
    if s == [] then None
    else if s[0].0 == k then Some(s[0].1)
    else Lookup(s[1..], k)
  }

  function LookupOr<V>(s: seq<(string, V)>, k: string, default: V): V {
    Lookup(s, k).GetOr(default)
  }

  /** In a sorted list the entry at `i` is the one `Lookup` finds. */
  lemma {:induction false} LookupAt<V>(s: seq<(string, V)>, i: nat)
    requires Sorted(s) && i < |s|
    ensures Lookup(s, s[i].0) == Some(s[i].1)
  {
    if i > 0 {
      assert Less(s[0].0, s[i].0);
      if s[0].0 == s[i].0 {
        LessIrreflexive(s[0].0);
      }
      assert s[1..][i - 1] == s[i];
      LookupAt(s[1..], i - 1);
    }
  }

  /**
   * Insert-or-replace, keeping the order (`BTreeMap::insert`; on the license
   * index, the two branches after `binary_search_by`).
   */
  function Put<V>(s: seq<(string, V)>, k: string, v: V): (r: seq<(string, V)>)
    requires Sorted(s)
    ensures Sorted(r)
    ensures forall i :: 0 <= i < |r| ==> r[i] == (k, v) || r[i] in s
  {
    if s == [] then [(k, v)]
    else if s[0].0 == k then [(k, v)] + s[1..]
    else if Less(k, s[0].0) then
      AbsentBelowFirst(s, k);
      var r := [(k, v)] + s;
      forall i, j | 0 <= i < j < |r| ensures Less(r[i].0, r[j].0) {
        if i == 0 && j > 1 {
          LessTransitive(k, s[0].0, s[j - 1].0);
        }
      }
      r
    else
      LessTotal(k, s[0].0);
      var t := Put(s[1..], k, v);
      var r := [s[0]] + t;
      forall i, j | 0 <= i < j < |r| ensures Less(r[i].0, r[j].0) {
        if i == 0 {
          if r[j] != (k, v) {
            assert r[j] in s[1..];
            var m :| 0 <= m < |s[1..]| && s[1..][m] == r[j];
            assert s[m + 1] == r[j];
          }
        }
      }
      r
  }

  /**
   * After `Put`, the key maps to the new value, every other key keeps its
   * value, and the list grows only for a new key.
   */
  lemma {:induction false} PutLookup<V>(s: seq<(string, V)>, k: string, v: V)
    requires Sorted(s)
    ensures Lookup(Put(s, k, v), k) == Some(v)
    ensures forall k' :: k' != k ==> Lookup(Put(s, k, v), k') == Lookup(s, k')
    ensures |Put(s, k, v)| == if Lookup(s, k).Some? then |s| else |s| + 1
  {
    if s != [] && s[0].0 != k {
      if Less(k, s[0].0) {
        AbsentBelowFirst(s, k);
      } else {
        LessTotal(k, s[0].0);
        SortedTail(s);
        PutLookup(s[1..], k, v);
      }
    }
  }

  /** A key below the first key is absent. */
  lemma AbsentBelowFirst<V>(s: seq<(string, V)>, k: string)
    requires Sorted(s) && s != [] && Less(k, s[0].0)
    ensures Lookup(s, k).None?
  {
    forall i | 0 <= i < |s| ensures s[i].0 != k {
      if i > 0 {
        LessTransitive(k, s[0].0, s[i].0);
      }
      LessIrreflexive(k);
    }
  }

  /** Strict order of keys makes the key unique. */
  lemma {:induction false} SortedTail<V>(s: seq<(string, V)>)
    requires Sorted(s) && s != []
    ensures Sorted(s[1..]) && Lookup(s[1..], s[0].0).None?
  {
    if Lookup(s[1..], s[0].0).Some? {
      var i :| 0 <= i < |s[1..]| && s[1..][i].0 == s[0].0;
      assert Less(s[0].0, s[i + 1].0);
      LessIrreflexive(s[0].0);
    }
  }

  /** `binary_search_by` on the key: the index of `key`, or where it would be inserted. */
  method BinarySearch<V>(s: seq<(string, V)>, key: string) returns (found: bool, i: nat)
    requires Sorted(s)
    ensures i <= |s|
    ensures found ==> i < |s| && s[i].0 == key
    ensures !found ==> forall j :: 0 <= j < i ==> Less(s[j].0, key)
    ensures !found ==> forall j :: i <= j < |s| ==> Less(key, s[j].0)
  {
    var lo, hi := 0, |s|;
    while lo < hi
      invariant 0 <= lo <= hi <= |s|
      invariant forall j :: 0 <= j < lo ==> Less(s[j].0, key)
      invariant forall j :: hi <= j < |s| ==> Less(key, s[j].0)
    {
      var mid := (lo + hi) / 2;
      if s[mid].0 == key {
        return true, mid;
      } else if Less(s[mid].0, key) {
        forall j | lo <= j < mid ensures Less(s[j].0, key) {
          LessTransitive(s[j].0, s[mid].0, key);
        }
        lo := mid + 1;
      } else {
        LessTotal(s[mid].0, key);
        forall j | mid < j < hi ensures Less(key, s[j].0) {
          LessTransitive(key, s[mid].0, s[j].0);
        }
        hi := mid;
      }
    }
    return false, lo;
  }

  /** A key strictly between the keys before `i` and the keys from `i` on is absent. */
  lemma AbsentByBounds<V>(s: seq<(string, V)>, k: string, i: nat)
    requires i <= |s|
    requires forall j :: 0 <= j < i ==> Less(s[j].0, k)
    requires forall j :: i <= j < |s| ==> Less(k, s[j].0)
    ensures Lookup(s, k).None?
  {
    forall j | 0 <= j < |s|
      ensures s[j].0 != k
    {
      LessIrreflexive(k);
    }
  }

  /** Past a smaller first key, `Put` keeps that entry and puts into the rest. */
  lemma PutPast<V>(s: seq<(string, V)>, k: string, v: V)
    requires Sorted(s) && s != [] && Less(s[0].0, k)
    ensures Sorted(s[1..])
    ensures Put(s, k, v) == [s[0]] + Put(s[1..], k, v)
  {
    SortedTail(s);
    LessIrreflexive(k);
    LessAsymmetric(s[0].0, k);
  }

  /** When the key is present at `i`, `Put` replaces that entry in place. */
  lemma {:induction false} PutFound<V>(s: seq<(string, V)>, k: string, v: V, i: nat)
    requires Sorted(s) && i < |s| && s[i].0 == k
    ensures Put(s, k, v) == s[i := (k, v)]
  {
    if i == 0 {
      assert s[0 := (k, v)] == [(k, v)] + s[1..];
    } else {
      var t := s[1..];
      assert Less(s[0].0, k);
      PutPast(s, k, v);
      assert t[i - 1].0 == k;
      PutFound(t, k, v, i - 1);
      assert s[i := (k, v)] == [s[0]] + t[i - 1 := (k, v)];
    }
  }

  lemma ConsAssoc<T>(a: T, x: seq<T>, m: T, y: seq<T>)
    ensures [a] + (x + [m] + y) == ([a] + x) + [m] + y
  {
  }

  lemma InsertBoundsTail<V>(s: seq<(string, V)>, k: string, i: nat)
    requires Sorted(s) && 0 < i <= |s|
    requires forall j :: 0 <= j < i ==> Less(s[j].0, k)
    requires forall j :: i <= j < |s| ==> Less(k, s[j].0)
    ensures Sorted(s[1..])
    ensures forall j :: 0 <= j < i - 1 ==> Less(s[1..][j].0, k)
    ensures forall j :: i - 1 <= j < |s[1..]| ==> Less(k, s[1..][j].0)
  {
    SortedTail(s);
  }

  /** When the key is absent and belongs at `i`, `Put` inserts there. */
  lemma {:induction false} PutInsert<V>(s: seq<(string, V)>, k: string, v: V, i: nat)
    requires Sorted(s) && i <= |s|
    requires forall j :: 0 <= j < i ==> Less(s[j].0, k)
    requires forall j :: i <= j < |s| ==> Less(k, s[j].0)
    ensures Put(s, k, v) == s[..i] + [(k, v)] + s[i..]
  {
    if s != [] {
      if i == 0 {
        assert Put(s, k, v) == [(k, v)] + s by {
          assert Less(k, s[0].0);
          LessIrreflexive(k);
        }
      } else {
        var t := s[1..];
        assert Less(s[0].0, k);
        PutPast(s, k, v);
        InsertBoundsTail(s, k, i);
        PutInsert(t, k, v, i - 1);
        assert s[..i] == [s[0]] + t[..i - 1];
        assert s[i..] == t[i - 1..];
        ConsAssoc(s[0], t[..i - 1], (k, v), t[i - 1..]);
      }
    }
  }
}
