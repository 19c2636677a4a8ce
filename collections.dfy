/** The array idioms the shop applies to its id-carrying records:
    `find`/`findIndex` on an id, `filter` on an id, the fresh id
    `Math.max(...ids) + 1` (or 1 for an empty array), and `splice(index, 1)`.
    Each is generic in the record type and takes the function that reads
    the record's id. */
module Collections {
  import opened Wrappers

  /** Some record of `s` has id `id`. */
  predicate HasKey<T>(s: seq<T>, key: T -> int, id: int) {
    exists i :: 0 <= i < |s| && key(s[i]) == id
  }

  /** No id occurs twice in `s`. */
  predicate UniqueKeys<T>(s: seq<T>, key: T -> int) {
    forall i, j :: 0 <= i < j < |s| ==> key(s[i]) != key(s[j])
  }

  /** Ids strictly increase along `s` (the order in which they were issued). */
  predicate IncreasingKeys<T>(s: seq<T>, key: T -> int) {
    forall i, j :: 0 <= i < j < |s| ==> key(s[i]) < key(s[j])
  }

  lemma IncreasingKeysAreUnique<T>(s: seq<T>, key: T -> int)
    requires IncreasingKeys(s, key)
    ensures UniqueKeys(s, key)
  {
  }

  /** `findIndex(r => r.id === id)`, with `None` for -1: the FIRST record
      carrying the id. `find` is this index followed by a read. */
  function FindIndex<T>(s: seq<T>, key: T -> int, id: int): (r: Option<nat>)
    ensures r.Some? ==> r.value < |s| && key(s[r.value]) == id
    ensures r.Some? ==> forall j :: 0 <= j < r.value ==> key(s[j]) != id
    ensures r.None? <==> !HasKey(s, key, id)
  {
    if |s| == 0 then None
    else if key(s[0]) == id then Some(0)
    else
      match FindIndex(s[1..], key, id)
      case None =>
        assert forall j :: 1 <= j < |s| ==> key(s[j]) == key(s[1..][j - 1]);
        None
      case Some(i) => Some(i + 1)
  }

  /** `findIndex` returns a position holding the id when none before it does. */
  lemma FindIndexAt<T>(s: seq<T>, key: T -> int, id: int, i: nat)
    requires i < |s| && key(s[i]) == id
    requires forall j :: 0 <= j < i ==> key(s[j]) != id
    ensures FindIndex(s, key, id) == Some(i)
  {
    assert HasKey(s, key, id);
  }

  /** `findIndex` on an array with one more record at the end: the old answer
      if there was one, else the new position if the new record matches. */
  lemma FindIndexSnoc<T>(s: seq<T>, x: T, key: T -> int, id: int)
    ensures FindIndex(s + [x], key, id) ==
      if HasKey(s, key, id) then FindIndex(s, key, id)
      else if key(x) == id then Some(|s|)
      else None
  {
    var t := s + [x];
    assert forall j :: 0 <= j < |s| ==> t[j] == s[j];
    match FindIndex(s, key, id)
    case Some(i) => FindIndexAt(t, key, id, i);
    case None =>
      if key(x) == id {
        FindIndexAt(t, key, id, |s|);
      } else {
        assert !HasKey(t, key, id);
      }
  }

  /** With unique ids, `findIndex` on the id of a record returns that record's position. */
  lemma FindIndexOfUnique<T>(s: seq<T>, key: T -> int, k: nat)
    requires UniqueKeys(s, key) && k < |s|
    ensures FindIndex(s, key, key(s[k])) == Some(k)
  {
  }

  /** `Math.max(...s.map(key))` on a non-empty array. */
  function MaxKey<T>(s: seq<T>, key: T -> int): (m: int)
    requires |s| > 0
    ensures forall i :: 0 <= i < |s| ==> key(s[i]) <= m
    ensures exists i :: 0 <= i < |s| && key(s[i]) == m
  {
    if |s| == 1 then key(s[0])
    else
      var rest := MaxKey(s[1..], key);
      assert forall i :: 1 <= i < |s| ==> key(s[i]) == key(s[1..][i - 1]);
      if key(s[0]) > rest then key(s[0])
      else
        var w :| 0 <= w < |s| - 1 && key(s[1..][w]) == rest;
        assert key(s[w + 1]) == rest;
        rest
  }

  /** The id given to a new record: one more than the largest id in use, or 1
      when the array is empty. */
  function NextId<T>(s: seq<T>, key: T -> int): (id: int)
    ensures forall i :: 0 <= i < |s| ==> key(s[i]) < id
    ensures !HasKey(s, key, id)
    ensures |s| == 0 ==> id == 1
    ensures |s| > 0 ==> HasKey(s, key, id - 1)
  {
    if |s| > 0 then MaxKey(s, key) + 1 else 1
  }

  /** Appending a record with the next id keeps ids increasing. */
  lemma AppendNextIdIncreasing<T>(s: seq<T>, key: T -> int, x: T)
    requires IncreasingKeys(s, key) && key(x) == NextId(s, key)
    ensures IncreasingKeys(s + [x], key)
  {
  }

  /** `s.filter(r => r.id !== id)`: every record with another id, in order. */
  function Without<T>(s: seq<T>, key: T -> int, id: int): (r: seq<T>)
    ensures |r| <= |s|
    ensures !HasKey(r, key, id)
  {
    if |s| == 0 then []
    else
      var rest := Without(s[1..], key, id);
      if key(s[0]) == id then rest else [s[0]] + rest
  }

  /** The records kept by `Without` are exactly those of `s` with another id. */
  lemma {:induction false} WithoutMembers<T>(s: seq<T>, key: T -> int, id: int, x: T)
    ensures x in Without(s, key, id) <==> x in s && key(x) != id
  {
    if |s| > 0 {
      WithoutMembers(s[1..], key, id, x);
      assert x in s <==> x == s[0] || x in s[1..] by {
        assert s == [s[0]] + s[1..];
      }
    }
  }

  /** Filtering distributes over concatenation: the kept records stay in
      their original relative order. */
  lemma {:induction false} WithoutConcat<T>(a: seq<T>, b: seq<T>, key: T -> int, id: int)
    ensures Without(a + b, key, id) == Without(a, key, id) + Without(b, key, id)
  {
    if |a| == 0 {
      assert a + b == b;
    } else {
      assert (a + b)[1..] == a[1..] + b;
      WithoutConcat(a[1..], b, key, id);
    }
  }

  /** Filtering out an id nobody has changes nothing. */
  lemma {:induction false} WithoutAbsent<T>(s: seq<T>, key: T -> int, id: int)
    requires !HasKey(s, key, id)
    ensures Without(s, key, id) == s
  {
    if |s| > 0 {
      assert !HasKey(s[1..], key, id) by {
        forall j | 0 <= j < |s| - 1 ensures key(s[1..][j]) != id {
          assert s[1..][j] == s[j + 1];
        }
      }
      WithoutAbsent(s[1..], key, id);
      assert [s[0]] + s[1..] == s;
    }
  }

  /** A slice of `s` whose records all avoid `id` does not have it. */
  lemma SliceLacksKey<T>(s: seq<T>, key: T -> int, id: int, lo: nat, hi: nat)
    requires lo <= hi <= |s|
    requires forall j :: lo <= j < hi ==> key(s[j]) != id
    ensures !HasKey(s[lo..hi], key, id)
  {
    forall j | 0 <= j < hi - lo ensures key(s[lo..hi][j]) != id {
      assert s[lo..hi][j] == s[lo + j];
    }
  }

  lemma SplitAt<T>(s: seq<T>, k: nat)
    requires k < |s|
    ensures s == s[..k] + ([s[k]] + s[k + 1..])
  {
  }

  /** A record carrying the deleted id is dropped. */
  lemma WithoutDropsHead<T>(x: T, t: seq<T>, key: T -> int)
    ensures Without([x] + t, key, key(x)) == Without(t, key, key(x))
  {
    assert ([x] + t)[1..] == t;
  }

  /** With unique ids, deleting the id of the record at `k` removes exactly
      that record and keeps the others in order. */
  lemma WithoutUniqueAt<T>(s: seq<T>, key: T -> int, k: nat)
    requires UniqueKeys(s, key) && k < |s|
    ensures Without(s, key, key(s[k])) == s[..k] + s[k + 1..]
  {
    var id := key(s[k]);
    var before, after := s[..k], s[k + 1..];
    SliceLacksKey(s, key, id, 0, k);
    SliceLacksKey(s, key, id, k + 1, |s|);
    assert s[0..k] == before && s[k + 1..|s|] == after;
    WithoutAbsent(before, key, id);
    WithoutAbsent(after, key, id);
    var mid := [s[k]] + after;
    WithoutDropsHead(s[k], after, key);
    SplitAt(s, k);
    WithoutConcat(before, mid, key, id);
    calc {
      Without(s, key, id);
      Without(before, key, id) + Without(mid, key, id);
      before + after;
    }
  }

  /** Deleting keeps the survivors' ids increasing. */
  lemma {:induction false} WithoutIncreasing<T>(s: seq<T>, key: T -> int, id: int)
    requires IncreasingKeys(s, key)
    ensures IncreasingKeys(Without(s, key, id), key)
  {
    if |s| > 0 {
      assert IncreasingKeys(s[1..], key);
      WithoutIncreasing(s[1..], key, id);
      var rest := Without(s[1..], key, id);
      forall x | x in rest ensures key(s[0]) < key(x) {
        WithoutMembers(s[1..], key, id, x);
        var j :| 0 <= j < |s| - 1 && s[1..][j] == x;
        assert s[j + 1] == x;
      }
    }
  }

  /** The position `splice(index, 1)` starts at: a negative index counts back
      from the end (clamped at 0), an index past the end is clamped to it. */
  function SpliceStart(len: nat, index: int): (p: nat)
    ensures p <= len
    ensures 0 <= index <= len ==> p == index
    ensures -(len as int) <= index < 0 ==> p == len + index
    ensures index < -(len as int) ==> p == 0
    ensures index > len ==> p == len
  {
    if index < 0 then (if len + index < 0 then 0 else len + index)
    else if index > len then len
    else index
  }

  /** `s.splice(index, 1)` on an integer index. */
  function SpliceOne<T>(s: seq<T>, index: int): (r: seq<T>)
    ensures 0 <= index < |s| ==> r == s[..index] + s[index + 1..]
    ensures -|s| <= index < 0 ==> r == s[..|s| + index] + s[|s| + index + 1..]
    ensures index < -|s| && |s| > 0 ==> r == s[1..]
    ensures index >= |s| ==> r == s
    ensures |s| == 0 ==> r == []
  {
    var p := SpliceStart(|s|, index);
    if p < |s| then s[..p] + s[p + 1..] else s
  }

  /** Position `i` of `s` with the record at `p` removed is read from `s` at
      `i` before `p` and at `i + 1` from `p` on. */
  lemma RemovedAt<T>(s: seq<T>, p: nat, i: nat)
    requires p < |s| && i < |s| - 1
    ensures (s[..p] + s[p + 1..])[i] == s[if i < p then i else i + 1]
  {
  }

  /** Removing one record from an array with unique ids keeps them unique. */
  lemma SpliceOneUnique<T>(s: seq<T>, key: T -> int, index: int)
    requires UniqueKeys(s, key)
    ensures UniqueKeys(SpliceOne(s, index), key)
  {
    var p := SpliceStart(|s|, index);
    if p < |s| {
      var r := s[..p] + s[p + 1..];
      assert SpliceOne(s, index) == r;
      forall i, j | 0 <= i < j < |r| ensures key(r[i]) != key(r[j]) {
        RemovedAt(s, p, i);
        RemovedAt(s, p, j);
      }
    }
  }
}
