/**
 * `reorder` of src/lib/sortable/index.svelte.ts: the array update a drag in
 * a sortable list makes, moving one element from `oldIndex` to `newIndex`
 * in place.
 */
module Sortable {
  import opened Wrappers

  /** `s` without its element at `i`. */
  function RemoveAt<T>(s: seq<T>, i: nat): (r: seq<T>)
    requires i < |s|
    ensures |r| == |s| - 1
  {
    s[..i] + s[i + 1..]
  }

  /** `s` with `x` inserted so that it lands at index `j`. */
  function InsertAt<T>(s: seq<T>, j: nat, x: T): (r: seq<T>)
    requires j <= |s|
    ensures |r| == |s| + 1
  {
    s[..j] + [x] + s[j..]
  }

  /**
   * The two `splice` calls: take the element at `i` out, then put it back at
   * `j` of what is left.
   */
  function Moved<T>(s: seq<T>, i: nat, j: nat): (r: seq<T>)
    requires i < |s| && j < |s|
  {
    InsertAt(RemoveAt(s, i), j, s[i])
  }

  /**
   * Element by element: outside the range between the two indices nothing
   * moves, the moved element lands at `j`, and the elements in between shift
   * by one towards `i`.
   */
  lemma MovedAt<T>(s: seq<T>, i: nat, j: nat, m: nat)
    requires i < |s| && j < |s| && m < |s|
    ensures |Moved(s, i, j)| == |s|
    ensures Moved(s, i, j)[m] ==
      if m == j then s[i]
      else if i < j && i <= m < j then s[m + 1]
      else if j < i && j < m <= i then s[m - 1]
      else s[m]
  {
  }

  /** The move keeps the length and lands the element at `j`. */
  lemma MovedLands<T>(s: seq<T>, i: nat, j: nat)
    requires i < |s| && j < |s|
    ensures |Moved(s, i, j)| == |s| && Moved(s, i, j)[j] == s[i]
  {
    MovedAt(s, i, j, j);
  }

  /** Moving an element to where it already is changes nothing. */
  lemma MovedSame<T>(s: seq<T>, i: nat)
    requires i < |s|
    ensures Moved(s, i, i) == s
  {
    assert s[..i] + [s[i]] + s[i + 1..] == s;
  }

  /** The elements other than the moved one keep their relative order. */
  lemma MovedKeepsOthers<T>(s: seq<T>, i: nat, j: nat)
    requires i < |s| && j < |s|
    ensures RemoveAt(Moved(s, i, j), j) == RemoveAt(s, i)
  {
    var r := RemoveAt(s, i);
    assert Moved(s, i, j) == r[..j] + [s[i]] + r[j..];
    assert RemoveAt(Moved(s, i, j), j) == r[..j] + r[j..];
    assert r[..j] + r[j..] == r;
  }

  /** The move is a permutation: the same elements, as many times each. */
  lemma MovedPermutes<T>(s: seq<T>, i: nat, j: nat)
    requires i < |s| && j < |s|
    ensures multiset(Moved(s, i, j)) == multiset(s)
  {
    var r := RemoveAt(s, i);
    assert s == s[..i] + [s[i]] + s[i + 1..];
    assert multiset(s) == multiset(s[..i]) + multiset{s[i]} + multiset(s[i + 1..]);
    assert multiset(r) == multiset(s[..i]) + multiset(s[i + 1..]);
    assert r == r[..j] + r[j..];
    assert multiset(r) == multiset(r[..j]) + multiset(r[j..]);
    assert multiset(Moved(s, i, j)) == multiset(r[..j]) + multiset{s[i]} + multiset(r[j..]);
    assert multiset(Moved(s, i, j)) == multiset(r) + multiset{s[i]};
  }

  /** Moving back from `j` to `i` undoes the move. */
  lemma MovedBack<T>(s: seq<T>, i: nat, j: nat)
    requires i < |s| && j < |s|
    ensures Moved(Moved(s, i, j), j, i) == s
  {
    var t := Moved(s, i, j);
    MovedLands(s, i, j);
    MovedKeepsOthers(s, i, j);
    assert RemoveAt(t, j) == RemoveAt(s, i);
    var r := RemoveAt(s, i);
    assert Moved(t, j, i) == r[..i] + [s[i]] + r[i..];
    assert r[..i] == s[..i];
    assert r[i..] == s[i + 1..];
    assert s[..i] + [s[i]] + s[i + 1..] == s;
  }

  /**
   * `reorder(array, event)`. Without both indices, or with equal ones, the
   * array is left alone; otherwise the element at `oldIndex` is moved to
   * `newIndex`, shifting the ones in between. The array returned is the
   * argument.
   */
  method Reorder<T>(a: array<T>, oldIndex: Option<nat>, newIndex: Option<nat>) returns (r: array<T>)
    requires oldIndex.Some? ==> oldIndex.value < a.Length
    requires newIndex.Some? ==> newIndex.value < a.Length
    modifies a
    ensures r == a
    ensures oldIndex.None? || newIndex.None? ==> a[..] == old(a[..])
    ensures oldIndex.Some? && newIndex.Some? ==> a[..] == Moved(old(a[..]), oldIndex.value, newIndex.value)
  {
    if oldIndex.None? || newIndex.None? || oldIndex.value == newIndex.value {
      if oldIndex.Some? && newIndex.Some? {
        MovedSame(a[..], oldIndex.value);
      }
      return a;
    }
    var i, j := oldIndex.value, newIndex.value;
    var moved := a[i];
    if i < j {
      var k := i;
      while k < j
        invariant i <= k <= j
        invariant forall m :: 0 <= m < i ==> a[m] == old(a[m])
        invariant forall m :: i <= m < k ==> a[m] == old(a[m + 1])
        invariant forall m :: k <= m < a.Length ==> a[m] == old(a[m])
      {
        a[k] := a[k + 1];
        k := k + 1;
      }
    } else {
      var k := i;
      while k > j
        invariant j <= k <= i
        invariant forall m :: 0 <= m <= k ==> a[m] == old(a[m])
        invariant forall m :: k < m <= i ==> a[m] == old(a[m - 1])
        invariant forall m :: i < m < a.Length ==> a[m] == old(a[m])
      {
        a[k] := a[k - 1];
        k := k - 1;
      }
    }
    a[j] := moved;
    forall m | 0 <= m < a.Length
      ensures a[m] == Moved(old(a[..]), i, j)[m]
    {
      MovedAt(old(a[..]), i, j, m);
    }
    return a;
  }
}
