/**
 * The key normalisation of src/lib/supabase/channel.ts: realtime payloads
 * arrive with snake_case keys and are rewritten to camelCase, recursively,
 * before the handlers see them.
 */
module Channel {
  import opened Wrappers
  import opened Text

  // ---------------------------------------------------------------------
  // camelize
  // ---------------------------------------------------------------------

  /** `s` has an underscore followed by a lowercase ASCII letter at `i`. */
  predicate SnakeAt(s: string, i: int) {
    0 <= i && i + 1 < |s| && s[i] == '_' && IsAsciiLower(s[i + 1])
  }

  /** `s` has no underscore followed by a lowercase ASCII letter. */
  predicate NoSnake(s: string) {
    forall i :: 0 <= i < |s| ==> !SnakeAt(s, i)
  }

  /**
   * `str.replace(/_([a-z])/g, (g) => g[1].toUpperCase())`: scanning left to
   * right, every "_" followed by a lowercase letter becomes that letter in
   * upper case; every other character is kept.
   */
  function Camelize(s: string): (r: string)
    ensures s == [] <==> r == []
    ensures r != [] && IsAsciiLower(r[0]) ==> r[0] == s[0]
    ensures r != [] && r[0] == '_' ==> s[0] == '_' && !SnakeAt(s, 0)
  {
    if s == [] then []
    else if SnakeAt(s, 0) then [UpperChar(s[1])] + Camelize(s[2..])
    else [s[0]] + Camelize(s[1..])
  }

  /** How many replacements `Camelize` makes. */
  function Replacements(s: string): nat {
    if s == [] then 0
    else if SnakeAt(s, 0) then 1 + Replacements(s[2..])
    else Replacements(s[1..])
  }

  /** Each replacement removes one character. */
  lemma {:induction false} CamelizeLength(s: string)
    ensures |Camelize(s)| == |s| - Replacements(s)
    ensures Replacements(s) <= |s| / 2
  {
    if s != [] {
      if SnakeAt(s, 0) {
        CamelizeLength(s[2..]);
      } else {
        CamelizeLength(s[1..]);
      }
    }
  }

  lemma NoSnakeCons(c: char, t: string)
    requires NoSnake(t)
    requires c == '_' ==> t == [] || !IsAsciiLower(t[0])
    ensures NoSnake([c] + t)
  {
    var s := [c] + t;
    forall i | 0 <= i < |s|
      ensures !SnakeAt(s, i)
    {
      if i > 0 {
        assert !SnakeAt(t, i - 1);
      }
    }
  }

  /** No underscore followed by a lowercase letter is left. */
  lemma {:induction false} CamelizeNoSnake(s: string)
    ensures NoSnake(Camelize(s))
  {
    if s != [] {
      if SnakeAt(s, 0) {
        CamelizeNoSnake(s[2..]);
        assert UpperChar(s[1]) != '_';
        NoSnakeCons(UpperChar(s[1]), Camelize(s[2..]));
      } else {
        var t := Camelize(s[1..]);
        CamelizeNoSnake(s[1..]);
        NoSnakeCons(s[0], t);
      }
    }
  }

  /** A string without an underscore followed by a lowercase letter is left alone. */
  lemma {:induction false} CamelizeFixed(s: string)
    requires NoSnake(s)
    ensures Camelize(s) == s
  {
    if s != [] {
      assert !SnakeAt(s, 0);
      assert NoSnake(s[1..]) by {
        forall i | 0 <= i < |s[1..]|
          ensures !SnakeAt(s[1..], i)
        {
          assert !SnakeAt(s, i + 1);
        }
      }
      CamelizeFixed(s[1..]);
      assert [s[0]] + s[1..] == s;
    }
  }

  /** A string without underscores is left alone. */
  lemma CamelizeNoUnderscore(s: string)
    requires '_' !in s
    ensures Camelize(s) == s
  {
    CamelizeFixed(s);
  }

  /** `camelize` is idempotent. */
  lemma CamelizeIdempotent(s: string)
    ensures Camelize(Camelize(s)) == Camelize(s)
  {
    CamelizeNoSnake(s);
    CamelizeFixed(Camelize(s));
  }

  // ---------------------------------------------------------------------
  // JSON values and objects
  // ---------------------------------------------------------------------

  /** A JSON-like payload. An object is its (key, value) entries in key order. */
  datatype Json =
    | Null
    | Undefined
    | Bool(b: bool)
    | Number(n: int)
    | Str(s: string)
    | Arr(items: seq<Json>)
    | Obj(entries: seq<(string, Json)>)

  /** JavaScript objects hold each key once. */
  predicate DistinctKeys(entries: seq<(string, Json)>) {
    forall i, j :: 0 <= i < j < |entries| ==> entries[i].0 != entries[j].0
  }

  /** `obj[key]`. */
  function Lookup(entries: seq<(string, Json)>, key: string): Option<Json> {
    if entries == [] then None
    else if entries[0].0 == key then Some(entries[0].1)
    else Lookup(entries[1..], key)
  }

  /** A key is found exactly when some entry carries it. */
  lemma {:induction false} LookupFinds(entries: seq<(string, Json)>, key: string)
    ensures Lookup(entries, key).Some? <==> exists i :: 0 <= i < |entries| && entries[i].0 == key
  {
    if entries != [] {
      LookupFinds(entries[1..], key);
      if Lookup(entries[1..], key).Some? {
        var i :| 0 <= i < |entries[1..]| && entries[1..][i].0 == key;
        assert entries[i + 1].0 == key;
      }
      if exists i :: 0 <= i < |entries| && entries[i].0 == key {
        var i :| 0 <= i < |entries| && entries[i].0 == key;
        if i > 0 {
          assert entries[1..][i - 1].0 == key;
        }
      }
    }
  }

  /**
   * `out[key] = value`: an existing key keeps its place and takes the new
   * value; a new key goes at the end.
   */
  function Assign(entries: seq<(string, Json)>, key: string, value: Json): (r: seq<(string, Json)>)
    ensures Lookup(r, key) == Some(value)
    ensures forall k :: k != key ==> Lookup(r, k) == Lookup(entries, k)
    ensures Lookup(entries, key).Some? ==>
      |r| == |entries| && forall i :: 0 <= i < |r| ==> r[i].0 == entries[i].0
    ensures Lookup(entries, key).None? ==> r == entries + [(key, value)]
  {
    if entries == [] then [(key, value)]
    else if entries[0].0 == key then [(key, value)] + entries[1..]
    else [entries[0]] + Assign(entries[1..], key, value)
  }

  /** Assigning keeps the keys distinct. */
  lemma AssignDistinct(entries: seq<(string, Json)>, key: string, value: Json)
    requires DistinctKeys(entries)
    ensures DistinctKeys(Assign(entries, key, value))
  {
    LookupFinds(entries, key);
  }

  /** The entries written by `out[k] = v` for each pair in turn, starting from `{}`. */
  function AssignAll(pairs: seq<(string, Json)>): (r: seq<(string, Json)>)
    ensures DistinctKeys(r)
  {
    if pairs == [] then []
    else
      var init := AssignAll(pairs[..|pairs| - 1]);
      AssignDistinct(init, pairs[|pairs| - 1].0, pairs[|pairs| - 1].1);
      Assign(init, pairs[|pairs| - 1].0, pairs[|pairs| - 1].1)
  }

  /** The value of the last pair with key `key`, if any. */
  function LastValue(pairs: seq<(string, Json)>, key: string): Option<Json> {
    if pairs == [] then None
    else if pairs[|pairs| - 1].0 == key then Some(pairs[|pairs| - 1].1)
    else LastValue(pairs[..|pairs| - 1], key)
  }

  /** When two pairs share a key, the later one wins. */
  lemma {:induction false} AssignAllLastWins(pairs: seq<(string, Json)>, key: string)
    ensures Lookup(AssignAll(pairs), key) == LastValue(pairs, key)
  {
    if pairs != [] {
      AssignAllLastWins(pairs[..|pairs| - 1], key);
    }
  }

  /** Writing pairs with distinct keys into `{}` gives those pairs back, in order. */
  lemma {:induction false} AssignAllDistinct(pairs: seq<(string, Json)>)
    requires DistinctKeys(pairs)
    ensures AssignAll(pairs) == pairs
  {
    if pairs != [] {
      var init := pairs[..|pairs| - 1];
      var last := pairs[|pairs| - 1];
      assert DistinctKeys(init);
      AssignAllDistinct(init);
      LookupFinds(init, last.0);
      assert forall i :: 0 <= i < |init| ==> init[i].0 == pairs[i].0 != last.0;
      assert init + [last] == pairs;
    }
  }

  // ---------------------------------------------------------------------
  // camelizeKeys
  // ---------------------------------------------------------------------

  /**
   * `camelizeKeys(input)`: null, undefined and primitives are returned as
   * they are; arrays are normalised element by element; an object is
   * rebuilt by writing each camelized key with its normalised value, in key
   * order, into an empty object.
   */
  function CamelizeKeys(j: Json): Json
    decreases j
  {
    match j
    case Arr(items) => Arr(seq(|items|, i requires 0 <= i < |items| => CamelizeKeys(items[i])))
    case Obj(entries) =>
      Obj(AssignAll(seq(|entries|, i requires 0 <= i < |entries| =>
        (Camelize(entries[i].0), CamelizeKeys(entries[i].1)))))
    case _ => j
  }

  /** Primitives, null and undefined pass through; arrays keep their length and order. */
  lemma CamelizeKeysShape(j: Json)
    ensures !j.Arr? && !j.Obj? ==> CamelizeKeys(j) == j
    ensures j.Arr? ==>
      (&& CamelizeKeys(j).Arr? && |CamelizeKeys(j).items| == |j.items|
       && forall i :: 0 <= i < |j.items| ==> CamelizeKeys(j).items[i] == CamelizeKeys(j.items[i]))
    ensures j.Obj? ==> CamelizeKeys(j).Obj? && DistinctKeys(CamelizeKeys(j).entries)
  {
  }

  /**
   * Looking up a camelized key in a normalised object gives the normalised
   * value of the last original key that camelizes to it.
   */
  lemma CamelizeKeysObject(entries: seq<(string, Json)>, key: string)
    ensures var pairs := seq(|entries|, i requires 0 <= i < |entries| =>
        (Camelize(entries[i].0), CamelizeKeys(entries[i].1)));
      Lookup(CamelizeKeys(Obj(entries)).entries, key) == LastValue(pairs, key)
  {
    var pairs := seq(|entries|, i requires 0 <= i < |entries| =>
        (Camelize(entries[i].0), CamelizeKeys(entries[i].1)));
    AssignAllLastWins(pairs, key);
  }

  /** Every key of a normalised value, at any depth, has no underscore followed by a lowercase letter. */
  predicate Normalised(j: Json)
    decreases j
  {
    match j
    case Arr(items) => forall i :: 0 <= i < |items| ==> Normalised(items[i])
    case Obj(entries) =>
      && DistinctKeys(entries)
      && forall i :: 0 <= i < |entries| ==> NoSnake(entries[i].0) && Normalised(entries[i].1)
    case _ => true
  }

  /** `camelizeKeys` leaves a normalised value as it is. */
  lemma {:induction false} CamelizeKeysFixed(j: Json)
    requires Normalised(j)
    ensures CamelizeKeys(j) == j
    decreases j
  {
    match j
    case Arr(items) =>
      forall i | 0 <= i < |items|
        ensures CamelizeKeys(items[i]) == items[i]
      {
        CamelizeKeysFixed(items[i]);
      }
    case Obj(entries) =>
      var pairs := seq(|entries|, i requires 0 <= i < |entries| =>
        (Camelize(entries[i].0), CamelizeKeys(entries[i].1)));
      forall i | 0 <= i < |entries|
        ensures pairs[i] == entries[i]
      {
        CamelizeFixed(entries[i].0);
        CamelizeKeysFixed(entries[i].1);
      }
      assert pairs == entries;
      AssignAllDistinct(entries);
    case _ =>
  }

  /** What `camelizeKeys` returns is normalised. */
  lemma {:induction false} CamelizeKeysNormalises(j: Json)
    ensures Normalised(CamelizeKeys(j))
    decreases j
  {
    match j
    case Arr(items) =>
      forall i | 0 <= i < |items|
        ensures Normalised(CamelizeKeys(items[i]))
      {
        CamelizeKeysNormalises(items[i]);
      }
    case Obj(entries) =>
      var pairs := seq(|entries|, i requires 0 <= i < |entries| =>
        (Camelize(entries[i].0), CamelizeKeys(entries[i].1)));
      forall i | 0 <= i < |entries|
        ensures NoSnake(pairs[i].0) && Normalised(pairs[i].1)
      {
        CamelizeNoSnake(entries[i].0);
        CamelizeKeysNormalises(entries[i].1);
      }
      AssignAllNormalised(pairs);
    case _ =>
  }

  /** Writing normalised pairs yields normalised entries. */
  lemma {:induction false} AssignAllNormalised(pairs: seq<(string, Json)>)
    requires forall i :: 0 <= i < |pairs| ==> NoSnake(pairs[i].0) && Normalised(pairs[i].1)
    ensures forall i :: 0 <= i < |AssignAll(pairs)| ==>
      NoSnake(AssignAll(pairs)[i].0) && Normalised(AssignAll(pairs)[i].1)
  {
    if pairs != [] {
      AssignAllNormalised(pairs[..|pairs| - 1]);
      AssignNormalised(AssignAll(pairs[..|pairs| - 1]), pairs[|pairs| - 1].0, pairs[|pairs| - 1].1);
    }
  }

  lemma {:induction false} AssignNormalised(entries: seq<(string, Json)>, key: string, value: Json)
    requires forall i :: 0 <= i < |entries| ==> NoSnake(entries[i].0) && Normalised(entries[i].1)
    requires NoSnake(key) && Normalised(value)
    ensures forall i :: 0 <= i < |Assign(entries, key, value)| ==>
      NoSnake(Assign(entries, key, value)[i].0) && Normalised(Assign(entries, key, value)[i].1)
  {
    if entries != [] && entries[0].0 != key {
      AssignNormalised(entries[1..], key, value);
    }
  }

  /** `camelizeKeys` is idempotent. */
  lemma CamelizeKeysIdempotent(j: Json)
    ensures CamelizeKeys(CamelizeKeys(j)) == CamelizeKeys(j)
  {
    CamelizeKeysNormalises(j);
    CamelizeKeysFixed(CamelizeKeys(j));
  }

  /**
   * `camelizeKeys(input)` as the source computes it: recursion into arrays,
   * and a `for` loop over the object's keys that fills `out`.
   */
  method NormaliseKeys(j: Json) returns (r: Json)
    ensures r == CamelizeKeys(j)
    decreases j
  {
    match j
    case Arr(items) =>
      var out: seq<Json> := [];
      for i := 0 to |items|
        invariant out == seq(i, k requires 0 <= k < i => CamelizeKeys(items[k]))
      {
        var v := NormaliseKeys(items[i]);
        out := out + [v];
      }
      r := Arr(out);
    case Obj(entries) =>
      ghost var pairs := seq(|entries|, i requires 0 <= i < |entries| =>
        (Camelize(entries[i].0), CamelizeKeys(entries[i].1)));
      var out: seq<(string, Json)> := [];
      for i := 0 to |entries|
        invariant out == AssignAll(pairs[..i])
      {
        var camelKey := Camelize(entries[i].0);
        var value := NormaliseKeys(entries[i].1);
        assert pairs[..i + 1][..i] == pairs[..i];
        out := Assign(out, camelKey, value);
      }
      assert pairs[..|entries|] == pairs;
      r := Obj(out);
    case _ =>
      r := j;
  }
}
