/** Python dictionaries built from a list of records by one of their fields,
    `{key(x): x for x in s}`: the keys keep the order of their first
    occurrence and each key keeps the last record that carries it. A
    dictionary is held as the sequence of its values in key order. */
module Dicts {

  /** The keys of the records of `s`. */
  function KeySet<T>(s: seq<T>, key: T -> string): set<string> {
    set i | 0 <= i < |s| :: key(s[i])
  }

  /** No two records of `d` share a key. */
  predicate DistinctKeys<T>(d: seq<T>, key: T -> string) {
    forall i, j :: 0 <= i < j < |d| ==> key(d[i]) != key(d[j])
  }

  lemma KeySetSnoc<T>(s: seq<T>, x: T, key: T -> string)
    ensures KeySet(s + [x], key) == KeySet(s, key) + {key(x)}
  {
    var t := s + [x];
    forall k | k in KeySet(t, key) ensures k in KeySet(s, key) + {key(x)} {
      var i :| 0 <= i < |t| && key(t[i]) == k;
      if i < |s| { assert t[i] == s[i]; }
    }
    forall k | k in KeySet(s, key) ensures k in KeySet(t, key) {
      var i :| 0 <= i < |s| && key(s[i]) == k;
      assert t[i] == s[i];
    }
    assert t[|s|] == x;
  }

  /** The last record of `s` with key `k`: the value the dictionary keeps for `k`. */
  function LastWith<T>(s: seq<T>, key: T -> string, k: string): (x: T)
    requires k in KeySet(s, key)
    ensures x in s && key(x) == k
  {
    var init := s[..|s| - 1];
    assert s == init + [s[|s| - 1]];
    KeySetSnoc(init, s[|s| - 1], key);
    if key(s[|s| - 1]) == k then s[|s| - 1] else LastWith(init, key, k)
  }

  lemma KeySetCons<T>(x: T, s: seq<T>, key: T -> string)
    ensures KeySet([x] + s, key) == {key(x)} + KeySet(s, key)
  {
    var t := [x] + s;
    forall k | k in KeySet(t, key) ensures k in {key(x)} + KeySet(s, key) {
      var i :| 0 <= i < |t| && key(t[i]) == k;
      if i > 0 { assert t[i] == s[i - 1]; }
    }
    forall k | k in KeySet(s, key) ensures k in KeySet(t, key) {
      var i :| 0 <= i < |s| && key(s[i]) == k;
      assert s[i] == t[i + 1];
    }
    assert t[0] == x;
  }

  /** `d[key(x)] = x`: a present key keeps its place and takes the new
      record, a new key goes last. */
  function Put<T>(d: seq<T>, x: T, key: T -> string): (r: seq<T>)
    requires DistinctKeys(d, key)
    ensures DistinctKeys(r, key)
    ensures KeySet(r, key) == KeySet(d, key) + {key(x)}
    ensures x in r
    ensures forall y :: y in r ==> y == x || (y in d && key(y) != key(x))
  {
    if d == [] then [x]
    else
      var rest := d[1..];
      assert d == [d[0]] + rest;
      KeySetCons(d[0], rest, key);
      assert key(d[0]) !in KeySet(rest, key);
      if key(d[0]) == key(x) then
        KeySetCons(x, rest, key);
        [x] + rest
      else
        var tail := Put(rest, x, key);
        KeySetCons(d[0], tail, key);
        assert forall j :: 0 <= j < |tail| ==> key(tail[j]) in KeySet(tail, key);
        [d[0]] + tail
  }

  /** Two records of a dictionary with the same key are the same record. */
  lemma DistinctKeysUnique<T>(d: seq<T>, key: T -> string, x: T, y: T)
    requires DistinctKeys(d, key) && x in d && y in d && key(x) == key(y)
    ensures x == y
  {
    var i :| 0 <= i < |d| && d[i] == x;
    var j :| 0 <= j < |d| && d[j] == y;
  }

  /** Appending a record: its key now keeps that record, every other key keeps what it had. */
  lemma LastWithSnoc<T>(s: seq<T>, x: T, key: T -> string, k: string)
    requires k in KeySet(s + [x], key)
    ensures key(x) != k ==> k in KeySet(s, key)
    ensures LastWith(s + [x], key, k) == if key(x) == k then x else LastWith(s, key, k)
  {
    KeySetSnoc(s, x, key);
    assert (s + [x])[..|s|] == s;
  }

  /** In a dictionary, `d[key(x)] = x` makes `x` the record of its key and
      leaves every other key's record alone. */
  lemma LastWithPut<T>(d: seq<T>, x: T, key: T -> string, k: string)
    requires DistinctKeys(d, key) && k in KeySet(Put(d, x, key), key)
    ensures key(x) != k ==> k in KeySet(d, key)
    ensures LastWith(Put(d, x, key), key, k) == if key(x) == k then x else LastWith(d, key, k)
  {
    var r := Put(d, x, key);
    var y := LastWith(r, key, k);
    if key(x) == k {
      DistinctKeysUnique(r, key, x, y);
    } else {
      DistinctKeysUnique(d, key, y, LastWith(d, key, k));
    }
  }

  /** `{key(x): x for x in s}`. */
  function DictOf<T>(s: seq<T>, key: T -> string): (d: seq<T>)
    ensures DistinctKeys(d, key)
    ensures KeySet(d, key) == KeySet(s, key)
    ensures forall y :: y in d ==> key(y) in KeySet(s, key) && y == LastWith(s, key, key(y))
  {
    if s == [] then []
    else
      var init := s[..|s| - 1];
      var x := s[|s| - 1];
      assert s == init + [x];
      KeySetSnoc(init, x, key);
      var d := Put(DictOf(init, key), x, key);
      assert forall y :: y in d ==> key(y) in KeySet(d, key) by {
        forall y | y in d ensures key(y) in KeySet(d, key) {
          var i :| 0 <= i < |d| && d[i] == y;
        }
      }
      d
  }
}
