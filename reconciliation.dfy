/** The three-way reconciliation the deed update performs, once for the
    borrowers and once for the cooperative signers: the rows a deed has and
    the list a request brings are each turned into a dictionary keyed by
    person number, and the keys are split into those to remove (only in the
    rows), those to add (only in the request) and those to update (in both,
    with a difference that matters). */
module Reconciliation {
  import opened Seqs
  import opened Dicts

  /** The groups of one reconciliation: existing records to remove, requested
      records to add, requested records to write over existing ones. */
  datatype Diff<E, N> = Diff(toRemove: seq<E>, toAdd: seq<N>, toUpdate: seq<N>)

  /** `existing` is keyed by `ekey`, `requested` by `nkey`; `changed` says
      whether a requested record differs from the existing one with its key
      in a way the update writes. */
  function Reconcile<E, N>(existing: seq<E>, requested: seq<N>, ekey: E -> string, nkey: N -> string,
                           changed: (E, N) -> bool): Diff<E, N>
  {
    var oldKeys := KeySet(existing, ekey);
    var newKeys := KeySet(requested, nkey);
    Diff(Filter(DictOf(existing, ekey), (e: E) => ekey(e) !in newKeys),
         Filter(DictOf(requested, nkey), (n: N) => nkey(n) !in oldKeys),
         Filter(DictOf(requested, nkey), (n: N) => nkey(n) in oldKeys && changed(LastWith(existing, ekey, nkey(n)), n)))
  }

  /** The keys of the selected records of a dictionary built from `s` are the
      keys of `s` whose kept record is selected. */
  lemma FilterDictKeys<T>(s: seq<T>, key: T -> string, p: T -> bool)
    ensures forall k :: k in KeySet(Filter(DictOf(s, key), p), key) <==> k in KeySet(s, key) && p(LastWith(s, key, k))
  {
    var d := DictOf(s, key);
    var f := Filter(d, p);
    FilterMembers(d, p);
    forall k | k in KeySet(f, key) ensures k in KeySet(s, key) && p(LastWith(s, key, k)) {
      var i :| 0 <= i < |f| && key(f[i]) == k;
      assert f[i] in d;
    }
    forall k | k in KeySet(s, key) && p(LastWith(s, key, k)) ensures k in KeySet(f, key) {
      assert k in KeySet(d, key);
      var i :| 0 <= i < |d| && key(d[i]) == k;
      assert d[i] in d;
      assert d[i] in f;
      var j :| 0 <= j < |f| && f[j] == d[i];
    }
  }

  /** Selecting records keeps the keys distinct, and a selected record of a
      dictionary built from `s` is the record `s` keeps for its key. */
  lemma FilterDictRecords<T>(s: seq<T>, key: T -> string, p: T -> bool)
    ensures DistinctKeys(Filter(DictOf(s, key), p), key)
    ensures forall x :: x in Filter(DictOf(s, key), p) ==>
              key(x) in KeySet(s, key) && x == LastWith(s, key, key(x)) && p(x)
  {
    var d := DictOf(s, key);
    FilterMembers(d, p);
    FilterDistinct(d, key, p);
    forall x | x in Filter(d, p) ensures key(x) in KeySet(s, key) && x == LastWith(s, key, key(x)) && p(x) {
      var i :| 0 <= i < |Filter(d, p)| && Filter(d, p)[i] == x;
    }
  }

  lemma {:induction false} FilterDistinct<T>(d: seq<T>, key: T -> string, p: T -> bool)
    requires DistinctKeys(d, key)
    ensures DistinctKeys(Filter(d, p), key)
  {
    if d != [] {
      FilterDistinct(d[1..], key, p);
      FilterMembers(d[1..], p);
      var tail := Filter(d[1..], p);
      if p(d[0]) {
        forall j | 0 <= j < |tail| ensures key(tail[j]) != key(d[0]) {
          var i :| 0 <= i < |d[1..]| && d[1..][i] == tail[j] by {
            assert tail[j] in d[1..];
          }
          assert d[i + 1] == tail[j];
        }
        assert Filter(d, p) == [d[0]] + tail;
      }
    }
  }

  /** The removals are exactly the existing keys missing from the request,
      each with the record the dictionary kept for it. */
  lemma ReconcileRemoves<E, N>(existing: seq<E>, requested: seq<N>, ekey: E -> string, nkey: N -> string,
                               changed: (E, N) -> bool)
    ensures var d := Reconcile(existing, requested, ekey, nkey, changed);
            && KeySet(d.toRemove, ekey) == KeySet(existing, ekey) - KeySet(requested, nkey)
            && DistinctKeys(d.toRemove, ekey)
            && (forall x :: x in d.toRemove ==> ekey(x) in KeySet(existing, ekey) && x == LastWith(existing, ekey, ekey(x)))
  {
    var newKeys := KeySet(requested, nkey);
    var rm := (e: E) => ekey(e) !in newKeys;
    FilterDictKeys(existing, ekey, rm);
    FilterDictRecords(existing, ekey, rm);
    var d := Reconcile(existing, requested, ekey, nkey, changed);
    forall k | k in KeySet(existing, ekey) ensures rm(LastWith(existing, ekey, k)) == (k !in newKeys) {
    }
    assert KeySet(d.toRemove, ekey) == KeySet(existing, ekey) - newKeys;
  }

  /** The additions are exactly the requested keys that do not exist yet. */
  lemma ReconcileAdds<E, N>(existing: seq<E>, requested: seq<N>, ekey: E -> string, nkey: N -> string,
                            changed: (E, N) -> bool)
    ensures var d := Reconcile(existing, requested, ekey, nkey, changed);
            && KeySet(d.toAdd, nkey) == KeySet(requested, nkey) - KeySet(existing, ekey)
            && DistinctKeys(d.toAdd, nkey)
            && (forall x :: x in d.toAdd ==> nkey(x) in KeySet(requested, nkey) && x == LastWith(requested, nkey, nkey(x)))
  {
    var oldKeys := KeySet(existing, ekey);
    var add := (n: N) => nkey(n) !in oldKeys;
    FilterDictKeys(requested, nkey, add);
    FilterDictRecords(requested, nkey, add);
    var d := Reconcile(existing, requested, ekey, nkey, changed);
    forall k | k in KeySet(requested, nkey) ensures add(LastWith(requested, nkey, k)) == (k !in oldKeys) {
    }
    assert KeySet(d.toAdd, nkey) == KeySet(requested, nkey) - oldKeys;
  }

  /** The updates are exactly the keys on both sides whose requested record
      differs from the existing one. */
  lemma ReconcileUpdates<E, N>(existing: seq<E>, requested: seq<N>, ekey: E -> string, nkey: N -> string,
                               changed: (E, N) -> bool)
    ensures var d := Reconcile(existing, requested, ekey, nkey, changed);
            && KeySet(d.toUpdate, nkey)
               == (set k | k in KeySet(existing, ekey) && k in KeySet(requested, nkey)
                           && changed(LastWith(existing, ekey, k), LastWith(requested, nkey, k)))
            && DistinctKeys(d.toUpdate, nkey)
            && (forall x :: x in d.toUpdate ==> nkey(x) in KeySet(requested, nkey) && x == LastWith(requested, nkey, nkey(x)))
  {
    var oldKeys := KeySet(existing, ekey);
    var up := (n: N) => nkey(n) in oldKeys && changed(LastWith(existing, ekey, nkey(n)), n);
    FilterDictKeys(requested, nkey, up);
    FilterDictRecords(requested, nkey, up);
  }

  /** No key is in two groups. */
  lemma ReconcileDisjoint<E, N>(existing: seq<E>, requested: seq<N>, ekey: E -> string, nkey: N -> string,
                                changed: (E, N) -> bool)
    ensures var d := Reconcile(existing, requested, ekey, nkey, changed);
            && KeySet(d.toRemove, ekey) !! KeySet(d.toAdd, nkey)
            && KeySet(d.toRemove, ekey) !! KeySet(d.toUpdate, nkey)
            && KeySet(d.toAdd, nkey) !! KeySet(d.toUpdate, nkey)
  {
    ReconcileRemoves(existing, requested, ekey, nkey, changed);
    ReconcileAdds(existing, requested, ekey, nkey, changed);
    ReconcileUpdates(existing, requested, ekey, nkey, changed);
  }

  // ----- applying a reconciliation to a table -----

  /** The keys of the rows of `rows` that belong to the deed (`mine`). */
  function RowKeys<T>(rows: seq<T>, mine: T -> bool, key: T -> string): set<string> {
    set i | 0 <= i < |rows| && mine(rows[i]) :: key(rows[i])
  }

  /** The delete of the removed keys: every row of the deed with one of them goes. */
  function Kept<T>(mine: T -> bool, key: T -> string, removed: set<string>): T -> bool {
    (x: T) => !(mine(x) && key(x) in removed)
  }

  /** The updates, one per requested record, in order: each rewrites every
      row of the deed with its key. */
  function ReviseAll<T, N>(rows: seq<T>, ups: seq<N>, revise: N -> T -> T): (r: seq<T>)
    ensures |r| == |rows|
  {
    if ups == [] then rows else Map(ReviseAll(rows, ups[..|ups| - 1], revise), revise(ups[|ups| - 1]))
  }

  /** `revise` rewrites only the deed's rows with the record's key, and keeps
      their deed and key. */
  ghost predicate RevisesByKey<T(!new), N(!new)>(mine: T -> bool, key: T -> string, nkey: N -> string, revise: N -> T -> T) {
    forall n: N, x: T ::
      mine(revise(n)(x)) == mine(x) && key(revise(n)(x)) == key(x)
      && (!(mine(x) && key(x) == nkey(n)) ==> revise(n)(x) == x)
  }

  lemma {:induction false} ReviseAllKeys<T(!new), N(!new)>(rows: seq<T>, ups: seq<N>, mine: T -> bool, key: T -> string,
                                               nkey: N -> string, revise: N -> T -> T)
    requires RevisesByKey(mine, key, nkey, revise)
    ensures RowKeys(ReviseAll(rows, ups, revise), mine, key) == RowKeys(rows, mine, key)
    ensures forall i :: 0 <= i < |rows| ==>
              mine(ReviseAll(rows, ups, revise)[i]) == mine(rows[i]) && key(ReviseAll(rows, ups, revise)[i]) == key(rows[i])
  {
    if ups != [] {
      ReviseAllKeys(rows, ups[..|ups| - 1], mine, key, nkey, revise);
    }
  }

  /** A row that no update's key touches comes through the updates as it was. */
  lemma {:induction false} ReviseAllKeeps<T(!new), N(!new)>(rows: seq<T>, ups: seq<N>, mine: T -> bool, key: T -> string,
                                                nkey: N -> string, revise: N -> T -> T, i: nat)
    requires RevisesByKey(mine, key, nkey, revise)
    requires i < |rows|
    requires !mine(rows[i]) || key(rows[i]) !in KeySet(ups, nkey)
    ensures ReviseAll(rows, ups, revise)[i] == rows[i]
  {
    if ups != [] {
      var init := ups[..|ups| - 1];
      assert KeySet(init, nkey) <= KeySet(ups, nkey) by {
        forall k | k in KeySet(init, nkey) ensures k in KeySet(ups, nkey) {
          var j :| 0 <= j < |init| && nkey(init[j]) == k;
          assert ups[j] == init[j];
        }
      }
      ReviseAllKeeps(rows, init, mine, key, nkey, revise, i);
      assert nkey(ups[|ups| - 1]) in KeySet(ups, nkey);
    }
  }

  /** A row of the deed whose key only the last update carries is rewritten by that update alone. */
  lemma {:induction false} ReviseAllLast<T(!new), N(!new)>(rows: seq<T>, ups: seq<N>, mine: T -> bool, key: T -> string,
                                               nkey: N -> string, revise: N -> T -> T, i: nat, j: nat)
    requires RevisesByKey(mine, key, nkey, revise)
    requires i < |rows| && j < |ups| && mine(rows[i]) && key(rows[i]) == nkey(ups[j])
    requires DistinctKeys(ups, nkey)
    ensures ReviseAll(rows, ups, revise)[i] == revise(ups[j])(rows[i])
  {
    var init := ups[..|ups| - 1];
    var last := ups[|ups| - 1];
    ReviseAllKeys(rows, init, mine, key, nkey, revise);
    if j == |ups| - 1 {
      ReviseAllKeeps(rows, init, mine, key, nkey, revise, i);
    } else {
      assert init[j] == ups[j];
      assert DistinctKeys(init, nkey) by {
        forall a, b | 0 <= a < b < |init| ensures nkey(init[a]) != nkey(init[b]) {
          assert init[a] == ups[a] && init[b] == ups[b];
        }
      }
      ReviseAllLast(rows, init, mine, key, nkey, revise, i, j);
    }
  }

  /** The table after the delete of the removed keys and the updates, followed by the added rows. */
  function Applied<T, N>(rows: seq<T>, removed: set<string>, ups: seq<N>, added: seq<T>,
                         mine: T -> bool, key: T -> string, revise: N -> T -> T): seq<T>
  {
    ReviseAll(Filter(rows, Kept(mine, key, removed)), ups, revise) + added
  }

  lemma RowKeysAppend<T>(a: seq<T>, b: seq<T>, mine: T -> bool, key: T -> string)
    ensures RowKeys(a + b, mine, key) == RowKeys(a, mine, key) + RowKeys(b, mine, key)
  {
    var c := a + b;
    forall k | k in RowKeys(c, mine, key) ensures k in RowKeys(a, mine, key) + RowKeys(b, mine, key) {
      var i :| 0 <= i < |c| && mine(c[i]) && key(c[i]) == k;
      if i < |a| { assert c[i] == a[i]; } else { assert c[i] == b[i - |a|]; }
    }
    forall k | k in RowKeys(a, mine, key) ensures k in RowKeys(c, mine, key) {
      var i :| 0 <= i < |a| && mine(a[i]) && key(a[i]) == k;
      assert c[i] == a[i];
    }
    forall k | k in RowKeys(b, mine, key) ensures k in RowKeys(c, mine, key) {
      var i :| 0 <= i < |b| && mine(b[i]) && key(b[i]) == k;
      assert c[|a| + i] == b[i];
    }
  }

  lemma RowKeysKept<T>(rows: seq<T>, mine: T -> bool, key: T -> string, removed: set<string>)
    ensures RowKeys(Filter(rows, Kept(mine, key, removed)), mine, key) == RowKeys(rows, mine, key) - removed
  {
    var f := Filter(rows, Kept(mine, key, removed));
    FilterMembers(rows, Kept(mine, key, removed));
    forall k | k in RowKeys(f, mine, key) ensures k in RowKeys(rows, mine, key) - removed {
      var i :| 0 <= i < |f| && mine(f[i]) && key(f[i]) == k;
      assert f[i] in rows;
      var j :| 0 <= j < |rows| && rows[j] == f[i];
    }
    forall k | k in RowKeys(rows, mine, key) - removed ensures k in RowKeys(f, mine, key) {
      var i :| 0 <= i < |rows| && mine(rows[i]) && key(rows[i]) == k;
      assert rows[i] in f;
      var j :| 0 <= j < |f| && f[j] == rows[i];
    }
  }

  /** After the delete, the updates and the inserts, the deed's rows carry
      exactly the keys of the request: existing keys missing from it are
      removed, the others stay, and the missing ones are added. */
  lemma {:induction false} AppliedKeys<E, N(!new), T(!new)>(rows: seq<T>, existing: seq<E>, requested: seq<N>,
                                                ekey: E -> string, nkey: N -> string, changed: (E, N) -> bool,
                                                added: seq<T>, mine: T -> bool, key: T -> string, revise: N -> T -> T)
    requires RevisesByKey(mine, key, nkey, revise)
    requires KeySet(existing, ekey) == RowKeys(rows, mine, key)
    requires RowKeys(added, mine, key) == KeySet(Reconcile(existing, requested, ekey, nkey, changed).toAdd, nkey)
    ensures var d := Reconcile(existing, requested, ekey, nkey, changed);
            RowKeys(Applied(rows, KeySet(d.toRemove, ekey), d.toUpdate, added, mine, key, revise), mine, key)
            == KeySet(requested, nkey)
  {
    var d := Reconcile(existing, requested, ekey, nkey, changed);
    ReconcileRemoves(existing, requested, ekey, nkey, changed);
    ReconcileAdds(existing, requested, ekey, nkey, changed);
    ReconcileUpdates(existing, requested, ekey, nkey, changed);
    var kept := Filter(rows, Kept(mine, key, KeySet(d.toRemove, ekey)));
    RowKeysKept(rows, mine, key, KeySet(d.toRemove, ekey));
    ReviseAllKeys(kept, d.toUpdate, mine, key, nkey, revise);
    RowKeysAppend(ReviseAll(kept, d.toUpdate, revise), added, mine, key);
  }

  /** A row that is not the deed's, or whose key is neither removed nor
      updated, is still in the table unchanged. */
  lemma AppliedKeepsRow<E, N(!new), T(!new)>(rows: seq<T>, existing: seq<E>, requested: seq<N>,
                                 ekey: E -> string, nkey: N -> string, changed: (E, N) -> bool,
                                 added: seq<T>, mine: T -> bool, key: T -> string, revise: N -> T -> T, x: T)
    requires RevisesByKey(mine, key, nkey, revise)
    requires x in rows
    requires var d := Reconcile(existing, requested, ekey, nkey, changed);
             !mine(x) || (key(x) !in KeySet(d.toRemove, ekey) && key(x) !in KeySet(d.toUpdate, nkey))
    ensures var d := Reconcile(existing, requested, ekey, nkey, changed);
            x in Applied(rows, KeySet(d.toRemove, ekey), d.toUpdate, added, mine, key, revise)
  {
    var d := Reconcile(existing, requested, ekey, nkey, changed);
    var kept := Filter(rows, Kept(mine, key, KeySet(d.toRemove, ekey)));
    FilterMembers(rows, Kept(mine, key, KeySet(d.toRemove, ekey)));
    var i :| 0 <= i < |rows| && rows[i] == x;
    assert x in kept;
    var j :| 0 <= j < |kept| && kept[j] == x;
    ReviseAllKeeps(kept, d.toUpdate, mine, key, nkey, revise, j);
    var out := Applied(rows, KeySet(d.toRemove, ekey), d.toUpdate, added, mine, key, revise);
    assert out[j] == x;
  }

  /** The table-level promise of a reconciliation, when the deed has at most
      one row per key: every row of the deed afterwards agrees with the
      requested record of its key. An updated row agrees because the update
      writes it, an unchanged row because it did not differ, an added row
      because it is built from the request. */
  lemma AppliedAgrees<N(!new), T(!new)>(rows: seq<T>, requested: seq<N>, key: T -> string, nkey: N -> string,
                                        changed: (T, N) -> bool, added: seq<T>, mine: T -> bool,
                                        revise: N -> T -> T, agree: (T, N) -> bool, x: T)
    requires RevisesByKey(mine, key, nkey, revise)
    requires DistinctKeys(Filter(rows, mine), key)
    requires forall n, y :: mine(y) && key(y) == nkey(n) ==> agree(revise(n)(y), n)
    requires forall y, n :: !changed(y, n) ==> agree(y, n)
    requires forall a :: a in added ==> key(a) in KeySet(requested, nkey) && agree(a, LastWith(requested, nkey, key(a)))
    requires var d := Reconcile(Filter(rows, mine), requested, key, nkey, changed);
             x in Applied(rows, KeySet(d.toRemove, key), d.toUpdate, added, mine, key, revise)
    requires mine(x)
    ensures key(x) in KeySet(requested, nkey) && agree(x, LastWith(requested, nkey, key(x)))
  {
    var d := Reconcile(Filter(rows, mine), requested, key, nkey, changed);
    if x !in added {
      RevisedAgrees(rows, requested, key, nkey, changed, mine, revise, agree, x);
    }
  }

  /** The agreement for a row that the reconciliation kept, revised or not. */
  lemma RevisedAgrees<N(!new), T(!new)>(rows: seq<T>, requested: seq<N>, key: T -> string, nkey: N -> string,
                                        changed: (T, N) -> bool, mine: T -> bool,
                                        revise: N -> T -> T, agree: (T, N) -> bool, x: T)
    requires RevisesByKey(mine, key, nkey, revise)
    requires DistinctKeys(Filter(rows, mine), key)
    requires forall n, y :: mine(y) && key(y) == nkey(n) ==> agree(revise(n)(y), n)
    requires forall y, n :: !changed(y, n) ==> agree(y, n)
    requires var d := Reconcile(Filter(rows, mine), requested, key, nkey, changed);
             x in ReviseAll(Filter(rows, Kept(mine, key, KeySet(d.toRemove, key))), d.toUpdate, revise)
    requires mine(x)
    ensures key(x) in KeySet(requested, nkey) && agree(x, LastWith(requested, nkey, key(x)))
  {
    var existing := Filter(rows, mine);
    var d := Reconcile(existing, requested, key, nkey, changed);
    var kept := Filter(rows, Kept(mine, key, KeySet(d.toRemove, key)));
    var revised := ReviseAll(kept, d.toUpdate, revise);
    var i :| 0 <= i < |revised| && revised[i] == x;
    ReviseAllKeys(kept, d.toUpdate, mine, key, nkey, revise);
    var y := kept[i];
    var k := key(y);
    FilterMembers(rows, Kept(mine, key, KeySet(d.toRemove, key)));
    FilterMembers(rows, mine);
    assert y in rows;
    assert y in existing;
    assert k in KeySet(existing, key) by {
      var q :| 0 <= q < |existing| && existing[q] == y;
    }
    KeptKeyRequested(existing, requested, key, nkey, changed, k);
    if k in KeySet(d.toUpdate, nkey) {
      UpdatedRowAgrees(existing, requested, key, nkey, changed, kept, mine, revise, agree, i);
    } else {
      UnchangedRowAgrees(existing, requested, key, nkey, changed, kept, mine, revise, agree, i);
    }
  }

  /** A key of the deed that the reconciliation does not remove is requested. */
  lemma KeptKeyRequested<T, N>(existing: seq<T>, requested: seq<N>, key: T -> string, nkey: N -> string,
                               changed: (T, N) -> bool, k: string)
    requires k in KeySet(existing, key)
    requires k !in KeySet(Reconcile(existing, requested, key, nkey, changed).toRemove, key)
    ensures k in KeySet(requested, nkey)
  {
    ReconcileRemoves(existing, requested, key, nkey, changed);
  }

  /** A kept row whose key an update carries agrees once that update is written. */
  lemma UpdatedRowAgrees<N(!new), T(!new)>(existing: seq<T>, requested: seq<N>, key: T -> string, nkey: N -> string,
                                           changed: (T, N) -> bool, kept: seq<T>, mine: T -> bool,
                                           revise: N -> T -> T, agree: (T, N) -> bool, i: nat)
    requires RevisesByKey(mine, key, nkey, revise)
    requires forall n, y :: mine(y) && key(y) == nkey(n) ==> agree(revise(n)(y), n)
    requires i < |kept| && mine(kept[i])
    requires key(kept[i]) in KeySet(requested, nkey)
    requires key(kept[i]) in KeySet(Reconcile(existing, requested, key, nkey, changed).toUpdate, nkey)
    ensures agree(ReviseAll(kept, Reconcile(existing, requested, key, nkey, changed).toUpdate, revise)[i],
                  LastWith(requested, nkey, key(kept[i])))
  {
    var d := Reconcile(existing, requested, key, nkey, changed);
    ReconcileUpdates(existing, requested, key, nkey, changed);
    var j :| 0 <= j < |d.toUpdate| && nkey(d.toUpdate[j]) == key(kept[i]);
    ReviseAllLast(kept, d.toUpdate, mine, key, nkey, revise, i, j);
    assert d.toUpdate[j] in d.toUpdate;
  }

  /** A kept row whose key no update carries did not differ from its request. */
  lemma UnchangedRowAgrees<N(!new), T(!new)>(existing: seq<T>, requested: seq<N>, key: T -> string, nkey: N -> string,
                                             changed: (T, N) -> bool, kept: seq<T>, mine: T -> bool,
                                             revise: N -> T -> T, agree: (T, N) -> bool, i: nat)
    requires RevisesByKey(mine, key, nkey, revise)
    requires DistinctKeys(existing, key)
    requires forall y, n :: !changed(y, n) ==> agree(y, n)
    requires i < |kept| && mine(kept[i]) && kept[i] in existing
    requires key(kept[i]) in KeySet(requested, nkey)
    requires key(kept[i]) !in KeySet(Reconcile(existing, requested, key, nkey, changed).toUpdate, nkey)
    ensures agree(ReviseAll(kept, Reconcile(existing, requested, key, nkey, changed).toUpdate, revise)[i],
                  LastWith(requested, nkey, key(kept[i])))
  {
    var d := Reconcile(existing, requested, key, nkey, changed);
    var k := key(kept[i]);
    assert k in KeySet(existing, key) by {
      var q :| 0 <= q < |existing| && existing[q] == kept[i];
    }
    ReconcileUpdates(existing, requested, key, nkey, changed);
    ReviseAllKeeps(kept, d.toUpdate, mine, key, nkey, revise, i);
    DistinctKeysUnique(existing, key, kept[i], LastWith(existing, key, k));
  }

  /** Rows outside the deed come out of the reconciliation only as they went in. */
  lemma AppliedAddsOnlyMine<N(!new), T(!new)>(rows: seq<T>, removed: set<string>, ups: seq<N>, added: seq<T>,
                                              mine: T -> bool, key: T -> string, nkey: N -> string,
                                              revise: N -> T -> T, x: T)
    requires RevisesByKey(mine, key, nkey, revise)
    requires forall a :: a in added ==> mine(a)
    requires x in Applied(rows, removed, ups, added, mine, key, revise) && !mine(x)
    ensures x in rows
  {
    var kept := Filter(rows, Kept(mine, key, removed));
    var revised := ReviseAll(kept, ups, revise);
    assert x in revised;
    var i :| 0 <= i < |revised| && revised[i] == x;
    ReviseAllKeys(kept, ups, mine, key, nkey, revise);
    ReviseAllKeeps(kept, ups, mine, key, nkey, revise, i);
    FilterMembers(rows, Kept(mine, key, removed));
    assert kept[i] in kept;
  }
}
