/**
 * `_generate_traversal_diff` (core.py:752-772): the elements added and removed between two
 * traversals, matched by a key. As written, the key is `elem.ax_element`, an attribute
 * `ElementData` (types.py:54-62) does not have; `GenerateTraversalDiffAsWritten` models
 * that, and `GenerateTraversalDiff` the intended diff over a key given as a parameter.
 */
module TraversalDiffs {
  import opened Wrappers
  import opened JsonValues
  import opened Types
  import opened Lists

  // ------------------------------------------------------- keyed dicts

  /** A dict from keys to elements, as its `items()` in insertion order. */
  type Entries<K> = seq<(K, ElementData)>

  ghost predicate DistinctKeys<K>(d: Entries<K>) {
    forall i, j :: 0 <= i < j < |d| ==> d[i].0 != d[j].0
  }

  function EntryKeys<K(==)>(d: Entries<K>): set<K> {
    set e | e in d :: e.0
  }

  /** `d[k] = v`: an existing key keeps its position and takes the new value; a new key goes last. */
  function Put<K(==)>(d: Entries<K>, k: K, v: ElementData): (r: Entries<K>)
    ensures |d| <= |r| <= |d| + 1
  {
    match FindFirst(d, (e: (K, ElementData)) => e.0 == k)
    case Some(i) => d[i := (k, v)]
    case None => d + [(k, v)]
  }

  /** `{key(e): e for e in elems}`. */
  function KeyedEntries<K(==)>(elems: seq<ElementData>, key: ElementData -> K): (r: Entries<K>)
    ensures |r| <= |elems|
    decreases |elems|
  {
    if elems == [] then [] else Put(KeyedEntries(elems[..|elems| - 1], key), key(elems[|elems| - 1]), elems[|elems| - 1])
  }

  /** The keys of some elements. */
  function KeysOf<K(==)>(elems: seq<ElementData>, key: ElementData -> K): set<K> {
    set e | e in elems :: key(e)
  }

  /** The last element with key `k`. */
  function LastWithKey<K(==)>(elems: seq<ElementData>, key: ElementData -> K, k: K): (e: ElementData)
    requires k in KeysOf(elems, key)
    ensures e in elems && key(e) == k
    decreases |elems|
  {
    var last := elems[|elems| - 1];
    if key(last) == k then last
    else
      assert k in KeysOf(elems[..|elems| - 1], key) by {
        var e :| e in elems && key(e) == k;
        var i :| 0 <= i < |elems| && elems[i] == e;
        assert i < |elems| - 1;
        assert elems[..|elems| - 1][i] == e;
      }
      LastWithKey(elems[..|elems| - 1], key, k)
  }

  /** What one assignment does to a dict with distinct keys. */
  lemma PutSpec<K>(d: Entries<K>, k: K, v: ElementData)
    requires DistinctKeys(d)
    ensures DistinctKeys(Put(d, k, v))
    ensures EntryKeys(Put(d, k, v)) == EntryKeys(d) + {k}
    ensures forall e :: e in Put(d, k, v) ==> (e.0 == k ==> e.1 == v) && (e.0 != k ==> e in d)
  {
    var p := (e: (K, ElementData)) => e.0 == k;
    var r := Put(d, k, v);
    match FindFirst(d, p)
    case Some(i) =>
      assert r == d[i := (k, v)];
      forall e | e in r ensures (e.0 == k ==> e.1 == v) && (e.0 != k ==> e in d) {
        var j :| 0 <= j < |r| && r[j] == e;
        if j != i {
          assert r[j] == d[j];
        }
      }
      assert EntryKeys(r) == EntryKeys(d) + {k} by {
        forall x | x in EntryKeys(d) ensures x in EntryKeys(r) {
          var e :| e in d && e.0 == x;
          var j :| 0 <= j < |d| && d[j] == e;
          if j == i {
            assert r[i].0 == x;
          } else {
            assert r[j] == e;
          }
        }
        assert r[i].0 == k;
      }
    case None =>
      assert r == d + [(k, v)];
      forall j | 0 <= j < |d| ensures d[j].0 != k {
        assert !p(d[j]);
      }
  }

  /** `{key(e): e for e in elems}` holds each key of `elems` once, with the last element that
      has it. */
  lemma {:induction false} KeyedEntriesSpec<K>(elems: seq<ElementData>, key: ElementData -> K)
    ensures DistinctKeys(KeyedEntries(elems, key))
    ensures EntryKeys(KeyedEntries(elems, key)) == KeysOf(elems, key)
    ensures forall e :: e in KeyedEntries(elems, key) ==>
              e.0 in KeysOf(elems, key) && e.1 == LastWithKey(elems, key, e.0)
    decreases |elems|
  {
    if elems != [] {
      var init := elems[..|elems| - 1];
      var last := elems[|elems| - 1];
      KeyedEntriesSpec(init, key);
      var d := KeyedEntries(init, key);
      PutSpec(d, key(last), last);
      assert elems == init + [last];
      assert KeysOf(elems, key) == KeysOf(init, key) + {key(last)};
      forall e | e in KeyedEntries(elems, key)
        ensures e.0 in KeysOf(elems, key) && e.1 == LastWithKey(elems, key, e.0)
      {
        if e.0 != key(last) {
          assert e in d;
        }
      }
    }
  }

  // ----------------------------------------------------------- the diff

  /** The elements of `entries` whose key is not in `keys`, as the comprehension keeps them. */
  function NewElements<K(==)>(entries: Entries<K>, keys: set<K>): seq<ElementData> {
    FilterMap(entries, (e: (K, ElementData)) => if e.0 !in keys then Some(e.1) else None)
  }

  lemma NewElementsMembers<K>(entries: Entries<K>, keys: set<K>, x: ElementData)
    ensures x in NewElements(entries, keys) <==> exists e :: e in entries && e.0 !in keys && e.1 == x
  {
    var f := (e: (K, ElementData)) => if e.0 !in keys then Some(e.1) else None;
    FilterMapMembers(entries, f, x);
    if exists e :: e in entries && e.0 !in keys && e.1 == x {
      var e :| e in entries && e.0 !in keys && e.1 == x;
      assert f(e) == Some(x);
    }
  }

  /** The comprehension keeps at most one element per entry. */
  lemma NewElementsLength<K>(entries: Entries<K>, keys: set<K>)
    ensures |NewElements(entries, keys)| <= |entries|
  {
    var f := (e: (K, ElementData)) => if e.0 !in keys then Some(e.1) else None;
    FilterMapLength(entries, f);
  }

  /** The intended `_generate_traversal_diff`, with elements matched by `key`: it never
      reports more added elements than the after traversal has, nor more removed elements
      than the before traversal has. */
  function GenerateTraversalDiff<K(==)>(before: ResponseData, after: ResponseData, key: ElementData -> K): (r: TraversalDiff)
    ensures |r.addedElements| <= |after.elements| && |r.removedElements| <= |before.elements|
    ensures r.modifiedElements == [] && r.statsBefore == Some(before.stats) && r.statsAfter == Some(after.stats)
  {
    var beforeEntries := KeyedEntries(before.elements, key);
    var afterEntries := KeyedEntries(after.elements, key);
    NewElementsLength(afterEntries, EntryKeys(beforeEntries));
    NewElementsLength(beforeEntries, EntryKeys(afterEntries));
    TraversalDiff(
      NewElements(afterEntries, EntryKeys(beforeEntries)),
      NewElements(beforeEntries, EntryKeys(afterEntries)),
      [],
      Some(before.stats),
      Some(after.stats))
  }

  /** An element is in `NewElements(KeyedEntries(a), EntryKeys(KeyedEntries(b)))` exactly when it
      is the last element of `a` with a key that no element of `b` has. */
  lemma OneSide<K>(a: seq<ElementData>, b: seq<ElementData>, key: ElementData -> K, x: ElementData)
    ensures x in NewElements(KeyedEntries(a, key), EntryKeys(KeyedEntries(b, key))) <==>
              x in a && key(x) !in KeysOf(b, key) && x == LastWithKey(a, key, key(x))
  {
    KeyedEntriesSpec(a, key);
    KeyedEntriesSpec(b, key);
    var entries := KeyedEntries(a, key);
    var keys := EntryKeys(KeyedEntries(b, key));
    NewElementsMembers(entries, keys, x);
    if x in a && key(x) !in keys && x == LastWithKey(a, key, key(x)) {
      assert key(x) in EntryKeys(entries);
      var e :| e in entries && e.0 == key(x);
      assert e.1 == x;
    }
  }

  /** Added elements are the after-elements whose key the before traversal lacks (one per
      key, the last), removed elements the converse; nothing is ever reported as modified and
      both statistics are passed through. */
  lemma DiffContents<K>(before: ResponseData, after: ResponseData, key: ElementData -> K, x: ElementData)
    ensures x in GenerateTraversalDiff(before, after, key).addedElements <==>
              x in after.elements && key(x) !in KeysOf(before.elements, key) &&
              x == LastWithKey(after.elements, key, key(x))
    ensures x in GenerateTraversalDiff(before, after, key).removedElements <==>
              x in before.elements && key(x) !in KeysOf(after.elements, key) &&
              x == LastWithKey(before.elements, key, key(x))
    ensures GenerateTraversalDiff(before, after, key).modifiedElements == []
    ensures GenerateTraversalDiff(before, after, key).statsBefore == Some(before.stats)
    ensures GenerateTraversalDiff(before, after, key).statsAfter == Some(after.stats)
  {
    OneSide(after.elements, before.elements, key, x);
    OneSide(before.elements, after.elements, key, x);
  }

  /** Diffing a traversal against itself reports no change. */
  lemma DiffWithItself<K>(r: ResponseData, key: ElementData -> K)
    ensures GenerateTraversalDiff(r, r, key).addedElements == []
    ensures GenerateTraversalDiff(r, r, key).removedElements == []
  {
    var added := GenerateTraversalDiff(r, r, key).addedElements;
    if added != [] {
      DiffContents(r, r, key, added[0]);
    }
  }

  // ---------------------------------------------------------- as written

  /** What reading `elem.ax_element` on an `ElementData` raises. */
  function MissingAxElement(): PyError {
    PyError(AttributeError, "'ElementData' object has no attribute 'ax_element'")
  }

  /** `_generate_traversal_diff` as written: building the before dict, then the after dict,
      reads `ax_element` of the first element it meets, so any element at all raises. */
  function GenerateTraversalDiffAsWritten(before: ResponseData, after: ResponseData): (r: Result<TraversalDiff, PyError>)
    ensures r.Success? <==> before.elements == [] && after.elements == []
    ensures r.Failure? ==> r.error == MissingAxElement()
    ensures r.Success? ==> r.value == TraversalDiff([], [], [], Some(before.stats), Some(after.stats))
  {
    if before.elements != [] || after.elements != [] then Failure(MissingAxElement())
    else Success(TraversalDiff([], [], [], Some(before.stats), Some(after.stats)))
  }

  /** A traversal with a single element: the code as written raises, while the intended
      diff of the traversal against itself is empty. */
  lemma AsWrittenRaisesOnOneElement<K>(key: ElementData -> K)
    ensures var e := ElementData(JStr("AXButton"), JStr("OK"), JInt(10), JInt(20), JInt(80), JInt(24));
            var r := ResponseData(JStr("Calculator"), [e], DefaultStatistics(), JStr("0.010"), JBool(false), None);
            && GenerateTraversalDiffAsWritten(r, r) == Failure(MissingAxElement())
            && GenerateTraversalDiff(r, r, key) == TraversalDiff([], [], [], Some(r.stats), Some(r.stats))
  {
    var e := ElementData(JStr("AXButton"), JStr("OK"), JInt(10), JInt(20), JInt(80), JInt(24));
    var r := ResponseData(JStr("Calculator"), [e], DefaultStatistics(), JStr("0.010"), JBool(false), None);
    DiffWithItself(r, key);
  }
}
