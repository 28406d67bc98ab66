/** The payload flattener `TokebiSDK.prototype.flattenPayload`: a nested
    payload becomes one dictionary from string keys to scalars.

    The specification functions below are left folds over the entries in
    enumeration order; each step overlays (`+`) what one entry writes on
    what the earlier entries wrote, which is the source's last-write-wins.
    `FlattenPayload` is the loop-by-loop method, proved equal to them. */
module Flattener {
  import opened Decimal
  import opened JsonValue

  type FlatMap = map<string, Json>

  /** `prefix ? prefix + '_' + key : key` */
  function JoinKey(prefix: string, key: string): string {
    if prefix == "" then key else prefix + "_" + key
  }

  /** The key of the array element at 0-based position `i`: `key + '_' + (i + 1)`. */
  function IndexKey(key: string, i: nat): string {
    key + "_" + NatStr(i + 1)
  }

  /** `key + '_count'` */
  function CountKey(key: string): string {
    key + "_count"
  }

  /** `flattenPayload(v, prefix)`. */
  function Flatten(v: Json, prefix: string): (r: FlatMap)
    ensures IsFlat(r)
    decreases v, 3
  {
    FlattenEntries(v, |Entries(v)|, prefix)
  }

  /** What the outer loop has written after the first `n` entries. */
  function FlattenEntries(v: Json, n: nat, prefix: string): (r: FlatMap)
    requires n <= |Entries(v)|
    ensures IsFlat(r)
    decreases v, 2, n
  {
    if n == 0 then map[]
    else FlattenEntries(v, n - 1, prefix) + FlattenEntry(v, n - 1, prefix)
  }

  /** What the `j`-th entry writes: for an array, its elements and then
      its count; for an object, its own flattening under the joined key;
      for a scalar (null included), the value itself. */
  function FlattenEntry(v: Json, j: nat, prefix: string): (r: FlatMap)
    requires j < |Entries(v)|
    ensures IsFlat(r)
    decreases v, 1
  {
    var key := Entries(v)[j].0;
    var child := Entries(v)[j].1;
    var newKey := JoinKey(prefix, key);
    match child
    case JArr(items) => FlattenItems(child, |items|, newKey)[CountKey(newKey) := JNum(|items|)]
    case JObj(_) => Flatten(child, newKey)
    case _ => map[newKey := child]
  }

  /** What the array loop has written after its first `n` elements. */
  function FlattenItems(arr: Json, n: nat, key: string): (r: FlatMap)
    requires arr.JArr? && n <= |arr.items|
    ensures IsFlat(r)
    decreases arr, 2, n
  {
    if n == 0 then map[]
    else FlattenItems(arr, n - 1, key) + FlattenItem(arr, n - 1, key)
  }

  /** What the element at 0-based position `i` writes: an array or object
      element is flattened under its 1-based key, anything else is stored
      there. */
  function FlattenItem(arr: Json, i: nat, key: string): (r: FlatMap)
    requires arr.JArr? && i < |arr.items|
    ensures IsFlat(r)
    decreases arr, 1
  {
    var item := arr.items[i];
    if IsObjectLike(item) then Flatten(item, IndexKey(key, i))
    else map[IndexKey(key, i) := item]
  }

  // ---------------------------------------------------------------------
  // Key prefixes

  /** Under a non-empty prefix `p`, every key the flattening writes starts
      with `p_`: nested output never escapes its parent's key. */
  lemma {:induction false} FlattenUnderPrefix(v: Json, prefix: string)
    requires prefix != ""
    ensures forall k :: k in Flatten(v, prefix) ==> prefix + "_" <= k
    decreases v, 3
  {
    EntriesUnderPrefix(v, |Entries(v)|, prefix);
  }

  /** The outer loop's first `n` entries write only keys under `p_`. */
  lemma {:induction false} EntriesUnderPrefix(v: Json, n: nat, prefix: string)
    requires prefix != "" && n <= |Entries(v)|
    ensures forall k :: k in FlattenEntries(v, n, prefix) ==> prefix + "_" <= k
    decreases v, 2, n
  {
    if n > 0 {
      EntriesUnderPrefix(v, n - 1, prefix);
      EntryUnderKey(v, n - 1, prefix);
      var newKey := JoinKey(prefix, Entries(v)[n - 1].0);
      var last := FlattenEntry(v, n - 1, prefix);
      forall k | k in last
        ensures prefix + "_" <= k
      {
        PrefixTrans(prefix + "_", newKey, k);
      }
    }
  }

  /** Every key an entry writes starts with the entry's joined key. */
  lemma {:induction false} EntryUnderKey(v: Json, j: nat, prefix: string)
    requires j < |Entries(v)|
    ensures forall k :: k in FlattenEntry(v, j, prefix) ==> JoinKey(prefix, Entries(v)[j].0) <= k
    decreases v, 1
  {
    var child := Entries(v)[j].1;
    var newKey := JoinKey(prefix, Entries(v)[j].0);
    match child
    case JArr(items) =>
      ItemsUnderKey(child, |items|, newKey);
      forall k | k in FlattenItems(child, |items|, newKey)
        ensures newKey <= k
      {
        PrefixTrans(newKey, newKey + "_", k);
      }
      assert newKey <= CountKey(newKey);
    case JObj(_) =>
      if newKey != "" {
        FlattenUnderPrefix(child, newKey);
        forall k | k in Flatten(child, newKey)
          ensures newKey <= k
        {
          PrefixTrans(newKey, newKey + "_", k);
        }
      }
    case _ =>
  }

  /** The array loop's first `n` elements write only keys under `key_`. */
  lemma {:induction false} ItemsUnderKey(arr: Json, n: nat, key: string)
    requires arr.JArr? && n <= |arr.items|
    ensures forall k :: k in FlattenItems(arr, n, key) ==> key + "_" <= k
    decreases arr, 2, n
  {
    if n > 0 {
      ItemsUnderKey(arr, n - 1, key);
      ItemUnderKey(arr, n - 1, key);
      var last := FlattenItem(arr, n - 1, key);
      forall k | k in last
        ensures key + "_" <= k
      {
        PrefixTrans(key + "_", IndexKey(key, n - 1), k);
      }
    }
  }

  /** Every key an element writes starts with its 1-based key. */
  lemma {:induction false} ItemUnderKey(arr: Json, i: nat, key: string)
    requires arr.JArr? && i < |arr.items|
    ensures forall k :: k in FlattenItem(arr, i, key) ==> IndexKey(key, i) <= k
    decreases arr, 1
  {
    var item := arr.items[i];
    if IsObjectLike(item) {
      FlattenUnderPrefix(item, IndexKey(key, i));
      forall k | k in Flatten(item, IndexKey(key, i))
        ensures IndexKey(key, i) <= k
      {
        PrefixTrans(IndexKey(key, i), IndexKey(key, i) + "_", k);
      }
    }
  }

  /** Starting-with is transitive. */
  lemma PrefixTrans(a: string, b: string, c: string)
    requires a <= b && b <= c
    ensures a <= c
  {
    assert c[..|b|] == b;
  }

  // ---------------------------------------------------------------------
  // Enumeration order and last-write-wins

  /** A key is written exactly when some entry writes it. */
  lemma {:induction false} EntriesKeys(v: Json, n: nat, prefix: string, k: string)
    requires n <= |Entries(v)|
    ensures k in FlattenEntries(v, n, prefix) <==> exists j :: 0 <= j < n && k in FlattenEntry(v, j, prefix)
  {
    if n > 0 {
      EntriesKeys(v, n - 1, prefix, k);
      if k in FlattenEntry(v, n - 1, prefix) {
        assert 0 <= n - 1 < n && k in FlattenEntry(v, n - 1, prefix);
      }
      if exists j :: 0 <= j < n && k in FlattenEntry(v, j, prefix) {
        var j :| 0 <= j < n && k in FlattenEntry(v, j, prefix);
        if j < n - 1 {
          assert exists j' :: 0 <= j' < n - 1 && k in FlattenEntry(v, j', prefix);
        }
      }
    }
  }

  /** The value of a key is the one written by the last entry that writes it. */
  lemma {:induction false} EntriesLastWriteWins(v: Json, n: nat, prefix: string, k: string, j: nat)
    requires j < n <= |Entries(v)|
    requires k in FlattenEntry(v, j, prefix)
    requires forall j' :: j < j' < n ==> k !in FlattenEntry(v, j', prefix)
    ensures k in FlattenEntries(v, n, prefix)
    ensures FlattenEntries(v, n, prefix)[k] == FlattenEntry(v, j, prefix)[k]
  {
    if j < n - 1 {
      EntriesLastWriteWins(v, n - 1, prefix, k, j);
    }
  }

  /** A record whose values are all scalars (null included) flattens, at
      the top level, to its own keys; each key holds the value of its last
      occurrence, so with distinct keys nothing is renamed or lost. */
  lemma ScalarRecord(fs: seq<(string, Json)>)
    requires forall i :: 0 <= i < |fs| ==> IsScalar(fs[i].1)
    ensures forall k :: k in Flatten(JObj(fs), "") <==> exists i :: 0 <= i < |fs| && fs[i].0 == k
    ensures forall i :: 0 <= i < |fs| && (forall i' :: i < i' < |fs| ==> fs[i'].0 != fs[i].0) ==>
              Flatten(JObj(fs), "")[fs[i].0] == fs[i].1
  {
    var v := JObj(fs);
    assert Entries(v) == fs;
    assert Flatten(v, "") == FlattenEntries(v, |fs|, "");
    forall j | 0 <= j < |fs|
      ensures FlattenEntry(v, j, "") == map[fs[j].0 := fs[j].1]
    {
    }
    forall k
      ensures k in Flatten(v, "") <==> exists i :: 0 <= i < |fs| && fs[i].0 == k
    {
      EntriesKeys(v, |fs|, "", k);
      if k in Flatten(v, "") {
        var j :| 0 <= j < |fs| && k in FlattenEntry(v, j, "");
        assert fs[j].0 == k;
      } else {
        forall i | 0 <= i < |fs|
          ensures fs[i].0 != k
        {
          assert k !in FlattenEntry(v, i, "");
        }
      }
    }
    forall i | 0 <= i < |fs| && (forall i' :: i < i' < |fs| ==> fs[i'].0 != fs[i].0)
      ensures Flatten(v, "")[fs[i].0] == fs[i].1
    {
      EntriesLastWriteWins(v, |fs|, "", fs[i].0, i);
    }
  }

  /** A one-field record writes exactly what its field writes. */
  lemma OneField(k: string, child: Json)
    ensures Flatten(JObj([(k, child)]), "") == FlattenEntry(JObj([(k, child)]), 0, "")
  {
    var v := JObj([(k, child)]);
    assert |Entries(v)| == 1;
    assert FlattenEntries(v, 1, "") == map[] + FlattenEntry(v, 0, "");
  }

  // ---------------------------------------------------------------------
  // Arrays

  /** Element keys are distinct from each other and from the count key. */
  lemma IndexKeyDistinct(key: string, i: nat, i': nat)
    ensures IndexKey(key, i) == IndexKey(key, i') <==> i == i'
    ensures IndexKey(key, i) != CountKey(key)
  {
    var a, b := IndexKey(key, i), IndexKey(key, i');
    if a == b {
      assert NatStr(i + 1) == a[|key| + 1..];
      assert NatStr(i' + 1) == b[|key| + 1..];
      NatStrInjective(i + 1, i' + 1);
    }
    assert IndexKey(key, i)[|key| + 1] == NatStr(i + 1)[0];
    assert CountKey(key)[|key| + 1] == 'c';
  }

  /** The first `n` scalar elements of an array are written to the keys
      `key_1 … key_n`, in order (and, by `ScalarItemsOnly`, to no other). */
  lemma {:induction false} ScalarItems(arr: Json, n: nat, key: string)
    requires arr.JArr? && n <= |arr.items|
    requires forall i :: 0 <= i < |arr.items| ==> IsScalar(arr.items[i])
    ensures forall i :: 0 <= i < n ==>
              IndexKey(key, i) in FlattenItems(arr, n, key) && FlattenItems(arr, n, key)[IndexKey(key, i)] == arr.items[i]
  {
    if n > 0 {
      ScalarItems(arr, n - 1, key);
      ScalarItemStep(arr, n, key);
      var r := FlattenItems(arr, n, key);
      forall i | 0 <= i < n
        ensures IndexKey(key, i) in r && r[IndexKey(key, i)] == arr.items[i]
      {
        if i < n - 1 {
          ScalarItemKeeps(arr, n, key, i);
        }
      }
    }
  }

  /** The first `n` scalar elements write no key but `key_1 … key_n`. */
  lemma {:induction false} ScalarItemsOnly(arr: Json, n: nat, key: string)
    requires arr.JArr? && n <= |arr.items|
    requires forall i :: 0 <= i < |arr.items| ==> IsScalar(arr.items[i])
    ensures forall k :: k in FlattenItems(arr, n, key) ==> exists i :: 0 <= i < n && k == IndexKey(key, i)
  {
    if n > 0 {
      ScalarItemsOnly(arr, n - 1, key);
      ScalarItemStep(arr, n, key);
      forall k | k in FlattenItems(arr, n, key)
        ensures exists i :: 0 <= i < n && k == IndexKey(key, i)
      {
        if k == IndexKey(key, n - 1) {
          assert 0 <= n - 1 < n;
        }
      }
    }
  }

  /** One step of the array loop over a scalar element writes exactly that
      element at its 1-based key, over what was there. */
  lemma ScalarItemStep(arr: Json, n: nat, key: string)
    requires arr.JArr? && 0 < n <= |arr.items| && IsScalar(arr.items[n - 1])
    ensures FlattenItems(arr, n, key).Keys == FlattenItems(arr, n - 1, key).Keys + {IndexKey(key, n - 1)}
    ensures FlattenItems(arr, n, key)[IndexKey(key, n - 1)] == arr.items[n - 1]
  {
    assert FlattenItem(arr, n - 1, key) == map[IndexKey(key, n - 1) := arr.items[n - 1]];
  }

  /** A scalar element does not disturb what earlier elements wrote. */
  lemma ScalarItemKeeps(arr: Json, n: nat, key: string, i: nat)
    requires arr.JArr? && 0 <= i < n - 1 && n <= |arr.items| && IsScalar(arr.items[n - 1])
    requires IndexKey(key, i) in FlattenItems(arr, n - 1, key)
    ensures IndexKey(key, i) in FlattenItems(arr, n, key)
    ensures FlattenItems(arr, n, key)[IndexKey(key, i)] == FlattenItems(arr, n - 1, key)[IndexKey(key, i)]
  {
    IndexKeyDistinct(key, i, n - 1);
    assert FlattenItem(arr, n - 1, key) == map[IndexKey(key, n - 1) := arr.items[n - 1]];
  }

  /** An array of `n` scalars under key `k` flattens to `k_1 … k_n` holding
      its elements in order, plus `k_count` holding `n`, and nothing else. */
  lemma ScalarArrayField(k: string, items: seq<Json>)
    requires forall i :: 0 <= i < |items| ==> IsScalar(items[i])
    ensures Flatten(JObj([(k, JArr(items))]), "").Keys ==
              {CountKey(k)} + set i | 0 <= i < |items| :: IndexKey(k, i)
    ensures Flatten(JObj([(k, JArr(items))]), "")[CountKey(k)] == JNum(|items|)
    ensures forall i :: 0 <= i < |items| ==> Flatten(JObj([(k, JArr(items))]), "")[IndexKey(k, i)] == items[i]
  {
    var arr := JArr(items);
    var r := Flatten(JObj([(k, arr)]), "");
    var elems := FlattenItems(arr, |items|, k);
    OneField(k, arr);
    assert r == elems[CountKey(k) := JNum(|items|)];
    ScalarItems(arr, |items|, k);
    ScalarItemsOnly(arr, |items|, k);
    forall i | 0 <= i < |items|
      ensures IndexKey(k, i) != CountKey(k)
    {
      IndexKeyDistinct(k, i, i);
    }
  }

  /** An empty array contributes only its count, 0. */
  lemma EmptyArrayField(k: string)
    ensures Flatten(JObj([(k, JArr([]))]), "") == map[CountKey(k) := JNum(0)]
  {
    ScalarArrayField(k, []);
  }

  // ---------------------------------------------------------------------
  // Nested objects

  /** A nested object under a non-empty key `k` is flattened under the
      prefix `k`: every key it contributes starts with `k_`, and `k`
      itself is not a key. */
  lemma NestedObjectField(k: string, inner: seq<(string, Json)>)
    requires k != ""
    ensures Flatten(JObj([(k, JObj(inner))]), "") == Flatten(JObj(inner), k)
    ensures forall key :: key in Flatten(JObj([(k, JObj(inner))]), "") ==> k + "_" <= key
    ensures k !in Flatten(JObj([(k, JObj(inner))]), "")
  {
    OneField(k, JObj(inner));
    FlattenUnderPrefix(JObj(inner), k);
  }

  /** The prefix test is truthiness, so at the top level a nested object
      under the key `""` gets no prefix: its keys are its own. */
  lemma EmptyKeyField(inner: seq<(string, Json)>)
    ensures Flatten(JObj([("", JObj(inner))]), "") == Flatten(JObj(inner), "")
  {
    OneField("", JObj(inner));
  }

  /** Under a non-empty prefix the key `""` is joined like any other:
      `{a: {"": {x: 1}}}` becomes `{a__x: 1}`. */
  lemma EmptyKeyUnderPrefixExample()
    ensures Flatten(JObj([("a", JObj([("", JObj([("x", JNum(1))]))]))]), "") == map["a__x" := JNum(1)]
  {
    var leaf := JObj([("x", JNum(1))]);
    var mid := JObj([("", leaf)]);
    OneField("a", mid);
    assert |Entries(mid)| == 1 && |Entries(leaf)| == 1;
    assert FlattenEntries(mid, 1, "a") == map[] + FlattenEntry(mid, 0, "a");
    assert JoinKey("a", "") == "a_";
    assert FlattenEntries(leaf, 1, "a_") == map[] + FlattenEntry(leaf, 0, "a_");
    assert JoinKey("a_", "x") == "a__x";
  }

  // ---------------------------------------------------------------------
  // Worked cases

  lemma SmallNumerals()
    ensures NatStr(0) == "0" && NatStr(1) == "1" && NatStr(2) == "2" && NatStr(3) == "3"
  {
  }

  /** A two-field record writes its first field, then its second. */
  lemma TwoFields(a: (string, Json), b: (string, Json))
    ensures Flatten(JObj([a, b]), "") == FlattenEntry(JObj([a, b]), 0, "") + FlattenEntry(JObj([a, b]), 1, "")
  {
    var v := JObj([a, b]);
    assert |Entries(v)| == 2;
    assert FlattenEntries(v, 1, "") == map[] + FlattenEntry(v, 0, "");
    assert FlattenEntries(v, 2, "") == FlattenEntries(v, 1, "") + FlattenEntry(v, 1, "");
  }

  /** `{items: [1, 2, 3]}` becomes `{items_1: 1, items_2: 2, items_3: 3, items_count: 3}`. */
  lemma ArrayExample()
    ensures Flatten(JObj([("items", JArr([JNum(1), JNum(2), JNum(3)]))]), "") ==
              map["items_1" := JNum(1), "items_2" := JNum(2), "items_3" := JNum(3), "items_count" := JNum(3)]
  {
    var arr := JArr([JNum(1), JNum(2), JNum(3)]);
    assert FlattenItems(arr, 1, "items") == map["items_1" := JNum(1)] by {
      SmallNumerals();
      assert IndexKey("items", 0) == "items_1";
      assert FlattenItems(arr, 1, "items") == map[] + FlattenItem(arr, 0, "items");
    }
    assert FlattenItems(arr, 2, "items") == map["items_1" := JNum(1), "items_2" := JNum(2)] by {
      SmallNumerals();
      assert IndexKey("items", 1) == "items_2";
      assert FlattenItems(arr, 2, "items") == FlattenItems(arr, 1, "items") + FlattenItem(arr, 1, "items");
    }
    assert FlattenItems(arr, 3, "items") == map["items_1" := JNum(1), "items_2" := JNum(2), "items_3" := JNum(3)] by {
      SmallNumerals();
      assert IndexKey("items", 2) == "items_3";
      assert FlattenItems(arr, 3, "items") == FlattenItems(arr, 2, "items") + FlattenItem(arr, 2, "items");
    }
    OneField("items", arr);
    assert CountKey("items") == "items_count";
  }

  /** `{a: {b: 5}}` becomes `{a_b: 5}`. */
  lemma NestedExample()
    ensures Flatten(JObj([("a", JObj([("b", JNum(5))]))]), "") == map["a_b" := JNum(5)]
  {
    var inner := JObj([("b", JNum(5))]);
    OneField("a", inner);
    assert Flatten(inner, "a") == map[] + FlattenEntry(inner, 0, "a");
    assert JoinKey("a", "b") == "a_b";
  }

  /** `{hits: [{x: 1}, {x: 2}]}` becomes `{hits_1_x: 1, hits_2_x: 2, hits_count: 2}`. */
  lemma ArrayOfObjectsExample()
    ensures Flatten(JObj([("hits", JArr([JObj([("x", JNum(1))]), JObj([("x", JNum(2))])]))]), "") ==
              map["hits_1_x" := JNum(1), "hits_2_x" := JNum(2), "hits_count" := JNum(2)]
  {
    var o1, o2 := JObj([("x", JNum(1))]), JObj([("x", JNum(2))]);
    var arr := JArr([o1, o2]);
    assert FlattenItem(arr, 0, "hits") == map["hits_1_x" := JNum(1)] by {
      SmallNumerals();
      assert IndexKey("hits", 0) == "hits_1" && JoinKey("hits_1", "x") == "hits_1_x";
      assert Flatten(o1, "hits_1") == map[] + FlattenEntry(o1, 0, "hits_1");
    }
    assert FlattenItem(arr, 1, "hits") == map["hits_2_x" := JNum(2)] by {
      SmallNumerals();
      assert IndexKey("hits", 1) == "hits_2" && JoinKey("hits_2", "x") == "hits_2_x";
      assert Flatten(o2, "hits_2") == map[] + FlattenEntry(o2, 0, "hits_2");
    }
    assert FlattenItems(arr, 2, "hits") == map["hits_1_x" := JNum(1), "hits_2_x" := JNum(2)] by {
      assert FlattenItems(arr, 1, "hits") == map[] + FlattenItem(arr, 0, "hits");
      assert FlattenItems(arr, 2, "hits") == FlattenItems(arr, 1, "hits") + FlattenItem(arr, 1, "hits");
    }
    OneField("hits", arr);
    assert CountKey("hits") == "hits_count";
  }

  /** An array inside an array is walked as an object: its elements get
      0-based keys and it gets no count. `{k: [[7, 8]]}` becomes
      `{k_1_0: 7, k_1_1: 8, k_count: 1}`. */
  lemma NestedArrayExample()
    ensures Flatten(JObj([("k", JArr([JArr([JNum(7), JNum(8)])]))]), "") ==
              map["k_1_0" := JNum(7), "k_1_1" := JNum(8), "k_count" := JNum(1)]
  {
    var inner := JArr([JNum(7), JNum(8)]);
    var arr := JArr([inner]);
    OneField("k", arr);
    SmallNumerals();
    assert IndexKey("k", 0) == "k_1" && CountKey("k") == "k_count";
    assert JoinKey("k_1", "0") == "k_1_0" && JoinKey("k_1", "1") == "k_1_1";
    assert Entries(inner) == [("0", JNum(7)), ("1", JNum(8))];
    assert FlattenEntries(inner, 1, "k_1") == map[] + FlattenEntry(inner, 0, "k_1");
    assert FlattenEntries(inner, 2, "k_1") == FlattenEntries(inner, 1, "k_1") + FlattenEntry(inner, 1, "k_1");
    assert FlattenItems(arr, 1, "k") == map[] + FlattenItem(arr, 0, "k");
  }

  /** Collisions go to the later entry: `{a: {b: 1}, a_b: 2}` gives
      `{a_b: 2}`, and `{a_b: 2, a: {b: 1}}` gives `{a_b: 1}`. */
  lemma CollisionExample()
    ensures Flatten(JObj([("a", JObj([("b", JNum(1))])), ("a_b", JNum(2))]), "") == map["a_b" := JNum(2)]
    ensures Flatten(JObj([("a_b", JNum(2)), ("a", JObj([("b", JNum(1))]))]), "") == map["a_b" := JNum(1)]
  {
    var inner := JObj([("b", JNum(1))]);
    assert Flatten(inner, "a") == map[] + FlattenEntry(inner, 0, "a");
    assert JoinKey("a", "b") == "a_b";
    TwoFields(("a", inner), ("a_b", JNum(2)));
    TwoFields(("a_b", JNum(2)), ("a", inner));
  }

  /** The count key is an ordinary key: a later field of the same name
      overwrites it, and a later array overwrites an earlier field. */
  lemma CountCollisionExample()
    ensures Flatten(JObj([("a", JArr([])), ("a_count", JNum(5))]), "") == map["a_count" := JNum(5)]
    ensures Flatten(JObj([("a_count", JNum(5)), ("a", JArr([]))]), "") == map["a_count" := JNum(0)]
  {
    assert CountKey("a") == "a_count";
    TwoFields(("a", JArr([])), ("a_count", JNum(5)));
    TwoFields(("a_count", JNum(5)), ("a", JArr([])));
  }

  // ---------------------------------------------------------------------
  // The loops of `flattenPayload`

  lemma UnionAssoc(a: FlatMap, b: FlatMap, c: FlatMap)
    ensures (a + b) + c == a + (b + c)
  {
  }

  lemma UnionUpdate(a: FlatMap, b: FlatMap, k: string, x: Json)
    ensures (a + b)[k := x] == a + b[k := x]
  {
  }

  /** One step of the outer loop over an array value: its elements, then
      its count, over what the earlier entries wrote. */
  lemma ArrayEntryStep(v: Json, j: nat, prefix: string)
    requires j < |Entries(v)| && Entries(v)[j].1.JArr?
    ensures var value, newKey := Entries(v)[j].1, JoinKey(prefix, Entries(v)[j].0);
            FlattenEntries(v, j + 1, prefix) ==
              FlattenEntries(v, j, prefix) + FlattenItems(value, |value.items|, newKey)[CountKey(newKey) := JNum(|value.items|)]
  {
  }

  /** One step of the outer loop over a nested object value. */
  lemma ObjectEntryStep(v: Json, j: nat, prefix: string)
    requires j < |Entries(v)| && Entries(v)[j].1.JObj?
    ensures FlattenEntries(v, j + 1, prefix) ==
              FlattenEntries(v, j, prefix) + Flatten(Entries(v)[j].1, JoinKey(prefix, Entries(v)[j].0))
  {
  }

  /** One step of the outer loop over a scalar value. */
  lemma ScalarEntryStep(v: Json, j: nat, prefix: string)
    requires j < |Entries(v)| && IsScalar(Entries(v)[j].1)
    ensures FlattenEntries(v, j + 1, prefix) ==
              FlattenEntries(v, j, prefix)[JoinKey(prefix, Entries(v)[j].0) := Entries(v)[j].1]
  {
    var newKey, value := JoinKey(prefix, Entries(v)[j].0), Entries(v)[j].1;
    assert FlattenEntry(v, j, prefix) == map[newKey := value];
  }

  /** One step of the array loop over an object-like element, written
      into `into`. */
  lemma ObjectItemStep(into: FlatMap, arr: Json, i: nat, key: string)
    requires arr.JArr? && i < |arr.items| && IsObjectLike(arr.items[i])
    ensures into + FlattenItems(arr, i + 1, key) ==
              (into + FlattenItems(arr, i, key)) + Flatten(arr.items[i], IndexKey(key, i))
  {
    UnionAssoc(into, FlattenItems(arr, i, key), Flatten(arr.items[i], IndexKey(key, i)));
  }

  /** One step of the array loop over a scalar element, written into `into`. */
  lemma ScalarItemInto(into: FlatMap, arr: Json, i: nat, key: string)
    requires arr.JArr? && i < |arr.items| && IsScalar(arr.items[i])
    ensures into + FlattenItems(arr, i + 1, key) ==
              (into + FlattenItems(arr, i, key))[IndexKey(key, i) := arr.items[i]]
  {
    assert FlattenItem(arr, i, key) == map[IndexKey(key, i) := arr.items[i]];
    UnionUpdate(into, FlattenItems(arr, i, key), IndexKey(key, i), arr.items[i]);
  }

  /** `for (var nestedKey in nestedFlat) flattened[nestedKey] = nestedFlat[nestedKey];`
      copies every nested key, overwriting what was there. */
  method Merge(into: FlatMap, from: FlatMap) returns (r: FlatMap)
    ensures r == into + from
  {
    r := into;
    var pending := from.Keys;
    while pending != {}
      invariant pending <= from.Keys
      invariant r.Keys == into.Keys + (from.Keys - pending)
      invariant forall k :: k in r ==> r[k] == if k in from && k !in pending then from[k] else into[k]
      decreases pending
    {
      var k :| k in pending;
      r := r[k := from[k]];
      pending := pending - {k};
    }
  }

  /** `flattenPayload(obj, prefix)` as the source runs it: a loop over
      the enumerated entries, recursive calls for nested objects; an array
      value is handled by `FlattenArrayInto`, the source's inner loop. */
  method FlattenPayload(obj: Json, prefix: string) returns (flattened: FlatMap)
    ensures flattened == Flatten(obj, prefix)
    decreases obj, 1
  {
    flattened := map[];
    var entries := Entries(obj);
    var j := 0;
    while j < |entries|
      invariant j <= |entries|
      invariant flattened == FlattenEntries(obj, j, prefix)
    {
      var key, value := entries[j].0, entries[j].1;
      var newKey := JoinKey(prefix, key);
      if value.JArr? {
        ArrayEntryStep(obj, j, prefix);
        flattened := FlattenArrayInto(flattened, value, newKey);
      } else if value.JObj? {
        ObjectEntryStep(obj, j, prefix);
        var nestedFlat := FlattenPayload(value, newKey);
        flattened := Merge(flattened, nestedFlat);
      } else {
        ScalarEntryStep(obj, j, prefix);
        flattened := flattened[newKey := value];
      }
      j := j + 1;
    }
  }

  /** The source's loop over an array stored under `key`: each element in
      turn, then `key_count`, written into `into`. */
  method FlattenArrayInto(into: FlatMap, arr: Json, key: string) returns (flattened: FlatMap)
    requires arr.JArr?
    ensures flattened == into + FlattenItems(arr, |arr.items|, key)[CountKey(key) := JNum(|arr.items|)]
    decreases arr, 0
  {
    flattened := into;
    var i := 0;
    while i < |arr.items|
      invariant i <= |arr.items|
      invariant flattened == into + FlattenItems(arr, i, key)
    {
      var item := arr.items[i];
      if IsObjectLike(item) {
        ObjectItemStep(into, arr, i, key);
        var nestedFlat := FlattenPayload(item, IndexKey(key, i));
        flattened := Merge(flattened, nestedFlat);
      } else {
        ScalarItemInto(into, arr, i, key);
        flattened := flattened[IndexKey(key, i) := item];
      }
      i := i + 1;
    }
    UnionUpdate(into, FlattenItems(arr, |arr.items|, key), CountKey(key), JNum(|arr.items|));
    flattened := flattened[CountKey(key) := JNum(|arr.items|)];
  }
}
