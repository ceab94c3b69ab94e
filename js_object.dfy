/** The order in which `Object.keys` lists the own keys of a plain object
    (section 10.1.11.1 of ECMA-262): keys that are array indexes first, in
    ascending numeric order, then every other string key in the order it was
    added. */
module JsObject {
  import opened Text
  import opened Seqs

  /** The sort key of array-index keys: their numeric value. */
  function IndexValue(k: string): int {
    if IsArrayIndex(k) then DecimalValue(k) else 0
  }

  function NotArrayIndex(k: string): bool {
    !IsArrayIndex(k)
  }

  /** Splitting by a condition and its negation loses and adds nothing. */
  lemma SplitIsPermutation(keys: seq<string>)
    ensures multiset(Filter(keys, IsArrayIndex)) + multiset(Filter(keys, NotArrayIndex)) == multiset(keys)
  {
    forall x ensures (multiset(Filter(keys, IsArrayIndex)) + multiset(Filter(keys, NotArrayIndex)))[x] == multiset(keys)[x] {
      FilterMultiset(keys, IsArrayIndex, x);
      FilterMultiset(keys, NotArrayIndex, x);
    }
  }

  /** A sequence of array indexes filters to nothing under the negation. */
  lemma NoOthersAmongIndexes(s: seq<string>)
    requires forall x :: x in s ==> IsArrayIndex(x)
    ensures Filter(s, NotArrayIndex) == []
  {
    forall x ensures multiset(Filter(s, NotArrayIndex))[x] == 0 {
      FilterMultiset(s, NotArrayIndex, x);
    }
  }

  /** `Object.keys` of an object whose own keys were added in the order
      `keys`. */
  function ObjectKeys(keys: seq<string>): seq<string> {
    SortAsc(Filter(keys, IsArrayIndex), IndexValue) + Filter(keys, NotArrayIndex)
  }

  /** `Object.keys` lists the same keys. */
  lemma ObjectKeysPermutation(keys: seq<string>)
    ensures multiset(ObjectKeys(keys)) == multiset(keys)
  {
    SplitIsPermutation(keys);
  }

  /** Array indexes come before all other keys, in ascending numeric order. */
  lemma ObjectKeysIndexesFirst(keys: seq<string>)
    ensures var r := ObjectKeys(keys);
      forall i, j :: 0 <= i < j < |r| && IsArrayIndex(r[j]) ==> IsArrayIndex(r[i]) && IndexValue(r[i]) <= IndexValue(r[j])
  {
    var indexes := Filter(keys, IsArrayIndex);
    var others := Filter(keys, NotArrayIndex);
    var sorted := SortAsc(indexes, IndexValue);
    var r := sorted + others;
    forall j | |sorted| <= j < |r| ensures !IsArrayIndex(r[j]) {
      assert r[j] == others[j - |sorted|];
    }
    forall i, j | 0 <= i < j < |r| && IsArrayIndex(r[j])
      ensures IsArrayIndex(r[i]) && IndexValue(r[i]) <= IndexValue(r[j])
    {
      if j < |sorted| {
        assert r[i] == sorted[i] && r[j] == sorted[j];
        assert sorted[i] in multiset(indexes);
      }
    }
  }

  /** The other keys keep their insertion order. */
  lemma ObjectKeysOthersInOrder(keys: seq<string>)
    ensures Filter(ObjectKeys(keys), NotArrayIndex) == Filter(keys, NotArrayIndex)
  {
    var indexes := Filter(keys, IsArrayIndex);
    var others := Filter(keys, NotArrayIndex);
    var sorted := SortAsc(indexes, IndexValue);
    forall x | x in sorted ensures IsArrayIndex(x) {
      assert x in multiset(indexes);
    }
    NoOthersAmongIndexes(sorted);
    FilterAppend(sorted, others, NotArrayIndex);
    forall x | x in others ensures NotArrayIndex(x) {
      var i :| 0 <= i < |others| && others[i] == x;
    }
    FilterAll(others, NotArrayIndex);
    assert Filter(ObjectKeys(keys), NotArrayIndex) == [] + others;
  }

  /** Without array-index keys, `Object.keys` is the insertion order. */
  lemma ObjectKeysPlain(keys: seq<string>)
    requires forall i :: 0 <= i < |keys| ==> !IsArrayIndex(keys[i])
    ensures ObjectKeys(keys) == keys
  {
    var r := ObjectKeys(keys);
    ObjectKeysPermutation(keys);
    assert forall x :: x in r ==> x in multiset(keys);
    ObjectKeysOthersInOrder(keys);
    FilterAll(r, NotArrayIndex);
    FilterAll(keys, NotArrayIndex);
  }

  /** "1" is an array index. */
  lemma OneIsArrayIndex()
    ensures IsArrayIndex("1")
  {
    var k := "1";
    assert k[..0] == [];
    assert DecimalValue(k) == 1;
  }

  /** An array index added after a plain key is listed before it. */
  lemma IndexAfterPlain(plain: string, index: string)
    requires !IsArrayIndex(plain) && IsArrayIndex(index)
    ensures ObjectKeys([plain, index]) == [index, plain]
  {
    var keys := [plain, index];
    assert keys[1..] == [index] && keys[1..][1..] == [];
    assert Filter(keys, IsArrayIndex) == [index];
    assert Filter(keys, NotArrayIndex) == [plain];
    var sorted := SortAsc([index], IndexValue);
    assert |sorted| == |multiset(sorted)| == 1 && sorted[0] in multiset([index]);
  }

  /** Adding "USD" and then "1" lists "1" first. */
  lemma IndexKeyListedFirst()
    ensures ObjectKeys(["USD", "1"]) == ["1", "USD"]
  {
    var usd := "USD";
    assert !IsArrayIndex(usd) by {
      assert !IsDigit(usd[0]);
    }
    OneIsArrayIndex();
    IndexAfterPlain(usd, "1");
  }
}
