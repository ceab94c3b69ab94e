/** The collection operations the store queries and aggregation pipelines are
    built from: `$match` is Filter, `$sum` is Sum, `$group` is GroupBy (one
    entry per distinct key, in order of first appearance), `findOne` is Find,
    `sort` is SortDesc/SortAsc, and `findOneAndDelete`/`findOneAndUpdate` act
    on the first matching document. */
module Seqs {
  import opened Outcome

  function Filter<T>(s: seq<T>, p: T -> bool): (r: seq<T>)
    ensures |r| <= |s|
    ensures forall i :: 0 <= i < |r| ==> p(r[i]) && r[i] in s
  {
    if s == [] then [] else (if p(s[0]) then [s[0]] else []) + Filter(s[1..], p)
  }

  /** Every record that passes the filter is kept. */
  lemma {:induction false} FilterKeeps<T>(s: seq<T>, p: T -> bool, i: nat)
    requires i < |s| && p(s[i])
    ensures s[i] in Filter(s, p)
  {
    if i > 0 {
      FilterKeeps(s[1..], p, i - 1);
    }
  }

  function Sum<T>(s: seq<T>, f: T -> int): int {
    if s == [] then 0 else f(s[0]) + Sum(s[1..], f)
  }

  /** Both conditions at once: the conjunction of two `$match` fields. */
  function Both<T>(p: T -> bool, q: T -> bool): T -> bool {
    x => p(x) && q(x)
  }

  /** The records whose `key` equals `k`. */
  function Is<T, K(==)>(key: T -> K, k: K): T -> bool {
    x => key(x) == k
  }

  lemma {:induction false} FilterAppend<T>(a: seq<T>, b: seq<T>, p: T -> bool)
    ensures Filter(a + b, p) == Filter(a, p) + Filter(b, p)
  {
    if a != [] {
      assert (a + b)[1..] == a[1..] + b;
      FilterAppend(a[1..], b, p);
    } else {
      assert a + b == b;
    }
  }

  lemma {:induction false} SumAppend<T>(a: seq<T>, b: seq<T>, f: T -> int)
    ensures Sum(a + b, f) == Sum(a, f) + Sum(b, f)
  {
    if a != [] {
      assert (a + b)[1..] == a[1..] + b;
      SumAppend(a[1..], b, f);
    } else {
      assert a + b == b;
    }
  }

  /** Filtering the filtered records is filtering by both conditions. */
  lemma {:induction false} FilterFilter<T>(s: seq<T>, p: T -> bool, q: T -> bool)
    ensures Filter(Filter(s, p), q) == Filter(s, Both(p, q))
  {
    if s != [] {
      FilterFilter(s[1..], p, q);
      var fp := Filter(s, p);
      if p(s[0]) {
        assert fp == [s[0]] + Filter(s[1..], p);
        assert fp[0] == s[0] && fp[1..] == Filter(s[1..], p);
      } else {
        assert fp == Filter(s[1..], p);
      }
    }
  }

  /** Appending one record adds its amount to the filtered sum when it
      passes the filter, and nothing otherwise. */
  lemma FilterSumAppendOne<T>(s: seq<T>, x: T, p: T -> bool, f: T -> int)
    ensures Sum(Filter(s + [x], p), f) == Sum(Filter(s, p), f) + (if p(x) then f(x) else 0)
  {
    FilterAppend(s, [x], p);
    assert Filter([x], p) == if p(x) then [x] else [];
    SumAppend(Filter(s, p), Filter([x], p), f);
  }

  /** Removing the record at `i` takes its amount out of the filtered sum
      when it passed the filter, and nothing otherwise. */
  lemma {:induction false} FilterSumRemoveAt<T>(s: seq<T>, i: nat, p: T -> bool, f: T -> int)
    requires i < |s|
    ensures Sum(Filter(s, p), f)
      == Sum(Filter(s[..i] + s[i + 1..], p), f) + (if p(s[i]) then f(s[i]) else 0)
  {
    var a, b := s[..i], s[i + 1..];
    assert s == a + ([s[i]] + b);
    FilterAppend(a, [s[i]] + b, p);
    FilterAppend([s[i]], b, p);
    FilterAppend(a, b, p);
    assert Filter([s[i]], p) == if p(s[i]) then [s[i]] else [];
    SumAppend(Filter(a, p), Filter([s[i]] + b, p), f);
    SumAppend(Filter([s[i]], p), Filter(b, p), f);
    SumAppend(Filter(a, p), Filter(b, p), f);
  }

  /** Filtering first by a weaker condition changes nothing. */
  lemma FilterNarrowing<T>(s: seq<T>, p: T -> bool, q: T -> bool)
    requires forall i :: 0 <= i < |s| && q(s[i]) ==> p(s[i])
    ensures Filter(Filter(s, p), q) == Filter(s, q)
  {
    FilterFilter(s, p, q);
    FilterCongruent(s, Both(p, q), q);
  }

  /** A condition every record already meets filters nothing out. */
  lemma {:induction false} FilterAll<T>(s: seq<T>, p: T -> bool)
    requires forall x :: x in s ==> p(x)
    ensures Filter(s, p) == s
  {
    if s != [] {
      assert forall x :: x in s[1..] ==> x in s;
      FilterAll(s[1..], p);
    }
  }

  /** Conditions that agree on every record select the same records. */
  lemma {:induction false} FilterCongruent<T>(s: seq<T>, p: T -> bool, q: T -> bool)
    requires forall x :: x in s ==> (p(x) <==> q(x))
    ensures Filter(s, p) == Filter(s, q)
  {
    if s != [] {
      assert forall x :: x in s[1..] ==> x in s;
      FilterCongruent(s[1..], p, q);
    }
  }

  /** A sum of non-negative amounts is non-negative. */
  lemma {:induction false} SumNonNegative<T>(s: seq<T>, f: T -> int)
    requires forall x :: x in s ==> f(x) >= 0
    ensures Sum(s, f) >= 0
  {
    if s != [] {
      assert forall x :: x in s[1..] ==> x in s;
      SumNonNegative(s[1..], f);
    }
  }

  /** With non-negative amounts, a narrower condition sums to no more. */
  lemma {:induction false} SumFilterMonotone<T>(s: seq<T>, p: T -> bool, q: T -> bool, f: T -> int)
    requires forall x :: x in s ==> f(x) >= 0
    requires forall x :: x in s && p(x) ==> q(x)
    ensures Sum(Filter(s, p), f) <= Sum(Filter(s, q), f)
  {
    if s != [] {
      assert forall x :: x in s[1..] ==> x in s;
      SumFilterMonotone(s[1..], p, q, f);
      var head_p := if p(s[0]) then [s[0]] else [];
      var head_q := if q(s[0]) then [s[0]] else [];
      SumAppend(head_p, Filter(s[1..], p), f);
      SumAppend(head_q, Filter(s[1..], q), f);
    }
  }

  /** How many times each record survives a filter. */
  lemma {:induction false} FilterMultiset<T>(s: seq<T>, p: T -> bool, x: T)
    ensures multiset(Filter(s, p))[x] == if p(x) then multiset(s)[x] else 0
  {
    if s != [] {
      FilterMultiset(s[1..], p, x);
      assert s == [s[0]] + s[1..];
      assert multiset(s) == multiset{s[0]} + multiset(s[1..]);
    }
  }

  /** Filters commute with reordering: the same records in another order
      filter to the same records in some order. */
  lemma FilterPermutation<T>(a: seq<T>, b: seq<T>, p: T -> bool)
    requires multiset(a) == multiset(b)
    ensures multiset(Filter(a, p)) == multiset(Filter(b, p))
  {
    forall x ensures multiset(Filter(a, p))[x] == multiset(Filter(b, p))[x] {
      FilterMultiset(a, p, x);
      FilterMultiset(b, p, x);
    }
  }

  /** Taking one occurrence of `x[0]` out of two equal multisets leaves equal
      multisets. */
  lemma RemoveOne<T>(x: seq<T>, y: seq<T>, i: nat)
    requires multiset(x) == multiset(y) && x != [] && i < |y| && y[i] == x[0]
    ensures multiset(x[1..]) == multiset(y[..i] + y[i + 1..])
  {
    assert x == [x[0]] + x[1..];
    assert y == y[..i] + [y[i]] + y[i + 1..];
    assert multiset(x) == multiset{x[0]} + multiset(x[1..]);
    assert multiset(y) == multiset(y[..i]) + multiset{y[i]} + multiset(y[i + 1..]);
    assert multiset(x[1..]) == multiset(x) - multiset{x[0]};
  }

  /** Sums do not depend on the order of the records. */
  lemma {:induction false} SumPermutation<T>(a: seq<T>, b: seq<T>, f: T -> int)
    requires multiset(a) == multiset(b)
    ensures Sum(a, f) == Sum(b, f)
  {
    if a != [] {
      assert a[0] in multiset(b);
      var i :| 0 <= i < |b| && b[i] == a[0];
      var rest := b[..i] + b[i + 1..];
      assert b == b[..i] + ([b[i]] + b[i + 1..]);
      SumAppend(b[..i], [b[i]] + b[i + 1..], f);
      SumAppend([b[i]], b[i + 1..], f);
      SumAppend(b[..i], b[i + 1..], f);
      RemoveOne(a, b, i);
      SumPermutation(a[1..], rest, f);
    } else {
      assert b == [];
    }
  }

  /** Distinct keys of `s`, in order of first appearance (the `_id`s of a
      `$group` stage). */
  function Keys<T, K(==)>(s: seq<T>, key: T -> K): (ks: seq<K>)
    ensures forall i :: 0 <= i < |s| ==> key(s[i]) in ks
    ensures forall i, j :: 0 <= i < j < |ks| ==> ks[i] != ks[j]
  {
    if s == [] then []
    else
      var init := s[..|s| - 1];
      var ks := Keys(init, key);
      var k := key(s[|s| - 1]);
      assert forall i :: 0 <= i < |init| ==> init[i] == s[i];
      if k in ks then ks else ks + [k]
  }

  /** Every key listed is the key of some record. */
  lemma {:induction false} KeysSound<T, K>(s: seq<T>, key: T -> K, j: nat)
    requires j < |Keys(s, key)|
    ensures exists i :: 0 <= i < |s| && key(s[i]) == Keys(s, key)[j]
    decreases |s|
  {
    var init := s[..|s| - 1];
    var ks := Keys(init, key);
    if j < |ks| {
      KeysSound(init, key, j);
      var i :| 0 <= i < |init| && key(init[i]) == ks[j];
      assert s[i] == init[i];
    } else {
      assert key(s[|s| - 1]) == Keys(s, key)[j];
    }
  }

  /** Appending a record adds its key at the end unless it was already seen. */
  lemma KeysSnoc<T, K>(s: seq<T>, x: T, key: T -> K)
    ensures Keys(s + [x], key) == if key(x) in Keys(s, key) then Keys(s, key) else Keys(s, key) + [key(x)]
  {
    assert (s + [x])[..|s + [x]| - 1] == s;
  }

  /** One `$group` output document: its `_id`, its `$sum` of amounts and its
      `$sum: 1` count. */
  datatype Group<K> = Group(key: K, total: int, count: nat)

  /** `$group` by `key`, summing `amount`. */
  function GroupBy<T, K(==)>(s: seq<T>, key: T -> K, amount: T -> int): (gs: seq<Group<K>>)
  {
    GroupsFor(s, key, amount, Keys(s, key))
  }

  /** One group per listed key, over the records carrying it. */
  function GroupsFor<T, K(==)>(s: seq<T>, key: T -> K, amount: T -> int, ks: seq<K>): (gs: seq<Group<K>>)
  {
    seq(|ks|, i requires 0 <= i < |ks| =>
      var m := Filter(s, Is(key, ks[i]));
      Group(ks[i], Sum(m, amount), |m|))
  }

  function TotalOf<K>(g: Group<K>): int {
    g.total
  }

  /** Over distinct keys, one more record adds its amount to the sum of the
      group totals exactly when its key is listed. */
  lemma {:induction false} GroupsForCons<T, K>(x: T, t: seq<T>, key: T -> K, amount: T -> int, ks: seq<K>)
    requires Distinct(ks)
    ensures Sum(GroupsFor([x] + t, key, amount, ks), TotalOf)
      == Sum(GroupsFor(t, key, amount, ks), TotalOf) + (if key(x) in ks then amount(x) else 0)
  {
    if ks != [] {
      var tail := ks[1..];
      assert forall i, j :: 0 <= i < j < |tail| ==> tail[i] == ks[i + 1] && tail[j] == ks[j + 1];
      GroupsForCons(x, t, key, amount, tail);
      assert GroupsFor([x] + t, key, amount, ks)[1..] == GroupsFor([x] + t, key, amount, tail);
      assert GroupsFor(t, key, amount, ks)[1..] == GroupsFor(t, key, amount, tail);
      assert ([x] + t)[1..] == t;
      var p := Is(key, ks[0]);
      assert p(x) == (key(x) == ks[0]);
      assert Filter([x] + t, p) == (if p(x) then [x] else []) + Filter(t, p);
      SumAppend(if p(x) then [x] else [], Filter(t, p), amount);
      if key(x) == ks[0] {
        assert key(x) !in tail by {
          forall k | 0 <= k < |tail| ensures tail[k] != key(x) {
            assert tail[k] == ks[k + 1];
          }
        }
      }
      assert key(x) in ks <==> key(x) == ks[0] || key(x) in tail;
    }
  }

  /** Over distinct keys that cover every record, the group totals add up to
      the sum of all amounts. */
  lemma {:induction false} GroupsForSum<T, K>(s: seq<T>, key: T -> K, amount: T -> int, ks: seq<K>)
    requires Distinct(ks)
    requires forall i :: 0 <= i < |s| ==> key(s[i]) in ks
    ensures Sum(GroupsFor(s, key, amount, ks), TotalOf) == Sum(s, amount)
  {
    if s == [] {
      var gs := GroupsFor(s, key, amount, ks);
      forall i | 0 <= i < |gs| ensures TotalOf(gs[i]) == 0 {
        assert Filter(s, Is(key, ks[i])) == [];
      }
      ZeroSum(gs, TotalOf);
    } else {
      assert s == [s[0]] + s[1..];
      assert forall i :: 0 <= i < |s[1..]| ==> s[1..][i] == s[i + 1];
      GroupsForSum(s[1..], key, amount, ks);
      GroupsForCons(s[0], s[1..], key, amount, ks);
    }
  }

  /** Amounts that are all zero sum to zero. */
  lemma {:induction false} ZeroSum<T>(s: seq<T>, f: T -> int)
    requires forall i :: 0 <= i < |s| ==> f(s[i]) == 0
    ensures Sum(s, f) == 0
  {
    if s != [] {
      assert forall i :: 0 <= i < |s[1..]| ==> s[1..][i] == s[i + 1];
      ZeroSum(s[1..], f);
    }
  }

  /** Grouping loses no amount: the group totals add up to the sum of all
      the records. */
  lemma GroupTotalsAddUp<T, K>(s: seq<T>, key: T -> K, amount: T -> int)
    ensures Sum(GroupBy(s, key, amount), TotalOf) == Sum(s, amount)
  {
    GroupsForSum(s, key, amount, Keys(s, key));
  }

  /** Each group is one distinct key, with the sum and the number of exactly
      the records carrying that key, at least one; every key of the input has
      its group. */
  lemma GroupBySpec<T, K>(s: seq<T>, key: T -> K, amount: T -> int)
    ensures var gs := GroupBy(s, key, amount);
      && (forall i, j :: 0 <= i < j < |gs| ==> gs[i].key != gs[j].key)
      && (forall i :: 0 <= i < |gs| ==>
            gs[i].total == Sum(Filter(s, Is(key, gs[i].key)), amount)
            && gs[i].count == |Filter(s, Is(key, gs[i].key))|
            && gs[i].count >= 1)
      && (forall i :: 0 <= i < |s| ==> exists j :: 0 <= j < |gs| && gs[j].key == key(s[i]))
  {
    var gs := GroupBy(s, key, amount);
    var ks := Keys(s, key);
    forall j | 0 <= j < |gs| ensures gs[j].count >= 1 {
      KeysSound(s, key, j);
      var i :| 0 <= i < |s| && key(s[i]) == ks[j];
      FilterKeeps(s, Is(key, ks[j]), i);
    }
    forall i | 0 <= i < |s| ensures exists j :: 0 <= j < |gs| && gs[j].key == key(s[i]) {
      var j :| 0 <= j < |ks| && ks[j] == key(s[i]);
      assert gs[j].key == key(s[i]);
    }
  }

  /** Reordered groups are still the groups: each sums and counts the
      records with its key, at least one. */
  lemma GroupsReordered<T, K>(s: seq<T>, key: T -> K, amount: T -> int, r: seq<Group<K>>)
    requires multiset(r) == multiset(GroupBy(s, key, amount))
    ensures forall i :: 0 <= i < |r| ==>
      && r[i].total == Sum(Filter(s, Is(key, r[i].key)), amount)
      && r[i].count == |Filter(s, Is(key, r[i].key))| >= 1
  {
    var gs := GroupBy(s, key, amount);
    GroupBySpec(s, key, amount);
    forall i | 0 <= i < |r|
      ensures r[i].total == Sum(Filter(s, Is(key, r[i].key)), amount)
      ensures r[i].count == |Filter(s, Is(key, r[i].key))| >= 1
    {
      assert r[i] in multiset(gs);
      var a :| 0 <= a < |gs| && gs[a] == r[i];
    }
  }

  /** Reordered groups still have one key each. */
  /** Every element's key is the key of one of the reordered groups. */
  lemma GroupsReorderedCover<T, K>(s: seq<T>, key: T -> K, amount: T -> int, r: seq<Group<K>>, x: T)
    requires multiset(r) == multiset(GroupBy(s, key, amount))
    requires x in s
    ensures exists g :: g in r && g.key == key(x)
  {
    var gs := GroupBy(s, key, amount);
    var i :| 0 <= i < |s| && s[i] == x;
    GroupBySpec(s, key, amount);
    var j :| 0 <= j < |gs| && gs[j].key == key(s[i]);
    assert gs[j] in multiset(r);
  }

  lemma GroupsReorderedDistinct<T, K>(s: seq<T>, key: T -> K, amount: T -> int, r: seq<Group<K>>)
    requires multiset(r) == multiset(GroupBy(s, key, amount))
    ensures forall i, j :: 0 <= i < j < |r| ==> r[i].key != r[j].key
  {
    var gs := GroupBy(s, key, amount);
    var ks := Keys(s, key);
    assert Distinct(gs) by {
      forall i, j | 0 <= i < j < |gs| ensures gs[i] != gs[j] {
        assert gs[i].key == ks[i] && gs[j].key == ks[j];
      }
    }
    PermutationDistinct(gs, r);
    forall i, j | 0 <= i < j < |r| ensures r[i].key != r[j].key {
      assert r[i] in multiset(gs);
      assert r[j] in multiset(gs);
      var a :| 0 <= a < |gs| && gs[a] == r[i];
      var e :| 0 <= e < |gs| && gs[e] == r[j];
      assert gs[a].key == ks[a] && gs[e].key == ks[e];
    }
  }

  /** The first group with key `k`, if any (`array.find` on `_id`). */
  function FindGroup<K(==)>(gs: seq<Group<K>>, k: K): (r: Option<Group<K>>)
    ensures r.Some? ==> r.value in gs && r.value.key == k
    ensures r.None? <==> forall g :: g in gs ==> g.key != k
  {
    if gs == [] then None
    else if gs[0].key == k then Some(gs[0])
    else FindGroup(gs[1..], k)
  }

  /** The `?.total || 0` idiom: the group's total, or zero without a group. */
  function TotalOrZero<K>(g: Option<Group<K>>): int {
    if g.Some? then g.value.total else 0
  }

  /** With distinct keys, the group found for `k` is the one at k's position. */
  lemma {:induction false} FindGroupAt<K>(gs: seq<Group<K>>, i: nat)
    requires i < |gs|
    requires forall a, b :: 0 <= a < b < |gs| ==> gs[a].key != gs[b].key
    ensures FindGroup(gs, gs[i].key) == Some(gs[i])
  {
    if i > 0 {
      FindGroupAt(gs[1..], i - 1);
    }
  }

  /** Nothing is selected by a key no record carries. */
  lemma FilterNoKey<T, K>(s: seq<T>, key: T -> K, k: K)
    requires forall i :: 0 <= i < |s| ==> key(s[i]) != k
    ensures Filter(s, Is(key, k)) == []
  {
  }

  /** Looking a key up among the groups yields the sum of the records with
      that key, and zero when no record has it: absent and empty agree. */
  lemma FindGroupTotal<T, K>(s: seq<T>, key: T -> K, amount: T -> int, k: K)
    ensures TotalOrZero(FindGroup(GroupBy(s, key, amount), k)) == Sum(Filter(s, Is(key, k)), amount)
    ensures FindGroup(GroupBy(s, key, amount), k).Some? <==> k in Keys(s, key)
  {
    var gs := GroupBy(s, key, amount);
    var ks := Keys(s, key);
    if k in ks {
      var i :| 0 <= i < |ks| && ks[i] == k;
      FindGroupAt(gs, i);
    } else {
      FilterNoKey(s, key, k);
      assert forall g :: g in gs ==> g.key in ks;
    }
  }

  /** The group found for `k` counts the records with key `k`, at least one. */
  lemma FindGroupCount<T, K>(s: seq<T>, key: T -> K, amount: T -> int, k: K)
    requires FindGroup(GroupBy(s, key, amount), k).Some?
    ensures FindGroup(GroupBy(s, key, amount), k).value.count == |Filter(s, Is(key, k))| >= 1
  {
    var gs := GroupBy(s, key, amount);
    var g := FindGroup(gs, k).value;
    var j :| 0 <= j < |gs| && gs[j] == g;
    var ks := Keys(s, key);
    assert ks[j] == k;
    KeysSound(s, key, j);
    var w :| 0 <= w < |s| && key(s[w]) == k;
    FilterKeeps(s, Is(key, k), w);
  }

  /** Index of the first record satisfying `p`, or `|s|`. */
  function FirstIndex<T>(s: seq<T>, p: T -> bool): (i: nat)
    ensures i <= |s|
    ensures i < |s| ==> p(s[i])
    ensures forall j :: 0 <= j < i ==> !p(s[j])
  {
    if s == [] then 0
    else if p(s[0]) then 0
    else 1 + FirstIndex(s[1..], p)
  }

  /** `findOne`: the first record satisfying `p`, if any. */
  function Find<T>(s: seq<T>, p: T -> bool): (r: Option<T>)
    ensures r.Some? ==> r.value in s && p(r.value)
    ensures r.None? <==> forall x :: x in s ==> !p(x)
  {
    var i := FirstIndex(s, p);
    if i < |s| then Some(s[i]) else None
  }

  /** `findOneAndDelete`: drop the first record satisfying `p`; nothing when
      none does. */
  function RemoveFirst<T>(s: seq<T>, p: T -> bool): (r: seq<T>)
    ensures var i := FirstIndex(s, p);
      if i < |s| then r == s[..i] + s[i + 1..] && |r| == |s| - 1 else r == s
  {
    var i := FirstIndex(s, p);
    if i < |s| then s[..i] + s[i + 1..] else s
  }

  /** `findOneAndUpdate`: replace the first record satisfying `p` by `f` of it. */
  function UpdateFirst<T>(s: seq<T>, p: T -> bool, f: T -> T): (r: seq<T>)
    ensures |r| == |s|
    ensures var i := FirstIndex(s, p);
      forall j :: 0 <= j < |s| ==> r[j] == if j == i then f(s[j]) else s[j]
  {
    var i := FirstIndex(s, p);
    if i < |s| then s[i := f(s[i])] else s
  }

  /** Every key is below `bound`: the ids handed out so far. */
  predicate KeysBelow<T>(s: seq<T>, key: T -> nat, bound: nat) {
    forall i :: 0 <= i < |s| ==> key(s[i]) < bound
  }

  /** No two records share a key: a unique index. */
  predicate UniqueKeys<T, K(==)>(s: seq<T>, key: T -> K) {
    forall i, j :: 0 <= i < j < |s| ==> key(s[i]) != key(s[j])
  }

  /** Appending a record whose key is new keeps the keys unique. */
  lemma AppendUnique<T, K>(s: seq<T>, x: T, key: T -> K)
    requires UniqueKeys(s, key)
    requires forall i :: 0 <= i < |s| ==> key(s[i]) != key(x)
    ensures UniqueKeys(s + [x], key)
  {
  }

  /** Appending a record under the next fresh key keeps the keys unique and
      below the raised bound, and so does raising the bound alone. */
  lemma AppendFresh<T>(s: seq<T>, x: T, key: T -> nat, bound: nat)
    requires KeysBelow(s, key, bound) && UniqueKeys(s, key)
    requires key(x) == bound
    ensures KeysBelow(s + [x], key, bound + 1) && UniqueKeys(s + [x], key)
  {
    AppendUnique(s, x, key);
  }

  /** Removing a record keeps keys unique and below their bound. */
  lemma RemoveFirstKeeps<T, K>(s: seq<T>, p: T -> bool, key: T -> K)
    requires UniqueKeys(s, key)
    ensures UniqueKeys(RemoveFirst(s, p), key)
    ensures forall x :: x in RemoveFirst(s, p) ==> x in s
  {
    var i := FirstIndex(s, p);
    var r := RemoveFirst(s, p);
    if i < |s| {
      forall a, b | 0 <= a < b < |r| ensures key(r[a]) != key(r[b]) {
        var a' := if a < i then a else a + 1;
        var b' := if b < i then b else b + 1;
        assert r[a] == s[a'] && r[b] == s[b'];
      }
      forall x | x in r ensures x in s {
        var k :| 0 <= k < |r| && r[k] == x;
        assert r[k] == s[if k < i then k else k + 1];
      }
    }
  }

  /** When at most one record satisfies `p`, removing the first one leaves
      no record satisfying `p` and keeps every other record. */
  lemma RemoveFirstOnly<T>(s: seq<T>, p: T -> bool)
    requires forall i, j :: 0 <= i < j < |s| && p(s[i]) ==> !p(s[j])
    ensures forall x :: x in RemoveFirst(s, p) ==> x in s && !p(x)
    ensures forall x :: x in s && !p(x) ==> x in RemoveFirst(s, p)
  {
    var i := FirstIndex(s, p);
    var r := RemoveFirst(s, p);
    if i < |s| {
      forall x | x in r ensures x in s && !p(x) {
        var k :| 0 <= k < |r| && r[k] == x;
        if k < i {
          assert r[k] == s[k];
        } else {
          assert r[k] == s[k + 1];
        }
      }
      forall x | x in s && !p(x) ensures x in r {
        var k :| 0 <= k < |s| && s[k] == x;
        if k < i {
          assert r[k] == s[k];
        } else {
          assert k != i;
          assert r[k - 1] == s[k];
        }
      }
    }
  }

  /** Updating a record with a map that keeps its key keeps keys unique and
      below their bound. */
  /** When only the appended record matches, it is the one rewritten. */
  lemma UpdateFirstLast<T>(s: seq<T>, x: T, p: T -> bool, f: T -> T)
    requires forall i :: 0 <= i < |s| ==> !p(s[i])
    requires p(x)
    ensures UpdateFirst(s + [x], p, f) == s + [f(x)]
  {
    assert FirstIndex(s + [x], p) == |s| by {
      assert (s + [x])[|s|] == x;
    }
    assert (s + [x])[|s| := f(x)] == s + [f(x)];
  }

  /** Under a unique key, rewriting the first record with key `k` rewrites
      exactly the record with that key and leaves every other record alone. */
  lemma UpdateFirstAtKey<T, K>(s: seq<T>, key: T -> K, k: K, f: T -> T)
    requires UniqueKeys(s, key)
    ensures forall j :: 0 <= j < |s| ==>
      UpdateFirst(s, Is(key, k), f)[j] == if key(s[j]) == k then f(s[j]) else s[j]
  {
    var i := FirstIndex(s, Is(key, k));
    forall j | 0 <= j < |s|
      ensures UpdateFirst(s, Is(key, k), f)[j] == if key(s[j]) == k then f(s[j]) else s[j]
    {
      if key(s[j]) == k {
        assert Is(key, k)(s[j]);
        assert i <= j;
        assert key(s[i]) == key(s[j]);
        assert i == j;
      } else if i < |s| {
        assert key(s[i]) == k;
        assert i != j;
      }
    }
  }

  lemma UpdateFirstKeeps<T, K>(s: seq<T>, p: T -> bool, f: T -> T, key: T -> K)
    requires UniqueKeys(s, key)
    requires forall x :: key(f(x)) == key(x)
    ensures UniqueKeys(UpdateFirst(s, p, f), key)
    ensures forall j :: 0 <= j < |s| ==> key(UpdateFirst(s, p, f)[j]) == key(s[j])
  {
  }

  predicate SortedDesc<T>(s: seq<T>, key: T -> int) {
    forall i, j :: 0 <= i < j < |s| ==> key(s[i]) >= key(s[j])
  }

  predicate SortedAsc<T>(s: seq<T>, key: T -> int) {
    forall i, j :: 0 <= i < j < |s| ==> key(s[i]) <= key(s[j])
  }

  function InsertDesc<T(==)>(x: T, s: seq<T>, key: T -> int): (r: seq<T>)
    ensures multiset(r) == multiset(s) + multiset{x}
  {
    if s == [] || key(x) >= key(s[0]) then [x] + s
    else
      assert s == [s[0]] + s[1..];
      [s[0]] + InsertDesc(x, s[1..], key)
  }

  lemma {:induction false} InsertDescSorted<T>(x: T, s: seq<T>, key: T -> int)
    requires SortedDesc(s, key)
    ensures SortedDesc(InsertDesc(x, s, key), key)
  {
    if s != [] && key(x) < key(s[0]) {
      var tail := InsertDesc(x, s[1..], key);
      InsertDescSorted(x, s[1..], key);
      forall j | 0 <= j < |tail| ensures key(tail[j]) <= key(s[0]) {
        assert tail[j] in multiset(tail);
        if tail[j] != x {
          assert tail[j] in multiset(s[1..]);
          var m :| 0 <= m < |s[1..]| && s[1..][m] == tail[j];
          assert s[m + 1] == tail[j];
        }
      }
    }
  }

  /** `sort({ field: -1 })`: the same records, largest key first. */
  function SortDesc<T(==)>(s: seq<T>, key: T -> int): (r: seq<T>)
    ensures SortedDesc(r, key)
    ensures multiset(r) == multiset(s)
  {
    if s == [] then []
    else
      assert s == [s[0]] + s[1..];
      var rest := SortDesc(s[1..], key);
      InsertDescSorted(s[0], rest, key);
      InsertDesc(s[0], rest, key)
  }

  function Negated<T>(key: T -> int): T -> int {
    x => -key(x)
  }

  /** `sort({ field: 1 })`: the same records, smallest key first. */
  function SortAsc<T(==)>(s: seq<T>, key: T -> int): (r: seq<T>)
    ensures SortedAsc(r, key)
    ensures multiset(r) == multiset(s)
  {
    var r := SortDesc(s, Negated(key));
    assert forall i, j :: 0 <= i < j < |r| ==> Negated(key)(r[i]) >= Negated(key)(r[j]);
    r
  }

  /** The only orders of two different values. */
  lemma PermutationOfTwo<T>(s: seq<T>, a: T, b: T)
    requires multiset(s) == multiset([a, b]) && a != b
    ensures s == [a, b] || s == [b, a]
  {
    assert |s| == |multiset(s)| == 2;
    assert s[0] in multiset(s) && s[1] in multiset(s);
  }

  ghost predicate Distinct<T>(s: seq<T>) {
    forall i, j :: 0 <= i < j < |s| ==> s[i] != s[j]
  }

  /** In a sequence without repeats every value occurs at most once. */
  lemma {:induction false} DistinctOnce<T>(s: seq<T>, v: T)
    requires Distinct(s)
    ensures multiset(s)[v] <= 1
  {
    if s != [] {
      assert s == [s[0]] + s[1..];
      assert forall i, j :: 0 <= i < j < |s[1..]| ==> s[1..][i] == s[i + 1] && s[1..][j] == s[j + 1];
      DistinctOnce(s[1..], v);
      if s[0] == v {
        assert v !in s[1..] by {
          forall k | 0 <= k < |s[1..]| ensures s[1..][k] != v {
            assert s[1..][k] == s[k + 1];
          }
        }
      }
    }
  }

  /** Reordering keeps a sequence free of repeats. */
  lemma PermutationDistinct<T>(a: seq<T>, b: seq<T>)
    requires multiset(a) == multiset(b) && Distinct(a)
    ensures Distinct(b)
  {
    forall i, j | 0 <= i < j < |b| ensures b[i] != b[j] {
      if b[i] == b[j] {
        var v := b[i];
        assert b == b[..i] + [v] + b[i + 1..j] + [v] + b[j + 1..];
        assert multiset(b)[v] >= 2;
        DistinctOnce(a, v);
        assert false;
      }
    }
  }

  /** Two sorted permutations with record-distinguishing keys start with the
      same record. */
  lemma SortedHeads<T>(a: seq<T>, b: seq<T>, key: T -> int)
    requires multiset(a) == multiset(b) && a != []
    requires SortedAsc(a, key) && SortedAsc(b, key)
    requires forall i, j :: 0 <= i < |a| && 0 <= j < |a| && key(a[i]) == key(a[j]) ==> i == j
    ensures b != [] && a[0] == b[0]
  {
    assert a[0] in multiset(b);
    var jb :| 0 <= jb < |b| && b[jb] == a[0];
    assert b[0] in multiset(a);
    var ja :| 0 <= ja < |a| && a[ja] == b[0];
    assert key(b[0]) <= key(b[jb]);
    assert key(a[0]) <= key(a[ja]);
  }

  lemma SortedAscTail<T>(s: seq<T>, key: T -> int)
    requires SortedAsc(s, key) && s != []
    ensures SortedAsc(s[1..], key)
  {
    var t := s[1..];
    forall i, j | 0 <= i < j < |t| ensures key(t[i]) <= key(t[j]) {
      assert t[i] == s[i + 1] && t[j] == s[j + 1];
    }
  }

  /** A sorted permutation is unique once the keys tell records apart. */
  lemma {:induction false} SortedPermutationUnique<T>(a: seq<T>, b: seq<T>, key: T -> int)
    requires multiset(a) == multiset(b)
    requires SortedAsc(a, key) && SortedAsc(b, key)
    requires forall i, j :: 0 <= i < |a| && 0 <= j < |a| && key(a[i]) == key(a[j]) ==> i == j
    ensures a == b
  {
    if a == [] {
      assert |b| == |multiset(b)| == 0;
    } else {
      SortedHeads(a, b, key);
      RemoveOne(a, b, 0);
      assert b[..0] + b[1..] == b[1..];
      var a', b' := a[1..], b[1..];
      assert multiset(a') == multiset(b');
      SortedAscTail(a, key);
      SortedAscTail(b, key);
      forall i, j | 0 <= i < |a'| && 0 <= j < |a'| && key(a'[i]) == key(a'[j]) ensures i == j {
        assert a'[i] == a[i + 1] && a'[j] == a[j + 1];
      }
      SortedPermutationUnique(a', b', key);
      assert a == [a[0]] + a' && b == [b[0]] + b';
    }
  }
}
