/** The per-document aggregation of localknow/pipeline/orchestrator.py
    (lines 79-81): `{key(x): x for x in xs}.values()`, a dictionary keyed
    by the lower-cased name or topic. A key keeps the position where it
    first appeared and the value of its last occurrence. */
module Aggregate {
  /** A Python dict: its keys in insertion order and its entries. */
  datatype Dict<T> = Dict(keys: seq<string>, entries: map<string, T>)

  /** d[k] = v. */
  function Put<T>(d: Dict<T>, k: string, v: T): Dict<T>
  {
    if k in d.entries then Dict(d.keys, d.entries[k := v]) else Dict(d.keys + [k], d.entries[k := v])
  }

  function ByKey<T>(xs: seq<T>, key: T -> string): Dict<T>
  {
    if xs == [] then Dict([], map[]) else Put(ByKey(xs[..|xs| - 1], key), key(xs[|xs| - 1]), xs[|xs| - 1])
  }

  /** The keys are distinct and are exactly the entries' keys. */
  ghost predicate WellFormed<T>(d: Dict<T>)
  {
    && (forall a, b :: 0 <= a < b < |d.keys| ==> d.keys[a] != d.keys[b])
    && (forall k :: k in d.entries <==> k in d.keys)
  }

  lemma {:induction false} ByKeyWellFormed<T>(xs: seq<T>, key: T -> string)
    ensures WellFormed(ByKey(xs, key))
  {
    if xs != [] {
      ByKeyWellFormed(xs[..|xs| - 1], key);
    }
  }

  /** .values(). */
  function Values<T>(d: Dict<T>): (r: seq<T>)
    requires forall k :: k in d.keys ==> k in d.entries
    ensures |r| == |d.keys| && forall i :: 0 <= i < |r| ==> r[i] == d.entries[d.keys[i]]
  {
    seq(|d.keys|, i requires 0 <= i < |d.keys| => d.entries[d.keys[i]])
  }

  /** The aggregated list. */
  function UniqueByKey<T>(xs: seq<T>, key: T -> string): (r: seq<T>)
    ensures |r| <= |xs|
  {
    ByKeyWellFormed(xs, key);
    ByKeyCount(xs, key);
    Values(ByKey(xs, key))
  }

  /** The index of the first element with key k, or -1. */
  function FirstIndex<T>(xs: seq<T>, key: T -> string, k: string): (j: int)
    ensures -1 <= j < |xs|
    ensures j >= 0 ==> key(xs[j]) == k && forall i :: 0 <= i < j ==> key(xs[i]) != k
    ensures j == -1 ==> forall i :: 0 <= i < |xs| ==> key(xs[i]) != k
  {
    if xs == [] then -1
    else
      var j := FirstIndex(xs[..|xs| - 1], key, k);
      if j >= 0 then j else if key(xs[|xs| - 1]) == k then |xs| - 1 else -1
  }

  /** The index of the last element with key k, or -1. */
  function LastIndex<T>(xs: seq<T>, key: T -> string, k: string): (j: int)
    ensures -1 <= j < |xs|
    ensures j >= 0 ==> key(xs[j]) == k && forall i :: j < i < |xs| ==> key(xs[i]) != k
    ensures j == -1 ==> forall i :: 0 <= i < |xs| ==> key(xs[i]) != k
  {
    if xs == [] then -1
    else if key(xs[|xs| - 1]) == k then |xs| - 1
    else LastIndex(xs[..|xs| - 1], key, k)
  }

  lemma FirstIndexAppend<T>(xs: seq<T>, x: T, key: T -> string, k: string)
    ensures FirstIndex(xs + [x], key, k) ==
      if FirstIndex(xs, key, k) >= 0 then FirstIndex(xs, key, k) else if key(x) == k then |xs| else -1
  {
    assert (xs + [x])[..|xs|] == xs;
  }

  /** Each entry is the last element with its key, and the keys are
      exactly the keys of the input. */
  lemma {:induction false} ByKeyLastWins<T>(xs: seq<T>, key: T -> string, k: string)
    ensures k in ByKey(xs, key).entries <==> LastIndex(xs, key, k) >= 0
    ensures k in ByKey(xs, key).entries ==> ByKey(xs, key).entries[k] == xs[LastIndex(xs, key, k)]
  {
    if xs != [] {
      ByKeyLastWins(xs[..|xs| - 1], key, k);
    }
  }

  /** The keys follow the order of their first occurrence. */
  lemma {:induction false} ByKeyOrder<T>(xs: seq<T>, key: T -> string)
    ensures forall a, b :: 0 <= a < b < |ByKey(xs, key).keys| ==>
      0 <= FirstIndex(xs, key, ByKey(xs, key).keys[a]) < FirstIndex(xs, key, ByKey(xs, key).keys[b])
  {
    if xs != [] {
      var init, x := xs[..|xs| - 1], xs[|xs| - 1];
      assert xs == init + [x];
      ByKeyOrder(init, key);
      var d0 := ByKey(init, key);
      forall a | 0 <= a < |d0.keys|
        ensures 0 <= FirstIndex(xs, key, d0.keys[a]) == FirstIndex(init, key, d0.keys[a]) < |init|
      {
        ByKeyListed(init, key, a);
        ByKeyLastWins(init, key, d0.keys[a]);
        FirstIndexAppend(init, x, key, d0.keys[a]);
      }
      var d := ByKey(xs, key);
      if key(x) in d0.entries {
        assert d.keys == d0.keys;
      } else {
        assert d.keys == d0.keys + [key(x)];
        ByKeyLastWins(init, key, key(x));
        FirstIndexAppend(init, x, key, key(x));
        assert FirstIndex(xs, key, key(x)) == |init|;
      }
      forall a, b | 0 <= a < b < |d.keys|
        ensures 0 <= FirstIndex(xs, key, d.keys[a]) < FirstIndex(xs, key, d.keys[b])
      {
        assert d.keys[a] == d0.keys[a];
        if b < |d0.keys| {
          assert d.keys[b] == d0.keys[b];
        }
      }
    } else {
      assert ByKey(xs, key).keys == [];
    }
  }

  /** Every listed key has an entry. */
  lemma {:induction false} ByKeyListed<T>(xs: seq<T>, key: T -> string, a: int)
    requires 0 <= a < |ByKey(xs, key).keys|
    ensures ByKey(xs, key).keys[a] in ByKey(xs, key).entries
  {
    var init := xs[..|xs| - 1];
    if a < |ByKey(init, key).keys| {
      ByKeyListed(init, key, a);
    }
  }

  /** The aggregated list has one element per distinct key of the input:
      the last element with that key, at the position where the key first
      appeared. */
  lemma UniqueByKeyContents<T>(xs: seq<T>, key: T -> string)
    ensures var out := UniqueByKey(xs, key);
      && |out| <= |xs|
      && (forall a, b :: 0 <= a < b < |out| ==> key(out[a]) != key(out[b]))
      && (forall a :: 0 <= a < |out| ==> LastIndex(xs, key, key(out[a])) >= 0 && out[a] == xs[LastIndex(xs, key, key(out[a]))])
      && (forall i :: 0 <= i < |xs| ==> exists a :: 0 <= a < |out| && key(out[a]) == key(xs[i]))
      && (forall a, b :: 0 <= a < b < |out| ==> FirstIndex(xs, key, key(out[a])) < FirstIndex(xs, key, key(out[b])))
  {
    var d := ByKey(xs, key);
    ByKeyWellFormed(xs, key);
    ByKeyOrder(xs, key);
    var out := UniqueByKey(xs, key);
    forall a | 0 <= a < |out|
      ensures key(out[a]) == d.keys[a] && LastIndex(xs, key, d.keys[a]) >= 0 && out[a] == xs[LastIndex(xs, key, d.keys[a])]
    {
      ByKeyLastWins(xs, key, d.keys[a]);
    }
    forall i | 0 <= i < |xs|
      ensures exists a :: 0 <= a < |out| && key(out[a]) == key(xs[i])
    {
      ByKeyLastWins(xs, key, key(xs[i]));
      var a :| 0 <= a < |d.keys| && d.keys[a] == key(xs[i]);
      assert key(out[a]) == key(xs[i]);
    }
    ByKeyCount(xs, key);
  }

  /** Every element's key is represented in the aggregated list. */
  lemma UniqueByKeyCovers<T>(xs: seq<T>, key: T -> string, x: T)
    requires x in xs
    ensures exists a :: 0 <= a < |UniqueByKey(xs, key)| && key(UniqueByKey(xs, key)[a]) == key(x)
  {
    var i :| 0 <= i < |xs| && xs[i] == x;
    UniqueByKeyContents(xs, key);
  }

  /** There are no more distinct keys than elements. */
  lemma {:induction false} ByKeyCount<T>(xs: seq<T>, key: T -> string)
    ensures |ByKey(xs, key).keys| <= |xs|
  {
    if xs != [] {
      ByKeyCount(xs[..|xs| - 1], key);
    }
  }
}
