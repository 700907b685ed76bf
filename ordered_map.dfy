/** A JavaScript `Map` keyed by strings, as a value: the keys in insertion
    order and the entries they map to. `set` on a present key keeps its
    position, `set` on a new key appends it, `delete` removes it; iteration
    follows `keys`. Being a value, a copy (`new Map(m)`) cannot alias the
    original. */
module OrderedMaps {
  import opened Common

  predicate Distinct(s: seq<string>) {
    forall i, j :: 0 <= i < j < |s| ==> s[i] != s[j]
  }

  /** `s` with every occurrence of `k` removed, the rest in order. */
  function Without(s: seq<string>, k: string): (r: seq<string>)
    ensures forall x :: x in r <==> x in s && x != k
    ensures Distinct(s) ==> Distinct(r)
    ensures |r| <= |s|
  {
    if s == [] then []
    else if s[0] == k then Without(s[1..], k)
    else
      var rest := Without(s[1..], k);
      assert Distinct(s) ==> s[0] !in rest;
      [s[0]] + rest
  }

  lemma {:induction false} WithoutAbsent(s: seq<string>, k: string)
    requires k !in s
    ensures Without(s, k) == s
  {
    if s != [] {
      WithoutAbsent(s[1..], k);
    }
  }

  /** Deleting the first key of a duplicate-free key list leaves the rest. */
  lemma WithoutHead(s: seq<string>)
    requires s != [] && Distinct(s)
    ensures Without(s, s[0]) == s[1..]
  {
    WithoutAbsent(s[1..], s[0]);
  }

  datatype OrderedMap<V> = OrderedMap(keys: seq<string>, entries: map<string, V>) {

    /** The keys are listed once each, and exactly the keys of `entries` are. */
    ghost predicate Valid() {
      Distinct(keys) && (forall k :: k in keys <==> k in entries)
    }

    function Size(): nat {
      |keys|
    }

    /** `m.has(k)`. */
    predicate Has(k: string) {
      k in entries
    }

    /** `m.get(k)`, with `None` for undefined. */
    function Get(k: string): (r: Option<V>)
      ensures r.Some? <==> k in entries
      ensures r.Some? ==> r.value == entries[k]
    {
      if k in entries then Some(entries[k]) else None
    }

    /** `m.set(k, v)`. */
    function Set(k: string, v: V): (r: OrderedMap<V>)
      requires Valid()
      ensures r.Valid()
      ensures r.entries == entries[k := v]
      ensures k in entries ==> r.keys == keys
      ensures k !in entries ==> r.keys == keys + [k]
    {
      if k in entries then OrderedMap(keys, entries[k := v]) else OrderedMap(keys + [k], entries[k := v])
    }

    /** `m.delete(k)`. */
    function Delete(k: string): (r: OrderedMap<V>)
      requires Valid()
      ensures r.Valid()
      ensures r.entries == entries - {k}
      ensures r.keys == Without(keys, k)
      ensures k !in entries ==> r == this
    {
      DeleteValid(k);
      if k in entries then OrderedMap(Without(keys, k), entries - {k})
      else
        WithoutAbsent(keys, k);
        assert entries - {k} == entries;
        this
    }

    lemma DeleteValid(k: string)
      requires Valid()
      ensures OrderedMap(Without(keys, k), entries - {k}).Valid()
    {
      var rest := Without(keys, k);
      forall x
        ensures x in rest <==> x in entries - {k}
      {
        assert x in rest <==> x in keys && x != k;
      }
    }

    /** Deleting a present key shrinks the map by one. */
    lemma DeleteShrinks(k: string)
      requires Valid() && k in entries
      ensures Delete(k).Size() == Size() - 1
    {
      var r := Delete(k);
      SizeIsCardinality();
      r.SizeIsCardinality();
      assert r.entries.Keys == entries.Keys - {k};
    }

    /** The entries' values in iteration order. */
    function Values(): (vs: seq<V>)
      requires Valid()
      ensures |vs| == |keys|
      ensures forall i :: 0 <= i < |keys| ==> vs[i] == entries[keys[i]]
    {
      seq(|keys|, i requires 0 <= i < |keys| => entries[keys[i]])
    }

    lemma SizeIsCardinality()
      requires Valid()
      ensures Size() == |entries|
    {
      DistinctCardinality(keys);
      assert (set k | k in keys) == entries.Keys;
    }
  }

  function Empty<V>(): (m: OrderedMap<V>)
    ensures m.Valid() && m.Size() == 0
  {
    OrderedMap([], map[])
  }

  lemma {:induction false} DistinctCardinality(s: seq<string>)
    requires Distinct(s)
    ensures |set k | k in s| == |s|
  {
    if s != [] {
      var tail := s[1..];
      DistinctCardinality(tail);
      assert (set k | k in s) == (set k | k in tail) + {s[0]};
      assert s[0] !in tail;
    }
  }
}
