/** Python's `dict`, as the repositories use it: a finite map together with the order in
    which its keys were first inserted, which is the order `values()` lists them in.
    Overwriting a key keeps its position; deleting it drops it from the order. */
module Dicts {
  import opened Common

  datatype Dict<K(==), V> = Dict(keys: seq<K>, entries: map<K, V>) {

    /** Every key is listed once, and exactly the keys of the map are listed. */
    ghost predicate Valid() {
      NoDuplicates(keys) && (forall k | k in entries :: k in keys) && (forall k | k in keys :: k in entries)
    }

    /** `d.get(k)` */
    function Get(k: K): (r: Option<V>)
      ensures r.Some? <==> k in entries
      ensures r.Some? ==> r.value == entries[k]
    {
      if k in entries then Some(entries[k]) else None
    }

    /** `d[k] = v`: a new key goes to the end of the order, an existing one keeps its place. */
    function Put(k: K, v: V): (d: Dict<K, V>)
      ensures Valid() ==> d.Valid()
      ensures d.entries == entries[k := v]
      ensures k in entries ==> d.keys == keys
      ensures k !in entries ==> d.keys == keys + [k]
    {
      Dict(if k in entries then keys else keys + [k], entries[k := v])
    }

    /** `del d[k]`, for a key that may be absent (then nothing changes). */
    function Remove(k: K): (d: Dict<K, V>)
      requires Valid()
      ensures d.Valid()
      ensures d.entries == entries - {k}
      ensures k !in entries ==> d == this
      ensures k in entries ==> |d.keys| == |keys| - 1
    {
      WithoutRemovesOne(keys, k);
      Dict(Without(keys, k), entries - {k})
    }

    /** `list(d.values())`, in key order. */
    function Values(): (vs: seq<V>)
      requires Valid()
      ensures |vs| == |keys| == |entries|
      ensures forall i | 0 <= i < |keys| :: vs[i] == entries[keys[i]]
    {
      SizeIsKeyCount();
      seq(|keys|, i requires 0 <= i < |keys| => entries[keys[i]])
    }

    /** Each listed value is the value of some key, and each key's value is listed. */
    lemma ValuesAreEntries()
      requires Valid()
      ensures forall v | v in Values() :: exists k | k in entries :: entries[k] == v
      ensures forall k | k in entries :: entries[k] in Values()
    {
      var vs := Values();
      forall k | k in entries ensures entries[k] in vs {
        var i :| 0 <= i < |keys| && keys[i] == k;
        assert vs[i] == entries[k];
      }
    }

    /** Writing a key's own value back changes nothing. */
    lemma PutExisting(k: K)
      requires Valid() && k in entries
      ensures Put(k, entries[k]) == this
    {
      assert entries[k := entries[k]] == entries;
    }

    /** The map has exactly as many entries as the order lists keys. */
    lemma SizeIsKeyCount()
      requires Valid()
      ensures |entries| == |keys|
    {
      assert entries.Keys == set x | x in keys;
      NoDuplicatesCardinality(keys);
    }
  }

  /** The empty dict `{}`. */
  function Empty<K(==), V>(): (d: Dict<K, V>)
    ensures d.Valid() && d.entries == map[] && d.keys == []
  {
    Dict([], map[])
  }

  /** The sequence with every occurrence of `x` dropped and the rest in order. */
  function Without<K(==)>(s: seq<K>, x: K): (r: seq<K>)
    ensures forall y | y in r :: y in s && y != x
    ensures forall y | y in s && y != x :: y in r
    ensures x !in s ==> r == s
    ensures NoDuplicates(s) ==> NoDuplicates(r)
  {
    if s == [] then []
    else
      var rest := Without(s[1..], x);
      if s[0] == x then rest
      else
        assert NoDuplicates(s) ==> s[0] !in s[1..] by {
          if NoDuplicates(s) {
            forall k | 0 <= k < |s[1..]| ensures s[1..][k] != s[0] { assert s[1..][k] == s[k + 1]; }
          }
        }
        [s[0]] + rest
  }

  /** Dropping a key that occurs once shortens the sequence by one. */
  lemma {:induction false} WithoutRemovesOne<K>(s: seq<K>, x: K)
    requires NoDuplicates(s)
    ensures x in s ==> |Without(s, x)| == |s| - 1
  {
    if s != [] && x in s {
      if s[0] == x {
        assert x !in s[1..] by {
          forall k | 0 <= k < |s[1..]| ensures s[1..][k] != x { assert s[1..][k] == s[k + 1]; }
        }
      } else {
        assert x in s[1..] by {
          var k :| 0 <= k < |s| && s[k] == x;
          assert s[1..][k - 1] == x;
        }
        WithoutRemovesOne(s[1..], x);
      }
    }
  }
}
