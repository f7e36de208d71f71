/**
  A Python `dict` keyed by strings, as the task store, the user-story store and
  the gRPC servicer's mock data use it: a map from key to value plus the
  current insertion order of the keys (the order `dict.values()` and
  `dict.items()` iterate in). Assigning to an existing key keeps its place;
  assigning to a new key appends it; `del` removes it.
 */
module Store {

  /** True when no element occurs twice in `s`. */
  ghost predicate Distinct(s: seq<string>) {
    forall i, j :: 0 <= i < j < |s| ==> s[i] != s[j]
  }

  /** A distinct sequence has as many elements as the set of its elements. */
  lemma {:induction false} DistinctCardinality(s: seq<string>)
    requires Distinct(s)
    ensures |set x | x in s| == |s|
  {
    if s != [] {
      var t := s[1..];
      assert Distinct(t) by {
        forall i, j | 0 <= i < j < |t| ensures t[i] != t[j] {
          assert t[i] == s[i + 1] && t[j] == s[j + 1];
        }
      }
      DistinctCardinality(t);
      assert s[0] !in t by {
        forall i | 0 <= i < |t| ensures t[i] != s[0] {
          assert t[i] == s[i + 1];
        }
      }
      assert (set x | x in s) == (set x | x in t) + {s[0]} by {
        forall x ensures x in s <==> x in t || x == s[0] {
          if x in s && x != s[0] {
            var i :| 0 <= i < |s| && s[i] == x;
            assert t[i - 1] == x;
          }
        }
      }
    }
  }

  /** Cutting position `i` out of a distinct sequence keeps it distinct and
      removes exactly the element that stood there. */
  lemma DeleteAt(s: seq<string>, i: nat)
    requires Distinct(s) && i < |s|
    ensures Distinct(s[..i] + s[i + 1..])
    ensures forall x :: x in s[..i] + s[i + 1..] <==> x in s && x != s[i]
  {
    var t := s[..i] + s[i + 1..];
    assert forall a :: 0 <= a < |t| ==> t[a] == s[if a < i then a else a + 1];
    forall x | x in s && x != s[i] ensures x in t {
      var a :| 0 <= a < |s| && s[a] == x;
      assert t[if a < i then a else a - 1] == x;
    }
  }

  /** The position of `k` in `s`. */
  function IndexOf(s: seq<string>, k: string): (i: nat)
    requires k in s
    ensures i < |s| && s[i] == k
    ensures forall j :: 0 <= j < i ==> s[j] != k
  {
    if s[0] == k then 0 else 1 + IndexOf(s[1..], k)
  }

  /** Cutting a key out of the key order keeps a dictionary consistent. */
  lemma RemoveValid<V>(d: Dict<V>, k: string)
    requires d.Valid() && k in d.entries
    ensures var i := IndexOf(d.keys, k);
            var r := Dict(d.keys[..i] + d.keys[i + 1..], d.entries - {k});
            r.Valid() && |r.keys| == |d.keys| - 1
  {
    var i := IndexOf(d.keys, k);
    DeleteAt(d.keys, i);
    var r := Dict(d.keys[..i] + d.keys[i + 1..], d.entries - {k});
    forall j ensures j in r.entries <==> j in r.keys {
      assert j in r.keys <==> j in d.keys && j != k;
    }
  }

  /** The dictionary display `{a: x, b: y}` with two different keys. */
  function Pair<V>(a: string, x: V, b: string, y: V): (d: Dict<V>)
    requires a != b
    ensures d.Valid() && d.Size() == 2
    ensures d.keys == [a, b] && d.entries == map[a := x, b := y]
  {
    var d := Dict([a, b], map[a := x, b := y]);
    assert d.Valid() by {
      forall k ensures k in d.entries <==> k in d.keys {
      }
    }
    d
  }

  /** The dictionary display `{a: x, b: y, c: z, e: w}` with four different keys. */
  function Quad<V>(a: string, x: V, b: string, y: V, c: string, z: V, e: string, w: V): (d: Dict<V>)
    requires a != b && a != c && a != e && b != c && b != e && c != e
    ensures d.Valid() && d.Size() == 4
    ensures d.keys == [a, b, c, e] && d.entries == map[a := x, b := y, c := z, e := w]
  {
    var d := Dict([a, b, c, e], map[a := x, b := y, c := z, e := w]);
    assert d.Valid() by {
      forall k ensures k in d.entries <==> k in d.keys {
      }
    }
    d
  }

  datatype Dict<V> = Dict(keys: seq<string>, entries: map<string, V>) {

    /** The key order lists every key exactly once. */
    ghost predicate Valid() {
      && Distinct(keys)
      && (forall k :: k in entries <==> k in keys)
    }

    /** `len(d)`. */
    function Size(): (n: nat)
      requires Valid()
      ensures n == |entries| && n == |keys|
    {
      DistinctCardinality(keys);
      assert entries.Keys == set x | x in keys;
      |keys|
    }

    /** `d[k] = v` */
    function Set(k: string, v: V): (d: Dict<V>)
      requires Valid()
      ensures d.Valid()
      ensures d.entries.Keys == entries.Keys + {k}
      ensures d.entries[k] == v
      ensures forall j :: j in entries && j != k ==> d.entries[j] == entries[j]
      ensures k in entries ==> d.keys == keys && d.Size() == Size()
      ensures k !in entries ==> d.keys == keys + [k] && d.Size() == Size() + 1
    {
      if k in entries then Dict(keys, entries[k := v])
      else
        var d := Dict(keys + [k], entries[k := v]);
        assert d.Valid() by {
          forall i, j | 0 <= i < j < |d.keys| ensures d.keys[i] != d.keys[j] {
            if j == |keys| { assert d.keys[i] == keys[i]; }
          }
        }
        d
    }

    /** `del d[k]`, which Python only allows when `k` is present. */
    function Remove(k: string): (d: Dict<V>)
      requires Valid() && k in entries
      ensures d.Valid()
      ensures d.entries.Keys == entries.Keys - {k}
      ensures forall j :: j in d.entries ==> d.entries[j] == entries[j]
      ensures d.keys == keys[..IndexOf(keys, k)] + keys[IndexOf(keys, k) + 1..]
      ensures d.Size() == Size() - 1
    {
      var i := IndexOf(keys, k);
      RemoveValid(this, k);
      Dict(keys[..i] + keys[i + 1..], entries - {k})
    }

    /** `list(d.values())`: every stored value once, in key insertion order. */
    function Values(): (vs: seq<V>)
      requires Valid()
      ensures |vs| == Size()
      ensures forall i :: 0 <= i < |keys| ==> vs[i] == entries[keys[i]]
      ensures forall k :: k in entries ==> entries[k] in vs
    {
      var vs := seq(|keys|, i requires 0 <= i < |keys| => entries[keys[i]]);
      assert forall k :: k in entries ==> entries[k] in vs by {
        forall k | k in entries ensures entries[k] in vs {
          var i := IndexOf(keys, k);
          assert vs[i] == entries[k];
        }
      }
      vs
    }
  }
}
