/** `ORDER BY` over a set of selected rows, with the order among equal sort keys left open. */
module Ordering {

  predicate NoDuplicates<K(==)>(s: seq<K>) {
    forall i, j :: 0 <= i < j < |s| ==> s[i] != s[j]
  }

  /** `ORDER BY rank DESC` */
  predicate DescendingBy<K>(s: seq<K>, rank: K -> int) {
    forall i, j :: 0 <= i < j < |s| ==> rank(s[i]) >= rank(s[j])
  }

  /** Text order of SQLite's BINARY collation: character by character, a prefix first. */
  predicate TextLe(a: string, b: string) {
    a == [] || (b != [] && (a[0] < b[0] || (a[0] == b[0] && TextLe(a[1..], b[1..]))))
  }

  /** `ORDER BY name` */
  predicate AscendingBy<K>(s: seq<K>, name: K -> string) {
    forall i, j :: 0 <= i < j < |s| ==> TextLe(name(s[i]), name(s[j]))
  }

  lemma {:induction false} TextLeTotal(a: string, b: string)
    ensures TextLe(a, b) || TextLe(b, a)
    decreases |a|
  {
    if a != [] && b != [] && a[0] == b[0] {
      TextLeTotal(a[1..], b[1..]);
    }
  }

  lemma {:induction false} TextLeTransitive(a: string, b: string, c: string)
    requires TextLe(a, b) && TextLe(b, c)
    ensures TextLe(a, c)
    decreases |a|
  {
    if a != [] && a[0] == b[0] && b[0] == c[0] {
      TextLeTransitive(a[1..], b[1..], c[1..]);
    }
  }

  lemma {:induction false} TextLeAntisymmetric(a: string, b: string)
    requires TextLe(a, b) && TextLe(b, a)
    ensures a == b
    decreases |a|
  {
    if a != [] {
      TextLeAntisymmetric(a[1..], b[1..]);
      assert a == [a[0]] + a[1..] && b == [b[0]] + b[1..];
    }
  }

  /** Lists the keys of `keys`, each once, with non-increasing `rank`. */
  method SortDescending<K(==)>(keys: set<K>, rank: K -> int) returns (out: seq<K>)
    ensures forall k :: k in out <==> k in keys
    ensures NoDuplicates(out) && DescendingBy(out, rank)
  {
    out := [];
    var rest := keys;
    while rest != {}
      invariant rest <= keys
      invariant forall k :: k in out <==> k in keys && k !in rest
      invariant NoDuplicates(out) && DescendingBy(out, rank)
      decreases |rest|
    {
      var k :| k in rest;
      var p := 0;
      while p < |out| && rank(out[p]) >= rank(k)
        invariant 0 <= p <= |out|
        invariant forall i :: 0 <= i < p ==> rank(out[i]) >= rank(k)
      {
        p := p + 1;
      }
      InsertDescending(out, p, k, rank);
      InsertFresh(out, p, k);
      out := out[..p] + [k] + out[p..];
      rest := rest - {k};
    }
  }

  /** Inserting `k` after the keys ranked at least as high keeps the order. */
  lemma InsertDescending<K>(out: seq<K>, p: nat, k: K, rank: K -> int)
    requires p <= |out| && DescendingBy(out, rank)
    requires forall i :: 0 <= i < p ==> rank(out[i]) >= rank(k)
    requires p == |out| || rank(out[p]) < rank(k)
    ensures DescendingBy(out[..p] + [k] + out[p..], rank)
  {
    var s := out[..p] + [k] + out[p..];
    forall i, j | 0 <= i < j < |s| ensures rank(s[i]) >= rank(s[j]) {
      if j < p {
        assert s[i] == out[i] && s[j] == out[j];
      } else if j == p {
        assert s[i] == out[i] && s[j] == k;
      } else if i < p {
        assert s[i] == out[i] && s[j] == out[j - 1];
      } else if i == p {
        assert s[i] == k && s[j] == out[j - 1];
      } else {
        assert s[i] == out[i - 1] && s[j] == out[j - 1];
      }
    }
  }

  /** Inserting a key not yet listed lists it once, next to the others. */
  lemma InsertFresh<K>(out: seq<K>, p: nat, k: K)
    requires p <= |out| && NoDuplicates(out) && k !in out
    ensures NoDuplicates(out[..p] + [k] + out[p..])
    ensures forall x :: x in out[..p] + [k] + out[p..] <==> x in out || x == k
  {
    var s := out[..p] + [k] + out[p..];
    assert out == out[..p] + out[p..];
    forall i, j | 0 <= i < j < |s| ensures s[i] != s[j] {
      if j < p {
        assert s[i] == out[i] && s[j] == out[j];
      } else if j == p {
        assert s[i] == out[i] && s[j] == k;
      } else if i < p {
        assert s[i] == out[i] && s[j] == out[j - 1];
      } else if i == p {
        assert s[i] == k && s[j] == out[j - 1];
      } else {
        assert s[i] == out[i - 1] && s[j] == out[j - 1];
      }
    }
  }

  /** Lists the keys of `keys`, each once, in ascending text order of `name`. */
  method SortAscendingByName<K(==)>(keys: set<K>, name: K -> string) returns (out: seq<K>)
    ensures forall k :: k in out <==> k in keys
    ensures NoDuplicates(out) && AscendingBy(out, name)
  {
    out := [];
    var rest := keys;
    while rest != {}
      invariant rest <= keys
      invariant forall k :: k in out <==> k in keys && k !in rest
      invariant NoDuplicates(out) && AscendingBy(out, name)
      decreases |rest|
    {
      var k :| k in rest;
      var p := 0;
      while p < |out| && TextLe(name(out[p]), name(k))
        invariant 0 <= p <= |out|
        invariant forall i :: 0 <= i < p ==> TextLe(name(out[i]), name(k))
      {
        p := p + 1;
      }
      if p < |out| {
        TextLeTotal(name(out[p]), name(k));
        forall j | p <= j < |out| ensures TextLe(name(k), name(out[j])) {
          if j > p { TextLeTransitive(name(k), name(out[p]), name(out[j])); }
        }
      }
      InsertAscending(out, p, k, name);
      InsertFresh(out, p, k);
      out := out[..p] + [k] + out[p..];
      rest := rest - {k};
    }
  }

  /** Inserting `k` between the names at most its own and those at least its own keeps the order. */
  lemma InsertAscending<K>(out: seq<K>, p: nat, k: K, name: K -> string)
    requires p <= |out| && AscendingBy(out, name)
    requires forall i :: 0 <= i < p ==> TextLe(name(out[i]), name(k))
    requires forall j :: p <= j < |out| ==> TextLe(name(k), name(out[j]))
    ensures AscendingBy(out[..p] + [k] + out[p..], name)
  {
    var s := out[..p] + [k] + out[p..];
    forall i, j | 0 <= i < j < |s| ensures TextLe(name(s[i]), name(s[j])) {
      if j < p {
        assert s[i] == out[i] && s[j] == out[j];
      } else if j == p {
        assert s[i] == out[i] && s[j] == k;
      } else if i < p {
        assert s[i] == out[i] && s[j] == out[j - 1];
      } else if i == p {
        assert s[i] == k && s[j] == out[j - 1];
      } else {
        assert s[i] == out[i - 1] && s[j] == out[j - 1];
      }
    }
  }
}
