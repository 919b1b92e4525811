/**
 * `String.prototype.includes`, which the route handlers use to classify error messages,
 * together with lemmas that decide it for messages assembled from short pieces.
 */
module Text {

  /** `t` occurs in `s` starting at position `p`. */
  predicate OccursAt(s: string, t: string, p: nat) {
    p + |t| <= |s| && s[p..p + |t|] == t
  }

  /** The characters of `t` from index `j` on match `s` from index `i + j` on. */
  predicate MatchAt(s: string, t: string, i: nat, j: nat)
    requires i + |t| <= |s| && j <= |t|
    decreases |t| - j
  {
    j == |t| || (s[i + j] == t[j] && MatchAt(s, t, i, j + 1))
  }

  /** `t` occurs in `s` at some position `i` or later. */
  predicate IncludesFrom(s: string, t: string, i: nat)
    decreases |s| - i
  {
    i + |t| <= |s| && (MatchAt(s, t, i, 0) || IncludesFrom(s, t, i + 1))
  }

  /** `s.includes(t)` */
  predicate Includes(s: string, t: string) {
    IncludesFrom(s, t, 0)
  }

  lemma {:induction false} MatchAtSlice(s: string, t: string, i: nat, j: nat)
    requires i + |t| <= |s| && j <= |t|
    ensures MatchAt(s, t, i, j) <==> s[i + j..i + |t|] == t[j..]
    decreases |t| - j
  {
    if j < |t| {
      MatchAtSlice(s, t, i, j + 1);
      assert s[i + j..i + |t|] == [s[i + j]] + s[i + j + 1..i + |t|];
      assert t[j..] == [t[j]] + t[j + 1..];
    }
  }

  /** The search agrees with the definition by occurrence. */
  lemma {:induction false} IncludesFromWitness(s: string, t: string, i: nat)
    ensures IncludesFrom(s, t, i) <==> exists p: nat :: i <= p && OccursAt(s, t, p)
    decreases |s| - i
  {
    if i + |t| <= |s| {
      MatchAtSlice(s, t, i, 0);
      assert t[0..] == t;
      IncludesFromWitness(s, t, i + 1);
      if MatchAt(s, t, i, 0) {
        assert OccursAt(s, t, i);
      }
      if exists p: nat :: i <= p && OccursAt(s, t, p) {
        var p: nat :| i <= p && OccursAt(s, t, p);
        if p > i {
          assert i + 1 <= p;
        } else {
          assert MatchAt(s, t, i, 0);
        }
      }
    }
  }

  /** Every text includes itself. */
  lemma IncludesSelf(t: string)
    ensures Includes(t, t)
  {
    IncludesFromWitness(t, t, 0);
    assert OccursAt(t, t, 0);
  }

  // ---------------------------------------------------------------------------
  // Messages assembled from pieces

  /** The concatenation of the pieces, in order. */
  function Concat(ps: seq<string>): string {
    if ps == [] then "" else ps[0] + Concat(ps[1..])
  }

  /** `throw new Error(prefix + error.message)` around an inner failure. */
  function Wrap(prefix: seq<string>, message: string): string {
    Concat(prefix) + message
  }

  lemma {:induction false} ConcatAppend(a: seq<string>, b: seq<string>)
    ensures Concat(a + b) == Concat(a) + Concat(b)
    decreases |a|
  {
    if a == [] {
      assert a + b == b;
    } else {
      ConcatAppend(a[1..], b);
      assert (a + b)[0] == a[0];
      assert (a + b)[1..] == a[1..] + b;
    }
  }

  /**
   * Starting at position `i + j` of `a`, some character of `a` differs from the
   * corresponding character of `t` before `a` runs out.
   */
  predicate StartsAgainst(a: string, t: string, i: nat, j: nat)
    decreases |a| - i - j
  {
    i + j < |a| && j < |t| && (a[i + j] != t[j] || StartsAgainst(a, t, i, j + 1))
  }

  /**
   * No copy of `t` can start at position `k` of `a` or later, whatever text follows
   * `a`: every such start is contradicted inside `a` itself.
   */
  predicate NoOverhang(a: string, t: string, k: nat)
    decreases |a| - k
  {
    k >= |a| || (StartsAgainst(a, t, k, 0) && NoOverhang(a, t, k + 1))
  }

  lemma {:induction false} NoOverhangAt(a: string, t: string, k: nat, i: nat)
    requires NoOverhang(a, t, k) && k <= i < |a|
    ensures StartsAgainst(a, t, i, 0)
    decreases i - k
  {
    if k < i {
      NoOverhangAt(a, t, k + 1, i);
    }
  }

  lemma {:induction false} StartsAgainstInside(a: string, t: string, i: nat, j: nat)
    requires StartsAgainst(a, t, i, j) && i + |t| <= |a| && j <= |t|
    ensures a[i + j..i + |t|] != t[j..]
    decreases |a| - i - j
  {
    if a[i + j] != t[j] {
      assert a[i + j..i + |t|][0] == a[i + j];
    } else {
      StartsAgainstInside(a, t, i, j + 1);
      assert a[i + j..i + |t|] == [a[i + j]] + a[i + j + 1..i + |t|];
      assert t[j..] == [t[j]] + t[j + 1..];
    }
  }

  lemma {:induction false} StartsAgainstAcross(a: string, b: string, t: string, i: nat, j: nat)
    requires StartsAgainst(a, t, i, j) && i < |a| && i + |t| > |a| && i + |t| <= |a| + |b| && j <= |t|
    ensures (a + b)[i + j..i + |t|] != t[j..]
    decreases |a| - i - j
  {
    if a[i + j] != t[j] {
      assert (a + b)[i + j..i + |t|][0] == a[i + j];
    } else {
      StartsAgainstAcross(a, b, t, i, j + 1);
      assert (a + b)[i + j..i + |t|] == [a[i + j]] + (a + b)[i + j + 1..i + |t|];
      assert t[j..] == [t[j]] + t[j + 1..];
    }
  }

  lemma NoOverhangExcludes(a: string, t: string)
    requires |t| > 0 && NoOverhang(a, t, 0)
    ensures !Includes(a, t)
  {
    IncludesFromWitness(a, t, 0);
    if Includes(a, t) {
      var p: nat :| OccursAt(a, t, p);
      NoOverhangAt(a, t, 0, p);
      StartsAgainstInside(a, t, p, 0);
    }
  }

  lemma NotIncludesConcat(a: string, b: string, t: string)
    requires |t| > 0 && NoOverhang(a, t, 0) && !Includes(b, t)
    ensures !Includes(a + b, t)
  {
    if Includes(a + b, t) {
      IncludesFromWitness(a + b, t, 0);
      var p: nat :| OccursAt(a + b, t, p);
      if p + |t| <= |a| {
        assert a[p..p + |t|] == (a + b)[p..p + |t|];
        assert OccursAt(a, t, p);
        IncludesFromWitness(a, t, 0);
        NoOverhangExcludes(a, t);
      } else if p >= |a| {
        assert b[p - |a|..p - |a| + |t|] == (a + b)[p..p + |t|];
        assert OccursAt(b, t, p - |a|);
        IncludesFromWitness(b, t, 0);
      } else {
        NoOverhangAt(a, t, 0, p);
        StartsAgainstAcross(a, b, t, p, 0);
      }
    }
  }

  /** A message made of pieces none of which can start a copy of `t` does not include `t`. */
  lemma {:induction false} NotIncludesPieces(ps: seq<string>, t: string)
    requires |t| > 0 && forall i :: 0 <= i < |ps| ==> NoOverhang(ps[i], t, 0)
    ensures !Includes(Concat(ps), t)
    decreases |ps|
  {
    if ps == [] {
      IncludesFromWitness("", t, 0);
    } else {
      NotIncludesPieces(ps[1..], t);
      NotIncludesConcat(ps[0], Concat(ps[1..]), t);
    }
  }

  lemma IncludesConcatLeft(a: string, b: string, t: string)
    requires Includes(a, t)
    ensures Includes(a + b, t)
  {
    IncludesFromWitness(a, t, 0);
    IncludesFromWitness(a + b, t, 0);
    var p: nat :| OccursAt(a, t, p);
    assert (a + b)[p..p + |t|] == a[p..p + |t|];
    assert OccursAt(a + b, t, p);
  }

  lemma IncludesConcatRight(a: string, b: string, t: string)
    requires Includes(b, t)
    ensures Includes(a + b, t)
  {
    IncludesFromWitness(b, t, 0);
    IncludesFromWitness(a + b, t, 0);
    var p: nat :| OccursAt(b, t, p);
    assert (a + b)[|a| + p..|a| + p + |t|] == b[p..p + |t|];
    assert OccursAt(a + b, t, |a| + p);
  }

  /** A message one of whose pieces is `t` includes `t`. */
  lemma {:induction false} IncludesPiece(ps: seq<string>, k: nat, t: string)
    requires k < |ps| && ps[k] == t
    ensures Includes(Concat(ps), t)
    decreases k
  {
    if k == 0 {
      IncludesSelf(t);
      IncludesConcatLeft(ps[0], Concat(ps[1..]), t);
    } else {
      IncludesPiece(ps[1..], k - 1, t);
      IncludesConcatRight(ps[0], Concat(ps[1..]), t);
    }
  }
}
