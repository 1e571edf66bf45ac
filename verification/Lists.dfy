/** Ordered lists: first occurrences, filters, and their laws. */
module Lists {

  function Last<T>(s: seq<T>): T
    requires s != []
  {
    s[|s| - 1]
  }

  function Front<T>(s: seq<T>): seq<T>
    requires s != []
  {
    s[..|s| - 1]
  }

  /** lo.Uniq: first occurrences, in order. */
  function Uniq<T(==)>(s: seq<T>): seq<T> {
    if s == [] then []
    else if Last(s) in Uniq(Front(s)) then Uniq(Front(s))
    else Uniq(Front(s)) + [Last(s)]
  }

  /** Elements not in `drop`, in order. */
  function Without<T(==)>(s: seq<T>, drop: seq<T>): seq<T> {
    if s == [] then []
    else if Last(s) in drop then Without(Front(s), drop)
    else Without(Front(s), drop) + [Last(s)]
  }

  /** Elements in `keep`, in order. */
  function Among<T(==)>(s: seq<T>, keep: seq<T>): seq<T> {
    if s == [] then []
    else if Last(s) in keep then Among(Front(s), keep) + [Last(s)]
    else Among(Front(s), keep)
  }

  ghost predicate Distinct<T>(s: seq<T>) {
    forall i, j :: 0 <= i < j < |s| ==> s[i] != s[j]
  }

  lemma NoMembers<T>(s: seq<T>)
    ensures (forall x :: x !in s) <==> s == []
  {
    if s != [] {
      assert s[0] in s;
    }
  }

  lemma FrontLast<T>(s: seq<T>)
    requires s != []
    ensures s == Front(s) + [Last(s)]
    ensures forall x :: x in s <==> x in Front(s) || x == Last(s)
  {
    assert s == Front(s) + [Last(s)];
  }

  lemma {:induction false} UniqIn<T>(s: seq<T>, x: T)
    ensures x in Uniq(s) <==> x in s
  {
    if s != [] {
      UniqIn(Front(s), x);
      FrontLast(s);
    }
  }

  lemma {:induction false} UniqDistinct<T>(s: seq<T>)
    ensures Distinct(Uniq(s))
  {
    if s != [] {
      UniqDistinct(Front(s));
    }
  }

  lemma {:induction false} UniqOfDistinct<T>(s: seq<T>)
    requires Distinct(s)
    ensures Uniq(s) == s
  {
    if s != [] {
      UniqOfDistinct(Front(s));
      assert forall i :: 0 <= i < |Front(s)| ==> Front(s)[i] != Last(s);
      FrontLast(s);
    }
  }

  lemma DistinctConcat<T>(a: seq<T>, b: seq<T>)
    requires Distinct(a) && Distinct(b) && forall x :: x in b ==> x !in a
    ensures Distinct(a + b)
  {
    forall i, j | 0 <= i < j < |a + b| ensures (a + b)[i] != (a + b)[j] {
      if i < |a| && |a| <= j {
        assert a[i] in a && b[j - |a|] in b;
      }
    }
  }

  lemma WithoutStep<T>(s: seq<T>, k: nat, drop: seq<T>)
    requires k < |s|
    ensures Without(s[..k + 1], drop) == Without(s[..k], drop) + (if s[k] in drop then [] else [s[k]])
  {
    assert Front(s[..k + 1]) == s[..k];
  }

  lemma {:induction false} WithoutIn<T>(s: seq<T>, drop: seq<T>, x: T)
    ensures x in Without(s, drop) <==> x in s && x !in drop
  {
    if s != [] {
      WithoutIn(Front(s), drop, x);
      FrontLast(s);
    }
  }

  lemma {:induction false} AmongIn<T>(s: seq<T>, keep: seq<T>, x: T)
    ensures x in Among(s, keep) <==> x in s && x in keep
  {
    if s != [] {
      AmongIn(Front(s), keep, x);
      FrontLast(s);
    }
  }

  lemma LastIsNew<T>(s: seq<T>)
    requires s != [] && Distinct(s)
    ensures Last(s) !in Front(s) && Distinct(Front(s))
  {
    assert forall i :: 0 <= i < |Front(s)| ==> Front(s)[i] != Last(s);
  }

  lemma SnocDistinct<T>(s: seq<T>, x: T)
    requires Distinct(s) && x !in s
    ensures Distinct(s + [x])
  {
  }

  lemma {:induction false} WithoutDistinct<T>(s: seq<T>, drop: seq<T>)
    requires Distinct(s)
    ensures Distinct(Without(s, drop))
  {
    if s != [] {
      LastIsNew(s);
      WithoutDistinct(Front(s), drop);
      WithoutIn(Front(s), drop, Last(s));
      SnocDistinct(Without(Front(s), drop), Last(s));
    }
  }

  lemma {:induction false} AmongDistinct<T>(s: seq<T>, keep: seq<T>)
    requires Distinct(s)
    ensures Distinct(Among(s, keep))
  {
    if s != [] {
      LastIsNew(s);
      AmongDistinct(Front(s), keep);
      AmongIn(Front(s), keep, Last(s));
      SnocDistinct(Among(Front(s), keep), Last(s));
    }
  }

  lemma {:induction false} WithoutConcat<T>(a: seq<T>, b: seq<T>, drop: seq<T>)
    ensures Without(a + b, drop) == Without(a, drop) + Without(b, drop)
  {
    if b == [] {
      assert a + b == a;
    } else {
      assert Front(a + b) == a + Front(b) && Last(a + b) == Last(b);
      WithoutConcat(a, Front(b), drop);
    }
  }

  /** Nothing to drop. */
  lemma {:induction false} WithoutNone<T>(s: seq<T>, drop: seq<T>)
    requires forall x :: x in s ==> x !in drop
    ensures Without(s, drop) == s
  {
    if s != [] {
      FrontLast(s);
      WithoutNone(Front(s), drop);
    }
  }

  /** Everything is wanted. */
  lemma {:induction false} AmongAll<T>(s: seq<T>, keep: seq<T>)
    requires forall x :: x in s ==> x in keep
    ensures Among(s, keep) == s
  {
    if s != [] {
      FrontLast(s);
      AmongAll(Front(s), keep);
    }
  }

  // ---- order --------------------------------------------------------------------------------

  /** x occurs before y does. */
  ghost predicate Precedes<T>(s: seq<T>, x: T, y: T) {
    exists i :: 0 <= i < |s| && s[i] == x && y !in s[..i + 1]
  }

  /** The elements of r come in the order in which they first occur in s. */
  ghost predicate InOrder<T(!new)>(r: seq<T>, s: seq<T>) {
    forall i, j :: 0 <= i < j < |r| ==> Precedes(s, r[i], r[j])
  }

  lemma PrecedesLonger<T>(s: seq<T>, x: T, y: T, z: T)
    requires Precedes(s, x, y)
    ensures Precedes(s + [z], x, y)
  {
    var i :| 0 <= i < |s| && s[i] == x && y !in s[..i + 1];
    assert (s + [z])[i] == x && (s + [z])[..i + 1] == s[..i + 1];
  }

  lemma PrecedesNew<T>(s: seq<T>, x: T, z: T)
    requires x in s && z !in s
    ensures Precedes(s + [z], x, z)
  {
    var i :| 0 <= i < |s| && s[i] == x;
    assert (s + [z])[i] == x && (s + [z])[..i + 1] == s[..i + 1];
  }

  lemma InOrderSnoc<T(!new)>(r: seq<T>, s: seq<T>, z: T)
    requires InOrder(r, s) && forall x :: x in r ==> x in s
    ensures InOrder(r, s + [z])
    ensures z !in s ==> InOrder(r + [z], s + [z])
  {
    forall i, j | 0 <= i < j < |r| ensures Precedes(s + [z], r[i], r[j]) {
      PrecedesLonger(s, r[i], r[j], z);
    }
    if z !in s {
      forall i | 0 <= i < |r| ensures Precedes(s + [z], r[i], z) {
        PrecedesNew(s, r[i], z);
      }
    }
  }

  lemma {:induction false} UniqInOrder<T(!new)>(s: seq<T>)
    ensures InOrder(Uniq(s), s)
  {
    if s != [] {
      UniqInOrder(Front(s));
      FrontLast(s);
      forall x ensures x in Uniq(Front(s)) <==> x in Front(s) {
        UniqIn(Front(s), x);
      }
      InOrderSnoc(Uniq(Front(s)), Front(s), Last(s));
    }
  }

  lemma {:induction false} WithoutInOrder<T(!new)>(s: seq<T>, drop: seq<T>)
    requires Distinct(s)
    ensures InOrder(Without(s, drop), s)
  {
    if s != [] {
      LastIsNew(s);
      WithoutInOrder(Front(s), drop);
      FrontLast(s);
      forall x | x in Without(Front(s), drop) ensures x in Front(s) {
        WithoutIn(Front(s), drop, x);
      }
      InOrderSnoc(Without(Front(s), drop), Front(s), Last(s));
    }
  }

  lemma {:induction false} AmongInOrder<T(!new)>(s: seq<T>, keep: seq<T>)
    requires Distinct(s)
    ensures InOrder(Among(s, keep), s)
  {
    if s != [] {
      LastIsNew(s);
      AmongInOrder(Front(s), keep);
      FrontLast(s);
      forall x | x in Among(Front(s), keep) ensures x in Front(s) {
        AmongIn(Front(s), keep, x);
      }
      InOrderSnoc(Among(Front(s), keep), Front(s), Last(s));
    }
  }
}
