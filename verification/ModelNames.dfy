/** Model name lists: the list helpers of controller/channel_upstream_update.go. */
module ModelNames {
  import opened Text
  import opened Lists

  type Names = seq<string>

  /** The FilterMap part of normalizeModelNames: trim, drop empty names. */
  function Clean(names: Names): Names {
    if names == [] then []
    else if TrimSpace(Last(names)) == "" then Clean(Front(names))
    else Clean(Front(names)) + [TrimSpace(Last(names))]
  }

  function NormalizeModelNames(names: Names): Names {
    Uniq(Clean(names))
  }

  function SubtractModelNames(base: Names, removed: Names): Names {
    Without(NormalizeModelNames(base), NormalizeModelNames(removed))
  }

  function IntersectModelNames(base: Names, allowed: Names): Names {
    Among(NormalizeModelNames(base), NormalizeModelNames(allowed))
  }

  function Merged(base: Names, appended: Names): Names {
    NormalizeModelNames(base) + Without(NormalizeModelNames(appended), NormalizeModelNames(base))
  }

  method MergeModelNames(base: Names, appended: Names) returns (merged: Names)
    ensures merged == Merged(base, appended)
  {
    merged := NormalizeModelNames(base);
    var seen := set n | n in merged;
    var names := NormalizeModelNames(appended);
    NormalizeIsNormal(appended);
    for k := 0 to |names|
      invariant merged == NormalizeModelNames(base) + Without(names[..k], NormalizeModelNames(base))
      invariant seen == set n | n in merged
    {
      WithoutStep(names, k, NormalizeModelNames(base));
      WithoutIn(names[..k], NormalizeModelNames(base), names[k]);
      if names[k] in seen {
        continue;
      }
      seen := seen + {names[k]};
      merged := merged + [names[k]];
    }
    assert names[..|names|] == names;
  }

  /** Add wins when the same model is selected in both lists. */
  function ApplySelectedModelChanges(origin: Names, add: Names, remove: Names): Names {
    var normalizedAdd := NormalizeModelNames(add);
    var normalizedRemove := SubtractModelNames(NormalizeModelNames(remove), normalizedAdd);
    SubtractModelNames(Merged(origin, normalizedAdd), normalizedRemove)
  }

  // ---- normal lists ------------------------------------------------------------------

  ghost predicate NormalName(n: string) {
    n != "" && Bare(n, Space)
  }

  ghost predicate Normal(names: Names) {
    Distinct(names) && forall n :: n in names ==> NormalName(n)
  }

  lemma {:induction false} CleanIn(names: Names, n: string)
    ensures n in Clean(names) <==> n != "" && exists m :: m in names && TrimSpace(m) == n
  {
    if names != [] {
      CleanIn(Front(names), n);
      FrontLast(names);
    }
  }

  lemma {:induction false} CleanNormal(names: Names)
    requires forall n :: n in names ==> NormalName(n)
    ensures Clean(names) == names
  {
    if names != [] {
      FrontLast(names);
      CleanNormal(Front(names));
      assert NormalName(Last(names));
      TrimIsBare(Last(names), Space);
    }
  }

  lemma NormalizeIn(names: Names, n: string)
    ensures n in NormalizeModelNames(names) <==> n != "" && exists m :: m in names && TrimSpace(m) == n
  {
    CleanIn(names, n);
    UniqIn(Clean(names), n);
  }

  lemma NormalizeIsNormal(names: Names)
    ensures Normal(NormalizeModelNames(names))
  {
    UniqDistinct(Clean(names));
    forall n | n in NormalizeModelNames(names) ensures NormalName(n) {
      NormalizeIn(names, n);
      var m :| m in names && TrimSpace(m) == n;
      TrimIsBare(m, Space);
    }
  }

  lemma NormalizeNormal(names: Names)
    requires Normal(names)
    ensures NormalizeModelNames(names) == names
  {
    CleanNormal(names);
    UniqOfDistinct(names);
  }

  function Trimmed(names: Names): Names {
    if names == [] then [] else Trimmed(Front(names)) + [TrimSpace(Last(names))]
  }

  lemma {:induction false} CleanIsTrimmed(names: Names, x: string, y: string)
    requires x != "" && y != ""
    ensures x in Clean(names) <==> x in Trimmed(names)
    ensures Precedes(Clean(names), x, y) ==> Precedes(Trimmed(names), x, y)
  {
    if names != [] {
      var clean, trimmed, z := Clean(Front(names)), Trimmed(Front(names)), TrimSpace(Last(names));
      CleanIsTrimmed(Front(names), x, y);
      CleanIsTrimmed(Front(names), y, x);
      if Precedes(clean, x, y) {
        PrecedesLonger(trimmed, x, y, z);
      } else if Precedes(Clean(names), x, y) {
        var i :| 0 <= i < |Clean(names)| && Clean(names)[i] == x && y !in Clean(names)[..i + 1];
        assert forall k :: 0 <= k < |clean| ==> clean[k] == Clean(names)[k] && clean[..k + 1] == Clean(names)[..k + 1];
        assert i == |clean| && z == x;
        assert Clean(names)[..i + 1] == clean + [z];
        assert Trimmed(names)[|trimmed|] == x && Trimmed(names)[..|trimmed| + 1] == trimmed + [z];
      }
    }
  }

  /** Normalising keeps the order in which the trimmed names first occur. */
  lemma NormalizeKeepsOrder(names: Names)
    ensures InOrder(NormalizeModelNames(names), Trimmed(names))
  {
    var r := NormalizeModelNames(names);
    UniqInOrder(Clean(names));
    NormalizeIsNormal(names);
    forall i, j | 0 <= i < j < |r| ensures Precedes(Trimmed(names), r[i], r[j]) {
      assert r[i] in r && r[j] in r;
      CleanIsTrimmed(names, r[i], r[j]);
    }
  }

  lemma WithoutNormal(names: Names, drop: Names)
    requires Normal(names)
    ensures Normal(Without(names, drop)) && InOrder(Without(names, drop), names)
  {
    WithoutInOrder(names, drop);
    WithoutDistinct(names, drop);
    forall n | n in Without(names, drop) ensures NormalName(n) { WithoutIn(names, drop, n); }
  }

  lemma AmongNormal(names: Names, keep: Names)
    requires Normal(names)
    ensures Normal(Among(names, keep)) && InOrder(Among(names, keep), names)
  {
    AmongInOrder(names, keep);
    AmongDistinct(names, keep);
    forall n | n in Among(names, keep) ensures NormalName(n) { AmongIn(names, keep, n); }
  }

  lemma MergedNormal(base: Names, appended: Names)
    requires Normal(base) && Normal(appended)
    ensures Merged(base, appended) == base + Without(appended, base) && Normal(Merged(base, appended))
  {
    NormalizeNormal(base);
    NormalizeNormal(appended);
    WithoutNormal(appended, base);
    forall n | n in Without(appended, base) ensures n !in base { WithoutIn(appended, base, n); }
    DistinctConcat(base, Without(appended, base));
  }

  /**
    Selected changes on a normal list: what is not removed keeps its place and order,
    new names follow in the order given, nothing appears twice.
   */
  lemma ApplySelectedShape(origin: Names, add: Names, remove: Names)
    requires Normal(origin) && Normal(add) && Normal(remove)
    requires forall n :: n in remove ==> n !in add
    ensures ApplySelectedModelChanges(origin, add, remove) == Without(origin, remove) + Without(add, origin)
    ensures Normal(ApplySelectedModelChanges(origin, add, remove))
  {
    NormalizeNormal(add);
    NormalizeNormal(remove);
    WithoutNone(remove, add);
    MergedNormal(origin, add);
    NormalizeNormal(Merged(origin, add));
    WithoutConcat(origin, Without(add, origin), remove);
    forall n | n in Without(add, origin) ensures n !in remove { WithoutIn(add, origin, n); }
    WithoutNone(Without(add, origin), remove);
    WithoutNormal(Merged(origin, add), remove);
  }
}
