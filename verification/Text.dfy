/** The parts of Go's strings package that the models need, on sequences of characters. */
module Text {

  /** unicode.IsSpace */
  predicate IsSpace(c: char) {
    || '\t' <= c <= '\r' || c == ' ' || c == '\U{0085}' || c == '\U{00A0}' || c == '\U{1680}'
    || '\U{2000}' <= c <= '\U{200A}' || c == '\U{2028}' || c == '\U{2029}' || c == '\U{202F}'
    || c == '\U{205F}' || c == '\U{3000}'
  }

  /** What Trim removes at both ends: white space, or one character. */
  datatype Cut = Space | Only(c: char)

  predicate Cuts(cut: Cut, c: char) {
    match cut
    case Space => IsSpace(c)
    case Only(d) => c == d
  }

  function TrimLeft(s: string, cut: Cut): string {
    if s != "" && Cuts(cut, s[0]) then TrimLeft(s[1..], cut) else s
  }

  function TrimRight(s: string, cut: Cut): string {
    if s != "" && Cuts(cut, s[|s| - 1]) then TrimRight(s[..|s| - 1], cut) else s
  }

  function Trim(s: string, cut: Cut): string {
    TrimRight(TrimLeft(s, cut), cut)
  }

  function TrimSpace(s: string): string {
    Trim(s, Space)
  }

  /** The pieces of c + s, given the pieces of s. */
  function Prepend(c: char, sep: char, parts: seq<string>): seq<string>
    requires |parts| >= 1
  {
    if c == sep then [""] + parts else [[c] + parts[0]] + parts[1..]
  }

  /** strings.Split on one character: never empty. */
  function Split(s: string, sep: char): (parts: seq<string>)
    ensures |parts| >= 1
  {
    if s == "" then [""] else Prepend(s[0], sep, Split(s[1..], sep))
  }

  function Join(parts: seq<string>, sep: char): string {
    if parts == [] then "" else if |parts| == 1 then parts[0] else parts[0] + [sep] + Join(parts[1..], sep)
  }

  // ---- trimming -------------------------------------------------------------------

  predicate Bare(s: string, cut: Cut) {
    s == "" || (!Cuts(cut, s[0]) && !Cuts(cut, s[|s| - 1]))
  }

  lemma {:induction false} TrimRightBare(s: string, cut: Cut)
    ensures var t := TrimRight(s, cut);
      && (t == "" || !Cuts(cut, t[|t| - 1])) && |t| <= |s| && t == s[..|t|]
  {
    if s != "" && Cuts(cut, s[|s| - 1]) {
      TrimRightBare(s[..|s| - 1], cut);
    }
  }

  lemma {:induction false} TrimLeftBare(s: string, cut: Cut)
    ensures var t := TrimLeft(s, cut);
      && (t == "" || !Cuts(cut, t[0])) && |t| <= |s| && t == s[|s| - |t|..]
  {
    if s != "" && Cuts(cut, s[0]) {
      TrimLeftBare(s[1..], cut);
    }
  }

  /** Trimming leaves a part of the string with nothing to trim, and such a string is left alone. */
  lemma TrimIsBare(s: string, cut: Cut)
    ensures Bare(Trim(s, cut), cut)
    ensures forall c :: c in Trim(s, cut) ==> c in s
    ensures Bare(s, cut) ==> Trim(s, cut) == s
  {
    TrimLeftBare(s, cut);
    TrimRightBare(TrimLeft(s, cut), cut);
  }

  /** Trimming the left end stops inside a prefix that is not all cut. */
  lemma {:induction false} TrimLeftPrefix(a: string, b: string, cut: Cut)
    requires TrimLeft(a, cut) != ""
    ensures TrimLeft(a + b, cut) == TrimLeft(a, cut) + b
  {
    if Cuts(cut, a[0]) {
      assert (a + b)[1..] == a[1..] + b;
      TrimLeftPrefix(a[1..], b, cut);
    }
  }

  lemma {:induction false} TrimRightKeepsFirst(s: string, cut: Cut)
    requires s != "" && !Cuts(cut, s[0])
    ensures TrimRight(s, cut) != "" && TrimRight(s, cut)[0] == s[0]
  {
    if Cuts(cut, s[|s| - 1]) {
      TrimRightKeepsFirst(s[..|s| - 1], cut);
    }
  }

  // ---- splitting and joining ---------------------------------------------------------

  lemma {:induction false} SplitPlain(s: string, sep: char)
    requires sep !in s
    ensures Split(s, sep) == [s]
  {
    if s != "" {
      SplitPlain(s[1..], sep);
      assert [s[0]] + s[1..] == s;
    }
  }

  lemma PrependConcat(c: char, sep: char, x: seq<string>, y: seq<string>)
    requires |x| >= 1
    ensures Prepend(c, sep, x + y) == Prepend(c, sep, x) + y
  {
    assert (x + y)[1..] == x[1..] + y;
  }

  lemma {:induction false} SplitConcat(a: string, b: string, sep: char)
    ensures Split(a + [sep] + b, sep) == Split(a, sep) + Split(b, sep)
  {
    var s := a + [sep] + b;
    if a == "" {
      assert s[0] == sep && s[1..] == b;
    } else {
      assert s[0] == a[0] && s[1..] == a[1..] + [sep] + b;
      SplitConcat(a[1..], b, sep);
      PrependConcat(a[0], sep, Split(a[1..], sep), Split(b, sep));
    }
  }

  /** Splitting undoes joining when no part holds the separator. */
  lemma {:induction false} SplitJoin(parts: seq<string>, sep: char)
    requires parts != [] && forall i :: 0 <= i < |parts| ==> sep !in parts[i]
    ensures Split(Join(parts, sep), sep) == parts
    decreases |parts|
  {
    SplitPlain(parts[0], sep);
    if |parts| > 1 {
      var rest := parts[1..];
      SplitJoin(rest, sep);
      SplitConcat(parts[0], Join(rest, sep), sep);
      assert [parts[0]] + rest == parts;
    }
  }

  /** Joining undoes splitting. */
  lemma {:induction false} JoinSplit(s: string, sep: char)
    ensures Join(Split(s, sep), sep) == s
  {
    if s != "" {
      var parts := Split(s[1..], sep);
      JoinSplit(s[1..], sep);
      if s[0] == sep {
        assert ([""] + parts)[1..] == parts;
      } else {
        assert Split(s, sep)[1..] == parts[1..];
      }
    }
  }

  lemma {:induction false} PiecesPlain(s: string, sep: char)
    ensures forall p :: p in Split(s, sep) ==> sep !in p
    ensures forall p, c :: p in Split(s, sep) && c in p ==> c in s
  {
    if s != "" {
      PiecesPlain(s[1..], sep);
    }
  }

  /** Splitting a join splits each part: a part without the separator comes through whole. */
  lemma {:induction false} PieceOfJoin(parts: seq<string>, sep: char, p: string)
    requires p in parts && sep !in p
    ensures p in Split(Join(parts, sep), sep)
    decreases |parts|
  {
    if |parts| == 1 {
      SplitPlain(p, sep);
    } else {
      var rest := Join(parts[1..], sep);
      SplitConcat(parts[0], rest, sep);
      if p == parts[0] {
        SplitPlain(p, sep);
      } else {
        PieceOfJoin(parts[1..], sep, p);
      }
    }
  }

  /** Trimming separators at the ends only loses empty pieces. */
  lemma PieceSurvivesTrim(s: string, sep: char, p: string)
    requires p in Split(s, sep) && p != ""
    ensures p in Split(Trim(s, Only(sep)), sep)
  {
    PieceSurvivesTrimLeft(s, sep, p);
    PieceSurvivesTrimRight(TrimLeft(s, Only(sep)), sep, p);
  }

  lemma {:induction false} PieceSurvivesTrimLeft(s: string, sep: char, p: string)
    requires p in Split(s, sep) && p != ""
    ensures p in Split(TrimLeft(s, Only(sep)), sep)
  {
    if s != "" && s[0] == sep {
      PieceSurvivesTrimLeft(s[1..], sep, p);
    }
  }

  lemma {:induction false} PieceSurvivesTrimRight(s: string, sep: char, p: string)
    requires p in Split(s, sep) && p != ""
    ensures p in Split(TrimRight(s, Only(sep)), sep)
  {
    if s != "" && s[|s| - 1] == sep {
      assert s == s[..|s| - 1] + [sep] + "";
      SplitConcat(s[..|s| - 1], "", sep);
      PieceSurvivesTrimRight(s[..|s| - 1], sep, p);
    }
  }

  /** The first piece is empty exactly when the string starts with the separator, or is empty. */
  lemma SplitFirst(s: string, sep: char)
    ensures Split(s, sep)[0] == "" <==> s == "" || s[0] == sep
  {
  }

  /** Likewise at the end. */
  lemma {:induction false} SplitLast(s: string, sep: char)
    ensures var parts := Split(s, sep); parts[|parts| - 1] == "" <==> s == "" || s[|s| - 1] == sep
  {
    if s != "" {
      SplitLast(s[1..], sep);
    }
  }

  /** A join starts with its first part and ends with its last one. */
  lemma {:induction false} JoinEnds(parts: seq<string>, sep: char)
    requires parts != [] && parts[0] != "" && parts[|parts| - 1] != ""
    ensures var s := Join(parts, sep);
      var last := parts[|parts| - 1];
      s != "" && s[0] == parts[0][0] && s[|s| - 1] == last[|last| - 1]
    decreases |parts|
  {
    if |parts| > 1 {
      JoinEndsWith(parts, sep);
    }
  }

  lemma {:induction false} JoinEndsWith(parts: seq<string>, sep: char)
    requires parts != [] && parts[|parts| - 1] != ""
    ensures var s := Join(parts, sep);
      var last := parts[|parts| - 1];
      s != "" && s[|s| - 1] == last[|last| - 1]
    decreases |parts|
  {
    if |parts| > 1 {
      JoinEndsWith(parts[1..], sep);
    }
  }

  /** A join of parts without the separator, the first and last not empty, neither starts nor ends with it. */
  lemma JoinBare(parts: seq<string>, sep: char)
    requires parts != [] && parts[0] != "" && parts[|parts| - 1] != ""
    requires forall i :: 0 <= i < |parts| ==> sep !in parts[i]
    ensures Join(parts, sep) != "" && Bare(Join(parts, sep), Only(sep))
  {
    JoinEnds(parts, sep);
    var last := parts[|parts| - 1];
    assert parts[0][0] in parts[0] && last[|last| - 1] in last;
  }
}
