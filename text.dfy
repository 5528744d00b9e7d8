/**
 * The string operations of Python that the diagnostic uses: `str.split(sep)`,
 * `sep.join(parts)`, `str.rstrip(c)`, `str.lstrip(c)` and `str.strip(c)`
 * with a one-character argument.
 */
module Text {

  function Last<T>(s: seq<T>): T
    requires |s| >= 1
  {
    s[|s| - 1]
  }

  lemma AppendAssociative<T>(a: seq<T>, b: seq<T>, c: seq<T>)
    ensures (a + b) + c == a + (b + c)
  {
  }

  /** `s.split(sep)`: the pieces between occurrences of `sep`; never empty. */
  function Split(s: string, sep: char): (parts: seq<string>)
    ensures |parts| >= 1
    decreases |s|
  {
    if s == [] then [[]]
    else
      var rest := Split(s[1..], sep);
      if s[0] == sep then [[]] + rest
      else [[s[0]] + rest[0]] + rest[1..]
  }

  /** `sep.join(parts)`. */
  function Join(parts: seq<string>, sep: char): string
    requires |parts| >= 1
    decreases |parts|
  {
    if |parts| == 1 then parts[0] else parts[0] + [sep] + Join(parts[1..], sep)
  }

  /** No piece of a split holds the separator. */
  lemma {:induction false} SplitPieces(s: string, sep: char)
    ensures forall i :: 0 <= i < |Split(s, sep)| ==> sep !in Split(s, sep)[i]
    decreases |s|
  {
    if s != [] {
      SplitPieces(s[1..], sep);
      var rest := Split(s[1..], sep);
      if s[0] != sep {
        assert forall i :: 1 <= i < |rest| ==> Split(s, sep)[i] == rest[i];
      } else {
        assert forall i :: 1 <= i < |rest| + 1 ==> Split(s, sep)[i] == rest[i - 1];
      }
    }
  }

  /** One step of the split: a leading separator opens a new piece, any other character joins the first piece. */
  lemma SplitStep(c: char, s: string, sep: char)
    ensures c == sep ==> Split([c] + s, sep) == [[]] + Split(s, sep)
    ensures c != sep ==> Split([c] + s, sep) == [[c] + Split(s, sep)[0]] + Split(s, sep)[1..]
  {
    assert ([c] + s)[0] == c && ([c] + s)[1..] == s;
  }

  lemma {:induction false} SplitWithoutSep(s: string, sep: char)
    requires sep !in s
    ensures Split(s, sep) == [s]
    decreases |s|
  {
    if s != [] {
      SplitWithoutSep(s[1..], sep);
      assert [s[0]] + s[1..] == s;
    }
  }

  /** Splitting at one occurrence of the separator splits the two sides independently. */
  lemma {:induction false} SplitAround(x: string, y: string, sep: char)
    ensures Split(x + [sep] + y, sep) == Split(x, sep) + Split(y, sep)
    decreases |x|
  {
    if x == [] {
      assert x + [sep] + y == [sep] + y;
      SplitStep(sep, y, sep);
    } else {
      var tail := x[1..] + [sep] + y;
      assert x + [sep] + y == [x[0]] + tail;
      assert x == [x[0]] + x[1..];
      SplitAround(x[1..], y, sep);
      SplitStep(x[0], tail, sep);
      SplitStep(x[0], x[1..], sep);
      var left, right := Split(x[1..], sep), Split(y, sep);
      if x[0] != sep {
        assert Split(tail, sep)[0] == left[0];
        assert Split(tail, sep)[1..] == left[1..] + right;
        AppendAssociative([[x[0]] + left[0]], left[1..], right);
      } else {
        AppendAssociative([[]], left, right);
      }
    }
  }


  /** Splitting a join of separator-free parts gives back the parts. */
  lemma {:induction false} SplitJoin(parts: seq<string>, sep: char)
    requires |parts| >= 1
    requires forall i :: 0 <= i < |parts| ==> sep !in parts[i]
    ensures Split(Join(parts, sep), sep) == parts
    decreases |parts|
  {
    SplitWithoutSep(parts[0], sep);
    if |parts| > 1 {
      SplitJoin(parts[1..], sep);
      SplitAround(parts[0], Join(parts[1..], sep), sep);
      assert [parts[0]] + parts[1..] == parts;
    }
  }

  /** Joining the pieces of a split gives back the string. */
  lemma {:induction false} JoinSplit(s: string, sep: char)
    ensures Join(Split(s, sep), sep) == s
    decreases |s|
  {
    if s != [] {
      JoinSplit(s[1..], sep);
      var rest := Split(s[1..], sep);
      if s[0] == sep {
        assert ([[]] + rest)[1..] == rest;
      } else if |rest| > 1 {
        assert ([[s[0]] + rest[0]] + rest[1..])[1..] == rest[1..];
      }
    }
  }

  /** The last piece of a split holding the separator is what follows its last occurrence. */
  lemma LastPieceAfter(x: string, y: string, sep: char)
    requires sep !in y
    ensures Last(Split(x + [sep] + y, sep)) == y
  {
    SplitAround(x, y, sep);
    SplitWithoutSep(y, sep);
  }

  /** `s.rstrip(c)`: `s` without its trailing run of `c`. */
  function TrimRight(s: string, c: char): string
    decreases |s|
  {
    if s != [] && Last(s) == c then TrimRight(s[..|s| - 1], c) else s
  }

  /** `s.lstrip(c)`: `s` without its leading run of `c`. */
  function TrimLeft(s: string, c: char): string
    decreases |s|
  {
    if s != [] && s[0] == c then TrimLeft(s[1..], c) else s
  }

  /** `rstrip` removes exactly the trailing run of `c`: a prefix is kept, and it does not end in `c`. */
  lemma {:induction false} TrimRightShape(s: string, c: char)
    ensures var r := TrimRight(s, c);
            && r <= s
            && (r == [] || Last(r) != c)
            && (forall i :: |r| <= i < |s| ==> s[i] == c)
    decreases |s|
  {
    if s != [] && Last(s) == c {
      TrimRightShape(s[..|s| - 1], c);
    }
  }

  /** `lstrip` removes exactly the leading run of `c`: a suffix is kept, and it does not start with `c`. */
  lemma {:induction false} TrimLeftShape(s: string, c: char)
    ensures var r := TrimLeft(s, c);
            && |r| <= |s| && r == s[|s| - |r|..]
            && (r == [] || r[0] != c)
            && (forall i :: 0 <= i < |s| - |r| ==> s[i] == c)
    decreases |s|
  {
    if s != [] && s[0] == c {
      TrimLeftShape(s[1..], c);
    }
  }

  /** `s.strip(c)`. */
  function Strip(s: string, c: char): string {
    TrimRight(TrimLeft(s, c), c)
  }

  /**
   * `strip` removes exactly the leading and the trailing run of `c`: what is
   * left is a slice of `s` that neither starts nor ends with `c`, and every
   * character cut off on either side is `c`.
   */
  lemma StripShape(s: string, c: char)
    ensures var r, k := Strip(s, c), |s| - |TrimLeft(s, c)|;
            && 0 <= k && k + |r| <= |s| && s[k..k + |r|] == r
            && (r == [] || (r[0] != c && Last(r) != c))
            && (forall i :: 0 <= i < k ==> s[i] == c)
            && (forall i :: k + |r| <= i < |s| ==> s[i] == c)
  {
    var t := TrimLeft(s, c);
    TrimLeftShape(s, c);
    TrimRightShape(t, c);
    var r, k := Strip(s, c), |s| - |t|;
    assert t == s[k..];
    assert forall i :: k + |r| <= i < |s| ==> s[i] == t[i - k];
  }
}
