/**
  The three string operations of Go's `strings` package that the dialer relies on:
  `Contains`, `Split` (with a one-character separator) and `TrimSuffix`.
  A Go string is a sequence of bytes; here each byte of a string is one `char`,
  and `Contains` is generic so that it also applies to byte buffers.
*/
module Text {

  /** `pat` occurs in `s` starting at index `i`. */
  predicate OccursAt<T(==)>(s: seq<T>, pat: seq<T>, i: nat) {
    i + |pat| <= |s| && s[i..i + |pat|] == pat
  }

  /** strings.Contains: `pat` occurs somewhere in `s` (the empty pattern occurs everywhere). */
  predicate Contains<T(==)>(s: seq<T>, pat: seq<T>) {
    exists i: nat | i <= |s| :: OccursAt(s, pat, i)
  }

  /** An occurrence in `s` is still an occurrence once more elements are appended. */
  lemma ContainsExtended<T>(s: seq<T>, t: seq<T>, pat: seq<T>)
    requires Contains(s, pat)
    ensures Contains(s + t, pat)
  {
    var i: nat :| i <= |s| && OccursAt(s, pat, i);
    assert (s + t)[i..i + |pat|] == s[i..i + |pat|];
    assert OccursAt(s + t, pat, i);
  }

  /** Number of occurrences of `x` in `s`. */
  function CountOf<T(==)>(s: seq<T>, x: T): (n: nat)
    ensures n <= |s|
    ensures n == 0 <==> x !in s
  {
    if s == [] then 0
    else (if s[0] == x then 1 else 0) + CountOf(s[1..], x)
  }

  /** The inverse of `Split`: the parts glued back together with `sep` between them. */
  function Join(parts: seq<string>, sep: char): string
    requires |parts| >= 1
  {
    if |parts| == 1 then parts[0] else parts[0] + [sep] + Join(parts[1..], sep)
  }

  /**
    strings.Split(s, sep) for a one-character separator: the maximal separator-free
    pieces of `s`, in order. There is always one more piece than there are separators,
    so the empty string splits into one empty piece.
  */
  function Split(s: string, sep: char): (parts: seq<string>)
    ensures |parts| == CountOf(s, sep) + 1
    ensures forall i :: 0 <= i < |parts| ==> sep !in parts[i]
    ensures Join(parts, sep) == s
  {
    if s == [] then [""]
    else
      var rest := Split(s[1..], sep);
      if s[0] == sep then
        assert Join([""] + rest, sep) == [sep] + Join(rest, sep);
        [""] + rest
      else
        var parts := [[s[0]] + rest[0]] + rest[1..];
        assert Join(parts, sep) == [s[0]] + Join(rest, sep) by {
          if |rest| > 1 {
            assert parts[1..] == rest[1..];
          }
        }
        parts
  }

  /** The last piece of a split. */
  function Last(parts: seq<string>): string
    requires |parts| >= 1
  {
    parts[|parts| - 1]
  }

  /** Joining one more piece at the end puts one separator before it. */
  lemma {:induction false} JoinAppend(parts: seq<string>, p: string, sep: char)
    requires |parts| >= 1
    ensures Join(parts + [p], sep) == Join(parts, sep) + [sep] + p
  {
    if |parts| > 1 {
      assert (parts + [p])[1..] == parts[1..] + [p];
      JoinAppend(parts[1..], p, sep);
    }
  }

  /** A piece without the separator followed by the separator starts a new piece. */
  lemma {:induction false} SplitPieceThenSeparator(p: string, t: string, sep: char)
    requires sep !in p
    ensures Split(p + [sep] + t, sep) == [p] + Split(t, sep)
  {
    if p != [] {
      assert (p + [sep] + t)[1..] == p[1..] + [sep] + t;
      SplitPieceThenSeparator(p[1..], t, sep);
      assert [p[0]] + p[1..] == p;
    }
  }

  /** A string without the separator is a single piece. */
  lemma {:induction false} SplitWithoutSeparator(p: string, sep: char)
    requires sep !in p
    ensures Split(p, sep) == [p]
  {
    if p != [] {
      SplitWithoutSeparator(p[1..], sep);
      assert [p[0]] + p[1..] == p;
    }
  }

  /** Split undoes Join whenever no piece contains the separator. */
  lemma {:induction false} SplitJoin(parts: seq<string>, sep: char)
    requires |parts| >= 1
    requires forall i :: 0 <= i < |parts| ==> sep !in parts[i]
    ensures Split(Join(parts, sep), sep) == parts
  {
    if |parts| == 1 {
      SplitWithoutSeparator(parts[0], sep);
    } else {
      SplitJoin(parts[1..], sep);
      SplitPieceThenSeparator(parts[0], Join(parts[1..], sep), sep);
      assert [parts[0]] + parts[1..] == parts;
    }
  }

  /** Appending a separator and a separator-free tail adds exactly that tail as a last piece. */
  lemma SplitAppendPiece(h: string, p: string, sep: char)
    requires sep !in p
    ensures Split(h + [sep] + p, sep) == Split(h, sep) + [p]
  {
    var parts := Split(h, sep) + [p];
    JoinAppend(Split(h, sep), p, sep);
    SplitJoin(parts, sep);
  }

  /** Every string holding the separator is its text before the last separator, the separator, and a separator-free rest. */
  lemma SplitAtLastSeparator(s: string, sep: char) returns (h: string, p: string)
    requires sep in s
    ensures s == h + [sep] + p && sep !in p
    ensures Split(s, sep) == Split(h, sep) + [p]
  {
    var parts := Split(s, sep);
    var n := |parts|;
    h, p := Join(parts[..n - 1], sep), parts[n - 1];
    assert parts == parts[..n - 1] + [p];
    JoinAppend(parts[..n - 1], p, sep);
    SplitAppendPiece(h, p, sep);
  }

  function HasSuffix(s: string, suffix: string): bool {
    |suffix| <= |s| && s[|s| - |suffix|..] == suffix
  }

  /** strings.TrimSuffix: `s` without `suffix` at its end, or `s` itself when it does not end so. */
  function TrimSuffix(s: string, suffix: string): (r: string)
    ensures HasSuffix(s, suffix) ==> r + suffix == s
    ensures !HasSuffix(s, suffix) ==> r == s
  {
    if HasSuffix(s, suffix) then s[..|s| - |suffix|] else s
  }

  /** Removing ":" + the last piece from a string with at least one separator leaves the text before its last separator. */
  lemma TrimLastPiece(h: string, p: string, sep: char)
    ensures TrimSuffix(h + [sep] + p, [sep] + p) == h
  {
  }
}
