/**
 * The Python `str` operations the deployment core relies on: `split` on a
 * one-character separator, the join that undoes it, `strip`, and the decimal
 * rendering of an integer used in `"{0}".format(ts)`.
 */
module Text {

  /** Number of occurrences of `c` in `s`. */
  function Count(s: string, c: char): (n: nat)
    ensures n <= |s|
    ensures n == 0 <==> c !in s
  {
    if s == [] then 0 else (if s[0] == c then 1 else 0) + Count(s[1..], c)
  }

  /** `parts[0] + sep + parts[1] + ... + sep + parts[|parts| - 1]` (Python `sep.join(parts)`). */
  function Join(parts: seq<string>, sep: char): string
    requires |parts| >= 1
  {
    if |parts| == 1 then parts[0] else parts[0] + [sep] + Join(parts[1..], sep)
  }

  /**
   * Python `s.split(sep)`: the pieces between the separators, in order. There is
   * always one more piece than separators, no piece holds the separator, and
   * joining the pieces gives `s` back.
   */
  function Split(s: string, sep: char): (parts: seq<string>)
    ensures |parts| == Count(s, sep) + 1
    decreases |s|
  {
    if s == [] then [""]
    else if s[0] == sep then [""] + Split(s[1..], sep)
    else
      var rest := Split(s[1..], sep);
      [[s[0]] + rest[0]] + rest[1..]
  }

  /** Round trip: joining the pieces of a split gives the text back. */
  lemma {:induction false} SplitJoinsBack(s: string, sep: char)
    ensures Join(Split(s, sep), sep) == s
    decreases |s|
  {
    if s != [] {
      SplitJoinsBack(s[1..], sep);
      var rest := Split(s[1..], sep);
      var r := Split(s, sep);
      if s[0] == sep {
        assert r[1..] == rest;
        assert s == [sep] + s[1..];
      } else {
        assert r[1..] == rest[1..];
        assert s == [s[0]] + Join(rest, sep);
        if |rest| > 1 {
          assert Join(r, sep) == [s[0]] + rest[0] + [sep] + Join(rest[1..], sep);
        }
      }
    }
  }

  /** No piece of a split holds the separator. */
  lemma {:induction false} SplitPiecesLack(s: string, sep: char)
    ensures forall i :: 0 <= i < |Split(s, sep)| ==> sep !in Split(s, sep)[i]
    decreases |s|
  {
    if s != [] {
      SplitPiecesLack(s[1..], sep);
      var rest := Split(s[1..], sep);
      var parts := Split(s, sep);
      forall i | 0 < i < |parts| ensures sep !in parts[i] {
        assert parts[i] == rest[i - 1] || (s[0] != sep && parts[i] == rest[i]);
      }
    }
  }

  /** A piece free of the separator splits into itself. */
  lemma {:induction false} SplitNoSeparator(a: string, sep: char)
    requires sep !in a
    ensures Split(a, sep) == [a]
  {
    var p := Split(a, sep);
    SplitJoinsBack(a, sep);
    assert |p| == 1;
    assert Join(p, sep) == p[0];
  }

  /** A leading character other than the separator joins the first piece. */
  lemma SplitCons(c: char, t: string, sep: char)
    requires c != sep
    ensures var rest := Split(t, sep);
            Split([c] + t, sep) == [[c] + rest[0]] + rest[1..]
  {
    assert ([c] + t)[1..] == t;
  }

  /** Splitting `a + sep + b` with `a` free of the separator peels `a` off. */
  lemma {:induction false} SplitAfterPiece(a: string, sep: char, b: string)
    requires sep !in a
    ensures Split(a + [sep] + b, sep) == [a] + Split(b, sep)
    decreases |a|
  {
    if a == [] {
      assert a + [sep] + b == [sep] + b;
      assert ([sep] + b)[1..] == b;
    } else {
      var t := a[1..] + [sep] + b;
      SplitAfterPiece(a[1..], sep, b);
      SplitCons(a[0], t, sep);
      assert a + [sep] + b == [a[0]] + t;
      assert [a[0]] + a[1..] == a;
    }
  }

  /** Round trip: splitting a join of separator-free pieces gives the pieces back. */
  lemma {:induction false} SplitJoin(parts: seq<string>, sep: char)
    requires |parts| >= 1
    requires forall i :: 0 <= i < |parts| ==> sep !in parts[i]
    ensures Split(Join(parts, sep), sep) == parts
    decreases |parts|
  {
    if |parts| == 1 {
      SplitNoSeparator(parts[0], sep);
    } else {
      SplitJoin(parts[1..], sep);
      SplitAfterPiece(parts[0], sep, Join(parts[1..], sep));
      assert [parts[0]] + parts[1..] == parts;
    }
  }

  /** The characters Python's `str.isspace` accepts (the ones `str.strip()` removes). */
  predicate IsSpace(c: char) {
    c == ' ' || c == '\t' || c == '\n' || c == '\r' || c == '\U{0B}' || c == '\U{0C}'
    || ('\U{1C}' <= c <= '\U{1F}') || c == '\U{85}' || c == '\U{A0}' || c == '\U{1680}'
    || ('\U{2000}' <= c <= '\U{200A}') || c == '\U{2028}' || c == '\U{2029}'
    || c == '\U{202F}' || c == '\U{205F}' || c == '\U{3000}'
  }

  predicate AllSpace(s: string) {
    forall i :: 0 <= i < |s| ==> IsSpace(s[i])
  }

  /** Python `s.lstrip()`: the suffix left after dropping the leading white space. */
  function LStrip(s: string): (r: string)
    ensures |r| <= |s| && r == s[|s| - |r|..]
  {
    if s != [] && IsSpace(s[0]) then
      var r := LStrip(s[1..]);
      assert s[1..][|s| - 1 - |r|..] == s[|s| - |r|..];
      r
    else s
  }

  /** What `lstrip` drops is white space, and what it keeps does not start with any. */
  lemma {:induction false} LStripDropsSpace(s: string)
    ensures var r := LStrip(s);
            (forall i :: 0 <= i < |s| - |r| ==> IsSpace(s[i])) && (r == [] || !IsSpace(r[0]))
    decreases |s|
  {
    if s != [] && IsSpace(s[0]) {
      var t := s[1..];
      LStripDropsSpace(t);
      var r := LStrip(t);
      assert LStrip(s) == r;
      forall i | 0 < i < |s| - |r| ensures IsSpace(s[i]) {
        assert s[i] == t[i - 1];
      }
    }
  }

  /** Python `s.rstrip()`: the prefix left after dropping the trailing white space. */
  function RStrip(s: string): (r: string)
    ensures |r| <= |s| && r == s[..|r|]
  {
    if s != [] && IsSpace(s[|s| - 1]) then
      var r := RStrip(s[..|s| - 1]);
      assert s[..|s| - 1][..|r|] == s[..|r|];
      r
    else s
  }

  /** What `rstrip` drops is white space, and what it keeps does not end with any. */
  lemma {:induction false} RStripDropsSpace(s: string)
    ensures var r := RStrip(s);
            (forall i :: |r| <= i < |s| ==> IsSpace(s[i])) && (r == [] || !IsSpace(r[|r| - 1]))
    decreases |s|
  {
    if s != [] && IsSpace(s[|s| - 1]) {
      var t := s[..|s| - 1];
      RStripDropsSpace(t);
      var r := RStrip(t);
      assert RStrip(s) == r;
      forall i | |r| <= i < |s| - 1 ensures IsSpace(s[i]) {
        assert s[i] == t[i];
      }
    }
  }

  /** Python `s.strip()`. */
  function Strip(s: string): string {
    LStrip(RStrip(s))
  }

  lemma {:induction false} CountConcat(a: string, b: string, c: char)
    ensures Count(a + b, c) == Count(a, c) + Count(b, c)
    decreases |a|
  {
    if a == [] {
      assert a + b == b;
    } else {
      CountConcat(a[1..], b, c);
      assert (a + b)[1..] == a[1..] + b;
    }
  }

  /**
   * `rstrip` removes exactly one newline from text that ends with one, when
   * the last newline before it comes before a non-space character at `p`.
   */
  lemma RStripDropsFinalNewline(s: string, p: nat)
    requires p < |s| - 1
    requires !IsSpace(s[p]) && s[|s| - 1] == '\n'
    requires forall i :: p < i < |s| - 1 ==> s[i] != '\n'
    ensures p < |RStrip(s)|
    ensures Count(RStrip(s), '\n') + 1 == Count(s, '\n')
  {
    var r := RStrip(s);
    RStripDropsSpace(s);
    var m := |r|;
    assert p < m < |s|;
    var tail := s[m..|s| - 1];
    assert s == r + tail + ['\n'];
    assert '\n' !in tail by {
      forall i | 0 <= i < |tail| ensures tail[i] != '\n' {
        assert tail[i] == s[m + i];
      }
    }
    CountConcat(r + tail, ['\n'], '\n');
    CountConcat(r, tail, '\n');
  }

  /** Dropping a prefix without `c` keeps the count of `c`. */
  lemma {:induction false} CountDropPrefix(s: string, d: nat, c: char)
    requires d <= |s|
    requires forall i :: 0 <= i < d ==> s[i] != c
    ensures Count(s[d..], c) == Count(s, c)
    decreases d
  {
    if d > 0 {
      CountDropPrefix(s[1..], d - 1, c);
      assert s[1..][d - 1..] == s[d..];
    }
  }

  /** `lstrip` stops at or before a non-space character. */
  lemma LStripStopsBefore(r: string, q: nat)
    requires q < |r| && !IsSpace(r[q])
    ensures |r| - |LStrip(r)| <= q
  {
    LStripDropsSpace(r);
  }

  /** `lstrip` removes no newline when a non-space character at `q` comes before every newline. */
  lemma LStripKeepsNewlines(r: string, q: nat)
    requires q < |r| && !IsSpace(r[q])
    requires forall i :: 0 <= i < q ==> r[i] != '\n'
    ensures Count(LStrip(r), '\n') == Count(r, '\n')
  {
    var l := LStrip(r);
    LStripStopsBefore(r, q);
    CountDropPrefix(r, |r| - |l|, '\n');
  }

  /**
   * `strip` removes exactly one newline from text that ends with one, when
   * non-space characters stand before the first and after the last other newline.
   */
  lemma StripDropsFinalNewline(s: string, q: nat, p: nat)
    requires q <= p < |s| - 1
    requires !IsSpace(s[q]) && !IsSpace(s[p]) && s[|s| - 1] == '\n'
    requires forall i :: 0 <= i < q ==> s[i] != '\n'
    requires forall i :: p < i < |s| - 1 ==> s[i] != '\n'
    ensures Count(Strip(s), '\n') + 1 == Count(s, '\n')
  {
    RStripDropsFinalNewline(s, p);
    var r := RStrip(s);
    assert forall i :: 0 <= i <= q ==> r[i] == s[i];
    LStripKeepsNewlines(r, q);
  }

  predicate IsDigit(c: char) {
    '0' <= c <= '9'
  }

  /** `str(n)` for a natural number: its decimal digits, most significant first. */
  function Decimal(n: nat): (r: string)
    ensures |r| >= 1
    ensures forall i :: 0 <= i < |r| ==> IsDigit(r[i])
  {
    var d := [(('0' as int) + n % 10) as char];
    if n < 10 then d else Decimal(n / 10) + d
  }
}
