/**
 * The JavaScript string operations the page relies on, written out over
 * `seq<char>`: `split` on one character followed by `pop`, `join`,
 * `toLowerCase`, `trim`, the decimal text a number takes inside a template
 * literal, and the string that `+=` builds by appending one piece n times.
 */
module Text {

  /** `pieces.join(sep)`: the pieces with `sep` between neighbours. */
  function Join(pieces: seq<string>, sep: string): string
  {
    if |pieces| == 0 then []
    else if |pieces| == 1 then pieces[0]
    else Join(pieces[..|pieces| - 1], sep) + sep + pieces[|pieces| - 1]
  }

  /**
   * `s.split(sep)` for a one-character separator: never empty, no piece
   * holds the separator, and joining the pieces back gives `s`.
   */
  function Split(s: string, sep: char): (pieces: seq<string>)
    ensures |pieces| >= 1
    ensures forall i :: 0 <= i < |pieces| ==> sep !in pieces[i]
    ensures Join(pieces, [sep]) == s
    decreases |s|
  {
    if s == [] then [[]]
    else
      var init := Split(s[..|s| - 1], sep);
      var c := s[|s| - 1];
      assert s == s[..|s| - 1] + [c];
      if c == sep then
        var r := init + [[]];
        assert r[..|r| - 1] == init;
        r
      else
        var r := init[..|init| - 1] + [init[|init| - 1] + [c]];
        assert r[..|r| - 1] == init[..|init| - 1];
        assert |init| > 1 ==> init == init[..|init| - 1] + [init[|init| - 1]];
        assert |init| > 1 ==> Join(init, [sep]) == Join(init[..|init| - 1], [sep]) + [sep] + init[|init| - 1];
        r
  }

  /** The last element of a non-empty sequence (`Array.prototype.pop`'s result). */
  function Last<T>(xs: seq<T>): T
    requires |xs| >= 1
  {
    xs[|xs| - 1]
  }

  /**
   * The text after the last `sep` of `s`, or all of `s` when it holds none:
   * the longest suffix of `s` without `sep`.
   */
  function AfterLast(s: string, sep: char): (t: string)
    ensures |t| <= |s| && t == s[|s| - |t|..]
    ensures sep !in t
    ensures |t| < |s| ==> s[|s| - |t| - 1] == sep
    decreases |s|
  {
    if s == [] || s[|s| - 1] == sep then []
    else
      var t := AfterLast(s[..|s| - 1], sep) + [s[|s| - 1]];
      assert s[..|s| - 1][|s| - |t|..] + [s[|s| - 1]] == s[|s| - |t|..];
      t
  }

  /** The last piece of a split is the text after the last separator. */
  lemma {:induction false} LastOfSplit(s: string, sep: char)
    ensures Last(Split(s, sep)) == AfterLast(s, sep)
    decreases |s|
  {
    if s != [] {
      LastOfSplit(s[..|s| - 1], sep);
    }
  }

  /** Splitting a join of separator-free pieces gives the pieces back. */
  lemma {:induction false} SplitJoin(pieces: seq<string>, sep: char)
    requires |pieces| >= 1
    requires forall i :: 0 <= i < |pieces| ==> sep !in pieces[i]
    ensures Split(Join(pieces, [sep]), sep) == pieces
    decreases |pieces|
  {
    if |pieces| == 1 {
      SplitNoSeparator(pieces[0], sep);
    } else {
      var init := pieces[..|pieces| - 1];
      var last := pieces[|pieces| - 1];
      assert Join(pieces, [sep]) == Join(init, [sep]) + [sep] + last;
      SplitJoin(init, sep);
      SplitAppendPiece(Join(init, [sep]), last, sep);
      assert pieces == init + [last];
    }
  }

  /** A string without the separator splits into itself alone. */
  lemma {:induction false} SplitNoSeparator(p: string, sep: char)
    requires sep !in p
    ensures Split(p, sep) == [p]
    decreases |p|
  {
    if p != [] {
      SplitNoSeparator(p[..|p| - 1], sep);
      assert p == p[..|p| - 1] + [p[|p| - 1]];
    }
  }

  /** Appending a separator and a separator-free piece adds one piece. */
  lemma {:induction false} SplitAppendPiece(x: string, p: string, sep: char)
    requires sep !in p
    ensures Split(x + [sep] + p, sep) == Split(x, sep) + [p]
    decreases |p|
  {
    var s := x + [sep] + p;
    if p == [] {
      assert s[..|s| - 1] == x && s[|s| - 1] == sep;
      assert Split(s, sep) == Split(x, sep) + [[]];
    } else {
      var q := p[..|p| - 1];
      var c := p[|p| - 1];
      var shorter := x + [sep] + q;
      assert p == q + [c];
      assert s == shorter + [c] && s[..|s| - 1] == shorter && s[|s| - 1] == c && c != sep;
      var init := Split(shorter, sep);
      assert Split(s, sep) == init[..|init| - 1] + [init[|init| - 1] + [c]];
      SplitAppendPiece(x, q, sep);
      assert init == Split(x, sep) + [q];
      assert init[..|init| - 1] == Split(x, sep) && init[|init| - 1] == q;
    }
  }

  /** One character of `toLowerCase` (ASCII letters only). */
  function LowerChar(c: char): char
  {
    if 'A' <= c <= 'Z' then (c as int - 'A' as int + 'a' as int) as char else c
  }

  /**
   * `s.toLowerCase()` for the ASCII letters: every capital becomes its small
   * letter, every other character stays, and no capital is left.
   */
  function Lower(s: string): (r: string)
    ensures |r| == |s|
    ensures forall k :: 0 <= k < |s| && 'A' <= s[k] <= 'Z' ==> r[k] as int == s[k] as int + 32
    ensures forall k :: 0 <= k < |s| && !('A' <= s[k] <= 'Z') ==> r[k] == s[k]
    ensures forall k :: 0 <= k < |r| ==> !('A' <= r[k] <= 'Z')
  {
    seq(|s|, k requires 0 <= k < |s| => LowerChar(s[k]))
  }

  /** The characters `String.prototype.trim` removes: ECMAScript WhiteSpace and LineTerminator. */
  predicate IsJsWhitespace(c: char)
  {
    c == '\t' || c == '\n' || c == '\U{000B}' || c == '\U{000C}' || c == '\r' || c == ' '
    || c == '\U{00A0}' || c == '\U{1680}' || ('\U{2000}' <= c <= '\U{200A}')
    || c == '\U{2028}' || c == '\U{2029}' || c == '\U{202F}' || c == '\U{205F}'
    || c == '\U{3000}' || c == '\U{FEFF}'
  }

  /** The number of whitespace characters `s` starts with. */
  function LeadingSpaces(s: string): (n: nat)
    ensures n <= |s|
    ensures forall k :: 0 <= k < n ==> IsJsWhitespace(s[k])
    ensures n < |s| ==> !IsJsWhitespace(s[n])
  {
    if s == [] || !IsJsWhitespace(s[0]) then 0 else 1 + LeadingSpaces(s[1..])
  }

  /** The number of whitespace characters `s` ends with. */
  function TrailingSpaces(s: string): (n: nat)
    ensures n <= |s|
    ensures forall k :: |s| - n <= k < |s| ==> IsJsWhitespace(s[k])
    ensures n < |s| ==> !IsJsWhitespace(s[|s| - 1 - n])
  {
    if s == [] || !IsJsWhitespace(s[|s| - 1]) then 0 else 1 + TrailingSpaces(s[..|s| - 1])
  }

  /**
   * `s.trim()`: the infix of `s` left when the leading and trailing
   * whitespace is removed; it is empty exactly when `s` is all whitespace.
   */
  function Trim(s: string): (t: string)
    ensures LeadingSpaces(s) + |t| <= |s| && t == s[LeadingSpaces(s)..LeadingSpaces(s) + |t|]
    ensures forall k :: LeadingSpaces(s) + |t| <= k < |s| ==> IsJsWhitespace(s[k])
    ensures t != [] ==> !IsJsWhitespace(t[0]) && !IsJsWhitespace(t[|t| - 1])
    ensures t == [] <==> forall k :: 0 <= k < |s| ==> IsJsWhitespace(s[k])
  {
    var a := LeadingSpaces(s);
    var rest := s[a..];
    var b := TrailingSpaces(rest);
    var t := rest[..|rest| - b];
    TrimFacts(s, a, rest, b, t);
    t
  }

  lemma TrimFacts(s: string, a: nat, rest: string, b: nat, t: string)
    requires a == LeadingSpaces(s) && rest == s[a..]
    requires b == TrailingSpaces(rest) && t == rest[..|rest| - b]
    ensures a + |t| <= |s| && t == s[a..a + |t|]
    ensures forall k :: a + |t| <= k < |s| ==> IsJsWhitespace(s[k])
    ensures t != [] ==> !IsJsWhitespace(t[0]) && !IsJsWhitespace(t[|t| - 1])
    ensures t == [] <==> forall k :: 0 <= k < |s| ==> IsJsWhitespace(s[k])
  {
    TrimTail(s, a, rest, b, t);
    if |t| > 0 {
      assert a < |s| && t[0] == s[a];
      assert !IsJsWhitespace(s[a]);
      assert t[|t| - 1] == rest[|rest| - 1 - b];
    } else {
      assert b == |rest|;
      TrimAllBlank(s, a, rest, b);
    }
  }

  lemma TrimTail(s: string, a: nat, rest: string, b: nat, t: string)
    requires a <= |s| && rest == s[a..]
    requires b <= |rest| && t == rest[..|rest| - b]
    requires forall k :: |rest| - b <= k < |rest| ==> IsJsWhitespace(rest[k])
    ensures a + |t| <= |s| && t == s[a..a + |t|]
    ensures forall k :: a + |t| <= k < |s| ==> IsJsWhitespace(s[k])
  {
    forall k | a + |t| <= k < |s|
      ensures IsJsWhitespace(s[k])
    {
      assert s[k] == rest[k - a];
    }
  }

  lemma TrimAllBlank(s: string, a: nat, rest: string, b: nat)
    requires a <= |s| && rest == s[a..] && b == |rest|
    requires forall k :: 0 <= k < a ==> IsJsWhitespace(s[k])
    requires forall k :: 0 <= k < |rest| ==> IsJsWhitespace(rest[k])
    ensures forall k :: 0 <= k < |s| ==> IsJsWhitespace(s[k])
  {
    forall k | 0 <= k < |s|
      ensures IsJsWhitespace(s[k])
    {
      if k >= a {
        assert s[k] == rest[k - a];
      }
    }
  }

  /** Trimming twice trims nothing more. */
  lemma TrimIdempotent(s: string)
    ensures Trim(Trim(s)) == Trim(s)
  {
    var t := Trim(s);
    assert LeadingSpaces(t) == 0;
    assert TrailingSpaces(t) == 0;
  }

  /** The character of decimal digit `d`. */
  function DigitChar(d: nat): (c: char)
    requires d < 10
    ensures '0' <= c <= '9'
  {
    ('0' as int + d) as char
  }

  predicate IsDigits(s: string)
  {
    forall k :: 0 <= k < |s| ==> '0' <= s[k] <= '9'
  }

  /** The decimal text of `n` that a template literal `${n}` produces: digits, no leading zero. */
  function NatToString(n: nat): (s: string)
    ensures |s| >= 1 && IsDigits(s)
    ensures s[0] == '0' ==> n == 0
  {
    if n < 10 then [DigitChar(n)] else NatToString(n / 10) + [DigitChar(n % 10)]
  }

  /** The number a string of decimal digits denotes. */
  function DigitsValue(s: string): nat
    requires IsDigits(s)
  {
    if s == [] then 0 else DigitsValue(s[..|s| - 1]) * 10 + (s[|s| - 1] as int - '0' as int)
  }

  /** The longest prefix of `s` made of decimal digits. */
  function LeadingDigits(s: string): (d: string)
    ensures IsDigits(d)
  {
    if s != [] && '0' <= s[0] <= '9' then [s[0]] + LeadingDigits(s[1..]) else []
  }

  /** The digits at the head of a text are recovered when a non-digit follows them. */
  lemma {:induction false} LeadingDigitsOf(d: string, rest: string)
    requires IsDigits(d) && rest != [] && !('0' <= rest[0] <= '9')
    ensures LeadingDigits(d + rest) == d
  {
    if d == [] {
      assert d + rest == rest;
    } else {
      assert (d + rest)[1..] == d[1..] + rest;
      LeadingDigitsOf(d[1..], rest);
    }
  }

  /** Reading back the decimal text of `n` gives `n`. */
  lemma {:induction false} NatToStringRoundTrip(n: nat)
    ensures DigitsValue(NatToString(n)) == n
  {
    if n >= 10 {
      var s := NatToString(n);
      assert s[..|s| - 1] == NatToString(n / 10);
      NatToStringRoundTrip(n / 10);
    }
  }

  /** Decimal rendering is injective: distinct numbers have distinct texts. */
  lemma NatToStringInjective(m: nat, n: nat)
    requires NatToString(m) == NatToString(n)
    ensures m == n
  {
    NatToStringRoundTrip(m);
    NatToStringRoundTrip(n);
  }

  /** The string built by appending `piece` to an empty string `n` times. */
  function Repeat(piece: string, n: nat): string
  {
    if n == 0 then [] else Repeat(piece, n - 1) + piece
  }

  /** The n-fold repetition is n copies of the piece laid end to end. */
  lemma {:induction false} RepeatAt(piece: string, n: nat, k: nat)
    requires k < n
    ensures |Repeat(piece, n)| == n * |piece|
    ensures (k + 1) * |piece| <= n * |piece|
    ensures Repeat(piece, n)[k * |piece|..(k + 1) * |piece|] == piece
  {
    RepeatLength(piece, n - 1);
    var r := Repeat(piece, n - 1);
    assert (n - 1) * |piece| + |piece| == n * |piece|;
    if k == n - 1 {
      assert Repeat(piece, n)[k * |piece|..(k + 1) * |piece|] == piece;
    } else {
      RepeatAt(piece, n - 1, k);
      assert (k + 1) * |piece| <= (n - 1) * |piece|;
      assert Repeat(piece, n)[k * |piece|..(k + 1) * |piece|] == r[k * |piece|..(k + 1) * |piece|];
    }
  }

  lemma {:induction false} RepeatLength(piece: string, n: nat)
    ensures |Repeat(piece, n)| == n * |piece|
  {
    if n > 0 {
      RepeatLength(piece, n - 1);
      assert (n - 1) * |piece| + |piece| == n * |piece|;
    }
  }
}
