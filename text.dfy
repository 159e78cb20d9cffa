/** The JavaScript string operations the pages rely on, on `seq<char>`:
    `toLowerCase`, `includes`, `padStart`, `Number.prototype.toString`,
    the `<=` comparison of strings, `split(c)[0]` and the `replace` calls
    with a global regular expression. */
module Text {

  // ---------------------------------------------------------------------------
  // Case folding

  /** `toLowerCase` on one character, for Basic Latin and Latin-1: 'A'..'Z' and
      'À'..'Þ' (except the multiplication sign U+00D7) move down to their
      lower-case letter; every other character is returned unchanged. */
  function LowerChar(c: char): char {
    if 'A' <= c <= 'Z' || ('\U{C0}' <= c <= '\U{DE}' && c != '\U{D7}') then
      (c as int + 32) as char
    else
      c
  }

  /** `s.toLowerCase()`, character by character. */
  function Lower(s: string): (r: string)
    ensures |r| == |s|
    ensures forall i :: 0 <= i < |s| ==> r[i] == LowerChar(s[i])
  {
    if s == [] then [] else [LowerChar(s[0])] + Lower(s[1..])
  }

  // ---------------------------------------------------------------------------
  // Substring search

  predicate IsPrefix(p: string, s: string) {
    |p| <= |s| && s[..|p|] == p
  }

  /** `s.includes(t)`: `t` occurs in `s` as a contiguous block (the empty
      string occurs in every string). */
  predicate Contains(s: string, t: string)
    decreases |s|
  {
    IsPrefix(t, s) || (s != [] && Contains(s[1..], t))
  }

  /** `t` occurs in `s` starting at position `i`. */
  predicate OccursAt(s: string, t: string, i: nat) {
    i + |t| <= |s| && s[i..i + |t|] == t
  }

  /** `Contains` agrees with the positional definition of an occurrence. */
  lemma {:induction false} ContainsIffOccurs(s: string, t: string)
    ensures Contains(s, t) <==> exists i: nat :: OccursAt(s, t, i)
    decreases |s|
  {
    if Contains(s, t) {
      if IsPrefix(t, s) {
        assert OccursAt(s, t, 0);
      } else {
        ContainsIffOccurs(s[1..], t);
        var j: nat :| OccursAt(s[1..], t, j);
        assert s[1..][j..j + |t|] == s[j + 1..j + 1 + |t|];
        assert OccursAt(s, t, j + 1);
      }
    }
    if exists i: nat :: OccursAt(s, t, i) {
      var i: nat :| OccursAt(s, t, i);
      if i > 0 {
        assert s[1..][i - 1..i - 1 + |t|] == s[i..i + |t|];
        assert OccursAt(s[1..], t, i - 1);
        ContainsIffOccurs(s[1..], t);
      } else {
        assert IsPrefix(t, s);
      }
    }
  }

  /** An occurrence stays an occurrence when text is added on either side. */
  lemma ContainsAppend(a: string, t: string, b: string)
    requires Contains(a, t)
    ensures Contains(a + b, t) && Contains(b + a, t)
  {
    ContainsIffOccurs(a, t);
    var i: nat :| OccursAt(a, t, i);
    assert (a + b)[i..i + |t|] == a[i..i + |t|];
    assert OccursAt(a + b, t, i);
    assert (b + a)[|b| + i..|b| + i + |t|] == a[i..i + |t|];
    assert OccursAt(b + a, t, |b| + i);
    ContainsIffOccurs(a + b, t);
    ContainsIffOccurs(b + a, t);
  }

  lemma ContainsEmpty(s: string)
    ensures Contains(s, "")
  {
    assert IsPrefix("", s);
  }

  // ---------------------------------------------------------------------------
  // Decimal numbers and padding

  predicate IsDigit(c: char) {
    '0' <= c <= '9'
  }

  predicate AllDigits(s: string) {
    forall i :: 0 <= i < |s| ==> IsDigit(s[i])
  }

  function DigitChar(d: nat): (c: char)
    requires d < 10
    ensures IsDigit(c)
  {
    ('0' as int + d) as char
  }

  function DigitValue(c: char): (d: nat)
    requires IsDigit(c)
    ensures d < 10
  {
    c as int - '0' as int
  }

  /** `n.toString()` for a natural number: its decimal digits, most
      significant first, without leading zeros. */
  function NatToDecimal(n: nat): (s: string)
    ensures |s| >= 1 && AllDigits(s)
    ensures |s| > 1 ==> s[0] != '0'
  {
    if n < 10 then [DigitChar(n)] else NatToDecimal(n / 10) + [DigitChar(n % 10)]
  }

  /** The number a string of decimal digits denotes (leading zeros allowed). */
  function DecimalValue(s: string): nat
    requires AllDigits(s)
  {
    if s == [] then 0 else 10 * DecimalValue(s[..|s| - 1]) + DigitValue(s[|s| - 1])
  }

  /** Reading back the digits `toString` writes gives the number again. */
  lemma {:induction false} DecimalRoundTrip(n: nat)
    ensures DecimalValue(NatToDecimal(n)) == n
  {
    if n >= 10 {
      DecimalRoundTrip(n / 10);
      var s := NatToDecimal(n);
      assert s[..|s| - 1] == NatToDecimal(n / 10);
    }
  }

  /** Zeros in front of a digit string do not change its value. */
  lemma {:induction false} LeadingZeros(z: string, s: string)
    requires forall i :: 0 <= i < |z| ==> z[i] == '0'
    requires AllDigits(s)
    ensures AllDigits(z + s) && DecimalValue(z + s) == DecimalValue(s)
    decreases |s|
  {
    if s == [] {
      assert z + s == z;
      AllZeros(z);
    } else {
      var zs := z + s;
      assert zs[..|zs| - 1] == z + s[..|s| - 1];
      LeadingZeros(z, s[..|s| - 1]);
    }
  }

  lemma {:induction false} AllZeros(z: string)
    requires forall i :: 0 <= i < |z| ==> z[i] == '0'
    ensures AllDigits(z) && DecimalValue(z) == 0
  {
    if z != [] {
      AllZeros(z[..|z| - 1]);
    }
  }

  /** `s.padStart(n, c)` for a one-character pad: `s` itself when it already has
      `n` characters, otherwise `s` preceded by enough copies of `c`. */
  function PadStart(s: string, n: nat, c: char): (r: string)
    ensures |r| == if |s| >= n then |s| else n
    ensures r[|r| - |s|..] == s
    ensures forall i :: 0 <= i < |r| - |s| ==> r[i] == c
  {
    if |s| >= n then s else seq(n - |s|, _ => c) + s
  }

  /** Zero padding keeps a digit string's value. */
  lemma PadStartValue(s: string, n: nat)
    requires AllDigits(s)
    ensures AllDigits(PadStart(s, n, '0'))
    ensures DecimalValue(PadStart(s, n, '0')) == DecimalValue(s)
  {
    var r := PadStart(s, n, '0');
    var z := r[..|r| - |s|];
    assert r == z + s;
    LeadingZeros(z, s);
  }

  /** `n.toString().padStart(width, '0')`: the decimal digits of `n`, with
      zeros in front up to `width` characters. */
  function PaddedDecimal(n: nat, width: nat): (s: string)
    ensures AllDigits(s) && DecimalValue(s) == n
    ensures |s| >= width && |s| >= 1
    ensures |s| > width && |s| > 1 ==> s[0] != '0'
  {
    var digits := NatToDecimal(n);
    PadStartValue(digits, width);
    DecimalRoundTrip(n);
    PadStart(digits, width, '0')
  }

  /** Two numbers padded to the same width differ when the numbers do. */
  lemma PaddedDecimalInjective(m: nat, n: nat, width: nat)
    requires PaddedDecimal(m, width) == PaddedDecimal(n, width)
    ensures m == n
  {
  }

  // ---------------------------------------------------------------------------
  // Lexicographic comparison

  /** JavaScript's `a <= b` on strings: `a` is a prefix of `b`, or at the
      first position where they differ `a` has the smaller character. */
  predicate LexLe(a: string, b: string)
    decreases |a|
  {
    if a == [] then true
    else if b == [] then false
    else if a[0] != b[0] then a[0] < b[0]
    else LexLe(a[1..], b[1..])
  }

  lemma {:induction false} LexLeTransitive(a: string, b: string, c: string)
    requires LexLe(a, b) && LexLe(b, c)
    ensures LexLe(a, c)
    decreases |a|
  {
    if a != [] && b != [] && c != [] && a[0] == b[0] && b[0] == c[0] {
      LexLeTransitive(a[1..], b[1..], c[1..]);
    }
  }

  lemma {:induction false} LexLeTotal(a: string, b: string)
    ensures LexLe(a, b) || LexLe(b, a)
    decreases |a|
  {
    if a != [] && b != [] && a[0] == b[0] {
      LexLeTotal(a[1..], b[1..]);
    }
  }

  lemma {:induction false} LexLeAntisymmetric(a: string, b: string)
    requires LexLe(a, b) && LexLe(b, a)
    ensures a == b
    decreases |a|
  {
    if a != [] {
      LexLeAntisymmetric(a[1..], b[1..]);
      assert a == [a[0]] + a[1..] && b == [b[0]] + b[1..];
    }
  }

  // ---------------------------------------------------------------------------
  // split and replace

  /** `s.split(c)[0]`: the characters before the first `c`, or all of `s`. */
  function BeforeFirst(s: string, c: char): (r: string)
    ensures IsPrefix(r, s) && c !in r
    ensures |r| < |s| ==> s[|r|] == c
  {
    if s == [] then []
    else if s[0] == c then []
    else [s[0]] + BeforeFirst(s[1..], c)
  }

  /** `s.replace(/c/g, '')`: every `c` deleted, the rest kept in order. */
  function RemoveAll(s: string, c: char): (r: string)
    ensures c !in r
    ensures forall x :: x in r <==> x in s && x != c
    ensures c !in s ==> r == s
    ensures |r| <= |s|
  {
    if s == [] then []
    else if s[0] == c then RemoveAll(s[1..], c)
    else [s[0]] + RemoveAll(s[1..], c)
  }

  /** Deleting distributes over concatenation, so the characters that stay
      keep their order and their number. */
  lemma {:induction false} RemoveAllAppend(a: string, b: string, c: char)
    ensures RemoveAll(a + b, c) == RemoveAll(a, c) + RemoveAll(b, c)
    decreases |a|
  {
    if a == [] {
      assert a + b == b;
    } else {
      assert (a + b)[0] == a[0] && (a + b)[1..] == a[1..] + b;
      RemoveAllAppend(a[1..], b, c);
    }
  }

  /** The text before a first `c` that follows a `c`-free prefix is that prefix. */
  lemma {:induction false} BeforeFirstAppend(a: string, b: string, c: char)
    requires c !in a && b != [] && b[0] == c
    ensures BeforeFirst(a + b, c) == a
    decreases |a|
  {
    if a == [] {
      assert a + b == b;
    } else {
      assert (a + b)[0] == a[0] && (a + b)[1..] == a[1..] + b;
      BeforeFirstAppend(a[1..], b, c);
    }
  }

  /** `s.replace(/c/g, d)`: every `c` becomes `d`. */
  function ReplaceChar(s: string, c: char, d: char): (r: string)
    ensures |r| == |s|
    ensures forall i :: 0 <= i < |s| ==> r[i] == if s[i] == c then d else s[i]
  {
    if s == [] then [] else [if s[0] == c then d else s[0]] + ReplaceChar(s[1..], c, d)
  }

  /** The characters the regular-expression class `\s` matches. */
  predicate IsJsWhitespace(c: char) {
    c == ' ' || c == '\t' || c == '\n' || c == '\U{B}' || c == '\U{C}' || c == '\r'
    || c == '\U{A0}' || c == '\U{1680}' || ('\U{2000}' <= c <= '\U{200A}')
    || c == '\U{2028}' || c == '\U{2029}' || c == '\U{202F}' || c == '\U{205F}'
    || c == '\U{3000}' || c == '\U{FEFF}'
  }

  predicate NoWhitespace(s: string) {
    forall i :: 0 <= i < |s| ==> !IsJsWhitespace(s[i])
  }

  /** `s` without its leading whitespace. */
  function DropWhitespace(s: string): (r: string)
    ensures |r| <= |s| && r == s[|s| - |r|..]
    ensures r != [] ==> !IsJsWhitespace(r[0])
    ensures forall i :: 0 <= i < |s| - |r| ==> IsJsWhitespace(s[i])
  {
    if s != [] && IsJsWhitespace(s[0]) then DropWhitespace(s[1..]) else s
  }

  /** `s.replace(/\s+/g, '_')`: each maximal run of whitespace becomes one '_'. */
  function UnderscoreWhitespace(s: string): (t: string)
    ensures NoWhitespace(t)
    ensures |t| <= |s|
    decreases |s|
  {
    if s == [] then []
    else if IsJsWhitespace(s[0]) then
      var rest := UnderscoreWhitespace(DropWhitespace(s[1..]));
      NoWhitespaceCons('_', rest);
      "_" + rest
    else
      var rest := UnderscoreWhitespace(s[1..]);
      NoWhitespaceCons(s[0], rest);
      [s[0]] + rest
  }

  lemma NoWhitespaceCons(c: char, t: string)
    requires !IsJsWhitespace(c) && NoWhitespace(t)
    ensures NoWhitespace([c] + t)
  {
    forall i | 0 <= i < |t| + 1 ensures !IsJsWhitespace(([c] + t)[i]) {
      if i > 0 {
        assert ([c] + t)[i] == t[i - 1];
      }
    }
  }

  /** A run of whitespace followed by a non-whitespace character (or by
      nothing) is skipped entirely. */
  lemma {:induction false} DropWhitespaceRun(w: string, b: string)
    requires forall i :: 0 <= i < |w| ==> IsJsWhitespace(w[i])
    requires b == [] || !IsJsWhitespace(b[0])
    ensures DropWhitespace(w + b) == b
    decreases |w|
  {
    if w == [] {
      assert w + b == b;
    } else {
      assert (w + b)[0] == w[0] && (w + b)[1..] == w[1..] + b;
      DropWhitespaceRun(w[1..], b);
    }
  }

  /** Each maximal run of whitespace becomes exactly one '_': a whitespace-free
      text, then a non-empty run, then a text that does not start with
      whitespace. */
  lemma UnderscoreWhitespaceRun(a: string, w: string, b: string)
    requires NoWhitespace(a)
    requires w != [] && forall i :: 0 <= i < |w| ==> IsJsWhitespace(w[i])
    requires b == [] || !IsJsWhitespace(b[0])
    ensures UnderscoreWhitespace(a + w + b) == a + "_" + UnderscoreWhitespace(b)
  {
    var x, y := w + b, UnderscoreWhitespace(b);
    Associate(a, w, b);
    UnderscoreWhitespaceKeepsPrefix(a, x);
    LeadingRun(w, b);
    Associate(a, "_", y);
  }

  lemma Associate(a: string, b: string, c: string)
    ensures a + b + c == a + (b + c)
  {
  }

  /** A text that starts with a whitespace run: the run becomes one '_'. */
  lemma LeadingRun(w: string, b: string)
    requires w != [] && forall i :: 0 <= i < |w| ==> IsJsWhitespace(w[i])
    requires b == [] || !IsJsWhitespace(b[0])
    ensures UnderscoreWhitespace(w + b) == "_" + UnderscoreWhitespace(b)
  {
    var x := w + b;
    assert x[0] == w[0] && IsJsWhitespace(w[0]);
    var tail := x[1..];
    assert tail == w[1..] + b;
    DropWhitespaceRun(w[1..], b);
    assert DropWhitespace(tail) == b;
    WhitespaceStep(x);
  }

  /** One step of `UnderscoreWhitespace` on a text that starts with whitespace. */
  lemma WhitespaceStep(s: string)
    requires s != [] && IsJsWhitespace(s[0])
    ensures UnderscoreWhitespace(s) == "_" + UnderscoreWhitespace(DropWhitespace(s[1..]))
  {
  }

  /** A prefix without whitespace passes through untouched. */
  lemma {:induction false} UnderscoreWhitespaceKeepsPrefix(a: string, b: string)
    requires NoWhitespace(a)
    ensures UnderscoreWhitespace(a + b) == a + UnderscoreWhitespace(b)
    decreases |a|
  {
    if a != [] {
      assert (a + b)[1..] == a[1..] + b;
      UnderscoreWhitespaceKeepsPrefix(a[1..], b);
    } else {
      assert a + b == b;
    }
  }

  /** A string without whitespace is left as it is. */
  lemma UnderscoreWhitespaceIdentity(s: string)
    requires NoWhitespace(s)
    ensures UnderscoreWhitespace(s) == s
  {
    UnderscoreWhitespaceKeepsPrefix(s, "");
    assert s + "" == s;
  }
}
