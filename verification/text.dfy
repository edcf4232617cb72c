/**
 * String helpers shared by the model: Python's `str(n)` for naturals,
 * `zfill`, `strip`, `startswith`, `isdigit`, slicing with an ellipsis and
 * the search behind `split(sep)[1]`.
 *
 * Strings are `seq<char>`. Whitespace is every character Python's
 * `str.strip()` removes. Digits are the ASCII digits only: Python's
 * `str.isdigit()` also accepts other Unicode digits.
 */
module Text {

  import opened Wrappers

  predicate IsDigit(c: char) { '0' <= c <= '9' }

  predicate AllDigits(s: string) { forall i :: 0 <= i < |s| ==> IsDigit(s[i]) }

  /** Python's `str.isdigit()`: non-empty and made only of digits. */
  predicate IsDigitString(s: string) { |s| > 0 && AllDigits(s) }

  function DigitChar(d: nat): (c: char)
    requires d < 10
    ensures IsDigit(c)
  {
    ('0' as int + d) as char
  }

  function DigitValue(c: char): (d: nat)
    requires IsDigit(c)
    ensures d < 10
  {
    c as int - '0' as int
  }

  /** `str(n)` for a natural number: decimal digits without leading zeros. */
  function Decimal(n: nat): (s: string)
    ensures |s| >= 1 && AllDigits(s)
    ensures |s| > 1 ==> s[0] != '0'
  {
    if n < 10 then [DigitChar(n)] else Decimal(n / 10) + [DigitChar(n % 10)]
  }

  /** The value of a string of digits (Python's `int(s)` on such a string). */
  function ParseDecimal(s: string): nat
    requires AllDigits(s)
  {
    if s == [] then 0 else ParseDecimal(s[..|s| - 1]) * 10 + DigitValue(s[|s| - 1])
  }

  lemma {:induction false} ParseDecimalOfDecimal(n: nat)
    ensures ParseDecimal(Decimal(n)) == n
  {
    var s := Decimal(n);
    if n >= 10 {
      ParseDecimalOfDecimal(n / 10);
      assert s[..|s| - 1] == Decimal(n / 10);
    }
  }

  /** Distinct numbers print as distinct strings. */
  lemma DecimalInjective(a: nat, b: nat)
    requires a != b
    ensures Decimal(a) != Decimal(b)
  {
    ParseDecimalOfDecimal(a);
    ParseDecimalOfDecimal(b);
  }

  function Repeat(c: char, n: nat): (s: string)
    ensures |s| == n && forall i :: 0 <= i < n ==> s[i] == c
  {
    if n == 0 then [] else [c] + Repeat(c, n - 1)
  }

  /** Python's `str.zfill(width)` on a string without a sign. */
  function ZFill(s: string, width: nat): (r: string)
    ensures |r| == if |s| >= width then |s| else width
    ensures r[|r| - |s|..] == s
    ensures forall i :: 0 <= i < |r| - |s| ==> r[i] == '0'
  {
    if |s| >= width then s else Repeat('0', width - |s|) + s
  }

  lemma {:induction false} LeadingZeros(z: nat, s: string)
    requires AllDigits(s)
    ensures AllDigits(Repeat('0', z) + s)
    ensures ParseDecimal(Repeat('0', z) + s) == ParseDecimal(s)
  {
    if z > 0 {
      var rest := Repeat('0', z - 1) + s;
      LeadingZeros(z - 1, s);
      LeadingZero(rest);
      assert Repeat('0', z) + s == ['0'] + rest;
    } else {
      assert Repeat('0', z) + s == s;
    }
  }

  lemma {:induction false} LeadingZero(s: string)
    requires AllDigits(s)
    ensures AllDigits(['0'] + s) && ParseDecimal(['0'] + s) == ParseDecimal(s)
  {
    var t := ['0'] + s;
    if s != [] {
      assert t[..|t| - 1] == ['0'] + s[..|s| - 1];
      LeadingZero(s[..|s| - 1]);
    }
  }

  /** The number printed by `str(n).zfill(w)` can be read back from it. */
  lemma PaddedDecimalRoundTrip(n: nat, w: nat)
    ensures AllDigits(ZFill(Decimal(n), w))
    ensures ParseDecimal(ZFill(Decimal(n), w)) == n
  {
    var s := Decimal(n);
    ParseDecimalOfDecimal(n);
    if |s| < w {
      LeadingZeros(w - |s|, s);
    }
  }

  predicate StartsWith(s: string, prefix: string)
  {
    |prefix| <= |s| && s[..|prefix|] == prefix
  }

  /** The characters Python's `str.strip()` removes (`str.isspace()`): the
      ASCII controls tab to carriage return and the four separators U+001C to
      U+001F, the space, U+0085, the no-break space, the ogham space mark, the
      spaces U+2000 to U+200A, the line and paragraph separators, the narrow
      no-break space, the medium mathematical space and the ideographic space. */
  predicate IsSpace(c: char)
  {
    ('\t' <= c <= '\r') || ('\U{001C}' <= c <= ' ') || c == '\U{0085}' || c == '\U{00A0}'
    || c == '\U{1680}' || ('\U{2000}' <= c <= '\U{200A}') || c == '\U{2028}' || c == '\U{2029}'
    || c == '\U{202F}' || c == '\U{205F}' || c == '\U{3000}'
  }

  function LStrip(s: string): (r: string)
    ensures |r| <= |s| && r == s[|s| - |r|..]
    ensures r == [] || !IsSpace(r[0])
    ensures forall i :: 0 <= i < |s| - |r| ==> IsSpace(s[i])
  {
    if s != [] && IsSpace(s[0]) then LStrip(s[1..]) else s
  }

  function RStrip(s: string): (r: string)
    ensures |r| <= |s| && r == s[..|r|]
    ensures r == [] || !IsSpace(r[|r| - 1])
    ensures forall i :: |r| <= i < |s| ==> IsSpace(s[i])
  {
    if s != [] && IsSpace(s[|s| - 1]) then RStrip(s[..|s| - 1]) else s
  }

  /** Python's `str.strip()`. */
  function Strip(s: string): (r: string)
  {
    RStrip(LStrip(s))
  }

  /** What `strip()` keeps starts and ends with a non-whitespace character. */
  lemma StripEnds(s: string)
    ensures Strip(s) == [] || (!IsSpace(Strip(s)[0]) && !IsSpace(Strip(s)[|Strip(s)| - 1]))
  {
    var l := LStrip(s);
    var r := RStrip(l);
    if r != [] {
      assert r[0] == l[0];
    }
  }

  /** `strip()` keeps a slice `s[a..b]` and drops only whitespace around it. */
  lemma StripBounds(s: string) returns (a: nat, b: nat)
    ensures a <= b <= |s| && Strip(s) == s[a..b]
    ensures forall i :: 0 <= i < a ==> IsSpace(s[i])
    ensures forall i :: b <= i < |s| ==> IsSpace(s[i])
  {
    var l := LStrip(s);
    var r := RStrip(l);
    a := |s| - |l|;
    b := a + |r|;
    assert l == s[a..];
    assert r == l[..|r|];
    assert l[..|r|] == s[a..b];
    forall i | b <= i < |s|
      ensures IsSpace(s[i])
    {
      assert s[i] == l[i - a];
    }
  }

  /** What `strip()` keeps is the slice `s[a..b]` with no whitespace at either end,
      where everything before `a` and from `b` on is whitespace. */
  lemma StripSpec(s: string) returns (a: nat, b: nat)
    ensures a <= b <= |s| && Strip(s) == s[a..b]
    ensures Strip(s) == [] || (!IsSpace(Strip(s)[0]) && !IsSpace(Strip(s)[|Strip(s)| - 1]))
    ensures forall i :: 0 <= i < a ==> IsSpace(s[i])
    ensures forall i :: b <= i < |s| ==> IsSpace(s[i])
  {
    a, b := StripBounds(s);
    StripEnds(s);
  }

  lemma StripIdempotent(s: string)
    ensures Strip(Strip(s)) == Strip(s)
  {
    var r := Strip(s);
    if r != [] {
      assert !IsSpace(r[0]) && !IsSpace(r[|r| - 1]);
      assert LStrip(r) == r;
    }
  }

  /** `text[:n] + "..."` when the text is longer than `n`, the text itself otherwise. */
  function Preview(text: string, n: nat): (r: string)
  {
    if |text| > n then text[..n] + "..." else text
  }

  lemma PreviewSpec(text: string, n: nat)
    ensures |text| <= n ==> Preview(text, n) == text
    ensures |text| > n ==>
      |Preview(text, n)| == n + 3 && StartsWith(Preview(text, n), text[..n]) && Preview(text, n)[n..] == "..."
  {
  }

  /** `sep` occurs in `s` starting at index `j`. */
  predicate OccursAt(s: string, sep: string, j: int)
  {
    0 <= j && j + |sep| <= |s| && s[j..j + |sep|] == sep
  }

  /** Index of the first occurrence of `sep` in `s`. */
  function Find(s: string, sep: string): (r: Option<nat>)
    requires |sep| > 0
    ensures r.Some? ==> OccursAt(s, sep, r.value)
    ensures r.Some? ==> forall j :: 0 <= j < r.value ==> !OccursAt(s, sep, j)
    ensures r.None? ==> forall j :: !OccursAt(s, sep, j)
    decreases |s|
  {
    if |s| < |sep| then None
    else if s[..|sep|] == sep then Some(0)
    else
      var r' := Find(s[1..], sep);
      assert forall j :: 1 <= j ==> (OccursAt(s, sep, j) <==> OccursAt(s[1..], sep, j - 1));
      match r'
      case None => None
      case Some(k) => Some(k + 1)
  }

  predicate Contains(s: string, sep: string)
    requires |sep| > 0
  {
    Find(s, sep).Some?
  }

  /** `s.split(sep)[1]`: the text after the first `sep` up to the next one. */
  function SecondField(s: string, sep: string): (r: string)
    requires |sep| > 0 && Contains(s, sep)
  {
    var rest := s[Find(s, sep).value + |sep|..];
    match Find(rest, sep)
    case None => rest
    case Some(k) => rest[..k]
  }

  /** Python's `s.replace(target, repl)`: occurrences are replaced left to
      right without overlapping. */
  function Replace(s: string, target: string, repl: string): string
    requires |target| > 0
    decreases |s|
  {
    if s == [] then []
    else if StartsWith(s, target) then repl + Replace(s[|target|..], target, repl)
    else [s[0]] + Replace(s[1..], target, repl)
  }

  /** A character in neither the text nor the replacement is not in the result. */
  lemma {:induction false} ReplaceKeepsAbsent(s: string, target: string, repl: string, c: char)
    requires |target| > 0 && c !in s && c !in repl
    ensures c !in Replace(s, target, repl)
    decreases |s|
  {
    if s != [] {
      if StartsWith(s, target) {
        ReplaceKeepsAbsent(s[|target|..], target, repl, c);
      } else {
        ReplaceKeepsAbsent(s[1..], target, repl, c);
      }
    }
  }

  /** Replacing a character by a text without it removes every occurrence. */
  lemma {:induction false} ReplaceRemovesChar(s: string, c: char, repl: string)
    requires c !in repl
    ensures c !in Replace(s, [c], repl)
    decreases |s|
  {
    if s != [] {
      if StartsWith(s, [c]) {
        ReplaceRemovesChar(s[1..], c, repl);
      } else {
        assert s[0] != c;
        ReplaceRemovesChar(s[1..], c, repl);
      }
    }
  }

  /** A text in which the target's first character never appears is left as it is. */
  lemma {:induction false} ReplaceNoMatch(s: string, target: string, repl: string)
    requires |target| > 0 && target[0] !in s
    ensures Replace(s, target, repl) == s
    decreases |s|
  {
    if s != [] {
      assert !StartsWith(s, target) by { assert s[0] != target[0]; }
      ReplaceNoMatch(s[1..], target, repl);
      assert [s[0]] + s[1..] == s;
    }
  }
}
