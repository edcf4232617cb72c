/**
 * The helpers of the repository's top-level `utils.py`: money rendered from
 * integer cents, and the payload of a base64 data URL. Decoding base64 itself
 * is a parameter (`decode`, giving `None` where the decoder raises).
 */
module RootUtils {

  import opened Wrappers
  import opened Text
  import opened Json

  /** `f"{c / 100:.2f}"` for a natural number of cents: whole reais, a point
      and exactly two digits of cents. */
  function TwoPlaces(cents: nat): string
  {
    Decimal(cents / 100) + "." + ZFill(Decimal(cents % 100), 2)
  }

  /** `format_currency`: the two-place amount with its point turned into a
      comma, after "R$ "; a negative amount keeps its minus sign. */
  function FormatCurrency(cents: int): string
  {
    var body := Replace(TwoPlaces(if cents < 0 then -cents else cents), ".", ",");
    "R$ " + (if cents < 0 then "-" else "") + body
  }

  /** The rendering is "R$ ", the reais, a comma and two digits of cents;
      it has no point. */
  lemma FormatCurrencyShape(cents: nat)
    ensures FormatCurrency(cents) == "R$ " + Decimal(cents / 100) + "," + ZFill(Decimal(cents % 100), 2)
    ensures '.' !in FormatCurrency(cents)
  {
    var whole := Decimal(cents / 100);
    var frac := ZFill(Decimal(cents % 100), 2);
    var body := Replace(TwoPlaces(cents), ".", ",");
    FormatCurrencyBody(cents, body);
    CentsField(cents % 100);
    ReplacePoint(whole, frac);
    assert body == whole + "," + frac;
    assert "R$ " + body == "R$ " + whole + "," + frac;
    NoPoint(whole, frac);
  }

  lemma ReplacePoint(whole: string, frac: string)
    requires AllDigits(whole) && AllDigits(frac)
    ensures Replace(whole + "." + frac, ".", ",") == whole + "," + frac
  {
    DigitsHaveNoPunctuation(whole);
    DigitsHaveNoPunctuation(frac);
    ReplaceAround(whole, frac);
  }

  lemma FormatCurrencyBody(cents: nat, body: string)
    requires body == Replace(TwoPlaces(cents), ".", ",")
    ensures FormatCurrency(cents) == "R$ " + body
  {
  }

  lemma NoPoint(whole: string, frac: string)
    requires AllDigits(whole) && AllDigits(frac)
    ensures '.' !in "R$ " + whole + "," + frac
  {
    var s := "R$ " + whole + "," + frac;
    forall i | 0 <= i < |s|
      ensures s[i] != '.'
    {
      if i < 3 {
        assert s[i] == "R$ "[i];
      } else if i < 3 + |whole| {
        assert s[i] == whole[i - 3];
      } else if i > 3 + |whole| {
        assert s[i] == frac[i - 4 - |whole|];
      }
    }
  }

  /** The rendering reads back as the amount: the digits before the comma are
      the reais and the two after it the cents. */
  lemma FormatCurrencySpec(cents: nat)
    ensures var s := FormatCurrency(cents);
      && |s| >= 7 && s[..3] == "R$ " && s[|s| - 3] == ','
      && AllDigits(s[3..|s| - 3]) && AllDigits(s[|s| - 2..])
      && ParseDecimal(s[3..|s| - 3]) * 100 + ParseDecimal(s[|s| - 2..]) == cents
      && '.' !in s
  {
    var whole := Decimal(cents / 100);
    var frac := ZFill(Decimal(cents % 100), 2);
    FormatCurrencyShape(cents);
    CentsField(cents % 100);
    var s := FormatCurrency(cents);
    assert s[3..|s| - 3] == whole;
    assert s[|s| - 2..] == frac;
    ParseDecimalOfDecimal(cents / 100);
  }

  /** The cents are always two digits that read back as their value. */
  lemma CentsField(n: nat)
    requires n < 100
    ensures |ZFill(Decimal(n), 2)| == 2
    ensures AllDigits(ZFill(Decimal(n), 2)) && ParseDecimal(ZFill(Decimal(n), 2)) == n
  {
    if n >= 10 {
      assert n / 10 < 10;
      assert |Decimal(n / 10)| == 1;
      assert |Decimal(n)| == 2;
    } else {
      assert |Decimal(n)| == 1;
    }
    PaddedDecimalRoundTrip(n, 2);
  }

  lemma DigitsHaveNoPunctuation(s: string)
    requires AllDigits(s)
    ensures '.' !in s && ',' !in s
  {
  }

  /** Replacing the one point between two texts without points or commas. */
  lemma ReplaceAround(a: string, b: string)
    requires '.' !in a && '.' !in b && ',' !in a && ',' !in b
    ensures Replace(a + "." + b, ".", ",") == a + "," + b
    ensures '.' !in a + "," + b
  {
    assert a + "." + b == a + ("." + b);
    ReplacePast(a, "." + b);
    var t := "." + b;
    assert StartsWith(t, ".") && t[1..] == b;
    assert Replace(t, ".", ",") == "," + Replace(b, ".", ",");
    ReplaceNoMatch(b, ".", ",");
    assert a + ("," + b) == a + "," + b;
  }

  /** Text before the first target is copied unchanged. */
  lemma {:induction false} ReplacePast(a: string, rest: string)
    requires '.' !in a
    ensures Replace(a + rest, ".", ",") == a + Replace(rest, ".", ",")
    decreases |a|
  {
    if a != [] {
      var s := a + rest;
      assert s[0] == a[0] && s[0] != '.';
      assert !StartsWith(s, ".");
      assert s[1..] == a[1..] + rest;
      ReplacePast(a[1..], rest);
      assert a == [a[0]] + a[1..];
    } else {
      assert a + rest == rest;
    }
  }

  const Marker: string := "base64,"

  /** The text `decode_base64_to_image` decodes: the segment after the first
      "base64," and before any second one, or the whole text without it. */
  function Base64Payload(s: string): string
  {
    if Contains(s, Marker) then SecondField(s, Marker) else s
  }

  /** `decode_base64_to_image`: the decoded bytes, or `None` when decoding
      fails. */
  function DecodeBase64ToImage(s: string, decode: string -> Option<seq<bv8>>): Option<seq<bv8>>
  {
    decode(Base64Payload(s))
  }

  /** For a data URL whose header has no comma, the payload is exactly what
      follows "base64,"; text without the marker is decoded as it is. */
  lemma Base64PayloadSpec(header: string, data: string)
    requires ',' !in header && !Contains(data, Marker)
    ensures Base64Payload(header + Marker + data) == data
    ensures Base64Payload(data) == data
  {
    var s := header + Marker + data;
    assert OccursAt(s, Marker, |header|) by {
      assert s[|header|..|header| + |Marker|] == Marker;
    }
    forall j | 0 <= j < |header|
      ensures !OccursAt(s, Marker, j)
    {
      assert s[j + 6] != ',' by {
        if j + 6 < |header| {
          assert s[j + 6] == header[j + 6];
        } else {
          assert s[j + 6] == Marker[j + 6 - |header|];
        }
      }
      assert j + 7 > |s| || s[j..j + 7][6] != Marker[6];
    }
    assert Find(s, Marker) == Some(|header|);
    assert s[|header| + |Marker|..] == data;
  }
}
