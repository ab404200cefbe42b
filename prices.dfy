/**
 * Price parsing. The storefront receives prices as numbers or as strings such as
 * "12,000" or "₦12,000", strips the thousands separators (and, on the preorder path,
 * the naira sign) with `replace(/,/g, '')`, and converts the rest with `parseFloat`.
 */
module Prices {
  import opened Text

  /** A JavaScript number as the storefront's arithmetic sees it: an exact integer or NaN. */
  datatype Number = Finite(value: int) | NaN

  const Naira: char := '\U{20A6}'

  /** A price as it arrives in a product record: a number, or a string to be parsed. */
  datatype PriceInput = Numeric(amount: int) | Text(text: string)

  /** `n * q`; NaN absorbs. */
  function Times(n: Number, q: int): (r: Number)
    ensures r.Finite? <==> n.Finite?
    ensures n.Finite? ==> r.value == n.value * q
  {
    match n
    case Finite(v) => Finite(v * q)
    case NaN => NaN
  }

  /** `a + b` on JavaScript numbers: NaN absorbs. */
  function Plus(a: Number, b: Number): (r: Number)
    ensures r.Finite? <==> a.Finite? && b.Finite?
    ensures r.Finite? ==> r.value == a.value + b.value
  {
    if a.Finite? && b.Finite? then Finite(a.value + b.value) else NaN
  }

  function SkipWhitespace(s: string): (r: string)
    ensures r == [] || !IsWhitespace(r[0])
  {
    if s != [] && IsWhitespace(s[0]) then SkipWhitespace(s[1..]) else s
  }

  /** The longest run of digits at the start of `s`. */
  function LeadingDigits(s: string): (r: string)
    ensures AllDigits(r) && StartsWith(s, r)
    ensures |r| < |s| ==> !IsDigit(s[|r|])
  {
    if s != [] && IsDigit(s[0]) then [s[0]] + LeadingDigits(s[1..]) else []
  }

  /**
   * `parseFloat` on the integer prices of the shop: leading white space is skipped and
   * the longest run of digits is read; with no digit there the result is NaN.
   */
  function ParseNumber(s: string): (r: Number)
  {
    var d := LeadingDigits(SkipWhitespace(s));
    if d == [] then NaN else Finite(DigitsValue(d))
  }

  /** `parseFloat(price.toString().replace(/,/g, ''))`: the cart's reading of a price. */
  function CartPrice(s: string): Number
  {
    ParseNumber(Strip(s, ','))
  }

  /** The preorder button's reading: every naira sign and comma removed, then `parseFloat`. */
  function PreorderPrice(p: PriceInput): Number
  {
    match p
    case Numeric(n) => Finite(n)
    case Text(s) => ParseNumber(Strip(Strip(s, Naira), ','))
  }

  lemma {:induction false} LeadingDigitsOfDigits(s: string)
    requires AllDigits(s)
    ensures LeadingDigits(s) == s
  {
    if s != [] {
      LeadingDigitsOfDigits(s[1..]);
    }
  }

  /** A rendered integer parses back to itself. */
  lemma ParseRendered(n: nat)
    ensures ParseNumber(NatToString(n)) == Finite(n)
  {
    var s := NatToString(n);
    assert IsDigit(s[0]);
    assert SkipWhitespace(s) == s;
    LeadingDigitsOfDigits(s);
    assert LeadingDigits(SkipWhitespace(s)) == s;
    NatToStringRoundTrip(n);
  }

  /** A thousands separator anywhere in a price string does not change the cart's reading. */
  lemma CommaInsensitive(a: string, b: string)
    ensures CartPrice(a + [','] + b) == CartPrice(a + b)
  {
    StripDropOne(a, b, ',');
  }

  /** Neither a naira sign nor a comma changes the preorder reading of a price. */
  lemma PreorderSymbolInsensitive(a: string, b: string, c: char)
    requires c == Naira || c == ','
    ensures PreorderPrice(Text(a + [c] + b)) == PreorderPrice(Text(a + b))
  {
    if c == Naira {
      StripDropOne(a, b, Naira);
    } else {
      StripConcat(a + [c], b, Naira);
      StripConcat(a, [c], Naira);
      StripConcat(a, b, Naira);
      assert Strip([c], Naira) == [c];
      StripDropOne(Strip(a, Naira), Strip(b, Naira), ',');
    }
  }

  lemma ReadsTwelveThousand()
    ensures ParseNumber("12000") == Finite(12000)
  {
    var s := "12000";
    assert s == NatToString(1200) + "0" by {
      assert NatToString(1) == "1";
      assert NatToString(12) == "12";
      assert NatToString(120) == "120";
      assert NatToString(1200) == "1200";
    }
    assert NatToString(12000) == s;
    ParseRendered(12000);
  }

  lemma StripsPlain()
    ensures Strip("12000", ',') == "12000"
  {
    StripAbsent("12000", ',');
  }

  lemma StripsComma()
    ensures Strip("12,000", ',') == "12000"
  {
    var a, b := "12", "000";
    StripDropOne(a, b, ',');
    assert a + [','] + b == "12,000";
    assert a + b == "12000";
    StripsPlain();
  }

  lemma StripsNaira()
    ensures Strip("\U{20A6}12,000", Naira) == "12,000"
  {
    StripDropOne([], "12,000", Naira);
    assert [] + [Naira] + "12,000" == "\U{20A6}12,000";
    assert [] + "12,000" == "12,000";
    StripAbsent("12,000", Naira);
  }

  /** The four spellings of twelve thousand all read as 12000. */
  lemma TwelveThousand()
    ensures PreorderPrice(Text("\U{20A6}12,000")) == Finite(12000)
    ensures CartPrice("12,000") == Finite(12000)
    ensures CartPrice("12000") == Finite(12000)
    ensures PreorderPrice(Numeric(12000)) == Finite(12000)
  {
    StripsPlain();
    StripsComma();
    StripsNaira();
    ReadsTwelveThousand();
  }
}
