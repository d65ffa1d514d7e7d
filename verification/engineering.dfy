/**
 * The front end's engineering notation (`EngineeringValue` in
 * wwwroot/js/engineeringValue.js): `To` writes a number as an optional minus
 * sign, a mantissa and an SI prefix letter; `From` reads such a text back.
 * Numbers are exact reals. The decimal text of the mantissa and the value
 * JavaScript's `parseFloat` reads from a text are outside this model: they
 * are parameters.
 */
module Engineering {
  /** The prefixes `To` can choose, smallest first. */
  datatype Prefix = Nano | Micro | Milli | NoPrefix | Kilo | Mega | Giga

  /** The letter written after the mantissa; case matters (`m` is milli, `M` is mega). */
  function Symbol(p: Prefix): string {
    match p
    case Nano => "n"
    case Micro => "u"
    case Milli => "m"
    case NoPrefix => ""
    case Kilo => "k"
    case Mega => "M"
    case Giga => "G"
  }

  /** What the prefix multiplies the mantissa by. */
  function Factor(p: Prefix): (f: real)
    ensures f > 0.0
  {
    match p
    case Nano => 0.000000001
    case Micro => 0.000001
    case Milli => 0.001
    case NoPrefix => 1.0
    case Kilo => 1000.0
    case Mega => 1000000.0
    case Giga => 1000000000.0
  }

  /** The parts of the text `To` returns: a minus sign or none, the mantissa, the prefix letter. */
  datatype Notation = Notation(negative: bool, mantissa: real, prefix: Prefix)

  /** The number a notation stands for. */
  function Meaning(n: Notation): real {
    (if n.negative then -n.mantissa else n.mantissa) * Factor(n.prefix)
  }

  /**
   * `EngineeringValue.To`: the sign is split off, the magnitude picks the
   * prefix by thresholds 1e-6, 1e-3, 1, 1e3, 1e6 and 1e9, and the mantissa is
   * the magnitude scaled accordingly. The notation always means the value
   * itself, and its mantissa is in [1, 1000) except below 1e-9 (prefix n)
   * and from 1e12 up (prefix G).
   */
  function To(value: real): (n: Notation)
    ensures Meaning(n) == value
    ensures n.negative <==> value < 0.0
    ensures n.mantissa >= 0.0
    ensures n.prefix != Giga ==> n.mantissa < 1000.0
    ensures n.prefix != Nano ==> n.mantissa >= 1.0
  {
    var negative := value < 0.0;
    var magnitude := if negative then -value else value;
    if magnitude < 0.000001 then Notation(negative, magnitude * 1000000000.0, Nano)
    else if magnitude < 0.001 then Notation(negative, magnitude * 1000000.0, Micro)
    else if magnitude < 1.0 then Notation(negative, magnitude * 1000.0, Milli)
    else if magnitude < 1000.0 then Notation(negative, magnitude, NoPrefix)
    else if magnitude < 1000000.0 then Notation(negative, magnitude / 1000.0, Kilo)
    else if magnitude < 1000000000.0 then Notation(negative, magnitude / 1000000.0, Mega)
    else Notation(negative, magnitude / 1000000000.0, Giga)
  }

  /**
   * Only one notation has a mantissa in [1, 1000) and a given meaning, so the
   * prefix `To` picks is the only one that keeps the mantissa in that range.
   */
  lemma ToPicksTheOnlyPrefix(value: real, n: Notation)
    requires Meaning(n) == value && (n.negative <==> value < 0.0)
    requires 1.0 <= n.mantissa < 1000.0
    ensures To(value) == n
  {
    var magnitude := if value < 0.0 then -value else value;
    assert magnitude == n.mantissa * Factor(n.prefix);
    match n.prefix
    case Nano => assert 0.000000001 <= magnitude < 0.000001;
    case Micro => assert 0.000001 <= magnitude < 0.001;
    case Milli => assert 0.001 <= magnitude < 1.0;
    case NoPrefix => assert 1.0 <= magnitude < 1000.0;
    case Kilo => assert 1000.0 <= magnitude < 1000000.0;
    case Mega => assert 1000000.0 <= magnitude < 1000000000.0;
    case Giga => assert 1000000000.0 <= magnitude;
  }

  /** The text `To` returns, given the decimal text JavaScript writes for the mantissa. */
  function Render(n: Notation, digits: string): (text: string)
    ensures |text| == (if n.negative then 1 else 0) + |digits| + |Symbol(n.prefix)|
  {
    (if n.negative then "-" else "") + digits + Symbol(n.prefix)
  }

  /** A character the pattern `[0-9.]` accepts. */
  predicate NumberEnd(c: char) {
    '0' <= c <= '9' || c == '.'
  }

  /** `string.search(/[0-9.]c$/) !== -1`: the text ends in `c` right after a digit or a point. */
  predicate EndsWith(text: string, c: char) {
    |text| >= 2 && text[|text| - 1] == c && NumberEnd(text[|text| - 2])
  }

  /**
   * `EngineeringValue.From`, given `parsed`, the number `parseFloat` reads
   * from the front of `text`: scaled by the prefix letter the text ends in,
   * checked in the order m, u, n, k, M, G, else unchanged.
   */
  function From(text: string, parsed: real): (v: real)
    ensures EndsWith(text, 'm') ==> v == parsed * 0.001
    ensures EndsWith(text, 'u') ==> v == parsed * 0.000001
    ensures EndsWith(text, 'n') ==> v == parsed * 0.000000001
    ensures EndsWith(text, 'k') ==> v == parsed * 1000.0
    ensures EndsWith(text, 'M') ==> v == parsed * 1000000.0
    ensures EndsWith(text, 'G') ==> v == parsed * 1000000000.0
    ensures (!EndsWith(text, 'm') && !EndsWith(text, 'u') && !EndsWith(text, 'n') &&
             !EndsWith(text, 'k') && !EndsWith(text, 'M') && !EndsWith(text, 'G')) ==> v == parsed
  {
    if EndsWith(text, 'm') then parsed * 0.001
    else if EndsWith(text, 'u') then parsed * 0.000001
    else if EndsWith(text, 'n') then parsed * 0.000000001
    else if EndsWith(text, 'k') then parsed * 1000.0
    else if EndsWith(text, 'M') then parsed * 1000000.0
    else if EndsWith(text, 'G') then parsed * 1000000000.0
    else parsed
  }

  /**
   * Reading back: whatever decimal text is written for the mantissa, as long
   * as it ends in a digit or a point and `parseFloat` reads back the signed
   * mantissa, `From` recovers the value `To` was given.
   */
  lemma RoundTrip(value: real, digits: string, parsed: real)
    requires |digits| > 0 && NumberEnd(digits[|digits| - 1])
    requires parsed == (if To(value).negative then -To(value).mantissa else To(value).mantissa)
    ensures From(Render(To(value), digits), parsed) == value
  {
    var n := To(value);
    var text := Render(n, digits);
    if n.prefix == NoPrefix {
      assert text[|text| - 1] == digits[|digits| - 1];
    } else {
      assert text[|text| - 1] == Symbol(n.prefix)[0];
      assert text[|text| - 2] == digits[|digits| - 1];
    }
  }

  /**
   * Only a prefix letter at the very end, right after a digit or a point,
   * scales: a text whose last-but-one character is anything else reads as
   * the plain number.
   */
  lemma FromNeedsNumberBeforeLetter(text: string, parsed: real)
    requires |text| < 2 || !NumberEnd(text[|text| - 2])
    ensures From(text, parsed) == parsed
  {
  }

  /** Prefix letters are case-sensitive and only count at the end. */
  lemma FromExamples()
    ensures From("2.5m", 2.5) == 0.0025
    ensures From("2.5M", 2.5) == 2500000.0
    ensures From("2.5K", 2.5) == 2.5
    ensures From("5m ", 5.0) == 5.0
    ensures From("1.k", 1.0) == 1000.0
  {
  }
}
