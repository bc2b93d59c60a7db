/** The "decimal guard": half-up rounding of every number the back-end
    shows, Indian (lakh/crore) and Western money formatting, percent signs,
    asset-type detection from a ticker, and the mock quote used when every
    data source fails (app/utils/decimal_guard.py). */
module DecimalGuard {
  import opened Common

  // ------------------------------------------------------------ clean_data

  /** What `clean_data` receives, once Python has decided what it is. A float
      is taken as the decimal its `str()` prints; a string that `Decimal()`
      parses is a `Number` too. */
  datatype RawValue =
    | Missing              // None
    | Number(x: real)
    | Unconvertible        // a string Decimal() rejects

  function Pow10(n: nat): (r: nat)
    ensures r >= 1
  {
    if n == 0 then 1 else 10 * Pow10(n - 1)
  }

  /** Python's decimal context keeps 28 significant digits: a quantized
      coefficient of 10^28 or more raises InvalidOperation. */
  const MaxCoefficient: nat := 10000000000000000000000000000

  /** A quantized Decimal, and so the float `clean_data` returns: its sign
      bit (kept for a negative value that rounds to zero, like Python's
      -0.0), its coefficient and its number of decimal places. */
  datatype Fixed = Fixed(negative: bool, units: nat, places: nat) {
    function Scale(): (q: real)
      ensures q >= 1.0
    {
      Pow10(places) as real
    }

    function Magnitude(): (m: real)
      ensures m >= 0.0
    {
      units as real / Scale()
    }

    function Value(): real {
      if negative then -Magnitude() else Magnitude()
    }
  }

  /** `'0.' + '0' * decimals` has `decimals` places, and none when
      `decimals` is zero or negative. */
  function Places(decimals: int): nat {
    if decimals > 0 then decimals else 0
  }

  /** ROUND_HALF_UP of a non-negative magnitude to an integer: the integer
      nearest to `y`, a tie going up, away from zero. */
  function RoundHalfUp(y: real): (u: nat)
    requires y >= 0.0
    ensures u as real - 0.5 <= y < u as real + 0.5
  {
    (y + 0.5).Floor
  }

  /** `Decimal(str(x)).quantize(...)` for a number `x`, with the
      InvalidOperation fallback to 0.00. */
  function QuantizeReal(x: real, decimals: int): (f: Fixed)
    ensures f.places == Places(decimals)
    ensures f.units < MaxCoefficient
  {
    var places := Places(decimals);
    var units := RoundHalfUp(Abs(x) * (Pow10(places) as real));
    if units < MaxCoefficient then Fixed(x < 0.0, units, places)
    else Fixed(false, 0, places)
  }

  function Quantize(v: RawValue, decimals: int): (f: Fixed)
    ensures f.places == Places(decimals)
    ensures f.units < MaxCoefficient
    ensures !v.Number? ==> f.units == 0 && !f.negative
  {
    match v
    case Number(x) => QuantizeReal(x, decimals)
    case _ => Fixed(false, 0, Places(decimals))
  }

  /** `clean_data(value, decimals)`: ROUND_HALF_UP to `decimals` places;
      None, an unconvertible value and a quantize failure give 0.0. */
  function CleanData(v: RawValue, decimals: int): (r: real)
    ensures !v.Number? ==> r == 0.0
    ensures v.Number? && v.x >= 0.0 ==> r >= 0.0
    ensures v.Number? && v.x <= 0.0 ==> r <= 0.0
  {
    Quantize(v, decimals).Value()
  }

  /** The magnitude scaled back by 10^places is the coefficient. */
  lemma MagnitudeScaled(f: Fixed)
    ensures f.Magnitude() * f.Scale() == f.units as real
    ensures f.Magnitude() > 0.0 <==> f.units > 0
  {
  }

  /** A magnitude within half a unit, on the same side of zero, is within
      half a unit in value. */
  lemma WithinHalfUnit(r: real, x: real, q: real, u: real)
    requires q >= 1.0 && Abs(r) * q == u && u - 0.5 <= Abs(x) * q < u + 0.5
    requires x >= 0.0 ==> r >= 0.0
    requires x < 0.0 ==> r <= 0.0
    ensures Abs(r - x) <= 0.5 / q
  {
    var d := Abs(r - x);
    assert d == Abs(Abs(r) - Abs(x));
    assert d * q <= 0.5 by {
      if Abs(r) >= Abs(x) {
        assert d * q == Abs(r) * q - Abs(x) * q;
      } else {
        assert d * q == Abs(x) * q - Abs(r) * q;
      }
    }
    assert (0.5 / q) * q == 0.5;
    if d > 0.5 / q {
      assert d * q > (0.5 / q) * q;
    }
  }

  /** The values whose coefficient at `decimals` places fits in Python's 28
      significant digits. */
  predicate Representable(x: real, decimals: int) {
    RoundHalfUp(Abs(x) * (Pow10(Places(decimals)) as real)) < MaxCoefficient
  }

  /** Half-up rounding: the coefficient is the integer nearest to
      |x|·10^places, a tie taking the larger one (away from zero), and the
      cleaned value is within half a unit of the last place. */
  lemma HalfUpRounding(x: real, decimals: int)
    requires Representable(x, decimals)
    ensures var f := QuantizeReal(x, decimals);
      f.units as real - 0.5 <= Abs(x) * f.Scale() < f.units as real + 0.5
    ensures var f := QuantizeReal(x, decimals);
      Abs(f.Value() - x) <= 0.5 / f.Scale()
  {
    QuantizeNumber(x, decimals);
    FixedWithinHalfUnit(QuantizeReal(x, decimals), x);
  }

  lemma QuantizeNumber(x: real, decimals: int)
    requires Representable(x, decimals)
    ensures var f := QuantizeReal(x, decimals);
      f.negative == (x < 0.0) && f.units == RoundHalfUp(Abs(x) * f.Scale())
  {
  }

  lemma FixedWithinHalfUnit(f: Fixed, x: real)
    requires f.units as real - 0.5 <= Abs(x) * f.Scale() < f.units as real + 0.5
    requires f.negative == (x < 0.0)
    ensures Abs(f.Value() - x) <= 0.5 / f.Scale()
  {
    var r, q, u := f.Value(), f.Scale(), f.units as real;
    assert Abs(r) * q == u by {
      MagnitudeScaled(f);
      assert Abs(r) == f.Magnitude();
    }
    WithinHalfUnit(r, x, q, u);
  }

  /** Re-quantizing a quantized value at the same places gives it back. */
  lemma RequantizeFixed(f: Fixed, decimals: int)
    requires f.places == Places(decimals) && f.units < MaxCoefficient
    ensures QuantizeReal(f.Value(), decimals).Value() == f.Value()
  {
    var g := QuantizeReal(f.Value(), decimals);
    RequantizeUnits(f, decimals);
    if f.units == 0 {
      assert g.Magnitude() == 0.0 == f.Magnitude();
    }
  }

  /** Re-quantizing keeps the coefficient, and the sign of a non-zero one. */
  lemma RequantizeUnits(f: Fixed, decimals: int)
    requires f.places == Places(decimals) && f.units < MaxCoefficient
    ensures var g := QuantizeReal(f.Value(), decimals);
      g.units == f.units && g.places == f.places && (f.units > 0 ==> g.negative == f.negative)
  {
    var r := f.Value();
    ScaledValue(f);
    assert RoundHalfUp(f.units as real) == f.units;
  }

  /** |value|·10^places is the coefficient. */
  lemma ScaledValue(f: Fixed)
    ensures Abs(f.Value()) * f.Scale() == f.units as real
    ensures f.units > 0 ==> (f.Value() < 0.0 <==> f.negative)
  {
    MagnitudeScaled(f);
    assert Abs(f.Value()) == f.Magnitude();
  }

  /** Cleaning an already clean value changes nothing. */
  lemma CleanDataIdempotent(v: RawValue, decimals: int)
    ensures CleanData(Number(CleanData(v, decimals)), decimals) == CleanData(v, decimals)
  {
    RequantizeFixed(Quantize(v, decimals), decimals);
  }

  /** A value that already has two places is kept by cleaning. */
  lemma CleanCents(n: int)
    requires -(MaxCoefficient as int) < n < MaxCoefficient
    ensures CleanData(Number(n as real / 100.0), 2) == n as real / 100.0
  {
    var a: nat := if n < 0 then -n else n;
    CentsQuantized(n);
    assert QuantizeReal(n as real / 100.0, 2).Magnitude() == a as real / 100.0;
  }

  /** Hundredths quantize at two places to their own count, with their sign. */
  lemma CentsQuantized(n: int)
    requires -(MaxCoefficient as int) < n < MaxCoefficient
    ensures var f := QuantizeReal(n as real / 100.0, 2);
      f.units == (if n < 0 then -n else n) && f.negative == (n < 0) && f.places == 2
  {
    var x := n as real / 100.0;
    var a: nat := if n < 0 then -n else n;
    assert Pow10(2) == 100;
    assert Abs(x) * 100.0 == a as real;
    assert RoundHalfUp(a as real) == a;
  }

  /** A value too large for 28 significant digits at two places is cleaned
      to 0.0, as the InvalidOperation handler does. */
  lemma CleanDataPrecisionOverflow()
    ensures CleanData(Number(100000000000000000000000000.0), 2) == 0.0
  {
    assert Pow10(2) == 100;
  }

  // ------------------------------------------------------------- format_inr

  const Rupee: char := '\U{20b9}'

  /** The digits left of the last three, in groups of two from the right;
      the first group may have a single digit. */
  function PairGroups(r: string): seq<string>
    decreases |r|
  {
    if r == [] then []
    else if |r| <= 2 then [r]
    else PairGroups(r[..|r| - 2]) + [r[|r| - 2..]]
  }

  /** Indian digit grouping: the last three digits, preceded by groups of two. */
  function IndianGroups(d: string): seq<string> {
    if |d| > 3 then PairGroups(d[..|d| - 3]) + [d[|d| - 3..]] else [d]
  }

  function InrPrefix(f: Fixed, includeSymbol: bool): string {
    (if f.negative && f.units > 0 then "-" else "") + (if includeSymbol then [Rupee] else "")
  }

  /** The string `format_inr` returns: the sign when the cleaned value is
      below zero, the rupee sign, the integer part in Indian groups, and
      two decimals. */
  function InrText(value: real, includeSymbol: bool): string {
    var f := QuantizeReal(value, 2);
    InrPrefix(f, includeSymbol) + Join(IndianGroups(NatToString(f.units / 100)), ",")
      + "." + TwoDigits(f.units % 100)
  }

  /** `format_inr`: the while loop peels two-digit groups off the right of
      the front part and puts each at the head of `groups`. */
  method FormatInr(value: real, includeSymbol: bool) returns (s: string)
    ensures s == InrText(value, includeSymbol)
  {
    var f := QuantizeReal(value, 2);
    var intPart := f.units / 100;
    var decPart := f.units % 100;
    var digits := NatToString(intPart);
    var formatted: string;
    if |digits| > 3 {
      var lastThree := digits[|digits| - 3..];
      var remaining := digits[..|digits| - 3];
      var groups: seq<string> := [];
      while remaining != []
        invariant PairGroups(digits[..|digits| - 3]) == PairGroups(remaining) + groups
        decreases |remaining|
      {
        var cut := if |remaining| >= 2 then |remaining| - 2 else 0;
        PairGroupsPeel(remaining);
        groups := [remaining[cut..]] + groups;
        remaining := remaining[..cut];
      }
      formatted := Join(groups, ",") + "," + lastThree;
      IndianJoin(digits, groups);
    } else {
      formatted := digits;
    }
    s := InrPrefix(f, includeSymbol) + formatted + "." + TwoDigits(decPart);
  }

  /** After the loop: the pair groups, a comma and the last three digits
      are the Indian groups joined by commas. */
  lemma IndianJoin(digits: string, groups: seq<string>)
    requires |digits| > 3 && groups == PairGroups(digits[..|digits| - 3])
    ensures Join(groups, ",") + "," + digits[|digits| - 3..] == Join(IndianGroups(digits), ",")
  {
    var lastThree := digits[|digits| - 3..];
    PairGroupsShape(digits[..|digits| - 3]);
    assert IndianGroups(digits) == groups + [lastThree];
    assert (groups + [lastThree])[..|groups|] == groups;
  }

  /** One step of the loop: the last group of a non-empty run comes off its
      right end. */
  lemma PairGroupsPeel(r: string)
    requires r != []
    ensures var cut := if |r| >= 2 then |r| - 2 else 0;
      PairGroups(r) == PairGroups(r[..cut]) + [r[cut..]]
  {
    if |r| <= 2 {
      assert r[..0] == [];
      assert r[0..] == r;
    }
  }

  /** The pair groups spell the run; the first has one or two digits and
      starts it, every later group has two. */
  lemma {:induction false} PairGroupsShape(r: string)
    ensures Concat(PairGroups(r)) == r
    ensures r != [] ==> |PairGroups(r)| >= 1 && 1 <= |PairGroups(r)[0]| <= 2 && PairGroups(r)[0][0] == r[0]
    ensures forall i :: 0 < i < |PairGroups(r)| ==> |PairGroups(r)[i]| == 2
    decreases |r|
  {
    if |r| > 2 {
      var front := r[..|r| - 2];
      var last := r[|r| - 2..];
      PairGroupsShape(front);
      var g := PairGroups(front);
      assert PairGroups(r) == g + [last];
      assert (g + [last])[..|g|] == g;
      assert Concat(g + [last]) == Concat(g) + last;
      assert front + last == r;
    } else if r != [] {
      assert Concat([r]) == Concat([]) + r;
    }
  }

  /** The Indian groups spell the digits: the last group is the last three
      digits (all of them when there are no more than three), the first of
      the others has one or two digits and each other has two. */
  lemma IndianGroupsShape(d: string)
    requires d != []
    ensures var g := IndianGroups(d);
      && |g| >= 1
      && Concat(g) == d
      && |g[|g| - 1]| == (if |d| <= 3 then |d| else 3)
      && (|d| > 3 ==> |g| >= 2 && 1 <= |g[0]| <= 2)
      && (forall i :: 0 < i < |g| - 1 ==> |g[i]| == 2)
      && |g[0]| >= 1 && g[0][0] == d[0]
  {
    if |d| > 3 {
      var front := d[..|d| - 3];
      var last := d[|d| - 3..];
      PairGroupsShape(front);
      var g := PairGroups(front);
      assert (g + [last])[..|g|] == g;
      assert Concat(g + [last]) == Concat(g) + last;
      assert front + last == d;
    } else {
      assert Concat([d]) == Concat([]) + d;
    }
  }

  lemma {:induction false} JoinHead(parts: seq<string>, sep: string)
    requires |parts| >= 1 && |parts[0]| >= 1
    ensures |Join(parts, sep)| >= 1 && Join(parts, sep)[0] == parts[0][0]
    decreases |parts|
  {
    if |parts| > 1 {
      var front := parts[..|parts| - 1];
      JoinHead(front, sep);
    }
  }

  /** `format_inr` writes '-' first exactly when the cleaned value is below
      zero (a value that rounds to -0.00 gets none), and always ends in a
      point and two decimal digits. */
  lemma InrSign(value: real, includeSymbol: bool)
    ensures var s := InrText(value, includeSymbol);
      && |s| >= 4
      && (s[0] == '-' <==> CleanData(Number(value), 2) < 0.0)
      && s[|s| - 3] == '.' && IsDigit(s[|s| - 2]) && IsDigit(s[|s| - 1])
  {
    var f := QuantizeReal(value, 2);
    var d := NatToString(f.units / 100);
    var body := Join(IndianGroups(d), ",");
    IndianGroupsShape(d);
    JoinHead(IndianGroups(d), ",");
    MagnitudeScaled(f);
    assert body[0] == d[0] && IsDigit(d[0]);
    var s := InrText(value, includeSymbol);
    var pre := InrPrefix(f, includeSymbol);
    assert s == pre + body + "." + TwoDigits(f.units % 100);
    if pre == "" {
      assert s[0] == body[0];
    } else {
      assert s[0] == pre[0];
    }
  }

  /** The example of the source's documentation: 112450 is ₹1,12,450.00. */
  lemma InrExample()
    ensures InrText(112450.0, true) == [Rupee] + "1,12,450.00"
  {
    var f := QuantizeReal(112450.0, 2);
    InrExampleUnits();
    assert f.units / 100 == 112450 && f.units % 100 == 0;
    assert InrPrefix(f, true) == [Rupee];
    InrExampleDigits();
    InrExampleGroups();
    assert TwoDigits(0) == "00";
    assert InrText(112450.0, true) == [Rupee] + "1,12,450" + "." + "00";
  }

  lemma InrExampleUnits()
    ensures QuantizeReal(112450.0, 2) == Fixed(false, 11245000, 2)
  {
    assert Pow10(2) == 100;
    assert RoundHalfUp(11245000.0) == 11245000;
  }

  lemma InrExampleDigits()
    ensures NatToString(112450) == "112450"
  {
    assert NatToString(1) == "1";
    assert NatToString(11) == "11";
    assert NatToString(112) == "112";
    assert NatToString(1124) == "1124";
    assert NatToString(11245) == "11245";
  }

  lemma InrExampleGroups()
    ensures Join(IndianGroups("112450"), ",") == "1,12,450"
  {
    var d := "112450";
    assert d[..3] == "112" && d[3..] == "450";
    assert "112"[..1] == "1" && "112"[1..] == "12";
    assert PairGroups("112") == ["1", "12"] by {
      assert PairGroups("1") == ["1"];
    }
    assert IndianGroups(d) == ["1", "12", "450"];
    assert ["1", "12", "450"][..2] == ["1", "12"];
    assert ["1", "12"][..1] == ["1"];
  }

  // ------------------------------------------------------- format_usd / percent

  /** Western digit groups of three from the right, as the `,` format
      option writes them. */
  function ThousandsGroups(d: string): seq<string>
    decreases |d|
  {
    if |d| <= 3 then [d] else ThousandsGroups(d[..|d| - 3]) + [d[|d| - 3..]]
  }

  /** `format_usd`: the symbol comes before the sign, so a negative amount
      reads "$-5.00", and a negative value that rounds to zero keeps its '-'. */
  function FormatUsd(value: real, includeSymbol: bool): (r: string)
    ensures |r| >= 4 && r[|r| - 3] == '.' && IsDigit(r[|r| - 2]) && IsDigit(r[|r| - 1])
    ensures includeSymbol ==> r[0] == '$'
    ensures QuantizeReal(value, 2).negative ==> r[if includeSymbol then 1 else 0] == '-'
  {
    var f := QuantizeReal(value, 2);
    (if includeSymbol then "$" else "") + (if f.negative then "-" else "")
      + Join(ThousandsGroups(NatToString(f.units / 100)), ",") + "." + TwoDigits(f.units % 100)
  }

  /** The thousands groups spell the digits; the first has one to three
      digits, every other group three. */
  lemma {:induction false} ThousandsGroupsShape(d: string)
    ensures Concat(ThousandsGroups(d)) == d
    ensures |ThousandsGroups(d)| >= 1 && |ThousandsGroups(d)[0]| <= 3
    ensures forall i :: 0 < i < |ThousandsGroups(d)| ==> |ThousandsGroups(d)[i]| == 3
    decreases |d|
  {
    if |d| > 3 {
      var front := d[..|d| - 3];
      var last := d[|d| - 3..];
      ThousandsGroupsShape(front);
      var g := ThousandsGroups(front);
      assert (g + [last])[..|g|] == g;
      assert Concat(g + [last]) == Concat(g) + last;
      assert front + last == d;
    } else {
      assert Concat([d]) == Concat([]) + d;
    }
  }

  /** A value in (-0.005, 0) keeps its sign in `format_usd` but loses it in
      `format_inr`. */
  lemma NegativeZeroFormats()
    ensures FormatUsd(-0.001, true) == "$-0.00"
    ensures InrText(-0.001, true) == [Rupee] + "0.00"
  {
    assert Pow10(2) == 100;
    assert RoundHalfUp(0.1) == 0;
    var f := QuantizeReal(-0.001, 2);
    assert f == Fixed(true, 0, 2);
    assert NatToString(0) == "0";
    assert TwoDigits(0) == "00";
    assert ThousandsGroups("0") == ["0"];
    assert IndianGroups("0") == ["0"];
  }

  /** `format_percent`: two decimal places and a percent sign. */
  function FormatPercent(value: real, includeSign: bool): (r: string)
    ensures |r| >= 5 && r[|r| - 4] == '.' && IsDigit(r[|r| - 3]) && IsDigit(r[|r| - 2]) && r[|r| - 1] == '%'
  {
    var f := QuantizeReal(value, 2);
    (if f.Value() > 0.0 && includeSign then "+" else "") + (if f.negative then "-" else "")
      + NatToString(f.units / 100) + "." + TwoDigits(f.units % 100) + "%"
  }

  /** The '+' appears exactly when the cleaned value is positive and the
      sign is requested; the text always ends in "%". */
  lemma PercentSign(value: real, includeSign: bool)
    ensures var s := FormatPercent(value, includeSign);
      (s[0] == '+' <==> CleanData(Number(value), 2) > 0.0 && includeSign)
      && s[|s| - 1] == '%'
  {
    var f := QuantizeReal(value, 2);
    var d := NatToString(f.units / 100);
    var s := FormatPercent(value, includeSign);
    if !(f.Value() > 0.0 && includeSign) && !f.negative {
      assert s[0] == d[0];
      assert IsDigit(d[0]);
    }
  }

  // -------------------------------------------------------- detect_asset_type

  datatype AssetType = NSE | CRYPTO | COMMODITY | UNKNOWN {
    function Name(): string {
      match this
      case NSE => "NSE"
      case CRYPTO => "CRYPTO"
      case COMMODITY => "COMMODITY"
      case UNKNOWN => "UNKNOWN"
    }
  }

  const CryptoCodes: seq<string> := ["BTC", "ETH", "XRP", "SOL", "ADA", "DOT", "DOGE", "MATIC", "LINK", "AVAX"]
  const CommodityCodes: seq<string> := ["GC=F", "SI=F", "CL=F", "NG=F", "GOLD", "SILVER", "CRUDE"]
  const NseStocks: seq<string> := ["RELIANCE", "TCS", "INFY", "HDFCBANK", "ICICIBANK", "SBIN", "HDFC",
    "BAJFINANCE", "BHARTIARTL", "ITC", "KOTAKBANK", "LT", "AXISBANK",
    "ASIAN", "MARUTI", "TITAN", "NESTLEIND", "ULTRACEMCO", "WIPRO",
    "TATASTEEL", "NTPC", "POWERGRID", "SUNPHARMA", "TATAMOTORS", "ADANIENT"]

  predicate ContainsAny(t: string, codes: seq<string>) {
    exists i | 0 <= i < |codes| :: Contains(t, codes[i])
  }

  predicate IsCryptoTicker(t: string) {
    ContainsAny(t, CryptoCodes) || Contains(t, "-USD") || Contains(t, "/USD") || Contains(t, "USDT")
  }

  predicate IsExchangeSuffixed(t: string) {
    Contains(t, ".NS") || Contains(t, ".BO")
  }

  /** `detect_asset_type` as written: crypto substrings, then commodity
      substrings, then .NS/.BO, then the exact list of NSE names. */
  function DetectAssetTypeAsWritten(ticker: string): (r: AssetType)
    ensures var t := Strip(Upper(ticker));
      && (r == CRYPTO <==> IsCryptoTicker(t))
      && (r == COMMODITY <==> !IsCryptoTicker(t) && ContainsAny(t, CommodityCodes))
      && (r == UNKNOWN <==> !IsCryptoTicker(t) && !ContainsAny(t, CommodityCodes)
                            && !IsExchangeSuffixed(t) && t !in NseStocks)
  {
    var t := Strip(Upper(ticker));
    if IsCryptoTicker(t) then CRYPTO
    else if ContainsAny(t, CommodityCodes) then COMMODITY
    else if IsExchangeSuffixed(t) then NSE
    else if t in NseStocks then NSE
    else UNKNOWN
  }

  /** ADANIENT is on the NSE list, but its "ADA" makes the crypto test fire
      first, so the listed name is classified CRYPTO. */
  lemma AdanientClassifiedCrypto()
    ensures "ADANIENT" in NseStocks
    ensures DetectAssetTypeAsWritten("ADANIENT") == CRYPTO
  {
    assert Upper("ADANIENT") == "ADANIENT";
    assert Strip("ADANIENT") == "ADANIENT";
    assert "ADA" <= "ADANIENT";
    assert CryptoCodes[4] == "ADA";
  }

  /** The classification the rest of the model uses: a name on the NSE
      list is NSE; every other ticker is tested in the source's order. */
  function DetectAssetType(ticker: string): (r: AssetType)
    ensures Strip(Upper(ticker)) in NseStocks ==> r == NSE
    ensures Strip(Upper(ticker)) !in NseStocks ==> r == DetectAssetTypeAsWritten(ticker)
  {
    var t := Strip(Upper(ticker));
    if t in NseStocks then NSE else DetectAssetTypeAsWritten(ticker)
  }

  /** With the corrected order the listed name is NSE. */
  lemma AdanientClassifiedNse()
    ensures DetectAssetType("ADANIENT") == NSE
  {
    assert Upper("ADANIENT") == "ADANIENT";
    assert Strip("ADANIENT") == "ADANIENT";
  }

  // ---------------------------------------------------------- get_mock_price

  /** The part of a price dictionary the services read or write. Keys the
      mock does not set (currency, source) are `None`. */
  datatype Quote = Quote(
    asset: string,
    price: real,
    changePc: real,
    assetType: string,
    currency: Option<string>,
    source: Option<string>,
    isMock: bool,
    sentiment: real,
    mcx: Option<McxPrice>)

  /** The Indian spot price a commodity quote carries for GOLD and SILVER. */
  datatype McxPrice = McxPrice(inrPrice: real, inrFormatted: string, unit: string, displayName: string)

  /** The fixed table of mock prices, in hundredths: (price, change %) by
      upper-case ticker. */
  const MockTable: map<string, (int, int)> := map[
    "BTC-USD" := (9850000, 215),
    "ETH-USD" := (342050, 182),
    "RELIANCE.NS" := (298575, 45),
    "HDFCBANK.NS" := (158020, -32),
    "TCS.NS" := (412500, 88),
    "INFY.NS" := (189050, 15),
    "GC=F" := (204530, 28),
    "SI=F" := (2455, 62)]

  /** `clean_data(n / 100, 2)` for a table value in hundredths: the value
      itself. */
  function CleanHundredths(n: int): (r: real)
    requires -10000 < n < 10000000000
    ensures r == n as real / 100.0
  {
    CleanCents(n);
    CleanData(Number(n as real / 100.0), 2)
  }

  /** The table entry for a key, 100.00 with no change when there is none;
      every entry is a positive price and a change within ±100 %. */
  function MockEntry(key: string): (e: (int, int))
    ensures key in MockTable ==> e == MockTable[key]
    ensures key !in MockTable ==> e == (10000, 0)
    ensures e.0 > 0 && -10000 < e.1 < 10000
  {
    if key in MockTable then MockTable[key] else (10000, 0)
  }

  /** `get_mock_price`: the table entry for the upper-cased ticker, or 100.00
      with no change; always marked as mock, with neutral sentiment. */
  function GetMockPrice(ticker: string): (q: Quote)
    ensures q.isMock && q.asset == Upper(ticker) && q.sentiment == 0.5
    ensures q.currency.None? && q.source.None? && q.mcx.None?
    ensures q.assetType == DetectAssetType(ticker).Name()
    ensures Upper(ticker) !in MockTable ==> q.price == 100.0 && q.changePc == 0.0
    ensures Upper(ticker) in MockTable ==>
      q.price == MockTable[Upper(ticker)].0 as real / 100.0
      && q.changePc == MockTable[Upper(ticker)].1 as real / 100.0
    ensures q.price > 0.0
  {
    var key := Upper(ticker);
    var entry := MockEntry(key);
    Quote(key, CleanHundredths(entry.0), CleanHundredths(entry.1),
          DetectAssetType(ticker).Name(), None, None, true, 0.50, None)
  }
}
