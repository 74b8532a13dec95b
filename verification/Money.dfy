/** Amounts in minor units: rounding of discounts and rewards (internal/repository/subscription.go)
    and the decimal notation of the payment provider (internal/mercadopago/client.go). */
module Money {
  import opened Common

  newtype int64 = x: int | -MAX_INT64 - 1 <= x <= MAX_INT64

  // ---------------------------------------------------------------------------
  // Rounding
  // ---------------------------------------------------------------------------

  /** The price of one branch after the discount. Splitting the multiplication keeps every
      intermediate value inside 64 bits. */
  function DiscountedMinor(full: int64, discountBps: int64): int64
    requires full >= 0 && 0 <= discountBps <= 10000
  {
    var payBps := 10000 - discountBps;
    SplitFits(full, payBps);
    full / 10000 * payBps + (full % 10000 * payBps + 5000) / 10000
  }

  function ReferralRewardMinor(collected: int64, paidIndex: int64, rewardBps: int64, rewardCharges: int64): int64
    requires rewardBps <= 10000
  {
    if collected < 1 || paidIndex < 1 || paidIndex > rewardCharges || rewardBps < 1 then 0
    else
      SplitFits(collected, rewardBps);
      collected / 10000 * rewardBps + (collected % 10000 * rewardBps + 5000) / 10000
  }

  /** Nearest multiple, halves upwards, over the mathematical integers. */
  function RoundHalfUp(value: int, bps: int): int {
    (value * bps + 5000) / 10000
  }

  function Split(value: int, bps: int): int {
    value / 10000 * bps + (value % 10000 * bps + 5000) / 10000
  }

  lemma SplitIsExact(value: int, bps: int)
    ensures Split(value, bps) == RoundHalfUp(value, bps)
  {
    var q, r := value / 10000, value % 10000;
    calc {
      value * bps + 5000;
      (10000 * q + r) * bps + 5000;
      10000 * (q * bps) + (r * bps + 5000);
    }
    ShiftDivision(q * bps, r * bps + 5000);
  }

  lemma ShiftDivision(k: int, n: int)
    ensures (10000 * k + n) / 10000 == k + n / 10000
  {
  }

  lemma ScaledBound(a: int, b: int, k: int)
    requires 0 <= a && 0 <= b <= k
    ensures 0 <= a * b <= a * k
  {
    assert a * (k - b) >= 0;
  }

  /** No step of the split computation leaves the 64-bit range. */
  lemma SplitFits(value: int64, bps: int64)
    requires value >= 0 && 0 <= bps <= 10000
    ensures 0 <= (value / 10000) as int * bps as int <= MAX_INT64
    ensures 0 <= (value % 10000) as int * bps as int <= 100000000 - 10000
    ensures 0 <= Split(value as int, bps as int) <= value as int
  {
    var q, r := value as int / 10000, value as int % 10000;
    ScaledBound(q, bps as int, 10000);
    ScaledBound(r, bps as int, 10000);
    RoundsBelow(value as int, bps as int);
    SplitIsExact(value as int, bps as int);
  }

  lemma RoundsBelow(value: int, bps: int)
    requires value >= 0 && 0 <= bps <= 10000
    ensures 0 <= RoundHalfUp(value, bps) <= value
  {
    ScaledBound(value, bps, 10000);
  }

  /** RoundHalfUp is the only integer within half a unit, halves going up. */
  lemma RoundHalfUpIsNearest(value: int, bps: int, r: int)
    ensures r == RoundHalfUp(value, bps) <==> 10000 * r - 5000 <= value * bps < 10000 * r + 5000
  {
  }

  lemma RoundHalfUpIsMonotone(a: int, b: int, bps: int)
    requires a <= b && bps >= 0
    ensures RoundHalfUp(a, bps) <= RoundHalfUp(b, bps)
  {
    assert (b - a) * bps >= 0;
    assert b * bps - a * bps == (b - a) * bps;
  }

  /** The discounted price is the exact price rounded to the nearest cent, and it is monotone in the
      full price and never above it. */
  lemma DiscountIsNearest(full: int64, higher: int64, discountBps: int64)
    requires 0 <= full <= higher && 0 <= discountBps <= 10000
    ensures var r := DiscountedMinor(full, discountBps) as int;
            && 10000 * r - 5000 <= full as int * (10000 - discountBps as int) < 10000 * r + 5000
            && 0 <= r <= full as int
            && r <= DiscountedMinor(higher, discountBps) as int
  {
    var pay := 10000 - discountBps as int;
    SplitIsExact(full as int, pay);
    SplitIsExact(higher as int, pay);
    RoundHalfUpIsNearest(full as int, pay, RoundHalfUp(full as int, pay));
    RoundHalfUpIsMonotone(full as int, higher as int, pay);
    RoundsBelow(full as int, pay);
  }

  /** A reward is due for the first charges only, and is the exact share rounded to the nearest cent. */
  lemma RewardIsNearest(collected: int64, paidIndex: int64, rewardBps: int64, rewardCharges: int64)
    requires 0 <= rewardBps <= 10000
    ensures var r := ReferralRewardMinor(collected, paidIndex, rewardBps, rewardCharges) as int;
            && (collected >= 1 && 1 <= paidIndex <= rewardCharges ==>
                  10000 * r - 5000 <= collected as int * rewardBps as int < 10000 * r + 5000 && 0 <= r <= collected as int)
            && (!(collected >= 1 && 1 <= paidIndex <= rewardCharges) ==> r == 0)
  {
    if collected >= 1 {
      SplitIsExact(collected as int, rewardBps as int);
      RoundHalfUpIsNearest(collected as int, rewardBps as int, RoundHalfUp(collected as int, rewardBps as int));
      RoundsBelow(collected as int, rewardBps as int);
    }
  }

  lemma RewardIsMonotone(a: int64, b: int64, paidIndex: int64, rewardBps: int64, rewardCharges: int64)
    requires a <= b && 0 <= rewardBps <= 10000
    ensures ReferralRewardMinor(a, paidIndex, rewardBps, rewardCharges) <= ReferralRewardMinor(b, paidIndex, rewardBps, rewardCharges)
  {
    if a >= 1 {
      SplitIsExact(a as int, rewardBps as int);
      SplitIsExact(b as int, rewardBps as int);
      RoundHalfUpIsMonotone(a as int, b as int, rewardBps as int);
    } else if b >= 1 && rewardBps >= 1 {
      SplitFits(b, rewardBps);
    }
  }

  // ---------------------------------------------------------------------------
  // Decimal notation
  // ---------------------------------------------------------------------------

  predicate IsDigit(c: char) {
    '0' <= c <= '9'
  }

  predicate Digits(s: string) {
    forall i | 0 <= i < |s| :: IsDigit(s[i])
  }

  function DigitValue(c: char): nat
    requires IsDigit(c)
  {
    (c as int) - ('0' as int)
  }

  function ValueOf(s: string): nat
    requires Digits(s)
  {
    if s == "" then 0
    else 10 * ValueOf(s[..|s| - 1]) + DigitValue(s[|s| - 1])
  }

  /** strconv.ParseInt in base ten: an optional sign, digits, and a value that fits. */
  function ParseInt(s: string): Option<int> {
    var signed := s != "" && (s[0] == '+' || s[0] == '-');
    var digits := if signed then s[1..] else s;
    if digits == "" || !Digits(digits) then None
    else
      var size: int := ValueOf(digits);
      var value := if signed && s[0] == '-' then -size else size;
      if -MAX_INT64 - 1 <= value <= MAX_INT64 then Some(value) else None
  }

  /** Position of the first point, or |s|. */
  function PointIn(s: string): (k: nat)
    ensures k <= |s|
    ensures forall i | 0 <= i < k :: s[i] != '.'
    ensures k < |s| ==> s[k] == '.'
  {
    if s == "" || s[0] == '.' then 0 else 1 + PointIn(s[1..])
  }

  function SplitAtPoints(s: string): (parts: seq<string>)
    ensures |parts| >= 1
    decreases |s|
  {
    var k := PointIn(s);
    if k == |s| then [s] else [s[..k]] + SplitAtPoints(s[k + 1..])
  }

  datatype Amount = Cents(value: int) | Malformed | Overflow | Imprecise

  /** Largest whole part whose cents always fit. */
  const WHOLE_LIMIT: int := (MAX_INT64 - 99) / 100
  const CENTS_LIMIT: int := WHOLE_LIMIT * 100 + 99

  function DecimalMinor(raw: string): Amount {
    var parts := SplitAtPoints(raw);
    if |parts| > 2 || parts[0] == "" || raw[0] == '-' then Malformed
    else
      var whole := ParseInt(parts[0]);
      if whole.None? || whole.value > WHOLE_LIMIT then Overflow
      else if |parts| == 2 && (|parts[1]| == 0 || |parts[1]| > 2) then Imprecise
      else
        var fraction := if |parts| == 2 then parts[1] + (if |parts[1]| == 1 then "0" else "") else "00";
        var cents := ParseInt(fraction);
        if cents.None? then Malformed else Cents(whole.value * 100 + cents.value)
  }

  function Digit(d: nat): char
    requires d < 10
  {
    (('0' as int) + d) as char
  }

  function Decimal(n: nat): string {
    if n < 10 then [Digit(n)] else Decimal(n / 10) + [Digit(n % 10)]
  }

  /** minorJSON: whole part, point, two digits. */
  function MinorJson(cents: nat): string {
    Decimal(cents / 100) + "." + [Digit(cents % 100 / 10), Digit(cents % 10)]
  }

  lemma {:induction false} DecimalValue(n: nat)
    ensures Decimal(n) != "" && Digits(Decimal(n)) && ValueOf(Decimal(n)) == n
  {
    if n >= 10 {
      DecimalValue(n / 10);
      var front := Decimal(n / 10);
      assert Decimal(n)[..|front|] == front;
    } else {
      assert Decimal(n)[..0] == "";
    }
  }

  lemma DigitsHaveNoPoint(s: string)
    requires Digits(s)
    ensures PointIn(s) == |s|
  {
  }

  lemma SplitTwo(whole: string, fraction: string)
    requires Digits(whole) && Digits(fraction)
    ensures SplitAtPoints(whole) == [whole]
    ensures SplitAtPoints(whole + "." + fraction) == [whole, fraction]
  {
    DigitsHaveNoPoint(whole);
    DigitsHaveNoPoint(fraction);
    var s := whole + "." + fraction;
    assert PointIn(s) == |whole| by { assert s[|whole|] == '.'; assert forall i | 0 <= i < |whole| :: s[i] == whole[i]; }
    assert s[..|whole|] == whole && s[|whole| + 1..] == fraction;
  }

  lemma ParseDigits(s: string)
    requires Digits(s) && s != ""
    ensures ParseInt(s) == if ValueOf(s) <= MAX_INT64 then Some(ValueOf(s)) else None
  {
    assert IsDigit(s[0]);
  }

  function Scaled(fraction: string): nat
    requires Digits(fraction) && |fraction| <= 2
  {
    if fraction == "" then 0 else if |fraction| == 1 then 10 * ValueOf(fraction) else ValueOf(fraction)
  }

  lemma ValueOfOne(s: string)
    requires |s| == 1 && Digits(s)
    ensures ValueOf(s) == DigitValue(s[0])
  {
    assert s[..0] == "";
  }

  lemma ValueOfTwo(s: string)
    requires |s| == 2 && Digits(s)
    ensures ValueOf(s) == 10 * DigitValue(s[0]) + DigitValue(s[1])
  {
    ValueOfOne(s[..1]);
  }

  lemma PadFraction(fraction: string)
    requires Digits(fraction) && 1 <= |fraction| <= 2
    ensures var padded := fraction + (if |fraction| == 1 then "0" else "");
            Digits(padded) && padded != "" && ValueOf(padded) == Scaled(fraction) <= 99
  {
    if |fraction| == 1 {
      ValueOfOne(fraction);
      ValueOfTwo(fraction + "0");
    } else {
      ValueOfTwo(fraction);
      assert fraction + "" == fraction;
    }
  }

  /** A number in plain digits, with at most two of them after the point. */
  predicate Writes(raw: string, whole: string, fraction: string) {
    && Digits(whole) && whole != "" && Digits(fraction) && |fraction| <= 2
    && raw == if fraction == "" then whole else whole + "." + fraction
  }

  lemma ReadsWhatIsWritten(raw: string, whole: string, fraction: string)
    requires Writes(raw, whole, fraction)
    ensures DecimalMinor(raw) == if ValueOf(whole) <= WHOLE_LIMIT then Cents(100 * ValueOf(whole) + Scaled(fraction)) else Overflow
  {
    hide SplitAtPoints, ParseInt, ValueOf;
    SplitTwo(whole, fraction);
    ParseDigits(whole);
    assert IsDigit(whole[0]) && raw[0] == whole[0];
    if fraction == "" {
      ValueOfTwo("00");
      ParseDigits("00");
    } else {
      PadFraction(fraction);
      ParseDigits(fraction + (if |fraction| == 1 then "0" else ""));
    }
  }

  lemma DigitIsDigit(d: nat)
    requires d < 10
    ensures IsDigit(Digit(d)) && DigitValue(Digit(d)) == d
  {
  }

  lemma TensAndOnes(n: nat)
    ensures n % 100 / 10 < 10 && 10 * (n % 100 / 10) + n % 10 == n % 100
    ensures n / 100 <= WHOLE_LIMIT <==> n <= CENTS_LIMIT
  {
    var q, r := n / 10, n % 10;
    assert n % 100 == 10 * (q % 10) + r by {
      assert n == 100 * (q / 10) + 10 * (q % 10) + r;
    }
  }

  /** Reading undoes writing for every amount that can be read at all; a larger one is refused. */
  lemma RoundTrip(cents: nat)
    ensures DecimalMinor(MinorJson(cents)) == if cents <= CENTS_LIMIT then Cents(cents) else Overflow
  {
    hide DecimalMinor, ValueOf, Decimal, Digit;
    TensAndOnes(cents);
    var tens, ones := cents % 100 / 10, cents % 10;
    WritesAmount(cents, tens, ones);
    DecimalValue(cents / 100);
    ReadsWhatIsWritten(MinorJson(cents), Decimal(cents / 100), [Digit(tens), Digit(ones)]);
  }

  lemma WritesAmount(cents: nat, tens: nat, ones: nat)
    requires tens == cents % 100 / 10 < 10 && ones == cents % 10 && 10 * tens + ones == cents % 100
    ensures Writes(MinorJson(cents), Decimal(cents / 100), [Digit(tens), Digit(ones)])
    ensures Scaled([Digit(tens), Digit(ones)]) == cents % 100
  {
    hide ValueOf, Decimal, Digit;
    DigitIsDigit(tens);
    DigitIsDigit(ones);
    ValueOfTwo([Digit(tens), Digit(ones)]);
    DecimalValue(cents / 100);
  }

  /** Digits and points only. */
  predicate Plain(raw: string) {
    forall i | 0 <= i < |raw| :: IsDigit(raw[i]) || raw[i] == '.'
  }

  lemma {:induction false} PlainParts(raw: string)
    requires Plain(raw)
    ensures forall k | 0 <= k < |SplitAtPoints(raw)| :: Digits(SplitAtPoints(raw)[k])
    ensures |SplitAtPoints(raw)| == 1 ==> raw == SplitAtPoints(raw)[0]
    ensures |SplitAtPoints(raw)| == 2 ==> raw == SplitAtPoints(raw)[0] + "." + SplitAtPoints(raw)[1]
    decreases |raw|
  {
    var k := PointIn(raw);
    if k < |raw| {
      PlainParts(raw[k + 1..]);
      assert raw == raw[..k] + "." + raw[k + 1..];
      assert Digits(raw[..k]);
    }
  }

  /** Among the strings of digits and points exactly the well-formed, precise and small enough ones
      are accepted, each with its own value. */
  lemma AcceptsExactlyAmounts(raw: string)
    requires Plain(raw)
    ensures DecimalMinor(raw).Cents?
            <==> exists whole, fraction :: Writes(raw, whole, fraction) && ValueOf(whole) <= WHOLE_LIMIT
    ensures forall whole, fraction | Writes(raw, whole, fraction) && ValueOf(whole) <= WHOLE_LIMIT ::
              DecimalMinor(raw) == Cents(100 * ValueOf(whole) + Scaled(fraction)) && DecimalMinor(raw).value <= CENTS_LIMIT
  {
    forall whole, fraction | Writes(raw, whole, fraction) && ValueOf(whole) <= WHOLE_LIMIT
      ensures DecimalMinor(raw) == Cents(100 * ValueOf(whole) + Scaled(fraction)) && DecimalMinor(raw).value <= CENTS_LIMIT
    {
      ReadsWhatIsWritten(raw, whole, fraction);
      if fraction != "" { PadFraction(fraction); }
    }
    if DecimalMinor(raw).Cents? {
      PlainParts(raw);
      var parts := SplitAtPoints(raw);
      var fraction := if |parts| == 2 then parts[1] else "";
      ParseDigits(parts[0]);
      assert Writes(raw, parts[0], fraction);
    }
  }
}
