/** planbuddy_v9/utils/money.js. Every floating-point operation is the exact result times (1 + d) with
    |d| <= 2^-53 (section 4.3.1 of IEEE 754-2019); the d's are arguments, so a statement for all of
    them covers every rounding. */
module Money {

  /** A relative rounding error. */
  predicate Rounding(d: real) { -1.0 / 9007199254740992.0 <= d <= 1.0 / 9007199254740992.0 }

  function Fl(x: real, d: real): real { x * (1.0 + d) }

  /** What Number(x) makes of an argument. */
  datatype Amount = Missing | NotFinite | Number(value: real)

  datatype Result<+T> = Ok(value: T) | TypeError | RangeError

  /** The roundings of n * 100, EPSILON * scaled, scaled + 0.5 and the last sum. */
  datatype Errors = Errors(scale: real, eps: real, half: real, sum: real)

  predicate Small(e: Errors) { Rounding(e.scale) && Rounding(e.eps) && Rounding(e.half) && Rounding(e.sum) }

  function ScaledFloor(n: real, e: Errors): int {
    var scaled := Fl(n * 100.0, e.scale);
    var eps := Fl(scaled / 4503599627370496.0, e.eps);
    Fl(Fl(scaled + 0.5, e.half) + eps, e.sum).Floor
  }

  function RupeesToPaise(a: Amount, e: Errors): Result<int> {
    match a
    case Missing => TypeError
    case NotFinite => TypeError
    case Number(n) => if n < 0.0 then RangeError else Ok(ScaledFloor(n, e))
  }

  /** The integer n for which n / 100 is nearest to x, the larger one in a tie, on the absolute value. */
  function Hundredths(x: real): int {
    if x < 0.0 then -((-x * 100.0 + 0.5).Floor) else (x * 100.0 + 0.5).Floor
  }

  /** `divide` rounds n / 100 and `parse` the number read back from the two decimals. From 10^21 on
      toFixed prints the number itself. */
  function PaiseToRupees(a: Amount, divide: real, parse: real): Result<real> {
    match a
    case Missing => TypeError
    case NotFinite => TypeError
    case Number(n) =>
      var q := Fl(n / 100.0, divide);
      if q >= 1000000000000000000000.0 || q <= -1000000000000000000000.0 then Ok(q)
      else Ok(Fl(Hundredths(q) as real / 100.0, parse))
  }

  /** Math.round(Number(rupees) * 100) of config/razorpay.js, without argument checks. */
  function RazorpayPaise(n: real, scale: real): int { (Fl(n * 100.0, scale) + 0.5).Floor }

  /** `point`: the number's text has a decimal point or a negative exponent. Whole numbers below 10^21
      print without either. */
  function AssertPaise(a: Amount, point: bool): Result<int> {
    if !a.Number? || a.value != a.value.Floor as real || point || a.value < 0.0 then RangeError else Ok(a.value.Floor)
  }

  datatype Unit = Paise | Rupees | OtherUnit

  function ToCanonicalPaise(a: Amount, u: Unit, point: bool, e: Errors): Result<int> {
    match u
    case Paise => AssertPaise(a, point)
    case Rupees => RupeesToPaise(a, e)
    case OtherUnit => TypeError
  }

  // ----- error bounds -----

  lemma ProductBound(x: real, a: real, b: real)
    requires x >= 0.0 && a <= b
    ensures x * a <= x * b
  {
  }

  lemma ErrorBound(x: real, d: real, u: real)
    requires x >= 0.0 && -u <= d <= u
    ensures x - x * u <= Fl(x, d) <= x + x * u
  {
    ProductBound(x, d, u);
    ProductBound(x, -u, d);
    assert Fl(x, d) == x + x * d;
  }

  lemma FlBound(x: real, d: real)
    requires x >= 0.0 && Rounding(d)
    ensures x - x / 9007199254740992.0 <= Fl(x, d) <= x + x / 9007199254740992.0
  {
    var u := 1.0 / 9007199254740992.0;
    ErrorBound(x, d, u);
    assert x * u == x / 9007199254740992.0;
  }

  const LIMIT: nat := 100_000_000_000_000

  /** paiseToRupees prints exactly the paise it was given; only reading the decimals back rounds. */
  lemma PaisePrintExactly(p: nat, divide: real)
    requires p <= LIMIT && Rounding(divide)
    ensures var q := Fl(p as real / 100.0, divide); 0.0 <= q < 1000000000000000000000.0 && Hundredths(q) == p
  {
    FlBound(p as real / 100.0, divide);
  }

  lemma ScaledIsNear(p: nat, parse: real, scale: real)
    requires p <= LIMIT && Rounding(parse) && Rounding(scale)
    ensures p as real - 0.03 <= Fl(Fl(p as real / 100.0, parse) * 100.0, scale) <= p as real + 0.03
    ensures Fl(p as real / 100.0, parse) >= 0.0 && Fl(Fl(p as real / 100.0, parse) * 100.0, scale) >= 0.0
  {
    var r := Fl(p as real / 100.0, parse);
    FlBound(p as real / 100.0, parse);
    FlBound(r * 100.0, scale);
  }

  lemma FloorIsExact(p: nat, scaled: real, e: Errors)
    requires p <= LIMIT && Small(e) && scaled >= 0.0
    requires p as real - 0.03 <= scaled <= p as real + 0.03
    ensures Fl(Fl(scaled + 0.5, e.half) + Fl(scaled / 4503599627370496.0, e.eps), e.sum).Floor == p
  {
    var eps := Fl(scaled / 4503599627370496.0, e.eps);
    var half := Fl(scaled + 0.5, e.half);
    FlBound(scaled / 4503599627370496.0, e.eps);
    FlBound(scaled + 0.5, e.half);
    FlBound(half + eps, e.sum);
  }

  lemma PaiseToRupeesValue(p: nat, divide: real, parse: real)
    requires p <= LIMIT && Rounding(divide)
    ensures PaiseToRupees(Number(p as real), divide, parse) == Ok(Fl(p as real / 100.0, parse))
  {
    PaisePrintExactly(p, divide);
  }

  /** rupeesToPaise and the Razorpay copy on the number that p paise are printed as. */
  lemma RupeesComeBack(p: nat, parse: real, e: Errors)
    requires p <= LIMIT && Rounding(parse) && Small(e)
    ensures var r := Fl(p as real / 100.0, parse);
            r >= 0.0 && ScaledFloor(r, e) == p && RazorpayPaise(r, e.scale) == p
  {
    ScaledIsNear(p, parse, e.scale);
    FloorIsExact(p, Fl(Fl(p as real / 100.0, parse) * 100.0, e.scale), e);
  }

  /** Round trip: for every whole number of paise up to 10^14 and every rounding of every operation,
      rupeesToPaise undoes paiseToRupees, the Razorpay copy with Math.round agrees, and
      toCanonicalPaise gives the same paise for the amount in either unit. */
  lemma PaiseRoundTrip(p: nat, divide: real, parse: real, e: Errors)
    requires p <= LIMIT && Rounding(divide) && Rounding(parse) && Small(e)
    ensures var r := PaiseToRupees(Number(p as real), divide, parse);
            && r.Ok?
            && RupeesToPaise(Number(r.value), e) == Ok(p)
            && RazorpayPaise(r.value, e.scale) == p
            && ToCanonicalPaise(Number(r.value), Rupees, false, e) ==
               ToCanonicalPaise(Number(p as real), Paise, false, e)
  {
    PaiseToRupeesValue(p, divide, parse);
    RupeesComeBack(p, parse, e);
  }

  /** A whole, non-negative number that prints without a point. */
  ghost predicate WholePaise(a: Amount, point: bool) {
    a.Number? && a.value >= 0.0 && !point && exists n: int :: IsNumber(a.value, n)
  }

  predicate IsNumber(x: real, n: int) { x == n as real }

  /** Which amounts are accepted, and how the others are refused. */
  lemma AmountsAreAcceptedExactlyWhen(a: Amount, u: Unit, point: bool, e: Errors, divide: real, parse: real)
    ensures RupeesToPaise(a, e).Ok? <==> a.Number? && a.value >= 0.0
    ensures RupeesToPaise(a, e) == RangeError <==> a.Number? && a.value < 0.0
    ensures PaiseToRupees(a, divide, parse).Ok? <==> a.Number?
    ensures PaiseToRupees(a, divide, parse) != RangeError
    ensures match AssertPaise(a, point)
            case Ok(n) => WholePaise(a, point) && n as real == a.value
            case RangeError => !WholePaise(a, point)
            case TypeError => false
    ensures ToCanonicalPaise(a, u, point, e).Ok? <==>
            (u == Rupees && a.Number? && a.value >= 0.0) || (u == Paise && WholePaise(a, point))
    ensures u == OtherUnit ==> ToCanonicalPaise(a, u, point, e) == TypeError
  {
    if a.Number? {
      assert a.value == a.value.Floor as real ==> IsNumber(a.value, a.value.Floor);
    }
  }

  /** From 10^21 on toFixed prints the number itself, and below it rounds the absolute value half up. */
  lemma LargeAndNegativeAmounts(n: real, divide: real, parse: real)
    ensures var q := Fl(n / 100.0, divide);
            (q >= 1000000000000000000000.0 || q <= -1000000000000000000000.0) ==>
              PaiseToRupees(Number(n), divide, parse) == Ok(q)
    ensures Hundredths(-n) == -Hundredths(n)
    ensures n >= 0.0 ==> Hundredths(n) as real - 0.5 <= n * 100.0 < Hundredths(n) as real + 0.5
  {
  }
}
