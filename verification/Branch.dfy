// A run's working branch: its name is printed from the issue number and parsed back from a pull
// request's head.
module Branch {
  import opened Wrappers
  import opened Text

  const PREFIX := "tsukinome/issue-"
  const TWO_TO_THE_53 := 0x20_0000_0000_0000
  const TWO_TO_THE_256 := 0x1_0000_0000_0000_0000_0000_0000_0000_0000_0000_0000_0000_0000_0000_0000_0000_0000
  const TWO_TO_THE_1024: nat := TWO_TO_THE_256 * TWO_TO_THE_256 * TWO_TO_THE_256 * TWO_TO_THE_256

  // What a JavaScript program holds after reading a natural number.
  datatype Number = Finite(n: nat) | Infinite

  function Digit(d: nat): char
    requires d < 10
  {
    ('0' as int + d) as char
  }

  function Decimal(n: nat): string {
    if n < 10 then [Digit(n)] else Decimal(n / 10) + [Digit(n % 10)]
  }

  predicate AllDigits(s: string) {
    forall i | 0 <= i < |s| :: IsDigit(s[i])
  }

  function Value(s: string): nat
    requires AllDigits(s)
  {
    if s == "" then 0
    else
      var rest := s[..|s| - 1];
      assert forall i | 0 <= i < |rest| :: rest[i] == s[i];
      10 * Value(rest) + (s[|s| - 1] as int - '0' as int)
  }

  // The multiple of `unit` nearest to `v`, the even one in a tie.
  function NearestMultiple(v: nat, unit: nat): nat
    requires unit > 0
  {
    var down := v / unit;
    var rest := v % unit;
    if 2 * rest < unit || (2 * rest == unit && down % 2 == 0) then down * unit else (down + 1) * unit
  }

  function RoundFrom(v: nat, unit: nat): nat
    requires unit > 0
    decreases if v < unit then 0 else v - unit
  {
    if v < unit * TWO_TO_THE_53 then NearestMultiple(v, unit) else RoundFrom(v, 2 * unit)
  }

  // Reading keeps 53 bits of a number, rounded to nearest, and overflows from 2^1024 on.
  function ToNumber(v: nat): Number {
    var rounded := RoundFrom(v, 1);
    if rounded < TWO_TO_THE_1024 then Finite(rounded) else Infinite
  }

  function SpecBranch(issueNumber: nat): string {
    PREFIX + Decimal(issueNumber)
  }

  function IssueNumberFromBranch(ref: string): Option<Number> {
    if |PREFIX| < |ref| && StartsWith(ref, PREFIX) && AllDigits(ref[|PREFIX|..])
    then Some(ToNumber(Value(ref[|PREFIX|..])))
    else None
  }

  lemma {:induction false} DecimalValue(n: nat)
    ensures Decimal(n) != "" && AllDigits(Decimal(n)) && Value(Decimal(n)) == n
  {
    if n >= 10 {
      DecimalValue(n / 10);
      assert Decimal(n)[..|Decimal(n)| - 1] == Decimal(n / 10);
    }
  }

  lemma ReadsDigits(digits: string)
    requires digits != "" && AllDigits(digits)
    ensures IssueNumberFromBranch(PREFIX + digits) == Some(ToNumber(Value(digits)))
  {
    assert (PREFIX + digits)[|PREFIX|..] == digits;
    assert (PREFIX + digits)[0..|PREFIX|] == PREFIX;
  }

  // Parsing undoes printing, for every number that a JavaScript program can count up to.
  lemma BranchRoundTrip(n: nat)
    requires n < TWO_TO_THE_53
    ensures IssueNumberFromBranch(SpecBranch(n)) == Some(Finite(n))
  {
    DecimalValue(n);
    ReadsDigits(Decimal(n));
    RoundsToItself(n, 1);
    assert TWO_TO_THE_53 < TWO_TO_THE_1024;
  }

  // Distinct issues have distinct branches, so a pull request belongs to one run only.
  lemma SpecBranchInjective(m: nat, n: nat)
    ensures SpecBranch(m) == SpecBranch(n) ==> m == n
  {
    DecimalValue(m);
    DecimalValue(n);
    assert SpecBranch(m)[|PREFIX|..] == Decimal(m);
    assert SpecBranch(n)[|PREFIX|..] == Decimal(n);
  }

  // The bound is needed: above it, two branches are read as one issue.
  lemma LargeNumbersCollide()
    ensures var at, above := PREFIX + Decimal(TWO_TO_THE_53), PREFIX + Decimal(TWO_TO_THE_53 + 1);
      && at != above
      && IssueNumberFromBranch(at) == IssueNumberFromBranch(above) == Some(Finite(TWO_TO_THE_53))
  {
    hide Decimal, Value, AllDigits, IssueNumberFromBranch;
    DecimalValue(TWO_TO_THE_53);
    DecimalValue(TWO_TO_THE_53 + 1);
    SpecBranchInjective(TWO_TO_THE_53, TWO_TO_THE_53 + 1);
    ReadsDigits(Decimal(TWO_TO_THE_53));
    ReadsDigits(Decimal(TWO_TO_THE_53 + 1));
    assert RoundFrom(TWO_TO_THE_53 + 1, 2) == TWO_TO_THE_53;
    assert RoundFrom(TWO_TO_THE_53, 2) == TWO_TO_THE_53;
    assert TWO_TO_THE_53 < TWO_TO_THE_1024;
  }

  // Numbers with at most 53 significant bits.
  predicate Representable(v: nat) {
    v < TWO_TO_THE_53 || (v % 2 == 0 && Representable(v / 2))
  }

  lemma MultipleIsItself(v: nat, unit: nat)
    requires unit > 0
    ensures NearestMultiple(v, unit) == v <==> v % unit == 0
  {
    var down := v / unit;
    assert v == down * unit + v % unit;
    assert (down + 1) * unit == down * unit + unit;
  }

  lemma DoubleUnit(v: nat, unit: nat)
    requires unit > 0
    ensures v % (2 * unit) == 0 <==> v % unit == 0 && (v / unit) % 2 == 0
    ensures v / (2 * unit) == (v / unit) / 2
  {
    var a, b := v / unit, v % unit;
    var c, d := a / 2, a % 2;
    var rest := d * unit + b;
    assert v == a * unit + b;
    assert a * unit == (2 * c + d) * unit == c * (2 * unit) + d * unit;
    assert v == c * (2 * unit) + rest;
    assert d == 0 || d == 1;
    assert 0 <= rest < 2 * unit;
    DivideUnique(v, 2 * unit, c, rest);
  }

  lemma MultipleBound(k: nat, divisor: nat)
    requires k > 0
    ensures k * divisor >= divisor
  {
    assert k * divisor == (k - 1) * divisor + divisor;
  }

  lemma DivideUnique(v: nat, divisor: nat, quotient: nat, rest: nat)
    requires divisor > 0 && v == quotient * divisor + rest && rest < divisor
    ensures v / divisor == quotient && v % divisor == rest
  {
    var q, r := v / divisor, v % divisor;
    if q > quotient {
      assert q * divisor == quotient * divisor + (q - quotient) * divisor;
      MultipleBound(q - quotient, divisor);
    } else if q < quotient {
      assert quotient * divisor == q * divisor + (quotient - q) * divisor;
      MultipleBound(quotient - q, divisor);
    }
  }

  lemma {:induction false} RoundsToItself(v: nat, unit: nat)
    requires unit > 0
    ensures RoundFrom(v, unit) == v <==> v % unit == 0 && Representable(v / unit)
    decreases if v < unit then 0 else v - unit
  {
    if v < unit * TWO_TO_THE_53 {
      MultipleIsItself(v, unit);
      assert v / unit < TWO_TO_THE_53 by { QuotientBelow(v, unit, TWO_TO_THE_53); }
    } else {
      RoundsToItself(v, 2 * unit);
      DoubleUnit(v, unit);
      assert v / unit >= TWO_TO_THE_53 by { QuotientBelow(v, unit, TWO_TO_THE_53); }
    }
  }

  lemma QuotientBelow(v: nat, unit: nat, bound: nat)
    requires unit > 0
    ensures v < unit * bound <==> v / unit < bound
  {
    var q := v / unit;
    assert v == q * unit + v % unit;
    if q < bound {
      assert (q + 1) * unit <= bound * unit;
    } else {
      assert q * unit >= bound * unit;
    }
  }

  // Of all the branches whose tail is a number in digits, those are read as exactly that number whose
  // number has at most 53 significant bits and does not overflow.
  lemma ReadExactlyIff(digits: string)
    requires digits != "" && AllDigits(digits)
    ensures IssueNumberFromBranch(PREFIX + digits) == Some(Finite(Value(digits)))
      <==> Representable(Value(digits)) && Value(digits) < TWO_TO_THE_1024
  {
    ReadsDigits(digits);
    RoundsToItself(Value(digits), 1);
  }
}
