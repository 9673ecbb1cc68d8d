/**
 Exact money in cents (internal/domain/money/money.go): the two-decimal wire
 format, its parser with overflow checks, and checked int64 arithmetic.
 */
module Monetary {
  import opened Prelude

  datatype Money = Money(minor: int, currency: string)

  datatype MoneyError = InvalidAmount | InvalidCurrency | CurrencyMismatch | Overflow

  // ---------------------------------------------------------------------
  // The wire format
  // ---------------------------------------------------------------------

  predicate IsDigit(c: char) {
    '0' <= c <= '9'
  }

  predicate AllDigits(s: string) {
    forall i :: 0 <= i < |s| ==> IsDigit(s[i])
  }

  /** ^[A-Z]{3}$ */
  predicate ValidCurrency(currency: string) {
    |currency| == 3 && forall i :: 0 <= i < 3 ==> 'A' <= currency[i] <= 'Z'
  }

  /** ^(0|[1-9][0-9]*)$ */
  predicate CanonicalWhole(whole: string) {
    |whole| > 0 && AllDigits(whole) && (whole[0] == '0' ==> |whole| == 1)
  }

  /** ^(0|[1-9][0-9]*)\.[0-9]{2}$ */
  predicate CanonicalAmount(s: string) {
    |s| >= 4 && s[|s| - 3] == '.' && IsDigit(s[|s| - 2]) && IsDigit(s[|s| - 1]) && CanonicalWhole(s[..|s| - 3])
  }

  function DigitValue(c: char): (d: int)
    requires IsDigit(c)
    ensures 0 <= d <= 9
  {
    c as int - '0' as int
  }

  function DigitChar(d: int): (c: char)
    requires 0 <= d <= 9
    ensures IsDigit(c) && DigitValue(c) == d
  {
    (d + '0' as int) as char
  }

  /** The number a string of decimal digits denotes. */
  function WholeValue(s: string): (v: nat)
    requires AllDigits(s)
  {
    if s == "" then 0 else WholeValue(s[..|s| - 1]) * 10 + DigitValue(s[|s| - 1])
  }

  /** The number of cents a canonical amount denotes, with no bound. */
  function AmountValue(s: string): (v: nat)
    requires CanonicalAmount(s)
  {
    WholeValue(s[..|s| - 3]) * 100 + DigitValue(s[|s| - 2]) * 10 + DigitValue(s[|s| - 1])
  }

  /**
   What parsing promises: exactly the canonical amounts that fit int64 are
   accepted, with the cents they denote. The currency is checked first.
   */
  function New(amount: string, currency: string): (r: Outcome<Money, MoneyError>)
    ensures r.Ok? <==> ValidCurrency(currency) && CanonicalAmount(amount) && AmountValue(amount) <= MAX_INT64
    ensures r.Ok? ==> r.value == Money(AmountValue(amount), currency)
  {
    if !ValidCurrency(currency) then Err(InvalidCurrency)
    else if !CanonicalAmount(amount) then Err(InvalidAmount)
    else if AmountValue(amount) > MAX_INT64 then Err(Overflow)
    else Ok(Money(AmountValue(amount), currency))
  }

  /** A text is accepted exactly when every character is in its place and the cents it denotes fit. */
  lemma NewExactly(amount: string, currency: string)
    ensures New(amount, currency).Ok? <==>
            && |currency| == 3 && (forall i :: 0 <= i < 3 ==> 'A' <= currency[i] <= 'Z')
            && |amount| >= 4 && amount[|amount| - 3] == '.' && (amount[0] == '0' ==> |amount| == 4)
            && (forall i :: 0 <= i < |amount| && i != |amount| - 3 ==> '0' <= amount[i] <= '9')
            && (Cents(amount, |amount|) <= 0x7fff_ffff_ffff_ffff)
    ensures New(amount, currency).Ok? ==> New(amount, currency).value == Money(Cents(amount, |amount|), currency)
  {
    hide WholeValue, Cents;
    if |amount| >= 4 && amount[|amount| - 3] == '.' {
      var whole := amount[..|amount| - 3];
      assert forall i :: 0 <= i < |whole| ==> whole[i] == amount[i];
      if AllDigits(whole) && IsDigit(amount[|amount| - 2]) && IsDigit(amount[|amount| - 1]) {
        WholeCents(amount, |amount| - 3);
        TailCents(amount);
      }
    }
  }

  /** The digits of a text before position n, read as one number; everything else is skipped. */
  function Cents(s: string, n: nat): nat
    requires n <= |s|
  {
    if n == 0 then 0
    else if '0' <= s[n - 1] <= '9' then 10 * Cents(s, n - 1) + (s[n - 1] as int - '0' as int)
    else Cents(s, n - 1)
  }

  lemma TailCents(s: string)
    requires |s| >= 4 && s[|s| - 3] == '.' && IsDigit(s[|s| - 2]) && IsDigit(s[|s| - 1])
    ensures Cents(s, |s|) == 100 * Cents(s, |s| - 3) + 10 * DigitValue(s[|s| - 2]) + DigitValue(s[|s| - 1])
  {
    assert Cents(s, |s| - 2) == Cents(s, |s| - 3);
    assert Cents(s, |s| - 1) == 10 * Cents(s, |s| - 2) + DigitValue(s[|s| - 2]);
  }

  lemma {:induction false} WholeCents(s: string, n: nat)
    requires n <= |s| && AllDigits(s[..n])
    ensures Cents(s, n) == WholeValue(s[..n])
  {
    if n > 0 {
      assert s[..n][..n - 1] == s[..n - 1] && s[..n][n - 1] == s[n - 1];
      WholeCents(s, n - 1);
    }
  }

  // ---------------------------------------------------------------------
  // The parser
  // ---------------------------------------------------------------------

  method IndexByte(s: string, b: char) returns (index: int)
    ensures index == -1 ==> b !in s
    ensures index != -1 ==> 0 <= index < |s| && s[index] == b && b !in s[..index]
  {
    for i := 0 to |s|
      invariant b !in s[..i]
    {
      if s[i] == b {
        return i;
      }
    }
    return -1;
  }

  lemma {:induction false} WholeValuePrefixMonotone(s: string, k: nat)
    requires AllDigits(s) && k <= |s|
    ensures AllDigits(s[..k]) && WholeValue(s[..k]) <= WholeValue(s)
  {
    if k == |s| {
      assert s[..k] == s;
    } else {
      WholeValuePrefixMonotone(s[..|s| - 1], k);
      assert s[..|s| - 1][..k] == s[..k];
    }
  }

  /**
   The parser as the program runs it: every intermediate value is an int64, so
   the guards before each multiplication rule out overflow rather than detect
   it afterwards, and what they refuse is exactly what does not fit.
   */
  method Parse(amount: string, currency: string) returns (r: Outcome<Money, MoneyError>)
    ensures r == New(amount, currency)
  {
    if !ValidCurrency(currency) {
      return Err(InvalidCurrency);
    }
    if !CanonicalAmount(amount) {
      return Err(InvalidAmount);
    }
    var wholePart, fraction: int64 := amount, 0;
    var dot := IndexByte(amount, '.');
    assert amount[|amount| - 3] == '.';
    assert dot == |amount| - 3 by {
      forall i | 0 <= i < |amount| - 3
        ensures amount[i] != '.'
      {
        assert amount[i] == amount[..|amount| - 3][i];
      }
    }
    if dot >= 0 {
      wholePart := amount[..dot];
      fraction := DigitValue(amount[dot + 1]) as int64 * 10 + DigitValue(amount[dot + 2]) as int64;
    }
    var parsed: int64 := 0;
    for i := 0 to |wholePart|
      invariant wholePart == amount[..|amount| - 3] && AllDigits(wholePart)
      invariant parsed as int == WholeValue(wholePart[..i])
    {
      var digit: int64 := DigitValue(wholePart[i]) as int64;
      assert wholePart[..i + 1][..i] == wholePart[..i];
      if parsed > (0x7fff_ffff_ffff_ffff - digit) / 10 {
        WholeValuePrefixMonotone(wholePart, i + 1);
        return Err(Overflow);
      }
      parsed := parsed * 10 + digit;
    }
    assert wholePart[..|wholePart|] == wholePart;
    if parsed > (0x7fff_ffff_ffff_ffff - fraction) / 100 {
      return Err(Overflow);
    }
    return Ok(Money((parsed * 100 + fraction) as int, currency));
  }

  // ---------------------------------------------------------------------
  // The printer and the round trips
  // ---------------------------------------------------------------------

  /** Printf's %d for a natural number. */
  function Decimal(n: nat): string {
    if n < 10 then [DigitChar(n)] else Decimal(n / 10) + [DigitChar(n % 10)]
  }

  lemma {:induction false} DecimalDenotes(n: nat)
    ensures CanonicalWhole(Decimal(n)) && WholeValue(Decimal(n)) == n
  {
    var s := Decimal(n);
    assert s[|s| - 1] == DigitChar(n % 10);
    if n < 10 {
      assert s[..0] == "";
    } else {
      DecimalDenotes(n / 10);
      assert s[..|s| - 1] == Decimal(n / 10) && s[0] == Decimal(n / 10)[0];
    }
  }

  /** Printf's "%d.%02d" of n/100 and n%100. */
  function FormatMinor(n: nat): string {
    Decimal(n / 100) + ['.', DigitChar(n % 100 / 10), DigitChar(n % 10)]
  }

  /** The printed form is canonical and denotes the number that was printed. */
  lemma FormatDenotes(n: nat)
    ensures CanonicalAmount(FormatMinor(n)) && AmountValue(FormatMinor(n)) == n
  {
    var s := FormatMinor(n);
    DecimalDenotes(n / 100);
    assert s[..|s| - 3] == Decimal(n / 100);
    assert n % 100 / 10 * 10 + n % 10 == n % 100;
  }

  function Amount(m: Money): (s: string) {
    if m.minor < 0 then "-" + FormatMinor(-m.minor) else FormatMinor(m.minor)
  }

  lemma {:induction false} WholeValuePositive(s: string)
    requires CanonicalWhole(s) && s[0] != '0'
    ensures WholeValue(s) > 0
  {
    WholeValuePrefixMonotone(s, 1);
    assert s[..1][..0] == "";
    assert WholeValue(s[..1]) == DigitValue(s[0]);
  }

  /** Canonical digit strings are determined by the number they denote. */
  lemma {:induction false} CanonicalWholeUnique(s: string)
    requires CanonicalWhole(s)
    ensures Decimal(WholeValue(s)) == s
    decreases |s|
  {
    var head := s[..|s| - 1];
    var d := DigitValue(s[|s| - 1]);
    assert DigitChar(d) == s[|s| - 1];
    if |s| == 1 {
      assert WholeValue(head) == 0;
      assert s == [DigitChar(d)];
    } else {
      assert head[0] == s[0];
      CanonicalWholeUnique(head);
      WholeValuePositive(head);
      assert WholeValue(s) / 10 == WholeValue(head) && WholeValue(s) % 10 == d;
      assert s == head + [DigitChar(d)];
    }
  }

  /** Printing is injective on canonical amounts: what was parsed prints back. */
  lemma CanonicalAmountUnique(s: string)
    requires CanonicalAmount(s)
    ensures FormatMinor(AmountValue(s)) == s
  {
    var whole := s[..|s| - 3];
    var tens, units := DigitValue(s[|s| - 2]), DigitValue(s[|s| - 1]);
    var n := AmountValue(s);
    CanonicalWholeUnique(whole);
    assert n == WholeValue(whole) * 100 + tens * 10 + units;
    assert n / 100 == WholeValue(whole) && n % 100 == tens * 10 + units;
    assert n % 100 / 10 == tens && n % 10 == units;
    assert DigitChar(tens) == s[|s| - 2] && DigitChar(units) == s[|s| - 1];
    assert s == whole + ['.', s[|s| - 2], s[|s| - 1]];
  }

  /** Print then parse: the identity exactly on the non-negative int64 amounts. */
  lemma PrintParse(m: Money)
    requires ValidCurrency(m.currency) && IsInt64(m.minor)
    ensures New(Amount(m), m.currency) == (if m.minor >= 0 then Ok(m) else Err(InvalidAmount))
  {
    FormatDenotes(if m.minor < 0 then -m.minor else m.minor);
    if m.minor < 0 {
      var s := Amount(m);
      assert s[0] == '-';
      assert |s| >= 4 ==> s[..|s| - 3][0] == '-';
    }
  }

  /** Parse then print: the same string back. */
  lemma ParsePrint(amount: string, currency: string)
    requires New(amount, currency).Ok?
    ensures Amount(New(amount, currency).value) == amount
  {
    CanonicalAmountUnique(amount);
  }

  /** moneyFromMinor: rebuild money from a stored column by printing and parsing it. */
  function FromMinor(minor: int, currency: string): (r: Option<Money>)
    ensures ValidCurrency(currency) && 0 <= minor <= MAX_INT64 ==> r == Some(Money(minor, currency))
    ensures r.Some? ==> ValidCurrency(currency) && 0 <= minor <= MAX_INT64
  {
    if minor < 0 then None // Go prints a sign the parser refuses
    else
      FormatDenotes(minor);
      match New(FormatMinor(minor), currency)
      case Ok(m) => Some(m)
      case Err(_) => None
  }

  // ---------------------------------------------------------------------
  // Checked arithmetic
  // ---------------------------------------------------------------------

  function Compatible(a: Money, b: Money): (r: Option<MoneyError>)
    ensures r.None? <==> a.currency == b.currency != ""
  {
    if a.currency == "" || b.currency == "" then Some(InvalidCurrency)
    else if a.currency != b.currency then Some(CurrencyMismatch)
    else None
  }

  /** The guards never overflow themselves and admit exactly the sums that fit. */
  function Add(a: Money, b: Money): (r: Outcome<Money, MoneyError>)
    requires IsInt64(a.minor) && IsInt64(b.minor)
    ensures r.Ok? <==> a.currency == b.currency != "" && IsInt64(a.minor + b.minor)
    ensures r.Ok? ==> r.value.minor == a.minor + b.minor && r.value.currency == a.currency
    ensures r == Err(Overflow) <==> a.currency == b.currency != "" && !IsInt64(a.minor + b.minor)
  {
    if Compatible(a, b).Some? then Err(Compatible(a, b).value)
    else if (b.minor > 0 && a.minor > MAX_INT64 - b.minor) || (b.minor < 0 && a.minor < MIN_INT64 - b.minor) then
      Err(Overflow)
    else Ok(Money(Wrap64(a.minor + b.minor), a.currency))
  }

  function Sub(a: Money, b: Money): (r: Outcome<Money, MoneyError>)
    requires IsInt64(a.minor) && IsInt64(b.minor)
    ensures r.Ok? <==> a.currency == b.currency != "" && IsInt64(a.minor - b.minor)
    ensures r.Ok? ==> r.value.minor == a.minor - b.minor && r.value.currency == a.currency
    ensures r == Err(Overflow) <==> a.currency == b.currency != "" && !IsInt64(a.minor - b.minor)
  {
    if Compatible(a, b).Some? then Err(Compatible(a, b).value)
    else if (b.minor > 0 && a.minor < MIN_INT64 + b.minor) || (b.minor < 0 && a.minor > MAX_INT64 + b.minor) then
      Err(Overflow)
    else Ok(Money(Wrap64(a.minor - b.minor), a.currency))
  }

  /** Subtraction undoes addition whenever the addition was allowed. */
  lemma AddSub(a: Money, b: Money)
    requires IsInt64(a.minor) && IsInt64(b.minor) && Add(a, b).Ok?
    ensures Sub(Add(a, b).value, b) == Ok(a)
  {
    var sum := Add(a, b).value;
    assert sum.minor - b.minor == a.minor;
    assert Sub(sum, b).value == Money(a.minor, a.currency);
  }
}
