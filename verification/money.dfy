/**
 * Money: exact signed decimals of two places within numeric(20,2), read from and printed to
 * decimal strings. The value is a sign and a number of hundredths, as decimal.js keeps them,
 * so zero has two representations.
 */
module Moneys {
  import opened Wrappers
  import opened Domain
  import opened Store
  import opened Digits

  datatype Money = Money(negative: bool, hundredths: nat, currency: string) {
    function Cents(): int {
      if negative then 0 - hundredths else hundredths
    }
  }

  const PRECISION := 34

  function Pow10(n: nat): (p: nat)
    ensures p >= 1
  {
    if n == 0 then 1 else 10 * Pow10(n - 1)
  }

  // ---------- parsing ----------

  /** The sign, the whole part and the fraction of ^-?\d{1,25}(\.\d{1,2})?$ */
  datatype Amount = Amount(negative: bool, whole: string, fraction: string) {
    predicate Valid() {
      AllDigits(whole) && 1 <= |whole| <= 25 && AllDigits(fraction) && |fraction| <= 2
    }

    function Text(): string {
      (if negative then "-" else "") + Body(whole, fraction)
    }

    function Hundredths(): nat
      requires Valid()
    {
      Value(whole) * 100 + (if |fraction| == 1 then Value(fraction) * 10 else Value(fraction))
    }
  }

  /** AMOUNT_FORMAT */
  ghost predicate HasFormat(s: string) {
    exists a: Amount :: a.Valid() && a.Text() == s
  }

  /** The text without its sign. */
  function Body(whole: string, fraction: string): string {
    whole + (if fraction == "" then "" else "." + fraction)
  }

  function ParseBody(body: string): (r: Option<(string, string)>)
    ensures r.Some? ==>
              && AllDigits(r.value.0) && 1 <= |r.value.0| <= 25 && AllDigits(r.value.1) && |r.value.1| <= 2
              && body == Body(r.value.0, r.value.1)
  {
    var n := DigitPrefix(body);
    var whole := body[..n];
    var tail := body[n..];
    if n == 0 || n > 25 then None
    else if tail == "" then Some((whole, ""))
    else if tail[0] == '.' && 2 <= |tail| <= 3 && AllDigits(tail[1..]) then
      assert tail == "." + tail[1..];
      Some((whole, tail[1..]))
    else None
  }

  function ParseAmount(s: string): (r: Option<Amount>)
    ensures r.Some? ==> r.value.Valid() && r.value.Text() == s
  {
    var negative := s != "" && s[0] == '-';
    var parts := ParseBody(if negative then s[1..] else s);
    if parts.None? then None
    else
      assert s == (if negative then "-" else "") + Body(parts.value.0, parts.value.1);
      Some(Amount(negative, parts.value.0, parts.value.1))
  }

  lemma BodyParses(whole: string, fraction: string)
    requires AllDigits(whole) && 1 <= |whole| <= 25 && AllDigits(fraction) && |fraction| <= 2
    ensures ParseBody(Body(whole, fraction)) == Some((whole, fraction))
  {
    var body := Body(whole, fraction);
    var tail := if fraction == "" then "" else "." + fraction;
    DigitPrefixIs(whole, tail);
    hide DigitPrefix;
    assert body == whole + tail;
    assert body[..|whole|] == whole && body[|whole|..] == tail;
    if fraction != "" {
      assert tail[1..] == fraction;
    }
  }

  /** The text of an amount determines it: the parser finds the sign, the whole and the fraction again. */
  lemma ParseFindsAmount(a: Amount)
    requires a.Valid()
    ensures ParseAmount(a.Text()) == Some(a)
  {
    var s := a.Text();
    var body := Body(a.whole, a.fraction);
    BodyParses(a.whole, a.fraction);
    hide ParseBody;
    assert body != "" && body[0] == a.whole[0] && IsDigit(body[0]);
    assert s == (if a.negative then "-" else "") + body;
    if a.negative {
      assert s[0] == '-' && s[1..] == body;
    } else {
      assert s == body;
    }
  }

  /** The parser accepts exactly the strings of the format. */
  lemma ParseAcceptsFormat(s: string)
    ensures ParseAmount(s).Some? <==> HasFormat(s)
  {
    if HasFormat(s) {
      var a: Amount :| a.Valid() && a.Text() == s;
      ParseFindsAmount(a);
    }
  }

  /** Money.from */
  function From(amount: string, currency: string): Result<Money, DomainError> {
    if !IsCurrency(currency) then Failure(InvalidMoney)
    else
      var a := ParseAmount(amount);
      if a.None? then Failure(InvalidMoney)
      else if a.value.negative && a.value.Hundredths() != 0 then Failure(InvalidMoney)
      else if a.value.Hundredths() > MAX_CENTS then Failure(InvalidMoney)
      else Success(Money(a.value.negative, a.value.Hundredths(), currency))
  }

  /** What an amount denotes: its digits without the point, read as one numeral, over a power of ten. */
  lemma DigitsScaleHundredths(a: Amount)
    requires a.Valid()
    ensures AllDigits(a.whole + a.fraction)
    ensures a.Hundredths() * Pow10(|a.fraction|) == 100 * Value(a.whole + a.fraction)
  {
    var f := a.fraction;
    assert Pow10(1) == 10 && Pow10(2) == 100;
    if |f| == 0 {
      assert a.whole + f == a.whole;
    } else if |f| == 1 {
      assert f[..0] == "" && f == [f[0]];
      assert Value(f) == DigitValue(f[0]);
      ValueAppend(a.whole, f[0]);
    } else {
      assert f[..1][..0] == "" && f == [f[0]] + [f[1]];
      assert Value(f[..1]) == DigitValue(f[0]);
      ValueAppend(a.whole, f[0]);
      ValueAppend(a.whole + [f[0]], f[1]);
      assert a.whole + f == a.whole + [f[0]] + [f[1]];
    }
  }

  /** An amount that Money accepts: within 999999999999999999.99, and not below zero. */
  predicate Accepted(a: Amount)
    requires a.Valid() && AllDigits(a.whole + a.fraction)
  {
    && 100 * Value(a.whole + a.fraction) <= 99_999_999_999_999_999_999 * Pow10(|a.fraction|)
    && (a.negative ==> Value(a.whole + a.fraction) == 0)
  }

  predicate ThreeCapitals(s: string) {
    |s| == 3 && 'A' <= s[0] <= 'Z' && 'A' <= s[1] <= 'Z' && 'A' <= s[2] <= 'Z'
  }

  /** The value of an accepted text is the decimal it spells, whatever its number of decimals. */
  lemma FromIsExact(a: Amount, currency: string)
    requires a.Valid()
    ensures AllDigits(a.whole + a.fraction)
    ensures From(a.Text(), currency).Success? <==> ThreeCapitals(currency) && Accepted(a)
    ensures From(a.Text(), currency).Success? ==>
              var m := From(a.Text(), currency).value;
              && m.hundredths * Pow10(|a.fraction|) == 100 * Value(a.whole + a.fraction)
              && m.negative == a.negative && m.currency == currency
  {
    hide ParseAmount, Value, Pow10, Amount.Hundredths, Amount.Text, Body;
    ParseFindsAmount(a);
    DigitsScaleHundredths(a);
    ScaledRange(a.Hundredths(), Value(a.whole + a.fraction), |a.fraction|);
  }

  lemma ScaledRange(h: nat, v: nat, f: nat)
    requires f <= 2 && h * Pow10(f) == 100 * v
    ensures h <= MAX_CENTS <==> 100 * v <= 99_999_999_999_999_999_999 * Pow10(f)
    ensures h == 0 <==> v == 0
  {
    assert Pow10(1) == 10 && Pow10(2) == 100;
  }

  /** Money.from succeeds exactly on a currency with a text of the format that spells an accepted amount. */
  lemma FromSucceedsIff(s: string, currency: string)
    ensures From(s, currency).Success? <==>
            && ThreeCapitals(currency)
            && exists a: Amount :: a.Valid() && a.Text() == s && AllDigits(a.whole + a.fraction) && Accepted(a)
  {
    if ParseAmount(s).Some? {
      FromIsExact(ParseAmount(s).value, currency);
    }
    forall a: Amount | a.Valid() && a.Text() == s ensures ParseAmount(s) == Some(a) {
      ParseFindsAmount(a);
    }
    hide ParseAmount, Value;
  }

  // ---------- printing ----------

  /** toFixed(2): the sign belongs to the value, so a negative zero prints none. */
  function ToString(m: Money): string {
    (if m.negative && m.hundredths != 0 then "-" else "") + Unsigned(m.hundredths)
  }

  function Unsigned(h: nat): string {
    Print(h / 100) + "." + [DigitChar(h % 100 / 10), DigitChar(h % 10)]
  }

  lemma {:induction false} PrintLength(n: nat, k: nat)
    requires n < Pow10(k) && k >= 1
    ensures |Print(n)| <= k
    decreases k
  {
    if n >= 10 {
      PrintLength(n / 10, k - 1);
    }
  }

  lemma MaxFits(h: nat)
    requires h <= MAX_CENTS
    ensures |Print(h / 100)| <= 25
  {
    assert Pow10(6) == 1_000_000;
    assert Pow10(12) == 1_000_000 * Pow10(6) by {
      assert Pow10(9) == 1000 * Pow10(6);
    }
    assert Pow10(18) == 1_000_000 * Pow10(12) by {
      assert Pow10(15) == 1000 * Pow10(12);
    }
    PrintLength(h / 100, 18);
  }

  lemma FractionValue(h: nat)
    ensures var f := [DigitChar(h % 100 / 10), DigitChar(h % 10)];
            AllDigits(f) && Value(f) == h % 100
  {
    var d := h % 100 / 10;
    var e := h % 10;
    var f := [DigitChar(d), DigitChar(e)];
    assert h % 100 == 10 * d + e;
    assert f[..1] == [DigitChar(d)] && f[..1][..0] == "";
    assert Value(f[..1]) == d;
  }

  /** Reading back an unsigned print gives the hundredths it was printed from. */
  lemma FromOfUnsigned(h: nat, currency: string)
    requires h <= MAX_CENTS && IsCurrency(currency)
    ensures From(Unsigned(h), currency) == Success(Money(false, h, currency))
  {
    var f := [DigitChar(h % 100 / 10), DigitChar(h % 10)];
    FractionValue(h);
    ValueOfPrint(h / 100);
    MaxFits(h);
    hide Print, Value, ParseAmount, DigitChar;
    var a := Amount(false, Print(h / 100), f);
    assert a.Text() == Unsigned(h);
    assert a.Hundredths() == h;
    ParseFindsAmount(a);
  }

  lemma UnsignedStartsWithDigit(h: nat)
    ensures Unsigned(h) != "" && IsDigit(Unsigned(h)[0])
  {
    assert Unsigned(h)[0] == Print(h / 100)[0];
  }

  predicate InRange(m: Money) {
    m.hundredths <= MAX_CENTS && IsCurrency(m.currency)
  }

  /** Printing and parsing are inverse on the non-negative range; a negative zero comes back as zero. */
  lemma FromOfToString(m: Money)
    requires InRange(m) && m.Cents() >= 0
    ensures From(ToString(m), m.currency) == Success(m.(negative := false))
  {
    FromOfUnsigned(m.hundredths, m.currency);
    assert "" + Unsigned(m.hundredths) == Unsigned(m.hundredths);
  }

  /** The printed form is exact: equal strings are equal amounts. */
  lemma ToStringInjective(a: Money, b: Money)
    requires InRange(a) && InRange(b)
    ensures ToString(a) == ToString(b) <==> a.Cents() == b.Cents()
  {
    hide Unsigned, From;
    var x := Unsigned(a.hundredths);
    var y := Unsigned(b.hundredths);
    UnsignedStartsWithDigit(a.hundredths);
    UnsignedStartsWithDigit(b.hundredths);
    assert ToString(a) == x || (ToString(a) == "-" + x && ToString(a)[1..] == x);
    assert ToString(b) == y || (ToString(b) == "-" + y && ToString(b)[1..] == y);
    if ToString(a) == ToString(b) {
      assert x == y;
      FromOfUnsigned(a.hundredths, a.currency);
      FromOfUnsigned(b.hundredths, a.currency);
    }
  }

  /** Two accepted strings denote the same amount exactly when they print alike. */
  lemma SameAmountIffSamePrint(x: string, y: string, currency: string)
    requires From(x, currency).Success? && From(y, currency).Success?
    ensures From(x, currency).value.Cents() == From(y, currency).value.Cents() <==>
            ToString(From(x, currency).value) == ToString(From(y, currency).value)
  {
    ToStringInjective(From(x, currency).value, From(y, currency).value);
  }

  lemma ZeroPrintsNoSign(m: Money)
    requires m.Cents() == 0
    ensures ToString(m) == "0.00"
  {
    assert Print(0) == "0";
  }

  // ---------- arithmetic ----------

  function Abs(v: int): nat {
    if v < 0 then -v else v
  }

  /** How many digits a value has beyond the precision of the decimal context. */
  function Excess(n: nat): nat {
    if n < Pow10(PRECISION) then 0 else 1 + Excess(n / 10)
  }

  /** Rounding to thirty-four significant digits, half up. */
  function Rounded(v: int): int {
    var n := Abs(v);
    var k := Excess(n);
    if k == 0 then v
    else
      var unit := Pow10(k);
      var r := (n + unit / 2) / unit * unit;
      if v < 0 then -r else r
  }

  /** Money.of: the range still holds for every Money. */
  function Of(v: int, currency: string): Result<Money, DomainError> {
    if Abs(v) > MAX_CENTS then Failure(InvalidMoney) else Success(Money(v < 0, Abs(v), currency))
  }

  function Add(a: Money, b: Money): Result<Money, DomainError> {
    if a.currency != b.currency then Failure(CurrenciesDiffer) else Of(Rounded(a.Cents() + b.Cents()), a.currency)
  }

  function Subtract(a: Money, b: Money): Result<Money, DomainError> {
    if a.currency != b.currency then Failure(CurrenciesDiffer) else Of(Rounded(a.Cents() - b.Cents()), a.currency)
  }

  function CanAdd(a: Money, b: Money): Result<bool, DomainError> {
    if a.currency != b.currency then Failure(CurrenciesDiffer)
    else Success(Abs(Rounded(a.Cents() + b.Cents())) <= MAX_CENTS)
  }

  function Negate(m: Money): Result<Money, DomainError> {
    if m.hundredths > MAX_CENTS then Failure(InvalidMoney) else Success(m.(negative := !m.negative))
  }

  lemma {:induction false} Pow10Grows(m: nat, n: nat)
    requires m <= n
    ensures Pow10(m) <= Pow10(n)
    decreases n - m
  {
    if m < n {
      Pow10Grows(m, n - 1);
    }
  }

  /** Sums and differences of two amounts need at most twenty-one digits, so nothing is ever rounded. */
  lemma NothingIsRounded(a: Money, b: Money)
    requires InRange(a) && InRange(b)
    ensures Rounded(a.Cents() + b.Cents()) == a.Cents() + b.Cents()
    ensures Rounded(a.Cents() - b.Cents()) == a.Cents() - b.Cents()
  {
    assert Pow10(3) == 1000;
    assert Pow10(9) == 1_000_000_000 by {
      assert Pow10(6) == 1000 * Pow10(3);
      assert Pow10(9) == 1000 * Pow10(6);
    }
    assert Pow10(15) == 1_000_000 * Pow10(9) by {
      assert Pow10(12) == 1000 * Pow10(9);
    }
    assert Pow10(21) == 1_000_000 * Pow10(15) by {
      assert Pow10(18) == 1000 * Pow10(15);
    }
    Pow10Grows(21, PRECISION);
  }

  /** Addition and subtraction are exact, fail only outside the range, and canAdd foretells the former. */
  lemma ArithmeticIsExact(a: Money, b: Money)
    requires InRange(a) && InRange(b) && a.currency == b.currency
    ensures Add(a, b).Success? ==> Add(a, b).value.currency == a.currency
    ensures Subtract(a, b).Success? ==> Subtract(a, b).value.currency == a.currency
    ensures Add(a, b).Success? <==> CanAdd(a, b) == Success(true)
    ensures Add(a, b).Success? <==> -MAX_CENTS <= a.Cents() + b.Cents() <= MAX_CENTS
    ensures Add(a, b).Success? ==> Add(a, b).value.Cents() == a.Cents() + b.Cents() && InRange(Add(a, b).value)
    ensures Subtract(a, b).Success? <==> -MAX_CENTS <= a.Cents() - b.Cents() <= MAX_CENTS
    ensures Subtract(a, b).Success? ==> Subtract(a, b).value.Cents() == a.Cents() - b.Cents()
  {
    NothingIsRounded(a, b);
  }

  /** Amounts of two currencies never meet. */
  lemma CurrenciesNeverMix(a: Money, b: Money)
    requires a.currency != b.currency
    ensures Add(a, b) == Failure(CurrenciesDiffer) && Subtract(a, b) == Failure(CurrenciesDiffer)
    ensures CanAdd(a, b) == Failure(CurrenciesDiffer)
  {
  }

  /** reconstructedMoney in ledger.repository.ts: the only way a negative net becomes Money. */
  function ReconstructedMoney(amount: string, currency: string): Result<Money, DomainError> {
    if amount != "" && amount[0] == '-' then
      var m :- From(amount[1..], currency);
      Negate(m)
    else From(amount, currency)
  }

  /** It undoes toString on the whole signed range. */
  lemma ReconstructedMoneyUndoesToString(m: Money)
    requires InRange(m) && (m.negative ==> m.hundredths != 0)
    ensures ReconstructedMoney(ToString(m), m.currency) == Success(m)
  {
    hide Unsigned, From;
    var u := Unsigned(m.hundredths);
    FromOfUnsigned(m.hundredths, m.currency);
    UnsignedStartsWithDigit(m.hundredths);
    if m.negative {
      assert ToString(m) == "-" + u && ToString(m)[1..] == u;
    } else {
      assert ToString(m) == u;
    }
  }

  // ---------- the amounts of the domain model ----------

  function MoneyOf(c: Cash): Money {
    Money(c.cents < 0, Abs(c.cents), c.currency)
  }

  /** The wallet's canDebit and canCredit, on cents, are the checks on Money. */
  lemma WalletChecksAreMoneyChecks(w: WalletRow, amount: Cash)
    requires InRange(MoneyOf(w.balance)) && InRange(MoneyOf(amount)) && amount.currency == w.balance.currency
    ensures CanCredit(w, amount.cents) <==> CanAdd(MoneyOf(w.balance), MoneyOf(amount)) == Success(true)
    ensures CanDebit(w, amount.cents) <==> !(MoneyOf(w.balance).Cents() < MoneyOf(amount).Cents())
  {
    NothingIsRounded(MoneyOf(w.balance), MoneyOf(amount));
  }
}
