/** Reading and printing amounts of money as text, in exact cents. */
module Money {
  import opened Basics
  import opened Decimals

  // ----- decimalToCents -----

  /** The length of the run of digits at the start. */
  function DigitRun(s: string): (n: nat)
    ensures n <= |s|
    ensures AllDigits(s[..n]) && (n < |s| ==> !IsDigit(s[n]))
  {
    if s == "" || !IsDigit(s[0]) then 0 else 1 + DigitRun(s[1..])
  }

  /** The cents that follow the point: one digit counts tens. */
  function FractionCents(fraction: string): nat
    requires AllDigits(fraction) && 1 <= |fraction| <= 2
  {
    Value(if |fraction| == 1 then fraction + "0" else fraction)
  }

  function UnsignedCents(s: string): Option<int> {
    var n := DigitRun(s);
    if n == 0 then None
    else if n == |s| then Some(100 * Value(s))
    else if s[n] == '.' && n + 2 <= |s| <= n + 3 && AllDigits(s[n + 1..]) then
      Some(100 * Value(s[..n]) + FractionCents(s[n + 1..]))
    else None
  }

  /**
   An optional sign, digits, and at most two digits after a point, with blanks around; `None` where the program throws.
   */
  function DecimalToCents(text: string): Option<int> {
    var s := Trim(text);
    if s != "" && s[0] == '-' then
      match UnsignedCents(s[1..])
      case None => None
      case Some(cents) => Some(-cents)
    else
      match UnsignedCents(s)
      case None => None
      case Some(cents) => Some(cents)
  }

  // ----- What is read, in plain terms -----

  /** A sign, digits and, if there is a fraction, a point and one or two digits more. */
  predicate Spells(s: string, negative: bool, whole: string, fraction: string) {
    && whole != "" && AllDigits(whole) && AllDigits(fraction) && |fraction| <= 2
    && s == (if negative then "-" else "") + whole + (if fraction == "" then "" else "." + fraction)
  }

  /** Units count a hundred cents, a single digit after the point ten. */
  function CentsSpelled(negative: bool, whole: string, fraction: string): int
    requires AllDigits(whole) && AllDigits(fraction)
  {
    var cents := 100 * Value(whole) + Value(fraction) * if |fraction| == 1 then 10 else 1;
    if negative then -cents else cents
  }

  lemma {:induction false} RunIs(digits: string, rest: string)
    requires AllDigits(digits) && (rest == "" || !IsDigit(rest[0]))
    ensures DigitRun(digits + rest) == |digits|
  {
    if digits == "" {
      assert digits + rest == rest;
    } else {
      assert (digits + rest)[1..] == digits[1..] + rest;
      RunIs(digits[1..], rest);
    }
  }

  lemma PaddedValue(fraction: string)
    requires AllDigits(fraction) && 1 <= |fraction| <= 2
    ensures FractionCents(fraction) == Value(fraction) * if |fraction| == 1 then 10 else 1
  {
    if |fraction| == 1 {
      assert (fraction + "0")[..1] == fraction;
    }
  }

  lemma WholeMeans(whole: string)
    requires AllDigits(whole) && whole != ""
    ensures UnsignedCents(whole) == Some(100 * Value(whole))
  {
    RunIs(whole, "");
    assert whole + "" == whole;
  }

  lemma UnsignedMeans(s: string, whole: string, fraction: string)
    requires Spells(s, false, whole, fraction)
    ensures UnsignedCents(s) == Some(CentsSpelled(false, whole, fraction))
  {
    if fraction == "" {
      assert s == whole;
      WholeMeans(whole);
    } else {
      assert s == whole + "." + fraction;
      UnitsAndFraction(whole, fraction);
      PaddedValue(fraction);
    }
  }

  /** Every text of this form, blanks around it aside, is read as the amount it spells. */
  lemma SpelledIsRead(text: string, negative: bool, whole: string, fraction: string)
    requires Spells(Trim(text), negative, whole, fraction)
    ensures DecimalToCents(text) == Some(CentsSpelled(negative, whole, fraction))
  {
    var s := Trim(text);
    if negative {
      assert s[1..] == whole + (if fraction == "" then "" else "." + fraction);
      UnsignedMeans(s[1..], whole, fraction);
    } else {
      assert s[0] == whole[0];
      UnsignedMeans(s, whole, fraction);
    }
  }

  lemma UnsignedIsSpelled(t: string) returns (whole: string, fraction: string)
    requires UnsignedCents(t).Some?
    ensures whole != "" && AllDigits(whole) && AllDigits(fraction) && |fraction| <= 2
    ensures t == whole + (if fraction == "" then "" else "." + fraction)
  {
    var n := DigitRun(t);
    whole, fraction := t[..n], "";
    if n < |t| {
      fraction := t[n + 1..];
      assert t == t[..n] + [t[n]] + t[n + 1..];
    }
  }

  /** Nothing else is read. */
  lemma ReadIsSpelled(text: string) returns (negative: bool, whole: string, fraction: string)
    requires DecimalToCents(text).Some?
    ensures Spells(Trim(text), negative, whole, fraction)
  {
    var s := Trim(text);
    negative := s != "" && s[0] == '-';
    if negative {
      whole, fraction := UnsignedIsSpelled(s[1..]);
      assert s == "-" + s[1..];
    } else {
      whole, fraction := UnsignedIsSpelled(s);
    }
    SignedSpells(s, negative, whole, fraction);
  }

  lemma SignedSpells(s: string, negative: bool, whole: string, fraction: string)
    requires whole != "" && AllDigits(whole) && AllDigits(fraction) && |fraction| <= 2
    requires var t := whole + (if fraction == "" then "" else "." + fraction); s == if negative then "-" + t else t
    ensures Spells(s, negative, whole, fraction)
  {
  }

  // ----- summarizeMoney -----

  function MoneyText(cents: int): string {
    var absolute: nat := if cents < 0 then -cents else cents;
    (if cents < 0 then "-" else "") + Digits(absolute / 100) + "."
        + [DigitOf(absolute % 100 / 10), DigitOf(absolute % 10)]
  }

  /** The sum in cents, missing values counting as zero; `None` if a value that is present cannot be read. */
  function TotalCents(values: seq<Option<string>>): Option<int> {
    if values == [] then Some(0)
    else
      var total := TotalCents(values[..|values| - 1]);
      var last := values[|values| - 1];
      var cents := if last.None? then Some(0) else DecimalToCents(last.value);
      if total.None? || cents.None? then None else Some(total.value + cents.value)
  }

  function SummarizeMoney(values: seq<Option<string>>): Option<string> {
    var total := TotalCents(values);
    if total.None? then None else Some(MoneyText(total.value))
  }

  // ----- Printing and reading -----

  lemma {:induction false} TrimKeepsEnds(s: string)
    requires s != "" && !IsBlank(s[0]) && !IsBlank(s[|s| - 1])
    ensures Trim(s) == s
  {
  }

  lemma {:induction false} RunBeforePoint(digits: string, rest: string)
    requires AllDigits(digits)
    ensures DigitRun(digits + "." + rest) == |digits|
  {
    if digits != "" {
      assert (digits + "." + rest)[1..] == digits[1..] + "." + rest;
      RunBeforePoint(digits[1..], rest);
    }
  }

  lemma TwoDigits(n: nat)
    requires n < 100
    ensures FractionCents([DigitOf(n / 10), DigitOf(n % 10)]) == n
  {
    var s := [DigitOf(n / 10), DigitOf(n % 10)];
    assert s[..1] == [DigitOf(n / 10)] && s[..1][..0] == "";
    assert Value(s[..1]) == n / 10;
  }

  lemma SplitAtPoint(s: string, units: string, fraction: string)
    requires s == units + "." + fraction
    ensures |s| == |units| + 1 + |fraction| && s[|units|] == '.' && s[..|units|] == units
        && s[|units| + 1..] == fraction
  {
  }

  lemma UnitsAndFraction(units: string, fraction: string)
    requires AllDigits(units) && units != "" && AllDigits(fraction) && 1 <= |fraction| <= 2
    ensures UnsignedCents(units + "." + fraction) == Some(100 * Value(units) + FractionCents(fraction))
  {
    var s := units + "." + fraction;
    RunBeforePoint(units, fraction);
    SplitAtPoint(s, units, fraction);
  }

  lemma PartsRead(units: nat, cents: nat)
    requires cents < 100
    ensures UnsignedCents(Digits(units) + "." + [DigitOf(cents / 10), DigitOf(cents % 10)]) == Some(100 * units + cents)
  {
    ValueOfDigits(units);
    UnitsAndFraction(Digits(units), [DigitOf(cents / 10), DigitOf(cents % 10)]);
    TwoDigits(cents);
  }

  lemma UnsignedTextReads(absolute: nat)
    ensures var s := Digits(absolute / 100) + "." + [DigitOf(absolute % 100 / 10), DigitOf(absolute % 10)];
            UnsignedCents(s) == Some(absolute)
  {
    assert absolute % 100 % 10 == absolute % 10;
    PartsRead(absolute / 100, absolute % 100);
  }

  /** Every amount survives printing, the sign of amounts below one unit included. */
  lemma MoneyTextReadsBack(cents: int)
    ensures DecimalToCents(MoneyText(cents)) == Some(cents)
  {
    var absolute: nat := if cents < 0 then -cents else cents;
    var unsigned := Digits(absolute / 100) + "." + [DigitOf(absolute % 100 / 10), DigitOf(absolute % 10)];
    UnsignedTextReads(absolute);
    UnsignedShape(absolute);
    if cents < 0 {
      assert MoneyText(cents) == "-" + unsigned;
      TrimKeepsEnds("-" + unsigned);
      assert ("-" + unsigned)[1..] == unsigned;
    } else {
      assert MoneyText(cents) == unsigned;
      TrimKeepsEnds(unsigned);
    }
  }

  lemma UnsignedShape(absolute: nat)
    ensures var s := Digits(absolute / 100) + "." + [DigitOf(absolute % 100 / 10), DigitOf(absolute % 10)];
            s != "" && IsDigit(s[0]) && IsDigit(s[|s| - 1])
  {
    ValueOfDigits(absolute / 100);
  }

  // ----- Summaries -----

  lemma {:induction false} TotalsAppend(xs: seq<Option<string>>, ys: seq<Option<string>>)
    ensures TotalCents(xs + ys) ==
            if TotalCents(xs).Some? && TotalCents(ys).Some?
            then Some(TotalCents(xs).value + TotalCents(ys).value) else None
  {
    if ys == [] {
      assert xs + ys == xs;
    } else {
      TotalsAppend(xs, ys[..|ys| - 1]);
      assert (xs + ys)[..|xs + ys| - 1] == xs + ys[..|ys| - 1];
    }
  }

  predicate Unreadable(value: Option<string>) {
    value.Some? && DecimalToCents(value.value).None?
  }

  /** A summary fails exactly when some value that is present cannot be read. */
  lemma {:induction false} FailsExactlyWhen(values: seq<Option<string>>)
    ensures SummarizeMoney(values).None? <==> exists i | 0 <= i < |values| :: Unreadable(values[i])
  {
    if values != [] {
      var init := values[..|values| - 1];
      FailsExactlyWhen(init);
      if i :| 0 <= i < |init| && Unreadable(init[i]) {
        assert Unreadable(values[i]);
      }
    }
  }

  /** The text of a summary stands for the sum of what was read. */
  lemma SummaryReadsBack(values: seq<Option<string>>)
    ensures SummarizeMoney(values).Some? ==> DecimalToCents(SummarizeMoney(values).value) == TotalCents(values)
  {
    if TotalCents(values).Some? {
      MoneyTextReadsBack(TotalCents(values).value);
    }
  }

  /** Summarising two parts and then their summaries gives the text of the whole, and fails when the whole fails. */
  lemma SummariesCompose(xs: seq<Option<string>>, ys: seq<Option<string>>)
    ensures var x, y := SummarizeMoney(xs), SummarizeMoney(ys);
            SummarizeMoney(xs + ys) == if x.Some? && y.Some? then SummarizeMoney([x, y]) else None
  {
    TotalsAppend(xs, ys);
    if TotalCents(xs).Some? && TotalCents(ys).Some? {
      TwoTexts(TotalCents(xs).value, TotalCents(ys).value);
    }
  }

  /** Two printed amounts are summarised as the print of their sum. */
  lemma TwoTexts(a: int, b: int)
    ensures SummarizeMoney([Some(MoneyText(a)), Some(MoneyText(b))]) == Some(MoneyText(a + b))
  {
    MoneyTextReadsBack(a);
    MoneyTextReadsBack(b);
    TwoAmounts(MoneyText(a), MoneyText(b));
  }

  lemma TwoAmounts(x: string, y: string)
    requires DecimalToCents(x).Some? && DecimalToCents(y).Some?
    ensures TotalCents([Some(x), Some(y)]) == Some(DecimalToCents(x).value + DecimalToCents(y).value)
  {
    var values := [Some(x), Some(y)];
    assert values[..1] == [Some(x)] && [Some(x)][..0] == [];
    assert TotalCents([Some(x)]) == DecimalToCents(x);
  }
}
