/** Go's strconv.ParseInt(s, 10, 64), which turns the estimator's decimal
    safeTxGas string into an int64. ParseUint's digit loop is kept step for
    step, including the order in which it reports a syntax or a range error. */
module StrConv {
  import opened Common

  /** The smallest n with n * 10 > MaxUint64: ParseUint's cutoff for base 10. */
  const Cutoff10: int := MaxUint64 / 10 + 1

  /** 1 << 63: ParseInt's cutoff for a 64-bit result. */
  const Cutoff64: int := 0x8000_0000_0000_0000

  predicate IsDigit(c: char) {
    '0' <= c <= '9'
  }

  predicate AllDigits(s: string) {
    forall i :: 0 <= i < |s| ==> IsDigit(s[i])
  }

  function DigitValue(c: char): (d: nat)
    requires IsDigit(c)
    ensures d < 10
  {
    (c as int) - ('0' as int)
  }

  /** The value of a digit string read most significant digit first. */
  function DecimalValue(ds: string): nat
    requires AllDigits(ds)
  {
    if |ds| == 0 then 0 else 10 * DecimalValue(ds[..|ds| - 1]) + DigitValue(ds[|ds| - 1])
  }

  /** The index of the first character of s that is not a decimal digit, or |s|. */
  function FirstNonDigit(s: string): (k: nat)
    ensures k <= |s|
    ensures AllDigits(s[..k])
    ensures k < |s| ==> !IsDigit(s[k])
  {
    if |s| == 0 || !IsDigit(s[0]) then 0
    else
      var k := 1 + FirstNonDigit(s[1..]);
      assert s[..k] == [s[0]] + s[1..][..k - 1];
      k
  }

  /** ParseUint's loop from index i with accumulator n. Go checks `n1 < n`
      to catch uint64 wrap-around; on unbounded integers that is `n1 > MaxUint64`. */
  function ScanUint(s: string, i: nat, n: nat): Result<nat, NumErrorCause>
    requires i <= |s|
    decreases |s| - i
  {
    if i == |s| then Ok(n)
    else if !IsDigit(s[i]) then Err(ErrSyntax)
    else if n >= Cutoff10 then Err(ErrRange)
    else
      var n1 := n * 10 + DigitValue(s[i]);
      if n1 > MaxUint64 then Err(ErrRange) else ScanUint(s, i + 1, n1)
  }

  /** strconv.ParseUint(s, 10, 64), reduced to its value or its error kind. */
  function ParseUint(s: string): Result<nat, NumErrorCause> {
    if s == "" then Err(ErrSyntax) else ScanUint(s, 0, 0)
  }

  /** The digits after an optional leading '+' or '-'. */
  function Unsigned(s: string): string {
    if |s| > 0 && (s[0] == '+' || s[0] == '-') then s[1..] else s
  }

  predicate Negative(s: string) {
    |s| > 0 && s[0] == '-'
  }

  /** strconv.ParseInt(s, 10, 64). On a range error ParseUint hands back
      MaxUint64, which then fails ParseInt's own range test as well. */
  function ParseInt(s: string): Result<Int64, Error> {
    if s == "" then Err(NumericParseError(s, ErrSyntax))
    else
      var neg := s[0] == '-';
      var un := ParseUint(Unsigned(s));
      if un == Err(ErrSyntax) then Err(NumericParseError(s, ErrSyntax))
      else
        var u := if un.Err? then MaxUint64 else un.value;
        if !neg && u >= Cutoff64 then Err(NumericParseError(s, ErrRange))
        else if neg && u > Cutoff64 then Err(NumericParseError(s, ErrRange))
        else Ok(if neg then -u else u)
  }

  // ---------------------------------------------------------------------
  // The language ParseInt accepts, stated independently of the loop.

  /** An optionally signed, non-empty string of decimal digits. */
  predicate IsDecimal(s: string) {
    |Unsigned(s)| > 0 && AllDigits(Unsigned(s))
  }

  /** The integer an optionally signed decimal string denotes. */
  function SignedValue(s: string): int
    requires IsDecimal(s)
  {
    var v: int := DecimalValue(Unsigned(s));
    if Negative(s) then -v else v
  }

  lemma {:induction false} DecimalValueAppend(s: string, i: nat)
    requires i < |s| && AllDigits(s[..i + 1])
    ensures AllDigits(s[..i])
    ensures DecimalValue(s[..i + 1]) == 10 * DecimalValue(s[..i]) + DigitValue(s[i])
  {
    assert s[..i + 1][..i] == s[..i];
  }

  /** A longer digit prefix never has a smaller value. */
  lemma {:induction false} DecimalValueMonotone(ds: string, j: nat)
    requires AllDigits(ds) && j <= |ds|
    ensures AllDigits(ds[..j])
    ensures DecimalValue(ds[..j]) <= DecimalValue(ds)
  {
    if j < |ds| {
      var init := ds[..|ds| - 1];
      assert init[..j] == ds[..j];
      DecimalValueMonotone(init, j);
    } else {
      assert ds[..j] == ds;
    }
  }

  /** ParseUint's loop, from any point inside the leading digit run, ends in
      a range error when that run's value exceeds MaxUint64, else in a syntax
      error when a non-digit follows it, else in the value of the string. */
  lemma {:induction false} ScanUintMeaning(s: string, i: nat, n: nat)
    requires i <= FirstNonDigit(s)
    requires AllDigits(s[..i]) && n == DecimalValue(s[..i]) && n <= MaxUint64
    ensures var k := FirstNonDigit(s);
      ScanUint(s, i, n) ==
        if DecimalValue(s[..k]) > MaxUint64 then Err(ErrRange)
        else if k < |s| then Err(ErrSyntax)
        else Ok(DecimalValue(s))
    decreases |s| - i
  {
    var k := FirstNonDigit(s);
    if i == |s| {
      assert s[..i] == s;
    } else if !IsDigit(s[i]) {
      assert k == i;
    } else {
      assert i < k;
      DecimalValueAppend(s, i);
      DecimalValueMonotone(s[..k], i + 1);
      assert s[..k][..i + 1] == s[..i + 1];
      var n1 := n * 10 + DigitValue(s[i]);
      if n < Cutoff10 && n1 <= MaxUint64 {
        ScanUintMeaning(s, i + 1, n1);
      }
    }
  }

  /** ParseUint in terms of the leading digit run of its input. */
  lemma ParseUintMeaning(s: string)
    ensures var k := FirstNonDigit(s);
      ParseUint(s) ==
        if s == "" then Err(ErrSyntax)
        else if DecimalValue(s[..k]) > MaxUint64 then Err(ErrRange)
        else if k < |s| then Err(ErrSyntax)
        else Ok(DecimalValue(s))
  {
    if s != "" {
      ScanUintMeaning(s, 0, 0);
    }
  }

  /** ParseInt succeeds exactly on optionally signed decimal strings whose
      value fits in an int64, and then returns that value. */
  lemma ParseIntAccepts(s: string)
    ensures ParseInt(s).Ok? <==> IsDecimal(s) && MinInt64 <= SignedValue(s) <= MaxInt64
    ensures ParseInt(s).Ok? ==> ParseInt(s).value == SignedValue(s)
  {
    ParseUintMeaning(Unsigned(s));
    var body := Unsigned(s);
    if IsDecimal(s) {
      assert FirstNonDigit(body) == |body|;
      assert body[..|body|] == body;
    }
  }

  /** Every failure names the whole input, and is a syntax error exactly when
      the text is malformed before a digit run that already overflows uint64:
      an empty string, a bare sign, or a non-digit after a digit run that fits. */
  lemma ParseIntRejects(s: string)
    ensures ParseInt(s).Err? ==> ParseInt(s).error.NumericParseError? && ParseInt(s).error.num == s
    ensures var body := Unsigned(s); var k := FirstNonDigit(body);
      ParseInt(s) == Err(NumericParseError(s, ErrSyntax)) <==>
        body == "" || (k < |body| && DecimalValue(body[..k]) <= MaxUint64)
    ensures IsDecimal(s) && !(MinInt64 <= SignedValue(s) <= MaxInt64) ==>
      ParseInt(s) == Err(NumericParseError(s, ErrRange))
  {
    ParseUintMeaning(Unsigned(s));
    var body := Unsigned(s);
    if IsDecimal(s) {
      assert FirstNonDigit(body) == |body|;
      assert body[..|body|] == body;
    }
  }

  /** The decimal answer "21000" parses to 21000. */
  lemma ParseIntGasExample()
    ensures ParseInt("21000") == Ok(21000)
  {
    var s := "21000";
    assert Unsigned(s) == s;
    assert DecimalValue("2") == 2 by { assert "2"[..0] == ""; }
    assert DecimalValue("21") == 21 by { assert "21"[..1] == "2"; }
    assert DecimalValue("210") == 210 by { assert "210"[..2] == "21"; }
    assert DecimalValue("2100") == 2100 by { assert "2100"[..3] == "210"; }
    assert DecimalValue(s) == 21000 by { assert s[..4] == "2100"; }
    ParseIntAccepts(s);
  }

  /** A non-numeric answer is a syntax error naming the input. */
  lemma ParseIntNonNumericExample()
    ensures ParseInt("abc") == Err(NumericParseError("abc", ErrSyntax))
  {
    var s := "abc";
    assert Unsigned(s) == s;
    assert FirstNonDigit(s) == 0;
    ParseIntRejects(s);
  }
}
