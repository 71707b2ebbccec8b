/** getGoId: the execution-unit key recovered from the header line of the
    current goroutine's stack trace ("goroutine 17 [running]:\n..."). */
module GoId {
  import opened Outcomes
  import opened GoStrings

  const MaxUint64: nat := 18446744073709551615
  /** strconv's overflow threshold for base 10: maxUint64 / 10 + 1. */
  const Cutoff: nat := MaxUint64 / 10 + 1
  /** runtime.Stack copies at most this many bytes into the buffer getGoId allocates. */
  const StackBufferSize: nat := 64
  const GoroutinePrefix: string := "goroutine "

  /** The value of a digit string read left to right from the accumulator
      `acc`, with unbounded arithmetic. */
  function DecimalFold(acc: nat, s: string): nat
    requires forall k :: 0 <= k < |s| ==> IsDigit(s[k])
    decreases |s|
  {
    if s == [] then acc else DecimalFold(acc * 10 + DigitValue(s[0]), s[1..])
  }

  /** The digit loop of strconv.ParseUint(s, 10, 64) from accumulator `n`:
      a non-digit gives 0 (syntax error), an overflow gives maxUint64 (range
      error), whichever the scan reaches first. */
  function ParseDigits(s: string, n: nat): (r: nat)
    requires n <= MaxUint64
    ensures r <= MaxUint64
  {
    if s == [] then n
    else if !IsDigit(s[0]) then 0
    else if n >= Cutoff then MaxUint64
    else
      var n1 := n * 10 + DigitValue(s[0]);
      if n1 > MaxUint64 then MaxUint64 else ParseDigits(s[1..], n1)
  }

  /** strconv.ParseUint(s, 10, 64) with its error dropped, as getGoId does. */
  function ParseUint(s: string): (r: nat)
    ensures r <= MaxUint64
    ensures s == [] ==> r == 0
  {
    if s == [] then 0 else ParseDigits(s, 0)
  }

  /** getGoId on the text of the current stack trace. Slicing at the result
      of IndexByte panics when no space follows the prefix within the first
      64 bytes. */
  function GetGoId(stack: string): (r: Result<nat>)
    ensures r.Ok? ==> r.value <= MaxUint64
  {
    var b := if |stack| <= StackBufferSize then stack else stack[..StackBufferSize];
    var b1 := TrimPrefix(b, GoroutinePrefix);
    var i := IndexByte(b1, ' ');
    if i == -1 then Panic("slice bounds out of range [:-1]") else Ok(ParseUint(b1[..i]))
  }

  lemma {:induction false} DecimalFoldAtLeast(acc: nat, s: string)
    requires forall k :: 0 <= k < |s| ==> IsDigit(s[k])
    ensures DecimalFold(acc, s) >= acc
    ensures |s| >= 1 ==> DecimalFold(acc, s) >= acc * 10
    decreases |s|
  {
    if s != [] {
      DecimalFoldAtLeast(acc * 10 + DigitValue(s[0]), s[1..]);
    }
  }

  /** While the value fits in 64 bits, the parser computes the exact value. */
  lemma {:induction false} ParseDigitsExact(s: string, n: nat)
    requires n <= MaxUint64
    requires forall k :: 0 <= k < |s| ==> IsDigit(s[k])
    requires DecimalFold(n, s) <= MaxUint64
    ensures ParseDigits(s, n) == DecimalFold(n, s)
    decreases |s|
  {
    if s != [] {
      var n1 := n * 10 + DigitValue(s[0]);
      DecimalFoldAtLeast(n1, s[1..]);
      DecimalFoldAtLeast(n, s);
      ParseDigitsExact(s[1..], n1);
    }
  }

  lemma {:induction false} DecimalFoldSnoc(acc: nat, s: string, c: char)
    requires forall k :: 0 <= k < |s| ==> IsDigit(s[k])
    requires IsDigit(c)
    ensures DecimalFold(acc, s + [c]) == DecimalFold(acc, s) * 10 + DigitValue(c)
    decreases |s|
  {
    if s == [] {
    } else {
      assert (s + [c])[1..] == s[1..] + [c];
      DecimalFoldSnoc(acc * 10 + DigitValue(s[0]), s[1..], c);
    }
  }

  lemma {:induction false} FormatNatValue(n: nat)
    ensures DecimalFold(0, FormatNat(n)) == n
  {
    if n >= 10 {
      FormatNatValue(n / 10);
      DecimalFoldSnoc(0, FormatNat(n / 10), DigitChar(n % 10));
    }
  }

  /** Round trip: ParseUint reads back the decimal text of any uint64. */
  lemma ParseFormatRoundTrip(n: nat)
    requires n <= MaxUint64
    ensures ParseUint(FormatNat(n)) == n
  {
    FormatNatValue(n);
    ParseDigitsExact(FormatNat(n), 0);
  }

  /** A field whose scan meets a non-digit before any overflow parses to 0. */
  lemma {:induction false} ParseDigitsNonDigit(s: string, n: nat, k: nat)
    requires n <= MaxUint64
    requires k < |s| && !IsDigit(s[k])
    requires forall j :: 0 <= j < k ==> IsDigit(s[j])
    requires DecimalFold(n, s[..k]) <= MaxUint64
    ensures ParseDigits(s, n) == 0
    decreases k
  {
    if k > 0 {
      var n1 := n * 10 + DigitValue(s[0]);
      assert s[..k][1..] == s[1..][..k - 1];
      DecimalFoldAtLeast(n1, s[1..][..k - 1]);
      DecimalFoldAtLeast(n, s[..k]);
      ParseDigitsNonDigit(s[1..], n1, k - 1);
    }
  }

  /** A decimal number of at most 20 digits fits the 64-byte header buffer. */
  lemma {:induction false} FormatNatLength(n: nat, bound: nat, digits: nat)
    requires n < bound && bound <= Pow10(digits) && digits >= 1
    ensures |FormatNat(n)| <= digits
    decreases digits
  {
    if n >= 10 {
      assert n / 10 < Pow10(digits - 1);
      assert digits >= 2;
      FormatNatLength(n / 10, Pow10(digits - 1), digits - 1);
    }
  }

  function Pow10(k: nat): (r: nat)
    ensures r >= 1
  {
    if k == 0 then 1 else 10 * Pow10(k - 1)
  }

  /** A header "goroutine <field> ..." that fits the buffer yields the
      parse of its id field. */
  lemma GetGoIdField(field: string, rest: string)
    requires ' ' !in field
    requires |GoroutinePrefix| + |field| < StackBufferSize
    ensures GetGoId(GoroutinePrefix + field + " " + rest) == Ok(ParseUint(field))
  {
    var stack := GoroutinePrefix + field + " " + rest;
    var b := if |stack| <= StackBufferSize then stack else stack[..StackBufferSize];
    var tail := b[|GoroutinePrefix| + |field| + 1..];
    TrimmedHeader(GoroutinePrefix, field, rest, StackBufferSize);
    IndexByteAfter(field, ' ', tail);
    assert (field + [' '] + tail)[..|field|] == field;
  }

  /** Truncating a header to the buffer and trimming the prefix leaves the
      field, its space and what of the rest fits. */
  lemma TrimmedHeader(prefix: string, field: string, rest: string, limit: nat)
    requires |prefix| + |field| < limit
    ensures var stack := prefix + field + " " + rest;
      var b := if |stack| <= limit then stack else stack[..limit];
      TrimPrefix(b, prefix) == field + [' '] + b[|prefix| + |field| + 1..]
  {
    var stack := prefix + field + " " + rest;
    var head := prefix + field + " ";
    var b := if |stack| <= limit then stack else stack[..limit];
    assert b == head + b[|head|..];
    assert b[..|prefix|] == prefix;
    assert b[|prefix|..] == field + [' '] + b[|head|..];
  }

  /** getGoId reads the goroutine number of a well-formed header back. */
  lemma GetGoIdHeader(n: nat, rest: string)
    requires n <= MaxUint64
    ensures GetGoId(GoroutinePrefix + FormatNat(n) + " " + rest) == Ok(n)
  {
    assert Pow10(10) == 10000000000;
    assert Pow10(20) == 100000000000000000000;
    FormatNatLength(n, MaxUint64 + 1, 20);
    assert ' ' !in FormatNat(n) by {
      assert !IsDigit(' ');
    }
    GetGoIdField(FormatNat(n), rest);
    ParseFormatRoundTrip(n);
  }

  /** The header of a running goroutine, as runtime.Stack prints it. */
  lemma GetGoIdExample()
    ensures GetGoId("goroutine 17 [running]:\nmain.main()") == Ok(17)
  {
    assert FormatNat(17) == "17";
    assert "goroutine 17 [running]:\nmain.main()" == GoroutinePrefix + FormatNat(17) + " " + "[running]:\nmain.main()";
    GetGoIdHeader(17, "[running]:\nmain.main()");
  }

  /** A header whose id field starts with a non-digit gives id 0. */
  lemma GetGoIdNonNumeric(field: string, rest: string)
    requires |field| >= 1 && !IsDigit(field[0]) && ' ' !in field
    requires |GoroutinePrefix| + |field| < StackBufferSize
    ensures GetGoId(GoroutinePrefix + field + " " + rest) == Ok(0)
  {
    GetGoIdField(field, rest);
    assert field[..0] == [];
    ParseDigitsNonDigit(field, 0, 0);
  }

  /** A header with no space after the prefix within the 64-byte buffer
      makes getGoId panic. */
  lemma GetGoIdNoSpacePanics(field: string)
    requires ' ' !in field
    requires |GoroutinePrefix| + |field| <= StackBufferSize
    ensures GetGoId(GoroutinePrefix + field).Panic?
  {
    var stack := GoroutinePrefix + field;
    assert stack[..|GoroutinePrefix|] == GoroutinePrefix;
    assert TrimPrefix(stack, GoroutinePrefix) == field;
  }

  /** A header whose id field runs past the 64-byte buffer with no space in
      it makes getGoId panic, whatever follows in the stack. */
  lemma GetGoIdLongFieldPanics(field: string, rest: string)
    requires ' ' !in field
    requires |GoroutinePrefix| + |field| >= StackBufferSize
    ensures GetGoId(GoroutinePrefix + field + rest).Panic?
  {
    var stack := GoroutinePrefix + field + rest;
    var kept := field[..StackBufferSize - |GoroutinePrefix|];
    var b := if |stack| <= StackBufferSize then stack else stack[..StackBufferSize];
    assert b == GoroutinePrefix + kept;
    assert b[..|GoroutinePrefix|] == GoroutinePrefix;
    assert TrimPrefix(b, GoroutinePrefix) == kept;
    assert ' ' !in kept;
  }

  /** Once the exact value of an all-digit field exceeds 64 bits, the parser
      saturates at maxUint64 (the range error that getGoId drops). */
  lemma {:induction false} ParseDigitsOverflow(s: string, n: nat)
    requires n <= MaxUint64
    requires forall k :: 0 <= k < |s| ==> IsDigit(s[k])
    requires DecimalFold(n, s) > MaxUint64
    ensures ParseDigits(s, n) == MaxUint64
  {
    if s == [] {
      assert false;
    } else if n < Cutoff {
      var n1 := n * 10 + DigitValue(s[0]);
      if n1 <= MaxUint64 {
        ParseDigitsOverflow(s[1..], n1);
      }
    }
  }

  /** strconv.ParseUint's overflow rule: a decimal field too large for 64
      bits parses to maxUint64. */
  lemma ParseUintOverflow(s: string)
    requires forall k :: 0 <= k < |s| ==> IsDigit(s[k])
    requires DecimalFold(0, s) > MaxUint64
    ensures ParseUint(s) == MaxUint64
  {
    ParseDigitsOverflow(s, 0);
  }

  /** strconv.Itoa's text reads back: a non-negative number is its decimal
      digits, which ParseUint turns back into it; a negative one is a '-'
      followed by the digits of its magnitude, which ParseUint rejects as a
      whole (0) and reads back after the sign. */
  lemma ItoaReadsBack(i: int)
    ensures 0 <= i <= MaxUint64 ==> ParseUint(Itoa(i)) == i
    ensures i < 0 ==> |Itoa(i)| >= 2 && Itoa(i)[0] == '-' && ParseUint(Itoa(i)) == 0
    ensures i < 0 && -i <= MaxUint64 ==> ParseUint(Itoa(i)[1..]) == -i
  {
    if 0 <= i <= MaxUint64 {
      ParseFormatRoundTrip(i);
    }
    if i < 0 {
      assert Itoa(i)[1..] == FormatNat(-i);
      if -i <= MaxUint64 {
        ParseFormatRoundTrip(-i);
      }
    }
  }
}
