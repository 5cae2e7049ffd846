/**
  The COLIN allocator client (`get_next_corp_num`): the POST to the allocator is an
  input, and the identifier is the business type followed by the number formatted as
  Python's `f'{n:07d}'` does.
 */
module CorpNumber {
  import opened Wrappers
  import opened PyJson

  /** What `requests.post` to the allocator produced. */
  datatype AllocatorReply =
    | ConnectionFailed   // requests.exceptions.ConnectionError, caught
    | RequestFailed      // any other request exception, not caught
    | Response(status: int, corpNum: Result<int, PyError>)
      // corpNum: what `int(resp.json()['corpNum'])` evaluates to, or the exception it raises

  const MaxCorpNum := 9999999

  predicate IsDigit(c: char) {
    '0' <= c <= '9'
  }

  predicate AllDigits(s: string) {
    forall i :: 0 <= i < |s| ==> IsDigit(s[i])
  }

  function DigitChar(d: int): (c: char)
    requires 0 <= d < 10
    ensures IsDigit(c) && c as int - '0' as int == d
  {
    ('0' as int + d) as char
  }

  /** Decimal digits of `n` without leading zeros. */
  function Digits(n: nat): (s: string)
    ensures |s| >= 1 && AllDigits(s)
    decreases n
  {
    if n < 10 then [DigitChar(n)] else Digits(n / 10) + [DigitChar(n % 10)]
  }

  /** The number a string of decimal digits denotes. */
  function Value(s: string): nat
    requires AllDigits(s)
  {
    if s == [] then 0 else Value(s[..|s| - 1]) * 10 + (s[|s| - 1] as int - '0' as int)
  }

  function Pow10(k: nat): (p: nat)
    ensures p >= 1
  {
    if k == 0 then 1 else 10 * Pow10(k - 1)
  }

  function Zeros(k: nat): (z: string)
    ensures |z| == k && AllDigits(z)
  {
    seq(k, _ => '0')
  }

  /** `s` padded on the left with zeros to at least `width` characters. */
  function ZeroPad(s: string, width: nat): string {
    if |s| >= width then s else Zeros(width - |s|) + s
  }

  /** Python's `f'{n:07d}'`: sign-aware zero padding to a width of 7, sign included. */
  function Format07d(n: int): string {
    if n >= 0 then ZeroPad(Digits(n), 7) else "-" + ZeroPad(Digits(-n), 6)
  }

  /** `get_next_corp_num(business_type)` given the allocator's reply: an identifier, None, or the exception that escapes. */
  function NextCorpNum(businessType: string, reply: AllocatorReply): Result<Option<string>, PyError> {
    match reply
    case ConnectionFailed => Ok(None)
    case RequestFailed => Err(RequestError)
    case Response(status, corpNum) =>
      if status != 200 then Ok(None)
      else match corpNum
        case Err(e) => Err(e)
        case Ok(n) => if n != 0 && n <= MaxCorpNum then Ok(Some(businessType + Format07d(n))) else Ok(None)
  }

  lemma {:induction false} ValueOfDigits(n: nat)
    ensures Value(Digits(n)) == n
    decreases n
  {
    if n >= 10 {
      ValueOfDigits(n / 10);
      var s := Digits(n);
      assert s[..|s| - 1] == Digits(n / 10);
    }
  }

  lemma {:induction false} DigitsLength(n: nat, k: nat)
    requires k >= 1 && n < Pow10(k)
    ensures |Digits(n)| <= k
    decreases n
  {
    if n >= 10 {
      DigitsLength(n / 10, k - 1);
    }
  }

  lemma {:induction false} ValueOfZeros(k: nat)
    ensures Value(Zeros(k)) == 0
  {
    if k > 0 {
      assert Zeros(k)[..k - 1] == Zeros(k - 1);
      ValueOfZeros(k - 1);
    }
  }

  /** Leading zeros do not change the number a digit string denotes. */
  lemma {:induction false} ValueIgnoresLeadingZeros(k: nat, s: string)
    requires AllDigits(s)
    ensures AllDigits(Zeros(k) + s) && Value(Zeros(k) + s) == Value(s)
    decreases |s|
  {
    var t := Zeros(k) + s;
    if s == [] {
      assert t == Zeros(k);
      ValueOfZeros(k);
    } else {
      assert t[..|t| - 1] == Zeros(k) + s[..|s| - 1];
      ValueIgnoresLeadingZeros(k, s[..|s| - 1]);
    }
  }

  /** A number in 0..9999999 formats as exactly seven digits that read back as the number. */
  lemma Format07dOfSmall(n: int)
    requires 0 <= n <= MaxCorpNum
    ensures |Format07d(n)| == 7 && AllDigits(Format07d(n))
    ensures Value(Format07d(n)) == n
  {
    assert Pow10(7) == 10000000;
    DigitsLength(n, 7);
    ValueOfDigits(n);
    var d := Digits(n);
    if |d| < 7 {
      ValueIgnoresLeadingZeros(7 - |d|, d);
    }
  }

  /**
    A 200 reply carrying 0 < n <= 9999999 gives the business type followed by n
    zero-padded to exactly seven digits: the identifier has |type| + 7 characters
    and its last seven read back as n.
   */
  lemma AllocatedIdentifier(businessType: string, n: int)
    requires 0 < n <= MaxCorpNum
    ensures NextCorpNum(businessType, Response(200, Ok(n))).Ok?
    ensures var id := NextCorpNum(businessType, Response(200, Ok(n))).value;
      && id.Some?
      && |id.value| == |businessType| + 7
      && id.value[..|businessType|] == businessType
      && AllDigits(id.value[|businessType|..])
      && Value(id.value[|businessType|..]) == n
  {
    Format07dOfSmall(n);
    var id := businessType + Format07d(n);
    assert id[..|businessType|] == businessType;
    assert id[|businessType|..] == Format07d(n);
  }

  /** Two different numbers never give the same identifier for one business type. */
  lemma AllocatedIdentifiersDistinct(businessType: string, m: int, n: int)
    requires 0 < m <= MaxCorpNum && 0 < n <= MaxCorpNum && m != n
    ensures NextCorpNum(businessType, Response(200, Ok(m))) != NextCorpNum(businessType, Response(200, Ok(n)))
  {
    AllocatedIdentifier(businessType, m);
    AllocatedIdentifier(businessType, n);
  }

  /**
    No identifier comes back exactly when the connection fails, the status is not 200,
    or the number is 0 or above 9999999; a reply whose body yields no integer, or any
    other request failure, raises instead.
   */
  lemma NoIdentifierCases(businessType: string, reply: AllocatorReply)
    ensures NextCorpNum(businessType, reply) == Ok(None) <==>
      || reply.ConnectionFailed?
      || (reply.Response? && reply.status != 200)
      || (reply.Response? && reply.status == 200 && reply.corpNum.Ok?
          && (reply.corpNum.value == 0 || reply.corpNum.value > MaxCorpNum))
    ensures NextCorpNum(businessType, reply).Err? <==>
      reply.RequestFailed? || (reply.Response? && reply.status == 200 && reply.corpNum.Err?)
  {
  }

  /** An identifier, whenever one is returned, starts with the business type and is non-empty. */
  lemma IdentifierHasTypePrefix(businessType: string, reply: AllocatorReply)
    requires NextCorpNum(businessType, reply).Ok? && NextCorpNum(businessType, reply).value.Some?
    ensures var id := NextCorpNum(businessType, reply).value.value;
      |id| > |businessType| && id[..|businessType|] == businessType
  {
    var n := reply.corpNum.value;
    var id := businessType + Format07d(n);
    assert id[..|businessType|] == businessType;
  }

  /** The worked example: type BC with number 42 gives BC0000042, and 10000000 gives nothing. */
  lemma ExampleIdentifiers()
    ensures NextCorpNum("BC", Response(200, Ok(42))) == Ok(Some("BC0000042"))
    ensures NextCorpNum("BC", Response(200, Ok(10000000))) == Ok(None)
  {
    assert DigitChar(4) == '4' && DigitChar(2) == '2';
    assert Digits(42) == Digits(4) + [DigitChar(2)] == "42";
    assert Zeros(5) == "00000";
    assert Format07d(42) == "00000" + "42" == "0000042";
    assert "BC" + Format07d(42) == "BC0000042";
  }

  /** A number in -999999..-1 formats as a minus sign and six digits that read back as its magnitude. */
  lemma Format07dOfNegative(n: int)
    requires -(MaxCorpNum / 10) <= n < 0
    ensures |Format07d(n)| == 7 && Format07d(n)[0] == '-'
    ensures AllDigits(Format07d(n)[1..]) && Value(Format07d(n)[1..]) == -n
  {
    assert Pow10(6) == 1000000;
    DigitsLength(-n, 6);
    ValueOfDigits(-n);
    var d := Digits(-n);
    if |d| < 6 {
      ValueIgnoresLeadingZeros(6 - |d|, d);
    }
    assert Format07d(n)[1..] == ZeroPad(d, 6);
  }

  /**
    As written, the guard at line 48 lets every negative number through: for -999999..-1
    the identifier is the type, a minus sign, and six digits that read back as -n.
   */
  lemma NegativeNumbersAccepted(businessType: string, n: int)
    requires -(MaxCorpNum / 10) <= n < 0
    ensures NextCorpNum(businessType, Response(200, Ok(n))) == Ok(Some(businessType + Format07d(n)))
    ensures var id := businessType + Format07d(n);
      && |id| == |businessType| + 7
      && id[|businessType|] == '-'
      && AllDigits(id[|businessType| + 1..])
      && Value(id[|businessType| + 1..]) == -n
  {
    Format07dOfNegative(n);
    var id := businessType + Format07d(n);
    assert id[|businessType| + 1..] == Format07d(n)[1..];
  }

  /** As written, the guard lets a negative number through; it is formatted with its sign. */
  lemma NegativeNumberAccepted()
    ensures NextCorpNum("BC", Response(200, Ok(-5))) == Ok(Some("BC-000005"))
  {
    assert DigitChar(5) == '5';
    assert Digits(5) == "5";
    assert Zeros(5) == "00000";
    assert Format07d(-5) == "-" + ("00000" + "5") == "-000005";
    assert "BC" + Format07d(-5) == "BC-000005";
  }
}
