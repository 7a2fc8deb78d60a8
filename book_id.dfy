/**
 * The path-segment validator of api/routes/books.py: a book id in a URL path is
 * accepted only when it is a non-empty string of decimal digits, and is then read
 * as a decimal number; anything else is answered with 404 "Book not found".
 * Digits are the ASCII characters '0' to '9'. Python's `int()` refuses to convert
 * a string of more than 4300 digits (leading zeros included) and raises ValueError,
 * so a longer digit string passes the digit test and then fails the conversion.
 */
module BookId {
  import opened Wrappers

  /**
   * An exception raised while a request is handled: an HTTPException with its status
   * and detail message, or any other exception, named by its class.
   */
  datatype Raised = HttpException(status: int, detail: string) | Uncaught(name: string)

  const BookNotFound: Raised := HttpException(404, "Book not found")

  /** Python's default limit on the digits of a string-to-int conversion. */
  const MaxStrDigits: nat := 4300

  /** What `int()` raises on a digit string over the limit. */
  const IntTooLong: Raised := Uncaught("ValueError")

  predicate IsDigit(c: char)
  {
    '0' <= c <= '9'
  }

  /** The test `str.isdigit()` makes, restricted to ASCII: non-empty and digits only. */
  predicate IsDigits(s: string)
  {
    |s| > 0 && forall i :: 0 <= i < |s| ==> IsDigit(s[i])
  }

  function DigitValue(c: char): (d: nat)
    requires IsDigit(c)
    ensures d < 10
  {
    (c as int - '0' as int) as nat
  }

  function DigitChar(d: nat): (c: char)
    requires d < 10
    ensures IsDigit(c) && DigitValue(c) == d
  {
    ('0' as int + d) as char
  }

  /** The value `int()` gives a string of digits, read most significant digit first. */
  function DecimalValue(s: string): nat
    requires forall i :: 0 <= i < |s| ==> IsDigit(s[i])
  {
    if s == [] then 0 else DecimalValue(s[..|s| - 1]) * 10 + DigitValue(s[|s| - 1])
  }

  /** The decimal rendering of a natural number, as `str()` writes it: no leading zeros. */
  function Render(n: nat): (s: string)
    ensures IsDigits(s)
    ensures s[0] == '0' ==> n == 0 && s == "0"
  {
    if n < 10 then [DigitChar(n)] else Render(n / 10) + [DigitChar(n % 10)]
  }

  /** A run of k zero characters. */
  function Zeros(k: nat): (s: string)
    ensures |s| == k && forall i :: 0 <= i < k ==> s[i] == '0'
  {
    if k == 0 then [] else ['0'] + Zeros(k - 1)
  }

  /** The path ids validate_book_id turns into a number: digit strings `int()` will convert. */
  predicate IsBookId(s: string)
  {
    IsDigits(s) && |s| <= MaxStrDigits
  }

  /**
   * validate_book_id: a path id that is not a digit string is rejected with 404; a digit
   * string too long for `int()` raises ValueError; any other gives its decimal value.
   */
  function ValidateBookId(rawId: string): (r: Result<nat, Raised>)
    ensures r.Success? <==> IsBookId(rawId)
    ensures !IsDigits(rawId) ==> r == Failure(BookNotFound)
    ensures IsDigits(rawId) && |rawId| > MaxStrDigits ==> r == Failure(IntTooLong)
  {
    if !IsDigits(rawId) then Failure(BookNotFound)
    else if |rawId| > MaxStrDigits then Failure(IntTooLong)
    else Success(DecimalValue(rawId))
  }

  /** A character that is not a digit anywhere in the path id makes it rejected with 404. */
  lemma RejectsNonDigit(rawId: string, i: nat)
    requires i < |rawId| && !IsDigit(rawId[i])
    ensures ValidateBookId(rawId) == Failure(BookNotFound)
  {
  }

  /** A digit string of more than 4300 characters is refused by the conversion, not by the digit test. */
  lemma RejectsOverlong(rawId: string)
    requires IsDigits(rawId) && |rawId| > MaxStrDigits
    ensures ValidateBookId(rawId) == Failure(IntTooLong)
  {
  }

  /** The empty path id is rejected. */
  lemma RejectsEmpty()
    ensures ValidateBookId("") == Failure(BookNotFound)
  {
  }

  /** A sign in front of the digits makes the id rejected: there are no negative ids. */
  lemma RejectsSigned(digits: string)
    ensures ValidateBookId("-" + digits) == Failure(BookNotFound)
    ensures ValidateBookId("+" + digits) == Failure(BookNotFound)
  {
    assert ("-" + digits)[0] == '-';
    assert ("+" + digits)[0] == '+';
  }

  /** Reading back the rendering of n gives n. */
  lemma {:induction false} DecimalValueOfRender(n: nat)
    ensures DecimalValue(Render(n)) == n
  {
    if n >= 10 {
      var p := Render(n / 10);
      var s := p + [DigitChar(n % 10)];
      assert s[..|s| - 1] == p;
      DecimalValueOfRender(n / 10);
    }
  }

  /**
   * Round trip: validating the decimal rendering of any natural number of at most 4300
   * digits gives it back; a longer rendering is refused by the conversion.
   */
  lemma ValidateRender(n: nat)
    ensures ValidateBookId(Render(n)) == if |Render(n)| <= MaxStrDigits then Success(n) else Failure(IntTooLong)
  {
    DecimalValueOfRender(n);
  }

  /** One leading zero does not change the decimal value. */
  lemma {:induction false} DecimalValueLeadingZero(s: string)
    requires forall i :: 0 <= i < |s| ==> IsDigit(s[i])
    ensures DecimalValue(['0'] + s) == DecimalValue(s)
  {
    var t := ['0'] + s;
    if s == [] {
      assert t[..|t| - 1] == [];
    } else {
      assert t[..|t| - 1] == ['0'] + s[..|s| - 1];
      DecimalValueLeadingZero(s[..|s| - 1]);
    }
  }

  /** Any number of leading zeros does not change the decimal value. */
  lemma {:induction false} DecimalValueLeadingZeros(k: nat, s: string)
    requires forall i :: 0 <= i < |s| ==> IsDigit(s[i])
    ensures DecimalValue(Zeros(k) + s) == DecimalValue(s)
  {
    if k > 0 {
      var u := Zeros(k - 1) + s;
      assert Zeros(k) + s == ['0'] + u;
      DecimalValueLeadingZeros(k - 1, s);
      DecimalValueLeadingZero(u);
    } else {
      assert Zeros(k) + s == s;
    }
  }

  /**
   * Padding a non-empty path id with leading zeros ("007" against "7") does not change the
   * outcome, except that the zeros count towards the conversion's 4300-digit limit.
   */
  lemma LeadingZerosIgnored(k: nat, s: string)
    requires s != []
    ensures ValidateBookId(Zeros(k) + s) ==
              if IsDigits(s) && k + |s| > MaxStrDigits then Failure(IntTooLong) else ValidateBookId(s)
  {
    var t := Zeros(k) + s;
    if IsDigits(s) {
      assert IsDigits(t) by {
        forall i | 0 <= i < |t| ensures IsDigit(t[i]) {
          if i >= k { assert t[i] == s[i - k]; }
        }
      }
      DecimalValueLeadingZeros(k, s);
    } else {
      var j :| 0 <= j < |s| && !IsDigit(s[j]);
      assert t[k + j] == s[j];
    }
  }

  /** A digit string that starts with a non-zero digit has a positive value. */
  lemma {:induction false} LeadingNonZeroPositive(s: string)
    requires IsDigits(s) && s[0] != '0'
    ensures DecimalValue(s) > 0
  {
    if |s| > 1 {
      var p := s[..|s| - 1];
      assert p[0] == s[0];
      LeadingNonZeroPositive(p);
    }
  }

  /** A digit string without leading zeros (or the single "0") is the rendering of its value. */
  lemma {:induction false} RenderDecimalValue(s: string)
    requires IsDigits(s) && (|s| == 1 || s[0] != '0')
    ensures Render(DecimalValue(s)) == s
  {
    var c := s[|s| - 1];
    if |s| == 1 {
      assert s[..0] == [];
      assert s == [c];
      assert DigitChar(DigitValue(c)) == c;
    } else {
      var p := s[..|s| - 1];
      assert p[0] == s[0];
      LeadingNonZeroPositive(p);
      RenderDecimalValue(p);
      var n := DecimalValue(s);
      assert n == DecimalValue(p) * 10 + DigitValue(c);
      assert n / 10 == DecimalValue(p) && n % 10 == DigitValue(c);
      assert DigitChar(DigitValue(c)) == c;
      assert s == p + [c];
    }
  }

  /**
   * Every accepted path id is the canonical rendering of its value, padded with leading
   * zeros; with LeadingZerosIgnored and ValidateRender this characterises the accepted ids.
   */
  lemma {:induction false} AcceptedIsPaddedRendering(rawId: string, n: nat)
    requires ValidateBookId(rawId) == Success(n)
    ensures |Render(n)| <= |rawId|
    ensures rawId == Zeros(|rawId| - |Render(n)|) + Render(n)
  {
    if |rawId| == 1 || rawId[0] != '0' {
      RenderDecimalValue(rawId);
      assert Zeros(0) == [];
    } else {
      var rest := rawId[1..];
      assert rawId == ['0'] + rest;
      assert IsDigits(rest) by {
        forall i | 0 <= i < |rest| ensures IsDigit(rest[i]) { assert rest[i] == rawId[i + 1]; }
      }
      DecimalValueLeadingZero(rest);
      AcceptedIsPaddedRendering(rest, n);
      var k := |rest| - |Render(n)|;
      assert Zeros(k + 1) == ['0'] + Zeros(k);
    }
  }
}
