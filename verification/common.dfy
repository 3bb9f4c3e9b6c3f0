/** Shared value types of the question-answering service: optional values,
    results of calls that may raise, the HTTP error a route raises, the
    exception kinds the routes distinguish, and the document chunk. */
module Common {

  datatype Option<+T> = None | Some(value: T)

  /** The outcome of a call that either returns a value or raises. */
  datatype Result<+T, +E> = Success(value: T) | Failure(error: E)

  /** The outcome of a call that returns nothing or raises. */
  datatype Outcome<+E> = Pass | Fail(error: E)

  /** An `HTTPException(status_code, detail)`. */
  datatype HttpError = HttpError(status: int, detail: string)

  /** The exception kinds the service tells apart; `Other` is any other
      exception class (a library failure, an interrupted call, ...). */
  datatype Exception =
    | FileNotFoundError(message: string)
    | ValueError(message: string)
    | Other(message: string)

  /** Document metadata; values are kept as their `str()` rendering. */
  type Metadata = map<string, string>

  /** A loaded page or a chunk of one: `page_content` and `metadata`. */
  datatype Doc = Doc(pageContent: string, metadata: Metadata)

  /** Python truthiness of an optional header: absent and "" are both false. */
  predicate Present(header: Option<string>)
  {
    header.Some? && header.value != ""
  }

  /** Python's `x or default` for an optional string argument. */
  function OrElse(x: Option<string>, default: string): (r: string)
    ensures Present(x) ==> r == x.value
    ensures !Present(x) ==> r == default
  {
    if Present(x) then x.value else default
  }

  /** The decimal digit `d` as a character. */
  function DigitChar(d: nat): (c: char)
    requires d < 10
    ensures '0' <= c <= '9' && c as int - '0' as int == d
  {
    (d + '0' as int) as char
  }

  /** `str(n)` for a non-negative integer: decimal, no leading zeros. */
  function NatToString(n: nat): (r: string)
    ensures |r| >= 1
    ensures forall c :: c in r ==> '0' <= c <= '9'
    ensures n >= 10 ==> |r| >= 2
    decreases n
  {
    if n < 10 then [DigitChar(n)] else NatToString(n / 10) + [DigitChar(n % 10)]
  }

  /** The number a string of decimal digits denotes (`int(s)`). */
  function DigitsValue(s: string): int
  {
    if s == [] then 0 else DigitsValue(s[..|s| - 1]) * 10 + (s[|s| - 1] as int - '0' as int)
  }

  /** `str(n)` reads back as `n`, and has no leading zero unless it is "0". */
  lemma {:induction false} NatToStringReadsBack(n: nat)
    ensures DigitsValue(NatToString(n)) == n
    ensures NatToString(n)[0] != '0' || n == 0
    decreases n
  {
    if n >= 10 {
      NatToStringReadsBack(n / 10);
      var s := NatToString(n);
      assert s[..|s| - 1] == NatToString(n / 10);
      assert s[0] == NatToString(n / 10)[0];
    }
  }

  /** `str(i)` for any integer. */
  function IntToString(i: int): string
  {
    if i < 0 then "-" + NatToString(-i) else NatToString(i)
  }

  /** Distinct numbers print differently. */
  lemma {:induction false} NatToStringInjective(a: nat, b: nat)
    requires NatToString(a) == NatToString(b)
    ensures a == b
    decreases a
  {
    var s := NatToString(a);
    if a < 10 && b < 10 {
      assert DigitChar(a) == s[0] == DigitChar(b);
    } else if a < 10 || b < 10 {
      assert false;
    } else {
      var n := |s|;
      assert DigitChar(a % 10) == s[n - 1] == DigitChar(b % 10);
      assert NatToString(a / 10) == s[..n - 1] == NatToString(b / 10);
      NatToStringInjective(a / 10, b / 10);
    }
  }
}
