/** Values shared by the whole model: optional and failing results, record ids,
    JavaScript truthiness of strings, and the decimal rendering that template
    literals and String(n) perform on natural numbers. */
module Common {

  /** A value that may be missing (JavaScript's null or undefined). */
  datatype Option<+T> = None | Some(value: T) {
    /** `x || fallback` and `x ?? fallback` on a possibly missing value. */
    function GetOr(fallback: T): T {
      match this
      case Some(v) => v
      case None => fallback
    }
  }

  /** An operation that either succeeds with a value or fails with an error. */
  datatype Result<+R, +E> = Success(value: R) | Failure(error: E)

  /** Record ids as the REST API hands them out. */
  type Id = string

  /** JavaScript truthiness of a possibly missing string: null, undefined and "" are falsy. */
  predicate Truthy(s: Option<string>) {
    s.Some? && s.value != ""
  }

  predicate IsDigitChar(c: char) {
    '0' <= c <= '9'
  }

  predicate AllDigits(s: string) {
    forall i :: 0 <= i < |s| ==> IsDigitChar(s[i])
  }

  function DigitChar(d: nat): (c: char)
    requires d < 10
    ensures IsDigitChar(c) && c as int - '0' as int == d
  {
    ('0' as int + d) as char
  }

  /** The decimal text of `n`, without leading zeros. */
  function Show(n: nat): (s: string)
    ensures |s| >= 1 && AllDigits(s)
    ensures |s| > 1 ==> s[0] != '0'
    decreases n
  {
    if n < 10 then [DigitChar(n)] else Show(n / 10) + [DigitChar(n % 10)]
  }

  /** The number a string of decimal digits denotes. */
  function ParseDecimal(s: string): nat
    requires AllDigits(s)
    decreases |s|
  {
    if s == [] then 0
    else ParseDecimal(s[..|s| - 1]) * 10 + (s[|s| - 1] as int - '0' as int)
  }

  /** Reading back the text of a number gives the number. */
  lemma {:induction false} ParseShow(n: nat)
    ensures ParseDecimal(Show(n)) == n
    decreases n
  {
    if n >= 10 {
      var s := Show(n);
      assert s[..|s| - 1] == Show(n / 10);
      ParseShow(n / 10);
    }
  }

  /** Distinct numbers have distinct texts. */
  lemma ShowInjective(m: nat, n: nat)
    requires m != n
    ensures Show(m) != Show(n)
  {
    ParseShow(m);
    ParseShow(n);
  }

  /** The decimal text of an integer, with a leading '-' when negative. */
  function ShowInt(i: int): (s: string)
    ensures |s| >= 1
  {
    if i < 0 then "-" + Show(-i) else Show(i)
  }
}
