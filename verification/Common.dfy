/** Small shared vocabulary: optional values, results, and Python's `round`. */
module Common {

  datatype Option<+T> = None | Some(value: T)
  {
    function GetOr(default: T): T { if Some? then value else default }
  }

  datatype Result<+T> = Ok(value: T) | Err(error: Error)

  /** The exception classes the modelled code raises. */
  datatype Error = ValueError | FileExistsError | FileNotFoundError | KeyError | IntegrityError | OverflowError

  function Max(a: int, b: int): int { if a < b then b else a }

  function Min(a: int, b: int): int { if a < b then a else b }

  function Abs(a: int): int { if a < 0 then -a else a }

  /** `round(n / d)` in exact arithmetic: the nearest integer, ties to the even one. */
  function RoundDiv(n: int, d: int): (r: int)
    requires d > 0
    ensures -d <= 2 * (d * r - n) <= d
    ensures 2 * Abs(d * r - n) == d ==> r % 2 == 0
    ensures n >= 0 ==> r >= 0
  {
    var q, rest := n / d, n % d;
    assert n == d * q + rest && d * (q + 1) == d * q + d by { Division(n, d); }
    assert n >= 0 ==> q >= 0 by { Division(n, d); }
    if 2 * rest < d || (2 * rest == d && q % 2 == 0) then q else q + 1
  }

  lemma Division(n: int, d: int)
    requires d > 0
    ensures n == d * (n / d) + n % d
    ensures d * (n / d + 1) == d * (n / d) + d
    ensures n >= 0 ==> n / d >= 0
  {
  }
}
