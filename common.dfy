/** Small value types shared by the server and client models. */
module Common {
  datatype Option<T> = None | Some(value: T)
  {
    function GetOr(default: T): T
    {
      if Some? then value else default
    }
  }

  /** A tile coordinate, or any pair the source stores as `{ x, y }`. */
  datatype Point = Point(x: int, y: int)

  predicate NoDuplicates<T(==)>(s: seq<T>)
  {
    forall i, j :: 0 <= i < j < |s| ==> s[i] != s[j]
  }

  function Min(a: int, b: int): int
  {
    if a <= b then a else b
  }

  function Max(a: int, b: int): int
  {
    if a >= b then a else b
  }

  /** `Math.ceil(a / b)` for a positive divisor. */
  function CeilDiv(a: int, b: int): int
    requires b > 0
  {
    (a + b - 1) / b
  }

  /** JavaScript's `%`: the remainder takes the sign of the dividend. */
  function JsRem(a: int, b: int): int
    requires b > 0
  {
    if a >= 0 then a % b else -((-a) % b)
  }

  /** `i` written as `x + width * y` with `0 <= x < width` determines both parts. */
  lemma DivModUnique(width: int, x: int, y: int, i: int)
    requires 0 <= x < width && i == x + width * y
    ensures i % width == x && i / width == y
  {
    var q, r := i / width, i % width;
    assert width * (q - y) == x - r;
    if q > y {
      MulAtLeast(width, q - y);
    } else if q < y {
      MulAtLeast(width, y - q);
    }
  }

  lemma MulAtLeast(w: int, k: int)
    requires w > 0 && k >= 1
    ensures w * k >= w
  {
    assert w * k == w * (k - 1) + w;
    assert w * (k - 1) >= 0;
  }
}
