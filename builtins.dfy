/** The few Python built-ins the two drivers rely on, stated exactly:
    the exceptions they raise, `max(lo, min(hi, x))` clamping, `int()`
    on a float, and list indexing. */
module Builtins {

  /** The exceptions raised by the drivers (or by Python underneath them). */
  datatype Error =
    | ValueError(message: string)
    | TypeError(message: string)
    | IndexError
    | ZeroDivisionError

  datatype Option<T> = None | Some(value: T)

  /** A call either returns a value or raises an `Error`. */
  datatype Result<T> = Ok(value: T) | Err(error: Error)

  /** `max(lo, min(hi, x))` on floats: the point of [lo, hi] nearest to `x`. */
  function Clamp(lo: real, hi: real, x: real): (r: real)
    requires lo <= hi
    ensures lo <= r <= hi
    ensures lo <= x <= hi ==> r == x
    ensures x < lo ==> r == lo
    ensures hi < x ==> r == hi
  {
    var m := if x < hi then x else hi;
    if lo < m then m else lo
  }

  /** Clamping never reverses the order of two points. */
  lemma ClampMonotone(lo: real, hi: real, x: real, y: real)
    requires lo <= hi && x <= y
    ensures Clamp(lo, hi, x) <= Clamp(lo, hi, y)
  {
  }

  /** Dividing by a positive number keeps the order. */
  lemma DivideMonotone(x: real, y: real, d: real)
    requires x <= y && d > 0.0
    ensures x / d <= y / d
  {
  }

  /** `max(lo, min(hi, n))` on integers. Python's `min` and `max` serve both
      floats and ints; Dafny's `real` and `int` are distinct types, so the
      duty clamp on integers has its own copy of the definition. */
  function ClampInt(lo: int, hi: int, n: int): (r: int)
    requires lo <= hi
    ensures lo <= r <= hi
    ensures lo <= n <= hi ==> r == n
    ensures n < lo ==> r == lo
    ensures hi < n ==> r == hi
  {
    var m := if n < hi then n else hi;
    if lo < m then m else lo
  }

  /** Python's `int(x)` on a float: the integer nearest to `x` on the side of zero. */
  function Trunc(x: real): (n: int)
    ensures 0.0 <= x ==> 0 <= n && n as real <= x < n as real + 1.0
    ensures x < 0.0 ==> n <= 0 && n as real - 1.0 < x <= n as real
  {
    if 0.0 <= x then x.Floor else -((-x).Floor)
  }

  /** `int()` is monotone, although it rounds the two signs in opposite directions. */
  lemma TruncMonotone(x: real, y: real)
    requires x <= y
    ensures Trunc(x) <= Trunc(y)
  {
  }

  /** Python's `s[i]` on a list: a negative `i` counts from the end, and an
      index outside `-len(s) .. len(s) - 1` raises `IndexError`. */
  function Index<T>(s: seq<T>, i: int): (r: Result<T>)
    ensures r.Ok? <==> -|s| <= i < |s|
    ensures r.Err? ==> r.error == IndexError
    ensures r.Ok? && 0 <= i ==> r.value == s[i]
    ensures r.Ok? && i < 0 ==> r.value == s[|s| + i]
  {
    if -|s| <= i < |s| then Ok(s[i % |s|]) else Err(IndexError)
  }
}
