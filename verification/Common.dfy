/** Small definitions shared by every module. */
module Common {

  datatype Option<+T> = None | Some(value: T) {
    function GetOr(default: T): T {
      if Some? then value else default
    }
  }

  datatype Result<+T, +E> = Ok(value: T) | Err(error: E)

  type Interval = real -> bool

  function Closed(from: real, to: real): Interval { t => from <= t <= to }

  /** Without the end point. */
  function HalfOpen(from: real, to: real): Interval { t => from <= t < to }

  function Min(a: int, b: int): int {
    if a <= b then a else b
  }

  function Max(a: int, b: int): int {
    if a >= b then a else b
  }

  /** The last `n` elements, or all of them when there are fewer. */
  function LastN<T>(s: seq<T>, n: nat): (r: seq<T>)
    ensures |r| == if |s| <= n then |s| else n
  {
    if |s| <= n then s else s[|s| - n..]
  }

  function FirstN<T>(s: seq<T>, n: nat): (r: seq<T>) {
    if |s| <= n then s else s[..n]
  }

  /** Python's `s[-limit:]`: zero selects everything, a negative limit drops a prefix. */
  function SliceFromEnd<T>(s: seq<T>, limit: int): seq<T> {
    if limit == 0 then s
    else if limit > 0 then LastN(s, limit)
    else if -limit >= |s| then [] else s[-limit..]
  }

  function Clamp(lo: int, hi: int, x: int): int {
    Max(lo, Min(hi, x))
  }
}
