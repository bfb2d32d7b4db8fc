/** How Python lists and numpy arrays read an index, and how many values a range yields. */
module Indexing {
  import opened Failures

  /** The position index i denotes in a sequence of length n: a negative index counts from the
      end, and an index outside [-n, n) raises IndexError. */
  function Resolve(i: int, n: nat): (r: Result<nat>)
    ensures r.Ok? <==> -(n as int) <= i < n
    ensures r.Err? ==> r.error == IndexOutOfRange(i, n)
    ensures r.Ok? ==> r.value < n
    ensures r.Ok? && 0 <= i ==> r.value == i
    ensures r.Ok? && i < 0 ==> r.value == n + i
  {
    if 0 <= i < n then Ok(i)
    else if -(n as int) <= i < 0 then Ok(n + i)
    else Err(IndexOutOfRange(i, n))
  }

  /** The number of values range(n) yields, and so the number of passes of a loop over it:
      n itself, and none at all when n is negative. range(1, n + 1) yields as many. */
  function RangeLength(n: int): (r: nat)
    ensures n >= 0 ==> r == n
    ensures n < 0 ==> r == 0
  {
    if n < 0 then 0 else n
  }
}
