/** struct timeval arithmetic, in place and with aliased arguments allowed. */
module Timeval {

  const MILLION: int := 1_000_000

  /** C integer division truncates toward zero. */
  function TruncDiv(a: int, b: int): int
    requires b > 0
  {
    if a >= 0 then a / b else -(-a / b)
  }

  function TruncMod(a: int, b: int): int
    requires b > 0
  {
    a - b * TruncDiv(a, b)
  }

  function Sign(a: int): int {
    if a < 0 then -1 else if a > 0 then 1 else 0
  }

  class Timeval {
    var sec: int
    var usec: int

    constructor (sec: int, usec: int)
      ensures this.sec == sec && this.usec == usec
    {
      this.sec, this.usec := sec, usec;
    }

    /** The time this value stands for, in microseconds. */
    ghost function Total(): int
      reads this
    {
      sec * MILLION + usec
    }

    ghost predicate Aligned()
      reads this
    {
      0 <= usec < MILLION
    }

    /** timeval_align: any signed input is brought to normal form without changing its time. */
    method Align()
      modifies this
      ensures Aligned() && Total() == old(Total())
      ensures old(Aligned()) ==> sec == old(sec) && usec == old(usec)
    {
      sec := sec + TruncDiv(usec, MILLION);
      usec := TruncMod(usec, MILLION);
      if usec < 0 {
        usec := MILLION + usec;
        sec := sec - 1;
      }
    }
  }

  /** timeval_comp: the sign of the true difference; x and y may be one object. */
  method Comp(x: Timeval, y: Timeval) returns (c: int)
    modifies x, y
    ensures c == Sign(old(x.Total()) - old(y.Total()))
    ensures x.Aligned() && y.Aligned()
    ensures x.Total() == old(x.Total()) && y.Total() == old(y.Total())
  {
    x.Align();
    y.Align();
    if x.sec < y.sec {
      c := -1;
    } else if x.sec > y.sec {
      c := 1;
    } else if x.usec < y.usec {
      c := -1;
    } else if x.usec > y.usec {
      c := 1;
    } else {
      c := 0;
    }
  }

  /**
   timeval_subtract: the exact difference when positive, else zero with flag 1, for every way
   the three arguments may coincide; an argument that is not the result keeps its time.
   */
  method Subtract(result: Timeval, x: Timeval, y: Timeval) returns (flag: int)
    modifies result, x, y
    ensures flag == if old(x.Total()) <= old(y.Total()) then 1 else 0
    ensures result.Aligned()
    ensures result.Total() == if flag == 1 then 0 else old(x.Total()) - old(y.Total())
    ensures x != result ==> x.Total() == old(x.Total())
    ensures y != result ==> y.Total() == old(y.Total())
  {
    var ret := Comp(x, y);
    if ret <= 0 {
      result.sec := 0;
      result.usec := 0;
      return 1;
    }
    if x.usec < y.usec {
      var nsec := TruncDiv(y.usec - x.usec, MILLION) + 1;
      y.usec := y.usec - MILLION * nsec;
      y.sec := y.sec + nsec;
    }
    assert x.Total() == old(x.Total()) && y.Total() == old(y.Total());
    result.sec := x.sec - y.sec;
    result.usec := x.usec - y.usec;
    result.Align();
    return 0;
  }
}
