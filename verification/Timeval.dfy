/** Time arithmetic of libpcp/src/pcp_utils.h.
    The functions work in place, and the timer loops call them with the result
    and an operand being the same object, so a time is an object here and no
    contract forbids aliasing. What a time means is its total in microseconds. */
module TimevalModel {

  import opened Types

  /** Division of C: the quotient is cut towards zero. */
  function CDiv(a: int, b: int): int
    requires b > 0
  {
    if a >= 0 then a / b else -((-a) / b)
  }

  function CRem(a: int, b: int): int
    requires b > 0
  {
    a - CDiv(a, b) * b
  }

  class Timeval {
    var sec: int
    var usec: int

    constructor (s: int, u: int)
      ensures sec == s && usec == u
    {
      sec, usec := s, u;
    }

    ghost function Total(): int
      reads this
    {
      sec * SECOND + usec
    }

    ghost predicate Normal()
      reads this
    {
      0 <= usec < SECOND
    }

    /** timeval_align: the same instant, with the microseconds in range. */
    method Align()
      modifies this
      ensures Normal() && Total() == old(Total())
      ensures old(Normal()) ==> sec == old(sec) && usec == old(usec)
    {
      sec := sec + CDiv(usec, SECOND);
      usec := CRem(usec, SECOND);
      if usec < 0 {
        usec := SECOND + usec;
        sec := sec - 1;
      }
    }
  }

  /** timeval_comp: the sign of x - y; both operands are normalised on the way. */
  method Compare(x: Timeval, y: Timeval) returns (r: int)
    modifies x, y
    ensures x.Normal() && y.Normal()
    ensures x.Total() == old(x.Total()) && y.Total() == old(y.Total())
    ensures r == -1 || r == 0 || r == 1
    ensures r < 0 <==> old(x.Total()) < old(y.Total())
    ensures r == 0 <==> old(x.Total()) == old(y.Total())
  {
    x.Align();
    y.Align();
    if x.sec < y.sec {
      return -1;
    } else if x.sec > y.sec {
      return 1;
    } else if x.usec < y.usec {
      return -1;
    } else if x.usec > y.usec {
      return 1;
    } else {
      return 0;
    }
  }

  /** timeval_subtract, for every aliasing of its three arguments: 1 and a zero
      result exactly when x is not after y, else 0 and the normalised x - y.
      An operand that is not the result still denotes the same instant. */
  method Subtract(result: Timeval, x: Timeval, y: Timeval) returns (r: int)
    modifies result, x, y
    ensures r == 1 || r == 0
    ensures r == 1 <==> old(x.Total()) <= old(y.Total())
    ensures r == 1 ==> result.sec == 0 && result.usec == 0
    ensures r == 0 ==> result.Normal() && result.Total() == old(x.Total()) - old(y.Total())
    ensures x != result ==> x.Total() == old(x.Total())
    ensures y != result ==> y.Total() == old(y.Total())
  {
    var ret := Compare(x, y);
    if ret <= 0 {
      result.sec := 0;
      result.usec := 0;
      return 1;
    }
    if x.usec < y.usec {
      var nsec := CDiv(y.usec - x.usec, SECOND) + 1;
      y.usec := y.usec - SECOND * nsec;
      y.sec := y.sec + nsec;
    }
    assert x != y && x.Total() == old(x.Total()) && y.Total() == old(y.Total());
    ghost var diff := x.Total() - y.Total();
    result.sec := x.sec - y.sec;
    result.usec := x.usec - y.usec;
    assert result.Total() == diff;
    result.Align();
    return 0;
  }

  /** The call of every timer loop: result and subtrahend are one object. What is
      left in it is the time still to wait, or zero when the timer has passed. */
  method Remaining(timer: Timeval, now: Timeval) returns (passed: bool)
    requires timer != now
    modifies timer, now
    ensures passed <==> old(timer.Total()) <= old(now.Total())
    ensures timer.Total() == old(timer.Total())
    ensures now.Total() == if passed then 0 else old(timer.Total()) - old(now.Total())
    ensures now.Normal()
  {
    var r := Subtract(now, timer, now);
    passed := r == 1;
  }
}
