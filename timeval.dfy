/** timeval_subtract in wrappers/wrappers.c (the glibc manual's elapsed-time
    routine), which the asynchronous extractor's wait loop uses to measure
    how long it has been spinning. */
module Timeval {
  const MicrosPerSecond: int := 1000000

  /** struct timeval: seconds and microseconds. */
  class Timeval {
    var sec: int
    var usec: int

    constructor At(sec: int, usec: int)
      ensures this.sec == sec && this.usec == usec
    {
      this.sec := sec;
      this.usec := usec;
    }

    function Micros(): int
      reads this
    {
      sec * MicrosPerSecond + usec
    }

    predicate Normalised()
      reads this
    {
      0 <= usec < MicrosPerSecond
    }
  }

  /** timeval_subtract(result, x, y): stores x - y in result, carrying
      through y, and answers 1 exactly when the difference is negative.
      The three records are distinct, as at the only call site. */
  method TimevalSubtract(result: Timeval, x: Timeval, y: Timeval) returns (negative: int)
    requires result != x && result != y && x != y
    modifies result, y
    ensures result.Micros() == x.Micros() - old(y.Micros())
    ensures y.Micros() == old(y.Micros())
    ensures 0 <= result.usec <= MicrosPerSecond
    ensures x.Normalised() && old(y.Normalised()) ==> result.usec < MicrosPerSecond
    ensures negative == (if result.sec < 0 then 1 else 0)
    ensures 0 <= x.usec - old(y.usec) <= MicrosPerSecond ==>
      y.sec == old(y.sec) && y.usec == old(y.usec) && result.usec == x.usec - old(y.usec)
  {
    if x.usec < y.usec {
      var nsec := (y.usec - x.usec) / MicrosPerSecond + 1;
      y.usec := y.usec - MicrosPerSecond * nsec;
      y.sec := y.sec + nsec;
    }
    if x.usec - y.usec > MicrosPerSecond {
      var nsec := (x.usec - y.usec) / MicrosPerSecond;
      y.usec := y.usec + MicrosPerSecond * nsec;
      y.sec := y.sec - nsec;
    }
    result.sec := x.sec - y.sec;
    result.usec := x.usec - y.usec;
    negative := if x.sec < y.sec then 1 else 0;
  }

  /** The second carry tests '>' rather than '>=': with x.usec one full
      second and y.usec zero, the result keeps a whole second in tv_usec. */
  method UnnormalisedSecondSurvives() returns (r: Timeval)
    ensures r.usec == MicrosPerSecond && r.sec == 0
  {
    r := new Timeval.At(0, 0);
    var x := new Timeval.At(0, MicrosPerSecond);
    var y := new Timeval.At(0, 0);
    var neg := TimevalSubtract(r, x, y);
  }
}
