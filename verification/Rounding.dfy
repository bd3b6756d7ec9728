/** `round4` of src/postprocess.rs: the exact value to four decimal places, ties to even. */
module Rounding {

  function Abs(x: real): real { if x < 0.0 then -x else x }

  /** Nearest integer, halves to the even one. */
  function Nearest(x: real): int {
    var below := x.Floor;
    var rest := x - below as real;
    if rest < 0.5 || (rest == 0.5 && below % 2 == 0) then below else below + 1
  }

  function Round4(x: real): real { Nearest(x * 10000.0) as real / 10000.0 }

  /** n is within one half of x, and even if it is exactly one half away. */
  predicate IsNearest(x: real, n: int) {
    Abs(x - n as real) <= 0.5 && (Abs(x - n as real) == 0.5 ==> n % 2 == 0)
  }

  /** There is exactly one such integer, and `Nearest` finds it. */
  lemma NearestExactly(x: real, n: int)
    ensures IsNearest(x, n) <==> n == Nearest(x)
  {
    var below := x.Floor;
    if IsNearest(x, n) {
      assert n == below || n == below + 1 || n == below - 1;
    }
  }

  lemma NearestMonotone(x: real, y: real)
    requires x <= y
    ensures Nearest(x) <= Nearest(y)
  {
    NearestExactly(x, Nearest(x));
    NearestExactly(y, Nearest(y));
  }

  lemma NearestMirror(x: real)
    ensures Nearest(-x) == -Nearest(x)
  {
    NearestExactly(x, Nearest(x));
    NearestExactly(-x, -Nearest(x));
  }

  /**
   What reporting four places means: off by at most half a unit of the last place, in the
   same order as the exact values, odd like them, and left alone by rounding again.
   */
  lemma Round4Means(x: real, y: real)
    ensures Abs(Round4(x) - x) <= 0.00005
    ensures x <= y ==> Round4(x) <= Round4(y)
    ensures Round4(-x) == -Round4(x)
    ensures Round4(Round4(x)) == Round4(x)
  {
    NearestExactly(x * 10000.0, Nearest(x * 10000.0));
    if x <= y { NearestMonotone(x * 10000.0, y * 10000.0); }
    NearestMirror(x * 10000.0);
    assert -x * 10000.0 == -(x * 10000.0);
    var n := Nearest(x * 10000.0);
    NearestExactly(n as real, n);
  }

  /** No four-place decimal is closer to x than the reported one. */
  lemma Round4Closest(x: real, n: int)
    ensures Abs(Round4(x) - x) <= Abs(n as real / 10000.0 - x)
  {
    var y := x * 10000.0;
    NearestExactly(y, Nearest(y));
    var m := Nearest(y);
    if n != m { assert Abs(n as real - y) >= 0.5; }
    assert Abs(m as real - y) <= Abs(n as real - y);
  }
}
