/** Definitions shared by the processor and editor models. */
module Common {

  /** One channel of audio samples, or one interleaved spectral frame. */
  type Block = seq<real>

  /** A block of `n` zero values: what `AudioBuffer::clear` or `vector::resize(n, 0)` leaves. */
  function Zeros(n: nat): (z: Block)
    ensures |z| == n
    ensures forall k :: 0 <= k < n ==> z[k] == 0.0
  {
    seq(n, _ => 0.0)
  }

  function Min(a: int, b: int): int
  {
    if a < b then a else b
  }

  function Abs(a: int): int
  {
    if a < 0 then -a else a
  }

  /**
   * C++ `a % b` on `int`: division truncates toward zero, so the remainder
   * takes the sign of `a` (Dafny's own `%` is Euclidean).
   */
  function CppRem(a: int, b: int): (r: int)
    requires b != 0
    ensures -Abs(b) < r < Abs(b)
    ensures a >= 0 ==> r >= 0
    ensures a <= 0 ==> r <= 0
  {
    if a >= 0 then a % Abs(b) else -((-a) % Abs(b))
  }
}
