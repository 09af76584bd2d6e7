/** Small pieces shared by the three script files: the `null`-or-value slot of a
    chart dataset, the values `Math.random()` can produce (injected here as
    parameters), the mock price expression both mock generators use, and
    JavaScript's `Math.round`. */
module Basics {

  /** A chart data point that is either `null` (None) or a number. */
  datatype Option<+T> = None | Some(value: T)

  /** The styling class a price change gets, `up` or `down`; the ticker and
      the prediction cards share it. */
  datatype Direction = Up | Down

  /** `change >= 0 ? 'up' : 'down'` */
  function DirectionOf(change: real): (d: Direction)
    ensures d == Up <==> change >= 0.0
  {
    if change >= 0.0 then Up else Down
  }

  /** A value `Math.random()` can return: uniform in [0, 1). */
  predicate IsDraw(r: real) {
    0.0 <= r < 1.0
  }

  /** A sequence of successive `Math.random()` results. */
  predicate AreDraws(rs: seq<real>) {
    forall k | 0 <= k < |rs| :: IsDraw(rs[k])
  }

  lemma DrawsPrefix(rs: seq<real>, n: nat)
    requires AreDraws(rs) && n <= |rs|
    ensures AreDraws(rs[..n])
  {
    forall k | 0 <= k < n ensures IsDraw(rs[..n][k]) {
      assert rs[..n][k] == rs[k];
    }
  }

  /** `Math.random() * 50 + 150`: a mock price between 150 (inclusive) and
      200 (exclusive); the draw can be read back from the price. */
  function MockPrice(r: real): (p: real)
    requires IsDraw(r)
    ensures 150.0 <= p < 200.0
    ensures (p - 150.0) / 50.0 == r
  {
    r * 50.0 + 150.0
  }

  /** `Math.round(x)`: the integer nearest to x, halves rounded up. */
  function Round(x: real): (n: int)
    ensures n as real - 0.5 <= x < n as real + 0.5
  {
    (x + 0.5).Floor
  }

  /** Rounding a value of [lo, hi) gives an integer of [lo, hi]. */
  lemma RoundWithin(x: real, lo: int, hi: int)
    requires lo as real <= x < hi as real
    ensures lo <= Round(x) <= hi
  {
  }
}
