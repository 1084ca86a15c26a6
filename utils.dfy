/** The `max!` macro (src/utils.rs), used to size the scanner's lookahead. */
module Utils {

  /**
   * `max!(x)` is `x`; `max!(x, xs..)` compares `x` with the maximum of the
   * rest and keeps `x` only when it is strictly greater.
   */
  function Max(xs: seq<nat>): (m: nat)
    requires |xs| > 0
    ensures m in xs
    ensures forall i :: 0 <= i < |xs| ==> xs[i] <= m
  {
    if |xs| == 1 then xs[0]
    else
      var a := xs[0];
      var b := Max(xs[1..]);
      if a > b then a else b
  }

  /** A single-argument `max!` returns its argument. */
  lemma MaxSingleton(x: nat)
    ensures Max([x]) == x
  {
  }

  /** Right-recursive unfolding: the head wins only on a strict comparison. */
  lemma MaxUnfold(x: nat, xs: seq<nat>)
    requires |xs| > 0
    ensures Max([x] + xs) == if x > Max(xs) then x else Max(xs)
  {
    assert ([x] + xs)[1..] == xs;
  }
}
