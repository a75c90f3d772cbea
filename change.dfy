/**
  Percentage change between two prices, with the bot's guard against a
  zero reference price. Prices are exact reals.
 */
module Change {

  function Abs(x: real): (r: real)
    ensures r >= 0.0 && (r == x || r == -x)
  {
    if x < 0.0 then -x else x
  }

  /** Percentage change from `reference` to `current`; 0 when `reference` is 0. */
  function CalculateChange(current: real, reference: real): (r: real)
    ensures reference == 0.0 ==> r == 0.0
    ensures current == reference ==> r == 0.0
    ensures reference > 0.0 ==> (r > 0.0 <==> current > reference) && (r < 0.0 <==> current < reference)
  {
    if reference == 0.0 then 0.0 else (current - reference) / reference * 100.0
  }

  /** Applying a change to its reference price gives back the current price. */
  lemma ChangeInverse(current: real, reference: real)
    requires reference != 0.0
    ensures current == reference + reference * CalculateChange(current, reference) / 100.0
  {
  }

  /** The size of a change reaches a positive threshold `t` (in percent)
      exactly when the price moved by at least `t` percent of the reference,
      stated without division; a zero reference never reaches it. */
  lemma ChangeReaches(current: real, reference: real, t: real)
    requires t > 0.0
    ensures Abs(CalculateChange(current, reference)) >= t
        <==> reference != 0.0 && Abs(current - reference) * 100.0 >= t * Abs(reference)
  {
    if reference != 0.0 {
      var d, r := current - reference, CalculateChange(current, reference);
      assert r * reference == d * 100.0;
      assert Abs(r) * Abs(reference) == Abs(d) * 100.0;
      if Abs(r) >= t {
        assert Abs(r) * Abs(reference) >= t * Abs(reference);
      } else {
        assert Abs(r) * Abs(reference) < t * Abs(reference);
      }
    }
  }
}
