/** The damage a round loser takes (server.js:89 and server.js:105-112). */
module Scoring {

  const BaseDamage: int := 10
  const TimeMultiplier: int := 5
  /** Flat damage of the `boardCleared` path. */
  const BoardClearedDamage: int := 15

  function Abs(x: int): (r: nat)
    ensures r == x || r == -x
  {
    if x < 0 then -x else x
  }

  /** JavaScript's `Math.round(milli / 1000)`: the nearest integer to a
      count of thousandths, a half rounded towards positive infinity. */
  function RoundThousandths(milli: int): (r: int)
    ensures (r as real) - 0.5 <= (milli as real) / 1000.0 < (r as real) + 0.5
  {
    var q := (2 * milli + 1000) / 2000;
    assert 2000 * q <= 2 * milli + 1000 < 2000 * q + 2000;
    q
  }

  /** Damage for a gap of `gap` milliseconds between the two finish times:
      `Math.round(10 + gap / 1000 * 5)`, computed without floating point. */
  function Damage(gap: nat): (r: int)
    ensures (r as real) - 0.5
            <= (BaseDamage as real) + (gap as real) / 1000.0 * (TimeMultiplier as real)
            < (r as real) + 0.5
  {
    var r := RoundThousandths(1000 * BaseDamage + gap * TimeMultiplier);
    assert ((1000 * BaseDamage + gap * TimeMultiplier) as real) / 1000.0
        == (BaseDamage as real) + (gap as real) / 1000.0 * (TimeMultiplier as real);
    r
  }

  /** Damage of a `roundLost` message: the loser's reported time against the
      time the opponent has spent in the round. */
  function RoundLostDamage(playerTime: int, opponentTime: int): (r: int)
    ensures r >= BaseDamage
    ensures (r as real) - 0.5
            <= (BaseDamage as real) + (Abs(playerTime - opponentTime) as real) / 1000.0 * (TimeMultiplier as real)
            < (r as real) + 0.5
  {
    var r := Damage(Abs(playerTime - opponentTime));
    DamageAtLeastBase(Abs(playerTime - opponentTime));
    r
  }

  /** For integer gaps the rounding is plain integer division. */
  lemma DamageClosedForm(gap: nat)
    ensures Damage(gap) == 10 + (gap + 100) / 200
  {
    var r := Damage(gap);
    var q := (gap + 100) / 200;
    assert 200 * q <= gap + 100 < 200 * q + 200;
    assert (r as real) - 0.5 <= 10.0 + (gap as real) / 200.0 < (r as real) + 0.5;
    assert ((10 + q) as real) - 0.5 <= 10.0 + (gap as real) / 200.0 < ((10 + q) as real) + 0.5;
  }

  lemma DamageAtLeastBase(gap: nat)
    ensures Damage(gap) >= BaseDamage
  {
    DamageClosedForm(gap);
  }

  lemma DamageMonotone(gap1: nat, gap2: nat)
    requires gap1 <= gap2
    ensures Damage(gap1) <= Damage(gap2)
  {
    DamageClosedForm(gap1);
    DamageClosedForm(gap2);
  }

  /** The worked example: finish times 2000 ms and 2600 ms give 13. */
  lemma DamageExample()
    ensures Damage(600) == 13
    ensures RoundLostDamage(2000, 2600) == 13
  {
    DamageClosedForm(600);
  }
}
