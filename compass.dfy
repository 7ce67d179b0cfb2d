/**
 * The compass of the `src/main` console
 * (`src/main/frontend/src/app/components/compass/compass.component.ts`): the
 * `directionLabel` getter names the nearest of the eight compass points for a
 * heading in degrees.
 */
module Compass {
  import opened Common

  const Directions: seq<string> := ["N", "NE", "E", "SE", "S", "SW", "W", "NW"]

  /** The JavaScript remainder `n % 8` of an integral number: it takes the sign of `n`. */
  function TruncatedRemainder8(n: int): (r: int)
    ensures -8 < r < 8
    ensures n >= 0 ==> r >= 0
    ensures n <= 0 ==> r <= 0
  {
    if n >= 0 then n % 8 else -((-n) % 8)
  }

  /** Correcting the truncated remainder by one turn gives the Euclidean remainder. */
  lemma {:induction false} CorrectedRemainder(n: int)
    ensures (TruncatedRemainder8(n) + 8) % 8 == n % 8
  {
    if n < 0 {
      var m := -n;
      var q := m / 8;
      assert m == 8 * q + m % 8;
      assert n == 8 * (-q - 1) + (8 - m % 8);
      if m % 8 == 0 {
        assert n == 8 * (-q);
        assert n % 8 == 0;
      } else {
        assert 0 <= 8 - m % 8 < 8;
        assert n % 8 == 8 - m % 8;
      }
    }
  }

  /** The sector index `(Math.round(heading / 45) % 8 + 8) % 8`. */
  function SectorIndex(heading: real): (i: int)
    ensures 0 <= i < |Directions|
    ensures i == HalfUp(heading / 45.0) % 8
  {
    CorrectedRemainder(HalfUp(heading / 45.0));
    (TruncatedRemainder8(HalfUp(heading / 45.0)) + 8) % 8
  }

  /** The `directionLabel` getter: always one of the eight points. */
  function DirectionLabel(heading: real): (name: string)
    ensures name in Directions
  {
    Directions[SectorIndex(heading)]
  }

  /** A heading of 45·k degrees names point k mod 8, for negative k as well. */
  lemma {:induction false} MultipleOf45(k: int)
    ensures DirectionLabel(45.0 * k as real) == Directions[k % 8]
  {
    assert 45.0 * k as real / 45.0 == k as real;
    HalfUpOfInt(k);
  }

  /** A full turn more or less never changes the label. */
  lemma {:induction false} FullTurnInvariant(heading: real)
    ensures DirectionLabel(heading + 360.0) == DirectionLabel(heading)
  {
    var n := HalfUp(heading / 45.0);
    assert (heading + 360.0) / 45.0 == heading / 45.0 + 8.0;
    assert HalfUp(heading / 45.0 + 8.0) == n + 8;
    assert (n + 8) % 8 == n % 8;
  }

  /** North covers [-22.5, 22.5); because rounding goes half up, 22.5 is already north-east. */
  lemma {:induction false} NorthSector(heading: real)
    ensures -22.5 <= heading < 22.5 ==> DirectionLabel(heading) == "N"
    ensures DirectionLabel(22.5) == "NE"
  {
    if -22.5 <= heading < 22.5 {
      assert -0.5 <= heading / 45.0 < 0.5;
      assert HalfUp(heading / 45.0) == 0;
    }
    assert 22.5 / 45.0 == 0.5;
    assert HalfUp(0.5) == 1;
  }
}
