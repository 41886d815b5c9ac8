/** The soroban object: two integer arrays updated in place, one slot per rod. */
module Abacus {
  import opened AbacusSpec

  class Soroban {
    const rods: int
    const upperBeads: array<int>
    const lowerBeads: array<int>

    /** The two bead arrays are distinct and as long as `[0] * rods`. */
    predicate Valid() {
      && upperBeads != lowerBeads
      && upperBeads.Length == RodSlots(rods)
      && lowerBeads.Length == RodSlots(rods)
    }

    /** The bead state as a value. */
    function State(): (b: Beads)
      reads upperBeads, lowerBeads
      requires Valid()
      ensures Shaped(b) && |b.upper| == RodSlots(rods)
    {
      Beads(upperBeads[..], lowerBeads[..])
    }

    constructor (rods: int)
      ensures Valid() && this.rods == rods
      ensures fresh(upperBeads) && fresh(lowerBeads)
      ensures State() == Empty(rods)
    {
      this.rods := rods;
      upperBeads := new int[RodSlots(rods)](_ => 0);
      lowerBeads := new int[RodSlots(rods)](_ => 0);
    }

    /** Raise one lower bead of the rod, unless it already has four. */
    method MoveBeadUp(rod: int) returns (outcome: Result<()>)
      requires Valid()
      modifies lowerBeads
      ensures outcome.Ok? <==> Resolve(rod, lowerBeads.Length).Some?
      ensures outcome.Err? ==> outcome.error == IndexError && State() == old(State())
      ensures outcome.Ok? ==> State() == BeadUp(old(State()), Resolve(rod, lowerBeads.Length).value)
    {
      var r := Resolve(rod, lowerBeads.Length);
      if r.None? {
        return Err(IndexError);
      }
      if lowerBeads[r.value] < 4 {
        lowerBeads[r.value] := lowerBeads[r.value] + 1;
      }
      outcome := Ok(());
    }

    /** Lower one lower bead of the rod, unless none is raised. */
    method MoveBeadDown(rod: int) returns (outcome: Result<()>)
      requires Valid()
      modifies lowerBeads
      ensures outcome.Ok? <==> Resolve(rod, lowerBeads.Length).Some?
      ensures outcome.Err? ==> outcome.error == IndexError && State() == old(State())
      ensures outcome.Ok? ==> State() == BeadDown(old(State()), Resolve(rod, lowerBeads.Length).value)
    {
      var r := Resolve(rod, lowerBeads.Length);
      if r.None? {
        return Err(IndexError);
      }
      if lowerBeads[r.value] > 0 {
        lowerBeads[r.value] := lowerBeads[r.value] - 1;
      }
      outcome := Ok(());
    }

    /** Flip the upper bead of the rod. */
    method MoveUpperBead(rod: int) returns (outcome: Result<()>)
      requires Valid()
      modifies upperBeads
      ensures outcome.Ok? <==> Resolve(rod, upperBeads.Length).Some?
      ensures outcome.Err? ==> outcome.error == IndexError && State() == old(State())
      ensures outcome.Ok? ==> State() == ToggleUpper(old(State()), Resolve(rod, upperBeads.Length).value)
    {
      var r := Resolve(rod, upperBeads.Length);
      if r.None? {
        return Err(IndexError);
      }
      upperBeads[r.value] := 1 - upperBeads[r.value];
      outcome := Ok(());
    }

    /** The number on the abacus: rod i contributes its digit times
        10^(rods - i - 1), rod 0 being the most significant. */
    method Calculate() returns (total: int)
      requires Valid()
      ensures total == Value(State())
    {
      ghost var ds := Digits(State());
      ghost var n := RodSlots(rods);
      total := 0;
      var i := 0;
      while i < rods
        invariant 0 <= i <= n
        invariant total == Positional(ds[..i]) * Pow10(n - i)
      {
        var place := Pow10(rods - i - 1);
        assert ds[..i + 1] == ds[..i] + [ds[i]];
        PositionalAppend(ds[..i], ds[i]);
        PlaceStep(Positional(ds[..i]), ds[i], place);
        total := total + (5 * upperBeads[i] + lowerBeads[i]) * place;
        i := i + 1;
      }
      assert ds[..i] == ds;
    }
  }

  /** One step of the place-value sum: a prefix already scaled by 10^(k+1)
      plus the next digit times 10^k is the extended prefix scaled by 10^k. */
  lemma PlaceStep(prefix: int, d: int, place: int)
    ensures prefix * (10 * place) + d * place == (prefix * 10 + d) * place
  {
  }

  /** A fresh five-rod abacus, as the application builds it, reads 0, and
      five raises on rod 0 stop at four beads. */
  method FreshFiveRods() returns (reading: int, raised: int)
    ensures reading == 0 && raised == 4
  {
    var s := new Soroban(5);
    reading := s.Calculate();
    EmptyValue(5);
    var k := 0;
    while k < 5
      invariant 0 <= k <= 5 && s.Valid()
      invariant s.State() == BeadUpTimes(Empty(5), 0, k)
    {
      var _ := s.MoveBeadUp(0);
      BeadUpTimesStep(Empty(5), 0, k);
      k := k + 1;
    }
    FiveRaisesOnEmptyRod(5, 0);
    raised := s.lowerBeads[0];
  }

  /** Toggling the upper bead of rod 2 on a fresh five-rod abacus reads 500. */
  method RodTwoUpperBead() returns (reading: int)
    ensures reading == 500
  {
    var s := new Soroban(5);
    var _ := s.MoveUpperBead(2);
    assert s.upperBeads[..] == [0, 0, 1, 0, 0];
    assert s.lowerBeads[..] == [0, 0, 0, 0, 0];
    FiveRodReadings();
    reading := s.Calculate();
  }
}
