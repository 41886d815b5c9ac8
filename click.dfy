/** Turning a mouse click on the soroban canvas into a bead move. */
module Click {
  import opened AbacusSpec
  import Abacus

  datatype Action = ToggleUpperBead | RaiseBead | LowerBead | NoMove

  /** x coordinate of rod k's line on the canvas. */
  function RodCentre(k: int): int { 50 + 50 * k }

  /** x lies within 10 pixels of rod k's line. */
  predicate OnRod(x: int, k: int) { RodCentre(k) - 10 <= x <= RodCentre(k) + 10 }

  /** Start of the i-th 30-pixel band of the lower bead area, which begins
      at y = 150 (the resting height of the first lower bead). */
  function SlotTop(i: int): int { 150 + 30 * i }

  /** The rod whose band holds x: only the five bands of the five-rod
      canvas exist, whatever the rod count. */
  function ClickedRod(x: int): (rod: Option<nat>)
    ensures rod.Some? ==> rod.value < 5
    ensures forall k :: 0 <= k < 5 ==> (OnRod(x, k) <==> rod == Some(k))
  {
    if 40 <= x <= 60 then Some(0)
    else if 90 <= x <= 110 then Some(1)
    else if 140 <= x <= 160 then Some(2)
    else if 190 <= x <= 210 then Some(3)
    else if 240 <= x <= 260 then Some(4)
    else None
  }

  /** The move chosen by the height of the click. */
  function ClickedAction(y: int): Action
  {
    if 30 <= y <= 80 then ToggleUpperBead
    else if 150 <= y <= 300 then (if y % 30 < 15 then RaiseBead else LowerBead)
    else NoMove
  }

  /** The upper bead zone toggles; in the lower zone, the top half of each
      30-pixel band starting at SlotTop(i) raises a bead and the bottom half
      lowers one; every other height does nothing. */
  lemma ClickedActionZones(y: int)
    ensures ClickedAction(y) == ToggleUpperBead <==> 30 <= y <= 80
    ensures ClickedAction(y) == RaiseBead <==>
      150 <= y <= 300 && exists i :: 0 <= i <= 5 && SlotTop(i) <= y < SlotTop(i) + 15
    ensures ClickedAction(y) == LowerBead <==>
      150 <= y <= 300 && exists i :: 0 <= i < 5 && SlotTop(i) + 15 <= y < SlotTop(i) + 30
    ensures ClickedAction(y) == NoMove <==> !(30 <= y <= 80) && !(150 <= y <= 300)
  {
    if 150 <= y <= 300 {
      var i := (y - 150) / 30;
      DivModUnique(i + 5, y - SlotTop(i), 30);
      assert SlotTop(i) <= y < SlotTop(i) + 30;
      forall j | 0 <= j <= 5 && SlotTop(j) <= y < SlotTop(j) + 30
        ensures y % 30 == y - SlotTop(j)
      {
        DivModUnique(j + 5, y - SlotTop(j), 30);
      }
    }
  }

  /** What the click does to the bead state: UnboundRod when x is in no
      band, IndexError when the band's rod is past the end of the bead lists. */
  function ApplyClick(b: Beads, x: int, y: int): (res: Result<Beads>)
    requires Shaped(b)
  {
    match ClickedRod(x)
    case None => Err(UnboundRod)
    case Some(k) =>
      match ClickedAction(y)
      case NoMove => Ok(b)
      case ToggleUpperBead =>
        (match Resolve(k, |b.upper|)
         case None => Err(IndexError)
         case Some(r) => Ok(ToggleUpper(b, r)))
      case RaiseBead =>
        (match Resolve(k, |b.lower|)
         case None => Err(IndexError)
         case Some(r) => Ok(BeadUp(b, r)))
      case LowerBead =>
        (match Resolve(k, |b.lower|)
         case None => Err(IndexError)
         case Some(r) => Ok(BeadDown(b, r)))
  }

  /** A click fails with UnboundRod exactly when x is near no rod line; on the
      five-rod abacus it never fails otherwise; a successful click keeps the
      clamping invariant and changes at most the clicked rod. */
  lemma ClickOutcome(b: Beads, x: int, y: int)
    requires Shaped(b)
    ensures ApplyClick(b, x, y) == Err(UnboundRod) <==> forall k :: 0 <= k < 5 ==> !OnRod(x, k)
    ensures |b.upper| >= 5 ==> ApplyClick(b, x, y).Ok? || ApplyClick(b, x, y) == Err(UnboundRod)
    ensures ApplyClick(b, x, y).Ok? && WellFormed(b) ==> WellFormed(ApplyClick(b, x, y).value)
    ensures ApplyClick(b, x, y).Ok? ==>
      var c := ApplyClick(b, x, y).value;
      Shaped(c) && |c.upper| == |b.upper| &&
      forall j :: 0 <= j < |b.upper| && !OnRod(x, j) ==> c.upper[j] == b.upper[j] && c.lower[j] == b.lower[j]
  {
    var rod := ClickedRod(x);
    if rod.Some? {
      var k := rod.value;
      forall j | 0 <= j < |b.upper| && !OnRod(x, j) ensures j != k { }
    }
  }

  /** Two clicks on the same upper bead give back the state it started from. */
  lemma ClickUpperTwice(b: Beads, x: int, y: int)
    requires Shaped(b) && 30 <= y <= 80
    requires ApplyClick(b, x, y).Ok?
    ensures ApplyClick(ApplyClick(b, x, y).value, x, y) == Ok(b)
  {
    var r := Resolve(ClickedRod(x).value, |b.upper|).value;
    ToggleUpperTwice(b, r);
  }

  /** A click on the upper bead of rod 2 of a fresh five-rod abacus shows 500. */
  lemma ClickRodTwoUpper()
    ensures ApplyClick(Empty(5), 150, 50).Ok?
    ensures Value(ApplyClick(Empty(5), 150, 50).value) == 500
  {
    var c := ApplyClick(Empty(5), 150, 50).value;
    assert c.upper == [0, 0, 1, 0, 0];
    assert c.lower == [0, 0, 0, 0, 0];
    FiveRodReadings();
  }

  /** The click handler: picks the rod and the move, then applies it in place.
      The redraw and the console print that follow are not modelled. */
  method HandleClick(s: Abacus.Soroban, x: int, y: int) returns (outcome: Result<()>)
    requires s.Valid()
    modifies s.upperBeads, s.lowerBeads
    ensures outcome.Ok? <==> ApplyClick(old(s.State()), x, y).Ok?
    ensures outcome.Err? ==>
      outcome.error == ApplyClick(old(s.State()), x, y).error && s.State() == old(s.State())
    ensures outcome.Ok? ==> s.State() == ApplyClick(old(s.State()), x, y).value
  {
    var rod := ClickedRod(x);
    if rod.None? {
      return Err(UnboundRod);
    }
    match ClickedAction(y)
    case ToggleUpperBead => outcome := s.MoveUpperBead(rod.value);
    case RaiseBead => outcome := s.MoveBeadUp(rod.value);
    case LowerBead => outcome := s.MoveBeadDown(rod.value);
    case NoMove => outcome := Ok(());
  }
}
