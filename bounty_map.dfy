/**
 * The mock map: the bounty at list index `i` is drawn at a percentage position computed
 * by modulo arithmetic on `i`, and clicking it both selects it and forwards it.
 */
module BountyMap {
  import opened Js
  import opened Domain

  datatype Position = Position(left: int, top: int)

  /** `20 + (index * 15) % 60`. */
  function MarkerLeft(index: nat): (x: int)
    ensures 20 <= x < 80
  {
    20 + (index * 15) % 60
  }

  /** `20 + (index * 20) % 60`. */
  function MarkerTop(index: nat): (y: int)
    ensures 20 <= y < 80
  {
    20 + (index * 20) % 60
  }

  function MarkerAt(index: nat): Position {
    Position(MarkerLeft(index), MarkerTop(index))
  }

  /** `left` cycles through 20, 35, 50, 65 with the index modulo 4. */
  lemma LeftByResidue(index: nat)
    ensures MarkerLeft(index) == 20 + 15 * (index % 4)
  {
    var q, r := index / 4, index % 4;
    assert index * 15 == 60 * q + 15 * r;
  }

  /** `top` cycles through 20, 40, 60 with the index modulo 3. */
  lemma TopByResidue(index: nat)
    ensures MarkerTop(index) == 20 + 20 * (index % 3)
  {
    var q, r := index / 3, index % 3;
    assert index * 20 == 60 * q + 20 * r;
  }

  /** Every marker is at one of four horizontal and three vertical positions; index 0 at (20, 20). */
  lemma MarkerRange(index: nat)
    ensures var p := MarkerAt(index);
      && (p.left == 20 || p.left == 35 || p.left == 50 || p.left == 65)
      && (p.top == 20 || p.top == 40 || p.top == 60)
    ensures MarkerAt(0) == Position(20, 20)
  {
    LeftByResidue(index);
    TopByResidue(index);
  }

  /** `left` repeats every 4 indices and `top` every 3. */
  lemma MarkerPeriods(index: nat)
    ensures MarkerLeft(index + 4) == MarkerLeft(index)
    ensures MarkerTop(index + 3) == MarkerTop(index)
  {
    LeftByResidue(index);
    LeftByResidue(index + 4);
    TopByResidue(index);
    TopByResidue(index + 3);
  }

  /**
   * Two markers share a position exactly when their indices agree modulo 12, so the
   * thirteenth bounty is drawn on top of the first.
   */
  lemma SamePositionIff(i: nat, j: nat)
    ensures MarkerAt(i) == MarkerAt(j) <==> i % 12 == j % 12
  {
    LeftByResidue(i);
    LeftByResidue(j);
    TopByResidue(i);
    TopByResidue(j);
    ResiduesMod12(i);
    ResiduesMod12(j);
    if i % 4 == j % 4 && i % 3 == j % 3 {
      SameResidues(i % 12, j % 12);
    }
  }

  /** The residues modulo 4 and 3 are those of the residue modulo 12. */
  lemma {:induction false} ResiduesMod12(i: nat)
    ensures i % 4 == (i % 12) % 4 && i % 3 == (i % 12) % 3
    decreases i
  {
    if i >= 12 {
      ResiduesMod12(i - 12);
      StepBack12(i);
    }
  }

  /** Taking 12 away changes none of the residues modulo 12, 4 and 3. */
  lemma StepBack12(i: nat)
    requires i >= 12
    ensures i % 12 == (i - 12) % 12 && i % 4 == (i - 12) % 4 && i % 3 == (i - 12) % 3
  {
    var k := i - 12;
    assert i == 12 * (k / 12 + 1) + k % 12;
    assert i == 4 * (k / 4 + 3) + k % 4;
    assert i == 3 * (k / 3 + 4) + k % 3;
  }

  /** Below 12, the residues modulo 4 and 3 determine the number. */
  lemma SameResidues(a: nat, b: nat)
    requires a < 12 && b < 12
    requires a % 4 == b % 4 && a % 3 == b % 3
    ensures a == b
  {
  }

  /** The map component's own state: the last clicked bounty. */
  class MapView {
    var selected: Option<Bounty>

    constructor()
      ensures selected == None
    {
      selected := None;
    }

    /** A marker click: select the bounty and forward that same bounty to `onBountyClick`. */
    method ClickMarker(b: Bounty) returns (forwarded: Bounty)
      modifies this
      ensures selected == Some(b) && forwarded == b
    {
      selected := Some(b);
      forwarded := b;
    }
  }
}
