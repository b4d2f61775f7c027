/** One player's board as the match handler sees it.

    The board's own source is not part of this model: placement of ships and
    the sinking of a ship whose last part is hit stay abstract. What is kept is
    the interface the match handler calls, each member with the contract the
    match handler relies on. */
module GameFields {

  /** The state of one cell, in the order of the client's one-letter codes
      w, i, h, m, d: water, intact ship part, hit, missed, destroyed. */
  datatype Cell = Water | Ship | Hit | Missed | Destroyed

  /** A shot may target a cell that has not been resolved yet. */
  predicate Clickable(c: Cell) {
    c == Water || c == Ship
  }

  /** Number of cells of a board that a shot may still target. */
  function ClickableCount(cells: seq<Cell>): (n: nat)
    ensures n <= |cells|
    ensures n == 0 <==> forall i | 0 <= i < |cells| :: !Clickable(cells[i])
  {
    if cells == [] then 0
    else (if Clickable(cells[0]) then 1 else 0) + ClickableCount(cells[1..])
  }

  /** Two boards of equal size on which exactly the same cells are clickable
      have the same number of clickable cells. */
  lemma {:induction false} SameClickableCount(a: seq<Cell>, b: seq<Cell>)
    requires |a| == |b|
    requires forall j | 0 <= j < |a| :: Clickable(a[j]) == Clickable(b[j])
    ensures ClickableCount(a) == ClickableCount(b)
  {
    if a != [] {
      assert forall j | 0 <= j < |a| - 1 :: a[1..][j] == a[j + 1] && b[1..][j] == b[j + 1];
      SameClickableCount(a[1..], b[1..]);
    }
  }

  /** Resolving one clickable cell, and changing nothing else about which
      cells are clickable, uses up exactly one clickable cell. */
  lemma {:induction false} ResolvingUsesUpOneCell(before: seq<Cell>, after: seq<Cell>, i: int)
    requires |before| == |after| && 0 <= i < |before|
    requires Clickable(before[i]) && !Clickable(after[i])
    requires forall j | 0 <= j < |before| && j != i :: Clickable(after[j]) == Clickable(before[j])
    ensures ClickableCount(after) == ClickableCount(before) - 1
  {
    assert forall j | 0 <= j < |before| - 1 ::
      before[1..][j] == before[j + 1] && after[1..][j] == after[j + 1];
    if i == 0 {
      SameClickableCount(before[1..], after[1..]);
    } else {
      ResolvingUsesUpOneCell(before[1..], after[1..], i - 1);
    }
  }

  class GameField {
    var cells: seq<Cell>
    var locked: bool

    /** A new, unlocked board holding a freshly generated placement. */
    constructor (layout: seq<Cell>)
      ensures cells == layout && !locked
    {
      cells := layout;
      locked := false;
    }

    /** Whether the owner has declared ready. */
    predicate IsLocked()
      reads this
      ensures IsLocked() <==> locked
    {
      locked
    }

    /** Whether `fieldId` names a cell of the board. */
    predicate IsValidCoordinate(fieldId: int)
      reads this
      ensures IsValidCoordinate(fieldId) <==> 0 <= fieldId < |cells|
    {
      0 <= fieldId < |cells|
    }

    /** Whether a shot may target `fieldId`: a cell of the board that has
        not been resolved. Every intact ship part is such a cell. */
    predicate IsClickableField(fieldId: int)
      reads this
      ensures IsClickableField(fieldId) ==> 0 <= fieldId < |cells|
      ensures 0 <= fieldId < |cells| && cells[fieldId] == Ship ==> IsClickableField(fieldId)
      ensures IsClickableField(fieldId) && cells[fieldId] != Ship ==> cells[fieldId] == Water
    {
      IsValidCoordinate(fieldId) && Clickable(cells[fieldId])
    }

    /** Whether `fieldId` is a ship part that has not been hit. */
    predicate IsIntactShip(fieldId: int)
      reads this
      ensures IsIntactShip(fieldId) ==> 0 <= fieldId < |cells| && Clickable(cells[fieldId])
      ensures 0 <= fieldId < |cells| && !IsIntactShip(fieldId) ==> cells[fieldId] != Ship
    {
      IsValidCoordinate(fieldId) && cells[fieldId] == Ship
    }

    /** True while some ship part has not been hit; such a board still has
        a cell a shot may target. */
    predicate AreNotFullyDestroyedShipPartsLeft()
      reads this
      ensures !AreNotFullyDestroyedShipPartsLeft() ==> forall i | 0 <= i < |cells| :: cells[i] != Ship
      ensures AreNotFullyDestroyedShipPartsLeft() ==> ClickableCount(cells) > 0
    {
      exists i | 0 <= i < |cells| :: cells[i] == Ship
    }

    method Lock()
      modifies this`locked
      ensures locked
    {
      locked := true;
    }

    /** Replaces the placement by a new one; the match handler only asks for
        this while the board is unlocked. */
    method GenerateGameField(layout: seq<Cell>)
      requires !locked
      modifies this`cells
      ensures cells == layout
    {
      cells := layout;
    }

    /** Hits an intact ship part. The hit cell can no longer be targeted; which
        other cells are intact ship parts, and which are clickable, does not
        change (sinking only turns hit cells into destroyed ones). */
    method ClickOnShipPart(fieldId: int)
      requires IsIntactShip(fieldId)
      modifies this`cells
      ensures |cells| == |old(cells)| && !IsClickableField(fieldId)
      ensures forall j | 0 <= j < |cells| && j != fieldId ::
        (cells[j] == Ship <==> old(cells)[j] == Ship) &&
        (Clickable(cells[j]) <==> Clickable(old(cells)[j]))
    {
      cells := cells[fieldId := Hit];
    }

    /** Marks a water cell as missed. */
    method SetMissed(fieldId: int)
      requires IsClickableField(fieldId) && !IsIntactShip(fieldId)
      modifies this`cells
      ensures cells == old(cells)[fieldId := Missed]
    {
      cells := cells[fieldId := Missed];
    }

    /** The board as its owner sees it: one entry per cell, intact ship
        parts included. */
    function FlatArray(): (flat: seq<Cell>)
      reads this
      ensures |flat| == |cells|
      ensures forall i | 0 <= i < |flat| :: flat[i] == Ship <==> IsIntactShip(i)
    {
      cells
    }

    /** The board as the opponent sees it: intact ship parts are shown as
        water, every other cell as it is stored. */
    function AnonymousFlatArray(): (view: seq<Cell>)
      reads this
      ensures |view| == |cells|
      ensures forall i | 0 <= i < |cells| :: view[i] != Ship
      ensures forall i | 0 <= i < |cells| :: cells[i] == Ship ==> view[i] == Water
      ensures forall i | 0 <= i < |cells| :: cells[i] != Ship ==> view[i] == cells[i]
    {
      seq(|cells|, i requires 0 <= i < |cells| reads this => if cells[i] == Ship then Water else cells[i])
    }
  }
}
