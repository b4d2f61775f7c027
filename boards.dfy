/** The boards the server itself hands out: cells are strings, "o" for
    water and "x" followed by a digit for a part of ship number d. */
module Boards {

  /** A cell shows a ship part when its first character is "x"; the empty
      string shows nothing. */
  predicate ShowsShip(cell: string) {
    |cell| > 0 && cell[0] == 'x'
  }

  /** "o" for water, or "x" and one digit for a ship part. */
  predicate WellFormedCell(cell: string) {
    cell == "o" || (|cell| == 2 && cell[0] == 'x' && '0' <= cell[1] <= '9')
  }

  /** How the opponent sees one cell. */
  function Hidden(cell: string): string {
    if ShowsShip(cell) then "o" else cell
  }

  /** The board as the opponent sees it: every ship part is shown as water,
      every other cell as it is. */
  function OpponentView(board: seq<string>): (view: seq<string>)
    ensures |view| == |board|
    ensures forall i | 0 <= i < |board| :: !ShowsShip(view[i])
    ensures forall i | 0 <= i < |board| :: ShowsShip(board[i]) ==> view[i] == "o"
    ensures forall i | 0 <= i < |board| :: !ShowsShip(board[i]) ==> view[i] == board[i]
  {
    seq(|board|, i requires 0 <= i < |board| => Hidden(board[i]))
  }

  /** Copies the board and rewrites the copy cell by cell. The board passed in
      is a value, so the stored board cannot change. */
  method HideShips(board: seq<string>) returns (view: seq<string>)
    ensures view == OpponentView(board)
  {
    var copy := new string[|board|](i requires 0 <= i < |board| => board[i]);
    for i := 0 to copy.Length
      invariant forall j | 0 <= j < i :: copy[j] == Hidden(board[j])
      invariant forall j | i <= j < copy.Length :: copy[j] == board[j]
    {
      if |copy[i]| > 0 && copy[i][..1] == "x" {
        copy[i] := "o";
      }
    }
    view := copy[..];
  }

  /** Number of ship parts on a board. */
  function ShipCells(board: seq<string>): (n: nat)
    ensures n <= |board|
  {
    if board == [] then 0 else (if ShowsShip(board[0]) then 1 else 0) + ShipCells(board[1..])
  }

  predicate AllCellsWellFormed(board: seq<string>) {
    board == [] || (WellFormedCell(board[0]) && AllCellsWellFormed(board[1..]))
  }

  lemma {:induction false} ConcatFacts(a: seq<string>, b: seq<string>)
    ensures ShipCells(a + b) == ShipCells(a) + ShipCells(b)
    ensures AllCellsWellFormed(a + b) <==> AllCellsWellFormed(a) && AllCellsWellFormed(b)
  {
    if a == [] {
      assert a + b == b;
    } else {
      assert (a + b)[1..] == a[1..] + b;
      ConcatFacts(a[1..], b);
    }
  }

  lemma {:induction false} WellFormedAt(board: seq<string>, i: int)
    requires AllCellsWellFormed(board) && 0 <= i < |board|
    ensures WellFormedCell(board[i])
  {
    if i > 0 {
      WellFormedAt(board[1..], i - 1);
    }
  }

  /** The opponent never sees a ship part. */
  lemma {:induction false} OpponentViewShowsNoShips(board: seq<string>)
    ensures ShipCells(OpponentView(board)) == 0
  {
    if board != [] {
      assert OpponentView(board)[1..] == OpponentView(board[1..]);
      OpponentViewShowsNoShips(board[1..]);
    }
  }

  /** The fixed layout every new game starts with: a 10 by 10 board, listed
      row by row in the order of its 100 cells. */
  const Row0: seq<string> := ["x1", "x1", "x1", "x1", "x1", "o", "o", "o", "o", "o"]
  const Row1: seq<string> := ["o", "o", "o", "o", "o", "o", "o", "x2", "x2", "x2"]
  const Row2: seq<string> := ["x3", "o", "o", "o", "o", "x5", "o", "o", "o", "o"]
  const Row3: seq<string> := ["x3", "o", "x4", "x4", "o", "x5", "o", "o", "o", "o"]
  const Row4: seq<string> := ["o", "o", "o", "o", "o", "o", "o", "x9", "x9", "x9"]
  const Row5: seq<string> := ["x6", "o", "o", "x7", "x7", "x7", "o", "o", "o", "o"]
  const Row6: seq<string> := ["x6", "o", "o", "o", "o", "o", "o", "o", "o", "o"]
  const Row7: seq<string> := ["o", "o", "o", "x0", "x0", "x0", "x0", "o", "o", "o"]
  const Row8: seq<string> := ["o", "o", "o", "o", "o", "o", "o", "o", "o", "o"]
  const Row9: seq<string> := ["x8", "x8", "x8", "x8", "o", "o", "o", "o", "o", "o"]

  const PredefinedGameField: seq<string> :=
    Row0 + Row1 + Row2 + Row3 + Row4 + Row5 + Row6 + Row7 + Row8 + Row9

  // Size, ship parts and cell shapes of each row.
  lemma Row0Facts() ensures |Row0| == 10 && ShipCells(Row0) == 5 && AllCellsWellFormed(Row0) { }
  lemma Row1Facts() ensures |Row1| == 10 && ShipCells(Row1) == 3 && AllCellsWellFormed(Row1) { }
  lemma Row2Facts() ensures |Row2| == 10 && ShipCells(Row2) == 2 && AllCellsWellFormed(Row2) { }
  lemma Row3Facts() ensures |Row3| == 10 && ShipCells(Row3) == 4 && AllCellsWellFormed(Row3) { }
  lemma Row4Facts() ensures |Row4| == 10 && ShipCells(Row4) == 3 && AllCellsWellFormed(Row4) { }
  lemma Row5Facts() ensures |Row5| == 10 && ShipCells(Row5) == 4 && AllCellsWellFormed(Row5) { }
  lemma Row6Facts() ensures |Row6| == 10 && ShipCells(Row6) == 1 && AllCellsWellFormed(Row6) { }
  lemma Row7Facts() ensures |Row7| == 10 && ShipCells(Row7) == 4 && AllCellsWellFormed(Row7) { }
  lemma Row8Facts() ensures |Row8| == 10 && ShipCells(Row8) == 0 && AllCellsWellFormed(Row8) { }
  lemma Row9Facts() ensures |Row9| == 10 && ShipCells(Row9) == 4 && AllCellsWellFormed(Row9) { }

  lemma RowFacts()
    ensures |Row0| == |Row1| == |Row2| == |Row3| == |Row4| == 10
    ensures |Row5| == |Row6| == |Row7| == |Row8| == |Row9| == 10
    ensures ShipCells(Row0) + ShipCells(Row1) + ShipCells(Row2) + ShipCells(Row3) + ShipCells(Row4)
      + ShipCells(Row5) + ShipCells(Row6) + ShipCells(Row7) + ShipCells(Row8) + ShipCells(Row9) == 30
    ensures AllCellsWellFormed(Row0) && AllCellsWellFormed(Row1) && AllCellsWellFormed(Row2)
      && AllCellsWellFormed(Row3) && AllCellsWellFormed(Row4) && AllCellsWellFormed(Row5)
      && AllCellsWellFormed(Row6) && AllCellsWellFormed(Row7) && AllCellsWellFormed(Row8)
      && AllCellsWellFormed(Row9)
  {
    Row0Facts(); Row1Facts(); Row2Facts(); Row3Facts(); Row4Facts(); Row5Facts(); Row6Facts(); Row7Facts(); Row8Facts(); Row9Facts();
  }

  /** The predefined board has 100 cells. */
  lemma PredefinedGameFieldSize()
    ensures |PredefinedGameField| == 100
  {
    RowFacts();
  }

  /** 30 of its cells are ship parts. */
  lemma PredefinedGameFieldShipCells()
    ensures ShipCells(PredefinedGameField) == 30
  {
    RowFacts();
    ConcatFacts(Row0, Row1);
    ConcatFacts(Row0 + Row1, Row2);
    ConcatFacts(Row0 + Row1 + Row2, Row3);
    ConcatFacts(Row0 + Row1 + Row2 + Row3, Row4);
    ConcatFacts(Row0 + Row1 + Row2 + Row3 + Row4, Row5);
    ConcatFacts(Row0 + Row1 + Row2 + Row3 + Row4 + Row5, Row6);
    ConcatFacts(Row0 + Row1 + Row2 + Row3 + Row4 + Row5 + Row6, Row7);
    ConcatFacts(Row0 + Row1 + Row2 + Row3 + Row4 + Row5 + Row6 + Row7, Row8);
    ConcatFacts(Row0 + Row1 + Row2 + Row3 + Row4 + Row5 + Row6 + Row7 + Row8, Row9);
  }

  /** Every cell is "o" or "x" followed by one digit. */
  lemma PredefinedGameFieldCellsWellFormed()
    ensures forall i | 0 <= i < |PredefinedGameField| :: WellFormedCell(PredefinedGameField[i])
  {
    RowFacts();
    ConcatFacts(Row0, Row1);
    ConcatFacts(Row0 + Row1, Row2);
    ConcatFacts(Row0 + Row1 + Row2, Row3);
    ConcatFacts(Row0 + Row1 + Row2 + Row3, Row4);
    ConcatFacts(Row0 + Row1 + Row2 + Row3 + Row4, Row5);
    ConcatFacts(Row0 + Row1 + Row2 + Row3 + Row4 + Row5, Row6);
    ConcatFacts(Row0 + Row1 + Row2 + Row3 + Row4 + Row5 + Row6, Row7);
    ConcatFacts(Row0 + Row1 + Row2 + Row3 + Row4 + Row5 + Row6 + Row7, Row8);
    ConcatFacts(Row0 + Row1 + Row2 + Row3 + Row4 + Row5 + Row6 + Row7 + Row8, Row9);
    forall i | 0 <= i < |PredefinedGameField|
      ensures WellFormedCell(PredefinedGameField[i])
    {
      WellFormedAt(PredefinedGameField, i);
    }
  }

  /** At the start of a game the opponent sees nothing but water. */
  lemma PredefinedOpponentViewIsWater()
    ensures OpponentView(PredefinedGameField) == seq(100, i => "o")
  {
    PredefinedGameFieldSize();
    PredefinedGameFieldCellsWellFormed();
  }
}
