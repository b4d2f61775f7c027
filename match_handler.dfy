/** The state machine of one match between two players: who the players are,
    the two boards, whose move it is and who has won.

    Messages to the clients are not sent; every message the match would send
    is appended, in order, to the ghost event log `log`. */
module Matches {
  import opened GameFields
  import opened Messages

  /** Whenever the match tells its players everything, exactly one of them
      hears that it is their turn while nobody has won, and nobody hears it
      once a winner is recorded. */
  lemma OneTurnGrantUntilWon(m: MatchHandler)
    ensures TurnGrants(m.InformationEvents()) == if m.playerWhoWon == NoPlayer then 1 else 0
  {
    var boards := m.InformationEvents()[..6];
    var tail := if m.playerWhoWon == NoPlayer then m.TurnEvents() else m.WinningEvents();
    assert m.InformationEvents() == boards + tail;
    TurnGrantsAppend(boards, tail);
    NoTurnGrants(boards);
    assert tail == [tail[0]] + [tail[1]];
    TurnGrantsAppend([tail[0]], [tail[1]]);
    assert [tail[0]][1..] == [] && [tail[1]][1..] == [];
  }

  class MatchHandler {
    const playerOne: string
    var playerTwo: string
    const gameFieldOne: GameField
    const gameFieldTwo: GameField
    var playerWhosMoveItIs: string
    var playerWhoWon: string
    ghost var log: seq<Event>

    /** Each player owns a board of their own. */
    ghost predicate Valid() {
      gameFieldOne != gameFieldTwo
    }

    /** A match with its first player only. The two placements are the
        results of the board generator. */
    constructor (playerOne: string, layoutOne: seq<Cell>, layoutTwo: seq<Cell>)
      ensures Valid() && fresh(gameFieldOne) && fresh(gameFieldTwo)
      ensures this.playerOne == playerOne && playerTwo == ""
      ensures playerWhosMoveItIs == NoPlayer && playerWhoWon == NoPlayer
      ensures !IsFull()
      ensures gameFieldOne.cells == layoutOne && !gameFieldOne.locked
      ensures gameFieldTwo.cells == layoutTwo && !gameFieldTwo.locked
      ensures log == []
    {
      this.playerOne := playerOne;
      playerTwo := "";
      gameFieldOne := new GameField(layoutOne);
      gameFieldTwo := new GameField(layoutTwo);
      playerWhosMoveItIs := NoPlayer;
      playerWhoWon := NoPlayer;
      log := [];
    }

    /** Both seats are taken; a full match has its second player among its
        players. */
    predicate IsFull()
      reads this
      ensures IsFull() <==> playerOne != "" && playerTwo != ""
      ensures IsFull() ==> IsAPlayerOfThisMatch(playerTwo)
    {
      playerOne != "" && playerTwo != ""
    }

    /** Whether `possiblePlayerId` holds one of the two seats. */
    predicate IsAPlayerOfThisMatch(possiblePlayerId: string)
      reads this
      ensures IsAPlayerOfThisMatch(possiblePlayerId) <==> possiblePlayerId in {playerOne, playerTwo}
    {
      playerOne == possiblePlayerId || playerTwo == possiblePlayerId
    }

    /** The board a shot of `socketId` lands on: player one shoots at the
        second board, anybody else at the first. */
    function OpponentGameField(socketId: string): (target: GameField)
      ensures {target, OwnGameField(socketId)} == {gameFieldOne, gameFieldTwo}
      ensures Valid() ==> target != OwnGameField(socketId)
      ensures socketId == playerTwo && socketId != playerOne ==> target == gameFieldOne
    {
      if socketId == playerOne then gameFieldTwo else gameFieldOne
    }

    /** The board a shot of `socketId` leaves alone. */
    function OwnGameField(socketId: string): GameField {
      if socketId == playerOne then gameFieldOne else gameFieldTwo
    }

    /** Whether `socketId` holds the turn; before the first turn is drawn
        the turn holder is "none", which is no player's id. */
    predicate IsItThisPlayersTurn(socketId: string)
      reads this
      ensures IsItThisPlayersTurn(socketId) <==> socketId == playerWhosMoveItIs
      ensures playerWhosMoveItIs == NoPlayer ==> (IsItThisPlayersTurn(socketId) <==> socketId == NoPlayer)
    {
      socketId == playerWhosMoveItIs
    }

    /** The checks a shot must pass before it changes anything. */
    ghost predicate ShotIsAccepted(socketId: string, fieldId: int)
      reads this, gameFieldOne, gameFieldTwo
    {
      IsItThisPlayersTurn(socketId) && OpponentGameField(socketId).IsClickableField(fieldId)
    }

    ghost function TurnEvents(): seq<Event>
      reads this
    {
      [Emit(playerOne, "isItMyTurn", Flag(playerOne == playerWhosMoveItIs)),
       Emit(playerTwo, "isItMyTurn", Flag(playerOne != playerWhosMoveItIs))]
    }

    ghost function WinningEvents(): seq<Event>
      reads this
    {
      [Emit(playerWhoWon, "won", Flag(true)),
       if playerWhoWon == playerOne then Emit(playerTwo, "won", Flag(false))
       else Emit(playerOne, "won", Flag(false))]
    }

    /** Everything the match tells its players after a change: both boards,
        the masked boards of the opponents, the ship maps, then either whose
        turn it is or who has won. */
    ghost function InformationEvents(): seq<Event>
      reads this, gameFieldOne, gameFieldTwo
    {
      [Emit(playerOne, "gameField", Board(gameFieldOne.FlatArray())),
       Emit(playerTwo, "gameField", Board(gameFieldTwo.FlatArray())),
       Emit(playerOne, "opponentGameField", Board(gameFieldTwo.AnonymousFlatArray())),
       Emit(playerTwo, "opponentGameField", Board(gameFieldOne.AnonymousFlatArray())),
       Emit(playerOne, "shipMap", ShipMap),
       Emit(playerTwo, "shipMap", ShipMap)]
      + (if playerWhoWon == NoPlayer then TurnEvents() else WinningEvents())
    }

    /** Adds the second player and opens the pre-game phase. */
    method AddPlayer(socketId: string)
      modifies this`playerTwo, this`log
      ensures playerTwo == socketId
      ensures IsFull() <==> playerOne != "" && socketId != ""
      ensures log == old(log) + [Emit(playerOne, "preGame", Flag(true)),
                                 Emit(playerOne, "gameField", Board(gameFieldOne.FlatArray())),
                                 Emit(socketId, "preGame", Flag(true)),
                                 Emit(socketId, "gameField", Board(gameFieldTwo.FlatArray()))]
    {
      playerTwo := socketId;
      StartPreGame();
    }

    method StartPreGame()
      modifies this`log
      ensures log == old(log) + [Emit(playerOne, "preGame", Flag(true)),
                                 Emit(playerOne, "gameField", Board(gameFieldOne.FlatArray())),
                                 Emit(playerTwo, "preGame", Flag(true)),
                                 Emit(playerTwo, "gameField", Board(gameFieldTwo.FlatArray()))]
    {
      log := log + [Emit(playerOne, "preGame", Flag(true))];
      log := log + [Emit(playerOne, "gameField", Board(gameFieldOne.FlatArray()))];
      log := log + [Emit(playerTwo, "preGame", Flag(true))];
      log := log + [Emit(playerTwo, "gameField", Board(gameFieldTwo.FlatArray()))];
    }

    /** Replaces the caller's own placement while that board is unlocked;
        a locked board, the opponent's board, and any call from somebody who
        is not a player are left alone. */
    method GenerateNewGameFieldForPlayer(socketId: string, layout: seq<Cell>)
      requires Valid()
      modifies gameFieldOne`cells, gameFieldTwo`cells, this`log
      ensures gameFieldOne.cells ==
        if socketId == playerOne && !gameFieldOne.locked then layout else old(gameFieldOne.cells)
      ensures gameFieldTwo.cells ==
        if socketId != playerOne && socketId == playerTwo && !gameFieldTwo.locked then layout
        else old(gameFieldTwo.cells)
      ensures log == old(log) +
        if socketId == playerOne && !gameFieldOne.locked then [Emit(playerOne, "gameField", Board(layout))]
        else if socketId != playerOne && socketId == playerTwo && !gameFieldTwo.locked
        then [Emit(playerTwo, "gameField", Board(layout))]
        else []
    {
      if socketId == playerOne {
        if !gameFieldOne.IsLocked() {
          gameFieldOne.GenerateGameField(layout);
          log := log + [Emit(playerOne, "gameField", Board(gameFieldOne.FlatArray()))];
        }
      } else if socketId == playerTwo {
        if !gameFieldTwo.IsLocked() {
          gameFieldTwo.GenerateGameField(layout);
          log := log + [Emit(playerTwo, "gameField", Board(gameFieldTwo.FlatArray()))];
        }
      }
    }

    /** Locks the caller's board. Whenever both boards are locked afterwards,
        the draw (an integer from 1 to 10) picks who moves first: player one
        for 1 to 5, player two for 6 to 10. */
    method PlayerIsReady(socketId: string, draw: int)
      requires Valid() && 1 <= draw <= 10
      modifies gameFieldOne`locked, gameFieldTwo`locked, this`playerWhosMoveItIs, this`log
      ensures gameFieldOne.locked == (old(gameFieldOne.locked) || socketId == playerOne)
      ensures gameFieldTwo.locked ==
        (old(gameFieldTwo.locked) || (socketId != playerOne && socketId == playerTwo))
      ensures playerWhosMoveItIs ==
        if gameFieldOne.locked && gameFieldTwo.locked
        then (if draw <= 5 then playerOne else playerTwo)
        else old(playerWhosMoveItIs)
      ensures log == old(log)
        + (if socketId == playerOne then [Emit(playerOne, "waitingForOpponent", Flag(true))]
           else if socketId == playerTwo then [Emit(playerTwo, "waitingForOpponent", Flag(true))]
           else [])
        + (if gameFieldOne.locked && gameFieldTwo.locked
           then [Emit(playerOne, "gameIsStarting", Flag(true)),
                 Emit(playerTwo, "gameIsStarting", Flag(true))] + InformationEvents()
           else [])
    {
      if socketId == playerOne {
        gameFieldOne.Lock();
        log := log + [Emit(playerOne, "waitingForOpponent", Flag(true))];
      } else if socketId == playerTwo {
        gameFieldTwo.Lock();
        log := log + [Emit(playerTwo, "waitingForOpponent", Flag(true))];
      }

      if gameFieldOne.IsLocked() && gameFieldTwo.IsLocked() {
        if draw <= 5 {
          playerWhosMoveItIs := playerOne;
        } else {
          playerWhosMoveItIs := playerTwo;
        }
        StartMatch();
      }
    }

    /** A shot of `socketId` at cell `fieldId` of the opponent's board.
        A shot out of turn, outside the board or at a resolved cell changes
        nothing and sends nothing. Otherwise a hit keeps the turn with the
        shooter, a miss passes it on, the shooter wins once no intact ship
        part is left on the target, and the result says whether a winner is
        recorded. */
    method ClickOnOpponentGameField(socketId: string, fieldId: int) returns (ended: bool)
      requires Valid()
      modifies this`playerWhosMoveItIs, this`playerWhoWon, this`log, gameFieldOne`cells, gameFieldTwo`cells
      ensures unchanged(OwnGameField(socketId))
      ensures !old(ShotIsAccepted(socketId, fieldId)) ==>
        unchanged(this, gameFieldOne, gameFieldTwo) && !ended
      ensures old(ShotIsAccepted(socketId, fieldId)) ==>
        var target := OpponentGameField(socketId);
        && (old(target.IsIntactShip(fieldId)) ==>
              && playerWhosMoveItIs == socketId
              && |target.cells| == |old(target.cells)|
              && !target.IsClickableField(fieldId)
              && forall j | 0 <= j < |target.cells| && j != fieldId ::
                   (target.cells[j] == Ship <==> old(target.cells)[j] == Ship) &&
                   (Clickable(target.cells[j]) <==> Clickable(old(target.cells)[j])))
        && (!old(target.IsIntactShip(fieldId)) ==>
              && target.cells == old(target.cells)[fieldId := Missed]
              && playerWhosMoveItIs == (if socketId == playerOne then playerTwo else playerOne))
        && playerWhoWon == (if target.AreNotFullyDestroyedShipPartsLeft() then old(playerWhoWon) else socketId)
        && ClickableCount(target.cells) == ClickableCount(old(target.cells)) - 1
        && (ended <==> playerWhoWon != NoPlayer)
        && log == old(log) + InformationEvents()
    {
      if !IsItThisPlayersTurn(socketId) {
        return false;
      }

      var affectedGameField := OpponentGameField(socketId);

      if !affectedGameField.IsValidCoordinate(fieldId) {
        return false;
      }

      if !affectedGameField.IsClickableField(fieldId) {
        return false;
      }

      ghost var before := affectedGameField.cells;
      if affectedGameField.IsIntactShip(fieldId) {
        affectedGameField.ClickOnShipPart(fieldId);
      } else {
        affectedGameField.SetMissed(fieldId);
        PassTurnOn();
      }
      ResolvingUsesUpOneCell(before, affectedGameField.cells, fieldId);
      ghost var resolved := affectedGameField.cells;

      if !affectedGameField.AreNotFullyDestroyedShipPartsLeft() {
        playerWhoWon := socketId;
      }

      ended := SendMatchItsInformations();
      assert affectedGameField.cells == resolved;
    }

    /** Tells both players everything; true exactly when a winner is recorded. */
    method SendMatchItsInformations() returns (won: bool)
      modifies this`log
      ensures won <==> playerWhoWon != NoPlayer
      ensures log == old(log) + InformationEvents()
    {
      log := log + [Emit(playerOne, "gameField", Board(gameFieldOne.FlatArray()))];
      log := log + [Emit(playerTwo, "gameField", Board(gameFieldTwo.FlatArray()))];
      log := log + [Emit(playerOne, "opponentGameField", Board(gameFieldTwo.AnonymousFlatArray()))];
      log := log + [Emit(playerTwo, "opponentGameField", Board(gameFieldOne.AnonymousFlatArray()))];
      log := log + [Emit(playerOne, "shipMap", ShipMap)];
      log := log + [Emit(playerTwo, "shipMap", ShipMap)];

      if playerWhoWon == NoPlayer {
        SendOutTurnInformation();
        won := false;
      } else {
        SendOutWinningAndLoosingInformation();
        won := true;
      }
    }

    method StartMatch()
      modifies this`log
      ensures log == old(log) + [Emit(playerOne, "gameIsStarting", Flag(true)),
                                 Emit(playerTwo, "gameIsStarting", Flag(true))] + InformationEvents()
    {
      log := log + [Emit(playerOne, "gameIsStarting", Flag(true))];
      log := log + [Emit(playerTwo, "gameIsStarting", Flag(true))];
      var _ := SendMatchItsInformations();
    }

    /** Tells each player whether it is their turn: exactly one of the two
        messages says yes. */
    method SendOutTurnInformation()
      modifies this`log
      ensures log == old(log) + TurnEvents()
    {
      if playerOne == playerWhosMoveItIs {
        log := log + [Emit(playerOne, "isItMyTurn", Flag(true))];
        log := log + [Emit(playerTwo, "isItMyTurn", Flag(false))];
      } else {
        log := log + [Emit(playerOne, "isItMyTurn", Flag(false))];
        log := log + [Emit(playerTwo, "isItMyTurn", Flag(true))];
      }
    }

    /** Tells the winner they won and the other player they lost. */
    method SendOutWinningAndLoosingInformation()
      modifies this`log
      ensures log == old(log) + WinningEvents()
    {
      log := log + [Emit(playerWhoWon, "won", Flag(true))];
      if playerWhoWon == playerOne {
        log := log + [Emit(playerTwo, "won", Flag(false))];
      } else {
        log := log + [Emit(playerOne, "won", Flag(false))];
      }
    }

    /** Hands the turn from player one to player two, and from anybody else
        to player one. */
    method PassTurnOn()
      modifies this`playerWhosMoveItIs
      ensures playerWhosMoveItIs == if old(playerWhosMoveItIs) == playerOne then playerTwo else playerOne
    {
      if playerWhosMoveItIs == playerOne {
        playerWhosMoveItIs := playerTwo;
      } else {
        playerWhosMoveItIs := playerOne;
      }
    }

    /** Tells both players that the match is aborted. */
    method CloseMatch()
      modifies this`log
      ensures log == old(log) + [Emit(playerTwo, "gameIsAborted", Flag(true)),
                                 Emit(playerOne, "gameIsAborted", Flag(true))]
    {
      log := log + [Emit(playerTwo, "gameIsAborted", Flag(true))];
      log := log + [Emit(playerOne, "gameIsAborted", Flag(true))];
    }
  }
}
