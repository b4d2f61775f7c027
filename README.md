# Battleships server core in Dafny

This project models the server side of a two-player Battleships game. The
server does two jobs:

- **Matchmaking** (`app.js`). A single waiting slot `lobbyBuffer` pairs arriving
  clients. The registry `runningGames` holds the running games by game id. The
  index `perPlayerInformation` maps each matched client to its game. Disconnects
  drop the game and put the surviving player back into the search. After a win,
  the game is cleaned up. The opponent is shown a copy of each board in which
  every cell starting with `"x"` (a ship part) is turned into water (`"o"`).
- **The match state machine** (`includes/MatchHandler.js`). It holds two players
  and two boards. Each player can regenerate their own board until they declare
  ready, which locks it. Once both boards are locked, a draw from 1 to 10 picks
  who moves first. A shot at an intact ship part keeps the turn. Any other
  accepted shot is a miss and passes the turn. A shot that is out of turn,
  outside the board or at a resolved cell is ignored. The shooter is recorded as
  the winner as soon as the target board has no intact ship part left.

The code is split into five modules:

- `GameFields` (`game_field.dfy`): the board class `GameField`. Its own source
  file is not part of this model. The model keeps a cell sequence and a
  `locked` flag, plus the members the match handler calls, each with the
  contract the match handler relies on. The cell states follow the client's
  codes `w`, `i`, `h`, `m` and `d`.
- `Messages` (`messages.dfy`): the messages sent to clients, shared by both
  servers' event logs, and the count of "it is your turn" messages.
- `Matches` (`match_handler.dfy`): the class `MatchHandler`. Its fields are
  updated in place, as in the source.
- `Boards` (`boards.dfy`): the string boards of `app.js`. It holds the
  predefined layout and the loop that hides the ships.
- `Matchmaker` (`matchmaker.dfy`): the class `GameServer`, whose fields are the
  three pieces of module state in `app.js`. Each method is specified by a
  function over the value `Registry`: `Search`, `Report` or `Leave`. Lemmas about
  those functions show that the registry invariant `Valid` is kept.

`Valid` says four things:

- every game id is below the next free id;
- both players of every game are distinct, non-empty and indexed to that game;
- every indexed player belongs to the game the index names;
- the waiting player is in no game.

Messages to clients (`io.sockets.to(x).emit(e, v)`) are not sent. Each one is
appended as `Emit(x, e, v)` to a ghost event log `log`, so the turn and win
notifications can be stated as properties of the log.

The two source files disagree about their shared interface:

- `app.js` builds a game with four arguments: two ids and two string boards.
- `MatchHandler.js` takes a first player and a socket handle, and builds its
  boards as `GameField` objects.

Each file is modelled on its own terms. In `Matchmaker`, a game is the plain
record `MatchRecord`: both players, the turn holder, the winner and two string
boards. The turn holder and the winner of a new record start as `"none"`, as in
the `MatchHandler` constructor.

The code (`app.js:58`) makes the arriving client player one and the waiting
client player two.

The predefined layout (`app.js:126`) has the same 100 cells in the same order as
the source. It is written as ten rows of ten, concatenated. This keeps the
proofs about it small.

Random choices are inputs: the board placements passed to the `MatchHandler`
constructor and to `GenerateNewGameFieldForPlayer`, and the draw passed to
`PlayerIsReady`. The predicates `IsFull` and `IsAPlayerOfThisMatch` are kept
as the definitions in `includes/MatchHandler.js:29-40`. `IsFull` is
constrained by the contracts of the constructor and of `AddPlayer`.

## Model

| member | source | states |
|---|---|---|
| `GameFields.ClickableCount` | includes/MatchHandler.js:111-113 | the number of cells a shot may still target is at most the board size, and it is zero exactly when no cell is clickable |
| `GameFields.ResolvingUsesUpOneCell` | includes/MatchHandler.js:111-120 | turning one clickable cell unclickable, with no other cell changing clickability, lowers the clickable count by exactly one |
| `GameFields.GameField.constructor` | includes/MatchHandler.js:19-20 | a new board holds the generated placement and is unlocked |
| `GameFields.GameField.Lock` | includes/MatchHandler.js:75 | the board is locked afterwards, and its cells are untouched |
| `GameFields.GameField.GenerateGameField` | includes/MatchHandler.js:57-58 | an unlocked board takes the new placement; the lock flag is untouched |
| `GameFields.GameField.IsLocked` | includes/MatchHandler.js:57 | the board reports locked exactly when its owner has declared ready |
| `GameFields.GameField.IsValidCoordinate` | includes/MatchHandler.js:107 | a coordinate is valid exactly when it names a cell of the board |
| `GameFields.GameField.IsClickableField` | includes/MatchHandler.js:111 | a clickable coordinate is on the board; every intact ship part is clickable; a clickable cell that is not a ship part is water |
| `GameFields.GameField.IsIntactShip` | includes/MatchHandler.js:115 | an intact ship part is on the board and clickable; any other cell on the board is not a ship part |
| `GameFields.GameField.AreNotFullyDestroyedShipPartsLeft` | includes/MatchHandler.js:122 | while a ship part is intact the board still has a cell to target; once it is false no cell is an intact ship part |
| `GameFields.GameField.FlatArray` | includes/MatchHandler.js:144 | the owner's copy has one entry per cell and shows exactly the intact ship parts as ship parts |
| `GameFields.GameField.ClickOnShipPart` | includes/MatchHandler.js:115-116 | the hit cell can no longer be targeted; for every other cell, whether it is an intact ship part and whether it is clickable stay the same |
| `GameFields.GameField.SetMissed` | includes/MatchHandler.js:117-118 | exactly the targeted water cell becomes missed |
| `GameFields.GameField.AnonymousFlatArray` | includes/MatchHandler.js:147-148 | the opponent's copy has the same size, shows every intact ship part as water, and shows every other cell as stored |
| `Matches.MatchHandler.constructor` | includes/MatchHandler.js:14-23 | a new match has no second player, turn holder and winner are "none", the match is not full, the two boards are fresh, distinct and unlocked |
| `Matches.MatchHandler.IsFull` | includes/MatchHandler.js:29-31 | the match is full exactly when both ids are non-empty, and then the second player is a player of the match |
| `Matches.MatchHandler.IsAPlayerOfThisMatch` | includes/MatchHandler.js:38-40 | an id is a player of the match exactly when it is one of the two seats |
| `Matches.MatchHandler.OpponentGameField` | includes/MatchHandler.js:187-193 | the board a shot lands on and the shooter's own board are the match's two boards, distinct in a valid match; player one shoots at board two, player two at board one |
| `Matches.MatchHandler.IsItThisPlayersTurn` | includes/MatchHandler.js:236-238 | an id may move exactly when it holds the turn; before a turn is drawn only the id "none" would |
| `Matches.MatchHandler.AddPlayer` | includes/MatchHandler.js:46-49 | the match is full afterwards exactly when both ids are non-empty; both players are sent "preGame" and their own board |
| `Matches.MatchHandler.StartPreGame` | includes/MatchHandler.js:164-170 | each player is told the pre-game started and receives their own board, in source order |
| `Matches.MatchHandler.GenerateNewGameFieldForPlayer` | includes/MatchHandler.js:55-67 | only the caller's own unlocked board takes the new placement; a locked board, the other board and a call from a non-player change nothing; locks, players and turn stay |
| `Matches.MatchHandler.PlayerIsReady` | includes/MatchHandler.js:73-91 | only the caller's board gets locked; the turn holder changes only when both boards are locked, to player one for a draw of at most 5 and to player two otherwise; start messages and the full information follow then |
| `Matches.MatchHandler.ClickOnOpponentGameField` | includes/MatchHandler.js:99-129 | a shot out of turn, off the board or at a resolved cell changes nothing; otherwise only the opponent's board changes, a hit keeps the turn, a miss marks the cell and swaps the turn, the shooter becomes winner iff no intact part is left, one clickable cell is used up, and the result is true exactly when a winner is recorded |
| `Matches.MatchHandler.SendMatchItsInformations` | includes/MatchHandler.js:143-159 | both boards, both masked opponent boards and both ship maps are sent, then the turn or the win messages; the result says whether a winner is recorded |
| `Matches.MatchHandler.StartMatch` | includes/MatchHandler.js:175-180 | both players are told the game starts, then receive the full information |
| `Matches.MatchHandler.SendOutTurnInformation` | includes/MatchHandler.js:198-206 | player one is told it is their turn exactly when they hold it, and player two exactly when player one does not |
| `Matches.MatchHandler.SendOutWinningAndLoosingInformation` | includes/MatchHandler.js:211-218 | the winner is told they won and the other player that they lost |
| `Matches.MatchHandler.PassTurnOn` | includes/MatchHandler.js:223-229 | the turn goes from player one to player two, and from anybody else to player one |
| `Matches.MatchHandler.CloseMatch` | includes/MatchHandler.js:134-137 | both players are told the match is aborted |
| `Matches.OneTurnGrantUntilWon` | includes/MatchHandler.js:153-158 | in the information a match sends, exactly one "it is your turn" message goes out while nobody has won, and none once a winner is recorded |
| `Boards.OpponentView` | app.js:86-98 | the opponent's board has the same length, shows no cell starting with "x", shows "o" where the board has a ship part, and shows every other cell unchanged |
| `Boards.HideShips` | app.js:87-98 | the loop over a copy of the board computes exactly the opponent's view; the stored board, a value, is not modified |
| `Boards.OpponentViewShowsNoShips` | app.js:89-98 | the opponent's view contains no ship cell at all |
| `Boards.PredefinedGameFieldSize` | app.js:126 | the predefined board has 100 cells |
| `Boards.PredefinedGameFieldShipCells` | app.js:126 | 30 cells of the predefined board are ship cells |
| `Boards.PredefinedGameFieldCellsWellFormed` | app.js:126 | every cell of the predefined board is "o" or "x" followed by one digit |
| `Boards.PredefinedOpponentViewIsWater` | app.js:126 | at the start of a game the opponent sees 100 water cells |
| `Matchmaker.NewMatch` | app.js:67-69 | a new game seats the first id as player one and the second as player two, has no turn holder and no winner yet, and both boards have 100 cells, 30 of them ship parts, which the opponent sees as 100 water cells |
| `Matchmaker.Search` | app.js:54-64 | the slot flips between the arrival and empty; no game already stored under another id changes; on a pairing both players are indexed to the next id, under which the new game is stored; the id counter never goes back |
| `Matchmaker.Report` | app.js:103-123 | the slot and the id counter stay; the game stays exactly while nobody has won; with no winner the whole state is unchanged; every other game is untouched |
| `Matchmaker.Leave` | app.js:23-44 | the waiting client leaving only empties the slot; a matched player's game is gone afterwards and every other game except one under the next id is unchanged; a client with no game changes nothing, as its failed lookup is caught; the id counter never goes back |
| `Matchmaker.OneTurnGrantUntilWon` | app.js:103-110 | while nobody has won, exactly one of the two players is told it is their turn (player one if they hold it, player two otherwise); once somebody has won, nobody is |
| `Matchmaker.WinnerAndLoserAreTold` | app.js:111-118 | once a player of the game has won, they are sent "won" true and the other player "won" false |
| `Matchmaker.SearchPreservesValid` | app.js:54-64 | a newly connected client, searching, keeps the registry invariant |
| `Matchmaker.SearchPairsOrWaits` | app.js:54-64 | with the slot empty the client only waits in it; otherwise exactly one game is added under an id no running game had, pairing the arrival (player one) with the waiting client (player two), both are indexed to it, and the slot is emptied |
| `Matchmaker.ReportPreservesValid` | app.js:103-123 | reporting a game keeps the registry invariant, with or without a winner |
| `Matchmaker.WonGameLeavesNoTrace` | app.js:119-122 | after a win is reported, the game, both players and every index entry naming the game are gone, and the waiting slot is untouched |
| `Matchmaker.LeavePreservesValid` | app.js:23-44 | every disconnect keeps the registry invariant |
| `Matchmaker.LeaveForgetsPlayer` | app.js:23-44 | after a disconnect the id neither waits nor is indexed, so later actions from it find no game; its game is gone, and the other player waits in the slot or is paired with the client that was waiting |
| `Matchmaker.StoreBySizeKeyWhenUnused` | app.js:66-76 | with the key `runningGames.size` unused, the id passed to the report and returned is that key, and the game is stored under it |
| `Matchmaker.StoreBySizeOverwritesRunningGame` | app.js:66-76 | with only game 1 running, storing by size overwrites game 1, and the id passed to the report, 0, names no game, so the report fails on it |
| `Matchmaker.GameServer.constructor` | app.js:9-11 | the server starts with an empty slot, no games and an empty index, which satisfies the invariant |
| `Matchmaker.GameServer.PlayerSearchingForGame` | app.js:54-64 | the new state is `Search` of the old one; the messages sent are those of a new game when a pairing happens, otherwise none |
| `Matchmaker.GameServer.CreateNewGame` | app.js:66-77 | the game is stored under the next id, which is unused in a valid state; that id is returned; both players are told the game starts and receive its information; slot and index are untouched |
| `Matchmaker.GameServer.SendRunningGameItsInformations` | app.js:79-124 | the new state is `Report` of the old one; both boards, both masked opponent boards, then the turn or the win messages are sent in source order |
| `Matchmaker.GameServer.Disconnect` | app.js:23-44 | the new state is `Leave` of the old one; the abort messages go to both players of a dropped game, followed by the messages of re-queueing the survivor |

## Findings

| source | as written | input that shows it | evidently intended | confidence | as-written member | corrected member |
|---|---|---|---|---|---|---|
| app.js:66-76 | a new game is stored under key `runningGames.size`; then `runningGames.size - 1` is passed to the report (line 74) and, only if that succeeds, returned (line 76) | games 0 and 1 run, the slot is empty; a player of game 0 disconnects, so its partner waits in the slot and game 0 is removed; a new client connects and pairs with that partner. Line 67 stores the new game under key 1, overwriting game 1, and line 74 reports id 0. Line 80 reads `playerOne` of the missing game 0 and throws, so `createNewGame` never returns: neither new player is indexed, the slot is not cleared (lines 60-62 are skipped), and the new connection's handlers (lines 23-50) are never registered | each new game gets an id that no running game has, and that id is reported and returned | high, not executed | `Matchmaker.StoreBySizeOverwritesRunningGame` | `Matchmaker.SearchPairsOrWaits` |

The rest of the model uses the corrected keying. `GameServer` keeps a counter
`nextGameId` that only grows. Until the first game is removed, the counter
equals `runningGames.size`, so the two keyings agree.

## Left out

- Transport: the socket.io connection wiring, the Express server, the static
  file route and `server.listen` (app.js:4-21) are left out. Messages are only
  recorded in the ghost log.
- The `clickOnOpponentGameField` socket handler (app.js:46-50) is left out. It
  is transport glue, and its unguarded lookup fails with an uncaught exception
  for a client that has no game.
- The board generator, the `config` module and the ship list are left out. New
  placements are inputs. The board size is whatever the placement has.
- `Math.random` (includes/MatchHandler.js:83) is left out. The draw is an input
  from 1 to 10.
- `Logger` and `console.log` output are left out, including the error log in
  the disconnect handler's `catch`.
- The ship map payload (`getShipMapAsArray`) is sent in the log as an opaque
  `ShipMap` value. Its content is not modelled.
- A `fieldId` that is not an integer (the client sends a JSON value) is not
  modelled. Shots are integers.
- The string rendering of a `GameField` by `makeFlatArray` is not modelled. The
  board is sent as its sequence of cell states.
- `GameFields.GameField.GenerateGameField` requires an unlocked board, because
  the match handler only calls it after checking the lock. Its behaviour on a
  locked board is not part of this model.
- `GameFields.GameField.ClickOnShipPart` does not state the new state of the hit
  cell, nor how the other cells of a ship turn into destroyed cells when the
  ship sinks. The board's source is not part of this model. The contract keeps
  only what the match handler relies on.
- `Matches.MatchHandler.ClickOnOpponentGameField` inherits that weaker
  statement about a hit cell. It does not fix the new contents of the target
  board after a hit.
- `Matchmaker.SearchPreservesValid` assumes a newly connected client: a
  non-empty id that is neither waiting nor in a game. Socket ids are unique per
  connection. For a repeated id, the source would overwrite the index entry
  without any check.
- `Matchmaker.GameServer.CreateNewGame` keys games by a growing counter
  instead of `runningGames.size` (see Findings).
