/** The server's matchmaking: a single waiting slot, the registry of running
    games and the index from each matched player to their game.

    The three pieces of server state are fields of `GameServer`; each of its
    methods is specified by a function over `Registry`, the same state as a
    value, and the lemmas below are about those functions. Messages to the
    clients are appended to the ghost event log `log`. */
module Matchmaker {
  import opened Boards
  import opened Messages

  /** A running game as the server stores it. */
  datatype MatchRecord = MatchRecord(
    playerOne: string,
    playerTwo: string,
    playerWhosMoveItIs: string,
    playerWhoWon: string,
    gameFieldOne: seq<string>,
    gameFieldTwo: seq<string>)

  /** The server state: the waiting slot ("" when empty), the running games by
      game id, the game id of every matched player, and the next unused game
      id. */
  datatype Registry = Registry(
    lobbyBuffer: string,
    runningGames: map<int, MatchRecord>,
    perPlayerInformation: map<string, int>,
    nextGameId: nat)

  /** A new game: both players, nobody's turn yet, nobody has won, and the
      predefined board on both sides. */
  function NewMatch(playerOneId: string, playerTwoId: string): (game: MatchRecord)
    ensures IsPlayerOf(playerOneId, game) && IsPlayerOf(playerTwoId, game)
    ensures game.playerWhosMoveItIs == NoPlayer && game.playerWhoWon == NoPlayer
    ensures game.playerOne == playerOneId && game.playerTwo == playerTwoId
    ensures |game.gameFieldOne| == |game.gameFieldTwo| == 100
    ensures ShipCells(game.gameFieldOne) == ShipCells(game.gameFieldTwo) == 30
    ensures OpponentView(game.gameFieldOne) == OpponentView(game.gameFieldTwo) == seq(100, i => "o")
  {
    PredefinedGameFieldSize();
    PredefinedGameFieldShipCells();
    PredefinedOpponentViewIsWater();
    MatchRecord(playerOneId, playerTwoId, NoPlayer, NoPlayer, PredefinedGameField, PredefinedGameField)
  }

  predicate IsPlayerOf(socketId: string, game: MatchRecord) {
    socketId == game.playerOne || socketId == game.playerTwo
  }

  /** A player arrives. With the slot empty they wait in it; otherwise they
      are paired with the waiting player in a new game under a fresh id, both
      are indexed to it, and the slot is emptied. */
  function Search(s: Registry, socketId: string): (t: Registry)
    ensures t.lobbyBuffer == (if s.lobbyBuffer == "" then socketId else "")
    ensures s.runningGames.Keys <= t.runningGames.Keys
    ensures t.runningGames - {s.nextGameId} == s.runningGames - {s.nextGameId}
    ensures s.lobbyBuffer != "" ==>
      && socketId in t.perPlayerInformation && s.lobbyBuffer in t.perPlayerInformation
      && t.perPlayerInformation[socketId] == t.perPlayerInformation[s.lobbyBuffer] == s.nextGameId
      && s.nextGameId in t.runningGames && t.runningGames[s.nextGameId] == NewMatch(socketId, s.lobbyBuffer)
    ensures s.nextGameId <= t.nextGameId
  {
    if s.lobbyBuffer == "" then
      s.(lobbyBuffer := socketId)
    else
      var gameId := s.nextGameId;
      Registry(
        "",
        s.runningGames[gameId := NewMatch(socketId, s.lobbyBuffer)],
        s.perPlayerInformation[socketId := gameId][s.lobbyBuffer := gameId],
        gameId + 1)
  }

  /** The state after a game has been reported to its players: unchanged
      while nobody has won; once somebody has, the game and both of its
      players are removed. */
  function Report(s: Registry, gameId: int): (t: Registry)
    requires gameId in s.runningGames
    ensures t.lobbyBuffer == s.lobbyBuffer && t.nextGameId == s.nextGameId
    ensures gameId in t.runningGames <==> s.runningGames[gameId].playerWhoWon == NoPlayer
    ensures s.runningGames[gameId].playerWhoWon == NoPlayer ==> t == s
    ensures t.runningGames - {gameId} == s.runningGames - {gameId}
  {
    var game := s.runningGames[gameId];
    if game.playerWhoWon == NoPlayer then s
    else s.(perPlayerInformation := s.perPlayerInformation - {game.playerOne, game.playerTwo},
            runningGames := s.runningGames - {gameId})
  }

  /** The player left behind when `socketId` leaves `game`. */
  function Survivor(game: MatchRecord, socketId: string): string {
    if game.playerOne == socketId then game.playerTwo else game.playerOne
  }

  /** A player disconnects. The waiting player just empties the slot. A
      matched player's game is dropped, both players are removed from the
      index and the other player searches for a game again. For anybody else
      the lookup fails and nothing changes. */
  function Leave(s: Registry, socketId: string): (t: Registry)
    ensures socketId == s.lobbyBuffer ==> t == s.(lobbyBuffer := "")
    ensures socketId != s.lobbyBuffer && socketId in s.perPlayerInformation
              && s.perPlayerInformation[socketId] in s.runningGames ==>
      && s.perPlayerInformation[socketId] !in t.runningGames
      && t.runningGames - {s.perPlayerInformation[socketId], s.nextGameId}
         == s.runningGames - {s.perPlayerInformation[socketId], s.nextGameId}
    ensures socketId != s.lobbyBuffer
              && (socketId !in s.perPlayerInformation || s.perPlayerInformation[socketId] !in s.runningGames) ==>
      t == s
    ensures t.runningGames.Keys <= s.runningGames.Keys + {s.nextGameId}
    ensures s.nextGameId <= t.nextGameId
  {
    if socketId == s.lobbyBuffer then
      s.(lobbyBuffer := "")
    else if socketId in s.perPlayerInformation && s.perPlayerInformation[socketId] in s.runningGames then
      var gameId := s.perPlayerInformation[socketId];
      var game := s.runningGames[gameId];
      var unindexed := s.(perPlayerInformation := s.perPlayerInformation - {game.playerOne, game.playerTwo});
      var requeued := Search(unindexed, Survivor(game, socketId));
      requeued.(runningGames := requeued.runningGames - {gameId})
    else
      s
  }

  // Messages

  /** What the server tells both players of `game`: their own boards, the
      opponent's board with the ships hidden, then either whose turn it is or
      who has won. */
  ghost function InfoEvents(game: MatchRecord): seq<Event> {
    [Emit(game.playerOne, "gameField", TextBoard(game.gameFieldOne)),
     Emit(game.playerTwo, "gameField", TextBoard(game.gameFieldTwo)),
     Emit(game.playerOne, "opponentGameField", TextBoard(OpponentView(game.gameFieldTwo))),
     Emit(game.playerTwo, "opponentGameField", TextBoard(OpponentView(game.gameFieldOne)))]
    + (if game.playerWhoWon == NoPlayer then
         [Emit(game.playerOne, "isItMyTurn", Flag(game.playerOne == game.playerWhosMoveItIs)),
          Emit(game.playerTwo, "isItMyTurn", Flag(game.playerOne != game.playerWhosMoveItIs))]
       else
         [Emit(game.playerWhoWon, "won", Flag(true)),
          if game.playerWhoWon == game.playerOne then Emit(game.playerTwo, "won", Flag(false))
          else Emit(game.playerOne, "won", Flag(false))])
  }

  ghost function StartEvents(playerOneId: string, playerTwoId: string): seq<Event> {
    [Emit(playerOneId, "gameIsStarting", Flag(true)), Emit(playerTwoId, "gameIsStarting", Flag(true))]
    + InfoEvents(NewMatch(playerOneId, playerTwoId))
  }

  ghost function SearchEvents(s: Registry, socketId: string): seq<Event> {
    if s.lobbyBuffer == "" then [] else StartEvents(socketId, s.lobbyBuffer)
  }

  ghost function LeaveEvents(s: Registry, socketId: string): seq<Event> {
    if socketId == s.lobbyBuffer then []
    else if socketId in s.perPlayerInformation && s.perPlayerInformation[socketId] in s.runningGames then
      var game := s.runningGames[s.perPlayerInformation[socketId]];
      var unindexed := s.(perPlayerInformation := s.perPlayerInformation - {game.playerOne, game.playerTwo});
      [Emit(game.playerOne, "gameIsAborted", Flag(true)), Emit(game.playerTwo, "gameIsAborted", Flag(true))]
      + SearchEvents(unindexed, Survivor(game, socketId))
    else []
  }

  /** While nobody has won, exactly one of the two players is told that it is
      their turn: player one when they hold the turn, player two otherwise.
      Once somebody has won, nobody is told so. */
  lemma OneTurnGrantUntilWon(game: MatchRecord)
    ensures TurnGrants(InfoEvents(game)) == if game.playerWhoWon == NoPlayer then 1 else 0
    ensures game.playerWhoWon == NoPlayer ==>
      Emit(if game.playerOne == game.playerWhosMoveItIs then game.playerOne else game.playerTwo,
           "isItMyTurn", Flag(true)) in InfoEvents(game)
  {
    var boards := InfoEvents(game)[..4];
    var tail := InfoEvents(game)[4..];
    assert InfoEvents(game) == boards + tail;
    TurnGrantsAppend(boards, tail);
    NoTurnGrants(boards);
    assert tail == [tail[0]] + [tail[1]];
    TurnGrantsAppend([tail[0]], [tail[1]]);
    assert [tail[0]][1..] == [] && [tail[1]][1..] == [];
  }

  /** Once somebody has won, the winner is told they won and the other
      player that they lost. */
  lemma WinnerAndLoserAreTold(game: MatchRecord)
    requires game.playerWhoWon == game.playerOne || game.playerWhoWon == game.playerTwo
    requires game.playerWhoWon != NoPlayer
    ensures Emit(game.playerWhoWon, "won", Flag(true)) in InfoEvents(game)
    ensures Emit(if game.playerWhoWon == game.playerOne then game.playerTwo else game.playerOne,
                 "won", Flag(false)) in InfoEvents(game)
  {
    assert InfoEvents(game)[4] == Emit(game.playerWhoWon, "won", Flag(true));
  }

  // The registry invariant

  /** Both players of a stored game are distinct, named, and indexed to it. */
  ghost predicate Seated(s: Registry, gameId: int)
    requires gameId in s.runningGames
  {
    var game := s.runningGames[gameId];
    && game.playerOne != "" && game.playerTwo != "" && game.playerOne != game.playerTwo
    && game.playerOne in s.perPlayerInformation && s.perPlayerInformation[game.playerOne] == gameId
    && game.playerTwo in s.perPlayerInformation && s.perPlayerInformation[game.playerTwo] == gameId
  }

  /** Every game id is below the next one and its players are seated; every
      indexed player belongs to the game the index names; the waiting player
      is in no game. */
  ghost predicate Valid(s: Registry) {
    && (forall gameId | gameId in s.runningGames :: 0 <= gameId < s.nextGameId && Seated(s, gameId))
    && (forall id | id in s.perPlayerInformation ::
          s.perPlayerInformation[id] in s.runningGames
          && IsPlayerOf(id, s.runningGames[s.perPlayerInformation[id]]))
    && s.lobbyBuffer !in s.perPlayerInformation
  }

  /** Only named players are indexed, so the empty slot marker never is. */
  lemma NoEmptyIdIndexed(s: Registry)
    requires Valid(s)
    ensures "" !in s.perPlayerInformation
  {
    forall id | id in s.perPlayerInformation
      ensures id != ""
    {
      assert Seated(s, s.perPlayerInformation[id]);
    }
  }

  /** A freshly connected client: a real id, neither waiting nor in a game. */
  ghost predicate Newcomer(s: Registry, socketId: string) {
    socketId != "" && socketId != s.lobbyBuffer && socketId !in s.perPlayerInformation
  }

  /** Arrivals keep the invariant. */
  lemma SearchPreservesValid(s: Registry, socketId: string)
    requires Valid(s) && Newcomer(s, socketId)
    ensures Valid(Search(s, socketId))
  {
    var t := Search(s, socketId);
    if s.lobbyBuffer != "" {
      NoEmptyIdIndexed(s);
      var gameId := s.nextGameId;
      assert gameId !in s.runningGames;
      forall k | k in t.runningGames
        ensures 0 <= k < t.nextGameId && Seated(t, k)
      {
        if k != gameId {
          var game := s.runningGames[k];
          assert Seated(s, k);
          assert game.playerOne != socketId && game.playerOne != s.lobbyBuffer;
          assert game.playerTwo != socketId && game.playerTwo != s.lobbyBuffer;
        }
      }
    }
  }

  /** With the slot empty an arrival only waits; otherwise exactly one game
      is added, under an id no running game had, pairing the arrival (player
      one) with the waiting player (player two), both indexed to it, and the
      slot is emptied. */
  lemma SearchPairsOrWaits(s: Registry, socketId: string)
    requires Valid(s)
    ensures var t := Search(s, socketId);
      if s.lobbyBuffer == "" then
        t.lobbyBuffer == socketId && t.runningGames == s.runningGames
        && t.perPlayerInformation == s.perPlayerInformation
      else
        && t.lobbyBuffer == ""
        && |t.runningGames| == |s.runningGames| + 1
        && exists gameId :: gameId !in s.runningGames
             && t.runningGames == s.runningGames[gameId := NewMatch(socketId, s.lobbyBuffer)]
             && t.perPlayerInformation == s.perPlayerInformation[socketId := gameId][s.lobbyBuffer := gameId]
  {
    if s.lobbyBuffer != "" {
      var gameId := s.nextGameId;
      assert gameId !in s.runningGames;
      assert Search(s, socketId).runningGames == s.runningGames[gameId := NewMatch(socketId, s.lobbyBuffer)];
    }
  }

  /** Reporting a game keeps the invariant. */
  lemma ReportPreservesValid(s: Registry, gameId: int)
    requires Valid(s) && gameId in s.runningGames
    ensures Valid(Report(s, gameId))
  {
    var game := s.runningGames[gameId];
    var t := Report(s, gameId);
    if game.playerWhoWon != NoPlayer {
      assert Seated(s, gameId);
      forall k | k in t.runningGames
        ensures 0 <= k < t.nextGameId && Seated(t, k)
      {
        assert Seated(s, k);
      }
    }
  }

  /** Once somebody has won, nothing of the game is left: neither the game,
      nor an index entry pointing at it, nor either player in the index. */
  lemma WonGameLeavesNoTrace(s: Registry, gameId: int)
    requires Valid(s) && gameId in s.runningGames
    requires s.runningGames[gameId].playerWhoWon != NoPlayer
    ensures var t := Report(s, gameId);
      && gameId !in t.runningGames
      && s.runningGames[gameId].playerOne !in t.perPlayerInformation
      && s.runningGames[gameId].playerTwo !in t.perPlayerInformation
      && (forall id | id in t.perPlayerInformation :: t.perPlayerInformation[id] != gameId)
      && t.lobbyBuffer == s.lobbyBuffer
  {
    var game := s.runningGames[gameId];
    var t := Report(s, gameId);
    forall id | id in t.perPlayerInformation
      ensures t.perPlayerInformation[id] != gameId
    {
      assert IsPlayerOf(id, s.runningGames[s.perPlayerInformation[id]]);
    }
  }

  /** Disconnects keep the invariant. */
  lemma LeavePreservesValid(s: Registry, socketId: string)
    requires Valid(s)
    ensures Valid(Leave(s, socketId))
  {
    NoEmptyIdIndexed(s);
    if socketId != s.lobbyBuffer
      && socketId in s.perPlayerInformation && s.perPlayerInformation[socketId] in s.runningGames
    {
      var gameId := s.perPlayerInformation[socketId];
      var game := s.runningGames[gameId];
      assert Seated(s, gameId);
      var survivor := Survivor(game, socketId);
      var unindexed := s.(perPlayerInformation := s.perPlayerInformation - {game.playerOne, game.playerTwo});
      var requeued := Search(unindexed, survivor);
      var t := requeued.(runningGames := requeued.runningGames - {gameId});
      assert t == Leave(s, socketId);
      assert survivor != s.lobbyBuffer && survivor != "";
      assert survivor !in unindexed.perPlayerInformation;
      assert t.lobbyBuffer !in t.perPlayerInformation;
      // Every other game keeps its players, none of whom is involved here.
      forall k | k in t.runningGames
        ensures 0 <= k < t.nextGameId && Seated(t, k)
      {
        if k in s.runningGames {
          assert Seated(s, k);
          var other := s.runningGames[k];
          assert other.playerOne != game.playerOne && other.playerOne != game.playerTwo;
          assert other.playerTwo != game.playerOne && other.playerTwo != game.playerTwo;
          assert other.playerOne != s.lobbyBuffer && other.playerTwo != s.lobbyBuffer;
        }
      }
      forall id | id in t.perPlayerInformation
        ensures t.perPlayerInformation[id] in t.runningGames
          && IsPlayerOf(id, t.runningGames[t.perPlayerInformation[id]])
      {
        if id in unindexed.perPlayerInformation && id != survivor && id != s.lobbyBuffer {
          var k := s.perPlayerInformation[id];
          assert k != gameId;
        }
      }
    }
  }

  /** After a disconnect the id is gone: it neither waits nor is indexed, so
      any later action from it finds no game. The game it played in is
      dropped, and the other player either waits in the slot or has been
      paired with the player who was waiting. */
  lemma LeaveForgetsPlayer(s: Registry, socketId: string)
    requires Valid(s) && socketId != ""
    ensures var t := Leave(s, socketId);
      socketId != t.lobbyBuffer && socketId !in t.perPlayerInformation
    ensures socketId in s.perPlayerInformation ==>
      var gameId := s.perPlayerInformation[socketId];
      var survivor := Survivor(s.runningGames[gameId], socketId);
      var t := Leave(s, socketId);
      && gameId !in t.runningGames
      && (if s.lobbyBuffer == "" then t.lobbyBuffer == survivor
          else t.lobbyBuffer == "" && survivor in t.perPlayerInformation
               && t.runningGames[t.perPlayerInformation[survivor]] == NewMatch(survivor, s.lobbyBuffer))
  {
    if socketId != s.lobbyBuffer && socketId in s.perPlayerInformation {
      var gameId := s.perPlayerInformation[socketId];
      assert Seated(s, gameId);
    }
  }

  // How the source keys new games, and what goes wrong with it

  /** The game store as written: the new game is put under the key equal to
      the number of stored games, and the id passed to the report (and
      returned only if the report succeeds) is that number, recounted after
      the insertion, minus one. */
  function StoreBySize(games: map<int, MatchRecord>, game: MatchRecord): (map<int, MatchRecord>, int) {
    var stored := games[|games| := game];
    (stored, |stored| - 1)
  }

  /** While the key is unused (no game has been removed yet), the id passed
      to the report is the key the game is stored under. */
  lemma StoreBySizeKeyWhenUnused(games: map<int, MatchRecord>, game: MatchRecord)
    requires |games| !in games
    ensures StoreBySize(games, game).1 == |games|
    ensures StoreBySize(games, game).0 == games[|games| := game]
  {
  }

  /** Once game 0 has been removed while game 1 still runs, the next new game
      overwrites game 1, and the id passed to the report, 0, names no game, so
      the report fails on it. */
  lemma StoreBySizeOverwritesRunningGame(running: MatchRecord, newcomer: MatchRecord)
    requires running != newcomer
    ensures var (stored, gameId) := StoreBySize(map[1 := running], newcomer);
      && stored == map[1 := newcomer] && stored[1] != running
      && gameId == 0 && gameId !in stored
  {
    var stored := map[1 := running][1 := newcomer];
    assert stored == map[1 := newcomer];
  }

  // The server

  class GameServer {
    var lobbyBuffer: string
    var runningGames: map<int, MatchRecord>
    var perPlayerInformation: map<string, int>
    var nextGameId: nat
    ghost var log: seq<Event>

    function State(): Registry
      reads this
    {
      Registry(lobbyBuffer, runningGames, perPlayerInformation, nextGameId)
    }

    /** Nobody waiting, no games, nobody indexed. */
    constructor ()
      ensures State() == Registry("", map[], map[], 0) && Valid(State())
      ensures log == []
    {
      lobbyBuffer := "";
      runningGames := map[];
      perPlayerInformation := map[];
      nextGameId := 0;
      log := [];
    }

    method PlayerSearchingForGame(socketId: string)
      modifies this
      ensures State() == Search(old(State()), socketId)
      ensures log == old(log) + SearchEvents(old(State()), socketId)
    {
      if lobbyBuffer == "" {
        lobbyBuffer := socketId;
      } else {
        var gameId := CreateNewGame(socketId, lobbyBuffer);
        perPlayerInformation := perPlayerInformation[socketId := gameId];
        perPlayerInformation := perPlayerInformation[lobbyBuffer := gameId];
        lobbyBuffer := "";
      }
    }

    /** Stores a new game under the next game id, tells both players that it
        starts, reports it to them, and returns its id. */
    method CreateNewGame(playerOneId: string, playerTwoId: string) returns (gameId: int)
      modifies this
      ensures gameId == old(nextGameId) && nextGameId == gameId + 1
      ensures Valid(old(State())) ==> gameId !in old(runningGames)
      ensures runningGames == old(runningGames)[gameId := NewMatch(playerOneId, playerTwoId)]
      ensures lobbyBuffer == old(lobbyBuffer) && perPlayerInformation == old(perPlayerInformation)
      ensures log == old(log) + StartEvents(playerOneId, playerTwoId)
    {
      gameId := nextGameId;
      runningGames := runningGames[gameId := NewMatch(playerOneId, playerTwoId)];
      nextGameId := nextGameId + 1;

      log := log + [Emit(playerOneId, "gameIsStarting", Flag(true))];
      log := log + [Emit(playerTwoId, "gameIsStarting", Flag(true))];

      SendRunningGameItsInformations(gameId);
    }

    /** Reports a game to its players and, once somebody has won, removes
        the game and its players. */
    method SendRunningGameItsInformations(gameId: int)
      requires gameId in runningGames
      modifies this
      ensures State() == Report(old(State()), gameId)
      ensures log == old(log) + InfoEvents(old(runningGames)[gameId])
    {
      var game := runningGames[gameId];
      ghost var start := log;
      var playerOneId := game.playerOne;
      var playerTwoId := game.playerTwo;

      log := log + [Emit(playerOneId, "gameField", TextBoard(game.gameFieldOne))];
      log := log + [Emit(playerTwoId, "gameField", TextBoard(game.gameFieldTwo))];

      var playerOneGameField := HideShips(game.gameFieldOne);
      var playerTwoGameField := HideShips(game.gameFieldTwo);

      log := log + [Emit(playerOneId, "opponentGameField", TextBoard(playerTwoGameField))];
      log := log + [Emit(playerTwoId, "opponentGameField", TextBoard(playerOneGameField))];
      assert log == start + InfoEvents(game)[..4];

      if game.playerWhoWon == NoPlayer {
        if playerOneId == game.playerWhosMoveItIs {
          log := log + [Emit(playerOneId, "isItMyTurn", Flag(true))];
          log := log + [Emit(playerTwoId, "isItMyTurn", Flag(false))];
        } else {
          log := log + [Emit(playerOneId, "isItMyTurn", Flag(false))];
          log := log + [Emit(playerTwoId, "isItMyTurn", Flag(true))];
        }
        assert log == start + InfoEvents(game);
      } else {
        log := log + [Emit(game.playerWhoWon, "won", Flag(true))];
        if game.playerWhoWon == game.playerOne {
          log := log + [Emit(game.playerTwo, "won", Flag(false))];
        } else {
          log := log + [Emit(game.playerOne, "won", Flag(false))];
        }
        assert log == start + InfoEvents(game);
        ghost var index := perPlayerInformation;
        perPlayerInformation := perPlayerInformation - {game.playerOne};
        perPlayerInformation := perPlayerInformation - {game.playerTwo};
        assert perPlayerInformation == index - {game.playerOne, game.playerTwo};
        runningGames := runningGames - {gameId};
        assert State() == old(State()).(perPlayerInformation := index - {game.playerOne, game.playerTwo},
                                         runningGames := old(runningGames) - {gameId});
      }
    }

    /** A client disconnects. */
    method Disconnect(socketId: string)
      modifies this
      ensures State() == Leave(old(State()), socketId)
      ensures log == old(log) + LeaveEvents(old(State()), socketId)
    {
      ghost var before := State();
      ghost var start := log;
      if socketId == lobbyBuffer {
        lobbyBuffer := "";
      } else if socketId in perPlayerInformation && perPlayerInformation[socketId] in runningGames {
        var gameId := perPlayerInformation[socketId];
        var game := runningGames[gameId];
        log := log + [Emit(game.playerOne, "gameIsAborted", Flag(true))];
        log := log + [Emit(game.playerTwo, "gameIsAborted", Flag(true))];
        perPlayerInformation := perPlayerInformation - {game.playerOne};
        perPlayerInformation := perPlayerInformation - {game.playerTwo};
        ghost var unindexed := before.(perPlayerInformation := before.perPlayerInformation - {game.playerOne, game.playerTwo});
        assert State() == unindexed;
        ghost var aborted := log;
        if game.playerOne == socketId {
          PlayerSearchingForGame(game.playerTwo);
        } else {
          PlayerSearchingForGame(game.playerOne);
        }
        ghost var requeued := Search(unindexed, Survivor(game, socketId));
        assert State() == requeued;
        assert log == aborted + SearchEvents(unindexed, Survivor(game, socketId));
        runningGames := runningGames - {gameId};
        assert Leave(before, socketId) == requeued.(runningGames := requeued.runningGames - {gameId});
        assert log == start + LeaveEvents(before, socketId);
      }
      // Otherwise the lookup of the game fails before anything is changed.
    }
  }
}
