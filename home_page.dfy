/**
 * The home page's session state (src/app/components/home/home.page.ts, class
 * HomePage): the board and turn, this client's id and symbol, readiness and
 * occupancy, and the scores with their per-symbol display. Every handler
 * assigns fields in place; its contract states the whole new state in terms
 * of the specifications in module HomeRules.
 */
module Home {
  import opened Wrappers
  import opened GameStateModel
  import opened GameServiceModel
  import opened HomeRules

  class HomePage {
    var board: seq<string>
    var currentPlayer: string
    /** Generated once per client; a construction parameter here. */
    const playerId: string
    var playerSymbol: string
    /** `assignedSymbolMessage`: the symbol it announces, `None` while the message is empty. */
    var assignedSymbol: Option<string>
    /** `roomFullMessage` has been set. */
    var roomFull: bool
    var userCount: int
    var readyToPlay: bool
    var scores: map<string, int>
    var symbols: seq<string>
    /** `_displayScores`: scores keyed by symbol; `None` is `undefined`. */
    var displayScores: map<string, Option<int>>
    /** The last score seen per symbol, used to tell a new win. */
    var previousScores: map<string, int>
    /** The winner alerts raised, oldest first. */
    var notifications: seq<string>
    const service: GameService

    /** Both symbols always have a remembered and a displayed score. */
    predicate Valid()
      reads this
    {
      X in previousScores && O in previousScores && X in displayScores && O in displayScores
    }

    /** Field initialisers, lines 14-25. */
    constructor (playerId: string, service: GameService)
      ensures this.playerId == playerId && this.service == service
      ensures board == EMPTY_BOARD && currentPlayer == X
      ensures playerSymbol == EMPTY && assignedSymbol == None && !roomFull
      ensures userCount == 0 && !readyToPlay
      ensures scores == map[] && symbols == []
      ensures displayScores == INITIAL_DISPLAY && previousScores == map[X := 0, O := 0]
      ensures notifications == []
      ensures Valid()
    {
      this.playerId := playerId;
      this.service := service;
      board := EMPTY_BOARD;
      currentPlayer := X;
      playerSymbol := EMPTY;
      assignedSymbol := None;
      roomFull := false;
      userCount := 0;
      readyToPlay := false;
      scores := map[];
      symbols := [];
      displayScores := INITIAL_DISPLAY;
      previousScores := map[X := 0, O := 0];
      notifications := [];
    }

    /** `ngOnInit` opens the connection (line 34); the subscriptions are the handlers below. */
    method NgOnInit()
      modifies service`readyState
      ensures service.readyState == Some(Connecting)
    {
      service.Connect();
    }

    /** `ngOnDestroy` (lines 29-31): forget the remembered scores. */
    method NgOnDestroy()
      requires Valid()
      modifies this`previousScores
      ensures Valid()
      ensures previousScores == map[X := 0, O := 0]
    {
      previousScores := map[X := 0, O := 0];
    }

    /**
     * `makeMove` (lines 87-94): on an empty cell and on this client's turn,
     * mark the cell, pass the turn, and send the new state with this client's
     * own binding; otherwise nothing happens.
     */
    method MakeMove(index: int)
      requires CanMove(board, currentPlayer, playerSymbol, index) ==> service.readyState.Some?
      modifies this`board, this`currentPlayer, service`sent
      ensures CanMove(old(board), old(currentPlayer), playerSymbol, index) ==>
        && board == Play(old(board), index, old(currentPlayer))
        && currentPlayer == Flip(old(currentPlayer))
        && service.sent == old(service.sent) +
             (if service.readyState == Some(Open)
              then [Move(GameState(board, currentPlayer, [Binding(playerId, playerSymbol)], Some(scores)))]
              else [])
      ensures !CanMove(old(board), old(currentPlayer), playerSymbol, index) ==>
        board == old(board) && currentPlayer == old(currentPlayer) && service.sent == old(service.sent)
    {
      if CanMove(board, currentPlayer, playerSymbol, index) {
        board := Play(board, index, currentPlayer);
        currentPlayer := Flip(currentPlayer);
        var players := Put(CurrentPlayers(board, playerId, playerSymbol), playerId, playerSymbol);
        MovePlayersIsSelf(board, playerId, playerSymbol);
        service.SendGameState(GameState(board, currentPlayer, players, Some(scores)));
      }
    }

    /** `resetGame` (lines 99-101): asks the relay to reset; local state is untouched. */
    method ResetGame()
      requires service.readyState.Some?
      modifies service`sent
      ensures service.readyState == Some(Open) ==> service.sent == old(service.sent) + [Reset]
      ensures service.readyState != Some(Open) ==> service.sent == old(service.sent)
    {
      service.ResetGame();
    }

    /**
     * `updateGameState` (lines 107-115): take board, turn and scores from the
     * snapshot, adopt a non-empty symbol it binds to this client, and be ready
     * exactly when it binds two players.
     */
    method UpdateGameState(state: GameState)
      modifies this`board, this`currentPlayer, this`scores, this`playerSymbol, this`readyToPlay
      ensures board == state.board && currentPlayer == state.currentPlayer
      ensures scores == state.scores.GetOr(map[])
      ensures playerSymbol == AdoptedSymbol(state.players, playerId, old(playerSymbol))
      ensures readyToPlay <==> |state.players| == 2
    {
      board := state.board;
      currentPlayer := state.currentPlayer;
      scores := state.scores.GetOr(map[]);
      var bound := Lookup(state.players, playerId);
      if bound.Some? && bound.value != EMPTY {
        playerSymbol := bound.value;
      }
      readyToPlay := |state.players| == 2;
    }

    /** The symbol-assignment handler (lines 150-154). */
    method OnSymbolAssigned(symbol: string)
      modifies this`playerSymbol, this`assignedSymbol, this`readyToPlay
      ensures playerSymbol == symbol && assignedSymbol == Some(symbol) && readyToPlay
    {
      playerSymbol := symbol;
      assignedSymbol := Some(symbol);
      readyToPlay := true;
    }

    /** The room-full handler (lines 161-163): only its message is set. */
    method OnRoomFull()
      modifies this`roomFull
      ensures roomFull
    {
      roomFull := true;
    }

    /** The user-count handler (lines 170-173): occupancy alone decides readiness. */
    method OnUserCount(count: int)
      modifies this`userCount, this`readyToPlay
      ensures userCount == count
      ensures readyToPlay <==> count >= 2
    {
      userCount := count;
      readyToPlay := userCount >= 2;
    }

    /** `checkWinner` (lines 181-186): a score above the remembered one is remembered and announced. */
    method CheckWinner(score: Option<int>, player: string)
      modifies this`previousScores, this`notifications
      ensures previousScores == Remember(old(previousScores), score, player)
      ensures notifications == old(notifications) + (if IsWin(old(previousScores), score, player) then [player] else [])
    {
      if IsWin(previousScores, score, player) {
        previousScores := previousScores[player := score.value];
        notifications := notifications + [player];
      }
    }

    /** `updateSymbolsAndScores` (lines 50-55). */
    method UpdateSymbolsAndScores(players: Players, scores: map<string, int>)
      requires Valid()
      modifies this`symbols, this`displayScores, this`previousScores, this`notifications
      ensures Valid()
      ensures symbols == Symbols(players)
      ensures displayScores == DisplayScoresOf(players, scores)
      ensures previousScores == CheckScores(old(previousScores), displayScores).0
      ensures notifications == old(notifications) + CheckScores(old(previousScores), displayScores).1
    {
      symbols := Symbols(players);
      displayScores := CreateDisplayScores(players, scores);
      DisplayScoresKeys(players, scores);
      CheckWinner(DisplayedScore(displayScores, X), X);
      CheckWinner(DisplayedScore(displayScores, O), O);
    }

    /**
     * A snapshot on the game-state channel reaches the two subscribers of
     * lines 35 and 40-42, in that order. The second is given the scores the
     * first stored, so the displayed scores always agree with `scores`.
     */
    method OnGameState(state: GameState)
      requires Valid()
      modifies this`board, this`currentPlayer, this`scores, this`playerSymbol, this`readyToPlay
      modifies this`symbols, this`displayScores, this`previousScores, this`notifications
      ensures Valid()
      ensures board == state.board && currentPlayer == state.currentPlayer
      ensures scores == state.scores.GetOr(map[])
      ensures playerSymbol == AdoptedSymbol(state.players, playerId, old(playerSymbol))
      ensures readyToPlay <==> |state.players| == 2
      ensures symbols == Symbols(state.players)
      ensures displayScores == DisplayScoresOf(state.players, scores)
      ensures previousScores == CheckScores(old(previousScores), displayScores).0
      ensures notifications == old(notifications) + CheckScores(old(previousScores), displayScores).1
    {
      UpdateGameState(state);
      UpdateSymbolsAndScores(state.players, scores);
    }
  }
}
