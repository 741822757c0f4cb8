/**
 * Runs of the client built only from the contracts of GameService and
 * HomePage: the channels' emissions are handed to the page's handlers as the
 * subscriptions in `ngOnInit` do.
 */
module Scenarios {
  import opened Wrappers
  import opened GameStateModel
  import opened GameServiceModel
  import opened HomeRules
  import opened Home

  /**
   * Occupancy is the last word on readiness: counts 1 then 2 make the page
   * ready, and a later count of 1 makes it not ready even after a symbol was
   * assigned.
   */
  method ReadinessScenario(id: string) returns (readyAtTwo: bool, readyAfterAssign: bool, readyAfterDrop: bool)
    ensures readyAtTwo && readyAfterAssign && !readyAfterDrop
  {
    var service := new GameService();
    var page := new HomePage(id, service);
    page.OnUserCount(1);
    page.OnUserCount(2);
    readyAtTwo := page.readyToPlay;
    page.OnSymbolAssigned(X);
    readyAfterAssign := page.readyToPlay;
    page.OnUserCount(1);
    readyAfterDrop := page.readyToPlay;
  }

  /**
   * Before `ngOnInit`, no symbol is assigned, so the guard of `makeMove` fails
   * and the socket is never read: the move changes nothing and sends nothing.
   */
  method MoveBeforeConnectScenario(id: string) returns (board: seq<string>, turn: string, sent: seq<Frame>)
    ensures board == EMPTY_BOARD && turn == X && sent == []
  {
    var service := new GameService();
    var page := new HomePage(id, service);
    page.MakeMove(4);
    board, turn, sent := page.board, page.currentPlayer, service.sent;
  }

  /**
   * One client brought up as `ngOnInit` does: it connects, its socket opens,
   * the relay assigns it `symbol`, and it learns that two users are present.
   */
  method StartClient(id: string, symbol: string) returns (page: HomePage)
    ensures fresh(page) && fresh(page.service)
    ensures page.Valid() && page.playerId == id && page.playerSymbol == symbol && page.readyToPlay
    ensures page.board == EMPTY_BOARD && page.currentPlayer == X && page.scores == map[]
    ensures page.service.readyState == Some(Open) && page.service.sent == []
  {
    var service := new GameService();
    page := new HomePage(id, service);
    page.NgOnInit();
    // the browser opens the socket
    service.readyState := Some(Open);
    service.OnOpen();
    service.OnMessage(Inbound(Some(ASSIGN_SYMBOL), Some(symbol), None));
    page.OnSymbolAssigned(service.symbolEmitted[|service.symbolEmitted| - 1].value);
    page.OnUserCount(2);
  }

  /**
   * Two clients: A is assigned X and B is assigned O, both see two users, A
   * plays the centre, and the relay forwards A's state to B as a bare
   * snapshot. B then shows X in the centre with O to play, may move, and is
   * no longer ready, because the state A sends binds only A.
   */
  method TwoClientScenario()
    returns (readyA: bool, readyB: bool, boardB: seq<string>, turnB: string, bMayMove: bool, readyBAfter: bool)
    ensures readyA && readyB
    ensures |boardB| == 9 && boardB[4] == X && turnB == O
    ensures bMayMove && !readyBAfter
  {
    var pageA := StartClient("a", X);
    var pageB := StartClient("b", O);
    readyA, readyB := pageA.readyToPlay, pageB.readyToPlay;

    pageA.MakeMove(4);
    var moved := GameState(Play(EMPTY_BOARD, 4, X), O, [Binding("a", X)], Some(map[]));
    assert pageA.service.sent == [Move(moved)];
    var frame := pageA.service.sent[0];

    pageB.service.OnMessage(Inbound(None, None, Some(frame.state)));
    var received := pageB.service.stateEmitted[|pageB.service.stateEmitted| - 1];
    assert received.snapshot == Some(moved);
    pageB.OnGameState(moved);
    assert !Has(moved.players, "b");

    boardB, turnB := pageB.board, pageB.currentPlayer;
    bMayMove := CanMove(pageB.board, pageB.currentPlayer, pageB.playerSymbol, 0);
    readyBAfter := pageB.readyToPlay;
  }

  /**
   * The same snapshot with players X and O scoring 1 and 0, delivered twice:
   * both times the page shows { X: 1, O: 0 } and is ready, but only the first
   * delivery announces X as the winner.
   */
  method RepeatedSnapshotScenario()
    returns (display1: map<string, Option<int>>, display2: map<string, Option<int>>,
             ready1: bool, ready2: bool, announced1: seq<string>, announced2: seq<string>)
    ensures display1 == display2 == map[X := Some(1), O := Some(0)]
    ensures ready1 && ready2
    ensures announced1 == [X] && announced2 == []
  {
    var service := new GameService();
    var page := new HomePage("player1", service);
    var players: Players := [Binding("player1", X), Binding("player2", O)];
    var state := GameState(EMPTY_BOARD, O, players, Some(map["player1" := 1, "player2" := 0]));
    DisplayScoresExample();
    CheckScoresExample();

    page.OnGameState(state);
    display1, ready1, announced1 := page.displayScores, page.readyToPlay, page.notifications;

    page.OnGameState(state);
    CheckScoresSettles(map[X := 0, O := 0], display1);
    display2, ready2, announced2 := page.displayScores, page.readyToPlay, page.notifications[|announced1|..];
  }
}
