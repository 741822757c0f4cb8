# Tic-tac-toe client: session state and connection protocol

A Dafny model of the client side of a two-player networked tic-tac-toe game
(an Angular/Ionic app). Two parts are modelled.

- **`HomePage`**: the page component that holds the session. Its state is the
  nine-cell board, whose turn it is, this client's id and symbol, readiness,
  the user count, the per-player scores, and the per-symbol display scores.
  It also keeps the remembered scores that tell a new win. The model covers
  the move rule, the handlers for server snapshots, symbol assignment, room
  full and user count, and the re-keying of scores from player id to symbol.
  It also covers the win check and the reset on destroy.
- **`GameService`**: the connection. Sends are guarded by the socket's ready
  state. There are three outbound frame kinds: `MOVE`, `RESET` and
  `SET_PLAYER`. Inbound frames go to one of two channels: `ASSIGN_SYMBOL`
  frames go to the symbol channel, and every other frame goes to the
  game-state channel.

Layout:

- `wrappers.dfy`: `Option`.
- `game_state.dfy` (module `GameStateModel`): the `GameState` record. A
  `players` object is a sequence of `(id, symbol)` bindings with distinct ids,
  kept in insertion order. `Put` gives JavaScript's property assignment and
  `Lookup` its property read.
- `game_service.dfy` (module `GameServiceModel`): class `GameService`. It
  holds the ready state, the frames sent, and each channel's emissions as
  sequences.
- `home_rules.dfy` (module `HomeRules`): the pure rules the page follows,
  with their lemmas. Display scores are computed by a loop method, specified
  by the function `DisplayScoresOf`.
- `home_page.dfy` (module `Home`): class `HomePage`. Each handler updates
  fields in place. Its contract gives the whole new state in terms of
  `HomeRules`.
- `scenarios.dfy` (module `Scenarios`): client runs proved only from those
  contracts. They hand each channel's emissions to the page's handlers, as
  the subscriptions in `ngOnInit` would against a service that also offers
  `roomFull$` and `userCount$` (see "## Left out").

Facts about the code that shape the model:

- The service has two inbound channels. `USER_COUNT` and `ROOM_FULL` frames
  reach the game-state channel (game.service.ts:31-35).
- Inbound frames are read with `JSON.parse`, which throws on a malformed
  frame (game.service.ts:28). There is no fail-soft path, and the model has
  no malformed frame.
- A move sends only this client's own binding as `players`
  (home.page.ts:91, 121-128). So a client that applies a forwarded move
  snapshot sees one player and sets `readyToPlay` to false;
  `TwoClientScenario` proves this.
- Readiness is set by whichever signal came last. Symbol assignment sets it
  to true; a user count sets it to `count >= 2`; a snapshot sets it to
  "exactly two players" (home.page.ts:114, 153, 172).

## Model

| member | source | states |
|---|---|---|
| `GameStateModel.Lookup` | src/app/components/home/home.page.ts:111 | `players[id]` is absent exactly when no binding has that id, and otherwise is the symbol of the first binding for it |
| `GameStateModel.PutLookup` | src/app/components/home/home.page.ts:122-127 | after `players[id] = symbol`, key `id` reads `symbol` and every other key reads as before |
| `GameServiceModel.GameService.constructor` | src/app/services/game.service.ts:12-18 | no socket yet, nothing sent, both channels silent |
| `GameServiceModel.GameService.Connect` | src/app/services/game.service.ts:20-21 | `connect` installs a fresh socket that is connecting |
| `GameServiceModel.GameService.OnOpen` | src/app/services/game.service.ts:23-25 | the open handler changes no ready state, sends nothing and emits on no channel |
| `GameServiceModel.GameService.OnClose` | src/app/services/game.service.ts:38-40 | the close handler changes no ready state, sends nothing and emits on no channel |
| `GameServiceModel.GameService.OnMessage` | src/app/services/game.service.ts:27-36 | an `ASSIGN_SYMBOL` frame emits its payload on the symbol channel only; any other frame, tagged or not, is emitted whole on the game-state channel only; each frame reaches exactly one channel |
| `GameServiceModel.GameService.SendGameState` | src/app/services/game.service.ts:43-50 | when the socket is open, exactly one `MOVE(state)` frame is appended; otherwise nothing is sent; ready state and channels untouched |
| `GameServiceModel.GameService.ResetGame` | src/app/services/game.service.ts:52-59 | when open, exactly one payload-free `RESET` frame; otherwise nothing |
| `GameServiceModel.GameService.SetPlayer` | src/app/services/game.service.ts:61-68 | when open, exactly one `SET_PLAYER(playerId, symbol)` frame; otherwise nothing |
| `HomeRules.Flip` | src/app/components/home/home.page.ts:90 | the next turn is always X or O and never the current one |
| `HomeRules.Play` | src/app/components/home/home.page.ts:89 | a move writes the mover's symbol at the index and changes no other cell |
| `HomeRules.PlayUsesOneCell` | src/app/components/home/home.page.ts:88-89 | a legal move uses up exactly one empty cell and clears no marked cell |
| `HomeRules.ReduceCellsBindsOnlySelf` | src/app/components/home/home.page.ts:122-127 | the reduce over the board yields `{}` or the single binding of this client, whatever the cells |
| `HomeRules.CurrentPlayers` | src/app/components/home/home.page.ts:121-128 | `getCurrentPlayers` is `{id: symbol}` exactly when some cell is marked, and `{}` otherwise |
| `HomeRules.MovePlayersIsSelf` | src/app/components/home/home.page.ts:91 | the `players` a move sends is exactly `{playerId: playerSymbol}` |
| `HomeRules.AdoptedSymbol` | src/app/components/home/home.page.ts:111-113 | a snapshot's non-empty binding for this client becomes its symbol; an empty or missing binding keeps the old one |
| `HomeRules.Symbols` | src/app/components/home/home.page.ts:79-81 | `extractSymbols` lists every binding's symbol, in the players' order |
| `HomeRules.CreateDisplayScores` | src/app/components/home/home.page.ts:63-72 | the loop computes exactly `DisplayScoresOf`: start from {X:0, O:0}, then each binding in order assigns its player's score (absent if none) to its symbol |
| `HomeRules.DisplayScoresKeys` | src/app/components/home/home.page.ts:64-70 | the display has keys X, O and every bound symbol, and no others |
| `HomeRules.DisplayScoresLastWins` | src/app/components/home/home.page.ts:65-70 | a symbol shows the score of the last player bound to it; later bindings overwrite earlier ones |
| `HomeRules.DisplayScoresUnbound` | src/app/components/home/home.page.ts:64 | a symbol that no player holds stays 0 if it is X or O, and is absent otherwise |
| `HomeRules.DisplayScoresRoundTrip` | src/app/components/home/home.page.ts:63-72 | with distinct symbols, reading the display back through `players` recovers every bound player's score |
| `HomeRules.SharedSymbolHidesScore` | src/app/components/home/home.page.ts:65-69 | two players bound to X: the earlier player's score is not displayed |
| `HomeRules.DisplayScoresExample` | src/app/components/home/home.page.spec.ts:74-87 | players {player1: X, player2: O} with scores {1, 0} display {X: 1, O: 0} with symbols [X, O] |
| `HomeRules.Remember` | src/app/components/home/home.page.ts:181-186 | remembered scores keep their keys and never decrease; only the checked symbol can change; a win records the new score and a non-win leaves the memory as it was; the same score never wins twice |
| `HomeRules.CheckScores` | src/app/components/home/home.page.ts:50-55 | X and O are each judged against their own remembered score; winners are announced X first; each of X and O remembers its displayed score after a win and keeps its old one otherwise; every other key is unchanged |
| `HomeRules.CheckScoresSettles` | src/app/components/home/home.page.ts:53-54 | checking the same display scores a second time announces nobody |
| `HomeRules.CheckScoresExample` | src/app/components/home/home.page.ts:181-186 | from {X:0, O:0}, display {X:1, O:0} announces X once and O not at all |
| `HomeRules.SnapshotWithoutScoresThrows` | src/app/components/home/home.page.ts:40-42 | as written, a snapshot with a player and no `scores` throws in `createDisplayScores`; with `{}` it does not |
| `Home.HomePage.constructor` | src/app/components/home/home.page.ts:14-25 | nine empty cells, X to play, no symbol, not ready, zero users, no scores, display and remembered scores {X:0, O:0} |
| `Home.HomePage.NgOnInit` | src/app/components/home/home.page.ts:33-35 | initialisation opens the connection |
| `Home.HomePage.NgOnDestroy` | src/app/components/home/home.page.ts:29-31 | remembered scores reset to {X:0, O:0}; nothing else changes |
| `Home.HomePage.MakeMove` | src/app/components/home/home.page.ts:87-94 | on an empty on-board cell in this client's turn, the cell takes the old turn and the turn flips. One `MOVE` is sent if the socket is open: the new board, the new turn, {playerId: playerSymbol} and the current scores. Otherwise (non-empty cell, off-board index, wrong turn) nothing changes and nothing is sent, with or without a socket |
| `Scenarios.MoveBeforeConnectScenario` | src/app/components/home/home.page.ts:87-94 | before any symbol is assigned and before `connect`, a move fails the guard: the board stays empty, the turn stays X and nothing is sent |
| `Home.HomePage.ResetGame` | src/app/components/home/home.page.ts:99-101 | sends one `RESET` when open and touches no local state |
| `Home.HomePage.UpdateGameState` | src/app/components/home/home.page.ts:107-115 | board and turn replaced; scores replaced (empty when absent); symbol adopted only from a non-empty binding for this client; ready iff exactly two players |
| `Home.HomePage.OnSymbolAssigned` | src/app/components/home/home.page.ts:149-155 | sets the symbol, its announcement, and ready |
| `Home.HomePage.OnRoomFull` | src/app/components/home/home.page.ts:160-164 | only sets the room-full message |
| `Home.HomePage.OnUserCount` | src/app/components/home/home.page.ts:169-174 | sets the count, and ready iff the count is at least 2, whatever was set before |
| `Home.HomePage.CheckWinner` | src/app/components/home/home.page.ts:181-186 | announces and remembers a score iff it is present and strictly above the remembered one |
| `Home.HomePage.UpdateSymbolsAndScores` | src/app/components/home/home.page.ts:50-55 | symbols and display scores recomputed from `players` and `scores`, then the X and O win checks run |
| `Home.HomePage.OnGameState` | src/app/components/home/home.page.ts:40-42 | a snapshot runs both subscribers in order; the displayed scores always agree with the stored `scores` |
| `Scenarios.StartClient` | src/app/components/home/home.page.ts:33-38 | a client that connects, opens, is assigned a symbol and sees two users is ready with an empty board |
| `Scenarios.ReadinessScenario` | src/app/components/home/home.page.ts:150-173 | counts 1 then 2 give ready; a later count of 1 gives not ready even after a symbol assignment |
| `Scenarios.TwoClientScenario` | src/app/components/home/home.page.ts:87-115 | after A (X) plays cell 4 and B applies A's forwarded state, B shows X at 4 with O to play and may move |
| `Scenarios.RepeatedSnapshotScenario` | src/app/components/home/home.page.spec.ts:45-63 | the same snapshot twice gives the same display {X:1, O:0} and readiness, and announces X only once |

## Findings

| source | as written | input that shows it | evidently intended | confidence | as-written member | corrected member |
|---|---|---|---|---|---|---|
| src/app/components/home/home.page.ts:40-42 | the second game-state subscriber passes `state.scores` unchecked to `createDisplayScores`, which reads `scores[playerId]` at line 68 | a snapshot with players `{p1: "X"}` and no `scores`: line 68 reads a property of `undefined` and throws, so the display and win check are skipped | the `{}` default that `updateGameState` applies at line 110 | not executed; medium (depends on whether the relay ever omits `scores`, and on a service that has `roomFull$` and `userCount$`: with the service shown, line 37 throws at line 161 and lines 40-42 never run) | `HomeRules.SnapshotDisplayAsWritten`, exhibited by `HomeRules.SnapshotWithoutScoresThrows` | `Home.HomePage.OnGameState` |

## Left out

- The real WebSocket and JSON text are not modelled. Frames and inbound messages are datatypes, so the byte layout that `JSON.stringify` produces is not modelled.
- A frame that is not valid JSON makes `JSON.parse` throw in the source. The model has no such frame.
- An inbound `payload` is kept only when it is a string. A non-string `ASSIGN_SYMBOL` payload is read as absent.
- A frame without top-level state properties, such as `{type: 'USER_COUNT', payload: 2}` or a `ROOM_FULL` frame, is not applied to the page. Such a frame still reaches the game-state channel, with `snapshot` set to `None`. In the source, `updateGameState` first runs lines 108-110: `board` and `currentPlayer` become `undefined` and `scores` becomes `{}`. It then throws at line 111, reading `players` of `undefined`. The model's page handlers take a `GameState`, and a board or turn that is `undefined` is not representable, so the model leaves the page untouched instead.
- Home.HomePage.OnSymbolAssigned: takes a string. An `ASSIGN_SYMBOL` frame without a payload makes the symbol channel emit `None` (`undefined`). In the source, lines 151-153 then set `playerSymbol` to `undefined` and `readyToPlay` to true. A symbol that is `undefined` is not representable, so the model has no page counterpart for that emission.
- The `GameState` class (game-state.model.ts:2-6) declares three constructor parameters, but home.page.ts:91 passes `this.scores` as a fourth, and the page reads `scores` at line 110. The model's `GameState` carries `scores` and a move sends `Some(scores)`, following that evident intent.
- RxJS subjects are not modelled: there are no observers and no subscription timing. Each channel is the sequence of what it emitted. The scenarios hand emissions to the page's handlers explicitly.
- The Ionic alert and the async `showAlert` are not modelled. A win appends the symbol to `notifications`, and `await` is ignored.
- `uuidv4` is not modelled: `playerId` is a constructor parameter.
- Angular lifecycle and dependency-injection wiring, and the application module, are not modelled.
- Console output is not modelled. The Portuguese texts are modelled only as what they carry: `assignedSymbol` holds the symbol the message announces, and `roomFull` records that the room-full message is set.
- The service shown defines no `roomFull$` or `userCount$`. As shown, line 37 throws at line 161, and the file does not type-check. Lines 38-42 therefore run only against a service that has `roomFull$` and `userCount$`. The model assumes such a service. The page's handlers for them take the value directly, and the service does not dispatch those kinds.
- The relay server's behaviour is not modelled. The scenarios assume it forwards a move's state unchanged as a bare snapshot.
- Board aliasing is not modelled. `updateGameState` stores the snapshot's array itself, so a later `makeMove` writes into the received snapshot too. The model's board is a value.
- JavaScript numbers are modelled as unbounded integers. Fractional, NaN or infinite scores and indices are not modelled.
- Integer-like object keys are not modelled. JavaScript iterates them first, in numeric order, and player ids are UUIDs.
- `connect` does not close the previous socket. The model only replaces the ready state, and frames sent on earlier sockets stay in `sent`.
- GameService.SendGameState, GameService.ResetGame, GameService.SetPlayer and HomePage.ResetGame require a socket to exist (`readyState.Some?`). Before `connect`, the source reads `readyState` of an unset `ws` and throws. Its only caller, the page, connects in `ngOnInit` first. HomePage.MakeMove requires a socket only when its guard passes: a move whose guard fails never reaches `sendGameState`.
