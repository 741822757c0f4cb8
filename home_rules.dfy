/**
 * The pure rules behind the home page (src/app/components/home/home.page.ts):
 * the move guard and its effect on the board, the players object a move
 * sends, the re-keying of scores from player id to symbol, and the win check.
 * The page's mutable state lives in module Home; these are its specifications.
 */
module HomeRules {
  import opened Wrappers
  import opened GameStateModel

  // ---------------------------------------------------------------- moves

  /** The turn after `current` (line 90): "O" after "X", and "X" after anything else. */
  function Flip(current: string): (next: string)
    ensures next == X || next == O
    ensures next != current
  {
    if current == X then O else X
  }

  /** `Array(9).fill('')` (line 14). */
  const EMPTY_BOARD: seq<string> := [EMPTY, EMPTY, EMPTY, EMPTY, EMPTY, EMPTY, EMPTY, EMPTY, EMPTY]

  /**
   * The guard of `makeMove` (line 88). An index off the board reads
   * `undefined`, which is never `''`, so it fails the guard.
   */
  predicate CanMove(board: seq<string>, current: string, mine: string, index: int) {
    0 <= index < |board| && board[index] == EMPTY && mine == current
  }

  /** The local half of a move (line 89): only the chosen cell changes, and it takes `mark`. */
  function Play(board: seq<string>, index: int, mark: string): (r: seq<string>)
    requires 0 <= index < |board|
    ensures |r| == |board| && r[index] == mark
    ensures forall j :: 0 <= j < |board| && j != index ==> r[j] == board[j]
  {
    board[index := mark]
  }

  /** The number of unmarked cells. */
  function EmptyCount(board: seq<string>): nat {
    if board == [] then 0 else (if board[0] == EMPTY then 1 else 0) + EmptyCount(board[1..])
  }

  /**
   * A legal move with a real symbol uses up exactly one empty cell and clears
   * none, so a board of nine cells takes at most nine moves.
   */
  lemma {:induction false} PlayUsesOneCell(board: seq<string>, index: int, mark: string)
    requires 0 <= index < |board| && board[index] == EMPTY && mark != EMPTY
    ensures EmptyCount(Play(board, index, mark)) == EmptyCount(board) - 1
    ensures forall j :: 0 <= j < |board| && board[j] != EMPTY ==> Play(board, index, mark)[j] == board[j]
  {
    if index == 0 {
      assert Play(board, index, mark)[1..] == board[1..];
    } else {
      assert Play(board, index, mark)[1..] == Play(board[1..], index - 1, mark);
      PlayUsesOneCell(board[1..], index - 1, mark);
    }
  }

  // ------------------------------------------------------- players of a move

  /** One step of the `reduce` at lines 122-127: a marked cell assigns `players[id] = symbol`. */
  function ReduceCells(acc: Players, cells: seq<string>, id: string, symbol: string): Players
    decreases |cells|
  {
    if cells == [] then acc
    else ReduceCells(if cells[0] != EMPTY then Put(acc, id, symbol) else acc, cells[1..], id, symbol)
  }

  predicate AnyMark(board: seq<string>) {
    exists i :: 0 <= i < |board| && board[i] != EMPTY
  }

  lemma {:induction false} ReduceCellsBindsOnlySelf(acc: Players, cells: seq<string>, id: string, symbol: string)
    requires acc == [] || acc == [Binding(id, symbol)]
    ensures ReduceCells(acc, cells, id, symbol) ==
      if acc == [] && !AnyMark(cells) then [] else [Binding(id, symbol)]
    decreases |cells|
  {
    if cells != [] {
      assert !Has([], id);
      assert [Binding(id, symbol)][0].id == id;
      var next := if cells[0] != EMPTY then Put(acc, id, symbol) else acc;
      ReduceCellsBindsOnlySelf(next, cells[1..], id, symbol);
      if AnyMark(cells[1..]) {
        var i :| 0 <= i < |cells[1..]| && cells[1..][i] != EMPTY;
        assert cells[i + 1] != EMPTY;
      }
      if AnyMark(cells) && cells[0] == EMPTY {
        var i :| 0 <= i < |cells| && cells[i] != EMPTY;
        assert cells[1..][i - 1] != EMPTY;
      }
    }
  }

  /**
   * `getCurrentPlayers()` (lines 121-128), starting from `{}`: it binds only
   * this client, and only once some cell is marked.
   */
  function CurrentPlayers(board: seq<string>, id: string, symbol: string): (r: Players)
    ensures r == if AnyMark(board) then [Binding(id, symbol)] else []
  {
    ReduceCellsBindsOnlySelf([], board, id, symbol);
    ReduceCells([], board, id, symbol)
  }

  /**
   * The `players` a move sends (line 91): `{ ...getCurrentPlayers(), [id]: symbol }`
   * is exactly this client's own binding, whatever the board.
   */
  lemma MovePlayersIsSelf(board: seq<string>, id: string, symbol: string)
    ensures Put(CurrentPlayers(board, id, symbol), id, symbol) == [Binding(id, symbol)]
  {
    assert !Has([], id);
    assert [Binding(id, symbol)][0].id == id;
  }

  // ------------------------------------------------------- snapshot symbol

  /**
   * Lines 111-113: the symbol a snapshot binds to `id` when that binding is
   * non-empty (truthy); otherwise the current symbol stays.
   */
  function AdoptedSymbol(p: Players, id: string, current: string): (r: string)
    ensures forall i :: 0 <= i < |p| && p[i].id == id ==>
      r == (if p[i].symbol != EMPTY then p[i].symbol else current)
    ensures !Has(p, id) ==> r == current
  {
    match Lookup(p, id)
    case Some(s) => if s != EMPTY then s else current
    case None => current
  }

  // ------------------------------------------------------- display scores

  /** `Object.values(players)` (line 80): the symbols, in the players' order. */
  function Symbols(p: seq<Binding>): (r: seq<string>)
    ensures |r| == |p|
    ensures forall i :: 0 <= i < |p| ==> r[i] == p[i].symbol
  {
    if p == [] then [] else [p[0].symbol] + Symbols(p[1..])
  }

  /** `scores[id]`: `undefined` when the player has no score. */
  function ScoreOf(scores: map<string, int>, id: string): Option<int> {
    if id in scores then Some(scores[id]) else None
  }

  /** The `{ X: 0, O: 0 }` that display scores start from (line 64). */
  const INITIAL_DISPLAY: map<string, Option<int>> := map[X := Some(0), O := Some(0)]

  /**
   * What `createDisplayScores` computes (lines 63-72): starting from
   * `{ X: 0, O: 0 }`, each binding in order assigns its player's score to its
   * symbol.
   */
  function DisplayScoresOf(p: seq<Binding>, scores: map<string, int>): map<string, Option<int>>
    decreases |p|
  {
    if p == [] then INITIAL_DISPLAY
    else
      var last := p[|p| - 1];
      DisplayScoresOf(p[..|p| - 1], scores)[last.symbol := ScoreOf(scores, last.id)]
  }

  /** `createDisplayScores` (lines 63-72), with its `for...in` loop. */
  method CreateDisplayScores(players: Players, scores: map<string, int>) returns (display: map<string, Option<int>>)
    ensures display == DisplayScoresOf(players, scores)
  {
    display := INITIAL_DISPLAY;
    var i := 0;
    while i < |players|
      invariant 0 <= i <= |players|
      invariant display == DisplayScoresOf(players[..i], scores)
    {
      var b := players[i];
      assert players[..i + 1][..i] == players[..i];
      display := display[b.symbol := ScoreOf(scores, b.id)];
      i := i + 1;
    }
    assert players[..|players|] == players;
  }

  /** The display keys are X, O and every bound symbol, and nothing else. */
  lemma {:induction false} DisplayScoresKeys(p: seq<Binding>, scores: map<string, int>)
    ensures forall s :: s in DisplayScoresOf(p, scores) <==> s == X || s == O || s in Symbols(p)
    decreases |p|
  {
    if p != [] {
      var init := p[..|p| - 1];
      DisplayScoresKeys(init, scores);
      assert Symbols(p) == Symbols(init) + [p[|p| - 1].symbol];
    }
  }

  /** A symbol shows the score of the LAST player bound to it: later bindings overwrite earlier ones. */
  lemma {:induction false} DisplayScoresLastWins(p: seq<Binding>, scores: map<string, int>, i: int)
    requires 0 <= i < |p|
    requires forall j :: i < j < |p| ==> p[j].symbol != p[i].symbol
    ensures p[i].symbol in DisplayScoresOf(p, scores)
    ensures DisplayScoresOf(p, scores)[p[i].symbol] == ScoreOf(scores, p[i].id)
    decreases |p|
  {
    if i < |p| - 1 {
      DisplayScoresLastWins(p[..|p| - 1], scores, i);
    }
  }

  /** A symbol no player holds keeps its initial 0 if it is X or O, and is absent otherwise. */
  lemma {:induction false} DisplayScoresUnbound(p: seq<Binding>, scores: map<string, int>, s: string)
    requires forall j :: 0 <= j < |p| ==> p[j].symbol != s
    ensures s in DisplayScoresOf(p, scores) <==> s == X || s == O
    ensures s in DisplayScoresOf(p, scores) ==> DisplayScoresOf(p, scores)[s] == Some(0)
    decreases |p|
  {
    if p != [] {
      DisplayScoresUnbound(p[..|p| - 1], scores, s);
    }
  }

  predicate UniqueSymbols(p: seq<Binding>) {
    forall i, j :: 0 <= i < j < |p| ==> p[i].symbol != p[j].symbol
  }

  /**
   * Reading the display scores back through `players` recovers every bound
   * player's score, provided no two players share a symbol.
   */
  lemma {:induction false} DisplayScoresRoundTrip(p: seq<Binding>, scores: map<string, int>)
    requires UniqueSymbols(p)
    ensures forall i :: 0 <= i < |p| ==>
      p[i].symbol in DisplayScoresOf(p, scores) &&
      DisplayScoresOf(p, scores)[p[i].symbol] == ScoreOf(scores, p[i].id)
  {
    forall i | 0 <= i < |p|
      ensures p[i].symbol in DisplayScoresOf(p, scores)
      ensures DisplayScoresOf(p, scores)[p[i].symbol] == ScoreOf(scores, p[i].id)
    {
      DisplayScoresLastWins(p, scores, i);
    }
  }

  /** Without distinct symbols the round trip fails: the earlier player's score is hidden. */
  lemma SharedSymbolHidesScore()
    ensures var p := [Binding("p1", X), Binding("p2", X)];
            var scores := map["p1" := 1, "p2" := 0];
            DisplayScoresOf(p, scores)[X] == Some(0) != ScoreOf(scores, "p1")
  {
  }

  /** Two players X and O with scores 1 and 0 display as { X: 1, O: 0 }, symbols [X, O]. */
  lemma DisplayScoresExample()
    ensures var p := [Binding("player1", X), Binding("player2", O)];
            var scores := map["player1" := 1, "player2" := 0];
            DisplayScoresOf(p, scores) == map[X := Some(1), O := Some(0)] &&
            Symbols(p) == [X, O]
  {
    var p := [Binding("player1", X), Binding("player2", O)];
    var scores := map["player1" := 1, "player2" := 0];
    assert p[..1] == [p[0]] && [p[0]][..0] == [];
    var first := INITIAL_DISPLAY[X := Some(1)];
    assert DisplayScoresOf(p[..1], scores) == first;
    assert DisplayScoresOf(p, scores) == first[O := Some(0)];
    assert first[O := Some(0)] == map[X := Some(1), O := Some(0)];
  }

  // ------------------------------------------------------------ winners

  /** `score > previousScores[player]` (line 182): `undefined` on either side compares false. */
  predicate IsWin(previous: map<string, int>, score: Option<int>, player: string) {
    score.Some? && player in previous && score.value > previous[player]
  }

  /** `previousScores` after `checkWinner(score, player)` (lines 182-183). */
  function Remember(previous: map<string, int>, score: Option<int>, player: string): (r: map<string, int>)
    ensures r.Keys == previous.Keys
    ensures forall k :: k in previous ==> previous[k] <= r[k]
    ensures forall k :: k in previous && k != player ==> r[k] == previous[k]
    ensures IsWin(previous, score, player) ==> r[player] == score.value
    ensures !IsWin(previous, score, player) ==> r == previous
    ensures !IsWin(r, score, player)
  {
    if IsWin(previous, score, player) then previous[player := score.value] else previous
  }

  /** `_displayScores[s]`, `undefined` when absent. */
  function DisplayedScore(display: map<string, Option<int>>, s: string): Option<int> {
    if s in display then display[s] else None
  }

  /**
   * The two checks of lines 53-54, X first: the remembered scores after both
   * and the symbols announced as winners. Each symbol is judged against its
   * own remembered score, independently of the other.
   */
  function CheckScores(previous: map<string, int>, display: map<string, Option<int>>): (r: (map<string, int>, seq<string>))
    ensures r.0.Keys == previous.Keys
    ensures forall k :: k in previous ==> previous[k] <= r.0[k]
    ensures forall k :: k in previous && k != X && k != O ==> r.0[k] == previous[k]
    ensures X in previous ==>
      r.0[X] == if IsWin(previous, DisplayedScore(display, X), X) then DisplayedScore(display, X).value else previous[X]
    ensures O in previous ==>
      r.0[O] == if IsWin(previous, DisplayedScore(display, O), O) then DisplayedScore(display, O).value else previous[O]
    ensures r.1 == (if IsWin(previous, DisplayedScore(display, X), X) then [X] else []) +
                   (if IsWin(previous, DisplayedScore(display, O), O) then [O] else [])
  {
    var afterX := Remember(previous, DisplayedScore(display, X), X);
    var afterO := Remember(afterX, DisplayedScore(display, O), O);
    (afterO,
     (if IsWin(previous, DisplayedScore(display, X), X) then [X] else []) +
     (if IsWin(afterX, DisplayedScore(display, O), O) then [O] else []))
  }

  /** Checking the same display scores a second time announces nobody. */
  lemma CheckScoresSettles(previous: map<string, int>, display: map<string, Option<int>>)
    ensures CheckScores(CheckScores(previous, display).0, display).1 == []
  {
  }

  /** From { X: 0, O: 0 }, display scores { X: 1, O: 0 } announce X once and O never. */
  lemma CheckScoresExample()
    ensures CheckScores(map[X := 0, O := 0], map[X := Some(1), O := Some(0)]) == (map[X := 1, O := 0], [X])
  {
    var previous, display := map[X := 0, O := 0], map[X := Some(1), O := Some(0)];
    assert DisplayedScore(display, X) == Some(1) && DisplayedScore(display, O) == Some(0);
    var afterX := Remember(previous, Some(1), X);
    assert IsWin(previous, Some(1), X) && !IsWin(previous, Some(0), O);
    assert afterX == previous[X := 1] == map[X := 1, O := 0];
    assert !IsWin(afterX, Some(0), O);
    assert Remember(afterX, Some(0), O) == afterX;
    assert CheckScores(previous, display).1 == [X];
  }

  // ------------------------------------------------------------ finding

  /**
   * The display scores the second game-state subscriber (lines 40-42)
   * computes as written: it hands `state.scores` to `createDisplayScores`
   * without the `|| {}` default of line 110, so a snapshot with players but no
   * `scores` makes line 68 read a property of `undefined` and throw (`None`).
   */
  function SnapshotDisplayAsWritten(players: Players, scores: Option<map<string, int>>): Option<map<string, Option<int>>> {
    if scores.None? && |players| > 0 then None
    else Some(DisplayScoresOf(players, scores.GetOr(map[])))
  }

  /** A snapshot binding one player and carrying no `scores` throws as written. */
  lemma SnapshotWithoutScoresThrows()
    ensures SnapshotDisplayAsWritten([Binding("p1", X)], None) == None
    ensures SnapshotDisplayAsWritten([Binding("p1", X)], Some(map[])).Some?
  {
  }
}
