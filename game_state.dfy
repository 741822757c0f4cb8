/**
 * The `GameState` record exchanged with the relay, and the plain JavaScript
 * objects it is built from. A `players` object is an ordered sequence of
 * (player id, symbol) bindings with pairwise distinct ids: that is what a JS
 * object with string keys is, and its iteration order is what `for...in` and
 * `Object.values` follow.
 */
module GameStateModel {
  import opened Wrappers

  /** An unmarked board cell. */
  const EMPTY: string := ""
  const X: string := "X"
  const O: string := "O"

  /** One property `id: symbol` of a `players` object. */
  datatype Binding = Binding(id: string, symbol: string)

  predicate UniqueIds(p: seq<Binding>) {
    forall i, j :: 0 <= i < j < |p| ==> p[i].id != p[j].id
  }

  /** A `players` object: keys are distinct, in insertion order. */
  type Players = p: seq<Binding> | UniqueIds(p) witness []

  predicate Has(p: seq<Binding>, id: string) {
    exists i :: 0 <= i < |p| && p[i].id == id
  }

  /** `players[id]`: the symbol of the first binding for `id`, or `undefined`. */
  function Lookup(p: seq<Binding>, id: string): (r: Option<string>)
    ensures r.None? <==> !Has(p, id)
    ensures forall i :: 0 <= i < |p| && p[i].id == id && (forall j :: 0 <= j < i ==> p[j].id != id)
              ==> r == Some(p[i].symbol)
  {
    if p == [] then None
    else if p[0].id == id then Some(p[0].symbol)
    else
      var r := Lookup(p[1..], id);
      assert forall i :: 1 <= i < |p| ==> p[i] == p[1..][i - 1];
      r
  }

  /**
   * `players[id] = symbol` on a JS object: an existing key keeps its place and
   * takes the new value; a new key is appended at the end.
   */
  function Put(p: Players, id: string, symbol: string): Players
  {
    if Has(p, id) then
      var r := seq(|p|, i requires 0 <= i < |p| => if p[i].id == id then Binding(id, symbol) else p[i]);
      assert forall i :: 0 <= i < |p| ==> r[i].id == p[i].id;
      r
    else
      p + [Binding(id, symbol)]
  }

  /** Lines 1-6 of game-state.model.ts, plus the `scores` property the client reads and sends. */
  datatype GameState = GameState(
    board: seq<string>,
    currentPlayer: string,
    players: Players,
    scores: Option<map<string, int>>)

  /** With distinct ids, `players[p[i].id]` is exactly `p[i].symbol`. */
  lemma LookupAt(p: Players, i: int)
    requires 0 <= i < |p|
    ensures Lookup(p, p[i].id) == Some(p[i].symbol)
  {
  }

  /** Assigning a key makes it read back, and leaves every other key as it was. */
  lemma PutLookup(p: Players, id: string, symbol: string, k: string)
    ensures Lookup(Put(p, id, symbol), k) == if k == id then Some(symbol) else Lookup(p, k)
  {
    var r := Put(p, id, symbol);
    assert |p| <= |r|;
    assert forall i :: 0 <= i < |p| ==> r[i] == (if p[i].id == id then Binding(id, symbol) else p[i]);
    if k == id {
      if Has(p, id) {
        var i :| 0 <= i < |p| && p[i].id == id;
        LookupAt(r, i);
      } else {
        LookupAt(r, |p|);
      }
    } else if Has(p, k) {
      var i :| 0 <= i < |p| && p[i].id == k;
      LookupAt(r, i);
      LookupAt(p, i);
    } else {
      assert forall i :: 0 <= i < |r| ==> r[i].id != k;
    }
  }
}
