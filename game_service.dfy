/**
 * The connection side of the client (src/app/services/game.service.ts):
 * sends guarded by the socket's ready state, and the classification of
 * inbound frames into the symbol channel and the game-state channel. The
 * socket is abstract: its ready state, the frames written to it, and what
 * each channel has emitted, in order.
 */
module GameServiceModel {
  import opened Wrappers
  import opened GameStateModel

  /** The four ready states of a browser WebSocket. */
  datatype ReadyState = Connecting | Open | Closing | Closed

  /** Outbound frames, one per `{ type, payload }` envelope the service writes. */
  datatype Frame =
    | Move(state: GameState)                    // { type: 'MOVE', payload: gameState }
    | Reset                                     // { type: 'RESET' }, no payload
    | SetPlayer(playerId: string, symbol: string) // { type: 'SET_PLAYER', payload: { playerId, symbol } }

  /**
   * A parsed inbound frame: its `type` property if any, its `payload` when that
   * is a string, and the snapshot the frame's own top-level properties form
   * when it has them (a bare state message is its own snapshot).
   */
  datatype Inbound = Inbound(kind: Option<string>, payload: Option<string>, snapshot: Option<GameState>)

  datatype Channel = SymbolChannel | StateChannel

  const ASSIGN_SYMBOL: string := "ASSIGN_SYMBOL"

  /** The one decision inside `onmessage`: only an `ASSIGN_SYMBOL` frame goes to the symbol channel. */
  function Route(m: Inbound): Channel {
    if m.kind == Some(ASSIGN_SYMBOL) then SymbolChannel else StateChannel
  }

  class GameService {
    /** `ws.readyState`; `None` until `connect` has assigned `ws`. */
    var readyState: Option<ReadyState>
    /** Every frame passed to `ws.send`, oldest first. */
    var sent: seq<Frame>
    /** What `assignSymbol$` has emitted: the frames' payloads (`undefined` when absent). */
    var symbolEmitted: seq<Option<string>>
    /** What `gameState$` has emitted: whole frames. */
    var stateEmitted: seq<Inbound>

    constructor ()
      ensures readyState == None
      ensures sent == [] && symbolEmitted == [] && stateEmitted == []
    {
      readyState := None;
      sent := [];
      symbolEmitted := [];
      stateEmitted := [];
    }

    /** Opens a fresh socket, which starts out connecting; earlier sends and emissions stay recorded. */
    method Connect()
      modifies this`readyState
      ensures readyState == Some(Connecting)
    {
      readyState := Some(Connecting);
    }

    /** The open handler only logs. */
    method OnOpen()
      ensures readyState == old(readyState) && sent == old(sent)
      ensures symbolEmitted == old(symbolEmitted) && stateEmitted == old(stateEmitted)
    {
    }

    /** The close handler only logs. */
    method OnClose()
      ensures readyState == old(readyState) && sent == old(sent)
      ensures symbolEmitted == old(symbolEmitted) && stateEmitted == old(stateEmitted)
    {
    }

    /** The message handler: every inbound frame reaches exactly one channel. */
    method OnMessage(m: Inbound)
      modifies this`symbolEmitted, this`stateEmitted
      ensures Route(m) == SymbolChannel ==>
        symbolEmitted == old(symbolEmitted) + [m.payload] && stateEmitted == old(stateEmitted)
      ensures Route(m) == StateChannel ==>
        stateEmitted == old(stateEmitted) + [m] && symbolEmitted == old(symbolEmitted)
      ensures |symbolEmitted| + |stateEmitted| == |old(symbolEmitted)| + |old(stateEmitted)| + 1
    {
      match Route(m)
      case SymbolChannel =>
        symbolEmitted := symbolEmitted + [m.payload];
      case StateChannel =>
        stateEmitted := stateEmitted + [m];
    }

    /** Writes one MOVE frame when the socket is open; otherwise only logs. */
    method SendGameState(state: GameState)
      requires readyState.Some?
      modifies this`sent
      ensures readyState == Some(Open) ==> sent == old(sent) + [Move(state)]
      ensures readyState != Some(Open) ==> sent == old(sent)
    {
      if readyState == Some(Open) {
        sent := sent + [Move(state)];
      }
    }

    /** Writes one RESET frame when the socket is open; otherwise only logs. */
    method ResetGame()
      requires readyState.Some?
      modifies this`sent
      ensures readyState == Some(Open) ==> sent == old(sent) + [Reset]
      ensures readyState != Some(Open) ==> sent == old(sent)
    {
      if readyState == Some(Open) {
        sent := sent + [Reset];
      }
    }

    /** Writes one SET_PLAYER frame when the socket is open; otherwise only logs. */
    method SetPlayer(playerId: string, symbol: string)
      requires readyState.Some?
      modifies this`sent
      ensures readyState == Some(Open) ==> sent == old(sent) + [Frame.SetPlayer(playerId, symbol)]
      ensures readyState != Some(Open) ==> sent == old(sent)
    {
      if readyState == Some(Open) {
        sent := sent + [Frame.SetPlayer(playerId, symbol)];
      }
    }
  }
}
