/**
 * The `readyState` of a WebSocket, shared by the `ws` server connection and
 * the browser's client socket.
 */
module Sockets {
  datatype ReadyState = Connecting | Open | Closing | Closed

  /** A socket object, told apart from earlier ones by `id`. */
  datatype Socket = Socket(id: nat, state: ReadyState)
}
