/**
 The piece of the WebSocket transport that both the relay and the browser
 client look at: a socket's `readyState`. The transport owns it; the relay
 and the client only read it before sending.
 */
module Transport {

  /** The four values of a WebSocket's `readyState`, in lifecycle order. */
  datatype ReadyState = Connecting | Open | Closing | Closed

  /** A send goes through only on an OPEN socket. */
  predicate CanSend(state: ReadyState)
  {
    state == Open
  }
}
