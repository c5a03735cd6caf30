/** A client's `send` channel (websocket.go:25), created unbuffered and open
    with the client (main.go:25). */
module Channel {
  import opened Envelope

  /** `sent` is every value sent on the channel, in order; `closed` records
      whether `close` has been called on it. The channel has no buffer, so a
      send completes only when the client's write loop takes the value:
      `sent` is also the order in which the write loop receives them. */
  datatype Chan = Chan(sent: seq<Message>, closed: bool)

  /** The channel made by `make(chan []byte)` for a new client. */
  const Fresh: Chan := Chan([], false)

  /** The two run-time panics Go raises on a closed channel. */
  datatype Fault = SendOnClosed | CloseOfClosed

  /** The outcome of an operation that may panic. */
  datatype Outcome<+T> = Ok(value: T) | Fail(fault: Fault)

  function Appended(ch: Chan, m: Message): Chan
  {
    ch.(sent := ch.sent + [m])
  }

  function Closed(ch: Chan): Chan
  {
    ch.(closed := true)
  }

  /** `ch <- m`: panics when the channel is closed. */
  function Send(ch: Chan, m: Message): (r: Outcome<Chan>)
    ensures r == Fail(SendOnClosed) <==> ch.closed
    ensures r.Ok? ==> r.value.sent == ch.sent + [m] && !r.value.closed
  {
    if ch.closed then Fail(SendOnClosed) else Ok(Appended(ch, m))
  }

  /** `close(ch)`: panics when the channel is already closed. */
  function Close(ch: Chan): (r: Outcome<Chan>)
    ensures r == Fail(CloseOfClosed) <==> ch.closed
    ensures r.Ok? ==> r.value.sent == ch.sent && r.value.closed
  {
    if ch.closed then Fail(CloseOfClosed) else Ok(Closed(ch))
  }
}
