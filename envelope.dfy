/** The JSON envelope the server exchanges with browsers (websocket.go:28-32).
    An empty string stands for a field that the `omitempty` tag leaves out of
    the encoded JSON; the encoding itself is not modelled. */
module Envelope {

  datatype Message = Message(sender: string, recipient: string, content: string)

  /** The content of the announcement sent when a socket registers (websocket.go:66). */
  const ConnectedNotice: string := "/A new socket has connected."

  /** The content of the announcement sent when a socket unregisters (websocket.go:72). */
  const DisconnectedNotice: string := "/A socket has disconnected."

  /** A system announcement sets only the content. */
  function Announcement(text: string): Message
  {
    Message("", "", text)
  }

  /** What a client's read loop makes of one inbound payload (websocket.go:114):
      the sender is the client's id, the recipient is left empty. */
  function FromClient(id: string, payload: string): Message
  {
    Message(id, "", payload)
  }
}
