/** A client's two goroutines, `read` (websocket.go:98-117) and `write`
    (websocket.go:119-135), at the level of what they hand to the hub and to
    the socket. */
module Peer {
  import opened Envelope
  import opened Channel
  import opened Hub

  /** What the write loop puts on the socket: a text frame per message, or
      the close frame. */
  datatype Frame = Text(message: Message) | CloseFrame

  /** The read loop of client `id`. `inbound` is the payloads the socket
      yields before its first read error; the result is every request the
      loop sends to the manager, in order. Each payload is broadcast to all
      members, the sender included, tagged with the sender's id; then the
      error branch and the deferred function each unregister the client. */
  method Read(id: Id, inbound: seq<string>) returns (requests: seq<Request>)
    ensures |requests| == |inbound| + 2
    ensures forall i :: 0 <= i < |inbound| ==>
      requests[i].Broadcast? && requests[i].message.sender == id && requests[i].message.content == inbound[i]
      && requests[i].message.recipient == ""
    ensures requests[|inbound|] == requests[|inbound| + 1] == Unregister(id)
  {
    requests := [];
    for i := 0 to |inbound|
      invariant |requests| == i
      invariant forall j :: 0 <= j < i ==> requests[j] == Broadcast(FromClient(id, inbound[j]))
    {
      requests := requests + [Broadcast(FromClient(id, inbound[i]))];
    }
    requests := requests + [Unregister(id)];  // the read error (websocket.go:110)
    requests := requests + [Unregister(id)];  // the deferred function (websocket.go:100)
  }

  /** The write loop over the client's channel: every message sent on it is
      written, in the order sent, and once the channel is closed exactly one
      close frame follows them and the loop ends. While the channel is open
      the loop is still waiting after the last message. */
  method Write(send: Chan) returns (frames: seq<Frame>)
    ensures |frames| == |send.sent| + (if send.closed then 1 else 0)
    ensures forall i :: 0 <= i < |send.sent| ==> frames[i] == Text(send.sent[i])
    ensures send.closed ==> frames[|frames| - 1] == CloseFrame
    ensures forall i :: 0 <= i < |frames| && frames[i] == CloseFrame ==> send.closed && i == |frames| - 1
  {
    frames := [];
    var i := 0;
    while i < |send.sent|
      invariant i <= |send.sent|
      invariant |frames| == i
      invariant forall j :: 0 <= j < i ==> frames[j] == Text(send.sent[j])
    {
      frames := frames + [Text(send.sent[i])];
      i := i + 1;
    }
    if send.closed {
      frames := frames + [CloseFrame];
    }
  }
}
