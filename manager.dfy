/** The `ClientManager` (websocket.go:14-19) as an object whose methods are
    the cases of its `start` loop. Each method is proved to leave the object
    in the state the matching function of module Hub gives, and so to keep
    the hub's invariant; in particular none of them can panic. */
module Manager {
  import opened Envelope
  import opened Channel
  import opened Hub

  class ClientManager {
    /** The members: the keys of `clients map[*Client]bool`. */
    var clients: set<Id>
    /** The `send` channel of every client handed to the manager. */
    var sends: map<Id, Chan>

    ghost predicate Valid()
      reads this
    {
      clients <= sends.Keys && MembersOpen(Table(clients, sends))
    }

    /** The manager's state as a value. */
    ghost function Snapshot(): State
      reads this
      requires clients <= sends.Keys
    {
      Table(clients, sends)
    }

    /** An empty manager (websocket.go:34-39), made explicitly rather than
        as a package-level variable. */
    constructor ()
      ensures Valid() && clients == {} && sends == map[]
    {
      clients := {};
      sends := map[];
    }

    /** `send` (websocket.go:88-94): a blocking send to every member but
        `ignore`, in whatever order the map is ranged over. */
    method Send(message: Message, ignore: Id)
      requires Valid()
      modifies this
      ensures Valid()
      ensures SendAll(old(Snapshot()), message, ignore) == Ok(Snapshot())
    {
      var pending := clients;
      while pending != {}
        invariant pending <= clients == old(clients)
        invariant sends.Keys == old(sends).Keys
        invariant forall k :: k in sends ==>
          sends[k] == if k in clients - pending && k != ignore then Appended(old(sends)[k], message) else old(sends)[k]
        decreases pending
      {
        var k :| k in pending;
        if k != ignore {
          var r := Channel.Send(sends[k], message);
          assert r.Ok?;  // a member's channel is never closed
          sends := sends[k := r.value];
        }
        pending := pending - {k};
      }
      assert sends == map k | k in old(sends) :: if k in old(clients) && k != ignore then Appended(old(sends)[k], message) else old(sends)[k];
    }

    /** The register case (websocket.go:64-67). The connection handler only
        registers a client it has just made (main.go:25-27), so `c` is a new
        client or, at worst, already a member. */
    method Register(c: Id)
      requires Valid()
      requires c in clients || c !in sends
      modifies this
      ensures Valid()
      ensures Registered(old(Snapshot()), c) == Ok(Snapshot())
    {
      clients := clients + {c};
      if c !in sends {
        sends := sends[c := Fresh];  // the client's own channel (main.go:25)
      }
      Send(Announcement(ConnectedNotice), c);
    }

    /** The unregister case (websocket.go:68-74). */
    method Unregister(c: Id)
      requires Valid()
      modifies this
      ensures Valid()
      ensures Unregistered(old(Snapshot()), c) == Ok(Snapshot())
    {
      if c in clients {
        var r := Close(sends[c]);
        assert r.Ok?;  // a member's channel is never closed
        sends := sends[c := r.value];
        clients := clients - {c};
        Send(Announcement(DisconnectedNotice), c);
      }
    }

    /** The broadcast case (websocket.go:75-83): a non-blocking send to every
        member, in whatever order the map is ranged over; `ready` holds the
        clients whose write loop is waiting on its channel at that moment. A
        member that cannot take the message is closed and deleted on the spot.
        The final state does not depend on the order. */
    method Broadcast(message: Message, ready: set<Id>)
      requires Valid()
      modifies this
      ensures Valid()
      ensures Broadcasted(old(Snapshot()), message, ready) == Ok(Snapshot())
    {
      var pending := clients;
      while pending != {}
        invariant pending <= old(clients)
        invariant clients == old(clients) - ((old(clients) - pending) - ready)
        invariant sends.Keys == old(sends).Keys
        invariant forall k :: k in sends ==>
          sends[k] == if k in old(clients) - pending then
                        (if k in ready then Appended(old(sends)[k], message) else Closed(old(sends)[k]))
                      else old(sends)[k]
        decreases pending
      {
        var k :| k in pending;
        if k in ready {
          var r := Channel.Send(sends[k], message);
          assert r.Ok?;
          sends := sends[k := r.value];
        } else {
          var r := Close(sends[k]);
          assert r.Ok?;
          sends := sends[k := r.value];
          clients := clients - {k};
        }
        pending := pending - {k};
      }
      assert clients == old(clients) * ready;
      assert sends == map k | k in old(sends) ::
        if k in old(clients) then (if k in ready then Appended(old(sends)[k], message) else Closed(old(sends)[k]))
        else old(sends)[k];
    }

    /** The `start` loop (websocket.go:61-86) serving `requests` one at a
        time, in the order its select received them; `ready[i]` is the
        readiness of the write loops when `requests[i]` is served. */
    method Start(requests: seq<Request>, ready: seq<set<Id>>)
      requires Valid()
      requires |ready| == |requests|
      requires FreshRegistrations(Snapshot(), requests)
      modifies this
      ensures Valid()
      ensures Run(old(Snapshot()), requests, ready) == Ok(Snapshot())
    {
      ghost var initial := Snapshot();
      for i := 0 to |requests|
        invariant Valid()
        invariant Run(initial, requests[..i], ready[..i]) == Ok(Snapshot())
        invariant sends.Keys == initial.sends.Keys + Registrants(requests[..i])
      {
        var r := requests[i];
        ghost var before := Snapshot();
        NextRequest(initial, requests, ready, i, before);
        match r
        case Register(c) => Register(c);
        case Unregister(c) => Unregister(c);
        case Broadcast(m) => Broadcast(m, ready[i]);
        assert Run(initial, requests[..i + 1], ready[..i + 1]) == Step(before, r, ready[i]);
      }
      assert requests[..|requests|] == requests;
      assert ready[..|ready|] == ready;
    }
  }
}
