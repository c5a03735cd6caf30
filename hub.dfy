/** The client manager's three request handlers (websocket.go:61-94) as
    functions from the hub's state before a request to its state after it.
    Each handler runs to completion before the next request is taken, so a
    run of the hub is these functions applied in the order the requests
    were received. */
module Hub {
  import opened Envelope
  import opened Channel

  /** A client, identified by its id (uuid ids are distinct, so the id
      stands for the `*Client` pointer the source keys its map by). */
  type Id = string

  /** `clients` is the key set of the manager's map (websocket.go:15);
      `sends` is the `send` channel of every client handed to the manager,
      member or not, since the manager is the only party that sends on or
      closes them. */
  datatype Table = Table(clients: set<Id>, sends: map<Id, Chan>)

  /** Every member has a channel. */
  type State = t: Table | t.clients <= t.sends.Keys witness Table({}, map[])

  /** The three values the manager's select loop receives (websocket.go:16-18). */
  datatype Request = Register(client: Id) | Unregister(client: Id) | Broadcast(message: Message)

  /** The hub's invariant: no member's channel is closed. */
  predicate MembersOpen(s: State)
  {
    forall k :: k in s.clients ==> !s.sends[k].closed
  }

  /** `manager.send(message, ignore)` (websocket.go:88-94): a blocking send of
      `m` to every member but `ignore`. A send on a closed channel panics. */
  function SendAll(s: State, m: Message, ignore: Id): (r: Outcome<State>)
    ensures r.Fail? <==> exists k :: k in s.clients && k != ignore && s.sends[k].closed
    ensures r.Fail? ==> r.fault == SendOnClosed
    ensures r.Ok? ==> r.value.clients == s.clients && r.value.sends.Keys == s.sends.Keys
    ensures r.Ok? ==> forall k :: k in s.clients && k != ignore ==> r.value.sends[k] == Chan(s.sends[k].sent + [m], false)
    ensures r.Ok? ==> forall k :: k in s.sends && (k !in s.clients || k == ignore) ==> r.value.sends[k] == s.sends[k]
  {
    if exists k :: k in s.clients && k != ignore && s.sends[k].closed then
      Fail(SendOnClosed)
    else
      Ok(Table(s.clients,
               map k | k in s.sends :: if k in s.clients && k != ignore then Appended(s.sends[k], m) else s.sends[k]))
  }

  /** The register case (websocket.go:64-67). A client the manager has not
      seen before arrives with the fresh channel made for it (main.go:25). */
  function Registered(s: State, c: Id): (r: Outcome<State>)
    ensures r.Fail? <==> exists k :: k in s.clients && k != c && s.sends[k].closed
    ensures r.Fail? ==> r.fault == SendOnClosed
    ensures r.Ok? ==>
      && r.value.clients == s.clients + {c}
      && r.value.sends.Keys == s.sends.Keys + {c}
      && r.value.sends[c] == (if c in s.sends then s.sends[c] else Fresh)
      && (forall k :: k in s.clients && k != c ==>
            r.value.sends[k] == Chan(s.sends[k].sent + [Announcement(ConnectedNotice)], false))
      && (forall k :: k in s.sends && k !in s.clients && k != c ==> r.value.sends[k] == s.sends[k])
  {
    var admitted := Table(s.clients + {c}, if c in s.sends then s.sends else s.sends[c := Fresh]);
    SendAll(admitted, Announcement(ConnectedNotice), c)
  }

  /** The unregister case (websocket.go:68-74): nothing happens unless `c` is
      a member. */
  function Unregistered(s: State, c: Id): (r: Outcome<State>)
    ensures c !in s.clients ==> r == Ok(s)
    ensures r.Fail? <==> c in s.clients && exists k :: k in s.clients && s.sends[k].closed
    ensures r.Fail? ==> r.fault == (if s.sends[c].closed then CloseOfClosed else SendOnClosed)
    ensures r.Ok? && c in s.clients ==>
      && r.value.clients == s.clients - {c}
      && r.value.sends.Keys == s.sends.Keys
      && r.value.sends[c] == Chan(s.sends[c].sent, true)
      && (forall k :: k in s.clients && k != c ==>
            r.value.sends[k] == Chan(s.sends[k].sent + [Announcement(DisconnectedNotice)], false))
      && (forall k :: k in s.sends && k !in s.clients ==> r.value.sends[k] == s.sends[k])
  {
    if c !in s.clients then Ok(s)
    else
      match Close(s.sends[c])
      case Fail(f) => Fail(f)
      case Ok(ch) =>
        var rest: State := Table(s.clients - {c}, s.sends[c := ch]);
        assert forall k :: k in s.clients && s.sends[k].closed ==> k in rest.clients && rest.sends[k].closed;
        SendAll(rest, Announcement(DisconnectedNotice), c)
  }

  /** The broadcast case (websocket.go:75-83). `ready` is the set of clients
      whose write loop is waiting on its channel when the non-blocking send
      is tried: the send succeeds for them, and every other member is closed
      and dropped. A send case on a closed channel is always chosen by
      `select`, and panics. */
  function Broadcasted(s: State, m: Message, ready: set<Id>): (r: Outcome<State>)
    ensures r.Fail? <==> exists k :: k in s.clients && s.sends[k].closed
    ensures r.Fail? ==> r.fault == SendOnClosed
    ensures r.Ok? ==>
      && r.value.clients == s.clients * ready
      && r.value.sends.Keys == s.sends.Keys
      && (forall k :: k in s.clients && k in ready ==> r.value.sends[k] == Chan(s.sends[k].sent + [m], false))
      && (forall k :: k in s.clients && k !in ready ==> r.value.sends[k] == Chan(s.sends[k].sent, true))
      && (forall k :: k in s.sends && k !in s.clients ==> r.value.sends[k] == s.sends[k])
  {
    if exists k :: k in s.clients && s.sends[k].closed then
      Fail(SendOnClosed)
    else
      Ok(Table(s.clients * ready,
               map k | k in s.sends ::
                 if k in s.clients then (if k in ready then Appended(s.sends[k], m) else Closed(s.sends[k]))
                 else s.sends[k]))
  }

  /** One iteration of the loop in `start` (websocket.go:62-85); `ready` is
      only consulted for a broadcast. */
  function Step(s: State, r: Request, ready: set<Id>): (t: Outcome<State>)
    ensures t.Ok? ==> t.value.clients == match r
      case Register(c) => s.clients + {c}
      case Unregister(c) => s.clients - {c}
      case Broadcast(_) => s.clients * ready
    ensures t.Ok? ==> t.value.sends.Keys == s.sends.Keys + (if r.Register? then {r.client} else {})
  {
    match r
    case Register(c) => Registered(s, c)
    case Unregister(c) => Unregistered(s, c)
    case Broadcast(m) => Broadcasted(s, m, ready)
  }

  /** The loop in `start` serving `reqs` in order; `ready[i]` is the readiness
      of the write loops when `reqs[i]` is served. A panic ends the run. */
  function Run(s: State, reqs: seq<Request>, ready: seq<set<Id>>): (r: Outcome<State>)
    requires |ready| == |reqs|
    ensures r.Ok? ==> s.sends.Keys <= r.value.sends.Keys
    decreases |reqs|
  {
    if reqs == [] then Ok(s)
    else
      match Run(s, reqs[..|reqs| - 1], ready[..|reqs| - 1])
      case Fail(f) => Fail(f)
      case Ok(t) => Step(t, reqs[|reqs| - 1], ready[|reqs| - 1])
  }

  /** The clients `reqs` registers. */
  function Registrants(reqs: seq<Request>): set<Id>
  {
    set i | 0 <= i < |reqs| && reqs[i].Register? :: reqs[i].client
  }

  /** The clients `reqs` unregisters. */
  function Leavers(reqs: seq<Request>): set<Id>
  {
    set i | 0 <= i < |reqs| && reqs[i].Unregister? :: reqs[i].client
  }

  /** As the connection handler behaves (main.go:25-27): every registration
      is of a new client, and no client is registered twice. */
  predicate FreshRegistrations(s: State, reqs: seq<Request>)
  {
    && (forall i :: 0 <= i < |reqs| && reqs[i].Register? ==> reqs[i].client !in s.sends)
    && (forall i, j :: 0 <= i < j < |reqs| && reqs[i].Register? && reqs[j].Register? ==> reqs[i].client != reqs[j].client)
  }

  /** Registering admits `c`, appends exactly one connect announcement to
      every other member's channel, and leaves `c`'s own channel and every
      non-member's channel as they were. */
  lemma RegisterAdmits(s: State, c: Id)
    requires MembersOpen(s)
    requires c in s.clients || c !in s.sends
    ensures Registered(s, c).Ok?
    ensures var t := Registered(s, c).value;
      && MembersOpen(t)
      && t.clients == s.clients + {c}
      && t.sends.Keys == s.sends.Keys + {c}
      && t.sends[c] == (if c in s.sends then s.sends[c] else Fresh)
      && (forall k :: k in s.clients && k != c ==>
            t.sends[k] == Chan(s.sends[k].sent + [Announcement(ConnectedNotice)], false))
      && (forall k :: k in s.sends && k !in s.clients && k != c ==> t.sends[k] == s.sends[k])
  {
  }

  /** Registering a member again changes no membership. */
  lemma RegisterMemberKeepsSet(s: State, c: Id)
    requires MembersOpen(s) && c in s.clients
    ensures Registered(s, c).Ok? && Registered(s, c).value.clients == s.clients
  {
  }

  /** Unregistering a member closes its channel (leaving what was sent on it),
      drops it, and appends exactly one disconnect announcement to every
      remaining member's channel; non-members are untouched. */
  lemma UnregisterRemoves(s: State, c: Id)
    requires MembersOpen(s) && c in s.clients
    ensures Unregistered(s, c).Ok?
    ensures var t := Unregistered(s, c).value;
      && MembersOpen(t)
      && t.clients == s.clients - {c}
      && t.sends.Keys == s.sends.Keys
      && t.sends[c] == Chan(s.sends[c].sent, true)
      && (forall k :: k in t.clients ==>
            t.sends[k] == Chan(s.sends[k].sent + [Announcement(DisconnectedNotice)], false))
      && (forall k :: k in s.sends && k !in s.clients ==> t.sends[k] == s.sends[k])
  {
  }

  /** Unregistering a client that is not a member changes nothing, so
      unregistering twice is unregistering once. */
  lemma UnregisterIdempotent(s: State, c: Id)
    requires MembersOpen(s)
    ensures Unregistered(s, c).Ok?
    ensures c !in s.clients ==> Unregistered(s, c) == Ok(s)
    ensures Unregistered(Unregistered(s, c).value, c) == Unregistered(s, c)
  {
  }

  /** A broadcast pass: each member keeps its place and receives `m` exactly
      once when its write loop is ready, and otherwise is closed with nothing
      appended and dropped; nobody is told of the drop, and non-members are
      untouched. Each member's fate depends only on its own readiness. */
  lemma BroadcastOutcome(s: State, m: Message, ready: set<Id>)
    requires MembersOpen(s)
    ensures Broadcasted(s, m, ready).Ok?
    ensures var t := Broadcasted(s, m, ready).value;
      && MembersOpen(t)
      && t.clients == s.clients * ready
      && t.sends.Keys == s.sends.Keys
      && (forall k :: k in s.clients && k in ready ==> t.sends[k] == Chan(s.sends[k].sent + [m], false))
      && (forall k :: k in s.clients && k !in ready ==> t.sends[k] == Chan(s.sends[k].sent, true))
      && (forall k :: k in s.sends && k !in s.clients ==> t.sends[k] == s.sends[k])
  {
  }

  /** What every handler keeps: the invariant, and the known channels (plus
      a newly registered client's). */
  lemma StepKeepsInvariant(s: State, r: Request, ready: set<Id>)
    requires MembersOpen(s)
    requires r.Register? ==> r.client in s.clients || r.client !in s.sends
    ensures Step(s, r, ready).Ok?
    ensures MembersOpen(Step(s, r, ready).value)
    ensures Step(s, r, ready).value.sends.Keys == s.sends.Keys + (if r.Register? then {r.client} else {})
  {
  }

  /** Channels only grow: a closed channel is never sent on nor closed again,
      and an open one gains at most one message per request, at its end. */
  lemma StepExtendsChannels(s: State, r: Request, ready: set<Id>)
    requires MembersOpen(s)
    requires r.Register? ==> r.client in s.clients || r.client !in s.sends
    ensures Step(s, r, ready).Ok?
    ensures var t := Step(s, r, ready).value;
      && (forall k :: k in s.sends && s.sends[k].closed ==> k in t.sends && t.sends[k] == s.sends[k])
      && (forall k :: k in s.sends ==>
            k in t.sends && s.sends[k].sent <= t.sends[k].sent && |t.sends[k].sent| <= |s.sends[k].sent| + 1)
  {
  }

  /** A request that does not panic leaves every closed channel as it was,
      whatever the state. */
  lemma StepKeepsClosed(s: State, r: Request, ready: set<Id>)
    ensures Step(s, r, ready).Ok? ==>
      forall k :: k in s.sends && s.sends[k].closed ==>
        k in Step(s, r, ready).value.sends && Step(s, r, ready).value.sends[k] == s.sends[k]
  {
  }

  /** The members after one request. */
  lemma StepMembers(s: State, r: Request, ready: set<Id>)
    requires MembersOpen(s)
    requires r.Register? ==> r.client in s.clients || r.client !in s.sends
    ensures Step(s, r, ready).Ok?
    ensures Step(s, r, ready).value.clients == match r
      case Register(c) => s.clients + {c}
      case Unregister(c) => s.clients - {c}
      case Broadcast(_) => s.clients * ready
  {
  }

  /** How a run moves from `requests[..i]` to
      `requests[..i + 1]`: the next request is served from the state reached
      so far, it is allowed, and it adds at most its own client to the known
      channels. */
  lemma NextRequest(initial: State, requests: seq<Request>, ready: seq<set<Id>>, i: nat, before: State)
    requires |ready| == |requests| && i < |requests|
    requires MembersOpen(initial) && FreshRegistrations(initial, requests)
    requires MembersOpen(before) && before.sends.Keys == initial.sends.Keys + Registrants(requests[..i])
    requires Run(initial, requests[..i], ready[..i]) == Ok(before)
    ensures requests[i].Register? ==> requests[i].client !in before.sends
    ensures Run(initial, requests[..i + 1], ready[..i + 1]) == Step(before, requests[i], ready[i])
    ensures Step(before, requests[i], ready[i]).Ok?
    ensures Step(before, requests[i], ready[i]).value.sends.Keys == initial.sends.Keys + Registrants(requests[..i + 1])
  {
    var r := requests[i];
    RegistrationIsNew(initial, requests, i);
    SnocSets(requests[..i], r);
    assert requests[..i + 1] == requests[..i] + [r];
    RunSnoc(initial, requests, ready, i);
    StepKeepsInvariant(before, r, ready[i]);
  }

  /** A run of one more request is the shorter run followed by one step. */
  lemma RunSnoc(s: State, reqs: seq<Request>, ready: seq<set<Id>>, i: nat)
    requires |ready| == |reqs| && i < |reqs|
    ensures Run(s, reqs[..i + 1], ready[..i + 1]) ==
      match Run(s, reqs[..i], ready[..i])
      case Fail(f) => Fail(f)
      case Ok(t) => Step(t, reqs[i], ready[i])
  {
    assert reqs[..i + 1][..i] == reqs[..i] && ready[..i + 1][..i] == ready[..i];
  }

  /** A registration in a fresh trace names a client that neither the
      initial state nor any earlier request knows. */
  lemma RegistrationIsNew(initial: State, requests: seq<Request>, i: nat)
    requires i < |requests| && FreshRegistrations(initial, requests)
    ensures requests[i].Register? ==>
      requests[i].client !in initial.sends && requests[i].client !in Registrants(requests[..i])
  {
  }

  /** No sequence of requests the connection handlers can produce makes the
      hub panic: no send on a closed channel, no channel closed twice. */
  lemma {:induction false} RunKeepsInvariant(s: State, reqs: seq<Request>, ready: seq<set<Id>>)
    requires MembersOpen(s) && FreshRegistrations(s, reqs) && |ready| == |reqs|
    ensures Run(s, reqs, ready).Ok?
    ensures MembersOpen(Run(s, reqs, ready).value)
    ensures Run(s, reqs, ready).value.sends.Keys == s.sends.Keys + Registrants(reqs)
    decreases |reqs|
  {
    if reqs != [] {
      var n := |reqs| - 1;
      var front := reqs[..n];
      assert FreshRegistrations(s, front) by {
        forall i | 0 <= i < n ensures front[i] == reqs[i] { }
      }
      RunKeepsInvariant(s, front, ready[..n]);
      var t := Run(s, front, ready[..n]).value;
      var r := reqs[n];
      RegistrationIsNew(s, reqs, n);
      StepKeepsInvariant(t, r, ready[n]);
      assert Registrants(reqs) == Registrants(front) + (if r.Register? then {r.client} else {}) by {
        assert reqs == front + [r];
      }
    }
  }

  /** Appending a request to a trace adds at most its client to the
      registrants or the leavers. */
  lemma SnocSets(front: seq<Request>, r: Request)
    ensures Registrants(front + [r]) == Registrants(front) + (if r.Register? then {r.client} else {})
    ensures Leavers(front + [r]) == Leavers(front) + (if r.Unregister? then {r.client} else {})
  {
    var reqs := front + [r];
    assert forall i :: 0 <= i < |front| ==> reqs[i] == front[i];
    assert reqs[|front|] == r;
  }

  /** Once a client's channel is closed at some point of a run, the rest of
      the run neither sends on it nor closes it again: a removed client gets
      nothing more. */
  lemma {:induction false} RunKeepsClosed(s: State, reqs: seq<Request>, ready: seq<set<Id>>, i: nat)
    requires |ready| == |reqs| && i <= |reqs| && Run(s, reqs, ready).Ok?
    ensures Run(s, reqs[..i], ready[..i]).Ok?
    ensures var mid, end := Run(s, reqs[..i], ready[..i]).value, Run(s, reqs, ready).value;
      forall k :: k in mid.sends && mid.sends[k].closed ==> k in end.sends && end.sends[k] == mid.sends[k]
    decreases |reqs|
  {
    if i == |reqs| {
      assert reqs[..i] == reqs && ready[..i] == ready;
    } else {
      var n := |reqs| - 1;
      var front, before := reqs[..n], ready[..n];
      assert front[..i] == reqs[..i] && before[..i] == ready[..i];
      RunKeepsClosed(s, front, before, i);
      StepKeepsClosed(Run(s, front, before).value, reqs[n], ready[n]);
    }
  }

  /** The set algebra behind one step of RunMembership. */
  lemma MembersSnoc(members: set<Id>, joined: set<Id>, left: set<Id>, r: Request)
    requires !r.Broadcast?
    requires r.Register? ==> r.client !in left
    ensures var joined', left' := joined + (if r.Register? then {r.client} else {}),
                                  left + (if r.Unregister? then {r.client} else {});
      (if r.Register? then ((members + joined) - left) + {r.client} else ((members + joined) - left) - {r.client})
        == (members + joined') - left'
  {
  }

  /** With broadcasts left aside, the members after a run are the members
      before it plus those registered minus those unregistered, whatever the
      interleaving, as long as nobody is registered after being unregistered
      (a client's read loop starts after its registration, main.go:27-29). */
  lemma {:induction false} RunMembership(s: State, reqs: seq<Request>, ready: seq<set<Id>>)
    requires MembersOpen(s) && FreshRegistrations(s, reqs) && |ready| == |reqs|
    requires forall i :: 0 <= i < |reqs| ==> !reqs[i].Broadcast?
    requires forall i, j :: 0 <= i < j < |reqs| && reqs[i].Unregister? && reqs[j].Register? ==>
               reqs[i].client != reqs[j].client
    ensures Run(s, reqs, ready).Ok?
    ensures Run(s, reqs, ready).value.clients == (s.clients + Registrants(reqs)) - Leavers(reqs)
    decreases |reqs|
  {
    RunKeepsInvariant(s, reqs, ready);
    if reqs != [] {
      var n := |reqs| - 1;
      var front, r := reqs[..n], reqs[n];
      NoRejoinPrefix(s, reqs, n);
      RunMembership(s, front, ready[..n]);
      RunKeepsInvariant(s, front, ready[..n]);
      RegistrationIsNew(s, reqs, n);
      MembershipStep(s, front, r, Run(s, front, ready[..n]).value, ready[n]);
      RunSnoc(s, reqs, ready, n);
      assert reqs[..n + 1] == reqs && ready[..n + 1] == ready;
      assert front + [r] == reqs;
    }
  }

  /** The preconditions of RunMembership hold of every prefix of the trace,
      and the request after the prefix registers nobody who already left. */
  lemma NoRejoinPrefix(s: State, reqs: seq<Request>, n: nat)
    requires n < |reqs| && FreshRegistrations(s, reqs)
    requires forall i :: 0 <= i < |reqs| ==> !reqs[i].Broadcast?
    requires forall i, j :: 0 <= i < j < |reqs| && reqs[i].Unregister? && reqs[j].Register? ==>
               reqs[i].client != reqs[j].client
    ensures FreshRegistrations(s, reqs[..n])
    ensures forall i :: 0 <= i < n ==> !reqs[..n][i].Broadcast?
    ensures forall i, j :: 0 <= i < j < n && reqs[..n][i].Unregister? && reqs[..n][j].Register? ==>
               reqs[..n][i].client != reqs[..n][j].client
    ensures reqs[n].Register? ==> reqs[n].client !in Leavers(reqs[..n])
  {
    assert forall i :: 0 <= i < n ==> reqs[..n][i] == reqs[i];
  }

  /** One non-broadcast step of RunMembership: the members move by exactly
      the request's client. */
  lemma MembershipStep(s: State, front: seq<Request>, r: Request, t: State, ready: set<Id>)
    requires MembersOpen(t) && t.sends.Keys == s.sends.Keys + Registrants(front)
    requires t.clients == (s.clients + Registrants(front)) - Leavers(front)
    requires !r.Broadcast?
    requires r.Register? ==>
      r.client !in s.sends && r.client !in Registrants(front) && r.client !in Leavers(front)
    ensures Step(t, r, ready).Ok?
    ensures Step(t, r, ready).value.clients == (s.clients + Registrants(front + [r])) - Leavers(front + [r])
  {
    SnocSets(front, r);
    StepMembers(t, r, ready);
    MembersSnoc(s.clients, Registrants(front), Leavers(front), r);
  }

  /** The second registration of TwoClientSession. */
  lemma SessionJoin(a: Id, b: Id)
    requires a != b
    ensures Registered(Table({a}, map[a := Fresh]), b)
         == Ok(Table({a, b}, map[a := Chan([Announcement(ConnectedNotice)], false), b := Fresh]))
  {
    var s1: State := Table({a}, map[a := Fresh]);
    RegisterAdmits(s1, b);
    var s2 := Registered(s1, b).value;
    assert [] + [Announcement(ConnectedNotice)] == [Announcement(ConnectedNotice)];
    var want := map[a := Chan([Announcement(ConnectedNotice)], false), b := Fresh];
    assert s2.sends.Keys == {a, b} == want.Keys;
    assert s2.sends[a] == want[a] && s2.sends[b] == want[b];
    assert s2.sends == want;
    assert s2.clients == {a, b};
    assert s2 == Table({a, b}, want);
  }

  /** The broadcast of TwoClientSession. */
  lemma SessionHi(a: Id, b: Id)
    requires a != b
    ensures Broadcasted(Table({a, b}, map[a := Chan([Announcement(ConnectedNotice)], false), b := Fresh]),
                        FromClient(a, "hi"), {a, b})
         == Ok(Table({a, b}, map[a := Chan([Announcement(ConnectedNotice), FromClient(a, "hi")], false),
                                 b := Chan([FromClient(a, "hi")], false)]))
  {
    var hi := FromClient(a, "hi");
    var s2: State := Table({a, b}, map[a := Chan([Announcement(ConnectedNotice)], false), b := Fresh]);
    BroadcastOutcome(s2, hi, {a, b});
    var s3 := Broadcasted(s2, hi, {a, b}).value;
    assert [] + [hi] == [hi];
    var want := map[a := Chan([Announcement(ConnectedNotice), hi], false), b := Chan([hi], false)];
    assert s3.sends.Keys == {a, b} == want.Keys;
    assert s3.sends[a] == want[a] && s3.sends[b] == want[b];
    assert s3.sends == want;
    assert s3.clients == {a, b};
    assert s3 == Table({a, b}, want);
  }

  /** The departure of TwoClientSession. */
  lemma SessionLeave(a: Id, b: Id)
    requires a != b
    ensures
      var hi := FromClient(a, "hi");
      Unregistered(Table({a, b}, map[a := Chan([Announcement(ConnectedNotice), hi], false), b := Chan([hi], false)]), b)
      == Ok(Table({a}, map[a := Chan([Announcement(ConnectedNotice), hi, Announcement(DisconnectedNotice)], false),
                           b := Chan([hi], true)]))
  {
    var hi := FromClient(a, "hi");
    var s3: State := Table({a, b}, map[a := Chan([Announcement(ConnectedNotice), hi], false), b := Chan([hi], false)]);
    UnregisterRemoves(s3, b);
    var s4 := Unregistered(s3, b).value;
    var want := map[a := Chan([Announcement(ConnectedNotice), hi, Announcement(DisconnectedNotice)], false),
                    b := Chan([hi], true)];
    assert s4.sends.Keys == {a, b} == want.Keys;
    assert s4.sends[a] == want[a] && s4.sends[b] == want[b];
    assert s4.sends == want;
    assert s4.clients == {a};
    assert s4 == Table({a}, want);
  }

  /** The first registration of TwoClientSession. */
  lemma SessionFirst(a: Id)
    ensures Registered(Table({}, map[]), a) == Ok(Table({a}, map[a := Fresh]))
  {
    var s0: State := Table({}, map[]);
    RegisterAdmits(s0, a);
    var s1 := Registered(s0, a).value;
    assert s1.sends.Keys == {a} == map[a := Fresh].Keys;
    assert s1.sends == map[a := Fresh];
    assert s1 == Table({a}, map[a := Fresh]);
  }

  /** The run of TwoClientSession up to `a`'s registration. */
  lemma SessionRunFirst(a: Id)
    ensures Run(Table({}, map[]), [Register(a)], [{}]) == Ok(Table({a}, map[a := Fresh]))
  {
    SessionFirst(a);
    assert [Register(a)][..0] == [];
  }

  /** The run of TwoClientSession up to `b`'s registration. */
  lemma SessionRunJoin(a: Id, b: Id)
    requires a != b
    ensures Run(Table({}, map[]), [Register(a), Register(b)], [{}, {}])
         == Ok(Table({a, b}, map[a := Chan([Announcement(ConnectedNotice)], false), b := Fresh]))
  {
    SessionRunFirst(a);
    SessionJoin(a, b);
    assert [Register(a), Register(b)][..1] == [Register(a)];
    var rd: seq<set<Id>> := [{}, {}];
    assert rd[..1] == [{}];
  }

  /** The run of TwoClientSession up to the broadcast of "hi". */
  lemma SessionRunHi(a: Id, b: Id)
    requires a != b
    ensures var hi := FromClient(a, "hi");
      Run(Table({}, map[]), [Register(a), Register(b), Broadcast(hi)], [{}, {}, {a, b}])
      == Ok(Table({a, b}, map[a := Chan([Announcement(ConnectedNotice), hi], false), b := Chan([hi], false)]))
  {
    var hi := FromClient(a, "hi");
    SessionRunJoin(a, b);
    SessionHi(a, b);
    assert [Register(a), Register(b), Broadcast(hi)][..2] == [Register(a), Register(b)];
    var rd: seq<set<Id>> := [{}, {}, {a, b}];
    assert rd[..2] == [{}, {}];
  }

  /** Two browsers: `a` connects, then `b`, so `a` is told of `b`; `a` sends
      "hi", which both receive; `b` goes away, so `a` is told of that and
      `b`'s channel is closed after the one message it received. */
  lemma TwoClientSession(a: Id, b: Id)
    requires a != b
    ensures
      var hi := FromClient(a, "hi");
      Run(Table({}, map[]),
          [Register(a), Register(b), Broadcast(hi), Unregister(b)],
          [{}, {}, {a, b}, {}])
      == Ok(Table({a}, map[a := Chan([Announcement(ConnectedNotice), hi, Announcement(DisconnectedNotice)], false),
                           b := Chan([hi], true)]))
  {
    var hi := FromClient(a, "hi");
    SessionRunHi(a, b);
    SessionLeave(a, b);
    var reqs := [Register(a), Register(b), Broadcast(hi), Unregister(b)];
    var ready: seq<set<Id>> := [{}, {}, {a, b}, {}];
    assert reqs[..3] == [Register(a), Register(b), Broadcast(hi)] && ready[..3] == [{}, {}, {a, b}];
  }
}
