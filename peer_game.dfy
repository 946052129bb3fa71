/** The peer-to-peer game of PeerGame.ts: the list of open data connections,
    incoming and outgoing alike, and the request fan-out built on
    `sendToConnection`. Correlation ids, random in the original, are supplied
    by the caller. */
module PeerGame {
  import opened Wrappers
  import opened JsValues
  import opened PeerConnection

  /** The promise `sendToConnection` returns: which connection, which ticket, which request id. */
  datatype Pending = Pending(connection: Connection, ticket: nat, requestId: string)

  /** `{connection, value}`, what a reply promise settles with. */
  datatype PeerResponse = PeerResponse(connection: Connection, value: Value)

  /** `send` on a game with no connection: `this.connection` is undefined and
      reading its `open` flag throws. */
  datatype SendOutcome = Sent(pending: Pending) | NoConnection

  /** `connections.filter(c => c !== connection)`. */
  function Without(cs: seq<Connection>, c: Connection): (r: seq<Connection>)
    ensures c !in r
    ensures forall i :: 0 <= i < |r| ==> r[i] in cs
    ensures |r| <= |cs|
  {
    if cs == [] then []
    else (if cs[0] == c then [] else [cs[0]]) + Without(cs[1..], c)
  }

  lemma {:induction false} WithoutAppend(a: seq<Connection>, b: seq<Connection>, c: Connection)
    ensures Without(a + b, c) == Without(a, c) + Without(b, c)
  {
    if a == [] {
      assert a + b == b;
    } else {
      var head := if a[0] == c then [] else [a[0]];
      calc {
        Without(a + b, c);
        { assert (a + b)[0] == a[0]; assert (a + b)[1..] == a[1..] + b; }
        head + Without(a[1..] + b, c);
        { WithoutAppend(a[1..], b, c); }
        head + (Without(a[1..], c) + Without(b, c));
        (head + Without(a[1..], c)) + Without(b, c);
        Without(a, c) + Without(b, c);
      }
    }
  }

  lemma {:induction false} WithoutAbsent(cs: seq<Connection>, c: Connection)
    requires c !in cs
    ensures Without(cs, c) == cs
  {
    if cs != [] {
      assert cs[1..] + [] == cs[1..];
      assert forall x :: x in cs[1..] ==> x in cs;
      WithoutAbsent(cs[1..], c);
    }
  }

  /** Closing a connection removes it, wherever it sits, and keeps the others in order. */
  lemma CloseKeepsOthersInOrder(before: seq<Connection>, c: Connection, after: seq<Connection>)
    requires c !in before && c !in after
    ensures Without(before + [c] + after, c) == before + after
  {
    WithoutAppend(before + [c], after, c);
    WithoutAppend(before, [c], c);
    WithoutAbsent(before, c);
    WithoutAbsent(after, c);
    assert Without([c], c) == [] by { assert [c][1..] == []; }
    assert Without(before + [c], c) == before by { assert before + [] == before; }
  }

  /** `connections.filter(({peer}) => peer === peerId)`. */
  function WithPeer(cs: seq<Connection>, peerId: string): (r: seq<Connection>)
    ensures forall i :: 0 <= i < |r| ==> r[i] in cs && r[i].peer == peerId
    ensures forall i :: 0 <= i < |cs| && cs[i].peer == peerId ==> cs[i] in r
    ensures |r| <= |cs|
  {
    if cs == [] then []
    else (if cs[0].peer == peerId then [cs[0]] else []) + WithPeer(cs[1..], peerId)
  }

  /** The peer filter keeps the list order: it distributes over concatenation. */
  lemma {:induction false} WithPeerAppend(a: seq<Connection>, b: seq<Connection>, peerId: string)
    ensures WithPeer(a + b, peerId) == WithPeer(a, peerId) + WithPeer(b, peerId)
  {
    if a == [] {
      assert a + b == b;
    } else {
      var head := if a[0].peer == peerId then [a[0]] else [];
      calc {
        WithPeer(a + b, peerId);
        { assert (a + b)[0] == a[0]; assert (a + b)[1..] == a[1..] + b; }
        head + WithPeer(a[1..] + b, peerId);
        { WithPeerAppend(a[1..], b, peerId); }
        head + (WithPeer(a[1..], peerId) + WithPeer(b, peerId));
        (head + WithPeer(a[1..], peerId)) + WithPeer(b, peerId);
        WithPeer(a, peerId) + WithPeer(b, peerId);
      }
    }
  }

  // ---------------------------------------------------------------------
  // Fan-out bookkeeping

  /** The ids sent on `c` by a fan-out over `cs` with ids `ids`, in order. */
  ghost function IdsFor(cs: seq<Connection>, ids: seq<string>, c: Connection): seq<string>
    requires |cs| == |ids|
  {
    if cs == [] then []
    else IdsFor(cs[..|cs| - 1], ids[..|ids| - 1], c) + (if cs[|cs| - 1] == c then [ids[|ids| - 1]] else [])
  }

  /** `SendRequest` for each id in turn. */
  function SendAll(st: ConnState, ids: seq<string>, data: Value): ConnState {
    if ids == [] then st else SendRequest(SendAll(st, ids[..|ids| - 1], data), ids[|ids| - 1], data)
  }

  lemma IdsForStep(cs: seq<Connection>, ids: seq<string>, i: nat, c: Connection)
    requires |cs| == |ids| && i < |cs|
    ensures IdsFor(cs[..i + 1], ids[..i + 1], c) == IdsFor(cs[..i], ids[..i], c) + (if cs[i] == c then [ids[i]] else [])
  {
    assert cs[..i + 1][..i] == cs[..i] && ids[..i + 1][..i] == ids[..i];
  }

  /** A fan-out sends on `c` once per occurrence of `c` in the list. */
  lemma {:induction false} IdsForCount(cs: seq<Connection>, ids: seq<string>, c: Connection)
    requires |cs| == |ids|
    ensures |IdsFor(cs, ids, c)| == multiset(cs)[c]
  {
    if cs != [] {
      var n := |cs| - 1;
      assert cs == cs[..n] + [cs[n]];
      IdsForCount(cs[..n], ids[..n], c);
    }
  }

  lemma SendAllStep(st: ConnState, ids: seq<string>, extra: seq<string>, data: Value)
    requires |extra| <= 1
    ensures SendAll(st, ids + extra, data) == if extra == [] then SendAll(st, ids, data) else SendRequest(SendAll(st, ids, data), extra[0], data)
  {
    if extra == [] {
      assert ids + extra == ids;
    } else {
      assert (ids + extra)[..|ids|] == ids;
    }
  }

  /** One more step of the fan-out sends on `c` only if `c` is the next listed connection. */
  lemma SendAllPrefixStep(st: ConnState, cs: seq<Connection>, ids: seq<string>, i: nat, c: Connection, data: Value)
    requires |cs| == |ids| && i < |cs|
    ensures var before := SendAll(st, IdsFor(cs[..i], ids[..i], c), data);
      SendAll(st, IdsFor(cs[..i + 1], ids[..i + 1], c), data) ==
        if cs[i] == c then SendRequest(before, ids[i], data) else before
  {
    IdsForStep(cs, ids, i, c);
    SendAllStep(st, IdsFor(cs[..i], ids[..i], c), if cs[i] == c then [ids[i]] else [], data);
  }

  /** Each request of a fan-out takes its own ticket: `n` requests take `n` tickets. */
  lemma {:induction false} SendAllTickets(st: ConnState, ids: seq<string>, data: Value)
    ensures SendAll(st, ids, data).nextTicket == st.nextTicket + |ids|
  {
    if ids != [] {
      SendAllTickets(st, ids[..|ids| - 1], data);
    }
  }

  lemma {:induction false} SendAllKeepsWellFormed(st: ConnState, ids: seq<string>, data: Value)
    requires WellFormed(st)
    ensures WellFormed(SendAll(st, ids, data))
  {
    if ids != [] {
      SendAllKeepsWellFormed(st, ids[..|ids| - 1], data);
      SendRequestKeepsWellFormed(SendAll(st, ids[..|ids| - 1], data), ids[|ids| - 1], data);
    }
  }

  /** A connection listed once in a fan-out receives exactly its own request. */
  lemma {:induction false} IdsForListedOnce(cs: seq<Connection>, ids: seq<string>, j: nat)
    requires |cs| == |ids| && j < |cs|
    requires forall k :: 0 <= k < |cs| && k != j ==> cs[k] != cs[j]
    ensures IdsFor(cs, ids, cs[j]) == [ids[j]]
    decreases |cs|
  {
    var n := |cs| - 1;
    if j == n {
      IdsForAbsent(cs[..n], ids[..n], cs[j]);
    } else {
      assert cs[n] != cs[j];
      IdsForListedOnce(cs[..n], ids[..n], j);
    }
  }

  lemma {:induction false} IdsForAbsent(cs: seq<Connection>, ids: seq<string>, c: Connection)
    requires |cs| == |ids| && c !in cs
    ensures IdsFor(cs, ids, c) == []
  {
    if cs != [] {
      assert forall x :: x in cs[..|cs| - 1] ==> x in cs;
      IdsForAbsent(cs[..|cs| - 1], ids[..|ids| - 1], c);
    }
  }

  /** A longer prefix of a fan-out sends at least as many requests on each connection. */
  lemma {:induction false} IdsForPrefix(cs: seq<Connection>, ids: seq<string>, j: nat, k: nat, c: Connection)
    requires |cs| == |ids| && j <= k <= |cs|
    ensures |IdsFor(cs[..j], ids[..j], c)| + (if j < k && cs[j] == c then 1 else 0) <= |IdsFor(cs[..k], ids[..k], c)|
    decreases k - j
  {
    if j < k {
      IdsForPrefix(cs, ids, j + 1, k, c);
      IdsForStep(cs, ids, j, c);
    }
  }

  /** Two requests of one fan-out on the same connection get different
      tickets, the later one the larger, and all of them below the
      connection's counter afterwards. */
  lemma FanOutTicketsDistinct(cs: seq<Connection>, ids: seq<string>, j: nat, k: nat)
    requires |cs| == |ids| && j < k < |cs| && cs[j] == cs[k]
    ensures |IdsFor(cs[..j], ids[..j], cs[j])| < |IdsFor(cs[..k], ids[..k], cs[k])|
  {
    IdsForPrefix(cs, ids, j, k, cs[j]);
  }

  lemma FanOutTicketsBelowCounter(st: ConnState, cs: seq<Connection>, ids: seq<string>, j: nat, data: Value)
    requires |cs| == |ids| && j < |cs|
    ensures st.nextTicket + |IdsFor(cs[..j], ids[..j], cs[j])| < SendAll(st, IdsFor(cs, ids, cs[j]), data).nextTicket
  {
    IdsForPrefix(cs, ids, j, |cs|, cs[j]);
    assert cs[..|cs|] == cs && ids[..|ids|] == ids;
    SendAllTickets(st, IdsFor(cs, ids, cs[j]), data);
  }

  /** The value a pending request was answered with. */
  function Response(p: Pending): (r: Option<PeerResponse>)
    reads p.connection
    ensures r.Some? ==> r.value.connection == p.connection && Answered(p.ticket, r.value.value) in p.connection.settled
    ensures r.None? ==> forall v :: Answered(p.ticket, v) !in p.connection.settled
  {
    match Answer(p.connection.settled, p.ticket)
    case Some(v) => Some(PeerResponse(p.connection, v))
    case None => None
  }

  /** `Promise.all`: every response, in the order of the requests, once all are answered. */
  function AllResponses(ps: seq<Pending>): (r: Option<seq<PeerResponse>>)
    reads set p | p in ps :: p.connection
    ensures r.Some? <==> forall i :: 0 <= i < |ps| ==> Response(ps[i]).Some?
    ensures r.Some? ==> |r.value| == |ps|
    ensures r.Some? ==> forall i :: 0 <= i < |ps| ==>
      r.value[i] == Response(ps[i]).value && r.value[i].connection == ps[i].connection
  {
    if ps == [] then Some([])
    else
      var head := Response(ps[0]);
      var tail := AllResponses(ps[1..]);
      if head.Some? && tail.Some? then Some([head.value] + tail.value) else None
  }

  /** The requests the first |ps| steps of a fan-out over `cs` have issued,
      from the connection states `init`: one pending request per listed
      connection, whose ticket counts the requests sent on that connection
      before it. */
  ghost predicate Issued(cs: seq<Connection>, ids: seq<string>, init: map<Connection, ConnState>, ps: seq<Pending>)
    requires |ids| == |cs| && |ps| <= |cs|
  {
    && (forall c :: c in cs ==> c in init)
    && (forall j :: 0 <= j < |ps| ==> ps[j] == Pending(cs[j], init[cs[j]].nextTicket + |IdsFor(cs[..j], ids[..j], cs[j])|, ids[j]))
  }

  /** What the first `n` steps of the fan-out have done to the connections. */
  ghost predicate SentSoFar(cs: seq<Connection>, ids: seq<string>, data: Value, init: map<Connection, ConnState>, n: nat)
    requires |ids| == |cs| && n <= |cs|
    reads init.Keys
  {
    forall c :: c in init ==> c.State() == SendAll(init[c], IdsFor(cs[..n], ids[..n], c), data)
  }

  /** Before any request, every connection is as `init` recorded it. */
  lemma FanOutStart(cs: seq<Connection>, ids: seq<string>, data: Value, init: map<Connection, ConnState>)
    requires |ids| == |cs|
    requires forall c :: c in cs <==> c in init
    requires forall c :: c in init ==> init[c] == c.State()
    ensures Issued(cs, ids, init, []) && SentSoFar(cs, ids, data, init, 0)
  {
  }

  /** A finished fan-out has sent, on each connection, every request listed for it. */
  lemma FanOutComplete(cs: seq<Connection>, ids: seq<string>, data: Value, init: map<Connection, ConnState>)
    requires |ids| == |cs| && SentSoFar(cs, ids, data, init, |cs|)
    ensures forall c :: c in init ==> c.State() == SendAll(init[c], IdsFor(cs, ids, c), data)
  {
    assert cs[..|cs|] == cs && ids[..|cs|] == ids;
  }

  /** Appending the next request keeps `Issued`. */
  lemma TicketsStep(cs: seq<Connection>, ids: seq<string>, init: map<Connection, ConnState>, ps: seq<Pending>, p: Pending)
    requires |ids| == |cs| && |ps| < |cs| && Issued(cs, ids, init, ps)
    requires p == Pending(cs[|ps|], init[cs[|ps|]].nextTicket + |IdsFor(cs[..|ps|], ids[..|ps|], cs[|ps|])|, ids[|ps|])
    ensures Issued(cs, ids, init, ps + [p])
  {
    assert forall j :: 0 <= j < |ps| ==> (ps + [p])[j] == ps[j];
  }

  class Game {
    var connections: seq<Connection>

    /** The connection list a new game starts with. */
    constructor ()
      ensures connections == []
    {
      connections := [];
    }

    /** `addConnection`: append the connection and listen to its data. */
    method AddConnection(c: Connection)
      modifies this, c
      ensures connections == old(connections) + [c]
      ensures c.State() == old(c.State()).(onData := old(c.onData) + [Inbound])
    {
      connections := connections + [c];
      c.AddDataListener(Inbound);
    }

    /** The `close` listener `addConnection` installs. */
    method OnClose(c: Connection)
      modifies this
      ensures connections == Without(old(connections), c)
    {
      connections := Without(connections, c);
    }

    /** `connectToPeer(peerId)`, given the connection PeerJS returned for
        that peer: register it, and wait for it to open. From then on it is
        among the connections `sendToPeer(peerId)` addresses, last. */
    method ConnectToPeer(peerId: string, c: Connection) returns (ticket: nat)
      requires c.peer == peerId
      modifies this, c
      ensures connections == old(connections) + [c]
      ensures WithPeer(connections, peerId) == WithPeer(old(connections), peerId) + [c]
      ensures ticket == old(c.nextTicket)
      ensures c.State() == AwaitOpen(old(c.State()).(onData := old(c.onData) + [Inbound]))
    {
      AddConnection(c);
      WithPeerAppend(old(connections), [c], peerId);
      ticket := c.IssueTicket();
      c.AddOpenListener(ResolveConnect(ticket));
    }

    /** The `connection` getter: the first connection, if there is one. */
    function FirstConnection(): (r: Option<Connection>)
      reads this
      ensures r.Some? <==> |connections| > 0
      ensures r.Some? ==> r.value == connections[0] && r.value in connections
    {
      if connections == [] then None else Some(connections[0])
    }

    /** `replyToConnection`. */
    method ReplyToConnection(c: Connection, requestId: Option<string>, value: Value)
      modifies c
      ensures c.State() == old(c.State()).(sent := old(c.sent) + [Reply(requestId, value)])
    {
      c.Transmit(Reply(requestId, value));
    }

    /** `sendToConnection` with the caller's request id. */
    method SendToConnection(c: Connection, id: string, data: Value) returns (p: Pending)
      modifies c
      ensures c.State() == SendRequest(old(c.State()), id, data)
      ensures p == Pending(c, old(c.nextTicket), id)
    {
      var request := Request(id, data);
      if c.open {
        c.Transmit(request);
      } else {
        c.AddOpenListener(SendDeferred(request));
      }
      var ticket := c.IssueTicket();
      c.AddDataListener(AwaitReply(ticket, id));
      p := Pending(c, ticket, id);
    }

    /** `sendToConnections`: one request per listed connection, in list order.
        The ticket of each request counts the earlier requests on its
        connection, so a connection listed twice gets two tickets. */
    method SendToConnections(cs: seq<Connection>, ids: seq<string>, data: Value) returns (ps: seq<Pending>)
      requires |ids| == |cs|
      modifies set c | c in cs
      ensures |ps| == |cs|
      ensures forall i :: 0 <= i < |cs| ==>
        ps[i] == Pending(cs[i], old(cs[i].nextTicket) + |IdsFor(cs[..i], ids[..i], cs[i])|, ids[i])
      ensures forall c :: c in cs ==> c.State() == SendAll(old(c.State()), IdsFor(cs, ids, c), data)
    {
      ghost var init := map c | c in cs :: c.State();
      ps := SendFanOut(cs, ids, data, init);
      forall i | 0 <= i < |cs|
        ensures ps[i] == Pending(cs[i], old(cs[i].nextTicket) + |IdsFor(cs[..i], ids[..i], cs[i])|, ids[i])
      {
        assert init[cs[i]] == old(cs[i].State());
      }
    }

    /** The fan-out loop, from the connection states `init` it starts with. */
    method SendFanOut(cs: seq<Connection>, ids: seq<string>, data: Value, ghost init: map<Connection, ConnState>)
      returns (ps: seq<Pending>)
      requires |ids| == |cs|
      requires forall c :: c in cs <==> c in init
      requires forall c :: c in init ==> init[c] == c.State()
      modifies set c | c in cs
      ensures |ps| == |cs|
      ensures forall i :: 0 <= i < |cs| ==>
        ps[i] == Pending(cs[i], init[cs[i]].nextTicket + |IdsFor(cs[..i], ids[..i], cs[i])|, ids[i])
      ensures forall c :: c in init ==> c.State() == SendAll(init[c], IdsFor(cs, ids, c), data)
    {
      ps := [];
      FanOutStart(cs, ids, data, init);
      var i := 0;
      while i < |cs|
        invariant 0 <= i <= |cs| && |ps| == i
        invariant Issued(cs, ids, init, ps)
        invariant SentSoFar(cs, ids, data, init, i)
      {
        ps := SendNext(cs, ids, data, init, ps);
        i := i + 1;
      }
      FanOutComplete(cs, ids, data, init);
    }

    /** One step of the fan-out: the request to the next listed connection. */
    method SendNext(cs: seq<Connection>, ids: seq<string>, data: Value, ghost init: map<Connection, ConnState>,
                    ps: seq<Pending>) returns (ps': seq<Pending>)
      requires |ids| == |cs| && |ps| < |cs|
      requires Issued(cs, ids, init, ps) && SentSoFar(cs, ids, data, init, |ps|)
      modifies cs[|ps|]
      ensures |ps'| == |ps| + 1
      ensures Issued(cs, ids, init, ps') && SentSoFar(cs, ids, data, init, |ps'|)
    {
      var i := |ps|;
      var c := cs[i];
      SendAllTickets(init[c], IdsFor(cs[..i], ids[..i], c), data);
      var p := SendToConnection(c, ids[i], data);
      TicketsStep(cs, ids, init, ps, p);
      ps' := ps + [p];
      forall x | x in init
        ensures x.State() == SendAll(init[x], IdsFor(cs[..i + 1], ids[..i + 1], x), data)
      {
        SendAllPrefixStep(init[x], cs, ids, i, x, data);
        if x != c {
          assert x.State() == old(x.State());
        }
      }
    }

    /** `send`: a request on the first connection. */
    method Send(id: string, data: Value) returns (r: SendOutcome)
      modifies if |connections| > 0 then {connections[0]} else {}
      ensures old(|connections|) == 0 <==> r == NoConnection
      ensures r.Sent? ==> r.pending == Pending(connections[0], old(connections[0].nextTicket), id)
      ensures r.Sent? ==> connections[0].State() == SendRequest(old(connections[0].State()), id, data)
    {
      match FirstConnection()
      case None =>
        return NoConnection;
      case Some(c) =>
        var p := SendToConnection(c, id, data);
        return Sent(p);
    }

    /** `sendToPeer`: requests on every connection to that peer, in list order. */
    method SendToPeer(peerId: string, ids: seq<string>, data: Value) returns (ps: seq<Pending>)
      requires |ids| == |WithPeer(connections, peerId)|
      modifies set c | c in connections && c.peer == peerId
      ensures |ps| == |ids|
      ensures forall i :: 0 <= i < |ps| ==>
        ps[i].connection == WithPeer(connections, peerId)[i] && ps[i].connection.peer == peerId && ps[i].requestId == ids[i]
      ensures var targets := WithPeer(connections, peerId);
        forall i :: 0 <= i < |targets| ==>
          ps[i] == Pending(targets[i], old(targets[i].nextTicket) + |IdsFor(targets[..i], ids[..i], targets[i])|, ids[i])
      ensures var targets := WithPeer(connections, peerId);
        forall c :: c in targets ==> c.State() == SendAll(old(c.State()), IdsFor(targets, ids, c), data)
    {
      var targets := WithPeer(connections, peerId);
      ps := SendToConnections(targets, ids, data);
    }

    /** `sendToAllPeers`: a request on every connection, in list order. */
    method SendToAllPeers(ids: seq<string>, data: Value) returns (ps: seq<Pending>)
      requires |ids| == |connections|
      modifies set c | c in connections
      ensures |ps| == |connections|
      ensures forall i :: 0 <= i < |ps| ==> ps[i].connection == connections[i] && ps[i].requestId == ids[i]
      ensures forall i :: 0 <= i < |connections| ==>
        ps[i] == Pending(connections[i], old(connections[i].nextTicket) + |IdsFor(connections[..i], ids[..i], connections[i])|, ids[i])
      ensures forall c :: c in connections ==> c.State() == SendAll(old(c.State()), IdsFor(connections, ids, c), data)
    {
      ps := SendToConnections(connections, ids, data);
    }
  }
}
