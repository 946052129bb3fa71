/** One PeerJS data connection as PeerGame.ts drives it: the envelopes it
    transmits, the `open` listeners waiting for it to open, the `data`
    listeners waiting for envelopes, and the reply promises it has settled.

    The transport is modelled as explicit events: `Opened` (the connection
    becomes open and its `once('open')` listeners run) and `Delivered` (an
    envelope arrives and every `data` listener present at that moment runs,
    in registration order). A promise created on a connection is identified
    by a ticket drawn from a counter of that connection. */
module PeerConnection {
  import opened Wrappers
  import opened JsValues

  datatype RequestType = UserRequest | LudumjsRequest | OtherType(name: string)

  datatype Metadata = Metadata(kind: RequestType, id: Option<string>, replyTo: Option<string>)

  /** The `{metadata, data}` object each side sends. */
  datatype Envelope = Envelope(metadata: Metadata, data: Value)

  /** The request `sendToConnection` builds, with the id supplied by the caller. */
  function Request(id: string, data: Value): (e: Envelope)
    ensures e.metadata.kind == UserRequest && e.metadata.id == Some(id)
    ensures e.metadata.replyTo.None? && e.data == data
  {
    Envelope(Metadata(UserRequest, Some(id), None), data)
  }

  /** The answer `replyToConnection` builds; it carries no id of its own. */
  function Reply(requestId: Option<string>, value: Value): (e: Envelope)
    ensures e.metadata.kind == LudumjsRequest && e.metadata.replyTo == requestId
    ensures e.metadata.id.None? && e.data == value
  {
    Envelope(Metadata(LudumjsRequest, None, requestId), value)
  }

  /** The test `onResponse` applies: a `ludumjs_request` whose `replyTo` is the request's id. */
  predicate Answers(e: Envelope, requestId: string) {
    e.metadata.kind == LudumjsRequest && e.metadata.replyTo == Some(requestId)
  }

  /** A reply answers exactly the request whose id it carries; no request answers anything. */
  lemma ReplyCorrelation(requestId: string, otherId: string, value: Value, data: Value)
    ensures Answers(Reply(Some(requestId), value), otherId) <==> requestId == otherId
    ensures !Answers(Reply(None, value), otherId)
    ensures !Answers(Request(requestId, data), otherId)
  {
  }

  /** A `data` listener: the one `addConnection` installs, or the `onResponse`
      of one pending request. */
  datatype DataListener = Inbound | AwaitReply(ticket: nat, requestId: string)

  /** A `once('open')` listener: a deferred send, or the resolution of `connectToPeer`. */
  datatype OpenListener = SendDeferred(envelope: Envelope) | ResolveConnect(ticket: nat)

  /** A settled promise: a request answered with a value, or a connection opened. */
  datatype Settlement = Answered(ticket: nat, value: Value) | Connected(ticket: nat)

  datatype ConnState = ConnState(
    open: bool,
    sent: seq<Envelope>,
    onOpen: seq<OpenListener>,
    onData: seq<DataListener>,
    settled: seq<Settlement>,
    nextTicket: nat)

  // ---------------------------------------------------------------------
  // Sending

  /** `sendToConnection`: transmit now when open, otherwise defer to the open
      event; either way install the reply waiter under a fresh ticket. */
  function SendRequest(st: ConnState, id: string, data: Value): (r: ConnState)
    ensures r.open == st.open && r.settled == st.settled
    ensures r.nextTicket == st.nextTicket + 1
    ensures r.onData == st.onData + [AwaitReply(st.nextTicket, id)]
    ensures st.open ==> r.sent == st.sent + [Request(id, data)] && r.onOpen == st.onOpen
    ensures !st.open ==> r.sent == st.sent && r.onOpen == st.onOpen + [SendDeferred(Request(id, data))]
  {
    var req := Request(id, data);
    if st.open then
      st.(sent := st.sent + [req], onData := st.onData + [AwaitReply(st.nextTicket, id)], nextTicket := st.nextTicket + 1)
    else
      st.(onOpen := st.onOpen + [SendDeferred(req)], onData := st.onData + [AwaitReply(st.nextTicket, id)], nextTicket := st.nextTicket + 1)
  }

  /** `connectToPeer`'s `once('open', resolve)`, under a fresh ticket. */
  function AwaitOpen(st: ConnState): (r: ConnState)
    ensures r.onOpen == st.onOpen + [ResolveConnect(st.nextTicket)]
    ensures r.nextTicket == st.nextTicket + 1
    ensures r.open == st.open && r.sent == st.sent && r.onData == st.onData && r.settled == st.settled
  {
    st.(onOpen := st.onOpen + [ResolveConnect(st.nextTicket)], nextTicket := st.nextTicket + 1)
  }

  // ---------------------------------------------------------------------
  // The open event

  /** The envelopes the open listeners send, in registration order. */
  function DeferredSends(ls: seq<OpenListener>): seq<Envelope> {
    if ls == [] then []
    else DeferredSends(ls[..|ls| - 1]) + (if ls[|ls| - 1].SendDeferred? then [ls[|ls| - 1].envelope] else [])
  }

  /** The `connectToPeer` promises the open listeners resolve, in registration order. */
  function OpenSettlements(ls: seq<OpenListener>): seq<Settlement> {
    if ls == [] then []
    else OpenSettlements(ls[..|ls| - 1]) + (if ls[|ls| - 1].ResolveConnect? then [Connected(ls[|ls| - 1].ticket)] else [])
  }

  /** The connection opens: every `once('open')` listener runs once and is dropped. */
  function Opened(st: ConnState): (r: ConnState)
    ensures r.open && r.onOpen == [] && r.onData == st.onData && r.nextTicket == st.nextTicket
    ensures |st.sent| <= |r.sent| && r.sent[..|st.sent|] == st.sent
    ensures |st.settled| <= |r.settled| && r.settled[..|st.settled|] == st.settled
    ensures |r.sent| + |r.settled| == |st.sent| + |st.settled| + |st.onOpen|
  {
    OpenListenersSplit(st.onOpen);
    st.(open := true, onOpen := [],
        sent := st.sent + DeferredSends(st.onOpen),
        settled := st.settled + OpenSettlements(st.onOpen))
  }

  /** Every once-open listener either sends its deferred request or settles
      its connect promise. */
  lemma {:induction false} OpenListenersSplit(ls: seq<OpenListener>)
    ensures |DeferredSends(ls)| + |OpenSettlements(ls)| == |ls|
  {
    if ls != [] {
      OpenListenersSplit(ls[..|ls| - 1]);
    }
  }

  // ---------------------------------------------------------------------
  // The data event

  /** A pending request's waiter fires on this envelope. */
  predicate Fires(l: DataListener, e: Envelope) {
    l.AwaitReply? && Answers(e, l.requestId)
  }

  /** What the `addConnection` listener sends back for one delivered envelope:
      an answer to a `user_request`, when the current phase has `onPeerMessage`. */
  function InboundReply(e: Envelope, handler: Option<Value -> Value>): (r: seq<Envelope>)
    ensures |r| <= 1
    ensures |r| == 1 <==> e.metadata.kind == UserRequest && handler.Some?
  {
    if e.metadata.kind == UserRequest && handler.Some? then [Reply(e.metadata.id, handler.value(e.data))] else []
  }

  /** The replies sent while the listeners `ls` run on `e`. */
  function Replies(ls: seq<DataListener>, e: Envelope, handler: Option<Value -> Value>): seq<Envelope> {
    if ls == [] then []
    else Replies(ls[..|ls| - 1], e, handler) + (if ls[|ls| - 1].Inbound? then InboundReply(e, handler) else [])
  }

  /** The listeners still installed afterwards: a waiter that fires removes itself. */
  function Kept(ls: seq<DataListener>, e: Envelope): seq<DataListener> {
    if ls == [] then []
    else Kept(ls[..|ls| - 1], e) + (if Fires(ls[|ls| - 1], e) then [] else [ls[|ls| - 1]])
  }

  /** The promises settled while the listeners `ls` run on `e`. */
  function Resolved(ls: seq<DataListener>, e: Envelope): seq<Settlement> {
    if ls == [] then []
    else Resolved(ls[..|ls| - 1], e) + (if Fires(ls[|ls| - 1], e) then [Answered(ls[|ls| - 1].ticket, e.data)] else [])
  }

  /** An envelope arrives; the listeners present at that moment run in order. */
  function Delivered(st: ConnState, e: Envelope, handler: Option<Value -> Value>): (r: ConnState)
    ensures r.open == st.open && r.onOpen == st.onOpen && r.nextTicket == st.nextTicket
    ensures |st.sent| <= |r.sent| && r.sent[..|st.sent|] == st.sent
    ensures |st.settled| <= |r.settled| && r.settled[..|st.settled|] == st.settled
    ensures |r.onData| + |r.settled| == |st.onData| + |st.settled|
  {
    KeptIsUnfired(st.onData, e);
    st.(sent := st.sent + Replies(st.onData, e, handler),
        onData := Kept(st.onData, e),
        settled := st.settled + Resolved(st.onData, e))
  }

  // ---------------------------------------------------------------------
  // Properties of the open event

  lemma {:induction false} DeferredSendsAppend(a: seq<OpenListener>, b: seq<OpenListener>)
    ensures DeferredSends(a + b) == DeferredSends(a) + DeferredSends(b)
    decreases |b|
  {
    if b == [] {
      assert a + b == a;
    } else {
      assert (a + b)[..|a + b| - 1] == a + b[..|b| - 1];
      DeferredSendsAppend(a, b[..|b| - 1]);
    }
  }

  /** A request sent on an open connection goes out at once and is never deferred. */
  lemma SendWhenOpen(st: ConnState, id: string, data: Value)
    requires st.open
    ensures SendRequest(st, id, data).sent == st.sent + [Request(id, data)]
    ensures Opened(SendRequest(st, id, data)).sent == st.sent + [Request(id, data)] + DeferredSends(st.onOpen)
  {
  }

  /** A request sent before the connection opens goes out exactly when it
      opens, after the requests deferred before it. */
  lemma SendBeforeOpen(st: ConnState, id: string, data: Value)
    requires !st.open
    ensures SendRequest(st, id, data).sent == st.sent
    ensures Opened(SendRequest(st, id, data)).sent == Opened(st).sent + [Request(id, data)]
  {
    DeferredSendsAppend(st.onOpen, [SendDeferred(Request(id, data))]);
    assert DeferredSends([SendDeferred(Request(id, data))]) == [Request(id, data)];
  }

  /** The open listeners run once: a second open event transmits nothing more. */
  lemma OpenRunsListenersOnce(st: ConnState)
    ensures Opened(Opened(st)).sent == Opened(st).sent
    ensures Opened(Opened(st)).settled == Opened(st).settled
  {
  }

  /** Two requests sent before the connection opens go out in the order they were sent. */
  lemma DeferredInOrder(st: ConnState, id1: string, d1: Value, id2: string, d2: Value)
    requires !st.open
    ensures Opened(SendRequest(SendRequest(st, id1, d1), id2, d2)).sent ==
      Opened(st).sent + [Request(id1, d1), Request(id2, d2)]
  {
    SendBeforeOpen(st, id1, d1);
    SendBeforeOpen(SendRequest(st, id1, d1), id2, d2);
  }

  // ---------------------------------------------------------------------
  // Properties of the data event

  /** The waiters that remain are exactly those that did not fire, in their order. */
  lemma {:induction false} KeptIsUnfired(ls: seq<DataListener>, e: Envelope)
    ensures forall l :: l in Kept(ls, e) <==> l in ls && !Fires(l, e)
    ensures |Kept(ls, e)| + |Resolved(ls, e)| == |ls|
  {
    if ls != [] {
      KeptIsUnfired(ls[..|ls| - 1], e);
      assert ls == ls[..|ls| - 1] + [ls[|ls| - 1]];
    }
  }

  /** Every settlement made on `e` answers a waiter that fired, with the envelope's data. */
  lemma {:induction false} ResolvedOnlyMatching(ls: seq<DataListener>, e: Envelope)
    ensures forall s :: s in Resolved(ls, e) ==>
      s.Answered? && s.value == e.data && e.metadata.replyTo.Some? &&
      AwaitReply(s.ticket, e.metadata.replyTo.value) in ls
    ensures e.metadata.kind != LudumjsRequest ==> Resolved(ls, e) == []
  {
    if ls != [] {
      ResolvedOnlyMatching(ls[..|ls| - 1], e);
      var l := ls[|ls| - 1];
      assert l in ls;
      forall s | s in Resolved(ls[..|ls| - 1], e)
        ensures e.metadata.replyTo.Some? && AwaitReply(s.ticket, e.metadata.replyTo.value) in ls
      {
        assert AwaitReply(s.ticket, e.metadata.replyTo.value) in ls[..|ls| - 1];
      }
    }
  }

  /** A waiter that fires on `e` is settled with `e`'s data. */
  lemma {:induction false} FiredIsResolved(ls: seq<DataListener>, e: Envelope, ticket: nat, id: string)
    requires AwaitReply(ticket, id) in ls && Answers(e, id)
    ensures Answered(ticket, e.data) in Resolved(ls, e)
  {
    var l := ls[|ls| - 1];
    if l != AwaitReply(ticket, id) {
      assert AwaitReply(ticket, id) in ls[..|ls| - 1] by {
        assert ls == ls[..|ls| - 1] + [l];
      }
      FiredIsResolved(ls[..|ls| - 1], e, ticket, id);
    }
  }

  /** An envelope that answers no pending request changes no waiter and settles nothing. */
  lemma {:induction false} UnmatchedChangesNothing(ls: seq<DataListener>, e: Envelope)
    requires forall l :: l in ls ==> !Fires(l, e)
    ensures Kept(ls, e) == ls && Resolved(ls, e) == []
  {
    if ls != [] {
      var init, last := ls[..|ls| - 1], ls[|ls| - 1];
      assert forall l :: l in init ==> l in ls;
      UnmatchedChangesNothing(init, e);
      assert !Fires(last, e) by { assert last in ls; }
      assert Kept(ls, e) == init + [last];
      assert ls == init + [last];
    }
  }

  /** `addConnection`'s listener answers a `user_request` when, and only when, the
      current phase has `onPeerMessage`; replies and other types get no answer. */
  lemma {:induction false} RepliesOnlyToUserRequests(ls: seq<DataListener>, e: Envelope, handler: Option<Value -> Value>)
    ensures !(e.metadata.kind == UserRequest && handler.Some?) ==> Replies(ls, e, handler) == []
    ensures forall r :: r in Replies(ls, e, handler) ==> r == Reply(e.metadata.id, handler.value(e.data))
    ensures Inbound in ls && e.metadata.kind == UserRequest && handler.Some? ==> |Replies(ls, e, handler)| > 0
  {
    if ls != [] {
      RepliesOnlyToUserRequests(ls[..|ls| - 1], e, handler);
      if Inbound in ls && ls[|ls| - 1] != Inbound {
        assert ls == ls[..|ls| - 1] + [ls[|ls| - 1]];
        assert Inbound in ls[..|ls| - 1];
      }
    }
  }

  // ---------------------------------------------------------------------
  // Tickets: every promise is settled at most once

  function DataTickets(ls: seq<DataListener>): seq<nat> {
    if ls == [] then []
    else DataTickets(ls[..|ls| - 1]) + (if ls[|ls| - 1].AwaitReply? then [ls[|ls| - 1].ticket] else [])
  }

  function OpenTickets(ls: seq<OpenListener>): seq<nat> {
    if ls == [] then []
    else OpenTickets(ls[..|ls| - 1]) + (if ls[|ls| - 1].ResolveConnect? then [ls[|ls| - 1].ticket] else [])
  }

  function SettledTickets(ss: seq<Settlement>): seq<nat> {
    if ss == [] then [] else SettledTickets(ss[..|ss| - 1]) + [ss[|ss| - 1].ticket]
  }

  /** Every ticket the connection knows, pending or settled. */
  function AllTickets(st: ConnState): seq<nat> {
    DataTickets(st.onData) + OpenTickets(st.onOpen) + SettledTickets(st.settled)
  }

  /** Tickets are issued below the counter and each one lives in exactly one place. */
  ghost predicate WellFormed(st: ConnState) {
    (forall t :: multiset(AllTickets(st))[t] <= 1) &&
    (forall t :: t in multiset(AllTickets(st)) ==> t < st.nextTicket)
  }

  /** A fresh connection: nothing pending, nothing settled. */
  function Fresh(open: bool): (st: ConnState)
    ensures WellFormed(st)
  {
    ConnState(open, [], [], [], [], 0)
  }

  lemma {:induction false} DataTicketsAppend(a: seq<DataListener>, b: seq<DataListener>)
    ensures DataTickets(a + b) == DataTickets(a) + DataTickets(b)
    decreases |b|
  {
    if b == [] {
      assert a + b == a;
    } else {
      assert (a + b)[..|a + b| - 1] == a + b[..|b| - 1];
      DataTicketsAppend(a, b[..|b| - 1]);
    }
  }

  lemma {:induction false} OpenTicketsAppend(a: seq<OpenListener>, b: seq<OpenListener>)
    ensures OpenTickets(a + b) == OpenTickets(a) + OpenTickets(b)
    decreases |b|
  {
    if b == [] {
      assert a + b == a;
    } else {
      assert (a + b)[..|a + b| - 1] == a + b[..|b| - 1];
      OpenTicketsAppend(a, b[..|b| - 1]);
    }
  }

  lemma {:induction false} SettledTicketsAppend(a: seq<Settlement>, b: seq<Settlement>)
    ensures SettledTickets(a + b) == SettledTickets(a) + SettledTickets(b)
    decreases |b|
  {
    if b == [] {
      assert a + b == a;
    } else {
      assert (a + b)[..|a + b| - 1] == a + b[..|b| - 1];
      SettledTicketsAppend(a, b[..|b| - 1]);
    }
  }

  lemma DataTicketsOne(l: DataListener)
    ensures DataTickets([l]) == if l.AwaitReply? then [l.ticket] else []
  {
    assert [l][..0] == [];
  }

  lemma KeptTicketsStep(ls: seq<DataListener>, e: Envelope)
    requires ls != []
    ensures DataTickets(Kept(ls, e)) ==
      DataTickets(Kept(ls[..|ls| - 1], e)) + (if Fires(ls[|ls| - 1], e) then [] else DataTickets([ls[|ls| - 1]]))
  {
    var l := ls[|ls| - 1];
    if !Fires(l, e) {
      DataTicketsAppend(Kept(ls[..|ls| - 1], e), [l]);
    } else {
      assert Kept(ls, e) == Kept(ls[..|ls| - 1], e);
    }
  }

  lemma ResolvedTicketsStep(ls: seq<DataListener>, e: Envelope)
    requires ls != []
    ensures SettledTickets(Resolved(ls, e)) ==
      SettledTickets(Resolved(ls[..|ls| - 1], e)) + (if Fires(ls[|ls| - 1], e) then [ls[|ls| - 1].ticket] else [])
  {
    var l := ls[|ls| - 1];
    if Fires(l, e) {
      SettledTicketsAppend(Resolved(ls[..|ls| - 1], e), [Answered(l.ticket, e.data)]);
      assert SettledTickets([Answered(l.ticket, e.data)]) == [l.ticket];
    } else {
      assert Resolved(ls, e) == Resolved(ls[..|ls| - 1], e);
    }
  }

  lemma DataTicketsStep(ls: seq<DataListener>)
    requires ls != []
    ensures DataTickets(ls) == DataTickets(ls[..|ls| - 1]) + DataTickets([ls[|ls| - 1]])
  {
    DataTicketsOne(ls[|ls| - 1]);
  }

  /** Delivery moves the tickets of the waiters that fire from pending to settled. */
  lemma {:induction false} DeliveryMovesTickets(ls: seq<DataListener>, e: Envelope)
    ensures multiset(DataTickets(Kept(ls, e))) + multiset(SettledTickets(Resolved(ls, e))) == multiset(DataTickets(ls))
  {
    if ls != [] {
      var l := ls[|ls| - 1];
      DeliveryMovesTickets(ls[..|ls| - 1], e);
      KeptTicketsStep(ls, e);
      ResolvedTicketsStep(ls, e);
      DataTicketsStep(ls);
      DataTicketsOne(l);
    }
  }

  /** Opening moves the tickets of `connectToPeer`'s waiters from pending to settled. */
  lemma {:induction false} OpeningMovesTickets(ls: seq<OpenListener>)
    ensures SettledTickets(OpenSettlements(ls)) == OpenTickets(ls)
  {
    if ls != [] {
      var init := ls[..|ls| - 1];
      var l := ls[|ls| - 1];
      OpeningMovesTickets(init);
      if l.ResolveConnect? {
        assert OpenSettlements(ls) == OpenSettlements(init) + [Connected(l.ticket)];
        SettledTicketsAppend(OpenSettlements(init), [Connected(l.ticket)]);
        assert SettledTickets([Connected(l.ticket)]) == [l.ticket];
      } else {
        assert OpenSettlements(ls) == OpenSettlements(init);
        assert OpenTickets(ls) == OpenTickets(init);
      }
    }
  }

  /** Adding one ticket the counter has not issued yet keeps the tickets unique. */
  lemma AddFreshTicket(before: multiset<nat>, after: multiset<nat>, n: nat)
    requires forall t :: before[t] <= 1
    requires forall t :: t in before ==> t < n
    requires after == before + multiset{n}
    ensures forall t :: after[t] <= 1
    ensures forall t :: t in after ==> t < n + 1
  {
    assert n !in before;
  }

  lemma AllTicketsSplit(st: ConnState)
    ensures multiset(AllTickets(st)) ==
      multiset(DataTickets(st.onData)) + multiset(OpenTickets(st.onOpen)) + multiset(SettledTickets(st.settled))
  {
  }

  /** Sending issues exactly one new ticket, the counter's current value. */
  lemma SendRequestTickets(st: ConnState, id: string, data: Value)
    ensures multiset(AllTickets(SendRequest(st, id, data))) == multiset(AllTickets(st)) + multiset{st.nextTicket}
  {
    var r := SendRequest(st, id, data);
    assert DataTickets(r.onData) == DataTickets(st.onData) + [st.nextTicket] by {
      DataTicketsAppend(st.onData, [AwaitReply(st.nextTicket, id)]);
      DataTicketsOne(AwaitReply(st.nextTicket, id));
    }
    assert OpenTickets(r.onOpen) == OpenTickets(st.onOpen) by {
      if !st.open {
        OpenTicketsAppend(st.onOpen, [SendDeferred(Request(id, data))]);
        assert OpenTickets([SendDeferred(Request(id, data))]) == [] by {
          assert [SendDeferred(Request(id, data))][..0] == [];
        }
      }
    }
    AllTicketsSplit(st);
    AllTicketsSplit(r);
  }

  lemma SendRequestKeepsWellFormed(st: ConnState, id: string, data: Value)
    requires WellFormed(st)
    ensures WellFormed(SendRequest(st, id, data))
  {
    SendRequestTickets(st, id, data);
    AddFreshTicket(multiset(AllTickets(st)), multiset(AllTickets(SendRequest(st, id, data))), st.nextTicket);
  }

  lemma AwaitOpenKeepsWellFormed(st: ConnState)
    requires WellFormed(st)
    ensures WellFormed(AwaitOpen(st))
  {
    var r := AwaitOpen(st);
    OpenTicketsAppend(st.onOpen, [ResolveConnect(st.nextTicket)]);
    assert OpenTickets([ResolveConnect(st.nextTicket)]) == [st.nextTicket] by {
      assert [ResolveConnect(st.nextTicket)][..0] == [];
    }
    assert multiset(AllTickets(r)) == multiset(AllTickets(st)) + multiset{st.nextTicket};
    AddFreshTicket(multiset(AllTickets(st)), multiset(AllTickets(r)), st.nextTicket);
  }

  lemma OpenedKeepsWellFormed(st: ConnState)
    requires WellFormed(st)
    ensures WellFormed(Opened(st))
  {
    OpeningMovesTickets(st.onOpen);
    SettledTicketsAppend(st.settled, OpenSettlements(st.onOpen));
    assert OpenTickets([]) == [];
    assert multiset(AllTickets(Opened(st))) == multiset(AllTickets(st));
  }

  lemma DeliveredKeepsWellFormed(st: ConnState, e: Envelope, handler: Option<Value -> Value>)
    requires WellFormed(st)
    ensures WellFormed(Delivered(st, e, handler))
  {
    DeliveryMovesTickets(st.onData, e);
    SettledTicketsAppend(st.settled, Resolved(st.onData, e));
    assert multiset(AllTickets(Delivered(st, e, handler))) == multiset(AllTickets(st));
  }

  /** In a well-formed connection every promise has been settled at most once,
      and a settled promise no longer has a waiter. */
  lemma AtMostOnce(st: ConnState, t: nat)
    requires WellFormed(st)
    ensures multiset(SettledTickets(st.settled))[t] <= 1
    ensures t in SettledTickets(st.settled) ==> t !in DataTickets(st.onData)
  {
    assert multiset(AllTickets(st))[t] <= 1;
    assert multiset(AllTickets(st))[t] ==
      multiset(DataTickets(st.onData))[t] + multiset(OpenTickets(st.onOpen))[t] + multiset(SettledTickets(st.settled))[t];
  }

  // ---------------------------------------------------------------------
  // What a promise settled with

  /** The value the request with ticket `t` was answered with, if any. */
  function Answer(ss: seq<Settlement>, t: nat): (r: Option<Value>)
    ensures r.Some? ==> Answered(t, r.value) in ss
    ensures r.None? ==> forall v :: Answered(t, v) !in ss
  {
    if ss == [] then None
    else if ss[0].Answered? && ss[0].ticket == t then Some(ss[0].value)
    else Answer(ss[1..], t)
  }

  lemma {:induction false} AnswerAppend(a: seq<Settlement>, b: seq<Settlement>, t: nat)
    requires forall v :: Answered(t, v) !in a
    ensures Answer(a + b, t) == Answer(b, t)
  {
    if a != [] {
      assert a[0] in a;
      assert a[0].Answered? ==> Answered(t, a[0].value) !in a;
      assert (a + b)[0] == a[0];
      assert (a + b)[1..] == a[1..] + b;
      assert forall x :: x in a[1..] ==> x in a;
      AnswerAppend(a[1..], b, t);
    } else {
      assert a + b == b;
    }
  }

  lemma {:induction false} TicketOfSettlement(ss: seq<Settlement>, s: Settlement)
    requires s in ss
    ensures s.ticket in SettledTickets(ss)
  {
    var init := ss[..|ss| - 1];
    if s != ss[|ss| - 1] {
      assert ss == init + [ss[|ss| - 1]];
      TicketOfSettlement(init, s);
    }
  }

  lemma {:induction false} TicketOfWaiter(ls: seq<DataListener>, t: nat, id: string)
    requires AwaitReply(t, id) in ls
    ensures t in DataTickets(ls)
  {
    var init := ls[..|ls| - 1];
    if ls[|ls| - 1] != AwaitReply(t, id) {
      assert ls == init + [ls[|ls| - 1]];
      TicketOfWaiter(init, t, id);
    }
  }

  /** Every ticket in use was issued by the counter. */
  lemma TicketsBelowCounter(st: ConnState)
    requires WellFormed(st)
    ensures forall s :: s in st.settled ==> s.ticket < st.nextTicket
    ensures forall t: nat, id: string :: AwaitReply(t, id) in st.onData ==> t < st.nextTicket
  {
    AllTicketsSplit(st);
    forall s | s in st.settled ensures s.ticket < st.nextTicket {
      TicketOfSettlement(st.settled, s);
      assert s.ticket in multiset(SettledTickets(st.settled));
      assert s.ticket in multiset(AllTickets(st));
    }
    forall t: nat, id: string | AwaitReply(t, id) in st.onData ensures t < st.nextTicket {
      TicketOfWaiter(st.onData, t, id);
      assert t in multiset(DataTickets(st.onData));
      assert t in multiset(AllTickets(st));
    }
  }

  /** Two waiters for different request ids under one ticket count that ticket twice. */
  lemma {:induction false} SharedTicketCounted(ls: seq<DataListener>, t: nat, id1: string, id2: string)
    ensures AwaitReply(t, id1) in ls && AwaitReply(t, id2) in ls && id1 != id2 ==>
      multiset(DataTickets(ls))[t] >= 2
  {
    if AwaitReply(t, id1) in ls && AwaitReply(t, id2) in ls && id1 != id2 {
      var init := ls[..|ls| - 1];
      var l := ls[|ls| - 1];
      assert ls == init + [l];
      assert multiset(DataTickets(ls)) ==
        multiset(DataTickets(init)) + multiset(if l.AwaitReply? then [l.ticket] else []);
      if l == AwaitReply(t, id1) {
        assert AwaitReply(t, id2) in init;
        TicketOfWaiter(init, t, id2);
        assert t in multiset(DataTickets(init));
      } else if l == AwaitReply(t, id2) {
        assert AwaitReply(t, id1) in init;
        TicketOfWaiter(init, t, id1);
        assert t in multiset(DataTickets(init));
      } else {
        assert AwaitReply(t, id1) in init && AwaitReply(t, id2) in init;
        SharedTicketCounted(init, t, id1, id2);
      }
    }
  }

  /** A settlement's ticket is listed among the settled tickets, so a ticket
      absent from that list has no answer recorded. */
  lemma NoAnswerWithoutTicket(ss: seq<Settlement>, t: nat)
    ensures t !in SettledTickets(ss) ==> forall v :: Answered(t, v) !in ss
  {
    forall v | Answered(t, v) in ss ensures t in SettledTickets(ss) {
      TicketOfSettlement(ss, Answered(t, v));
    }
  }

  /** A request still waiting on a well-formed connection, however many
      envelopes came before, is answered by the next envelope that replies
      to its id, with that envelope's data; any other envelope leaves it
      unanswered and still waiting. */
  lemma WaiterAnsweredByReply(st: ConnState, t: nat, id: string, e: Envelope, handler: Option<Value -> Value>)
    requires WellFormed(st) && AwaitReply(t, id) in st.onData
    ensures var after := Delivered(st, e, handler);
      Answers(e, id) ==> Answer(after.settled, t) == Some(e.data)
    ensures var after := Delivered(st, e, handler);
      !Answers(e, id) ==> Answer(after.settled, t).None? && AwaitReply(t, id) in after.onData
  {
    var newly := Resolved(st.onData, e);
    NoAnswerWithoutTicket(st.settled, t);
    TicketOfWaiter(st.onData, t, id);
    AtMostOnce(st, t);
    AnswerAppend(st.settled, newly, t);
    ResolvedOnlyMatching(st.onData, e);
    if Answers(e, id) {
      FiredIsResolved(st.onData, e, t, id);
      assert Answer(newly, t).Some?;
    } else {
      KeptIsUnfired(st.onData, e);
      AllTicketsSplit(st);
      assert multiset(DataTickets(st.onData))[t] <= 1 by {
        assert multiset(AllTickets(st))[t] <= 1;
      }
      forall s | s in newly ensures s.ticket != t {
        SharedTicketCounted(st.onData, t, id, e.metadata.replyTo.value);
      }
    }
  }

  /** In particular, a request just sent is answered by the first delivered
      envelope that replies to its id. */
  lemma ReplyResolvesRequest(st: ConnState, id: string, data: Value, e: Envelope, handler: Option<Value -> Value>)
    requires WellFormed(st)
    ensures var after := Delivered(SendRequest(st, id, data), e, handler);
      Answers(e, id) ==> Answer(after.settled, st.nextTicket) == Some(e.data)
    ensures var after := Delivered(SendRequest(st, id, data), e, handler);
      !Answers(e, id) ==>
        Answer(after.settled, st.nextTicket).None? && AwaitReply(st.nextTicket, id) in after.onData
  {
    SendRequestKeepsWellFormed(st, id, data);
    assert AwaitReply(st.nextTicket, id) in SendRequest(st, id, data).onData;
    WaiterAnsweredByReply(SendRequest(st, id, data), st.nextTicket, id, e, handler);
  }

  /** Once answered, a request's answer never changes: its waiter is gone. */
  lemma AnsweredStaysAnswered(st: ConnState, t: nat, e: Envelope, handler: Option<Value -> Value>)
    requires WellFormed(st) && Answer(st.settled, t).Some?
    ensures Answer(Delivered(st, e, handler).settled, t) == Answer(st.settled, t)
  {
    AnswerPrefix(st.settled, Resolved(st.onData, e), t);
  }

  lemma {:induction false} AnswerPrefix(a: seq<Settlement>, b: seq<Settlement>, t: nat)
    requires Answer(a, t).Some?
    ensures Answer(a + b, t) == Answer(a, t)
  {
    if !(a[0].Answered? && a[0].ticket == t) {
      assert (a + b)[1..] == a[1..] + b;
      AnswerPrefix(a[1..], b, t);
    }
  }

  // ---------------------------------------------------------------------
  // The connection object

  class Connection {
    /** The remote peer's id. */
    const peer: string
    var open: bool
    var sent: seq<Envelope>
    var onOpen: seq<OpenListener>
    var onData: seq<DataListener>
    var settled: seq<Settlement>
    var nextTicket: nat

    constructor (peer: string, open: bool)
      ensures this.peer == peer && State() == Fresh(open)
    {
      this.peer := peer;
      this.open := open;
      sent := [];
      onOpen := [];
      onData := [];
      settled := [];
      nextTicket := 0;
    }

    function State(): ConnState
      reads this
    {
      ConnState(open, sent, onOpen, onData, settled, nextTicket)
    }

    /** `connection.send(envelope)`. */
    method Transmit(e: Envelope)
      modifies this
      ensures State() == old(State()).(sent := old(sent) + [e])
    {
      sent := sent + [e];
    }

    /** `connection.on('data', listener)`. */
    method AddDataListener(l: DataListener)
      modifies this
      ensures State() == old(State()).(onData := old(onData) + [l])
    {
      onData := onData + [l];
    }

    /** `connection.once('open', listener)`. */
    method AddOpenListener(l: OpenListener)
      modifies this
      ensures State() == old(State()).(onOpen := old(onOpen) + [l])
    {
      onOpen := onOpen + [l];
    }

    /** A fresh identity for a promise created on this connection. */
    method IssueTicket() returns (t: nat)
      modifies this
      ensures t == old(nextTicket)
      ensures State() == old(State()).(nextTicket := old(nextTicket) + 1)
    {
      t := nextTicket;
      nextTicket := nextTicket + 1;
    }

    /** The connection opens; its `once('open')` listeners run in order and are dropped. */
    method Open()
      modifies this
      ensures State() == Opened(old(State()))
    {
      open := true;
      var pending := onOpen;
      onOpen := [];
      var i := 0;
      while i < |pending|
        invariant 0 <= i <= |pending|
        invariant sent == old(sent) + DeferredSends(pending[..i])
        invariant settled == old(settled) + OpenSettlements(pending[..i])
        invariant open && onOpen == [] && onData == old(onData) && nextTicket == old(nextTicket)
      {
        assert pending[..i + 1][..i] == pending[..i];
        match pending[i] {
          case SendDeferred(env) => sent := sent + [env];
          case ResolveConnect(t) => settled := settled + [Connected(t)];
        }
        i := i + 1;
      }
      assert pending[..|pending|] == pending;
    }

    /** An envelope arrives. `handler` is the current phase's `onPeerMessage`,
        if it has one. The listeners installed at this moment run in order;
        a waiter that fires resolves its promise and removes itself. */
    method Deliver(e: Envelope, handler: Option<Value -> Value>)
      modifies this
      ensures State() == Delivered(old(State()), e, handler)
    {
      var snapshot := onData;
      var replies: seq<Envelope> := [];
      var answers: seq<Settlement> := [];
      var kept: seq<DataListener> := [];
      var i := 0;
      while i < |snapshot|
        invariant 0 <= i <= |snapshot|
        invariant replies == Replies(snapshot[..i], e, handler)
        invariant answers == Resolved(snapshot[..i], e)
        invariant kept == Kept(snapshot[..i], e)
      {
        assert snapshot[..i + 1][..i] == snapshot[..i];
        var l := snapshot[i];
        match l {
          case Inbound =>
            if e.metadata.kind == UserRequest && handler.Some? {
              replies := replies + [Reply(e.metadata.id, handler.value(e.data))];
            }
            kept := kept + [l];
          case AwaitReply(t, requestId) =>
            if e.metadata.kind == LudumjsRequest && e.metadata.replyTo == Some(requestId) {
              answers := answers + [Answered(t, e.data)];
            } else {
              kept := kept + [l];
            }
        }
        i := i + 1;
      }
      assert snapshot[..|snapshot|] == snapshot;
      sent := sent + replies;
      settled := settled + answers;
      onData := kept;
    }
  }
}
