# ludumjs phase machine, socket bookkeeping and peer correlation in Dafny

ludumjs is a small toolkit for browser games. A game is a registry of
*phases*: it moves from one phase to another by ending the current phase
and starting the next one. A phase marks the game's root DOM container with
its CSS class while it runs, and can veto its own start (and in one version
its end) by settling its hook on `false`. Around that core sit several
pieces:

- a peer-to-peer game that correlates requests and replies over PeerJS data
  connections;
- a socket.io server game that tracks the sockets of joined players and
  tears them down when the game ends;
- decorators that bind `@socketEvent` methods as socket listeners and
  record them so they can be removed;
- a mixin helper, a monotonic unique-id generator, a serialisable player
  record, and array helpers (a Fisher–Yates shuffle and a 1-D to 2-D index
  conversion).

This project models each of those pieces in Dafny and proves the behaviour
the code promises. The files are:

- `phase_registry.dfy` (`PhaseRegistry`): the three historical registries
  `lib/Game.ts`, `src/common/lib/Game.ts` and `src/Game.js`. They live in
  one class, parameterised by a `Variant`. Each result is tied to pure step
  functions, and the per-version differences are proved as lemmas.
- `dom.dfy` (`Dom`): the container as a set of class names and a set of
  attached listeners.
- `action_phase.dfy` (`ActionPhase`): `lib/Phase.ts`. It has optional
  hooks, vetoes on both start and end, a listener that exists only with
  `onAction`, and a marked-ancestor walk.
- `kebab_phase.dfy` (`KebabPhase`): `src/Phase.js` and its typed twin
  `src/client/lib/Phase.ts`. They share the kebab-case class name, a veto on
  start only, and an unconditional end.
- `common_phase.dfy` (`CommonPhase`): `src/common/lib/Phase.ts`. It
  defaults missing hooks and delegates to them.
- `peer_connection.dfy` (`PeerConnection`) and `peer_game.dfy`
  (`PeerGame`): `PeerGame.ts`.
  - A connection is a class whose state records its sent envelopes, its
    `once('open')` listeners, its `data` listeners and the promises it has
    settled.
  - The transport is modelled as explicit `Open` and `Deliver` events.
  - Each promise is identified by a ticket drawn from a per-connection
    counter.
- `socket_listeners.dfy` (`SocketListeners`):
  `src/common/lib/decorators/withSocketListeners.ts` and the older mixin
  `src/common/lib/withSocketListeners.ts`.
  - Sockets are a class.
  - The classes' static tables live in a class `Statics`, keyed by class
    identity.
  - The prototype chain of constructors is a sequence of class identities.
- `server_game.dfy` (`ServerGame`): `src/server/lib/Game.ts`. Its
  callbacks and emissions form a log of effects.
- `player.dfy` (`Player`), `uniq_id.dfy` (`UniqId`), `mixins.dfy`
  (`Mixins`) and `arrays.dfy` (`Arrays`): the remaining helpers.
- `js_values.dfy` (`JsValues`) and `wrappers.dfy` (`Wrappers`): JavaScript
  values, recorded hook calls, and the `Option`/`Outcome` results.

Inputs that come from outside the program become parameters:
- the current time;
- the random draw the shuffle makes;
- the request ids PeerGame draws at random;
- the results of user hooks.

A JavaScript `assert` that throws is modelled as an error result
(`GameError`), not as a precondition.

Two behaviours of the code are worth stating outright:
- **Unknown phase name.** Only `lib/Game.ts` checks for an unknown phase
  name. `src/common/lib/Game.ts` and `src/Game.js` end the current phase,
  set it to `undefined`, then throw on `undefined.start`.
- **End of a server game.** The server `Game` holds no players and no
  capacity; `end` clears its socket list.

## Model

| member | source | states |
|---|---|---|
| PhaseRegistry.Game.constructor | lib/Game.ts:14-16 | a new game has no phases, no current phase and no recorded calls; the same holds for src/common/lib/Game.ts:12-15 and src/Game.js:5-9 |
| PhaseRegistry.Register | lib/Game.ts:28-43 | a class that passes the checks is appended at the end; otherwise the list is unchanged |
| PhaseRegistry.RegisterCheck | lib/Game.ts:29-35 | a class that does not extend Phase fails as NotAPhase first; a pass means a Phase subclass whose name is not yet registered (with a non-empty instance name in the common version); every failure is one of the three checks; conversely a class that passes them all is accepted, whether or not it has `getClassName` (the corrected registration) |
| PhaseRegistry.RegisterCheckAsWritten | lib/Game.ts:28-37 | the typed registerPhase as written: whatever the three assertions reject is rejected the same way; when they all pass, it still fails, exactly for a class without `getClassName` |
| PhaseRegistry.PlainTypedPhaseRefused | lib/Game.ts:37 | a plain lib/Phase.ts subclass passes every assertion, yet the call to `getClassName` refuses it |
| PhaseRegistry.Game.RegisterPhase | lib/Game.ts:28-43 | returns the first failing check (not a Phase, duplicate constructor name), appends only on success, keeps names distinct and leaves the current phase alone; the common version (src/common/lib/Game.ts:22-35) also rejects a missing or empty instance `name` and compares instance names, the legacy one (src/Game.js:15-25) compares constructor names |
| PhaseRegistry.RegisterKeepsDistinct | lib/Game.ts:33-35 | registration never makes two registered names equal |
| PhaseRegistry.DuplicateRejected | src/common/lib/Game.ts:28-30 | a phase whose name is already registered fails with AlreadyRegistered and leaves the list as it was |
| PhaseRegistry.RegisteredIsFound | lib/Game.ts:40-52 | after a successful registration, lookup under the new name finds exactly the new phase |
| PhaseRegistry.Game.RegisterPhases | lib/Game.ts:45-48 | registers the classes in order and stops at the first failure, keeping what it registered |
| PhaseRegistry.Accepted | lib/Game.ts:45-48 | counts the classes registered before the first failure; at most the number of classes |
| PhaseRegistry.RegisterAll | lib/Game.ts:45-48 | the old list is kept as a prefix and at most one phase is added per class; success means every class was added, failure that at least one was not |
| PhaseRegistry.RegisterAllInOrder | lib/Game.ts:45-48 | the resulting list is the old list followed by the accepted classes' instances, in list order |
| PhaseRegistry.RegisterAllFailsAtFirstRejected | src/common/lib/Game.ts:37-40 | registerPhases fails exactly when it stops short, with the failing check of the first rejected class |
| PhaseRegistry.RegisterAllKeepsDistinct | src/Game.js:27-29 | registerPhases keeps the names pairwise distinct |
| PhaseRegistry.FindByName | lib/Game.ts:50-52 | returns nothing if and only if no phase has the name; otherwise the first phase with that name (src/common/lib/Game.ts:42-44 matches instance names) |
| PhaseRegistry.FoundIsUnique | src/Game.js:31-33 | with distinct names, the phase found is the only one carrying the name |
| PhaseRegistry.GoTo | lib/Game.ts:54-61 | the target becomes current and the phases are untouched; the earlier calls are kept, at most an end and a start are added; it passes exactly when the target is defined |
| PhaseRegistry.Game.GoToPhase | lib/Game.ts:54-61 | records end of the current phase (if any), then start of the target with the data; the target becomes current; an undefined target throws after the current phase is replaced |
| PhaseRegistry.GoToOrder | src/common/lib/Game.ts:46-53 | end comes before start, the data is forwarded, the target is current and the phases are untouched |
| PhaseRegistry.Game.GoToPhaseByName | lib/Game.ts:63-67 | equals the by-name step function of each version |
| PhaseRegistry.GoToByName | lib/Game.ts:63-67 | the phases are untouched; it passes exactly when the name is registered, and then the phase found is current |
| PhaseRegistry.TypedUnknownNameNoEffect | lib/Game.ts:63-66 | in the typed version an unknown name fails before any end or start and changes nothing |
| PhaseRegistry.UncheckedUnknownName | src/common/lib/Game.ts:55-57 | in the unchecked versions an unknown name still ends the current phase, leaves no current phase, and then throws; the legacy version (src/Game.js:44-46) does the same |
| PhaseRegistry.GoToKnownName | src/Game.js:44-46 | a registered name goes to the phase registered under it, in every version |
| PhaseRegistry.Game.Start | lib/Game.ts:69-72 | goes to the first registered phase |
| PhaseRegistry.StartGame | lib/Game.ts:69-72 | the first registered phase, if any, becomes current; it passes exactly when a phase is registered; the phases are untouched |
| PhaseRegistry.StartGoesToFirst | src/common/lib/Game.ts:17-20 | start goes to phases[0], forwarding data only in the typed version; with no phases it throws after ending the current phase; the legacy start (src/Game.js:11-13) forwards no data |
| Dom.Decorate | lib/Phase.ts:68-72 | the class and listeners are present afterwards, and nothing else changes |
| Dom.Undecorate | lib/Phase.ts:84-88 | the class and listeners are absent afterwards, and nothing else changes |
| Dom.UndecorateUndoesDecorate | lib/Phase.ts:68-88 | removing what was added restores a container that had none of it |
| Dom.Container.AddEventListener | lib/Phase.ts:69 | adds the listener and keeps the classes |
| Dom.Container.RemoveEventListener | lib/Phase.ts:85 | removes the listener and keeps the classes |
| Dom.Container.AddClass | lib/Phase.ts:72 | adds the class and keeps the listeners |
| Dom.Container.RemoveClass | lib/Phase.ts:88 | removes the class and keeps the listeners |
| ActionPhase.FirstMarked | lib/Phase.ts:19-27 | the index of the first marked node on the path: every earlier node is unmarked, and the node found is marked |
| ActionPhase.FirstElementWithAction | lib/Phase.ts:12-28 | null target or no marked node gives null; otherwise the nearest marked node, starting at the target itself |
| ActionPhase.Phase.OnActionHandler | lib/Phase.ts:45-57 | ignored exactly when no node is marked; otherwise onAction receives the marker value, the event and the marked node |
| ActionPhase.StartResult | lib/Phase.ts:60-61 | a result exists exactly when onStart is defined |
| ActionPhase.EndResult | lib/Phase.ts:76-77 | a result exists exactly when onEnd is defined |
| ActionPhase.Phase.Listeners | lib/Phase.ts:68-70 | the phase's handler is attached when, and only when, it has onAction |
| ActionPhase.Phase.Start | lib/Phase.ts:59-73 | a `false` from onStart leaves the container unchanged; otherwise the class is added, plus the handler if onAction exists |
| ActionPhase.Phase.End | lib/Phase.ts:75-89 | a `false` from onEnd vetoes; otherwise the handler (if onAction) and the class are removed |
| ActionPhase.VetoedStartChangesNothing | lib/Phase.ts:63-65 | a vetoed start changes nothing |
| ActionPhase.StartProceedsUnlessFalse | lib/Phase.ts:60-72 | a missing hook or any result other than `false` lets the start through |
| ActionPhase.VetoedEndChangesNothing | lib/Phase.ts:79-81 | a vetoed end changes nothing |
| ActionPhase.EndProceedsUnlessFalse | lib/Phase.ts:76-88 | any other result lets the end through |
| ActionPhase.StartThenEndRestores | lib/Phase.ts:68-88 | with no veto on either side and no marks beforehand, start then end restores the container |
| ActionPhase.Phase.constructor | lib/Phase.ts:41-43 | stores the container, the class name and the hooks |
| KebabPhase.Lower | src/Phase.js:13 | lowercases A-Z and leaves every other character alone |
| KebabPhase.LowerAll | src/Phase.js:13 | lowercases each character, in place |
| KebabPhase.UpperRun | src/Phase.js:13 | the length of the maximal run of capitals at the front |
| KebabPhase.Hyphenate | src/Phase.js:13 | the first `replace`: never shortens the text; characterised further by HyphenateHasNoUpper, HyphenateCapital, HyphenateDotCapital, HyphenateWords and the other Hyphenate lemmas |
| KebabPhase.ClassName | src/Phase.js:11-15 | getClassName: the hyphenated name less at most one character; characterised further by ClassNameHasNoUpper, ClassNameOfCamelCase and ClassNameStripsOneHyphen |
| KebabPhase.HyphenateHasNoUpper | src/client/lib/Phase.ts:26 | the rewrite leaves no capital letter |
| KebabPhase.ClassNameHasNoUpper | src/client/lib/Phase.ts:24-28 | getClassName never contains a capital letter |
| KebabPhase.HyphenateKeepsLowercase | src/Phase.js:13 | text without capitals passes through the first rewrite unchanged |
| KebabPhase.ClassNameOfLowercase | src/Phase.js:11-15 | a name without capitals comes back unchanged, less one leading hyphen |
| KebabPhase.HyphenateCapital | src/Phase.js:13 | a lone capital becomes a hyphen and its lower-case letter |
| KebabPhase.HyphenateDotCapital | src/Phase.js:13 | a dot before a capital run is swallowed into the hyphen |
| KebabPhase.HyphenatePlainPrefix | src/Phase.js:13 | lower-case text without dots is left as it is |
| KebabPhase.HyphenateWord | src/Phase.js:13 | a capitalised word becomes a hyphen and the lower-cased word |
| KebabPhase.KebabWords | src/Phase.js:13 | the kebab form of a word list starts with a hyphen |
| KebabPhase.HyphenateWords | src/Phase.js:13 | a CamelCase name made of capitalised words becomes each word hyphenated and lower-cased |
| KebabPhase.ClassNameOfCamelCase | src/client/lib/Phase.ts:24-28 | getClassName of a CamelCase name is its words in kebab case, with no leading hyphen |
| KebabPhase.ExampleWords | src/client/lib/__tests__/Phase.ts:22-27 | "MyAwesomeTestPhase" is made of the words My, Awesome, Test and Phase |
| KebabPhase.ExampleKebab | src/client/lib/__tests__/Phase.ts:22-27 | those words in kebab form |
| KebabPhase.ClassNameExample | src/client/lib/__tests__/Phase.ts:22-27 | getClassName of MyAwesomeTestPhase is my-awesome-test-phase |
| KebabPhase.HyphenateLeadingHyphen | src/Phase.js:13 | "-Foo" becomes "--foo" after the first rewrite |
| KebabPhase.ClassNameStripsOneHyphen | src/client/lib/Phase.ts:27 | only one leading hyphen is removed |
| KebabPhase.ClassNameSwallowsDot | src/Phase.js:13-14 | "A.B" becomes "a-b" |
| KebabPhase.DefaultOnStart | src/Phase.js:20 | the default onStart never vetoes |
| KebabPhase.DefaultOnEnd | src/Phase.js:22 | the default onEnd returns a non-false value |
| KebabPhase.Phase.constructor | src/Phase.js:6-9 | the click handler is bound once and stored |
| KebabPhase.Phase.GetClassName | src/client/lib/Phase.ts:24-28 | the kebab class name, with no capitals |
| KebabPhase.Phase.Start | src/Phase.js:24-31 | onStart is always called; `false` leaves the container unchanged; otherwise the bound handler and the kebab class are added; the typed twin (src/client/lib/Phase.ts:37-44) is the same |
| KebabPhase.Phase.End | src/Phase.js:33-37 | onEnd is called, and the handler and class are removed whatever it returns; the typed twin (src/client/lib/Phase.ts:46-50) is the same |
| KebabPhase.StartThenEndRestores | src/Phase.js:8-36 | the handler bound once is the one removed, so start then end restores a container that had neither mark |
| CommonPhase.NewPhase | src/common/lib/Phase.ts:17-22 | stores the game unchanged, keeps declared hooks and defaults missing ones to no-ops that return undefined |
| CommonPhase.Start | src/common/lib/Phase.ts:24-26 | calls onStart once with the same arguments and returns its result |
| CommonPhase.End | src/common/lib/Phase.ts:28-30 | calls onEnd exactly once and returns undefined |
| CommonPhase.StartForwardsDeclaredHook | src/common/lib/Phase.ts:20-26 | a declared onStart sees exactly start's arguments, and its value comes back unchanged |
| CommonPhase.DefaultStartNeverVetoes | src/common/lib/Phase.ts:20 | without onStart, start returns undefined, which never vetoes |
| CommonPhase.EndCallsOnEndOnce | src/common/lib/Phase.ts:21-30 | end makes exactly one onEnd call, whether the hook was declared or defaulted |
| PeerConnection.Request | PeerGame.ts:146-153 | a user_request envelope with the caller's id, no replyTo, and the caller's data |
| PeerConnection.Reply | PeerGame.ts:135-144 | a ludumjs_request envelope whose replyTo is the request id, with no id and with the value as data |
| PeerConnection.ReplyCorrelation | PeerGame.ts:135-165 | a reply answers exactly the request whose id it carries; a request answers nothing |
| PeerConnection.SendRequest | PeerGame.ts:155-174 | transmits at once when open, otherwise defers to the open event; either way installs one reply waiter under a fresh ticket |
| PeerConnection.AwaitOpen | PeerGame.ts:128-132 | connectToPeer waits for open under a fresh ticket, and nothing else changes |
| PeerConnection.SendWhenOpen | PeerGame.ts:155-156 | a request on an open connection goes out at once and is never deferred |
| PeerConnection.SendBeforeOpen | PeerGame.ts:157-161 | a request sent before open goes out exactly once, when the connection opens |
| PeerConnection.OpenRunsListenersOnce | PeerGame.ts:158-160 | a second open event transmits and settles nothing more |
| PeerConnection.DeferredInOrder | PeerGame.ts:157-161 | requests deferred before open go out in the order they were sent |
| PeerConnection.Opened | PeerGame.ts:128-132 | the connection is open with no open listener left; earlier sends and settlements are kept, and every open listener either sent its request or settled its connect promise, no more |
| PeerConnection.OpenListenersSplit | PeerGame.ts:128-132 | each once-open listener is either a deferred send or a connect promise |
| PeerConnection.InboundReply | PeerGame.ts:83-89 | exactly one reply to a user_request when the current phase has onPeerMessage, and none otherwise |
| PeerConnection.RepliesOnlyToUserRequests | PeerGame.ts:83-89 | addConnection's listener answers on the same connection, with the handler's value and the request's id, only user_requests and only when a handler exists |
| PeerConnection.KeptIsUnfired | PeerGame.ts:163-174 | the waiters left are exactly those that did not match, in order |
| PeerConnection.ResolvedOnlyMatching | PeerGame.ts:165-170 | every settlement made on an envelope answers a waiter whose id the envelope replies to, with the envelope's data |
| PeerConnection.FiredIsResolved | PeerGame.ts:165-170 | a waiter that matches is settled with the envelope's data |
| PeerConnection.UnmatchedChangesNothing | PeerGame.ts:164-171 | an envelope that answers no pending request keeps every waiter and settles nothing |
| PeerConnection.Delivered | PeerGame.ts:163-174 | openness, open listeners and the counter are unchanged; earlier sends and settlements are kept; each data listener present either stays installed or settles its promise |
| PeerConnection.Fresh | PeerGame.ts:120-126 | a new connection has nothing pending, nothing settled and its counter at zero |
| PeerConnection.SendRequestKeepsWellFormed | PeerGame.ts:146-176 | sending keeps every ticket unique and below the counter |
| PeerConnection.AwaitOpenKeepsWellFormed | PeerGame.ts:128-132 | waiting for open keeps tickets unique |
| PeerConnection.OpenedKeepsWellFormed | PeerGame.ts:158-160 | opening keeps tickets unique |
| PeerConnection.DeliveredKeepsWellFormed | PeerGame.ts:163-174 | delivery keeps tickets unique |
| PeerConnection.AtMostOnce | PeerGame.ts:166-170 | in a well-formed connection each promise is settled at most once, and a settled promise has no waiter left |
| PeerConnection.Answer | PeerGame.ts:166-169 | the value a ticket was answered with, present exactly when such a settlement exists |
| PeerConnection.TicketsBelowCounter | PeerGame.ts:146-176 | every ticket in use was issued by the counter |
| PeerConnection.WaiterAnsweredByReply | PeerGame.ts:163-175 | on a well-formed connection, a request whose waiter is still installed, after any history, is answered by the next envelope that replies to its id, with that envelope's data; any other envelope leaves it unanswered and its waiter installed |
| PeerConnection.ReplyResolvesRequest | PeerGame.ts:146-175 | the case right after sending: the new request's ticket is answered by the first reply carrying its id, with that reply's data; any other envelope leaves it unanswered and waiting |
| PeerConnection.AnsweredStaysAnswered | PeerGame.ts:170 | once answered, a request's answer never changes |
| PeerConnection.Connection.constructor | PeerGame.ts:120-124 | a connection to the given peer in its fresh state |
| PeerConnection.Connection.Transmit | PeerGame.ts:143 | appends the envelope to what was sent |
| PeerConnection.Connection.AddDataListener | PeerGame.ts:174 | appends a data listener |
| PeerConnection.Connection.AddOpenListener | PeerGame.ts:158 | appends a once-open listener |
| PeerConnection.Connection.IssueTicket | PeerGame.ts:163 | returns the counter's value and advances it |
| PeerConnection.Connection.Open | PeerGame.ts:129-131 | the state becomes the opened state: deferred sends go out and connect promises settle, in registration order |
| PeerConnection.Connection.Deliver | PeerGame.ts:83-89 | the state becomes the delivered state: the listeners present run in order and matching waiters remove themselves |
| PeerGame.Without | PeerGame.ts:91-93 | the list without the closed connection, others kept |
| PeerGame.CloseKeepsOthersInOrder | PeerGame.ts:91-93 | closing a connection listed once removes exactly it and keeps the others in order |
| PeerGame.WithPeer | PeerGame.ts:188-190 | the connections whose peer equals the id, in list order |
| PeerGame.WithPeerAppend | PeerGame.ts:189 | the peer filter distributes over concatenation |
| PeerGame.IdsForCount | PeerGame.ts:178-182 | a fan-out sends on a connection once per occurrence of it in the list |
| PeerGame.SendAllTickets | PeerGame.ts:178-182 | n requests on one connection take n consecutive tickets |
| PeerGame.SendAllKeepsWellFormed | PeerGame.ts:178-182 | a fan-out keeps each connection's tickets unique |
| PeerGame.IdsForListedOnce | PeerGame.ts:178-182 | a connection listed once receives exactly its own request |
| PeerGame.FanOutTicketsDistinct | PeerGame.ts:178-182 | two requests of one fan-out on the same connection get different tickets |
| PeerGame.FanOutTicketsBelowCounter | PeerGame.ts:178-182 | every ticket handed out by a fan-out is below the connection's new counter |
| PeerGame.Response | PeerGame.ts:166-169 | a pending request's response is its connection and the value it was answered with |
| PeerGame.AllResponses | PeerGame.ts:179-181 | Promise.all: every response in request order once all are answered, each tagged with its own connection |
| PeerGame.Game.constructor | PeerGame.ts:76-77 | a new game has no connections |
| PeerGame.Game.AddConnection | PeerGame.ts:80-89 | appends the connection and installs the inbound data listener |
| PeerGame.Game.OnClose | PeerGame.ts:91-93 | the close listener filters the connection out |
| PeerGame.Game.ConnectToPeer | PeerGame.ts:120-133 | given the connection to `peerId`, registers it like an incoming one, so it is last among that peer's connections, and waits for it to open under a fresh ticket |
| PeerGame.Game.FirstConnection | PeerGame.ts:96-98 | the connection getter is connections[0], absent exactly when the list is empty |
| PeerGame.Game.ReplyToConnection | PeerGame.ts:135-144 | sends the reply envelope on that connection |
| PeerGame.Game.SendToConnection | PeerGame.ts:146-176 | the connection's new state is the send step; the promise is that connection, its ticket and the id |
| PeerGame.Game.SendToConnections | PeerGame.ts:178-182 | one request per listed connection in list order, each promise tagged with its own connection; every connection's state is its sends in order |
| PeerGame.Game.SendFanOut | PeerGame.ts:178-182 | the same outcome as sendToConnections, stated against the connection states the fan-out starts from |
| PeerGame.Game.SendNext | PeerGame.ts:178-182 | one more step of the fan-out keeps the issued tickets and the connection states in step with the listed connections so far |
| PeerGame.Game.Send | PeerGame.ts:184-186 | sends on the first connection; with none, no connection is touched |
| PeerGame.Game.SendToPeer | PeerGame.ts:188-190 | requests exactly the connections to that peer, in list order, each promise with the ticket that counts earlier requests on its connection; every targeted connection's new state is its sends in order |
| PeerGame.Game.SendToAllPeers | PeerGame.ts:192-194 | requests every connection, in list order, each promise with the ticket that counts earlier requests on its connection; every connection's new state is its sends in order |
| SocketListeners.SocketCallbackWrapper | src/common/lib/decorators/withSocketListeners.ts:1-3 | the wrapped handler called with data calls the callback with the socket and the data |
| SocketListeners.Put | src/common/lib/decorators/withSocketListeners.ts:49-55 | writing a key into a class table stores the value and keeps every other key; a new key goes at the end |
| SocketListeners.Listen | src/common/lib/decorators/withSocketListeners.ts:19-24 | one listener per table entry, named by the key, bound to the instance and the socket, with consecutive serials |
| SocketListeners.Level | src/common/lib/decorators/withSocketListeners.ts:19 | a class with its own socketEvents sees that table; any non-empty table seen belongs to that class or an ancestor up the chain |
| SocketListeners.Regs | src/common/lib/decorators/withSocketListeners.ts:18-34 | every entry of every level visited so far is registered |
| SocketListeners.Push | src/common/lib/decorators/withSocketListeners.ts:26-30 | appending a handler under an event adds exactly one recorded handler |
| SocketListeners.PushFlat | src/common/lib/decorators/withSocketListeners.ts:26-30 | the new handler is recorded under its event and every earlier one is kept |
| SocketListeners.Pairs | src/common/lib/decorators/withSocketListeners.ts:41 | the handlers of one event, each paired with the event name |
| SocketListeners.Flat | src/common/lib/decorators/withSocketListeners.ts:40-42 | the table flattened in iteration order; its length is the number of recorded handlers |
| SocketListeners.Record | src/common/lib/decorators/withSocketListeners.ts:26-30 | recording keeps every handler already recorded |
| SocketListeners.RecordCounts | src/common/lib/decorators/withSocketListeners.ts:22-30 | attaching records exactly as many handlers as it registers on the socket |
| SocketListeners.RecordedAreRemoved | src/common/lib/decorators/withSocketListeners.ts:22-30 | every listener attached is recorded in the table |
| SocketListeners.AttachTwiceDoublesRecords | src/common/lib/decorators/withSocketListeners.ts:18-34 | attaching twice registers and records everything twice |
| SocketListeners.InheritedTableVisitedAgain | src/common/lib/decorators/withSocketListeners.ts:18-34 | a level without its own socketEvents sees its parent's table, so the parent's entries are registered again |
| SocketListeners.DecoratedClassRegistersTwice | src/common/lib/decorators/withSocketListeners.ts:5-34 | an instance of the decorated class registers each of the target's events twice: once from the decorated class, which inherits the table, and once from the target |
| SocketListeners.RemoveLast | src/common/lib/decorators/withSocketListeners.ts:41 | removeListener drops one matching registration and leaves the list unchanged when none matches |
| SocketListeners.Keep | src/common/lib/decorators/withSocketListeners.ts:37-43 | the registrations that no recorded handler matches; never longer than the list |
| SocketListeners.RemoveEach | src/common/lib/decorators/withSocketListeners.ts:40-42 | each removeListener call removes at most one registration, so the list shrinks by at most the number of calls |
| SocketListeners.KeepMembers | src/common/lib/decorators/withSocketListeners.ts:37-43 | a registration survives removal exactly when it is not recorded |
| SocketListeners.RemoveLastUnique | src/common/lib/decorators/withSocketListeners.ts:41 | on a list without duplicates removeListener removes exactly the given registration |
| SocketListeners.RemoveEachKeeps | src/common/lib/decorators/withSocketListeners.ts:37-43 | without duplicate registrations, removal keeps exactly the unrecorded ones, in order |
| SocketListeners.ListenNoDuplicates | src/common/lib/decorators/withSocketListeners.ts:20-22 | the listeners of one attach are pairwise distinct function values |
| SocketListeners.AttachThenRemove | src/common/lib/decorators/withSocketListeners.ts:10-43 | removeSocketEvent after attachSocketEvent on a fresh socket leaves no listener on it |
| SocketListeners.KeepAll | src/common/lib/decorators/withSocketListeners.ts:37-43 | removing handlers none of which is registered keeps the list as it was |
| SocketListeners.KeepKeep | src/common/lib/decorators/withSocketListeners.ts:37-43 | removing recorded handlers and then one more is the same as removing the extended record |
| SocketListeners.PlainAttachTwiceDuplicates | src/common/lib/withSocketListeners.ts:4-10 | the older mixin records nothing, so a second attach registers every listener again |
| SocketListeners.Socket.constructor | src/common/__mocks__/Socket.mock.ts:1-13 | a connected socket with no listeners |
| SocketListeners.Socket.On | src/common/lib/decorators/withSocketListeners.ts:24 | socket.on appends the registration |
| SocketListeners.Socket.RemoveListener | src/common/lib/decorators/withSocketListeners.ts:41 | socket.removeListener removes the most recent matching registration |
| SocketListeners.Socket.RemoveAllListeners | src/server/lib/Game.ts:38 | no listener is left, and the connection flag is unchanged |
| SocketListeners.Socket.Disconnect | src/server/lib/Game.ts:39 | the socket is no longer connected and keeps its listeners |
| SocketListeners.Statics.constructor | src/common/lib/decorators/withSocketListeners.ts:7-8 | no class has its own tables yet |
| SocketListeners.Statics.DefineDecoratedClass | src/common/lib/decorators/withSocketListeners.ts:6-8 | the decorated class gets its own empty socketHandlers, and nothing else changes |
| SocketListeners.Statics.SocketEvent | src/common/lib/decorators/withSocketListeners.ts:49-55 | the class's own table is created on first use and the method is stored under its property name; the older decorator (src/common/lib/withSocketListeners.ts:13-19) does the same |
| SocketListeners.Statics.AttachLevel | src/common/lib/decorators/withSocketListeners.ts:19-31 | one level of the walk: its entries are registered on the socket and recorded under the instance's class |
| SocketListeners.Statics.AttachClass | src/common/lib/decorators/withSocketListeners.ts:18-34 | one step up the constructor chain keeps the walk's invariant |
| SocketListeners.Statics.Attach | src/common/lib/decorators/withSocketListeners.ts:10-35 | registers every level's inherited table in chain order, records the same listeners in the instance class's own socketHandlers, and leaves all other tables alone |
| SocketListeners.Statics.Remove | src/common/lib/decorators/withSocketListeners.ts:37-43 | calls removeListener for every handler in the class's socketHandlers, including ones recorded from other sockets, and never shrinks the table |
| SocketListeners.Statics.RemoveHandlers | src/common/lib/decorators/withSocketListeners.ts:41 | removes one event's handlers in order |
| SocketListeners.Statics.PlainAttach | src/common/lib/withSocketListeners.ts:4-10 | registers one listener per key of the class's socketEvents, bound to the instance, and records nothing |
| ServerGame.CallbackEffects | src/server/lib/Game.ts:35 | every end callback is called once, in registration order |
| ServerGame.TeardownEffects | src/server/lib/Game.ts:37-40 | two teardown requests per socket |
| ServerGame.TeardownOrder | src/server/lib/Game.ts:37-40 | socket i has its listeners removed and is then disconnected with close set to true, in join order |
| ServerGame.TeardownOnlyTouchesSockets | src/server/lib/Game.ts:37-40 | teardown runs no callbacks and emits nothing |
| ServerGame.EndEffects | src/server/lib/Game.ts:34-42 | end makes one request per callback and two per socket |
| ServerGame.CallbacksBeforeSockets | src/server/lib/Game.ts:34-42 | every end callback runs before any socket is touched |
| ServerGame.SwitchPayload | src/server/lib/Game.ts:45 | the message carries exactly phaseName and data |
| ServerGame.Broadcast | src/server/lib/Game.ts:44-46 | one ludumjs_switchPhase emission per socket, in list order |
| ServerGame.BroadcastCount | src/server/lib/Game.ts:44-46 | each socket receives the message as many times as it appears in the list |
| ServerGame.Ids | src/server/lib/Game.ts:8 | the sockets' identities, in list order |
| ServerGame.RunCallbacks | src/server/lib/Game.ts:35 | the effects are exactly one call per end callback, in registration order |
| ServerGame.StripAndClose | src/server/lib/Game.ts:37-40 | every socket ends with no listeners and disconnected, and the effects are the teardown of each socket in list order |
| ServerGame.Game.constructor | src/server/lib/Game.ts:11-19 | an empty common game with no end callbacks, whose socket list is [socket] when one is given (its events then attached) and [] otherwise |
| ServerGame.Game.GetSockets | src/server/lib/Game.ts:21-23 | returns the socket list |
| ServerGame.Game.Join | src/server/lib/Game.ts:25-28 | appends the socket at the end and attaches the game's socket events to it |
| ServerGame.Game.OnEnd | src/server/lib/Game.ts:30-32 | appends the callback |
| ServerGame.Game.End | src/server/lib/Game.ts:34-42 | runs the callbacks, then strips and disconnects every socket, then empties the list; callbacks, phases and current phase are unchanged |
| ServerGame.Game.EmitSwitchPhase | src/server/lib/Game.ts:44-46 | emits the switch-phase message to each socket, in list order |
| Player.NewPlayer | src/server/lib/Player.ts:14-17 | stores the socket and the id; customData defaults to an empty record |
| Player.Serialize | src/server/lib/Player.ts:19-24 | the record's uniqId is the player's, every other customData entry is copied and no other key is added |
| Player.SerializeForcesUniqId | src/server/lib/Player.ts:20-23 | a uniqId entry in customData never reaches the record |
| Player.SerializeIdempotent | src/server/lib/Player.ts:19-24 | serialising the serialised record again gives the same record |
| Player.SerializeSeparatesPlayers | src/server/lib/Player.ts:22 | players with different ids serialise differently |
| Player.ConstructedPlayersDistinct | src/server/lib/Player.ts:6 | players constructed one after another serialise pairwise differently |
| UniqId.NextIdTime | src/common/lib/decorators/withUniqId.ts:6 | the next value is above the last and at least the clock; it is the clock or last plus one |
| UniqId.FollowsClockAhead | src/common/lib/decorators/withUniqId.ts:6 | a clock strictly ahead is followed exactly |
| UniqId.StallsByOne | src/common/lib/decorators/withUniqId.ts:6 | a clock that stalls or goes back gives the previous value plus one |
| UniqId.IdTimes | src/common/lib/decorators/withUniqId.ts:4-9 | one value per call |
| UniqId.IdTimesIncrease | src/common/lib/decorators/withUniqId.ts:4-9 | successive values strictly increase, exceed the initial value and are at least their own clock reading |
| UniqId.IdClock.constructor | src/common/lib/decorators/withUniqId.ts:2 | the counter starts at the clock |
| UniqId.IdClock.Next | src/common/lib/decorators/withUniqId.ts:4-9 | returns and stores the next value |
| UniqId.IdClock.NextAll | src/common/lib/decorators/withUniqId.ts:4-9 | successive calls give the specified run of values |
| UniqId.Digit | src/common/lib/decorators/withUniqId.ts:17 | a base-36 digit, 0-9 then a-z |
| UniqId.DigitRoundTrip | src/common/lib/decorators/withUniqId.ts:17 | reading a digit back gives its value |
| UniqId.ToBase36 | src/common/lib/decorators/withUniqId.ts:17 | a non-empty lower-case base-36 numeral without leading zero |
| UniqId.Base36RoundTrip | src/common/lib/decorators/withUniqId.ts:17 | reading the numeral back gives the number |
| UniqId.Base36Injective | src/common/lib/decorators/withUniqId.ts:17 | distinct numbers give distinct numerals |
| UniqId.Instance.constructor | src/common/lib/decorators/withUniqId.ts:14-18 | uniqId is set after the wrapped constructor, so it overrides any value that constructor set |
| UniqId.UniqIds | src/common/lib/decorators/withUniqId.ts:12-22 | one id per construction |
| UniqId.UniqIdsDistinct | src/common/lib/decorators/withUniqId.ts:12-22 | every instance gets an id distinct from all earlier ones, whatever the clock does |
| Mixins.MergeOne | src/common/utils/applyMixins.ts:3-9 | the inner loop never removes a name |
| Mixins.MergeAll | src/common/utils/applyMixins.ts:2-10 | the outer loop never removes a name |
| Mixins.MergeOneFirstWins | src/common/utils/applyMixins.ts:3-9 | a name already owned keeps its value; otherwise the base's first entry of that name is taken |
| Mixins.MergeAllFirstWins | src/common/utils/applyMixins.ts:1-11 | an owned name keeps its value; any other name takes the value of the first base, in list order, that has it |
| Mixins.OwnNeverOverwritten | src/common/utils/applyMixins.ts:4-6 | a name already owned, such as constructor, is never overwritten |
| Mixins.BaseNameCopied | src/common/utils/applyMixins.ts:8 | every other base name is copied with the first provider's value |
| Mixins.NothingInvented | src/common/utils/applyMixins.ts:1-11 | nothing that no base provides is added |
| Mixins.Prototype.HasOwnProperty | src/common/utils/applyMixins.ts:4 | true exactly for owned names |
| Mixins.ApplyMixins | src/common/utils/applyMixins.ts:1-11 | the loops leave the derived prototype equal to the first-wins merge; the bases are only read |
| Arrays.Swap | src/common/utils/arrays.ts:8-11 | the two elements are exchanged and the others stay |
| Arrays.SwapPermutes | src/common/utils/arrays.ts:8-11 | a swap is a permutation |
| Arrays.ShufflePermutes | src/common/utils/arrays.ts:6-12 | with draws in range, the shuffle has the input's length and is a permutation of it |
| Arrays.ShuffleShort | src/common/utils/arrays.ts:6 | arrays of length 0 or 1 come back element for element |
| Arrays.ShuffleIdentity | src/common/utils/arrays.ts:6-12 | draws that always pick the current index leave every element in place |
| Arrays.ShuffleArray | src/common/utils/arrays.ts:3-15 | returns a fresh array equal to the shuffle of the input, and leaves the input unchanged |
| Arrays.SwapElements | src/common/utils/arrays.ts:8-11 | the array afterwards is the old contents with the two positions exchanged |
| Arrays.FloorDiv | src/common/utils/arrays.ts:21 | Math.floor of the quotient |
| Arrays.TruncRem | src/common/utils/arrays.ts:22 | JavaScript's remainder, taking the sign of the dividend |
| Arrays.Convert | src/common/utils/arrays.ts:17-24 | no result exactly for zero columns; for index >= 0 and cols > 0, row*cols + column == index with 0 <= column < cols |
| Arrays.ConvertFlatten | src/common/utils/arrays.ts:17-24 | converting a cell's row-major index gives back the cell |
| Arrays.ConvertExample | src/common/utils/__tests__/arrays.ts:37-50 | index 4 with 3 columns is row 1, column 1 |
| Arrays.NegativeIndexMixesRounding | src/common/utils/arrays.ts:21-22 | a negative index that is not a multiple points one full row before itself, because the row is floored and the column truncated |

## Left out

- DOM plumbing is not modelled:
  - dialogs (`getDialog`, `showDialog`, `hideDialog`) and their timers;
  - the stylesheet rule `registerPhase` inserts;
  - the container class `ludumjs-game-container`;
  - the animation helper in src/client/utils/dom.ts.
  They only talk to the browser. The one exception is the
  `phaseInstance.getClassName()` call that lib/Game.ts:37 makes to build
  the stylesheet rule: its failure is modelled, the rule itself is not
  (see "## Findings").
- Touch-capability probing (`getClickEvent`) is an environment query. The click event name is a constructor parameter.
- Some PeerJS plumbing is not modelled, because it is wiring to a library
  outside this model:
  - the construction of the `Peer` object;
  - reconnect-on-disconnect;
  - the incoming `connection` event handler;
  - the promises of `getPeerId` and `waitForConnection`.
  The model starts from `AddConnection`/`ConnectToPeer` given a connection.
- The random hexadecimal request id of `sendToConnection` (`Math.random`
  rendered in base 16) is not modelled: it is floating-point and
  unguaranteed. The caller supplies the id.
- The async timing of `onPeerMessage` and of the hooks is not modelled: hooks are
  total functions returning their settled value, and only call order is
  kept (nothing is awaited by `goToPhase`).
- socket.io `emit` and the end callbacks are recorded as effects, not executed.
- The socket.io server factory, `OnlineGame`, `OnlinePhase`, the server `Phase` stub, dices, `math.random`, error classes and index re-exports: thin wrappers over code outside this model.
- Behaviour found only in test files and not in the source (players, capacity, reconnection, `emitToAllPlayers`, `getPhaseById`) is not modelled.
- JavaScript's own-property key order (integer-like keys before string keys)
  is not modelled: tables are kept in insertion order.
- The static `socketEvents` that the decorated class declares without a
  value is taken to create no property of its own, as TypeScript's classic
  class-field emit does.
- The server `Game` is mixed with the older `withSocketListeners`, which
  has no `removeSocketEvent`, so the server game has no removal.
- Arrays.Convert: does not model non-integer inputs, and folds the zero-column result (a `NaN` column with an infinite or `NaN` row) into `None`, because indices and column counts are integers here.
- Arrays.ShuffleArray: requires each draw `random(0, i)` to lie in `[0, i]`; the source relies on `math.random` for this, which is not part of this model.
- PeerGame.Game.SendToConnections: the caller supplies one request id per connection.
- PeerGame.Game.SendToPeer: requires one supplied request id per matching connection, standing for the random ids the source draws.
- PeerGame.Game.SendToAllPeers: requires one supplied request id per connection, for the same reason.
- Mixins.ApplyMixins: base prototypes are values, so aliasing between a base and the derived prototype is not modelled.
- PeerJS `send` on a connection that has closed is not modelled: connections here never close on their own.
- PhaseRegistry.Register: in the typed version it assumes that the `getClassName()` call at lib/Game.ts:37 succeeds. As written that call throws for a lib/Phase.ts subclass that declares no `getClassName`. The throw is modelled by RegisterCheckAsWritten, and the registry uses the corrected RegisterCheck (see "## Findings").
- Dom.Container.AddClass: `classList.add("")` throws a `SyntaxError` in the browser. That happens when lib/Phase.ts or src/Phase.js start a phase whose constructor name is empty, such as an anonymous class. Here an empty class name is added like any other.

## Findings

| source | as written | input that shows it | evidently intended | confidence | as-written member | corrected member |
|---|---|---|---|---|---|---|
| lib/Game.ts:37 | `registerPhase` calls `phaseInstance.getClassName()`, which lib/Phase.ts:37-90 does not define, so the call throws a `TypeError` after the duplicate check and before the push | the first registration of a plain `class Intro extends Phase {}` | registration succeeds whenever the `instanceof` and duplicate assertions pass, as in src/Game.js and src/common/lib/Game.ts | medium, not executed | PhaseRegistry.PlainTypedPhaseRefused | PhaseRegistry.RegisterCheck |
