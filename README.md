# Call signalling of a two-party video call app, modelled in Dafny

The app has two cooperating event-driven pieces.

- **The signalling relay** is the Socket.IO connection handler of the Node backend. It tells each new connection its own id (`me`). It forwards three client events to a target id: `callUser` as `callUser`, `answerCall` as `callAccepted` and `endCall` as `callEnded`. When any connection closes, it broadcasts `callEnded` to every other connection.
- **The browser client** is the React page. Its call state is the flags `receivingCall`, `callAccepted` and `callEnded`, the strings `me`, `caller`, `name` and `calledIdRef`, the stored `callerSignal`, and the one-shot `callAccepted` listener. That state changes on three server events (`me`, `callUser`, `callEnded`), on four user actions (`callUser(id)`, `answerCall`, `leaveCall`, and typing in the name field) and when the listener fires. Four rendering conditions decide what the page shows.

Files:

- `wire.dfy` (module `Wire`): the Socket.IO events in both directions.
- `relay.dfy` (module `Relay`): the relay.
  - The pure specification: `Respond` gives what one event emits and `Connections` gives the live set after it. `Step` and `Run` replay traces, and `Inbox` gives what one connection receives, in order.
  - The class `Relay.Server` holds the live set and the emit log. Its handler methods are proved against `Step`.
- `client.dfy` (module `Client`): the page.
  - `React` gives the next state and the emitted request for each input. The predicates `LocalVideoLayout`, `RemoteVideoShown`, `ShownButton` and `IncomingPromptShown` give what is rendered.
  - The class `Client.App` holds the same fields and is proved against `React`.
- `routing.dfy` (module `Routing`): end-to-end lemmas. Some pass a client's request through the relay to the receiving client; others state one client's half of an exchange, or what a disconnect's broadcast does to the other pages.

A targeted emit `io.to(id).emit(...)` is modelled as: deliver to `id` if it is connected, otherwise drop. The relay's outbox records one entry per emit call, with the set of connections it reaches. `Inbox` turns that record into the ordered list of (recipient, message) deliveries seen by one connection.

Three things the code does not do, and so the model does not either:

- **No pairing table.** The relay keeps no record of who is calling whom.
  - A disconnect notifies every other live connection, bystanders included (`Relay.DisconnectBroadcast`, `Routing.DisconnectEndsEveryOtherCall`). It does not notify just a partner.
  - There is no exactly-once teardown notice. A hang-up reaches the partner through `endCall`, and again through the broadcast caused by the page reload, while the partner's connection is still open (`Routing.HangupNotifiesPartnerTwice`). The partner reloads on the first notice, so the second reaches it only if its old connection has not closed yet.
  - Every page that receives `callEnded` reloads, and its own disconnect broadcasts `callEnded` again. So with several pages open, one hang-up can set off a chain of reloads (`Routing.ReloadRebroadcasts`). The model proves one link of that chain at a time; it does not model timing.
- **No sender stamping.** The `from` of a relayed `callUser` is whatever the client wrote, not the sender's socket id (`Relay.CallUserRelayed`, `Routing.AnswerFollowsClaimedFrom`).
- **The sender can receive its own message.** `io.to(target)` does not exclude the sender. So a forwarded request comes back to the sender exactly when the sender addressed its own id (`Relay.ForwardEchoesOnlyWhenSelfAddressed`). In every other case it never does.

Client details the model keeps:

- Each `callUser(id)` registers a fresh `callAccepted` listener closure. One `callAccepted` event runs every registered listener once, and each one removes itself. The model counts the registered listeners (`acceptListeners`).
- `calledId` stands for `calledIdRef.current`.
- `reloaded` records `window.location.reload()`, which ends the page's trace.
- A user action is enabled only while its button is rendered (`Client.Enabled`).

## Model

| member | source | states |
|---|---|---|
| `Relay.Inbox` | Backend/src/server.js:34-64 | a connection never receives more notices than there were emit calls |
| `Relay.Run` | Backend/src/server.js:34-64 | replaying a trace appends exactly one emission per event |
| `Relay.Emitted` | Backend/src/server.js:34-64 | a trace's emissions, computed from the starting live set alone, are one per event |
| `Relay.InboxAfterStep` | Backend/src/server.js:34-64 | any event adds at most its own notice to one connection's inbox, and only if that connection is among the emit's recipients |
| `Relay.ConnectWelcomesOnlyNewcomer` | Backend/src/server.js:34-38 | on connection the new id joins the live set; exactly one `me` carrying that id goes to that connection, and every other inbox is unchanged |
| `Relay.CallUserRelayed` | Backend/src/server.js:41-47 | `callUser` reaches `userToCall` only, and only if it is connected, with `signal`, `from` and `name` unchanged; `from` is the client's value whatever the sender; the live set is unchanged |
| `Relay.AnswerCallRelayed` | Backend/src/server.js:50-52 | `answerCall` reaches `to` only, and only if it is connected, as `callAccepted` carrying just the signal |
| `Relay.EndCallRelayed` | Backend/src/server.js:55-57 | `endCall` reaches `to` only, and only if it is connected, as one `callEnded` |
| `Relay.ForwardEchoesOnlyWhenSelfAddressed` | Backend/src/server.js:41-57 | a forwarded request leaves the sender's inbox unchanged if and only if its target is not the sender's own id |
| `Relay.DisconnectBroadcast` | Backend/src/server.js:60-63 | disconnect removes the id and sends one `callEnded` to every other connected id, in a call or not, and never to the leaver |
| `Relay.RecipientsAreLive` | Backend/src/server.js:34-64 | no handler's emission reaches an id that is not connected once the event is handled |
| `Relay.RunIsHistoryFree` | Backend/src/server.js:34-64 | the relay keeps no per-call state: a trace's emissions and final live set are functions of the starting live set and the events alone |
| `Relay.SameConnectionsSameFuture` | Backend/src/server.js:34-64 | two relays with equal live sets emit the same things for the same trace, whatever traffic came before |
| `Relay.MessagesKeepConnections` | Backend/src/server.js:41-57 | a trace of client messages never changes the live set; only connect and disconnect do |
| `Relay.RunKeepsWelcomesAddressed` | Backend/src/server.js:37-38 | over any trace, every `me` notice goes to exactly the connection whose id it carries |
| `Relay.Server.OnConnection` | Backend/src/server.js:34-38 | adds the id to the live set and appends one emission of `me(id)` to that id only |
| `Relay.Server.OnCallUser` | Backend/src/server.js:41-47 | appends exactly the targeted `callUser` emission; the live set is unchanged |
| `Relay.Server.OnAnswerCall` | Backend/src/server.js:50-52 | appends exactly the targeted `callAccepted` emission; the live set is unchanged |
| `Relay.Server.OnEndCall` | Backend/src/server.js:55-57 | appends exactly the targeted `callEnded` emission; the live set is unchanged |
| `Relay.Server.OnDisconnect` | Backend/src/server.js:60-63 | removes the id, then appends one `callEnded` to all remaining connections |
| `Relay.Server.constructor` | Backend/src/server.js:34 | the relay starts with no connections and nothing emitted |
| `Client.MeReplacesId` | Frontend/src/App.jsx:42-43 | a `me` notice sets `me` to its id, replacing any earlier one, and changes nothing else |
| `Client.MeIsLatest` | Frontend/src/App.jsx:42-43 | after any trace, `me` is the id of the most recent `me` notice (or the starting value if none arrived) |
| `Client.IncomingCallRecorded` | Frontend/src/App.jsx:45-50 | an incoming `callUser` sets `receivingCall` and stores `from`, `name` and `signal` as `caller`, `name`, `callerSignal`, touches nothing else, and shows the prompt exactly when no call was accepted yet |
| `Client.CallUserEmits` | Frontend/src/App.jsx:83-119 | `callUser(id)` sets `calledIdRef` to `id`, registers one more `callAccepted` listener, and emits `callUser` with `userToCall = id`, `from = me` and the current `name` |
| `Client.ListenerIsOneShot` | Frontend/src/App.jsx:111-116 | a registered listener sets `callAccepted` and removes itself; a second `callAccepted` then changes nothing |
| `Client.ListenersConserved` | Frontend/src/App.jsx:111-116 | over any trace, the listener closures that ran plus those still registered equal those registered at the start plus one per `callUser`: each registered listener runs at most once and then removes itself |
| `Client.ListenerRunsAtMostOncePerCall` | Frontend/src/App.jsx:111-116 | from first render, listener closures run no more often than `callUser` was called, and exactly that often when no listener remains registered |
| `Client.AnswerCallEmits` | Frontend/src/App.jsx:121-146 | `answerCall` sets `callAccepted`, sets `calledIdRef` to `caller`, emits `answerCall` with `to = caller`, hides the prompt and shows End Call unless the call had ended |
| `Client.LeaveCallEmits` | Frontend/src/App.jsx:148-157 | `leaveCall` sets `callEnded`, emits `endCall` if and only if `calledIdRef` (or `caller` when it is empty) is non-empty, addressed to `calledIdRef` when set and otherwise to `caller`; Call Now shows afterwards |
| `Client.ViewIsConsistent` | Frontend/src/App.jsx:198-297 | the remote video, the End Call button and the secondary local video show together (exactly when `callAccepted && !callEnded`), and the prompt never shows during a call |
| `Client.ReactKeepsCoherent` | Frontend/src/App.jsx:53-57 | no input separates `callEnded` from the page reload |
| `Client.RunKeepsCoherent` | Frontend/src/App.jsx:148-157 | over any trace, `callEnded` holds exactly when the page has reloaded |
| `Client.FlagsOnlyRise` | Frontend/src/App.jsx:45-57 | no handler clears `receivingCall`, `callAccepted` or `callEnded` once set |
| `Client.EndedAndAnsweredAreFinal` | Frontend/src/App.jsx:282-297 | once the call ended the page shows Call Now and no remote video for good; once a call was accepted the prompt never returns |
| `Client.App.constructor` | Frontend/src/App.jsx:13-29 | the page starts with every flag false, every string empty, no stored signal and no listener |
| `Client.App.OnMe` | Frontend/src/App.jsx:43 | sets `me` to the received id |
| `Client.App.OnCallUser` | Frontend/src/App.jsx:45-50 | sets `receivingCall` and stores the caller's id, name and signal |
| `Client.App.OnCallEnded` | Frontend/src/App.jsx:53-57 | sets `callEnded` and ends the trace with the reload |
| `Client.App.OnCallAccepted` | Frontend/src/App.jsx:111-116 | with a listener registered, sets `callAccepted` and leaves none registered; without one, changes nothing |
| `Client.App.CallUser` | Frontend/src/App.jsx:83-119 | sets `calledIdRef`, adds a listener and appends the `callUser` request to the emit log |
| `Client.App.AnswerCall` | Frontend/src/App.jsx:121-146 | sets `callAccepted`, sets `calledIdRef` to `caller` and appends `answerCall` to `caller` |
| `Client.App.LeaveCall` | Frontend/src/App.jsx:148-157 | sets `callEnded`, returns the partner `calledIdRef` (or `caller` when it is empty) and appends `endCall` to it only when it is non-empty |
| `Client.App.TypeName` | Frontend/src/App.jsx:251 | the name input replaces `name` |
| `Routing.LeaveCallReachesExactlyPartner` | Frontend/src/App.jsx:148-154 | the request `leaveCall` emits exists exactly when the partner is non-empty, and through the relay it reaches exactly that partner (if connected) and no one else |
| `Routing.DisconnectEndsEveryOtherCall` | Backend/src/server.js:60-63 | every other live client receives `callEnded` and leaves any call it was in; the leaver receives nothing |
| `Routing.HangupNotifiesPartnerTwice` | Backend/src/server.js:55-63 | `endCall` followed by the reload's disconnect delivers `callEnded` to the partner twice |
| `Routing.AnswerFollowsClaimedFrom` | Backend/src/server.js:41-47 | the callee stores the claimed `from`, can still answer because no call was accepted, and addresses its answer to it, whoever sent the request |
| `Routing.OfferReachesCallee` | Backend/src/server.js:41-47 | the `callUser` that a caller knowing its own id emits carries that id as `from` and reaches the callee and leaves every other connection's inbox unchanged; the live set is unchanged |
| `Routing.CalleeIsPrompted` | Frontend/src/App.jsx:45-50 | a callee not yet in a call is shown the prompt, remembers the caller and its signal, and may answer |
| `Routing.AnswerReachesCaller` | Backend/src/server.js:50-52 | the callee's answer reaches the caller as `callAccepted` and leaves every other connection's inbox unchanged |
| `Routing.CalleeJoinsCall` | Frontend/src/App.jsx:121-154 | answering addresses the caller, enters the call, and makes a later `leaveCall` go to the caller |
| `Routing.CallerJoinsCall` | Frontend/src/App.jsx:111-154 | the caller's armed listener fires on `callAccepted`, the caller enters the call, and a later `leaveCall` goes to the callee |
| `Routing.HandshakeConnectsBoth` | Frontend/src/App.jsx:83-146 | between two clients that know their ids, offer then answer leaves both in the call, and each one's `leaveCall` is addressed to the other |
| `Routing.ReloadRebroadcasts` | Backend/src/server.js:60-63 | a page told `callEnded` by one disconnect reloads; its own disconnect tells every other live page again, so a third page gets `callEnded` twice |

## Left out

- Express, CORS, the health route, the HTTP server, `server.listen` and the environment configuration (Backend/src/server.js:1-31, 76-79) are process bootstrap.
- The `uncaughtException` and `unhandledRejection` handlers and every `console.log` are logging only.
- Socket.IO internals (rooms, transports, reconnection) are left out. A targeted send is delivered to a connected id and dropped otherwise. Connection ids come from the transport: a new one is non-empty and never live already, and only live connections send or close.
- Events whose fields are missing or malformed are not modelled. Every request carries all of its fields.
- `getUserMedia` and the binding of video elements are media I/O.
- The simple-peer objects are a foreign library, so the model leaves out their `signal`, `stream` and `error` events and `peer.signal`. A signal is an opaque value. The offer or answer that the peer produces arrives as an argument of the user action that emits it. That action and the later `signal` callback are modelled as one step.
- `connectionRef.current?.destroy()` is a library effect. `window.location.reload()` is a browser effect; it appears only as the `reloaded` flag, which ends the client's trace.
- The model never executes the reload's own disconnect. That disconnect appears only in `Routing.HangupNotifiesPartnerTwice` and `Routing.ReloadRebroadcasts`, as an explicit relay event.
- The ICE server list, the animation variants, the theme and blur toggles, the `idToCall` input and all other JSX are rendering. The four visibility conditions are kept.
- Frontend/vite.config.js is build configuration.
- The model has no pairing table, no exactly-once partner notice and no sender-id stamping, because the code has none of them.
