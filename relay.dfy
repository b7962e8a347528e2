/** The signalling relay: the Socket.IO "connection" handler of the backend and its four
    sub-handlers (Backend/src/server.js, lines 34-64).

    The relay's whole state is the set of live connection ids and the record of what it
    has emitted. It keeps no table of who is calling whom: every handler's output is a
    function of its arguments and of the live set alone. */
module Relay {
  import opened Wire

  /** One emit call: the notice and the set of live connections it reaches. */
  datatype Emission = Emission(to: set<Id>, notice: Notice)

  /** What the transport hands to the connection handler. */
  datatype Event =
    | Connected(id: Id)
    | Received(sender: Id, request: Request)
    | Disconnected(id: Id)

  datatype RelayState = RelayState(connected: set<Id>, outbox: seq<Emission>)

  const Initial := RelayState({}, [])

  /** `io.to(target).emit(n)`: the transport delivers to `target` when it is connected and
      drops the notice otherwise. The sender is not excluded. */
  function SendTo(connected: set<Id>, target: Id, n: Notice): Emission
  {
    Emission(if target in connected then {target} else {}, n)
  }

  /** The notice each request kind is relayed as. */
  function Forward(r: Request): Notice
  {
    match r
    case CallUserRequest(_, signalData, from, name) => CallUser(signalData, from, name)
    case AnswerCallRequest(signal, _) => CallAccepted(signal)
    case EndCallRequest(_) => CallEnded
  }

  /** What the relay emits for one event, given the connections live before it. */
  function Respond(connected: set<Id>, e: Event): Emission
  {
    match e
    case Connected(id) => Emission({id}, Me(id))
    case Received(_, r) => SendTo(connected, r.Target(), Forward(r))
    case Disconnected(id) => Emission(connected - {id}, CallEnded)
  }

  /** The live connections after one event. */
  function Connections(connected: set<Id>, e: Event): set<Id>
  {
    match e
    case Connected(id) => connected + {id}
    case Received(_, _) => connected
    case Disconnected(id) => connected - {id}
  }

  function Step(s: RelayState, e: Event): RelayState
  {
    RelayState(Connections(s.connected, e), s.outbox + [Respond(s.connected, e)])
  }

  function Run(s: RelayState, es: seq<Event>): (r: RelayState)
    ensures |r.outbox| == |s.outbox| + |es|
    decreases |es|
  {
    if es == [] then s else Run(Step(s, es[0]), es[1..])
  }

  /** The live set after a trace, computed from the starting live set alone. */
  function FinalConnections(connected: set<Id>, es: seq<Event>): set<Id>
    decreases |es|
  {
    if es == [] then connected else FinalConnections(Connections(connected, es[0]), es[1..])
  }

  /** The emissions of a trace, computed from the starting live set alone. */
  function Emitted(connected: set<Id>, es: seq<Event>): (r: seq<Emission>)
    ensures |r| == |es|
    decreases |es|
  {
    if es == [] then [] else [Respond(connected, es[0])] + Emitted(Connections(connected, es[0]), es[1..])
  }

  /** The notices a connection receives, in the order they were emitted. */
  function Inbox(outbox: seq<Emission>, y: Id): (r: seq<Notice>)
    ensures |r| <= |outbox|
    decreases |outbox|
  {
    if outbox == [] then []
    else
      var last := outbox[|outbox| - 1];
      Inbox(outbox[..|outbox| - 1], y) + (if y in last.to then [last.notice] else [])
  }

  lemma InboxAppend(outbox: seq<Emission>, e: Emission, y: Id)
    ensures Inbox(outbox + [e], y) == Inbox(outbox, y) + (if y in e.to then [e.notice] else [])
  {
    assert (outbox + [e])[..|outbox|] == outbox;
  }

  /** The one-step effect of any event on any one mailbox. */
  lemma InboxAfterStep(s: RelayState, e: Event, y: Id)
    ensures Inbox(Step(s, e).outbox, y)
         == Inbox(s.outbox, y) + (if y in Respond(s.connected, e).to then [Respond(s.connected, e).notice] else [])
  {
    InboxAppend(s.outbox, Respond(s.connected, e), y);
  }

  /** server.js 34-38: a new connection is told its own id, and nobody else hears of it. */
  lemma ConnectWelcomesOnlyNewcomer(s: RelayState, id: Id, y: Id)
    ensures Step(s, Connected(id)).connected == s.connected + {id}
    ensures Inbox(Step(s, Connected(id)).outbox, y) == Inbox(s.outbox, y) + (if y == id then [Me(id)] else [])
  {
    InboxAfterStep(s, Connected(id), y);
  }

  /** server.js 41-47: `callUser` reaches `userToCall`, if live, with `signal`, `from` and
      `name` exactly as the client sent them; `from` is not checked against the sender. */
  lemma CallUserRelayed(s: RelayState, sender: Id, userToCall: Id, signalData: Signal, from: Id, name: string, y: Id)
    ensures Step(s, Received(sender, CallUserRequest(userToCall, signalData, from, name))).connected == s.connected
    ensures Inbox(Step(s, Received(sender, CallUserRequest(userToCall, signalData, from, name))).outbox, y)
         == Inbox(s.outbox, y) + (if y == userToCall && y in s.connected then [CallUser(signalData, from, name)] else [])
  {
    InboxAfterStep(s, Received(sender, CallUserRequest(userToCall, signalData, from, name)), y);
  }

  /** server.js 50-52: `answerCall` reaches `to`, if live, as `callAccepted` carrying only the signal. */
  lemma AnswerCallRelayed(s: RelayState, sender: Id, signal: Signal, to: Id, y: Id)
    ensures Step(s, Received(sender, AnswerCallRequest(signal, to))).connected == s.connected
    ensures Inbox(Step(s, Received(sender, AnswerCallRequest(signal, to))).outbox, y)
         == Inbox(s.outbox, y) + (if y == to && y in s.connected then [CallAccepted(signal)] else [])
  {
    InboxAfterStep(s, Received(sender, AnswerCallRequest(signal, to)), y);
  }

  /** server.js 55-57: `endCall` reaches `to`, if live, as one `callEnded`. */
  lemma EndCallRelayed(s: RelayState, sender: Id, to: Id, y: Id)
    ensures Step(s, Received(sender, EndCallRequest(to))).connected == s.connected
    ensures Inbox(Step(s, Received(sender, EndCallRequest(to))).outbox, y)
         == Inbox(s.outbox, y) + (if y == to && y in s.connected then [CallEnded] else [])
  {
    InboxAfterStep(s, Received(sender, EndCallRequest(to)), y);
  }

  /** server.js 41-57: a forwarded request comes back to its live sender exactly when the
      sender addressed it to its own id (`io.to` does not exclude the sender). */
  lemma ForwardEchoesOnlyWhenSelfAddressed(s: RelayState, sender: Id, r: Request)
    requires sender in s.connected
    ensures Inbox(Step(s, Received(sender, r)).outbox, sender) == Inbox(s.outbox, sender) <==> r.Target() != sender
  {
    InboxAfterStep(s, Received(sender, r), sender);
  }

  /** server.js 60-63: a disconnect tells every other live connection that the call ended,
      whether or not it was in a call with the leaver, and never tells the leaver. */
  lemma DisconnectBroadcast(s: RelayState, id: Id, y: Id)
    ensures Step(s, Disconnected(id)).connected == s.connected - {id}
    ensures Inbox(Step(s, Disconnected(id)).outbox, y)
         == Inbox(s.outbox, y) + (if y in s.connected && y != id then [CallEnded] else [])
  {
    InboxAfterStep(s, Disconnected(id), y);
  }

  /** Every emission reaches only connections that are live once the event is handled. */
  lemma RecipientsAreLive(connected: set<Id>, e: Event)
    ensures Respond(connected, e).to <= Connections(connected, e)
  {
  }

  /** No per-call state: what a trace makes the relay emit, and the live set it ends with,
      depend only on the live set it starts from, never on earlier traffic. */
  lemma {:induction false} RunIsHistoryFree(s: RelayState, es: seq<Event>)
    ensures Run(s, es) == RelayState(FinalConnections(s.connected, es), s.outbox + Emitted(s.connected, es))
    decreases |es|
  {
    if es != [] {
      RunIsHistoryFree(Step(s, es[0]), es[1..]);
      assert s.outbox + [Respond(s.connected, es[0])] + Emitted(Connections(s.connected, es[0]), es[1..])
          == s.outbox + Emitted(s.connected, es);
    }
  }

  /** Two relays with the same live set react to the same trace in the same way. */
  lemma SameConnectionsSameFuture(s1: RelayState, s2: RelayState, es: seq<Event>)
    requires s1.connected == s2.connected
    ensures Run(s1, es).connected == Run(s2, es).connected
    ensures Run(s1, es).outbox[|s1.outbox|..] == Run(s2, es).outbox[|s2.outbox|..]
  {
    RunIsHistoryFree(s1, es);
    RunIsHistoryFree(s2, es);
  }

  predicate AllReceived(es: seq<Event>)
  {
    forall k :: 0 <= k < |es| ==> es[k].Received?
  }

  /** The live set changes only on connect and disconnect. */
  lemma {:induction false} MessagesKeepConnections(s: RelayState, es: seq<Event>)
    requires AllReceived(es)
    ensures Run(s, es).connected == s.connected
    decreases |es|
  {
    if es != [] {
      assert es[0].Received?;
      MessagesKeepConnections(Step(s, es[0]), es[1..]);
    }
  }

  /** Every `me` notice ever emitted goes to exactly the connection whose id it carries. */
  predicate WelcomesAddressed(outbox: seq<Emission>)
  {
    forall k :: 0 <= k < |outbox| && outbox[k].notice.Me? ==> outbox[k].to == {outbox[k].notice.id}
  }

  lemma {:induction false} RunKeepsWelcomesAddressed(s: RelayState, es: seq<Event>)
    requires WelcomesAddressed(s.outbox)
    ensures WelcomesAddressed(Run(s, es).outbox)
    decreases |es|
  {
    if es != [] {
      var s' := Step(s, es[0]);
      assert WelcomesAddressed(s'.outbox) by {
        forall k | 0 <= k < |s'.outbox| && s'.outbox[k].notice.Me?
          ensures s'.outbox[k].to == {s'.outbox[k].notice.id}
        {
          if k < |s.outbox| {
            assert s'.outbox[k] == s.outbox[k];
          }
        }
      }
      RunKeepsWelcomesAddressed(s', es[1..]);
    }
  }

  /** The relay as the running server holds it: the live set and the emit log. */
  class Server {
    var connected: set<Id>
    var outbox: seq<Emission>

    function State(): RelayState
      reads this
    {
      RelayState(connected, outbox)
    }

    constructor ()
      ensures State() == Initial
    {
      connected := {};
      outbox := [];
    }

    /** `io.on("connection")`: the socket joins the live set and is sent its own id. */
    method OnConnection(id: Id)
      requires id != "" && id !in connected
      modifies this
      ensures connected == old(connected) + {id}
      ensures outbox == old(outbox) + [Emission({id}, Me(id))]
      ensures State() == Step(old(State()), Connected(id))
    {
      connected := connected + {id};
      outbox := outbox + [Emission({id}, Me(id))];
    }

    /** `socket.on("callUser")`: relays the offer, the client-supplied `from` and the name. */
    method OnCallUser(sender: Id, userToCall: Id, signalData: Signal, from: Id, name: string)
      requires sender in connected
      modifies this`outbox
      ensures connected == old(connected)
      ensures outbox == old(outbox) + [SendTo(connected, userToCall, CallUser(signalData, from, name))]
      ensures State() == Step(old(State()), Received(sender, CallUserRequest(userToCall, signalData, from, name)))
    {
      outbox := outbox + [SendTo(connected, userToCall, CallUser(signalData, from, name))];
    }

    /** `socket.on("answerCall")`: relays the answer to `to` as `callAccepted`. */
    method OnAnswerCall(sender: Id, signal: Signal, to: Id)
      requires sender in connected
      modifies this`outbox
      ensures connected == old(connected)
      ensures outbox == old(outbox) + [SendTo(connected, to, CallAccepted(signal))]
      ensures State() == Step(old(State()), Received(sender, AnswerCallRequest(signal, to)))
    {
      outbox := outbox + [SendTo(connected, to, CallAccepted(signal))];
    }

    /** `socket.on("endCall")`: tells `to` that the call ended. */
    method OnEndCall(sender: Id, to: Id)
      requires sender in connected
      modifies this`outbox
      ensures connected == old(connected)
      ensures outbox == old(outbox) + [SendTo(connected, to, CallEnded)]
      ensures State() == Step(old(State()), Received(sender, EndCallRequest(to)))
    {
      outbox := outbox + [SendTo(connected, to, CallEnded)];
    }

    /** `socket.on("disconnect")`: the socket has already left the live set when the
        handler runs; `socket.broadcast.emit` then reaches every remaining connection. */
    method OnDisconnect(id: Id)
      requires id in connected
      modifies this
      ensures connected == old(connected) - {id}
      ensures outbox == old(outbox) + [Emission(old(connected) - {id}, CallEnded)]
      ensures State() == Step(old(State()), Disconnected(id))
    {
      connected := connected - {id};
      outbox := outbox + [Emission(connected, CallEnded)];
    }
  }
}
