/** The browser client's call state (Frontend/src/App.jsx): the socket handlers registered
    on mount, the three user actions `callUser`, `answerCall` and `leaveCall`, the one-shot
    `callAccepted` listener, and the four conditions that decide what the page shows.

    Media capture, the peer library and rendering are not modelled; a signal produced by
    the peer library arrives as an argument of the action that emits it. */
module Client {
  import opened Wire

  /** The React state and refs the call logic reads and writes. `acceptListeners` counts
      the `callAccepted` listeners currently registered; `reloaded` records that the page
      called `window.location.reload()`, which ends this client's trace. */
  datatype ClientState = ClientState(
    me: Id,
    receivingCall: bool,
    caller: Id,
    name: string,
    callerSignal: Option<Signal>,
    callAccepted: bool,
    callEnded: bool,
    calledId: Id,
    acceptListeners: nat,
    reloaded: bool)

  /** The values of App.jsx lines 13-29 on first render. */
  const Initial := ClientState("", false, "", "", None, false, false, "", 0, false)

  /** What can happen to a client: a notice from the server, or the user acting on the page. */
  datatype Input =
    | Server(notice: Notice)
    | CallUserAction(id: Id, offer: Signal)
    | AnswerCallAction(answer: Signal)
    | LeaveCallAction
    | NameTyped(typed: string)

  /** The state after an input and the request, if any, emitted on the socket. */
  datatype Reaction = Reaction(next: ClientState, sent: Option<Request>)

  /** `calledIdRef.current || caller`: the empty string is falsy in JavaScript. */
  function Partner(calledId: Id, caller: Id): Id
  {
    if calledId != "" then calledId else caller
  }

  function React(s: ClientState, i: Input): Reaction
  {
    match i
    case Server(Me(id)) =>
      Reaction(s.(me := id), None)
    case Server(CallUser(signal, from, callerName)) =>
      Reaction(s.(receivingCall := true, caller := from, name := callerName, callerSignal := Some(signal)), None)
    case Server(CallAccepted(_)) =>
      // every registered listener runs once and unregisters itself
      if s.acceptListeners > 0 then Reaction(s.(callAccepted := true, acceptListeners := 0), None)
      else Reaction(s, None)
    case Server(CallEnded) =>
      Reaction(s.(callEnded := true, reloaded := true), None)
    case CallUserAction(id, offer) =>
      Reaction(s.(calledId := id, acceptListeners := s.acceptListeners + 1),
               Some(CallUserRequest(id, offer, s.me, s.name)))
    case AnswerCallAction(answer) =>
      Reaction(s.(callAccepted := true, calledId := s.caller), Some(AnswerCallRequest(answer, s.caller)))
    case LeaveCallAction =>
      var partner := Partner(s.calledId, s.caller);
      Reaction(s.(callEnded := true, reloaded := true), if partner != "" then Some(EndCallRequest(partner)) else None)
    case NameTyped(typed) =>
      Reaction(s.(name := typed), None)
  }

  // ---- What the page shows (App.jsx lines 198, 223, 282-290, 297) ----

  predicate InCall(s: ClientState)
  {
    s.callAccepted && !s.callEnded
  }

  datatype Layout = Primary | Secondary
  datatype ActionButton = EndCallButton | CallNowButton

  /** Line 198: the local video moves to the secondary slot during a call. */
  function LocalVideoLayout(s: ClientState): Layout
  {
    if s.callAccepted && !s.callEnded then Secondary else Primary
  }

  /** Line 223: the remote video is on the page. */
  predicate RemoteVideoShown(s: ClientState)
  {
    s.callAccepted && !s.callEnded
  }

  /** Lines 282-290: End Call during a call, Call Now otherwise. */
  function ShownButton(s: ClientState): ActionButton
  {
    if s.callAccepted && !s.callEnded then EndCallButton else CallNowButton
  }

  /** Line 297: the incoming-call prompt with its Answer button. */
  predicate IncomingPromptShown(s: ClientState)
  {
    s.receivingCall && !s.callAccepted
  }

  /** A user action can only be taken through its button; nothing happens after a reload. */
  predicate Enabled(s: ClientState, i: Input)
  {
    !s.reloaded &&
    match i
    case CallUserAction(_, _) => ShownButton(s) == CallNowButton
    case AnswerCallAction(_) => IncomingPromptShown(s)
    case LeaveCallAction => ShownButton(s) == EndCallButton
    case _ => true
  }

  /** `callEnded` and the reload are always set together (lines 53-56, 149-156). */
  predicate Coherent(s: ClientState)
  {
    s.callEnded == s.reloaded
  }

  lemma ReactKeepsCoherent(s: ClientState, i: Input)
    requires Coherent(s)
    ensures Coherent(React(s, i).next)
  {
  }

  // ---- One-step properties ----

  /** Lines 42-43: `me` replaces any earlier id, as after a reconnect. */
  lemma MeReplacesId(s: ClientState, id: Id)
    ensures React(s, Server(Me(id))) == Reaction(s.(me := id), None)
  {
  }

  /** Lines 45-50: an incoming call records the caller's id, name and signal. */
  lemma IncomingCallRecorded(s: ClientState, signal: Signal, from: Id, callerName: string)
    ensures var r := React(s, Server(CallUser(signal, from, callerName)));
      r.sent == None && r.next.receivingCall && r.next.caller == from &&
      r.next.name == callerName && r.next.callerSignal == Some(signal) &&
      r.next.(receivingCall := s.receivingCall, caller := s.caller, name := s.name, callerSignal := s.callerSignal) == s
    ensures IncomingPromptShown(React(s, Server(CallUser(signal, from, callerName))).next) <==> !s.callAccepted
  {
  }

  /** Lines 83-99, 116: calling `id` remembers it, registers one more listener, and emits
      `callUser` addressed to `id` with our own id and the current name. */
  lemma CallUserEmits(s: ClientState, id: Id, offer: Signal)
    ensures var r := React(s, CallUserAction(id, offer));
      r.sent == Some(CallUserRequest(id, offer, s.me, s.name)) && r.sent.value.Target() == id &&
      r.next == s.(calledId := id, acceptListeners := s.acceptListeners + 1)
  {
  }

  /** Lines 111-116: a registered listener sets `callAccepted` and removes itself, so a
      second `callAccepted` without a new call changes nothing. */
  lemma ListenerIsOneShot(s: ClientState, a1: Signal, a2: Signal)
    requires s.acceptListeners > 0
    ensures React(s, Server(CallAccepted(a1))).next == s.(callAccepted := true, acceptListeners := 0)
    ensures var t := React(s, Server(CallAccepted(a1))).next; React(t, Server(CallAccepted(a2))) == Reaction(t, None)
  {
  }

  /** Lines 121-123, 132-133: answering marks the call accepted, remembers the caller as
      the partner and addresses the answer to the caller; the prompt disappears. */
  lemma AnswerCallEmits(s: ClientState, answer: Signal)
    ensures var r := React(s, AnswerCallAction(answer));
      r.sent == Some(AnswerCallRequest(answer, s.caller)) &&
      r.next == s.(callAccepted := true, calledId := s.caller) &&
      !IncomingPromptShown(r.next) &&
      (ShownButton(r.next) == EndCallButton <==> !s.callEnded)
  {
  }

  /** Lines 148-154: leaving ends the call and notifies `calledIdRef.current || caller`,
      and emits nothing when both are empty. */
  lemma LeaveCallEmits(s: ClientState)
    ensures var r := React(s, LeaveCallAction);
      r.next == s.(callEnded := true, reloaded := true) &&
      (r.sent != None <==> s.calledId != "" || s.caller != "") &&
      (s.calledId != "" ==> r.sent == Some(EndCallRequest(s.calledId))) &&
      (s.calledId == "" && s.caller != "" ==> r.sent == Some(EndCallRequest(s.caller)))
    ensures ShownButton(React(s, LeaveCallAction).next) == CallNowButton
  {
  }

  /** Lines 198, 223, 282 and 297 together: the remote video, the End Call button and the
      secondary local video go together, and the prompt never shows during a call. */
  lemma ViewIsConsistent(s: ClientState)
    ensures RemoteVideoShown(s) <==> ShownButton(s) == EndCallButton
    ensures RemoteVideoShown(s) <==> LocalVideoLayout(s) == Secondary
    ensures RemoteVideoShown(s) ==> !IncomingPromptShown(s)
  {
  }

  // ---- Traces ----

  function Run(s: ClientState, ins: seq<Input>): ClientState
    decreases |ins|
  {
    if ins == [] then s else Run(React(s, ins[0]).next, ins[1..])
  }

  /** The id carried by the last `me` notice of a trace, or `fallback` when there is none. */
  function LastMe(fallback: Id, ins: seq<Input>): Id
    decreases |ins|
  {
    if ins == [] then fallback
    else LastMe(if ins[0].Server? && ins[0].notice.Me? then ins[0].notice.id else fallback, ins[1..])
  }

  /** Lines 42-43: `me` always holds the id of the latest `me` notice. */
  lemma {:induction false} MeIsLatest(s: ClientState, ins: seq<Input>)
    ensures Run(s, ins).me == LastMe(s.me, ins)
    decreases |ins|
  {
    if ins != [] {
      MeIsLatest(React(s, ins[0]).next, ins[1..]);
    }
  }

  /** No handler ever clears `receivingCall`, `callAccepted` or `callEnded`. */
  lemma {:induction false} FlagsOnlyRise(s: ClientState, ins: seq<Input>)
    ensures s.receivingCall ==> Run(s, ins).receivingCall
    ensures s.callAccepted ==> Run(s, ins).callAccepted
    ensures s.callEnded ==> Run(s, ins).callEnded
    ensures s.reloaded ==> Run(s, ins).reloaded
    decreases |ins|
  {
    if ins != [] {
      FlagsOnlyRise(React(s, ins[0]).next, ins[1..]);
    }
  }

  /** Once the call has ended the page shows Call Now and no remote video for good;
      once a call was accepted the incoming-call prompt never comes back. */
  lemma EndedAndAnsweredAreFinal(s: ClientState, ins: seq<Input>)
    ensures s.callEnded ==> ShownButton(Run(s, ins)) == CallNowButton && !RemoteVideoShown(Run(s, ins))
    ensures s.callAccepted ==> !IncomingPromptShown(Run(s, ins))
  {
    FlagsOnlyRise(s, ins);
  }

  /** Every state the page can reach from its first render is coherent. */
  lemma {:induction false} RunKeepsCoherent(s: ClientState, ins: seq<Input>)
    requires Coherent(s)
    ensures Coherent(Run(s, ins))
    decreases |ins|
  {
    if ins != [] {
      ReactKeepsCoherent(s, ins[0]);
      RunKeepsCoherent(React(s, ins[0]).next, ins[1..]);
    }
  }

  /** The number of `callUser` actions in a trace. */
  function CallsPlaced(ins: seq<Input>): nat
    decreases |ins|
  {
    if ins == [] then 0 else (if ins[0].CallUserAction? then 1 else 0) + CallsPlaced(ins[1..])
  }

  /** The number of times a `callAccepted` listener closure runs: one notice runs every
      closure registered at that moment. */
  function ListenerRuns(s: ClientState, ins: seq<Input>): nat
    decreases |ins|
  {
    if ins == [] then 0
    else
      (if ins[0].Server? && ins[0].notice.CallAccepted? then s.acceptListeners else 0)
      + ListenerRuns(React(s, ins[0]).next, ins[1..])
  }

  /** Every listener a trace registers either has run once, and removed itself, or is
      still registered: runs plus registered listeners is conserved. */
  lemma {:induction false} ListenersConserved(s: ClientState, ins: seq<Input>)
    ensures ListenerRuns(s, ins) + Run(s, ins).acceptListeners == s.acceptListeners + CallsPlaced(ins)
    decreases |ins|
  {
    if ins != [] {
      ListenersConserved(React(s, ins[0]).next, ins[1..]);
    }
  }

  /** Lines 111-116: from first render, listener closures run at most once per `callUser`,
      and exactly once per `callUser` when none is left registered. */
  lemma ListenerRunsAtMostOncePerCall(ins: seq<Input>)
    ensures ListenerRuns(Initial, ins) <= CallsPlaced(ins)
    ensures Run(Initial, ins).acceptListeners == 0 <==> ListenerRuns(Initial, ins) == CallsPlaced(ins)
  {
    ListenersConserved(Initial, ins);
  }

  /** The call state of the running page: React state, refs and the socket's emit log. */
  class App {
    var me: Id
    var receivingCall: bool
    var caller: Id
    var name: string
    var callerSignal: Option<Signal>
    var callAccepted: bool
    var callEnded: bool
    var calledId: Id
    var acceptListeners: nat
    var reloaded: bool
    var sent: seq<Request>

    function State(): ClientState
      reads this
    {
      ClientState(me, receivingCall, caller, name, callerSignal, callAccepted, callEnded, calledId, acceptListeners, reloaded)
    }

    constructor ()
      ensures State() == Initial && sent == []
    {
      me, receivingCall, caller, name, callerSignal := "", false, "", "", None;
      callAccepted, callEnded, calledId, acceptListeners, reloaded := false, false, "", 0, false;
      sent := [];
    }

    /** `socket.on("me")`, line 43. */
    method OnMe(id: Id)
      requires !reloaded
      modifies this`me
      ensures me == id
      ensures State() == React(old(State()), Server(Me(id))).next && sent == old(sent)
    {
      me := id;
    }

    /** `socket.on("callUser")`, lines 45-50. */
    method OnCallUser(signal: Signal, from: Id, callerName: string)
      requires !reloaded
      modifies this`receivingCall, this`caller, this`name, this`callerSignal
      ensures receivingCall && caller == from && name == callerName && callerSignal == Some(signal)
      ensures State() == React(old(State()), Server(Notice.CallUser(signal, from, callerName))).next && sent == old(sent)
    {
      receivingCall := true;
      caller := from;
      name := callerName;
      callerSignal := Some(signal);
    }

    /** `socket.on("callEnded")`, lines 53-57: the page then reloads. */
    method OnCallEnded()
      requires !reloaded
      modifies this`callEnded, this`reloaded
      ensures callEnded && reloaded
      ensures State() == React(old(State()), Server(CallEnded)).next && sent == old(sent)
    {
      callEnded := true;
      reloaded := true;
    }

    /** The `callAccepted` notice, lines 111-116: each registered listener sets
        `callAccepted` and unregisters itself. */
    method OnCallAccepted(signal: Signal)
      requires !reloaded
      modifies this`callAccepted, this`acceptListeners
      ensures old(acceptListeners) > 0 ==> callAccepted && acceptListeners == 0
      ensures old(acceptListeners) == 0 ==> callAccepted == old(callAccepted) && acceptListeners == 0
      ensures State() == React(old(State()), Server(CallAccepted(signal))).next && sent == old(sent)
    {
      if acceptListeners > 0 {
        callAccepted := true;
        acceptListeners := 0;
      }
    }

    /** `callUser(id)`, lines 83-119, with `offer` the signal the peer library produces. */
    method CallUser(id: Id, offer: Signal)
      requires Enabled(State(), CallUserAction(id, offer))
      modifies this`calledId, this`acceptListeners, this`sent
      ensures calledId == id && acceptListeners == old(acceptListeners) + 1
      ensures sent == old(sent) + [CallUserRequest(id, offer, me, name)]
      ensures React(old(State()), CallUserAction(id, offer)) == Reaction(State(), Some(CallUserRequest(id, offer, me, name)))
    {
      calledId := id;
      sent := sent + [CallUserRequest(id, offer, me, name)];
      acceptListeners := acceptListeners + 1;
    }

    /** `answerCall()`, lines 121-146, with `answer` the signal the peer library produces. */
    method AnswerCall(answer: Signal)
      requires Enabled(State(), AnswerCallAction(answer))
      modifies this`callAccepted, this`calledId, this`sent
      ensures callAccepted && calledId == caller
      ensures sent == old(sent) + [AnswerCallRequest(answer, caller)]
      ensures React(old(State()), AnswerCallAction(answer)) == Reaction(State(), Some(AnswerCallRequest(answer, caller)))
    {
      callAccepted := true;
      calledId := caller;
      sent := sent + [AnswerCallRequest(answer, caller)];
    }

    /** `leaveCall()`, lines 148-157: the page then reloads. */
    method LeaveCall() returns (partner: Id)
      requires Enabled(State(), LeaveCallAction)
      modifies this`callEnded, this`reloaded, this`sent
      ensures partner == Partner(calledId, caller) && callEnded && reloaded
      ensures sent == old(sent) + (if partner != "" then [EndCallRequest(partner)] else [])
      ensures React(old(State()), LeaveCallAction).next == State()
    {
      callEnded := true;
      partner := if calledId != "" then calledId else caller;
      if partner != "" {
        sent := sent + [EndCallRequest(partner)];
      }
      reloaded := true;
    }

    /** The name input's `onChange`, line 251. */
    method TypeName(typed: string)
      requires !reloaded
      modifies this`name
      ensures name == typed
      ensures State() == React(old(State()), NameTyped(typed)).next && sent == old(sent)
    {
      name := typed;
    }
  }
}
