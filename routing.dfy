/** End-to-end routing: what a client emits, passed through the relay, and what the
    receiving client does with it (Backend/src/server.js with Frontend/src/App.jsx). */
module Routing {
  import opened Wire
  import R = Relay
  import C = Client

  /** `leaveCall` reaches exactly the chosen partner, when that partner is live, and
      nobody else; with no partner nothing is emitted at all. */
  lemma LeaveCallReachesExactlyPartner(r: R.RelayState, c: C.ClientState, self: Id, y: Id)
    ensures var rx := C.React(c, C.LeaveCallAction);
      rx.sent.Some? <==> C.Partner(c.calledId, c.caller) != ""
    ensures var rx := C.React(c, C.LeaveCallAction);
      var partner := C.Partner(c.calledId, c.caller);
      rx.sent.Some? ==>
        R.Inbox(R.Step(r, R.Received(self, rx.sent.value)).outbox, y)
        == R.Inbox(r.outbox, y) + (if y == partner && partner in r.connected then [CallEnded] else [])
  {
    var rx := C.React(c, C.LeaveCallAction);
    if rx.sent.Some? {
      R.EndCallRelayed(r, self, C.Partner(c.calledId, c.caller), y);
    }
  }

  /** A disconnect ends the call of every other live client, whether or not it was in a
      call with the leaver; the leaver hears nothing. */
  lemma DisconnectEndsEveryOtherCall(r: R.RelayState, leaver: Id, y: Id, c: C.ClientState)
    requires y in r.connected && y != leaver
    ensures R.Inbox(R.Step(r, R.Disconnected(leaver)).outbox, y) == R.Inbox(r.outbox, y) + [CallEnded]
    ensures R.Inbox(R.Step(r, R.Disconnected(leaver)).outbox, leaver) == R.Inbox(r.outbox, leaver)
    ensures var c' := C.React(c, C.Server(CallEnded)).next;
      !C.InCall(c') && c'.reloaded && C.ShownButton(c') == C.CallNowButton
  {
    R.DisconnectBroadcast(r, leaver, y);
    R.DisconnectBroadcast(r, leaver, leaver);
  }

  /** After `leaveCall` the page reloads, which closes its connection: the partner is then
      told twice that the call ended, once by `endCall` and once by the disconnect. */
  lemma HangupNotifiesPartnerTwice(r: R.RelayState, self: Id, partner: Id)
    requires self in r.connected && partner in r.connected && self != partner
    ensures R.Inbox(R.Run(r, [R.Received(self, EndCallRequest(partner)), R.Disconnected(self)]).outbox, partner)
         == R.Inbox(r.outbox, partner) + [CallEnded, CallEnded]
  {
    var r1 := R.Step(r, R.Received(self, EndCallRequest(partner)));
    R.EndCallRelayed(r, self, partner, partner);
    R.DisconnectBroadcast(r1, self, partner);
    var es := [R.Received(self, EndCallRequest(partner)), R.Disconnected(self)];
    assert R.Run(r, es) == R.Run(r1, [R.Disconnected(self)]) by {
      assert es[0] == R.Received(self, EndCallRequest(partner)) && es[1..] == [R.Disconnected(self)];
    }
    assert R.Run(r1, [R.Disconnected(self)]) == R.Step(r1, R.Disconnected(self)) by {
      assert [R.Disconnected(self)][1..] == [];
    }
  }

  /** The relay does not stamp `from`: a callee answers whatever id the caller's request
      claimed, so a request claiming `claimed` makes the answer go to `claimed`. */
  lemma AnswerFollowsClaimedFrom(r: R.RelayState, sender: Id, callee: Id, claimed: Id,
                                 offer: Signal, answer: Signal, name: string, b: C.ClientState)
    requires callee in r.connected
    requires C.Enabled(b, C.Server(CallUser(offer, claimed, name))) && !b.callAccepted
    ensures R.Inbox(R.Step(r, R.Received(sender, CallUserRequest(callee, offer, claimed, name))).outbox, callee)
         == R.Inbox(r.outbox, callee) + [CallUser(offer, claimed, name)]
    ensures var b1 := C.React(b, C.Server(CallUser(offer, claimed, name))).next;
      C.Enabled(b1, C.AnswerCallAction(answer)) &&
      C.React(b1, C.AnswerCallAction(answer)).sent == Some(AnswerCallRequest(answer, claimed))
  {
    R.CallUserRelayed(r, sender, callee, offer, claimed, name, callee);
  }

  /** The offer half of the handshake, at the relay: the `callUser` that a caller who
      knows its own id emits reaches only the callee; every other inbox `y` is unchanged. */
  lemma OfferReachesCallee(r: R.RelayState, a: C.ClientState, ida: Id, idb: Id, offer: Signal, y: Id)
    requires ida in r.connected && idb in r.connected && ida != idb
    requires a.me == ida
    ensures C.React(a, C.CallUserAction(idb, offer)).sent == Some(CallUserRequest(idb, offer, ida, a.name))
    ensures var r1 := R.Step(r, R.Received(ida, CallUserRequest(idb, offer, ida, a.name)));
      && R.Inbox(r1.outbox, idb) == R.Inbox(r.outbox, idb) + [CallUser(offer, ida, a.name)]
      && R.Inbox(r1.outbox, ida) == R.Inbox(r.outbox, ida)
      && r1.connected == r.connected
    ensures var r1 := R.Step(r, R.Received(ida, CallUserRequest(idb, offer, ida, a.name)));
      R.Inbox(r1.outbox, y) == R.Inbox(r.outbox, y) + (if y == idb then [CallUser(offer, ida, a.name)] else [])
  {
    R.CallUserRelayed(r, ida, idb, offer, ida, a.name, idb);
    R.CallUserRelayed(r, ida, idb, offer, ida, a.name, ida);
    R.CallUserRelayed(r, ida, idb, offer, ida, a.name, y);
  }

  /** The offer half at the callee: a callee not yet in a call is prompted, remembers the
      caller, and may answer. */
  lemma CalleeIsPrompted(b: C.ClientState, ida: Id, offer: Signal, callerName: string, answer: Signal)
    requires !b.reloaded && !b.callAccepted
    ensures var b1 := C.React(b, C.Server(CallUser(offer, ida, callerName))).next;
      && C.IncomingPromptShown(b1) && b1.caller == ida && b1.callerSignal == Some(offer)
      && b1.callEnded == b.callEnded && C.Enabled(b1, C.AnswerCallAction(answer))
  {
  }

  /** The answer half of the handshake, at the relay: the callee's answer reaches only
      the caller, as `callAccepted`; every other inbox `y` is unchanged. */
  lemma AnswerReachesCaller(r: R.RelayState, ida: Id, idb: Id, answer: Signal, y: Id)
    requires ida in r.connected && idb in r.connected && ida != idb
    ensures var r2 := R.Step(r, R.Received(idb, AnswerCallRequest(answer, ida)));
      && R.Inbox(r2.outbox, ida) == R.Inbox(r.outbox, ida) + [CallAccepted(answer)]
      && R.Inbox(r2.outbox, idb) == R.Inbox(r.outbox, idb)
    ensures var r2 := R.Step(r, R.Received(idb, AnswerCallRequest(answer, ida)));
      R.Inbox(r2.outbox, y) == R.Inbox(r.outbox, y) + (if y == ida then [CallAccepted(answer)] else [])
  {
    R.AnswerCallRelayed(r, idb, answer, ida, ida);
    R.AnswerCallRelayed(r, idb, answer, ida, idb);
    R.AnswerCallRelayed(r, idb, answer, ida, y);
  }

  /** The answer half at the callee: answering addresses the caller, enters the call and
      makes a later `leaveCall` go to the caller. */
  lemma CalleeJoinsCall(b: C.ClientState, ida: Id, answer: Signal)
    requires ida != "" && b.caller == ida && !b.callEnded
    ensures var rb := C.React(b, C.AnswerCallAction(answer));
      && rb.sent == Some(AnswerCallRequest(answer, ida))
      && C.InCall(rb.next)
      && C.React(rb.next, C.LeaveCallAction).sent == Some(EndCallRequest(ida))
  {
  }

  /** The answer half at the caller: the armed listener fires, the caller enters the call
      and a later `leaveCall` goes to the callee. */
  lemma CallerJoinsCall(a: C.ClientState, idb: Id, answer: Signal)
    requires idb != "" && a.calledId == idb && a.acceptListeners > 0 && !a.callEnded
    ensures var a1 := C.React(a, C.Server(CallAccepted(answer))).next;
      && C.InCall(a1)
      && C.React(a1, C.LeaveCallAction).sent == Some(EndCallRequest(idb))
  {
  }

  /** The full handshake between two clients that know their own ids, composed from the
      client halves: afterwards both are in the call and each addresses the other. The
      relay halves, that the offer and the answer reach only their targets, are
      `OfferReachesCallee` and `AnswerReachesCaller`. */
  lemma HandshakeConnectsBoth(a: C.ClientState, b: C.ClientState,
                              ida: Id, idb: Id, offer: Signal, answer: Signal)
    requires ida != "" && idb != ""
    requires a.me == ida && C.Coherent(a) && C.Enabled(a, C.CallUserAction(idb, offer))
    requires C.Coherent(b) && !b.reloaded && !b.callAccepted
    ensures var a1 := C.React(C.React(a, C.CallUserAction(idb, offer)).next, C.Server(CallAccepted(answer))).next;
      var b2 := C.React(C.React(b, C.Server(CallUser(offer, ida, a.name))).next, C.AnswerCallAction(answer)).next;
      && C.InCall(a1) && C.InCall(b2)
      && C.React(a1, C.LeaveCallAction).sent == Some(EndCallRequest(idb))
      && C.React(b2, C.LeaveCallAction).sent == Some(EndCallRequest(ida))
  {
    var ra := C.React(a, C.CallUserAction(idb, offer));
    assert ra.next.calledId == idb && ra.next.acceptListeners > 0 && !ra.next.callEnded;
    CallerJoinsCall(ra.next, idb, answer);
    CalleeIsPrompted(b, ida, offer, a.name, answer);
    var b1 := C.React(b, C.Server(CallUser(offer, ida, a.name))).next;
    CalleeJoinsCall(b1, ida, answer);
  }

  /** A page that receives `callEnded` reloads, and its own disconnect then tells every
      other live page again: two disconnects give a third page two `callEnded`. */
  lemma ReloadRebroadcasts(r: R.RelayState, leaver: Id, y: Id, z: Id)
    requires leaver in r.connected && y in r.connected && z in r.connected
    requires leaver != y && y != z && z != leaver
    ensures R.Inbox(R.Step(r, R.Disconnected(leaver)).outbox, y) == R.Inbox(r.outbox, y) + [CallEnded]
    ensures R.Inbox(R.Step(R.Step(r, R.Disconnected(leaver)), R.Disconnected(y)).outbox, z)
         == R.Inbox(r.outbox, z) + [CallEnded, CallEnded]
  {
    R.DisconnectBroadcast(r, leaver, y);
    R.DisconnectBroadcast(r, leaver, z);
    R.DisconnectBroadcast(R.Step(r, R.Disconnected(leaver)), y, z);
  }
}
