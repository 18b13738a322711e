/**
 The device as the program keeps it: a mutable current call and the channel of its session,
 changed in place by `step` and its helpers. Each method is held to the transition functions of
 `CallMachine`, so what is proved about those holds of the code's own order of updates.
 */
module CallDevice {
  import opened Common
  import opened CallMachine

  class Device {
    var current: Option<Call>
    /** Every command sent to a session, oldest first. */
    var channel: seq<Cmd>

    constructor ()
      ensures current == None && channel == []
    {
      current := None;
      channel := [];
    }

    method Send(cmd: Cmd)
      modifies this`channel
      ensures channel == old(channel) + [cmd]
    {
      channel := channel + [cmd];
    }

    method StopSession(call: Call)
      modifies this`channel
      ensures channel == old(channel) + StopCmds(call)
    {
      if call.session {
        Send(Cmd.Stop);
      }
    }

    /** Ends the current call, if there is one. */
    method Hang(reason: EndReason, clock: nat, fx: seq<Effect>) returns (out: seq<Effect>)
      modifies this
      ensures old(current).None? ==> current == None && out == fx && channel == old(channel)
      ensures old(current).Some? ==>
                var o := Finish(old(current).value, reason, clock, fx);
                current == o.state && out == o.fx && channel == old(channel) + o.cmds
    {
      out := fx;
      if current.None? {
        return;
      }
      var call := current.value;
      current := None;
      StopSession(call);
      var duration := Duration(call, clock);
      var verdict := VerdictOf(call, reason, clock);
      out := out + [Record(call.conversation, call.peer, call.id, verdict, call.outgoing)];
      out := out + [Emit(CallEvent.Ended(call.id, call.peer, call.conversation, reason, duration))];
    }

    method TakeRemote(remote: Remote)
      requires current.Some?
      modifies this
      ensures var (next, cmds) := OfferRemote(old(current).value, remote);
              current == Some(next) && channel == old(channel) + cmds
    {
      var call := current.value;
      if call.session {
        Send(Cmd.Remote(remote));
        var i := 0;
        while i < |call.early|
          invariant 0 <= i <= |call.early|
          invariant current == old(current)
          invariant channel == old(channel) + [Cmd.Remote(remote)] + Candidates(call.early)[..i]
        {
          Send(Cmd.Candidate(call.early[i]));
          i := i + 1;
        }
        call := call.(early := []);
      } else {
        call := call.(early := call.early + remote.candidates);
      }
      current := Some(call.(remote := Some(remote)));
    }

    method Restart(theirs: Option<Remote>, fx: seq<Effect>) returns (out: seq<Effect>)
      requires current.Some?
      modifies this
      ensures var r := BeginRestart(old(current).value, theirs);
              current == Some(r.call) && out == fx + r.fx && channel == old(channel) + r.cmds
    {
      out := fx;
      var call := current.value;
      if call.phase.Connected? {
        current := Some(call.(phase := Phase.Reconnecting));
        out := out + [Emit(CallEvent.Reconnecting(call.id))];
        out := out + [Arm(RECONNECT_TIMEOUT, call.id, Phase.Reconnecting, Expiry.Failed)];
      }
      current := Some(current.value.(early := []));
      if call.session {
        Send(Cmd.Restart);
      }
      match theirs {
        case Some(remote) => TakeRemote(remote);
        case None =>
          current := Some(current.value.(restartGen := call.restartGen + 1));
          if call.remote.Some? {
            current := Some(current.value.(remote := Some(call.remote.value.(candidates := []))));
          }
      }
    }

    method TakeOffer(offer: OfferIn) returns (fx: seq<Effect>)
      modifies this
      ensures var o := OnOffer(old(current), offer);
              current == o.state && fx == o.fx && channel == old(channel) + o.cmds
    {
      fx := [];
      if !offer.paired {
        return;
      }
      if IsExpired(offer) {
        fx := fx + [Record(offer.conversation, offer.from, offer.call, Verdict.Missed, false)];
        fx := fx + [Emit(CallEvent.Ended(offer.call, offer.from, offer.conversation, EndReason.Missed, 0))];
        return;
      }
      if current.Some? {
        var c := current.value;
        if c.id == offer.call {
          return;
        }
        if c.phase.Offering? && c.peer == offer.from {
          if offer.from < offer.me {
            StopSession(c);
            current := Some(AnsweringCall(offer, Phase.Connecting, c.muted));
            fx := fx + [Emit(CallEvent.Switched(c.id, offer.call, offer.video))];
            fx := fx + [Emit(CallEvent.Connecting(offer.call))];
            fx := fx + [StartSession(offer.call, Role.Callee, offer.video)];
            fx := fx + [Arm(CONNECT_TIMEOUT, offer.call, Phase.Connecting, Expiry.Failed)];
          }
          return;
        }
        fx := fx + [Signal(offer.conversation, Msg.End(offer.call, WireEnd.Busy))];
        return;
      }
      if !offer.media {
        return;
      }
      current := Some(AnsweringCall(offer, Phase.Ringing, false));
      fx := fx + [Signal(offer.conversation, Msg.Ringing(offer.call))];
      fx := fx + [Emit(CallEvent.Incoming(offer.call, offer.from, offer.conversation, offer.video))];
      fx := fx + [Arm(RingFor(offer), offer.call, Phase.Ringing, Expiry.Missed)];
    }

    method TakeSignal(msg: Msg, clock: nat) returns (fx: seq<Effect>)
      modifies this
      ensures var o := OnSignal(old(current), msg, clock);
              current == o.state && fx == o.fx && channel == old(channel) + o.cmds
    {
      fx := [];
      var mine := current.Some? && current.value.id == msg.call;
      match msg {
        case Offer(_, _, _, _) =>
        case Ringing(call) =>
          if mine && current.value.phase.Offering? {
            fx := fx + [Emit(CallEvent.Ringing(call))];
          }
        case Answer(call, remote) =>
          if mine && current.value.phase.Offering? {
            current := Some(current.value.(phase := Phase.Connecting));
            TakeRemote(remote);
            fx := fx + [Emit(CallEvent.Connecting(call))];
          }
          fx := fx + [Arm(CONNECT_TIMEOUT, call, Phase.Connecting, Expiry.Failed)];
        case Candidate(_, c) =>
          if mine {
            if current.value.session {
              Send(Cmd.Candidate(c));
            } else {
              current := Some(current.value.(early := current.value.early + [c]));
            }
          }
        case Media(call, muted) =>
          if mine {
            current := Some(current.value.(peerMuted := muted));
            fx := fx + [Emit(CallEvent.PeerMuted(call, muted))];
          }
        case Camera(call, on) =>
          if mine {
            fx := fx + [Emit(CallEvent.PeerCamera(call, on))];
          }
        case Restart(_, generation, _, _, _) =>
          if mine && UpOrRestarting(current.value.phase) {
            var remote := RestartRemote(current.value, msg);
            if generation > current.value.restartGen {
              current := Some(current.value.(restartGen := generation));
              fx := Restart(Some(remote), fx);
            } else {
              TakeRemote(remote);
            }
          }
        case End(_, reason) =>
          if mine {
            fx := Hang(EndedByPeer(reason, current.value.phase), clock, fx);
          }
      }
    }

    method TakeSession(id: Id, event: SessionEvent, now: nat, clock: nat) returns (fx: seq<Effect>)
      modifies this
      ensures var o := OnSession(old(current), id, event, now, clock);
              current == o.state && fx == o.fx && channel == old(channel) + o.cmds
    {
      fx := [];
      if current.None? || current.value.id != id {
        return;
      }
      var call := current.value;
      match event {
        case Local(params) =>
          var msg := LocalMsg(call, params, now);
          if msg.Some? {
            fx := fx + [Signal(call.conversation, msg.value)];
          }
        case Connected =>
          if call.phase.Connecting? || call.phase.Reconnecting? {
            current := Some(call.(phase := Phase.Connected));
            if call.connectedAt.None? {
              current := Some(current.value.(connectedAt := Some(clock)));
            }
            fx := fx + [Emit(CallEvent.Connected(id))];
          }
        case Disconnected =>
          if call.phase.Connected? {
            fx := Restart(None, fx);
          }
        case Expiring =>
          if UpOrRestarting(call.phase) {
            fx := Restart(None, fx);
          }
        case Video(frame, keyframe) => fx := fx + [VideoFrame(frame, keyframe)];
        case KeyframeNeeded => fx := fx + [Keyframe];
        case Bitrate(kbps) => fx := fx + [Effect.Bitrate(kbps)];
        case Failed =>
          fx := fx + [Signal(call.conversation, Msg.End(id, WireEnd.Failed))];
          fx := Hang(EndReason.Failed, clock, fx);
      }
    }

    method TakeHangup(clock: nat) returns (fx: seq<Effect>)
      requires current.Some?
      modifies this
      ensures var o := OnHangup(old(current).value, clock);
              current == o.state && fx == o.fx && channel == old(channel) + o.cmds
    {
      var wire, reason;
      match current.value.phase {
        case Offering => wire, reason := WireEnd.Hangup, EndReason.Cancelled;
        case Ringing => wire, reason := WireEnd.Declined, EndReason.Declined;
        case _ => wire, reason := WireEnd.Hangup, EndReason.Hangup;
      }
      fx := Hang(reason, clock, Bye(current.value, wire));
    }

    method TakeExpiry(id: Id, phase: Phase, expiry: Expiry, clock: nat) returns (fx: seq<Effect>)
      modifies this
      ensures var o := OnExpired(old(current), id, phase, expiry, clock);
              current == o.state && fx == o.fx && channel == old(channel) + o.cmds
    {
      fx := [];
      if current.Some? && current.value.id == id && current.value.phase == phase {
        var reason;
        match expiry {
          case Unanswered =>
            fx := fx + Bye(current.value, WireEnd.Unanswered);
            reason := EndReason.Unanswered;
          case Failed =>
            fx := fx + Bye(current.value, WireEnd.Failed);
            reason := EndReason.Failed;
          case Missed => reason := EndReason.Missed;
        }
        fx := Hang(reason, clock, fx);
      }
    }

    /** `ok` is false when a user action is refused. */
    method Apply(input: Input, clock: nat) returns (ok: bool, fx: seq<Effect>)
      modifies this
      ensures var o := Step(old(current), input, clock);
              && ok == o.Moved?
              && current == After(old(current), o)
              && fx == Fx(o)
              && channel == old(channel) + Cmds(o)
    {
      ok, fx := true, [];
      match input {
        case Start(id, peer, conversation, video) =>
          if current.Some? {
            ok := false;
            return;
          }
          current := Some(OutgoingCall(id, peer, conversation, video));
          fx := fx + [Emit(CallEvent.Outgoing(id, peer, conversation))];
          fx := fx + [StartSession(id, Role.Caller, video)];
          fx := fx + [Arm(RING_TIMEOUT, id, Phase.Offering, Expiry.Unanswered)];
        case Accept(id) =>
          if !(current.Some? && current.value.id == id && current.value.phase.Ringing?) {
            ok := false;
            return;
          }
          current := Some(current.value.(phase := Phase.Connecting));
          fx := fx + [Emit(CallEvent.Connecting(id))];
          fx := fx + [StartSession(id, Role.Callee, current.value.video)];
          fx := fx + [Arm(CONNECT_TIMEOUT, id, Phase.Connecting, Expiry.Failed)];
        case Reject(id) =>
          if current.Some? && current.value.id == id && current.value.phase.Ringing? {
            fx := Hang(EndReason.Declined, clock, fx + Bye(current.value, WireEnd.Declined));
          }
        case Hangup(id) =>
          if current.Some? && current.value.id == id {
            fx := TakeHangup(clock);
          }
        case Muted(muted) =>
          if current.Some? {
            current := Some(current.value.(muted := muted));
            if UpOrRestarting(current.value.phase) {
              fx := fx + [Signal(current.value.conversation, Msg.Media(current.value.id, muted))];
            }
          }
        case Camera(on) =>
          if current.Some? && current.value.video && UpOrRestarting(current.value.phase) {
            fx := fx + [Signal(current.value.conversation, Msg.Camera(current.value.id, on))];
          }
        case NetworkChanged =>
          if current.Some? && UpOrRestarting(current.value.phase) {
            fx := Restart(None, fx);
          }
        case Offered(offer) => fx := TakeOffer(offer);
        case Signalled(msg) => fx := TakeSignal(msg, clock);
        case Expired(id, phase, expiry) => fx := TakeExpiry(id, phase, expiry, clock);
        case Session(id, event, now) => fx := TakeSession(id, event, now, clock);
        case OfferLost(id) =>
          if current.Some? && current.value.id == id {
            fx := Hang(EndReason.Failed, clock, fx);
          }
      }
    }

    method SpawnSession(id: Id)
      modifies this
      ensures var (next, cmds) := Spawn(old(current), id);
              current == next && channel == old(channel) + cmds
    {
      if current.None? || current.value.id != id {
        return;
      }
      current := Some(current.value.(session := true));
      if current.value.remote.Some? {
        TakeRemote(current.value.remote.value);
      }
    }
  }
}
