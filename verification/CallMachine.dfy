/**
 The call state machine of libcore/src/call/mod.rs as values: one device is an
 `Option<Call>`, and every transition yields the next state, the effects to run in order,
 and the commands sent straight to the call's media session.
 */
module CallMachine {
  import opened Common

  /** 16-byte call and conversation ids, compared only for equality. */
  type Id = nat

  /** 32-byte identity keys; their byte order is the order of the number they spell. */
  type Key = nat

  type Candidate = nat

  // Durations and clocks are in milliseconds.
  const OFFER_LIFE: nat := 40_000
  const CLOCK_SKEW: nat := 5_000
  const RING_TIMEOUT: nat := 45_000
  const CONNECT_TIMEOUT: nat := 20_000
  const RECONNECT_TIMEOUT: nat := 20_000

  datatype Phase = Offering | Ringing | Connecting | Connected | Reconnecting

  datatype Remote = Remote(ufrag: string, pwd: string, fingerprint: seq<bv8>, ssrc: nat,
                           videoSsrc: nat, candidates: seq<Candidate>)

  /** `muted` is the flag of the call's audio path; `session` says whether a session is attached. */
  datatype Call = Call(id: Id, peer: Key, conversation: Id, outgoing: bool, video: bool,
                       phase: Phase, connectedAt: Option<nat>, peerMuted: bool, muted: bool,
                       session: bool, remote: Option<Remote>, early: seq<Candidate>,
                       restartGen: nat)

  datatype Role = Caller | Callee

  datatype WireEnd = Hangup | Declined | Busy | Failed | Unanswered

  datatype EndReason = Hangup | Cancelled | Declined | Busy | Unanswered | Missed | Failed

  datatype Msg =
    | Offer(call: Id, expiresAt: nat, video: bool, remote: Remote)
    | Ringing(call: Id)
    | Answer(call: Id, remote: Remote)
    | Candidate(call: Id, candidate: Candidate)
    | Media(call: Id, muted: bool)
    | Camera(call: Id, on: bool)
    | Restart(call: Id, generation: nat, ufrag: string, pwd: string, candidates: seq<Candidate>)
    | End(call: Id, reason: WireEnd)

  datatype Expiry = Unanswered | Failed | Missed

  datatype SessionEvent =
    | Local(params: Remote)
    | Connected
    | Disconnected
    | Expiring
    | Video(frame: seq<bv8>, keyframe: bool)
    | KeyframeNeeded
    | Bitrate(kbps: nat)
    | Failed

  /** An offer and what deciding on it needs from outside the call; `media` is whether a
      certificate and an audio path could be built for it. */
  datatype OfferIn = OfferIn(from: Key, conversation: Id, call: Id, expiresAt: nat, video: bool,
                             remote: Remote, paired: bool, me: Key, now: nat, media: bool)

  datatype Input =
    | Start(id: Id, peer: Key, conversation: Id, video: bool)
    | Accept(id: Id)
    | Reject(id: Id)
    | Hangup(id: Id)
    | Muted(muted: bool)
    | Camera(on: bool)
    | NetworkChanged
    | Offered(offer: OfferIn)
    | Signalled(msg: Msg)
    | Expired(id: Id, phase: Phase, expiry: Expiry)
    | Session(id: Id, event: SessionEvent, now: nat)
    | OfferLost(id: Id)

  datatype CallEvent =
    | Outgoing(call: Id, peer: Key, conversation: Id)
    | Incoming(call: Id, peer: Key, conversation: Id, video: bool)
    | Ringing(call: Id)
    | Connecting(call: Id)
    | Connected(call: Id)
    | Reconnecting(call: Id)
    | PeerMuted(call: Id, muted: bool)
    | PeerCamera(call: Id, on: bool)
    | Switched(from: Id, to: Id, video: bool)
    | Ended(call: Id, peer: Key, conversation: Id, reason: EndReason, duration: nat)

  /** How the recorded row reads; `Answered` carries whole seconds. */
  datatype Verdict = Answered(seconds: nat) | Cancelled | Declined | Busy | Unanswered | Missed | Failed

  datatype Effect =
    | Signal(conversation: Id, msg: Msg)
    | Emit(event: CallEvent)
    | Arm(delay: nat, id: Id, phase: Phase, expiry: Expiry)
    | StartSession(id: Id, role: Role, video: bool)
    | Record(conversation: Id, peer: Key, id: Id, verdict: Verdict, outgoing: bool)
    | VideoFrame(frame: seq<bv8>, keyframe: bool)
    | Keyframe
    | Bitrate(kbps: nat)

  datatype Cmd = Remote(remote: Remote) | Candidate(candidate: Candidate) | Restart | Stop

  /** A refused user action changes nothing. */
  datatype Outcome = Refused | Moved(state: Option<Call>, fx: seq<Effect>, cmds: seq<Cmd>)

  predicate UpOrRestarting(phase: Phase) {
    phase.Connected? || phase.Reconnecting?
  }

  function Candidates(cs: seq<Candidate>): seq<Cmd> {
    seq(|cs|, i requires 0 <= i < |cs| => Cmd.Candidate(cs[i]))
  }

  /** The peer's parameters, handed to the session if there is one and kept either way. */
  function OfferRemote(call: Call, remote: Remote): (Call, seq<Cmd>) {
    if call.session then
      (call.(early := [], remote := Some(remote)), [Cmd.Remote(remote)] + Candidates(call.early))
    else
      (call.(early := call.early + remote.candidates, remote := Some(remote)), [])
  }

  datatype Restarted = Restarted(call: Call, fx: seq<Effect>, cmds: seq<Cmd>)

  function BeginRestart(call: Call, theirs: Option<Remote>): Restarted {
    var fx := if call.phase.Connected? then
                [Emit(CallEvent.Reconnecting(call.id)),
                 Arm(RECONNECT_TIMEOUT, call.id, Phase.Reconnecting, Expiry.Failed)]
              else [];
    var phase := if call.phase.Connected? then Phase.Reconnecting else call.phase;
    var cleared := call.(phase := phase, early := []);
    var restart := if call.session then [Cmd.Restart] else [];
    match theirs
    case Some(remote) =>
      var (next, cmds) := OfferRemote(cleared, remote);
      Restarted(next, fx, restart + cmds)
    case None =>
      var kept := match call.remote
        case Some(r) => Some(r.(candidates := []))
        case None => None;
      Restarted(cleared.(restartGen := call.restartGen + 1, remote := kept), fx, restart)
  }

  function Duration(call: Call, clock: nat): nat {
    match call.connectedAt
    case Some(t) => if t <= clock then clock - t else 0
    case None => 0
  }

  function VerdictOf(call: Call, reason: EndReason, clock: nat): Verdict {
    if (reason.Hangup? || reason.Failed?) && call.connectedAt.Some? then
      Verdict.Answered(Duration(call, clock) / 1_000)
    else
      match reason
      case Hangup => Verdict.Cancelled
      case Cancelled => Verdict.Cancelled
      case Declined => Verdict.Declined
      case Busy => Verdict.Busy
      case Unanswered => Verdict.Unanswered
      case Missed => Verdict.Missed
      case Failed => Verdict.Failed
  }

  /** What ending `call` asks for: its row, then the platform's notice. */
  function Farewell(call: Call, reason: EndReason, clock: nat): seq<Effect> {
    [Record(call.conversation, call.peer, call.id, VerdictOf(call, reason, clock), call.outgoing),
     Emit(CallEvent.Ended(call.id, call.peer, call.conversation, reason, Duration(call, clock)))]
  }

  function StopCmds(call: Call): seq<Cmd> {
    if call.session then [Cmd.Stop] else []
  }

  function Finish(call: Call, reason: EndReason, clock: nat, fx: seq<Effect>): Outcome {
    Moved(None, fx + Farewell(call, reason, clock), StopCmds(call))
  }

  function Bye(call: Call, reason: WireEnd): seq<Effect> {
    [Signal(call.conversation, Msg.End(call.id, reason))]
  }

  predicate IsExpired(offer: OfferIn) {
    offer.now > Min(offer.expiresAt + CLOCK_SKEW, U64_MAX)
  }

  function AnsweringCall(offer: OfferIn, phase: Phase, muted: bool): Call {
    Call(offer.call, offer.from, offer.conversation, false, offer.video, phase, None, false, muted,
         false, Some(offer.remote), [], 0)
  }

  function RingFor(offer: OfferIn): nat {
    Min(Max(offer.expiresAt - offer.now, 0), RING_TIMEOUT)
  }

  function OnOffer(state: Option<Call>, offer: OfferIn): Outcome {
    if !offer.paired then Moved(state, [], [])
    else if IsExpired(offer) then
      Moved(state,
            [Record(offer.conversation, offer.from, offer.call, Verdict.Missed, false),
             Emit(CallEvent.Ended(offer.call, offer.from, offer.conversation, EndReason.Missed, 0))],
            [])
    else match state
      case None =>
        if !offer.media then Moved(None, [], [])
        else
          Moved(Some(AnsweringCall(offer, Phase.Ringing, false)),
                [Signal(offer.conversation, Msg.Ringing(offer.call)),
                 Emit(CallEvent.Incoming(offer.call, offer.from, offer.conversation, offer.video)),
                 Arm(RingFor(offer), offer.call, Phase.Ringing, Expiry.Missed)],
                [])
      case Some(c) =>
        if c.id == offer.call then Moved(state, [], [])
        else if c.phase.Offering? && c.peer == offer.from then
          if offer.from < offer.me then
            Moved(Some(AnsweringCall(offer, Phase.Connecting, c.muted)),
                  [Emit(CallEvent.Switched(c.id, offer.call, offer.video)),
                   Emit(CallEvent.Connecting(offer.call)),
                   StartSession(offer.call, Role.Callee, offer.video),
                   Arm(CONNECT_TIMEOUT, offer.call, Phase.Connecting, Expiry.Failed)],
                  StopCmds(c))
          else Moved(state, [], [])
        else Moved(state, [Signal(offer.conversation, Msg.End(offer.call, WireEnd.Busy))], [])
  }

  /** Why a call ends here when the peer ends it there. */
  function EndedByPeer(reason: WireEnd, phase: Phase): EndReason {
    match reason
    case Busy => EndReason.Busy
    case Declined => EndReason.Declined
    case Failed => EndReason.Failed
    case Unanswered => if phase.Ringing? then EndReason.Missed else EndReason.Unanswered
    case Hangup =>
      if phase.Ringing? then EndReason.Missed
      else if phase.Offering? || phase.Connecting? then EndReason.Cancelled
      else EndReason.Hangup
  }

  /** A restart keeps the fingerprint and streams of the first exchange. */
  function RestartRemote(call: Call, msg: Msg): Remote
    requires msg.Restart?
  {
    match call.remote
    case Some(r) => Remote.Remote(msg.ufrag, msg.pwd, r.fingerprint, r.ssrc, r.videoSsrc, msg.candidates)
    case None => Remote.Remote(msg.ufrag, msg.pwd, seq(32, i => 0), 0, 0, msg.candidates)
  }

  function OnSignal(state: Option<Call>, msg: Msg, clock: nat): Outcome {
    var mine := state.Some? && state.value.id == msg.call;
    match msg
    case Offer(_, _, _, _) => Moved(state, [], [])
    case Ringing(call) =>
      Moved(state, if mine && state.value.phase.Offering? then [Emit(CallEvent.Ringing(call))] else [], [])
    case Answer(call, remote) =>
      var arm := [Arm(CONNECT_TIMEOUT, call, Phase.Connecting, Expiry.Failed)];
      if mine && state.value.phase.Offering? then
        var (next, cmds) := OfferRemote(state.value.(phase := Phase.Connecting), remote);
        Moved(Some(next), [Emit(CallEvent.Connecting(call))] + arm, cmds)
      else Moved(state, arm, [])
    case Candidate(_, c) =>
      if !mine then Moved(state, [], [])
      else if state.value.session then Moved(state, [], [Cmd.Candidate(c)])
      else Moved(Some(state.value.(early := state.value.early + [c])), [], [])
    case Media(call, muted) =>
      if mine then
        Moved(Some(state.value.(peerMuted := muted)), [Emit(CallEvent.PeerMuted(call, muted))], [])
      else Moved(state, [], [])
    case Camera(call, on) =>
      Moved(state, if mine then [Emit(CallEvent.PeerCamera(call, on))] else [], [])
    case Restart(_, generation, _, _, _) =>
      if mine && UpOrRestarting(state.value.phase) then
        var remote := RestartRemote(state.value, msg);
        if generation > state.value.restartGen then
          var r := BeginRestart(state.value.(restartGen := generation), Some(remote));
          Moved(Some(r.call), r.fx, r.cmds)
        else
          var (next, cmds) := OfferRemote(state.value, remote);
          Moved(Some(next), [], cmds)
      else Moved(state, [], [])
    case End(_, reason) =>
      if mine then Finish(state.value, EndedByPeer(reason, state.value.phase), clock, [])
      else Moved(state, [], [])
  }

  function WithRestart(call: Call): Outcome {
    var r := BeginRestart(call, None);
    Moved(Some(r.call), r.fx, r.cmds)
  }

  /** What a gathered session sends, by where the call stands. */
  function LocalMsg(call: Call, params: Remote, now: nat): Option<Msg> {
    match call.phase
    case Offering => Some(Msg.Offer(call.id, now + OFFER_LIFE, call.video, params))
    case Connecting => if call.outgoing then None else Some(Msg.Answer(call.id, params))
    case Connected => Some(Msg.Restart(call.id, call.restartGen, params.ufrag, params.pwd, params.candidates))
    case Reconnecting => Some(Msg.Restart(call.id, call.restartGen, params.ufrag, params.pwd, params.candidates))
    case Ringing => None
  }

  function OnSession(state: Option<Call>, id: Id, event: SessionEvent, now: nat, clock: nat): Outcome {
    if state.None? || state.value.id != id then Moved(state, [], [])
    else
      var call := state.value;
      match event
      case Local(params) =>
        (match LocalMsg(call, params, now)
         case Some(msg) => Moved(state, [Signal(call.conversation, msg)], [])
         case None => Moved(state, [], []))
      case Connected =>
        if call.phase.Connecting? || call.phase.Reconnecting? then
          var at := if call.connectedAt.Some? then call.connectedAt else Some(clock);
          Moved(Some(call.(phase := Phase.Connected, connectedAt := at)), [Emit(CallEvent.Connected(id))], [])
        else Moved(state, [], [])
      case Disconnected => if call.phase.Connected? then WithRestart(call) else Moved(state, [], [])
      case Expiring => if UpOrRestarting(call.phase) then WithRestart(call) else Moved(state, [], [])
      case Video(frame, keyframe) => Moved(state, [VideoFrame(frame, keyframe)], [])
      case KeyframeNeeded => Moved(state, [Keyframe], [])
      case Bitrate(kbps) => Moved(state, [Effect.Bitrate(kbps)], [])
      case Failed => Finish(call, EndReason.Failed, clock, Bye(call, WireEnd.Failed))
  }

  function OutgoingCall(id: Id, peer: Key, conversation: Id, video: bool): Call {
    Call(id, peer, conversation, true, video, Phase.Offering, None, false, false, false, None, [], 0)
  }

  function OnExpired(state: Option<Call>, id: Id, phase: Phase, expiry: Expiry, clock: nat): Outcome {
    if state.Some? && state.value.id == id && state.value.phase == phase then
      match expiry
      case Unanswered => Finish(state.value, EndReason.Unanswered, clock, Bye(state.value, WireEnd.Unanswered))
      case Failed => Finish(state.value, EndReason.Failed, clock, Bye(state.value, WireEnd.Failed))
      case Missed => Finish(state.value, EndReason.Missed, clock, [])
    else Moved(state, [], [])
  }

  function OnHangup(call: Call, clock: nat): Outcome {
    match call.phase
    case Offering => Finish(call, EndReason.Cancelled, clock, Bye(call, WireEnd.Hangup))
    case Ringing => Finish(call, EndReason.Declined, clock, Bye(call, WireEnd.Declined))
    case _ => Finish(call, EndReason.Hangup, clock, Bye(call, WireEnd.Hangup))
  }

  /** One transition under the state lock. `clock` is the monotonic clock at that moment. */
  function Step(state: Option<Call>, input: Input, clock: nat): Outcome {
    match input
    case Start(id, peer, conversation, video) =>
      if state.Some? then Refused
      else
        Moved(Some(OutgoingCall(id, peer, conversation, video)),
              [Emit(CallEvent.Outgoing(id, peer, conversation)),
               StartSession(id, Role.Caller, video),
               Arm(RING_TIMEOUT, id, Phase.Offering, Expiry.Unanswered)],
              [])
    case Accept(id) =>
      if state.Some? && state.value.id == id && state.value.phase.Ringing? then
        Moved(Some(state.value.(phase := Phase.Connecting)),
              [Emit(CallEvent.Connecting(id)),
               StartSession(id, Role.Callee, state.value.video),
               Arm(CONNECT_TIMEOUT, id, Phase.Connecting, Expiry.Failed)],
              [])
      else Refused
    case Reject(id) =>
      if state.Some? && state.value.id == id && state.value.phase.Ringing? then
        Finish(state.value, EndReason.Declined, clock, Bye(state.value, WireEnd.Declined))
      else Moved(state, [], [])
    case Hangup(id) =>
      if state.Some? && state.value.id == id then OnHangup(state.value, clock)
      else Moved(state, [], [])
    case Muted(muted) =>
      if state.None? then Moved(state, [], [])
      else
        var c := state.value;
        Moved(Some(c.(muted := muted)),
              if UpOrRestarting(c.phase) then [Signal(c.conversation, Msg.Media(c.id, muted))] else [], [])
    case Camera(on) =>
      if state.Some? && state.value.video && UpOrRestarting(state.value.phase) then
        Moved(state, [Signal(state.value.conversation, Msg.Camera(state.value.id, on))], [])
      else Moved(state, [], [])
    case NetworkChanged =>
      if state.Some? && UpOrRestarting(state.value.phase) then WithRestart(state.value)
      else Moved(state, [], [])
    case Offered(offer) => OnOffer(state, offer)
    case Signalled(msg) => OnSignal(state, msg, clock)
    case Expired(id, phase, expiry) => OnExpired(state, id, phase, expiry, clock)
    case Session(id, event, now) => OnSession(state, id, event, now, clock)
    case OfferLost(id) =>
      if state.Some? && state.value.id == id then Finish(state.value, EndReason.Failed, clock, [])
      else Moved(state, [], [])
  }

  /** The locked block of a session's start: attaches the session to the call it was started for,
      if that call is still the current one, and hands it the parameters the call already holds. */
  function Spawn(state: Option<Call>, id: Id): (Option<Call>, seq<Cmd>) {
    if state.None? || state.value.id != id then (state, [])
    else
      var call := state.value.(session := true);
      match call.remote
      case Some(remote) =>
        var (next, cmds) := OfferRemote(call, remote);
        (Some(next), cmds)
      case None => (Some(call), [])
  }

  /** The state an outcome leaves behind. */
  function After(state: Option<Call>, o: Outcome): Option<Call> {
    if o.Refused? then state else o.state
  }

  function Fx(o: Outcome): seq<Effect> {
    if o.Refused? then [] else o.fx
  }

  function Cmds(o: Outcome): seq<Cmd> {
    if o.Refused? then [] else o.cmds
  }
}
