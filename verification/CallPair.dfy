/**
 Two devices on one call (libcore/src/call/mod.rs): how a call goes through from its offer to both
 sessions being up, and how each side shows what the other does with its microphone and camera.
 */
module CallPair {
  import opened Common
  import opened CallMachine
  import opened CallLifetimes

  /** What the platform is told, in order. */
  function Events(fx: seq<Effect>): seq<CallEvent> {
    if fx == [] then [] else (if fx[0].Emit? then [fx[0].event] else []) + Events(fx[1..])
  }

  /** What is sent, in order. */
  function Sent(fx: seq<Effect>): seq<Effect> {
    if fx == [] then [] else (if fx[0].Signal? then [fx[0]] else []) + Sent(fx[1..])
  }

  function EventOf(e: Effect): seq<CallEvent> {
    if e.Emit? then [e.event] else []
  }

  function SignalOf(e: Effect): seq<Effect> {
    if e.Signal? then [e] else []
  }

  lemma LogFirst(e: Effect, rest: seq<Effect>)
    ensures Events([e] + rest) == EventOf(e) + Events(rest) && Sent([e] + rest) == SignalOf(e) + Sent(rest)
  {
    assert ([e] + rest)[0] == e && ([e] + rest)[1..] == rest;
  }

  lemma LogOne(a: Effect)
    ensures Events([a]) == EventOf(a) && Sent([a]) == SignalOf(a)
  {
    LogFirst(a, []);
    assert [a] + [] == [a];
  }

  lemma LogTwo(a: Effect, b: Effect)
    ensures Events([a, b]) == EventOf(a) + EventOf(b) && Sent([a, b]) == SignalOf(a) + SignalOf(b)
  {
    LogOne(b);
    LogFirst(a, [b]);
    assert [a] + [b] == [a, b];
  }

  lemma LogThree(a: Effect, b: Effect, c: Effect)
    ensures Events([a, b, c]) == EventOf(a) + (EventOf(b) + EventOf(c))
    ensures Sent([a, b, c]) == SignalOf(a) + (SignalOf(b) + SignalOf(c))
  {
    LogTwo(b, c);
    LogFirst(a, [b, c]);
    assert [a] + [b, c] == [a, b, c];
  }

  /** The log of the short lists a single transition makes. */
  lemma LogShort(fx: seq<Effect>)
    requires |fx| <= 3
    ensures |fx| == 0 ==> Events(fx) == [] && Sent(fx) == []
    ensures |fx| == 1 ==> Events(fx) == EventOf(fx[0]) && Sent(fx) == SignalOf(fx[0])
    ensures |fx| == 2 ==> Events(fx) == EventOf(fx[0]) + EventOf(fx[1]) && Sent(fx) == SignalOf(fx[0]) + SignalOf(fx[1])
    ensures |fx| == 3 ==>
              && Events(fx) == EventOf(fx[0]) + (EventOf(fx[1]) + EventOf(fx[2]))
              && Sent(fx) == SignalOf(fx[0]) + (SignalOf(fx[1]) + SignalOf(fx[2]))
  {
    if |fx| == 1 {
      assert fx == [fx[0]];
      LogOne(fx[0]);
    } else if |fx| == 2 {
      assert fx == [fx[0], fx[1]];
      LogTwo(fx[0], fx[1]);
    } else if |fx| == 3 {
      assert fx == [fx[0], fx[1], fx[2]];
      LogThree(fx[0], fx[1], fx[2]);
    }
  }

  // ---- A call goes through ------------------------------------------------------------------------

  /** A call from `caller` to `callee`; the offer is gathered at `sentAt` and read at `readAt`, in the
      wall-clock time of both. */
  datatype Exchange = Exchange(caller: Key, callee: Key, id: Id, conversation: Id, video: bool,
                               offered: Remote, answered: Remote, sentAt: nat, readAt: nat)

  function OfferOf(x: Exchange): Msg {
    Msg.Offer(x.id, x.sentAt + 40_000, x.video, x.offered)
  }

  /** How the callee's device takes the offer. */
  function Delivered(x: Exchange): Input {
    Offered(OfferIn(x.caller, x.conversation, x.id, OfferOf(x).expiresAt, x.video, x.offered, true, x.callee, x.readAt, true))
  }

  /** What happens at the caller, and what reaches it from the callee. */
  function CallerInputs(x: Exchange): seq<Input> {
    [Start(x.id, x.callee, x.conversation, x.video),
     Session(x.id, Local(x.offered), x.sentAt),
     Signalled(Msg.Ringing(x.id)),
     Signalled(Msg.Answer(x.id, x.answered)),
     Session(x.id, SessionEvent.Connected, 0)]
  }

  function CalleeInputs(x: Exchange): seq<Input> {
    [Delivered(x),
     Accept(x.id),
     Session(x.id, Local(x.answered), 0),
     Session(x.id, SessionEvent.Connected, 0)]
  }

  /** A device's state, and what it has told its platform and sent. */
  datatype Log = Log(call: Option<Call>, events: seq<CallEvent>, sent: seq<Effect>)

  const Idle := Log(None, [], [])

  function Take(l: Log, input: Input, clock: nat): Log {
    var o := Step(l.call, input, clock);
    Log(After(l.call, o), l.events + Events(Fx(o)), l.sent + Sent(Fx(o)))
  }

  function TakeAll(l: Log, inputs: seq<Input>, clocks: seq<nat>): Log
    requires |inputs| == |clocks|
    decreases |inputs|
  {
    if inputs == [] then l else TakeAll(Take(l, inputs[0], clocks[0]), inputs[1..], clocks[1..])
  }

  lemma {:induction false} TakeFirst(l: Log, input: Input, rest: seq<Input>, clocks: seq<nat>)
    requires |clocks| == 1 + |rest|
    ensures TakeAll(l, [input] + rest, clocks) == TakeAll(Take(l, input, clocks[0]), rest, clocks[1..])
  {
    assert ([input] + rest)[0] == input && ([input] + rest)[1..] == rest;
  }

  /** On the call in phase `phase`, knowing the peer's parameters if `remote` says so. */
  predicate On(l: Log, x: Exchange, outgoing: bool, phase: Phase, remote: Option<Remote>) {
    && l.call.Some?
    && var c := l.call.value;
    && c.id == x.id && c.conversation == x.conversation && c.video == x.video && c.outgoing == outgoing
    && c.peer == (if outgoing then x.callee else x.caller)
    && c.phase == phase && c.remote == remote && !c.session
  }

  lemma CallerStarts(x: Exchange, clock: nat)
    ensures var l := Take(Idle, CallerInputs(x)[0], clock);
            && On(l, x, true, Phase.Offering, None)
            && l.events == [CallEvent.Outgoing(x.id, x.callee, x.conversation)] && l.sent == []
  {
    LogShort(Fx(Step(None, CallerInputs(x)[0], clock)));
  }

  lemma CallerOffers(x: Exchange, l: Log, clock: nat)
    requires On(l, x, true, Phase.Offering, None)
    ensures var n := Take(l, CallerInputs(x)[1], clock);
            On(n, x, true, Phase.Offering, None) && n.events == l.events && n.sent == l.sent + [Signal(x.conversation, OfferOf(x))]
  {
    LogShort(Fx(Step(l.call, CallerInputs(x)[1], clock)));
  }

  lemma CallerHearsRinging(x: Exchange, l: Log, clock: nat)
    requires On(l, x, true, Phase.Offering, None)
    ensures var n := Take(l, CallerInputs(x)[2], clock);
            On(n, x, true, Phase.Offering, None) && n.events == l.events + [CallEvent.Ringing(x.id)] && n.sent == l.sent
  {
    LogShort(Fx(Step(l.call, CallerInputs(x)[2], clock)));
  }

  lemma CallerIsAnswered(x: Exchange, l: Log, clock: nat)
    requires On(l, x, true, Phase.Offering, None)
    ensures var n := Take(l, CallerInputs(x)[3], clock);
            && On(n, x, true, Phase.Connecting, Some(x.answered))
            && n.events == l.events + [CallEvent.Connecting(x.id)] && n.sent == l.sent
  {
    LogShort(Fx(Step(l.call, CallerInputs(x)[3], clock)));
  }

  lemma Connects(x: Exchange, l: Log, outgoing: bool, remote: Option<Remote>, clock: nat)
    requires On(l, x, outgoing, Phase.Connecting, remote)
    ensures var n := Take(l, Session(x.id, SessionEvent.Connected, 0), clock);
            && On(n, x, outgoing, Phase.Connected, remote)
            && n.events == l.events + [CallEvent.Connected(x.id)] && n.sent == l.sent
  {
    LogShort(Fx(Step(l.call, Session(x.id, SessionEvent.Connected, 0), clock)));
  }

  lemma CalleeRings(x: Exchange, clock: nat)
    requires x.readAt <= x.sentAt + 45_000 && x.readAt <= U64_MAX
    ensures var l := Take(Idle, Delivered(x), clock);
            && On(l, x, false, Phase.Ringing, Some(x.offered))
            && l.events == [CallEvent.Incoming(x.id, x.caller, x.conversation, x.video)]
            && l.sent == [Signal(x.conversation, Msg.Ringing(x.id))]
  {
    LogShort(Fx(Step(None, Delivered(x), clock)));
  }

  lemma CalleeMisses(x: Exchange, clock: nat)
    requires x.sentAt + 45_000 < x.readAt <= U64_MAX
    ensures var l := Take(Idle, Delivered(x), clock);
            && l.call.None? && l.sent == []
            && l.events == [CallEvent.Ended(x.id, x.caller, x.conversation, EndReason.Missed, 0)]
  {
    LogShort(Fx(Step(None, Delivered(x), clock)));
  }

  lemma CalleeAccepts(x: Exchange, l: Log, clock: nat)
    requires On(l, x, false, Phase.Ringing, Some(x.offered))
    ensures var n := Take(l, CalleeInputs(x)[1], clock);
            && On(n, x, false, Phase.Connecting, Some(x.offered))
            && n.events == l.events + [CallEvent.Connecting(x.id)] && n.sent == l.sent
  {
    LogShort(Fx(Step(l.call, CalleeInputs(x)[1], clock)));
  }

  lemma CalleeAnswers(x: Exchange, l: Log, clock: nat)
    requires On(l, x, false, Phase.Connecting, Some(x.offered))
    ensures var n := Take(l, CalleeInputs(x)[2], clock);
            && On(n, x, false, Phase.Connecting, Some(x.offered)) && n.events == l.events
            && n.sent == l.sent + [Signal(x.conversation, Msg.Answer(x.id, x.answered))]
  {
    LogShort(Fx(Step(l.call, CalleeInputs(x)[2], clock)));
  }

  /** At the caller: it sends one offer that lives 40 seconds, and is connected with the parameters of
      the answer once that has arrived; the platform hears each stage. */
  lemma CallerGoesThrough(x: Exchange, clocks: seq<nat>)
    requires |clocks| == 5
    ensures var l := TakeAll(Idle, CallerInputs(x), clocks);
            && On(l, x, true, Phase.Connected, Some(x.answered))
            && l.sent == [Signal(x.conversation, OfferOf(x))]
            && l.events == [CallEvent.Outgoing(x.id, x.callee, x.conversation), CallEvent.Ringing(x.id),
                            CallEvent.Connecting(x.id), CallEvent.Connected(x.id)]
  {
    var i := CallerInputs(x);
    CallerStarts(x, clocks[0]);
    var l1 := Take(Idle, i[0], clocks[0]);
    CallerOffers(x, l1, clocks[1]);
    var l2 := Take(l1, i[1], clocks[1]);
    CallerHearsRinging(x, l2, clocks[2]);
    var l3 := Take(l2, i[2], clocks[2]);
    CallerIsAnswered(x, l3, clocks[3]);
    var l4 := Take(l3, i[3], clocks[3]);
    Connects(x, l4, true, Some(x.answered), clocks[4]);
    FiveTaken(Idle, i, clocks);
  }

  lemma {:induction false} FiveTaken(l: Log, i: seq<Input>, clocks: seq<nat>)
    requires |i| == |clocks| == 5
    ensures TakeAll(l, i, clocks)
         == Take(Take(Take(Take(Take(l, i[0], clocks[0]), i[1], clocks[1]), i[2], clocks[2]), i[3], clocks[3]), i[4], clocks[4])
  {
    FourTaken(Take(l, i[0], clocks[0]), i[1..], clocks[1..]);
  }

  lemma {:induction false} FourTaken(l: Log, i: seq<Input>, clocks: seq<nat>)
    requires |i| == |clocks| == 4
    ensures TakeAll(l, i, clocks)
         == Take(Take(Take(Take(l, i[0], clocks[0]), i[1], clocks[1]), i[2], clocks[2]), i[3], clocks[3])
  {
    var l1 := Take(l, i[0], clocks[0]);
    var l2 := Take(l1, i[1], clocks[1]);
    var l3 := Take(l2, i[2], clocks[2]);
    assert TakeAll(l, i, clocks) == TakeAll(l1, i[1..], clocks[1..]);
    assert TakeAll(l1, i[1..], clocks[1..]) == TakeAll(l2, i[1..][1..], clocks[1..][1..]);
    assert i[1..][1..] == i[2..] && clocks[1..][1..] == clocks[2..];
    assert i[2..][1..] == i[3..] && clocks[2..][1..] == clocks[3..];
    assert TakeAll(l2, i[2..], clocks[2..]) == TakeAll(l3, i[3..], clocks[3..]);
    assert i[3..] == [i[3]] + [];
    TakeFirst(l3, i[3], [], clocks[3..]);
  }

  lemma CalleeConnects(x: Exchange, l1: Log, clocks: seq<nat>)
    requires |clocks| == 4 && On(l1, x, false, Phase.Ringing, Some(x.offered))
    ensures var i := CalleeInputs(x);
            var l := Take(Take(Take(l1, i[1], clocks[1]), i[2], clocks[2]), i[3], clocks[3]);
            && On(l, x, false, Phase.Connected, Some(x.offered))
            && l.sent == l1.sent + [Signal(x.conversation, Msg.Answer(x.id, x.answered))]
            && l.events == l1.events + [CallEvent.Connecting(x.id)] + [CallEvent.Connected(x.id)]
  {
    var i := CalleeInputs(x);
    CalleeAccepts(x, l1, clocks[1]);
    var l2 := Take(l1, i[1], clocks[1]);
    CalleeAnswers(x, l2, clocks[2]);
    var l3 := Take(l2, i[2], clocks[2]);
    Connects(x, l3, false, Some(x.offered), clocks[3]);
  }

  /** At the callee: an offer read within its 40 seconds and 5 of skew rings, with the caller, the
      conversation and the video flag of the offer; once accepted it is answered with what the session
      gathered, and connected. What each side sends is what the other was given above. An offer read
      later is a missed call and nothing else. */
  lemma CalleeGoesThrough(x: Exchange, clocks: seq<nat>)
    requires |clocks| == 4 && x.readAt <= U64_MAX
    ensures x.readAt <= x.sentAt + 45_000 ==>
              var l := TakeAll(Idle, CalleeInputs(x), clocks);
              && On(l, x, false, Phase.Connected, Some(x.offered))
              && l.sent == [Signal(x.conversation, Msg.Ringing(x.id)), Signal(x.conversation, Msg.Answer(x.id, x.answered))]
              && l.events == [CallEvent.Incoming(x.id, x.caller, x.conversation, x.video), CallEvent.Connecting(x.id),
                              CallEvent.Connected(x.id)]
    ensures x.readAt > x.sentAt + 45_000 ==>
              var l := Take(Idle, Delivered(x), clocks[0]);
              l.call.None? && l.sent == [] && l.events == [CallEvent.Ended(x.id, x.caller, x.conversation, EndReason.Missed, 0)]
  {
    if x.readAt <= x.sentAt + 45_000 {
      var i := CalleeInputs(x);
      FourTaken(Idle, i, clocks);
      CalleeRings(x, clocks[0]);
      CalleeConnects(x, Take(Idle, i[0], clocks[0]), clocks);
    } else {
      CalleeMisses(x, clocks[0]);
    }
  }

  // ---- Microphone and camera ----------------------------------------------------------------------

  /** The mute flags sent to the peer, in order. */
  function Flags(fx: seq<Effect>): seq<bool> {
    if fx == [] then []
    else (if fx[0].Signal? && fx[0].msg.Media? then [fx[0].msg.muted] else []) + Flags(fx[1..])
  }

  lemma {:induction false} FlagsSplit(a: seq<Effect>, b: seq<Effect>)
    ensures Flags(a + b) == Flags(a) + Flags(b)
    decreases |a|
  {
    if a == [] {
      assert a + b == b;
    } else {
      assert (a + b)[0] == a[0] && (a + b)[1..] == a[1..] + b;
      FlagsSplit(a[1..], b);
    }
  }

  lemma {:induction false} NoFlags(fx: seq<Effect>)
    requires forall i :: 0 <= i < |fx| ==> !(fx[i].Signal? && fx[i].msg.Media?)
    ensures Flags(fx) == []
    decreases |fx|
  {
    if fx != [] {
      assert forall i :: 0 <= i < |fx| - 1 ==> fx[1..][i] == fx[i + 1];
      NoFlags(fx[1..]);
    }
  }

  /** The flag after an input, and what the peer is told: a change is told exactly while the call is up,
      and a call that is up stays so. */
  predicate MuteStep(c: Call, n: Call, input: Input, flags: seq<bool>) {
    && n.muted == (if input.Muted? then input.muted else c.muted)
    && flags == (if input.Muted? && UpOrRestarting(c.phase) then [input.muted] else [])
    && (UpOrRestarting(c.phase) ==> UpOrRestarting(n.phase))
  }

  lemma MutedSteps(c: Call, muted: bool, clock: nat)
    ensures var o := Step(Some(c), Input.Muted(muted), clock);
            o.Moved? && Alive(o.state, c.id) && MuteStep(c, o.state.value, Input.Muted(muted), Flags(o.fx))
  {
    var o := Step(Some(c), Input.Muted(muted), clock);
    if o.fx != [] {
      assert o.fx[1..] == [];
    }
  }

  /** The microphone is left alone, and nothing said of it, if the call lasts. */
  predicate Unmuted(c: Call, o: Outcome) {
    var n := After(Some(c), o);
    Alive(n, c.id) ==>
      && n.value.muted == c.muted && (UpOrRestarting(c.phase) ==> UpOrRestarting(n.value.phase))
      && forall i :: 0 <= i < |Fx(o)| ==> !(Fx(o)[i].Signal? && Fx(o)[i].msg.Media?)
  }

  lemma SignalUnmuted(c: Call, msg: Msg, clock: nat)
    ensures Unmuted(c, OnSignal(Some(c), msg, clock))
  {
  }

  lemma SessionUnmuted(c: Call, id: Id, event: SessionEvent, now: nat, clock: nat)
    ensures Unmuted(c, OnSession(Some(c), id, event, now, clock))
  {
  }

  lemma OthersSayNothing(c: Call, input: Input, clock: nat)
    requires !input.Muted?
    ensures Unmuted(c, Step(Some(c), input, clock))
  {
    match input {
      case Signalled(msg) => SignalUnmuted(c, msg, clock);
      case Session(id, event, now) => SessionUnmuted(c, id, event, now, clock);
      case _ =>
    }
  }

  lemma MuteSteps(c: Call, input: Input, clock: nat)
    requires Alive(After(Some(c), Step(Some(c), input, clock)), c.id)
    ensures var o := Step(Some(c), input, clock);
            MuteStep(c, After(Some(c), o).value, input, Flags(Fx(o)))
  {
    if input.Muted? {
      MutedSteps(c, input.muted, clock);
    } else {
      OthersSayNothing(c, input, clock);
      NoFlags(Fx(Step(Some(c), input, clock)));
    }
  }

  lemma {:induction false} TraceUnrolled(state: Option<Call>, ins: seq<Timed>)
    requires ins != []
    ensures var o := Moves(state, ins[0]);
            && Trace(state, ins) == Fx(o) + Trace(After(state, o), ins[1..])
            && States(state, ins) == States(After(state, o), ins[1..])
  {
  }

  /** Over a run of a call: what was told last is how the microphone is, and only a call that is up has
      told anything. */
  lemma {:induction false} ToldAsItIs(c: Call, ins: seq<Timed>)
    requires Lasts(Some(c), c.id, ins)
    ensures var n, flags := States(Some(c), ins), Flags(Trace(Some(c), ins));
            && Alive(n, c.id)
            && (flags != [] ==> flags[|flags| - 1] == n.value.muted)
            && (flags == [] && UpOrRestarting(c.phase) ==> n.value.muted == c.muted)
    decreases |ins|
  {
    if ins != [] {
      var o := Moves(Some(c), ins[0]);
      MuteSteps(c, ins[0].input, ins[0].clock);
      var n := After(Some(c), o).value;
      TraceUnrolled(Some(c), ins);
      ToldAsItIs(n, ins[1..]);
      FlagsSplit(Fx(o), Trace(Some(n), ins[1..]));
      LastTold(c, n, ins[0].input, Flags(Fx(o)), Flags(Trace(Some(n), ins[1..])), States(Some(n), ins[1..]).value);
    }
  }

  lemma LastTold(c: Call, n: Call, input: Input, first: seq<bool>, more: seq<bool>, final: Call)
    requires MuteStep(c, n, input, first)
    requires more != [] ==> more[|more| - 1] == final.muted
    requires more == [] && UpOrRestarting(n.phase) ==> final.muted == n.muted
    ensures var flags := first + more;
            && (flags != [] ==> flags[|flags| - 1] == final.muted)
            && (flags == [] && UpOrRestarting(c.phase) ==> final.muted == c.muted)
  {
  }

  /** Mute messages delivered to a device in order. */
  function Deliver(c: Call, flags: seq<bool>, clock: nat): Option<Call>
    decreases |flags|
  {
    if flags == [] then Some(c)
    else
      var next := After(Some(c), Step(Some(c), Signalled(Msg.Media(c.id, flags[0])), clock));
      if next.None? then None else Deliver(next.value, flags[1..], clock)
  }

  /** Each message is shown at once, and nothing else about the call changes. */
  lemma ShownAtOnce(c: Call, muted: bool, clock: nat)
    ensures var o := Step(Some(c), Signalled(Msg.Media(c.id, muted)), clock);
            o == Moved(Some(c.(peerMuted := muted)), [Emit(CallEvent.PeerMuted(c.id, muted))], [])
  {
  }

  lemma {:induction false} LastIsShown(c: Call, flags: seq<bool>, clock: nat)
    ensures Deliver(c, flags, clock) == Some(if flags == [] then c else c.(peerMuted := flags[|flags| - 1]))
    decreases |flags|
  {
    if flags != [] {
      ShownAtOnce(c, flags[0], clock);
      LastIsShown(c.(peerMuted := flags[0]), flags[1..], clock);
    }
  }

  /** One side runs through any inputs of the call and all its mute messages are delivered to the other,
      which had heard of none. The other then shows the microphone as it is, exactly if any change was
      made while the call was up, or the microphone is on: what is muted before the call is up stays
      untold. */
  lemma ShownIffTold(mine: Call, ins: seq<Timed>, theirs: Call, clock: nat)
    requires Lasts(Some(mine), mine.id, ins) && theirs.id == mine.id && !theirs.peerMuted
    ensures var n, flags := States(Some(mine), ins), Flags(Trace(Some(mine), ins));
            var seen := Deliver(theirs, flags, clock);
            && n.Some? && seen.Some?
            && (seen.value.peerMuted == n.value.muted <==> flags != [] || !n.value.muted)
  {
    ToldAsItIs(mine, ins);
    LastIsShown(theirs, Flags(Trace(Some(mine), ins)), clock);
  }

  /** Muted while connecting, then connected: the peer is never told. */
  lemma MutedBeforeUpIsUntold(c: Call, first: nat, second: nat)
    requires c.phase.Connecting?
    ensures var ins := [Timed(Input.Muted(true), first), Timed(Session(c.id, SessionEvent.Connected, 0), second)];
            var n := States(Some(c), ins);
            && Lasts(Some(c), c.id, ins) && Flags(Trace(Some(c), ins)) == []
            && n.Some? && n.value.phase.Connected? && n.value.muted
  {
    var m, s := Timed(Input.Muted(true), first), Timed(Session(c.id, SessionEvent.Connected, 0), second);
    var n := c.(muted := true);
    assert [m, s][1..] == [s] && [s][1..] == [];
    assert Moves(Some(c), m) == Moved(Some(n), [], []);
    var o := Moves(Some(n), s);
    assert o.fx == [Emit(CallEvent.Connected(c.id))];
    NoFlags(o.fx);
    assert Lasts(o.state, c.id, []) && States(o.state, []) == o.state && Trace(o.state, []) == [];
    assert Lasts(Some(n), c.id, [s]) && States(Some(n), [s]) == o.state;
    assert Trace(Some(n), [s]) == o.fx + [] == o.fx;
    assert Trace(Some(c), [m, s]) == [] + o.fx == o.fx;
  }

  /** The camera of a video call that is up: the peer is told once and shows what it was told; in any
      other call nothing is said. */
  lemma CameraShown(mine: Call, theirs: Call, on: bool, clock: nat, clock': nat)
    requires mine.id == theirs.id
    ensures var o := Step(Some(mine), Input.Camera(on), clock);
            && o.Moved? && o.state == Some(mine) && o.cmds == []
            && if mine.video && UpOrRestarting(mine.phase) then
                 && o.fx == [Signal(mine.conversation, Msg.Camera(mine.id, on))]
                 && Step(Some(theirs), Signalled(o.fx[0].msg), clock')
                    == Moved(Some(theirs), [Emit(CallEvent.PeerCamera(theirs.id, on))], [])
               else o.fx == []
  {
  }

  /** What a session says of its picture reaches the platform of the call it belongs to, unchanged, and
      of no other. */
  lemma PictureReachesItsCall(state: Option<Call>, id: Id, frame: seq<bv8>, keyframe: bool, kbps: nat, now: nat, clock: nat)
    ensures var mine := Alive(state, id);
            && Step(state, Session(id, Video(frame, keyframe), now), clock)
               == Moved(state, if mine then [VideoFrame(frame, keyframe)] else [], [])
            && Step(state, Session(id, KeyframeNeeded, now), clock) == Moved(state, if mine then [Keyframe] else [], [])
            && Step(state, Session(id, SessionEvent.Bitrate(kbps), now), clock)
               == Moved(state, if mine then [Effect.Bitrate(kbps)] else [], [])
  {
  }
}
