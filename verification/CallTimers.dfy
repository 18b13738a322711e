/**
 The timers of a call (libcore/src/call/mod.rs): no phase but Connected outlives its timeout, over
 every timed run. Effects take place at the instant of their transition and a timer fires before
 time moves past it.
 */
module CallTimers {
  import opened Common
  import opened CallMachine

  /** Armed at `from`, due at `at`. */
  datatype Timer = Timer(from: nat, at: nat, id: Id, phase: Phase, expiry: Expiry)

  /** `since` is when the current call entered its current phase. */
  datatype World = World(now: nat, call: Option<Call>, since: nat, timers: multiset<Timer>)

  datatype Move =
    | Act(input: Input)  // anything but a timer
    | Attach(id: Id)     // a session starts
    | Fire(timer: Timer)
    | Tick(to: nat)

  function Limit(phase: Phase): nat {
    match phase
    case Offering => RING_TIMEOUT
    case Ringing => RING_TIMEOUT
    case Connecting => CONNECT_TIMEOUT
    case Reconnecting => RECONNECT_TIMEOUT
    case Connected => 0
  }

  predicate Enabled(w: World, m: Move) {
    match m
    case Act(input) => !input.Expired?
    case Attach(_) => true
    case Fire(t) => t in w.timers && t.at <= w.now
    case Tick(to) => w.now < to && forall t :: t in w.timers ==> to <= t.at
  }

  function Armed(fx: seq<Effect>, now: nat): multiset<Timer>
    decreases |fx|
  {
    if fx == [] then multiset{}
    else
      var rest := Armed(fx[1..], now);
      match fx[0]
      case Arm(delay, id, phase, expiry) => rest + multiset{Timer(now, now + delay, id, phase, expiry)}
      case _ => rest
  }

  predicate SamePlace(a: Option<Call>, b: Option<Call>) {
    a.Some? && b.Some? && a.value.id == b.value.id && a.value.phase == b.value.phase
  }

  function Moved(w: World, next: Option<Call>, fx: seq<Effect>): World {
    w.(call := next, since := if SamePlace(w.call, next) then w.since else w.now,
       timers := w.timers + Armed(fx, w.now))
  }

  function Next(w: World, m: Move): World
    requires Enabled(w, m)
  {
    match m
    case Act(input) =>
      var o := Step(w.call, input, w.now);
      Moved(w, After(w.call, o), Fx(o))
    case Attach(id) => Moved(w, Spawn(w.call, id).0, [])
    case Fire(t) =>
      var o := Step(w.call, Expired(t.id, t.phase, t.expiry), w.now);
      Moved(w.(timers := w.timers - multiset{t}), After(w.call, o), Fx(o))
    case Tick(to) => w.(now := to)
  }

  predicate CanRun(w: World, ms: seq<Move>)
    decreases |ms|
  {
    ms == [] || (Enabled(w, ms[0]) && CanRun(Next(w, ms[0]), ms[1..]))
  }

  function Run(w: World, ms: seq<Move>): World
    requires CanRun(w, ms)
    decreases |ms|
  {
    if ms == [] then w else Run(Next(w, ms[0]), ms[1..])
  }

  predicate Covers(t: Timer, c: Call, due: nat) {
    t.id == c.id && t.phase == c.phase && t.at <= due
  }

  ghost predicate Inv(w: World) {
    && w.since <= w.now
    && (forall t :: t in w.timers ==> w.now <= t.at)
    && (w.call.Some? && !w.call.value.phase.Connected? ==>
          exists t :: t in w.timers && Covers(t, w.call.value, w.since + Limit(w.call.value.phase)))
  }

  /** An armed effect list keeps its promise: the timer is pending, and none is in the past. */
  lemma {:induction false} ArmedHolds(fx: seq<Effect>, now: nat)
    ensures forall t :: t in Armed(fx, now) ==> now <= t.at
    ensures forall i :: 0 <= i < |fx| && fx[i].Arm? ==>
              Timer(now, now + fx[i].delay, fx[i].id, fx[i].phase, fx[i].expiry) in Armed(fx, now)
    decreases |fx|
  {
    if fx != [] {
      ArmedHolds(fx[1..], now);
      forall i | 0 <= i < |fx| && fx[i].Arm?
        ensures Timer(now, now + fx[i].delay, fx[i].id, fx[i].phase, fx[i].expiry) in Armed(fx, now)
      {
        if i > 0 {
          assert fx[i] == fx[1..][i - 1];
        }
      }
    }
  }

  predicate ArmsFor(fx: seq<Effect>, c: Call) {
    exists i :: 0 <= i < |fx| && fx[i].Arm? && fx[i].id == c.id && fx[i].phase == c.phase && fx[i].delay <= Limit(c.phase)
  }

  /** Whatever brings a call into a timed phase arms that phase's timer. */
  predicate Arms(state: Option<Call>, o: Outcome) {
    var next := After(state, o);
    next.Some? && !next.value.phase.Connected? && !SamePlace(state, next) ==> ArmsFor(Fx(o), next.value)
  }

  lemma OfferArms(state: Option<Call>, offer: OfferIn)
    ensures Arms(state, OnOffer(state, offer))
  {
    var o := OnOffer(state, offer);
    if |o.fx| == 3 {
      assert o.fx[2].Arm?;
    } else if |o.fx| == 4 {
      assert o.fx[3].Arm?;
    }
  }

  lemma RestartArms(call: Call, theirs: Option<Remote>)
    requires UpOrRestarting(call.phase)
    ensures var r := BeginRestart(call, theirs);
            Arms(Some(call), CallMachine.Moved(Some(r.call), r.fx, r.cmds)) && r.call.id == call.id
  {
    if call.phase.Connected? {
      assert BeginRestart(call, theirs).fx[1].Arm?;
    }
  }

  lemma SignalArms(state: Option<Call>, msg: Msg, clock: nat)
    ensures Arms(state, OnSignal(state, msg, clock))
  {
    if msg.Answer? {
      var o := OnSignal(state, msg, clock);
      assert o.fx[|o.fx| - 1].Arm?;
    } else if msg.Restart? && state.Some? && UpOrRestarting(state.value.phase) {
      RestartArms(state.value.(restartGen := msg.generation), Some(RestartRemote(state.value, msg)));
    }
  }

  lemma SessionArms(state: Option<Call>, id: Id, event: SessionEvent, now: nat, clock: nat)
    ensures Arms(state, OnSession(state, id, event, now, clock))
  {
    if state.Some? && UpOrRestarting(state.value.phase) {
      RestartArms(state.value, None);
    }
  }

  lemma StepArms(state: Option<Call>, input: Input, clock: nat)
    ensures Arms(state, Step(state, input, clock))
  {
    match input {
      case Start(_, _, _, _) =>
        if state.None? {
          assert Step(state, input, clock).fx[2].Arm?;
        }
      case Accept(_) =>
        if Step(state, input, clock).Moved? {
          assert Step(state, input, clock).fx[2].Arm?;
        }
      case NetworkChanged =>
        if state.Some? && UpOrRestarting(state.value.phase) {
          RestartArms(state.value, None);
        }
      case Offered(offer) => OfferArms(state, offer);
      case Signalled(msg) => SignalArms(state, msg, clock);
      case Session(id, event, now) => SessionArms(state, id, event, now, clock);
      case _ =>
    }
  }

  lemma MovedKeeps(w: World, next: Option<Call>, fx: seq<Effect>)
    requires Inv(w)
    requires next.Some? && !next.value.phase.Connected? && !SamePlace(w.call, next) ==> ArmsFor(fx, next.value)
    ensures Inv(Moved(w, next, fx))
  {
    ArmedHolds(fx, w.now);
    var n := Moved(w, next, fx);
    if next.Some? && !next.value.phase.Connected? {
      var c := next.value;
      if SamePlace(w.call, next) {
        var t :| t in w.timers && Covers(t, w.call.value, w.since + Limit(w.call.value.phase));
        assert t in n.timers && Covers(t, c, n.since + Limit(c.phase));
      } else {
        var i :| 0 <= i < |fx| && fx[i].Arm? && fx[i].id == c.id && fx[i].phase == c.phase && fx[i].delay <= Limit(c.phase);
        var t := Timer(w.now, w.now + fx[i].delay, fx[i].id, fx[i].phase, fx[i].expiry);
        assert t in n.timers && Covers(t, c, n.since + Limit(c.phase));
      }
    }
  }

  /** A timer left from an earlier phase changes nothing; the one that covers the phase ends the call. */
  lemma FireKeeps(w: World, t: Timer)
    requires Inv(w) && Enabled(w, Fire(t))
    ensures Inv(Next(w, Fire(t)))
  {
    var o := Step(w.call, Expired(t.id, t.phase, t.expiry), w.now);
    var left := w.(timers := w.timers - multiset{t});
    if w.call.Some? && t.id == w.call.value.id && t.phase == w.call.value.phase {
      assert o.state.None?;
      ArmedHolds(Fx(o), w.now);
    } else {
      assert o == CallMachine.Moved(w.call, [], []);
      if w.call.Some? && !w.call.value.phase.Connected? {
        var c :| c in w.timers && Covers(c, w.call.value, w.since + Limit(w.call.value.phase));
        assert c in left.timers;
      }
      MovedKeeps(left, w.call, []);
    }
  }

  lemma StepKeeps(w: World, m: Move)
    requires Inv(w) && Enabled(w, m)
    ensures Inv(Next(w, m))
  {
    match m {
      case Act(input) =>
        StepArms(w.call, input, w.now);
        var o := Step(w.call, input, w.now);
        MovedKeeps(w, After(w.call, o), Fx(o));
      case Attach(id) => MovedKeeps(w, Spawn(w.call, id).0, []);
      case Fire(t) => FireKeeps(w, t);
      case Tick(_) =>
    }
  }

  lemma {:induction false} RunKeeps(w: World, ms: seq<Move>)
    requires Inv(w) && CanRun(w, ms)
    ensures Inv(Run(w, ms))
    decreases |ms|
  {
    if ms != [] {
      StepKeeps(w, ms[0]);
      RunKeeps(Next(w, ms[0]), ms[1..]);
    }
  }

  const Idle := World(0, None, 0, multiset{})

  /** Within its limit, and at the limit time waits for a timer that ends the call. */
  ghost predicate InTime(w: World) {
    w.call.Some? && !w.call.value.phase.Connected? ==>
      && w.now <= w.since + Limit(w.call.value.phase)
      && (w.now == w.since + Limit(w.call.value.phase) ==>
            && (forall to :: !Enabled(w, Tick(to)))
            && exists t :: Enabled(w, Fire(t)) && Next(w, Fire(t)).call.None?)
  }

  lemma CoveringTimerEnds(w: World, t: Timer)
    requires w.call.Some? && t in w.timers && t.at <= w.now && Covers(t, w.call.value, t.at)
    ensures Enabled(w, Fire(t)) && Next(w, Fire(t)).call.None?
  {
  }

  lemma KeptInTime(w: World)
    requires Inv(w)
    ensures InTime(w)
  {
    if w.call.Some? && !w.call.value.phase.Connected? {
      var t :| t in w.timers && Covers(t, w.call.value, w.since + Limit(w.call.value.phase));
      assert w.now <= t.at;
      if w.now == w.since + Limit(w.call.value.phase) {
        CoveringTimerEnds(w, t);
      }
    }
  }

  /** In every reachable state a call outside Connected has been in its phase no longer than the
      phase's timeout, and when the timeout is reached time waits for a timer that ends the call. */
  lemma NoPhaseOutlivesItsTimeout(ms: seq<Move>)
    requires CanRun(Idle, ms)
    ensures InTime(Run(Idle, ms))
  {
    RunKeeps(Idle, ms);
    KeptInTime(Run(Idle, ms));
  }

  // ---- How long each wait is ----------------------------------------------------------------------

  /** An incoming call rings until its offer expires, and for 45 seconds at most. */
  predicate RingsUntilExpiry(offer: OfferIn, delay: nat) {
    if offer.expiresAt <= offer.now then delay == 0
    else if offer.expiresAt <= offer.now + 45_000 then offer.now + delay == offer.expiresAt
    else delay == 45_000
  }

  /** The delay and the verdict of a timer, by its phase. */
  predicate Proper(delay: nat, phase: Phase, expiry: Expiry) {
    match phase
    case Offering => delay == 45_000 && expiry.Unanswered?
    case Ringing => delay <= 45_000 && expiry.Missed?
    case Connecting => delay == 20_000 && expiry.Failed?
    case Reconnecting => delay == 20_000 && expiry.Failed?
    case Connected => false
  }

  predicate ProperArms(input: Input, fx: seq<Effect>) {
    forall i :: 0 <= i < |fx| && fx[i].Arm? ==>
      && Proper(fx[i].delay, fx[i].phase, fx[i].expiry)
      && (fx[i].phase.Ringing? ==> input.Offered? && RingsUntilExpiry(input.offer, fx[i].delay))
  }

  lemma SignalArmsExactly(state: Option<Call>, msg: Msg, clock: nat)
    ensures ProperArms(Signalled(msg), Fx(OnSignal(state, msg, clock)))
  {
  }

  lemma SessionArmsExactly(state: Option<Call>, id: Id, event: SessionEvent, now: nat, clock: nat)
    ensures ProperArms(Session(id, event, now), Fx(OnSession(state, id, event, now, clock)))
  {
  }

  lemma OfferArmsExactly(state: Option<Call>, offer: OfferIn)
    ensures ProperArms(Offered(offer), Fx(OnOffer(state, offer)))
  {
  }

  predicate ArmsNothing(fx: seq<Effect>) {
    forall i :: 0 <= i < |fx| ==> !fx[i].Arm?
  }

  /** The inputs that end a call. */
  lemma EndingArmsNothing(state: Option<Call>, input: Input, clock: nat)
    requires input.Reject? || input.Hangup? || input.Expired? || input.OfferLost?
    ensures ArmsNothing(Fx(Step(state, input, clock)))
  {
  }

  lemma TogglingArmsNothing(state: Option<Call>, input: Input, clock: nat)
    requires input.Muted? || input.Camera?
    ensures ArmsNothing(Fx(Step(state, input, clock)))
  {
  }

  lemma UserArmsExactly(state: Option<Call>, input: Input, clock: nat)
    requires input.Start? || input.Accept?
    ensures ProperArms(input, Fx(Step(state, input, clock)))
  {
  }

  lemma NetworkArmsExactly(state: Option<Call>, clock: nat)
    ensures ProperArms(NetworkChanged, Fx(Step(state, NetworkChanged, clock)))
  {
    if state.Some? && UpOrRestarting(state.value.phase) {
      RestartArmsExactly(state.value, None, NetworkChanged);
    }
  }

  lemma RestartArmsExactly(call: Call, theirs: Option<Remote>, input: Input)
    ensures ProperArms(input, BeginRestart(call, theirs).fx)
  {
  }

  /** Every timer a transition arms has its phase's delay and verdict, and a ringing one lasts exactly
      as long as the offer that rings. */
  lemma ArmsExactly(state: Option<Call>, input: Input, clock: nat)
    ensures ProperArms(input, Fx(Step(state, input, clock)))
  {
    match input {
      case Offered(offer) => OfferArmsExactly(state, offer);
      case Signalled(msg) => SignalArmsExactly(state, msg, clock);
      case Session(id, event, now) => SessionArmsExactly(state, id, event, now, clock);
      case Start(_, _, _, _) => UserArmsExactly(state, input, clock);
      case Accept(_) => UserArmsExactly(state, input, clock);
      case NetworkChanged => NetworkArmsExactly(state, clock);
      case Muted(_) => TogglingArmsNothing(state, input, clock);
      case Camera(_) => TogglingArmsNothing(state, input, clock);
      case _ => EndingArmsNothing(state, input, clock);
    }
  }

  predicate ProperTimer(t: Timer, now: nat) {
    t.from <= now && t.from <= t.at && Proper(t.at - t.from, t.phase, t.expiry)
  }

  ghost predicate Timely(w: World) {
    forall t :: t in w.timers ==> ProperTimer(t, w.now)
  }

  lemma {:induction false} ArmedProperly(fx: seq<Effect>, now: nat)
    requires forall i :: 0 <= i < |fx| && fx[i].Arm? ==> Proper(fx[i].delay, fx[i].phase, fx[i].expiry)
    ensures forall t :: t in Armed(fx, now) ==> ProperTimer(t, now)
    decreases |fx|
  {
    if fx != [] {
      assert forall i :: 0 <= i < |fx| - 1 ==> fx[1..][i] == fx[i + 1];
      ArmedProperly(fx[1..], now);
    }
  }

  lemma StepTimely(w: World, m: Move)
    requires Timely(w) && Enabled(w, m)
    ensures Timely(Next(w, m))
  {
    match m {
      case Act(input) =>
        ArmsExactly(w.call, input, w.now);
        ArmedProperly(Fx(Step(w.call, input, w.now)), w.now);
      case Attach(_) =>
      case Fire(t) =>
        var input := Expired(t.id, t.phase, t.expiry);
        ArmsExactly(w.call, input, w.now);
        ArmedProperly(Fx(Step(w.call, input, w.now)), w.now);
      case Tick(_) =>
    }
  }

  lemma {:induction false} RunTimely(w: World, ms: seq<Move>)
    requires Timely(w) && CanRun(w, ms)
    ensures Timely(Run(w, ms))
    decreases |ms|
  {
    if ms != [] {
      StepTimely(w, ms[0]);
      RunTimely(Next(w, ms[0]), ms[1..]);
    }
  }

  /** In every reachable state, a timer that ends a call the device placed, connects or restarts does so
      exactly its phase's timeout after it was armed, which was when the phase was entered or before.
      So the phase has had its whole timeout exactly if the timer was armed on entering it, and is cut
      short by as much as an older timer is older. */
  lemma TimerEndsCall(ms: seq<Move>, t: Timer)
    requires CanRun(Idle, ms)
    requires var w := Run(Idle, ms);
             && w.call.Some? && !w.call.value.phase.Ringing?
             && Enabled(w, Fire(t)) && Next(w, Fire(t)).call.None?
    ensures var w := Run(Idle, ms);
            && t.phase == w.call.value.phase
            && w.now == t.from + Limit(t.phase) && t.from <= w.since
            && (w.now == w.since + Limit(t.phase) <==> t.from == w.since)
  {
    RunKeeps(Idle, ms);
    RunTimely(Idle, ms);
    NoPhaseOutlivesItsTimeout(ms);
    var w := Run(Idle, ms);
    assert t.id == w.call.value.id && t.phase == w.call.value.phase;
  }

  ghost predicate Reachable(w: World) {
    exists ms :: CanRun(Idle, ms) && Run(Idle, ms) == w
  }

  lemma {:induction false} RunLast(w: World, ms: seq<Move>, m: Move)
    requires CanRun(w, ms) && Enabled(Run(w, ms), m)
    ensures CanRun(w, ms + [m]) && Run(w, ms + [m]) == Next(Run(w, ms), m)
    decreases |ms|
  {
    if ms == [] {
      assert (ms + [m])[0] == m && (ms + [m])[1..] == [];
    } else {
      assert (ms + [m])[0] == ms[0] && (ms + [m])[1..] == ms[1..] + [m];
      RunLast(Next(w, ms[0]), ms[1..], m);
    }
  }

  lemma Reach(w: World, m: Move)
    requires Reachable(w) && Enabled(w, m)
    ensures Reachable(Next(w, m))
  {
    var ms :| CanRun(Idle, ms) && Run(Idle, ms) == w;
    RunLast(Idle, ms, m);
    assert CanRun(Idle, ms + [m]) && Run(Idle, ms + [m]) == Next(w, m);
  }

  const Placed := Act(Start(1, 2, 3, false))
  const Answered := Act(Signalled(Msg.Answer(1, Remote.Remote("", "", [], 0, 0, []))))
  const Up := Act(Session(1, SessionEvent.Connected, 0))
  const Down := Act(Session(1, SessionEvent.Disconnected, 0))
  const Stale := Timer(0, 20_000, 1, Phase.Reconnecting, Expiry.Failed)

  /** Where the sample run is: the call's phase since when, and no timer due before `due`. */
  ghost predicate IsAt(w: World, now: nat, phase: Phase, since: nat, due: nat) {
    && w.now == now && w.since == since && w.call.Some? && w.call.value.id == 1 && w.call.value.phase == phase
    && forall t :: t in w.timers ==> due <= t.at
  }

  lemma PlacedAt() returns (n: World)
    ensures Reachable(n) && IsAt(n, 0, Phase.Offering, 0, 20_000)
  {
    assert CanRun(Idle, []) && Run(Idle, []) == Idle;
    Reach(Idle, Placed);
    Due(Fx(Step(None, Placed.input, 0)), 0, 20_000);
    n := Next(Idle, Placed);
  }

  /** Timers armed with a delay of 20 seconds or more are due no earlier. */
  lemma {:induction false} Due(fx: seq<Effect>, now: nat, delay: nat)
    requires forall i :: 0 <= i < |fx| && fx[i].Arm? ==> delay <= fx[i].delay
    ensures forall t :: t in Armed(fx, now) ==> now + delay <= t.at
    decreases |fx|
  {
    if fx != [] {
      assert forall i :: 0 <= i < |fx| - 1 ==> fx[1..][i] == fx[i + 1];
      Due(fx[1..], now, delay);
    }
  }

  lemma AnsweredAt(w: World) returns (n: World)
    requires Reachable(w) && IsAt(w, 0, Phase.Offering, 0, 20_000)
    ensures Reachable(n) && IsAt(n, 0, Phase.Connecting, 0, 20_000)
  {
    Reach(w, Answered);
    Due(Fx(Step(w.call, Answered.input, 0)), 0, 20_000);
    n := Next(w, Answered);
  }

  lemma UpAt(w: World, phase: Phase) returns (n: World)
    requires Reachable(w) && IsAt(w, 0, phase, 0, 20_000) && (phase.Connecting? || phase.Reconnecting?)
    ensures Reachable(n) && IsAt(n, 0, Phase.Connected, 0, 20_000) && n.timers == w.timers
  {
    Reach(w, Up);
    n := Next(w, Up);
    var fx := Fx(Step(w.call, Up.input, 0));
    assert fx == [Emit(CallEvent.Connected(1))];
    assert fx[1..] == [];
    assert Armed(fx, 0) == multiset{};
  }

  lemma DownAt(w: World, now: nat, since: nat) returns (n: World)
    requires Reachable(w) && IsAt(w, now, Phase.Connected, since, 20_000)
    ensures Reachable(n) && IsAt(n, now, Phase.Reconnecting, now, 20_000)
    ensures Timer(now, now + 20_000, 1, Phase.Reconnecting, Expiry.Failed) in n.timers
    ensures forall t :: t in w.timers ==> t in n.timers
  {
    Reach(w, Down);
    n := Next(w, Down);
    var o := Step(w.call, Down.input, now);
    DownSteps(w.call.value, now);
    Due(o.fx, now, 20_000);
    ArmedHolds(o.fx, now);
  }

  lemma DownSteps(c: Call, now: nat)
    requires c.id == 1 && c.phase.Connected?
    ensures var o := Step(Some(c), Down.input, now);
            && o.Moved? && o.state.Some? && o.state.value.id == 1 && o.state.value.phase.Reconnecting?
            && |o.fx| == 2 && o.fx[0].Emit? && o.fx[1] == Arm(20_000, 1, Phase.Reconnecting, Expiry.Failed)
  {
  }

  lemma TickAt(w: World, to: nat, phase: Phase, since: nat) returns (n: World)
    requires Reachable(w) && IsAt(w, w.now, phase, since, 20_000) && w.now < to <= 20_000
    ensures Reachable(n) && IsAt(n, to, phase, since, 20_000) && n.timers == w.timers
  {
    Reach(w, Tick(to));
    n := Next(w, Tick(to));
  }

  /** Reachable: a call reconnects twice, and the timer of the first time ends it one second into the
      second. */
  lemma SecondReconnectCutShort() returns (w: World)
    ensures Reachable(w)
    ensures w.call.Some? && w.call.value.phase.Reconnecting? && w.now == w.since + 1_000
    ensures Enabled(w, Fire(Stale)) && Next(w, Fire(Stale)).call.None?
  {
    w := PlacedAt();
    w := AnsweredAt(w);
    w := UpAt(w, Phase.Connecting);
    w := DownAt(w, 0, 0);
    w := UpAt(w, Phase.Reconnecting);
    w := TickAt(w, 19_000, Phase.Connected, 0);
    w := DownAt(w, 19_000, 0);
    w := TickAt(w, 20_000, Phase.Reconnecting, 19_000);
    CoveringTimerEnds(w, Stale);
  }
}
