/**
 What the platform and the history see of a device's calls, over every input sequence: the emitted
 events and recorded rows form well-bracketed call lifetimes.
 */
module CallLifetimes {
  import opened Common
  import opened CallMachine

  /** The call the platform believes in, and whether it was told the call connected. */
  datatype On = On(id: Id, connected: bool)

  /** `owed` is a call whose row was recorded and whose end has not been announced yet, and `closed`
      are the calls that are over: ended, switched away from, or missed without ever ringing. */
  datatype Live = Live(on: Option<On>, owed: Option<Id>, closed: set<Id>)

  const Nothing := Live(None, None, {})

  /** One effect against the lifetime rules; `None` is a violation. They do not mention the
      machine's state: only what was announced and recorded before. */
  function Observe(l: Live, e: Effect): Option<Live> {
    match e
    case Record(_, _, id, verdict, _) =>
      if l.owed.Some? || id in l.closed then None
      else if l.on.Some? && l.on.value.id == id then
        if verdict.Answered? && !l.on.value.connected then None else Some(l.(owed := Some(id)))
      else if verdict.Missed? then Some(l.(owed := Some(id)))
      else None
    case Emit(Ended(id, _, _, reason, duration)) =>
      if l.owed != Some(id) then None
      else if l.on.Some? && l.on.value.id == id then Some(Live(None, None, l.closed + {id}))
      else if reason.Missed? && duration == 0 then Some(Live(l.on, None, l.closed + {id}))
      else None
    case _ =>
      if l.owed.Some? then None
      else if e.Emit? then Announce(l, e.event)
      else Some(l)
  }

  function Announce(l: Live, event: CallEvent): Option<Live> {
    match event
    case Outgoing(id, _, _) =>
      if l.on.None? && id !in l.closed then Some(l.(on := Some(On(id, false)))) else None
    case Incoming(id, _, _, _) =>
      if l.on.None? && id !in l.closed then Some(l.(on := Some(On(id, false)))) else None
    case Switched(from, to, _) =>
      if l.on.Some? && l.on.value.id == from && from != to && to !in l.closed then
        Some(Live(Some(On(to, false)), l.owed, l.closed + {from}))
      else None
    case Connected(id) =>
      if l.on.Some? && l.on.value.id == id then Some(l.(on := Some(On(id, true)))) else None
    case Ended(_, _, _, _, _) => None
    case _ => if l.on.Some? && l.on.value.id == event.call then Some(l) else None
  }

  function ObserveAll(l: Live, fx: seq<Effect>): Option<Live>
    decreases |fx|
  {
    if fx == [] then Some(l)
    else match Observe(l, fx[0])
      case None => None
      case Some(next) => ObserveAll(next, fx[1..])
  }

  lemma {:induction false} ObserveSplit(l: Live, a: seq<Effect>, b: seq<Effect>)
    ensures ObserveAll(l, a + b) ==
            match ObserveAll(l, a) case None => None case Some(mid) => ObserveAll(mid, b)
    decreases |a|
  {
    if a == [] {
      assert a + b == b;
    } else {
      assert (a + b)[0] == a[0] && (a + b)[1..] == a[1..] + b;
      if Observe(l, a[0]).Some? {
        ObserveSplit(Observe(l, a[0]).value, a[1..], b);
      }
    }
  }

  function Along(l: Option<Live>, e: Effect): Option<Live> {
    if l.None? then None else Observe(l.value, e)
  }

  /** `ObserveAll` on the short lists a single transition produces. */
  lemma ObserveShort(l: Live, fx: seq<Effect>)
    requires |fx| <= 4
    ensures |fx| == 0 ==> ObserveAll(l, fx) == Some(l)
    ensures |fx| == 1 ==> ObserveAll(l, fx) == Along(Some(l), fx[0])
    ensures |fx| == 2 ==> ObserveAll(l, fx) == Along(Along(Some(l), fx[0]), fx[1])
    ensures |fx| == 3 ==> ObserveAll(l, fx) == Along(Along(Along(Some(l), fx[0]), fx[1]), fx[2])
    ensures |fx| == 4 ==> ObserveAll(l, fx) == Along(Along(Along(Along(Some(l), fx[0]), fx[1]), fx[2]), fx[3])
  {
    if fx != [] {
      var init, last := fx[..|fx| - 1], fx[|fx| - 1];
      assert fx == init + [last];
      ObserveSplit(l, init, [last]);
      if ObserveAll(l, init).Some? {
        var mid := ObserveAll(l, init).value;
        assert ObserveAll(mid, [last]) == Along(Some(mid), last) by {
          if Observe(mid, last).Some? {
            assert ObserveAll(Observe(mid, last).value, [last][1..]) == Observe(mid, last);
          }
        }
      }
      ObserveShort(l, init);
    }
  }

  function LiveOf(state: Option<Call>, closed: set<Id>): Live {
    match state
    case None => Live(None, None, closed)
    case Some(c) => Live(Some(On(c.id, c.connectedAt.Some?)), None, closed)
  }

  predicate Alive(state: Option<Call>, id: Id) {
    state.Some? && state.value.id == id
  }

  /** The live call is not over. */
  predicate Sound(state: Option<Call>, closed: set<Id>) {
    state.Some? ==> state.value.id !in closed
  }

  /** An offer that stopped ringing on its way. */
  predicate Stale(input: Input, id: Id) {
    input.Offered? && input.offer.paired && IsExpired(input.offer) && input.offer.call == id
  }

  /** An offer that becomes the call: it rings on an idle device, or wins over the device's own. */
  predicate Rings(state: Option<Call>, offer: OfferIn) {
    && offer.paired && !IsExpired(offer)
    && match state
       case None => offer.media
       case Some(c) => c.id != offer.call && c.phase.Offering? && c.peer == offer.from && offer.from < offer.me
  }

  /** A stale copy of the live call's offer or of a finished call's, or an offer or start that reopens
      a finished call. The expiry branch of `on_offer` comes before the check that the offer is the
      current call's, and finished calls are not remembered. */
  predicate Breaks(state: Option<Call>, closed: set<Id>, input: Input) {
    match input
    case Start(id, _, _, _) => state.None? && id in closed
    case Offered(offer) =>
      (Stale(input, offer.call) && (Alive(state, offer.call) || offer.call in closed))
      || (Rings(state, offer) && offer.call in closed)
    case _ => false
  }

  /** The calls that are over after a transition. */
  function Closing(state: Option<Call>, closed: set<Id>, input: Input, o: Outcome): set<Id> {
    if input.Offered? && Stale(input, input.offer.call) then closed + {input.offer.call}
    else if state.Some? && !Alive(After(state, o), state.value.id) then closed + {state.value.id}
    else closed
  }

  predicate InStep(state: Option<Call>, closed: set<Id>, input: Input, o: Outcome) {
    ObserveAll(LiveOf(state, closed), Fx(o)) == Some(LiveOf(After(state, o), Closing(state, closed, input, o)))
  }

  lemma FinishInStep(call: Call, closed: set<Id>, input: Input, reason: EndReason, clock: nat, fx: seq<Effect>)
    requires fx == [] || (|fx| == 1 && fx[0].Signal?)
    requires call.id !in closed && !input.Offered?
    ensures InStep(Some(call), closed, input, Finish(call, reason, clock, fx))
  {
    ObserveShort(LiveOf(Some(call), closed), fx + Farewell(call, reason, clock));
  }

  lemma StaleOfferInStep(state: Option<Call>, closed: set<Id>, offer: OfferIn)
    requires Sound(state, closed) && Stale(Offered(offer), offer.call)
    ensures InStep(state, closed, Offered(offer), OnOffer(state, offer)) <==> !Breaks(state, closed, Offered(offer))
  {
    ObserveShort(LiveOf(state, closed), OnOffer(state, offer).fx);
  }

  lemma OfferInStep(state: Option<Call>, closed: set<Id>, offer: OfferIn)
    requires Sound(state, closed)
    ensures InStep(state, closed, Offered(offer), OnOffer(state, offer)) <==> !Breaks(state, closed, Offered(offer))
  {
    if Stale(Offered(offer), offer.call) {
      StaleOfferInStep(state, closed, offer);
    } else {
      ObserveShort(LiveOf(state, closed), OnOffer(state, offer).fx);
    }
  }

  lemma SignalInStep(state: Option<Call>, closed: set<Id>, msg: Msg, clock: nat)
    requires Sound(state, closed)
    ensures InStep(state, closed, Signalled(msg), OnSignal(state, msg, clock))
  {
    if msg.End? && Alive(state, msg.call) {
      FinishInStep(state.value, closed, Signalled(msg), EndedByPeer(msg.reason, state.value.phase), clock, []);
    } else if msg.Restart? {
      RestartInStep(state, closed, msg, clock);
    } else {
      ObserveShort(LiveOf(state, closed), OnSignal(state, msg, clock).fx);
    }
  }

  lemma RestartInStep(state: Option<Call>, closed: set<Id>, msg: Msg, clock: nat)
    requires Sound(state, closed) && msg.Restart?
    ensures InStep(state, closed, Signalled(msg), OnSignal(state, msg, clock))
  {
    ObserveShort(LiveOf(state, closed), OnSignal(state, msg, clock).fx);
  }

  lemma SessionInStep(state: Option<Call>, closed: set<Id>, id: Id, event: SessionEvent, now: nat, clock: nat)
    requires Sound(state, closed)
    ensures InStep(state, closed, Session(id, event, now), OnSession(state, id, event, now, clock))
  {
    if event.Failed? && Alive(state, id) {
      FinishInStep(state.value, closed, Session(id, event, now), EndReason.Failed, clock, Bye(state.value, WireEnd.Failed));
    } else {
      ObserveShort(LiveOf(state, closed), OnSession(state, id, event, now, clock).fx);
    }
  }

  lemma HangupInStep(state: Option<Call>, closed: set<Id>, input: Input, clock: nat)
    requires Sound(state, closed) && input.Hangup?
    ensures InStep(state, closed, input, Step(state, input, clock))
  {
    if state.Some? {
      FinishInStep(state.value, closed, input, EndReason.Cancelled, clock, Bye(state.value, WireEnd.Hangup));
      FinishInStep(state.value, closed, input, EndReason.Declined, clock, Bye(state.value, WireEnd.Declined));
      FinishInStep(state.value, closed, input, EndReason.Hangup, clock, Bye(state.value, WireEnd.Hangup));
    }
  }

  lemma ExpiredInStep(state: Option<Call>, closed: set<Id>, input: Input, clock: nat)
    requires Sound(state, closed) && input.Expired?
    ensures InStep(state, closed, input, Step(state, input, clock))
  {
    if state.Some? {
      FinishInStep(state.value, closed, input, EndReason.Unanswered, clock, Bye(state.value, WireEnd.Unanswered));
      FinishInStep(state.value, closed, input, EndReason.Failed, clock, Bye(state.value, WireEnd.Failed));
      FinishInStep(state.value, closed, input, EndReason.Missed, clock, []);
    }
  }

  lemma UserInStep(state: Option<Call>, closed: set<Id>, input: Input, clock: nat)
    requires Sound(state, closed)
    requires !input.Offered? && !input.Signalled? && !input.Session? && !input.Hangup? && !input.Expired?
    ensures InStep(state, closed, input, Step(state, input, clock)) <==> !Breaks(state, closed, input)
  {
    if state.Some? && input.Reject? {
      FinishInStep(state.value, closed, input, EndReason.Declined, clock, Bye(state.value, WireEnd.Declined));
    } else if state.Some? && input.OfferLost? {
      FinishInStep(state.value, closed, input, EndReason.Failed, clock, []);
    } else {
      ObserveShort(LiveOf(state, closed), Fx(Step(state, input, clock)));
    }
  }

  /** One transition keeps what was announced in step with the state, if and only if its input is none
      of the three that `Breaks` lists. */
  lemma StepBrackets(state: Option<Call>, closed: set<Id>, input: Input, clock: nat)
    requires Sound(state, closed)
    ensures InStep(state, closed, input, Step(state, input, clock)) <==> !Breaks(state, closed, input)
  {
    match input {
      case Offered(offer) => OfferInStep(state, closed, offer);
      case Signalled(msg) => SignalInStep(state, closed, msg, clock);
      case Session(id, event, now) => SessionInStep(state, closed, id, event, now, clock);
      case Hangup(_) => HangupInStep(state, closed, input, clock);
      case Expired(_, _, _) => ExpiredInStep(state, closed, input, clock);
      case _ => UserInStep(state, closed, input, clock);
    }
  }

  // ---- Runs -----------------------------------------------------------------------------------

  datatype Timed = Timed(input: Input, clock: nat)

  function Moves(state: Option<Call>, m: Timed): Outcome {
    Step(state, m.input, m.clock)
  }

  function States(state: Option<Call>, ins: seq<Timed>): Option<Call>
    decreases |ins|
  {
    if ins == [] then state
    else States(After(state, Moves(state, ins[0])), ins[1..])
  }

  /** All effects of a run, in order. */
  function Trace(state: Option<Call>, ins: seq<Timed>): seq<Effect>
    decreases |ins|
  {
    if ins == [] then []
    else
      var o := Moves(state, ins[0]);
      Fx(o) + Trace(After(state, o), ins[1..])
  }

  /** The call is there all through the run. */
  predicate Lasts(state: Option<Call>, id: Id, ins: seq<Timed>)
    decreases |ins|
  {
    Alive(state, id) && (ins == [] || Lasts(After(state, Moves(state, ins[0])), id, ins[1..]))
  }

  /** No input of the run breaks the lifetimes where it arrives. */
  predicate Clean(state: Option<Call>, closed: set<Id>, ins: seq<Timed>)
    decreases |ins|
  {
    ins == [] ||
    (var o := Moves(state, ins[0]);
     && !Breaks(state, closed, ins[0].input)
     && Clean(After(state, o), Closing(state, closed, ins[0].input, o), ins[1..]))
  }

  /** The trace is accepted, and what it announced last is the machine's state. */
  predicate Follows(l: Live, state: Option<Call>, ins: seq<Timed>) {
    var end := ObserveAll(l, Trace(state, ins));
    end.Some? && end.value == LiveOf(States(state, ins), end.value.closed)
  }

  lemma StaysSound(state: Option<Call>, closed: set<Id>, input: Input, clock: nat)
    requires Sound(state, closed) && !Breaks(state, closed, input)
    ensures var o := Step(state, input, clock); Sound(After(state, o), Closing(state, closed, input, o))
  {
    match input {
      case Offered(offer) =>
      case Signalled(msg) => SignalKeepsCall(state, msg, clock);
      case Session(id, event, now) => SessionKeepsCall(state, id, event, now, clock);
      case _ =>
    }
  }

  /** A message or a session event ends the call or leaves it the same one. */
  lemma SignalKeepsCall(state: Option<Call>, msg: Msg, clock: nat)
    ensures var o := OnSignal(state, msg, clock); o.Moved? && (o.state.Some? ==> Alive(state, o.state.value.id))
  {
  }

  lemma SessionKeepsCall(state: Option<Call>, id: Id, event: SessionEvent, now: nat, clock: nat)
    ensures var o := OnSession(state, id, event, now, clock); o.Moved? && (o.state.Some? ==> Alive(state, o.state.value.id))
  {
  }

  /** The platform was told that the call is over, and it is not. */
  predicate Lost(state: Option<Call>, l: Live) {
    state.Some? && l.on.None? && l.owed.None? && state.value.id in l.closed
  }

  predicate StaysLost(state: Option<Call>, l: Live, o: Outcome) {
    var next := ObserveAll(l, Fx(o));
    next.Some? ==> Lost(After(state, o), next.value)
  }

  lemma FinishShows(call: Call, l: Live, reason: EndReason, clock: nat, fx: seq<Effect>)
    requires fx == [] || (|fx| == 1 && fx[0].Signal?)
    requires Lost(Some(call), l)
    ensures ObserveAll(l, fx + Farewell(call, reason, clock)).None?
  {
    ObserveShort(l, fx + Farewell(call, reason, clock));
  }

  lemma SignalStaysLost(state: Option<Call>, l: Live, msg: Msg, clock: nat)
    requires Lost(state, l)
    ensures StaysLost(state, l, OnSignal(state, msg, clock))
  {
    if msg.End? && Alive(state, msg.call) {
      FinishShows(state.value, l, EndedByPeer(msg.reason, state.value.phase), clock, []);
    } else {
      ObserveShort(l, OnSignal(state, msg, clock).fx);
    }
  }

  lemma SessionStaysLost(state: Option<Call>, l: Live, id: Id, event: SessionEvent, now: nat, clock: nat)
    requires Lost(state, l)
    ensures StaysLost(state, l, OnSession(state, id, event, now, clock))
  {
    if event.Failed? && Alive(state, id) {
      FinishShows(state.value, l, EndReason.Failed, clock, Bye(state.value, WireEnd.Failed));
    } else {
      ObserveShort(l, OnSession(state, id, event, now, clock).fx);
    }
  }

  lemma OfferStaysLost(state: Option<Call>, l: Live, offer: OfferIn)
    requires Lost(state, l)
    ensures StaysLost(state, l, OnOffer(state, offer))
  {
    ObserveShort(l, OnOffer(state, offer).fx);
  }

  lemma ExpiryStaysLost(state: Option<Call>, l: Live, id: Id, phase: Phase, expiry: Expiry, clock: nat)
    requires Lost(state, l)
    ensures StaysLost(state, l, OnExpired(state, id, phase, expiry, clock))
  {
    ObserveShort(l, OnExpired(state, id, phase, expiry, clock).fx);
  }

  lemma UserStaysLost(state: Option<Call>, l: Live, input: Input, clock: nat)
    requires Lost(state, l)
    requires !input.Offered? && !input.Signalled? && !input.Session? && !input.Expired?
    ensures StaysLost(state, l, Step(state, input, clock))
  {
    if input.Hangup? && Alive(state, input.id) {
      HangupShows(state.value, l, clock);
    } else {
      ObserveShort(l, Fx(Step(state, input, clock)));
    }
  }

  lemma HangupShows(call: Call, l: Live, clock: nat)
    requires Lost(Some(call), l)
    ensures ObserveAll(l, OnHangup(call, clock).fx).None?
  {
    ObserveShort(l, OnHangup(call, clock).fx);
  }

  /** Once out of step, a trace is never back in step: the next thing it says of the call is refused. */
  lemma {:induction false} LostForGood(state: Option<Call>, l: Live, ins: seq<Timed>)
    requires Lost(state, l)
    ensures !Follows(l, state, ins)
    decreases |ins|
  {
    if ins != [] {
      var o := Moves(state, ins[0]);
      match ins[0].input {
        case Offered(offer) => OfferStaysLost(state, l, offer);
        case Signalled(msg) => SignalStaysLost(state, l, msg, ins[0].clock);
        case Session(id, event, now) => SessionStaysLost(state, l, id, event, now, ins[0].clock);
        case Expired(id, phase, expiry) => ExpiryStaysLost(state, l, id, phase, expiry, ins[0].clock);
        case input => UserStaysLost(state, l, input, ins[0].clock);
      }
      FollowsOn(l, state, ins[0], ins[1..]);
      if ObserveAll(l, Fx(o)).Some? {
        LostForGood(After(state, o), ObserveAll(l, Fx(o)).value, ins[1..]);
      }
      assert ins == [ins[0]] + ins[1..];
    }
  }

  lemma {:induction false} FollowsOn(l: Live, state: Option<Call>, m: Timed, more: seq<Timed>)
    ensures var o := Moves(state, m);
            var next := ObserveAll(l, Fx(o));
            Follows(l, state, [m] + more) <==> next.Some? && Follows(next.value, After(state, o), more)
  {
    var o := Moves(state, m);
    assert ([m] + more)[0] == m && ([m] + more)[1..] == more;
    ObserveSplit(l, Fx(o), Trace(After(state, o), more));
  }

  /** What `Breaks` lists is refused at once or loses the platform for good. */
  lemma BreakShows(state: Option<Call>, closed: set<Id>, input: Input, clock: nat)
    requires Sound(state, closed) && Breaks(state, closed, input)
    ensures StaysLost(state, LiveOf(state, closed), Step(state, input, clock))
  {
    ObserveShort(LiveOf(state, closed), Fx(Step(state, input, clock)));
  }

  /** A run yields well-bracketed lifetimes if and only if none of its inputs breaks them. */
  lemma {:induction false} WellBracketed(state: Option<Call>, closed: set<Id>, ins: seq<Timed>)
    requires Sound(state, closed)
    ensures Follows(LiveOf(state, closed), state, ins) <==> Clean(state, closed, ins)
    decreases |ins|
  {
    if ins != [] {
      var m, more := ins[0], ins[1..];
      var o, l := Moves(state, m), LiveOf(state, closed);
      assert ins == [m] + more;
      FollowsOn(l, state, m, more);
      if Breaks(state, closed, m.input) {
        BreakShows(state, closed, m.input, m.clock);
        if ObserveAll(l, Fx(o)).Some? {
          LostForGood(After(state, o), ObserveAll(l, Fx(o)).value, more);
        }
      } else {
        StepBrackets(state, closed, m.input, m.clock);
        StaysSound(state, closed, m.input, m.clock);
        WellBracketed(After(state, o), Closing(state, closed, m.input, o), more);
      }
    }
  }

  // ---- Lifetimes counted call by call -------------------------------------------------------

  /** What a trace says of one call: how often it opened and closed, its rows and its ends. */
  datatype Tally = Tally(opens: nat, closes: nat, rows: nat, ends: nat)

  function Bit(b: bool): nat {
    if b then 1 else 0
  }

  function Plus(a: Tally, b: Tally): Tally {
    Tally(a.opens + b.opens, a.closes + b.closes, a.rows + b.rows, a.ends + b.ends)
  }

  function Mark(e: Effect, id: Id): Tally {
    match e
    case Record(_, _, call, _, _) => Tally(0, 0, Bit(call == id), 0)
    case Emit(Outgoing(call, _, _)) => Tally(Bit(call == id), 0, 0, 0)
    case Emit(Incoming(call, _, _, _)) => Tally(Bit(call == id), 0, 0, 0)
    case Emit(Switched(from, to, _)) => Tally(Bit(to == id), Bit(from == id), 0, 0)
    case Emit(Ended(call, _, _, _, _)) => Tally(0, Bit(call == id), 0, Bit(call == id))
    case _ => Tally(0, 0, 0, 0)
  }

  function Tallied(fx: seq<Effect>, id: Id): Tally
    decreases |fx|
  {
    if fx == [] then Tally(0, 0, 0, 0) else Plus(Tallied(fx[..|fx| - 1], id), Mark(fx[|fx| - 1], id))
  }

  lemma {:induction false} TalliesAdd(a: seq<Effect>, b: seq<Effect>, id: Id)
    ensures Tallied(a + b, id) == Plus(Tallied(a, id), Tallied(b, id))
    decreases |b|
  {
    if b == [] {
      assert a + b == a;
    } else {
      assert (a + b)[..|a + b| - 1] == a + b[..|b| - 1];
      TalliesAdd(a, b[..|b| - 1], id);
    }
  }

  /** Says nothing of any call's opening, closing or row. */
  predicate Plain(e: Effect) {
    && !e.Record?
    && (e.Emit? ==> !e.event.Outgoing? && !e.event.Incoming? && !e.event.Switched? && !e.event.Ended?)
  }

  lemma {:induction false} PlainTallies(fx: seq<Effect>, id: Id)
    requires forall i :: 0 <= i < |fx| ==> Plain(fx[i])
    ensures Tallied(fx, id) == Tally(0, 0, 0, 0)
    decreases |fx|
  {
    if fx != [] {
      assert Plain(fx[|fx| - 1]);
      PlainTallies(fx[..|fx| - 1], id);
    }
  }

  lemma {:induction false} SingleTallies(fx: seq<Effect>, id: Id)
    requires |fx| == 1
    ensures Tallied(fx, id) == Mark(fx[0], id)
  {
    assert fx[..0] == [];
  }

  /** One telling effect among plain ones. */
  lemma {:induction false} OneTallies(before: seq<Effect>, e: Effect, after: seq<Effect>, id: Id)
    requires forall i :: 0 <= i < |before| ==> Plain(before[i])
    requires forall i :: 0 <= i < |after| ==> Plain(after[i])
    ensures Tallied(before + [e] + after, id) == Mark(e, id)
  {
    PlainTallies(before, id);
    PlainTallies(after, id);
    TalliesAdd(before, [e], id);
    TalliesAdd(before + [e], after, id);
    SingleTallies([e], id);
  }

  /** How a call ended, as its row and the platform's notice say it. */
  datatype Parting = Parting(call: Id, peer: Key, conversation: Id, verdict: Verdict, outgoing: bool,
                             reason: EndReason, duration: nat)

  function RowOf(p: Parting): Effect {
    Record(p.conversation, p.peer, p.call, p.verdict, p.outgoing)
  }

  function NoticeOf(p: Parting): Effect {
    Emit(CallEvent.Ended(p.call, p.peer, p.conversation, p.reason, p.duration))
  }

  /** A row and its end after plain effects. */
  lemma {:induction false} PairTallies(before: seq<Effect>, pair: seq<Effect>, p: Parting, id: Id)
    requires forall i :: 0 <= i < |before| ==> Plain(before[i])
    requires |pair| == 2 && pair[0] == RowOf(p) && pair[1] == NoticeOf(p)
    ensures Tallied(before + pair, id) == Tally(0, Bit(p.call == id), Bit(p.call == id), Bit(p.call == id))
  {
    PlainTallies(before, id);
    TalliesAdd(before, pair, id);
    TwoTally(pair, id);
    PartingMarks(pair[0], pair[1], p, id);
    PartingSum(Tallied(before, id), Mark(pair[0], id), Mark(pair[1], id), Bit(p.call == id));
  }

  lemma PartingMarks(row: Effect, end: Effect, p: Parting, id: Id)
    requires row == RowOf(p) && end == NoticeOf(p)
    ensures Mark(row, id) == Tally(0, 0, Bit(p.call == id), 0)
    ensures Mark(end, id) == Tally(0, Bit(p.call == id), 0, Bit(p.call == id))
  {
  }

  lemma PartingSum(before: Tally, row: Tally, end: Tally, n: nat)
    requires before == Tally(0, 0, 0, 0) && row == Tally(0, 0, n, 0) && end == Tally(0, n, 0, n)
    ensures Plus(before, Plus(row, end)) == Tally(0, n, n, n)
  {
  }

  lemma {:induction false} TwoTally(fx: seq<Effect>, id: Id)
    requires |fx| == 2
    ensures Tallied(fx, id) == Plus(Mark(fx[0], id), Mark(fx[1], id))
  {
    SingleTallies(fx[..1], id);
  }

  /** A transition opens exactly the call it brings to life, and closes exactly the one it ends and
      the one whose offer arrives stale; every row has its end. */
  predicate Counted(state: Option<Call>, input: Input, o: Outcome, id: Id) {
    CountedBy(Tallied(Fx(o), id), state, input, o, id)
  }

  predicate CountedBy(t: Tally, state: Option<Call>, input: Input, o: Outcome, id: Id) {
    var next := After(state, o);
    && t.opens == Bit(!Alive(state, id) && Alive(next, id))
    && t.closes == Bit(Alive(state, id) && !Alive(next, id)) + Bit(Stale(input, id))
    && t.rows == t.ends
  }

  lemma FinishCounts(call: Call, input: Input, reason: EndReason, clock: nat, fx: seq<Effect>, id: Id)
    requires fx == [] || (|fx| == 1 && fx[0].Signal?)
    requires !input.Offered?
    ensures Counted(Some(call), input, Finish(call, reason, clock, fx), id)
  {
    var p := Parting(call.id, call.peer, call.conversation, VerdictOf(call, reason, clock), call.outgoing,
                     reason, Duration(call, clock));
    PairTallies(fx, Farewell(call, reason, clock), p, id);
  }

  /** Neither the call nor anything told of it changes. */
  lemma PlainCounts(state: Option<Call>, input: Input, o: Outcome, id: Id)
    requires forall i :: 0 <= i < |Fx(o)| ==> Plain(Fx(o)[i])
    requires Alive(state, id) <==> Alive(After(state, o), id)
    requires !Stale(input, id)
    ensures Counted(state, input, o, id)
  {
    PlainTallies(Fx(o), id);
  }

  lemma OpeningCounts(state: Option<Call>, input: Input, o: Outcome, before: seq<Effect>, e: Effect, after: seq<Effect>, id: Id)
    requires Fx(o) == before + [e] + after
    requires forall i :: 0 <= i < |before| ==> Plain(before[i])
    requires forall i :: 0 <= i < |after| ==> Plain(after[i])
    requires !Stale(input, id)
    requires Mark(e, id) == Tally(Bit(!Alive(state, id) && Alive(After(state, o), id)),
                                  Bit(Alive(state, id) && !Alive(After(state, o), id)), 0, 0)
    ensures Counted(state, input, o, id)
  {
    OneTallies(before, e, after, id);
  }

  lemma OfferCounts(state: Option<Call>, offer: OfferIn, id: Id)
    ensures Counted(state, Offered(offer), OnOffer(state, offer), id)
  {
    if Stale(Offered(offer), offer.call) {
      StaleOfferCounts(state, offer, id);
    } else if Rings(state, offer) {
      RingingOfferCounts(state, offer, id);
    } else {
      PlainCounts(state, Offered(offer), OnOffer(state, offer), id);
    }
  }

  lemma StaleOfferCounts(state: Option<Call>, offer: OfferIn, id: Id)
    requires Stale(Offered(offer), offer.call)
    ensures Counted(state, Offered(offer), OnOffer(state, offer), id)
  {
    var fx := OnOffer(state, offer).fx;
    var p := Parting(offer.call, offer.from, offer.conversation, Verdict.Missed, false, EndReason.Missed, 0);
    PairTallies([], fx, p, id);
    assert [] + fx == fx;
  }

  lemma RingingOfferCounts(state: Option<Call>, offer: OfferIn, id: Id)
    requires Rings(state, offer)
    ensures Counted(state, Offered(offer), OnOffer(state, offer), id)
  {
    var o := OnOffer(state, offer);
    var fx := o.fx;
    if state.None? {
      assert fx == [fx[0]] + [fx[1]] + [fx[2]];
      OpeningCounts(state, Offered(offer), o, [fx[0]], fx[1], [fx[2]], id);
    } else {
      assert fx == [] + [fx[0]] + fx[1..];
      OpeningCounts(state, Offered(offer), o, [], fx[0], fx[1..], id);
    }
  }

  lemma SignalCounts(state: Option<Call>, msg: Msg, clock: nat, id: Id)
    ensures Counted(state, Signalled(msg), OnSignal(state, msg, clock), id)
  {
    if msg.End? && Alive(state, msg.call) {
      FinishCounts(state.value, Signalled(msg), EndedByPeer(msg.reason, state.value.phase), clock, [], id);
    } else {
      SignalPlain(state, msg, clock);
      SameCallCounts(state, Signalled(msg), OnSignal(state, msg, clock), id);
    }
  }

  lemma SignalPlain(state: Option<Call>, msg: Msg, clock: nat)
    requires !(msg.End? && Alive(state, msg.call))
    ensures var o := OnSignal(state, msg, clock);
            && o.Moved? && (forall i :: 0 <= i < |Fx(o)| ==> Plain(Fx(o)[i]))
            && (state.None? <==> o.state.None?) && (state.Some? ==> o.state.value.id == state.value.id)
  {
  }

  lemma SessionCounts(state: Option<Call>, call: Id, event: SessionEvent, now: nat, clock: nat, id: Id)
    ensures Counted(state, Session(call, event, now), OnSession(state, call, event, now, clock), id)
  {
    var input := Session(call, event, now);
    if event.Failed? && Alive(state, call) {
      SessionFailureCounts(state.value, now, clock, id);
    } else {
      SessionPlain(state, call, event, now, clock);
      SameCallCounts(state, input, OnSession(state, call, event, now, clock), id);
    }
  }

  lemma SessionFailureCounts(c: Call, now: nat, clock: nat, id: Id)
    ensures Counted(Some(c), Session(c.id, SessionEvent.Failed, now), OnSession(Some(c), c.id, SessionEvent.Failed, now, clock), id)
  {
    var input := Session(c.id, SessionEvent.Failed, now);
    SessionFailureFinishes(c, now, clock);
    FinishCounts(c, input, EndReason.Failed, clock, Bye(c, WireEnd.Failed), id);
  }

  lemma SessionFailureFinishes(c: Call, now: nat, clock: nat)
    ensures OnSession(Some(c), c.id, SessionEvent.Failed, now, clock)
         == Finish(c, EndReason.Failed, clock, Bye(c, WireEnd.Failed))
  {
  }

  lemma SameCallCounts(state: Option<Call>, input: Input, o: Outcome, id: Id)
    requires o.Moved? && !input.Offered? && forall i :: 0 <= i < |Fx(o)| ==> Plain(Fx(o)[i])
    requires (state.None? <==> o.state.None?) && (state.Some? ==> o.state.value.id == state.value.id)
    ensures Counted(state, input, o, id)
  {
    PlainCounts(state, input, o, id);
  }

  lemma SessionPlain(state: Option<Call>, call: Id, event: SessionEvent, now: nat, clock: nat)
    requires !(event.Failed? && Alive(state, call))
    ensures var o := OnSession(state, call, event, now, clock);
            && o.Moved? && (forall i :: 0 <= i < |Fx(o)| ==> Plain(Fx(o)[i]))
            && (state.None? <==> o.state.None?) && (state.Some? ==> o.state.value.id == state.value.id)
  {
  }

  lemma UserCounts(state: Option<Call>, input: Input, clock: nat, id: Id)
    requires !input.Offered? && !input.Signalled? && !input.Session? && !input.Hangup? && !input.Expired?
    ensures Counted(state, input, Step(state, input, clock), id)
  {
    var o := Step(state, input, clock);
    if input.Start? && state.None? {
      var fx := Fx(o);
      assert fx == [] + [fx[0]] + [fx[1], fx[2]];
      OpeningCounts(state, input, o, [], fx[0], [fx[1], fx[2]], id);
    } else if input.Reject? && Alive(state, input.id) && state.value.phase.Ringing? {
      FinishCounts(state.value, input, EndReason.Declined, clock, Bye(state.value, WireEnd.Declined), id);
    } else if input.OfferLost? && Alive(state, input.id) {
      FinishCounts(state.value, input, EndReason.Failed, clock, [], id);
    } else {
      PlainCounts(state, input, o, id);
    }
  }

  lemma HangupCounts(state: Option<Call>, input: Input, clock: nat, id: Id)
    requires input.Hangup?
    ensures Counted(state, input, Step(state, input, clock), id)
  {
    if Alive(state, input.id) {
      var c := state.value;
      match c.phase {
        case Offering => FinishCounts(c, input, EndReason.Cancelled, clock, Bye(c, WireEnd.Hangup), id);
        case Ringing => FinishCounts(c, input, EndReason.Declined, clock, Bye(c, WireEnd.Declined), id);
        case _ => FinishCounts(c, input, EndReason.Hangup, clock, Bye(c, WireEnd.Hangup), id);
      }
    } else {
      PlainCounts(state, input, Step(state, input, clock), id);
    }
  }

  lemma ExpiryCounts(state: Option<Call>, input: Input, clock: nat, id: Id)
    requires input.Expired?
    ensures Counted(state, input, Step(state, input, clock), id)
  {
    if Alive(state, input.id) && state.value.phase == input.phase {
      var c := state.value;
      match input.expiry {
        case Unanswered => FinishCounts(c, input, EndReason.Unanswered, clock, Bye(c, WireEnd.Unanswered), id);
        case Failed => FinishCounts(c, input, EndReason.Failed, clock, Bye(c, WireEnd.Failed), id);
        case Missed => FinishCounts(c, input, EndReason.Missed, clock, [], id);
      }
    } else {
      PlainCounts(state, input, Step(state, input, clock), id);
    }
  }

  lemma StepCounts(state: Option<Call>, input: Input, clock: nat, id: Id)
    ensures Counted(state, input, Step(state, input, clock), id)
  {
    match input {
      case Offered(offer) => OfferCounts(state, offer, id);
      case Signalled(msg) => SignalCounts(state, msg, clock, id);
      case Session(call, event, now) => SessionCounts(state, call, event, now, clock, id);
      case Hangup(_) => HangupCounts(state, input, clock, id);
      case Expired(_, _, _) => ExpiryCounts(state, input, clock, id);
      case _ => UserCounts(state, input, clock, id);
    }
  }

  /** How often a call was closed, and once more while it is on. */
  function Due(past: seq<Effect>, state: Option<Call>, id: Id): nat {
    Owed(Tallied(past, id), state, id)
  }

  function Owed(t: Tally, state: Option<Call>, id: Id): nat {
    t.closes + Bit(Alive(state, id))
  }

  /** A call opens at most once, and once open it closes exactly once unless it is the live one; an
      offer that never rang closes at most once without opening. */
  predicate Balanced(fx: seq<Effect>, id: Id, alive: bool) {
    var t := Tallied(fx, id);
    && t.opens <= 1
    && (t.opens == 1 ==> t.closes + Bit(alive) == 1)
    && (t.opens == 0 ==> t.closes <= 1 && !alive)
  }

  /** What every run keeps, clean or not: a live call was opened, no call was opened more often than
      it is due, the closed calls are those the trace closed, and every row has its end. */
  predicate Kept(past: seq<Effect>, state: Option<Call>, closed: set<Id>, id: Id) {
    KeptBy(Tallied(past, id), state, closed, id)
  }

  predicate KeptBy(t: Tally, state: Option<Call>, closed: set<Id>, id: Id) {
    && (Alive(state, id) ==> t.opens >= 1)
    && t.opens <= Owed(t, state, id)
    && (id in closed <==> t.closes >= 1)
    && t.rows == t.ends
  }

  lemma BalancedIffDue(past: seq<Effect>, state: Option<Call>, closed: set<Id>, id: Id)
    requires Kept(past, state, closed, id)
    ensures Balanced(past, id, Alive(state, id)) <==> Due(past, state, id) <= 1
  {
  }

  lemma TallyKeeps(t: Tally, step: Tally, state: Option<Call>, closed: set<Id>, input: Input, o: Outcome, id: Id)
    requires KeptBy(t, state, closed, id) && CountedBy(step, state, input, o, id)
    requires input.Offered? && Stale(input, input.offer.call) ==> After(state, o) == state
    ensures KeptBy(Plus(t, step), After(state, o), Closing(state, closed, input, o), id)
    ensures Owed(Plus(t, step), After(state, o), id)
         == Owed(t, state, id) + Bit(!Alive(state, id) && Alive(After(state, o), id)) + Bit(Stale(input, id))
  {
  }

  /** A transition is due one more for the call it opens and for the call whose offer arrives stale. */
  lemma {:induction false} StepKeepsBooks(past: seq<Effect>, state: Option<Call>, closed: set<Id>, input: Input, o: Outcome, id: Id)
    requires Kept(past, state, closed, id) && Counted(state, input, o, id)
    requires input.Offered? && Stale(input, input.offer.call) ==> After(state, o) == state
    ensures Kept(past + Fx(o), After(state, o), Closing(state, closed, input, o), id)
    ensures Due(past + Fx(o), After(state, o), id)
         == Due(past, state, id) + Bit(!Alive(state, id) && Alive(After(state, o), id)) + Bit(Stale(input, id))
  {
    TalliesAdd(past, Fx(o), id);
    TallyKeeps(Tallied(past, id), Tallied(Fx(o), id), state, closed, input, o, id);
  }

  lemma {:induction false} MoveKeepsBooks(past: seq<Effect>, state: Option<Call>, closed: set<Id>, m: Timed, id: Id)
    requires Kept(past, state, closed, id)
    ensures var o := Moves(state, m);
            && Kept(past + Fx(o), After(state, o), Closing(state, closed, m.input, o), id)
            && Due(past + Fx(o), After(state, o), id)
               == Due(past, state, id) + Bit(!Alive(state, id) && Alive(After(state, o), id)) + Bit(Stale(m.input, id))
  {
    StepCounts(state, m.input, m.clock, id);
    StepKeepsBooks(past, state, closed, m.input, Moves(state, m), id);
  }

  /** Only a start and an offer that rings bring a call to life, and they always do. */
  lemma OpensByName(state: Option<Call>, input: Input, clock: nat, id: Id)
    ensures var next := After(state, Step(state, input, clock));
            !Alive(state, id) && Alive(next, id) <==>
              (match input
               case Start(call, _, _, _) => state.None? && call == id
               case Offered(offer) => Rings(state, offer) && offer.call == id
               case _ => false)
  {
    match input {
      case Offered(offer) =>
      case Signalled(msg) => SignalKeepsCall(state, msg, clock);
      case Session(call, event, now) => SessionKeepsCall(state, call, event, now, clock);
      case _ =>
    }
  }

  function ClosedBy(state: Option<Call>, closed: set<Id>, ins: seq<Timed>): set<Id>
    decreases |ins|
  {
    if ins == [] then closed
    else
      var o := Moves(state, ins[0]);
      ClosedBy(After(state, o), Closing(state, closed, ins[0].input, o), ins[1..])
  }

  lemma {:induction false} Appended(past: seq<Effect>, fx: seq<Effect>, rest: seq<Effect>)
    ensures past + (fx + rest) == (past + fx) + rest
  {
  }

  /** Nothing that is due is ever written off. */
  lemma {:induction false} BooksKept(past: seq<Effect>, state: Option<Call>, closed: set<Id>, ins: seq<Timed>, id: Id)
    requires Kept(past, state, closed, id)
    ensures Kept(past + Trace(state, ins), States(state, ins), ClosedBy(state, closed, ins), id)
    ensures Due(past + Trace(state, ins), States(state, ins), id) >= Due(past, state, id)
    decreases |ins|
  {
    if ins == [] {
      assert past + [] == past;
    } else {
      var o := Moves(state, ins[0]);
      MoveKeepsBooks(past, state, closed, ins[0], id);
      BooksKept(past + Fx(o), After(state, o), Closing(state, closed, ins[0].input, o), ins[1..], id);
      Appended(past, Fx(o), Trace(After(state, o), ins[1..]));
    }
  }

  lemma CleanMove(past: seq<Effect>, state: Option<Call>, closed: set<Id>, m: Timed, id: Id)
    requires Kept(past, state, closed, id) && Due(past, state, id) <= 1 && !Breaks(state, closed, m.input)
    ensures Due(past + Fx(Moves(state, m)), After(state, Moves(state, m)), id) <= 1
  {
    MoveKeepsBooks(past, state, closed, m, id);
    OpensByName(state, m.input, m.clock, id);
  }

  lemma {:induction false} CleanStaysDue(past: seq<Effect>, state: Option<Call>, closed: set<Id>, ins: seq<Timed>, id: Id)
    requires Kept(past, state, closed, id) && Due(past, state, id) <= 1 && Clean(state, closed, ins)
    ensures Due(past + Trace(state, ins), States(state, ins), id) <= 1
    decreases |ins|
  {
    if ins == [] {
      assert past + [] == past;
    } else {
      var o := Moves(state, ins[0]);
      CleanMove(past, state, closed, ins[0], id);
      MoveKeepsBooks(past, state, closed, ins[0], id);
      CleanStaysDue(past + Fx(o), After(state, o), Closing(state, closed, ins[0].input, o), ins[1..], id);
      Appended(past, Fx(o), Trace(After(state, o), ins[1..]));
    }
  }

  /** The call a breaking input names is due twice from then on. */
  lemma BreakCosts(past: seq<Effect>, state: Option<Call>, closed: set<Id>, m: Timed, id: Id)
    requires Kept(past, state, closed, id) && Breaks(state, closed, m.input) && Brings(m.input) == Some(id)
    ensures Due(past + Fx(Moves(state, m)), After(state, Moves(state, m)), id) >= 2
  {
    MoveKeepsBooks(past, state, closed, m, id);
    OpensByName(state, m.input, m.clock, id);
  }

  lemma {:induction false} UncleanCosts(past: seq<Effect>, state: Option<Call>, closed: set<Id>, ins: seq<Timed>) returns (id: Id)
    requires forall call :: Kept(past, state, closed, call)
    requires !Clean(state, closed, ins)
    ensures Due(past + Trace(state, ins), States(state, ins), id) >= 2
    decreases |ins|
  {
    var m, more := ins[0], ins[1..];
    var o := Moves(state, m);
    var next := Closing(state, closed, m.input, o);
    if Breaks(state, closed, m.input) {
      id := Brings(m.input).value;
      BreakCosts(past, state, closed, m, id);
      MoveKeepsBooks(past, state, closed, m, id);
      BooksKept(past + Fx(o), After(state, o), next, more, id);
    } else {
      forall call
        ensures Kept(past + Fx(o), After(state, o), next, call)
      {
        MoveKeepsBooks(past, state, closed, m, call);
      }
      id := UncleanCosts(past + Fx(o), After(state, o), next, more);
    }
    Appended(past, Fx(o), Trace(After(state, o), more));
  }

  /** The id an input brings into the world: ours when we call, theirs when an offer arrives. */
  function Brings(input: Input): Option<Id> {
    match input
    case Start(id, _, _, _) => Some(id)
    case Offered(offer) => Some(offer.call)
    case _ => None
  }

  ghost predicate AllBalanced(ins: seq<Timed>) {
    forall id :: Balanced(Trace(None, ins), id, Alive(States(None, ins), id))
  }

  /** From idle, over every run: the books of every call balance if and only if no input breaks the
      lifetimes, and that is when the trace follows them; and whatever arrives, every call has as many
      rows as ends. */
  lemma {:induction false} Lifetimes(ins: seq<Timed>)
    ensures AllBalanced(ins) <==> Clean(None, {}, ins)
    ensures Follows(Nothing, None, ins) <==> Clean(None, {}, ins)
    ensures forall id :: Tallied(Trace(None, ins), id).rows == Tallied(Trace(None, ins), id).ends
  {
    var fx, end := Trace(None, ins), States(None, ins);
    assert [] + fx == fx;
    forall id
      ensures Tallied(fx, id).rows == Tallied(fx, id).ends
      ensures Clean(None, {}, ins) ==> Due(fx, end, id) <= 1
      ensures Balanced(fx, id, Alive(end, id)) <==> Due(fx, end, id) <= 1
    {
      BooksKept([], None, {}, ins, id);
      BalancedIffDue(fx, end, ClosedBy(None, {}, ins), id);
      if Clean(None, {}, ins) {
        CleanStaysDue([], None, {}, ins, id);
      }
    }
    if !Clean(None, {}, ins) {
      var id := UncleanCosts([], None, {}, ins);
      assert !Balanced(fx, id, Alive(end, id));
    }
    WellBracketed(None, {}, ins);
  }

  /** Offers are delivered at most once and call ids are drawn fresh. */
  predicate Fresh(used: set<Id>, ins: seq<Timed>)
    decreases |ins|
  {
    ins == [] ||
    (&& (Brings(ins[0].input).Some? ==> Brings(ins[0].input).value !in used)
     && Fresh(Using(used, ins[0].input), ins[1..]))
  }

  function Using(used: set<Id>, input: Input): set<Id> {
    match Brings(input) case None => used case Some(id) => used + {id}
  }

  /** Offers delivered at most once break nothing. */
  lemma {:induction false} DeliveredOnceIsClean(state: Option<Call>, closed: set<Id>, used: set<Id>, ins: seq<Timed>)
    requires Fresh(used, ins) && closed <= used && (state.Some? ==> state.value.id in used)
    ensures Clean(state, closed, ins)
    decreases |ins|
  {
    if ins != [] {
      var o := Moves(state, ins[0]);
      if After(state, o).Some? {
        OpensByName(state, ins[0].input, ins[0].clock, After(state, o).value.id);
      }
      DeliveredOnceIsClean(After(state, o), Closing(state, closed, ins[0].input, o), Using(used, ins[0].input), ins[1..]);
    }
  }

  // ---- Copies of a call's offer ---------------------------------------------------------------

  const SampleOffer := OfferIn(3, 9, 1, 30_000, false, CallMachine.Remote.Remote("", "", [], 0, 0, []), true, 5, 0, true)

  const StaleCopy := Offered(SampleOffer.(now := 30_000 + CLOCK_SKEW + 1))

  const Ringing1 := [Timed(Offered(SampleOffer), 0)]

  const Finished1 := [Timed(Offered(SampleOffer), 0), Timed(Input.Hangup(1), 0)]

  lemma {:induction false} OneMore(state: Option<Call>, closed: set<Id>, m: Timed, more: seq<Timed>)
    ensures var o := Moves(state, m);
            && States(state, [m] + more) == States(After(state, o), more)
            && ClosedBy(state, closed, [m] + more) == ClosedBy(After(state, o), Closing(state, closed, m.input, o), more)
  {
    assert ([m] + more)[0] == m && ([m] + more)[1..] == more;
  }

  lemma SampleRuns()
    ensures States(None, Ringing1) == Some(AnsweringCall(SampleOffer, Phase.Ringing, false))
    ensures States(None, Finished1) == None && ClosedBy(None, {}, Finished1) == {1}
  {
    var rung := Some(AnsweringCall(SampleOffer, Phase.Ringing, false));
    var offered, hungUp := Timed(Offered(SampleOffer), 0), Timed(Input.Hangup(1), 0);
    OneMore(None, {}, offered, []);
    OneMore(None, {}, offered, [hungUp]);
    OneMore(rung, {}, hungUp, []);
    assert [offered] + [] == Ringing1 && [offered] + [hungUp] == Finished1 && [hungUp] + [] == [hungUp];
    assert After(None, Moves(None, offered)) == rung && Closing(None, {}, Offered(SampleOffer), Moves(None, offered)) == {};
    assert After(rung, Moves(rung, hungUp)) == None && Closing(rung, {}, Input.Hangup(1), Moves(rung, hungUp)) == {} + {1};
  }

  /** Each of the three ways to break the lifetimes is reached from idle: the stale copy announces the
      end of a call that goes on ringing, and of a finished call once more; the copy that is still
      fresh rings a finished call again. */
  lemma CopiesBreakLifetimes()
    ensures var state := States(None, Ringing1);
            && Breaks(state, {}, StaleCopy)
            && Step(state, StaleCopy, 0).state == state && Alive(state, 1)
            && Emit(CallEvent.Ended(1, 3, 9, EndReason.Missed, 0)) in Fx(Step(state, StaleCopy, 0))
    ensures var state, closed := States(None, Finished1), ClosedBy(None, {}, Finished1);
            && 1 in closed && Breaks(state, closed, StaleCopy) && Breaks(state, closed, Offered(SampleOffer))
            && Emit(CallEvent.Ended(1, 3, 9, EndReason.Missed, 0)) in Fx(Step(state, StaleCopy, 0))
            && Emit(CallEvent.Incoming(1, 3, 9, false)) in Fx(Step(state, Offered(SampleOffer), 0))
  {
    SampleRuns();
    assert Fx(OnOffer(None, StaleCopy.offer))[1] == Emit(CallEvent.Ended(1, 3, 9, EndReason.Missed, 0));
    assert Fx(OnOffer(States(None, Ringing1), StaleCopy.offer))[1] == Emit(CallEvent.Ended(1, 3, 9, EndReason.Missed, 0));
    assert Fx(OnOffer(None, SampleOffer))[1] == Emit(CallEvent.Incoming(1, 3, 9, false));
  }

  // ---- What an accepted trace says ------------------------------------------------------------

  predicate Accepted(fx: seq<Effect>) {
    ObserveAll(Nothing, fx).Some?
  }

  lemma {:induction false} PrefixObserved(fx: seq<Effect>, i: nat)
    requires Accepted(fx) && i < |fx|
    ensures var before := ObserveAll(Nothing, fx[..i]);
            && before.Some?
            && Observe(before.value, fx[i]).Some?
            && ObserveAll(Nothing, fx[..i + 1]) == Observe(before.value, fx[i])
  {
    ObserveSplit(Nothing, fx[..i], fx[i..]);
    assert fx == fx[..i] + fx[i..];
    ObserveSplit(Nothing, fx[..i], [fx[i]]);
    assert fx[..i + 1] == fx[..i] + [fx[i]];
    var before := ObserveAll(Nothing, fx[..i]).value;
    assert ObserveAll(before, [fx[i]]) == Observe(before, fx[i]) by {
      ObserveShort(before, [fx[i]]);
    }
  }

  lemma {:induction false} ConnectedWasAnnounced(fx: seq<Effect>, id: Id)
    requires Accepted(fx) && ObserveAll(Nothing, fx).value.on == Some(On(id, true))
    ensures Emit(CallEvent.Connected(id)) in fx
    decreases |fx|
  {
    if fx != [] {
      var last := |fx| - 1;
      PrefixObserved(fx, last);
      assert fx[..last + 1] == fx;
      if fx[last] != Emit(CallEvent.Connected(id)) {
        ConnectedWasAnnounced(fx[..last], id);
      }
    }
  }

  /** In an accepted trace every announced end directly follows its own row, and a row that reads
      "answered" comes after its call was announced connected. */
  lemma EndsFollowTheirRow(fx: seq<Effect>, i: nat)
    requires Accepted(fx) && i < |fx|
    ensures fx[i].Emit? && fx[i].event.Ended? ==> i > 0 && fx[i - 1].Record? && fx[i - 1].id == fx[i].event.call
    ensures fx[i].Record? && fx[i].verdict.Answered? ==> Emit(CallEvent.Connected(fx[i].id)) in fx[..i]
  {
    PrefixObserved(fx, i);
    if fx[i].Emit? && fx[i].event.Ended? && i > 0 {
      PrefixObserved(fx, i - 1);
    }
    if fx[i].Record? && fx[i].verdict.Answered? {
      ConnectedWasAnnounced(fx[..i], fx[i].id);
    }
  }

  predicate Mentions(e: Effect, id: Id) {
    match e
    case Record(_, _, call, _, _) => call == id
    case Emit(Switched(from, to, _)) => from == id || to == id
    case Emit(event) => event.call == id
    case _ => false
  }

  predicate Upright(l: Live) {
    && (l.on.Some? ==> l.on.value.id !in l.closed)
    && (l.owed.Some? ==> l.owed.value !in l.closed)
  }

  lemma ObserveUpright(l: Live, e: Effect, id: Id)
    requires Upright(l) && Observe(l, e).Some?
    ensures Upright(Observe(l, e).value) && l.closed <= Observe(l, e).value.closed
    ensures id in l.closed ==> !Mentions(e, id)
    ensures Mark(e, id).closes >= 1 ==> id in Observe(l, e).value.closed
  {
  }

  lemma {:induction false} ClosedAlong(fx: seq<Effect>, i: nat, j: nat, id: Id)
    requires Accepted(fx) && i < j <= |fx| && Mark(fx[i], id).closes >= 1
    ensures ObserveAll(Nothing, fx[..j]).Some? && id in ObserveAll(Nothing, fx[..j]).value.closed
    decreases j
  {
    UprightAlong(fx, j - 1);
    PrefixObserved(fx, j - 1);
    ObserveUpright(ObserveAll(Nothing, fx[..j - 1]).value, fx[j - 1], id);
    if i < j - 1 {
      ClosedAlong(fx, i, j - 1, id);
    }
  }

  lemma {:induction false} UprightAlong(fx: seq<Effect>, j: nat)
    requires Accepted(fx) && j <= |fx|
    ensures ObserveAll(Nothing, fx[..j]).Some? && Upright(ObserveAll(Nothing, fx[..j]).value)
    decreases j
  {
    if j > 0 {
      UprightAlong(fx, j - 1);
      PrefixObserved(fx, j - 1);
      ObserveUpright(ObserveAll(Nothing, fx[..j - 1]).value, fx[j - 1], 0);
    }
  }

  /** In an accepted trace nothing is announced or recorded of a call that is over. */
  lemma ClosedStaysSilent(fx: seq<Effect>, i: nat, j: nat, id: Id)
    requires Accepted(fx) && i < j < |fx| && Mark(fx[i], id).closes >= 1
    ensures !Mentions(fx[j], id)
  {
    ClosedAlong(fx, i, j, id);
    UprightAlong(fx, j);
    PrefixObserved(fx, j);
    ObserveUpright(ObserveAll(Nothing, fx[..j]).value, fx[j], id);
  }
}
