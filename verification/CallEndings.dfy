/**
 How a call ends (libcore/src/call/mod.rs): which transitions end it, what each of them tells the
 peer, the history and the platform, and what the peer's device makes of it.
 */
module CallEndings {
  import opened Common
  import opened CallMachine
  import opened CallLifetimes

  /** The message that tells a peer a call is over. */
  predicate IsNotice(e: Effect) {
    e.Signal? && e.msg.End?
  }

  /** A row in the history, or the platform's notice of an end. */
  predicate IsClosing(e: Effect) {
    e.Record? || (e.Emit? && e.event.Ended?)
  }

  function Notices(fx: seq<Effect>): seq<Effect> {
    if fx == [] then [] else (if IsNotice(fx[0]) then [fx[0]] else []) + Notices(fx[1..])
  }

  function Closings(fx: seq<Effect>): seq<Effect> {
    if fx == [] then [] else (if IsClosing(fx[0]) then [fx[0]] else []) + Closings(fx[1..])
  }

  lemma {:induction false} NoneAmong(fx: seq<Effect>)
    ensures (forall i :: 0 <= i < |fx| ==> !IsNotice(fx[i])) ==> Notices(fx) == []
    ensures (forall i :: 0 <= i < |fx| ==> !IsClosing(fx[i])) ==> Closings(fx) == []
    decreases |fx|
  {
    if fx != [] {
      assert forall i :: 0 <= i < |fx| - 1 ==> fx[1..][i] == fx[i + 1];
      NoneAmong(fx[1..]);
    }
  }

  lemma FirstOf(e: Effect, rest: seq<Effect>)
    ensures Notices([e] + rest) == (if IsNotice(e) then [e] else []) + Notices(rest)
    ensures Closings([e] + rest) == (if IsClosing(e) then [e] else []) + Closings(rest)
  {
    assert ([e] + rest)[0] == e && ([e] + rest)[1..] == rest;
  }

  // ---- Which transitions end a call ---------------------------------------------------------------

  /** The inputs that end the call `c`: the user's, the peer's, a timer of its phase, its session's
      failure, and the loss of its offer. */
  predicate Finishes(c: Call, input: Input) {
    match input
    case Reject(id) => id == c.id && c.phase.Ringing?
    case Hangup(id) => id == c.id
    case Signalled(msg) => msg.End? && msg.call == c.id
    case Expired(id, phase, _) => id == c.id && phase == c.phase
    case Session(id, event, _) => id == c.id && event.Failed?
    case OfferLost(id) => id == c.id
    case _ => false
  }

  /** What the peer is told. It is told nothing when it ended the call itself, when the offer never
      reached it, and when an offer rings out here, as its own timer ends that. */
  function Told(c: Call, input: Input): Option<WireEnd>
    requires Finishes(c, input)
  {
    match input
    case Reject(_) => Some(WireEnd.Declined)
    case Hangup(_) => Some(if c.phase.Ringing? then WireEnd.Declined else WireEnd.Hangup)
    case Expired(_, _, Unanswered) => Some(WireEnd.Unanswered)
    case Expired(_, _, Failed) => Some(WireEnd.Failed)
    case Session(_, _, _) => Some(WireEnd.Failed)
    case _ => None
  }

  /** The notice itself, to the call's conversation. */
  function Notice(c: Call, input: Input): seq<Effect>
    requires Finishes(c, input)
  {
    match Told(c, input)
    case Some(reason) => [Signal(c.conversation, Msg.End(c.id, reason))]
    case None => []
  }

  /** Why the call is over, for this device. */
  function Why(c: Call, input: Input): EndReason
    requires Finishes(c, input)
  {
    match input
    case Reject(_) => EndReason.Declined
    case Hangup(_) =>
      if c.phase.Ringing? then EndReason.Declined
      else if c.phase.Offering? then EndReason.Cancelled
      else EndReason.Hangup
    case Expired(_, _, Unanswered) => EndReason.Unanswered
    case Expired(_, _, Failed) => EndReason.Failed
    case Expired(_, _, Missed) => EndReason.Missed
    case Session(_, _, _) => EndReason.Failed
    case OfferLost(_) => EndReason.Failed
    case Signalled(msg) =>
      // The peer's word, except that a caller who gives up has missed a ringing device and cancelled
      // a call that was not up yet.
      if msg.reason.Busy? then EndReason.Busy
      else if msg.reason.Declined? then EndReason.Declined
      else if msg.reason.Failed? then EndReason.Failed
      else if c.phase.Ringing? then EndReason.Missed
      else if msg.reason.Unanswered? then EndReason.Unanswered
      else if c.phase.Offering? || c.phase.Connecting? then EndReason.Cancelled
      else EndReason.Hangup
  }

  /** A row reads as answered, with the whole seconds talked, exactly if the call had connected and was
      hung up or failed; otherwise it gives the reason, a hang-up before connecting as a cancel. */
  predicate RowReads(c: Call, reason: EndReason, talked: nat, verdict: Verdict) {
    if c.connectedAt.Some? && (reason.Hangup? || reason.Failed?) then
      verdict.Answered? && verdict.seconds * 1_000 <= talked < verdict.seconds * 1_000 + 1_000
    else
      match verdict
      case Answered(_) => false
      case Cancelled => reason.Cancelled? || reason.Hangup?
      case Declined => reason.Declined?
      case Busy => reason.Busy?
      case Unanswered => reason.Unanswered?
      case Missed => reason.Missed?
      case Failed => reason.Failed?
  }

  /** Time since the call connected, on a clock that may have been read before. */
  predicate TalkedFor(c: Call, clock: nat, talked: nat) {
    if c.connectedAt.Some? && c.connectedAt.value <= clock then c.connectedAt.value + talked == clock else talked == 0
  }

  /** One row of the call, then the platform's notice with the same reason and the time talked. */
  predicate ClosesWith(c: Call, reason: EndReason, clock: nat, closings: seq<Effect>) {
    && |closings| == 2 && closings[0].Record? && closings[1].Emit? && closings[1].event.Ended?
    && var row, end := closings[0], closings[1].event;
    && TalkedFor(c, clock, end.duration) && RowReads(c, reason, end.duration, row.verdict)
    && row == Record(c.conversation, c.peer, c.id, row.verdict, c.outgoing)
    && end == CallEvent.Ended(c.id, c.peer, c.conversation, reason, end.duration)
  }

  /** An offer that stopped ringing before it was read. */
  predicate RangOut(input: Input) {
    input.Offered? && input.offer.paired && IsExpired(input.offer)
  }

  /** An offer of another call while this one is on, and not the peer's own crossing this one. */
  predicate FindsBusy(state: Option<Call>, input: Input) {
    && input.Offered? && input.offer.paired && !IsExpired(input.offer) && state.Some?
    && state.value.id != input.offer.call
    && !(state.value.phase.Offering? && state.value.peer == input.offer.from)
  }

  /** What a transition says of calls being over: of the live call if the input finishes it, with one
      notice to the peer unless it needs none; of an offer that is missed or finds the device busy;
      and otherwise nothing. */
  predicate PartsRight(state: Option<Call>, input: Input, clock: nat, o: Outcome) {
    var notices, closings := Notices(Fx(o)), Closings(Fx(o));
    if state.Some? && Finishes(state.value, input) then
      var c := state.value;
      && After(state, o).None?
      && notices == Notice(c, input)
      && ClosesWith(c, Why(c, input), clock, closings)
      && Cmds(o) == (if c.session then [Cmd.Stop] else [])
    else
      && (state.Some? ==> After(state, o).Some?)
      && notices == (if FindsBusy(state, input)
                     then [Signal(input.offer.conversation, Msg.End(input.offer.call, WireEnd.Busy))] else [])
      && closings == (if RangOut(input)
                      then [Record(input.offer.conversation, input.offer.from, input.offer.call, Verdict.Missed, false),
                            Emit(CallEvent.Ended(input.offer.call, input.offer.from, input.offer.conversation, EndReason.Missed, 0))]
                      else [])
  }

  lemma FinishedSo(c: Call, input: Input, clock: nat)
    requires Finishes(c, input)
    ensures Step(Some(c), input, clock) == Finish(c, Why(c, input), clock, Notice(c, input))
  {
  }

  lemma FinishParts(c: Call, input: Input, clock: nat, o: Outcome)
    requires Finishes(c, input) && o == Finish(c, Why(c, input), clock, Notice(c, input))
    ensures PartsRight(Some(c), input, clock, o)
  {
    var said, both := Notice(c, input), Farewell(c, Why(c, input), clock);
    FarewellCloses(c, Why(c, input), clock);
    if said == [] {
      assert o.fx == both;
    } else {
      FirstOf(said[0], both);
      assert o.fx == [said[0]] + both;
    }
  }

  lemma FarewellCloses(c: Call, reason: EndReason, clock: nat)
    ensures var both := Farewell(c, reason, clock);
            Notices(both) == [] && Closings(both) == both && ClosesWith(c, reason, clock, both)
  {
    var both := Farewell(c, reason, clock);
    var row, end := both[0], both[1];
    FirstOf(end, []);
    FirstOf(row, [end]);
    assert [end] + [] == [end] && both == [row] + [end];
  }

  predicate Silent(fx: seq<Effect>) {
    forall i :: 0 <= i < |fx| ==> !IsNotice(fx[i]) && !IsClosing(fx[i])
  }

  lemma RangOutParts(state: Option<Call>, offer: OfferIn, clock: nat)
    requires RangOut(Offered(offer))
    ensures PartsRight(state, Offered(offer), clock, OnOffer(state, offer))
  {
    var fx := OnOffer(state, offer).fx;
    FirstOf(fx[1], []);
    FirstOf(fx[0], [fx[1]]);
    assert [fx[1]] + [] == [fx[1]] && fx == [fx[0]] + [fx[1]];
  }

  lemma BusyParts(state: Option<Call>, offer: OfferIn, clock: nat)
    requires FindsBusy(state, Offered(offer))
    ensures PartsRight(state, Offered(offer), clock, OnOffer(state, offer))
  {
    var fx := OnOffer(state, offer).fx;
    FirstOf(fx[0], []);
    assert fx == [fx[0]] + [];
  }

  /** Any other transition keeps a call there is, and says of none that it is over. */
  predicate Quiet(state: Option<Call>, o: Outcome) {
    Silent(Fx(o)) && (state.Some? ==> After(state, o).Some?)
  }

  lemma SignalsAreSilent(state: Option<Call>, msg: Msg, clock: nat)
    requires !(state.Some? && Finishes(state.value, Signalled(msg)))
    ensures Quiet(state, OnSignal(state, msg, clock))
  {
  }

  lemma SessionsAreSilent(state: Option<Call>, id: Id, event: SessionEvent, now: nat, clock: nat)
    requires !(state.Some? && Finishes(state.value, Session(id, event, now)))
    ensures Quiet(state, OnSession(state, id, event, now, clock))
  {
  }

  lemma OthersAreSilent(state: Option<Call>, input: Input, clock: nat)
    requires !(state.Some? && Finishes(state.value, input)) && !RangOut(input) && !FindsBusy(state, input)
    ensures Quiet(state, Step(state, input, clock))
  {
    match input {
      case Signalled(msg) => SignalsAreSilent(state, msg, clock);
      case Session(id, event, now) => SessionsAreSilent(state, id, event, now, clock);
      case _ =>
    }
  }

  /** Every transition parts right: the live call ends exactly with the inputs that finish it, and then
      its session stops and its peer hears of it once, in the call's conversation, or not at all where
      nothing needs saying. */
  lemma EveryTransitionParts(state: Option<Call>, input: Input, clock: nat)
    ensures PartsRight(state, input, clock, Step(state, input, clock))
  {
    if state.Some? && Finishes(state.value, input) {
      FinishedSo(state.value, input, clock);
      FinishParts(state.value, input, clock, Step(state, input, clock));
    } else if RangOut(input) {
      RangOutParts(state, input.offer, clock);
    } else if FindsBusy(state, input) {
      BusyParts(state, input.offer, clock);
    } else {
      OthersAreSilent(state, input, clock);
      NoneAmong(Fx(Step(state, input, clock)));
    }
  }

  // ---- The two ends of one call -------------------------------------------------------------------

  /** What the other device is left with: a decline is a decline; a caller who gives up has missed a
      device that rings, cancelled one that is not connected yet, and hung up on one that is. */
  function HeardAs(mine: Call, input: Input, theirs: Phase): EndReason
    requires Finishes(mine, input) && Told(mine, input).Some?
  {
    if input.Reject? || (input.Hangup? && mine.phase.Ringing?) then EndReason.Declined
    else if input.Hangup? then
      match theirs
      case Ringing => EndReason.Missed
      case Offering => EndReason.Cancelled
      case Connecting => EndReason.Cancelled
      case Connected => EndReason.Hangup
      case Reconnecting => EndReason.Hangup
    else if input.Expired? && input.expiry.Unanswered? then
      if theirs.Ringing? then EndReason.Missed else EndReason.Unanswered
    else EndReason.Failed
  }

  lemma HeardSo(mine: Call, input: Input, theirs: Call)
    requires mine.id == theirs.id && Finishes(mine, input) && Told(mine, input).Some?
    ensures var heard := Signalled(Msg.End(mine.id, Told(mine, input).value));
            Finishes(theirs, heard) && Told(theirs, heard).None?
            && Why(theirs, heard) == HeardAs(mine, input, theirs.phase)
  {
  }

  /** The two outcomes agree that the call is over. */
  predicate Parted(mine: Call, theirs: Call, input: Input, clock: nat, clock': nat, here: Outcome, there: Outcome)
    requires Finishes(mine, input) && Told(mine, input).Some?
  {
    && After(Some(mine), here).None? && After(Some(theirs), there).None?
    && Notices(Fx(there)) == []
    && ClosesWith(mine, Why(mine, input), clock, Closings(Fx(here)))
    && ClosesWith(theirs, HeardAs(mine, input, theirs.phase), clock', Closings(Fx(there)))
  }

  lemma PartedSo(mine: Call, theirs: Call, input: Input, heard: Input, clock: nat, clock': nat, here: Outcome, there: Outcome)
    requires Finishes(mine, input) && Told(mine, input).Some?
    requires Finishes(theirs, heard) && Told(theirs, heard).None? && Why(theirs, heard) == HeardAs(mine, input, theirs.phase)
    requires PartsRight(Some(mine), input, clock, here) && PartsRight(Some(theirs), heard, clock', there)
    ensures Parted(mine, theirs, input, clock, clock', here, there)
  {
  }

  /** Two devices on one call: when one hangs up, rejects, times out or fails, it sends one notice to the
      call's conversation; once that is delivered both are idle, the second answers nothing, each has
      closed the call with one row and one notice, and the reasons follow from the two phases. */
  lemma BothEndsPart(mine: Call, theirs: Call, input: Input, clock: nat, clock': nat)
    requires mine.id == theirs.id && Finishes(mine, input) && Told(mine, input).Some?
    ensures var here, sent := Step(Some(mine), input, clock), Msg.End(mine.id, Told(mine, input).value);
            && Notices(Fx(here)) == [Signal(mine.conversation, sent)]
            && Parted(mine, theirs, input, clock, clock', here, Step(Some(theirs), Signalled(sent), clock'))
  {
    var heard := Signalled(Msg.End(mine.id, Told(mine, input).value));
    HeardSo(mine, input, theirs);
    EveryTransitionParts(Some(mine), input, clock);
    EveryTransitionParts(Some(theirs), heard, clock');
    PartedSo(mine, theirs, input, heard, clock, clock', Step(Some(mine), input, clock), Step(Some(theirs), heard, clock'));
  }

  // ---- How long a call lasted ---------------------------------------------------------------------

  /** When the platform first heard in a run that the call is connected. */
  function FirstUp(state: Option<Call>, id: Id, ins: seq<Timed>): Option<nat>
    decreases |ins|
  {
    if ins == [] then None
    else if Emit(CallEvent.Connected(id)) in Fx(Moves(state, ins[0])) then Some(ins[0].clock)
    else FirstUp(After(state, Moves(state, ins[0])), id, ins[1..])
  }

  /** While a call lasts, its time of connecting is set by the first notice of it and then kept. */
  predicate KeepsTime(c: Call, o: Outcome, clock: nat) {
    var n := After(Some(c), o);
    Alive(n, c.id) ==>
      n.value.connectedAt == (if c.connectedAt.Some? then c.connectedAt
                              else if Emit(CallEvent.Connected(c.id)) in Fx(o) then Some(clock) else None)
  }

  lemma SignalKeepsTime(c: Call, msg: Msg, clock: nat)
    ensures KeepsTime(c, OnSignal(Some(c), msg, clock), clock)
  {
  }

  lemma SessionKeepsTime(c: Call, id: Id, event: SessionEvent, now: nat, clock: nat)
    ensures KeepsTime(c, OnSession(Some(c), id, event, now, clock), clock)
  {
    if event.Connected? && id == c.id && (c.phase.Connecting? || c.phase.Reconnecting?) {
      assert OnSession(Some(c), id, event, now, clock).fx[0] == Emit(CallEvent.Connected(id));
    }
  }

  lemma StepKeepsTime(c: Call, input: Input, clock: nat)
    ensures KeepsTime(c, Step(Some(c), input, clock), clock)
  {
    match input {
      case Signalled(msg) => SignalKeepsTime(c, msg, clock);
      case Session(id, event, now) => SessionKeepsTime(c, id, event, now, clock);
      case _ =>
    }
  }

  lemma {:induction false} ConnectedSinceFirstUp(c: Call, ins: seq<Timed>)
    requires Lasts(Some(c), c.id, ins)
    ensures var n := States(Some(c), ins);
            && Alive(n, c.id)
            && n.value.connectedAt == if c.connectedAt.Some? then c.connectedAt else FirstUp(Some(c), c.id, ins)
    decreases |ins|
  {
    if ins != [] {
      StepKeepsTime(c, ins[0].input, ins[0].clock);
      ConnectedSinceFirstUp(After(Some(c), Moves(Some(c), ins[0])).value, ins[1..]);
    }
  }

  /** Over every run of a call from before it connects to its end, through any reconnects: the notice of
      its end gives the time since the platform first heard that it is connected, the row says answered
      exactly if that ever happened and the call was hung up or failed, and its seconds are whole. */
  lemma TalkTimeFromFirstUp(c: Call, ins: seq<Timed>, input: Input, clock: nat)
    requires c.connectedAt.None? && Lasts(Some(c), c.id, ins)
    requires States(Some(c), ins).Some? && Finishes(States(Some(c), ins).value, input)
    ensures var state := States(Some(c), ins);
            var up := FirstUp(Some(c), c.id, ins);
            ClosesWith(state.value.(connectedAt := up), Why(state.value, input), clock, Closings(Fx(Step(state, input, clock))))
  {
    ConnectedSinceFirstUp(c, ins);
    EveryTransitionParts(States(Some(c), ins), input, clock);
  }
}
