/**
 Two devices that call each other (libcore/src/call/mod.rs). Messages are delivered in any order,
 sessions come up at any pace, and the users may accept, mute, switch cameras and change networks;
 nobody hangs up and no timer expires. `Low` is the device with the lower identity key.
 */
module CallCrossing {
  import opened Common
  import opened CallMachine

  datatype Side = Low | High

  /** Both identity keys and the id each device draws for its own call. */
  datatype Setup = Setup(lowKey: Key, highKey: Key, lowId: Id, highId: Id)

  predicate Sound(s: Setup) {
    s.lowKey < s.highKey && s.lowId != s.highId
  }

  datatype Packet = Packet(to: Side, msg: Msg)

  datatype Media = Media(side: Side, id: Id)

  /** A session is asked for, then gathers, then is open. `clean` says the lower key's offer was
      not dropped because it expired or its media could not be built. */
  datatype World = World(low: Option<Call>, high: Option<Call>, flight: multiset<Packet>,
                         asked: set<Media>, gathering: set<Media>, open: set<Media>,
                         lowStarted: bool, highStarted: bool, clean: bool)

  const Idle := World(None, None, multiset{}, {}, {}, {}, false, false, true)

  datatype Move =
    | Begin(side: Side, conversation: Id, video: bool)
    | Pick(side: Side, id: Id)
    | User(side: Side, input: Input)
    | Attach(side: Side, id: Id)
    | Gather(side: Side, id: Id, params: Remote, now: nat)
    | Media(side: Side, id: Id, event: SessionEvent, now: nat)
    | Deliver(packet: Packet, conversation: Id, now: nat, media: bool)

  function At(w: World, side: Side): Option<Call> {
    match side case Low => w.low case High => w.high
  }

  function Other(side: Side): Side {
    match side case Low => High case High => Low
  }

  function OwnKey(s: Setup, side: Side): Key {
    match side case Low => s.lowKey case High => s.highKey
  }

  function OwnId(s: Setup, side: Side): Id {
    match side case Low => s.lowId case High => s.highId
  }

  predicate Enabled(w: World, m: Move) {
    match m
    case Begin(_, _, _) => true
    case Pick(_, _) => true
    case User(_, input) => input.Muted? || input.Camera? || input.NetworkChanged?
    case Attach(side, id) => Media.Media(side, id) in w.asked
    case Gather(side, id, _, _) => Media.Media(side, id) in w.gathering
    case Media(side, id, event, _) => Media.Media(side, id) in w.open && !event.Failed?
    case Deliver(packet, _, _, _) => packet in w.flight
  }

  /** The packets and sessions a list of effects asks for. */
  function Sent(fx: seq<Effect>, to: Side): multiset<Packet>
    decreases |fx|
  {
    if fx == [] then multiset{}
    else
      Sent(fx[1..], to) + (if fx[0].Signal? then multiset{Packet(to, fx[0].msg)} else multiset{})
  }

  function Asked(fx: seq<Effect>, side: Side): set<Media> {
    set i | 0 <= i < |fx| && fx[i].StartSession? :: Media.Media(side, fx[i].id)
  }

  function Put(w: World, side: Side, call: Option<Call>, fx: seq<Effect>): World {
    var sent := w.(flight := w.flight + Sent(fx, Other(side)), asked := w.asked + Asked(fx, side));
    match side case Low => sent.(low := call) case High => sent.(high := call)
  }

  function Take(w: World, side: Side, input: Input, clock: nat): World {
    var o := Step(At(w, side), input, clock);
    Put(w, side, After(At(w, side), o), Fx(o))
  }

  function InputOf(s: Setup, packet: Packet, conversation: Id, now: nat, media: bool): Input {
    match packet.msg
    case Offer(call, expiresAt, video, remote) =>
      Offered(OfferIn(OwnKey(s, Other(packet.to)), conversation, call, expiresAt, video, remote, true,
                      OwnKey(s, packet.to), now, media))
    case _ => Signalled(packet.msg)
  }

  /** The lower key's offer is lost on the other device: it expired, or it would ring on an idle device
      and its media cannot be built. What becomes of the higher key's offer decides nothing. */
  predicate Drops(to: Side, receiver: Option<Call>, input: Input) {
    && to.High? && input.Offered? && !On(receiver, input.offer.call)
    && (IsExpired(input.offer) || (receiver.None? && !input.offer.media))
  }

  function Next(s: Setup, w: World, m: Move, clock: nat): World
    requires Enabled(w, m)
  {
    match m
    case Begin(side, conversation, video) =>
      if At(w, side).Some? then w
      else
        Take(w, side, Start(OwnId(s, side), OwnKey(s, Other(side)), conversation, video), clock)
          .(lowStarted := w.lowStarted || side.Low?, highStarted := w.highStarted || side.High?)
    case Pick(side, id) => Take(w, side, Accept(id), clock)
    case User(side, input) => Take(w, side, input, clock)
    case Attach(side, id) =>
      var left := w.(asked := w.asked - {Media.Media(side, id)});
      if At(w, side).Some? && At(w, side).value.id == id then
        Put(left, side, Spawn(At(w, side), id).0, []).(gathering := w.gathering + {Media.Media(side, id)})
      else left
    case Gather(side, id, params, now) =>
      Take(w, side, Session(id, Local(params), now), clock)
        .(gathering := w.gathering - {Media.Media(side, id)}, open := w.open + {Media.Media(side, id)})
    case Media(side, id, event, now) => Take(w, side, Session(id, event, now), clock)
    case Deliver(packet, conversation, now, media) =>
      var input := InputOf(s, packet, conversation, now, media);
      var dropped := Drops(packet.to, At(w, packet.to), input);
      Take(w.(flight := w.flight - multiset{packet}, clean := w.clean && !dropped), packet.to, input, clock)
  }

  datatype Timed = Timed(move: Move, clock: nat)

  predicate CanRun(s: Setup, w: World, ms: seq<Timed>)
    decreases |ms|
  {
    ms == [] || (Enabled(w, ms[0].move) && CanRun(s, Next(s, w, ms[0].move, ms[0].clock), ms[1..]))
  }

  function Run(s: Setup, w: World, ms: seq<Timed>): World
    requires CanRun(s, w, ms)
    decreases |ms|
  {
    if ms == [] then w else Run(s, Next(s, w, ms[0].move, ms[0].clock), ms[1..])
  }

  // ---- The invariant --------------------------------------------------------------------------

  predicate On(c: Option<Call>, id: Id) {
    c.Some? && c.value.id == id
  }

  /** Past Offering and Ringing. */
  predicate Past(c: Option<Call>) {
    c.Some? && !c.value.phase.Offering? && !c.value.phase.Ringing?
  }

  /** A device is idle, on its own call as caller, or on the other's as callee. */
  predicate Shape(c: Option<Call>, own: Id, theirs: Id, peer: Key) {
    c.None?
    || (c.value.id == own && c.value.outgoing && !c.value.phase.Ringing? && c.value.peer == peer)
    || (c.value.id == theirs && !c.value.outgoing && !c.value.phase.Offering?)
  }

  predicate MsgOk(s: Setup, low: Option<Call>, high: Option<Call>, p: Packet) {
    match p.to
    case High =>
      (match p.msg
       case Offer(call, _, _, _) => call == s.lowId && On(low, s.lowId)
       case Answer(call, _) => call == s.highId && On(low, s.highId) && Past(low)
       case End(call, reason) => reason.Busy? && call == s.highId && On(high, s.lowId)
       case _ => true)
    case Low =>
      (match p.msg
       case Offer(call, _, _, _) => call == s.highId && high.Some?
       case Answer(call, _) => call == s.lowId && On(high, s.lowId) && Past(high)
       case End(_, _) => false
       case _ => true)
  }

  predicate CallsOk(s: Setup, low: Option<Call>, high: Option<Call>) {
    && Shape(low, s.lowId, s.highId, s.highKey)
    && Shape(high, s.highId, s.lowId, s.lowKey)
    && (On(low, s.lowId) && Past(low) ==> On(high, s.lowId) && Past(high))
    && (On(high, s.highId) && Past(high) ==> On(low, s.highId) && Past(low))
    && (On(high, s.lowId) ==> On(low, s.lowId))
    && (On(low, s.highId) ==> On(high, s.highId))
  }

  ghost predicate Inv(s: Setup, w: World) {
    && CallsOk(s, w.low, w.high)
    && (forall p :: p in w.flight ==> MsgOk(s, w.low, w.high, p))
  }

  /** Nothing but a first start, a ring or the crossing switch moves a device to another call, and
      none moves back out of an answered one. */
  predicate Grows(s: Setup, low: Option<Call>, high: Option<Call>, low': Option<Call>, high': Option<Call>) {
    && (low.Some? ==> On(low', low.value.id) && (Past(low) ==> Past(low')))
    && (high.Some? ==> high'.Some?)
    && (On(high, s.lowId) ==> On(high', s.lowId) && (Past(high) ==> Past(high')))
  }

  lemma MsgStaysOk(s: Setup, low: Option<Call>, high: Option<Call>, low': Option<Call>, high': Option<Call>, p: Packet)
    requires MsgOk(s, low, high, p) && Grows(s, low, high, low', high')
    ensures MsgOk(s, low', high', p)
  {
  }

  lemma {:induction false} SentIsSignalled(fx: seq<Effect>, to: Side)
    ensures forall p :: p in Sent(fx, to) <==> p.to == to && exists i :: 0 <= i < |fx| && fx[i].Signal? && fx[i].msg == p.msg
    decreases |fx|
  {
    if fx != [] {
      SentIsSignalled(fx[1..], to);
      forall p
        ensures p in Sent(fx, to) <==> p.to == to && exists i :: 0 <= i < |fx| && fx[i].Signal? && fx[i].msg == p.msg
      {
        if p in Sent(fx[1..], to) {
          var i :| 0 <= i < |fx[1..]| && fx[1..][i].Signal? && fx[1..][i].msg == p.msg;
          assert fx[i + 1].Signal? && fx[i + 1].msg == p.msg;
        }
        if p.to == to && exists i :: 0 <= i < |fx| && fx[i].Signal? && fx[i].msg == p.msg {
          var i :| 0 <= i < |fx| && fx[i].Signal? && fx[i].msg == p.msg;
          if i > 0 {
            assert fx[1..][i - 1].Signal? && fx[1..][i - 1].msg == p.msg;
          }
        }
      }
    }
  }

  /** A device moves within what `Grows` allows and signals only what `MsgOk` allows. */
  predicate Good(s: Setup, w: World, side: Side, call: Option<Call>, fx: seq<Effect>) {
    var low := if side.Low? then call else w.low;
    var high := if side.High? then call else w.high;
    && Grows(s, w.low, w.high, low, high)
    && CallsOk(s, low, high)
    && forall i :: 0 <= i < |fx| && fx[i].Signal? ==> MsgOk(s, low, high, Packet(Other(side), fx[i].msg))
  }

  lemma PutKeeps(s: Setup, w: World, side: Side, call: Option<Call>, fx: seq<Effect>)
    requires Inv(s, w) && Good(s, w, side, call, fx)
    ensures Inv(s, Put(w, side, call, fx))
  {
    var n := Put(w, side, call, fx);
    SentIsSignalled(fx, Other(side));
    forall p | p in n.flight
      ensures MsgOk(s, n.low, n.high, p)
    {
      if p in w.flight {
        MsgStaysOk(s, w.low, w.high, n.low, n.high, p);
      }
    }
  }

  // ---- What single transitions do -------------------------------------------------------------

  predicate Harmless(fx: seq<Effect>) {
    forall i :: 0 <= i < |fx| ==>
      && !fx[i].StartSession?
      && (fx[i].Signal? ==> !fx[i].msg.Offer? && !fx[i].msg.Answer? && !fx[i].msg.End?)
  }

  /** Same call, same direction, and no way back out of an answered one. */
  predicate Stays(c: Option<Call>, next: Option<Call>) {
    (c.None? <==> next.None?)
    && (c.Some? ==>
          && c.value.id == next.value.id && c.value.outgoing == next.value.outgoing
          && c.value.peer == next.value.peer
          && (next.value.phase == c.value.phase || (Past(c) && Past(next))))
  }

  predicate Quiet(input: Input) {
    match input
    case Muted(_) => true
    case Camera(_) => true
    case NetworkChanged => true
    case Signalled(msg) => !msg.Answer? && !msg.End?
    case Session(_, event, _) => !event.Failed? && !event.Local?
    case _ => false
  }

  lemma QuietStep(c: Option<Call>, input: Input, clock: nat)
    requires Quiet(input)
    ensures Stays(c, After(c, Step(c, input, clock)))
    ensures Harmless(Fx(Step(c, input, clock)))
  {
    match input {
      case Signalled(msg) => QuietSignal(c, msg, clock);
      case Session(id, event, now) => QuietSession(c, id, event, now, clock);
      case _ => QuietUser(c, input, clock);
    }
  }

  lemma QuietUser(c: Option<Call>, input: Input, clock: nat)
    requires input.Muted? || input.Camera? || input.NetworkChanged?
    ensures Stays(c, After(c, Step(c, input, clock)))
    ensures Harmless(Fx(Step(c, input, clock)))
  {
  }

  lemma QuietSignal(c: Option<Call>, msg: Msg, clock: nat)
    requires !msg.Answer? && !msg.End?
    ensures Stays(c, After(c, OnSignal(c, msg, clock)))
    ensures Harmless(Fx(OnSignal(c, msg, clock)))
  {
    if msg.Restart? {
      QuietRestart(c, msg, clock);
    }
  }

  lemma QuietRestart(c: Option<Call>, msg: Msg, clock: nat)
    requires msg.Restart?
    ensures Stays(c, After(c, OnSignal(c, msg, clock)))
    ensures Harmless(Fx(OnSignal(c, msg, clock)))
  {
    if c.Some? && UpOrRestarting(c.value.phase) {
      JoiningStays(c.value.(restartGen := msg.generation), RestartRemote(c.value, msg));
    }
  }

  lemma JoiningStays(c: Call, remote: Remote)
    requires UpOrRestarting(c.phase)
    ensures var r := BeginRestart(c, Some(remote)); Stays(Some(c), Some(r.call)) && Harmless(r.fx)
  {
  }

  lemma QuietSession(c: Option<Call>, id: Id, event: SessionEvent, now: nat, clock: nat)
    requires !event.Failed? && !event.Local?
    ensures Stays(c, After(c, OnSession(c, id, event, now, clock)))
    ensures Harmless(Fx(OnSession(c, id, event, now, clock)))
  {
  }

  lemma StayingKeeps(s: Setup, w: World, side: Side, next: Option<Call>, fx: seq<Effect>)
    requires Inv(s, w) && Stays(At(w, side), next) && Harmless(fx)
    ensures Inv(s, Put(w, side, next, fx))
  {
    forall i | 0 <= i < |fx| && fx[i].Signal?
      ensures var low := if side.Low? then next else w.low;
              var high := if side.High? then next else w.high;
              MsgOk(s, low, high, Packet(Other(side), fx[i].msg))
    {
    }
    PutKeeps(s, w, side, next, fx);
  }

  lemma QuietKeeps(s: Setup, w: World, side: Side, input: Input, clock: nat)
    requires Inv(s, w) && Quiet(input)
    ensures Inv(s, Take(w, side, input, clock))
  {
    var o := Step(At(w, side), input, clock);
    QuietStep(At(w, side), input, clock);
    StayingKeeps(s, w, side, After(At(w, side), o), Fx(o));
  }

  lemma LocalKeeps(s: Setup, w: World, side: Side, id: Id, params: Remote, now: nat, clock: nat)
    requires Inv(s, w)
    ensures Inv(s, Take(w, side, Session(id, Local(params), now), clock))
  {
    var o := Step(At(w, side), Session(id, Local(params), now), clock);
    PutKeeps(s, w, side, After(At(w, side), o), Fx(o));
  }

  lemma OfferKeeps(s: Setup, w: World, p: Packet, conversation: Id, now: nat, media: bool, clock: nat)
    requires Sound(s) && Inv(s, w) && p.msg.Offer? && MsgOk(s, w.low, w.high, p)
    ensures Inv(s, Take(w, p.to, InputOf(s, p, conversation, now, media), clock))
  {
    var o := Step(At(w, p.to), InputOf(s, p, conversation, now, media), clock);
    PutKeeps(s, w, p.to, After(At(w, p.to), o), Fx(o));
  }

  lemma AnswerKeeps(s: Setup, w: World, p: Packet, clock: nat)
    requires Sound(s) && Inv(s, w) && p.msg.Answer? && MsgOk(s, w.low, w.high, p)
    ensures Inv(s, Take(w, p.to, Signalled(p.msg), clock))
  {
    var o := Step(At(w, p.to), Signalled(p.msg), clock);
    PutKeeps(s, w, p.to, After(At(w, p.to), o), Fx(o));
  }

  lemma BusyKeeps(s: Setup, w: World, p: Packet, clock: nat)
    requires Sound(s) && Inv(s, w) && p.msg.End? && MsgOk(s, w.low, w.high, p)
    ensures Inv(s, Take(w, p.to, Signalled(p.msg), clock))
    ensures Step(At(w, p.to), Signalled(p.msg), clock) == Moved(At(w, p.to), [], [])
  {
    StayingKeeps(s, w, p.to, At(w, p.to), []);
  }

  lemma PickKeeps(s: Setup, w: World, side: Side, id: Id, clock: nat)
    requires Sound(s) && Inv(s, w)
    ensures Inv(s, Take(w, side, Accept(id), clock))
  {
    var o := Step(At(w, side), Accept(id), clock);
    PutKeeps(s, w, side, After(At(w, side), o), Fx(o));
  }

  lemma BeginKeeps(s: Setup, w: World, side: Side, conversation: Id, video: bool, clock: nat)
    requires Sound(s) && Inv(s, w) && At(w, side).None?
    ensures Inv(s, Take(w, side, Start(OwnId(s, side), OwnKey(s, Other(side)), conversation, video), clock))
  {
    var o := Step(None, Start(OwnId(s, side), OwnKey(s, Other(side)), conversation, video), clock);
    PutKeeps(s, w, side, After(None, o), Fx(o));
  }

  lemma StepKeeps(s: Setup, w: World, m: Move, clock: nat)
    requires Sound(s) && Inv(s, w) && Enabled(w, m)
    ensures Inv(s, Next(s, w, m, clock))
  {
    match m {
      case Begin(side, conversation, video) =>
        if At(w, side).None? {
          BeginKeeps(s, w, side, conversation, video, clock);
        }
      case Pick(side, id) => PickKeeps(s, w, side, id, clock);
      case User(side, input) => QuietKeeps(s, w, side, input, clock);
      case Attach(side, id) => AttachKeeps(s, w, side, id, clock);
      case Gather(side, id, params, now) => LocalKeeps(s, w, side, id, params, now, clock);
      case Media(side, id, event, now) => MediaKeeps(s, w, side, id, event, now, clock);
      case Deliver(p, conversation, now, media) =>
        var input := InputOf(s, p, conversation, now, media);
        var dropped := Drops(p.to, At(w, p.to), input);
        DeliverKeeps(s, w.(flight := w.flight - multiset{p}, clean := w.clean && !dropped), p, conversation, now, media, clock);
    }
  }

  lemma AttachKeeps(s: Setup, w: World, side: Side, id: Id, clock: nat)
    requires Sound(s) && Inv(s, w) && Enabled(w, Attach(side, id))
    ensures Inv(s, Next(s, w, Attach(side, id), clock))
  {
    StayingKeeps(s, w, side, Spawn(At(w, side), id).0, []);
  }

  lemma MediaKeeps(s: Setup, w: World, side: Side, id: Id, event: SessionEvent, now: nat, clock: nat)
    requires Inv(s, w) && !event.Failed?
    ensures Inv(s, Take(w, side, Session(id, event, now), clock))
  {
    if event.Local? {
      LocalKeeps(s, w, side, id, event.params, now, clock);
    } else {
      QuietKeeps(s, w, side, Session(id, event, now), clock);
    }
  }

  lemma DeliverKeeps(s: Setup, left: World, p: Packet, conversation: Id, now: nat, media: bool, clock: nat)
    requires Sound(s) && Inv(s, left) && MsgOk(s, left.low, left.high, p)
    ensures Inv(s, Take(left, p.to, InputOf(s, p, conversation, now, media), clock))
  {
    match p.msg {
      case Offer(_, _, _, _) => OfferKeeps(s, left, p, conversation, now, media, clock);
      case Answer(_, _) => AnswerKeeps(s, left, p, clock);
      case End(_, _) => BusyKeeps(s, left, p, clock);
      case _ => QuietKeeps(s, left, p.to, Signalled(p.msg), clock);
    }
  }

  lemma {:induction false} RunKeeps(s: Setup, w: World, ms: seq<Timed>)
    requires Sound(s) && Inv(s, w) && CanRun(s, w, ms)
    ensures Inv(s, Run(s, w, ms))
    decreases |ms|
  {
    if ms != [] {
      StepKeeps(s, w, ms[0].move, ms[0].clock);
      RunKeeps(s, Next(s, w, ms[0].move, ms[0].clock), ms[1..]);
    }
  }

  /** Whatever the delivery order, the two devices are never both past Offering and Ringing on
      different calls, and whenever both are past them one is the caller and one the callee. */
  lemma NeverSplit(s: Setup, ms: seq<Timed>)
    requires Sound(s) && CanRun(s, Idle, ms)
    ensures var w := Run(s, Idle, ms);
            Past(w.low) && Past(w.high) ==>
              w.low.value.id == w.high.value.id && w.low.value.outgoing != w.high.value.outgoing
  {
    RunKeeps(s, Idle, ms);
  }

  // ---- Agreement --------------------------------------------------------------------------------

  predicate Sounding(w: World, m: Media) {
    m in w.asked || m in w.gathering
  }

  ghost predicate OfferOut(s: Setup, w: World) {
    exists p :: p in w.flight && p.to.High? && p.msg.Offer? && p.msg.call == s.lowId
  }

  ghost predicate AnswerOut(s: Setup, w: World) {
    exists p :: p in w.flight && p.to.Low? && p.msg.Answer? && p.msg.call == s.lowId
  }

  /** The bookkeeping of the two sessions of the lower key's call. */
  predicate Stages(s: Setup, w: World) {
    var callee := Media.Media(High, s.lowId);
    && (w.lowStarted <==> On(w.low, s.lowId))
    && (w.highStarted && On(w.high, s.lowId) ==> Past(w.high))
    && (w.highStarted ==> w.high.Some?)
    && (Sounding(w, callee) || callee in w.open ==> On(w.high, s.lowId) && Past(w.high))
    && (Sounding(w, callee) ==> w.high.value.phase.Connecting? && callee !in w.open)
    && !(callee in w.asked && callee in w.gathering)
  }

  predicate AwaitsOffer(s: Setup, w: World) {
    w.clean && On(w.low, s.lowId) && w.low.value.phase.Offering? && !On(w.high, s.lowId)
  }

  predicate AwaitsAnswer(s: Setup, w: World) {
    On(w.high, s.lowId) && Past(w.high) && w.low.Some? && w.low.value.phase.Offering?
  }

  /** Whatever the lower key's call still needs is on its way. */
  ghost predicate Due(s: Setup, w: World) {
    && Stages(s, w)
    && (AwaitsOffer(s, w) ==> Sounding(w, Media.Media(Low, s.lowId)) || OfferOut(s, w))
    && (AwaitsAnswer(s, w) ==> Sounding(w, Media.Media(High, s.lowId)) || AnswerOut(s, w))
  }

  lemma OutGrows(s: Setup, w: World, n: World)
    requires forall p :: p in w.flight ==> p in n.flight
    ensures OfferOut(s, w) ==> OfferOut(s, n)
    ensures AnswerOut(s, w) ==> AnswerOut(s, n)
  {
  }

  lemma OutWithout(s: Setup, w: World, left: World, p: Packet)
    requires p in w.flight && left.flight == w.flight - multiset{p}
    ensures !(p.to.High? && p.msg.Offer?) && OfferOut(s, w) ==> OfferOut(s, left)
    ensures !(p.to.Low? && p.msg.Answer?) && AnswerOut(s, w) ==> AnswerOut(s, left)
  {
    if !(p.to.High? && p.msg.Offer?) && OfferOut(s, w) {
      var q :| q in w.flight && q.to.High? && q.msg.Offer? && q.msg.call == s.lowId;
      assert q in left.flight;
    }
    if !(p.to.Low? && p.msg.Answer?) && AnswerOut(s, w) {
      var q :| q in w.flight && q.to.Low? && q.msg.Answer? && q.msg.call == s.lowId;
      assert q in left.flight;
    }
  }

  lemma FlightGrows(s: Setup, w: World, side: Side, call: Option<Call>, fx: seq<Effect>)
    ensures OfferOut(s, w) ==> OfferOut(s, Put(w, side, call, fx))
    ensures AnswerOut(s, w) ==> AnswerOut(s, Put(w, side, call, fx))
  {
    OutGrows(s, w, Put(w, side, call, fx));
  }

  /** Session events come from open sessions; an open session is no longer gathering. */
  predicate Untouched(s: Setup, w: World, side: Side, input: Input) {
    Quiet(input)
    && (input.Session? ==> Media.Media(side, input.id) in w.open)
  }

  lemma ConnectingStays(c: Option<Call>, input: Input, clock: nat)
    requires Quiet(input) && c.Some? && c.value.phase.Connecting?
    requires input.Session? ==> input.id != c.value.id
    ensures var next := After(c, Step(c, input, clock)); next.Some? && next.value.phase.Connecting?
  {
  }

  lemma StayingDue(s: Setup, w: World, side: Side, next: Option<Call>, fx: seq<Effect>)
    requires Due(s, w) && Stays(At(w, side), next) && Harmless(fx)
    requires side.High? && Sounding(w, Media.Media(High, s.lowId)) ==> next.Some? && next.value.phase.Connecting?
    ensures Due(s, Put(w, side, next, fx))
  {
    FlightGrows(s, w, side, next, fx);
    assert Asked(fx, side) == {};
  }

  lemma QuietDue(s: Setup, w: World, side: Side, input: Input, clock: nat)
    requires Due(s, w) && Untouched(s, w, side, input)
    ensures Due(s, Take(w, side, input, clock))
  {
    var o := Step(At(w, side), input, clock);
    QuietStep(At(w, side), input, clock);
    if side.High? && Sounding(w, Media.Media(High, s.lowId)) {
      ConnectingStays(w.high, input, clock);
    }
    StayingDue(s, w, side, After(At(w, side), o), Fx(o));
  }

  lemma DeliverQuietDue(s: Setup, w: World, left: World, p: Packet, clock: nat)
    requires Sound(s) && Inv(s, w) && Due(s, w) && p in w.flight
    requires !p.msg.Offer? && !p.msg.Answer?
    requires left == w.(flight := w.flight - multiset{p})
    ensures Due(s, Take(left, p.to, Signalled(p.msg), clock))
  {
    LeavingDue(s, w, left, p);
    assert MsgOk(s, w.low, w.high, p);
    if p.msg.End? {
      BusyDue(s, left, p, clock);
    } else {
      QuietDue(s, left, p.to, Signalled(p.msg), clock);
    }
  }

  lemma LeavingDue(s: Setup, w: World, left: World, p: Packet)
    requires Due(s, w) && p in w.flight && !p.msg.Offer? && !p.msg.Answer?
    requires left == w.(flight := w.flight - multiset{p})
    ensures Due(s, left)
  {
    OutWithout(s, w, left, p);
  }

  lemma BusyDue(s: Setup, w: World, p: Packet, clock: nat)
    requires Sound(s) && Inv(s, w) && Due(s, w) && p.msg.End? && MsgOk(s, w.low, w.high, p)
    ensures Due(s, Take(w, p.to, Signalled(p.msg), clock))
  {
    BusyKeeps(s, w, p, clock);
    StayingDue(s, w, p.to, At(w, p.to), []);
  }

  lemma LocalDue(s: Setup, w: World, side: Side, id: Id, params: Remote, now: nat, clock: nat)
    requires Sound(s) && Inv(s, w)
    requires Due(s, w) && (Media.Media(side, id) in w.gathering || Media.Media(side, id) in w.open)
    ensures Due(s, Take(w, side, Session(id, Local(params), now), clock)
                     .(gathering := w.gathering - {Media.Media(side, id)}, open := w.open + {Media.Media(side, id)}))
  {
    LocalSends(s, w, side, id, params, now, clock);
    LocalMovesNothing(w, side, id, params, now, clock);
    GatheredDue(s, w, Take(w, side, Session(id, Local(params), now), clock), side, id);
  }

  lemma LocalMovesNothing(w: World, side: Side, id: Id, params: Remote, now: nat, clock: nat)
    ensures var n := Take(w, side, Session(id, Local(params), now), clock);
            n.(flight := w.flight) == w
  {
    var o := Step(At(w, side), Session(id, Local(params), now), clock);
    assert o.state == At(w, side) && Asked(Fx(o), side) == {};
  }

  /** A session that has gathered said what its call was waiting for. */
  lemma GatheredDue(s: Setup, w: World, n: World, side: Side, id: Id)
    requires Sound(s) && Inv(s, w)
    requires Due(s, w) && (Media.Media(side, id) in w.gathering || Media.Media(side, id) in w.open)
    requires n.(flight := w.flight) == w
    requires OfferOut(s, w) ==> OfferOut(s, n)
    requires AnswerOut(s, w) ==> AnswerOut(s, n)
    requires side.Low? && id == s.lowId && On(w.low, id) && w.low.value.phase.Offering? ==> OfferOut(s, n)
    requires side.High? && id == s.lowId && On(w.high, id) && w.high.value.phase.Connecting? ==> AnswerOut(s, n)
    ensures Due(s, n.(gathering := w.gathering - {Media.Media(side, id)}, open := w.open + {Media.Media(side, id)}))
  {
  }

  /** A gathered session answers what its call was waiting for. */
  lemma LocalSends(s: Setup, w: World, side: Side, id: Id, params: Remote, now: nat, clock: nat)
    requires Inv(s, w)
    ensures var n := Take(w, side, Session(id, Local(params), now), clock);
            && (OfferOut(s, w) ==> OfferOut(s, n))
            && (AnswerOut(s, w) ==> AnswerOut(s, n))
            && (side.Low? && id == s.lowId && On(w.low, id) && w.low.value.phase.Offering? ==> OfferOut(s, n))
            && (side.High? && id == s.lowId && On(w.high, id) && w.high.value.phase.Connecting? && Sound(s) ==> AnswerOut(s, n))
  {
    var c := At(w, side);
    var o := Step(c, Session(id, Local(params), now), clock);
    var n := Take(w, side, Session(id, Local(params), now), clock);
    FlightGrows(s, w, side, c, Fx(o));
    SentIsSignalled(Fx(o), Other(side));
    if On(c, id) && LocalMsg(c.value, params, now).Some? {
      var msg := LocalMsg(c.value, params, now).value;
      assert o.fx[0].Signal? && o.fx[0].msg == msg;
      assert Packet(Other(side), msg) in n.flight;
    }
  }

  lemma OfferDue(s: Setup, w: World, p: Packet, conversation: Id, now: nat, media: bool, clock: nat)
    requires Sound(s) && Inv(s, w) && Due(s, w) && p in w.flight && p.msg.Offer?
    ensures Due(s, Next(s, w, Deliver(p, conversation, now, media), clock))
  {
    assert MsgOk(s, w.low, w.high, p);
    var input := InputOf(s, p, conversation, now, media);
    var left := w.(flight := w.flight - multiset{p}, clean := w.clean && !Drops(p.to, At(w, p.to), input));
    var o := OnOffer(At(w, p.to), input.offer);
    if p.to.Low? {
      OfferToLow(s, w, input.offer);
      LowKeepsDue(s, w, left, p, o);
    } else {
      OfferToHigh(s, w, input.offer);
      OfferLands(s, w, left, o, input.offer, p);
    }
  }

  /** At the lower key an offer rings an idle device and otherwise moves nothing. */
  lemma OfferToLow(s: Setup, w: World, offer: OfferIn)
    requires Sound(s) && Inv(s, w) && offer.call == s.highId && offer.from == s.highKey && offer.me == s.lowKey
    ensures var o := OnOffer(w.low, offer);
            && o.Moved? && Asked(o.fx, Low) == {}
            && (o.state == w.low || (w.low.None? && On(o.state, s.highId) && o.state.value.phase.Ringing?))
  {
    var o := OnOffer(w.low, offer);
    assert forall i :: 0 <= i < |o.fx| ==> !o.fx[i].StartSession?;
  }

  lemma LowKeepsDue(s: Setup, w: World, left: World, p: Packet, o: Outcome)
    requires Sound(s) && Due(s, w) && p in w.flight && p.to.Low? && p.msg.Offer?
    requires left.(clean := w.clean) == w.(flight := w.flight - multiset{p}) && (left.clean ==> w.clean)
    requires o.Moved? && Asked(o.fx, Low) == {}
    requires o.state == w.low || (w.low.None? && On(o.state, s.highId) && o.state.value.phase.Ringing?)
    ensures Due(s, Put(left, Low, o.state, o.fx))
  {
    OutWithout(s, w, left, p);
    FlightGrows(s, left, Low, o.state, o.fx);
  }

  /** At the higher key the lower key's offer is dropped, already known, rings, or wins. */
  lemma OfferToHigh(s: Setup, w: World, offer: OfferIn)
    requires Sound(s) && Inv(s, w) && On(w.low, s.lowId) && offer.paired
    requires offer.call == s.lowId && offer.from == s.lowKey && offer.me == s.highKey
    ensures var o := OnOffer(w.high, offer);
            && o.Moved?
            && (Drops(High, w.high, Offered(offer)) && w.high.None? ==> o.state == w.high)
            && (o.state == w.high ==> Asked(o.fx, High) == {} && (Drops(High, w.high, Offered(offer)) || On(w.high, s.lowId)))
            && (o.state != w.high ==>
                  && On(o.state, s.lowId) && !On(w.high, s.lowId)
                  && (w.high.None? ==> o.state.value.phase.Ringing? && Asked(o.fx, High) == {})
                  && (w.high.Some? ==> o.state.value.phase.Connecting? && Asked(o.fx, High) == {Media.Media(High, s.lowId)}))
  {
    var o := OnOffer(w.high, offer);
    if o.state == w.high || w.high.None? {
      assert forall i :: 0 <= i < |o.fx| ==> !o.fx[i].StartSession?;
    } else {
      assert o.fx[2] == StartSession(s.lowId, Role.Callee, offer.video);
      assert forall i :: 0 <= i < |o.fx| && o.fx[i].StartSession? ==> o.fx[i].id == s.lowId;
    }
  }

  lemma OfferLands(s: Setup, w: World, left: World, o: Outcome, offer: OfferIn, p: Packet)
    requires Sound(s) && Inv(s, w) && Due(s, w) && p in w.flight && p.to.High? && p.msg.Offer?
    requires left == w.(flight := w.flight - multiset{p}, clean := w.clean && !Drops(High, w.high, Offered(offer)))
    requires o.Moved?
    requires o.state == w.high ==> Asked(o.fx, High) == {} && (Drops(High, w.high, Offered(offer)) || On(w.high, s.lowId))
    requires o.state != w.high ==>
               && On(o.state, s.lowId) && !On(w.high, s.lowId)
               && (w.high.None? ==> o.state.value.phase.Ringing? && Asked(o.fx, High) == {})
               && (w.high.Some? ==> o.state.value.phase.Connecting? && Asked(o.fx, High) == {Media.Media(High, s.lowId)})
    ensures Due(s, Put(left, High, o.state, o.fx))
  {
    OutWithout(s, w, left, p);
    FlightGrows(s, left, High, o.state, o.fx);
  }

  lemma AnswerDue(s: Setup, w: World, p: Packet, conversation: Id, now: nat, media: bool, clock: nat)
    requires Sound(s) && Inv(s, w) && Due(s, w) && p in w.flight && p.msg.Answer?
    ensures Due(s, Next(s, w, Deliver(p, conversation, now, media), clock))
  {
    var left := w.(flight := w.flight - multiset{p});
    var c := At(w, p.to);
    var o := OnSignal(c, p.msg, clock);
    OutWithout(s, w, left, p);
    assert MsgOk(s, w.low, w.high, p);
    AnswerMoves(c, p.msg, clock);
    AnswerLands(s, w, left, p, o);
  }

  /** An answer takes its own Offering call to Connecting and moves nothing else. */
  lemma AnswerMoves(c: Option<Call>, msg: Msg, clock: nat)
    requires msg.Answer?
    ensures var o := OnSignal(c, msg, clock);
            && o.Moved?
            && (forall side :: Asked(o.fx, side) == {})
            && (if On(c, msg.call) && c.value.phase.Offering? then
                  On(o.state, msg.call) && o.state.value.phase.Connecting?
                else o.state == c)
  {
    var o := OnSignal(c, msg, clock);
    assert forall i :: 0 <= i < |o.fx| ==> !o.fx[i].StartSession?;
  }

  lemma AnswerLands(s: Setup, w: World, left: World, p: Packet, o: Outcome)
    requires Sound(s) && Inv(s, w) && Due(s, w) && p in w.flight && p.msg.Answer?
    requires left == w.(flight := w.flight - multiset{p})
    requires o.Moved? && Asked(o.fx, p.to) == {}
    requires var c := At(w, p.to);
             if On(c, p.msg.call) && c.value.phase.Offering? then
               On(o.state, p.msg.call) && o.state.value.phase.Connecting?
             else o.state == c
    ensures Due(s, Put(left, p.to, o.state, o.fx))
  {
    assert MsgOk(s, w.low, w.high, p);
    OutWithout(s, w, left, p);
    FlightGrows(s, left, p.to, o.state, o.fx);
  }

  lemma BeginDue(s: Setup, w: World, side: Side, conversation: Id, video: bool, clock: nat)
    requires Sound(s) && Inv(s, w) && Due(s, w)
    ensures Due(s, Next(s, w, Begin(side, conversation, video), clock))
  {
    if At(w, side).None? {
      var o := Step(None, Start(OwnId(s, side), OwnKey(s, Other(side)), conversation, video), clock);
      FlightGrows(s, w, side, After(None, o), Fx(o));
      assert Fx(o)[1] == StartSession(OwnId(s, side), Role.Caller, video);
      assert Asked(Fx(o), side) == {Media.Media(side, OwnId(s, side))};
    }
  }

  lemma PickDue(s: Setup, w: World, side: Side, id: Id, clock: nat)
    requires Sound(s) && Inv(s, w) && Due(s, w)
    ensures Due(s, Take(w, side, Accept(id), clock))
  {
    var o := Step(At(w, side), Accept(id), clock);
    FlightGrows(s, w, side, After(At(w, side), o), Fx(o));
    if o.Moved? {
      assert Fx(o)[1] == StartSession(id, Role.Callee, At(w, side).value.video);
      assert Asked(Fx(o), side) == {Media.Media(side, id)};
    } else {
      assert Asked(Fx(o), side) == {};
    }
  }

  lemma AttachDue(s: Setup, w: World, side: Side, id: Id, clock: nat)
    requires Sound(s) && Inv(s, w) && Due(s, w) && Enabled(w, Attach(side, id))
    ensures Due(s, Next(s, w, Attach(side, id), clock))
  {
    var c := At(w, side);
    var left := w.(asked := w.asked - {Media.Media(side, id)});
    var next := Spawn(c, id).0;
    assert Stays(c, next) && (c.Some? ==> next.value.phase == c.value.phase);
    AttachLands(s, w, side, id, next);
  }

  lemma AttachLands(s: Setup, w: World, side: Side, id: Id, next: Option<Call>)
    requires Sound(s) && Inv(s, w) && Due(s, w) && Media.Media(side, id) in w.asked
    requires Stays(At(w, side), next) && (At(w, side).Some? ==> next.value.phase == At(w, side).value.phase)
    ensures var left := w.(asked := w.asked - {Media.Media(side, id)});
            if On(At(w, side), id) then
              Due(s, Put(left, side, next, []).(gathering := w.gathering + {Media.Media(side, id)}))
            else Due(s, left)
  {
    var left := w.(asked := w.asked - {Media.Media(side, id)});
    FlightGrows(s, left, side, next, []);
    OutGrows(s, w, left);
    assert Asked([], side) == {};
  }

  lemma StepDue(s: Setup, w: World, m: Move, clock: nat)
    requires Sound(s) && Inv(s, w) && Due(s, w) && Enabled(w, m)
    ensures Due(s, Next(s, w, m, clock))
  {
    match m {
      case Begin(side, conversation, video) => BeginDue(s, w, side, conversation, video, clock);
      case Pick(side, id) => PickDue(s, w, side, id, clock);
      case User(side, input) => QuietDue(s, w, side, input, clock);
      case Attach(side, id) => AttachDue(s, w, side, id, clock);
      case Gather(side, id, params, now) => LocalDue(s, w, side, id, params, now, clock);
      case Media(side, id, event, now) =>
        if event.Local? {
          LocalDue(s, w, side, id, event.params, now, clock);
          MediaLocalIsLocal(s, w, side, id, event, now, clock);
        } else {
          QuietDue(s, w, side, Session(id, event, now), clock);
        }
      case Deliver(p, conversation, now, media) => DeliverDue(s, w, p, conversation, now, media, clock);
    }
  }

  lemma DeliverDue(s: Setup, w: World, p: Packet, conversation: Id, now: nat, media: bool, clock: nat)
    requires Sound(s) && Inv(s, w) && Due(s, w) && Enabled(w, Deliver(p, conversation, now, media))
    ensures Due(s, Next(s, w, Deliver(p, conversation, now, media), clock))
  {
    match p.msg {
      case Offer(_, _, _, _) => OfferDue(s, w, p, conversation, now, media, clock);
      case Answer(_, _) => AnswerDue(s, w, p, conversation, now, media, clock);
      case _ => DeliverQuietDue(s, w, w.(flight := w.flight - multiset{p}), p, clock);
    }
  }

  /** A session gathers again only after a restart, when it is already open. */
  lemma MediaLocalIsLocal(s: Setup, w: World, side: Side, id: Id, event: SessionEvent, now: nat, clock: nat)
    requires Inv(s, w) && Due(s, w) && event.Local? && Media.Media(side, id) in w.open
    requires Due(s, Take(w, side, Session(id, event, now), clock)
                      .(gathering := w.gathering - {Media.Media(side, id)}, open := w.open + {Media.Media(side, id)}))
    ensures Due(s, Take(w, side, Session(id, event, now), clock))
  {
    assert w.open + {Media.Media(side, id)} == w.open;
  }

  lemma {:induction false} RunDue(s: Setup, w: World, ms: seq<Timed>)
    requires Sound(s) && Inv(s, w) && Due(s, w) && CanRun(s, w, ms)
    ensures Due(s, Run(s, w, ms)) && Inv(s, Run(s, w, ms))
    decreases |ms|
  {
    if ms != [] {
      StepKeeps(s, w, ms[0].move, ms[0].clock);
      StepDue(s, w, ms[0].move, ms[0].clock);
      RunDue(s, Next(s, w, ms[0].move, ms[0].clock), ms[1..]);
    }
  }

  /** Both called, the lower key's offer was not dropped, and everything has been delivered and
      gathered: both are on the lower key's call, that device as caller and the other as callee. */
  lemma CrossedOffersAgree(s: Setup, ms: seq<Timed>)
    requires Sound(s) && CanRun(s, Idle, ms)
    requires var w := Run(s, Idle, ms);
             && w.lowStarted && w.highStarted && w.clean
             && w.flight == multiset{} && w.asked == {} && w.gathering == {}
    ensures var w := Run(s, Idle, ms);
            && Past(w.low) && w.low.value.id == s.lowId && w.low.value.outgoing
            && Past(w.high) && w.high.value.id == s.lowId && !w.high.value.outgoing
  {
    RunDue(s, Idle, ms);
  }
}
