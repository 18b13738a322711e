/**
 ICE restarts between two connected devices (libcore/src/call/mod.rs): either side may restart at
 any moment, any number of times, and messages arrive in any order. No message is lost, neither end
 hangs up, and a session answers each restart command with one gathering.
 What a session gathers is new candidates; its ICE credentials stay (libcore/src/call/rtc.rs:526-557).
 */
module CallRestart {
  import opened Common
  import opened CallMachine

  datatype Side = Here | There

  datatype Packet = Packet(to: Side, msg: Msg)

  /** `pending` counts the restart commands a session has not answered yet. */
  datatype End = End(call: Option<Call>, pending: nat)

  datatype World = World(here: End, there: End, flight: multiset<Packet>)

  datatype Move =
    | Push(side: Side, input: Input)           // from outside: a network change, lost path, user
    | Gather(side: Side, params: Remote, now: nat)
    | Deliver(packet: Packet)

  predicate Outside(id: Id, input: Input) {
    match input
    case NetworkChanged => true
    case Muted(_) => true
    case Camera(_) => true
    case Session(call, event, _) => call == id && !event.Local? && !event.Failed?
    case _ => false
  }

  function At(w: World, side: Side): End {
    match side case Here => w.here case There => w.there
  }

  function Other(side: Side): Side {
    match side case Here => There case There => Here
  }

  predicate Enabled(id: Id, w: World, m: Move) {
    match m
    case Push(_, input) => Outside(id, input)
    case Gather(side, _, _) => At(w, side).pending > 0
    case Deliver(p) => p in w.flight
  }

  function Sent(fx: seq<Effect>, to: Side): multiset<Packet>
    decreases |fx|
  {
    if fx == [] then multiset{}
    else
      Sent(fx[1..], to) + (if fx[0].Signal? then multiset{Packet(to, fx[0].msg)} else multiset{})
  }

  function Take(w: World, side: Side, input: Input, clock: nat): World {
    Taken(w, side, Step(At(w, side).call, input, clock))
  }

  /** The pair once `side` has made a transition with outcome `o`. */
  function Taken(w: World, side: Side, o: Outcome): World {
    var end := At(w, side);
    var next := End.End(After(end.call, o), end.pending + multiset(Cmds(o))[Cmd.Restart]);
    var sent := w.(flight := w.flight + Sent(Fx(o), Other(side)));
    match side case Here => sent.(here := next) case There => sent.(there := next)
  }

  function Answered(w: World, side: Side): World
    requires At(w, side).pending > 0
  {
    match side
    case Here => w.(here := w.here.(pending := w.here.pending - 1))
    case There => w.(there := w.there.(pending := w.there.pending - 1))
  }

  function Next(id: Id, w: World, m: Move, clock: nat): World
    requires Enabled(id, w, m)
  {
    match m
    case Push(side, input) => Take(w, side, input, clock)
    case Gather(side, params, now) => Take(Answered(w, side), side, Session(id, Local(params), now), clock)
    case Deliver(p) => Take(w.(flight := w.flight - multiset{p}), p.to, Signalled(p.msg), clock)
  }

  datatype Timed = Timed(move: Move, clock: nat)

  predicate CanRun(id: Id, w: World, ms: seq<Timed>)
    decreases |ms|
  {
    ms == [] || (Enabled(id, w, ms[0].move) && CanRun(id, Next(id, w, ms[0].move, ms[0].clock), ms[1..]))
  }

  function Run(id: Id, w: World, ms: seq<Timed>): World
    requires CanRun(id, w, ms)
    decreases |ms|
  {
    if ms == [] then w else Run(id, Next(id, w, ms[0].move, ms[0].clock), ms[1..])
  }

  // ---- One device ---------------------------------------------------------------------------

  predicate Ready(c: Option<Call>, id: Id) {
    c.Some? && c.value.id == id && UpOrRestarting(c.value.phase) && c.value.session
  }

  predicate Silent(fx: seq<Effect>) {
    forall i :: 0 <= i < |fx| ==> !fx[i].Signal?
  }

  predicate Benign(msg: Msg) {
    !msg.Offer? && !msg.End?
  }

  lemma NoRestartAmongCandidates(cs: seq<Candidate>)
    ensures multiset(Candidates(cs))[Cmd.Restart] == 0
  {
    assert Cmd.Restart !in Candidates(cs);
  }

  lemma OfferRemoteSendsNoRestart(c: Call, remote: Remote)
    ensures multiset(OfferRemote(c, remote).1)[Cmd.Restart] == 0
  {
    NoRestartAmongCandidates(c.early);
  }

  /** A round of our own: one generation further, one restart to gather for. */
  lemma OwnRound(c: Call)
    requires UpOrRestarting(c.phase) && c.session
    ensures var r := BeginRestart(c, None);
            && Ready(Some(r.call), c.id) && r.call.restartGen == c.restartGen + 1
            && multiset(r.cmds)[Cmd.Restart] == 1 && Silent(r.fx)
  {
  }

  /** Joining their round: their generation, and one restart to gather for. */
  lemma TheirRound(c: Call, remote: Remote)
    requires UpOrRestarting(c.phase) && c.session
    ensures var r := BeginRestart(c, Some(remote));
            && Ready(Some(r.call), c.id) && r.call.restartGen == c.restartGen
            && multiset(r.cmds)[Cmd.Restart] == 1 && Silent(r.fx)
  {
    OfferRemoteSendsNoRestart(c.(phase := Phase.Reconnecting, early := []), remote);
  }

  /** At most one round begins, and then nothing is said; otherwise at most one other message is. */
  predicate PushedAs(c: Option<Call>, id: Id, o: Outcome) {
    && c.Some? && o.Moved? && Ready(o.state, id)
    && o.state.value.restartGen == c.value.restartGen + multiset(o.cmds)[Cmd.Restart]
    && multiset(o.cmds)[Cmd.Restart] <= 1
    && |o.fx| <= 2
    && (multiset(o.cmds)[Cmd.Restart] == 1 ==> Silent(o.fx))
    && forall i :: 0 <= i < |o.fx| && o.fx[i].Signal? ==>
         |o.fx| == 1 && Benign(o.fx[i].msg) && !o.fx[i].msg.Restart?
  }

  lemma Pushed(c: Option<Call>, id: Id, input: Input, clock: nat)
    requires Ready(c, id) && Outside(id, input)
    ensures PushedAs(c, id, Step(c, input, clock))
  {
    OwnRound(c.value);
  }

  /** What makes a device restart: its network changed, its path is lost, or its relay credentials run
      out. */
  predicate Prompts(c: Call, input: Input) {
    || input.NetworkChanged?
    || (input.Session? && input.id == c.id && (input.event.Expiring? || (input.event.Disconnected? && c.phase.Connected?)))
  }

  /** Of the inputs that are not the peer's, exactly the prompts begin a round: one generation further, one
      command to the session, the candidates of the round before forgotten and, the first time, the
      platform told and a timer set. */
  lemma RestartsIff(c: Call, input: Input, clock: nat)
    requires UpOrRestarting(c.phase) && !input.Signalled? && After(Some(c), Step(Some(c), input, clock)).Some?
    ensures var o := Step(Some(c), input, clock);
            var n := After(Some(c), o).value;
            if Prompts(c, input) then
              && n.restartGen == c.restartGen + 1 && n.phase.Reconnecting? && n.early == []
              && (n.remote.Some? ==> n.remote.value.candidates == [])
              && Cmds(o) == (if c.session then [Cmd.Restart] else [])
              && Fx(o) == (if c.phase.Connected? then
                             [Emit(CallEvent.Reconnecting(c.id)), Arm(20_000, c.id, Phase.Reconnecting, Expiry.Failed)]
                           else [])
            else n.restartGen == c.restartGen && Cmds(o) == []
  {
  }

  lemma Received(c: Option<Call>, id: Id, msg: Msg, clock: nat)
    requires Ready(c, id) && Benign(msg)
    ensures var o := OnSignal(c, msg, clock);
            var joins := msg.Restart? && msg.call == id && msg.generation > c.value.restartGen;
            && o.Moved? && Ready(o.state, id) && Silent(o.fx)
            && o.state.value.restartGen == (if joins then msg.generation else c.value.restartGen)
            && multiset(o.cmds)[Cmd.Restart] == (if joins then 1 else 0)
  {
    if msg.Restart? && msg.call == id {
      ReceivedRestart(c.value, msg, clock);
    }
  }

  lemma ReceivedRestart(c: Call, msg: Msg, clock: nat)
    requires Ready(Some(c), c.id) && msg.Restart? && msg.call == c.id
    ensures var o := OnSignal(Some(c), msg, clock);
            var joins := msg.generation > c.restartGen;
            && o.Moved? && Ready(o.state, c.id) && Silent(o.fx)
            && o.state.value.restartGen == (if joins then msg.generation else c.restartGen)
            && multiset(o.cmds)[Cmd.Restart] == (if joins then 1 else 0)
  {
    var remote := RestartRemote(c, msg);
    if msg.generation > c.restartGen {
      TheirRound(c.(restartGen := msg.generation), remote);
    } else {
      OfferRemoteSendsNoRestart(c, remote);
    }
  }

  lemma Gathered(c: Option<Call>, id: Id, params: Remote, now: nat, clock: nat)
    requires Ready(c, id)
    ensures var o := Step(c, Session(id, Local(params), now), clock);
            && o.Moved? && o.state == c && o.cmds == []
            && |o.fx| == 1 && o.fx[0].Signal?
            && o.fx[0].msg == Msg.Restart(id, c.value.restartGen, params.ufrag, params.pwd, params.candidates)
  {
  }

  // ---- The pair -------------------------------------------------------------------------------

  function Gen(w: World, side: Side): nat {
    match At(w, side).call case Some(c) => c.restartGen case None => 0
  }

  /** The newest generation of `side` is in some message to the other end. */
  ghost predicate Carried(id: Id, w: World, side: Side) {
    exists p :: p in w.flight && p.to == Other(side) && p.msg.Restart? && p.msg.call == id
                && p.msg.generation == Gen(w, side)
  }

  /** An end that is ahead has said so or is about to. */
  ghost predicate Told(id: Id, w: World, side: Side) {
    Gen(w, side) > Gen(w, Other(side)) ==> At(w, side).pending > 0 || Carried(id, w, side)
  }

  predicate PacketOk(id: Id, w: World, p: Packet) {
    Benign(p.msg) && (p.msg.Restart? && p.msg.call == id ==> p.msg.generation <= Gen(w, Other(p.to)))
  }

  ghost predicate Inv(id: Id, w: World) {
    && Ready(w.here.call, id) && Ready(w.there.call, id)
    && (forall p :: p in w.flight ==> PacketOk(id, w, p))
    && Told(id, w, Here) && Told(id, w, There)
  }

  function Gap(w: World): nat {
    var top := Max(Gen(w, Here), Gen(w, There));
    2 * top - Gen(w, Here) - Gen(w, There)
  }

  /** What is left to settle if nothing more happens outside. */
  function Measure(w: World): nat {
    3 * Gap(w) + 2 * (w.here.pending + w.there.pending) + |w.flight|
  }

  lemma {:induction false} SilentSendsNothing(fx: seq<Effect>, to: Side)
    requires Silent(fx)
    ensures Sent(fx, to) == multiset{}
    decreases |fx|
  {
    if fx != [] {
      assert forall i :: 0 <= i < |fx[1..]| ==> fx[1..][i] == fx[i + 1];
      SilentSendsNothing(fx[1..], to);
    }
  }

  lemma OneSignalSent(fx: seq<Effect>, to: Side)
    requires |fx| == 1 && fx[0].Signal?
    ensures Sent(fx, to) == multiset{Packet(to, fx[0].msg)}
  {
    assert fx[1..] == [];
  }

  lemma PushKeeps(id: Id, w: World, side: Side, input: Input, clock: nat)
    requires Inv(id, w) && Outside(id, input)
    ensures var n := Take(w, side, input, clock);
            && Inv(id, n) && Measure(n) <= Measure(w) + 5
            && Gen(n, Here) >= Gen(w, Here) && Gen(n, There) >= Gen(w, There)
  {
    Pushed(At(w, side).call, id, input, clock);
    PushedKeeps(id, w, side, Step(At(w, side).call, input, clock));
  }

  lemma PushedKeeps(id: Id, w: World, side: Side, o: Outcome)
    requires Inv(id, w) && PushedAs(At(w, side).call, id, o)
    ensures var n := Taken(w, side, o);
            && Inv(id, n) && Measure(n) <= Measure(w) + 5
            && Gen(n, Here) >= Gen(w, Here) && Gen(n, There) >= Gen(w, There)
  {
    PushedSends(At(w, side).call, id, o, Other(side));
    SpreadKeeps(id, w, side, o, Sent(o.fx, Other(side)));
  }

  lemma PushedSends(c: Option<Call>, id: Id, o: Outcome, to: Side)
    requires PushedAs(c, id, o)
    ensures var sent := Sent(o.fx, to);
            && |sent| <= 1
            && (multiset(o.cmds)[Cmd.Restart] == 1 ==> sent == multiset{})
            && forall p :: p in sent ==> p.to == to && Benign(p.msg) && !p.msg.Restart?
  {
    if i :| 0 <= i < |o.fx| && o.fx[i].Signal? {
      OneSignalSent(o.fx, to);
    } else {
      SilentSendsNothing(o.fx, to);
    }
  }

  /** The pair after one end moved up by the restarts it asked for, with at most one more message. */
  lemma SpreadKeeps(id: Id, w: World, side: Side, o: Outcome, sent: multiset<Packet>)
    requires Inv(id, w) && o.Moved? && Ready(o.state, id)
    requires var rounds := multiset(o.cmds)[Cmd.Restart];
             && rounds <= 1 && o.state.value.restartGen == At(w, side).call.value.restartGen + rounds
             && (rounds == 1 ==> sent == multiset{}) && |sent| <= 1
    requires forall p :: p in sent ==> p.to == Other(side) && Benign(p.msg) && !p.msg.Restart?
    ensures var end := End.End(o.state, At(w, side).pending + multiset(o.cmds)[Cmd.Restart]);
            var n := if side.Here? then w.(here := end, flight := w.flight + sent)
                     else w.(there := end, flight := w.flight + sent);
            && Inv(id, n) && Measure(n) <= Measure(w) + 5
            && Gen(n, Here) >= Gen(w, Here) && Gen(n, There) >= Gen(w, There)
  {
    var rounds := multiset(o.cmds)[Cmd.Restart];
    var end := End.End(o.state, At(w, side).pending + rounds);
    var n := if side.Here? then w.(here := end, flight := w.flight + sent)
             else w.(there := end, flight := w.flight + sent);
    TellingSurvives(id, w, n, Other(side));
    if rounds == 0 {
      TellingSurvives(id, w, n, side);
    }
  }

  lemma TellingSurvives(id: Id, w: World, n: World, side: Side)
    requires Told(id, w, side) && Gen(n, side) == Gen(w, side) && Gen(n, Other(side)) >= Gen(w, Other(side))
    requires At(n, side).pending >= At(w, side).pending
    requires forall p :: p in w.flight ==> p in n.flight
    ensures Told(id, n, side)
  {
    if Gen(n, side) > Gen(n, Other(side)) && At(n, side).pending == 0 {
      var p :| p in w.flight && p.to == Other(side) && p.msg.Restart? && p.msg.call == id && p.msg.generation == Gen(w, side);
      assert p in n.flight;
    }
  }

  lemma GatherKeeps(id: Id, w: World, side: Side, params: Remote, now: nat, clock: nat)
    requires Inv(id, w) && Enabled(id, w, Gather(side, params, now))
    ensures var n := Next(id, w, Gather(side, params, now), clock);
            && Inv(id, n) && Measure(n) < Measure(w)
            && Gen(n, Here) == Gen(w, Here) && Gen(n, There) == Gen(w, There)
  {
    var c := At(w, side).call;
    Gathered(c, id, params, now, clock);
    GatheredTaken(id, w, side, Step(c, Session(id, Local(params), now), clock));
  }

  /** The pair after an end answered one restart with its message and no other change. */
  lemma GatheredTaken(id: Id, w: World, side: Side, o: Outcome)
    requires Inv(id, w) && At(w, side).pending > 0 && o.Moved? && o.state == At(w, side).call && o.cmds == []
    requires |o.fx| == 1 && o.fx[0].Signal? && OfCall(o.fx[0].msg, id) && o.fx[0].msg.generation == Gen(w, side)
    ensures var n := Taken(Answered(w, side), side, o);
            && Inv(id, n) && Measure(n) < Measure(w)
            && Gen(n, Here) == Gen(w, Here) && Gen(n, There) == Gen(w, There)
  {
    OneSignalSent(o.fx, Other(side));
    var n := Taken(Answered(w, side), side, o);
    var p := Packet(Other(side), o.fx[0].msg);
    assert n.flight == w.flight + multiset{p};
    assert p in n.flight && Carried(id, n, side);
    TellingSurvives(id, w, n, Other(side));
  }

  /** The pair after `p` was taken with outcome `o`, which signalled nothing. */
  function Landed(w: World, p: Packet, o: Outcome): World {
    var end := End.End(After(At(w, p.to).call, o), At(w, p.to).pending + multiset(Cmds(o))[Cmd.Restart]);
    var left := w.(flight := w.flight - multiset{p});
    match p.to case Here => left.(here := end) case There => left.(there := end)
  }

  lemma DeliverKeeps(id: Id, w: World, p: Packet, clock: nat)
    requires Inv(id, w) && p in w.flight
    ensures var n := Next(id, w, Deliver(p), clock);
            && Inv(id, n) && Measure(n) < Measure(w)
            && Gen(n, Here) >= Gen(w, Here) && Gen(n, There) >= Gen(w, There)
  {
    assert PacketOk(id, w, p);
    var o := OnSignal(At(w, p.to).call, p.msg, clock);
    Received(At(w, p.to).call, id, p.msg, clock);
    LandingKeeps(id, w, p, o);
    DeliveryLands(id, w, p, clock, o);
  }

  lemma DeliveryLands(id: Id, w: World, p: Packet, clock: nat, o: Outcome)
    requires p in w.flight && o == OnSignal(At(w, p.to).call, p.msg, clock) && o.Moved? && Silent(o.fx)
    ensures Next(id, w, Deliver(p), clock) == Landed(w, p, o)
  {
    SilentSendsNothing(o.fx, Other(p.to));
  }

  /** A taken message leaves a device at its own generation, or joining the message's. */
  predicate LandsAs(id: Id, c: Call, msg: Msg, o: Outcome) {
    var joins := msg.Restart? && msg.call == id && msg.generation > c.restartGen;
    && o.Moved? && Ready(o.state, id)
    && o.state.value.restartGen == (if joins then msg.generation else c.restartGen)
    && multiset(o.cmds)[Cmd.Restart] == (if joins then 1 else 0)
  }

  lemma LandingKeeps(id: Id, w: World, p: Packet, o: Outcome)
    requires Inv(id, w) && p in w.flight && LandsAs(id, At(w, p.to).call.value, p.msg, o)
    ensures var n := Landed(w, p, o);
            && Inv(id, n) && Measure(n) < Measure(w)
            && Gen(n, Here) >= Gen(w, Here) && Gen(n, There) >= Gen(w, There)
  {
    LandingMeasured(id, w, p, o);
    SenderStillTold(id, w, p, o);
    ReceiverStillTold(id, w, p, o);
  }

  lemma LandingMeasured(id: Id, w: World, p: Packet, o: Outcome)
    requires Inv(id, w) && p in w.flight && LandsAs(id, At(w, p.to).call.value, p.msg, o)
    ensures var n := Landed(w, p, o);
            Measure(n) < Measure(w) && Gen(n, Here) >= Gen(w, Here) && Gen(n, There) >= Gen(w, There)
  {
    assert PacketOk(id, w, p);
    assert |Landed(w, p, o).flight| == |w.flight| - 1;
  }

  /** The sender: either its news just landed, or another copy is still on its way. */
  lemma SenderStillTold(id: Id, w: World, p: Packet, o: Outcome)
    requires Inv(id, w) && p in w.flight && LandsAs(id, At(w, p.to).call.value, p.msg, o)
    ensures Told(id, Landed(w, p, o), Other(p.to))
  {
    var from, n := Other(p.to), Landed(w, p, o);
    assert PacketOk(id, w, p);
    if Gen(n, from) > Gen(n, p.to) && At(n, from).pending == 0 {
      var q :| q in w.flight && q.to == p.to && q.msg.Restart? && q.msg.call == id && q.msg.generation == Gen(w, from);
      assert q != p && q in n.flight;
    }
  }

  /** The receiver: its own messages are untouched, and if it joined it is no longer ahead. */
  lemma ReceiverStillTold(id: Id, w: World, p: Packet, o: Outcome)
    requires Inv(id, w) && p in w.flight && LandsAs(id, At(w, p.to).call.value, p.msg, o)
    ensures Told(id, Landed(w, p, o), p.to)
  {
    var from, n := Other(p.to), Landed(w, p, o);
    assert PacketOk(id, w, p);
    if Gen(n, p.to) > Gen(n, from) && At(n, p.to).pending == 0 {
      var q :| q in w.flight && q.to == from && q.msg.Restart? && q.msg.call == id && q.msg.generation == Gen(w, p.to);
      assert q in n.flight;
    }
  }

  lemma StepKeeps(id: Id, w: World, m: Move, clock: nat)
    requires Inv(id, w) && Enabled(id, w, m)
    ensures var n := Next(id, w, m, clock);
            && Inv(id, n)
            && (if m.Push? then Measure(n) <= Measure(w) + 5 else Measure(n) < Measure(w))
            && Gen(n, Here) >= Gen(w, Here) && Gen(n, There) >= Gen(w, There)
  {
    match m {
      case Push(side, input) => PushKeeps(id, w, side, input, clock);
      case Gather(side, params, now) => GatherKeeps(id, w, side, params, now, clock);
      case Deliver(p) => DeliverKeeps(id, w, p, clock);
    }
  }

  function Pushes(ms: seq<Timed>): nat
    decreases |ms|
  {
    if ms == [] then 0 else (if ms[0].move.Push? then 1 else 0) + Pushes(ms[1..])
  }

  /** From any state of the exchange: generations never decrease, and the gatherings and deliveries
      of a run are bounded by what was left to settle and the number of outside events. */
  lemma {:induction false} Settles(id: Id, w: World, ms: seq<Timed>)
    requires Inv(id, w) && CanRun(id, w, ms)
    ensures Inv(id, Run(id, w, ms))
    ensures Gen(Run(id, w, ms), Here) >= Gen(w, Here) && Gen(Run(id, w, ms), There) >= Gen(w, There)
    ensures Measure(Run(id, w, ms)) + (|ms| - Pushes(ms)) <= Measure(w) + 5 * Pushes(ms)
    decreases |ms|
  {
    if ms != [] {
      StepKeeps(id, w, ms[0].move, ms[0].clock);
      Settles(id, Next(id, w, ms[0].move, ms[0].clock), ms[1..]);
    }
  }

  predicate Settled(w: World) {
    w.here.pending == 0 && w.there.pending == 0 && w.flight == multiset{}
  }

  /** Two ends that start level: however their restarts interleave, the exchange goes on until it is
      settled, it settles after finitely many steps, and it settles on one generation for both. */
  lemma RestartsConverge(id: Id, w: World, ms: seq<Timed>)
    requires Ready(w.here.call, id) && Ready(w.there.call, id)
    requires Gen(w, Here) == Gen(w, There) && Settled(w) && CanRun(id, w, ms)
    ensures |ms| - Pushes(ms) <= 5 * Pushes(ms)
    ensures var n := Run(id, w, ms);
            if Settled(n) then Gen(n, Here) == Gen(n, There)
            else exists m: Move :: !m.Push? && Enabled(id, n, m)
  {
    Settles(id, w, ms);
    var n := Run(id, w, ms);
    if n.here.pending > 0 {
      assert Enabled(id, n, Gather(Here, Remote.Remote("", "", [], 0, 0, []), 0));
    } else if n.there.pending > 0 {
      assert Enabled(id, n, Gather(There, Remote.Remote("", "", [], 0, 0, []), 0));
    } else if n.flight != multiset{} {
      var p :| p in n.flight;
      assert Enabled(id, n, Deliver(p));
    }
  }

  // ---- Which restarts arrive --------------------------------------------------------------------

  predicate OfCall(msg: Msg, id: Id) {
    msg.Restart? && msg.call == id
  }

  /** The restart messages delivered to one end, in the order they arrive. */
  function DeliveredTo(id: Id, ms: seq<Timed>, to: Side): (got: seq<Msg>)
    ensures forall i :: 0 <= i < |got| ==> OfCall(got[i], id)
    decreases |ms|
  {
    if ms == [] then []
    else
      var rest := DeliveredTo(id, ms[1..], to);
      if Arrives(id, ms[0].move, to) then [ms[0].move.packet.msg] + rest else rest
  }

  predicate Arrives(id: Id, m: Move, to: Side) {
    m.Deliver? && m.packet.to == to && OfCall(m.packet.msg, id)
  }

  /** The restart messages the other end gathered for it, in the order they were sent. */
  function GatheredFor(id: Id, w: World, ms: seq<Timed>, to: Side): (sent: seq<Msg>)
    requires CanRun(id, w, ms)
    ensures forall i :: 0 <= i < |sent| ==> OfCall(sent[i], id)
    decreases |ms|
  {
    if ms == [] then []
    else
      var rest := GatheredFor(id, Next(id, w, ms[0].move, ms[0].clock), ms[1..], to);
      if Gathers(ms[0].move, to) then [GatheredMsg(id, w, ms[0].move)] + rest else rest
  }

  predicate Gathers(m: Move, to: Side) {
    m.Gather? && m.side == Other(to)
  }

  function GatheredMsg(id: Id, w: World, m: Move): Msg
    requires m.Gather?
  {
    Msg.Restart(id, Gen(w, m.side), m.params.ufrag, m.params.pwd, m.params.candidates)
  }

  function CountIn(b: bool): nat {
    if b then 1 else 0
  }

  lemma PushFlight(id: Id, w: World, side: Side, input: Input, clock: nat, p: Packet)
    requires Inv(id, w) && Outside(id, input) && OfCall(p.msg, id)
    ensures Take(w, side, input, clock).flight[p] == w.flight[p]
  {
    var o := Step(At(w, side).call, input, clock);
    Pushed(At(w, side).call, id, input, clock);
    PushedSends(At(w, side).call, id, o, Other(side));
    TakenFlight(w, side, o, p);
  }

  lemma TakenFlight(w: World, side: Side, o: Outcome, p: Packet)
    ensures Taken(w, side, o).flight[p] == w.flight[p] + Sent(Fx(o), Other(side))[p]
  {
  }

  lemma GatherFlight(id: Id, w: World, m: Move, clock: nat, p: Packet)
    requires Inv(id, w) && m.Gather? && Enabled(id, w, m)
    ensures Next(id, w, m, clock).flight[p] == w.flight[p] + CountIn(p == Packet(Other(m.side), GatheredMsg(id, w, m)))
  {
    var left := Answered(w, m.side);
    var c := At(left, m.side).call;
    var o := Step(c, Session(id, Local(m.params), m.now), clock);
    Gathered(c, id, m.params, m.now, clock);
    OneSignalSent(o.fx, Other(m.side));
    TakenFlight(left, m.side, o, p);
  }

  lemma DeliverFlight(id: Id, w: World, p: Packet, clock: nat, q: Packet)
    requires Inv(id, w) && p in w.flight
    ensures Next(id, w, Deliver(p), clock).flight[q] + CountIn(p == q) == w.flight[q]
  {
    assert PacketOk(id, w, p);
    var o := OnSignal(At(w, p.to).call, p.msg, clock);
    Received(At(w, p.to).call, id, p.msg, clock);
    DeliveryLands(id, w, p, clock, o);
  }

  /** One move sends or delivers each restart message at most once, and loses none. */
  lemma MoveFlight(id: Id, w: World, m: Move, clock: nat, to: Side, msg: Msg)
    requires Inv(id, w) && Enabled(id, w, m) && OfCall(msg, id)
    ensures Next(id, w, m, clock).flight[Packet(to, msg)] + CountIn(Arrives(id, m, to) && m.packet.msg == msg)
         == w.flight[Packet(to, msg)] + CountIn(Gathers(m, to) && GatheredMsg(id, w, m) == msg)
  {
    match m {
      case Push(side, input) => PushFlight(id, w, side, input, clock, Packet(to, msg));
      case Gather(_, _, _) => GatherFlight(id, w, m, clock, Packet(to, msg));
      case Deliver(p) => DeliverFlight(id, w, p, clock, Packet(to, msg));
    }
  }

  lemma CountFirst(x: Msg, rest: seq<Msg>, msg: Msg)
    ensures multiset([x] + rest)[msg] == multiset(rest)[msg] + CountIn(x == msg)
  {
  }

  /** Over a run, what was in flight and gathered is in flight or delivered, message by message. */
  lemma {:induction false} RestartsConserved(id: Id, w: World, ms: seq<Timed>, to: Side, msg: Msg)
    requires Inv(id, w) && CanRun(id, w, ms) && OfCall(msg, id)
    ensures Run(id, w, ms).flight[Packet(to, msg)] + multiset(DeliveredTo(id, ms, to))[msg]
         == w.flight[Packet(to, msg)] + multiset(GatheredFor(id, w, ms, to))[msg]
    decreases |ms|
  {
    if ms != [] {
      var m := ms[0].move;
      var n := Next(id, w, m, ms[0].clock);
      StepKeeps(id, w, m, ms[0].clock);
      MoveFlight(id, w, m, ms[0].clock, to, msg);
      RestartsConserved(id, n, ms[1..], to, msg);
      if Arrives(id, m, to) {
        CountFirst(m.packet.msg, DeliveredTo(id, ms[1..], to), msg);
      }
      if Gathers(m, to) {
        CountFirst(GatheredMsg(id, w, m), GatheredFor(id, n, ms[1..], to), msg);
      }
    }
  }

  /** Between two settled moments every restart that was gathered arrives exactly once. */
  lemma AllArrive(id: Id, w: World, ms: seq<Timed>, side: Side)
    requires Inv(id, w) && CanRun(id, w, ms) && w.flight == Run(id, w, ms).flight == multiset{}
    ensures multiset(GatheredFor(id, w, ms, side)) == multiset(DeliveredTo(id, ms, side))
  {
    var sent, got := GatheredFor(id, w, ms, side), DeliveredTo(id, ms, side);
    forall msg
      ensures multiset(sent)[msg] == multiset(got)[msg]
    {
      if OfCall(msg, id) {
        RestartsConserved(id, w, ms, side, msg);
      } else {
        assert msg !in sent && msg !in got;
      }
    }
  }

  // ---- Whom an end connects to ------------------------------------------------------------------

  /** All an end holds of its peer but the candidates: ICE credentials, certificate and streams. */
  function Peer(w: World, side: Side): Option<Remote> {
    PeerIn(At(w, side).call)
  }

  function PeerIn(call: Option<Call>): Option<Remote> {
    match call
    case Some(c) => (match c.remote case Some(r) => Some(r.(candidates := [])) case None => None)
    case None => None
  }

  /** An arriving restart replaces the credentials and keeps the certificate and the streams. */
  function Renewed(held: Option<Remote>, msg: Msg): Option<Remote>
    requires msg.Restart?
  {
    match held
    case Some(r) => Some(r.(ufrag := msg.ufrag, pwd := msg.pwd))
    case None => Some(Remote.Remote(msg.ufrag, msg.pwd, seq(32, i => 0), 0, 0, []))
  }

  lemma PushPeer(c: Option<Call>, id: Id, input: Input, clock: nat)
    requires Ready(c, id) && Outside(id, input)
    ensures var o := Step(c, input, clock); o.Moved? && PeerIn(o.state) == PeerIn(c)
  {
  }

  lemma SignalPeer(c: Option<Call>, id: Id, msg: Msg, clock: nat)
    requires Ready(c, id) && Benign(msg)
    ensures var o := OnSignal(c, msg, clock);
            o.Moved? && PeerIn(o.state) == if OfCall(msg, id) then Renewed(PeerIn(c), msg) else PeerIn(c)
  {
    if OfCall(msg, id) {
      RestartPeer(c.value, msg);
    }
  }

  lemma RestartPeer(c: Call, msg: Msg)
    requires msg.Restart?
    ensures Some(RestartRemote(c, msg).(candidates := [])) == Renewed(PeerIn(Some(c)), msg)
  {
  }

  lemma TakenPeer(w: World, at: Side, o: Outcome, side: Side)
    requires o.Moved?
    ensures Peer(Taken(w, at, o), side) == if side == at then PeerIn(o.state) else Peer(w, side)
  {
  }

  lemma PushMovePeer(id: Id, w: World, at: Side, input: Input, clock: nat, side: Side)
    requires Inv(id, w) && Outside(id, input)
    ensures Peer(Take(w, at, input, clock), side) == Peer(w, side)
  {
    PushPeer(At(w, at).call, id, input, clock);
    TakenPeer(w, at, Step(At(w, at).call, input, clock), side);
  }

  lemma GatherMovePeer(id: Id, w: World, at: Side, params: Remote, now: nat, clock: nat, side: Side)
    requires Inv(id, w) && At(w, at).pending > 0
    ensures Peer(Take(Answered(w, at), at, Session(id, Local(params), now), clock), side) == Peer(w, side)
  {
    var left := Answered(w, at);
    Gathered(At(left, at).call, id, params, now, clock);
    TakenPeer(left, at, Step(At(left, at).call, Session(id, Local(params), now), clock), side);
  }

  lemma DeliverMovePeer(id: Id, w: World, p: Packet, clock: nat, side: Side)
    requires Inv(id, w) && p in w.flight
    ensures Peer(Next(id, w, Deliver(p), clock), side)
         == if p.to == side && OfCall(p.msg, id) then Renewed(Peer(w, side), p.msg) else Peer(w, side)
  {
    assert PacketOk(id, w, p);
    SignalPeer(At(w, p.to).call, id, p.msg, clock);
    DeliveredPeer(id, w, p, clock, OnSignal(At(w, p.to).call, p.msg, clock), side);
  }

  lemma DeliveredPeer(id: Id, w: World, p: Packet, clock: nat, o: Outcome, side: Side)
    requires p in w.flight && o == OnSignal(At(w, p.to).call, p.msg, clock) && o.Moved?
    ensures Peer(Next(id, w, Deliver(p), clock), side) == if p.to == side then PeerIn(o.state) else Peer(w, side)
  {
    DeliveryTaken(id, w, p, clock, o);
    TakenPeer(w.(flight := w.flight - multiset{p}), p.to, o, side);
  }

  lemma DeliveryTaken(id: Id, w: World, p: Packet, clock: nat, o: Outcome)
    requires p in w.flight && o == OnSignal(At(w, p.to).call, p.msg, clock)
    ensures Next(id, w, Deliver(p), clock) == Taken(w.(flight := w.flight - multiset{p}), p.to, o)
  {
    var left := w.(flight := w.flight - multiset{p});
    assert At(left, p.to) == At(w, p.to);
    SignalledTaken(left, p.to, p.msg, clock, o);
  }

  lemma SignalledTaken(w: World, to: Side, msg: Msg, clock: nat, o: Outcome)
    requires o == OnSignal(At(w, to).call, msg, clock)
    ensures Take(w, to, Signalled(msg), clock) == Taken(w, to, o)
  {
  }

  /** Only an arriving restart touches what an end holds of its peer, and then only the credentials,
      whatever its generation. */
  lemma MovePeer(id: Id, w: World, m: Move, clock: nat, side: Side)
    requires Inv(id, w) && Enabled(id, w, m)
    ensures Peer(Next(id, w, m, clock), side)
         == if Arrives(id, m, side) then Renewed(Peer(w, side), m.packet.msg) else Peer(w, side)
  {
    match m {
      case Push(at, input) => PushMovePeer(id, w, at, input, clock, side);
      case Gather(at, params, now) => GatherMovePeer(id, w, at, params, now, clock, side);
      case Deliver(p) => DeliverMovePeer(id, w, p, clock, side);
    }
  }

  datatype Credentials = Credentials(ufrag: string, pwd: string)

  /** Each session's ICE credentials, fixed when it was built. */
  datatype Agents = Agents(here: Credentials, there: Credentials)

  function Agent(agents: Agents, side: Side): Credentials {
    match side case Here => agents.here case There => agents.there
  }

  /** A restart gathers under the session's own credentials. */
  predicate KeepsAgent(agents: Agents, m: Move) {
    m.Gather? ==> Credentials(m.params.ufrag, m.params.pwd) == Agent(agents, m.side)
  }

  predicate KeepsAgents(agents: Agents, ms: seq<Timed>) {
    forall i :: 0 <= i < |ms| ==> KeepsAgent(agents, ms[i].move)
  }

  predicate CarriesAgent(id: Id, agents: Agents, p: Packet) {
    OfCall(p.msg, id) ==> Credentials(p.msg.ufrag, p.msg.pwd) == Agent(agents, Other(p.to))
  }

  /** Restarts in flight carry their sender's credentials. */
  ghost predicate Carries(id: Id, agents: Agents, w: World) {
    forall p :: p in w.flight ==> CarriesAgent(id, agents, p)
  }

  predicate KnowsPeer(agents: Agents, w: World, side: Side) {
    Peer(w, side).Some? && Credentials(Peer(w, side).value.ufrag, Peer(w, side).value.pwd) == Agent(agents, Other(side))
  }

  lemma StaysCarrying(id: Id, agents: Agents, w: World, m: Move, clock: nat)
    requires Inv(id, w) && Enabled(id, w, m) && Carries(id, agents, w) && KeepsAgent(agents, m)
    ensures Carries(id, agents, Next(id, w, m, clock))
  {
    var n := Next(id, w, m, clock);
    forall p | p in n.flight
      ensures CarriesAgent(id, agents, p)
    {
      if OfCall(p.msg, id) {
        MoveFlight(id, w, m, clock, p.to, p.msg);
        assert p == Packet(p.to, p.msg);
        if p in w.flight {
          assert CarriesAgent(id, agents, p);
        }
      }
    }
  }

  /** In every run and every order of delivery, an end that knows its peer goes on holding exactly what it
      held of it: the credentials, the certificate and the streams. */
  lemma {:induction false} PeerNeverChanges(id: Id, agents: Agents, w: World, ms: seq<Timed>, side: Side)
    requires Inv(id, w) && CanRun(id, w, ms) && KeepsAgents(agents, ms)
    requires Carries(id, agents, w) && KnowsPeer(agents, w, side)
    ensures Peer(Run(id, w, ms), side) == Peer(w, side)
    decreases |ms|
  {
    if ms != [] {
      var m, n := ms[0].move, Next(id, w, ms[0].move, ms[0].clock);
      assert KeepsAgent(agents, m);
      StepKeeps(id, w, m, ms[0].clock);
      StaysCarrying(id, agents, w, m, ms[0].clock);
      MovePeer(id, w, m, ms[0].clock, side);
      if Arrives(id, m, side) {
        assert CarriesAgent(id, agents, m.packet);
      }
      assert Peer(n, side) == Peer(w, side);
      assert forall i :: 0 <= i < |ms[1..]| ==> ms[1..][i] == ms[i + 1];
      PeerNeverChanges(id, agents, n, ms[1..], side);
    }
  }

  // ---- Which candidates a session is handed -----------------------------------------------------

  /** What a move sends to one end's session. */
  function CommandsTo(id: Id, w: World, m: Move, clock: nat, side: Side): seq<Cmd>
    requires Enabled(id, w, m)
  {
    match m
    case Push(at, input) => if at == side then Cmds(Step(At(w, at).call, input, clock)) else []
    case Gather(at, params, now) =>
      if at == side then Cmds(Step(At(w, at).call, Session(id, Local(params), now), clock)) else []
    case Deliver(p) => if p.to == side then Cmds(OnSignal(At(w, p.to).call, p.msg, clock)) else []
  }

  /** The candidate lists that came with the peer's parameters. */
  function Lists(cmds: seq<Cmd>): seq<seq<Candidate>> {
    if cmds == [] then []
    else (if cmds[0].Remote? then [cmds[0].remote.candidates] else []) + Lists(cmds[1..])
  }

  /** The candidate lists an end's session is handed in a run, in order. */
  function HandedTo(id: Id, w: World, ms: seq<Timed>, side: Side): seq<seq<Candidate>>
    requires CanRun(id, w, ms)
    decreases |ms|
  {
    if ms == [] then []
    else
      Lists(CommandsTo(id, w, ms[0].move, ms[0].clock, side))
      + HandedTo(id, Next(id, w, ms[0].move, ms[0].clock), ms[1..], side)
  }

  predicate AllRestarts(msgs: seq<Msg>) {
    forall i :: 0 <= i < |msgs| ==> msgs[i].Restart?
  }

  function CandidatesIn(msgs: seq<Msg>): seq<seq<Candidate>>
    requires AllRestarts(msgs)
  {
    seq(|msgs|, i requires 0 <= i < |msgs| => msgs[i].candidates)
  }

  lemma {:induction false} ListsJoin(a: seq<Cmd>, b: seq<Cmd>)
    ensures Lists(a + b) == Lists(a) + Lists(b)
  {
    if a == [] {
      assert a + b == b;
    } else {
      assert (a + b)[0] == a[0] && (a + b)[1..] == a[1..] + b;
      ListsJoin(a[1..], b);
    }
  }

  lemma {:induction false} NoLists(cmds: seq<Cmd>)
    requires forall i :: 0 <= i < |cmds| ==> !cmds[i].Remote?
    ensures Lists(cmds) == []
  {
    if cmds != [] {
      assert forall i :: 0 <= i < |cmds[1..]| ==> cmds[1..][i] == cmds[i + 1];
      NoLists(cmds[1..]);
    }
  }

  /** Joining a newer round, the session restarts first and is handed the new parameters behind that;
      otherwise it is handed them at once, before the early candidates. */
  lemma RestartHands(c: Call, msg: Msg, clock: nat)
    requires Ready(Some(c), c.id) && OfCall(msg, c.id)
    ensures var remote := RestartRemote(c, msg);
            OnSignal(Some(c), msg, clock).cmds
            == if msg.generation > c.restartGen then [Cmd.Restart] + [Cmd.Remote(remote)]
               else [Cmd.Remote(remote)] + Candidates(c.early)
  {
    assert Candidates([]) == [];
    var remote := RestartRemote(c, msg);
    assert [Cmd.Remote(remote)] + Candidates([]) == [Cmd.Remote(remote)];
  }

  lemma RestartLists(c: Call, msg: Msg, clock: nat)
    requires Ready(Some(c), c.id) && OfCall(msg, c.id)
    ensures Lists(OnSignal(Some(c), msg, clock).cmds) == [msg.candidates]
  {
    RestartHands(c, msg, clock);
    OneList(RestartRemote(c, msg));
    NoLists([Cmd.Restart]);
    NoLists(Candidates(c.early));
    ListsJoin([Cmd.Restart], [Cmd.Remote(RestartRemote(c, msg))]);
    ListsJoin([Cmd.Remote(RestartRemote(c, msg))], Candidates(c.early));
  }

  lemma OneList(remote: Remote)
    ensures Lists([Cmd.Remote(remote)]) == [remote.candidates]
  {
    assert [Cmd.Remote(remote)][1..] == [];
  }

  lemma PushLists(c: Option<Call>, id: Id, input: Input, clock: nat)
    requires Ready(c, id) && Outside(id, input)
    ensures Lists(Cmds(Step(c, input, clock))) == []
  {
    NoLists(Cmds(Step(c, input, clock)));
  }

  lemma OtherSignalLists(c: Option<Call>, id: Id, msg: Msg, clock: nat)
    requires Ready(c, id) && Benign(msg) && !OfCall(msg, id)
    ensures Lists(Cmds(OnSignal(c, msg, clock))) == []
  {
    NoLists(Cmds(OnSignal(c, msg, clock)));
  }

  /** A session is handed a list exactly when a restart arrives, and then that restart's. */
  lemma MoveHands(id: Id, w: World, m: Move, clock: nat, side: Side)
    requires Inv(id, w) && Enabled(id, w, m)
    ensures Lists(CommandsTo(id, w, m, clock, side)) == if Arrives(id, m, side) then [m.packet.msg.candidates] else []
  {
    match m {
      case Push(at, input) => PushLists(At(w, at).call, id, input, clock);
      case Gather(at, params, now) => Gathered(At(w, at).call, id, params, now, clock);
      case Deliver(p) =>
        assert PacketOk(id, w, p);
        if OfCall(p.msg, id) {
          RestartLists(At(w, p.to).call.value, p.msg, clock);
        } else {
          OtherSignalLists(At(w, p.to).call, id, p.msg, clock);
        }
    }
  }

  lemma {:induction false} HandsWhatArrives(id: Id, w: World, ms: seq<Timed>, side: Side)
    requires Inv(id, w) && CanRun(id, w, ms)
    ensures HandedTo(id, w, ms, side) == CandidatesIn(DeliveredTo(id, ms, side))
    decreases |ms|
  {
    if ms != [] {
      var m, n := ms[0].move, Next(id, w, ms[0].move, ms[0].clock);
      StepKeeps(id, w, m, ms[0].clock);
      MoveHands(id, w, m, ms[0].clock, side);
      HandsWhatArrives(id, n, ms[1..], side);
      if Arrives(id, m, side) {
        CandidatesFirst(m.packet.msg, DeliveredTo(id, ms[1..], side));
      }
    }
  }

  lemma CandidatesFirst(x: Msg, rest: seq<Msg>)
    requires x.Restart? && AllRestarts(rest)
    ensures AllRestarts([x] + rest)
    ensures CandidatesIn([x] + rest) == [x.candidates] + CandidatesIn(rest)
  {
  }

  lemma WithoutOne(rest: seq<Msg>, x: Msg, before: seq<Msg>, after: seq<Msg>)
    requires multiset([x] + rest) == multiset(before + [x] + after)
    ensures multiset(rest) == multiset(before + after)
  {
    forall msg
      ensures multiset(rest)[msg] == multiset(before + after)[msg]
    {
      CountFirst(x, rest, msg);
      CountMiddle(before, x, after, msg);
    }
  }

  lemma CountMiddle(before: seq<Msg>, x: Msg, after: seq<Msg>, msg: Msg)
    ensures multiset(before + [x] + after)[msg] == multiset(before + after)[msg] + CountIn(x == msg)
  {
  }

  /** The same messages in another order bring the same lists. */
  lemma {:induction false} SameLists(a: seq<Msg>, b: seq<Msg>)
    requires AllRestarts(a)
    requires AllRestarts(b)
    requires multiset(a) == multiset(b)
    ensures multiset(CandidatesIn(a)) == multiset(CandidatesIn(b))
    decreases |a|
  {
    if a == [] {
      assert |b| == |multiset(b)| == |multiset(a)| == 0;
    } else {
      var x, rest := a[0], a[1..];
      assert a == [x] + rest && x in multiset(a);
      var before, after := FindOne(b, x);
      WithoutOne(rest, x, before, after);
      SameLists(rest, before + after);
      ListsAgree(x, rest, before, after);
    }
  }

  lemma FindOne(msgs: seq<Msg>, x: Msg) returns (before: seq<Msg>, after: seq<Msg>)
    requires x in multiset(msgs) && AllRestarts(msgs)
    ensures msgs == before + [x] + after && AllRestarts(before) && AllRestarts(after) && AllRestarts(before + after)
  {
    var i :| 0 <= i < |msgs| && msgs[i] == x;
    before, after := msgs[..i], msgs[i + 1..];
  }

  lemma ListsAgree(x: Msg, rest: seq<Msg>, before: seq<Msg>, after: seq<Msg>)
    requires x.Restart?
    requires AllRestarts(rest) && AllRestarts(before) && AllRestarts(after) && AllRestarts(before + after)
    requires multiset(CandidatesIn(rest)) == multiset(CandidatesIn(before + after))
    ensures AllRestarts(before + [x] + after) && AllRestarts(before + after)
    ensures multiset(CandidatesIn([x] + rest)) == multiset(CandidatesIn(before + [x] + after))
  {
    CandidatesFirst(x, rest);
    CandidatesAround(before, x, after);
  }

  lemma CandidatesAround(before: seq<Msg>, x: Msg, after: seq<Msg>)
    requires x.Restart?
    requires AllRestarts(before)
    requires AllRestarts(after)
    ensures AllRestarts(before + [x] + after) && AllRestarts(before + after)
    ensures multiset(CandidatesIn(before + [x] + after)) == multiset([x.candidates]) + multiset(CandidatesIn(before + after))
  {
    var p, q := CandidatesIn(before), CandidatesIn(after);
    assert CandidatesIn(before + [x] + after) == p + [x.candidates] + q;
    assert CandidatesIn(before + after) == p + q;
  }

  /** Between two settled moments, whatever the order of delivery: each end's session is handed every
      candidate list the other gathered, exactly once. */
  lemma EveryCandidateListHanded(id: Id, w: World, ms: seq<Timed>, side: Side)
    requires Ready(w.here.call, id) && Ready(w.there.call, id)
    requires Gen(w, Here) == Gen(w, There) && Settled(w) && CanRun(id, w, ms) && Settled(Run(id, w, ms))
    ensures multiset(HandedTo(id, w, ms, side)) == multiset(CandidatesIn(GatheredFor(id, w, ms, side)))
  {
    AllArrive(id, w, ms, side);
    HandsWhatArrives(id, w, ms, side);
    SameLists(GatheredFor(id, w, ms, side), DeliveredTo(id, ms, side));
  }
}
