/**
 What the media session of a call is handed while the call is set up (libcore/src/call/mod.rs): the
 peer's parameters and trickled candidates, whichever of the session, the answer and the candidates
 comes first.
 */
module CallSetup {
  import opened Common
  import opened CallMachine

  datatype Move =
    | Act(input: Input, clock: nat)
    | Attach(id: Id) // the session starts

  function Do(state: Option<Call>, m: Move): Option<Call> {
    match m
    case Act(input, clock) => After(state, Step(state, input, clock))
    case Attach(id) => Spawn(state, id).0
  }

  function Sent(state: Option<Call>, m: Move): seq<Cmd> {
    match m
    case Act(input, clock) => Cmds(Step(state, input, clock))
    case Attach(id) => Spawn(state, id).1
  }

  /** The call is still there and not up yet. */
  predicate SettingUp(state: Option<Call>, id: Id) {
    state.Some? && state.value.id == id && !UpOrRestarting(state.value.phase)
  }

  /** The run leaves the call being set up. */
  predicate Stays(c: Call, ms: seq<Move>)
    decreases |ms|
  {
    && !UpOrRestarting(c.phase)
    && (ms == [] || (SettingUp(Do(Some(c), ms[0]), c.id) && Stays(Do(Some(c), ms[0]).value, ms[1..])))
  }

  function Run(c: Call, ms: seq<Move>): Call
    requires Stays(c, ms)
    decreases |ms|
  {
    if ms == [] then c else Run(Do(Some(c), ms[0]).value, ms[1..])
  }

  /** Candidates among the commands. */
  function Trickled(cmds: seq<Cmd>): multiset<Candidate> {
    if cmds == [] then multiset{}
    else (if cmds[0].Candidate? then multiset{cmds[0].candidate} else multiset{}) + Trickled(cmds[1..])
  }

  /** The peer's parameters among the commands, in order. */
  function Told(cmds: seq<Cmd>): seq<Remote> {
    if cmds == [] then [] else (if cmds[0].Remote? then [cmds[0].remote] else []) + Told(cmds[1..])
  }

  /** The answer a move brings to the call that waits for one. */
  function Answer(c: Call, m: Move): seq<Remote> {
    if m.Act? && m.input.Signalled? && m.input.msg.Answer? && m.input.msg.call == c.id && c.phase.Offering?
    then [m.input.msg.remote] else []
  }

  /** Candidates that reach the call apart from parameters handed on as they are: trickled ones, and
      those of an answer that comes before the session. */
  function Arrived(c: Call, m: Move): seq<Candidate> {
    if IsCandidate(c, m) then [m.input.msg.candidate]
    else if Answer(c, m) != [] && !c.session then Answer(c, m)[0].candidates
    else []
  }

  function AllTrickled(c: Call, ms: seq<Move>): multiset<Candidate>
    requires Stays(c, ms)
    decreases |ms|
  {
    if ms == [] then multiset{} else Trickled(Sent(Some(c), ms[0])) + AllTrickled(Do(Some(c), ms[0]).value, ms[1..])
  }

  function AllArrived(c: Call, ms: seq<Move>): seq<Candidate>
    requires Stays(c, ms)
    decreases |ms|
  {
    if ms == [] then [] else Arrived(c, ms[0]) + AllArrived(Do(Some(c), ms[0]).value, ms[1..])
  }

  function AllTold(c: Call, ms: seq<Move>): seq<Remote>
    requires Stays(c, ms)
    decreases |ms|
  {
    if ms == [] then [] else Told(Sent(Some(c), ms[0])) + AllTold(Do(Some(c), ms[0]).value, ms[1..])
  }

  function AllAnswers(c: Call, ms: seq<Move>): seq<Remote>
    requires Stays(c, ms)
    decreases |ms|
  {
    if ms == [] then [] else Answer(c, ms[0]) + AllAnswers(Do(Some(c), ms[0]).value, ms[1..])
  }

  /** How often the run starts a session for the call. */
  function Attached(id: Id, ms: seq<Move>): nat {
    if ms == [] then 0 else (if ms[0] == Attach(id) then 1 else 0) + Attached(id, ms[1..])
  }

  // ---- One move -----------------------------------------------------------------------------------

  lemma {:induction false} CandidatesTrickle(cs: seq<Candidate>)
    ensures Trickled(Candidates(cs)) == multiset(cs) && Told(Candidates(cs)) == []
    decreases |cs|
  {
    if cs == [] {
      assert multiset(cs) == multiset{};
    } else {
      CandidatesTrickle(cs[1..]);
      assert Candidates(cs)[1..] == Candidates(cs[1..]);
      assert cs == [cs[0]] + cs[1..];
    }
  }

  lemma HandedList(remote: Remote, cs: seq<Candidate>)
    ensures var cmds := [Cmd.Remote(remote)] + Candidates(cs);
            Trickled(cmds) == multiset(cs) && Told(cmds) == [remote]
  {
    CandidatesTrickle(cs);
    var cmds := [Cmd.Remote(remote)] + Candidates(cs);
    assert cmds[0] == Cmd.Remote(remote) && cmds[1..] == Candidates(cs);
  }

  lemma OneCommand(cmd: Cmd)
    ensures Trickled([cmd]) == (if cmd.Candidate? then multiset{cmd.candidate} else multiset{})
    ensures Told([cmd]) == if cmd.Remote? then [cmd.remote] else []
  {
    assert [cmd][1..] == [];
  }

  /** What a move does to a call being set up. */
  predicate Moves(c: Call, n: Call, m: Move, sent: seq<Cmd>) {
    && Trickled(sent) + multiset(n.early) == multiset(c.early) + multiset(Arrived(c, m))
    && (!n.session ==> n.early == c.early + Arrived(c, m) && sent == [])
    && n.session == (c.session || m == Attach(c.id))
    && n.remote == (if Answer(c, m) != [] then Some(Answer(c, m)[0]) else c.remote)
    && (n.phase.Offering? ==> c.phase.Offering? && Answer(c, m) == [])
    && Told(sent) == (if n.session && n.remote.Some? && (m == Attach(c.id) || Answer(c, m) != [])
                      then [n.remote.value] else [])
    && (n.session && n.remote.Some? && (c.session && c.remote.Some? ==> c.early == []) ==> n.early == [])
  }

  lemma AttachMoves(c: Call, id: Id)
    ensures Moves(c, Do(Some(c), Attach(id)).value, Attach(id), Sent(Some(c), Attach(id)))
  {
    if id == c.id && c.remote.Some? {
      HandedList(c.remote.value, c.early);
    }
  }

  lemma AnswerMoves(c: Call, remote: Remote, clock: nat)
    requires c.phase.Offering?
    ensures var m := Act(Signalled(Msg.Answer(c.id, remote)), clock);
            Moves(c, Do(Some(c), m).value, m, Sent(Some(c), m))
  {
    HandedList(remote, c.early);
  }

  lemma CandidateMoves(c: Call, candidate: Candidate, clock: nat)
    ensures var m := Act(Signalled(Msg.Candidate(c.id, candidate)), clock);
            Moves(c, Do(Some(c), m).value, m, Sent(Some(c), m))
  {
    OneCommand(Cmd.Candidate(candidate));
  }

  predicate IsCandidate(c: Call, m: Move) {
    m.Act? && m.input.Signalled? && m.input.msg.Candidate? && m.input.msg.call == c.id
  }

  /** The session and all that is meant for it are left alone, if the call is still being set up. */
  predicate Untouched(c: Call, o: Outcome) {
    var n := After(Some(c), o);
    SettingUp(n, c.id) ==>
      && n.value.early == c.early && n.value.session == c.session && n.value.remote == c.remote
      && (n.value.phase.Offering? ==> c.phase.Offering?) && Cmds(o) == []
  }

  lemma SignalsKeep(c: Call, msg: Msg, clock: nat)
    requires !UpOrRestarting(c.phase) && !(msg.call == c.id && (msg.Candidate? || (msg.Answer? && c.phase.Offering?)))
    ensures Untouched(c, OnSignal(Some(c), msg, clock))
  {
  }

  lemma SessionsKeep(c: Call, id: Id, event: SessionEvent, now: nat, clock: nat)
    requires !UpOrRestarting(c.phase)
    ensures Untouched(c, OnSession(Some(c), id, event, now, clock))
  {
  }

  lemma OthersKeep(c: Call, m: Move)
    requires m.Act? && !UpOrRestarting(c.phase) && Answer(c, m) == [] && !IsCandidate(c, m)
    ensures Untouched(c, Step(Some(c), m.input, m.clock))
  {
    match m.input {
      case Signalled(msg) => SignalsKeep(c, msg, m.clock);
      case Session(id, event, now) => SessionsKeep(c, id, event, now, m.clock);
      case _ =>
    }
  }

  lemma KeepMoves(c: Call, m: Move, n: Call, sent: seq<Cmd>)
    requires m.Act? && Answer(c, m) == [] && !IsCandidate(c, m) && sent == []
    requires n.early == c.early && n.session == c.session && n.remote == c.remote
    requires n.phase.Offering? ==> c.phase.Offering?
    ensures Moves(c, n, m, sent)
  {
  }

  lemma MoveMoves(c: Call, m: Move)
    requires !UpOrRestarting(c.phase) && SettingUp(Do(Some(c), m), c.id)
    ensures Moves(c, Do(Some(c), m).value, m, Sent(Some(c), m))
  {
    if m.Attach? {
      AttachMoves(c, m.id);
    } else if Answer(c, m) != [] {
      AnswerMoves(c, m.input.msg.remote, m.clock);
    } else if IsCandidate(c, m) {
      CandidateMoves(c, m.input.msg.candidate, m.clock);
    } else {
      OthersKeep(c, m);
      KeepMoves(c, m, Do(Some(c), m).value, Sent(Some(c), m));
    }
  }

  // ---- Whole runs ---------------------------------------------------------------------------------

  /** Nothing is kept back from a session that has the peer's parameters, and a call that waits for its
      answer has none. */
  predicate Ready(c: Call) {
    && (c.session && c.remote.Some? ==> c.early == [])
    && (c.phase.Offering? ==> c.remote.None?)
  }

  lemma Chain(kept: multiset<Candidate>, arrived: multiset<Candidate>, sent: multiset<Candidate>, mid: multiset<Candidate>,
              arrived': multiset<Candidate>, sent': multiset<Candidate>, left: multiset<Candidate>)
    requires sent + mid == kept + arrived && sent' + left == mid + arrived'
    ensures (sent + sent') + left == kept + (arrived + arrived')
  {
    assert (sent + sent') + left == sent + (sent' + left) == (sent + mid) + arrived';
  }

  /** Candidates are conserved: what was kept and what arrived is what was handed on and what is kept. */
  lemma {:induction false} CandidatesConserved(c: Call, ms: seq<Move>)
    requires Ready(c) && Stays(c, ms)
    ensures Ready(Run(c, ms))
    ensures AllTrickled(c, ms) + multiset(Run(c, ms).early) == multiset(c.early) + multiset(AllArrived(c, ms))
    decreases |ms|
  {
    if ms != [] {
      MoveMoves(c, ms[0]);
      var n := Do(Some(c), ms[0]).value;
      CandidatesConserved(n, ms[1..]);
      Chain(multiset(c.early), multiset(Arrived(c, ms[0])), Trickled(Sent(Some(c), ms[0])), multiset(n.early),
        multiset(AllArrived(n, ms[1..])), AllTrickled(n, ms[1..]), multiset(Run(c, ms).early));
      assert AllArrived(c, ms) == Arrived(c, ms[0]) + AllArrived(n, ms[1..]);
    }
  }

  /** From `c` to `n`: one answer at most is taken, it stays, and a session started once is told it once. */
  predicate Tells(c: Call, n: Call, attached: nat, answers: seq<Remote>, told: seq<Remote>) {
    && |answers| <= 1 && (!c.phase.Offering? ==> answers == [])
    && n.remote == (if answers == [] then c.remote else Some(answers[0]))
    && n.session == (c.session || attached > 0)
    && told == (if n.session && n.remote.Some? && !(c.session && c.remote.Some?) then [n.remote.value] else [])
  }

  lemma TellsFirst(c: Call, n: Call, m: Move, sent: seq<Cmd>, final: Call, attached: nat, answers: seq<Remote>, told: seq<Remote>)
    requires Ready(c) && Moves(c, n, m, sent) && Tells(n, final, attached, answers, told)
    requires (if m == Attach(c.id) then 1 else 0) + attached <= if c.session then 0 else 1
    ensures Tells(c, final, (if m == Attach(c.id) then 1 else 0) + attached, Answer(c, m) + answers, Told(sent) + told)
  {
    if Answer(c, m) != [] {
      assert answers == [] && Answer(c, m) + answers == Answer(c, m);
    }
  }

  lemma {:induction false} ToldOnce(c: Call, ms: seq<Move>)
    requires Ready(c) && Stays(c, ms) && Attached(c.id, ms) <= if c.session then 0 else 1
    ensures Tells(c, Run(c, ms), Attached(c.id, ms), AllAnswers(c, ms), AllTold(c, ms))
    decreases |ms|
  {
    if ms != [] {
      MoveMoves(c, ms[0]);
      var n := Do(Some(c), ms[0]).value;
      ToldOnce(n, ms[1..]);
      TellsFirst(c, n, ms[0], Sent(Some(c), ms[0]), Run(c, ms), Attached(c.id, ms[1..]), AllAnswers(n, ms[1..]), AllTold(n, ms[1..]));
    }
  }

  /** A call as it is placed, or as an offer brings it. */
  predicate JustMade(c: Call) {
    !c.session && c.early == [] && (if c.outgoing then c.phase.Offering? && c.remote.None?
                                    else (c.phase.Ringing? || c.phase.Connecting?) && c.remote.Some?)
  }

  /** All that there is for the session: once it is there and the peer's parameters are `known`, it has
      been told them once and handed every candidate that arrived, each as often as it did; until then
      all of them are kept. */
  predicate Everything(attached: nat, known: seq<Remote>, told: seq<Remote>, trickled: multiset<Candidate>,
                       arrived: multiset<Candidate>, kept: multiset<Candidate>) {
    && |known| <= 1
    && if attached == 1 && known != [] then told == known && trickled == arrived
       else told == [] && trickled + kept == arrived
  }

  lemma GetsEverything(c: Call, n: Call, attached: nat, answers: seq<Remote>, told: seq<Remote>,
                       trickled: multiset<Candidate>, arrived: multiset<Candidate>)
    requires JustMade(c) && Ready(n) && attached <= 1 && Tells(c, n, attached, answers, told)
    requires trickled + multiset(n.early) == multiset(c.early) + arrived
    ensures Everything(attached, if c.outgoing then answers else [c.remote.value], told, trickled, arrived, multiset(n.early))
  {
    assert multiset(c.early) == multiset{} && multiset{} + arrived == arrived;
    if n.session && n.remote.Some? {
      assert multiset(n.early) == multiset{} && trickled + multiset{} == trickled;
      assert trickled == arrived;
    }
  }

  /** While a call is set up, in every order of its session's start, its answer and its candidates: a
      session started once gets everything, the peer's parameters being the answer's for the caller and
      the offer's for the callee. */
  lemma SessionGetsEverything(c: Call, ms: seq<Move>)
    requires JustMade(c) && Stays(c, ms) && Attached(c.id, ms) <= 1
    ensures Everything(Attached(c.id, ms), if c.outgoing then AllAnswers(c, ms) else [c.remote.value], AllTold(c, ms),
                       AllTrickled(c, ms), multiset(AllArrived(c, ms)), multiset(Run(c, ms).early))
  {
    CandidatesConserved(c, ms);
    ToldOnce(c, ms);
    GetsEverything(c, Run(c, ms), Attached(c.id, ms), AllAnswers(c, ms), AllTold(c, ms), AllTrickled(c, ms), multiset(AllArrived(c, ms)));
  }

  /** Until the session is there, candidates are kept in the order they came. */
  lemma {:induction false} KeptInOrder(c: Call, ms: seq<Move>)
    requires Stays(c, ms) && !c.session && Attached(c.id, ms) == 0
    ensures !Run(c, ms).session && Run(c, ms).early == c.early + AllArrived(c, ms)
    decreases |ms|
  {
    if ms != [] {
      MoveMoves(c, ms[0]);
      var n := Do(Some(c), ms[0]).value;
      KeptInOrder(n, ms[1..]);
      assert c.early + (Arrived(c, ms[0]) + AllArrived(n, ms[1..])) == (c.early + Arrived(c, ms[0])) + AllArrived(n, ms[1..]);
    }
  }

  /** A session that starts when the peer's parameters are known is handed these first, and then all that
      arrived before it, in order. */
  lemma HandedInOrder(c: Call, ms: seq<Move>)
    requires JustMade(c) && Stays(c, ms) && Attached(c.id, ms) == 0 && Run(c, ms).remote.Some?
    ensures var n := Run(c, ms);
            Sent(Some(n), Attach(n.id)) == [Cmd.Remote(n.remote.value)] + Candidates(AllArrived(c, ms))
  {
    KeptInOrder(c, ms);
    assert Run(c, ms).early == AllArrived(c, ms);
  }

  /** What is said of a new call before its timer is set: a placed one is announced and its session
      started, a ringing one is announced to both sides, and one taken instead of the device's own is
      announced as such and its session started as the callee's. */
  function Opening(state: Option<Call>, n: Call): seq<Effect> {
    if n.outgoing then
      [Emit(CallEvent.Outgoing(n.id, n.peer, n.conversation)), StartSession(n.id, Role.Caller, n.video)]
    else if state.None? then
      [Signal(n.conversation, Msg.Ringing(n.id)), Emit(CallEvent.Incoming(n.id, n.peer, n.conversation, n.video))]
    else
      [Emit(CallEvent.Switched(state.value.id, n.id, n.video)), Emit(CallEvent.Connecting(n.id)),
       StartSession(n.id, Role.Callee, n.video)]
  }

  /** The call is the one the input describes, and a muted microphone stays muted. */
  predicate Describes(state: Option<Call>, input: Input, n: Call) {
    && n.muted == (state.Some? && state.value.muted) && !n.peerMuted && n.connectedAt.None? && n.restartGen == 0
    && match input
       case Start(id, peer, conversation, video) =>
         n.outgoing && n.id == id && n.peer == peer && n.conversation == conversation && n.video == video
       case Offered(offer) =>
         && !n.outgoing && n.id == offer.call && n.peer == offer.from && n.conversation == offer.conversation
         && n.video == offer.video && n.remote == Some(offer.remote)
       case _ => false
  }

  /** A transition that brings a call to life makes it as its input describes it. */
  predicate Makes(state: Option<Call>, input: Input, o: Outcome) {
    var n := After(state, o);
    n.Some? && (state.None? || state.value.id != n.value.id) ==>
      && JustMade(n.value) && Describes(state, input, n.value)
      && |Fx(o)| > 0 && Fx(o)[|Fx(o)| - 1].Arm? && Fx(o)[..|Fx(o)| - 1] == Opening(state, n.value)
      && Cmds(o) == (if state.Some? && state.value.session then [Cmd.Stop] else [])
  }

  lemma StartMakes(state: Option<Call>, id: Id, peer: Key, conversation: Id, video: bool, clock: nat)
    ensures Makes(state, Start(id, peer, conversation, video), Step(state, Start(id, peer, conversation, video), clock))
  {
    var o := Step(state, Start(id, peer, conversation, video), clock);
    if o.Moved? {
      assert o.fx[..2] == [o.fx[0], o.fx[1]];
    }
  }

  lemma OfferMakes(state: Option<Call>, offer: OfferIn)
    ensures Makes(state, Offered(offer), OnOffer(state, offer))
  {
    var fx := OnOffer(state, offer).fx;
    if |fx| == 3 {
      assert fx[..2] == [fx[0], fx[1]];
    } else if |fx| == 4 {
      assert fx[..3] == [fx[0], fx[1], fx[2]];
    }
  }

  predicate MakesNone(state: Option<Call>, o: Outcome) {
    After(state, o).Some? ==> state.Some? && state.value.id == After(state, o).value.id
  }

  lemma SignalsMakeNone(state: Option<Call>, msg: Msg, clock: nat)
    ensures MakesNone(state, OnSignal(state, msg, clock))
  {
  }

  lemma SessionsMakeNone(state: Option<Call>, id: Id, event: SessionEvent, now: nat, clock: nat)
    ensures MakesNone(state, OnSession(state, id, event, now, clock))
  {
  }

  lemma OthersMakeNone(state: Option<Call>, input: Input, clock: nat)
    requires !input.Start? && !input.Offered?
    ensures MakesNone(state, Step(state, input, clock))
  {
    match input {
      case Signalled(msg) => SignalsMakeNone(state, msg, clock);
      case Session(id, event, now) => SessionsMakeNone(state, id, event, now, clock);
      case _ =>
    }
  }

  /** However a call comes to be, placed, ringing or taken instead of the device's own, it is just made, as
      described, and announced, and the session of the one it replaces stops; only a start or an offer
      makes one. */
  lemma MadeSo(state: Option<Call>, input: Input, clock: nat)
    ensures Makes(state, input, Step(state, input, clock))
  {
    match input {
      case Start(id, peer, conversation, video) => StartMakes(state, id, peer, conversation, video, clock);
      case Offered(offer) => OfferMakes(state, offer);
      case _ => OthersMakeNone(state, input, clock);
    }
  }
}
