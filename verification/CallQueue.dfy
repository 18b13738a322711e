/**
 `apply` (libcore/src/call/mod.rs): transitions under the state lock queue their effects, and one
 caller at a time runs them outside it.

 `Calls` is the code as one caller executes it. The rest is the same code as a state machine over
 the atomic steps of any number of concurrent callers: a caller takes the state lock and makes its
 transition, then takes the queue lock and appends, then either leaves or drains. A call made from
 inside a running effect is one more caller.
 */
module CallQueue {
  import opened Common
  import opened CallMachine
  import opened CallDevice
  import CallLifetimes

  class Calls {
    const device: Device
    var queue: seq<Effect>
    var claimed: bool
    /** Effects run so far, in order. */
    var ran: seq<Effect>

    constructor ()
      ensures fresh(device) && device.current == None && queue == [] && !claimed && ran == []
    {
      device := new Device();
      queue, claimed, ran := [], false, [];
    }

    method Apply(input: Input, clock: nat) returns (ok: bool)
      modifies this, device
      ensures var o := Step(old(device.current), input, clock);
              && ok == o.Moved?
              && device.current == After(old(device.current), o)
              && (!ok ==> queue == old(queue) && claimed == old(claimed) && ran == old(ran))
              && (ok && old(claimed) ==> queue == old(queue) + Fx(o) && claimed && ran == old(ran))
              && (ok && !old(claimed) ==> queue == [] && !claimed && ran == old(ran) + old(queue) + Fx(o))
    {
      var fx;
      ok, fx := device.Apply(input, clock);
      if !ok {
        return;
      }
      queue := queue + fx;
      if claimed {
        return;
      }
      claimed := true;
      ghost var all := queue;
      while true
        invariant claimed && ran + queue == old(ran) + all
        invariant device.current == After(old(device.current), Step(old(device.current), input, clock))
        decreases |queue|
      {
        if queue == [] {
          assert ran + queue == ran;
          claimed := false;
          break;
        }
        var effect := queue[0];
        queue := queue[1..];
        ran := ran + [effect];
      }
      assert ran == old(ran) + old(queue) + fx by {
        assert old(ran) + all == old(ran) + old(queue) + fx;
      }
    }
  }

  type Caller = nat

  /** Where a caller inside `apply` is; a caller elsewhere has none. */
  datatype Pc =
    | Locked(fx: seq<Effect>) // holds the state lock, its transition made
    | Draining                // claimed the queue, between effects
    | Running(effect: Effect) // outside both locks

  /** `made` and `ran` are history: effects in the order their transitions held the state lock,
      and effects whose execution finished, in order. */
  datatype World = World(call: Option<Call>, holder: Option<Caller>, queue: seq<Effect>,
                         claimed: bool, pcs: map<Caller, Pc>, made: seq<Effect>, ran: seq<Effect>)

  datatype Label =
    | Enter(t: Caller, input: Input, clock: nat)
    | Enqueue(t: Caller)
    | Pop(t: Caller)
    | Finish(t: Caller) // the effect returned or panicked

  const Initial := World(None, None, [], false, map[], [], [])

  predicate Enabled(w: World, l: Label) {
    match l
    case Enter(t, _, _) => t !in w.pcs && w.holder.None?
    case Enqueue(t) => t in w.pcs && w.pcs[t].Locked?
    case Pop(t) => t in w.pcs && w.pcs[t].Draining?
    case Finish(t) => t in w.pcs && w.pcs[t].Running?
  }

  function Next(w: World, l: Label): World
    requires Enabled(w, l)
  {
    match l
    case Enter(t, input, clock) =>
      (match Step(w.call, input, clock)
       case Refused => w
       case Moved(call, fx, _) =>
         w.(call := call, holder := Some(t), pcs := w.pcs[t := Locked(fx)], made := w.made + fx))
    case Enqueue(t) =>
      w.(holder := None, queue := w.queue + w.pcs[t].fx, claimed := true,
         pcs := if w.claimed then w.pcs - {t} else w.pcs[t := Draining])
    case Pop(t) =>
      if w.queue == [] then w.(claimed := false, pcs := w.pcs - {t})
      else w.(queue := w.queue[1..], pcs := w.pcs[t := Running(w.queue[0])])
    case Finish(t) => w.(pcs := w.pcs[t := Draining], ran := w.ran + [w.pcs[t].effect])
  }

  predicate CanRun(w: World, ls: seq<Label>)
    decreases |ls|
  {
    ls == [] || (Enabled(w, ls[0]) && CanRun(Next(w, ls[0]), ls[1..]))
  }

  function Run(w: World, ls: seq<Label>): World
    requires CanRun(w, ls)
    decreases |ls|
  {
    if ls == [] then w else Run(Next(w, ls[0]), ls[1..])
  }

  predicate Drains(w: World, t: Caller) {
    t in w.pcs && !w.pcs[t].Locked?
  }

  ghost predicate OneAtATime(w: World) {
    && (forall t, u :: Drains(w, t) && Drains(w, u) ==> t == u)
    && (w.claimed <==> exists t :: Drains(w, t))
  }

  /** What the holder of the state lock has yet to queue. */
  function Held(w: World): seq<Effect> {
    match w.holder
    case Some(t) => if t in w.pcs && w.pcs[t].Locked? then w.pcs[t].fx else []
    case None => []
  }

  predicate LockHeld(w: World) {
    && (w.holder.Some? ==> w.holder.value in w.pcs && w.pcs[w.holder.value].Locked?)
    && (forall t :: t in w.pcs && w.pcs[t].Locked? ==> w.holder == Some(t))
  }

  /** The effect being run, in sequence form. */
  ghost predicate IsInFlight(w: World, now: seq<Effect>) {
    if now == [] then forall t :: t in w.pcs ==> !w.pcs[t].Running?
    else |now| == 1 && exists t :: t in w.pcs && w.pcs[t] == Running(now[0])
  }

  /** Nothing is lost, repeated or reordered between a transition and the end of its effects. */
  ghost predicate Conserved(w: World) {
    forall now :: IsInFlight(w, now) ==> w.made == w.ran + now + w.queue + Held(w)
  }

  ghost predicate Inv(w: World) {
    && LockHeld(w)
    && OneAtATime(w)
    && Conserved(w)
    && (w.queue != [] ==> w.claimed)
  }

  /** The one in-flight effect of a world, if any. */
  ghost function InFlight(w: World): (now: seq<Effect>)
    ensures IsInFlight(w, now)
  {
    if t :| t in w.pcs && w.pcs[t].Running? then [w.pcs[t].effect] else []
  }

  lemma StepKeeps(w: World, l: Label)
    requires Inv(w) && Enabled(w, l)
    ensures Inv(Next(w, l))
  {
    KeepsOneAtATime(w, l);
    match l {
      case Enter(_, _, _) => EnterConserves(w, l);
      case Enqueue(_) => EnqueueConserves(w, l);
      case Pop(_) => PopConserves(w, l);
      case Finish(_) => FinishConserves(w, l);
    }
  }

  lemma EnterConserves(w: World, l: Label)
    requires Inv(w) && l.Enter? && Enabled(w, l)
    ensures Conserved(Next(w, l)) && LockHeld(Next(w, l))
  {
    match Step(w.call, l.input, l.clock)
    case Refused =>
    case Moved(call, fx, _) => LockingConserves(w, l.t, call, fx);
  }

  lemma LockingConserves(w: World, t: Caller, call: Option<Call>, fx: seq<Effect>)
    requires Inv(w) && t !in w.pcs && w.holder.None?
    ensures var n := w.(call := call, holder := Some(t), pcs := w.pcs[t := Locked(fx)], made := w.made + fx);
            Conserved(n) && LockHeld(n)
  {
    var n := w.(call := call, holder := Some(t), pcs := w.pcs[t := Locked(fx)], made := w.made + fx);
    forall now | IsInFlight(n, now)
      ensures n.made == n.ran + now + n.queue + Held(n)
    {
      assert forall u :: u in w.pcs ==> n.pcs[u] == w.pcs[u];
      assert IsInFlight(w, now);
    }
  }

  lemma EnqueueConserves(w: World, l: Label)
    requires Inv(w) && l.Enqueue? && Enabled(w, l)
    ensures Conserved(Next(w, l)) && LockHeld(Next(w, l))
  {
    var n := Next(w, l);
    forall now | IsInFlight(n, now)
      ensures n.made == n.ran + now + n.queue + Held(n)
    {
      assert IsInFlight(w, now) by {
        assert forall t :: t in w.pcs && w.pcs[t].Running? ==> n.pcs[t] == w.pcs[t];
      }
      assert w.made == w.ran + now + w.queue + Held(w);
      assert w.made == w.ran + now + (w.queue + Held(w));
    }
  }

  lemma PopConserves(w: World, l: Label)
    requires Inv(w) && l.Pop? && Enabled(w, l)
    ensures Conserved(Next(w, l)) && LockHeld(Next(w, l))
  {
    var n := Next(w, l);
    assert Drains(w, l.t);
    assert forall u :: u in w.pcs && w.pcs[u].Running? ==> Drains(w, u);
    assert IsInFlight(w, []);
    forall now | IsInFlight(n, now)
      ensures n.made == n.ran + now + n.queue + Held(n)
    {
      if w.queue != [] {
        assert n.pcs[l.t].Running?;
        var t :| t in n.pcs && n.pcs[t] == Running(now[0]);
        assert t == l.t;
        assert now + n.queue == w.queue;
      }
    }
  }

  lemma FinishConserves(w: World, l: Label)
    requires Inv(w) && l.Finish? && Enabled(w, l)
    ensures Conserved(Next(w, l)) && LockHeld(Next(w, l))
  {
    var n := Next(w, l);
    assert Drains(w, l.t);
    assert IsInFlight(w, [w.pcs[l.t].effect]);
    forall now | IsInFlight(n, now)
      ensures n.made == n.ran + now + n.queue + Held(n)
    {
      assert forall u :: u in n.pcs && n.pcs[u].Running? ==> Drains(w, u) && u != l.t;
    }
  }

  lemma KeepsOneAtATime(w: World, l: Label)
    requires Inv(w) && Enabled(w, l)
    ensures OneAtATime(Next(w, l))
  {
    var n := Next(w, l);
    if !(l.Enter? && n == w) {
      assert forall u :: u != l.t ==> (Drains(n, u) <==> Drains(w, u));
      assert l.Pop? || l.Finish? ==> Drains(w, l.t);
      if l.Enter? || (l.Enqueue? && w.claimed) {
        assert !Drains(n, l.t);
      } else if l.Enqueue? || l.Finish? || w.queue != [] {
        assert Drains(n, l.t);
      }
    }
  }

  lemma {:induction false} RunKeeps(w: World, ls: seq<Label>)
    requires Inv(w) && CanRun(w, ls)
    ensures Inv(Run(w, ls))
    decreases |ls|
  {
    if ls != [] {
      StepKeeps(w, ls[0]);
      RunKeeps(Next(w, ls[0]), ls[1..]);
    }
  }

  lemma InitialInv()
    ensures Inv(Initial)
  {
    forall now | IsInFlight(Initial, now)
      ensures Initial.made == Initial.ran + now + Initial.queue + Held(Initial)
    {
      assert now == [];
    }
  }

  /** The inputs of a run in the order their callers held the state lock. */
  function Inputs(ls: seq<Label>): seq<CallLifetimes.Timed> {
    if ls == [] then []
    else (if ls[0].Enter? then [CallLifetimes.Timed(ls[0].input, ls[0].clock)] else []) + Inputs(ls[1..])
  }

  lemma EnterMakes(w: World, l: Label)
    requires Enabled(w, l)
    ensures l.Enter? ==>
              var o := Step(w.call, l.input, l.clock);
              Next(w, l).call == After(w.call, o) && Next(w, l).made == w.made + Fx(o)
    ensures !l.Enter? ==> Next(w, l).call == w.call && Next(w, l).made == w.made
  {
  }

  lemma {:induction false} TraceFirst(call: Option<Call>, first: CallLifetimes.Timed, rest: seq<CallLifetimes.Timed>)
    ensures var o := Step(call, first.input, first.clock);
            && CallLifetimes.Trace(call, [first] + rest) == Fx(o) + CallLifetimes.Trace(After(call, o), rest)
            && CallLifetimes.States(call, [first] + rest) == CallLifetimes.States(After(call, o), rest)
  {
    assert ([first] + rest)[0] == first && ([first] + rest)[1..] == rest;
  }

  /** The effects made and the state reached are those of one device that takes the inputs one by one. */
  lemma {:induction false} MadeByTransitions(w: World, ls: seq<Label>)
    requires CanRun(w, ls)
    ensures Run(w, ls).made == w.made + CallLifetimes.Trace(w.call, Inputs(ls))
    ensures Run(w, ls).call == CallLifetimes.States(w.call, Inputs(ls))
    decreases |ls|
  {
    if ls != [] {
      var n, rest := Next(w, ls[0]), Inputs(ls[1..]);
      MadeByTransitions(n, ls[1..]);
      EnterMakes(w, ls[0]);
      if ls[0].Enter? {
        TraceFirst(w.call, CallLifetimes.Timed(ls[0].input, ls[0].clock), rest);
      } else {
        assert Inputs(ls) == rest;
      }
    }
  }

  /** `made` in order: a prefix has run, the next one is running, one caller at most drains, and what is
      queued is being drained. */
  ghost predicate InOrder(w: World, made: seq<Effect>) {
    && w.ran <= made
    && (forall t, u :: Drains(w, t) && Drains(w, u) ==> t == u)
    && (forall t :: t in w.pcs && w.pcs[t].Running? ==>
          |w.ran| < |made| && made[|w.ran|] == w.pcs[t].effect)
    && (w.queue != [] ==> exists t :: Drains(w, t))
  }

  lemma RanInOrder(w: World)
    requires Inv(w)
    ensures InOrder(w, w.made)
  {
    var now := InFlight(w);
    assert w.made == w.ran + (now + w.queue + Held(w));
    forall t | t in w.pcs && w.pcs[t].Running?
      ensures |w.ran| < |w.made| && w.made[|w.ran|] == w.pcs[t].effect
    {
      assert IsInFlight(w, [w.pcs[t].effect]);
    }
  }

  /** Under any interleaving: the effects run so far are the first of those of one device taking the
      inputs in the order their callers held the state lock, and the next of these is the one being
      run; at most one caller drains; and a non-empty queue always has a caller draining it. */
  lemma EffectsInOrder(ls: seq<Label>)
    requires CanRun(Initial, ls)
    ensures Run(Initial, ls).call == CallLifetimes.States(None, Inputs(ls))
    ensures InOrder(Run(Initial, ls), CallLifetimes.Trace(None, Inputs(ls)))
  {
    InitialInv();
    RunKeeps(Initial, ls);
    RanInOrder(Run(Initial, ls));
    MadeByTransitions(Initial, ls);
    assert Run(Initial, ls).made == CallLifetimes.Trace(None, Inputs(ls));
  }

  /** Once every caller has returned, every effect ever asked for has run, exactly once, in order. */
  lemma EveryEffectRuns(ls: seq<Label>)
    requires CanRun(Initial, ls) && Run(Initial, ls).pcs == map[]
    ensures var w := Run(Initial, ls);
            w.ran == CallLifetimes.Trace(None, Inputs(ls)) && w.queue == [] && !w.claimed && w.holder.None?
  {
    InitialInv();
    MadeByTransitions(Initial, ls);
    assert Run(Initial, ls).made == CallLifetimes.Trace(None, Inputs(ls));
    RunKeeps(Initial, ls);
    var w := Run(Initial, ls);
    assert !exists t :: Drains(w, t);
    assert IsInFlight(w, []);
  }

  /** What the callers already inside have left to do. */
  ghost function Left(w: World): nat {
    2 * |w.queue| + 2 * |Held(w)| + (if w.holder.Some? then 2 else 0)
    + (if exists t :: t in w.pcs && w.pcs[t].Running? then 2 else if w.claimed then 1 else 0)
  }

  /** Nobody waits for ever: while a caller is inside, some step of a caller already inside is
      enabled, and each such step leaves strictly less to do. */
  lemma CallersLeave(w: World)
    requires Inv(w)
    ensures w.pcs != map[] ==> exists l: Label :: !l.Enter? && Enabled(w, l)
    ensures forall l: Label :: !l.Enter? && Enabled(w, l) ==> Left(Next(w, l)) < Left(w)
  {
    if w.pcs != map[] {
      var t :| t in w.pcs;
      var l := match w.pcs[t] case Locked(_) => Enqueue(t) case Draining => Pop(t) case Running(_) => Label.Finish(t);
      assert Enabled(w, l);
    }
    forall l: Label | !l.Enter? && Enabled(w, l)
      ensures Left(Next(w, l)) < Left(w)
    {
      StepKeeps(w, l);
      StepSpends(w, l);
    }
  }

  lemma StepSpends(w: World, l: Label)
    requires Inv(w) && !l.Enter? && Enabled(w, l) && Inv(Next(w, l))
    ensures Left(Next(w, l)) < Left(w)
  {
    var n := Next(w, l);
    match l {
      case Enqueue(t) =>
        assert w.holder == Some(t);
        assert forall u :: u in n.pcs && n.pcs[u].Running? ==> u in w.pcs && w.pcs[u].Running?;
        if !w.claimed {
          assert forall u :: u in w.pcs ==> !Drains(w, u);
        }
      case Pop(t) =>
        assert Drains(w, t);
        assert forall u :: u in w.pcs && w.pcs[u].Running? ==> Drains(w, u);
        assert Held(n) == Held(w);
        assert w.queue == [] ==> forall u :: u in n.pcs && n.pcs[u].Running? ==> u in w.pcs;
      case Finish(t) =>
        assert Drains(w, t);
        assert forall u :: u in n.pcs && n.pcs[u].Running? ==> Drains(w, u) && u != t;
        assert Held(n) == Held(w);
    }
  }

  /** A call made from inside a running effect queues its effects and returns without running any:
      the drain it interrupts runs them, so effects never nest. */
  lemma ReentrantCallNeverDrains(ls: seq<Label>, t: Caller, runner: Caller)
    requires CanRun(Initial, ls)
    requires var w := Run(Initial, ls);
             Enabled(w, Enqueue(t)) && runner in w.pcs && w.pcs[runner].Running?
    ensures var w := Run(Initial, ls);
            var n := Next(w, Enqueue(t));
            t !in n.pcs && n.ran == w.ran && n.queue == w.queue + w.pcs[t].fx && n.pcs[runner] == w.pcs[runner]
  {
    InitialInv();
    RunKeeps(Initial, ls);
    assert Drains(Run(Initial, ls), runner);
  }
}
