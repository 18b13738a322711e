/**
 The registry of attachment bridges and the byte budget of a bridge loop (relay/src/tcpassist.rs).
 A bridge joins two identities under a token; each side is held by the lease of its latest
 registration.
 */
module Bridges {
  import opened Common

  type Token = nat

  /** 32-byte identity keys, ordered bytewise, which is the order of the number they spell. */
  type Key = nat

  type Channel = nat

  const MAX_BRIDGES: nat := 512
  const MAX_BRIDGES_PER_IDENTITY: nat := 8

  datatype Registration = Registration(token: Token, slot: nat, generation: nat)

  datatype Participant = Participant(generation: nat, channel: Channel)

  /** `first < second`; slot 0 is `first`'s. */
  datatype Bridge = Bridge(first: Key, second: Key, at0: Option<Participant>, at1: Option<Participant>)

  datatype Registry = Registry(bridges: map<Token, Bridge>, generation: nat)

  const Empty := Registry(map[], 0)

  function At(b: Bridge, slot: nat): Option<Participant> {
    if slot == 0 then b.at0 else b.at1
  }

  function Set(b: Bridge, slot: nat, p: Option<Participant>): Bridge {
    if slot == 0 then b.(at0 := p) else b.(at1 := p)
  }

  predicate Occupies(b: Bridge, key: Key) {
    (b.first == key && b.at0.Some?) || (b.second == key && b.at1.Some?)
  }

  /** Bridges in which `key` itself is a live participant. */
  function Owned(r: Registry, key: Key): set<Token> {
    set t | t in r.bridges && Occupies(r.bridges[t], key)
  }

  datatype Registered = Refused | Registered(registry: Registry, lease: Registration, displaced: Option<Channel>)

  function Blank(key: Key, peer: Key): Bridge {
    if key < peer then Bridge(key, peer, None, None) else Bridge(peer, key, None, None)
  }

  function Register(r: Registry, token: Token, key: Key, peer: Key, channel: Channel): Registered {
    if key == peer then Refused
    else
      var blank := Blank(key, peer);
      var slot := if key > peer then 1 else 0;
      var known := token in r.bridges;
      if known && (r.bridges[token].first != blank.first || r.bridges[token].second != blank.second) then Refused
      else if !known && |r.bridges| >= MAX_BRIDGES then Refused
      else
        var bridge := if known then r.bridges[token] else blank;
        var previous := At(bridge, slot);
        if previous.None? && |Owned(r, key)| >= MAX_BRIDGES_PER_IDENTITY then Refused
        else if r.generation == U64_MAX then Refused
        else
          var generation := r.generation + 1;
          var held := Set(bridge, slot, Some(Participant(generation, channel)));
          Registered(Registry(r.bridges[token := held], generation),
                     Registration(token, slot, generation),
                     match previous case Some(p) => Some(p.channel) case None => None)
  }

  predicate Current(r: Registry, lease: Registration) {
    && lease.token in r.bridges
    && At(r.bridges[lease.token], lease.slot).Some?
    && At(r.bridges[lease.token], lease.slot).value.generation == lease.generation
  }

  function Destination(r: Registry, lease: Registration): Option<Channel> {
    if !Current(r, lease) then None
    else match At(r.bridges[lease.token], 1 - Min(lease.slot, 1))
      case Some(p) => Some(p.channel)
      case None => None
  }

  function Remove(r: Registry, lease: Registration): Registry {
    if !Current(r, lease) then r
    else
      var left := Set(r.bridges[lease.token], lease.slot, None);
      r.(bridges := if left.at0.None? && left.at1.None? then r.bridges - {lease.token}
                    else r.bridges[lease.token := left])
  }

  /** The registry as the relay keeps it behind its lock. */
  class Routes {
    var bridges: map<Token, Bridge>
    var generation: nat

    constructor ()
      ensures Now() == Empty
    {
      bridges, generation := map[], 0;
    }

    function Now(): Registry
      reads this
    {
      Registry(bridges, generation)
    }

    method Join(token: Token, key: Key, peer: Key, channel: Channel)
      returns (ok: bool, lease: Registration, displaced: Option<Channel>)
      modifies this
      ensures var r := Register(old(Now()), token, key, peer, channel);
              && ok == r.Registered?
              && (ok ==> Now() == r.registry && lease == r.lease && displaced == r.displaced)
              && (!ok ==> Now() == old(Now()))
    {
      ok, lease, displaced := false, Registration(token, 0, 0), None;
      if key == peer {
        return;
      }
      var blank := Blank(key, peer);
      var slot := if key > peer then 1 else 0;
      if token in bridges {
        if bridges[token].first != blank.first || bridges[token].second != blank.second {
          return;
        }
      } else {
        if |bridges| >= MAX_BRIDGES {
          return;
        }
      }
      var replacing := token in bridges && At(bridges[token], slot).Some?;
      if !replacing {
        if |Owned(Now(), key)| >= MAX_BRIDGES_PER_IDENTITY {
          return;
        }
      }
      if generation == U64_MAX {
        return;
      }
      generation := generation + 1;
      if token !in bridges {
        bridges := bridges[token := blank];
      }
      var previous := At(bridges[token], slot);
      bridges := bridges[token := Set(bridges[token], slot, Some(Participant(generation, channel)))];
      ok, lease := true, Registration(token, slot, generation);
      displaced := match previous case Some(p) => Some(p.channel) case None => None;
    }

    method Leave(lease: Registration)
      modifies this
      ensures Now() == Remove(old(Now()), lease)
    {
      if !Current(Now(), lease) {
        return;
      }
      var bridge := Set(bridges[lease.token], lease.slot, None);
      bridges := bridges[lease.token := bridge];
      if bridge.at0.None? && bridge.at1.None? {
        bridges := bridges - {lease.token};
        assert bridges == old(bridges) - {lease.token};
      }
    }
  }

  // ---- Every run ------------------------------------------------------------------------------------

  predicate Live(r: Registry, t: Token, slot: nat) {
    t in r.bridges && slot < 2 && At(r.bridges[t], slot).Some?
  }

  function GenAt(r: Registry, t: Token, slot: nat): nat
    requires Live(r, t, slot)
  {
    At(r.bridges[t], slot).value.generation
  }

  ghost predicate Inv(r: Registry) {
    && |r.bridges| <= MAX_BRIDGES
    && (forall t :: t in r.bridges ==>
          r.bridges[t].first < r.bridges[t].second && (r.bridges[t].at0.Some? || r.bridges[t].at1.Some?))
    && (forall key :: |Owned(r, key)| <= MAX_BRIDGES_PER_IDENTITY)
    && Distinct(r)
  }

  /** Live generations were handed out, each to one participant. */
  ghost predicate Distinct(r: Registry) {
    && (forall t, slot :: Live(r, t, slot) ==> GenAt(r, t, slot) <= r.generation)
    && (forall t, slot, t', slot' :: Live(r, t, slot) && Live(r, t', slot') && (t != t' || slot != slot') ==>
          GenAt(r, t, slot) != GenAt(r, t', slot'))
  }

  datatype Op = JoinOp(token: Token, key: Key, peer: Key, channel: Channel) | LeaveOp(lease: Registration)

  function Apply(r: Registry, op: Op): Registry {
    match op
    case JoinOp(token, key, peer, channel) =>
      (match Register(r, token, key, peer, channel)
       case Refused => r
       case Registered(next, _, _) => next)
    case LeaveOp(lease) => Remove(r, lease)
  }

  /** Leases name one of a bridge's two slots. */
  predicate Sane(op: Op) {
    op.LeaveOp? ==> op.lease.slot < 2
  }

  function Run(r: Registry, ops: seq<Op>): Registry
    decreases |ops|
  {
    if ops == [] then r else Run(Apply(r, ops[0]), ops[1..])
  }

  /** Registering changes nobody's holdings but the caller's own: naming a peer costs it nothing. */
  lemma OwnedAfterJoin(r: Registry, token: Token, key: Key, peer: Key, channel: Channel, who: Key)
    requires Register(r, token, key, peer, channel).Registered?
    ensures Owned(Register(r, token, key, peer, channel).registry, who) ==
            Owned(r, who) + (if who == key then {token} else {})
  {
    var n := Register(r, token, key, peer, channel).registry;
    forall t
      ensures t in Owned(n, who) <==> t in Owned(r, who) || (who == key && t == token)
    {
    }
  }

  lemma JoinDistinct(r: Registry, token: Token, slot: nat, bridge: Bridge, p: Participant)
    requires Distinct(r) && slot < 2 && p.generation == r.generation + 1
    requires if token in r.bridges then bridge == r.bridges[token] else bridge.at0.None? && bridge.at1.None?
    ensures Distinct(Registry(r.bridges[token := Set(bridge, slot, Some(p))], r.generation + 1))
  {
    var n := Registry(r.bridges[token := Set(bridge, slot, Some(p))], r.generation + 1);
    forall t, s | Live(n, t, s)
      ensures t == token && s == slot ==> GenAt(n, t, s) == n.generation
      ensures t != token || s != slot ==> Live(r, t, s) && GenAt(n, t, s) == GenAt(r, t, s)
    {
    }
  }

  lemma JoinOwned(r: Registry, token: Token, key: Key, peer: Key, channel: Channel, who: Key)
    requires Inv(r) && Register(r, token, key, peer, channel).Registered?
    ensures |Owned(Register(r, token, key, peer, channel).registry, who)| <= MAX_BRIDGES_PER_IDENTITY
  {
    OwnedAfterJoin(r, token, key, peer, channel, who);
    if who == key && token in Owned(r, who) {
      assert Owned(r, who) + {token} == Owned(r, who);
    }
  }

  lemma JoinSize(r: Registry, token: Token, bridge: Bridge)
    ensures |r.bridges[token := bridge]| == |r.bridges| + (if token in r.bridges then 0 else 1)
  {
    var n := r.bridges[token := bridge];
    assert n.Keys == r.bridges.Keys + {token};
    assert |n| == |n.Keys| && |r.bridges| == |r.bridges.Keys|;
  }

  lemma JoinKeeps(r: Registry, token: Token, key: Key, peer: Key, channel: Channel)
    requires Inv(r) && Register(r, token, key, peer, channel).Registered?
    ensures Inv(Register(r, token, key, peer, channel).registry)
  {
    var n := Register(r, token, key, peer, channel).registry;
    forall who
      ensures |Owned(n, who)| <= MAX_BRIDGES_PER_IDENTITY
    {
      JoinOwned(r, token, key, peer, channel, who);
    }
    var slot := if key > peer then 1 else 0;
    var bridge := if token in r.bridges then r.bridges[token] else Blank(key, peer);
    var p := Participant(r.generation + 1, channel);
    JoinSize(r, token, Set(bridge, slot, Some(p)));
    JoinDistinct(r, token, slot, bridge, p);
  }

  lemma LeaveKeeps(r: Registry, lease: Registration)
    requires Inv(r) && lease.slot < 2
    ensures Inv(Remove(r, lease))
  {
    var n := Remove(r, lease);
    forall who
      ensures |Owned(n, who)| <= MAX_BRIDGES_PER_IDENTITY
    {
      assert Owned(n, who) <= Owned(r, who);
      SubsetSize(Owned(n, who), Owned(r, who));
    }
    assert |n.bridges| <= |r.bridges| by {
      SubsetSize(n.bridges.Keys, r.bridges.Keys);
      assert |n.bridges| == |n.bridges.Keys| && |r.bridges| == |r.bridges.Keys|;
    }
    forall t, s | Live(n, t, s)
      ensures Live(r, t, s) && GenAt(n, t, s) == GenAt(r, t, s)
    {
    }
  }

  lemma {:induction false} RunKeeps(r: Registry, ops: seq<Op>)
    requires Inv(r) && forall i :: 0 <= i < |ops| ==> Sane(ops[i])
    ensures Inv(Run(r, ops)) && r.generation <= Run(r, ops).generation
    decreases |ops|
  {
    if ops != [] {
      assert Sane(ops[0]);
      match ops[0] {
        case JoinOp(token, key, peer, channel) =>
          if Register(r, token, key, peer, channel).Registered? {
            JoinKeeps(r, token, key, peer, channel);
          }
        case LeaveOp(lease) => LeaveKeeps(r, lease);
      }
      assert forall i :: 0 <= i < |ops[1..]| ==> ops[1..][i] == ops[i + 1];
      RunKeeps(Apply(r, ops[0]), ops[1..]);
    }
  }

  /** Over every run from an empty registry: at most 512 bridges, none of them empty, at most 8 held
      by one identity, and no two live sides share a generation. */
  lemma RegistryHolds(ops: seq<Op>)
    requires forall i :: 0 <= i < |ops| ==> Sane(ops[i])
    ensures var r := Run(Empty, ops);
            && |r.bridges| <= 512
            && (forall t :: t in r.bridges ==> r.bridges[t].at0.Some? || r.bridges[t].at1.Some?)
            && (forall key :: |Owned(r, key)| <= 8)
            && (forall t, slot, t', slot' :: Live(r, t, slot) && Live(r, t', slot') && GenAt(r, t, slot) == GenAt(r, t', slot') ==>
                  t == t' && slot == slot')
  {
    assert Inv(Empty) by {
      assert forall key :: Owned(Empty, key) == {};
    }
    RunKeeps(Empty, ops);
  }

  /** Who gets in: two different identities, on a token that is new while fewer than 512 exist or that
      already stands for the same two, with room among the caller's eight unless it only takes its own
      place again, and a generation left to give. */
  predicate MayJoin(r: Registry, token: Token, key: Key, peer: Key) {
    && key != peer
    && (token !in r.bridges ==> |r.bridges| < 512)
    && (token in r.bridges ==> {r.bridges[token].first, r.bridges[token].second} == {key, peer})
    && (Returning(r, token, key) || |Owned(r, key)| < 8)
    && r.generation != 0xffff_ffff_ffff_ffff
  }

  /** The caller holds its side of the bridge already. */
  predicate Returning(r: Registry, token: Token, key: Key) {
    token in r.bridges && Occupies(r.bridges[token], key)
  }

  lemma JoinsIff(ops: seq<Op>, token: Token, key: Key, peer: Key, channel: Channel)
    requires forall i :: 0 <= i < |ops| ==> Sane(ops[i])
    ensures var r := Run(Empty, ops);
            Register(r, token, key, peer, channel).Registered? <==> MayJoin(r, token, key, peer)
  {
    assert Inv(Empty) by {
      assert forall who :: Owned(Empty, who) == {};
    }
    RunKeeps(Empty, ops);
    var r := Run(Empty, ops);
    if token in r.bridges {
      SamePair(r.bridges[token].first, r.bridges[token].second, key, peer);
    }
  }

  lemma SamePair(first: Key, second: Key, key: Key, peer: Key)
    requires first < second
    ensures {first, second} == {key, peer} <==> (first == key && second == peer) || (first == peer && second == key)
  {
    if {first, second} == {key, peer} {
      assert first in {key, peer} && second in {key, peer};
    }
  }

  /** Once displaced or left, a lease is never current again. */
  predicate Gone(r: Registry, lease: Registration) {
    !Current(r, lease) && lease.generation <= r.generation
  }

  lemma StaysGone(r: Registry, lease: Registration, op: Op)
    requires Gone(r, lease) && Sane(op) && lease.slot < 2
    ensures Gone(Apply(r, op), lease)
  {
  }

  lemma {:induction false} GoneForGood(r: Registry, lease: Registration, ops: seq<Op>)
    requires Gone(r, lease) && lease.slot < 2 && forall i :: 0 <= i < |ops| ==> Sane(ops[i])
    ensures Gone(Run(r, ops), lease)
    decreases |ops|
  {
    if ops != [] {
      assert Sane(ops[0]);
      StaysGone(r, lease, ops[0]);
      assert forall i :: 0 <= i < |ops[1..]| ==> ops[1..][i] == ops[i + 1];
      GoneForGood(Apply(r, ops[0]), lease, ops[1..]);
    }
  }

  /** A lease that another registration displaced can, in every later state of the registry, neither
      forward anything nor change it by leaving. */
  lemma DisplacedLeaseIsInert(r: Registry, lease: Registration, ops: seq<Op>)
    requires Gone(r, lease) && lease.slot < 2 && forall i :: 0 <= i < |ops| ==> Sane(ops[i])
    ensures Destination(Run(r, ops), lease).None? && Remove(Run(r, ops), lease) == Run(r, ops)
  {
    GoneForGood(r, lease, ops);
  }

  /** Registering over a live lease displaces exactly it: the old lease is gone, the new one is
      current and reaches the other side, and every other lease is as current as before. */
  lemma JoinDisplaces(r: Registry, token: Token, key: Key, peer: Key, channel: Channel, lease: Registration)
    requires Inv(r) && Register(r, token, key, peer, channel).Registered? && lease.slot < 2 && Current(r, lease)
    ensures var n := Register(r, token, key, peer, channel);
            && Current(n.registry, n.lease)
            && (if lease.token == token && lease.slot == n.lease.slot then
                  Gone(n.registry, lease) && n.displaced == Some(At(r.bridges[token], lease.slot).value.channel)
                else Current(n.registry, lease))
            && (lease.token == token && lease.slot != n.lease.slot ==>
                  Destination(n.registry, lease) == Some(channel)
                  && Destination(n.registry, n.lease) == Some(At(r.bridges[token], lease.slot).value.channel))
  {
    assert Live(r, lease.token, lease.slot);
    assert GenAt(r, lease.token, lease.slot) <= r.generation;
  }

  /** Leaving ends exactly the lease that leaves: every other stays current and forwards as before, but
      for the one opposite, which has nobody to forward to; and the bridge goes exactly if nobody is
      opposite. */
  lemma LeaveEnds(r: Registry, lease: Registration, other: Registration)
    requires lease.slot < 2 && other.slot < 2 && Current(r, lease)
    ensures var n := Remove(r, lease);
            && n.generation == r.generation && !Current(n, lease)
            && (lease.token in n.bridges <==> At(r.bridges[lease.token], 1 - lease.slot).Some?)
            && ((other.token, other.slot) != (lease.token, lease.slot) ==>
                  && (Current(n, other) <==> Current(r, other))
                  && Destination(n, other) == (if other.token == lease.token then None else Destination(r, other)))
  {
  }

  // ---- The byte budget ----------------------------------------------------------------------------

  const RATE: real := 8.0 * 1024.0 * 1024.0
  const BURST: real := 256.0 * 1024.0

  /** A datagram: when it arrives, in seconds, and its length. */
  datatype Arrival = Arrival(at: real, length: nat)

  predicate InOrder(arrivals: seq<Arrival>, from: real) {
    (forall i :: 0 <= i < |arrivals| ==> from <= arrivals[i].at)
    && forall i, j :: 0 <= i <= j < |arrivals| ==> arrivals[i].at <= arrivals[j].at
  }

  function Refill(tokens: real, elapsed: real): real {
    var full := tokens + elapsed * RATE;
    if full < BURST then full else BURST
  }

  /** Bytes admitted among arrivals `lo` up to `hi`. */
  function Passed(arrivals: seq<Arrival>, admitted: seq<bool>, lo: nat, hi: nat): nat
    requires lo <= hi <= |arrivals| && hi <= |admitted|
    decreases hi - lo
  {
    if lo == hi then 0
    else Passed(arrivals, admitted, lo, hi - 1) + (if admitted[hi - 1] then arrivals[hi - 1].length else 0)
  }

  /** What the bucket holds after the first `n` arrivals, and whether each was admitted. */
  function Bucket(arrivals: seq<Arrival>, start: real, n: nat): (out: (real, seq<bool>))
    requires n <= |arrivals|
    ensures |out.1| == n
  {
    if n == 0 then (BURST, [])
    else
      var (tokens, admitted) := Bucket(arrivals, start, n - 1);
      var since := if n == 1 then start else arrivals[n - 2].at;
      var filled := Refill(tokens, arrivals[n - 1].at - since);
      var length := arrivals[n - 1].length as real;
      if filled < length then (filled, admitted + [false]) else (filled - length, admitted + [true])
  }

  /** The registry when datagram `i` is handled: `between[i]` are the registrations and departures
      since the datagram before it. */
  function RegistryAt(first: Registry, between: seq<seq<Op>>, i: nat): Registry
    requires i < |between|
  {
    Run(if i == 0 then first else RegistryAt(first, between, i - 1), between[i])
  }

  predicate AllSane(between: seq<seq<Op>>) {
    forall i, j :: 0 <= i < |between| && 0 <= j < |between[i]| ==> Sane(between[i][j])
  }

  lemma {:induction false} GoneAlong(first: Registry, between: seq<seq<Op>>, lease: Registration, j: nat, i: nat)
    requires j <= i < |between| && AllSane(between) && lease.slot < 2 && Gone(RegistryAt(first, between, j), lease)
    ensures Gone(RegistryAt(first, between, i), lease)
    decreases i
  {
    if j < i {
      GoneAlong(first, between, lease, j, i - 1);
      GoneForGood(RegistryAt(first, between, i - 1), lease, between[i]);
    }
  }

  /** What becomes of datagram `i`: where an admitted one goes, by the registry at that moment. */
  function Forwarded(first: Registry, between: seq<seq<Op>>, lease: Registration, admitted: bool, i: nat): Option<Channel>
    requires i < |between|
  {
    if admitted then Destination(RegistryAt(first, between, i), lease) else None
  }

  function Taken(forwarded: seq<Option<Channel>>): seq<bool> {
    seq(|forwarded|, i requires 0 <= i < |forwarded| => forwarded[i].Some?)
  }

  /** The registry once `n` datagrams were handled. */
  function Seen(first: Registry, between: seq<seq<Op>>, n: nat): Registry
    requires n <= |between|
  {
    if n == 0 then first else RegistryAt(first, between, n - 1)
  }

  lemma {:induction false} GenerationGrows(r: Registry, ops: seq<Op>)
    ensures r.generation <= Run(r, ops).generation
    decreases |ops|
  {
    if ops != [] {
      GenerationGrows(Apply(r, ops[0]), ops[1..]);
    }
  }

  lemma {:induction false} IssuedBefore(first: Registry, between: seq<seq<Op>>, n: nat)
    requires n <= |between|
    ensures first.generation <= Seen(first, between, n).generation
  {
    if n > 0 {
      IssuedBefore(first, between, n - 1);
      GenerationGrows(Seen(first, between, n - 1), between[n - 1]);
    }
  }

  /** One bridge, from its registration to the drop of its lease: a datagram is admitted exactly when no
      window that ends with it is overrun, each admitted one goes to the other side as the registry
      stands then, a lease displaced at any moment up to its drop forwards
      nothing from then on and takes nothing away with it, and over any window no more is passed on than
      the burst and the rate allow. `last` are the operations between the last datagram and the drop. */
  method Serve(first: Registry, lease: Registration, between: seq<seq<Op>>, arrivals: seq<Arrival>, start: real, last: seq<Op>)
    returns (forwarded: seq<Option<Channel>>, left: Registry)
    requires InOrder(arrivals, start) && |between| == |arrivals| && AllSane(between) && lease.slot < 2
    requires lease.generation <= first.generation && forall i :: 0 <= i < |last| ==> Sane(last[i])
    ensures |forwarded| <= |arrivals|
    ensures var admitted := Bucket(arrivals, start, |arrivals|).1;
            && (forall i :: 0 <= i < |forwarded| ==> forwarded[i] == Forwarded(first, between, lease, admitted[i], i))
            && (|forwarded| < |arrivals| ==>
                  admitted[|forwarded|] && !Current(RegistryAt(first, between, |forwarded|), lease))
            && (forall i :: 0 <= i < |arrivals| ==> (admitted[i] <==> !Overruns(arrivals, admitted, i)))
    ensures forall j, i :: 0 <= j <= i < |forwarded| && Gone(RegistryAt(first, between, j), lease) ==> forwarded[i].None?
    ensures var final := Run(Seen(first, between, Min(|forwarded| + 1, |arrivals|)), last);
            left == if |forwarded| < |arrivals| || !Current(final, lease) then final else Remove(final, lease)
    ensures forall lo, hi :: 0 <= lo < hi <= |forwarded| ==>
              Passed(arrivals, Taken(forwarded), lo, hi) as real <= BURST + RATE * (arrivals[hi - 1].at - arrivals[lo].at)
  {
    var seen;
    forwarded, seen := ServeLoop(first, lease, between, arrivals, start);
    left := Remove(Run(seen, last), lease);
    if |forwarded| < |arrivals| {
      IssuedBefore(first, between, |forwarded| + 1);
      DisplacedLeaseIsInert(seen, lease, last);
    }
    forall j, i | 0 <= j <= i < |forwarded| && Gone(RegistryAt(first, between, j), lease)
      ensures forwarded[i].None?
    {
      GoneAlong(first, between, lease, j, i);
    }
    forall i | 0 <= i < |arrivals|
      ensures var admitted := Bucket(arrivals, start, |arrivals|).1; admitted[i] <==> !Overruns(arrivals, admitted, i)
    {
      RefusedIffOverrun(arrivals, start, i);
    }
    forall lo: nat, hi: nat | lo < hi <= |forwarded|
      ensures Passed(arrivals, Taken(forwarded), lo, hi) as real <= BURST + RATE * (arrivals[hi - 1].at - arrivals[lo].at)
    {
      BudgetHolds(arrivals, start, Taken(forwarded), lo, hi);
    }
  }

  /** Refills the tokens and takes a datagram's length from them if they cover it. */
  method Charge(tokens: real, elapsed: real, length: nat) returns (charged: bool, left: real)
    ensures charged <==> Refill(tokens, elapsed) >= length as real
    ensures left == if charged then Refill(tokens, elapsed) - length as real else Refill(tokens, elapsed)
  {
    left := Refill(tokens, elapsed);
    charged := left >= length as real;
    if charged {
      left := left - length as real;
    }
  }

  method ServeLoop(first: Registry, lease: Registration, between: seq<seq<Op>>, arrivals: seq<Arrival>, start: real)
    returns (forwarded: seq<Option<Channel>>, seen: Registry)
    requires InOrder(arrivals, start) && |between| == |arrivals|
    ensures |forwarded| <= |arrivals|
    ensures var admitted := Bucket(arrivals, start, |arrivals|).1;
            && (forall i :: 0 <= i < |forwarded| ==> forwarded[i] == Forwarded(first, between, lease, admitted[i], i))
            && (|forwarded| < |arrivals| ==>
                  admitted[|forwarded|] && !Current(RegistryAt(first, between, |forwarded|), lease))
    ensures seen == Seen(first, between, Min(|forwarded| + 1, |arrivals|))
  {
    var tokens, updated := BURST, start;
    seen := first;
    forwarded := [];
    ghost var admitted := Bucket(arrivals, start, |arrivals|).1;
    var i := 0;
    while i < |arrivals|
      invariant 0 <= i <= |arrivals| && |forwarded| == i
      invariant tokens == Bucket(arrivals, start, i).0
      invariant updated == if i == 0 then start else arrivals[i - 1].at
      invariant seen == Seen(first, between, i)
      invariant forall j :: 0 <= j < i ==> forwarded[j] == Forwarded(first, between, lease, admitted[j], j)
    {
      BucketNext(arrivals, start, i);
      seen := Run(seen, between[i]);
      var charged;
      charged, tokens := Charge(tokens, arrivals[i].at - updated, arrivals[i].length);
      updated := arrivals[i].at;
      if charged && !Current(seen, lease) {
        break;
      }
      forwarded := forwarded + [if charged then Destination(seen, lease) else None];
      i := i + 1;
    }
  }

  lemma {:induction false} TokensBounded(arrivals: seq<Arrival>, start: real, n: nat)
    requires n <= |arrivals| && InOrder(arrivals, start)
    ensures 0.0 <= Bucket(arrivals, start, n).0 <= BURST
    decreases n
  {
    if n > 0 {
      TokensBounded(arrivals, start, n - 1);
      var since := if n == 1 then start else arrivals[n - 2].at;
      assert arrivals[n - 1].at - since >= 0.0;
      assert (arrivals[n - 1].at - since) * RATE >= 0.0;
    }
  }

  /** One arrival: refilled first, then admitted and charged exactly if the tokens cover it. */
  lemma BucketNext(arrivals: seq<Arrival>, start: real, i: nat)
    requires i < |arrivals|
    ensures var since := if i == 0 then start else arrivals[i - 1].at;
            var filled := Refill(Bucket(arrivals, start, i).0, arrivals[i].at - since);
            var length := arrivals[i].length as real;
            var admitted := Bucket(arrivals, start, |arrivals|).1[i];
            && (admitted <==> filled >= length)
            && Bucket(arrivals, start, i + 1).0 == if admitted then filled - length else filled
  {
    LongerKeepsPrefix(arrivals, start, i + 1, |arrivals|);
    assert Bucket(arrivals, start, |arrivals|).1[i] == Bucket(arrivals, start, i + 1).1[i];
  }

  lemma {:induction false} LongerKeepsPrefix(arrivals: seq<Arrival>, start: real, n: nat, m: nat)
    requires n <= m <= |arrivals|
    ensures Bucket(arrivals, start, n).1 == Bucket(arrivals, start, m).1[..n]
    decreases m
  {
    if n < m {
      LongerKeepsPrefix(arrivals, start, n, m - 1);
    }
  }

  /** The tokens datagram `i` finds: refilled for the time since the one before, never above the burst. */
  function Filled(arrivals: seq<Arrival>, start: real, i: nat): real
    requires i < |arrivals|
  {
    Refill(Bucket(arrivals, start, i).0, arrivals[i].at - if i == 0 then start else arrivals[i - 1].at)
  }

  /** What is left for datagram `i` of the allowance of the window that opens at datagram `lo`. */
  function Allowance(arrivals: seq<Arrival>, admitted: seq<bool>, lo: nat, i: nat): real
    requires lo <= i < |arrivals| && i <= |admitted|
  {
    BURST + RATE * (arrivals[i].at - arrivals[lo].at) - Passed(arrivals, admitted, lo, i) as real
  }

  lemma AllowanceGrows(arrivals: seq<Arrival>, admitted: seq<bool>, lo: nat, i: nat)
    requires lo < i < |arrivals| && i <= |admitted|
    ensures Allowance(arrivals, admitted, lo, i) == Allowance(arrivals, admitted, lo, i - 1)
              - (if admitted[i - 1] then arrivals[i - 1].length else 0) as real
              + (arrivals[i].at - arrivals[i - 1].at) * RATE
  {
    assert RATE * (arrivals[i].at - arrivals[lo].at) ==
           RATE * (arrivals[i - 1].at - arrivals[lo].at) + (arrivals[i].at - arrivals[i - 1].at) * RATE;
  }

  /** The tokens are the smallest allowance over all windows that reach back from the datagram. */
  lemma {:induction false} FilledIsLeastAllowance(arrivals: seq<Arrival>, start: real, i: nat) returns (tight: nat)
    requires i < |arrivals| && InOrder(arrivals, start)
    ensures tight <= i
    ensures var admitted := Bucket(arrivals, start, |arrivals|).1;
            && Filled(arrivals, start, i) == Allowance(arrivals, admitted, tight, i)
            && forall lo :: 0 <= lo <= i ==> Filled(arrivals, start, i) <= Allowance(arrivals, admitted, lo, i)
    decreases i
  {
    var admitted := Bucket(arrivals, start, |arrivals|).1;
    var filled := Filled(arrivals, start, i);
    assert Passed(arrivals, admitted, i, i) == 0 && arrivals[i].at - arrivals[i].at == 0.0;
    assert Allowance(arrivals, admitted, i, i) == BURST;
    if i == 0 {
      FullAtFirst(arrivals, start);
      return 0;
    }
    var before := FilledIsLeastAllowance(arrivals, start, i - 1);
    BucketNext(arrivals, start, i - 1);
    forall lo | 0 <= lo <= i
      ensures filled <= Allowance(arrivals, admitted, lo, i)
    {
      if lo < i {
        AllowanceGrows(arrivals, admitted, lo, i);
      }
    }
    AllowanceGrows(arrivals, admitted, before, i);
    tight := if filled < BURST then before else i;
  }

  lemma FullAtFirst(arrivals: seq<Arrival>, start: real)
    requires 0 < |arrivals| && InOrder(arrivals, start)
    ensures Filled(arrivals, start, 0) == BURST
  {
    assert (arrivals[0].at - start) * RATE >= 0.0;
  }

  /** Over some window that ends with the datagram, what was let through and its own length come to more
      than 256 KiB and 8 MiB a second. */
  predicate Overruns(arrivals: seq<Arrival>, admitted: seq<bool>, i: nat)
    requires i < |arrivals| && i <= |admitted|
  {
    exists lo :: 0 <= lo <= i &&
      (Passed(arrivals, admitted, lo, i) + arrivals[i].length) as real
      > 262144.0 + 8388608.0 * (arrivals[i].at - arrivals[lo].at)
  }

  /** Nothing is dropped without need: a datagram is refused exactly when it overruns some window. */
  lemma RefusedIffOverrun(arrivals: seq<Arrival>, start: real, i: nat)
    requires i < |arrivals| && InOrder(arrivals, start)
    ensures var admitted := Bucket(arrivals, start, |arrivals|).1;
            !admitted[i] <==> Overruns(arrivals, admitted, i)
  {
    var admitted := Bucket(arrivals, start, |arrivals|).1;
    var tight := FilledIsLeastAllowance(arrivals, start, i);
    BucketNext(arrivals, start, i);
    var length := arrivals[i].length as real;
    assert admitted[i] <==> Filled(arrivals, start, i) >= length;
    if admitted[i] {
      forall lo | 0 <= lo <= i
        ensures (Passed(arrivals, admitted, lo, i) + arrivals[i].length) as real
             <= 262144.0 + 8388608.0 * (arrivals[i].at - arrivals[lo].at)
      {
        assert length <= Allowance(arrivals, admitted, lo, i);
      }
    } else {
      assert length > Allowance(arrivals, admitted, tight, i);
    }
  }

  /** What the bucket holds after arrival `hi - 1` is at most what it held after arrival `lo`, plus
      the rate over the time between, less what passed after `lo`. */
  lemma {:induction false} Spending(arrivals: seq<Arrival>, start: real, lo: nat, hi: nat)
    requires lo < hi <= |arrivals| && InOrder(arrivals, start)
    ensures Passed(arrivals, Bucket(arrivals, start, |arrivals|).1, lo, hi) as real + Bucket(arrivals, start, hi).0
         <= BURST + RATE * (arrivals[hi - 1].at - arrivals[lo].at)
    decreases hi - lo
  {
    var admitted := Bucket(arrivals, start, |arrivals|).1;
    LongerKeepsPrefix(arrivals, start, hi, |arrivals|);
    assert admitted[hi - 1] == Bucket(arrivals, start, hi).1[hi - 1];
    var before := Bucket(arrivals, start, hi - 1).0;
    var since := if hi == 1 then start else arrivals[hi - 2].at;
    var filled := Refill(before, arrivals[hi - 1].at - since);
    if lo == hi - 1 {
      assert Passed(arrivals, admitted, lo, lo) == 0;
    } else {
      Spending(arrivals, start, lo, hi - 1);
      assert RATE * (arrivals[hi - 1].at - arrivals[lo].at) ==
             RATE * (arrivals[hi - 2].at - arrivals[lo].at) + (arrivals[hi - 1].at - since) * RATE;
    }
  }

  lemma {:induction false} ForwardedIsPassed(arrivals: seq<Arrival>, admitted: seq<bool>, forwarded: seq<bool>, lo: nat, hi: nat)
    requires lo <= hi <= |forwarded| <= |admitted| == |arrivals|
    requires forall i :: 0 <= i < |forwarded| ==> forwarded[i] ==> admitted[i]
    ensures Passed(arrivals, forwarded, lo, hi) <= Passed(arrivals, admitted, lo, hi)
    decreases hi - lo
  {
    if lo < hi {
      ForwardedIsPassed(arrivals, admitted, forwarded, lo, hi - 1);
    }
  }

  /** Over any window of arrivals a bridge passes on at most the burst plus the rate times the time
      between the window's first and last arrival, and the budget stays within zero and the burst. */
  lemma BudgetHolds(arrivals: seq<Arrival>, start: real, forwarded: seq<bool>, lo: nat, hi: nat)
    requires lo < hi <= |forwarded| <= |arrivals| && InOrder(arrivals, start)
    requires forall i :: 0 <= i < |forwarded| ==> forwarded[i] ==> Bucket(arrivals, start, |arrivals|).1[i]
    ensures Passed(arrivals, forwarded, lo, hi) as real <= BURST + RATE * (arrivals[hi - 1].at - arrivals[lo].at)
    ensures 0.0 <= Bucket(arrivals, start, hi).0 <= BURST
  {
    Spending(arrivals, start, lo, hi);
    TokensBounded(arrivals, start, hi);
    ForwardedIsPassed(arrivals, Bucket(arrivals, start, |arrivals|).1, forwarded, lo, hi);
  }
}
