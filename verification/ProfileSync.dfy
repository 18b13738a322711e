/**
 Avatar and profile-details reconciliation (libcore/src/profile_sync.rs): what one control does to a
 device's tables, and what two devices do to each other over every run of them.
 */
module ProfileSync {
  import opened Common

  type Key = nat

  datatype Part = Avatar | Details

  datatype StoredAt = StoredAt(part: Part, peer: Key)

  datatype AckAt = AckAt(part: Part, owner: Key, peer: Key)

  /** Peers' stored revisions, and what peers acknowledged of ours; a row without a revision only
      says that the peer supports the exchange. */
  datatype Tables = Tables(stored: map<StoredAt, nat>, acks: map<AckAt, Option<nat>>)

  /** `valid` is the verdict of the content checks on the picture or the details. */
  datatype Payload =
    | Update(part: Part, revision: nat, valid: bool)
    | Ack(part: Part, revision: nat)
    | Sync(part: Part, known: Option<nat>, reply: bool)

  datatype Own = Own(owner: Key, part: Part, revision: nat)

  datatype Result = Failed | Done(tables: Tables, changed: bool, responses: seq<Payload>)

  function KnownRevision(t: Tables, part: Part, peer: Key): Option<nat> {
    if StoredAt(part, peer) in t.stored then Some(t.stored[StoredAt(part, peer)]) else None
  }

  predicate Newer(t: Tables, part: Part, peer: Key, revision: nat) {
    StoredAt(part, peer) !in t.stored || revision > t.stored[StoredAt(part, peer)]
  }

  /** The row after a peer acknowledges `revision`: never beyond `current`, never backwards. */
  function Acknowledged(row: Option<Option<nat>>, revision: nat, current: nat): Option<Option<nat>> {
    if revision > current then row
    else if row.Some? && row.value.Some? && revision <= row.value.value then row
    else Some(Some(revision))
  }

  function AckRow(t: Tables, at: AckAt): Option<Option<nat>> {
    if at in t.acks then Some(t.acks[at]) else None
  }

  function WithAck(t: Tables, at: AckAt, row: Option<Option<nat>>): Tables {
    if row.Some? then t.(acks := t.acks[at := row.value]) else t
  }

  predicate Unstorable(revision: nat, current: nat) {
    revision <= current && revision > I64_MAX
  }

  function ReceiveUpdate(t: Tables, peer: Key, payload: Payload): Result
    requires payload.Update?
  {
    if !payload.valid || payload.revision > I64_MAX then Failed
    else
      var at := StoredAt(payload.part, peer);
      var newer := Newer(t, payload.part, peer, payload.revision);
      var next := if newer then t.(stored := t.stored[at := payload.revision]) else t;
      Done(next, newer, [Ack(payload.part, next.stored[at])])
  }

  function ReceiveSync(t: Tables, own: Own, peer: Key, payload: Payload): Result
    requires payload.Sync?
  {
    var at := AckAt(payload.part, own.owner, peer);
    var current := payload.known == Some(own.revision);
    if payload.known.Some? && Unstorable(payload.known.value, own.revision) then Failed
    else
      var base := if current then (if at in t.acks then t.acks[at] else None) else None;
      var row := if payload.known.Some? then Acknowledged(Some(base), payload.known.value, own.revision)
                 else Some(base);
      var next := WithAck(t, at, row);
      Done(next, false,
           (if payload.reply then [] else [Sync(payload.part, KnownRevision(next, payload.part, peer), true)])
           + (if current then [] else [Update(payload.part, own.revision, true)]))
  }

  /** A control and its responses in one transaction; `Failed` leaves the tables alone. */
  function Receive(t: Tables, own: Option<Own>, peer: Key, payload: Payload): Result {
    if own.Some? && own.value.part != payload.part then Failed
    else match payload
      case Update(_, _, _) => ReceiveUpdate(t, peer, payload)
      case Ack(part, revision) =>
        if own.None? then Done(t, false, [])
        else if Unstorable(revision, own.value.revision) then Failed
        else
          var at := AckAt(part, own.value.owner, peer);
          Done(WithAck(t, at, Acknowledged(AckRow(t, at), revision, own.value.revision)), false, [])
      case Sync(_, _, _) => if own.None? then Failed else ReceiveSync(t, own.value, peer, payload)
  }

  predicate ShouldRetry(t: Tables, part: Part, owner: Key, peer: Key, current: nat) {
    var row := AckRow(t, AckAt(part, owner, peer));
    row.Some? && row.value != Some(current)
  }

  /** The tables as the device keeps them, changed row by row inside a transaction. */
  class Store {
    var stored: map<StoredAt, nat>
    var acks: map<AckAt, Option<nat>>

    constructor ()
      ensures Now() == Tables(map[], map[])
    {
      stored, acks := map[], map[];
    }

    function Now(): Tables
      reads this
    {
      Tables(stored, acks)
    }

    method Acknowledge(at: AckAt, revision: nat, current: nat) returns (ok: bool)
      modifies this`acks
      ensures ok == !Unstorable(revision, current)
      ensures ok ==> Now() == WithAck(old(Now()), at, Acknowledged(AckRow(old(Now()), at), revision, current))
      ensures !ok ==> Now() == old(Now())
    {
      if revision > current {
        return true;
      }
      if revision > I64_MAX {
        return false;
      }
      if at !in acks || acks[at].None? || revision > acks[at].value {
        acks := acks[at := Some(revision)];
      }
      ok := true;
    }

    method ReceiveTx(own: Option<Own>, peer: Key, payload: Payload)
      returns (ok: bool, changed: bool, responses: seq<Payload>)
      modifies this
      ensures var r := Receive(old(Now()), own, peer, payload);
              && ok == r.Done?
              && (ok ==> Now() == r.tables && changed == r.changed && responses == r.responses)
              && (!ok ==> Now() == old(Now()))
    {
      ok, changed, responses := false, false, [];
      if own.Some? && own.value.part != payload.part {
        return;
      }
      var before := acks;
      match payload {
        case Update(part, revision, valid) =>
          if !valid || revision > I64_MAX {
            return;
          }
          var at := StoredAt(part, peer);
          if at !in stored || revision > stored[at] {
            stored := stored[at := revision];
            changed := true;
          }
          responses := responses + [Ack(part, stored[at])];
        case Ack(part, revision) =>
          if own.Some? {
            var fits := Acknowledge(AckAt(part, own.value.owner, peer), revision, own.value.revision);
            if !fits {
              return;
            }
          }
        case Sync(part, known, reply) =>
          if own.None? {
            return;
          }
          var at := AckAt(part, own.value.owner, peer);
          if at !in acks {
            acks := acks[at := None];
          }
          if known != Some(own.value.revision) {
            acks := acks[at := None];
          }
          if known.Some? {
            var fits := Acknowledge(at, known.value, own.value.revision);
            if !fits {
              acks := before;
              return;
            }
          }
          if !reply {
            responses := responses + [Sync(part, KnownRevision(Now(), part, peer), true)];
          }
          if known != Some(own.value.revision) {
            responses := responses + [Update(part, own.value.revision, true)];
          }
      }
      ok := true;
    }
  }

  /** A control reports a change exactly when a stored copy changes, and then it is the sender's, raised
      to the revision it sent. */
  lemma ChangedIff(t: Tables, own: Option<Own>, peer: Key, payload: Payload)
    requires Receive(t, own, peer, payload).Done?
    ensures var r := Receive(t, own, peer, payload);
            && (r.changed <==> r.tables.stored != t.stored)
            && (r.changed ==>
                  && payload.Update? && payload.valid && r.tables.stored == t.stored[StoredAt(payload.part, peer) := payload.revision]
                  && (StoredAt(payload.part, peer) in t.stored ==> t.stored[StoredAt(payload.part, peer)] < payload.revision))
  {
    if payload.Update? && Newer(t, payload.part, peer, payload.revision) {
      var at := StoredAt(payload.part, peer);
      assert at in t.stored ==> t.stored[at] != payload.revision;
      assert t.stored[at := payload.revision] != t.stored;
    }
  }

  /** When a control is refused as a whole: it is for another part than ours, its content is bad, it asks
      for what we do not have, or it carries a revision that a row cannot hold. */
  lemma RefusedIff(t: Tables, own: Option<Own>, peer: Key, payload: Payload)
    ensures Receive(t, own, peer, payload).Failed? <==>
            || (own.Some? && own.value.part != payload.part)
            || (payload.Update? && (!payload.valid || payload.revision > 0x7fff_ffff_ffff_ffff))
            || (payload.Ack? && own.Some? && 0x7fff_ffff_ffff_ffff < payload.revision <= own.value.revision)
            || (payload.Sync? && (own.None? || (payload.known.Some? && 0x7fff_ffff_ffff_ffff < payload.known.value <= own.value.revision)))
  {
  }

  /** What a peer says it has decides whether we try again: after its sync it is tried exactly if it does
      not have our current revision, even if it had acknowledged that one before, and then it is sent.
      Recorded receipts never exceed our revision (`ReceiptsAreTrue`). */
  lemma SyncDecidesRetry(t: Tables, own: Own, peer: Key, payload: Payload)
    requires payload.Sync? && Receive(t, Some(own), peer, payload).Done?
    requires var at := AckAt(own.part, own.owner, peer);
             at in t.acks && t.acks[at].Some? ==> t.acks[at].value <= own.revision
    ensures var r := Receive(t, Some(own), peer, payload);
            && (ShouldRetry(r.tables, own.part, own.owner, peer, own.revision) <==> payload.known != Some(own.revision))
            && (Update(own.part, own.revision, true) in r.responses <==> payload.known != Some(own.revision))
  {
    var r := Receive(t, Some(own), peer, payload);
    if payload.known != Some(own.revision) {
      assert r.responses[|r.responses| - 1] == Update(own.part, own.revision, true);
    }
  }

  /** A control and who sent it. */
  datatype From = From(peer: Key, payload: Payload)

  function ReceiveAll(t: Tables, own: Own, controls: seq<From>): Tables
    decreases |controls|
  {
    if controls == [] then t
    else
      var r := Receive(t, Some(own), controls[0].peer, controls[0].payload);
      ReceiveAll(if r.Done? then r.tables else t, own, controls[1..])
  }

  /** A peer we never heard from has no row, so it is never tried again. */
  lemma {:induction false} StrangersAreNotRetried(t: Tables, own: Own, controls: seq<From>, peer: Key, current: nat)
    requires AckAt(own.part, own.owner, peer) !in t.acks
    requires forall i :: 0 <= i < |controls| ==> controls[i].peer != peer
    ensures !ShouldRetry(ReceiveAll(t, own, controls), own.part, own.owner, peer, current)
    decreases |controls|
  {
    if controls != [] {
      var r := Receive(t, Some(own), controls[0].peer, controls[0].payload);
      assert r.Done? ==> AckAt(own.part, own.owner, peer) !in r.tables.acks;
      assert forall i :: 0 <= i < |controls| - 1 ==> controls[1..][i] == controls[i + 1];
      StrangersAreNotRetried(if r.Done? then r.tables else t, own, controls[1..], peer, current);
    }
  }

  /** Whatever any peer sends, it cannot acknowledge past our current revision. */
  lemma NoPreAcknowledgement(t: Tables, own: Own, peer: Key, payload: Payload, at: AckAt)
    requires Receive(t, Some(own), peer, payload).Done?
    ensures var t' := Receive(t, Some(own), peer, payload).tables;
            at in t'.acks && t'.acks[at].Some? ==>
              (at in t.acks && t'.acks[at] == t.acks[at])
              || (at == AckAt(own.part, own.owner, peer) && t'.acks[at].value <= own.revision)
  {
  }

  // ---- Two devices ----------------------------------------------------------------------------

  datatype Side = A | B

  datatype Node = Node(key: Key, revision: nat, tables: Tables)

  datatype Packet = Packet(to: Side, payload: Payload)

  /** One part of two devices' profiles and the controls between them, in no particular order. */
  datatype World = World(part: Part, a: Node, b: Node, flight: seq<Packet>)

  datatype Move =
    | Deliver(i: nat)
    | Repeat(i: nat)             // delivered, and still to be delivered again
    | Lose(i: nat)
    | Probe(side: Side)
    | Edit(side: Side, revision: nat)

  function Other(side: Side): Side {
    match side case A => B case B => A
  }

  function At(w: World, side: Side): Node {
    match side case A => w.a case B => w.b
  }

  function Put(w: World, side: Side, node: Node): World {
    match side case A => w.(a := node) case B => w.(b := node)
  }

  predicate Enabled(w: World, m: Move) {
    match m
    case Deliver(i) => i < |w.flight|
    case Repeat(i) => i < |w.flight|
    case Lose(i) => i < |w.flight|
    case Probe(_) => true
    case Edit(side, revision) => At(w, side).revision < revision <= I64_MAX
  }

  function Drop(flight: seq<Packet>, i: nat): seq<Packet>
    requires i < |flight|
  {
    flight[..i] + flight[i + 1..]
  }

  function Addressed(to: Side, payloads: seq<Payload>): seq<Packet> {
    seq(|payloads|, i requires 0 <= i < |payloads| => Packet(to, payloads[i]))
  }

  function Reaction(w: World, p: Packet): Result {
    var node := At(w, p.to);
    Receive(node.tables, Some(Own(node.key, w.part, node.revision)), At(w, Other(p.to)).key, p.payload)
  }

  function Take(w: World, p: Packet): World {
    match Reaction(w, p)
    case Failed => w
    case Done(tables, _, responses) =>
      Put(w, p.to, At(w, p.to).(tables := tables)).(flight := w.flight + Addressed(Other(p.to), responses))
  }

  function Next(w: World, m: Move): World
    requires Enabled(w, m)
  {
    match m
    case Deliver(i) => Take(w.(flight := Drop(w.flight, i)), w.flight[i])
    case Repeat(i) => Take(w, w.flight[i])
    case Lose(i) => w.(flight := Drop(w.flight, i))
    case Probe(side) =>
      w.(flight := w.flight + [Packet(Other(side), Sync(w.part, Stored(w, Other(side)), false))])
    case Edit(side, revision) => Put(w, side, At(w, side).(revision := revision))
  }

  predicate CanRun(w: World, ms: seq<Move>)
    decreases |ms|
  {
    ms == [] || (Enabled(w, ms[0]) && CanRun(Next(w, ms[0]), ms[1..]))
  }

  function Run(w: World, ms: seq<Move>): World
    requires CanRun(w, ms)
    decreases |ms|
  {
    if ms == [] then w else Run(Next(w, ms[0]), ms[1..])
  }

  /** What the other device stores of `side`'s part. */
  function Stored(w: World, side: Side): Option<nat> {
    KnownRevision(At(w, Other(side)).tables, w.part, At(w, side).key)
  }

  /** What `side` recorded of the other device's acknowledgements. */
  function Recorded(w: World, side: Side): Option<Option<nat>> {
    AckRow(At(w, side).tables, AckAt(w.part, At(w, side).key, At(w, Other(side)).key))
  }

  predicate AtMost(r: nat, o: Option<nat>) {
    o.Some? && r <= o.value
  }

  predicate PacketOk(w: World, p: Packet) {
    && p.payload.part == w.part
    && match p.payload
       case Update(_, revision, valid) => valid && revision <= At(w, Other(p.to)).revision
       case Ack(_, revision) => AtMost(revision, Stored(w, p.to))
       case Sync(_, known, _) => known.Some? ==> AtMost(known.value, Stored(w, p.to))
  }

  predicate SideOk(w: World, side: Side) {
    && At(w, side).revision <= I64_MAX
    && (Stored(w, side).Some? ==> Stored(w, side).value <= At(w, side).revision)
    && (Recorded(w, side).Some? && Recorded(w, side).value.Some? ==> AtMost(Recorded(w, side).value.value, Stored(w, side)))
  }

  predicate Inv(w: World) {
    && w.a.key != w.b.key
    && SideOk(w, A) && SideOk(w, B)
    && forall i :: 0 <= i < |w.flight| ==> PacketOk(w, w.flight[i])
  }

  /** Two devices that have exchanged nothing yet. */
  function Strangers(part: Part, a: Key, revisionA: nat, b: Key, revisionB: nat): World {
    World(part, Node(a, revisionA, Tables(map[], map[])), Node(b, revisionB, Tables(map[], map[])), [])
  }

  lemma StrangersHold(part: Part, a: Key, revisionA: nat, b: Key, revisionB: nat)
    requires a != b && revisionA <= I64_MAX && revisionB <= I64_MAX
    ensures Inv(Strangers(part, a, revisionA, b, revisionB))
  {
  }

  /** Revisions, and stored copies, only move forward. */
  predicate Forward(w: World, n: World) {
    && n.part == w.part && n.a.key == w.a.key && n.b.key == w.b.key
    && n.a.revision >= w.a.revision && n.b.revision >= w.b.revision
    && (Stored(w, A).Some? ==> AtMost(Stored(w, A).value, Stored(n, A)))
    && (Stored(w, B).Some? ==> AtMost(Stored(w, B).value, Stored(n, B)))
  }

  lemma PacketStaysOk(w: World, n: World, p: Packet)
    requires PacketOk(w, p) && Forward(w, n)
    ensures PacketOk(n, p)
  {
  }

  /** What every honest control has in common: it is taken, moves nothing back, and touches neither
      the receiver's copy at its peer nor the peer's own receipts. */
  predicate Taken(w: World, p: Packet, n: World) {
    var x, y := p.to, Other(p.to);
    && Reaction(w, p).Done?
    && n.part == w.part && n.a.key == w.a.key && n.b.key == w.b.key
    && n.a.revision == w.a.revision && n.b.revision == w.b.revision
    && n.flight == w.flight + Addressed(y, Reaction(w, p).responses)
    && Stored(n, x) == Stored(w, x) && Recorded(n, y) == Recorded(w, y)
  }

  predicate Honest(w: World, p: Packet) {
    w.a.key != w.b.key && SideOk(w, A) && SideOk(w, B) && PacketOk(w, p)
  }

  predicate UpdateTaken(w: World, p: Packet, n: World)
    requires p.payload.Update?
  {
    var y := Other(p.to);
    && Taken(w, p, n)
    && Stored(n, y) == Some(if Stored(w, y).Some? then Max(Stored(w, y).value, p.payload.revision) else p.payload.revision)
    && Recorded(n, p.to) == Recorded(w, p.to)
    && Reaction(w, p).responses == [Ack(w.part, Stored(n, y).value)]
  }

  lemma UpdateEffect(w: World, p: Packet)
    requires Honest(w, p) && p.payload.Update?
    ensures UpdateTaken(w, p, Take(w, p))
  {
    match p.to { case A => case B => }
  }

  predicate AckTaken(w: World, p: Packet, n: World)
    requires p.payload.Ack?
  {
    && Taken(w, p, n)
    && Stored(n, Other(p.to)) == Stored(w, Other(p.to))
    && Recorded(n, p.to) == Acknowledged(Recorded(w, p.to), p.payload.revision, At(w, p.to).revision)
    && Reaction(w, p).responses == []
  }

  lemma AckEffect(w: World, p: Packet)
    requires Honest(w, p) && p.payload.Ack?
    ensures AckTaken(w, p, Take(w, p))
  {
    match p.to { case A => case B => }
  }

  predicate SyncTaken(w: World, p: Packet, n: World)
    requires p.payload.Sync?
  {
    var x, y := p.to, Other(p.to);
    var known := p.payload.known;
    && Taken(w, p, n)
    && Stored(n, y) == Stored(w, y)
    && Recorded(n, x).Some?
    && (Recorded(n, x).value.Some? ==>
          AtMost(Recorded(n, x).value.value, known) || Recorded(n, x) == Recorded(w, x))
    && (known == Some(At(w, x).revision) ==> Recorded(n, x) == Some(known))
    && Reaction(w, p).responses ==
       (if p.payload.reply then [] else [Sync(w.part, Stored(w, y), true)])
       + (if known == Some(At(w, x).revision) then [] else [Update(w.part, At(w, x).revision, true)])
  }

  lemma SyncEffect(w: World, p: Packet)
    requires Honest(w, p) && p.payload.Sync?
    ensures SyncTaken(w, p, Take(w, p))
  {
    match p.to { case A => case B => }
  }

  lemma TakeEffect(w: World, p: Packet)
    requires Honest(w, p)
    ensures p.payload.Update? ==> UpdateTaken(w, p, Take(w, p))
    ensures p.payload.Ack? ==> AckTaken(w, p, Take(w, p))
    ensures p.payload.Sync? ==> SyncTaken(w, p, Take(w, p))
    ensures Taken(w, p, Take(w, p)) && Forward(w, Take(w, p))
  {
    match p.payload {
      case Update(_, _, _) => UpdateEffect(w, p);
      case Ack(_, _) => AckEffect(w, p);
      case Sync(_, _, _) => SyncEffect(w, p);
    }
  }

  lemma TakeKeeps(w: World, p: Packet)
    requires Inv(w) && PacketOk(w, p)
    ensures Inv(Take(w, p)) && Forward(w, Take(w, p))
  {
    TakeEffect(w, p);
    var n := Take(w, p);
    forall i | 0 <= i < |n.flight|
      ensures PacketOk(n, n.flight[i])
    {
      if i < |w.flight| {
        PacketStaysOk(w, n, w.flight[i]);
      }
    }
  }

  lemma DropOk(w: World, i: nat)
    requires Inv(w) && i < |w.flight|
    ensures Inv(w.(flight := Drop(w.flight, i)))
  {
    var n := w.(flight := Drop(w.flight, i));
    forall j | 0 <= j < |n.flight|
      ensures PacketOk(n, n.flight[j])
    {
      assert n.flight[j] == w.flight[if j < i then j else j + 1];
      PacketStaysOk(w, n, n.flight[j]);
    }
  }

  lemma StepKeeps(w: World, m: Move)
    requires Inv(w) && Enabled(w, m)
    ensures Inv(Next(w, m)) && Forward(w, Next(w, m))
  {
    var n := Next(w, m);
    match m {
      case Deliver(i) =>
        DropOk(w, i);
        var left := w.(flight := Drop(w.flight, i));
        PacketStaysOk(w, left, w.flight[i]);
        TakeKeeps(left, w.flight[i]);
      case Repeat(i) => TakeKeeps(w, w.flight[i]);
      case Lose(i) => DropOk(w, i);
      case Probe(side) =>
        forall i | 0 <= i < |n.flight| ensures PacketOk(n, n.flight[i]) {
          if i < |w.flight| {
            PacketStaysOk(w, n, w.flight[i]);
          }
        }
      case Edit(_, _) =>
        forall i | 0 <= i < |n.flight| ensures PacketOk(n, n.flight[i]) {
          PacketStaysOk(w, n, w.flight[i]);
        }
    }
  }

  lemma {:induction false} RunKeeps(w: World, ms: seq<Move>)
    requires Inv(w) && CanRun(w, ms)
    ensures Inv(Run(w, ms))
    decreases |ms|
  {
    if ms != [] {
      StepKeeps(w, ms[0]);
      RunKeeps(Next(w, ms[0]), ms[1..]);
    }
  }

  /** Over any run of controls reordered, repeated or lost, and edits: a recorded acknowledgement
      never exceeds what the peer stores, nor the owner's current revision. */
  lemma ReceiptsAreTrue(w: World, ms: seq<Move>, side: Side)
    requires Inv(w) && CanRun(w, ms)
    ensures var n := Run(w, ms);
            Recorded(n, side).Some? && Recorded(n, side).value.Some? ==>
              && AtMost(Recorded(n, side).value.value, Stored(n, side))
              && Recorded(n, side).value.value <= At(n, side).revision
  {
    RunKeeps(w, ms);
  }

  // ---- A probe ends, and repairs both sides -----------------------------------------------------

  /** How many deliveries a control can still cause, itself included. */
  function Weight(p: Payload): nat {
    match p
    case Ack(_, _) => 1
    case Update(_, _, _) => 2
    case Sync(_, _, reply) => if reply then 3 else 6
  }

  function Total(flight: seq<Packet>): nat
    decreases |flight|
  {
    if flight == [] then 0 else Total(flight[..|flight| - 1]) + Weight(flight[|flight| - 1].payload)
  }

  lemma {:induction false} TotalAdds(a: seq<Packet>, b: seq<Packet>)
    ensures Total(a + b) == Total(a) + Total(b)
    decreases |b|
  {
    if b == [] {
      assert a + b == a;
    } else {
      assert (a + b)[..|a + b| - 1] == a + b[..|b| - 1];
      TotalAdds(a, b[..|b| - 1]);
    }
  }

  lemma TotalOne(p: Packet)
    ensures Total([p]) == Weight(p.payload)
  {
    assert [p][..0] == [];
  }

  lemma {:induction false} TotalAround(before: seq<Packet>, p: Packet, after: seq<Packet>)
    ensures Total(before + ([p] + after)) == Total(before + after) + Weight(p.payload)
  {
    TotalAdds(before, [p] + after);
    TotalAdds([p], after);
    TotalOne(p);
    TotalAdds(before, after);
  }

  lemma {:induction false} TotalDrop(flight: seq<Packet>, i: nat)
    requires i < |flight|
    ensures Total(flight) == Total(Drop(flight, i)) + Weight(flight[i].payload)
  {
    var before, p, after := flight[..i], flight[i], flight[i + 1..];
    assert flight == before + ([p] + after);
    TotalAround(before, p, after);
  }

  /** Whatever a device answers weighs less than what it answers to. */
  lemma AnswersWeighLess(w: World, p: Packet)
    ensures Reaction(w, p).Done? ==> Total(Addressed(Other(p.to), Reaction(w, p).responses)) < Weight(p.payload)
  {
    var r := Reaction(w, p);
    if r.Done? {
      var out := Addressed(Other(p.to), r.responses);
      if |out| == 1 {
        assert out == [out[0]];
        TotalOne(out[0]);
      } else if |out| == 2 {
        assert out == [out[0]] + [out[1]];
        TotalAdds([out[0]], [out[1]]);
        TotalOne(out[0]);
        TotalOne(out[1]);
      }
    }
  }

  predicate Deliveries(ms: seq<Move>) {
    forall i :: 0 <= i < |ms| ==> ms[i].Deliver?
  }

  /** No reply loops: a run of deliveries is no longer than the weight in flight. */
  lemma {:induction false} ExchangeEnds(w: World, ms: seq<Move>)
    requires CanRun(w, ms) && Deliveries(ms)
    ensures |ms| + Total(Run(w, ms).flight) <= Total(w.flight)
    decreases |ms|
  {
    if ms != [] {
      var i := ms[0].i;
      var left := w.(flight := Drop(w.flight, i));
      TotalDrop(w.flight, i);
      AnswersWeighLess(left, w.flight[i]);
      var r := Reaction(left, w.flight[i]);
      if r.Done? {
        TotalAdds(left.flight, Addressed(Other(w.flight[i].to), r.responses));
      }
      assert forall j :: 0 <= j < |ms[1..]| ==> ms[1..][j] == ms[j + 1];
      ExchangeEnds(Next(w, ms[0]), ms[1..]);
    }
  }

  predicate SyncDue(w: World, x: Side) {
    exists i :: 0 <= i < |w.flight| && w.flight[i].to == x && w.flight[i].payload.Sync?
  }

  predicate ProbeDue(w: World, y: Side) {
    exists i :: 0 <= i < |w.flight| && w.flight[i].to == y && w.flight[i].payload.Sync? && !w.flight[i].payload.reply
  }

  predicate UpdateDue(w: World, x: Side) {
    exists i :: 0 <= i < |w.flight| && w.flight[i].to == Other(x) && w.flight[i].payload.Update?
                && w.flight[i].payload.revision == At(w, x).revision
  }

  predicate AckDue(w: World, x: Side) {
    exists i :: 0 <= i < |w.flight| && w.flight[i].to == x && w.flight[i].payload.Ack?
                && w.flight[i].payload.revision == At(w, x).revision
  }

  predicate Confirmed(w: World, x: Side) {
    Recorded(w, x) == Some(Some(At(w, x).revision))
  }

  /** Whatever `x`'s peer lacks, and whatever `x` lacks to know it, is on its way. */
  predicate Repairing(w: World, x: Side) {
    && (Stored(w, x) != Some(At(w, x).revision) ==> SyncDue(w, x) || UpdateDue(w, x) || ProbeDue(w, Other(x)))
    && (!Confirmed(w, x) ==> SyncDue(w, x) || UpdateDue(w, x) || AckDue(w, x) || ProbeDue(w, Other(x)))
    && (Recorded(w, x).None? ==> SyncDue(w, x) || ProbeDue(w, Other(x)))
  }

  /** A packet other than the delivered one stays in flight, before the responses. */
  lemma StaysInFlight(w: World, n: World, i: nat, j: nat, out: seq<Packet>) returns (k: nat)
    requires i < |w.flight| && j < |w.flight| && i != j && n.flight == Drop(w.flight, i) + out
    ensures k < |n.flight| && n.flight[k] == w.flight[j]
  {
    k := if j < i then j else j - 1;
  }

  lemma DuesSurvive(w: World, n: World, i: nat, out: seq<Packet>, x: Side)
    requires i < |w.flight| && n.flight == Drop(w.flight, i) + out && At(n, x).revision == At(w, x).revision
    ensures var p := w.flight[i];
            && (SyncDue(w, x) && !(p.to == x && p.payload.Sync?) ==> SyncDue(n, x))
            && (ProbeDue(w, Other(x)) && !(p.to == Other(x) && p.payload.Sync? && !p.payload.reply) ==> ProbeDue(n, Other(x)))
            && (UpdateDue(w, x) && !(p.to == Other(x) && p.payload.Update? && p.payload.revision == At(w, x).revision) ==> UpdateDue(n, x))
            && (AckDue(w, x) && !(p.to == x && p.payload.Ack? && p.payload.revision == At(w, x).revision) ==> AckDue(n, x))
  {
    var p := w.flight[i];
    if SyncDue(w, x) && !(p.to == x && p.payload.Sync?) {
      var j :| 0 <= j < |w.flight| && w.flight[j].to == x && w.flight[j].payload.Sync?;
      var k := StaysInFlight(w, n, i, j, out);
    }
    if ProbeDue(w, Other(x)) && !(p.to == Other(x) && p.payload.Sync? && !p.payload.reply) {
      var j :| 0 <= j < |w.flight| && w.flight[j].to == Other(x) && w.flight[j].payload.Sync? && !w.flight[j].payload.reply;
      var k := StaysInFlight(w, n, i, j, out);
    }
    if UpdateDue(w, x) && !(p.to == Other(x) && p.payload.Update? && p.payload.revision == At(w, x).revision) {
      var j :| 0 <= j < |w.flight| && w.flight[j].to == Other(x) && w.flight[j].payload.Update? && w.flight[j].payload.revision == At(w, x).revision;
      var k := StaysInFlight(w, n, i, j, out);
    }
    if AckDue(w, x) && !(p.to == x && p.payload.Ack? && p.payload.revision == At(w, x).revision) {
      var j :| 0 <= j < |w.flight| && w.flight[j].to == x && w.flight[j].payload.Ack? && w.flight[j].payload.revision == At(w, x).revision;
      var k := StaysInFlight(w, n, i, j, out);
    }
  }

  lemma DeliveryRepairs(w: World, i: nat, x: Side)
    requires Inv(w) && i < |w.flight| && Repairing(w, x)
    ensures Repairing(Next(w, Deliver(i)), x)
  {
    if w.flight[i].to == x {
      OwnerRepairs(w, i, x);
    } else {
      PeerRepairs(w, i, x);
    }
  }

  /** `x` takes a packet: a sync that shows its peer behind sets off its update. */
  lemma OwnerRepairs(w: World, i: nat, x: Side)
    requires Inv(w) && i < |w.flight| && Repairing(w, x) && w.flight[i].to == x
    ensures Repairing(Next(w, Deliver(i)), x)
  {
    var p := w.flight[i];
    var left := w.(flight := Drop(w.flight, i));
    DropOk(w, i);
    assert PacketOk(left, p);
    TakeEffect(left, p);
    var n := Next(w, Deliver(i));
    var out := Addressed(Other(x), Reaction(left, p).responses);
    DuesSurvive(w, n, i, out, x);
    if p.payload.Sync? && p.payload.known != Some(At(w, x).revision) {
      var last := |n.flight| - 1;
      assert n.flight[last] == out[|out| - 1] == Packet(Other(x), Update(w.part, At(w, x).revision, true));
      assert UpdateDue(n, x);
    }
  }

  /** `x`'s peer takes a packet: an update is acknowledged and a probe answered with a sync. */
  lemma PeerRepairs(w: World, i: nat, x: Side)
    requires Inv(w) && i < |w.flight| && Repairing(w, x) && w.flight[i].to != x
    ensures Repairing(Next(w, Deliver(i)), x)
  {
    var p := w.flight[i];
    var left := w.(flight := Drop(w.flight, i));
    DropOk(w, i);
    assert PacketOk(left, p);
    TakeEffect(left, p);
    var n := Next(w, Deliver(i));
    var out := Addressed(x, Reaction(left, p).responses);
    DuesSurvive(w, n, i, out, x);
    var base := |left.flight|;
    if p.payload.Update? && p.payload.revision == At(w, x).revision {
      assert n.flight[base] == out[0] == Packet(x, Ack(w.part, At(w, x).revision));
      assert AckDue(n, x);
    }
    if p.payload.Sync? && !p.payload.reply {
      assert n.flight[base] == out[0];
      assert SyncDue(n, x);
    }
  }

  lemma {:induction false} DeliveriesRepair(w: World, ms: seq<Move>)
    requires Inv(w) && CanRun(w, ms) && Deliveries(ms) && Repairing(w, A) && Repairing(w, B)
    ensures var n := Run(w, ms);
            Inv(n) && Repairing(n, A) && Repairing(n, B) && n.a.revision == w.a.revision && n.b.revision == w.b.revision
    decreases |ms|
  {
    if ms != [] {
      StepKeeps(w, ms[0]);
      DeliveryRepairs(w, ms[0].i, A);
      DeliveryRepairs(w, ms[0].i, B);
      assert forall j :: 0 <= j < |ms[1..]| ==> ms[1..][j] == ms[j + 1];
      DeliveriesRepair(Next(w, ms[0]), ms[1..]);
    }
  }

  lemma ProbeStarts(w: World, side: Side)
    requires Inv(w)
    ensures var probed := Next(w, Probe(side));
            && Inv(probed) && Repairing(probed, A) && Repairing(probed, B)
            && Total(probed.flight) <= Total(w.flight) + 6
            && probed.a.revision == w.a.revision && probed.b.revision == w.b.revision
  {
    var probed := Next(w, Probe(side));
    StepKeeps(w, Probe(side));
    var last := |w.flight|;
    assert probed.flight[last].to == Other(side) && probed.flight[last].payload.Sync? && !probed.flight[last].payload.reply;
    assert SyncDue(probed, Other(side)) && ProbeDue(probed, Other(side));
    TotalAdds(w.flight, [probed.flight[last]]);
    TotalOne(probed.flight[last]);
  }

  /** With nothing in flight, nothing is left to repair. */
  lemma QuietIsRepaired(n: World, x: Side)
    requires Repairing(n, x) && n.flight == []
    ensures Stored(n, x) == Some(At(n, x).revision) && Confirmed(n, x)
    ensures !ShouldRetry(At(n, x).tables, n.part, At(n, x).key, At(n, Other(x)).key, At(n, x).revision)
  {
  }

  /** One reconnect probe from either side of a pair in any honest state, every control delivered in
      any order until both are quiet: at most 6 deliveries if nothing else was on its way, each side
      stores the other's current revision, and neither should retry. */
  lemma ProbeConverges(w: World, side: Side, ms: seq<Move>)
    requires Inv(w)
    requires var probed := Next(w, Probe(side)); CanRun(probed, ms) && Deliveries(ms) && Run(probed, ms).flight == []
    ensures |ms| <= Total(w.flight) + 6
    ensures var n := Run(Next(w, Probe(side)), ms);
            && Stored(n, A) == Some(w.a.revision) && Stored(n, B) == Some(w.b.revision)
            && Confirmed(n, A) && !ShouldRetry(n.a.tables, n.part, n.a.key, n.b.key, n.a.revision)
            && Confirmed(n, B) && !ShouldRetry(n.b.tables, n.part, n.b.key, n.a.key, n.b.revision)
  {
    ProbeStarts(w, side);
    var probed := Next(w, Probe(side));
    DeliveriesRepair(probed, ms);
    ExchangeEnds(probed, ms);
    var n := Run(probed, ms);
    QuietIsRepaired(n, A);
    QuietIsRepaired(n, B);
  }
}
