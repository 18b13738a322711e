/**
 The adaptive jitter buffer (libcore/src/call/audio.rs), with the Opus decoder left abstract: a pop
 says which packet it plays, or what it has to recover or conceal a lost one from.
 */
module Jitter {
  import opened Common

  type Packet = seq<bv8>

  const MIN_DEPTH: nat := 2
  const MAX_DEPTH: nat := 10

  datatype Item = Item(seqNo: nat, packet: Packet)

  /** `queue` is keyed by extended sequence number; clocks are in milliseconds. */
  datatype Buffer = Buffer(queue: map<nat, Packet>, next: Option<nat>, highest: nat, depth: nat,
                           deepSince: Option<nat>, sinceChange: nat)

  const Fresh := Buffer(map[], None, 0, MIN_DEPTH, None, 0)

  datatype Frame =
    | Hold                                        // silence: not started, or the sender is quiet
    | Play(seqNo: nat, packet: Packet)
    | Lost(seqNo: nat, following: Option<Packet>) // recovered from the next packet, or concealed

  predicate IsLeast(k: nat, keys: set<nat>) {
    k in keys && forall j :: j in keys ==> k <= j
  }

  lemma {:induction false} LeastExists(keys: set<nat>) returns (k: nat)
    requires keys != {}
    ensures IsLeast(k, keys)
    decreases |keys|
  {
    k :| k in keys;
    var rest := keys - {k};
    assert forall j :: j in keys ==> j == k || j in rest;
    if rest != {} {
      var m := LeastExists(rest);
      k := if k < m then k else m;
    }
  }

  function Least(keys: set<nat>): (k: nat)
    requires keys != {}
    ensures IsLeast(k, keys)
  {
    assert exists k :: IsLeast(k, keys) by {
      var k := LeastExists(keys);
    }
    var k :| IsLeast(k, keys);
    k
  }

  function FirstKey(queue: map<nat, Packet>): Option<nat> {
    if queue.Keys == {} then None else Some(Least(queue.Keys))
  }

  /** A runaway backlog loses its oldest packets. */
  function Trim(queue: map<nat, Packet>, next: Option<nat>): (map<nat, Packet>, Option<nat>)
    decreases |queue|
  {
    if |queue| <= MAX_DEPTH + 2 then (queue, next)
    else
      var left := queue - {Least(queue.Keys)};
      SmallerQueue(queue, Least(queue.Keys));
      Trim(left, FirstKey(left))
  }

  lemma SmallerQueue(queue: map<nat, Packet>, k: nat)
    requires k in queue
    ensures |queue - {k}| == |queue| - 1
  {
    assert (queue - {k}).Keys == queue.Keys - {k};
    assert |queue - {k}| == |(queue - {k}).Keys| && |queue| == |queue.Keys|;
  }

  predicate IsLate(b: Buffer, seqNo: nat) {
    b.next.Some? && seqNo < b.next.value
  }

  predicate Resyncs(b: Buffer, seqNo: nat) {
    b.next.Some? && seqNo > b.next.value + 50
  }

  function Push(b: Buffer, seqNo: nat, packet: Packet): Buffer {
    var seen := b.(highest := Max(b.highest, seqNo));
    if IsLate(b, seqNo) then
      if b.depth < MAX_DEPTH && b.sinceChange > 10 then seen.(depth := b.depth + 1, sinceChange := 0) else seen
    else
      var queue := if Resyncs(b, seqNo) then map[] else b.queue;
      var next := if Resyncs(b, seqNo) then Some(seqNo) else b.next;
      var (kept, at) := Trim(queue[seqNo := packet], next);
      seen.(queue := kept, next := at)
  }

  function Slot(b: Buffer): Option<nat> {
    if b.next.Some? then b.next else FirstKey(b.queue)
  }

  /** Not started yet, or nothing to play and nothing known to be missing. */
  predicate Holds(b: Buffer) {
    var slot := Slot(b);
    slot.None?
    || (b.next.None? && |b.queue| < b.depth)
    || (b.queue == map[] && slot.value > b.highest)
  }

  /** The delay after a pop: two seconds of too deep a buffer shed one frame. */
  function Shed(b: Buffer, clock: nat): Buffer {
    var counted := b.(sinceChange := b.sinceChange + 1);
    if |b.queue| > b.depth + 1 then
      var since := if b.deepSince.Some? then b.deepSince.value else clock;
      if since <= clock && (clock - since) / 1_000 >= 2 && b.depth > MIN_DEPTH then
        counted.(depth := b.depth - 1, sinceChange := 0, deepSince := None)
      else counted.(deepSince := Some(since))
    else counted.(deepSince := None)
  }

  function Pop(b: Buffer, clock: nat): (Buffer, Frame) {
    var slot := Slot(b);
    if Holds(b) then
      (if slot.Some? && !(b.next.None? && |b.queue| < b.depth) then b.(next := slot) else b, Hold)
    else
      var at := slot.value;
      var shed := Shed(b.(next := slot), clock).(next := Some(at + 1));
      if at in b.queue then (shed.(queue := b.queue - {at}), Play(at, b.queue[at]))
      else (shed, Lost(at, if at + 1 in b.queue then Some(b.queue[at + 1]) else None))
  }

  /** The buffer as the audio path keeps it. */
  class Jitter {
    var queue: map<nat, Packet>
    var next: Option<nat>
    var highest: nat
    var depth: nat
    var deepSince: Option<nat>
    var sinceChange: nat

    constructor ()
      ensures Now() == Fresh
    {
      queue, next, highest, depth, deepSince, sinceChange := map[], None, 0, MIN_DEPTH, None, 0;
    }

    function Now(): Buffer
      reads this
    {
      Buffer(queue, next, highest, depth, deepSince, sinceChange)
    }

    method PushPacket(seqNo: nat, packet: Packet)
      modifies this
      ensures Now() == Push(old(Now()), seqNo, packet)
    {
      if highest < seqNo {
        highest := seqNo;
      }
      if next.Some? {
        if seqNo < next.value {
          if depth < MAX_DEPTH && sinceChange > 10 {
            depth := depth + 1;
            sinceChange := 0;
          }
          return;
        }
        if seqNo > next.value + 50 {
          queue := map[];
          next := Some(seqNo);
        }
      }
      queue := queue[seqNo := packet];
      ghost var before := Now();
      while |queue| > MAX_DEPTH + 2
        invariant Now() == before.(queue := queue, next := next)
        invariant Trim(before.queue, before.next) == Trim(queue, next)
        decreases |queue|
      {
        var first := Least(queue.Keys);
        SmallerQueue(queue, first);
        queue := queue - {first};
        next := FirstKey(queue);
      }
    }

    method ShedDepth(clock: nat)
      modifies this`depth, this`deepSince, this`sinceChange
      ensures Now() == Shed(old(Now()), clock)
    {
      sinceChange := sinceChange + 1;
      if |queue| > depth + 1 {
        if deepSince.None? {
          deepSince := Some(clock);
        }
        var since := deepSince.value;
        if since <= clock && (clock - since) / 1_000 >= 2 && depth > MIN_DEPTH {
          depth := depth - 1;
          sinceChange := 0;
          deepSince := None;
        }
      } else {
        deepSince := None;
      }
    }

    method PopFrame(clock: nat) returns (frame: Frame)
      modifies this
      ensures (Now(), frame) == Pop(old(Now()), clock)
      ensures Inv(old(Now())) ==> IsDue(old(Now()), frame)
    {
      if Inv(Now()) {
        PopsWhatIsDue(Now(), clock);
      }
      var slot := if next.Some? then next else FirstKey(queue);
      if slot.None? {
        return Hold;
      }
      var at := slot.value;
      if next.None? {
        if |queue| < depth {
          return Hold;
        }
        next := Some(at);
      }
      if queue == map[] && at > highest {
        return Hold;
      }
      ShedDepth(clock);
      if at in queue {
        frame := Play(at, queue[at]);
        queue := queue - {at};
      } else {
        frame := Lost(at, if at + 1 in queue then Some(queue[at + 1]) else None);
      }
      next := Some(at + 1);
    }
  }

  // ---- Playout invariants -----------------------------------------------------------------------

  predicate Inv(b: Buffer) {
    && (forall k :: k in b.queue ==> k <= b.highest && (b.next.Some? ==> b.next.value <= k))
    && (b.next.Some? ==> b.next.value <= b.highest + 1)
    && |b.queue| <= MAX_DEPTH + 2
    && MIN_DEPTH <= b.depth <= MAX_DEPTH
  }

  /** Playback starts once and never steps back. */
  predicate Onward(b: Buffer, n: Buffer) {
    b.next.Some? ==> n.next.Some? && b.next.value <= n.next.value
  }

  /** A trimmed queue keeps its newest packets and starts playback at the oldest of them. */
  lemma {:induction false} TrimKeepsNewest(queue: map<nat, Packet>, next: Option<nat>)
    requires forall k :: k in queue && next.Some? ==> next.value <= k
    ensures var (kept, at) := Trim(queue, next);
            && |kept| <= MAX_DEPTH + 2
            && kept.Keys <= queue.Keys && (forall k :: k in kept ==> kept[k] == queue[k])
            && (forall k, j :: k in kept && j in queue && j !in kept ==> j < k)
            && (|queue| <= MAX_DEPTH + 2 ==> kept == queue && at == next)
            && (|queue| > MAX_DEPTH + 2 ==> kept != map[] && at == FirstKey(kept))
            && (next.Some? ==> at.Some? && next.value <= at.value)
            && (forall k :: k in kept && at.Some? ==> at.value <= k)
    decreases |queue|
  {
    if |queue| > MAX_DEPTH + 2 {
      var first := Least(queue.Keys);
      var left := queue - {first};
      SmallerQueue(queue, first);
      assert |left| > 0;
      assert left.Keys != {};
      TrimKeepsNewest(left, FirstKey(left));
    }
  }

  lemma PushKeeps(b: Buffer, seqNo: nat, packet: Packet)
    requires Inv(b)
    ensures Inv(Push(b, seqNo, packet)) && Onward(b, Push(b, seqNo, packet))
  {
    if !IsLate(b, seqNo) {
      var queue := if Resyncs(b, seqNo) then map[] else b.queue;
      var next := if Resyncs(b, seqNo) then Some(seqNo) else b.next;
      TrimKeepsNewest(queue[seqNo := packet], next);
    }
  }

  lemma PopKeeps(b: Buffer, clock: nat)
    requires Inv(b)
    ensures var (n, frame) := Pop(b, clock);
            && Inv(n) && Onward(b, n)
            && (!frame.Hold? ==> n.next == Some(frame.seqNo + 1) && (b.next.Some? ==> b.next.value <= frame.seqNo))
  {
    if !Holds(b) && Slot(b).value in b.queue {
      SmallerQueue(b.queue, Slot(b).value);
    }
  }

  /** A packet newer than every one received is never taken for late. */
  lemma NewestIsNeverLate(b: Buffer, seqNo: nat)
    requires Inv(b) && seqNo > b.highest
    ensures !IsLate(b, seqNo)
  {
  }

  datatype Op = PushOp(seqNo: nat, packet: Packet) | PopOp(clock: nat)

  function Apply(b: Buffer, op: Op): Buffer {
    match op case PushOp(seqNo, packet) => Push(b, seqNo, packet) case PopOp(clock) => Pop(b, clock).0
  }

  function Run(b: Buffer, ops: seq<Op>): Buffer
    decreases |ops|
  {
    if ops == [] then b else Run(Apply(b, ops[0]), ops[1..])
  }

  /** Sequence numbers played by a run, in order. */
  function Played(b: Buffer, ops: seq<Op>): seq<nat>
    decreases |ops|
  {
    if ops == [] then []
    else
      var rest := Played(Apply(b, ops[0]), ops[1..]);
      if ops[0].PopOp? && Pop(b, ops[0].clock).1.Play? then [Pop(b, ops[0].clock).1.seqNo] + rest else rest
  }

  /** Slots of playback used up by a run, in order, whether their packet was played or lost. */
  function Slots(b: Buffer, ops: seq<Op>): seq<nat>
    decreases |ops|
  {
    if ops == [] then []
    else
      var rest := Slots(Apply(b, ops[0]), ops[1..]);
      if ops[0].PopOp? && !Pop(b, ops[0].clock).1.Hold? then [Pop(b, ops[0].clock).1.seqNo] + rest else rest
  }

  predicate Rising(s: seq<nat>) {
    forall i, j :: 0 <= i < j < |s| ==> s[i] < s[j]
  }

  lemma {:induction false} PlayoutInOrder(b: Buffer, ops: seq<Op>)
    requires Inv(b)
    ensures Inv(Run(b, ops)) && Rising(Slots(b, ops))
    ensures forall i :: 0 <= i < |Slots(b, ops)| && b.next.Some? ==> b.next.value <= Slots(b, ops)[i]
    decreases |ops|
  {
    if ops != [] {
      match ops[0] {
        case PushOp(seqNo, packet) => PushKeeps(b, seqNo, packet);
        case PopOp(clock) => PopKeeps(b, clock);
      }
      PlayoutInOrder(Apply(b, ops[0]), ops[1..]);
    }
  }

  /** What is played is among the slots used up, and in their order. */
  lemma {:induction false} PlayedAmongSlots(b: Buffer, ops: seq<Op>)
    requires Rising(Slots(b, ops))
    ensures Rising(Played(b, ops)) && forall k :: k in Played(b, ops) ==> k in Slots(b, ops)
    decreases |ops|
  {
    if ops != [] {
      var n := Apply(b, ops[0]);
      var rest, played := Slots(n, ops[1..]), Played(n, ops[1..]);
      if Slots(b, ops) == rest {
        PlayedAmongSlots(n, ops[1..]);
      } else {
        var x := Slots(b, ops)[0];
        assert Slots(b, ops) == [x] + rest;
        assert forall i :: 0 <= i < |rest| ==> rest[i] == ([x] + rest)[i + 1];
        PlayedAmongSlots(n, ops[1..]);
        RisingFirst(x, rest, played);
      }
    }
  }

  lemma RisingFirst(x: nat, rest: seq<nat>, some: seq<nat>)
    requires Rising([x] + rest) && Rising(some) && forall k :: k in some ==> k in rest
    ensures Rising([x] + some)
  {
    forall k | k in some
      ensures x < k
    {
      var i :| 0 <= i < |rest| && rest[i] == k;
      assert ([x] + rest)[0] == x && ([x] + rest)[i + 1] == k;
    }
    forall i, j | 0 <= i < j < |[x] + some|
      ensures ([x] + some)[i] < ([x] + some)[j]
    {
      assert ([x] + some)[j] == some[j - 1] && some[j - 1] in some;
      if i > 0 {
        assert ([x] + some)[i] == some[i - 1];
      }
    }
  }

  /** From a fresh buffer, whatever is pushed and popped: the slots used up, played or lost, strictly
      increase, so no slot is lost and played later; played numbers strictly increase, every
      queued packet is still to be played, the expected number is at most one past the highest
      received, at most 12 packets wait, and the delay stays within 2 and 10 frames. */
  lemma PlayoutHolds(ops: seq<Op>)
    ensures var b := Run(Fresh, ops);
            && Rising(Slots(Fresh, ops)) && Rising(Played(Fresh, ops))
            && (forall k :: k in b.queue && b.next.Some? ==> b.next.value <= k)
            && (b.next.Some? ==> b.next.value <= b.highest + 1)
            && |b.queue| <= 12 && 2 <= b.depth <= 10
  {
    PlayoutInOrder(Fresh, ops);
    PlayedAmongSlots(Fresh, ops);
  }

  // ---- Where every packet goes --------------------------------------------------------------------

  function ItemSet(queue: map<nat, Packet>): set<Item> {
    set k | k in queue :: Item(k, queue[k])
  }

  function Items(queue: map<nat, Packet>): multiset<Item> {
    multiset(ItemSet(queue))
  }

  /** The fates of packets over a run. */
  datatype Books = Books(accepted: multiset<Item>, played: multiset<Item>, overwritten: multiset<Item>,
                         resynced: multiset<Item>, trimmed: multiset<Item>)

  const Blank := Books(multiset{}, multiset{}, multiset{}, multiset{}, multiset{})

  function Without(queue: map<nat, Packet>, kept: map<nat, Packet>): map<nat, Packet> {
    queue - kept.Keys
  }

  function Entry(b: Buffer, op: Op): Books {
    match op
    case PopOp(clock) =>
      (match Pop(b, clock).1
       case Play(seqNo, packet) => Blank.(played := multiset{Item(seqNo, packet)})
       case _ => Blank)
    case PushOp(seqNo, packet) =>
      if IsLate(b, seqNo) then Blank
      else
        var base := if Resyncs(b, seqNo) then map[] else b.queue;
        Books(multiset{Item(seqNo, packet)}, multiset{},
              if seqNo in base then multiset{Item(seqNo, base[seqNo])} else multiset{},
              if Resyncs(b, seqNo) then Items(b.queue) else multiset{},
              Items(Without(base[seqNo := packet], Push(b, seqNo, packet).queue)))
  }

  function Sum(a: Books, b: Books): Books {
    Books(a.accepted + b.accepted, a.played + b.played, a.overwritten + b.overwritten,
          a.resynced + b.resynced, a.trimmed + b.trimmed)
  }

  function Fates(b: Buffer, ops: seq<Op>): Books
    decreases |ops|
  {
    if ops == [] then Blank else Sum(Entry(b, ops[0]), Fates(Apply(b, ops[0]), ops[1..]))
  }

  /** How many copies of `it` met one of the four ends. */
  function Spent(e: Books, it: Item): nat {
    e.played[it] + e.overwritten[it] + e.resynced[it] + e.trimmed[it]
  }

  lemma InQueue(queue: map<nat, Packet>, it: Item)
    ensures it in ItemSet(queue) <==> it.seqNo in queue && queue[it.seqNo] == it.packet
    ensures Items(queue)[it] == if it.seqNo in queue && queue[it.seqNo] == it.packet then 1 else 0
  {
    if it.seqNo in queue && queue[it.seqNo] == it.packet {
      assert it == Item(it.seqNo, queue[it.seqNo]);
    }
  }

  /** One step's books balance. */
  lemma StepBalances(b: Buffer, op: Op, it: Item)
    requires Inv(b)
    ensures Items(b.queue)[it] + Entry(b, op).accepted[it] == Items(Apply(b, op).queue)[it] + Spent(Entry(b, op), it)
  {
    match op {
      case PopOp(clock) => PopBalances(b, clock, it);
      case PushOp(seqNo, packet) =>
        if !IsLate(b, seqNo) {
          PushBalances(b, seqNo, packet, it);
        }
    }
  }

  lemma PopBalances(b: Buffer, clock: nat, it: Item)
    requires Inv(b)
    ensures var e := Entry(b, PopOp(clock));
            Items(b.queue)[it] + e.accepted[it] == Items(Pop(b, clock).0.queue)[it] + Spent(e, it)
  {
    var (n, frame) := Pop(b, clock);
    InQueue(b.queue, it);
    InQueue(n.queue, it);
    if frame.Play? {
      assert n.queue == b.queue - {frame.seqNo} && frame.packet == b.queue[frame.seqNo];
    } else {
      assert n.queue == b.queue;
    }
  }

  lemma PushBalances(b: Buffer, seqNo: nat, packet: Packet, it: Item)
    requires Inv(b) && !IsLate(b, seqNo)
    ensures var e := Entry(b, PushOp(seqNo, packet));
            Items(b.queue)[it] + e.accepted[it] == Items(Push(b, seqNo, packet).queue)[it] + Spent(e, it)
  {
    var base := if Resyncs(b, seqNo) then map[] else b.queue;
    var next := if Resyncs(b, seqNo) then Some(seqNo) else b.next;
    TrimKeepsNewest(base[seqNo := packet], next);
    KeptBalances(base, seqNo, packet, Push(b, seqNo, packet).queue, it);
    InQueue(map[], it);
  }

  lemma KeptBalances(base: map<nat, Packet>, seqNo: nat, packet: Packet, kept: map<nat, Packet>, it: Item)
    requires var put := base[seqNo := packet]; kept.Keys <= put.Keys && forall k :: k in kept ==> kept[k] == put[k]
    ensures Items(base)[it] + multiset{Item(seqNo, packet)}[it] ==
            Items(kept)[it] + Items(Without(base[seqNo := packet], kept))[it]
            + (if seqNo in base then multiset{Item(seqNo, base[seqNo])} else multiset{})[it]
  {
    InQueue(base, it);
    InQueue(kept, it);
    InQueue(Without(base[seqNo := packet], kept), it);
  }

  /** Every accepted packet is played, still queued, overwritten by a later copy of its number,
      or dropped by a resync or a backlog: nothing is lost or played twice. */
  lemma {:induction false} EveryPacketAccounted(b: Buffer, ops: seq<Op>, it: Item)
    requires Inv(b)
    ensures Items(b.queue)[it] + Fates(b, ops).accepted[it] == Items(Run(b, ops).queue)[it] + Spent(Fates(b, ops), it)
    decreases |ops|
  {
    if ops != [] {
      StepBalances(b, ops[0], it);
      match ops[0] {
        case PushOp(seqNo, packet) => PushKeeps(b, seqNo, packet);
        case PopOp(clock) => PopKeeps(b, clock);
      }
      EveryPacketAccounted(Apply(b, ops[0]), ops[1..], it);
      SumSpends(Entry(b, ops[0]), Fates(Apply(b, ops[0]), ops[1..]), it);
    }
  }

  lemma SumSpends(a: Books, b: Books, it: Item)
    ensures Spent(Sum(a, b), it) == Spent(a, it) + Spent(b, it)
    ensures Sum(a, b).accepted[it] == a.accepted[it] + b.accepted[it]
  {
  }

  /** A backlog drop happens only past 12 waiting packets, and takes the oldest. */
  lemma BacklogTakesTheOldest(b: Buffer, seqNo: nat, packet: Packet, j: nat)
    requires Inv(b) && !IsLate(b, seqNo)
    requires var base := if Resyncs(b, seqNo) then map[] else b.queue;
             j in Without(base[seqNo := packet], Push(b, seqNo, packet).queue)
    ensures |b.queue| == 12 && !Resyncs(b, seqNo)
    ensures forall k :: k in Push(b, seqNo, packet).queue ==> j < k
  {
    var base := if Resyncs(b, seqNo) then map[] else b.queue;
    var next := if Resyncs(b, seqNo) then Some(seqNo) else b.next;
    var put := base[seqNo := packet];
    TrimKeepsNewest(put, next);
    assert |put| > 12;
    assert put.Keys == base.Keys + {seqNo};
    assert |put| == |put.Keys| && |base| == |base.Keys|;
  }

  // ---- When playback has a position ---------------------------------------------------------------

  /** Before playback has a position, a push gives it one exactly when it overflows a full queue. */
  lemma PushStartsIff(b: Buffer, seqNo: nat, packet: Packet)
    requires Inv(b) && b.next.None?
    ensures Push(b, seqNo, packet).next.Some? <==> |b.queue| == MAX_DEPTH + 2 && seqNo !in b.queue
  {
    var put := b.queue[seqNo := packet];
    TrimKeepsNewest(put, None);
    assert put.Keys == b.queue.Keys + {seqNo};
    assert |put| == |put.Keys| && |b.queue| == |b.queue.Keys|;
  }

  /** Packets `k` up to `n`, pushed in order. */
  function Pushes(k: nat, n: nat, packet: Packet): seq<Op>
    requires k <= n
    decreases n - k
  {
    if k == n then [] else [PushOp(k, packet)] + Pushes(k + 1, n, packet)
  }

  predicate FilledTo(b: Buffer, k: nat) {
    && Inv(b) && b.next.None?
    && |b.queue| == k && (forall i :: i in b.queue ==> i < k)
  }

  lemma PushFills(b: Buffer, k: nat, packet: Packet)
    requires FilledTo(b, k) && k < MAX_DEPTH + 2
    ensures FilledTo(Push(b, k, packet), k + 1)
  {
    PushKeeps(b, k, packet);
    PushStartsIff(b, k, packet);
    var put := b.queue[k := packet];
    TrimKeepsNewest(put, None);
    assert put.Keys == b.queue.Keys + {k};
    assert |put| == |put.Keys| && |b.queue| == |b.queue.Keys|;
  }

  lemma {:induction false} FillingStarts(b: Buffer, k: nat, packet: Packet)
    requires FilledTo(b, k) && k <= MAX_DEPTH + 2
    ensures Run(b, Pushes(k, MAX_DEPTH + 3, packet)).next.Some?
    decreases MAX_DEPTH + 2 - k
  {
    Unrolled(b, PushOp(k, packet), Pushes(k + 1, MAX_DEPTH + 3, packet));
    if k == MAX_DEPTH + 2 {
      PushStartsIff(b, k, packet);
      assert Pushes(k + 1, MAX_DEPTH + 3, packet) == [];
    } else {
      PushFills(b, k, packet);
      FillingStarts(Push(b, k, packet), k + 1, packet);
    }
  }

  /** Thirteen packets and no pop: the position is set although nothing was ever played. */
  lemma BacklogStartsPlayback(packet: Packet)
    ensures Run(Fresh, Pushes(0, 13, packet)).next.Some?
  {
    FillingStarts(Fresh, 0, packet);
  }

  // ---- What is heard ------------------------------------------------------------------------------

  /** The frames a run's pops give, in order. */
  function Frames(b: Buffer, ops: seq<Op>): seq<Frame>
    decreases |ops|
  {
    if ops == [] then []
    else
      var rest := Frames(Apply(b, ops[0]), ops[1..]);
      if ops[0].PopOp? then [Pop(b, ops[0].clock).1] + rest else rest
  }

  lemma {:induction false} FramesSplit(b: Buffer, ops: seq<Op>, more: seq<Op>)
    ensures Run(b, ops + more) == Run(Run(b, ops), more)
    ensures Frames(b, ops + more) == Frames(b, ops) + Frames(Run(b, ops), more)
    decreases |ops|
  {
    if ops == [] {
      assert ops + more == more;
    } else {
      assert (ops + more)[0] == ops[0] && (ops + more)[1..] == ops[1..] + more;
      FramesSplit(Apply(b, ops[0]), ops[1..], more);
    }
  }

  /** Nothing to play and nothing missing, or the first fill has not reached the delay. */
  predicate Quiet(b: Buffer) {
    if b.next.Some? then b.queue == map[] && b.next.value > b.highest else |b.queue| < b.depth
  }

  /** The frame that is due: silence only when it is quiet; the packet of the position if it is queued;
      the loss of the position, with the packet that can repair it if that one is; and at the first
      fill the oldest packet. */
  predicate IsDue(b: Buffer, frame: Frame) {
    if Quiet(b) then frame == Hold
    else match b.next
      case Some(at) =>
        if at in b.queue then frame == Play(at, b.queue[at])
        else frame.Lost? && frame.seqNo == at && (frame.following.Some? <==> at + 1 in b.queue)
             && (at + 1 in b.queue ==> frame.following == Some(b.queue[at + 1]))
      case None => frame.Play? && IsLeast(frame.seqNo, b.queue.Keys) && frame.packet == b.queue[frame.seqNo]
  }

  lemma PopsWhatIsDue(b: Buffer, clock: nat)
    requires Inv(b)
    ensures IsDue(b, Pop(b, clock).1)
  {
    if b.queue.Keys == {} {
      assert b.queue == map[];
    }
  }

  /** Whatever was pushed and popped before, the next pop gives exactly the frame that is due. */
  lemma HeardAsDue(ops: seq<Op>, clock: nat)
    ensures var heard := Frames(Fresh, ops + [PopOp(clock)]);
            && |heard| == |Frames(Fresh, ops)| + 1 && heard[..|heard| - 1] == Frames(Fresh, ops)
            && IsDue(Run(Fresh, ops), heard[|heard| - 1])
  {
    PlayoutInOrder(Fresh, ops);
    var b := Run(Fresh, ops);
    FramesSplit(Fresh, ops, [PopOp(clock)]);
    assert [PopOp(clock)][1..] == [];
    assert Frames(b, [PopOp(clock)]) == [Pop(b, clock).1] + Frames(Apply(b, PopOp(clock)), []);
    PopsWhatIsDue(b, clock);
  }

  /** `order` as the order in which the packets arrive. */
  function Arrivals(order: seq<nat>, packets: map<nat, Packet>): seq<Op>
    requires forall i :: 0 <= i < |order| ==> order[i] in packets
  {
    seq(|order|, i requires 0 <= i < |order| => PushOp(order[i], packets[order[i]]))
  }

  function Pops(clocks: seq<nat>): seq<Op> {
    seq(|clocks|, i requires 0 <= i < |clocks| => PopOp(clocks[i]))
  }

  /** The packets from number `from` on, each played once and in order. */
  ghost function InSequence(from: nat, n: nat, packets: map<nat, Packet>): seq<Frame>
    requires Spans(packets.Keys, from, n)
  {
    seq(n, i requires 0 <= i < n => Play(from + i, packets[from + i]))
  }

  /** The numbers from `from` on, `n` of them. */
  ghost predicate Spans(keys: set<nat>, from: nat, n: nat) {
    forall k :: k in keys <==> from <= k < from + n
  }

  lemma {:induction false} SpanSize(keys: set<nat>, from: nat, n: nat)
    requires Spans(keys, from, n)
    ensures |keys| == n
  {
    if n == 0 {
      assert keys == {};
    } else {
      SpanSize(keys - {from + n - 1}, from, n - 1);
    }
  }

  lemma {:induction false} SubsetSize(a: set<nat>, b: set<nat>)
    requires a <= b
    ensures |a| <= |b|
    decreases |a|
  {
    if a != {} {
      var k :| k in a;
      SubsetSize(a - {k}, b - {k});
    }
  }

  /** Some of the packets are queued and playback has no position. */
  predicate Holding(b: Buffer, keys: set<nat>, packets: map<nat, Packet>) {
    && b.next.None? && b.depth == MIN_DEPTH && b.queue.Keys == keys
    && forall k :: k in b.queue ==> k in packets && b.queue[k] == packets[k]
  }

  lemma PushHolds(b: Buffer, keys: set<nat>, packets: map<nat, Packet>, k: nat)
    requires Holding(b, keys, packets) && k in packets && keys <= packets.Keys && |packets| <= MAX_DEPTH + 2
    ensures Holding(Push(b, k, packets[k]), keys + {k}, packets)
  {
    var put := b.queue[k := packets[k]];
    assert put.Keys == keys + {k};
    SubsetSize(keys + {k}, packets.Keys);
    assert |put| == |put.Keys| && |packets| == |packets.Keys|;
  }

  lemma {:induction false} Unrolled(b: Buffer, op: Op, more: seq<Op>)
    ensures Run(b, [op] + more) == Run(Apply(b, op), more)
    ensures Frames(b, [op] + more) == (if op.PopOp? then [Pop(b, op.clock).1] else []) + Frames(Apply(b, op), more)
  {
    assert ([op] + more)[0] == op && ([op] + more)[1..] == more;
  }

  lemma ArrivalsUnrolled(order: seq<nat>, packets: map<nat, Packet>)
    requires order != [] && forall i :: 0 <= i < |order| ==> order[i] in packets
    ensures forall i :: 0 <= i < |order| - 1 ==> order[1..][i] in packets
    ensures Arrivals(order, packets) == [PushOp(order[0], packets[order[0]])] + Arrivals(order[1..], packets)
  {
    assert forall i :: 0 <= i < |order| - 1 ==> order[1..][i] == order[i + 1];
  }

  /** The numbers that arrived, each once. */
  function Numbers(order: seq<nat>): (keys: set<nat>)
    ensures forall k :: k in keys <==> k in order
  {
    if order == [] then {} else {order[0]} + Numbers(order[1..])
  }

  /** Before playback starts, at most twelve packets are all kept, in whatever order and however often
      they come. */
  lemma {:induction false} KeptUntilStart(b: Buffer, keys: set<nat>, order: seq<nat>, packets: map<nat, Packet>)
    requires Holding(b, keys, packets) && keys <= packets.Keys && |packets| <= MAX_DEPTH + 2
    requires forall i :: 0 <= i < |order| ==> order[i] in packets
    ensures Holding(Run(b, Arrivals(order, packets)), keys + Numbers(order), packets)
    ensures Frames(b, Arrivals(order, packets)) == []
    decreases |order|, 1
  {
    if order == [] {
      assert keys + Numbers(order) == keys;
    } else {
      var op := PushOp(order[0], packets[order[0]]);
      PushHolds(b, keys, packets, order[0]);
      ArrivalsUnrolled(order, packets);
      Unrolled(b, op, Arrivals(order[1..], packets));
      KeptAfter(Apply(b, op), keys, order, packets);
    }
  }

  lemma {:induction false} KeptAfter(n: Buffer, keys: set<nat>, order: seq<nat>, packets: map<nat, Packet>)
    requires order != [] && Holding(n, keys + {order[0]}, packets) && keys <= packets.Keys && |packets| <= MAX_DEPTH + 2
    requires order[0] in packets && forall i :: 0 <= i < |order| - 1 ==> order[1..][i] in packets
    ensures Holding(Run(n, Arrivals(order[1..], packets)), keys + Numbers(order), packets)
    ensures Frames(n, Arrivals(order[1..], packets)) == []
    decreases |order|, 0
  {
    KeptUntilStart(n, keys + {order[0]}, order[1..], packets);
    assert keys + {order[0]} + Numbers(order[1..]) == keys + Numbers(order);
  }

  lemma PlaysFirst(b: Buffer, from: nat, n: nat, clock: nat)
    requires 0 < n && Spans(b.queue.Keys, from, n)
    requires b.next == Some(from) || (b.next.None? && b.depth <= n)
    ensures var (left, frame) := Pop(b, clock);
            && frame == Play(from, b.queue[from])
            && left.next == Some(from + 1) && left.queue == b.queue - {from}
            && Spans(left.queue.Keys, from + 1, n - 1)
  {
    assert from in b.queue.Keys;
    assert b.queue != map[];
    SpanSize(b.queue.Keys, from, n);
    assert |b.queue| == |b.queue.Keys|;
  }

  lemma InSequenceUnrolled(from: nat, n: nat, packets: map<nat, Packet>)
    requires 0 < n && Spans(packets.Keys, from, n)
    ensures Spans((packets - {from}).Keys, from + 1, n - 1)
    ensures InSequence(from, n, packets) == [Play(from, packets[from])] + InSequence(from + 1, n - 1, packets - {from})
  {
  }

  /** Queued packets without a gap are played one a pop, with their bytes. */
  lemma {:induction false} QueuedArePlayed(b: Buffer, from: nat, clocks: seq<nat>)
    requires Spans(b.queue.Keys, from, |clocks|)
    requires b.next == Some(from) || (b.next.None? && b.depth <= |clocks|)
    ensures Frames(b, Pops(clocks)) == InSequence(from, |clocks|, b.queue)
    decreases |clocks|
  {
    if clocks != [] {
      PlaysFirst(b, from, |clocks|, clocks[0]);
      var left := Pop(b, clocks[0]).0;
      assert Pops(clocks) == [PopOp(clocks[0])] + Pops(clocks[1..]);
      Unrolled(b, PopOp(clocks[0]), Pops(clocks[1..]));
      QueuedArePlayed(left, from + 1, clocks[1..]);
      InSequenceUnrolled(from, |clocks|, b.queue);
    }
  }

  /** What the buffer is for: two to twelve packets without a gap, arriving before playback in any order
      and any number of times, are played one a pop, each once, in order and with their bytes. */
  lemma ReordersAndPlaysAll(order: seq<nat>, packets: map<nat, Packet>, from: nat, clocks: seq<nat>)
    requires 2 <= |clocks| <= 12 && Spans(packets.Keys, from, |clocks|)
    requires forall i :: 0 <= i < |order| ==> order[i] in packets
    requires forall k :: k in packets ==> k in order
    ensures Frames(Fresh, Arrivals(order, packets) + Pops(clocks)) == InSequence(from, |clocks|, packets)
  {
    SpanSize(packets.Keys, from, |clocks|);
    assert |packets| == |packets.Keys|;
    KeptUntilStart(Fresh, {}, order, packets);
    var b := Run(Fresh, Arrivals(order, packets));
    assert {} + Numbers(order) == packets.Keys;
    assert b.queue == packets;
    FramesSplit(Fresh, Arrivals(order, packets), Pops(clocks));
    QueuedArePlayed(b, from, clocks);
  }

  // ---- How the delay adapts -----------------------------------------------------------------------

  /** Whether the operation is a pop that gives more than silence. */
  predicate Audible(b: Buffer, op: Op) {
    op.PopOp? && !Quiet(b)
  }

  /** More is queued than the delay asks for. */
  predicate TooDeep(b: Buffer) {
    |b.queue| > b.depth + 1
  }

  /** How many audible pops the run has had since the delay last changed. */
  function Settled(ops: seq<Op>): nat
    decreases |ops|
  {
    if ops == [] then 0
    else
      var before := ops[..|ops| - 1];
      var b := Run(Fresh, before);
      if Run(Fresh, ops).depth != b.depth then 0
      else Settled(before) + if Audible(b, ops[|ops| - 1]) then 1 else 0
  }

  /** When the latest unbroken row of audible pops that found the buffer too deep began, if one lasts;
      a change of the delay by such a pop ends it. */
  function DeepFrom(ops: seq<Op>): Option<nat>
    decreases |ops|
  {
    if ops == [] then None
    else
      var before, last := ops[..|ops| - 1], ops[|ops| - 1];
      var b := Run(Fresh, before);
      if !Audible(b, last) then DeepFrom(before)
      else if !TooDeep(b) || Run(Fresh, ops).depth != b.depth then None
      else if DeepFrom(before).Some? then DeepFrom(before)
      else Some(last.clock)
  }

  lemma {:induction false} HistoryKept(ops: seq<Op>)
    ensures var b := Run(Fresh, ops);
            Inv(b) && b.sinceChange == Settled(ops) && b.deepSince == DeepFrom(ops)
    decreases |ops|
  {
    if ops != [] {
      var before, last := ops[..|ops| - 1], ops[|ops| - 1];
      HistoryKept(before);
      PlayoutInOrder(Fresh, ops);
      assert ops == before + [last];
      OneMore(before, last);
      KeepsCount(Run(Fresh, before), last);
    }
  }

  lemma OneMore(ops: seq<Op>, op: Op)
    ensures Run(Fresh, ops + [op]) == Apply(Run(Fresh, ops), op)
  {
    FramesSplit(Fresh, ops, [op]);
    assert [op] + [] == [op];
    Unrolled(Run(Fresh, ops), op, []);
  }

  lemma KeepsCount(b: Buffer, op: Op)
    requires Inv(b)
    ensures var n := Apply(b, op);
            && n.sinceChange == (if n.depth != b.depth then 0 else b.sinceChange + if Audible(b, op) then 1 else 0)
            && n.deepSince == (if !Audible(b, op) then b.deepSince
                               else if !TooDeep(b) || n.depth != b.depth then None
                               else if b.deepSince.Some? then b.deepSince
                               else Some(op.clock))
  {
    if b.queue.Keys == {} {
      assert b.queue == map[];
    }
  }

  /** Over every run the delay moves by at most one frame a step. It grows exactly when a packet comes
      after its slot, the delay is below ten frames and more than ten audible pops passed since it last
      changed; it shrinks exactly when an audible pop finds the buffer too deep, as every one has for
      two seconds, and the delay is above two. */
  lemma DelayAdapts(ops: seq<Op>, op: Op)
    ensures var b, n := Run(Fresh, ops), Run(Fresh, ops + [op]);
            && b.depth - 1 <= n.depth <= b.depth + 1
            && (n.depth == b.depth + 1 <==>
                  op.PushOp? && b.next.Some? && op.seqNo < b.next.value && b.depth < 10 && Settled(ops) > 10)
            && (n.depth == b.depth - 1 <==>
                  && Audible(b, op) && TooDeep(b) && b.depth > 2
                  && DeepFrom(ops).Some? && DeepFrom(ops).value + 2_000 <= op.clock)
  {
    HistoryKept(ops);
    OneMore(ops, op);
    if Run(Fresh, ops).queue.Keys == {} {
      assert Run(Fresh, ops).queue == map[];
    }
  }

  // ---- Where a pushed packet goes -----------------------------------------------------------------

  /** Over every run: a packet behind the position is dropped, one more than 50 past it empties the queue
      and moves the position there, and any other is queued at its number with the position kept, as long
      as at most twelve wait. */
  lemma PushGoes(ops: seq<Op>, seqNo: nat, packet: Packet)
    ensures var b, n := Run(Fresh, ops), Run(Fresh, ops + [PushOp(seqNo, packet)]);
            if b.next.Some? && seqNo < b.next.value then n.queue == b.queue && n.next == b.next
            else if b.next.Some? && seqNo > b.next.value + 50 then n.queue == map[seqNo := packet] && n.next == Some(seqNo)
            else |b.queue[seqNo := packet]| <= 12 ==> n.queue == b.queue[seqNo := packet] && n.next == b.next
  {
    OneMore(ops, PushOp(seqNo, packet));
    PlacedAt(Run(Fresh, ops), Run(Fresh, ops + [PushOp(seqNo, packet)]), seqNo, packet);
  }

  lemma PlacedAt(b: Buffer, n: Buffer, seqNo: nat, packet: Packet)
    requires n == Push(b, seqNo, packet)
    ensures if IsLate(b, seqNo) then n.queue == b.queue && n.next == b.next
            else if Resyncs(b, seqNo) then n.queue == map[seqNo := packet] && n.next == Some(seqNo)
            else |b.queue[seqNo := packet]| <= 12 ==> n.queue == b.queue[seqNo := packet] && n.next == b.next
  {
    if Resyncs(b, seqNo) {
      var none: map<nat, Packet> := map[];
      var one := none[seqNo := packet];
      assert one == map[seqNo := packet];
      assert one.Keys == {seqNo} && |one| == |one.Keys|;
    }
  }
}
