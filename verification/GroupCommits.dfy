/**
 Changes to a group from before signed rules (libcore/src/groups.rs), made by its founder and
 interrupted anywhere. The durable writes of a change, in order, are: settling what an earlier
 change left, the pending commit, the outbox rows with the mark that the commit left, the merge,
 and the conversation's roster. An interruption, a failed write or a crash, leaves the state after
 any one of them.
 */
module GroupCommits {
  import opened Common

  type Key = nat

  const MAX_GROUP_MEMBERS: nat := 256

  datatype Change = Add(who: Key) | Remove(who: Key)

  /** `salt` tells apart two commits built for the same change at the same epoch. */
  datatype Commit = Commit(change: Change, salt: nat)

  /** A commit in the outbox: the epoch it was built at and the members it is addressed to. */
  datatype Queued = Queued(epoch: nat, commit: Commit, to: set<Key>)

  /** The MLS group (`epoch`, `members`, `pending`), the outbox (`left`, `queued`) and the
      conversation's own roster, beside the epoch and members the group was founded with. A member is
      a leaf of the group: an identity that is added twice has two, because every key package it
      publishes brings a signature key of its own. */
  datatype Device = Device(me: Key, base: nat, founders: seq<Key>, epoch: nat, members: seq<Key>,
                           pending: Option<Commit>, left: Option<nat>, queued: seq<Queued>, roster: set<Key>)

  function Applied(members: seq<Key>, change: Change): seq<Key> {
    match change case Add(who) => members + [who] case Remove(who) => Without(members, who)
  }

  /** The first leaf of `who` is taken out. */
  function Without(members: seq<Key>, who: Key): seq<Key> {
    if members == [] then []
    else if members[0] == who then members[1..]
    else [members[0]] + Without(members[1..], who)
  }

  lemma {:induction false} OthersStay(members: seq<Key>, who: Key, k: Key)
    requires k != who
    ensures k in Without(members, who) <==> k in members
  {
    if members != [] {
      assert k in members <==> k == members[0] || k in members[1..];
      if members[0] != who {
        OthersStay(members[1..], who, k);
      }
    }
  }

  lemma {:induction false} NobodyAppears(members: seq<Key>, who: Key)
    ensures who in Without(members, who) ==> who in members
  {
    if members != [] && members[0] != who {
      NobodyAppears(members[1..], who);
    }
  }

  /** The identities with a leaf. */
  function Ids(members: seq<Key>): set<Key> {
    set k | k in members
  }

  /** Whom a merge gives a leaf and from whom it takes the last. */
  lemma MergedIds(members: seq<Key>, change: Change)
    ensures change.Add? ==> Ids(Applied(members, change)) == Ids(members) + {change.who}
    ensures change.Remove? ==>
              Ids(Applied(members, change))
              == if change.who in Without(members, change.who) then Ids(members) else Ids(members) - {change.who}
  {
    match change {
      case Add(_) =>
      case Remove(who) =>
        NobodyAppears(members, who);
        forall k | k != who
          ensures k in Without(members, who) <==> k in members
        {
          OthersStay(members, who, k);
        }
    }
  }

  function Merged(d: Device): Device
    requires d.pending.Some?
  {
    d.(epoch := d.epoch + 1, members := Applied(d.members, d.pending.value.change), pending := None)
  }

  function Synced(d: Device): Device {
    d.(roster := Ids(d.members))
  }

  function Cleared(d: Device): Device {
    d.(pending := None)
  }

  /** The pending commit was queued at the epoch it would be merged at. */
  predicate HasLeft(d: Device) {
    d.pending.Some? && d.left == Some(d.epoch)
  }

  /** Every durable state of settling, the first being where it starts. */
  function SettleStates(d: Device): (states: seq<Device>)
    ensures |states| > 0 && states[0] == d
  {
    if d.pending.None? then [d]
    else if HasLeft(d) then [d, Merged(d), Synced(Merged(d))]
    else [d, Cleared(d)]
  }

  function Settled(d: Device): Device {
    var states := SettleStates(d);
    states[|states| - 1]
  }

  /** Refused before anything is touched. */
  predicate RefusedAtOnce(d: Device, change: Change) {
    match change case Add(who) => who in d.roster case Remove(who) => who == d.me
  }

  /** Refused once the group is settled. */
  predicate RefusedSettled(d: Device, change: Change) {
    match change
    case Add(_) => |d.members| + 1 > MAX_GROUP_MEMBERS
    case Remove(who) => who !in d.members
  }

  function Built(d: Device, commit: Commit): Device {
    d.(pending := Some(commit))
  }

  function Enqueued(d: Device, commit: Commit): Device {
    d.(left := Some(d.epoch), queued := d.queued + [Queued(d.epoch, commit, d.roster - {d.me})])
  }

  function PublishStates(d: Device, commit: Commit): seq<Device> {
    var built := Built(d, commit);
    var queued := Enqueued(built, commit);
    [built, queued, Merged(queued), Synced(Merged(queued))]
  }

  /** Every durable state of a change; it may be interrupted in any of them. */
  function ChangeStates(d: Device, commit: Commit): (states: seq<Device>)
    ensures |states| > 0
  {
    if RefusedAtOnce(d, commit.change) then [d]
    else
      SettleStates(d)
      + (if RefusedSettled(Settled(d), commit.change) then [] else PublishStates(Settled(d), commit))
  }

  /** A change and how many of its durable writes happened. */
  datatype Attempt = Attempt(commit: Commit, writes: nat)

  function After(d: Device, a: Attempt): Device {
    var states := ChangeStates(d, a.commit);
    states[Min(a.writes, |states| - 1)]
  }

  /** Where an attempt ends, by how many writes it made. */
  lemma AfterIs(d: Device, a: Attempt)
    requires !RefusedAtOnce(d, a.commit.change)
    ensures var n := |SettleStates(d)|;
            && (a.writes < n ==> After(d, a) == SettleStates(d)[a.writes])
            && (a.writes >= n && RefusedSettled(Settled(d), a.commit.change) ==> After(d, a) == Settled(d))
            && (a.writes >= n && !RefusedSettled(Settled(d), a.commit.change) ==>
                  After(d, a) == PublishStates(Settled(d), a.commit)[Min(a.writes - n, 3)])
  {
  }

  /** The founder's device, changed write by write. `writes` is how many durable writes happen before
      the interruption; a change that needs fewer completes. */
  class GroupDevice {
    const me: Key
    const base: nat
    const founders: seq<Key>
    var epoch: nat
    var members: seq<Key>
    var pending: Option<Commit>
    var left: Option<nat>
    var queued: seq<Queued>
    var roster: set<Key>

    constructor (me: Key, base: nat, founders: seq<Key>)
      ensures Now() == Founded(me, base, founders)
    {
      this.me, this.base, this.founders := me, base, founders;
      epoch, members, pending, left, queued, roster := base, founders, None, None, [], Ids(founders);
    }

    function Now(): Device
      reads this
    {
      Device(me, base, founders, epoch, members, pending, left, queued, roster)
    }

    method MergePending()
      requires pending.Some?
      modifies this`epoch, this`members, this`pending
      ensures Now() == Merged(old(Now()))
    {
      epoch := epoch + 1;
      members := Applied(members, pending.value.change);
      pending := None;
    }

    method LoadSettled(writes: nat) returns (spent: nat, done: bool)
      modifies this`epoch, this`members, this`pending, this`roster
      ensures var states := SettleStates(old(Now()));
              && done == (writes >= |states| - 1)
              && spent == Min(writes, |states| - 1)
              && Now() == states[spent]
    {
      spent, done := 0, true;
      if pending.None? {
        return;
      }
      if writes == 0 {
        return 0, false;
      }
      if left == Some(epoch) {
        MergePending();
        if writes == 1 {
          return 1, false;
        }
        roster := Ids(members);
        spent := 2;
      } else {
        pending := None;
        spent := 1;
      }
    }

    method PublishCommit(commit: Commit, writes: nat) returns (spent: nat)
      requires pending == Some(commit)
      modifies this`epoch, this`members, this`pending, this`left, this`queued
      ensures spent == Min(writes, 2)
      ensures var d := old(Now());
              Now() == [d, Enqueued(d, commit), Merged(Enqueued(d, commit))][spent]
    {
      if writes == 0 {
        return 0;
      }
      left, queued := Some(epoch), queued + [Queued(epoch, commit, roster - {me})];
      if writes == 1 {
        return 1;
      }
      MergePending();
      spent := 2;
    }

    /** `legacy_add` and `evict`. */
    method Make(commit: Commit, writes: nat)
      modifies this`epoch, this`members, this`pending, this`left, this`queued, this`roster
      ensures Now() == After(old(Now()), Attempt(commit, writes))
    {
      match commit.change {
        case Add(who) => if who in roster { return; }
        case Remove(who) => if who == me { return; }
      }
      AfterIs(Now(), Attempt(commit, writes));
      var spent, done := LoadSettled(writes);
      if !done {
        return;
      }
      match commit.change {
        case Add(_) => if |members| + 1 > MAX_GROUP_MEMBERS { return; }
        case Remove(who) => if who !in members { return; }
      }
      Publish(commit, writes - spent);
    }

    /** Builds the commit, publishes it and brings the roster level. */
    method Publish(commit: Commit, writes: nat)
      modifies this`epoch, this`members, this`pending, this`left, this`queued, this`roster
      ensures Now() == ([old(Now())] + PublishStates(old(Now()), commit))[Min(writes, 4)]
    {
      if writes == 0 {
        return;
      }
      pending := Some(commit);
      var sent := PublishCommit(commit, writes - 1);
      if writes >= 4 {
        roster := Ids(members);
      }
    }
  }

  function Founded(me: Key, base: nat, founders: seq<Key>): Device {
    Device(me, base, founders, base, founders, None, None, [], Ids(founders))
  }

  // ---- What every run keeps -----------------------------------------------------------------------

  /** The group every member reaches by applying the first `n` queued commits in order. */
  function Replay(founders: seq<Key>, queued: seq<Queued>, n: nat): seq<Key>
    requires n <= |queued|
  {
    if n == 0 then founders else Applied(Replay(founders, queued, n - 1), queued[n - 1].commit.change)
  }

  lemma {:induction false} ReplayPrefix(founders: seq<Key>, queued: seq<Queued>, more: seq<Queued>, n: nat)
    requires n <= |queued| && queued <= more
    ensures Replay(founders, queued, n) == Replay(founders, more, n)
  {
    if n > 0 {
      ReplayPrefix(founders, queued, more, n - 1);
    }
  }

  /** One commit per epoch, in order; the group is level with the outbox or one commit behind it, and
      then that commit is the pending one and is marked as having left. */
  predicate Inv(d: Device) {
    var n := |d.queued|;
    && d.base <= d.epoch <= d.base + n
    && (forall i :: 0 <= i < n ==> d.queued[i].epoch == d.base + i)
    && d.left == (if n == 0 then None else Some(d.base + n - 1))
    && d.members == Replay(d.founders, d.queued, d.epoch - d.base)
    && (d.epoch < d.base + n ==> d.epoch == d.base + n - 1 && d.pending == Some(d.queued[n - 1].commit))
  }

  lemma MergeKeeps(d: Device)
    requires Inv(d) && HasLeft(d)
    ensures Inv(Merged(d)) && Merged(d).epoch == d.base + |d.queued|
  {
    var n := |d.queued|;
    assert d.epoch == d.base + n - 1;
  }

  lemma EnqueueKeeps(d: Device, commit: Commit)
    requires Inv(d) && d.epoch == d.base + |d.queued| && d.pending == Some(commit)
    ensures Inv(Enqueued(d, commit)) && HasLeft(Enqueued(d, commit))
  {
    ReplayPrefix(d.founders, d.queued, Enqueued(d, commit).queued, d.epoch - d.base);
  }

  lemma ClearKeeps(d: Device)
    requires Inv(d) && !HasLeft(d)
    ensures Inv(Cleared(d)) && d.epoch == d.base + |d.queued|
  {
  }

  lemma SettleKeeps(d: Device, i: nat)
    requires Inv(d) && i < |SettleStates(d)|
    ensures Inv(SettleStates(d)[i])
  {
    if HasLeft(d) {
      MergeKeeps(d);
      SyncKeeps(Merged(d));
    } else {
      ClearKeeps(d);
    }
  }

  /** Settling leaves no pending commit and a group level with the outbox. */
  lemma SettledKeeps(d: Device)
    requires Inv(d)
    ensures Inv(Settled(d)) && Settled(d).pending.None? && Settled(d).epoch == d.base + |d.queued|
    ensures Settled(d).queued == d.queued && Settled(d).base == d.base && Settled(d).founders == d.founders
  {
    SettleKeeps(d, |SettleStates(d)| - 1);
    if HasLeft(d) {
      MergeKeeps(d);
    } else {
      ClearKeeps(d);
    }
  }

  lemma SyncKeeps(d: Device)
    requires Inv(d)
    ensures Inv(Synced(d))
  {
  }

  lemma BuildKeeps(d: Device, commit: Commit)
    requires Inv(d) && d.epoch == d.base + |d.queued|
    ensures Inv(Built(d, commit))
  {
  }

  lemma PublishKeeps(d: Device, commit: Commit, i: nat)
    requires Inv(d) && d.pending.None? && d.epoch == d.base + |d.queued| && i < 4
    ensures Inv(PublishStates(d, commit)[i])
  {
    var built := Built(d, commit);
    BuildKeeps(d, commit);
    if i > 0 {
      EnqueueKeeps(built, commit);
    }
    if i > 1 {
      MergeKeeps(Enqueued(built, commit));
    }
    if i > 2 {
      SyncKeeps(Merged(Enqueued(built, commit)));
    }
  }

  /** The outbox only grows, and over the same founding. */
  predicate Extends(d: Device, n: Device) {
    d.queued <= n.queued && n.base == d.base && n.founders == d.founders
  }

  lemma SettleExtends(d: Device, i: nat)
    requires i < |SettleStates(d)|
    ensures Extends(d, SettleStates(d)[i]) && Extends(d, Settled(d))
  {
  }

  lemma PublishExtends(d: Device, commit: Commit, i: nat)
    requires i < 4
    ensures Extends(d, PublishStates(d, commit)[i])
  {
  }

  /** Interrupted anywhere, a change keeps the invariant. */
  lemma ChangeKeeps(d: Device, commit: Commit, i: nat)
    requires Inv(d) && i < |ChangeStates(d, commit)|
    ensures Inv(ChangeStates(d, commit)[i]) && Extends(d, ChangeStates(d, commit)[i])
  {
    if !RefusedAtOnce(d, commit.change) {
      var settle := SettleStates(d);
      var j := if i < |settle| then i else 0;
      SettleKeeps(d, j);
      SettleExtends(d, j);
      if i >= |settle| {
        SettledKeeps(d);
        PublishKeeps(Settled(d), commit, i - |settle|);
        PublishExtends(Settled(d), commit, i - |settle|);
      }
    }
  }

  function Run(d: Device, attempts: seq<Attempt>): Device
    decreases |attempts|
  {
    if attempts == [] then d else Run(After(d, attempts[0]), attempts[1..])
  }

  lemma {:induction false} RunKeeps(d: Device, attempts: seq<Attempt>)
    requires Inv(d)
    ensures Inv(Run(d, attempts)) && d.queued <= Run(d, attempts).queued
    ensures Run(d, attempts).base == d.base && Run(d, attempts).founders == d.founders
    decreases |attempts|
  {
    if attempts != [] {
      var states := ChangeStates(d, attempts[0].commit);
      ChangeKeeps(d, attempts[0].commit, Min(attempts[0].writes, |states| - 1));
      RunKeeps(After(d, attempts[0]), attempts[1..]);
    }
  }

  /** Over any run of additions and removals, each interrupted anywhere: no epoch ever has two queued
      commits, and settling yields exactly the replay of every queued commit in order. */
  lemma SettlesToReplay(me: Key, base: nat, founders: seq<Key>, attempts: seq<Attempt>)
    ensures var d := Run(Founded(me, base, founders), attempts);
            && (forall i, j :: 0 <= i < j < |d.queued| ==> d.queued[i].epoch < d.queued[j].epoch)
            && Settled(d).queued == d.queued
            && Settled(d).pending.None?
            && Settled(d).epoch == base + |d.queued|
            && Settled(d).members == Replay(founders, d.queued, |d.queued|)
  {
    var d0 := Founded(me, base, founders);
    RunKeeps(d0, attempts);
    SettledKeeps(Run(d0, attempts));
    SettledReplays(Run(d0, attempts));
  }

  // ---- The conversation's roster ------------------------------------------------------------------

  predicate Level(d: Device) {
    d.roster == Ids(d.members)
  }

  /** The change gives an identity its first leaf or takes its last. */
  predicate Alters(members: seq<Key>, change: Change) {
    Ids(Applied(members, change)) != Ids(members)
  }

  /** The change gets as far as the outbox. */
  predicate Queues(d: Device, a: Attempt) {
    && !RefusedAtOnce(d, a.commit.change) && !RefusedSettled(Settled(d), a.commit.change)
    && a.writes > |SettleStates(d)|
  }

  /** The change stops exactly between a merge that alters the group and its roster update: after the
      first write of a settling merge, or after the third of its own publication. */
  predicate Cuts(d: Device, a: Attempt) {
    && !RefusedAtOnce(d, a.commit.change)
    && if HasLeft(d) && a.writes == 1 then Alters(d.members, d.pending.value.change)
       else
         && a.writes == |SettleStates(d)| + 2
         && !RefusedSettled(Settled(d), a.commit.change)
         && Alters(Settled(d).members, a.commit.change)
  }

  lemma SettledLevel(d: Device)
    ensures Level(Settled(d)) <==> Level(d) || HasLeft(d)
    ensures !HasLeft(d) ==> Settled(d).roster == d.roster && Settled(d).members == d.members && Settled(d).pending.None?
  {
  }

  lemma PublishedLevel(d: Device, commit: Commit, i: nat)
    requires Level(d) && i < 4
    ensures Level(PublishStates(d, commit)[i]) <==> i != 2 || !Alters(d.members, commit.change)
  {
  }

  /** From a device whose roster is level, an attempt leaves it level if and only if it does not stop
      between a merge and its roster update. */
  lemma LevelUnlessCut(d: Device, a: Attempt)
    requires Level(d)
    ensures Level(After(d, a)) <==> !Cuts(d, a)
  {
    if !RefusedAtOnce(d, a.commit.change) {
      AfterIs(d, a);
      SettledLevel(d);
      var n := |SettleStates(d)|;
      if a.writes >= n && !RefusedSettled(Settled(d), a.commit.change) {
        PublishedLevel(Settled(d), a.commit, Min(a.writes - n, 3));
      }
    }
  }

  /** Run to its end, on any device, a change leaves the roster level if and only if it was level, or
      the change merged something: its own commit or one that an earlier change had queued. */
  lemma CompletedLevels(d: Device, a: Attempt)
    requires a.writes >= |ChangeStates(d, a.commit)| - 1
    ensures Level(After(d, a)) <==>
            || Level(d)
            || (!RefusedAtOnce(d, a.commit.change) && (HasLeft(d) || !RefusedSettled(Settled(d), a.commit.change)))
  {
    if !RefusedAtOnce(d, a.commit.change) {
      AfterIs(d, a);
      SettledLevel(d);
    }
  }

  lemma SettleQueuesNothing(d: Device, i: nat)
    requires i < |SettleStates(d)|
    ensures SettleStates(d)[i].queued == d.queued && SettleStates(d)[i].me == d.me && SettleStates(d)[i].founders == d.founders
  {
  }

  lemma PublishQueues(d: Device, commit: Commit, i: nat)
    requires i < 4
    ensures var n := PublishStates(d, commit)[i];
            && n.queued == (if i == 0 then d.queued else d.queued + [Queued(d.epoch, commit, d.roster - {d.me})])
            && n.me == d.me && n.founders == d.founders
  {
  }

  /** What an attempt adds to the outbox: its commit, addressed to the roster as settled. */
  lemma QueueAfter(d: Device, a: Attempt)
    ensures After(d, a).queued ==
            if Queues(d, a) then d.queued + [Queued(Settled(d).epoch, a.commit, Settled(d).roster - {d.me})] else d.queued
    ensures After(d, a).me == d.me && After(d, a).founders == d.founders
  {
    if !RefusedAtOnce(d, a.commit.change) {
      AfterIs(d, a);
      var n := |SettleStates(d)|;
      SettleQueuesNothing(d, n - 1);
      if a.writes < n {
        SettleQueuesNothing(d, a.writes);
      } else if !RefusedSettled(Settled(d), a.commit.change) {
        PublishQueues(Settled(d), a.commit, Min(a.writes - n, 3));
      }
    }
  }

  /** Every commit is addressed to exactly the other members of the epoch it was built at. */
  predicate Addressed(d: Device) {
    forall i :: 0 <= i < |d.queued| ==> AddressedAt(d.queued, d.founders, d.me, i)
  }

  predicate AddressedAt(queued: seq<Queued>, founders: seq<Key>, me: Key, i: nat)
    requires i < |queued|
  {
    queued[i].to == Ids(Replay(founders, queued, i)) - {me}
  }

  /** Every commit is addressed to all other members of the epoch it was built at, and perhaps more. */
  predicate Covered(d: Device) {
    forall i :: 0 <= i < |d.queued| ==> CoveredAt(d.queued, d.founders, d.me, i)
  }

  predicate CoveredAt(queued: seq<Queued>, founders: seq<Key>, me: Key, i: nat)
    requires i < |queued|
  {
    Ids(Replay(founders, queued, i)) - {me} <= queued[i].to
  }

  lemma AddressedPrefix(queued: seq<Queued>, more: seq<Queued>, founders: seq<Key>, me: Key, i: nat)
    requires i < |queued| && queued <= more
    ensures AddressedAt(more, founders, me, i) <==> AddressedAt(queued, founders, me, i)
    ensures CoveredAt(more, founders, me, i) <==> CoveredAt(queued, founders, me, i)
  {
    ReplayPrefix(founders, queued, more, i);
  }

  /** A change addresses its commit to exactly the other members if and only if the settled roster is
      level apart from the device itself, and to all of them if and only if that roster holds them. */
  lemma QueuedAddressing(d: Device, a: Attempt)
    requires Inv(d) && Queues(d, a)
    ensures var n, s := After(d, a), Settled(d);
            && |n.queued| == |d.queued| + 1
            && (AddressedAt(n.queued, d.founders, d.me, |d.queued|) <==> s.roster - {d.me} == Ids(s.members) - {d.me})
            && (CoveredAt(n.queued, d.founders, d.me, |d.queued|) <==> Ids(s.members) - {d.me} <= s.roster)
  {
    QueueAfter(d, a);
    SettledReplays(d);
    LastAddressing(d.queued, After(d, a).queued, d.founders, d.me, Settled(d).roster, Settled(d).members);
  }

  lemma SettledReplays(d: Device)
    requires Inv(d)
    ensures Settled(d).members == Replay(d.founders, d.queued, |d.queued|)
  {
    SettledKeeps(d);
  }

  lemma LastAddressing(queued: seq<Queued>, more: seq<Queued>, founders: seq<Key>, me: Key, roster: set<Key>, members: seq<Key>)
    requires |more| == |queued| + 1 && queued <= more && more[|queued|].to == roster - {me}
    requires members == Replay(founders, queued, |queued|)
    ensures AddressedAt(more, founders, me, |queued|) <==> roster - {me} == Ids(members) - {me}
    ensures CoveredAt(more, founders, me, |queued|) <==> Ids(members) - {me} <= roster
  {
    ReplayPrefix(founders, queued, more, |queued|);
  }

  lemma AddressedAfter(d: Device, a: Attempt)
    requires Inv(d)
    ensures Addressed(After(d, a)) <==>
            Addressed(d) && (Queues(d, a) ==> Settled(d).roster - {d.me} == Ids(Settled(d).members) - {d.me})
  {
    QueueAfter(d, a);
    var more := After(d, a).queued;
    forall i | 0 <= i < |d.queued|
      ensures AddressedAt(more, d.founders, d.me, i) <==> AddressedAt(d.queued, d.founders, d.me, i)
    {
      AddressedPrefix(d.queued, more, d.founders, d.me, i);
    }
    if Queues(d, a) {
      QueuedAddressing(d, a);
    }
  }

  lemma CoveredAfter(d: Device, a: Attempt)
    requires Inv(d)
    ensures Covered(After(d, a)) <==>
            Covered(d) && (Queues(d, a) ==> Ids(Settled(d).members) - {d.me} <= Settled(d).roster)
  {
    QueueAfter(d, a);
    var more := After(d, a).queued;
    forall i | 0 <= i < |d.queued|
      ensures CoveredAt(more, d.founders, d.me, i) <==> CoveredAt(d.queued, d.founders, d.me, i)
    {
      AddressedPrefix(d.queued, more, d.founders, d.me, i);
    }
    if Queues(d, a) {
      QueuedAddressing(d, a);
    }
  }

  /** The founder belongs to the group, to the roster, and to the group any pending commit makes. */
  predicate Rooted(d: Device) {
    && d.me in d.members && d.me in d.roster
    && (d.pending.Some? ==> d.pending.value.change != Remove(d.me))
  }

  lemma MergeRooted(d: Device)
    requires Rooted(d) && d.pending.Some?
    ensures Rooted(Merged(d)) && Rooted(Synced(Merged(d)))
  {
    MergedIds(d.members, d.pending.value.change);
    assert d.me in Ids(d.members) && d.me in Ids(Merged(d).members);
  }

  lemma SettleRooted(d: Device, i: nat)
    requires Rooted(d) && i < |SettleStates(d)|
    ensures Rooted(SettleStates(d)[i]) && SettleStates(d)[i].me == d.me
  {
    if HasLeft(d) {
      MergeRooted(d);
    }
  }

  lemma PublishRooted(d: Device, commit: Commit, i: nat)
    requires Rooted(d) && commit.change != Remove(d.me) && i < 4
    ensures Rooted(PublishStates(d, commit)[i])
  {
    MergeRooted(Enqueued(Built(d, commit), commit));
  }

  lemma StaysRooted(d: Device, a: Attempt)
    requires Rooted(d)
    ensures Rooted(After(d, a))
  {
    if !RefusedAtOnce(d, a.commit.change) {
      AfterIs(d, a);
      var n := |SettleStates(d)|;
      SettleRooted(d, n - 1);
      if a.writes < n {
        SettleRooted(d, a.writes);
      } else if !RefusedSettled(Settled(d), a.commit.change) {
        PublishRooted(Settled(d), a.commit, Min(a.writes - n, 3));
      }
    }
  }

  /** A merge whose roster update was cut off, with nothing queued since. */
  predicate Torn(d: Device) {
    !Level(d) && !HasLeft(d)
  }

  lemma CutTears(d: Device, a: Attempt)
    requires Level(d) && Cuts(d, a)
    ensures Torn(After(d, a))
  {
    LevelUnlessCut(d, a);
    AfterIs(d, a);
  }

  /** The mark of the last commit left is behind the epoch, so nothing that is built here has left. */
  lemma TornStays(d: Device, a: Attempt)
    requires Inv(d) && Torn(d) && !Queues(d, a)
    ensures Torn(After(d, a))
  {
    SettledLevel(d);
    if !RefusedAtOnce(d, a.commit.change) {
      AfterIs(d, a);
      SettledKeeps(d);
    }
  }

  predicate QueuesNothing(d: Device, attempts: seq<Attempt>)
    decreases |attempts|
  {
    attempts == [] || (!Queues(d, attempts[0]) && QueuesNothing(After(d, attempts[0]), attempts[1..]))
  }

  /** No commit is queued after a change that stopped between a merge and its roster update. */
  predicate NoneAfterCut(d: Device, attempts: seq<Attempt>)
    decreases |attempts|
  {
    attempts == [] ||
    (var next := After(d, attempts[0]);
     if Cuts(d, attempts[0]) then QueuesNothing(next, attempts[1..]) else NoneAfterCut(next, attempts[1..]))
  }

  lemma InvAfter(d: Device, a: Attempt)
    requires Inv(d)
    ensures Inv(After(d, a))
  {
    ChangeKeeps(d, a.commit, Min(a.writes, |ChangeStates(d, a.commit)| - 1));
  }

  lemma {:induction false} MisaddressedForever(d: Device, attempts: seq<Attempt>)
    requires Inv(d) && !Addressed(d)
    ensures !Addressed(Run(d, attempts))
    decreases |attempts|
  {
    if attempts != [] {
      AddressedAfter(d, attempts[0]);
      InvAfter(d, attempts[0]);
      MisaddressedForever(After(d, attempts[0]), attempts[1..]);
    }
  }

  lemma StillDiffers(a: set<Key>, b: set<Key>, me: Key)
    requires a != b && me in a && me in b
    ensures a - {me} != b - {me}
  {
    assert a == (a - {me}) + {me} && b == (b - {me}) + {me};
  }

  lemma {:induction false} TornAddressing(d: Device, attempts: seq<Attempt>)
    requires Inv(d) && Rooted(d) && Torn(d) && Addressed(d)
    ensures Addressed(Run(d, attempts)) <==> QueuesNothing(d, attempts)
    decreases |attempts|
  {
    if attempts != [] {
      var a := attempts[0];
      AddressedAfter(d, a);
      InvAfter(d, a);
      StaysRooted(d, a);
      SettledLevel(d);
      if Queues(d, a) {
        StillDiffers(d.roster, Ids(d.members), d.me);
        MisaddressedForever(After(d, a), attempts[1..]);
      } else {
        TornStays(d, a);
        TornAddressing(After(d, a), attempts[1..]);
      }
    }
  }

  lemma {:induction false} LevelAddressing(d: Device, attempts: seq<Attempt>)
    requires Inv(d) && Rooted(d) && Level(d) && Addressed(d)
    ensures Addressed(Run(d, attempts)) <==> NoneAfterCut(d, attempts)
    decreases |attempts|
  {
    if attempts != [] {
      var a := attempts[0];
      AddressedAfter(d, a);
      InvAfter(d, a);
      StaysRooted(d, a);
      SettledLevel(d);
      LevelUnlessCut(d, a);
      if Cuts(d, a) {
        CutTears(d, a);
        TornAddressing(After(d, a), attempts[1..]);
      } else {
        LevelAddressing(After(d, a), attempts[1..]);
      }
    }
  }

  /** Over every run of a founder's device, each queued commit is addressed to exactly the other members
      of its epoch if and only if no commit was queued after a change that stopped between a merge and
      its roster update. */
  lemma CommitsAddressedExactlyIff(me: Key, base: nat, founders: seq<Key>, attempts: seq<Attempt>)
    requires me in founders
    ensures var d0 := Founded(me, base, founders);
            var d := Run(d0, attempts);
            (forall i :: 0 <= i < |d.queued| ==> d.queued[i].to == Ids(Replay(founders, d.queued, i)) - {me})
            <==> NoneAfterCut(d0, attempts)
  {
    var d0 := Founded(me, base, founders);
    FoundedHolds(me, base, founders);
    LevelAddressing(d0, attempts);
    RunKeeps(d0, attempts);
    RunIsMine(d0, attempts);
    var d := Run(d0, attempts);
    assert forall i :: 0 <= i < |d.queued| ==>
      (AddressedAt(d.queued, founders, me, i) <==> d.queued[i].to == Ids(Replay(founders, d.queued, i)) - {me});
  }

  lemma FoundedHolds(me: Key, base: nat, founders: seq<Key>)
    ensures var d := Founded(me, base, founders); Inv(d) && Level(d)
  {
  }

  // ---- Whom a commit misses -----------------------------------------------------------------------

  /** Members the roster lacks once `change` is merged and before the roster follows: an added identity
      that is not on it, and no longer one that lost its last leaf. */
  function OwedByMerge(d: Device, owed: set<Key>, change: Change): set<Key> {
    match change
    case Add(who) => owed + ({who} - d.roster)
    case Remove(who) => if who in Without(d.members, who) then owed else owed - {who}
  }

  /** The members owed a place on the roster after an attempt: a stop right after a merge adds or drops
      one, and a roster update owes nobody. */
  function OwedAfter(d: Device, owed: set<Key>, a: Attempt): set<Key> {
    var n := |SettleStates(d)|;
    if RefusedAtOnce(d, a.commit.change) || a.writes == 0 then owed
    else if HasLeft(d) && a.writes == 1 then OwedByMerge(d, owed, d.pending.value.change)
    else
      var settled := if HasLeft(d) then {} else owed;
      if RefusedSettled(Settled(d), a.commit.change) || a.writes < n + 2 then settled
      else if a.writes == n + 2 then OwedByMerge(Settled(d), settled, a.commit.change)
      else {}
  }

  /** Every change that queues a commit finds nobody owed, or first settles a merge. */
  predicate NoneWhileOwed(d: Device, owed: set<Key>, attempts: seq<Attempt>)
    decreases |attempts|
  {
    attempts == [] ||
    (var a := attempts[0];
     && (Queues(d, a) ==> HasLeft(d) || owed == {})
     && NoneWhileOwed(After(d, a), OwedAfter(d, owed, a), attempts[1..]))
  }

  predicate Owes(d: Device, owed: set<Key>) {
    owed == Ids(d.members) - d.roster
  }

  lemma MergeOwes(d: Device, owed: set<Key>)
    requires Owes(d, owed) && d.pending.Some?
    ensures Owes(Merged(d), OwedByMerge(d, owed, d.pending.value.change))
  {
    MergedIds(d.members, d.pending.value.change);
  }

  lemma SettledOwes(d: Device, owed: set<Key>)
    requires Owes(d, owed)
    ensures Owes(Settled(d), if HasLeft(d) then {} else owed)
  {
  }

  lemma SettlingOwes(d: Device, owed: set<Key>, i: nat)
    requires Owes(d, owed) && i < |SettleStates(d)|
    ensures Owes(SettleStates(d)[i],
                 if i == 0 || !HasLeft(d) then owed else if i == 1 then OwedByMerge(d, owed, d.pending.value.change) else {})
  {
    if HasLeft(d) {
      MergeOwes(d, owed);
    }
  }

  lemma PublishedOwes(d: Device, owed: set<Key>, commit: Commit, i: nat)
    requires Owes(d, owed) && i < 4
    ensures Owes(PublishStates(d, commit)[i], if i < 2 then owed else if i == 2 then OwedByMerge(d, owed, commit.change) else {})
  {
    var queued := Enqueued(Built(d, commit), commit);
    MergeOwes(queued, owed);
  }

  lemma StaysOwing(d: Device, owed: set<Key>, a: Attempt)
    requires Owes(d, owed)
    ensures Owes(After(d, a), OwedAfter(d, owed, a))
  {
    if !RefusedAtOnce(d, a.commit.change) {
      AfterIs(d, a);
      var n := |SettleStates(d)|;
      if a.writes < n {
        SettlingOwes(d, owed, a.writes);
      } else {
        SettledOwes(d, owed);
        if !RefusedSettled(Settled(d), a.commit.change) {
          PublishedOwes(Settled(d), if HasLeft(d) then {} else owed, a.commit, Min(a.writes - n, 3));
        }
      }
    }
  }

  lemma {:induction false} MissedForever(d: Device, attempts: seq<Attempt>)
    requires Inv(d) && !Covered(d)
    ensures !Covered(Run(d, attempts))
    decreases |attempts|
  {
    if attempts != [] {
      CoveredAfter(d, attempts[0]);
      InvAfter(d, attempts[0]);
      MissedForever(After(d, attempts[0]), attempts[1..]);
    }
  }

  lemma CoverageStep(d: Device, owed: set<Key>, a: Attempt)
    requires Inv(d) && Rooted(d) && Owes(d, owed) && Covered(d)
    ensures Covered(After(d, a)) <==> (Queues(d, a) ==> HasLeft(d) || owed == {})
  {
    CoveredAfter(d, a);
    SettledOwes(d, owed);
    SettledLevel(d);
    if !HasLeft(d) {
      assert Ids(d.members) - {d.me} <= d.roster <==> owed == {} by {
        assert forall k :: k in owed ==> k in Ids(d.members) - {d.me} && k !in d.roster;
      }
    }
  }

  lemma {:induction false} Coverage(d: Device, owed: set<Key>, attempts: seq<Attempt>)
    requires Inv(d) && Rooted(d) && Owes(d, owed) && Covered(d)
    ensures Covered(Run(d, attempts)) <==> NoneWhileOwed(d, owed, attempts)
    decreases |attempts|
  {
    if attempts != [] {
      var a := attempts[0];
      CoverageStep(d, owed, a);
      InvAfter(d, a);
      if Covered(After(d, a)) {
        StaysRooted(d, a);
        StaysOwing(d, owed, a);
        Coverage(After(d, a), OwedAfter(d, owed, a), attempts[1..]);
      } else {
        MissedForever(After(d, a), attempts[1..]);
      }
    }
  }

  /** Over every run of a founder's device, each queued commit is addressed to all other members of its
      epoch if and only if no commit was queued while a member was owed a place on the roster. */
  lemma CommitsReachTheirEpochIff(me: Key, base: nat, founders: seq<Key>, attempts: seq<Attempt>)
    requires me in founders
    ensures var d0 := Founded(me, base, founders);
            var d := Run(d0, attempts);
            (forall i :: 0 <= i < |d.queued| ==> Ids(Replay(founders, d.queued, i)) - {me} <= d.queued[i].to)
            <==> NoneWhileOwed(d0, {}, attempts)
  {
    var d0 := Founded(me, base, founders);
    FoundedHolds(me, base, founders);
    Coverage(d0, {}, attempts);
    RunKeeps(d0, attempts);
    RunIsMine(d0, attempts);
    var d := Run(d0, attempts);
    assert forall i :: 0 <= i < |d.queued| ==>
      (CoveredAt(d.queued, founders, me, i) <==> Ids(Replay(founders, d.queued, i)) - {me} <= d.queued[i].to);
  }

  lemma {:induction false} RunIsMine(d: Device, attempts: seq<Attempt>)
    requires Inv(d)
    ensures Run(d, attempts).me == d.me
    decreases |attempts|
  {
    if attempts != [] {
      QueueAfter(d, attempts[0]);
      InvAfter(d, attempts[0]);
      RunIsMine(After(d, attempts[0]), attempts[1..]);
    }
  }

  /** Interrupted after merging an addition, the next change settles nothing and queues its commit to
      the old roster: the member just added is not sent it. */
  lemma AddedMemberMissesNextCommit(me: Key, founders: seq<Key>, added: Key, removed: Key)
    requires added !in founders && removed in founders && removed != me
    requires |founders| < MAX_GROUP_MEMBERS
    ensures var d := Run(Founded(me, 0, founders), [Attempt(Commit(Add(added), 0), 3), Attempt(Commit(Remove(removed), 0), 4)]);
            && |d.queued| == 2
            && d.queued[1].commit.change == Remove(removed)
            && added in Replay(founders, d.queued, 1) && added in d.members
            && added !in d.queued[1].to
  {
    var d0 := Founded(me, 0, founders);
    var first, second := Attempt(Commit(Add(added), 0), 3), Attempt(Commit(Remove(removed), 0), 4);
    var d1 := After(d0, first);
    assert d1 == Merged(Enqueued(Built(d0, first.commit), first.commit)) by {
      assert ChangeStates(d0, first.commit) == [d0] + PublishStates(d0, first.commit);
    }
    assert d1.pending.None? && d1.roster == Ids(founders) && d1.members == founders + [added];
    var d2 := After(d1, second);
    assert ChangeStates(d1, second.commit) == [d1] + PublishStates(d1, second.commit);
    assert d2 == Synced(Merged(Enqueued(Built(d1, second.commit), second.commit)));
    assert Run(d0, [first, second]) == d2 by {
      assert [first, second][1..] == [second] && [second][1..] == [];
      assert Run(d1, [second]) == Run(d2, []);
    }
    assert d2.queued[0] == Queued(0, first.commit, Ids(founders) - {me});
    OthersStay(d1.members, removed, added);
    assert Replay(founders, d2.queued, 1) == Applied(Replay(founders, d2.queued, 0), Add(added));
  }

  // ---- Removing somebody who was added twice ------------------------------------------------------

  function Leaves(members: seq<Key>, who: Key): nat {
    if members == [] then 0 else (if members[0] == who then 1 else 0) + Leaves(members[1..], who)
  }

  lemma {:induction false} HasLeaves(members: seq<Key>, who: Key)
    ensures who in members <==> Leaves(members, who) > 0
  {
    if members != [] {
      HasLeaves(members[1..], who);
      assert who in members <==> who == members[0] || who in members[1..];
    }
  }

  lemma {:induction false} OneLeafLess(members: seq<Key>, who: Key)
    requires who in members
    ensures Leaves(Without(members, who), who) == Leaves(members, who) - 1
  {
    if members[0] != who {
      assert who in members[1..];
      OneLeafLess(members[1..], who);
      var rest := Without(members[1..], who);
      assert ([members[0]] + rest)[1..] == rest;
    }
  }

  /** A removal takes one leaf: once merged, its target is out of the group if and only if it had one. */
  lemma RemovalRemovesIff(d: Device, a: Attempt)
    requires a.commit.change.Remove? && Queues(d, a) && a.writes >= |SettleStates(d)| + 2
    ensures var who := a.commit.change.who;
            who !in After(d, a).members <==> Leaves(Settled(d).members, who) == 1
  {
    var who, members := a.commit.change.who, Settled(d).members;
    AfterIs(d, a);
    OneLeafLess(members, who);
    HasLeaves(members, who);
    HasLeaves(Without(members, who), who);
  }

  lemma {:induction false} FirstLeafGoes(founders: seq<Key>, who: Key, more: seq<Key>)
    requires who !in founders
    ensures Without(founders + [who] + more, who) == founders + more
    decreases |founders|
  {
    var all := founders + [who] + more;
    if founders == [] {
      assert all[1..] == more && founders + more == more;
    } else {
      FirstLeafGoes(founders[1..], who, more);
      assert all[1..] == founders[1..] + [who] + more;
      assert founders + more == [founders[0]] + (founders[1..] + more);
    }
  }

  /** On a settled device, a change that is not refused and runs to its end. */
  lemma CompleteChange(d: Device, commit: Commit)
    requires d.pending.None? && !RefusedAtOnce(d, commit.change) && !RefusedSettled(d, commit.change)
    ensures var n := After(d, Attempt(commit, 4));
            n.members == Applied(d.members, commit.change) && n.roster == Ids(n.members) && n.pending.None? && n.me == d.me
  {
    AfterIs(d, Attempt(commit, 4));
  }

  /** Interrupted after merging an addition, the same addition made again gives its member a second leaf,
      and a removal run to its end leaves that member in the group and on the roster. */
  lemma EvictedMemberStays(me: Key, founders: seq<Key>, added: Key)
    requires me in founders && added !in founders && |founders| + 2 <= MAX_GROUP_MEMBERS
    ensures var d := Run(Founded(me, 0, founders),
                         [Attempt(Commit(Add(added), 0), 3), Attempt(Commit(Add(added), 1), 4), Attempt(Commit(Remove(added), 2), 4)]);
            added in d.members && added in d.roster && d.pending.None?
  {
    var d0 := Founded(me, 0, founders);
    var first, again, out := Attempt(Commit(Add(added), 0), 3), Attempt(Commit(Add(added), 1), 4), Attempt(Commit(Remove(added), 2), 4);
    AfterIs(d0, first);
    var d1 := After(d0, first);
    assert d1.members == founders + [added] && d1.roster == Ids(founders) && d1.pending.None? && d1.me == me;
    CompleteChange(d1, again.commit);
    var d2 := After(d1, again);
    assert d2.members == founders + [added] + [added] && added in Ids(d2.members);
    CompleteChange(d2, out.commit);
    FirstLeafGoes(founders, added, [added]);
    var d3 := After(d2, out);
    RunThree(d0, first, again, out);
    assert d3.members == founders + [added] && added in Ids(d3.members);
  }

  lemma {:induction false} RunThree(d: Device, a: Attempt, b: Attempt, c: Attempt)
    ensures Run(d, [a, b, c]) == After(After(After(d, a), b), c)
  {
    assert [a, b, c][1..] == [b, c] && [b, c][1..] == [c] && [c][1..] == [];
    var d1 := After(d, a);
    var d2 := After(d1, b);
    assert Run(d2, [c]) == Run(After(d2, c), []);
    assert Run(d1, [b, c]) == Run(d2, [c]);
  }

  // ---- Which changes are made ---------------------------------------------------------------------

  /** Who may be added and removed: an addition of somebody not on the roster while the settled group has
      fewer than 256 leaves, a removal of another member of it. */
  predicate Allowed(d: Device, change: Change) {
    match change
    case Add(who) => who !in d.roster && |Settled(d).members| < 256
    case Remove(who) => who != d.me && who in Settled(d).members
  }

  /** A change run to its end queues one commit, for the settled epoch, and applies it, exactly if it is
      allowed; one that is not queues nothing and leaves the group settled or untouched. */
  lemma MadeIffAllowed(d: Device, commit: Commit, writes: nat)
    requires writes >= 7
    ensures var n := After(d, Attempt(commit, writes));
            if Allowed(d, commit.change) then
              && |n.queued| == |d.queued| + 1 && n.queued[..|d.queued|] == d.queued
              && n.queued[|d.queued|].epoch == Settled(d).epoch && n.queued[|d.queued|].commit == commit
              && n.epoch == Settled(d).epoch + 1 && n.members == Applied(Settled(d).members, commit.change)
              && n.roster == Ids(n.members) && n.pending.None?
            else n == d || n == Settled(d)
  {
    if !RefusedAtOnce(d, commit.change) {
      AfterIs(d, Attempt(commit, writes));
    }
  }

  /** A merge of a pending addition counts as made. */
  function Full(d: Device): nat {
    |d.members| + if HasLeft(d) && d.pending.value.change.Add? then 1 else 0
  }

  lemma {:induction false} WithoutShrinks(members: seq<Key>, who: Key)
    ensures |Without(members, who)| <= |members|
  {
    if members != [] && members[0] != who {
      WithoutShrinks(members[1..], who);
    }
  }

  lemma SettlingFits(d: Device, i: nat)
    requires Full(d) <= 256 && i < |SettleStates(d)|
    ensures Full(SettleStates(d)[i]) <= 256 && Full(Settled(d)) <= 256 && Settled(d).pending.None?
  {
    if HasLeft(d) {
      WithoutShrinks(d.members, d.pending.value.change.who);
    }
  }

  lemma PublishingFits(d: Device, commit: Commit, i: nat)
    requires |d.members| <= 256 && !RefusedSettled(d, commit.change) && i < 4
    ensures Full(PublishStates(d, commit)[i]) <= 256
  {
    WithoutShrinks(d.members, commit.change.who);
  }

  lemma AttemptFits(d: Device, a: Attempt)
    requires Full(d) <= 256
    ensures Full(After(d, a)) <= 256
  {
    if !RefusedAtOnce(d, a.commit.change) {
      AfterIs(d, a);
      var n := |SettleStates(d)|;
      SettlingFits(d, Min(a.writes, n - 1));
      if a.writes >= n && !RefusedSettled(Settled(d), a.commit.change) {
        PublishingFits(Settled(d), a.commit, Min(a.writes - n, 3));
      }
    }
  }

  /** A group founded with at most 256 leaves never has more, however its changes are interrupted. */
  lemma {:induction false} NeverOverfull(d: Device, attempts: seq<Attempt>)
    requires Full(d) <= 256
    ensures Full(Run(d, attempts)) <= 256 && |Run(d, attempts).members| <= 256
    decreases |attempts|
  {
    if attempts != [] {
      AttemptFits(d, attempts[0]);
      NeverOverfull(After(d, attempts[0]), attempts[1..]);
    }
  }
}
