/**
 The sticker store's quotas, over every run in which the ledger is not lost: the checks are made in
 one section and the rows written in the same one, so concurrent requests cannot overrun them.
 */
module StickerQuota {
  import opened Common
  import opened StickerStore
  import opened StickerRuns

  ghost predicate Within(l: Ledger) {
    && (forall c :: |PacksOf(l, c)| <= MAX_PACKS_PER_CREATOR)
    && (forall p :: |Named(l, p)| <= PACK_MAX_STICKERS)
    && (forall p :: |Unnamed(l, p)| <= UNNAMED_MAX)
  }

  /** Without ledger loss every published pack has its row. */
  predicate RowsComplete(st: State) {
    forall p :: p in st.manifests ==> p in st.ledger.packs
  }

  ghost predicate Kept(w: World) {
    Inv(w) && RowsComplete(w.st) && Within(w.st.ledger)
  }

  ghost predicate NamesGrow(l: Ledger, l': Ledger) {
    forall p :: Named(l, p) <= Named(l', p)
  }

  function KeySet(keys: seq<Key>): set<Key> {
    set k | k in keys
  }

  lemma {:induction false} KeySetSize(keys: seq<Key>)
    ensures |KeySet(keys)| <= |keys|
    decreases |keys|
  {
    if keys != [] {
      var init := keys[..|keys| - 1];
      KeySetSize(init);
      assert KeySet(keys) == KeySet(init) + {keys[|keys| - 1]};
    }
  }

  /** A ledger whose sets are all contained in those of one within the quotas. */
  lemma SmallerIsWithin(l: Ledger, l': Ledger)
    requires Within(l)
    requires forall c :: PacksOf(l', c) <= PacksOf(l, c)
    requires forall p :: Named(l', p) <= Named(l, p) && Unnamed(l', p) <= Unnamed(l, p)
    ensures Within(l')
  {
    forall c ensures |PacksOf(l', c)| <= MAX_PACKS_PER_CREATOR { SubsetSize(PacksOf(l', c), PacksOf(l, c)); }
    forall p ensures |Named(l', p)| <= PACK_MAX_STICKERS { SubsetSize(Named(l', p), Named(l, p)); }
    forall p ensures |Unnamed(l', p)| <= UNNAMED_MAX { SubsetSize(Unnamed(l', p), Unnamed(l, p)); }
  }

  lemma DeleteWithin(st: State, doomed: set<Blob>, down: set<Down>)
    requires Within(st.ledger) && forall b :: b in doomed ==> b in st.ledger.blobs && !st.ledger.blobs[b].named
    ensures Within(DeleteBlobs(st, doomed, down).ledger)
    ensures NamesGrow(st.ledger, DeleteBlobs(st, doomed, down).ledger)
  {
    var l, l' := st.ledger, DeleteBlobs(st, doomed, down).ledger;
    forall p
      ensures Named(l', p) == Named(l, p) && Unnamed(l', p) <= Unnamed(l, p)
    {
      forall k | k in Named(l, p) ensures k in Named(l', p) {
        assert Blob(p, k) in l.blobs;
        assert Blob(p, k) in l'.blobs;
      }
    }
    SmallerIsWithin(l, l');
  }

  lemma SweepWithin(st: State, before: nat, down: set<Down>)
    requires Within(st.ledger)
    ensures Within(Sweep(st, before, down).ledger)
    ensures NamesGrow(st.ledger, Sweep(st, before, down).ledger)
  {
    var mid := DeleteBlobs(st, ExpiredBlobs(st.ledger, before), down);
    DeleteWithin(st, ExpiredBlobs(st.ledger, before), down);
    var l' := Sweep(st, before, down).ledger;
    assert forall p :: Named(l', p) == Named(mid.ledger, p) && Unnamed(l', p) == Unnamed(mid.ledger, p);
    SmallerIsWithin(mid.ledger, l');
  }

  /** The packs of every creator after `pack` gets a row, if it had none. */
  lemma ClaimWithin(l: Ledger, l': Ledger, pack: Pack, creator: Creator)
    requires Within(l) && (pack !in l.packs ==> |PacksOf(l, creator)| < MAX_PACKS_PER_CREATOR)
    requires l'.packs.Keys == l.packs.Keys + {pack}
    requires forall p :: p in l.packs ==> l'.packs[p].creator == l.packs[p].creator
    requires pack !in l.packs ==> l'.packs[pack].creator == creator
    ensures forall c :: |PacksOf(l', c)| <= MAX_PACKS_PER_CREATOR
  {
    forall c
      ensures |PacksOf(l', c)| <= MAX_PACKS_PER_CREATOR
    {
      if pack !in l.packs && c == creator {
        assert PacksOf(l', c) == PacksOf(l, c) + {pack};
      } else {
        assert PacksOf(l', c) == PacksOf(l, c);
      }
    }
  }

  lemma TakeBlobWithin(st: State, version: nat, req: Request, now: nat, down: set<Down>)
    requires Within(st.ledger) && req.PutBlob?
    requires req.pack !in st.ledger.packs ==> |PacksOf(st.ledger, req.creator)| < MAX_PACKS_PER_CREATOR
    ensures var o := TakeBlob(st, version, req, now, down);
            && Within(o.state.ledger) && NamesGrow(st.ledger, o.state.ledger)
            && (!o.reply.Ok? ==> o.state == st)
  {
    var l, l' := st.ledger, TakeBlob(st, version, req, now, down).state.ledger;
    if l' != l {
      ClaimWithin(l, l', req.pack, req.creator);
      forall p
        ensures Named(l', p) == Named(l, p)
        ensures |Unnamed(l', p)| <= UNNAMED_MAX
      {
        RowAdded(l, l', Blob(req.pack, req.key), now, p);
      }
    }
  }

  lemma RowAdded(l: Ledger, l': Ledger, b: Blob, now: nat, p: Pack)
    requires b !in l.blobs && l'.blobs == l.blobs[b := BlobRow(false, now)]
    ensures Named(l', p) == Named(l, p)
    ensures Unnamed(l', p) == Unnamed(l, p) + (if p == b.pack then {b.key} else {})
  {
    forall k | k in Named(l, p) ensures k in Named(l', p) {
      assert Blob(p, k) in l.blobs && Blob(p, k) != b;
    }
    forall k | k in Named(l', p) ensures k in Named(l, p) {
      assert Blob(p, k) in l'.blobs && Blob(p, k) != b;
    }
    forall k | k in Unnamed(l, p) ensures k in Unnamed(l', p) {
      assert Blob(p, k) in l.blobs && Blob(p, k) != b;
    }
    if p == b.pack {
      assert b in l'.blobs && b.pack == p && !l'.blobs[b].named;
    }
  }

  /** A publication names its keys and no others, and leaves fewer rows unnamed. */
  lemma PublishNames(l: Ledger, pack: Pack, creator: Creator, version: nat, keys: seq<Key>, now: nat)
    requires forall k :: k in Named(l, pack) ==> k in keys
    ensures var l' := Publish(l, pack, creator, version, keys, now);
            && Named(l', pack) == KeySet(keys)
            && (forall p :: p != pack ==> Named(l', p) == Named(l, p))
            && (forall p :: Unnamed(l', p) <= Unnamed(l, p))
  {
    var l' := Publish(l, pack, creator, version, keys, now);
    var names := BlobsOf(pack, keys);
    forall k | k in keys ensures k in Named(l', pack) {
      var i :| 0 <= i < |keys| && keys[i] == k;
      assert Blob(pack, k) in names;
      assert Blob(pack, k) in l'.blobs && l'.blobs[Blob(pack, k)].named;
    }
    forall k | k in Named(l', pack) ensures k in keys {
      var b :| b in l'.blobs && b.pack == pack && l'.blobs[b].named && b.key == k;
      if b !in names {
        assert b in l.blobs && l.blobs[b].named;
        assert k in Named(l, pack);
      }
    }
    forall p | p != pack ensures Named(l', p) == Named(l, p) {
      forall k | k in Named(l, p) ensures k in Named(l', p) {
        assert Blob(p, k) in l.blobs;
        assert Blob(p, k) in l'.blobs && l'.blobs[Blob(p, k)] == l.blobs[Blob(p, k)];
      }
    }
  }

  lemma PublishWithin(l: Ledger, pack: Pack, creator: Creator, version: nat, keys: seq<Key>, now: nat)
    requires Within(l) && |keys| <= PACK_MAX_STICKERS
    requires forall k :: k in Named(l, pack) ==> k in keys
    requires pack !in l.packs ==> |PacksOf(l, creator)| < MAX_PACKS_PER_CREATOR
    ensures var l' := Publish(l, pack, creator, version, keys, now);
            Within(l') && NamesGrow(l, l')
  {
    var l' := Publish(l, pack, creator, version, keys, now);
    PublishNames(l, pack, creator, version, keys, now);
    ClaimWithin(l, l', pack, creator);
    KeySetSize(keys);
    forall p
      ensures |Unnamed(l', p)| <= UNNAMED_MAX
    {
      SubsetSize(Unnamed(l', p), Unnamed(l, p));
    }
  }

  lemma TakeManifestWithin(st: State, version: nat, req: Request, now: nat, down: set<Down>)
    requires Within(st.ledger) && req.PutManifest?
    requires req.env.pack !in st.ledger.packs ==> |PacksOf(st.ledger, req.env.creator)| < MAX_PACKS_PER_CREATOR
    ensures var o := TakeManifest(st, version, req, now, down);
            && Within(o.state.ledger) && NamesGrow(st.ledger, o.state.ledger)
            && (!o.reply.Ok? ==> o.state == st)
  {
    var o := TakeManifest(st, version, req, now, down);
    if o.state != st {
      PublishWithin(st.ledger, req.env.pack, req.env.creator, req.env.version, req.keys, now);
      var mid := Published(st, req, now);
      DeleteWithin(mid, UnnamedBlobs(mid.ledger, req.env.pack), down);
    }
  }

  lemma DecideWithin(st: State, req: Request, now: nat, down: set<Down>)
    requires Within(st.ledger)
    ensures var o := Decide(st, Lookup(st.ledger, PackOf(req)), req, now, down);
            && Within(o.state.ledger) && NamesGrow(st.ledger, o.state.ledger)
            && (!o.reply.Ok? ==> o.state == st)
  {
    var known := Lookup(st.ledger, PackOf(req));
    var version := if known.Some? then known.value.version else 0;
    if known.None? && |PacksOf(st.ledger, CreatorOf(req))| >= MAX_PACKS_PER_CREATOR {
    } else if req.PutBlob? {
      TakeBlobWithin(st, version, req, now, down);
    } else {
      TakeManifestWithin(st, version, req, now, down);
    }
  }

  /** A row of a published pack is never dropped, so with no loss ownership is never recovered. */
  lemma ReturnDecides(w: World, m: Move)
    requires Kept(w) && m.Return? && Enabled(w, m)
    ensures Answer(w, m) == Some(Decide(w.st, Lookup(w.st.ledger, PackOf(w.waiting[m.id].req)), w.waiting[m.id].req, m.now, m.down))
  {
    assert LookupHolds(w.st, w.waiting[m.id]);
  }

  lemma RowsStayComplete(w: World, m: Move)
    requires Kept(w) && Enabled(w, m) && m != Restart(true)
    ensures RowsComplete(Next(w, m).st)
  {
    StepKeeps(w, m);
    var n := Next(w, m);
    match m {
      case Arrive(_, req, now, down) =>
        if Gate(req).None? && Lookup(w.st.ledger, PackOf(req)).Some? {
          DecideComplete(w.st, req, now, down);
        }
      case Return(_, now, down) =>
        ReturnDecides(w, m);
        DecideComplete(w.st, w.waiting[m.id].req, now, down);
      case Clean(before, down) => SweepKeeps(w.st, before, down);
      case _ =>
    }
  }

  lemma DecideComplete(st: State, req: Request, now: nat, down: set<Down>)
    requires RowsComplete(st)
    ensures RowsComplete(Decide(st, Lookup(st.ledger, PackOf(req)), req, now, down).state)
  {
  }

  /** One move without ledger loss: quotas hold on, no pack loses a name, and a refused request has
      used nothing. */
  lemma StepWithin(w: World, m: Move)
    requires Kept(w) && Enabled(w, m) && m != Restart(true)
    ensures Kept(Next(w, m)) && NamesGrow(w.st.ledger, Next(w, m).st.ledger)
    ensures Answer(w, m).Some? && !Answer(w, m).value.reply.Ok? ==> Next(w, m).st == w.st
  {
    StepKeeps(w, m);
    RowsStayComplete(w, m);
    match m {
      case Arrive(_, req, now, down) =>
        if Gate(req).None? {
          DecideWithin(w.st, req, now, down);
        }
      case Return(_, now, down) =>
        ReturnDecides(w, m);
        DecideWithin(w.st, w.waiting[m.id].req, now, down);
      case Clean(before, down) => SweepWithin(w.st, before, down);
      case _ =>
    }
  }

  predicate LossFree(ms: seq<Move>) {
    forall i :: 0 <= i < |ms| ==> ms[i] != Restart(true)
  }

  lemma {:induction false} RunWithin(w: World, ms: seq<Move>)
    requires Kept(w) && CanRun(w, ms) && LossFree(ms)
    ensures Kept(Run(w, ms)) && NamesGrow(w.st.ledger, Run(w, ms).st.ledger)
    decreases |ms|
  {
    if ms != [] {
      StepWithin(w, ms[0]);
      assert forall i :: 0 <= i < |ms[1..]| ==> ms[1..][i] == ms[i + 1];
      RunWithin(Next(w, ms[0]), ms[1..]);
    }
  }

  /** From the empty store, in every run without ledger loss: a creator owns at most 5 packs, a pack
      has at most 100 named and 200 unnamed blobs, and its names only grow. */
  lemma QuotasHold(ms: seq<Move>, more: seq<Move>)
    requires CanRun(Empty, ms) && LossFree(ms) && CanRun(Run(Empty, ms), more) && LossFree(more)
    ensures var l := Run(Empty, ms).st.ledger;
            && (forall c :: |PacksOf(l, c)| <= 5)
            && (forall p :: |Named(l, p)| <= 100 && |Unnamed(l, p)| <= 200)
            && (forall p :: Named(l, p) <= Named(Run(Run(Empty, ms), more).st.ledger, p))
  {
    assert Kept(Empty) by {
      assert forall c :: PacksOf(EmptyLedger, c) == {};
      assert forall p :: Named(EmptyLedger, p) == {} && Unnamed(EmptyLedger, p) == {};
    }
    RunWithin(Empty, ms);
    RunWithin(Run(Empty, ms), more);
  }
}
