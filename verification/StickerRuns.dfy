/**
 Every run of the sticker store: concurrent requests, the unlocked manifest lookup, failing backend
 calls, sweeps, restarts and loss of the whole ledger. A restart, with or without its ledger, drops
 the requests in progress.
 */
module StickerRuns {
  import opened Common
  import opened StickerStore

  /** A request inside its unlocked lookup; `seen` is what the lookup found, once it has. */
  datatype Waiting = Waiting(req: Request, seen: Option<Option<Env>>)

  datatype World = World(st: State, waiting: map<nat, Waiting>)

  datatype Move =
    | Arrive(id: nat, req: Request, now: nat, down: set<Down>)
    | Look(id: nat, ok: bool)
    | Return(id: nat, now: nat, down: set<Down>)
    | Clean(before: nat, down: set<Down>)
    | Restart(ledgerLost: bool)

  const EmptyLedger := Ledger(map[], map[])
  const Empty := World(State(EmptyLedger, map[], map[]), map[])

  predicate Enabled(w: World, m: Move) {
    match m
    case Arrive(id, _, _, _) => id !in w.waiting
    case Look(id, _) => id in w.waiting && w.waiting[id].seen.None?
    case Return(id, _, _) => id in w.waiting && w.waiting[id].seen.Some?
    case Clean(_, _) => true
    case Restart(_) => true
  }

  function Stored(st: State, pack: Pack): Option<Env> {
    if pack in st.manifests then Some(st.manifests[pack]) else None
  }

  /** What the move answers, if it answers a request, and the store it leaves. */
  function Answer(w: World, m: Move): Option<Outcome>
    requires Enabled(w, m)
  {
    match m
    case Arrive(_, req, now, down) =>
      if Gate(req).Some? then Some(Refuse(w.st, Gate(req).value))
      else
        var known := Lookup(w.st.ledger, PackOf(req));
        if known.Some? then Some(Decide(w.st, known, req, now, down)) else None
    case Look(_, ok) => if ok then None else Some(Refuse(w.st, Unavailable))
    case Return(id, now, down) => Some(Resume(w.st, w.waiting[id].seen.value, w.waiting[id].req, now, down))
    case _ => None
  }

  function Next(w: World, m: Move): World
    requires Enabled(w, m)
  {
    match m
    case Arrive(id, req, _, _) =>
      if Answer(w, m).Some? then w.(st := Answer(w, m).value.state)
      else w.(waiting := w.waiting[id := Waiting(req, None)])
    case Look(id, ok) =>
      if ok then
        var req := w.waiting[id].req;
        w.(waiting := w.waiting[id := Waiting(req, Some(Stored(w.st, PackOf(req))))])
      else w.(waiting := w.waiting - {id})
    case Return(id, _, _) => World(Answer(w, m).value.state, w.waiting - {id})
    case Clean(before, down) => w.(st := Sweep(w.st, before, down))
    case Restart(ledgerLost) =>
      World(if ledgerLost then w.st.(ledger := EmptyLedger) else w.st, map[])
  }

  predicate CanRun(w: World, ms: seq<Move>)
    decreases |ms|
  {
    ms == [] || (Enabled(w, ms[0]) && CanRun(Next(w, ms[0]), ms[1..]))
  }

  function Run(w: World, ms: seq<Move>): World
    requires CanRun(w, ms)
    decreases |ms|
  {
    if ms == [] then w else Run(Next(w, ms[0]), ms[1..])
  }

  // ---- The invariant ----------------------------------------------------------------------------

  predicate ManifestsOk(st: State) {
    forall p :: p in st.manifests ==> Trusted(st.manifests[p], p) && st.manifests[p].version > 0
  }

  /** A row of a published pack says what its manifest says; any other row is unpublished. */
  predicate RowsAgree(st: State) {
    forall p :: p in st.ledger.packs ==>
      if p in st.manifests then
        st.ledger.packs[p].creator == st.manifests[p].creator && st.ledger.packs[p].version == st.manifests[p].version
      else st.ledger.packs[p].version == 0
  }

  /** A blob row has its pack's row and its object, and only a published pack names blobs. */
  predicate BlobsOk(st: State) {
    forall b :: b in st.ledger.blobs ==>
      && b.pack in st.ledger.packs && b in st.objects
      && (st.ledger.blobs[b].named ==> b.pack in st.manifests)
  }

  predicate Good(st: State) {
    ManifestsOk(st) && RowsAgree(st) && BlobsOk(st)
  }

  /** While the row is missing, a finished lookup still tells the truth. */
  predicate LookupHolds(st: State, wait: Waiting) {
    var pack := PackOf(wait.req);
    && Gate(wait.req).None?
    && (wait.seen.Some? ==>
          && (wait.seen.value.Some? ==> pack in st.manifests)
          && (pack !in st.ledger.packs ==> wait.seen.value == Stored(st, pack)))
  }

  predicate Inv(w: World) {
    && Good(w.st)
    && forall id :: id in w.waiting ==> LookupHolds(w.st, w.waiting[id])
  }

  // ---- Retention ----------------------------------------------------------------------------------

  /** Of a published pack, stored, and not an upload the ledger still counts as abandoned. */
  predicate Safe(st: State, b: Blob) {
    && b.pack in st.manifests
    && b in st.objects
    && (b in st.ledger.blobs ==> st.ledger.blobs[b].named)
  }

  /** What every section does to manifests, rows and safe blobs. */
  ghost predicate Evolves(st: State, st': State) {
    && (forall p :: p in st.manifests ==>
          && p in st'.manifests
          && st'.manifests[p].creator == st.manifests[p].creator
          && (st'.manifests[p] == st.manifests[p] || st'.manifests[p].version > st.manifests[p].version))
    && (forall p :: p !in st'.ledger.packs ==> Stored(st', p) == Stored(st, p))
    && (forall b :: Safe(st, b) ==> Safe(st', b) && st'.objects[b] == st.objects[b])
  }

  /** A row only ever goes away while its pack is unpublished. */
  ghost predicate RowsStay(st: State, st': State) {
    forall p :: p in st.ledger.packs && p !in st'.ledger.packs ==> p !in st.manifests
  }

  lemma {:induction false} KeysStored(st: State, pack: Pack, keys: seq<Key>, down: set<Down>)
    requires KeysFault(st, pack, keys, down).None?
    ensures forall b :: b in BlobsOf(pack, keys) ==> b in st.ledger.blobs || b in st.objects
    decreases |keys|
  {
    if keys != [] {
      KeysStored(st, pack, keys[1..], down);
      forall b | b in BlobsOf(pack, keys)
        ensures b in st.ledger.blobs || b in st.objects
      {
        var i :| 0 <= i < |keys| && b == Blob(pack, keys[i]);
        if i > 0 {
          assert keys[1..][i - 1] == keys[i];
          assert b in BlobsOf(pack, keys[1..]);
        }
      }
    }
  }

  lemma DeleteKeeps(st: State, doomed: set<Blob>, down: set<Down>)
    requires Good(st)
    requires forall b :: b in doomed ==> b in st.ledger.blobs && !st.ledger.blobs[b].named
    ensures var st' := DeleteBlobs(st, doomed, down);
            Good(st') && Evolves(st, st') && st'.ledger.packs == st.ledger.packs && st'.manifests == st.manifests
  {
  }

  lemma SweepKeeps(st: State, before: nat, down: set<Down>)
    requires Good(st)
    ensures var st' := Sweep(st, before, down);
            && Good(st') && Evolves(st, st') && RowsStay(st, st') && st'.manifests == st.manifests
            && (forall p :: p in st'.ledger.packs ==> p in st.ledger.packs && st'.ledger.packs[p] == st.ledger.packs[p])
  {
    DeleteKeeps(st, ExpiredBlobs(st.ledger, before), down);
    var mid := DeleteBlobs(st, ExpiredBlobs(st.ledger, before), down);
    var st' := Sweep(st, before, down);
    forall b | b in st'.ledger.blobs
      ensures b.pack in st'.ledger.packs
    {
      assert HasRows(mid.ledger, b.pack);
    }
  }

  /** What a section may assume of the row it was given. */
  predicate Knows(st: State, known: Option<Entry>, pack: Pack) {
    known == Lookup(st.ledger, pack) && (known.None? ==> pack !in st.manifests)
  }

  lemma TakeBlobKeeps(st: State, known: Option<Entry>, req: Request, now: nat, down: set<Down>)
    requires Good(st) && req.PutBlob? && Knows(st, known, req.pack)
    requires known.Some? ==> known.value.creator == req.creator
    ensures var st' := TakeBlob(st, if known.Some? then known.value.version else 0, req, now, down).state;
            Good(st') && Evolves(st, st') && RowsStay(st, st') && st'.manifests == st.manifests
  {
  }

  predicate Publishes(st: State, version: nat, req: Request, now: nat, down: set<Down>) {
    req.PutManifest? && req.env.version != version && TakeManifest(st, version, req, now, down).reply.Ok?
  }

  lemma NamedAfter(l: Ledger, req: Request, now: nat)
    requires req.PutManifest?
    ensures var rows := Publish(l, req.env.pack, req.env.creator, req.env.version, req.keys, now).blobs;
            var names := BlobsOf(req.env.pack, req.keys);
            && rows.Keys == l.blobs.Keys + names
            && (forall b :: b in names ==> rows[b].named)
            && (forall b :: b in l.blobs && b !in names ==> rows[b] == l.blobs[b])
  {
  }

  /** The store between a publication's ledger write and its clean-up. */
  function Published(st: State, req: Request, now: nat): State
    requires req.PutManifest?
  {
    st.(manifests := st.manifests[req.env.pack := req.env],
        ledger := Publish(st.ledger, req.env.pack, req.env.creator, req.env.version, req.keys, now))
  }

  lemma PublishedKeeps(st: State, known: Option<Entry>, req: Request, now: nat)
    requires Good(st) && Gate(req).None? && req.PutManifest? && Knows(st, known, req.env.pack)
    requires known.Some? ==> known.value.creator == req.env.creator && known.value.version < req.env.version
    requires req.env.version > 0
    requires forall b :: b in BlobsOf(req.env.pack, req.keys) ==> b in st.objects
    requires forall k :: k in Named(st.ledger, req.env.pack) ==> k in req.keys
    ensures var st' := Published(st, req, now);
            && Good(st') && Evolves(st, st') && RowsStay(st, st')
            && forall b :: b in BlobsOf(req.env.pack, req.keys) ==> Safe(st', b)
  {
    NamedAfter(st.ledger, req, now);
    KeysInNames(st.ledger, req.env.pack, req.keys);
  }

  lemma EvolvesTrans(a: State, b: State, c: State)
    requires Evolves(a, b) && Evolves(b, c) && b.ledger.packs == c.ledger.packs
    ensures Evolves(a, c)
  {
  }

  lemma TakeManifestKeeps(st: State, known: Option<Entry>, req: Request, now: nat, down: set<Down>)
    requires Good(st) && Gate(req).None? && req.PutManifest? && Knows(st, known, req.env.pack)
    requires known.Some? ==> known.value.creator == req.env.creator
    ensures var version := if known.Some? then known.value.version else 0;
            var st' := TakeManifest(st, version, req, now, down).state;
            && Good(st') && Evolves(st, st') && RowsStay(st, st')
            && (Publishes(st, version, req, now, down) ==> forall b :: b in BlobsOf(req.env.pack, req.keys) ==> Safe(st', b))
  {
    var version := if known.Some? then known.value.version else 0;
    if Publishes(st, version, req, now, down) {
      KeysStored(st, req.env.pack, req.keys, down);
      PublishedKeeps(st, known, req, now);
      var mid := Published(st, req, now);
      var doomed := UnnamedBlobs(mid.ledger, req.env.pack);
      DeleteKeeps(mid, doomed, down);
      assert TakeManifest(st, version, req, now, down).state == DeleteBlobs(mid, doomed, down);
      EvolvesTrans(st, mid, DeleteBlobs(mid, doomed, down));
    }
  }

  lemma KeysInNames(l: Ledger, pack: Pack, keys: seq<Key>)
    requires forall k :: k in Named(l, pack) ==> k in keys
    ensures forall b :: b in l.blobs && b.pack == pack && l.blobs[b].named ==> b in BlobsOf(pack, keys)
  {
    forall b | b in l.blobs && b.pack == pack && l.blobs[b].named
      ensures b in BlobsOf(pack, keys)
    {
      assert b.key in Named(l, pack);
      var i :| 0 <= i < |keys| && keys[i] == b.key;
    }
  }

  lemma DecideKeeps(st: State, known: Option<Entry>, req: Request, now: nat, down: set<Down>)
    requires Good(st) && Gate(req).None? && Knows(st, known, PackOf(req))
    ensures var st' := Decide(st, known, req, now, down).state;
            Good(st') && Evolves(st, st') && RowsStay(st, st')
  {
    if known.Some? ==> known.value.creator == CreatorOf(req) {
      if req.PutBlob? {
        TakeBlobKeeps(st, known, req, now, down);
      } else {
        TakeManifestKeeps(st, known, req, now, down);
      }
    }
  }

  /** Recovering a missing row from its manifest. */
  lemma ClaimKeeps(st: State, pack: Pack, now: nat)
    requires Good(st) && pack in st.manifests && pack !in st.ledger.packs
    ensures var env := st.manifests[pack];
            var st' := st.(ledger := Claim(st.ledger, pack, env.creator, env.version, now));
            && Good(st') && Evolves(st, st') && RowsStay(st, st')
            && Knows(st', Some(Entry(env.creator, env.version)), pack)
  {
  }

  lemma ResumeKeeps(st: State, wait: Waiting, now: nat, down: set<Down>)
    requires Good(st) && wait.seen.Some? && LookupHolds(st, wait)
    ensures var st' := Resume(st, wait.seen.value, wait.req, now, down).state;
            Good(st') && Evolves(st, st') && RowsStay(st, st')
  {
    var pack := PackOf(wait.req);
    if pack !in st.ledger.packs && wait.seen.value.Some? {
      var env := wait.seen.value.value;
      ClaimKeeps(st, pack, now);
      var claimed := st.(ledger := Claim(st.ledger, pack, env.creator, env.version, now));
      DecideKeeps(claimed, Some(Entry(env.creator, env.version)), wait.req, now, down);
    } else {
      DecideKeeps(st, Lookup(st.ledger, pack), wait.req, now, down);
    }
  }

  lemma LookupStillHolds(st: State, st': State, wait: Waiting)
    requires LookupHolds(st, wait) && Evolves(st, st') && RowsStay(st, st')
    ensures LookupHolds(st', wait)
  {
    var pack := PackOf(wait.req);
    if wait.seen.Some? && pack !in st'.ledger.packs && pack in st.ledger.packs {
      assert Stored(st', pack) == Stored(st, pack) == None;
    }
  }

  /** One move: the invariant holds on, manifests only move forward, safe blobs stay safe. */
  lemma StepKeeps(w: World, m: Move)
    requires Inv(w) && Enabled(w, m)
    ensures Inv(Next(w, m)) && Evolves(w.st, Next(w, m).st)
  {
    var n := Next(w, m);
    match m {
      case Arrive(id, req, now, down) =>
        if Gate(req).None? && Lookup(w.st.ledger, PackOf(req)).Some? {
          DecideKeeps(w.st, Lookup(w.st.ledger, PackOf(req)), req, now, down);
          WaitersHold(w, n.st);
        }
      case Look(_, _) =>
      case Return(id, now, down) =>
        ResumeKeeps(w.st, w.waiting[id], now, down);
        WaitersHold(w, n.st);
      case Clean(before, down) =>
        SweepKeeps(w.st, before, down);
        WaitersHold(w, n.st);
      case Restart(_) =>
    }
  }

  lemma WaitersHold(w: World, st': State)
    requires Inv(w) && Evolves(w.st, st') && RowsStay(w.st, st')
    ensures forall id :: id in w.waiting ==> LookupHolds(st', w.waiting[id])
  {
    forall id | id in w.waiting
      ensures LookupHolds(st', w.waiting[id])
    {
      LookupStillHolds(w.st, st', w.waiting[id]);
    }
  }

  /** Across every run: a published pack keeps its creator, its stored version never goes back, and
      one version is never stored with two contents. */
  lemma {:induction false} ManifestsOnlyAdvance(w: World, ms: seq<Move>, p: Pack)
    requires Inv(w) && CanRun(w, ms) && p in w.st.manifests
    ensures var n := Run(w, ms);
            && p in n.st.manifests
            && n.st.manifests[p].creator == w.st.manifests[p].creator
            && (n.st.manifests[p] == w.st.manifests[p] || n.st.manifests[p].version > w.st.manifests[p].version)
    decreases |ms|
  {
    if ms != [] {
      StepKeeps(w, ms[0]);
      ManifestsOnlyAdvance(Next(w, ms[0]), ms[1..], p);
    }
  }

  lemma {:induction false} SafeForever(w: World, ms: seq<Move>, b: Blob)
    requires Inv(w) && CanRun(w, ms) && Safe(w.st, b)
    ensures Safe(Run(w, ms).st, b) && Run(w, ms).st.objects[b] == w.st.objects[b]
    decreases |ms|
  {
    if ms != [] {
      StepKeeps(w, ms[0]);
      SafeForever(Next(w, ms[0]), ms[1..], b);
    }
  }

  lemma {:induction false} Reachable(ms: seq<Move>, w: World)
    requires Inv(w) && CanRun(w, ms)
    ensures Inv(Run(w, ms))
    decreases |ms|
  {
    if ms != [] {
      StepKeeps(w, ms[0]);
      Reachable(ms[1..], Next(w, ms[0]));
    }
  }

  lemma RunOne(w: World, m: Move)
    requires Enabled(w, m)
    ensures CanRun(w, [m]) && Run(w, [m]) == Next(w, m)
  {
    assert [m][1..] == [];
    assert CanRun(Next(w, m), []) && Run(Next(w, m), []) == Next(w, m);
  }

  ghost predicate Retained(w: World, b: Blob) {
    forall ms :: CanRun(w, ms) ==> b in Run(w, ms).st.objects
  }

  /** A blob of a published pack survives every continuation exactly when it is safe. */
  lemma RetainedIffSafe(w: World, b: Blob)
    requires Inv(w) && b.pack in w.st.manifests
    ensures Retained(w, b) <==> Safe(w.st, b)
  {
    if Safe(w.st, b) {
      forall ms | CanRun(w, ms)
        ensures b in Run(w, ms).st.objects
      {
        SafeForever(w, ms, b);
      }
    } else if b in w.st.objects {
      var due := w.st.ledger.blobs[b].putAt + 1;
      assert b in ExpiredBlobs(w.st.ledger, due);
      RunOne(w, Clean(due, {}));
      assert CanRun(w, [Clean(due, {})]) && b !in Run(w, [Clean(due, {})]).st.objects;
    } else {
      assert CanRun(w, []) && b !in Run(w, []).st.objects;
    }
  }

  /** The version at which the answering section knew its sticker pack. */
  function KnownVersion(w: World, m: Move): nat
    requires Enabled(w, m) && (m.Arrive? || m.Return?)
  {
    var pack := PackOf(if m.Arrive? then m.req else w.waiting[m.id].req);
    if pack in w.st.ledger.packs then w.st.ledger.packs[pack].version
    else if m.Return? && w.waiting[m.id].seen.value.Some? then w.waiting[m.id].seen.value.value.version
    else 0
  }

  function RequestOf(w: World, m: Move): Request
    requires Enabled(w, m) && (m.Arrive? || m.Return?)
  {
    if m.Arrive? then m.req else w.waiting[m.id].req
  }

  // ---- Where the stored bytes come from -----------------------------------------------------------

  /** The request the move answers with Ok, if it answers one so. */
  function Accepted(w: World, m: Move): seq<Request>
    requires Enabled(w, m)
  {
    if (m.Arrive? || m.Return?) && Answer(w, m).Some? && Answer(w, m).value.reply.Ok? then [RequestOf(w, m)] else []
  }

  /** The requests a run acknowledges, in order. */
  function AllAccepted(w: World, ms: seq<Move>): seq<Request>
    requires CanRun(w, ms)
    decreases |ms|
  {
    if ms == [] then [] else Accepted(w, ms[0]) + AllAccepted(Next(w, ms[0]), ms[1..])
  }

  predicate IsUpload(req: Request, b: Blob, bytes: Bytes) {
    req.PutBlob? && Blob(req.pack, req.key) == b && req.bytes == bytes
  }

  /** One of the requests uploaded these bytes for this blob. */
  predicate Uploaded(reqs: seq<Request>, b: Blob, bytes: Bytes) {
    exists i :: 0 <= i < |reqs| && IsUpload(reqs[i], b, bytes)
  }

  predicate Submitted(reqs: seq<Request>, pack: Pack, env: Env) {
    exists i :: 0 <= i < |reqs| && reqs[i].PutManifest? && reqs[i].env == env && env.pack == pack
  }

  /** Every object and every manifest is an old one, or one of the requests brought it. */
  ghost predicate Supplied(st: State, reqs: seq<Request>, st': State) {
    && (forall b :: b in st'.objects ==>
          (b in st.objects && st'.objects[b] == st.objects[b]) || Uploaded(reqs, b, st'.objects[b]))
    && (forall p :: p in st'.manifests ==>
          (p in st.manifests && st'.manifests[p] == st.manifests[p]) || Submitted(reqs, p, st'.manifests[p]))
  }

  lemma DecideSupplies(st: State, known: Option<Entry>, req: Request, now: nat, down: set<Down>)
    ensures var o := Decide(st, known, req, now, down);
            Supplied(st, if o.reply.Ok? then [req] else [], o.state)
  {
    assert [req][0] == req;
  }

  lemma StepSupplies(w: World, m: Move)
    requires Enabled(w, m)
    ensures Supplied(w.st, Accepted(w, m), Next(w, m).st)
  {
    match m {
      case Arrive(_, req, now, down) =>
        DecideSupplies(w.st, Lookup(w.st.ledger, PackOf(req)), req, now, down);
      case Return(id, now, down) =>
        var req, seen, pack := w.waiting[id].req, w.waiting[id].seen.value, PackOf(w.waiting[id].req);
        if Lookup(w.st.ledger, pack).None? && seen.Some? && Trusted(seen.value, pack) {
          var env := seen.value;
          var claimed := w.st.(ledger := Claim(w.st.ledger, pack, env.creator, env.version, now));
          DecideSupplies(claimed, Some(Entry(env.creator, env.version)), req, now, down);
        } else {
          DecideSupplies(w.st, Lookup(w.st.ledger, pack), req, now, down);
        }
      case _ =>
    }
  }

  lemma {:induction false} SuppliedAlong(a: State, first: seq<Request>, b: State, more: seq<Request>, c: State)
    requires Supplied(a, first, b) && Supplied(b, more, c)
    ensures Supplied(a, first + more, c)
  {
    var all := first + more;
    assert forall i :: 0 <= i < |first| ==> all[i] == first[i];
    assert forall i :: 0 <= i < |more| ==> all[|first| + i] == more[i];
    forall x | x in c.objects
      ensures (x in a.objects && c.objects[x] == a.objects[x]) || Uploaded(all, x, c.objects[x])
    {
      if Uploaded(more, x, c.objects[x]) {
        var i :| 0 <= i < |more| && IsUpload(more[i], x, c.objects[x]);
        assert IsUpload(all[|first| + i], x, c.objects[x]);
      }
    }
    forall p | p in c.manifests
      ensures (p in a.manifests && c.manifests[p] == a.manifests[p]) || Submitted(all, p, c.manifests[p])
    {
      if Submitted(more, p, c.manifests[p]) {
        var i :| 0 <= i < |more| && more[i].PutManifest? && more[i].env == c.manifests[p] && c.manifests[p].pack == p;
        assert all[|first| + i] == more[i];
      }
    }
  }

  lemma {:induction false} RunSupplies(w: World, ms: seq<Move>)
    requires CanRun(w, ms)
    ensures Supplied(w.st, AllAccepted(w, ms), Run(w, ms).st)
    decreases |ms|
  {
    if ms != [] {
      StepSupplies(w, ms[0]);
      RunSupplies(Next(w, ms[0]), ms[1..]);
      SuppliedAlong(w.st, Accepted(w, ms[0]), Next(w, ms[0]).st, AllAccepted(Next(w, ms[0]), ms[1..]), Run(w, ms).st);
    }
  }

  /** Over every run from the empty store, each stored object has the bytes of an acknowledged upload
      for its sticker pack and key, and each stored manifest is one that was acknowledged for its
      sticker pack. */
  lemma StoredWasAccepted(ms: seq<Move>)
    requires CanRun(Empty, ms)
    ensures var st, reqs := Run(Empty, ms).st, AllAccepted(Empty, ms);
            && (forall b :: b in st.objects ==> Uploaded(reqs, b, st.objects[b]))
            && (forall p :: p in st.manifests ==> Submitted(reqs, p, st.manifests[p]))
  {
    RunSupplies(Empty, ms);
  }

  /** The backend after an acknowledged upload: the upload's own bytes, unless the ledger has the blob or
      it is an object of a published sticker pack; then what was there stays. Nothing else changes. */
  ghost predicate Stores(st: State, version: nat, req: Request, st': State)
    requires req.PutBlob?
  {
    var b := Blob(req.pack, req.key);
    && st'.manifests == st.manifests
    && b in st'.objects
    && (if b in st.ledger.blobs || (b in st.objects && version > 0) then st'.objects == st.objects
        else st'.objects == st.objects[b := req.bytes])
  }

  lemma TakeBlobStores(st: State, version: nat, req: Request, now: nat, down: set<Down>)
    requires Good(st) && req.PutBlob? && TakeBlob(st, version, req, now, down).reply.Ok?
    ensures Stores(st, version, req, TakeBlob(st, version, req, now, down).state)
  {
  }

  lemma UploadStores(w: World, m: Move)
    requires Inv(w) && Enabled(w, m) && Accepted(w, m) != [] && Accepted(w, m)[0].PutBlob?
    ensures Stores(w.st, KnownVersion(w, m), Accepted(w, m)[0], Next(w, m).st)
  {
    var req, version := RequestOf(w, m), KnownVersion(w, m);
    var known := Lookup(w.st.ledger, req.pack);
    if m.Return? && known.None? && w.waiting[m.id].seen.value.Some? {
      var env := w.waiting[m.id].seen.value.value;
      assert LookupHolds(w.st, w.waiting[m.id]);
      ClaimKeeps(w.st, req.pack, m.now);
      var claimed := w.st.(ledger := Claim(w.st.ledger, req.pack, env.creator, env.version, m.now));
      TakeBlobStores(claimed, version, req, m.now, m.down);
    } else {
      TakeBlobStores(w.st, version, req, m.now, m.down);
    }
  }

  lemma TakeManifestStores(st: State, version: nat, req: Request, now: nat, down: set<Down>)
    requires req.PutManifest? && TakeManifest(st, version, req, now, down).reply.Ok?
    ensures TakeManifest(st, version, req, now, down).state.manifests == st.manifests[req.env.pack := req.env]
  {
  }

  /** The manifest served after an acknowledged publication or retry is the request's. */
  lemma ManifestStores(w: World, m: Move)
    requires Acknowledges(w, m)
    ensures var env := RequestOf(w, m).env;
            Next(w, m).st.manifests == w.st.manifests[env.pack := env]
  {
    var req, version := RequestOf(w, m), KnownVersion(w, m);
    if m.Return? && Lookup(w.st.ledger, req.env.pack).None? && w.waiting[m.id].seen.value.Some? {
      var env := w.waiting[m.id].seen.value.value;
      var claimed := w.st.(ledger := Claim(w.st.ledger, req.env.pack, env.creator, env.version, m.now));
      TakeManifestStores(claimed, version, req, m.now, m.down);
    } else {
      TakeManifestStores(w.st, version, req, m.now, m.down);
    }
  }

  // ---- What an acknowledgement promises -----------------------------------------------------------

  /** The move answers a manifest with Ok. */
  predicate Acknowledges(w: World, m: Move) {
    Enabled(w, m) && Accepted(w, m) != [] && Accepted(w, m)[0].PutManifest?
  }

  /** The row recovered from the manifest that the unlocked lookup found. */
  lemma RecoveredIsSafe(w: World, m: Move, b: Blob)
    requires Inv(w) && Acknowledges(w, m) && m.Return?
    requires var req := RequestOf(w, m);
             b in BlobsOf(req.env.pack, req.keys) && req.env.pack !in w.st.ledger.packs && w.waiting[m.id].seen.value.Some?
    ensures var n := Next(w, m).st;
            && b.pack in n.manifests
            && (Safe(n, b) <==> RequestOf(w, m).env.version != KnownVersion(w, m) || Safe(w.st, b))
  {
    var req := RequestOf(w, m);
    assert LookupHolds(w.st, w.waiting[m.id]);
    var env := w.waiting[m.id].seen.value.value;
    ClaimKeeps(w.st, req.env.pack, m.now);
    var claimed := w.st.(ledger := Claim(w.st.ledger, req.env.pack, env.creator, env.version, m.now));
    TakeManifestKeeps(claimed, Some(Entry(env.creator, env.version)), req, m.now, m.down);
  }

  lemma KnownIsSafe(w: World, m: Move, b: Blob)
    requires Inv(w) && Acknowledges(w, m)
    requires var req := RequestOf(w, m);
             && b in BlobsOf(req.env.pack, req.keys)
             && (req.env.pack in w.st.ledger.packs || (m.Return? && w.waiting[m.id].seen.value.None?))
    ensures var n := Next(w, m).st;
            && b.pack in n.manifests
            && (Safe(n, b) <==> RequestOf(w, m).env.version != KnownVersion(w, m) || Safe(w.st, b))
  {
    if m.Return? {
      assert LookupHolds(w.st, w.waiting[m.id]);
    }
    var req := RequestOf(w, m);
    TakeManifestKeeps(w.st, Lookup(w.st.ledger, req.env.pack), req, m.now, m.down);
  }

  lemma AcknowledgedIsSafe(w: World, m: Move, b: Blob)
    requires Inv(w) && Acknowledges(w, m)
    requires var req := RequestOf(w, m); b in BlobsOf(req.env.pack, req.keys)
    ensures var n := Next(w, m).st;
            && b.pack in n.manifests
            && (Safe(n, b) <==> RequestOf(w, m).env.version != KnownVersion(w, m) || Safe(w.st, b))
  {
    var req := RequestOf(w, m);
    if req.env.pack in w.st.ledger.packs || (m.Return? && w.waiting[m.id].seen.value.None?) {
      KnownIsSafe(w, m, b);
    } else {
      RecoveredIsSafe(w, m, b);
    }
  }

  /** For every acknowledged manifest, answered at once or after the unlocked lookup: a blob it names
      survives every continuation if and only if the version was not the known one or the blob was
      safe before. A retry of the known version is acknowledged without looking at its keys. */
  lemma AcknowledgedIffRetained(w: World, m: Move, b: Blob)
    requires Inv(w) && Acknowledges(w, m)
    requires var req := RequestOf(w, m); b in BlobsOf(req.env.pack, req.keys)
    ensures Retained(Next(w, m), b) <==> RequestOf(w, m).env.version != KnownVersion(w, m) || Safe(w.st, b)
  {
    AcknowledgedIsSafe(w, m, b);
    StepKeeps(w, m);
    RetainedIffSafe(Next(w, m), b);
  }

  /** From the empty store, once a manifest of another than the known version is acknowledged, every
      blob it names is in the backend from then on, whatever else happens, with the bytes of an upload
      of that blob that was acknowledged before. */
  lemma AcknowledgedManifestIsRetained(before: seq<Move>, m: Move, after: seq<Move>, b: Blob)
    requires CanRun(Empty, before)
    requires var w := Run(Empty, before);
             && Acknowledges(w, m) && RequestOf(w, m).env.version != KnownVersion(w, m)
             && b in BlobsOf(RequestOf(w, m).env.pack, RequestOf(w, m).keys)
             && CanRun(Next(w, m), after)
    ensures var n := Next(Run(Empty, before), m);
            && b in n.st.objects && b in Run(n, after).st.objects && Run(n, after).st.objects[b] == n.st.objects[b]
            && Uploaded(AllAccepted(Empty, before), b, Run(n, after).st.objects[b])
  {
    Reachable(before, Empty);
    var w := Run(Empty, before);
    AcknowledgedIsSafe(w, m, b);
    StepKeeps(w, m);
    SafeForever(Next(w, m), after, b);
    StoredWasAccepted(before);
    StepSupplies(w, m);
    assert !Uploaded(Accepted(w, m), b, Next(w, m).st.objects[b]);
  }

  const SampleEnv := Env(7, STORE, 1, 1, [], true)

  /** Publishes a manifest that names nothing, on an empty store. */
  const FirstPublication := [Arrive(0, PutManifest(SampleEnv, [], true), 0, {}), Look(0, true), Return(0, 0, {})]

  lemma {:induction false} RunFirst(w: World, m: Move, more: seq<Move>)
    requires Enabled(w, m) && CanRun(Next(w, m), more)
    ensures CanRun(w, [m] + more) && Run(w, [m] + more) == Run(Next(w, m), more)
  {
    assert ([m] + more)[0] == m && ([m] + more)[1..] == more;
  }

  lemma {:induction false} FirstPublicationRuns()
    ensures CanRun(Empty, FirstPublication)
    ensures var w := Run(Empty, FirstPublication);
            && w.st.manifests == map[7 := SampleEnv] && w.st.objects == map[] && w.waiting == map[]
            && w.st.ledger.packs == map[7 := PackRow(1, 1, 0)] && w.st.ledger.blobs == map[]
  {
    var req := PutManifest(SampleEnv, [], true);
    var arrive, look, answer := Arrive(0, req, 0, {}), Look(0, true), Return(0, 0, {});
    var w1, w2 := World(Empty.st, map[0 := Waiting(req, None)]), World(Empty.st, map[0 := Waiting(req, Some(None))]);
    assert Next(Empty, arrive) == w1;
    assert Next(w1, look) == w2;
    FirstPublicationAnswer(w2);
    RunFirst(w2, answer, []);
    RunFirst(w1, look, [answer]);
    RunFirst(Empty, arrive, [look, answer]);
    assert [answer] + [] == [answer] && [look] + [answer] == [look, answer];
    assert [arrive] + [look, answer] == FirstPublication;
  }

  lemma FirstPublicationAnswer(w: World)
    requires w == World(Empty.st, map[0 := Waiting(PutManifest(SampleEnv, [], true), Some(None))])
    ensures var n := Next(w, Return(0, 0, {}));
            && n.st.manifests == map[7 := SampleEnv] && n.st.objects == map[] && n.waiting == map[]
            && n.st.ledger.packs == map[7 := PackRow(1, 1, 0)] && n.st.ledger.blobs == map[]
  {
    assert PacksOf(EmptyLedger, 1) == {} && Named(EmptyLedger, 7) == {};
    assert BlobsOf(7, []) == {};
    assert UnnamedBlobs(Publish(EmptyLedger, 7, 1, 1, [], 0), 7) == {};
  }

  /** An acknowledged retry, reached from the empty store, names a blob that was never stored. */
  lemma RetryAcknowledgesMissingBlob() returns (m: Move, b: Blob)
    ensures CanRun(Empty, FirstPublication)
    ensures var w := Run(Empty, FirstPublication);
            && Acknowledges(w, m) && b in BlobsOf(RequestOf(w, m).env.pack, RequestOf(w, m).keys)
            && b !in Next(w, m).st.objects
  {
    FirstPublicationRuns();
    m, b := Arrive(1, PutManifest(SampleEnv, [9], true), 0, {}), Blob(7, 9);
    assert b == Blob(7, [9][0]);
  }
}
