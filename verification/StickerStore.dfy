/**
 The gateway's sticker store (gateway/src/store/mod.rs and ledger.rs): a ledger of packs and blobs
 beside an object store, as values. A request is one or two sections under the ledger lock; each
 section is a function here, and `StickerService` has the same sections as the code runs them.

 Failure model: a backend call succeeds or fails without effect, and ledger writes succeed.
 */
module StickerStore {
  import opened Common

  type Pack = nat
  type Key = nat
  type Creator = nat
  type Bytes = seq<bv8>

  const STORE: nat := 1
  const BLOB_MAX_BYTES: nat := 256 * 1024 + 64
  const PACK_MAX_STICKERS: nat := 100
  const MAX_PACKS_PER_CREATOR: nat := 5
  const UNNAMED_MAX: nat := 2 * PACK_MAX_STICKERS

  datatype Blob = Blob(pack: Pack, key: Key)

  datatype PackRow = PackRow(creator: Creator, version: nat, claimedAt: nat)

  datatype BlobRow = BlobRow(named: bool, putAt: nat)

  datatype Ledger = Ledger(packs: map<Pack, PackRow>, blobs: map<Blob, BlobRow>)

  /** A signed manifest envelope; `valid` is the verdict on its signature and size. */
  datatype Env = Env(pack: Pack, store: nat, creator: Creator, version: nat, body: Bytes, valid: bool)

  /** Ledger, stored manifests and stored blobs; the two kinds of object never share a path. */
  datatype State = State(ledger: Ledger, manifests: map<Pack, Env>, objects: map<Blob, Bytes>)

  datatype Request =
    | PutBlob(pack: Pack, store: nat, key: Key, creator: Creator, bytes: Bytes, signed: bool)
    | PutManifest(env: Env, keys: seq<Key>, signed: bool)

  datatype Reject = BadSignature | NotOwner | StaleVersion | TooLarge | QuotaExceeded | WrongStore
                  | Unavailable | PackFull | MissingBlob

  datatype Reply = Ok | Rejected(reason: Reject)

  /** Backend calls of one request or sweep that fail. */
  datatype Down = GetManifest | StoreManifest | GetBlob(blob: Blob) | StoreBlob(blob: Blob) | Delete(blob: Blob)

  datatype Entry = Entry(creator: Creator, version: nat)

  datatype Outcome = Outcome(state: State, reply: Reply)

  function PackOf(req: Request): Pack {
    match req case PutBlob(pack, _, _, _, _, _) => pack case PutManifest(env, _, _) => env.pack
  }

  function CreatorOf(req: Request): Creator {
    match req case PutBlob(_, _, _, creator, _, _) => creator case PutManifest(env, _, _) => env.creator
  }

  function StoreOf(req: Request): nat {
    match req case PutBlob(_, store, _, _, _, _) => store case PutManifest(env, _, _) => env.store
  }

  predicate Verified(req: Request) {
    req.signed && (req.PutManifest? ==> req.env.valid)
  }

  /** What a request is refused for before it reaches the ledger. */
  function Gate(req: Request): Option<Reject> {
    if StoreOf(req) != STORE then Some(WrongStore)
    else if req.PutBlob? && |req.bytes| > BLOB_MAX_BYTES then Some(TooLarge)
    else if !Verified(req) then Some(BadSignature)
    else None
  }

  // ---- Ledger -----------------------------------------------------------------------------------

  function Lookup(l: Ledger, pack: Pack): Option<Entry> {
    if pack in l.packs then Some(Entry(l.packs[pack].creator, l.packs[pack].version)) else None
  }

  function PacksOf(l: Ledger, creator: Creator): set<Pack> {
    set p | p in l.packs && l.packs[p].creator == creator
  }

  function Named(l: Ledger, pack: Pack): set<Key> {
    set b | b in l.blobs && b.pack == pack && l.blobs[b].named :: b.key
  }

  function Unnamed(l: Ledger, pack: Pack): set<Key> {
    set b | b in l.blobs && b.pack == pack && !l.blobs[b].named :: b.key
  }

  function Claim(l: Ledger, pack: Pack, creator: Creator, version: nat, now: nat): Ledger {
    if pack in l.packs then l else l.(packs := l.packs[pack := PackRow(creator, version, now)])
  }

  function AddBlob(l: Ledger, pack: Pack, creator: Creator, key: Key, now: nat): Ledger {
    var claimed := Claim(l, pack, creator, 0, now);
    if Blob(pack, key) in l.blobs then claimed
    else claimed.(blobs := l.blobs[Blob(pack, key) := BlobRow(false, now)])
  }

  function BlobsOf(pack: Pack, keys: seq<Key>): set<Blob> {
    set i | 0 <= i < |keys| :: Blob(pack, keys[i])
  }

  /** Rows of a publication: every named key is marked, and inserted if it was missing. */
  function NameRows(blobs: map<Blob, BlobRow>, names: set<Blob>, now: nat): map<Blob, BlobRow> {
    map b | b in blobs.Keys + names ::
      if b !in names then blobs[b]
      else if b in blobs then blobs[b].(named := true)
      else BlobRow(true, now)
  }

  function Publish(l: Ledger, pack: Pack, creator: Creator, version: nat, keys: seq<Key>, now: nat): Ledger {
    var row := if pack in l.packs then l.packs[pack].(version := version) else PackRow(creator, version, now);
    Ledger(l.packs[pack := row], NameRows(l.blobs, BlobsOf(pack, keys), now))
  }

  function UnnamedBlobs(l: Ledger, pack: Pack): set<Blob> {
    set b | b in l.blobs && b.pack == pack && !l.blobs[b].named
  }

  predicate HasRows(l: Ledger, pack: Pack) {
    exists b :: b in l.blobs && b.pack == pack
  }

  function DropPacks(l: Ledger, packs: set<Pack>): Ledger {
    l.(packs := map p | p in l.packs && !(p in packs && l.packs[p].version == 0 && !HasRows(l, p)) :: l.packs[p])
  }

  function ExpiredPacks(l: Ledger, before: nat): set<Pack> {
    set p | p in l.packs && l.packs[p].version == 0 && l.packs[p].claimedAt < before
  }

  function ExpiredBlobs(l: Ledger, before: nat): set<Blob> {
    set b | b in l.blobs && !l.blobs[b].named && l.blobs[b].putAt < before
  }

  // ---- Sections ---------------------------------------------------------------------------------

  /** Objects whose deletion succeeds, gone with their rows. */
  function DeleteBlobs(st: State, blobs: set<Blob>, down: set<Down>): State {
    var gone := set b | b in blobs && Delete(b) !in down;
    st.(objects := st.objects - gone, ledger := st.ledger.(blobs := st.ledger.blobs - gone))
  }

  function Sweep(st: State, before: nat, down: set<Down>): State {
    var packs := ExpiredPacks(st.ledger, before);
    var swept := DeleteBlobs(st, ExpiredBlobs(st.ledger, before), down);
    swept.(ledger := DropPacks(swept.ledger, packs))
  }

  function Refuse(st: State, reason: Reject): Outcome {
    Outcome(st, Rejected(reason))
  }

  function TakeBlob(st: State, version: nat, req: Request, now: nat, down: set<Down>): Outcome
    requires req.PutBlob?
  {
    var blob := Blob(req.pack, req.key);
    if blob in st.ledger.blobs then Outcome(st, Ok)
    else if version > 0 && GetBlob(blob) in down then Refuse(st, Unavailable)
    else if version > 0 && blob in st.objects then Outcome(st, Ok)
    else if |Unnamed(st.ledger, req.pack)| >= UNNAMED_MAX then Refuse(st, PackFull)
    else if StoreBlob(blob) in down then Refuse(st, Unavailable)
    else
      Outcome(st.(objects := st.objects[blob := req.bytes],
                  ledger := AddBlob(st.ledger, req.pack, req.creator, req.key, now)), Ok)
  }

  /** Why a key cannot be published, if it cannot. */
  function KeyFault(st: State, blob: Blob, down: set<Down>): Option<Reject> {
    if blob in st.ledger.blobs then None
    else if GetBlob(blob) in down then Some(Unavailable)
    else if blob !in st.objects then Some(MissingBlob)
    else None
  }

  /** The first fault among the keys, in order. */
  function KeysFault(st: State, pack: Pack, keys: seq<Key>, down: set<Down>): Option<Reject>
    decreases |keys|
  {
    if keys == [] then None
    else
      var fault := KeyFault(st, Blob(pack, keys[0]), down);
      if fault.Some? then fault else KeysFault(st, pack, keys[1..], down)
  }

  function TakeManifest(st: State, version: nat, req: Request, now: nat, down: set<Down>): Outcome
    requires req.PutManifest?
  {
    var env := req.env;
    if env.version < version then Refuse(st, StaleVersion)
    else if env.version == version then
      if GetManifest in down then Refuse(st, Unavailable)
      else if env.pack in st.manifests && st.manifests[env.pack] == env then Outcome(st, Ok)
      else Refuse(st, StaleVersion)
    else if |req.keys| > PACK_MAX_STICKERS || exists k :: k in Named(st.ledger, env.pack) && k !in req.keys then
      Refuse(st, PackFull)
    else
      var fault := KeysFault(st, env.pack, req.keys, down);
      if fault.Some? then Refuse(st, fault.value)
      else if StoreManifest in down then Refuse(st, Unavailable)
      else
        var ledger := Publish(st.ledger, env.pack, env.creator, env.version, req.keys, now);
        var published := st.(manifests := st.manifests[env.pack := env], ledger := ledger);
        Outcome(DeleteBlobs(published, UnnamedBlobs(ledger, env.pack), down), Ok)
  }

  /** The section that decides a request, `known` being the row of its sticker pack. */
  function Decide(st: State, known: Option<Entry>, req: Request, now: nat, down: set<Down>): Outcome {
    if known.Some? && known.value.creator != CreatorOf(req) then Refuse(st, NotOwner)
    else if known.None? && |PacksOf(st.ledger, CreatorOf(req))| >= MAX_PACKS_PER_CREATOR then
      Refuse(st, QuotaExceeded)
    else
      var version := if known.Some? then known.value.version else 0;
      match req
      case PutBlob(_, _, _, _, _, _) => TakeBlob(st, version, req, now, down)
      case PutManifest(_, _, _) => TakeManifest(st, version, req, now, down)
  }

  predicate Trusted(env: Env, pack: Pack) {
    env.pack == pack && env.store == STORE && env.valid
  }

  /** The section after an unlocked manifest lookup that found `stored`: the row is looked up again,
      and ownership is recovered from the manifest only if it is still missing. */
  function Resume(st: State, stored: Option<Env>, req: Request, now: nat, down: set<Down>): Outcome {
    var pack := PackOf(req);
    var known := Lookup(st.ledger, pack);
    if known.None? && stored.Some? then
      var env := stored.value;
      if !Trusted(env, pack) then Refuse(st, Unavailable)
      else
        var claimed := st.(ledger := Claim(st.ledger, pack, env.creator, env.version, now));
        Decide(claimed, Some(Entry(env.creator, env.version)), req, now, down)
    else Decide(st, known, req, now, down)
  }
}
