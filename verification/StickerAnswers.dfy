/**
 When the sticker store acknowledges a request, over all its checks and backend calls, and what a
 sweep and a publication's clean-up leave (gateway/src/store/mod.rs and ledger.rs).
 */
module StickerAnswers {
  import opened Common
  import opened StickerStore
  import opened StickerRuns

  /** A request for this store, signed, its manifest in order or its blob of 256 KiB and 64 octets at
      most. */
  predicate InOrder(req: Request) {
    match req
    case PutBlob(_, store, _, _, bytes, signed) => store == STORE && |bytes| <= 262_208 && signed
    case PutManifest(env, _, signed) => env.store == STORE && signed && env.valid
  }

  lemma AdmittedIff(req: Request)
    ensures Gate(req).None? <==> InOrder(req)
  {
  }

  /** The sticker pack is the creator's, or free while the creator has fewer than five. */
  predicate MayClaim(st: State, known: Option<Entry>, creator: Creator) {
    if known.Some? then known.value.creator == creator else |PacksOf(st.ledger, creator)| < 5
  }

  /** The ledger has the blob; or the backend can be asked for it, as a published sticker pack needs, and
      has it; or there is room among 200 and the backend takes it. */
  predicate MayUpload(st: State, version: nat, req: Request, down: set<Down>)
    requires req.PutBlob?
  {
    var b := Blob(req.pack, req.key);
    || b in st.ledger.blobs
    || (version > 0 && b in st.objects && GetBlob(b) !in down)
    || ((version > 0 ==> b !in st.objects && GetBlob(b) !in down) && |Unnamed(st.ledger, req.pack)| < 200
        && StoreBlob(b) !in down)
  }

  /** Known to the ledger, or found in a backend that answers. */
  predicate Present(st: State, b: Blob, down: set<Down>) {
    b in st.ledger.blobs || (b in st.objects && GetBlob(b) !in down)
  }

  /** A newer version with at most 100 keys, none that was named before left out and each one present; or
      the very manifest that is stored, again. */
  predicate MayPublish(st: State, version: nat, req: Request, down: set<Down>)
    requires req.PutManifest?
  {
    if req.env.version == version then
      GetManifest !in down && Stored(st, req.env.pack) == Some(req.env)
    else
      && req.env.version > version && |req.keys| <= 100 && StoreManifest !in down
      && (forall b :: b in st.ledger.blobs && b.pack == req.env.pack && st.ledger.blobs[b].named ==> b.key in req.keys)
      && (forall i :: 0 <= i < |req.keys| ==> Present(st, Blob(req.env.pack, req.keys[i]), down))
  }

  lemma {:induction false} NoFaultIff(st: State, pack: Pack, keys: seq<Key>, down: set<Down>)
    ensures KeysFault(st, pack, keys, down).None? <==>
            forall i :: 0 <= i < |keys| ==> Present(st, Blob(pack, keys[i]), down)
    decreases |keys|
  {
    if keys != [] {
      NoFaultIff(st, pack, keys[1..], down);
      assert forall i :: 0 <= i < |keys| - 1 ==> keys[1..][i] == keys[i + 1];
      assert (forall i :: 0 <= i < |keys| ==> Present(st, Blob(pack, keys[i]), down)) <==>
             Present(st, Blob(pack, keys[0]), down) && forall i :: 0 <= i < |keys[1..]| ==> Present(st, Blob(pack, keys[1..][i]), down) by {
        AllOrFirst(st, pack, keys, down);
      }
    }
  }

  lemma AllOrFirst(st: State, pack: Pack, keys: seq<Key>, down: set<Down>)
    requires keys != []
    ensures (forall i :: 0 <= i < |keys| ==> Present(st, Blob(pack, keys[i]), down)) <==>
            Present(st, Blob(pack, keys[0]), down) && forall i :: 0 <= i < |keys[1..]| ==> Present(st, Blob(pack, keys[1..][i]), down)
  {
    if forall i :: 0 <= i < |keys| ==> Present(st, Blob(pack, keys[i]), down) {
      forall i | 0 <= i < |keys[1..]|
        ensures Present(st, Blob(pack, keys[1..][i]), down)
      {
        assert keys[1..][i] == keys[i + 1];
      }
    } else {
      var i :| 0 <= i < |keys| && !Present(st, Blob(pack, keys[i]), down);
      if i > 0 {
        assert keys[1..][i - 1] == keys[i];
      }
    }
  }

  lemma UploadTakenIff(st: State, version: nat, req: Request, now: nat, down: set<Down>)
    requires req.PutBlob?
    ensures TakeBlob(st, version, req, now, down).reply.Ok? <==> MayUpload(st, version, req, down)
  {
  }

  lemma NamesKept(l: Ledger, pack: Pack, keys: seq<Key>)
    ensures (exists k :: k in Named(l, pack) && k !in keys) <==>
            !(forall b :: b in l.blobs && b.pack == pack && l.blobs[b].named ==> b.key in keys)
  {
    if exists k :: k in Named(l, pack) && k !in keys {
      var k :| k in Named(l, pack) && k !in keys;
      var b :| b in l.blobs && b.pack == pack && l.blobs[b].named && b.key == k;
    } else {
      forall b | b in l.blobs && b.pack == pack && l.blobs[b].named
        ensures b.key in keys
      {
        assert b.key in Named(l, pack);
      }
    }
  }

  lemma ManifestTakenIff(st: State, version: nat, req: Request, now: nat, down: set<Down>)
    requires req.PutManifest?
    ensures TakeManifest(st, version, req, now, down).reply.Ok? <==> MayPublish(st, version, req, down)
  {
    NamesKept(st.ledger, req.env.pack, req.keys);
    NoFaultIff(st, req.env.pack, req.keys, down);
  }

  /** A request past the gate is acknowledged exactly if its creator may have the sticker pack and the
      upload or the manifest can be taken: nothing else is refused, and no backend call that was not
      needed can fail it. */
  lemma AcknowledgedIff(st: State, known: Option<Entry>, req: Request, now: nat, down: set<Down>)
    ensures var version := if known.Some? then known.value.version else 0;
            Decide(st, known, req, now, down).reply.Ok? <==>
              MayClaim(st, known, CreatorOf(req))
              && if req.PutBlob? then MayUpload(st, version, req, down) else MayPublish(st, version, req, down)
  {
    var version := if known.Some? then known.value.version else 0;
    if req.PutBlob? {
      UploadTakenIff(st, version, req, now, down);
    } else {
      ManifestTakenIff(st, version, req, now, down);
    }
  }

  /** A refusal leaves the store alone, but for the row of a published sticker pack that was recovered. */
  lemma RefusedChangesNothing(st: State, known: Option<Entry>, req: Request, now: nat, down: set<Down>)
    requires !Decide(st, known, req, now, down).reply.Ok?
    ensures Decide(st, known, req, now, down).state == st
  {
  }

  /** A key of the list that neither the ledger nor the backend has. */
  predicate Lacks(st: State, pack: Pack, keys: seq<Key>) {
    exists i :: 0 <= i < |keys| && Blob(pack, keys[i]) !in st.ledger.blobs && Blob(pack, keys[i]) !in st.objects
  }

  lemma {:induction false} FaultMeansIt(st: State, pack: Pack, keys: seq<Key>, down: set<Down>)
    ensures var fault := KeysFault(st, pack, keys, down);
            && (fault == Some(MissingBlob) ==> Lacks(st, pack, keys))
            && (fault.Some? && fault != Some(MissingBlob) ==> fault == Some(Unavailable) && down != {})
    decreases |keys|
  {
    if keys != [] {
      FaultMeansIt(st, pack, keys[1..], down);
      assert forall i :: 0 <= i < |keys| - 1 ==> keys[1..][i] == keys[i + 1];
    }
  }

  /** Every reason given is the true one. */
  predicate TrueReason(st: State, known: Option<Entry>, req: Request, down: set<Down>, reason: Reject) {
    var version := if known.Some? then known.value.version else 0;
    match reason
    case NotOwner => known.Some? && known.value.creator != CreatorOf(req)
    case QuotaExceeded => known.None? && |PacksOf(st.ledger, CreatorOf(req))| >= 5
    case StaleVersion =>
      req.PutManifest? && (req.env.version < version || (req.env.version == version && Stored(st, req.env.pack) != Some(req.env)))
    case PackFull =>
      if req.PutBlob? then |Unnamed(st.ledger, req.pack)| >= 200
      else |req.keys| > 100 || exists b :: b in st.ledger.blobs && b.pack == req.env.pack && st.ledger.blobs[b].named && b.key !in req.keys
    case MissingBlob => req.PutManifest? && Lacks(st, req.env.pack, req.keys)
    case Unavailable => down != {}
    case _ => false
  }

  lemma RefusedForTrueReason(st: State, known: Option<Entry>, req: Request, now: nat, down: set<Down>)
    ensures var reply := Decide(st, known, req, now, down).reply;
            reply.Rejected? ==> TrueReason(st, known, req, down, reply.reason)
  {
    if req.PutManifest? {
      FaultMeansIt(st, req.env.pack, req.keys, down);
      NamesKept(st.ledger, req.env.pack, req.keys);
    }
  }

  /** At the gate: another store, then a blob that is too large, then a bad signature. */
  lemma GateForTrueReason(req: Request)
    ensures Gate(req) == Some(WrongStore) <==> StoreOf(req) != STORE
    ensures Gate(req) == Some(TooLarge) <==> StoreOf(req) == STORE && req.PutBlob? && |req.bytes| > 262_208
    ensures Gate(req).Some? ==> Gate(req).value in {WrongStore, TooLarge, BadSignature}
  {
  }

  // ---- What goes away -----------------------------------------------------------------------------

  /** An upload older than `before` that no manifest names, and that the backend deletes. */
  predicate Abandoned(st: State, b: Blob, before: nat, down: set<Down>) {
    b in st.ledger.blobs && !st.ledger.blobs[b].named && st.ledger.blobs[b].putAt < before && Delete(b) !in down
  }

  /** A sweep removes exactly the abandoned uploads, row and object, and exactly the unpublished sticker
      packs claimed before that have no upload left; a delete that fails keeps both row and object for
      the next time. */
  lemma SweepsExactly(st: State, before: nat, down: set<Down>)
    ensures var n := Sweep(st, before, down);
            && n.manifests == st.manifests
            && (forall b :: b in n.objects <==> b in st.objects && !Abandoned(st, b, before, down))
            && (forall b :: b in n.objects ==> n.objects[b] == st.objects[b])
            && (forall b :: b in n.ledger.blobs <==> b in st.ledger.blobs && !Abandoned(st, b, before, down))
            && (forall b :: b in n.ledger.blobs ==> n.ledger.blobs[b] == st.ledger.blobs[b])
            && (forall p :: p in n.ledger.packs ==> p in st.ledger.packs && n.ledger.packs[p] == st.ledger.packs[p])
            && (forall p :: p in st.ledger.packs ==>
                  (p !in n.ledger.packs <==>
                     st.ledger.packs[p].version == 0 && st.ledger.packs[p].claimedAt < before && !HasRows(n.ledger, p)))
  {
  }

  /** After a publication only its own keys are left of the sticker pack's uploads, but for those whose
      deletion failed; nothing of another sticker pack is touched. */
  lemma PublicationCleans(st: State, version: nat, req: Request, now: nat, down: set<Down>)
    requires Publishes(st, version, req, now, down)
    ensures var n := TakeManifest(st, version, req, now, down).state;
            var names := BlobsOf(req.env.pack, req.keys);
            && (forall b :: b in n.objects <==> b in st.objects && !(Dropped(st, b, req, down)))
            && (forall b :: b in n.ledger.blobs <==> (b in st.ledger.blobs && !Dropped(st, b, req, down)) || b in names)
  {
    NamedAfter(st.ledger, req, now);
  }

  predicate Dropped(st: State, b: Blob, req: Request, down: set<Down>)
    requires req.PutManifest?
  {
    && b in st.ledger.blobs && !st.ledger.blobs[b].named && b.pack == req.env.pack
    && b !in BlobsOf(req.env.pack, req.keys) && Delete(b) !in down
  }
}
