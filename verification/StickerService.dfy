/**
 The sticker store as the gateway runs it: tables and objects changed row by row and object by
 object. Each method is held to the section of `StickerStore` it implements. A query whose order
 the database leaves open hands out its rows in any order.
 */
module StickerService {
  import opened Common
  import opened StickerStore

  class Service {
    var packs: map<Pack, PackRow>
    var blobs: map<Blob, BlobRow>
    var manifests: map<Pack, Env>
    var objects: map<Blob, Bytes>

    constructor ()
      ensures Now() == State(Ledger(map[], map[]), map[], map[])
    {
      packs, blobs, manifests, objects := map[], map[], map[], map[];
    }

    function Rows(): Ledger
      reads this
    {
      Ledger(packs, blobs)
    }

    function Now(): State
      reads this
    {
      State(Rows(), manifests, objects)
    }

    method ClaimPack(pack: Pack, creator: Creator, version: nat, now: nat)
      modifies this
      ensures Now() == old(Now()).(ledger := Claim(old(Rows()), pack, creator, version, now))
    {
      if pack !in packs {
        packs := packs[pack := PackRow(creator, version, now)];
      }
    }

    method InsertBlob(pack: Pack, creator: Creator, key: Key, now: nat)
      modifies this
      ensures Now() == old(Now()).(ledger := AddBlob(old(Rows()), pack, creator, key, now))
    {
      if pack !in packs {
        packs := packs[pack := PackRow(creator, 0, now)];
      }
      if Blob(pack, key) !in blobs {
        blobs := blobs[Blob(pack, key) := BlobRow(false, now)];
      }
    }

    method NameKeys(pack: Pack, keys: seq<Key>, now: nat)
      modifies this`blobs
      ensures blobs == NameRows(old(blobs), BlobsOf(pack, keys), now)
    {
      var i := 0;
      while i < |keys|
        invariant 0 <= i <= |keys|
        invariant blobs == NameRows(old(blobs), BlobsOf(pack, keys[..i]), now)
      {
        var blob := Blob(pack, keys[i]);
        assert keys[..i + 1] == keys[..i] + [keys[i]];
        OneMoreKey(pack, keys, i);
        OneMoreName(old(blobs), BlobsOf(pack, keys[..i]), blob, now);
        if blob in blobs {
          blobs := blobs[blob := blobs[blob].(named := true)];
        } else {
          blobs := blobs[blob := BlobRow(true, now)];
        }
        i := i + 1;
      }
      assert keys[..i] == keys;
    }

    /** Records a stored manifest and returns the blobs it left unreferenced. */
    method PublishRows(pack: Pack, creator: Creator, version: nat, keys: seq<Key>, now: nat)
      returns (unnamed: set<Blob>)
      modifies this
      ensures Now() == old(Now()).(ledger := Publish(old(Rows()), pack, creator, version, keys, now))
      ensures unnamed == UnnamedBlobs(Rows(), pack)
    {
      if pack in packs {
        packs := packs[pack := packs[pack].(version := version)];
      } else {
        packs := packs[pack := PackRow(creator, version, now)];
      }
      NameKeys(pack, keys, now);
      unnamed := UnnamedBlobs(Rows(), pack);
    }

    method Forget(blob: Blob)
      modifies this
      ensures Now() == old(Now()).(ledger := old(Rows()).(blobs := old(blobs) - {blob}))
    {
      blobs := blobs - {blob};
    }

    method DropPack(pack: Pack)
      modifies this
      ensures Now() == old(Now()).(ledger := DropPacks(old(Rows()), {pack}))
    {
      if pack in packs && packs[pack].version == 0 && !exists b :: b in blobs && b.pack == pack {
        packs := packs - {pack};
      }
      assert packs == DropPacks(old(Rows()), {pack}).packs;
    }

    method DeleteObjects(doomed: set<Blob>, down: set<Down>) returns (gone: set<Blob>)
      modifies this`objects
      ensures gone == set b | b in doomed && Delete(b) !in down
      ensures objects == old(objects) - gone
    {
      var rest := doomed;
      gone := {};
      while rest != {}
        invariant rest <= doomed
        invariant gone == set b | b in doomed - rest && Delete(b) !in down
        invariant objects == old(objects) - gone
        decreases |rest|
      {
        var blob :| blob in rest;
        rest := rest - {blob};
        if Delete(blob) !in down {
          objects := objects - {blob};
          gone := gone + {blob};
        }
      }
    }

    /** Deletes objects, then forgets the ones that are gone. */
    method RemoveBlobs(doomed: set<Blob>, down: set<Down>)
      modifies this
      ensures Now() == DeleteBlobs(old(Now()), doomed, down)
    {
      var gone := DeleteObjects(doomed, down);
      var left := gone;
      while left != {}
        invariant left <= gone
        invariant packs == old(packs) && manifests == old(manifests) && objects == old(objects) - gone
        invariant blobs == old(blobs) - (gone - left)
        decreases |left|
      {
        var blob :| blob in left;
        Forget(blob);
        left := left - {blob};
        assert old(blobs) - (gone - left) == old(blobs) - (gone - left - {blob}) - {blob};
      }
      assert gone - left == gone;
    }

    method SweepBefore(before: nat, down: set<Down>)
      modifies this
      ensures Now() == Sweep(old(Now()), before, down)
    {
      var stale := ExpiredPacks(Rows(), before);
      var doomed := ExpiredBlobs(Rows(), before);
      RemoveBlobs(doomed, down);
      ghost var mid := Rows();
      var rest := stale;
      while rest != {}
        invariant rest <= stale
        invariant Now() == DeleteBlobs(old(Now()), doomed, down).(ledger := DropPacks(mid, stale - rest))
        decreases |rest|
      {
        var pack :| pack in rest;
        DropPack(pack);
        rest := rest - {pack};
        assert packs == DropPacks(mid, stale - rest).packs;
      }
      assert stale - rest == stale;
    }

    method PutBlobLocked(version: nat, req: Request, now: nat, down: set<Down>) returns (reply: Reply)
      requires req.PutBlob?
      modifies this
      ensures Outcome(Now(), reply) == TakeBlob(old(Now()), version, req, now, down)
    {
      var blob := Blob(req.pack, req.key);
      if blob in blobs {
        return Ok;
      }
      if version > 0 {
        if GetBlob(blob) in down {
          return Rejected(Unavailable);
        }
        if blob in objects {
          return Ok;
        }
      }
      if |Unnamed(Rows(), req.pack)| >= UNNAMED_MAX {
        return Rejected(PackFull);
      }
      if StoreBlob(blob) in down {
        return Rejected(Unavailable);
      }
      objects := objects[blob := req.bytes];
      InsertBlob(req.pack, req.creator, req.key, now);
      reply := Ok;
    }

    method PutManifestLocked(version: nat, req: Request, now: nat, down: set<Down>) returns (reply: Reply)
      requires req.PutManifest?
      modifies this
      ensures Outcome(Now(), reply) == TakeManifest(old(Now()), version, req, now, down)
    {
      var env := req.env;
      if env.version < version {
        return Rejected(StaleVersion);
      }
      if env.version == version {
        if GetManifest in down {
          return Rejected(Unavailable);
        }
        return if env.pack in manifests && manifests[env.pack] == env then Ok else Rejected(StaleVersion);
      }
      if |req.keys| > PACK_MAX_STICKERS || exists k :: k in Named(Rows(), env.pack) && k !in req.keys {
        return Rejected(PackFull);
      }
      var i := 0;
      while i < |req.keys|
        invariant 0 <= i <= |req.keys|
        invariant Now() == old(Now())
        invariant KeysFault(Now(), env.pack, req.keys, down) == KeysFault(Now(), env.pack, req.keys[i..], down)
      {
        var blob := Blob(env.pack, req.keys[i]);
        assert req.keys[i..][1..] == req.keys[i + 1..];
        if blob !in blobs {
          if GetBlob(blob) in down {
            return Rejected(Unavailable);
          }
          if blob !in objects {
            return Rejected(MissingBlob);
          }
        }
        i := i + 1;
      }
      if StoreManifest in down {
        return Rejected(Unavailable);
      }
      manifests := manifests[env.pack := env];
      var unnamed := PublishRows(env.pack, env.creator, env.version, req.keys, now);
      RemoveBlobs(unnamed, down);
      reply := Ok;
    }

    method DecideLocked(known: Option<Entry>, req: Request, now: nat, down: set<Down>) returns (reply: Reply)
      modifies this
      ensures Outcome(Now(), reply) == Decide(old(Now()), known, req, now, down)
    {
      var version := 0;
      match known {
        case Some(entry) =>
          if entry.creator != CreatorOf(req) {
            return Rejected(NotOwner);
          }
          version := entry.version;
        case None =>
          if |PacksOf(Rows(), CreatorOf(req))| >= MAX_PACKS_PER_CREATOR {
            return Rejected(QuotaExceeded);
          }
      }
      if req.PutBlob? {
        reply := PutBlobLocked(version, req, now, down);
      } else {
        reply := PutManifestLocked(version, req, now, down);
      }
    }

    method ResumeLocked(stored: Option<Env>, req: Request, now: nat, down: set<Down>) returns (reply: Reply)
      modifies this
      ensures Outcome(Now(), reply) == Resume(old(Now()), stored, req, now, down)
    {
      var pack := PackOf(req);
      var known := Lookup(Rows(), pack);
      if known.None? && stored.Some? {
        var env := stored.value;
        if !Trusted(env, pack) {
          return Rejected(Unavailable);
        }
        ClaimPack(pack, env.creator, env.version, now);
        known := Some(Entry(env.creator, env.version));
      }
      reply := DecideLocked(known, req, now, down);
    }
  }

  lemma OneMoreName(rows: map<Blob, BlobRow>, names: set<Blob>, blob: Blob, now: nat)
    ensures var before := NameRows(rows, names, now);
            NameRows(rows, names + {blob}, now) ==
            before[blob := if blob in before then before[blob].(named := true) else BlobRow(true, now)]
  {
  }

  lemma OneMoreKey(pack: Pack, keys: seq<Key>, i: nat)
    requires i < |keys|
    ensures BlobsOf(pack, keys[..i] + [keys[i]]) == BlobsOf(pack, keys[..i]) + {Blob(pack, keys[i])}
  {
    var more := keys[..i] + [keys[i]];
    assert more[i] == keys[i];
    forall b | b in BlobsOf(pack, keys[..i]) + {Blob(pack, keys[i])}
      ensures b in BlobsOf(pack, more)
    {
      if b != Blob(pack, keys[i]) {
        var j :| 0 <= j < i && b == Blob(pack, keys[..i][j]);
        assert more[j] == keys[..i][j];
      }
    }
  }
}
