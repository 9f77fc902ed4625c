// A workspace mirrored to a shared object store (max_ai/capabilities/workspace/_remote.py).
module Remote {
  import opened Common

  datatype Key = Key(path: string)
  datatype Hash = Hash(hex: string)
  type Files = map<Key, Hash>

  // An object's content, and whether it carries its hash as metadata (one put by `upload`
  // does; one written by somebody else may not).
  datatype Object = Object(content: Hash, tagged: bool)

  type Objects = map<Key, Object>

  function Contents(objects: Objects): Files {
    map key | key in objects :: objects[key].content
  }

  // ---- One key ---------------------------------------------------------------------------

  datatype Cell = Cell(file: Option<Hash>, entry: Option<Hash>)

  function Fetched(c: Cell, stored: Option<Object>): Cell {
    match stored
    case Some(o) =>
      if !o.tagged || c.file != Some(o.content) then Cell(Some(o.content), Some(o.content)) else c
    case None =>
      if c.entry == None then c else Cell(if c.file == c.entry then None else c.file, None)
  }

  predicate Changed(c: Cell) { c.file != c.entry }

  // The object after an upload: only a key whose file left its manifest entry is written.
  function Published(c: Cell, stored: Option<Object>): Option<Object> {
    if !Changed(c) then stored
    else if c.file == None then None
    else Some(Object(c.file.value, true))
  }

  // ---- The code --------------------------------------------------------------------------

  class ObjectStore {
    var objects: Objects

    constructor (objects: Objects)
      ensures this.objects == objects
    {
      this.objects := objects;
    }
  }

  class RemoteWorkspace {
    var local: Files
    var manifest: Files

    constructor ()
      ensures local == manifest == map[]
    {
      local, manifest := map[], map[];
    }

    ghost function At(key: Key): Cell
      reads this
    {
      Cell(Get(local, key), Get(manifest, key))
    }

    method Download(store: ObjectStore)
      modifies this
      ensures forall key :: At(key) == Fetched(old(At(key)), Get(store.objects, key))
    {
      var scanned := local;
      FetchPresent(store, scanned);
      DropAbsent(store, scanned);
    }

    method FetchPresent(store: ObjectStore, scanned: Files)
      requires scanned == local
      modifies this
      ensures forall key :: At(key) == if key in store.objects then Fetched(old(At(key)), Get(store.objects, key))
                                       else old(At(key))
    {
      var keys := store.objects.Keys;
      while keys != {}
        invariant keys <= store.objects.Keys
        invariant forall key :: key in store.objects && key !in keys ==>
                                  At(key) == Fetched(old(At(key)), Get(store.objects, key))
        invariant forall key :: key !in store.objects || key in keys ==> At(key) == old(At(key))
      {
        var key :| key in keys;
        keys := keys - {key};
        assert At(key) == old(At(key));
        var stored := store.objects[key];
        if !stored.tagged || Get(scanned, key) != Some(stored.content) {
          local := local[key := stored.content];
          manifest := manifest[key := stored.content];
        }
        assert At(key) == Fetched(old(At(key)), Get(store.objects, key));
      }
    }

    method DropAbsent(store: ObjectStore, scanned: Files)
      requires forall key :: key !in store.objects ==> Get(local, key) == Get(scanned, key)
      modifies this
      ensures forall key :: At(key) == if key in store.objects then old(At(key)) else Fetched(old(At(key)), None)
    {
      var dropped := set k | k in manifest && k !in store.objects;
      while dropped != {}
        invariant forall key :: key in dropped ==> key !in store.objects && key in manifest
        invariant forall key :: key in store.objects || key in dropped ==> At(key) == old(At(key))
        invariant forall key :: key !in store.objects && key !in dropped ==> At(key) == Fetched(old(At(key)), None)
      {
        var key :| key in dropped;
        dropped := dropped - {key};
        assert At(key) == old(At(key));
        if Get(scanned, key) == Some(manifest[key]) {
          local := local - {key};
        }
        manifest := manifest - {key};
        assert At(key) == Fetched(old(At(key)), None);
      }
    }

    // Returns the keys put and the keys deleted: exactly the files that left their entry.
    method Upload(store: ObjectStore) returns (put: set<Key>, deleted: set<Key>)
      modifies this`manifest, store
      ensures manifest == local
      ensures forall key :: Get(store.objects, key) == Published(old(At(key)), old(Get(store.objects, key)))
      ensures forall key :: key in put <==> key in local && old(Changed(At(key)))
      ensures forall key :: key in deleted <==> key !in local && old(Changed(At(key)))
    {
      put := Put(store);
      deleted := Delete(store);
      assert forall key :: Get(manifest, key) == Get(local, key);
      SameLookups(manifest, local);
    }

    method Delete(store: ObjectStore) returns (deleted: set<Key>)
      modifies this`manifest, store
      ensures forall key :: Get(manifest, key) == if key in local then old(Get(manifest, key)) else None
      ensures forall key :: Get(store.objects, key) ==
                              if key !in local && key in old(manifest) then None else old(Get(store.objects, key))
      ensures forall key :: key in deleted <==> key !in local && key in old(manifest)
    {
      deleted := {};
      var gone := set k | k in manifest && k !in local;
      while gone != {}
        invariant forall key :: key in gone ==> key !in local && key in manifest && key in old(manifest)
        invariant forall key :: key in gone || key in local ==>
                                  && Get(manifest, key) == old(Get(manifest, key))
                                  && Get(store.objects, key) == old(Get(store.objects, key))
        invariant forall key :: key !in gone && key !in local ==>
                                  && key !in manifest
                                  && Get(store.objects, key) ==
                                     if key in old(manifest) then None else old(Get(store.objects, key))
        invariant forall key :: key in deleted <==> key !in local && key !in gone && key in old(manifest)
      {
        var key :| key in gone;
        gone := gone - {key};
        store.objects := store.objects - {key};
        manifest := manifest - {key};
        deleted := deleted + {key};
      }
    }

    method Put(store: ObjectStore) returns (put: set<Key>)
      modifies this`manifest, store
      ensures forall key :: Get(manifest, key) == if key in local then Some(local[key]) else old(Get(manifest, key))
      ensures forall key :: Get(store.objects, key) ==
                              if key in local then Published(old(At(key)), old(Get(store.objects, key)))
                              else old(Get(store.objects, key))
      ensures forall key :: key in put <==> key in local && old(Changed(At(key)))
    {
      var keys := local.Keys;
      put := {};
      while keys != {}
        invariant keys <= local.Keys
        invariant forall key :: key in keys || key !in local ==>
                                  && Get(manifest, key) == old(Get(manifest, key))
                                  && Get(store.objects, key) == old(Get(store.objects, key))
        invariant forall key :: key in local && key !in keys ==>
                                  && Get(manifest, key) == Some(local[key])
                                  && Get(store.objects, key) == Published(old(At(key)), old(Get(store.objects, key)))
        invariant forall key :: key in put <==> key in local && key !in keys && old(Changed(At(key)))
      {
        var key :| key in keys;
        keys := keys - {key};
        if Get(manifest, key) != Some(local[key]) {
          store.objects := store.objects[key := Object(local[key], true)];
          manifest := manifest[key := local[key]];
          put := put + {key};
        }
      }
    }
  }

  // ---- One process, its transfers undisturbed --------------------------------------------

  datatype Cache = Cache(local: Files, manifest: Files)

  function CellOf(c: Cache, key: Key): Cell {
    Cell(Get(c.local, key), Get(c.manifest, key))
  }

  ghost function Downloaded(c: Cache, objects: Objects): Cache {
    Cache(
      map key | key in c.local.Keys + objects.Keys && Fetched(CellOf(c, key), Get(objects, key)).file.Some?
        :: Fetched(CellOf(c, key), Get(objects, key)).file.value,
      map key | key in c.manifest.Keys + objects.Keys && Fetched(CellOf(c, key), Get(objects, key)).entry.Some?
        :: Fetched(CellOf(c, key), Get(objects, key)).entry.value)
  }

  ghost function Uploaded(c: Cache, objects: Objects): Objects {
    map key | key in objects.Keys + c.local.Keys && Published(CellOf(c, key), Get(objects, key)).Some?
      :: Published(CellOf(c, key), Get(objects, key)).value
  }

  lemma DownloadedAt(c: Cache, objects: Objects, key: Key)
    ensures CellOf(Downloaded(c, objects), key) == Fetched(CellOf(c, key), Get(objects, key))
  {
  }

  lemma UploadedAt(c: Cache, objects: Objects, key: Key)
    ensures Get(Uploaded(c, objects), key) == Published(CellOf(c, key), Get(objects, key))
  {
  }

  // Download, edit, upload.
  method RunOnce(workspace: RemoteWorkspace, store: ObjectStore, edit: Files -> Files)
    returns (put: set<Key>, deleted: set<Key>)
    requires workspace.local == workspace.manifest
    modifies workspace, store
    ensures workspace.local == workspace.manifest == Contents(store.objects) == edit(old(Contents(store.objects)))
    ensures forall key :: key in put <==>
                            key in store.objects
                            && old(Get(Contents(store.objects), key)) != Get(Contents(store.objects), key)
    ensures forall key :: key in deleted <==> key !in store.objects && key in old(store.objects)
  {
    ghost var before := store.objects;
    workspace.Download(store);
    forall key
      ensures Get(workspace.local, key) == Get(Contents(before), key)
      ensures Get(workspace.manifest, key) == Get(Contents(before), key)
    {
      DownloadAgreesAtIff(old(workspace.At(key)), Get(before, key));
    }
    SameLookups(workspace.local, Contents(before));
    SameLookups(workspace.manifest, Contents(before));
    workspace.local := edit(workspace.local);
    put, deleted := Publish(workspace, store);
    assert workspace.local.Keys == store.objects.Keys by {
      assert Contents(store.objects).Keys == store.objects.Keys;
    }
  }

  // An upload from a manifest that mirrors the store makes the store mirror the local files.
  method Publish(workspace: RemoteWorkspace, store: ObjectStore) returns (put: set<Key>, deleted: set<Key>)
    requires workspace.manifest == Contents(store.objects)
    modifies workspace`manifest, store
    ensures workspace.manifest == workspace.local == Contents(store.objects)
    ensures forall key :: key in put <==> key in workspace.local
                                          && old(Get(Contents(store.objects), key)) != Some(workspace.local[key])
    ensures forall key :: key in deleted <==> key !in workspace.local && key in old(store.objects)
  {
    ghost var before := store.objects;
    put, deleted := workspace.Upload(store);
    forall key ensures Get(Contents(store.objects), key) == Get(workspace.local, key) {
      assert Get(store.objects, key) == Published(old(workspace.At(key)), Get(before, key));
    }
    SameLookups(Contents(store.objects), workspace.local);
  }

  // After a download, local copy, manifest and store agree on a key exactly when the key had
  // no unpublished change that hides from the store: a new file the store does not have, or a
  // file already equal to a tagged object the manifest has not caught up with.
  lemma DownloadAgreesAtIff(c: Cell, stored: Option<Object>)
    ensures var f := Fetched(c, stored);
            var shared := if stored == None then None else Some(stored.value.content);
            f.file == f.entry == shared
            <==> !(stored == None && c.file != None && c.file != c.entry)
                 && !(stored != None && stored.value.tagged && c.file == shared && c.entry != c.file)
  {
  }

  lemma DownloadAgrees(c: Cache, objects: Objects)
    requires c.local == c.manifest
    ensures Downloaded(c, objects) == Cache(Contents(objects), Contents(objects))
  {
    var d := Downloaded(c, objects);
    forall key
      ensures Get(d.local, key) == Get(Contents(objects), key)
      ensures Get(d.manifest, key) == Get(Contents(objects), key)
    {
      DownloadedAt(c, objects, key);
    }
    SameLookups(d.local, Contents(objects));
    SameLookups(d.manifest, Contents(objects));
  }

  // What becomes of an unpublished edit or deletion when its process downloads again: the file
  // stays as it is if and only if the store has no such object, or already has that content.
  lemma EditSurvivesDownloadIff(c: Cell, stored: Option<Object>)
    requires Changed(c)
    ensures Fetched(c, stored).file == c.file <==> stored == None || c.file == Some(stored.value.content)
  {
  }

  // ---- Serialized runs: one shared file map ----------------------------------------------

  // The store, and every process's cache of it.
  datatype Fleet = Fleet(objects: Objects, caches: map<nat, Cache>)

  // One run: the edit is made on whatever the process has downloaded.
  datatype Run = Run(process: nat, edit: Files -> Files)

  function CacheOf(f: Fleet, p: nat): Cache {
    if p in f.caches then f.caches[p] else Cache(map[], map[])
  }

  ghost function Ran(f: Fleet, r: Run): Fleet {
    var fetched := Downloaded(CacheOf(f, r.process), f.objects);
    var edited := fetched.(local := r.edit(fetched.local));
    Fleet(Uploaded(edited, f.objects), f.caches[r.process := Cache(edited.local, edited.local)])
  }

  ghost function RanAll(f: Fleet, runs: seq<Run>): Fleet {
    if runs == [] then f else Ran(RanAll(f, runs[..|runs| - 1]), runs[|runs| - 1])
  }

  // The abstract program: there is one file map, and every run edits it.
  function Edited(files: Files, runs: seq<Run>): Files {
    if runs == [] then files else runs[|runs| - 1].edit(Edited(files, runs[..|runs| - 1]))
  }

  ghost predicate AtRest(f: Fleet) {
    forall p :: CacheOf(f, p).local == CacheOf(f, p).manifest
  }

  lemma RunEditsTheSharedMap(f: Fleet, r: Run)
    requires AtRest(f)
    ensures AtRest(Ran(f, r)) && Contents(Ran(f, r).objects) == r.edit(Contents(f.objects))
  {
    var fetched := Downloaded(CacheOf(f, r.process), f.objects);
    var edited := fetched.(local := r.edit(fetched.local));
    DownloadAgrees(CacheOf(f, r.process), f.objects);
    forall key ensures Get(Contents(Ran(f, r).objects), key) == Get(edited.local, key) {
      UploadedAt(edited, f.objects, key);
    }
    SameLookups(Contents(Ran(f, r).objects), edited.local);
    assert forall p :: p != r.process ==> CacheOf(Ran(f, r), p) == CacheOf(f, p);
  }

  // However many processes take turns, each with its own cache and manifest, their runs are
  // edits of one shared map: every run reads what the runs before it left.
  lemma {:induction false} SerializedRunsShareOneMap(f: Fleet, runs: seq<Run>)
    requires AtRest(f)
    ensures AtRest(RanAll(f, runs)) && Contents(RanAll(f, runs).objects) == Edited(Contents(f.objects), runs)
  {
    if runs != [] {
      var n := |runs| - 1;
      SerializedRunsShareOneMap(f, runs[..n]);
      RunEditsTheSharedMap(RanAll(f, runs[..n]), runs[n]);
    }
  }

  // Every object a run puts carries its hash, so that the next download need not fetch it.
  lemma {:induction false} RunsKeepTags(f: Fleet, runs: seq<Run>)
    requires forall key :: key in f.objects ==> f.objects[key].tagged
    ensures forall key :: key in RanAll(f, runs).objects ==> RanAll(f, runs).objects[key].tagged
  {
    if runs != [] {
      RunsKeepTags(f, runs[..|runs| - 1]);
    }
  }
}
