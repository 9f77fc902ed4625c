// Processes that share one object store, with every download and upload cut at its awaits: one
// step lists the store, each get, put and delete is a step of its own, and the steps of all
// processes interleave (max_ai/capabilities/workspace/_remote.py).
module RemoteRuns {
  import opened Common
  import opened Remote

  // `scanned` is the local listing a transfer began with, `left` the keys it still has to get,
  // put or delete, `manifest` its copy of the manifest, written back only at its end; `since`
  // says which state of the store it began with.
  datatype Phase =
    | Resting
    | Fetching(since: nat, listed: Objects, scanned: Files, left: set<Key>, manifest: Files)
    | Open
    | Sending(since: nat, scanned: Files, left: set<Key>, manifest: Files)

  // A process's files, its manifest as last written, and where it stands.
  datatype Process = Process(local: Files, manifest: Files, phase: Phase)

  const NEW := Process(map[], map[], Resting)

  // `stores` is every state the store has been in, newest last; `failed` the processes whose
  // last run broke off.
  datatype World = World(stores: seq<Objects>, processes: map<nat, Process>, failed: set<nat>)

  datatype Event =
    | Lists(p: nat)
    | Gets(p: nat, key: Key)
    | EndsDownload(p: nat)
    | Edits(p: nat, files: Files)
    | Scans(p: nat)
    | Puts(p: nat, key: Key)
    | Deletes(p: nat, key: Key)
    | EndsUpload(p: nat)
    | Fails(p: nat)

  function Start(objects: Objects): World {
    World([objects], map[], {})
  }

  function ProcessOf(w: World, p: nat): Process {
    if p in w.processes then w.processes[p] else NEW
  }

  function Now(w: World): Objects
    requires w.stores != []
  {
    w.stores[|w.stores| - 1]
  }

  function With(w: World, p: nat, q: Process): World {
    w.(processes := w.processes[p := q])
  }

  function Failed(w: World, p: nat): World {
    With(w, p, ProcessOf(w, p).(phase := Resting)).(failed := w.failed + {p})
  }

  // What a download has to get: objects without a hash, or with another than the local file's.
  predicate Needed(listed: Objects, scanned: Files, key: Key) {
    key in listed && (!listed[key].tagged || Get(scanned, key) != Some(listed[key].content))
  }

  // The file is dropped: it left the store, and is still what the manifest vouches for.
  predicate Dropped(f: Phase, key: Key)
    requires f.Fetching?
  {
    key in f.manifest && key !in f.listed && Get(f.scanned, key) == Some(f.manifest[key])
  }

  function Next(w: World, e: Event): World
    requires w.stores != []
  {
    var q, f := ProcessOf(w, e.p), ProcessOf(w, e.p).phase;
    match e
    case Lists(p) =>
      if f.Resting? then
        var left := set key | key in Now(w) && Needed(Now(w), q.local, key);
        With(w, p, q.(phase := Fetching(|w.stores| - 1, Now(w), q.local, left, q.manifest)))
      else w
    case Gets(p, key) =>
      if f.Fetching? && key in f.left then
        // An object that has gone since it was listed makes the download fail.
        if key !in Now(w) then Failed(w, p)
        else
          var c := Now(w)[key].content;
          With(w, p, Process(q.local[key := c], q.manifest,
                             Fetching(f.since, f.listed, f.scanned, f.left - {key}, f.manifest[key := c])))
      else w
    case EndsDownload(p) =>
      if f.Fetching? && f.left == {} then
        With(w, p, Process(map key | key in q.local && !Dropped(f, key) :: q.local[key],
                           map key | key in f.manifest && key in f.listed :: f.manifest[key], Open))
      else w
    case Edits(p, files) => if f.Open? then With(w, p, q.(local := files)) else w
    case Scans(p) =>
      if f.Open? then
        var left := set key | key in q.local.Keys + q.manifest.Keys && Get(q.local, key) != Get(q.manifest, key);
        With(w, p, q.(phase := Sending(|w.stores| - 1, q.local, left, q.manifest)))
      else w
    case Puts(p, key) =>
      if f.Sending? && key in f.left && key in f.scanned then
        With(w, p, q.(phase := f.(left := f.left - {key}, manifest := f.manifest[key := f.scanned[key]]))).(
          stores := w.stores + [Now(w)[key := Object(f.scanned[key], true)]])
      else w
    case Deletes(p, key) =>
      if f.Sending? && key in f.left && f.left !! f.scanned.Keys then
        With(w, p, q.(phase := f.(left := f.left - {key}, manifest := f.manifest - {key}))).(
          stores := w.stores + [Now(w) - {key}])
      else w
    case EndsUpload(p) =>
      if f.Sending? && f.left == {} then
        With(w, p, Process(q.local, f.manifest, Resting)).(failed := w.failed - {p})
      else w
    case Fails(p) => if f.Resting? then w else Failed(w, p)
  }

  function After(w: World, events: seq<Event>): (v: World)
    requires w.stores != []
    ensures |v.stores| >= |w.stores|
  {
    if events == [] then w else Next(After(w, events[..|events| - 1]), events[|events| - 1])
  }

  // ---- What every step keeps -------------------------------------------------------------

  // The key held this content at some moment since `since`.
  ghost predicate HeldSince(stores: seq<Objects>, since: nat, key: Key, content: Option<Hash>) {
    exists i :: since <= i < |stores| && Get(Contents(stores[i]), key) == content
  }

  // One key of a transfer under way: done, with a content the store held meanwhile, or untouched.
  ghost predicate KeyOnTrack(stores: seq<Objects>, q: Process, key: Key) {
    var f := q.phase;
    match f
    case Fetching(since, listed, scanned, left, manifest) =>
      && (key in left ==> Needed(listed, scanned, key))
      && (if Needed(listed, scanned, key) && key !in left then
            Get(q.local, key).Some? && Get(q.local, key) == Get(manifest, key)
            && HeldSince(stores, since, key, Get(q.local, key))
          else Get(q.local, key) == Get(scanned, key) && Get(manifest, key) == Get(q.manifest, key))
    case Sending(since, scanned, left, manifest) =>
      && (key in left ==> Get(scanned, key) != Get(q.manifest, key))
      && (key !in left ==> Get(manifest, key) == Get(scanned, key))
      && (key !in left && Get(scanned, key) != Get(q.manifest, key) ==>
            HeldSince(stores, since + 1, key, Get(scanned, key)))
    case _ => true
  }

  ghost predicate OnTrack(stores: seq<Objects>, q: Process, failed: bool) {
    && (q.phase.Fetching? ==> q.phase.since < |stores| && q.phase.listed == stores[q.phase.since])
    && (q.phase.Sending? ==> q.phase.since < |stores| && q.phase.scanned == q.local)
    && (forall key :: KeyOnTrack(stores, q, key))
    && (!failed && q.phase.Resting? ==> q.local == q.manifest)
    && (!failed && q.phase.Fetching? ==> q.phase.scanned == q.manifest)
  }

  ghost predicate Inv(w: World) {
    w.stores != [] && forall p :: OnTrack(w.stores, ProcessOf(w, p), p in w.failed)
  }

  // The store moving on takes nothing back.
  lemma StillOnTrack(stores: seq<Objects>, more: seq<Objects>, q: Process, failed: bool)
    requires OnTrack(stores, q, failed)
    ensures OnTrack(stores + more, q, failed)
  {
    forall key ensures KeyOnTrack(stores + more, q, key) {
      assert KeyOnTrack(stores, q, key);
      forall since: nat, content | HeldSince(stores, since, key, content)
        ensures HeldSince(stores + more, since, key, content)
      {
        var i :| since <= i < |stores| && Get(Contents(stores[i]), key) == content;
        assert (stores + more)[i] == stores[i];
      }
    }
  }

  lemma StepMovesOne(w: World, e: Event)
    requires w.stores != []
    ensures forall p :: p != e.p ==> ProcessOf(Next(w, e), p) == ProcessOf(w, p)
                                     && (p in Next(w, e).failed <==> p in w.failed)
    ensures w.stores <= Next(w, e).stores
  {
  }

  lemma GetKeeps(w: World, p: nat, key: Key)
    requires Inv(w)
    ensures var v := Next(w, Gets(p, key)); OnTrack(v.stores, ProcessOf(v, p), p in v.failed)
  {
    var q, v := ProcessOf(w, p), Next(w, Gets(p, key));
    assert OnTrack(w.stores, q, p in w.failed);
    if q.phase.Fetching? && key in q.phase.left && key in Now(w) {
      forall k ensures KeyOnTrack(v.stores, ProcessOf(v, p), k) {
        assert KeyOnTrack(w.stores, q, k);
        if k == key {
          assert Get(Contents(w.stores[|w.stores| - 1]), key) == Some(Now(w)[key].content);
        }
      }
    }
  }

  lemma WriteKeeps(w: World, e: Event)
    requires Inv(w) && (e.Puts? || e.Deletes?)
    ensures var v := Next(w, e); OnTrack(v.stores, ProcessOf(v, e.p), e.p in v.failed)
  {
    var q, v := ProcessOf(w, e.p), Next(w, e);
    assert OnTrack(w.stores, q, e.p in w.failed);
    if v != w {
      assert v.stores == w.stores + [Now(v)];
      StillOnTrack(w.stores, [Now(v)], q, e.p in w.failed);
      forall k ensures KeyOnTrack(v.stores, ProcessOf(v, e.p), k) {
        assert KeyOnTrack(v.stores, q, k);
        if k == e.key {
          assert Get(Contents(v.stores[|w.stores|]), k) == Get(q.phase.scanned, k);
          assert HeldSince(v.stores, q.phase.since + 1, k, Get(q.phase.scanned, k));
        }
      }
    }
  }

  lemma EndsUploadKeeps(w: World, p: nat)
    requires Inv(w)
    ensures var v := Next(w, EndsUpload(p)); OnTrack(v.stores, ProcessOf(v, p), p in v.failed)
  {
    var q := ProcessOf(w, p);
    assert OnTrack(w.stores, q, p in w.failed);
    if q.phase.Sending? && q.phase.left == {} {
      forall key ensures Get(q.phase.manifest, key) == Get(q.local, key) {
        assert KeyOnTrack(w.stores, q, key);
      }
      SameLookups(q.phase.manifest, q.local);
    }
  }

  lemma StepKeeps(w: World, e: Event)
    requires Inv(w)
    ensures Inv(Next(w, e))
  {
    var v := Next(w, e);
    StepMovesOne(w, e);
    forall p ensures OnTrack(v.stores, ProcessOf(v, p), p in v.failed) {
      assert OnTrack(w.stores, ProcessOf(w, p), p in w.failed);
      if p != e.p {
        StillOnTrack(w.stores, v.stores[|w.stores|..], ProcessOf(w, p), p in w.failed);
        assert v.stores == w.stores + v.stores[|w.stores|..];
      } else {
        OwnStepKeeps(w, e);
      }
    }
  }

  lemma OwnStepKeeps(w: World, e: Event)
    requires Inv(w)
    ensures var v := Next(w, e); OnTrack(v.stores, ProcessOf(v, e.p), e.p in v.failed)
  {
    assert OnTrack(w.stores, ProcessOf(w, e.p), e.p in w.failed);
    match e {
      case Gets(p, key) => GetKeeps(w, p, key);
      case Puts(_, _) => WriteKeeps(w, e);
      case Deletes(_, _) => WriteKeeps(w, e);
      case EndsUpload(p) => EndsUploadKeeps(w, p);
      case _ =>
    }
  }

  lemma {:induction false} AlwaysInv(objects: Objects, events: seq<Event>)
    ensures Inv(After(Start(objects), events))
  {
    if events != [] {
      AlwaysInv(objects, events[..|events| - 1]);
      StepKeeps(After(Start(objects), events[..|events| - 1]), events[|events| - 1]);
    }
  }

  // ---- Downloads -------------------------------------------------------------------------

  // `p` has got everything and is about to end its download.
  predicate DownloadComplete(w: World, p: nat) {
    ProcessOf(w, p).phase.Fetching? && ProcessOf(w, p).phase.left == {}
  }

  // The key as the download found it, and as it leaves it.
  function Before(w: World, p: nat, key: Key): Cell
    requires DownloadComplete(w, p)
  {
    Cell(Get(ProcessOf(w, p).phase.scanned, key), Get(ProcessOf(w, p).manifest, key))
  }

  function Ended(w: World, p: nat, key: Key): Cell
    requires w.stores != [] && DownloadComplete(w, p)
  {
    var q := ProcessOf(Next(w, EndsDownload(p)), p);
    Cell(Get(q.local, key), Get(q.manifest, key))
  }

  // Whatever else happened meanwhile, each key is fetched with a content the store held at some
  // moment of the download, or left as the listing of its first moment asks.
  lemma DownloadTakesStoredContents(objects: Objects, events: seq<Event>, p: nat, key: Key)
    requires DownloadComplete(After(Start(objects), events), p)
    ensures var w := After(Start(objects), events);
            var f, c := ProcessOf(w, p).phase, Before(w, p, key);
            if Needed(f.listed, f.scanned, key) then
              Ended(w, p, key).file == Ended(w, p, key).entry != None
              && HeldSince(w.stores, f.since, key, Ended(w, p, key).file)
            else Ended(w, p, key) == Fetched(c, Get(f.listed, key))
  {
    AlwaysInv(objects, events);
    var w := After(Start(objects), events);
    assert OnTrack(w.stores, ProcessOf(w, p), p in w.failed);
    assert KeyOnTrack(w.stores, ProcessOf(w, p), key);
  }

  // A process whose last run did not break off ends up, key by key, with what the store held at
  // some moment of the download, and its manifest says so.
  lemma DownloadAgreesKeyByKey(objects: Objects, events: seq<Event>, p: nat, key: Key)
    requires DownloadComplete(After(Start(objects), events), p)
    requires p !in After(Start(objects), events).failed
    ensures var w := After(Start(objects), events);
            Ended(w, p, key).file == Ended(w, p, key).entry
            && HeldSince(w.stores, ProcessOf(w, p).phase.since, key, Ended(w, p, key).file)
  {
    AlwaysInv(objects, events);
    var w := After(Start(objects), events);
    var q := ProcessOf(w, p);
    assert OnTrack(w.stores, q, p in w.failed);
    DownloadTakesStoredContents(objects, events, p, key);
    if !Needed(q.phase.listed, q.phase.scanned, key) {
      assert Get(Contents(w.stores[q.phase.since]), key) == Ended(w, p, key).file;
    }
  }

  // If no put or delete landed between its listing and its end, the whole copy is the store's.
  lemma UndisturbedDownloadAgrees(objects: Objects, events: seq<Event>, p: nat)
    requires DownloadComplete(After(Start(objects), events), p)
    requires p !in After(Start(objects), events).failed
    requires ProcessOf(After(Start(objects), events), p).phase.since == |After(Start(objects), events).stores| - 1
    ensures var w := After(Start(objects), events);
            var q := ProcessOf(Next(w, EndsDownload(p)), p);
            q.local == q.manifest == Contents(Now(w))
  {
    hide Next;
    var w := After(Start(objects), events);
    forall key ensures Ended(w, p, key) == Cell(Get(Contents(Now(w)), key), Get(Contents(Now(w)), key)) {
      DownloadAgreesKeyByKey(objects, events, p, key);
    }
    CellsMakeMaps(w, p, Contents(Now(w)));
  }

  // More than one key has to change for a copy to be torn: if all the writes since the listing
  // are of one key, the copy is a state the store was in meanwhile.
  lemma OneKeyChangesAreNotTorn(objects: Objects, events: seq<Event>, p: nat, changing: Key)
    requires DownloadComplete(After(Start(objects), events), p)
    requires p !in After(Start(objects), events).failed
    requires var w := After(Start(objects), events);
             forall i, key :: ProcessOf(w, p).phase.since <= i < |w.stores| && key != changing ==>
               Get(Contents(w.stores[i]), key) == Get(Contents(Now(w)), key)
    ensures var w := After(Start(objects), events);
            var q := ProcessOf(Next(w, EndsDownload(p)), p);
            exists i :: ProcessOf(w, p).phase.since <= i < |w.stores| && q.local == q.manifest == Contents(w.stores[i])
  {
    hide Next;
    var w := After(Start(objects), events);
    var since := ProcessOf(w, p).phase.since;
    DownloadAgreesKeyByKey(objects, events, p, changing);
    var i :| since <= i < |w.stores| && Get(Contents(w.stores[i]), changing) == Ended(w, p, changing).file;
    forall key
      ensures Ended(w, p, key) == Cell(Get(Contents(w.stores[i]), key), Get(Contents(w.stores[i]), key))
    {
      DownloadAgreesKeyByKey(objects, events, p, key);
      if key != changing {
        var j :| since <= j < |w.stores| && Get(Contents(w.stores[j]), key) == Ended(w, p, key).file;
        assert Get(Contents(w.stores[j]), key) == Get(Contents(Now(w)), key) == Get(Contents(w.stores[i]), key);
      }
    }
    CellsMakeMaps(w, p, Contents(w.stores[i]));
  }

  lemma CellsMakeMaps(w: World, p: nat, files: Files)
    requires w.stores != [] && DownloadComplete(w, p)
    requires forall key :: Ended(w, p, key) == Cell(Get(files, key), Get(files, key))
    ensures var q := ProcessOf(Next(w, EndsDownload(p)), p); q.local == q.manifest == files
  {
    hide Next;
    var q := ProcessOf(Next(w, EndsDownload(p)), p);
    assert forall key :: Ended(w, p, key) == Cell(Get(q.local, key), Get(q.manifest, key));
    SameLookups(q.local, files);
    SameLookups(q.manifest, files);
  }

  // A run that broke off leaves edits the manifest does not know of. In any run, for an object
  // that did not change meanwhile, the next download keeps such an edit (or deletion) if and
  // only if the store has no such object, or one with that very content.
  lemma UnfinishedEditSurvivesIff(objects: Objects, events: seq<Event>, p: nat, key: Key)
    requires DownloadComplete(After(Start(objects), events), p)
    requires Changed(Before(After(Start(objects), events), p, key))
    requires var w := After(Start(objects), events);
             forall i :: ProcessOf(w, p).phase.since <= i < |w.stores| ==> Get(w.stores[i], key) == Get(Now(w), key)
    ensures var w := After(Start(objects), events);
            var c := Before(w, p, key);
            Ended(w, p, key).file == c.file <==> key !in Now(w) || c.file == Some(Now(w)[key].content)
  {
    AlwaysInv(objects, events);
    var w := After(Start(objects), events);
    var q := ProcessOf(w, p);
    assert OnTrack(w.stores, q, p in w.failed);
    DownloadTakesStoredContents(objects, events, p, key);
    assert Get(w.stores[q.phase.since], key) == Get(Now(w), key);
    EditSurvivesDownloadIff(Before(w, p, key), Get(Now(w), key));
    if Needed(q.phase.listed, q.phase.scanned, key) {
      var i :| q.phase.since <= i < |w.stores| && Get(Contents(w.stores[i]), key) == Ended(w, p, key).file;
      assert Get(w.stores[i], key) == Get(Now(w), key);
    }
  }

  // Every object an upload puts carries its hash, so once all do, all always do.
  lemma {:induction false} StoresStayTagged(objects: Objects, events: seq<Event>)
    requires forall key :: key in objects ==> objects[key].tagged
    ensures forall i, key :: 0 <= i < |After(Start(objects), events).stores|
                             && key in After(Start(objects), events).stores[i] ==>
              After(Start(objects), events).stores[i][key].tagged
  {
    if events != [] {
      StoresStayTagged(objects, events[..|events| - 1]);
    }
  }

  // And then a process whose files are the store's has nothing to get.
  lemma NothingToGetTwice(objects: Objects, events: seq<Event>, p: nat)
    requires forall key :: key in objects ==> objects[key].tagged
    requires var w := After(Start(objects), events);
             ProcessOf(w, p).phase.Resting? && ProcessOf(w, p).local == Contents(Now(w))
    ensures DownloadComplete(Next(After(Start(objects), events), Lists(p)), p)
  {
    StoresStayTagged(objects, events);
  }

  // ---- Uploads ---------------------------------------------------------------------------

  // Event `k` puts or deletes `key`.
  predicate Writes(w: World, events: seq<Event>, k: nat, key: Key)
    requires w.stores != [] && k < |events|
  {
    var before, e := After(w, events[..k]), events[k];
    var f := ProcessOf(before, e.p).phase;
    f.Sending? && key in f.left && ((e == Puts(e.p, key) && key in f.scanned)
                                    || (e == Deletes(e.p, key) && f.left !! f.scanned.Keys))
  }

  // The writer's own file at the time.
  function Written(w: World, events: seq<Event>, k: nat, key: Key): Option<Hash>
    requires w.stores != [] && k < |events|
  {
    Get(ProcessOf(After(w, events[..k]), events[k].p).local, key)
  }

  // The content of a key is what its last writer had; before any write, what it was.
  function LastWritten(w: World, events: seq<Event>, key: Key): Option<Hash>
    requires w.stores != []
    decreases |events|
  {
    if events == [] then Get(Contents(Now(w)), key)
    else if Writes(w, events, |events| - 1, key) then Written(w, events, |events| - 1, key)
    else LastWritten(w, events[..|events| - 1], key)
  }

  // In every interleaving, overlapping uploads included, the store holds for each key the file
  // of the last process that wrote it.
  lemma {:induction false} LastWriteWins(objects: Objects, events: seq<Event>, key: Key)
    ensures Get(Contents(Now(After(Start(objects), events))), key) == LastWritten(Start(objects), events, key)
  {
    if events != [] {
      var n := |events| - 1;
      LastWriteWins(objects, events[..n], key);
      AlwaysInv(objects, events[..n]);
      var before, e := After(Start(objects), events[..n]), events[n];
      assert OnTrack(before.stores, ProcessOf(before, e.p), e.p in before.failed);
      StoreAfter(before, e, key);
    }
  }

  lemma StoreAfter(w: World, e: Event, key: Key)
    requires w.stores != []
    ensures var f := ProcessOf(w, e.p).phase;
            Get(Contents(Now(Next(w, e))), key) ==
            if f.Sending? && key in f.left && e == Puts(e.p, key) && key in f.scanned then Some(f.scanned[key])
            else if f.Sending? && key in f.left && e == Deletes(e.p, key) && f.left !! f.scanned.Keys then None
            else Get(Contents(Now(w)), key)
  {
  }

  // And nobody writes a file it did not change since its manifest was written.
  lemma OnlyChangesAreWritten(objects: Objects, events: seq<Event>, k: nat, key: Key)
    requires k < |events| && Writes(Start(objects), events, k, key)
    ensures var q := ProcessOf(After(Start(objects), events[..k]), events[k].p);
            Changed(Cell(Get(q.local, key), Get(q.manifest, key)))
  {
    AlwaysInv(objects, events[..k]);
    var w := After(Start(objects), events[..k]);
    assert OnTrack(w.stores, ProcessOf(w, events[k].p), events[k].p in w.failed);
    assert KeyOnTrack(w.stores, ProcessOf(w, events[k].p), key);
  }

  // An upload that ends has brought every change of its process to the store, where it was at
  // some moment since the scan, and leaves manifest and files equal.
  lemma UploadPublishesEveryChange(objects: Objects, events: seq<Event>, p: nat, key: Key)
    requires var f := ProcessOf(After(Start(objects), events), p).phase; f.Sending? && f.left == {}
    ensures var w := After(Start(objects), events);
            var q, ended := ProcessOf(w, p), ProcessOf(Next(w, EndsUpload(p)), p);
            && ended.local == q.local == ended.manifest
            && (Changed(Cell(Get(q.local, key), Get(q.manifest, key))) ==>
                  HeldSince(w.stores, q.phase.since + 1, key, Get(q.local, key)))
  {
    AlwaysInv(objects, events);
    var w := After(Start(objects), events);
    assert OnTrack(w.stores, ProcessOf(w, p), p in w.failed);
    assert KeyOnTrack(w.stores, ProcessOf(w, p), key);
    EndsUploadKeeps(w, p);
  }

  // ---- Two runs in which something gets lost ---------------------------------------------

  lemma AfterConcat(w: World, a: seq<Event>, b: seq<Event>)
    requires w.stores != []
    ensures After(w, a + b) == After(After(w, a), b)
  {
    if b == [] {
      assert a + b == a;
    } else {
      assert (a + b)[..|a + b| - 1] == a + b[..|b| - 1];
      AfterConcat(w, a, b[..|b| - 1]);
    }
  }

  lemma AfterTwo(w: World, a: Event, b: Event)
    requires w.stores != []
    ensures After(w, [a, b]) == Next(Next(w, a), b)
  {
    assert [a, b][..1] == [a] && [a][..0] == [];
    assert After(w, [a]) == Next(After(w, []), a);
  }

  lemma ListStep(w: World, p: nat, local: Files, disk: Files)
    requires w.stores != [] && ProcessOf(w, p) == Process(local, disk, Resting)
    requires forall key :: key in Now(w) ==> Needed(Now(w), local, key)
    ensures Next(w, Lists(p)) ==
            With(w, p, Process(local, disk, Fetching(|w.stores| - 1, Now(w), local, Now(w).Keys, disk)))
  {
    assert (set key | key in Now(w) && Needed(Now(w), local, key)) == Now(w).Keys;
  }

  lemma GetStep(w: World, p: nat, key: Key, local: Files, disk: Files, f: Phase)
    requires w.stores != [] && f.Fetching? && key in f.left && key in Now(w)
    requires ProcessOf(w, p) == Process(local, disk, f)
    ensures var c := Now(w)[key].content;
            Next(w, Gets(p, key)) ==
            With(w, p, Process(local[key := c], disk,
                               Fetching(f.since, f.listed, f.scanned, f.left - {key}, f.manifest[key := c])))
  {
  }

  lemma EndStep(w: World, p: nat, got: Files, disk: Files, f: Phase)
    requires w.stores != [] && f.Fetching? && f.left == {} && f.manifest == got && f.listed.Keys == got.Keys
    requires ProcessOf(w, p) == Process(got, disk, f)
    ensures Next(w, EndsDownload(p)) == With(w, p, Process(got, got, Open))
  {
    assert (map key | key in got && !Dropped(f, key) :: got[key]) == got;
    assert (map key | key in got && key in f.listed :: got[key]) == got;
  }

  lemma WithTwice(w: World, p: nat, a: Process, b: Process)
    ensures With(With(w, p, a), p, b) == With(w, p, b) && ProcessOf(With(w, p, a), p) == a
    ensures With(w, p, a).stores == w.stores
  {
  }

  // A first download lists two objects and gets one of them ...
  lemma GetsFirst(w: World, p: nat, x: Key, y: Key)
    requires w.stores != [] && ProcessOf(w, p) == NEW && Now(w).Keys == {x, y} && x != y
    ensures var had := map[x := Now(w)[x].content];
            After(w, [Lists(p), Gets(p, x)]) ==
            With(w, p, Process(had, map[], Fetching(|w.stores| - 1, Now(w), map[], {y}, had)))
  {
    hide Next, With, ProcessOf, After;
    var f := Fetching(|w.stores| - 1, Now(w), map[], {x, y}, map[]);
    var had := map[x := Now(w)[x].content];
    var g := Fetching(|w.stores| - 1, Now(w), map[], {y}, had);
    AfterTwo(w, Lists(p), Gets(p, x));
    assert ProcessOf(w, p) == Process(map[], map[], Resting);
    ListStep(w, p, map[], map[]);
    WithTwice(w, p, Process(map[], map[], f), Process(had, map[], g));
    GetStep(With(w, p, Process(map[], map[], f)), p, x, map[], map[], f);
    assert {x, y} - {x} == {y} && map[][x := Now(w)[x].content] == had;
  }

  // ... and then the other, as the store has it by now.
  lemma GetsSecond(w: World, p: nat, x: Key, y: Key, c: Hash, since: nat, listed: Objects)
    requires w.stores != [] && x != y && listed.Keys == {x, y} && y in Now(w)
    requires ProcessOf(w, p) == Process(map[x := c], map[], Fetching(since, listed, map[], {y}, map[x := c]))
    ensures var both := map[x := c, y := Now(w)[y].content];
            After(w, [Gets(p, y), EndsDownload(p)]) == With(w, p, Process(both, both, Open))
  {
    hide Next, With, ProcessOf, After;
    var both := map[x := c, y := Now(w)[y].content];
    var g := Fetching(since, listed, map[], {}, both);
    AfterTwo(w, Gets(p, y), EndsDownload(p));
    GetStep(w, p, y, map[x := c], map[], Fetching(since, listed, map[], {y}, map[x := c]));
    assert {y} - {y} == {} && map[x := c][y := Now(w)[y].content] == both;
    WithTwice(w, p, Process(both, map[], g), Process(both, both, Open));
    EndStep(With(w, p, Process(both, map[], g)), p, both, map[], g);
  }

  lemma ChangesBoth(w: World, p: nat, x: Key, y: Key, had: Files, files: Files)
    requires w.stores != [] && had.Keys == files.Keys == {x, y} && had[x] != files[x] && had[y] != files[y]
    requires ProcessOf(w, p) == Process(had, had, Open)
    ensures After(w, [Edits(p, files), Scans(p)]) ==
            With(w, p, Process(files, had, Sending(|w.stores| - 1, files, {x, y}, had)))
  {
    AfterTwo(w, Edits(p, files), Scans(p));
    assert (set key | key in files.Keys + had.Keys && Get(files, key) != Get(had, key)) == {x, y};
  }

  lemma PutsBoth(w: World, p: nat, x: Key, y: Key, files: Files, had: Files, since: nat)
    requires w.stores != [] && x != y && files.Keys == {x, y}
    requires ProcessOf(w, p) == Process(files, had, Sending(since, files, {x, y}, had))
    ensures var half := Now(w)[x := Object(files[x], true)];
            var v := After(w, [Puts(p, x), Puts(p, y)]);
            && v.stores == w.stores + [half] + [half[y := Object(files[y], true)]]
            && v.failed == w.failed && forall q :: q != p ==> ProcessOf(v, q) == ProcessOf(w, q)
  {
    AfterTwo(w, Puts(p, x), Puts(p, y));
    assert {x, y} - {x} == {y};
  }

  // A download that a whole upload overtakes: process 1 has got `x` when process 2 replaces `x`
  // and `y`, and then gets `y`. It ends with a copy of no state the store was ever in.
  lemma TornDownload(x: Key, y: Key, was: Hash, now: Hash)
    requires x != y && was != now
    ensures var begun := [Lists(2), Gets(2, x)] + [Gets(2, y), EndsDownload(2)]
                         + [Edits(2, map[x := now, y := now]), Scans(2)];
            var w := After(Start(map[x := Object(was, true), y := Object(was, true)]),
                           begun + [Lists(1), Gets(1, x)] + [Puts(2, x), Puts(2, y)] + [Gets(1, y), EndsDownload(1)]);
            && 1 !in w.failed && ProcessOf(w, 1).phase.Open? && ProcessOf(w, 1).local == map[x := was, y := now]
            && forall i :: 0 <= i < |w.stores| ==> Contents(w.stores[i]) != ProcessOf(w, 1).local
  {
    var start, files := Start(map[x := Object(was, true), y := Object(was, true)]), map[x := now, y := now];
    var e1, e2, e3 := [Lists(2), Gets(2, x)], [Gets(2, y), EndsDownload(2)], [Edits(2, files), Scans(2)];
    var e4, e5, e6 := [Lists(1), Gets(1, x)], [Puts(2, x), Puts(2, y)], [Gets(1, y), EndsDownload(1)];
    AfterConcat(start, e1, e2);
    AfterConcat(start, e1 + e2, e3);
    AfterConcat(start, e1 + e2 + e3, e4);
    AfterConcat(start, e1 + e2 + e3 + e4, e5);
    AfterConcat(start, e1 + e2 + e3 + e4 + e5, e6);
    TornSteps(x, y, was, now, start);
  }

  lemma TornSteps(x: Key, y: Key, was: Hash, now: Hash, start: World)
    requires x != y && was != now && start == Start(map[x := Object(was, true), y := Object(was, true)])
    ensures var files := map[x := now, y := now];
            var w3 := After(After(After(start, [Lists(2), Gets(2, x)]), [Gets(2, y), EndsDownload(2)]),
                            [Edits(2, files), Scans(2)]);
            var w := After(After(After(w3, [Lists(1), Gets(1, x)]), [Puts(2, x), Puts(2, y)]),
                           [Gets(1, y), EndsDownload(1)]);
            && 1 !in w.failed && ProcessOf(w, 1).phase.Open? && ProcessOf(w, 1).local == map[x := was, y := now]
            && forall i :: 0 <= i < |w.stores| ==> Contents(w.stores[i]) != ProcessOf(w, 1).local
  {
    hide After, Next;
    SecondIsSending(x, y, was, now, start);
    FirstIsOvertaken(x, y, was, now,
                     After(After(After(start, [Lists(2), Gets(2, x)]), [Gets(2, y), EndsDownload(2)]),
                           [Edits(2, map[x := now, y := now]), Scans(2)]));
  }

  // Process 2 has downloaded both objects, changed both, and is about to put them.
  ghost predicate Sending2(x: Key, y: Key, was: Hash, now: Hash, w: World) {
    && w.stores == [map[x := Object(was, true), y := Object(was, true)]] && w.failed == {}
    && ProcessOf(w, 1) == NEW
    && var had, files := map[x := was, y := was], map[x := now, y := now];
       ProcessOf(w, 2) == Process(files, had, Sending(0, files, {x, y}, had))
  }

  lemma SecondIsSending(x: Key, y: Key, was: Hash, now: Hash, start: World)
    requires x != y && was != now && start == Start(map[x := Object(was, true), y := Object(was, true)])
    ensures Sending2(x, y, was, now,
                     After(After(After(start, [Lists(2), Gets(2, x)]), [Gets(2, y), EndsDownload(2)]),
                           [Edits(2, map[x := now, y := now]), Scans(2)]))
  {
    hide After, Next;
    GetsFirst(start, 2, x, y);
    var w1 := After(start, [Lists(2), Gets(2, x)]);
    GetsSecond(w1, 2, x, y, was, 0, Now(start));
    var w2 := After(w1, [Gets(2, y), EndsDownload(2)]);
    ChangesBoth(w2, 2, x, y, map[x := was, y := was], map[x := now, y := now]);
  }

  lemma FirstIsOvertaken(x: Key, y: Key, was: Hash, now: Hash, w3: World)
    requires x != y && was != now && Sending2(x, y, was, now, w3)
    ensures var w := After(After(After(w3, [Lists(1), Gets(1, x)]), [Puts(2, x), Puts(2, y)]),
                           [Gets(1, y), EndsDownload(1)]);
            && 1 !in w.failed && ProcessOf(w, 1).phase.Open? && ProcessOf(w, 1).local == map[x := was, y := now]
            && forall i :: 0 <= i < |w.stores| ==> Contents(w.stores[i]) != ProcessOf(w, 1).local
  {
    hide After, Next;
    var stored, had, files := Now(w3), map[x := was, y := was], map[x := now, y := now];
    GetsFirst(w3, 1, x, y);
    var w4 := After(w3, [Lists(1), Gets(1, x)]);
    PutsBoth(w4, 2, x, y, files, had, 0);
    var w5 := After(w4, [Puts(2, x), Puts(2, y)]);
    GetsSecond(w5, 1, x, y, was, 0, stored);
    var w := After(w5, [Gets(1, y), EndsDownload(1)]);
    var half := stored[x := Object(now, true)];
    assert w.stores == [stored, half, half[y := Object(now, true)]];
    assert Contents(stored)[y] == was && Contents(half)[x] == now && Contents(half[y := Object(now, true)])[x] == now;
  }

  // A run that edits a file and breaks off; the next download brings back what the store has.
  lemma UnfinishedEditIsOverwritten(x: Key, stored: Hash, mine: Hash)
    requires stored != mine
    ensures var fetch := [Lists(1), Gets(1, x), EndsDownload(1)];
            var w := After(Start(map[x := Object(stored, true)]), fetch + [Edits(1, map[x := mine]), Fails(1)]);
            && ProcessOf(w, 1).local == map[x := mine]
            && ProcessOf(After(w, fetch), 1).local == map[x := stored]
  {
    var start, fetch := Start(map[x := Object(stored, true)]), [Lists(1), Gets(1, x), EndsDownload(1)];
    var broken := [Edits(1, map[x := mine]), Fails(1)];
    FetchOne(start, 1, x, map[], map[]);
    AfterConcat(start, fetch, broken);
    var w := After(start, fetch);
    AfterTwo(w, Edits(1, map[x := mine]), Fails(1));
    FetchOne(After(w, broken), 1, x, map[x := mine], map[x := stored]);
  }

  lemma FetchOne(w: World, p: nat, x: Key, local: Files, disk: Files)
    requires w.stores != [] && ProcessOf(w, p) == Process(local, disk, Resting) && Now(w).Keys == {x}
    requires Needed(Now(w), local, x) && local.Keys <= {x} && disk.Keys <= {x}
    ensures var got := map[x := Now(w)[x].content];
            After(w, [Lists(p), Gets(p, x), EndsDownload(p)]) == With(w, p, Process(got, got, Open))
  {
    hide Next, With, ProcessOf, After, Needed;
    var got := map[x := Now(w)[x].content];
    var f := Fetching(|w.stores| - 1, Now(w), local, {x}, disk);
    var g := Fetching(|w.stores| - 1, Now(w), local, {}, got);
    var a, b, c := Process(local, disk, f), Process(got, disk, g), Process(got, got, Open);
    AfterConcat(w, [Lists(p), Gets(p, x)], [EndsDownload(p)]);
    assert [Lists(p), Gets(p, x)] + [EndsDownload(p)] == [Lists(p), Gets(p, x), EndsDownload(p)];
    AfterTwo(w, Lists(p), Gets(p, x));
    AfterOne(After(w, [Lists(p), Gets(p, x)]), EndsDownload(p));
    ListStep(w, p, local, disk);
    WithTwice(w, p, a, b);
    GetStep(With(w, p, a), p, x, local, disk, f);
    assert {x} - {x} == {} && local[x := Now(w)[x].content] == got == disk[x := Now(w)[x].content];
    WithTwice(w, p, b, c);
    EndStep(With(w, p, b), p, got, disk, g);
  }

  lemma AfterOne(w: World, e: Event)
    requires w.stores != []
    ensures After(w, [e]) == Next(w, e)
  {
    assert [e][..0] == [];
  }
}
