// The manifest-guarded refresh of materialized skills (max_ai/base/skills.py).
module Skills {
  import opened Common

  datatype Key = Key(path: string)
  datatype Hash = Hash(hex: string)
  type Files = map<Key, Hash>

  // One key of an installed skill: the file on disk and its manifest entry.
  datatype Cell = Cell(file: Option<Hash>, entry: Option<Hash>)

  // What one sync does to one key, given what the source holds there.
  function Refresh(c: Cell, source: Option<Hash>): Cell {
    match source
    case Some(h) =>
      if c.file == None then (if c.entry == None then Cell(source, source) else c)
      else if c.entry == None then Cell(c.file, c.file)
      else if c.file == c.entry then Cell(source, source)
      else c
    case None =>
      if c.entry != None && c.file == c.entry then Cell(None, None) else Cell(c.file, None)
  }

  class SkillDirectory {
    var files: Files
    var manifest: Files

    ghost function At(key: Key): Cell
      reads this
    {
      Cell(Get(files, key), Get(manifest, key))
    }

    // A first install copies the whole source and lists every file of it.
    constructor Materialize(source: Files)
      ensures files == manifest == source
    {
      files, manifest := source, source;
    }

    // Both passes of `_sync_skill`, over files scanned once at the start.
    method SyncSkill(source: Files)
      modifies this
      ensures forall key :: At(key) == Refresh(old(At(key)), Get(source, key))
    {
      var local := files;
      RefreshOffered(source, local);
      DropUnoffered(source, local);
    }

    method RefreshOffered(source: Files, local: Files)
      requires local == files
      modifies this
      ensures forall key :: At(key) == if key in source then Refresh(old(At(key)), Get(source, key)) else old(At(key))
    {
      var keys := source.Keys;
      while keys != {}
        invariant keys <= source.Keys
        invariant forall key :: key in source && key !in keys ==> At(key) == Refresh(old(At(key)), Get(source, key))
        invariant forall key :: key !in source || key in keys ==> At(key) == old(At(key))
      {
        var key :| key in keys;
        keys := keys - {key};
        assert At(key) == old(At(key));
        if key !in local {
          if key in manifest {
          } else {
            files := files[key := source[key]];
            manifest := manifest[key := source[key]];
          }
        } else if key !in manifest {
          manifest := manifest[key := local[key]];
        } else if local[key] == manifest[key] && source[key] != manifest[key] {
          files := files[key := source[key]];
          manifest := manifest[key := source[key]];
        }
        assert At(key) == Refresh(old(At(key)), Get(source, key));
      }
    }

    method DropUnoffered(source: Files, local: Files)
      requires forall key :: key !in source ==> Get(files, key) == Get(local, key)
      modifies this
      ensures forall key :: At(key) == if key in source then old(At(key)) else Refresh(old(At(key)), None)
    {
      var dropped := set k | k in manifest && k !in source;
      while dropped != {}
        invariant forall key :: key in dropped ==> key !in source && key in manifest
        invariant forall key :: key in source || key in dropped ==> At(key) == old(At(key))
        invariant forall key :: key !in source && key !in dropped ==> At(key) == Refresh(old(At(key)), None)
      {
        var key :| key in dropped;
        dropped := dropped - {key};
        assert At(key) == old(At(key));
        if Get(local, key) == Some(manifest[key]) {
          files := files - {key};
        }
        manifest := manifest - {key};
        assert At(key) == Refresh(old(At(key)), None);
      }
    }
  }

  // ---- Whole runs of syncs against a source that changes over time ------------------------

  // The key after syncing with each of `sources` in turn.
  function After(c: Cell, sources: seq<Option<Hash>>): Cell {
    if sources == [] then c
    else Refresh(After(c, sources[..|sources| - 1]), sources[|sources| - 1])
  }

  // A local edit or a local deletion of a listed file.
  predicate Edited(c: Cell) {
    c.entry != None && c.file != c.entry
  }

  // While the key stays in the source, neither the edited file nor its entry ever changes.
  lemma {:induction false} EditSurvives(c: Cell, sources: seq<Option<Hash>>)
    requires Edited(c)
    requires forall i :: 0 <= i < |sources| ==> sources[i] != None
    ensures After(c, sources) == c
  {
    if sources != [] {
      EditSurvives(c, sources[..|sources| - 1]);
    }
  }

  // A key nobody touched (its file is what its entry says, or both are missing) always follows
  // the source: after any run of syncs both are what the source last offered, or both are gone.
  lemma {:induction false} UntouchedFollowsSource(c: Cell, sources: seq<Option<Hash>>)
    requires c.file == c.entry && sources != []
    ensures var last := sources[|sources| - 1]; After(c, sources) == Cell(last, last)
  {
    var early := sources[..|sources| - 1];
    if early != [] { UntouchedFollowsSource(c, early); }
  }

  // A file that was there before its entry survives one sync, which adopts it, and from then on
  // follows the source.
  lemma {:induction false} AdoptedThenFollows(c: Cell, sources: seq<Option<Hash>>)
    requires c.file != None && c.entry == None && sources != [] && sources[0] != None
    ensures After(c, sources[..1]) == Cell(c.file, c.file)
    ensures |sources| > 1 ==> var last := sources[|sources| - 1]; After(c, sources) == Cell(last, last)
  {
    var early := sources[..|sources| - 1];
    assert sources[..1][..0] == [];
    if |sources| > 1 {
      assert early[..1] == sources[..1];
      AdoptedThenFollows(c, early);
      if |sources| == 2 { assert early == sources[..1]; }
    }
  }

  // What the source does not offer is given up: the entry always, the file when it was untouched.
  lemma UnofferedIsGivenUp(c: Cell)
    ensures Refresh(c, None).entry == None
    ensures Refresh(c, None).file == if c.entry != None && c.file == c.entry then None else c.file
  {
  }

  // The exact price of the key leaving the source. An edited file still holds the user's
  // version after any run of syncs if and only if nothing but that version is offered once the
  // key has been dropped from the source and then brought back.
  ghost predicate NeverReplacedAfterReturn(v: Hash, sources: seq<Option<Hash>>) {
    forall i, j, k :: 0 <= i < j < k < |sources| && sources[i] == None && sources[j] != None ==>
      sources[k] == Some(v)
  }

  lemma {:induction false} EditKeptIff(c: Cell, v: Hash, sources: seq<Option<Hash>>)
    requires Edited(c) && c.file == Some(v)
    ensures (forall n :: 0 <= n <= |sources| ==> After(c, sources[..n]).file == Some(v))
            <==> NeverReplacedAfterReturn(v, sources)
  {
    if NeverReplacedAfterReturn(v, sources) {
      forall n | 0 <= n <= |sources| ensures After(c, sources[..n]).file == Some(v) {
        KeptCell(c, v, sources[..n]);
      }
    } else {
      var i, j, k :| 0 <= i < j < k < |sources| && sources[i] == None && sources[j] != None
                     && sources[k] != Some(v);
      ReplacedWithin(c, v, sources, k);
    }
  }

  // A deletion has no version of its own to be adopted: it lasts if and only if the key never
  // comes back once the source has dropped it.
  lemma {:induction false} DeletionKeptIff(c: Cell, sources: seq<Option<Hash>>)
    requires Edited(c) && c.file == None
    ensures (forall n :: 0 <= n <= |sources| ==> After(c, sources[..n]).file == None) <==> !Returned(sources)
  {
    if Returned(sources) {
      var n := FirstReturn(sources);
      GoneCell(c, sources[..n]);
      assert sources[..n + 1][..n] == sources[..n];
      assert After(c, sources[..n + 1]) == Refresh(Cell(None, None), sources[n]);
    } else {
      forall n | 0 <= n <= |sources| ensures After(c, sources[..n]).file == None {
        GoneCell(c, sources[..n]);
      }
    }
  }

  lemma {:induction false} FirstReturn(sources: seq<Option<Hash>>) returns (n: nat)
    requires Returned(sources)
    ensures n < |sources| && sources[n] != None && Dropped(sources[..n]) && !Returned(sources[..n])
  {
    var last := |sources| - 1;
    if Returned(sources[..last]) {
      n := FirstReturn(sources[..last]);
      assert sources[..last][..n] == sources[..n];
    } else {
      n := last;
      var i, j :| 0 <= i < j < |sources| && sources[i] == None && sources[j] != None;
      assert j == last;
      assert sources[..last][i] == None;
    }
  }

  lemma {:induction false} GoneCell(c: Cell, sources: seq<Option<Hash>>)
    requires Edited(c) && c.file == None && !Returned(sources)
    ensures After(c, sources) == if Dropped(sources) then Cell(None, None) else c
  {
    if sources != [] {
      var n := |sources| - 1;
      assert !Returned(sources[..n]);
      GoneCell(c, sources[..n]);
      if Dropped(sources[..n]) {
        var i :| 0 <= i < n && sources[i] == None;
        assert sources[n] != None ==> Returned(sources);
        assert Dropped(sources);
      } else {
        assert sources[n] == None ==> Dropped(sources);
      }
    }
  }

  // Has the source dropped the key, and brought it back since?
  ghost predicate Dropped(sources: seq<Option<Hash>>) {
    exists i :: 0 <= i < |sources| && sources[i] == None
  }

  ghost predicate Returned(sources: seq<Option<Hash>>) {
    exists i, j :: 0 <= i < j < |sources| && sources[i] == None && sources[j] != None
  }

  // The cell while the user's version is still there: frozen, then unlisted, then adopted.
  ghost function Kept(c: Cell, v: Hash, sources: seq<Option<Hash>>): Cell {
    if Returned(sources) then Cell(Some(v), Some(v))
    else if Dropped(sources) then Cell(Some(v), None)
    else c
  }

  lemma {:induction false} KeptCell(c: Cell, v: Hash, sources: seq<Option<Hash>>)
    requires Edited(c) && c.file == Some(v)
    requires NeverReplacedAfterReturn(v, sources)
    ensures After(c, sources) == Kept(c, v, sources)
  {
    if sources != [] {
      var n := |sources| - 1;
      KeptCell(c, v, sources[..n]);
      if Returned(sources[..n]) {
        var i, j :| 0 <= i < j < n && sources[i] == None && sources[j] != None;
        assert sources[n] == Some(v);
        assert Returned(sources);
      } else if Dropped(sources[..n]) {
        var i :| 0 <= i < n && sources[i] == None;
        assert sources[n] != None ==> Returned(sources);
        assert Dropped(sources);
      } else {
        assert sources[n] == None ==> Dropped(sources);
      }
    }
  }

  // If the offer at `k` differs from the adopted version, some prefix has lost that version.
  lemma {:induction false} ReplacedWithin(c: Cell, v: Hash, sources: seq<Option<Hash>>, k: int)
    requires Edited(c) && c.file == Some(v)
    requires 0 <= k < |sources| && sources[k] != Some(v) && Returned(sources[..k])
    ensures exists n :: 0 <= n <= |sources| && After(c, sources[..n]).file != Some(v)
  {
    if NeverReplacedAfterReturn(v, sources[..k]) {
      KeptCell(c, v, sources[..k]);
      assert sources[..k + 1][..k] == sources[..k];
      assert After(c, sources[..k + 1]) == Refresh(Cell(Some(v), Some(v)), sources[k]);
    } else {
      var i, j, m :| 0 <= i < j < m < k && sources[i] == None && sources[j] != None && sources[m] != Some(v);
      assert sources[..m][i] == None && sources[..m][j] != None;
      ReplacedWithin(c, v, sources, m);
    }
  }

  // A file with no manifest entry is adopted by one sync and refreshed by the next: with source
  // and files at rest, two passes always reach a fixed point, and one pass is enough exactly
  // when no unlisted local file differs from what the source offers.
  lemma FixedPoint(c: Cell, source: Option<Hash>)
    ensures var twice := Refresh(Refresh(c, source), source);
            Refresh(twice, source) == twice
    ensures Refresh(Refresh(c, source), source) == Refresh(c, source)
            <==> !(source != None && c.file != None && c.entry == None && c.file != source)
  {
    if source != None && c.file != None && c.entry == None {
      assert Refresh(c, source) == Cell(c.file, c.file);
    }
  }

  // When the version a sync removes or replaces is exactly the one the manifest vouches for.
  lemma OnlyListedVersionsAreReplaced(c: Cell, source: Option<Hash>)
    ensures c.file != None && Refresh(c, source).file != c.file
            <==> c.file != None && c.file == c.entry && source != c.entry
  {
    match source
    case Some(h) => assert c.file == c.entry && c.file != None ==> Refresh(c, source).file == source;
    case None => assert c.file == c.entry && c.file != None ==> Refresh(c, source).file == None;
  }

  // The promise "never overwritten again" fails once a key leaves the source: drop it, bring
  // it back, change it, and the user's edit is gone.
  lemma EditLostWhenKeyReturns()
    ensures After(Cell(Some(Hash("mine")), Some(Hash("v1"))), [None, Some(Hash("v1")), Some(Hash("v2"))]) ==
            Cell(Some(Hash("v2")), Some(Hash("v2")))
  {
    var mine, v1, v2 := Hash("mine"), Hash("v1"), Hash("v2");
    var c := Cell(Some(mine), Some(v1));
    var run: seq<Option<Hash>> := [None, Some(v1), Some(v2)];
    assert run[..2][..1] == run[..1] && run[..1][..0] == [];
    assert After(c, run[..1]) == Cell(Some(mine), None);
    assert After(c, run[..2]) == Cell(Some(mine), Some(mine));
  }
}
