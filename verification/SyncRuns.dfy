// What the three-way sync promises over whole runs of edits and syncs in both directions.
module SyncRuns {
  import opened Common
  import opened Sync

  // ---- One sync --------------------------------------------------------------------------

  lemma MovedAt(source: Listing, destination: Listing, baseline: Listing, moved: set<Path>, name: Path)
    ensures Get(Moved(source, destination, baseline, moved), name) ==
            if name in moved then Merge(Get(source, name), Get(destination, name), Get(baseline, name))
            else Get(destination, name)
  {
  }

  // A conflict leaves host, sandbox and baseline alone. Without one the destination becomes
  // the per-file three-way merge, where a side's own change wins over an unchanged other side;
  // the baseline becomes the source listing, and the source itself is never touched.
  lemma SyncMergesOrStops(s: State, d: Direction, name: Path)
    ensures Conflicted(s, d) ==> Step(s, d, Complete) == s
    ensures !Conflicted(s, d) ==>
              var after := Step(s, d, Complete);
              && after.baseline == Source(s, d) == Source(after, d)
              && (Get(Source(s, d), name) != Get(s.baseline, name) ==>
                    Get(Destination(after, d), name) == Get(Source(s, d), name))
              && (Get(Source(s, d), name) == Get(s.baseline, name) ==>
                    Get(Destination(after, d), name) == Get(Destination(s, d), name))
  {
    MovedAt(Source(s, d), Destination(s, d), s.baseline,
            Source(s, d).Keys + Destination(s, d).Keys, name);
  }

  // A sync stops if and only if some file is held in three different versions, absence included;
  // so changes of one side alone always get through, and bring both sides to that side's files.
  lemma ConflictedIff(s: State, d: Direction)
    ensures Conflicted(s, d) <==>
            exists name ::
              && Get(s.host, name) != Get(s.sandbox, name)
              && Get(s.host, name) != Get(s.baseline, name) && Get(s.sandbox, name) != Get(s.baseline, name)
  {
    if Conflicted(s, d) {
      var name :| Conflicts(Get(Source(s, d), name), Get(Destination(s, d), name), Get(s.baseline, name));
    }
    if name :| Get(s.host, name) != Get(s.sandbox, name)
               && Get(s.host, name) != Get(s.baseline, name) && Get(s.sandbox, name) != Get(s.baseline, name) {
      assert Conflicts(Get(Source(s, d), name), Get(Destination(s, d), name), Get(s.baseline, name));
    }
  }

  lemma OneSidedChangesGetThrough(s: State, d: Direction)
    requires Destination(s, d) == s.baseline
    ensures !Conflicted(s, d)
    ensures var after := Step(s, d, Complete); after.host == after.sandbox == after.baseline == Source(s, d)
  {
    var after := Step(s, d, Complete);
    forall name ensures Get(Destination(after, d), name) == Get(Source(s, d), name) {
      SyncMergesOrStops(s, d, name);
    }
    SameLookups(Destination(after, d), Source(s, d));
  }

  // An opposite sync with no edits in between cannot conflict, and brings host, sandbox and
  // baseline to one common listing: the merge the first sync computed.
  lemma OppositeSyncConverges(s: State, d: Direction)
    requires !Conflicted(s, d)
    ensures var there := Step(s, d, Complete);
            var back := Step(there, Opposite(d), Complete);
            && !Conflicted(there, Opposite(d))
            && back.host == back.sandbox == back.baseline == Destination(there, d)
  {
    var there := Step(s, d, Complete);
    var back := Step(there, Opposite(d), Complete);
    var o := Opposite(d);
    assert there.baseline == Destination(there, o);
    assert !Conflicted(there, o);
    forall name ensures Get(Destination(back, o), name) == Get(Source(there, o), name) {
      MovedAt(Source(there, o), Destination(there, o), there.baseline,
              Source(there, o).Keys + Destination(there, o).Keys, name);
    }
    SameLookups(Destination(back, o), Source(there, o));
  }

  // A transfer that broke half-way can simply be run again: the retry cannot conflict and
  // ends where an unbroken sync would have ended.
  lemma RetryAfterBrokenTransfer(s: State, d: Direction, moved: set<Path>)
    requires !Conflicted(s, d)
    ensures !Conflicted(Step(s, d, Broken(moved)), d)
    ensures Step(Step(s, d, Broken(moved)), d, Complete) == Step(s, d, Complete)
  {
    var source, destination := Source(s, d), Destination(s, d);
    var broken := Step(s, d, Broken(moved));
    if Moves(s, d) {
      forall name
        ensures !Conflicts(Get(source, name), Get(Destination(broken, d), name), Get(s.baseline, name))
        ensures Get(Merged(source, Destination(broken, d), s.baseline), name) ==
                Get(Merged(source, destination, s.baseline), name)
      {
        assert !Conflicts(Get(source, name), Get(destination, name), Get(s.baseline, name));
        MovedAt(source, destination, s.baseline, moved, name);
      }
      SameLookups(Merged(source, Destination(broken, d), s.baseline), Merged(source, destination, s.baseline));
    } else {
      OnlyBaselineMoves(s, d);
    }
  }

  lemma OnlyBaselineMoves(s: State, d: Direction)
    requires !Conflicted(s, d) && !Moves(s, d)
    ensures var after := Step(s, d, Complete);
            !Conflicted(after, d) && Step(after, d, Complete) == after
  {
    var after := Step(s, d, Complete);
    forall name ensures Get(Destination(Step(after, d, Complete), d), name) == Get(Destination(after, d), name) {
      MovedAt(Source(after, d), Destination(after, d), after.baseline,
              Source(after, d).Keys + Destination(after, d).Keys, name);
    }
    SameLookups(Destination(Step(after, d, Complete), d), Destination(after, d));
  }

  // ---- Runs ------------------------------------------------------------------------------

  // Users edit the host, commands edit the sandbox, and the manager syncs either way.
  datatype Event =
    | EditHost(files: Listing)
    | EditSandbox(files: Listing)
    | Syncs(direction: Direction, transfer: Transfer)

  ghost function Next(s: State, e: Event): State {
    match e
    case EditHost(files) => s.(host := files)
    case EditSandbox(files) => s.(sandbox := files)
    case Syncs(d, t) => Step(s, d, t)
  }

  ghost function After(start: State, events: seq<Event>): State {
    if events == [] then start else Next(After(start, events[..|events| - 1]), events[|events| - 1])
  }

  // The first `k` events end with a sync that completed, and `name` held `version` on both
  // sides at that moment.
  ghost predicate AgreedAt(start: State, events: seq<Event>, k: int, name: Path, version: Hash) {
    && 0 < k <= |events|
    && events[k - 1].Syncs?
    && Completes(After(start, events[..k - 1]), events[k - 1].direction, events[k - 1].transfer)
    && Get(After(start, events[..k]).host, name) == Some(version)
    && Get(After(start, events[..k]).sandbox, name) == Some(version)
  }

  // Every baseline entry was once agreed by both sides.
  lemma {:induction false} BaselineWasAgreed(start: State, events: seq<Event>, name: Path)
    requires start.baseline == map[]
    requires name in After(start, events).baseline
    ensures exists k :: AgreedAt(start, events, k, name, After(start, events).baseline[name])
  {
    var n := |events|;
    var version := After(start, events).baseline[name];
    if n > 0 {
      hide Step, Completes;
      var before := events[..n - 1];
      var s, e := After(start, before), events[n - 1];
      if e.Syncs? { BaselineMoves(s, e.direction, e.transfer, name); }
      assert events[..n] == events;
      if e.Syncs? && Completes(s, e.direction, e.transfer) && Get(s.baseline, name) != Some(version) {
        assert AgreedAt(start, events, n, name, version);
      } else {
        BaselineWasAgreed(start, before, name);
        var k :| AgreedAt(start, before, k, name, version);
        AgreedBefore(start, before, events, k, name, version);
      }
    }
  }

  // A sync that does not complete leaves the baseline; one that does brings it to the source,
  // and an entry that is new then is on both sides.
  lemma BaselineMoves(s: State, d: Direction, t: Transfer, name: Path)
    ensures var after := Step(s, d, t);
            && (!Completes(s, d, t) ==> after.baseline == s.baseline)
            && (Completes(s, d, t) && Get(after.baseline, name) != Get(s.baseline, name) ==>
                  Get(after.host, name) == Get(after.sandbox, name) == Get(after.baseline, name))
  {
    MovedAt(Source(s, d), Destination(s, d), s.baseline, Source(s, d).Keys + Destination(s, d).Keys, name);
  }

  lemma AgreedBefore(
    start: State, before: seq<Event>, events: seq<Event>, k: int, name: Path, version: Hash)
    requires before <= events && AgreedAt(start, before, k, name, version)
    ensures AgreedAt(start, events, k, name, version)
  {
    assert events[..k] == before[..k] && events[..k - 1] == before[..k - 1];
  }

  // No lost update: whatever version a sync overwrites or deletes, in any run and whether or
  // not its transfer breaks, is the baseline's, and both sides held it at an earlier sync.
  lemma NoLostUpdate(start: State, events: seq<Event>, d: Direction, t: Transfer, name: Path)
    requires start.baseline == map[]
    requires var s := After(start, events);
             name in Destination(s, d) && Get(Destination(Step(s, d, t), d), name) != Get(Destination(s, d), name)
    ensures var s := After(start, events);
            Get(s.baseline, name) == Get(Destination(s, d), name)
            && exists k :: AgreedAt(start, events, k, name, Destination(s, d)[name])
  {
    var s := After(start, events);
    var source, destination := Source(s, d), Destination(s, d);
    assert !Conflicts(Get(source, name), Get(destination, name), Get(s.baseline, name));
    if t.Broken? {
      MovedAt(source, destination, s.baseline, t.moved, name);
    }
    MovedAt(source, destination, s.baseline, source.Keys + destination.Keys, name);
    BaselineWasAgreed(start, events, name);
  }

  // ---- The one-way mirror of skills ------------------------------------------------------

  // Which files `mirror` sends and removes; carrying that out makes the copy the host's.
  method Mirror(host: Listing, sandbox: Listing) returns (copy: set<Path>, delete: set<Path>, mirrored: Listing)
    ensures mirrored == host
    ensures forall name :: name in copy <==> name in host && Get(sandbox, name) != Get(host, name)
    ensures forall name :: name in delete <==> name in sandbox && name !in host
  {
    copy := set name | name in host && Get(sandbox, name) != Some(host[name]);
    delete := set name | name in sandbox && name !in host;
    mirrored := (map name | name in sandbox && name !in delete :: sandbox[name])
                + map name | name in copy :: host[name];
  }
}
