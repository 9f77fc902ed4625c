// Three-way sync of a host folder and its sandbox copy (max_ai/core/executor/sync.py).
// A file is a path; its content is identified by its hash.
module Sync {
  import opened Common

  datatype Path = Path(name: string)
  datatype Hash = Hash(hex: string)
  type Listing = map<Path, Hash>

  datatype Direction = ToEnvironment | ToWorkspace

  // How the outside world behaves during one sync: the sandbox may fail to list its files,
  // and a transfer may break after moving only some of the planned files.
  datatype Transfer = Complete | Unlisted | Broken(moved: set<Path>)

  datatype Outcome = Synced | Conflict(name: Path) | Failed

  datatype State = State(host: Listing, sandbox: Listing, baseline: Listing)

  // ---- What a sync means, file by file --------------------------------------------------

  // Source, destination and baseline hold three different things at one path.
  predicate Conflicts(source: Option<Hash>, destination: Option<Hash>, before: Option<Hash>) {
    source != before && source != destination && destination != before
  }

  // The three-way merge of one path: a side that did not change yields to the other.
  function Merge(source: Option<Hash>, destination: Option<Hash>, before: Option<Hash>): Option<Hash> {
    if source == before then destination else source
  }

  predicate Carried(source: Listing, destination: Listing, baseline: Listing, name: Path) {
    Get(source, name) != Get(baseline, name) && Get(source, name) != Get(destination, name)
  }

  ghost predicate HasConflict(source: Listing, destination: Listing, baseline: Listing) {
    exists name :: Conflicts(Get(source, name), Get(destination, name), Get(baseline, name))
  }

  // The destination once the files in `moved` have been carried over.
  ghost function Moved(source: Listing, destination: Listing, baseline: Listing, moved: set<Path>): Listing {
    map name | name in source.Keys + destination.Keys &&
        (if name in moved then Merge(Get(source, name), Get(destination, name), Get(baseline, name))
         else Get(destination, name)).Some?
      :: (if name in moved then Merge(Get(source, name), Get(destination, name), Get(baseline, name))
          else Get(destination, name)).value
  }

  ghost function Merged(source: Listing, destination: Listing, baseline: Listing): Listing {
    Moved(source, destination, baseline, source.Keys + destination.Keys)
  }

  function Source(s: State, d: Direction): Listing {
    if d == ToEnvironment then s.host else s.sandbox
  }

  function Destination(s: State, d: Direction): Listing {
    if d == ToEnvironment then s.sandbox else s.host
  }

  function WithDestination(s: State, d: Direction, files: Listing): State {
    if d == ToEnvironment then s.(sandbox := files) else s.(host := files)
  }

  function Opposite(d: Direction): Direction {
    if d == ToEnvironment then ToWorkspace else ToEnvironment
  }

  ghost predicate Conflicted(s: State, d: Direction) {
    HasConflict(Source(s, d), Destination(s, d), s.baseline)
  }

  // Something has to move, so the transfer can break.
  ghost predicate Moves(s: State, d: Direction) {
    exists name :: Carried(Source(s, d), Destination(s, d), s.baseline, name)
  }

  // One whole sync: nothing on a conflict, part of the merge on a broken transfer, and
  // otherwise the merge with the baseline brought to the source listing.
  ghost function Step(s: State, d: Direction, t: Transfer): State {
    if t == Unlisted || Conflicted(s, d) then s
    else if t.Broken? && Moves(s, d) then
      WithDestination(s, d, Moved(Source(s, d), Destination(s, d), s.baseline, t.moved))
    else
      WithDestination(s, d, Merged(Source(s, d), Destination(s, d), s.baseline)).(baseline := Source(s, d))
  }

  ghost predicate Completes(s: State, d: Direction, t: Transfer) {
    t != Unlisted && !Conflicted(s, d) && (t.Broken? ==> !Moves(s, d))
  }

  // ---- The code --------------------------------------------------------------------------

  // Files to copy and to delete. Names are visited in some order; every order gives the same
  // files, and only the name a conflict is reported under depends on it.
  method Plan(source: Listing, destination: Listing, baseline: Listing)
    returns (plan: Result<(seq<Path>, seq<Path>), Path>)
    ensures plan.Err? <==> HasConflict(source, destination, baseline)
    ensures plan.Err? ==>
              Conflicts(Get(source, plan.error), Get(destination, plan.error), Get(baseline, plan.error))
    ensures plan.Ok? ==>
              forall name :: name in plan.value.0 <==> Carried(source, destination, baseline, name) && name in source
    ensures plan.Ok? ==>
              forall name :: name in plan.value.1 <==> Carried(source, destination, baseline, name) && name !in source
  {
    var names := source.Keys + baseline.Keys;
    var copy: seq<Path>, delete: seq<Path> := [], [];
    while names != {}
      invariant names <= source.Keys + baseline.Keys
      invariant forall name :: name in copy <==>
                                 name !in names && Carried(source, destination, baseline, name) && name in source
      invariant forall name :: name in delete <==>
                                 name !in names && Carried(source, destination, baseline, name) && name !in source
      invariant forall name :: name !in names ==>
                                 !Conflicts(Get(source, name), Get(destination, name), Get(baseline, name))
    {
      var name :| name in names;
      names := names - {name};
      var before, incoming, current := Get(baseline, name), Get(source, name), Get(destination, name);
      if incoming == before || incoming == current {
      } else if current != before {
        return Err(name);
      } else if incoming == None {
        delete := delete + [name];
      } else {
        copy := copy + [name];
      }
    }
    return Ok((copy, delete));
  }

  // What `tar -x` and `rm` (or their host counterparts) leave of the destination when they
  // get through exactly the names in `reached`.
  method Apply(source: Listing, destination: Listing, copy: seq<Path>, delete: seq<Path>, reached: set<Path>)
    returns (files: Listing)
    requires forall name :: name in copy ==> name in source
    requires forall name :: name in delete ==> name !in copy
    ensures forall name :: Get(files, name) ==
                             if name in copy && name in reached then Some(source[name])
                             else if name in delete && name in reached then None
                             else Get(destination, name)
  {
    files := map name | name in destination.Keys + (set n | n in copy && n in reached)
        && !(name in delete && name in reached)
      :: if name in copy && name in reached then source[name] else destination[name];
  }

  // Carrying out a plan up to `reached` gives the merge of the reached files.
  lemma AppliedIsMoved(
    s: State, d: Direction, copy: seq<Path>, delete: seq<Path>, reached: set<Path>, files: Listing)
    requires !Conflicted(s, d)
    requires forall name :: name in copy <==>
                              Carried(Source(s, d), Destination(s, d), s.baseline, name) && name in Source(s, d)
    requires forall name :: name in delete <==>
                              Carried(Source(s, d), Destination(s, d), s.baseline, name) && name !in Source(s, d)
    requires forall name :: Get(files, name) ==
                              if name in copy && name in reached then Get(Source(s, d), name)
                              else if name in delete && name in reached then None
                              else Get(Destination(s, d), name)
    ensures files == Moved(Source(s, d), Destination(s, d), s.baseline, reached)
    ensures Moves(s, d) <==> copy != [] || delete != []
  {
    var source, destination := Source(s, d), Destination(s, d);
    var moved := Moved(source, destination, s.baseline, reached);
    forall name ensures Get(files, name) == Get(moved, name) {
      assert !Conflicts(Get(source, name), Get(destination, name), Get(s.baseline, name));
    }
    SameLookups(files, moved);
    if copy != [] { assert copy[0] in copy; }
    if delete != [] { assert delete[0] in delete; }
  }

  class SyncedFolder {
    var host: Listing
    var sandbox: Listing
    var baseline: Listing

    constructor (host: Listing, sandbox: Listing)
      ensures Now() == State(host, sandbox, map[])
    {
      this.host, this.sandbox, this.baseline := host, sandbox, map[];
    }

    ghost function Now(): State
      reads this
    {
      State(host, sandbox, baseline)
    }

    method SyncWorkspace(direction: Direction, transfer: Transfer) returns (outcome: Outcome)
      modifies this
      ensures Now() == Step(old(Now()), direction, transfer)
      ensures outcome.Synced? <==> Completes(old(Now()), direction, transfer)
      ensures outcome.Conflict? <==> transfer != Unlisted && Conflicted(old(Now()), direction)
    {
      if transfer == Unlisted { return Failed; }
      ghost var was := Now();
      var source := if direction == ToEnvironment then host else sandbox;
      var destination := if direction == ToEnvironment then sandbox else host;
      var plan := Plan(source, destination, baseline);
      if plan.Err? { return Conflict(plan.error); }
      var (copy, delete) := plan.value;

      if copy != [] || delete != [] {
        var reached := if transfer.Broken? then transfer.moved else source.Keys + destination.Keys;
        var files := Apply(source, destination, copy, delete, reached);
        AppliedIsMoved(was, direction, copy, delete, reached, files);
        if direction == ToEnvironment { sandbox := files; } else { host := files; }
        if transfer.Broken? { return Failed; }
      } else {
        AppliedIsMoved(was, direction, copy, delete, source.Keys + destination.Keys, destination);
      }

      var arrived := Apply(source, destination, copy, delete, source.Keys + destination.Keys);
      MoveBaseline(source, arrived);
      forall name ensures Get(baseline, name) == Get(source, name) {
      }
      SameLookups(baseline, source);
      outcome := Synced;
    }

    // Files now equal on both sides move the baseline forward, one by one.
    method MoveBaseline(source: Listing, arrived: Listing)
      modifies this`baseline
      ensures forall name :: Get(baseline, name) ==
                               if Get(source, name) == Get(arrived, name) then Get(source, name)
                               else Get(old(baseline), name)
    {
      var names := source.Keys + arrived.Keys + baseline.Keys;
      while names != {}
        invariant names <= source.Keys + arrived.Keys + old(baseline).Keys
        invariant forall name :: Get(baseline, name) ==
                                   if name !in names && Get(source, name) == Get(arrived, name) then Get(source, name)
                                   else Get(old(baseline), name)
      {
        var name :| name in names;
        names := names - {name};
        if Get(source, name) == Get(arrived, name) {
          if name in source {
            baseline := baseline[name := source[name]];
          } else {
            baseline := baseline - {name};
          }
        }
      }
    }
  }
}
