// Leases of sandbox sessions (max_ai/core/environment/manager.py).
//
// Everything a manager method does between taking the user's lock and giving it back is one
// step here; what the provider answers on the way is an input of the step.
module Manager {
  import opened Common

  datatype Key = Key(user: Name, conversation: Name)

  // A provider call succeeds, reports the sandbox lost, or fails for good (after its retries).
  datatype Answer = Fine | Lost | Fails

  datatype Entry = Entry(session: Option<nat>, idle: bool)

  // `errors` is cleanup_errors; `locked` the users whose lock is held; `leased` the keys handed
  // out. The rest is bookkeeping the code does not have: ids of sessions whose changes are all
  // in the workspace (`safe`), ids reported lost, and keys whose release was itself cancelled.
  datatype World = World(
    entries: map<Key, Entry>, errors: set<Key>, closed: bool, locked: set<Name>, leased: set<Key>,
    next: nat, safe: set<nat>, lost: set<nat>, cut: set<Key>)

  const START := World(map[], {}, false, {}, {}, 0, {}, {}, {})

  function EntryOf(w: World, k: Key): Entry {
    if k in w.entries then w.entries[k] else Entry(None, false)
  }

  function SessionOf(w: World, k: Key): Option<nat> { EntryOf(w, k).session }

  function WithSession(w: World, k: Key, s: Option<nat>): World {
    w.(entries := w.entries[k := EntryOf(w, k).(session := s)])
  }

  function WithIdle(w: World, k: Key, idle: bool): World {
    w.(entries := w.entries[k := EntryOf(w, k).(idle := idle)])
  }

  // ---- The steps' parts ------------------------------------------------------------------

  // sync("to_workspace") of session `s`.
  function SyncBack(w: World, k: Key, s: nat, answer: Answer): World {
    match answer
    case Fine => w.(safe := w.safe + {s}, cut := w.cut - {k})
    case Lost => w.(lost := w.lost + {s})
    case Fails => w
  }

  function Connected(w: World, k: Key): World {
    WithSession(w, k, Some(w.next)).(next := w.next + 1, safe := w.safe + {w.next}, cut := w.cut - {k})
  }

  function Drop(w: World, k: Key): World {
    WithSession(w, k, None).(errors := w.errors - {k}, cut := w.cut - {k})
  }

  datatype Leaving = Leaving(sync: Answer, disconnect: Answer, clean: Answer)

  // `_disconnect`: sync back, disconnect, clean, forget. A failure keeps the session.
  function Disconnect(w: World, k: Key, o: Leaving): (World, Answer) {
    match SessionOf(w, k)
    case None => (w, Fine)
    case Some(s) =>
      var synced := SyncBack(w, k, s, o.sync);
      if o.sync == Fails then (synced, Fails)
      else if o.sync == Fine && o.disconnect == Lost then (synced.(lost := synced.lost + {s}), Lost)
      else if o.sync == Fine && o.disconnect == Fails then (synced, Fails)
      else if o.clean == Fails then (synced, Fails)
      else (WithSession(synced, k, None).(cut := synced.cut - {k}), Fine)
  }

  datatype Acquiring = Acquiring(connects: bool, recover: Answer, syncIn: Answer, reconnects: bool, syncInAgain: Answer)

  // `acquire` up to its yield: the world then, and whether the session is handed out.
  function Prepare(w: World, k: Key, o: Acquiring): (World, bool) {
    var woken := WithIdle(w, k, false);
    if SessionOf(w, k).Some? then SyncHeld(woken, k, o)
    else if o.connects then SyncHeld(Connected(woken, k), k, o)
    else (woken, false)
  }

  // A failed sync is recovered first; then the workspace is copied in.
  function SyncHeld(w: World, k: Key, o: Acquiring): (World, bool) {
    match SessionOf(w, k)
    case None => (w, false)
    case Some(s) =>
      if k !in w.errors then SyncIn(w, k, s, o)
      else
        match o.recover
        case Fine => SyncIn(SyncBack(w, k, s, Fine).(errors := w.errors - {k}), k, s, o)
        case Lost => Replace(SyncBack(w, k, s, Lost), k, o)
        case Fails => (w, false)
  }

  function SyncIn(w: World, k: Key, s: nat, o: Acquiring): (World, bool) {
    match o.syncIn
    case Fine => (w, true)
    case Lost => Replace(w.(lost := w.lost + {s}), k, o)
    case Fails => (w, false)
  }

  function Replace(w: World, k: Key, o: Acquiring): (World, bool) {
    var dropped := Drop(w, k);
    if !o.reconnects then (dropped, false)
    else
      var renewed := Connected(dropped, k);
      match o.syncInAgain
      case Fine => (renewed, true)
      case Lost => (renewed.(lost := renewed.lost + {dropped.next}), false)
      case Fails => (renewed, false)
  }

  // From the yield on the sandbox may hold changes the workspace does not have.
  function HandOut(w: World, k: Key): World {
    var s := match SessionOf(w, k) case Some(s) => {s} case None => {};
    w.(leased := w.leased + {k}, locked := w.locked + {k.user}, safe := w.safe - s)
  }

  // How the body of the lease ended. `Interrupted`: cancelled, and cancelled again while the
  // release was being waited for, before or after its sync back.
  datatype Ending = Normally(sync: Answer) | Cancelled(o: Leaving) | SandboxLost | Interrupted(synced: bool)

  function Recorded(w: World, k: Key): World { w.(errors := w.errors + {k}) }

  function Released(w: World, k: Key, ending: Ending): World {
    match SessionOf(w, k)
    case None => w
    case Some(s) =>
      match ending
      case SandboxLost => Drop(w.(lost := w.lost + {s}), k)
      case Interrupted(synced) =>
        if synced then SyncBack(w, k, s, Fine) else w.(cut := w.cut + {k})
      case Normally(sync) =>
        var back := SyncBack(w, k, s, sync);
        (match sync
         case Fine => WithIdle(back, k, true).(errors := back.errors - {k})
         case Lost => Drop(back, k)
         case Fails => Recorded(back, k))
      case Cancelled(o) =>
        var (left, answer) := Disconnect(w, k, o);
        match answer
        case Fine => left.(errors := left.errors - {k})
        case Lost => Drop(left, k)
        case Fails => Recorded(left, k)
  }

  function Release(w: World, k: Key, ending: Ending): World {
    Released(w, k, ending).(leased := w.leased - {k}, locked := w.locked - {k.user})
  }

  // Idle expiry and close both disconnect under the lock and record whatever goes wrong.
  function Retire(w: World, k: Key, o: Leaving): World {
    var (left, answer) := Disconnect(WithIdle(w, k, false), k, o);
    if answer == Fine then left.(errors := left.errors - {k}) else Recorded(left, k)
  }

  // ---- The code --------------------------------------------------------------------------

  class EnvironmentManager {
    var entries: map<Key, Entry>
    var cleanupErrors: set<Key>
    var closed: bool
    var userLocks: set<Name>
    ghost var leased: set<Key>
    var nextSession: nat
    ghost var safe: set<nat>
    ghost var lost: set<nat>
    ghost var cut: set<Key>

    constructor ()
      ensures Now() == START
    {
      entries, cleanupErrors, closed, userLocks, leased := map[], {}, false, {}, {};
      nextSession, safe, lost, cut := 0, {}, {}, {};
    }

    ghost function Now(): World
      reads this
    {
      World(entries, cleanupErrors, closed, userLocks, leased, nextSession, safe, lost, cut)
    }

    method SetSession(k: Key, s: Option<nat>)
      modifies this`entries
      ensures Now() == WithSession(old(Now()), k, s)
    {
      entries := entries[k := (if k in entries then entries[k] else Entry(None, false)).(session := s)];
    }

    method SetIdle(k: Key, idle: bool)
      modifies this`entries
      ensures Now() == WithIdle(old(Now()), k, idle)
    {
      entries := entries[k := (if k in entries then entries[k] else Entry(None, false)).(idle := idle)];
    }

    method Connect(k: Key)
      modifies this
      ensures Now() == Connected(old(Now()), k)
    {
      SetSession(k, Some(nextSession));
      safe, cut := safe + {nextSession}, cut - {k};
      nextSession := nextSession + 1;
    }

    method DropSession(k: Key)
      modifies this
      ensures Now() == Drop(old(Now()), k)
    {
      SetSession(k, None);
      cleanupErrors, cut := cleanupErrors - {k}, cut - {k};
    }

    // What a sync back tells about the session's changes.
    ghost method NoteSyncBack(k: Key, s: nat, answer: Answer)
      modifies this`safe, this`lost, this`cut
      ensures Now() == SyncBack(old(Now()), k, s, answer)
    {
      if answer == Fine { safe, cut := safe + {s}, cut - {k}; }
      if answer == Lost { lost := lost + {s}; }
    }

    method DisconnectEntry(k: Key, o: Leaving) returns (answer: Answer)
      modifies this
      ensures (Now(), answer) == Disconnect(old(Now()), k, o)
    {
      if k !in entries || entries[k].session == None { return Fine; }
      var s := entries[k].session.value;
      NoteSyncBack(k, s, o.sync);
      if o.sync == Fails { return Fails; }
      if o.sync == Fine {
        if o.disconnect == Lost { lost := lost + {s}; return Lost; }
        if o.disconnect == Fails { return Fails; }
      }
      if o.clean == Fails { return Fails; }
      SetSession(k, None);
      cut := cut - {k};
      answer := Fine;
    }

    // Enters under the user's lock; returns whether the session was handed out.
    method Acquire(k: Key, o: Acquiring) returns (handedOut: bool)
      requires k.user !in userLocks
      modifies this
      ensures old(closed) ==> !handedOut && Now() == old(Now())
      ensures !old(closed) ==> handedOut == Prepare(old(Now()), k, o).1
      ensures !old(closed) ==>
                Now() == if handedOut then HandOut(Prepare(old(Now()), k, o).0, k) else Prepare(old(Now()), k, o).0
    {
      if closed { return false; }
      handedOut := PrepareSession(k, o);
      if handedOut {
        userLocks, leased := userLocks + {k.user}, leased + {k};
        safe := safe - match SessionOf(Now(), k) case Some(s) => {s} case None => {};
      }
    }

    method PrepareSession(k: Key, o: Acquiring) returns (ready: bool)
      modifies this
      ensures (Now(), ready) == Prepare(old(Now()), k, o)
    {
      SetIdle(k, false);
      if entries[k].session == None {
        if !o.connects { return false; }
        Connect(k);
      }
      var s := entries[k].session.value;
      var sandboxLost := false;
      if k in cleanupErrors {
        NoteSyncBack(k, s, o.recover);
        if o.recover == Fails { return false; }
        sandboxLost := o.recover == Lost;
        if !sandboxLost { cleanupErrors := cleanupErrors - {k}; }
      }
      if !sandboxLost {
        if o.syncIn == Fine { return true; }
        if o.syncIn == Fails { return false; }
        lost := lost + {s};
      }
      ready := ReplaceSession(k, o);
    }

    method ReplaceSession(k: Key, o: Acquiring) returns (ready: bool)
      modifies this
      ensures (Now(), ready) == Replace(old(Now()), k, o)
    {
      DropSession(k);
      if !o.reconnects { return false; }
      var s := nextSession;
      Connect(k);
      if o.syncInAgain == Lost { lost := lost + {s}; }
      ready := o.syncInAgain == Fine;
    }

    method ReleaseLease(k: Key, ending: Ending)
      requires k in entries && entries[k].session.Some?
      modifies this
      ensures Now() == Release(old(Now()), k, ending)
    {
      var s := entries[k].session.value;
      match ending {
        case SandboxLost =>
          lost := lost + {s};
          DropSession(k);
        case Interrupted(synced) =>
          if synced { NoteSyncBack(k, s, Fine); } else { cut := cut + {k}; }
        case Normally(sync) =>
          NoteSyncBack(k, s, sync);
          if sync == Fine {
            cleanupErrors := cleanupErrors - {k};
            SetIdle(k, true);
          } else if sync == Lost {
            DropSession(k);
          } else {
            cleanupErrors := cleanupErrors + {k};
          }
        case Cancelled(o) =>
          var answer := DisconnectEntry(k, o);
          if answer == Fine {
            cleanupErrors := cleanupErrors - {k};
          } else if answer == Lost {
            DropSession(k);
          } else {
            cleanupErrors := cleanupErrors + {k};
          }
      }
      leased, userLocks := leased - {k}, userLocks - {k.user};
    }

    // `_expire` once its timer has run out, and `close` for one entry.
    method RetireEntry(k: Key, o: Leaving) returns (failed: bool)
      requires k.user !in userLocks
      modifies this
      ensures Now() == Retire(old(Now()), k, o)
      ensures failed <==> Disconnect(WithIdle(old(Now()), k, false), k, o).1 != Fine
    {
      SetIdle(k, false);
      var answer := DisconnectEntry(k, o);
      failed := answer != Fine;
      cleanupErrors := if failed then cleanupErrors + {k} else cleanupErrors - {k};
    }

    // `close` once no lease is open: every entry is retired, in some order; a failed one stays
    // for another attempt.
    method Close(o: map<Key, Leaving>) returns (failed: set<Key>)
      requires userLocks == {}
      requires forall k :: k in entries ==> k in o
      modifies this
      ensures closed && userLocks == {} && entries.Keys == old(entries).Keys
      ensures forall k :: k in entries && k !in failed ==> entries[k].session == None && k !in cleanupErrors
      ensures failed <= entries.Keys && failed <= cleanupErrors
      ensures forall k :: k in failed ==> entries[k].session == old(entries)[k].session && entries[k].session.Some?
      ensures forall k :: k in entries ==> !entries[k].idle
    {
      closed := true;
      var keys := entries.Keys;
      failed := {};
      while keys != {}
        invariant closed && userLocks == {} && entries.Keys == old(entries).Keys && keys <= entries.Keys
        invariant forall k :: k in keys ==> entries[k] == old(entries)[k]
        invariant failed <= entries.Keys - keys && failed <= cleanupErrors
        invariant forall k :: k in entries && k !in keys && k !in failed ==>
                                entries[k].session == None && k !in cleanupErrors
        invariant forall k :: k in failed ==> entries[k].session == old(entries)[k].session && entries[k].session.Some?
        invariant forall k :: k in entries && k !in keys ==> !entries[k].idle
      {
        var k :| k in keys;
        keys := keys - {k};
        ghost var before := Now();
        var bad := RetireEntry(k, o[k]);
        RetireOutcome(before, k, o[k]);
        assert entries == Now().entries;
        if bad { failed := failed + {k}; }
      }
    }
  }

  // Retiring an entry either empties it or keeps its session and records the failure.
  lemma RetireOutcome(w: World, k: Key, o: Leaving)
    ensures var v := Retire(w, k, o);
            var answer := Disconnect(WithIdle(w, k, false), k, o).1;
            && v.entries.Keys == w.entries.Keys + {k} && v.locked == w.locked && v.closed == w.closed
            && (forall j :: j in w.entries && j != k ==> v.entries[j] == w.entries[j])
            && !v.entries[k].idle
            && (answer == Fine ==> v.entries[k].session == None && v.errors == w.errors - {k})
            && (answer != Fine ==> SessionOf(w, k).Some? && v.entries[k].session == SessionOf(w, k)
                                   && v.errors == w.errors + {k})
  {
    DisconnectOutcome(WithIdle(w, k, false), k, o);
  }

  lemma DisconnectOutcome(w: World, k: Key, o: Leaving)
    requires k in w.entries
    ensures var (v, answer) := Disconnect(w, k, o);
            && v.locked == w.locked && v.closed == w.closed && v.errors == w.errors
            && v.entries == (if answer == Fine then w.entries[k := w.entries[k].(session := None)] else w.entries)
            && (answer != Fine ==> w.entries[k].session.Some?)
  {
  }
}
