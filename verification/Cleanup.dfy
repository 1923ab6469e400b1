/**
 * `cleanupRuntime` (internal/runtime/runtime.go): what `down`, `--recreate` and the
 * rollback of a failed `up` remove, and what they keep for another try.
 */
module Cleanup {
  import opened Options
  import opened Sequences
  import opened State
  import opened HostLinks
  import opened LabHost
  import opened Topology

  /** The errors joined while sweeping, by what they are about. */
  datatype Faults = Faults(listing: bool, ids: set<string>, names: set<string>)

  const NONE := Faults(false, {}, {})

  datatype Outcome =
    | Cleaned
    | Refused       // before anything was touched
    | Incomplete    // something could not be removed, or could not be listed
    | StateStays    // everything is removed but the state file
    | PurgeFailed   // everything is removed but the lab's directory

  // ---------------------------------------------------------------------------
  // What a cleanup is entitled to remove.

  function Recorded(s: LabState): set<string> {
    if s.containers.None? then {} else set r | r in s.containers.value :: s.containers.value[r].id
  }

  function OwnedNames(s: LabState): set<string> {
    if s.owned.None? then {} else s.owned.value.Values
  }

  function DoomedIds(s: Option<LabState>, labelled: set<string>): set<string> {
    labelled + if s.Some? then Recorded(s.value) else {}
  }

  function DoomedNames(namer: Namer, t: Topology, s: Option<LabState>): set<string> {
    if s.Some? then AllEndNames(namer, t.links) + OwnedNames(s.value) else {}
  }

  /** Everything removed so far was doomed, and what is doomed for another's sake was a peer or a guest of it. */
  ghost predicate Sweeping(w: Host, before: Scene, ids: set<string>, names: set<string>)
    reads w`containers, w`host, w`masters, w`made
  {
    w.Valid() && Swept(before, w.Now(), ids, names)
  }

  ghost predicate Swept(before: Scene, now: Scene, ids: set<string>, names: set<string>) {
    && Part(now.containers, before.containers) && Part(before.containers - ids, now.containers)
    && Part(now.host, before.host) && Part(Clear(before.host, ids, names), now.host)
    && PortsKept(before.masters, now.masters, now.host)
    && now.made == before.made * now.host.Keys
  }

  /** Of what was tried, only what reported a failure can be left. */
  ghost predicate Tried(w: Host, ids: set<string>, names: set<string>, faults: Faults)
    reads w`containers, w`host, w`masters, w`made
  {
    Left(w.Now(), ids, names, faults)
  }

  predicate Left(now: Scene, ids: set<string>, names: set<string>, faults: Faults) {
    now.containers.Keys * ids <= faults.ids && now.host.Keys * names <= faults.names
  }

  /** What one deletion, done or failed, does to a scene. */
  ghost predicate LinkWent(was: Scene, now: Scene, name: string) {
    && now.containers == was.containers && (now.host == was.host || now.host == Delete(was.host, name))
    && now.made == was.made * now.host.Keys && PortsKept(was.masters, now.masters, now.host)
  }

  lemma LinkSwept(before: Scene, was: Scene, now: Scene, ids: set<string>, names: set<string>, name: string)
    requires Swept(before, was, ids, names) && Paired(was.host, was.containers.Keys) && name in names && LinkWent(was, now, name)
    ensures Swept(before, now, ids, names)
  {
    DeleteSpares(before.host, was.host, was.containers.Keys, ids, names, name);
    DeleteKeepsPaired(was.host, was.containers.Keys, name);
    PortsKeptAgain(before.masters, was.masters, now.masters, was.host, now.host);
  }

  lemma LinkTried(was: Scene, now: Scene, gone: set<string>, tried: set<string>, name: string, faults: Faults, ok: bool)
    requires Left(was, gone, tried, faults) && LinkWent(was, now, name) && (ok ==> name !in now.host)
    ensures Left(now, gone, tried + {name}, Reported(faults, ok, Deleting(name)))
  {
  }

  /** ... and one removal of a container. */
  ghost predicate ContainerWent(was: Scene, now: Scene, id: string) {
    && ((now.host == was.host && now.containers == was.containers)
        || (now.host == DropInside(was.host, id) && now.containers == was.containers - {id}))
    && now.made == was.made * now.host.Keys && PortsKept(was.masters, now.masters, now.host)
  }

  lemma ContainerSwept(before: Scene, was: Scene, now: Scene, ids: set<string>, names: set<string>, id: string)
    requires Swept(before, was, ids, names) && Paired(was.host, was.containers.Keys) && id in ids && ContainerWent(was, now, id)
    ensures Swept(before, now, ids, names)
  {
    DropSpares(before.host, was.host, ids, names, id);
    DropKeepsPaired(was.host, was.containers.Keys, id);
    PortsKeptAgain(before.masters, was.masters, now.masters, was.host, now.host);
  }

  lemma ContainerTried(was: Scene, now: Scene, gone: set<string>, id: string, faults: Faults, ok: bool)
    requires Left(was, gone, {}, faults) && ContainerWent(was, now, id) && (ok ==> id !in now.containers)
    ensures Left(now, gone + {id}, {}, Reported(faults, ok, Removing(id)))
  {
  }

  /** Every failure reported is one that happened since. */
  ghost predicate Happened(was: multiset<Fault>, now: multiset<Fault>, faults: Faults) {
    && was <= now
    && (faults.listing ==> was[Listing] < now[Listing])
    && (forall id :: id in faults.ids ==> was[Removing(id)] < now[Removing(id)])
    && (forall n :: n in faults.names ==> was[Deleting(n)] < now[Deleting(n)])
  }

  /** ... and unless one is reported, none has. */
  ghost predicate Real(was: multiset<Fault>, now: multiset<Fault>, faults: Faults) {
    Happened(was, now, faults) && (now == was <==> faults == NONE)
  }

  /** Whatever of this is left had its own removal fail since. */
  ghost predicate GoneOrFailed(now: Scene, ids: set<string>, names: set<string>, was: multiset<Fault>, failed: multiset<Fault>) {
    && (forall id :: id in ids && id in now.containers ==> was[Removing(id)] < failed[Removing(id)])
    && (forall n :: n in names && n in now.host ==> was[Deleting(n)] < failed[Deleting(n)])
  }

  lemma LeftIsGoneOrFailed(now: Scene, ids: set<string>, names: set<string>, faults: Faults, was: multiset<Fault>, failed: multiset<Fault>)
    requires Left(now, ids, names, faults) && Happened(was, failed, faults)
    ensures GoneOrFailed(now, ids, names, was, failed)
  {
    forall id | id in ids && id in now.containers ensures id in faults.ids {
      assert id in now.containers.Keys * ids;
    }
    forall n | n in names && n in now.host ensures n in faults.names {
      assert n in now.host.Keys * names;
    }
  }

  lemma StillReal(was: multiset<Fault>, now: multiset<Fault>, faults: Faults, fault: Fault, ok: bool)
    requires Real(was, now, faults) && (fault.Deleting? || fault.Removing? || fault == Listing)
    ensures Real(was, Noted(now, ok, fault), Reported(faults, ok, fault))
  {
  }

  /** The report after one more removal. */
  function Reported(faults: Faults, ok: bool, fault: Fault): Faults {
    if ok then faults
    else match fault
      case Removing(id) => faults.(ids := faults.ids + {id})
      case Deleting(name) => faults.(names := faults.names + {name})
      case _ => faults.(listing := true)
  }

  /** One link; its failure does not stop the sweep. */
  method SweepLink(w: Host, name: string, faults: Faults, ghost before: Scene, ghost ids: set<string>, ghost names: set<string>,
                   ghost gone: set<string>, ghost tried: set<string>, ghost was: multiset<Fault>)
    returns (r: Faults)
    requires Sweeping(w, before, ids, names) && name in names && Tried(w, gone, tried, faults) && Real(was, w.failed, faults)
    modifies w`host, w`masters, w`made, w`failed
    ensures Sweeping(w, before, ids, names) && Tried(w, gone, tried + {name}, r) && Real(was, w.failed, r)
    ensures r.listing == faults.listing && r.ids == faults.ids && faults.names <= r.names
  {
    ghost var scene, failed := w.Now(), w.failed;
    var ok := w.DeleteLink(name);
    r := Reported(faults, ok, Deleting(name));
    LinkSwept(before, scene, w.Now(), ids, names, name);
    LinkTried(scene, w.Now(), gone, tried, name, faults, ok);
    StillReal(was, failed, faults, Deleting(name), ok);
  }

  /** One container; its failure does not stop the sweep. */
  method SweepContainer(w: Host, id: string, faults: Faults, ghost before: Scene, ghost ids: set<string>, ghost names: set<string>,
                        ghost gone: set<string>, ghost was: multiset<Fault>)
    returns (r: Faults)
    requires Sweeping(w, before, ids, names) && id in ids && Tried(w, gone, {}, faults) && Real(was, w.failed, faults)
    modifies w`containers, w`host, w`masters, w`made, w`failed
    ensures Sweeping(w, before, ids, names) && Tried(w, gone + {id}, {}, r) && Real(was, w.failed, r)
    ensures r.listing == faults.listing && r.names == faults.names && faults.ids <= r.ids
  {
    ghost var scene, failed := w.Now(), w.failed;
    var ok := w.RemoveContainer(id);
    r := Reported(faults, ok, Removing(id));
    ContainerSwept(before, scene, w.Now(), ids, names, id);
    ContainerTried(scene, w.Now(), gone, id, faults, ok);
    StillReal(was, failed, faults, Removing(id), ok);
  }

  /** Containers recorded and found. */
  method SweepContainers(w: Host, doomed: set<string>, faults: Faults, ghost before: Scene, ghost ids: set<string>,
                         ghost names: set<string>, ghost was: multiset<Fault>)
    returns (r: Faults)
    requires Sweeping(w, before, ids, names) && doomed <= ids && faults.ids == {} && faults.names == {} && Real(was, w.failed, faults)
    modifies w`containers, w`host, w`masters, w`made, w`failed
    ensures Sweeping(w, before, ids, names) && Tried(w, doomed, {}, r) && Real(was, w.failed, r)
    ensures r.listing == faults.listing && r.names == {}
  {
    r := faults;
    var todo := doomed;
    while todo != {}
      invariant todo <= doomed
      invariant Sweeping(w, before, ids, names) && Tried(w, doomed - todo, {}, r) && Real(was, w.failed, r)
      invariant r.listing == faults.listing && r.names == {}
    {
      var id :| id in todo;
      OneLess(doomed, todo, id);
      r := SweepContainer(w, id, r, before, ids, names, doomed - todo, was);
      todo := todo - {id};
    }
  }

  /** The veth ends of one link of the topology. */
  method SweepEnds(w: Host, ends: seq<string>, faults: Faults, ghost before: Scene, ghost ids: set<string>, ghost names: set<string>,
                   ghost gone: set<string>, ghost tried: set<string>, ghost was: multiset<Fault>)
    returns (r: Faults)
    requires Sweeping(w, before, ids, names) && Tried(w, gone, tried, faults) && Real(was, w.failed, faults)
    requires forall n :: n in ends ==> n in names
    modifies w`host, w`masters, w`made, w`failed
    ensures Sweeping(w, before, ids, names) && Tried(w, gone, tried + (set n | n in ends), r) && Real(was, w.failed, r)
    ensures r.listing == faults.listing && r.ids == faults.ids && faults.names <= r.names
  {
    r := faults;
    for k := 0 to |ends|
      invariant Sweeping(w, before, ids, names) && Tried(w, gone, tried + (set n | n in ends[..k]), r) && Real(was, w.failed, r)
      invariant r.listing == faults.listing && r.ids == faults.ids && faults.names <= r.names
    {
      r := SweepLink(w, ends[k], r, before, ids, names, gone, tried + (set n | n in ends[..k]), was);
      assert ends[..k + 1] == ends[..k] + [ends[k]];
    }
    assert ends[..|ends|] == ends;
  }

  /** The veth ends of every link. */
  method SweepAllEnds(w: Host, links: seq<Link>, faults: Faults, ghost before: Scene, ghost ids: set<string>, ghost names: set<string>,
                      ghost gone: set<string>, ghost was: multiset<Fault>)
    returns (r: Faults)
    requires Sweeping(w, before, ids, names) && AllEndNames(w.namer, links) <= names && Tried(w, gone, {}, faults)
    requires Real(was, w.failed, faults)
    modifies w`host, w`masters, w`made, w`failed
    ensures Sweeping(w, before, ids, names) && Tried(w, gone, AllEndNames(w.namer, links), r) && Real(was, w.failed, r)
    ensures r.listing == faults.listing && r.ids == faults.ids && faults.names <= r.names
  {
    r := faults;
    ghost var f := LinkEndNames(w.namer);
    for i := 0 to |links|
      invariant Sweeping(w, before, ids, names) && Tried(w, gone, (set n | n in Flat(f, links[..i])), r) && Real(was, w.failed, r)
      invariant r.listing == faults.listing && r.ids == faults.ids && faults.names <= r.names
    {
      EndsAreNamed(w.namer, links, i);
      FlatNext(f, links, i);
      r := SweepEnds(w, EndNames(w.namer, links[i]), r, before, ids, names, gone, (set n | n in Flat(f, links[..i])), was);
    }
    assert links[..|links|] == links;
  }

  /** The recorded bridges. */
  method SweepBridges(w: Host, doomed: set<string>, faults: Faults, ghost before: Scene, ghost ids: set<string>, ghost names: set<string>,
                      ghost gone: set<string>, ghost tried: set<string>, ghost was: multiset<Fault>)
    returns (r: Faults)
    requires Sweeping(w, before, ids, names) && doomed <= names && Tried(w, gone, tried, faults) && Real(was, w.failed, faults)
    modifies w`host, w`masters, w`made, w`failed
    ensures Sweeping(w, before, ids, names) && Tried(w, gone, tried + doomed, r) && Real(was, w.failed, r)
    ensures r.listing == faults.listing && r.ids == faults.ids && faults.names <= r.names
  {
    r := faults;
    var todo := doomed;
    while todo != {}
      invariant todo <= doomed
      invariant Sweeping(w, before, ids, names) && Tried(w, gone, tried + (doomed - todo), r) && Real(was, w.failed, r)
      invariant r.listing == faults.listing && r.ids == faults.ids && faults.names <= r.names
    {
      var name :| name in todo;
      r := SweepLink(w, name, r, before, ids, names, gone, tried + (doomed - todo), was);
      assert tried + (doomed - (todo - {name})) == tried + (doomed - todo) + {name};
      todo := todo - {name};
    }
    assert tried + (doomed - {}) == tried + doomed;
  }

  // ---------------------------------------------------------------------------
  // The whole of it.

  /** A snapshot that can drive a cleanup: valid for the lab, with a bridge inventory. */
  predicate Usable(namer: Namer, lab: string, s: LabState) {
    s.owned.Some? && Validates(namer.bridge, s, lab)
  }

  /** The inventory a cleanup goes by: the one it is given, else the file's, else none. */
  ghost predicate GoesBy(namer: Namer, lab: string, given: Option<LabState>, file: StateFile, s: Option<LabState>) {
    match given
    case Some(g) => s == given && Usable(namer, lab, g)
    case None =>
      || (file.NoFile? && s.None?)
      || (file.Saved? && s == Some(file.state) && Usable(namer, lab, file.state))
  }

  /** With nothing failing, an inventory is there, or known not to be. */
  predicate HasInventory(namer: Namer, lab: string, given: Option<LabState>, file: StateFile) {
    match given
    case Some(g) => Usable(namer, lab, g)
    case None => file.NoFile? || (file.Saved? && Usable(namer, lab, file.state))
  }

  method ReadInventory(w: Host, given: Option<LabState>) returns (usable: bool, s: Option<LabState>)
    modifies w`failed
    ensures usable ==> GoesBy(w.namer, w.lab, given, w.file, s) && w.failed == old(w.failed)
    ensures given.Some? ==> (usable <==> Usable(w.namer, w.lab, given.value))
    ensures !usable && HasInventory(w.namer, w.lab, given, w.file) ==> w.failed == Noted(old(w.failed), false, ReadingState)
    ensures w.failed == old(w.failed) || w.failed == Noted(old(w.failed), false, ReadingState)
    ensures usable ==> HasInventory(w.namer, w.lab, given, w.file)
  {
    s := given;
    if given.None? {
      var read := w.ReadState();
      if read.None? {
        return false, None;
      }
      match read.value {
        case NoFile => return true, None;
        case Unreadable => return false, None;
        case Saved(state) =>
          if !Validates(w.namer.bridge, state, w.lab) {
            return false, None;
          }
          s := Some(state);
      }
    }
    usable := Usable(w.namer, w.lab, s.value);
  }

  ghost predicate Untouched(w: Host, before: Scene, file: StateFile, dirs: set<string>)
    reads w`containers, w`host, w`masters, w`made, w`file, w`dirs
  {
    w.Now() == before && w.file == file && w.dirs == dirs
  }

  /** When nothing reported a failure, exactly what was doomed is gone. */
  lemma SweepDone(w: Host, before: Scene, ids: set<string>, names: set<string>)
    requires Sweeping(w, before, ids, names) && Tried(w, ids, names, NONE)
    ensures w.containers == before.containers - ids && w.host == Clear(before.host, ids, names)
  {
    forall n | n in names ensures n !in w.host {
      assert n !in w.host.Keys * names;
    }
    forall id | id in ids ensures id !in w.containers {
      assert id !in w.containers.Keys * ids;
    }
    ClearReached(before.host, w.host, w.containers.Keys, ids, names);
  }

  method SweepTopology(w: Host, links: seq<Link>, owned: set<string>, faults: Faults,
                       ghost before: Scene, ghost ids: set<string>, ghost tried: set<string>, ghost was: multiset<Fault>)
    returns (r: Faults)
    requires Sweeping(w, before, ids, AllEndNames(w.namer, links) + owned) && Tried(w, tried, {}, faults) && Real(was, w.failed, faults)
    modifies w`host, w`masters, w`made, w`failed
    ensures Sweeping(w, before, ids, AllEndNames(w.namer, links) + owned)
    ensures Tried(w, tried, AllEndNames(w.namer, links) + owned, r) && Real(was, w.failed, r)
    ensures r.listing == faults.listing && r.ids == faults.ids && faults.names <= r.names
  {
    ghost var names := AllEndNames(w.namer, links) + owned;
    r := SweepAllEnds(w, links, faults, before, ids, names, tried, was);
    r := SweepBridges(w, owned, r, before, ids, names, tried, AllEndNames(w.namer, links), was);
  }

  /** The state file, then on request the directory. */
  method Forget(w: Host, purge: bool) returns (r: Outcome)
    modifies w`file, w`dirs, w`failed
    ensures r.StateStays? ==> w.file == old(w.file) && w.dirs == old(w.dirs)
    ensures r.Cleaned? || r.PurgeFailed? ==> w.file.NoFile?
    ensures r.Cleaned? && purge ==> w.dirs == {}
    ensures !purge ==> w.dirs == old(w.dirs) && !r.PurgeFailed?
    ensures w.dirs <= old(w.dirs) && !r.Refused? && !r.Incomplete?
    ensures w.failed == Noted(old(w.failed), r.Cleaned?, if r.StateStays? then RemovingState else RemovingDirectory)
  {
    var removed := w.RemoveState();
    if !removed {
      return StateStays;
    }
    r := Cleaned;
    if purge {
      var purged := w.RemoveDirectory();
      r := if purged then Cleaned else PurgeFailed;
    }
  }

  /** Lists the labelled containers, and sweeps. */
  method SweepAll(w: Host, t: Topology, s: Option<LabState>) returns (refused: bool, faults: Faults)
    requires w.Valid()
    modifies w`containers, w`host, w`masters, w`made, w`failed
    ensures w.Valid()
    ensures refused ==> s.None? && faults == NONE && w.Now() == old(w.Now())
    ensures s.None? && old(w.Labelled()) != {} ==> refused
    ensures refused ==> w.failed == Noted(old(w.failed), false, Listing) || (w.failed == old(w.failed) && old(w.Labelled()) != {})
    ensures !refused ==> Sweeping(w, old(w.Now()), DoomedIds(s, old(w.Labelled())), DoomedNames(w.namer, t, s))
    ensures !refused ==>
              Tried(w, DoomedIds(s, if faults.listing then {} else old(w.Labelled())), DoomedNames(w.namer, t, s), faults)
    ensures !refused ==> Real(old(w.failed), w.failed, faults)
  {
    ghost var before, was := w.Now(), w.failed;
    var labelled := w.ListContainers();
    StillReal(was, was, NONE, Listing, labelled.Some?);
    if s.None? && (labelled.None? || labelled.value != {}) {
      return true, NONE;
    }
    ghost var ids := DoomedIds(s, w.Labelled());
    ghost var names := DoomedNames(w.namer, t, s);
    var doomed := DoomedIds(s, if labelled.Some? then labelled.value else {});
    faults := SweepContainers(w, doomed, Reported(NONE, labelled.Some?, Listing), before, ids, names, was);
    if s.Some? {
      faults := SweepTopology(w, t.links, OwnedNames(s.value), faults, before, ids, doomed, was);
    }
    refused := false;
  }

  /** With the inventory at hand: the sweep, then the state file if nothing failed. */
  method SweepAndForget(w: Host, t: Topology, s: Option<LabState>, purge: bool) returns (r: Outcome, faults: Faults)
    requires w.Valid()
    modifies w`containers, w`host, w`masters, w`made, w`file, w`dirs, w`failed
    ensures w.Valid()
    ensures r.Refused? ==> s.None? && faults == NONE && Untouched(w, old(w.Now()), old(w.file), old(w.dirs))
    ensures s.None? && old(w.Labelled()) != {} ==> r.Refused?
    ensures r.Refused? ==> w.failed == Noted(old(w.failed), false, Listing) || (w.failed == old(w.failed) && old(w.Labelled()) != {})
    ensures !r.Refused? ==>
              Sweeping(w, old(w.Now()), DoomedIds(s, old(w.Labelled())), DoomedNames(w.namer, t, s))
    ensures !r.Refused? ==>
              && Tried(w, DoomedIds(s, if faults.listing then {} else old(w.Labelled())), DoomedNames(w.namer, t, s), faults)
              && Happened(old(w.failed), w.failed, faults)
    ensures r.Incomplete? <==> faults != NONE
    ensures r.Incomplete? || r.StateStays? ==> w.file == old(w.file) && w.dirs == old(w.dirs)
    ensures r.Cleaned? || r.PurgeFailed? ==> w.file.NoFile?
    ensures r.Cleaned? && purge ==> w.dirs == {}
    ensures !purge ==> w.dirs == old(w.dirs) && !r.PurgeFailed?
    ensures w.dirs <= old(w.dirs) && old(w.failed) <= w.failed
    ensures !r.Refused? ==> (w.failed == old(w.failed) <==> r.Cleaned?)
    ensures r.StateStays? ==> w.failed == Noted(old(w.failed), false, RemovingState)
    ensures r.PurgeFailed? ==> w.failed == Noted(old(w.failed), false, RemovingDirectory)
    ensures !r.Refused? && !r.Incomplete? ==>
              && w.containers == old(w.containers) - DoomedIds(s, old(w.Labelled()))
              && w.host == Clear(old(w.host), DoomedIds(s, old(w.Labelled())), DoomedNames(w.namer, t, s))
  {
    ghost var before := w.Now();
    var refused;
    refused, faults := SweepAll(w, t, s);
    if refused {
      return Refused, faults;
    }
    if faults != NONE {
      return Incomplete, faults;
    }
    SweepDone(w, before, DoomedIds(s, old(w.Labelled())), DoomedNames(w.namer, t, s));
    r := Forget(w, purge);
  }

  /** Nothing but a failing operation can keep a cleanup from running through. */
  predicate CanBegin(namer: Namer, lab: string, given: Option<LabState>, file: StateFile, labelled: set<string>) {
    HasInventory(namer, lab, given, file) && (given.None? && file.NoFile? ==> labelled == {})
  }

  method CleanupRuntime(w: Host, t: Topology, given: Option<LabState>, purge: bool)
    returns (r: Outcome, faults: Faults, ghost s: Option<LabState>)
    requires w.Valid()
    modifies w`containers, w`host, w`masters, w`made, w`file, w`dirs, w`failed
    ensures w.Valid()
    // Refusals: without a usable inventory, or with none at all beside labelled containers.
    ensures r.Refused? ==> Untouched(w, old(w.Now()), old(w.file), old(w.dirs))
    ensures given.Some? && !Usable(w.namer, w.lab, given.value) ==> r.Refused?
    ensures given.Some? && Usable(w.namer, w.lab, given.value) ==> !r.Refused?
    ensures given.None? && old(w.file).NoFile? && old(w.Labelled()) != {} ==> r.Refused?
    ensures given.None? && old(w.file).Unreadable? ==> r.Refused?
    ensures given.None? && old(w.file).Saved? && !Usable(w.namer, w.lab, old(w.file).state) ==> r.Refused?
    ensures !r.Refused? ==> GoesBy(w.namer, w.lab, given, old(w.file), s)
    // The frame: only what is recorded, labelled or named, and what hangs on it.
    ensures !r.Refused? ==>
              Sweeping(w, old(w.Now()), DoomedIds(s, old(w.Labelled())), DoomedNames(w.namer, t, s))
    // Everything was tried: what is left of it is what failed to be removed, or could not be listed.
    ensures !r.Refused? ==>
              && Tried(w, DoomedIds(s, if faults.listing then {} else old(w.Labelled())), DoomedNames(w.namer, t, s), faults)
              && Happened(old(w.failed), w.failed, faults)
    ensures r.Incomplete? <==> faults != NONE
    // It runs through exactly if it can begin and nothing fails, and each other outcome has its failure.
    ensures old(w.failed) <= w.failed
    ensures r.Cleaned? <==> w.failed == old(w.failed) && CanBegin(w.namer, w.lab, given, old(w.file), old(w.Labelled()))
    ensures r.Refused? && CanBegin(w.namer, w.lab, given, old(w.file), old(w.Labelled())) ==>
              w.failed == Noted(old(w.failed), false, ReadingState) || w.failed == Noted(old(w.failed), false, Listing)
    ensures r.StateStays? ==> w.failed == Noted(old(w.failed), false, RemovingState)
    ensures r.PurgeFailed? ==> w.failed == Noted(old(w.failed), false, RemovingDirectory)
    // A failed removal keeps the inventory and the directory.
    ensures r.Incomplete? || r.StateStays? ==> w.file == old(w.file) && w.dirs == old(w.dirs)
    ensures r.Cleaned? || r.PurgeFailed? ==> w.file.NoFile?
    ensures r.Cleaned? && purge ==> w.dirs == {}
    ensures !purge ==> w.dirs == old(w.dirs) && !r.PurgeFailed?
    ensures w.dirs <= old(w.dirs)
    // A removal without fault leaves nothing behind.
    ensures !r.Refused? && !r.Incomplete? ==>
              && w.containers == old(w.containers) - DoomedIds(s, old(w.Labelled()))
              && w.host == Clear(old(w.host), DoomedIds(s, old(w.Labelled())), DoomedNames(w.namer, t, s))
  {
    var usable, snapshot := ReadInventory(w, given);
    s := snapshot;
    if !usable {
      return Refused, NONE, s;
    }
    r, faults := SweepAndForget(w, t, snapshot, purge);
  }
}
