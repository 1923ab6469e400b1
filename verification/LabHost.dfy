/**
 * The machine a lab runs on: Docker's containers, the host's links, the lab's state
 * file and directory.  Every operation may fail, and one that fails may still have
 * taken effect (internal/docker/docker.go, internal/netlink/netlink.go,
 * internal/state/state.go).
 */
module LabHost {
  import opened Options
  import opened Strings
  import opened Names
  import opened Sequences
  import opened State
  import opened HostLinks
  import opened Topology

  // ---------------------------------------------------------------------------
  // The names a lab's links are given.

  /** A lab's naming scheme: nothing below depends on how names are made, not even on their being distinct. */
  datatype Namer = Namer(
    bridge: string -> string,
    port: (string, Member) -> string,
    peer: (string, Member) -> string,
    temp: (string, string) -> string)

  /** The scheme in use. */
  function Generated(hex: Digest, lab: string): Namer {
    Namer(link => LinkName(hex, LabBridge(lab, link)),
          (link, m: Member) => LinkName(hex, BridgePort(lab, link, m.router, m.ifName)),
          (link, m: Member) => LinkName(hex, BridgePeer(lab, link, m.router, m.ifName)),
          (link, side) => LinkName(hex, P2PSide(lab, link, side)))
  }

  function MemberEnds(namer: Namer, link: string): Member -> seq<string> {
    (m: Member) => [namer.port(link, m), namer.peer(link, m)]
  }

  /** The veth ends made for a link, in the order they are deleted. */
  function EndNames(namer: Namer, l: Link): seq<string> {
    if l.kind == "bridge" then Flat(MemberEnds(namer, l.name), l.members)
    else if l.kind == "p2p" then [namer.temp(l.name, "a"), namer.temp(l.name, "b")]
    else []
  }

  function LinkEndNames(namer: Namer): Link -> seq<string> {
    (l: Link) => EndNames(namer, l)
  }

  function AllEndNames(namer: Namer, links: seq<Link>): set<string> {
    set n | n in Flat(LinkEndNames(namer), links)
  }

  lemma {:induction false} InFlat<T, U>(f: T -> seq<U>, xs: seq<T>, i: nat, u: U)
    requires i < |xs| && u in f(xs[i])
    ensures u in Flat(f, xs)
    decreases |xs|
  {
    if i < |xs| - 1 {
      InFlat(f, xs[..|xs| - 1], i, u);
    }
  }

  lemma EndsAreNamed(namer: Namer, links: seq<Link>, i: nat)
    requires i < |links|
    ensures forall n :: n in EndNames(namer, links[i]) ==> n in AllEndNames(namer, links)
  {
    var f := LinkEndNames(namer);
    assert f(links[i]) == EndNames(namer, links[i]);
    forall n | n in f(links[i]) ensures n in Flat(f, links) {
      InFlat(f, links, i, n);
    }
  }

  lemma MembersAreNamed(namer: Namer, l: Link, k: nat)
    requires l.kind == "bridge" && k < |l.members|
    ensures namer.port(l.name, l.members[k]) in EndNames(namer, l)
    ensures namer.peer(l.name, l.members[k]) in EndNames(namer, l)
  {
    var f := MemberEnds(namer, l.name);
    InFlat(f, l.members, k, namer.port(l.name, l.members[k]));
    InFlat(f, l.members, k, namer.peer(l.name, l.members[k]));
  }

  /** Every bridge link with the name of its bridge. */
  function Inventory(namer: Namer, links: seq<Link>): map<string, string> {
    if links == [] then map[]
    else
      var l := links[|links| - 1];
      var before := Inventory(namer, links[..|links| - 1]);
      if l.kind == "bridge" then before[l.name := namer.bridge(l.name)] else before
  }

  lemma {:induction false} InventoryHolds(namer: Namer, links: seq<Link>)
    ensures var owned := Inventory(namer, links);
            && (forall k :: k in owned ==> owned[k] == namer.bridge(k)
                                           && exists l :: l in links && l.kind == "bridge" && l.name == k)
            && (forall l :: l in links && l.kind == "bridge" ==> l.name in owned)
    decreases |links|
  {
    if links != [] {
      var init, last := links[..|links| - 1], links[|links| - 1];
      InventoryHolds(namer, init);
      assert links == init + [last];
      var owned := Inventory(namer, links);
      forall k | k in owned ensures exists l :: l in links && l.kind == "bridge" && l.name == k {
        if k in Inventory(namer, init) {
          var l :| l in init && l.kind == "bridge" && l.name == k;
          assert l in links;
        } else {
          assert last in links;
        }
      }
    }
  }

  // ---------------------------------------------------------------------------
  // The machine.

  /** A container managed by this program carries its lab's label.  Its PID is 0 while it does not run. */
  datatype Container = Container(lab: Option<string>, router: string, pid: nat)

  /** No two running containers share a process. */
  predicate PidsDistinct(containers: map<string, Container>) {
    forall a, b :: a in containers && b in containers && containers[a].pid == containers[b].pid && containers[a].pid > 0 ==> a == b
  }

  /** An operation that failed. */
  datatype Fault =
    | Removing(container: string)
    | Deleting(link: string)
    | Listing
    | ReadingState
    | RemovingState
    | SavingState
    | RemovingDirectory
    | BringingUp          // any step of creation, the state file it ends with included

  /** The record after one more operation. */
  function Noted(failed: multiset<Fault>, ok: bool, fault: Fault): multiset<Fault> {
    if ok then failed else failed + multiset{fault}
  }

  datatype StateFile = NoFile | Unreadable | Saved(state: LabState)

  /** What a removal is compared with: everything a removal may change. */
  datatype Scene = Scene(containers: map<string, Container>, host: Links, masters: map<string, string>, made: set<string>)

  class Host {
    const lab: string
    const namer: Namer
    /** Where each router's FRR files are (`RouterConfigDir` in internal/config/config.go). */
    const configDir: string -> string
    /** Topology digests (`Digest` in internal/config/config.go). */
    const digestOf: Topology -> string
    var containers: map<string, Container>
    var host: Links
    /** Port to bridge. */
    var masters: map<string, string>
    var file: StateFile
    /** Routers with a directory below the lab's. */
    var dirs: set<string>
    /** The bridges this program created that still exist. */
    ghost var made: set<string>
    /** Every container ID a creation has reported. */
    ghost var replied: set<string>
    /** Every end moved into a container, under the name it had. */
    ghost var moved: set<(string, string)>
    /** Every operation that has failed. */
    ghost var failed: multiset<Fault>

    ghost predicate Valid()
      reads `containers, `host, `made, `masters
    {
      Paired(host, containers.Keys) && PidsDistinct(containers) && made <= host.Keys && masters.Keys <= host.Keys
    }

    ghost function Now(): Scene
      reads `containers, `host, `masters, `made
    {
      Scene(containers, host, masters, made)
    }

    /** Containers found by label. */
    function Labelled(): set<string>
      reads `containers
    {
      set id | id in containers && containers[id].lab == Some(lab)
    }

    // -------------------------------------------------------------------------
    // Removal.

    /** The containers that carry the lab's label. */
    method ListContainers() returns (ids: Option<set<string>>)
      modifies `failed
      ensures failed == Noted(old(failed), ids.Some?, Listing)
      ensures ids.Some? ==> ids.value == Labelled()
    {
      var ok: bool := *;
      failed := Noted(failed, ok, Listing);
      ids := if ok then Some(Labelled()) else None;
    }

    method ReadState() returns (read: Option<StateFile>)
      modifies `failed
      ensures failed == Noted(old(failed), read.Some?, ReadingState)
      ensures read.Some? ==> read.value == file
    {
      var ok: bool := *;
      failed := Noted(failed, ok, ReadingState);
      read := if ok then Some(file) else None;
    }

    /** Whether there is a state file, readable or not. */
    method StatState() returns (there: Option<bool>)
      modifies `failed
      ensures failed == Noted(old(failed), there.Some?, ReadingState)
      ensures there.Some? ==> there.value == !file.NoFile?
    {
      var ok: bool := *;
      failed := Noted(failed, ok, ReadingState);
      there := if ok then Some(!file.NoFile?) else None;
    }

    /** Removing a state file that is not there succeeds. */
    method RemoveState() returns (ok: bool)
      modifies `file, `failed
      ensures failed == Noted(old(failed), ok, RemovingState)
      ensures file == if ok then NoFile else old(file)
    {
      ok := *;
      failed := Noted(failed, ok, RemovingState);
      file := if ok then NoFile else file;
    }

    /** The lab's directory with all in it; a failure may leave any part. */
    method RemoveDirectory() returns (ok: bool)
      modifies `dirs, `failed
      ensures failed == Noted(old(failed), ok, RemovingDirectory)
      ensures dirs <= old(dirs) && (ok ==> dirs == {})
    {
      ok := *;
      var left: set<string> := *;
      failed := Noted(failed, ok, RemovingDirectory);
      dirs := if ok then {} else dirs * left;
    }

    /** The file is replaced at once or not at all.  `fault` is what a failure counts as. */
    method WriteState(s: LabState, ghost fault: Fault) returns (ok: bool)
      modifies `file, `failed
      ensures failed == Noted(old(failed), ok, fault)
      ensures file == if ok then Saved(s) else old(file)
    {
      ok := *;
      failed := Noted(failed, ok, fault);
      file := if ok then Saved(s) else file;
    }

    /** Deleting a link that is not there succeeds. */
    method DeleteLink(name: string) returns (ok: bool)
      requires Valid()
      modifies `host, `masters, `made, `failed
      ensures Valid()
      ensures host == old(host) || host == Delete(old(host), name)
      ensures made == old(made) * host.Keys && PortsKept(old(masters), masters, host)
      ensures ok ==> name !in host
      ensures failed == Noted(old(failed), ok, Deleting(name))
    {
      var works: bool := *;
      ok := *;
      if works {
        DeleteKeepsPaired(host, containers.Keys, name);
        host := Delete(host, name);
        made := made * host.Keys;
        masters := StillPorts(masters, host);
      }
      ok := ok && name !in host;
      failed := Noted(failed, ok, Deleting(name));
    }

    /** So does removing a container that is not there.  Its namespace goes with it. */
    method RemoveContainer(id: string) returns (ok: bool)
      requires Valid()
      modifies `containers, `host, `masters, `made, `failed
      ensures Valid()
      ensures (host == old(host) && containers == old(containers))
              || (host == DropInside(old(host), id) && containers == old(containers) - {id})
      ensures made == old(made) * host.Keys && PortsKept(old(masters), masters, host)
      ensures ok ==> id !in containers
      ensures failed == Noted(old(failed), ok, Removing(id))
    {
      var works: bool := *;
      ok := *;
      if works {
        DropKeepsPaired(host, containers.Keys, id);
        host := DropInside(host, id);
        containers := containers - {id};
        made := made * host.Keys;
        masters := StillPorts(masters, host);
      }
      ok := ok && id !in containers;
      failed := Noted(failed, ok, Removing(id));
    }

    // -------------------------------------------------------------------------
    // Creation.

    /** A router's directory and its files. */
    method MakeDirectory(router: string) returns (ok: bool)
      modifies `dirs, `failed
      ensures failed == Noted(old(failed), ok, BringingUp)
      ensures old(dirs) <= dirs <= old(dirs) + {router} && (ok ==> router in dirs)
    {
      ok := *;
      var made: bool := *;
      failed := Noted(failed, ok, BringingUp);
      dirs := if ok || made then dirs + {router} else dirs;
    }

    /** The reply to a creation can be lost. */
    method CreateContainer(router: string) returns (reply: Option<string>)
      requires Valid()
      modifies `containers, `replied, `failed
      ensures Valid() && Part(old(containers), containers)
      ensures failed == Noted(old(failed), reply.Some?, BringingUp)
      ensures replied == old(replied) + if reply.Some? then {reply.value} else {}
      ensures forall id :: id in containers && id !in old(containers) ==> containers[id] == Container(Some(lab), router, 0)
      ensures reply.Some? ==> reply.value in containers && reply.value !in old(containers) && !Blank(reply.value)
    {
      var id: string := *;
      var created: bool := *;
      var lost: bool := *;
      reply := None;
      if created && !Blank(id) && id !in containers {
        containers := containers[id := Container(Some(lab), router, 0)];
        if !lost {
          reply := Some(id);
          replied := replied + {id};
        }
      }
      failed := Noted(failed, reply.Some?, BringingUp);
    }

    /** A container may be started and exit at once. */
    method StartContainer(id: string) returns (ok: bool)
      requires Valid()
      modifies `containers, `failed
      ensures Valid() && failed == Noted(old(failed), ok, BringingUp)
      ensures containers.Keys == old(containers).Keys
      ensures forall c :: c in containers && c != id ==> containers[c] == old(containers)[c]
      ensures id in containers ==> containers[id] == old(containers)[id].(pid := containers[id].pid)
      ensures ok ==> id in containers
    {
      ok := *;
      ok := ok && id in containers;
      failed := Noted(failed, ok, BringingUp);
      var pid: int := *;
      if id !in containers || pid < 0 || (exists c :: c in containers && containers[c].pid == pid) {
        return;
      }
      var p: nat := pid;
      containers := containers[id := containers[id].(pid := p)];
    }

    method InspectContainer(id: string) returns (pid: Option<nat>)
      modifies `failed
      ensures failed == Noted(old(failed), pid.Some?, BringingUp)
      ensures pid.Some? ==> id in containers && pid.value == containers[id].pid
    {
      var fails: bool := *;
      pid := if fails || id !in containers then None else Some(containers[id].pid);
      failed := Noted(failed, pid.Some?, BringingUp);
    }

    /** A link of that name is taken as it is; a new bridge can be created and then fail to come up. */
    method EnsureBridge(name: string) returns (ok: bool)
      requires Valid()
      modifies `host, `made, `failed
      ensures Valid() && Grown(old(host), host, {name}, {})
      ensures failed == Noted(old(failed), ok, BringingUp)
      ensures made == old(made) + (host.Keys - old(host).Keys)
      ensures ok ==> name in host && (name in old(host) || host[name] == Bridge)
    {
      ok := *;
      if name !in host {
        var added: bool := *;
        if added {
          host, made := host[name := Bridge], made + {name};
        }
        ok := ok && added;
      }
      failed := Noted(failed, ok, BringingUp);
    }

    method CreateVeth(a: string, b: string) returns (ok: bool)
      requires Valid()
      modifies `host, `failed
      ensures Valid() && Grown(old(host), host, {a, b}, {})
      ensures failed == Noted(old(failed), ok, BringingUp)
      ensures host == old(host) || (Free(old(host), a, b) && host == WithPair(old(host), a, b))
      ensures ok ==> Free(old(host), a, b) && host == WithPair(old(host), a, b)
    {
      ok := *;
      var added: bool := *;
      ok := ok && added && Free(host, a, b);
      failed := Noted(failed, ok, BringingUp);
      if Free(host, a, b) && added {
        host := WithPair(host, a, b);
      }
    }

    /** Moves one end of a pair into the namespace of a process. */
    method MoveEnd(end: string, pid: nat, ghost id: string) returns (ok: bool)
      requires Valid() && end in host && host[end].Veth? && end !in made && end !in masters
      requires Hosts(id, pid)
      modifies `host, `moved, `failed
      ensures Valid() && old(moved) <= moved && failed == Noted(old(failed), ok, BringingUp)
      ensures ok ==> host == AfterMove(old(host), end, id) && (id, end) in moved
      ensures !ok ==> host == old(host) || host == AfterMove(old(host), end, id)
    {
      ok := *;
      var works: bool := *;
      var at := set c | c in containers && containers[c].pid == pid && pid > 0;
      ok := ok && at != {} && works;
      failed := Noted(failed, ok, BringingUp);
      if at == {} || !works {
        return;
      }
      var c :| c in at;
      host := AfterMove(host, end, c);
      moved := moved + {(c, end)};
    }

    /** Whatever else is done, inside the routers above all: nothing of it shows here. */
    method WorkInside() returns (ok: bool)
      modifies `failed
      ensures failed == Noted(old(failed), ok, BringingUp)
    {
      ok := *;
      failed := Noted(failed, ok, BringingUp);
    }

    /** The process, if it is a container's at all, is that container's. */
    ghost predicate Hosts(id: string, pid: nat)
      reads `containers
    {
      forall c :: c in containers && containers[c].pid == pid && pid > 0 ==> c == id
    }

    /** A veth pair: one end a port of the bridge, the other in the container. */
    method CreateBridgeAttachment(bridge: string, port: string, peer: string, pid: nat, ghost id: string) returns (ok: bool)
      requires Valid() && Hosts(id, pid)
      modifies `host, `masters, `moved, `failed
      ensures Valid() && old(moved) <= moved && Part(old(masters), masters)
      ensures failed == Noted(old(failed), ok, BringingUp)
      ensures Grown(old(host), host, {port, peer}, {id})
      ensures ok ==> bridge in host && host[bridge] == Bridge
      ensures ok ==> port in host && host[port] == Veth(Inside(id)) && port in masters && masters[port] == bridge
      ensures ok ==> (id, peer) in moved
    {
      ok := CreateVeth(port, peer);
      if !ok {
        return;
      }
      var enslaveFails: bool := *;
      if bridge !in host || host[bridge] != Bridge || enslaveFails {
        failed := Noted(failed, false, BringingUp);
        return false;
      }
      masters := masters[port := bridge];
      OneEndLeaves(old(host), port, peer, peer, id);
      var upFails: bool := *;
      if upFails {
        failed := Noted(failed, false, BringingUp);
        return false;
      }
      ok := MoveEnd(peer, pid, id);
    }

    /** A veth pair with both ends in containers. */
    method CreateP2PAttachment(a: string, pida: nat, b: string, pidb: nat, ghost ida: string, ghost idb: string) returns (ok: bool)
      requires Valid() && Hosts(ida, pida) && Hosts(idb, pidb)
      modifies `host, `moved, `failed
      ensures Valid() && old(moved) <= moved && failed == Noted(old(failed), ok, BringingUp)
      ensures Grown(old(host), host, {a, b}, {ida, idb})
      ensures ok ==> host == old(host) && (ida, a) in moved && (idb, b) in moved
    {
      ok := CreateVeth(a, b);
      if !ok {
        return;
      }
      OneEndLeaves(old(host), a, b, a, ida);
      ok := MoveEnd(a, pida, ida);
      if !ok {
        return;
      }
      BothEndsLeave(old(host), a, b, ida, idb);
      ok := MoveEnd(b, pidb, idb);
    }
  }

  /** A port goes with its link, and is released with its bridge. */
  function StillPorts(masters: map<string, string>, host: Links): map<string, string> {
    map p | p in masters && p in host && masters[p] in host :: masters[p]
  }

  /** No port was added, and one whose link and bridge are there is one still. */
  ghost predicate PortsKept(before: map<string, string>, after: map<string, string>, host: Links) {
    Part(after, before) && forall p :: p in before && p in host && before[p] in host ==> p in after
  }

  lemma PortsKeptAgain(before: map<string, string>, was: map<string, string>, now: map<string, string>, hostWas: Links, host: Links)
    requires PortsKept(before, was, hostWas) && PortsKept(was, now, host) && Part(host, hostWas)
    ensures PortsKept(before, now, host)
  {
  }

  /** The names of a pair to be made are both unused. */
  predicate Free(h: Links, a: string, b: string) {
    a != b && a !in h && b !in h
  }

  function WithPair(h: Links, a: string, b: string): Links {
    h[a := Veth(OnHost(b))][b := Veth(OnHost(a))]
  }

  /** The other end, if it is still on the host, now has its peer in the container. */
  function AfterMove(h: Links, end: string, id: string): Links
    requires end in h && h[end].Veth?
  {
    if h[end].peer.OnHost? then (h - {end})[h[end].peer.name := Veth(Inside(id))] else h - {end}
  }

  /** One end of a new pair gone inside: the other is on the host, and tells so. */
  lemma OneEndLeaves(h: Links, a: string, b: string, end: string, id: string)
    requires Free(h, a, b) && (end == a || end == b)
    ensures var h1 := AfterMove(WithPair(h, a, b), end, id);
            var other := if end == a then b else a;
            h1 == h[other := Veth(Inside(id))] && Grown(h, h1, {a, b}, {id})
  {
  }

  /** Both ends gone inside: the host is as it was. */
  lemma BothEndsLeave(h: Links, a: string, b: string, ida: string, idb: string)
    requires Free(h, a, b)
    ensures var h1 := AfterMove(WithPair(h, a, b), a, ida);
            b in h1 && h1[b].Veth? && AfterMove(h1, b, idb) == h && Grown(h, h1, {a, b}, {ida, idb})
  {
    OneEndLeaves(h, a, b, a, ida);
  }
}
