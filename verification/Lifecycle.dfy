/**
 * A lab's life: `up`, with its rollback, `Down` and `MigrateState`
 * (internal/runtime/runtime.go), and any number of them in a row.
 */
module Lifecycle {
  import opened Options
  import opened Strings
  import opened Sequences
  import opened State
  import opened HostLinks
  import opened LabHost
  import opened Topology
  import opened Cleanup
  import opened Wiring
  import Linux

  // ---------------------------------------------------------------------------
  // What the commands ask of a topology, and of a snapshot.

  predicate PlainLink(routers: set<string>, l: Link) {
    && !Blank(l.name)
    && (forall m :: m in l.members ==> m.router in routers)
    && (l.kind == "p2p" ==> |l.members| == 2)
    && (l.kind == "bridge" ==> l.members != [])
  }

  predicate Plain(t: Topology, lab: string) {
    && t.lab == lab
    && (forall r :: r in t.routers ==> !Blank(r))
    && (forall l :: l in t.links ==> PlainLink(t.routers.Keys, l))
  }

  lemma LoadedLinkIsPlain(lib: Linux.Library, routers: set<string>, links: seq<Link>, i: nat)
    requires i < |links| && LinksOk(lib, routers, links)
    ensures PlainLink(routers, links[i])
  {
    var l := links[i];
    assert LinkOk(lib, routers, links[i]);
    forall m | m in l.members ensures m.router in routers {
      var k :| 0 <= k < |l.members| && l.members[k] == m;
      assert MemberOk(lib, routers, links[i].members[k]);
    }
  }

  lemma RoutersAndLinksArePlain(lib: Linux.Library, t: Topology)
    requires LinksOk(lib, t.routers.Keys, t.links) && forall r :: r in t.routers ==> RouterNameOk(r)
    ensures Plain(t, t.lab)
  {
    forall l | l in t.links ensures PlainLink(t.routers.Keys, l) {
      var i :| 0 <= i < |t.links| && t.links[i] == l;
      LoadedLinkIsPlain(lib, t.routers.Keys, t.links, i);
    }
  }

  /** Whatever loads is plain. */
  lemma LoadedIsPlain(lib: Linux.Library, t: Topology)
    requires WellFormed(lib, t)
    ensures Plain(t, t.lab) && LabNameOk(t.lab)
  {
    assert LinksOk(lib, t.routers.Keys, t.links);
    assert forall r :: r in t.routers ==> RouterNameOk(r);
    RoutersAndLinksArePlain(lib, t);
  }

  ghost predicate Ready(w: Host)
    reads w`containers, w`host, w`masters, w`made
  {
    w.Valid() && LabNameOk(w.lab) && forall t :: IsDigest(w.digestOf(t))
  }

  function Snapshot(lab: string, digest: string, cs: Running, owned: map<string, string>): LabState {
    LabState(lab, digest, Some(cs), Some(owned))
  }

  predicate AllContainersOk(cs: Running) {
    forall r :: r in cs ==> ContainerOk(r, cs[r])
  }

  /** The bridges recorded so far are bridges of the topology. */
  lemma RecordedAreBridges(namer: Namer, links: seq<Link>, owned: map<string, string>)
    requires ListedSoFar(namer, links, owned)
    ensures forall k :: k in owned ==> owned[k] == namer.bridge(k) && exists l :: l in links && l.kind == "bridge" && l.name == k
  {
    var i :| 0 <= i <= |links| && owned == Inventory(namer, links[..i]);
    InventoryHolds(namer, links[..i]);
    forall k | k in owned ensures exists l :: l in links && l.kind == "bridge" && l.name == k {
      var l :| l in links[..i] && l.kind == "bridge" && l.name == k;
      assert l in links;
    }
  }

  lemma RecordedAreListed(namer: Namer, links: seq<Link>, owned: map<string, string>)
    requires ListedSoFar(namer, links, owned)
    ensures owned.Values <= Inventory(namer, links).Values
  {
    RecordedAreBridges(namer, links, owned);
    InventoryHolds(namer, links);
    forall v | v in owned.Values ensures v in Inventory(namer, links).Values {
      var k :| k in owned && owned[k] == v;
      assert k in Inventory(namer, links) && Inventory(namer, links)[k] == v;
    }
  }

  /** However far `up` got, the snapshot it holds passes the checks of a later cleanup. */
  lemma SnapshotIsUsable(namer: Namer, t: Topology, lab: string, digest: string, cs: Running, owned: map<string, string>)
    requires LabNameOk(lab) && IsDigest(digest) && AllContainersOk(cs) && Plain(t, lab)
    requires ListedSoFar(namer, t.links, owned)
    ensures Usable(namer, lab, Snapshot(lab, digest, cs, owned))
  {
    RecordedAreBridges(namer, t.links, owned);
    forall k | k in owned ensures !Blank(k) {
      var l :| l in t.links && l.kind == "bridge" && l.name == k;
      assert PlainLink(t.routers.Keys, l);
    }
  }

  // ---------------------------------------------------------------------------
  // Containers.

  /** Recorded containers exist, carry the lab's label and their router's name, and are all new. */
  ghost predicate Started(lab: string, now: map<string, Container>, cs: Running, before: map<string, Container>) {
    && AllContainersOk(cs)
    && (forall r :: r in cs ==>
          && cs[r].id in now && cs[r].id !in before
          && now[cs[r].id].lab == Some(lab) && now[cs[r].id].router == r)
  }

  /** Nothing old changed, and everything new carries the lab's label. */
  ghost predicate Added(lab: string, now: map<string, Container>, before: map<string, Container>) {
    Part(before, now) && forall id :: id in now && id !in before ==> now[id].lab == Some(lab)
  }

  ghost predicate Underway(w: Host, cs: Running, before: map<string, Container>)
    reads w`containers, w`host, w`masters, w`made
  {
    w.Valid() && Started(w.lab, w.containers, cs, before) && Added(w.lab, w.containers, before)
  }

  /** The PIDs recorded are the containers'. */
  ghost predicate PidsRecorded(now: map<string, Container>, cs: Running) {
    forall r :: r in cs ==> cs[r].id in now && cs[r].pid == now[cs[r].id].pid
  }

  lemma OneMoreStarted(lab: string, now: map<string, Container>, cs: Running, router: string, c: ContainerState,
                       before: map<string, Container>)
    requires Started(lab, now, cs, before) && !Blank(router) && ContainerOk(router, c) && c.id in now && c.id !in before
    requires now[c.id].lab == Some(lab) && now[c.id].router == router
    ensures Started(lab, now, cs[router := c], before)
    ensures PidsRecorded(now, cs) && c.pid == now[c.id].pid ==> PidsRecorded(now, cs[router := c])
  {
  }

  /** Starting a container that is not recorded yet changes its process and nothing else. */
  lemma LaunchKeeps(lab: string, was: map<string, Container>, now: map<string, Container>, cs: Running,
                    before: map<string, Container>, id: string)
    requires Started(lab, was, cs, before) && Added(lab, was, before)
    requires id in was && id !in before && forall r :: r in cs ==> cs[r].id != id
    requires now.Keys == was.Keys && forall c :: c in now && c != id ==> now[c] == was[c]
    requires now[id] == was[id].(pid := now[id].pid)
    ensures Started(lab, now, cs, before) && Added(lab, now, before)
    ensures PidsRecorded(was, cs) ==> PidsRecorded(now, cs)
  {
  }

  /** So does creating one. */
  lemma CreationKeeps(lab: string, was: map<string, Container>, now: map<string, Container>, cs: Running, before: map<string, Container>)
    requires Started(lab, was, cs, before) && Added(lab, was, before) && Part(was, now)
    requires forall id :: id in now && id !in was ==> now[id].lab == Some(lab)
    ensures Started(lab, now, cs, before) && Added(lab, now, before)
    ensures PidsRecorded(was, cs) ==> PidsRecorded(now, cs)
  {
    forall id | id in now && id !in before ensures now[id].lab == Some(lab) {
      if id in was {
        assert now[id] == was[id];
      }
    }
    assert forall r :: r in cs ==> now[cs[r].id] == was[cs[r].id];
  }

  lemma OneMoreId(cs: Running, router: string, c: ContainerState)
    requires router !in cs
    ensures Ids(cs[router := c]) == Ids(cs) + {c.id}
  {
    var more := cs[router := c];
    assert more[router].id in Ids(more);
    assert forall r :: r in cs ==> more[r].id == cs[r].id;
  }

  lemma OneMoreReply(replied: set<string>, ids: set<string>, id: string)
    ensures (replied + {id}) - replied <= ids + {id} && ids <= ids + {id}
  {
  }

  lemma NoReply(replied: set<string>, ids: set<string>)
    ensures (replied + {}) - replied <= ids
  {
  }

  /** A new container runs, or tries to; the others are as they were. */
  method Launch(w: Host, id: string, ghost cs: Running, ghost before: map<string, Container>) returns (pid: Option<nat>)
    requires Underway(w, cs, before)
    requires id in w.containers && id !in before && forall r :: r in cs ==> cs[r].id != id
    modifies w`containers, w`failed
    ensures Underway(w, cs, before) && w.failed == Noted(old(w.failed), pid.Some?, BringingUp)
    ensures id in w.containers
    ensures w.containers[id].lab == old(w.containers)[id].lab && w.containers[id].router == old(w.containers)[id].router
    ensures PidsRecorded(old(w.containers), cs) ==> PidsRecorded(w.containers, cs)
    ensures pid.Some? ==> pid.value == w.containers[id].pid
  {
    pid := None;
    var ok := w.StartContainer(id);
    LaunchKeeps(w.lab, old(w.containers), w.containers, cs, before, id);
    if ok {
      pid := w.InspectContainer(id);
    }
  }

  /** A container is created; the reply may be lost. */
  method Create(w: Host, router: string, ghost cs: Running, ghost before: map<string, Container>) returns (reply: Option<string>)
    requires Underway(w, cs, before)
    modifies w`containers, w`replied, w`failed
    ensures Underway(w, cs, before) && w.failed == Noted(old(w.failed), reply.Some?, BringingUp)
    ensures w.replied == old(w.replied) + if reply.Some? then {reply.value} else {}
    ensures PidsRecorded(old(w.containers), cs) ==> PidsRecorded(w.containers, cs)
    ensures reply.Some? ==> FreshFor(w.lab, w.containers, reply.value, router, cs, before)
  {
    reply := w.CreateContainer(router);
    CreationKeeps(w.lab, old(w.containers), w.containers, cs, before);
  }

  /** A container of the lab for this router, which nothing records yet. */
  predicate FreshFor(lab: string, now: map<string, Container>, id: string, router: string, cs: Running, before: map<string, Container>) {
    && id in now && id !in before && !Blank(id) && now[id].lab == Some(lab) && now[id].router == router
    && (forall r :: r in cs ==> cs[r].id != id)
  }

  /** Launches and records a new container: its PID once it runs. */
  method Record(w: Host, router: string, id: string, cs: Running, ghost before: map<string, Container>) returns (ok: bool, more: Running)
    requires Underway(w, cs, before)
    requires !Blank(router) && router !in cs && FreshFor(w.lab, w.containers, id, router, cs, before)
    modifies w`containers, w`failed
    ensures Underway(w, more, before) && w.failed == Noted(old(w.failed), ok, BringingUp)
    ensures Ids(more) == Ids(cs) + {id}
    ensures router in more && more == cs[router := more[router]] && more[router].configDir == w.configDir(router)
    ensures ok && PidsRecorded(old(w.containers), cs) ==> PidsRecorded(w.containers, more)
  {
    var c := ContainerState(id, 0, w.configDir(router));
    var pid := Launch(w, id, cs, before);
    if pid.Some? {
      c := c.(pid := pid.value);
    }
    OneMoreStarted(w.lab, w.containers, cs, router, c, before);
    OneMoreId(cs, router, c);
    more := cs[router := c];
    ok := pid.Some?;
  }

  /** The container is recorded as soon as its ID is known. */
  method Obtain(w: Host, router: string, cs: Running, ghost before: map<string, Container>) returns (ok: bool, more: Running)
    requires Underway(w, cs, before) && !Blank(router) && router !in cs
    modifies w`containers, w`replied, w`failed
    ensures Underway(w, more, before) && w.failed == Noted(old(w.failed), ok, BringingUp)
    ensures w.replied - old(w.replied) <= Ids(more) && Ids(cs) <= Ids(more)
    ensures more == cs || (router in more && more == cs[router := more[router]] && more[router].configDir == w.configDir(router))
    ensures ok ==> router in more
    ensures ok && PidsRecorded(old(w.containers), cs) ==> PidsRecorded(w.containers, more)
  {
    more := cs;
    var reply := Create(w, router, cs, before);
    ok := reply.Some?;
    if ok {
      OneMoreReply(old(w.replied), Ids(cs), reply.value);
      ok, more := Record(w, router, reply.value, cs, before);
    } else {
      NoReply(old(w.replied), Ids(cs));
    }
  }

  /** The router's directory. */
  method PrepareDirectory(w: Host, router: string, ghost cs: Running, ghost before: map<string, Container>) returns (ok: bool)
    requires Underway(w, cs, before)
    modifies w`dirs, w`failed
    ensures Underway(w, cs, before) && w.failed == Noted(old(w.failed), ok, BringingUp)
    ensures old(w.dirs) <= w.dirs <= old(w.dirs) + {router}
  {
    ok := w.MakeDirectory(router);
  }

  /** Files, then the container. */
  method StartRouter(w: Host, router: string, cs: Running, ghost before: map<string, Container>) returns (ok: bool, more: Running)
    requires Underway(w, cs, before) && !Blank(router) && router !in cs
    modifies w`containers, w`dirs, w`replied, w`failed
    ensures Underway(w, more, before) && w.failed == Noted(old(w.failed), ok, BringingUp)
    ensures w.replied - old(w.replied) <= Ids(more) && Ids(cs) <= Ids(more)
    ensures old(w.dirs) <= w.dirs <= old(w.dirs) + {router}
    ensures more == cs || (router in more && more == cs[router := more[router]] && more[router].configDir == w.configDir(router))
    ensures ok ==> router in more
    ensures ok && PidsRecorded(old(w.containers), cs) ==> PidsRecorded(w.containers, more)
  {
    more := cs;
    ok := PrepareDirectory(w, router, cs, before);
    if ok {
      ok, more := Obtain(w, router, cs, before);
    }
  }

  /** Only these routers are recorded; all of them, if all went well. */
  predicate Covered(cs: Running, routers: set<string>, ok: bool) {
    cs.Keys <= routers && (ok ==> cs.Keys == routers)
  }

  lemma OneMoreRouter(cs: Running, more: Running, router: string, done: set<string>, ok: bool)
    requires Covered(cs, done, true)
    requires more == cs || (router in more && more == cs[router := more[router]])
    requires ok ==> router in more
    ensures Covered(more, done + {router}, ok)
  {
  }

  method StartRouters(w: Host, routers: set<string>) returns (ok: bool, cs: Running)
    requires w.Valid() && forall r :: r in routers ==> !Blank(r)
    modifies w`containers, w`dirs, w`replied, w`failed
    ensures Underway(w, cs, old(w.containers)) && w.failed == Noted(old(w.failed), ok, BringingUp)
    // Every ID learnt is recorded.
    ensures w.replied - old(w.replied) <= Ids(cs)
    ensures old(w.dirs) <= w.dirs <= old(w.dirs) + routers
    ensures Covered(cs, routers, ok) && (ok ==> PidsRecorded(w.containers, cs))
    ensures forall r :: r in cs ==> cs[r].configDir == w.configDir(r)
  {
    ghost var before := w.containers;
    cs, ok := map[], true;
    var todo := routers;
    while ok && todo != {}
      invariant todo <= routers && Covered(cs, routers - todo, ok)
      invariant ok ==> PidsRecorded(w.containers, cs)
      invariant w.replied - old(w.replied) <= Ids(cs)
      invariant Underway(w, cs, before) && w.failed == Noted(old(w.failed), ok, BringingUp)
      invariant old(w.dirs) <= w.dirs <= old(w.dirs) + routers
      invariant forall r :: r in cs ==> cs[r].configDir == w.configDir(r)
    {
      var router :| router in todo;
      OneLess(routers, todo, router);
      ghost var was := cs;
      ok, cs := StartRouter(w, router, cs, before);
      OneMoreRouter(was, cs, router, routers - todo, ok);
      todo := todo - {router};
    }
  }

  // ---------------------------------------------------------------------------
  // Bringing a lab up.

  ghost predicate AllAttached(namer: Namer, v: Wires, t: Topology, cs: Running) {
    forall l :: l in t.links ==> LinkShape(cs, l) && Attached(namer, v, cs, l)
  }

  /** Everything the topology asks for is there, and the snapshot says where. */
  ghost predicate Standing(lab: string, namer: Namer, configDir: string -> string, digest: string, t: Topology, s: LabState,
                           containers: map<string, Container>, v: Wires)
  {
    && s.containers.Some?
    && var cs := s.containers.value;
       && s == Snapshot(lab, digest, cs, Inventory(namer, t.links))
       && cs.Keys == t.routers.Keys
       && Started(lab, containers, cs, map[]) && PidsRecorded(containers, cs)
       && (forall r :: r in cs ==> cs[r].configDir == configDir(r))
       && AllAttached(namer, v, t, cs)
  }

  ghost predicate Complete(w: Host, t: Topology, s: LabState)
    reads w`containers, w`host, w`masters, w`moved
  {
    Standing(w.lab, w.namer, w.configDir, w.digestOf(t), t, s, w.containers, WiresOf(w))
  }

  /** What creation, finished or not, has added to the machine, and how far the snapshot covers it. */
  ghost predicate Raised(w: Host, t: Topology, s: LabState, before: Scene)
    reads w`containers, w`host, w`masters, w`made
  {
    && Ready(w) && Added(w.lab, w.containers, before.containers)
    && Usable(w.namer, w.lab, s) && s.digest == w.digestOf(t)
    && Recorded(s) <= w.containers.Keys - before.containers.Keys
    && Grown(before.host, w.host, DoomedNames(w.namer, t, Some(s)), w.containers.Keys - before.containers.Keys)
    && before.made <= w.made <= before.made + OwnedNames(s)
  }

  /** Routers, then links. */
  method Raise(w: Host, t: Topology) returns (ok: bool, cs: Running, owned: map<string, string>)
    requires w.Valid() && Plain(t, w.lab)
    modifies w`containers, w`dirs, w`replied, w`host, w`masters, w`moved, w`made, w`failed
    ensures Underway(w, cs, old(w.containers)) && w.failed == Noted(old(w.failed), ok, BringingUp)
    ensures w.replied - old(w.replied) <= Ids(cs)
    ensures ListedSoFar(w.namer, t.links, owned)
    ensures Grown(old(w.host), w.host, AllEndNames(w.namer, t.links) + owned.Values, Ids(cs))
    ensures old(w.made) <= w.made <= old(w.made) + owned.Values
    ensures forall r :: r in cs ==> cs[r].configDir == w.configDir(r)
    ensures ok ==> PidsRecorded(w.containers, cs)
    ensures ok ==> cs.Keys == t.routers.Keys && owned == Inventory(w.namer, t.links)
    ensures ok ==> AllAttached(w.namer, WiresOf(w), t, cs)
  {
    ok, cs := StartRouters(w, t.routers.Keys);
    owned := map[];
    assert owned == Inventory(w.namer, t.links[..0]);
    if ok {
      forall i | 0 <= i < |t.links| ensures LinkShape(cs, t.links[i]) {
        assert PlainLink(t.routers.Keys, t.links[i]);
      }
      ok, owned := ConfigureLinks(w, t.links, cs);
    }
  }

  lemma RaisedByParts(w: Host, t: Topology, cs: Running, owned: map<string, string>, before: Scene)
    requires Plain(t, w.lab) && Ready(w) && Underway(w, cs, before.containers)
    requires ListedSoFar(w.namer, t.links, owned)
    requires Grown(before.host, w.host, AllEndNames(w.namer, t.links) + owned.Values, Ids(cs))
    requires before.made <= w.made <= before.made + owned.Values
    ensures Raised(w, t, Snapshot(w.lab, w.digestOf(t), cs, owned), before)
  {
    var s := Snapshot(w.lab, w.digestOf(t), cs, owned);
    SnapshotIsUsable(w.namer, t, w.lab, w.digestOf(t), cs, owned);
    assert OwnedNames(s) == owned.Values && Recorded(s) == Ids(cs);
    var names := AllEndNames(w.namer, t.links) + owned.Values;
    GrownAgain(before.host, w.host, w.host, names, {}, Ids(cs), {}, names, w.containers.Keys - before.containers.Keys);
  }

  lemma CompleteByParts(w: Host, t: Topology, cs: Running, before: Scene)
    requires Started(w.lab, w.containers, cs, before.containers) && PidsRecorded(w.containers, cs) && cs.Keys == t.routers.Keys
    requires forall r :: r in cs ==> cs[r].configDir == w.configDir(r)
    requires AllAttached(w.namer, WiresOf(w), t, cs)
    ensures Complete(w, t, Snapshot(w.lab, w.digestOf(t), cs, Inventory(w.namer, t.links)))
  {
    assert Started(w.lab, w.containers, cs, map[]);
  }

  /** Routers and links, and the snapshot of them. */
  method Build(w: Host, t: Topology) returns (ok: bool, s: LabState)
    requires Ready(w) && Plain(t, w.lab)
    modifies w`containers, w`dirs, w`replied, w`host, w`masters, w`moved, w`made, w`failed
    ensures Raised(w, t, s, old(w.Now())) && (ok ==> Complete(w, t, s))
    ensures w.replied - old(w.replied) <= Recorded(s)
    ensures OwnedNames(s) <= Inventory(w.namer, t.links).Values
    ensures w.failed == Noted(old(w.failed), ok, BringingUp)
  {
    ghost var before := w.Now();
    var cs, owned;
    ok, cs, owned := Raise(w, t);
    s := Snapshot(w.lab, w.digestOf(t), cs, owned);
    RaisedByParts(w, t, cs, owned, before);
    RecordedAreListed(w.namer, t.links, owned);
    if ok {
      CompleteByParts(w, t, cs, before);
    }
  }

  /** What is left to do inside the routers, then the state file. */
  method Finish(w: Host, s: LabState) returns (ok: bool)
    modifies w`file, w`failed
    ensures w.failed == Noted(old(w.failed), ok, BringingUp)
    ensures w.file == if ok then Saved(s) else old(w.file)
    ensures ok && s.owned.Some? && w.made <= OwnedNames(s) ==> Accounted(w)
  {
    ok := w.WorkInside();
    if ok {
      ok := w.WriteState(s, BringingUp);
    }
  }

  /** Everything `up` does between taking responsibility and returning. */
  method Bring(w: Host, t: Topology) returns (ok: bool, s: LabState)
    requires Ready(w) && Plain(t, w.lab)
    modifies w
    ensures Raised(w, t, s, old(w.Now()))
    ensures w.replied - old(w.replied) <= Recorded(s)
    ensures OwnedNames(s) <= Inventory(w.namer, t.links).Values
    ensures !ok ==> w.file == old(w.file)
    ensures ok ==> w.file == Saved(s) && Complete(w, t, s)
    ensures ok && old(w.made) == {} ==> Accounted(w)
    ensures w.failed == Noted(old(w.failed), ok, BringingUp)
  {
    ok, s := Build(w, t);
    if ok {
      ok := Finish(w, s);
    }
  }

  // ---------------------------------------------------------------------------
  // Which bridges are accounted for.

  /** The bridges a snapshot answers for: its inventory, or in an old snapshot that of the topology it was made from. */
  ghost predicate AnswersFor(namer: Namer, lab: string, digestOf: Topology -> string, s: LabState, made: set<string>) {
    match s.owned
    case Some(owned) => made <= owned.Values
    case None => forall t: Topology :: t.lab == lab && digestOf(t) == s.digest ==> made <= Inventory(namer, t.links).Values
  }

  /** Every bridge the program created that still exists is in the state file.  A file that does not read is never acted on. */
  ghost predicate Accounted(w: Host)
    reads w`file, w`made
  {
    match w.file
    case NoFile => w.made == {}
    case Unreadable => true
    case Saved(s) => Validates(w.namer.bridge, s, w.lab) ==> AnswersFor(w.namer, w.lab, w.digestOf, s, w.made)
  }

  /** Losing bridges never unsettles the account. */
  lemma FewerBridgesToAnswerFor(namer: Namer, lab: string, digestOf: Topology -> string, s: LabState, made: set<string>, fewer: set<string>)
    requires AnswersFor(namer, lab, digestOf, s, made) && fewer <= made
    ensures AnswersFor(namer, lab, digestOf, s, fewer)
  {
  }

  /** A removal without fault leaves no bridge that was accounted for. */
  lemma SweptBridges(host: Links, after: Links, ids: set<string>, names: set<string>, made: set<string>)
    requires after == Clear(host, ids, names) && made <= names
    ensures made * after.Keys == {}
  {
  }

  // ---------------------------------------------------------------------------
  // Down.

  /** `down`, and the first half of `up --recreate`. */
  method Down(w: Host, t: Topology, purge: bool) returns (r: Outcome, faults: Faults, ghost s: Option<LabState>)
    requires Ready(w)
    modifies w`containers, w`host, w`masters, w`made, w`file, w`dirs, w`failed
    ensures Ready(w) && (old(Accounted(w)) ==> Accounted(w))
    ensures r.Refused? ==> Untouched(w, old(w.Now()), old(w.file), old(w.dirs))
    ensures !r.Refused? ==> GoesBy(w.namer, w.lab, None, old(w.file), s)
    ensures !r.Refused? ==> Sweeping(w, old(w.Now()), DoomedIds(s, old(w.Labelled())), DoomedNames(w.namer, t, s))
    ensures r.Incomplete? || r.StateStays? ==> w.file == old(w.file) && w.dirs == old(w.dirs)
    ensures r.Cleaned? || r.PurgeFailed? ==> w.file.NoFile? && w.Labelled() == {}
    ensures (r.Cleaned? || r.PurgeFailed? || r.StateStays?) ==>
              && w.containers == old(w.containers) - DoomedIds(s, old(w.Labelled()))
              && w.host == Clear(old(w.host), DoomedIds(s, old(w.Labelled())), DoomedNames(w.namer, t, s))
    ensures (r.Cleaned? || r.PurgeFailed?) && old(Accounted(w)) ==> w.made == {}
    ensures r.Cleaned? && purge ==> w.dirs == {}
    ensures !purge ==> w.dirs == old(w.dirs) && !r.PurgeFailed?
    ensures old(w.failed) <= w.failed
    ensures r.Cleaned? <==> w.failed == old(w.failed) && CanBegin(w.namer, w.lab, None, old(w.file), old(w.Labelled()))
  {
    ghost var made, host, labelled := w.made, w.host, w.Labelled();
    r, faults, s := CleanupRuntime(w, t, None, purge);
    if old(Accounted(w)) && w.file == old(w.file) && w.file.Saved? && Validates(w.namer.bridge, w.file.state, w.lab) {
      FewerBridgesToAnswerFor(w.namer, w.lab, w.digestOf, w.file.state, made, w.made);
    }
    if old(Accounted(w)) && (r.Cleaned? || r.PurgeFailed?) {
      SweptBridges(host, w.host, DoomedIds(s, labelled), DoomedNames(w.namer, t, s), made);
    }
  }

  // ---------------------------------------------------------------------------
  // Up.

  datatype UpResult =
    | Completed
    | Declined              // before creation began
    | RolledBack            // failed, and nothing of it is left
    | Stranded(saved: bool) // failed, and so did its rollback; whether the inventory could be saved

  /** Any state file, readable or not, and any labelled container. */
  method RuntimeExists(w: Host) returns (known: bool, found: bool)
    modifies w`failed
    ensures known ==> (found <==> !w.file.NoFile? || w.Labelled() != {})
    ensures known ==> w.failed == old(w.failed)
    ensures !known ==> w.failed == Noted(old(w.failed), false, ReadingState) || w.failed == Noted(old(w.failed), false, Listing)
  {
    var there := w.StatState();
    if there.None? {
      return false, false;
    }
    if there.value {
      return true, true;
    }
    var labelled := w.ListContainers();
    return labelled.Some?, labelled.Some? && labelled.value != {};
  }

  /** What a clean rollback leaves: the machine as it was, short of links that bore the lab's names, and no state. */
  ghost predicate Undone(w: Host, t: Topology, s: LabState, before: Scene)
    reads w`containers, w`host, w`file
  {
    && w.file.NoFile? && w.Labelled() == {}
    && w.containers == before.containers
    && w.host == Clear(before.host, {}, DoomedNames(w.namer, t, Some(s)))
  }

  /** The ground creation starts on: nothing of the lab is there. */
  ghost predicate Ground(lab: string, before: Scene) {
    && Paired(before.host, before.containers.Keys) && before.made == {}
    && (forall id :: id in before.containers ==> before.containers[id].lab != Some(lab))
  }

  /** Removing what a failed creation recorded and labelled, and the lab's names, undoes all of it. */
  lemma UndoneBySweep(namer: Namer, t: Topology, s: LabState, lab: string, before: Scene,
                      host: Links, containers: map<string, Container>, labelled: set<string>)
    requires Ground(lab, before) && Added(lab, containers, before.containers)
    requires forall id :: id in labelled <==> id in containers && containers[id].lab == Some(lab)
    requires Recorded(s) <= containers.Keys - before.containers.Keys
    requires Grown(before.host, host, DoomedNames(namer, t, Some(s)), containers.Keys - before.containers.Keys)
    ensures containers - DoomedIds(Some(s), labelled) == before.containers
    ensures Clear(host, DoomedIds(Some(s), labelled), DoomedNames(namer, t, Some(s)))
            == Clear(before.host, {}, DoomedNames(namer, t, Some(s)))
  {
    var doomed := DoomedIds(Some(s), labelled);
    ClearUndoesGrowth(before.host, host, before.containers.Keys, containers.Keys - before.containers.Keys,
                      DoomedNames(namer, t, Some(s)), doomed);
    assert forall id :: id in containers - doomed <==> id in before.containers;
  }

  /**
   * Every container creation added, and every link of a doomed name, is gone or had its own
   * removal fail; only a container whose ID was never learnt may owe its stay to the listing.
   */
  ghost predicate LeftForCause(w: Host, t: Topology, s: LabState, before: Scene, was: multiset<Fault>)
    reads w`containers, w`host, w`masters, w`made, w`failed
  {
    ForCause(w.Now(), Recorded(s), DoomedNames(w.namer, t, Some(s)), before, was, w.failed)
  }

  ghost predicate ForCause(now: Scene, recorded: set<string>, names: set<string>, before: Scene, was: multiset<Fault>,
                           failed: multiset<Fault>)
  {
    && GoneOrFailed(now, recorded, names, was, failed)
    && (forall id :: id in now.containers && id !in before.containers ==>
          was[Removing(id)] < failed[Removing(id)] || was[Listing] < failed[Listing])
  }

  lemma SweptForCause(lab: string, now: Scene, recorded: set<string>, names: set<string>, before: Scene, start: Scene,
                      labelled: set<string>, faults: Faults, was: multiset<Fault>, failed: multiset<Fault>)
    requires Left(now, (if faults.listing then {} else labelled) + recorded, names, faults) && Happened(was, failed, faults)
    requires Added(lab, start.containers, before.containers) && Part(now.containers, start.containers)
    requires forall id :: id in labelled <==> id in start.containers && start.containers[id].lab == Some(lab)
    ensures ForCause(now, recorded, names, before, was, failed)
  {
    LeftIsGoneOrFailed(now, (if faults.listing then {} else labelled) + recorded, names, faults, was, failed);
  }

  /** One failure more, of anything but a removal, and earlier ones of other kinds, make no difference. */
  lemma StillForCause(now: Scene, recorded: set<string>, names: set<string>, before: Scene, was: multiset<Fault>, failed: multiset<Fault>,
                      fault: Fault, ok: bool)
    requires ForCause(now, recorded, names, before, was, failed)
    ensures ForCause(now, recorded, names, before, was, Noted(failed, ok, fault))
  {
  }

  /** What was there before creation is there still, short of links that bore the lab's names. */
  ghost predicate Kept(before: Scene, now: Scene, names: set<string>) {
    Part(before.containers, now.containers) && Part(Clear(before.host, {}, names), now.host)
  }

  /** The removal half of a rollback. */
  method Undo(w: Host, t: Topology, s: LabState, ghost before: Scene) returns (clean: bool)
    requires Raised(w, t, s, before) && w.file.NoFile? && Ground(w.lab, before)
    modifies w`containers, w`host, w`masters, w`made, w`file, w`dirs, w`failed
    ensures Ready(w) && w.file.NoFile? && w.made <= OwnedNames(s)
    ensures clean ==> Undone(w, t, s, before) && w.made == {}
    ensures Kept(before, w.Now(), DoomedNames(w.namer, t, Some(s)))
    ensures old(w.failed) <= w.failed && (clean <==> w.failed == old(w.failed))
    ensures LeftForCause(w, t, s, before, old(w.failed))
  {
    ghost var host, containers, labelled := w.host, w.containers, w.Labelled();
    ghost var ids, names := DoomedIds(Some(s), labelled), DoomedNames(w.namer, t, Some(s));
    UndoneBySweep(w.namer, t, s, w.lab, before, host, containers, labelled);
    SweptBridges(host, Clear(host, ids, names), ids, names, w.made);
    ghost var went;
    var outcome, faults;
    outcome, faults, went := CleanupRuntime(w, t, Some(s), false);
    clean := outcome.Cleaned?;
    SweptForCause(w.lab, w.Now(), Recorded(s), names, before, old(w.Now()), labelled, faults, old(w.failed), w.failed);
  }

  /** The inventory of what a rollback could not remove. */
  method SaveInventory(w: Host, t: Topology, s: LabState, ghost before: Scene, ghost was: multiset<Fault>) returns (saved: bool)
    requires s.owned.Some? && w.made <= OwnedNames(s) && LeftForCause(w, t, s, before, was)
    modifies w`file, w`failed
    ensures LeftForCause(w, t, s, before, was)
    ensures w.file == if saved then Saved(s) else old(w.file)
    ensures w.failed == Noted(old(w.failed), saved, SavingState)
    ensures saved ==> Accounted(w)
  {
    ghost var failed := w.failed;
    saved := w.WriteState(s, SavingState);
    StillForCause(w.Now(), Recorded(s), DoomedNames(w.namer, t, Some(s)), before, was, failed, SavingState, saved);
  }

  /** The deferred half of a failed `up`. */
  method RollBack(w: Host, t: Topology, s: LabState, ghost before: Scene) returns (r: UpResult)
    requires Raised(w, t, s, before) && w.file.NoFile? && Ground(w.lab, before)
    modifies w`containers, w`host, w`masters, w`made, w`file, w`dirs, w`failed
    ensures Ready(w) && (r.RolledBack? || r.Stranded?)
    ensures r.RolledBack? ==> Undone(w, t, s, before) && w.made == {}
    // A failed rollback has removed only what creation added, and keeps the inventory if it can.
    ensures r == Stranded(true) ==> w.file == Saved(s)
    ensures r == Stranded(false) ==> w.file.NoFile?
    ensures r != Stranded(false) ==> Accounted(w)
    ensures w.made <= OwnedNames(s)
    ensures Kept(before, w.Now(), DoomedNames(w.namer, t, Some(s)))
    // It is clean exactly if none of its operations failed, and whatever is left has failed to go.
    ensures old(w.failed) <= w.failed && (r.RolledBack? <==> w.failed == old(w.failed))
    ensures LeftForCause(w, t, s, before, old(w.failed))
    ensures r == Stranded(false) ==> old(w.failed)[SavingState] < w.failed[SavingState]
  {
    var clean := Undo(w, t, s, before);
    if clean {
      return RolledBack;
    }
    var saved := SaveInventory(w, t, s, before, old(w.failed));
    r := Stranded(saved);
  }

  /** Nothing but a failing operation can keep creation from beginning. */
  predicate MayBegin(namer: Namer, lab: string, recreate: bool, file: StateFile, labelled: set<string>) {
    if recreate then CanBegin(namer, lab, None, file, labelled) else file.NoFile? && labelled == {}
  }

  /** With `--recreate` by a removal, else only by looking. */
  method ClearAway(w: Host, t: Topology, recreate: bool) returns (clear: bool)
    requires Ready(w) && Accounted(w)
    modifies w`containers, w`host, w`masters, w`made, w`file, w`dirs, w`failed
    ensures Ready(w) && Accounted(w)
    ensures Part(w.containers, old(w.containers)) && Part(w.host, old(w.host))
    ensures !recreate ==> Untouched(w, old(w.Now()), old(w.file), old(w.dirs))
    ensures clear ==> w.file.NoFile? && w.Labelled() == {}
    ensures old(w.failed) <= w.failed
    ensures clear <==> w.failed == old(w.failed) && MayBegin(w.namer, w.lab, recreate, old(w.file), old(w.Labelled()))
  {
    if recreate {
      ghost var went;
      var outcome, faults;
      outcome, faults, went := Down(w, t, false);
      clear := outcome.Cleaned?;
    } else {
      var known, found := RuntimeExists(w);
      clear := known && !found;
    }
  }

  lemma NothingLabelled(w: Host)
    requires w.Valid() && w.Labelled() == {} && w.made == {}
    ensures Ground(w.lab, w.Now())
  {
    assert forall id :: id in w.containers ==> id !in w.Labelled();
  }

  /** Clears the ground: nothing of the lab may be left before creation begins. */
  method MakeWay(w: Host, t: Topology, recreate: bool) returns (clear: bool)
    requires Ready(w) && Accounted(w)
    modifies w`containers, w`host, w`masters, w`made, w`file, w`dirs, w`failed
    ensures Ready(w) && Accounted(w)
    ensures Part(w.containers, old(w.containers)) && Part(w.host, old(w.host))
    ensures !recreate ==> Untouched(w, old(w.Now()), old(w.file), old(w.dirs))
    ensures clear ==> w.file.NoFile? && w.Labelled() == {} && Ground(w.lab, w.Now())
    ensures old(w.failed) <= w.failed
    ensures clear <==> w.failed == old(w.failed) && MayBegin(w.namer, w.lab, recreate, old(w.file), old(w.Labelled()))
  {
    clear := ClearAway(w, t, recreate);
    if clear {
      NothingLabelled(w);
      clear := w.WorkInside();
    }
  }

  /** From clear ground: creation, and its rollback if it fails. */
  method BringOrRollBack(w: Host, t: Topology) returns (r: UpResult, s: LabState)
    requires Ready(w) && Plain(t, w.lab) && w.file.NoFile? && Ground(w.lab, w.Now())
    modifies w
    ensures Ready(w) && !r.Declined?
    ensures r != Stranded(false) ==> Accounted(w)
    ensures OwnedNames(s) <= Inventory(w.namer, t.links).Values
    ensures r.Completed? ==> w.file == Saved(s) && Complete(w, t, s) && Raised(w, t, s, old(w.Now()))
    ensures r.RolledBack? ==> Undone(w, t, s, old(w.Now())) && w.made == {}
    ensures r == Stranded(true) ==> w.file == Saved(s) && Usable(w.namer, w.lab, s)
    ensures r == Stranded(false) ==> w.file.NoFile?
    ensures r.Stranded? ==> w.made <= OwnedNames(s) && w.replied - old(w.replied) <= Recorded(s)
    ensures r.Completed? <==> w.failed == old(w.failed)
    ensures r.RolledBack? <==> w.failed == Noted(old(w.failed), false, BringingUp)
    ensures old(w.failed) <= w.failed
    ensures r.Stranded? ==> LeftForCause(w, t, s, old(w.Now()), old(w.failed))
    ensures r == Stranded(false) ==> old(w.failed)[SavingState] < w.failed[SavingState]
  {
    ghost var before := w.Now();
    var ok;
    ok, s := Bring(w, t);
    if ok {
      return Completed, s;
    }
    ghost var failed := w.failed;
    r := RollBack(w, t, s, before);
    CauseFromStart(w.Now(), Recorded(s), DoomedNames(w.namer, t, Some(s)), before, old(w.failed), failed, w.failed);
  }

  /** What failed since the rollback began failed since creation began. */
  lemma CauseFromStart(now: Scene, recorded: set<string>, names: set<string>, before: Scene, start: multiset<Fault>,
                       was: multiset<Fault>, failed: multiset<Fault>)
    requires ForCause(now, recorded, names, before, was, failed) && start <= was
    ensures ForCause(now, recorded, names, before, start, failed)
  {
  }

  method Up(w: Host, t: Topology, recreate: bool) returns (r: UpResult, s: LabState, ghost before: Scene)
    requires Ready(w) && Plain(t, w.lab) && Accounted(w)
    modifies w
    ensures Ready(w)
    ensures r != Stranded(false) ==> Accounted(w)
    // The one way bridges escape the account: only bridges of this topology, and only if some are left.
    ensures r == Stranded(false) ==> w.file.NoFile? && w.made <= Inventory(w.namer, t.links).Values
    ensures r == Stranded(false) ==> (Accounted(w) <==> w.made == {})
    ensures Part(before.containers, old(w.containers)) && Part(before.host, old(w.host))
    ensures r.Declined? ==> w.Now() == before
    // Without --recreate an existing lab is not touched, and creation begins from the machine as it is.
    ensures !recreate ==> before == old(w.Now())
    ensures !recreate && (!old(w.file).NoFile? || old(w.Labelled()) != {}) ==> r.Declined?
    ensures r.Declined? && !recreate ==> Untouched(w, old(w.Now()), old(w.file), old(w.dirs))
    ensures r.Completed? ==> w.file == Saved(s) && Complete(w, t, s) && Raised(w, t, s, before)
    ensures r.RolledBack? ==> Undone(w, t, s, before) && w.made == {}
    ensures r == Stranded(true) ==> w.file == Saved(s) && Usable(w.namer, w.lab, s)
    ensures r.Stranded? ==> w.made <= OwnedNames(s)
    ensures r.Stranded? ==> w.replied - old(w.replied) <= Recorded(s)
    // It completes exactly if it may begin and nothing fails; it rolls back exactly if one step of creation is all that fails.
    ensures old(w.failed) <= w.failed
    ensures r.Completed? <==> w.failed == old(w.failed) && MayBegin(w.namer, w.lab, recreate, old(w.file), old(w.Labelled()))
    ensures r.RolledBack? || r.Stranded? ==> (r.RolledBack? <==> w.failed == Noted(old(w.failed), false, BringingUp))
    ensures r.Stranded? ==> LeftForCause(w, t, s, before, old(w.failed))
    ensures r == Stranded(false) ==> old(w.failed)[SavingState] < w.failed[SavingState]
  {
    s := Snapshot(w.lab, w.digestOf(t), map[], map[]);
    var ok := MakeWay(w, t, recreate);
    before := w.Now();
    if !ok {
      return Declined, s, before;
    }
    r, s := BringOrRollBack(w, t);
  }

  // ---------------------------------------------------------------------------
  // Migration.

  /** `MigrateState` on what the state file holds. */
  function Migrated(namer: Namer, lab: string, digestOf: Topology -> string, s: LabState, t: Topology): Option<LabState> {
    if Validates(namer.bridge, s, lab) && s.digest == digestOf(t) && s.owned.None?
    then Some(s.(owned := Some(Inventory(namer, t.links))))
    else None
  }

  method MigrateState(w: Host, t: Topology) returns (ok: bool)
    requires Ready(w) && Plain(t, w.lab)
    modifies w`file, w`failed
    ensures ok <==> w.failed == old(w.failed) && old(w.file).Saved?
                    && Migrated(w.namer, w.lab, w.digestOf, old(w.file).state, t).Some?
    ensures !ok ==> w.file == old(w.file)
    ensures ok ==> old(w.file).Saved? && Migrated(w.namer, w.lab, w.digestOf, old(w.file).state, t).Some?
                   && w.file == Saved(Migrated(w.namer, w.lab, w.digestOf, old(w.file).state, t).value)
    ensures old(Accounted(w)) ==> Accounted(w)
  {
    var read := w.ReadState();
    if read.None? || !read.value.Saved? {
      return false;
    }
    var migrated := Migrated(w.namer, w.lab, w.digestOf, read.value.state, t);
    if migrated.None? {
      return false;
    }
    ok := w.WriteState(migrated.value, SavingState);
  }

  /** A release that kept no inventory would have written this. */
  function WithoutInventory(s: LabState): LabState {
    s.(owned := None)
  }

  /**
   * Migration gives a complete snapshot back exactly, from the topology it was made of,
   * refuses any topology with another digest, and refuses a second time.
   */
  lemma MigrationRestores(w: Host, t: Topology, s: LabState, t': Topology)
    requires Ready(w) && Plain(t, w.lab) && Complete(w, t, s)
    requires w.digestOf(t') == w.digestOf(t) ==> t' == t
    ensures Migrated(w.namer, w.lab, w.digestOf, WithoutInventory(s), t') == if t' == t then Some(s) else None
    ensures Migrated(w.namer, w.lab, w.digestOf, s, t').None?
  {
    assert Validates(w.namer.bridge, WithoutInventory(s), w.lab);
  }

  // ---------------------------------------------------------------------------
  // Runs.

  lemma RetryReaches(c0: map<string, Container>, c: map<string, Container>, recorded: set<string>,
                     labelled0: set<string>, labelled: set<string>, lab: string)
    requires Part(c, c0) && Part(c0 - (recorded + labelled0), c)
    requires forall id :: id in labelled0 <==> id in c0 && c0[id].lab == Some(lab)
    requires forall id :: id in labelled <==> id in c && c[id].lab == Some(lab)
    ensures c - (labelled + recorded) == c0 - (recorded + labelled0)
  {
    var a, b := c - (labelled + recorded), c0 - (recorded + labelled0);
    assert forall id :: id in a <==> id in b;
    assert forall id :: id in a ==> a[id] == b[id];
  }

  /**
   * Passes over a failing machine, each with whatever the topology has become: none adds
   * anything, none loses the inventory, and the first to meet no fault finishes the job,
   * containers and recorded bridges alike, as if it had been the only one.
   */
  method Retry(w: Host, passes: seq<Topology>) returns (cleaned: bool)
    requires Ready(w) && w.file.Saved? && Usable(w.namer, w.lab, w.file.state)
    modifies w`containers, w`host, w`masters, w`made, w`file, w`dirs, w`failed
    ensures Ready(w)
    ensures Part(w.containers, old(w.containers)) && Part(w.host, old(w.host))
    ensures Part(old(w.containers) - (Recorded(old(w.file).state) + old(w.Labelled())), w.containers)
    ensures !cleaned ==> w.file == old(w.file) && w.dirs == old(w.dirs)
    ensures cleaned ==> w.file.NoFile?
    ensures cleaned ==> w.containers == old(w.containers) - (Recorded(old(w.file).state) + old(w.Labelled()))
    ensures cleaned ==> forall n :: n in OwnedNames(old(w.file).state) ==> n !in w.host
    // No pass fails to finish but for a failure of its own.
    ensures !cleaned ==> |w.failed| >= |old(w.failed)| + |passes|
  {
    ghost var c0, h0, labelled0 := w.containers, w.host, w.Labelled();
    ghost var state := w.file.state;
    cleaned := false;
    for i := 0 to |passes|
      invariant Ready(w)
      invariant w.file == old(w.file) && w.dirs == old(w.dirs) && !cleaned
      invariant Part(w.containers, c0) && Part(w.host, h0)
      invariant Part(c0 - (Recorded(state) + labelled0), w.containers)
      invariant |w.failed| >= |old(w.failed)| + i
    {
      ghost var failed := w.failed;
      ghost var c, labelled := w.containers, w.Labelled();
      var r, faults;
      ghost var went;
      r, faults, went := Down(w, passes[i], false);
      if r.Cleaned? {
        RetryReaches(c0, c, Recorded(state), labelled0, labelled, w.lab);
        assert forall n :: n in OwnedNames(state) ==> n in DoomedNames(w.namer, passes[i], went);
        return true;
      }
      MoreFailed(failed, w.failed);
    }
  }

  lemma MoreFailed(was: multiset<Fault>, now: multiset<Fault>)
    requires was <= now && was != now
    ensures |was| < |now|
  {
    assert now == was + (now - was);
  }

  /** Anyone else, between two commands: anything but the lab's own files. */
  method Meanwhile(w: Host)
    requires Ready(w)
    modifies w`containers, w`host, w`masters, w`made
    ensures Ready(w) && w.made <= old(w.made)
  {
    var containers: map<string, Container> := *;
    var host: Links := *;
    if Paired(host, containers.Keys) && PidsDistinct(containers) {
      w.containers, w.host, w.masters := containers, host, map[];
      w.made := w.made * host.Keys;
    }
  }

  lemma MeanwhileKeepsAccount(w: Host, made: set<string>)
    requires w.file.Saved? ==> Validates(w.namer.bridge, w.file.state, w.lab) ==> AnswersFor(w.namer, w.lab, w.digestOf, w.file.state, made)
    requires w.file.NoFile? ==> made == {}
    requires w.made <= made
    ensures Accounted(w)
  {
    if w.file.Saved? && Validates(w.namer.bridge, w.file.state, w.lab) {
      FewerBridgesToAnswerFor(w.namer, w.lab, w.digestOf, w.file.state, made, w.made);
    }
  }

  datatype Command = UpWith(t: Topology, recreate: bool) | DownWith(t: Topology, purge: bool) | MigrateWith(t: Topology)

  /**
   * Any commands with any topologies of the lab, over any failures, with anyone else at
   * work in between: every bridge the program created that still exists stays accounted
   * for, up to a rollback that fails and whose inventory cannot be saved either.
   */
  method Session(w: Host, commands: seq<Command>) returns (done: nat)
    requires Ready(w) && Accounted(w) && forall c :: c in commands ==> Plain(c.t, w.lab)
    modifies w
    ensures Ready(w) && done <= |commands|
    ensures done == |commands| ==> Accounted(w)
    // It stops early only behind such an `up`, and then only that topology's bridges can be unaccounted for.
    ensures done < |commands| ==> commands[done].UpWith? && w.file.NoFile? && w.made <= Inventory(w.namer, commands[done].t.links).Values
  {
    done := 0;
    while done < |commands|
      invariant Ready(w) && Accounted(w) && done <= |commands|
    {
      ghost var made := w.made;
      Meanwhile(w);
      MeanwhileKeepsAccount(w, made);
      match commands[done] {
        case UpWith(t, recreate) =>
          var r, s;
          ghost var before;
          r, s, before := Up(w, t, recreate);
          if r == Stranded(false) {
            return;
          }
        case DownWith(t, purge) =>
          var r, faults;
          ghost var s;
          r, faults, s := Down(w, t, purge);
        case MigrateWith(t) =>
          var _ := MigrateState(w, t);
      }
      done := done + 1;
    }
  }
}
