/**
 * The validator's promise for whole topologies, with the generated names as they
 * are really made.
 */
module TopologySoundness {
  import opened Strings
  import opened Names
  import opened Sequences
  import opened Topology
  import opened LinuxProgram
  import opened LinuxSoundness
  import Linux
  import LinuxAcceptance

  /** What the veth between a bridge and a namespace is hashed by. */
  function PairKey(p: (string, string)): string {
    p.0 + "/" + p.1
  }

  /** The names of namespace veths tell as much as their keys do, and which end is which. */
  ghost predicate Tells(gen: Generator, pairs: set<(string, string)>) {
    && (forall p, q {:trigger gen.host(p.0, p.1), gen.host(q.0, q.1)} :: p in pairs && q in pairs ==>
          (gen.host(p.0, p.1) == gen.host(q.0, q.1) <==> PairKey(p) == PairKey(q)))
    && (forall p, q {:trigger gen.peer(p.0, p.1), gen.peer(q.0, q.1)} :: p in pairs && q in pairs ==>
          (gen.peer(p.0, p.1) == gen.peer(q.0, q.1) <==> PairKey(p) == PairKey(q)))
    && (forall p, q {:trigger gen.host(p.0, p.1), gen.peer(q.0, q.1)} :: p in pairs && q in pairs ==>
          gen.host(p.0, p.1) != gen.peer(q.0, q.1))
  }

  /** The names in use. */
  function VethNames(hex: Digest): Generator {
    Generator((bridge, namespace) => LinkName(hex, NamespaceHost(bridge, namespace)),
              (bridge, namespace) => LinkName(hex, NamespacePeer(bridge, namespace)))
  }

  /** The keys hashed for some namespaces. */
  ghost function NamespaceKeys(pairs: set<(string, string)>): set<string> {
    (set p | p in pairs :: PairKey(p) + "/host") + (set p | p in pairs :: PairKey(p) + "/peer")
  }

  lemma SameTail(x: string, y: string, tail: string)
    ensures x + tail == y + tail <==> x == y
  {
    if x + tail == y + tail {
      DropTail(x, y, tail);
    }
  }

  lemma PairTells(hex: Digest, p: (string, string), q: (string, string), pairs: set<(string, string)>)
    requires NoCollision(hex, NamespaceKeys(pairs)) && p in pairs && q in pairs
    ensures ShortName(hex, "fnh", PairKey(p) + "/host") == ShortName(hex, "fnh", PairKey(q) + "/host") <==> PairKey(p) == PairKey(q)
    ensures ShortName(hex, "fnp", PairKey(p) + "/peer") == ShortName(hex, "fnp", PairKey(q) + "/peer") <==> PairKey(p) == PairKey(q)
    ensures ShortName(hex, "fnh", PairKey(p) + "/host") != ShortName(hex, "fnp", PairKey(q) + "/peer")
  {
    SameTail(PairKey(p), PairKey(q), "/host");
    SameTail(PairKey(p), PairKey(q), "/peer");
    ShortNamesTell(hex, "fnh", PairKey(p) + "/host", "fnh", PairKey(q) + "/host");
    ShortNamesTell(hex, "fnp", PairKey(p) + "/peer", "fnp", PairKey(q) + "/peer");
    ShortNamesTell(hex, "fnh", PairKey(p) + "/host", "fnp", PairKey(q) + "/peer");
    assert "fnh"[2] != "fnp"[2];
  }

  /** Short of a hash collision the names in use do tell. */
  lemma VethNamesTell(hex: Digest, pairs: set<(string, string)>)
    requires NoCollision(hex, NamespaceKeys(pairs))
    ensures Tells(VethNames(hex), pairs)
  {
    var gen := VethNames(hex);
    forall p, q | p in pairs && q in pairs
      ensures gen.host(p.0, p.1) == gen.host(q.0, q.1) <==> PairKey(p) == PairKey(q)
      ensures gen.peer(p.0, p.1) == gen.peer(q.0, q.1) <==> PairKey(p) == PairKey(q)
      ensures gen.host(p.0, p.1) != gen.peer(q.0, q.1)
    {
      PairTells(hex, p, q, pairs);
    }
  }

  /** No name of the user's looks generated for one of the section's namespaces. */
  ghost predicate NoClash(gen: Generator, pairs: set<(string, string)>, user: set<string>) {
    forall p {:trigger gen.host(p.0, p.1)} {:trigger gen.peer(p.0, p.1)} :: p in pairs ==>
      gen.host(p.0, p.1) !in user && gen.peer(p.0, p.1) !in user
  }

  /** No two of the section's namespaces make the same key of bridge and namespace. */
  ghost predicate Apart(pairs: set<(string, string)>) {
    forall p, q {:trigger PairKey(p), PairKey(q)} :: p in pairs && q in pairs && PairKey(p) == PairKey(q) ==> p == q
  }

  /** Slash-free bridge names are enough for that. */
  lemma SlashFreeBridgesApart(s: Linux.Section)
    requires forall b :: b in s.bridges ==> SLASH !in b.name
    ensures Apart(Pairs(s))
  {
    forall p, q | p in Pairs(s) && q in Pairs(s) && PairKey(p) == PairKey(q) ensures p == q {
      FirstSlash(p.0, p.1, q.0, q.1);
    }
  }

  /** Then the generated veth names are all distinct. */
  lemma GeneratedNamesAreFresh(gen: Generator, pairs: set<(string, string)>, user: set<string>)
    requires Tells(gen, pairs) && NoClash(gen, pairs, user) && Apart(pairs)
    ensures Fresh(gen, pairs, user)
  {
    forall p, q | p in pairs && q in pairs && gen.host(p.0, p.1) == gen.host(q.0, q.1) ensures p == q {
      assert PairKey(p) == PairKey(q);
    }
  }

  /** What loading a topology says of one router's section. */
  lemma LoadedSection(lib: Linux.Library, t: Topology, router: string)
    requires WellFormed(lib, t) && router in t.routers
    ensures LinksOk(lib, t.routers.Keys, t.links) && Linux.Accepted(lib, t.routers[router], IfNames(t.links, router))
  {
    LinuxAcceptance.AcceptedExactly(lib, t.routers[router], IfNames(t.links, router));
  }

  /** On a router of a topology that loads, dataplane setup never meets a taken name if the keys are apart ... */
  lemma LoadedTopologiesAreClean(lib: Linux.Library, t: Topology, router: string, gen: Generator)
    requires WellFormed(lib, t) && router in t.routers
    requires Tells(gen, Pairs(t.routers[router])) && Apart(Pairs(t.routers[router]))
    requires NoClash(gen, Pairs(t.routers[router]), UserNames(t.routers[router], IfNames(t.links, router)))
    ensures Clean(Net({"lo"} + IfNames(t.links, router), map[]), Program(gen, t.routers[router]))
  {
    var s := t.routers[router];
    LoadedSection(lib, t, router);
    LinkInterfacesAreTrimmed(lib, t.routers.Keys, t.links, router);
    GeneratedNamesAreFresh(gen, Pairs(s), UserNames(s, IfNames(t.links, router)));
    AcceptedSectionsAreClean(lib, s, IfNames(t.links, router), gen);
  }

  // ---------------------------------------------------------------------------
  // ... and otherwise always does.

  /** A name that never moves away is created once in a run that meets no taken name. */
  lemma {:induction false} CreatedOnce(net: Net, ops: seq<Op>, name: string, peer: string)
    requires Clean(net, ops) && forall op :: op in ops ==> !(op.MoveToSpace? && op.name == name)
    ensures multiset(ops)[CreatePair(name, peer)] <= if name in RunOps(net, ops).main then 1 else 0
    decreases |ops|
  {
    if ops != [] {
      var init, last := ops[..|ops| - 1], ops[|ops| - 1];
      assert ops == init + [last];
      CreatedOnce(net, init, name, peer);
    }
  }

  lemma FlatCountsLast<T, U>(f: T -> seq<U>, xs: seq<T>, u: U)
    requires xs != []
    ensures multiset(Flat(f, xs))[u] == multiset(Flat(f, xs[..|xs| - 1]))[u] + multiset(f(xs[|xs| - 1]))[u]
  {
    assert Flat(f, xs) == Flat(f, xs[..|xs| - 1]) + f(xs[|xs| - 1]);
  }

  /** An element of one part is an element of the whole ... */
  lemma {:induction false} FlatCountsOne<T, U>(f: T -> seq<U>, xs: seq<T>, i: nat, u: U)
    requires i < |xs|
    ensures multiset(Flat(f, xs))[u] >= multiset(f(xs[i]))[u]
    decreases |xs|
  {
    FlatCountsLast(f, xs, u);
    if i < |xs| - 1 {
      FlatCountsOne(f, xs[..|xs| - 1], i, u);
    }
  }

  /** ... and elements of two parts are two. */
  lemma {:induction false} FlatCountsTwo<T, U>(f: T -> seq<U>, xs: seq<T>, i: nat, j: nat, u: U)
    requires i < j < |xs|
    ensures multiset(Flat(f, xs))[u] >= multiset(f(xs[i]))[u] + multiset(f(xs[j]))[u]
    decreases |xs|
  {
    FlatCountsLast(f, xs, u);
    if j < |xs| - 1 {
      FlatCountsTwo(f, xs[..|xs| - 1], i, j, u);
    } else {
      FlatCountsOne(f, xs[..|xs| - 1], i, u);
    }
  }

  lemma FlatCountsBoth<T, U>(f: T -> seq<U>, xs: seq<T>, i: nat, j: nat, u: U)
    requires i < |xs| && j < |xs| && i != j
    ensures multiset(Flat(f, xs))[u] >= multiset(f(xs[i]))[u] + multiset(f(xs[j]))[u]
  {
    if i < j {
      FlatCountsTwo(f, xs, i, j, u);
    } else {
      FlatCountsTwo(f, xs, j, i, u);
    }
  }

  /** Steps for two different namespaces are two steps, even when they read the same. */
  lemma TwoCreations(gen: Generator, s: Linux.Section, p: (string, string), q: (string, string))
    requires p in Pairs(s) && q in Pairs(s) && p.1 != q.1
    requires gen.host(p.0, p.1) == gen.host(q.0, q.1) && gen.peer(p.0, p.1) == gen.peer(q.0, q.1)
    ensures multiset(Flat(BridgeOps(gen), s.bridges))[CreatePair(gen.host(p.0, p.1), gen.peer(p.0, p.1))] >= 2
  {
    var op := CreatePair(gen.host(p.0, p.1), gen.peer(p.0, p.1));
    var i, k := FindPair(s, p);
    var j, l := FindPair(s, q);
    NamespaceCreates(gen, s.bridges[i], k, op);
    NamespaceCreates(gen, s.bridges[j], l, op);
    if i == j {
      FlatCountsBoth(NamespaceOps(gen, s.bridges[i].name), s.bridges[i].namespaces, k, l, op);
      SpacesCount(gen, s.bridges[i], op);
      FlatCountsOne(BridgeOps(gen), s.bridges, i, op);
    } else {
      FlatCountsBoth(BridgeOps(gen), s.bridges, i, j, op);
    }
  }

  lemma FindPair(s: Linux.Section, p: (string, string)) returns (i: nat, k: nat)
    requires p in Pairs(s)
    ensures i < |s.bridges| && k < |s.bridges[i].namespaces|
    ensures s.bridges[i].name == p.0 && s.bridges[i].namespaces[k].name == p.1
  {
    var b, n :| b in s.bridges && n in b.namespaces && (b.name, n.name) == p;
    i :| 0 <= i < |s.bridges| && s.bridges[i] == b;
    k :| 0 <= k < |b.namespaces| && b.namespaces[k] == n;
  }

  /** A bridge's steps hold those of its namespaces. */
  lemma SpacesCount(gen: Generator, b: Linux.Bridge, op: Op)
    ensures multiset(BridgeOps(gen)(b))[op] >= multiset(Flat(NamespaceOps(gen, b.name), b.namespaces))[op]
  {
    var front := [Create(b.name)] + MasterOps(b.name, b.master) + Flat(PortOps(b.name), b.interfaces) + Flat(VXLANOps(b.name), b.vxlans);
    assert BridgeOps(gen)(b) == front + Flat(NamespaceOps(gen, b.name), b.namespaces);
  }

  lemma NamespaceCreates(gen: Generator, b: Linux.Bridge, k: nat, op: Op)
    requires k < |b.namespaces|
    requires op == CreatePair(gen.host(b.name, b.namespaces[k].name), gen.peer(b.name, b.namespaces[k].name))
    ensures multiset(NamespaceOps(gen, b.name)(b.namespaces[k]))[op] >= 1
    ensures multiset(BridgeOps(gen)(b))[op] >= 1
  {
    var f := NamespaceOps(gen, b.name);
    assert f(b.namespaces[k])[0] == op;
    FlatCountsOne(f, b.namespaces, k, op);
    SpacesCount(gen, b, op);
  }

  predicate Stays(name: string, op: Op) {
    !(op.MoveToSpace? && op.name == name)
  }

  lemma PortsStay(owner: string, ports: seq<string>, name: string)
    ensures forall op :: op in Flat(PortOps(owner), ports) ==> Stays(name, op)
  {
    FlatEach(PortOps(owner), ports, op => Stays(name, op));
  }

  lemma BondsStay(bonds: seq<Linux.Bond>, name: string)
    ensures forall op :: op in Flat(BondOps, bonds) ==> Stays(name, op)
    ensures forall op :: op in Flat(BondMasterOps, bonds) ==> Stays(name, op)
  {
    forall b, op | b in bonds && op in BondOps(b) ensures Stays(name, op) {
      PortsStay(b.name, b.interfaces, name);
    }
    FlatEach(BondOps, bonds, op => Stays(name, op));
    FlatEach(BondMasterOps, bonds, op => Stays(name, op));
  }

  lemma BridgeStays(gen: Generator, b: Linux.Bridge, name: string)
    requires forall n :: n in b.namespaces ==> gen.peer(b.name, n.name) != name
    ensures forall op :: op in BridgeOps(gen)(b) ==> Stays(name, op)
  {
    PortsStay(b.name, b.interfaces, name);
    FlatEach(VXLANOps(b.name), b.vxlans, op => Stays(name, op));
    FlatEach(NamespaceOps(gen, b.name), b.namespaces, op => Stays(name, op));
  }

  lemma BridgesStay(gen: Generator, bridges: seq<Linux.Bridge>, name: string)
    requires forall b, n :: b in bridges && n in b.namespaces ==> gen.peer(b.name, n.name) != name
    ensures forall op :: op in Flat(BridgeOps(gen), bridges) ==> Stays(name, op)
  {
    forall b | b in bridges ensures forall op :: op in BridgeOps(gen)(b) ==> Stays(name, op) {
      BridgeStays(gen, b, name);
    }
    FlatEach(BridgeOps(gen), bridges, op => Stays(name, op));
  }

  lemma VethsStay(veths: seq<Linux.Veth>, name: string)
    requires forall v :: v in veths ==> v.peer != name
    ensures forall op :: op in Flat(VethOps, veths) ==> Stays(name, op)
  {
    FlatEach(VethOps, veths, op => Stays(name, op));
  }

  /** Only peers move: the generated ones and the user's. */
  lemma HostEndsStay(gen: Generator, s: Linux.Section, name: string)
    requires forall b, n :: b in s.bridges && n in b.namespaces ==> gen.peer(b.name, n.name) != name
    requires forall v :: v in s.veths ==> v.peer != name
    ensures forall op :: op in Program(gen, s) ==> Stays(name, op)
  {
    FlatEach(VRFOps, s.vrfs, op => Stays(name, op));
    BondsStay(s.bonds, name);
    BridgesStay(gen, s.bridges, name);
    FlatEach(InterfaceOps, s.interfaces, op => Stays(name, op));
    VethsStay(s.veths, name);
    SixParts(Flat(VRFOps, s.vrfs), Flat(BondOps, s.bonds), Flat(BridgeOps(gen), s.bridges),
             Flat(BondMasterOps, s.bonds), Flat(InterfaceOps, s.interfaces), Flat(VethOps, s.veths));
  }

  /** A list of six parts has the elements of its parts, and at least as often as the third. */
  lemma SixParts(a: seq<Op>, b: seq<Op>, c: seq<Op>, d: seq<Op>, e: seq<Op>, f: seq<Op>)
    ensures forall op :: op in a + b + c + d + e + f ==> op in a || op in b || op in c || op in d || op in e || op in f
    ensures forall op :: multiset(a + b + c + d + e + f)[op] >= multiset(c)[op]
  {
  }

  /** Two namespaces that share a key share their veth's name, and the second creation finds it taken. */
  lemma SharedKeyCollides(gen: Generator, s: Linux.Section, p: (string, string), q: (string, string), net: Net)
    requires p in Pairs(s) && q in Pairs(s) && PairKey(p) == PairKey(q) && p != q && Tells(gen, Pairs(s))
    requires forall v :: v in s.veths ==> v.peer != gen.host(p.0, p.1)
    ensures !Clean(net, Program(gen, s))
  {
    var host, peer := gen.host(p.0, p.1), gen.peer(p.0, p.1);
    SameKeyOtherName(p, q);
    TwoCreations(gen, s, p, q);
    SixParts(Flat(VRFOps, s.vrfs), Flat(BondOps, s.bonds), Flat(BridgeOps(gen), s.bridges),
             Flat(BondMasterOps, s.bonds), Flat(InterfaceOps, s.interfaces), Flat(VethOps, s.veths));
    assert multiset(Program(gen, s))[CreatePair(host, peer)] >= 2;
    forall b, n | b in s.bridges && n in b.namespaces ensures gen.peer(b.name, n.name) != host {
      assert (b.name, n.name) in Pairs(s);
    }
    HostEndsStay(gen, s, host);
    CreatedAtMostOnce(net, Program(gen, s), host, peer);
  }

  lemma SameKeyOtherName(p: (string, string), q: (string, string))
    requires PairKey(p) == PairKey(q) && p != q
    ensures p.1 != q.1
  {
    if p.1 == q.1 {
      assert p.0 + "/" + p.1 == p.0 + ("/" + p.1) && q.0 + "/" + q.1 == q.0 + ("/" + q.1);
      DropTail(p.0, q.0, "/" + p.1);
    }
  }

  lemma CreatedAtMostOnce(net: Net, ops: seq<Op>, name: string, peer: string)
    requires forall op :: op in ops ==> Stays(name, op)
    requires multiset(ops)[CreatePair(name, peer)] >= 2
    ensures !Clean(net, ops)
  {
    if Clean(net, ops) {
      CreatedOnce(net, ops, name, peer);
    }
  }

  lemma PeersAreUserNames(s: Linux.Section, linkDevices: set<string>)
    ensures forall v :: v in s.veths ==> v.peer in UserNames(s, linkDevices)
  {
  }

  /** ... and meets one exactly when two of the router's namespaces share a key. */
  lemma CleanExactlyWhenApart(lib: Linux.Library, t: Topology, router: string, gen: Generator)
    requires WellFormed(lib, t) && router in t.routers
    requires Tells(gen, Pairs(t.routers[router]))
    requires NoClash(gen, Pairs(t.routers[router]), UserNames(t.routers[router], IfNames(t.links, router)))
    ensures Clean(Net({"lo"} + IfNames(t.links, router), map[]), Program(gen, t.routers[router]))
            <==> Apart(Pairs(t.routers[router]))
  {
    if Apart(Pairs(t.routers[router])) {
      LoadedTopologiesAreClean(lib, t, router, gen);
    } else {
      UncleanWhenNotApart(t.routers[router], IfNames(t.links, router), gen, Net({"lo"} + IfNames(t.links, router), map[]));
    }
  }

  lemma UncleanWhenNotApart(s: Linux.Section, linkDevices: set<string>, gen: Generator, net: Net)
    requires !Apart(Pairs(s)) && Tells(gen, Pairs(s)) && NoClash(gen, Pairs(s), UserNames(s, linkDevices))
    ensures !Clean(net, Program(gen, s))
  {
    var p, q :| p in Pairs(s) && q in Pairs(s) && PairKey(p) == PairKey(q) && p != q;
    PeersAreUserNames(s, linkDevices);
    SharedKeyCollides(gen, s, p, q, net);
  }
}
