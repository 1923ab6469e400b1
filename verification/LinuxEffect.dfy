/**
 * What is there once `configureLinux` is through (internal/runtime/runtime.go), said of
 * the section alone: every device and namespace it asks for, and nothing else.
 */
module LinuxEffect {
  import opened Sequences
  import opened Linux
  import opened LinuxProgram
  import opened LinuxSoundness

  // ---------------------------------------------------------------------------
  // What a section leaves.

  ghost function Union<T, U>(f: T -> set<U>, xs: seq<T>): set<U> {
    set x, u | x in xs && u in f(x) :: u
  }

  function VRFName(v: VRF): set<string> {
    {v.name}
  }

  function BondName(b: Bond): set<string> {
    {b.name}
  }

  function VXLANName(v: VXLAN): set<string> {
    {v.name}
  }

  function HostName(gen: Generator, bridge: string): Namespace -> set<string> {
    (n: Namespace) => {gen.host(bridge, n.name)}
  }

  function Itself(n: Namespace): set<Namespace> {
    {n}
  }

  /** A bridge leaves itself, its VXLANs, and the host ends of its namespaces. */
  ghost function BridgeNames(gen: Generator): Bridge -> set<string> {
    (b: Bridge) => {b.name} + Union(VXLANName, b.vxlans) + Union(HostName(gen, b.name), b.namespaces)
  }

  function BridgeNamespaces(b: Bridge): set<Namespace> {
    set n | n in b.namespaces
  }

  /** A veth leaves its end, and its peer unless that has moved to a namespace. */
  function VethNames(v: Veth): set<string> {
    if v.namespace.Some? then {v.name} else {v.name, v.peer}
  }

  function VethNamespaces(v: Veth): set<Namespace> {
    if v.namespace.Some? then {v.namespace.value} else {}
  }

  /** The links in the router's own namespace. */
  ghost function LinksLeft(gen: Generator, s: Section, linkDevices: set<string>): set<string> {
    {"lo"} + linkDevices + Union(VRFName, s.vrfs) + Union(BondName, s.bonds)
    + Union(BridgeNames(gen), s.bridges) + Union(VethNames, s.veths)
  }

  /** The namespaces below it. */
  ghost function NamespacesLeft(s: Section): set<Namespace> {
    Union(BridgeNamespaces, s.bridges) + Union(VethNamespaces, s.veths)
  }

  /** These links and these namespaces, each with its loopback and its one interface, and no others. */
  ghost predicate Holds(net: Net, links: set<string>, ns: set<Namespace>) {
    && net.main == links
    && (forall n :: n in ns ==> n.name in net.spaces && net.spaces[n.name] == {"lo", n.ifName})
    && (forall space :: space in net.spaces ==> exists n :: n in ns && n.name == space)
  }

  /** Wherever these steps meet no taken name, they add these links and these namespaces. */
  ghost predicate Leaves(ops: seq<Op>, names: set<string>, spaces: set<Namespace>) {
    forall net, links, ns :: Holds(net, links, ns) && Clean(net, ops) ==> Holds(RunOps(net, ops), links + names, ns + spaces)
  }

  function Void<T, U>(): T -> set<U> {
    (x: T) => {}
  }

  lemma UnionNext<T, U>(f: T -> set<U>, init: seq<T>, last: T)
    ensures Union(f, init + [last]) == Union(f, init) + f(last)
  {
  }

  lemma UnionNone<T, U>(xs: seq<T>)
    ensures Union<T, U>(Void(), xs) == {}
  {
  }

  lemma LeavesConcat(a: seq<Op>, b: seq<Op>, names: set<string>, spaces: set<Namespace>, names': set<string>, spaces': set<Namespace>)
    requires Leaves(a, names, spaces) && Leaves(b, names', spaces')
    ensures Leaves(a + b, names + names', spaces + spaces')
  {
    forall net, links, ns | Holds(net, links, ns) && Clean(net, a + b)
      ensures Holds(RunOps(net, a + b), links + (names + names'), ns + (spaces + spaces')) {
      RunConcat(net, a, b);
      Grouped(links, names, names');
      Grouped(ns, spaces, spaces');
    }
  }

  lemma NothingMore<T>(a: set<T>)
    ensures a + {} == a && {} + a == a
  {
  }

  lemma Grouped<T>(a: set<T>, b: set<T>, c: set<T>)
    ensures a + (b + c) == a + b + c
  {
  }

  lemma NothingLeft()
    ensures Leaves([], {}, {})
  {
    forall net, links, ns | Holds(net, links, ns) ensures Holds(net, links + {}, ns + {}) {
      assert links + {} == links && ns + {} == ns;
    }
  }

  lemma {:induction false} FlatLeaves<T>(f: T -> seq<Op>, names: T -> set<string>, spaces: T -> set<Namespace>, xs: seq<T>)
    requires forall x :: x in xs ==> Leaves(f(x), names(x), spaces(x))
    ensures Leaves(Flat(f, xs), Union(names, xs), Union(spaces, xs))
    decreases |xs|
  {
    if xs == [] {
      NothingLeft();
      assert Union(names, []) == {} && Union(spaces, []) == {};
    } else {
      var init, last := xs[..|xs| - 1], xs[|xs| - 1];
      assert xs == init + [last];
      FlatLeaves(f, names, spaces, init);
      LeavesConcat(Flat(f, init), f(last), Union(names, init), Union(spaces, init), names(last), spaces(last));
      UnionNext(names, init, last);
      UnionNext(spaces, init, last);
    }
  }

  // ---------------------------------------------------------------------------
  // Single steps.

  lemma CreateLeaves(name: string)
    ensures Leaves([Create(name)], {name}, {})
  {
    forall net, links, ns | Holds(net, links, ns) ensures Holds(RunOps(net, [Create(name)]), links + {name}, ns + {}) {
      OneOp(net, Create(name));
      assert ns + {} == ns;
    }
  }

  lemma MastersLeaveNothing(ops: seq<Op>)
    requires forall i :: 0 <= i < |ops| ==> ops[i].SetMaster?
    ensures Leaves(ops, {}, {})
  {
    forall net, links, ns | Holds(net, links, ns) ensures Holds(RunOps(net, ops), links + {}, ns + {}) {
      MastersAreClean(net, ops);
      assert links + {} == links && ns + {} == ns;
    }
  }

  lemma FlatMastersLeaveNothing<T>(f: T -> seq<Op>, xs: seq<T>)
    requires forall x, i :: 0 <= i < |f(x)| ==> f(x)[i].SetMaster?
    ensures Leaves(Flat(f, xs), {}, {})
  {
    FlatMastersAreMasters(f, xs);
    MastersLeaveNothing(Flat(f, xs));
  }

  /** A device, then masters. */
  lemma DeviceLeaves(name: string, masters: seq<Op>)
    requires Leaves(masters, {}, {})
    ensures Leaves([Create(name)] + masters, {name}, {})
  {
    CreateLeaves(name);
    LeavesConcat([Create(name)], masters, {name}, {}, {}, {});
    NothingMore({name});
    NothingMore<Namespace>({});
  }

  /** What cleanliness says of a peer's three steps. */
  lemma PeerStepsClean(net: Net, peer: string, n: Namespace)
    requires Clean(net, PeerOps(peer, n)) && peer in net.main
    ensures n.name !in net.spaces && peer != "lo" && n.ifName != "lo"
  {
    var a, b, c := AddSpace(n.name), MoveToSpace(peer, n.name), Rename(n.name, peer, n.ifName);
    var net1 := After(net, a);
    assert [a] + [b] + [c] == PeerOps(peer, n);
    RunConcat(net, [a] + [b], [c]);
    RunConcat(net, [a], [b]);
    OneOp(net, a);
    OneOp(net1, b);
    OneOp(After(net1, b), c);
    assert net1.spaces[n.name] == {"lo"};
    assert After(net1, b).spaces[n.name] == {"lo"} + {peer};
  }

  lemma PeerHolds(net: Net, links: set<string>, ns: set<Namespace>, peer: string, n: Namespace)
    requires Holds(net, links, ns) && peer in links && Clean(net, PeerOps(peer, n))
    ensures Holds(RunOps(net, PeerOps(peer, n)), links - {peer}, ns + {n})
  {
    PeerStepsClean(net, peer, n);
    PeerMoves(net, peer, n);
    var net' := RunOps(net, PeerOps(peer, n));
    forall space | space in net'.spaces ensures exists n' :: n' in ns + {n} && n'.name == space {
      if space in net.spaces {
        var n' :| n' in ns && n'.name == space;
        assert n' in ns + {n};
      } else {
        assert n in ns + {n};
      }
    }
  }

  lemma PairHolds(net: Net, links: set<string>, ns: set<Namespace>, name: string, peer: string)
    requires Holds(net, links, ns) && Clean(net, [CreatePair(name, peer)])
    ensures Holds(RunOps(net, [CreatePair(name, peer)]), links + {name, peer}, ns)
    ensures name != peer && peer !in links
  {
    OneOp(net, CreatePair(name, peer));
  }

  /** A pair, then masters. */
  lemma PairLeaves(name: string, peer: string, masters: seq<Op>)
    requires Leaves(masters, {}, {})
    ensures Leaves([CreatePair(name, peer)] + masters, {name, peer}, {})
  {
    forall net, links, ns | Holds(net, links, ns) && Clean(net, [CreatePair(name, peer)])
      ensures Holds(RunOps(net, [CreatePair(name, peer)]), links + {name, peer}, ns + {}) {
      PairHolds(net, links, ns, name, peer);
      assert ns + {} == ns;
    }
    LeavesConcat([CreatePair(name, peer)], masters, {name, peer}, {}, {}, {});
    NothingMore({name, peer});
    NothingMore<Namespace>({});
  }

  /** ... and then the peer's move. */
  lemma MovedPairLeaves(name: string, peer: string, masters: seq<Op>, n: Namespace)
    requires Leaves(masters, {}, {})
    ensures Leaves([CreatePair(name, peer)] + masters + PeerOps(peer, n), {name}, {n})
  {
    var pair := [CreatePair(name, peer)] + masters;
    PairLeaves(name, peer, masters);
    forall net, links, ns | Holds(net, links, ns) && Clean(net, pair + PeerOps(peer, n))
      ensures Holds(RunOps(net, pair + PeerOps(peer, n)), links + {name}, ns + {n}) {
      MovedPairHolds(net, links, ns, name, peer, masters, n);
    }
  }

  lemma MovedPairHolds(net: Net, links: set<string>, ns: set<Namespace>, name: string, peer: string, masters: seq<Op>, n: Namespace)
    requires Holds(net, links, ns) && Clean(net, [CreatePair(name, peer)] + masters + PeerOps(peer, n))
    requires Leaves([CreatePair(name, peer)] + masters, {name, peer}, {})
    ensures Holds(RunOps(net, [CreatePair(name, peer)] + masters + PeerOps(peer, n)), links + {name}, ns + {n})
  {
    var pair := [CreatePair(name, peer)] + masters;
    RunConcat(net, pair, PeerOps(peer, n));
    RunConcat(net, [CreatePair(name, peer)], masters);
    PairHolds(net, links, ns, name, peer);
    NothingMore(ns);
    assert Holds(RunOps(net, pair), links + {name, peer}, ns + {});
    PeerHolds(RunOps(net, pair), links + {name, peer}, ns, peer, n);
    assert links + {name, peer} - {peer} == links + {name};
  }

  // ---------------------------------------------------------------------------
  // One list at a time.

  lemma VRFsLeave(vrfs: seq<VRF>)
    ensures Leaves(Flat(VRFOps, vrfs), Union(VRFName, vrfs), {})
  {
    forall v | v in vrfs ensures Leaves(VRFOps(v), {v.name}, {}) {
      CreateLeaves(v.name);
    }
    FlatLeaves(VRFOps, VRFName, Void(), vrfs);
    UnionNone<VRF, Namespace>(vrfs);
  }

  lemma BondsLeave(bonds: seq<Bond>)
    ensures Leaves(Flat(BondOps, bonds), Union(BondName, bonds), {})
  {
    forall b | b in bonds ensures Leaves(BondOps(b), {b.name}, {}) {
      FlatMastersLeaveNothing(PortOps(b.name), b.interfaces);
      DeviceLeaves(b.name, Flat(PortOps(b.name), b.interfaces));
    }
    FlatLeaves(BondOps, BondName, Void(), bonds);
    UnionNone<Bond, Namespace>(bonds);
  }

  lemma VXLANsLeave(owner: string, vxlans: seq<VXLAN>)
    ensures Leaves(Flat(VXLANOps(owner), vxlans), Union(VXLANName, vxlans), {})
  {
    forall v | v in vxlans ensures Leaves(VXLANOps(owner)(v), {v.name}, {}) {
      MastersLeaveNothing(MasterOps(v.name, owner));
      DeviceLeaves(v.name, MasterOps(v.name, owner));
    }
    FlatLeaves(VXLANOps(owner), VXLANName, Void(), vxlans);
    UnionNone<VXLAN, Namespace>(vxlans);
  }

  lemma NamespacesLeave(gen: Generator, bridge: string, ns: seq<Namespace>)
    ensures Leaves(Flat(NamespaceOps(gen, bridge), ns), Union(HostName(gen, bridge), ns), set n | n in ns)
  {
    forall n | n in ns ensures Leaves(NamespaceOps(gen, bridge)(n), {gen.host(bridge, n.name)}, {n}) {
      MastersLeaveNothing(MasterOps(gen.host(bridge, n.name), bridge));
      MovedPairLeaves(gen.host(bridge, n.name), gen.peer(bridge, n.name), MasterOps(gen.host(bridge, n.name), bridge), n);
    }
    FlatLeaves(NamespaceOps(gen, bridge), HostName(gen, bridge), Itself, ns);
    assert Union(Itself, ns) == set n | n in ns;
  }

  lemma BridgeLeaves(gen: Generator, b: Bridge)
    ensures Leaves(BridgeOps(gen)(b), BridgeNames(gen)(b), BridgeNamespaces(b))
  {
    var head := [Create(b.name)] + MasterOps(b.name, b.master);
    var ports, vxlans := Flat(PortOps(b.name), b.interfaces), Flat(VXLANOps(b.name), b.vxlans);
    MastersLeaveNothing(MasterOps(b.name, b.master));
    DeviceLeaves(b.name, MasterOps(b.name, b.master));
    FlatMastersLeaveNothing(PortOps(b.name), b.interfaces);
    VXLANsLeave(b.name, b.vxlans);
    NamespacesLeave(gen, b.name, b.namespaces);
    LeavesConcat(head, ports, {b.name}, {}, {}, {});
    LeavesConcat(head + ports, vxlans, {b.name} + {}, {} + {}, Union(VXLANName, b.vxlans), {});
    LeavesConcat(head + ports + vxlans, Flat(NamespaceOps(gen, b.name), b.namespaces),
                 {b.name} + {} + Union(VXLANName, b.vxlans), {} + {} + {}, Union(HostName(gen, b.name), b.namespaces), BridgeNamespaces(b));
    assert {b.name} + {} == {b.name};
    assert {} + {} + {} + BridgeNamespaces(b) == BridgeNamespaces(b);
  }

  lemma BridgesLeave(gen: Generator, bridges: seq<Bridge>)
    ensures Leaves(Flat(BridgeOps(gen), bridges), Union(BridgeNames(gen), bridges), Union(BridgeNamespaces, bridges))
  {
    forall b | b in bridges ensures Leaves(BridgeOps(gen)(b), BridgeNames(gen)(b), BridgeNamespaces(b)) {
      BridgeLeaves(gen, b);
    }
    FlatLeaves(BridgeOps(gen), BridgeNames(gen), BridgeNamespaces, bridges);
  }

  lemma VethLeaves(v: Veth)
    ensures Leaves(VethOps(v), VethNames(v), VethNamespaces(v))
  {
    var pair := [CreatePair(v.name, v.peer)] + MasterOps(v.name, v.master);
    MastersLeaveNothing(MasterOps(v.name, v.master));
    if v.namespace.Some? {
      MovedPairLeaves(v.name, v.peer, MasterOps(v.name, v.master), v.namespace.value);
    } else {
      assert VethOps(v) == pair;
      PairLeaves(v.name, v.peer, MasterOps(v.name, v.master));
    }
  }

  lemma VethsLeave(veths: seq<Veth>)
    ensures Leaves(Flat(VethOps, veths), Union(VethNames, veths), Union(VethNamespaces, veths))
  {
    forall v | v in veths ensures Leaves(VethOps(v), VethNames(v), VethNamespaces(v)) {
      VethLeaves(v);
    }
    FlatLeaves(VethOps, VethNames, VethNamespaces, veths);
  }

  // ---------------------------------------------------------------------------
  // The section.

  lemma LeavesSix(a: seq<Op>, b: seq<Op>, c: seq<Op>, d: seq<Op>, e: seq<Op>, f: seq<Op>,
                  na: set<string>, nb: set<string>, nc: set<string>, sc: set<Namespace>, nf: set<string>, sf: set<Namespace>)
    requires Leaves(a, na, {}) && Leaves(b, nb, {}) && Leaves(c, nc, sc)
    requires Leaves(d, {}, {}) && Leaves(e, {}, {}) && Leaves(f, nf, sf)
    ensures Leaves(a + b + c + d + e + f, na + nb + nc + nf, sc + sf)
  {
    LeavesConcat(a, b, na, {}, nb, {});
    LeavesConcat(a + b, c, na + nb, {} + {}, nc, sc);
    LeavesConcat(a + b + c, d, na + nb + nc, {} + {} + sc, {}, {});
    LeavesConcat(a + b + c + d, e, na + nb + nc + {}, {} + {} + sc + {}, {}, {});
    LeavesConcat(a + b + c + d + e, f, na + nb + nc + {} + {}, {} + {} + sc + {} + {}, nf, sf);
    assert na + nb + nc + {} + {} == na + nb + nc;
    assert {} + {} + sc + {} + {} == sc;
  }

  lemma ProgramLeaves(gen: Generator, s: Section)
    ensures Leaves(Program(gen, s),
                   Union(VRFName, s.vrfs) + Union(BondName, s.bonds) + Union(BridgeNames(gen), s.bridges) + Union(VethNames, s.veths),
                   NamespacesLeft(s))
  {
    VRFsLeave(s.vrfs);
    BondsLeave(s.bonds);
    BridgesLeave(gen, s.bridges);
    FlatMastersLeaveNothing(BondMasterOps, s.bonds);
    FlatMastersLeaveNothing(InterfaceOps, s.interfaces);
    VethsLeave(s.veths);
    LeavesSix(Flat(VRFOps, s.vrfs), Flat(BondOps, s.bonds), Flat(BridgeOps(gen), s.bridges),
              Flat(BondMasterOps, s.bonds), Flat(InterfaceOps, s.interfaces), Flat(VethOps, s.veths),
              Union(VRFName, s.vrfs), Union(BondName, s.bonds), Union(BridgeNames(gen), s.bridges), Union(BridgeNamespaces, s.bridges),
              Union(VethNames, s.veths), Union(VethNamespaces, s.veths));
  }

  /** A run of a section's program that meets no taken name leaves just what the section asks for. */
  lemma CleanRunLeaves(gen: Generator, s: Section, linkDevices: set<string>)
    requires Clean(Net({"lo"} + linkDevices, map[]), Program(gen, s))
    ensures Holds(RunOps(Net({"lo"} + linkDevices, map[]), Program(gen, s)), LinksLeft(gen, s, linkDevices), NamespacesLeft(s))
  {
    var names := Union(VRFName, s.vrfs) + Union(BondName, s.bonds) + Union(BridgeNames(gen), s.bridges) + Union(VethNames, s.veths);
    ProgramLeaves(gen, s);
    LeavesFromStart(Program(gen, s), names, NamespacesLeft(s), {"lo"} + linkDevices);
    FourMore({"lo"} + linkDevices, Union(VRFName, s.vrfs), Union(BondName, s.bonds), Union(BridgeNames(gen), s.bridges),
             Union(VethNames, s.veths));
  }

  lemma LeavesFromStart(ops: seq<Op>, names: set<string>, spaces: set<Namespace>, links: set<string>)
    requires Leaves(ops, names, spaces) && Clean(Net(links, map[]), ops)
    ensures Holds(RunOps(Net(links, map[]), ops), links + names, spaces)
  {
    assert Holds(Net(links, map[]), links, {});
    NothingMore(spaces);
  }

  lemma FourMore<T>(a: set<T>, b: set<T>, c: set<T>, d: set<T>, e: set<T>)
    ensures a + (b + c + d + e) == a + b + c + d + e
  {
  }

  // ---------------------------------------------------------------------------
  // What is there while it runs.

  /** None of these steps moves one of these links away. */
  predicate Spares(ops: seq<Op>, base: set<string>) {
    forall op :: op in ops ==> !(op.MoveToSpace? && op.name in base)
  }

  /** So it is wherever the steps meet no taken name. */
  ghost predicate Firm(ops: seq<Op>, base: set<string>) {
    forall net: Net :: base <= net.main && Clean(net, ops) ==> Spares(ops, base)
  }

  lemma {:induction false} SparedStays(net: Net, ops: seq<Op>, base: set<string>)
    requires base <= net.main && Spares(ops, base)
    ensures base <= RunOps(net, ops).main
    decreases |ops|
  {
    if ops != [] {
      assert ops == ops[..|ops| - 1] + [ops[|ops| - 1]];
      SparedStays(net, ops[..|ops| - 1], base);
    }
  }

  lemma PlainIsFirm(ops: seq<Op>, base: set<string>)
    requires forall i :: 0 <= i < |ops| ==> !ops[i].MoveToSpace?
    ensures Firm(ops, base)
  {
  }

  lemma FirmConcat(a: seq<Op>, b: seq<Op>, base: set<string>)
    requires Firm(a, base) && Firm(b, base)
    ensures Firm(a + b, base)
  {
    forall net: Net | base <= net.main && Clean(net, a + b) ensures Spares(a + b, base) {
      RunConcat(net, a, b);
      SparedStays(net, a, base);
    }
  }

  lemma {:induction false} FlatFirm<T>(f: T -> seq<Op>, xs: seq<T>, base: set<string>)
    requires forall x :: x in xs ==> Firm(f(x), base)
    ensures Firm(Flat(f, xs), base)
    decreases |xs|
  {
    if xs != [] {
      var init, last := xs[..|xs| - 1], xs[|xs| - 1];
      assert xs == init + [last];
      FlatFirm(f, init, base);
      FirmConcat(Flat(f, init), f(last), base);
    }
  }

  lemma FlatMastersFirm<T>(f: T -> seq<Op>, xs: seq<T>, base: set<string>)
    requires forall x, i :: 0 <= i < |f(x)| ==> f(x)[i].SetMaster?
    ensures Firm(Flat(f, xs), base)
  {
    FlatMastersAreMasters(f, xs);
    PlainIsFirm(Flat(f, xs), base);
  }

  /** The peer that moves has just been made, under a name that was free. */
  lemma PairFirm(name: string, peer: string, masters: seq<Op>, moves: seq<Op>, base: set<string>)
    requires forall i :: 0 <= i < |masters| ==> masters[i].SetMaster?
    requires forall op :: op in moves ==> op.MoveToSpace? ==> op.name == peer
    ensures Firm([CreatePair(name, peer)] + masters + moves, base)
  {
    var ops := [CreatePair(name, peer)] + masters + moves;
    forall net: Net | base <= net.main && Clean(net, ops) ensures Spares(ops, base) {
      RunConcat(net, [CreatePair(name, peer)] + masters, moves);
      RunConcat(net, [CreatePair(name, peer)], masters);
      OneOp(net, CreatePair(name, peer));
    }
  }

  lemma VethFirm(v: Veth, base: set<string>)
    ensures Firm(VethOps(v), base)
  {
    PairFirm(v.name, v.peer, MasterOps(v.name, v.master), if v.namespace.Some? then PeerOps(v.peer, v.namespace.value) else [], base);
  }

  lemma NamespacesFirm(gen: Generator, bridge: string, ns: seq<Namespace>, base: set<string>)
    ensures Firm(Flat(NamespaceOps(gen, bridge), ns), base)
  {
    forall n | n in ns ensures Firm(NamespaceOps(gen, bridge)(n), base) {
      PairFirm(gen.host(bridge, n.name), gen.peer(bridge, n.name), MasterOps(gen.host(bridge, n.name), bridge),
               PeerOps(gen.peer(bridge, n.name), n), base);
    }
    FlatFirm(NamespaceOps(gen, bridge), ns, base);
  }

  lemma VXLANsFirm(owner: string, vxlans: seq<VXLAN>, base: set<string>)
    ensures Firm(Flat(VXLANOps(owner), vxlans), base)
  {
    forall v | v in vxlans ensures Firm(VXLANOps(owner)(v), base) {
      PlainIsFirm(VXLANOps(owner)(v), base);
    }
    FlatFirm(VXLANOps(owner), vxlans, base);
  }

  /** A bridge's own steps behind its creation. */
  function BridgeRest(gen: Generator, b: Bridge): seq<Op> {
    MasterOps(b.name, b.master) + BridgeBodyOps(gen, b)
  }

  lemma BridgeRestFirm(gen: Generator, b: Bridge, base: set<string>)
    ensures Firm(BridgeRest(gen, b), base) && BridgeOps(gen)(b) == [Create(b.name)] + BridgeRest(gen, b)
  {
    var ports, vxlans := Flat(PortOps(b.name), b.interfaces), Flat(VXLANOps(b.name), b.vxlans);
    PlainIsFirm(MasterOps(b.name, b.master), base);
    FlatMastersFirm(PortOps(b.name), b.interfaces, base);
    VXLANsFirm(b.name, b.vxlans, base);
    NamespacesFirm(gen, b.name, b.namespaces, base);
    FirmConcat(ports, vxlans, base);
    FirmConcat(ports + vxlans, Flat(NamespaceOps(gen, b.name), b.namespaces), base);
    FirmConcat(MasterOps(b.name, b.master), BridgeBodyOps(gen, b), base);
    Regroup([Create(b.name)], MasterOps(b.name, b.master), ports, vxlans, Flat(NamespaceOps(gen, b.name), b.namespaces));
  }

  /** Whenever one of these steps sets a master, the device is there. */
  ghost predicate MadeFirst(ops: seq<Op>, name: string) {
    forall net, k :: Clean(net, ops) && 0 <= k < |ops| && ops[k].SetMaster? ==> name in RunOps(net, ops[..k]).main
  }

  lemma MadeAndKept(name: string, rest: seq<Op>)
    requires Firm(rest, {name})
    ensures MadeFirst([Create(name)] + rest, name)
  {
    var ops := [Create(name)] + rest;
    forall net, k | Clean(net, ops) && 0 <= k < |ops| && ops[k].SetMaster? ensures name in RunOps(net, ops[..k]).main {
      OneOp(net, Create(name));
      RunConcat(net, [Create(name)], rest);
      assert Spares(rest, {name});
      assert ops[..k] == [Create(name)] + rest[..k - 1];
      RunConcat(net, [Create(name)], rest[..k - 1]);
      SparedStays(After(net, Create(name)), rest[..k - 1], {name});
    }
  }

  /**
   * Each entry makes its device before any step of its own sets a master: for the device
   * itself, for its ports or for what hangs on it.
   */
  lemma OwnersComeFirst(gen: Generator, b: Bond, br: Bridge, vx: VXLAN, v: Veth)
    ensures MadeFirst(BondOps(b), b.name) && MadeFirst(BridgeOps(gen)(br), br.name)
    ensures MadeFirst(VXLANOps(br.name)(vx), vx.name) && MadeFirst(VethOps(v), v.name)
  {
    FlatMastersFirm(PortOps(b.name), b.interfaces, {b.name});
    MadeAndKept(b.name, Flat(PortOps(b.name), b.interfaces));
    BridgeRestFirm(gen, br, {br.name});
    MadeAndKept(br.name, BridgeRest(gen, br));
    PlainIsFirm(MasterOps(vx.name, br.name), {vx.name});
    MadeAndKept(vx.name, MasterOps(vx.name, br.name));
    VethMadeFirst(v);
  }

  lemma VethMadeFirst(v: Veth)
    ensures MadeFirst(VethOps(v), v.name)
  {
    var op := CreatePair(v.name, v.peer);
    forall net, k | Clean(net, VethOps(v)) && 0 <= k < |VethOps(v)| && VethOps(v)[k].SetMaster?
      ensures v.name in RunOps(net, VethOps(v)[..k]).main {
      OneOp(net, op);
      assert VethOps(v)[..k] == [op];
    }
  }

  /** Up to the last bridge, and from there to the end. */
  function DeviceSteps(gen: Generator, s: Section): seq<Op> {
    Flat(VRFOps, s.vrfs) + Flat(BondOps, s.bonds) + Flat(BridgeOps(gen), s.bridges)
  }

  function RestSteps(s: Section): seq<Op> {
    Flat(BondMasterOps, s.bonds) + Flat(InterfaceOps, s.interfaces) + Flat(VethOps, s.veths)
  }

  ghost function DeviceNames(gen: Generator, s: Section): set<string> {
    Union(VRFName, s.vrfs) + Union(BondName, s.bonds) + Union(BridgeNames(gen), s.bridges)
  }

  lemma DevicesLeave(gen: Generator, s: Section)
    ensures Leaves(DeviceSteps(gen, s), DeviceNames(gen, s), {} + {} + Union(BridgeNamespaces, s.bridges))
  {
    VRFsLeave(s.vrfs);
    BondsLeave(s.bonds);
    BridgesLeave(gen, s.bridges);
    LeavesConcat(Flat(VRFOps, s.vrfs), Flat(BondOps, s.bonds), Union(VRFName, s.vrfs), {}, Union(BondName, s.bonds), {});
    LeavesConcat(Flat(VRFOps, s.vrfs) + Flat(BondOps, s.bonds), Flat(BridgeOps(gen), s.bridges),
                 Union(VRFName, s.vrfs) + Union(BondName, s.bonds), {} + {}, Union(BridgeNames(gen), s.bridges),
                 Union(BridgeNamespaces, s.bridges));
  }

  lemma RestFirm(s: Section, base: set<string>)
    ensures Firm(RestSteps(s), base)
  {
    FlatMastersFirm(BondMasterOps, s.bonds, base);
    FlatMastersFirm(InterfaceOps, s.interfaces, base);
    forall v | v in s.veths ensures Firm(VethOps(v), base) {
      VethFirm(v, base);
    }
    FlatFirm(VethOps, s.veths, base);
    FirmConcat(Flat(BondMasterOps, s.bonds), Flat(InterfaceOps, s.interfaces), base);
    FirmConcat(Flat(BondMasterOps, s.bonds) + Flat(InterfaceOps, s.interfaces), Flat(VethOps, s.veths), base);
  }

  lemma FirmPrefix(net: Net, ops: seq<Op>, base: set<string>, k: nat)
    requires Firm(ops, base) && Clean(net, ops) && base <= net.main && k <= |ops|
    ensures base <= RunOps(net, ops[..k]).main
  {
    assert Spares(ops, base);
    SparedStays(net, ops[..k], base);
  }

  /**
   * When a bond, an interface or a veth is given its master, every VRF, bond, bridge and
   * VXLAN of the section is there to be one.
   */
  lemma LateMastersFindDevices(gen: Generator, s: Section, linkDevices: set<string>, k: nat)
    requires Clean(Net({"lo"} + linkDevices, map[]), Program(gen, s)) && k <= |RestSteps(s)|
    ensures DeviceSteps(gen, s) + RestSteps(s) == Program(gen, s)
    ensures DeviceNames(gen, s) <= RunOps(Net({"lo"} + linkDevices, map[]), DeviceSteps(gen, s) + RestSteps(s)[..k]).main
  {
    var start := Net({"lo"} + linkDevices, map[]);
    ProgramHalves(gen, s);
    RunConcat(start, DeviceSteps(gen, s), RestSteps(s));
    RunConcat(start, DeviceSteps(gen, s), RestSteps(s)[..k]);
    DevicesLeave(gen, s);
    LeavesFromStart(DeviceSteps(gen, s), DeviceNames(gen, s), {} + {} + Union(BridgeNamespaces, s.bridges), {"lo"} + linkDevices);
    RestFirm(s, DeviceNames(gen, s));
    FirmPrefix(RunOps(start, DeviceSteps(gen, s)), RestSteps(s), DeviceNames(gen, s), k);
  }
}
