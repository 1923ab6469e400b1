/**
 * Masters: what a section lists for its links, which `claimLinuxMaster` keeps free of
 * conflicts (internal/config/config.go), is what `configureLinux` carries out
 * (internal/runtime/runtime.go), once each.
 *
 * Links are compared by their trimmed names, as the validator compares them.
 */
module LinuxMasters {
  import opened Strings
  import opened Sequences
  import opened Linux
  import opened LinuxAcceptance
  import opened LinuxProgram

  function OpPair(op: Op): multiset<Pair> {
    if op.SetMaster? then multiset{(TrimSpace(op.link), op.master)} else multiset{}
  }

  function Sum<T>(f: T -> multiset<Pair>, xs: seq<T>): multiset<Pair> {
    if xs == [] then multiset{} else Sum(f, xs[..|xs| - 1]) + f(xs[|xs| - 1])
  }

  /** The (link, master) pairs a run of steps sets, with how often. */
  function Executed(ops: seq<Op>): multiset<Pair> {
    Sum(OpPair, ops)
  }

  lemma {:induction false} SumConcat<T>(f: T -> multiset<Pair>, a: seq<T>, b: seq<T>)
    ensures Sum(f, a + b) == Sum(f, a) + Sum(f, b)
    decreases |b|
  {
    if b == [] {
      assert a + b == a;
    } else {
      SumConcat(f, a, b[..|b| - 1]);
      assert (a + b)[..|a + b| - 1] == a + b[..|b| - 1];
    }
  }

  lemma {:induction false} SumOfNothing<T>(f: T -> multiset<Pair>, xs: seq<T>)
    requires forall i :: 0 <= i < |xs| ==> f(xs[i]) == multiset{}
    ensures Sum(f, xs) == multiset{}
    decreases |xs|
  {
    if xs != [] {
      SumOfNothing(f, xs[..|xs| - 1]);
    }
  }

  lemma ExecutedConcat(a: seq<Op>, b: seq<Op>)
    ensures Executed(a + b) == Executed(a) + Executed(b)
  {
    SumConcat(OpPair, a, b);
  }

  lemma NothingExecuted(ops: seq<Op>)
    requires forall i :: 0 <= i < |ops| ==> !ops[i].SetMaster?
    ensures Executed(ops) == multiset{}
  {
    SumOfNothing(OpPair, ops);
  }

  lemma SumOne<T>(f: T -> multiset<Pair>, x: T)
    ensures Sum(f, [x]) == f(x)
  {
    assert [x][..0] == [];
  }

  lemma ExecutedMaster(link: string, master: string)
    requires !Blank(link)
    ensures Executed(MasterOps(link, master)) == multiset(Given(link, master))
  {
    if !Blank(master) {
      SumOne(OpPair, SetMaster(link, TrimSpace(master)));
    }
  }

  /** A list whose every entry executes what it lists executes what is listed. */
  lemma {:induction false} FlatExecutes<T>(f: T -> seq<Op>, g: T -> seq<Pair>, xs: seq<T>)
    requires forall x :: x in xs ==> Executed(f(x)) == multiset(g(x))
    ensures Executed(Flat(f, xs)) == multiset(Flat(g, xs))
    decreases |xs|
  {
    if xs != [] {
      var init, last := xs[..|xs| - 1], xs[|xs| - 1];
      assert xs == init + [last];
      FlatExecutes(f, g, init);
      ExecutedConcat(Flat(f, init), f(last));
    }
  }

  /** One step that sets no master, then the rest. */
  lemma HeadExecutes(op: Op, rest: seq<Op>)
    requires !op.SetMaster?
    ensures Executed([op] + rest) == Executed(rest)
  {
    NothingExecuted([op]);
    ExecutedConcat([op], rest);
  }

  // ---------------------------------------------------------------------------
  // One list at a time: what is listed is what is executed.

  lemma PortsExecute(owner: string, ports: seq<string>)
    requires PortsOk(ports)
    ensures Executed(Flat(PortOps(owner), ports)) == multiset(Flat(PortPairs(owner), ports))
  {
    forall p | p in ports ensures Executed(PortOps(owner)(p)) == multiset(PortPairs(owner)(p)) {
      ExecutedMaster(p, owner);
    }
    FlatExecutes(PortOps(owner), PortPairs(owner), ports);
  }

  lemma BondExecutes(lib: Library, b: Bond)
    requires BondEntryOk(lib, b)
    ensures Executed(BondOps(b)) + Executed(BondMasterOps(b)) == multiset(BondPairs(b))
  {
    HeadExecutes(Create(b.name), Flat(PortOps(b.name), b.interfaces));
    PortsExecute(b.name, b.interfaces);
    ExecutedMaster(b.name, b.master);
  }

  lemma {:induction false} BondsExecute(lib: Library, bonds: seq<Bond>)
    requires forall b :: b in bonds ==> BondEntryOk(lib, b)
    ensures Executed(Flat(BondOps, bonds)) + Executed(Flat(BondMasterOps, bonds)) == multiset(Flat(BondPairs, bonds))
    decreases |bonds|
  {
    if bonds != [] {
      var init, b := bonds[..|bonds| - 1], bonds[|bonds| - 1];
      assert bonds == init + [b];
      BondsExecute(lib, init);
      BondExecutes(lib, b);
      ExecutedConcat(Flat(BondOps, init), BondOps(b));
      ExecutedConcat(Flat(BondMasterOps, init), BondMasterOps(b));
    }
  }

  lemma InterfacesExecute(lib: Library, ifaces: seq<Interface>)
    requires forall i :: i in ifaces ==> InterfaceOk(lib, i)
    ensures Executed(Flat(InterfaceOps, ifaces)) == multiset(Flat(InterfacePairs, ifaces))
  {
    forall i | i in ifaces ensures Executed(InterfaceOps(i)) == multiset(InterfacePairs(i)) {
      ExecutedMaster(i.name, i.master);
    }
    FlatExecutes(InterfaceOps, InterfacePairs, ifaces);
  }

  lemma VethExecutes(v: Veth)
    requires !Blank(v.name)
    ensures Executed(VethOps(v)) == multiset(VethPairs(v))
  {
    var moves := if v.namespace.Some? then PeerOps(v.peer, v.namespace.value) else [];
    HeadExecutes(CreatePair(v.name, v.peer), MasterOps(v.name, v.master));
    ExecutedMaster(v.name, v.master);
    NothingExecuted(moves);
    ExecutedConcat([CreatePair(v.name, v.peer)] + MasterOps(v.name, v.master), moves);
  }

  lemma VethsExecute(lib: Library, veths: seq<Veth>)
    requires forall v :: v in veths ==> VethEntryOk(lib, v)
    ensures Executed(Flat(VethOps, veths)) == multiset(Flat(VethPairs, veths))
  {
    forall v | v in veths ensures Executed(VethOps(v)) == multiset(VethPairs(v)) {
      VethExecutes(v);
    }
    FlatExecutes(VethOps, VethPairs, veths);
  }

  lemma VXLANsExecute(lib: Library, owner: string, vxlans: seq<VXLAN>)
    requires forall v :: v in vxlans ==> VXLANOk(lib, v)
    ensures Executed(Flat(VXLANOps(owner), vxlans)) == multiset(Flat(VXLANPairs(owner), vxlans))
  {
    forall v | v in vxlans ensures Executed(VXLANOps(owner)(v)) == multiset(VXLANPairs(owner)(v)) {
      HeadExecutes(Create(v.name), MasterOps(v.name, owner));
      ExecutedMaster(v.name, owner);
    }
    FlatExecutes(VXLANOps(owner), VXLANPairs(owner), vxlans);
  }

  /** The generated host ends a bridge's namespaces bring along. */
  function HostEnds(gen: Generator, bridge: string, ns: seq<Namespace>): multiset<Pair> {
    if ns == [] then multiset{}
    else HostEnds(gen, bridge, ns[..|ns| - 1])
         + multiset{(TrimSpace(gen.host(bridge, ns[|ns| - 1].name)), TrimSpace(bridge))}
  }

  function GeneratedPairs(gen: Generator, bridges: seq<Bridge>): multiset<Pair> {
    if bridges == [] then multiset{}
    else
      var b := bridges[|bridges| - 1];
      GeneratedPairs(gen, bridges[..|bridges| - 1]) + HostEnds(gen, b.name, b.namespaces)
  }

  lemma {:induction false} NamespacesExecute(gen: Generator, bridge: string, ns: seq<Namespace>)
    requires !Blank(bridge)
    ensures Executed(Flat(NamespaceOps(gen, bridge), ns)) == HostEnds(gen, bridge, ns)
    decreases |ns|
  {
    if ns != [] {
      var init, n := ns[..|ns| - 1], ns[|ns| - 1];
      var host, peer := gen.host(bridge, n.name), gen.peer(bridge, n.name);
      NamespacesExecute(gen, bridge, init);
      HeadExecutes(CreatePair(host, peer), MasterOps(host, bridge));
      SumOne(OpPair, SetMaster(host, TrimSpace(bridge)));
      NothingExecuted(PeerOps(peer, n));
      ExecutedConcat([CreatePair(host, peer)] + MasterOps(host, bridge), PeerOps(peer, n));
      ExecutedConcat(Flat(NamespaceOps(gen, bridge), init), NamespaceOps(gen, bridge)(n));
    }
  }

  lemma BridgeExecutes(lib: Library, gen: Generator, b: Bridge)
    requires BridgeEntryOk(lib, b)
    ensures Executed(BridgeOps(gen)(b)) == multiset(BridgePairs(b)) + HostEnds(gen, b.name, b.namespaces)
  {
    var head := [Create(b.name)] + MasterOps(b.name, b.master);
    var ports := head + Flat(PortOps(b.name), b.interfaces);
    HeadExecutes(Create(b.name), MasterOps(b.name, b.master));
    ExecutedMaster(b.name, b.master);
    PortsExecute(b.name, b.interfaces);
    VXLANsExecute(lib, b.name, b.vxlans);
    NamespacesExecute(gen, b.name, b.namespaces);
    ExecutedConcat(head, Flat(PortOps(b.name), b.interfaces));
    ExecutedConcat(ports, Flat(VXLANOps(b.name), b.vxlans));
    ExecutedConcat(ports + Flat(VXLANOps(b.name), b.vxlans), Flat(NamespaceOps(gen, b.name), b.namespaces));
  }

  lemma {:induction false} BridgesExecute(lib: Library, gen: Generator, bridges: seq<Bridge>)
    requires forall b :: b in bridges ==> BridgeEntryOk(lib, b)
    ensures Executed(Flat(BridgeOps(gen), bridges)) == multiset(Flat(BridgePairs, bridges)) + GeneratedPairs(gen, bridges)
    decreases |bridges|
  {
    if bridges != [] {
      var init, b := bridges[..|bridges| - 1], bridges[|bridges| - 1];
      assert bridges == init + [b];
      BridgesExecute(lib, gen, init);
      BridgeExecutes(lib, gen, b);
      ExecutedConcat(Flat(BridgeOps(gen), init), BridgeOps(gen)(b));
    }
  }

  // ---------------------------------------------------------------------------
  // The whole section.

  lemma {:induction false} VRFsExecuteNothing(vrfs: seq<VRF>)
    ensures Executed(Flat(VRFOps, vrfs)) == multiset{}
    decreases |vrfs|
  {
    if vrfs != [] {
      VRFsExecuteNothing(vrfs[..|vrfs| - 1]);
      NothingExecuted(VRFOps(vrfs[|vrfs| - 1]));
      ExecutedConcat(Flat(VRFOps, vrfs[..|vrfs| - 1]), VRFOps(vrfs[|vrfs| - 1]));
    }
  }

  lemma ProgramExecutes(gen: Generator, s: Section)
    ensures Executed(Program(gen, s)) ==
            Executed(Flat(BondOps, s.bonds)) + Executed(Flat(BridgeOps(gen), s.bridges))
            + Executed(Flat(BondMasterOps, s.bonds)) + Executed(Flat(InterfaceOps, s.interfaces))
            + Executed(Flat(VethOps, s.veths))
  {
    var p1 := Flat(VRFOps, s.vrfs);
    var p2 := p1 + Flat(BondOps, s.bonds);
    var p3 := p2 + Flat(BridgeOps(gen), s.bridges);
    var p4 := p3 + Flat(BondMasterOps, s.bonds);
    VRFsExecuteNothing(s.vrfs);
    ExecutedConcat(p1, Flat(BondOps, s.bonds));
    ExecutedConcat(p2, Flat(BridgeOps(gen), s.bridges));
    ExecutedConcat(p3, Flat(BondMasterOps, s.bonds));
    ExecutedConcat(p4, Flat(InterfaceOps, s.interfaces));
    ExecutedConcat(p4 + Flat(InterfaceOps, s.interfaces), Flat(VethOps, s.veths));
  }

  /** A section's program sets what the section lists, and the generated host ends besides. */
  lemma ExecutedIsListed(lib: Library, s: Section, gen: Generator)
    requires FieldsOk(lib, s)
    ensures Executed(Program(gen, s)) == multiset(Masters(s)) + GeneratedPairs(gen, s.bridges)
  {
    BondsExecute(lib, s.bonds);
    BridgesExecute(lib, gen, s.bridges);
    InterfacesExecute(lib, s.interfaces);
    VethsExecute(lib, s.veths);
    ProgramExecutes(gen, s);
  }

  lemma {:induction false} ListedOnce(ps: seq<Pair>, p: Pair)
    requires NoRepeat(Links(ps))
    ensures multiset(ps)[p] == if p in ps then 1 else 0
    decreases |ps|
  {
    if ps != [] {
      var init, last := ps[..|ps| - 1], ps[|ps| - 1];
      assert forall i :: 0 <= i < |init| ==> Links(init)[i] == Links(ps)[i];
      assert Links(ps)[|init|] == last.0;
      assert ps == init + [last];
      ListedOnce(init, p);
    }
  }

  /**
   * Over the whole program of an accepted section, a pair is set exactly once when the
   * section lists it, plus once for each generated host end it is; no other pair is set.
   */
  lemma MastersSetOnceAndAsListed(lib: Library, s: Section, linkDevices: set<string>, gen: Generator, p: Pair)
    requires InOrder(lib, s, linkDevices)
    ensures Executed(Program(gen, s))[p] == (if p in Masters(s) then 1 else 0) + GeneratedPairs(gen, s.bridges)[p]
  {
    ExecutedIsListed(lib, s, gen);
    ListedOnce(Masters(s), p);
  }

  /** The master relation a run leaves behind: the last master set on each link. */
  function Relation(ops: seq<Op>): map<string, string> {
    if ops == [] then map[]
    else
      var before, op := Relation(ops[..|ops| - 1]), ops[|ops| - 1];
      if op.SetMaster? then before[TrimSpace(op.link) := op.master] else before
  }

  /** Only the pairs matter, not their order, for a link that is given one master. */
  lemma {:induction false} RelationIgnoresOrder(ops: seq<Op>, link: string, master: string)
    requires forall m :: m != master ==> (link, m) !in Executed(ops)
    ensures link in Relation(ops) <==> (link, master) in Executed(ops)
    ensures link in Relation(ops) ==> Relation(ops)[link] == master
    decreases |ops|
  {
    if ops != [] {
      var init, op := ops[..|ops| - 1], ops[|ops| - 1];
      assert forall m :: (link, m) in Executed(init) ==> (link, m) in Executed(ops);
      RelationIgnoresOrder(init, link, master);
      if op.SetMaster? && TrimSpace(op.link) == link {
        assert (link, op.master) in Executed(ops);
      }
    }
  }

  /** No link is listed twice, so it has one master or none. */
  lemma OneMaster(ps: seq<Pair>, link: string) returns (master: string)
    requires NoRepeat(Links(ps))
    ensures forall m :: (link, m) in ps ==> m == master
  {
    master := "";
    if m :| (link, m) in ps {
      master := m;
      forall m' | (link, m') in ps ensures m' == m {
        var i, j :| 0 <= i < |ps| && 0 <= j < |ps| && ps[i] == (link, m) && ps[j] == (link, m');
        assert Links(ps)[i] == Links(ps)[j];
      }
    }
  }

  /**
   * Whatever order the same steps are taken in, every link ends up with the master the
   * section lists for it, and with none if it lists none, unless a generated name
   * equals the link's.
   */
  lemma FinalMastersAreListed(lib: Library, s: Section, linkDevices: set<string>, gen: Generator, ops: seq<Op>, link: string)
    requires InOrder(lib, s, linkDevices)
    requires Executed(ops) == Executed(Program(gen, s))
    requires forall m :: (link, m) !in GeneratedPairs(gen, s.bridges)
    ensures forall m :: (link, m) in Masters(s) <==> link in Relation(ops) && Relation(ops)[link] == m
  {
    var master := OneMaster(Masters(s), link);
    forall m ensures (link, m) in Executed(ops) <==> (link, m) in Masters(s) {
      MastersSetOnceAndAsListed(lib, s, linkDevices, gen, (link, m));
    }
    RelationIgnoresOrder(ops, link, master);
  }
}
