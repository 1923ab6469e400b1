/**
 * Sections that `validateLinux` accepts do not go wrong: no device `configureLinux`
 * creates, moves or renames meets a name that is already there.
 */
module LinuxSoundness {
  import opened Options
  import opened Strings
  import opened Sequences
  import opened Linux
  import opened LinuxProgram

  // ---------------------------------------------------------------------------
  // Assumptions on the generated names.

  /** (bridge, namespace) for every veth whose names are generated. */
  ghost function Pairs(s: Section): set<(string, string)> {
    set b, n | b in s.bridges && n in b.namespaces :: (b.name, n.name)
  }

  /** Every device name that comes from the user, as written. */
  ghost function UserNames(s: Section, linkDevices: set<string>): set<string> {
    {"lo"} + linkDevices
    + (set v | v in s.vrfs :: v.name)
    + (set b | b in s.bonds :: b.name)
    + (set b | b in s.bridges :: b.name)
    + (set b, x | b in s.bridges && x in b.vxlans :: x.name)
    + (set v | v in s.veths :: v.name)
    + (set v | v in s.veths :: v.peer)
  }

  /** Generated names are distinct from one another and from the user's. */
  ghost predicate Fresh(gen: Generator, pairs: set<(string, string)>, user: set<string>) {
    && (forall p, q :: p in pairs && q in pairs && gen.host(p.0, p.1) == gen.host(q.0, q.1) ==> p == q)
    && (forall p, q :: p in pairs && q in pairs ==> gen.host(p.0, p.1) != gen.peer(q.0, q.1))
    && (forall p :: p in pairs ==> gen.host(p.0, p.1) !in user && gen.peer(p.0, p.1) !in user)
  }

  /** What stays fixed while a section is replayed. */
  datatype Scope = Scope(gen: Generator, pairs: set<(string, string)>, user: set<string>)

  ghost predicate InScope(c: Scope) {
    Fresh(c.gen, c.pairs, c.user) && "lo" in c.user
  }

  /** `name` is the bridge's end of the veth of a namespace that has been set up. */
  ghost predicate IsHostEnd(c: Scope, net: Net, name: string) {
    exists p :: p in c.pairs && name == c.gen.host(p.0, p.1) && p.1 in net.spaces
  }

  /**
   * The validator's devices cover the names really present: a present name is the
   * user's, and then its trimming is on the list and belongs to no other present
   * name, or it is a generated host end.
   */
  ghost predicate Tracks(c: Scope, devices: set<string>, net: Net) {
    && "lo" in devices
    && (forall x :: x in net.main && x in c.user ==> TrimSpace(x) in devices)
    && (forall x :: x in net.main && x !in c.user ==> IsHostEnd(c, net, x))
    && (forall x, y :: x in net.main && y in net.main && x in c.user && y in c.user && TrimSpace(x) == TrimSpace(y)
                       ==> x == y)
  }

  /** ... and its namespaces, less some earlier ones, cover the namespaces present. */
  ghost predicate InStep(c: Scope, l: Ledger, net: Net, earlier: set<string>) {
    Tracks(c, l.devices, net) && earlier <= l.spaces && net.spaces.Keys <= l.spaces - earlier
  }

  // ---------------------------------------------------------------------------
  // Single steps.

  lemma OneOp(net: Net, op: Op)
    ensures RunOps(net, [op]) == After(net, op)
    ensures Clean(net, [op]) <==> !Collides(net, op)
  {
    assert [op][..0] == [];
  }

  /** A device the validator lets be claimed can be created. */
  lemma CreateTracks(c: Scope, l: Ledger, name: string, net: Net)
    requires InScope(c) && Tracks(c, l.devices, net)
    requires name in c.user && Apply(l, TakeDevice(name)).Some?
    ensures Clean(net, [Create(name)])
    ensures var net' := RunOps(net, [Create(name)]);
            net'.spaces == net.spaces && Tracks(c, Apply(l, TakeDevice(name)).value.devices, net')
  {
    OneOp(net, Create(name));
    var net' := After(net, Create(name));
    forall x | x in net'.main && x !in c.user ensures IsHostEnd(c, net', x) {
      assert IsHostEnd(c, net, x);
    }
  }

  /** The head of most entries: fields, a device, its master. */
  lemma ClaimTracks(c: Scope, l: Ledger, fields: Check, name: string, master: string, net: Net)
    requires InScope(c) && Tracks(c, l.devices, net) && name in c.user && fields.Require?
    requires ApplyAll(l, [fields, TakeDevice(name), AssignMaster(name, master)]).Some?
    ensures var l' := ApplyAll(l, [fields, TakeDevice(name), AssignMaster(name, master)]).value;
            var net' := RunOps(net, [Create(name)]);
            && Clean(net, [Create(name)]) && net'.spaces == net.spaces
            && l'.spaces == l.spaces && Tracks(c, l'.devices, net')
  {
    Two(l, fields, TakeDevice(name));
    Three(l, fields, TakeDevice(name), AssignMaster(name, master));
    CreateTracks(c, l, name, net);
  }

  /** Masters touch no name. */
  lemma {:induction false} MastersAreClean(net: Net, ops: seq<Op>)
    requires forall i :: 0 <= i < |ops| ==> ops[i].SetMaster?
    ensures Clean(net, ops) && RunOps(net, ops) == net
    decreases |ops|
  {
    if ops != [] {
      MastersAreClean(net, ops[..|ops| - 1]);
    }
  }

  lemma {:induction false} FlatMastersAreMasters<T>(f: T -> seq<Op>, xs: seq<T>)
    requires forall x, i :: 0 <= i < |f(x)| ==> f(x)[i].SetMaster?
    ensures forall i :: 0 <= i < |Flat(f, xs)| ==> Flat(f, xs)[i].SetMaster?
    decreases |xs|
  {
    if xs != [] {
      FlatMastersAreMasters(f, xs[..|xs| - 1]);
    }
  }

  predicate IsDeviceCheck(c: Check) {
    c.TakeDevice? || c.FreeDevice?
  }

  /** Checks about other things leave the device list alone. */
  lemma {:induction false} DevicesUntouched(l: Ledger, cs: seq<Check>)
    requires ApplyAll(l, cs).Some? && forall i :: 0 <= i < |cs| ==> !IsDeviceCheck(cs[i])
    ensures ApplyAll(l, cs).value.devices == l.devices
    decreases |cs|
  {
    if cs != [] {
      DevicesUntouched(l, cs[..|cs| - 1]);
    }
  }

  lemma {:induction false} FlatTouchesNoDevice<T>(f: T -> seq<Check>, xs: seq<T>)
    requires forall x, i :: 0 <= i < |f(x)| ==> !IsDeviceCheck(f(x)[i])
    ensures forall i :: 0 <= i < |Flat(f, xs)| ==> !IsDeviceCheck(Flat(f, xs)[i])
    decreases |xs|
  {
    if xs != [] {
      FlatTouchesNoDevice(f, xs[..|xs| - 1]);
    }
  }

  /** Namespace names are only ever added to the ledger. */
  lemma {:induction false} SpacesGrow(l: Ledger, cs: seq<Check>)
    requires ApplyAll(l, cs).Some?
    ensures l.spaces <= ApplyAll(l, cs).value.spaces
    decreases |cs|
  {
    if cs != [] {
      SpacesGrow(l, cs[..|cs| - 1]);
    }
  }

  predicate IsSpaceCheck(c: Check) {
    c.UseSpace?
  }

  lemma {:induction false} SpacesUntouched(l: Ledger, cs: seq<Check>)
    requires ApplyAll(l, cs).Some? && forall i :: 0 <= i < |cs| ==> !IsSpaceCheck(cs[i])
    ensures ApplyAll(l, cs).value.spaces == l.spaces
    decreases |cs|
  {
    if cs != [] {
      SpacesUntouched(l, cs[..|cs| - 1]);
    }
  }

  lemma {:induction false} FlatTouchesNoSpace<T>(f: T -> seq<Check>, xs: seq<T>)
    requires forall x, i :: 0 <= i < |f(x)| ==> !IsSpaceCheck(f(x)[i])
    ensures forall i :: 0 <= i < |Flat(f, xs)| ==> !IsSpaceCheck(Flat(f, xs)[i])
    decreases |xs|
  {
    if xs != [] {
      FlatTouchesNoSpace(f, xs[..|xs| - 1]);
    }
  }

  /** A veth end moves to a new namespace, takes its new name there and frees the old one. */
  lemma PeerMoves(net: Net, peer: string, n: Namespace)
    requires n.name !in net.spaces && peer in net.main && peer != "lo" && n.ifName != "lo"
    ensures Clean(net, PeerOps(peer, n))
    ensures RunOps(net, PeerOps(peer, n)) == Net(net.main - {peer}, net.spaces[n.name := {"lo", n.ifName}])
  {
    var a, b, c := AddSpace(n.name), MoveToSpace(peer, n.name), Rename(n.name, peer, n.ifName);
    OneOp(net, a);
    var net1 := After(net, a);
    OneOp(net1, b);
    var net2 := After(net1, b);
    OneOp(net2, c);
    RunConcat(net, [a], [b]);
    RunConcat(net, [a] + [b], [c]);
    assert [a] + [b] + [c] == PeerOps(peer, n);
    assert net2.spaces[n.name] == {"lo", peer};
    assert {"lo", peer} - {peer} + {n.ifName} == {"lo", n.ifName};
    assert After(net2, c).spaces == net.spaces[n.name := {"lo", n.ifName}];
  }

  // ---------------------------------------------------------------------------
  // One list at a time.

  lemma {:induction false} VRFsSound(c: Scope, l: Ledger, vrfs: seq<VRF>, net: Net)
    requires InScope(c) && Tracks(c, l.devices, net)
    requires forall v :: v in vrfs ==> v.name in c.user
    requires ApplyAll(l, Flat(VRFChecks, vrfs)).Some?
    ensures var net' := RunOps(net, Flat(VRFOps, vrfs));
            && Clean(net, Flat(VRFOps, vrfs)) && net'.spaces == net.spaces
            && Tracks(c, ApplyAll(l, Flat(VRFChecks, vrfs)).value.devices, net')
    decreases |vrfs|
  {
    if vrfs != [] {
      var init, v := vrfs[..|vrfs| - 1], vrfs[|vrfs| - 1];
      ApplyConcat(l, Flat(VRFChecks, init), VRFChecks(v));
      VRFsSound(c, l, init, net);
      var l1, net1 := ApplyAll(l, Flat(VRFChecks, init)).value, RunOps(net, Flat(VRFOps, init));
      Two(l1, Require(VRFOk(v)), TakeDevice(v.name));
      CreateTracks(c, l1, v.name, net1);
      RunConcat(net, Flat(VRFOps, init), VRFOps(v));
    }
  }

  lemma PortsTouchNothing(l: Ledger, owner: string, ports: seq<string>, net: Net)
    requires ApplyAll(l, Flat(PortCheck(owner), ports)).Some?
    ensures var l' := ApplyAll(l, Flat(PortCheck(owner), ports)).value;
            l'.devices == l.devices && l'.spaces == l.spaces
    ensures Clean(net, Flat(PortOps(owner), ports)) && RunOps(net, Flat(PortOps(owner), ports)) == net
  {
    FlatTouchesNoDevice(PortCheck(owner), ports);
    DevicesUntouched(l, Flat(PortCheck(owner), ports));
    FlatTouchesNoSpace(PortCheck(owner), ports);
    SpacesUntouched(l, Flat(PortCheck(owner), ports));
    FlatMastersAreMasters(PortOps(owner), ports);
    MastersAreClean(net, Flat(PortOps(owner), ports));
  }

  lemma BondSound(lib: Library, c: Scope, l: Ledger, b: Bond, net: Net)
    requires InScope(c) && Tracks(c, l.devices, net) && b.name in c.user
    requires ApplyAll(l, BondChecks(lib)(b)).Some?
    ensures var net' := RunOps(net, BondOps(b));
            && Clean(net, BondOps(b)) && net'.spaces == net.spaces
            && Tracks(c, ApplyAll(l, BondChecks(lib)(b)).value.devices, net')
  {
    var head := [Require(BondOk(lib, b)), TakeDevice(b.name), AssignMaster(b.name, b.master)];
    ApplyConcat(l, head, Flat(PortCheck(b.name), b.interfaces));
    ClaimTracks(c, l, Require(BondOk(lib, b)), b.name, b.master, net);
    PortsTouchNothing(ApplyAll(l, head).value, b.name, b.interfaces, RunOps(net, [Create(b.name)]));
    RunConcat(net, [Create(b.name)], Flat(PortOps(b.name), b.interfaces));
  }

  lemma {:induction false} BondsSound(lib: Library, c: Scope, l: Ledger, bonds: seq<Bond>, net: Net)
    requires InScope(c) && Tracks(c, l.devices, net)
    requires forall b :: b in bonds ==> b.name in c.user
    requires ApplyAll(l, Flat(BondChecks(lib), bonds)).Some?
    ensures var net' := RunOps(net, Flat(BondOps, bonds));
            && Clean(net, Flat(BondOps, bonds)) && net'.spaces == net.spaces
            && Tracks(c, ApplyAll(l, Flat(BondChecks(lib), bonds)).value.devices, net')
    decreases |bonds|
  {
    if bonds != [] {
      var init, b := bonds[..|bonds| - 1], bonds[|bonds| - 1];
      ApplyConcat(l, Flat(BondChecks(lib), init), BondChecks(lib)(b));
      BondsSound(lib, c, l, init, net);
      BondSound(lib, c, ApplyAll(l, Flat(BondChecks(lib), init)).value, b, RunOps(net, Flat(BondOps, init)));
      RunConcat(net, Flat(BondOps, init), BondOps(b));
    }
  }

  lemma VXLANSound(lib: Library, c: Scope, l: Ledger, owner: string, v: VXLAN, net: Net)
    requires InScope(c) && Tracks(c, l.devices, net) && v.name in c.user
    requires ApplyAll(l, VXLANChecks(lib, owner)(v)).Some?
    ensures var net' := RunOps(net, VXLANOps(owner)(v));
            var l' := ApplyAll(l, VXLANChecks(lib, owner)(v)).value;
            && Clean(net, VXLANOps(owner)(v)) && net'.spaces == net.spaces
            && l'.spaces == l.spaces && Tracks(c, l'.devices, net')
  {
    ClaimTracks(c, l, Require(VXLANOk(lib, v)), v.name, owner, net);
    MastersAreClean(RunOps(net, [Create(v.name)]), MasterOps(v.name, owner));
    RunConcat(net, [Create(v.name)], MasterOps(v.name, owner));
  }

  lemma {:induction false} VXLANsSound(lib: Library, c: Scope, l: Ledger, owner: string, vxlans: seq<VXLAN>, net: Net)
    requires InScope(c) && Tracks(c, l.devices, net)
    requires forall v :: v in vxlans ==> v.name in c.user
    requires ApplyAll(l, Flat(VXLANChecks(lib, owner), vxlans)).Some?
    ensures var net' := RunOps(net, Flat(VXLANOps(owner), vxlans));
            var l' := ApplyAll(l, Flat(VXLANChecks(lib, owner), vxlans)).value;
            && Clean(net, Flat(VXLANOps(owner), vxlans)) && net'.spaces == net.spaces
            && l'.spaces == l.spaces && Tracks(c, l'.devices, net')
    decreases |vxlans|
  {
    if vxlans != [] {
      var init, v := vxlans[..|vxlans| - 1], vxlans[|vxlans| - 1];
      ApplyConcat(l, Flat(VXLANChecks(lib, owner), init), VXLANChecks(lib, owner)(v));
      VXLANsSound(lib, c, l, owner, init, net);
      var l1 := ApplyAll(l, Flat(VXLANChecks(lib, owner), init)).value;
      var net1 := RunOps(net, Flat(VXLANOps(owner), init));
      VXLANSound(lib, c, l1, owner, v, net1);
      RunConcat(net, Flat(VXLANOps(owner), init), VXLANOps(owner)(v));
    }
  }

  /** The generated names of a namespace that is not set up yet are free. */
  lemma GeneratedNamesFree(c: Scope, devices: set<string>, bridge: string, space: string, net: Net)
    requires InScope(c) && Tracks(c, devices, net)
    requires (bridge, space) in c.pairs && space !in net.spaces
    ensures var host, peer := c.gen.host(bridge, space), c.gen.peer(bridge, space);
            host != peer && host !in net.main && peer !in net.main && host !in c.user && peer !in c.user
  {
    var pair := (bridge, space);
    var host, peer := c.gen.host(pair.0, pair.1), c.gen.peer(pair.0, pair.1);
    assert pair in c.pairs;
    assert forall q :: q in c.pairs && host == c.gen.host(q.0, q.1) ==> q == pair;
    assert forall q :: q in c.pairs ==> peer != c.gen.host(q.0, q.1);
  }

  /** Tracking after a generated host end has joined and a namespace has been set up. */
  lemma HostEndTracks(c: Scope, devices: set<string>, bridge: string, space: string, net: Net, net': Net)
    requires InScope(c) && Tracks(c, devices, net)
    requires (bridge, space) in c.pairs && c.gen.host(bridge, space) !in c.user
    requires net'.main == net.main + {c.gen.host(bridge, space)}
    requires net'.spaces.Keys == net.spaces.Keys + {space}
    ensures Tracks(c, devices, net')
  {
    var pair := (bridge, space);
    forall x | x in net'.main && x !in c.user ensures IsHostEnd(c, net', x) {
      if x == c.gen.host(pair.0, pair.1) {
        assert pair in c.pairs && pair.1 in net'.spaces;
      } else {
        assert IsHostEnd(c, net, x);
        var p :| p in c.pairs && x == c.gen.host(p.0, p.1) && p.1 in net.spaces;
        assert p.1 in net'.spaces;
      }
    }
  }

  lemma NamespaceRuns(gen: Generator, bridge: string, n: Namespace, net: Net)
    requires var host, peer := gen.host(bridge, n.name), gen.peer(bridge, n.name);
             host != peer && host !in net.main && peer !in net.main && peer != "lo"
    requires n.name !in net.spaces && n.ifName != "lo"
    ensures var net' := RunOps(net, NamespaceOps(gen, bridge)(n));
            && Clean(net, NamespaceOps(gen, bridge)(n))
            && net'.main == net.main + {gen.host(bridge, n.name)}
            && net'.spaces.Keys == net.spaces.Keys + {n.name}
  {
    var host, peer := gen.host(bridge, n.name), gen.peer(bridge, n.name);
    var op := CreatePair(host, peer);
    OneOp(net, op);
    var net1 := After(net, op);
    MastersAreClean(net1, MasterOps(host, bridge));
    RunConcat(net, [op], MasterOps(host, bridge));
    PeerMoves(net1, peer, n);
    RunConcat(net, [op] + MasterOps(host, bridge), PeerOps(peer, n));
  }

  /** A namespace check that passes lets the name be used, and adds it. */
  lemma NamespaceChecked(lib: Library, l: Ledger, n: Namespace)
    requires ApplyAll(l, NamespaceChecks(lib)(n)).Some?
    ensures n.ifName != "lo" && n.name !in l.spaces
    ensures ApplyAll(l, NamespaceChecks(lib)(n)).value == l.(spaces := l.spaces + {n.name})
  {
    Two(l, Require(NamespaceOk(lib, n)), UseSpace(n.name));
  }

  /** A bridge's namespace: its generated pair is new, and the peer's name is free again afterwards. */
  lemma NamespaceSound(lib: Library, c: Scope, l: Ledger, bridge: string, n: Namespace, net: Net, earlier: set<string>)
    requires InScope(c) && InStep(c, l, net, earlier) && (bridge, n.name) in c.pairs
    requires ApplyAll(l, NamespaceChecks(lib)(n)).Some?
    ensures Clean(net, NamespaceOps(c.gen, bridge)(n))
    ensures InStep(c, ApplyAll(l, NamespaceChecks(lib)(n)).value, RunOps(net, NamespaceOps(c.gen, bridge)(n)), earlier)
  {
    NamespaceChecked(lib, l, n);
    GeneratedNamesFree(c, l.devices, bridge, n.name, net);
    NamespaceRuns(c.gen, bridge, n, net);
    HostEndTracks(c, l.devices, bridge, n.name, net, RunOps(net, NamespaceOps(c.gen, bridge)(n)));
  }

  lemma {:induction false} NamespacesSound(lib: Library, c: Scope, l: Ledger, bridge: string, ns: seq<Namespace>,
                                           net: Net, earlier: set<string>)
    requires InScope(c) && InStep(c, l, net, earlier)
    requires forall n :: n in ns ==> (bridge, n.name) in c.pairs
    requires ApplyAll(l, Flat(NamespaceChecks(lib), ns)).Some?
    ensures Clean(net, Flat(NamespaceOps(c.gen, bridge), ns))
    ensures InStep(c, ApplyAll(l, Flat(NamespaceChecks(lib), ns)).value, RunOps(net, Flat(NamespaceOps(c.gen, bridge), ns)), earlier)
    decreases |ns|
  {
    if ns != [] {
      var init, n := ns[..|ns| - 1], ns[|ns| - 1];
      ApplyConcat(l, Flat(NamespaceChecks(lib), init), NamespaceChecks(lib)(n));
      NamespacesSound(lib, c, l, bridge, init, net, earlier);
      NamespaceSound(lib, c, ApplyAll(l, Flat(NamespaceChecks(lib), init)).value, bridge, n,
                     RunOps(net, Flat(NamespaceOps(c.gen, bridge), init)), earlier);
      RunConcat(net, Flat(NamespaceOps(c.gen, bridge), init), NamespaceOps(c.gen, bridge)(n));
    }
  }

  /** What is made for a bridge once it exists. */
  function BridgeBodyOps(gen: Generator, b: Bridge): seq<Op> {
    Flat(PortOps(b.name), b.interfaces) + Flat(VXLANOps(b.name), b.vxlans) + Flat(NamespaceOps(gen, b.name), b.namespaces)
  }

  lemma BridgeBodySound(lib: Library, c: Scope, l: Ledger, l2: Ledger, b: Bridge, net: Net, earlier: set<string>)
    requires InScope(c) && InStep(c, l, net, earlier)
    requires b.name in c.user
    requires forall v :: v in b.vxlans ==> v.name in c.user
    requires forall n :: n in b.namespaces ==> (b.name, n.name) in c.pairs
    requires ApplyAll(l, Flat(PortCheck(b.name), b.interfaces)).Some?
    requires var l1 := ApplyAll(l, Flat(PortCheck(b.name), b.interfaces)).value;
             ApplyAll(l1, Flat(VXLANChecks(lib, b.name), b.vxlans)) == Some(l2)
    requires ApplyAll(l2, Flat(NamespaceChecks(lib), b.namespaces)).Some?
    ensures var net' := RunOps(net, BridgeBodyOps(c.gen, b));
            var l' := ApplyAll(l2, Flat(NamespaceChecks(lib), b.namespaces)).value;
            Clean(net, BridgeBodyOps(c.gen, b)) && InStep(c, l', net', earlier)
  {
    var ports, vxlans := Flat(PortOps(b.name), b.interfaces), Flat(VXLANOps(b.name), b.vxlans);
    PortsTouchNothing(l, b.name, b.interfaces, net);
    RunConcat(net, ports, vxlans);
    var l1 := ApplyAll(l, Flat(PortCheck(b.name), b.interfaces)).value;
    VXLANsSound(lib, c, l1, b.name, b.vxlans, net);
    RunConcat(net, ports + vxlans, Flat(NamespaceOps(c.gen, b.name), b.namespaces));
    NamespacesSound(lib, c, l2, b.name, b.namespaces, RunOps(net, vxlans), earlier);
  }

  lemma BridgeHeadSound(lib: Library, c: Scope, l: Ledger, b: Bridge, net: Net)
    requires InScope(c) && Tracks(c, l.devices, net) && b.name in c.user
    requires ApplyAll(l, BridgeHead(lib, b)).Some?
    ensures var ops := [Create(b.name)] + MasterOps(b.name, b.master);
            var l' := ApplyAll(l, BridgeHead(lib, b)).value;
            && Clean(net, ops) && RunOps(net, ops).spaces == net.spaces && l'.spaces == l.spaces
            && Tracks(c, l'.devices, RunOps(net, ops))
  {
    ClaimTracks(c, l, Require(!Blank(b.name) && AttrsOk(lib, b.attrs)), b.name, b.master, net);
    MastersAreClean(RunOps(net, [Create(b.name)]), MasterOps(b.name, b.master));
    RunConcat(net, [Create(b.name)], MasterOps(b.name, b.master));
  }

  function BridgeHead(lib: Library, b: Bridge): seq<Check> {
    [Require(!Blank(b.name) && AttrsOk(lib, b.attrs)), TakeDevice(b.name), AssignMaster(b.name, b.master)]
  }

  lemma Regroup(a: seq<Op>, b: seq<Op>, c: seq<Op>, d: seq<Op>, e: seq<Op>)
    ensures a + b + c + d + e == (a + b) + (c + d + e)
  {
  }

  lemma BridgeSound(lib: Library, c: Scope, l: Ledger, b: Bridge, net: Net, earlier: set<string>)
    requires InScope(c) && InStep(c, l, net, earlier)
    requires b.name in c.user
    requires forall v :: v in b.vxlans ==> v.name in c.user
    requires forall n :: n in b.namespaces ==> (b.name, n.name) in c.pairs
    requires ApplyAll(l, BridgeChecks(lib)(b)).Some?
    ensures var net' := RunOps(net, BridgeOps(c.gen)(b));
            var l' := ApplyAll(l, BridgeChecks(lib)(b)).value;
            Clean(net, BridgeOps(c.gen)(b)) && InStep(c, l', net', earlier)
  {
    var ports, vxlans := Flat(PortCheck(b.name), b.interfaces), Flat(VXLANChecks(lib, b.name), b.vxlans);
    var checks := BridgeHead(lib, b);
    FourParts(l, checks, ports, vxlans, Flat(NamespaceChecks(lib), b.namespaces));
    BridgeHeadSound(lib, c, l, b, net);
    var head, body := [Create(b.name)] + MasterOps(b.name, b.master), BridgeBodyOps(c.gen, b);
    var l1 := ApplyAll(l, checks).value;
    var l3 := ApplyAll(ApplyAll(l1, ports).value, vxlans).value;
    BridgeBodySound(lib, c, l1, l3, b, RunOps(net, head), earlier);
    RunConcat(net, head, body);
    Regroup([Create(b.name)], MasterOps(b.name, b.master), Flat(PortOps(b.name), b.interfaces),
            Flat(VXLANOps(b.name), b.vxlans), Flat(NamespaceOps(c.gen, b.name), b.namespaces));
  }

  lemma {:induction false} BridgesSound(lib: Library, c: Scope, l: Ledger, bridges: seq<Bridge>, net: Net, earlier: set<string>)
    requires InScope(c) && InStep(c, l, net, earlier)
    requires forall b :: b in bridges ==> b.name in c.user
    requires forall b, v :: b in bridges && v in b.vxlans ==> v.name in c.user
    requires forall b, n :: b in bridges && n in b.namespaces ==> (b.name, n.name) in c.pairs
    requires ApplyAll(l, Flat(BridgeChecks(lib), bridges)).Some?
    ensures var net' := RunOps(net, Flat(BridgeOps(c.gen), bridges));
            var l' := ApplyAll(l, Flat(BridgeChecks(lib), bridges)).value;
            Clean(net, Flat(BridgeOps(c.gen), bridges)) && InStep(c, l', net', earlier)
    decreases |bridges|
  {
    if bridges != [] {
      var init, b := bridges[..|bridges| - 1], bridges[|bridges| - 1];
      ApplyConcat(l, Flat(BridgeChecks(lib), init), BridgeChecks(lib)(b));
      BridgesSound(lib, c, l, init, net, earlier);
      BridgeSound(lib, c, ApplyAll(l, Flat(BridgeChecks(lib), init)).value, b, RunOps(net, Flat(BridgeOps(c.gen), init)), earlier);
      RunConcat(net, Flat(BridgeOps(c.gen), init), BridgeOps(c.gen)(b));
    }
  }

  lemma PairTracks(c: Scope, l: Ledger, name: string, peer: string, net: Net)
    requires InScope(c) && Tracks(c, l.devices, net) && name in c.user && peer in c.user
    requires ApplyAll(l, [TakeDevice(name), TakeDevice(peer)]).Some?
    ensures Clean(net, [CreatePair(name, peer)])
    ensures RunOps(net, [CreatePair(name, peer)]) == After(net, CreatePair(name, peer))
    ensures Tracks(c, ApplyAll(l, [TakeDevice(name), TakeDevice(peer)]).value.devices, After(net, CreatePair(name, peer)))
    ensures TrimSpace(peer) != "lo"
  {
    Two(l, TakeDevice(name), TakeDevice(peer));
    OneOp(net, CreatePair(name, peer));
    var net1 := After(net, CreatePair(name, peer));
    forall x | x in net1.main && x !in c.user ensures IsHostEnd(c, net1, x) {
      assert IsHostEnd(c, net, x);
    }
  }

  /** A peer that has moved leaves its name behind for others. */
  lemma LeavingTracks(c: Scope, devices: set<string>, net: Net, peer: string, space: string, links: set<string>)
    requires InScope(c) && Tracks(c, devices, net) && peer in net.main && peer in c.user && TrimSpace(peer) != "lo"
    ensures Tracks(c, devices - {TrimSpace(peer)}, Net(net.main - {peer}, net.spaces[space := links]))
  {
    var net' := Net(net.main - {peer}, net.spaces[space := links]);
    forall x | x in net'.main && x !in c.user ensures IsHostEnd(c, net', x) {
      assert IsHostEnd(c, net, x);
      var p :| p in c.pairs && x == c.gen.host(p.0, p.1) && p.1 in net.spaces;
      assert p.1 in net'.spaces;
    }
  }

  /** A veth pair and its master: both names are free. */
  lemma VethPairSound(c: Scope, l: Ledger, v: Veth, net: Net)
    requires InScope(c) && Tracks(c, l.devices, net) && v.name in c.user && v.peer in c.user
    requires ApplyAll(l, [TakeDevice(v.name), TakeDevice(v.peer)]).Some?
    ensures var ops := [CreatePair(v.name, v.peer)] + MasterOps(v.name, v.master);
            && Clean(net, ops) && RunOps(net, ops) == After(net, CreatePair(v.name, v.peer))
            && Tracks(c, ApplyAll(l, [TakeDevice(v.name), TakeDevice(v.peer)]).value.devices, RunOps(net, ops))
    ensures TrimSpace(v.peer) != "lo"
  {
    PairTracks(c, l, v.name, v.peer, net);
    MastersAreClean(After(net, CreatePair(v.name, v.peer)), MasterOps(v.name, v.master));
    RunConcat(net, [CreatePair(v.name, v.peer)], MasterOps(v.name, v.master));
  }

  /** A peer that leaves for a namespace frees its name. */
  lemma VethPeerSound(c: Scope, l: Ledger, peer: string, n: Namespace, net: Net)
    requires InScope(c) && Tracks(c, l.devices, net) && peer in net.main && peer in c.user && TrimSpace(peer) != "lo"
    requires n.name !in net.spaces && n.ifName != "lo"
    ensures var net' := RunOps(net, PeerOps(peer, n));
            && Clean(net, PeerOps(peer, n)) && net'.spaces.Keys == net.spaces.Keys + {n.name}
            && ApplyAll(l, [FreeDevice(peer)]).Some? && Tracks(c, ApplyAll(l, [FreeDevice(peer)]).value.devices, net')
  {
    One(l, FreeDevice(peer));
    TrimmedLo();
    PeerMoves(net, peer, n);
    LeavingTracks(c, l.devices, net, peer, n.name, {"lo", n.ifName});
  }

  /** A veth entry as a whole. */
  lemma VethSound(lib: Library, c: Scope, claims: Ledger, l: Ledger, v: Veth, net: Net)
    requires InScope(c) && Tracks(c, l.devices, net)
    requires v.name in c.user && v.peer in c.user
    requires ApplyAll(claims, VethChecks(lib)(v)).Some? && ApplyAll(l, VethDeviceChecks(v)).Some?
    requires v.namespace.Some? ==> v.namespace.value.name !in net.spaces
    ensures var net' := RunOps(net, VethOps(v));
            && Clean(net, VethOps(v)) && Tracks(c, ApplyAll(l, VethDeviceChecks(v)).value.devices, net')
            && net'.spaces.Keys == net.spaces.Keys + if v.namespace.Some? then {v.namespace.value.name} else {}
  {
    var take := [TakeDevice(v.name), TakeDevice(v.peer)];
    var pair := [CreatePair(v.name, v.peer)] + MasterOps(v.name, v.master);
    if v.namespace.Some? {
      var n := v.namespace.value;
      ApplyConcat(l, take, [FreeDevice(v.peer)]);
      VethPairSound(c, l, v, net);
      VethNamespaceOk(lib, claims, v);
      VethPeerSound(c, ApplyAll(l, take).value, v.peer, n, RunOps(net, pair));
      RunConcat(net, pair, PeerOps(v.peer, n));
    } else {
      assert take + [] == take && pair + [] == pair;
      VethPairSound(c, l, v, net);
    }
  }

  lemma TrimmedLo()
    ensures TrimSpace("lo") == "lo"
  {
    TrimSpaceId("lo");
  }

  lemma VethNamespaceOk(lib: Library, l: Ledger, v: Veth)
    requires v.namespace.Some? && ApplyAll(l, VethChecks(lib)(v)).Some?
    ensures var n := v.namespace.value;
            n.ifName != "lo" && n.name !in l.spaces && n.name in ApplyAll(l, VethChecks(lib)(v)).value.spaces
  {
    var n := v.namespace.value;
    var first := [Require(VethOk(lib, v)), UsePeer(v.peer), AssignMaster(v.name, v.master)];
    ApplyConcat(l, first, NamespaceChecks(lib)(n));
    SpacesUntouched(l, first);
    Two(ApplyAll(l, first).value, Require(NamespaceOk(lib, n)), UseSpace(n.name));
  }

  /** `claims` replays the first pass over the veths, `l` the second; `taken` are the bridges' namespaces. */
  lemma {:induction false} VethsSound(lib: Library, c: Scope, claims: Ledger, l: Ledger, veths: seq<Veth>, net: Net, taken: set<string>)
    requires InScope(c) && Tracks(c, l.devices, net) && net.spaces.Keys <= taken
    requires forall v :: v in veths ==> v.name in c.user && v.peer in c.user
    requires ApplyAll(claims, Flat(VethChecks(lib), veths)).Some? && ApplyAll(l, Flat(VethDeviceChecks, veths)).Some?
    requires taken !! ApplyAll(claims, Flat(VethChecks(lib), veths)).value.spaces
    ensures var net' := RunOps(net, Flat(VethOps, veths));
            && Clean(net, Flat(VethOps, veths))
            && net'.spaces.Keys <= taken + ApplyAll(claims, Flat(VethChecks(lib), veths)).value.spaces
            && Tracks(c, ApplyAll(l, Flat(VethDeviceChecks, veths)).value.devices, net')
    decreases |veths|
  {
    if veths != [] {
      var init, v := veths[..|veths| - 1], veths[|veths| - 1];
      ApplyConcat(claims, Flat(VethChecks(lib), init), VethChecks(lib)(v));
      ApplyConcat(l, Flat(VethDeviceChecks, init), VethDeviceChecks(v));
      var claims1 := ApplyAll(claims, Flat(VethChecks(lib), init)).value;
      SpacesGrow(claims1, VethChecks(lib)(v));
      VethsSound(lib, c, claims, l, init, net, taken);
      if v.namespace.Some? {
        VethNamespaceOk(lib, claims1, v);
      }
      VethSound(lib, c, claims1, ApplyAll(l, Flat(VethDeviceChecks, init)).value, v, RunOps(net, Flat(VethOps, init)));
      RunConcat(net, Flat(VethOps, init), VethOps(v));
    }
  }

  // ---------------------------------------------------------------------------
  // The section as a whole.

  lemma InterfacesKeepDevices(lib: Library, l: Ledger, ifaces: seq<Interface>)
    requires ApplyAll(l, Flat(InterfaceChecks(lib), ifaces)).Some?
    ensures ApplyAll(l, Flat(InterfaceChecks(lib), ifaces)).value.devices == l.devices
  {
    FlatTouchesNoDevice(InterfaceChecks(lib), ifaces);
    DevicesUntouched(l, Flat(InterfaceChecks(lib), ifaces));
  }

  /** The first pass over the veths claims no device. */
  lemma VethChecksKeepDevices(lib: Library, l: Ledger, veths: seq<Veth>)
    requires ApplyAll(l, Flat(VethChecks(lib), veths)).Some?
    ensures ApplyAll(l, Flat(VethChecks(lib), veths)).value.devices == l.devices
  {
    forall v: Veth, i | 0 <= i < |VethChecks(lib)(v)| ensures !IsDeviceCheck(VethChecks(lib)(v)[i]) {
      if i >= 3 {
        assert VethChecks(lib)(v)[i] == NamespaceChecks(lib)(v.namespace.value)[i - 3];
      }
    }
    FlatTouchesNoDevice(VethChecks(lib), veths);
    DevicesUntouched(l, Flat(VethChecks(lib), veths));
  }

  lemma {:induction false} RoutesKeepLedger(lib: Library, l: Ledger, routes: seq<Route>)
    requires ApplyAll(l, Flat(RouteChecks(lib), routes)).Some?
    ensures ApplyAll(l, Flat(RouteChecks(lib), routes)) == Some(l)
    decreases |routes|
  {
    if routes != [] {
      var init, r := routes[..|routes| - 1], routes[|routes| - 1];
      ApplyConcat(l, Flat(RouteChecks(lib), init), RouteChecks(lib)(r));
      RoutesKeepLedger(lib, l, init);
      One(l, Require(RouteOk(lib, r)));
    }
  }

  /** The ledgers of an accepted section, between its lists. */
  lemma AcceptedStages(lib: Library, s: Section, linkDevices: set<string>)
    returns (l1: Ledger, l2: Ledger, l3: Ledger, l4: Ledger, l6: Ledger)
    requires Accepted(lib, s, linkDevices)
    ensures ApplyAll(Opening(linkDevices), Flat(VRFChecks, s.vrfs)) == Some(l1)
    ensures ApplyAll(l1, Flat(BondChecks(lib), s.bonds)) == Some(l2)
    ensures ApplyAll(l2, Flat(InterfaceChecks(lib), s.interfaces)) == Some(l3)
    ensures ApplyAll(l3, Flat(VethChecks(lib), s.veths)) == Some(l4)
    ensures ApplyAll(l4, Flat(BridgeChecks(lib), s.bridges)) == Some(l6)
    ensures ApplyAll(l6, Flat(VethDeviceChecks, s.veths)).Some?
  {
    var c1 := Flat(VRFChecks, s.vrfs);
    var c2 := c1 + Flat(BondChecks(lib), s.bonds);
    var c3 := c2 + Flat(InterfaceChecks(lib), s.interfaces);
    var c4 := c3 + Flat(VethChecks(lib), s.veths);
    var c5 := c4 + Flat(RouteChecks(lib), s.routes);
    var c6 := c5 + Flat(BridgeChecks(lib), s.bridges);
    var start := Opening(linkDevices);
    ApplyConcat(start, c6, Flat(VethDeviceChecks, s.veths));
    ApplyConcat(start, c5, Flat(BridgeChecks(lib), s.bridges));
    ApplyConcat(start, c4, Flat(RouteChecks(lib), s.routes));
    ApplyConcat(start, c3, Flat(VethChecks(lib), s.veths));
    ApplyConcat(start, c2, Flat(InterfaceChecks(lib), s.interfaces));
    ApplyConcat(start, c1, Flat(BondChecks(lib), s.bonds));
    l1 := ApplyAll(start, c1).value;
    l2 := ApplyAll(start, c2).value;
    l3 := ApplyAll(start, c3).value;
    l4 := ApplyAll(start, c4).value;
    RoutesKeepLedger(lib, l4, s.routes);
    l6 := ApplyAll(start, c6).value;
  }

  /** Bonds' own masters and interface masters, between the bridges and the veths. */
  lemma LateMastersClean(s: Section, net: Net)
    ensures Clean(net, Flat(BondMasterOps, s.bonds)) && RunOps(net, Flat(BondMasterOps, s.bonds)) == net
    ensures Clean(net, Flat(InterfaceOps, s.interfaces)) && RunOps(net, Flat(InterfaceOps, s.interfaces)) == net
  {
    FlatMastersAreMasters(BondMasterOps, s.bonds);
    MastersAreClean(net, Flat(BondMasterOps, s.bonds));
    FlatMastersAreMasters(InterfaceOps, s.interfaces);
    MastersAreClean(net, Flat(InterfaceOps, s.interfaces));
  }

  /** Every name the section's lists use is in scope. */
  ghost predicate Covers(c: Scope, s: Section, linkDevices: set<string>) {
    && InScope(c) && linkDevices <= c.user
    && (forall v :: v in s.vrfs ==> v.name in c.user)
    && (forall b :: b in s.bonds ==> b.name in c.user)
    && (forall b :: b in s.bridges ==> b.name in c.user)
    && (forall b, v :: b in s.bridges && v in b.vxlans ==> v.name in c.user)
    && (forall b, n :: b in s.bridges && n in b.namespaces ==> (b.name, n.name) in c.pairs)
    && (forall v :: v in s.veths ==> v.name in c.user && v.peer in c.user)
  }

  lemma UserNamesCover(s: Section, linkDevices: set<string>, gen: Generator)
    requires Fresh(gen, Pairs(s), UserNames(s, linkDevices))
    ensures Covers(Scope(gen, Pairs(s), UserNames(s, linkDevices)), s, linkDevices)
  {
  }

  lemma StartTracks(c: Scope, linkDevices: set<string>)
    requires InScope(c) && linkDevices <= c.user && forall x :: x in linkDevices ==> TrimSpace(x) == x
    ensures Tracks(c, {"lo"} + linkDevices, Net({"lo"} + linkDevices, map[]))
  {
    TrimmedLo();
  }

  /** Up to the last bridge. */
  lemma FirstHalfClean(lib: Library, s: Section, linkDevices: set<string>, c: Scope, net: Net,
                       l1: Ledger, l2: Ledger, l4: Ledger, l6: Ledger)
    requires Covers(c, s, linkDevices) && Tracks(c, Opening(linkDevices).devices, net) && net.spaces == map[]
    requires ApplyAll(Opening(linkDevices), Flat(VRFChecks, s.vrfs)) == Some(l1)
    requires ApplyAll(l1, Flat(BondChecks(lib), s.bonds)) == Some(l2) && l4.devices == l2.devices
    requires ApplyAll(l4, Flat(BridgeChecks(lib), s.bridges)) == Some(l6)
    ensures var ops := Flat(VRFOps, s.vrfs) + Flat(BondOps, s.bonds) + Flat(BridgeOps(c.gen), s.bridges);
            && Clean(net, ops) && Tracks(c, l6.devices, RunOps(net, ops))
            && RunOps(net, ops).spaces.Keys <= l6.spaces - l4.spaces
  {
    var p1 := Flat(VRFOps, s.vrfs);
    var p2 := p1 + Flat(BondOps, s.bonds);
    VRFsSound(c, Opening(linkDevices), s.vrfs, net);
    BondsSound(lib, c, l1, s.bonds, RunOps(net, p1));
    RunConcat(net, p1, Flat(BondOps, s.bonds));
    BridgesSound(lib, c, l4, s.bridges, RunOps(net, p2), l4.spaces);
    RunConcat(net, p2, Flat(BridgeOps(c.gen), s.bridges));
  }

  /** From the bonds' own masters to the end. */
  lemma SecondHalfClean(lib: Library, s: Section, c: Scope, net: Net, l3: Ledger, l6: Ledger, taken: set<string>)
    requires InScope(c) && Tracks(c, l6.devices, net) && net.spaces.Keys <= taken
    requires forall v :: v in s.veths ==> v.name in c.user && v.peer in c.user
    requires ApplyAll(l3, Flat(VethChecks(lib), s.veths)).Some? && ApplyAll(l6, Flat(VethDeviceChecks, s.veths)).Some?
    requires taken !! ApplyAll(l3, Flat(VethChecks(lib), s.veths)).value.spaces
    ensures Clean(net, Flat(BondMasterOps, s.bonds) + Flat(InterfaceOps, s.interfaces) + Flat(VethOps, s.veths))
  {
    var bonds, ifaces := Flat(BondMasterOps, s.bonds), Flat(InterfaceOps, s.interfaces);
    LateMastersClean(s, net);
    RunConcat(net, bonds, ifaces);
    VethsSound(lib, c, l3, l6, s.veths, net, taken);
    RunConcat(net, bonds + ifaces, Flat(VethOps, s.veths));
  }

  lemma ProgramHalves(gen: Generator, s: Section)
    ensures Program(gen, s) ==
            (Flat(VRFOps, s.vrfs) + Flat(BondOps, s.bonds) + Flat(BridgeOps(gen), s.bridges))
            + (Flat(BondMasterOps, s.bonds) + Flat(InterfaceOps, s.interfaces) + Flat(VethOps, s.veths))
  {
  }

  /**
   * From the loopback and the router's link interfaces, the program of an accepted
   * section meets no taken name at any of its steps.
   */
  lemma AcceptedSectionsAreClean(lib: Library, s: Section, linkDevices: set<string>, gen: Generator)
    requires Accepted(lib, s, linkDevices)
    requires forall x :: x in linkDevices ==> TrimSpace(x) == x
    requires Fresh(gen, Pairs(s), UserNames(s, linkDevices))
    ensures Clean(Net({"lo"} + linkDevices, map[]), Program(gen, s))
  {
    var c := Scope(gen, Pairs(s), UserNames(s, linkDevices));
    UserNamesCover(s, linkDevices, gen);
    CoveredSectionsAreClean(lib, s, linkDevices, c);
  }

  lemma CoveredSectionsAreClean(lib: Library, s: Section, linkDevices: set<string>, c: Scope)
    requires Accepted(lib, s, linkDevices) && Covers(c, s, linkDevices)
    requires forall x :: x in linkDevices ==> TrimSpace(x) == x
    ensures Clean(Net({"lo"} + linkDevices, map[]), Program(c.gen, s))
  {
    var net := Net({"lo"} + linkDevices, map[]);
    var l1, l2, l3, l4, l6 := AcceptedStages(lib, s, linkDevices);
    InterfacesKeepDevices(lib, l2, s.interfaces);
    VethChecksKeepDevices(lib, l3, s.veths);
    StartTracks(c, linkDevices);
    FirstHalfClean(lib, s, linkDevices, c, net, l1, l2, l4, l6);
    var first := Flat(VRFOps, s.vrfs) + Flat(BondOps, s.bonds) + Flat(BridgeOps(c.gen), s.bridges);
    SecondHalfClean(lib, s, c, RunOps(net, first), l3, l6, l6.spaces - l4.spaces);
    ProgramHalves(c.gen, s);
    RunConcat(net, first, Flat(BondMasterOps, s.bonds) + Flat(InterfaceOps, s.interfaces) + Flat(VethOps, s.veths));
  }

  /** Cleanliness of a program is cleanliness of every beginning of it. */
  lemma {:induction false} CleanPrefix(net: Net, ops: seq<Op>, k: nat)
    requires k <= |ops| && Clean(net, ops)
    ensures Clean(net, ops[..k])
    ensures k < |ops| ==> !Collides(RunOps(net, ops[..k]), ops[k])
  {
    Cut(ops, k);
    RunConcat(net, ops[..k], ops[k..]);
    if k < |ops| {
      var next := ops[..k + 1];
      Cut(ops, k + 1);
      RunConcat(net, next, ops[k + 1..]);
      assert next[..|next| - 1] == ops[..k] && next[|next| - 1] == ops[k];
    }
  }
}
