/**
 * The Linux section of a router (internal/config/config.go) and `validateLinux`,
 * which replays the creation of its devices on paper before anything is touched.
 */
module Linux {
  import opened Options
  import opened Strings
  import opened Sequences

  datatype Attrs = Attrs(mac: string, addrGenMode: string, addresses: seq<string>)

  datatype VRF = VRF(name: string, table: int)

  datatype Bond = Bond(name: string, mode: string, master: string, attrs: Attrs, interfaces: seq<string>)

  datatype Interface = Interface(name: string, master: string, attrs: Attrs)

  datatype Namespace = Namespace(name: string, ifName: string, mac: string, addresses: seq<string>, defaultVia: string)

  datatype Veth = Veth(name: string, peer: string, master: string, attrs: Attrs, namespace: Option<Namespace>)

  datatype Route = Route(to: string, via: string, dev: string)

  datatype VXLAN = VXLAN(name: string, vni: int, local: string, dstPort: int, addrGenMode: string)

  datatype Bridge = Bridge(
    name: string, master: string, attrs: Attrs,
    interfaces: seq<string>, vxlans: seq<VXLAN>, namespaces: seq<Namespace>)

  datatype Section = Section(
    vrfs: seq<VRF>, bonds: seq<Bond>, interfaces: seq<Interface>,
    veths: seq<Veth>, routes: seq<Route>, bridges: seq<Bridge>)

  /** What Go's net package parses. */
  datatype Library = Library(cidr: string -> bool, ip: string -> bool, mac: string -> bool)

  const BOND_MODES := {"balance-rr", "active-backup", "balance-xor", "broadcast", "802.3ad", "balance-tlb", "balance-alb"}
  const ADDR_GEN_MODES := {"eui64", "none", "stable_secret", "random"}

  // ---------------------------------------------------------------------------
  // Field checks.

  predicate AddrGenModeOk(mode: string) {
    Blank(mode) || mode in ADDR_GEN_MODES
  }

  predicate AttrsOk(lib: Library, a: Attrs) {
    && (a.mac != "" ==> lib.mac(a.mac))
    && AddrGenModeOk(a.addrGenMode)
    && forall i :: 0 <= i < |a.addresses| ==> lib.cidr(a.addresses[i])
  }

  predicate VRFOk(v: VRF) {
    !Blank(v.name) && 0 < v.table <= 0xFFFF_FFFF
  }

  predicate BondOk(lib: Library, b: Bond) {
    !Blank(b.name) && !Blank(b.mode) && b.mode in BOND_MODES && AttrsOk(lib, b.attrs)
  }

  predicate NamespaceOk(lib: Library, n: Namespace) {
    && !Blank(n.name) && !Blank(n.ifName) && n.ifName != "lo"
    && AttrsOk(lib, Attrs(n.mac, "", n.addresses))
    && (n.defaultVia != "" ==> lib.ip(n.defaultVia))
  }

  predicate VethOk(lib: Library, v: Veth) {
    !Blank(v.name) && !Blank(v.peer) && v.name != v.peer && AttrsOk(lib, v.attrs)
  }

  predicate RouteOk(lib: Library, r: Route) {
    && !Blank(r.to) && lib.cidr(r.to)
    && !(Blank(r.via) && Blank(r.dev))
    && (r.via != "" ==> lib.ip(r.via))
  }

  predicate VXLANOk(lib: Library, v: VXLAN) {
    && !Blank(v.name) && 0 < v.vni <= 16777215
    && (v.local != "" ==> lib.ip(v.local))
    && 0 <= v.dstPort <= 65535 && AddrGenModeOk(v.addrGenMode)
  }

  // ---------------------------------------------------------------------------
  // The checks a section goes through, in order, and the ledger they are held against.

  datatype Check =
    | Require(holds: bool)
    | TakeDevice(name: string)
    | FreeDevice(name: string)
    | AssignMaster(link: string, master: string)
    | UseInterface(name: string)
    | UsePeer(name: string)
    | UseSpace(name: string)

  datatype Ledger = Ledger(
    devices: set<string>, masters: map<string, string>,
    interfaces: set<string>, peers: set<string>, spaces: set<string>)

  function Apply(l: Ledger, c: Check): Option<Ledger> {
    match c
    case Require(holds) => if holds then Some(l) else None
    case TakeDevice(name) =>
      if TrimSpace(name) in l.devices then None else Some(l.(devices := l.devices + {TrimSpace(name)}))
    case FreeDevice(name) => Some(l.(devices := l.devices - {TrimSpace(name)}))
    case AssignMaster(link, master) =>
      if Blank(link) || Blank(master) then Some(l)
      else if TrimSpace(link) in l.masters then None
      else Some(l.(masters := l.masters[TrimSpace(link) := TrimSpace(master)]))
    case UseInterface(name) =>
      if name in l.interfaces then None else Some(l.(interfaces := l.interfaces + {name}))
    case UsePeer(name) => if name in l.peers then None else Some(l.(peers := l.peers + {name}))
    case UseSpace(name) => if name in l.spaces then None else Some(l.(spaces := l.spaces + {name}))
  }

  function ApplyAll(l: Ledger, cs: seq<Check>): Option<Ledger> {
    if cs == [] then Some(l)
    else
      var before := ApplyAll(l, cs[..|cs| - 1]);
      if before.Some? then Apply(before.value, cs[|cs| - 1]) else None
  }

  lemma {:induction false} ApplyConcat(l: Ledger, a: seq<Check>, b: seq<Check>)
    ensures ApplyAll(l, a + b) == var m := ApplyAll(l, a); if m.Some? then ApplyAll(m.value, b) else None
    decreases |b|
  {
    if b == [] {
      assert a + b == a;
    } else {
      ApplyConcat(l, a, b[..|b| - 1]);
      assert (a + b)[..|a + b| - 1] == a + b[..|b| - 1];
    }
  }

  /** A list in four parts passes part by part. */
  lemma FourParts(l: Ledger, a: seq<Check>, b: seq<Check>, c: seq<Check>, d: seq<Check>)
    requires ApplyAll(l, a + b + c + d).Some?
    ensures ApplyAll(l, a).Some?
    ensures var l1 := ApplyAll(l, a).value; ApplyAll(l1, b).Some?
    ensures var l2 := ApplyAll(ApplyAll(l, a).value, b).value; ApplyAll(l2, c).Some?
    ensures var l3 := ApplyAll(ApplyAll(ApplyAll(l, a).value, b).value, c).value; ApplyAll(l3, d) == ApplyAll(l, a + b + c + d)
  {
    ApplyConcat(l, a, b);
    ApplyConcat(l, a + b, c);
    ApplyConcat(l, a + b + c, d);
  }

  function VRFChecks(v: VRF): seq<Check> {
    [Require(VRFOk(v)), TakeDevice(v.name)]
  }

  function PortCheck(owner: string): string -> seq<Check> {
    port => [Require(!Blank(port)), AssignMaster(port, owner)]
  }

  function BondChecks(lib: Library): Bond -> seq<Check> {
    (b: Bond) =>
      [Require(BondOk(lib, b)), TakeDevice(b.name), AssignMaster(b.name, b.master)]
      + Flat(PortCheck(b.name), b.interfaces)
  }

  function InterfaceChecks(lib: Library): Interface -> seq<Check> {
    (i: Interface) =>
      [Require(!Blank(i.name) && AttrsOk(lib, i.attrs)), UseInterface(i.name), AssignMaster(i.name, i.master)]
  }

  function NamespaceChecks(lib: Library): Namespace -> seq<Check> {
    (n: Namespace) => [Require(NamespaceOk(lib, n)), UseSpace(n.name)]
  }

  function VethChecks(lib: Library): Veth -> seq<Check> {
    (v: Veth) =>
      [Require(VethOk(lib, v)), UsePeer(v.peer), AssignMaster(v.name, v.master)]
      + if v.namespace.Some? then NamespaceChecks(lib)(v.namespace.value) else []
  }

  function RouteChecks(lib: Library): Route -> seq<Check> {
    (r: Route) => [Require(RouteOk(lib, r))]
  }

  function VXLANChecks(lib: Library, owner: string): VXLAN -> seq<Check> {
    (v: VXLAN) => [Require(VXLANOk(lib, v)), TakeDevice(v.name), AssignMaster(v.name, owner)]
  }

  function BridgeChecks(lib: Library): Bridge -> seq<Check> {
    (b: Bridge) =>
      [Require(!Blank(b.name) && AttrsOk(lib, b.attrs)), TakeDevice(b.name), AssignMaster(b.name, b.master)]
      + Flat(PortCheck(b.name), b.interfaces)
      + Flat(VXLANChecks(lib, b.name), b.vxlans)
      + Flat(NamespaceChecks(lib), b.namespaces)
  }

  /** The second pass over the veths replays when their devices come and go. */
  function VethDeviceChecks(v: Veth): seq<Check> {
    [TakeDevice(v.name), TakeDevice(v.peer)] + if v.namespace.Some? then [FreeDevice(v.peer)] else []
  }

  function SectionChecks(lib: Library, s: Section): seq<Check> {
    Flat(VRFChecks, s.vrfs)
    + Flat(BondChecks(lib), s.bonds)
    + Flat(InterfaceChecks(lib), s.interfaces)
    + Flat(VethChecks(lib), s.veths)
    + Flat(RouteChecks(lib), s.routes)
    + Flat(BridgeChecks(lib), s.bridges)
    + Flat(VethDeviceChecks, s.veths)
  }

  function Opening(linkDevices: set<string>): Ledger {
    Ledger({"lo"} + linkDevices, map[], {}, {}, {})
  }

  ghost predicate Accepted(lib: Library, s: Section, linkDevices: set<string>) {
    ApplyAll(Opening(linkDevices), SectionChecks(lib, s)).Some?
  }

  // ---------------------------------------------------------------------------
  // The validator.

  method ClaimLinuxDevice(l: Ledger, name: string) returns (ok: bool, l': Ledger)
    ensures ok <==> Apply(l, TakeDevice(name)).Some?
    ensures ok ==> Some(l') == Apply(l, TakeDevice(name))
  {
    l' := l;
    var trimmed := TrimSpace(name);
    if trimmed in l.devices {
      return false, l;
    }
    return true, l.(devices := l.devices + {trimmed});
  }

  method ClaimLinuxMaster(l: Ledger, linkName: string, master: string) returns (ok: bool, l': Ledger)
    ensures ok <==> Apply(l, AssignMaster(linkName, master)).Some?
    ensures ok ==> Some(l') == Apply(l, AssignMaster(linkName, master))
  {
    var link, owner := TrimSpace(linkName), TrimSpace(master);
    if link == "" || owner == "" {
      return true, l;
    }
    if link in l.masters {
      return false, l;
    }
    return true, l.(masters := l.masters[link := owner]);
  }

  method ValidateLinuxNamespace(lib: Library, l: Ledger, n: Namespace) returns (ok: bool, l': Ledger)
    ensures ok <==> ApplyAll(l, NamespaceChecks(lib)(n)).Some?
    ensures ok ==> Some(l') == ApplyAll(l, NamespaceChecks(lib)(n))
  {
    Two(l, Require(NamespaceOk(lib, n)), UseSpace(n.name));
    if Blank(n.name) || n.name in l.spaces {
      return false, l;
    }
    l' := l.(spaces := l.spaces + {n.name});
    if Blank(n.ifName) || n.ifName == "lo" || !AttrsOk(lib, Attrs(n.mac, "", n.addresses)) {
      return false, l';
    }
    if n.defaultVia != "" && !lib.ip(n.defaultVia) {
      return false, l';
    }
    return true, l';
  }

  lemma One(l: Ledger, a: Check)
    ensures ApplyAll(l, [a]) == Apply(l, a)
  {
    assert [a][..0] == [];
  }

  lemma Two(l: Ledger, a: Check, b: Check)
    ensures ApplyAll(l, [a, b]) == if Apply(l, a).Some? then Apply(Apply(l, a).value, b) else None
  {
    One(l, a);
    assert [a, b][..1] == [a];
  }

  lemma Three(l: Ledger, a: Check, b: Check, c: Check)
    ensures ApplyAll(l, [a, b, c]) ==
            var two := ApplyAll(l, [a, b]); if two.Some? then Apply(two.value, c) else None
  {
    assert [a, b, c][..2] == [a, b];
  }

  /** A list that fails part of the way fails as a whole; one that passes goes on from there. */
  lemma FlatStep<T>(l: Ledger, f: T -> seq<Check>, xs: seq<T>, i: nat)
    requires i < |xs| && ApplyAll(l, Flat(f, xs[..i])).Some?
    ensures ApplyAll(l, Flat(f, xs[..i + 1])) == ApplyAll(ApplyAll(l, Flat(f, xs[..i])).value, f(xs[i]))
    ensures ApplyAll(l, Flat(f, xs[..i + 1])).None? ==> ApplyAll(l, Flat(f, xs)).None?
  {
    FlatNext(f, xs, i);
    ApplyConcat(l, Flat(f, xs[..i]), f(xs[i]));
    FlatSplit(f, xs, i + 1);
    ApplyConcat(l, Flat(f, xs[..i + 1]), Flat(f, xs[i + 1..]));
  }

  method ValidatePorts(l: Ledger, owner: string, ports: seq<string>) returns (ok: bool, l': Ledger)
    ensures ok <==> ApplyAll(l, Flat(PortCheck(owner), ports)).Some?
    ensures ok ==> Some(l') == ApplyAll(l, Flat(PortCheck(owner), ports))
  {
    l' := l;
    for i := 0 to |ports|
      invariant ApplyAll(l, Flat(PortCheck(owner), ports[..i])) == Some(l')
    {
      FlatStep(l, PortCheck(owner), ports, i);
      Two(l', Require(!Blank(ports[i])), AssignMaster(ports[i], owner));
      if Blank(ports[i]) {
        return false, l';
      }
      ok, l' := ClaimLinuxMaster(l', ports[i], owner);
      if !ok {
        return;
      }
    }
    assert ports[..|ports|] == ports;
    ok := true;
  }

  method ValidateVRFs(l: Ledger, vrfs: seq<VRF>) returns (ok: bool, l': Ledger)
    ensures ok <==> ApplyAll(l, Flat(VRFChecks, vrfs)).Some?
    ensures ok ==> Some(l') == ApplyAll(l, Flat(VRFChecks, vrfs))
  {
    l' := l;
    for i := 0 to |vrfs|
      invariant ApplyAll(l, Flat(VRFChecks, vrfs[..i])) == Some(l')
    {
      var v := vrfs[i];
      FlatStep(l, VRFChecks, vrfs, i);
      Two(l', Require(VRFOk(v)), TakeDevice(v.name));
      if Blank(v.name) || v.table <= 0 || v.table > 0xFFFF_FFFF {
        return false, l';
      }
      ok, l' := ClaimLinuxDevice(l', v.name);
      if !ok {
        return;
      }
    }
    assert vrfs[..|vrfs|] == vrfs;
    ok := true;
  }

  method ValidateBond(lib: Library, l: Ledger, b: Bond) returns (ok: bool, l': Ledger)
    ensures ok <==> ApplyAll(l, BondChecks(lib)(b)).Some?
    ensures ok ==> Some(l') == ApplyAll(l, BondChecks(lib)(b))
  {
    ghost var first := [Require(BondOk(lib, b)), TakeDevice(b.name), AssignMaster(b.name, b.master)];
    ApplyConcat(l, first, Flat(PortCheck(b.name), b.interfaces));
    Two(l, Require(BondOk(lib, b)), TakeDevice(b.name));
    Three(l, Require(BondOk(lib, b)), TakeDevice(b.name), AssignMaster(b.name, b.master));
    if Blank(b.name) || Blank(b.mode) || b.mode !in BOND_MODES {
      return false, l;
    }
    ok, l' := ClaimLinuxDevice(l, b.name);
    if !ok {
      return;
    }
    if !AttrsOk(lib, b.attrs) {
      return false, l';
    }
    ok, l' := ClaimLinuxMaster(l', b.name, b.master);
    if !ok {
      return;
    }
    ok, l' := ValidatePorts(l', b.name, b.interfaces);
  }

  method ValidateBonds(lib: Library, l: Ledger, bonds: seq<Bond>) returns (ok: bool, l': Ledger)
    ensures ok <==> ApplyAll(l, Flat(BondChecks(lib), bonds)).Some?
    ensures ok ==> Some(l') == ApplyAll(l, Flat(BondChecks(lib), bonds))
  {
    l' := l;
    for i := 0 to |bonds|
      invariant ApplyAll(l, Flat(BondChecks(lib), bonds[..i])) == Some(l')
    {
      FlatStep(l, BondChecks(lib), bonds, i);
      ok, l' := ValidateBond(lib, l', bonds[i]);
      if !ok {
        return;
      }
    }
    assert bonds[..|bonds|] == bonds;
    ok := true;
  }

  method ValidateInterface(lib: Library, l: Ledger, i: Interface) returns (ok: bool, l': Ledger)
    ensures ok <==> ApplyAll(l, InterfaceChecks(lib)(i)).Some?
    ensures ok ==> Some(l') == ApplyAll(l, InterfaceChecks(lib)(i))
  {
    ghost var fields := Require(!Blank(i.name) && AttrsOk(lib, i.attrs));
    Two(l, fields, UseInterface(i.name));
    Three(l, fields, UseInterface(i.name), AssignMaster(i.name, i.master));
    if Blank(i.name) || i.name in l.interfaces {
      return false, l;
    }
    l' := l.(interfaces := l.interfaces + {i.name});
    if !AttrsOk(lib, i.attrs) {
      return false, l';
    }
    ok, l' := ClaimLinuxMaster(l', i.name, i.master);
  }

  method ValidateInterfaces(lib: Library, l: Ledger, ifaces: seq<Interface>) returns (ok: bool, l': Ledger)
    ensures ok <==> ApplyAll(l, Flat(InterfaceChecks(lib), ifaces)).Some?
    ensures ok ==> Some(l') == ApplyAll(l, Flat(InterfaceChecks(lib), ifaces))
  {
    l' := l;
    for k := 0 to |ifaces|
      invariant ApplyAll(l, Flat(InterfaceChecks(lib), ifaces[..k])) == Some(l')
    {
      FlatStep(l, InterfaceChecks(lib), ifaces, k);
      ok, l' := ValidateInterface(lib, l', ifaces[k]);
      if !ok {
        return;
      }
    }
    assert ifaces[..|ifaces|] == ifaces;
    ok := true;
  }

  method ValidateVeth(lib: Library, l: Ledger, v: Veth) returns (ok: bool, l': Ledger)
    ensures ok <==> ApplyAll(l, VethChecks(lib)(v)).Some?
    ensures ok ==> Some(l') == ApplyAll(l, VethChecks(lib)(v))
  {
    ghost var first := [Require(VethOk(lib, v)), UsePeer(v.peer), AssignMaster(v.name, v.master)];
    ghost var last := if v.namespace.Some? then NamespaceChecks(lib)(v.namespace.value) else [];
    ApplyConcat(l, first, last);
    Two(l, Require(VethOk(lib, v)), UsePeer(v.peer));
    Three(l, Require(VethOk(lib, v)), UsePeer(v.peer), AssignMaster(v.name, v.master));
    if Blank(v.name) || Blank(v.peer) || v.name == v.peer || v.peer in l.peers {
      return false, l;
    }
    l' := l.(peers := l.peers + {v.peer});
    if !AttrsOk(lib, v.attrs) {
      return false, l';
    }
    ok, l' := ClaimLinuxMaster(l', v.name, v.master);
    if !ok {
      return;
    }
    if v.namespace.Some? {
      ok, l' := ValidateLinuxNamespace(lib, l', v.namespace.value);
    }
  }

  method ValidateVeths(lib: Library, l: Ledger, veths: seq<Veth>) returns (ok: bool, l': Ledger)
    ensures ok <==> ApplyAll(l, Flat(VethChecks(lib), veths)).Some?
    ensures ok ==> Some(l') == ApplyAll(l, Flat(VethChecks(lib), veths))
  {
    l' := l;
    for i := 0 to |veths|
      invariant ApplyAll(l, Flat(VethChecks(lib), veths[..i])) == Some(l')
    {
      FlatStep(l, VethChecks(lib), veths, i);
      ok, l' := ValidateVeth(lib, l', veths[i]);
      if !ok {
        return;
      }
    }
    assert veths[..|veths|] == veths;
    ok := true;
  }

  method ValidateRoutes(lib: Library, l: Ledger, routes: seq<Route>) returns (ok: bool)
    ensures ok <==> ApplyAll(l, Flat(RouteChecks(lib), routes)).Some?
    ensures ok ==> ApplyAll(l, Flat(RouteChecks(lib), routes)) == Some(l)
  {
    for i := 0 to |routes|
      invariant ApplyAll(l, Flat(RouteChecks(lib), routes[..i])) == Some(l)
    {
      var r := routes[i];
      FlatStep(l, RouteChecks(lib), routes, i);
      One(l, Require(RouteOk(lib, r)));
      if Blank(r.to) || !lib.cidr(r.to) || (Blank(r.via) && Blank(r.dev)) || (r.via != "" && !lib.ip(r.via)) {
        return false;
      }
    }
    assert routes[..|routes|] == routes;
    ok := true;
  }

  method ValidateVXLANs(lib: Library, l: Ledger, owner: string, vxlans: seq<VXLAN>) returns (ok: bool, l': Ledger)
    ensures ok <==> ApplyAll(l, Flat(VXLANChecks(lib, owner), vxlans)).Some?
    ensures ok ==> Some(l') == ApplyAll(l, Flat(VXLANChecks(lib, owner), vxlans))
  {
    l' := l;
    for i := 0 to |vxlans|
      invariant ApplyAll(l, Flat(VXLANChecks(lib, owner), vxlans[..i])) == Some(l')
    {
      var v := vxlans[i];
      FlatStep(l, VXLANChecks(lib, owner), vxlans, i);
      Two(l', Require(VXLANOk(lib, v)), TakeDevice(v.name));
      Three(l', Require(VXLANOk(lib, v)), TakeDevice(v.name), AssignMaster(v.name, owner));
      if Blank(v.name) {
        return false, l';
      }
      ok, l' := ClaimLinuxDevice(l', v.name);
      if !ok {
        return;
      }
      if v.vni <= 0 || v.vni > 16777215 || (v.local != "" && !lib.ip(v.local)) || v.dstPort < 0 || v.dstPort > 65535
         || !AddrGenModeOk(v.addrGenMode) {
        return false, l';
      }
      ok, l' := ClaimLinuxMaster(l', v.name, owner);
      if !ok {
        return;
      }
    }
    assert vxlans[..|vxlans|] == vxlans;
    ok := true;
  }

  method ValidateNamespaces(lib: Library, l: Ledger, ns: seq<Namespace>) returns (ok: bool, l': Ledger)
    ensures ok <==> ApplyAll(l, Flat(NamespaceChecks(lib), ns)).Some?
    ensures ok ==> Some(l') == ApplyAll(l, Flat(NamespaceChecks(lib), ns))
  {
    l' := l;
    for i := 0 to |ns|
      invariant ApplyAll(l, Flat(NamespaceChecks(lib), ns[..i])) == Some(l')
    {
      FlatStep(l, NamespaceChecks(lib), ns, i);
      ok, l' := ValidateLinuxNamespace(lib, l', ns[i]);
      if !ok {
        return;
      }
    }
    assert ns[..|ns|] == ns;
    ok := true;
  }

  method ValidateBridge(lib: Library, l: Ledger, b: Bridge) returns (ok: bool, l': Ledger)
    ensures ok <==> ApplyAll(l, BridgeChecks(lib)(b)).Some?
    ensures ok ==> Some(l') == ApplyAll(l, BridgeChecks(lib)(b))
  {
    ghost var fields := Require(!Blank(b.name) && AttrsOk(lib, b.attrs));
    ghost var first := [fields, TakeDevice(b.name), AssignMaster(b.name, b.master)];
    ghost var ports := Flat(PortCheck(b.name), b.interfaces);
    ghost var vxlans := Flat(VXLANChecks(lib, b.name), b.vxlans);
    ApplyConcat(l, first, ports);
    ApplyConcat(l, first + ports, vxlans);
    ApplyConcat(l, first + ports + vxlans, Flat(NamespaceChecks(lib), b.namespaces));
    Two(l, fields, TakeDevice(b.name));
    Three(l, fields, TakeDevice(b.name), AssignMaster(b.name, b.master));
    if Blank(b.name) {
      return false, l;
    }
    ok, l' := ClaimLinuxDevice(l, b.name);
    if !ok {
      return;
    }
    if !AttrsOk(lib, b.attrs) {
      return false, l';
    }
    ok, l' := ClaimLinuxMaster(l', b.name, b.master);
    if !ok {
      return;
    }
    ok, l' := ValidatePorts(l', b.name, b.interfaces);
    if !ok {
      return;
    }
    ok, l' := ValidateVXLANs(lib, l', b.name, b.vxlans);
    if !ok {
      return;
    }
    ok, l' := ValidateNamespaces(lib, l', b.namespaces);
  }

  method ValidateBridges(lib: Library, l: Ledger, bridges: seq<Bridge>) returns (ok: bool, l': Ledger)
    ensures ok <==> ApplyAll(l, Flat(BridgeChecks(lib), bridges)).Some?
    ensures ok ==> Some(l') == ApplyAll(l, Flat(BridgeChecks(lib), bridges))
  {
    l' := l;
    for i := 0 to |bridges|
      invariant ApplyAll(l, Flat(BridgeChecks(lib), bridges[..i])) == Some(l')
    {
      FlatStep(l, BridgeChecks(lib), bridges, i);
      ok, l' := ValidateBridge(lib, l', bridges[i]);
      if !ok {
        return;
      }
    }
    assert bridges[..|bridges|] == bridges;
    ok := true;
  }
}
