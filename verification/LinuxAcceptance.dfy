/**
 * Which sections `validateLinux` accepts (internal/config/config.go), said of the
 * section alone: what it asks for, not the order it is checked in.
 */
module LinuxAcceptance {
  import opened Options
  import opened Strings
  import opened Sequences
  import opened Linux

  // ---------------------------------------------------------------------------
  // What a section asks for.

  type Pair = (string, string)   // link, master

  /** A link given a master; with either left blank there is nothing to give. */
  function Given(link: string, master: string): seq<Pair> {
    if Blank(link) || Blank(master) then [] else [(TrimSpace(link), TrimSpace(master))]
  }

  function PortPairs(owner: string): string -> seq<Pair> {
    port => Given(port, owner)
  }

  function VXLANPairs(owner: string): VXLAN -> seq<Pair> {
    (v: VXLAN) => Given(v.name, owner)
  }

  function BondPairs(b: Bond): seq<Pair> {
    Given(b.name, b.master) + Flat(PortPairs(b.name), b.interfaces)
  }

  function InterfacePairs(i: Interface): seq<Pair> {
    Given(i.name, i.master)
  }

  function VethPairs(v: Veth): seq<Pair> {
    Given(v.name, v.master)
  }

  function BridgePairs(b: Bridge): seq<Pair> {
    Given(b.name, b.master) + Flat(PortPairs(b.name), b.interfaces) + Flat(VXLANPairs(b.name), b.vxlans)
  }

  /** Every link the section gives a master. */
  function Masters(s: Section): seq<Pair> {
    Flat(BondPairs, s.bonds) + Flat(InterfacePairs, s.interfaces) + Flat(VethPairs, s.veths) + Flat(BridgePairs, s.bridges)
  }

  function Links(ps: seq<Pair>): (r: seq<string>)
    ensures |r| == |ps| && forall i :: 0 <= i < |r| ==> r[i] == ps[i].0
  {
    seq(|ps|, i requires 0 <= i < |ps| => ps[i].0)
  }

  function InterfaceName(i: Interface): seq<string> {
    [i.name]
  }

  function VethPeer(v: Veth): seq<string> {
    [v.peer]
  }

  function SpaceName(n: Namespace): seq<string> {
    [n.name]
  }

  function VethSpace(v: Veth): seq<string> {
    if v.namespace.Some? then [v.namespace.value.name] else []
  }

  function BridgeSpaces(b: Bridge): seq<string> {
    Flat(SpaceName, b.namespaces)
  }

  /** The namespaces' names. */
  function Spaces(s: Section): seq<string> {
    Flat(VethSpace, s.veths) + Flat(BridgeSpaces, s.bridges)
  }

  /** A device made under a trimmed name, which it keeps or leaves to the next. */
  datatype Birth = Birth(name: string, stays: bool)

  function Born(name: string): Birth {
    Birth(TrimSpace(name), true)
  }

  function VRFBirth(v: VRF): seq<Birth> {
    [Born(v.name)]
  }

  function BondBirth(b: Bond): seq<Birth> {
    [Born(b.name)]
  }

  function VXLANBirth(v: VXLAN): seq<Birth> {
    [Born(v.name)]
  }

  function BridgeBirths(b: Bridge): seq<Birth> {
    [Born(b.name)] + Flat(VXLANBirth, b.vxlans)
  }

  /** A peer with a namespace moves there at once and leaves its name. */
  function VethBirths(v: Veth): seq<Birth> {
    [Born(v.name), Birth(TrimSpace(v.peer), v.namespace.None?)]
  }

  /** Every device the section makes, in the order it is made. */
  function Births(s: Section): seq<Birth> {
    Flat(VRFBirth, s.vrfs) + Flat(BondBirth, s.bonds) + Flat(BridgeBirths, s.bridges) + Flat(VethBirths, s.veths)
  }

  /** No device is made under the name of one that is there. */
  ghost predicate NeverTwice(taken: set<string>, births: seq<Birth>) {
    && (forall i :: 0 <= i < |births| ==> births[i].name !in taken)
    && (forall i, j :: 0 <= i < j < |births| && births[i].stays ==> births[i].name != births[j].name)
  }

  predicate PortsOk(ports: seq<string>) {
    forall p :: p in ports ==> !Blank(p)
  }

  predicate BondEntryOk(lib: Library, b: Bond) {
    BondOk(lib, b) && PortsOk(b.interfaces)
  }

  predicate InterfaceOk(lib: Library, i: Interface) {
    !Blank(i.name) && AttrsOk(lib, i.attrs)
  }

  predicate VethEntryOk(lib: Library, v: Veth) {
    VethOk(lib, v) && (v.namespace.Some? ==> NamespaceOk(lib, v.namespace.value))
  }

  predicate BridgeEntryOk(lib: Library, b: Bridge) {
    && !Blank(b.name) && AttrsOk(lib, b.attrs) && PortsOk(b.interfaces)
    && (forall v :: v in b.vxlans ==> VXLANOk(lib, v))
    && (forall n :: n in b.namespaces ==> NamespaceOk(lib, n))
  }

  /** Every entry's own fields are in order. */
  predicate FieldsOk(lib: Library, s: Section) {
    && (forall v :: v in s.vrfs ==> VRFOk(v))
    && (forall b :: b in s.bonds ==> BondEntryOk(lib, b))
    && (forall i :: i in s.interfaces ==> InterfaceOk(lib, i))
    && (forall v :: v in s.veths ==> VethEntryOk(lib, v))
    && (forall r :: r in s.routes ==> RouteOk(lib, r))
    && (forall b :: b in s.bridges ==> BridgeEntryOk(lib, b))
  }

  /** No link is given two masters, nothing that must be unique repeats, and no device takes a name that is there. */
  ghost predicate InOrder(lib: Library, s: Section, linkDevices: set<string>) {
    && FieldsOk(lib, s)
    && NoRepeat(Links(Masters(s)))
    && NoRepeat(Flat(InterfaceName, s.interfaces)) && NoRepeat(Flat(VethPeer, s.veths)) && NoRepeat(Spaces(s))
    && NeverTwice({"lo"} + linkDevices, Births(s))
  }

  // ---------------------------------------------------------------------------
  // What a list of checks asks of a ledger.

  datatype Demand = Demand(
    ok: bool, masters: seq<Pair>, interfaces: seq<string>, peers: seq<string>, spaces: seq<string>, births: seq<Birth>)

  const NOTHING := Demand(true, [], [], [], [], [])

  function Both(d: Demand, e: Demand): Demand {
    Demand(d.ok && e.ok, d.masters + e.masters, d.interfaces + e.interfaces, d.peers + e.peers,
           d.spaces + e.spaces, d.births + e.births)
  }

  ghost predicate Unused(used: set<string>, names: seq<string>) {
    NoRepeat(names) && forall i :: 0 <= i < |names| ==> names[i] !in used
  }

  function NamesIn(names: seq<string>): set<string> {
    set n | n in names
  }

  function Staying(births: seq<Birth>): set<string> {
    set b | b in births && b.stays :: b.name
  }

  /** The map with these links given their masters. */
  function Extend(m: map<string, string>, ps: seq<Pair>): map<string, string> {
    if ps == [] then m else Extend(m, ps[..|ps| - 1])[ps[|ps| - 1].0 := ps[|ps| - 1].1]
  }

  ghost predicate Met(l: Ledger, d: Demand) {
    && d.ok && Unmastered(l.masters, d.masters) && Unused(l.interfaces, d.interfaces)
    && Unused(l.peers, d.peers) && Unused(l.spaces, d.spaces) && NeverTwice(l.devices, d.births)
  }

  function Afterwards(l: Ledger, d: Demand): Ledger {
    Ledger(l.devices + Staying(d.births), Extend(l.masters, d.masters), l.interfaces + NamesIn(d.interfaces),
           l.peers + NamesIn(d.peers), l.spaces + NamesIn(d.spaces))
  }

  ghost predicate AsksOf(l: Ledger, cs: seq<Check>, d: Demand) {
    ApplyAll(l, cs) == if Met(l, d) then Some(Afterwards(l, d)) else None
  }

  lemma UnusedConcat(used: set<string>, a: seq<string>, b: seq<string>)
    ensures Unused(used, a + b) <==> Unused(used, a) && Unused(used + NamesIn(a), b)
  {
    var ab := a + b;
    if Unused(used, ab) {
      assert forall i :: 0 <= i < |a| ==> a[i] == ab[i];
      assert forall i :: 0 <= i < |b| ==> b[i] == ab[|a| + i];
    }
    if Unused(used, a) && Unused(used + NamesIn(a), b) {
      forall i, j | 0 <= i < j < |ab| ensures ab[i] != ab[j] {
        if i < |a| <= j {
          assert a[i] in NamesIn(a) && ab[j] == b[j - |a|];
        }
      }
    }
  }

  lemma NeverTwiceConcat(taken: set<string>, a: seq<Birth>, b: seq<Birth>)
    ensures NeverTwice(taken, a + b) <==> NeverTwice(taken, a) && NeverTwice(taken + Staying(a), b)
  {
    if NeverTwice(taken, a + b) {
      NeverTwiceSplit(taken, a, b);
    }
    if NeverTwice(taken, a) && NeverTwice(taken + Staying(a), b) {
      NeverTwiceJoin(taken, a, b);
    }
  }

  lemma NeverTwiceSplit(taken: set<string>, a: seq<Birth>, b: seq<Birth>)
    requires NeverTwice(taken, a + b)
    ensures NeverTwice(taken, a) && NeverTwice(taken + Staying(a), b)
  {
    var ab := a + b;
    assert forall i :: 0 <= i < |a| ==> a[i] == ab[i];
    assert forall i :: 0 <= i < |b| ==> b[i] == ab[|a| + i];
    forall i, j | 0 <= i < |a| && 0 <= j < |b| && a[i].stays ensures a[i].name != b[j].name {
      assert ab[i] == a[i] && ab[|a| + j] == b[j];
    }
  }

  lemma NeverTwiceJoin(taken: set<string>, a: seq<Birth>, b: seq<Birth>)
    requires NeverTwice(taken, a) && NeverTwice(taken + Staying(a), b)
    ensures NeverTwice(taken, a + b)
  {
    var ab := a + b;
    forall i, j | 0 <= i < j < |ab| && ab[i].stays ensures ab[i].name != ab[j].name {
      if i < |a| <= j {
        assert a[i] in a && ab[j] == b[j - |a|];
      }
    }
  }

  lemma {:induction false} ExtendConcat(m: map<string, string>, a: seq<Pair>, b: seq<Pair>)
    ensures Extend(m, a + b) == Extend(Extend(m, a), b)
    decreases |b|
  {
    if b == [] {
      assert a + b == a;
    } else {
      ExtendConcat(m, a, b[..|b| - 1]);
      assert (a + b)[..|a + b| - 1] == a + b[..|b| - 1];
    }
  }

  lemma {:induction false} ExtendKeys(m: map<string, string>, ps: seq<Pair>)
    ensures Extend(m, ps).Keys == m.Keys + NamesIn(Links(ps))
    decreases |ps|
  {
    if ps != [] {
      var init, last := ps[..|ps| - 1], ps[|ps| - 1];
      ExtendKeys(m, init);
      assert Links(ps) == Links(init) + [last.0];
    }
  }

  lemma LinksConcat(a: seq<Pair>, b: seq<Pair>)
    ensures Links(a + b) == Links(a) + Links(b)
  {
  }

  /** No link of these has a master yet. */
  ghost predicate Unmastered(m: map<string, string>, ps: seq<Pair>) {
    Unused(m.Keys, Links(ps))
  }

  lemma UnmasteredConcat(m: map<string, string>, a: seq<Pair>, b: seq<Pair>)
    ensures Unmastered(m, a + b) <==> Unmastered(m, a) && Unmastered(Extend(m, a), b)
  {
    ExtendKeys(m, a);
    LinksConcat(a, b);
    UnusedConcat(m.Keys, Links(a), Links(b));
  }

  lemma MetConcat(l: Ledger, d: Demand, e: Demand)
    ensures Met(l, Both(d, e)) <==> Met(l, d) && Met(Afterwards(l, d), e)
  {
    UnmasteredConcat(l.masters, d.masters, e.masters);
    UnusedConcat(l.interfaces, d.interfaces, e.interfaces);
    UnusedConcat(l.peers, d.peers, e.peers);
    UnusedConcat(l.spaces, d.spaces, e.spaces);
    NeverTwiceConcat(l.devices, d.births, e.births);
  }

  lemma AfterwardsConcat(l: Ledger, d: Demand, e: Demand)
    ensures Afterwards(l, Both(d, e)) == Afterwards(Afterwards(l, d), e)
  {
    ExtendConcat(l.masters, d.masters, e.masters);
    NamesInConcat(l.interfaces, d.interfaces, e.interfaces);
    NamesInConcat(l.peers, d.peers, e.peers);
    NamesInConcat(l.spaces, d.spaces, e.spaces);
    StayingConcat(l.devices, d.births, e.births);
  }

  lemma NamesInConcat(used: set<string>, a: seq<string>, b: seq<string>)
    ensures used + NamesIn(a + b) == used + NamesIn(a) + NamesIn(b)
  {
  }

  lemma StayingConcat(taken: set<string>, a: seq<Birth>, b: seq<Birth>)
    ensures taken + Staying(a + b) == taken + Staying(a) + Staying(b)
  {
  }

  /** What two lists ask for, one after the other. */
  lemma AsksConcat(l: Ledger, a: seq<Check>, b: seq<Check>, d: Demand, e: Demand)
    requires AsksOf(l, a, d) && AsksOf(Afterwards(l, d), b, e)
    ensures AsksOf(l, a + b, Both(d, e))
  {
    ApplyConcat(l, a, b);
    MetConcat(l, d, e);
    AfterwardsConcat(l, d, e);
  }

  // ---------------------------------------------------------------------------
  // Lists that free no device.

  function DemandOf(c: Check): Demand {
    match c
    case Require(holds) => NOTHING.(ok := holds)
    case TakeDevice(name) => NOTHING.(births := [Born(name)])
    case FreeDevice(_) => NOTHING
    case AssignMaster(link, master) => NOTHING.(masters := Given(link, master))
    case UseInterface(name) => NOTHING.(interfaces := [name])
    case UsePeer(name) => NOTHING.(peers := [name])
    case UseSpace(name) => NOTHING.(spaces := [name])
  }

  function Total(cs: seq<Check>): Demand {
    if cs == [] then NOTHING else Both(Total(cs[..|cs| - 1]), DemandOf(cs[|cs| - 1]))
  }

  lemma NothingNew(used: set<string>)
    ensures used + NamesIn([]) == used && used + Staying([]) == used && Links([]) == []
  {
  }

  lemma NothingAsked(l: Ledger)
    ensures AsksOf(l, [], NOTHING) && Afterwards(l, NOTHING) == l && Met(l, NOTHING)
  {
    NothingNew(l.devices);
    NothingNew(l.interfaces);
    NothingNew(l.peers);
    NothingNew(l.spaces);
  }

  lemma OneNew(used: set<string>, name: string)
    ensures used + NamesIn([name]) == used + {name} && (Unused(used, [name]) <==> name !in used)
    ensures used + Staying([Birth(name, true)]) == used + {name} && (NeverTwice(used, [Birth(name, true)]) <==> name !in used)
  {
    assert NamesIn([name]) == {name};
    assert Birth(name, true) in [Birth(name, true)];
    assert Staying([Birth(name, true)]) == {name};
    assert [name][0] == name && [Birth(name, true)][0].name == name;
  }

  lemma GivenExtends(m: map<string, string>, link: string, master: string)
    ensures var ps := Given(link, master);
            Extend(m, ps) == (if ps == [] then m else m[ps[0].0 := ps[0].1]) && Links(ps) == if ps == [] then [] else [ps[0].0]
  {
    var ps := Given(link, master);
    if ps != [] {
      assert ps[..|ps| - 1] == [];
    }
  }

  lemma MasterAsks(l: Ledger, link: string, master: string)
    ensures AsksOf(l, [AssignMaster(link, master)], NOTHING.(masters := Given(link, master)))
  {
    One(l, AssignMaster(link, master));
    NothingAsked(l);
    GivenExtends(l.masters, link, master);
    if Given(link, master) != [] {
      OneNew(l.masters.Keys, TrimSpace(link));
    }
  }

  lemma OneAsks(l: Ledger, c: Check)
    requires !c.FreeDevice?
    ensures AsksOf(l, [c], DemandOf(c))
  {
    One(l, c);
    NothingAsked(l);
    match c
    case Require(_) =>
    case TakeDevice(name) => OneNew(l.devices, TrimSpace(name));
    case AssignMaster(link, master) => MasterAsks(l, link, master);
    case UseInterface(name) => OneNew(l.interfaces, name);
    case UsePeer(name) => OneNew(l.peers, name);
    case UseSpace(name) => OneNew(l.spaces, name);
  }

  /** No check of these frees a device. */
  predicate Keeps(cs: seq<Check>) {
    forall c :: c in cs ==> !c.FreeDevice?
  }

  lemma {:induction false} TotalAsks(l: Ledger, cs: seq<Check>)
    requires Keeps(cs)
    ensures AsksOf(l, cs, Total(cs))
    decreases |cs|
  {
    if cs == [] {
      NothingAsked(l);
    } else {
      var init, last := cs[..|cs| - 1], cs[|cs| - 1];
      TotalAsks(l, init);
      OneAsks(Afterwards(l, Total(init)), last);
      AsksConcat(l, init, [last], Total(init), DemandOf(last));
      assert init + [last] == cs;
    }
  }

  lemma BothNothing(d: Demand)
    ensures Both(d, NOTHING) == d && Both(NOTHING, d) == d
  {
  }

  lemma BothAssociates(a: Demand, b: Demand, c: Demand)
    ensures Both(Both(a, b), c) == Both(a, Both(b, c))
  {
  }

  lemma {:induction false} TotalConcat(a: seq<Check>, b: seq<Check>)
    ensures Total(a + b) == Both(Total(a), Total(b))
    decreases |b|
  {
    if b == [] {
      assert a + b == a;
      BothNothing(Total(a));
    } else {
      var init, last := b[..|b| - 1], b[|b| - 1];
      TotalConcat(a, init);
      assert (a + b)[..|a + b| - 1] == a + init;
      BothAssociates(Total(a), Total(init), DemandOf(last));
    }
  }

  lemma TotalOne(c: Check)
    ensures Total([c]) == DemandOf(c)
  {
    assert [c][..0] == [];
    BothNothing(DemandOf(c));
  }

  lemma TotalThree(a: Check, b: Check, c: Check)
    ensures Total([a, b]) == Both(DemandOf(a), DemandOf(b))
    ensures Total([a, b, c]) == Both(Both(DemandOf(a), DemandOf(b)), DemandOf(c))
  {
    TotalOne(a);
    assert [a, b][..1] == [a];
    assert [a, b, c][..2] == [a, b];
  }

  function Nothing<T, U>(): T -> seq<U> {
    (x: T) => []
  }

  lemma {:induction false} FlatNothing<T, U>(xs: seq<T>)
    ensures Flat<T, U>(Nothing(), xs) == []
    decreases |xs|
  {
    if xs != [] {
      FlatNothing<T, U>(xs[..|xs| - 1]);
    }
  }

  /** What the entries of a list ask for, each by itself. */
  datatype Asking<!T> = Asking(
    ok: T -> bool, masters: T -> seq<Pair>, interfaces: T -> seq<string>, peers: T -> seq<string>,
    spaces: T -> seq<string>, births: T -> seq<Birth>)

  function Of<T>(a: Asking<T>, x: T): Demand {
    Demand(a.ok(x), a.masters(x), a.interfaces(x), a.peers(x), a.spaces(x), a.births(x))
  }

  function OfAll<T(==)>(a: Asking<T>, xs: seq<T>): Demand {
    Demand(forall x :: x in xs ==> a.ok(x), Flat(a.masters, xs), Flat(a.interfaces, xs), Flat(a.peers, xs),
           Flat(a.spaces, xs), Flat(a.births, xs))
  }

  lemma {:induction false} TotalFlat<T>(f: T -> seq<Check>, a: Asking<T>, xs: seq<T>)
    requires forall x :: x in xs ==> Total(f(x)) == Of(a, x)
    ensures Total(Flat(f, xs)) == OfAll(a, xs)
    decreases |xs|
  {
    if xs != [] {
      var init, last := xs[..|xs| - 1], xs[|xs| - 1];
      assert xs == init + [last];
      TotalFlat(f, a, init);
      TotalConcat(Flat(f, init), f(last));
    }
  }

  // ---------------------------------------------------------------------------
  // One list at a time.

  lemma NothingFlat<T>(xs: seq<T>)
    ensures Flat<T, string>(Nothing(), xs) == [] && Flat<T, Pair>(Nothing(), xs) == [] && Flat<T, Birth>(Nothing(), xs) == []
  {
    FlatNothing<T, string>(xs);
    FlatNothing<T, Pair>(xs);
    FlatNothing<T, Birth>(xs);
  }

  lemma VRFsTotal(vrfs: seq<VRF>)
    ensures Total(Flat(VRFChecks, vrfs)) == NOTHING.(ok := forall v :: v in vrfs ==> VRFOk(v), births := Flat(VRFBirth, vrfs))
  {
    var a := Asking(VRFOk, Nothing(), Nothing(), Nothing(), Nothing(), VRFBirth);
    forall v | v in vrfs ensures Total(VRFChecks(v)) == Of(a, v) {
      TotalThree(Require(VRFOk(v)), TakeDevice(v.name), Require(true));
    }
    TotalFlat(VRFChecks, a, vrfs);
    NothingFlat(vrfs);
  }

  lemma PortsTotal(owner: string, ports: seq<string>)
    ensures Total(Flat(PortCheck(owner), ports)) == NOTHING.(ok := PortsOk(ports), masters := Flat(PortPairs(owner), ports))
  {
    var a := Asking((p: string) => !Blank(p), PortPairs(owner), Nothing(), Nothing(), Nothing(), Nothing());
    forall p | p in ports ensures Total(PortCheck(owner)(p)) == Of(a, p) {
      TotalThree(Require(!Blank(p)), AssignMaster(p, owner), Require(true));
    }
    TotalFlat(PortCheck(owner), a, ports);
    NothingFlat(ports);
  }

  /** The head of an entry that makes a device. */
  lemma HeadTotal(holds: bool, name: string, master: string)
    ensures Total([Require(holds), TakeDevice(name), AssignMaster(name, master)]) ==
            NOTHING.(ok := holds, masters := Given(name, master), births := [Born(name)])
  {
    TotalThree(Require(holds), TakeDevice(name), AssignMaster(name, master));
  }

  lemma BothMasters(ok: bool, masters: seq<Pair>, births: seq<Birth>, ok': bool, masters': seq<Pair>, births': seq<Birth>)
    ensures Both(NOTHING.(ok := ok, masters := masters, births := births), NOTHING.(ok := ok', masters := masters', births := births'))
            == NOTHING.(ok := ok && ok', masters := masters + masters', births := births + births')
  {
  }

  lemma BothSpaces(ok: bool, masters: seq<Pair>, births: seq<Birth>, ok': bool, spaces: seq<string>)
    ensures Both(NOTHING.(ok := ok, masters := masters, births := births), NOTHING.(ok := ok', spaces := spaces))
            == NOTHING.(ok := ok && ok', masters := masters, spaces := spaces, births := births)
  {
  }

  lemma BondTotal(lib: Library, b: Bond)
    ensures Total(BondChecks(lib)(b)) == NOTHING.(ok := BondEntryOk(lib, b), masters := BondPairs(b), births := BondBirth(b))
  {
    var head := [Require(BondOk(lib, b)), TakeDevice(b.name), AssignMaster(b.name, b.master)];
    HeadTotal(BondOk(lib, b), b.name, b.master);
    PortsTotal(b.name, b.interfaces);
    TotalConcat(head, Flat(PortCheck(b.name), b.interfaces));
    BothMasters(BondOk(lib, b), Given(b.name, b.master), BondBirth(b), PortsOk(b.interfaces), Flat(PortPairs(b.name), b.interfaces), []);
    assert BondBirth(b) + [] == BondBirth(b);
  }

  lemma BondsTotal(lib: Library, bonds: seq<Bond>)
    ensures Total(Flat(BondChecks(lib), bonds)) ==
            NOTHING.(ok := forall b :: b in bonds ==> BondEntryOk(lib, b), masters := Flat(BondPairs, bonds),
                     births := Flat(BondBirth, bonds))
  {
    var a := Asking((b: Bond) => BondEntryOk(lib, b), BondPairs, Nothing(), Nothing(), Nothing(), BondBirth);
    forall b | b in bonds ensures Total(BondChecks(lib)(b)) == Of(a, b) {
      BondTotal(lib, b);
    }
    TotalFlat(BondChecks(lib), a, bonds);
    NothingFlat(bonds);
  }

  lemma InterfaceTotal(lib: Library, i: Interface)
    ensures Total(InterfaceChecks(lib)(i)) ==
            NOTHING.(ok := InterfaceOk(lib, i), masters := InterfacePairs(i), interfaces := InterfaceName(i))
  {
    TotalThree(Require(!Blank(i.name) && AttrsOk(lib, i.attrs)), UseInterface(i.name), AssignMaster(i.name, i.master));
  }

  lemma InterfacesTotal(lib: Library, ifaces: seq<Interface>)
    ensures Total(Flat(InterfaceChecks(lib), ifaces)) ==
            NOTHING.(ok := forall i :: i in ifaces ==> InterfaceOk(lib, i), masters := Flat(InterfacePairs, ifaces),
                     interfaces := Flat(InterfaceName, ifaces))
  {
    var a := Asking((i: Interface) => InterfaceOk(lib, i), InterfacePairs, InterfaceName, Nothing(), Nothing(), Nothing());
    forall i | i in ifaces ensures Total(InterfaceChecks(lib)(i)) == Of(a, i) {
      InterfaceTotal(lib, i);
    }
    TotalFlat(InterfaceChecks(lib), a, ifaces);
    NothingFlat(ifaces);
  }

  lemma NamespaceTotal(lib: Library, n: Namespace)
    ensures Total(NamespaceChecks(lib)(n)) == NOTHING.(ok := NamespaceOk(lib, n), spaces := [n.name])
  {
    TotalThree(Require(NamespaceOk(lib, n)), UseSpace(n.name), Require(true));
  }

  lemma NamespacesTotal(lib: Library, ns: seq<Namespace>)
    ensures Total(Flat(NamespaceChecks(lib), ns)) ==
            NOTHING.(ok := forall n :: n in ns ==> NamespaceOk(lib, n), spaces := Flat(SpaceName, ns))
  {
    var a := Asking((n: Namespace) => NamespaceOk(lib, n), Nothing(), Nothing(), Nothing(), SpaceName, Nothing());
    forall n | n in ns ensures Total(NamespaceChecks(lib)(n)) == Of(a, n) {
      NamespaceTotal(lib, n);
    }
    TotalFlat(NamespaceChecks(lib), a, ns);
    NothingFlat(ns);
  }

  lemma VethTotal(lib: Library, v: Veth)
    ensures Total(VethChecks(lib)(v)) ==
            NOTHING.(ok := VethEntryOk(lib, v), masters := VethPairs(v), peers := [v.peer], spaces := VethSpace(v))
  {
    var r, u, m := Require(VethOk(lib, v)), UsePeer(v.peer), AssignMaster(v.name, v.master);
    var last := if v.namespace.Some? then NamespaceChecks(lib)(v.namespace.value) else [];
    TotalThree(r, u, m);
    TotalConcat([r, u, m], last);
    if v.namespace.Some? {
      NamespaceTotal(lib, v.namespace.value);
    }
  }

  lemma VethsTotal(lib: Library, veths: seq<Veth>)
    ensures Total(Flat(VethChecks(lib), veths)) ==
            NOTHING.(ok := forall v :: v in veths ==> VethEntryOk(lib, v), masters := Flat(VethPairs, veths),
                     peers := Flat(VethPeer, veths), spaces := Flat(VethSpace, veths))
  {
    var a := Asking((v: Veth) => VethEntryOk(lib, v), VethPairs, Nothing(), VethPeer, VethSpace, Nothing());
    forall v | v in veths ensures Total(VethChecks(lib)(v)) == Of(a, v) {
      VethTotal(lib, v);
    }
    TotalFlat(VethChecks(lib), a, veths);
    NothingFlat(veths);
  }

  lemma RoutesTotal(lib: Library, routes: seq<Route>)
    ensures Total(Flat(RouteChecks(lib), routes)) == NOTHING.(ok := forall r :: r in routes ==> RouteOk(lib, r))
  {
    var a := Asking((r: Route) => RouteOk(lib, r), Nothing(), Nothing(), Nothing(), Nothing(), Nothing());
    forall r | r in routes ensures Total(RouteChecks(lib)(r)) == Of(a, r) {
      TotalOne(Require(RouteOk(lib, r)));
    }
    TotalFlat(RouteChecks(lib), a, routes);
    NothingFlat(routes);
  }

  lemma VXLANsTotal(lib: Library, owner: string, vxlans: seq<VXLAN>)
    ensures Total(Flat(VXLANChecks(lib, owner), vxlans)) ==
            NOTHING.(ok := forall v :: v in vxlans ==> VXLANOk(lib, v), masters := Flat(VXLANPairs(owner), vxlans),
                     births := Flat(VXLANBirth, vxlans))
  {
    var a := Asking((v: VXLAN) => VXLANOk(lib, v), VXLANPairs(owner), Nothing(), Nothing(), Nothing(), VXLANBirth);
    forall v | v in vxlans ensures Total(VXLANChecks(lib, owner)(v)) == Of(a, v) {
      HeadTotal(VXLANOk(lib, v), v.name, owner);
    }
    TotalFlat(VXLANChecks(lib, owner), a, vxlans);
    NothingFlat(vxlans);
  }

  lemma BridgeTotal(lib: Library, b: Bridge)
    ensures Total(BridgeChecks(lib)(b)) ==
            NOTHING.(ok := BridgeEntryOk(lib, b), masters := BridgePairs(b), spaces := BridgeSpaces(b), births := BridgeBirths(b))
  {
    BridgeLinksTotal(lib, b);
    NamespacesTotal(lib, b.namespaces);
    TotalConcat(BridgeLinkChecks(lib, b), Flat(NamespaceChecks(lib), b.namespaces));
    BothSpaces(BridgeLinksOk(lib, b), BridgePairs(b), BridgeBirths(b),
               forall n :: n in b.namespaces ==> NamespaceOk(lib, n), Flat(SpaceName, b.namespaces));
  }

  /** A bridge without its namespaces. */
  function BridgeLinkChecks(lib: Library, b: Bridge): seq<Check> {
    [Require(!Blank(b.name) && AttrsOk(lib, b.attrs)), TakeDevice(b.name), AssignMaster(b.name, b.master)]
    + Flat(PortCheck(b.name), b.interfaces) + Flat(VXLANChecks(lib, b.name), b.vxlans)
  }

  predicate BridgeLinksOk(lib: Library, b: Bridge) {
    && !Blank(b.name) && AttrsOk(lib, b.attrs) && PortsOk(b.interfaces)
    && (forall v :: v in b.vxlans ==> VXLANOk(lib, v))
  }

  lemma BridgeLinksTotal(lib: Library, b: Bridge)
    ensures Total(BridgeLinkChecks(lib, b)) ==
            NOTHING.(ok := BridgeLinksOk(lib, b), masters := BridgePairs(b), births := BridgeBirths(b))
  {
    var fields := !Blank(b.name) && AttrsOk(lib, b.attrs);
    var head := [Require(fields), TakeDevice(b.name), AssignMaster(b.name, b.master)];
    var ports, born := Flat(PortPairs(b.name), b.interfaces), [Born(b.name)];
    HeadTotal(fields, b.name, b.master);
    PortsTotal(b.name, b.interfaces);
    VXLANsTotal(lib, b.name, b.vxlans);
    TotalConcat(head, Flat(PortCheck(b.name), b.interfaces));
    TotalConcat(head + Flat(PortCheck(b.name), b.interfaces), Flat(VXLANChecks(lib, b.name), b.vxlans));
    BothMasters(fields, Given(b.name, b.master), born, PortsOk(b.interfaces), ports, []);
    assert born + [] == born;
    BothMasters(fields && PortsOk(b.interfaces), Given(b.name, b.master) + ports, born,
                forall v :: v in b.vxlans ==> VXLANOk(lib, v), Flat(VXLANPairs(b.name), b.vxlans), Flat(VXLANBirth, b.vxlans));
  }

  lemma BridgesTotal(lib: Library, bridges: seq<Bridge>)
    ensures Total(Flat(BridgeChecks(lib), bridges)) ==
            NOTHING.(ok := forall b :: b in bridges ==> BridgeEntryOk(lib, b), masters := Flat(BridgePairs, bridges),
                     spaces := Flat(BridgeSpaces, bridges), births := Flat(BridgeBirths, bridges))
  {
    var a := Asking((b: Bridge) => BridgeEntryOk(lib, b), BridgePairs, Nothing(), Nothing(), BridgeSpaces, BridgeBirths);
    forall b | b in bridges ensures Total(BridgeChecks(lib)(b)) == Of(a, b) {
      BridgeTotal(lib, b);
    }
    TotalFlat(BridgeChecks(lib), a, bridges);
    NothingFlat(bridges);
  }

  // ---------------------------------------------------------------------------
  // The second pass over the veths.

  function OnlyBirths(births: seq<Birth>): Demand {
    NOTHING.(births := births)
  }

  lemma VethReplayed(l: Ledger, v: Veth)
    ensures AsksOf(l, VethDeviceChecks(v), OnlyBirths(VethBirths(v)))
  {
    var name, peer := TrimSpace(v.name), TrimSpace(v.peer);
    var take, free := [TakeDevice(v.name), TakeDevice(v.peer)], if v.namespace.Some? then [FreeDevice(v.peer)] else [];
    ApplyConcat(l, take, free);
    Two(l, TakeDevice(v.name), TakeDevice(v.peer));
    NothingAsked(l);
    VethFits(l.devices, name, peer, v.namespace.None?);
    if v.namespace.Some? && ApplyAll(l, take).Some? {
      One(ApplyAll(l, take).value, FreeDevice(v.peer));
    }
  }

  lemma VethFits(taken: set<string>, name: string, peer: string, stays: bool)
    ensures var births := [Birth(name, true), Birth(peer, stays)];
            && (NeverTwice(taken, births) <==> name !in taken && peer !in taken + {name})
            && (peer !in taken + {name} ==>
                  taken + Staying(births) == if stays then taken + {name} + {peer} else taken + {name} + {peer} - {peer})
  {
    var births := [Birth(name, true), Birth(peer, stays)];
    assert births[0].name == name && births[1].name == peer;
    assert births[0] in births && births[1] in births;
  }

  lemma OnlyBirthsConcat(l: Ledger, a: seq<Check>, b: seq<Check>, x: seq<Birth>, y: seq<Birth>)
    requires AsksOf(l, a, OnlyBirths(x)) && AsksOf(Afterwards(l, OnlyBirths(x)), b, OnlyBirths(y))
    ensures AsksOf(l, a + b, OnlyBirths(x + y))
  {
    AsksConcat(l, a, b, OnlyBirths(x), OnlyBirths(y));
  }

  lemma {:induction false} VethsReplayed(l: Ledger, veths: seq<Veth>)
    ensures AsksOf(l, Flat(VethDeviceChecks, veths), OnlyBirths(Flat(VethBirths, veths)))
    decreases |veths|
  {
    if veths == [] {
      NothingAsked(l);
    } else {
      var init, v := veths[..|veths| - 1], veths[|veths| - 1];
      VethsReplayed(l, init);
      VethReplayed(Afterwards(l, OnlyBirths(Flat(VethBirths, init))), v);
      OnlyBirthsConcat(l, Flat(VethDeviceChecks, init), VethDeviceChecks(v), Flat(VethBirths, init), VethBirths(v));
    }
  }

  // ---------------------------------------------------------------------------
  // The section.

  /** Everything but the second pass over the veths. */
  function FirstChecks(lib: Library, s: Section): seq<Check> {
    Flat(VRFChecks, s.vrfs) + Flat(BondChecks(lib), s.bonds) + Flat(InterfaceChecks(lib), s.interfaces)
    + Flat(VethChecks(lib), s.veths) + Flat(RouteChecks(lib), s.routes) + Flat(BridgeChecks(lib), s.bridges)
  }

  function FirstBirths(s: Section): seq<Birth> {
    Flat(VRFBirth, s.vrfs) + Flat(BondBirth, s.bonds) + Flat(BridgeBirths, s.bridges)
  }

  /** All that is asked for before it. */
  function FirstDemand(lib: Library, s: Section): Demand {
    Demand(FieldsOk(lib, s), Masters(s), Flat(InterfaceName, s.interfaces), Flat(VethPeer, s.veths), Spaces(s), FirstBirths(s))
  }

  lemma TotalConcatThree(a: seq<Check>, b: seq<Check>, c: seq<Check>)
    ensures Total(a + b + c) == Both(Both(Total(a), Total(b)), Total(c))
  {
    TotalConcat(a, b);
    TotalConcat(a + b, c);
  }

  lemma DropEmpty<T>(a: seq<T>)
    ensures a + [] == a && [] + a == a
  {
  }

  lemma BareTotal(lib: Library, s: Section)
    ensures Total(Flat(VRFChecks, s.vrfs) + Flat(BondChecks(lib), s.bonds) + Flat(InterfaceChecks(lib), s.interfaces)) ==
            Demand((forall v :: v in s.vrfs ==> VRFOk(v)) && (forall b :: b in s.bonds ==> BondEntryOk(lib, b))
                   && (forall i :: i in s.interfaces ==> InterfaceOk(lib, i)),
                   Flat(BondPairs, s.bonds) + Flat(InterfacePairs, s.interfaces), Flat(InterfaceName, s.interfaces), [], [],
                   Flat(VRFBirth, s.vrfs) + Flat(BondBirth, s.bonds))
  {
    VRFsTotal(s.vrfs);
    BondsTotal(lib, s.bonds);
    InterfacesTotal(lib, s.interfaces);
    TotalConcatThree(Flat(VRFChecks, s.vrfs), Flat(BondChecks(lib), s.bonds), Flat(InterfaceChecks(lib), s.interfaces));
    DropEmpty(Flat(BondPairs, s.bonds));
    DropEmpty(Flat(InterfaceName, s.interfaces));
    DropEmpty(Flat(VRFBirth, s.vrfs) + Flat(BondBirth, s.bonds));
    DropEmpty<string>([]);
  }

  lemma SpacedTotal(lib: Library, s: Section)
    ensures Total(Flat(VethChecks(lib), s.veths) + Flat(RouteChecks(lib), s.routes) + Flat(BridgeChecks(lib), s.bridges)) ==
            Demand((forall v :: v in s.veths ==> VethEntryOk(lib, v)) && (forall r :: r in s.routes ==> RouteOk(lib, r))
                   && (forall b :: b in s.bridges ==> BridgeEntryOk(lib, b)),
                   Flat(VethPairs, s.veths) + Flat(BridgePairs, s.bridges), [], Flat(VethPeer, s.veths), Spaces(s),
                   Flat(BridgeBirths, s.bridges))
  {
    VethsTotal(lib, s.veths);
    RoutesTotal(lib, s.routes);
    BridgesTotal(lib, s.bridges);
    TotalConcatThree(Flat(VethChecks(lib), s.veths), Flat(RouteChecks(lib), s.routes), Flat(BridgeChecks(lib), s.bridges));
    DropEmpty(Flat(VethPairs, s.veths));
    DropEmpty(Flat(VethPeer, s.veths));
    DropEmpty(Flat(VethSpace, s.veths));
    DropEmpty(Flat(BridgeBirths, s.bridges));
    DropEmpty<string>([]);
  }

  lemma FirstTotal(lib: Library, s: Section)
    ensures Total(FirstChecks(lib, s)) == FirstDemand(lib, s)
  {
    var bare := Flat(VRFChecks, s.vrfs) + Flat(BondChecks(lib), s.bonds) + Flat(InterfaceChecks(lib), s.interfaces);
    var spaced := Flat(VethChecks(lib), s.veths) + Flat(RouteChecks(lib), s.routes) + Flat(BridgeChecks(lib), s.bridges);
    BareTotal(lib, s);
    SpacedTotal(lib, s);
    SixInRow(Flat(VRFChecks, s.vrfs), Flat(BondChecks(lib), s.bonds), Flat(InterfaceChecks(lib), s.interfaces),
             Flat(VethChecks(lib), s.veths), Flat(RouteChecks(lib), s.routes), Flat(BridgeChecks(lib), s.bridges));
    TotalConcat(bare, spaced);
    DropEmpty(Flat(InterfaceName, s.interfaces));
    DropEmpty(Flat(VethPeer, s.veths));
    DropEmpty(Spaces(s));
    FourInRow(Flat(BondPairs, s.bonds), Flat(InterfacePairs, s.interfaces), Flat(VethPairs, s.veths), Flat(BridgePairs, s.bridges));
  }

  lemma SixInRow<T>(a: seq<T>, b: seq<T>, c: seq<T>, d: seq<T>, e: seq<T>, f: seq<T>)
    ensures (a + b + c) + (d + e + f) == a + b + c + d + e + f
  {
  }

  lemma FourInRow<T>(a: seq<T>, b: seq<T>, c: seq<T>, d: seq<T>)
    ensures (a + b) + (c + d) == a + b + c + d
  {
  }

  lemma FlatKeeps<T>(f: T -> seq<Check>, xs: seq<T>)
    requires forall x :: x in xs ==> Keeps(f(x))
    ensures Keeps(Flat(f, xs))
  {
    FlatEach(f, xs, (c: Check) => !c.FreeDevice?);
  }

  lemma BondKeeps(lib: Library, b: Bond)
    ensures Keeps(BondChecks(lib)(b))
  {
    FlatKeeps(PortCheck(b.name), b.interfaces);
  }

  lemma BridgeKeeps(lib: Library, b: Bridge)
    ensures Keeps(BridgeChecks(lib)(b))
  {
    FlatKeeps(PortCheck(b.name), b.interfaces);
    FlatKeeps(VXLANChecks(lib, b.name), b.vxlans);
    FlatKeeps(NamespaceChecks(lib), b.namespaces);
  }

  lemma VethKeeps(lib: Library, v: Veth)
    ensures Keeps(VethChecks(lib)(v))
  {
    if v.namespace.Some? {
      assert Keeps(NamespaceChecks(lib)(v.namespace.value));
    }
  }

  lemma FirstKeeps(lib: Library, s: Section)
    ensures Keeps(FirstChecks(lib, s))
  {
    forall b | b in s.bonds ensures Keeps(BondChecks(lib)(b)) {
      BondKeeps(lib, b);
    }
    forall v | v in s.veths ensures Keeps(VethChecks(lib)(v)) {
      VethKeeps(lib, v);
    }
    forall b | b in s.bridges ensures Keeps(BridgeChecks(lib)(b)) {
      BridgeKeeps(lib, b);
    }
    FlatKeeps(VRFChecks, s.vrfs);
    FlatKeeps(BondChecks(lib), s.bonds);
    FlatKeeps(InterfaceChecks(lib), s.interfaces);
    FlatKeeps(VethChecks(lib), s.veths);
    FlatKeeps(RouteChecks(lib), s.routes);
    FlatKeeps(BridgeChecks(lib), s.bridges);
  }

  /** What the whole section asks for. */
  function SectionDemand(lib: Library, s: Section): Demand {
    FirstDemand(lib, s).(births := Births(s))
  }

  lemma SectionAsks(lib: Library, s: Section, l: Ledger)
    ensures AsksOf(l, SectionChecks(lib, s), SectionDemand(lib, s))
  {
    var first, births := FirstDemand(lib, s), Flat(VethBirths, s.veths);
    FirstKeeps(lib, s);
    TotalAsks(l, FirstChecks(lib, s));
    FirstTotal(lib, s);
    VethsReplayed(Afterwards(l, first), s.veths);
    AsksConcat(l, FirstChecks(lib, s), Flat(VethDeviceChecks, s.veths), first, OnlyBirths(births));
    BothBirths(first, births);
  }

  lemma BothBirths(d: Demand, births: seq<Birth>)
    ensures Both(d, OnlyBirths(births)) == d.(births := d.births + births)
  {
  }

  lemma MetAtOpening(lib: Library, s: Section, linkDevices: set<string>)
    ensures Met(Opening(linkDevices), SectionDemand(lib, s)) <==> InOrder(lib, s, linkDevices)
  {
  }

  /** With no link given two masters, the map holds just what was given. */
  lemma {:induction false} ExtendHolds(ps: seq<Pair>, link: string, master: string)
    requires NoRepeat(Links(ps))
    ensures link in Extend(map[], ps) && Extend(map[], ps)[link] == master <==> (link, master) in ps
    decreases |ps|
  {
    if ps != [] {
      var init, last := ps[..|ps| - 1], ps[|ps| - 1];
      assert forall i :: 0 <= i < |init| ==> Links(init)[i] == Links(ps)[i];
      assert Links(ps)[|init|] == last.0;
      ExtendHolds(init, link, master);
      assert ps == init + [last];
      if (link, master) in init {
        var i :| 0 <= i < |init| && init[i] == (link, master);
        assert Links(ps)[i] == link;
      }
    }
  }

  /** The map holds the pairs and nothing else. */
  ghost predicate IsGraph(ps: seq<Pair>, m: map<string, string>) {
    forall p: Pair :: p in ps <==> p.0 in m && m[p.0] == p.1
  }

  lemma ExtendIsGraph(ps: seq<Pair>)
    requires NoRepeat(Links(ps))
    ensures IsGraph(ps, Extend(map[], ps))
  {
    forall p: Pair ensures p in ps <==> p.0 in Extend(map[], ps) && Extend(map[], ps)[p.0] == p.1 {
      ExtendHolds(ps, p.0, p.1);
    }
  }

  /** The validator's checks pass exactly for the sections in order, and its master map is then the section's. */
  lemma AcceptedExactly(lib: Library, s: Section, linkDevices: set<string>)
    ensures Accepted(lib, s, linkDevices) <==> InOrder(lib, s, linkDevices)
    ensures Accepted(lib, s, linkDevices) ==>
              IsGraph(Masters(s), ApplyAll(Opening(linkDevices), SectionChecks(lib, s)).value.masters)
  {
    SectionAsks(lib, s, Opening(linkDevices));
    MetAtOpening(lib, s, linkDevices);
    if InOrder(lib, s, linkDevices) {
      ExtendIsGraph(Masters(s));
    }
  }

  lemma OnlyBirthsMet(l: Ledger, births: seq<Birth>)
    ensures Met(l, OnlyBirths(births)) <==> NeverTwice(l.devices, births)
    ensures Afterwards(l, OnlyBirths(births)) == l.(devices := l.devices + Staying(births))
  {
    NothingNew(l.interfaces);
    NothingNew(l.peers);
    NothingNew(l.spaces);
  }

  // ---------------------------------------------------------------------------
  // The end of the validator.

  method ReplayVeths(l: Ledger, veths: seq<Veth>) returns (ok: bool, l': Ledger)
    ensures ok <==> ApplyAll(l, Flat(VethDeviceChecks, veths)).Some?
    ensures ok ==> Some(l') == ApplyAll(l, Flat(VethDeviceChecks, veths))
    ensures ok <==> NeverTwice(l.devices, Flat(VethBirths, veths))
    ensures ok ==> l' == l.(devices := l.devices + Staying(Flat(VethBirths, veths)))
  {
    VethsReplayed(l, veths);
    OnlyBirthsMet(l, Flat(VethBirths, veths));
    l' := l;
    for i := 0 to |veths|
      invariant ApplyAll(l, Flat(VethDeviceChecks, veths[..i])) == Some(l')
    {
      var v := veths[i];
      ghost var free := if v.namespace.Some? then [FreeDevice(v.peer)] else [];
      FlatStep(l, VethDeviceChecks, veths, i);
      ApplyConcat(l', [TakeDevice(v.name), TakeDevice(v.peer)], free);
      Two(l', TakeDevice(v.name), TakeDevice(v.peer));
      ok, l' := ClaimLinuxDevice(l', v.name);
      if !ok {
        return;
      }
      ok, l' := ClaimLinuxDevice(l', v.peer);
      if !ok {
        return;
      }
      if v.namespace.Some? {
        One(l', FreeDevice(v.peer));
        l' := l'.(devices := l'.devices - {TrimSpace(v.peer)});
      }
    }
    assert veths[..|veths|] == veths;
    ok := true;
  }

  /** Accepts exactly the sections in order: those whose every check holds when it is reached. */
  method ValidateLinux(lib: Library, s: Section, linkDevices: set<string>) returns (ok: bool, l: Ledger)
    ensures ok <==> InOrder(lib, s, linkDevices)
    ensures ok <==> Accepted(lib, s, linkDevices)
    ensures ok ==> IsGraph(Masters(s), l.masters)
    ensures ok ==> Some(l) == ApplyAll(Opening(linkDevices), SectionChecks(lib, s))
  {
    AcceptedExactly(lib, s, linkDevices);
    ghost var c1 := Flat(VRFChecks, s.vrfs);
    ghost var c2 := c1 + Flat(BondChecks(lib), s.bonds);
    ghost var c3 := c2 + Flat(InterfaceChecks(lib), s.interfaces);
    ghost var c4 := c3 + Flat(VethChecks(lib), s.veths);
    ghost var c5 := c4 + Flat(RouteChecks(lib), s.routes);
    ghost var c6 := c5 + Flat(BridgeChecks(lib), s.bridges);
    ghost var start := Opening(linkDevices);
    ApplyConcat(start, c1, Flat(BondChecks(lib), s.bonds));
    ApplyConcat(start, c2, Flat(InterfaceChecks(lib), s.interfaces));
    ApplyConcat(start, c3, Flat(VethChecks(lib), s.veths));
    ApplyConcat(start, c4, Flat(RouteChecks(lib), s.routes));
    ApplyConcat(start, c5, Flat(BridgeChecks(lib), s.bridges));
    ApplyConcat(start, c6, Flat(VethDeviceChecks, s.veths));
    l := Opening(linkDevices);
    ok, l := ValidateVRFs(l, s.vrfs);
    if !ok { return; }
    ok, l := ValidateBonds(lib, l, s.bonds);
    if !ok { return; }
    ok, l := ValidateInterfaces(lib, l, s.interfaces);
    if !ok { return; }
    ok, l := ValidateVeths(lib, l, s.veths);
    if !ok { return; }
    ok := ValidateRoutes(lib, l, s.routes);
    if !ok { return; }
    ok, l := ValidateBridges(lib, l, s.bridges);
    if !ok { return; }
    ok, l := ReplayVeths(l, s.veths);
  }
}
