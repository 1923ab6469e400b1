/**
 * What `configureLinux` and the netlink operations under it do to the names in a
 * router's network namespaces, in the order they do it (internal/runtime/runtime.go
 * and internal/netlink/netlink.go).
 */
module LinuxProgram {
  import opened Strings
  import opened Sequences
  import opened Linux

  /** One step that adds, moves or renames a device, or gives it a master. */
  datatype Op =
    | Create(name: string)
    | CreatePair(name: string, peer: string)
    | AddSpace(space: string)
    | MoveToSpace(name: string, space: string)
    | Rename(space: string, name: string, to: string)
    | SetMaster(link: string, master: string)

  /** Names in the router's own namespace and in the named ones below it. */
  datatype Net = Net(main: set<string>, spaces: map<string, set<string>>)

  /** The kernel refuses the step because a name is taken. */
  predicate Collides(net: Net, op: Op) {
    match op
    case Create(name) => name in net.main
    case CreatePair(name, peer) => name == peer || name in net.main || peer in net.main
    case AddSpace(space) => space in net.spaces
    case MoveToSpace(name, space) => space in net.spaces && name in net.spaces[space]
    case Rename(space, name, to) => space in net.spaces && to != name && to in net.spaces[space]
    case SetMaster(_, _) => false
  }

  /** The names after the step; a step on a missing device changes nothing. */
  function After(net: Net, op: Op): Net {
    match op
    case Create(name) => net.(main := net.main + {name})
    case CreatePair(name, peer) => net.(main := net.main + {name, peer})
    case AddSpace(space) => net.(spaces := net.spaces[space := {"lo"}])
    case MoveToSpace(name, space) =>
      if name in net.main && space in net.spaces
      then Net(net.main - {name}, net.spaces[space := net.spaces[space] + {name}])
      else net
    case Rename(space, name, to) =>
      if space in net.spaces && name in net.spaces[space]
      then net.(spaces := net.spaces[space := net.spaces[space] - {name} + {to}])
      else net
    case SetMaster(_, _) => net
  }

  function RunOps(net: Net, ops: seq<Op>): Net {
    if ops == [] then net else After(RunOps(net, ops[..|ops| - 1]), ops[|ops| - 1])
  }

  /** No step of the run, were the whole of it to happen, meets a taken name. */
  predicate Clean(net: Net, ops: seq<Op>) {
    ops == []
    || (Clean(net, ops[..|ops| - 1]) && !Collides(RunOps(net, ops[..|ops| - 1]), ops[|ops| - 1]))
  }

  lemma {:induction false} RunConcat(net: Net, a: seq<Op>, b: seq<Op>)
    ensures RunOps(net, a + b) == RunOps(RunOps(net, a), b)
    ensures Clean(net, a + b) <==> Clean(net, a) && Clean(RunOps(net, a), b)
    decreases |b|
  {
    if b == [] {
      assert a + b == a;
    } else {
      RunConcat(net, a, b[..|b| - 1]);
      assert (a + b)[..|a + b| - 1] == a + b[..|b| - 1];
    }
  }

  // ---------------------------------------------------------------------------
  // The program of a section.

  /** The generated names of the veth that ties a namespace to a bridge. */
  datatype Generator = Generator(host: (string, string) -> string, peer: (string, string) -> string)

  /** `attachLinkMaster`: a blank master is no step at all. */
  function MasterOps(link: string, master: string): seq<Op> {
    if Blank(master) then [] else [SetMaster(link, TrimSpace(master))]
  }

  function VRFOps(v: VRF): seq<Op> {
    [Create(v.name)]
  }

  function PortOps(owner: string): string -> seq<Op> {
    port => MasterOps(port, owner)
  }

  function BondOps(b: Bond): seq<Op> {
    [Create(b.name)] + Flat(PortOps(b.name), b.interfaces)
  }

  function VXLANOps(owner: string): VXLAN -> seq<Op> {
    (v: VXLAN) => [Create(v.name)] + MasterOps(v.name, owner)
  }

  /** `configureLinuxNamespacePeer`. */
  function PeerOps(peer: string, n: Namespace): seq<Op> {
    [AddSpace(n.name), MoveToSpace(peer, n.name), Rename(n.name, peer, n.ifName)]
  }

  /** `configureLinuxNamespace`. */
  function NamespaceOps(gen: Generator, bridge: string): Namespace -> seq<Op> {
    (n: Namespace) =>
      [CreatePair(gen.host(bridge, n.name), gen.peer(bridge, n.name))]
      + MasterOps(gen.host(bridge, n.name), bridge)
      + PeerOps(gen.peer(bridge, n.name), n)
  }

  function BridgeOps(gen: Generator): Bridge -> seq<Op> {
    (b: Bridge) =>
      [Create(b.name)] + MasterOps(b.name, b.master)
      + Flat(PortOps(b.name), b.interfaces)
      + Flat(VXLANOps(b.name), b.vxlans)
      + Flat(NamespaceOps(gen, b.name), b.namespaces)
  }

  function BondMasterOps(b: Bond): seq<Op> {
    MasterOps(b.name, b.master)
  }

  function InterfaceOps(i: Interface): seq<Op> {
    MasterOps(i.name, i.master)
  }

  function VethOps(v: Veth): seq<Op> {
    [CreatePair(v.name, v.peer)] + MasterOps(v.name, v.master)
    + if v.namespace.Some? then PeerOps(v.peer, v.namespace.value) else []
  }

  /** Bridges come before the bonds' own masters, and veths after everything else. */
  function Program(gen: Generator, s: Section): seq<Op> {
    Flat(VRFOps, s.vrfs)
    + Flat(BondOps, s.bonds)
    + Flat(BridgeOps(gen), s.bridges)
    + Flat(BondMasterOps, s.bonds)
    + Flat(InterfaceOps, s.interfaces)
    + Flat(VethOps, s.veths)
  }
}
