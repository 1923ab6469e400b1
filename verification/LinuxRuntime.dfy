/**
 * `configureLinux` at work on one router: it stops at the first step that fails, and
 * on a section the validator accepted no step fails because a name is taken.
 */
module LinuxRuntime {
  import opened Strings
  import opened Sequences
  import opened Linux
  import opened LinuxProgram
  import opened LinuxSoundness
  import opened LinuxEffect

  /** If two parts fit the plan one after the other, each fits in its turn. */
  lemma Fits(base: seq<Op>, first: seq<Op>, second: seq<Op>, plan: seq<Op>)
    requires base + (first + second) <= plan
    ensures base + first <= plan && base + first + second <= plan
    ensures base + first + second == base + (first + second)
  {
    assert base + first + second == base + (first + second);
  }

  /** If all of a flattened list fits the plan, so does every part of it. */
  lemma FlatFits<T>(base: seq<Op>, f: T -> seq<Op>, xs: seq<T>, i: nat, plan: seq<Op>)
    requires base + Flat(f, xs) <= plan && i < |xs|
    ensures base + Flat(f, xs[..i]) + f(xs[i]) <= plan
    ensures base + Flat(f, xs[..i + 1]) == base + Flat(f, xs[..i]) + f(xs[i])
  {
    FlatNext(f, xs, i);
    FlatSplit(f, xs, i + 1);
    Fits(base, Flat(f, xs[..i + 1]), Flat(f, xs[i + 1..]), plan);
    Fits(base, Flat(f, xs[..i]), f(xs[i]), plan);
  }

  class Dataplane {
    var net: Net
    ghost const start: Net
    ghost var steps: seq<Op>      // the steps attempted so far
    ghost var collided: bool      // some step met a taken name
    ghost var failed: bool        // some step failed though it met none

    /** A router whose link interfaces are in place. */
    constructor (linkDevices: set<string>)
      ensures net == start == Net({"lo"} + linkDevices, map[]) && steps == [] && !collided && !failed
    {
      net := Net({"lo"} + linkDevices, map[]);
      start := Net({"lo"} + linkDevices, map[]);
      steps := [];
      collided := false;
      failed := false;
    }

    /** Every step of the plan up to here was carried out. */
    ghost predicate OnPlan(plan: seq<Op>)
      reads this
    {
      !collided && !failed && steps <= plan && net == RunOps(start, steps)
    }

    /** One step; besides a taken name anything may make it fail, with or without its effect. */
    method Perform(op: Op) returns (ok: bool)
      modifies this
      ensures steps == old(steps) + [op]
      ensures collided == (old(collided) || Collides(old(net), op))
      ensures failed == (old(failed) || (!ok && !Collides(old(net), op)))
      ensures net == After(old(net), op) || (!ok && net == old(net))
      ensures ok ==> !Collides(old(net), op)
    {
      steps := steps + [op];
      if Collides(net, op) {
        collided := true;
        return false;
      }
      ok := *;
      var effect: bool := *;
      if ok || effect {
        net := After(net, op);
      }
      failed := failed || !ok;
    }

    /** The next step of a plan that meets no taken name. */
    method Next(op: Op, ghost plan: seq<Op>) returns (ok: bool)
      requires OnPlan(plan) && Clean(start, plan) && steps + [op] <= plan
      modifies this
      ensures !collided && ok == !failed && steps == old(steps) + [op] && (ok ==> OnPlan(plan))
    {
      CleanPrefix(start, plan, |steps|);
      assert plan[..|steps|] == steps && plan[|steps|] == op;
      ok := Perform(op);
      assert steps[..|steps| - 1] == old(steps);
    }

    method AttachLinkMaster(link: string, master: string, ghost plan: seq<Op>) returns (ok: bool)
      requires OnPlan(plan) && Clean(start, plan) && steps + MasterOps(link, master) <= plan
      modifies this
      ensures !collided && ok == !failed && steps <= plan && (ok ==> OnPlan(plan) && steps == old(steps) + MasterOps(link, master))
    {
      if Blank(master) {
        return true;
      }
      ok := Next(SetMaster(link, TrimSpace(master)), plan);
    }

    method AttachPorts(ports: seq<string>, owner: string, ghost plan: seq<Op>) returns (ok: bool)
      requires OnPlan(plan) && Clean(start, plan) && steps + Flat(PortOps(owner), ports) <= plan
      modifies this
      ensures !collided && ok == !failed && steps <= plan
      ensures ok ==> OnPlan(plan) && steps == old(steps) + Flat(PortOps(owner), ports)
    {
      for i := 0 to |ports|
        invariant OnPlan(plan) && steps == old(steps) + Flat(PortOps(owner), ports[..i])
      {
        FlatFits(old(steps), PortOps(owner), ports, i, plan);
        ok := AttachLinkMaster(ports[i], owner, plan);
        if !ok {
          return;
        }
      }
      assert ports[..|ports|] == ports;
      ok := true;
    }

    method ConfigureVRFs(vrfs: seq<VRF>, ghost plan: seq<Op>) returns (ok: bool)
      requires OnPlan(plan) && Clean(start, plan) && steps + Flat(VRFOps, vrfs) <= plan
      modifies this
      ensures !collided && ok == !failed && steps <= plan && (ok ==> OnPlan(plan) && steps == old(steps) + Flat(VRFOps, vrfs))
    {
      for i := 0 to |vrfs|
        invariant OnPlan(plan) && steps == old(steps) + Flat(VRFOps, vrfs[..i])
      {
        FlatFits(old(steps), VRFOps, vrfs, i, plan);
        ok := Next(Create(vrfs[i].name), plan);
        if !ok {
          return;
        }
      }
      assert vrfs[..|vrfs|] == vrfs;
      ok := true;
    }

    method ConfigureBonds(bonds: seq<Bond>, ghost plan: seq<Op>) returns (ok: bool)
      requires OnPlan(plan) && Clean(start, plan) && steps + Flat(BondOps, bonds) <= plan
      modifies this
      ensures !collided && ok == !failed && steps <= plan && (ok ==> OnPlan(plan) && steps == old(steps) + Flat(BondOps, bonds))
    {
      for i := 0 to |bonds|
        invariant OnPlan(plan) && steps == old(steps) + Flat(BondOps, bonds[..i])
      {
        var b := bonds[i];
        FlatFits(old(steps), BondOps, bonds, i, plan);
        Fits(steps, [Create(b.name)], Flat(PortOps(b.name), b.interfaces), plan);
        ok := Next(Create(b.name), plan);
        if !ok {
          return;
        }
        ok := AttachPorts(b.interfaces, b.name, plan);
        if !ok {
          return;
        }
      }
      assert bonds[..|bonds|] == bonds;
      ok := true;
    }

    method ConfigureVXLANs(owner: string, vxlans: seq<VXLAN>, ghost plan: seq<Op>) returns (ok: bool)
      requires OnPlan(plan) && Clean(start, plan) && steps + Flat(VXLANOps(owner), vxlans) <= plan
      modifies this
      ensures !collided && ok == !failed && steps <= plan
      ensures ok ==> OnPlan(plan) && steps == old(steps) + Flat(VXLANOps(owner), vxlans)
    {
      for i := 0 to |vxlans|
        invariant OnPlan(plan) && steps == old(steps) + Flat(VXLANOps(owner), vxlans[..i])
      {
        var v := vxlans[i];
        FlatFits(old(steps), VXLANOps(owner), vxlans, i, plan);
        Fits(steps, [Create(v.name)], MasterOps(v.name, owner), plan);
        ok := Next(Create(v.name), plan);
        if !ok {
          return;
        }
        ok := AttachLinkMaster(v.name, owner, plan);
        if !ok {
          return;
        }
      }
      assert vxlans[..|vxlans|] == vxlans;
      ok := true;
    }

    method ConfigureNamespacePeer(peer: string, n: Namespace, ghost plan: seq<Op>) returns (ok: bool)
      requires OnPlan(plan) && Clean(start, plan) && steps + PeerOps(peer, n) <= plan
      modifies this
      ensures !collided && ok == !failed && steps <= plan && (ok ==> OnPlan(plan) && steps == old(steps) + PeerOps(peer, n))
    {
      assert steps + PeerOps(peer, n)
          == steps + [AddSpace(n.name)] + [MoveToSpace(peer, n.name)] + [Rename(n.name, peer, n.ifName)];
      ok := Next(AddSpace(n.name), plan);
      if !ok {
        return;
      }
      ok := Next(MoveToSpace(peer, n.name), plan);
      if !ok {
        return;
      }
      ok := Next(Rename(n.name, peer, n.ifName), plan);
    }

    method ConfigureNamespaces(gen: Generator, bridge: string, ns: seq<Namespace>, ghost plan: seq<Op>) returns (ok: bool)
      requires OnPlan(plan) && Clean(start, plan) && steps + Flat(NamespaceOps(gen, bridge), ns) <= plan
      modifies this
      ensures !collided && ok == !failed && steps <= plan
      ensures ok ==> OnPlan(plan) && steps == old(steps) + Flat(NamespaceOps(gen, bridge), ns)
    {
      for i := 0 to |ns|
        invariant OnPlan(plan) && steps == old(steps) + Flat(NamespaceOps(gen, bridge), ns[..i])
      {
        var n := ns[i];
        var host, peer := gen.host(bridge, n.name), gen.peer(bridge, n.name);
        FlatFits(old(steps), NamespaceOps(gen, bridge), ns, i, plan);
        Fits(steps, [CreatePair(host, peer)] + MasterOps(host, bridge), PeerOps(peer, n), plan);
        Fits(steps, [CreatePair(host, peer)], MasterOps(host, bridge), plan);
        ok := Next(CreatePair(host, peer), plan);
        if !ok {
          return;
        }
        ok := AttachLinkMaster(host, bridge, plan);
        if !ok {
          return;
        }
        ok := ConfigureNamespacePeer(peer, n, plan);
        if !ok {
          return;
        }
      }
      assert ns[..|ns|] == ns;
      ok := true;
    }

    method ConfigureBridge(gen: Generator, b: Bridge, ghost plan: seq<Op>) returns (ok: bool)
      requires OnPlan(plan) && Clean(start, plan) && steps + BridgeOps(gen)(b) <= plan
      modifies this
      ensures !collided && ok == !failed && steps <= plan && (ok ==> OnPlan(plan) && steps == old(steps) + BridgeOps(gen)(b))
    {
      ghost var p2 := [Create(b.name)] + MasterOps(b.name, b.master);
      ghost var p3 := p2 + Flat(PortOps(b.name), b.interfaces);
      ghost var p4 := p3 + Flat(VXLANOps(b.name), b.vxlans);
      Fits(steps, p4, Flat(NamespaceOps(gen, b.name), b.namespaces), plan);
      Fits(steps, p3, Flat(VXLANOps(b.name), b.vxlans), plan);
      Fits(steps, p2, Flat(PortOps(b.name), b.interfaces), plan);
      Fits(steps, [Create(b.name)], MasterOps(b.name, b.master), plan);
      ok := Next(Create(b.name), plan);
      if !ok {
        return;
      }
      ok := AttachLinkMaster(b.name, b.master, plan);
      if !ok {
        return;
      }
      ok := AttachPorts(b.interfaces, b.name, plan);
      if !ok {
        return;
      }
      ok := ConfigureVXLANs(b.name, b.vxlans, plan);
      if !ok {
        return;
      }
      ok := ConfigureNamespaces(gen, b.name, b.namespaces, plan);
    }

    method ConfigureBridges(gen: Generator, bridges: seq<Bridge>, ghost plan: seq<Op>) returns (ok: bool)
      requires OnPlan(plan) && Clean(start, plan) && steps + Flat(BridgeOps(gen), bridges) <= plan
      modifies this
      ensures !collided && ok == !failed && steps <= plan
      ensures ok ==> OnPlan(plan) && steps == old(steps) + Flat(BridgeOps(gen), bridges)
    {
      for i := 0 to |bridges|
        invariant OnPlan(plan) && steps == old(steps) + Flat(BridgeOps(gen), bridges[..i])
      {
        FlatFits(old(steps), BridgeOps(gen), bridges, i, plan);
        ok := ConfigureBridge(gen, bridges[i], plan);
        if !ok {
          return;
        }
      }
      assert bridges[..|bridges|] == bridges;
      ok := true;
    }

    /** Bonds join their own masters only once the bridges exist. */
    method AttachBonds(bonds: seq<Bond>, ghost plan: seq<Op>) returns (ok: bool)
      requires OnPlan(plan) && Clean(start, plan) && steps + Flat(BondMasterOps, bonds) <= plan
      modifies this
      ensures !collided && ok == !failed && steps <= plan && (ok ==> OnPlan(plan) && steps == old(steps) + Flat(BondMasterOps, bonds))
    {
      for i := 0 to |bonds|
        invariant OnPlan(plan) && steps == old(steps) + Flat(BondMasterOps, bonds[..i])
      {
        FlatFits(old(steps), BondMasterOps, bonds, i, plan);
        ok := AttachLinkMaster(bonds[i].name, bonds[i].master, plan);
        if !ok {
          return;
        }
      }
      assert bonds[..|bonds|] == bonds;
      ok := true;
    }

    method ConfigureInterfaces(ifaces: seq<Interface>, ghost plan: seq<Op>) returns (ok: bool)
      requires OnPlan(plan) && Clean(start, plan) && steps + Flat(InterfaceOps, ifaces) <= plan
      modifies this
      ensures !collided && ok == !failed && steps <= plan && (ok ==> OnPlan(plan) && steps == old(steps) + Flat(InterfaceOps, ifaces))
    {
      for i := 0 to |ifaces|
        invariant OnPlan(plan) && steps == old(steps) + Flat(InterfaceOps, ifaces[..i])
      {
        FlatFits(old(steps), InterfaceOps, ifaces, i, plan);
        ok := AttachLinkMaster(ifaces[i].name, ifaces[i].master, plan);
        if !ok {
          return;
        }
      }
      assert ifaces[..|ifaces|] == ifaces;
      ok := true;
    }

    method ConfigureVeths(veths: seq<Veth>, ghost plan: seq<Op>) returns (ok: bool)
      requires OnPlan(plan) && Clean(start, plan) && steps + Flat(VethOps, veths) <= plan
      modifies this
      ensures !collided && ok == !failed && steps <= plan && (ok ==> OnPlan(plan) && steps == old(steps) + Flat(VethOps, veths))
    {
      for i := 0 to |veths|
        invariant OnPlan(plan) && steps == old(steps) + Flat(VethOps, veths[..i])
      {
        var v := veths[i];
        ghost var moves := if v.namespace.Some? then PeerOps(v.peer, v.namespace.value) else [];
        FlatFits(old(steps), VethOps, veths, i, plan);
        Fits(steps, [CreatePair(v.name, v.peer)] + MasterOps(v.name, v.master), moves, plan);
        Fits(steps, [CreatePair(v.name, v.peer)], MasterOps(v.name, v.master), plan);
        ok := Next(CreatePair(v.name, v.peer), plan);
        if !ok {
          return;
        }
        ok := AttachLinkMaster(v.name, v.master, plan);
        if !ok {
          return;
        }
        if v.namespace.Some? {
          ok := ConfigureNamespacePeer(v.peer, v.namespace.value, plan);
          if !ok {
            return;
          }
        }
      }
      assert veths[..|veths|] == veths;
      ok := true;
    }

    /** Devices up to the last bridge. */
    method ConfigureDevices(gen: Generator, s: Section, ghost plan: seq<Op>) returns (ok: bool)
      requires OnPlan(plan) && Clean(start, plan) && steps == []
      requires Flat(VRFOps, s.vrfs) + Flat(BondOps, s.bonds) + Flat(BridgeOps(gen), s.bridges) <= plan
      modifies this
      ensures !collided && ok == !failed && steps <= plan
      ensures ok ==> OnPlan(plan) && steps == Flat(VRFOps, s.vrfs) + Flat(BondOps, s.bonds) + Flat(BridgeOps(gen), s.bridges)
    {
      ghost var vrfs, bonds := Flat(VRFOps, s.vrfs), Flat(BondOps, s.bonds);
      assert [] + vrfs == vrfs;
      ok := ConfigureVRFs(s.vrfs, plan);
      if !ok {
        return;
      }
      assert vrfs + bonds <= vrfs + bonds + Flat(BridgeOps(gen), s.bridges);
      ok := ConfigureBonds(s.bonds, plan);
      if !ok {
        return;
      }
      ok := ConfigureBridges(gen, s.bridges, plan);
    }

    /** Masters of the bonds and interfaces, and the veths, once every bridge exists. */
    method ConfigureRest(s: Section, ghost plan: seq<Op>) returns (ok: bool)
      requires OnPlan(plan) && Clean(start, plan)
      requires steps + Flat(BondMasterOps, s.bonds) + Flat(InterfaceOps, s.interfaces) + Flat(VethOps, s.veths) <= plan
      modifies this
      ensures !collided && ok == !failed && steps <= plan
      ensures ok ==>
                && OnPlan(plan)
                && steps == old(steps) + Flat(BondMasterOps, s.bonds) + Flat(InterfaceOps, s.interfaces) + Flat(VethOps, s.veths)
    {
      ghost var s1 := steps + Flat(BondMasterOps, s.bonds);
      ghost var s2 := s1 + Flat(InterfaceOps, s.interfaces);
      assert s1 <= s2 <= s2 + Flat(VethOps, s.veths);
      ok := AttachBonds(s.bonds, plan);
      if !ok {
        return;
      }
      ok := ConfigureInterfaces(s.interfaces, plan);
      if !ok {
        return;
      }
      ok := ConfigureVeths(s.veths, plan);
    }

    method RunProgram(gen: Generator, s: Section) returns (ok: bool)
      requires OnPlan(Program(gen, s)) && Clean(start, Program(gen, s)) && steps == []
      modifies this
      ensures !collided && ok == !failed && steps <= Program(gen, s)
      ensures ok ==> OnPlan(Program(gen, s)) && steps == Program(gen, s)
    {
      ghost var plan := Program(gen, s);
      ghost var devices := Flat(VRFOps, s.vrfs) + Flat(BondOps, s.bonds) + Flat(BridgeOps(gen), s.bridges);
      assert devices <= plan;
      ok := ConfigureDevices(gen, s, plan);
      if !ok {
        return;
      }
      ok := ConfigureRest(s, plan);
    }

    /**
     * Runs a beginning of the section's program, all of it unless a step fails.  On an
     * accepted section no step, of the ones taken, meets a taken name, whichever step
     * fails; and once it is through the router has the links and namespaces the section
     * asks for, and no others.
     */
    method ConfigureLinux(gen: Generator, s: Section, lib: Library, ghost linkDevices: set<string>) returns (ok: bool)
      requires start == net == Net({"lo"} + linkDevices, map[]) && steps == [] && !collided && !failed
      requires Accepted(lib, s, linkDevices)
      requires forall x :: x in linkDevices ==> TrimSpace(x) == x
      requires Fresh(gen, Pairs(s), UserNames(s, linkDevices))
      modifies this
      ensures !collided && ok == !failed && steps <= Program(gen, s)
      ensures ok ==> steps == Program(gen, s) && net == RunOps(start, Program(gen, s))
      ensures ok ==> Holds(net, LinksLeft(gen, s, linkDevices), NamespacesLeft(s))
    {
      AcceptedSectionsAreClean(lib, s, linkDevices, gen);
      ok := RunProgram(gen, s);
      CleanRunLeaves(gen, s, linkDevices);
    }
  }
}
