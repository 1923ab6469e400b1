/**
 * `configureLinks` (internal/runtime/runtime.go): every link of the topology, with each
 * bridge recorded before it is created.
 */
module Wiring {
  import opened State
  import opened HostLinks
  import opened LabHost
  import opened Topology

  type Running = map<string, ContainerState>

  function Ids(cs: Running): set<string> {
    set r | r in cs :: cs[r].id
  }

  /** What links look like from the host. */
  datatype Wires = Wires(host: Links, masters: map<string, string>, moved: set<(string, string)>)

  ghost function WiresOf(w: Host): Wires
    reads w`host, w`masters, w`moved
  {
    Wires(w.host, w.masters, w.moved)
  }

  ghost predicate Extends(a: Wires, b: Wires) {
    Part(a.host, b.host) && Part(a.masters, b.masters) && a.moved <= b.moved
  }

  /** One member: a port of the bridge on the host, its peer in the member's router. */
  ghost predicate Plugged(v: Wires, bridge: string, port: string, peer: string, id: string) {
    && port in v.host && v.host[port] == Veth(Inside(id))
    && port in v.masters && v.masters[port] == bridge
    && (id, peer) in v.moved
  }

  ghost predicate MembersPlugged(namer: Namer, v: Wires, cs: Running, l: Link, n: nat)
    requires n <= |l.members| && forall m :: m in l.members ==> m.router in cs
  {
    forall k :: 0 <= k < n ==>
      Plugged(v, namer.bridge(l.name), namer.port(l.name, l.members[k]), namer.peer(l.name, l.members[k]),
              cs[l.members[k].router].id)
  }

  predicate LinkShape(cs: Running, l: Link) {
    && (forall m :: m in l.members ==> m.router in cs)
    && (l.kind == "p2p" ==> |l.members| == 2)
    && (l.kind == "bridge" ==> l.members != [])
  }

  /** A link as its routers and the host see it when it is done. */
  ghost predicate Attached(namer: Namer, v: Wires, cs: Running, l: Link)
    requires LinkShape(cs, l)
  {
    && (l.kind == "bridge" ==>
          && namer.bridge(l.name) in v.host && v.host[namer.bridge(l.name)] == Bridge
          && MembersPlugged(namer, v, cs, l, |l.members|))
    && (l.kind == "p2p" ==>
          && (cs[l.members[0].router].id, namer.temp(l.name, "a")) in v.moved
          && (cs[l.members[1].router].id, namer.temp(l.name, "b")) in v.moved)
  }

  lemma AttachedStays(namer: Namer, a: Wires, b: Wires, cs: Running, l: Link)
    requires LinkShape(cs, l) && Attached(namer, a, cs, l) && Extends(a, b)
    ensures Attached(namer, b, cs, l)
  {
  }

  function EndSet(namer: Namer, l: Link): set<string> {
    set n | n in EndNames(namer, l)
  }

  /** Recorded processes are those of the recorded containers. */
  ghost predicate PidsKnown(w: Host, cs: Running)
    reads w`containers
  {
    forall r :: r in cs ==> cs[r].pid >= 0 && w.Hosts(cs[r].id, cs[r].pid)
  }

  method AttachMember(w: Host, l: Link, k: nat, cs: Running) returns (ok: bool)
    requires w.Valid() && PidsKnown(w, cs) && l.kind == "bridge" && LinkShape(cs, l) && k < |l.members|
    modifies w`host, w`masters, w`moved, w`failed
    ensures w.Valid() && w.failed == Noted(old(w.failed), ok, BringingUp)
    ensures Extends(old(WiresOf(w)), WiresOf(w))
    ensures Grown(old(w.host), w.host, EndSet(w.namer, l), Ids(cs))
    ensures ok ==> w.namer.bridge(l.name) in w.host && w.host[w.namer.bridge(l.name)] == Bridge
    ensures ok ==> Plugged(WiresOf(w), w.namer.bridge(l.name), w.namer.port(l.name, l.members[k]),
                           w.namer.peer(l.name, l.members[k]), cs[l.members[k].router].id)
  {
    var bridge, m := w.namer.bridge(l.name), l.members[k];
    var port, peer := w.namer.port(l.name, m), w.namer.peer(l.name, m);
    MembersAreNamed(w.namer, l, k);
    ok := w.CreateBridgeAttachment(bridge, port, peer, cs[m.router].pid, cs[m.router].id);
    // The peer's own configuration is the container's business.
    if ok {
      ok := w.WorkInside();
    }
  }

  lemma PluggedStays(namer: Namer, a: Wires, b: Wires, cs: Running, l: Link, k: nat)
    requires LinkShape(cs, l) && k < |l.members| && MembersPlugged(namer, a, cs, l, k) && Extends(a, b)
    requires Plugged(b, namer.bridge(l.name), namer.port(l.name, l.members[k]), namer.peer(l.name, l.members[k]),
                     cs[l.members[k].router].id)
    ensures MembersPlugged(namer, b, cs, l, k + 1)
  {
  }

  method AttachMembers(w: Host, l: Link, cs: Running) returns (ok: bool)
    requires w.Valid() && PidsKnown(w, cs) && l.kind == "bridge" && LinkShape(cs, l)
    modifies w`host, w`masters, w`moved, w`failed
    ensures w.Valid() && w.failed == Noted(old(w.failed), ok, BringingUp)
    ensures Extends(old(WiresOf(w)), WiresOf(w))
    ensures Grown(old(w.host), w.host, EndSet(w.namer, l), Ids(cs))
    ensures ok ==> Attached(w.namer, WiresOf(w), cs, l)
  {
    ghost var h0 := w.host;
    var names := EndSet(w.namer, l);
    for k := 0 to |l.members|
      invariant w.Valid() && Extends(old(WiresOf(w)), WiresOf(w))
      invariant Grown(h0, w.host, names, Ids(cs))
      invariant 0 < k ==> w.namer.bridge(l.name) in w.host && w.host[w.namer.bridge(l.name)] == Bridge
      invariant MembersPlugged(w.namer, WiresOf(w), cs, l, k)
      invariant w.failed == old(w.failed)
    {
      ghost var h1, v1 := w.host, WiresOf(w);
      ok := AttachMember(w, l, k, cs);
      GrownAgain(h0, h1, w.host, names, names, Ids(cs), Ids(cs), names, Ids(cs));
      if !ok {
        return;
      }
      PluggedStays(w.namer, v1, WiresOf(w), cs, l, k);
    }
    ok := true;
  }

  /** Both ends leave the host. */
  method AttachPair(w: Host, l: Link, cs: Running) returns (ok: bool)
    requires w.Valid() && PidsKnown(w, cs) && l.kind == "p2p" && LinkShape(cs, l)
    modifies w`host, w`moved, w`failed
    ensures w.Valid() && w.failed == Noted(old(w.failed), ok, BringingUp)
    ensures Extends(old(WiresOf(w)), WiresOf(w))
    ensures Grown(old(w.host), w.host, EndSet(w.namer, l), Ids(cs))
    ensures ok ==> Attached(w.namer, WiresOf(w), cs, l)
  {
    var left, right := l.members[0], l.members[1];
    var a, b := w.namer.temp(l.name, "a"), w.namer.temp(l.name, "b");
    assert EndNames(w.namer, l) == [a, b];
    ok := w.CreateP2PAttachment(a, cs[left.router].pid, b, cs[right.router].pid, cs[left.router].id, cs[right.router].id);
    if ok {
      ok := w.WorkInside();
    }
  }

  /** Every value is the bridge named for its key. */
  predicate NamedByKey(namer: Namer, owned: map<string, string>) {
    forall k :: k in owned ==> owned[k] == namer.bridge(k)
  }

  /** Recording one more bridge forgets none. */
  lemma RecordBridge(namer: Namer, owned: map<string, string>, link: string)
    requires NamedByKey(namer, owned)
    ensures var more := owned[link := namer.bridge(link)];
            NamedByKey(namer, more) && more.Values == owned.Values + {namer.bridge(link)}
  {
    var more := owned[link := namer.bridge(link)];
    forall v | v in owned.Values ensures v in more.Values {
      var k :| k in owned && owned[k] == v;
      assert more[k] == v;
    }
    assert more[link] == namer.bridge(link);
  }

  /** The bridge, then its members. */
  method ConfigureBridgeLink(w: Host, l: Link, cs: Running) returns (ok: bool)
    requires w.Valid() && PidsKnown(w, cs) && l.kind == "bridge" && LinkShape(cs, l)
    modifies w`host, w`masters, w`moved, w`made, w`failed
    ensures w.Valid() && w.failed == Noted(old(w.failed), ok, BringingUp)
    ensures Extends(old(WiresOf(w)), WiresOf(w))
    ensures Grown(old(w.host), w.host, EndSet(w.namer, l) + {w.namer.bridge(l.name)}, Ids(cs))
    ensures old(w.made) <= w.made <= old(w.made) + {w.namer.bridge(l.name)}
    ensures ok ==> Attached(w.namer, WiresOf(w), cs, l)
  {
    ghost var h0, names := w.host, EndSet(w.namer, l);
    var bridge := w.namer.bridge(l.name);
    ok := w.EnsureBridge(bridge);
    GrownAgain(h0, h0, w.host, {}, {bridge}, {}, {}, names + {bridge}, Ids(cs));
    if !ok {
      return;
    }
    ghost var h1 := w.host;
    ok := AttachMembers(w, l, cs);
    GrownAgain(h0, h1, w.host, {bridge}, names, {}, Ids(cs), names + {bridge}, Ids(cs));
  }

  /** One link: the record comes first, then what it records. */
  method ConfigureLink(w: Host, l: Link, cs: Running, owned: map<string, string>) returns (ok: bool, recorded: map<string, string>)
    requires w.Valid() && PidsKnown(w, cs) && LinkShape(cs, l) && NamedByKey(w.namer, owned)
    modifies w`host, w`masters, w`moved, w`made, w`failed
    ensures w.Valid() && w.failed == Noted(old(w.failed), ok, BringingUp)
    ensures Extends(old(WiresOf(w)), WiresOf(w))
    ensures recorded == Recording(w.namer, owned, l)
    ensures Grown(old(w.host), w.host, EndSet(w.namer, l) + recorded.Values, Ids(cs))
    ensures old(w.made) <= w.made <= old(w.made) + recorded.Values
    ensures ok ==> Attached(w.namer, WiresOf(w), cs, l)
  {
    recorded := owned;
    ghost var h0, ends := w.host, EndSet(w.namer, l);
    if l.kind == "bridge" {
      var bridge := w.namer.bridge(l.name);
      RecordBridge(w.namer, owned, l.name);
      recorded := owned[l.name := bridge];
      ok := ConfigureBridgeLink(w, l, cs);
      GrownAgain(h0, h0, w.host, {}, ends + {bridge}, {}, Ids(cs), ends + recorded.Values, Ids(cs));
    } else if l.kind == "p2p" {
      ok := AttachPair(w, l, cs);
      GrownAgain(h0, h0, w.host, {}, ends, {}, Ids(cs), ends + recorded.Values, Ids(cs));
    } else {
      ok := true;
    }
  }

  /** The bridges recorded when some links are done. */
  ghost predicate ListedSoFar(namer: Namer, links: seq<Link>, owned: map<string, string>) {
    exists i :: 0 <= i <= |links| && owned == Inventory(namer, links[..i])
  }

  lemma EndsGrow(namer: Namer, links: seq<Link>, i: nat)
    requires i < |links|
    ensures EndSet(namer, links[i]) <= AllEndNames(namer, links)
  {
    EndsAreNamed(namer, links, i);
  }

  function Recording(namer: Namer, owned: map<string, string>, l: Link): map<string, string> {
    if l.kind == "bridge" then owned[l.name := namer.bridge(l.name)] else owned
  }

  /** One more link recorded. */
  lemma InventoryAdvances(namer: Namer, links: seq<Link>, i: nat, owned: map<string, string>)
    requires i < |links| && owned == Inventory(namer, links[..i])
    ensures NamedByKey(namer, owned) && owned.Values <= Recording(namer, owned, links[i]).Values
    ensures Recording(namer, owned, links[i]) == Inventory(namer, links[..i + 1])
  {
    InventoryHolds(namer, links[..i]);
    RecordBridge(namer, owned, links[i].name);
    assert links[..i + 1][..i] == links[..i];
  }

  /** The first links are done. */
  ghost predicate AttachedSoFar(namer: Namer, v: Wires, cs: Running, links: seq<Link>, n: nat)
    requires n <= |links| && forall i :: 0 <= i < |links| ==> LinkShape(cs, links[i])
  {
    forall i :: 0 <= i < n ==> Attached(namer, v, cs, links[i])
  }

  lemma OneMoreAttached(namer: Namer, a: Wires, b: Wires, cs: Running, links: seq<Link>, n: nat)
    requires n < |links| && forall i :: 0 <= i < |links| ==> LinkShape(cs, links[i])
    requires AttachedSoFar(namer, a, cs, links, n) && Extends(a, b) && Attached(namer, b, cs, links[n])
    ensures AttachedSoFar(namer, b, cs, links, n + 1)
  {
    forall i | 0 <= i < n ensures Attached(namer, b, cs, links[i]) {
      AttachedStays(namer, a, b, cs, links[i]);
    }
  }

  /** How far wiring has come: the first links are recorded and done, and nothing else has changed. */
  ghost predicate WiredSoFar(namer: Namer, before: Wires, now: Wires, cs: Running, links: seq<Link>, owned: map<string, string>, n: nat)
    requires n <= |links| && forall i :: 0 <= i < |links| ==> LinkShape(cs, links[i])
  {
    && owned == Inventory(namer, links[..n]) && Extends(before, now)
    && Grown(before.host, now.host, AllEndNames(namer, links) + owned.Values, Ids(cs))
    && AttachedSoFar(namer, now, cs, links, n)
  }

  /** One more link, done or given up. */
  lemma LinkWired(namer: Namer, before: Wires, was: Wires, now: Wires, cs: Running, links: seq<Link>,
                  owned: map<string, string>, recorded: map<string, string>, n: nat, ok: bool)
    requires n < |links| && forall i :: 0 <= i < |links| ==> LinkShape(cs, links[i])
    requires WiredSoFar(namer, before, was, cs, links, owned, n) && Extends(was, now)
    requires recorded == Recording(namer, owned, links[n])
    requires Grown(was.host, now.host, EndSet(namer, links[n]) + recorded.Values, Ids(cs))
    requires ok ==> Attached(namer, now, cs, links[n])
    ensures Extends(before, now) && recorded == Inventory(namer, links[..n + 1]) && owned.Values <= recorded.Values
    ensures Grown(before.host, now.host, AllEndNames(namer, links) + recorded.Values, Ids(cs))
    ensures ok ==> WiredSoFar(namer, before, now, cs, links, recorded, n + 1)
  {
    InventoryAdvances(namer, links, n, owned);
    EndsGrow(namer, links, n);
    GrownAgain(before.host, was.host, now.host, AllEndNames(namer, links) + owned.Values, EndSet(namer, links[n]) + recorded.Values,
               Ids(cs), Ids(cs), AllEndNames(namer, links) + recorded.Values, Ids(cs));
    if ok {
      OneMoreAttached(namer, was, now, cs, links, n);
    }
  }

  method ConfigureLinks(w: Host, links: seq<Link>, cs: Running) returns (ok: bool, owned: map<string, string>)
    requires w.Valid() && PidsKnown(w, cs) && forall i :: 0 <= i < |links| ==> LinkShape(cs, links[i])
    modifies w`host, w`masters, w`moved, w`made, w`failed
    ensures w.Valid() && w.failed == Noted(old(w.failed), ok, BringingUp)
    ensures Extends(old(WiresOf(w)), WiresOf(w))
    ensures ListedSoFar(w.namer, links, owned)
    ensures Grown(old(w.host), w.host, AllEndNames(w.namer, links) + owned.Values, Ids(cs))
    ensures old(w.made) <= w.made <= old(w.made) + owned.Values
    ensures ok ==> owned == Inventory(w.namer, links)
    ensures ok ==> AttachedSoFar(w.namer, WiresOf(w), cs, links, |links|)
  {
    ghost var before := WiresOf(w);
    owned := map[];
    for i := 0 to |links|
      invariant w.Valid() && WiredSoFar(w.namer, before, WiresOf(w), cs, links, owned, i)
      invariant old(w.made) <= w.made <= old(w.made) + owned.Values && w.failed == old(w.failed)
    {
      ghost var was, recorded := WiresOf(w), owned;
      InventoryAdvances(w.namer, links, i, owned);
      ok, owned := ConfigureLink(w, links[i], cs, owned);
      LinkWired(w.namer, before, was, WiresOf(w), cs, links, recorded, owned, i, ok);
      if !ok {
        return;
      }
    }
    assert links[..|links|] == links;
    ok := true;
  }
}
