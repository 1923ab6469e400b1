/** Labs on one machine: with the names in use, cleaning up after one leaves another's links alone. */
module LabsApart {
  import opened Options
  import opened Names
  import opened Sequences
  import opened State
  import opened HostLinks
  import opened LabHost
  import opened Topology
  import opened Cleanup
  import opened Wiring
  import opened Lifecycle

  /** Every key of a lab begins with the lab. */
  function LabKey(lab: string, rest: string): string {
    lab + "/" + rest
  }

  /** A name generated for a lab from one of the keys. */
  ghost predicate OfLab(hex: Digest, lab: string, keys: set<string>, name: string) {
    exists prefix, rest :: |prefix| == 3 && LabKey(lab, rest) in keys && name == ShortName(hex, prefix, LabKey(lab, rest))
  }

  /** No name is of two labs: the lab is what every key begins with, and the key is what the name tells. */
  lemma OfOneLab(hex: Digest, lab: string, lab': string, keys: set<string>, name: string)
    requires NoCollision(hex, keys) && IsPathComponent(lab) && IsPathComponent(lab')
    requires OfLab(hex, lab, keys, name) && OfLab(hex, lab', keys, name)
    ensures lab == lab'
  {
    var prefix, rest :| |prefix| == 3 && LabKey(lab, rest) in keys && name == ShortName(hex, prefix, LabKey(lab, rest));
    var prefix', rest' :| |prefix'| == 3 && LabKey(lab', rest') in keys && name == ShortName(hex, prefix', LabKey(lab', rest'));
    ShortNamesTell(hex, prefix, LabKey(lab, rest), prefix', LabKey(lab', rest'));
    FirstComponent(lab, rest, lab', rest');
  }

  // ---------------------------------------------------------------------------
  // The keys of a lab.

  function MemberKeys(lab: string, link: string): Member -> seq<string> {
    (m: Member) => [Key(BridgePort(lab, link, m.router, m.ifName)), Key(BridgePeer(lab, link, m.router, m.ifName))]
  }

  function LinkKeys(lab: string): Link -> seq<string> {
    (l: Link) =>
      if l.kind == "bridge" then Flat(MemberKeys(lab, l.name), l.members)
      else if l.kind == "p2p" then [Key(P2PSide(lab, l.name, "a")), Key(P2PSide(lab, l.name, "b"))]
      else []
  }

  /** Everything hashed for the links of a topology and the bridges of a snapshot. */
  ghost function LabKeys(lab: string, t: Topology, s: LabState): set<string> {
    (set k | k in Flat(LinkKeys(lab), t.links))
    + (if s.owned.Some? then set link | link in s.owned.value :: Key(LabBridge(lab, link)) else {})
  }

  lemma ShortNameOfLab(hex: Digest, lab: string, keys: set<string>, prefix: string, rest: string)
    requires |prefix| == 3 && LabKey(lab, rest) in keys
    ensures OfLab(hex, lab, keys, ShortName(hex, prefix, LabKey(lab, rest)))
  {
  }

  lemma MemberKeyOfLab(lab: string, link: string, router: string, ifName: string, tail: string)
    ensures MemberKey(lab, link, router, ifName) + tail == LabKey(lab, link + "/" + router + "/" + ifName + tail)
  {
  }

  lemma MemberNamesOfLab(hex: Digest, lab: string, link: string, m: Member, keys: set<string>)
    requires forall k :: k in MemberKeys(lab, link)(m) ==> k in keys
    ensures forall n :: n in MemberEnds(Generated(hex, lab), link)(m) ==> OfLab(hex, lab, keys, n)
  {
    var f := MemberKeys(lab, link)(m);
    assert f[0] in keys && f[1] in keys;
    MemberKeyOfLab(lab, link, m.router, m.ifName, "/host");
    MemberKeyOfLab(lab, link, m.router, m.ifName, "/peer");
    ShortNameOfLab(hex, lab, keys, "frh", link + "/" + m.router + "/" + m.ifName + "/host");
    ShortNameOfLab(hex, lab, keys, "frp", link + "/" + m.router + "/" + m.ifName + "/peer");
  }

  lemma PairNamesOfLab(hex: Digest, lab: string, link: string, side: string, keys: set<string>)
    requires Key(P2PSide(lab, link, side)) in keys
    ensures OfLab(hex, lab, keys, Generated(hex, lab).temp(link, side))
  {
    Regroup(lab, link, side);
    ShortNameOfLab(hex, lab, keys, "frt", link + "/" + side);
  }

  lemma EndNamesOfLab(hex: Digest, lab: string, l: Link, keys: set<string>)
    requires forall k :: k in LinkKeys(lab)(l) ==> k in keys
    ensures forall n :: n in EndNames(Generated(hex, lab), l) ==> OfLab(hex, lab, keys, n)
  {
    if l.kind == "bridge" {
      var namer := Generated(hex, lab);
      forall m | m in l.members ensures forall n :: n in MemberEnds(namer, l.name)(m) ==> OfLab(hex, lab, keys, n) {
        var i :| 0 <= i < |l.members| && l.members[i] == m;
        forall k | k in MemberKeys(lab, l.name)(m) ensures k in keys {
          InFlat(MemberKeys(lab, l.name), l.members, i, k);
        }
        MemberNamesOfLab(hex, lab, l.name, m, keys);
      }
      FlatEach(MemberEnds(namer, l.name), l.members, n => OfLab(hex, lab, keys, n));
    } else if l.kind == "p2p" {
      var f := LinkKeys(lab)(l);
      assert f[0] in keys && f[1] in keys;
      PairNamesOfLab(hex, lab, l.name, "a", keys);
      PairNamesOfLab(hex, lab, l.name, "b", keys);
    }
  }

  lemma AllEndNamesOfLab(hex: Digest, lab: string, links: seq<Link>, keys: set<string>)
    requires forall k :: k in Flat(LinkKeys(lab), links) ==> k in keys
    ensures forall n :: n in AllEndNames(Generated(hex, lab), links) ==> OfLab(hex, lab, keys, n)
  {
    var f := LinkEndNames(Generated(hex, lab));
    forall l | l in links ensures forall n :: n in f(l) ==> OfLab(hex, lab, keys, n) {
      var i :| 0 <= i < |links| && links[i] == l;
      forall k | k in LinkKeys(lab)(l) ensures k in keys {
        InFlat(LinkKeys(lab), links, i, k);
      }
      EndNamesOfLab(hex, lab, l, keys);
    }
    FlatEach(f, links, n => OfLab(hex, lab, keys, n));
  }

  lemma OwnedNamesOfLab(hex: Digest, lab: string, s: LabState, keys: set<string>)
    requires s.owned.Some? && OwnedOk(Generated(hex, lab).bridge, s.owned.value)
    requires forall link :: link in s.owned.value ==> Key(LabBridge(lab, link)) in keys
    ensures forall n :: n in OwnedNames(s) ==> OfLab(hex, lab, keys, n)
  {
    forall n | n in OwnedNames(s) ensures OfLab(hex, lab, keys, n) {
      var link :| link in s.owned.value && s.owned.value[link] == n;
      ShortNameOfLab(hex, lab, keys, "frb", link);
    }
  }

  /** Everything a cleanup may delete by name is a name of its own lab. */
  lemma DoomedNamesOfLab(hex: Digest, lab: string, t: Topology, s: LabState, keys: set<string>)
    requires Usable(Generated(hex, lab), lab, s) && LabKeys(lab, t, s) <= keys
    ensures forall n :: n in DoomedNames(Generated(hex, lab), t, Some(s)) ==> OfLab(hex, lab, keys, n)
  {
    assert forall k :: k in Flat(LinkKeys(lab), t.links) ==> k in LabKeys(lab, t, s);
    assert forall link :: link in s.owned.value ==> Key(LabBridge(lab, link)) in LabKeys(lab, t, s);
    AllEndNamesOfLab(hex, lab, t.links, keys);
    OwnedNamesOfLab(hex, lab, s, keys);
  }

  /** What two labs may delete by name has nothing in common. */
  lemma DoomedNamesDisjoint(hex: Digest, lab: string, t: Topology, s: LabState, lab': string, t': Topology, s': LabState)
    requires lab != lab' && IsPathComponent(lab) && IsPathComponent(lab')
    requires Usable(Generated(hex, lab), lab, s) && Usable(Generated(hex, lab'), lab', s')
    requires NoCollision(hex, LabKeys(lab, t, s) + LabKeys(lab', t', s'))
    ensures DoomedNames(Generated(hex, lab), t, Some(s)) !! DoomedNames(Generated(hex, lab'), t', Some(s'))
  {
    var keys := LabKeys(lab, t, s) + LabKeys(lab', t', s');
    DoomedNamesOfLab(hex, lab, t, s, keys);
    DoomedNamesOfLab(hex, lab', t', s', keys);
    forall n | n in DoomedNames(Generated(hex, lab), t, Some(s)) ensures n !in DoomedNames(Generated(hex, lab'), t', Some(s')) {
      if OfLab(hex, lab', keys, n) {
        OfOneLab(hex, lab, lab', keys, n);
      }
    }
  }

  // ---------------------------------------------------------------------------
  // Cleaning up beside another lab.

  /** Links of these names end among themselves, or in containers that are not to be removed. */
  ghost predicate KeepToThemselves(host: Links, names: set<string>, ids: set<string>) {
    forall x :: x in names && x in host && host[x].Veth? ==>
      match host[x].peer
      case OnHost(m) => m in names
      case Inside(c) => c !in ids
  }

  lemma SparedLinks(before: Links, after: Links, ids: set<string>, names: set<string>, others: set<string>)
    requires Part(Clear(before, ids, names), after) && names !! others && KeepToThemselves(before, others, ids)
    ensures forall x :: x in others && x in before ==> x in after && after[x] == before[x]
  {
    forall x | x in others && x in before ensures x in Clear(before, ids, names) {
      assert x !in names;
    }
  }

  /**
   * However a lab's cleanup goes, every link that bears a name of another lab stays as it
   * is, with its ends, provided no container of that lab is removed.
   */
  lemma OtherLabSpared(w: Host, before: Scene, ids: set<string>, hex: Digest, t: Topology, s: LabState,
                       lab': string, t': Topology, s': LabState)
    requires w.namer == Generated(hex, w.lab) && Sweeping(w, before, ids, DoomedNames(w.namer, t, Some(s)))
    requires w.lab != lab' && IsPathComponent(w.lab) && IsPathComponent(lab')
    requires Usable(w.namer, w.lab, s) && Usable(Generated(hex, lab'), lab', s')
    requires NoCollision(hex, LabKeys(w.lab, t, s) + LabKeys(lab', t', s'))
    requires KeepToThemselves(before.host, DoomedNames(Generated(hex, lab'), t', Some(s')), ids)
    ensures forall x :: x in DoomedNames(Generated(hex, lab'), t', Some(s')) && x in before.host ==>
              x in w.host && w.host[x] == before.host[x]
  {
    DoomedNamesDisjoint(hex, w.lab, t, s, lab', t', s');
    SparedLinks(before.host, w.host, ids, DoomedNames(w.namer, t, Some(s)), DoomedNames(Generated(hex, lab'), t', Some(s')));
  }

  /** A lab raised where nothing bore its names keeps to itself, as long as its own containers are not removed. */
  lemma RaisedKeepsToItself(w: Host, t: Topology, s: LabState, before: Scene, ids: set<string>)
    requires Raised(w, t, s, before) && before.host.Keys !! DoomedNames(w.namer, t, Some(s))
    requires ids !! w.containers.Keys - before.containers.Keys
    ensures KeepToThemselves(w.host, DoomedNames(w.namer, t, Some(s)), ids)
  {
  }

  // ---------------------------------------------------------------------------
  // Cleaning up beside a lab that runs.

  /** What a lab's snapshot records, it labelled. */
  ghost predicate RecordsOwn(lab: string, containers: map<string, Container>, s: LabState) {
    forall id :: id in Recorded(s) && id in containers ==> containers[id].lab == Some(lab)
  }

  /** So it is however far `up` got ... */
  lemma RaisedRecordsOwn(w: Host, t: Topology, s: LabState, before: Scene)
    requires Raised(w, t, s, before)
    ensures RecordsOwn(w.lab, w.containers, s)
  {
    forall id | id in Recorded(s) && id in w.containers ensures w.containers[id].lab == Some(w.lab) {
      assert id in w.containers.Keys - before.containers.Keys;
    }
  }

  /** ... and whatever is removed afterwards. */
  lemma RemovalRecordsOwn(lab: string, before: map<string, Container>, after: map<string, Container>, s: LabState)
    requires RecordsOwn(lab, before, s) && Part(after, before)
    ensures RecordsOwn(lab, after, s)
  {
  }

  /** What a cleanup by these names and containers leaves alone. */
  ghost predicate Spared(before: Wires, after: Wires, names: set<string>, ids: set<string>) {
    && Part(Clear(before.host, ids, names), after.host)
    && PortsKept(before.masters, after.masters, after.host) && before.moved <= after.moved
  }

  lemma PluggedIsSpared(before: Wires, after: Wires, names: set<string>, ids: set<string>,
                        bridge: string, port: string, peer: string, id: string)
    requires Spared(before, after, names, ids) && Plugged(before, bridge, port, peer, id)
    requires port !in names && id !in ids && bridge in after.host
    ensures Plugged(after, bridge, port, peer, id)
  {
    assert port in Clear(before.host, ids, names);
  }

  lemma AttachedIsSpared(namer: Namer, before: Wires, after: Wires, names: set<string>, ids: set<string>, cs: Running, l: Link)
    requires LinkShape(cs, l) && Attached(namer, before, cs, l) && Spared(before, after, names, ids)
    requires Ids(cs) !! ids && names !! EndSet(namer, l)
    requires l.kind == "bridge" ==> namer.bridge(l.name) !in names
    ensures Attached(namer, after, cs, l)
  {
    if l.kind == "bridge" {
      var bridge := namer.bridge(l.name);
      assert bridge in Clear(before.host, ids, names);
      forall k | 0 <= k < |l.members|
        ensures Plugged(after, bridge, namer.port(l.name, l.members[k]), namer.peer(l.name, l.members[k]), cs[l.members[k].router].id) {
        MembersAreNamed(namer, l, k);
        assert namer.port(l.name, l.members[k]) in EndSet(namer, l);
        PluggedIsSpared(before, after, names, ids, bridge, namer.port(l.name, l.members[k]), namer.peer(l.name, l.members[k]),
                        cs[l.members[k].router].id);
      }
    }
  }

  lemma AllAttachedIsSpared(namer: Namer, before: Wires, after: Wires, names: set<string>, ids: set<string>, t: Topology, cs: Running)
    requires AllAttached(namer, before, t, cs) && Spared(before, after, names, ids) && Ids(cs) !! ids
    requires names !! AllEndNames(namer, t.links) + Inventory(namer, t.links).Values
    ensures AllAttached(namer, after, t, cs)
  {
    InventoryHolds(namer, t.links);
    forall l | l in t.links ensures LinkShape(cs, l) && Attached(namer, after, cs, l) {
      var i :| 0 <= i < |t.links| && t.links[i] == l;
      EndsGrow(namer, t.links, i);
      if l.kind == "bridge" {
        assert Inventory(namer, t.links)[l.name] == namer.bridge(l.name);
      }
      AttachedIsSpared(namer, before, after, names, ids, cs, l);
    }
  }

  /** A lab, by everything about it that stays as it is while it runs. */
  datatype Lab = Lab(name: string, configDir: string -> string, digest: string, t: Topology, s: LabState)

  ghost predicate RunsOn(containers: map<string, Container>, v: Wires, hex: Digest, o: Lab) {
    && LabNameOk(o.name) && Usable(Generated(hex, o.name), o.name, o.s)
    && Standing(o.name, Generated(hex, o.name), o.configDir, o.digest, o.t, o.s, containers, v)
  }

  ghost predicate Runs(w: Host, hex: Digest, o: Lab)
    reads w`containers, w`host, w`masters, w`moved
  {
    RunsOn(w.containers, WiresOf(w), hex, o)
  }

  /** A lab just completed runs. */
  lemma CompleteRuns(w: Host, hex: Digest, t: Topology, s: LabState, before: Scene)
    requires w.namer == Generated(hex, w.lab) && Complete(w, t, s) && Raised(w, t, s, before)
    ensures Runs(w, hex, Lab(w.lab, w.configDir, w.digestOf(t), t, s))
  {
  }

  lemma ContainersAreSpared(w: Host, before: Scene, ids: set<string>, names: set<string>, o: Lab)
    requires Sweeping(w, before, ids, names) && o.s.containers.Some? && Ids(o.s.containers.value) !! ids
    requires Started(o.name, before.containers, o.s.containers.value, map[]) && PidsRecorded(before.containers, o.s.containers.value)
    ensures Started(o.name, w.containers, o.s.containers.value, map[]) && PidsRecorded(w.containers, o.s.containers.value)
  {
    var cs := o.s.containers.value;
    forall r | r in cs ensures cs[r].id in w.containers && w.containers[cs[r].id] == before.containers[cs[r].id] {
      assert cs[r].id in Ids(cs);
      assert cs[r].id in before.containers - ids;
    }
  }

  /** The containers of a lab that runs are not those another labelled or recorded. */
  lemma NotDoomed(lab: string, containers: map<string, Container>, s: Option<LabState>, labelled: set<string>, o: Lab)
    requires o.name != lab && o.s.containers.Some? && Started(o.name, containers, o.s.containers.value, map[])
    requires forall id :: id in labelled <==> id in containers && containers[id].lab == Some(lab)
    requires s.Some? ==> RecordsOwn(lab, containers, s.value)
    ensures Ids(o.s.containers.value) !! DoomedIds(s, labelled)
  {
    forall id | id in Ids(o.s.containers.value) ensures id !in DoomedIds(s, labelled) {
      assert containers[id].lab == Some(o.name);
    }
  }

  /** What two labs' cleanups may delete by name has nothing in common, whether or not one has an inventory. */
  lemma NamesApart(hex: Digest, lab: string, t: Topology, s: Option<LabState>, o: Lab)
    requires lab != o.name && IsPathComponent(lab) && LabNameOk(o.name) && Usable(Generated(hex, o.name), o.name, o.s)
    requires s.Some? ==> Usable(Generated(hex, lab), lab, s.value)
    requires s.Some? ==> NoCollision(hex, LabKeys(lab, t, s.value) + LabKeys(o.name, o.t, o.s))
    ensures DoomedNames(Generated(hex, lab), t, s) !! DoomedNames(Generated(hex, o.name), o.t, Some(o.s))
  {
    if s.Some? {
      DoomedNamesDisjoint(hex, lab, t, s.value, o.name, o.t, o.s);
    }
  }

  /** However a lab's cleanup goes, another lab that ran runs on, down to its last link. */
  lemma SweptLabsNeighbourRuns(w: Host, before: Wires, scene: Scene, t: Topology, s: Option<LabState>, labelled: set<string>,
                               hex: Digest, o: Lab)
    requires w.namer == Generated(hex, w.lab) && o.name != w.lab && IsPathComponent(w.lab)
    requires Sweeping(w, scene, DoomedIds(s, labelled), DoomedNames(w.namer, t, s))
    requires before == Wires(scene.host, scene.masters, before.moved) && before.moved <= w.moved
    requires forall id :: id in labelled <==> id in scene.containers && scene.containers[id].lab == Some(w.lab)
    requires s.Some? ==> Usable(w.namer, w.lab, s.value) && RecordsOwn(w.lab, scene.containers, s.value)
    requires s.Some? ==> NoCollision(hex, LabKeys(w.lab, t, s.value) + LabKeys(o.name, o.t, o.s))
    requires RunsOn(scene.containers, before, hex, o)
    ensures Runs(w, hex, o)
  {
    var ids, names := DoomedIds(s, labelled), DoomedNames(w.namer, t, s);
    NotDoomed(w.lab, scene.containers, s, labelled, o);
    NamesApart(hex, w.lab, t, s, o);
    ContainersAreSpared(w, scene, ids, names, o);
    AllAttachedIsSpared(Generated(hex, o.name), before, WiresOf(w), names, ids, o.t, o.s.containers.value);
  }

  /** `down` on one lab, and the first half of its `up --recreate`, beside another that runs. */
  method DownBeside(w: Host, t: Topology, purge: bool, ghost hex: Digest, ghost o: Lab) returns (r: Cleanup.Outcome)
    requires Ready(w) && w.namer == Generated(hex, w.lab) && o.name != w.lab && Runs(w, hex, o)
    requires w.file.Saved? ==>
               && RecordsOwn(w.lab, w.containers, w.file.state)
               && NoCollision(hex, LabKeys(w.lab, t, w.file.state) + LabKeys(o.name, o.t, o.s))
    modifies w`containers, w`host, w`masters, w`made, w`file, w`dirs, w`failed
    ensures Ready(w) && Runs(w, hex, o)
    ensures r.Cleaned? ==> w.file.NoFile? && w.Labelled() == {}
    // So it can be tried again.
    ensures w.file.Saved? ==> w.file == old(w.file) && RecordsOwn(w.lab, w.containers, w.file.state)
  {
    ghost var before, scene, labelled := WiresOf(w), w.Now(), w.Labelled();
    ghost var s;
    var faults;
    r, faults, s := Down(w, t, purge);
    if r.Refused? {
      assert w.containers == scene.containers && WiresOf(w) == before;
    } else {
      SweptLabsNeighbourRuns(w, before, scene, t, s, labelled, hex, o);
    }
    if w.file.Saved? {
      RemovalRecordsOwn(w.lab, scene.containers, w.containers, w.file.state);
    }
  }
}
