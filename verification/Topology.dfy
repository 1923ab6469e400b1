/** A lab's topology and the checks on it (`Validate` in internal/config/config.go). */
module Topology {
  import opened Strings
  import opened Sequences
  import opened Names
  import Linux
  import LinuxAcceptance

  datatype Member = Member(router: string, ifName: string, ipv4: string, mac: string)

  datatype Link = Link(name: string, kind: string, mtu: int, members: seq<Member>)

  datatype Topology = Topology(lab: string, routers: map<string, Linux.Section>, links: seq<Link>)

  /** One end of a link: a router and the trimmed name of an interface on it. */
  type End = (string, string)

  function EndOf(m: Member): End {
    (m.router, TrimSpace(m.ifName))
  }

  function LinkEnds(l: Link): (r: seq<End>)
    ensures |r| == |l.members| && forall i :: 0 <= i < |r| ==> r[i] == EndOf(l.members[i])
  {
    seq(|l.members|, i requires 0 <= i < |l.members| => EndOf(l.members[i]))
  }

  // ---------------------------------------------------------------------------
  // What a well-formed topology is.

  predicate MemberOk(lib: Linux.Library, routers: set<string>, m: Member) {
    && m.router in routers && !Blank(m.ifName) && TrimSpace(m.ifName) != "lo"
    && (m.ipv4 != "" ==> lib.cidr(m.ipv4))
    && (m.mac != "" ==> lib.mac(m.mac))
  }

  predicate ShapeOk(l: Link) {
    && !Blank(l.name) && (l.kind == "bridge" || l.kind == "p2p")
    && 0 <= l.mtu <= 0xFFFF_FFFF
    && (l.kind == "bridge" ==> |l.members| >= 2)
    && (l.kind == "p2p" ==> |l.members| == 2)
  }

  predicate MembersOk(lib: Linux.Library, routers: set<string>, l: Link) {
    forall k :: 0 <= k < |l.members| ==> MemberOk(lib, routers, l.members[k])
  }

  predicate LinkOk(lib: Linux.Library, routers: set<string>, l: Link) {
    ShapeOk(l) && MembersOk(lib, routers, l)
  }

  predicate EachLinkOk(lib: Linux.Library, routers: set<string>, links: seq<Link>) {
    forall i :: 0 <= i < |links| ==> LinkOk(lib, routers, links[i])
  }

  predicate NamesDiffer(links: seq<Link>) {
    forall i, j :: 0 <= i < j < |links| ==> links[i].name != links[j].name
  }

  ghost predicate LinksOk(lib: Linux.Library, routers: set<string>, links: seq<Link>) {
    && EachLinkOk(lib, routers, links)
    && NamesDiffer(links)
    && NoRepeat(Flat(LinkEnds, links))
  }

  function SetOf(listed: seq<End>): set<End> {
    set e | e in listed
  }

  function NamesAt(ends: set<End>, router: string): set<string> {
    set e | e in ends && e.0 == router :: e.1
  }

  /** The interfaces the links give a router, by trimmed name. */
  ghost function IfNames(links: seq<Link>, router: string): set<string> {
    NamesAt(SetOf(Flat(LinkEnds, links)), router)
  }

  predicate RouterNameOk(name: string) {
    !Blank(name) && IsPathComponent(name)
  }

  ghost predicate WellFormed(lib: Linux.Library, t: Topology) {
    && !Blank(t.lab) && IsPathComponent(t.lab)
    && t.routers != map[] && (forall r :: r in t.routers ==> RouterNameOk(r))
    && LinksOk(lib, t.routers.Keys, t.links)
    && (forall r :: r in t.routers ==> LinuxAcceptance.InOrder(lib, t.routers[r], IfNames(t.links, r)))
  }

  // ---------------------------------------------------------------------------
  // The checks.

  method ValidateMember(lib: Linux.Library, routers: set<string>, m: Member, taken: set<End>) returns (ok: bool, ends: set<End>)
    ensures ok <==> MemberOk(lib, routers, m) && EndOf(m) !in taken
    ensures ok ==> ends == taken + {EndOf(m)}
  {
    ends := taken;
    var ifName := TrimSpace(m.ifName);
    if m.router !in routers || ifName == "" || ifName == "lo" || (m.router, ifName) in ends {
      return false, ends;
    }
    ends := ends + {(m.router, ifName)};
    ok := !(m.ipv4 != "" && !lib.cidr(m.ipv4)) && !(m.mac != "" && !lib.mac(m.mac));
  }

  /** Nothing repeats among the first ends, and they are the ones taken. */
  ghost predicate EndsSoFar(all: seq<End>, n: nat, ends: set<End>)
    requires n <= |all|
  {
    NoRepeat(all[..n]) && ends == SetOf(all[..n])
  }

  /** The next end of a list repeats an earlier one exactly when it has been taken. */
  lemma NextEnd(all: seq<End>, n: nat, ends: set<End>)
    requires n < |all| && EndsSoFar(all, n, ends)
    ensures if all[n] in ends then !NoRepeat(all) else EndsSoFar(all, n + 1, ends + {all[n]})
  {
    assert all[..n + 1] == all[..n] + [all[n]];
    if all[n] in ends {
      var i :| 0 <= i < n && all[..n][i] == all[n];
      assert all[i] == all[n];
    }
  }

  /** The members up to here are in order. */
  ghost predicate MembersSoFar(lib: Linux.Library, routers: set<string>, l: Link, k: nat, before: seq<End>, ends: set<End>)
    requires k <= |l.members|
  {
    && (forall j :: 0 <= j < k ==> MemberOk(lib, routers, l.members[j]))
    && EndsSoFar(before + LinkEnds(l), |before| + k, ends)
  }

  lemma MemberStep(lib: Linux.Library, routers: set<string>, l: Link, k: nat, before: seq<End>, ends: set<End>)
    requires k < |l.members| && MembersSoFar(lib, routers, l, k, before, ends)
    ensures var m := l.members[k];
            if MemberOk(lib, routers, m) && EndOf(m) !in ends
            then MembersSoFar(lib, routers, l, k + 1, before, ends + {EndOf(m)})
            else !(MembersOk(lib, routers, l) && NoRepeat(before + LinkEnds(l)))
  {
    EndStep(l, k, before, ends);
  }

  lemma EndStep(l: Link, k: nat, before: seq<End>, ends: set<End>)
    requires k < |l.members| && EndsSoFar(before + LinkEnds(l), |before| + k, ends)
    ensures var e, all := EndOf(l.members[k]), before + LinkEnds(l);
            if e in ends then !NoRepeat(all) else EndsSoFar(all, |before| + k + 1, ends + {e})
  {
    assert (before + LinkEnds(l))[|before| + k] == LinkEnds(l)[k];
    NextEnd(before + LinkEnds(l), |before| + k, ends);
  }

  lemma MembersDone(lib: Linux.Library, routers: set<string>, l: Link, before: seq<End>, ends: set<End>)
    requires MembersSoFar(lib, routers, l, |l.members|, before, ends)
    ensures MembersOk(lib, routers, l) && NoRepeat(before + LinkEnds(l)) && ends == SetOf(before + LinkEnds(l))
  {
    var all := before + LinkEnds(l);
    assert all[..|before| + |l.members|] == all;
  }

  /** One link's members, after the ends of earlier links. */
  method ValidateMembers(lib: Linux.Library, routers: set<string>, l: Link, taken: set<End>, ghost before: seq<End>)
    returns (ok: bool, ends: set<End>)
    requires NoRepeat(before) && taken == SetOf(before)
    ensures ok <==> MembersOk(lib, routers, l) && NoRepeat(before + LinkEnds(l))
    ensures ok ==> ends == SetOf(before + LinkEnds(l))
  {
    ends := taken;
    assert (before + LinkEnds(l))[..|before|] == before;
    for k := 0 to |l.members|
      invariant MembersSoFar(lib, routers, l, k, before, ends)
    {
      MemberStep(lib, routers, l, k, before, ends);
      ok, ends := ValidateMember(lib, routers, l.members[k], ends);
      if !ok {
        return;
      }
    }
    MembersDone(lib, routers, l, before, ends);
    ok := true;
  }

  method ValidateLink(lib: Linux.Library, routers: set<string>, l: Link, linkNames: set<string>, taken: set<End>, ghost before: seq<End>)
    returns (ok: bool, ends: set<End>)
    requires NoRepeat(before) && taken == SetOf(before)
    ensures ok <==> LinkOk(lib, routers, l) && l.name !in linkNames && NoRepeat(before + LinkEnds(l))
    ensures ok ==> ends == SetOf(before + LinkEnds(l))
  {
    ends := taken;
    if Blank(l.name) || l.name in linkNames {
      return false, ends;
    }
    if (l.kind != "bridge" && l.kind != "p2p") || l.mtu < 0 || l.mtu > 0xFFFF_FFFF {
      return false, ends;
    }
    if (l.kind == "bridge" && |l.members| < 2) || (l.kind == "p2p" && |l.members| != 2) {
      return false, ends;
    }
    ok, ends := ValidateMembers(lib, routers, l, ends, before);
  }

  function LinkNames(links: seq<Link>): (r: set<string>)
    ensures forall n :: n in r <==> exists i :: 0 <= i < |links| && links[i].name == n
  {
    set i | 0 <= i < |links| :: links[i].name
  }

  lemma NamesStep(links: seq<Link>, i: nat)
    requires i < |links| && NamesDiffer(links[..i])
    ensures NamesDiffer(links[..i + 1]) <==> links[i].name !in LinkNames(links[..i])
    ensures LinkNames(links[..i + 1]) == LinkNames(links[..i]) + {links[i].name}
  {
    var old', new' := links[..i], links[..i + 1];
    assert new' == old' + [links[i]];
    if links[i].name in LinkNames(old') {
      var j :| 0 <= j < |old'| && old'[j].name == links[i].name;
      assert new'[j].name == new'[i].name;
    }
    forall n | n in LinkNames(old') + {links[i].name} ensures n in LinkNames(new') {
      if n in LinkNames(old') {
        var j :| 0 <= j < |old'| && old'[j].name == n;
        assert new'[j].name == n;
      } else {
        assert new'[i].name == n;
      }
    }
  }

  /** What a list of links has, every beginning of it has. */
  lemma LinksOkPrefix(lib: Linux.Library, routers: set<string>, links: seq<Link>, i: nat)
    requires i <= |links| && LinksOk(lib, routers, links)
    ensures LinksOk(lib, routers, links[..i])
  {
    FlatSplit(LinkEnds, links, i);
    NoRepeatPrefix(Flat(LinkEnds, links[..i]), Flat(LinkEnds, links[i..]));
  }

  lemma NoRepeatPrefix(a: seq<End>, b: seq<End>)
    requires NoRepeat(a + b)
    ensures NoRepeat(a)
  {
    assert forall k :: 0 <= k < |a| ==> a[k] == (a + b)[k];
  }

  /** Links are well formed one after the other. */
  lemma LinksStep(lib: Linux.Library, routers: set<string>, links: seq<Link>, i: nat)
    requires i < |links| && LinksOk(lib, routers, links[..i])
    ensures LinksOk(lib, routers, links[..i + 1]) <==>
            && LinkOk(lib, routers, links[i]) && links[i].name !in LinkNames(links[..i])
            && NoRepeat(Flat(LinkEnds, links[..i]) + LinkEnds(links[i]))
  {
    NamesStep(links, i);
    FlatNext(LinkEnds, links, i);
    EachStep(lib, routers, links, i);
  }

  lemma EachStep(lib: Linux.Library, routers: set<string>, links: seq<Link>, i: nat)
    requires i < |links| && EachLinkOk(lib, routers, links[..i])
    ensures EachLinkOk(lib, routers, links[..i + 1]) <==> LinkOk(lib, routers, links[i])
  {
    var next := links[..i + 1];
    assert next == links[..i] + [links[i]] && next[i] == links[i];
  }

  method ValidateLinks(lib: Linux.Library, routers: set<string>, links: seq<Link>) returns (ok: bool, ends: set<End>)
    ensures ok <==> LinksOk(lib, routers, links)
    ensures ok ==> ends == SetOf(Flat(LinkEnds, links))
  {
    ends := {};
    var linkNames: set<string> := {};
    ok := true;
    var i := 0;
    while ok && i < |links|
      invariant 0 <= i <= |links|
      invariant ok ==> LinksOk(lib, routers, links[..i])
      invariant ok ==> linkNames == LinkNames(links[..i])
      invariant ok ==> ends == SetOf(Flat(LinkEnds, links[..i]))
      invariant !ok ==> !LinksOk(lib, routers, links)
    {
      LinksStep(lib, routers, links, i);
      NamesStep(links, i);
      FlatNext(LinkEnds, links, i);
      ok, ends := ValidateLink(lib, routers, links[i], linkNames, ends, Flat(LinkEnds, links[..i]));
      if LinksOk(lib, routers, links) {
        LinksOkPrefix(lib, routers, links, i + 1);
      }
      linkNames := linkNames + {links[i].name};
      i := i + 1;
    }
    assert links[..|links|] == links;
  }

  method ValidateRouterNames(routers: set<string>) returns (ok: bool)
    ensures ok <==> forall r :: r in routers ==> RouterNameOk(r)
  {
    var names := routers;
    while names != {}
      invariant names <= routers && forall r :: r in routers - names ==> RouterNameOk(r)
      decreases |names|
    {
      var name :| name in names;
      if Blank(name) || !IsPathComponent(name) {
        return false;
      }
      names := names - {name};
    }
    ok := true;
  }

  method ValidateSections(lib: Linux.Library, t: Topology, ends: set<End>) returns (ok: bool)
    requires ends == SetOf(Flat(LinkEnds, t.links))
    ensures ok <==> forall r :: r in t.routers ==> LinuxAcceptance.InOrder(lib, t.routers[r], IfNames(t.links, r))
  {
    var names := t.routers.Keys;
    while names != {}
      invariant names <= t.routers.Keys
      invariant forall r :: r in t.routers.Keys - names ==> LinuxAcceptance.InOrder(lib, t.routers[r], IfNames(t.links, r))
      decreases |names|
    {
      var name :| name in names;
      var ledger;
      ok, ledger := LinuxAcceptance.ValidateLinux(lib, t.routers[name], NamesAt(ends, name));
      if !ok {
        return;
      }
      names := names - {name};
    }
    ok := true;
  }

  /** Accepts exactly the well-formed topologies. */
  method Validate(lib: Linux.Library, t: Topology) returns (ok: bool)
    ensures ok <==> WellFormed(lib, t)
  {
    if Blank(t.lab) || !IsPathComponent(t.lab) || t.routers == map[] {
      return false;
    }
    ok := ValidateRouterNames(t.routers.Keys);
    if !ok {
      return;
    }
    var ends;
    ok, ends := ValidateLinks(lib, t.routers.Keys, t.links);
    if !ok {
      return;
    }
    ok := ValidateSections(lib, t, ends);
  }

  // ---------------------------------------------------------------------------
  // What the dataplane relies on.

  lemma {:induction false} TrimLeftStarts(s: string)
    ensures var t := TrimLeft(s); t != "" ==> !IsSpace(t[0])
    decreases |s|
  {
    if s != "" && IsSpace(s[0]) {
      TrimLeftStarts(s[1..]);
    }
  }

  lemma {:induction false} TrimRightEnds(s: string)
    ensures var t := TrimRight(s); t <= s && (t != "" ==> !IsSpace(t[|t| - 1]))
    decreases |s|
  {
    if s != "" && IsSpace(s[|s| - 1]) {
      TrimRightEnds(s[..|s| - 1]);
    }
  }

  lemma TrimTwice(s: string)
    ensures TrimSpace(TrimSpace(s)) == TrimSpace(s)
  {
    TrimLeftStarts(s);
    TrimRightEnds(TrimLeft(s));
    TrimSpaceId(TrimSpace(s));
  }

  lemma {:induction false} EndsAreMembers(links: seq<Link>, e: End)
    requires e in Flat(LinkEnds, links)
    ensures exists i, k :: 0 <= i < |links| && 0 <= k < |links[i].members| && e == EndOf(links[i].members[k])
    decreases |links|
  {
    var init, l := links[..|links| - 1], links[|links| - 1];
    if e in LinkEnds(l) {
      var k :| 0 <= k < |LinkEnds(l)| && LinkEnds(l)[k] == e;
      assert links[|links| - 1].members[k] == l.members[k];
    } else {
      EndsAreMembers(init, e);
      var i, k :| 0 <= i < |init| && 0 <= k < |init[i].members| && e == EndOf(init[i].members[k]);
      assert links[i] == init[i];
    }
  }

  /** The names the links bring to a router are trimmed, and none is the loopback. */
  lemma LinkInterfacesAreTrimmed(lib: Linux.Library, routers: set<string>, links: seq<Link>, router: string)
    requires LinksOk(lib, routers, links)
    ensures forall x :: x in IfNames(links, router) ==> TrimSpace(x) == x && x != "" && x != "lo"
  {
    forall x | x in IfNames(links, router) ensures TrimSpace(x) == x && x != "" && x != "lo" {
      EndsAreMembers(links, (router, x));
      var i, k :| 0 <= i < |links| && 0 <= k < |links[i].members| && (router, x) == EndOf(links[i].members[k]);
      assert LinkOk(lib, routers, links[i]) && MemberOk(lib, routers, links[i].members[k]);
      TrimTwice(links[i].members[k].ifName);
    }
  }
}
