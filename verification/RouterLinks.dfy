/**
 * What wiring does inside one router: link ends arrive under generated names and are
 * renamed to their interfaces (`configureLinks` in internal/runtime/runtime.go,
 * `configureLink` in internal/netlink/netlink.go).
 */
module RouterLinks {
  import opened Strings
  import opened Sequences
  import opened Topology
  import opened LinuxProgram
  import opened LinuxSoundness
  import opened TopologySoundness
  import opened LabHost
  import Linux

  /** One end arriving from the host, or being renamed in the router. */
  datatype Step = Enter(name: string) | Become(name: string, to: string)

  /** The kernel refuses the step because a name is taken. */
  predicate Taken(names: set<string>, step: Step) {
    match step
    case Enter(name) => name in names
    case Become(name, to) => to != name && to in names
  }

  function Stepped(names: set<string>, step: Step): set<string> {
    match step
    case Enter(name) => names + {name}
    case Become(name, to) => names - {name} + {to}
  }

  function Names(start: set<string>, steps: seq<Step>): set<string> {
    if steps == [] then start else Stepped(Names(start, steps[..|steps| - 1]), steps[|steps| - 1])
  }

  /** No step of the run meets a taken name. */
  predicate Smooth(start: set<string>, steps: seq<Step>) {
    steps == []
    || (Smooth(start, steps[..|steps| - 1]) && !Taken(Names(start, steps[..|steps| - 1]), steps[|steps| - 1]))
  }

  lemma {:induction false} NamesConcat(start: set<string>, a: seq<Step>, b: seq<Step>)
    ensures Names(start, a + b) == Names(Names(start, a), b)
    ensures Smooth(start, a + b) <==> Smooth(start, a) && Smooth(Names(start, a), b)
    decreases |b|
  {
    if b == [] {
      assert a + b == a;
    } else {
      NamesConcat(start, a, b[..|b| - 1]);
      assert (a + b)[..|a + b| - 1] == a + b[..|b| - 1];
    }
  }

  lemma OneStep(start: set<string>, step: Step)
    ensures Names(start, [step]) == Stepped(start, step) && (Smooth(start, [step]) <==> !Taken(start, step))
  {
    assert [step][..0] == [];
  }

  /** A list of parts is run through when each part takes one state to the next. */
  lemma {:induction false} FlatSmooth<T>(f: T -> seq<Step>, xs: seq<T>, states: seq<set<string>>, n: nat)
    requires |states| == |xs| + 1 && n <= |xs|
    requires forall i :: 0 <= i < |xs| ==> Smooth(states[i], f(xs[i])) && Names(states[i], f(xs[i])) == states[i + 1]
    ensures Smooth(states[0], Flat(f, xs[..n])) && Names(states[0], Flat(f, xs[..n])) == states[n]
    decreases n
  {
    if n > 0 {
      FlatSmooth(f, xs, states, n - 1);
      FlatNext(f, xs, n - 1);
      NamesConcat(states[0], Flat(f, xs[..n - 1]), f(xs[n - 1]));
    }
  }

  // ---------------------------------------------------------------------------
  // The steps in one router.

  /** A bridge member's peer, if the member is this router's. */
  function MemberSteps(namer: Namer, link: string, router: string): Member -> seq<Step> {
    (m: Member) =>
      if m.router == router then [Enter(namer.peer(link, m)), Become(namer.peer(link, m), TrimSpace(m.ifName))] else []
  }

  /** Both ends of a point-to-point link arrive before either is renamed. */
  function PairSteps(a: string, b: string, left: End, right: End, router: string): seq<Step> {
    if left.0 == router && right.0 == router then [Enter(a)] + [Enter(b)] + [Become(a, left.1)] + [Become(b, right.1)]
    else if left.0 == router then [Enter(a), Become(a, left.1)]
    else if right.0 == router then [Enter(b), Become(b, right.1)]
    else []
  }

  function LinkSteps(namer: Namer, router: string): Link -> seq<Step> {
    (l: Link) =>
      if l.kind == "bridge" then Flat(MemberSteps(namer, l.name, router), l.members)
      else if l.kind == "p2p" && |l.members| == 2 then
        PairSteps(namer.temp(l.name, "a"), namer.temp(l.name, "b"), EndOf(l.members[0]), EndOf(l.members[1]), router)
      else []
  }

  /** What the router's namespace sees while all links are wired. */
  function RouterSteps(namer: Namer, links: seq<Link>, router: string): seq<Step> {
    Flat(LinkSteps(namer, router), links)
  }

  // ---------------------------------------------------------------------------
  // Interfaces by link.

  /** The interfaces a stretch of link ends gives a router. */
  ghost function Local(ends: seq<End>, router: string): set<string> {
    NamesAt(SetOf(ends), router)
  }

  lemma LocalConcat(a: seq<End>, b: seq<End>, router: string)
    ensures Local(a + b, router) == Local(a, router) + Local(b, router)
  {
  }

  /** A link's generated names look like no interface, and its two ends are told apart. */
  ghost predicate UnlikeLink(namer: Namer, l: Link, taken: set<string>) {
    && (forall m :: m in l.members ==> namer.peer(l.name, m) !in taken)
    && namer.temp(l.name, "a") !in taken && namer.temp(l.name, "b") !in taken
    && namer.temp(l.name, "a") != namer.temp(l.name, "b")
  }

  ghost predicate Unlike(namer: Namer, links: seq<Link>, taken: set<string>) {
    forall l :: l in links ==> UnlikeLink(namer, l, taken)
  }

  /** The link at hand finds its router's interfaces free. */
  ghost predicate FreshLink(l: Link, router: string, names: set<string>, all: set<string>) {
    && ShapeOk(l) && NoRepeat(LinkEnds(l)) && names <= all
    && Local(LinkEnds(l), router) <= all
    && (forall e :: e in LinkEnds(l) && e.0 == router ==> e.1 !in names)
  }

  /** One end arrives and takes a free name. */
  lemma Renamed(names: set<string>, temp: string, to: string)
    requires temp !in names && to !in names && temp != to
    ensures Smooth(names, [Enter(temp), Become(temp, to)]) && Names(names, [Enter(temp), Become(temp, to)]) == names + {to}
  {
    OneStep(names, Enter(temp));
    OneStep(names + {temp}, Become(temp, to));
    NamesConcat(names, [Enter(temp)], [Become(temp, to)]);
    assert [Enter(temp)] + [Become(temp, to)] == [Enter(temp), Become(temp, to)];
  }

  /** One member: either another router's, or its end arrives and takes its name. */
  lemma MemberSmooth(namer: Namer, link: string, m: Member, router: string, now: set<string>)
    requires m.router == router ==> namer.peer(link, m) !in now && EndOf(m).1 !in now && namer.peer(link, m) != EndOf(m).1
    ensures var steps := MemberSteps(namer, link, router)(m);
            Smooth(now, steps) && Names(now, steps) == now + Local([EndOf(m)], router)
  {
    if m.router == router {
      Renamed(now, namer.peer(link, m), TrimSpace(m.ifName));
      assert EndOf(m) in [EndOf(m)];
    }
  }

  /** The members of a bridge link. */
  lemma MembersSmooth(namer: Namer, l: Link, router: string, names: set<string>, all: set<string>)
    requires FreshLink(l, router, names, all) && UnlikeLink(namer, l, all)
    ensures var steps := Flat(MemberSteps(namer, l.name, router), l.members);
            Smooth(names, steps) && Names(names, steps) == names + Local(LinkEnds(l), router)
  {
    var n := |l.members|;
    var states := MemberStates(l, router, names);
    forall k | 0 <= k < n
      ensures Smooth(states[k], MemberSteps(namer, l.name, router)(l.members[k]))
              && Names(states[k], MemberSteps(namer, l.name, router)(l.members[k])) == states[k + 1]
    {
      NextMember(namer, l, router, names, all, k);
    }
    FlatSmooth(MemberSteps(namer, l.name, router), l.members, states, n);
    assert l.members[..n] == l.members;
  }

  lemma MemberStates(l: Link, router: string, names: set<string>) returns (states: seq<set<string>>)
    ensures |states| == |l.members| + 1 && states[0] == names && states[|l.members|] == names + Local(LinkEnds(l), router)
    ensures forall k :: 0 <= k <= |l.members| ==> states[k] == names + Local(LinkEnds(l)[..k], router)
  {
    states := seq(|l.members| + 1, k requires 0 <= k <= |l.members| => names + Local(LinkEnds(l)[..k], router));
    assert LinkEnds(l)[..0] == [] && Local([], router) == {};
    assert LinkEnds(l)[..|l.members|] == LinkEnds(l);
  }

  lemma NextMember(namer: Namer, l: Link, router: string, names: set<string>, all: set<string>, k: nat)
    requires k < |l.members| && FreshLink(l, router, names, all) && UnlikeLink(namer, l, all)
    ensures var now, steps := names + Local(LinkEnds(l)[..k], router), MemberSteps(namer, l.name, router)(l.members[k]);
            Smooth(now, steps) && Names(now, steps) == names + Local(LinkEnds(l)[..k + 1], router)
  {
    var ends, m := LinkEnds(l), l.members[k];
    var e := ends[k];
    assert ends[..k + 1] == ends[..k] + [e] && ends == ends[..k] + ends[k..];
    LocalConcat(ends[..k], [e], router);
    LocalConcat(ends[..k], ends[k..], router);
    assert e !in ends[..k] && e in ends;
    if e.0 == router {
      NotLocal(ends[..k], router, e);
      assert e.1 in Local(ends, router);
    }
    MemberSmooth(namer, l.name, m, router, names + Local(ends[..k], router));
  }

  /** An end that is not among some has none of their interfaces. */
  lemma NotLocal(ends: seq<End>, router: string, e: End)
    requires e !in ends && e.0 == router
    ensures e.1 !in Local(ends, router)
  {
    forall e' | e' in ends && e'.0 == router ensures e'.1 != e.1 {
      assert e' != e;
    }
  }

  lemma LocalOne(e: End, router: string)
    ensures Local([e], router) == if e.0 == router then {e.1} else {}
  {
    assert e in SetOf([e]);
  }

  /** An interface that a temporary name and the names around it leave free. */
  predicate FreeFor(e: End, router: string, names: set<string>, a: string, b: string) {
    e.0 == router ==> e.1 !in names && e.1 != a && e.1 != b
  }

  lemma PairEnds(names: set<string>, a: string, b: string, left: End, right: End, router: string)
    requires a != b && a !in names && b !in names && left != right
    requires FreeFor(left, router, names, a, b) && FreeFor(right, router, names, a, b)
    ensures var steps := PairSteps(a, b, left, right, router);
            Smooth(names, steps) && Names(names, steps) == names + Local([left, right], router)
  {
    assert [left, right] == [left] + [right];
    LocalConcat([left], [right], router);
    LocalOne(left, router);
    LocalOne(right, router);
    if left.0 == router && right.0 == router {
      BothEnds(names, a, b, left.1, right.1);
      assert {left.1, right.1} == {left.1} + {right.1};
    } else if left.0 == router {
      Renamed(names, a, left.1);
    } else if right.0 == router {
      Renamed(names, b, right.1);
    }
  }

  /** A point-to-point link, even one from a router to itself. */
  lemma PairSmooth(namer: Namer, l: Link, router: string, names: set<string>, all: set<string>)
    requires FreshLink(l, router, names, all) && l.kind == "p2p" && UnlikeLink(namer, l, all)
    ensures var steps := LinkSteps(namer, router)(l);
            Smooth(names, steps) && Names(names, steps) == names + Local(LinkEnds(l), router)
  {
    var ends := LinkEnds(l);
    var a, b := namer.temp(l.name, "a"), namer.temp(l.name, "b");
    assert ends == [ends[0], ends[1]] && ends[0] in ends && ends[1] in ends;
    forall e | e in ends && e.0 == router ensures e.1 in all {
      assert e.1 in Local(ends, router);
    }
    PairEnds(names, a, b, ends[0], ends[1], router);
  }

  lemma BothEnds(names: set<string>, a: string, b: string, left: string, right: string)
    requires a != b && a !in names && b !in names && left !in names && right !in names && left != right
    requires left != a && left != b && right != a && right != b
    ensures var steps := [Enter(a)] + [Enter(b)] + [Become(a, left)] + [Become(b, right)];
            Smooth(names, steps) && Names(names, steps) == names + {left, right}
  {
    OneStep(names, Enter(a));
    OneStep(names + {a}, Enter(b));
    NamesConcat(names, [Enter(a)], [Enter(b)]);
    var two := names + {a} + {b};
    OneStep(two, Become(a, left));
    NamesConcat(names, [Enter(a)] + [Enter(b)], [Become(a, left)]);
    var three := two - {a} + {left};
    OneStep(three, Become(b, right));
    NamesConcat(names, [Enter(a)] + [Enter(b)] + [Become(a, left)], [Become(b, right)]);
    assert three - {b} + {right} == names + {left, right};
  }

  // ---------------------------------------------------------------------------
  // All links.

  lemma NoRepeatParts<T>(a: seq<T>, b: seq<T>, c: seq<T>)
    requires NoRepeat(a + b + c)
    ensures NoRepeat(b) && forall e :: e in b ==> e !in a
  {
    var all := a + b + c;
    forall i, j | 0 <= i < j < |b| ensures b[i] != b[j] {
      assert all[|a| + i] == b[i] && all[|a| + j] == b[j];
    }
    forall i, j | 0 <= i < |a| && 0 <= j < |b| ensures a[i] != b[j] {
      assert all[i] == a[i] && all[|a| + j] == b[j];
    }
  }

  /** Repetition-free ends: those of one link are distinct, and none is an end of an earlier link. */
  lemma EndsOfOneLink(links: seq<Link>, n: nat)
    requires n < |links| && NoRepeat(Flat(LinkEnds, links))
    ensures NoRepeat(LinkEnds(links[n]))
    ensures forall e :: e in LinkEnds(links[n]) ==> e !in Flat(LinkEnds, links[..n])
    ensures forall e :: e in LinkEnds(links[n]) ==> e in Flat(LinkEnds, links)
  {
    FlatNext(LinkEnds, links, n);
    FlatSplit(LinkEnds, links, n + 1);
    NoRepeatParts(Flat(LinkEnds, links[..n]), LinkEnds(links[n]), Flat(LinkEnds, links[n + 1..]));
  }

  lemma EndIsNotLoopback(lib: Linux.Library, routers: set<string>, l: Link)
    requires MembersOk(lib, routers, l)
    ensures forall e :: e in LinkEnds(l) ==> e.1 != "lo"
  {
    forall e | e in LinkEnds(l) ensures e.1 != "lo" {
      var k :| 0 <= k < |l.members| && LinkEnds(l)[k] == e;
      assert MemberOk(lib, routers, l.members[k]);
    }
  }

  lemma OneLinkSmooth(namer: Namer, l: Link, router: string, names: set<string>, all: set<string>)
    requires FreshLink(l, router, names, all) && UnlikeLink(namer, l, all)
    ensures var steps := LinkSteps(namer, router)(l);
            Smooth(names, steps) && Names(names, steps) == names + Local(LinkEnds(l), router)
  {
    if l.kind == "bridge" {
      MembersSmooth(namer, l, router, names, all);
    } else {
      PairSmooth(namer, l, router, names, all);
    }
  }

  /** Each link of a list in order finds its router's interfaces free. */
  ghost predicate FreshInTurn(links: seq<Link>, router: string, n: nat)
    requires n < |links|
  {
    FreshLink(links[n], router, {"lo"} + IfNames(links[..n], router), {"lo"} + IfNames(links, router))
  }

  lemma LinksAreFresh(lib: Linux.Library, routers: set<string>, links: seq<Link>, router: string, n: nat)
    requires n < |links| && LinksOk(lib, routers, links)
    ensures FreshInTurn(links, router, n)
  {
    assert LinkOk(lib, routers, links[n]);
    EndsOfOneLink(links, n);
    EndIsNotLoopback(lib, routers, links[n]);
    IfNamesNext(links, router, n);
    forall e | e in LinkEnds(links[n]) && e.0 == router ensures e.1 !in IfNames(links[..n], router) {
      NotLocal(Flat(LinkEnds, links[..n]), router, e);
    }
  }

  lemma IfNamesNext(links: seq<Link>, router: string, n: nat)
    requires n < |links|
    ensures IfNames(links[..n + 1], router) == IfNames(links[..n], router) + Local(LinkEnds(links[n]), router)
    ensures IfNames(links[..n], router) <= IfNames(links, router)
  {
    FlatNext(LinkEnds, links, n);
    LocalConcat(Flat(LinkEnds, links[..n]), LinkEnds(links[n]), router);
    FlatSplit(LinkEnds, links, n);
    LocalConcat(Flat(LinkEnds, links[..n]), Flat(LinkEnds, links[n..]), router);
  }

  lemma LinksSmooth(namer: Namer, links: seq<Link>, router: string)
    requires forall i :: 0 <= i < |links| ==> FreshInTurn(links, router, i)
    requires Unlike(namer, links, {"lo"} + IfNames(links, router))
    ensures Smooth({"lo"}, RouterSteps(namer, links, router))
    ensures Names({"lo"}, RouterSteps(namer, links, router)) == {"lo"} + IfNames(links, router)
  {
    var n := |links|;
    var states := LinkStates(links, router);
    forall i | 0 <= i < n
      ensures Smooth(states[i], LinkSteps(namer, router)(links[i])) && Names(states[i], LinkSteps(namer, router)(links[i])) == states[i + 1]
    {
      NextLinkSmooth(namer, links, router, i);
    }
    FlatSmooth(LinkSteps(namer, router), links, states, n);
    assert links[..n] == links;
  }

  lemma LinkStates(links: seq<Link>, router: string) returns (states: seq<set<string>>)
    ensures |states| == |links| + 1 && states[0] == {"lo"} && states[|links|] == {"lo"} + IfNames(links, router)
    ensures forall i :: 0 <= i <= |links| ==> states[i] == {"lo"} + IfNames(links[..i], router)
  {
    states := seq(|links| + 1, i requires 0 <= i <= |links| => {"lo"} + IfNames(links[..i], router));
    assert links[..0] == [] && IfNames([], router) == {};
    assert links[..|links|] == links;
  }

  lemma NextLinkSmooth(namer: Namer, links: seq<Link>, router: string, n: nat)
    requires n < |links| && FreshInTurn(links, router, n)
    requires Unlike(namer, links, {"lo"} + IfNames(links, router))
    ensures var now, steps := {"lo"} + IfNames(links[..n], router), LinkSteps(namer, router)(links[n]);
            Smooth(now, steps) && Names(now, steps) == {"lo"} + IfNames(links[..n + 1], router)
  {
    IfNamesNext(links, router, n);
    assert UnlikeLink(namer, links[n], {"lo"} + IfNames(links, router));
    OneLinkSmooth(namer, links[n], router, {"lo"} + IfNames(links[..n], router), {"lo"} + IfNames(links, router));
  }

  lemma WellFormedLinks(lib: Linux.Library, t: Topology, router: string)
    requires WellFormed(lib, t) && router in t.routers
    ensures forall i :: 0 <= i < |t.links| ==> FreshInTurn(t.links, router, i)
  {
    LoadedSection(lib, t, router);
    forall i | 0 <= i < |t.links| ensures FreshInTurn(t.links, router, i) {
      LinksAreFresh(lib, t.routers.Keys, t.links, router, i);
    }
  }

  /**
   * In every router of a topology that loads, wiring's own arrivals and renames meet no
   * taken name and leave the loopback and the router's interfaces.
   */
  lemma WiringIsSmooth(lib: Linux.Library, namer: Namer, t: Topology, router: string)
    requires WellFormed(lib, t) && router in t.routers
    requires Unlike(namer, t.links, {"lo"} + IfNames(t.links, router))
    ensures Smooth({"lo"}, RouterSteps(namer, t.links, router))
    ensures Names({"lo"}, RouterSteps(namer, t.links, router)) == {"lo"} + IfNames(t.links, router)
  {
    WellFormedLinks(lib, t, router);
    LinksSmooth(namer, t.links, router);
  }

  /**
   * From the bare namespace to the finished dataplane, links first, then the section: no
   * step meets a taken name, exactly if no two of the router's namespaces share a key.
   */
  lemma RouterComesUpClean(lib: Linux.Library, namer: Namer, gen: Generator, t: Topology, router: string)
    requires WellFormed(lib, t) && router in t.routers
    requires Unlike(namer, t.links, {"lo"} + IfNames(t.links, router))
    requires Tells(gen, Pairs(t.routers[router]))
    requires NoClash(gen, Pairs(t.routers[router]), UserNames(t.routers[router], IfNames(t.links, router)))
    ensures var steps := RouterSteps(namer, t.links, router);
            Smooth({"lo"}, steps) && Clean(Net(Names({"lo"}, steps), map[]), Program(gen, t.routers[router]))
            <==> Apart(Pairs(t.routers[router]))
  {
    WiringIsSmooth(lib, namer, t, router);
    CleanExactlyWhenApart(lib, t, router, gen);
  }
}
