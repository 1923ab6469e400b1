/**
 * Names: which strings may name a lab or a router (`isPathComponent` in
 * internal/config/config.go), and the short link names generated from them
 * (internal/runtime/runtime.go and `BridgeName` in internal/state/state.go).
 */
module Names {
  import opened Strings

  // ---------------------------------------------------------------------------
  // Path components.

  function StripTrailingSlashes(path: string): string {
    if path != "" && path[|path| - 1] == SLASH then StripTrailingSlashes(path[..|path| - 1]) else path
  }

  /** What follows the last slash. */
  function AfterLastSlash(path: string): string {
    if path == "" || path[|path| - 1] == SLASH then "" else AfterLastSlash(path[..|path| - 1]) + [path[|path| - 1]]
  }

  /** filepath.Base. */
  function Base(path: string): string {
    if path == "" then "."
    else
      var last := AfterLastSlash(StripTrailingSlashes(path));
      if last == "" then "/" else last
  }

  predicate IsPathComponent(name: string) {
    name != "." && name != ".." && Base(name) == name && NUL !in name
  }

  lemma {:induction false} AfterLastSlashKeepsSlashFree(path: string)
    ensures SLASH !in AfterLastSlash(path)
    ensures SLASH !in path ==> AfterLastSlash(path) == path
  {
    if path != "" && path[|path| - 1] != SLASH {
      AfterLastSlashKeepsSlashFree(path[..|path| - 1]);
    }
  }

  /**
   * The test admits the slash-free names it is meant for, and one more: the root,
   * whose base is itself.
   */
  lemma PathComponents(name: string)
    ensures IsPathComponent(name) <==>
            name == "/" || (name != "" && name != "." && name != ".." && SLASH !in name && NUL !in name)
  {
    AfterLastSlashKeepsSlashFree(StripTrailingSlashes(name));
    if name == "/" {
      assert StripTrailingSlashes(name) == StripTrailingSlashes(name[..0]) == "";
      assert AfterLastSlash("") == "";
    } else if name != "" && SLASH !in name {
      assert name[|name| - 1] != SLASH;
      assert StripTrailingSlashes(name) == name;
    }
  }

  // ---------------------------------------------------------------------------
  // Generated link names.

  /** Text to the first eleven digits of its SHA-1 in hexadecimal, which are all of it that is kept. */
  type Digest = string -> string

  ghost predicate ElevenDigits(hex: Digest) {
    forall s :: |hex(s)| == 11
  }

  /** No two of the keys in use share their digits. */
  ghost predicate NoCollision(hex: Digest, keys: set<string>) {
    forall a, b {:trigger hex(a), hex(b)} :: a in keys && b in keys && hex(a) == hex(b) ==> a == b
  }

  /** Everything a name is generated for. */
  datatype Endpoint =
    | LabBridge(lab: string, link: string)
    | BridgePort(lab: string, link: string, router: string, ifName: string)
    | BridgePeer(lab: string, link: string, router: string, ifName: string)
    | NamespaceHost(bridge: string, namespace: string)
    | NamespacePeer(bridge: string, namespace: string)
    | P2PSide(lab: string, link: string, side: string)

  function Prefix(e: Endpoint): (p: string)
    ensures |p| == 3
  {
    match e
    case LabBridge(_, _) => "frb"
    case BridgePort(_, _, _, _) => "frh"
    case BridgePeer(_, _, _, _) => "frp"
    case NamespaceHost(_, _) => "fnh"
    case NamespacePeer(_, _) => "fnp"
    case P2PSide(_, _, _) => "frt"
  }

  /** A member's key, short of its family's ending. */
  function MemberKey(lab: string, link: string, router: string, ifName: string): string {
    lab + "/" + link + "/" + router + "/" + ifName
  }

  function Key(e: Endpoint): string {
    match e
    case LabBridge(lab, link) => lab + "/" + link
    case BridgePort(lab, link, router, ifName) => MemberKey(lab, link, router, ifName) + "/host"
    case BridgePeer(lab, link, router, ifName) => MemberKey(lab, link, router, ifName) + "/peer"
    case NamespaceHost(bridge, namespace) => bridge + "/" + namespace + "/host"
    case NamespacePeer(bridge, namespace) => bridge + "/" + namespace + "/peer"
    case P2PSide(lab, link, side) => lab + "/" + link + "/" + side
  }

  function ShortName(hex: Digest, prefix: string, key: string): string {
    prefix + hex(key)
  }

  function LinkName(hex: Digest, e: Endpoint): string {
    ShortName(hex, Prefix(e), Key(e))
  }

  /** What the validator demands of labs and routers; the sides of a point-to-point link are fixed. */
  predicate Admitted(e: Endpoint) {
    match e
    case LabBridge(lab, _) => IsPathComponent(lab)
    case BridgePort(lab, _, router, _) => IsPathComponent(lab) && IsPathComponent(router)
    case BridgePeer(lab, _, router, _) => IsPathComponent(lab) && IsPathComponent(router)
    case NamespaceHost(_, _) => true
    case NamespacePeer(_, _) => true
    case P2PSide(lab, _, side) => IsPathComponent(lab) && SLASH !in side
  }

  /** Slash-free where the validator does not ask for it: in a link interface's name and in a router's own bridge's. */
  predicate Decodable(e: Endpoint) {
    match e
    case BridgePort(_, _, _, ifName) => SLASH !in ifName
    case BridgePeer(_, _, _, ifName) => SLASH !in ifName
    case NamespaceHost(bridge, _) => SLASH !in bridge
    case NamespacePeer(bridge, _) => SLASH !in bridge
    case LabBridge(_, _) => true
    case P2PSide(_, _, _) => true
  }

  // ---------------------------------------------------------------------------
  // Taking keys apart.

  lemma {:induction false} AfterLastSlashConcat(h: string, t: string)
    requires SLASH !in t
    ensures AfterLastSlash(h + "/" + t) == t
    decreases |t|
  {
    var s := h + "/" + t;
    if t == "" {
      assert s[|s| - 1] == SLASH;
    } else {
      assert s[..|s| - 1] == h + "/" + t[..|t| - 1];
      AfterLastSlashConcat(h, t[..|t| - 1]);
    }
  }

  /** Splits text at its last slash. */
  lemma {:induction false} AtLastSlash(s: string) returns (head: string, tail: string)
    requires SLASH in s
    ensures s == head + "/" + tail && SLASH !in tail && tail == AfterLastSlash(s)
  {
    var n := |s| - 1;
    if s[n] == SLASH {
      head, tail := s[..n], "";
    } else {
      assert s[..n] + [s[n]] == s;
      head, tail := AtLastSlash(s[..n]);
      tail := tail + [s[n]];
    }
  }

  /** Splits text at its first slash. */
  lemma {:induction false} AtFirstSlash(s: string) returns (head: string, tail: string)
    requires SLASH in s
    ensures s == head + "/" + tail && SLASH !in head
  {
    if s[0] == SLASH {
      head, tail := "", s[1..];
    } else {
      head, tail := AtFirstSlash(s[1..]);
      assert s == [s[0]] + s[1..];
      head := [s[0]] + head;
    }
  }

  /** The first slash separates. */
  lemma FirstSlash(a1: string, t1: string, a2: string, t2: string)
    requires SLASH !in a1 && SLASH !in a2
    requires a1 + "/" + t1 == a2 + "/" + t2
    ensures a1 == a2 && t1 == t2
  {
    var s1, s2 := a1 + "/" + t1, a2 + "/" + t2;
    assert s1[|a1|] == SLASH && s2[|a2|] == SLASH;
    assert forall i :: 0 <= i < |a1| ==> s1[i] == a1[i];
    assert forall i :: 0 <= i < |a2| ==> s2[i] == a2[i];
    assert |a1| == |a2|;
    assert a1 == s1[..|a1|] && a2 == s2[..|a2|];
    assert t1 == s1[|a1| + 1..] && t2 == s2[|a2| + 1..];
  }

  /** The last slash separates. */
  lemma LastSlash(h1: string, b1: string, h2: string, b2: string)
    requires SLASH !in b1 && SLASH !in b2
    requires h1 + "/" + b1 == h2 + "/" + b2
    ensures h1 == h2 && b1 == b2
  {
    AfterLastSlashConcat(h1, b1);
    AfterLastSlashConcat(h2, b2);
    DropTail(h1 + "/", h2 + "/", b1);
    DropTail(h1, h2, "/");
  }

  /** A component is either slash-free or the root, and then its first character tells which. */
  lemma FirstComponent(a1: string, t1: string, a2: string, t2: string)
    requires IsPathComponent(a1) && IsPathComponent(a2)
    requires a1 + "/" + t1 == a2 + "/" + t2
    ensures a1 == a2 && t1 == t2
  {
    PathComponents(a1);
    PathComponents(a2);
    var s := a1 + "/" + t1;
    assert s[0] == a1[0] && s[0] == a2[0];
    assert (a1 == "/") == (a2 == "/");
    if a1 == "/" {
      assert t1 == s[2..] && t2 == s[2..];
    } else {
      FirstSlash(a1, t1, a2, t2);
    }
  }

  lemma LastComponent(h1: string, b1: string, h2: string, b2: string)
    requires IsPathComponent(b1) && IsPathComponent(b2)
    requires h1 + "/" + b1 == h2 + "/" + b2
    ensures h1 == h2 && b1 == b2
  {
    PathComponents(b1);
    PathComponents(b2);
    var s := h1 + "/" + b1;
    assert s[|s| - 1] == b1[|b1| - 1] && s[|s| - 1] == b2[|b2| - 1];
    assert (b1 == "/") == (b2 == "/");
    if b1 == "/" {
      DropTail(h1 + "/", h2 + "/", "/");
      DropTail(h1, h2, "/");
    } else {
      LastSlash(h1, b1, h2, b2);
    }
  }

  /** A member's key determines the member, whatever slashes its link name holds. */
  lemma MemberKeyDecodes(l1: string, k1: string, r1: string, i1: string, l2: string, k2: string, r2: string, i2: string)
    requires IsPathComponent(l1) && IsPathComponent(r1) && SLASH !in i1
    requires IsPathComponent(l2) && IsPathComponent(r2) && SLASH !in i2
    requires MemberKey(l1, k1, r1, i1) == MemberKey(l2, k2, r2, i2)
    ensures l1 == l2 && k1 == k2 && r1 == r2 && i1 == i2
  {
    LastSlash(l1 + "/" + k1 + "/" + r1, i1, l2 + "/" + k2 + "/" + r2, i2);
    LastComponent(l1 + "/" + k1, r1, l2 + "/" + k2, r2);
    FirstComponent(l1, k1, l2, k2);
  }

  /** Within one family, a key determines what it was made from. */
  lemma KeysDecode(a: Endpoint, b: Endpoint)
    requires Admitted(a) && Admitted(b) && Decodable(a) && Decodable(b) && Prefix(a) == Prefix(b) && Key(a) == Key(b)
    ensures a == b
  {
    match a {
      case LabBridge(lab, link) => FirstComponent(lab, link, b.lab, b.link);
      case BridgePort(lab, link, router, ifName) =>
        DropTail(MemberKey(lab, link, router, ifName), MemberKey(b.lab, b.link, b.router, b.ifName), "/host");
        MemberKeyDecodes(lab, link, router, ifName, b.lab, b.link, b.router, b.ifName);
      case BridgePeer(lab, link, router, ifName) =>
        DropTail(MemberKey(lab, link, router, ifName), MemberKey(b.lab, b.link, b.router, b.ifName), "/peer");
        MemberKeyDecodes(lab, link, router, ifName, b.lab, b.link, b.router, b.ifName);
      case NamespaceHost(bridge, namespace) =>
        DropTail(bridge + "/" + namespace, b.bridge + "/" + b.namespace, "/host");
        FirstSlash(bridge, namespace, b.bridge, b.namespace);
      case NamespacePeer(bridge, namespace) =>
        DropTail(bridge + "/" + namespace, b.bridge + "/" + b.namespace, "/peer");
        FirstSlash(bridge, namespace, b.bridge, b.namespace);
      case P2PSide(lab, link, side) =>
        LastSlash(lab + "/" + link, side, b.lab + "/" + b.link, b.side);
        FirstComponent(lab, link, b.lab, b.link);
    }
  }

  /** Families of one prefix length are told apart by their prefixes, and within one the digits tell. */
  lemma ShortNamesTell(hex: Digest, prefix: string, key: string, prefix': string, key': string)
    requires |prefix| == |prefix'|
    ensures ShortName(hex, prefix, key) == ShortName(hex, prefix', key') <==> prefix == prefix' && hex(key) == hex(key')
  {
    var n1, n2 := ShortName(hex, prefix, key), ShortName(hex, prefix', key');
    assert n1[..|prefix|] == prefix && n2[..|prefix|] == prefix';
    assert n1[|prefix|..] == hex(key) && n2[|prefix|..] == hex(key');
  }

  /** Distinct endpoints, of any lab and any family, have distinct names that fit a Linux interface. */
  lemma DistinctEndpointsDistinctNames(hex: Digest, a: Endpoint, b: Endpoint)
    requires ElevenDigits(hex) && NoCollision(hex, {Key(a), Key(b)})
    requires Admitted(a) && Admitted(b) && Decodable(a) && Decodable(b)
    ensures |LinkName(hex, a)| == 14
    ensures LinkName(hex, a) == LinkName(hex, b) <==> a == b
  {
    ShortNamesTell(hex, Prefix(a), Key(a), Prefix(b), Key(b));
    if LinkName(hex, a) == LinkName(hex, b) {
      KeysDecode(a, b);
    }
  }

  // ---------------------------------------------------------------------------
  // Where slashes do make keys collide.

  /** An endpoint with the same key that is in order and is not this one. */
  ghost predicate Twin(e: Endpoint, other: Endpoint) {
    Admitted(other) && Decodable(other) && Prefix(other) == Prefix(e) && Key(other) == Key(e) && other != e
  }

  /** Text that ends in a slash and then a name fit for a router. */
  predicate EndsInComponent(s: string) {
    if AfterLastSlash(s) == "" then |s| >= 2 && s[|s| - 2] == SLASH else IsPathComponent(AfterLastSlash(s))
  }

  /** What comes before the last slash. */
  function BeforeLastSlash(s: string): string
    requires SLASH in s
  {
    if s[|s| - 1] == SLASH then s[..|s| - 1] else BeforeLastSlash(s[..|s| - 1])
  }

  /**
   * A slash in a bridge's own name always lets its key be read in another way.  A slash
   * in an interface name does when what comes before the last one ends, together with
   * the router, in a name fit for a router.
   */
  predicate Confusable(e: Endpoint) {
    match e
    case BridgePort(_, _, router, ifName) => SLASH in ifName && EndsInComponent(router + "/" + BeforeLastSlash(ifName))
    case BridgePeer(_, _, router, ifName) => SLASH in ifName && EndsInComponent(router + "/" + BeforeLastSlash(ifName))
    case NamespaceHost(bridge, _) => SLASH in bridge
    case NamespacePeer(bridge, _) => SLASH in bridge
    case LabBridge(_, _) => false
    case P2PSide(_, _, _) => false
  }

  lemma {:induction false} LastSlashSplits(s: string)
    requires SLASH in s
    ensures s == BeforeLastSlash(s) + "/" + AfterLastSlash(s) && SLASH !in AfterLastSlash(s)
    decreases |s|
  {
    var n := |s| - 1;
    assert s == s[..n] + [s[n]];
    if s[n] != SLASH {
      LastSlashSplits(s[..n]);
    }
  }

  /** A component at the end, after a slash that is there already. */
  lemma ComponentAtEnd(s: string) returns (h: string, r: string)
    requires SLASH in s && EndsInComponent(s)
    ensures s == h + "/" + r && IsPathComponent(r)
  {
    LastSlashSplits(s);
    h, r := BeforeLastSlash(s), AfterLastSlash(s);
    if r == "" {
      PathComponents("/");
      h, r := s[..|s| - 2], "/";
    }
  }

  /** Slashes associate. */
  lemma Regroup(a: string, b: string, c: string)
    ensures a + "/" + (b + "/" + c) == a + "/" + b + "/" + c
  {
  }

  /** The router and the first part of the interface name can change places with the end of the link's name. */
  lemma Shift(lab: string, link: string, router: string, before: string, h: string, r: string)
    requires router + "/" + before == h + "/" + r
    ensures lab + "/" + link + "/" + router + "/" + before == lab + "/" + (link + "/" + h) + "/" + r
  {
    Regroup(lab + "/" + link, router, before);
    Regroup(lab + "/" + link, h, r);
    Regroup(lab, link, h);
  }

  /** A second reading of a member's key shifts the router into the link's name. */
  lemma MemberTwin(lab: string, link: string, router: string, ifName: string)
    returns (link': string, router': string, ifName': string)
    requires SLASH in ifName && EndsInComponent(router + "/" + BeforeLastSlash(ifName))
    ensures IsPathComponent(router') && SLASH !in ifName'
    ensures MemberKey(lab, link', router', ifName') == MemberKey(lab, link, router, ifName)
  {
    var before := BeforeLastSlash(ifName);
    LastSlashSplits(ifName);
    assert (router + "/" + before)[|router|] == SLASH;
    var h;
    h, router' := ComponentAtEnd(router + "/" + before);
    link', ifName' := link + "/" + h, AfterLastSlash(ifName);
    Shift(lab, link, router, before, h, router');
    Regroup(lab + "/" + link + "/" + router, before, ifName');
  }

  /** Text that ends in a slash and a component ends in a component. */
  lemma EndingIsComponent(front: string, s: string, h: string, r: string)
    requires SLASH in s && |s| >= 2 && IsPathComponent(r) && front + s == h + "/" + r
    ensures EndsInComponent(s)
  {
    PathComponents(r);
    SameEnding(front, s);
    var q := front + s;
    if r == "/" {
      AfterLastSlashConcat(h + "/", "");
      assert q == h + "/" + "/" + "";
      assert s[|s| - 2] == q[|q| - 2];
    } else {
      AfterLastSlashConcat(h, r);
    }
  }

  /** ... and nothing but such a shift can be a second reading. */
  lemma MemberTwinEnds(l1: string, k1: string, r1: string, i1: string, l2: string, k2: string, r2: string, i2: string)
    requires IsPathComponent(r1) && SLASH in i1 && IsPathComponent(r2) && SLASH !in i2
    requires MemberKey(l1, k1, r1, i1) == MemberKey(l2, k2, r2, i2)
    ensures EndsInComponent(r1 + "/" + BeforeLastSlash(i1))
  {
    var before, front := BeforeLastSlash(i1), l1 + "/" + k1;
    LastSlashSplits(i1);
    PathComponents(r1);
    var s := r1 + "/" + before;
    assert s[|r1|] == SLASH;
    Regroup(front + "/" + r1, before, AfterLastSlash(i1));
    LastSlash(front + "/" + r1 + "/" + before, AfterLastSlash(i1), l2 + "/" + k2 + "/" + r2, i2);
    Regroup(front, r1, before);
    EndingIsComponent(front + "/", s, l2 + "/" + k2, r2);
  }

  /** The last component of text with a slash is that of anything ending in it. */
  lemma SameEnding(front: string, s: string)
    requires SLASH in s
    ensures AfterLastSlash(front + s) == AfterLastSlash(s)
  {
    LastSlashSplits(s);
    AfterLastSlashConcat(front + BeforeLastSlash(s), AfterLastSlash(s));
    assert front + s == front + BeforeLastSlash(s) + "/" + AfterLastSlash(s);
  }

  /** Exactly the confusable endpoints share their key with one that is in order. */
  lemma TwinsExactly(e: Endpoint)
    requires Admitted(e)
    ensures (exists other :: Twin(e, other)) <==> Confusable(e)
  {
    if Confusable(e) {
      HasTwin(e);
    }
    forall other | Twin(e, other) ensures Confusable(e) {
      TwinConfuses(e, other);
    }
  }

  lemma PortTwin(lab: string, link: string, router: string, ifName: string)
    requires IsPathComponent(lab) && Confusable(BridgePort(lab, link, router, ifName))
    ensures exists other :: Twin(BridgePort(lab, link, router, ifName), other)
    ensures exists other :: Twin(BridgePeer(lab, link, router, ifName), other)
  {
    var k, r, i := MemberTwin(lab, link, router, ifName);
    assert Twin(BridgePort(lab, link, router, ifName), BridgePort(lab, k, r, i));
    assert Twin(BridgePeer(lab, link, router, ifName), BridgePeer(lab, k, r, i));
  }

  lemma NamespaceTwin(bridge: string, namespace: string)
    requires SLASH in bridge
    ensures exists other :: Twin(NamespaceHost(bridge, namespace), other)
    ensures exists other :: Twin(NamespacePeer(bridge, namespace), other)
  {
    var head, tail := AtFirstSlash(bridge);
    Regroup(head, tail, namespace);
    assert Twin(NamespaceHost(bridge, namespace), NamespaceHost(head, tail + "/" + namespace));
    assert Twin(NamespacePeer(bridge, namespace), NamespacePeer(head, tail + "/" + namespace));
  }

  lemma HasTwin(e: Endpoint)
    requires Admitted(e) && Confusable(e)
    ensures exists other :: Twin(e, other)
  {
    match e {
      case BridgePort(lab, link, router, ifName) => PortTwin(lab, link, router, ifName);
      case BridgePeer(lab, link, router, ifName) => PortTwin(lab, link, router, ifName);
      case NamespaceHost(bridge, namespace) => NamespaceTwin(bridge, namespace);
      case NamespacePeer(bridge, namespace) => NamespaceTwin(bridge, namespace);
    }
  }

  lemma TwinConfuses(e: Endpoint, other: Endpoint)
    requires Admitted(e) && Twin(e, other)
    ensures Confusable(e)
  {
    if Decodable(e) {
      KeysDecode(e, other);
    } else if e.BridgePort? {
      DropTail(MemberKey(e.lab, e.link, e.router, e.ifName), MemberKey(other.lab, other.link, other.router, other.ifName), "/host");
      MemberTwinEnds(e.lab, e.link, e.router, e.ifName, other.lab, other.link, other.router, other.ifName);
    } else if e.BridgePeer? {
      DropTail(MemberKey(e.lab, e.link, e.router, e.ifName), MemberKey(other.lab, other.link, other.router, other.ifName), "/peer");
      MemberTwinEnds(e.lab, e.link, e.router, e.ifName, other.lab, other.link, other.router, other.ifName);
    }
  }

  /** A slash alone does not do it: after a doubled slash, what comes before ends in no router's name. */
  lemma DoubledSlashHasNoTwin(lab: string, link: string, other: Endpoint)
    requires IsPathComponent(lab)
    ensures !Twin(BridgePort(lab, link, "r", "x//y"), other)
  {
    PathComponents("r");
    BeforeDoubledSlash();
    TwinsExactly(BridgePort(lab, link, "r", "x//y"));
  }

  lemma BeforeDoubledSlash()
    ensures SLASH in "x//y" && !EndsInComponent("r" + "/" + BeforeLastSlash("x//y"))
  {
    var s := "x//y";
    assert s[2] == SLASH && s[..2] == "x/";
    LastSlashSplits(s);
    assert s == "x/" + "/" + "y";
    LastSlash(BeforeLastSlash(s), AfterLastSlash(s), "x/", "y");
    assert ("r" + "/" + "x/") == "r/x" + "/" + "";
    AfterLastSlashConcat("r/x", "");
  }
}
