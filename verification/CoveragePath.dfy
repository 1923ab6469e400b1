/**
 * Path coverage in cmd/frridge-mp/root.go: a path that `EvalSymlinks` does not find is
 * resolved one component at a time against a work list, so that a source that does not
 * exist yet can still be compared with the mounted host directory.
 *
 * A resolved path is kept as its components below the root; its text is the
 * components joined by slashes after a leading slash.
 */
module CoveragePath {
  import opened Options
  import opened Strings

  const MAX_LINKS := 255

  type Path = seq<string>

  /** What lstat and readlink report about one path. */
  datatype Entry =
    | Missing                 // lstat: does not exist
    | Plain                   // any existing object that is not a symbolic link
    | Link(target: string)    // a symbolic link that can be read
    | UnreadableLink          // a symbolic link whose readlink fails
    | LstatFailure            // lstat fails for a reason other than absence

  /** One unchanging file system. */
  type Filesystem = Path -> Entry

  datatype Resolution = Resolved(path: Path) | IOFailure | TooManyLinks

  /** A name a resolved path may hold: no empty, ".", ".." or slashed component. */
  predicate ProperName(name: string) {
    name != "" && name != "." && name != ".." && SLASH !in name
  }

  /** No prefix of `path` is a symbolic link, and every component is a proper name. */
  ghost predicate LinkFree(fs: Filesystem, path: Path) {
    && (forall i :: 0 <= i < |path| ==> ProperName(path[i]))
    && (forall i :: 0 < i <= |path| ==> !fs(path[..i]).Link? && !fs(path[..i]).UnreadableLink?)
  }

  /** filepath.Dir on a clean absolute path; the root is its own parent. */
  function Parent(path: Path): Path {
    if path == [] then [] else path[..|path| - 1]
  }

  /** Where the resolution of a link's target starts. */
  function LinkBase(dir: Path, target: string): Path {
    if target != "" && target[0] == SLASH then [] else dir
  }

  // ---------------------------------------------------------------------------
  // Reference: recursive pathname resolution, section 4.13 of the Base
  // Definitions of IEEE Std 1003.1-2017, with missing components read as plain
  // directories.  A link's target is resolved to a path of its own, and only then
  // does resolution go on with the components behind the link.

  datatype Outcome =
    | Done(path: Path, links: nat)   // resolved, having followed `links` links
    | Failed                         // lstat or readlink failed
    | Exhausted                      // more links than the limit

  function Resolve(fs: Filesystem, dir: Path, parts: seq<string>, limit: nat): (o: Outcome)
    ensures o.Done? ==> o.links <= limit
    decreases limit, |parts|
  {
    if parts == [] then Done(dir, 0)
    else if parts[0] == "" || parts[0] == "." then Resolve(fs, dir, parts[1..], limit)
    else if parts[0] == ".." then Resolve(fs, Parent(dir), parts[1..], limit)
    else
      match fs(dir + [parts[0]])
      case LstatFailure => Failed
      case Missing => Resolve(fs, dir + [parts[0]], parts[1..], limit)
      case Plain => Resolve(fs, dir + [parts[0]], parts[1..], limit)
      case UnreadableLink => if limit == 0 then Exhausted else Failed
      case Link(target) =>
        if limit == 0 then Exhausted
        else
          var inner := Resolve(fs, LinkBase(dir, target), Split(target, SLASH), limit - 1);
          Then(fs, Charge(inner, 1), parts[1..], limit)
  }

  /** Counts `n` links followed earlier. */
  function Charge(o: Outcome, n: nat): Outcome {
    if o.Done? then Done(o.path, n + o.links) else o
  }

  /** Goes on with `parts` from where `o` ended, within what is left of the limit. */
  function Then(fs: Filesystem, o: Outcome, parts: seq<string>, limit: nat): (r: Outcome)
    requires o.Done? ==> 0 < o.links <= limit
    ensures r.Done? ==> r.links <= limit
    decreases limit, |parts|
  {
    if o.Done? then Charge(Resolve(fs, o.path, parts, limit - o.links), o.links) else o
  }

  /** Resolving a concatenation is resolving one half and then the other. */
  lemma {:induction false} ResolveConcat(fs: Filesystem, dir: Path, a: seq<string>, b: seq<string>, limit: nat)
    ensures Resolve(fs, dir, a + b, limit) ==
            var first := Resolve(fs, dir, a, limit);
            if first.Done? then Charge(Resolve(fs, first.path, b, limit - first.links), first.links) else first
    decreases limit, |a|
  {
    if a == [] {
      assert a + b == b;
    } else {
      assert (a + b)[1..] == a[1..] + b;
      if a[0] == "" || a[0] == "." {
        ResolveConcat(fs, dir, a[1..], b, limit);
      } else if a[0] == ".." {
        ResolveConcat(fs, Parent(dir), a[1..], b, limit);
      } else {
        match fs(dir + [a[0]]) {
          case LstatFailure =>
          case UnreadableLink =>
          case Missing => ResolveConcat(fs, dir + [a[0]], a[1..], b, limit);
          case Plain => ResolveConcat(fs, dir + [a[0]], a[1..], b, limit);
          case Link(target) =>
            if limit > 0 {
              var inner := Charge(Resolve(fs, LinkBase(dir, target), Split(target, SLASH), limit - 1), 1);
              if inner.Done? {
                ResolveConcat(fs, inner.path, a[1..], b, limit - inner.links);
                ThenConcat(fs, inner, a[1..], b, limit);
              }
            }
        }
      }
    }
  }

  lemma ThenConcat(fs: Filesystem, o: Outcome, a: seq<string>, b: seq<string>, limit: nat)
    requires o.Done? && 0 < o.links <= limit
    requires var left := limit - o.links;
             var first := Resolve(fs, o.path, a, left);
             Resolve(fs, o.path, a + b, left) ==
             if first.Done? then Charge(Resolve(fs, first.path, b, left - first.links), first.links) else first
    ensures var first := Then(fs, o, a, limit);
            Then(fs, o, a + b, limit) ==
            if first.Done? then Charge(Resolve(fs, first.path, b, limit - first.links), first.links) else first
  {
  }

  /** The rule the work list applies: put the target in front of what is left. */
  lemma ResolveLink(fs: Filesystem, dir: Path, parts: seq<string>, target: string, limit: nat)
    requires parts != [] && parts[0] != "" && parts[0] != "." && parts[0] != ".."
    requires fs(dir + [parts[0]]) == Link(target) && limit > 0
    ensures Resolve(fs, dir, parts, limit) ==
            Charge(Resolve(fs, LinkBase(dir, target), Split(target, SLASH) + parts[1..], limit - 1), 1)
  {
    ResolveConcat(fs, LinkBase(dir, target), Split(target, SLASH), parts[1..], limit - 1);
  }

  /** The limit decides only whether resolution is cut short, never its result. */
  lemma {:induction false} LimitOnlyCutsShort(fs: Filesystem, dir: Path, parts: seq<string>, low: nat, high: nat)
    requires low <= high
    ensures Resolve(fs, dir, parts, low).Exhausted? ||
            Resolve(fs, dir, parts, low) == Resolve(fs, dir, parts, high)
    ensures Resolve(fs, dir, parts, high).Done? ==>
              (Resolve(fs, dir, parts, low).Done? <==> Resolve(fs, dir, parts, high).links <= low)
    decreases high, |parts|
  {
    if parts == [] {
    } else if parts[0] == "" || parts[0] == "." {
      LimitOnlyCutsShort(fs, dir, parts[1..], low, high);
    } else if parts[0] == ".." {
      LimitOnlyCutsShort(fs, Parent(dir), parts[1..], low, high);
    } else {
      match fs(dir + [parts[0]]) {
        case LstatFailure =>
        case UnreadableLink =>
        case Missing => LimitOnlyCutsShort(fs, dir + [parts[0]], parts[1..], low, high);
        case Plain => LimitOnlyCutsShort(fs, dir + [parts[0]], parts[1..], low, high);
        case Link(target) =>
          if low > 0 {
            var base, text := LinkBase(dir, target), Split(target, SLASH);
            LimitOnlyCutsShort(fs, base, text, low - 1, high - 1);
            var inner := Charge(Resolve(fs, base, text, high - 1), 1);
            if inner.Done? && inner.links <= low {
              LimitOnlyCutsShort(fs, inner.path, parts[1..], low - inner.links, high - inner.links);
            }
          }
      }
    }
  }

  /** Every path the reference reaches is free of links. */
  lemma {:induction false} ResolveLinkFree(fs: Filesystem, dir: Path, parts: seq<string>, limit: nat)
    requires LinkFree(fs, dir)
    requires forall i :: 0 <= i < |parts| ==> SLASH !in parts[i]
    ensures var o := Resolve(fs, dir, parts, limit); o.Done? ==> LinkFree(fs, o.path)
    decreases limit, |parts|
  {
    if parts == [] {
    } else if parts[0] == "" || parts[0] == "." {
      ResolveLinkFree(fs, dir, parts[1..], limit);
    } else if parts[0] == ".." {
      ParentLinkFree(fs, dir);
      ResolveLinkFree(fs, Parent(dir), parts[1..], limit);
    } else {
      var next := dir + [parts[0]];
      match fs(next) {
        case LstatFailure =>
        case UnreadableLink =>
        case Missing => ChildLinkFree(fs, dir, parts[0]); ResolveLinkFree(fs, next, parts[1..], limit);
        case Plain => ChildLinkFree(fs, dir, parts[0]); ResolveLinkFree(fs, next, parts[1..], limit);
        case Link(target) =>
          if limit > 0 {
            ResolveLinkFree(fs, LinkBase(dir, target), Split(target, SLASH), limit - 1);
            var inner := Charge(Resolve(fs, LinkBase(dir, target), Split(target, SLASH), limit - 1), 1);
            if inner.Done? {
              ResolveLinkFree(fs, inner.path, parts[1..], limit - inner.links);
            }
          }
      }
    }
  }

  lemma ParentLinkFree(fs: Filesystem, dir: Path)
    requires LinkFree(fs, dir)
    ensures LinkFree(fs, Parent(dir))
  {
    forall i | 0 < i <= |Parent(dir)| ensures Parent(dir)[..i] == dir[..i] {}
  }

  lemma ChildLinkFree(fs: Filesystem, dir: Path, name: string)
    requires LinkFree(fs, dir) && ProperName(name)
    requires !fs(dir + [name]).Link? && !fs(dir + [name]).UnreadableLink?
    ensures LinkFree(fs, dir + [name])
  {
    var next := dir + [name];
    forall i | 0 < i <= |next| ensures next[..i] == if i <= |dir| then dir[..i] else next {}
  }

  /** A link whose target is itself is never resolved, whatever the limit. */
  lemma {:induction false} SelfLinkNeverResolves(fs: Filesystem, name: string, rest: seq<string>, limit: nat)
    requires ProperName(name) && fs([name]) == Link(name)
    ensures Resolve(fs, [], [name] + rest, limit) == Exhausted
    decreases limit
  {
    assert [] + [name] == [name];
    if limit > 0 {
      SplitFirst(name, "", SLASH);
      assert name + "" == name;
      assert ([name] + rest)[0] == name && ([name] + rest)[1..] == rest;
      ResolveLink(fs, [], [name] + rest, name, limit);
      SelfLinkNeverResolves(fs, name, rest, limit - 1);
    }
  }

  // ---------------------------------------------------------------------------
  // The work list.

  /** How the reference's answer reads as the answer of the work list. */
  function Answer(o: Outcome): Resolution {
    match o
    case Done(path, _) => Resolved(path)
    case Failed => IOFailure
    case Exhausted => TooManyLinks
  }

  predicate SlashFree(parts: seq<string>) {
    forall i :: 0 <= i < |parts| ==> SLASH !in parts[i]
  }

  lemma SlashFreeConcat(a: seq<string>, b: seq<string>)
    requires SlashFree(a) && SlashFree(b)
    ensures SlashFree(a + b)
  {
  }

  /** From here, with what is left of the limit, resolution ends where it would have from the start. */
  ghost predicate OnCourse(fs: Filesystem, all: seq<string>, resolved: Path, parts: seq<string>, links: nat)
    requires links <= MAX_LINKS
  {
    && Resolve(fs, [], all, MAX_LINKS) == Charge(Resolve(fs, resolved, parts, MAX_LINKS - links), links)
    && SlashFree(parts) && LinkFree(fs, resolved)
  }

  lemma PastName(fs: Filesystem, all: seq<string>, resolved: Path, parts: seq<string>, links: nat)
    requires links <= MAX_LINKS && parts != [] && OnCourse(fs, all, resolved, parts, links)
    ensures parts[0] == "" || parts[0] == "." ==> OnCourse(fs, all, resolved, parts[1..], links)
    ensures parts[0] == ".." ==> OnCourse(fs, all, Parent(resolved), parts[1..], links)
    ensures ProperName(parts[0]) && (fs(resolved + [parts[0]]).Missing? || fs(resolved + [parts[0]]).Plain?) ==>
              OnCourse(fs, all, resolved + [parts[0]], parts[1..], links)
  {
    if parts[0] == ".." {
      ParentLinkFree(fs, resolved);
    } else if ProperName(parts[0]) && (fs(resolved + [parts[0]]).Missing? || fs(resolved + [parts[0]]).Plain?) {
      ChildLinkFree(fs, resolved, parts[0]);
    }
  }

  lemma PastLink(fs: Filesystem, all: seq<string>, resolved: Path, parts: seq<string>, links: nat, target: string)
    requires links < MAX_LINKS && parts != [] && OnCourse(fs, all, resolved, parts, links)
    requires ProperName(parts[0]) && fs(resolved + [parts[0]]) == Link(target)
    ensures OnCourse(fs, all, LinkBase(resolved, target), Split(target, SLASH) + parts[1..], links + 1)
  {
    ResolveLink(fs, resolved, parts, target, MAX_LINKS - links);
    SlashFreeConcat(Split(target, SLASH), parts[1..]);
  }

  /** The loop for paths that do not exist. */
  method WalkMissing(fs: Filesystem, abs: string) returns (r: Resolution)
    ensures r == Answer(Resolve(fs, [], Split(abs, SLASH), MAX_LINKS))
    ensures r.Resolved? ==> LinkFree(fs, r.path)
  {
    ghost var all := Split(abs, SLASH);
    var parts := Split(abs, SLASH);
    var resolved: Path := [];
    var links := 0;
    while parts != []
      invariant 0 <= links <= MAX_LINKS
      invariant OnCourse(fs, all, resolved, parts, links)
      decreases MAX_LINKS - links, |parts|
    {
      var part := parts[0];
      PastName(fs, all, resolved, parts, links);
      if part == "" || part == "." {
        parts := parts[1..];
        continue;
      }
      if part == ".." {
        parts := parts[1..];
        resolved := Parent(resolved);
        continue;
      }
      var next := resolved + [part];
      var info := fs(next);
      if info.LstatFailure? {
        return IOFailure;
      }
      if info.Link? || info.UnreadableLink? {
        links := links + 1;
        if links > MAX_LINKS {
          return TooManyLinks;
        }
        if info.UnreadableLink? {
          return IOFailure;
        }
        PastLink(fs, all, resolved, parts, links - 1, info.target);
        if info.target != "" && info.target[0] == SLASH {
          resolved := [];
        }
        parts := Split(info.target, SLASH) + parts[1..];
        continue;
      }
      parts := parts[1..];
      resolved := next;
    }
    r := Resolved(resolved);
  }

  // ---------------------------------------------------------------------------
  // A second reference, on the text alone: put each link's target in the place of the
  // components that led to it, and when no link is left on the way, clean the text.

  /** What is left of a text, read from its end, when `up` of its names are cancelled by ".."s behind it. */
  function Kept(parts: seq<string>, up: nat): Path {
    if parts == [] then []
    else
      var init, last := parts[..|parts| - 1], parts[|parts| - 1];
      if last == "" || last == "." then Kept(init, up)
      else if last == ".." then Kept(init, up + 1)
      else if up > 0 then Kept(init, up - 1)
      else Kept(init, 0) + [last]
  }

  /** The lexical clean path of a text below the root. */
  function Lexical(parts: seq<string>): Path {
    Kept(parts, 0)
  }

  predicate Names(part: string) {
    part != "" && part != "." && part != ".."
  }

  /** Nothing is in the way at component `i`. */
  predicate Passes(fs: Filesystem, parts: seq<string>, i: nat)
    requires i < |parts|
  {
    Names(parts[i]) ==> var e := fs(Lexical(parts[..i]) + [parts[i]]); e.Missing? || e.Plain?
  }

  /** The first component from `i` on with something in the way. */
  function FirstStop(fs: Filesystem, parts: seq<string>, i: nat): (j: nat)
    requires i <= |parts|
    ensures i <= j <= |parts| && forall k :: i <= k < j ==> Passes(fs, parts, k)
    ensures j < |parts| ==> !Passes(fs, parts, j)
    decreases |parts| - i
  {
    if i == |parts| || !Passes(fs, parts, i) then i else FirstStop(fs, parts, i + 1)
  }

  function Substitute(fs: Filesystem, parts: seq<string>, limit: nat): Outcome
    decreases limit
  {
    var i := FirstStop(fs, parts, 0);
    if i == |parts| then Done(Lexical(parts), 0)
    else
      match fs(Lexical(parts[..i]) + [parts[i]])
      case Link(target) =>
        if limit == 0 then Exhausted
        else
          var before := if target != "" && target[0] == '/' then [] else parts[..i];
          Charge(Substitute(fs, before + Split(target, '/') + parts[i + 1..], limit - 1), 1)
      case UnreadableLink => if limit == 0 then Exhausted else Failed
      case _ => Failed
  }

  /** One more ".." behind a text cancels one more name of what is left, if there is one. */
  lemma {:induction false} KeptOneLess(parts: seq<string>, up: nat)
    ensures Kept(parts, up + 1) == var k := Kept(parts, up); if k == [] then [] else k[..|k| - 1]
    decreases |parts|
  {
    if parts != [] {
      var init, last := parts[..|parts| - 1], parts[|parts| - 1];
      if last == "" || last == "." {
        KeptOneLess(init, up);
      } else if last == ".." {
        KeptOneLess(init, up + 1);
      } else if up > 0 {
        KeptOneLess(init, up - 1);
      }
    }
  }

  lemma LexicalNext(parts: seq<string>, i: nat)
    requires i < |parts|
    ensures parts[i] == "" || parts[i] == "." ==> Lexical(parts[..i + 1]) == Lexical(parts[..i])
    ensures parts[i] == ".." ==> Lexical(parts[..i + 1]) == Parent(Lexical(parts[..i]))
    ensures Names(parts[i]) ==> Lexical(parts[..i + 1]) == Lexical(parts[..i]) + [parts[i]]
  {
    assert parts[..i + 1][..i] == parts[..i];
    KeptOneLess(parts[..i], 0);
  }

  /** As long as nothing is in the way, resolution is where the text before it leads. */
  lemma {:induction false} ResolvePassing(fs: Filesystem, parts: seq<string>, i: nat, limit: nat)
    requires i <= |parts| && forall k :: 0 <= k < i ==> Passes(fs, parts, k)
    ensures Resolve(fs, [], parts, limit) == Resolve(fs, Lexical(parts[..i]), parts[i..], limit)
    decreases i
  {
    if i == 0 {
      assert parts[0..] == parts;
    } else {
      ResolvePassing(fs, parts, i - 1, limit);
      LexicalNext(parts, i - 1);
      assert Passes(fs, parts, i - 1);
      assert parts[i - 1..][1..] == parts[i..] && parts[i - 1..][0] == parts[i - 1];
    }
  }

  /** What passes in the beginning of a text passes in any text of that beginning. */
  lemma PassesInBeginning(fs: Filesystem, parts: seq<string>, i: nat, rest: seq<string>)
    requires i <= |parts| && forall k :: 0 <= k < i ==> Passes(fs, parts, k)
    ensures forall k :: 0 <= k < i ==> Passes(fs, parts[..i] + rest, k)
  {
    var other := parts[..i] + rest;
    forall k | 0 <= k < i ensures Passes(fs, other, k) {
      assert Passes(fs, parts, k);
      assert other[..k] == parts[..k] && other[k] == parts[k];
    }
  }

  /** Substitution where a link is in the way. */
  lemma ResolveAtLink(fs: Filesystem, parts: seq<string>, i: nat, target: string, limit: nat)
    requires i < |parts| && limit > 0 && forall k :: 0 <= k < i ==> Passes(fs, parts, k)
    requires Names(parts[i]) && fs(Lexical(parts[..i]) + [parts[i]]) == Link(target)
    ensures var before := if target != "" && target[0] == '/' then [] else parts[..i];
            Resolve(fs, [], parts, limit) ==
            Charge(Resolve(fs, [], before + Split(target, '/') + parts[i + 1..], limit - 1), 1)
  {
    var dir, rest := Lexical(parts[..i]), parts[i..];
    ResolvePassing(fs, parts, i, limit);
    assert rest[0] == parts[i] && rest[1..] == parts[i + 1..];
    ResolveLink(fs, dir, rest, target, limit);
    var after := Split(target, '/') + parts[i + 1..];
    if target != "" && target[0] == '/' {
      assert [] + Split(target, '/') + parts[i + 1..] == after;
    } else {
      var text := parts[..i] + after;
      PassesInBeginning(fs, parts, i, after);
      ResolvePassing(fs, text, i, limit - 1);
      assert text[..i] == parts[..i] && text[i..] == after;
      assert parts[..i] + Split(target, '/') + parts[i + 1..] == text;
    }
  }

  /** A path on which nothing is a link is found where its text leads; in particular ".." undoes the name before it. */
  lemma LinkFreeWayIsLexical(fs: Filesystem, parts: seq<string>, limit: nat)
    requires forall i :: 0 <= i < |parts| ==> Passes(fs, parts, i)
    ensures Resolve(fs, [], parts, limit) == Done(Lexical(parts), 0)
  {
    ResolvePassing(fs, parts, |parts|, limit);
    assert parts[..|parts|] == parts;
  }

  /** Where nothing can be substituted. */
  lemma ResolveAtStop(fs: Filesystem, parts: seq<string>, i: nat, limit: nat)
    requires i < |parts| && !Passes(fs, parts, i) && forall k :: 0 <= k < i ==> Passes(fs, parts, k)
    requires fs(Lexical(parts[..i]) + [parts[i]]).Link? ==> limit == 0
    ensures Resolve(fs, [], parts, limit) ==
            var entry := fs(Lexical(parts[..i]) + [parts[i]]);
            if limit == 0 && (entry.Link? || entry.UnreadableLink?) then Exhausted else Failed
  {
    ResolvePassing(fs, parts, i, limit);
    assert parts[i..][0] == parts[i];
  }

  /**
   * Resolving from the root is substituting links in the text and then cleaning it: a
   * relative target takes the place of its own name, an absolute one that of the whole
   * way to it, and a ".." cancels what the text before it leads to.
   */
  lemma {:induction false} ResolutionIsSubstitution(fs: Filesystem, parts: seq<string>, limit: nat)
    ensures Resolve(fs, [], parts, limit) == Substitute(fs, parts, limit)
    decreases limit
  {
    var i := FirstStop(fs, parts, 0);
    if i == |parts| {
      LinkFreeWayIsLexical(fs, parts, limit);
    } else {
      var entry := fs(Lexical(parts[..i]) + [parts[i]]);
      if entry.Link? && limit > 0 {
        var before := if entry.target != "" && entry.target[0] == '/' then [] else parts[..i];
        ResolveAtLink(fs, parts, i, entry.target, limit);
        ResolutionIsSubstitution(fs, before + Split(entry.target, '/') + parts[i + 1..], limit - 1);
      } else {
        ResolveAtStop(fs, parts, i, limit);
      }
    }
  }

  /** A name and the ".." behind it might as well not be there. */
  lemma {:induction false} DotDotCancels(a: seq<string>, name: string, b: seq<string>, up: nat)
    requires Names(name)
    ensures Kept(a + [name, ".."] + b, up) == Kept(a + b, up)
    decreases |b|
  {
    var s := a + [name, ".."] + b;
    if b == [] {
      assert a + b == a;
      assert s[..|s| - 1] == a + [name] && (a + [name])[..|a|] == a;
    } else {
      var init, last := b[..|b| - 1], b[|b| - 1];
      assert s[..|s| - 1] == a + [name, ".."] + init && (a + b)[..|a + b| - 1] == a + init;
      DotDotCancels(a, name, init, if last == ".." then up + 1 else if Names(last) && up > 0 then up - 1 else up);
    }
  }

  /** At the root ".." stays. */
  lemma {:induction false} RootDotDotStays(b: seq<string>, up: nat)
    ensures Kept([".."] + b, up) == Kept(b, up)
    decreases |b|
  {
    var s := [".."] + b;
    if b == [] {
      assert s[..0] == [];
    } else {
      var init, last := b[..|b| - 1], b[|b| - 1];
      assert s[..|s| - 1] == [".."] + init;
      RootDotDotStays(init, if last == ".." then up + 1 else if Names(last) && up > 0 then up - 1 else up);
    }
  }

  // ---------------------------------------------------------------------------
  // The whole function.

  /** What `filepath.EvalSymlinks` reports: it follows at most 255 links too, and fails on anything missing. */
  datatype Evaluated = Existing(path: Path) | Absent | EvalFailure

  /** The process's surroundings; `abs` makes a path absolute, or fails when the working directory cannot be found. */
  datatype Environment = Environment(fs: Filesystem, abs: string -> Option<string>, eval: string -> Evaluated)

  /** A path that is found is found where resolution ends. */
  ghost predicate Truthful(env: Environment) {
    forall abs {:trigger env.eval(abs)} :: env.eval(abs).Existing? ==>
      Answer(Substitute(env.fs, Split(abs, '/'), 255)) == Resolved(env.eval(abs).path)
  }

  /** What coverage is decided by: substitution of at most 255 links, unless the path cannot be made absolute or looked up. */
  ghost function Located(env: Environment, path: string): Resolution {
    match env.abs(path)
    case None => IOFailure
    case Some(abs) =>
      if env.eval(abs).EvalFailure? then IOFailure else Answer(Substitute(env.fs, Split(abs, '/'), 255))
  }

  method ResolvedCoveragePath(env: Environment, path: string) returns (r: Resolution)
    requires Truthful(env)
    ensures r == Located(env, path)
    ensures r.Resolved? ==> LinkFree(env.fs, r.path)
  {
    var abs := env.abs(path);
    if abs.None? {
      return IOFailure;
    }
    ResolutionIsSubstitution(env.fs, Split(abs.value, SLASH), MAX_LINKS);
    match env.eval(abs.value) {
      case Existing(found) =>
        ResolveLinkFree(env.fs, [], Split(abs.value, SLASH), MAX_LINKS);
        r := Resolved(found);
      case Absent => r := WalkMissing(env.fs, abs.value);
      case EvalFailure => r := IOFailure;
    }
  }

  /**
   * Without any limit: some number of links suffices to reach `path`.  The work
   * list finds exactly the paths that take at most 255 links.
   */
  ghost predicate ResolvesTo(fs: Filesystem, parts: seq<string>, path: Path, links: nat) {
    exists limit: nat :: Resolve(fs, [], parts, limit) == Done(path, links)
  }

  lemma WalkMeetsUnlimitedResolution(fs: Filesystem, parts: seq<string>, path: Path)
    ensures Answer(Resolve(fs, [], parts, MAX_LINKS)) == Resolved(path) <==>
            exists links: nat :: links <= 255 && ResolvesTo(fs, parts, path, links)
  {
    var here := Resolve(fs, [], parts, MAX_LINKS);
    if here.Done? && here.path == path {
      assert ResolvesTo(fs, parts, path, here.links);
    }
    if links: nat :| links <= MAX_LINKS && ResolvesTo(fs, parts, path, links) {
      var limit: nat :| Resolve(fs, [], parts, limit) == Done(path, links);
      if limit <= MAX_LINKS {
        LimitOnlyCutsShort(fs, [], parts, limit, MAX_LINKS);
      } else {
        LimitOnlyCutsShort(fs, [], parts, MAX_LINKS, limit);
      }
    }
  }

  // ---------------------------------------------------------------------------
  // Coverage: is one resolved path below another?

  /** The components of filepath.Rel(base, target) for clean absolute paths. */
  function RelParts(base: Path, target: Path): (r: seq<string>)
    ensures r != []
    decreases |base|
  {
    if base == [] && target == [] then ["."]
    else if base != [] && target != [] && base[0] == target[0] then RelParts(base[1..], target[1..])
    else Ups(|base|) + target
  }

  function Ups(n: nat): (r: seq<string>)
    ensures |r| == n && forall i :: 0 <= i < n ==> r[i] == ".."
  {
    if n == 0 then [] else [".."] + Ups(n - 1)
  }

  /** The text test the code applies to the relative path. */
  predicate Escapes(rel: string) {
    rel == ".." || HasPrefix(rel, "../")
  }

  lemma {:induction false} EscapesByFirstPart(parts: seq<string>)
    requires parts != [] && SLASH !in parts[0]
    ensures Escapes(Join(parts, SLASH)) <==> parts[0] == ".."
  {
    var text := Join(parts, SLASH);
    var head := parts[0];
    if |parts| > 1 {
      assert text == head + ([SLASH] + Join(parts[1..], SLASH));
      assert text[|head|] == SLASH;
    }
    assert forall i :: 0 <= i < |head| ==> text[i] == head[i] && text[i] != SLASH;
    assert "../" <= text <==> |text| > 2 && text[0] == '.' && text[1] == '.' && text[2] == SLASH;
    assert head == ".." <==> |head| == 2 && head[0] == '.' && head[1] == '.';
  }

  lemma {:induction false} RelStaysBelowIffPrefix(base: Path, target: Path)
    requires forall i :: 0 <= i < |target| ==> ProperName(target[i])
    ensures SLASH !in RelParts(base, target)[0]
    ensures RelParts(base, target)[0] != ".." <==> base <= target
    decreases |base|
  {
    if base != [] && target != [] && base[0] == target[0] {
      RelStaysBelowIffPrefix(base[1..], target[1..]);
      assert base == [base[0]] + base[1..];
      assert target == [target[0]] + target[1..];
    }
  }

  datatype Coverage = Covered | Outside | Unresolvable

  /** Covered exactly when the resolved host directory is an ancestor of (or is) the resolved candidate. */
  method EnsureBelowHostDir(env: Environment, hostDir: string, candidate: string) returns (c: Coverage)
    requires Truthful(env)
    ensures var host, cand := Located(env, hostDir), Located(env, candidate);
            && (c.Unresolvable? <==> !(host.Resolved? && cand.Resolved?))
            && (c.Covered? <==> host.Resolved? && cand.Resolved? && host.path <= cand.path)
  {
    var host := ResolvedCoveragePath(env, hostDir);
    if !host.Resolved? {
      return Unresolvable;
    }
    var cand := ResolvedCoveragePath(env, candidate);
    if !cand.Resolved? {
      return Unresolvable;
    }
    var rel := RelParts(host.path, cand.path);
    RelStaysBelowIffPrefix(host.path, cand.path);
    EscapesByFirstPart(rel);
    c := if Escapes(Join(rel, SLASH)) then Outside else Covered;
  }
}
