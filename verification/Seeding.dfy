/**
 * First-boot seeding: `PrepareRouterFiles` and `MarkSeeded` (internal/frr/files.go) with
 * `runRouterCommands` (internal/runtime/runtime.go).  Every file operation and every
 * command may fail, and a boot ends at its first failure.
 */
module Seeding {
  datatype Command = Shell(run: string) | Vtysh(run: string)

  /** One command given to a router, and whether it succeeded. */
  datatype Entry = Entry(command: Command, ok: bool)

  datatype Conf = Missing | Torn | Base

  /**
   * One router's directory.  `log` is every command the router was given since its
   * frr.conf was last written, `pass` the command list of the boot that set the marker.
   */
  datatype RouterDir = RouterDir(marker: bool, conf: Conf, log: seq<Entry>, pass: seq<Command>)

  const EMPTY := RouterDir(false, Missing, [], [])

  /** How a write of frr.conf ends: it may also fail with all of the file there. */
  datatype Written = Written(left: Conf, failed: bool)

  /** How one command ends: it may not reach the router at all. */
  datatype Ending = Ending(reached: bool, ok: bool)

  /** How one boot's file operations and commands on one router end, each if it comes to it. */
  datatype Luck = Luck(
    early: bool,             // a directory or file before frr.conf cannot be written
    remove: bool,            // the marker cannot be removed
    write: Written,
    stat: bool,              // the marker cannot be looked up
    wait: bool,              // the daemons do not answer
    commands: nat -> Ending,
    mark: Written)           // the marker is written, as far as `left` is not Missing

  predicate Lucky(l: Luck, commands: seq<Command>) {
    && !l.early && !l.remove && !l.stat && !l.wait
    && l.write == Written(Base, false) && l.mark == Written(Base, false)
    && forall i :: 0 <= i < |commands| ==> l.commands(i) == Ending(true, true)
  }

  function VtyshEntries(log: seq<Entry>): seq<Entry> {
    if log == [] then []
    else
      var last := log[|log| - 1];
      VtyshEntries(log[..|log| - 1]) + if last.command.Vtysh? then [last] else []
  }

  /** What a boot that meets no failure runs: everything, or everything but the vtysh commands. */
  function Due(commands: seq<Command>, needsSeed: bool): seq<Entry> {
    if commands == [] then []
    else
      var last := commands[|commands| - 1];
      Due(commands[..|commands| - 1], needsSeed) + if last.Shell? || needsSeed then [Entry(last, true)] else []
  }

  /** While it seeds, everything runs, in order. */
  lemma {:induction false} DueSeeding(commands: seq<Command>)
    ensures |Due(commands, true)| == |commands|
    ensures forall i :: 0 <= i < |commands| ==> Due(commands, true)[i] == Entry(commands[i], true)
    decreases |commands|
  {
    if commands != [] {
      DueSeeding(commands[..|commands| - 1]);
    }
  }

  /** Whether or not it seeds, the same shell commands run. */
  lemma {:induction false} DueShells(commands: seq<Command>, needsSeed: bool)
    ensures ShellsOf(Due(commands, needsSeed)) == ShellsOf(Due(commands, true))
    decreases |commands|
  {
    if commands != [] {
      var init, last := commands[..|commands| - 1], commands[|commands| - 1];
      DueShells(init, needsSeed);
      DueLast(commands, true);
      if last.Shell? || needsSeed {
        DueLast(commands, needsSeed);
      } else {
        assert Due(commands, needsSeed) == Due(init, needsSeed);
      }
    }
  }

  lemma DueLast(commands: seq<Command>, needsSeed: bool)
    requires commands != [] && (commands[|commands| - 1].Shell? || needsSeed)
    ensures var due := Due(commands, needsSeed);
            due != [] && due[..|due| - 1] == Due(commands[..|commands| - 1], needsSeed)
            && due[|due| - 1] == Entry(commands[|commands| - 1], true)
  {
  }

  function ShellsOf(log: seq<Entry>): seq<Entry> {
    if log == [] then []
    else
      var last := log[|log| - 1];
      ShellsOf(log[..|log| - 1]) + if last.command.Shell? then [last] else []
  }

  /** The vtysh commands of a list, in order, each having succeeded. */
  function SeedPass(commands: seq<Command>): seq<Entry> {
    VtyshEntries(Due(commands, true))
  }

  predicate EndsWith<T(==)>(s: seq<T>, tail: seq<T>) {
    |tail| <= |s| && s[|s| - |tail|..] == tail
  }

  /** A marker means that one boot's whole vtysh list ran, in order, without failure, and was the last to run. */
  predicate Sound(d: RouterDir) {
    d.marker ==> d.conf != Missing && SeedPass(d.pass) != [] && EndsWith(VtyshEntries(d.log), SeedPass(d.pass))
  }

  // ---------------------------------------------------------------------------

  lemma {:induction false} VtyshEntriesConcat(a: seq<Entry>, b: seq<Entry>)
    ensures VtyshEntries(a + b) == VtyshEntries(a) + VtyshEntries(b)
    decreases |b|
  {
    if b == [] {
      assert a + b == a;
    } else {
      assert (a + b)[..|a + b| - 1] == a + b[..|b| - 1];
      VtyshEntriesConcat(a, b[..|b| - 1]);
    }
  }

  lemma {:induction false} QuietPassHasNoVtysh(commands: seq<Command>)
    ensures VtyshEntries(Due(commands, false)) == []
    decreases |commands|
  {
    if commands != [] {
      var init, last := commands[..|commands| - 1], commands[|commands| - 1];
      QuietPassHasNoVtysh(init);
      if last.Shell? {
        VtyshEntriesConcat(Due(init, false), [Entry(last, true)]);
        assert VtyshEntries([Entry(last, true)]) == [];
        assert Due(commands, false) == Due(init, false) + [Entry(last, true)];
      } else {
        assert Due(commands, false) == Due(init, false);
      }
    }
  }

  lemma DueNext(commands: seq<Command>, i: nat, needsSeed: bool)
    requires i < |commands|
    ensures Due(commands[..i + 1], needsSeed)
            == Due(commands[..i], needsSeed) + if commands[i].Shell? || needsSeed then [Entry(commands[i], true)] else []
  {
    assert commands[..i + 1][..i] == commands[..i];
  }

  lemma SeedPassNext(commands: seq<Command>, i: nat)
    requires i < |commands|
    ensures SeedPass(commands[..i + 1]) == SeedPass(commands[..i]) + if commands[i].Vtysh? then [Entry(commands[i], true)] else []
  {
    DueNext(commands, i, true);
    VtyshEntriesConcat(Due(commands[..i], true), [Entry(commands[i], true)]);
    assert VtyshEntries([Entry(commands[i], true)]) == if commands[i].Vtysh? then [Entry(commands[i], true)] else [];
  }

  lemma SeedingPass(before: seq<Entry>, commands: seq<Command>)
    ensures EndsWith(VtyshEntries(before + Due(commands, true)), SeedPass(commands))
  {
    VtyshEntriesConcat(before, Due(commands, true));
  }

  lemma QuietEntry(log: seq<Entry>, e: Entry)
    requires e.command.Shell?
    ensures VtyshEntries(log + [e]) == VtyshEntries(log)
  {
    VtyshEntriesConcat(log, [e]);
    assert VtyshEntries([e]) == [];
  }

  // ---------------------------------------------------------------------------
  // One router.

  /** Only shell commands were added. */
  predicate Quiet(before: RouterDir, after: RouterDir) {
    after == before.(log := after.log) && VtyshEntries(after.log) == VtyshEntries(before.log)
  }

  /** Files ready for a boot: the marker is gone if asked to reseed, and a fragment stays what it is unless so asked. */
  predicate Prepared(before: RouterDir, after: RouterDir, reseed: bool) {
    && after.conf != Missing
    && (after.conf == Base <==> reseed || before.conf != Torn)
    && (after.marker <==> !reseed && before.marker)
    && (reseed || before.conf == Missing ==> after.log == [])
    && (!reseed && before.conf != Missing ==> after == before)
  }

  /** Whatever preparation got to: a marker that is left vouches for what it vouched for. */
  predicate Unharmed(before: RouterDir, after: RouterDir, reseed: bool) {
    && (after.marker ==> after == before)
    && (!reseed && before.marker ==> after == before)
  }

  /** A complete round of a router's commands, seeding it if it was unseeded. */
  predicate Ran(before: RouterDir, after: RouterDir, commands: seq<Command>) {
    && after.log == before.log + Due(commands, !before.marker)
    && after.conf == before.conf
    && (after.marker <==> before.marker || SeedPass(commands) != [])
    && (after.marker && !before.marker ==> after.pass == commands)
  }

  /** However far a round got: a seeded router is given no vtysh command, an unseeded one is marked by this round or not at all. */
  predicate Underway(before: RouterDir, after: RouterDir, commands: seq<Command>) {
    if before.marker then Quiet(before, after) else after.marker ==> after.pass == commands
  }

  /** A file is written whole, or the write fails and leaves a fragment or nothing. */
  method WriteConf(d: RouterDir, w: Written) returns (ok: bool, d': RouterDir)
    requires !d.marker
    ensures ok <==> w == Written(Base, false)
    ensures d' == if w.left == Missing then d else RouterDir(false, w.left, [], [])
  {
    ok := w.left == Base && !w.failed;
    d' := if w.left == Missing then d else RouterDir(false, w.left, [], []);
  }

  /** `PrepareRouterFiles`. */
  method PrepareRouterFiles(d: RouterDir, reseed: bool, l: Luck) returns (ok: bool, needsSeed: bool, d': RouterDir)
    requires Sound(d)
    ensures Sound(d') && Unharmed(d, d', reseed)
    ensures Lucky(l, []) ==> ok
    ensures ok ==> Prepared(d, d', reseed) && (needsSeed <==> !d'.marker)
  {
    needsSeed, d' := reseed, d;
    if l.early {
      return false, needsSeed, d';
    }
    if reseed {
      if d.marker && l.remove {
        return false, needsSeed, d';
      }
      ok, d' := WriteConf(d.(marker := false), l.write);
    } else if d.conf == Missing {
      ok, d' := WriteConf(d, l.write);
    } else {
      ok := true;
    }
    if !ok || l.stat {
      return false, needsSeed, d';
    }
    needsSeed := needsSeed || !d'.marker;
  }

  /** One command; vtysh commands first wait, once a boot, until every daemon answers. */
  method Execute(d: RouterDir, command: Command, waited: bool, daemonsFail: bool, e: Ending) returns (ok: bool, d': RouterDir)
    ensures ok <==> e == Ending(true, true) && !(command.Vtysh? && !waited && daemonsFail)
    ensures d' == d || d' == d.(log := d.log + [Entry(command, ok)])
    ensures ok ==> d' == d.(log := d.log + [Entry(command, true)])
  {
    if command.Vtysh? && !waited && daemonsFail {
      return false, d;
    }
    ok := e.reached && e.ok;
    d' := if e.reached then d.(log := d.log + [Entry(command, ok)]) else d;
  }

  /** `MarkSeeded`: even a write that fails may leave the marker behind. */
  method MarkSeeded(d: RouterDir, commands: seq<Command>, w: Written) returns (ok: bool, d': RouterDir)
    requires d.conf != Missing && !d.marker
    requires SeedPass(commands) != [] && EndsWith(VtyshEntries(d.log), SeedPass(commands))
    ensures Sound(d')
    ensures ok <==> w.left != Missing && !w.failed
    ensures d' == if w.left == Missing then d else d.(marker := true, pass := commands)
  {
    ok := w.left != Missing && !w.failed;
    d' := if w.left == Missing then d else d.(marker := true, pass := commands);
  }

  /** One due command that succeeds carries the round one further. */
  lemma RoundStep(before: RouterDir, d: RouterDir, commands: seq<Command>, i: nat)
    requires i < |commands| && (commands[i].Shell? || !before.marker)
    requires d == before.(log := before.log + Due(commands[..i], !before.marker))
    ensures before.log + Due(commands[..i + 1], !before.marker) == d.log + [Entry(commands[i], true)]
    ensures before.marker && Quiet(before, d) ==> forall ok :: Quiet(before, d.(log := d.log + [Entry(commands[i], ok)]))
  {
    DueNext(commands, i, !before.marker);
    if before.marker {
      QuietEntry(d.log, Entry(commands[i], true));
      QuietEntry(d.log, Entry(commands[i], false));
    }
  }

  lemma QuietIsSound(before: RouterDir, after: RouterDir)
    requires Sound(before) && Quiet(before, after)
    ensures Sound(after)
  {
  }

  /** The commands of a round up to the first that fails. */
  method RunCommands(d: RouterDir, commands: seq<Command>, l: Luck) returns (ok: bool, ranVtysh: bool, d': RouterDir)
    ensures Lucky(l, commands) ==> ok
    ensures d' == d.(log := d'.log)
    ensures d.marker ==> Quiet(d, d')
    ensures ok ==> d'.log == d.log + Due(commands, !d.marker)
    ensures ok ==> (ranVtysh <==> !d.marker && SeedPass(commands) != [])
  {
    ok, ranVtysh, d' := true, false, d;
    var i := 0;
    while i < |commands|
      invariant 0 <= i <= |commands|
      invariant d' == d.(log := d.log + Due(commands[..i], !d.marker))
      invariant d.marker ==> Quiet(d, d')
      invariant ranVtysh <==> !d.marker && SeedPass(commands[..i]) != []
    {
      DueNext(commands, i, !d.marker);
      SeedPassNext(commands, i);
      if commands[i].Shell? || !d.marker {
        RoundStep(d, d', commands, i);
        ok, d' := Execute(d', commands[i], ranVtysh, l.wait, l.commands(i));
        if !ok {
          return;
        }
        ranVtysh := ranVtysh || commands[i].Vtysh?;
      }
      i := i + 1;
    }
    assert commands[..i] == commands;
  }

  /** One router's share of `runRouterCommands`. */
  method RunRouterCommands(d: RouterDir, commands: seq<Command>, l: Luck) returns (ok: bool, d': RouterDir)
    requires Sound(d) && d.conf != Missing
    ensures Lucky(l, commands) ==> ok
    ensures Sound(d') && Underway(d, d', commands)
    // On success each due command has run once, in order, and the marker tells whether there was anything to seed.
    ensures ok ==> Ran(d, d', commands)
  {
    var ranVtysh;
    ok, ranVtysh, d' := RunCommands(d, commands, l);
    if d.marker {
      QuietIsSound(d, d');
    }
    if ok && ranVtysh {
      SeedingPass(d.log, commands);
      ok, d' := MarkSeeded(d', commands, l.mark);
    }
  }

  // ---------------------------------------------------------------------------
  // The lab's directory.

  predicate Distinct<T(==)>(s: seq<T>) {
    forall i, j :: 0 <= i < j < |s| ==> s[i] != s[j]
  }

  /** What one boot does to one router. */
  predicate Booted(before: RouterDir, after: RouterDir, commands: seq<Command>, reseed: bool, ok: bool) {
    // A seeded router sees no vtysh command in a boot that does not reseed.
    && (!reseed && before.marker ==> Quiet(before, after))
    // A marker is the old one, vouching for the old pass, or this boot's.
    && (after.marker ==> (before.marker && after.pass == before.pass) || after.pass == commands)
    // Success leaves a router that has something to seed seeded, by this boot if it had not been or was to be reseeded ...
    && (ok && SeedPass(commands) != [] ==> after.marker)
    && (ok && after.marker && (reseed || !before.marker) ==> after.pass == commands)
    // ... over the base configuration exactly if it is reseeded or was not torn ...
    && (ok ==> (after.conf == Base <==> reseed || before.conf != Torn))
    // ... and everything due has run, shell commands in any case, behind what ran since frr.conf was written.
    && (ok ==> after.log == (if reseed || before.conf == Missing then [] else before.log) + Due(commands, reseed || !before.marker))
  }

  lemma BootedWell(before: RouterDir, ready: RouterDir, after: RouterDir, commands: seq<Command>, reseed: bool)
    requires Prepared(before, ready, reseed) && Unharmed(before, ready, reseed)
    requires Ran(ready, after, commands) && (ready == after || Underway(ready, after, commands))
    ensures Booted(before, after, commands, reseed, true)
  {
  }

  lemma BootedBadly(before: RouterDir, ready: RouterDir, after: RouterDir, commands: seq<Command>, reseed: bool)
    requires Unharmed(before, ready, reseed) && (ready == after || Underway(ready, after, commands))
    ensures Booted(before, after, commands, reseed, false)
  {
  }

  /** `luck` says how the operations on each router end, `building` whether the lab itself comes up in between. */
  datatype Event =
    | Purge
    | Boot(routers: seq<string>, commands: map<string, seq<Command>>, reseed: bool, luck: string -> Luck, building: bool)

  predicate ProperEvent(e: Event) {
    e.Boot? ==> Distinct(e.routers) && forall r :: r in e.routers ==> r in e.commands
  }

  /** The router certainly starts anew. */
  predicate Resets(e: Event, ok: bool, router: string) {
    e.Purge? || (ok && e.reseed && router in e.routers)
  }

  /** Where a marker comes from: a boot that listed the router with the commands it vouches for, and no later reset. */
  ghost predicate From(events: seq<Event>, oks: seq<bool>, router: string, pass: seq<Command>, i: nat)
    requires |oks| == |events|
  {
    && i < |events| && events[i].Boot? && router in events[i].routers && router in events[i].commands
    && events[i].commands[router] == pass
    && forall k :: i < k < |events| ==> !Resets(events[k], oks[k], router)
  }

  ghost predicate Explained(before: RouterDir, after: RouterDir, events: seq<Event>, oks: seq<bool>, router: string)
    requires |oks| == |events|
  {
    after.marker ==>
      || (before.marker && after.pass == before.pass && forall k :: 0 <= k < |events| ==> !Resets(events[k], oks[k], router))
      || exists i :: From(events, oks, router, after.pass, i)
  }

  lemma FromLater(events: seq<Event>, oks: seq<bool>, e: Event, ok: bool, router: string, pass: seq<Command>, i: nat)
    requires |oks| == |events| && From(events, oks, router, pass, i) && !Resets(e, ok, router)
    ensures From(events + [e], oks + [ok], router, pass, i)
  {
  }

  lemma FromNow(events: seq<Event>, oks: seq<bool>, e: Event, ok: bool, router: string)
    requires |oks| == |events| && e.Boot? && router in e.routers && router in e.commands
    ensures From(events + [e], oks + [ok], router, e.commands[router], |events|)
  {
  }

  /** One more event keeps every marker explained. */
  lemma StillExplained(before: RouterDir, d: RouterDir, after: RouterDir, events: seq<Event>, oks: seq<bool>,
                       e: Event, ok: bool, router: string)
    requires |oks| == |events| && Explained(before, d, events, oks, router)
    requires e.Purge? ==> !after.marker
    requires e.Boot? && router !in e.routers ==> after == d
    requires e.Boot? && router in e.routers ==> router in e.commands && Booted(d, after, e.commands[router], e.reseed, ok)
    ensures Explained(before, after, events + [e], oks + [ok], router)
  {
    if after.marker {
      if e.Boot? && router in e.routers && after.pass == e.commands[router] {
        FromNow(events, oks, e, ok, router);
      } else if i :| From(events, oks, router, d.pass, i) {
        FromLater(events, oks, e, ok, router, d.pass, i);
      }
    }
  }

  function At(dirs: map<string, RouterDir>, router: string): RouterDir {
    if router in dirs then dirs[router] else EMPTY
  }

  /** The first `n` routers have changed as `step` allows, the others not at all. */
  ghost predicate Done(before: map<string, RouterDir>, now: map<string, RouterDir>, routers: seq<string>, n: nat,
                       step: (string, RouterDir, RouterDir) -> bool)
    requires n <= |routers|
  {
    && (forall r :: r !in routers[..n] ==> At(now, r) == At(before, r))
    && (forall i :: 0 <= i < n ==> step(routers[i], At(before, routers[i]), At(now, routers[i])))
  }

  lemma OneMoreDone(before: map<string, RouterDir>, now: map<string, RouterDir>, routers: seq<string>, n: nat, d: RouterDir,
                    step: (string, RouterDir, RouterDir) -> bool)
    requires n < |routers| && Distinct(routers) && Done(before, now, routers, n, step)
    requires step(routers[n], At(now, routers[n]), d)
    ensures Done(before, now[routers[n] := d], routers, n + 1, step)
  {
    var r, next := routers[n], now[routers[n] := d];
    assert routers[..n + 1] == routers[..n] + [r] && r !in routers[..n];
    forall i | 0 <= i < n + 1 ensures step(routers[i], At(before, routers[i]), At(next, routers[i])) {
      assert i < n ==> routers[i] != r;
    }
  }

  lemma AllDone(before: map<string, RouterDir>, now: map<string, RouterDir>, routers: seq<string>, n: nat,
                step: (string, RouterDir, RouterDir) -> bool)
    requires n <= |routers| && Done(before, now, routers, n, step)
    ensures forall r :: r !in routers ==> At(now, r) == At(before, r)
    ensures forall r :: r in routers ==> At(now, r) == At(before, r) || step(r, At(before, r), At(now, r))
    ensures n == |routers| ==> forall r :: r in routers ==> step(r, At(before, r), At(now, r))
  {
    forall r | r in routers && (r in routers[..n] || n == |routers|) ensures step(r, At(before, r), At(now, r)) {
      var i :| 0 <= i < n && routers[i] == r;
    }
  }

  class LabDir {
    var dirs: map<string, RouterDir>

    predicate Valid()
      reads this
    {
      forall r :: r in dirs ==> Sound(dirs[r])
    }

    function Dir(router: string): RouterDir
      reads this
    {
      At(dirs, router)
    }

    method Put(router: string, d: RouterDir)
      requires Valid() && Sound(d)
      modifies this
      ensures Valid() && dirs == old(dirs)[router := d]
    {
      dirs := dirs[router := d];
    }

    /** The first half of a boot: every router's files. */
    method PrepareAll(routers: seq<string>, reseed: bool, luck: string -> Luck) returns (ok: bool)
      requires Valid() && Distinct(routers)
      modifies this
      ensures Valid() && ((forall r :: r in routers ==> Lucky(luck(r), [])) ==> ok)
      ensures forall r :: r !in routers ==> Dir(r) == old(Dir(r))
      ensures forall r :: r in routers ==> Unharmed(old(Dir(r)), Dir(r), reseed)
      ensures ok ==> forall r :: r in routers ==> Prepared(old(Dir(r)), Dir(r), reseed)
    {
      ghost var before := dirs;
      ghost var tried := (r: string, d: RouterDir, d': RouterDir) => Unharmed(d, d', reseed);
      ghost var done := (r: string, d: RouterDir, d': RouterDir) => Prepared(d, d', reseed);
      ok := true;
      var i := 0;
      while ok && i < |routers|
        invariant 0 <= i <= |routers| && Valid()
        invariant Done(before, dirs, routers, i, tried)
        invariant ok ==> Done(before, dirs, routers, i, done)
        invariant (forall r :: r in routers ==> Lucky(luck(r), [])) ==> ok
      {
        var needsSeed, d;
        ok, needsSeed, d := PrepareRouterFiles(Dir(routers[i]), reseed, luck(routers[i]));
        OneMoreDone(before, dirs, routers, i, d, tried);
        if ok {
          OneMoreDone(before, dirs, routers, i, d, done);
        }
        Put(routers[i], d);
        i := i + 1;
      }
      AllDone(before, dirs, routers, i, tried);
      if ok {
        AllDone(before, dirs, routers, i, done);
      }
    }

    /** The last half: every router's commands, stopping at the first failure. */
    method RunAll(routers: seq<string>, commands: map<string, seq<Command>>, luck: string -> Luck) returns (ok: bool)
      requires Valid() && Distinct(routers)
      requires forall r :: r in routers ==> Dir(r).conf != Missing && r in commands
      modifies this
      ensures Valid() && ((forall r :: r in routers ==> Lucky(luck(r), commands[r])) ==> ok)
      ensures forall r :: r !in routers ==> Dir(r) == old(Dir(r))
      ensures forall r :: r in routers ==> Dir(r) == old(Dir(r)) || Underway(old(Dir(r)), Dir(r), commands[r])
      ensures ok ==> forall r :: r in routers ==> Ran(old(Dir(r)), Dir(r), commands[r])
    {
      ghost var before := dirs;
      ghost var tried := (r: string, d: RouterDir, d': RouterDir) => r in commands && Underway(d, d', commands[r]);
      ghost var done := (r: string, d: RouterDir, d': RouterDir) => r in commands && Ran(d, d', commands[r]);
      ok := true;
      var i := 0;
      while ok && i < |routers|
        invariant 0 <= i <= |routers| && Valid()
        invariant Done(before, dirs, routers, i, tried)
        invariant ok ==> Done(before, dirs, routers, i, done)
        invariant (forall r :: r in routers ==> Lucky(luck(r), commands[r])) ==> ok
      {
        assert routers[i] !in routers[..i];
        var d;
        ok, d := RunRouterCommands(Dir(routers[i]), commands[routers[i]], luck(routers[i]));
        OneMoreDone(before, dirs, routers, i, d, tried);
        if ok {
          OneMoreDone(before, dirs, routers, i, d, done);
        }
        Put(routers[i], d);
        i := i + 1;
      }
      AllDone(before, dirs, routers, i, tried);
      if ok {
        AllDone(before, dirs, routers, i, done);
      }
    }

    /** One boot.  Between its halves the lab is built, which may fail too. */
    method Boot(routers: seq<string>, commands: map<string, seq<Command>>, reseed: bool, luck: string -> Luck, building: bool)
      returns (ok: bool)
      requires Valid() && Distinct(routers) && forall r :: r in routers ==> r in commands
      modifies this
      ensures Valid()
      ensures forall r :: r !in routers ==> Dir(r) == old(Dir(r))
      ensures forall r :: r in routers ==> Booted(old(Dir(r)), Dir(r), commands[r], reseed, ok)
      // A boot in which nothing fails succeeds.
      ensures building && (forall r :: r in routers ==> Lucky(luck(r), commands[r])) ==> ok
    {
      assert forall r :: r in routers && Lucky(luck(r), commands[r]) ==> Lucky(luck(r), []);
      ghost var before := dirs;
      ok := PrepareAll(routers, reseed, luck);
      ghost var ready := dirs;
      if !ok || !building {
        forall r | r in routers ensures Booted(At(before, r), Dir(r), commands[r], reseed, false) {
          BootedBadly(At(before, r), Dir(r), Dir(r), commands[r], reseed);
        }
        return false;
      }
      ok := RunAll(routers, commands, luck);
      forall r | r in routers ensures Booted(At(before, r), Dir(r), commands[r], reseed, ok) {
        if ok {
          BootedWell(At(before, r), At(ready, r), Dir(r), commands[r], reseed);
        } else {
          BootedBadly(At(before, r), At(ready, r), Dir(r), commands[r], reseed);
        }
      }
    }

    /**
     * Any number of boots and purges.  Whenever a marker is left, one of the boots (or
     * whatever came before them) ran the whole of the list it vouches for, and nothing
     * has since started the router anew.
     */
    method Session(events: seq<Event>) returns (oks: seq<bool>)
      requires Valid() && forall e :: e in events ==> ProperEvent(e)
      modifies this
      ensures Valid() && |oks| == |events|
      ensures forall r :: Explained(old(Dir(r)), Dir(r), events, oks, r)
    {
      oks := [];
      for i := 0 to |events|
        invariant Valid() && |oks| == i
        invariant forall r :: Explained(old(Dir(r)), Dir(r), events[..i], oks, r)
      {
        ghost var before := dirs;
        ghost var earlier := oks;
        var e := events[i];
        assert ProperEvent(e) && events[..i + 1] == events[..i] + [e];
        var ok := true;
        match e {
          case Purge => dirs := map[];
          case Boot(routers, commands, reseed, luck, building) => ok := Boot(routers, commands, reseed, luck, building);
        }
        oks := oks + [ok];
        forall r ensures Explained(old(Dir(r)), Dir(r), events[..i + 1], oks, r) {
          StillExplained(old(Dir(r)), At(before, r), Dir(r), events[..i], earlier, e, ok, r);
        }
      }
      assert events[..|events|] == events;
    }
  }
}
