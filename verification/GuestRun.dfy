/**
 * What running a guest script prints, for the commands `buildShellScript` writes: the
 * script and the parser of internal/multipass/system.go, joined.
 */
module GuestRun {
  import opened Strings
  import opened Options
  import opened ShellQuote
  import opened EnvKeys
  import opened GuestScript
  import ShellFrame

  // ---------------------------------------------------------------------------
  // printf, for formats of ordinary text, "\n" and "%s".

  function Printf(format: string, args: seq<string>): string {
    if format == "" then ""
    else if |format| >= 2 && format[0] == '\\' && format[1] == 'n' then "\n" + Printf(format[2..], args)
    else if |format| >= 2 && format[0] == '%' && format[1] == 's' then
      (if args == [] then "" else args[0]) + Printf(format[2..], if args == [] then [] else args[1..])
    else [format[0]] + Printf(format[1..], args)
  }

  /** Text a format prints as it stands. */
  predicate Verbatim(s: string) {
    '\\' !in s && '%' !in s
  }

  lemma {:induction false} PrintfVerbatim(s: string, rest: string, args: seq<string>)
    requires Verbatim(s)
    ensures Printf(s + rest, args) == s + Printf(rest, args)
    decreases |s|
  {
    if s == "" {
      assert s + rest == rest;
    } else {
      assert s[0] in s && (s + rest)[1..] == s[1..] + rest;
      PrintfPlain(s + rest, args);
      PrintfVerbatim(s[1..], rest, args);
      assert s == [s[0]] + s[1..];
    }
  }

  lemma PrintfPlain(format: string, args: seq<string>)
    requires format != "" && format[0] != '\\' && format[0] != '%'
    ensures Printf(format, args) == [format[0]] + Printf(format[1..], args)
  {
  }

  lemma PrintfLine(s: string)
    requires Verbatim(s)
    ensures Printf(s + "\\n", []) == s + "\n"
  {
    PrintfVerbatim(s, "\\n", []);
    assert "\\n"[2..] == "";
    assert Printf("\\n", []) == "\n" + Printf("", []);
  }

  lemma PrintfStatus(s: string, status: string)
    requires Verbatim(s)
    ensures Printf(s + "%s\\n", [status]) == s + (status + "\n")
  {
    PrintfVerbatim(s, "%s\\n", [status]);
    assert "%s\\n"[2..] == "\\n" && "\\n"[2..] == "";
    assert [status][1..] == [];
    assert Printf("\\n", []) == "\n" + Printf("", []);
    assert Printf("%s\\n", [status]) == status + Printf("\\n", []);
  }

  // ---------------------------------------------------------------------------
  // The shell, as far as the scripts go.

  /** A process started: its arguments, environment and directory. */
  datatype Invocation = Invocation(argv: seq<string>, env: map<string, string>, dir: string)

  /**
   * What came of it.  A command that ends the shell itself, or takes the rest of the
   * script for its own input, does not come back.
   */
  datatype Ending = Ending(content: string, code: int, comesBack: bool)

  /**
   * The guest: where its shell starts and with which environment, the variables nobody
   * may assign, where a directory leads, and what comes of a command.
   */
  datatype Guest = Guest(
    home: string,
    env: map<string, string>,
    fixed: set<string>,
    enter: (string, string) -> Option<string>,
    run: Invocation -> Ending)

  /** What has been printed, the script's own variable and `$?`, with which the shell ends when it is `over`. */
  datatype Shell = Shell(out: string, status: string, last: int, over: bool,
                         dir: string, env: map<string, string>, ran: seq<Invocation>)

  function Start(g: Guest): Shell {
    Shell("", "", 0, false, g.home, g.env, [])
  }

  /** A name a variable can have ("Name" in chapter 3 of the Base Definitions of IEEE Std 1003.1-2017). */
  predicate IsName(s: string) {
    s != "" && IsNameStart(s[0]) && forall i :: 0 <= i < |s| ==> IsNameChar(s[i])
  }

  predicate Settable(g: Guest, name: string) {
    IsName(name) && name !in g.fixed
  }

  /** What `export` takes for the name: its operand up to the first equals sign. */
  function NamePart(s: string): (name: string)
    ensures |name| <= |s|
  {
    if s == "" || s[0] == '=' then "" else [s[0]] + NamePart(s[1..])
  }

  /** `export` with one operand; one that is refused ends a shell under `-e`. */
  function ExportOne(g: Guest, sh: Shell, operand: string): Shell {
    var name := NamePart(operand);
    if sh.over then sh
    else if !IsName(name) then sh.(last := 1, over := true)
    else if |name| == |operand| then sh
    else if name in g.fixed then sh.(last := 1, over := true)
    else sh.(env := sh.env[name := operand[|name| + 1..]])
  }

  function ExportAll(g: Guest, sh: Shell, operands: seq<string>): Shell {
    if operands == [] then sh
    else ExportOne(g, ExportAll(g, sh, operands[..|operands| - 1]), operands[|operands| - 1])
  }

  function ExpandPieces(pieces: seq<Piece>, sh: Shell): string {
    if pieces == [] then ""
    else
      ExpandPieces(pieces[..|pieces| - 1], sh)
      + match pieces[|pieces| - 1]
        case Ch(c) => [c]
        case Param(name) => if name == "?" then ShellFrame.Itoa(sh.last) else if name == "status" then sh.status else ""
  }

  function Expand(w: Word, sh: Shell): string {
    ExpandPieces(w.pieces, sh)
  }

  function ExpandAll(words: seq<Word>, sh: Shell): (r: seq<string>)
    ensures |r| == |words| && forall i :: 0 <= i < |r| ==> r[i] == Expand(words[i], sh)
  {
    seq(|words|, i requires 0 <= i < |words| => Expand(words[i], sh))
  }

  const STATUS := Literal("status=")

  function Call(g: Guest, sh: Shell, argv: seq<string>): Shell {
    var call := Invocation(argv, sh.env, sh.dir);
    var e := g.run(call);
    sh.(out := sh.out + e.content, last := e.code, over := !e.comesBack, ran := sh.ran + [call])
  }

  function ChangeDir(g: Guest, sh: Shell, path: string): Shell {
    match g.enter(sh.dir, path)
    case None => sh.(last := 1, over := true)
    case Some(dir) => sh.(dir := dir, last := 0)
  }

  /** Assigns the script's variable; if it has been exported, the environment follows. */
  function SetStatus(g: Guest, sh: Shell, value: string): Shell {
    if "status" in g.fixed then sh.(last := 1, over := true)
    else sh.(status := value, last := 0, env := if "status" in sh.env then sh.env["status" := value] else sh.env)
  }

  /** `exit` with a number. */
  function Exit(sh: Shell, code: string): Shell {
    ExitWith(sh, ShellFrame.Atoi(code))
  }

  function ExitWith(sh: Shell, code: ShellFrame.Number): Shell {
    match code
    case NaN => sh.(last := 2, over := true)
    case Value(n) => sh.(last := n % 256, over := true)
  }

  /** One command.  The script's own commands begin with unquoted words, the guest command with a quoted one. */
  function Perform(g: Guest, sh: Shell, words: seq<Word>): Shell {
    if sh.over || words == [] then sh
    else if words[0].quoted then Call(g, sh, ExpandAll(words, sh))
    else if words[0] == Unquoted("printf") && |words| >= 2 then
      sh.(out := sh.out + Printf(Expand(words[1], sh), ExpandAll(words[2..], sh)), last := 0)
    else if words[0] == Unquoted("exit") && |words| >= 2 then Exit(sh, Expand(words[1], sh))
    else if words[0] == Unquoted("cd") && |words| >= 2 then ChangeDir(g, sh, Expand(words[1], sh))
    else if words[0] == Unquoted("export") then ExportAll(g, sh.(last := 0), ExpandAll(words[1..], sh))
    else if STATUS <= words[0].pieces then SetStatus(g, sh, ExpandPieces(words[0].pieces[|STATUS|..], sh))
    else sh.(last := 0)
  }

  function PerformAll(g: Guest, sh: Shell, commands: seq<seq<Word>>): Shell {
    if commands == [] then sh
    else Perform(g, PerformAll(g, sh, commands[..|commands| - 1]), commands[|commands| - 1])
  }

  lemma {:induction false} PerformConcat(g: Guest, sh: Shell, a: seq<seq<Word>>, b: seq<seq<Word>>)
    ensures PerformAll(g, sh, a + b) == PerformAll(g, PerformAll(g, sh, a), b)
    decreases |b|
  {
    if b == [] {
      assert a + b == a;
    } else {
      assert (a + b)[..|a + b| - 1] == a + b[..|b| - 1];
      PerformConcat(g, sh, a, b[..|b| - 1]);
    }
  }

  lemma PerformOne(g: Guest, sh: Shell, words: seq<Word>)
    ensures PerformAll(g, sh, [words]) == Perform(g, sh, words)
  {
    assert [words][..0] == [];
  }

  lemma {:induction false} NothingAfterwards(g: Guest, sh: Shell, commands: seq<seq<Word>>)
    requires sh.over
    ensures PerformAll(g, sh, commands) == sh
    decreases |commands|
  {
    if commands != [] {
      NothingAfterwards(g, sh, commands[..|commands| - 1]);
    }
  }

  /** A literal word expands to its text. */
  lemma {:induction false} ExpandLiteral(s: string, sh: Shell)
    ensures ExpandPieces(Literal(s), sh) == s
    decreases |s|
  {
    var pieces := Literal(s);
    if s != "" {
      assert pieces[..|s| - 1] == Literal(s[..|s| - 1]);
      ExpandLiteral(s[..|s| - 1], sh);
    }
  }

  lemma ExpandQuoted(args: seq<string>, sh: Shell)
    ensures ExpandAll(QuotedWords(args), sh) == args
  {
    forall i | 0 <= i < |args| ensures ExpandAll(QuotedWords(args), sh)[i] == args[i] {
      ExpandLiteral(args[i], sh);
    }
  }

  // ---------------------------------------------------------------------------
  // Exports.

  /** Whether the shell lets a key be exported as the script writes it. */
  predicate Accepted(g: Guest, key: string) {
    Settable(g, NamePart(key))
  }

  predicate AllAccepted(g: Guest, keys: seq<string>) {
    forall i :: 0 <= i < |keys| ==> Accepted(g, keys[i])
  }

  /** The environment after one export. */
  function Bound(env: map<string, string>, key: string, value: string): map<string, string> {
    env[NamePart(key) := (key + "=" + value)[|NamePart(key)| + 1..]]
  }

  /** The environment after some exports. */
  function Exported(base: map<string, string>, env: map<string, string>, keys: seq<string>): map<string, string>
    requires forall i :: 0 <= i < |keys| ==> keys[i] in env
  {
    if keys == [] then base
    else
      var key := keys[|keys| - 1];
      Bound(Exported(base, env, keys[..|keys| - 1]), key, env[key])
  }

  lemma {:induction false} NamePartEnds(key: string, rest: string)
    ensures NamePart(key + "=" + rest) == NamePart(key)
    decreases |key|
  {
    var s := key + "=" + rest;
    if key == "" {
      assert s[0] == '=';
    } else if key[0] != '=' {
      assert s[0] == key[0] && s[1..] == key[1..] + "=" + rest;
      NamePartEnds(key[1..], rest);
    }
  }

  /** A name holds no equals sign. */
  lemma {:induction false} NamePartOfName(s: string)
    requires forall i :: 0 <= i < |s| ==> IsNameChar(s[i])
    ensures NamePart(s) == s
    decreases |s|
  {
    if s != "" {
      NamePartOfName(s[1..]);
      assert s == [s[0]] + s[1..];
    }
  }

  lemma ExportLeads(g: Guest, sh: Shell, operand: Word)
    requires !sh.over && sh.last == 0
    ensures Perform(g, sh, [Unquoted("export"), operand]) == ExportOne(g, sh, Expand(operand, sh))
  {
    var words := [Unquoted("export"), operand];
    assert |Literal("export")| == 6 && Literal("export")[0] != Literal("printf")[0];
    assert |Literal("exit")| == 4 && |Literal("cd")| == 2;
    assert words[1..] == [operand];
    var operands := ExpandAll([operand], sh);
    assert operands == [Expand(operand, sh)] && operands[..0] == [];
    assert sh.(last := 0) == sh;
    assert Perform(g, sh, words) == ExportAll(g, sh, operands);
    assert ExportAll(g, sh, []) == sh;
  }

  lemma ExportCommand(g: Guest, sh: Shell, key: string, value: string)
    requires !sh.over && sh.last == 0
    ensures Perform(g, sh, Export(key, value)) ==
            if Accepted(g, key) then sh.(env := Bound(sh.env, key, value)) else sh.(last := 1, over := true)
  {
    ExportLeads(g, sh, Word(Literal(key + "=") + Literal(value), true));
    assert Literal(key + "=") + Literal(value) == Literal(key + "=" + value);
    ExpandLiteral(key + "=" + value, sh);
    NamePartEnds(key, value);
  }

  /** All exports succeed, or the first that does not ends the script. */
  lemma {:induction false} ExportsRun(g: Guest, sh: Shell, env: map<string, string>, keys: seq<string>)
    requires !sh.over && sh.last == 0 && forall i :: 0 <= i < |keys| ==> keys[i] in env
    ensures var after := PerformAll(g, sh, Exports(env, keys));
            if AllAccepted(g, keys) then after == sh.(env := Exported(sh.env, env, keys))
            else after == sh.(last := 1, over := true, env := after.env)
    decreases |keys|
  {
    var all := Exports(env, keys);
    if keys != [] {
      var init, last := keys[..|keys| - 1], keys[|keys| - 1];
      assert all[..|all| - 1] == Exports(env, init) && all[|all| - 1] == Export(last, env[last]);
      ExportsRun(g, sh, env, init);
      assert keys == init + [last];
      if AllAccepted(g, init) {
        ExportCommand(g, sh.(env := Exported(sh.env, env, init)), last, env[last]);
      }
    }
  }

  lemma NameIsBound(env: map<string, string>, name: string, value: string)
    requires IsName(name)
    ensures Bound(env, name, value) == env[name := value]
  {
    NamePartOfName(name);
    assert (name + "=" + value)[|name| + 1..] == value;
  }

  function Values(env: map<string, string>, keys: seq<string>): map<string, string>
    requires forall i :: 0 <= i < |keys| ==> keys[i] in env
  {
    map k | k in keys :: env[k]
  }

  lemma OneMoreValue(base: map<string, string>, env: map<string, string>, keys: seq<string>, key: string)
    requires key in env && forall i :: 0 <= i < |keys| ==> keys[i] in env
    ensures forall i :: 0 <= i < |keys + [key]| ==> (keys + [key])[i] in env
    ensures (base + Values(env, keys))[key := env[key]] == base + Values(env, keys + [key])
  {
    assert forall k :: k in keys + [key] <==> k in keys || k == key;
  }

  /** Keys that are names are exported as they are. */
  lemma {:induction false} NamesAreExported(base: map<string, string>, env: map<string, string>, keys: seq<string>)
    requires forall i :: 0 <= i < |keys| ==> keys[i] in env && IsName(keys[i])
    ensures Exported(base, env, keys) == base + Values(env, keys)
    decreases |keys|
  {
    if keys == [] {
      assert Values(env, keys) == map[];
    } else {
      var init, last := keys[..|keys| - 1], keys[|keys| - 1];
      NamesAreExported(base, env, init);
      NameIsBound(Exported(base, env, init), last, env[last]);
      OneMoreValue(base, env, init, last);
      assert keys == init + [last];
    }
  }

  lemma AllNamesAreExported(base: map<string, string>, env: map<string, string>, keys: seq<string>)
    requires AllKeys(env, keys) && forall i :: 0 <= i < |keys| ==> keys[i] in env && IsName(keys[i])
    ensures Exported(base, env, keys) == base + env
  {
    NamesAreExported(base, env, keys);
    forall k | k in env ensures k in keys {
      assert k in Elements(keys);
    }
    assert Values(env, keys) == env;
  }

  // ---------------------------------------------------------------------------
  // No command at all puts anything but settable names into the environment.

  /** Variables that cannot be set are as the guest had them. */
  ghost predicate Untouched(g: Guest, env: map<string, string>) {
    forall n :: !Settable(g, n) ==> (n in env <==> n in g.env) && (n in env ==> env[n] == g.env[n])
  }

  ghost predicate Honest(g: Guest, sh: Shell) {
    Untouched(g, sh.env) && forall i :: 0 <= i < |sh.ran| ==> Untouched(g, sh.ran[i].env)
  }

  lemma {:induction false} ExportAllIsHonest(g: Guest, sh: Shell, operands: seq<string>)
    requires Honest(g, sh)
    ensures Honest(g, ExportAll(g, sh, operands)) && ExportAll(g, sh, operands).ran == sh.ran
    decreases |operands|
  {
    if operands != [] {
      ExportAllIsHonest(g, sh, operands[..|operands| - 1]);
    }
  }

  lemma StatusIsName()
    ensures IsName("status")
  {
  }

  lemma PerformIsHonest(g: Guest, sh: Shell, words: seq<Word>)
    requires Honest(g, sh)
    ensures Honest(g, Perform(g, sh, words))
  {
    if words != [] && words[0] == Unquoted("export") {
      ExportAllIsHonest(g, sh.(last := 0), ExpandAll(words[1..], sh));
    }
    forall value ensures Honest(g, SetStatus(g, sh, value)) {
      StatusIsName();
    }
    forall argv ensures Honest(g, Call(g, sh, argv)) {
    }
  }

  lemma {:induction false} PerformAllIsHonest(g: Guest, sh: Shell, commands: seq<seq<Word>>)
    requires Honest(g, sh)
    ensures Honest(g, PerformAll(g, sh, commands))
    decreases |commands|
  {
    if commands != [] {
      PerformAllIsHonest(g, sh, commands[..|commands| - 1]);
      PerformIsHonest(g, PerformAll(g, sh, commands[..|commands| - 1]), commands[|commands| - 1]);
    }
  }

  // ---------------------------------------------------------------------------
  // The other commands of a script.

  lemma SetCommand(g: Guest, sh: Shell, words: seq<Word>)
    requires words != [] && words[0] == Unquoted("set") && !sh.over
    ensures Perform(g, sh, words) == sh.(last := 0)
  {
    assert |Literal("set")| == 3 && |Literal("printf")| == 6 && |Literal("exit")| == 4 && |Literal("cd")| == 2;
    assert |Literal("export")| == 6 && |STATUS| == 7;
  }

  lemma CdCommand(g: Guest, sh: Shell, dir: string)
    requires !sh.over
    ensures Perform(g, sh, [Unquoted("cd"), Quoted(dir)]) == ChangeDir(g, sh, dir)
  {
    var words := [Unquoted("cd"), Quoted(dir)];
    assert |Literal("cd")| == 2 && |Literal("printf")| == 6 && |Literal("exit")| == 4;
    ExpandLiteral(dir, sh);
    assert Expand(words[1], sh) == dir;
  }

  lemma PrintfCommand(g: Guest, sh: Shell, format: string, args: seq<Word>)
    requires !sh.over
    ensures Perform(g, sh, [Unquoted("printf"), Quoted(format)] + args)
            == sh.(out := sh.out + Printf(format, ExpandAll(args, sh)), last := 0)
  {
    var words := [Unquoted("printf"), Quoted(format)] + args;
    assert words[2..] == args;
    ExpandLiteral(format, sh);
  }

  lemma AssignStatus(g: Guest, sh: Shell)
    requires !sh.over
    ensures Perform(g, sh, [Word(STATUS + [Param("?")], false)]) == SetStatus(g, sh, ShellFrame.Itoa(sh.last))
  {
    var pieces := STATUS + [Param("?")];
    assert |pieces| == 8 && |Literal("printf")| == 6 && |Literal("exit")| == 4 && |Literal("cd")| == 2;
    assert |Literal("export")| == 6;
    assert STATUS <= pieces && pieces[|STATUS|..] == [Param("?")];
    ExpandLast(sh);
    assert Perform(g, sh, [Word(pieces, false)]) == SetStatus(g, sh, ExpandPieces(pieces[|STATUS|..], sh));
  }

  lemma ExpandLast(sh: Shell)
    ensures ExpandPieces([Param("?")], sh) == ShellFrame.Itoa(sh.last)
  {
    assert [Param("?")][..0] == [];
    assert "" + ShellFrame.Itoa(sh.last) == ShellFrame.Itoa(sh.last);
  }

  lemma ExitCommand(g: Guest, sh: Shell, code: Word)
    requires !sh.over
    ensures Perform(g, sh, [Unquoted("exit"), code]) == Exit(sh, Expand(code, sh))
  {
    assert |Literal("exit")| != |Literal("printf")|;
  }

  lemma ExpandStatus(sh: Shell)
    ensures ExpandAll([StatusWord()], sh) == [sh.status]
  {
    assert [Param("status")][..0] == [] && |"status"| != |"?"|;
    assert ExpandPieces([Param("status")], sh) == "" + sh.status;
    assert ExpandAll([StatusWord()], sh)[0] == sh.status;
  }

  // ---------------------------------------------------------------------------
  // Up to the output marker.

  predicate Enters(g: Guest, spec: ExecSpec) {
    Blank(spec.dir) || g.enter(g.home, spec.dir).Some?
  }

  /** Where the command runs. */
  function Dir(g: Guest, spec: ExecSpec): string
    requires Enters(g, spec)
  {
    if Blank(spec.dir) then g.home else g.enter(g.home, spec.dir).value
  }

  ghost predicate Opens(g: Guest, spec: ExecSpec, keys: seq<string>) {
    Enters(g, spec) && AllAccepted(g, keys)
  }

  lemma PreamblePerforms(g: Guest, spec: ExecSpec)
    ensures var commands := [[Unquoted("set"), Unquoted("-euo"), Unquoted("pipefail")]]
                            + if Blank(spec.dir) then [] else [[Unquoted("cd"), Quoted(spec.dir)]];
            PerformAll(g, Start(g), commands) ==
            if Enters(g, spec) then Start(g).(dir := Dir(g, spec)) else Start(g).(last := 1, over := true)
  {
    var strict := [[Unquoted("set"), Unquoted("-euo"), Unquoted("pipefail")]];
    PerformOne(g, Start(g), strict[0]);
    SetCommand(g, Start(g), strict[0]);
    if Blank(spec.dir) {
      assert strict + [] == strict;
    } else {
      var cd := [Unquoted("cd"), Quoted(spec.dir)];
      PerformConcat(g, Start(g), strict, [cd]);
      PerformOne(g, Start(g), cd);
      CdCommand(g, Start(g), spec.dir);
    }
  }

  function MarkerLine(markers: Option<Markers>): string {
    if markers.Some? then markers.value.output + "\n" else ""
  }

  /** Nothing refused, nothing printed. */
  lemma QuietOpening(g: Guest, spec: ExecSpec, keys: seq<string>)
    requires forall i :: 0 <= i < |keys| ==> keys[i] in spec.env
    ensures var sh := PerformAll(g, Start(g), OpeningCommands(spec, keys, None));
            if Opens(g, spec, keys)
            then sh == Shell("", "", 0, false, Dir(g, spec), Exported(g.env, spec.env, keys), [])
            else sh.over && sh.last == 1 && sh.out == "" && sh.ran == []
  {
    var preamble := [[Unquoted("set"), Unquoted("-euo"), Unquoted("pipefail")]]
                    + if Blank(spec.dir) then [] else [[Unquoted("cd"), Quoted(spec.dir)]];
    var exports := Exports(spec.env, keys);
    PreamblePerforms(g, spec);
    PerformConcat(g, Start(g), preamble, exports);
    assert OpeningCommands(spec, keys, None) == preamble + exports;
    if Enters(g, spec) {
      ExportsRun(g, Start(g).(dir := Dir(g, spec)), spec.env, keys);
    } else {
      NothingAfterwards(g, Start(g).(last := 1, over := true), exports);
    }
  }

  /** Nothing is printed before the command but the output marker, and that only if nothing is refused. */
  lemma OpeningPerforms(g: Guest, spec: ExecSpec, keys: seq<string>, markers: Option<Markers>)
    requires markers.Some? ==> Verbatim(markers.value.output)
    requires forall i :: 0 <= i < |keys| ==> keys[i] in spec.env
    ensures var sh := PerformAll(g, Start(g), OpeningCommands(spec, keys, markers));
            if Opens(g, spec, keys)
            then sh == Shell(MarkerLine(markers), "", 0, false, Dir(g, spec), Exported(g.env, spec.env, keys), [])
            else sh.over && sh.last == 1 && sh.out == "" && sh.ran == []
  {
    QuietOpening(g, spec, keys);
    if markers.Some? {
      var quiet, show := OpeningCommands(spec, keys, None), [Unquoted("printf"), Quoted(markers.value.output + "\\n")];
      PerformConcat(g, Start(g), quiet, [show]);
      assert OpeningCommands(spec, keys, markers) == quiet + [show];
      PerformOne(g, PerformAll(g, Start(g), quiet), show);
      if Opens(g, spec, keys) {
        MarkerPrints(g, PerformAll(g, Start(g), quiet), markers.value.output);
      }
    }
  }

  lemma MarkerPrints(g: Guest, sh: Shell, marker: string)
    requires Verbatim(marker) && !sh.over && sh.out == "" && sh.last == 0
    ensures Perform(g, sh, [Unquoted("printf"), Quoted(marker + "\\n")]) == sh.(out := marker + "\n")
  {
    var show := [Unquoted("printf"), Quoted(marker + "\\n")];
    PrintfCommand(g, sh, marker + "\\n", []);
    assert show == show + [];
    PrintfLine(marker);
    assert ExpandAll([], sh) == [];
    assert sh.out + (marker + "\n") == marker + "\n";
  }

  // ---------------------------------------------------------------------------
  // The command and its status.

  /** What is run: the command itself, in its directory; an empty command is a blank line. */
  function Runs(g: Guest, spec: ExecSpec, env: map<string, string>): seq<Invocation>
    requires Enters(g, spec)
  {
    if spec.command == [] then [] else [Invocation(spec.command, env, Dir(g, spec))]
  }

  /** What comes of it: nothing printed and success, if nothing is run. */
  function Outcome(g: Guest, spec: ExecSpec, env: map<string, string>): Ending
    requires Enters(g, spec)
  {
    if spec.command == [] then Ending("", 0, true) else g.run(Invocation(spec.command, env, Dir(g, spec)))
  }

  lemma CommandPerforms(g: Guest, sh: Shell, spec: ExecSpec)
    requires !sh.over && sh.ran == [] && Enters(g, spec) && sh.dir == Dir(g, spec)
    ensures var e := Outcome(g, spec, sh.env);
            PerformAll(g, sh, [[Unquoted("set"), Unquoted("+e")]] + if spec.command == [] then [] else [QuotedWords(spec.command)])
            == sh.(out := sh.out + e.content, last := e.code, over := !e.comesBack, ran := Runs(g, spec, sh.env))
  {
    var set1 := [[Unquoted("set"), Unquoted("+e")]];
    var run := if spec.command == [] then [] else [QuotedWords(spec.command)];
    PerformConcat(g, sh, set1, run);
    PerformOne(g, sh, set1[0]);
    SetCommand(g, sh, set1[0]);
    if spec.command != [] {
      PerformOne(g, sh.(last := 0), run[0]);
      ExpandQuoted(spec.command, sh.(last := 0));
      assert sh.ran + Runs(g, spec, sh.env) == Runs(g, spec, sh.env);
    } else {
      assert sh.out + "" == sh.out;
    }
  }

  lemma EndingPrints(g: Guest, sh: Shell, m: Markers)
    requires !sh.over && Verbatim(m.status) && "status" !in g.fixed
    ensures var after := PerformAll(g, sh, [[Word(STATUS + [Param("?")], false)]] + EpilogueCommands(Some(m)));
            after.out == sh.out + (m.status + (ShellFrame.Itoa(sh.last) + "\n")) && after.ran == sh.ran
  {
    var assign := [[Word(STATUS + [Param("?")], false)]];
    var show := [[Unquoted("printf"), Quoted(m.status + "%s\\n"), StatusWord()]];
    var quit := [[Unquoted("exit"), Unquoted("0")]];
    var sh1 := SetStatus(g, sh, ShellFrame.Itoa(sh.last));
    PerformOne(g, sh, assign[0]);
    AssignStatus(g, sh);
    PerformOne(g, sh1, show[0]);
    assert show[0] == [Unquoted("printf"), Quoted(m.status + "%s\\n")] + [StatusWord()];
    PrintfCommand(g, sh1, m.status + "%s\\n", [StatusWord()]);
    ExpandStatus(sh1);
    PrintfStatus(m.status, sh1.status);
    var sh2 := PerformAll(g, sh1, show);
    PerformOne(g, sh2, quit[0]);
    ExitCommand(g, sh2, Unquoted("0"));
    PerformConcat(g, sh, assign, show);
    PerformConcat(g, sh, assign + show, quit);
    assert assign + EpilogueCommands(Some(m)) == assign + show + quit;
  }

  /** Without markers the shell itself ends with the status. */
  lemma EndingExits(g: Guest, sh: Shell)
    requires !sh.over && 0 <= sh.last <= 255 && "status" !in g.fixed
    ensures var after := PerformAll(g, sh, [[Word(STATUS + [Param("?")], false)]] + EpilogueCommands(None));
            after.out == sh.out && after.ran == sh.ran && after.over && after.last == sh.last
  {
    var assign, quit := [[Word(STATUS + [Param("?")], false)]], [[Unquoted("exit"), StatusWord()]];
    var sh1 := SetStatus(g, sh, ShellFrame.Itoa(sh.last));
    PerformOne(g, sh, assign[0]);
    AssignStatus(g, sh);
    PerformOne(g, sh1, quit[0]);
    ExitCommand(g, sh1, StatusWord());
    ExpandStatus(sh1);
    assert Expand(StatusWord(), sh1) == ExpandAll([StatusWord()], sh1)[0];
    ExitWithStatus(sh1, sh.last);
    PerformConcat(g, sh, assign, quit);
  }

  lemma ExitWithStatus(sh: Shell, code: nat)
    requires code <= 255
    ensures Exit(sh, ShellFrame.Itoa(code)) == sh.(last := code, over := true)
  {
    SmallExit(sh, code);
    ShellFrame.AtoiUndoesItoa(code);
  }

  lemma SmallExit(sh: Shell, code: nat)
    requires code <= 255
    ensures ExitWith(sh, ShellFrame.Value(code)) == sh.(last := code, over := true)
  {
  }

  /** A script up to its command. */
  ghost function UpToCommand(spec: ExecSpec, keys: seq<string>, markers: Option<Markers>): seq<seq<Word>>
    requires forall i :: 0 <= i < |keys| ==> keys[i] in spec.env
  {
    OpeningCommands(spec, keys, markers)
    + ([[Unquoted("set"), Unquoted("+e")]] + if spec.command == [] then [] else [QuotedWords(spec.command)])
  }

  /** ... and what follows it. */
  ghost function Tail(markers: Option<Markers>): seq<seq<Word>> {
    [[Word(STATUS + [Param("?")], false)]] + EpilogueCommands(markers)
  }

  lemma CommandGroups(spec: ExecSpec, keys: seq<string>, markers: Option<Markers>)
    requires forall i :: 0 <= i < |keys| ==> keys[i] in spec.env
    ensures Commands(spec, keys, markers) == UpToCommand(spec, keys, markers) + Tail(markers)
  {
  }

  lemma FirstPartPerforms(g: Guest, spec: ExecSpec, keys: seq<string>, markers: Option<Markers>)
    requires markers.Some? ==> Verbatim(markers.value.output)
    requires forall i :: 0 <= i < |keys| ==> keys[i] in spec.env
    ensures var sh := PerformAll(g, Start(g), UpToCommand(spec, keys, markers));
            if Opens(g, spec, keys)
            then
              var env := Exported(g.env, spec.env, keys);
              var e := Outcome(g, spec, env);
              sh == Shell(MarkerLine(markers) + e.content, "", e.code, !e.comesBack, Dir(g, spec), env, Runs(g, spec, env))
            else sh.over && sh.last == 1 && sh.out == "" && sh.ran == []
  {
    var opening := OpeningCommands(spec, keys, markers);
    var run := [[Unquoted("set"), Unquoted("+e")]] + if spec.command == [] then [] else [QuotedWords(spec.command)];
    OpeningPerforms(g, spec, keys, markers);
    PerformConcat(g, Start(g), opening, run);
    var sh := PerformAll(g, Start(g), opening);
    if Opens(g, spec, keys) {
      CommandPerforms(g, sh, spec);
    } else {
      NothingAfterwards(g, sh, run);
    }
  }

  /** What a script does, by its two parts. */
  lemma ScriptPerforms(g: Guest, spec: ExecSpec, keys: seq<string>, markers: Option<Markers>)
    requires forall i :: 0 <= i < |keys| ==> keys[i] in spec.env
    ensures var sh := PerformAll(g, Start(g), UpToCommand(spec, keys, markers));
            PerformAll(g, Start(g), Commands(spec, keys, markers)) ==
            if sh.over then sh else PerformAll(g, sh, Tail(markers))
  {
    var sh := PerformAll(g, Start(g), UpToCommand(spec, keys, markers));
    CommandGroups(spec, keys, markers);
    PerformConcat(g, Start(g), UpToCommand(spec, keys, markers), Tail(markers));
    if sh.over {
      NothingAfterwards(g, sh, Tail(markers));
    }
  }

  /**
   * Behind any banner, a script whose exports are accepted and whose command comes back
   * runs that command once and prints the frame of what it printed and ended with.
   */
  lemma ScriptPrintsFrame(g: Guest, spec: ExecSpec, keys: seq<string>, m: Markers, banner: string)
    requires Verbatim(m.output) && Verbatim(m.status) && "status" !in g.fixed
    requires forall i :: 0 <= i < |keys| ==> keys[i] in spec.env
    requires Opens(g, spec, keys) && Outcome(g, spec, Exported(g.env, spec.env, keys)).comesBack
    ensures var sh := PerformAll(g, Start(g), Commands(spec, keys, Some(m)));
            var env := Exported(g.env, spec.env, keys);
            && sh.ran == Runs(g, spec, env)
            && banner + sh.out == ShellFrame.Frame(banner, m, Outcome(g, spec, env).content, Outcome(g, spec, env).code)
  {
    var e := Outcome(g, spec, Exported(g.env, spec.env, keys));
    FirstPartPerforms(g, spec, keys, Some(m));
    ScriptPerforms(g, spec, keys, Some(m));
    EndingPrints(g, PerformAll(g, Start(g), UpToCommand(spec, keys, Some(m))), m);
    FrameGroups(banner, m.output + "\n", e.content, m.status, ShellFrame.Itoa(e.code) + "\n");
  }

  /** A script without markers runs the command once, prints what it printed, and ends as it ended, whether or not it comes back. */
  lemma PlainScriptEndsWithStatus(g: Guest, spec: ExecSpec, keys: seq<string>)
    requires "status" !in g.fixed && forall i :: 0 <= i < |keys| ==> keys[i] in spec.env
    requires Opens(g, spec, keys) && 0 <= Outcome(g, spec, Exported(g.env, spec.env, keys)).code <= 255
    ensures var sh := PerformAll(g, Start(g), Commands(spec, keys, None));
            var env := Exported(g.env, spec.env, keys);
            var e := Outcome(g, spec, env);
            sh.over && sh.ran == Runs(g, spec, env) && sh.out == e.content && sh.last == e.code
  {
    var e := Outcome(g, spec, Exported(g.env, spec.env, keys));
    FirstPartPerforms(g, spec, keys, None);
    ScriptPerforms(g, spec, keys, None);
    assert "" + e.content == e.content;
    if e.comesBack {
      EndingExits(g, PerformAll(g, Start(g), UpToCommand(spec, keys, None)));
    }
  }

  lemma FrameGroups(banner: string, marker: string, content: string, status: string, last: string)
    ensures banner + (marker + content + (status + last)) == banner + marker + (content + status + last)
  {
  }

  /** A script that is refused its directory or an export runs nothing, prints nothing and fails. */
  lemma RefusedScriptIsSilent(g: Guest, spec: ExecSpec, keys: seq<string>, markers: Option<Markers>)
    requires markers.Some? ==> Verbatim(markers.value.output)
    requires forall i :: 0 <= i < |keys| ==> keys[i] in spec.env
    requires !Opens(g, spec, keys)
    ensures var sh := PerformAll(g, Start(g), Commands(spec, keys, markers));
            sh.over && sh.out == "" && sh.ran == [] && sh.last == 1
  {
    FirstPartPerforms(g, spec, keys, markers);
    ScriptPerforms(g, spec, keys, markers);
  }

  // ---------------------------------------------------------------------------
  // The script and the parser, joined.

  /** Markers that frame, and that printf prints as they are. */
  predicate Printable(m: Markers) {
    ShellFrame.Usable(m) && Verbatim(m.output) && Verbatim(m.status)
  }

  /**
   * The parser gets the command's output and status exactly if the directory can be
   * entered and every export is accepted; otherwise it finds no output marker.
   */
  lemma OutputArrivesExactly(g: Guest, spec: ExecSpec, keys: seq<string>, m: Markers, banner: string)
    requires WellFormed(spec, Some(m)) && forall i :: 0 <= i < |keys| ==> keys[i] in spec.env
    requires Printable(m) && !Contains(banner, m.output + "\n") && "status" !in g.fixed
    requires Opens(g, spec, keys) ==>
               var e := Outcome(g, spec, Exported(g.env, spec.env, keys)); e.comesBack && 0 <= e.code <= 255
    ensures var read := Run(Ready([]), ScriptText(spec, keys, Some(m)));
            var parsed := ShellFrame.ParseShellOutput(banner + PerformAll(g, Start(g), read.commands).out, m);
            if Opens(g, spec, keys)
            then var e := Outcome(g, spec, Exported(g.env, spec.env, keys)); parsed == ShellFrame.Output(e.content, e.code)
            else parsed == ShellFrame.MissingOutputMarker
  {
    ScriptRunsItsCommands(spec, keys, Some(m));
    if Opens(g, spec, keys) {
      var e := Outcome(g, spec, Exported(g.env, spec.env, keys));
      ScriptPrintsFrame(g, spec, keys, m, banner);
      ShellFrame.ParseUndoesFrame(banner, m, e.content, e.code);
    } else {
      RefusedScriptIsSilent(g, spec, keys, Some(m));
      assert banner + "" == banner;
    }
  }

  /** Output and status as they come back: through the markers, or as the shell's own. */
  ghost predicate Returned(sh: Shell, e: Ending, markers: Option<Markers>, banner: string) {
    match markers
    case Some(m) => ShellFrame.ParseShellOutput(banner + sh.out, m) == ShellFrame.Output(e.content, e.code)
    case None => sh.over && sh.out == e.content && sh.last == e.code
  }

  /** The whole of what the transport is for: this command, once, with this environment, there, and its output and status back. */
  ghost predicate Delivered(g: Guest, spec: ExecSpec, keys: seq<string>, markers: Option<Markers>, banner: string)
    requires Enters(g, spec) && forall i :: 0 <= i < |keys| ==> keys[i] in spec.env
  {
    var read := Run(Ready([]), ScriptText(spec, keys, markers));
    var sh := PerformAll(g, Start(g), read.commands);
    && read == Ready(read.commands)
    && sh.ran == Runs(g, spec, g.env + spec.env)
    && Returned(sh, Outcome(g, spec, g.env + spec.env), markers, banner)
  }

  /** What can be asked of the guest and the markers, the environment aside. */
  ghost predicate Able(g: Guest, spec: ExecSpec, markers: Option<Markers>, banner: string) {
    && Sendable(spec, markers) && Enters(g, spec) && "status" !in g.fixed
    && var e := Outcome(g, spec, g.env + spec.env);
       && 0 <= e.code <= 255
       && (markers.Some? ==> e.comesBack && Printable(markers.value) && !Contains(banner, markers.value.output + "\n"))
  }

  lemma NamesAreOrdinary(spec: ExecSpec, markers: Option<Markers>)
    requires Sendable(spec, markers) && forall k :: k in spec.env ==> IsName(k)
    ensures WellFormed(spec, markers)
  {
  }

  lemma NamesOpen(g: Guest, spec: ExecSpec, keys: seq<string>)
    requires Enters(g, spec) && forall k :: k in spec.env ==> Settable(g, k)
    requires forall i :: 0 <= i < |keys| ==> keys[i] in spec.env
    ensures Opens(g, spec, keys)
  {
    forall i | 0 <= i < |keys| ensures Accepted(g, keys[i]) {
      NamePartOfName(keys[i]);
    }
  }

  lemma SettableKeysDeliver(g: Guest, spec: ExecSpec, keys: seq<string>, markers: Option<Markers>, banner: string)
    requires Able(g, spec, markers, banner)
    requires AllKeys(spec.env, keys) && forall i :: 0 <= i < |keys| ==> keys[i] in spec.env
    requires forall k :: k in spec.env ==> Settable(g, k)
    ensures Delivered(g, spec, keys, markers, banner)
  {
    NamesAreOrdinary(spec, markers);
    NamesOpen(g, spec, keys);
    AllNamesAreExported(g.env, spec.env, keys);
    ScriptRunsItsCommands(spec, keys, markers);
    if markers.Some? {
      ScriptPrintsFrame(g, spec, keys, markers.value, banner);
      OutputArrivesExactly(g, spec, keys, markers.value, banner);
    } else {
      PlainScriptEndsWithStatus(g, spec, keys);
    }
  }

  /** However a script is read, no process it starts has a variable that cannot be set. */
  lemma OnlySettableArrives(g: Guest, commands: seq<seq<Word>>, call: Invocation, key: string)
    requires call in PerformAll(g, Start(g), commands).ran && !Settable(g, key)
    ensures key in call.env <==> key in g.env
    ensures key in call.env ==> call.env[key] == g.env[key]
  {
    PerformAllIsHonest(g, Start(g), commands);
  }

  lemma DeliveredKeysAreSettable(g: Guest, spec: ExecSpec, keys: seq<string>, markers: Option<Markers>, banner: string)
    requires Enters(g, spec) && forall i :: 0 <= i < |keys| ==> keys[i] in spec.env
    requires spec.command != [] && Delivered(g, spec, keys, markers, banner)
    requires forall k :: k in spec.env && k in g.env && g.env[k] == spec.env[k] ==> Settable(g, k)
    ensures forall k :: k in spec.env ==> Settable(g, k)
  {
    var commands := Run(Ready([]), ScriptText(spec, keys, markers)).commands;
    var call := Invocation(spec.command, g.env + spec.env, Dir(g, spec));
    assert PerformAll(g, Start(g), commands).ran == [call];
    forall k | k in spec.env ensures Settable(g, k) {
      if !Settable(g, k) {
        OnlySettableArrives(g, commands, call, k);
      }
    }
  }

  /**
   * From one end to the other, for any keys whatever: the command is run, with its
   * arguments, its directory and all of its environment, and its output and status come
   * back, exactly if every key is a name that the guest's shell lets be set.
   */
  lemma TransportDelivers(g: Guest, spec: ExecSpec, keys: seq<string>, markers: Option<Markers>, banner: string)
    requires Able(g, spec, markers, banner) && spec.command != []
    requires AllKeys(spec.env, keys) && forall i :: 0 <= i < |keys| ==> keys[i] in spec.env
    // What the guest has from the start proves nothing.
    requires forall k :: k in spec.env && k in g.env && g.env[k] == spec.env[k] ==> Settable(g, k)
    ensures Delivered(g, spec, keys, markers, banner) <==> forall k :: k in spec.env ==> Settable(g, k)
  {
    if forall k :: k in spec.env ==> Settable(g, k) {
      SettableKeysDeliver(g, spec, keys, markers, banner);
    }
    if Delivered(g, spec, keys, markers, banner) {
      DeliveredKeysAreSettable(g, spec, keys, markers, banner);
    }
  }

  /** The one variable the program ever passes (`WorkDirOverrideEnv` in internal/config/config.go). */
  const WORK_DIR_OVERRIDE := "FRRIDGE_WORKDIR_OVERRIDE"

  lemma OverrideIsName()
    ensures IsName(WORK_DIR_OVERRIDE)
  {
  }

  /** So what the program sends with it, always without markers, is delivered. */
  lemma ProgramsCommandsAreDelivered(g: Guest, command: seq<string>, dir: string, workDir: string)
    requires Able(g, ExecSpec(command, dir, map[WORK_DIR_OVERRIDE := workDir]), None, "")
    requires WORK_DIR_OVERRIDE !in g.fixed
    ensures Delivered(g, ExecSpec(command, dir, map[WORK_DIR_OVERRIDE := workDir]), [WORK_DIR_OVERRIDE], None, "")
  {
    OverrideIsName();
    SettableKeysDeliver(g, ExecSpec(command, dir, map[WORK_DIR_OVERRIDE := workDir]), [WORK_DIR_OVERRIDE], None, "");
  }

  lemma VerbatimConcat(a: string, b: string)
    requires Verbatim(a) && Verbatim(b)
    ensures Verbatim(a + b)
  {
  }

  lemma TokenIsVerbatim(token: string)
    requires forall i :: 0 <= i < |token| ==> '0' <= token[i] <= '9' || 'a' <= token[i] <= 'f'
    ensures Verbatim(token)
  {
  }

  lemma PrefixesAreVerbatim()
    ensures Verbatim(ShellFrame.OUTPUT_PREFIX) && Verbatim(ShellFrame.STATUS_PREFIX) && Verbatim("=")
  {
  }

  /** The markers made from a token are printed as they stand. */
  lemma MarkersAreVerbatim(token: string)
    requires forall i :: 0 <= i < |token| ==> '0' <= token[i] <= '9' || 'a' <= token[i] <= 'f'
    ensures Verbatim(ShellFrame.NewShellMarkers(token).output) && Verbatim(ShellFrame.NewShellMarkers(token).status)
  {
    TokenIsVerbatim(token);
    PrefixesAreVerbatim();
    VerbatimConcat(ShellFrame.OUTPUT_PREFIX, token);
    VerbatimConcat(ShellFrame.STATUS_PREFIX, token);
    VerbatimConcat(ShellFrame.STATUS_PREFIX + token, "=");
  }

  /** A command that ends the shell is noticed: there is no status to be found, unless the command printed its marker. */
  lemma EndedShellIsNoticed(g: Guest, spec: ExecSpec, keys: seq<string>, m: Markers, banner: string)
    requires forall i :: 0 <= i < |keys| ==> keys[i] in spec.env
    requires ShellFrame.Usable(m) && Verbatim(m.output) && !Contains(banner, m.output + "\n")
    requires Opens(g, spec, keys)
    requires var e := Outcome(g, spec, Exported(g.env, spec.env, keys)); !e.comesBack && !Contains(e.content, m.status)
    ensures ShellFrame.ParseShellOutput(banner + PerformAll(g, Start(g), Commands(spec, keys, Some(m))).out, m)
            == ShellFrame.MissingStatusMarker
  {
    var content := Outcome(g, spec, Exported(g.env, spec.env, keys)).content;
    EndedShellPrints(g, spec, keys, m);
    assert banner + (m.output + "\n" + content) == banner + (m.output + "\n") + content;
    ShellFrame.FirstMarker(banner, m, content);
    assert (banner + (m.output + "\n") + content)[|banner| + |m.output + "\n"|..] == content;
  }

  lemma EndedShellPrints(g: Guest, spec: ExecSpec, keys: seq<string>, m: Markers)
    requires forall i :: 0 <= i < |keys| ==> keys[i] in spec.env
    requires Verbatim(m.output) && Opens(g, spec, keys) && !Outcome(g, spec, Exported(g.env, spec.env, keys)).comesBack
    ensures PerformAll(g, Start(g), Commands(spec, keys, Some(m))).out
            == m.output + "\n" + Outcome(g, spec, Exported(g.env, spec.env, keys)).content
  {
    FirstPartPerforms(g, spec, keys, Some(m));
    ScriptPerforms(g, spec, keys, Some(m));
  }
}
