/**
 * The script that carries one guest command (`buildShellScript` in
 * internal/multipass/system.go), and what the guest shell makes of it.
 */
module GuestScript {
  import opened Strings
  import opened Options
  import opened ShellQuote
  import opened EnvKeys
  import ShellFrame

  type Markers = ShellFrame.Markers

  predicate AllOrdinary(s: string) {
    forall i :: 0 <= i < |s| ==> IsOrdinary(s[i])
  }

  datatype ExecSpec = ExecSpec(command: seq<string>, dir: string, env: map<string, string>)

  /** Text a process could have been given. */
  ghost predicate Sendable(spec: ExecSpec, markers: Option<Markers>) {
    && NulFree(spec.dir)
    && (forall i :: 0 <= i < |spec.command| ==> NulFree(spec.command[i]))
    && (forall k :: k in spec.env ==> NulFree(spec.env[k]))
    && (markers.Some? ==> NulFree(markers.value.output) && NulFree(markers.value.status))
  }

  /** ... and, as the script writes them unquoted, environment keys of characters that stand for themselves. */
  ghost predicate WellFormed(spec: ExecSpec, markers: Option<Markers>) {
    Sendable(spec, markers) && forall k :: k in spec.env ==> AllOrdinary(k)
  }

  ghost function OpeningCommands(spec: ExecSpec, keys: seq<string>, markers: Option<Markers>): seq<seq<Word>>
    requires forall i :: 0 <= i < |keys| ==> keys[i] in spec.env
  {
    [[Unquoted("set"), Unquoted("-euo"), Unquoted("pipefail")]]
    + (if Blank(spec.dir) then [] else [[Unquoted("cd"), Quoted(spec.dir)]])
    + Exports(spec.env, keys)
    + (if markers.Some? then [[Unquoted("printf"), Quoted(markers.value.output + "\\n")]] else [])
  }

  ghost function EpilogueCommands(markers: Option<Markers>): seq<seq<Word>> {
    if markers.Some?
    then [[Unquoted("printf"), Quoted(markers.value.status + "%s\\n"), StatusWord()], [Unquoted("exit"), Unquoted("0")]]
    else [[Unquoted("exit"), StatusWord()]]
  }

  /** The commands the guest shell has to run, in order. */
  ghost function Commands(spec: ExecSpec, keys: seq<string>, markers: Option<Markers>): seq<seq<Word>>
    requires forall i :: 0 <= i < |keys| ==> keys[i] in spec.env
  {
    OpeningCommands(spec, keys, markers)
    + [[Unquoted("set"), Unquoted("+e")]]
    + (if spec.command == [] then [] else [QuotedWords(spec.command)])
    + [[Word(Literal("status=") + [Param("?")], false)]]
    + EpilogueCommands(markers)
  }

  ghost function StatusWord(): Word {
    Word([Param("status")], true)
  }

  ghost function Exports(env: map<string, string>, keys: seq<string>): (r: seq<seq<Word>>)
    requires forall i :: 0 <= i < |keys| ==> keys[i] in env
    ensures |r| == |keys|
  {
    seq(|keys|, i requires 0 <= i < |keys| => Export(keys[i], env[keys[i]]))
  }

  ghost function Export(key: string, value: string): seq<Word> {
    [Unquoted("export"), Word(Literal(key + "=") + Literal(value), true)]
  }

  // The text of the script, one line at a time.

  function ExportLine(key: string, value: string): string {
    "export " + key + "=" + Quote(value) + "\n"
  }

  function ExportLines(env: map<string, string>, keys: seq<string>): string
    requires forall i :: 0 <= i < |keys| ==> keys[i] in env
  {
    if keys == [] then "" else ExportLines(env, keys[..|keys| - 1]) + ExportLine(keys[|keys| - 1], env[keys[|keys| - 1]])
  }

  function Preamble(dir: string): string {
    if Blank(dir) then "set -euo pipefail\n" else "set -euo pipefail\n" + ("cd " + Quote(dir) + "\n")
  }

  function OutputLine(markers: Option<Markers>): string
    requires markers.Some?
  {
    "printf " + Quote(markers.value.output + "\\n") + "\n"
  }

  function Epilogue(markers: Option<Markers>): string {
    if markers.Some?
    then "printf " + Quote(markers.value.status + "%s\\n") + (" \"$status\"\n" + "exit 0\n")
    else "exit \"$status\"\n"
  }

  function Opening(spec: ExecSpec, keys: seq<string>, markers: Option<Markers>): string
    requires forall i :: 0 <= i < |keys| ==> keys[i] in spec.env
  {
    if markers.Some?
    then Preamble(spec.dir) + ExportLines(spec.env, keys) + OutputLine(markers)
    else Preamble(spec.dir) + ExportLines(spec.env, keys)
  }

  function ScriptText(spec: ExecSpec, keys: seq<string>, markers: Option<Markers>): string
    requires forall i :: 0 <= i < |keys| ==> keys[i] in spec.env
  {
    Opening(spec, keys, markers) + "set +e\n" + (JoinQuoted(spec.command) + "\n") + "status=$?\n" + Epilogue(markers)
  }

  // ---------------------------------------------------------------------------
  // The recogniser on each line.

  /** Read inside a command, `text` adds `words` to it and ends it. */
  ghost predicate EndsLine(text: string, words: seq<Word>) {
    forall before, commands {:trigger Run(Lexer(Bare, NoWord, before, commands), text)} ::
      Run(Lexer(Bare, NoWord, before, commands), text) == Ready(commands + [before + words])
  }

  /** Read between commands, `text` is exactly the commands `added`. */
  ghost predicate Emits(text: string, added: seq<seq<Word>>) {
    forall commands {:trigger Run(Ready(commands), text)} :: Run(Ready(commands), text) == Ready(commands + added)
  }

  lemma LineIsCommand(text: string, words: seq<Word>)
    requires EndsLine(text, words)
    ensures Emits(text, [words])
  {
    forall commands ensures Run(Ready(commands), text) == Ready(commands + [words]) {
      assert Run(Lexer(Bare, NoWord, [], commands), text) == Ready(commands + [[] + words]);
      assert [] + words == words;
    }
  }

  lemma EmitsConcat(a: string, x: seq<seq<Word>>, b: string, y: seq<seq<Word>>)
    requires Emits(a, x) && Emits(b, y)
    ensures Emits(a + b, x + y)
  {
    forall commands ensures Run(Ready(commands), a + b) == Ready(commands + (x + y)) {
      RunConcat(Ready(commands), a, b);
      assert commands + x + y == commands + (x + y);
    }
  }

  lemma EmitsNothing()
    ensures Emits("", [])
  {
    forall commands: seq<seq<Word>> ensures commands + [] == commands {}
  }

  /** The text is one word, whatever came before it on its line. */
  ghost predicate IsWord(text: string, word: Word) {
    forall before, commands ::
      Run(Lexer(Bare, NoWord, before, commands), text) == Lexer(Bare, Building(word), before, commands)
  }

  lemma WordEnd(text: string, word: Word)
    requires IsWord(text, word)
    ensures EndsLine(text + "\n", [word])
  {
    forall before, commands
      ensures Run(Lexer(Bare, NoWord, before, commands), text + "\n") == Ready(commands + [before + [word]])
    {
      RunConcat(Lexer(Bare, NoWord, before, commands), text, "\n");
      RunOne(Lexer(Bare, Building(word), before, commands), NEWLINE);
    }
  }

  lemma WordThen(text: string, word: Word, rest: string, words: seq<Word>)
    requires IsWord(text, word) && EndsLine(rest, words)
    ensures EndsLine(text + " " + rest, [word] + words)
  {
    forall before, commands
      ensures Run(Lexer(Bare, NoWord, before, commands), text + " " + rest) == Ready(commands + [before + ([word] + words)])
    {
      var l := Lexer(Bare, NoWord, before, commands);
      RunConcat(l, text, " ");
      RunConcat(l, text + " ", rest);
      RunOne(Lexer(Bare, Building(word), before, commands), ' ');
      assert before + [word] + words == before + ([word] + words);
    }
  }

  lemma OrdinaryWord(s: string)
    requires s != "" && AllOrdinary(s)
    ensures IsWord(s, Unquoted(s))
  {
    forall before, commands
      ensures Run(Lexer(Bare, NoWord, before, commands), s) == Lexer(Bare, Building(Unquoted(s)), before, commands)
    {
      RunOrdinary(Lexer(Bare, NoWord, before, commands), s);
      assert [] + Literal(s) == Literal(s);
    }
  }

  lemma QuotedWord(s: string)
    requires NulFree(s)
    ensures IsWord(Quote(s), Quoted(s))
  {
    forall before, commands
      ensures Run(Lexer(Bare, NoWord, before, commands), Quote(s)) == Lexer(Bare, Building(Quoted(s)), before, commands)
    {
      RunQuote(Lexer(Bare, NoWord, before, commands), s);
      assert [] + Literal(s) == Literal(s);
    }
  }

  /** name='value' */
  lemma AssignmentWord(name: string, value: string)
    requires name != "" && AllOrdinary(name) && NulFree(value)
    ensures IsWord(name + Quote(value), Word(Literal(name) + Literal(value), true))
  {
    OrdinaryWord(name);
    forall before, commands
      ensures Run(Lexer(Bare, NoWord, before, commands), name + Quote(value))
           == Lexer(Bare, Building(Word(Literal(name) + Literal(value), true)), before, commands)
    {
      RunConcat(Lexer(Bare, NoWord, before, commands), name, Quote(value));
      RunQuote(Lexer(Bare, Building(Unquoted(name)), before, commands), value);
    }
  }

  /** name$? */
  lemma LastStatusWord(name: string)
    requires name != "" && AllOrdinary(name)
    ensures IsWord(name + ['$', '?'], Word(Literal(name) + [Param("?")], false))
  {
    OrdinaryWord(name);
    forall before, commands
      ensures Run(Lexer(Bare, NoWord, before, commands), name + ['$', '?'])
           == Lexer(Bare, Building(Word(Literal(name) + [Param("?")], false)), before, commands)
    {
      var l := Lexer(Bare, Building(Unquoted(name)), before, commands);
      RunConcat(Lexer(Bare, NoWord, before, commands), name, ['$', '?']);
      RunTwo(l, '$', '?');
    }
  }

  lemma OrdinaryEnd(s: string)
    requires s != "" && AllOrdinary(s)
    ensures EndsLine(s + "\n", [Unquoted(s)])
  {
    OrdinaryWord(s);
    WordEnd(s, Unquoted(s));
  }

  lemma QuotedEnd(s: string)
    requires NulFree(s)
    ensures EndsLine(Quote(s) + "\n", [Quoted(s)])
  {
    QuotedWord(s);
    WordEnd(Quote(s), Quoted(s));
  }

  lemma OrdinaryThen(s: string, rest: string, words: seq<Word>)
    requires s != "" && AllOrdinary(s) && EndsLine(rest, words)
    ensures EndsLine(s + " " + rest, [Unquoted(s)] + words)
  {
    OrdinaryWord(s);
    WordThen(s, Unquoted(s), rest, words);
  }

  lemma QuotedThen(s: string, rest: string, words: seq<Word>)
    requires NulFree(s) && EndsLine(rest, words)
    ensures EndsLine(Quote(s) + " " + rest, [Quoted(s)] + words)
  {
    QuotedWord(s);
    WordThen(Quote(s), Quoted(s), rest, words);
  }

  lemma RunTwo(l: Lexer, a: char, b: char)
    ensures Run(l, [a, b]) == Step(Step(l, a), b)
  {
    RunConcat(l, [a], [b]);
    assert [a] + [b] == [a, b];
    RunOne(l, a);
    RunOne(Step(l, a), b);
  }

  lemma {:induction false} RunName(l: Lexer, inDouble: bool, name: string, s: string)
    requires l.mode == Name(inDouble, name) && forall i :: 0 <= i < |s| ==> IsNameChar(s[i])
    ensures Run(l, s) == l.(mode := Name(inDouble, name + s))
    decreases |s|
  {
    if s == "" {
      assert name + s == name;
    } else {
      RunName(Step(l, s[0]), inDouble, name + [s[0]], s[1..]);
      assert name + [s[0]] + s[1..] == name + s;
    }
  }

  /** "$name" */
  lemma ParameterWord(name: string)
    requires name != "" && IsNameStart(name[0]) && forall i :: 0 <= i < |name| ==> IsNameChar(name[i])
    ensures IsWord(['"', '$'] + name + ['"'], Word([Param(name)], true))
  {
    var text := ['"', '$'] + name + ['"'];
    assert text == ['"', '$'] + ([name[0]] + name[1..]) + ['"'] == ['"', '$'] + [name[0]] + name[1..] + ['"'];
    forall before, commands
      ensures Run(Lexer(Bare, NoWord, before, commands), text)
           == Lexer(Bare, Building(Word([Param(name)], true)), before, commands)
    {
      ParameterRun(Lexer(Bare, NoWord, before, commands), name);
    }
  }

  /** After an opening quotation mark and a dollar sign. */
  function Dollared(l: Lexer, mode: Mode): Lexer {
    Open(l, Double).(mode := mode)
  }

  lemma ParameterStarts(l: Lexer, c: char)
    requires l.mode == Bare && l.pending == NoWord && IsNameStart(c)
    ensures Run(l, ['"', '$'] + [c]) == Dollared(l, Name(true, [c]))
  {
    RunTwo(l, '"', '$');
    RunConcat(l, ['"', '$'], [c]);
    RunOne(Dollared(l, Dollar(true)), c);
  }

  lemma ParameterCloses(l: Lexer, name: string)
    requires l.mode == Bare && l.pending == NoWord
    ensures Run(Dollared(l, Name(true, name)), ['"']) == l.(pending := Building(Word([Param(name)], true)))
  {
    RunOne(Dollared(l, Name(true, name)), '"');
    assert [] + [Param(name)] == [Param(name)];
  }

  lemma ParameterRun(l: Lexer, name: string)
    requires l.mode == Bare && l.pending == NoWord
    requires name != "" && IsNameStart(name[0]) && forall i :: 0 <= i < |name| ==> IsNameChar(name[i])
    ensures Run(l, ['"', '$'] + [name[0]] + name[1..] + ['"']) == l.(pending := Building(Word([Param(name)], true)))
  {
    var head := ['"', '$'] + [name[0]];
    ParameterStarts(l, name[0]);
    RunConcat(l, head, name[1..]);
    RunName(Dollared(l, Name(true, [name[0]])), true, [name[0]], name[1..]);
    assert [name[0]] + name[1..] == name;
    RunConcat(l, head + name[1..], ['"']);
    ParameterCloses(l, name);
  }

  lemma StatusEnd()
    ensures EndsLine("\"$status\"\n", [StatusWord()])
  {
    ParameterWord("status");
    WordEnd(['"', '$'] + "status" + ['"'], StatusWord());
    assert ['"', '$'] + "status" + ['"'] + "\n" == "\"$status\"\n";
  }

  lemma ThreeOrdinary(a: string, b: string, c: string)
    requires a != "" && b != "" && c != "" && AllOrdinary(a) && AllOrdinary(b) && AllOrdinary(c)
    ensures Emits(a + " " + (b + " " + (c + "\n")), [[Unquoted(a), Unquoted(b), Unquoted(c)]])
  {
    OrdinaryEnd(c);
    OrdinaryThen(b, c + "\n", [Unquoted(c)]);
    OrdinaryThen(a, b + " " + (c + "\n"), [Unquoted(b)] + [Unquoted(c)]);
    LineIsCommand(a + " " + (b + " " + (c + "\n")), [Unquoted(a)] + ([Unquoted(b)] + [Unquoted(c)]));
    assert [Unquoted(a)] + ([Unquoted(b)] + [Unquoted(c)]) == [Unquoted(a), Unquoted(b), Unquoted(c)];
  }

  lemma StrictEmits()
    ensures Emits("set -euo pipefail\n", [[Unquoted("set"), Unquoted("-euo"), Unquoted("pipefail")]])
  {
    ThreeOrdinary("set", "-euo", "pipefail");
    assert "set" + " " + ("-euo" + " " + ("pipefail" + "\n")) == "set -euo pipefail\n";
  }

  lemma CdEmits(dir: string)
    requires NulFree(dir)
    ensures Emits("cd " + Quote(dir) + "\n", [[Unquoted("cd"), Quoted(dir)]])
  {
    QuotedEnd(dir);
    OrdinaryThen("cd", Quote(dir) + "\n", [Quoted(dir)]);
    LineIsCommand("cd" + " " + (Quote(dir) + "\n"), [Unquoted("cd")] + [Quoted(dir)]);
    assert [Unquoted("cd")] + [Quoted(dir)] == [Unquoted("cd"), Quoted(dir)];
    assert "cd" + " " + (Quote(dir) + "\n") == "cd " + Quote(dir) + "\n";
  }

  lemma PreambleEmits(dir: string)
    requires NulFree(dir)
    ensures Emits(Preamble(dir), [[Unquoted("set"), Unquoted("-euo"), Unquoted("pipefail")]]
                                 + if Blank(dir) then [] else [[Unquoted("cd"), Quoted(dir)]])
  {
    var strict := [[Unquoted("set"), Unquoted("-euo"), Unquoted("pipefail")]];
    StrictEmits();
    if Blank(dir) {
      assert strict + [] == strict;
    } else {
      CdEmits(dir);
      EmitsConcat("set -euo pipefail\n", strict, "cd " + Quote(dir) + "\n", [[Unquoted("cd"), Quoted(dir)]]);
    }
  }

  lemma ExportEmits(key: string, value: string)
    requires NulFree(value) && AllOrdinary(key)
    ensures Emits(ExportLine(key, value), [Export(key, value)])
  {
    AssignmentWord(key + "=", value);
    WordEnd((key + "=") + Quote(value), Word(Literal(key + "=") + Literal(value), true));
    var rest := (key + "=") + Quote(value) + "\n";
    OrdinaryThen("export", rest, [Word(Literal(key + "=") + Literal(value), true)]);
    LineIsCommand("export" + " " + rest, [Unquoted("export")] + [Word(Literal(key + "=") + Literal(value), true)]);
    assert [Unquoted("export")] + [Word(Literal(key + "=") + Literal(value), true)] == Export(key, value);
    assert "export" + " " + rest == ExportLine(key, value);
  }

  lemma {:induction false} ExportsEmit(env: map<string, string>, keys: seq<string>)
    requires forall i :: 0 <= i < |keys| ==> keys[i] in env && NulFree(env[keys[i]])
    requires forall i :: 0 <= i < |keys| ==> AllOrdinary(keys[i])
    ensures Emits(ExportLines(env, keys), Exports(env, keys))
    decreases |keys|
  {
    if keys == [] {
      EmitsNothing();
      assert Exports(env, keys) == [];
    } else {
      var init, last := keys[..|keys| - 1], keys[|keys| - 1];
      ExportsEmit(env, init);
      ExportEmits(last, env[last]);
      EmitsConcat(ExportLines(env, init), Exports(env, init), ExportLine(last, env[last]), [Export(last, env[last])]);
      assert Exports(env, init) + [Export(last, env[last])] == Exports(env, keys);
    }
  }

  lemma OutputEmits(markers: Option<Markers>)
    requires markers.Some? && NulFree(markers.value.output)
    ensures Emits(OutputLine(markers), [[Unquoted("printf"), Quoted(markers.value.output + "\\n")]])
  {
    var text := markers.value.output + "\\n";
    QuotedEnd(text);
    OrdinaryThen("printf", Quote(text) + "\n", [Quoted(text)]);
    LineIsCommand("printf" + " " + (Quote(text) + "\n"), [Unquoted("printf")] + [Quoted(text)]);
    assert [Unquoted("printf")] + [Quoted(text)] == [Unquoted("printf"), Quoted(text)];
    assert "printf" + " " + (Quote(text) + "\n") == OutputLine(markers);
  }

  lemma SetEmits()
    ensures Emits("set +e\n", [[Unquoted("set"), Unquoted("+e")]])
  {
    OrdinaryEnd("+e");
    OrdinaryThen("set", "+e" + "\n", [Unquoted("+e")]);
    LineIsCommand("set" + " " + ("+e" + "\n"), [Unquoted("set")] + [Unquoted("+e")]);
    assert [Unquoted("set")] + [Unquoted("+e")] == [Unquoted("set"), Unquoted("+e")];
    assert "set" + " " + ("+e" + "\n") == "set +e\n";
  }

  /** The command's own line: an empty list of arguments is a blank line. */
  lemma CommandEmits(args: seq<string>)
    requires forall i :: 0 <= i < |args| ==> NulFree(args[i])
    ensures Emits(JoinQuoted(args) + "\n", if args == [] then [] else [QuotedWords(args)])
  {
    forall commands
      ensures Run(Ready(commands), JoinQuoted(args) + "\n")
           == Ready(commands + if args == [] then [] else [QuotedWords(args)])
    {
      TokenisingUndoesJoin([], commands, args);
      assert [] + QuotedWords(args) == QuotedWords(args);
      assert commands + [] == commands;
    }
  }

  lemma StatusEmits()
    ensures Emits("status=$?\n", [[Word(Literal("status=") + [Param("?")], false)]])
  {
    LastStatusWord("status=");
    WordEnd("status=" + ['$', '?'], Word(Literal("status=") + [Param("?")], false));
    assert "status=" + ['$', '?'] + "\n" == "status=$?\n";
    LineIsCommand("status=$?\n", [Word(Literal("status=") + [Param("?")], false)]);
  }

  lemma FramedEpilogueEmits(text: string)
    requires NulFree(text)
    ensures Emits("printf " + Quote(text) + (" \"$status\"\n" + "exit 0\n"),
                  [[Unquoted("printf"), Quoted(text), StatusWord()], [Unquoted("exit"), Unquoted("0")]])
  {
    var status := "\"$status\"\n";
    StatusEnd();
    QuotedThen(text, status, [StatusWord()]);
    OrdinaryThen("printf", Quote(text) + " " + status, [Quoted(text)] + [StatusWord()]);
    var line := "printf" + " " + (Quote(text) + " " + status);
    LineIsCommand(line, [Unquoted("printf")] + ([Quoted(text)] + [StatusWord()]));
    assert [Unquoted("printf")] + ([Quoted(text)] + [StatusWord()]) == [Unquoted("printf"), Quoted(text), StatusWord()];
    var last := "exit" + " " + ("0" + "\n");
    ExitEmits();
    EmitsConcat(line, [[Unquoted("printf"), Quoted(text), StatusWord()]], last, [[Unquoted("exit"), Unquoted("0")]]);
    assert line + last == "printf " + Quote(text) + (" \"$status\"\n" + "exit 0\n");
  }

  lemma ExitEmits()
    ensures Emits("exit" + " " + ("0" + "\n"), [[Unquoted("exit"), Unquoted("0")]])
  {
    OrdinaryEnd("0");
    OrdinaryThen("exit", "0" + "\n", [Unquoted("0")]);
    LineIsCommand("exit" + " " + ("0" + "\n"), [Unquoted("exit")] + [Unquoted("0")]);
    assert [Unquoted("exit")] + [Unquoted("0")] == [Unquoted("exit"), Unquoted("0")];
  }

  lemma PlainEpilogueEmits()
    ensures Emits("exit \"$status\"\n", [[Unquoted("exit"), StatusWord()]])
  {
    var status := "\"$status\"\n";
    StatusEnd();
    OrdinaryThen("exit", status, [StatusWord()]);
    LineIsCommand("exit" + " " + status, [Unquoted("exit")] + [StatusWord()]);
    assert [Unquoted("exit")] + [StatusWord()] == [Unquoted("exit"), StatusWord()];
    assert "exit" + " " + status == "exit \"$status\"\n";
  }

  lemma EpilogueEmits(markers: Option<Markers>)
    requires markers.Some? ==> NulFree(markers.value.status)
    ensures Emits(Epilogue(markers), EpilogueCommands(markers))
  {
    if markers.Some? {
      FramedEpilogueEmits(markers.value.status + "%s\\n");
    } else {
      PlainEpilogueEmits();
    }
  }

  lemma OpeningEmits(spec: ExecSpec, keys: seq<string>, markers: Option<Markers>)
    requires WellFormed(spec, markers)
    requires forall i :: 0 <= i < |keys| ==> keys[i] in spec.env
    ensures Emits(Opening(spec, keys, markers), OpeningCommands(spec, keys, markers))
  {
    var c1 := [[Unquoted("set"), Unquoted("-euo"), Unquoted("pipefail")]]
              + if Blank(spec.dir) then [] else [[Unquoted("cd"), Quoted(spec.dir)]];
    var c2 := c1 + Exports(spec.env, keys);
    PreambleEmits(spec.dir);
    ExportsEmit(spec.env, keys);
    EmitsConcat(Preamble(spec.dir), c1, ExportLines(spec.env, keys), Exports(spec.env, keys));
    if markers.Some? {
      OutputEmits(markers);
      EmitsConcat(Preamble(spec.dir) + ExportLines(spec.env, keys), c2, OutputLine(markers),
                  [[Unquoted("printf"), Quoted(markers.value.output + "\\n")]]);
    } else {
      assert c2 + [] == c2;
    }
  }

  /** The guest shell runs exactly the commands meant: no argument, directory or value ends a command early. */
  lemma ScriptRunsItsCommands(spec: ExecSpec, keys: seq<string>, markers: Option<Markers>)
    requires WellFormed(spec, markers)
    requires forall i :: 0 <= i < |keys| ==> keys[i] in spec.env
    ensures Run(Ready([]), ScriptText(spec, keys, markers)) == Ready(Commands(spec, keys, markers))
  {
    var c3 := OpeningCommands(spec, keys, markers);
    var set1 := [[Unquoted("set"), Unquoted("+e")]];
    var ran := if spec.command == [] then [] else [QuotedWords(spec.command)];
    var status := [[Word(Literal("status=") + [Param("?")], false)]];
    OpeningEmits(spec, keys, markers);
    SetEmits();
    CommandEmits(spec.command);
    StatusEmits();
    EpilogueEmits(markers);
    var t3 := Opening(spec, keys, markers);
    EmitsConcat(t3, c3, "set +e\n", set1);
    EmitsConcat(t3 + "set +e\n", c3 + set1, JoinQuoted(spec.command) + "\n", ran);
    EmitsConcat(t3 + "set +e\n" + (JoinQuoted(spec.command) + "\n"), c3 + set1 + ran, "status=$?\n", status);
    EmitsConcat(t3 + "set +e\n" + (JoinQuoted(spec.command) + "\n") + "status=$?\n", c3 + set1 + ran + status,
                Epilogue(markers), EpilogueCommands(markers));
    EmitsFromTheStart(ScriptText(spec, keys, markers), Commands(spec, keys, markers));
  }

  lemma EmitsFromTheStart(text: string, added: seq<seq<Word>>)
    requires Emits(text, added)
    ensures Run(Ready([]), text) == Ready(added)
  {
    assert [] + added == added;
  }

  /** The keys of the environment, each once and in order. */
  ghost predicate AllKeys(env: map<string, string>, keys: seq<string>) {
    Sorted(keys) && Elements(keys) == env.Keys
  }

  lemma KeysAreInEnv(env: map<string, string>, keys: seq<string>)
    requires AllKeys(env, keys)
    ensures forall i :: 0 <= i < |keys| ==> keys[i] in env
  {
    forall i | 0 <= i < |keys| ensures keys[i] in env {
      assert keys[i] in Elements(keys);
    }
  }

  method ExportLinesOf(env: map<string, string>, keys: seq<string>) returns (lines: string)
    requires forall i :: 0 <= i < |keys| ==> keys[i] in env
    ensures lines == ExportLines(env, keys)
  {
    lines := "";
    for i := 0 to |keys|
      invariant lines == ExportLines(env, keys[..i])
    {
      assert keys[..i + 1][..i] == keys[..i];
      lines := lines + ExportLine(keys[i], env[keys[i]]);
    }
    assert keys[..|keys|] == keys;
  }

  /** What the builder writes is read by the guest shell as exactly the commands meant. */
  method BuildShellScript(spec: ExecSpec, markers: Option<Markers>) returns (script: string, ghost keys: seq<string>)
    ensures AllKeys(spec.env, keys) && forall i :: 0 <= i < |keys| ==> keys[i] in spec.env
    ensures script == ScriptText(spec, keys, markers)
    ensures WellFormed(spec, markers) ==> Run(Ready([]), script) == Ready(Commands(spec, keys, markers))
  {
    var sorted := SortedEnvKeys(spec.env);
    keys := sorted;
    KeysAreInEnv(spec.env, sorted);
    var builder := "set -euo pipefail\n";
    if !Blank(spec.dir) {
      builder := builder + ("cd " + Quote(spec.dir) + "\n");
    }
    var exports := ExportLinesOf(spec.env, sorted);
    builder := builder + exports;
    if markers.Some? {
      builder := builder + ("printf " + Quote(markers.value.output + "\\n") + "\n");
    }
    builder := builder + "set +e\n";
    var joined := ShellJoin(spec.command);
    builder := builder + (joined + "\n");
    builder := builder + "status=$?\n";
    script := builder + Epilogue(markers);
    if WellFormed(spec, markers) {
      ScriptRunsItsCommands(spec, sorted, markers);
    }
  }
}
