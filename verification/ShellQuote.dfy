/**
 * The guest shell transport of internal/multipass/system.go: `shellQuote`,
 * `shellJoin` and `buildShellScript`, against a token recogniser for the part of
 * the Shell Command Language of IEEE Std 1003.1-2017 that the scripts can reach
 * (sections 2.2.1-2.2.3 quoting, 2.3 token recognition, 2.6.2 plain parameters).
 */
module ShellQuote {
  import opened Strings

  // ---------------------------------------------------------------------------
  // The shell's side: one character at a time.

  /** A character of a word, or the value of a parameter. */
  datatype Piece = Ch(c: char) | Param(name: string)

  /** A word; `quoted` when some of it was quoted, so it can be neither a reserved word nor an alias. */
  datatype Word = Word(pieces: seq<Piece>, quoted: bool)

  datatype Pending = NoWord | Building(word: Word)

  datatype Mode =
    | Bare | Single | Double
    | Escape(inDouble: bool)
    | Dollar(inDouble: bool)
    | Name(inDouble: bool, name: string)
    | Comment
    | Bad   // an operator, an expansion or a byte outside the modelled grammar

  datatype Lexer = Lexer(mode: Mode, pending: Pending, command: seq<Word>, commands: seq<seq<Word>>)

  /** The recogniser between two commands. */
  function Ready(commands: seq<seq<Word>>): Lexer {
    Lexer(Bare, NoWord, [], commands)
  }

  predicate IsNameStart(c: char) {
    'a' <= c <= 'z' || 'A' <= c <= 'Z' || c == '_'
  }

  predicate IsNameChar(c: char) {
    IsNameStart(c) || '0' <= c <= '9'
  }

  /** Characters that only ever stand for themselves. */
  predicate IsOrdinary(c: char) {
    IsNameChar(c) || c == '-' || c == '+' || c == '=' || c == '.' || c == '/' || c == ',' || c == ':'
  }

  function Current(p: Pending): Word {
    if p.Building? then p.word else Word([], false)
  }

  function Push(l: Lexer, mode: Mode, piece: Piece, quoted: bool): Lexer {
    var w := Current(l.pending);
    l.(mode := mode, pending := Building(Word(w.pieces + [piece], w.quoted || quoted)))
  }

  /** Opens a quotation; even an empty one makes a word. */
  function Open(l: Lexer, mode: Mode): Lexer {
    var w := Current(l.pending);
    l.(mode := mode, pending := Building(Word(w.pieces, true)))
  }

  function EndWord(l: Lexer): Lexer {
    if l.pending.NoWord? then l else l.(pending := NoWord, command := l.command + [l.pending.word])
  }

  function EndCommand(l: Lexer): Lexer {
    var e := EndWord(l).(mode := Bare);
    if e.command == [] then e else e.(command := [], commands := e.commands + [e.command])
  }

  function Base(inDouble: bool): Mode {
    if inDouble then Double else Bare
  }

  function StepBare(l: Lexer, c: char): Lexer {
    if c == NEWLINE then EndCommand(l)
    else if c == ' ' || c == '\t' then EndWord(l)
    else if c == '\'' then Open(l, Single)
    else if c == '"' then Open(l, Double)
    else if c == '\\' then l.(mode := Escape(false))
    else if c == '$' then l.(mode := Dollar(false))
    else if c == '#' && l.pending.NoWord? then l.(mode := Comment)
    else if IsOrdinary(c) || c == '#' || c == '%' || c == '@' then Push(l, Bare, Ch(c), false)
    else l.(mode := Bad)
  }

  function StepDouble(l: Lexer, c: char): Lexer {
    if c == '"' then l.(mode := Bare)
    else if c == '\\' then l.(mode := Escape(true))
    else if c == '$' then l.(mode := Dollar(true))
    else if c == '`' then l.(mode := Bad)
    else Push(l, Double, Ch(c), true)
  }

  function StepEscape(l: Lexer, inDouble: bool, c: char): Lexer {
    if c == NEWLINE then l.(mode := Base(inDouble))
    else if !inDouble || c == '$' || c == '`' || c == '"' || c == '\\' then Push(l, Base(inDouble), Ch(c), true)
    else Push(Push(l, Double, Ch('\\'), true), Double, Ch(c), true)
  }

  function Step(l: Lexer, c: char): Lexer {
    if c == NUL then l.(mode := Bad)
    else
      match l.mode
      case Bare => StepBare(l, c)
      case Single => if c == '\'' then l.(mode := Bare) else Push(l, Single, Ch(c), true)
      case Double => StepDouble(l, c)
      case Escape(inDouble) => StepEscape(l, inDouble, c)
      case Dollar(inDouble) =>
        if c == '?' then Push(l, Base(inDouble), Param("?"), inDouble)
        else if IsNameStart(c) then l.(mode := Name(inDouble, [c]))
        else l.(mode := Bad)
      case Name(inDouble, name) =>
        if IsNameChar(c) then l.(mode := Name(inDouble, name + [c]))
        else
          var done := Push(l, Base(inDouble), Param(name), inDouble);
          if inDouble then StepDouble(done, c) else StepBare(done, c)
      case Comment => if c == NEWLINE then EndCommand(l) else l
      case Bad => l
  }

  function Run(l: Lexer, input: string): Lexer
    decreases |input|, l
  {
    if input == "" then l else Run(Step(l, input[0]), input[1..])
  }

  lemma {:induction false} RunConcat(l: Lexer, a: string, b: string)
    ensures Run(l, a + b) == Run(Run(l, a), b)
    decreases |a|
  {
    if a == "" {
      assert a + b == b;
    } else {
      assert (a + b)[0] == a[0] && (a + b)[1..] == a[1..] + b;
      RunConcat(Step(l, a[0]), a[1..], b);
    }
  }

  function Literal(s: string): (r: seq<Piece>)
    ensures |r| == |s| && forall i :: 0 <= i < |s| ==> r[i] == Ch(s[i])
  {
    seq(|s|, i requires 0 <= i < |s| => Ch(s[i]))
  }

  /** A run of ordinary characters joins the word under construction. */
  lemma {:induction false} RunOrdinary(l: Lexer, s: string)
    requires l.mode == Bare && s != ""
    requires forall i :: 0 <= i < |s| ==> IsOrdinary(s[i])
    ensures Run(l, s) ==
            l.(pending := Building(Word(Current(l.pending).pieces + Literal(s), Current(l.pending).quoted)))
    decreases |s|
  {
    OneOrdinary(l, s[0]);
    RunFirst(l, s);
    LiteralFirst(Current(l.pending).pieces, s);
    var pieces := Current(l.pending).pieces + [Ch(s[0])];
    if |s| == 1 {
      assert s[1..] == "" && pieces + Literal("") == pieces;
    } else {
      RunOrdinary(Push(l, Bare, Ch(s[0]), false), s[1..]);
    }
  }

  lemma OneOrdinary(l: Lexer, c: char)
    requires l.mode == Bare && IsOrdinary(c)
    ensures Step(l, c) == Push(l, Bare, Ch(c), false)
  {
  }

  lemma RunFirst(l: Lexer, s: string)
    requires s != ""
    ensures Run(l, s) == Run(Step(l, s[0]), s[1..])
  {
  }

  lemma LiteralFirst(pieces: seq<Piece>, s: string)
    requires s != ""
    ensures pieces + Literal(s) == pieces + [Ch(s[0])] + Literal(s[1..])
  {
  }

  // ---------------------------------------------------------------------------
  // The printer.

  /** strings.ReplaceAll(value, "'", `'"'"'`). */
  function EscapeQuotes(value: string): string {
    if value == "" then ""
    else (if value[0] == '\'' then "'\"'\"'" else [value[0]]) + EscapeQuotes(value[1..])
  }

  function Quote(value: string): string {
    "'" + EscapeQuotes(value) + "'"
  }

  function JoinQuoted(args: seq<string>): string {
    if args == [] then ""
    else if |args| == 1 then Quote(args[0])
    else Quote(args[0]) + " " + JoinQuoted(args[1..])
  }

  function QuoteAll(args: seq<string>): (r: seq<string>)
    ensures |r| == |args| && forall i :: 0 <= i < |args| ==> r[i] == Quote(args[i])
  {
    seq(|args|, i requires 0 <= i < |args| => Quote(args[i]))
  }

  lemma {:induction false} JoinQuotedIsJoin(args: seq<string>)
    ensures JoinQuoted(args) == Join(QuoteAll(args), ' ')
  {
    if |args| > 1 {
      JoinQuotedIsJoin(args[1..]);
      assert QuoteAll(args)[1..] == QuoteAll(args[1..]);
    }
  }

  predicate NulFree(s: string) {
    NUL !in s
  }

  /** The text inside the quotation, read from within it. */
  lemma {:induction false} RunEscaped(l: Lexer, value: string)
    requires l.mode == Single && l.pending.Building? && l.pending.word.quoted
    requires NulFree(value)
    ensures Run(l, EscapeQuotes(value)) ==
            l.(pending := Building(Word(l.pending.word.pieces + Literal(value), true)))
    decreases |value|
  {
    if value == "" {
      assert l.pending.word.pieces + Literal(value) == l.pending.word.pieces;
    } else {
      var next := Push(l, Single, Ch(value[0]), true);
      var head := if value[0] == '\'' then "'\"'\"'" else [value[0]];
      RunHead(l, value[0]);
      RunConcat(l, head, EscapeQuotes(value[1..]));
      RunEscaped(next, value[1..]);
      assert l.pending.word.pieces + [Ch(value[0])] + Literal(value[1..]) == l.pending.word.pieces + Literal(value);
    }
  }

  /** One character of the value: itself, or the five-character detour for a quote. */
  lemma RunHead(l: Lexer, c: char)
    requires l.mode == Single && l.pending.Building? && l.pending.word.quoted && c != NUL
    ensures Run(l, if c == '\'' then "'\"'\"'" else [c]) == Push(l, Single, Ch(c), true)
  {
    if c == '\'' {
      var t := "'\"'\"'";
      var l1 := Step(l, t[0]);
      var l2 := Step(l1, t[1]);
      var l3 := Step(l2, t[2]);
      var l4 := Step(l3, t[3]);
      var l5 := Step(l4, t[4]);
      assert t[1..][1..][1..][1..][1..] == "";
      assert Run(l, t) == Run(l1, t[1..]) == Run(l2, t[1..][1..]) == Run(l3, t[1..][1..][1..])
          == Run(l4, t[1..][1..][1..][1..]) == Run(l5, "");
    } else {
      assert [c][1..] == "";
      assert Run(l, [c]) == Run(Step(l, c), "");
    }
  }

  /** A quoted value adds exactly its own characters to the word, and quotes it. */
  lemma RunQuote(l: Lexer, value: string)
    requires l.mode == Bare && NulFree(value)
    ensures Run(l, Quote(value)) ==
            l.(pending := Building(Word(Current(l.pending).pieces + Literal(value), true)))
  {
    var started := Open(l, Single);
    var inside := "'" + EscapeQuotes(value);
    RunConcat(l, "'", EscapeQuotes(value));
    RunConcat(l, inside, "'");
    RunOne(l, '\'');
    assert Run(l, "'") == started;
    RunEscaped(started, value);
    RunOne(Run(l, inside), '\'');
  }

  lemma RunOne(l: Lexer, c: char)
    ensures Run(l, [c]) == Step(l, c)
  {
    assert [c][1..] == "";
  }

  function Quoted(value: string): Word {
    Word(Literal(value), true)
  }

  function Unquoted(value: string): Word {
    Word(Literal(value), false)
  }

  function QuotedWords(args: seq<string>): (r: seq<Word>)
    ensures |r| == |args| && forall i :: 0 <= i < |args| ==> r[i] == Quoted(args[i])
  {
    seq(|args|, i requires 0 <= i < |args| => Quoted(args[i]))
  }

  /** One quoted argument and the character that ends it. */
  lemma QuoteThen(l: Lexer, arg: string, end: char)
    requires NulFree(arg) && l.mode.Bare? && l.pending.NoWord?
    ensures Run(l, Quote(arg) + [end]) == Step(l.(pending := Building(Quoted(arg))), end)
  {
    RunQuote(l, arg);
    assert [] + Literal(arg) == Literal(arg);
    RunConcat(l, Quote(arg), [end]);
    RunOne(l.(pending := Building(Quoted(arg))), end);
  }

  /**
   * Tokenising the joined arguments yields exactly the arguments, as quoted words
   * of one command that ends at the newline behind them and nowhere earlier.
   */
  lemma {:induction false} TokenisingUndoesJoin(before: seq<Word>, commands: seq<seq<Word>>, args: seq<string>)
    requires forall i :: 0 <= i < |args| ==> NulFree(args[i])
    ensures Run(Lexer(Bare, NoWord, before, commands), JoinQuoted(args) + "\n") ==
            EndCommand(Lexer(Bare, NoWord, before + QuotedWords(args), commands))
    decreases |args|
  {
    var l := Lexer(Bare, NoWord, before, commands);
    if args == [] {
      assert JoinQuoted(args) + "\n" == "\n";
      assert before + QuotedWords(args) == before;
      RunOne(l, NEWLINE);
    } else if |args| == 1 {
      QuoteThen(l, args[0], NEWLINE);
      assert QuotedWords(args) == [Quoted(args[0])];
    } else {
      QuoteThen(l, args[0], ' ');
      JoinFirst(args, "\n");
      RunConcat(l, Quote(args[0]) + " ", JoinQuoted(args[1..]) + "\n");
      TokenisingUndoesJoin(before + [Quoted(args[0])], commands, args[1..]);
      WordsFirst(before, args);
    }
  }

  lemma JoinFirst(args: seq<string>, tail: string)
    requires |args| > 1
    ensures JoinQuoted(args) + tail == (Quote(args[0]) + " ") + (JoinQuoted(args[1..]) + tail)
  {
  }

  lemma WordsFirst(before: seq<Word>, args: seq<string>)
    requires args != []
    ensures before + QuotedWords(args) == before + [Quoted(args[0])] + QuotedWords(args[1..])
  {
  }

  method ShellJoin(args: seq<string>) returns (joined: string)
    ensures joined == JoinQuoted(args)
  {
    var quoted: seq<string> := [];
    for i := 0 to |args|
      invariant quoted == QuoteAll(args[..i])
    {
      quoted := quoted + [Quote(args[i])];
      assert args[..i + 1] == args[..i] + [args[i]];
    }
    assert args[..|args|] == args;
    JoinQuotedIsJoin(args);
    joined := Join(quoted, ' ');
  }
}
