/**
 * The framing around a guest command's output (`newShellMarkers` and
 * `parseShellOutput` in internal/multipass/system.go).
 */
module ShellFrame {
  import opened Strings

  datatype Markers = Markers(output: string, status: string)

  const OUTPUT_PREFIX := "__FRRIDGE_OUTPUT_BEGIN__"
  const STATUS_PREFIX := "__FRRIDGE_EXIT_STATUS__="

  /** The markers for one random token, which is lower-case hexadecimal text. */
  function NewShellMarkers(token: string): (m: Markers)
    requires forall i :: 0 <= i < |token| ==> '0' <= token[i] <= '9' || 'a' <= token[i] <= 'f'
    ensures Usable(m)
  {
    OutputPrefixIsOneLine();
    Markers(OUTPUT_PREFIX + token, STATUS_PREFIX + token + "=")
  }

  lemma OutputPrefixIsOneLine()
    ensures NEWLINE !in OUTPUT_PREFIX
  {
  }

  /** All the framing relies on: the output marker is one line, the status marker ends in "=". */
  predicate Usable(m: Markers) {
    && NEWLINE !in m.output
    && m.status != "" && m.status[|m.status| - 1] == '='
  }

  // ---------------------------------------------------------------------------
  // strings.Index and strings.LastIndex; -1 when there is no occurrence.

  function IndexFrom(s: string, sub: string, i: nat): (r: int)
    requires i <= |s| + 1
    ensures r == -1 || (i <= r && OccursAt(s, sub, r))
    ensures forall j :: i <= j && OccursAt(s, sub, j) ==> r != -1 && r <= j
    decreases |s| + 1 - i
  {
    if i + |sub| > |s| then -1 else if OccursAt(s, sub, i) then i else IndexFrom(s, sub, i + 1)
  }

  function LastIndexUpTo(s: string, sub: string, i: int): (r: int)
    ensures r == -1 || (r <= i && OccursAt(s, sub, r))
    ensures forall j :: j <= i && OccursAt(s, sub, j) ==> j <= r
    decreases i + 1
  {
    if i < 0 then -1 else if OccursAt(s, sub, i) then i else LastIndexUpTo(s, sub, i - 1)
  }

  // ---------------------------------------------------------------------------
  // strconv.Itoa and strconv.Atoi.

  function Digit(d: int): char
    requires 0 <= d < 10
  {
    '0' + d as char
  }

  function Itoa(n: int): string
    decreases if n < 0 then 1 - n else n
  {
    if n < 0 then "-" + Itoa(-n)
    else if n < 10 then [Digit(n)]
    else Itoa(n / 10) + [Digit(n % 10)]
  }

  predicate IsDigits(s: string) {
    s != "" && forall i :: 0 <= i < |s| ==> '0' <= s[i] <= '9'
  }

  function DigitsValue(s: string): nat
    requires forall i :: 0 <= i < |s| ==> '0' <= s[i] <= '9'
  {
    if s == "" then 0 else 10 * DigitsValue(s[..|s| - 1]) + (s[|s| - 1] as int - '0' as int)
  }

  const MAX_INT := 0x7FFF_FFFF_FFFF_FFFF

  datatype Number = NaN | Value(n: int)

  /** A sign, then decimal digits; a value outside 64 bits is an error. */
  function Atoi(s: string): Number {
    var negative := s != "" && s[0] == '-';
    var digits := if s != "" && (s[0] == '-' || s[0] == '+') then s[1..] else s;
    if !IsDigits(digits) then NaN
    else
      var n: int := DigitsValue(digits);
      if negative then (if n <= MAX_INT + 1 then Value(-n) else NaN)
      else if n <= MAX_INT then Value(n) else NaN
  }

  lemma {:induction false} ItoaDigits(n: nat)
    ensures IsDigits(Itoa(n)) && DigitsValue(Itoa(n)) == n
    decreases n
  {
    if n < 10 {
      assert Itoa(n)[..0] == "";
    } else {
      ItoaDigits(n / 10);
      var s := Itoa(n);
      assert s[..|s| - 1] == Itoa(n / 10);
    }
  }

  lemma AtoiUndoesItoa(n: nat)
    requires n <= MAX_INT
    ensures Atoi(Itoa(n)) == Value(n)
  {
    ItoaDigits(n);
  }

  // ---------------------------------------------------------------------------
  // The parser.

  datatype Parsed =
    | Output(content: string, code: int)
    | MissingOutputMarker
    | MissingStatusMarker
    | TruncatedStatus
    | InvalidStatus

  function ParseShellOutput(output: string, m: Markers): Parsed {
    var marker := m.output + "\n";
    var cut := IndexFrom(output, marker, 0);
    if cut == -1 then MissingOutputMarker else ParseAfterMarker(output[cut + |marker|..], m)
  }

  function ParseAfterMarker(rest: string, m: Markers): Parsed {
    var index := LastIndexUpTo(rest, m.status, |rest|);
    if index == -1 then MissingStatusMarker
    else
      var status := rest[index + |m.status|..];
      if status == "" || status[|status| - 1] != NEWLINE then TruncatedStatus
      else
        var text := status[..|status| - 1];
        match Atoi(text)
        case NaN => InvalidStatus
        case Value(code) =>
          if code < 0 || code > 255 || text != Itoa(code) then InvalidStatus else Output(rest[..index], code)
  }

  /** What the script makes the guest print after `banner`. */
  function Frame(banner: string, m: Markers, content: string, code: int): string {
    banner + (m.output + "\n") + (content + m.status + (Itoa(code) + "\n"))
  }

  /** No marker line begins inside a banner that holds none: it could only end on a newline the marker lacks. */
  lemma NotInBanner(banner: string, m: Markers, tail: string, i: nat)
    requires Usable(m) && !Contains(banner, m.output + "\n") && i < |banner|
    ensures !OccursAt(banner + (m.output + "\n") + tail, m.output + "\n", i)
  {
    var marker := m.output + "\n";
    var s := banner + marker + tail;
    if i + |marker| <= |banner| {
      assert s[i..i + |marker|] == banner[i..i + |marker|];
      assert !OccursAt(banner, marker, i);
    } else {
      var last := i + |marker| - 1;
      assert m.output[last - |banner|] in m.output;
      assert s[last] == m.output[last - |banner|] != NEWLINE == marker[|marker| - 1];
      assert i + |marker| <= |s| && s[i..i + |marker|][|marker| - 1] == s[last];
    }
  }

  lemma FirstMarker(banner: string, m: Markers, tail: string)
    requires Usable(m) && !Contains(banner, m.output + "\n")
    ensures IndexFrom(banner + (m.output + "\n") + tail, m.output + "\n", 0) == |banner|
  {
    var s := banner + (m.output + "\n") + tail;
    assert OccursAt(s, m.output + "\n", |banner|);
    var i := IndexFrom(s, m.output + "\n", 0);
    if 0 <= i < |banner| {
      NotInBanner(banner, m, tail, i);
    }
  }

  /** No status marker begins after the frame's own: it could only end on a digit or the newline. */
  lemma NotInStatus(content: string, m: Markers, code: nat, i: nat)
    requires Usable(m) && i > |content|
    ensures !OccursAt(content + m.status + (Itoa(code) + "\n"), m.status, i)
  {
    var digits := Itoa(code) + "\n";
    var rest := content + m.status + digits;
    ItoaDigits(code);
    if i + |m.status| <= |rest| {
      var last := i + |m.status| - 1;
      assert rest[last] == digits[last - |content| - |m.status|];
      assert rest[i..i + |m.status|][|m.status| - 1] == rest[last];
    }
  }

  lemma LastMarker(content: string, m: Markers, code: nat)
    requires Usable(m)
    ensures var rest := content + m.status + (Itoa(code) + "\n");
            LastIndexUpTo(rest, m.status, |rest|) == |content|
  {
    var rest := content + m.status + (Itoa(code) + "\n");
    assert OccursAt(rest, m.status, |content|);
    var i := LastIndexUpTo(rest, m.status, |rest|);
    if i > |content| {
      NotInStatus(content, m, code, i);
    }
  }

  lemma ParseUndoesRest(m: Markers, content: string, code: int)
    requires Usable(m) && 0 <= code <= 255
    ensures ParseAfterMarker(content + m.status + (Itoa(code) + "\n"), m) == Output(content, code)
  {
    var rest := content + m.status + (Itoa(code) + "\n");
    LastMarker(content, m, code);
    assert rest[..|content|] == content;
    assert rest[|content| + |m.status|..] == Itoa(code) + "\n";
    assert (Itoa(code) + "\n")[..|Itoa(code)|] == Itoa(code);
    AtoiUndoesItoa(code);
  }

  /** Parsing a frame gives back its content and code, for any content at all. */
  lemma ParseUndoesFrame(banner: string, m: Markers, content: string, code: int)
    requires Usable(m) && !Contains(banner, m.output + "\n") && 0 <= code <= 255
    ensures ParseShellOutput(Frame(banner, m, content, code), m) == Output(content, code)
  {
    var rest := content + m.status + (Itoa(code) + "\n");
    FirstMarker(banner, m, rest);
    assert Frame(banner, m, content, code)[|banner| + |m.output + "\n"|..] == rest;
    ParseUndoesRest(m, content, code);
  }

  lemma OccursInPrefix(s: string, sub: string, cut: nat, i: int)
    requires cut <= |s|
    ensures OccursAt(s[..cut], sub, i) ==> OccursAt(s, sub, i) && i + |sub| <= cut
  {
    if OccursAt(s[..cut], sub, i) {
      assert s[..cut][i..i + |sub|] == s[i..i + |sub|];
    }
  }

  /** What precedes the first marker line holds no marker line. */
  lemma BannerIsClean(s: string, sub: string)
    requires sub != "" && IndexFrom(s, sub, 0) != -1
    ensures !Contains(s[..IndexFrom(s, sub, 0)], sub)
  {
    var cut := IndexFrom(s, sub, 0);
    forall i: int ensures !OccursAt(s[..cut], sub, i) {
      OccursInPrefix(s, sub, cut, i);
    }
  }

  lemma ParsedAfterMarker(rest: string, m: Markers)
    requires Usable(m) && ParseAfterMarker(rest, m).Output?
    ensures var p := ParseAfterMarker(rest, m);
            0 <= p.code <= 255 && rest == p.content + m.status + (Itoa(p.code) + "\n")
  {
    var index := LastIndexUpTo(rest, m.status, |rest|);
    SplitAround(rest, m.status, index);
    LastIsNewline(rest[index + |m.status|..]);
  }

  /** Whatever parses is a frame: nothing else is ever accepted. */
  lemma ParsedIsFrame(s: string, m: Markers)
    requires Usable(m) && ParseShellOutput(s, m).Output?
    ensures var p := ParseShellOutput(s, m);
            var banner := s[..IndexFrom(s, m.output + "\n", 0)];
            && 0 <= p.code <= 255
            && !Contains(banner, m.output + "\n")
            && s == Frame(banner, m, p.content, p.code)
  {
    var marker := m.output + "\n";
    var cut := IndexFrom(s, marker, 0);
    BannerIsClean(s, marker);
    SplitAround(s, marker, cut);
    ParsedAfterMarker(s[cut + |marker|..], m);
  }

  lemma LastIsNewline(s: string)
    requires s != "" && s[|s| - 1] == NEWLINE
    ensures s == s[..|s| - 1] + "\n"
  {
  }

  lemma SplitAround(s: string, sub: string, i: int)
    requires OccursAt(s, sub, i)
    ensures s == s[..i] + sub + s[i + |sub|..]
  {
  }

  /** The parser accepts exactly the framed outputs, and with exactly what they frame. */
  lemma ParserAcceptsExactlyFrames(s: string, m: Markers, content: string, code: int)
    requires Usable(m)
    ensures ParseShellOutput(s, m) == Output(content, code) <==>
            && 0 <= code <= 255
            && exists banner :: !Contains(banner, m.output + "\n") && s == Frame(banner, m, content, code)
  {
    if ParseShellOutput(s, m) == Output(content, code) {
      ParsedIsFrame(s, m);
    }
    if banner :| 0 <= code <= 255 && !Contains(banner, m.output + "\n") && s == Frame(banner, m, content, code) {
      ParseUndoesFrame(banner, m, content, code);
    }
  }
}
