/** The configuration file reader of `late-cli/src/config.rs`: a flat subset of TOML, one
    `key = value` per line. */
module TomlConfig {
  import opened Sequences
  import opened Wrappers
  import opened Text

  datatype ConfigError =
    | SectionsUnsupported
    | ExpectedKeyValue
    | UnterminatedString
    | InvalidEscape
    | UnsupportedEscape(escape: char)
    | BlankString
    | InvalidPort
    | BlankUser
    | BlankDevice
    | InvalidMode
    | ExpectedBool
    | UnsupportedKey

  datatype Outcome<T> = Ok(value: T) | Err(error: ConfigError)

  datatype SshMode = Subprocess | OpenSsh | Native

  datatype Layer = Layer(
    sshTarget: Option<string>,
    sshPort: Option<nat>,
    sshUser: Option<string>,
    keyFile: Option<string>,
    sshMode: Option<SshMode>,
    audioBaseUrl: Option<string>,
    audioOutputDevice: Option<string>,
    apiBaseUrl: Option<string>,
    verbose: Option<bool>)

  const DEFAULT := Layer(None, None, None, None, None, None, None, None, None)

  // --------------------------------------------------------------- lines

  function NewlineAt(s: string): (i: nat)
    ensures i <= |s| && '\n' !in s[..i] && (i < |s| ==> s[i] == '\n')
  {
    if s == "" || s[0] == '\n' then 0
    else
      var i := 1 + NewlineAt(s[1..]);
      assert s[..i] == [s[0]] + s[1..][..i - 1];
      i
  }

  function WithoutReturn(line: string): string {
    if line != "" && line[|line| - 1] == '\r' then line[..|line| - 1] else line
  }

  /** str::lines(): a line ends with a line feed, and a carriage return before it goes too. */
  function Lines(text: string): seq<string>
    decreases |text|
  {
    if text == "" then []
    else
      var n := NewlineAt(text);
      if n == |text| then [text] else [WithoutReturn(text[..n])] + Lines(text[n + 1..])
  }

  // --------------------------------------------------------------- comments

  /** Where the comment of a line begins, read on from a position inside or outside of a
      string, after an escape or not; the length of the line when there is none. */
  function CommentAt(line: string, inString: bool, escaped: bool): (i: nat)
    ensures i <= |line|
  {
    if line == "" then 0
    else if escaped then 1 + CommentAt(line[1..], inString, false)
    else if line[0] == '\\' && inString then 1 + CommentAt(line[1..], inString, true)
    else if line[0] == '"' then 1 + CommentAt(line[1..], !inString, false)
    else if line[0] == '#' && !inString then 0
    else 1 + CommentAt(line[1..], inString, false)
  }

  method StripTomlComment(line: string) returns (stripped: string)
    ensures stripped == line[..CommentAt(line, false, false)]
  {
    var inString, escaped := false, false;
    for index := 0 to |line|
      invariant CommentAt(line, false, false) == index + CommentAt(line[index..], inString, escaped)
    {
      var ch := line[index];
      assert line[index..][1..] == line[index + 1..];
      if escaped {
        escaped := false;
        continue;
      }
      if ch == '\\' && inString {
        escaped := true;
      } else if ch == '"' {
        inString := !inString;
      } else if ch == '#' && !inString {
        return line[..index];
      }
    }
    return line;
  }

  // --------------------------------------------------------------- strings

  function Prepend(c: char, rest: Outcome<string>): Outcome<string> {
    if rest.Ok? then Ok([c] + rest.value) else rest
  }

  function EscapeValue(c: char): Option<char> {
    match c
    case '"' => Some('"')
    case '\\' => Some('\\')
    case 'n' => Some('\n')
    case 'r' => Some('\r')
    case 't' => Some('\t')
    case _ => None
  }

  function Unescaped(inner: string): Outcome<string> {
    if inner == "" then Ok("")
    else if inner[0] != '\\' then Prepend(inner[0], Unescaped(inner[1..]))
    else if |inner| == 1 then Err(InvalidEscape)
    else if EscapeValue(inner[1]).None? then Err(UnsupportedEscape(inner[1]))
    else Prepend(EscapeValue(inner[1]).value, Unescaped(inner[2..]))
  }

  function StringValue(text: string): Outcome<string> {
    var raw := Trim(text);
    if raw == "" then Err(BlankString)
    else if raw[0] != '"' then Ok(raw)
    else if raw[|raw| - 1] != '"' || |raw| < 2 then Err(UnterminatedString)
    else Unescaped(raw[1..|raw| - 1])
  }

  method ParseTomlString(text: string) returns (result: Outcome<string>)
    ensures result == StringValue(text)
  {
    var raw := Trim(text);
    if raw != "" && raw[0] == '"' {
      if raw[|raw| - 1] != '"' || |raw| < 2 {
        return Err(UnterminatedString);
      }
      var chars := raw[1..|raw| - 1];
      ghost var inner := chars;
      var out := "";
      JoinedNothing(Unescaped(chars));
      while chars != ""
        invariant Unescaped(inner) == Joined(out, Unescaped(chars))
        decreases |chars|
      {
        var ch := chars[0];
        if ch != '\\' {
          JoinedStep(out, ch, Unescaped(chars[1..]));
          out := out + [ch];
          chars := chars[1..];
          continue;
        }
        if |chars| == 1 {
          return Err(InvalidEscape);
        }
        var value := EscapeValue(chars[1]);
        if value.None? {
          return Err(UnsupportedEscape(chars[1]));
        }
        JoinedStep(out, value.value, Unescaped(chars[2..]));
        out := out + [value.value];
        chars := chars[2..];
      }
      assert out + "" == out;
      return Ok(out);
    }
    if raw == "" {
      return Err(BlankString);
    }
    return Ok(raw);
  }

  function Joined(out: string, rest: Outcome<string>): Outcome<string> {
    if rest.Ok? then Ok(out + rest.value) else rest
  }

  lemma JoinedStep(out: string, c: char, rest: Outcome<string>)
    ensures Joined(out, Prepend(c, rest)) == Joined(out + [c], rest)
  {
    if rest.Ok? {
      assert out + ([c] + rest.value) == out + [c] + rest.value;
    }
  }

  lemma JoinedNothing(rest: Outcome<string>)
    ensures Joined("", rest) == rest
  {
    if rest.Ok? {
      assert "" + rest.value == rest.value;
    }
  }

  // --------------------------------------------------------------- assignments

  datatype Key = SshTarget | SshPort | SshUser | SshModeKey | KeyFile | AudioBaseUrl | ApiBaseUrl | AudioOutputDevice | Verbose

  function Name(key: Key): string {
    match key
    case SshTarget => "ssh-target"
    case SshPort => "ssh-port"
    case SshUser => "ssh-user"
    case SshModeKey => "ssh-mode"
    case KeyFile => "key"
    case AudioBaseUrl => "audio-base-url"
    case ApiBaseUrl => "api-base-url"
    case AudioOutputDevice => "audio-output-device"
    case Verbose => "verbose"
  }

  function KeyNamed(name: string): Option<Key> {
    if name == Name(SshTarget) then Some(SshTarget)
    else if name == Name(SshPort) then Some(SshPort)
    else if name == Name(SshUser) then Some(SshUser)
    else if name == Name(SshModeKey) then Some(SshModeKey)
    else if name == Name(KeyFile) then Some(KeyFile)
    else if name == Name(AudioBaseUrl) then Some(AudioBaseUrl)
    else if name == Name(ApiBaseUrl) then Some(ApiBaseUrl)
    else if name == Name(AudioOutputDevice) then Some(AudioOutputDevice)
    else if name == Name(Verbose) then Some(Verbose)
    else None
  }

  function ModeNamed(name: string): Option<SshMode> {
    if name == "old" || name == "subprocess" then Some(Subprocess)
    else if name == "openssh" then Some(OpenSsh)
    else if name == "native" then Some(Native)
    else None
  }

  predicate TakesString(key: Key) { !key.SshPort? && !key.Verbose? }

  /** Assigning a string to a key that takes one. */
  function AssignString(layer: Layer, key: Key, value: string): Outcome<Layer>
    requires TakesString(key)
  {
    match key
    case SshTarget => Ok(layer.(sshTarget := Some(value)))
    case SshUser => if Trim(value) == "" then Err(BlankUser) else Ok(layer.(sshUser := Some(value)))
    case SshModeKey =>
      if ModeNamed(value).None? then Err(InvalidMode) else Ok(layer.(sshMode := ModeNamed(value)))
    case KeyFile => Ok(layer.(keyFile := Some(value)))
    case AudioBaseUrl => Ok(layer.(audioBaseUrl := Some(value)))
    case ApiBaseUrl => Ok(layer.(apiBaseUrl := Some(value)))
    case AudioOutputDevice =>
      if Trim(value) == "" then Err(BlankDevice) else Ok(layer.(audioOutputDevice := Some(value)))
  }

  function Assign(layer: Layer, key: Key, raw: string): Outcome<Layer> {
    match key
    case SshPort => if ParseU16(raw).None? then Err(InvalidPort) else Ok(layer.(sshPort := ParseU16(raw)))
    case Verbose =>
      var text := Trim(raw);
      if text == "true" then Ok(layer.(verbose := Some(true)))
      else if text == "false" then Ok(layer.(verbose := Some(false)))
      else Err(ExpectedBool)
    case _ =>
      var value := StringValue(raw);
      if value.Err? then Err(value.error) else AssignString(layer, key, value.value)
  }

  function EqualsAt(s: string): (i: nat)
    ensures i <= |s| && '=' !in s[..i] && (i < |s| ==> s[i] == '=')
  {
    if s == "" || s[0] == '=' then 0
    else
      var i := 1 + EqualsAt(s[1..]);
      assert s[..i] == [s[0]] + s[1..][..i - 1];
      i
  }

  /** What one line does. */
  datatype Statement = Nothing | Wrong(error: ConfigError) | Pair(key: string, raw: string)

  function StatementOf(line: string): Statement {
    if line == "" then Nothing
    else if line[0] == '[' then Wrong(SectionsUnsupported)
    else if EqualsAt(line) == |line| then Wrong(ExpectedKeyValue)
    else Pair(Trim(line[..EqualsAt(line)]), Trim(line[EqualsAt(line) + 1..]))
  }

  function LineText(raw: string): string { Trim(raw[..CommentAt(raw, false, false)]) }

  function Applied(layer: Layer, statement: Statement): Outcome<Layer> {
    match statement
    case Nothing => Ok(layer)
    case Wrong(error) => Err(error)
    case Pair(key, raw) => if KeyNamed(key).None? then Err(UnsupportedKey) else Assign(layer, KeyNamed(key).value, raw)
  }

  datatype ParseResult = Parsed(layer: Layer) | Failed(line: nat, error: ConfigError)

  /** The lines from number `i` on, counted from zero. */
  function ParsedFrom(lines: seq<string>, i: nat, layer: Layer): ParseResult
    requires i <= |lines|
    decreases |lines| - i
  {
    if i == |lines| then Parsed(layer)
    else
      match Applied(layer, StatementOf(LineText(lines[i])))
      case Err(error) => Failed(i + 1, error)
      case Ok(next) => ParsedFrom(lines, i + 1, next)
  }

  /** The body of the line loop. */
  method ApplyLine(layer: Layer, raw: string) returns (outcome: Outcome<Layer>)
    ensures outcome == Applied(layer, StatementOf(LineText(raw)))
  {
    var uncommented := StripTomlComment(raw);
    var line := Trim(uncommented);
    if line == "" {
      return Ok(layer);
    }
    if line[0] == '[' {
      return Err(SectionsUnsupported);
    }
    var equals := EqualsAt(line);
    if equals == |line| {
      return Err(ExpectedKeyValue);
    }
    var key := KeyNamed(Trim(line[..equals]));
    if key.None? {
      return Err(UnsupportedKey);
    }
    return Assign(layer, key.value, Trim(line[equals + 1..]));
  }

  method ParseConfigLayer(text: string) returns (result: ParseResult)
    ensures result == ParsedFrom(Lines(text), 0, DEFAULT)
  {
    var layer := DEFAULT;
    var lines := Lines(text);
    for lineIndex := 0 to |lines|
      invariant ParsedFrom(lines, 0, DEFAULT) == ParsedFrom(lines, lineIndex, layer)
    {
      var outcome := ApplyLine(layer, lines[lineIndex]);
      match outcome
      case Err(error) => return Failed(lineIndex + 1, error);
      case Ok(next) => layer := next;
    }
    return Parsed(layer);
  }

  // --------------------------------------------------------------- rendering

  function EscapeOf(c: char): string {
    match c
    case '"' => "\\\""
    case '\\' => "\\\\"
    case '\n' => "\\n"
    case '\r' => "\\r"
    case '\t' => "\\t"
    case _ => [c]
  }

  function Escaped(value: string): string { if value == "" then "" else EscapeOf(value[0]) + Escaped(value[1..]) }

  function Quoted(value: string): string { "\"" + Escaped(value) + "\"" }

  predicate IsSpaces(s: string) { forall i :: 0 <= i < |s| ==> s[i] == ' ' || s[i] == '\t' }

  predicate IsComment(s: string) { (s != "" ==> s[0] == '#') && '\n' !in s }

  /** One assignment as a line: white space wherever TOML allows it, and a comment. */
  datatype Rendering = Rendering(before: string, left: string, right: string, after: string, comment: string) {
    predicate Valid() {
      IsSpaces(before) && IsSpaces(left) && IsSpaces(right) && IsSpaces(after) && IsComment(comment)
    }
  }

  function Code(r: Rendering, key: string, shown: string): string {
    r.before + (key + r.left) + ("=" + (r.right + shown + r.after))
  }

  function Rendered(r: Rendering, key: string, shown: string): string { Code(r, key, shown) + r.comment }

  predicate IsUnmarked(s: string) { forall i :: 0 <= i < |s| ==> s[i] != '"' && s[i] != '#' }

  /** A value that can be written without quotes. */
  predicate IsBare(value: string) { value != "" && Tight(value) && IsUnmarked(value) && '\n' !in value }

  function Shown(value: string, bare: bool): string { if bare then value else Quoted(value) }

  predicate IsPlainKey(key: string) {
    key != "" && forall i :: 0 <= i < |key| ==> 'a' <= key[i] <= 'z' || key[i] == '-'
  }

  lemma NamesArePlain(key: Key)
    ensures IsPlainKey(Name(key)) && KeyNamed(Name(key)) == Some(key)
  {
  }

  // --------------------------------------------------------------- escapes round trip

  lemma {:induction false} UnescapeEscaped(value: string)
    ensures Unescaped(Escaped(value)) == Ok(value)
    decreases |value|
  {
    if value != "" {
      UnescapeEscaped(value[1..]);
      assert [value[0]] + value[1..] == value;
    }
  }

  lemma QuotedIsParsed(value: string)
    ensures StringValue(Quoted(value)) == Ok(value)
  {
    var q := Quoted(value);
    TrimTight(q);
    assert q[1..|q| - 1] == Escaped(value);
    UnescapeEscaped(value);
  }

  // --------------------------------------------------------------- the comment scanner

  lemma {:induction false} ScanUnmarked(s: string, rest: string)
    requires IsUnmarked(s)
    ensures CommentAt(s + rest, false, false) == |s| + CommentAt(rest, false, false)
    decreases |s|
  {
    if s == "" {
      assert s + rest == rest;
    } else {
      assert (s + rest)[1..] == s[1..] + rest;
      ScanUnmarked(s[1..], rest);
    }
  }

  lemma ScanEscape(c: char, rest: string)
    ensures CommentAt(EscapeOf(c) + rest, true, false) == |EscapeOf(c)| + CommentAt(rest, true, false)
  {
    var s := EscapeOf(c) + rest;
    if |EscapeOf(c)| == 1 {
      assert s[1..] == rest;
    } else {
      assert s[1..][1..] == rest;
    }
  }

  lemma {:induction false} ScanEscaped(value: string, rest: string)
    ensures CommentAt(Escaped(value) + rest, true, false) == |Escaped(value)| + CommentAt(rest, true, false)
    decreases |value|
  {
    if value == "" {
      assert Escaped(value) + rest == rest;
    } else {
      assert Escaped(value) + rest == EscapeOf(value[0]) + (Escaped(value[1..]) + rest);
      ScanEscape(value[0], Escaped(value[1..]) + rest);
      ScanEscaped(value[1..], rest);
    }
  }

  lemma ScanQuoted(value: string, rest: string)
    ensures CommentAt(Quoted(value) + rest, false, false) == |Quoted(value)| + CommentAt(rest, false, false)
  {
    var s := Quoted(value) + rest;
    assert s[1..] == Escaped(value) + ("\"" + rest);
    ScanEscaped(value, "\"" + rest);
    assert ("\"" + rest)[1..] == rest;
  }

  lemma ScanShown(value: string, bare: bool, rest: string)
    requires bare ==> IsBare(value)
    ensures var shown := Shown(value, bare); CommentAt(shown + rest, false, false) == |shown| + CommentAt(rest, false, false)
  {
    if bare {
      ScanUnmarked(value, rest);
    } else {
      ScanQuoted(value, rest);
    }
  }

  /** Only the comment is cut off, whatever the value contains. */
  lemma CommentIsCut(r: Rendering, key: string, value: string, bare: bool)
    requires r.Valid() && IsPlainKey(key) && (bare ==> IsBare(value))
    ensures CommentAt(Rendered(r, key, Shown(value, bare)), false, false) == |Code(r, key, Shown(value, bare))|
  {
    var shown := Shown(value, bare);
    HeadAndTail(r, key, shown);
    var head := r.before + (key + r.left) + "=" + r.right;
    ScanUnmarked(head, shown + (r.after + r.comment));
    ScanShown(value, bare, r.after + r.comment);
    ScanUnmarked(r.after, r.comment);
  }

  lemma HeadAndTail(r: Rendering, key: string, shown: string)
    ensures Rendered(r, key, shown) == (r.before + (key + r.left) + "=" + r.right) + (shown + (r.after + r.comment))
    ensures |Code(r, key, shown)| == |r.before + (key + r.left) + "=" + r.right| + |shown| + |r.after|
  {
  }

  // --------------------------------------------------------------- one line round trip

  lemma {:induction false} EqualsIsFirst(s: string, i: nat)
    requires i < |s| && s[i] == '=' && forall k :: 0 <= k < i ==> s[k] != '='
    ensures EqualsAt(s) == i
    decreases i
  {
    if i > 0 {
      EqualsIsFirst(s[1..], i - 1);
    }
  }

  lemma SpacesAreBlank(s: string)
    requires IsSpaces(s)
    ensures Blank(s)
  {
  }

  lemma CodeIsTrimmed(r: Rendering, key: string, shown: string)
    requires r.Valid() && IsPlainKey(key) && shown != "" && Tight(shown)
    ensures Trim(Code(r, key, shown)) == (key + r.left) + "=" + (r.right + shown)
  {
    var core := (key + r.left) + "=" + (r.right + shown);
    SpacesAreBlank(r.before);
    SpacesAreBlank(r.after);
    assert core[0] == key[0] && core[|core| - 1] == shown[|shown| - 1];
    TrimOf(r.before, core, r.after);
    assert Code(r, key, shown) == r.before + core + r.after;
  }

  lemma EqualsSplits(left: string, right: string)
    requires forall k :: 0 <= k < |left| ==> left[k] != '='
    ensures var s := left + "=" + right; EqualsAt(s) == |left| && s[..|left|] == left && s[|left| + 1..] == right
  {
    var s := left + "=" + right;
    assert forall k :: 0 <= k < |left| ==> s[k] == left[k];
    EqualsIsFirst(s, |left|);
  }

  lemma CoreIsPair(key: string, left: string, right: string, value: string)
    requires IsPlainKey(key) && IsSpaces(left) && IsSpaces(right) && Tight(value)
    ensures StatementOf((key + left) + "=" + (right + value)) == Pair(key, value)
  {
    SpacesAreBlank(left);
    SpacesAreBlank(right);
    EqualsSplits(key + left, right + value);
    assert (key + left + "=" + (right + value))[0] == key[0];
    assert "" + key + left == key + left && right + value + "" == right + value;
    TrimOf("", key, left);
    TrimOf(right, value, "");
  }

  /** What a value means to a key: the string itself, or the number or truth value it spells. */
  function AssignValue(layer: Layer, key: Key, value: string): Outcome<Layer> {
    if TakesString(key) then AssignString(layer, key, value) else Assign(layer, key, value)
  }

  lemma ShownIsParsed(value: string, bare: bool)
    requires bare ==> IsBare(value)
    ensures Shown(value, bare) != "" && Tight(Shown(value, bare)) && StringValue(Shown(value, bare)) == Ok(value)
  {
    QuotedIsParsed(value);
    if bare {
      TrimTight(value);
    }
  }

  /** A rendered assignment assigns exactly the value rendered. */
  lemma LineRoundTrip(layer: Layer, r: Rendering, key: Key, value: string, bare: bool)
    requires r.Valid() && (bare ==> IsBare(value)) && (TakesString(key) || bare)
    ensures Applied(layer, StatementOf(LineText(Rendered(r, Name(key), Shown(value, bare))))) == AssignValue(layer, key, value)
  {
    NamesArePlain(key);
    RenderedIsPair(r, Name(key), value, bare);
    ShownIsParsed(value, bare);
  }

  lemma RenderedIsPair(r: Rendering, key: string, value: string, bare: bool)
    requires r.Valid() && IsPlainKey(key) && (bare ==> IsBare(value))
    ensures StatementOf(LineText(Rendered(r, key, Shown(value, bare)))) == Pair(key, Shown(value, bare))
  {
    var shown := Shown(value, bare);
    ShownIsParsed(value, bare);
    CommentIsCut(r, key, value, bare);
    assert Rendered(r, key, shown)[..|Code(r, key, shown)|] == Code(r, key, shown);
    CodeIsTrimmed(r, key, shown);
    CoreIsPair(key, r.left, r.right, shown);
  }

  // --------------------------------------------------------------- the whole file

  /** Strings may be quoted or bare; numbers and truth values are bare. */
  datatype Assignment = Assignment(rendering: Rendering, key: Key, value: string, bare: bool) {
    predicate Valid() { rendering.Valid() && (bare ==> IsBare(value)) && (TakesString(key) || bare) }

    function Line(): string { Rendered(rendering, Name(key), Shown(value, bare)) }
  }

  predicate AllValid(assignments: seq<Assignment>) { forall i :: 0 <= i < |assignments| ==> assignments[i].Valid() }

  /** The lines, each with its line feed. */
  function Ended(lines: seq<string>): string { if lines == [] then "" else lines[0] + "\n" + Ended(lines[1..]) }

  /** The same without the last line feed. */
  function Unended(lines: seq<string>): string
    requires lines != []
  {
    Ended(lines[..|lines| - 1]) + lines[|lines| - 1]
  }

  function AllLines(assignments: seq<Assignment>): seq<string> {
    seq(|assignments|, i requires 0 <= i < |assignments| => assignments[i].Line())
  }

  function FileText(assignments: seq<Assignment>): string { Ended(AllLines(assignments)) }

  /** The same file without its last line feed. */
  function OpenText(assignments: seq<Assignment>): string
    requires assignments != []
  {
    Unended(AllLines(assignments))
  }

  /** Assigning the values one after the other, from number `i` on. */
  function AssignedFrom(assignments: seq<Assignment>, i: nat, layer: Layer): ParseResult
    requires i <= |assignments| && AllValid(assignments)
    decreases |assignments| - i
  {
    if i == |assignments| then Parsed(layer)
    else
      match AssignValue(layer, assignments[i].key, assignments[i].value)
      case Err(error) => Failed(i + 1, error)
      case Ok(next) => AssignedFrom(assignments, i + 1, next)
  }

  lemma {:induction false} EscapedIsOneLine(value: string)
    ensures '\n' !in Escaped(value)
    decreases |value|
  {
    if value != "" {
      EscapedIsOneLine(value[1..]);
      assert '\n' !in EscapeOf(value[0]);
    }
  }

  lemma LineIsOneLine(a: Assignment)
    requires a.Valid()
    ensures '\n' !in a.Line()
  {
    var r := a.rendering;
    NamesArePlain(a.key);
    EscapedIsOneLine(a.value);
    assert '\n' !in Quoted(a.value);
    assert '\n' !in Code(r, Name(a.key), Shown(a.value, a.bare));
  }

  lemma {:induction false} NewlineIsFirst(line: string, rest: string)
    requires '\n' !in line
    ensures NewlineAt(line + "\n" + rest) == |line|
    decreases |line|
  {
    var s := line + "\n" + rest;
    if line != "" {
      assert s[1..] == line[1..] + "\n" + rest;
      assert s[0] == line[0];
      NewlineIsFirst(line[1..], rest);
    }
  }

  lemma LinesStep(line: string, rest: string)
    requires '\n' !in line
    ensures Lines(line + "\n" + rest) == [WithoutReturn(line)] + Lines(rest)
  {
    NewlineIsFirst(line, rest);
    var s := line + "\n" + rest;
    assert s[..|line|] == line && s[|line| + 1..] == rest;
  }

  predicate AreOneLine(lines: seq<string>) { forall i :: 0 <= i < |lines| ==> '\n' !in lines[i] }

  /** What is read of lines that were written so. */
  function Returnless(lines: seq<string>): seq<string> {
    seq(|lines|, i requires 0 <= i < |lines| => WithoutReturn(lines[i]))
  }

  lemma EndedStep(line: string, lines: seq<string>, last: string)
    ensures Ended([line] + lines) + last == line + "\n" + (Ended(lines) + last)
    ensures Returnless([line] + lines) == [WithoutReturn(line)] + Returnless(lines)
  {
    var all := [line] + lines;
    assert all[1..] == lines;
    assert Ended(all) == line + "\n" + Ended(lines);
    assert line + "\n" + Ended(lines) + last == line + "\n" + (Ended(lines) + last);
  }

  lemma {:induction false} NoNewline(line: string)
    requires '\n' !in line
    ensures NewlineAt(line) == |line|
    decreases |line|
  {
    if line != "" {
      assert line[0] in line;
      NoNewline(line[1..]);
    }
  }

  lemma LastLine(last: string)
    requires '\n' !in last
    ensures Lines(last) == if last == "" then [] else [last]
  {
    NoNewline(last);
  }

  /** Every line written is read, also a last one without a line feed. */
  lemma {:induction false} LinesOfEnded(lines: seq<string>, last: string)
    requires AreOneLine(lines) && '\n' !in last
    ensures Lines(Ended(lines) + last) == Returnless(lines) + Lines(last)
    decreases |lines|
  {
    if lines == [] {
      assert Ended(lines) + last == last && Returnless(lines) == [];
      assert [] + Lines(last) == Lines(last);
    } else {
      var line, more := lines[0], lines[1..];
      assert lines == [line] + more;
      LinesOfEnded(more, last);
      EndedStep(line, more, last);
      LinesStep(line, Ended(more) + last);
      Reassociate([WithoutReturn(line)], Returnless(more), Lines(last));
    }
  }

  lemma AllAreOneLine(assignments: seq<Assignment>)
    requires AllValid(assignments)
    ensures AreOneLine(AllLines(assignments))
  {
    forall i | 0 <= i < |assignments| ensures '\n' !in AllLines(assignments)[i] {
      LineIsOneLine(assignments[i]);
    }
  }

  /** A line as it was written, or without a carriage return at its end. */
  predicate AsWritten(line: string, written: string) { line == written || line == WithoutReturn(written) }

  predicate AllWritten(lines: seq<string>, written: seq<string>) {
    |lines| == |written| && forall k :: 0 <= k < |lines| ==> AsWritten(lines[k], written[k])
  }

  lemma LinesOfFile(lines: seq<string>)
    requires AreOneLine(lines)
    ensures AllWritten(Lines(Ended(lines)), lines)
  {
    LinesOfEnded(lines, "");
    assert Ended(lines) + "" == Ended(lines) && Lines("") == [];
    assert Returnless(lines) + [] == Returnless(lines);
  }

  lemma LinesOfOpen(lines: seq<string>)
    requires AreOneLine(lines) && lines != [] && lines[|lines| - 1] != ""
    ensures AllWritten(Lines(Unended(lines)), lines)
  {
    var n := |lines| - 1;
    LinesOfEnded(lines[..n], lines[n]);
    LastLine(lines[n]);
  }

  lemma LineIsSome(a: Assignment)
    ensures a.Line() != ""
  {
    assert |a.Line()| == |Code(a.rendering, Name(a.key), Shown(a.value, a.bare))| + |a.rendering.comment|;
  }

  /** A carriage return at the end of a rendered line belongs to its comment. */
  lemma ReturnIsComment(r: Rendering, key: string, shown: string) returns (shorter: Rendering)
    requires r.Valid() && shown != "" && Tight(shown)
    ensures shorter.Valid() && WithoutReturn(Rendered(r, key, shown)) == Rendered(shorter, key, shown)
  {
    var line, code := Rendered(r, key, shown), Code(r, key, shown);
    if r.comment == "" {
      assert line == code;
      assert code[|code| - 1] == if r.after == "" then shown[|shown| - 1] else r.after[|r.after| - 1];
      shorter := r;
    } else if r.comment[|r.comment| - 1] == '\r' {
      var n := |r.comment| - 1;
      shorter := r.(comment := r.comment[..n]);
      assert shorter.comment != "" ==> shorter.comment[0] == r.comment[0];
      assert line[..|line| - 1] == code + r.comment[..n];
    } else {
      shorter := r;
    }
  }

  lemma LineAssigns(layer: Layer, a: Assignment, line: string)
    requires a.Valid() && AsWritten(line, a.Line())
    ensures Applied(layer, StatementOf(LineText(line))) == AssignValue(layer, a.key, a.value)
  {
    ShownIsParsed(a.value, a.bare);
    if line == a.Line() {
      LineRoundTrip(layer, a.rendering, a.key, a.value, a.bare);
    } else {
      var shorter := ReturnIsComment(a.rendering, Name(a.key), Shown(a.value, a.bare));
      LineRoundTrip(layer, shorter, a.key, a.value, a.bare);
    }
  }

  lemma {:induction false} LinesAssign(assignments: seq<Assignment>, lines: seq<string>, i: nat, layer: Layer)
    requires AllValid(assignments) && AllWritten(lines, AllLines(assignments)) && i <= |lines|
    ensures ParsedFrom(lines, i, layer) == AssignedFrom(assignments, i, layer)
    decreases |lines| - i
  {
    if i < |lines| {
      LineAssigns(layer, assignments[i], lines[i]);
      var outcome := AssignValue(layer, assignments[i].key, assignments[i].value);
      if outcome.Ok? {
        LinesAssign(assignments, lines, i + 1, outcome.value);
      }
    }
  }

  /** Reading a rendered file, with or without its last line feed, assigns its values in order: the
      strings arrive unchanged, whatever they contain and however the lines are spaced and
      commented. */
  lemma FileRoundTrip(assignments: seq<Assignment>)
    requires AllValid(assignments)
    ensures ParsedFrom(Lines(FileText(assignments)), 0, DEFAULT) == AssignedFrom(assignments, 0, DEFAULT)
    ensures assignments != [] ==>
              ParsedFrom(Lines(OpenText(assignments)), 0, DEFAULT) == AssignedFrom(assignments, 0, DEFAULT)
  {
    AllAreOneLine(assignments);
    LinesOfFile(AllLines(assignments));
    LinesAssign(assignments, Lines(FileText(assignments)), 0, DEFAULT);
    if assignments != [] {
      LineIsSome(assignments[|assignments| - 1]);
      LinesOfOpen(AllLines(assignments));
      LinesAssign(assignments, Lines(OpenText(assignments)), 0, DEFAULT);
    }
  }

  // --------------------------------------------------------------- the last value wins

  /** The last value given to a key by the first `n` assignments. */
  function LastValue(assignments: seq<Assignment>, key: Key, n: nat): Option<string>
    requires n <= |assignments|
  {
    if n == 0 then None
    else if assignments[n - 1].key == key then Some(assignments[n - 1].value)
    else LastValue(assignments, key, n - 1)
  }

  function TruthNamed(name: string): Option<bool> {
    if name == "true" then Some(true) else if name == "false" then Some(false) else None
  }

  predicate Holds(layer: Layer, key: Key, value: Option<string>) {
    match key
    case SshPort => layer.sshPort == (if value.None? then None else ParseU16(value.value))
    case Verbose => layer.verbose == (if value.None? then None else TruthNamed(value.value))
    case SshTarget => layer.sshTarget == value
    case SshUser => layer.sshUser == value
    case SshModeKey => layer.sshMode == (if value.None? then None else ModeNamed(value.value))
    case KeyFile => layer.keyFile == value
    case AudioBaseUrl => layer.audioBaseUrl == value
    case ApiBaseUrl => layer.apiBaseUrl == value
    case AudioOutputDevice => layer.audioOutputDevice == value
  }

  predicate Agrees(layer: Layer, assignments: seq<Assignment>, n: nat)
    requires n <= |assignments|
  {
    forall key: Key :: Holds(layer, key, LastValue(assignments, key, n))
  }

  /** What the file reader takes for a key. */
  predicate Acceptable(key: Key, value: string) {
    match key
    case SshPort => ParseU16(value).Some?
    case Verbose => value in {"true", "false"}
    case SshUser => !Blank(value)
    case AudioOutputDevice => !Blank(value)
    case SshModeKey => value in {"old", "subprocess", "openssh", "native"}
    case _ => true
  }

  /** The error for a value that is not acceptable; the others take anything. */
  function Refusal(key: Key): Option<ConfigError> {
    match key
    case SshPort => Some(InvalidPort)
    case Verbose => Some(ExpectedBool)
    case SshUser => Some(BlankUser)
    case AudioOutputDevice => Some(BlankDevice)
    case SshModeKey => Some(InvalidMode)
    case _ => None
  }

  lemma AssignIffAcceptable(layer: Layer, key: Key, value: string)
    requires TakesString(key) || Tight(value)
    ensures AssignValue(layer, key, value).Ok? <==> Acceptable(key, value)
    ensures AssignValue(layer, key, value).Err? ==> Refusal(key) == Some(AssignValue(layer, key, value).error)
    ensures AssignValue(layer, key, value).Ok? ==> Holds(AssignValue(layer, key, value).value, key, Some(value))
  {
    TrimmedAway(value);
    if !TakesString(key) {
      TrimTight(value);
    }
  }

  predicate AllAcceptable(assignments: seq<Assignment>, i: nat, j: nat)
    requires j <= |assignments|
  {
    forall k :: i <= k < j ==> Acceptable(assignments[k].key, assignments[k].value)
  }

  /** How reading the assignments from number `i` on must end: with the last values, all of them
      acceptable, or at the first one that is not. */
  predicate EndsRight(assignments: seq<Assignment>, i: nat, result: ParseResult) {
    match result
    case Parsed(layer) => Agrees(layer, assignments, |assignments|) && AllAcceptable(assignments, i, |assignments|)
    case Failed(line, error) =>
      && i < line <= |assignments| && AllAcceptable(assignments, i, line - 1)
      && !Acceptable(assignments[line - 1].key, assignments[line - 1].value)
      && Refusal(assignments[line - 1].key) == Some(error)
  }

  lemma AgreesOnward(assignments: seq<Assignment>, i: nat, layer: Layer, next: Layer)
    requires i < |assignments| && Agrees(layer, assignments, i)
    requires AssignValue(layer, assignments[i].key, assignments[i].value) == Ok(next)
    requires Holds(next, assignments[i].key, Some(assignments[i].value))
    ensures Agrees(next, assignments, i + 1)
  {
    forall key: Key {:trigger LastValue(assignments, key, i + 1)}
      ensures Holds(next, key, LastValue(assignments, key, i + 1))
    {
    }
  }

  lemma {:induction false} AssignedAgrees(assignments: seq<Assignment>, i: nat, layer: Layer)
    requires AllValid(assignments) && i <= |assignments| && Agrees(layer, assignments, i)
    ensures EndsRight(assignments, i, AssignedFrom(assignments, i, layer))
    decreases |assignments| - i
  {
    if i < |assignments| {
      var a := assignments[i];
      AssignIffAcceptable(layer, a.key, a.value);
      var outcome := AssignValue(layer, a.key, a.value);
      if outcome.Ok? {
        AgreesOnward(assignments, i, layer, outcome.value);
        AssignedAgrees(assignments, i + 1, outcome.value);
      }
    }
  }

  lemma NothingAgrees(assignments: seq<Assignment>)
    ensures Agrees(DEFAULT, assignments, 0)
  {
    forall key: Key {:trigger LastValue(assignments, key, 0)}
      ensures Holds(DEFAULT, key, LastValue(assignments, key, 0))
    {
    }
  }

  /** Reading a rendered file yields for each key the last value assigned to it, and nothing for
      the others; it fails exactly when some value is not acceptable, at the first such line. */
  lemma LastValueWins(assignments: seq<Assignment>)
    requires AllValid(assignments)
    ensures EndsRight(assignments, 0, ParsedFrom(Lines(FileText(assignments)), 0, DEFAULT))
    ensures assignments != [] ==> EndsRight(assignments, 0, ParsedFrom(Lines(OpenText(assignments)), 0, DEFAULT))
  {
    FileRoundTrip(assignments);
    NothingAgrees(assignments);
    AssignedAgrees(assignments, 0, DEFAULT);
  }

  // --------------------------------------------------------------- names

  /** The names of keys and modes. */
  lemma NamesAre(name: string)
    ensures KeyNamed("ssh-target") == Some(SshTarget) && KeyNamed("ssh-port") == Some(SshPort)
    ensures KeyNamed("ssh-user") == Some(SshUser) && KeyNamed("ssh-mode") == Some(SshModeKey)
    ensures KeyNamed("key") == Some(KeyFile) && KeyNamed("audio-base-url") == Some(AudioBaseUrl)
    ensures KeyNamed("api-base-url") == Some(ApiBaseUrl) && KeyNamed("verbose") == Some(Verbose)
    ensures KeyNamed("audio-output-device") == Some(AudioOutputDevice)
    ensures KeyNamed(name).Some? ==> KeyNamed(name).value in {SshTarget, SshPort, SshUser, SshModeKey, KeyFile, AudioBaseUrl,
              ApiBaseUrl, AudioOutputDevice, Verbose} && Name(KeyNamed(name).value) == name
    ensures ModeNamed("native") == Some(Native) && ModeNamed("openssh") == Some(OpenSsh)
    ensures ModeNamed("old") == ModeNamed("subprocess") == Some(Subprocess)
  {
  }

  // --------------------------------------------------------------- lines that assign nothing

  /** A line with nothing but white space and a comment does nothing. */
  lemma BlankLineIsSkipped(layer: Layer, spaces: string, comment: string)
    requires IsSpaces(spaces) && IsComment(comment)
    ensures Applied(layer, StatementOf(LineText(spaces + comment))) == Ok(layer)
  {
    ScanUnmarked(spaces, comment);
    assert (spaces + comment)[..|spaces|] == spaces;
    SpacesAreBlank(spaces);
    TrimmedAway(spaces);
  }

  lemma TrimKeepsFirst(spaces: string, s: string)
    requires IsSpaces(spaces) && s != "" && !IsWhitespace(s[0])
    ensures Trim(spaces + s) != "" && Trim(spaces + s)[0] == s[0]
  {
    SpacesAreBlank(spaces);
    TrimStartOf(spaces, s);
    TrimEndKeepsFirst(s);
  }

  lemma {:induction false} TrimEndKeepsFirst(s: string)
    requires s != "" && !IsWhitespace(s[0])
    ensures TrimEnd(s) != "" && TrimEnd(s)[0] == s[0]
    decreases |s|
  {
    if IsWhitespace(s[|s| - 1]) {
      TrimEndKeepsFirst(s[..|s| - 1]);
    }
  }

  /** A section header is refused, however it is indented and whatever follows. */
  lemma SectionIsRefused(layer: Layer, spaces: string, rest: string)
    requires IsSpaces(spaces)
    ensures Applied(layer, StatementOf(LineText(spaces + ("[" + rest)))) == Err(SectionsUnsupported)
  {
    var line := spaces + ("[" + rest);
    ScanUnmarked(spaces, "[" + rest);
    assert ("[" + rest)[1..] == rest;
    var n := CommentAt(rest, false, false);
    assert line[..CommentAt(line, false, false)] == spaces + ("[" + rest[..n]);
    TrimKeepsFirst(spaces, "[" + rest[..n]);
  }

  /** So is an assignment to a key that is not known. */
  lemma UnknownKeyIsRefused(layer: Layer, r: Rendering, key: string, value: string, bare: bool)
    requires r.Valid() && IsPlainKey(key) && (bare ==> IsBare(value)) && KeyNamed(key).None?
    ensures Applied(layer, StatementOf(LineText(Rendered(r, key, Shown(value, bare))))) == Err(UnsupportedKey)
  {
    RenderedIsPair(r, key, value, bare);
  }

  /** And text that is no assignment. */
  lemma TextIsRefused(layer: Layer, spaces: string, text: string, after: string, comment: string)
    requires IsSpaces(spaces) && IsSpaces(after) && IsComment(comment)
    requires text != "" && Tight(text) && IsUnmarked(text) && '=' !in text && text[0] != '['
    ensures Applied(layer, StatementOf(LineText(spaces + text + after + comment))) == Err(ExpectedKeyValue)
  {
    var code := spaces + text + after;
    ScanUnmarked(code, comment);
    assert (code + comment)[..|code|] == code;
    SpacesAreBlank(spaces);
    SpacesAreBlank(after);
    TrimOf(spaces, text, after);
  }

  // --------------------------------------------------------------- what a quoted string means

  datatype Piece = Plain(c: char) | Escape(letter: char)

  predicate IsPiece(p: Piece) {
    match p
    case Plain(c) => c != '\\'
    case Escape(letter) => letter in {'"', '\\', 'n', 'r', 't'}
  }

  function PieceText(p: Piece): string { if p.Plain? then [p.c] else ['\\', p.letter] }

  function Meaning(p: Piece): char {
    match p
    case Plain(c) => c
    case Escape(letter) =>
      if letter == 'n' then '\n' else if letter == 'r' then '\r' else if letter == 't' then '\t' else letter
  }

  function PiecesText(pieces: seq<Piece>): string {
    if pieces == [] then "" else PieceText(pieces[0]) + PiecesText(pieces[1..])
  }

  function Meanings(pieces: seq<Piece>): string { if pieces == [] then "" else [Meaning(pieces[0])] + Meanings(pieces[1..]) }

  /** What may stand after the pieces: nothing, a backslash at the end, or an escape that is none. */
  datatype Remainder = Complete | Dangling | BadEscape(letter: char, rest: string) {
    predicate Valid() { BadEscape? ==> letter !in {'"', '\\', 'n', 'r', 't'} }

    function Text(): string {
      match this
      case Complete => ""
      case Dangling => "\\"
      case BadEscape(letter, rest) => ['\\', letter] + rest
    }
  }

  predicate ArePieces(pieces: seq<Piece>) { forall i :: 0 <= i < |pieces| ==> IsPiece(pieces[i]) }

  lemma UnescapedPiece(p: Piece, rest: string)
    requires IsPiece(p)
    ensures Unescaped(PieceText(p) + rest) == Prepend(Meaning(p), Unescaped(rest))
  {
    var s := PieceText(p) + rest;
    assert s[|PieceText(p)|..] == rest;
  }

  /** Every text between quotes is plain characters and escapes, up to its end or to the first
      backslash that begins no escape.  It means what they mean, or is refused for that backslash. */
  lemma {:induction false} EveryStringIsPieces(inner: string) returns (pieces: seq<Piece>, remainder: Remainder)
    ensures ArePieces(pieces) && remainder.Valid() && inner == PiecesText(pieces) + remainder.Text()
    ensures Unescaped(inner) == match remainder
                                case Complete => Ok(Meanings(pieces))
                                case Dangling => Err(InvalidEscape)
                                case BadEscape(letter, _) => Err(UnsupportedEscape(letter))
    decreases |inner|
  {
    if inner == "" {
      pieces, remainder := [], Complete;
    } else if inner == "\\" {
      pieces, remainder := [], Dangling;
    } else if inner[0] == '\\' && inner[1] !in {'"', '\\', 'n', 'r', 't'} {
      pieces, remainder := [], BadEscape(inner[1], inner[2..]);
      assert inner == ['\\', inner[1]] + inner[2..];
    } else {
      var first := if inner[0] == '\\' then Escape(inner[1]) else Plain(inner[0]);
      var rest := inner[|PieceText(first)|..];
      var more;
      more, remainder := EveryStringIsPieces(rest);
      pieces := [first] + more;
      assert inner == PieceText(first) + rest;
      assert pieces[1..] == more;
      Reassociate(PieceText(first), PiecesText(more), remainder.Text());
      UnescapedPiece(first, rest);
    }
  }

  /** A string that is opened and not closed is refused, and so is no value at all. */
  lemma UnterminatedIsRefused(rest: string)
    requires Tight("\"" + rest) && (rest == "" || rest[|rest| - 1] != '"')
    ensures StringValue("\"" + rest) == Err(UnterminatedString)
    ensures StringValue("") == Err(BlankString)
  {
    TrimTight("\"" + rest);
    TrimTight("");
  }
}
