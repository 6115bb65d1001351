/** Taking the session token out of the output of a spawned ssh, `late-cli/src/ssh.rs`.

    The server's first line carries a token that must not reach the terminal.  The
    output arrives in reads of arbitrary size, so the filter holds back a line until it
    is complete.  Whatever the reads, what is shown is a function of the whole stream. */
module TokenStream {
  import opened Sequences
  import opened Wrappers
  import opened Utf8
  import opened Text

  type Bytes = seq<Byte>

  /** Whether a complete line carries the token, and which. */
  type LineTest = Bytes -> Option<string>

  const NEWLINE: Byte := 10
  const TOKEN_PREFIX: string := "LATE_SESSION_TOKEN="

  // --------------------------------------------------------------- parse_cli_banner

  datatype BannerState = NeedMore | Token(token: string, size: nat) | Passthrough(size: nat)

  predicate NoNewline(s: Bytes, i: nat, j: nat)
    requires j <= |s|
  {
    forall k :: i <= k < j ==> s[k] != NEWLINE
  }

  /** Exactly one complete line. */
  predicate OneLine(line: Bytes) {
    line != [] && line[|line| - 1] == NEWLINE && NoNewline(line, 0, |line| - 1)
  }

  function NewlineIndex(s: Bytes): (i: nat)
    ensures i <= |s| && NoNewline(s, 0, i) && (i < |s| ==> s[i] == NEWLINE)
  {
    if s == [] || s[0] == NEWLINE then 0
    else
      var rest := s[1..];
      assert forall k :: 1 <= k < |s| ==> s[k] == rest[k - 1];
      1 + NewlineIndex(rest)
  }

  function TokenOf(line: Bytes, prefix: string): Option<string> {
    var text := Lossy(line);
    if prefix <= text then Some(Trim(text[|prefix|..])) else None
  }

  function Test(prefix: string): LineTest { line => TokenOf(line, prefix) }

  function ParseCliBanner(buffer: Bytes, test: LineTest): BannerState {
    var newline := NewlineIndex(buffer);
    if newline == |buffer| then NeedMore
    else
      match test(buffer[..newline + 1])
      case Some(token) => Token(token, newline + 1)
      case None => Passthrough(newline + 1)
  }

  // --------------------------------------------------------------- the whole-stream function

  /** What a stream has put on the terminal, what is held back, and the token. */
  datatype Scan = Scan(shown: Bytes, held: Bytes, token: Option<string>)

  function Scanned(s: Bytes, test: LineTest): Scan
    decreases |s|
  {
    match ParseCliBanner(s, test)
    case NeedMore => Scan([], s, None)
    case Token(token, size) => Scan(s[size..], [], Some(token))
    case Passthrough(size) => After(s[..size], Scanned(s[size..], test))
  }

  function After(shown: Bytes, rest: Scan): Scan { rest.(shown := shown + rest.shown) }

  /** Going on with what was held back. */
  function Resumed(before: Scan, more: Bytes, test: LineTest): Scan {
    if before.token.Some? then before.(shown := before.shown + more)
    else After(before.shown, Scanned(before.held + more, test))
  }

  lemma {:induction false} NewlineIsFirst(s: Bytes, i: nat)
    requires i < |s| && s[i] == NEWLINE && NoNewline(s, 0, i)
    ensures NewlineIndex(s) == i
    decreases i
  {
    if i > 0 {
      NewlineIsFirst(s[1..], i - 1);
    }
  }

  /** Scanning a stream that starts with the complete line `line`. */
  lemma ScanLine(line: Bytes, rest: Bytes, test: LineTest)
    requires OneLine(line)
    ensures test(line).Some? ==> Scanned(line + rest, test) == Scan(rest, [], test(line))
    ensures test(line).None? ==> Scanned(line + rest, test) == After(line, Scanned(rest, test))
  {
    var i := |line| - 1;
    NewlineIsFirst(line + rest, i);
    assert (line + rest)[..i + 1] == line && (line + rest)[i + 1..] == rest;
  }

  /** The first complete line of a stream, if there is one. */
  lemma SplitFirstLine(s: Bytes) returns (line: Bytes, rest: Bytes)
    requires NewlineIndex(s) < |s|
    ensures s == line + rest && OneLine(line)
  {
    var i := NewlineIndex(s);
    line, rest := s[..i + 1], s[i + 1..];
  }

  lemma AfterTwice(a: Bytes, b: Bytes, rest: Scan)
    ensures After(a, After(b, rest)) == After(a + b, rest)
    ensures After([], rest) == rest
  {
    assert a + (b + rest.shown) == a + b + rest.shown;
    assert [] + rest.shown == rest.shown;
  }

  lemma ResumedAfter(line: Bytes, before: Scan, more: Bytes, test: LineTest)
    ensures After(line, Resumed(before, more, test)) == Resumed(After(line, before), more, test)
  {
    if before.token.Some? {
      assert line + (before.shown + more) == line + before.shown + more;
    } else {
      AfterTwice(line, before.shown, Scanned(before.held + more, test));
    }
  }

  /** Scanning can stop anywhere and be resumed with only what was held back. */
  lemma {:induction false} ScanResumes(s: Bytes, more: Bytes, test: LineTest)
    ensures Scanned(s + more, test) == Resumed(Scanned(s, test), more, test)
    decreases |s|
  {
    if NewlineIndex(s) == |s| {
      AfterTwice([], [], Scanned(s + more, test));
    } else {
      var line, rest := SplitFirstLine(s);
      assert s + more == line + (rest + more);
      ScanLine(line, rest, test);
      ScanLine(line, rest + more, test);
      if test(line).None? {
        ScanResumes(rest, more, test);
        ResumedAfter(line, Scanned(rest, test), more, test);
      }
    }
  }

  // --------------------------------------------------------------- what the function means

  function Joined(parts: seq<Bytes>): Bytes { if parts == [] then [] else parts[0] + Joined(parts[1..]) }

  predicate AreLines(lines: seq<Bytes>) { forall i :: 0 <= i < |lines| ==> OneLine(lines[i]) }

  /** Every stream is a list of complete lines and a partial one. */
  lemma {:induction false} EveryStreamSplits(s: Bytes) returns (lines: seq<Bytes>, tail: Bytes)
    ensures s == Joined(lines) + tail && AreLines(lines) && NoNewline(tail, 0, |tail|)
    decreases |s|
  {
    if NewlineIndex(s) == |s| {
      lines, tail := [], s;
      assert Joined(lines) + tail == tail;
    } else {
      var line, rest := SplitFirstLine(s);
      var later, end := EveryStreamSplits(rest);
      lines, tail := [line] + later, end;
      assert Joined(lines) == line + Joined(later);
      assert line + Joined(later) + tail == line + (Joined(later) + tail);
    }
  }

  lemma ScanFirstOfLines(lines: seq<Bytes>, tail: Bytes, test: LineTest)
    requires lines != [] && OneLine(lines[0])
    ensures var rest := Joined(lines[1..]) + tail;
      Scanned(Joined(lines) + tail, test)
      == (if test(lines[0]).Some? then Scan(rest, [], test(lines[0])) else After(lines[0], Scanned(rest, test)))
  {
    var rest := Joined(lines[1..]) + tail;
    assert Joined(lines) + tail == lines[0] + rest;
    ScanLine(lines[0], rest, test);
  }

  lemma ScanPartial(tail: Bytes, test: LineTest)
    requires NoNewline(tail, 0, |tail|)
    ensures Scanned(Joined([]) + tail, test) == Scan([], tail, None)
  {
    assert Joined([]) + tail == tail;
  }

  /** Without a line that carries a token all lines are shown and the partial one is held back. */
  lemma {:induction false} ScanWithoutToken(lines: seq<Bytes>, tail: Bytes, test: LineTest)
    requires AreLines(lines) && NoNewline(tail, 0, |tail|)
    requires forall i :: 0 <= i < |lines| ==> test(lines[i]).None?
    ensures Scanned(Joined(lines) + tail, test) == Scan(Joined(lines), tail, None)
    decreases |lines|
  {
    if lines == [] {
      ScanPartial(tail, test);
    } else {
      ScanFirstOfLines(lines, tail, test);
      ScanWithoutToken(lines[1..], tail, test);
    }
  }

  lemma KeptLater(lines: seq<Bytes>, m: nat, tail: Bytes)
    requires 0 < m < |lines|
    ensures lines[0] + (Joined(lines[1..][..m - 1] + lines[1..][m..]) + tail) == Joined(lines[..m] + lines[m + 1..]) + tail
    ensures lines[1..][m - 1] == lines[m]
  {
    var kept := lines[1..][..m - 1] + lines[1..][m..];
    assert lines[..m] + lines[m + 1..] == [lines[0]] + kept;
    JoinedFirst(lines[0], kept);
    assert lines[0] + (Joined(kept) + tail) == lines[0] + Joined(kept) + tail;
  }

  lemma JoinedFirst(line: Bytes, lines: seq<Bytes>)
    ensures Joined([line] + lines) == line + Joined(lines)
  {
    assert ([line] + lines)[1..] == lines;
  }

  /** The first line that carries a token is taken out, and nothing else. */
  lemma {:induction false} ScanWithToken(lines: seq<Bytes>, tail: Bytes, m: nat, test: LineTest)
    requires AreLines(lines) && NoNewline(tail, 0, |tail|)
    requires m < |lines| && test(lines[m]).Some? && forall i :: 0 <= i < m ==> test(lines[i]).None?
    ensures Scanned(Joined(lines) + tail, test) == Scan(Joined(lines[..m] + lines[m + 1..]) + tail, [], test(lines[m]))
    decreases |lines|
  {
    ScanFirstOfLines(lines, tail, test);
    if m == 0 {
      assert lines[..0] + lines[1..] == lines[1..];
    } else {
      ScanWithToken(lines[1..], tail, m - 1, test);
      KeptLater(lines, m, tail);
    }
  }

  /** Showing never has to be taken back, and a token found stays found. */
  lemma ShownOnlyGrows(s: Bytes, more: Bytes, test: LineTest)
    ensures Scanned(s, test).shown <= Scanned(s + more, test).shown
    ensures Scanned(s, test).token.Some? ==> Scanned(s + more, test).token == Scanned(s, test).token
  {
    ScanResumes(s, more, test);
  }

  // --------------------------------------------------------------- the banner

  lemma TokenOfLine(line: Bytes, prefix: string)
    requires IsAscii(prefix)
    ensures TokenOf(line, prefix).Some? <==> Encode(prefix) <= line
    ensures TokenOf(line, prefix).Some? ==> |prefix| <= |line| && TokenOf(line, prefix).value == Trim(Lossy(line[|prefix|..]))
  {
    LossyPrefix(prefix, line);
  }

  predicate FirstTokenLine(lines: seq<Bytes>, m: nat, prefix: string) {
    m < |lines| && Encode(prefix) <= lines[m] && forall i :: 0 <= i < m ==> !(Encode(prefix) <= lines[i])
  }

  /** The stream is shown without its first complete line that starts with the prefix, and
      that line's trimmed remainder is the token. */
  lemma FirstTokenLineIsRemoved(lines: seq<Bytes>, tail: Bytes, m: nat, prefix: string)
    requires AreLines(lines) && NoNewline(tail, 0, |tail|)
    requires IsAscii(prefix) && FirstTokenLine(lines, m, prefix)
    ensures |prefix| <= |lines[m]|
    ensures Scanned(Joined(lines) + tail, Test(prefix))
         == Scan(Joined(lines[..m] + lines[m + 1..]) + tail, [], Some(Trim(Lossy(lines[m][|prefix|..]))))
  {
    forall i | 0 <= i <= m ensures Test(prefix)(lines[i]).Some? <==> Encode(prefix) <= lines[i] {
      TokenOfLine(lines[i], prefix);
    }
    TokenOfLine(lines[m], prefix);
    ScanWithToken(lines, tail, m, Test(prefix));
  }

  /** A stream without such a line is shown whole, but for the partial line held back until
      more arrives. */
  lemma NothingElseIsRemoved(lines: seq<Bytes>, tail: Bytes, prefix: string)
    requires AreLines(lines) && NoNewline(tail, 0, |tail|)
    requires IsAscii(prefix) && forall i :: 0 <= i < |lines| ==> !(Encode(prefix) <= lines[i])
    ensures Scanned(Joined(lines) + tail, Test(prefix)) == Scan(Joined(lines), tail, None)
  {
    forall i | 0 <= i < |lines| ensures Test(prefix)(lines[i]).None? {
      TokenOfLine(lines[i], prefix);
    }
    ScanWithoutToken(lines, tail, Test(prefix));
  }

  /** The line the server writes first on a session in client mode. */
  function ServerBanner(prefix: string, token: string): Bytes { Encode(prefix + token) + [13, NEWLINE] }

  /** It is the encoding of the formatted text. */
  lemma BannerIsFormatted(prefix: string, token: string)
    ensures ServerBanner(prefix, token) == Encode(prefix + token + "\r\n")
  {
    EncodeAppend(prefix + token, "\r\n");
    assert "\r\n"[1..] == "\n" && "\n"[1..] == "";
    assert EncodeChar('\r') == [13] && EncodeChar('\n') == [10];
    assert Encode("\n") == [10] + Encode("");
  }

  lemma BannerIsOneLine(prefix: string, token: string)
    requires '\n' !in prefix && '\n' !in token
    ensures OneLine(ServerBanner(prefix, token))
  {
    AbsentByte(prefix + token, '\n');
  }

  lemma LossyIsText(text: string)
    ensures Lossy(Encode(text)) == text
  {
    LossyOfEncode(text, []);
    assert Encode(text) + [] == Encode(text) && text + "" == text;
  }

  lemma AfterPrefix(prefix: string, token: string, end: string)
    ensures prefix <= prefix + token + end && (prefix + token + end)[|prefix|..] == "" + token + end
  {
    assert prefix + token + end == prefix + (token + end);
    assert "" + token + end == token + end;
  }

  lemma BannerCarriesToken(prefix: string, token: string)
    requires Tight(token)
    ensures TokenOf(ServerBanner(prefix, token), prefix) == Some(token)
  {
    BannerIsFormatted(prefix, token);
    LossyIsText(prefix + token + "\r\n");
    AfterPrefix(prefix, token, "\r\n");
    TrimOf("", token, "\r\n");
  }

  /** The client gets exactly the token the server sent and shows everything else, whatever
      lines without the prefix came before and whatever follows. */
  lemma TokenArrives(before: seq<Bytes>, prefix: string, token: string, rest: Bytes)
    requires AreLines(before) && IsAscii(prefix) && forall i :: 0 <= i < |before| ==> !(Encode(prefix) <= before[i])
    requires '\n' !in prefix && '\n' !in token && Tight(token)
    ensures Scanned(Joined(before) + (ServerBanner(prefix, token) + rest), Test(prefix)) == Scan(Joined(before) + rest, [], Some(token))
  {
    var test, banner := Test(prefix), ServerBanner(prefix, token);
    NothingElseIsRemoved(before, [], prefix);
    assert Joined(before) + [] == Joined(before);
    ScanResumes(Joined(before), banner + rest, test);
    BannerIsOneLine(prefix, token);
    BannerCarriesToken(prefix, token);
    ScanLine(banner, rest, test);
    assert [] + (banner + rest) == banner + rest;
  }

  /** So with the prefix that server and client agree on. */
  lemma SessionTokenArrives(before: seq<Bytes>, token: string, rest: Bytes)
    requires AreLines(before) && forall i :: 0 <= i < |before| ==> !(Encode(TOKEN_PREFIX) <= before[i])
    requires '\n' !in token && Tight(token)
    ensures Scanned(Joined(before) + (ServerBanner(TOKEN_PREFIX, token) + rest), Test(TOKEN_PREFIX)) ==
            Scan(Joined(before) + rest, [], Some(token))
  {
    assert IsAscii(TOKEN_PREFIX) && '\n' !in TOKEN_PREFIX;
    TokenArrives(before, TOKEN_PREFIX, token, rest);
  }

  // --------------------------------------------------------------- the loop

  /** What a read of the terminal gives: bytes, none at the end, an interruption, or an error. */
  datatype Read = Chunk(bytes: Bytes) | Interrupted | Failed

  datatype Outcome = Eof | ReadFailed

  /** The bytes delivered from read `i` on, before the stream ends or fails. */
  function Delivered(input: seq<Read>, i: nat): Bytes
    requires i <= |input|
    decreases |input| - i
  {
    if i == |input| || input[i].Failed? || input[i] == Chunk([]) then []
    else if input[i].Interrupted? then Delivered(input, i + 1)
    else input[i].bytes + Delivered(input, i + 1)
  }

  function Ending(input: seq<Read>, i: nat): Outcome
    requires i <= |input|
    decreases |input| - i
  {
    if i == |input| || input[i] == Chunk([]) then Eof
    else if input[i].Failed? then ReadFailed
    else Ending(input, i + 1)
  }

  function Tokens(token: Option<string>): seq<string> { if token.Some? then [token.value] else [] }

  /** The inner loop: shows complete lines until none is left or the token is found. */
  method DrainPending(pending: Bytes, test: LineTest) returns (out: Bytes, rest: Bytes, token: Option<string>)
    ensures Scan(out, rest, token) == Scanned(pending, test)
  {
    out, rest, token := [], pending, None;
    AfterTwice([], [], Scanned(pending, test));
    while rest != [] && token.None?
      invariant token.None? ==> After(out, Scanned(rest, test)) == Scanned(pending, test)
      invariant token.Some? ==> Scan(out, rest, token) == Scanned(pending, test)
      decreases |rest|, token.None?
    {
      match ParseCliBanner(rest, test)
      case NeedMore =>
        assert out + [] == out;
        return;
      case Token(found, size) =>
        out := out + rest[size..];
        rest := [];
        token := Some(found);
      case Passthrough(size) =>
        AfterTwice(out, rest[..size], Scanned(rest[size..], test));
        out := out + rest[..size];
        rest := rest[size..];
    }
    assert out + [] == out;
  }

  /** Forwards the reads.  At the end of the stream everything but the token line has been
      shown; a failed read loses what was held back. */
  method ForwardSshOutput(input: seq<Read>, test: LineTest) returns (out: Bytes, tokens: seq<string>, outcome: Outcome)
    ensures outcome == Ending(input, 0)
    ensures tokens == Tokens(Scanned(Delivered(input, 0), test).token)
    ensures outcome.ReadFailed? ==> out == Scanned(Delivered(input, 0), test).shown
    ensures outcome.Eof? ==> out == Scanned(Delivered(input, 0), test).shown + Scanned(Delivered(input, 0), test).held
  {
    var pending: Bytes := [];
    var tokenSent := false;
    out, tokens := [], [];
    ghost var seen: Bytes, found: Option<string> := [], None;
    var i := 0;
    while i < |input|
      invariant i <= |input|
      invariant Delivered(input, 0) == seen + Delivered(input, i) && Ending(input, 0) == Ending(input, i)
      invariant Scanned(seen, test) == Scan(out, pending, found)
      invariant tokens == Tokens(found) && (tokenSent <==> found.Some?)
    {
      var read := input[i];
      i := i + 1;
      if read.Interrupted? {
        continue;
      }
      if read.Failed? {
        assert seen + [] == seen;
        return out, tokens, ReadFailed;
      }
      if read.bytes == [] {
        assert seen + [] == seen;
        break;
      }
      ChunkScans(seen, read.bytes, test);
      Reassociate(seen, read.bytes, Delivered(input, i));
      seen := seen + read.bytes;
      if tokenSent {
        out := out + read.bytes;
        continue;
      }
      var shown, rest, token := DrainPending(pending + read.bytes, test);
      out := out + shown;
      pending := rest;
      found := token;
      if token.Some? {
        tokens := tokens + [token.value];
        tokenSent := true;
      }
    }
    assert Delivered(input, 0) == seen;
    if pending != [] {
      out := out + pending;
    }
    outcome := Eof;
  }

  /** What one more read does. */
  lemma ChunkScans(seen: Bytes, bytes: Bytes, test: LineTest)
    ensures var before := Scanned(seen, test);
      Scanned(seen + bytes, test) ==
        if before.token.Some? then Scan(before.shown + bytes, before.held, before.token)
        else After(before.shown, Scanned(before.held + bytes, test))
  {
    ScanResumes(seen, bytes, test);
  }

  /** A read that ends the stream. */
  predicate EndsStream(read: Read) { read.Failed? || read == Chunk([]) }

  function Received(parts: seq<Read>): Bytes {
    if parts == [] then [] else (if parts[0].Chunk? then parts[0].bytes else []) + Received(parts[1..])
  }

  /** What is delivered is every chunk before the first read that ends the stream: interruptions
      end nothing and lose nothing, and only a failed read is an error. */
  lemma {:induction false} DeliveredIs(input: seq<Read>, i: nat, k: nat)
    requires i <= k <= |input| && forall j :: i <= j < k ==> !EndsStream(input[j])
    requires k < |input| ==> EndsStream(input[k])
    ensures Delivered(input, i) == Received(input[i..k])
    ensures Ending(input, i) == if k < |input| && input[k].Failed? then ReadFailed else Eof
    decreases k - i
  {
    if i < k {
      DeliveredIs(input, i + 1, k);
      assert input[i..k][1..] == input[i + 1..k];
      assert [] + Delivered(input, i + 1) == Delivered(input, i + 1);
    }
  }

  function AsReads(parts: seq<Bytes>): seq<Read> { seq(|parts|, i requires 0 <= i < |parts| => Chunk(parts[i])) }

  /** However a stream is cut into reads, the same bytes are delivered. */
  lemma {:induction false} CutsDeliver(parts: seq<Bytes>, i: nat)
    requires i <= |parts| && forall k :: 0 <= k < |parts| ==> parts[k] != []
    ensures Delivered(AsReads(parts), i) == Joined(parts[i..]) && Ending(AsReads(parts), i) == Eof
    decreases |parts| - i
  {
    if i < |parts| {
      CutsDeliver(parts, i + 1);
      assert parts[i..][1..] == parts[i + 1..];
    }
  }
}
