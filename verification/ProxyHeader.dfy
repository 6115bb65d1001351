/** Reading a PROXY protocol header, version 1, off a connection: `late-ssh/src/ssh.rs`.

    The header is read a byte at a time, so that not one byte of what follows it is taken
    from the SSH handshake. */
module ProxyHeader {
  import opened Wrappers
  import opened Utf8
  import opened Text

  const MAX_LENGTH: nat := 108

  /** An address; what texts denote one is left to the parser passed in. */
  datatype Ip = Ip(address: nat)

  type IpParser = string -> Option<Ip>

  datatype HeaderError = NotUtf8 | MissingCrlf | Malformed | FieldCount | BadIp | BadPort | BadFamily

  datatype Header = Address(ip: Ip, port: nat) | NoAddress | Refused(error: HeaderError)

  const CRLF: seq<Byte> := [13, 10]

  function HeaderOf(words: seq<string>, parseIp: IpParser): Header {
    if |words| < 2 || words[0] != "PROXY" then Refused(Malformed)
    else if words[1] == "UNKNOWN" then NoAddress
    else if words[1] != "TCP4" && words[1] != "TCP6" then Refused(BadFamily)
    else if |words| != 6 then Refused(FieldCount)
    else if parseIp(words[2]).None? then Refused(BadIp)
    else if ParseU16(words[4]).None? then Refused(BadPort)
    else Address(parseIp(words[2]).value, ParseU16(words[4]).value)
  }

  /** parse_proxy_v1_addr(). */
  function ParseHeader(line: seq<Byte>, parseIp: IpParser): Header {
    var text := Strict(line);
    if text.None? then Refused(NotUtf8)
    else if |text.value| < 2 || text.value[|text.value| - 2..] != "\r\n" then Refused(MissingCrlf)
    else HeaderOf(Words(text.value[..|text.value| - 2]), parseIp)
  }

  // --------------------------------------------------------------- the reader

  /** What a connection does after the bytes it has delivered: closes, or stays silent. */
  datatype Ending = Closed | Silent

  datatype ReadResult = Read(header: Header) | TooLong | ReadFailed | TimedOut

  predicate EndsCrlf(s: seq<Byte>, n: nat) { 2 <= n <= |s| && s[n - 2] == 13 && s[n - 1] == 10 }

  /** The first `n` bytes end with the first line break of the stream. */
  predicate FirstCrlf(s: seq<Byte>, n: nat) { EndsCrlf(s, n) && forall m :: 0 <= m < n ==> !EndsCrlf(s, m) }

  lemma OneFirstCrlf(s: seq<Byte>, n: nat)
    requires EndsCrlf(s, n) && forall m :: 0 <= m < n ==> !EndsCrlf(s, m)
    ensures FirstCrlf(s, n) && forall m: nat :: FirstCrlf(s, m) ==> m == n
  {
    forall m: nat | FirstCrlf(s, m) ensures m == n {
      assert m < n ==> !EndsCrlf(s, m);
      assert n < m ==> !EndsCrlf(s, n);
    }
  }

  /** What reading a header off a connection comes to. */
  ghost predicate Reads(stream: seq<Byte>, ending: Ending, parseIp: IpParser, result: ReadResult, taken: nat) {
    && taken <= |stream| && taken <= MAX_LENGTH
    && (result.Read? <==> exists n :: 0 <= n <= MAX_LENGTH && FirstCrlf(stream, n))
    && (forall n :: 0 <= n <= MAX_LENGTH && FirstCrlf(stream, n) ==>
          taken == n && result == Read(ParseHeader(stream[..n], parseIp)))
    && (result.TooLong? ==> taken == MAX_LENGTH)
    && (result.ReadFailed? ==> taken == |stream| < MAX_LENGTH && ending.Closed?)
    && (result.TimedOut? ==> taken == |stream| < MAX_LENGTH && ending.Silent?)
  }

  /** Takes exactly the bytes up to the first line break, if it ends within the limit, and
      otherwise fails. */
  method ReadProxyV1(stream: seq<Byte>, ending: Ending, parseIp: IpParser) returns (result: ReadResult, taken: nat)
    ensures Reads(stream, ending, parseIp, result, taken)
  {
    var line: seq<Byte> := [];
    while |line| < MAX_LENGTH
      invariant |line| <= |stream| && |line| <= MAX_LENGTH && line == stream[..|line|]
      invariant forall m :: 0 <= m <= |line| ==> !EndsCrlf(stream, m)
      decreases MAX_LENGTH - |line|
    {
      if |line| == |stream| {
        return if ending.Closed? then ReadFailed else TimedOut, |line|;
      }
      line := line + [stream[|line|]];
      if |line| >= 2 && line[|line| - 2..] == CRLF {
        assert line[|line| - 2] == CRLF[0] && line[|line| - 1] == CRLF[1];
        OneFirstCrlf(stream, |line|);
        assert line == stream[..|line|];
        return Read(ParseHeader(line, parseIp)), |line|;
      }
      assert |line| >= 2 ==> line[|line| - 2..] == [stream[|line| - 2], stream[|line| - 1]];
    }
    return TooLong, |line|;
  }

  // --------------------------------------------------------------- printed headers

  datatype Family = Tcp4 | Tcp6

  function FamilyName(family: Family): string { if family.Tcp4? then "TCP4" else "TCP6" }

  /** The fields of a header for a proxied connection, section 2.1 of the HAProxy PROXY protocol
      specification: family, addresses, ports. */
  function Fields(family: Family, source: string, destination: string, sourcePort: nat, destinationPort: nat): seq<string> {
    ["PROXY", FamilyName(family), source, destination, Decimal(sourcePort), Decimal(destinationPort)]
  }

  /** A header line: the text, which holds no line break, and the line break. */
  function Line(text: string): seq<Byte> { Encode(text + "\r\n") }

  lemma LineBytes(text: string)
    ensures Line(text) == Encode(text) + CRLF
  {
    EncodeAppend(text, "\r\n");
    assert "\r\n"[1..] == "\n" && "\n"[1..] == "";
    assert EncodeChar('\r') == [13] && EncodeChar('\n') == [10];
    assert Encode("\n") == [10] + Encode("");
  }

  /** The line break of a printed header is the first of the stream. */
  lemma LineEndsFirst(text: string, rest: seq<Byte>)
    requires '\n' !in text
    ensures FirstCrlf(Line(text) + rest, |Line(text)|)
  {
    LineBytes(text);
    AbsentByte(text, '\n');
    var s, n := Line(text) + rest, |Encode(text)|;
    assert s[n] == 13 && s[n + 1] == 10;
    forall m | 0 <= m < n + 2 ensures !EndsCrlf(s, m) {
      assert 0 < m <= n ==> s[m - 1] == Encode(text)[m - 1];
    }
  }

  lemma LineIsParsed(text: string, parseIp: IpParser)
    ensures ParseHeader(Line(text), parseIp) == HeaderOf(Words(text), parseIp)
  {
    var full := text + "\r\n";
    StrictOfEncode(full);
    assert full[|full| - 2..] == "\r\n" && full[..|full| - 2] == text;
  }

  /** The words of a header that carries an address. */
  predicate NamesAddress(words: seq<string>, parseIp: IpParser, ip: Ip, port: nat) {
    && |words| == 6 && words[0] == "PROXY" && words[1] in {"TCP4", "TCP6"}
    && parseIp(words[2]) == Some(ip) && ParseU16(words[4]) == Some(port)
  }

  predicate NamesNothing(words: seq<string>) { |words| >= 2 && words[0] == "PROXY" && words[1] == "UNKNOWN" }

  lemma OnlyLines(line: seq<Byte>, parseIp: IpParser) returns (text: string)
    ensures !ParseHeader(line, parseIp).Refused? ==>
              line == Line(text) && ParseHeader(line, parseIp) == HeaderOf(Words(text), parseIp)
  {
    text := "";
    var full := Strict(line);
    if full.Some? && |full.value| >= 2 && full.value[|full.value| - 2..] == "\r\n" {
      text := full.value[..|full.value| - 2];
      assert text + "\r\n" == full.value;
      StrictIff(line, full.value);
    }
  }

  /** A line gives an address exactly when it is the encoding of a text of six words, for TCP4 or
      TCP6, with a source address and a port, and a line break; and none exactly when it is one of
      an unknown connection.  Everything else is refused. */
  lemma AcceptedIff(line: seq<Byte>, parseIp: IpParser, ip: Ip, port: nat)
    ensures ParseHeader(line, parseIp) == Address(ip, port) <==>
            exists text :: line == Line(text) && NamesAddress(Words(text), parseIp, ip, port)
    ensures ParseHeader(line, parseIp) == NoAddress <==> exists text :: line == Line(text) && NamesNothing(Words(text))
  {
    var text := OnlyLines(line, parseIp);
    HeaderIs(Words(text), parseIp, ip, port);
    forall other | line == Line(other)
      ensures ParseHeader(line, parseIp) == Address(ip, port) <==> NamesAddress(Words(other), parseIp, ip, port)
      ensures ParseHeader(line, parseIp) == NoAddress <==> NamesNothing(Words(other))
    {
      LineIsParsed(other, parseIp);
      HeaderIs(Words(other), parseIp, ip, port);
    }
  }

  lemma HeaderIs(words: seq<string>, parseIp: IpParser, ip: Ip, port: nat)
    ensures HeaderOf(words, parseIp) == Address(ip, port) <==> NamesAddress(words, parseIp, ip, port)
    ensures HeaderOf(words, parseIp) == NoAddress <==> NamesNothing(words)
  {
    assert "TCP4"[0] != "UNKNOWN"[0];
    assert "TCP6"[0] != "UNKNOWN"[0];
  }

  predicate HasNewline(s: string) { '\n' in s }

  lemma {:induction false} SpacedHasNoNewline(words: seq<string>)
    requires forall i :: 0 <= i < |words| ==> IsWord(words[i])
    ensures !HasNewline(Spaced(words))
    decreases |words|
  {
    if words != [] {
      SpacedHasNoNewline(words[1..]);
      assert forall i :: 0 <= i < |words[0]| ==> !IsWhitespace(words[0][i]);
    }
  }

  lemma DecimalIsWord(n: nat)
    ensures IsWord(Decimal(n))
  {
    DecimalIsParsed(n);
    DigitsAreWord(Decimal(n));
  }

  lemma DigitsAreWord(s: string)
    requires IsDigits(s)
    ensures IsWord(s)
  {
    forall i | 0 <= i < |s| ensures !IsWhitespace(s[i]) {
      assert '0' <= s[i] <= '9';
    }
  }

  lemma FieldsAreWords(family: Family, source: string, destination: string, sourcePort: nat, destinationPort: nat)
    requires IsWord(source) && IsWord(destination)
    ensures forall i :: 0 <= i < 6 ==> IsWord(Fields(family, source, destination, sourcePort, destinationPort)[i])
  {
    DecimalIsWord(sourcePort);
    DecimalIsWord(destinationPort);
    assert IsWord("PROXY") && IsWord("TCP4") && IsWord("TCP6");
  }

  /** The words of a line, and what follows them, are what its header is made of. */
  lemma LineIsWords(words: seq<string>, tail: string, parseIp: IpParser, rest: seq<Byte>)
    requires words != [] && (forall i :: 0 <= i < |words| ==> IsWord(words[i])) && StartsBlank(tail) && '\n' !in tail
    ensures var line := Line(Spaced(words) + tail);
      FirstCrlf(line + rest, |line|) && ParseHeader(line, parseIp) == HeaderOf(words + Words(tail), parseIp)
  {
    WordsOfSpaced(words, tail);
    SpacedHasNoNewline(words);
    LineEndsFirst(Spaced(words) + tail, rest);
    LineIsParsed(Spaced(words) + tail, parseIp);
  }

  lemma BareLineIsWords(words: seq<string>, parseIp: IpParser, rest: seq<Byte>)
    requires words != [] && (forall i :: 0 <= i < |words| ==> IsWord(words[i]))
    ensures var line := Line(Spaced(words));
      FirstCrlf(line + rest, |line|) && ParseHeader(line, parseIp) == HeaderOf(words, parseIp)
  {
    LineIsWords(words, "", parseIp, rest);
    assert Spaced(words) + "" == Spaced(words) && words + Words("") == words;
  }

  lemma FieldsNameAddress(family: Family, source: string, destination: string, sourcePort: nat, destinationPort: nat, ip: Ip, parseIp: IpParser)
    requires parseIp(source) == Some(ip) && sourcePort < 0x10000
    ensures NamesAddress(Fields(family, source, destination, sourcePort, destinationPort), parseIp, ip, sourcePort)
  {
    var port, other := Decimal(sourcePort), Decimal(destinationPort);
    PortIsRead(sourcePort, port);
    FieldNames(family);
    assert Fields(family, source, destination, sourcePort, destinationPort) == ["PROXY", FamilyName(family), source, destination, port, other];
  }

  lemma PortIsRead(n: nat, numeral: string)
    requires n < 0x10000 && numeral == Decimal(n)
    ensures ParseU16(numeral) == Some(n)
  {
    PortRoundTrip(n);
  }

  lemma FieldNames(family: Family)
    ensures FamilyName(family) in {"TCP4", "TCP6"}
  {
  }

  /** A printed header of a proxied connection is read as the printed source address and port,
      and nothing of what follows it is touched. */
  lemma ProxiedHeaderRoundTrip(family: Family, source: string, destination: string, sourcePort: nat, destinationPort: nat,
                               ip: Ip, parseIp: IpParser, rest: seq<Byte>)
    requires IsWord(source) && IsWord(destination) && parseIp(source) == Some(ip) && sourcePort < 0x10000
    ensures var line := Line(Spaced(Fields(family, source, destination, sourcePort, destinationPort)));
      FirstCrlf(line + rest, |line|) && ParseHeader(line, parseIp) == Address(ip, sourcePort)
  {
    var fields := Fields(family, source, destination, sourcePort, destinationPort);
    FieldsAreWords(family, source, destination, sourcePort, destinationPort);
    BareLineIsWords(fields, parseIp, rest);
    FieldsNameAddress(family, source, destination, sourcePort, destinationPort, ip, parseIp);
    HeaderIs(fields, parseIp, ip, sourcePort);
  }

  /** A header of an unknown connection carries no address, whatever follows on its line. */
  lemma UnknownHeaderRoundTrip(tail: string, parseIp: IpParser, rest: seq<Byte>)
    requires StartsBlank(tail) && '\n' !in tail
    ensures var line := Line(Spaced(["PROXY", "UNKNOWN"]) + tail);
      FirstCrlf(line + rest, |line|) && ParseHeader(line, parseIp) == NoAddress
  {
    var words := ["PROXY", "UNKNOWN"];
    assert IsWord("PROXY") && IsWord("UNKNOWN");
    LineIsWords(words, tail, parseIp, rest);
  }

  // --------------------------------------------------------------- printed headers are read

  /** The first line break of a stream decides what reading it comes to. */
  lemma ReadsLine(line: seq<Byte>, rest: seq<Byte>, ending: Ending, parseIp: IpParser, result: ReadResult, taken: nat)
    requires FirstCrlf(line + rest, |line|) && Reads(line + rest, ending, parseIp, result, taken)
    ensures |line| <= MAX_LENGTH ==> taken == |line| && result == Read(ParseHeader(line, parseIp))
    ensures |line| > MAX_LENGTH ==> result == TooLong
  {
    assert (line + rest)[..|line|] == line;
    OneFirstCrlf(line + rest, |line|);
  }

  /** Whatever follows a printed header, the reader takes its line and no more and gives the
      printed source address and port, or refuses the line for its length. */
  lemma ProxiedHeaderIsRead(family: Family, source: string, destination: string, sourcePort: nat, destinationPort: nat,
                            ip: Ip, parseIp: IpParser, rest: seq<Byte>, ending: Ending, result: ReadResult, taken: nat)
    requires IsWord(source) && IsWord(destination) && parseIp(source) == Some(ip) && sourcePort < 0x10000
    requires Reads(Line(Spaced(Fields(family, source, destination, sourcePort, destinationPort))) + rest, ending, parseIp, result, taken)
    ensures var line := Line(Spaced(Fields(family, source, destination, sourcePort, destinationPort)));
      if |line| <= 108 then result == Read(Address(ip, sourcePort)) && taken == |line| else result == TooLong
  {
    ProxiedHeaderRoundTrip(family, source, destination, sourcePort, destinationPort, ip, parseIp, rest);
    ReadsLine(Line(Spaced(Fields(family, source, destination, sourcePort, destinationPort))), rest, ending, parseIp, result, taken);
  }

  /** The same for an unknown connection, whose line fits exactly when its tail leaves room. */
  lemma UnknownHeaderIsRead(tail: string, parseIp: IpParser, rest: seq<Byte>, ending: Ending, result: ReadResult, taken: nat)
    requires StartsBlank(tail) && '\n' !in tail
    requires Reads(Line(Spaced(["PROXY", "UNKNOWN"]) + tail) + rest, ending, parseIp, result, taken)
    ensures |Encode(tail)| <= 93 ==> result == Read(NoAddress) && taken == |Encode(tail)| + 15
    ensures |Encode(tail)| > 93 ==> result == TooLong
  {
    var line := Line(Spaced(["PROXY", "UNKNOWN"]) + tail);
    UnknownHeaderRoundTrip(tail, parseIp, rest);
    ReadsLine(line, rest, ending, parseIp, result, taken);
    UnknownLineSize(tail);
  }

  lemma UnknownLineSize(tail: string)
    ensures |Line(Spaced(["PROXY", "UNKNOWN"]) + tail)| == |Encode(tail)| + 15
  {
    TwoWordLineSize(["PROXY", "UNKNOWN"], tail);
  }

  lemma TwoWordLineSize(words: seq<string>, tail: string)
    requires |words| == 2 && IsAscii(words[0]) && IsAscii(words[1])
    ensures |Line(Spaced(words) + tail)| == |words[0]| + 1 + |words[1]| + |Encode(tail)| + 2
  {
    LineSize(words, tail);
    TwoWordsSize(words);
  }

  lemma LineSize(words: seq<string>, tail: string)
    ensures |Line(Spaced(words) + tail)| == SpacedSize(words) + |Encode(tail)| + 2
  {
    LineBytes(Spaced(words) + tail);
    EncodeAppend(Spaced(words), tail);
    SpacedBytes(words);
  }

  lemma TwoWordsSize(words: seq<string>)
    requires |words| == 2 && IsAscii(words[0]) && IsAscii(words[1])
    ensures SpacedSize(words) == |words[0]| + 1 + |words[1]|
  {
    assert SpacedSize(words[1..]) == |Encode(words[1])|;
    AsciiBytes(words[0]);
    AsciiBytes(words[1]);
  }

  function SpacedSize(words: seq<string>): nat {
    if words == [] then 0
    else |Encode(words[0])| + (if |words| == 1 then 0 else 1 + SpacedSize(words[1..]))
  }

  lemma {:induction false} SpacedBytes(words: seq<string>)
    ensures |Encode(Spaced(words))| == SpacedSize(words)
    decreases |words|
  {
    if |words| > 1 {
      SpacedBytes(words[1..]);
      EncodeAppend(words[0] + " ", Spaced(words[1..]));
      EncodeAppend(words[0], " ");
      AsciiBytes(" ");
    }
  }

  lemma AsciiBytes(s: string)
    requires IsAscii(s)
    ensures |Encode(s)| == |s|
  {
    LossyPrefix(s, []);
  }

  function Power(width: nat): nat { if width == 0 then 1 else 10 * Power(width - 1) }

  lemma {:induction false} DecimalWidth(n: nat, width: nat)
    requires width > 0 && n < Power(width)
    ensures |Decimal(n)| <= width
    decreases width
  {
    if n >= 10 {
      DecimalWidth(n / 10, width - 1);
    }
  }

  lemma PortBytes(port: nat)
    requires port < 0x10000
    ensures |Encode(Decimal(port))| <= 5
  {
    assert Power(2) == 100 && Power(4) == 10000;
    DecimalWidth(port, 5);
    DecimalIsParsed(port);
    AsciiBytes(Decimal(port));
  }

  /** Headers with addresses as wide as the specification allows, 39 characters for TCP6 and fewer
      for TCP4, fit: they are at most 104 bytes long. */
  lemma ProxiedHeaderFits(family: Family, source: string, destination: string, sourcePort: nat, destinationPort: nat)
    requires |Encode(source)| <= 39 && |Encode(destination)| <= 39 && sourcePort < 0x10000 && destinationPort < 0x10000
    ensures |Line(Spaced(Fields(family, source, destination, sourcePort, destinationPort)))| <= 104
  {
    var fields := Fields(family, source, destination, sourcePort, destinationPort);
    LineSize(fields, "");
    assert Spaced(fields) + "" == Spaced(fields);
    PortBytes(sourcePort);
    PortBytes(destinationPort);
    AsciiBytes(fields[0]);
    AsciiBytes(fields[1]);
    FieldsSize(fields);
  }

  lemma FieldsSize(f: seq<string>)
    requires |f| == 6
    ensures SpacedSize(f) ==
            |Encode(f[0])| + |Encode(f[1])| + |Encode(f[2])| + |Encode(f[3])| + |Encode(f[4])| + |Encode(f[5])| + 5
  {
    assert SpacedSize(f[5..]) == |Encode(f[5])|;
    assert f[4..][1..] == f[5..] && f[3..][1..] == f[4..] && f[2..][1..] == f[3..] && f[1..][1..] == f[2..];
    assert SpacedSize(f[3..]) == |Encode(f[3])| + 1 + SpacedSize(f[4..]);
    assert SpacedSize(f[1..]) == |Encode(f[1])| + 1 + SpacedSize(f[2..]);
  }
}
