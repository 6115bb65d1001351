/** Strings as Rust's standard library treats them: white space, trimming, splitting. */
module Text {
  import opened Sequences
  import opened Wrappers

  /** The characters with the Unicode property White_Space. */
  predicate IsWhitespace(c: char) {
    || '\t' <= c <= '\r' || c == ' ' || c == '\U{85}' || c == '\U{A0}' || c == '\U{1680}'
    || '\U{2000}' <= c <= '\U{200A}' || c == '\U{2028}' || c == '\U{2029}'
    || c == '\U{202F}' || c == '\U{205F}' || c == '\U{3000}'
  }

  predicate Blank(s: string) { forall i :: 0 <= i < |s| ==> IsWhitespace(s[i]) }

  predicate Tight(s: string) { s == "" || (!IsWhitespace(s[0]) && !IsWhitespace(s[|s| - 1])) }

  function TrimStart(s: string): string {
    if s != "" && IsWhitespace(s[0]) then TrimStart(s[1..]) else s
  }

  function TrimEnd(s: string): string {
    if s != "" && IsWhitespace(s[|s| - 1]) then TrimEnd(s[..|s| - 1]) else s
  }

  function Trim(s: string): string { TrimEnd(TrimStart(s)) }

  lemma {:induction false} TrimStartOf(pre: string, s: string)
    requires Blank(pre) && (s == "" || !IsWhitespace(s[0]))
    ensures TrimStart(pre + s) == s
    decreases |pre|
  {
    if pre == "" {
      assert pre + s == s;
    } else {
      assert (pre + s)[1..] == pre[1..] + s;
      TrimStartOf(pre[1..], s);
    }
  }

  lemma {:induction false} TrimEndOf(s: string, post: string)
    requires Blank(post) && (s == "" || !IsWhitespace(s[|s| - 1]))
    ensures TrimEnd(s + post) == s
    decreases |post|
  {
    if post == "" {
      assert s + post == s;
    } else {
      assert (s + post)[..|s + post| - 1] == s + post[..|post| - 1];
      TrimEndOf(s, post[..|post| - 1]);
    }
  }

  /** Trimming removes exactly the white space around. */
  lemma TrimOf(pre: string, s: string, post: string)
    requires Blank(pre) && Tight(s) && Blank(post)
    ensures Trim(pre + s + post) == s
  {
    if s == "" {
      assert pre + s + post == (pre + post) + "";
      TrimStartOf(pre + post, "");
    } else {
      assert pre + s + post == pre + (s + post);
      TrimStartOf(pre, s + post);
      TrimEndOf(s, post);
    }
  }

  /** Every string is white space around its trimmed self. */
  lemma {:induction false} TrimSplits(s: string) returns (pre: string, post: string)
    ensures s == pre + Trim(s) + post && Blank(pre) && Blank(post) && Tight(Trim(s))
  {
    pre := TrimStartSplits(s);
    post := TrimEndSplits(TrimStart(s));
    if Trim(s) != "" {
      assert TrimStart(s)[0] == Trim(s)[0];
    }
  }

  lemma {:induction false} TrimStartSplits(s: string) returns (pre: string)
    ensures s == pre + TrimStart(s) && Blank(pre)
    ensures TrimStart(s) == "" || !IsWhitespace(TrimStart(s)[0])
    decreases |s|
  {
    if s != "" && IsWhitespace(s[0]) {
      pre := TrimStartSplits(s[1..]);
      pre := s[..1] + pre;
    } else {
      pre := "";
    }
  }

  lemma {:induction false} TrimEndSplits(s: string) returns (post: string)
    ensures s == TrimEnd(s) + post && Blank(post)
    ensures TrimEnd(s) == "" || !IsWhitespace(TrimEnd(s)[|TrimEnd(s)| - 1])
    decreases |s|
  {
    if s != "" && IsWhitespace(s[|s| - 1]) {
      var front, last := s[..|s| - 1], [s[|s| - 1]];
      var rest := TrimEndSplits(front);
      post := rest + last;
      LastOff(s);
      Reassociate(TrimEnd(s), rest, last);
    } else {
      post := "";
    }
  }

  lemma TrimTight(s: string)
    requires Tight(s)
    ensures Trim(s) == s
  {
    assert "" + s + "" == s;
    TrimOf("", s, "");
  }

  /** Nothing is left exactly when there was only white space. */
  lemma TrimmedAway(s: string)
    ensures Trim(s) == "" <==> Blank(s)
  {
    var pre, post := TrimSplits(s);
    if Blank(s) {
      assert s + "" + "" == s;
      TrimOf(s, "", "");
    }
  }

  // --------------------------------------------------------------- words

  function WordLength(s: string): (n: nat)
    ensures n <= |s|
    ensures forall i :: 0 <= i < n ==> !IsWhitespace(s[i])
    ensures n < |s| ==> IsWhitespace(s[n])
  {
    if s == "" || IsWhitespace(s[0]) then 0 else 1 + WordLength(s[1..])
  }

  /** str::split_whitespace(). */
  function Words(s: string): seq<string>
    decreases |s|
  {
    if s == "" then []
    else if IsWhitespace(s[0]) then Words(s[1..])
    else [s[..WordLength(s)]] + Words(s[WordLength(s)..])
  }

  predicate IsWord(s: string) { s != "" && forall i :: 0 <= i < |s| ==> !IsWhitespace(s[i]) }

  predicate StartsBlank(s: string) { s == "" || IsWhitespace(s[0]) }

  lemma {:induction false} WordLengthOf(word: string, rest: string)
    requires (forall i :: 0 <= i < |word| ==> !IsWhitespace(word[i])) && StartsBlank(rest)
    ensures WordLength(word + rest) == |word|
    decreases |word|
  {
    if word == "" {
      assert word + rest == rest;
    } else {
      assert (word + rest)[1..] == word[1..] + rest;
      WordLengthOf(word[1..], rest);
    }
  }

  /** The first word of a text, when white space or nothing follows it. */
  lemma FirstWord(word: string, rest: string)
    requires IsWord(word) && StartsBlank(rest)
    ensures Words(word + rest) == [word] + Words(rest)
  {
    WordLengthOf(word, rest);
    assert (word + rest)[..|word|] == word && (word + rest)[|word|..] == rest;
  }

  lemma WordThenSpace(word: string, text: string)
    requires IsWord(word)
    ensures Words(word + (" " + text)) == [word] + Words(text)
  {
    FirstWord(word, " " + text);
    assert (" " + text)[1..] == text;
  }

  /** Words with single spaces between them. */
  function Spaced(words: seq<string>): string {
    if words == [] then "" else if |words| == 1 then words[0] else words[0] + " " + Spaced(words[1..])
  }

  lemma SpacedFirst(word: string, rest: string, tail: string)
    ensures word + " " + rest + tail == word + (" " + (rest + tail))
  {
  }

  lemma {:induction false} WordsOfSpaced(words: seq<string>, tail: string)
    requires words != [] && (forall i :: 0 <= i < |words| ==> IsWord(words[i])) && StartsBlank(tail)
    ensures Words(Spaced(words) + tail) == words + Words(tail)
    decreases |words|
  {
    var rest := words[1..];
    if rest == [] {
      FirstWord(words[0], tail);
    } else {
      WordsOfSpaced(rest, tail);
      WordThenSpace(words[0], Spaced(rest) + tail);
      SpacedFirst(words[0], Spaced(rest), tail);
      Reassociate([words[0]], rest, Words(tail));
      assert [words[0]] + rest == words;
    }
  }

  // --------------------------------------------------------------- numbers

  predicate IsDigits(s: string) { s != "" && forall i :: 0 <= i < |s| ==> '0' <= s[i] <= '9' }

  function DigitsValue(s: string): nat
    requires forall i :: 0 <= i < |s| ==> '0' <= s[i] <= '9'
  {
    if s == "" then 0 else DigitsValue(s[..|s| - 1]) * 10 + (s[|s| - 1] as int - '0' as int)
  }

  /** str::parse::<u16>(): digits, with an optional plus sign, of a value that fits. */
  function ParseU16(s: string): Option<nat> {
    var digits := if s != "" && s[0] == '+' then s[1..] else s;
    if IsDigits(digits) && DigitsValue(digits) < 0x10000 then Some(DigitsValue(digits)) else None
  }

  /** The shortest decimal numeral. */
  function Decimal(n: nat): string {
    (if n < 10 then "" else Decimal(n / 10)) + [('0' as int + n % 10) as char]
  }

  lemma {:induction false} DecimalIsParsed(n: nat)
    ensures IsDigits(Decimal(n)) && DigitsValue(Decimal(n)) == n
  {
    if n >= 10 {
      DecimalIsParsed(n / 10);
    }
    var rest := if n < 10 then "" else Decimal(n / 10);
    assert Decimal(n)[..|Decimal(n)| - 1] == rest;
  }

  /** A numeral is read exactly when it fits into 16 bits, also with a plus sign. */
  lemma PortRoundTrip(n: nat)
    ensures ParseU16(Decimal(n)) == if n < 0x10000 then Some(n) else None
    ensures ParseU16("+" + Decimal(n)) == ParseU16(Decimal(n))
  {
    DecimalIsParsed(n);
    assert ("+" + Decimal(n))[1..] == Decimal(n);
    assert '0' <= Decimal(n)[0] <= '9';
  }

  /** Nothing but digits after at most one plus sign is read. */
  lemma OnlyDigitsAreRead(s: string)
    requires ParseU16(s).Some?
    ensures s != "" && forall i :: 0 <= i < |s| ==> '0' <= s[i] <= '9' || (i == 0 && s[0] == '+' && |s| > 1)
  {
    if s[0] == '+' {
      assert forall i :: 1 <= i < |s| ==> s[i] == s[1..][i - 1];
    }
  }
}
