/** What the reader makes of any header block: which lines count, which end the frame, and what
    is then read. */
module FramingHeaders {
  import opened Options
  import opened Decimal
  import opened Framing
  import opened FramingRoundTrip

  const CONTENT_LENGTH := "content-length"
  const CONTENT_TYPE := "content-type"

  /** The same text up to the case of its ASCII letters. */
  predicate SameLetters(a: string, b: string) {
    |a| == |b| && forall i :: 0 <= i < |a| ==>
      || a[i] == b[i]
      || ('A' <= a[i] <= 'Z' && b[i] as int == a[i] as int + 32)
      || ('A' <= b[i] <= 'Z' && a[i] as int == b[i] as int + 32)
  }

  /** A line with this key in front of its first colon, in whatever letters. */
  predicate IsHeader(line: string, name: string): (r: bool)
    ensures r ==> ':' in line
  {
    ':' in line && SameLetters(line[..Colon(line)], name)
  }

  function Colon(line: string): (i: nat)
    requires ':' in line
    ensures i < |line| && line[i] == ':' && ':' !in line[..i]
  {
    IndexOfColon(line)
  }

  function Value(line: string): string
    requires ':' in line
  {
    TrimSpace(line[Colon(line) + 1..])
  }

  /** A length the reader takes: up to 16 MiB. */
  predicate IsLength(line: string, n: int) {
    IsHeader(line, CONTENT_LENGTH) && Atoi(Value(line)) == Some(n) && 0 <= n <= 16777216
  }

  /** A length that is a number, but too large. */
  predicate Oversize(line: string) {
    IsHeader(line, CONTENT_LENGTH) && Atoi(Value(line)).Some? && Atoi(Value(line)).value > 16777216
  }

  /** No colon, or a length that is no number or a negative one. */
  predicate Malformed(line: string) {
    ':' !in line
    || (IsHeader(line, CONTENT_LENGTH) && (Atoi(Value(line)).None? || Atoi(Value(line)).value < 0))
  }

  predicate Bad(line: string) {
    Oversize(line) || Malformed(line)
  }

  /** The lines of a header block, as ReadHeaderLine gives them. */
  predicate Plain(line: string) {
    line != "" && CrFree(line) && |line| <= 8192
  }

  function Block(lines: seq<string>): string {
    if lines == [] then "\r\n" else lines[0] + "\r\n" + Block(lines[1..])
  }

  // ----- one line -----

  lemma LowerIsSame(a: string, name: string)
    requires forall i :: 0 <= i < |name| ==> !('A' <= name[i] <= 'Z')
    ensures ToLower(a) == name <==> SameLetters(a, name)
  {
    if SameLetters(a, name) {
      assert forall i :: 0 <= i < |a| ==> ToLower(a)[i] == name[i];
    }
  }

  lemma NamesAreLower()
    ensures forall i :: 0 <= i < |CONTENT_LENGTH| ==> !('A' <= CONTENT_LENGTH[i] <= 'Z')
    ensures forall i :: 0 <= i < |CONTENT_TYPE| ==> !('A' <= CONTENT_TYPE[i] <= 'Z')
    ensures |CONTENT_LENGTH| == 14 && |CONTENT_TYPE| == 12
  {
    assert CONTENT_LENGTH == ['c', 'o', 'n', 't', 'e', 'n', 't', '-', 'l', 'e', 'n', 'g', 't', 'h'];
    assert CONTENT_TYPE == ['c', 'o', 'n', 't', 'e', 'n', 't', '-', 't', 'y', 'p', 'e'];
  }

  lemma NotTwoHeaders(line: string)
    ensures !(IsHeader(line, CONTENT_LENGTH) && IsHeader(line, CONTENT_TYPE))
  {
    NamesAreLower();
  }

  /** The effect of one line, whatever was gathered before: a bad one ends the frame, a length or
      type replaces the one before, and any other header is ignored. */
  lemma HeaderExactly(line: string, length: int, contentType: string)
    ensures Header(line, length, contentType) ==
            if Oversize(line) then BadHeaders(TooLarge)
            else if Malformed(line) then BadHeaders(ParseError)
            else if IsHeader(line, CONTENT_LENGTH) then Headers(Atoi(Value(line)).value, contentType)
            else if IsHeader(line, CONTENT_TYPE) then Headers(length, Value(line))
            else Headers(length, contentType)
  {
    hide SameLetters, ToLower, Atoi, TrimSpace, Trimmed;
    if ':' in line {
      var key, value := line[..Colon(line)], Value(line);
      KeyIs(key);
      TrimSpaceProps(line[Colon(line) + 1..]);
      TrimSpaceOfTrimmed(value);
      assert SplitHeader(line) == Some((key, value)) && TrimSpace(value) == value;
    }
  }

  lemma KeyIs(key: string)
    ensures ToLower(key) == CONTENT_LENGTH <==> SameLetters(key, CONTENT_LENGTH)
    ensures ToLower(key) == CONTENT_TYPE <==> SameLetters(key, CONTENT_TYPE)
  {
    NamesAreLower();
    LowerIsSame(key, CONTENT_LENGTH);
    LowerIsSame(key, CONTENT_TYPE);
  }

  // ----- the block -----

  function LengthIn(lines: seq<string>, default: int): int {
    if lines == [] then default
    else LengthIn(lines[1..], if IsHeader(lines[0], CONTENT_LENGTH) && Atoi(Value(lines[0])).Some?
                              then Atoi(Value(lines[0])).value else default)
  }

  function TypeIn(lines: seq<string>, default: string): string {
    if lines == [] then default
    else TypeIn(lines[1..], if IsHeader(lines[0], CONTENT_TYPE) then Value(lines[0]) else default)
  }

  lemma ReadsOneLine(line: string, rest: string, more: string, length: int, contentType: string, sawAny: bool)
    requires Plain(line)
    ensures ReadHeaders(line + "\r\n" + rest + more, length, contentType, sawAny) ==
            match Header(line, length, contentType)
            case BadHeaders(error) => (BadHeaders(error), rest + more)
            case Headers(length', contentType') => ReadHeaders(rest + more, length', contentType', true)
  {
    hide Header;
    assert line + "\r\n" + rest + more == line + "\r\n" + (rest + more);
    ScanExactLine(line, rest + more, "");
    assert "" + line == line;
  }

  lemma {:induction false} GoodBlock(lines: seq<string>, more: string, length: int, contentType: string, sawAny: bool)
    requires forall line :: line in lines ==> Plain(line) && !Bad(line)
    ensures ReadHeaders(Block(lines) + more, length, contentType, sawAny)
         == (Headers(LengthIn(lines, length), TypeIn(lines, contentType)), more)
    decreases |lines|
  {
    hide ReadHeaders, Header, IsHeader, Value, Plain;
    if lines == [] {
      BlankLine(more, length, contentType, sawAny);
    } else {
      var line := lines[0];
      assert line in lines;
      NotTwoHeaders(line);
      HeaderExactly(line, length, contentType);
      ReadsOneLine(line, Block(lines[1..]), more, length, contentType, sawAny);
      var h := Header(line, length, contentType);
      GoodBlock(lines[1..], more, h.length, h.contentType, true);
    }
  }

  lemma BlankLine(more: string, length: int, contentType: string, sawAny: bool)
    ensures ReadHeaders("\r\n" + more, length, contentType, sawAny) == (Headers(length, contentType), more)
  {
    ScanExactLine("", more, "");
    assert "" + "\r\n" + more == "\r\n" + more;
  }

  lemma {:induction false} BadBlock(lines: seq<string>, i: nat, more: string, length: int, contentType: string,
                                    sawAny: bool)
    requires i < |lines| && Bad(lines[i]) && forall j :: 0 <= j <= i ==> Plain(lines[j]) && (j < i ==> !Bad(lines[j]))
    ensures ReadHeaders(Block(lines) + more, length, contentType, sawAny).0
         == BadHeaders(if Oversize(lines[i]) then TooLarge else ParseError)
    decreases |lines|
  {
    hide ReadHeaders, Header, IsHeader, Value, Plain;
    var line := lines[0];
    HeaderExactly(line, length, contentType);
    ReadsOneLine(line, Block(lines[1..]), more, length, contentType, sawAny);
    if i > 0 {
      var h := Header(line, length, contentType);
      BadBlock(lines[1..], i - 1, more, h.length, h.contentType, true);
    }
  }

  // ----- which line counts -----

  lemma {:induction false} LastLength(lines: seq<string>, default: int, i: nat, n: int)
    requires i < |lines| && IsLength(lines[i], n)
    requires forall j :: i < j < |lines| ==> !IsHeader(lines[j], CONTENT_LENGTH)
    ensures LengthIn(lines, default) == n
  {
    hide IsHeader, Value;
    var next := if IsHeader(lines[0], CONTENT_LENGTH) && Atoi(Value(lines[0])).Some?
                then Atoi(Value(lines[0])).value else default;
    if i > 0 {
      LastLength(lines[1..], next, i - 1, n);
    } else {
      NoLength(lines[1..], n);
    }
  }

  lemma {:induction false} NoLength(lines: seq<string>, default: int)
    requires forall j :: 0 <= j < |lines| ==> !IsHeader(lines[j], CONTENT_LENGTH)
    ensures LengthIn(lines, default) == default
  {
    hide IsHeader;
    if lines != [] {
      NoLength(lines[1..], default);
    }
  }

  lemma {:induction false} LastType(lines: seq<string>, default: string, i: nat)
    requires i < |lines| && IsHeader(lines[i], CONTENT_TYPE)
    requires forall j :: i < j < |lines| ==> !IsHeader(lines[j], CONTENT_TYPE)
    ensures TypeIn(lines, default) == Value(lines[i])
  {
    hide IsHeader, Value;
    var next := if IsHeader(lines[0], CONTENT_TYPE) then Value(lines[0]) else default;
    if i > 0 {
      LastType(lines[1..], next, i - 1);
    } else {
      NoType(lines[1..], next);
    }
  }

  lemma {:induction false} NoType(lines: seq<string>, default: string)
    requires forall j :: 0 <= j < |lines| ==> !IsHeader(lines[j], CONTENT_TYPE)
    ensures TypeIn(lines, default) == default
  {
    hide IsHeader;
    if lines != [] {
      NoType(lines[1..], default);
    }
  }

  /** The last line that is this header, if there is one. */
  predicate IsLast(lines: seq<string>, name: string, i: int) {
    if i < 0 then forall line :: line in lines ==> !IsHeader(line, name)
    else i < |lines| && IsHeader(lines[i], name) && forall j :: i < j < |lines| ==> !IsHeader(lines[j], name)
  }

  lemma TypeOfLast(lines: seq<string>, i: int)
    requires IsLast(lines, CONTENT_TYPE, i)
    ensures TypeIn(lines, "") == if i < 0 then "" else Value(lines[i])
  {
    hide IsHeader, Value;
    if i < 0 {
      assert forall j :: 0 <= j < |lines| ==> lines[j] in lines;
      NoType(lines, "");
    } else {
      LastType(lines, "", i);
    }
  }

  // ----- the frame -----

  /** The first line that is bad decides the error, whatever follows. */
  lemma BadHeaderEnds(lines: seq<string>, i: nat, more: string)
    requires i < |lines| && Bad(lines[i]) && forall j :: 0 <= j <= i ==> Plain(lines[j]) && (j < i ==> !Bad(lines[j]))
    ensures ReadOne(Block(lines) + more).0 == Failed(if Oversize(lines[i]) then TooLarge else ParseError)
  {
    hide ReadHeaders, Bad, Plain, Oversize;
    BadBlock(lines, i, more, -1, "", false);
  }

  /** A block of good lines without a length is no frame; unknown headers do not matter. */
  lemma LengthIsNeeded(lines: seq<string>, more: string)
    requires forall line :: line in lines ==> Plain(line) && !Bad(line) && !IsHeader(line, CONTENT_LENGTH)
    ensures ReadOne(Block(lines) + more) == (Failed(ParseError), more)
  {
    hide ReadHeaders, Bad, Plain, IsHeader;
    GoodBlock(lines, more, -1, "", false);
    assert forall j :: 0 <= j < |lines| ==> lines[j] in lines;
    NoLength(lines, -1);
  }

  /** A block of good lines gives the frame of its last length and its last type, in whatever
      letters their keys are written and among whatever other headers; or it is cut off by the
      end of the stream, or refused for a byte order mark. */
  lemma GoodHeadersRead(lines: seq<string>, k: nat, n: nat, t: int, more: string)
    requires forall line :: line in lines ==> Plain(line) && !Bad(line)
    requires IsLast(lines, CONTENT_LENGTH, k) && IsLength(lines[k], n) && IsLast(lines, CONTENT_TYPE, t)
    ensures var ct := if t < 0 then "" else Value(lines[t]);
            ReadOne(Block(lines) + more) ==
            if |more| < n then (Failed(TruncatedBody), "")
            else if n >= 3 && more[..3] == ['\U{EF}', '\U{BB}', '\U{BF}'] then (Failed(ParseError), more[n..])
            else (Got(Frame(n, ct, more[..n])), more[n..])
  {
    hide ReadHeaders, Bad, Plain, IsHeader, Value, IsLength;
    GoodBlock(lines, more, -1, "", false);
    LastLength(lines, -1, k, n);
    TypeOfLast(lines, t);
    hide IsLast;
    if |more| >= n {
      assert forall j :: 0 <= j < n ==> more[..n][j] == more[j];
    }
  }

  /** A line ends at the first CR, which has to be followed by LF, within 8192 bytes. */
  lemma LineExactly(line: string, next: char, rest: string)
    requires CrFree(line) && |line| <= 8192
    ensures ScanLine(line + "\r\n" + rest, "") == (Line(line), rest)
    ensures next != '\n' ==> ScanLine(line + "\r" + [next] + rest, "").0 == LineMalformed
    ensures ScanLine(line, "").0 == LineEOF && ScanLine(line + "\r", "").0 == LineEOF
    ensures |line| == 8192 && next != '\r' ==> ScanLine(line + [next] + rest, "").0 == LineMalformed
  {
    ScanExactLine(line, rest, "");
    assert "" + line == line;
    ScanToEnd(line, "", "");
    ScanToEnd(line, "\r", "");
    assert line + "" == line;
    ScanToEnd(line, "\r" + [next] + rest, "");
    assert line + "\r" + [next] + rest == line + ("\r" + [next] + rest);
    ScanToEnd(line, [next] + rest, "");
    assert line + [next] + rest == line + ([next] + rest);
  }

  lemma {:induction false} ScanToEnd(line: string, rest: string, acc: string)
    requires CrFree(line) && |acc| + |line| <= MAX_LINE
    ensures ScanLine(line + rest, acc) == ScanLine(rest, acc + line)
    decreases |line|
  {
    if line == "" {
      assert line + rest == rest && acc + line == acc;
    } else {
      ScanToEnd(line[1..], rest, acc + [line[0]]);
      assert (line + rest)[1..] == line[1..] + rest;
      assert acc + [line[0]] + line[1..] == acc + line;
    }
  }

  /** What is written is such a block: the length, then the type, then a blank line and the
      body. */
  lemma WrittenBlock(f: Frame)
    requires Accepted(f)
    ensures Encode(f) == Block(["Content-Length: " + Digits(f.contentLength),
                                "Content-Type: " + if f.contentType == "" then CANONICAL else f.contentType]) + f.body
  {
    var first, second := "Content-Length: " + Digits(f.contentLength), "Content-Type: " + TypeOf(f);
    hide Digits;
    var lines := [first, second];
    assert lines[1..] == [second] && lines[1..][1..] == [];
    assert Block([second]) == second + "\r\n" + Block([]);
    assert Block(lines) == first + "\r\n" + (second + "\r\n" + "\r\n");
    assert Encode(f) == first + "\r\n" + second + "\r\n" + "\r\n" + f.body;
  }
}
