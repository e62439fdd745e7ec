/** The stdio frame codec (protocol/frame.go).  Byte strings are Dafny strings, one char a
    byte. */
module Framing {
  import opened Options
  import opened Decimal

  datatype Frame = Frame(contentLength: int, contentType: string, body: string)

  const MAX_BODY := 16 * 1024 * 1024
  const MAX_LINE := 8192
  const CANONICAL := "application/vscode-jsonrpc; charset=utf-8"

  datatype ReadError = ShuttingDown | CleanEOF | ParseError | TooLarge | TruncatedBody

  datatype ReadResult = Got(frame: Frame) | Failed(error: ReadError)

  // ----- header lines -----

  datatype LineOutcome = Line(text: string) | LineEOF | LineMalformed

  /** A header line, gathered byte by byte, and the bytes that remain. */
  function ScanLine(s: string, acc: string): (r: (LineOutcome, string))
    ensures r.0.Line? ==> |r.1| + 2 <= |s|
  {
    if s == "" then (LineEOF, "")
    else if s[0] == '\r' then
      if |s| == 1 then (LineEOF, "")
      else if s[1] != '\n' then (LineMalformed, s[2..])
      else (Line(acc), s[2..])
    else if |acc| >= MAX_LINE then (LineMalformed, s[1..])
    else ScanLine(s[1..], acc + [s[0]])
  }

  function IndexOfColon(line: string): (i: int)
    ensures -1 <= i < |line|
    ensures i >= 0 ==> line[i] == ':'
    ensures forall k :: 0 <= k < (if i >= 0 then i else |line|) ==> line[k] != ':'
  {
    if line == "" then -1
    else if line[0] == ':' then 0
    else
      var rest := IndexOfColon(line[1..]);
      if rest < 0 then -1 else rest + 1
  }

  predicate IsSpace(c: char) {
    c == ' ' || c == '\t' || c == '\n' || c == '\r' || c == '\U{0B}' || c == '\U{0C}'
  }

  /** One space character in UTF-8: an ASCII space, U+0085, U+00A0, U+1680, U+2000 to U+200A,
      U+2028, U+2029, U+202F, U+205F or U+3000. */
  predicate IsSpaceRune(r: string) {
    || (|r| == 1 && IsSpace(r[0]))
    || (|r| == 2 && r[0] == '\U{C2}' && (r[1] == '\U{85}' || r[1] == '\U{A0}'))
    || (|r| == 3 && r[0] == '\U{E1}' && r[1] == '\U{9A}' && r[2] == '\U{80}')
    || (|r| == 3 && r[0] == '\U{E2}' && r[1] == '\U{80}'
        && ('\U{80}' <= r[2] <= '\U{8A}' || r[2] in {'\U{A8}', '\U{A9}', '\U{AF}'}))
    || (|r| == 3 && r[0] == '\U{E2}' && r[1] == '\U{81}' && r[2] == '\U{9F}')
    || (|r| == 3 && r[0] == '\U{E3}' && r[1] == '\U{80}' && r[2] == '\U{80}')
  }

  predicate BeginsWithSpace(s: string, n: nat) {
    n <= |s| && IsSpaceRune(s[..n])
  }

  predicate EndsWithSpace(s: string, n: nat) {
    n <= |s| && IsSpaceRune(s[|s| - n..])
  }

  /** The number of bytes of the space character a string begins with, 0 if with none. */
  function SpaceAtFront(s: string): (n: nat)
    ensures n <= |s|
  {
    if BeginsWithSpace(s, 1) then 1
    else if BeginsWithSpace(s, 2) then 2
    else if BeginsWithSpace(s, 3) then 3
    else 0
  }

  function SpaceAtBack(s: string): (n: nat)
    ensures n <= |s|
  {
    if EndsWithSpace(s, 1) then 1
    else if EndsWithSpace(s, 2) then 2
    else if EndsWithSpace(s, 3) then 3
    else 0
  }

  function TrimLeft(s: string): string {
    var n := SpaceAtFront(s);
    if n > 0 then TrimLeft(s[n..]) else s
  }

  function TrimRight(s: string): string {
    var n := SpaceAtBack(s);
    if n > 0 then TrimRight(s[..|s| - n]) else s
  }

  /** strings.TrimSpace. */
  function TrimSpace(s: string): string {
    TrimRight(TrimLeft(s))
  }

  /** splitHeader. */
  function SplitHeader(line: string): Option<(string, string)> {
    var i := IndexOfColon(line);
    if i < 0 then None else Some((line[..i], TrimSpace(line[i + 1..])))
  }

  function ToLower(s: string): string {
    seq(|s|, i requires 0 <= i < |s| =>
      if 'A' <= s[i] <= 'Z' then (s[i] as int + 32) as char else s[i])
  }

  const MAX_INT := 0x7fff_ffff_ffff_ffff

  /** strconv.Atoi. */
  function Atoi(s: string): Option<int> {
    var negative := s != "" && s[0] == '-';
    var digits := if s != "" && (s[0] == '-' || s[0] == '+') then s[1..] else s;
    if digits == "" || !AllDigits(digits) then None
    else
      var value: int := ValueOf(digits);
      var n := if negative then -value else value;
      if -MAX_INT - 1 <= n <= MAX_INT then Some(n) else None
  }

  // ----- reading one frame -----

  datatype Headers = Headers(length: int, contentType: string) | BadHeaders(error: ReadError)

  /** The effect of one header line on the length and type gathered so far. */
  function Header(line: string, length: int, contentType: string): Headers {
    match SplitHeader(line)
    case None => BadHeaders(ParseError)
    case Some((key, value)) =>
      if ToLower(key) == "content-length" then
        match Atoi(TrimSpace(value))
        case None => BadHeaders(ParseError)
        case Some(n) =>
          if n < 0 then BadHeaders(ParseError)
          else if n > MAX_BODY then BadHeaders(TooLarge)
          else Headers(n, contentType)
      else if ToLower(key) == "content-type" then Headers(length, TrimSpace(value))
      else Headers(length, contentType)
  }

  function ReadHeaders(s: string, length: int, contentType: string, sawAny: bool): (r: (Headers, string))
    ensures r.0.Headers? ==> |r.1| < |s|
    decreases |s|
  {
    var (line, rest) := ScanLine(s, "");
    match line
    case LineEOF => (BadHeaders(if sawAny then ParseError else CleanEOF), rest)
    case LineMalformed => (BadHeaders(ParseError), rest)
    case Line(text) =>
      if text == "" then (Headers(length, contentType), rest)
      else
        match Header(text, length, contentType)
        case BadHeaders(error) => (BadHeaders(error), rest)
        case Headers(length', contentType') => ReadHeaders(rest, length', contentType', true)
  }

  predicate HasBom(body: string) {
    |body| >= 3 && body[0] == '\U{EF}' && body[1] == '\U{BB}' && body[2] == '\U{BF}'
  }

  function ReadBody(s: string, length: int, contentType: string): (r: (ReadResult, string))
    ensures r.0.Got? ==> |r.1| <= |s|
  {
    if length < 0 then (Failed(ParseError), s)
    else if length == 0 then (Got(Frame(0, contentType, "")), s)
    else if |s| < length then (Failed(TruncatedBody), "")
    else if HasBom(s[..length]) then (Failed(ParseError), s[length..])
    else (Got(Frame(length, contentType, s[..length])), s[length..])
  }

  /** One frame off the front of a byte stream, and the bytes that remain. */
  function ReadOne(s: string): (r: (ReadResult, string))
    ensures r.0.Got? ==> |r.1| < |s|
  {
    var (headers, rest) := ReadHeaders(s, -1, "", false);
    match headers
    case BadHeaders(error) => (Failed(error), rest)
    case Headers(length, contentType) => ReadBody(rest, length, contentType)
  }

  /** Frames until the first failure. */
  function ReadAll(s: string): (seq<Frame>, ReadError)
    decreases |s|
  {
    match ReadOne(s)
    case (Failed(error), _) => ([], error)
    case (Got(frame), rest) =>
      var (frames, error) := ReadAll(rest);
      ([frame] + frames, error)
  }

  /** frameReader: a stream and how much of it has been read. */
  class FrameReader {
    var stream: string
    var pos: nat

    ghost predicate Valid()
      reads this
    {
      pos <= |stream|
    }

    function Unread(): string
      requires Valid()
      reads this
    {
      stream[pos..]
    }

    constructor (stream: string)
      ensures Valid() && Unread() == stream
    {
      this.stream, pos := stream, 0;
    }

    /** readHeaderLine. */
    method ReadHeaderLine() returns (r: LineOutcome)
      requires Valid()
      modifies this`pos
      ensures Valid() && (r, Unread()) == ScanLine(old(Unread()), "")
    {
      var buf := "";
      while pos < |stream|
        invariant pos <= |stream|
        invariant ScanLine(stream[pos..], buf) == ScanLine(old(stream[pos..]), "")
      {
        ghost var unread := stream[pos..];
        var b := stream[pos];
        pos := pos + 1;
        assert unread[1..] == stream[pos..];
        if b == '\r' {
          if pos >= |stream| { return LineEOF; }
          var next := stream[pos];
          pos := pos + 1;
          assert unread[2..] == stream[pos..];
          if next != '\n' { return LineMalformed; }
          return Line(buf);
        }
        if |buf| >= MAX_LINE { return LineMalformed; }
        buf := buf + [b];
      }
      return LineEOF;
    }

    /** ReadFrame. */
    method ReadFrame(ctxDone: bool) returns (r: ReadResult)
      requires Valid()
      modifies this`pos
      ensures Valid()
      ensures ctxDone ==> r == Failed(ShuttingDown) && pos == old(pos)
      ensures !ctxDone ==> (r, Unread()) == ReadOne(old(Unread()))
    {
      if ctxDone { return Failed(ShuttingDown); }
      var contentLength, contentType, sawAny := -1, "", false;
      while true
        invariant pos <= |stream|
        invariant ReadHeaders(stream[pos..], contentLength, contentType, sawAny) ==
                  ReadHeaders(old(stream[pos..]), -1, "", false)
        decreases |stream| - pos
      {
        var line := ReadHeaderLine();
        match line {
          case LineEOF => return Failed(if sawAny then ParseError else CleanEOF);
          case LineMalformed => return Failed(ParseError);
          case Line(text) =>
            sawAny := true;
            if text == "" { break; }
            var header := Header(text, contentLength, contentType);
            match header {
              case BadHeaders(error) => return Failed(error);
              case Headers(length, ct) => contentLength, contentType := length, ct;
            }
        }
      }
      if contentLength < 0 { return Failed(ParseError); }
      if contentLength == 0 { return Got(Frame(0, contentType, "")); }
      ghost var unread := stream[pos..];
      if |stream| - pos < contentLength {
        pos := |stream|;
        assert stream[pos..] == "";
        return Failed(TruncatedBody);
      }
      var body := stream[pos..pos + contentLength];
      pos := pos + contentLength;
      assert body == unread[..contentLength] && stream[pos..] == unread[contentLength..];
      if contentLength >= 3 && body[0] == '\U{EF}' && body[1] == '\U{BB}' && body[2] == '\U{BF}' {
        return Failed(ParseError);
      }
      return Got(Frame(contentLength, contentType, body));
    }
  }

  // ----- writing frames -----

  datatype WriteError = EncodingError | FrameTooLarge | WriterClosed

  /** The checks of WriteFrame that look only at the frame; None is the nil frame. */
  function CheckFrame(frame: Option<Frame>): Option<WriteError> {
    match frame
    case None => Some(EncodingError)
    case Some(f) =>
      if f.contentLength != |f.body| then Some(EncodingError)
      else if f.contentLength > MAX_BODY then Some(FrameTooLarge)
      else None
  }

  predicate Accepted(f: Frame) {
    CheckFrame(Some(f)).None?
  }

  function TypeOf(f: Frame): string {
    if f.contentType == "" then CANONICAL else f.contentType
  }

  /** The bytes of an accepted frame. */
  function Encode(f: Frame): string
    requires Accepted(f)
  {
    "Content-Length: " + Digits(f.contentLength) + "\r\n" + "Content-Type: " + TypeOf(f) + "\r\n" + "\r\n" + f.body
  }

  function EncodeAll(frames: seq<Frame>): string
    requires forall i :: 0 <= i < |frames| ==> Accepted(frames[i])
  {
    if frames == [] then "" else Encode(frames[0]) + EncodeAll(frames[1..])
  }

  // ----- the writer goroutine -----

  datatype PushOutcome = HandedOver | GivenUp | Panicked

  datatype WriterStep = PushStep(frame: Frame) | DrainStep | CloseStep

  /** The frames handed to the writer goroutine but not yet written, the bytes written, and
      all frames handed over so far.  Capacity and failures of the underlying stream are not
      modelled. */
  datatype Writer = Writer(out: string, pending: seq<Frame>, closed: bool, pushed: seq<Frame>)

  predicate AllAccepted(frames: seq<Frame>) {
    forall i :: 0 <= i < |frames| ==> Accepted(frames[i])
  }

  /** One atomic step; a push onto a closed writer panics and hands nothing over. */
  function WriterNext(w: Writer, step: WriterStep): (w': Writer)
    requires AllAccepted(w.pending)
    ensures AllAccepted(w'.pending)
  {
    match step
    case PushStep(f) =>
      if w.closed || !Accepted(f) then w else w.(pending := w.pending + [f], pushed := w.pushed + [f])
    case DrainStep =>
      if w.pending == [] then w else w.(out := w.out + Encode(w.pending[0]), pending := w.pending[1..])
    case CloseStep =>
      if w.closed then w else w.(closed := true, out := w.out + EncodeAll(w.pending), pending := [])
  }

  /** frameWriter. */
  class FrameWriter {
    var out: string
    var pending: seq<Frame>
    var closed: bool
    ghost var pushed: seq<Frame>

    ghost predicate Valid()
      reads this
    {
      AllAccepted(pending)
    }

    ghost function View(): Writer
      reads this
    {
      Writer(out, pending, closed, pushed)
    }

    constructor ()
      ensures Valid() && View() == Writer("", [], false, [])
    {
      out, pending, closed, pushed := "", [], false, [];
    }

    /** WriteFrame up to its closed check. */
    method Admit(frame: Option<Frame>) returns (err: Option<WriteError>)
      ensures err == if CheckFrame(frame).Some? then CheckFrame(frame) else if closed then Some(WriterClosed) else None
      ensures err == None <==>
              frame.Some? && frame.value.contentLength == |frame.value.body| <= 16777216 && !closed
      ensures err == Some(FrameTooLarge) <==>
              frame.Some? && frame.value.contentLength == |frame.value.body| > 16777216
      ensures err == Some(EncodingError) <==> frame.None? || frame.value.contentLength != |frame.value.body|
    {
      match frame {
        case None => return Some(EncodingError);
        case Some(f) =>
          if f.contentLength != |f.body| { return Some(EncodingError); }
          if f.contentLength > MAX_BODY { return Some(FrameTooLarge); }
      }
      if closed { return Some(WriterClosed); }
      return None;
    }

    /** The channel send of WriteFrame, a separate step: the context may end first, and then
        nothing is handed over; if the writer was closed in between, the send panics. */
    method Push(frame: Frame, ctxDone: bool) returns (outcome: PushOutcome)
      requires Valid() && Accepted(frame)
      modifies this`pending, this`pushed
      ensures Valid()
      ensures outcome == if ctxDone then GivenUp else if closed then Panicked else HandedOver
      ensures View() == if ctxDone then old(View()) else WriterNext(old(View()), PushStep(frame))
    {
      if ctxDone { return GivenUp; }
      if closed { return Panicked; }
      pending, pushed := pending + [frame], pushed + [frame];
      return HandedOver;
    }

    /** writeOne. */
    method WriteOne(frame: Frame)
      requires Accepted(frame)
      modifies this`out
      ensures out == old(out) + Encode(frame)
    {
      var ct := frame.contentType;
      if ct == "" {
        ct := CANONICAL;
      }
      var header := "Content-Length: " + Digits(frame.contentLength) + "\r\n" + "Content-Type: " + ct + "\r\n" + "\r\n";
      var buf := "";
      buf := buf + header;
      buf := buf + frame.body;
      assert buf == Encode(frame);
      out := out + buf;
    }

    /** One round of the writer loop. */
    method DrainOne()
      requires Valid() && pending != []
      modifies this`out, this`pending
      ensures Valid() && View() == WriterNext(old(View()), DrainStep)
    {
      WriteOne(pending[0]);
      pending := pending[1..];
    }

    /** Close: nothing is dropped, the loop drains what was handed over. */
    method Close()
      requires Valid()
      modifies this
      ensures Valid() && View() == WriterNext(old(View()), CloseStep)
    {
      hide Encode;
      if closed { return; }
      closed := true;
      while pending != []
        invariant Valid() && closed && pushed == old(pushed)
        invariant out + EncodeAll(pending) == old(out) + EncodeAll(old(pending))
        decreases |pending|
      {
        ghost var before, first, rest := out, Encode(pending[0]), EncodeAll(pending[1..]);
        DrainOne();
        assert before + (first + rest) == (before + first) + rest;
      }
      assert out + "" == out;
    }
  }
}
