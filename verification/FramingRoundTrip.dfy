/** What is written is what is read (protocol/frame.go). */
module FramingRoundTrip {
  import opened Options
  import opened Sequences
  import opened Decimal
  import opened Framing

  predicate CrFree(s: string) {
    forall i :: 0 <= i < |s| ==> s[i] != '\r'
  }

  /** Without a space character, ASCII or not, at either end. */
  predicate Trimmed(s: string) {
    SpaceAtFront(s) == 0 && SpaceAtBack(s) == 0
  }

  /** What a reader can give back: a type on one header line of at most 8192 bytes, and no
      byte order mark. */
  predicate Readable(f: Frame) {
    && (CrFree(f.contentType) && Trimmed(f.contentType) && |f.contentType| <= 8178)
    && !HasBom(f.body)
  }

  /** The frame as it is read back: an omitted type is spelled out. */
  function Canonical(f: Frame): Frame {
    f.(contentType := TypeOf(f))
  }

  // ----- trimming -----

  lemma {:induction false} TrimLeftProps(s: string)
    ensures SpaceAtFront(TrimLeft(s)) == 0
    ensures |TrimLeft(s)| <= |s| && TrimLeft(s) == s[|s| - |TrimLeft(s)|..]
  {
    hide SpaceAtFront;
    var n := SpaceAtFront(s);
    if n > 0 {
      TrimLeftProps(s[n..]);
    }
  }

  lemma {:induction false} TrimRightProps(s: string)
    ensures SpaceAtBack(TrimRight(s)) == 0
    ensures |TrimRight(s)| <= |s| && TrimRight(s) == s[..|TrimRight(s)|]
  {
    hide SpaceAtBack;
    var n := SpaceAtBack(s);
    if n > 0 {
      TrimRightProps(s[..|s| - n]);
    }
  }

  /** What begins with a space character still does when more follows. */
  lemma FrontStays(s: string, k: nat)
    requires k <= |s| && SpaceAtFront(s) == 0
    ensures SpaceAtFront(s[..k]) == 0
  {
    hide IsSpaceRune;
    forall n | 0 <= n <= k ensures s[..k][..n] == s[..n] {
    }
  }

  lemma TrimSpaceProps(s: string)
    ensures Trimmed(TrimSpace(s))
    ensures CrFree(s) ==> CrFree(TrimSpace(s))
  {
    TrimLeftProps(s);
    TrimRightProps(TrimLeft(s));
    FrontStays(TrimLeft(s), |TrimSpace(s)|);
    hide SpaceAtFront, SpaceAtBack, TrimLeft, TrimRight;
  }

  lemma TrimSpaceOfTrimmed(s: string)
    requires Trimmed(s)
    ensures TrimSpace(s) == s && TrimSpace(" " + s) == s
  {
    assert (" " + s)[..1] == " " && (" " + s)[1..] == s;
    assert SpaceAtFront(" " + s) == 1;
    hide SpaceAtFront, SpaceAtBack;
  }

  /** A string is trimmed if it is empty or has an ASCII byte other than a space at both ends. */
  lemma PlainEnds(s: string)
    requires s == "" || (s[0] < '\U{80}' && !IsSpace(s[0]) && s[|s| - 1] < '\U{80}' && !IsSpace(s[|s| - 1]))
    ensures Trimmed(s)
  {
    PlainFront(s);
    PlainBack(s);
    hide SpaceAtFront, SpaceAtBack;
  }

  lemma PlainFront(s: string)
    requires s == "" || (s[0] < '\U{80}' && !IsSpace(s[0]))
    ensures SpaceAtFront(s) == 0
  {
    forall n: nat ensures n > 0 ==> !BeginsWithSpace(s, n) {
    }
    hide BeginsWithSpace;
  }

  /** The encoding of a space ends in a space of ASCII or in a byte beyond it. */
  lemma SpaceRuneEnds(r: string)
    requires r != "" && r[|r| - 1] < '\U{80}' && !IsSpace(r[|r| - 1])
    ensures !IsSpaceRune(r)
  {
  }

  lemma PlainBackOf(s: string, n: nat)
    requires s == "" || (s[|s| - 1] < '\U{80}' && !IsSpace(s[|s| - 1]))
    requires n > 0
    ensures !EndsWithSpace(s, n)
  {
    hide IsSpace, IsSpaceRune;
    if n <= |s| {
      assert s[|s| - n..][n - 1] == s[|s| - 1];
      SpaceRuneEnds(s[|s| - n..]);
    }
  }

  lemma PlainBack(s: string)
    requires s == "" || (s[|s| - 1] < '\U{80}' && !IsSpace(s[|s| - 1]))
    ensures SpaceAtBack(s) == 0
  {
    hide IsSpace, EndsWithSpace;
    PlainBackOf(s, 1);
    PlainBackOf(s, 2);
    PlainBackOf(s, 3);
  }

  lemma CanonicalIsClean()
    ensures Trimmed(CANONICAL) && CrFree(CANONICAL) && |CANONICAL| <= 8178
  {
    assert CANONICAL == [
      'a', 'p', 'p', 'l', 'i', 'c', 'a', 't', 'i', 'o', 'n', '/', 'v', 's', 'c', 'o', 'd', 'e', '-', 'j', 's',
      'o', 'n', 'r', 'p', 'c', ';', ' ', 'c', 'h', 'a', 'r', 's', 'e', 't', '=', 'u', 't', 'f', '-', '8'];
    PlainEnds(CANONICAL);
    hide Trimmed;
  }

  // ----- lines -----

  lemma {:induction false} ScanExactLine(line: string, rest: string, acc: string)
    requires CrFree(line) && |acc| + |line| <= MAX_LINE
    ensures ScanLine(line + "\r\n" + rest, acc) == (Line(acc + line), rest)
    decreases |line|
  {
    var s := line + "\r\n" + rest;
    if line == "" {
      assert s == "\r\n" + rest;
      assert acc + line == acc && s[2..] == rest;
    } else {
      ScanExactLine(line[1..], rest, acc + [line[0]]);
      assert s[1..] == line[1..] + "\r\n" + rest;
      assert acc + [line[0]] + line[1..] == acc + line;
    }
  }

  lemma {:induction false} ScanLongLine(line: string, rest: string, acc: string)
    requires CrFree(line) && |acc| <= MAX_LINE < |acc| + |line|
    ensures ScanLine(line + rest, acc).0 == LineMalformed
    decreases |line|
  {
    if |acc| < MAX_LINE {
      ScanLongLine(line[1..], rest, acc + [line[0]]);
      assert (line + rest)[1..] == line[1..] + rest;
    }
  }

  lemma {:induction false} ScannedLineIsCrFree(s: string, acc: string)
    requires CrFree(acc)
    ensures ScanLine(s, acc).0.Line? ==> CrFree(ScanLine(s, acc).0.text)
    decreases |s|
  {
    if s != "" && s[0] != '\r' && |acc| < MAX_LINE {
      ScannedLineIsCrFree(s[1..], acc + [s[0]]);
    }
  }

  // ----- the two header lines of a written frame -----

  lemma AtoiOfDigits(n: nat)
    requires n <= MAX_INT
    ensures Atoi(Digits(n)) == Some(n) && Trimmed(Digits(n)) && CrFree(Digits(n))
  {
    hide Digits, Trimmed;
    ValueOfDigits(n);
    assert IsDigit(Digits(n)[0]) && IsDigit(Digits(n)[|Digits(n)| - 1]);
    PlainEnds(Digits(n));
  }

  lemma SplitKeyed(key: string, value: string)
    requires forall k :: 0 <= k < |key| ==> key[k] != ':'
    requires Trimmed(value)
    ensures SplitHeader(key + ": " + value) == Some((key, value))
  {
    hide Trimmed, TrimSpace;
    var line, n := key + ": " + value, |key|;
    assert line[n] == ':' && forall k :: 0 <= k < n ==> line[k] == key[k];
    assert IndexOfColon(line) == n;
    assert line[..n] == key && line[n + 1..] == " " + value;
    TrimSpaceOfTrimmed(value);
  }

  lemma LengthKey()
    ensures forall k :: 0 <= k < 14 ==> "Content-Length"[k] != ':'
    ensures ToLower("Content-Length") == "content-length" && CrFree("Content-Length: ")
  {
    var key := "Content-Length";
    assert key == ['C', 'o', 'n', 't', 'e', 'n', 't', '-', 'L', 'e', 'n', 'g', 't', 'h'];
  }

  lemma LengthHeader(n: nat, length: int, contentType: string)
    requires n <= MAX_BODY
    ensures CrFree("Content-Length: " + Digits(n)) && |"Content-Length: " + Digits(n)| <= MAX_LINE
    ensures Header("Content-Length: " + Digits(n), length, contentType) == Headers(n, contentType)
  {
    hide Atoi, Digits, TrimSpace, ToLower, SplitHeader, Trimmed;
    DigitsShort(n, 8);
    AtoiOfDigits(n);
    LengthKey();
    SplitKeyed("Content-Length", Digits(n));
    assert "Content-Length: " + Digits(n) == "Content-Length" + ": " + Digits(n);
    TrimSpaceOfTrimmed(Digits(n));
  }

  lemma TypeKey()
    ensures forall k :: 0 <= k < 12 ==> "Content-Type"[k] != ':'
    ensures ToLower("Content-Type") == "content-type" && CrFree("Content-Type: ")
  {
    assert "content-type" != "content-length";
  }

  lemma TypeHeader(ct: string, length: int, contentType: string)
    requires Trimmed(ct)
    ensures Header("Content-Type: " + ct, length, contentType) == Headers(length, ct)
    ensures CrFree(ct) ==> CrFree("Content-Type: " + ct)
  {
    hide ToLower, SplitHeader, TrimSpace, Trimmed;
    TypeKey();
    SplitKeyed("Content-Type", ct);
    assert "Content-Type: " + ct == "Content-Type" + ": " + ct;
    TrimSpaceOfTrimmed(ct);
    assert |"content-type"| != |"content-length"|;
  }

  /** The first header line of a written frame always reads back as its length. */
  lemma ReadsLength(n: nat, more: string)
    requires n <= MAX_BODY
    ensures ReadHeaders("Content-Length: " + Digits(n) + "\r\n" + more, -1, "", false) == ReadHeaders(more, n, "", true)
  {
    hide Header, Digits;
    var line := "Content-Length: " + Digits(n);
    LengthHeader(n, -1, "");
    ScanExactLine(line, more, "");
    assert "" + line == line;
  }

  lemma ReadsType(ct: string, n: nat, more: string)
    requires CrFree(ct) && Trimmed(ct) && |ct| <= 8178
    ensures ReadHeaders("Content-Type: " + ct + "\r\n" + "\r\n" + more, n, "", true) == (Headers(n, ct), more)
  {
    hide Header;
    var line := "Content-Type: " + ct;
    var s := line + "\r\n" + ("\r\n" + more);
    TypeHeader(ct, n, "");
    ScanExactLine(line, "\r\n" + more, "");
    assert "" + line == line;
    assert line + "\r\n" + "\r\n" + more == s;
    ReadsBlankLine(n, ct, more);
    assert ReadHeaders(s, n, "", true) == ReadHeaders("\r\n" + more, n, ct, true);
  }

  lemma ReadsBlankLine(n: nat, ct: string, more: string)
    ensures ReadHeaders("\r\n" + more, n, ct, true) == (Headers(n, ct), more)
  {
    ScanExactLine("", more, "");
    assert "" + "\r\n" + more == "\r\n" + more;
  }

  /** The bytes of a frame followed by others, cut after the first header line. */
  lemma EncodeSplit(f: Frame, rest: string)
    requires Accepted(f)
    ensures Encode(f) + rest
         == "Content-Length: " + Digits(f.contentLength) + "\r\n"
            + ("Content-Type: " + TypeOf(f) + "\r\n" + "\r\n" + (f.body + rest))
  {
  }

  lemma ReadableReadsBack(f: Frame, rest: string)
    requires Accepted(f) && Readable(f)
    ensures ReadOne(Encode(f) + rest) == (Got(Canonical(f)), rest)
  {
    var n, ct := f.contentLength, TypeOf(f);
    hide Trimmed, CrFree, ReadHeaders, Encode;
    CanonicalIsClean();
    EncodeSplit(f, rest);
    ReadsLength(n, "Content-Type: " + ct + "\r\n" + "\r\n" + (f.body + rest));
    ReadsType(ct, n, f.body + rest);
    assert (f.body + rest)[..n] == f.body && (f.body + rest)[n..] == rest;
  }

  // ----- what a reader can never give back -----

  lemma {:induction false} ReadTypeIsClean(s: string, length: int, contentType: string, sawAny: bool)
    requires CrFree(contentType) && Trimmed(contentType)
    ensures var h := ReadHeaders(s, length, contentType, sawAny).0;
            h.Headers? ==> CrFree(h.contentType) && Trimmed(h.contentType)
    decreases |s|
  {
    hide Trimmed, Header;
    var (line, rest) := ScanLine(s, "");
    if line.Line? && line.text != "" {
      ScannedLineIsCrFree(s, "");
      var h := Header(line.text, length, contentType);
      if h.Headers? {
        HeaderTypeIsClean(line.text, length, contentType);
        ReadTypeIsClean(rest, h.length, h.contentType, true);
      }
    }
  }

  lemma HeaderTypeIsClean(line: string, length: int, contentType: string)
    requires CrFree(line) && CrFree(contentType) && Trimmed(contentType)
    ensures var h := Header(line, length, contentType);
            h.Headers? ==> CrFree(h.contentType) && Trimmed(h.contentType)
  {
    hide Trimmed, TrimSpace, Atoi, ToLower;
    var i := IndexOfColon(line);
    if i >= 0 {
      TrimSpaceProps(line[i + 1..]);
      TrimSpaceProps(TrimSpace(line[i + 1..]));
    }
  }

  lemma NothingIsClean()
    ensures Trimmed("") && CrFree("")
  {
  }

  /** Whatever the bytes, a frame that is read has a trimmed type without CR and a body
      without byte order mark. */
  lemma ReadFrameIsClean(s: string)
    ensures ReadOne(s).0.Got? ==>
              var f := ReadOne(s).0.frame;
              CrFree(f.contentType) && Trimmed(f.contentType) && !HasBom(f.body) && f.contentLength == |f.body|
  {
    hide Trimmed, CrFree, ReadHeaders;
    NothingIsClean();
    ReadTypeIsClean(s, -1, "", false);
  }

  lemma LongTypeFails(f: Frame, rest: string)
    requires Accepted(f) && CrFree(TypeOf(f)) && |TypeOf(f)| > 8178
    ensures ReadOne(Encode(f) + rest).0 == Failed(ParseError)
  {
    var line := "Content-Type: " + TypeOf(f);
    var more := line + "\r\n" + "\r\n" + (f.body + rest);
    EncodeSplit(f, rest);
    ReadsLength(f.contentLength, more);
    assert more == line + ("\r\n" + "\r\n" + (f.body + rest));
    ScanLongLine(line, "\r\n" + "\r\n" + (f.body + rest), "");
  }

  /** A frame the writer accepts is read back, as itself with its type spelled out and
      with nothing of what follows touched, exactly when its type is empty or trimmed,
      free of CR and at most 8178 bytes and its body carries no byte order mark. */
  lemma RoundTripExactly(f: Frame, rest: string)
    requires Accepted(f)
    ensures ReadOne(Encode(f) + rest) == (Got(Canonical(f)), rest) <==> Readable(f)
  {
    if Readable(f) {
      ReadableReadsBack(f, rest);
    } else if CrFree(f.contentType) && |f.contentType| > 8178 {
      LongTypeFails(f, rest);
    } else {
      ReadFrameIsClean(Encode(f) + rest);
    }
  }

  function CanonicalAll(frames: seq<Frame>): seq<Frame> {
    if frames == [] then [] else [Canonical(frames[0])] + CanonicalAll(frames[1..])
  }

  lemma ReadAllStep(s: string, frame: Frame, rest: string)
    requires ReadOne(s) == (Got(frame), rest)
    ensures ReadAll(s) == ([frame] + ReadAll(rest).0, ReadAll(rest).1)
  {
    hide ReadOne;
  }

  /** For every list of accepted frames: reading their concatenated bytes gives exactly
      those frames, in order, and then a clean end, exactly when each is readable. */
  lemma {:induction false} StreamRoundTripExactly(frames: seq<Frame>)
    requires forall i :: 0 <= i < |frames| ==> Accepted(frames[i])
    ensures ReadAll(EncodeAll(frames)) == (CanonicalAll(frames), CleanEOF)
            <==> forall i :: 0 <= i < |frames| ==> Readable(frames[i])
  {
    hide *;
    if frames == [] {
      NothingReads();
    } else {
      var f, rest := frames[0], frames[1..];
      var s := Encode(f) + EncodeAll(rest);
      FirstOf(frames);
      if Readable(f) {
        RoundTripExactly(f, EncodeAll(rest));
        ReadAllStep(s, Canonical(f), EncodeAll(rest));
        StreamRoundTripExactly(rest);
        assert ReadAll(s).0[1..] == ReadAll(EncodeAll(rest)).0 && CanonicalAll(frames)[1..] == CanonicalAll(rest);
        assert forall i :: 0 <= i < |rest| ==> rest[i] == frames[i + 1];
        assert (forall i :: 0 <= i < |frames| ==> Readable(frames[i])) <==>
               (forall i :: 0 <= i < |rest| ==> Readable(rest[i]));
      } else if ReadAll(s) == (CanonicalAll(frames), CleanEOF) {
        NotReadBack(f, s, EncodeAll(rest), CanonicalAll(rest));
      }
    }
  }

  lemma NothingReads()
    ensures EncodeAll([]) == "" && CanonicalAll([]) == [] && ReadAll("") == ([], CleanEOF)
  {
  }

  lemma FirstOf(frames: seq<Frame>)
    requires frames != [] && forall i :: 0 <= i < |frames| ==> Accepted(frames[i])
    ensures EncodeAll(frames) == Encode(frames[0]) + EncodeAll(frames[1..])
    ensures CanonicalAll(frames) == [Canonical(frames[0])] + CanonicalAll(frames[1..])
  {
    hide Encode;
  }

  /** If an unreadable frame nevertheless came first out of the reader, it would be clean. */
  lemma NotReadBack(f: Frame, s: string, tail: string, others: seq<Frame>)
    requires Accepted(f) && !Readable(f) && s == Encode(f) + tail
    ensures ReadAll(s).0 != [Canonical(f)] + others
  {
    if CrFree(f.contentType) && |f.contentType| > 8178 {
      LongTypeFails(f, tail);
    } else {
      ReadFrameIsClean(s);
      if ReadOne(s).0.Got? {
        assert ReadAll(s).0[0] == ReadOne(s).0.frame;
        assert ([Canonical(f)] + others)[0] == Canonical(f);
      }
    }
  }

  /** The documented meaning of a clean end is that no byte of a new frame was read; the
      code also reports one when the stream ends inside the first header line. */
  lemma CleanEndExactly(s: string)
    ensures ReadOne(s).0 == Failed(CleanEOF) <==> EndsInFirstLine(s)
  {
    EndOfLineExactly(s, "");
    LaterEndIsNotClean(s, -1, "");
  }

  /** No line ending, and no reason to give up before the end. */
  predicate EndsInFirstLine(s: string) {
    || (CrFree(s) && |s| <= MAX_LINE)
    || (s != "" && s[|s| - 1] == '\r' && CrFree(s[..|s| - 1]) && |s| - 1 <= MAX_LINE)
  }

  lemma {:induction false} EndOfLineExactly(s: string, acc: string)
    requires |acc| <= MAX_LINE
    ensures ScanLine(s, acc).0 == LineEOF <==>
            || (CrFree(s) && |acc| + |s| <= MAX_LINE)
            || (s != "" && s[|s| - 1] == '\r' && CrFree(s[..|s| - 1]) && |acc| + |s| - 1 <= MAX_LINE)
    decreases |s|
  {
    if s != "" && s[0] != '\r' && |acc| < MAX_LINE {
      EndOfLineExactly(s[1..], acc + [s[0]]);
      assert CrFree(s) <==> CrFree(s[1..]);
      if |s| > 1 {
        assert s[..|s| - 1][1..] == s[1..][..|s[1..]| - 1];
        assert CrFree(s[..|s| - 1]) <==> CrFree(s[..|s| - 1][1..]);
      }
    }
  }

  lemma {:induction false} HeadersAfterTheFirst(s: string, length: int, contentType: string)
    ensures ReadHeaders(s, length, contentType, true).0 != BadHeaders(CleanEOF)
    decreases |s|
  {
    var (line, rest) := ScanLine(s, "");
    if line.Line? && line.text != "" {
      var h := Header(line.text, length, contentType);
      if h.Headers? {
        HeadersAfterTheFirst(rest, h.length, h.contentType);
      }
    }
  }

  lemma LaterEndIsNotClean(s: string, length: int, contentType: string)
    ensures ReadHeaders(s, length, contentType, false).0 == BadHeaders(CleanEOF) <==> ScanLine(s, "").0 == LineEOF
  {
    var (line, rest) := ScanLine(s, "");
    if line.Line? && line.text != "" {
      var h := Header(line.text, length, contentType);
      if h.Headers? {
        HeadersAfterTheFirst(rest, h.length, h.contentType);
      }
    }
  }

  // ----- through the writer goroutine -----

  function WriterRun(steps: seq<WriterStep>): (w: Writer)
    ensures AllAccepted(w.pending)
  {
    if steps == [] then Writer("", [], false, [])
    else WriterNext(WriterRun(steps[..|steps| - 1]), steps[|steps| - 1])
  }

  lemma {:induction false} EncodeAllAppend(a: seq<Frame>, b: seq<Frame>)
    requires AllAccepted(a) && AllAccepted(b)
    ensures EncodeAll(a + b) == EncodeAll(a) + EncodeAll(b)
  {
    hide Encode;
    if a == [] {
      assert a + b == b;
    } else {
      EncodeAllAppend(a[1..], b);
      assert (a + b)[1..] == a[1..] + b;
    }
  }

  /** In every interleaving of pushes, loop rounds and Close, the bytes written followed by
      the bytes still to write are the encodings of the pushed frames, in push order; after
      Close nothing is left to write. */
  lemma {:induction false} WriterKeepsOrder(steps: seq<WriterStep>)
    ensures var w := WriterRun(steps);
            && AllAccepted(w.pushed)
            && w.out + EncodeAll(w.pending) == EncodeAll(w.pushed)
            && (w.closed ==> w.pending == [])
  {
    hide Encode, EncodeAll;
    if steps != [] {
      WriterKeepsOrder(steps[..|steps| - 1]);
      WriterStepKeepsOrder(WriterRun(steps[..|steps| - 1]), steps[|steps| - 1]);
    } else {
      NothingToEncode();
    }
  }

  lemma NothingToEncode()
    ensures EncodeAll([]) == ""
  {
  }

  lemma WriterStepKeepsOrder(w: Writer, step: WriterStep)
    requires AllAccepted(w.pending) && AllAccepted(w.pushed)
    requires w.out + EncodeAll(w.pending) == EncodeAll(w.pushed) && (w.closed ==> w.pending == [])
    ensures var w' := WriterNext(w, step);
            && AllAccepted(w'.pushed)
            && w'.out + EncodeAll(w'.pending) == EncodeAll(w'.pushed)
            && (w'.closed ==> w'.pending == [])
  {
    hide Encode, EncodeAll;
    match step
    case PushStep(f) =>
      if !w.closed && Accepted(f) {
        EncodeAllAppend(w.pending, [f]);
        EncodeAllAppend(w.pushed, [f]);
        Regroup(w.out, EncodeAll(w.pending), EncodeAll([f]));
      }
    case DrainStep =>
      if w.pending != [] {
        EncodeFirst(w.pending);
        Regroup(w.out, Encode(w.pending[0]), EncodeAll(w.pending[1..]));
      }
    case CloseStep =>
      NothingToEncode();
      var all := EncodeAll(w.pushed);
      assert all + "" == all;
  }

  lemma EncodeFirst(frames: seq<Frame>)
    requires AllAccepted(frames) && frames != []
    ensures EncodeAll(frames) == Encode(frames[0]) + EncodeAll(frames[1..])
  {
    hide Encode;
  }

  /** So once a writer is closed, its peer reads exactly the frames that were pushed, in
      order, and then a clean end, exactly when all of them are readable. */
  lemma PushedIsRead(steps: seq<WriterStep>)
    requires WriterRun(steps).closed
    ensures ReadAll(WriterRun(steps).out) == (CanonicalAll(WriterRun(steps).pushed), CleanEOF)
            <==> forall i :: 0 <= i < |WriterRun(steps).pushed| ==> Readable(WriterRun(steps).pushed[i])
  {
    WriterKeepsOrder(steps);
    var w := WriterRun(steps);
    assert w.out + EncodeAll([]) == w.out;
    StreamRoundTripExactly(w.pushed);
  }
}
