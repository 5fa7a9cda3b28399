/** Chunked transfer coding (section 7.1 of RFC 9112): the framing a streamed body is sent in, and a decoder
    that follows the standard. */
module ChunkedCodec {
  import opened Text
  import opened Wrappers

  // ---------------------------------------------------------------- hexadecimal lengths

  function HexDigit(d: nat): char
    requires d < 16
  {
    if d < 10 then '0' + d as char else 'a' + (d - 10) as char
  }

  /** The length of a chunk as the server prints it. */
  function ConvertToHex(n: nat): string {
    if n < 16 then [HexDigit(n)] else ConvertToHex(n / 16) + [HexDigit(n % 16)]
  }

  predicate IsHexDigit(c: char) {
    '0' <= c <= '9' || 'a' <= c <= 'f' || 'A' <= c <= 'F'
  }

  function HexDigitValue(c: char): nat
    requires IsHexDigit(c)
  {
    if c <= '9' then c as int - '0' as int
    else if c <= 'F' then c as int - 'A' as int + 10
    else c as int - 'a' as int + 10
  }

  /** The value of a chunk-size as a recipient reads it, nothing when it is not all hexadecimal digits. */
  function ParseHex(s: string, end: nat): Option<nat>
    requires end <= |s|
  {
    if end == 0 then Some(0)
    else match ParseHex(s, end - 1)
      case None => None
      case Some(high) => if IsHexDigit(s[end - 1]) then Some(16 * high + HexDigitValue(s[end - 1])) else None
  }

  lemma {:induction false} ParseHexOfPrefix(s: string, t: string, end: nat)
    requires end <= |s| && end <= |t| && s[..end] == t[..end]
    ensures ParseHex(s, end) == ParseHex(t, end)
    decreases end
  {
    if end > 0 {
      assert s[end - 1] == s[..end][end - 1] && t[end - 1] == t[..end][end - 1];
      assert s[..end - 1] == s[..end][..end - 1] && t[..end - 1] == t[..end][..end - 1];
      ParseHexOfPrefix(s, t, end - 1);
    }
  }

  lemma {:induction false} HexRoundTrip(n: nat)
    ensures ParseHex(ConvertToHex(n), |ConvertToHex(n)|) == Some(n)
    ensures ConvertToHex(n) != "" && (ConvertToHex(n)[0] == '0' <==> n == 0)
  {
    var s := ConvertToHex(n);
    if n < 16 {
      assert ParseHex(s, 0) == Some(0);
    } else {
      HexRoundTrip(n / 16);
      var high := ConvertToHex(n / 16);
      assert s[..|high|] == high == high[..|high|];
      ParseHexOfPrefix(s, high, |high|);
    }
  }

  lemma {:induction false} HexHasNoBreak(s: string, end: nat, k: nat)
    requires k < end <= |s| && ParseHex(s, end).Some?
    ensures IsHexDigit(s[k])
    decreases end
  {
    if k < end - 1 {
      HexHasNoBreak(s, end - 1, k);
    }
  }

  // ---------------------------------------------------------------- the sending side

  function Chunk(data: string): string {
    ConvertToHex(|data|) + CRLF + data + CRLF
  }

  const LAST_CHUNK: string := "0\r\n\r\n"

  /** What is on the wire for the chunks a streamer has produced so far: an empty one sends nothing. */
  function Framed(chunks: seq<string>): string {
    if chunks == [] then ""
    else Framed(chunks[..|chunks| - 1]) + (if chunks[|chunks| - 1] == "" then "" else Chunk(chunks[|chunks| - 1]))
  }

  function Concat(chunks: seq<string>): string {
    if chunks == [] then "" else Concat(chunks[..|chunks| - 1]) + chunks[|chunks| - 1]
  }

  // ---------------------------------------------------------------- the receiving side

  datatype ChunkResult = Done(body: string, rest: string) | More | Bad

  /** The trailer section: field lines up to an empty line. */
  function DecodeTrailer(s: string): ChunkResult
    decreases |s|
  {
    var eol := FindBreak(s, 0);
    if eol == |s| then More
    else if eol == 0 then Done("", s[2..])
    else DecodeTrailer(s[eol + 2..])
  }

  datatype SizeLine = Size(n: nat, data: nat) | Unfinished | Malformed

  /** The chunk-size line at the front of `s`: the size and where the data begins.  Chunk extensions are skipped. */
  function ReadSize(s: string): (r: SizeLine)
    ensures r.Size? ==> 2 <= r.data <= |s|
  {
    var eol := FindBreak(s, 0);
    var end := IndexOf(s, ';', 0);
    if eol == |s| then Unfinished
    else
      match ParseHex(s, if end < eol then end else eol)
      case Some(n) => if end == 0 || eol == 0 then Malformed else Size(n, eol + 2)
      case None => Malformed
  }

  /** Reads one chunked body from the front of `s`. */
  function DecodeChunked(s: string): ChunkResult
    decreases |s|
  {
    match ReadSize(s)
    case Unfinished => More
    case Malformed => Bad
    case Size(n, data) =>
      if n == 0 then DecodeTrailer(s[data..])
      else if |s| < data + n + 2 then More
      else if !BreakAt(s, data + n) then Bad
      else match DecodeChunked(s[data + n + 2..])
        case Done(body, rest) => Done(s[data..data + n] + body, rest)
        case other => other
  }

  // ---------------------------------------------------------------- more input changes no verdict

  lemma {:induction false} LineOfExtension(s: string, more: string)
    requires FindBreak(s, 0) < |s|
    ensures FindBreak(s + more, 0) == FindBreak(s, 0)
    ensures (s + more)[..FindBreak(s, 0)] == s[..FindBreak(s, 0)]
    ensures (s + more)[FindBreak(s, 0) + 2..] == s[FindBreak(s, 0) + 2..] + more
  {
    FindBreakOfExtension(s, more, 0);
  }

  lemma {:induction false} TrailerIsStable(s: string, more: string)
    requires DecodeTrailer(s).Done?
    ensures DecodeTrailer(s).body == ""
    ensures DecodeTrailer(s + more) == Done("", DecodeTrailer(s).rest + more)
    decreases |s|
  {
    LineOfExtension(s, more);
    var eol := FindBreak(s, 0);
    if eol != 0 {
      TrailerIsStable(s[eol + 2..], more);
    }
  }

  lemma {:induction false} TrailerNeverBad(s: string)
    ensures !DecodeTrailer(s).Bad?
    decreases |s|
  {
    var eol := FindBreak(s, 0);
    if 0 < eol < |s| {
      TrailerNeverBad(s[eol + 2..]);
    }
  }

  lemma {:induction false} IndexOfExtension(s: string, more: string, c: char, from: nat)
    requires from <= |s|
    ensures IndexOf(s, c, from) < |s| ==> IndexOf(s + more, c, from) == IndexOf(s, c, from)
    ensures IndexOf(s, c, from) == |s| ==> IndexOf(s + more, c, from) >= |s|
    decreases |s| - from
  {
    if from < |s| && s[from] != c {
      IndexOfExtension(s, more, c, from + 1);
    }
  }

  lemma {:induction false} SizeIsStable(s: string, more: string)
    requires !ReadSize(s).Unfinished?
    ensures ReadSize(s + more) == ReadSize(s)
  {
    FindBreakOfExtension(s, more, 0);
    IndexOfExtension(s, more, ';', 0);
    var eol, end := FindBreak(s, 0), IndexOf(s, ';', 0);
    var n := if end < eol then end else eol;
    assert (s + more)[..n] == s[..n];
    ParseHexOfPrefix(s, s + more, n);
  }

  /** A body that is complete, or broken, stays so whatever arrives after it. */
  lemma {:induction false} DecodeIsStable(s: string, more: string)
    ensures DecodeChunked(s).Done? ==>
              DecodeChunked(s + more) == Done(DecodeChunked(s).body, DecodeChunked(s).rest + more)
    ensures DecodeChunked(s).Bad? ==> DecodeChunked(s + more).Bad?
    decreases |s|
  {
    hide ReadSize, DecodeTrailer;
    var e := s + more;
    if !ReadSize(s).Unfinished? {
      SizeIsStable(s, more);
    }
    if ReadSize(s).Size? {
      var n, data := ReadSize(s).n, ReadSize(s).data;
      if n == 0 {
        assert e[data..] == s[data..] + more;
        TrailerNeverBad(s[data..]);
        if DecodeTrailer(s[data..]).Done? {
          TrailerIsStable(s[data..], more);
        }
      } else if data + n + 2 <= |s| {
        assert e[data..data + n] == s[data..data + n];
        assert e[data + n + 2..] == s[data + n + 2..] + more;
        DecodeIsStable(s[data + n + 2..], more);
      }
    }
  }

  /** The framing takes room: a body is shorter than its chunks. */
  lemma {:induction false} DecodeShrinks(s: string)
    ensures DecodeChunked(s).Done? ==> |DecodeChunked(s).body| + |DecodeChunked(s).rest| < |s|
    decreases |s|
  {
    hide ReadSize;
    if ReadSize(s).Size? {
      var n, data := ReadSize(s).n, ReadSize(s).data;
      if n == 0 {
        TrailerShrinks(s[data..]);
      } else if data + n + 2 <= |s| {
        DecodeShrinks(s[data + n + 2..]);
      }
    }
  }

  lemma {:induction false} TrailerShrinks(s: string)
    ensures DecodeTrailer(s).Done? ==> DecodeTrailer(s).body == "" && |DecodeTrailer(s).rest| < |s|
    decreases |s|
  {
    var i := FindBreak(s, 0);
    if 0 < i < |s| {
      TrailerShrinks(s[i + 2..]);
    }
  }

  // ---------------------------------------------------------------- round trip

  lemma {:induction false} NoBreakBefore(s: string, from: nat, i: nat)
    requires from <= i && BreakAt(s, i)
    requires forall k :: from <= k < i ==> s[k] != '\r'
    ensures FindBreak(s, from) == i
    decreases i - from
  {
    if from < i {
      NoBreakBefore(s, from + 1, i);
    }
  }

  lemma {:induction false} NoneBefore(s: string, c: char, from: nat, i: nat)
    requires from <= i <= |s|
    requires forall k :: from <= k < i ==> s[k] != c
    ensures i <= IndexOf(s, c, from)
    decreases i - from
  {
    if from < i {
      NoneBefore(s, c, from + 1, i);
    }
  }

  lemma {:induction false} ReadSizeOfLine(hex: string, rest: string)
    requires hex != "" && ParseHex(hex, |hex|).Some?
    ensures ReadSize(hex + CRLF + rest) == Size(ParseHex(hex, |hex|).value, |hex| + 2)
  {
    var s := hex + CRLF + rest;
    assert s[..|hex|] == hex == hex[..|hex|];
    ParseHexOfPrefix(s, hex, |hex|);
    forall k | 0 <= k < |hex|
      ensures IsHexDigit(s[k])
    {
      HexHasNoBreak(hex, |hex|, k);
    }
    NoBreakBefore(s, 0, |hex|);
    NoneBefore(s, ';', 0, |hex|);
  }

  /** What a decoder makes of `data` followed by something it reads as `tail`. */
  function Prepend(data: string, tail: ChunkResult): ChunkResult {
    match tail
    case Done(body, rest) => Done(data + body, rest)
    case other => other
  }

  lemma {:induction false} PrependTwice(first: string, second: string, tail: ChunkResult)
    ensures Prepend(first, Prepend(second, tail)) == Prepend(first + second, tail)
  {
    if tail.Done? {
      assert first + (second + tail.body) == first + second + tail.body;
    }
  }

  lemma {:induction false} Slices(a: string, b: string, c: string, d: string, rest: string)
    ensures var s := a + b + c + d + rest;
            s[|a| + |b|..|a| + |b| + |c|] == c && s[|a| + |b| + |c| + |d|..] == rest &&
            s == a + b + (c + d + rest)
    ensures var s := a + b + c + d + rest;
            forall i :: 0 <= i < |d| ==> s[|a| + |b| + |c| + i] == d[i]
  {
  }

  lemma {:induction false} DecodeFirst(s: string, at: nat, data: string, rest: string)
    requires ReadSize(s) == Size(|data|, at) && |data| > 0
    requires at + |data| + 2 <= |s| && s[at..at + |data|] == data && s[at + |data| + 2..] == rest
    requires BreakAt(s, at + |data|)
    ensures DecodeChunked(s) == Prepend(data, DecodeChunked(rest))
  {
    hide ReadSize;
  }

  lemma {:induction false} ChunkParts(hex: string, data: string, rest: string)
    ensures var s := hex + CRLF + data + CRLF + rest;
            var at := |hex| + 2;
            s == hex + CRLF + (data + CRLF + rest) &&
            at + |data| + 2 <= |s| && s[at..at + |data|] == data && s[at + |data| + 2..] == rest &&
            BreakAt(s, at + |data|)
  {
    var s := hex + CRLF + data + CRLF + rest;
    var end := |hex| + |CRLF| + |data|;
    Slices(hex, CRLF, data, CRLF, rest);
    assert s[end + 0] == CRLF[0] && s[end + 1] == CRLF[1];
  }

  lemma {:induction false} DecodeStep(hex: string, data: string, rest: string)
    requires hex != "" && ParseHex(hex, |hex|) == Some(|data|) && |data| > 0
    ensures DecodeChunked(hex + CRLF + data + CRLF + rest) == Prepend(data, DecodeChunked(rest))
  {
    ReadSizeOfLine(hex, data + CRLF + rest);
    ChunkParts(hex, data, rest);
    DecodeFirst(hex + CRLF + data + CRLF + rest, |hex| + 2, data, rest);
  }

  lemma {:induction false} DecodeOfChunk(data: string, rest: string)
    requires data != ""
    ensures DecodeChunked(Chunk(data) + rest) == Prepend(data, DecodeChunked(rest))
  {
    HexRoundTrip(|data|);
    DecodeStep(ConvertToHex(|data|), data, rest);
  }

  lemma {:induction false} DecodeOfLastChunk(rest: string)
    ensures DecodeChunked(LAST_CHUNK + rest) == Done("", rest)
  {
    var s := LAST_CHUNK + rest;
    assert s == "0" + CRLF + (CRLF + rest);
    assert ParseHex("0", 0) == Some(0);
    ReadSizeOfLine("0", CRLF + rest);
    assert s[3..] == CRLF + rest;
    NoBreakBefore(CRLF + rest, 0, 0);
    assert (CRLF + rest)[2..] == rest;
  }

  lemma {:induction false} Associative(a: string, b: string, c: string)
    ensures a + b + c == a + (b + c)
  {
  }

  lemma {:induction false} AppendChunk(init: seq<string>, framed: string, rest: string)
    requires DecodeChunked(Framed(init) + (framed + rest)) == Prepend(Concat(init), DecodeChunked(framed + rest))
    ensures DecodeChunked(Framed(init) + framed + rest) == Prepend(Concat(init), DecodeChunked(framed + rest))
  {
    Associative(Framed(init), framed, rest);
  }

  lemma {:induction false} PrependNothing(tail: ChunkResult)
    ensures Prepend("", tail) == tail
  {
    if tail.Done? {
      assert "" + tail.body == tail.body;
    }
  }

  /** Every streamer history decodes to what the streamer produced, empty chunks included. */
  lemma {:induction false} DecodeOfFramed(chunks: seq<string>, rest: string)
    ensures DecodeChunked(Framed(chunks) + rest) == Prepend(Concat(chunks), DecodeChunked(rest))
    decreases |chunks|
  {
    if chunks == [] {
      assert Framed(chunks) + rest == rest;
      PrependNothing(DecodeChunked(rest));
    } else {
      var init, last := chunks[..|chunks| - 1], chunks[|chunks| - 1];
      var framed := if last == "" then "" else Chunk(last);
      DecodeOfFramed(init, framed + rest);
      AppendChunk(init, framed, rest);
      if last == "" {
        assert framed + rest == rest && Concat(init) + last == Concat(init);
      } else {
        DecodeOfChunk(last, rest);
        PrependTwice(Concat(init), last, DecodeChunked(rest));
      }
    }
  }

  lemma {:induction false} RoundTrip(chunks: seq<string>, rest: string)
    ensures DecodeChunked(Framed(chunks) + LAST_CHUNK + rest) == Done(Concat(chunks), rest)
  {
    Associative(Framed(chunks), LAST_CHUNK, rest);
    DecodeOfFramed(chunks, LAST_CHUNK + rest);
    DecodeOfLastChunk(rest);
    assert Concat(chunks) + "" == Concat(chunks);
  }

  /** A body that stops anywhere short of its end is seen to be incomplete: it never looks finished. */
  lemma {:induction false} TruncationShows(chunks: seq<string>, sent: nat)
    requires sent < |Framed(chunks) + LAST_CHUNK|
    ensures DecodeChunked((Framed(chunks) + LAST_CHUNK)[..sent]) == More
  {
    var whole := Framed(chunks) + LAST_CHUNK;
    var got, missing := whole[..sent], whole[sent..];
    assert got + missing == whole && missing != "";
    RoundTrip(chunks, "");
    assert whole + "" == whole;
    DecodeIsStable(got, missing);
  }
}
