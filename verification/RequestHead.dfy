/** The scanner that reads a few fields of a request straight from the receive buffer: peekRequestHead. */
module RequestHead {
  import opened Text

  datatype RawRequestHead = RawRequestHead(complete: bool, version: string, expectation: string)

  // ---------------------------------------------------------------- specification

  function Lines(section: string): (lines: seq<string>)
    ensures |lines| > 0
    decreases |section|
  {
    var i := FindBreak(section, 0);
    if i == |section| then [section] else [section[..i]] + Lines(section[i + 2..])
  }

  predicate HttpAt(s: string, i: int) {
    0 <= i && i + 5 <= |s| && s[i] == 'H' && s[i + 1] == 'T' && s[i + 2] == 'T' && s[i + 3] == 'P' && s[i + 4] == '/'
  }

  /** The position of the last "HTTP/" that starts at or before `from`. */
  function FindLastHttp(s: string, from: int): (i: int)
    requires -1 <= from <= |s|
    ensures -1 <= i <= from
    ensures i >= 0 ==> HttpAt(s, i)
    decreases from
  {
    if from == -1 || HttpAt(s, from) then from else FindLastHttp(s, from - 1)
  }

  /** What follows the last "HTTP/" of the request line. */
  function VersionOf(requestLine: string): string {
    var i := FindLastHttp(requestLine, |requestLine|);
    if i == -1 then "" else requestLine[i + 5..]
  }

  predicate IsExpectField(line: string) {
    var colon := IndexOf(line, ':', 0);
    colon < |line| && Lower(line[..colon]) == "expect"
  }

  function FieldValue(line: string): string {
    var colon := IndexOf(line, ':', 0);
    if colon < |line| then Trim(line[colon + 1..]) else ""
  }

  /** The value of the first Expect field. */
  function FirstExpect(fields: seq<string>): string {
    if fields == [] then ""
    else if IsExpectField(fields[0]) then FieldValue(fields[0])
    else FirstExpect(fields[1..])
  }

  /** The head of the request at the front of the buffer, read line by line. */
  function ScanHead(buffer: string): RawRequestHead {
    var end := FindBlankLine(buffer, 0);
    if end == |buffer| then RawRequestHead(false, "", "")
    else
      var lines := Lines(buffer[..end]);
      RawRequestHead(true, VersionOf(lines[0]), FirstExpect(lines[1..]))
  }

  // ---------------------------------------------------------------- lines by index

  lemma {:induction false} NoBlankLineBefore(s: string, from: nat, k: nat)
    requires from <= |s| && from <= k < FindBlankLine(s, from)
    ensures !BlankLineAt(s, k)
    decreases k - from
  {
    if from < k {
      NoBlankLineBefore(s, from + 1, k);
    }
  }

  lemma {:induction false} FindBreakAtMost(s: string, from: nat, k: nat)
    requires from <= k && BreakAt(s, k)
    ensures FindBreak(s, from) <= k
    decreases k - from
  {
    if from < k && !BreakAt(s, from) {
      FindBreakAtMost(s, from + 1, k);
    }
  }

  /** The header section ends at `end`: the first blank line. */
  ghost predicate SectionEnds(buffer: string, end: nat) {
    end < |buffer| && FindBlankLine(buffer, 0) == end
  }

  /** A line ends at the section's end or at a line break that lies wholly before it. */
  lemma {:induction false} LineEnd(buffer: string, pos: nat, end: nat)
    requires SectionEnds(buffer, end) && pos <= end
    ensures var lineEnd := FindBreak(buffer, pos);
            pos <= lineEnd <= end && (lineEnd < end ==> lineEnd + 2 < end)
  {
    var lineEnd := FindBreak(buffer, pos);
    FindBreakAtMost(buffer, pos, end);
    if lineEnd < end {
      NoBlankLineBefore(buffer, 0, lineEnd);
    }
  }

  lemma {:induction false} LinesStep(buffer: string, pos: nat, end: nat)
    requires SectionEnds(buffer, end) && pos <= end
    ensures var lineEnd := FindBreak(buffer, pos);
            pos <= lineEnd <= end && (lineEnd < end ==> lineEnd + 2 < end) &&
            Lines(buffer[pos..end]) ==
            [buffer[pos..lineEnd]] + (if lineEnd < end then Lines(buffer[lineEnd + 2..end]) else [])
  {
    hide FindBreak, FindBlankLine;
    LineEnd(buffer, pos, end);
    FindBreakInSlice(buffer, pos, end, 0);
    var section := buffer[pos..end];
    var lineEnd := FindBreak(buffer, pos);
    if lineEnd < end {
      assert section[..lineEnd - pos] == buffer[pos..lineEnd];
      assert section[lineEnd - pos + 2..] == buffer[lineEnd + 2..end];
    }
  }

  lemma {:induction false} FirstExpectStep(buffer: string, pos: nat, end: nat)
    requires SectionEnds(buffer, end) && pos <= end
    ensures var lineEnd := FindBreak(buffer, pos);
            pos <= lineEnd <= end && (lineEnd < end ==> lineEnd + 2 < end) &&
            FirstExpect(Lines(buffer[pos..end])) ==
            if IsExpectField(buffer[pos..lineEnd]) then FieldValue(buffer[pos..lineEnd])
            else if lineEnd < end then FirstExpect(Lines(buffer[lineEnd + 2..end])) else ""
  {
    hide IsExpectField, FieldValue, FindBreak, FindBlankLine, Lines;
    LinesStep(buffer, pos, end);
    var lineEnd := FindBreak(buffer, pos);
    var lines := Lines(buffer[pos..end]);
    assert lines[1..] == if lineEnd < end then Lines(buffer[lineEnd + 2..end]) else [];
  }

  /** The index arithmetic of the loop reads the field on its line. */
  lemma {:induction false} FieldOnLine(buffer: string, pos: nat, lineEnd: nat)
    requires pos <= lineEnd <= |buffer|
    ensures var colon := IndexOf(buffer, ':', pos);
            IsExpectField(buffer[pos..lineEnd]) <==> colon < lineEnd && Lower(buffer[pos..colon]) == "expect"
    ensures var colon := IndexOf(buffer, ':', pos);
            colon < lineEnd ==> FieldValue(buffer[pos..lineEnd]) == Trim(buffer[colon + 1..lineEnd])
  {
    hide Trim, IndexOf, Lower;
    var line := buffer[pos..lineEnd];
    var colon := IndexOf(buffer, ':', pos);
    IndexOfInSlice(buffer, ':', pos, lineEnd, 0);
    if colon < lineEnd {
      assert line[..colon - pos] == buffer[pos..colon];
      assert line[colon - pos + 1..] == buffer[colon + 1..lineEnd];
    }
  }

  lemma {:induction false} FindLastHttpInLine(s: string, eol: nat, from: int)
    requires BreakAt(s, eol) && -1 <= from <= eol
    ensures FindLastHttp(s, from) == FindLastHttp(s[..eol], from)
    decreases from
  {
    if from >= 0 {
      assert HttpAt(s, from) <==> HttpAt(s[..eol], from) by {
        if eol - 5 < from {
          assert s[eol] == '\r';
        }
      }
      if !HttpAt(s, from) {
        FindLastHttpInLine(s, eol, from - 1);
      }
    }
  }

  /** The version is looked for at or before the first line break and never runs past it. */
  lemma {:induction false} VersionOnLine(buffer: string, eol: nat)
    requires BreakAt(buffer, eol)
    ensures var i := FindLastHttp(buffer, eol);
            (i >= 0 ==> i + 5 <= eol) &&
            VersionOf(buffer[..eol]) == if i >= 0 then buffer[i + 5..eol] else ""
  {
    FindLastHttpInLine(buffer, eol, eol);
    var i := FindLastHttp(buffer, eol);
    if i >= 0 {
      assert buffer[..eol][i + 5..] == buffer[i + 5..eol];
    }
  }

  // ---------------------------------------------------------------- peekRequestHead

  /** What the loop over the header lines goes on to find from `pos`. */
  ghost function ExpectAhead(buffer: string, pos: nat, end: nat): string
    requires SectionEnds(buffer, end)
    decreases |buffer| - pos
  {
    if pos >= end then ""
    else
      var lineEnd := FindBreak(buffer, pos);
      var line := buffer[pos..lineEnd];
      if IsExpectField(line) then FieldValue(line) else ExpectAhead(buffer, lineEnd + 2, end)
  }

  lemma {:induction false} ExpectAheadIsFirst(buffer: string, pos: nat, end: nat)
    requires SectionEnds(buffer, end) && pos < end
    ensures ExpectAhead(buffer, pos, end) == FirstExpect(Lines(buffer[pos..end]))
    decreases |buffer| - pos
  {
    FirstExpectStep(buffer, pos, end);
    var lineEnd := FindBreak(buffer, pos);
    if lineEnd < end {
      ExpectAheadIsFirst(buffer, lineEnd + 2, end);
    }
  }

  lemma {:induction false} FirstLine(buffer: string, end: nat)
    requires SectionEnds(buffer, end)
    ensures var eol := FindBreak(buffer, 0);
            eol <= end && Lines(buffer[..end])[0] == buffer[..eol] &&
            FirstExpect(Lines(buffer[..end])[1..]) == ExpectAhead(buffer, eol + 2, end)
  {
    hide FindBlankLine, Lines;
    LinesStep(buffer, 0, end);
    var eol := FindBreak(buffer, 0);
    assert buffer[0..end] == buffer[..end] && buffer[0..eol] == buffer[..eol];
    hide FindBreak;
    if eol < end {
      assert Lines(buffer[..end])[1..] == Lines(buffer[eol + 2..end]);
      ExpectAheadIsFirst(buffer, eol + 2, end);
    } else {
      assert Lines(buffer[..end])[1..] == [];
    }
  }

  lemma {:induction false} HeadFromParts(buffer: string, end: nat)
    requires SectionEnds(buffer, end)
    ensures var eol := FindBreak(buffer, 0);
            var versionPos := FindLastHttp(buffer, eol);
            eol <= end && (versionPos >= 0 ==> versionPos + 5 <= eol) &&
            ScanHead(buffer) == RawRequestHead(
                                true,
                                if versionPos >= 0 then buffer[versionPos + 5..eol] else "",
                                ExpectAhead(buffer, eol + 2, end))
  {
    FirstLine(buffer, end);
    hide FindLastHttp, VersionOf, ExpectAhead, FirstExpect, Lines, FindBlankLine, FindBreak;
    VersionOnLine(buffer, FindBreak(buffer, 0));
  }

  /** One turn of the loop over the header lines. */
  lemma {:induction false} ExpectStep(buffer: string, pos: nat, end: nat)
    requires SectionEnds(buffer, end) && pos < end
    ensures var lineEnd := FindBreak(buffer, pos);
            var colon := IndexOf(buffer, ':', pos);
            pos <= lineEnd <= end &&
            ExpectAhead(buffer, pos, end) ==
            if colon < lineEnd && Lower(buffer[pos..colon]) == "expect" then Trim(buffer[colon + 1..lineEnd])
            else ExpectAhead(buffer, lineEnd + 2, end)
  {
    hide Trim, Lower, IndexOf, FindBreak, IsExpectField, FieldValue, FindBlankLine;
    LineEnd(buffer, pos, end);
    FieldOnLine(buffer, pos, FindBreak(buffer, pos));
  }

  method ReadValue(buffer: string, colon: nat, lineEnd: nat) returns (value: string)
    requires colon < lineEnd <= |buffer|
    ensures value == Trim(buffer[colon + 1..lineEnd])
  {
    TrimBetween(buffer, colon + 1, lineEnd);
    value := "";
    var first := FirstNotBlank(buffer, colon + 1);
    if first < |buffer| && first < lineEnd {
      var last := LastNotBlank(buffer, lineEnd - 1);
      value := buffer[first..last + 1];
    }
  }

  method PeekExpect(buffer: string, start: nat, end: nat) returns (value: string)
    requires SectionEnds(buffer, end)
    ensures value == ExpectAhead(buffer, start, end)
  {
    hide FindBreak, FindBlankLine, IndexOf, Lower, Trim, IsExpectField, FieldValue;
    var pos := start;
    while pos < end
      invariant 0 <= pos
      invariant ExpectAhead(buffer, start, end) == ExpectAhead(buffer, pos, end)
      decreases |buffer| - pos
    {
      ExpectStep(buffer, pos, end);
      var lineEnd := FindBreak(buffer, pos);
      var colon := IndexOf(buffer, ':', pos);
      if colon < |buffer| && colon < lineEnd && Lower(buffer[pos..colon]) == "expect" {
        value := ReadValue(buffer, colon, lineEnd);
        return;
      }
      pos := lineEnd + 2;
    }
    return "";
  }

  method PeekRequestHead(buffer: string) returns (head: RawRequestHead)
    ensures head == ScanHead(buffer)
  {
    hide FindBreak, FindBlankLine, FindLastHttp, ExpectAhead, Lines;
    head := RawRequestHead(false, "", "");
    var end := FindBlankLine(buffer, 0);
    if end < |buffer| {
      HeadFromParts(buffer, end);
      var eol := FindBreak(buffer, 0);
      var versionPos := FindLastHttp(buffer, eol);
      var version := if versionPos != -1 then buffer[versionPos + 5..eol] else "";
      var value := PeekExpect(buffer, eol + 2, end);
      head := RawRequestHead(true, version, value);
    }
  }

  // ---------------------------------------------------------------- what it is for

  /** Once the header section has arrived, nothing that arrives later changes what was read from it. */
  lemma {:induction false} HeadIsStable(buffer: string, more: string)
    requires ScanHead(buffer).complete
    ensures ScanHead(buffer + more) == ScanHead(buffer)
  {
    var end := FindBlankLine(buffer, 0);
    FindBlankLineOfExtension(buffer, more, 0);
    assert end < |buffer| && (buffer + more)[..end] == buffer[..end];
  }

  // ---------------------------------------------------------------- a head that is written

  predicate OnOneLine(s: string) {
    '\r' !in s
  }

  predicate AllOnOneLine(lines: seq<string>) {
    forall i :: 0 <= i < |lines| ==> OnOneLine(lines[i])
  }

  function Joined(lines: seq<string>): string
    requires lines != []
  {
    if |lines| == 1 then lines[0] else lines[0] + CRLF + Joined(lines[1..])
  }

  lemma {:induction false} NoBreakOn(line: string, more: string, from: nat)
    requires OnOneLine(line) && from <= |line|
    ensures FindBreak(line, from) == |line| && FindBreak(line + CRLF + more, from) == |line|
    decreases |line| - from
  {
    var s := line + CRLF + more;
    if from < |line| {
      assert s[from] == line[from];
      NoBreakOn(line, more, from + 1);
    } else {
      assert BreakAt(s, from);
    }
  }

  lemma {:induction false} LinesOfTwo(line: string, rest: string)
    requires OnOneLine(line)
    ensures Lines(line) == [line] && Lines(line + CRLF + rest) == [line] + Lines(rest)
  {
    hide FindBreak, OnOneLine;
    NoBreakOn(line, rest, 0);
    var s := line + CRLF + rest;
    assert s[..|line|] == line && s[|line| + 2..] == rest;
  }

  lemma {:induction false} LinesOfJoined(lines: seq<string>)
    requires lines != [] && AllOnOneLine(lines)
    ensures Lines(Joined(lines)) == lines
    decreases |lines|
  {
    hide FindBreak, Lines, OnOneLine;
    if |lines| == 1 {
      LinesOfTwo(lines[0], "");
    } else {
      LinesOfTwo(lines[0], Joined(lines[1..]));
      LinesOfJoined(lines[1..]);
    }
  }

  lemma {:induction false} BlankLineShifts(before: string, s: string, from: nat)
    requires from <= |s|
    ensures FindBlankLine(before + s, |before| + from) == |before| + FindBlankLine(s, from)
    decreases |s| - from
  {
    assert BlankLineAt(before + s, |before| + from) <==> BlankLineAt(s, from);
    if from < |s| && !BlankLineAt(s, from) {
      BlankLineShifts(before, s, from + 1);
    }
  }

  lemma {:induction false} NoBlankLineIn(s: string, from: nat, to: nat)
    requires from <= to <= |s|
    requires forall k :: from <= k < to ==> !BlankLineAt(s, k)
    ensures FindBlankLine(s, from) == FindBlankLine(s, to)
    decreases |s| - from
  {
    if from < to {
      NoBlankLineIn(s, from + 1, to);
    }
  }

  /** The header section ends where it was ended, as long as no line of it is empty. */
  lemma {:induction false} EndOfJoined(lines: seq<string>, body: string)
    requires lines != [] && AllOnOneLine(lines) && forall i :: 0 < i < |lines| ==> lines[i] != ""
    ensures FindBlankLine(Joined(lines) + CRLF + CRLF + body, 0) == |Joined(lines)|
    decreases |lines|
  {
    var s, line := Joined(lines) + CRLF + CRLF + body, lines[0];
    assert s[..|line|] == line;
    if |lines| == 1 {
      assert forall k :: 0 <= k < |line| ==> s[k] == line[k];
      NoBlankLineIn(s, 0, |line|);
      assert BlankLineAt(s, |line|);
    } else {
      var rest := Joined(lines[1..]) + CRLF + CRLF + body;
      assert s == line + CRLF + rest;
      assert forall k :: 0 <= k < |line| ==> s[k] == line[k];
      FirstOctet(lines[1..]);
      assert s[|line| + 2] == rest[0] == lines[1][0];
      NoBlankLineIn(s, 0, |line| + 2);
      EndOfJoined(lines[1..], body);
      BlankLineShifts(line + CRLF, rest, 0);
    }
  }

  lemma {:induction false} FirstOctet(lines: seq<string>)
    requires lines != [] && lines[0] != ""
    ensures Joined(lines) != "" && Joined(lines)[0] == lines[0][0]
  {
  }

  lemma {:induction false} LastHttp(start: string, version: string, from: nat)
    requires '/' !in version
    requires |start| <= from <= |start + "HTTP/" + version|
    ensures FindLastHttp(start + "HTTP/" + version, from) == |start|
    decreases from
  {
    var line := start + "HTTP/" + version;
    if from == |start| {
      assert HttpAt(line, from);
    } else {
      assert from + 5 <= |line| ==> line[from + 4] == version[from - 1 - |start|];
      LastHttp(start, version, from - 1);
    }
  }

  /** The version on a request line is what follows its last "HTTP/". */
  lemma {:induction false} VersionIsRead(start: string, version: string)
    requires '/' !in version
    ensures VersionOf(start + "HTTP/" + version) == version
  {
    hide FindLastHttp;
    var line := start + "HTTP/" + version;
    LastHttp(start, version, |line|);
    assert line[|start| + 5..] == version;
  }

  datatype Field = Field(name: string, value: string)

  /** A field as a client writes it. */
  predicate IsWritten(f: Field) {
    OnOneLine(f.name) && ':' !in f.name && OnOneLine(f.value) && (f.value == "" || IsBare(f.value))
  }

  predicate AllWritten(fields: seq<Field>) {
    forall i :: 0 <= i < |fields| ==> IsWritten(fields[i])
  }

  function FieldLine(f: Field): string {
    f.name + ": " + f.value
  }

  function FieldLines(fields: seq<Field>): seq<string> {
    if fields == [] then [] else [FieldLine(fields[0])] + FieldLines(fields[1..])
  }

  /** What the client expects: the value of its first field of that name, in whatever case that is written. */
  function Expectation(fields: seq<Field>): string {
    if fields == [] then ""
    else if Lower(fields[0].name) == "expect" then fields[0].value
    else Expectation(fields[1..])
  }

  lemma {:induction false} ColonBehind(name: string, value: string, from: nat)
    requires ':' !in name && from <= |name|
    ensures IndexOf(name + ": " + value, ':', from) == |name|
    decreases |name| - from
  {
    if from < |name| {
      assert (name + ": " + value)[from] == name[from];
      ColonBehind(name, value, from + 1);
    }
  }

  lemma {:induction false} FieldIsRead(f: Field)
    requires IsWritten(f)
    ensures IsExpectField(FieldLine(f)) <==> Lower(f.name) == "expect"
    ensures FieldValue(FieldLine(f)) == f.value
  {
    hide Lower, IndexOf, Trim;
    var line := FieldLine(f);
    ColonBehind(f.name, f.value, 0);
    assert line[..|f.name|] == f.name && line[|f.name| + 1..] == " " + f.value;
    if f.value == "" {
      assert " " + f.value == " ";
      TrimOfPadding(" ");
    } else {
      TrimTakesPadding(" ", f.value, "");
      assert " " + f.value + "" == " " + f.value;
    }
  }

  lemma {:induction false} FieldsAreRead(fields: seq<Field>)
    requires AllWritten(fields)
    ensures FirstExpect(FieldLines(fields)) == Expectation(fields)
    ensures AllOnOneLine(FieldLines(fields))
    ensures forall i :: 0 <= i < |FieldLines(fields)| ==> FieldLines(fields)[i] != ""
    decreases |fields|
  {
    hide IsExpectField, FieldValue, Lower;
    if fields != [] {
      FieldIsRead(fields[0]);
      FieldsAreRead(fields[1..]);
      assert FieldLines(fields)[1..] == FieldLines(fields[1..]);
      OneLine(fields[0]);
    }
  }

  lemma {:induction false} OneLine(f: Field)
    requires IsWritten(f)
    ensures OnOneLine(FieldLine(f)) && FieldLine(f) != ""
  {
  }

  /** A request head as a client writes it, in front of whatever follows. */
  function WrittenHead(start: string, version: string, fields: seq<Field>, body: string): string {
    Joined([start + "HTTP/" + version] + FieldLines(fields)) + CRLF + CRLF + body
  }

  /** The scanner finds in a head what the client wrote there: the version on its request line, and what it expects;
      whatever the request, the other fields and the octets that follow are. */
  lemma {:induction false} WrittenHeadIsRead(start: string, version: string, fields: seq<Field>, body: string)
    requires OnOneLine(start) && OnOneLine(version) && '/' !in version && AllWritten(fields)
    ensures ScanHead(WrittenHead(start, version, fields, body)) ==
            RawRequestHead(true, version, Expectation(fields))
  {
    hide FindBlankLine, Lines, VersionOf, FirstExpect, Joined;
    FieldsAreRead(fields);
    VersionIsRead(start, version);
    var line, rest := start + "HTTP/" + version, FieldLines(fields);
    var lines := [line] + rest;
    assert OnOneLine(line);
    assert lines[1..] == rest;
    LinesOfJoined(lines);
    EndOfJoined(lines, body);
    var section := Joined(lines);
    assert (section + CRLF + CRLF + body)[..|section|] == section;
  }
}
