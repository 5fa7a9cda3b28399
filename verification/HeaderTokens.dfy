/** Comma separated header values and the fields they name: hasHeaderToken, stripHopByHopHeaders
    and negotiateVersion. */
module HeaderTokens {
  import opened Text
  import opened Wrappers

  /** A header section.  Field names are case-insensitive, so the keys are in lower case. */
  type Headers = map<string, string>

  datatype Version = V10 | V11

  // ---------------------------------------------------------------- specification

  function Split(s: string, separator: char): (parts: seq<string>)
    ensures |parts| > 0
    decreases |s|
  {
    var i := IndexOf(s, separator, 0);
    if i == |s| then [s] else [s[..i]] + Split(s[i + 1..], separator)
  }

  /** The trimmed parts that are not empty. */
  function Trimmed(parts: seq<string>): seq<string> {
    if parts == [] then []
    else (if Trim(parts[0]) == "" then [] else [Trim(parts[0])]) + Trimmed(parts[1..])
  }

  /** The elements of a list-valued header field. */
  function Elements(value: string): seq<string> {
    Trimmed(Split(value, ','))
  }

  predicate NamesToken(elements: seq<string>, token: string) {
    exists e :: e in elements && Lower(e) == token
  }

  /** Whether some element of the list is the token, in whatever case it is written. */
  predicate HasToken(value: string, token: string) {
    NamesToken(Elements(value), token)
  }

  lemma {:induction false} TrimmedOfCons(part: string, parts: seq<string>)
    ensures Trimmed([part] + parts) == (if Trim(part) == "" then [] else [Trim(part)]) + Trimmed(parts)
  {
    assert ([part] + parts)[1..] == parts;
  }

  lemma {:induction false} SplitAt(s: string, end: nat)
    requires end <= |s| && IndexOf(s, ',', 0) == end
    ensures Split(s, ',') == if end == |s| then [s] else [s[..end]] + Split(s[end + 1..], ',')
  {
  }

  lemma {:induction false} SplitStep(value: string, pos: nat)
    requires pos <= |value|
    ensures var end := IndexOf(value, ',', pos);
            Split(value[pos..], ',') ==
            [value[pos..end]] + (if end < |value| then Split(value[end + 1..], ',') else [])
  {
    hide IndexOf, Split;
    var rest, end := value[pos..], IndexOf(value, ',', pos);
    assert rest == value[pos..|value|];
    IndexOfInSlice(value, ',', pos, |value|, 0);
    SplitAt(rest, end - pos);
    assert rest[..end - pos] == value[pos..end];
    if end < |value| {
      assert rest[end - pos + 1..] == value[end + 1..];
    } else {
      assert rest == value[pos..end];
    }
  }

  /** What a scanning loop that has reached `pos` with `listed` in hand goes on to collect. */
  ghost function Collected(value: string, pos: nat, listed: seq<string>): seq<string>
    decreases |value| + 1 - pos
  {
    if pos > |value| then listed else
    var end := IndexOf(value, ',', pos);
    var part := Trim(value[pos..end]);
    Collected(value, end + 1, if part == "" then listed else listed + [part])
  }

  lemma {:induction false} ElementsStep(value: string, pos: nat)
    requires pos <= |value|
    ensures var end := IndexOf(value, ',', pos);
            var part := Trim(value[pos..end]);
            Elements(value[pos..]) ==
            (if part == "" then [] else [part]) + (if end < |value| then Elements(value[end + 1..]) else [])
  {
    var end := IndexOf(value, ',', pos);
    SplitStep(value, pos);
    TrimmedOfCons(value[pos..end], if end < |value| then Split(value[end + 1..], ',') else []);
  }

  lemma {:induction false} AppendCons(listed: seq<string>, part: string, rest: seq<string>)
    ensures listed + ([part] + rest) == listed + [part] + rest
    ensures listed + ([] + rest) == listed + rest
  {
  }

  lemma {:induction false} CollectedIsElements(value: string, pos: nat, listed: seq<string>)
    requires pos <= |value|
    ensures Collected(value, pos, listed) == listed + Elements(value[pos..])
    decreases |value| - pos
  {
    hide Split, Trimmed, Trim, IndexOf;
    var end := IndexOf(value, ',', pos);
    var part := Trim(value[pos..end]);
    var rest := if end < |value| then Elements(value[end + 1..]) else [];
    ElementsStep(value, pos);
    AppendCons(listed, part, rest);
    var longer := if part == "" then listed else listed + [part];
    assert Collected(value, end + 1, longer) == longer + rest by {
      if end < |value| {
        CollectedIsElements(value, end + 1, longer);
      }
    }
  }

  lemma {:induction false} CollectedOfWhole(value: string)
    ensures Collected(value, 0, []) == Elements(value)
  {
    CollectedIsElements(value, 0, []);
    assert value[0..] == value;
  }

  // ---------------------------------------------------------------- hasHeaderToken

  /** Whether a scanning loop that has reached `pos` goes on to find the token. */
  ghost predicate TokenAhead(value: string, pos: nat, token: string)
    decreases |value| + 1 - pos
  {
    pos <= |value| &&
    var end := IndexOf(value, ',', pos);
    var part := Trim(value[pos..end]);
    (part != "" && Lower(part) == token) || TokenAhead(value, end + 1, token)
  }

  lemma {:induction false} TokenAheadIsCollected(value: string, pos: nat, listed: seq<string>, token: string)
    ensures NamesToken(Collected(value, pos, listed), token) <==>
            NamesToken(listed, token) || TokenAhead(value, pos, token)
    decreases |value| + 1 - pos
  {
    if pos <= |value| {
      var end := IndexOf(value, ',', pos);
      var part := Trim(value[pos..end]);
      var longer := if part == "" then listed else listed + [part];
      assert NamesToken(longer, token) <==> NamesToken(listed, token) || (part != "" && Lower(part) == token) by {
        if part != "" && Lower(part) == token {
          assert part in longer;
        }
      }
      TokenAheadIsCollected(value, end + 1, longer, token);
    }
  }

  method HasHeaderToken(value: string, token: string) returns (found: bool)
    ensures found <==> HasToken(value, token)
  {
    hide IndexOf, FirstNotBlank, LastNotBlank, Trim, Lower, Elements;
    CollectedOfWhole(value);
    TokenAheadIsCollected(value, 0, [], token);
    var pos := 0;
    while pos <= |value|
      invariant 0 <= pos <= |value| + 1
      invariant HasToken(value, token) <==> TokenAhead(value, pos, token)
    {
      var end := IndexOf(value, ',', pos);
      TrimBetween(value, pos, end);
      var first := FirstNotBlank(value, pos);
      if first < |value| && first < end {
        var last := LastNotBlank(value, end - 1);
        if Lower(value[first..last + 1]) == token {
          return true;
        }
      }
      pos := end + 1;
    }
    return false;
  }

  lemma {:induction false} NoComma(value: string, from: nat)
    requires from <= |value| && ',' !in value
    ensures IndexOf(value, ',', from) == |value|
    decreases |value| - from
  {
    if from < |value| {
      NoComma(value, from + 1);
    }
  }

  lemma {:induction false} SingleElement(value: string)
    requires value != "" && ',' !in value && !IsBlank(value[0]) && !IsBlank(value[|value| - 1])
    ensures Elements(value) == [value]
  {
    NoComma(value, 0);
    assert Split(value, ',') == [value] + [];
    TrimmedOfCons(value, []);
    assert [value] + [] == [value];
  }

  lemma {:induction false} TokenOfItself(token: string)
    requires token != "" && ',' !in token && !IsBlank(token[0]) && !IsBlank(token[|token| - 1]) && Lower(token) == token
    ensures HasToken(token, token)
  {
    SingleElement(token);
  }

  lemma {:induction false} OnlyToken(token: string, other: string)
    requires token != "" && ',' !in token && !IsBlank(token[0]) && !IsBlank(token[|token| - 1]) && Lower(token) == token
    requires other != token
    ensures !HasToken(token, other)
  {
    SingleElement(token);
  }

  // ---------------------------------------------------------------- a list that is written

  lemma {:induction false} CommaBehind(one: string, other: string, from: nat)
    requires from <= |one|
    ensures IndexOf(one + "," + other, ',', from) == IndexOf(one, ',', from)
    decreases |one| - from
  {
    if from < |one| && one[from] != ',' {
      CommaBehind(one, other, from + 1);
    }
  }

  lemma {:induction false} SplitOfList(one: string, other: string)
    ensures Split(one + "," + other, ',') == Split(one, ',') + Split(other, ',')
    decreases |one|
  {
    hide IndexOf;
    var list, i := one + "," + other, IndexOf(one, ',', 0);
    CommaBehind(one, other, 0);
    if i == |one| {
      assert list[..i] == one && list[i + 1..] == other;
    } else {
      assert list[..i] == one[..i] && list[i + 1..] == one[i + 1..] + "," + other;
      SplitOfList(one[i + 1..], other);
    }
  }

  lemma {:induction false} TrimmedOfBoth(one: seq<string>, other: seq<string>)
    ensures Trimmed(one + other) == Trimmed(one) + Trimmed(other)
    decreases |one|
  {
    hide Trim;
    if one == [] {
      assert one + other == other;
    } else {
      assert (one + other)[1..] == one[1..] + other;
      TrimmedOfBoth(one[1..], other);
    }
  }

  /** The elements of a list are those of its parts, in order. */
  lemma {:induction false} ElementsOfList(one: string, other: string)
    ensures Elements(one + "," + other) == Elements(one) + Elements(other)
  {
    hide Split, Trimmed;
    SplitOfList(one, other);
    TrimmedOfBoth(Split(one, ','), Split(other, ','));
  }

  lemma {:induction false} NoCommaIn(left: string, s: string, right: string)
    requires IsPadding(left) && IsPadding(right) && ',' !in s
    ensures ',' !in left + s + right
  {
  }

  /** An element is read as it was written, whatever spaces and tabs stand around it. */
  lemma {:induction false} ElementIsRead(left: string, s: string, right: string)
    requires IsPadding(left) && IsPadding(right) && IsBare(s) && ',' !in s
    ensures Elements(left + s + right) == [s]
  {
    hide Trim, IsPadding;
    var part := left + s + right;
    NoCommaIn(left, s, right);
    NoComma(part, 0);
    TrimTakesPadding(left, s, right);
    assert Split(part, ',') == [part] + [];
    TrimmedOfCons(part, []);
    assert [s] + [] == [s];
  }

  /** A token is found wherever it stands in a list, however it is written and padded. */
  lemma {:induction false} TokenIsFound(before: string, left: string, s: string, right: string, after: string)
    requires IsPadding(left) && IsPadding(right) && IsBare(s) && ',' !in s
    ensures HasToken(before + "," + (left + s + right) + "," + after, Lower(s))
  {
    hide Elements, IsPadding, IsBare, Lower;
    var element := left + s + right;
    ElementIsRead(left, s, right);
    ElementsOfList(before + "," + element, after);
    ElementsOfList(before, element);
    assert s in Elements(before + "," + element + "," + after);
  }

  // ---------------------------------------------------------------- stripHopByHopHeaders

  const HOP_BY_HOP: seq<string> :=
    ["Connection", "Keep-Alive", "Proxy-Connection", "Proxy-Authenticate", "Proxy-Authorization", "TE", "Trailer"]

  function GetHeader(headers: Headers, name: string): string
    requires Lower(name) in headers
  {
    headers[Lower(name)]
  }

  predicate HasHeader(headers: Headers, name: string) {
    Lower(name) in headers
  }

  /** Removes the field of that name, in whatever case the name is given. */
  function RemoveHeader(headers: Headers, name: string): Headers {
    headers - {Lower(name)}
  }

  /** The names, in lower case, of the fields that apply to the arriving hop only
      (section 7.6.1 of RFC 9110). */
  function HopNames(headers: Headers): set<string> {
    (set name | name in HOP_BY_HOP :: Lower(name)) +
    (if HasHeader(headers, "Connection") then
       set e | e in Elements(GetHeader(headers, "Connection")) :: Lower(e)
     else {})
  }

  /** The request's headers as a handler may see them: no hop-by-hop field is left, every other field is untouched. */
  function WithoutHopByHop(headers: Headers): (r: Headers)
    ensures forall name :: name in r <==> name in headers && name !in HopNames(headers)
    ensures forall name :: name in r ==> r[name] == headers[name]
  {
    headers - HopNames(headers)
  }

  method RemoveAll(headers: Headers, names: seq<string>) returns (r: Headers)
    ensures r == headers - (set n | n in names :: Lower(n))
  {
    r := headers;
    for i := 0 to |names|
      invariant r == headers - (set n | n in names[..i] :: Lower(n))
    {
      assert names[..i + 1] == names[..i] + [names[i]];
      r := RemoveHeader(r, names[i]);
    }
    assert names[..|names|] == names;
  }

  method CollectElements(value: string) returns (listed: seq<string>)
    ensures listed == Elements(value)
  {
    listed := [];
    var pos := 0;
    while pos <= |value|
      invariant 0 <= pos <= |value| + 1
      invariant Collected(value, 0, []) == Collected(value, pos, listed)
    {
      var end := IndexOf(value, ',', pos);
      TrimBetween(value, pos, end);
      var first := FirstNotBlank(value, pos);
      if first < |value| && first < end {
        var last := LastNotBlank(value, end - 1);
        listed := listed + [value[first..last + 1]];
      }
      pos := end + 1;
    }
    CollectedOfWhole(value);
  }

  method StripHopByHopHeaders(headers: Headers) returns (r: Headers)
    ensures r == WithoutHopByHop(headers)
    ensures forall name :: name in HOP_BY_HOP ==> Lower(name) !in r
    ensures HasHeader(headers, "Connection") ==>
              forall e :: e in Elements(GetHeader(headers, "Connection")) ==> Lower(e) !in r
    ensures forall name :: name in headers && name !in HopNames(headers) ==> name in r && r[name] == headers[name]
  {
    // Collect what Connection names before the header itself is removed
    var listed: seq<string> := [];
    if HasHeader(headers, "Connection") {
      listed := CollectElements(GetHeader(headers, "Connection"));
    }
    r := RemoveAll(headers, HOP_BY_HOP);
    r := RemoveAll(r, listed);
  }

  // ---------------------------------------------------------------- negotiateVersion

  predicate IsDigit(c: char) {
    '0' <= c <= '9'
  }

  predicate IsNumber(s: string) {
    s != "" && forall i :: 0 <= i < |s| ==> IsDigit(s[i])
  }

  function DigitValue(c: char): nat
    requires IsDigit(c)
  {
    c as int - '0' as int
  }

  function NumberValue(s: string): nat
    requires forall i :: 0 <= i < |s| ==> IsDigit(s[i])
  {
    if s == "" then 0 else 10 * NumberValue(s[..|s| - 1]) + DigitValue(s[|s| - 1])
  }

  const UNSIGNED_LONG_LIMIT: nat := 0x1_0000_0000_0000_0000

  /** What a conversion to unsigned long makes of `s`: nothing when `s` is not a number or is too large. */
  function ToNumber(s: string): Option<nat> {
    if IsNumber(s) && NumberValue(s) < UNSIGNED_LONG_LIMIT then Some(NumberValue(s)) else None
  }

  /** The version a request is answered in.  Anything from 1.1 up is answered as 1.1, everything else,
      the unparseable included, as 1.0. */
  function NegotiateVersion(requestVersion: string): Version {
    var dot := IndexOf(requestVersion, '.', 0);
    if dot == |requestVersion| then V10
    else match (ToNumber(requestVersion[..dot]), ToNumber(requestVersion[dot + 1..]))
      case (Some(major), Some(minor)) => if major > 1 || (major == 1 && minor >= 1) then V11 else V10
      case _ => V10
  }

  lemma {:induction false} FirstDot(major: string, rest: string, from: nat)
    requires from <= |major| && '.' !in major
    ensures IndexOf(major + "." + rest, '.', from) == |major|
    decreases |major| - from
  {
    if from < |major| {
      assert (major + "." + rest)[from] == major[from];
      FirstDot(major, rest, from + 1);
    }
  }

  /** A version of two numbers is answered as 1.1 exactly from 1.1 up, numbers compared one by one. */
  lemma {:induction false} VersionOfNumbers(major: string, minor: string)
    requires IsNumber(major) && IsNumber(minor)
    requires NumberValue(major) < UNSIGNED_LONG_LIMIT && NumberValue(minor) < UNSIGNED_LONG_LIMIT
    ensures NegotiateVersion(major + "." + minor) == V11 <==>
            NumberValue(major) > 1 || (NumberValue(major) == 1 && NumberValue(minor) >= 1)
  {
    var s := major + "." + minor;
    assert '.' !in major by {
      assert forall i :: 0 <= i < |major| ==> IsDigit(major[i]);
    }
    FirstDot(major, minor, 0);
    assert s[..|major|] == major && s[|major| + 1..] == minor;
  }

  /** The text is that of a version of two numbers, from 1.1 up. */
  predicate FromV11(major: string, minor: string) {
    && IsNumber(major) && IsNumber(minor)
    && NumberValue(major) < UNSIGNED_LONG_LIMIT && NumberValue(minor) < UNSIGNED_LONG_LIMIT
    && (NumberValue(major) > 1 || (NumberValue(major) == 1 && NumberValue(minor) >= 1))
  }

  /** Nothing but a version of two numbers from 1.1 up is answered as 1.1: whatever else is sent gets 1.0. */
  lemma {:induction false} VersionExactly(version: string)
    ensures NegotiateVersion(version) == V11 <==>
            exists major, minor {:trigger FromV11(major, minor)} ::
              version == major + "." + minor && FromV11(major, minor)
  {
    hide NumberValue, IsNumber;
    if NegotiateVersion(version) == V11 {
      var dot := IndexOf(version, '.', 0);
      DotIsThere(version, 0);
      assert version == version[..dot] + "." + version[dot + 1..];
      assert FromV11(version[..dot], version[dot + 1..]);
    }
    forall major, minor | version == major + "." + minor && FromV11(major, minor)
      ensures NegotiateVersion(version) == V11
    {
      VersionOfNumbers(major, minor);
    }
  }

  lemma {:induction false} DotIsThere(version: string, from: nat)
    requires from <= |version|
    ensures IndexOf(version, '.', from) < |version| ==> version[IndexOf(version, '.', from)] == '.'
    decreases |version| - from
  {
    if from < |version| && version[from] != '.' {
      DotIsThere(version, from + 1);
    }
  }
}
