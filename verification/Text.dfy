/** Searching and trimming in octet strings, as std::string offers them.  A `char` stands for one octet.
    A forward search that finds nothing answers the length of the string, a backward one -1. */
module Text {

  const CRLF: string := "\r\n"

  predicate IsBlank(c: char) {
    c == ' ' || c == '\t'
  }

  /** The position of the first `c` at or after `from`. */
  function IndexOf(s: string, c: char, from: nat): (i: nat)
    requires from <= |s|
    ensures from <= i <= |s|
    decreases |s| - from
  {
    if from == |s| || s[from] == c then from else IndexOf(s, c, from + 1)
  }

  /** The position of the first octet at or after `from` that is not a blank. */
  function FirstNotBlank(s: string, from: nat): (i: nat)
    requires from <= |s|
    ensures from <= i <= |s|
    decreases |s| - from
  {
    if from == |s| || !IsBlank(s[from]) then from else FirstNotBlank(s, from + 1)
  }

  /** The position of the last octet at or before `from` that is not a blank. */
  function LastNotBlank(s: string, from: int): (i: int)
    requires -1 <= from < |s|
    ensures -1 <= i <= from
    decreases from
  {
    if from == -1 || !IsBlank(s[from]) then from else LastNotBlank(s, from - 1)
  }

  predicate BreakAt(s: string, i: nat) {
    i + 2 <= |s| && s[i] == '\r' && s[i + 1] == '\n'
  }

  /** The position of the first line break at or after `from`. */
  function FindBreak(s: string, from: nat): (i: nat)
    requires from <= |s|
    ensures from <= i <= |s|
    ensures i < |s| ==> BreakAt(s, i)
    decreases |s| - from
  {
    if from == |s| || BreakAt(s, from) then from else FindBreak(s, from + 1)
  }

  /** Two line breaks in a row: the end of a header section. */
  predicate BlankLineAt(s: string, i: nat) {
    BreakAt(s, i) && BreakAt(s, i + 2)
  }

  function FindBlankLine(s: string, from: nat): (i: nat)
    requires from <= |s|
    ensures from <= i <= |s|
    ensures i < |s| ==> BlankLineAt(s, i)
    decreases |s| - from
  {
    if from == |s| || BlankLineAt(s, from) then from else FindBlankLine(s, from + 1)
  }

  function LowerChar(c: char): char {
    if 'A' <= c <= 'Z' then c - 'A' + 'a' else c
  }

  /** ASCII lower case. */
  function Lower(s: string): (r: string)
    ensures |r| == |s|
  {
    seq(|s|, i requires 0 <= i < |s| => LowerChar(s[i]))
  }

  /** `s` without its leading and trailing blanks. */
  function Trim(s: string): string {
    if s == "" then ""
    else if IsBlank(s[0]) then Trim(s[1..])
    else if IsBlank(s[|s| - 1]) then Trim(s[..|s| - 1])
    else s
  }

  // ---------------------------------------------------------------- trimming by index

  lemma {:induction false} TrimLeft(s: string, from: nat, end: nat)
    requires from <= end <= |s|
    ensures var first := FirstNotBlank(s, from);
            Trim(s[from..end]) == if first < end then Trim(s[first..end]) else ""
    decreases end - from
  {
    if from < end && IsBlank(s[from]) {
      assert s[from..end][1..] == s[from + 1..end];
      TrimLeft(s, from + 1, end);
    }
  }

  lemma {:induction false} TrimRight(s: string, first: nat, end: nat)
    requires first < end <= |s| && !IsBlank(s[first])
    ensures var last := LastNotBlank(s, end - 1);
            first <= last < end && Trim(s[first..end]) == s[first..last + 1] != ""
    decreases end
  {
    if IsBlank(s[end - 1]) {
      assert s[first..end][..end - first - 1] == s[first..end - 1];
      TrimRight(s, first, end - 1);
    }
  }

  lemma {:induction false} FirstNotBlankHas(s: string, from: nat)
    requires from <= |s|
    ensures FirstNotBlank(s, from) < |s| ==> !IsBlank(s[FirstNotBlank(s, from)])
    decreases |s| - from
  {
    if from < |s| && IsBlank(s[from]) {
      FirstNotBlankHas(s, from + 1);
    }
  }

  /** What the index arithmetic of the scanners computes: the part of `s` between `from` and `end`, trimmed. */
  lemma {:induction false} TrimBetween(s: string, from: nat, end: nat)
    requires from <= end <= |s|
    ensures FirstNotBlank(s, from) >= end ==> Trim(s[from..end]) == ""
    ensures FirstNotBlank(s, from) < end ==>
              var first := FirstNotBlank(s, from);
              var last := LastNotBlank(s, end - 1);
              first <= last < end && Trim(s[from..end]) == s[first..last + 1] != ""
  {
    TrimLeft(s, from, end);
    FirstNotBlankHas(s, from);
    if FirstNotBlank(s, from) < end {
      TrimRight(s, FirstNotBlank(s, from), end);
    }
  }

  // ---------------------------------------------------------------- searching in a part, and in more

  lemma {:induction false} IndexOfInSlice(s: string, c: char, from: nat, end: nat, i: nat)
    requires from + i <= end <= |s|
    ensures IndexOf(s[from..end], c, i) ==
            if IndexOf(s, c, from + i) < end then IndexOf(s, c, from + i) - from else end - from
    decreases end - i
  {
    if from + i < end && s[from + i] != c {
      IndexOfInSlice(s, c, from, end, i + 1);
    }
  }

  lemma {:induction false} FindBreakInSlice(s: string, from: nat, end: nat, i: nat)
    requires from + i <= end <= |s|
    requires end > 0 ==> !BreakAt(s, end - 1)
    ensures FindBreak(s[from..end], i) ==
            if FindBreak(s, from + i) < end then FindBreak(s, from + i) - from else end - from
    decreases end - i
  {
    if from + i < end {
      assert BreakAt(s[from..end], i) <==> BreakAt(s, from + i);
      if !BreakAt(s, from + i) {
        FindBreakInSlice(s, from, end, i + 1);
      }
    }
  }

  lemma {:induction false} FindBreakOfExtension(s: string, more: string, from: nat)
    requires from <= |s| && FindBreak(s, from) < |s|
    ensures FindBreak(s + more, from) == FindBreak(s, from)
    decreases |s| - from
  {
    assert BreakAt(s + more, from) <==> BreakAt(s, from);
    if !BreakAt(s, from) {
      FindBreakOfExtension(s, more, from + 1);
    }
  }

  lemma {:induction false} FindBlankLineOfExtension(s: string, more: string, from: nat)
    requires from <= |s| && FindBlankLine(s, from) < |s|
    ensures FindBlankLine(s + more, from) == FindBlankLine(s, from)
    decreases |s| - from
  {
    assert BlankLineAt(s + more, from) <==> BlankLineAt(s, from);
    if !BlankLineAt(s, from) {
      FindBlankLineOfExtension(s, more, from + 1);
    }
  }

  // ---------------------------------------------------------------- letters in any case, and blanks

  predicate SameLetter(a: char, b: char) {
    a == b || ('A' <= a <= 'Z' && b as int == a as int + 32) || ('A' <= b <= 'Z' && a as int == b as int + 32)
  }

  /** Two strings are the same in lower case exactly when they differ at most in the case of their ASCII letters. */
  lemma {:induction false} SameInAnyCase(s: string, t: string)
    ensures Lower(s) == Lower(t) <==> |s| == |t| && forall i :: 0 <= i < |s| ==> SameLetter(s[i], t[i])
  {
    if Lower(s) == Lower(t) {
      forall i | 0 <= i < |s|
        ensures SameLetter(s[i], t[i])
      {
        assert Lower(s)[i] == Lower(t)[i];
      }
    } else if |s| == |t| {
      var i :| 0 <= i < |s| && Lower(s)[i] != Lower(t)[i];
    }
  }

  /** White space as it may stand around an element of a list: spaces and tabs. */
  predicate IsPadding(s: string) {
    forall i :: 0 <= i < |s| ==> s[i] == ' ' || s[i] == '\t'
  }

  /** Not empty, and with neither a space nor a tab at either end. */
  predicate IsBare(s: string) {
    s != "" && s[0] != ' ' && s[0] != '\t' && s[|s| - 1] != ' ' && s[|s| - 1] != '\t'
  }

  /** Trimming takes off the spaces and tabs at both ends, and nothing else. */
  lemma {:induction false} TrimTakesPadding(left: string, s: string, right: string)
    requires IsPadding(left) && IsPadding(right) && IsBare(s)
    ensures Trim(left + s + right) == s
    decreases |left| + |right|
  {
    var whole := left + s + right;
    if left != "" {
      assert whole[0] == left[0] && whole[1..] == left[1..] + s + right;
      TrimTakesPadding(left[1..], s, right);
    } else if right != "" {
      var less := right[..|right| - 1];
      assert whole[0] == s[0] && whole[|whole| - 1] == right[|right| - 1] && whole[..|whole| - 1] == left + s + less;
      TrimTakesPadding(left, s, less);
    } else {
      assert whole == s;
    }
  }

  lemma {:induction false} TrimOfPadding(s: string)
    requires IsPadding(s)
    ensures Trim(s) == ""
    decreases |s|
  {
    if s != "" {
      TrimOfPadding(s[1..]);
    }
  }
}
