/** The JavaScript string operations the adapter relies on:
    `String.prototype.trim`, `split(/\r?\n/)`, `startsWith` and `endsWith`. */
module Text {

  /** The code points `trim` removes: ECMAScript WhiteSpace and LineTerminator. */
  predicate IsSpace(c: char)
  {
    c == ' ' || c == '\t' || c == '\n' || c == '\r' || c == '\U{000B}' || c == '\U{000C}'
    || c == '\U{00A0}' || c == '\U{1680}' || ('\U{2000}' <= c <= '\U{200A}')
    || c == '\U{2028}' || c == '\U{2029}' || c == '\U{202F}' || c == '\U{205F}'
    || c == '\U{3000}' || c == '\U{FEFF}'
  }

  predicate StartsWith(s: string, prefix: string)
  {
    |prefix| <= |s| && s[..|prefix|] == prefix
  }

  predicate EndsWith(s: string, suffix: string)
  {
    |suffix| <= |s| && s[|s| - |suffix|..] == suffix
  }

  /** Drops the leading white space: what is left is a suffix of `s`, what
      was dropped is all white space, and what is left does not start with it. */
  function TrimStart(s: string): (r: string)
    ensures |r| <= |s| && r == s[|s| - |r|..]
    ensures forall i :: 0 <= i < |s| - |r| ==> IsSpace(s[i])
    ensures r != [] ==> !IsSpace(r[0])
  {
    if s != [] && IsSpace(s[0]) then TrimStart(s[1..]) else s
  }

  /** Drops the trailing white space, symmetrically to TrimStart. */
  function TrimEnd(s: string): (r: string)
    ensures |r| <= |s| && r == s[..|r|]
    ensures forall i :: |r| <= i < |s| ==> IsSpace(s[i])
    ensures r != [] ==> !IsSpace(r[|r| - 1])
  {
    if s != [] && IsSpace(s[|s| - 1]) then TrimEnd(s[..|s| - 1]) else s
  }

  /** `s.trim()`: the slice of `s` left between a white-space prefix and a
      white-space suffix, neither starting nor ending with white space. */
  function Trim(s: string): (r: string)
    ensures var k := |s| - |TrimStart(s)|;
            k + |r| <= |s| && r == s[k..k + |r|]
            && (forall i :: 0 <= i < k ==> IsSpace(s[i]))
            && (forall i :: k + |r| <= i < |s| ==> IsSpace(s[i]))
    ensures r != [] ==> !IsSpace(r[0]) && !IsSpace(r[|r| - 1])
  {
    TrimEnd(TrimStart(s))
  }

  /** Trimming twice is trimming once. */
  lemma TrimIdempotent(s: string)
    ensures Trim(Trim(s)) == Trim(s)
  {
    var r := Trim(s);
    assert TrimStart(r) == r;
    assert TrimEnd(r) == r;
  }

  /** `s.split(/\r?\n/)`: the pieces between "\n" or "\r\n" separators, in
      order. There is always at least one piece, and no piece holds a "\n". */
  function Split(s: string): (r: seq<string>)
    ensures |r| >= 1
    ensures forall i :: 0 <= i < |r| ==> '\n' !in r[i]
    decreases |s|
  {
    if s == [] then [""]
    else if s[0] == '\n' then [""] + Split(s[1..])
    else if |s| >= 2 && s[0] == '\r' && s[1] == '\n' then [""] + Split(s[2..])
    else
      var rest := Split(s[1..]);
      [[s[0]] + rest[0]] + rest[1..]
  }

  /** The pieces put back together with "\n" between them. */
  function JoinLines(pieces: seq<string>): string
  {
    if |pieces| == 0 then "" else JoinAfter(pieces[0], pieces[1..])
  }

  /** `head`, then each of `tail` preceded by "\n". */
  function JoinAfter(head: string, tail: seq<string>): string
    decreases |tail|
  {
    if |tail| == 0 then head else head + "\n" + JoinAfter(tail[0], tail[1..])
  }

  /** `s` with every "\r\n" replaced by "\n", left to right. */
  function CollapseCrLf(s: string): string
    decreases |s|
  {
    if s == [] then ""
    else if |s| >= 2 && s[0] == '\r' && s[1] == '\n' then "\n" + CollapseCrLf(s[2..])
    else [s[0]] + CollapseCrLf(s[1..])
  }

  /** An empty first piece contributes only its separator. */
  lemma JoinEmptyFirst(rest: seq<string>)
    requires |rest| >= 1
    ensures JoinLines([""] + rest) == "\n" + JoinLines(rest)
  {
    assert ([""] + rest)[1..] == rest;
  }

  /** A character put in front of the first piece comes out in front. */
  lemma JoinPrepend(c: char, rest: seq<string>)
    requires |rest| >= 1
    ensures JoinLines([[c] + rest[0]] + rest[1..]) == [c] + JoinLines(rest)
  {
    var r := [[c] + rest[0]] + rest[1..];
    assert r[0] == [c] + rest[0] && r[1..] == rest[1..];
    var tail := rest[1..];
    if |tail| > 0 {
      var after := JoinAfter(tail[0], tail[1..]);
      assert ([c] + rest[0]) + "\n" + after == [c] + (rest[0] + "\n" + after);
    }
  }

  /** Splitting loses nothing but the "\r" of each "\r\n" separator. */
  lemma {:induction false} JoinSplit(s: string)
    ensures JoinLines(Split(s)) == CollapseCrLf(s)
    decreases |s|
  {
    if s == [] {
    } else if s[0] == '\n' {
      JoinSplit(s[1..]);
      JoinEmptyFirst(Split(s[1..]));
    } else if |s| >= 2 && s[0] == '\r' && s[1] == '\n' {
      JoinSplit(s[2..]);
      JoinEmptyFirst(Split(s[2..]));
    } else {
      JoinSplit(s[1..]);
      JoinPrepend(s[0], Split(s[1..]));
    }
  }

  /** A line without a "\n" splits into itself alone: this is the case for
      every line `readline` delivers. */
  lemma {:induction false} SplitSingleLine(s: string)
    requires '\n' !in s
    ensures Split(s) == [s]
    decreases |s|
  {
    if s != [] {
      assert s[0] != '\n' && '\n' !in s[1..];
      SplitSingleLine(s[1..]);
      if |s| >= 2 {
        assert s[1] != '\n';
      }
      assert [s[0]] + s[1..] == s;
    }
  }
}
