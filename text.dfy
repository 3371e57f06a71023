/**
 * The few Python string operations the agents rely on: `str.isspace`,
 * `str.strip`, `str.split(sep)` with a one-character separator,
 * `sep.join(parts)` and an ASCII `str.title`.
 */
module Text {

  /** Python's `str.isspace` on one character (Unicode White_Space as Python defines it). */
  predicate IsSpace(c: char)
  {
    var n := c as int;
    n == 0x20 || 0x09 <= n <= 0x0D || 0x1C <= n <= 0x1F || n == 0x85 || n == 0xA0
    || n == 0x1680 || 0x2000 <= n <= 0x200A || n == 0x2028 || n == 0x2029
    || n == 0x202F || n == 0x205F || n == 0x3000
  }

  predicate AllSpace(s: string)
  {
    forall i :: 0 <= i < |s| ==> IsSpace(s[i])
  }

  /** True when `s` neither starts nor ends with white space. */
  predicate Trimmed(s: string)
  {
    s == [] || (!IsSpace(s[0]) && !IsSpace(s[|s| - 1]))
  }

  /** `s.lstrip()`: drops the leading white space and nothing else (see `TrimStartSpec`). */
  function TrimStart(s: string): (r: string)
    ensures |r| <= |s|
  {
    if s != [] && IsSpace(s[0]) then TrimStart(s[1..]) else s
  }

  /** `s.rstrip()`: drops the trailing white space and nothing else (see `TrimEndSpec`). */
  function TrimEnd(s: string): (r: string)
    ensures |r| <= |s|
  {
    if s != [] && IsSpace(s[|s| - 1]) then TrimEnd(s[..|s| - 1]) else s
  }

  /** What `lstrip` removes is a white-space prefix, and what it keeps does not start with white space. */
  lemma {:induction false} TrimStartSpec(s: string)
    ensures var r := TrimStart(s);
            r == s[|s| - |r|..] && AllSpace(s[..|s| - |r|]) && (r == [] || !IsSpace(r[0]))
  {
    if s != [] && IsSpace(s[0]) {
      TrimStartSpec(s[1..]);
    }
  }

  /** What `rstrip` removes is a white-space suffix, and what it keeps does not end with white space. */
  lemma {:induction false} TrimEndSpec(s: string)
    ensures var r := TrimEnd(s);
            r == s[..|r|] && AllSpace(s[|r|..]) && (r == [] || !IsSpace(r[|r| - 1]))
  {
    if s != [] && IsSpace(s[|s| - 1]) {
      TrimEndSpec(s[..|s| - 1]);
    }
  }

  /** `s.strip()`. */
  function Strip(s: string): (r: string)
    ensures |r| <= |s|
  {
    TrimEnd(TrimStart(s))
  }

  /** The result of `strip()` neither starts nor ends with white space. */
  lemma StripTrimmed(s: string)
    ensures Trimmed(Strip(s))
  {
    TrimStartSpec(s);
    TrimEndSpec(TrimStart(s));
  }

  /** Stripping is exactly the removal of white-space padding around a trimmed core. */
  lemma {:induction false} StripPadded(lead: string, core: string, trail: string)
    requires AllSpace(lead) && AllSpace(trail) && Trimmed(core)
    ensures Strip(lead + core + trail) == core
  {
    if core == [] {
      assert lead + core + trail == lead + trail;
      AllSpaceConcat(lead, trail);
      TrimStartAllSpace(lead + trail);
    } else {
      assert lead + core + trail == lead + (core + trail);
      TrimStartPadded(lead, core + trail);
      assert TrimStart(lead + core + trail) == core + trail;
      TrimEndPadded(core, trail);
    }
  }

  lemma AllSpaceConcat(a: string, b: string)
    requires AllSpace(a) && AllSpace(b)
    ensures AllSpace(a + b)
  {
  }

  lemma TrimStartAllSpace(s: string)
    requires AllSpace(s)
    ensures TrimStart(s) == []
  {
  }

  lemma {:induction false} TrimStartPadded(lead: string, s: string)
    requires AllSpace(lead)
    requires s == [] || !IsSpace(s[0])
    ensures TrimStart(lead + s) == s
  {
    if lead != [] {
      assert (lead + s)[1..] == lead[1..] + s;
      TrimStartPadded(lead[1..], s);
    } else {
      assert lead + s == s;
    }
  }

  lemma {:induction false} TrimEndPadded(s: string, trail: string)
    requires AllSpace(trail)
    requires s == [] || !IsSpace(s[|s| - 1])
    ensures TrimEnd(s + trail) == s
  {
    if trail != [] {
      assert (s + trail)[..|s + trail| - 1] == s + trail[..|trail| - 1];
      TrimEndPadded(s, trail[..|trail| - 1]);
    } else {
      assert s + trail == s;
    }
  }

  /** A string is left alone by `strip()` exactly when it is already trimmed. */
  lemma StripIdentity(s: string)
    ensures Strip(s) == s <==> Trimmed(s)
  {
    if Trimmed(s) {
      StripPadded([], s, []);
      assert [] + s + [] == s;
    }
  }

  /** Stripping twice is stripping once. */
  lemma StripIdempotent(s: string)
    ensures Strip(Strip(s)) == Strip(s)
  {
    StripTrimmed(s);
    StripIdentity(Strip(s));
  }

  /** The position of the first `c` in `s`. */
  function IndexOf(s: string, c: char): (i: nat)
    requires c in s
    ensures i < |s| && s[i] == c && c !in s[..i]
  {
    if s[0] == c then 0 else 1 + IndexOf(s[1..], c)
  }

  /** `s.split(sep)` for a one-character separator: the pieces between separators, empty ones included. */
  function Split(s: string, sep: char): (parts: seq<string>)
    ensures |parts| >= 1
    ensures forall i :: 0 <= i < |parts| ==> sep !in parts[i]
    ensures sep !in s ==> parts == [s]
    decreases |s|
  {
    if sep !in s then [s]
    else
      var i := IndexOf(s, sep);
      [s[..i]] + Split(s[i + 1..], sep)
  }

  /** `sep.join(parts)`. */
  function Join(parts: seq<string>, sep: string): (r: string)
  {
    if |parts| == 0 then ""
    else if |parts| == 1 then parts[0]
    else parts[0] + sep + Join(parts[1..], sep)
  }

  /** The first piece of a split is everything before the first separator. */
  lemma SplitCons(a: string, sep: char, b: string)
    requires sep !in a
    ensures Split(a + [sep] + b, sep) == [a] + Split(b, sep)
  {
    var s := a + [sep] + b;
    var i := IndexOf(s, sep);
    assert forall j :: 0 <= j < |a| ==> s[j] == a[j];
    assert s[|a|] == sep;
    assert s[..i] == a;
    assert s[i + 1..] == b;
  }

  /** Joining the pieces of a split with the same separator gives the string back. */
  lemma {:induction false} JoinSplit(s: string, sep: char)
    ensures Join(Split(s, sep), [sep]) == s
    decreases |s|
  {
    if sep in s {
      var i := IndexOf(s, sep);
      var rest := s[i + 1..];
      JoinSplit(rest, sep);
      assert s == s[..i] + [sep] + rest;
    }
  }

  /** Splitting a join of separator-free pieces gives the pieces back. */
  lemma {:induction false} SplitJoin(parts: seq<string>, sep: char)
    requires |parts| >= 1
    requires forall i :: 0 <= i < |parts| ==> sep !in parts[i]
    ensures Split(Join(parts, [sep]), sep) == parts
  {
    if |parts| > 1 {
      SplitJoin(parts[1..], sep);
      SplitCons(parts[0], sep, Join(parts[1..], [sep]));
      assert parts == [parts[0]] + parts[1..];
    }
  }

  predicate IsAsciiUpper(c: char) { 'A' <= c <= 'Z' }
  predicate IsAsciiLower(c: char) { 'a' <= c <= 'z' }

  function ToUpper(c: char): char
  {
    if IsAsciiLower(c) then (c as int - 32) as char else c
  }

  function ToLower(c: char): char
  {
    if IsAsciiUpper(c) then (c as int + 32) as char else c
  }

  /**
   * `s.title()` on ASCII letters: a letter that follows a letter is lower-cased,
   * any other letter is upper-cased; other characters are kept and end a word.
   */
  function Title(s: string): (r: string)
    ensures |r| == |s|
  {
    TitleAfter(s, false)
  }

  function TitleAfter(s: string, inWord: bool): (r: string)
    ensures |r| == |s|
    ensures forall i :: 0 <= i < |s| ==> (IsAsciiUpper(r[i]) || IsAsciiLower(r[i]) <==> IsAsciiUpper(s[i]) || IsAsciiLower(s[i]))
  {
    if s == [] then []
    else
      var c := s[0];
      if IsAsciiUpper(c) || IsAsciiLower(c) then
        [if inWord then ToLower(c) else ToUpper(c)] + TitleAfter(s[1..], true)
      else
        [c] + TitleAfter(s[1..], false)
  }

  /** Title-casing a title-cased string changes nothing. */
  lemma {:induction false} TitleIdempotent(s: string, inWord: bool)
    ensures TitleAfter(TitleAfter(s, inWord), inWord) == TitleAfter(s, inWord)
  {
    if s != [] {
      var t := TitleAfter(s, inWord);
      assert t[1..] == TitleAfter(s[1..], IsAsciiUpper(s[0]) || IsAsciiLower(s[0]));
      TitleIdempotent(s[1..], IsAsciiUpper(s[0]) || IsAsciiLower(s[0]));
    }
  }
}
