/** The few `java.lang.String` operations the core relies on, over
    `seq<char>`: lower-casing, `contains`, `lastIndexOf`, `trim`, and the
    regular-expression removal the AI reply cleaning performs. */
module Text {

  /** `Character.toLowerCase`, restricted to ASCII letters. */
  function LowerChar(c: char): char {
    if 'A' <= c <= 'Z' then (c as int + 32) as char else c
  }

  function Lower(s: string): (r: string)
    ensures |r| == |s|
    ensures forall i :: 0 <= i < |s| ==> r[i] == LowerChar(s[i])
  {
    seq(|s|, i requires 0 <= i < |s| => LowerChar(s[i]))
  }

  /** Lower-casing twice is lower-casing once. */
  lemma LowerIdempotent(s: string)
    ensures Lower(Lower(s)) == Lower(s)
  {
    assert forall i :: 0 <= i < |s| ==> Lower(Lower(s))[i] == Lower(s)[i];
  }

  predicate StartsWith(s: string, prefix: string) {
    |prefix| <= |s| && s[..|prefix|] == prefix
  }

  /** `s.contains(part)`. */
  predicate Contains(s: string, part: string)
    decreases |s|
  {
    StartsWith(s, part) || (|s| > 0 && Contains(s[1..], part))
  }

  /** A prefix that lacks the first character of `part` cannot start or
      hold an occurrence of it. */
  lemma {:induction false} PrefixSkipped(prefix: string, s: string, part: string)
    requires part != [] && part[0] !in prefix
    ensures Contains(prefix + s, part) <==> Contains(s, part)
    decreases |prefix|
  {
    if prefix != [] {
      var t := prefix + s;
      assert t[0] == prefix[0] != part[0];
      assert !StartsWith(t, part);
      assert t[1..] == prefix[1..] + s;
      PrefixSkipped(prefix[1..], s, part);
    } else {
      assert prefix + s == s;
    }
  }

  /** `s.lastIndexOf(c)`: -1 when absent. */
  function LastIndexOf(s: string, c: char): (i: int)
    ensures -1 <= i < |s|
    ensures i == -1 <==> c !in s
    ensures i >= 0 ==> s[i] == c && c !in s[i + 1..]
  {
    if |s| == 0 then -1
    else if s[|s| - 1] == c then |s| - 1
    else
      assert s == s[..|s| - 1] + [s[|s| - 1]];
      LastIndexOf(s[..|s| - 1], c)
  }

  /** The characters `String.trim` removes: every code point up to U+0020. */
  predicate IsTrimmed(c: char) {
    c <= ' '
  }

  /** `s` without its leading trimmable characters. */
  function TrimStart(s: string): (r: string)
    ensures |r| <= |s| && r == s[|s| - |r|..]
    ensures r == [] || !IsTrimmed(r[0])
    ensures forall i :: 0 <= i < |s| - |r| ==> IsTrimmed(s[i])
    decreases |s|
  {
    if |s| > 0 && IsTrimmed(s[0]) then TrimStart(s[1..]) else s
  }

  /** `s` without its trailing trimmable characters. */
  function TrimEnd(s: string): (r: string)
    ensures |r| <= |s| && r == s[..|r|]
    ensures r == [] || !IsTrimmed(r[|r| - 1])
    ensures forall i :: |r| <= i < |s| ==> IsTrimmed(s[i])
    decreases |s|
  {
    if |s| > 0 && IsTrimmed(s[|s| - 1]) then TrimEnd(s[..|s| - 1]) else s
  }

  /** `s.trim()`. */
  function Trim(s: string): (r: string)
    ensures |r| <= |s|
    ensures r == [] || (!IsTrimmed(r[0]) && !IsTrimmed(r[|r| - 1]))
    ensures var i := |s| - |TrimStart(s)|;
            && i + |r| <= |s| && r == s[i..i + |r|]
            && (forall k :: 0 <= k < i ==> IsTrimmed(s[k]))
            && (forall k :: i + |r| <= k < |s| ==> IsTrimmed(s[k]))
  {
    var t := TrimStart(s);
    var r := TrimEnd(t);
    SuffixPrefix(s, t, r);
    r
  }

  /** A prefix `r` of a suffix `t` of `s`, where everything of `t` after
      `r` is trimmable, sits in `s` with only trimmable characters after it. */
  lemma SuffixPrefix(s: string, t: string, r: string)
    requires |t| <= |s| && t == s[|s| - |t|..]
    requires |r| <= |t| && r == t[..|r|]
    requires forall k :: |r| <= k < |t| ==> IsTrimmed(t[k])
    ensures var i := |s| - |t|;
            && r == s[i..i + |r|]
            && (forall k :: i + |r| <= k < |s| ==> IsTrimmed(s[k]))
  {
    var i := |s| - |t|;
    forall k | i + |r| <= k < |s|
      ensures IsTrimmed(s[k])
    {
      assert s[k] == t[k - i];
    }
  }

  /** The characters the regular expression `\s` matches: space, tab, line
      feed, vertical tab, form feed and carriage return. */
  predicate IsRegexSpace(c: char) {
    c == ' ' || 9 <= c as int <= 13
  }

  /** `s` without the run of `\s` characters it starts with (the greedy `\s*`). */
  function SkipSpaces(s: string): (r: string)
    ensures |r| <= |s| && r == s[|s| - |r|..]
    ensures r == [] || !IsRegexSpace(r[0])
    decreases |s|
  {
    if |s| > 0 && IsRegexSpace(s[0]) then SkipSpaces(s[1..]) else s
  }

  /** `s.replaceAll(Pattern.quote(marker) + "\\s*", "")`: scanning from the
      left, every occurrence of `marker` is removed together with the
      whitespace that follows it, and the scan resumes after the match. */
  function RemoveMarker(s: string, marker: string): string
    requires marker != []
    decreases |s|
  {
    if s == [] then []
    else if StartsWith(s, marker) then RemoveMarker(SkipSpaces(s[|marker|..]), marker)
    else [s[0]] + RemoveMarker(s[1..], marker)
  }

  /** A string without a backtick is left alone by removing a fence that
      starts with one. */
  lemma {:induction false} RemoveMarkerAbsent(s: string, marker: string)
    requires marker != [] && marker[0] == '`' && '`' !in s
    ensures RemoveMarker(s, marker) == s
    decreases |s|
  {
    if s != [] {
      assert !StartsWith(s, marker) by { assert s[0] != '`'; }
      RemoveMarkerAbsent(s[1..], marker);
      assert s == [s[0]] + s[1..];
    }
  }

  /** A marker at the very start goes, together with the one space
      character after it. */
  lemma {:induction false} MarkerAtStartRemoved(marker: string, space: char, rest: string)
    requires marker != [] && IsRegexSpace(space)
    requires rest != [] && !IsRegexSpace(rest[0])
    ensures RemoveMarker(marker + [space] + rest, marker) == RemoveMarker(rest, marker)
  {
    var s := marker + [space] + rest;
    assert s[..|marker|] == marker;
    assert StartsWith(s, marker);
    assert s[|marker|..] == [space] + rest;
    assert SkipSpaces([space] + rest) == rest by {
      assert ([space] + rest)[1..] == rest;
    }
  }

  /** Removing a marker distributes over a prefix in which the marker's first
      character does not occur. */
  lemma {:induction false} RemoveMarkerAppend(s: string, t: string, marker: string)
    requires marker != [] && marker[0] !in s
    ensures RemoveMarker(s + t, marker) == s + RemoveMarker(t, marker)
    decreases |s|
  {
    if s != [] {
      assert (s + t)[0] == s[0] != marker[0];
      assert !StartsWith(s + t, marker);
      assert (s + t)[1..] == s[1..] + t;
      RemoveMarkerAppend(s[1..], t, marker);
    } else {
      assert s + t == t;
    }
  }
}
