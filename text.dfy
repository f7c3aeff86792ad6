/** The parts of Rust's `str` API that the client relies on, over `seq<char>`.
    Lengths are in chars except where `Utf8Len` says otherwise. */
module Text {

  /** Rust's `char::is_whitespace` (the Unicode White_Space property); both
      `str::trim` and `str::split_whitespace` use it. */
  predicate IsWhitespace(c: char) {
    c == ' ' || ('\t' <= c <= '\r') || c == '\U{85}' || c == '\U{A0}' || c == '\U{1680}'
    || ('\U{2000}' <= c <= '\U{200A}') || c == '\U{2028}' || c == '\U{2029}'
    || c == '\U{202F}' || c == '\U{205F}' || c == '\U{3000}'
  }

  predicate StartsWith(s: string, prefix: string) {
    |prefix| <= |s| && s[..|prefix|] == prefix
  }

  /** `needle` occurs in `s` starting at index `i`. */
  predicate OccursAt(s: string, needle: string, i: int) {
    0 <= i && i + |needle| <= |s| && s[i..i + |needle|] == needle
  }

  /** `str::contains` with a string pattern. */
  predicate Contains(s: string, needle: string) {
    exists i | 0 <= i <= |s| :: OccursAt(s, needle, i)
  }

  /** `str::trim_start_matches` with a non-empty string pattern: the prefix is
      removed as many times as it repeats. */
  function TrimStartMatches(s: string, prefix: string): (r: string)
    requires prefix != []
    ensures !StartsWith(r, prefix)
    ensures |r| <= |s| && r == s[|s| - |r|..]
    decreases |s|
  {
    if StartsWith(s, prefix) then TrimStartMatches(s[|prefix|..], prefix) else s
  }

  function TrimStart(s: string): (r: string)
    ensures |r| <= |s| && r == s[|s| - |r|..]
    ensures r == [] || !IsWhitespace(r[0])
  {
    if s != [] && IsWhitespace(s[0]) then TrimStart(s[1..]) else s
  }

  function TrimEnd(s: string): (r: string)
    ensures |r| <= |s| && r == s[..|r|]
    ensures r == [] || !IsWhitespace(r[|r| - 1])
  {
    if s != [] && IsWhitespace(s[|s| - 1]) then TrimEnd(s[..|s| - 1]) else s
  }

  /** `str::trim`. */
  function Trim(s: string): string {
    TrimEnd(TrimStart(s))
  }

  /** `str::split` on one char: always at least one piece, no piece holds the separator. */
  function Split(s: string, sep: char): (parts: seq<string>)
    ensures |parts| >= 1
    ensures forall k :: 0 <= k < |parts| ==> sep !in parts[k]
  {
    if s == [] then [""]
    else if s[0] == sep then [""] + Split(s[1..], sep)
    else
      var rest := Split(s[1..], sep);
      [[s[0]] + rest[0]] + rest[1..]
  }

  /** `[String]::join`. */
  function Join(parts: seq<string>, sep: string): string {
    if parts == [] then ""
    else if |parts| == 1 then parts[0]
    else parts[0] + sep + Join(parts[1..], sep)
  }

  /** `str::lines`: split on '\n', without the empty piece after a final '\n'.
      The '\r' of a "\r\n" ending stays in the line here; every caller only
      looks at whitespace-separated words, to which '\r' does not belong. */
  function Lines(s: string): seq<string> {
    if s == [] then []
    else
      var parts := Split(s, '\n');
      if parts[|parts| - 1] == "" then parts[..|parts| - 1] else parts
  }

  /** The maximal run of non-whitespace chars at the start of `s`. */
  function LeadingWord(s: string): (w: string)
    ensures |w| <= |s| && w == s[..|w|]
    ensures s != [] && !IsWhitespace(s[0]) ==> |w| >= 1
  {
    if s == [] || IsWhitespace(s[0]) then [] else [s[0]] + LeadingWord(s[1..])
  }

  /** `str::split_whitespace`. */
  function Words(s: string): seq<string>
    decreases |s|
  {
    if s == [] then []
    else if IsWhitespace(s[0]) then Words(s[1..])
    else
      var w := LeadingWord(s);
      [w] + Words(s[|w|..])
  }

  function CharUtf8Len(c: char): nat {
    if c as int < 0x80 then 1
    else if c as int < 0x800 then 2
    else if c as int < 0x1_0000 then 3
    else 4
  }

  /** `str::len`: the length in UTF-8 bytes. */
  function Utf8Len(s: string): nat {
    if s == [] then 0 else CharUtf8Len(s[0]) + Utf8Len(s[1..])
  }

  /** Splitting `a + t` where `a` holds no separator glues `a` to the first piece of `t`. */
  lemma {:induction false} SplitAfterPrefix(a: string, t: string, sep: char)
    requires sep !in a
    ensures Split(a + t, sep) == [a + Split(t, sep)[0]] + Split(t, sep)[1..]
    decreases |a|
  {
    if a == [] {
      var parts := Split(t, sep);
      assert a + t == t && a + parts[0] == parts[0];
      assert [parts[0]] + parts[1..] == parts;
    } else {
      assert (a + t)[0] == a[0];
      assert (a + t)[1..] == a[1..] + t;
      SplitAfterPrefix(a[1..], t, sep);
      assert [a[0]] + (a[1..] + Split(t, sep)[0]) == a + Split(t, sep)[0];
    }
  }

  /** Joining with a one-char separator that no piece contains, then splitting on it, gives the pieces back. */
  lemma {:induction false} SplitJoin(parts: seq<string>, sep: char)
    requires |parts| >= 1
    requires forall k :: 0 <= k < |parts| ==> sep !in parts[k]
    ensures Split(Join(parts, [sep]), sep) == parts
  {
    if |parts| == 1 {
      SplitAfterPrefix(parts[0], "", sep);
      assert parts[0] + "" == parts[0];
    } else {
      var rest := Join(parts[1..], [sep]);
      SplitJoin(parts[1..], sep);
      assert ([sep] + rest)[0] == sep && ([sep] + rest)[1..] == rest;
      var tail := Split([sep] + rest, sep);
      assert tail == [""] + parts[1..];
      SplitAfterPrefix(parts[0], [sep] + rest, sep);
      assert Join(parts, [sep]) == parts[0] + ([sep] + rest);
      assert parts[0] + tail[0] == parts[0];
      assert tail[1..] == parts[1..];
      assert [parts[0]] + parts[1..] == parts;
    }
  }

  /** An occurrence of a needle in `a + [c] + b` lies inside `a`, inside `b`, or covers the `c`. */
  lemma ContainsAcross(a: string, c: char, b: string, needle: string)
    requires Contains(a + [c] + b, needle)
    ensures Contains(a, needle) || Contains(b, needle) || c in needle
  {
    var s := a + [c] + b;
    var i :| 0 <= i <= |s| && OccursAt(s, needle, i);
    if i + |needle| <= |a| {
      assert s[i..i + |needle|] == a[i..i + |needle|];
      assert OccursAt(a, needle, i);
    } else if i > |a| {
      var j := i - |a| - 1;
      assert s[i..i + |needle|] == b[j..j + |needle|];
      assert OccursAt(b, needle, j);
    } else {
      assert needle[|a| - i] == s[|a|] == c;
    }
  }

  /** A needle that no piece contains, and that has no separator char, does not occur in the join. */
  lemma {:induction false} JoinAvoids(parts: seq<string>, sep: char, needle: string)
    requires sep !in needle
    requires forall k :: 0 <= k < |parts| ==> !Contains(parts[k], needle)
    ensures parts != [] ==> !Contains(Join(parts, [sep]), needle)
  {
    if |parts| > 1 {
      JoinAvoids(parts[1..], sep, needle);
      if Contains(Join(parts, [sep]), needle) {
        ContainsAcross(parts[0], sep, Join(parts[1..], [sep]), needle);
        assert false;
      }
    }
  }
}
