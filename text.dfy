/**
 * The .NET string and encoding operations the plugin relies on, over
 * `string` = `seq<char>`, a sequence of Unicode characters; the .NET
 * behaviour at the level of UTF-16 surrogates is not modelled.
 * Comparisons are ordinal.
 */
module Text {
  import opened Wrappers
  import opened Positional

  /** `Encoding.ASCII.GetString`: bytes below 128 are their character, any other byte becomes '?'. */
  function AsciiDecode(bytes: seq<byte>): (s: string)
    ensures |s| == |bytes|
    ensures forall k :: 0 <= k < |bytes| ==> s[k] == (if bytes[k] < 128 then bytes[k] as char else '?')
  {
    seq(|bytes|, k requires 0 <= k < |bytes| => if bytes[k] < 128 then bytes[k] as char else '?')
  }

  /** `s.StartsWith(prefix, StringComparison.Ordinal)`. */
  predicate StartsWith(s: string, prefix: string) {
    |prefix| <= |s| && s[..|prefix|] == prefix
  }

  /** `char.IsWhiteSpace`: the Unicode separators plus the control characters U+0009-U+000D, U+0085. */
  predicate IsWhiteSpace(c: char) {
    c == ' ' || '\t' <= c <= '\r' || c == '\U{0085}' || c == '\U{00A0}' || c == '\U{1680}'
    || '\U{2000}' <= c <= '\U{200A}' || c == '\U{2028}' || c == '\U{2029}' || c == '\U{202F}'
    || c == '\U{205F}' || c == '\U{3000}'
  }

  /** `string.IsNullOrWhiteSpace` on a non-null string: empty, or nothing but white space. */
  predicate IsNullOrWhiteSpace(s: string) {
    forall k :: 0 <= k < |s| ==> IsWhiteSpace(s[k])
  }

  /** `TrimStart()`: drops the leading white space. */
  function TrimStart(s: string): (r: string)
    ensures |r| <= |s| && r == s[|s| - |r|..]
    ensures |r| > 0 ==> !IsWhiteSpace(r[0])
    ensures forall k :: 0 <= k < |s| - |r| ==> IsWhiteSpace(s[k])
  {
    if |s| > 0 && IsWhiteSpace(s[0]) then TrimStart(s[1..]) else s
  }

  /** `TrimEnd()`: drops the trailing white space. */
  function TrimEnd(s: string): (r: string)
    ensures |r| <= |s| && r == s[..|r|]
    ensures |r| > 0 ==> !IsWhiteSpace(r[|r| - 1])
    ensures forall k :: |r| <= k < |s| ==> IsWhiteSpace(s[k])
  {
    if |s| > 0 && IsWhiteSpace(s[|s| - 1]) then TrimEnd(s[..|s| - 1]) else s
  }

  /** `Trim()`: drops white space at both ends. */
  function Trim(s: string): string {
    TrimEnd(TrimStart(s))
  }

  /**
   * What `Trim` keeps is a piece of the input bounded by non-white-space
   * characters, and all it removes is white space.
   */
  lemma TrimSlice(s: string)
    ensures exists i, j :: 0 <= i <= j <= |s| && Trim(s) == s[i..j] && IsNullOrWhiteSpace(s[..i]) && IsNullOrWhiteSpace(s[j..])
    ensures |Trim(s)| > 0 ==> !IsWhiteSpace(Trim(s)[0]) && !IsWhiteSpace(Trim(s)[|Trim(s)| - 1])
  {
    var t := TrimStart(s);
    var r := TrimEnd(t);
    var i := |s| - |t|;
    var j := i + |r|;
    LeadingWhiteSpace(s);
    TrailingWhiteSpace(t);
    assert t == s[i..] && r == t[..|r|];
    assert s[j..] == t[|r|..];
    assert Trim(s) == s[i..j];
    if |r| > 0 {
      assert r[0] == t[0];
    }
  }

  /** What `TrimStart` drops is white space. */
  lemma LeadingWhiteSpace(s: string)
    ensures IsNullOrWhiteSpace(s[..|s| - |TrimStart(s)|])
  {
    var i := |s| - |TrimStart(s)|;
    forall k | 0 <= k < i
      ensures IsWhiteSpace(s[..i][k])
    {
      assert s[..i][k] == s[k];
    }
  }

  /** What `TrimEnd` drops is white space. */
  lemma TrailingWhiteSpace(s: string)
    ensures IsNullOrWhiteSpace(s[|TrimEnd(s)|..])
  {
    var j := |TrimEnd(s)|;
    forall k | 0 <= k < |s| - j
      ensures IsWhiteSpace(s[j..][k])
    {
      assert s[j..][k] == s[j + k];
    }
  }

  /** Text without white space at its ends is its own trimmed form. */
  lemma TrimIdle(s: string)
    requires |s| > 0 ==> !IsWhiteSpace(s[0]) && !IsWhiteSpace(s[|s| - 1])
    ensures Trim(s) == s
  {
  }

  /** `ToLowerInvariant`, for the ASCII letters. */
  function ToLowerInvariant(s: string): (r: string)
    ensures |r| == |s|
    ensures forall k :: 0 <= k < |s| ==> r[k] == (if 'A' <= s[k] <= 'Z' then (s[k] as int + 32) as char else s[k])
  {
    seq(|s|, k requires 0 <= k < |s| => if 'A' <= s[k] <= 'Z' then (s[k] as int + 32) as char else s[k])
  }

  /** `s.Replace(from, to)` for characters. */
  function ReplaceChar(s: string, from: char, to: char): (r: string)
    ensures |r| == |s|
    ensures forall k :: 0 <= k < |s| ==> r[k] == (if s[k] == from then to else s[k])
  {
    seq(|s|, k requires 0 <= k < |s| => if s[k] == from then to else s[k])
  }

  /**
   * `s.Replace(pattern, replacement, StringComparison.Ordinal)`: every
   * occurrence of the pattern, scanning left to right without overlap, is
   * replaced. .NET rejects an empty pattern.
   */
  function Replace(s: string, pattern: string, replacement: string): (r: string)
    requires |pattern| > 0
    decreases |s|
  {
    if |s| < |pattern| then s
    else if StartsWith(s, pattern) then replacement + Replace(s[|pattern|..], pattern, replacement)
    else [s[0]] + Replace(s[1..], pattern, replacement)
  }

  /**
   * A template that is a head free of the pattern's first character
   * followed by the pattern becomes the head followed by the replacement.
   */
  lemma {:induction false} ReplaceTail(head: string, pattern: string, replacement: string)
    requires |pattern| > 0 && pattern[0] !in head
    ensures Replace(head + pattern, pattern, replacement) == head + replacement
    decreases |head|
  {
    var s := head + pattern;
    if |head| == 0 {
      assert s == pattern && s[..|pattern|] == pattern && s[|pattern|..] == [];
      assert Replace(s, pattern, replacement) == replacement + Replace([], pattern, replacement);
    } else {
      var rest := head[1..];
      assert s[0] == head[0] && head[0] != pattern[0];
      assert !StartsWith(s, pattern) by {
        assert s[..|pattern|][0] == s[0];
      }
      assert s[1..] == rest + pattern;
      ReplaceTail(rest, pattern, replacement);
      calc {
        Replace(s, pattern, replacement);
        [s[0]] + Replace(s[1..], pattern, replacement);
        [head[0]] + (rest + replacement);
        { assert head == [head[0]] + rest; }
        head + replacement;
      }
    }
  }

  /** `TruncateAtNull`: the text before the first NUL character. */
  function TruncateAtNull(s: string): (r: string)
    ensures |r| <= |s| && r == s[..|r|] && '\0' !in r
    ensures |r| < |s| ==> s[|r|] == '\0'
  {
    if |s| == 0 || s[0] == '\0' then [] else [s[0]] + TruncateAtNull(s[1..])
  }

  /** Whatever follows a NUL is cut off: clean text followed by NUL and garbage gives the clean text. */
  lemma {:induction false} TruncateAtNullClean(clean: string, garbage: string)
    requires '\0' !in clean
    ensures TruncateAtNull(clean + ['\0'] + garbage) == clean
    ensures TruncateAtNull(clean) == clean
  {
    var s := clean + ['\0'] + garbage;
    if |clean| == 0 {
      assert s[0] == '\0';
    } else {
      assert s[0] == clean[0] && s[1..] == clean[1..] + ['\0'] + garbage;
      TruncateAtNullClean(clean[1..], garbage);
      assert clean == [clean[0]] + clean[1..];
    }
  }

  /** `s.Split(separator, StringSplitOptions.None)`: the pieces between separators; never empty. */
  function Split(s: string, separator: char): (pieces: seq<string>)
    ensures |pieces| > 0
    ensures forall k :: 0 <= k < |pieces| ==> separator !in pieces[k]
    decreases |s|
  {
    if separator !in s then [s]
    else
      var i := IndexOf(s, separator);
      [s[..i]] + Split(s[i + 1..], separator)
  }

  /** The first position of a character that occurs. */
  function IndexOf(s: string, c: char): (i: nat)
    requires c in s
    ensures i < |s| && s[i] == c && c !in s[..i]
  {
    if s[0] == c then 0 else 1 + IndexOf(s[1..], c)
  }

  /** `string.Join`: the pieces with the separator between them. */
  function Join(pieces: seq<string>, separator: char): string
    requires |pieces| > 0
  {
    if |pieces| == 1 then pieces[0] else pieces[0] + [separator] + Join(pieces[1..], separator)
  }

  /** Splitting loses nothing: joining the pieces with the separator gives the text back. */
  lemma {:induction false} JoinSplit(s: string, separator: char)
    ensures Join(Split(s, separator), separator) == s
    decreases |s|
  {
    if separator in s {
      var i := IndexOf(s, separator);
      var rest := s[i + 1..];
      JoinSplit(rest, separator);
      assert Split(s, separator)[1..] == Split(rest, separator);
      assert s == s[..i] + [separator] + rest;
    }
  }

  /** The first position of a character is the one before which it does not occur. */
  lemma {:induction false} IndexOfAt(s: string, c: char, i: nat)
    requires i < |s| && s[i] == c && c !in s[..i]
    ensures IndexOf(s, c) == i
  {
    if i > 0 {
      assert s[..i][0] == s[0];
      assert s[1..][..i - 1] == s[..i][1..];
      IndexOfAt(s[1..], c, i - 1);
    }
  }

  /** Joining pieces free of the separator and splitting again gives the pieces back. */
  lemma {:induction false} SplitJoin(pieces: seq<string>, separator: char)
    requires |pieces| > 0 && forall k :: 0 <= k < |pieces| ==> separator !in pieces[k]
    ensures Split(Join(pieces, separator), separator) == pieces
    decreases |pieces|
  {
    if |pieces| == 1 {
      assert separator !in pieces[0];
    } else {
      var head, rest := pieces[0], pieces[1..];
      var t := Join(rest, separator);
      var s := head + [separator] + t;
      assert s[..|head|] == head && s[|head|] == separator;
      IndexOfAt(s, separator, |head|);
      assert s[..|head|] == head && s[|head| + 1..] == t;
      assert forall k :: 0 <= k < |rest| ==> rest[k] == pieces[k + 1];
      SplitJoin(rest, separator);
      calc {
        Split(Join(pieces, separator), separator);
        Split(s, separator);
        [s[..|head|]] + Split(s[|head| + 1..], separator);
        [head] + rest;
        pieces;
      }
    }
  }

  /** Text without the separator is one piece. */
  lemma SplitNone(s: string, separator: char)
    requires separator !in s
    ensures Split(s, separator) == [s]
  {
  }

  /** `StringSplitOptions.TrimEntries`: every piece trimmed. */
  function TrimAll(pieces: seq<string>): (r: seq<string>)
    ensures |r| == |pieces| && forall k :: 0 <= k < |pieces| ==> r[k] == Trim(pieces[k])
  {
    seq(|pieces|, k requires 0 <= k < |pieces| => Trim(pieces[k]))
  }
}
