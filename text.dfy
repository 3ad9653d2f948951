/** The JavaScript string built-ins the worker relies on (`indexOf`,
    `includes`, `endsWith`, `split`, `trim`), on strings modelled as
    `seq<char>`: one `char` per Unicode scalar value, where JavaScript
    counts UTF-16 code units. */
module Text {

  /** `s.indexOf(c)`: the position of the first `c` in `s`, or -1. */
  function IndexOf(s: string, c: char): (i: int)
    ensures -1 <= i < |s|
    ensures i == -1 <==> c !in s
    ensures 0 <= i ==> s[i] == c && c !in s[..i]
  {
    if |s| == 0 then -1
    else if s[0] == c then 0
    else
      var j := IndexOf(s[1..], c);
      if j == -1 then -1 else j + 1
  }

  /** `s.endsWith(suffix)`. */
  predicate EndsWith(s: string, suffix: string) {
    |suffix| <= |s| && s[|s| - |suffix|..] == suffix
  }

  /** A character matched by the class `[\0-\x1F\x7F]`. */
  predicate IsControl(c: char) {
    c <= '\U{1F}' || c == '\U{7F}'
  }

  /** `/[\0-\x1F\x7F]/.test(s)`. */
  predicate HasControl(s: string) {
    exists i :: 0 <= i < |s| && IsControl(s[i])
  }

  /** `parts.join(sep)`, for the non-empty lists `split` produces. */
  function Join(parts: seq<string>, sep: char): string
    requires |parts| >= 1
  {
    if |parts| == 1 then parts[0] else parts[0] + [sep] + Join(parts[1..], sep)
  }

  /** `s.split(sep)` for a one-character separator: always at least one
      piece (the empty string splits into `[""]`), no piece contains the
      separator, and joining the pieces gives `s` back. */
  function Split(s: string, sep: char): (parts: seq<string>)
    ensures |parts| >= 1
    ensures forall i :: 0 <= i < |parts| ==> sep !in parts[i]
    ensures Join(parts, sep) == s
    decreases |s|
  {
    var i := IndexOf(s, sep);
    if i == -1 then [s]
    else
      var rest := Split(s[i + 1..], sep);
      SplitStep(s, sep, i, rest);
      [s[..i]] + rest
  }

  /** One step of `Split`: the piece before the first separator, followed by
      the pieces of the rest. */
  lemma SplitStep(s: string, sep: char, i: nat, rest: seq<string>)
    requires i < |s| && s[i] == sep && sep !in s[..i]
    requires |rest| >= 1 && Join(rest, sep) == s[i + 1..]
    requires forall k :: 0 <= k < |rest| ==> sep !in rest[k]
    ensures Join([s[..i]] + rest, sep) == s
    ensures forall k :: 0 <= k < |rest| + 1 ==> sep !in ([s[..i]] + rest)[k]
  {
    var parts := [s[..i]] + rest;
    assert parts[1..] == rest;
    assert s == s[..i] + [sep] + s[i + 1..];
    forall k | 0 <= k < |parts|
      ensures sep !in parts[k]
    {
      if k > 0 {
        assert parts[k] == rest[k - 1];
      }
    }
  }

  /** Splitting a joined list gives the list back, when no piece holds the
      separator: `split` and `join` are inverse on such lists. */
  lemma {:induction false} SplitOfJoin(parts: seq<string>, sep: char)
    requires |parts| >= 1
    requires forall i :: 0 <= i < |parts| ==> sep !in parts[i]
    ensures Split(Join(parts, sep), sep) == parts
    decreases |parts|
  {
    if |parts| > 1 {
      JoinFirstSeparator(parts, sep);
      SplitOfJoin(parts[1..], sep);
      assert parts == [parts[0]] + parts[1..];
    } else {
      assert sep !in parts[0];
    }
  }

  /** The first separator of a join follows the first piece, when that piece
      holds none. */
  lemma JoinFirstSeparator(parts: seq<string>, sep: char)
    requires |parts| > 1 && sep !in parts[0]
    ensures var s, n := Join(parts, sep), |parts[0]|;
      IndexOf(s, sep) == n && s[..n] == parts[0] && s[n + 1..] == Join(parts[1..], sep)
  {
    var s, n := Join(parts, sep), |parts[0]|;
    assert s == parts[0] + [sep] + Join(parts[1..], sep);
    assert s[n] == sep;
    assert s[..n] == parts[0];
    assert s[n + 1..] == Join(parts[1..], sep);
  }

  /** The characters `String.prototype.trim` removes: WhiteSpace (TAB, VT,
      FF, ZWNBSP and the space separators of category Zs) and
      LineTerminator (LF, CR, LS, PS). */
  predicate IsJsWhitespace(c: char) {
    || c == '\t' || c == '\U{B}' || c == '\U{C}' || c == ' ' || c == '\U{A0}' || c == '\U{FEFF}'
    || c == '\U{1680}' || ('\U{2000}' <= c <= '\U{200A}') || c == '\U{202F}' || c == '\U{205F}' || c == '\U{3000}'
    || c == '\n' || c == '\r' || c == '\U{2028}' || c == '\U{2029}'
  }

  predicate AllWhitespace(s: string) {
    forall i :: 0 <= i < |s| ==> IsJsWhitespace(s[i])
  }

  /** The end of the run of whitespace that starts at `i`. */
  function SkipWhitespace(s: string, i: nat): (j: nat)
    requires i <= |s|
    ensures i <= j <= |s|
    ensures forall k :: i <= k < j ==> IsJsWhitespace(s[k])
    ensures j == |s| || !IsJsWhitespace(s[j])
    decreases |s| - i
  {
    if i < |s| && IsJsWhitespace(s[i]) then SkipWhitespace(s, i + 1) else i
  }

  /** The start of the run of whitespace that ends at `j`, going back no
      further than `lo`. */
  function SkipWhitespaceBack(s: string, lo: nat, j: nat): (k: nat)
    requires lo <= j <= |s|
    ensures lo <= k <= j
    ensures forall x :: k <= x < j ==> IsJsWhitespace(s[x])
    ensures k == lo || !IsJsWhitespace(s[k - 1])
    decreases j - lo
  {
    if lo < j && IsJsWhitespace(s[j - 1]) then SkipWhitespaceBack(s, lo, j - 1) else j
  }

  /** `r` is `s` from `i` on, with only whitespace before and after it. */
  predicate TrimmedAt(s: string, r: string, i: int) {
    0 <= i <= |s| - |r| && r == s[i..i + |r|] && AllWhitespace(s[..i]) && AllWhitespace(s[i + |r|..])
  }

  /** `s.trim()`: the part of `s` between its leading and its trailing
      whitespace, which itself neither starts nor ends with whitespace. */
  function Trim(s: string): (r: string)
    ensures exists i :: TrimmedAt(s, r, i)
    ensures r == [] || (!IsJsWhitespace(r[0]) && !IsJsWhitespace(r[|r| - 1]))
  {
    var i := SkipWhitespace(s, 0);
    var j := SkipWhitespaceBack(s, i, |s|);
    var r := s[i..j];
    WhitespacePrefix(s, i);
    WhitespaceSuffix(s, j);
    assert TrimmedAt(s, r, i);
    assert r != [] ==> r[0] == s[i] && r[|r| - 1] == s[j - 1];
    r
  }

  /** A prefix of whitespace characters is whitespace. */
  lemma WhitespacePrefix(s: string, i: nat)
    requires i <= |s| && forall k :: 0 <= k < i ==> IsJsWhitespace(s[k])
    ensures AllWhitespace(s[..i])
  {
    forall k | 0 <= k < i
      ensures IsJsWhitespace(s[..i][k])
    {
      assert s[..i][k] == s[k];
    }
  }

  /** A suffix of whitespace characters is whitespace. */
  lemma WhitespaceSuffix(s: string, j: nat)
    requires j <= |s| && forall k :: j <= k < |s| ==> IsJsWhitespace(s[k])
    ensures AllWhitespace(s[j..])
  {
    forall k | 0 <= k < |s| - j
      ensures IsJsWhitespace(s[j..][k])
    {
      assert s[j..][k] == s[j + k];
    }
  }

  /** Trimming twice is trimming once. */
  lemma TrimIdempotent(s: string)
    ensures Trim(Trim(s)) == Trim(s)
  {
    var r := Trim(s);
    if r != [] {
      assert SkipWhitespace(r, 0) == 0;
      assert SkipWhitespaceBack(r, 0, |r|) == |r|;
      assert r[0..|r|] == r;
    }
  }
}
