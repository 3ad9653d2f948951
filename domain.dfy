/** The root domain of a hostname, as `informAPI` derives it with
    `hostname.replace(/.*?([^.]+\.[^.]+)$/, "$1")`: the regular expression is
    modelled the way a backtracking engine runs it (try each start position in
    turn; from there, let the lazy `.*?` grow one character at a time, never
    across a line terminator, until the rest of the input is two labels), and
    the lemmas below show that on a hostname without line terminators this is
    "the last two dot-separated labels, or the hostname unchanged". */
module Domain {
  import opened Types
  import opened Text

  /** The characters that `.` does not match (the expression has no `s` flag). */
  predicate IsLineTerminator(c: char) {
    c == '\n' || c == '\r' || c == '\U{2028}' || c == '\U{2029}'
  }

  predicate NoLineTerminator(s: string) {
    forall i :: 0 <= i < |s| ==> !IsLineTerminator(s[i])
  }

  /** `t` is matched by `[^.]+\.[^.]+$`: a non-empty dot-free label, one
      dot, and a non-empty dot-free label that runs to the end. */
  predicate IsLabelPair(t: string) {
    exists k :: 0 < k < |t| - 1 && t[k] == '.' && forall j :: 0 <= j < |t| && j != k ==> t[j] != '.'
  }

  /** The lazy `.*?` has consumed `s[p..q]`: the first `q' >= q` at which the
      rest of the input is a label pair, reached without crossing a line
      terminator. */
  function LazyScan(s: string, q: nat): (r: Option<nat>)
    requires q <= |s|
    ensures r.Some? ==> q <= r.value <= |s|
    decreases |s| - q
  {
    if IsLabelPair(s[q..]) then Some(q)
    else if q < |s| && !IsLineTerminator(s[q]) then LazyScan(s, q + 1)
    else None
  }

  /** Where the lazy scan stops, the rest is a label pair, and it is the
      first such position: every position passed was no label pair and no
      line terminator. */
  lemma {:induction false} LazyScanStopsFirst(s: string, q: nat)
    requires q <= |s|
    ensures var r := LazyScan(s, q);
      r.Some? ==> IsLabelPair(s[r.value..]) && forall x :: q <= x < r.value ==> !IsLabelPair(s[x..]) && !IsLineTerminator(s[x])
    decreases |s| - q
  {
    if !IsLabelPair(s[q..]) && q < |s| && !IsLineTerminator(s[q]) {
      LazyScanStopsFirst(s, q + 1);
    }
  }

  /** The first start position `p' >= p` at which the whole expression
      matches, with the position `q` where its group begins. */
  function Search(s: string, p: nat): (r: Option<(nat, nat)>)
    requires p <= |s|
    ensures r.Some? ==> p <= r.value.0 <= r.value.1 <= |s|
    decreases |s| - p
  {
    match LazyScan(s, p)
    case Some(q) => Some((p, q))
    case None => if p < |s| then Search(s, p + 1) else None
  }

  /** A match found by the search has a label pair as its group, and starts
      at the first position from which the lazy scan succeeds. */
  lemma {:induction false} SearchFindsLabelPair(s: string, p: nat)
    requires p <= |s|
    ensures var r := Search(s, p);
      r.Some? ==> IsLabelPair(s[r.value.1..]) && LazyScan(s, r.value.0) == Some(r.value.1)
    decreases |s| - p
  {
    LazyScanStopsFirst(s, p);
    if LazyScan(s, p).None? && p < |s| {
      SearchFindsLabelPair(s, p + 1);
    }
  }

  /** The replacement: the match `s[p..]` is replaced by its group `s[q..]`;
      without a match the hostname is kept. */
  function RootDomain(hostname: string): string {
    match Search(hostname, 0)
    case None => hostname
    case Some((p, q)) => hostname[..p] + hostname[q..]
  }

  /** The replacement leaves the hostname unchanged, or ends with a label
      pair of the hostname. */
  lemma RootDomainEndsWithLabelPair(hostname: string)
    ensures var r := RootDomain(hostname);
      r == hostname || exists q :: 0 <= q <= |hostname| && IsLabelPair(hostname[q..]) && EndsWith(r, hostname[q..])
  {
    SearchFindsLabelPair(hostname, 0);
    match Search(hostname, 0)
    case None =>
    case Some((p, q)) =>
      assert EndsWith(hostname[..p] + hostname[q..], hostname[q..]);
  }

  /** `hostname[q..]` is the hostname's last two labels: a label pair that is
      the whole hostname or follows a dot. */
  predicate IsRootStart(hostname: string, q: int) {
    0 <= q <= |hostname| && IsLabelPair(hostname[q..]) && (q == 0 || hostname[q - 1] == '.')
  }

  /** A hostname has at most one "last two labels". */
  lemma RootStartUnique(hostname: string, q1: int, q2: int)
    requires IsRootStart(hostname, q1) && IsRootStart(hostname, q2)
    ensures q1 == q2
  {
  }

  /** A non-dot in front of a label pair lengthens its first label. */
  lemma ExtendLabelPair(s: string, q: nat)
    requires 0 < q <= |s| && IsLabelPair(s[q..]) && s[q - 1] != '.'
    ensures IsLabelPair(s[q - 1..])
  {
    var t, u := s[q..], s[q - 1..];
    var k :| 0 < k < |t| - 1 && t[k] == '.' && forall j :: 0 <= j < |t| && j != k ==> t[j] != '.';
    assert u[k + 1] == '.';
    forall j | 0 <= j < |u| && j != k + 1
      ensures u[j] != '.'
    {
      if j > 0 {
        assert u[j] == t[j - 1];
      }
    }
  }

  /** Without a label pair from `q` on, the lazy scan fails. */
  lemma {:induction false} LazyScanNone(s: string, q: nat)
    requires q <= |s|
    requires forall x :: q <= x <= |s| ==> !IsLabelPair(s[x..])
    ensures LazyScan(s, q).None?
    decreases |s| - q
  {
    if q < |s| && !IsLineTerminator(s[q]) {
      LazyScanNone(s, q + 1);
    }
  }

  /** Without a label pair from `p` on, no start position matches. */
  lemma {:induction false} SearchNone(s: string, p: nat)
    requires p <= |s|
    requires forall x :: p <= x <= |s| ==> !IsLabelPair(s[x..])
    ensures Search(s, p).None?
    decreases |s| - p
  {
    LazyScanNone(s, p);
    if p < |s| {
      SearchNone(s, p + 1);
    }
  }

  /** Over text without line terminators, the lazy scan reaches the first
      label pair that lies ahead. */
  lemma {:induction false} LazyScanReaches(s: string, q: nat, x: nat)
    requires q <= x <= |s| && IsLabelPair(s[x..])
    requires forall i :: q <= i < |s| ==> !IsLineTerminator(s[i])
    ensures LazyScan(s, q).Some?
    decreases |s| - q
  {
    if !IsLabelPair(s[q..]) {
      assert q != x;
      LazyScanReaches(s, q + 1, x);
    }
  }

  /** Text with two dots is no label pair. */
  lemma TwoDotsNoLabelPair(t: string, a: nat, b: nat)
    requires a < b < |t| && t[a] == '.' && t[b] == '.'
    ensures !IsLabelPair(t)
  {
    forall k | 0 < k < |t| - 1 && t[k] == '.'
      ensures exists j :: 0 <= j < |t| && j != k && t[j] == '.'
    {
      if k == a {
        assert t[b] == '.';
      } else {
        assert t[a] == '.';
      }
    }
  }

  /** A line terminator stops the lazy `.*?`, so the match starts after it
      and the text in front of it stays: `a\nb.c.d` becomes `a\nc.d`, not
      `c.d`. */
  lemma RootDomainAcrossLineTerminator(s: string)
    requires s == "a\nb.c.d"
    ensures RootDomain(s) == "a\nc.d"
  {
    ExampleSearch(s);
    assert s[..2] == "a\n" && s[4..] == "c.d";
  }

  /** The search on the example skips the first two start positions and
      matches from position 2, with its group from position 4. */
  lemma ExampleSearch(s: string)
    requires s == "a\nb.c.d"
    ensures Search(s, 0) == Some((2, 4))
  {
    ExampleScans(s);
    assert Search(s, 2) == Some((2, 4));
    assert Search(s, 1) == Some((2, 4));
  }

  /** The lazy scans of the example: from positions 0 and 1 they hit the
      line terminator before any label pair; from position 2 they reach
      `c.d` at position 4. */
  lemma ExampleScans(s: string)
    requires s == "a\nb.c.d"
    ensures LazyScan(s, 0) == None && LazyScan(s, 1) == None && LazyScan(s, 2) == Some(4)
  {
    assert |s| == 7 && s[0] == 'a' && s[1] == '\n' && s[3] == '.' && s[5] == '.';
    TwoDotsNoLabelPair(s[0..], 3, 5);
    TwoDotsNoLabelPair(s[1..], 2, 4);
    assert LazyScan(s, 1) == None;
    ExampleScanFromLabel(s);
  }

  /** From position 2 of the example the lazy scan passes `b` and the dot
      and stops at `c.d`. */
  lemma ExampleScanFromLabel(s: string)
    requires s == "a\nb.c.d"
    ensures LazyScan(s, 2) == Some(4)
  {
    assert |s| == 7 && s[2] == 'b' && s[3] == '.' && s[5] == '.';
    TwoDotsNoLabelPair(s[2..], 1, 3);
    TwoDotsNoLabelPair(s[3..], 0, 2);
    assert IsLabelPair(s[4..]) by {
      assert s[4..][1] == '.';
    }
    assert LazyScan(s, 4) == Some(4);
    assert LazyScan(s, 3) == Some(4);
  }

  /** On a hostname without line terminators the expression keeps exactly the
      last two labels when the hostname ends in `label.label`, and leaves the
      hostname unchanged otherwise. */
  lemma RootDomainIsLastTwoLabels(hostname: string)
    requires NoLineTerminator(hostname)
    ensures forall q :: IsRootStart(hostname, q) ==> RootDomain(hostname) == hostname[q..]
    ensures (forall q :: !IsRootStart(hostname, q)) ==> RootDomain(hostname) == hostname
  {
    if x :| 0 <= x <= |hostname| && IsLabelPair(hostname[x..]) {
      LazyScanReaches(hostname, 0, x);
      LazyScanStopsFirst(hostname, 0);
      var q0 := LazyScan(hostname, 0).value;
      assert Search(hostname, 0) == Some((0, q0));
      assert RootDomain(hostname) == hostname[q0..];
      if q0 > 0 && hostname[q0 - 1] != '.' {
        ExtendLabelPair(hostname, q0);
        assert false;
      }
      assert IsRootStart(hostname, q0);
      forall q | IsRootStart(hostname, q)
        ensures RootDomain(hostname) == hostname[q..]
      {
        RootStartUnique(hostname, q, q0);
      }
    } else {
      SearchNone(hostname, 0);
    }
  }
}
