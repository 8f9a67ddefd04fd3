/**
 * The JavaScript string operations the Host rewriter is built from:
 * `indexOf`, `split` with a non-empty separator, and `Array.prototype.join`.
 */
module Text {
  import opened Wrappers

  const CRLF: string := "\r\n"

  /** `sep` occurs in `s` starting at index `i`. */
  predicate OccursAt(s: string, sep: string, i: int) {
    0 <= i && i + |sep| <= |s| && s[i..i + |sep|] == sep
  }

  predicate Contains(s: string, sep: string) {
    exists i | 0 <= i <= |s| :: OccursAt(s, sep, i)
  }

  lemma OccursAtShift(s: string, sep: string, j: int)
    requires |s| > 0
    ensures OccursAt(s[1..], sep, j) <==> (j >= 0 && OccursAt(s, sep, j + 1))
  {
    if 0 <= j && j + |sep| <= |s| - 1 {
      assert s[1..][j..j + |sep|] == s[j + 1..j + 1 + |sep|];
    }
  }

  /** `s.indexOf(sep)`: the first index at which `sep` occurs, or None (JavaScript's -1). */
  function IndexOf(s: string, sep: string): (r: Option<nat>)
    ensures r.Some? ==> OccursAt(s, sep, r.value)
    ensures r.Some? ==> forall j :: 0 <= j < r.value ==> !OccursAt(s, sep, j)
    ensures r.None? ==> forall j :: !OccursAt(s, sep, j)
    decreases |s|
  {
    if |s| < |sep| then None
    else if s[..|sep|] == sep then Some(0)
    else
      var tail := IndexOf(s[1..], sep);
      assert forall j :: j >= 1 ==> (OccursAt(s, sep, j) <==> OccursAt(s[1..], sep, j - 1)) by {
        forall j | j >= 1 ensures OccursAt(s, sep, j) <==> OccursAt(s[1..], sep, j - 1) {
          OccursAtShift(s, sep, j - 1);
        }
      }
      assert !OccursAt(s, sep, 0);
      match tail
      case None => None
      case Some(i) => Some(i + 1)
  }

  /** `parts.join(sep)`: it starts with the first part (JoinEndsWithLast: and ends with the last). */
  function Join(parts: seq<string>, sep: string): (r: string)
    ensures |parts| == 0 ==> r == ""
    ensures |parts| > 0 ==> |parts[0]| <= |r| && r[..|parts[0]|] == parts[0]
  {
    if |parts| == 0 then ""
    else if |parts| == 1 then parts[0]
    else parts[0] + sep + Join(parts[1..], sep)
  }

  /** A join ends with its last part. */
  lemma {:induction false} JoinEndsWithLast(parts: seq<string>, sep: string)
    requires |parts| > 0
    ensures |parts[|parts| - 1]| <= |Join(parts, sep)|
    ensures Join(parts, sep)[|Join(parts, sep)| - |parts[|parts| - 1]|..] == parts[|parts| - 1]
  {
    if |parts| > 1 {
      JoinEndsWithLast(parts[1..], sep);
      assert parts[1..][|parts| - 2] == parts[|parts| - 1];
    }
  }

  /**
   * `s.split(sep)` for a non-empty separator: the pieces between successive
   * occurrences, always at least one (SplitJoinsBack, SplitPiecesClean and
   * SplitSingle state what the pieces are).
   */
  function Split(s: string, sep: string): (r: seq<string>)
    requires |sep| > 0
    ensures 1 <= |r| <= |s| + 1
    ensures forall k | 0 <= k < |r| :: |r[k]| <= |s|
    decreases |s|
  {
    match IndexOf(s, sep)
    case None => [s]
    case Some(i) => [s[..i]] + Split(s[i + |sep|..], sep)
  }

  /** Joining the pieces with the separator gives the text back. */
  lemma {:induction false} SplitJoinsBack(s: string, sep: string)
    requires |sep| > 0
    ensures Join(Split(s, sep), sep) == s
    decreases |s|
  {
    match IndexOf(s, sep)
    case None =>
    case Some(i) =>
      FirstOccurrence(s, sep, i);
      var rest := Split(s[i + |sep|..], sep);
      SplitJoinsBack(s[i + |sep|..], sep);
      assert ([s[..i]] + rest)[1..] == rest;
  }

  /** No piece contains the separator. */
  lemma {:induction false} SplitPiecesClean(s: string, sep: string)
    requires |sep| > 0
    ensures forall k | 0 <= k < |Split(s, sep)| :: !Contains(Split(s, sep)[k], sep)
    decreases |s|
  {
    match IndexOf(s, sep)
    case None =>
    case Some(i) =>
      FirstOccurrence(s, sep, i);
      var rest := Split(s[i + |sep|..], sep);
      SplitPiecesClean(s[i + |sep|..], sep);
      var r := [s[..i]] + rest;
      forall k | 0 <= k < |r| ensures !Contains(r[k], sep) {
        if k > 0 {
          assert r[k] == rest[k - 1];
        }
      }
  }

  /** There is a single piece exactly when the separator does not occur. */
  lemma SplitSingle(s: string, sep: string)
    requires |sep| > 0
    ensures (|Split(s, sep)| == 1) == !Contains(s, sep)
  {
    match IndexOf(s, sep)
    case None =>
    case Some(i) =>
      FirstOccurrence(s, sep, i);
  }

  /** The first piece is the text before the first occurrence, and there is a second piece exactly when there is one. */
  lemma SplitHead(s: string, sep: string)
    requires |sep| > 0
    ensures IndexOf(s, sep).None? ==> Split(s, sep) == [s]
    ensures IndexOf(s, sep).Some? ==> |Split(s, sep)| >= 2 && Split(s, sep)[0] == s[..IndexOf(s, sep).value]
  {
  }

  /** A string that does not contain the separator has no index for it. */
  lemma AbsentHasNoIndex(s: string, sep: string)
    requires !Contains(s, sep)
    ensures IndexOf(s, sep) == None
  {
  }

  /** The text before the first occurrence holds none, and the string is that text, the separator and the rest. */
  lemma FirstOccurrence(s: string, sep: string, i: nat)
    requires |sep| > 0 && IndexOf(s, sep) == Some(i)
    ensures Contains(s, sep)
    ensures !Contains(s[..i], sep)
    ensures s == s[..i] + sep + s[i + |sep|..]
  {
    assert OccursAt(s, sep, i);
    PrefixBeforeClean(s, sep, i);
    assert s == s[..i] + s[i..i + |sep|] + s[i + |sep|..];
  }

  /** A prefix that ends before the first occurrence holds none. */
  lemma PrefixBeforeClean(s: string, sep: string, i: nat)
    requires |sep| > 0 && i <= |s|
    requires forall j :: 0 <= j < i ==> !OccursAt(s, sep, j)
    ensures !Contains(s[..i], sep)
  {
    var p := s[..i];
    forall j | 0 <= j <= |p| ensures !OccursAt(p, sep, j) {
      if j + |sep| <= |p| {
        assert p[j..j + |sep|] == s[j..j + |sep|];
        assert !OccursAt(s, sep, j);
      }
    }
  }

  /** No proper suffix of `sep` is also a prefix of it, so two occurrences never overlap. */
  predicate NoSelfOverlap(sep: string) {
    forall k | 0 < k < |sep| :: sep[k..] != sep[..|sep| - k]
  }

  /** Splitting after a piece that holds no separator yields that piece first. */
  lemma SplitAfter(a: string, sep: string, b: string)
    requires |sep| > 0 && NoSelfOverlap(sep) && !Contains(a, sep)
    ensures Split(a + sep + b, sep) == [a] + Split(b, sep)
  {
    var s := a + sep + b;
    assert OccursAt(s, sep, |a|) by {
      assert s[|a|..|a| + |sep|] == sep;
    }
    forall j | 0 <= j < |a| ensures !OccursAt(s, sep, j) {
      if j + |sep| <= |a| {
        assert a[j..j + |sep|] == s[j..j + |sep|];
        assert !OccursAt(a, sep, j);
      } else {
        var k := |a| - j;
        assert s[j..j + |sep|][k..] == s[|a|..j + |sep|];
        assert s[|a|..j + |sep|] == sep[..|sep| - k];
        assert sep[k..] != sep[..|sep| - k];
      }
    }
    assert IndexOf(s, sep) == Some(|a|);
    assert s[..|a|] == a && s[|a| + |sep|..] == b;
  }

  /** Splitting a join of separator-free pieces gives the pieces back. */
  lemma {:induction false} SplitJoin(parts: seq<string>, sep: string)
    requires |sep| > 0 && NoSelfOverlap(sep) && |parts| >= 1
    requires forall k :: 0 <= k < |parts| ==> !Contains(parts[k], sep)
    ensures Split(Join(parts, sep), sep) == parts
    decreases |parts|
  {
    if |parts| == 1 {
      assert Split(parts[0], sep) == [parts[0]];
    } else {
      SplitJoin(parts[1..], sep);
      SplitAfter(parts[0], sep, Join(parts[1..], sep));
      assert [parts[0]] + parts[1..] == parts;
    }
  }

  /** Joining after the first two pieces: the first two joined, then the separator and the others. */
  lemma JoinAfterTwo(parts: seq<string>, sep: string)
    requires |parts| >= 2
    ensures Join(parts, sep) == Join(parts[..2], sep) + (if |parts| > 2 then sep + Join(parts[2..], sep) else "")
  {
    assert parts[1..][1..] == parts[2..];
    assert parts[..2][1..] == [parts[1]];
  }

  /** A join is a function of the pieces: replacing the first two keeps the rest. */
  lemma JoinReplaceTwo(parts: seq<string>, two: seq<string>, sep: string)
    requires |parts| >= 2 && |two| == 2
    ensures Join(two + parts[2..], sep) == Join(two, sep) + (if |parts| > 2 then sep + Join(parts[2..], sep) else "")
  {
    var q := two + parts[2..];
    assert q[..2] == two && q[2..] == parts[2..];
    JoinAfterTwo(q, sep);
  }

  lemma CrlfHasNoSelfOverlap()
    ensures NoSelfOverlap(CRLF)
  {
    assert CRLF[1..] == "\n" && CRLF[..1] == "\r";
  }

  /**
   * Concatenating two CRLF-free strings creates no CRLF unless the first ends
   * with CR and the second starts with LF.
   */
  lemma ConcatNoCrlf(a: string, b: string)
    requires !Contains(a, CRLF) && !Contains(b, CRLF)
    requires |a| == 0 || |b| == 0 || a[|a| - 1] != '\r' || b[0] != '\n'
    ensures !Contains(a + b, CRLF)
  {
    var s := a + b;
    forall j | 0 <= j <= |s| ensures !OccursAt(s, CRLF, j) {
      if j + 2 <= |a| {
        assert s[j..j + 2] == a[j..j + 2];
        assert !OccursAt(a, CRLF, j);
      } else if j >= |a| && j + 2 <= |s| {
        assert s[j..j + 2] == b[j - |a|..j - |a| + 2];
        assert !OccursAt(b, CRLF, j - |a|);
      } else if j + 2 <= |s| {
        assert j == |a| - 1;
        assert s[j..j + 2][0] == a[|a| - 1] && s[j..j + 2][1] == b[0];
        assert CRLF[0] == '\r' && CRLF[1] == '\n';
      }
    }
  }
}
