/** The functions of Go's `strings` package that the completion core relies on,
    over `string` (a sequence of characters). Separators are never empty. */
module GoStrings {

  /** True when `sep` occurs in `s` starting at position `i`. */
  predicate OccursAt(s: string, sep: string, i: nat) {
    i + |sep| <= |s| && s[i..i + |sep|] == sep
  }

  /** strings.HasPrefix */
  predicate HasPrefix(s: string, prefix: string) {
    |prefix| <= |s| && s[..|prefix|] == prefix
  }

  /** strings.Index: the first position at which `sep` occurs, or -1. */
  function Index(s: string, sep: string): (r: int)
    ensures r == -1 || (0 <= r && OccursAt(s, sep, r))
    ensures r >= 0 ==> forall j: nat :: j < r ==> !OccursAt(s, sep, j)
    ensures r == -1 ==> forall j: nat :: !OccursAt(s, sep, j)
    decreases |s|
  {
    if |s| < |sep| then -1
    else if s[..|sep|] == sep then 0
    else
      var k := Index(s[1..], sep);
      ShiftOccurrence(s, sep);
      if k == -1 then -1 else k + 1
  }

  /** An occurrence one position further into `s` is an occurrence in `s[1..]`. */
  lemma ShiftOccurrence(s: string, sep: string)
    requires |s| > 0
    ensures forall j: nat :: 0 < j ==> (OccursAt(s, sep, j) <==> OccursAt(s[1..], sep, j - 1))
  {
    forall j: nat | 0 < j
      ensures OccursAt(s, sep, j) <==> OccursAt(s[1..], sep, j - 1)
    {
      if j + |sep| <= |s| {
        assert s[1..][j - 1..] == s[j..];
        assert s[j..j + |sep|] == s[j..][..|sep|];
      }
    }
  }

  /** strings.Contains */
  predicate Contains(s: string, sub: string)
  {
    Index(s, sub) >= 0
  }

  lemma ContainsIff(s: string, sub: string)
    ensures Contains(s, sub) <==> exists j: nat :: OccursAt(s, sub, j)
  {
  }

  /** An occurrence inside a prefix of `s` is an occurrence inside `s`. */
  lemma OccursInPrefix(s: string, n: nat, sep: string, j: nat)
    requires n <= |s|
    requires OccursAt(s[..n], sep, j)
    ensures OccursAt(s, sep, j)
  {
    assert s[..n][j..j + |sep|] == s[j..j + |sep|];
  }

  /** strings.Cut: the text before and after the first `sep`, and whether it was found. */
  function Cut(s: string, sep: string): (r: (string, string, bool))
    requires sep != ""
    ensures r.2 <==> Contains(s, sep)
    ensures r.2 ==> s == r.0 + sep + r.1 && !Contains(r.0, sep)
    ensures !r.2 ==> r.0 == s && r.1 == ""
    ensures r.2 ==> |r.1| < |s|
  {
    var i := Index(s, sep);
    if i < 0 then (s, "", false)
    else
      var before, after := s[..i], s[i + |sep|..];
      assert s == before + sep + after;
      assert !Contains(before, sep) by {
        if Contains(before, sep) {
          var j := Index(before, sep);
          OccursInPrefix(s, i, sep, j);
        }
      }
      (before, after, true)
  }

  /** strings.Split with a non-empty separator: the pieces between occurrences,
      empty pieces kept. Joining the pieces gives back the input. */
  function Split(s: string, sep: string): (r: seq<string>)
    requires sep != ""
    ensures |r| >= 1
    ensures forall i :: 0 <= i < |r| ==> !Contains(r[i], sep)
    ensures r[0] == Cut(s, sep).0
    ensures |r| >= 2 <==> Contains(s, sep)
    decreases |s|
  {
    var (before, after, found) := Cut(s, sep);
    if !found then [s] else [before] + Split(after, sep)
  }

  /** Without the separator, a text is its own only piece. */
  lemma OnePieceIsWhole(s: string, sep: string)
    requires sep != ""
    ensures !Contains(s, sep) ==> Split(s, sep) == [s]
  {
  }

  /** strings.Join */
  function Join(xs: seq<string>, sep: string): string
  {
    if |xs| == 0 then ""
    else if |xs| == 1 then xs[0]
    else xs[0] + sep + Join(xs[1..], sep)
  }

  /** Joining the pieces of a split gives back the text. */
  lemma {:induction false} JoinSplit(s: string, sep: string)
    requires sep != ""
    ensures Join(Split(s, sep), sep) == s
    decreases |s|
  {
    var (before, after, found) := Cut(s, sep);
    if found {
      JoinSplit(after, sep);
      assert Split(s, sep) == [before] + Split(after, sep);
    }
  }

  /** The piece after the first separator of a split starts right after it. */
  lemma SplitTail(s: string, sep: string)
    requires sep != "" && Contains(s, sep)
    ensures Split(s, sep)[1..] == Split(Cut(s, sep).1, sep)
  {
  }

  /** Joining the pieces after the first one gives back the text after the first separator. */
  lemma JoinTailIsAfter(s: string, sep: string)
    requires sep != ""
    ensures Join(Split(s, sep)[1..], sep) == Cut(s, sep).1
  {
    if Contains(s, sep) {
      SplitTail(s, sep);
      JoinSplit(Cut(s, sep).1, sep);
    }
  }

  /** With a one-character separator, the first occurrence in `a + sep + b`
      is the one between `a` and `b` when `a` has none. */
  lemma CutAtSeparator(a: string, sep: string, b: string)
    requires |sep| == 1 && !Contains(a, sep)
    ensures Cut(a + sep + b, sep) == (a, b, true)
  {
    var s := a + sep + b;
    assert OccursAt(s, sep, |a|) by { assert s[|a|..|a| + 1] == sep; }
    forall j: nat | j < |a|
      ensures !OccursAt(s, sep, j)
    {
      assert s[j..j + 1] == a[j..j + 1];
      assert !OccursAt(a, sep, j);
    }
    var i := Index(s, sep);
    assert s[i + 1..] == b;
  }

  /** A first occurrence inside `a` stays the first occurrence once more text is appended. */
  lemma CutAppend(a: string, t: string, sep: string)
    requires sep != "" && Contains(a, sep)
    ensures Cut(a + t, sep) == (Cut(a, sep).0, Cut(a, sep).1 + t, true)
  {
    var i := Index(a, sep);
    var s := a + t;
    assert OccursAt(s, sep, i) by { assert s[i..i + |sep|] == a[i..i + |sep|]; }
    forall j: nat | j < i
      ensures !OccursAt(s, sep, j)
    {
      assert s[j..j + |sep|] == a[j..j + |sep|];
      assert !OccursAt(a, sep, j);
    }
    var k := Index(s, sep);
    assert s[..k] == a[..i];
    assert s[k + |sep|..] == a[i + |sep|..] + t;
  }

  /** Splitting on a one-character separator distributes over a join at that separator. */
  lemma {:induction false} SplitAppend(a: string, sep: string, b: string)
    requires |sep| == 1
    ensures Split(a + sep + b, sep) == Split(a, sep) + Split(b, sep)
    decreases |a|
  {
    if Contains(a, sep) {
      var (a0, a1, _) := Cut(a, sep);
      var s := a + sep + b;
      CutAppend(a, sep + b, sep);
      assert s == a + (sep + b);
      assert a1 + (sep + b) == a1 + sep + b;
      assert Cut(s, sep) == (a0, a1 + sep + b, true);
      calc {
        Split(s, sep);
        [a0] + Split(a1 + sep + b, sep);
        { SplitAppend(a1, sep, b); }
        [a0] + (Split(a1, sep) + Split(b, sep));
        ([a0] + Split(a1, sep)) + Split(b, sep);
        Split(a, sep) + Split(b, sep);
      }
    } else {
      CutAtSeparator(a, sep, b);
    }
  }

  /** With a one-character separator, splitting undoes joining pieces free of it. */
  lemma {:induction false} SplitJoin(xs: seq<string>, sep: string)
    requires |sep| == 1 && |xs| >= 1
    requires forall i :: 0 <= i < |xs| ==> !Contains(xs[i], sep)
    ensures Split(Join(xs, sep), sep) == xs
    decreases |xs|
  {
    if |xs| == 1 {
      assert Split(xs[0], sep) == [xs[0]];
    } else {
      CutAtSeparator(xs[0], sep, Join(xs[1..], sep));
      SplitJoin(xs[1..], sep);
    }
  }

  /** Cut splits at the first occurrence of the separator. */
  lemma CutAtFirst(s: string, sep: string, i: nat)
    requires sep != "" && OccursAt(s, sep, i)
    requires forall j: nat :: j < i ==> !OccursAt(s, sep, j)
    ensures Cut(s, sep) == (s[..i], s[i + |sep|..], true)
  {
    var k := Index(s, sep);
    assert k == i;
  }

  /** When no occurrence starts inside `a`, `a + sep + b` is cut right after `a`. */
  lemma CutBefore(a: string, sep: string, b: string)
    requires sep != ""
    requires forall j: nat :: j < |a| ==> !OccursAt(a + sep + b, sep, j)
    ensures Cut(a + sep + b, sep) == (a, b, true)
  {
    var s := a + sep + b;
    assert s[|a|..|a| + |sep|] == sep;
    CutAtFirst(s, sep, |a|);
    assert s[..|a|] == a;
    assert s[|a| + |sep|..] == b;
  }

  /** A separator whose first character does not recur in it: two of its
      occurrences never overlap. */
  predicate Unbordered(sep: string)
  {
    |sep| >= 1 && forall k :: 1 <= k < |sep| ==> sep[k] != sep[0]
  }

  /** For an unbordered separator, `a` being free of it is enough. */
  lemma CutBeforeUnbordered(a: string, sep: string, b: string)
    requires Unbordered(sep) && !Contains(a, sep)
    ensures Cut(a + sep + b, sep) == (a, b, true)
  {
    var s := a + sep + b;
    ContainsIff(a, sep);
    forall j: nat | j < |a|
      ensures !OccursAt(s, sep, j)
    {
      if j + |sep| <= |a| {
        assert s[j..j + |sep|] == a[j..j + |sep|];
        assert !OccursAt(a, sep, j);
      } else {
        var k := |a| - j;
        assert s[j + k] == sep[0] != sep[k];
        assert s[j..j + |sep|][k] == s[j + k];
      }
    }
    CutBefore(a, sep, b);
  }

  /** Splitting at an unbordered separator undoes joining pieces free of it. */
  lemma {:induction false} SplitJoinUnbordered(xs: seq<string>, sep: string)
    requires Unbordered(sep) && |xs| >= 1
    requires forall i :: 0 <= i < |xs| ==> !Contains(xs[i], sep)
    ensures Split(Join(xs, sep), sep) == xs
    decreases |xs|
  {
    if |xs| == 1 {
      assert Split(xs[0], sep) == [xs[0]];
    } else {
      CutBeforeUnbordered(xs[0], sep, Join(xs[1..], sep));
      SplitJoinUnbordered(xs[1..], sep);
    }
  }

  /** A text without the separator's first character does not contain it. */
  lemma MissingFirstChar(s: string, sep: string)
    requires sep != "" && sep[0] !in s
    ensures !Contains(s, sep)
  {
    ContainsIff(s, sep);
    forall j: nat | j + |sep| <= |s|
      ensures !OccursAt(s, sep, j)
    {
      assert s[j..j + |sep|][0] == s[j];
    }
  }

  /** A character found in neither the pieces nor the separator is not in the join. */
  lemma {:induction false} JoinAvoids(xs: seq<string>, sep: string, c: char)
    requires c !in sep
    requires forall i :: 0 <= i < |xs| ==> c !in xs[i]
    ensures c !in Join(xs, sep)
    decreases |xs|
  {
    if |xs| >= 2 {
      JoinAvoids(xs[1..], sep, c);
    }
  }

  /** A join starts with its first piece and ends with its last one. */
  lemma JoinFirstLast(xs: seq<string>, sep: string)
    requires |xs| >= 1 && xs[0] != "" && xs[|xs| - 1] != ""
    ensures var j := Join(xs, sep);
      j != "" && j[0] == xs[0][0] && j[|j| - 1] == xs[|xs| - 1][|xs[|xs| - 1]| - 1]
  {
    JoinEndsWithLast(xs, sep);
  }

  lemma {:induction false} JoinEndsWithLast(xs: seq<string>, sep: string)
    requires |xs| >= 1 && xs[|xs| - 1] != ""
    ensures var j := Join(xs, sep);
      j != "" && j[|j| - 1] == xs[|xs| - 1][|xs[|xs| - 1]| - 1]
    decreases |xs|
  {
    if |xs| >= 2 {
      JoinEndsWithLast(xs[1..], sep);
    }
  }

  /** Text appended to a join extends its last piece. */
  lemma {:induction false} JoinExtendLast(xs: seq<string>, sep: string, v: string)
    requires |xs| >= 1
    ensures Join(xs, sep) + v == Join(xs[..|xs| - 1] + [xs[|xs| - 1] + v], sep)
    decreases |xs|
  {
    var ys := xs[..|xs| - 1] + [xs[|xs| - 1] + v];
    if |xs| >= 2 {
      JoinExtendLast(xs[1..], sep, v);
      assert ys[1..] == xs[1..][..|xs| - 2] + [xs[|xs| - 1] + v];
    }
  }

  /** A one-character separator occurs exactly where its character does. */
  lemma SingleCharContains(s: string, sep: string)
    requires |sep| == 1
    ensures Contains(s, sep) <==> sep[0] in s
  {
    ContainsIff(s, sep);
    if sep[0] in s {
      var j :| 0 <= j < |s| && s[j] == sep[0];
      assert s[j..j + 1] == sep;
      assert OccursAt(s, sep, j);
    } else {
      MissingFirstChar(s, sep);
    }
  }

  /** Before a text free of a one-character separator, the first piece grows by that text. */
  lemma CleanHead(p: string, t: string, sep: string)
    requires |sep| == 1 && sep[0] !in p
    ensures Split(p + t, sep)[0] == p + Split(t, sep)[0]
  {
    var (t0, t1, found) := Cut(t, sep);
    if found {
      SingleCharContains(t0, sep);
      SingleCharContains(p + t0, sep);
      assert p + t == (p + t0) + sep + t1;
      CutAtSeparator(p + t0, sep, t1);
    } else {
      SingleCharContains(t, sep);
      SingleCharContains(p + t, sep);
    }
  }

  /** A text that is empty or starts with the separator has an empty first piece. */
  lemma EmptyHead(u: string, sep: string)
    requires |sep| == 1 && (u == "" || u[0] == sep[0])
    ensures Split(u, sep)[0] == ""
  {
    if u != "" {
      assert u == "" + sep + u[1..];
      CutAtSeparator("", sep, u[1..]);
    }
  }

  /** strings.LastIndexByte */
  function LastIndexByte(s: string, c: char): (r: int)
    ensures -1 <= r < |s|
    decreases |s|
  {
    if |s| == 0 then -1
    else if s[|s| - 1] == c then |s| - 1
    else LastIndexByte(s[..|s| - 1], c)
  }

  /** LastIndexByte finds the last `c`, and -1 means there is none. */
  lemma {:induction false} LastIndexByteSpec(s: string, c: char)
    ensures var r := LastIndexByte(s, c);
      && (r >= 0 ==> s[r] == c && forall j :: r < j < |s| ==> s[j] != c)
      && (r == -1 ==> forall j :: 0 <= j < |s| ==> s[j] != c)
    decreases |s|
  {
    if |s| > 0 && s[|s| - 1] != c {
      LastIndexByteSpec(s[..|s| - 1], c);
    }
  }

  /** A text free of the separator character `c` is its own only piece. */
  lemma NoSeparatorOnePiece(s: string, c: char, sep: string)
    requires sep == [c]
    requires forall j :: 0 <= j < |s| ==> s[j] != c
    ensures Split(s, sep) == [s]
  {
    assert !Contains(s, sep) by {
      forall j: nat | j + 1 <= |s|
        ensures !OccursAt(s, sep, j)
      {
        assert s[j..j + 1] == [s[j]];
      }
    }
  }

  /** The text after the last separator character `c` is the last piece of the split. */
  lemma LastPieceAfterLastByte(s: string, c: char, sep: string)
    requires sep == [c]
    ensures var pieces := Split(s, sep);
      pieces[|pieces| - 1] == s[LastIndexByte(s, c) + 1..]
  {
    var i := LastIndexByte(s, c);
    LastIndexByteSpec(s, c);
    if i == -1 {
      NoSeparatorOnePiece(s, c, sep);
    } else {
      var a, b := s[..i], s[i + 1..];
      assert s == a + sep + b;
      assert forall j :: 0 <= j < |b| ==> b[j] == s[i + 1 + j];
      NoSeparatorOnePiece(b, c, sep);
      SplitAppend(a, sep, b);
      var pieces := Split(a, sep) + [b];
      assert Split(s, sep) == pieces;
      assert pieces[|pieces| - 1] == b;
    }
  }

  /** strings.TrimLeftFunc */
  function TrimLeftFunc(s: string, drop: char -> bool): (r: string)
    ensures |r| <= |s| && r == s[|s| - |r|..]
    ensures forall i :: 0 <= i < |s| - |r| ==> drop(s[i])
    ensures r == "" || !drop(r[0])
    decreases |s|
  {
    if |s| > 0 && drop(s[0]) then TrimLeftFunc(s[1..], drop) else s
  }

  /** strings.TrimRightFunc */
  function TrimRightFunc(s: string, drop: char -> bool): (r: string)
    ensures |r| <= |s| && r == s[..|r|]
    ensures forall i :: |r| <= i < |s| ==> drop(s[i])
    ensures r == "" || !drop(r[|r| - 1])
    decreases |s|
  {
    if |s| > 0 && drop(s[|s| - 1]) then TrimRightFunc(s[..|s| - 1], drop) else s
  }

  /** strings.TrimFunc: both ends. The result is a contiguous part of `s`. */
  function TrimFunc(s: string, drop: char -> bool): (r: string)
    ensures Infix(r, s)
    ensures r == "" || (!drop(r[0]) && !drop(r[|r| - 1]))
  {
    var l := TrimLeftFunc(s, drop);
    var r := TrimRightFunc(l, drop);
    PrefixOfSuffixIsInfix(s, |s| - |l|, |r|);
    r
  }

  lemma PrefixOfSuffixIsInfix(s: string, k: nat, m: nat)
    requires k + m <= |s|
    ensures Infix(s[k..][..m], s)
  {
    assert s[k..k + m] == s[k..][..m];
    assert OccursAt(s, s[k..][..m], k);
  }

  /** Trimming the left drops exactly a prefix of dropped characters. */
  lemma {:induction false} TrimLeftFuncPrefix(pre: string, s: string, drop: char -> bool)
    requires forall i :: 0 <= i < |pre| ==> drop(pre[i])
    requires s == "" || !drop(s[0])
    ensures TrimLeftFunc(pre + s, drop) == s
    decreases |pre|
  {
    if pre == [] {
      assert pre + s == s;
    } else {
      assert (pre + s)[1..] == pre[1..] + s;
      TrimLeftFuncPrefix(pre[1..], s, drop);
    }
  }

  /** Trimming both ends drops exactly a prefix of dropped characters when the
      rest has its ends kept. */
  lemma TrimFuncPrefix(pre: string, s: string, drop: char -> bool)
    requires forall i :: 0 <= i < |pre| ==> drop(pre[i])
    requires s == "" || (!drop(s[0]) && !drop(s[|s| - 1]))
    ensures TrimFunc(pre + s, drop) == s
  {
    TrimLeftFuncPrefix(pre, s, drop);
  }

  /** Trimming both ends drops a prefix of dropped characters and one dropped
      character after a rest whose ends are kept. */
  lemma TrimFuncPrefixAndLast(pre: string, s: string, c: char, drop: char -> bool)
    requires forall i :: 0 <= i < |pre| ==> drop(pre[i])
    requires s != "" && !drop(s[0]) && !drop(s[|s| - 1]) && drop(c)
    ensures TrimFunc(pre + s + [c], drop) == s
  {
    assert pre + s + [c] == pre + (s + [c]);
    TrimLeftFuncPrefix(pre, s + [c], drop);
    assert (s + [c])[..|s + [c]| - 1] == s;
  }

  /** Regrouping a concatenation of four texts. */
  lemma Regroup(a: string, b: string, c: string, d: string)
    ensures a + b + c + d == a + (b + c + d)
    ensures a + b + c + d == (a + b + c) + d
  {
  }

  /** A text whose two ends are kept is left as it is. */
  lemma TrimFuncKeeps(s: string, drop: char -> bool)
    requires s == "" || (!drop(s[0]) && !drop(s[|s| - 1]))
    ensures TrimFunc(s, drop) == s
  {
  }

  /** A part of a text free of a separator is free of it too. */
  lemma InfixAvoids(r: string, s: string, sep: string)
    requires Infix(r, s) && !Contains(s, sep)
    ensures !Contains(r, sep)
  {
    var i: nat :| OccursAt(s, r, i);
    ContainsIff(s, sep);
    ContainsIff(r, sep);
    forall j: nat | OccursAt(r, sep, j)
      ensures OccursAt(s, sep, i + j)
    {
      InnerSlice(s, r, i, j, |sep|);
    }
  }

  /** A slice of an occurrence is the same slice of the text at the shifted place. */
  lemma InnerSlice(s: string, r: string, i: nat, j: nat, n: nat)
    requires OccursAt(s, r, i) && j + n <= |r|
    ensures s[i + j..i + j + n] == r[j..j + n]
  {
    var a, b := s[i + j..i + j + n], r[j..j + n];
    forall k | 0 <= k < n
      ensures a[k] == b[k]
    {
      assert a[k] == s[i..i + |r|][j + k];
    }
  }

  /** A prefix stays a prefix when text is appended. */
  lemma PrefixExtend(x: string, p: string, y: string)
    requires HasPrefix(x, p)
    ensures HasPrefix(x + y, p)
  {
    assert (x + y)[..|p|] == x[..|p|];
  }

  /** `r` occurs somewhere in `s`. */
  ghost predicate Infix(r: string, s: string) {
    exists i: nat :: OccursAt(s, r, i)
  }

  /** Membership in a Go cutset string. */
  function InCutset(cutset: string): char -> bool
  {
    c => c in cutset
  }

  /** strings.TrimLeft with a cutset */
  function TrimLeft(s: string, cutset: string): string
  {
    TrimLeftFunc(s, InCutset(cutset))
  }

  /** Trimming depends on the test only through its answers. */
  lemma {:induction false} TrimLeftFuncSameTest(s: string, drop: char -> bool, same: char -> bool)
    requires forall c :: drop(c) == same(c)
    ensures TrimLeftFunc(s, drop) == TrimLeftFunc(s, same)
    decreases |s|
  {
    if |s| > 0 && drop(s[0]) {
      TrimLeftFuncSameTest(s[1..], drop, same);
    }
  }

  /** A cutset is a set: repeating a character in it changes nothing. */
  lemma TrimLeftRepeatedCutset(s: string, c: char)
    ensures TrimLeft(s, [c, c]) == TrimLeft(s, [c])
  {
    TrimLeftFuncSameTest(s, InCutset([c, c]), InCutset([c]));
  }

  /** strings.Trim with a cutset */
  function Trim(s: string, cutset: string): string
  {
    TrimFunc(s, InCutset(cutset))
  }

  /** unicode.IsSpace: the ASCII spaces, NEL, NBSP and the Unicode space separators. */
  predicate IsSpace(c: char)
  {
    var n := c as int;
    n == 0x20 || (0x09 <= n <= 0x0D) || n == 0x85 || n == 0xA0 || n == 0x1680
    || (0x2000 <= n <= 0x200A) || n == 0x2028 || n == 0x2029 || n == 0x202F
    || n == 0x205F || n == 0x3000
  }

  /** strings.TrimSpace */
  function TrimSpace(s: string): string
  {
    TrimFunc(s, c => IsSpace(c))
  }

  /** Lines without a newline, joined by newlines, split back into those lines. */
  lemma SplitJoinedLines(lines: seq<string>)
    requires |lines| >= 1
    requires forall i :: 0 <= i < |lines| ==> '\n' !in lines[i]
    ensures Split(Join(lines, "\n"), "\n") == lines
  {
    forall i | 0 <= i < |lines|
      ensures !Contains(lines[i], "\n")
    {
      MissingFirstChar(lines[i], "\n");
    }
    SplitJoin(lines, "\n");
  }
}
