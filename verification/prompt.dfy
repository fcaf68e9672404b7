/** The parts of the go-prompt line-editing library that the completion core
    touches: suggestions, the edited document, and the two suggestion filters. */
module Prompt {
  import opened GoStrings

  /** prompt.Suggest (and prompt.Completion, which has the same shape). */
  datatype Suggest = Suggest(text: string, description: string)

  /** prompt.Document: the whole input line and the cursor position in it. */
  datatype Document = Document(text: string, cursor: nat) {
    /** Slicing beyond the text panics in Go. */
    predicate Valid() {
      cursor <= |text|
    }

    function TextBeforeCursor(): string
      requires Valid()
    {
      text[..cursor]
    }

    /** The text after the last space before the cursor. */
    function WordBeforeCursor(): string
      requires Valid()
    {
      LastWord(TextBeforeCursor())
    }
  }

  /** The text after the last space. */
  function LastWord(t: string): string
  {
    t[LastIndexByte(t, ' ') + 1..]
  }

  /** The last word is the last of the space-separated tokens. */
  lemma LastWordIsLastToken(t: string)
    ensures LastWord(t) == Last(Split(t, " "))
  {
    LastPieceAfterLastByte(t, ' ', " ");
  }

  /** A single word: no space in it. */
  predicate Spaceless(u: string)
  {
    forall j :: 0 <= j < |u| ==> u[j] != ' '
  }

  lemma SpacelessIsOneWord(u: string)
    requires Spaceless(u)
    ensures Split(u, " ") == [u]
  {
    NoSeparatorOnePiece(u, ' ', " ");
  }

  /** Splitting at spaces, the text after the last space is the last word. */
  lemma SplitAtLastSpace(t: string, u: string)
    requires Spaceless(u)
    ensures Split(t + " " + u, " ") == Split(t, " ") + [u]
    ensures LastWord(t + " " + u) == u
  {
    SpacelessIsOneWord(u);
    SplitAppend(t, " ", u);
    LastWordIsLastToken(t + " " + u);
  }

  function Last<T>(xs: seq<T>): T
    requires |xs| > 0
  {
    xs[|xs| - 1]
  }

  /** `idx` lists, in increasing order, positions of `xs` whose elements spell `r`. */
  ghost predicate Embeds<T>(idx: seq<nat>, r: seq<T>, xs: seq<T>) {
    && |idx| == |r|
    && (forall k :: 0 <= k < |idx| ==> idx[k] < |xs| && r[k] == xs[idx[k]])
    && (forall k, l :: 0 <= k < l < |idx| ==> idx[k] < idx[l])
  }

  /** `r` is `xs` with some elements removed and the rest in their original order. */
  ghost predicate Subsequence<T>(r: seq<T>, xs: seq<T>) {
    exists idx :: Embeds(idx, r, xs)
  }

  lemma SubsequenceExtend<T>(r: seq<T>, xs: seq<T>, x: T)
    requires Subsequence(r, xs)
    ensures Subsequence(r, xs + [x])
    ensures Subsequence(r + [x], xs + [x])
  {
    var idx: seq<nat> :| Embeds(idx, r, xs);
    assert Embeds(idx, r, xs + [x]);
    assert Embeds(idx + [|xs|], r + [x], xs + [x]);
  }

  lemma SubsequenceOfItself<T>(xs: seq<T>)
    ensures Subsequence(xs, xs)
  {
    var idx: seq<nat> := seq(|xs|, k requires 0 <= k < |xs| => k);
    assert Embeds(idx, xs, xs);
  }

  lemma SubsequenceTransitive<T>(r: seq<T>, m: seq<T>, xs: seq<T>)
    requires Subsequence(r, m) && Subsequence(m, xs)
    ensures Subsequence(r, xs)
  {
    var i1: seq<nat> :| Embeds(i1, r, m);
    var i2: seq<nat> :| Embeds(i2, m, xs);
    var idx: seq<nat> := seq(|i1|, k requires 0 <= k < |i1| => i2[i1[k]]);
    assert Embeds(idx, r, xs);
  }

  /** The elements of `xs` satisfying `p`, in their original order. */
  function Keep<T(==)>(xs: seq<T>, p: T -> bool): (r: seq<T>)
    ensures |r| <= |xs|
    ensures Subsequence(r, xs)
    ensures forall x :: x in r ==> x in xs && p(x)
    ensures forall x :: x in xs && p(x) ==> x in r
    decreases |xs|
  {
    if xs == [] then
      assert Embeds([], [], xs);
      []
    else
      var init, last := xs[..|xs| - 1], xs[|xs| - 1];
      assert xs == init + [last];
      var kept := Keep(init, p);
      SubsequenceExtend(kept, init, last);
      if p(last) then kept + [last] else kept
  }

  lemma {:induction false} KeepAppend<T>(a: seq<T>, b: seq<T>, p: T -> bool)
    ensures Keep(a + b, p) == Keep(a, p) + Keep(b, p)
    decreases |b|
  {
    if b == [] {
      assert a + b == a;
    } else {
      var init, last := b[..|b| - 1], b[|b| - 1];
      assert (a + b)[..|a + b| - 1] == a + init;
      KeepAppend(a, init, p);
    }
  }

  /** Keeping everything leaves the list unchanged. */
  lemma {:induction false} KeepAll<T>(xs: seq<T>, p: T -> bool)
    requires forall x :: x in xs ==> p(x)
    ensures Keep(xs, p) == xs
    decreases |xs|
  {
    if xs != [] {
      var init, last := xs[..|xs| - 1], xs[|xs| - 1];
      assert xs == init + [last];
      KeepAll(init, p);
      assert Keep(xs, p) == Keep(init, p) + [last];
    }
  }

  /** Filtering twice is filtering once by the conjunction. */
  lemma {:induction false} KeepKeep<T>(xs: seq<T>, p: T -> bool, q: T -> bool, both: T -> bool)
    requires forall x :: both(x) == (p(x) && q(x))
    ensures Keep(Keep(xs, p), q) == Keep(xs, both)
    decreases |xs|
  {
    if xs != [] {
      var init, last := xs[..|xs| - 1], xs[|xs| - 1];
      KeepKeep(init, p, q, both);
      if p(last) {
        KeepAppend(Keep(init, p), [last], q);
      }
    }
  }

  /** The results of `f` on each element, one after the other. */
  function FlatMap<T, U>(xs: seq<T>, f: T -> seq<U>): (r: seq<U>)
  {
    if xs == [] then [] else FlatMap(xs[..|xs| - 1], f) + f(Last(xs))
  }

  lemma FlatMapOne<T, U>(x: T, f: T -> seq<U>)
    ensures FlatMap([x], f) == f(x)
  {
    assert [x][..0] == [];
    assert FlatMap([x], f) == [] + f(x);
  }

  lemma {:induction false} FlatMapAppend<T, U>(a: seq<T>, b: seq<T>, f: T -> seq<U>)
    ensures FlatMap(a + b, f) == FlatMap(a, f) + FlatMap(b, f)
    decreases |b|
  {
    if b == [] {
      assert a + b == a;
    } else {
      var init := b[..|b| - 1];
      assert (a + b)[..|a + b| - 1] == a + init;
      assert Last(a + b) == Last(b);
      FlatMapAppend(a, init, f);
    }
  }

  /** ASCII upper-casing, the case folding the filters apply when asked to ignore case. */
  function Upper(s: string): (r: string)
    ensures |r| == |s|
  {
    seq(|s|, i requires 0 <= i < |s| =>
      if 'a' <= s[i] <= 'z' then (s[i] as int - 32) as char else s[i])
  }

  function Fold(s: string, ignoreCase: bool): string
  {
    if ignoreCase then Upper(s) else s
  }

  /** The test FilterHasPrefix applies to each suggestion's text. */
  function PrefixMatcher(sub: string, ignoreCase: bool): Suggest -> bool
  {
    (s: Suggest) => HasPrefix(Fold(s.text, ignoreCase), Fold(sub, ignoreCase))
  }

  /** The test FilterContains applies to each suggestion's text. */
  function SubstringMatcher(sub: string, ignoreCase: bool): Suggest -> bool
  {
    (s: Suggest) => Contains(Fold(s.text, ignoreCase), Fold(sub, ignoreCase))
  }

  /** prompt.FilterHasPrefix: an empty word keeps the list as it is. */
  function FilterHasPrefix(xs: seq<Suggest>, sub: string, ignoreCase: bool): (r: seq<Suggest>)
    ensures r == Keep(xs, PrefixMatcher(sub, ignoreCase))
    ensures Subsequence(r, xs)
    ensures forall s :: s in r <==> s in xs && HasPrefix(Fold(s.text, ignoreCase), Fold(sub, ignoreCase))
  {
    if sub == "" then
      KeepAll(xs, PrefixMatcher(sub, ignoreCase));
      xs
    else Keep(xs, PrefixMatcher(sub, ignoreCase))
  }

  /** prompt.FilterContains: an empty word keeps the list as it is. */
  function FilterContains(xs: seq<Suggest>, sub: string, ignoreCase: bool): (r: seq<Suggest>)
    ensures r == Keep(xs, SubstringMatcher(sub, ignoreCase))
    ensures Subsequence(r, xs)
    ensures forall s :: s in r <==> s in xs && Contains(Fold(s.text, ignoreCase), Fold(sub, ignoreCase))
  {
    if sub == "" then
      assert forall s: Suggest :: OccursAt(Fold(s.text, ignoreCase), "", 0);
      KeepAll(xs, SubstringMatcher(sub, ignoreCase));
      xs
    else Keep(xs, SubstringMatcher(sub, ignoreCase))
  }
}
