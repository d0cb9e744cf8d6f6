/** Options, the order on op-ids, blank strings and position maps: the vocabulary every component shares. */
module Prelude {

  datatype Option<+T> = None | Some(value: T)

  /** The ids occurring in a sequence. */
  function Elems<T>(xs: seq<T>): set<T> {
    set x | x in xs
  }

  ghost predicate Distinct<T>(xs: seq<T>) {
    forall i, j :: 0 <= i < j < |xs| ==> xs[i] != xs[j]
  }

  lemma Associate<T>(a: seq<T>, b: seq<T>, c: seq<T>)
    ensures a + b + c == a + (b + c)
  {
  }

  lemma Split<T>(a: seq<T>, i: nat, j: nat)
    requires i <= j <= |a|
    ensures a[i..] == a[i..j] + a[j..]
  {
  }

  /** Unicode white space, as strings.TrimSpace removes it. */
  predicate IsSpace(c: char) {
    || '\t' <= c <= '\r' || c == ' ' || c == '\U{85}' || c == '\U{A0}' || c == '\U{1680}'
    || '\U{2000}' <= c <= '\U{200A}' || c == '\U{2028}' || c == '\U{2029}' || c == '\U{202F}'
    || c == '\U{205F}' || c == '\U{3000}'
  }

  /** strings.TrimSpace(s) == "" */
  predicate IsBlank(s: string) {
    |s| == 0 || (IsSpace(s[0]) && IsBlank(s[1..]))
  }

  /** strings.TrimSpace */
  function TrimSpace(s: string): string {
    if |s| == 0 then ""
    else if IsSpace(s[0]) then TrimSpace(s[1..])
    else if IsSpace(s[|s| - 1]) then TrimSpace(s[..|s| - 1])
    else s
  }

  ghost predicate AllSpace(s: string) {
    forall i :: 0 <= i < |s| ==> IsSpace(s[i])
  }

  /** `t` is `s` between its outer white space. */
  ghost predicate IsInner(s: string, t: string, i: nat, j: nat) {
    && i <= j <= |s| && t == s[i..j] && AllSpace(s[..i]) && AllSpace(s[j..])
    && (i < j ==> !IsSpace(s[i]) && !IsSpace(s[j - 1]))
  }

  lemma InnerFront(s: string, t: string, i: nat, j: nat)
    requires |s| > 0 && IsSpace(s[0]) && IsInner(s[1..], t, i, j)
    ensures IsInner(s, t, i + 1, j + 1)
  {
    assert s[i + 1..j + 1] == s[1..][i..j] && s[j + 1..] == s[1..][j..];
    assert s[..i + 1] == [s[0]] + s[1..][..i];
    hide IsSpace;
  }

  lemma InnerBack(s: string, t: string, i: nat, j: nat)
    requires |s| > 0 && IsSpace(s[|s| - 1]) && IsInner(s[..|s| - 1], t, i, j)
    ensures IsInner(s, t, i, j)
  {
    var n := |s| - 1;
    assert s[i..j] == s[..n][i..j] && s[..i] == s[..n][..i];
    assert s[j..] == s[..n][j..] + [s[n]];
    hide IsSpace;
  }

  lemma {:induction false} BlankIsSpace(s: string)
    ensures IsBlank(s) <==> AllSpace(s)
  {
    hide IsSpace;
    if |s| > 0 {
      assert s == [s[0]] + s[1..];
      BlankIsSpace(s[1..]);
    }
  }

  lemma {:induction false} TrimInner(s: string) returns (i: nat, j: nat)
    ensures IsInner(s, TrimSpace(s), i, j)
    decreases |s|
  {
    hide IsSpace, IsInner;
    if |s| == 0 {
      i, j := 0, 0;
      WholeInner(s);
    } else if IsSpace(s[0]) {
      i, j := TrimInner(s[1..]);
      InnerFront(s, TrimSpace(s), i, j);
      i, j := i + 1, j + 1;
    } else if IsSpace(s[|s| - 1]) {
      i, j := TrimInner(s[..|s| - 1]);
      InnerBack(s, TrimSpace(s), i, j);
    } else {
      i, j := 0, |s|;
      WholeInner(s);
    }
  }

  lemma WholeInner(s: string)
    ensures IsInner("", "", 0, 0)
    ensures |s| > 0 && !IsSpace(s[0]) && !IsSpace(s[|s| - 1]) ==> IsInner(s, s, 0, |s|)
  {
    assert s[0..|s|] == s;
  }

  /** Trimming takes off exactly the outer white space, and what is blank is all white space. */
  lemma TrimExactly(s: string) returns (i: nat, j: nat)
    ensures IsInner(s, TrimSpace(s), i, j)
    ensures IsBlank(s) <==> AllSpace(s)
    ensures IsBlank(s) <==> TrimSpace(s) == ""
  {
    i, j := TrimInner(s);
    BlankIsSpace(s);
    hide IsSpace, TrimSpace, IsBlank;
    assert i == j ==> s == s[..i] + s[j..];
  }

  // ----- the lexicographic order sort.Strings uses

  predicate Less(a: string, b: string) {
    && |b| > 0
    && (|a| == 0 || a[0] < b[0] || (a[0] == b[0] && Less(a[1..], b[1..])))
  }

  ghost predicate StrictlySorted(xs: seq<string>) {
    forall i, j :: 0 <= i < j < |xs| ==> Less(xs[i], xs[j])
  }

  lemma {:induction false} LessIrreflexive(a: string)
    ensures !Less(a, a)
  {
    if |a| > 0 { LessIrreflexive(a[1..]); }
  }

  lemma {:induction false} LessTransitive(a: string, b: string, c: string)
    requires Less(a, b) && Less(b, c)
    ensures Less(a, c)
  {
    if |a| > 0 && a[0] == b[0] == c[0] { LessTransitive(a[1..], b[1..], c[1..]); }
  }

  lemma {:induction false} LessTotal(a: string, b: string)
    ensures a == b || Less(a, b) || Less(b, a)
  {
    if |a| > 0 && |b| > 0 && a[0] == b[0] {
      LessTotal(a[1..], b[1..]);
      if a[1..] == b[1..] {
        assert a == [a[0]] + a[1..] == [b[0]] + b[1..] == b;
      }
    }
  }

  predicate IsLeast(m: string, s: set<string>) {
    m in s && forall x :: x in s ==> x == m || Less(m, x)
  }

  lemma PutLeastFirst(m: string, s: set<string>, rest: seq<string>)
    requires IsLeast(m, s) && Elems(rest) == s - {m} && StrictlySorted(rest)
    ensures Elems([m] + rest) == s && StrictlySorted([m] + rest)
  {
    assert forall i :: 0 <= i < |rest| ==> rest[i] in Elems(rest);
    assert Elems([m] + rest) == {m} + Elems(rest);
  }

  lemma {:induction false} LeastExists(s: set<string>) returns (m: string)
    requires s != {}
    ensures IsLeast(m, s)
  {
    var x :| x in s;
    if s == {x} {
      m := x;
    } else {
      var rest := LeastExists(s - {x});
      LessTotal(x, rest);
      m := if Less(x, rest) then x else rest;
      forall y | y in s ensures y == m || Less(m, y) {
        if y != x && m == x && y != rest { LessTransitive(x, rest, y); }
      }
    }
  }

  lemma LeastUnique(s: set<string>)
    ensures forall m, n :: IsLeast(m, s) && IsLeast(n, s) ==> m == n
  {
    forall m, n | IsLeast(m, s) && IsLeast(n, s) ensures m == n {
      if m != n {
        LessTransitive(m, n, m);
        LessIrreflexive(m);
      }
    }
  }

  /** The ids of a set in sort.Strings order. */
  function SortIds(s: set<string>): (xs: seq<string>)
    ensures Elems(xs) == s && StrictlySorted(xs)
    ensures |xs| == 0 <==> s == {}
  {
    if s == {} then [] else
    assert exists m :: m in s && IsLeast(m, s) by { var _ := LeastExists(s); }
    LeastUnique(s);
    var m :| m in s && IsLeast(m, s);
    var rest := SortIds(s - {m});
    PutLeastFirst(m, s, rest);
    [m] + rest
  }

  /** A strictly sorted sequence is determined by the ids it holds. */
  lemma {:induction false} SortedUnique(xs: seq<string>, ys: seq<string>)
    requires StrictlySorted(xs) && StrictlySorted(ys) && Elems(xs) == Elems(ys)
    ensures xs == ys
  {
    ElemsEmpty(xs);
    ElemsEmpty(ys);
    if |xs| > 0 {
      assert xs[0] in Elems(xs) && xs[0] in Elems(ys);
      assert ys[0] in Elems(ys) && ys[0] in Elems(xs);
      HeadIsLeast(xs, ys[0]);
      HeadIsLeast(ys, xs[0]);
      if xs[0] != ys[0] {
        LessTransitive(xs[0], ys[0], xs[0]);
        LessIrreflexive(xs[0]);
      }
      TailElems(xs);
      TailElems(ys);
      SortedUnique(xs[1..], ys[1..]);
      assert xs == [xs[0]] + xs[1..] && ys == [ys[0]] + ys[1..];
    }
  }

  lemma ElemsEmpty<T>(xs: seq<T>)
    ensures |xs| == 0 <==> Elems(xs) == {}
  {
    if |xs| > 0 { assert xs[0] in Elems(xs); }
  }

  lemma HeadIsLeast(xs: seq<string>, x: string)
    requires StrictlySorted(xs) && x in xs
    ensures |xs| > 0 && (x == xs[0] || Less(xs[0], x))
  {
  }

  lemma TailElems(xs: seq<string>)
    requires |xs| > 0 && StrictlySorted(xs)
    ensures Elems(xs[1..]) == Elems(xs) - {xs[0]}
  {
    LessIrreflexive(xs[0]);
    forall x | x in Elems(xs) - {xs[0]} ensures x in Elems(xs[1..]) {
      var i :| 0 <= i < |xs| && xs[i] == x;
      assert xs[1..][i - 1] == x;
    }
    forall x | x in xs[1..] ensures x != xs[0] {
      var i :| 0 <= i < |xs[1..]| && xs[1..][i] == x;
      assert x == xs[i + 1];
    }
  }

  // ----- position maps: chains[i] lists the ids under which element i can be reached

  function Bind(m: map<string, nat>, ids: seq<string>, i: nat): map<string, nat> {
    m + (map x | x in ids :: i)
  }

  /** The position every id of `chains` leads to; as in the fold's index maps the last write wins. */
  function IndexOf(chains: seq<seq<string>>): (m: map<string, nat>)
    ensures forall x :: x in m ==> m[x] < |chains|
  {
    if |chains| == 0 then map[] else
    var n := |chains| - 1;
    Bind(IndexOf(chains[..n]), chains[n], n)
  }

  /** An id leads to the last element that answers to it, and to none if no element does. */
  lemma {:induction false} IndexOfMeans(chains: seq<seq<string>>, x: string, i: nat)
    ensures x in IndexOf(chains) && IndexOf(chains)[x] == i <==>
      i < |chains| && x in chains[i] && forall j :: i < j < |chains| ==> x !in chains[j]
  {
    if |chains| > 0 {
      var n := |chains| - 1;
      IndexOfMeans(chains[..n], x, i);
      hide IndexOf;
      IndexOfLast(chains);
    }
  }

  lemma IndexOfAppend(chains: seq<seq<string>>, ids: seq<string>)
    ensures IndexOf(chains + [ids]) == Bind(IndexOf(chains), ids, |chains|)
  {
    assert (chains + [ids])[..|chains|] == chains;
  }

  lemma BindAround(m: map<string, nat>, ids: seq<string>, n: nat, x: string, i: nat)
    requires x !in ids
    ensures Bind(m[x := i], ids, n) == Bind(m, ids, n)[x := i]
  {
  }

  lemma BindMore(m: map<string, nat>, ids: seq<string>, n: nat, x: string)
    ensures Bind(m, ids + [x], n) == Bind(m, ids, n)[x := n]
  {
  }

  lemma ExtendLast(chains: seq<seq<string>>, x: string)
    requires |chains| > 0
    ensures var n := |chains| - 1; IndexOf(chains[n := chains[n] + [x]]) == IndexOf(chains)[x := n]
  {
    var n := |chains| - 1;
    assert chains[n := chains[n] + [x]][..n] == chains[..n];
    BindMore(IndexOf(chains[..n]), chains[n], n, x);
  }

  lemma IndexOfLast(chains: seq<seq<string>>)
    requires |chains| > 0
    ensures var n := |chains| - 1; IndexOf(chains) == Bind(IndexOf(chains[..n]), chains[n], n)
  {
  }

  /** Extending a chain by a fresh id adds that id and moves no other. */
  lemma {:induction false} IndexOfExtend(chains: seq<seq<string>>, i: nat, x: string)
    requires i < |chains| && x !in IndexOf(chains)
    ensures IndexOf(chains[i := chains[i] + [x]]) == IndexOf(chains)[x := i]
  {
    hide IndexOf, Bind;
    var n := |chains| - 1;
    if i == n {
      ExtendLast(chains, x);
    } else {
      var longer := chains[i := chains[i] + [x]];
      IndexOfLast(chains);
      IndexOfLast(longer);
      BindHas(IndexOf(chains[..n]), chains[n], n, x);
      IndexOfExtend(chains[..n], i, x);
      assert longer[..n] == chains[..n][i := chains[i] + [x]];
      BindAround(IndexOf(chains[..n]), chains[n], n, x, i);
    }
  }

  lemma BindHas(m: map<string, nat>, ids: seq<string>, n: nat, x: string)
    ensures x in Bind(m, ids, n) <==> x in m || x in ids
  {
  }
}
