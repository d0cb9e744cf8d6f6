/** Versioned artefacts: attachments grouped into lineages by following anchors (topic/artefact.go). */
module Artefacts {
  import opened Prelude
  import opened Vocabulary
  import opened Likeness

  datatype Artefact = Artefact(root: OpId, name: string, tip: Attachment, revisions: seq<Attachment>)

  // ----- the anchor graph

  /** Where an op-id leads: the last attachment that carries it. */
  function IdAt(xs: seq<Attachment>, id: OpId): (j: int)
    ensures -1 <= j < |xs| && (j >= 0 ==> xs[j].opId == id)
  {
    if |xs| == 0 then -1
    else if xs[|xs| - 1].opId == id then |xs| - 1
    else IdAt(xs[..|xs| - 1], id)
  }

  /** The attachment an attachment revises, or -1. */
  function ParentOf(xs: seq<Attachment>, i: nat): (j: int)
    requires i < |xs|
    ensures -1 <= j < |xs|
  {
    var j := if xs[i].anchor == "" then -1 else IdAt(xs, xs[i].anchor);
    if j == i then -1 else j
  }

  lemma {:induction false} IdAtMeans(xs: seq<Attachment>, id: OpId, j: nat)
    ensures IdAt(xs, id) == j <==>
      j < |xs| && xs[j].opId == id && forall k :: j < k < |xs| ==> xs[k].opId != id
    ensures IdAt(xs, id) < 0 <==> forall k :: 0 <= k < |xs| ==> xs[k].opId != id
  {
    if |xs| > 0 { IdAtMeans(xs[..|xs| - 1], id, j); }
  }

  /** An attachment revises the one it is anchored to, if that is another attachment, and else none. */
  lemma ParentExactly(xs: seq<Attachment>, i: nat, j: nat)
    requires i < |xs|
    ensures ParentOf(xs, i) == j <==>
      && j < |xs| && j != i && xs[i].anchor != "" && xs[j].opId == xs[i].anchor
      && forall k :: j < k < |xs| ==> xs[k].opId != xs[i].anchor
    ensures Parents(xs)[i] == ParentOf(xs, i)
  {
    IdAtMeans(xs, xs[i].anchor, j);
  }

  type Graph = parents: seq<int> | forall i :: 0 <= i < |parents| ==> -1 <= parents[i] < |parents|

  function Parents(xs: seq<Attachment>): (g: Graph)
    ensures |g| == |xs|
  {
    seq(|xs|, i requires 0 <= i < |xs| => ParentOf(xs, i))
  }

  /** The walk from `i`, which rests at a node without parent. */
  function Walk(g: Graph, i: nat, n: nat): (j: nat)
    requires i < |g|
    ensures j < |g|
  {
    if n == 0 then i
    else
      var at := Walk(g, i, n - 1);
      if g[at] < 0 then at else g[at]
  }

  ghost predicate Visits(g: Graph, i: nat, j: nat)
    requires i < |g|
  {
    exists n: nat :: Walk(g, i, n) == j
  }

  ghost predicate Meet(g: Graph, i: nat, j: nat)
    requires i < |g| && j < |g|
  {
    exists n: nat, m: nat :: Walk(g, i, n) == Walk(g, j, m)
  }

  // ----- roots

  /** Each node's root lies on its walk, is its own root, and is its parent's root too. */
  ghost predicate Rooted(g: Graph, root: seq<int>) {
    |root| == |g| && forall i :: 0 <= i < |g| ==> RootedAt(g, root, i)
  }

  ghost predicate RootedAt(g: Graph, root: seq<int>, i: nat)
    requires i < |g| == |root|
  {
    && 0 <= root[i] < |g| && root[root[i]] == root[i] && Visits(g, i, root[i])
    && (g[i] >= 0 ==> root[g[i]] == root[i])
  }

  lemma {:induction false} RootAlong(g: Graph, root: seq<int>, i: nat, n: nat)
    requires Rooted(g, root) && i < |g|
    ensures root[Walk(g, i, n)] == root[i]
  {
    if n > 0 {
      RootAlong(g, root, i, n - 1);
      assert RootedAt(g, root, Walk(g, i, n - 1));
    }
  }

  /** For any anchor graph, cycles included: two attachments share a root exactly when their walks meet. */
  lemma SameRootMeansMeeting(g: Graph, root: seq<int>, i: nat, j: nat)
    requires Rooted(g, root) && i < |g| && j < |g|
    ensures root[i] == root[j] <==> Meet(g, i, j)
  {
    assert RootedAt(g, root, i) && RootedAt(g, root, j);
    if root[i] == root[j] {
      var n: nat :| Walk(g, i, n) == root[i];
      var m: nat :| Walk(g, j, m) == root[j];
      assert Walk(g, i, n) == Walk(g, j, m);
    }
    if Meet(g, i, j) {
      var n: nat, m: nat :| Walk(g, i, n) == Walk(g, j, m);
      RootAlong(g, root, i, n);
      RootAlong(g, root, j, m);
    }
  }

  /** A walk that reaches a node without parent ends there, and that node is the root. */
  lemma RootIsEnd(g: Graph, root: seq<int>, i: nat, n: nat)
    requires Rooted(g, root) && i < |g| && g[Walk(g, i, n)] < 0
    ensures root[i] == Walk(g, i, n)
  {
    var e := Walk(g, i, n);
    RootAlong(g, root, i, n);
    assert RootedAt(g, root, e);
    var m: nat :| Walk(g, e, m) == root[e];
    RestsAt(g, e, m);
  }

  lemma {:induction false} RestsAt(g: Graph, e: nat, m: nat)
    requires e < |g| && g[e] < 0
    ensures Walk(g, e, m) == e
  {
    if m > 0 { RestsAt(g, e, m - 1); }
  }

  lemma {:induction false} WalkOn(g: Graph, i: nat, n: nat)
    requires i < |g| && g[i] >= 0
    ensures Walk(g, i, n + 1) == Walk(g, g[i], n)
  {
    if n > 0 { WalkOn(g, i, n - 1); }
  }

  lemma VisitsNext(g: Graph, i: nat, j: nat)
    requires i < |g| && j < |g| && (i == j || (g[i] >= 0 && Visits(g, g[i], j)))
    ensures Visits(g, i, j)
  {
    if i == j {
      assert Walk(g, i, 0) == j;
    } else {
      var n: nat :| Walk(g, g[i], n) == j;
      WalkOn(g, i, n);
      assert Walk(g, i, n + 1) == j;
    }
  }

  // ----- which node is the root

  /** A node its own walk comes back to: one on a cycle, or one without parent. */
  ghost predicate Recurrent(g: Graph, e: nat)
    requires e < |g|
  {
    exists p: nat :: p > 0 && Walk(g, e, p) == e
  }

  /** The first node of the walk from `m` that comes round again. */
  ghost predicate FirstRecurrent(g: Graph, m: nat, e: nat)
    requires m < |g|
  {
    exists n: nat :: FirstAt(g, m, e, n)
  }

  ghost predicate FirstAt(g: Graph, m: nat, e: nat, n: nat)
    requires m < |g|
  {
    Walk(g, m, n) == e && Recurrent(g, Walk(g, m, n)) && forall k: nat :: k < n ==> !Recurrent(g, Walk(g, m, k))
  }

  /** The root of `i`, with `m` the first of its lineage, is where the walk from `m` first comes round again. */
  ghost predicate ExactFrom(g: Graph, root: seq<int>, i: nat, m: nat)
    requires i < |g| == |root|
  {
    && m < |g| && root[m] == root[i] >= 0 && (forall j: nat :: j < m ==> root[j] != -1 && root[j] != root[i])
    && FirstRecurrent(g, m, root[i])
  }

  ghost predicate ExactAt(g: Graph, root: seq<int>, i: nat)
    requires i < |g| == |root|
  {
    exists m: nat :: ExactFrom(g, root, i, m)
  }

  ghost predicate Exact(g: Graph, root: seq<int>) {
    |root| == |g| && forall i :: 0 <= i < |g| ==> ExactAt(g, root, i)
  }

  lemma FirstUnique(g: Graph, m: nat, d: nat, e: nat)
    requires m < |g| && FirstRecurrent(g, m, d) && FirstRecurrent(g, m, e)
    ensures d == e
  {
    var n: nat :| FirstAt(g, m, d, n);
    var p: nat :| FirstAt(g, m, e, p);
    hide Walk, Recurrent;
  }

  /** The anchor graph determines every root, cycles included. */
  lemma RootsDetermined(g: Graph, root: seq<int>, other: seq<int>)
    requires Rooted(g, root) && Exact(g, root) && Rooted(g, other) && Exact(g, other)
    ensures root == other
  {
    forall i | 0 <= i < |g| ensures root[i] == other[i] {
      assert ExactAt(g, root, i) && ExactAt(g, other, i);
      var m: nat :| ExactFrom(g, root, i, m);
      var n: nat :| ExactFrom(g, other, i, n);
      hide FirstRecurrent, Rooted;
      SameRootMeansMeeting(g, root, m, i);
      SameRootMeansMeeting(g, other, m, i);
      SameRootMeansMeeting(g, root, n, i);
      SameRootMeansMeeting(g, other, n, i);
      assert m == n;
      FirstUnique(g, m, root[i], other[i]);
    }
  }

  // ----- the algorithm

  /** The resolved part is rooted and closed: a resolved node's parent is resolved. */
  ghost predicate Closed(g: Graph, root: seq<int>) {
    |root| == |g| && forall i :: 0 <= i < |g| && root[i] != -1 ==> RootedAt(g, root, i)
  }

  /** A walk of unresolved nodes, each the parent of the one before, about to go on at `cur`. */
  ghost predicate Trail(g: Graph, path: seq<nat>, cur: nat) {
    forall k :: 0 <= k < |path| ==> TrailAt(g, path, cur, k)
  }

  ghost predicate TrailAt(g: Graph, path: seq<nat>, cur: nat, k: nat)
    requires k < |path|
  {
    path[k] < |g| && g[path[k]] == (if k + 1 < |path| then path[k + 1] else cur)
  }

  lemma {:induction false} TrailVisits(g: Graph, path: seq<nat>, cur: nat, k: nat, r: nat)
    requires Trail(g, path, cur) && k < |path| && cur < |g| && r < |g| && Visits(g, cur, r)
    ensures path[k] < |g| && Visits(g, path[k], r)
    decreases |path| - k
  {
    assert TrailAt(g, path, cur, k);
    if k + 1 < |path| {
      assert TrailAt(g, path, cur, k + 1);
      TrailVisits(g, path, cur, k + 1, r);
      assert g[path[k]] == path[k + 1] && Visits(g, path[k + 1], r);
    } else {
      assert g[path[k]] == cur;
    }
    VisitsNext(g, path[k], r);
  }

  /** Giving a whole trail the root its end has. */
  function Painted(root: seq<int>, path: seq<nat>, r: int): seq<int>
    requires forall k :: 0 <= k < |path| ==> path[k] < |root|
  {
    seq(|root|, i requires 0 <= i < |root| => if i in path then r else root[i])
  }

  lemma PaintedClosed(g: Graph, root: seq<int>, path: seq<nat>, cur: nat)
    requires |root| == |g| && cur < |g| && (forall k :: 0 <= k < |path| ==> path[k] < |g|) && Trail(g, path, cur)
      && root[cur] != -1
    requires forall i :: 0 <= i < |g| && root[i] != -1 && i != cur ==> RootedAt(g, root, i) && root[i] != cur
    requires (root[cur] == cur && (g[cur] < 0 || cur in path)) || RootedAt(g, root, cur)
    requires forall k :: 0 <= k < |path| ==> root[path[k]] == -1 || path[k] == cur
    ensures Closed(g, Painted(root, path, root[cur]))
  {
    var r := root[cur];
    var painted := Painted(root, path, r);
    assert 0 <= r < |g| && Visits(g, cur, r) by {
      if r == cur { assert Walk(g, cur, 0) == cur; }
    }
    assert painted[cur] == r && painted[r] == r;
    forall i | 0 <= i < |g| && painted[i] != -1 ensures RootedAt(g, painted, i) {
      if i in path {
        var k :| 0 <= k < |path| && path[k] == i;
        TrailVisits(g, path, cur, k, r);
        assert TrailAt(g, path, cur, k);
        if k + 1 < |path| { assert path[k + 1] in path; }
      } else if i != cur {
        assert RootedAt(g, root, i);
        assert root[i] !in path;
        if g[i] >= 0 { assert root[g[i]] == root[i]; if g[i] in path { assert g[i] == cur; } }
      }
    }
  }

  ghost predicate InGraph(g: Graph, path: seq<nat>) {
    forall k :: 0 <= k < |path| ==> path[k] < |g|
  }

  lemma TrailMore(g: Graph, path: seq<nat>, cur: nat)
    requires InGraph(g, path) && Trail(g, path, cur) && cur < |g| && g[cur] >= 0
    ensures InGraph(g, path + [cur]) && Trail(g, path + [cur], g[cur])
  {
    var more := path + [cur];
    forall k | 0 <= k < |more| ensures TrailAt(g, more, g[cur], k) {
      if k < |path| { assert TrailAt(g, path, cur, k); }
    }
  }

  lemma {:induction false} DistinctBelow(path: seq<nat>, s: set<nat>)
    requires Distinct(path) && forall x :: x in path ==> x in s
    ensures |path| <= |s|
  {
    if |path| > 0 {
      var n := |path| - 1;
      assert forall x :: x in path[..n] ==> x in s - {path[n]};
      DistinctBelow(path[..n], s - {path[n]});
    }
  }

  lemma Below(n: nat) returns (s: set<nat>)
    ensures |s| == n && forall x: nat :: x in s <==> x < n
  {
    s := {};
    for i := 0 to n
      invariant |s| == i && forall x: nat :: x in s <==> x < i
    {
      s := s + {i};
    }
  }

  /** A walk cannot go on without repeating itself for longer than there are nodes. */
  lemma PathFits(g: Graph, path: seq<nat>)
    requires InGraph(g, path) && Distinct(path)
    ensures |path| <= |g|
  {
    var s := Below(|g|);
    DistinctBelow(path, s);
  }

  /** One walk: from an unresolved node to a resolved one, a parentless one, or one already on the path. */
  method Follow(parent: array<int>, root: array<int>, i: nat, ghost g: Graph) returns (path: seq<nat>, cur: nat)
    requires parent[..] == g && root.Length == parent.Length && i < root.Length && root[i] == -1 && parent != root
    requires Closed(g, root[..])
    modifies root
    ensures InGraph(g, path) && Trail(g, path, cur) && cur < |g| && root[cur] != -1
    ensures
      if old(root[cur]) == -1 then root[..] == old(root[..])[cur := cur] && (g[cur] < 0 || cur in path)
      else root[..] == old(root[..])
    ensures forall k :: 0 <= k < |path| ==> old(root[path[k]]) == -1
    ensures Distinct(path) && i == (if |path| > 0 then path[0] else cur)
  {
    path, cur := [], i;
    var onPath: set<nat> := {};
    while root[cur] == -1
      invariant cur < |g| && InGraph(g, path) && Trail(g, path, cur) && Distinct(path) && Elems(path) == onPath
      invariant root[..] == old(root[..]) && forall k :: 0 <= k < |path| ==> root[path[k]] == -1
      invariant i == if |path| > 0 then path[0] else cur
      decreases |g| - |path|
    {
      assert root[..][cur] == root[cur];
      if cur in onPath || parent[cur] < 0 {
        root[cur] := cur;
        assert g[cur] < 0 || cur in path;
        break;
      }
      TrailMore(g, path, cur);
      onPath := onPath + {cur};
      path := path + [cur];
      PathFits(g, path);
      cur := parent[cur];
    }
  }

  /** Every attachment's root, by walking parents and compressing each path onto the root it ends in. */
  method Roots(parent: array<int>, ghost g: Graph) returns (root: array<int>)
    requires parent[..] == g
    ensures fresh(root) && Rooted(g, root[..]) && Exact(g, root[..])
  {
    var n := parent.Length;
    root := new int[n](_ => -1);
    assert Closed(g, root[..]);
    for i := 0 to n
      invariant root.Length == n && fresh(root) && Closed(g, root[..]) && parent[..] == g
      invariant forall k :: 0 <= k < i ==> root[..][k] != -1
      invariant ExactSoFar(g, root[..])
    {
      assert root[..][i] == root[i];
      if root[i] != -1 {
        continue;
      }
      ghost var before := root[..];
      var path, cur := Follow(parent, root, i, g);
      ghost var marked := root[..];
      assert root[cur] == marked[cur];
      AfterFollow(g, before, marked, path, cur);
      Paint(root, path, root[cur]);
      assert root[..] == Painted(marked, path, marked[cur]);
      ExactAfter(g, before, marked, path, cur, i);
      PaintedUpTo(before, marked, path, cur, i);
    }
    AllExact(g, root[..]);
  }

  lemma AllExact(g: Graph, root: seq<int>)
    requires Closed(g, root) && ExactSoFar(g, root) && forall k :: 0 <= k < |g| ==> root[k] != -1
    ensures Rooted(g, root) && Exact(g, root)
  {
    hide RootedAt, ExactAt;
  }

  lemma PaintedUpTo(before: seq<int>, marked: seq<int>, path: seq<nat>, cur: nat, i: nat)
    requires |marked| == |before| && cur < |before| && i < |before| && marked[cur] != -1
    requires (forall k :: 0 <= k < |path| ==> path[k] < |before|) && (marked == before || marked == before[cur := cur])
    requires (forall k :: 0 <= k < i ==> before[k] != -1) && i == (if |path| > 0 then path[0] else cur)
    ensures forall k :: 0 <= k <= i ==> Painted(marked, path, marked[cur])[k] != -1
  {
  }

  // ----- the root found is the exact one

  ghost predicate ExactSoFar(g: Graph, root: seq<int>) {
    |root| == |g| && forall i :: 0 <= i < |g| && root[i] != -1 ==> ExactAt(g, root, i)
  }

  /** Walking the trail from its `k`-th node on: `p` steps lead further along it, or beyond. */
  lemma {:induction false} TrailWalk(g: Graph, path: seq<nat>, cur: nat, k: nat, p: nat)
    requires InGraph(g, path) && Trail(g, path, cur) && cur < |g| && k < |path| && k + p <= |path|
    ensures Walk(g, path[k], p) == if k + p < |path| then path[k + p] else cur
  {
    if p > 0 {
      TrailWalk(g, path, cur, k, p - 1);
      assert TrailAt(g, path, cur, k + p - 1);
    }
  }

  /** A walk that ends in a node without parent, or that has come back onto itself at its `c`-th node, never returns to
      what lies before. */
  lemma {:induction false} NeverBack(g: Graph, path: seq<nat>, cur: nat, c: nat, k: nat, p: nat)
    requires InGraph(g, path) && Trail(g, path, cur) && cur < |g| && Distinct(path) && k < c && k < |path| && p > 0
    requires if c < |path| then path[c] == cur else c == |path| && g[cur] < 0 && cur !in path
    ensures Walk(g, path[k], p) != path[k]
    ensures Walk(g, path[k], p) in path[k + 1..] + [cur]
  {
    if p == 1 {
      assert Walk(g, path[k], 0) == path[k];
      assert TrailAt(g, path, cur, k);
      if k + 1 < |path| { assert path[k + 1..][0] == path[k + 1]; }
      assert (path[k + 1..] + [cur])[|path| - k - 1] == cur;
    } else {
      NeverBack(g, path, cur, c, k, p - 1);
      var at := Walk(g, path[k], p - 1);
      if at in path {
        var j :| 0 <= j < |path| && path[j] == at;
        assert j > k by {
          if at in path[k + 1..] {
            var l :| 0 <= l < |path[k + 1..]| && path[k + 1..][l] == at;
            assert path[k + 1 + l] == at;
          }
        }
        assert TrailAt(g, path, cur, j);
        if j + 1 < |path| { assert path[k + 1..][j - k] == path[j + 1]; }
      }
      assert (path[k + 1..] + [cur])[|path| - k - 1] == cur;
    }
  }

  /** Where a walk stopped unresolved is where it first comes round again. */
  lemma StoppedFirst(g: Graph, path: seq<nat>, cur: nat, i: nat)
    requires InGraph(g, path) && Trail(g, path, cur) && cur < |g| && Distinct(path)
    requires (g[cur] < 0 || cur in path) && i == (if |path| > 0 then path[0] else cur) && i < |g|
    ensures FirstRecurrent(g, i, cur)
  {
    var c := |path|;
    if cur in path {
      c :| 0 <= c < |path| && path[c] == cur;
      TrailWalk(g, path, cur, c, |path| - c);
      assert Walk(g, cur, |path| - c) == cur;
    } else {
      assert Walk(g, cur, 0) == cur;
      assert Walk(g, cur, 1) == cur;
    }
    assert Recurrent(g, cur);
    if |path| > 0 { TrailWalk(g, path, cur, 0, c); } else { assert Walk(g, i, 0) == cur; }
    forall k: nat | k < c ensures !Recurrent(g, Walk(g, i, k)) {
      TrailWalk(g, path, cur, 0, k);
      forall p: nat | p > 0 ensures Walk(g, path[k], p) != path[k] { NeverBack(g, path, cur, c, k, p); }
    }
    assert FirstAt(g, i, cur, c);
  }

  lemma ExactKept(g: Graph, before: seq<int>, after: seq<int>, x: nat, y: nat, m: nat)
    requires |before| == |after| == |g| && x < |g| && y < |g| && ExactFrom(g, before, x, m) && after[y] == before[x]
    requires forall j :: 0 <= j < |g| && before[j] != -1 ==> after[j] == before[j]
    ensures ExactAt(g, after, y)
  {
    hide FirstRecurrent;
    assert ExactFrom(g, after, y, m);
  }

  lemma ExactNew(g: Graph, before: seq<int>, after: seq<int>, cur: nat, i: nat, y: nat)
    requires |before| == |after| == |g| && cur < |g| && i < |g| && y < |g| && after[i] == cur && after[y] == cur
    requires FirstRecurrent(g, i, cur) && before[cur] == -1 && Closed(g, before)
    requires forall j :: 0 <= j < i ==> before[j] != -1
    requires forall j :: 0 <= j < |g| && before[j] != -1 ==> after[j] == before[j]
    ensures ExactAt(g, after, y)
  {
    forall j: nat | j < i ensures after[j] != -1 && after[j] != cur {
      assert RootedAt(g, before, j);
    }
    hide FirstRecurrent, Closed;
    assert ExactFrom(g, after, y, i);
  }

  lemma ExactAfter(g: Graph, before: seq<int>, marked: seq<int>, path: seq<nat>, cur: nat, i: nat)
    requires Closed(g, before) && ExactSoFar(g, before) && |marked| == |g| && InGraph(g, path) && Trail(g, path, cur)
    requires cur < |g| && marked[cur] != -1 && Distinct(path)
    requires if before[cur] == -1 then marked == before[cur := cur] && (g[cur] < 0 || cur in path) else marked == before
    requires forall k :: 0 <= k < |path| ==> before[path[k]] == -1
    requires i < |g| && (forall k :: 0 <= k < i ==> before[k] != -1) && i == (if |path| > 0 then path[0] else cur)
    ensures ExactSoFar(g, Painted(marked, path, marked[cur]))
  {
    var after := Painted(marked, path, marked[cur]);
    if before[cur] == -1 { StoppedFirst(g, path, cur, i); }
    assert |before| == |g|;
    hide *;
    PaintedOver(g, before, marked, path, cur, i);
    forall y | 0 <= y < |g| && after[y] != -1 ensures ExactAt(g, after, y) {
      if before[y] != -1 {
        ExactOld(g, before, after, y, y);
      } else if before[cur] == -1 {
        ExactNew(g, before, after, cur, i, y);
      } else {
        ExactOld(g, before, after, cur, y);
      }
    }
    ExactAll(g, after);
  }

  lemma PaintedOver(g: Graph, before: seq<int>, marked: seq<int>, path: seq<nat>, cur: nat, i: nat)
    requires |before| == |marked| == |g| && InGraph(g, path) && cur < |g| && marked[cur] != -1
    requires marked == before || (before[cur] == -1 && marked == before[cur := cur])
    requires forall k :: 0 <= k < |path| ==> before[path[k]] == -1
    requires i < |g| && i == if |path| > 0 then path[0] else cur
    ensures var after := Painted(marked, path, marked[cur]);
      && |after| == |g| && after[i] == marked[cur]
      && (forall j :: 0 <= j < |g| && before[j] != -1 ==> after[j] == before[j])
      && (forall y :: 0 <= y < |g| && after[y] != -1 ==> before[y] != -1 || after[y] == marked[cur])
  {
  }

  lemma ExactOld(g: Graph, before: seq<int>, after: seq<int>, x: nat, y: nat)
    requires ExactSoFar(g, before) && |after| == |before| && x < |g| && y < |g| && before[x] != -1
      && after[y] == before[x]
    requires forall j :: 0 <= j < |g| && before[j] != -1 ==> after[j] == before[j]
    ensures ExactAt(g, after, y)
  {
    assert ExactAt(g, before, x);
    var m: nat :| ExactFrom(g, before, x, m);
    hide ExactFrom;
    ExactKept(g, before, after, x, y, m);
  }

  lemma ExactAll(g: Graph, root: seq<int>)
    requires |root| == |g| && forall i :: 0 <= i < |g| && root[i] != -1 ==> ExactAt(g, root, i)
    ensures ExactSoFar(g, root)
  {
    hide ExactAt;
  }

  lemma AfterFollow(g: Graph, before: seq<int>, marked: seq<int>, path: seq<nat>, cur: nat)
    requires Closed(g, before) && |marked| == |g| && InGraph(g, path) && Trail(g, path, cur) && cur < |g|
      && marked[cur] != -1
    requires if before[cur] == -1 then marked == before[cur := cur] && (g[cur] < 0 || cur in path) else marked == before
    requires forall k :: 0 <= k < |path| ==> before[path[k]] == -1
    ensures Closed(g, Painted(marked, path, marked[cur]))
  {
    forall i | 0 <= i < |g| && marked[i] != -1 && i != cur
      ensures RootedAt(g, marked, i) && (marked[i] != cur || before[cur] != -1) {
      assert RootedAt(g, before, i);
    }
    if before[cur] == -1 {
      PaintedClosed(g, marked, path, cur);
    } else {
      assert RootedAt(g, before, cur);
      PaintedResolved(g, marked, path, cur);
    }
  }

  /** The case of a walk that ends in a resolved node. */
  lemma PaintedResolved(g: Graph, root: seq<int>, path: seq<nat>, cur: nat)
    requires Closed(g, root) && InGraph(g, path) && Trail(g, path, cur) && cur < |g| && root[cur] != -1
    requires forall k :: 0 <= k < |path| ==> root[path[k]] == -1
    ensures Closed(g, Painted(root, path, root[cur]))
  {
    var r := root[cur];
    var painted := Painted(root, path, r);
    assert RootedAt(g, root, cur);
    assert cur !in path && r !in path;
    forall i | 0 <= i < |g| && painted[i] != -1 ensures RootedAt(g, painted, i) {
      if i in path {
        var k :| 0 <= k < |path| && path[k] == i;
        TrailVisits(g, path, cur, k, r);
        assert TrailAt(g, path, cur, k);
        if k + 1 < |path| { assert path[k + 1] in path; }
      } else {
        assert RootedAt(g, root, i);
        assert root[i] !in path;
        if g[i] >= 0 { assert root[g[i]] == root[i]; }
      }
    }
  }

  method Paint(root: array<int>, path: seq<nat>, r: int)
    requires forall k :: 0 <= k < |path| ==> path[k] < root.Length
    modifies root
    ensures root[..] == Painted(old(root[..]), path, r)
  {
    for k := 0 to |path|
      invariant forall i :: 0 <= i < root.Length ==> root[i] == if i in path[..k] then r else old(root[i])
    {
      root[path[k]] := r;
      assert path[..k + 1] == path[..k] + [path[k]];
    }
    assert path[..|path|] == path;
  }

  // ----- lineages

  /** The members of a root's lineage, in stream order. */
  function Members(root: seq<int>, r: int): (ms: seq<nat>)
    ensures forall k :: 0 <= k < |ms| ==> ms[k] < |root| && root[ms[k]] == r
  {
    if |root| == 0 then [] else Members(root[..|root| - 1], r) + if root[|root| - 1] == r then [|root| - 1] else []
  }

  lemma {:induction false} MembersAre(root: seq<int>, r: int, i: nat)
    requires i < |root|
    ensures i in Members(root, r) <==> root[i] == r
  {
    if i < |root| - 1 { MembersAre(root[..|root| - 1], r, i); }
  }

  /** The newest revision still standing. */
  function TipAt(revs: seq<Attachment>): (k: int)
    ensures -1 <= k < |revs| && (k >= 0 ==> !revs[k].removed) && forall j :: k < j < |revs| ==> revs[j].removed
  {
    if |revs| == 0 then -1
    else if !revs[|revs| - 1].removed then |revs| - 1
    else TipAt(revs[..|revs| - 1])
  }

  function Revisions(xs: seq<Attachment>, ms: seq<nat>): seq<Attachment>
    requires forall k :: 0 <= k < |ms| ==> ms[k] < |xs|
  {
    seq(|ms|, k requires 0 <= k < |ms| => xs[ms[k]])
  }

  /** The artefact rooted at `r`, unless nobody is or nothing of it stands. */
  function Lineage(xs: seq<Attachment>, root: seq<int>, r: nat): Option<Artefact>
    requires |root| == |xs| && r < |xs|
  {
    var revs := Revisions(xs, Members(root, r));
    var k := TipAt(revs);
    if k < 0 then None else Some(Artefact(xs[r].opId, revs[k].name, revs[k], revs))
  }

  /** The artefacts rooted below `n`, in order. */
  function Listed(xs: seq<Attachment>, root: seq<int>, n: nat): seq<Artefact>
    requires |root| == |xs| && n <= |xs|
  {
    if n == 0 then []
    else Listed(xs, root, n - 1) + match Lineage(xs, root, n - 1) case None => [] case Some(a) => [a]
  }

  method ParentArray(xs: seq<Attachment>) returns (parent: array<int>)
    ensures fresh(parent) && parent[..] == Parents(xs)
  {
    var n := |xs|;
    var idx: map<OpId, nat> := map[];
    for i := 0 to n
      invariant forall id :: if IdAt(xs[..i], id) < 0 then id !in idx else id in idx && idx[id] == IdAt(xs[..i], id)
    {
      assert xs[..i + 1][..i] == xs[..i];
      idx := idx[xs[i].opId := i];
    }
    assert xs[..n] == xs;
    parent := new int[n](_ => -1);
    for i := 0 to n
      invariant parent.Length == n && forall k :: 0 <= k < n ==> parent[k] == if k < i then ParentOf(xs, k) else -1
    {
      if xs[i].anchor != "" && xs[i].anchor in idx && idx[xs[i].anchor] != i {
        parent[i] := idx[xs[i].anchor];
      }
    }
  }

  method Group(root: seq<int>) returns (members: map<int, seq<nat>>)
    ensures forall r ::
      if Members(root, r) == [] then r !in members
      else r in members && members[r] == Members(root, r)
  {
    members := map[];
    for i := 0 to |root|
      invariant forall r ::
        if Members(root[..i], r) == [] then r !in members
        else r in members && members[r] == Members(root[..i], r)
    {
      assert root[..i + 1][..i] == root[..i];
      var r := root[i];
      members := members[r := (if r in members then members[r] else []) + [i]];
    }
    assert root[..|root|] == root;
  }

  method FindTip(revs: seq<Attachment>) returns (tipAt: int)
    ensures tipAt == TipAt(revs)
  {
    tipAt := |revs| - 1;
    assert revs[..|revs|] == revs;
    while tipAt >= 0 && revs[tipAt].removed
      invariant -1 <= tipAt < |revs| && TipAt(revs) == TipAt(revs[..tipAt + 1])
      decreases tipAt
    {
      assert revs[..tipAt + 1][..tipAt] == revs[..tipAt];
      tipAt := tipAt - 1;
    }
  }

  /** The lineage rooted at `r`, from its members. */
  method ListOne(xs: seq<Attachment>, ghost root: seq<int>, r: nat, members: map<int, seq<nat>>)
    returns (listed: Option<Artefact>)
    requires |root| == |xs| && r < |xs|
    requires if Members(root, r) == [] then r !in members else r in members && members[r] == Members(root, r)
    ensures listed == Lineage(xs, root, r)
  {
    listed := None;
    if r in members {
      var revs := Revisions(xs, members[r]);
      var tipAt := FindTip(revs);
      if tipAt >= 0 {
        listed := Some(Artefact(xs[r].opId, revs[tipAt].name, revs[tipAt], revs));
      }
    } else {
      NothingStands(xs);
    }
  }

  lemma NothingStands(xs: seq<Attachment>)
    ensures TipAt(Revisions(xs, [])) == -1
  {
  }

  /** Artefacts: groups the attachments into lineages. The roots found make two attachments one lineage exactly when
      their anchor walks meet, and each listed tip is its lineage's newest standing revision. */
  method Artefacts(xs: seq<Attachment>) returns (out: seq<Artefact>)
    ensures exists root: seq<int> ::
      Rooted(Parents(xs), root) && Exact(Parents(xs), root) && out == Listed(xs, root, |xs|)
  {
    hide *;
    var parent := ParentArray(xs);
    var roots := Roots(parent, Parents(xs));
    ghost var root := roots[..];
    RootedLength(Parents(xs), root);
    var members := Group(roots[..]);
    out := ListAll(xs, root, members);
    assert Rooted(Parents(xs), root) && Exact(Parents(xs), root) && out == Listed(xs, root, |xs|);
  }

  lemma RootedLength(g: Graph, root: seq<int>)
    requires Rooted(g, root)
    ensures |root| == |g| && forall i :: 0 <= i < |root| ==> root[i] < |root|
  {
    forall i | 0 <= i < |root| ensures root[i] < |root| { assert RootedAt(g, root, i); }
  }

  method ListAll(xs: seq<Attachment>, ghost root: seq<int>, members: map<int, seq<nat>>) returns (out: seq<Artefact>)
    requires |root| == |xs|
    requires forall r ::
      if Members(root, r) == [] then r !in members
      else r in members && members[r] == Members(root, r)
    ensures out == Listed(xs, root, |xs|)
  {
    hide Members, Lineage;
    out := [];
    for r := 0 to |xs|
      invariant out == Listed(xs, root, r)
    {
      var listed := ListOne(xs, root, r, members);
      if listed.Some? {
        out := out + [listed.value];
      }
    }
  }

  // ----- revising

  /** Every anchor that leads to an attachment leads to an earlier one. */
  ghost predicate Backward(g: Graph) {
    forall i :: 0 <= i < |g| ==> g[i] < i
  }

  /** The first revision an attachment goes back to. */
  function Base(g: Graph, i: nat): (r: nat)
    requires Backward(g) && i < |g|
    ensures r <= i && g[r] < 0
  {
    if g[i] < 0 then i else Base(g, g[i])
  }

  lemma {:induction false} BaseIsRoot(g: Graph, root: seq<int>, i: nat)
    requires Backward(g) && Rooted(g, root) && i < |g|
    ensures root[i] == Base(g, i)
  {
    if g[i] < 0 {
      assert Walk(g, i, 0) == i;
      RootIsEnd(g, root, i, 0);
    } else {
      BaseIsRoot(g, root, g[i]);
      assert RootedAt(g, root, i);
    }
  }

  lemma IdAtAppend(xs: seq<Attachment>, x: Attachment, id: OpId)
    ensures IdAt(xs + [x], id) == if x.opId == id then |xs| else IdAt(xs, id)
  {
    assert (xs + [x])[..|xs|] == xs;
  }

  lemma ParentAppend(xs: seq<Attachment>, x: Attachment, i: nat)
    requires i <= |xs|
    requires (xs + [x])[i].anchor != x.opId
    ensures ParentOf(xs + [x], i) ==
      if i < |xs| then ParentOf(xs, i) else if x.anchor == "" then -1 else IdAt(xs, x.anchor)
  {
    IdAtAppend(xs, x, (xs + [x])[i].anchor);
    hide IdAt;
    if i < |xs| { assert (xs + [x])[i] == xs[i]; }
  }

  /** A new attachment changes nobody's parent, when its id is new and nobody was waiting for it. */
  lemma ParentsAppend(xs: seq<Attachment>, x: Attachment)
    requires forall i :: 0 <= i < |xs| ==> xs[i].anchor != x.opId
    requires x.anchor != x.opId
    ensures Parents(xs + [x]) == Parents(xs) + [if x.anchor == "" then -1 else IdAt(xs, x.anchor)]
  {
    var now := Parents(xs) + [if x.anchor == "" then -1 else IdAt(xs, x.anchor)];
    hide IdAt, ParentOf;
    forall i | 0 <= i <= |xs| ensures Parents(xs + [x])[i] == now[i] {
      assert i < |xs| ==> (xs + [x])[i] == xs[i];
      ParentAppend(xs, x, i);
    }
  }

  lemma {:induction false} BaseAppend(g: Graph, h: Graph, i: nat)
    requires Backward(g) && Backward(h) && |h| == |g| + 1 && h[..|g|] == g && i < |g|
    ensures Base(h, i) == Base(g, i)
  {
    assert h[i] == h[..|g|][i];
    if g[i] >= 0 { BaseAppend(g, h, g[i]); }
  }

  /** Attaching a revision extends exactly the lineage it revises, by itself, and leaves every other as it was; a new
      document starts a lineage of its own. */
  lemma RevisionExtendsOneLineage(xs: seq<Attachment>, x: Attachment, root: seq<int>, later: seq<int>, r: nat)
    requires Backward(Parents(xs)) && Rooted(Parents(xs), root) && Rooted(Parents(xs + [x]), later) && r <= |xs|
    requires x.anchor != x.opId && forall i :: 0 <= i < |xs| ==> xs[i].anchor != x.opId
    ensures var j := if x.anchor == "" then -1 else IdAt(xs, x.anchor);
      && later[|xs|] == (if j < 0 then |xs| else root[j])
      && Members(later, r) == Members(root, r) + (if later[|xs|] == r then [|xs|] else [])
  {
    var n := |xs|;
    var g, h := Parents(xs), Parents(xs + [x]);
    ParentsAppend(xs, x);
    assert h[..n] == g;
    forall i | 0 <= i < n ensures later[i] == root[i] {
      BaseIsRoot(g, root, i);
      BaseIsRoot(h, later, i);
      BaseAppend(g, h, i);
    }
    assert later[..n] == root;
    BaseIsRoot(h, later, n);
    if h[n] >= 0 { BaseIsRoot(h, later, h[n]); }
  }

  lemma TipAppend(revs: seq<Attachment>, x: Attachment)
    ensures TipAt(revs + [x]) == if x.removed then TipAt(revs) else |revs|
  {
    assert (revs + [x])[..|revs|] == revs;
  }

  lemma RevisionsAppend(xs: seq<Attachment>, x: Attachment, ms: seq<nat>)
    requires forall k :: 0 <= k < |ms| ==> ms[k] < |xs|
    ensures Revisions(xs + [x], ms) == Revisions(xs, ms)
    ensures Revisions(xs + [x], ms + [|xs|]) == Revisions(xs, ms) + [x]
  {
  }

  /** A listed artefact with one more revision: it becomes the tip unless it is withdrawn. */
  function Revised(listed: Option<Artefact>, root: OpId, revs: seq<Attachment>, x: Attachment): Option<Artefact> {
    if !x.removed then Some(Artefact(root, x.name, x, revs + [x]))
    else match listed
         case None => None
         case Some(a) => Some(a.(revisions := a.revisions + [x]))
  }

  /** The same told of what is listed: the artefact that is revised gains exactly the new revision, at the end, and its
      tip; every other artefact is listed as before; a new document is listed by itself. */
  lemma RevisionExtendsOneArtefact(xs: seq<Attachment>, x: Attachment, root: seq<int>, later: seq<int>, r: nat)
    requires Backward(Parents(xs)) && Rooted(Parents(xs), root) && Rooted(Parents(xs + [x]), later) && r <= |xs|
    requires x.anchor != x.opId && forall i :: 0 <= i < |xs| ==> xs[i].anchor != x.opId
    ensures |root| == |xs| && |later| == |xs| + 1
    ensures Lineage(xs + [x], later, r) ==
      if r == |xs| then (if later[|xs|] != r || x.removed then None else Some(Artefact(x.opId, x.name, x, [x])))
      else if later[|xs|] != r then Lineage(xs, root, r)
      else Revised(Lineage(xs, root, r), xs[r].opId, Revisions(xs, Members(root, r)), x)
  {
    hide *;
    var n := |xs|;
    RootedLength(Parents(xs), root);
    RootedLength(Parents(xs + [x]), later);
    RevisionExtendsOneLineage(xs, x, root, later, r);
    var ms := Members(root, r);
    if r == n {
      NoMembers(root, n);
      assert [] + [n] == [n];
      NewLineage(xs, x, later);
    } else if later[n] != r {
      assert ms + [] == ms;
      SameLineage(xs, x, root, later, r);
    } else {
      LongerLineage(xs, x, root, later, r);
    }
  }

  lemma NewLineage(xs: seq<Attachment>, x: Attachment, later: seq<int>)
    requires |later| == |xs| + 1 && Members(later, |xs|) == if later[|xs|] == |xs| then [|xs|] else []
    ensures Lineage(xs + [x], later, |xs|) ==
      if later[|xs|] != |xs| || x.removed then None else Some(Artefact(x.opId, x.name, x, [x]))
  {
    RevisionsAppend(xs, x, []);
    TipAppend([], x);
    NothingStands(xs + [x]);
    assert [] + [x] == [x] && [] + [|xs|] == [|xs|] && Revisions(xs, []) == [];
    hide Members, TipAt, Revisions;
  }

  lemma SameLineage(xs: seq<Attachment>, x: Attachment, root: seq<int>, later: seq<int>, r: nat)
    requires |root| == |xs| && |later| == |xs| + 1 && r < |xs| && Members(later, r) == Members(root, r)
    ensures Lineage(xs + [x], later, r) == Lineage(xs, root, r)
  {
    RevisionsAppend(xs, x, Members(root, r));
    assert (xs + [x])[r] == xs[r];
    hide Members, TipAt, Revisions;
  }

  lemma LongerLineage(xs: seq<Attachment>, x: Attachment, root: seq<int>, later: seq<int>, r: nat)
    requires |root| == |xs| && |later| == |xs| + 1 && r < |xs| && Members(later, r) == Members(root, r) + [|xs|]
    ensures Lineage(xs + [x], later, r) == Revised(Lineage(xs, root, r), xs[r].opId, Revisions(xs, Members(root, r)), x)
  {
    var ms := Members(root, r);
    RevisionsAppend(xs, x, ms);
    TipAppend(Revisions(xs, ms), x);
    assert (xs + [x])[r] == xs[r];
    hide Members, TipAt, Revisions;
  }

  lemma {:induction false} NoMembers(root: seq<int>, r: nat)
    requires forall i :: 0 <= i < |root| ==> root[i] < r
    ensures Members(root, r) == []
  {
    if |root| > 0 { NoMembers(root[..|root| - 1], r); }
  }

  /** Two listed artefacts never share a revision. */
  lemma LineagesDisjoint(root: seq<int>, r: int, s: int, i: nat)
    requires i < |root| && i in Members(root, r) && i in Members(root, s)
    ensures r == s
  {
    MembersAre(root, r, i);
    MembersAre(root, s, i);
  }

  lemma {:induction false} SameIds(xs: seq<Attachment>, ys: seq<Attachment>, id: OpId)
    requires |xs| == |ys| && forall i :: 0 <= i < |xs| ==> xs[i].opId == ys[i].opId
    ensures IdAt(xs, id) == IdAt(ys, id)
  {
    if |xs| > 0 { SameIds(xs[..|xs| - 1], ys[..|ys| - 1], id); }
  }

  /** Views no reader can tell apart, such as before and after a rollup, have the same anchor graph. */
  lemma GraphSurvivesCompaction(xs: seq<Attachment>, ys: seq<Attachment>)
    requires SameFiles(xs, ys)
    ensures Parents(xs) == Parents(ys)
  {
    forall i | 0 <= i < |xs| ensures xs[i].opId == ys[i].opId && xs[i].anchor == ys[i].anchor {
      assert SameFile(xs[i], ys[i]);
    }
    forall i | 0 <= i < |xs| ensures ParentOf(xs, i) == ParentOf(ys, i) { SameIds(xs, ys, xs[i].anchor); }
  }

  // ----- exactly what is listed

  ghost predicate Ascending(ms: seq<nat>) {
    forall k, l :: 0 <= k < l < |ms| ==> ms[k] < ms[l]
  }

  /** `ms` are the attachments rooted at `r`, in stream order. */
  ghost predicate AreMembers(root: seq<int>, r: nat, ms: seq<nat>) {
    Ascending(ms) && forall i: nat :: i in ms <==> i < |root| && root[i] == r
  }

  /** The artefact of the lineage rooted at `r`: known by the root's id, all revisions in stream order, and as tip, with
      its name, the newest that is not withdrawn. */
  ghost predicate TellsLineage(xs: seq<Attachment>, root: seq<int>, r: nat, a: Artefact) {
    && r < |xs| && a.root == xs[r].opId && a.name == a.tip.name
    && (exists ms: seq<nat> :: AreMembers(root, r, ms) && AreRevisions(xs, ms, a.revisions))
    && (exists k :: IsTip(a.revisions, k, a.tip))
  }

  ghost predicate AreRevisions(xs: seq<Attachment>, ms: seq<nat>, revs: seq<Attachment>) {
    |revs| == |ms| && forall k :: 0 <= k < |ms| ==> ms[k] < |xs| && revs[k] == xs[ms[k]]
  }

  ghost predicate IsTip(revs: seq<Attachment>, k: int, tip: Attachment) {
    0 <= k < |revs| && revs[k] == tip && !tip.removed && forall j :: k < j < |revs| ==> revs[j].removed
  }

  /** Something of the lineage rooted at `r` still stands. */
  ghost predicate Stands(xs: seq<Attachment>, root: seq<int>, r: nat) {
    exists i :: 0 <= i < |root| && i < |xs| && root[i] == r && !xs[i].removed
  }

  lemma {:induction false} MembersExactly(root: seq<int>, r: nat)
    ensures AreMembers(root, r, Members(root, r))
  {
    if |root| > 0 {
      var n := |root| - 1;
      MembersExactly(root[..n], r);
      MembersMore(root, r, Members(root[..n], r));
    }
  }

  lemma MembersMore(root: seq<int>, r: nat, ms: seq<nat>)
    requires |root| > 0 && AreMembers(root[..|root| - 1], r, ms)
    ensures AreMembers(root, r, ms + if root[|root| - 1] == r then [|root| - 1] else [])
  {
    var n := |root| - 1;
    assert forall k :: 0 <= k < |ms| ==> ms[k] in ms && ms[k] < n;
    forall i: nat | i < n ensures i in ms <==> root[i] == r { assert root[..n][i] == root[i]; }
  }

  lemma LineageExactly(xs: seq<Attachment>, root: seq<int>, r: nat)
    requires |root| == |xs| && r < |xs|
    ensures Lineage(xs, root, r).Some? <==> Stands(xs, root, r)
    ensures Lineage(xs, root, r).Some? ==> TellsLineage(xs, root, r, Lineage(xs, root, r).value)
  {
    var ms := Members(root, r);
    MembersExactly(root, r);
    var revs := Revisions(xs, ms);
    var k := TipAt(revs);
    assert AreRevisions(xs, ms, revs);
    hide Members, TipAt;
    if k >= 0 {
      assert IsTip(revs, k, revs[k]);
      assert ms[k] in ms && root[ms[k]] == r && !xs[ms[k]].removed;
    }
    if Stands(xs, root, r) {
      var i :| 0 <= i < |root| && root[i] == r && !xs[i].removed;
      assert i in ms;
      var l :| 0 <= l < |ms| && ms[l] == i;
      assert !revs[l].removed;
    }
  }

  /** The roots below `n` that are listed. */
  ghost function ListedRoots(xs: seq<Attachment>, root: seq<int>, n: nat): (rs: seq<nat>)
    requires |root| == |xs| && n <= |xs|
    ensures forall m :: 0 <= m < |rs| ==> rs[m] < n
  {
    if n == 0 then []
    else ListedRoots(xs, root, n - 1) + if Lineage(xs, root, n - 1).Some? then [n - 1] else []
  }

  /** `out` tells the lineages rooted below `n` of which something stands, and `rs` are their roots. */
  ghost predicate TellRoots(xs: seq<Attachment>, root: seq<int>, n: nat, rs: seq<nat>, out: seq<Artefact>) {
    && Ascending(rs) && |out| == |rs| && (forall m :: 0 <= m < |rs| ==> rs[m] < n)
    && (forall m :: 0 <= m < |rs| ==> TellsLineage(xs, root, rs[m], out[m]))
    && forall r: nat :: r < n ==> (r in rs <==> Stands(xs, root, r))
  }

  lemma TellMore(xs: seq<Attachment>, root: seq<int>, n: nat, rs: seq<nat>, out: seq<Artefact>, a: Artefact)
    requires TellRoots(xs, root, n, rs, out) && TellsLineage(xs, root, n, a) && Stands(xs, root, n)
    ensures TellRoots(xs, root, n + 1, rs + [n], out + [a])
  {
    hide TellsLineage, Stands;
  }

  lemma TellNoMore(xs: seq<Attachment>, root: seq<int>, n: nat, rs: seq<nat>, out: seq<Artefact>)
    requires TellRoots(xs, root, n, rs, out) && !Stands(xs, root, n)
    ensures TellRoots(xs, root, n + 1, rs, out)
  {
    hide TellsLineage, Stands;
    assert n !in rs;
  }

  lemma ListedStep(xs: seq<Attachment>, root: seq<int>, n: nat)
    requires |root| == |xs| && n < |xs|
    ensures ListedRoots(xs, root, 0) == [] && Listed(xs, root, 0) == []
    ensures match Lineage(xs, root, n)
      case None =>
        ListedRoots(xs, root, n + 1) == ListedRoots(xs, root, n) && Listed(xs, root, n + 1) == Listed(xs, root, n)
      case Some(a) =>
        && ListedRoots(xs, root, n + 1) == ListedRoots(xs, root, n) + [n]
        && Listed(xs, root, n + 1) == Listed(xs, root, n) + [a]
  {
    hide Lineage;
  }

  lemma TellNone(xs: seq<Attachment>, root: seq<int>)
    requires |root| == |xs|
    ensures TellRoots(xs, root, 0, ListedRoots(xs, root, 0), Listed(xs, root, 0))
  {
  }

  lemma {:induction false} ListedBelow(xs: seq<Attachment>, root: seq<int>, n: nat)
    requires |root| == |xs| && n <= |xs|
    ensures TellRoots(xs, root, n, ListedRoots(xs, root, n), Listed(xs, root, n))
  {
    hide *;
    if n == 0 {
      TellNone(xs, root);
    } else {
      ListedBelow(xs, root, n - 1);
      LineageExactly(xs, root, n - 1);
      ListedStep(xs, root, n - 1);
      var rs, out := ListedRoots(xs, root, n - 1), Listed(xs, root, n - 1);
      match Lineage(xs, root, n - 1)
      case None => TellNoMore(xs, root, n - 1, rs, out);
      case Some(a) => TellMore(xs, root, n - 1, rs, out, a);
    }
  }

  /** What is listed: each lineage of which something stands, by increasing root, as that lineage tells it, and no
      other. */
  lemma ListedExactly(xs: seq<Attachment>, root: seq<int>)
    requires |root| == |xs|
    ensures exists rs: seq<nat> :: TellRoots(xs, root, |xs|, rs, Listed(xs, root, |xs|))
  {
    ListedBelow(xs, root, |xs|);
    hide TellRoots;
  }

  // ----- finding one

  datatype Found = One(artefact: Artefact) | NoneSuch | Ambiguous(roots: seq<OpId>) | EmptyReference

  predicate Carries(a: Artefact, id: OpId) {
    a.root == id || exists k :: 0 <= k < |a.revisions| && a.revisions[k].opId == id
  }

  function Named(arts: seq<Artefact>, name: string): seq<Artefact> {
    if |arts| == 0 then []
    else Named(arts[..|arts| - 1], name) + if arts[|arts| - 1].name == name then [arts[|arts| - 1]] else []
  }

  /** `named` are the artefacts of this name, in listed order. */
  ghost predicate AreNamed(arts: seq<Artefact>, name: string, ks: seq<nat>, named: seq<Artefact>) {
    && Ascending(ks) && |named| == |ks| && (forall m :: 0 <= m < |ks| ==> ks[m] < |arts| && named[m] == arts[ks[m]])
    && forall k: nat :: k in ks <==> k < |arts| && arts[k].name == name
  }

  lemma {:induction false} NamedExactly(arts: seq<Artefact>, name: string) returns (ks: seq<nat>)
    ensures AreNamed(arts, name, ks, Named(arts, name))
  {
    if |arts| == 0 {
      ks := [];
    } else {
      var n := |arts| - 1;
      ks := NamedExactly(arts[..n], name);
      if arts[n].name == name { ks := ks + [n]; }
    }
  }

  function RootIds(arts: seq<Artefact>): seq<OpId> {
    seq(|arts|, i requires 0 <= i < |arts| => arts[i].root)
  }

  /** FindArtefact: an op-id of the lineage decides; a name only when it is unique. */
  method FindArtefact(arts: seq<Artefact>, reference: string) returns (found: Found)
    ensures TrimSpace(reference) == "" <==> found.EmptyReference?
    ensures var id := TrimSpace(reference); id != "" ==>
      if exists i :: 0 <= i < |arts| && Carries(arts[i], id)
      then found.One? && exists i ::
        0 <= i < |arts| && arts[i] == found.artefact && Carries(arts[i], id)
        && forall j :: 0 <= j < i ==> !Carries(arts[j], id)
      else var ms := Named(arts, id);
        found == if |ms| == 0 then NoneSuch else if |ms| == 1 then One(ms[0]) else Ambiguous(RootIds(ms))
  {
    var id := TrimSpace(reference);
    if id == "" {
      return EmptyReference;
    }
    for i := 0 to |arts|
      invariant forall j :: 0 <= j < i ==> !Carries(arts[j], id)
    {
      if arts[i].root == id {
        return One(arts[i]);
      }
      for k := 0 to |arts[i].revisions|
        invariant forall j :: 0 <= j < k ==> arts[i].revisions[j].opId != id
      {
        if arts[i].revisions[k].opId == id {
          assert Carries(arts[i], id);
          return One(arts[i]);
        }
      }
    }
    var ms := [];
    for i := 0 to |arts|
      invariant ms == Named(arts[..i], id)
    {
      assert arts[..i + 1][..i] == arts[..i];
      if arts[i].name == id {
        ms := ms + [arts[i]];
      }
    }
    assert arts[..|arts|] == arts;
    if |ms| == 1 {
      return One(ms[0]);
    } else if |ms| == 0 {
      return NoneSuch;
    }
    return Ambiguous(RootIds(ms));
  }
}
