/** The breadth-first listing of a session and its descendants. */
module SessionTree {
  import opened Wrappers

  type Id = string

  /** A stored session; nothing keeps the parent relation from having cycles. */
  datatype Row = Row(id: Id, parent: Option<Id>)

  /** The ids of the rows with this parent, in table order. */
  function ChildrenOf(rows: seq<Row>, parent: Id): seq<Id> {
    if rows == [] then []
    else (if rows[0].parent == Some(parent) then [rows[0].id] else []) + ChildrenOf(rows[1..], parent)
  }

  predicate IsChild(rows: seq<Row>, parent: Id, child: Id) {
    Row(child, Some(parent)) in rows
  }

  lemma {:induction false} ChildrenOfMembers(rows: seq<Row>, parent: Id)
    ensures forall c :: c in ChildrenOf(rows, parent) <==> IsChild(rows, parent, c)
  {
    if rows != [] {
      ChildrenOfMembers(rows[1..], parent);
      assert rows == [rows[0]] + rows[1..];
    }
  }

  // ---------------------------------------------------------------- reachability

  /** A path from parent to child, step by step. */
  predicate IsPath(rows: seq<Row>, path: seq<Id>) {
    path != [] && forall i :: 0 <= i < |path| - 1 ==> IsChild(rows, path[i], path[i + 1])
  }

  /** `x` is at most `n` steps below `root`. */
  ghost predicate Within(rows: seq<Row>, root: Id, x: Id, n: nat) {
    exists path :: IsPath(rows, path) && path[0] == root && path[|path| - 1] == x && |path| <= n + 1
  }

  ghost predicate Reachable(rows: seq<Row>, root: Id, x: Id) {
    exists n :: Within(rows, root, x, n)
  }

  lemma {:induction false} WithinRoot(rows: seq<Row>, root: Id)
    ensures forall x :: Within(rows, root, x, 0) <==> x == root
  {
    assert IsPath(rows, [root]);
  }

  lemma {:induction false} WithinMore(rows: seq<Row>, root: Id, x: Id, m: nat, n: nat)
    requires Within(rows, root, x, m) && m <= n
    ensures Within(rows, root, x, n)
  {
    var path :| IsPath(rows, path) && path[0] == root && path[|path| - 1] == x && |path| <= m + 1;
    assert |path| <= n + 1;
  }

  lemma {:induction false} WithinChild(rows: seq<Row>, root: Id, x: Id, child: Id, n: nat)
    requires Within(rows, root, x, n) && IsChild(rows, x, child)
    ensures Within(rows, root, child, n + 1)
  {
    var path :| IsPath(rows, path) && path[0] == root && path[|path| - 1] == x && |path| <= n + 1;
    var longer := path + [child];
    assert IsPath(rows, longer);
  }

  /** What is within one more step is within already, or a child of what is. */
  lemma {:induction false} WithinStep(rows: seq<Row>, root: Id, x: Id, n: nat)
    requires Within(rows, root, x, n + 1)
    ensures Within(rows, root, x, n) || exists p :: Within(rows, root, p, n) && IsChild(rows, p, x)
  {
    var path :| IsPath(rows, path) && path[0] == root && path[|path| - 1] == x && |path| <= n + 2;
    if |path| == 1 {
      WithinRoot(rows, root);
      WithinMore(rows, root, x, 0, n);
    } else {
      var init := path[..|path| - 1];
      assert IsPath(rows, init);
      assert Within(rows, root, init[|init| - 1], n);
    }
  }

  // ---------------------------------------------------------------- what the listing promises

  predicate NoRepeats(ids: seq<Id>) {
    forall i, j :: 0 <= i < j < |ids| ==> ids[i] != ids[j]
  }

  /** Whatever is listed earlier is at most as many steps away. */
  ghost predicate NearestFirst(rows: seq<Row>, root: Id, ids: seq<Id>) {
    forall i, j, n: nat :: 0 <= i <= j < |ids| && Within(rows, root, ids[j], n) ==> Within(rows, root, ids[i], n)
  }

  /**
   * The state of the search: `ids[..done]` are expanded, `ids[..level]` are exactly what is within
   * `depth` steps, and the rest are children of the expanded ones, one step further away.
   */
  ghost predicate Searching(rows: seq<Row>, root: Id, ids: seq<Id>, done: nat, level: nat, depth: nat) {
    && done <= level <= |ids|
    && (forall x :: x in ids[..level] <==> Within(rows, root, x, depth))
    && (forall i :: level <= i < |ids| ==> Within(rows, root, ids[i], depth + 1) && !Within(rows, root, ids[i], depth))
    && (forall i, c :: 0 <= i < done && IsChild(rows, ids[i], c) ==> c in ids)
  }

  /** A finished level is the next one. */
  lemma {:induction false} NextLevel(rows: seq<Row>, root: Id, ids: seq<Id>, level: nat, depth: nat)
    requires Searching(rows, root, ids, level, level, depth)
    ensures Searching(rows, root, ids, level, |ids|, depth + 1)
  {
    assert ids[..|ids|] == ids;
    forall x
      ensures x in ids <==> Within(rows, root, x, depth + 1)
    {
      if x in ids {
        var i :| 0 <= i < |ids| && ids[i] == x;
        if i < level {
          assert ids[..level][i] == x;
          WithinMore(rows, root, x, depth, depth + 1);
        }
      }
      if Within(rows, root, x, depth + 1) {
        WithinStep(rows, root, x, depth);
        if Within(rows, root, x, depth) {
          assert x in ids[..level];
        } else {
          var p :| Within(rows, root, p, depth) && IsChild(rows, p, x);
          assert p in ids[..level];
          var i :| 0 <= i < level && ids[i] == p;
        }
      }
    }
  }

  /** When everything listed is expanded nothing is missing. */
  lemma {:induction false} SearchComplete(rows: seq<Row>, root: Id, ids: seq<Id>, depth: nat, x: Id, n: nat)
    requires Searching(rows, root, ids, |ids|, |ids|, depth)
    requires Within(rows, root, x, n)
    ensures x in ids
    decreases n
  {
    assert ids[..|ids|] == ids;
    if n <= depth {
      WithinMore(rows, root, x, n, depth);
    } else if Within(rows, root, x, n - 1) {
      SearchComplete(rows, root, ids, depth, x, n - 1);
    } else {
      WithinStep(rows, root, x, n - 1);
      var p :| Within(rows, root, p, n - 1) && IsChild(rows, p, x);
      SearchComplete(rows, root, ids, depth, p, n - 1);
    }
  }

  lemma {:induction false} LevelsAreOrdered(rows: seq<Row>, root: Id, ids: seq<Id>, done: nat, level: nat, depth: nat)
    requires Searching(rows, root, ids, done, level, depth)
    requires NearestFirst(rows, root, ids[..level])
    ensures NearestFirst(rows, root, ids)
  {
    forall i, j, n: nat | 0 <= i <= j < |ids| && Within(rows, root, ids[j], n)
      ensures Within(rows, root, ids[i], n)
    {
      if j < level {
        assert ids[..level][i] == ids[i] && ids[..level][j] == ids[j];
      } else {
        assert n > depth;
        if i < level {
          assert ids[..level][i] in ids[..level];
          WithinMore(rows, root, ids[i], depth, n);
        } else {
          WithinMore(rows, root, ids[i], depth + 1, n);
        }
      }
    }
  }

  /** Appends the children that were not seen yet. */
  method Discover(children: seq<Id>, ids: seq<Id>, seen: set<Id>, queue: seq<Id>)
    returns (ids': seq<Id>, seen': set<Id>, queue': seq<Id>)
    requires NoRepeats(ids) && (forall x :: x in seen <==> x in ids)
    requires |queue| <= |ids| && queue == ids[|ids| - |queue|..]
    ensures NoRepeats(ids') && (forall x :: x in seen' <==> x in ids')
    ensures ids <= ids' && queue' == ids'[|ids| - |queue|..]
    ensures forall x :: x in ids' <==> x in ids || x in children
    ensures forall i :: |ids| <= i < |ids'| ==> ids'[i] in children
  {
    ids', seen', queue' := ids, seen, queue;
    for k := 0 to |children|
      invariant NoRepeats(ids') && (forall x :: x in seen' <==> x in ids')
      invariant ids <= ids' && queue' == ids'[|ids| - |queue|..]
      invariant forall x :: x in ids' <==> x in ids || x in children[..k]
      invariant forall i :: |ids| <= i < |ids'| ==> ids'[i] in children
    {
      var child := children[k];
      assert forall x :: x in children[..k + 1] <==> x in children[..k] || x == child;
      if child in seen' {
        continue;
      }
      seen' := seen' + {child};
      ids' := ids' + [child];
      queue' := queue' + [child];
    }
    assert children[..|children|] == children;
  }

  function Ids(rows: seq<Row>): set<Id> {
    set i | 0 <= i < |rows| :: rows[i].id
  }

  lemma {:induction false} DistinctFit(ids: seq<Id>, universe: set<Id>)
    requires NoRepeats(ids) && forall x :: x in ids ==> x in universe
    ensures |ids| <= |universe|
  {
    if ids != [] {
      var init, last := ids[..|ids| - 1], ids[|ids| - 1];
      assert forall x :: x in init ==> x in ids && x != last;
      DistinctFit(init, universe - {last});
    }
  }

  /** Expanding one more listed id keeps the search going. */
  lemma {:induction false} Expanded(
    rows: seq<Row>, root: Id, ids: seq<Id>, ids': seq<Id>, done: nat, level: nat, depth: nat)
    requires Searching(rows, root, ids, done, level, depth) && done < level
    requires ids <= ids' && (forall x :: x in ids' <==> x in ids || IsChild(rows, ids[done], x))
    requires forall i :: |ids| <= i < |ids'| ==> IsChild(rows, ids[done], ids'[i])
    requires NoRepeats(ids')
    ensures Searching(rows, root, ids', done + 1, level, depth)
  {
    assert ids'[..level] == ids[..level];
    assert ids[..level][done] == ids[done];
    forall i | level <= i < |ids'|
      ensures Within(rows, root, ids'[i], depth + 1) && !Within(rows, root, ids'[i], depth)
    {
      if i >= |ids| {
        WithinChild(rows, root, ids[done], ids'[i], depth);
        assert ids'[i] !in ids'[..level] by {
          forall k | 0 <= k < level
            ensures ids'[..level][k] != ids'[i]
          {
            assert ids'[k] != ids'[i];
          }
        }
      } else {
        assert ids'[i] == ids[i];
      }
    }
    forall i, c | 0 <= i < done + 1 && IsChild(rows, ids'[i], c)
      ensures c in ids'
    {
      assert ids'[i] == ids[i];
    }
  }

  lemma {:induction false} SearchStarts(rows: seq<Row>, root: Id)
    ensures Searching(rows, root, [root], 0, 1, 0)
    ensures NoRepeats([root]) && NearestFirst(rows, root, [root])
  {
    WithinRoot(rows, root);
    assert [root][..1] == [root];
  }

  lemma {:induction false} SearchEnds(rows: seq<Row>, root: Id, ids: seq<Id>, level: nat, depth: nat)
    requires Searching(rows, root, ids, |ids|, level, depth)
    ensures forall x :: x in ids <==> Reachable(rows, root, x)
  {
    assert ids[..level] == ids;
    forall x
      ensures x in ids <==> Reachable(rows, root, x)
    {
      if x in ids {
        assert Within(rows, root, x, depth);
      }
      if Reachable(rows, root, x) {
        var n :| Within(rows, root, x, n);
        SearchComplete(rows, root, ids, depth, x, n);
      }
    }
  }

  /**
   * The session followed by its descendants: exactly the ids reachable from it, each once, nearest
   * first. The listing ends whatever the parent relation looks like.
   */
  method ListDescendantIds(rows: seq<Row>, root: Id) returns (ids: seq<Id>)
    ensures ids != [] && ids[0] == root
    ensures forall x :: x in ids <==> Reachable(rows, root, x)
    ensures NoRepeats(ids)
    ensures NearestFirst(rows, root, ids)
  {
    hide Searching, NearestFirst, NoRepeats, Reachable, IsChild, Ids;
    ids := [root];
    var queue, seen := [root], {root};
    ghost var universe := Ids(rows) + {root};
    ghost var done, level, depth := 0, 1, 0;
    SearchStarts(rows, root);
    assert ids[..level] == ids;
    while queue != []
      invariant ids != [] && ids[0] == root
      invariant NoRepeats(ids) && forall x :: x in seen <==> x in ids
      invariant forall x :: x in ids ==> x in universe
      invariant done + |queue| == |ids| && queue == ids[done..]
      invariant done <= level <= |ids|
      invariant Searching(rows, root, ids, done, level, depth)
      invariant NearestFirst(rows, root, ids[..level])
      invariant |ids| <= |universe|
      decreases |universe| - done
    {
      if done == level {
        LevelsAreOrdered(rows, root, ids, done, level, depth);
        NextLevel(rows, root, ids, level, depth);
        level, depth := |ids|, depth + 1;
        assert ids[..level] == ids;
      }
      var current := queue[0];
      ghost var before := ids;
      var children := ChildrenOf(rows, current);
      ChildrenOfMembers(rows, current);
      ids, seen, queue := Discover(children, ids, seen, queue[1..]);
      ChildIds(rows, current);
      Expanded(rows, root, before, ids, done, level, depth);
      assert ids[..level] == before[..level];
      DistinctFit(ids, universe);
      done := done + 1;
    }
    LevelsAreOrdered(rows, root, ids, done, level, depth);
    SearchEnds(rows, root, ids, level, depth);
  }

  lemma {:induction false} ChildIds(rows: seq<Row>, parent: Id)
    ensures forall c :: IsChild(rows, parent, c) ==> c in Ids(rows)
  {
    forall c | IsChild(rows, parent, c)
      ensures c in Ids(rows)
    {
      var i :| 0 <= i < |rows| && rows[i] == Row(c, Some(parent));
      assert rows[i].id in Ids(rows);
    }
  }
}
