/** The label forest: parent links, paths and recursive deletion
    (server/backend/label.go, and the label calls of server/backend/api.go). */
module LabelForest {
  import opened Ids
  import opened Locations

  type Labels = map<Id, Label>

  ghost predicate RankOk(labels: Labels, rank: map<Id, nat>) {
    && NoId !in labels && labels.Keys <= rank.Keys
    && forall id | id in labels && labels[id].parent != NoId ::
      labels[id].parent in labels && rank[labels[id].parent] < rank[id]
  }

  /** Every parent exists and parent chains are finite. */
  ghost predicate Forest(labels: Labels) {
    exists rank :: RankOk(labels, rank)
  }

  /** `x` is `root` or one of its descendants. */
  least predicate Under(labels: Labels, x: Id, root: Id) {
    x in labels && (x == root || Under(labels, labels[x].parent, root))
  }

  // ---------------------------------------------------------------------
  // Chains of parents

  lemma {:induction false} UnderRank(labels: Labels, rank: map<Id, nat>, x: Id, y: Id)
    requires RankOk(labels, rank) && Under(labels, x, y)
    ensures y in labels && (x == y || rank[y] < rank[x])
    decreases rank[x]
  {
    if x != y {
      UnderRank(labels, rank, labels[x].parent, y);
    }
  }

  lemma {:induction false} UnderTransitive(labels: Labels, rank: map<Id, nat>, x: Id, y: Id, z: Id)
    requires RankOk(labels, rank) && Under(labels, x, y) && Under(labels, y, z)
    ensures Under(labels, x, z)
    decreases rank[x]
  {
    if x != y {
      UnderTransitive(labels, rank, labels[x].parent, y, z);
    }
  }

  /** The ancestors of a label form a chain. */
  lemma {:induction false} UnderLinear(labels: Labels, rank: map<Id, nat>, x: Id, y: Id, z: Id)
    requires RankOk(labels, rank) && Under(labels, x, y) && Under(labels, x, z)
    ensures Under(labels, y, z) || Under(labels, z, y)
    decreases rank[x]
  {
    if x != y && x != z {
      UnderLinear(labels, rank, labels[x].parent, y, z);
    }
  }

  /** A proper descendant lies under exactly one child. */
  lemma {:induction false} UnderSomeChild(labels: Labels, rank: map<Id, nat>, x: Id, root: Id) returns (c: Id)
    requires RankOk(labels, rank) && Under(labels, x, root) && x != root
    ensures c in labels && labels[c].parent == root && Under(labels, x, c)
    decreases rank[x]
  {
    if labels[x].parent == root {
      c := x;
    } else {
      c := UnderSomeChild(labels, rank, labels[x].parent, root);
    }
  }

  lemma UnderOneChild(labels: Labels, rank: map<Id, nat>, x: Id, root: Id, c: Id, d: Id)
    requires RankOk(labels, rank) && root in labels && Under(labels, x, c) && Under(labels, x, d)
    requires c in labels && labels[c].parent == root && d in labels && labels[d].parent == root
    ensures c == d
  {
    UnderLinear(labels, rank, x, c, d);
    if c != d {
      var (low, high) := if Under(labels, c, d) then (c, d) else (d, c);
      UnderRank(labels, rank, root, high);
    }
  }

  lemma ChildIsUnder(labels: Labels, rank: map<Id, nat>, x: Id, c: Id, root: Id)
    requires RankOk(labels, rank) && root in labels && c in labels && labels[c].parent == root
    requires Under(labels, x, c)
    ensures Under(labels, x, root) && x != root
  {
    assert Under(labels, root, root) && Under(labels, c, root);
    UnderTransitive(labels, rank, x, c, root);
    UnderRank(labels, rank, x, c);
  }

  // ---------------------------------------------------------------------
  // toLabel

  function Path(labels: Labels, ghost rank: map<Id, nat>, id: Id): seq<string>
    requires RankOk(labels, rank) && (id == NoId || id in labels)
    decreases if id == NoId then 0 else rank[id] + 1
  {
    if id == NoId then [] else Path(labels, rank, labels[id].parent) + [labels[id].name]
  }

  /** Where the parent walk is after n rounds. */
  function Up(labels: Labels, id: Id, n: nat): Id {
    if n == 0 then id
    else
      var x := Up(labels, id, n - 1);
      if x in labels then labels[x].parent else x
  }

  /** The walk gets past the root. */
  ghost predicate WalkEnds(labels: Labels, id: Id) {
    exists n :: Up(labels, id, n) == NoId
  }

  /** Every round of the walk is at a label. */
  ghost predicate WalksForever(labels: Labels, id: Id) {
    NoId !in labels && forall n :: Up(labels, id, n) in labels
  }

  /** The parent walk on a forest: it ends, and prepends one name for each ancestor. */
  method ToLabel(labels: Labels, id: Id, ghost rank: map<Id, nat>) returns (path: seq<string>)
    requires RankOk(labels, rank) && id in labels
    ensures path == Path(labels, rank, labels[id].parent) + [labels[id].name] && WalkEnds(labels, id)
  {
    path := [];
    var labelID := id;
    ghost var rounds := 0;
    while labelID != NoId
      invariant labelID == NoId || labelID in labels
      invariant labelID == Up(labels, id, rounds)
      invariant Path(labels, rank, id) == Path(labels, rank, labelID) + path
      decreases if labelID == NoId then 0 else rank[labelID] + 1
    {
      path := [labels[labelID].name] + path;
      labelID := labels[labelID].parent;
      rounds := rounds + 1;
    }
  }

  // ---------------------------------------------------------------------
  // getLabelIDsToDelete

  /** The label and all its descendants, each once. */
  ghost predicate IsSubtree(labels: Labels, root: Id, ids: seq<Id>) {
    NoDup(ids) && forall x :: x in ids <==> Under(labels, x, root)
  }

  /** The children visited so far contribute exactly their own subtrees. */
  ghost predicate Gathered(labels: Labels, root: Id, seen: set<Id>, ids: seq<Id>) {
    && NoDup(ids)
    && (forall x :: x in ids ==> Under(labels, x, root))
    && (forall x :: x in ids <==> x == root || UnderChildIn(labels, root, seen, x))
  }

  ghost predicate UnderChildIn(labels: Labels, root: Id, seen: set<Id>, x: Id) {
    exists c :: c in seen && c in labels && labels[c].parent == root && Under(labels, x, c)
  }

  lemma GatherChild(labels: Labels, rank: map<Id, nat>, root: Id, seen: set<Id>, ids: seq<Id>, c: Id, sub: seq<Id>)
    requires RankOk(labels, rank) && root in labels && Gathered(labels, root, seen, ids)
    requires c in labels && c !in seen && labels[c].parent == root && IsSubtree(labels, c, sub)
    ensures Gathered(labels, root, seen + {c}, ids + sub)
  {
    forall x | x in sub ensures Under(labels, x, root) && x !in ids {
      ChildIsUnder(labels, rank, x, c, root);
      if x in ids {
        var d :| d in seen && d in labels && labels[d].parent == root && Under(labels, x, d);
        UnderOneChild(labels, rank, x, root, c, d);
      }
    }
    NoDupConcat(ids, sub);
    forall x ensures x in ids + sub <==> x == root || UnderChildIn(labels, root, seen + {c}, x) {
      assert UnderChildIn(labels, root, seen + {c}, x) <==> UnderChildIn(labels, root, seen, x) || Under(labels, x, c);
    }
  }

  lemma AllGathered(labels: Labels, rank: map<Id, nat>, root: Id, ids: seq<Id>)
    requires RankOk(labels, rank) && root in labels && Gathered(labels, root, labels.Keys, ids)
    ensures IsSubtree(labels, root, ids)
  {
    forall x | Under(labels, x, root) ensures x in ids {
      if x != root {
        var c := UnderSomeChild(labels, rank, x, root);
        assert UnderChildIn(labels, root, labels.Keys, x);
      }
    }
  }

  /** A bound above the rank of every label. */
  ghost function RankBound(ids: set<Id>, rank: map<Id, nat>): (bound: nat)
    requires ids <= rank.Keys
    ensures forall id :: id in ids ==> rank[id] < bound
  {
    if ids == {} then 0
    else
      var id :| id in ids;
      var bound := RankBound(ids - {id}, rank);
      if rank[id] < bound then bound else rank[id] + 1
  }

  /** Terminates and finds the whole subtree, whatever the order the map is
      iterated in. `bound` is above every rank. */
  method GetLabelIDsToDelete(root: Id, labels: Labels, ghost rank: map<Id, nat>, ghost bound: nat) returns (ids: seq<Id>)
    requires RankOk(labels, rank) && root in labels
    requires forall id :: id in labels ==> rank[id] < bound
    ensures IsSubtree(labels, root, ids)
    decreases bound - rank[root]
  {
    ids := [root];
    var todo := labels.Keys;
    ghost var seen: set<Id> := {};
    assert Gathered(labels, root, seen, ids) by {
      assert Under(labels, root, root);
    }
    while todo != {}
      invariant seen == labels.Keys - todo && todo <= labels.Keys
      invariant Gathered(labels, root, seen, ids)
      decreases todo
    {
      var c :| c in todo;
      todo := todo - {c};
      if labels[c].parent == root {
        var sub := GetLabelIDsToDelete(c, labels, rank, bound);
        GatherChild(labels, rank, root, seen, ids, c, sub);
        ids := ids + sub;
      } else {
        assert forall x :: UnderChildIn(labels, root, seen + {c}, x) <==> UnderChildIn(labels, root, seen, x);
      }
      seen := seen + {c};
    }
    assert seen == labels.Keys;
    AllGathered(labels, rank, root, ids);
  }

  // ---------------------------------------------------------------------
  // The forest is kept

  lemma CreateKeepsForest(labels: Labels, id: Id, l: Label)
    requires Forest(labels) && id !in labels && id != NoId
    requires l.parent == NoId || l.parent in labels
    ensures Forest(labels[id := l])
  {
    var rank :| RankOk(labels, rank);
    var depth := if l.parent == NoId then 0 else rank[l.parent] + 1;
    assert RankOk(labels[id := l], rank[id := depth]);
  }

  lemma DeleteKeepsForest(labels: Labels, gone: set<Id>)
    requires Forest(labels)
    requires forall x :: x in labels && labels[x].parent in gone ==> x in gone
    ensures Forest(labels - gone)
  {
    var rank :| RankOk(labels, rank);
    assert RankOk(labels - gone, rank);
  }

  /** A subtree is closed under children, so deleting it orphans nobody. */
  lemma SubtreeIsClosed(labels: Labels, root: Id, ids: seq<Id>)
    requires IsSubtree(labels, root, ids)
    ensures forall x :: x in labels && labels[x].parent in ids ==> x in ids
  {
    forall x | x in labels && labels[x].parent in ids ensures x in ids {
      assert Under(labels, labels[x].parent, root);
    }
  }

  /** Moving a label keeps the forest exactly when the new parent is neither
      the label itself nor one of its descendants - which the server does not check. */
  lemma UpdateKeepsForest(labels: Labels, id: Id, moved: Label)
    requires Forest(labels) && id in labels
    requires moved.parent == NoId || moved.parent in labels
    ensures Forest(labels[id := moved]) <==> !Under(labels, moved.parent, id)
  {
    var rank :| RankOk(labels, rank);
    var labels' := labels[id := moved];
    if Under(labels, moved.parent, id) {
      if rank' :| RankOk(labels', rank') {
        UnderSurvivesMove(labels, rank, id, moved, moved.parent);
        UnderRank(labels', rank', moved.parent, id);
        assert false;
      }
    } else {
      var shift := if moved.parent == NoId then 0 else rank[moved.parent] + 1;
      var rank' := map x | x in labels :: if Under(labels, x, id) then rank[x] + shift else rank[x];
      forall x | x in labels' && labels'[x].parent != NoId
        ensures labels'[x].parent in labels' && rank'[labels'[x].parent] < rank'[x]
      {
        if x == id {
          assert Under(labels, id, id);
        } else {
          assert Under(labels, x, id) <==> Under(labels, labels[x].parent, id);
        }
      }
      assert RankOk(labels', rank');
    }
  }

  /** The chain from a descendant up to the moved label does not use its parent link. */
  lemma {:induction false} UnderSurvivesMove(labels: Labels, rank: map<Id, nat>, id: Id, moved: Label, x: Id)
    requires RankOk(labels, rank) && id in labels && Under(labels, x, id)
    ensures Under(labels[id := moved], x, id)
    decreases rank[x]
  {
    if x != id {
      UnderSurvivesMove(labels, rank, id, moved, labels[x].parent);
    }
  }

  /** On a forest the walk from any label ends. */
  lemma {:induction false} ForestWalkEnds(labels: Labels, rank: map<Id, nat>, id: Id)
    requires RankOk(labels, rank) && id in labels
    ensures WalkEnds(labels, id)
    decreases rank[id]
  {
    var parent := labels[id].parent;
    if parent == NoId {
      assert Up(labels, id, 1) == Up(labels, id, 0 + 1) == NoId;
    } else {
      ForestWalkEnds(labels, rank, parent);
      var n :| Up(labels, parent, n) == NoId;
      UpFromParent(labels, id, n);
    }
  }

  lemma {:induction false} UpFromParent(labels: Labels, id: Id, n: nat)
    requires id in labels
    ensures Up(labels, id, n + 1) == Up(labels, labels[id].parent, n)
  {
    if n > 0 {
      UpFromParent(labels, id, n - 1);
    } else {
      assert Up(labels, id, 0) == id;
    }
  }

  /** A label that has itself above it is never left: each round of the walk
      ends on a label below it. */
  lemma {:induction false} WalkStaysBelow(labels: Labels, rank: map<Id, nat>, id: Id, moved: Label, n: nat)
    requires RankOk(labels, rank) && id in labels && Under(labels, moved.parent, id)
    ensures Under(labels, Up(labels[id := moved], id, n), id)
  {
    if n == 0 {
      assert Under(labels, id, id);
    } else {
      WalkStaysBelow(labels, rank, id, moved, n - 1);
    }
  }

  /** After a move the parent walk from the moved label ends if and only if the
      new parent is not the label or below it, and otherwise it never ends. */
  lemma MovedWalkEnds(labels: Labels, id: Id, moved: Label)
    requires Forest(labels) && id in labels
    requires moved.parent == NoId || moved.parent in labels
    ensures WalkEnds(labels[id := moved], id) <==> !Under(labels, moved.parent, id)
    ensures WalksForever(labels[id := moved], id) <==> Under(labels, moved.parent, id)
  {
    var rank :| RankOk(labels, rank);
    var labels' := labels[id := moved];
    if Under(labels, moved.parent, id) {
      forall n ensures Up(labels', id, n) in labels' {
        WalkStaysBelow(labels, rank, id, moved, n);
      }
    } else {
      UpdateKeepsForest(labels, id, moved);
      var rank' :| RankOk(labels', rank');
      ForestWalkEnds(labels', rank', id);
    }
  }
}
