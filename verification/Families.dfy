/** Label calls keep the label forest, each family within one account
    (server/backend/api.go). */
module Families {
  import opened Ids
  import opened Updates
  import opened Locations
  import opened LabelForest
  import opened Records
  import opened Attachments
  import opened Operations
  import opened Views
  import opened Invariants
  import opened LabelSteps
  import opened MailSteps

  /** The labels are `labels` and the account's list `labelIDs`. */
  ghost predicate LabelsBecome(s: State, t: State, u: Id, labels: Labels, labelIDs: seq<Id>) {
    && t.labels == labels && t.accounts.Keys == s.accounts.Keys && u in s.accounts
    && forall w | w in s.accounts :: t.accounts[w].labelIDs == if w == u then labelIDs else s.accounts[w].labelIDs
  }

  lemma LabelsBecomeFamily(s: State, t: State, u: Id, labels: Labels, labelIDs: seq<Id>)
    requires FamilyOk(s) && LabelsBecome(s, t, u, labels, labelIDs) && Forest(labels)
    requires forall id | id in labelIDs && id in labels && labels[id].parent != NoId :: labels[id].parent in labelIDs
    requires forall w, id | w != u && Live(s, w, LabelKey(id)) && id in labels :: id in s.labels && labels[id] == s.labels[id]
    ensures FamilyOk(t)
  {
    hide Forest;
    forall w, id | Live(t, w, LabelKey(id)) ensures LabelParentOwned(t, w, id) {
      if w != u {
        assert Live(s, w, LabelKey(id));
        assert LabelParentOwned(s, w, id);
      }
    }
  }

  /** An account's label IDs and those of others. */
  lemma OwnLabels(s: State, u: Id)
    requires Inv(s) && u in s.accounts
    ensures forall id | id in s.accounts[u].labelIDs && id in s.labels && s.labels[id].parent != NoId ::
      s.labels[id].parent in s.accounts[u].labelIDs
    ensures forall w, id | w != u && Live(s, w, LabelKey(id)) :: id in s.labels && id !in s.accounts[u].labelIDs
    ensures forall id | Live(s, u, LabelKey(id)) :: id in s.labels
    ensures Uuid(s.nextUuid) !in s.labels
  {
    hide LogsOk, UpdatesOld, AttachmentsOk, EventsOk, SettingsOk, Forest;
    forall id | id in s.accounts[u].labelIDs ensures LabelParentOwned(s, u, id) && Present(s, u, LabelKey(id)) {
      assert Live(s, u, LabelKey(id));
    }
    forall w, id | w != u && Live(s, w, LabelKey(id)) ensures id in s.labels && id !in s.accounts[u].labelIDs {
      assert Present(s, w, LabelKey(id));
      assert id in s.accounts[u].labelIDs ==> Live(s, u, LabelKey(id));
    }
  }

  lemma WithLabelsBecome(s: State, u: Id, labels: Labels, labelIDs: seq<Id>, n: nat, update: Update)
    requires u in s.accounts
    ensures LabelsBecome(s, WithLabels(s, u, labels, labelIDs, n, update), u, labels, labelIDs)
  {}

  lemma SameFamilies(s: State, t: State)
    requires FamilyOk(s) && t.labels == s.labels && t.accounts.Keys == s.accounts.Keys
    requires forall w | w in t.accounts :: t.accounts[w].labelIDs == s.accounts[w].labelIDs
    ensures FamilyOk(t)
  {
    hide Forest;
    forall w, id | Live(t, w, LabelKey(id)) ensures LabelParentOwned(t, w, id) {
      assert Live(s, w, LabelKey(id));
      assert LabelParentOwned(s, w, id);
    }
  }

  lemma NewLabelFamily(s: State, u: Id, l: Label)
    requires Inv(s) && u in s.accounts && (l.parent != NoId ==> Live(s, u, LabelKey(l.parent)))
    ensures var id := Uuid(s.nextUuid);
      FamilyOk(WithLabels(s, u, s.labels[id := l], s.accounts[u].labelIDs + [id], s.nextUuid + 1, Created(LabelKey(id))))
  {
    hide Core, FamilyOk, WithLabels, Forest;
    InvParts(s);
    OwnLabels(s, u);
    var id := Uuid(s.nextUuid);
    var labels, labelIDs := s.labels[id := l], s.accounts[u].labelIDs + [id];
    CreateKeepsForest(s.labels, id, l);
    var t := WithLabels(s, u, labels, labelIDs, s.nextUuid + 1, Created(LabelKey(id)));
    WithLabelsBecome(s, u, labels, labelIDs, s.nextUuid + 1, Created(LabelKey(id)));
    LabelsBecomeFamily(s, t, u, labels, labelIDs);
  }

  lemma CreateLabelFamily(s: State, u: Id, name: string, parent: Id, labelType: LabelType)
    requires Inv(s) && (u in s.accounts && parent in s.labels ==> Live(s, u, LabelKey(parent)))
    ensures FamilyOk(CreateLabel(s, u, name, parent, labelType).state)
  {
    hide Core, FamilyOk, Log, WithLabels;
    InvParts(s);
    if u in s.accounts && ParentAllowed(s, parent, labelType) {
      var id, l := Uuid(s.nextUuid), Label(name, parent, labelType);
      NewLabelFamily(s, u, l);
      CreateLabelIs(s, u, name, parent, labelType);
    }
  }

  lemma InvParts(s: State)
    requires Inv(s)
    ensures Core(s) && FamilyOk(s) && Forest(s.labels) && NoId !in s.labels
  {}

  /** Moving a label keeps the families exactly when it is not moved below itself. */
  lemma UpdateLabelFamily(s: State, u: Id, id: Id, name: string, parent: Id)
    requires Inv(s) && Live(s, u, LabelKey(id)) && id in s.labels
    requires parent in s.labels ==> Live(s, u, LabelKey(parent))
    requires ParentAllowed(s, parent, s.labels[id].labelType)
    ensures FamilyOk(UpdateLabel(s, u, id, name, parent).state) <==> !Under(s.labels, parent, id)
  {
    hide Core, FamilyOk, Log;
    InvParts(s);
    var moved := s.labels[id].(name := name, parent := parent);
    var labels := s.labels[id := moved];
    var t := UpdateLabel(s, u, id, name, parent).state;
    UpdateKeepsForest(s.labels, id, moved);
    LogBecomes(s, u, labels, Updated(LabelKey(id)));
    if Forest(labels) {
      OwnLabels(s, u);
      LabelsBecomeFamily(s, t, u, labels, s.accounts[u].labelIDs);
    } else {
      BrokenForest(t);
    }
  }

  /** UpdateLabel ends by walking up from the label: that ends exactly when the
      label was not moved below itself. */
  lemma UpdateLabelWalkEnds(s: State, u: Id, id: Id, name: string, parent: Id)
    requires Inv(s) && u in s.accounts && id in s.labels && ParentAllowed(s, parent, s.labels[id].labelType)
    ensures var r := UpdateLabel(s, u, id, name, parent);
      r.ok && (WalkEnds(r.state.labels, id) <==> !Under(s.labels, parent, id))
  {
    hide Inv, Log, Under, Forest;
    InvParts(s);
    var moved := s.labels[id].(name := name, parent := parent);
    MovedWalkEnds(s.labels, id, moved);
    LogBecomes(s, u, s.labels[id := moved], Updated(LabelKey(id)));
  }

  /** A folder moved under itself is accepted, and the walk never ends. */
  lemma FolderUnderItself(s: State, u: Id, id: Id, name: string)
    requires Inv(s) && u in s.accounts && id in s.labels && s.labels[id].labelType.FolderType?
    ensures var r := UpdateLabel(s, u, id, name, id);
      r.ok && WalksForever(r.state.labels, id)
  {
    InvParts(s);
    assert Under(s.labels, id, id);
    hide Inv, Log, Under, Forest;
    var moved := s.labels[id].(name := name, parent := id);
    MovedWalkEnds(s.labels, id, moved);
    LogBecomes(s, u, s.labels[id := moved], Updated(LabelKey(id)));
  }

  lemma LogBecomes(s: State, u: Id, labels: Labels, update: Update)
    requires u in s.accounts
    ensures LabelsBecome(s, Log(s.(labels := labels), u, update), u, labels, s.accounts[u].labelIDs)
  {}

  lemma BrokenForest(t: State)
    requires !Forest(t.labels)
    ensures !FamilyOk(t)
  {}

  // ---------------------------------------------------------------------
  // Deletion

  lemma {:induction false} DropLabelsBecome(s: State, u: Id, ids: seq<Id>)
    requires u in s.accounts
    ensures var t := DropLabels(s, u, ids);
      u in t.accounts && LabelsBecome(s, t, u, s.labels - Elements(ids), t.accounts[u].labelIDs)
    ensures forall id :: id in DropLabels(s, u, ids).accounts[u].labelIDs <==> id in s.accounts[u].labelIDs && id !in ids
    decreases ids
  {
    if ids == [] {
      assert s.labels == s.labels - Elements(ids);
    } else {
      var t := DropLabel(s, u, ids[0]);
      DropLabelBecomes(s, u, ids[0]);
      hide DropLabel;
      DropLabelsBecome(t, u, ids[1..]);
      ElementsStep(s.labels, ids);
      var r := DropLabels(t, u, ids[1..]);
      BecomeComposes(s, t, r, u, t.labels, t.accounts[u].labelIDs, r.labels, r.accounts[u].labelIDs);
    }
  }

  lemma BecomeComposes(s: State, t: State, r: State, u: Id, labels: Labels, labelIDs: seq<Id>, labels': Labels, labelIDs': seq<Id>)
    requires LabelsBecome(s, t, u, labels, labelIDs) && LabelsBecome(t, r, u, labels', labelIDs')
    ensures LabelsBecome(s, r, u, labels', labelIDs')
  {}

  lemma ElementsStep(labels: Labels, ids: seq<Id>)
    requires ids != []
    ensures labels - {ids[0]} - Elements(ids[1..]) == labels - Elements(ids)
  {
    assert Elements(ids) == {ids[0]} + Elements(ids[1..]);
  }

  lemma DropLabelBecomes(s: State, u: Id, id: Id)
    requires u in s.accounts
    ensures LabelsBecome(s, DropLabel(s, u, id), u, s.labels - {id}, Without(s.accounts[u].labelIDs, id))
  {}

  /** A label's descendants belong to its owner. */
  lemma {:induction false} DescendantsOwned(s: State, rank: map<Id, nat>, u: Id, x: Id, root: Id)
    requires Inv(s) && RankOk(s.labels, rank) && Under(s.labels, x, root) && Live(s, u, LabelKey(root))
    ensures Live(s, u, LabelKey(x))
    decreases rank[x]
  {
    if x != root {
      DescendantsOwned(s, rank, u, s.labels[x].parent, root);
      LabelHasOwner(s, x);
      hide Core, FamilyOk;
      var w :| Live(s, w, LabelKey(x));
      ParentHasSameOwner(s, u, w, x);
    }
  }

  lemma LabelHasOwner(s: State, x: Id)
    requires Core(s) && x in s.labels
    ensures exists w :: Live(s, w, LabelKey(x))
  {}

  lemma ParentHasSameOwner(s: State, u: Id, w: Id, x: Id)
    requires Inv(s) && x in s.labels && Live(s, w, LabelKey(x)) && s.labels[x].parent in s.labels
    requires Live(s, u, LabelKey(s.labels[x].parent))
    ensures u == w
  {
    hide LogsOk, ObjectsOld, UpdatesOld, AttachmentsOk, EventsOk, SettingsOk;
    assert LabelParentOwned(s, w, x);
  }

  lemma SubtreeOwned(s: State, u: Id, root: Id, ids: seq<Id>)
    requires Inv(s) && IsSubtree(s.labels, root, ids) && Live(s, u, LabelKey(root))
    ensures forall x :: x in ids ==> Live(s, u, LabelKey(x))
  {
    var rank :| RankOk(s.labels, rank);
    forall x | x in ids ensures Live(s, u, LabelKey(x)) {
      DescendantsOwned(s, rank, u, x, root);
    }
  }

  lemma DropLabelsFamily(s: State, u: Id, root: Id, ids: seq<Id>)
    requires Inv(s) && IsSubtree(s.labels, root, ids) && Live(s, u, LabelKey(root))
    ensures FamilyOk(DropLabels(s, u, ids))
  {
    hide Core, FamilyOk, Forest;
    InvParts(s);
    SubtreeIsClosed(s.labels, root, ids);
    DeleteKeepsForest(s.labels, Elements(ids));
    DropLabelsBecome(s, u, ids);
    OwnLabels(s, u);
    var t := DropLabels(s, u, ids);
    LabelsBecomeFamily(s, t, u, s.labels - Elements(ids), t.accounts[u].labelIDs);
  }

  // ---------------------------------------------------------------------
  // Removing a user

  lemma RemoveUserFamily(s: State, t: State, u: Id)
    requires Inv(s) && Removed(s, t, u)
    ensures FamilyOk(t)
  {
    hide Core, ThreadsOk, Forest, KeepsMessage;
    InvParts(s);
    var gone := Elements(s.accounts[u].labelIDs);
    forall x | x in s.labels && s.labels[x].parent in gone ensures x in gone {
      LabelHasOwner(s, x);
      var w :| Live(s, w, LabelKey(x));
      assert LabelParentOwned(s, w, x);
      OwnLabels(s, u);
    }
    DeleteKeepsForest(s.labels, gone);
    forall w, id | Live(t, w, LabelKey(id)) ensures LabelParentOwned(t, w, id) {
      assert Live(s, w, LabelKey(id));
      assert LabelParentOwned(s, w, id);
      RemovedParent(s, t, u, w, id);
    }
  }

  lemma RemovedParent(s: State, t: State, u: Id, w: Id, id: Id)
    requires Removed(s, t, u) && Live(t, w, LabelKey(id)) && LabelParentOwned(s, w, id)
    ensures LabelParentOwned(t, w, id)
  {
    hide KeepsMessage;
  }
}
