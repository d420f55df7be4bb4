/** The calls about labels keep the invariant, and log what changed. */
module LabelSteps {
  import opened Ids
  import opened Updates
  import opened Locations
  import opened LabelForest
  import opened Records
  import opened Attachments
  import opened Operations
  import opened Views
  import opened Invariants
  import opened Steps

  /** Everything but logs, settings and the label `id` of `u` is the same. */
  ghost predicate OnlyLabel(s: State, t: State, u: Id, id: Id) {
    && t.messages == s.messages && t.attachments == s.attachments && t.attData == s.attData
    && t.labels - {id} == s.labels - {id}
    && s.nextUuid <= t.nextUuid && t.accounts.Keys == s.accounts.Keys
    && forall w | w in s.accounts ::
      && t.accounts[w].messageIDs == s.accounts[w].messageIDs && t.accounts[w].addresses == s.accounts[w].addresses
      && (w != u ==> t.accounts[w].labelIDs == s.accounts[w].labelIDs)
  }

  /** What an update about `id` says is so. */
  ghost predicate LabelMatches(s: State, t: State, u: Id, id: Id, update: Update)
    requires u in s.accounts && u in t.accounts
  {
    var before, after := s.accounts[u].labelIDs, t.accounts[u].labelIDs;
    Mentions(update, LabelKey(id)) &&
    match update
    case Deleted(_) => id in before && id !in t.labels && after == Without(before, id)
    case Updated(_) => id in before && id in t.labels && after == before
    case _ => !Old(s, id) && Old(t, id) && id in t.labels && after == before + [id]
  }

  lemma SameExcept<V>(before: map<Id, V>, after: map<Id, V>, id: Id)
    requires before - {id} == after - {id}
    ensures forall x :: x != id ==> (x in before <==> x in after) && (x in before ==> after[x] == before[x])
  {
    forall x | x != id ensures (x in before <==> x in after) && (x in before ==> after[x] == before[x]) {
      assert x in before <==> x in before - {id};
      assert x in after <==> x in after - {id};
      assert x in before ==> before[x] == (before - {id})[x] == (after - {id})[x];
    }
  }

  lemma LabelView(s: State, t: State, u: Id, id: Id, update: Update)
    requires OnlyLabel(s, t, u, id) && u in s.accounts && LabelMatches(s, t, u, id, update)
    ensures forall w, k :: k != LabelKey(id) ==>
      (Live(t, w, k) <==> Live(s, w, k)) && (Present(t, w, k) <==> Present(s, w, k)) && SameView(s, t, w, k)
    ensures forall w :: w != u ==> (Live(t, w, LabelKey(id)) <==> Live(s, w, LabelKey(id)))
  {
    SameExcept(s.labels, t.labels, id);
    assert forall x | x != id :: x in t.accounts[u].labelIDs <==> x in s.accounts[u].labelIDs;
  }

  lemma LabelNoDup(s: State, t: State, u: Id, id: Id, update: Update)
    requires StoreOk(s) && u in s.accounts && u in t.accounts && LabelMatches(s, t, u, id, update)
    ensures NoDup(t.accounts[u].labelIDs)
  {
    hide AttachmentsOk;
    var before := s.accounts[u].labelIDs;
    WithoutNoDup(before, id);
    if update.Created? {
      assert Live(s, u, LabelKey(id)) ==> Present(s, u, LabelKey(id));
      NoDupConcat(before, [id]);
    }
  }

  lemma LabelOwnedOk(s: State, t: State, u: Id, id: Id, update: Update)
    requires StoreOk(s) && u in s.accounts && OnlyLabel(s, t, u, id) && LabelMatches(s, t, u, id, update)
    ensures OwnedOk(t)
  {
    LabelNoDup(s, t, u, id, update);
    LabelOwners(s, t, u, id, update);
    LabelIsPresent(s, t, u, id, update);
    LabelsHaveOwners(s, t, u, id, update);
    hide AttachmentsOk, SameView, LabelMatches, ObjectsOld;
    LabelView(s, t, u, id, update);
  }

  lemma LabelIsPresent(s: State, t: State, u: Id, id: Id, update: Update)
    requires u in s.accounts && OnlyLabel(s, t, u, id) && LabelMatches(s, t, u, id, update)
    ensures Live(t, u, LabelKey(id)) <==> !update.Deleted?
    ensures Live(t, u, LabelKey(id)) ==> Present(t, u, LabelKey(id))
    ensures id in t.labels <==> !update.Deleted?
  {}

  lemma LabelsHaveOwners(s: State, t: State, u: Id, id: Id, update: Update)
    requires StoreOk(s) && u in s.accounts && OnlyLabel(s, t, u, id) && LabelMatches(s, t, u, id, update)
    ensures forall x | x in t.labels :: exists w :: Live(t, w, LabelKey(x))
  {
    LabelIsPresent(s, t, u, id, update);
    LabelView(s, t, u, id, update);
    SameExcept(s.labels, t.labels, id);
    hide AttachmentsOk, SameView, LabelMatches, ObjectsOld, Live;
    forall x | x in t.labels ensures exists w :: Live(t, w, LabelKey(x)) {
      if x != id {
        var w :| Live(s, w, LabelKey(x));
        assert Live(t, w, LabelKey(x));
      }
    }
  }

  /** No other account has the label. */
  lemma LabelOwners(s: State, t: State, u: Id, id: Id, update: Update)
    requires StoreOk(s) && u in s.accounts && OnlyLabel(s, t, u, id) && LabelMatches(s, t, u, id, update)
    ensures forall w :: w != u ==> !Live(s, w, LabelKey(id)) && !Live(t, w, LabelKey(id))
  {
    hide AttachmentsOk;
    assert update.Created? || Live(s, u, LabelKey(id));
    forall w | w != u ensures !Live(s, w, LabelKey(id)) && !Live(t, w, LabelKey(id)) {
      assert Live(s, w, LabelKey(id)) ==> Present(s, w, LabelKey(id));
      assert Live(t, w, LabelKey(id)) ==> Live(s, w, LabelKey(id));
    }
  }

  lemma LabelStoreOk(s: State, t: State, u: Id, id: Id, update: Update)
    requires StoreOk(s) && u in s.accounts && OnlyLabel(s, t, u, id) && LabelMatches(s, t, u, id, update)
    ensures StoreOk(t)
  {
    hide OwnedOk, ObjectsOld, AttachmentsOk, OnlyLabel;
    LabelOwnedOk(s, t, u, id, update);
    LabelObjectsOld(s, t, u, id, update);
    assert t.messages == s.messages && t.attachments == s.attachments && t.attData == s.attData by {
      OnlyLabelMail(s, t, u, id);
    }
  }

  lemma OnlyLabelMail(s: State, t: State, u: Id, id: Id)
    requires OnlyLabel(s, t, u, id)
    ensures t.messages == s.messages && t.attachments == s.attachments && t.attData == s.attData
  {}

  lemma LabelObjectsOld(s: State, t: State, u: Id, id: Id, update: Update)
    requires StoreOk(s) && u in s.accounts && OnlyLabel(s, t, u, id) && LabelMatches(s, t, u, id, update)
    ensures ObjectsOld(t)
  {
    hide OwnedOk, AttachmentsOk, SameView;
    OwnLabelIsOld(s, t, u, id, update);
    LabelView(s, t, u, id, update);
    SameExcept(s.labels, t.labels, id);
  }

  lemma OwnLabelIsOld(s: State, t: State, u: Id, id: Id, update: Update)
    requires StoreOk(s) && u in s.accounts && OnlyLabel(s, t, u, id) && LabelMatches(s, t, u, id, update)
    ensures Old(t, id)
  {
    hide AttachmentsOk;
    assert Live(s, u, LabelKey(id)) ==> Present(s, u, LabelKey(id));
  }

  lemma LabelOnlyChanges(s: State, t: State, u: Id, id: Id, update: Update)
    requires StoreOk(s) && u in s.accounts && OnlyLabel(s, t, u, id) && LabelMatches(s, t, u, id, update)
    ensures OnlyChanges(s, t, u, update)
  {
    hide StoreOk, SameView;
    LabelView(s, t, u, id, update);
    LabelOwners(s, t, u, id, update);
    forall w | w != u ensures SameView(s, t, w, LabelKey(id)) {
      assert SameView(s, t, w, LabelKey(id)) by { UnownedSameView(s, t, w, LabelKey(id)); }
    }
    assert !update.Created? ==> Live(s, u, LabelKey(id));
    LabelPresent(s, t, u, id, update);
  }

  lemma LabelPresent(s: State, t: State, u: Id, id: Id, update: Update)
    requires StoreOk(s) && u in s.accounts && OnlyLabel(s, t, u, id) && LabelMatches(s, t, u, id, update)
    ensures forall w | w in s.accounts :: Present(t, w, LabelKey(id)) && !Present(s, w, LabelKey(id)) ==> !Old(s, id)
  {
    hide AttachmentsOk;
    assert Live(s, u, LabelKey(id)) ==> Present(s, u, LabelKey(id));
  }

  lemma LabelUpdateKeeps(s: State, t: State, u: Id, id: Id, update: Update)
    requires Core(s) && Logs(s, t, u, update) && SettingsFollow(s, t, u, update)
    requires OnlyLabel(s, t, u, id) && LabelMatches(s, t, u, id, update)
    ensures Kept(s, t)
  {
    hide Core, Kept, StoreOk, SettingsFollow, OnlyChanges, ThreadsOk;
    CoreIsStoreOk(s);
    SameThreads(s, t);
    LabelStoreOk(s, t, u, id, update);
    LabelOnlyChanges(s, t, u, id, update);
    LoggedKeeps(s, t, u, update);
  }

  // ---------------------------------------------------------------------
  // The calls

  /** A label call logs `update` and leaves these labels and this list. */
  function WithLabels(s: State, u: Id, labels: Labels, labelIDs: seq<Id>, n: nat, update: Update): State
    requires u in s.accounts
  {
    var t := Log(s.(labels := labels, nextUuid := n), u, update);
    WithAccount(t, u, t.accounts[u].(labelIDs := labelIDs))
  }

  lemma WithLabelsLogs(s: State, u: Id, id: Id, labels: Labels, labelIDs: seq<Id>, n: nat, update: Update)
    requires u in s.accounts && labels - {id} == s.labels - {id} && s.nextUuid <= n && !update.SettingsUpdated?
    ensures var t := WithLabels(s, u, labels, labelIDs, n, update);
      Logs(s, t, u, update) && SettingsFollow(s, t, u, update) && OnlyLabel(s, t, u, id)
  {}

  lemma LabelChangeKeeps(s: State, u: Id, id: Id, labels: Labels, labelIDs: seq<Id>, n: nat, update: Update)
    requires Core(s) && u in s.accounts && labels - {id} == s.labels - {id} && s.nextUuid <= n
    requires Mentions(update, LabelKey(id))
    requires match update
      case Deleted(_) => id in s.accounts[u].labelIDs && id !in labels && labelIDs == Without(s.accounts[u].labelIDs, id)
      case Updated(_) => id in s.accounts[u].labelIDs && id in labels && labelIDs == s.accounts[u].labelIDs
      case _ => id == Uuid(s.nextUuid) && s.nextUuid < n && id in labels && labelIDs == s.accounts[u].labelIDs + [id]
    ensures Kept(s, WithLabels(s, u, labels, labelIDs, n, update))
  {
    hide Core, Kept, Logs, SettingsFollow, OnlyLabel;
    WithLabelsLogs(s, u, id, labels, labelIDs, n, update);
    LabelUpdateKeeps(s, WithLabels(s, u, labels, labelIDs, n, update), u, id, update);
  }

  lemma NewLabelKeeps(s: State, u: Id, l: Label)
    requires Core(s) && u in s.accounts
    ensures var id := Uuid(s.nextUuid);
      Kept(s, WithLabels(s, u, s.labels[id := l], s.accounts[u].labelIDs + [id], s.nextUuid + 1, Created(LabelKey(id))))
  {
    hide Core, Kept, WithLabels;
    var id := Uuid(s.nextUuid);
    WithoutNewKey(s.labels, id, l);
    LabelChangeKeeps(s, u, id, s.labels[id := l], s.accounts[u].labelIDs + [id], s.nextUuid + 1, Created(LabelKey(id)));
  }

  lemma CreateLabelIs(s: State, u: Id, name: string, parent: Id, labelType: LabelType)
    requires u in s.accounts && ParentAllowed(s, parent, labelType)
    ensures var id, l := Uuid(s.nextUuid), Label(name, parent, labelType);
      CreateLabel(s, u, name, parent, labelType).state
      == WithLabels(s, u, s.labels[id := l], s.accounts[u].labelIDs + [id], s.nextUuid + 1, Created(LabelKey(id)))
  {}

  lemma CreateLabelKeeps(s: State, u: Id, name: string, parent: Id, labelType: LabelType)
    requires Core(s)
    ensures Kept(s, CreateLabel(s, u, name, parent, labelType).state)
  {
    hide Core, Kept, Log, WithLabels;
    if u in s.accounts && ParentAllowed(s, parent, labelType) {
      var id, l := Uuid(s.nextUuid), Label(name, parent, labelType);
      NewLabelKeeps(s, u, l);
      CreateLabelIs(s, u, name, parent, labelType);
    } else {
      NothingKeeps(s);
    }
  }

  lemma ChangeLabelKeeps(s: State, u: Id, id: Id, l: Label)
    requires Core(s) && Live(s, u, LabelKey(id))
    ensures Kept(s, Log(s.(labels := s.labels[id := l]), u, Updated(LabelKey(id))))
  {
    hide Core, Kept;
    WithoutNewKey(s.labels, id, l);
    LabelChangeKeeps(s, u, id, s.labels[id := l], s.accounts[u].labelIDs, s.nextUuid, Updated(LabelKey(id)));
    var t := Log(s.(labels := s.labels[id := l]), u, Updated(LabelKey(id)));
    assert t.accounts[u := t.accounts[u]] == t.accounts;
  }

  lemma UpdateLabelKeeps(s: State, u: Id, id: Id, name: string, parent: Id)
    requires Core(s) && (u in s.accounts ==> Live(s, u, LabelKey(id)) && id in s.labels)
    ensures Kept(s, UpdateLabel(s, u, id, name, parent).state)
  {
    hide Core, Kept, Log;
    if u in s.accounts && ParentAllowed(s, parent, s.labels[id].labelType) {
      ChangeLabelKeeps(s, u, id, s.labels[id].(name := name, parent := parent));
    } else {
      NothingKeeps(s);
    }
  }

  lemma DropLabelKeeps(s: State, u: Id, id: Id)
    requires Core(s) && Live(s, u, LabelKey(id))
    ensures Kept(s, DropLabel(s, u, id))
  {
    hide Core, Kept, Log;
    LabelChangeKeeps(s, u, id, s.labels - {id}, Without(s.accounts[u].labelIDs, id), s.nextUuid, Deleted(LabelKey(id)));
    LogKeepsLists(s.(labels := s.labels - {id}), u, Deleted(LabelKey(id)));
  }

  lemma DropLabelAccounts(s: State, u: Id, id: Id)
    requires u in s.accounts
    ensures DropLabel(s, u, id).accounts.Keys == s.accounts.Keys
  {}

  lemma DropLabelLive(s: State, u: Id, id: Id, other: Id)
    requires u in s.accounts && other != id && Live(s, u, LabelKey(other))
    ensures Live(DropLabel(s, u, id), u, LabelKey(other))
  {}

  lemma {:induction false} DropLabelsKeeps(s: State, u: Id, ids: seq<Id>)
    requires Core(s) && u in s.accounts && NoDup(ids) && forall id :: id in ids ==> Live(s, u, LabelKey(id))
    ensures Kept(s, DropLabels(s, u, ids))
    ensures DropLabels(s, u, ids).accounts.Keys == s.accounts.Keys
    decreases ids
  {
    hide Core, Kept, DropLabel, Live;
    NothingKeeps(s);
    if ids != [] {
      var t := DropLabel(s, u, ids[0]);
      DropLabelKeeps(s, u, ids[0]);
      KeptIsCore(s, t);
      assert ids[0] !in ids[1..];
      forall id | id in ids[1..] ensures Live(t, u, LabelKey(id)) {
        DropLabelLive(s, u, ids[0], id);
      }
      DropLabelAccounts(s, u, ids[0]);
      DropLabelsKeeps(t, u, ids[1..]);
      KeptComposes(s, t, DropLabels(t, u, ids[1..]));
    }
  }
}
