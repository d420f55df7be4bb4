/** What messages' label lists hold over whole runs, and what deleting a label
    leaves in them (server/backend/message.go, server/backend/api.go). */
module Filings {
  import opened Ids
  import opened Updates
  import opened Locations
  import opened LabelForest
  import opened Records
  import opened Attachments
  import opened Operations
  import opened Views
  import opened Invariants
  import opened Steps
  import opened MailSteps
  import opened SendSteps
  import opened Families
  import opened Runs

  /** Nothing twice, at most one location, and only labels made before. */
  ghost predicate FilingOk(s: State, f: Filing) {
    Neat(f, s.labels) && forall l | l in f.labelIDs :: Old(s, l)
  }

  ghost predicate FilingsOk(s: State) {
    forall id {:trigger s.messages[id]} | id in s.messages :: FilingOk(s, s.messages[id].filing)
  }

  ghost predicate Carries(s: State, m: Id, l: Id) { m in s.messages && l in s.messages[m].filing.labelIDs }

  /** Every label a stored message carries exists. */
  ghost predicate LabelsLive(s: State) {
    forall m, l {:trigger Carries(s, m, l)} | Carries(s, m, l) :: l in s.labels
  }

  // ---------------------------------------------------------------------
  // What one call does to the label lists

  /** The list stays neat and gains existing labels only. */
  ghost predicate Refiled(f: Filing, g: Filing, labels: Labels) {
    && (Neat(f, labels) ==> Neat(g, labels))
    && forall l | l in g.labelIDs :: l in f.labelIDs || l in labels
  }

  ghost predicate NewlyFiled(g: Filing, labels: Labels) { Neat(g, labels) && AllLive(g, labels) }

  ghost predicate Follows(s: State, t: State, id: Id) {
    id in t.messages ==>
      if id in s.messages then Refiled(s.messages[id].filing, t.messages[id].filing, s.labels)
      else NewlyFiled(t.messages[id].filing, s.labels)
  }

  ghost predicate FilingsFollow(s: State, t: State) {
    s.nextUuid <= t.nextUuid && forall id {:trigger Follows(s, t, id)} :: Follows(s, t, id)
  }

  lemma SameFollows(s: State, t: State)
    requires s.nextUuid <= t.nextUuid
    requires forall id | id in t.messages :: id in s.messages && t.messages[id].filing == s.messages[id].filing
    ensures FilingsFollow(s, t)
  {
    hide Neat;
  }

  lemma FollowsComposes(a: State, b: State, c: State)
    requires FilingsFollow(a, b) && FilingsFollow(b, c) && a.labels == b.labels
    ensures FilingsFollow(a, c)
  {
    hide Neat;
    forall id ensures Follows(a, c, id) {
      assert Follows(a, b, id) && Follows(b, c, id);
    }
  }

  /** One message is filed anew. */
  lemma StoreFollows(s: State, t: State, id: Id, msg: Message)
    requires t.messages == s.messages[id := msg] && s.nextUuid <= t.nextUuid
    requires if id in s.messages then Refiled(s.messages[id].filing, msg.filing, s.labels) else NewlyFiled(msg.filing, s.labels)
    ensures FilingsFollow(s, t)
  {
    hide Neat;
  }

  lemma NoLabelsIsNew(f: Filing, labels: Labels)
    requires f.labelIDs == [] && (f.sysLabel.Some? ==> f.sysLabel.value == NoId)
    ensures NewlyFiled(f, labels)
  {}

  lemma AddFollows(s: State, u: Id, msg: Message)
    requires u in s.accounts && NewlyFiled(msg.filing, s.labels)
    ensures FilingsFollow(s, AddMessage(s, u, msg))
  {
    hide Neat;
    StoreFollows(s, AddMessage(s, u, msg), Uuid(s.nextUuid), msg);
  }

  lemma FiledFollows(f: Filing, id: Id, labels: Labels)
    requires UserLabels(labels) && AddIsSafe(f, id, labels)
    ensures Refiled(f, Filed(f, id, labels), labels)
  {
    if Neat(f, labels) {
      AddRefines(f, id, labels);
    }
    hide Neat;
  }

  lemma EditFollows(m: Message, e: Edit, labels: Labels)
    requires UserLabels(labels) && (e.Put? ==> AddIsSafe(m.filing, e.labelID, labels))
    ensures Refiled(m.filing, EditMessage(m, e, labels).filing, labels)
  {
    hide Neat, Filed;
    if e.Put? {
      FiledFollows(m.filing, e.labelID, labels);
    }
    if e.Take? && Neat(m.filing, labels) {
      RemKeepsNeat(m.filing, e.labelID, labels);
    }
  }

  lemma {:induction false} EditAllFollows(s: State, u: Id, e: Edit, ids: seq<Id>)
    requires UserLabels(s.labels) && u in s.accounts && EditIsSafe(s, e, ids)
    ensures FilingsFollow(s, EditAll(s, u, e, ids))
    decreases ids
  {
    hide EditMessage, FilingsFollow, Refiled, UserLabels;
    if ids == [] {
      SameFollows(s, s);
    } else {
      assert ids[0] in ids && forall id :: id in ids[1..] ==> id in ids;
      if ids[0] in s.messages {
        EditSafeAfter(s, u, e, ids);
        var msg := EditMessage(s.messages[ids[0]], e, s.labels);
        var t := TouchMessage(s, u, ids[0], msg);
        TouchSameLabels(s, u, ids[0], msg);
        EditFollows(s.messages[ids[0]], e, s.labels);
        StoreFollows(s, t, ids[0], msg);
        EditAllFollows(t, u, e, ids[1..]);
        FollowsComposes(s, t, EditAll(t, u, e, ids[1..]));
      } else {
        EditAllFollows(s, u, e, ids[1..]);
      }
    }
  }

  // ---------------------------------------------------------------------
  // Sending

  lemma {:induction false} CopiesKeepFiling(s: State, id: Id, ids: seq<Id>)
    requires id in s.messages && forall a :: a in ids ==> a in s.attachments
    ensures var t := CopyAttachments(s, id, ids);
      id in t.messages && t.messages[id].filing == s.messages[id].filing && s.nextUuid <= t.nextUuid
    decreases ids
  {
    if ids != [] {
      CopiesKeepFiling(CopyAttachment(s, id, ids[0]), id, ids[1..]);
    }
  }

  lemma StoreCopyFollows(s: State, id: Id, addrID: Id, body: string, n: nat)
    requires AttachmentsKnown(s, id) && n <= |s.messages[id].attIDs|
    ensures FilingsFollow(s, StoreCopy(s, id, addrID, body, n))
  {
    hide FilingsFollow, ReceivedFrom, CopyAttachments;
    var copy, msg := Uuid(s.nextUuid), ReceivedFrom(s.messages[id], addrID, body);
    var t := s.(messages := s.messages[copy := msg], nextUuid := s.nextUuid + 1);
    ReceivedFollows(s, t, copy, msg, s.messages[id], addrID, body);
    assert forall a :: a in s.messages[id].attIDs[..n] ==> a in s.messages[id].attIDs;
    CopiesFollow(t, copy, s.messages[id].attIDs[..n]);
    FollowsComposes(s, t, StoreCopy(s, id, addrID, body, n));
  }

  lemma ReceivedFollows(s: State, t: State, copy: Id, msg: Message, m: Message, addrID: Id, body: string)
    requires t.messages == s.messages[copy := msg] && s.nextUuid <= t.nextUuid && msg == ReceivedFrom(m, addrID, body)
    ensures FilingsFollow(s, t)
  {
    NoLabelsIsNew(msg.filing, s.labels);
    StoreFollows(s, t, copy, msg);
  }

  lemma CopiesFollow(s: State, id: Id, ids: seq<Id>)
    requires id in s.messages && forall a :: a in ids ==> a in s.attachments
    ensures FilingsFollow(s, CopyAttachments(s, id, ids))
  {
    hide FilingsFollow;
    CopiesKeepFiling(s, id, ids);
    SameFollows(s, CopyAttachments(s, id, ids));
  }

  lemma ResortFollows(s: State, id: Id)
    requires AttachmentsKnown(s, id)
    ensures FilingsFollow(s, Resort(s, id)) && Resort(s, id).labels == s.labels
  {
    hide SortAttachments, FilingsFollow;
    SameFollows(s, Resort(s, id));
  }

  lemma ResortKeepsKnown(s: State, id: Id, other: Id)
    requires AttachmentsKnown(s, id) && AttachmentsKnown(s, other)
    ensures AttachmentsKnown(Resort(s, id), other)
  {
    hide SortAttachments;
  }

  lemma DeliveredFollows(s: State, id: Id, addrID: Id, body: string)
    requires AttachmentsKnown(s, id)
    ensures FilingsFollow(s, Delivered(s, id, addrID, body))
  {
    hide FilingsFollow, StoreCopy, Resort;
    var n := |s.messages[id].attIDs|;
    var t := StoreCopy(s, id, addrID, body, n);
    StoreCopyFollows(s, id, addrID, body, n);
    StoreCopySameLabels(s, id, addrID, body, n);
    ResortFollows(t, Uuid(s.nextUuid));
    FollowsComposes(s, t, Resort(t, Uuid(s.nextUuid)));
    ResortKeepsKnown(t, Uuid(s.nextUuid), id);
    ResortFollows(Resort(t, Uuid(s.nextUuid)), id);
    FollowsComposes(s, Resort(t, Uuid(s.nextUuid)), Delivered(s, id, addrID, body));
  }

  lemma DeliverOneFollows(s: State, id: Id, d: Delivery)
    requires AttachmentsKnown(s, id) && Resolves(s, d)
    ensures FilingsFollow(s, DeliverOne(s, id, d).state)
  {
    hide FilingsFollow, StoreCopy, Delivered, Resolves;
    SameFollows(s, s);
    if d.Deliver? {
      if d.goodKeys < |s.messages[id].attIDs| {
        StoreCopyFollows(s, id, d.addrID, d.body, d.goodKeys);
      } else {
        DeliveredFollows(s, id, d.addrID, d.body);
        DeliverOneSameLabels(s, id, d);
        var t := Delivered(s, id, d.addrID, d.body);
        ListFollows(t, DeliverOne(s, id, d).state, s);
      }
    }
  }

  lemma ListFollows(t: State, r: State, s: State)
    requires FilingsFollow(s, t) && r.messages == t.messages && r.nextUuid == t.nextUuid
    ensures FilingsFollow(s, r)
  {
    hide Refiled, NewlyFiled;
    forall id ensures Follows(s, r, id) {
      assert Follows(s, t, id);
    }
  }

  lemma {:induction false} DeliverAllFollows(s: State, id: Id, ds: seq<Delivery>)
    requires AttachmentsKnown(s, id) && AllResolve(s, id, ds)
    ensures FilingsFollow(s, DeliverAll(s, id, ds).state)
    decreases ds
  {
    hide FilingsFollow, DeliverOne;
    SameFollows(s, s);
    if ds != [] {
      var r := DeliverOne(s, id, ds[0]);
      DeliverOneFollows(s, id, ds[0]);
      DeliverOneSameLabels(s, id, ds[0]);
      if r.ok {
        DeliverAllFollows(r.state, id, ds[1..]);
        FollowsComposes(s, r.state, DeliverAll(r.state, id, ds[1..]).state);
      }
    }
  }

  lemma MarkSentFollows(s: State, u: Id, id: Id)
    requires UserLabels(s.labels) && u in s.accounts && SendIsSafe(s, id)
    ensures FilingsFollow(s, MarkSent(s, u, id))
  {
    hide FilingsFollow, Filed, Refiled, UserLabels, MarkSent, MarkParent, Log;
    var sent := Sent(s, id);
    var t := s.(messages := s.messages[id := sent]);
    FiledFollows(s.messages[id].filing, SENT, s.labels);
    StoreFollows(s, t, id, sent);
    MarkSentIs(s, u, id);
    ParentFollows(t, u, sent.parent, sent.action, id);
    FollowsComposes(s, t, MarkSent(s, u, id));
  }

  /** Nothing but logs, lists and addresses may differ. */
  ghost predicate SameStore(s: State, t: State) {
    t.messages == s.messages && t.labels == s.labels && t.nextUuid == s.nextUuid
  }

  lemma LogSameStore(s: State, u: Id, update: Update)
    requires u in s.accounts
    ensures SameStore(s, Log(s, u, update)) && SameStore(s, LogAll(s, u, update))
    ensures Log(s, u, update).accounts.Keys == s.accounts.Keys
  {}

  lemma ParentFollows(t: State, u: Id, parent: Id, action: DraftAction, id: Id)
    requires u in t.accounts
    ensures FilingsFollow(t, Log(MarkParent(t, u, parent, action), u, Updated(MessageKey(id))))
  {
    hide FilingsFollow, Log;
    var r := MarkParent(t, u, parent, action);
    if parent in t.messages {
      var msg := t.messages[parent].(flags := t.messages[parent].flags + ReplyFlag(action));
      LogSameStore(t.(messages := t.messages[parent := msg]), u, Updated(MessageKey(parent)));
    }
    LogSameStore(r, u, Updated(MessageKey(id)));
    SameFollows(t, Log(r, u, Updated(MessageKey(id))));
  }

  lemma SendFollows(s: State, u: Id, id: Id, ds: seq<Delivery>)
    requires UserLabels(s.labels)
    requires u in s.accounts ==> SendIsSafe(s, id) && AllResolve(MarkSent(s, u, id), id, ds)
    ensures FilingsFollow(s, SendMessage(s, u, id, ds).state)
  {
    hide FilingsFollow, MarkSent, DeliverAll, UserLabels;
    SameFollows(s, s);
    if u in s.accounts {
      var t := MarkSent(s, u, id);
      MarkSentFollows(s, u, id);
      MarkSentSameLabels(s, u, id);
      DeliverAllFollows(t, id, ds);
      FollowsComposes(s, t, DeliverAll(t, id, ds).state);
    }
  }

  // ---------------------------------------------------------------------
  // Every call

  lemma CreateFollows(s: State, op: MailOp)
    requires Core(s) && MailAllowed(s, op) && (op.OpCreateMessage? || op.OpCreateDraft?)
    ensures FilingsFollow(s, ApplyMail(s, op))
  {
    hide Core, FilingsFollow, AddMessage, HasDuplicate, NewlyFiled;
    SameFollows(s, s);
    NoLabelsIsNew(NEW_FILING.(starred := true), s.labels);
    NoLabelsIsNew(NEW_FILING, s.labels);
    NoLabelsIsNew(NEW_FILING.(sysLabel := None), s.labels);
    if op.u in s.accounts {
      forall msg: Message | NewlyFiled(msg.filing, s.labels) ensures FilingsFollow(s, AddMessage(s, op.u, msg)) {
        AddFollows(s, op.u, msg);
      }
    }
  }

  lemma UpdateFollows(s: State, u: Id, id: Id, ch: Changes)
    ensures FilingsFollow(s, UpdateDraft(s, u, id, ch).state)
  {
    hide FilingsFollow, ApplyChanges;
    SameFollows(s, UpdateDraft(s, u, id, ch).state);
  }

  lemma DeleteFollows(s: State, u: Id, id: Id)
    requires u in s.accounts && id in s.messages ==> Droppable(s, [id])
    ensures FilingsFollow(s, DeleteMessage(s, u, id).state)
  {
    hide FilingsFollow, FreeAll;
    if u in s.accounts && id in s.messages {
      assert Droppable(s, [id]);
    }
    SameFollows(s, DeleteMessage(s, u, id).state);
  }

  lemma AttachFollows(s: State, u: Id, id: Id, filename: string, contentID: string, inline: bool, data: string)
    requires u in s.accounts ==> AttachmentsKnown(s, id)
    ensures FilingsFollow(s, CreateAttachment(s, u, id, filename, contentID, inline, data).state)
  {
    hide FilingsFollow, SortAttachments;
    SameFollows(s, CreateAttachment(s, u, id, filename, contentID, inline, data).state);
  }

  lemma CoreUserLabels(s: State)
    requires Core(s)
    ensures UserLabels(s.labels) && forall l | l in s.labels :: Old(s, l)
  {}

  lemma MailFollows(s: State, op: MailOp)
    requires Core(s) && MailAllowed(s, op)
    ensures FilingsFollow(s, ApplyMail(s, op))
  {
    hide Core, FilingsFollow, SendMessage, EditAll, DeleteMessage, CreateAttachment, UpdateDraft, UserLabels;
    CoreUserLabels(s);
    match op
    case OpEditMessages(u, edit, ids) =>
      SameFollows(s, s);
      if u in s.accounts {
        EditAllFollows(s, u, edit, ids);
      }
    case OpDeleteMessage(u, id) =>
      DeleteMessageKeeps(s, u, id);
      DeleteFollows(s, u, id);
    case OpCreateAttachment(u, id, filename, contentID, inline, data) =>
      CreateAttachmentKeeps(s, u, id, filename, contentID, inline, data);
      AttachFollows(s, u, id, filename, contentID, inline, data);
    case OpSendMessage(u, id, ds) =>
      SendingIsSafe(s, id);
      SendFollows(s, u, id, ds);
    case OpUpdateDraft(u, id, ch) =>
      UpdateFollows(s, u, id, ch);
    case _ =>
      CreateFollows(s, op);
  }

  /** Labels keep their type, and new ones have new IDs. */
  ghost predicate LabelsFollow(s: State, t: State) {
    forall l | l in t.labels && Old(s, l) :: l in s.labels && t.labels[l].labelType == s.labels[l].labelType
  }

  lemma SameLabelsFollow(s: State, t: State)
    requires t.labels == s.labels
    ensures LabelsFollow(s, t)
  {}

  lemma LabelFollows(s: State, op: LabelOp)
    requires Core(s) && LabelAllowed(s, op)
    ensures FilingsFollow(s, ApplyLabel(s, op)) && LabelsFollow(s, ApplyLabel(s, op))
  {
    hide Core, FilingsFollow, CreateLabel, UpdateLabel, DropLabels;
    var t := ApplyLabel(s, op);
    CoreUserLabels(s);
    match op {
    case OpCreateLabel(u, name, parent, labelType) => CreateLabelLabels(s, u, name, parent, labelType);
    case OpUpdateLabel(u, id, name, parent) =>
      OwnLabelStored(s, u, id);
      UpdateLabelLabels(s, u, id, name, parent);
    case OpDeleteLabel(u, id, order) =>
      if u in s.accounts && id in s.labels {
        DropLabelsBecome(s, u, order);
        DropLabelsMessages(s, u, order);
      }
    }
    SameFollows(s, t);
  }

  lemma CreateLabelLabels(s: State, u: Id, name: string, parent: Id, labelType: LabelType)
    ensures var t := CreateLabel(s, u, name, parent, labelType).state;
      && t.messages == s.messages && s.nextUuid <= t.nextUuid
      && (t.labels == s.labels || t.labels == s.labels[Uuid(s.nextUuid) := Label(name, parent, labelType)])
  {}

  lemma UpdateLabelLabels(s: State, u: Id, id: Id, name: string, parent: Id)
    requires u in s.accounts ==> id in s.labels
    ensures var t := UpdateLabel(s, u, id, name, parent).state;
      && t.messages == s.messages && t.nextUuid == s.nextUuid && t.labels.Keys == s.labels.Keys
      && forall l | l in s.labels :: t.labels[l].labelType == s.labels[l].labelType
  {}

  lemma {:induction false} DropLabelsMessages(s: State, u: Id, ids: seq<Id>)
    requires u in s.accounts
    ensures DropLabels(s, u, ids).messages == s.messages && DropLabels(s, u, ids).nextUuid == s.nextUuid
    decreases ids
  {
    if ids != [] {
      DropLabelsMessages(DropLabel(s, u, ids[0]), u, ids[1..]);
    }
  }

  lemma LeftMailFollows(s: State, t: State)
    requires LeavesMail(s, t)
    ensures FilingsFollow(s, t) && LabelsFollow(s, t)
  {
    hide FilingsFollow;
    SameFollows(s, t);
    SameLabelsFollow(s, t);
  }

  lemma RemovedFollows(s: State, t: State, u: Id)
    requires Removed(s, t, u)
    ensures FilingsFollow(s, t) && LabelsFollow(s, t)
  {
    hide FilingsFollow;
    forall id | id in t.messages ensures id in s.messages && t.messages[id] == s.messages[id] {
      assert KeepsMessage(s, t, id);
    }
    SameFollows(s, t);
  }

  lemma WithOrderSameStore(s: State, u: Id, id: Id, order: int)
    requires u in s.accounts && id in s.accounts[u].addresses
    ensures SameStore(s, WithOrder(s, u, id, order))
  {
    hide Log;
    LogSameStore(s, u, Updated(AddressKey(id)));
  }

  lemma {:induction false} ReorderSameStore(s: State, u: Id, ids: seq<Id>, i: nat)
    requires u in s.accounts && i <= |ids|
    ensures SameStore(s, Reorder(s, u, ids, i).state)
    decreases |ids| - i
  {
    hide WithOrder;
    if i < |ids| && ids[i] in s.accounts[u].addresses {
      WithOrderSameStore(s, u, ids[i], i + 1);
      ReorderSameStore(WithOrder(s, u, ids[i], i + 1), u, ids, i + 1);
    }
  }

  lemma OrderSameStore(s: State, u: Id, ids: seq<Id>, before: Id, after: Id)
    ensures SameStore(s, SetAddressOrder(s, u, ids, before, after).state)
  {
    hide Log, Reorder;
    if u in s.accounts {
      ReorderSameStore(s, u, ids, 0);
      LogSameStore(Reorder(s, u, ids, 0).state, u, UserInfoUpdated);
    }
  }

  /** The call leaves messages and labels alone. */
  ghost predicate LeavesMail(s: State, t: State) {
    t.messages == s.messages && t.labels == s.labels && s.nextUuid <= t.nextUuid
  }

  lemma LogLeavesMail(s: State, t: State, u: Id, update: Update)
    requires u in t.accounts && LeavesMail(s, t)
    ensures LeavesMail(s, Log(t, u, update)) && LeavesMail(s, LogAll(t, u, update))
  {
    hide Log, LogAll;
    LogSameStore(t, u, update);
  }

  lemma AccountLeavesMail(s: State, op: UserOp)
    requires Core(s) && (op.OpCreateUser? || op.OpRefreshUser? || op.OpSetUserSettings? || op.OpSetMaxUpdates?)
    ensures LeavesMail(s, ApplyUser(s, op))
  {
    hide Core, Log, LogAll;
    match op
    case OpRefreshUser(u, flag) =>
      if u in s.accounts {
        LogLeavesMail(s, s, u, Refreshed(flag));
      }
    case OpSetUserSettings(u, settings) =>
      if u in s.accounts {
        LogLeavesMail(s, WithAccount(s, u, s.accounts[u].(settings := settings)), u, SettingsUpdated(settings));
      }
    case _ =>
  }

  lemma CreateAddressLeavesMail(s: State, u: Id, email: string, enabled: bool, asUpdate: bool, keyOk: bool)
    ensures LeavesMail(s, CreateAddress(s, u, email, enabled, asUpdate, keyOk).state)
  {
    hide Log, LogAll;
    if u in s.accounts && keyOk {
      var id := Uuid(s.nextUuid);
      var t := WithAddress(s, u, id, Address(email, |s.accounts[u].addresses| + 1, enabled)).(nextUuid := s.nextUuid + 1);
      LogLeavesMail(s, t, u, if asUpdate then Updated(AddressKey(id)) else Created(AddressKey(id)));
    }
  }

  lemma SetAddressStatusLeavesMail(s: State, u: Id, id: Id, enabled: bool)
    requires u in s.accounts ==> id in s.accounts[u].addresses
    ensures LeavesMail(s, SetAddressStatus(s, u, id, enabled).state)
  {
    hide Log, LogAll;
    if u in s.accounts {
      LogLeavesMail(s, WithAddress(s, u, id, s.accounts[u].addresses[id].(enabled := enabled)), u, Updated(AddressKey(id)));
    }
  }

  lemma DropAddressLeavesMail(s: State, u: Id, id: Id)
    requires u in s.accounts
    ensures LeavesMail(s, DropAddress(s, u, id))
  {
    hide Log, LogAll;
    LogLeavesMail(s, WithAccount(s, u, s.accounts[u].(addresses := s.accounts[u].addresses - {id})), u, Deleted(AddressKey(id)));
  }

  lemma AddressLeavesMail(s: State, op: UserOp)
    requires Core(s) && UserAllowed(s, op)
    requires op.OpCreateAddress? || op.OpSetAddressStatus? || op.OpDeleteAddress? || op.OpRemoveAddress?
    ensures LeavesMail(s, ApplyUser(s, op))
  {
    hide Core, CreateAddress, SetAddressStatus, DropAddress;
    match op
    case OpCreateAddress(u, email, enabled, asUpdate, keyOk) => CreateAddressLeavesMail(s, u, email, enabled, asUpdate, keyOk);
    case OpSetAddressStatus(u, id, enabled) => SetAddressStatusLeavesMail(s, u, id, enabled);
    case OpDeleteAddress(u, id) =>
      if u in s.accounts {
        DropAddressLeavesMail(s, u, id);
      }
    case OpRemoveAddress(u, id) =>
      if u in s.accounts {
        DropAddressLeavesMail(s, u, id);
      }
    case _ =>
  }

  lemma UserFollows(s: State, op: UserOp)
    requires Inv(s) && UserAllowed(s, op)
    ensures FilingsFollow(s, ApplyUser(s, op)) && LabelsFollow(s, ApplyUser(s, op))
  {
    hide Core, FilingsFollow, LabelsFollow, ThreadsOk, FamilyOk, Droppable, RemoveUser, Removed, Log, Reorder;
    match op
    case OpRemoveUser(u) =>
      RemoveUserKeeps(s, u);
      if u in s.accounts {
        RemoveUserIs(s, u);
        RemovedFollows(s, RemoveUser(s, u).state, u);
      } else {
        NobodyRemoved(s, u);
        LeftMailFollows(s, s);
      }
    case OpSetAddressOrder(u, ids, before, after) =>
      OrderSameStore(s, u, ids, before, after);
      LeftMailFollows(s, SetAddressOrder(s, u, ids, before, after).state);
    case _ =>
      if op.OpCreateUser? || op.OpRefreshUser? || op.OpSetUserSettings? || op.OpSetMaxUpdates? {
        AccountLeavesMail(s, op);
      } else {
        AddressLeavesMail(s, op);
      }
      LeftMailFollows(s, ApplyUser(s, op));
  }

  lemma StepFollows(s: State, op: Op)
    requires Inv(s) && Allowed(s, op)
    ensures FilingsFollow(s, Apply(s, op)) && LabelsFollow(s, Apply(s, op))
  {
    hide Core, ThreadsOk, FamilyOk, UserAllowed, LabelAllowed, MailAllowed, ApplyUser, ApplyLabel, ApplyMail, FilingsFollow, LabelsFollow, SameLabels;
    match op {
    case OnUser(o) => UserFollows(s, o);
    case OnLabel(o) => LabelFollows(s, o);
    case OnMail(o) =>
      MailFollows(s, o);
      MailSameLabels(s, o);
      SameLabelsAre(s, ApplyMail(s, o));
      SameLabelsFollow(s, ApplyMail(s, o));
    }
  }

  lemma SameLabelsAre(s: State, t: State)
    requires SameLabels(s, t)
    ensures t.labels == s.labels
  {}

  // ---------------------------------------------------------------------
  // Every run

  lemma InitialFilings(enableDedup: bool)
    ensures FilingsOk(NewBackend(enableDedup)) && LabelsLive(NewBackend(enableDedup))
  {}

  lemma FollowedFiling(s: State, t: State, id: Id)
    requires Core(s) && FilingsOk(s) && FilingsFollow(s, t) && LabelsFollow(s, t) && id in t.messages
    ensures FilingOk(t, t.messages[id].filing)
  {
    hide Core;
    CoreUserLabels(s);
    var g := t.messages[id].filing;
    assert Follows(s, t, id);
    assert forall l | HoldsFolder(g, l, t.labels) :: HoldsFolder(g, l, s.labels);
  }

  lemma StepKeepsFilings(s: State, op: Op)
    requires Inv(s) && FilingsOk(s) && Allowed(s, op)
    ensures FilingsOk(Apply(s, op))
  {
    StepFollows(s, op);
    InvCore(s);
    hide Inv, Core, Allowed, Apply, FilingsFollow, LabelsFollow, FilingOk;
    var t := Apply(s, op);
    forall id | id in t.messages ensures FilingOk(t, t.messages[id].filing) {
      FollowedFiling(s, t, id);
    }
  }

  /** In every reachable state no message carries a label twice, none has two
      locations, and the system label is one of the fixed ones. */
  lemma {:induction false} RunsKeepFilings(states: seq<State>, ops: seq<Op>, k: nat)
    requires IsRun(states, ops) && Inv(states[0]) && FilingsOk(states[0]) && k <= |ops|
    ensures Inv(states[k]) && FilingsOk(states[k])
  {
    hide Inv, Apply, Allowed, FilingsOk;
    RunsKeepInv(states, ops, k);
    if k > 0 {
      RunsKeepFilings(states, ops, k - 1);
      StepKeepsFilings(states[k - 1], ops[k - 1]);
      assert states[k - 1 + 1] == Apply(states[k - 1], ops[k - 1]);
    }
  }

  // ---------------------------------------------------------------------
  // Labels that are gone

  /** No filing of any stored message panics if and only if every label that is
      carried exists. */
  lemma FilingsAreSafe(s: State)
    ensures LabelsLive(s) <==> forall m, id :: m in s.messages ==> AddLabel(s.messages[m].filing, id, s.labels).Some?
  {
    forall m, id | m in s.messages ensures AddLabel(s.messages[m].filing, id, s.labels) == None ==> !LabelsLive(s) {
      FilingFails(s.messages[m].filing, id, s.labels);
      if l :| l in s.messages[m].filing.labelIDs && l !in s.labels {
        assert Carries(s, m, l);
      }
    }
    forall m, l | Carries(s, m, l) ensures AddLabel(s.messages[m].filing, TRASH, s.labels).Some? ==> l in s.labels {
      FilingFails(s.messages[m].filing, TRASH, s.labels);
    }
  }

  /** A call leaves a label carried that is gone exactly when it removes a label
      that a message still carries afterwards. */
  lemma StepStrands(s: State, op: Op)
    requires Inv(s) && LabelsLive(s) && Allowed(s, op)
    ensures var t := Apply(s, op);
      LabelsLive(t) <==> forall m, l :: Carries(t, m, l) ==> l !in s.labels.Keys - t.labels.Keys
  {
    StepFollows(s, op);
    hide Inv, Allowed, Apply, FilingsFollow, Carries;
    var t := Apply(s, op);
    forall m, l | Carries(t, m, l) ensures l in s.labels {
      CarriedFollows(s, t, m, l);
    }
  }

  lemma CarriedFollows(s: State, t: State, m: Id, l: Id)
    requires FilingsFollow(s, t) && LabelsLive(s) && Carries(t, m, l)
    ensures l in s.labels
  {
    hide Neat;
    assert Follows(s, t, m);
    if m in s.messages && l in s.messages[m].filing.labelIDs {
      assert Carries(s, m, l);
    }
  }

  /** Deleting a label leaves every carried label live exactly when no stored
      message carries the label or one of its descendants. */
  lemma DeletionStrands(s: State, u: Id, id: Id, order: seq<Id>)
    requires LabelsLive(s) && u in s.accounts && id in s.labels && IsSubtree(s.labels, id, order)
    ensures LabelsLive(DeleteLabel(s, u, id, order).state) <==> forall m, l :: Carries(s, m, l) ==> !Under(s.labels, l, id)
  {
    hide DropLabels;
    DropLabelsBecome(s, u, order);
    DropLabelsMessages(s, u, order);
    var t := DropLabels(s, u, order);
    forall m, l | Carries(s, m, l) ensures l in t.labels <==> !Under(s.labels, l, id) {
      assert l in s.labels;
    }
    assert forall m, l :: Carries(t, m, l) <==> Carries(s, m, l);
  }

  // ---------------------------------------------------------------------
  // A run that strands a label

  /** An allowed call that leaves the invariant and this state. */
  ghost predicate Leads(s: State, op: Op, t: State) { Inv(s) && Allowed(s, op) && t == Apply(s, op) && Inv(t) }

  lemma StepLeads(s: State, op: Op)
    requires Inv(s) && Allowed(s, op)
    ensures Leads(s, op, Apply(s, op))
  {
    hide Inv, Allowed, Apply;
    Step(s, op);
  }

  lemma LabelLeads(s: State, o: LabelOp)
    requires Inv(s) && LabelAllowed(s, o)
    ensures Leads(s, OnLabel(o), ApplyLabel(s, o))
  {
    hide Inv, Core, Leads, UserAllowed, LabelAllowed, MailAllowed, ApplyUser, ApplyLabel, ApplyMail;
    StepLeads(s, OnLabel(o));
  }

  lemma MailLeads(s: State, o: MailOp)
    requires Inv(s) && MailAllowed(s, o)
    ensures Leads(s, OnMail(o), ApplyMail(s, o))
  {
    hide Inv, Core, Leads, UserAllowed, LabelAllowed, MailAllowed, ApplyUser, ApplyLabel, ApplyMail;
    StepLeads(s, OnMail(o));
  }

  /** The labels while a new tag lives, and its owner. */
  ghost predicate HasTag(s: State, u: Id, tag: Id, before: Labels) {
    && u in s.accounts && tag in s.accounts[u].labelIDs && tag !in before
    && exists name :: s.labels == before[tag := Label(name, NoId, TagType)]
  }

  /** The account has the message, and it carries these labels. */
  ghost predicate HasMessage(s: State, u: Id, m: Id, labelIDs: seq<Id>) {
    && u in s.accounts && m in s.accounts[u].messageIDs && m in s.messages && s.messages[m].filing.labelIDs == labelIDs
  }

  lemma NoIdIsNobodys(s: State, u: Id)
    requires Core(s)
    ensures !Present(s, u, LabelKey(NoId)) && !Present(s, u, MessageKey(NoId)) && NoId !in s.messages
  {}

  lemma NewTagLeads(s: State, u: Id, name: string)
    requires Inv(s) && u in s.accounts
    ensures Leads(s, OnLabel(OpCreateLabel(u, name, NoId, TagType)), CreateLabel(s, u, name, NoId, TagType).state)
  {
    hide Inv, Core, Live, Present, Leads, CreateLabel;
    InvCore(s);
    NoIdIsNobodys(s, u);
    LabelLeads(s, OpCreateLabel(u, name, NoId, TagType));
  }

  lemma NewTag(s: State, u: Id, name: string)
    requires u in s.accounts && Uuid(s.nextUuid) !in s.labels
    ensures var t := CreateLabel(s, u, name, NoId, TagType).state;
      HasTag(t, u, Uuid(s.nextUuid), s.labels) && t.nextUuid == s.nextUuid + 1
  {}

  lemma NewDraftLeads(s: State, u: Id, addrID: Id, content: Content)
    requires Inv(s) && u in s.accounts
    ensures Leads(s, OnMail(OpCreateDraft(u, addrID, content, true, NoId, ReplyAction)),
                  CreateDraft(s, u, addrID, content, true, NoId, ReplyAction).state)
  {
    hide Inv, Core, Live, Present, Leads, CreateDraft;
    InvCore(s);
    NoIdIsNobodys(s, u);
    MailLeads(s, OpCreateDraft(u, addrID, content, true, NoId, ReplyAction));
  }

  lemma NewDraft(s: State, u: Id, addrID: Id, content: Content, tag: Id, before: Labels)
    requires HasTag(s, u, tag, before)
    ensures var t := CreateDraft(s, u, addrID, content, true, NoId, ReplyAction).state;
      HasTag(t, u, tag, before) && HasMessage(t, u, Uuid(s.nextUuid), [])
  {
    var msg := Message(addrID, Filed(NEW_FILING, DRAFTS, s.labels), [], NoId, ReplyAction, content, {}, true);
    assert msg.filing.labelIDs == [];
    DraftIs(s, u, addrID, content);
    hide Filed, AddMessage, CreateDraft;
    AddedMessage(s, u, msg);
  }

  lemma DraftIs(s: State, u: Id, addrID: Id, content: Content)
    requires u in s.accounts
    ensures CreateDraft(s, u, addrID, content, true, NoId, ReplyAction).state
         == AddMessage(s, u, Message(addrID, Filed(NEW_FILING, DRAFTS, s.labels), [], NoId, ReplyAction, content, {}, true))
  {
    hide Filed, AddMessage;
  }

  lemma AddedMessage(s: State, u: Id, msg: Message)
    requires u in s.accounts
    ensures var t, id := AddMessage(s, u, msg), Uuid(s.nextUuid);
      && t.labels == s.labels && t.messages == s.messages[id := msg] && u in t.accounts
      && t.accounts[u].labelIDs == s.accounts[u].labelIDs && t.accounts[u].messageIDs == s.accounts[u].messageIDs + [id]
  {
    hide Log;
    var id := Uuid(s.nextUuid);
    var t := s.(messages := s.messages[id := msg], nextUuid := s.nextUuid + 1);
    LogKeepsLists(t, u, Created(MessageKey(id)));
    LogSameStore(t, u, Created(MessageKey(id)));
  }

  lemma TagIsSafe(s: State, u: Id, m: Id, tag: Id, before: Labels)
    requires HasTag(s, u, tag, before) && tag.Uuid?
    ensures EditIsSafe(s, Put(tag), [m])
  {}

  lemma TagDraftLeads(s: State, u: Id, m: Id, tag: Id, before: Labels)
    requires Inv(s) && HasTag(s, u, tag, before) && HasMessage(s, u, m, []) && tag.Uuid?
    ensures u in s.accounts && EditIsSafe(s, Put(tag), [m])
    ensures Leads(s, OnMail(OpEditMessages(u, Put(tag), [m])), EditMessages(s, u, Put(tag), [m]).state)
  {
    TagIsSafe(s, u, m, tag, before);
    assert Live(s, u, MessageKey(m));
    hide Inv, Core, Live, Present, Leads, EditMessages, EditIsSafe;
    MailLeads(s, OpEditMessages(u, Put(tag), [m]));
  }

  lemma TagDraft(s: State, u: Id, m: Id, tag: Id, before: Labels)
    requires HasTag(s, u, tag, before) && HasMessage(s, u, m, []) && EditIsSafe(s, Put(tag), [m]) && tag.Uuid?
    ensures var t := EditMessages(s, u, Put(tag), [m]).state;
      HasTag(t, u, tag, before) && HasMessage(t, u, m, [tag])
  {
    var msg := EditMessage(s.messages[m], Put(tag), s.labels);
    assert msg.filing.labelIDs == [tag];
    hide EditMessage, EditIsSafe, EditAll, Log;
    var t := s.(messages := s.messages[m := msg]);
    LogKeepsLists(t, u, Updated(MessageKey(m)));
    LogSameStore(t, u, Updated(MessageKey(m)));
    EditOne(s, u, Put(tag), m);
  }

  lemma EditOne(s: State, u: Id, e: Edit, m: Id)
    requires u in s.accounts && m in s.messages && EditIsSafe(s, e, [m])
    ensures EditAll(s, u, e, [m]) == TouchMessage(s, u, m, EditMessage(s.messages[m], e, s.labels))
  {
    hide EditMessage, TouchMessage;
    assert [m][1..] == [];
  }

  /** A label nobody has as a parent is its own subtree. */
  lemma AloneIsSubtree(labels: Labels, id: Id)
    requires Forest(labels) && id in labels && forall x | x in labels :: labels[x].parent != id
    ensures IsSubtree(labels, id, [id])
  {
    var rank :| RankOk(labels, rank);
    forall x ensures x in [id] <==> Under(labels, x, id) {
      if Under(labels, x, id) && x != id {
        var c := UnderSomeChild(labels, rank, x, id);
      }
    }
  }

  lemma DropTagLeads(s: State, u: Id, tag: Id)
    requires Inv(s) && u in s.accounts && tag in s.accounts[u].labelIDs && IsSubtree(s.labels, tag, [tag])
    ensures Leads(s, OnLabel(OpDeleteLabel(u, tag, [tag])), DeleteLabel(s, u, tag, [tag]).state)
  {
    assert Live(s, u, LabelKey(tag));
    hide Inv, Core, Live, Present, Leads, DeleteLabel, IsSubtree;
    LabelLeads(s, OpDeleteLabel(u, tag, [tag]));
  }

  lemma DropTag(s: State, u: Id, m: Id, tag: Id, before: Labels)
    requires HasTag(s, u, tag, before) && HasMessage(s, u, m, [tag])
    ensures var t := DeleteLabel(s, u, tag, [tag]).state;
      t.labels == before && m in t.messages && t.messages[m].filing.labelIDs == [tag]
  {
    hide DropLabels;
    DropLabelsBecome(s, u, [tag]);
    DropLabelsMessages(s, u, [tag]);
    assert Elements([tag]) == {tag};
    assert s.labels - {tag} == before;
  }

  lemma TagIsSubtree(s: State, u: Id, tag: Id, before: Labels)
    requires Inv(s) && HasTag(s, u, tag, before) && Forest(before)
    ensures tag in s.accounts[u].labelIDs && IsSubtree(s.labels, tag, [tag])
  {
    InvParts(s);
    TagHasNoChildren(s, u, tag, before);
    hide Inv;
    AloneIsSubtree(s.labels, tag);
  }

  lemma TagHasNoChildren(s: State, u: Id, tag: Id, before: Labels)
    requires HasTag(s, u, tag, before) && Forest(before) && NoId !in s.labels
    ensures tag in s.labels && forall x | x in s.labels :: s.labels[x].parent != tag
  {}

  function MakeTag(u: Id, name: string): Op { OnLabel(OpCreateLabel(u, name, NoId, TagType)) }

  function MakeDraft(u: Id, addrID: Id, content: Content): Op {
    OnMail(OpCreateDraft(u, addrID, content, true, NoId, ReplyAction))
  }

  function PutTag(u: Id, tag: Id, m: Id): Op { OnMail(OpEditMessages(u, Put(tag), [m])) }

  function DeleteTag(u: Id, tag: Id): Op { OnLabel(OpDeleteLabel(u, tag, [tag])) }

  lemma TagMade(s: State, u: Id, name: string) returns (t: State)
    requires Inv(s) && u in s.accounts
    ensures Leads(s, MakeTag(u, name), t) && Inv(t) && t.nextUuid == s.nextUuid + 1
    ensures HasTag(t, u, Uuid(s.nextUuid), s.labels) && u in t.accounts
  {
    hide Inv, Core, HasTag, CreateLabel, Leads;
    InvCore(s);
    CoreUserLabels(s);
    t := CreateLabel(s, u, name, NoId, TagType).state;
    NewTagLeads(s, u, name);
    NewTag(s, u, name);
    LeadsInv(s, MakeTag(u, name), t);
    HasTagIsNew(t, u, Uuid(s.nextUuid), s.labels);
  }

  lemma DraftMade(s: State, u: Id, addrID: Id, content: Content, tag: Id, before: Labels) returns (t: State)
    requires Inv(s) && HasTag(s, u, tag, before) && u in s.accounts
    ensures Leads(s, MakeDraft(u, addrID, content), t) && Inv(t)
    ensures HasTag(t, u, tag, before) && HasMessage(t, u, Uuid(s.nextUuid), [])
  {
    hide Inv, Core, HasTag, HasMessage, CreateDraft, Leads;
    t := CreateDraft(s, u, addrID, content, true, NoId, ReplyAction).state;
    NewDraftLeads(s, u, addrID, content);
    NewDraft(s, u, addrID, content, tag, before);
    LeadsInv(s, MakeDraft(u, addrID, content), t);
  }

  lemma TagPut(s: State, u: Id, m: Id, tag: Id, before: Labels) returns (t: State)
    requires Inv(s) && HasTag(s, u, tag, before) && HasMessage(s, u, m, []) && tag.Uuid?
    ensures Leads(s, PutTag(u, tag, m), t) && Inv(t)
    ensures HasTag(t, u, tag, before) && HasMessage(t, u, m, [tag])
  {
    hide Inv, Core, HasTag, HasMessage, EditMessages, EditIsSafe, Leads;
    TagDraftLeads(s, u, m, tag, before);
    TagDraft(s, u, m, tag, before);
    t := EditMessages(s, u, Put(tag), [m]).state;
    LeadsInv(s, PutTag(u, tag, m), t);
  }

  lemma TagDeleted(s: State, u: Id, m: Id, tag: Id, before: Labels) returns (t: State)
    requires Inv(s) && HasTag(s, u, tag, before) && HasMessage(s, u, m, [tag]) && Forest(before)
    ensures Leads(s, DeleteTag(u, tag), t) && Carries(t, m, tag) && tag !in t.labels
  {
    hide Inv, HasTag, HasMessage, Forest, DeleteLabel, Leads, IsSubtree;
    HasTagIsNew(s, u, tag, before);
    TagIsSubtree(s, u, tag, before);
    t := DeleteLabel(s, u, tag, [tag]).state;
    DropTagLeads(s, u, tag);
    DropTag(s, u, m, tag, before);
  }

  /** From any state of any account: make a tag, make a draft, put the tag on it
      and delete the tag. Every call is allowed, and then moving the draft to
      the trash panics. */
  lemma DeletedLabelBreaksFiling(s: State, u: Id, name: string, addrID: Id, content: Content)
    returns (states: seq<State>, ops: seq<Op>)
    requires Inv(s) && u in s.accounts
    ensures var tag, m := Uuid(s.nextUuid), Uuid(s.nextUuid + 1);
      ops == [MakeTag(u, name), MakeDraft(u, addrID, content), PutTag(u, tag, m), DeleteTag(u, tag)]
    ensures IsRun(states, ops) && states[0] == s && Stranded(states[4], Uuid(s.nextUuid + 1))
  {
    hide Inv, HasTag, HasMessage, Forest, Leads, IsRun, Stranded, Carries;
    var tag, m := Uuid(s.nextUuid), Uuid(s.nextUuid + 1);
    var s1 := TagMade(s, u, name);
    var s2 := DraftMade(s1, u, addrID, content, tag, s.labels);
    var s3 := TagPut(s2, u, m, tag, s.labels);
    InvParts(s);
    var s4 := TagDeleted(s3, u, m, tag, s.labels);
    StrandedFails(s4, m, tag);
    states := [s, s1, s2, s3, s4];
    ops := [MakeTag(u, name), MakeDraft(u, addrID, content), PutTag(u, tag, m), DeleteTag(u, tag)];
    LeadsIsRun(states, ops);
  }

  /** Moving the message to the trash panics. */
  ghost predicate Stranded(s: State, m: Id) {
    m in s.messages && AddLabel(s.messages[m].filing, TRASH, s.labels) == None
  }

  lemma StrandedFails(s: State, m: Id, l: Id)
    requires Carries(s, m, l) && l !in s.labels
    ensures Stranded(s, m)
  {
    FilingFails(s.messages[m].filing, TRASH, s.labels);
  }

  lemma LeadsInv(s: State, op: Op, t: State)
    requires Leads(s, op, t)
    ensures Inv(t)
  {}

  lemma HasTagIsNew(s: State, u: Id, tag: Id, before: Labels)
    requires HasTag(s, u, tag, before)
    ensures tag !in before && u in s.accounts
  {}

  lemma LeadsIsRun(states: seq<State>, ops: seq<Op>)
    requires |states| == |ops| + 1 && forall i | 0 <= i < |ops| :: Leads(states[i], ops[i], states[i + 1])
    ensures IsRun(states, ops)
  {
    hide Inv, Allowed, Apply;
    forall i | 0 <= i < |ops|
      ensures Core(states[i]) && Inv(states[i]) && Allowed(states[i], ops[i]) && states[i + 1] == Apply(states[i], ops[i])
    {
      assert Leads(states[i], ops[i], states[i + 1]);
      InvCore(states[i]);
    }
  }
}
