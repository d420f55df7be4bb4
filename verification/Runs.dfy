/** The backend as one machine: every call keeps its invariant, over any run
    (server/backend/backend.go, server/backend/api.go). */
module Runs {
  import opened Ids
  import opened Updates
  import opened EventLog
  import opened Locations
  import opened LabelForest
  import opened Records
  import opened Attachments
  import opened Operations
  import opened Views
  import opened Invariants
  import opened Steps
  import opened AddressSteps
  import opened LabelSteps
  import opened MessageSteps
  import opened MailSteps
  import opened SendSteps
  import opened Families

  /** Calls about users, settings and addresses. */
  datatype UserOp =
    | OpCreateUser
    | OpRemoveUser(u: Id)
    | OpRefreshUser(u: Id, flag: RefreshFlag)
    | OpSetUserSettings(u: Id, settings: Settings)
    | OpSetMaxUpdates(max: int)
    | OpCreateAddress(u: Id, email: string, enabled: bool, asUpdate: bool, keyOk: bool)
    | OpSetAddressStatus(u: Id, id: Id, enabled: bool)
    | OpDeleteAddress(u: Id, id: Id)
    | OpRemoveAddress(u: Id, id: Id)
    | OpSetAddressOrder(u: Id, ids: seq<Id>, before: Id, after: Id)

  datatype LabelOp =
    | OpCreateLabel(u: Id, name: string, parent: Id, labelType: LabelType)
    | OpUpdateLabel(u: Id, id: Id, name: string, parent: Id)
    | OpDeleteLabel(u: Id, id: Id, order: seq<Id>)

  datatype MailOp =
    | OpCreateMessage(u: Id, addrID: Id, content: Content, flags: set<Flag>, unread: bool, starred: bool)
    | OpCreateDraft(u: Id, addrID: Id, content: Content, unread: bool, parent: Id, action: DraftAction)
    | OpUpdateDraft(u: Id, id: Id, changes: Changes)
    | OpEditMessages(u: Id, edit: Edit, ids: seq<Id>)
    | OpDeleteMessage(u: Id, id: Id)
    | OpCreateAttachment(u: Id, id: Id, filename: string, contentID: string, inline: bool, data: string)
    | OpSendMessage(u: Id, id: Id, deliveries: seq<Delivery>)

  datatype Op = OnUser(user: UserOp) | OnLabel(folder: LabelOp) | OnMail(mail: MailOp)

  // ---------------------------------------------------------------------
  // What callers owe

  /** A stored object that is named belongs to the account. */
  ghost predicate Own(s: State, u: Id, k: Key) { Present(s, u, k) ==> Live(s, u, k) }

  ghost predicate Has(s: State, u: Id, k: Key) { u in s.accounts ==> Live(s, u, k) }

  /** Callers name their own objects, existing ones where the call does not
      check, keep labels out of their own subtrees, and file only messages whose
      labels still exist. The rest pins down what look-ups find and the order
      maps are iterated in. */
  ghost predicate Allowed(s: State, op: Op)
    requires Core(s)
  {
    match op
    case OnUser(o) => UserAllowed(s, o)
    case OnLabel(o) => LabelAllowed(s, o)
    case OnMail(o) => MailAllowed(s, o)
  }

  ghost predicate UserAllowed(s: State, op: UserOp) {
    match op
    case OpSetAddressStatus(u, id, _) => Has(s, u, AddressKey(id))
    case OpDeleteAddress(u, id) => Has(s, u, AddressKey(id))
    case OpSetAddressOrder(u, ids, before, after) => u in s.accounts ==>
      IsPrimary(s.accounts[u], before) &&
      var r := Reorder(s, u, ids, 0);
      r.ok ==> IsPrimary(r.state.accounts[u], after)
    case _ => true
  }

  ghost predicate LabelAllowed(s: State, op: LabelOp) {
    match op
    case OpCreateLabel(u, _, parent, _) => Own(s, u, LabelKey(parent))
    case OpUpdateLabel(u, id, _, parent) => Has(s, u, LabelKey(id)) && Own(s, u, LabelKey(parent)) && !Under(s.labels, parent, id)
    case OpDeleteLabel(u, id, order) => Own(s, u, LabelKey(id)) && (id in s.labels ==> IsSubtree(s.labels, id, order))
  }

  ghost predicate MailAllowed(s: State, op: MailOp)
    requires Core(s)
  {
    match op
    case OpCreateMessage(_, _, _, _, _, _) => true
    case OpCreateDraft(u, _, _, _, parent, _) => Own(s, u, MessageKey(parent))
    case OpUpdateDraft(u, id, _) => Own(s, u, MessageKey(id))
    case OpEditMessages(u, edit, ids) => u in s.accounts ==>
      EditIsSafe(s, edit, ids) && forall id :: id in ids ==> Own(s, u, MessageKey(id))
    case OpDeleteMessage(u, id) => Own(s, u, MessageKey(id))
    case OpCreateAttachment(u, id, _, _, _, _) => Has(s, u, MessageKey(id))
    case OpSendMessage(u, id, ds) => u in s.accounts ==> Live(s, u, MessageKey(id)) && SendAllowed(s, u, id, ds)
  }

  ghost predicate SendAllowed(s: State, u: Id, id: Id, ds: seq<Delivery>)
    requires Core(s) && u in s.accounts
  {
    id in s.messages && AddIsSafe(s.messages[id].filing, SENT, s.labels) &&
    assert SendIsSafe(s, id) by { SendingIsSafe(s, id); }
    AllResolve(MarkSent(s, u, id), id, ds)
  }

  lemma SendingIsSafe(s: State, id: Id)
    requires Core(s)
    ensures id in s.messages && AddIsSafe(s.messages[id].filing, SENT, s.labels) ==> SendIsSafe(s, id)
  {
    if id in s.messages {
      CoreIsMailOk(s);
      AttachmentsAreKnown(s, id);
    }
  }

  // ---------------------------------------------------------------------
  // What calls do. None that is allowed dereferences anything missing.

  ghost function Apply(s: State, op: Op): State
    requires Inv(s) && Allowed(s, op)
  {
    match op
    case OnUser(o) => ApplyUser(s, o)
    case OnLabel(o) => ApplyLabel(s, o)
    case OnMail(o) => ApplyMail(s, o)
  }

  ghost function ApplyUser(s: State, op: UserOp): State
    requires Core(s) && UserAllowed(s, op)
  {
    match op
    case OpCreateUser => CreateUser(s)
    case OpRemoveUser(u) => RemoveUserKeeps(s, u); RemoveUser(s, u).state
    case OpRefreshUser(u, flag) => RefreshUser(s, u, flag).state
    case OpSetUserSettings(u, settings) => SetUserSettings(s, u, settings).state
    case OpSetMaxUpdates(max) => s.(maxUpdatesPerEvent := max)
    case OpCreateAddress(u, email, enabled, asUpdate, keyOk) => CreateAddress(s, u, email, enabled, asUpdate, keyOk).state
    case OpSetAddressStatus(u, id, enabled) => SetAddressStatus(s, u, id, enabled).state
    case OpDeleteAddress(u, id) => DeleteAddress(s, u, id).state
    case OpRemoveAddress(u, id) => RemoveAddress(s, u, id).state
    case OpSetAddressOrder(u, ids, before, after) => SetAddressOrder(s, u, ids, before, after).state
  }

  ghost function ApplyLabel(s: State, op: LabelOp): State
    requires Core(s) && LabelAllowed(s, op)
  {
    match op
    case OpCreateLabel(u, name, parent, labelType) => CreateLabel(s, u, name, parent, labelType).state
    case OpUpdateLabel(u, id, name, parent) => OwnLabelStored(s, u, id); UpdateLabel(s, u, id, name, parent).state
    case OpDeleteLabel(u, id, order) => DeleteLabel(s, u, id, order).state
  }

  ghost function ApplyMail(s: State, op: MailOp): State
    requires Core(s) && MailAllowed(s, op)
  {
    match op
    case OpCreateMessage(u, addrID, content, flags, unread, starred) => CreateMessage(s, u, addrID, content, flags, unread, starred).state
    case OpCreateDraft(u, addrID, content, unread, parent, action) => CreateDraft(s, u, addrID, content, unread, parent, action).state
    case OpUpdateDraft(u, id, changes) => UpdateDraft(s, u, id, changes).state
    case OpEditMessages(u, edit, ids) => EditMessages(s, u, edit, ids).state
    case OpDeleteMessage(u, id) => DeleteMessageKeeps(s, u, id); DeleteMessage(s, u, id).state
    case OpCreateAttachment(u, id, filename, contentID, inline, data) =>
      CreateAttachmentKeeps(s, u, id, filename, contentID, inline, data);
      CreateAttachment(s, u, id, filename, contentID, inline, data).state
    case OpSendMessage(u, id, ds) =>
      assert u in s.accounts ==> SendIsSafe(s, id) by { SendingIsSafe(s, id); }
      SendMessage(s, u, id, ds).state
  }

  lemma OwnLabelStored(s: State, u: Id, id: Id)
    requires Core(s)
    ensures Live(s, u, LabelKey(id)) ==> id in s.labels
  {
    assert Live(s, u, LabelKey(id)) ==> Present(s, u, LabelKey(id));
  }

  // ---------------------------------------------------------------------
  // Labels are left alone by everything but label calls and RemoveUser

  ghost predicate SameLabels(s: State, t: State) {
    && t.labels == s.labels && t.accounts.Keys == s.accounts.Keys
    && forall w | w in t.accounts :: t.accounts[w].labelIDs == s.accounts[w].labelIDs
  }

  lemma {:induction false} ReorderSameLabels(s: State, u: Id, ids: seq<Id>, i: nat)
    requires u in s.accounts && i <= |ids|
    ensures SameLabels(s, Reorder(s, u, ids, i).state)
    decreases |ids| - i
  {
    hide WithOrder;
    if i < |ids| && ids[i] in s.accounts[u].addresses {
      WithOrderSameLabels(s, u, ids[i], i + 1);
      ReorderSameLabels(WithOrder(s, u, ids[i], i + 1), u, ids, i + 1);
    }
  }

  lemma WithOrderSameLabels(s: State, u: Id, id: Id, order: int)
    requires u in s.accounts && id in s.accounts[u].addresses
    ensures SameLabels(s, WithOrder(s, u, id, order))
  {
    hide Log;
    LogSameLabels(s, u, Updated(AddressKey(id)));
  }

  lemma {:induction false} EditAllSameLabels(s: State, u: Id, e: Edit, ids: seq<Id>)
    requires u in s.accounts && EditIsSafe(s, e, ids)
    ensures SameLabels(s, EditAll(s, u, e, ids))
    decreases ids
  {
    hide EditMessage;
    if ids != [] {
      assert ids[0] in ids;
      assert forall id :: id in ids[1..] ==> id in ids;
      if ids[0] in s.messages {
        EditSafeAfter(s, u, e, ids);
        var t := TouchMessage(s, u, ids[0], EditMessage(s.messages[ids[0]], e, s.labels));
        assert SameLabels(s, t);
        EditAllSameLabels(t, u, e, ids[1..]);
      } else {
        EditAllSameLabels(s, u, e, ids[1..]);
      }
    }
  }

  lemma CopySameLabels(s: State, id: Id, ids: seq<Id>)
    requires id in s.messages && forall a :: a in ids ==> a in s.attachments
    ensures CopyAttachments(s, id, ids).labels == s.labels
    decreases ids
  {
    if ids != [] {
      CopySameLabels(CopyAttachment(s, id, ids[0]), id, ids[1..]);
    }
  }

  lemma StoreCopySameLabels(s: State, id: Id, addrID: Id, body: string, n: nat)
    requires AttachmentsKnown(s, id) && n <= |s.messages[id].attIDs|
    ensures StoreCopy(s, id, addrID, body, n).labels == s.labels
  {
    CopySameLabels(s.(messages := s.messages[Uuid(s.nextUuid) := ReceivedFrom(s.messages[id], addrID, body)], nextUuid := s.nextUuid + 1),
                   Uuid(s.nextUuid), s.messages[id].attIDs[..n]);
  }

  lemma DeliverOneSameLabels(s: State, id: Id, d: Delivery)
    requires AttachmentsKnown(s, id) && Resolves(s, d)
    ensures SameLabels(s, DeliverOne(s, id, d).state)
  {
    hide StoreCopy, SortAttachments;
    if d.Deliver? {
      StoreCopySameLabels(s, id, d.addrID, d.body, if d.goodKeys < |s.messages[id].attIDs| then d.goodKeys else |s.messages[id].attIDs|);
    }
  }

  lemma {:induction false} DeliverAllSameLabels(s: State, id: Id, ds: seq<Delivery>)
    requires AttachmentsKnown(s, id) && AllResolve(s, id, ds)
    ensures SameLabels(s, DeliverAll(s, id, ds).state)
    decreases ds
  {
    hide DeliverOne;
    if ds != [] {
      DeliverOneSameLabels(s, id, ds[0]);
      if DeliverOne(s, id, ds[0]).ok {
        DeliverAllSameLabels(DeliverOne(s, id, ds[0]).state, id, ds[1..]);
      }
    }
  }

  lemma MarkSentSameLabels(s: State, u: Id, id: Id)
    requires u in s.accounts && SendIsSafe(s, id)
    ensures SameLabels(s, MarkSent(s, u, id))
  {
    hide Filed, Log, MarkSent, TouchMessage;
    var sent := Sent(s, id);
    var t := s.(messages := s.messages[id := sent]);
    MarkSentIs(s, u, id);
    if sent.parent in t.messages {
      TouchSameLabels(t, u, sent.parent, t.messages[sent.parent].(flags := t.messages[sent.parent].flags + ReplyFlag(sent.action)));
    }
    LogSameLabels(MarkParent(t, u, sent.parent, sent.action), u, Updated(MessageKey(id)));
  }

  lemma DeleteSameLabels(s: State, u: Id, id: Id)
    requires u in s.accounts && id in s.messages ==> Droppable(s, [id])
    ensures SameLabels(s, DeleteMessage(s, u, id).state)
  {
    if u in s.accounts && id in s.messages {
      assert Droppable(s, [id]);
      DropSameLabels(s, id);
      hide DropMessage, Log, SameLabels;
      var t := DropMessage(s, id);
      LogSameLabels(t, u, Deleted(MessageKey(id)));
      var r := Log(t, u, Deleted(MessageKey(id)));
      ListSameLabels(s, t, r, u, Without(r.accounts[u].messageIDs, id));
    }
  }

  lemma DropSameLabels(s: State, id: Id)
    requires id in s.messages && NoDup(s.messages[id].attIDs) && forall a :: a in s.messages[id].attIDs ==> a in s.attachments
    ensures SameLabels(s, DropMessage(s, id)) && DropMessage(s, id).accounts == s.accounts
  {
    hide FreeAll;
  }

  lemma ListSameLabels(s: State, t: State, r: State, u: Id, ids: seq<Id>)
    requires SameLabels(s, t) && SameLabels(t, r) && u in r.accounts
    ensures SameLabels(s, WithAccount(r, u, r.accounts[u].(messageIDs := ids)))
  {}

  lemma AttachSameLabels(s: State, u: Id, id: Id, filename: string, contentID: string, inline: bool, data: string)
    requires u in s.accounts ==> AttachmentsKnown(s, id)
    ensures SameLabels(s, CreateAttachment(s, u, id, filename, contentID, inline, data).state)
  {
    hide SortAttachments;
  }

  lemma SendSameLabels(s: State, u: Id, id: Id, ds: seq<Delivery>)
    requires u in s.accounts ==> SendIsSafe(s, id) && AllResolve(MarkSent(s, u, id), id, ds)
    ensures SameLabels(s, SendMessage(s, u, id, ds).state)
  {
    hide MarkSent, DeliverAll;
    if u in s.accounts {
      MarkSentSameLabels(s, u, id);
      DeliverAllSameLabels(MarkSent(s, u, id), id, ds);
    }
  }

  lemma EditSameLabels(s: State, u: Id, e: Edit, ids: seq<Id>)
    requires u in s.accounts && EditAllowed(e) ==> EditIsSafe(s, e, ids)
    ensures SameLabels(s, EditMessages(s, u, e, ids).state)
  {
    hide EditAll;
    if u in s.accounts && EditAllowed(e) {
      EditAllSameLabels(s, u, e, ids);
    }
  }

  lemma AddSameLabels(s: State, u: Id, msg: Message)
    requires u in s.accounts
    ensures SameLabels(s, AddMessage(s, u, msg))
  {}

  lemma TouchSameLabels(s: State, u: Id, id: Id, msg: Message)
    requires u in s.accounts
    ensures SameLabels(s, TouchMessage(s, u, id, msg))
  {}

  lemma DraftSameLabels(s: State, op: MailOp)
    requires Core(s) && MailAllowed(s, op) && (op.OpCreateMessage? || op.OpCreateDraft? || op.OpUpdateDraft?)
    ensures SameLabels(s, ApplyMail(s, op))
  {
    hide Core, Filed, ApplyChanges, HasDuplicate, AddMessage, TouchMessage;
    if op.u in s.accounts {
      forall msg ensures SameLabels(s, AddMessage(s, op.u, msg)) { AddSameLabels(s, op.u, msg); }
      forall id, msg ensures SameLabels(s, TouchMessage(s, op.u, id, msg)) { TouchSameLabels(s, op.u, id, msg); }
    }
  }

  lemma MailSameLabels(s: State, op: MailOp)
    requires Core(s) && MailAllowed(s, op)
    ensures SameLabels(s, ApplyMail(s, op))
  {
    hide Core, SameLabels, SendMessage, EditMessages, DeleteMessage, CreateAttachment;
    match op
    case OpEditMessages(u, edit, ids) =>
      EditSameLabels(s, u, edit, ids);
    case OpDeleteMessage(u, id) =>
      DeleteMessageKeeps(s, u, id);
      DeleteSameLabels(s, u, id);
    case OpCreateAttachment(u, id, filename, contentID, inline, data) =>
      CreateAttachmentKeeps(s, u, id, filename, contentID, inline, data);
      AttachSameLabels(s, u, id, filename, contentID, inline, data);
    case OpSendMessage(u, id, ds) =>
      SendingIsSafe(s, id);
      SendSameLabels(s, u, id, ds);
    case _ =>
      DraftSameLabels(s, op);
  }

  // ---------------------------------------------------------------------
  // Each call

  /** The call resets or ends the account's log. */
  predicate Resets(op: Op, w: Id) {
    op == OnUser(OpRemoveUser(w)) || op == OnUser(OpRefreshUser(w, RefreshAll))
  }

  /** The call keeps the invariant, and each account's log tells what changed
      for it, unless the call resets or ends that log. */
  ghost predicate StepOk(s: State, op: Op, t: State) {
    && Inv(t)
    && forall w | w in s.accounts && !Resets(op, w) :: w in t.accounts && Tells(s, t, w, {})
  }

  lemma KeptStepOk(s: State, op: Op, t: State)
    requires Inv(s) && Kept(s, t) && FamilyOk(t) && forall w | w in s.accounts && !Resets(op, w) :: w in t.accounts
    ensures StepOk(s, op, t)
  {
    hide Core, ThreadsOk, FamilyOk, Tells;
  }

  lemma SameLabelsStepOk(s: State, op: Op, t: State)
    requires Inv(s) && Kept(s, t) && SameLabels(s, t)
    ensures StepOk(s, op, t)
  {
    hide Core, Kept, ThreadsOk, FamilyOk, Inv;
    InvParts(s);
    SameFamilies(s, t);
    KeptStepOk(s, op, t);
  }

  lemma MailStep(s: State, op: MailOp)
    requires Inv(s) && MailAllowed(s, op)
    ensures StepOk(s, OnMail(op), ApplyMail(s, op))
  {
    hide Core, Kept, SameLabels, FamilyOk, SendMessage, EditMessages, DeleteMessage, CreateAttachment, CreateMessage, CreateDraft, UpdateDraft;
    match op {
    case OpCreateMessage(u, addrID, content, flags, unread, starred) =>
      CreateMessageKeeps(s, u, addrID, content, flags, unread, starred);
    case OpCreateDraft(u, addrID, content, unread, parent, action) =>
      CreateDraftKeeps(s, u, addrID, content, unread, parent, action);
    case OpUpdateDraft(u, id, changes) =>
      UpdateDraftKeeps(s, u, id, changes);
    case OpEditMessages(u, edit, ids) =>
      EditMessagesKeeps(s, u, edit, ids);
    case OpDeleteMessage(u, id) =>
      DeleteMessageKeeps(s, u, id);
    case OpCreateAttachment(u, id, filename, contentID, inline, data) =>
      CreateAttachmentKeeps(s, u, id, filename, contentID, inline, data);
    case OpSendMessage(u, id, ds) =>
      SendingIsSafe(s, id);
      SentThread(s, u, id);
      SendMessageKeeps(s, u, id, ds);
    }
    MailSameLabels(s, op);
    SameLabelsStepOk(s, OnMail(op), ApplyMail(s, op));
  }

  lemma SentThread(s: State, u: Id, id: Id)
    requires ThreadsOk(s)
    ensures Live(s, u, MessageKey(id)) && id in s.messages && s.messages[id].parent in s.messages ==>
      Live(s, u, MessageKey(s.messages[id].parent))
  {
    assert MessageParentOwned(s, u, id) || !Live(s, u, MessageKey(id));
  }

  lemma LabelStep(s: State, op: LabelOp)
    requires Inv(s) && LabelAllowed(s, op)
    ensures StepOk(s, OnLabel(op), ApplyLabel(s, op))
  {
    hide Core, Kept, FamilyOk, ThreadsOk, CreateLabel, UpdateLabel, DropLabels;
    InvParts(s);
    NothingKeeps(s);
    var t := ApplyLabel(s, op);
    match op {
    case OpCreateLabel(u, name, parent, labelType) =>
      CreateLabelKeeps(s, u, name, parent, labelType);
      CreateLabelFamily(s, u, name, parent, labelType);
      CreateLabelAccounts(s, u, name, parent, labelType);
    case OpUpdateLabel(u, id, name, parent) =>
      OwnLabelStored(s, u, id);
      UpdateLabelKeeps(s, u, id, name, parent);
      UpdateLabelAccounts(s, u, id, name, parent);
      if u in s.accounts && ParentAllowed(s, parent, s.labels[id].labelType) {
        UpdateLabelFamily(s, u, id, name, parent);
      }
    case OpDeleteLabel(u, id, order) =>
      if u in s.accounts && id in s.labels {
        SubtreeOwned(s, u, id, order);
        DropLabelsKeeps(s, u, order);
        DropLabelsFamily(s, u, id, order);
      }
    }
    KeptStepOk(s, OnLabel(op), t);
  }

  lemma CreateLabelAccounts(s: State, u: Id, name: string, parent: Id, labelType: LabelType)
    ensures CreateLabel(s, u, name, parent, labelType).state.accounts.Keys == s.accounts.Keys
  {}

  lemma UpdateLabelAccounts(s: State, u: Id, id: Id, name: string, parent: Id)
    requires u in s.accounts ==> id in s.labels
    ensures var r := UpdateLabel(s, u, id, name, parent);
      r.state.accounts.Keys == s.accounts.Keys && (!(u in s.accounts && ParentAllowed(s, parent, s.labels[id].labelType)) ==> r.state == s)
  {}

  // ---------------------------------------------------------------------
  // Users, settings and addresses

  lemma SetMaxUpdatesKeeps(s: State, max: int)
    requires Core(s)
    ensures Kept(s, s.(maxUpdatesPerEvent := max)) && SameLabels(s, s.(maxUpdatesPerEvent := max))
  {
    hide Core, StoreOk, ThreadsOk, Tells, SameView;
    var t := s.(maxUpdatesPerEvent := max);
    CoreIsStoreOk(s);
    SameObjectsView(s, t);
    SameObjectsStoreOk(s, t);
    SameThreads(s, t);
    QuietKeepsCore(s, t);
    CoreIsLogsOk(s);
    CoreIsLogsOk(t);
    forall w | w in s.accounts ensures Tells(s, t, w, {}) {
      SameViewsTell(s, t, w, {});
    }
  }

  lemma CreateUserKeeps(s: State)
    requires Inv(s)
    ensures StepOk(s, OnUser(OpCreateUser), CreateUser(s))
  {
    hide Core, StoreOk, ThreadsOk, FamilyOk, Tells, SameView;
    InvParts(s);
    var t, u := CreateUser(s), Uuid(s.nextUuid);
    NewUserIsNew(s);
    NewUserCore(s);
    NewUserFamily(s);
    CoreIsLogsOk(s);
    CoreIsLogsOk(t);
    forall w | w in s.accounts ensures Tells(s, t, w, {}) {
      forall k ensures SameView(s, t, w, k) { NewUserView(s, w, k); }
      SameViewsTell(s, t, w, {});
    }
  }

  lemma NewUserIsNew(s: State)
    requires Core(s)
    ensures Uuid(s.nextUuid) !in s.accounts
  {}

  lemma NewUserView(s: State, w: Id, k: Key)
    requires w in s.accounts && Uuid(s.nextUuid) !in s.accounts
    ensures SameView(s, CreateUser(s), w, k)
  {}

  lemma NewUserLive(s: State)
    requires Uuid(s.nextUuid) !in s.accounts
    ensures forall w, k :: Live(CreateUser(s), w, k) <==> Live(s, w, k)
    ensures forall w, k :: Present(s, w, k) ==> Present(CreateUser(s), w, k)
    ensures forall w, k :: Present(CreateUser(s), w, k) ==> (w in s.accounts && Present(s, w, k)) || k.id in s.messages || k.id in s.labels
  {
    var t, u := CreateUser(s), Uuid(s.nextUuid);
    assert t.accounts[u] == NEW_ACCOUNT && t.messages == s.messages && t.labels == s.labels;
    assert forall w | w in s.accounts :: t.accounts[w] == s.accounts[w];
    assert forall w :: w in t.accounts <==> w in s.accounts || w == u;
    hide CreateUser;
  }

  lemma NewUserStoreOk(s: State)
    requires Core(s) && Uuid(s.nextUuid) !in s.accounts
    ensures StoreOk(CreateUser(s))
  {
    hide AttachmentsOk, Live, Present, LogsOk, UpdatesOld, EventsOk, SettingsOk;
    NewUserLive(s);
  }

  lemma NewUserLogs(s: State)
    requires LogsOk(s) && Uuid(s.nextUuid) !in s.accounts
    ensures var t := CreateUser(s);
      LogsOk(t) && LogOf(t, Uuid(s.nextUuid)) == [] && forall w | w in s.accounts :: LogOf(t, w) == LogOf(s, w)
  {
    forall w | w in s.accounts ensures CreateUser(s).accounts[w] == s.accounts[w] {}
  }

  lemma NewUserCore(s: State)
    requires Core(s) && Uuid(s.nextUuid) !in s.accounts
    ensures Core(CreateUser(s))
  {
    hide StoreOk, OwnedOk, ObjectsOld, AttachmentsOk, Live, Present;
    var t := CreateUser(s);
    NewUserStoreOk(s);
    StoreOkParts(t);
    NewUserLogs(s);
    forall w | w in t.accounts ensures LogAgrees(t, w) && SettingsAgree(t, w) {
      if w in s.accounts {
        assert KeepsObjects(s, t, w) by { NewUserKeepsObjects(s, w); }
        KeptIsFaithful(s, t, w);
        assert SettingsAgree(s, w);
      } else {
        NewUserFaithful(s);
      }
    }
  }

  lemma NewUserKeepsObjects(s: State, w: Id)
    requires w in s.accounts && Uuid(s.nextUuid) !in s.accounts
    ensures KeepsObjects(s, CreateUser(s), w)
  {}

  lemma NewUserFaithful(s: State)
    requires Uuid(s.nextUuid) !in s.accounts
    ensures Faithful([], LiveKeys(CreateUser(s), Uuid(s.nextUuid)), PresentKeys(CreateUser(s), Uuid(s.nextUuid)))
  {}

  lemma NewUserFamily(s: State)
    requires Inv(s) && Uuid(s.nextUuid) !in s.accounts
    ensures ThreadsOk(CreateUser(s)) && FamilyOk(CreateUser(s))
  {
    hide Core, Live, Forest;
    NewUserLive(s);
    var t := CreateUser(s);
    forall w, id | Live(t, w, MessageKey(id)) ensures MessageParentOwned(t, w, id) {
      assert MessageParentOwned(s, w, id);
    }
    forall w, id | Live(t, w, LabelKey(id)) ensures LabelParentOwned(t, w, id) {
      assert LabelParentOwned(s, w, id);
    }
  }

  lemma LogSameLabels(s: State, u: Id, update: Update)
    requires u in s.accounts
    ensures SameLabels(s, Log(s, u, update)) && SameLabels(s, LogAll(s, u, update))
  {}

  lemma SettingsSameLabels(s: State, u: Id, settings: Settings)
    ensures SameLabels(s, SetUserSettings(s, u, settings).state)
  {}

  lemma WithAddressSameLabels(s: State, u: Id, id: Id, address: Address, update: Update)
    requires u in s.accounts
    ensures SameLabels(s, Log(WithAddress(s, u, id, address), u, update))
    ensures SameLabels(s, Log(WithAddress(s, u, id, address).(nextUuid := s.nextUuid + 1), u, update))
  {}

  lemma CreateAddressSameLabels(s: State, u: Id, email: string, enabled: bool, asUpdate: bool, keyOk: bool)
    ensures SameLabels(s, CreateAddress(s, u, email, enabled, asUpdate, keyOk).state)
  {
    hide Log, WithAddress;
    if u in s.accounts && keyOk {
      var id := Uuid(s.nextUuid);
      WithAddressSameLabels(s, u, id, Address(email, |s.accounts[u].addresses| + 1, enabled),
                            if asUpdate then Updated(AddressKey(id)) else Created(AddressKey(id)));
    }
  }

  lemma SetAddressStatusSameLabels(s: State, u: Id, id: Id, enabled: bool)
    requires u in s.accounts ==> id in s.accounts[u].addresses
    ensures SameLabels(s, SetAddressStatus(s, u, id, enabled).state)
  {
    hide Log, WithAddress;
    if u in s.accounts {
      WithAddressSameLabels(s, u, id, s.accounts[u].addresses[id].(enabled := enabled), Updated(AddressKey(id)));
    }
  }

  lemma DropAddressSameLabels(s: State, u: Id, id: Id)
    requires u in s.accounts
    ensures SameLabels(s, DropAddress(s, u, id))
  {}

  lemma RemoveAddressSameLabels(s: State, u: Id, id: Id)
    ensures SameLabels(s, RemoveAddress(s, u, id).state)
    ensures (u in s.accounts ==> id in s.accounts[u].addresses) ==> SameLabels(s, DeleteAddress(s, u, id).state)
  {
    hide DropAddress;
    if u in s.accounts {
      DropAddressSameLabels(s, u, id);
    }
  }

  lemma SetAddressOrderSameLabels(s: State, u: Id, ids: seq<Id>, before: Id, after: Id)
    ensures SameLabels(s, SetAddressOrder(s, u, ids, before, after).state)
  {
    hide Log, Reorder;
    if u in s.accounts {
      ReorderSameLabels(s, u, ids, 0);
      LogSameLabels(Reorder(s, u, ids, 0).state, u, UserInfoUpdated);
    }
  }

  lemma RefreshStep(s: State, u: Id, flag: RefreshFlag)
    requires Inv(s)
    ensures StepOk(s, OnUser(OpRefreshUser(u, flag)), RefreshUser(s, u, flag).state)
  {
    hide Core, Kept, FamilyOk, ThreadsOk, SameLabels, Log, LogAll, StepOk;
    var t, op := RefreshUser(s, u, flag).state, OnUser(OpRefreshUser(u, flag));
    InvParts(s);
    NothingKeeps(s);
    if u !in s.accounts {
      SameLabelsReflexive(s);
      SameLabelsStepOk(s, op, t);
    } else if flag == RefreshMail {
      RefreshMailKeeps(s, u);
      LogSameLabels(s, u, Refreshed(flag));
      SameLabelsStepOk(s, op, t);
    } else {
      RestartStep(s, u);
    }
  }

  lemma LogAllKeepsMessages(s: State, u: Id, update: Update)
    requires u in s.accounts
    ensures var t := LogAll(s, u, update);
      t.messages == s.messages && t.accounts.Keys == s.accounts.Keys
      && forall w | w in s.accounts :: t.accounts[w].messageIDs == s.accounts[w].messageIDs
  {}

  lemma RestartStep(s: State, u: Id)
    requires Inv(s) && u in s.accounts
    ensures StepOk(s, OnUser(OpRefreshUser(u, RefreshAll)), LogAll(s, u, Refreshed(RefreshAll)))
  {
    hide Core, FamilyOk, ThreadsOk, Tells, LogAll;
    var t := LogAll(s, u, Refreshed(RefreshAll));
    InvParts(s);
    RefreshAllKeeps(s, u);
    LogAllKeepsMessages(s, u, Refreshed(RefreshAll));
    LogSameLabels(s, u, Refreshed(RefreshAll));
    SameThreads(s, t);
    SameFamilies(s, t);
  }

  lemma SameLabelsReflexive(s: State)
    ensures SameLabels(s, s)
  {}

  lemma RemoveUserStep(s: State, u: Id)
    requires Inv(s)
    ensures UserAllowed(s, OpRemoveUser(u)) && StepOk(s, OnUser(OpRemoveUser(u)), ApplyUser(s, OpRemoveUser(u)))
  {
    hide Core, Kept, FamilyOk, ThreadsOk, Droppable, RemoveUser, MailOk;
    InvParts(s);
    RemoveUserKeeps(s, u);
    var t := RemoveUser(s, u).state;
    if u in s.accounts {
      RemoveUserIs(s, u);
      RemoveUserFamily(s, t, u);
      RemovedAccounts(s, t, u);
    } else {
      NobodyRemoved(s, u);
    }
    KeptStepOk(s, OnUser(OpRemoveUser(u)), t);
  }

  lemma AddressStep(s: State, op: UserOp)
    requires Inv(s) && UserAllowed(s, op)
    requires op.OpCreateAddress? || op.OpSetAddressStatus? || op.OpDeleteAddress? || op.OpRemoveAddress? || op.OpSetAddressOrder?
    ensures StepOk(s, OnUser(op), ApplyUser(s, op))
  {
    hide Core, Kept, SameLabels, FamilyOk, ThreadsOk, CreateAddress, SetAddressStatus, DeleteAddress, RemoveAddress, SetAddressOrder, Reorder, StepOk;
    InvParts(s);
    match op {
    case OpCreateAddress(u, email, enabled, asUpdate, keyOk) =>
      CreateAddressKeeps(s, u, email, enabled, asUpdate, keyOk);
      CreateAddressSameLabels(s, u, email, enabled, asUpdate, keyOk);
    case OpSetAddressStatus(u, id, enabled) =>
      SetAddressStatusKeeps(s, u, id, enabled);
      SetAddressStatusSameLabels(s, u, id, enabled);
    case OpDeleteAddress(u, id) =>
      RemoveAddressKeeps(s, u, id);
      RemoveAddressSameLabels(s, u, id);
    case OpRemoveAddress(u, id) =>
      RemoveAddressKeeps(s, u, id);
      RemoveAddressSameLabels(s, u, id);
    case OpSetAddressOrder(u, ids, before, after) =>
      SetAddressOrderKeeps(s, u, ids, before, after);
      SetAddressOrderSameLabels(s, u, ids, before, after);
    case _ =>
    }
    SameLabelsStepOk(s, OnUser(op), ApplyUser(s, op));
  }

  lemma UserStep(s: State, op: UserOp)
    requires Inv(s) && UserAllowed(s, op)
    ensures StepOk(s, OnUser(op), ApplyUser(s, op))
  {
    hide Core, Kept, SameLabels, FamilyOk, ThreadsOk, SetUserSettings, RefreshUser, StepOk;
    InvParts(s);
    match op {
    case OpCreateUser =>
      CreateUserKeeps(s);
    case OpRemoveUser(u) =>
      RemoveUserStep(s, u);
    case OpRefreshUser(u, flag) =>
      RefreshStep(s, u, flag);
    case OpSetUserSettings(u, settings) =>
      SetUserSettingsKeeps(s, u, settings);
      SettingsSameLabels(s, u, settings);
      SameLabelsStepOk(s, OnUser(op), SetUserSettings(s, u, settings).state);
    case OpSetMaxUpdates(max) =>
      SetMaxUpdatesKeeps(s, max);
      SameLabelsStepOk(s, OnUser(op), s.(maxUpdatesPerEvent := max));
    case _ =>
      AddressStep(s, op);
    }
  }

  // ---------------------------------------------------------------------
  // Every call, and every run

  lemma Step(s: State, op: Op)
    requires Inv(s) && Allowed(s, op)
    ensures StepOk(s, op, Apply(s, op))
  {
    hide Inv, StepOk, UserAllowed, LabelAllowed, MailAllowed, ApplyUser, ApplyLabel, ApplyMail;
    match op {
    case OnUser(o) => UserStep(s, o);
    case OnLabel(o) => LabelStep(s, o);
    case OnMail(o) => MailStep(s, o);
    }
  }

  /** States linked by allowed calls. */
  ghost predicate IsRun(states: seq<State>, ops: seq<Op>) {
    && |states| == |ops| + 1
    && forall i | 0 <= i < |ops| :: Inv(states[i]) ==> Allowed(states[i], ops[i]) && states[i + 1] == Apply(states[i], ops[i])
  }

  /** In every reachable state: logs are increasing, disjoint and agree with
      what is stored; data is stored exactly for its attachments; labels form a
      forest; and families stay within one account. */
  lemma {:induction false} RunsKeepInv(states: seq<State>, ops: seq<Op>, k: nat)
    requires IsRun(states, ops) && Inv(states[0]) && k <= |ops|
    ensures Inv(states[k])
  {
    hide Inv, Apply, Allowed;
    if k > 0 {
      RunsKeepInv(states, ops, k - 1);
      Step(states[k - 1], ops[k - 1]);
      assert states[k - 1 + 1] == Apply(states[k - 1], ops[k - 1]);
    }
  }
}
