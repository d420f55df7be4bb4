/** The backend's calls as functions on its state (server/backend/backend.go,
    server/backend/api.go). Each runs under one lock, so each is one step. */
module Operations {
  import opened Ids
  import opened Updates
  import opened Locations
  import opened LabelForest
  import opened Records
  import opened Attachments

  /** The state after a call, and whether it returned no error. */
  datatype Reply = Reply(state: State, ok: bool)

  // ---------------------------------------------------------------------
  // Building blocks

  function WithAccount(s: State, u: Id, acc: Account): State {
    s.(accounts := s.accounts[u := acc])
  }

  /** newUpdate, and the append to the account's log. */
  function Log(s: State, u: Id, update: Update): State
    requires u in s.accounts
  {
    var id := |s.updates|;
    WithAccount(s, u, s.accounts[u].(updateIDs := s.accounts[u].updateIDs + [id])).(updates := s.updates[id := update])
  }

  function LogAll(s: State, u: Id, update: Update): State
    requires u in s.accounts
  {
    var id := |s.updates|;
    WithAccount(s, u, s.accounts[u].(updateIDs := [id])).(updates := s.updates[id := update])
  }

  /** A new message of the account: stored, logged, listed. */
  function AddMessage(s: State, u: Id, msg: Message): State
    requires u in s.accounts
  {
    var id := Uuid(s.nextUuid);
    ListMessage(s.(messages := s.messages[id := msg], nextUuid := s.nextUuid + 1), u, id)
  }

  /** Logs a stored message as created and appends it to the account's list. */
  function ListMessage(s: State, u: Id, id: Id): State
    requires u in s.accounts
  {
    var t := Log(s, u, Created(MessageKey(id)));
    WithAccount(t, u, t.accounts[u].(messageIDs := t.accounts[u].messageIDs + [id]))
  }

  function TouchMessage(s: State, u: Id, id: Id, msg: Message): State
    requires u in s.accounts
  {
    Log(s.(messages := s.messages[id := msg]), u, Updated(MessageKey(id)))
  }

  /** Removes a stored message with its attachments. */
  function DropMessage(s: State, id: Id): State
    requires id in s.messages && NoDup(s.messages[id].attIDs)
    requires forall a :: a in s.messages[id].attIDs ==> a in s.attachments
  {
    var (atts, data) := FreeAll(s.attachments, s.attData, s.messages[id].attIDs);
    s.(attachments := atts, attData := data, messages := s.messages - {id})
  }

  // ---------------------------------------------------------------------
  // Users and settings

  function CreateUser(s: State): State {
    WithAccount(s, Uuid(s.nextUuid), NEW_ACCOUNT).(nextUuid := s.nextUuid + 1)
  }

  /** Removing the messages of a user needs each of them stored, with
      attachments that are stored and not shared between messages. */
  ghost predicate Droppable(s: State, ids: seq<Id>)
    decreases ids
  {
    ids == [] || (
      && ids[0] in s.messages && NoDup(s.messages[ids[0]].attIDs)
      && (forall a :: a in s.messages[ids[0]].attIDs ==> a in s.attachments)
      && Droppable(DropMessage(s, ids[0]), ids[1..]))
  }

  function DropMessages(s: State, ids: seq<Id>): State
    requires Droppable(s, ids)
    decreases ids
  {
    if ids == [] then s else DropMessages(DropMessage(s, ids[0]), ids[1..])
  }

  function RemoveUser(s: State, u: Id): Reply
    requires u in s.accounts ==> Droppable(s.(labels := s.labels - Elements(s.accounts[u].labelIDs)), s.accounts[u].messageIDs)
  {
    if u !in s.accounts then Reply(s, false)
    else
      var acc := s.accounts[u];
      var t := DropMessages(s.(labels := s.labels - Elements(acc.labelIDs)), acc.messageIDs);
      Reply(t.(accounts := t.accounts - {u}), true)
  }

  function RefreshUser(s: State, u: Id, flag: RefreshFlag): Reply {
    if u !in s.accounts then Reply(s, false)
    else Reply(if flag == RefreshAll then LogAll(s, u, Refreshed(flag)) else Log(s, u, Refreshed(flag)), true)
  }

  /** SetUserSettingsTelemetry and SetUserSettingsCrashReports. */
  function SetUserSettings(s: State, u: Id, settings: Settings): Reply {
    if u !in s.accounts then Reply(s, false)
    else Reply(Log(WithAccount(s, u, s.accounts[u].(settings := settings)), u, SettingsUpdated(settings)), true)
  }

  // ---------------------------------------------------------------------
  // Addresses

  function WithAddress(s: State, u: Id, id: Id, address: Address): State
    requires u in s.accounts
  {
    WithAccount(s, u, s.accounts[u].(addresses := s.accounts[u].addresses[id := address]))
  }

  /** `keyOk`: no key is asked for, or one is made. */
  function CreateAddress(s: State, u: Id, email: string, enabled: bool, asUpdate: bool, keyOk: bool): Reply {
    if u !in s.accounts || !keyOk then Reply(s, false)
    else
      var id := Uuid(s.nextUuid);
      var t := WithAddress(s, u, id, Address(email, |s.accounts[u].addresses| + 1, enabled)).(nextUuid := s.nextUuid + 1);
      Reply(Log(t, u, if asUpdate then Updated(AddressKey(id)) else Created(AddressKey(id))), true)
  }

  /** EnableAddress and DisableAddress; they dereference the address. */
  function SetAddressStatus(s: State, u: Id, id: Id, enabled: bool): Reply
    requires u in s.accounts ==> id in s.accounts[u].addresses
  {
    if u !in s.accounts then Reply(s, false)
    else Reply(Log(WithAddress(s, u, id, s.accounts[u].addresses[id].(enabled := enabled)), u, Updated(AddressKey(id))), true)
  }

  function DropAddress(s: State, u: Id, id: Id): State
    requires u in s.accounts
  {
    Log(WithAccount(s, u, s.accounts[u].(addresses := s.accounts[u].addresses - {id})), u, Deleted(AddressKey(id)))
  }

  /** Only a disabled address is deleted; it dereferences the address. */
  function DeleteAddress(s: State, u: Id, id: Id): Reply
    requires u in s.accounts ==> id in s.accounts[u].addresses
  {
    if u !in s.accounts || s.accounts[u].addresses[id].enabled then Reply(s, false)
    else Reply(DropAddress(s, u, id), true)
  }

  function RemoveAddress(s: State, u: Id, id: Id): Reply {
    if u !in s.accounts || id !in s.accounts[u].addresses then Reply(s, false)
    else Reply(DropAddress(s, u, id), true)
  }

  /** One round of the loop of SetAddressOrder. */
  function WithOrder(s: State, u: Id, id: Id, order: int): (t: State)
    requires u in s.accounts && id in s.accounts[u].addresses
    ensures t.accounts.Keys == s.accounts.Keys
  {
    var address := s.accounts[u].addresses[id];
    if address.order == order then WithAddress(s, u, id, address)
    else WithAddress(Log(s, u, Updated(AddressKey(id))), u, id, address.(order := order))
  }

  /** The loop of SetAddressOrder from position i on: stops at an unknown address. */
  function Reorder(s: State, u: Id, ids: seq<Id>, i: nat): (r: Reply)
    requires u in s.accounts && i <= |ids|
    ensures r.state.accounts.Keys == s.accounts.Keys
    decreases |ids| - i
  {
    if i == |ids| then Reply(s, true)
    else if ids[i] !in s.accounts[u].addresses then Reply(s, false)
    else Reorder(WithOrder(s, u, ids[i], i + 1), u, ids, i + 1)
  }

  /** primary() may return any address of order 1, and panics without one. */
  predicate IsPrimary(acc: Account, id: Id) {
    id in acc.addresses && acc.addresses[id].order == 1
  }

  /** `before` and `after` are the primary addresses found at the two ends. */
  function SetAddressOrder(s: State, u: Id, ids: seq<Id>, before: Id, after: Id): Reply {
    if u !in s.accounts then Reply(s, false)
    else
      var r := Reorder(s, u, ids, 0);
      if r.ok && before != after then Reply(Log(r.state, u, UserInfoUpdated), true) else r
  }

  // ---------------------------------------------------------------------
  // Labels

  /** A parent is allowed for folders only, and must exist. */
  predicate ParentAllowed(s: State, parent: Id, labelType: LabelType) {
    parent == NoId || (labelType.FolderType? && parent in s.labels)
  }

  function CreateLabel(s: State, u: Id, name: string, parent: Id, labelType: LabelType): Reply {
    if u !in s.accounts || !ParentAllowed(s, parent, labelType) then Reply(s, false)
    else
      var id := Uuid(s.nextUuid);
      var t := Log(s.(labels := s.labels[id := Label(name, parent, labelType)], nextUuid := s.nextUuid + 1), u, Created(LabelKey(id)));
      Reply(WithAccount(t, u, t.accounts[u].(labelIDs := t.accounts[u].labelIDs + [id])), true)
  }

  /** It dereferences the label; whether the new parent is below the label is not checked. */
  function UpdateLabel(s: State, u: Id, id: Id, name: string, parent: Id): Reply
    requires u in s.accounts ==> id in s.labels
  {
    if u !in s.accounts || !ParentAllowed(s, parent, s.labels[id].labelType) then Reply(s, false)
    else Reply(Log(s.(labels := s.labels[id := s.labels[id].(name := name, parent := parent)]), u, Updated(LabelKey(id))), true)
  }

  function DropLabel(s: State, u: Id, id: Id): State
    requires u in s.accounts
  {
    var t := Log(s.(labels := s.labels - {id}), u, Deleted(LabelKey(id)));
    WithAccount(t, u, t.accounts[u].(labelIDs := Without(t.accounts[u].labelIDs, id)))
  }

  function DropLabels(s: State, u: Id, ids: seq<Id>): State
    requires u in s.accounts
    decreases ids
  {
    if ids == [] then s else DropLabels(DropLabel(s, u, ids[0]), u, ids[1..])
  }

  /** `order` is the subtree as the map iteration happened to list it. */
  function DeleteLabel(s: State, u: Id, id: Id, order: seq<Id>): Reply {
    if u !in s.accounts || id !in s.labels then Reply(s, false)
    else Reply(DropLabels(s, u, order), true)
  }

  // ---------------------------------------------------------------------
  // Messages

  /** What enableDedup compares. */
  predicate SameMail(m: Message, n: Message) {
    && m.addrID == n.addrID && m.content.sender == n.content.sender && m.content.subject == n.content.subject
    && m.content.to == n.content.to && m.content.cc == n.content.cc && m.content.bcc == n.content.bcc
  }

  predicate HasDuplicate(s: State, msg: Message) {
    exists id :: id in s.messages && SameMail(s.messages[id], msg)
  }

  function CreateMessage(s: State, u: Id, addrID: Id, content: Content, flags: set<Flag>, unread: bool, starred: bool): Reply {
    var msg := Message(addrID, NEW_FILING.(starred := starred), [], NoId, ReplyAction, content.(externalID := ""), flags, unread);
    if u !in s.accounts then Reply(s, false)
    else if s.enableDedup && HasDuplicate(s, msg) then Reply(s, true)
    else Reply(AddMessage(s, u, msg), true)
  }

  /** A draft is filed by its flags, and remembers a parent only if it exists. */
  function CreateDraft(s: State, u: Id, addrID: Id, content: Content, unread: bool, parent: Id, action: DraftAction): Reply {
    if u !in s.accounts then Reply(s, false)
    else
      var known := if parent in s.messages then parent else NoId;
      Reply(AddMessage(s, u, Message(addrID, Filed(NEW_FILING, DRAFTS, s.labels), [], known, action, content, {}, unread)), true)
  }

  /** The non-empty fields of a draft update. */
  datatype Changes = Changes(
    subject: string, sender: Option<string>, to: Option<seq<string>>, cc: Option<seq<string>>, bcc: Option<seq<string>>,
    body: string, mimeType: string, externalID: string)

  function Changed<T>(change: Option<T>, was: T): T { if change.Some? then change.value else was }

  function NonEmpty(change: string, was: string): string { if change != "" then change else was }

  function ApplyChanges(c: Content, ch: Changes): Content {
    Content(NonEmpty(ch.subject, c.subject), Changed(ch.sender, c.sender), Changed(ch.to, c.to), Changed(ch.cc, c.cc),
            Changed(ch.bcc, c.bcc), NonEmpty(ch.body, c.body), NonEmpty(ch.mimeType, c.mimeType), NonEmpty(ch.externalID, c.externalID))
  }

  predicate ChangesAllowed(ch: Changes) {
    ch.sender.Some? && ch.sender.value != "" && (ch.mimeType == "text/plain" || ch.mimeType == "text/html")
  }

  function UpdateDraft(s: State, u: Id, id: Id, ch: Changes): Reply {
    if !ChangesAllowed(ch) || u !in s.accounts || id !in s.messages then Reply(s, false)
    else Reply(TouchMessage(s, u, id, s.messages[id].(content := ApplyChanges(s.messages[id].content, ch))), true)
  }

  /** SetMessagesRead, SetMessagesForwarded, LabelMessages and UnlabelMessages
      make the same edit to each message in turn. */
  datatype Edit = MarkRead(read: bool) | MarkForwarded(forwarded: bool) | Put(labelID: Id) | Take(labelID: Id)

  function EditMessage(m: Message, e: Edit, labels: Labels): Message
    requires e.Put? ==> AddIsSafe(m.filing, e.labelID, labels)
  {
    match e
    case MarkRead(read) => m.(unread := !read)
    case MarkForwarded(forwarded) => m.(flags := if forwarded then m.flags + {Forwarded} else m.flags - {Forwarded})
    case Put(id) => m.(filing := Filed(m.filing, id, labels))
    case Take(id) => m.(filing := RemLabel(m.filing, id, labels))
  }

  predicate EditAllowed(e: Edit) {
    (e.Put? || e.Take?) ==> e.labelID != ALL_MAIL && e.labelID != ALL_DRAFTS && e.labelID != ALL_SENT
  }

  /** LabelMessages skips unknown messages, the others dereference them. */
  predicate EditIsSafe(s: State, e: Edit, ids: seq<Id>) {
    forall id :: id in ids ==>
      if id in s.messages then e.Put? ==> AddIsSafe(s.messages[id].filing, e.labelID, s.labels) else e.Put?
  }

  function EditAll(s: State, u: Id, e: Edit, ids: seq<Id>): State
    requires u in s.accounts && EditIsSafe(s, e, ids)
    decreases ids
  {
    if ids == [] then s
    else
      assert ids[0] in ids;
      assert forall id :: id in ids[1..] ==> id in ids;
      if ids[0] !in s.messages then EditAll(s, u, e, ids[1..])
      else EditAll(TouchMessage(s, u, ids[0], EditMessage(s.messages[ids[0]], e, s.labels)), u, e, ids[1..])
  }

  function EditMessages(s: State, u: Id, e: Edit, ids: seq<Id>): Reply
    requires u in s.accounts && EditAllowed(e) ==> EditIsSafe(s, e, ids)
  {
    if !EditAllowed(e) || u !in s.accounts then Reply(s, false) else Reply(EditAll(s, u, e, ids), true)
  }

  function DeleteMessage(s: State, u: Id, id: Id): Reply
    requires u in s.accounts && id in s.messages ==> Droppable(s, [id])
  {
    if u !in s.accounts || id !in s.messages then Reply(s, false)
    else
      assert Droppable(s, [id]);
      var t := Log(DropMessage(s, id), u, Deleted(MessageKey(id)));
      Reply(WithAccount(t, u, t.accounts[u].(messageIDs := Without(t.accounts[u].messageIDs, id))), true)
  }

  // ---------------------------------------------------------------------
  // Attachments and sending

  /** The attachment lists dereference their attachments. */
  predicate AttachmentsKnown(s: State, id: Id) {
    id in s.messages && forall a :: a in s.messages[id].attIDs ==> a in s.attachments
  }

  ghost function CreateAttachment(s: State, u: Id, id: Id, filename: string, contentID: string, inline: bool, data: string): Reply
    requires u in s.accounts ==> AttachmentsKnown(s, id)
  {
    if (inline && contentID == "") || u !in s.accounts then Reply(s, false)
    else
      var d, a := Uuid(s.nextUuid), Uuid(s.nextUuid + 1);
      var t := s.(attData := s.attData[d := data], attachments := s.attachments[a := Attachment(d, filename, contentID)], nextUuid := s.nextUuid + 2);
      var msg := s.messages[id].(attIDs := SortAttachments(t.attachments, s.messages[id].attIDs + [a]));
      Reply(TouchMessage(t, u, id, msg), true)
  }

  /** One recipient of a sent message: not internal, its body or key does not
      parse, nobody has the address, or an account `to` and address `addrID`
      that have it. `body` is the package's body armored for the recipient; the
      first `goodKeys` attachment keys parse. */
  datatype Delivery =
    | External
    | Unparsable
    | Nobody(email: string)
    | Deliver(email: string, to: Id, addrID: Id, body: string, goodKeys: nat)

  ghost predicate HasAddress(s: State, u: Id, id: Id, email: string) {
    u in s.accounts && id in s.accounts[u].addresses && s.accounts[u].addresses[id].email == email
  }

  /** What the look-ups by e-mail may find. */
  ghost predicate Resolves(s: State, d: Delivery) {
    match d
    case Nobody(email) => forall u, id :: !HasAddress(s, u, id, email)
    case Deliver(email, to, addrID, _, _) =>
      (exists id :: HasAddress(s, to, id, email)) && exists u :: HasAddress(s, u, addrID, email)
    case _ => true
  }

  /** Copies an attachment of the sent message to the received one `id`; the
      copy shares the data. */
  function CopyAttachment(s: State, id: Id, a: Id): State
    requires a in s.attachments && id in s.messages
  {
    var b := Uuid(s.nextUuid);
    s.(attachments := s.attachments[b := s.attachments[a]],
       messages := s.messages[id := s.messages[id].(attIDs := s.messages[id].attIDs + [b])],
       nextUuid := s.nextUuid + 1)
  }

  function CopyAttachments(s: State, id: Id, ids: seq<Id>): (t: State)
    requires id in s.messages && forall a :: a in ids ==> a in s.attachments
    ensures t.accounts == s.accounts && t.messages.Keys == s.messages.Keys && s.attachments.Keys <= t.attachments.Keys
    ensures forall m :: m in s.messages && m != id ==> t.messages[m] == s.messages[m]
    ensures AttachmentsKnown(s, id) ==> AttachmentsKnown(t, id)
    decreases ids
  {
    if ids == [] then s else CopyAttachments(CopyAttachment(s, id, ids[0]), id, ids[1..])
  }

  /** The received copy of a sent message. */
  function ReceivedFrom(m: Message, addrID: Id, body: string): Message {
    Message(addrID, Filing([], None, false), [], NoId, ReplyAction, m.content.(bcc := [], body := body), {Received}, true)
  }

  /** Sorts a stored message's attachment list. */
  ghost function Resort(s: State, id: Id): (t: State)
    requires AttachmentsKnown(s, id)
    ensures AttachmentsKnown(t, id)
  {
    SortKeepsOnePerKey(s.attachments, s.messages[id].attIDs);
    s.(messages := s.messages[id := s.messages[id].(attIDs := SortAttachments(s.attachments, s.messages[id].attIDs))])
  }

  /** The received message with the copies of the first `n` attachments, not
      yet sorted or listed. */
  function StoreCopy(s: State, id: Id, addrID: Id, body: string, n: nat): (t: State)
    requires AttachmentsKnown(s, id) && n <= |s.messages[id].attIDs|
    ensures t.accounts == s.accounts && AttachmentsKnown(t, Uuid(s.nextUuid)) && AttachmentsKnown(t, id)
  {
    var copy := Uuid(s.nextUuid);
    CopyAttachments(s.(messages := s.messages[copy := ReceivedFrom(s.messages[id], addrID, body)], nextUuid := s.nextUuid + 1),
                    copy, s.messages[id].attIDs[..n])
  }

  /** The received message with all attachments; both lists are sorted. */
  ghost function Delivered(s: State, id: Id, addrID: Id, body: string): (t: State)
    requires AttachmentsKnown(s, id)
    ensures t.accounts == s.accounts && AttachmentsKnown(t, id)
  {
    var t := Resort(StoreCopy(s, id, addrID, body, |s.messages[id].attIDs|), Uuid(s.nextUuid));
    assert AttachmentsKnown(t, id);
    Resort(t, id)
  }

  /** One recipient. A bad attachment key stops the call after the received
      message was stored, but before it was listed or logged. */
  ghost function DeliverOne(s: State, id: Id, d: Delivery): (r: Reply)
    requires AttachmentsKnown(s, id) && Resolves(s, d)
    ensures r.ok ==> AttachmentsKnown(r.state, id)
  {
    match d
    case External => Reply(s, true)
    case Unparsable => Reply(s, false)
    case Nobody(_) => Reply(s, false)
    case Deliver(email, to, addrID, body, goodKeys) =>
      var count := |s.messages[id].attIDs|;
      if goodKeys < count then Reply(StoreCopy(s, id, addrID, body, goodKeys), false)
      else
        Reply(ListMessage(Delivered(s, id, addrID, body), to, Uuid(s.nextUuid)), true)
  }

  /** What the look-ups of each recipient in turn find. */
  ghost predicate AllResolve(s: State, id: Id, ds: seq<Delivery>)
    requires AttachmentsKnown(s, id)
    decreases ds
  {
    ds == [] || (Resolves(s, ds[0]) && (DeliverOne(s, id, ds[0]).ok ==> AllResolve(DeliverOne(s, id, ds[0]).state, id, ds[1..])))
  }

  ghost function DeliverAll(s: State, id: Id, ds: seq<Delivery>): Reply
    requires AttachmentsKnown(s, id) && AllResolve(s, id, ds)
    decreases ds
  {
    if ds == [] then Reply(s, true)
    else
      var r := DeliverOne(s, id, ds[0]);
      if r.ok then DeliverAll(r.state, id, ds[1..]) else r
  }

  function ReplyFlag(action: DraftAction): set<Flag> {
    match action
    case ReplyAction => {Replied}
    case ReplyAllAction => {RepliedAll}
    case ForwardAction => {Forwarded}
    case OtherAction => {}
  }

  /** The sender's side of SendMessage: the message is filed as sent, and its
      parent, if it still exists, marked. */
  predicate SendIsSafe(s: State, id: Id) {
    AttachmentsKnown(s, id) && AddIsSafe(s.messages[id].filing, SENT, s.labels)
  }

  function MarkSent(s: State, u: Id, id: Id): (t: State)
    requires u in s.accounts && SendIsSafe(s, id)
    ensures AttachmentsKnown(t, id)
  {
    var msg := s.messages[id];
    var sent := msg.(flags := msg.flags + {SentFlag}, filing := Filed(msg.filing, SENT, s.labels));
    var t := s.(messages := s.messages[id := sent]);
    var t := if sent.parent !in t.messages then t
             else TouchMessage(t, u, sent.parent, t.messages[sent.parent].(flags := t.messages[sent.parent].flags + ReplyFlag(sent.action)));
    Log(t, u, Updated(MessageKey(id)))
  }

  /** SendMessage to the recipients in the order the maps list them. */
  ghost function SendMessage(s: State, u: Id, id: Id, ds: seq<Delivery>): Reply
    requires u in s.accounts ==> SendIsSafe(s, id) && AllResolve(MarkSent(s, u, id), id, ds)
  {
    if u !in s.accounts then Reply(s, false) else DeliverAll(MarkSent(s, u, id), id, ds)
  }
}
