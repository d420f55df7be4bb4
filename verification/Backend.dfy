/** The backend as the object it is: maps, and lists of IDs, changed in place
    under one lock (server/backend/backend.go, server/backend/api.go). Every
    call is proved against its specification in Operations. */
module Backend {
  import opened Ids
  import opened Updates
  import opened EventLog
  import EventIds
  import opened Locations
  import opened LabelForest
  import opened Records
  import opened Attachments
  import opened Operations
  import opened Invariants
  import opened Events
  import opened MailSteps

  class UnsafeBackend {
    var accounts: map<Id, Account>
    var messages: map<Id, Message>
    var labels: map<Id, Label>
    var attachments: map<Id, Attachment>
    var attData: map<Id, string>
    var updates: map<nat, Update>
    var maxUpdatesPerEvent: int
    var enableDedup: bool
    var nextUuid: nat

    function View(): State
      reads this
    {
      State(accounts, messages, labels, attachments, attData, updates, maxUpdatesPerEvent, enableDedup, nextUuid)
    }

    constructor (dedup: bool)
      ensures View() == NewBackend(dedup)
    {
      accounts, messages, labels, attachments, attData, updates := map[], map[], map[], map[], map[], map[];
      maxUpdatesPerEvent, enableDedup, nextUuid := 0, dedup, 0;
    }

    // -------------------------------------------------------------------
    // newUpdate and UUIDs

    method NewUuid() returns (id: Id)
      modifies this
      ensures id == old(Uuid(nextUuid)) && View() == old(View()).(nextUuid := old(nextUuid) + 1)
    {
      id := Uuid(nextUuid);
      nextUuid := nextUuid + 1;
    }

    /** Creates the update and appends it to the account's log. */
    method NewUpdate(u: Id, update: Update)
      requires u in accounts
      modifies this
      ensures View() == Log(old(View()), u, update)
    {
      var updateID := |updates|;
      updates := updates[updateID := update];
      accounts := accounts[u := accounts[u].(updateIDs := accounts[u].updateIDs + [updateID])];
    }

    // -------------------------------------------------------------------
    // Users and settings

    method CreateUser() returns (userID: Id)
      modifies this
      ensures userID == old(Uuid(nextUuid)) && View() == Operations.CreateUser(old(View()))
    {
      userID := NewUuid();
      accounts := accounts[userID := NEW_ACCOUNT];
    }

    method RefreshUser(u: Id, flag: RefreshFlag) returns (ok: bool)
      modifies this
      ensures Reply(View(), ok) == Operations.RefreshUser(old(View()), u, flag)
    {
      if u !in accounts {
        return false;
      }
      if flag == RefreshAll {
        var updateID := |updates|;
        updates := updates[updateID := Refreshed(flag)];
        accounts := accounts[u := accounts[u].(updateIDs := [updateID])];
      } else {
        NewUpdate(u, Refreshed(flag));
      }
      return true;
    }

    method SetUserSettingsTelemetry(u: Id, telemetry: bool) returns (ok: bool)
      modifies this
      ensures u in old(accounts) ==>
        Reply(View(), ok) == Operations.SetUserSettings(old(View()), u, old(accounts[u].settings).(telemetry := telemetry))
      ensures u !in old(accounts) ==> !ok && View() == old(View())
    {
      if u !in accounts {
        return false;
      }
      accounts := accounts[u := accounts[u].(settings := accounts[u].settings.(telemetry := telemetry))];
      NewUpdate(u, SettingsUpdated(accounts[u].settings));
      return true;
    }

    method SetUserSettingsCrashReports(u: Id, crashReports: bool) returns (ok: bool)
      modifies this
      ensures u in old(accounts) ==>
        Reply(View(), ok) == Operations.SetUserSettings(old(View()), u, old(accounts[u].settings).(crashReports := crashReports))
      ensures u !in old(accounts) ==> !ok && View() == old(View())
    {
      if u !in accounts {
        return false;
      }
      accounts := accounts[u := accounts[u].(settings := accounts[u].settings.(crashReports := crashReports))];
      NewUpdate(u, SettingsUpdated(accounts[u].settings));
      return true;
    }

    // -------------------------------------------------------------------
    // Attachments and their data

    /** The loop that deletes attachments, and data with its last user. */
    method DeleteAttachments(ids: seq<Id>)
      requires NoDup(ids) && forall a :: a in ids ==> a in attachments
      modifies this`attachments, this`attData
      ensures (attachments, attData) == FreeAll(old(attachments), old(attData), ids)
    {
      for i := 0 to |ids|
        invariant NoDup(ids[i..]) && forall a :: a in ids[i..] ==> a in attachments
        invariant FreeAll(attachments, attData, ids[i..]) == FreeAll(old(attachments), old(attData), ids)
      {
        assert ids[i..][0] == ids[i] && ids[i..][1..] == ids[i + 1..];
        var dataID := attachments[ids[i]].dataID;
        if |Users(attachments, dataID)| == 1 {
          attData := attData - {dataID};
        }
        attachments := attachments - {ids[i]};
      }
    }

    method DropMessage(id: Id)
      requires id in messages && NoDup(messages[id].attIDs)
      requires forall a :: a in messages[id].attIDs ==> a in attachments
      modifies this`attachments, this`attData, this`messages
      ensures View() == Operations.DropMessage(old(View()), id)
    {
      DeleteAttachments(messages[id].attIDs);
      messages := messages - {id};
    }

    method RemoveUser(u: Id) returns (ok: bool)
      requires u in accounts ==>
        Droppable(View().(labels := labels - Elements(accounts[u].labelIDs)), accounts[u].messageIDs)
      modifies this
      ensures Reply(View(), ok) == Operations.RemoveUser(old(View()), u)
    {
      if u !in accounts {
        return false;
      }
      var user := accounts[u];
      for i := 0 to |user.labelIDs|
        invariant View() == old(View()).(labels := old(labels) - Elements(user.labelIDs[..i]))
      {
        assert user.labelIDs[..i + 1] == user.labelIDs[..i] + [user.labelIDs[i]];
        assert Elements(user.labelIDs[..i + 1]) == Elements(user.labelIDs[..i]) + {user.labelIDs[i]};
        labels := labels - {user.labelIDs[i]};
      }
      assert user.labelIDs[..|user.labelIDs|] == user.labelIDs;
      ghost var start := View();
      for i := 0 to |user.messageIDs|
        invariant accounts == old(accounts)
        invariant Droppable(View(), user.messageIDs[i..])
        invariant DropMessages(View(), user.messageIDs[i..]) == DropMessages(start, user.messageIDs)
      {
        assert user.messageIDs[i..][0] == user.messageIDs[i] && user.messageIDs[i..][1..] == user.messageIDs[i + 1..];
        DropMessage(user.messageIDs[i]);
      }
      accounts := accounts - {u};
      return true;
    }

    method DeleteMessage(u: Id, id: Id) returns (ok: bool)
      requires u in accounts && id in messages ==> Droppable(View(), [id])
      modifies this
      ensures Reply(View(), ok) == Operations.DeleteMessage(old(View()), u, id)
    {
      if u !in accounts || id !in messages {
        return false;
      }
      assert Droppable(View(), [id]);
      DropMessage(id);
      NewUpdate(u, Deleted(MessageKey(id)));
      accounts := accounts[u := accounts[u].(messageIDs := Without(accounts[u].messageIDs, id))];
      return true;
    }

    // -------------------------------------------------------------------
    // Addresses

    /** `keyOk`: no key is asked for, or one is made. */
    method CreateAddress(u: Id, email: string, enabled: bool, asUpdate: bool, keyOk: bool) returns (ok: bool)
      modifies this
      ensures Reply(View(), ok) == Operations.CreateAddress(old(View()), u, email, enabled, asUpdate, keyOk)
    {
      if u !in accounts || !keyOk {
        return false;
      }
      var addressID := NewUuid();
      var addresses := accounts[u].addresses;
      accounts := accounts[u := accounts[u].(addresses := addresses[addressID := Address(email, |addresses| + 1, enabled)])];
      NewUpdate(u, if asUpdate then Updated(AddressKey(addressID)) else Created(AddressKey(addressID)));
      return true;
    }

    /** EnableAddress and DisableAddress. */
    method SetAddressStatus(u: Id, id: Id, enabled: bool) returns (ok: bool)
      requires u in accounts ==> id in accounts[u].addresses
      modifies this
      ensures Reply(View(), ok) == Operations.SetAddressStatus(old(View()), u, id, enabled)
    {
      if u !in accounts {
        return false;
      }
      var addresses := accounts[u].addresses;
      accounts := accounts[u := accounts[u].(addresses := addresses[id := addresses[id].(enabled := enabled)])];
      NewUpdate(u, Updated(AddressKey(id)));
      return true;
    }

    method DeleteAddress(u: Id, id: Id) returns (ok: bool)
      requires u in accounts ==> id in accounts[u].addresses
      modifies this
      ensures Reply(View(), ok) == Operations.DeleteAddress(old(View()), u, id)
    {
      if u !in accounts || accounts[u].addresses[id].enabled {
        return false;
      }
      accounts := accounts[u := accounts[u].(addresses := accounts[u].addresses - {id})];
      NewUpdate(u, Deleted(AddressKey(id)));
      return true;
    }

    method RemoveAddress(u: Id, id: Id) returns (ok: bool)
      modifies this
      ensures Reply(View(), ok) == Operations.RemoveAddress(old(View()), u, id)
    {
      if u !in accounts || id !in accounts[u].addresses {
        return false;
      }
      accounts := accounts[u := accounts[u].(addresses := accounts[u].addresses - {id})];
      NewUpdate(u, Deleted(AddressKey(id)));
      return true;
    }

    /** Some address of order 1. */
    method Primary(u: Id) returns (id: Id)
      requires u in accounts && HasPrimary(accounts[u])
      ensures IsPrimary(accounts[u], id)
    {
      ghost var p :| IsPrimary(accounts[u], p);
      id :| id in accounts[u].addresses && accounts[u].addresses[id].order == 1;
    }

    method SetAddressOrder(u: Id, ids: seq<Id>) returns (ok: bool, ghost before: Id, ghost after: Id)
      requires u in accounts ==> HasPrimary(accounts[u])
      requires u in accounts ==> var r := Reorder(View(), u, ids, 0); r.ok ==> HasPrimary(r.state.accounts[u])
      modifies this
      ensures u in old(accounts) ==> IsPrimary(old(accounts[u]), before)
      ensures u in old(accounts) && ok ==> u in accounts && IsPrimary(accounts[u], after)
      ensures Reply(View(), ok) == Operations.SetAddressOrder(old(View()), u, ids, before, after)
    {
      before, after := NoId, NoId;
      if u !in accounts {
        return false, before, after;
      }
      var primaryID := Primary(u);
      before := primaryID;
      ghost var start := View();
      for i := 0 to |ids|
        invariant u in accounts
        invariant Reorder(View(), u, ids, i) == Reorder(start, u, ids, 0)
      {
        if ids[i] !in accounts[u].addresses {
          return false, before, after;
        }
        var address := accounts[u].addresses[ids[i]];
        if address.order != i + 1 {
          NewUpdate(u, Updated(AddressKey(ids[i])));
        }
        accounts := accounts[u := accounts[u].(addresses := accounts[u].addresses[ids[i] := address.(order := i + 1)])];
      }
      var newPrimaryID := Primary(u);
      after := newPrimaryID;
      if primaryID != newPrimaryID {
        NewUpdate(u, UserInfoUpdated);
      }
      return true, before, after;
    }

    // -------------------------------------------------------------------
    // Labels

    method CreateLabel(u: Id, name: string, parent: Id, labelType: LabelType) returns (ok: bool)
      modifies this
      ensures Reply(View(), ok) == Operations.CreateLabel(old(View()), u, name, parent, labelType)
    {
      if u !in accounts {
        return false;
      }
      if parent != NoId {
        if labelType != FolderType {
          return false;
        }
        if parent !in labels {
          return false;
        }
      }
      var labelID := NewUuid();
      labels := labels[labelID := Label(name, parent, labelType)];
      NewUpdate(u, Created(LabelKey(labelID)));
      accounts := accounts[u := accounts[u].(labelIDs := accounts[u].labelIDs + [labelID])];
      return true;
    }

    method UpdateLabel(u: Id, id: Id, name: string, parent: Id) returns (ok: bool)
      requires u in accounts ==> id in labels
      modifies this
      ensures Reply(View(), ok) == Operations.UpdateLabel(old(View()), u, id, name, parent)
    {
      if u !in accounts {
        return false;
      }
      if parent != NoId {
        if labels[id].labelType != FolderType {
          return false;
        }
        if parent !in labels {
          return false;
        }
      }
      ghost var start := View();
      var changed := labels[id].(name := name);
      labels := labels[id := changed.(parent := parent)];
      assert View() == start.(labels := start.labels[id := start.labels[id].(name := name, parent := parent)]);
      hide Log;
      NewUpdate(u, Updated(LabelKey(id)));
      return true;
    }

    method DeleteLabel(u: Id, id: Id) returns (ok: bool, ghost order: seq<Id>)
      requires Forest(labels)
      modifies this
      ensures u in old(accounts) && id in old(labels) ==> IsSubtree(old(labels), id, order)
      ensures Reply(View(), ok) == Operations.DeleteLabel(old(View()), u, id, order)
    {
      order := [];
      if u !in accounts || id !in labels {
        return false, order;
      }
      ghost var rank :| RankOk(labels, rank);
      ghost var bound := RankBound(labels.Keys, rank);
      var ids := GetLabelIDsToDelete(id, labels, rank, bound);
      order := ids;
      ghost var start := View();
      for i := 0 to |ids|
        invariant u in accounts
        invariant DropLabels(View(), u, ids[i..]) == DropLabels(start, u, ids)
      {
        assert ids[i..][0] == ids[i] && ids[i..][1..] == ids[i + 1..];
        DropLabel(u, ids[i]);
      }
      return true, order;
    }

    method DropLabel(u: Id, id: Id)
      requires u in accounts
      modifies this
      ensures View() == Operations.DropLabel(old(View()), u, id)
    {
      labels := labels - {id};
      NewUpdate(u, Deleted(LabelKey(id)));
      accounts := accounts[u := accounts[u].(labelIDs := Without(accounts[u].labelIDs, id))];
    }

    // -------------------------------------------------------------------
    // Messages

    /** The search for a message that enableDedup takes for the same. */
    method FindDuplicate(msg: Message) returns (found: bool)
      ensures found <==> HasDuplicate(View(), msg)
    {
      var todo := messages.Keys;
      while todo != {}
        invariant todo <= messages.Keys
        invariant forall id :: id in messages && id !in todo ==> !SameMail(messages[id], msg)
        decreases todo
      {
        var id :| id in todo;
        if SameMail(messages[id], msg) {
          return true;
        }
        todo := todo - {id};
      }
      return false;
    }

    method CreateMessage(u: Id, addrID: Id, content: Content, flags: set<Flag>, unread: bool, starred: bool) returns (ok: bool)
      modifies this
      ensures Reply(View(), ok) == Operations.CreateMessage(old(View()), u, addrID, content, flags, unread, starred)
    {
      if u !in accounts {
        return false;
      }
      var msg := Message(addrID, NEW_FILING.(starred := starred), [], NoId, ReplyAction, content.(externalID := ""), flags, unread);
      var foundDuplicate := false;
      if enableDedup {
        foundDuplicate := FindDuplicate(msg);
      }
      if !foundDuplicate {
        Insert(u, msg);
      }
      return true;
    }

    /** Stores, logs and lists a new message. */
    method Insert(u: Id, msg: Message)
      requires u in accounts
      modifies this
      ensures View() == AddMessage(old(View()), u, msg)
    {
      var id := NewUuid();
      messages := messages[id := msg];
      List(u, id);
    }

    /** Logs and lists a stored message. */
    method List(u: Id, id: Id)
      requires u in accounts
      modifies this
      ensures View() == ListMessage(old(View()), u, id)
    {
      NewUpdate(u, Created(MessageKey(id)));
      accounts := accounts[u := accounts[u].(messageIDs := accounts[u].messageIDs + [id])];
    }

    method CreateDraft(u: Id, addrID: Id, content: Content, unread: bool, parent: Id, action: DraftAction) returns (ok: bool)
      modifies this
      ensures Reply(View(), ok) == Operations.CreateDraft(old(View()), u, addrID, content, unread, parent, action)
    {
      if u !in accounts {
        return false;
      }
      var internalParentID := NoId;
      if parent in messages {
        internalParentID := parent;
      }
      Insert(u, Message(addrID, Filed(NEW_FILING, DRAFTS, labels), [], internalParentID, action, content, {}, unread));
      return true;
    }

    method UpdateDraft(u: Id, id: Id, changes: Changes) returns (ok: bool)
      modifies this
      ensures Reply(View(), ok) == Operations.UpdateDraft(old(View()), u, id, changes)
    {
      if !ChangesAllowed(changes) || u !in accounts || id !in messages {
        return false;
      }
      Touch(u, id, messages[id].(content := ApplyChanges(messages[id].content, changes)));
      return true;
    }

    /** SetMessagesRead, SetMessagesForwarded, LabelMessages and UnlabelMessages. */
    method EditMessages(u: Id, edit: Edit, ids: seq<Id>) returns (ok: bool)
      requires u in accounts && EditAllowed(edit) ==> EditIsSafe(View(), edit, ids)
      modifies this
      ensures Reply(View(), ok) == Operations.EditMessages(old(View()), u, edit, ids)
    {
      if !EditAllowed(edit) || u !in accounts {
        return false;
      }
      ghost var start := View();
      for i := 0 to |ids|
        invariant u in accounts
        invariant EditIsSafe(View(), edit, ids[i..])
        invariant EditAll(View(), u, edit, ids[i..]) == EditAll(start, u, edit, ids)
      {
        ghost var rest := ids[i..];
        assert rest[0] == ids[i] && rest[1..] == ids[i + 1..];
        assert ids[i] in rest && forall id :: id in rest[1..] ==> id in rest;
        if ids[i] in messages {
          EditSafeAfter(View(), u, edit, rest);
          Touch(u, ids[i], EditMessage(messages[ids[i]], edit, labels));
        }
      }
      return true;
    }

    /** Changes and logs a stored message. */
    method Touch(u: Id, id: Id, msg: Message)
      requires u in accounts
      modifies this
      ensures View() == TouchMessage(old(View()), u, id, msg) && accounts.Keys == old(accounts.Keys)
    {
      messages := messages[id := msg];
      NewUpdate(u, Updated(MessageKey(id)));
    }

    // -------------------------------------------------------------------
    // Attachments and sending

    method CreateAttachment(u: Id, id: Id, filename: string, contentID: string, inline: bool, data: string) returns (ok: bool)
      requires u in accounts ==> AttachmentsKnown(View(), id)
      modifies this
      ensures Reply(View(), ok) == Operations.CreateAttachment(old(View()), u, id, filename, contentID, inline, data)
    {
      hide SortAttachments, Log;
      if (inline && contentID == "") || u !in accounts {
        return false;
      }
      var dataID := CreateAttData(data);
      var attachID := NewUuid();
      attachments := attachments[attachID := Attachment(dataID, filename, contentID)];
      var attIDs := messages[id].attIDs + [attachID];
      attIDs := SortAttachment(attachments, attIDs);
      messages := messages[id := messages[id].(attIDs := attIDs)];
      NewUpdate(u, Updated(MessageKey(id)));
      return true;
    }

    method CreateAttData(dataPacket: string) returns (attDataID: Id)
      modifies this
      ensures attDataID == old(Uuid(nextUuid))
      ensures View() == old(View()).(attData := old(attData)[attDataID := dataPacket], nextUuid := old(nextUuid) + 1)
    {
      attDataID := NewUuid();
      attData := attData[attDataID := dataPacket];
    }

    method SortMessage(id: Id)
      requires AttachmentsKnown(View(), id)
      modifies this`messages
      ensures View() == Resort(old(View()), id)
    {
      var attIDs := SortAttachment(attachments, messages[id].attIDs);
      messages := messages[id := messages[id].(attIDs := attIDs)];
    }

    /** The loop that copies the sent message's attachments; a bad key ends it. */
    method CopyAttachments(copy: Id, attIDs: seq<Id>, goodKeys: nat) returns (ok: bool)
      requires copy in messages && forall a :: a in attIDs ==> a in attachments
      modifies this
      ensures ok <==> |attIDs| <= goodKeys
      ensures View() == Operations.CopyAttachments(old(View()), copy, attIDs[..if |attIDs| <= goodKeys then |attIDs| else goodKeys])
    {
      ghost var start, m := View(), if |attIDs| <= goodKeys then |attIDs| else goodKeys;
      assert attIDs[0..m] == attIDs[..m];
      for j := 0 to |attIDs|
        invariant j <= m && copy in messages && forall a :: a in attIDs ==> a in attachments
        invariant Operations.CopyAttachments(View(), copy, attIDs[j..m]) == Operations.CopyAttachments(start, copy, attIDs[..m])
      {
        if j >= goodKeys {
          assert attIDs[j..m] == [];
          return false;
        }
        assert attIDs[j..m][0] == attIDs[j] && attIDs[j..m][1..] == attIDs[j + 1..m];
        CopyAttachment(copy, attIDs[j]);
      }
      return true;
    }

    method CopyAttachment(copy: Id, a: Id)
      requires copy in messages && a in attachments
      modifies this
      ensures View() == Operations.CopyAttachment(old(View()), copy, a)
    {
      var attachID := NewUuid();
      attachments := attachments[attachID := attachments[a]];
      messages := messages[copy := messages[copy].(attIDs := messages[copy].attIDs + [attachID])];
    }

    /** Stores the received message with copies of the attachments. */
    method StoreCopy(id: Id, addrID: Id, body: string, goodKeys: nat) returns (copy: Id, copied: bool)
      requires AttachmentsKnown(View(), id)
      modifies this
      ensures copy == old(Uuid(nextUuid)) && (copied <==> |old(messages[id].attIDs)| <= goodKeys)
      ensures var n := |old(messages[id].attIDs)|; View() == Operations.StoreCopy(old(View()), id, addrID, body, if n <= goodKeys then n else goodKeys)
    {
      hide Operations.CopyAttachments;
      var attIDs := messages[id].attIDs;
      var newMsg := ReceivedFrom(messages[id], addrID, body);
      copy := NewUuid();
      messages := messages[copy := newMsg];
      copied := CopyAttachments(copy, attIDs, goodKeys);
    }

    /** One recipient of a sent message. */
    method Deliver(id: Id, d: Delivery) returns (ok: bool)
      requires AttachmentsKnown(View(), id) && Resolves(View(), d)
      modifies this
      ensures Reply(View(), ok) == DeliverOne(old(View()), id, d)
    {
      hide SortAttachments, ListMessage, Operations.StoreCopy;
      match d
      case External => return true;
      case Unparsable => return false;
      case Nobody(_) => return false;
      case Deliver(_, to, addrID, body, goodKeys) =>
        var copy, copied := StoreCopy(id, addrID, body, goodKeys);
        if !copied {
          return false;
        }
        SortMessage(copy);
        SortMessage(id);
        List(to, copy);
        return true;
    }

    method SendMessage(u: Id, id: Id, ds: seq<Delivery>) returns (ok: bool)
      requires u in accounts ==> SendIsSafe(View(), id) && AllResolve(MarkSent(View(), u, id), id, ds)
      modifies this
      ensures Reply(View(), ok) == Operations.SendMessage(old(View()), u, id, ds)
    {
      if u !in accounts {
        return false;
      }
      SetSent(u, id);
      ghost var start := View();
      for i := 0 to |ds|
        invariant AttachmentsKnown(View(), id) && AllResolve(View(), id, ds[i..])
        invariant DeliverAll(View(), id, ds[i..]) == DeliverAll(start, id, ds)
      {
        assert ds[i..][0] == ds[i] && ds[i..][1..] == ds[i + 1..];
        var delivered := Deliver(id, ds[i]);
        if !delivered {
          return false;
        }
      }
      return true;
    }

    /** The sender's side of SendMessage. */
    method SetSent(u: Id, id: Id)
      requires u in accounts && SendIsSafe(View(), id)
      modifies this
      ensures View() == MarkSent(old(View()), u, id)
    {
      var msg := messages[id];
      msg := msg.(flags := msg.flags + {SentFlag});
      msg := msg.(filing := Filed(msg.filing, SENT, labels));
      messages := messages[id := msg];
      if msg.parent in messages {
        var parent := messages[msg.parent];
        messages := messages[msg.parent := parent.(flags := parent.flags + ReplyFlag(msg.action))];
        NewUpdate(u, Updated(MessageKey(msg.parent)));
      }
      NewUpdate(u, Updated(MessageKey(id)));
    }

    // -------------------------------------------------------------------
    // Reading

    /** The loop over the merged updates. */
    method BuildEvent(u: Id, merged: seq<Update>, eventID: nat) returns (event: Event)
      requires u in accounts
      requires forall x :: x in merged && (x.Created? || x.Updated?) ==> Readable(View(), u, x.key)
      ensures event == Events.BuildEvent(View(), u, merged, eventID)
    {
      event := Event(eventID, [], [], [], None, None, false);
      for i := 0 to |merged|
        invariant event == Events.BuildEvent(View(), u, merged[..i], eventID)
      {
        assert merged[..i + 1][..i] == merged[..i] && merged[..i + 1] == merged[..i] + [merged[i]];
        var x := merged[i];
        match x
        case Refreshed(flag) => event := event.(refresh := Some(flag));
        case SettingsUpdated(settings) => event := event.(settings := Some(settings));
        case UserInfoUpdated => event := event.(userInfo := true);
        case _ =>
          var item := ItemOf(View(), u, x);
          match x.key.kind
          case MessageKind => event := event.(messages := event.messages + [item]);
          case LabelKind => event := event.(labels := event.labels + [item]);
          case AddressKind => event := event.(addresses := event.addresses + [item]);
      }
      assert merged[..|merged|] == merged;
    }

    /** The updates the IDs stand for. */
    method ReadUpdates(ids: seq<nat>) returns (window: seq<Update>)
      requires forall id :: id in ids ==> id in updates
      ensures |window| == |ids| && forall i | 0 <= i < |ids| :: window[i] == updates[ids[i]]
    {
      window := [];
      for i := 0 to |ids|
        invariant |window| == i && forall j | 0 <= j < i :: window[j] == updates[ids[j]]
      {
        window := window + [updates[ids[i]]];
      }
    }

    static lemma LogSlice(s: State, u: Id, first: nat, last: nat, window: seq<Update>)
      requires LogsOk(s) && u in s.accounts && first <= last <= |s.accounts[u].updateIDs|
      requires forall id :: id in s.accounts[u].updateIDs ==> id in s.updates
      requires |window| == last - first
      requires forall i | 0 <= i < last - first :: window[i] == s.updates[s.accounts[u].updateIDs[first..last][i]]
      ensures window == LogOf(s, u)[first..last]
    {
      hide LogsOk;
      var ids := s.accounts[u].updateIDs;
      forall i | 0 <= i < last - first ensures window[i] == LogOf(s, u)[first..last][i] {
        assert ids[first..last][i] == ids[first + i] && ids[first + i] in ids;
      }
    }

    method ReadWindow(u: Id, eventID: nat) returns (window: seq<Update>, lastUpdate: nat)
      requires LogsOk(View()) && u in accounts
      ensures window == Window(View(), u, eventID) && lastUpdate == LastIndex(accounts[u].updateIDs, eventID, maxUpdatesPerEvent)
    {
      var updateIDs := accounts[u].updateIDs;
      var firstUpdate := IndexOf(updateIDs, eventID) + 1;
      lastUpdate := LastUpdateIndex(|updateIDs|, firstUpdate, maxUpdatesPerEvent);
      assert forall id :: id in updateIDs[firstUpdate..lastUpdate] ==> id in updateIDs;
      window := ReadUpdates(updateIDs[firstUpdate..lastUpdate]);
      LogSlice(View(), u, firstUpdate, lastUpdate, window);
    }

    method GetEvent(u: Id, rawEventID: string) returns (r: Result<(Event, bool)>)
      requires LogsOk(View())
      requires u in accounts && EventIds.FromText(rawEventID).Ok? ==> EventIsSafe(View(), u, EventIds.FromText(rawEventID).value)
      ensures r == match EventIds.FromText(rawEventID)
        case Err => Err
        case Ok(eventID) => if u !in accounts then Err else Ok(Events.GetEvent(View(), u, eventID))
    {
      hide Merge, LogsOk, LogOf, Readable, HasPrimary, Window, Events.BuildEvent;
      var eventID := EventIds.FromText(rawEventID);
      if eventID.Err? || u !in accounts {
        return Err;
      }
      var updateIDs := accounts[u].updateIDs;
      var window, lastUpdate := ReadWindow(u, eventID.value);
      var merged := Merge(window);
      var more := lastUpdate != |updateIDs|;
      var event := BuildEvent(u, merged.value, updateIDs[lastUpdate - 1]);
      return Ok((event, more));
    }
  }
}
