/** The calls about messages keep the invariant, and log what changed. */
module MessageSteps {
  import opened Ids
  import opened Updates
  import opened Locations
  import opened Records
  import opened Attachments
  import opened Operations
  import opened Views
  import opened Invariants
  import opened Steps

  /** Everything but logs, settings, the message `id` of `u` and attachments no
      other message uses is the same. */
  ghost predicate OnlyMessage(s: State, t: State, u: Id, id: Id) {
    && t.labels == s.labels && t.accounts.Keys == s.accounts.Keys && s.nextUuid <= t.nextUuid
    && (forall m | m != id :: KeepsMessage(s, t, m) && (m in t.messages ==> m in s.messages))
    && forall w | w in s.accounts ::
      && t.accounts[w].labelIDs == s.accounts[w].labelIDs && t.accounts[w].addresses == s.accounts[w].addresses
      && (w != u ==> t.accounts[w].messageIDs == s.accounts[w].messageIDs)
  }

  /** What an update about `id` says is so. */
  ghost predicate MessageMatches(s: State, t: State, u: Id, id: Id, update: Update)
    requires u in s.accounts && u in t.accounts
  {
    var before, after := s.accounts[u].messageIDs, t.accounts[u].messageIDs;
    Mentions(update, MessageKey(id)) &&
    match update
    case Deleted(_) => id in before && id !in t.messages && after == Without(before, id)
    case Updated(_) => id in before && id in t.messages && after == before
    case _ => !Old(s, id) && Old(t, id) && id in t.messages && after == before + [id]
  }

  /** Messages and attachments by themselves. */
  ghost predicate MailOk(t: State) {
    match t
    case State(_, messages, _, attachments, attData, _, _, _, _) =>
      && AttachmentsOk(messages, attachments, attData)
      && (forall id | id in messages :: Old(t, id)) && (forall id | id in messages :: ParentOld(messages[id], id))
      && (forall id | id in attachments :: Old(t, id)) && (forall id | id in attData :: Old(t, id))
  }

  lemma StoreOkIsMailOk(s: State)
    requires StoreOk(s)
    ensures MailOk(s)
  {}

  lemma AttachmentsAreKnown(s: State, m: Id)
    requires MailOk(s) && m in s.messages
    ensures NoDup(s.messages[m].attIDs)
    ensures forall a :: a in s.messages[m].attIDs ==> a in s.attachments && s.attachments[a].dataID in s.attData
  {}

  lemma SameMessageView(s: State, t: State, w: Id, k: Key)
    requires MailOk(s) && w in s.accounts && w in t.accounts && k.kind.MessageKind? && KeepsMessage(s, t, k.id)
    requires k.id in t.messages ==> k.id in s.messages
    requires Live(t, w, k) <==> Live(s, w, k)
    ensures SameView(s, t, w, k)
  {
    hide MailOk, KeepsData;
    if k.id in s.messages {
      AttachmentsAreKnown(s, k.id);
      SameMessage(s, t, k.id);
    }
  }

  lemma MessageLive(s: State, t: State, u: Id, id: Id, update: Update)
    requires OnlyMessage(s, t, u, id) && u in s.accounts && MessageMatches(s, t, u, id, update)
    ensures forall w, k :: k != MessageKey(id) ==>
      (Live(t, w, k) <==> Live(s, w, k)) && (Present(t, w, k) <==> Present(s, w, k))
    ensures forall w :: w != u ==> (Live(t, w, MessageKey(id)) <==> Live(s, w, MessageKey(id)))
  {
    hide KeepsData;
    assert forall x | x != id :: x in t.accounts[u].messageIDs <==> x in s.accounts[u].messageIDs;
    assert forall x | x != id :: x in t.messages <==> x in s.messages by {
      forall x | x != id ensures x in t.messages <==> x in s.messages { assert KeepsMessage(s, t, x); }
    }
  }

  lemma MessageView(s: State, t: State, u: Id, id: Id, update: Update)
    requires OnlyMessage(s, t, u, id) && u in s.accounts && MessageMatches(s, t, u, id, update) && MailOk(s)
    ensures forall w, k :: w in s.accounts && k != MessageKey(id) ==> SameView(s, t, w, k)
  {
    hide MailOk, KeepsMessage;
    MessageLive(s, t, u, id, update);
    forall w, k | w in s.accounts && k != MessageKey(id) ensures SameView(s, t, w, k) {
      if k.kind.MessageKind? {
        SameMessageView(s, t, w, k);
      }
    }
  }

  /** The message is the account's or new, and no other account's. */
  lemma MessageOwner(s: State, t: State, u: Id, id: Id, update: Update)
    requires StoreOk(s) && u in s.accounts && OnlyMessage(s, t, u, id) && MessageMatches(s, t, u, id, update)
    ensures forall w :: w != u ==> !Live(s, w, MessageKey(id)) && !Live(t, w, MessageKey(id))
    ensures Old(t, id)
    ensures update.Created? ==> id !in s.messages
  {
    hide AttachmentsOk, KeepsMessage;
    MessageLive(s, t, u, id, update);
    assert update.Created? || Live(s, u, MessageKey(id));
    assert Live(s, u, MessageKey(id)) ==> Present(s, u, MessageKey(id));
    forall w | w != u ensures !Live(s, w, MessageKey(id)) {
      assert Live(s, w, MessageKey(id)) ==> Present(s, w, MessageKey(id));
    }
  }

  lemma MessageNoDup(s: State, t: State, u: Id, id: Id, update: Update)
    requires StoreOk(s) && u in s.accounts && u in t.accounts && MessageMatches(s, t, u, id, update)
    ensures NoDup(t.accounts[u].messageIDs)
  {
    hide AttachmentsOk;
    var before := s.accounts[u].messageIDs;
    WithoutNoDup(before, id);
    if update.Created? {
      assert Live(s, u, MessageKey(id)) ==> Present(s, u, MessageKey(id));
      NoDupConcat(before, [id]);
    }
  }

  lemma MessageOwnedOk(s: State, t: State, u: Id, id: Id, update: Update)
    requires StoreOk(s) && u in s.accounts && OnlyMessage(s, t, u, id) && MessageMatches(s, t, u, id, update)
    ensures OwnedOk(t)
  {
    hide AttachmentsOk, ObjectsOld, KeepsMessage;
    MessageNoDup(s, t, u, id, update);
    MessageOwner(s, t, u, id, update);
    MessageLive(s, t, u, id, update);
    assert update.Deleted? ==> !Live(t, u, MessageKey(id));
    assert !update.Deleted? ==> Present(t, u, MessageKey(id));
    forall x | x in t.labels ensures exists w :: Live(t, w, LabelKey(x)) {
      var w :| Live(s, w, LabelKey(x));
      assert Live(t, w, LabelKey(x));
    }
  }

  lemma MessageObjectsOld(s: State, t: State, u: Id, id: Id, update: Update)
    requires StoreOk(s) && u in s.accounts && OnlyMessage(s, t, u, id) && MessageMatches(s, t, u, id, update) && MailOk(t)
    ensures ObjectsOld(t)
  {
    hide AttachmentsOk, OwnedOk, KeepsMessage;
    MessageOwner(s, t, u, id, update);
    MessageLive(s, t, u, id, update);
  }

  lemma MessageStoreOk(s: State, t: State, u: Id, id: Id, update: Update)
    requires StoreOk(s) && u in s.accounts && OnlyMessage(s, t, u, id) && MessageMatches(s, t, u, id, update) && MailOk(t)
    ensures StoreOk(t)
  {
    hide OwnedOk, ObjectsOld, AttachmentsOk, OnlyMessage;
    MessageOwnedOk(s, t, u, id, update);
    MessageObjectsOld(s, t, u, id, update);
  }

  lemma MessageOnlyChanges(s: State, t: State, u: Id, id: Id, update: Update)
    requires StoreOk(s) && u in s.accounts && OnlyMessage(s, t, u, id) && MessageMatches(s, t, u, id, update)
    ensures OnlyChanges(s, t, u, update)
  {
    hide StoreOk, MailOk, SameView, KeepsMessage;
    StoreOkIsMailOk(s);
    MessageView(s, t, u, id, update);
    MessageLive(s, t, u, id, update);
    MessageOwner(s, t, u, id, update);
    forall w | w != u ensures SameView(s, t, w, MessageKey(id)) {
      UnownedSameView(s, t, w, MessageKey(id));
    }
    assert !update.Created? ==> Live(s, u, MessageKey(id));
    MessagePresent(s, t, u, id, update);
  }

  lemma MessagePresent(s: State, t: State, u: Id, id: Id, update: Update)
    requires StoreOk(s) && u in s.accounts && OnlyMessage(s, t, u, id) && MessageMatches(s, t, u, id, update)
    ensures forall w | w in s.accounts :: Present(t, w, MessageKey(id)) && !Present(s, w, MessageKey(id)) ==> !Old(s, id)
  {
    hide AttachmentsOk, KeepsMessage;
    assert Live(s, u, MessageKey(id)) ==> Present(s, u, MessageKey(id));
  }

  /** The message has the parent it had, one of the account's, or none. */
  ghost predicate ParentStays(s: State, t: State, u: Id, id: Id) {
    id in t.messages ==>
      var parent := t.messages[id].parent;
      || parent == NoId || Live(s, u, MessageKey(parent))
      || (id in s.messages && parent == s.messages[id].parent)
  }

  lemma MessageThreads(s: State, t: State, u: Id, id: Id, update: Update)
    requires StoreOk(s) && u in s.accounts && OnlyMessage(s, t, u, id) && MessageMatches(s, t, u, id, update) && MailOk(t)
    requires ParentStays(s, t, u, id)
    ensures ThreadsOk(s) ==> ThreadsOk(t)
  {
    hide StoreOk, MailOk, OnlyMessage;
    MessageOwner(s, t, u, id, update);
    MessageLive(s, t, u, id, update);
    forall w, m | ThreadsOk(s) && Live(t, w, MessageKey(m)) ensures MessageParentOwned(t, w, m) {
      if m == id {
        OwnThread(s, t, u, id, update);
      } else {
        assert Live(s, w, MessageKey(m));
        assert MessageParentOwned(s, w, m);
        OtherThread(s, t, u, id, update, w, m);
      }
    }
  }

  lemma OwnThread(s: State, t: State, u: Id, id: Id, update: Update)
    requires StoreOk(s) && u in s.accounts && OnlyMessage(s, t, u, id) && MessageMatches(s, t, u, id, update) && MailOk(t)
    requires ParentStays(s, t, u, id) && ThreadsOk(s) && Live(t, u, MessageKey(id))
    ensures MessageParentOwned(t, u, id)
  {
    hide StoreOk, KeepsMessage, AttachmentsOk;
    MessageOwner(s, t, u, id, update);
    MessageLive(s, t, u, id, update);
    assert MessageParentOwned(s, u, id) || !Live(s, u, MessageKey(id));
    assert update.Created? || Live(s, u, MessageKey(id));
  }

  lemma OtherThread(s: State, t: State, u: Id, id: Id, update: Update, w: Id, m: Id)
    requires StoreOk(s) && u in s.accounts && OnlyMessage(s, t, u, id) && MessageMatches(s, t, u, id, update)
    requires m != id && Live(s, w, MessageKey(m)) && MessageParentOwned(s, w, m)
    ensures MessageParentOwned(t, w, m)
  {
    hide AttachmentsOk;
    MessageOwner(s, t, u, id, update);
    MessageLive(s, t, u, id, update);
    assert KeepsMessage(s, t, m);
    assert Present(s, w, MessageKey(m));
    var parent := s.messages[m].parent;
    if parent == id {
      assert update.Created? || Live(s, u, MessageKey(id));
      assert Live(s, u, MessageKey(id)) ==> Present(s, u, MessageKey(id));
    } else if parent in s.messages {
      assert Live(t, w, MessageKey(parent));
    } else {
      assert KeepsMessage(s, t, parent);
    }
  }

  lemma MessageUpdateKeeps(s: State, t: State, u: Id, id: Id, update: Update)
    requires Core(s) && Logs(s, t, u, update) && SettingsFollow(s, t, u, update)
    requires OnlyMessage(s, t, u, id) && MessageMatches(s, t, u, id, update) && MailOk(t) && ParentStays(s, t, u, id)
    ensures Kept(s, t)
  {
    hide Core, Kept, StoreOk, MailOk, SettingsFollow, OnlyChanges, KeepsMessage, ThreadsOk, ParentStays;
    CoreIsStoreOk(s);
    MessageThreads(s, t, u, id, update);
    MessageStoreOk(s, t, u, id, update);
    MessageOnlyChanges(s, t, u, id, update);
    LoggedKeeps(s, t, u, update);
  }

  // ---------------------------------------------------------------------
  // The calls

  /** Replaces what the server stores of mail. */
  function WithMail(s: State, messages: map<Id, Message>, atts: map<Id, Attachment>, data: map<Id, string>, n: nat): State {
    s.(messages := messages, attachments := atts, attData := data, nextUuid := n)
  }

  /** Logs `update` and replaces the account's list of messages. */
  function LogAndList(s: State, u: Id, messageIDs: seq<Id>, update: Update): State
    requires u in s.accounts
  {
    var t := Log(s, u, update);
    WithAccount(t, u, t.accounts[u].(messageIDs := messageIDs))
  }

  lemma LogAndListLogs(s: State, t: State, u: Id, id: Id, messageIDs: seq<Id>, update: Update)
    requires u in s.accounts && t == WithMail(s, t.messages, t.attachments, t.attData, t.nextUuid) && s.nextUuid <= t.nextUuid
    requires !update.SettingsUpdated?
    requires forall m | m != id :: KeepsMessage(s, t, m) && (m in t.messages ==> m in s.messages)
    ensures var r := LogAndList(t, u, messageIDs, update);
      Logs(s, r, u, update) && SettingsFollow(s, r, u, update) && OnlyMessage(s, r, u, id)
  {
    hide KeepsMessage;
    var r := LogAndList(t, u, messageIDs, update);
    forall m | m != id ensures KeepsMessage(s, r, m) {
      KeepsMessageToo(s, t, r, m);
    }
  }

  lemma KeepsMessageToo(s: State, t: State, r: State, m: Id)
    requires KeepsMessage(s, t, m) && r.messages == t.messages && r.attachments == t.attachments && r.attData == t.attData
    ensures KeepsMessage(s, r, m)
  {
    if m in s.messages {
      forall a | a in s.messages[m].attIDs ensures KeepsData(s, r, a) {
        assert KeepsData(s, t, a);
      }
    }
  }

  lemma MailChangeKeeps(s: State, t: State, u: Id, id: Id, messageIDs: seq<Id>, update: Update)
    requires Core(s) && u in s.accounts && MailOk(t) && Mentions(update, MessageKey(id)) && ParentStays(s, t, u, id)
    requires t == WithMail(s, t.messages, t.attachments, t.attData, t.nextUuid) && s.nextUuid <= t.nextUuid
    requires forall m | m != id :: KeepsMessage(s, t, m) && (m in t.messages ==> m in s.messages)
    requires match update
      case Deleted(_) => id in s.accounts[u].messageIDs && id !in t.messages && messageIDs == Without(s.accounts[u].messageIDs, id)
      case Updated(_) => id in s.accounts[u].messageIDs && id in t.messages && messageIDs == s.accounts[u].messageIDs
      case _ => id == Uuid(s.nextUuid) && s.nextUuid < t.nextUuid && id in t.messages && messageIDs == s.accounts[u].messageIDs + [id]
    ensures Kept(s, LogAndList(t, u, messageIDs, update))
  {
    hide Core, Kept, MailOk, KeepsMessage, Logs, SettingsFollow, OnlyMessage;
    LogAndListLogs(s, t, u, id, messageIDs, update);
    var r := LogAndList(t, u, messageIDs, update);
    SameMailOk(t, r);
    assert ParentStays(s, r, u, id);
    MessageUpdateKeeps(s, r, u, id, update);
  }

  lemma SameMailOk(t: State, r: State)
    requires MailOk(t) && r.messages == t.messages && r.attachments == t.attachments && r.attData == t.attData && r.nextUuid == t.nextUuid
    ensures MailOk(r)
  {}

  /** One message is stored, with attachments as before or none. */
  lemma StoredIsMailOk(s: State, id: Id, msg: Message, n: nat)
    requires MailOk(s) && s.nextUuid <= n && id.Uuid? && id.n < n
    requires msg.attIDs == [] || (id in s.messages && msg.attIDs == s.messages[id].attIDs)
    requires ParentOld(msg, id)
    ensures MailOk(s.(messages := s.messages[id := msg], nextUuid := n))
  {}

  lemma StoredKeeps(s: State, id: Id, msg: Message, n: nat)
    ensures var t := s.(messages := s.messages[id := msg], nextUuid := n);
      forall m | m != id :: KeepsMessage(s, t, m) && (m in t.messages ==> m in s.messages)
  {}

  lemma CoreIsMailOk(s: State)
    requires Core(s)
    ensures MailOk(s)
  {}

  lemma AddMessageKeeps(s: State, u: Id, msg: Message)
    requires Core(s) && u in s.accounts && msg.attIDs == [] && (msg.parent == NoId || Live(s, u, MessageKey(msg.parent)))
    ensures Kept(s, AddMessage(s, u, msg))
  {
    hide Core, Kept, MailOk, KeepsMessage, Log;
    var id := Uuid(s.nextUuid);
    var t := s.(messages := s.messages[id := msg], nextUuid := s.nextUuid + 1);
    CoreIsMailOk(s);
    if msg.parent != NoId {
      OwnMessageIsOld(s, u, msg.parent);
    }
    StoredIsMailOk(s, id, msg, s.nextUuid + 1);
    StoredKeeps(s, id, msg, s.nextUuid + 1);
    LogKeepsLists(t, u, Created(MessageKey(id)));
    MailChangeKeeps(s, t, u, id, s.accounts[u].messageIDs + [id], Created(MessageKey(id)));
  }

  /** Logging alone is logging and keeping the list. */
  lemma LogKeepsTheList(t: State, u: Id, update: Update)
    requires u in t.accounts
    ensures Log(t, u, update) == LogAndList(t, u, t.accounts[u].messageIDs, update)
  {
    var r := Log(t, u, update);
    assert r.accounts[u := r.accounts[u]] == r.accounts;
  }

  lemma TouchMessageKeeps(s: State, u: Id, id: Id, msg: Message)
    requires Core(s) && Live(s, u, MessageKey(id)) && id in s.messages
    requires msg.attIDs == s.messages[id].attIDs && msg.parent == s.messages[id].parent
    ensures Kept(s, TouchMessage(s, u, id, msg))
  {
    hide Core, Kept, MailOk, KeepsMessage, Log;
    var t := s.(messages := s.messages[id := msg]);
    CoreIsMailOk(s);
    OwnMessageIsOld(s, u, id);
    StoredIsMailOk(s, id, msg, s.nextUuid);
    StoredKeeps(s, id, msg, s.nextUuid);
    LogKeepsTheList(t, u, Updated(MessageKey(id)));
    MailChangeKeeps(s, t, u, id, s.accounts[u].messageIDs, Updated(MessageKey(id)));
  }

  lemma OwnMessageIsOld(s: State, u: Id, id: Id)
    requires Core(s) && Live(s, u, MessageKey(id))
    ensures Old(s, id) && id in s.messages && ParentOld(s.messages[id], id)
  {
    assert Present(s, u, MessageKey(id));
  }

  lemma CreateMessageKeeps(s: State, u: Id, addrID: Id, content: Content, flags: set<Flag>, unread: bool, starred: bool)
    requires Core(s)
    ensures Kept(s, CreateMessage(s, u, addrID, content, flags, unread, starred).state)
  {
    hide Core, Kept, AddMessage;
    NothingKeeps(s);
    if u in s.accounts {
      AddMessageKeeps(s, u, Message(addrID, NEW_FILING.(starred := starred), [], NoId, ReplyAction, content.(externalID := ""), flags, unread));
    }
  }

  lemma CreateDraftKeeps(s: State, u: Id, addrID: Id, content: Content, unread: bool, parent: Id, action: DraftAction)
    requires Core(s) && (u in s.accounts && parent in s.messages ==> Live(s, u, MessageKey(parent)))
    ensures Kept(s, CreateDraft(s, u, addrID, content, unread, parent, action).state)
  {
    hide Core, Kept, AddMessage;
    NothingKeeps(s);
    if u in s.accounts {
      var known := if parent in s.messages then parent else NoId;
      AddMessageKeeps(s, u, Message(addrID, Filed(NEW_FILING, DRAFTS, s.labels), [], known, action, content, {}, unread));
    }
  }

  lemma UpdateDraftKeeps(s: State, u: Id, id: Id, ch: Changes)
    requires Core(s) && (u in s.accounts && id in s.messages ==> Live(s, u, MessageKey(id)))
    ensures Kept(s, UpdateDraft(s, u, id, ch).state)
  {
    hide Core, Kept, TouchMessage, ApplyChanges;
    NothingKeeps(s);
    if u in s.accounts && id in s.messages {
      OwnMessageIsOld(s, u, id);
      TouchMessageKeeps(s, u, id, s.messages[id].(content := ApplyChanges(s.messages[id].content, ch)));
    }
  }
}
