/** Edits, deletion, attachments and sending keep the invariant, and log what
    changed (server/backend/api.go). */
module MailSteps {
  import opened Ids
  import opened Updates
  import opened Locations
  import opened Records
  import opened Attachments
  import opened Operations
  import opened Views
  import opened Invariants
  import opened Steps
  import opened MessageSteps

  // ---------------------------------------------------------------------
  // Edits

  lemma EditTouches(m: Message, e: Edit, labels: map<Id, Label>)
    requires e.Put? ==> AddIsSafe(m.filing, e.labelID, labels)
    ensures EditMessage(m, e, labels).attIDs == m.attIDs && EditMessage(m, e, labels).parent == m.parent
  {}

  lemma TouchKeepsAccounts(s: State, u: Id, id: Id, msg: Message)
    requires u in s.accounts
    ensures var t := TouchMessage(s, u, id, msg);
      t.accounts.Keys == s.accounts.Keys && t.accounts[u].messageIDs == s.accounts[u].messageIDs && t.messages == s.messages[id := msg] && t.labels == s.labels
  {}

  lemma {:induction false} EditAllKeeps(s: State, u: Id, e: Edit, ids: seq<Id>)
    requires Core(s) && u in s.accounts && EditIsSafe(s, e, ids)
    requires forall id :: id in ids && id in s.messages ==> Live(s, u, MessageKey(id))
    ensures Kept(s, EditAll(s, u, e, ids))
    ensures EditAll(s, u, e, ids).accounts.Keys == s.accounts.Keys
    decreases ids
  {
    hide Core, Kept, EditMessage, TouchMessage;
    NothingKeeps(s);
    if ids != [] {
      assert ids[0] in ids;
      assert forall id :: id in ids[1..] ==> id in ids;
      if ids[0] in s.messages {
        var msg := EditMessage(s.messages[ids[0]], e, s.labels);
        var t := TouchMessage(s, u, ids[0], msg);
        EditOneKeeps(s, u, e, ids);
        EditAllKeeps(t, u, e, ids[1..]);
        KeptComposes(s, t, EditAll(t, u, e, ids[1..]));
      } else {
        EditAllKeeps(s, u, e, ids[1..]);
      }
    }
  }

  lemma EditOneKeeps(s: State, u: Id, e: Edit, ids: seq<Id>)
    requires Core(s) && u in s.accounts && EditIsSafe(s, e, ids) && ids != [] && ids[0] in s.messages
    requires forall id :: id in ids && id in s.messages ==> Live(s, u, MessageKey(id))
    ensures ids[0] in ids && var t := TouchMessage(s, u, ids[0], EditMessage(s.messages[ids[0]], e, s.labels));
      && Kept(s, t) && Core(t) && t.accounts.Keys == s.accounts.Keys && EditIsSafe(t, e, ids[1..])
      && forall id :: id in ids[1..] && id in t.messages ==> Live(t, u, MessageKey(id))
  {
    hide Core, Kept, EditMessage, TouchMessage;
    assert ids[0] in ids;
    assert forall id :: id in ids[1..] ==> id in ids;
    var m := s.messages[ids[0]];
    var msg := EditMessage(m, e, s.labels);
    var t := TouchMessage(s, u, ids[0], msg);
    OwnMessageIsOld(s, u, ids[0]);
    EditTouches(m, e, s.labels);
    TouchMessageKeeps(s, u, ids[0], msg);
    KeptIsCore(s, t);
    TouchKeepsAccounts(s, u, ids[0], msg);
    EditSafeAfter(s, u, e, ids);
  }

  lemma EditSafeAfter(s: State, u: Id, e: Edit, ids: seq<Id>)
    requires u in s.accounts && EditIsSafe(s, e, ids) && ids != [] && ids[0] in s.messages && ids[0] in ids
    ensures EditIsSafe(TouchMessage(s, u, ids[0], EditMessage(s.messages[ids[0]], e, s.labels)), e, ids[1..])
  {
    assert forall id :: id in ids[1..] ==> id in ids;
  }

  lemma EditMessagesKeeps(s: State, u: Id, e: Edit, ids: seq<Id>)
    requires Core(s) && (u in s.accounts && EditAllowed(e) ==> EditIsSafe(s, e, ids))
    requires u in s.accounts ==> forall id :: id in ids && id in s.messages ==> Live(s, u, MessageKey(id))
    ensures Kept(s, EditMessages(s, u, e, ids).state)
  {
    hide Core, Kept, EditAll;
    NothingKeeps(s);
    if u in s.accounts && EditAllowed(e) {
      EditAllKeeps(s, u, e, ids);
    }
  }

  // ---------------------------------------------------------------------
  // Deletion

  /** Dropping a message leaves every other one with its attachments and data. */
  lemma DropMessageMail(s: State, id: Id)
    requires MailOk(s) && id in s.messages
    ensures Droppable(s, [id]) && Droppable(s, []) && NoDup(s.messages[id].attIDs)
    ensures forall a :: a in s.messages[id].attIDs ==> a in s.attachments
    ensures MailOk(DropMessage(s, id))
    ensures forall m | m != id :: KeepsMessage(s, DropMessage(s, id), m)
    ensures DropMessage(s, id).messages == s.messages - {id}
  {
    AttachmentsAreKnown(s, id);
    FreeAllIsExact(s.attachments, s.attData, s.messages[id].attIDs);
    var t := DropMessage(s, id);
    forall m | m != id ensures KeepsMessage(s, t, m) {
      if m in s.messages {
        forall a | a in s.messages[m].attIDs ensures a in t.attachments && KeepsData(s, t, a) {}
      }
    }
    DropMessageOk(s, id);
  }

  lemma DropMessageOk(s: State, id: Id)
    requires MailOk(s) && id in s.messages && NoDup(s.messages[id].attIDs)
    requires forall a :: a in s.messages[id].attIDs ==> a in s.attachments
    ensures MailOk(DropMessage(s, id))
  {
    hide KeepsMessage, FreeAll, DataExact;
    FreeAllIsExact(s.attachments, s.attData, s.messages[id].attIDs);
    var t := DropMessage(s, id);
    assert t.messages == s.messages - {id};
    assert DataExact(t.attachments, t.attData);
  }

  lemma DeleteMessageKeeps(s: State, u: Id, id: Id)
    requires Core(s) && (u in s.accounts && id in s.messages ==> Live(s, u, MessageKey(id)))
    ensures u in s.accounts && id in s.messages ==> Droppable(s, [id])
    ensures Kept(s, DeleteMessage(s, u, id).state)
  {
    hide Core, Kept, MailOk, KeepsMessage, Log, DropMessage;
    NothingKeeps(s);
    if u in s.accounts && id in s.messages {
      CoreIsMailOk(s);
      DropMessageMail(s, id);
      var t := DropMessage(s, id);
      DropMessageRest(s, id);
      LogKeepsLists(t, u, Deleted(MessageKey(id)));
      MailChangeKeeps(s, t, u, id, Without(s.accounts[u].messageIDs, id), Deleted(MessageKey(id)));
    }
  }

  lemma DropMessageRest(s: State, id: Id)
    requires id in s.messages && NoDup(s.messages[id].attIDs)
    requires forall a :: a in s.messages[id].attIDs ==> a in s.attachments
    ensures var t := DropMessage(s, id); t == WithMail(s, t.messages, t.attachments, t.attData, s.nextUuid)
  {}

  /** Dropping several messages, each stored once. */
  lemma {:induction false} DropMessagesMail(s: State, ids: seq<Id>)
    requires MailOk(s) && NoDup(ids) && forall id :: id in ids ==> id in s.messages
    ensures Droppable(s, ids) && MailOk(DropMessages(s, ids))
    ensures forall m | m !in ids :: KeepsMessage(s, DropMessages(s, ids), m)
    ensures forall m :: m in DropMessages(s, ids).messages <==> m in s.messages && m !in ids
    ensures var t := DropMessages(s, ids); t == WithMail(s, t.messages, t.attachments, t.attData, s.nextUuid)
    decreases ids
  {
    if ids != [] {
      hide MailOk, KeepsMessage, DropMessage;
      DropMessageMail(s, ids[0]);
      DropMessageRest(s, ids[0]);
      var t := DropMessage(s, ids[0]);
      assert ids[0] in ids && ids[0] !in ids[1..];
      assert forall m :: m in ids <==> m == ids[0] || m in ids[1..];
      DropMessagesMail(t, ids[1..]);
      var r := DropMessages(t, ids[1..]);
      forall m | m !in ids ensures KeepsMessage(s, r, m) {
        KeepsMessageComposes(s, t, r, m);
      }
    }
  }

  lemma KeepsMessageComposes(s: State, t: State, r: State, m: Id)
    requires KeepsMessage(s, t, m) && KeepsMessage(t, r, m)
    ensures KeepsMessage(s, r, m)
  {
    if m in s.messages {
      forall a | a in s.messages[m].attIDs ensures KeepsData(s, r, a) {
        assert KeepsData(s, t, a) && KeepsData(t, r, a);
      }
    }
  }

  // ---------------------------------------------------------------------
  // Removing a user

  /** The user, its labels and its messages are gone; everything else is the same. */
  ghost predicate Removed(s: State, t: State, u: Id) {
    && u in s.accounts && t.accounts == s.accounts - {u} && t.updates == s.updates && t.nextUuid == s.nextUuid
    && t.labels == s.labels - Elements(s.accounts[u].labelIDs)
    && (forall m | m !in s.accounts[u].messageIDs :: KeepsMessage(s, t, m))
    && (forall m :: m in t.messages <==> m in s.messages && m !in s.accounts[u].messageIDs)
  }

  lemma RemoveUserIs(s: State, u: Id)
    requires Core(s) && u in s.accounts
    ensures Droppable(s.(labels := s.labels - Elements(s.accounts[u].labelIDs)), s.accounts[u].messageIDs)
    ensures Removed(s, RemoveUser(s, u).state, u) && MailOk(RemoveUser(s, u).state)
  {
    hide Core, MailOk, KeepsMessage, DropMessages;
    var acc := s.accounts[u];
    var s' := s.(labels := s.labels - Elements(acc.labelIDs));
    CoreIsMailOk(s);
    SameMailOk(s, s');
    OwnMessages(s, u);
    DropMessagesMail(s', acc.messageIDs);
    var t, r := DropMessages(s', acc.messageIDs), RemoveUser(s, u).state;
    SameMailOk(t, r);
    forall m | m !in acc.messageIDs ensures KeepsMessage(s, r, m) {
      KeepsMessageFrom(s', s, t, m);
      KeepsMessageToo(s, t, r, m);
    }
  }

  lemma KeepsMessageFrom(s: State, r: State, t: State, m: Id)
    requires KeepsMessage(s, t, m) && r.messages == s.messages && r.attachments == s.attachments && r.attData == s.attData
    ensures KeepsMessage(r, t, m)
  {
    if m in s.messages {
      forall a | a in s.messages[m].attIDs ensures KeepsData(r, t, a) {
        assert KeepsData(s, t, a);
      }
    }
  }

  lemma OwnMessages(s: State, u: Id)
    requires Core(s) && u in s.accounts
    ensures NoDup(s.accounts[u].messageIDs) && forall id :: id in s.accounts[u].messageIDs ==> id in s.messages
  {
    forall id | id in s.accounts[u].messageIDs ensures id in s.messages {
      assert Live(s, u, MessageKey(id));
      assert Present(s, u, MessageKey(id));
    }
  }

  /** Another account sees nothing of it. */
  lemma RemovedView(s: State, t: State, u: Id, w: Id, k: Key)
    requires Core(s) && Removed(s, t, u) && w in t.accounts
    ensures SameView(s, t, w, k) && (Present(t, w, k) ==> Present(s, w, k))
  {
    hide Core, KeepsMessage, MailOk;
    CoreIsMailOk(s);
    if Live(s, w, k) {
      OwnedByOne(s, u, w, k);
    }
    if k.kind.MessageKind? && Live(s, w, k) {
      hide Present, SameView;
      SameMessageView(s, t, w, k);
      LessPresent(s, t, u, w, k);
    }
  }

  lemma LessPresent(s: State, t: State, u: Id, w: Id, k: Key)
    requires Removed(s, t, u) && w in t.accounts
    ensures Present(t, w, k) ==> Present(s, w, k)
  {
    hide KeepsMessage;
  }

  lemma OwnedByOne(s: State, u: Id, w: Id, k: Key)
    requires Core(s) && Live(s, w, k) && u != w
    ensures Present(s, w, k) && (!k.kind.AddressKind? ==> !Live(s, u, k))
  {}

  lemma RemovedStoreOk(s: State, t: State, u: Id)
    requires Core(s) && Removed(s, t, u) && MailOk(t)
    ensures StoreOk(t)
  {
    hide Core, MailOk, Removed, OwnedOk, ObjectsOld, AttachmentsOk, SameView, Live, Present;
    assert t.accounts.Keys <= s.accounts.Keys by { RemovedAccounts(s, t, u); }
    forall w, k | w in t.accounts ensures (Live(t, w, k) <==> Live(s, w, k)) && (Present(t, w, k) ==> Present(s, w, k)) {
      RemovedView(s, t, u, w, k);
      SameViewLive(s, t, w, k);
    }
    RemovedOwned(s, t, u);
    MailIsOld(t);
    RemovedObjectsOld(s, t, u);
  }

  lemma RemovedAccounts(s: State, t: State, u: Id)
    requires Removed(s, t, u)
    ensures t.accounts.Keys == s.accounts.Keys - {u}
  {}

  lemma SameViewLive(s: State, t: State, w: Id, k: Key)
    requires SameView(s, t, w, k)
    ensures Live(t, w, k) <==> Live(s, w, k)
  {}

  lemma MailIsOld(t: State)
    requires MailOk(t)
    ensures AttachmentsOk(t.messages, t.attachments, t.attData)
  {}

  lemma RemovedOwned(s: State, t: State, u: Id)
    requires Core(s) && Removed(s, t, u)
    requires forall w, k | w in t.accounts :: (Live(t, w, k) <==> Live(s, w, k))
    ensures OwnedOk(t)
  {
    hide KeepsMessage, LogsOk, ObjectsOld, UpdatesOld, AttachmentsOk, EventsOk, SettingsOk;
    forall w, k | Live(t, w, k) ensures Present(t, w, k) {
      OwnedByOne(s, u, w, k);
    }
    forall x | x in t.labels ensures exists w :: Live(t, w, LabelKey(x)) {
      var w :| Live(s, w, LabelKey(x));
      assert w != u;
      assert Live(t, w, LabelKey(x));
    }
  }

  lemma RemovedObjectsOld(s: State, t: State, u: Id)
    requires Core(s) && Removed(s, t, u) && MailOk(t)
    requires forall w, k | w in t.accounts :: Present(t, w, k) ==> Present(s, w, k)
    ensures ObjectsOld(t)
  {
    hide KeepsMessage, LogsOk, OwnedOk, UpdatesOld, AttachmentsOk, EventsOk, SettingsOk;
  }

  lemma RemoveUserKeeps(s: State, u: Id)
    requires Core(s)
    ensures u in s.accounts ==> Droppable(s.(labels := s.labels - Elements(s.accounts[u].labelIDs)), s.accounts[u].messageIDs)
    ensures Kept(s, RemoveUser(s, u).state)
  {
    hide Core, Droppable, RemoveUser, Kept;
    if u in s.accounts {
      RemoveUserIs(s, u);
      var t := RemoveUser(s, u).state;
      RemovedKeeps(s, t, u);
    } else {
      NobodyRemoved(s, u);
      NothingKeeps(s);
    }
  }

  lemma NobodyRemoved(s: State, u: Id)
    requires u !in s.accounts
    ensures RemoveUser(s, u).state == s
  {}

  lemma RemovedThreads(s: State, t: State, u: Id)
    requires Core(s) && Removed(s, t, u)
    ensures ThreadsOk(s) ==> ThreadsOk(t)
  {
    hide Core, KeepsData;
    forall w, id | ThreadsOk(s) && Live(t, w, MessageKey(id)) ensures MessageParentOwned(t, w, id) {
      assert Live(s, w, MessageKey(id));
      assert MessageParentOwned(s, w, id);
      OwnedByOne(s, u, w, MessageKey(id));
      assert KeepsMessage(s, t, id);
    }
  }

  lemma RemovedKeeps(s: State, t: State, u: Id)
    requires Core(s) && Removed(s, t, u) && MailOk(t)
    ensures Kept(s, t)
  {
    hide Core, MailOk, StoreOk, KeepsMessage, SameView, Tells, ThreadsOk;
    RemovedStoreOk(s, t, u);
    forall w | w in t.accounts
      ensures KeepsObjects(s, t, w) && forall k :: SameView(s, t, w, k)
    {
      forall k ensures SameView(s, t, w, k) && (Live(t, w, k) <==> Live(s, w, k)) && (Present(t, w, k) ==> Present(s, w, k)) {
        RemovedView(s, t, u, w, k);
        SameViewLive(s, t, w, k);
      }
    }
    QuietKeepsCore(s, t);
    CoreIsLogsOk(s);
    CoreIsLogsOk(t);
    RemovedThreads(s, t, u);
    forall w | w in t.accounts ensures Tells(s, t, w, {}) {
      SameViewsTell(s, t, w, {});
    }
  }

  lemma SameViewsTell(s: State, t: State, w: Id, silent: set<Key>)
    requires LogsOk(s) && LogsOk(t) && w in s.accounts && w in t.accounts && t.updates == s.updates
    requires t.accounts[w].updateIDs == s.accounts[w].updateIDs && t.accounts[w].settings == s.accounts[w].settings
    requires forall k | k !in silent :: SameView(s, t, w, k)
    ensures Tells(s, t, w, silent)
  {
    QuietTells(s, t, w, silent);
  }
}
