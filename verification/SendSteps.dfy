/** Attaching and sending keep the invariant, and log what changed
    (server/backend/api.go). */
module SendSteps {
  import opened Ids
  import opened Updates
  import opened EventLog
  import opened Locations
  import opened Records
  import opened Attachments
  import opened Operations
  import opened Views
  import opened Invariants
  import opened Steps
  import opened MessageSteps
  import opened MailSteps

  // ---------------------------------------------------------------------
  // Attachments are only added

  ghost predicate Extends(s: State, t: State) {
    && s.nextUuid <= t.nextUuid
    && (forall a | a in s.attachments :: a in t.attachments && t.attachments[a] == s.attachments[a])
    && (forall d | d in s.attData :: d in t.attData && t.attData[d] == s.attData[d])
  }

  /** Only the message `id` changed, or is new, and attachments were added. */
  ghost predicate Relists(s: State, t: State, id: Id) {
    && t == WithMail(s, t.messages, t.attachments, t.attData, t.nextUuid) && Extends(s, t)
    && t.messages.Keys == s.messages.Keys + {id}
    && forall m | m in s.messages && m != id :: t.messages[m] == s.messages[m]
  }

  lemma RelistsKeeps(s: State, t: State, id: Id)
    requires Relists(s, t, id)
    ensures forall m | m != id :: KeepsMessage(s, t, m) && (m in t.messages ==> m in s.messages)
  {
    forall m | m != id ensures KeepsMessage(s, t, m) && (m in t.messages ==> m in s.messages) {
      assert m in t.messages.Keys <==> m in s.messages.Keys;
    }
  }

  lemma RelistsComposes(s: State, t: State, r: State, id: Id)
    requires Relists(s, t, id) && Relists(t, r, id)
    ensures Relists(s, r, id)
  {}

  /** The list of `id` has attachments it had, or new ones, each once. */
  ghost predicate ListsOwn(s: State, t: State, id: Id) {
    && id in t.messages && NoDup(t.messages[id].attIDs)
    && ParentOld(t.messages[id], id) && Old(t, id)
    && forall a | a in t.messages[id].attIDs ::
      a in t.attachments && (a in s.attachments ==> id in s.messages && a in s.messages[id].attIDs)
  }

  lemma RelistedKeys(s: State, t: State, id: Id)
    requires Relists(s, t, id)
    ensures forall m :: m in t.messages <==> m in s.messages || m == id
  {
    assert forall m :: m in t.messages <==> m in t.messages.Keys;
  }

  lemma RelistedIsMailOk(s: State, t: State, id: Id)
    requires MailOk(s) && Relists(s, t, id) && ListsOwn(s, t, id) && DataExact(t.attachments, t.attData)
    requires (forall a | a in t.attachments :: Old(t, a)) && (forall d | d in t.attData :: Old(t, d))
    ensures MailOk(t)
  {
    hide DataExact;
    RelistedKeys(s, t, id);
    forall m, a | m in t.messages && a in t.messages[m].attIDs ensures a in t.attachments && (m != id ==> a !in t.messages[id].attIDs) {
      assert m != id ==> m in s.messages && a in s.messages[m].attIDs;
    }
  }

  // ---------------------------------------------------------------------
  // Changes nobody is told about yet

  /** Kept, but nothing is said about the objects in `silent`. */
  ghost predicate KeptBut(s: State, t: State, silent: set<Key>) {
    && Core(t) && (ThreadsOk(s) ==> ThreadsOk(t))
    && forall w | w in s.accounts && w in t.accounts :: Tells(s, t, w, silent)
  }

  /** The account's log since `s` mentions the object. */
  ghost predicate Told(s: State, t: State, w: Id, k: Key) {
    && LogsOk(s) && LogsOk(t) && w in s.accounts && w in t.accounts && LogOf(s, w) <= LogOf(t, w)
    && Mentioned(Delta(s, t, w), k)
  }

  lemma KeptButComposes(a: State, b: State, c: State, silent: set<Key>)
    requires KeptBut(a, b, silent) && KeptBut(b, c, silent) && b.accounts.Keys == a.accounts.Keys
    ensures KeptBut(a, c, silent)
  {
    hide Core, Tells, ThreadsOk;
    forall w | w in a.accounts && w in c.accounts ensures Tells(a, c, w, silent) {
      assert w in b.accounts.Keys;
      TellsComposes(a, b, c, w, silent, silent);
    }
  }

  lemma ToldStays(a: State, b: State, c: State, w: Id, k: Key, silent: set<Key>)
    requires Told(a, b, w, k) && Tells(b, c, w, silent)
    ensures Told(a, c, w, k)
  {
    hide ValueOf, LastSettings;
    DeltaConcat(a, b, c, w);
    MentionedConcat(Delta(a, b, w), Delta(b, c, w), k);
  }

  lemma KeptButIsCore(s: State, t: State, silent: set<Key>)
    requires KeptBut(s, t, silent)
    ensures Core(t)
  {}

  lemma KeptIsKeptBut(s: State, t: State, silent: set<Key>)
    requires Kept(s, t)
    ensures KeptBut(s, t, silent) && Core(t)
  {
    forall w | w in s.accounts && w in t.accounts ensures Tells(s, t, w, silent) {
      assert Tells(s, t, w, {});
    }
  }

  /** An object that nobody has, or that its owner is told about, needs no silence. */
  lemma NoLongerSilent(s: State, t: State, k: Key)
    requires KeptBut(s, t, {k})
    requires forall w | w in s.accounts && w in t.accounts :: Told(s, t, w, k) || (!Live(s, w, k) && !Live(t, w, k))
    ensures Kept(s, t)
  {
    hide Core, ThreadsOk;
    forall w | w in s.accounts && w in t.accounts ensures Tells(s, t, w, {}) {
      assert Tells(s, t, w, {k});
      assert forall x | x !in {k} && !Mentioned(Delta(s, t, w), x) :: ValueOf(t, w, x) == ValueOf(s, w, x);
    }
  }

  lemma RelistedLive(s: State, t: State, id: Id)
    requires Relists(s, t, id)
    ensures forall w, k :: Live(t, w, k) <==> Live(s, w, k)
    ensures forall w, k :: Present(s, w, k) ==> Present(t, w, k)
    ensures forall w, k :: Present(t, w, k) && !Present(s, w, k) ==> k.kind.MessageKind? && k.id == id
  {}

  lemma RelistedStoreOk(s: State, t: State, id: Id)
    requires StoreOk(s) && Relists(s, t, id) && MailOk(t)
    ensures StoreOk(t)
  {
    hide MailOk, Live, Present, AttachmentsOk;
    RelistedLive(s, t, id);
    MailIsOld(t);
    RelistedOwned(s, t, id);
    RelistedObjectsOld(s, t, id);
  }

  lemma RelistedOwned(s: State, t: State, id: Id)
    requires StoreOk(s) && Relists(s, t, id)
    ensures OwnedOk(t)
  {
    hide AttachmentsOk, ObjectsOld, Live, Present;
    RelistedLive(s, t, id);
  }

  lemma RelistedObjectsOld(s: State, t: State, id: Id)
    requires StoreOk(s) && Relists(s, t, id) && MailOk(t)
    ensures ObjectsOld(t)
  {
    hide AttachmentsOk, OwnedOk, Live;
    RelistedLive(s, t, id);
  }

  lemma RelistedThreads(s: State, t: State, id: Id)
    requires Core(s) && Relists(s, t, id)
    requires if id in s.messages then t.messages[id].parent == s.messages[id].parent else id.Uuid? && !Old(s, id)
    ensures ThreadsOk(s) ==> ThreadsOk(t)
  {
    hide Core;
    RelistedLive(s, t, id);
    forall w, m | ThreadsOk(s) && Live(t, w, MessageKey(m)) ensures MessageParentOwned(t, w, m) {
      assert Live(s, w, MessageKey(m));
      assert MessageParentOwned(s, w, m);
      OwnMessageIsOld(s, w, m);
      assert m in t.messages.Keys && t.messages[m].parent == s.messages[m].parent;
      var parent := s.messages[m].parent;
      assert parent in t.messages.Keys <==> parent in s.messages.Keys || parent == id;
    }
  }

  lemma RelistedKeeps(s: State, t: State, id: Id)
    requires Core(s) && Relists(s, t, id) && MailOk(t)
    requires if id in s.messages then t.messages[id].parent == s.messages[id].parent else id.Uuid? && !Old(s, id)
    ensures KeptBut(s, t, {MessageKey(id)})
  {
    hide Core, StoreOk, MailOk, KeepsMessage, SameView, Tells, ThreadsOk;
    RelistedThreads(s, t, id);
    CoreIsStoreOk(s);
    CoreIsMailOk(s);
    RelistedStoreOk(s, t, id);
    RelistsKeeps(s, t, id);
    RelistedLive(s, t, id);
    forall w | w in t.accounts ensures KeepsObjects(s, t, w) {
      RelistedFresh(s, t, id, w);
    }
    QuietKeepsCore(s, t);
    CoreIsLogsOk(s);
    CoreIsLogsOk(t);
    forall w | w in t.accounts ensures Tells(s, t, w, {MessageKey(id)}) {
      forall k | k !in {MessageKey(id)} ensures SameView(s, t, w, k) {
        RelistedView(s, t, id, w, k);
      }
      SameViewsTell(s, t, w, {MessageKey(id)});
    }
  }

  lemma RelistedFresh(s: State, t: State, id: Id, w: Id)
    requires Relists(s, t, id) && (id in s.messages || !Old(s, id))
    ensures AddsOnlyFresh(s, t, w)
  {
    RelistedLive(s, t, id);
  }

  lemma RelistedView(s: State, t: State, id: Id, w: Id, k: Key)
    requires MailOk(s) && Relists(s, t, id) && w in s.accounts && k != MessageKey(id)
    ensures SameView(s, t, w, k)
  {
    hide MailOk, KeepsMessage;
    RelistsKeeps(s, t, id);
    if k.kind.MessageKind? {
      SameMessageView(s, t, w, k);
    }
  }

  // ---------------------------------------------------------------------
  // CreateAttachment

  lemma DataAdded(atts: map<Id, Attachment>, data: map<Id, string>, a: Id, att: Attachment, text: string)
    requires DataExact(atts, data) && a !in atts
    ensures DataExact(atts[a := att], data[att.dataID := text])
  {
    var atts' := atts[a := att];
    forall d | d in data ensures HasUser(atts', d) {
      assert HasUser(atts, d);
      var b :| b in atts && atts[b].dataID == d;
      assert b in atts' && atts'[b].dataID == d;
    }
    assert a in atts' && atts'[a].dataID == att.dataID;
  }

  /** One attachment is added, with new data or the data of another one. */
  lemma AttachedIsMailOk(s: State, t: State, id: Id, a: Id, att: Attachment, text: string)
    requires MailOk(s) && Relists(s, t, id) && ListsOwn(s, t, id)
    requires !Old(s, a) && Old(t, a) && Old(t, att.dataID) && t.attachments == s.attachments[a := att]
    requires t.attData == s.attData[att.dataID := text]
    ensures MailOk(t)
  {
    DataAdded(s.attachments, s.attData, a, att, text);
    hide DataExact, ListsOwn;
    RelistedIsMailOk(s, t, id);
  }

  /** The message gets a new attachment, and its list is sorted. */
  lemma CreateAttachmentKeeps(s: State, u: Id, id: Id, filename: string, contentID: string, inline: bool, data: string)
    requires Core(s) && (u in s.accounts ==> Live(s, u, MessageKey(id)))
    ensures u in s.accounts ==> AttachmentsKnown(s, id)
    ensures Kept(s, CreateAttachment(s, u, id, filename, contentID, inline, data).state)
  {
    hide Core, Kept, SortAttachments, Log;
    NothingKeeps(s);
    if u in s.accounts {
      OwnMessageIsOld(s, u, id);
      CoreIsMailOk(s);
      hide MailOk;
      AttachmentsAreKnown(s, id);
      if !(inline && contentID == "") {
        AttachKeeps(s, u, id, Attachment(Uuid(s.nextUuid), filename, contentID), data);
      }
    }
  }

  /** The state with the new attachment, listed and not yet logged. */
  ghost function Attached(s: State, id: Id, att: Attachment, data: string): State
    requires AttachmentsKnown(s, id)
  {
    var a := Uuid(s.nextUuid + 1);
    var atts := s.attachments[a := att];
    var msg := s.messages[id].(attIDs := SortAttachments(atts, s.messages[id].attIDs + [a]));
    WithMail(s, s.messages[id := msg], atts, s.attData[att.dataID := data], s.nextUuid + 2)
  }

  lemma AttachedRelists(s: State, id: Id, att: Attachment, data: string)
    requires Core(s) && Old(s, id) && AttachmentsKnown(s, id) && att.dataID == Uuid(s.nextUuid)
    ensures var t := Attached(s, id, att, data);
      MailOk(t) && Relists(s, t, id) && t.messages[id].parent == s.messages[id].parent
  {
    hide Core, SortAttachments, MailOk;
    var a := Uuid(s.nextUuid + 1);
    SortKeepsOnePerKey(s.attachments[a := att], s.messages[id].attIDs + [a]);
    StoredMailIsOld(s, id);
    CoreIsMailOk(s);
    NewIdsAreFree(s);
    var t := Attached(s, id, att, data);
    assert Relists(s, t, id);
    assert ListsOwn(s, t, id);
    AttachedIsMailOk(s, t, id, a, att, data);
  }

  lemma AttachKeeps(s: State, u: Id, id: Id, att: Attachment, data: string)
    requires Core(s) && Live(s, u, MessageKey(id)) && AttachmentsKnown(s, id) && att.dataID == Uuid(s.nextUuid)
    ensures var a := Uuid(s.nextUuid + 1);
      var t := s.(attData := s.attData[att.dataID := data], attachments := s.attachments[a := att], nextUuid := s.nextUuid + 2);
      Kept(s, TouchMessage(t, u, id, s.messages[id].(attIDs := SortAttachments(t.attachments, s.messages[id].attIDs + [a]))))
  {
    hide Core, Kept, MailOk, SortAttachments, Log, KeepsMessage, Relists;
    OwnMessageIsOld(s, u, id);
    AttachedRelists(s, id, att, data);
    var t := Attached(s, id, att, data);
    RelistsKeeps(s, t, id);
    assert ParentStays(s, t, u, id);
    LogKeepsTheList(t, u, Updated(MessageKey(id)));
    MailChangeKeeps(s, t, u, id, s.accounts[u].messageIDs, Updated(MessageKey(id)));
  }

  lemma NewIdsAreFree(s: State)
    requires Core(s)
    ensures forall n | n >= s.nextUuid :: Uuid(n) !in s.messages && Uuid(n) !in s.attachments && Uuid(n) !in s.attData
  {}

  // ---------------------------------------------------------------------
  // Copies for a recipient

  lemma CopyOne(s: State, id: Id, a: Id)
    requires MailOk(s) && id in s.messages && a in s.attachments
    ensures var t := CopyAttachment(s, id, a);
      MailOk(t) && Relists(s, t, id) && t.messages[id].parent == s.messages[id].parent
  {
    hide DataExact;
    var t, b := CopyAttachment(s, id, a), Uuid(s.nextUuid);
    var ids := s.messages[id].attIDs;
    assert !Old(s, b) && b !in s.attachments;
    assert forall x :: x in ids ==> x in s.attachments;
    NoDupConcat(ids, [b]);
    DataIsThere(s, a);
    assert t.attData == s.attData[s.attachments[a].dataID := s.attData[s.attachments[a].dataID]];
    assert ListsOwn(s, t, id);
    hide MailOk;
    AttachedIsMailOk(s, t, id, b, s.attachments[a], s.attData[s.attachments[a].dataID]);
  }

  lemma DataIsThere(s: State, a: Id)
    requires MailOk(s) && a in s.attachments
    ensures s.attachments[a].dataID in s.attData && Old(s, s.attachments[a].dataID)
  {}

  lemma {:induction false} CopyAll(s: State, id: Id, ids: seq<Id>)
    requires MailOk(s) && id in s.messages && forall a :: a in ids ==> a in s.attachments
    ensures var t := CopyAttachments(s, id, ids);
      MailOk(t) && Relists(s, t, id) && t.messages[id].parent == s.messages[id].parent
    decreases ids
  {
    hide MailOk, Relists, CopyAttachment;
    if ids != [] {
      CopyOne(s, id, ids[0]);
      var t := CopyAttachment(s, id, ids[0]);
      RelistsExtends(s, t, id);
      assert forall a :: a in ids[1..] ==> a in ids;
      CopyAll(t, id, ids[1..]);
      RelistsComposes(s, t, CopyAttachments(t, id, ids[1..]), id);
    } else {
      RelistsNothing(s, id);
    }
  }

  lemma RelistsExtends(s: State, t: State, id: Id)
    requires Relists(s, t, id)
    ensures id in t.messages && s.attachments.Keys <= t.attachments.Keys && s.nextUuid <= t.nextUuid
  {
    assert id in t.messages.Keys;
  }

  lemma RelistsNothing(s: State, id: Id)
    requires id in s.messages
    ensures Relists(s, s, id)
  {
    assert s.messages.Keys == s.messages.Keys + {id};
  }

  lemma StoreCopyRelists(s: State, id: Id, addrID: Id, body: string, n: nat)
    requires MailOk(s) && AttachmentsKnown(s, id) && n <= |s.messages[id].attIDs|
    ensures var t := StoreCopy(s, id, addrID, body, n);
      MailOk(t) && Relists(s, t, Uuid(s.nextUuid)) && t.messages[Uuid(s.nextUuid)].parent == NoId
  {
    hide MailOk, Relists, CopyAttachments;
    var copy, msg := Uuid(s.nextUuid), ReceivedFrom(s.messages[id], addrID, body);
    var t := s.(messages := s.messages[copy := msg], nextUuid := s.nextUuid + 1);
    StoredIsMailOk(s, copy, msg, s.nextUuid + 1);
    StoredRelists(s, copy, msg, s.nextUuid + 1);
    assert forall a :: a in s.messages[id].attIDs[..n] ==> a in s.messages[id].attIDs;
    CopyAll(t, copy, s.messages[id].attIDs[..n]);
    RelistsComposes(s, t, StoreCopy(s, id, addrID, body, n), copy);
  }

  lemma StoredRelists(s: State, id: Id, msg: Message, n: nat)
    requires s.nextUuid <= n
    ensures Relists(s, s.(messages := s.messages[id := msg], nextUuid := n), id)
  {}

  lemma ResortRelists(s: State, id: Id)
    requires MailOk(s) && AttachmentsKnown(s, id)
    ensures var t := Resort(s, id);
      MailOk(t) && Relists(s, t, id) && t.messages[id].parent == s.messages[id].parent
  {
    hide SortAttachments, DataExact, OnePerKey;
    var t := Resort(s, id);
    SortKeepsOnePerKey(s.attachments, s.messages[id].attIDs);
    SortedAreListed(s.attachments, s.messages[id].attIDs);
    assert Relists(s, t, id);
    assert ListsOwn(s, t, id);
    RelistedIsMailOk(s, t, id);
  }

  lemma SortedAreListed(atts: map<Id, Attachment>, ids: seq<Id>)
    requires forall a :: a in ids ==> a in atts
    ensures forall a :: a in SortAttachments(atts, ids) ==> a in ids
  {
    SortKeepsOnePerKey(atts, ids);
  }

  /** Sorting looks only at the attachments of the list. */
  lemma SortSame(atts: map<Id, Attachment>, atts': map<Id, Attachment>, ids: seq<Id>)
    requires forall a :: a in ids ==> a in atts && a in atts' && atts'[a] == atts[a]
    ensures SortAttachments(atts, ids) == SortAttachments(atts', ids)
  {
    LastBySame(atts, atts', ids, true);
    LastBySame(atts, atts', ids, false);
  }

  lemma {:induction false} LastBySame(atts: map<Id, Attachment>, atts': map<Id, Attachment>, ids: seq<Id>, content: bool)
    requires forall a :: a in ids ==> a in atts && a in atts' && atts'[a] == atts[a]
    ensures LastBy(atts, ids, content) == LastBy(atts', ids, content)
  {
    if ids != [] {
      LastBySame(atts, atts', ids[..|ids| - 1], content);
    }
  }

  // ---------------------------------------------------------------------
  // One recipient

  /** A message nobody lists is nobody's business. */
  lemma UnlistedKeeps(s: State, t: State, copy: Id)
    requires Core(s) && Relists(s, t, copy) && MailOk(t) && copy == Uuid(s.nextUuid)
    ensures Kept(s, t)
  {
    hide Core, MailOk, KeptBut, Kept, Relists, Live;
    NewIdsAreFree(s);
    RelistedKeeps(s, t, copy);
    forall w ensures !Live(s, w, MessageKey(copy)) && !Live(t, w, MessageKey(copy)) {
      RelistedLive(s, t, copy);
      if Live(s, w, MessageKey(copy)) {
        OwnMessageIsOld(s, w, copy);
      }
    }
    NoLongerSilent(s, t, MessageKey(copy));
  }

  lemma ResortKeeps(s: State, id: Id)
    requires Core(s) && AttachmentsKnown(s, id)
    ensures KeptBut(s, Resort(s, id), {MessageKey(id)}) && MailOk(Resort(s, id))
  {
    hide Core, MailOk, KeptBut, Relists, Resort;
    CoreIsMailOk(s);
    ResortRelists(s, id);
    RelistedKeeps(s, Resort(s, id), id);
  }

  /** The message as delivered, before the sent one is sorted. */
  lemma SortedCopyRelists(s: State, id: Id, addrID: Id, body: string)
    requires MailOk(s) && AttachmentsKnown(s, id)
    ensures var copy := Uuid(s.nextUuid);
      var t := Resort(StoreCopy(s, id, addrID, body, |s.messages[id].attIDs|), copy);
      MailOk(t) && Relists(s, t, copy) && copy in t.messages && t.messages[copy].parent == NoId
  {
    hide MailOk, Relists, Resort;
    var copy, n := Uuid(s.nextUuid), |s.messages[id].attIDs|;
    var c := StoreCopy(s, id, addrID, body, n);
    StoreCopyRelists(s, id, addrID, body, n);
    hide StoreCopy;
    ResortRelists(c, copy);
    RelistsComposes(s, c, Resort(c, copy), copy);
  }

  /** Sorting the sent message first gives the same. */
  lemma ResortCommutes(s: State, t: State, id: Id, copy: Id)
    requires AttachmentsKnown(s, id) && id != copy && Relists(s, t, copy)
    ensures AttachmentsKnown(t, id) && Relists(Resort(s, id), Resort(t, id), copy)
    ensures copy in t.messages && copy in Resort(t, id).messages && Resort(t, id).messages[copy].parent == t.messages[copy].parent
  {
    hide SortAttachments;
    SortSame(s.attachments, t.attachments, s.messages[id].attIDs);
    assert AttachmentsKnown(t, id);
    var r, s1 := Resort(t, id), Resort(s, id);
    assert r.messages.Keys == s1.messages.Keys + {copy};
    assert copy in t.messages.Keys;
  }

  lemma DeliveredRelists(s: State, id: Id, addrID: Id, body: string)
    requires Core(s) && AttachmentsKnown(s, id)
    ensures var r := Delivered(s, id, addrID, body);
      && Relists(Resort(s, id), r, Uuid(s.nextUuid)) && MailOk(r) && s.nextUuid < r.nextUuid && id in r.messages
      && Uuid(s.nextUuid) in r.messages && r.messages[Uuid(s.nextUuid)].parent == NoId
  {
    hide Core, MailOk, Relists, Resort, StoreCopy;
    CoreIsMailOk(s);
    NewIdsAreFree(s);
    SortedCopyRelists(s, id, addrID, body);
    var copy := Uuid(s.nextUuid);
    var t := Resort(StoreCopy(s, id, addrID, body, |s.messages[id].attIDs|), copy);
    ResortCommutes(s, t, id, copy);
    ResortRelists(t, id);
    RelistsExtends(t, Resort(t, id), id);
    CopyIsNew(s, t, Resort(t, id), copy);
  }

  lemma CopyIsNew(s: State, t: State, r: State, copy: Id)
    requires Relists(s, t, copy) && MailOk(t) && copy == Uuid(s.nextUuid) && r.nextUuid >= t.nextUuid
    ensures s.nextUuid < r.nextUuid
  {
    assert copy in t.messages.Keys;
  }

  lemma DeliverKeeps(s: State, id: Id, addrID: Id, body: string, to: Id)
    requires Core(s) && AttachmentsKnown(s, id) && to in s.accounts
    ensures var r := Delivered(s, id, addrID, body);
      to in r.accounts && r.accounts.Keys == s.accounts.Keys
      && KeptBut(s, ListMessage(r, to, Uuid(s.nextUuid)), {MessageKey(id)})
      && ListMessage(r, to, Uuid(s.nextUuid)).accounts.Keys == s.accounts.Keys
  {
    hide Core, MailOk, KeptBut, Kept, KeepsMessage, Delivered, Log;
    var copy, r, s1 := Uuid(s.nextUuid), Delivered(s, id, addrID, body), Resort(s, id);
    ResortKeeps(s, id);
    DeliveredRelists(s, id, addrID, body);
    KeptButIsCore(s, s1, {MessageKey(id)});
    RelistsKeeps(s1, r, copy);
    RelistsExtends(s1, r, copy);
    LogKeepsLists(r, to, Created(MessageKey(copy)));
    MailChangeKeeps(s1, r, to, copy, s1.accounts[to].messageIDs + [copy], Created(MessageKey(copy)));
    KeptIsKeptBut(s1, ListMessage(r, to, copy), {MessageKey(id)});
    KeptButComposes(s, s1, ListMessage(r, to, copy), {MessageKey(id)});
  }

  lemma DeliverOneKeeps(s: State, id: Id, d: Delivery)
    requires Core(s) && AttachmentsKnown(s, id) && Resolves(s, d)
    ensures KeptBut(s, DeliverOne(s, id, d).state, {MessageKey(id)})
    ensures DeliverOne(s, id, d).state.accounts.Keys == s.accounts.Keys
  {
    hide Core, MailOk, KeptBut, Kept, Delivered, StoreCopy, ListMessage, Relists;
    NothingKeeps(s);
    KeptIsKeptBut(s, s, {MessageKey(id)});
    if d.Deliver? {
      CoreIsMailOk(s);
      if d.goodKeys < |s.messages[id].attIDs| {
        StoreCopyRelists(s, id, d.addrID, d.body, d.goodKeys);
        var t := StoreCopy(s, id, d.addrID, d.body, d.goodKeys);
        UnlistedKeeps(s, t, Uuid(s.nextUuid));
        KeptIsKeptBut(s, t, {MessageKey(id)});
      } else {
        DeliverKeeps(s, id, d.addrID, d.body, d.to);
      }
    }
  }

  lemma {:induction false} DeliverAllKeeps(s: State, id: Id, ds: seq<Delivery>)
    requires Core(s) && AttachmentsKnown(s, id) && AllResolve(s, id, ds)
    ensures KeptBut(s, DeliverAll(s, id, ds).state, {MessageKey(id)})
    ensures DeliverAll(s, id, ds).state.accounts.Keys == s.accounts.Keys
    decreases ds
  {
    hide Core, KeptBut, Kept, DeliverOne;
    NothingKeeps(s);
    KeptIsKeptBut(s, s, {MessageKey(id)});
    if ds != [] {
      var r := DeliverOne(s, id, ds[0]);
      DeliverOneKeeps(s, id, ds[0]);
      KeptButIsCore(s, r.state, {MessageKey(id)});
      if r.ok {
        DeliverAllKeeps(r.state, id, ds[1..]);
        KeptButComposes(s, r.state, DeliverAll(r.state, id, ds[1..]).state, {MessageKey(id)});
      }
    }
  }

  // ---------------------------------------------------------------------
  // SendMessage

  /** The message's flags and place change before anything is logged. */
  lemma FiledKeeps(s: State, id: Id, msg: Message)
    requires Core(s) && id in s.messages && msg.attIDs == s.messages[id].attIDs && msg.parent == s.messages[id].parent
    ensures var t := s.(messages := s.messages[id := msg]);
      KeptBut(s, t, {MessageKey(id)}) && Core(t)
  {
    hide Core, MailOk, KeptBut, Relists;
    var t := s.(messages := s.messages[id := msg]);
    CoreIsMailOk(s);
    StoredMailIsOld(s, id);
    StoredIsMailOk(s, id, msg, s.nextUuid);
    StoredRelists(s, id, msg, s.nextUuid);
    RelistedKeeps(s, t, id);
    KeptButIsCore(s, t, {MessageKey(id)});
  }

  lemma StoredMailIsOld(s: State, id: Id)
    requires Core(s) && id in s.messages
    ensures Old(s, id) && ParentOld(s.messages[id], id)
  {}

  /** MarkSent as three changes: filing the message, marking its parent, and
      logging the message. */
  function Sent(s: State, id: Id): Message
    requires SendIsSafe(s, id)
  {
    var msg := s.messages[id];
    msg.(flags := msg.flags + {SentFlag}, filing := Filed(msg.filing, SENT, s.labels))
  }

  function MarkParent(t: State, u: Id, parent: Id, action: DraftAction): (r: State)
    requires u in t.accounts
    ensures r.accounts.Keys == t.accounts.Keys
  {
    if parent !in t.messages then t
    else TouchMessage(t, u, parent, t.messages[parent].(flags := t.messages[parent].flags + ReplyFlag(action)))
  }

  lemma MarkSentIs(s: State, u: Id, id: Id)
    requires u in s.accounts && SendIsSafe(s, id)
    ensures var t := s.(messages := s.messages[id := Sent(s, id)]);
      MarkSent(s, u, id) == Log(MarkParent(t, u, Sent(s, id).parent, Sent(s, id).action), u, Updated(MessageKey(id)))
  {}

  lemma MarkParentKeeps(t: State, u: Id, parent: Id, action: DraftAction)
    requires Core(t) && u in t.accounts && (parent in t.messages ==> Live(t, u, MessageKey(parent)))
    ensures Kept(t, MarkParent(t, u, parent, action))
    ensures MarkParent(t, u, parent, action).accounts[u].messageIDs == t.accounts[u].messageIDs
  {
    hide Core, Kept, TouchMessage;
    NothingKeeps(t);
    if parent in t.messages {
      var msg := t.messages[parent].(flags := t.messages[parent].flags + ReplyFlag(action));
      OwnMessageIsOld(t, u, parent);
      TouchMessageKeeps(t, u, parent, msg);
      TouchKeepsAccounts(t, u, parent, msg);
    }
  }

  /** Logging a message of the account that is as it was. */
  lemma RelogKeeps(s: State, u: Id, id: Id)
    requires Core(s) && Live(s, u, MessageKey(id))
    ensures var r := Log(s, u, Updated(MessageKey(id)));
      Kept(s, r) && Told(s, r, u, MessageKey(id)) && r.accounts.Keys == s.accounts.Keys
  {
    hide Core, Kept;
    OwnMessageIsOld(s, u, id);
    TouchMessageKeeps(s, u, id, s.messages[id]);
    assert s.messages[id := s.messages[id]] == s.messages;
    CoreIsLogsOk(s);
    LogTold(s, u, Updated(MessageKey(id)), MessageKey(id));
  }

  lemma LogTold(s: State, u: Id, update: Update, k: Key)
    requires LogsOk(s) && u in s.accounts && Mentions(update, k)
    ensures Told(s, Log(s, u, update), u, k)
  {
    var t := Log(s, u, update);
    LogLogs(s, u, update);
    LogsIsAppend(s, t, u, update);
    assert Delta(s, t, u) == [update];
    assert Delta(s, t, u)[0] == update;
  }

  lemma MarkSentKeeps(s: State, u: Id, id: Id)
    requires Core(s) && Live(s, u, MessageKey(id)) && SendIsSafe(s, id)
    requires s.messages[id].parent in s.messages ==> Live(s, u, MessageKey(s.messages[id].parent))
    ensures var t := MarkSent(s, u, id);
      KeptBut(s, t, {MessageKey(id)}) && Told(s, t, u, MessageKey(id)) && t.accounts.Keys == s.accounts.Keys
  {
    hide Core, KeptBut, Kept, Told, MarkParent, Log, MarkSent, Filed;
    var k := {MessageKey(id)};
    var msg := Sent(s, id);
    var t1 := s.(messages := s.messages[id := msg]);
    FiledKeeps(s, id, msg);
    MarkParentKeeps(t1, u, msg.parent, msg.action);
    var t2 := MarkParent(t1, u, msg.parent, msg.action);
    KeptIsKeptBut(t1, t2, k);
    KeptButComposes(s, t1, t2, k);
    RelogKeeps(t2, u, id);
    MarkSentIs(s, u, id);
    var t3 := MarkSent(s, u, id);
    KeptIsKeptBut(t2, t3, k);
    KeptButComposes(s, t2, t3, k);
    ToldLater(s, t2, t3, u, MessageKey(id), k);
  }

  lemma ToldLater(a: State, b: State, c: State, w: Id, k: Key, silent: set<Key>)
    requires KeptBut(a, b, silent) && w in a.accounts && w in b.accounts && Told(b, c, w, k)
    ensures Told(a, c, w, k)
  {
    hide Core, ThreadsOk, ValueOf, LastSettings;
    assert Tells(a, b, w, silent);
    DeltaConcat(a, b, c, w);
    MentionedConcat(Delta(a, b, w), Delta(b, c, w), k);
  }

  lemma DeltaConcat(a: State, b: State, c: State, w: Id)
    requires LogsOk(a) && LogsOk(b) && LogsOk(c) && w in a.accounts && w in b.accounts && w in c.accounts
    requires LogOf(a, w) <= LogOf(b, w) <= LogOf(c, w)
    ensures Delta(a, c, w) == Delta(a, b, w) + Delta(b, c, w)
  {
    hide LogsOk, LogOf;
    JoinSlices(LogOf(c, w), |LogOf(a, w)|, |LogOf(b, w)|, |LogOf(c, w)|);
  }

  /** Sending tells the sender about the message and its parent, and each
      recipient about the copy. */
  lemma SendMessageKeeps(s: State, u: Id, id: Id, ds: seq<Delivery>)
    requires Core(s)
    requires u in s.accounts ==> Live(s, u, MessageKey(id)) && SendIsSafe(s, id)
    requires u in s.accounts && s.messages[id].parent in s.messages ==> Live(s, u, MessageKey(s.messages[id].parent))
    requires u in s.accounts ==> AllResolve(MarkSent(s, u, id), id, ds)
    ensures Kept(s, SendMessage(s, u, id, ds).state)
  {
    hide Core, KeptBut, Kept, Told, MarkSent, DeliverAll;
    NothingKeeps(s);
    if u in s.accounts {
      var k := MessageKey(id);
      var t := MarkSent(s, u, id);
      MarkSentKeeps(s, u, id);
      KeptButIsCore(s, t, {k});
      var r := DeliverAll(t, id, ds).state;
      DeliverAllKeeps(t, id, ds);
      KeptButComposes(s, t, r, {k});
      KeptButIsCore(s, r, {k});
      ToldBefore(s, t, r, u, k);
      MarkSentLists(s, u, id);
      DeliveriesAdd(t, id, ds, u, id);
      forall w | w != u ensures !Live(s, w, k) && !Live(r, w, k) {
        NotOthers(s, u, w, k);
        NotOthers(r, u, w, k);
      }
      NoLongerSilent(s, r, k);
    }
  }

  lemma NotOthers(s: State, u: Id, w: Id, k: Key)
    requires Core(s) && Live(s, u, k) && u != w && !k.kind.AddressKind?
    ensures !Live(s, w, k)
  {}

  lemma MarkSentLists(s: State, u: Id, id: Id)
    requires u in s.accounts && SendIsSafe(s, id)
    ensures u in MarkSent(s, u, id).accounts && MarkSent(s, u, id).accounts[u].messageIDs == s.accounts[u].messageIDs
  {}

  /** Delivering takes no message from anybody. */
  lemma {:induction false} DeliveriesAdd(s: State, id: Id, ds: seq<Delivery>, u: Id, m: Id)
    requires AttachmentsKnown(s, id) && AllResolve(s, id, ds) && u in s.accounts && m in s.accounts[u].messageIDs
    ensures var t := DeliverAll(s, id, ds).state; u in t.accounts && m in t.accounts[u].messageIDs
    decreases ds
  {
    if ds != [] {
      var r := DeliverOne(s, id, ds[0]);
      assert u in r.state.accounts && m in r.state.accounts[u].messageIDs by { DeliveryAdds(s, id, ds[0], u, m); }
      hide DeliverOne;
      if r.ok {
        DeliveriesAdd(r.state, id, ds[1..], u, m);
      }
    }
  }

  lemma DeliveryAdds(s: State, id: Id, d: Delivery, u: Id, m: Id)
    requires AttachmentsKnown(s, id) && Resolves(s, d) && u in s.accounts && m in s.accounts[u].messageIDs
    ensures var t := DeliverOne(s, id, d).state; u in t.accounts && m in t.accounts[u].messageIDs
  {
    hide Delivered, StoreCopy, AttachmentsKnown;
  }

  lemma ToldBefore(a: State, b: State, c: State, w: Id, k: Key)
    requires Told(a, b, w, k) && KeptBut(b, c, {k}) && w in c.accounts
    ensures Told(a, c, w, k)
  {
    assert Tells(b, c, w, {k});
    ToldStays(a, b, c, w, k, {k});
  }
}
