/** What the calls do, in the terms of the clients that see it: an account's
    objects, their values and its log (server/backend/api.go). */
module Effects {
  import opened Ids
  import opened Updates
  import Lexical
  import opened Locations
  import opened LabelForest
  import opened Records
  import opened Attachments
  import opened Operations
  import opened Views
  import opened Invariants
  import opened Steps
  import opened AddressSteps
  import opened LabelSteps
  import opened MessageSteps
  import opened MailSteps
  import opened SendSteps
  import opened Families

  /** `t` has the value for the account's object, and logged one update. */
  ghost predicate Shown(s: State, t: State, u: Id, update: Update, k: Key, value: Option<Value>) {
    && LogsOk(s) && LogsOk(t) && u in s.accounts && u in t.accounts
    && LogOf(t, u) == LogOf(s, u) + [update] && ValueOf(t, u, k) == value
  }

  lemma LogsShows(s: State, t: State, u: Id, update: Update, k: Key, value: Option<Value>)
    requires LogsOk(s) && Logs(s, t, u, update) && ValueOf(t, u, k) == value
    ensures Shown(s, t, u, update, k, value)
  {
    hide ValueOf;
    LogsIsAppend(s, t, u, update);
  }

  // ---------------------------------------------------------------------
  // Labels

  /** A label is created exactly when it has no parent, or is a folder and the
      parent exists; nothing changes otherwise. */
  lemma CreateLabelEffect(s: State, u: Id, name: string, parent: Id, labelType: LabelType)
    requires Core(s)
    ensures var r, k := CreateLabel(s, u, name, parent, labelType), LabelKey(Uuid(s.nextUuid));
      && (r.ok <==> u in s.accounts && (parent == NoId || (labelType.FolderType? && parent in s.labels)))
      && (r.ok ==> ValueOf(s, u, k) == None && Shown(s, r.state, u, Created(k), k, Some(LabelValue(Label(name, parent, labelType)))))
      && (!r.ok ==> r.state == s)
  {
    hide Log, WithLabels, Shown, Core, ValueOf;
    if u in s.accounts && ParentAllowed(s, parent, labelType) {
      var id, l := Uuid(s.nextUuid), Label(name, parent, labelType);
      var labels, labelIDs, update := s.labels[id := l], s.accounts[u].labelIDs + [id], Created(LabelKey(id));
      CoreIsLogsOk(s);
      NewLabelIsNew(s, u);
      CreateLabelIs(s, u, name, parent, labelType);
      WithoutNewKey(s.labels, id, l);
      WithLabelsLogs(s, u, id, labels, labelIDs, s.nextUuid + 1, update);
      WithLabelsShows(s, u, id, labels, labelIDs, s.nextUuid + 1, update);
      LogsShows(s, WithLabels(s, u, labels, labelIDs, s.nextUuid + 1, update), u, update, LabelKey(id), Some(LabelValue(l)));
    }
  }

  lemma NewLabelIsNew(s: State, u: Id)
    requires Core(s)
    ensures ValueOf(s, u, LabelKey(Uuid(s.nextUuid))) == None
  {
    var k := LabelKey(Uuid(s.nextUuid));
    assert Live(s, u, k) ==> Present(s, u, k);
  }

  lemma WithLabelsShows(s: State, u: Id, id: Id, labels: Labels, labelIDs: seq<Id>, n: nat, update: Update)
    requires u in s.accounts && id in labels && id in labelIDs
    ensures ValueOf(WithLabels(s, u, labels, labelIDs, n, update), u, LabelKey(id)) == Some(LabelValue(labels[id]))
  {}

  /** Renaming and moving keep the label's type. */
  lemma UpdateLabelEffect(s: State, u: Id, id: Id, name: string, parent: Id)
    requires Core(s) && Live(s, u, LabelKey(id)) && id in s.labels
    ensures var r, l := UpdateLabel(s, u, id, name, parent), s.labels[id];
      && (r.ok <==> parent == NoId || (l.labelType.FolderType? && parent in s.labels))
      && (r.ok ==> Shown(s, r.state, u, Updated(LabelKey(id)), LabelKey(id), Some(LabelValue(Label(name, parent, l.labelType)))))
      && (!r.ok ==> r.state == s)
  {
    hide Shown, Core;
    if ParentAllowed(s, parent, s.labels[id].labelType) {
      CoreIsLogsOk(s);
      var t := s.(labels := s.labels[id := s.labels[id].(name := name, parent := parent)]);
      LogLogs(t, u, Updated(LabelKey(id)));
      LogsShows(s, Log(t, u, Updated(LabelKey(id))), u, Updated(LabelKey(id)), LabelKey(id), Some(LabelValue(Label(name, parent, s.labels[id].labelType))));
    }
  }

  function Deletions(ids: seq<Id>): seq<Update> {
    if ids == [] then [] else [Deleted(LabelKey(ids[0]))] + Deletions(ids[1..])
  }

  lemma {:induction false} DropLabelsLog(s: State, u: Id, ids: seq<Id>)
    requires LogsOk(s) && u in s.accounts
    ensures var t := DropLabels(s, u, ids); LogsOk(t) && u in t.accounts && LogOf(t, u) == LogOf(s, u) + Deletions(ids)
    decreases ids
  {
    if ids == [] {
      assert LogOf(s, u) + [] == LogOf(s, u);
    } else {
      var t, update := DropLabel(s, u, ids[0]), Deleted(LabelKey(ids[0]));
      DropLabelIsLogged(s, u, ids[0]);
      LogsIsAppend(s, t, u, update);
      hide LogsOk, LogOf, DropLabel, Logs;
      DropLabelsLog(t, u, ids[1..]);
      AppendTwice(LogOf(s, u), [update], Deletions(ids[1..]));
    }
  }

  lemma DropLabelIsLogged(s: State, u: Id, id: Id)
    requires u in s.accounts
    ensures Logs(s, DropLabel(s, u, id), u, Deleted(LabelKey(id)))
  {}

  /** Deleting a label removes it and all its descendants, no other label, and
      logs each deletion once. */
  lemma DeleteLabelEffect(s: State, u: Id, id: Id, order: seq<Id>)
    requires Inv(s) && Live(s, u, LabelKey(id)) && id in s.labels && IsSubtree(s.labels, id, order)
    ensures var r := DeleteLabel(s, u, id, order);
      && r.ok && LogsOk(s) && LogsOk(r.state) && u in r.state.accounts
      && (forall x :: x in r.state.labels <==> x in s.labels && !Under(s.labels, x, id))
      && (forall x :: x in r.state.labels ==> r.state.labels[x] == s.labels[x])
      && (forall x :: x in r.state.accounts[u].labelIDs <==> x in s.accounts[u].labelIDs && !Under(s.labels, x, id))
      && LogOf(r.state, u) == LogOf(s, u) + Deletions(order) && NoDup(order)
  {
    hide Inv, LogsOk, LogOf, DropLabels;
    InvCore(s);
    DropLabelsLog(s, u, order);
    DropLabelsBecome(s, u, order);
  }

  // ---------------------------------------------------------------------
  // New messages

  lemma NewMessageIsNew(s: State, u: Id)
    requires Core(s)
    ensures ValueOf(s, u, MessageKey(Uuid(s.nextUuid))) == None && Uuid(s.nextUuid) !in s.messages
  {
    var k := MessageKey(Uuid(s.nextUuid));
    assert Live(s, u, k) ==> Present(s, u, k);
  }

  lemma AddMessageShows(s: State, u: Id, msg: Message)
    requires Core(s) && u in s.accounts && msg.attIDs == []
    ensures var t, k := AddMessage(s, u, msg), MessageKey(Uuid(s.nextUuid));
      && ValueOf(s, u, k) == None && Shown(s, t, u, Created(k), k, Some(ToMetadata(msg, map[], map[])))
      && Uuid(s.nextUuid) in t.messages && t.messages[Uuid(s.nextUuid)] == msg
  {
    hide Core, Shown, ToMetadata;
    var id := Uuid(s.nextUuid);
    var t := AddMessage(s, u, msg);
    CoreIsLogsOk(s);
    NewMessageIsNew(s, u);
    assert Logs(s, t, u, Created(MessageKey(id)));
    assert ToMetadata(msg, t.attachments, t.attData) == ToMetadata(msg, map[], map[]) by { SizeOfNothing(msg, t); }
    LogsShows(s, t, u, Created(MessageKey(id)), MessageKey(id), Some(ToMetadata(msg, map[], map[])));
  }

  lemma SizeOfNothing(msg: Message, t: State)
    requires msg.attIDs == []
    ensures ToMetadata(msg, t.attachments, t.attData) == ToMetadata(msg, map[], map[])
  {}

  /** The address, sender, recipients and subject are the same. */
  predicate SameEnvelope(m: Message, addrID: Id, content: Content) {
    && m.addrID == addrID && m.content.sender == content.sender && m.content.subject == content.subject
    && m.content.to == content.to && m.content.cc == content.cc && m.content.bcc == content.bcc
  }

  /** An import makes a new message without external ID, unless deduplication
      is on and a message has the same address, sender, recipients and subject. */
  lemma CreateMessageEffect(s: State, u: Id, addrID: Id, content: Content, flags: set<Flag>, unread: bool, starred: bool)
    requires Core(s)
    ensures var r, k := CreateMessage(s, u, addrID, content, flags, unread, starred), MessageKey(Uuid(s.nextUuid));
      var same := exists id :: id in s.messages && SameEnvelope(s.messages[id], addrID, content);
      && (r.ok <==> u in s.accounts)
      && (!r.ok || (s.enableDedup && same) ==> r.state == s)
      && (r.ok && !(s.enableDedup && same) ==>
            ValueOf(s, u, k) == None && Shown(s, r.state, u, Created(k), k, Some(MessageValue(
              "", addrID, DerivedLabels(Filing([], Some(NoId), starred), flags),
              content.subject, content.sender, content.to, content.cc, content.bcc, |content.body|, flags, unread))))
  {
    hide Core, Shown, AddMessage, DerivedLabels, ValueOf;
    if u in s.accounts {
      var msg := Message(addrID, NEW_FILING.(starred := starred), [], NoId, ReplyAction, content.(externalID := ""), flags, unread);
      AddMessageShows(s, u, msg);
      assert [] + DerivedLabels(msg.filing, flags) == DerivedLabels(msg.filing, flags);
      assert forall m :: SameEnvelope(m, addrID, content) == SameMail(m, msg);
    }
  }

  /** A draft is shown among the drafts, unsent, and remembers a parent that exists. */
  lemma CreateDraftEffect(s: State, u: Id, addrID: Id, content: Content, unread: bool, parent: Id, action: DraftAction)
    requires Core(s)
    ensures var r, id := CreateDraft(s, u, addrID, content, unread, parent, action), Uuid(s.nextUuid);
      && (r.ok <==> u in s.accounts) && (!r.ok ==> r.state == s)
      && (r.ok ==>
            && ValueOf(s, u, MessageKey(id)) == None
            && Shown(s, r.state, u, Created(MessageKey(id)), MessageKey(id), Some(MessageValue(
                 content.externalID, addrID, [ALL_MAIL, ALL_DRAFTS, DRAFTS],
                 content.subject, content.sender, content.to, content.cc, content.bcc, |content.body|, {}, unread)))
            && id in r.state.messages && r.state.messages[id].action == action
            && r.state.messages[id].parent == if parent in s.messages then parent else NoId)
  {
    hide Core, Shown, AddMessage, ValueOf;
    if u in s.accounts {
      var known := if parent in s.messages then parent else NoId;
      var msg := Message(addrID, Filed(NEW_FILING, DRAFTS, s.labels), [], known, action, content, {}, unread);
      AddMessageShows(s, u, msg);
      DraftIsShown(s.labels);
      hide Filed, DerivedLabels;
    }
  }

  lemma DraftIsShown(labels: Labels)
    ensures var f := Filed(NEW_FILING, DRAFTS, labels); f.labelIDs + DerivedLabels(f, {}) == [ALL_MAIL, ALL_DRAFTS, DRAFTS]
  {}

  // ---------------------------------------------------------------------
  // Edits

  function Touches(messages: map<Id, Message>, ids: seq<Id>): seq<Update> {
    if ids == [] then []
    else (if ids[0] in messages then [Updated(MessageKey(ids[0]))] else []) + Touches(messages, ids[1..])
  }

  lemma {:induction false} TouchesSame(messages: map<Id, Message>, messages': map<Id, Message>, ids: seq<Id>)
    requires messages.Keys == messages'.Keys
    ensures Touches(messages, ids) == Touches(messages', ids)
  {
    if ids != [] {
      TouchesSame(messages, messages', ids[1..]);
    }
  }

  /** One update is logged for each stored message of the list, in order. */
  lemma {:induction false} EditAllEffect(s: State, u: Id, e: Edit, ids: seq<Id>)
    requires LogsOk(s) && u in s.accounts && EditIsSafe(s, e, ids)
    ensures var t := EditAll(s, u, e, ids);
      LogsOk(t) && u in t.accounts && LogOf(t, u) == LogOf(s, u) + Touches(s.messages, ids)
    decreases ids
  {
    hide EditMessage, LogOf, LogsOk;
    if ids == [] {
      assert LogOf(s, u) + [] == LogOf(s, u);
    } else {
      assert ids[0] in ids && forall id :: id in ids[1..] ==> id in ids;
      if ids[0] in s.messages {
        EditSafeAfter(s, u, e, ids);
        var msg, update := EditMessage(s.messages[ids[0]], e, s.labels), Updated(MessageKey(ids[0]));
        var t := TouchMessage(s, u, ids[0], msg);
        TouchIsLogged(s, u, ids[0], msg);
        hide TouchMessage, Logs;
        EditAllEffect(t, u, e, ids[1..]);
        TouchesSame(s.messages, t.messages, ids[1..]);
        AppendTwice(LogOf(s, u), [update], Touches(s.messages, ids[1..]));
      } else {
        EditAllEffect(s, u, e, ids[1..]);
        assert [] + Touches(s.messages, ids[1..]) == Touches(s.messages, ids[1..]);
      }
    }
  }

  lemma TouchIsLogged(s: State, u: Id, id: Id, msg: Message)
    requires LogsOk(s) && u in s.accounts
    ensures var t := TouchMessage(s, u, id, msg);
      && LogsOk(t) && u in t.accounts && LogOf(t, u) == LogOf(s, u) + [Updated(MessageKey(id))]
      && t.messages == s.messages[id := msg] && t.labels == s.labels
      && t.attachments == s.attachments && t.attData == s.attData
  {
    hide LogsOk, LogOf;
    var t := TouchMessage(s, u, id, msg);
    assert Logs(s, t, u, Updated(MessageKey(id)));
    LogsIsAppend(s, t, u, Updated(MessageKey(id)));
  }

  /** Editing a message twice is editing it once. */
  lemma EditTwice(m: Message, e: Edit, labels: Labels)
    requires e.Put? ==> AddIsSafe(m.filing, e.labelID, labels)
    ensures var n := EditMessage(m, e, labels);
      (e.Put? ==> AddIsSafe(n.filing, e.labelID, labels)) && EditMessage(n, e, labels) == n
  {
    if e.Put? {
      FiledTwice(m.filing, e.labelID, labels);
    }
    if e.Take? {
      WithoutTwice(m.filing.labelIDs, e.labelID);
    }
  }

  lemma {:induction false} WithoutTwice(ids: seq<Id>, id: Id)
    ensures Without(Without(ids, id), id) == Without(ids, id)
  {
    if ids != [] {
      WithoutTwice(ids[1..], id);
    }
  }

  lemma {:induction false} KeepTagsAgain(ids: seq<Id>, labels: Labels)
    requires forall id :: id in ids ==> IsTag(id, labels)
    ensures KeepTags(ids, labels) == Some(ids)
  {
    if ids != [] {
      assert ids == [ids[0]] + ids[1..];
      KeepTagsAgain(ids[1..], labels);
    }
  }

  lemma {:induction false} KeepTagsOfOne(ids: seq<Id>, id: Id, labels: Labels)
    requires forall x :: x in ids ==> IsTag(x, labels)
    requires id in labels && !IsTag(id, labels)
    ensures KeepTags(ids + [id], labels) == Some(ids)
  {
    if ids == [] {
      assert KeepTags([id], labels) == Some([]);
      assert [] + [id] == [id];
    } else {
      assert ids == [ids[0]] + ids[1..];
      assert (ids + [id])[1..] == ids[1..] + [id];
      KeepTagsOfOne(ids[1..], id, labels);
    }
  }

  lemma FiledTwice(f: Filing, id: Id, labels: Labels)
    requires AddIsSafe(f, id, labels)
    ensures var g := Filed(f, id, labels); AddIsSafe(g, id, labels) && Filed(g, id, labels) == g
  {
    if Exclusive(id, labels) {
      var ids := KeepTags(f.labelIDs, labels).value;
      KeepTagsAgain(ids, labels);
      if id in labels && !ByFlagsLabel(id) && !SystemLabel(id) {
        KeepTagsOfOne(ids, id, labels);
      }
    }
  }

  /** Each stored message of the list is edited, however often the list names
      it, and no other message changes. */
  lemma {:induction false} EditAllChanges(s: State, u: Id, e: Edit, ids: seq<Id>, m: Id)
    requires u in s.accounts && EditIsSafe(s, e, ids) && m in s.messages
    requires e.Put? ==> AddIsSafe(s.messages[m].filing, e.labelID, s.labels)
    ensures var t := EditAll(s, u, e, ids);
      m in t.messages && t.messages[m] == if m in ids then EditMessage(s.messages[m], e, s.labels) else s.messages[m]
    decreases ids
  {
    hide EditMessage;
    if ids != [] {
      assert ids[0] in ids && forall id :: id in ids <==> id == ids[0] || id in ids[1..];
      if ids[0] in s.messages {
        EditSafeAfter(s, u, e, ids);
        var msg := EditMessage(s.messages[ids[0]], e, s.labels);
        EditTwice(s.messages[ids[0]], e, s.labels);
        TouchKeepsAccounts(s, u, ids[0], msg);
        var t := TouchMessage(s, u, ids[0], msg);
        hide TouchMessage;
        EditAllChanges(t, u, e, ids[1..], m);
      } else {
        EditAllChanges(s, u, e, ids[1..], m);
      }
    }
  }

  /** What an edit that does not panic changes in what a client is shown. */
  lemma EditShows(m: Message, e: Edit, labels: map<Id, Label>, atts: map<Id, Attachment>, data: map<Id, string>)
    requires UserLabels(labels) && Neat(m.filing, labels) && (e.Put? ==> AddIsSafe(m.filing, e.labelID, labels))
    ensures var n := EditMessage(m, e, labels);
      && n.content == m.content && n.attIDs == m.attIDs && n.addrID == m.addrID && n.parent == m.parent && n.action == m.action
      && n.unread == (if e.MarkRead? then !e.read else m.unread)
      && n.flags - {Forwarded} == m.flags - {Forwarded}
      && (Forwarded in n.flags <==> if e.MarkForwarded? then e.forwarded else Forwarded in m.flags)
      && Neat(n.filing, labels)
      && SpotOf(n.filing, labels) == match e {
           case Put(id) => SpotAdd(SpotOf(m.filing, labels), id, labels)
           case Take(id) => SpotRem(SpotOf(m.filing, labels), id, labels)
           case _ => SpotOf(m.filing, labels)
         }
  {
    hide Filed, RemLabel, SpotOf, SpotAdd, SpotRem, Neat;
    if e.Put? {
      AddRefines(m.filing, e.labelID, labels);
    }
    if e.Take? {
      RemRefines(m.filing, e.labelID, labels);
    }
  }

  // ---------------------------------------------------------------------
  // Attachments

  /** The last attachment of a list is the one kept for its sort key. */
  lemma NewestIsKept(atts: map<Id, Attachment>, ids: seq<Id>, a: Id)
    requires forall x :: x in ids + [a] ==> x in atts
    ensures a in SortAttachments(atts, ids + [a])
  {
    var all, content := ids + [a], KeyOf(atts[a]).ByContent?;
    assert all[|all| - 1] == a && all[..|all| - 1] == ids;
    var m := LastBy(atts, all, content);
    var text := KeyText(KeyOf(atts[a]));
    assert m[text] == a;
    var keys := Lexical.Sorted(m.Keys);
    assert text in keys;
    var i :| 0 <= i < |keys| && keys[i] == text;
    assert Read(keys, m)[i] == a;
    assert a in SortHalf(atts, all, content);
  }

  /** The new attachment is stored with its data and listed; the list keeps one
      attachment for each content ID or file name it had. */
  lemma CreateAttachmentEffect(s: State, u: Id, id: Id, filename: string, contentID: string, inline: bool, data: string)
    requires Core(s) && (u in s.accounts ==> AttachmentsKnown(s, id))
    ensures var r := CreateAttachment(s, u, id, filename, contentID, inline, data);
      var d, a, att := Uuid(s.nextUuid), Uuid(s.nextUuid + 1), Attachment(Uuid(s.nextUuid), filename, contentID);
      && (r.ok <==> u in s.accounts && (inline ==> contentID != "")) && (!r.ok ==> r.state == s)
      && (r.ok ==>
            && r.state.attachments == s.attachments[a := att] && r.state.attData == s.attData[d := data]
            && id in r.state.messages && a in r.state.messages[id].attIDs
            && Keys(r.state.attachments, r.state.messages[id].attIDs) == Keys(s.attachments, s.messages[id].attIDs) + {KeyOf(att)}
            && LogsOk(s) && LogsOk(r.state) && u in r.state.accounts
            && LogOf(r.state, u) == LogOf(s, u) + [Updated(MessageKey(id))])
  {
    hide Core, SortAttachments, TouchMessage, LogOf, LogsOk, Keys, KeyOf;
    if u in s.accounts && !(inline && contentID == "") {
      CoreIsLogsOk(s);
      NewIdsAreFree(s);
      var d, a, att := Uuid(s.nextUuid), Uuid(s.nextUuid + 1), Attachment(Uuid(s.nextUuid), filename, contentID);
      var t := s.(attData := s.attData[d := data], attachments := s.attachments[a := att], nextUuid := s.nextUuid + 2);
      SortedWithNew(s.attachments, s.messages[id].attIDs, a, att);
      SameLogsOk(s, t, u);
      TouchIsLogged(t, u, id, s.messages[id].(attIDs := SortAttachments(t.attachments, s.messages[id].attIDs + [a])));
    }
  }

  /** An attachment under a new content ID or file name adds its length to the
      size the message is shown with. */
  lemma CreateAttachmentGrows(s: State, u: Id, id: Id, filename: string, contentID: string, inline: bool, data: string)
    requires Core(s) && u in s.accounts && AttachmentsKnown(s, id) && (inline ==> contentID != "")
    requires DistinctKeys(s.attachments, s.messages[id].attIDs)
    requires (if contentID != "" then ByContent(contentID) else ByName(filename)) !in Keys(s.attachments, s.messages[id].attIDs)
    ensures var t, m := CreateAttachment(s, u, id, filename, contentID, inline, data).state, s.messages[id];
      && id in t.messages
      && ToMetadata(t.messages[id], t.attachments, t.attData).size == ToMetadata(m, s.attachments, s.attData).size + |data|
  {
    hide Core, SortAttachments, DistinctKeys, Keys, NoDup, DataSize, CreateAttachment;
    NewIdsAreFree(s);
    KnownLists(s, id);
    CreateAttachmentIs(s, u, id, filename, contentID, inline, data);
    var d, a, att := Uuid(s.nextUuid), Uuid(s.nextUuid + 1), Attachment(Uuid(s.nextUuid), filename, contentID);
    NewAttachmentSize(s.attachments, s.attData, s.messages[id].attIDs, d, a, att, data);
  }

  lemma CreateAttachmentIs(s: State, u: Id, id: Id, filename: string, contentID: string, inline: bool, data: string)
    requires u in s.accounts && AttachmentsKnown(s, id) && (inline ==> contentID != "") && Uuid(s.nextUuid + 1) !in s.attachments
    ensures var t := CreateAttachment(s, u, id, filename, contentID, inline, data).state;
      var d, a, att := Uuid(s.nextUuid), Uuid(s.nextUuid + 1), Attachment(Uuid(s.nextUuid), filename, contentID);
      && t.attachments == s.attachments[a := att] && t.attData == s.attData[d := data] && id in t.messages
      && t.messages[id] == s.messages[id].(attIDs := SortAttachments(s.attachments[a := att], s.messages[id].attIDs + [a]))
  {
    hide SortAttachments;
  }

  lemma NewAttachmentSize(atts: map<Id, Attachment>, data: map<Id, string>, ids: seq<Id>, d: Id, a: Id, att: Attachment, bytes: string)
    requires NoDup(ids) && a !in atts && d !in data && att.dataID == d
    requires forall x :: x in ids ==> x in atts && atts[x].dataID in data
    requires DistinctKeys(atts, ids) && KeyOf(att) !in Keys(atts, ids)
    ensures var atts' := atts[a := att];
      DataSize(SortAttachments(atts', ids + [a]), atts', data[d := bytes]) == DataSize(ids, atts, data) + |bytes|
  {
    hide SortAttachments, DistinctKeys, Keys, KeyOf, NoDup, DataSize;
    var atts', data' := atts[a := att], data[d := bytes];
    SortedIsAll(atts, ids, a, att);
    SizeOfSame(SortAttachments(atts', ids + [a]), ids + [a], atts', data');
    SizesAdd(ids, [a], atts', data');
    SameSize(atts, data, atts', data', ids);
  }

  lemma KnownLists(s: State, id: Id)
    requires Core(s) && AttachmentsKnown(s, id)
    ensures NoDup(s.messages[id].attIDs) && forall a :: a in s.messages[id].attIDs ==> s.attachments[a].dataID in s.attData
  {}

  lemma {:induction false} SameSize(atts: map<Id, Attachment>, data: map<Id, string>, atts': map<Id, Attachment>, data': map<Id, string>, ids: seq<Id>)
    requires forall a :: a in ids ==> a in atts && a in atts' && atts'[a] == atts[a]
    requires forall a :: a in ids ==> atts[a].dataID in data && atts[a].dataID in data' && data'[atts[a].dataID] == data[atts[a].dataID]
    ensures DataSize(ids, atts, data) == DataSize(ids, atts', data')
  {
    if ids != [] {
      SameSize(atts, data, atts', data', ids[1..]);
    }
  }

  lemma SortedIsAll(atts: map<Id, Attachment>, ids: seq<Id>, a: Id, att: Attachment)
    requires NoDup(ids) && a !in atts && (forall x :: x in ids ==> x in atts)
    requires DistinctKeys(atts, ids) && KeyOf(att) !in Keys(atts, ids)
    ensures var sorted := SortAttachments(atts[a := att], ids + [a]);
      NoDup(sorted) && NoDup(ids + [a]) && forall x :: x in sorted <==> x in ids + [a]
  {
    hide SortAttachments, OnePerKey;
    var atts' := atts[a := att];
    SortKeepsOnePerKey(atts', ids + [a]);
    DistinctWithNew(atts, ids, a, att);
    SortDropsNothing(atts', ids + [a], SortAttachments(atts', ids + [a]));
    SortedAreListed(atts', ids + [a]);
  }

  lemma SortedAreListed(atts: map<Id, Attachment>, ids: seq<Id>)
    requires (forall x :: x in ids ==> x in atts) && OnePerKey(atts, ids, SortAttachments(atts, ids))
    ensures forall x :: x in SortAttachments(atts, ids) ==> x in ids
  {
    hide SortAttachments;
  }

  lemma DistinctWithNew(atts: map<Id, Attachment>, ids: seq<Id>, a: Id, att: Attachment)
    requires NoDup(ids) && a !in atts && (forall x :: x in ids ==> x in atts)
    requires DistinctKeys(atts, ids) && KeyOf(att) !in Keys(atts, ids)
    ensures DistinctKeys(atts[a := att], ids + [a]) && NoDup(ids + [a])
  {
    forall x | x in ids ensures KeyOf(atts[x]) != KeyOf(att) {
      assert KeyOf(atts[x]) in Keys(atts, ids);
    }
    assert forall i | 0 <= i < |ids| :: ids[i] in ids;
  }

  lemma SortedWithNew(atts: map<Id, Attachment>, ids: seq<Id>, a: Id, att: Attachment)
    requires a !in atts && forall x :: x in ids ==> x in atts
    ensures var atts' := atts[a := att];
      var sorted := SortAttachments(atts', ids + [a]);
      a in sorted && Keys(atts', sorted) == Keys(atts, ids) + {KeyOf(att)}
  {
    hide SortAttachments;
    var atts' := atts[a := att];
    SortKeepsOnePerKey(atts', ids + [a]);
    NewestIsKept(atts', ids, a);
    KeysConcat(atts', ids, [a]);
    KeysSame(atts, atts', ids);
  }

  lemma KeysSame(atts: map<Id, Attachment>, atts': map<Id, Attachment>, ids: seq<Id>)
    requires forall a :: a in ids ==> a in atts && a in atts' && atts'[a] == atts[a]
    ensures Keys(atts', ids) == Keys(atts, ids)
  {}

  lemma SameLogsOk(s: State, t: State, u: Id)
    requires LogsOk(s) && t.accounts == s.accounts && t.updates == s.updates && u in s.accounts
    ensures LogsOk(t) && LogOf(t, u) == LogOf(s, u)
  {}

  // ---------------------------------------------------------------------
  // Sending

  /** The next `count` generated IDs. */
  function NewIds(n: nat, count: nat): (ids: seq<Id>)
    ensures |ids| == count && forall i | 0 <= i < count :: ids[i] == Uuid(n + i)
  {
    seq(count, (i: nat) => Uuid(n + i))
  }

  ghost predicate UnusedFrom(atts: map<Id, Attachment>, n: nat) { forall k | k >= n :: Uuid(k) !in atts }

  /** Old attachments stay, and the new ones equal those of the list. */
  ghost predicate Copied(before: map<Id, Attachment>, after: map<Id, Attachment>, n: nat, ids: seq<Id>) {
    && (forall a | a in before :: a in after && after[a] == before[a])
    && (forall i | 0 <= i < |ids| && ids[i] in before :: Uuid(n + i) in after && after[Uuid(n + i)] == before[ids[i]])
  }

  lemma CopiedOneMore(before: map<Id, Attachment>, after: map<Id, Attachment>, n: nat, ids: seq<Id>)
    requires ids != [] && ids[0] in before && UnusedFrom(before, n)
    requires Copied(before[Uuid(n) := before[ids[0]]], after, n + 1, ids[1..])
    ensures Copied(before, after, n, ids)
  {
    forall i | 0 <= i < |ids| && ids[i] in before ensures Uuid(n + i) in after && after[Uuid(n + i)] == before[ids[i]] {
      if i > 0 {
        assert ids[i] == ids[1..][i - 1];
      }
    }
  }

  /** The message with more attachments at the end of its list. */
  ghost predicate ListsMore(before: Message, after: Message, ids: seq<Id>) {
    after == before.(attIDs := before.attIDs + ids)
  }

  lemma ListsNoMore(m: Message)
    ensures ListsMore(m, m, [])
  {
    assert m.attIDs + [] == m.attIDs;
  }

  lemma ListsMoreComposes(a: Message, b: Message, c: Message, x: seq<Id>, y: seq<Id>)
    requires ListsMore(a, b, x) && ListsMore(b, c, y)
    ensures ListsMore(a, c, x + y)
  {
    AppendTwice(a.attIDs, x, y);
  }

  /** Each attachment of the list is copied once, in order, shares its data and
      is listed under a new ID. */
  ghost predicate CopiesTo(s: State, t: State, id: Id, ids: seq<Id>) {
    && id in s.messages && id in t.messages && ListsMore(s.messages[id], t.messages[id], NewIds(s.nextUuid, |ids|))
    && Copied(s.attachments, t.attachments, s.nextUuid, ids) && t.attData == s.attData
  }

  /** The state after the first copy. */
  ghost predicate FirstCopy(s: State, c: State, id: Id, ids: seq<Id>) {
    && id in s.messages && id in c.messages && ids != [] && ids[0] in s.attachments
    && c.attachments == s.attachments[Uuid(s.nextUuid) := s.attachments[ids[0]]]
    && c.attData == s.attData && c.nextUuid == s.nextUuid + 1 && ListsMore(s.messages[id], c.messages[id], [Uuid(s.nextUuid)])
  }

  lemma CopiesToStep(s: State, c: State, t: State, id: Id, ids: seq<Id>)
    requires UnusedFrom(s.attachments, s.nextUuid) && FirstCopy(s, c, id, ids) && CopiesTo(c, t, id, ids[1..])
    ensures CopiesTo(s, t, id, ids)
  {
    hide Copied, ListsMore, UnusedFrom, NewIds;
    var n := s.nextUuid;
    CopiedOneMore(s.attachments, t.attachments, n, ids);
    OneMoreId(n, |ids|);
    ListsMoreComposes(s.messages[id], c.messages[id], t.messages[id], [Uuid(n)], NewIds(n + 1, |ids| - 1));
  }

  lemma CopiesToNothing(s: State, id: Id)
    requires id in s.messages
    ensures CopiesTo(s, s, id, [])
  {
    ListsNoMore(s.messages[id]);
  }

  lemma {:induction false} CopiesAre(s: State, id: Id, ids: seq<Id>)
    requires id in s.messages && UnusedFrom(s.attachments, s.nextUuid) && forall a :: a in ids ==> a in s.attachments
    ensures CopiesTo(s, CopyAttachments(s, id, ids), id, ids)
    decreases ids
  {
    if ids == [] {
      CopiesToNothing(s, id);
    } else {
      hide *;
      var c := CopyAttachment(s, id, ids[0]);
      CopyIsFirst(s, id, ids);
      CopiesAre(c, id, ids[1..]);
      CopiesToStep(s, c, CopyAttachments(c, id, ids[1..]), id, ids);
    }
  }

  lemma OneMoreId(n: nat, count: nat)
    requires count > 0
    ensures [Uuid(n)] + NewIds(n + 1, count - 1) == NewIds(n, count)
  {}

  lemma CopyIsFirst(s: State, id: Id, ids: seq<Id>)
    requires id in s.messages && ids != [] && UnusedFrom(s.attachments, s.nextUuid) && forall a :: a in ids ==> a in s.attachments
    ensures ids[0] in s.attachments
    ensures var c := CopyAttachment(s, id, ids[0]);
      && FirstCopy(s, c, id, ids) && id in c.messages && UnusedFrom(c.attachments, c.nextUuid)
      && (forall a :: a in ids[1..] ==> a in c.attachments)
      && CopyAttachments(s, id, ids) == CopyAttachments(c, id, ids[1..])
  {
    assert forall a :: a in ids[1..] ==> a in ids;
  }

  lemma ResortIs(s: State, id: Id)
    requires AttachmentsKnown(s, id)
    ensures var t := Resort(s, id);
      && t.attachments == s.attachments && t.attData == s.attData
      && t.messages == s.messages[id := s.messages[id].(attIDs := SortAttachments(s.attachments, s.messages[id].attIDs))]
  {}

  lemma StoredCopyIs(s: State, id: Id, addrID: Id, body: string)
    requires Core(s) && AttachmentsKnown(s, id)
    ensures var n, copy := |s.messages[id].attIDs|, Uuid(s.nextUuid);
      var c, ids := StoreCopy(s, id, addrID, body, n), NewIds(s.nextUuid + 1, n);
      && copy in c.messages && c.messages[copy] == ReceivedFrom(s.messages[id], addrID, body).(attIDs := ids)
      && c.attData == s.attData && SameFiles(s.attachments, s.messages[id].attIDs, c.attachments, ids)
  {
    hide Core, CopyAttachments, StoreCopy, Copied, SameFiles, ReceivedFrom;
    NewIdsAreFree(s);
    var copy, m, n := Uuid(s.nextUuid), s.messages[id], |s.messages[id].attIDs|;
    var s0 := s.(messages := s.messages[copy := ReceivedFrom(m, addrID, body)], nextUuid := s.nextUuid + 1);
    StoreCopyWhole(s, id, addrID, body);
    CopiesAre(s0, copy, m.attIDs);
    NothingBefore(m, addrID, body, NewIds(s0.nextUuid, n));
    CopiesAreTheSame(s.attachments, CopyAttachments(s0, copy, m.attIDs).attachments, s0.nextUuid, m.attIDs);
  }

  lemma StoreCopyWhole(s: State, id: Id, addrID: Id, body: string)
    requires AttachmentsKnown(s, id)
    ensures var s0 := s.(messages := s.messages[Uuid(s.nextUuid) := ReceivedFrom(s.messages[id], addrID, body)], nextUuid := s.nextUuid + 1);
      StoreCopy(s, id, addrID, body, |s.messages[id].attIDs|) == CopyAttachments(s0, Uuid(s.nextUuid), s.messages[id].attIDs)
  {
    hide CopyAttachments, ReceivedFrom;
    assert s.messages[id].attIDs[..|s.messages[id].attIDs|] == s.messages[id].attIDs;
  }

  lemma NothingBefore(m: Message, addrID: Id, body: string, ids: seq<Id>)
    ensures ReceivedFrom(m, addrID, body).(attIDs := ReceivedFrom(m, addrID, body).attIDs + ids) == ReceivedFrom(m, addrID, body).(attIDs := ids)
  {
    assert [] + ids == ids;
  }

  /** The delivered message: the sent content without its blind copies and with
      the recipient's body, unread and in the inbox, with one attachment for each
      sort key, each with the record - and so the data - of one that was sent. */
  lemma DeliveredMessage(s: State, id: Id, addrID: Id, body: string)
    requires Core(s) && AttachmentsKnown(s, id)
    ensures var r, copy, m := Delivered(s, id, addrID, body), Uuid(s.nextUuid), s.messages[id];
      && copy !in s.messages && copy in r.messages && r.attData == s.attData
      && r.messages[copy].content == m.content.(bcc := [], body := body) && r.messages[copy].addrID == addrID && r.messages[copy].unread
      && r.messages[copy].flags == {Received}
      && r.messages[copy].filing.labelIDs + DerivedLabels(r.messages[copy].filing, {Received}) == [ALL_MAIL, INBOX]
      && SameFiles(s.attachments, m.attIDs, r.attachments, r.messages[copy].attIDs)
  {
    hide Core, SortAttachments, StoreCopy, Resort, SameFiles;
    NewIdsAreFree(s);
    var copy, n := Uuid(s.nextUuid), |s.messages[id].attIDs|;
    var c := StoreCopy(s, id, addrID, body, n);
    StoredCopyIs(s, id, addrID, body);
    ResortIs(c, copy);
    ResortIs(Resort(c, copy), id);
    SortedFiles(s.attachments, s.messages[id].attIDs, c.attachments, NewIds(s.nextUuid + 1, n));
    assert [] + DerivedLabels(Filing([], None, false), {Received}) == [ALL_MAIL, INBOX];
  }

  /** One list takes its attachments from the other's, with the same sort keys. */
  ghost predicate SameFiles(before: map<Id, Attachment>, ids: seq<Id>, after: map<Id, Attachment>, ids': seq<Id>) {
    && Keys(after, ids') == Keys(before, ids)
    && forall b | b in ids' :: b in after && exists a :: a in ids && a in before && after[b] == before[a]
  }

  lemma CopiesAreTheSame(before: map<Id, Attachment>, after: map<Id, Attachment>, n: nat, ids: seq<Id>)
    requires Copied(before, after, n, ids) && forall a :: a in ids ==> a in before
    ensures SameFiles(before, ids, after, NewIds(n, |ids|))
  {
    var ids' := NewIds(n, |ids|);
    forall b | b in ids' ensures b in after && exists a :: a in ids && a in before && after[b] == before[a] {
      var i :| 0 <= i < |ids'| && ids'[i] == b;
      assert ids[i] in ids;
    }
    forall a | a in ids ensures KeyOf(before[a]) in Keys(after, ids') {
      var i :| 0 <= i < |ids| && ids[i] == a;
      assert ids'[i] in ids';
    }
  }

  lemma SortedFiles(before: map<Id, Attachment>, ids: seq<Id>, after: map<Id, Attachment>, ids': seq<Id>)
    requires SameFiles(before, ids, after, ids')
    ensures SameFiles(before, ids, after, SortAttachments(after, ids'))
  {
    SortKeepsOnePerKey(after, ids');
  }

  /** One recipient: the copy is listed and logged for the account that has the
      address; a bad attachment key leaves it stored, but nobody's. */
  lemma DeliverOneEffect(s: State, id: Id, d: Delivery)
    requires Core(s) && AttachmentsKnown(s, id) && Resolves(s, d)
    ensures var r, copy := DeliverOne(s, id, d), Uuid(s.nextUuid);
      && (d.External? ==> r == Reply(s, true)) && (d.Unparsable? || d.Nobody? ==> r == Reply(s, false))
      && (d.Deliver? ==>
            && (r.ok <==> |s.messages[id].attIDs| <= d.goodKeys)
            && copy in r.state.messages && copy !in s.messages
            && (!r.ok ==> r.state.accounts == s.accounts && r.state.updates == s.updates)
            && (r.ok ==>
                  && r.state.messages == Delivered(s, id, d.addrID, d.body).messages
                  && LogsOk(s) && LogsOk(r.state) && d.to in s.accounts && d.to in r.state.accounts
                  && LogOf(r.state, d.to) == LogOf(s, d.to) + [Created(MessageKey(copy))]
                  && r.state.accounts[d.to].messageIDs == s.accounts[d.to].messageIDs + [copy]))
  {
    hide Core, Delivered, StoreCopy, ListMessage, LogOf, LogsOk, MailOk, Relists;
    if d.Deliver? {
      NewIdsAreFree(s);
      CoreIsLogsOk(s);
      CoreIsMailOk(s);
      var copy := Uuid(s.nextUuid);
      if |s.messages[id].attIDs| <= d.goodKeys {
        var t := Delivered(s, id, d.addrID, d.body);
        DeliveredMessage(s, id, d.addrID, d.body);
        DeliveredLogs(s, id, d.addrID, d.body);
        SameLogsOk(s, t, d.to);
        ListIsLogged(t, d.to, copy);
      } else {
        StoreCopyRelists(s, id, d.addrID, d.body, d.goodKeys);
        StoreCopyLeaves(s, id, d.addrID, d.body, d.goodKeys);
      }
    }
  }

  lemma {:induction false} CopiesLogNothing(s: State, id: Id, ids: seq<Id>)
    requires id in s.messages && forall a :: a in ids ==> a in s.attachments
    ensures CopyAttachments(s, id, ids).updates == s.updates
    decreases ids
  {
    if ids != [] {
      CopiesLogNothing(CopyAttachment(s, id, ids[0]), id, ids[1..]);
    }
  }

  lemma StoreCopyLeaves(s: State, id: Id, addrID: Id, body: string, n: nat)
    requires AttachmentsKnown(s, id) && n <= |s.messages[id].attIDs|
    ensures StoreCopy(s, id, addrID, body, n).updates == s.updates && Uuid(s.nextUuid) in StoreCopy(s, id, addrID, body, n).messages
  {
    CopiesLogNothing(s.(messages := s.messages[Uuid(s.nextUuid) := ReceivedFrom(s.messages[id], addrID, body)], nextUuid := s.nextUuid + 1),
                     Uuid(s.nextUuid), s.messages[id].attIDs[..n]);
  }

  lemma DeliveredLogs(s: State, id: Id, addrID: Id, body: string)
    requires AttachmentsKnown(s, id)
    ensures Delivered(s, id, addrID, body).updates == s.updates
  {
    hide StoreCopy, SortAttachments;
    StoreCopyLeaves(s, id, addrID, body, |s.messages[id].attIDs|);
  }

  lemma ListIsLogged(t: State, to: Id, copy: Id)
    requires LogsOk(t) && to in t.accounts
    ensures var r := ListMessage(t, to, copy);
      && r.messages == t.messages && LogsOk(r) && to in r.accounts && LogOf(r, to) == LogOf(t, to) + [Created(MessageKey(copy))]
      && r.accounts[to].messageIDs == t.accounts[to].messageIDs + [copy]
  {
    hide LogsOk, LogOf;
    var r := ListMessage(t, to, copy);
    assert Logs(t, r, to, Created(MessageKey(copy)));
    LogsIsAppend(t, r, to, Created(MessageKey(copy)));
  }

  /** The message has one flag more, for what the draft was, and is otherwise the same. */
  ghost predicate IsMarked(before: Message, action: DraftAction, after: Message) {
    && after.(flags := before.flags) == before
    && forall flag :: flag in after.flags <==>
         || flag in before.flags
         || (flag == Replied && action == ReplyAction)
         || (flag == RepliedAll && action == ReplyAllAction)
         || (flag == Forwarded && action == ForwardAction)
  }

  /** The sender's side: the message is sent and filed by its flags, its parent
      is marked, and both are logged, the parent first. */
  lemma MarkSentEffect(s: State, u: Id, id: Id)
    requires Core(s) && u in s.accounts && SendIsSafe(s, id)
    ensures var t, m := MarkSent(s, u, id), s.messages[id];
      && id in t.messages && t.messages[id].content == m.content && t.messages[id].attIDs == m.attIDs
      && t.messages[id].flags == m.flags + {SentFlag} && t.messages[id].filing.sysLabel == None
      && ALL_SENT in DerivedLabels(t.messages[id].filing, t.messages[id].flags)
      && (Received !in m.flags ==> SENT in DerivedLabels(t.messages[id].filing, t.messages[id].flags))
      && (m.parent in s.messages ==>
            m.parent in t.messages && IsMarked(s.messages[m.parent], m.action, t.messages[m.parent]))
      && LogsOk(s) && LogsOk(t) && u in t.accounts
      && LogOf(t, u) == LogOf(s, u) + (if m.parent in s.messages then [Updated(MessageKey(m.parent))] else []) + [Updated(MessageKey(id))]
  {
    hide Core, LogOf, LogsOk, TouchMessage, DerivedLabels;
    CoreIsLogsOk(s);
    StoredMailIsOld(s, id);
    var m, sent := s.messages[id], Sent(s, id);
    var t1 := s.(messages := s.messages[id := sent]);
    SameLogsOk(s, t1, u);
    DerivedElements(sent.filing, sent.flags, ALL_SENT);
    DerivedElements(sent.filing, sent.flags, SENT);
    MarkSentIs(s, u, id);
    hide MarkSent;
    if m.parent in s.messages {
      TouchIsLogged(t1, u, m.parent, t1.messages[m.parent].(flags := t1.messages[m.parent].flags + ReplyFlag(m.action)));
    } else {
      assert LogOf(s, u) + [] == LogOf(s, u);
    }
    LogIsLogged(MarkParent(t1, u, sent.parent, sent.action), u, Updated(MessageKey(id)));
  }

  lemma LogIsLogged(s: State, u: Id, update: Update)
    requires LogsOk(s) && u in s.accounts
    ensures var t := Log(s, u, update);
      LogsOk(t) && u in t.accounts && LogOf(t, u) == LogOf(s, u) + [update] && t.messages == s.messages
  {
    hide LogsOk, LogOf;
    LogLogs(s, u, update);
    LogsIsAppend(s, Log(s, u, update), u, update);
  }

  /** Updating a draft replaces what is given, keeps what is not, and touches
      neither its place nor its attachments. */
  lemma UpdateDraftEffect(s: State, u: Id, id: Id, ch: Changes)
    requires Core(s)
    ensures var r := UpdateDraft(s, u, id, ch);
      && (r.ok <==> ChangesAllowed(ch) && u in s.accounts && id in s.messages) && (!r.ok ==> r.state == s)
      && (r.ok ==>
            && r.state.messages.Keys == s.messages.Keys
            && r.state.messages[id].(content := s.messages[id].content) == s.messages[id]
            && (forall other | other in s.messages && other != id :: r.state.messages[other] == s.messages[other])
            && Replaced(s.messages[id].content, ch, r.state.messages[id].content)
            && LogsOk(s) && LogsOk(r.state) && u in r.state.accounts
            && LogOf(r.state, u) == LogOf(s, u) + [Updated(MessageKey(id))])
  {
    hide Core, LogOf, LogsOk, TouchMessage;
    if u in s.accounts && id in s.messages {
      CoreIsLogsOk(s);
      TouchIsLogged(s, u, id, s.messages[id].(content := ApplyChanges(s.messages[id].content, ch)));
    }
  }

  /** Each given field has the given value, each other one its old value. */
  ghost predicate Replaced(before: Content, ch: Changes, after: Content) {
    && after.subject == (if ch.subject == "" then before.subject else ch.subject)
    && after.body == (if ch.body == "" then before.body else ch.body)
    && after.mimeType == (if ch.mimeType == "" then before.mimeType else ch.mimeType)
    && after.externalID == (if ch.externalID == "" then before.externalID else ch.externalID)
    && (ch.sender.Some? ==> after.sender == ch.sender.value) && (ch.sender.None? ==> after.sender == before.sender)
    && (ch.to.Some? ==> after.to == ch.to.value) && (ch.to.None? ==> after.to == before.to)
    && (ch.cc.Some? ==> after.cc == ch.cc.value) && (ch.cc.None? ==> after.cc == before.cc)
    && (ch.bcc.Some? ==> after.bcc == ch.bcc.value) && (ch.bcc.None? ==> after.bcc == before.bcc)
  }

  lemma {:induction false} EditAllSkips(s: State, u: Id, e: Edit, ids: seq<Id>, m: Id)
    requires u in s.accounts && EditIsSafe(s, e, ids) && m in s.messages && m !in ids
    ensures m in EditAll(s, u, e, ids).messages && EditAll(s, u, e, ids).messages[m] == s.messages[m]
    decreases ids
  {
    hide EditMessage;
    if ids != [] {
      assert ids[0] in ids && forall id :: id in ids[1..] ==> id in ids;
      if ids[0] in s.messages {
        EditSafeAfter(s, u, e, ids);
        var msg := EditMessage(s.messages[ids[0]], e, s.labels);
        TouchKeepsAccounts(s, u, ids[0], msg);
        hide TouchMessage;
        EditAllSkips(TouchMessage(s, u, ids[0], msg), u, e, ids[1..], m);
      } else {
        EditAllSkips(s, u, e, ids[1..], m);
      }
    }
  }

  lemma EditAllChangesAt(s: State, u: Id, e: Edit, ids: seq<Id>, m: Id)
    requires u in s.accounts && EditIsSafe(s, e, ids) && m in s.messages
    ensures m in EditAll(s, u, e, ids).messages
    ensures m in ids ==> EditAll(s, u, e, ids).messages[m] == EditMessage(s.messages[m], e, s.labels)
    ensures m !in ids ==> EditAll(s, u, e, ids).messages[m] == s.messages[m]
  {
    hide EditMessage, EditAll;
    if m in ids {
      EditAllChanges(s, u, e, ids, m);
    } else {
      EditAllSkips(s, u, e, ids, m);
    }
  }

  /** The four edits fail only for a missing account, or when a message would be
      put in or taken from one of the collective labels. */
  lemma EditMessagesEffect(s: State, u: Id, e: Edit, ids: seq<Id>)
    requires LogsOk(s) && (u in s.accounts && EditAllowed(e) ==> EditIsSafe(s, e, ids))
    ensures var r := EditMessages(s, u, e, ids);
      && (r.ok <==> u in s.accounts && !((e.Put? || e.Take?) && e.labelID in {ALL_MAIL, ALL_DRAFTS, ALL_SENT}))
      && (!r.ok ==> r.state == s)
      && (r.ok ==>
            && (forall m | m in s.messages :: m in r.state.messages)
            && (forall m | m in s.messages && m in ids :: r.state.messages[m] == EditMessage(s.messages[m], e, s.labels))
            && (forall m | m in s.messages && m !in ids :: r.state.messages[m] == s.messages[m])
            && LogsOk(r.state) && u in r.state.accounts && LogOf(r.state, u) == LogOf(s, u) + Touches(s.messages, ids))
  {
    hide LogsOk, LogOf, EditMessage, EditAll, Touches;
    if u in s.accounts && EditAllowed(e) {
      EditAllEffect(s, u, e, ids);
      forall m | m in s.messages
        ensures m in EditAll(s, u, e, ids).messages
        ensures m in ids ==> EditAll(s, u, e, ids).messages[m] == EditMessage(s.messages[m], e, s.labels)
        ensures m !in ids ==> EditAll(s, u, e, ids).messages[m] == s.messages[m]
      {
        EditAllChangesAt(s, u, e, ids, m);
      }
    }
  }

  // ---------------------------------------------------------------------
  // Deletion

  /** The message, its place in the list and its attachments are gone, and the
      data nobody else uses; everything else of the mail stays as it is. */
  ghost predicate MessageGone(s: State, t: State, id: Id) {
    && id in s.messages && t.messages == s.messages - {id} && t.labels == s.labels
    && (forall a :: a in t.attachments <==> a in s.attachments && a !in s.messages[id].attIDs)
    && (forall a :: a in t.attachments ==> t.attachments[a] == s.attachments[a])
    && (forall d :: d in t.attData <==> d in s.attData && HasUser(t.attachments, d))
    && (forall d :: d in t.attData ==> t.attData[d] == s.attData[d])
  }

  lemma DropMessageIs(s: State, id: Id)
    requires MailOk(s) && id in s.messages
    ensures Droppable(s, [id]) && NoDup(s.messages[id].attIDs) && forall a :: a in s.messages[id].attIDs ==> a in s.attachments
    ensures var t := DropMessage(s, id);
      MessageGone(s, t, id) && t.accounts == s.accounts && t.updates == s.updates
  {
    hide MailOk, KeepsMessage, Droppable, DataExact;
    DropMessageMail(s, id);
    ExactMail(s);
    FreeAllIsExact(s.attachments, s.attData, s.messages[id].attIDs);
    FreedIsGone(s, id);
  }

  lemma FreedIsGone(s: State, id: Id)
    requires id in s.messages && NoDup(s.messages[id].attIDs) && forall a :: a in s.messages[id].attIDs ==> a in s.attachments
    requires DataExact(s.attachments, s.attData)
    requires var (atts, data) := FreeAll(s.attachments, s.attData, s.messages[id].attIDs);
      && (forall a :: a in atts <==> a in s.attachments && a !in s.messages[id].attIDs) && (forall a :: a in atts ==> atts[a] == s.attachments[a])
      && DataExact(atts, data) && data.Keys <= s.attData.Keys && forall d :: d in data ==> data[d] == s.attData[d]
    ensures var t := DropMessage(s, id);
      MessageGone(s, t, id) && t.accounts == s.accounts && t.updates == s.updates
  {
    hide FreeAll;
  }

  lemma ExactMail(s: State)
    requires MailOk(s)
    ensures DataExact(s.attachments, s.attData)
  {}

  lemma DeleteMessageEffect(s: State, u: Id, id: Id)
    requires Core(s) && (u in s.accounts && id in s.messages ==> Live(s, u, MessageKey(id)))
    ensures u in s.accounts && id in s.messages ==> Droppable(s, [id])
    ensures var r, k := DeleteMessage(s, u, id), MessageKey(id);
      && (r.ok <==> u in s.accounts && id in s.messages) && (!r.ok ==> r.state == s)
      && (r.ok ==>
            && MessageGone(s, r.state, id) && Shown(s, r.state, u, Deleted(k), k, None)
            && forall m :: m in r.state.accounts[u].messageIDs <==> m in s.accounts[u].messageIDs && m != id)
  {
    hide Core, MailOk, DropMessage, MessageGone, Shown, Droppable, Log, LogsOk;
    if u in s.accounts && id in s.messages {
      CoreIsMailOk(s);
      CoreIsLogsOk(s);
      DropMessageIs(s, id);
      Unlisted(s, DropMessage(s, id), u, id);
      DeleteMessageIs(s, u, id);
    }
  }

  lemma DeleteMessageIs(s: State, u: Id, id: Id)
    requires u in s.accounts && id in s.messages && Droppable(s, [id]) && u in DropMessage(s, id).accounts
    ensures var t := Log(DropMessage(s, id), u, Deleted(MessageKey(id)));
      && u in t.accounts
      && DeleteMessage(s, u, id) == Reply(WithAccount(t, u, t.accounts[u].(messageIDs := Without(t.accounts[u].messageIDs, id))), true)
  {
    hide DropMessage;
  }

  lemma Unlisted(s: State, t: State, u: Id, id: Id)
    requires LogsOk(s) && u in s.accounts && t.accounts == s.accounts && t.updates == s.updates && MessageGone(s, t, id)
    ensures var logged := Log(t, u, Deleted(MessageKey(id)));
      && u in logged.accounts
      && var r := WithAccount(logged, u, logged.accounts[u].(messageIDs := Without(logged.accounts[u].messageIDs, id)));
      && MessageGone(s, r, id) && Shown(s, r, u, Deleted(MessageKey(id)), MessageKey(id), None)
      && forall m :: m in r.accounts[u].messageIDs <==> m in s.accounts[u].messageIDs && m != id
  {
    hide Shown, LogsOk, Logs, MessageGone, ValueOf;
    var update := Deleted(MessageKey(id));
    var logged := Log(t, u, update);
    var r := WithAccount(logged, u, logged.accounts[u].(messageIDs := Without(logged.accounts[u].messageIDs, id)));
    UnlistedLogs(s, t, u, id);
    SameMailGone(s, t, r, id);
    LogsShows(s, r, u, update, MessageKey(id), None);
  }

  lemma SameMailGone(s: State, t: State, r: State, id: Id)
    requires MessageGone(s, t, id) && r.messages == t.messages && r.labels == t.labels && r.attachments == t.attachments && r.attData == t.attData
    ensures MessageGone(s, r, id)
  {}

  lemma UnlistedLogs(s: State, t: State, u: Id, id: Id)
    requires u in s.accounts && t.accounts == s.accounts && t.updates == s.updates
    ensures var logged := Log(t, u, Deleted(MessageKey(id)));
      && u in logged.accounts
      && var r := WithAccount(logged, u, logged.accounts[u].(messageIDs := Without(logged.accounts[u].messageIDs, id)));
      Logs(s, r, u, Deleted(MessageKey(id))) && ValueOf(r, u, MessageKey(id)) == None
  {}

  // ---------------------------------------------------------------------
  // Users and settings

  /** A new user has a new ID, no object, no log and the settings switched on. */
  lemma CreateUserEffect(s: State)
    requires Core(s)
    ensures var t, u := CreateUser(s), Uuid(s.nextUuid);
      && u !in s.accounts && t.accounts.Keys == s.accounts.Keys + {u}
      && (forall w | w in s.accounts :: t.accounts[w] == s.accounts[w])
      && (forall k :: !Live(t, u, k)) && t.accounts[u].updateIDs == []
      && t.accounts[u].settings.telemetry && t.accounts[u].settings.crashReports
      && t.messages == s.messages && t.labels == s.labels && t.attachments == s.attachments && t.attData == s.attData
      && t.updates == s.updates
  {
    hide Core;
    NewUserIsNew(s);
  }

  lemma NewUserIsNew(s: State)
    requires Core(s)
    ensures Uuid(s.nextUuid) !in s.accounts
  {}

  /** A removed user is gone with its labels, its messages and their
      attachments, and nobody else's. */
  lemma RemoveUserEffect(s: State, u: Id)
    requires Core(s) && u in s.accounts
    ensures Droppable(s.(labels := s.labels - Elements(s.accounts[u].labelIDs)), s.accounts[u].messageIDs)
    ensures var r := RemoveUser(s, u);
      && r.ok && Removed(s, r.state, u)
      && (forall a :: a in r.state.attachments <==> a in s.attachments && !AttachedIn(s, s.accounts[u].messageIDs, a))
      && (forall d :: d in r.state.attData <==> d in s.attData && HasUser(r.state.attachments, d))
  {
    hide Core, MailOk, DropMessages, Removed, AttachedIn;
    var acc := s.accounts[u];
    var s' := s.(labels := s.labels - Elements(acc.labelIDs));
    RemoveUserIs(s, u);
    CoreIsMailOk(s);
    SameMailOk(s, s');
    OwnMessages(s, u);
    DropMessagesFree(s', acc.messageIDs);
    assert forall a :: AttachedIn(s', acc.messageIDs, a) == AttachedIn(s, acc.messageIDs, a) by {
      forall a ensures AttachedIn(s', acc.messageIDs, a) == AttachedIn(s, acc.messageIDs, a) {
        SameAttached(s, s', acc.messageIDs, a);
      }
    }
  }

  /** One of the messages lists the attachment. */
  ghost predicate AttachedIn(s: State, ids: seq<Id>, a: Id) {
    exists m :: m in ids && m in s.messages && a in s.messages[m].attIDs
  }

  lemma SameAttached(s: State, t: State, ids: seq<Id>, a: Id)
    requires t.messages == s.messages
    ensures AttachedIn(t, ids, a) == AttachedIn(s, ids, a)
  {}

  lemma {:induction false} DropMessagesFree(s: State, ids: seq<Id>)
    requires MailOk(s) && NoDup(ids) && forall id :: id in ids ==> id in s.messages
    ensures Droppable(s, ids)
    ensures var t := DropMessages(s, ids);
      && (forall a :: a in t.attachments <==> a in s.attachments && !AttachedIn(s, ids, a))
      && (forall a :: a in t.attachments ==> t.attachments[a] == s.attachments[a])
      && (forall d :: d in t.attData <==> d in s.attData && HasUser(t.attachments, d))
    decreases ids
  {
    hide MailOk, DropMessage, HasUser, AttachedIn, NoDup;
    DropMessagesMail(s, ids);
    if ids == [] {
      NothingAttached(s);
    } else {
      DropMessageMail(s, ids[0]);
      DropMessageIs(s, ids[0]);
      RestStored(s, DropMessage(s, ids[0]), ids);
      DropMessagesFree(DropMessage(s, ids[0]), ids[1..]);
      forall a ensures AttachedIn(s, ids, a) <==> a in s.messages[ids[0]].attIDs || AttachedIn(DropMessage(s, ids[0]), ids[1..], a) {
        AttachedInRest(s, DropMessage(s, ids[0]), ids, a);
      }
      UsersLeft(DropMessage(s, ids[0]).attachments, DropMessages(s, ids).attachments);
    }
  }

  lemma NothingAttached(s: State)
    requires MailOk(s)
    ensures forall a :: !AttachedIn(s, [], a)
    ensures forall d :: d in s.attData ==> HasUser(s.attachments, d)
  {
    ExactMail(s);
  }

  lemma RestStored(s: State, t: State, ids: seq<Id>)
    requires NoDup(ids) && ids != [] && (forall id :: id in ids ==> id in s.messages) && t.messages == s.messages - {ids[0]}
    ensures NoDup(ids[1..]) && forall id :: id in ids[1..] ==> id in t.messages
  {
    assert ids[0] !in ids[1..];
    assert forall id :: id in ids[1..] ==> id in ids;
  }

  lemma AttachedInRest(s: State, t: State, ids: seq<Id>, a: Id)
    requires NoDup(ids) && ids != [] && ids[0] in s.messages && t.messages == s.messages - {ids[0]}
    ensures AttachedIn(s, ids, a) <==> a in s.messages[ids[0]].attIDs || AttachedIn(t, ids[1..], a)
  {
    assert ids[0] in ids && ids[0] !in ids[1..];
    assert forall id :: id in ids <==> id == ids[0] || id in ids[1..];
  }

  lemma UsersLeft(atts: map<Id, Attachment>, atts': map<Id, Attachment>)
    requires forall a :: a in atts' ==> a in atts && atts[a] == atts'[a]
    ensures forall d :: HasUser(atts', d) ==> HasUser(atts, d)
  {}

  /** A refresh of everything restarts the log, any other one is appended to it. */
  lemma RefreshUserEffect(s: State, u: Id, flag: RefreshFlag)
    requires Core(s)
    ensures var r := RefreshUser(s, u, flag);
      && (r.ok <==> u in s.accounts) && (!r.ok ==> r.state == s)
      && (r.ok ==>
            && LogsOk(s) && LogsOk(r.state) && SameObjects(s, r.state) && r.state.accounts[u].settings == s.accounts[u].settings
            && LogOf(r.state, u) == (if flag == RefreshAll then [] else LogOf(s, u)) + [Refreshed(flag)]
            && forall w | w in s.accounts && w != u :: LogOf(r.state, w) == LogOf(s, w))
  {
    hide Core, LogsOk, LogOf, SameObjects, Log, LogAll;
    if u in s.accounts {
      CoreIsLogsOk(s);
      LogAllEffect(s, u, Refreshed(flag));
      RestartChangesNothing(s, u, Refreshed(flag));
      LogChangesNothing(s, u, Refreshed(flag));
      assert [] + [Refreshed(flag)] == [Refreshed(flag)];
    }
  }

  lemma RestartChangesNothing(s: State, u: Id, update: Update)
    requires u in s.accounts
    ensures var t := LogAll(s, u, update); SameObjects(s, t) && t.accounts[u].settings == s.accounts[u].settings
  {}

  lemma LogChangesNothing(s: State, u: Id, update: Update)
    requires LogsOk(s) && u in s.accounts
    ensures var t := Log(s, u, update);
      && SameObjects(s, t) && t.accounts[u].settings == s.accounts[u].settings && LogsOk(t)
      && LogOf(t, u) == LogOf(s, u) + [update] && forall w | w in s.accounts && w != u :: LogOf(t, w) == LogOf(s, w)
  {
    hide LogsOk, LogOf;
    LogLogs(s, u, update);
    LogsIsAppend(s, Log(s, u, update), u, update);
    assert forall w | w in s.accounts :: LogOf(s, w) + [] == LogOf(s, w);
  }

  /** Settings are stored and logged, and no object changes. */
  lemma SetUserSettingsEffect(s: State, u: Id, settings: Settings)
    requires Core(s)
    ensures var r := SetUserSettings(s, u, settings);
      && (r.ok <==> u in s.accounts) && (!r.ok ==> r.state == s)
      && (r.ok ==>
            && SameObjects(s, r.state) && LogsOk(s) && LogsOk(r.state)
            && forall w | w in s.accounts ::
              && r.state.accounts[w].settings == (if w == u then settings else s.accounts[w].settings)
              && LogOf(r.state, w) == LogOf(s, w) + if w == u then [SettingsUpdated(settings)] else [])
  {
    hide Core, LogsOk, LogOf, SameObjects, Logs;
    if u in s.accounts {
      CoreIsLogsOk(s);
      SettingsAreLogged(s, u, settings);
      LogsIsAppend(s, SetUserSettings(s, u, settings).state, u, SettingsUpdated(settings));
    }
  }

  lemma SettingsAreLogged(s: State, u: Id, settings: Settings)
    requires u in s.accounts
    ensures var t := SetUserSettings(s, u, settings).state;
      && SameObjects(s, t) && Logs(s, t, u, SettingsUpdated(settings))
      && forall w | w in s.accounts :: t.accounts[w].settings == if w == u then settings else s.accounts[w].settings
  {}

  // ---------------------------------------------------------------------
  // Addresses

  /** A new address comes last; nothing changes if its key cannot be made. */
  lemma CreateAddressEffect(s: State, u: Id, email: string, enabled: bool, asUpdate: bool, keyOk: bool)
    requires Core(s)
    ensures var r, k := CreateAddress(s, u, email, enabled, asUpdate, keyOk), AddressKey(Uuid(s.nextUuid));
      && (r.ok <==> u in s.accounts && keyOk) && (!r.ok ==> r.state == s)
      && (r.ok ==> ValueOf(s, u, k) == None && Shown(s, r.state, u, if asUpdate then Updated(k) else Created(k), k,
            Some(AddressValue(Address(email, |s.accounts[u].addresses| + 1, enabled)))))
  {
    hide *;
    var id := Uuid(s.nextUuid);
    CreateAddressIs(s, u, email, enabled, asUpdate, keyOk);
    if u in s.accounts && keyOk {
      CoreIsLogsOk(s);
      NewAddressIsNew(s, u);
      var address := Address(email, |s.accounts[u].addresses| + 1, enabled);
      var update := if asUpdate then Updated(AddressKey(id)) else Created(AddressKey(id));
      NewAddressLogs(s, u, address, update);
      LogsShows(s, CreateAddress(s, u, email, enabled, asUpdate, keyOk).state, u, update, AddressKey(id), Some(AddressValue(address)));
    }
  }

  lemma CreateAddressIs(s: State, u: Id, email: string, enabled: bool, asUpdate: bool, keyOk: bool)
    ensures var r, id := CreateAddress(s, u, email, enabled, asUpdate, keyOk), Uuid(s.nextUuid);
      if u in s.accounts && keyOk then
        var t := WithAddress(s, u, id, Address(email, |s.accounts[u].addresses| + 1, enabled)).(nextUuid := s.nextUuid + 1);
        r.ok && u in t.accounts && r.state == Log(t, u, if asUpdate then Updated(AddressKey(id)) else Created(AddressKey(id)))
      else r == Reply(s, false)
  {
    hide Log;
  }

  lemma NewAddressIsNew(s: State, u: Id)
    requires Core(s) && u in s.accounts
    ensures ValueOf(s, u, AddressKey(Uuid(s.nextUuid))) == None
  {
    hide Core;
    NewIdIsNoAddress(s, u);
  }

  lemma NewAddressLogs(s: State, u: Id, address: Address, update: Update)
    requires u in s.accounts
    ensures var id := Uuid(s.nextUuid);
      var t := Log(WithAddress(s, u, id, address).(nextUuid := s.nextUuid + 1), u, update);
      Logs(s, t, u, update) && ValueOf(t, u, AddressKey(id)) == Some(AddressValue(address))
  {}

  /** Enabling and disabling change an address's status, and nothing else of it. */
  lemma SetAddressStatusEffect(s: State, u: Id, id: Id, enabled: bool)
    requires Core(s) && (u in s.accounts ==> id in s.accounts[u].addresses)
    ensures var r, k := SetAddressStatus(s, u, id, enabled), AddressKey(id);
      && (r.ok <==> u in s.accounts) && (!r.ok ==> r.state == s)
      && (r.ok ==>
            var was := s.accounts[u].addresses[id];
            && Shown(s, r.state, u, Updated(k), k, Some(AddressValue(Address(was.email, was.order, enabled))))
            && forall other | other != k :: SameView(s, r.state, u, other))
  {
    hide Core, Shown, Logs, ValueOf, SameView;
    if u in s.accounts {
      CoreIsLogsOk(s);
      StatusIsLogged(s, u, id, enabled);
      StatusOfOthers(s, u, id, enabled);
      var t, was := SetAddressStatus(s, u, id, enabled).state, s.accounts[u].addresses[id];
      LogsShows(s, t, u, Updated(AddressKey(id)), AddressKey(id), Some(AddressValue(Address(was.email, was.order, enabled))));
    }
  }

  lemma StatusIsLogged(s: State, u: Id, id: Id, enabled: bool)
    requires u in s.accounts && id in s.accounts[u].addresses
    ensures var t, was := SetAddressStatus(s, u, id, enabled).state, s.accounts[u].addresses[id];
      Logs(s, t, u, Updated(AddressKey(id))) && ValueOf(t, u, AddressKey(id)) == Some(AddressValue(Address(was.email, was.order, enabled)))
  {}

  lemma StatusOfOthers(s: State, u: Id, id: Id, enabled: bool)
    requires u in s.accounts && id in s.accounts[u].addresses
    ensures forall k | k != AddressKey(id) :: SameView(s, SetAddressStatus(s, u, id, enabled).state, u, k)
  {}

  /** Only a disabled address can be deleted, but any can be removed. */
  lemma RemoveAddressEffect(s: State, u: Id, id: Id)
    requires Core(s) && u in s.accounts && id in s.accounts[u].addresses
    ensures var k := AddressKey(id);
      && DeleteAddress(s, u, id).ok == !s.accounts[u].addresses[id].enabled
      && RemoveAddress(s, u, id).ok && Shown(s, RemoveAddress(s, u, id).state, u, Deleted(k), k, None)
      && DeleteAddress(s, u, id).state == if s.accounts[u].addresses[id].enabled then s else RemoveAddress(s, u, id).state
  {
    hide Core, Shown;
    CoreIsLogsOk(s);
    assert Logs(s, DropAddress(s, u, id), u, Deleted(AddressKey(id)));
    LogsShows(s, DropAddress(s, u, id), u, Deleted(AddressKey(id)), AddressKey(id), None);
  }
}
