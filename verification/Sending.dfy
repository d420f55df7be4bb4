/** What sending a message does to each of its recipients, over the whole list
    (server/backend/api.go). */
module Sending {
  import opened Ids
  import opened Updates
  import opened Locations
  import opened Records
  import opened Attachments
  import opened Operations
  import opened Views
  import opened Invariants
  import opened Steps
  import opened MessageSteps
  import opened SendSteps
  import opened Effects

  /** The copies that went to one account, in order. */
  function CopiesFor(ds: seq<Delivery>, copies: seq<Id>, w: Id): seq<Id>
    requires |copies| == |ds|
  {
    if ds == [] then []
    else (if ds[0].Deliver? && ds[0].to == w then [copies[0]] else []) + CopiesFor(ds[1..], copies[1..], w)
  }

  function Creations(ids: seq<Id>): seq<Update> {
    if ids == [] then [] else [Created(MessageKey(ids[0]))] + Creations(ids[1..])
  }

  /** The account lists and logs exactly these new messages, in order. */
  ghost predicate Gains(s: State, t: State, w: Id, ids: seq<Id>) {
    && LogsOk(s) && LogsOk(t) && w in s.accounts && w in t.accounts
    && t.accounts[w].messageIDs == s.accounts[w].messageIDs + ids
    && LogOf(t, w) == LogOf(s, w) + Creations(ids)
  }

  /** `c` is a new message: the sent content without blind copies and with the
      recipient's body, unread, in the inbox, with the attachments that were sent. */
  ghost predicate IsCopy(s: State, t: State, id: Id, d: Delivery, c: Id)
    requires d.Deliver?
  {
    && id in s.messages && c !in s.messages && c in t.messages
    && t.messages[c].content == s.messages[id].content.(bcc := [], body := d.body)
    && t.messages[c].addrID == d.addrID && t.messages[c].unread && t.messages[c].flags == {Flag.Received}
    && t.messages[c].filing.labelIDs + DerivedLabels(t.messages[c].filing, {Flag.Received}) == [ALL_MAIL, INBOX]
    && SameFiles(s.attachments, s.messages[id].attIDs, t.attachments, t.messages[c].attIDs)
  }

  /** Messages and attachments that were there stay, but for the sent message,
      whose attachment list is sorted once a copy was made. */
  ghost predicate KeepsRest(s: State, t: State, id: Id, sorted: bool) {
    && id in s.messages && id in t.messages && t.accounts.Keys == s.accounts.Keys
    && (forall m | m in s.messages && m != id :: m in t.messages && t.messages[m] == s.messages[m])
    && (forall a | a in s.attachments :: a in t.attachments && t.attachments[a] == s.attachments[a])
    && (forall a | a in s.messages[id].attIDs :: a in s.attachments)
    && t.messages[id] == s.messages[id].(attIDs :=
         if sorted then SortAttachments(s.attachments, s.messages[id].attIDs) else s.messages[id].attIDs)
  }

  predicate AnyCopy(ds: seq<Delivery>) { exists i :: 0 <= i < |ds| && ds[i].Deliver? }

  /** Exactly these recipients were served, each with its copy. */
  ghost predicate Served(s: State, t: State, id: Id, ds: seq<Delivery>, copies: seq<Id>) {
    && |copies| == |ds| && KeepsRest(s, t, id, AnyCopy(ds))
    && (forall w | w in s.accounts :: Gains(s, t, w, CopiesFor(ds, copies, w)))
    && (forall i | 0 <= i < |ds| && ds[i].Deliver? :: IsCopy(s, t, id, ds[i], copies[i]))
  }

  // ---------------------------------------------------------------------
  // One after the other

  lemma {:induction false} CopiesForConcat(a: seq<Delivery>, b: seq<Delivery>, x: seq<Id>, y: seq<Id>, w: Id)
    requires |a| == |x| && |b| == |y|
    ensures CopiesFor(a + b, x + y, w) == CopiesFor(a, x, w) + CopiesFor(b, y, w)
  {
    if a == [] {
      assert a + b == b && x + y == y;
    } else {
      assert (a + b)[1..] == a[1..] + b && (x + y)[1..] == x[1..] + y;
      CopiesForConcat(a[1..], b, x[1..], y, w);
    }
  }

  lemma {:induction false} CreationsConcat(a: seq<Id>, b: seq<Id>)
    ensures Creations(a + b) == Creations(a) + Creations(b)
  {
    if a == [] {
      assert a + b == b;
    } else {
      assert (a + b)[1..] == a[1..] + b;
      CreationsConcat(a[1..], b);
    }
  }

  lemma GainsComposes(s: State, m: State, t: State, w: Id, a: seq<Id>, b: seq<Id>)
    requires Gains(s, m, w, a) && Gains(m, t, w, b)
    ensures Gains(s, t, w, a + b)
  {
    hide LogsOk, LogOf;
    CreationsConcat(a, b);
    AppendTwice(s.accounts[w].messageIDs, a, b);
    AppendTwice(LogOf(s, w), Creations(a), Creations(b));
  }

  lemma AnyCopyConcat(a: seq<Delivery>, b: seq<Delivery>)
    ensures AnyCopy(a + b) <==> AnyCopy(a) || AnyCopy(b)
  {
    if i :| 0 <= i < |a| && a[i].Deliver? {
      assert (a + b)[i].Deliver?;
    }
    if i :| 0 <= i < |b| && b[i].Deliver? {
      assert (a + b)[|a| + i].Deliver?;
    }
  }

  lemma KeepsRestComposes(s: State, m: State, t: State, id: Id, first: bool, second: bool)
    requires KeepsRest(s, m, id, first) && KeepsRest(m, t, id, second)
    ensures KeepsRest(s, t, id, first || second)
  {
    hide SortAttachments;
    var ids := s.messages[id].attIDs;
    SortKeepsOnePerKey(s.attachments, ids);
    SortTwice(s.attachments, ids);
    if first && second {
      SortSame(s.attachments, m.attachments, m.messages[id].attIDs);
    } else if second {
      SortSame(s.attachments, m.attachments, ids);
    }
  }

  lemma KeysOfSame(atts: map<Id, Attachment>, atts': map<Id, Attachment>, ids: seq<Id>)
    requires forall a :: a in ids && a in atts ==> a in atts' && atts'[a] == atts[a]
    requires forall a :: a in ids ==> a in atts
    ensures Keys(atts', ids) == Keys(atts, ids)
  {}

  /** A copy made first is still there. */
  lemma CopyStays(s: State, m: State, t: State, id: Id, d: Delivery, c: Id, sorted: bool)
    requires d.Deliver? && IsCopy(s, m, id, d, c) && KeepsRest(m, t, id, sorted)
    ensures IsCopy(s, t, id, d, c)
  {
    hide SortAttachments, Keys, DerivedLabels;
    KeysOfSame(m.attachments, t.attachments, m.messages[c].attIDs);
  }

  /** A copy made later is a copy of the message that was sent. */
  lemma CopyIsLater(s: State, m: State, t: State, id: Id, d: Delivery, c: Id, sorted: bool)
    requires d.Deliver? && KeepsRest(s, m, id, sorted) && IsCopy(m, t, id, d, c)
    ensures IsCopy(s, t, id, d, c)
  {
    hide SortAttachments, DerivedLabels;
    var ids, ids' := s.messages[id].attIDs, m.messages[id].attIDs;
    SortKeepsOnePerKey(s.attachments, ids);
    KeysOfSame(s.attachments, m.attachments, ids');
    hide Keys;
    assert forall a :: a in ids' ==> a in ids;
  }

  lemma ServedComposes(s: State, m: State, t: State, id: Id, a: seq<Delivery>, b: seq<Delivery>, x: seq<Id>, y: seq<Id>)
    requires Served(s, m, id, a, x) && Served(m, t, id, b, y)
    ensures Served(s, t, id, a + b, x + y)
  {
    hide KeepsRest, Gains, IsCopy, CopiesFor, AnyCopy;
    KeepsRestComposes(s, m, t, id, AnyCopy(a), AnyCopy(b));
    AnyCopyConcat(a, b);
    SameAccounts(s, m, id, AnyCopy(a));
    forall w | w in s.accounts ensures Gains(s, t, w, CopiesFor(a + b, x + y, w)) {
      CopiesForConcat(a, b, x, y, w);
      GainsComposes(s, m, t, w, CopiesFor(a, x, w), CopiesFor(b, y, w));
    }
    forall i | 0 <= i < |a + b| && (a + b)[i].Deliver? ensures IsCopy(s, t, id, (a + b)[i], (x + y)[i]) {
      if i < |a| {
        CopyStays(s, m, t, id, a[i], x[i], AnyCopy(b));
      } else {
        CopyIsLater(s, m, t, id, b[i - |a|], y[i - |a|], AnyCopy(a));
      }
    }
  }

  lemma SameAccounts(s: State, m: State, id: Id, sorted: bool)
    requires KeepsRest(s, m, id, sorted)
    ensures m.accounts.Keys == s.accounts.Keys
  {}

  lemma NobodyServed(s: State, id: Id)
    requires LogsOk(s) && AttachmentsKnown(s, id)
    ensures Served(s, s, id, [], [])
  {
    forall w | w in s.accounts ensures Gains(s, s, w, []) {
      GainsNothing(s, s, w);
    }
  }

  lemma GainsNothing(s: State, t: State, w: Id)
    requires LogsOk(s) && LogsOk(t) && w in s.accounts && w in t.accounts
    requires t.accounts[w].messageIDs == s.accounts[w].messageIDs && LogOf(t, w) == LogOf(s, w)
    ensures Gains(s, t, w, [])
  {
    hide LogsOk, LogOf;
    assert s.accounts[w].messageIDs + [] == s.accounts[w].messageIDs && LogOf(s, w) + [] == LogOf(s, w);
  }

  // ---------------------------------------------------------------------
  // One recipient

  /** Skipping a recipient, or failing without a trace, serves nobody. */
  lemma SkippedIsServed(s: State, id: Id, d: Delivery)
    requires LogsOk(s) && AttachmentsKnown(s, id) && !d.Deliver?
    ensures Served(s, s, id, [d], [NoId])
  {
    NobodyServed(s, id);
    assert [d][1..] == [] && [NoId][1..] == [];
    assert forall w :: CopiesFor([d], [NoId], w) == [];
    assert !AnyCopy([d]);
  }

  lemma StoreCopyKeepsRest(s: State, id: Id, addrID: Id, body: string, n: nat)
    requires Core(s) && AttachmentsKnown(s, id) && n <= |s.messages[id].attIDs|
    ensures KeepsRest(s, StoreCopy(s, id, addrID, body, n), id, false)
  {
    hide Core, MailOk, SortAttachments, StoreCopy;
    CoreIsMailOk(s);
    NewIdsAreFree(s);
    StoreCopyRelists(s, id, addrID, body, n);
    RelistsRest(s, StoreCopy(s, id, addrID, body, n), Uuid(s.nextUuid), id);
  }

  lemma RelistsRest(s: State, t: State, copy: Id, id: Id)
    requires Relists(s, t, copy) && copy !in s.messages && AttachmentsKnown(s, id)
    ensures KeepsRest(s, t, id, false)
  {
    hide SortAttachments;
    assert id in t.messages.Keys;
  }

  lemma ResortKeepsRest(s: State, id: Id)
    requires AttachmentsKnown(s, id)
    ensures KeepsRest(s, Resort(s, id), id, true)
  {
    hide SortAttachments;
  }

  /** Sorting the new copy is none of the others' business. */
  lemma ResortOther(s: State, t: State, copy: Id, id: Id)
    requires KeepsRest(s, t, id, false) && AttachmentsKnown(t, copy) && copy !in s.messages
    ensures KeepsRest(s, Resort(t, copy), id, false)
  {
    hide SortAttachments;
  }

  lemma DeliveredKeepsRest(s: State, id: Id, addrID: Id, body: string)
    requires Core(s) && AttachmentsKnown(s, id)
    ensures KeepsRest(s, Delivered(s, id, addrID, body), id, true)
  {
    hide Core, KeepsRest, StoreCopy, Resort, SortAttachments;
    var copy, n := Uuid(s.nextUuid), |s.messages[id].attIDs|;
    var c := StoreCopy(s, id, addrID, body, n);
    NewIdsAreFree(s);
    StoreCopyKeepsRest(s, id, addrID, body, n);
    ResortOther(s, c, copy, id);
    var t := Resort(c, copy);
    ResortKnown(c, copy, id);
    ResortKeepsRest(t, id);
    KeepsRestComposes(s, t, Resort(t, id), id, false, true);
  }

  lemma ResortKnown(s: State, id: Id, other: Id)
    requires AttachmentsKnown(s, id) && AttachmentsKnown(s, other)
    ensures AttachmentsKnown(Resort(s, id), other)
  {
    hide SortAttachments;
  }

  lemma SameMailKeepsRest(s: State, t: State, r: State, id: Id, sorted: bool)
    requires KeepsRest(s, t, id, sorted) && r.messages == t.messages && r.attachments == t.attachments && r.accounts.Keys == t.accounts.Keys
    ensures KeepsRest(s, r, id, sorted)
  {
    hide SortAttachments;
  }

  /** The copy is listed and logged for the one account. */
  lemma ListedGains(s: State, t: State, to: Id, copy: Id, w: Id)
    requires LogsOk(s) && t.accounts == s.accounts && t.updates == s.updates && to in s.accounts && w in s.accounts
    ensures Gains(s, ListMessage(t, to, copy), w, if w == to then [copy] else [])
  {
    hide LogsOk, LogOf;
    var r := ListMessage(t, to, copy);
    SameLogsOk(s, t, w);
    assert Logs(t, r, to, Created(MessageKey(copy)));
    LogsIsAppend(t, r, to, Created(MessageKey(copy)));
    if w == to {
      assert Creations([copy]) == [Created(MessageKey(copy))] + Creations([copy][1..]) == [Created(MessageKey(copy))];
    } else {
      assert LogOf(t, w) + [] == LogOf(t, w);
      GainsNothing(s, r, w);
    }
  }

  lemma DeliveredIsServed(s: State, id: Id, d: Delivery)
    requires Core(s) && AttachmentsKnown(s, id) && d.Deliver? && d.to in s.accounts
    ensures var copy := Uuid(s.nextUuid);
      Served(s, ListMessage(Delivered(s, id, d.addrID, d.body), d.to, copy), id, [d], [copy])
  {
    hide Core, Delivered, KeepsRest, Gains, ListMessage, LogsOk, IsCopy;
    CoreIsLogsOk(s);
    var copy, t := Uuid(s.nextUuid), Delivered(s, id, d.addrID, d.body);
    var r := ListMessage(t, d.to, copy);
    DeliveredKeepsRest(s, id, d.addrID, d.body);
    DeliveredLogs(s, id, d.addrID, d.body);
    ListedMail(t, d.to, copy);
    SameMailKeepsRest(s, t, r, id, true);
    assert [d][0].Deliver?;
    forall w | w in s.accounts ensures Gains(s, r, w, CopiesFor([d], [copy], w)) {
      ListedGains(s, t, d.to, copy, w);
      OneFor(d, copy, w);
    }
    DeliveredIsCopy(s, id, d);
    SameMailCopy(s, t, r, id, d, copy);
  }

  lemma OneFor(d: Delivery, copy: Id, w: Id)
    requires d.Deliver?
    ensures CopiesFor([d], [copy], w) == if w == d.to then [copy] else []
  {
    assert [d][1..] == [] && [copy][1..] == [];
  }

  lemma ListedMail(t: State, to: Id, copy: Id)
    requires to in t.accounts
    ensures var r := ListMessage(t, to, copy);
      r.messages == t.messages && r.attachments == t.attachments && r.accounts.Keys == t.accounts.Keys
  {}

  lemma DeliveredIsCopy(s: State, id: Id, d: Delivery)
    requires Core(s) && AttachmentsKnown(s, id) && d.Deliver?
    ensures IsCopy(s, Delivered(s, id, d.addrID, d.body), id, d, Uuid(s.nextUuid))
  {
    hide Core, Delivered, DerivedLabels, SameFiles;
    DeliveredMessage(s, id, d.addrID, d.body);
  }

  lemma SameMailCopy(s: State, t: State, r: State, id: Id, d: Delivery, c: Id)
    requires d.Deliver? && IsCopy(s, t, id, d, c) && r.messages == t.messages && r.attachments == t.attachments
    ensures IsCopy(s, r, id, d, c)
  {
    hide DerivedLabels, SameFiles;
  }

  /** A served recipient. */
  lemma OneServed(s: State, id: Id, d: Delivery)
    requires Core(s) && AttachmentsKnown(s, id) && Resolves(s, d) && DeliverOne(s, id, d).ok
    ensures Served(s, DeliverOne(s, id, d).state, id, [d], [if d.Deliver? then Uuid(s.nextUuid) else NoId])
  {
    hide Core, Served, Delivered, StoreCopy, ListMessage;
    CoreIsLogsOk(s);
    if d.Deliver? {
      DeliveredIsServed(s, id, d);
    } else {
      SkippedIsServed(s, id, d);
    }
  }

  /** A recipient that cannot be served gains nothing, and nobody else does. */
  lemma FailureServesNobody(s: State, id: Id, d: Delivery)
    requires Core(s) && AttachmentsKnown(s, id) && Resolves(s, d) && !DeliverOne(s, id, d).ok
    ensures Served(s, DeliverOne(s, id, d).state, id, [], [])
  {
    hide Core, KeepsRest, Gains, Delivered, StoreCopy, ListMessage, LogsOk;
    CoreIsLogsOk(s);
    NobodyServed(s, id);
    if d.Deliver? {
      var n := d.goodKeys;
      var t := StoreCopy(s, id, d.addrID, d.body, n);
      StoreCopyKeepsRest(s, id, d.addrID, d.body, n);
      StoreCopyLeaves(s, id, d.addrID, d.body, n);
      forall w | w in s.accounts ensures Gains(s, t, w, []) {
        SameLogsOk(s, t, w);
        GainsNothing(s, t, w);
      }
    }
  }

  // ---------------------------------------------------------------------
  // All recipients

  /** A recipient fails if its body or key does not parse, if nobody has its
      address, or if one of the keys of the listed attachments does not parse. */
  predicate Fails(d: Delivery, listed: nat) {
    d.Unparsable? || d.Nobody? || (d.Deliver? && d.goodKeys < listed)
  }

  /** How many attachments the sent message lists when recipient i is served:
      making a copy sorts the list, which drops those that share a key. */
  ghost function ListedAt(s: State, id: Id, ds: seq<Delivery>, i: nat): nat
    requires AttachmentsKnown(s, id) && i <= |ds|
  {
    if AnyCopy(ds[..i]) then |SortAttachments(s.attachments, s.messages[id].attIDs)| else |s.messages[id].attIDs|
  }

  /** The first `f` recipients are served, and if any is left the next one fails. */
  ghost predicate StopsAt(s: State, id: Id, ds: seq<Delivery>, f: nat)
    requires AttachmentsKnown(s, id)
  {
    && f <= |ds|
    && (forall i | 0 <= i < f :: !Fails(ds[i], ListedAt(s, id, ds, i)))
    && (f < |ds| ==> Fails(ds[f], ListedAt(s, id, ds, f)))
  }

  lemma OneFails(s: State, id: Id, d: Delivery)
    requires Core(s) && AttachmentsKnown(s, id) && Resolves(s, d)
    ensures DeliverOne(s, id, d).ok <==> !Fails(d, |s.messages[id].attIDs|)
  {
    hide Core, LogsOk, LogOf, Delivered, DeliverOne, Resolves;
    DeliverOneEffect(s, id, d);
  }

  /** What the list's length is for the others once the first was served. */
  lemma ListedAfter(s: State, t: State, id: Id, ds: seq<Delivery>, i: nat)
    requires AttachmentsKnown(s, id) && AttachmentsKnown(t, id) && ds != [] && i < |ds| && KeepsRest(s, t, id, ds[0].Deliver?)
    ensures ListedAt(t, id, ds[1..], i) == ListedAt(s, id, ds, i + 1)
  {
    hide SortAttachments;
    var ids := s.messages[id].attIDs;
    assert ds[..i + 1] == [ds[0]] + ds[1..][..i];
    AnyCopyConcat([ds[0]], ds[1..][..i]);
    assert AnyCopy([ds[0]]) <==> ds[0].Deliver? by {
      assert [ds[0]][0] == ds[0];
    }
    SortKeepsOnePerKey(s.attachments, ids);
    SortTwice(s.attachments, ids);
    SortSame(s.attachments, t.attachments, t.messages[id].attIDs);
  }

  lemma StopsLater(s: State, t: State, id: Id, ds: seq<Delivery>, f: nat)
    requires AttachmentsKnown(s, id) && AttachmentsKnown(t, id) && ds != [] && KeepsRest(s, t, id, ds[0].Deliver?)
    requires !Fails(ds[0], |s.messages[id].attIDs|) && StopsAt(t, id, ds[1..], f)
    ensures StopsAt(s, id, ds, f + 1)
  {
    hide KeepsRest, Fails;
    StartsListed(s, id, ds);
    hide ListedAt;
    forall i | 0 <= i <= f ensures i < |ds| && ListedAt(t, id, ds[1..], i) == ListedAt(s, id, ds, i + 1) {
      ListedAfter(s, t, id, ds, i);
    }
    forall i | 0 <= i < f + 1 ensures !Fails(ds[i], ListedAt(s, id, ds, i)) {
      if i > 0 {
        assert ds[i] == ds[1..][i - 1] && ListedAt(t, id, ds[1..], i - 1) == ListedAt(s, id, ds, i - 1 + 1);
      }
    }
    if f + 1 < |ds| {
      assert ds[f + 1] == ds[1..][f];
    }
  }

  lemma StartsListed(s: State, id: Id, ds: seq<Delivery>)
    requires AttachmentsKnown(s, id)
    ensures ListedAt(s, id, ds, 0) == |s.messages[id].attIDs|
  {
    assert ds[..0] == [];
  }

  lemma FirstFails(s: State, id: Id, ds: seq<Delivery>)
    requires AttachmentsKnown(s, id) && ds != [] && Fails(ds[0], |s.messages[id].attIDs|)
    ensures StopsAt(s, id, ds, 0)
  {
    StartsListed(s, id, ds);
  }

  /** The recipients are served in order until one fails; it succeeds exactly if
      none does. */
  lemma {:induction false} AllServed(s: State, id: Id, ds: seq<Delivery>) returns (f: nat, copies: seq<Id>)
    requires Core(s) && AttachmentsKnown(s, id) && AllResolve(s, id, ds)
    ensures StopsAt(s, id, ds, f) && (DeliverAll(s, id, ds).ok <==> f == |ds|)
    ensures Served(s, DeliverAll(s, id, ds).state, id, ds[..f], copies)
    decreases ds
  {
    hide Core, Served, StopsAt, DeliverOne, KeptBut, Fails, LogsOk, Resolves;
    CoreIsLogsOk(s);
    if ds == [] {
      NobodyServed(s, id);
      NoneLeft(s, id);
      f, copies := 0, [];
    } else {
      var d, r := ds[0], DeliverOne(s, id, ds[0]);
      OneFails(s, id, d);
      if r.ok {
        OneServed(s, id, d);
        DeliverOneKeeps(s, id, d);
        KeptButIsCore(s, r.state, {MessageKey(id)});
        var f', copies' := AllServed(r.state, id, ds[1..]);
        var c := if d.Deliver? then Uuid(s.nextUuid) else NoId;
        ServedRest(s, r.state, id, d, c);
        StopsLater(s, r.state, id, ds, f');
        StopsInside(r.state, id, ds[1..], f');
        ServedComposes(s, r.state, DeliverAll(r.state, id, ds[1..]).state, id, [d], ds[1..][..f'], [c], copies');
        f, copies := f' + 1, [c] + copies';
        assert [d] + ds[1..][..f'] == ds[..f];
      } else {
        FailureServesNobody(s, id, d);
        FirstFails(s, id, ds);
        f, copies := 0, [];
        assert ds[..0] == [];
      }
    }
  }

  lemma NoneLeft(s: State, id: Id)
    requires AttachmentsKnown(s, id)
    ensures StopsAt(s, id, [], 0)
  {}

  lemma StopsInside(s: State, id: Id, ds: seq<Delivery>, f: nat)
    requires AttachmentsKnown(s, id) && StopsAt(s, id, ds, f)
    ensures f <= |ds|
  {}

  lemma ServedRest(s: State, t: State, id: Id, d: Delivery, c: Id)
    requires Served(s, t, id, [d], [c])
    ensures KeepsRest(s, t, id, d.Deliver?)
  {
    hide KeepsRest;
    assert [d][0] == d;
  }

  // ---------------------------------------------------------------------
  // SendMessage

  /** Marking the message as sent changes no account's list, and no other
      account's log. */
  lemma MarkSentListsNothing(s: State, u: Id, id: Id, w: Id)
    requires LogsOk(s) && u in s.accounts && SendIsSafe(s, id) && w in s.accounts && w != u
    ensures Gains(s, MarkSent(s, u, id), w, [])
  {
    hide LogsOk, LogOf, Filed, Log, TouchMessage, MarkSent, Gains;
    var sent := Sent(s, id);
    var t := s.(messages := s.messages[id := sent]);
    MarkSentIs(s, u, id);
    SameLogsOk(s, t, w);
    var m := MarkParent(t, u, sent.parent, sent.action);
    ParentLogsNothing(t, u, sent.parent, sent.action, w);
    LogsElsewhere(m, u, Updated(MessageKey(id)), w);
    GainsNothing(s, MarkSent(s, u, id), w);
  }

  lemma LogsElsewhere(s: State, u: Id, update: Update, w: Id)
    requires LogsOk(s) && u in s.accounts && w in s.accounts && w != u
    ensures var t := Log(s, u, update);
      LogsOk(t) && w in t.accounts && LogOf(t, w) == LogOf(s, w) && t.accounts[w].messageIDs == s.accounts[w].messageIDs
  {
    hide LogsOk, LogOf;
    LogLogs(s, u, update);
    LogsIsAppend(s, Log(s, u, update), u, update);
    assert LogOf(s, w) + [] == LogOf(s, w);
  }

  lemma ParentLogsNothing(s: State, u: Id, parent: Id, action: DraftAction, w: Id)
    requires LogsOk(s) && u in s.accounts && w in s.accounts && w != u
    ensures var t := MarkParent(s, u, parent, action);
      LogsOk(t) && w in t.accounts && u in t.accounts && LogOf(t, w) == LogOf(s, w) && t.accounts[w].messageIDs == s.accounts[w].messageIDs
  {
    hide LogsOk, LogOf, Log;
    if parent in s.messages {
      var t := s.(messages := s.messages[parent := s.messages[parent].(flags := s.messages[parent].flags + ReplyFlag(action))]);
      SameLogsOk(s, t, w);
      LogsElsewhere(t, u, Updated(MessageKey(parent)), w);
    }
  }

  /** Sending serves the recipients in order until the first that fails: it
      succeeds exactly if none does. What each account gains, in its list and its
      log, are the copies made for it, in order, after the sender's own entries. */
  lemma SendMessageEffect(s: State, u: Id, id: Id, ds: seq<Delivery>) returns (f: nat, copies: seq<Id>)
    requires Core(s) && u in s.accounts && Live(s, u, MessageKey(id)) && SendIsSafe(s, id)
    requires s.messages[id].parent in s.messages ==> Live(s, u, MessageKey(s.messages[id].parent))
    requires AllResolve(MarkSent(s, u, id), id, ds)
    ensures var r, sent := SendMessage(s, u, id, ds), MarkSent(s, u, id);
      && StopsAt(sent, id, ds, f) && (r.ok <==> f == |ds|)
      && Served(sent, r.state, id, ds[..f], copies)
      && sent.attachments == s.attachments && sent.messages[id].attIDs == s.messages[id].attIDs
      && sent.messages[id].content == s.messages[id].content
      && forall w | w in s.accounts && w != u :: Gains(s, sent, w, [])
  {
    hide Core, KeptBut, MarkSent, DeliverAll, Served, StopsAt, Gains, LogsOk, Told, Live;
    CoreIsLogsOk(s);
    MarkSentKeeps(s, u, id);
    MarkSentEffect(s, u, id);
    KeptButIsCore(s, MarkSent(s, u, id), {MessageKey(id)});
    SentAttachments(s, u, id);
    f, copies := AllServed(MarkSent(s, u, id), id, ds);
    forall w | w in s.accounts && w != u ensures Gains(s, MarkSent(s, u, id), w, []) {
      MarkSentListsNothing(s, u, id, w);
    }
  }

  lemma SentAttachments(s: State, u: Id, id: Id)
    requires u in s.accounts && SendIsSafe(s, id)
    ensures MarkSent(s, u, id).attachments == s.attachments
  {
    hide Filed;
  }
}
