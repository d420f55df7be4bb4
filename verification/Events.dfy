/** GetEvent: a window of the log is merged and turned into an event that
    carries current values (server/backend/api.go). */
module Events {
  import EventLoop = Delivery
  import opened Ids
  import opened Updates
  import opened EventLog
  import opened LabelForest
  import opened Records
  import opened Operations
  import opened Views
  import opened Invariants
  import opened MessageSteps

  datatype Action = EventCreate | EventUpdate | EventDelete

  datatype Item = Item(key: Key, action: Action, value: Option<Value>)

  datatype Event = Event(
    eventID: nat, messages: seq<Item>, labels: seq<Item>, addresses: seq<Item>,
    refresh: Option<RefreshFlag>, settings: Option<Settings>, userInfo: bool)

  /** An update about an object of this kind. */
  predicate About(x: Update, kind: Kind) { (x.Created? || x.Updated? || x.Deleted?) && x.key.kind == kind }

  function ItemOf(s: State, u: Id, x: Update): Item
    requires x.Created? || x.Updated? || x.Deleted?
  {
    if x.Deleted? then Item(x.key, EventDelete, None)
    else Item(x.key, if x.Created? then EventCreate else EventUpdate, Stored(s, u, x.key))
  }

  /** The event's items of one kind, in the order of the updates. */
  function Items(s: State, u: Id, updates: seq<Update>, kind: Kind): seq<Item> {
    if updates == [] then []
    else
      var last := updates[|updates| - 1];
      Items(s, u, updates[..|updates| - 1], kind) + if About(last, kind) then [ItemOf(s, u, last)] else []
  }

  /** The last flag wins. */
  function LastRefresh(updates: seq<Update>): Option<RefreshFlag> {
    if updates == [] then None
    else
      var last := updates[|updates| - 1];
      if last.Refreshed? then Some(last.flag) else LastRefresh(updates[..|updates| - 1])
  }

  ghost function BuildEvent(s: State, u: Id, updates: seq<Update>, eventID: nat): Event {
    Event(eventID, Items(s, u, updates, MessageKind), Items(s, u, updates, LabelKind), Items(s, u, updates, AddressKind),
          LastRefresh(updates), LastSettings(updates), UserInfoUpdated in updates)
  }

  // ---------------------------------------------------------------------
  // When an event can be built

  /** What reading the object's current value dereferences is there: the message
      and its attachments, the label and its ancestors, or the address. */
  ghost predicate Readable(s: State, u: Id, k: Key)
    requires u in s.accounts
  {
    match k.kind
    case MessageKind => AttachmentsKnown(s, k.id)
    case LabelKind => k.id in s.labels && Forest(s.labels)
    case AddressKind => k.id in s.accounts[u].addresses
  }

  ghost predicate HasPrimary(acc: Account) { exists id :: IsPrimary(acc, id) }

  /** The updates between the cursor and the end of the event. */
  ghost function Window(s: State, u: Id, cursor: nat): seq<Update>
    requires LogsOk(s) && u in s.accounts
  {
    var ids := s.accounts[u].updateIDs;
    LogOf(s, u)[FirstIndex(ids, cursor)..LastIndex(ids, cursor, s.maxUpdatesPerEvent)]
  }

  /** The updates beyond the event. */
  ghost function Beyond(s: State, u: Id, cursor: nat): seq<Update>
    requires LogsOk(s) && u in s.accounts
  {
    LogOf(s, u)[LastIndex(s.accounts[u].updateIDs, cursor, s.maxUpdatesPerEvent)..]
  }

  /** GetEvent neither indexes out of range, panics on a double delete or a
      missing primary address, nor dereferences a missing object. */
  ghost predicate EventIsSafe(s: State, u: Id, cursor: nat)
    requires LogsOk(s) && u in s.accounts
  {
    && s.accounts[u].updateIDs != [] && HasPrimary(s.accounts[u])
    && Merge(Window(s, u, cursor)).Some?
    && forall x :: x in Merge(Window(s, u, cursor)).value && (x.Created? || x.Updated?) ==> Readable(s, u, x.key)
  }

  ghost function GetEvent(s: State, u: Id, cursor: nat): (Event, bool)
    requires LogsOk(s) && u in s.accounts && EventIsSafe(s, u, cursor)
  {
    var ids := s.accounts[u].updateIDs;
    var last := LastIndex(ids, cursor, s.maxUpdatesPerEvent);
    (BuildEvent(s, u, Merge(Window(s, u, cursor)).value, ids[last - 1]), last != |ids|)
  }

  lemma LiveIsReadable(s: State, u: Id, k: Key)
    requires Inv(s) && u in s.accounts
    ensures Live(s, u, k) ==> Readable(s, u, k)
    ensures Readable(s, u, k) ==> Present(s, u, k)
  {
    hide LogsOk, UpdatesOld, EventsOk, SettingsOk, Forest, ThreadsOk;
    assert Live(s, u, k) ==> Present(s, u, k);
    if k.kind.MessageKind? && k.id in s.messages {
      CoreIsMailOk(s);
      AttachmentsAreKnown(s, k.id);
    }
  }

  lemma FaithfulLog(s: State, u: Id)
    requires Core(s) && u in s.accounts
    ensures DeletesAreFinal(LogOf(s, u)) && CreationsAreFirst(LogOf(s, u))
    ensures forall k :: Deleted(k) in LogOf(s, u) ==> !Present(s, u, k)
    ensures forall k :: Mentioned(LogOf(s, u), k) && !Live(s, u, k) ==> Deleted(k) in LogOf(s, u)
  {
    assert LogAgrees(s, u);
  }

  lemma SliceKeepsFinal(log: seq<Update>, i: nat, j: nat)
    requires DeletesAreFinal(log) && i <= j <= |log|
    ensures DeletesAreFinal(log[i..j])
    ensures forall k :: Mentioned(log[i..j], k) ==> Mentioned(log, k)
    ensures forall k :: Mentioned(log[i..j], k) && Deleted(k) in log ==> Deleted(k) in log[i..j] || Deleted(k) in log[j..]
  {
    var w := log[i..j];
    forall a, b | 0 <= a < b < |w| && w[a].Deleted? ensures !Mentions(w[b], w[a].key) {
      assert w[a] == log[i + a] && w[b] == log[i + b];
    }
    forall k | Mentioned(w, k) ensures Mentioned(log, k) {
      var x :| x in w && Mentions(x, k);
      assert x in log;
    }
    forall k | Mentioned(w, k) && Deleted(k) in log ensures Deleted(k) in w || Deleted(k) in log[j..] {
      var x :| x in w && Mentions(x, k);
      var a :| 0 <= a < |w| && w[a] == x;
      var d :| 0 <= d < |log| && log[d] == Deleted(k);
      assert log[i + a] == x;
      if d >= j { assert log[j..][d - j] == Deleted(k); }
      if i <= d < j { assert w[d - i] == Deleted(k); }
    }
  }

  lemma DeletedOnce(log: seq<Update>, i: nat, j: nat, k: Key)
    requires DeletesAreFinal(log) && i <= j <= |log| && Deleted(k) in log[j..]
    ensures Deleted(k) !in log[i..j]
  {
    var d :| 0 <= d < |log[j..]| && log[j..][d] == Deleted(k);
    assert log[j + d] == Deleted(k) && Mentions(log[j + d], k);
    forall a | 0 <= a < |log[i..j]| ensures log[i..j][a] != Deleted(k) {
      assert log[i + a].Deleted? ==> !Mentions(log[j + d], log[i + a].key);
    }
  }

  /** In a window no merge panics, and what survives about an object is its
      deletion or nothing but creations and updates. */
  lemma WindowMerges(w: seq<Update>)
    requires DeletesAreFinal(w)
    ensures Merge(w) == Some(Survivors(w))
    ensures forall x :: x in Survivors(w) ==> x in w
    ensures forall k :: Mentioned(w, k) <==> Mentioned(Survivors(w), k)
    ensures forall k, x :: Deleted(k) in w && x in Survivors(w) && Mentions(x, k) ==> x == Deleted(k)
  {
    FinalDeletesAreSingle(w);
    MergeIsSurvivors(w);
    SurvivorsSubset(w);
    forall k ensures Mentioned(w, k) <==> Mentioned(Survivors(w), k) {
      if Mentioned(w, k) {
        LastMentionSurvives(w, k);
      }
    }
    forall k, x | Deleted(k) in w && x in Survivors(w) && Mentions(x, k) ensures x == Deleted(k) {
      DeletionIsAlone(w, k);
    }
  }

  lemma SliceKeepsFirst(log: seq<Update>, i: nat, j: nat)
    requires CreationsAreFirst(log) && i <= j <= |log|
    ensures CreationsAreFirst(log[i..j])
  {
    var w := log[i..j];
    forall a, b | 0 <= a < b < |w| && w[b].Created? ensures !Mentions(w[a], w[b].key) {
      assert w[a] == log[i + a] && w[b] == log[i + b];
    }
  }

  /** In every state with the invariant, what is left of a window about an
      object is nothing, its deletion, its creation, its last update, or its
      creation and then its last update. */
  lemma WindowShape(s: State, u: Id, cursor: nat, k: Key)
    requires Inv(s) && u in s.accounts
    ensures LogsOk(s) && Merge(Window(s, u, cursor)).Some?
    ensures IsShape(OnKey(Merge(Window(s, u, cursor)).value, k), k)
  {
    hide Core, ThreadsOk, FamilyOk;
    InvCore(s);
    var ids := s.accounts[u].updateIDs;
    var first, last := FirstIndex(ids, cursor), LastIndex(ids, cursor, s.maxUpdatesPerEvent);
    FaithfulLog(s, u);
    SliceKeepsFinal(LogOf(s, u), first, last);
    SliceKeepsFirst(LogOf(s, u), first, last);
    WindowMerges(Window(s, u, cursor));
    MergedShape(Window(s, u, cursor), k);
  }

  /** The windows for which an event can be built: those that mention no object
      whose deletion lies beyond the window. */
  lemma SafeWindows(s: State, u: Id, cursor: nat)
    requires Inv(s) && u in s.accounts
    ensures EventIsSafe(s, u, cursor) <==>
      && s.accounts[u].updateIDs != [] && HasPrimary(s.accounts[u])
      && forall k :: Mentioned(Window(s, u, cursor), k) ==> Deleted(k) !in Beyond(s, u, cursor)
  {
    hide Core, ThreadsOk, FamilyOk, Readable, Live, Present, HasPrimary;
    InvCore(s);
    var log, w, rest := LogOf(s, u), Window(s, u, cursor), Beyond(s, u, cursor);
    var ids := s.accounts[u].updateIDs;
    var first, last := FirstIndex(ids, cursor), LastIndex(ids, cursor, s.maxUpdatesPerEvent);
    FaithfulLog(s, u);
    SliceKeepsFinal(log, first, last);
    WindowMerges(w);
    assert forall x :: x in rest ==> x in log;
    forall k | Mentioned(w, k) && Deleted(k) in rest ensures !EventIsSafe(s, u, cursor) {
      LateDeletionBreaks(s, u, cursor, k);
    }
    forall x | x in Survivors(w) && (x.Created? || x.Updated?) && Deleted(x.key) !in rest ensures Readable(s, u, x.key) {
      assert Mentions(x, x.key) && Mentioned(w, x.key);
      assert Deleted(x.key) !in w;
      LiveIsReadable(s, u, x.key);
    }
    forall x | x in Survivors(w) && (x.Created? || x.Updated?) ensures Mentioned(w, x.key) {
      assert Mentions(x, x.key);
    }
  }

  lemma LateDeletionBreaks(s: State, u: Id, cursor: nat, k: Key)
    requires Inv(s) && u in s.accounts
    requires Mentioned(Window(s, u, cursor), k) && Deleted(k) in Beyond(s, u, cursor)
    ensures !EventIsSafe(s, u, cursor)
  {
    hide Core, ThreadsOk, FamilyOk, Readable, Live, Present, HasPrimary;
    InvCore(s);
    var log, w, rest := LogOf(s, u), Window(s, u, cursor), Beyond(s, u, cursor);
    var ids := s.accounts[u].updateIDs;
    var first, last := FirstIndex(ids, cursor), LastIndex(ids, cursor, s.maxUpdatesPerEvent);
    FaithfulLog(s, u);
    SliceKeepsFinal(log, first, last);
    WindowMerges(w);
    var x :| x in Survivors(w) && Mentions(x, k);
    assert Deleted(k) in log;
    DeletedOnce(log, first, last, k);
    LiveIsReadable(s, u, k);
  }

  // ---------------------------------------------------------------------
  // What an event says

  /** The item reports the update, under the action that stands for it. */
  ghost predicate Reports(item: Item, x: Update) {
    match item.action
    case EventCreate => x == Created(item.key)
    case EventUpdate => x == Updated(item.key)
    case EventDelete => x == Deleted(item.key)
  }

  /** The positions below `n` of the updates about objects of one kind. */
  ghost function PositionsAbout(updates: seq<Update>, kind: Kind, n: nat): (ps: seq<nat>)
    requires n <= |updates|
    ensures forall p | p in ps :: p < n
    ensures forall p | 0 <= p < n :: p in ps <==> About(updates[p], kind)
    ensures forall i, j | 0 <= i < j < |ps| :: ps[i] < ps[j]
  {
    if n == 0 then []
    else
      var before := PositionsAbout(updates, kind, n - 1);
      assert forall i | 0 <= i < |before| :: before[i] in before;
      if About(updates[n - 1], kind) then before + [n - 1] else before
  }

  /** The items are the updates about objects of the kind, one each, in order. */
  ghost predicate ReportsInOrder(items: seq<Item>, updates: seq<Update>, kind: Kind) {
    var ps := PositionsAbout(updates, kind, |updates|);
    |items| == |ps| && forall i | 0 <= i < |ps| :: ps[i] in ps && Reports(items[i], updates[ps[i]])
  }

  lemma {:induction false} PositionsInPrefix(updates: seq<Update>, kind: Kind, n: nat, m: nat)
    requires n <= m <= |updates|
    ensures PositionsAbout(updates[..m], kind, n) == PositionsAbout(updates, kind, n)
  {
    if n > 0 {
      PositionsInPrefix(updates, kind, n - 1, m);
    }
  }

  lemma ReportsOneMore(items: seq<Item>, updates: seq<Update>, kind: Kind, x: Update, more: seq<Item>)
    requires ReportsInOrder(items, updates, kind)
    requires if About(x, kind) then |more| == 1 && Reports(more[0], x) else more == []
    ensures ReportsInOrder(items + more, updates + [x], kind)
  {
    hide Reports, About;
    var n, all := |updates|, updates + [x];
    assert all[..n] == updates;
    PositionsInPrefix(all, kind, n, n);
  }

  lemma {:induction false} ItemsReport(s: State, u: Id, updates: seq<Update>, kind: Kind)
    ensures ReportsInOrder(Items(s, u, updates, kind), updates, kind)
  {
    hide Stored, ReportsInOrder;
    if updates == [] {
      NothingToReport(kind);
    } else {
      var n := |updates| - 1;
      ItemsReport(s, u, updates[..n], kind);
      assert updates == updates[..n] + [updates[n]];
      ReportsOneMore(Items(s, u, updates[..n], kind), updates[..n], kind, updates[n],
                     if About(updates[n], kind) then [ItemOf(s, u, updates[n])] else []);
    }
  }

  lemma NothingToReport(kind: Kind)
    ensures ReportsInOrder([], [], kind)
  {}

  lemma {:induction false} ItemsCarry(s: State, u: Id, updates: seq<Update>, kind: Kind)
    ensures forall item | item in Items(s, u, updates, kind) ::
      item.value == if item.action.EventDelete? then None else Stored(s, u, item.key)
  {
    hide Stored;
    if updates != [] {
      ItemsCarry(s, u, updates[..|updates| - 1], kind);
    }
  }

  /** The items of an event about objects of one kind. */
  function ItemsAbout(e: Event, kind: Kind): seq<Item> {
    match kind
    case MessageKind => e.messages
    case LabelKind => e.labels
    case AddressKind => e.addresses
  }

  ghost predicate HasItem(e: Event, k: Key, action: Action) {
    exists item :: item in ItemsAbout(e, k.kind) && item.key == k && item.action == action
  }

  lemma SafeMerges(s: State, u: Id, cursor: nat)
    requires LogsOk(s) && u in s.accounts && EventIsSafe(s, u, cursor)
    ensures Merge(Window(s, u, cursor)).Some?
  {}

  /** The list of each kind reports the merged updates about such objects, one
      each and in their order. */
  lemma EventInOrder(s: State, u: Id, cursor: nat, kind: Kind)
    requires LogsOk(s) && u in s.accounts && EventIsSafe(s, u, cursor)
    ensures ReportsInOrder(ItemsAbout(GetEvent(s, u, cursor).0, kind), Merge(Window(s, u, cursor)).value, kind)
  {
    SafeMerges(s, u, cursor);
    hide ReportsInOrder, EventIsSafe, Merge, Window, Items;
    ItemsReport(s, u, Merge(Window(s, u, cursor)).value, kind);
  }

  lemma ReportedIsInWindow(e: Event, m: seq<Update>, k: Key, action: Action)
    requires ReportsInOrder(ItemsAbout(e, k.kind), m, k.kind) && HasItem(e, k, action)
    ensures exists x :: x in m && Reports(Item(k, action, None), x)
  {
    hide Reports, About, PositionsAbout, ItemsAbout;
    var item :| item in ItemsAbout(e, k.kind) && item.key == k && item.action == action;
    ItemReports(ItemsAbout(e, k.kind), m, k.kind, item);
    var x :| x in m && Reports(item, x);
    SameReport(item, Item(k, action, None), x);
  }

  lemma ItemReports(items: seq<Item>, m: seq<Update>, kind: Kind, item: Item)
    requires ReportsInOrder(items, m, kind) && item in items
    ensures exists x :: x in m && Reports(item, x)
  {
    hide Reports, About, PositionsAbout;
    var ps := PositionsAbout(m, kind, |m|);
    var i :| 0 <= i < |items| && items[i] == item;
    assert ps[i] in ps;
    assert m[ps[i]] in m && Reports(item, m[ps[i]]);
  }

  lemma SameReport(item: Item, other: Item, x: Update)
    requires Reports(item, x) && item.key == other.key && item.action == other.action
    ensures Reports(other, x)
  {}

  lemma InWindowIsReported(e: Event, m: seq<Update>, k: Key, x: Update)
    requires ReportsInOrder(ItemsAbout(e, k.kind), m, k.kind) && x in m && Mentions(x, k)
    ensures HasItem(e, k, if x.Created? then EventCreate else if x.Updated? then EventUpdate else EventDelete)
  {
    hide PositionsAbout, ItemsAbout, ReportsInOrder, HasItem, About, Reports, Mentions;
    var p :| 0 <= p < |m| && m[p] == x;
    MentionIsAbout(x, k);
    AboutReported(ItemsAbout(e, k.kind), m, k.kind, p);
    var item :| item in ItemsAbout(e, k.kind) && Reports(item, x);
    ReportHasItem(e, item, x, k);
  }

  lemma MentionIsAbout(x: Update, k: Key)
    requires Mentions(x, k)
    ensures About(x, k.kind)
  {}

  lemma ReportHasItem(e: Event, item: Item, x: Update, k: Key)
    requires item in ItemsAbout(e, k.kind) && Reports(item, x) && Mentions(x, k)
    ensures HasItem(e, k, if x.Created? then EventCreate else if x.Updated? then EventUpdate else EventDelete)
  {
    hide ItemsAbout;
  }

  lemma AboutReported(items: seq<Item>, m: seq<Update>, kind: Kind, p: nat)
    requires ReportsInOrder(items, m, kind) && p < |m| && About(m[p], kind)
    ensures exists item :: item in items && Reports(item, m[p])
  {
    var ps := PositionsAbout(m, kind, |m|);
    hide PositionsAbout, About, Reports;
    assert p in ps;
    var i :| 0 <= i < |ps| && ps[i] == p;
    assert items[i] in items;
  }

  lemma ReportedActions(e: Event, m: seq<Update>, k: Key)
    requires ReportsInOrder(ItemsAbout(e, k.kind), m, k.kind)
    ensures HasItem(e, k, EventCreate) <==> Created(k) in m
    ensures HasItem(e, k, EventUpdate) <==> Updated(k) in m
    ensures HasItem(e, k, EventDelete) <==> Deleted(k) in m
  {
    hide ReportsInOrder, HasItem, ItemsAbout;
    forall action | HasItem(e, k, action) ensures exists x :: x in m && Reports(Item(k, action, None), x) {
      ReportedIsInWindow(e, m, k, action);
    }
    forall x | x in m && Mentions(x, k)
      ensures HasItem(e, k, if x.Created? then EventCreate else if x.Updated? then EventUpdate else EventDelete)
    {
      InWindowIsReported(e, m, k, x);
    }
  }

  /** An event creates, updates or deletes an object exactly if the merged
      window says so, with the object's current value, and carries the user
      exactly if the window asks for it. */
  lemma EventActions(s: State, u: Id, cursor: nat, k: Key)
    requires Inv(s) && u in s.accounts && LogsOk(s) && EventIsSafe(s, u, cursor)
    ensures var e, m := GetEvent(s, u, cursor).0, Merge(Window(s, u, cursor)).value;
      && (HasItem(e, k, EventCreate) <==> Created(k) in m)
      && (HasItem(e, k, EventUpdate) <==> Updated(k) in m)
      && (HasItem(e, k, EventDelete) <==> Deleted(k) in m)
      && (forall item | item in ItemsAbout(e, k.kind) && item.key == k ::
            if item.action.EventDelete? then item.value == None
            else item.value == ValueOf(s, u, k) && item.value.Some?)
  {
    SafeMerges(s, u, cursor);
    hide Inv, Core, EventIsSafe, Merge, Window, HasItem, ReportsInOrder, Items, Stored, Live, Present;
    EventInOrder(s, u, cursor, k.kind);
    var e, m := GetEvent(s, u, cursor).0, Merge(Window(s, u, cursor)).value;
    ReportedActions(e, m, k);
    ItemsCarry(s, u, m, k.kind);
    ReportedAreLive(s, u, cursor, k);
    forall item | item in ItemsAbout(e, k.kind) && item.key == k && !item.action.EventDelete?
      ensures item.value == ValueOf(s, u, k) && item.value.Some?
    {
      assert HasItem(e, k, item.action) by { HasThisItem(e, item); }
    }
  }

  lemma HasThisItem(e: Event, item: Item)
    requires item in ItemsAbout(e, item.key.kind)
    ensures HasItem(e, item.key, item.action)
  {}

  /** What a safe event creates or updates is the account's, and stored. */
  lemma ReportedAreLive(s: State, u: Id, cursor: nat, k: Key)
    requires Inv(s) && u in s.accounts && LogsOk(s) && EventIsSafe(s, u, cursor)
    ensures var m := Merge(Window(s, u, cursor)).value;
      Created(k) in m || Updated(k) in m ==> ValueOf(s, u, k) == Stored(s, u, k) && Stored(s, u, k).Some?
  {
    hide Core, ThreadsOk, FamilyOk, Readable, HasPrimary, Merge, Live, Present, Stored, ValueOf;
    InvCore(s);
    var log, w, m := LogOf(s, u), Window(s, u, cursor), Merge(Window(s, u, cursor)).value;
    var ids := s.accounts[u].updateIDs;
    FaithfulLog(s, u);
    SliceKeepsFinal(log, FirstIndex(ids, cursor), LastIndex(ids, cursor, s.maxUpdatesPerEvent));
    WindowMerges(w);
    LiveIsReadable(s, u, k);
    hide LogsOk, LogOf, Window, EventIsSafe;
    if Created(k) in m || Updated(k) in m {
      var x := if Created(k) in m then Created(k) else Updated(k);
      assert Mentions(x, k) && Mentioned(w, k);
      LiveValue(s, u, k);
    }
  }

  lemma LiveValue(s: State, u: Id, k: Key)
    requires u in s.accounts && Live(s, u, k) && Present(s, u, k)
    ensures ValueOf(s, u, k) == Stored(s, u, k) && Stored(s, u, k).Some?
  {}

  /** The event carries the user exactly if the window asks for it. */
  lemma EventUserInfo(s: State, u: Id, cursor: nat)
    requires Inv(s) && u in s.accounts && LogsOk(s) && EventIsSafe(s, u, cursor)
    ensures GetEvent(s, u, cursor).0.userInfo <==> UserInfoUpdated in Window(s, u, cursor)
  {
    hide Core, ThreadsOk, FamilyOk, Readable, HasPrimary, Merge;
    InvCore(s);
    var ids := s.accounts[u].updateIDs;
    var w := Window(s, u, cursor);
    FaithfulLog(s, u);
    SliceKeepsFinal(LogOf(s, u), FirstIndex(ids, cursor), LastIndex(ids, cursor, s.maxUpdatesPerEvent));
    WindowMerges(w);
    UserInfoSurvives(w);
  }

  lemma {:induction false} UserInfoSurvives(w: seq<Update>)
    ensures UserInfoUpdated in Survivors(w) <==> UserInfoUpdated in w
  {
    if w != [] {
      assert w == [w[0]] + w[1..];
      UserInfoSurvives(w[1..]);
    }
  }

  lemma EventHasLastID(s: State, u: Id, cursor: nat)
    requires LogsOk(s) && u in s.accounts && EventIsSafe(s, u, cursor)
    ensures var ids := s.accounts[u].updateIDs;
      var last := LastIndex(ids, cursor, s.maxUpdatesPerEvent);
      GetEvent(s, u, cursor).0.eventID == ids[last - 1] && (GetEvent(s, u, cursor).1 <==> last != |ids|)
  {}

  /** The window a request is served, as the client's event loop sees it, is the
      event that is built: the same ID and `more`, and the IDs of the updates. */
  lemma ServedWindow(s: State, u: Id, cursor: nat)
    requires LogsOk(s) && u in s.accounts && EventIsSafe(s, u, cursor)
    ensures var served, got := EventLoop.Serve(s.accounts[u].updateIDs, cursor, s.maxUpdatesPerEvent), GetEvent(s, u, cursor);
      served.eventID == got.0.eventID && served.more == got.1
    ensures IDsOf(s, EventLoop.Serve(s.accounts[u].updateIDs, cursor, s.maxUpdatesPerEvent).ids, Window(s, u, cursor))
  {
    ServedIDs(s, u, cursor);
    EventHasLastID(s, u, cursor);
    hide LogsOk, EventIsSafe, GetEvent, Window, IDsOf;
  }

  /** The updates with these IDs, in order. */
  ghost predicate IDsOf(s: State, ids: seq<nat>, updates: seq<Update>) {
    |ids| == |updates| && forall i | 0 <= i < |ids| :: ids[i] in s.updates && updates[i] == s.updates[ids[i]]
  }

  lemma ServedIDs(s: State, u: Id, cursor: nat)
    requires LogsOk(s) && u in s.accounts && s.accounts[u].updateIDs != []
    ensures IDsOf(s, EventLoop.Serve(s.accounts[u].updateIDs, cursor, s.maxUpdatesPerEvent).ids, Window(s, u, cursor))
  {
    LogIDs(s, u);
    hide LogsOk, LogOf;
    var ids := s.accounts[u].updateIDs;
    SliceIDs(s, ids, LogOf(s, u), FirstIndex(ids, cursor), LastIndex(ids, cursor, s.maxUpdatesPerEvent));
  }

  lemma LogIDs(s: State, u: Id)
    requires LogsOk(s) && u in s.accounts
    ensures IDsOf(s, s.accounts[u].updateIDs, LogOf(s, u))
  {
    var ids := s.accounts[u].updateIDs;
    assert forall i | 0 <= i < |ids| :: ids[i] in ids;
  }

  lemma SliceIDs(s: State, ids: seq<nat>, updates: seq<Update>, a: nat, b: nat)
    requires IDsOf(s, ids, updates) && a <= b <= |ids|
    ensures IDsOf(s, ids[a..b], updates[a..b])
  {}

  /** With unbounded windows every event can be built, from every cursor. */
  lemma UnboundedEventsAreSafe(s: State, u: Id, cursor: nat)
    requires Inv(s) && u in s.accounts && s.maxUpdatesPerEvent <= 0
    ensures EventIsSafe(s, u, cursor) <==> s.accounts[u].updateIDs != [] && HasPrimary(s.accounts[u])
  {
    hide Core, ThreadsOk, FamilyOk, Readable, HasPrimary;
    SafeWindows(s, u, cursor);
    InvCore(s);
    assert Beyond(s, u, cursor) == [];
  }
}
