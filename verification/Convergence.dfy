/** A client that applies events ends with what the server has, however calls
    and polls interleave (server/backend/api.go). */
module Convergence {
  import opened Ids
  import opened Updates
  import opened EventLog
  import opened Locations
  import opened LabelForest
  import opened Records
  import opened Operations
  import opened Views
  import opened Invariants
  import opened Steps
  import opened LabelSteps
  import opened Runs
  import opened Events

  /** What a client keeps. */
  datatype Replica = Replica(objects: map<Key, Value>, settings: Settings, cursor: nat)

  function Get(objects: map<Key, Value>, k: Key): Option<Value> { if k in objects then Some(objects[k]) else None }

  function ApplyItem(objects: map<Key, Value>, item: Item): map<Key, Value> {
    if item.action.EventDelete? || item.value.None? then objects - {item.key} else objects[item.key := item.value.value]
  }

  function ApplyItems(objects: map<Key, Value>, items: seq<Item>): map<Key, Value> {
    if items == [] then objects else ApplyItem(ApplyItems(objects, items[..|items| - 1]), items[|items| - 1])
  }

  function ApplyEvent(r: Replica, e: Event): Replica {
    Replica(ApplyItems(ApplyItems(ApplyItems(r.objects, e.messages), e.labels), e.addresses),
            if e.settings.Some? then e.settings.value else r.settings, e.eventID)
  }

  /** The replica shows exactly the account's objects and settings. */
  ghost predicate Shows(s: State, u: Id, r: Replica) {
    u in s.accounts && r.settings == s.accounts[u].settings && forall k :: Get(r.objects, k) == ValueOf(s, u, k)
  }

  /** One poll: the client applies the event, or fetches everything again when
      the event asks for it. */
  ghost predicate Polls(s: State, u: Id, r: Replica, r': Replica)
    requires LogsOk(s) && u in s.accounts && EventIsSafe(s, u, r.cursor)
  {
    var e := GetEvent(s, u, r.cursor).0;
    if e.refresh == Some(RefreshAll) then Shows(s, u, r') && r'.cursor == e.eventID else r' == ApplyEvent(r, e)
  }

  // ---------------------------------------------------------------------
  // What is still to be told

  ghost function Pending(s: State, u: Id, cursor: nat): seq<Update>
    requires LogsOk(s) && u in s.accounts
  {
    LogOf(s, u)[FirstIndex(s.accounts[u].updateIDs, cursor)..]
  }

  /** Whatever the rest of the log does not mention is as on the server. */
  ghost predicate Tracks(s: State, u: Id, r: Replica) {
    && LogsOk(s) && u in s.accounts && r.cursor in s.accounts[u].updateIDs
    && (forall k | !Mentioned(Pending(s, u, r.cursor), k) :: Get(r.objects, k) == ValueOf(s, u, k))
    && (LastSettings(Pending(s, u, r.cursor)).None? ==> r.settings == s.accounts[u].settings)
  }

  /** The log was restarted since the client's last poll. */
  ghost predicate IsReset(s: State, u: Id, r: Replica) {
    LogsOk(s) && u in s.accounts && r.cursor !in s.accounts[u].updateIDs && r.cursor < |s.updates|
  }

  ghost predicate Follows(s: State, u: Id, r: Replica) { Tracks(s, u, r) || IsReset(s, u, r) }

  // ---------------------------------------------------------------------
  // Applying an event

  lemma ApplyAppend(objects: map<Key, Value>, items: seq<Item>, item: Item)
    ensures ApplyItems(objects, items + [item]) == ApplyItem(ApplyItems(objects, items), item)
  {
    assert (items + [item])[..|items|] == items;
  }

  /** The last update about an object. */
  ghost function LastOn(updates: seq<Update>, k: Key): (r: Option<Update>)
    ensures r.Some? ==> r.value in updates && Mentions(r.value, k)
    ensures r.None? ==> !Mentioned(updates, k)
  {
    if updates == [] then None
    else
      var n := |updates| - 1;
      assert updates == updates[..n] + [updates[n]];
      if Mentions(updates[n], k) then Some(updates[n]) else LastOn(updates[..n], k)
  }

  /** What a client then has of the object. */
  function Effect(s: State, u: Id, last: Option<Update>, k: Key, before: Option<Value>): Option<Value> {
    if last.None? then before else if last.value.Deleted? then None else Stored(s, u, k)
  }

  lemma ItemEffect(objects: map<Key, Value>, item: Item, k: Key)
    ensures Get(ApplyItem(objects, item), k)
         == if k != item.key then Get(objects, k) else if item.action.EventDelete? then None else item.value
  {}

  /** What the last update adds. */
  lemma ItemsStep(s: State, u: Id, updates: seq<Update>, kind: Kind, objects: map<Key, Value>, k: Key)
    requires updates != []
    ensures var n := |updates| - 1;
      Get(ApplyItems(objects, Items(s, u, updates, kind)), k)
      == if About(updates[n], kind) && updates[n].key == k then Effect(s, u, Some(updates[n]), k, None)
         else Get(ApplyItems(objects, Items(s, u, updates[..n], kind)), k)
  {
    hide Get, ApplyItem, ApplyItems, Stored;
    var n := |updates| - 1;
    var items := Items(s, u, updates[..n], kind);
    if About(updates[n], kind) {
      ApplyAppend(objects, items, ItemOf(s, u, updates[n]));
      ItemEffect(ApplyItems(objects, items), ItemOf(s, u, updates[n]), k);
    } else {
      assert items + [] == items;
    }
  }

  /** What the items of one kind do to one object. */
  lemma {:induction false} ItemsApplied(s: State, u: Id, updates: seq<Update>, kind: Kind, objects: map<Key, Value>, k: Key)
    ensures Get(ApplyItems(objects, Items(s, u, updates, kind)), k)
         == if k.kind == kind then Effect(s, u, LastOn(updates, k), k, Get(objects, k)) else Get(objects, k)
  {
    if updates != [] {
      hide Get, ApplyItems, Items, Stored;
      ItemsApplied(s, u, updates[..|updates| - 1], kind, objects, k);
      ItemsStep(s, u, updates, kind, objects, k);
    }
  }

  lemma EventApplied(s: State, u: Id, updates: seq<Update>, eventID: nat, r: Replica, k: Key)
    ensures Get(ApplyEvent(r, BuildEvent(s, u, updates, eventID)).objects, k)
         == Effect(s, u, LastOn(updates, k), k, Get(r.objects, k))
  {
    var e := BuildEvent(s, u, updates, eventID);
    var first := ApplyItems(r.objects, e.messages);
    var second := ApplyItems(first, e.labels);
    ItemsApplied(s, u, updates, MessageKind, r.objects, k);
    ItemsApplied(s, u, updates, LabelKind, first, k);
    ItemsApplied(s, u, updates, AddressKind, second, k);
  }

  /** Merging keeps the last settings. */
  lemma {:induction false} MergedSettings(w: seq<Update>)
    ensures LastSettings(Survivors(w)) == LastSettings(w)
  {
    if w != [] {
      MergedSettings(w[1..]);
      var rest := w[1..];
      assert w == [w[0]] + rest;
      LastSettingsConcat([w[0]], rest);
      if Overridden(rest, w[0]) {
        if w[0].SettingsUpdated? {
          OverriddenSettings(rest, w[0]);
        }
      } else {
        LastSettingsConcat([w[0]], Survivors(rest));
      }
      LastOfOne(w[0]);
    }
  }

  lemma LastOfOne(x: Update)
    ensures LastSettings([x]) == if x.SettingsUpdated? then Some(x.settings) else None
  {
    assert [x][..0] == [];
  }

  lemma OverriddenSettings(rest: seq<Update>, x: Update)
    requires Overridden(rest, x) && x.SettingsUpdated?
    ensures LastSettings(rest).Some?
  {
    var y :| y in rest && Replaces(y, x) == Some(true);
    SettingsFound(rest, y);
  }

  lemma {:induction false} SettingsFound(log: seq<Update>, x: Update)
    requires x in log && x.SettingsUpdated?
    ensures LastSettings(log).Some?
  {
    var n := |log| - 1;
    if log[n] != x {
      assert log == log[..n] + [log[n]];
      SettingsFound(log[..n], x);
    }
  }

  lemma RefreshOfOne(x: Update, rest: seq<Update>)
    ensures LastRefresh([x] + rest) == if LastRefresh(rest).Some? then LastRefresh(rest) else if x.Refreshed? then Some(x.flag) else None
    decreases |rest|
  {
    if rest == [] {
      assert [x] + rest == [x] && [x][..0] == [];
    } else {
      assert ([x] + rest)[..|rest|] == [x] + rest[..|rest| - 1];
      RefreshOfOne(x, rest[..|rest| - 1]);
    }
  }

  /** Merging keeps the last refresh flag. */
  lemma {:induction false} MergedRefresh(w: seq<Update>)
    ensures LastRefresh(Survivors(w)) == LastRefresh(w)
  {
    if w != [] {
      MergedRefresh(w[1..]);
      assert w == [w[0]] + w[1..];
      RefreshOfOne(w[0], w[1..]);
      RefreshOfOne(w[0], Survivors(w[1..]));
    }
  }

  // ---------------------------------------------------------------------
  // Polling

  /** The event ends where the next one begins. */
  lemma NextWindow(s: State, u: Id, cursor: nat)
    requires LogsOk(s) && u in s.accounts && EventIsSafe(s, u, cursor)
    ensures var e := GetEvent(s, u, cursor).0;
      e.eventID in s.accounts[u].updateIDs && Pending(s, u, e.eventID) == Beyond(s, u, cursor)
    ensures Pending(s, u, cursor) == Window(s, u, cursor) + Beyond(s, u, cursor)
    ensures GetEvent(s, u, cursor).1 <==> Beyond(s, u, cursor) != []
  {
    hide BuildEvent, LogsOk, LogOf, Readable, HasPrimary, Merge;
    var ids, log := s.accounts[u].updateIDs, LogOf(s, u);
    var first, last := FirstIndex(ids, cursor), LastIndex(ids, cursor, s.maxUpdatesPerEvent);
    LogLength(s, u);
    IdsIncrease(s, u);
    FirstIndexAt(ids, last - 1);
    assert ids[last - 1] in ids;
    JoinSlices(log, first, last, |log|);
    EventHasLastID(s, u, cursor);
  }

  lemma LogLength(s: State, u: Id)
    requires LogsOk(s) && u in s.accounts
    ensures |LogOf(s, u)| == |s.accounts[u].updateIDs|
  {}

  lemma IdsIncrease(s: State, u: Id)
    requires LogsOk(s) && u in s.accounts
    ensures Increasing(s.accounts[u].updateIDs)
  {}

  /** What the event says of an object that is not mentioned beyond it. */
  lemma PolledObject(s: State, u: Id, r: Replica, k: Key)
    requires Inv(s) && u in s.accounts && EventIsSafe(s, u, r.cursor)
    requires !Mentioned(Pending(s, u, r.cursor), k) ==> Get(r.objects, k) == ValueOf(s, u, k)
    requires !Mentioned(Beyond(s, u, r.cursor), k)
    ensures Get(ApplyEvent(r, GetEvent(s, u, r.cursor).0).objects, k) == ValueOf(s, u, k)
  {
    hide Core, ThreadsOk, FamilyOk, Readable, HasPrimary, Live, Present, Get, Stored;
    InvCore(s);
    var log, w := LogOf(s, u), Window(s, u, r.cursor);
    var ids := s.accounts[u].updateIDs;
    FaithfulLog(s, u);
    SliceKeepsFinal(log, FirstIndex(ids, r.cursor), LastIndex(ids, r.cursor, s.maxUpdatesPerEvent));
    WindowMerges(w);
    var merged := Survivors(w);
    EventApplied(s, u, merged, GetEvent(s, u, r.cursor).0.eventID, r, k);
    NextWindow(s, u, r.cursor);
    MentionedConcat(w, Beyond(s, u, r.cursor), k);
    LiveIsReadable(s, u, k);
    var last := LastOn(merged, k);
    if last.Some? {
      assert Mentioned(w, k);
      if last.value.Deleted? {
        assert Deleted(k) in log;
      }
    }
  }

  /** It is the last refresh of the updates. */
  ghost predicate RefreshesLast(w: seq<Update>, flag: RefreshFlag) {
    exists i :: 0 <= i < |w| && w[i] == Refreshed(flag) && forall j | i < j < |w| :: !w[j].Refreshed?
  }

  /** They are the last settings of the updates. */
  ghost predicate SetsLast(w: seq<Update>, settings: Settings) {
    exists i :: 0 <= i < |w| && w[i] == SettingsUpdated(settings) && forall j | i < j < |w| :: !w[j].SettingsUpdated?
  }

  lemma {:induction false} LastsAre(w: seq<Update>)
    ensures if LastRefresh(w).Some? then RefreshesLast(w, LastRefresh(w).value) else forall x :: x in w ==> !x.Refreshed?
    ensures if LastSettings(w).Some? then SetsLast(w, LastSettings(w).value) else forall x :: x in w ==> !x.SettingsUpdated?
  {
    if w != [] {
      var n := |w| - 1;
      LastsAre(w[..n]);
      assert w == w[..n] + [w[n]];
    }
  }

  /** Merging loses neither the last settings nor the last refresh flag. */
  lemma EventFlags(s: State, u: Id, cursor: nat)
    requires Inv(s) && u in s.accounts && EventIsSafe(s, u, cursor)
    ensures var e := GetEvent(s, u, cursor).0;
      e.settings == LastSettings(Window(s, u, cursor)) && e.refresh == LastRefresh(Window(s, u, cursor))
    ensures var e, w := GetEvent(s, u, cursor).0, Window(s, u, cursor);
      && (if e.refresh.Some? then RefreshesLast(w, e.refresh.value) else forall x :: x in w ==> !x.Refreshed?)
      && (if e.settings.Some? then SetsLast(w, e.settings.value) else forall x :: x in w ==> !x.SettingsUpdated?)
  {
    LastsAre(Window(s, u, cursor));
    hide RefreshesLast, SetsLast;
    hide Core, ThreadsOk, FamilyOk, Readable, HasPrimary;
    InvCore(s);
    var w := Window(s, u, cursor);
    var ids := s.accounts[u].updateIDs;
    FaithfulLog(s, u);
    SliceKeepsFinal(LogOf(s, u), FirstIndex(ids, cursor), LastIndex(ids, cursor, s.maxUpdatesPerEvent));
    WindowMerges(w);
    MergedSettings(w);
    MergedRefresh(w);
  }

  lemma PolledSettings(s: State, u: Id, r: Replica)
    requires Inv(s) && u in s.accounts && EventIsSafe(s, u, r.cursor)
    requires LastSettings(Pending(s, u, r.cursor)).None? ==> r.settings == s.accounts[u].settings
    requires LastSettings(Beyond(s, u, r.cursor)).None?
    ensures ApplyEvent(r, GetEvent(s, u, r.cursor).0).settings == s.accounts[u].settings
  {
    hide Inv, Core, EventIsSafe, GetEvent, LastSettings, LogOf;
    InvCore(s);
    EventFlags(s, u, r.cursor);
    NextWindow(s, u, r.cursor);
    LastSettingsConcat(Window(s, u, r.cursor), Beyond(s, u, r.cursor));
    PendingSettings(s, u, r.cursor);
  }

  lemma PendingSettings(s: State, u: Id, cursor: nat)
    requires Core(s) && u in s.accounts
    ensures LastSettings(Pending(s, u, cursor)).Some? ==> LastSettings(Pending(s, u, cursor)).value == s.accounts[u].settings
  {
    hide Core, LogOf, LogsOk, FirstIndex;
    InvSettings(s, u);
    LogLength(s, u);
    var log, first := LogOf(s, u), FirstIndex(s.accounts[u].updateIDs, cursor);
    assert log == log[..first] + Pending(s, u, cursor);
    LastSettingsConcat(log[..first], Pending(s, u, cursor));
  }

  lemma InvSettings(s: State, u: Id)
    requires Core(s) && u in s.accounts
    ensures LogsOk(s) && (LastSettings(LogOf(s, u)).Some? ==> LastSettings(LogOf(s, u)).value == s.accounts[u].settings)
  {
    assert SettingsAgree(s, u);
  }

  /** A poll leaves the client on track, and in sync when nothing is left. */
  lemma PollTracks(s: State, u: Id, r: Replica, r': Replica)
    requires Inv(s) && Tracks(s, u, r) && EventIsSafe(s, u, r.cursor) && Polls(s, u, r, r')
    ensures Tracks(s, u, r') && (!GetEvent(s, u, r.cursor).1 ==> Shows(s, u, r'))
  {
    hide Inv, Get, ValueOf, EventIsSafe;
    NextWindow(s, u, r.cursor);
    var rest := Beyond(s, u, r.cursor);
    if GetEvent(s, u, r.cursor).0.refresh != Some(RefreshAll) {
      forall k | !Mentioned(rest, k) ensures Get(r'.objects, k) == ValueOf(s, u, k) {
        PolledObject(s, u, r, k);
      }
      if LastSettings(rest).None? {
        PolledSettings(s, u, r);
      }
    }
  }

  /** The last refresh flag of the window asks for everything. */
  ghost predicate SeesReset(s: State, u: Id, cursor: nat)
    requires LogsOk(s) && u in s.accounts
  {
    LastRefresh(Window(s, u, cursor)) == Some(RefreshAll)
  }

  /** After a restart of the log the client is asked to fetch everything if and
      only if the last refresh flag of its window asks for that, and then it is
      in sync. */
  lemma PollResets(s: State, u: Id, r: Replica, r': Replica)
    requires Inv(s) && IsReset(s, u, r) && EventIsSafe(s, u, r.cursor) && Polls(s, u, r, r')
    ensures GetEvent(s, u, r.cursor).0.refresh == Some(RefreshAll) <==> SeesReset(s, u, r.cursor)
    ensures SeesReset(s, u, r.cursor) ==> Tracks(s, u, r') && Shows(s, u, r')
  {
    hide Inv, Get, ValueOf;
    EventFlags(s, u, r.cursor);
    NextWindow(s, u, r.cursor);
  }

  // ---------------------------------------------------------------------
  // Calls

  lemma CallKeepsTracks(s: State, t: State, u: Id, r: Replica)
    requires Tracks(s, u, r) && Tells(s, t, u, {})
    ensures Tracks(t, u, r)
  {
    hide ValueOf, Get;
    var ids, ids' := s.accounts[u].updateIDs, t.accounts[u].updateIDs;
    var p := FirstIndex(ids, r.cursor) - 1;
    assert ids[p] == r.cursor && ids'[p] == ids[p];
    FirstIndexAt(ids', p);
    var before, after := Pending(s, u, r.cursor), Pending(t, u, r.cursor);
    assert after == before + Delta(s, t, u);
    forall k ensures Mentioned(after, k) <==> Mentioned(before, k) || Mentioned(Delta(s, t, u), k) {
      MentionedConcat(before, Delta(s, t, u), k);
    }
    LastSettingsConcat(before, Delta(s, t, u));
  }

  lemma CallKeepsReset(s: State, t: State, u: Id, r: Replica)
    requires IsReset(s, u, r) && Tells(s, t, u, {})
    ensures IsReset(t, u, r)
  {}

  lemma RestartResets(s: State, u: Id, r: Replica)
    requires Inv(s) && Follows(s, u, r)
    ensures IsReset(RefreshUser(s, u, RefreshAll).state, u, r)
  {
    hide Core;
    InvCore(s);
    LogAllEffect(s, u, Refreshed(RefreshAll));
    var t := LogAll(s, u, Refreshed(RefreshAll));
    assert t.accounts[u].updateIDs == [|s.updates|] && |t.updates| == |s.updates| + 1;
  }

  // ---------------------------------------------------------------------
  // Whole runs

  datatype Move = Call(op: Op) | Poll

  /** Any allowed call but the removal of the account, or a poll by the client of
      `u`. Events can be built when the client polls, and its first window after
      a restart of the log shows the restart. */
  ghost predicate MoveOk(u: Id, s: State, r: Replica, m: Move, s': State, r': Replica)
    requires Inv(s) && u in s.accounts
  {
    match m
    case Call(op) =>
      r' == r && op != OnUser(OpRemoveUser(u)) && Allowed(s, op) && s' == Apply(s, op)
    case Poll =>
      && s' == s && EventIsSafe(s, u, r.cursor) && Polls(s, u, r, r')
      && (r.cursor !in s.accounts[u].updateIDs ==> SeesReset(s, u, r.cursor))
  }

  lemma MoveFollows(u: Id, s: State, r: Replica, m: Move, s': State, r': Replica)
    requires Inv(s) && Follows(s, u, r) && MoveOk(u, s, r, m, s', r')
    ensures Inv(s') && Follows(s', u, r')
  {
    hide Inv, Allowed, Apply, Tracks, IsReset, EventIsSafe, Polls, Tells, SeesReset;
    FollowsAccount(s, u, r);
    match m
    case Call(op) =>
      Step(s, op);
      if op == OnUser(OpRefreshUser(u, RefreshAll)) {
        RestartIs(s, u);
        RestartResets(s, u, r);
      } else {
        StepTells(s, op, s', u);
        CallFollows(s, s', u, r);
      }
    case Poll =>
      if Tracks(s, u, r) {
        PollTracks(s, u, r, r');
      } else {
        ResetIsStale(s, u, r);
        PollResets(s, u, r, r');
      }
  }

  lemma ResetIsStale(s: State, u: Id, r: Replica)
    requires IsReset(s, u, r)
    ensures u in s.accounts && r.cursor !in s.accounts[u].updateIDs
  {}

  lemma StepTells(s: State, op: Op, t: State, u: Id)
    requires StepOk(s, op, t) && u in s.accounts && !Resets(op, u)
    ensures Tells(s, t, u, {})
  {}

  lemma RestartIs(s: State, u: Id)
    requires Inv(s)
    ensures Allowed(s, OnUser(OpRefreshUser(u, RefreshAll)))
    ensures Apply(s, OnUser(OpRefreshUser(u, RefreshAll))) == RefreshUser(s, u, RefreshAll).state
  {}

  lemma CallFollows(s: State, t: State, u: Id, r: Replica)
    requires Follows(s, u, r) && Tells(s, t, u, {})
    ensures Follows(t, u, r)
  {
    hide Tells;
    if Tracks(s, u, r) {
      CallKeepsTracks(s, t, u, r);
    } else {
      CallKeepsReset(s, t, u, r);
    }
  }

  /** Between two requests the log grows as the client's event loop assumes,
      unless a call restarts it. */
  lemma LogGrows(s: State, op: Op, u: Id)
    requires Inv(s) && Allowed(s, op) && u in s.accounts && !Resets(op, u)
    ensures var t := Apply(s, op);
      && u in t.accounts && s.accounts[u].updateIDs <= t.accounts[u].updateIDs && Increasing(t.accounts[u].updateIDs)
  {
    hide Inv, Allowed, Apply, Increasing;
    Step(s, op);
    StepTells(s, op, Apply(s, op), u);
    StepInv(s, op, Apply(s, op));
    InvCore(Apply(s, op));
    IdsIncrease(Apply(s, op), u);
  }

  ghost predicate IsTrace(u: Id, states: seq<State>, replicas: seq<Replica>, moves: seq<Move>) {
    && |states| == |replicas| == |moves| + 1
    && forall i | 0 <= i < |moves| ::
      Inv(states[i]) && u in states[i].accounts ==> MoveOk(u, states[i], replicas[i], moves[i], states[i + 1], replicas[i + 1])
  }

  /** A client that was in sync at some point of the log stays on track. */
  lemma {:induction false} TracesFollow(u: Id, states: seq<State>, replicas: seq<Replica>, moves: seq<Move>, k: nat)
    requires IsTrace(u, states, replicas, moves) && Inv(states[0]) && Follows(states[0], u, replicas[0]) && k <= |moves|
    ensures Inv(states[k]) && Follows(states[k], u, replicas[k])
  {
    hide Inv, Tracks, IsReset, MoveOk;
    if k > 0 {
      TracesFollow(u, states, replicas, moves, k - 1);
      FollowsAccount(states[k - 1], u, replicas[k - 1]);
      assert MoveOk(u, states[k - 1], replicas[k - 1], moves[k - 1], states[k - 1 + 1], replicas[k - 1 + 1]);
      MoveFollows(u, states[k - 1], replicas[k - 1], moves[k - 1], states[k], replicas[k]);
    }
  }

  lemma FollowsAccount(s: State, u: Id, r: Replica)
    requires Follows(s, u, r)
    ensures u in s.accounts && LogsOk(s)
  {}

  /** Convergence: after a poll with nothing left, and after every poll when
      windows are unbounded, the client has exactly what the server has. */
  lemma TracesConverge(u: Id, states: seq<State>, replicas: seq<Replica>, moves: seq<Move>, k: nat)
    requires IsTrace(u, states, replicas, moves) && Inv(states[0]) && Follows(states[0], u, replicas[0])
    requires k < |moves| && moves[k] == Poll
    ensures LogsOk(states[k]) && u in states[k].accounts && EventIsSafe(states[k], u, replicas[k].cursor)
    ensures !GetEvent(states[k], u, replicas[k].cursor).1 || states[k].maxUpdatesPerEvent <= 0 ==>
      Shows(states[k + 1], u, replicas[k + 1])
  {
    hide Inv, Tracks, IsReset, EventIsSafe, Polls, Shows, SeesReset;
    var s, r, r' := states[k], replicas[k], replicas[k + 1];
    TracesFollow(u, states, replicas, moves, k);
    FollowsAccount(s, u, r);
    assert MoveOk(u, s, r, moves[k], states[k + 1], r');
    NextWindow(s, u, r.cursor);
    if Tracks(s, u, r) {
      PollTracks(s, u, r, r');
    } else {
      ResetIsStale(s, u, r);
      PollResets(s, u, r, r');
    }
  }

  /** Fetching everything and the latest event ID is a start. */
  lemma SyncedFollows(s: State, u: Id, r: Replica)
    requires Inv(s) && Shows(s, u, r) && r.cursor in s.accounts[u].updateIDs
    ensures Follows(s, u, r)
  {
    hide Get, ValueOf;
  }

  // ---------------------------------------------------------------------
  // What the conditions are for

  /** The state after a restart and a refresh of mail. */
  lemma RestartThenMail(s: State, u: Id)
    requires Inv(s) && u in s.accounts
    ensures var t := RefreshUser(RefreshUser(s, u, RefreshAll).state, u, RefreshMail).state;
      && Inv(t) && LogsOk(t) && u in t.accounts && LogOf(t, u) == [Refreshed(RefreshAll), Refreshed(RefreshMail)]
      && t.accounts[u].updateIDs == [|s.updates|, |s.updates| + 1]
      && t.accounts[u].addresses == s.accounts[u].addresses && t.maxUpdatesPerEvent == s.maxUpdatesPerEvent
  {
    hide Inv, Log, LogAll, StepOk, LogOf, Logs, LogsOk;
    InvCore(s);
    var s1 := LogAll(s, u, Refreshed(RefreshAll));
    RefreshStep(s, u, RefreshAll);
    StepInv(s, OnUser(OpRefreshUser(u, RefreshAll)), s1);
    LogAllEffect(s, u, Refreshed(RefreshAll));
    RestartShape(s, u);
    var t := Log(s1, u, Refreshed(RefreshMail));
    RefreshStep(s1, u, RefreshMail);
    StepInv(s1, OnUser(OpRefreshUser(u, RefreshMail)), t);
    LogLogs(s1, u, Refreshed(RefreshMail));
    LogsIsAppend(s1, t, u, Refreshed(RefreshMail));
    LogShape(s1, u, Refreshed(RefreshMail));
  }

  /** A refresh of mail alone after a restart hides the restart: the client is
      not asked to fetch everything. */
  lemma RefreshMailHidesReset(s: State, u: Id, cursor: nat)
    requires Inv(s) && u in s.accounts && HasPrimary(s.accounts[u]) && s.maxUpdatesPerEvent <= 0 && cursor < |s.updates|
    ensures var t := RefreshUser(RefreshUser(s, u, RefreshAll).state, u, RefreshMail).state;
      && LogsOk(t) && u in t.accounts && cursor !in t.accounts[u].updateIDs && LogOf(t, u)[0] == Refreshed(RefreshAll)
      && EventIsSafe(t, u, cursor) && GetEvent(t, u, cursor).0.refresh == Some(RefreshMail) && !SeesReset(t, u, cursor)
  {
    hide Inv, EventIsSafe, RefreshUser, LogsOk, LogOf;
    RestartThenMail(s, u);
    var t := RefreshUser(RefreshUser(s, u, RefreshAll).state, u, RefreshMail).state;
    SamePrimary(s.accounts[u], t.accounts[u]);
    UnboundedEventsAreSafe(t, u, cursor);
    EventFlags(t, u, cursor);
    assert Window(t, u, cursor) == LogOf(t, u);
  }

  lemma SamePrimary(before: Account, after: Account)
    requires after.addresses == before.addresses && HasPrimary(before)
    ensures HasPrimary(after)
  {
    var id :| IsPrimary(before, id);
    assert IsPrimary(after, id);
  }

  lemma StepInv(s: State, op: Op, t: State)
    requires StepOk(s, op, t)
    ensures Inv(t)
  {}

  lemma RestartShape(s: State, u: Id)
    requires u in s.accounts && LogsOk(s)
    ensures var t := LogAll(s, u, Refreshed(RefreshAll));
      && t.accounts.Keys == s.accounts.Keys && t.accounts[u].updateIDs == [|s.updates|] && |t.updates| == |s.updates| + 1
      && t.accounts[u].addresses == s.accounts[u].addresses && t.maxUpdatesPerEvent == s.maxUpdatesPerEvent
  {}

  lemma LogShape(s: State, u: Id, update: Update)
    requires u in s.accounts
    ensures var t := Log(s, u, update);
      && t.accounts.Keys == s.accounts.Keys && t.accounts[u].updateIDs == s.accounts[u].updateIDs + [|s.updates|]
      && t.accounts[u].addresses == s.accounts[u].addresses && t.maxUpdatesPerEvent == s.maxUpdatesPerEvent
  {}

  lemma DropLabelLogs(s: State, u: Id, id: Id)
    requires u in s.accounts
    ensures var t := DropLabel(s, u, id);
      && Logs(s, t, u, Deleted(LabelKey(id))) && id !in t.labels && u in t.accounts
      && t.maxUpdatesPerEvent == s.maxUpdatesPerEvent
  {}

  lemma WindowOfOne(t: State, u: Id, n: nat)
    requires LogsOk(t) && u in t.accounts && |t.accounts[u].updateIDs| > n + 1 && t.maxUpdatesPerEvent == 1
    ensures Window(t, u, t.accounts[u].updateIDs[n]) == [LogOf(t, u)[n + 1]]
  {
    FirstIndexAt(t.accounts[u].updateIDs, n);
  }

  lemma MissingLabelBreaks(t: State, u: Id, cursor: nat, id: Id)
    requires LogsOk(t) && u in t.accounts && Window(t, u, cursor) == [Created(LabelKey(id))] && id !in t.labels
    ensures !EventIsSafe(t, u, cursor)
  {
    hide Window, Forest;
    assert Created(LabelKey(id)) in Merge(Window(t, u, cursor)).value;
  }

  lemma WithLabelsIs(s: State, u: Id, labels: Labels, labelIDs: seq<Id>, n: nat, update: Update)
    requires u in s.accounts
    ensures var t := WithLabels(s, u, labels, labelIDs, n, update);
      t.labels == labels && t.maxUpdatesPerEvent == s.maxUpdatesPerEvent && u in t.accounts
  {}

  lemma TwoUpdates(s: State, s1: State, t: State, u: Id, x: Update, y: Update)
    requires LogsOk(s) && Logs(s, s1, u, x) && Logs(s1, t, u, y)
    ensures LogsOk(t) && u in t.accounts && LogOf(t, u) == LogOf(s, u) + [x] + [y]
    ensures t.accounts[u].updateIDs == s.accounts[u].updateIDs + [|s.updates|] + [|s1.updates|]
  {
    LogsIsAppend(s, s1, u, x);
    LogsIsAppend(s1, t, u, y);
    hide LogsOk, LogOf;
  }

  lemma OneButLast<T>(s: seq<T>, x: T, y: T)
    ensures var t := s + [x] + [y];
      |t| == |s| + 2 && t[|s|] == x && forall i | 0 <= i < |s| :: t[i] == s[i]
  {}

  lemma CreatedThenDeleted(s: State, s1: State, t: State, u: Id, id: Id)
    requires LogsOk(s) && Logs(s, s1, u, Created(LabelKey(id))) && Logs(s1, t, u, Deleted(LabelKey(id)))
    requires s.accounts[u].updateIDs != [] && t.maxUpdatesPerEvent == 1 && id !in t.labels
    ensures LogsOk(t) && u in t.accounts && !EventIsSafe(t, u, s.accounts[u].updateIDs[|s.accounts[u].updateIDs| - 1])
  {
    TwoUpdates(s, s1, t, u, Created(LabelKey(id)), Deleted(LabelKey(id)));
    LogLength(s, u);
    hide *;
    var ids, log, n := s.accounts[u].updateIDs, LogOf(s, u), |s.accounts[u].updateIDs|;
    OneButLast(ids, |s.updates|, |s1.updates|);
    OneButLast(log, Created(LabelKey(id)), Deleted(LabelKey(id)));
    WindowOfOne(t, u, n - 1);
    MissingLabelBreaks(t, u, t.accounts[u].updateIDs[n - 1], id);
  }

  lemma NewLabelLogs(s: State, u: Id, name: string)
    requires u in s.accounts
    ensures var s1 := CreateLabel(s, u, name, NoId, FolderType).state;
      Logs(s, s1, u, Created(LabelKey(Uuid(s.nextUuid)))) && Uuid(s.nextUuid) in s1.labels && u in s1.accounts
      && s1.maxUpdatesPerEvent == s.maxUpdatesPerEvent
  {
    hide Log, WithLabels, Logs, OnlyLabel, SettingsFollow;
    var id, l := Uuid(s.nextUuid), Label(name, NoId, FolderType);
    CreateLabelIs(s, u, name, NoId, FolderType);
    WithoutNewKey(s.labels, id, l);
    WithLabelsLogs(s, u, id, s.labels[id := l], s.accounts[u].labelIDs + [id], s.nextUuid + 1, Created(LabelKey(id)));
    WithLabelsIs(s, u, s.labels[id := l], s.accounts[u].labelIDs + [id], s.nextUuid + 1, Created(LabelKey(id)));
  }

  lemma DeleteOneLabel(s: State, u: Id, id: Id)
    requires u in s.accounts && id in s.labels
    ensures DeleteLabel(s, u, id, [id]).state == DropLabel(s, u, id)
  {
    assert DropLabels(s, u, [id]) == DropLabels(DropLabel(s, u, id), u, [id][1..]);
  }

  /** With windows of one update, creating and deleting a label between two
      polls makes the next event impossible to build. */
  lemma BoundedWindowBreaks(s: State, u: Id, name: string)
    requires Inv(s) && u in s.accounts && s.accounts[u].updateIDs != [] && s.maxUpdatesPerEvent == 1
    ensures var id, ids := Uuid(s.nextUuid), s.accounts[u].updateIDs;
      var t := DeleteLabel(CreateLabel(s, u, name, NoId, FolderType).state, u, id, [id]).state;
      LogsOk(t) && u in t.accounts && !EventIsSafe(t, u, ids[|ids| - 1])
  {
    hide Inv, EventIsSafe, CreateLabel, DeleteLabel, DropLabel, LogsOk, Logs;
    InvCore(s);
    var id, s1 := Uuid(s.nextUuid), CreateLabel(s, u, name, NoId, FolderType).state;
    NewLabelLogs(s, u, name);
    DeleteOneLabel(s1, u, id);
    DropLabelLogs(s1, u, id);
    CreatedThenDeleted(s, s1, DropLabel(s1, u, id), u, id);
  }
}
