/** Every call keeps the invariant, and logs for each account what changed. */
module Steps {
  import opened Ids
  import opened Updates
  import opened EventLog
  import opened Records
  import opened Attachments
  import opened Operations
  import opened Views
  import opened Invariants

  // ---------------------------------------------------------------------
  // What a change tells an account

  /** What was logged for `w` between the two states. */
  ghost function Delta(s: State, t: State, w: Id): seq<Update>
    requires LogsOk(s) && LogsOk(t) && w in s.accounts && w in t.accounts
    requires LogOf(s, w) <= LogOf(t, w)
  {
    LogOf(t, w)[|LogOf(s, w)|..]
  }

  /** Whatever the log does not mention has the value it had, except for
      objects in `silent`. */
  ghost predicate Tells(s: State, t: State, w: Id, silent: set<Key>) {
    && LogsOk(s) && LogsOk(t) && w in s.accounts && w in t.accounts
    && s.accounts[w].updateIDs <= t.accounts[w].updateIDs && NewIDsAreNew(s, t, w)
    && LogOf(s, w) <= LogOf(t, w)
    && (forall k | k !in silent && !Mentioned(Delta(s, t, w), k) :: ValueOf(t, w, k) == ValueOf(s, w, k))
    && (LastSettings(Delta(s, t, w)).None? ==> t.accounts[w].settings == s.accounts[w].settings)
  }

  /** IDs are not handed out twice. */
  ghost predicate NewIDsAreNew(s: State, t: State, w: Id)
    requires w in s.accounts && w in t.accounts
  {
    && |s.updates| <= |t.updates|
    && forall id | id in t.accounts[w].updateIDs :: id in s.accounts[w].updateIDs || |s.updates| <= id
  }

  lemma LastSettingsConcat(a: seq<Update>, b: seq<Update>)
    ensures LastSettings(a + b) == if LastSettings(b).Some? then LastSettings(b) else LastSettings(a)
    decreases |b|
  {
    if b == [] {
      assert a + b == a;
    } else {
      assert (a + b)[..|a + b| - 1] == a + b[..|b| - 1];
      LastSettingsConcat(a, b[..|b| - 1]);
    }
  }

  /** The objects a later change is silent about are mentioned earlier. */
  lemma TellsComposes(a: State, b: State, c: State, w: Id, silent: set<Key>, later: set<Key>)
    requires Tells(a, b, w, silent) && Tells(b, c, w, later)
    requires forall k :: k in later ==> k in silent || Mentioned(Delta(a, b, w), k)
    ensures Tells(a, c, w, silent)
    ensures forall k :: Mentioned(Delta(a, b, w), k) ==> Mentioned(Delta(a, c, w), k)
  {
    var first, second := Delta(a, b, w), Delta(b, c, w);
    assert Delta(a, c, w) == first + second;
    forall k ensures Mentioned(Delta(a, c, w), k) <==> Mentioned(first, k) || Mentioned(second, k) {
      MentionedConcat(first, second, k);
    }
    LastSettingsConcat(first, second);
  }

  lemma TellsNothing(s: State, w: Id, silent: set<Key>)
    requires LogsOk(s) && w in s.accounts
    ensures Tells(s, s, w, silent)
  {
    assert Delta(s, s, w) == [];
  }

  /** A logged change tells every account everything if only the object of the
      update changed. */
  lemma LoggedTells(s: State, t: State, u: Id, update: Update, w: Id)
    requires LogsOk(s) && Logs(s, t, u, update) && SettingsFollow(s, t, u, update) && w in s.accounts
    requires forall k | !(w == u && Mentions(update, k)) :: ValueOf(t, w, k) == ValueOf(s, w, k)
    ensures Tells(s, t, w, {})
  {
    LogsIsAppend(s, t, u, update);
    var delta := if w == u then [update] else [];
    assert Delta(s, t, w) == delta;
    assert w == u ==> delta[0] == update;
    assert w == u && update.SettingsUpdated? ==> LastSettings(delta) == Some(update.settings);
  }

  lemma QuietTells(s: State, t: State, w: Id, silent: set<Key>)
    requires LogsOk(s) && LogsOk(t) && w in s.accounts && w in t.accounts && t.updates == s.updates
    requires t.accounts[w].updateIDs == s.accounts[w].updateIDs && t.accounts[w].settings == s.accounts[w].settings
    requires forall k | k !in silent :: ValueOf(t, w, k) == ValueOf(s, w, k)
    ensures Tells(s, t, w, silent)
  {
    assert LogOf(t, w) == LogOf(s, w);
    assert Delta(s, t, w) == [];
  }

  /** What every call keeps. */
  ghost predicate Kept(s: State, t: State) {
    && Core(t) && (ThreadsOk(s) ==> ThreadsOk(t))
    && forall w | w in s.accounts && w in t.accounts :: Tells(s, t, w, {})
  }

  lemma KeptIsCore(s: State, t: State)
    requires Kept(s, t)
    ensures Core(t) && (ThreadsOk(s) ==> ThreadsOk(t))
  {}

  lemma KeptComposes(a: State, b: State, c: State)
    requires Kept(a, b) && Kept(b, c) && a.accounts.Keys * c.accounts.Keys <= b.accounts.Keys
    ensures Kept(a, c)
  {
    hide Core, ThreadsOk, Tells;
    forall w | w in a.accounts && w in c.accounts ensures Tells(a, c, w, {}) {
      assert w in a.accounts.Keys * c.accounts.Keys;
      TellsComposes(a, b, c, w, {}, {});
    }
  }

  lemma WithoutNewKey<V>(m: map<Id, V>, id: Id, v: V)
    ensures id !in m ==> m[id := v] - {id} == m - {id} == m
    ensures m[id := v] - {id} == m - {id}
  {}

  /** Only the object the update is about changed. */
  ghost predicate OnlyChanges(s: State, t: State, u: Id, update: Update) {
    && (forall w, k | w in s.accounts && !(w == u && Mentions(update, k)) :: SameView(s, t, w, k))
    && (forall w | w in s.accounts :: AddsOnlyFresh(s, t, w))
    && (forall k | Mentions(update, k) ::
          if update.Deleted? then Live(s, u, k) && !Present(t, u, k)
          else Live(t, u, k) && ((update.Updated? && Live(s, u, k)) || !Old(s, k.id)))
  }

  ghost predicate SameView(s: State, t: State, w: Id, k: Key) {
    (Live(t, w, k) <==> Live(s, w, k)) && ValueOf(t, w, k) == ValueOf(s, w, k)
  }

  lemma UnownedSameView(s: State, t: State, w: Id, k: Key)
    requires !Live(s, w, k) && !Live(t, w, k)
    ensures SameView(s, t, w, k)
  {}

  lemma SameThreads(s: State, t: State)
    requires t.messages == s.messages && t.accounts.Keys == s.accounts.Keys
    requires forall w | w in s.accounts :: t.accounts[w].messageIDs == s.accounts[w].messageIDs
    ensures ThreadsOk(s) ==> ThreadsOk(t)
  {
    forall w, id | ThreadsOk(s) && Live(t, w, MessageKey(id)) ensures MessageParentOwned(t, w, id) {
      assert Live(s, w, MessageKey(id));
      assert MessageParentOwned(s, w, id);
    }
  }

  lemma LoggedKeeps(s: State, t: State, u: Id, update: Update)
    requires Core(s) && Logs(s, t, u, update) && SettingsFollow(s, t, u, update)
    requires StoreOk(t) && s.nextUuid <= t.nextUuid && OnlyChanges(s, t, u, update)
    requires ThreadsOk(s) ==> ThreadsOk(t)
    ensures Kept(s, t)
  {
    hide ThreadsOk;
    LoggedKeepsFrame(s, t, u, update);
    LoggedKeepsCore(s, t, u, update);
    forall w | w in s.accounts ensures Tells(s, t, w, {}) {
      LoggedTells(s, t, u, update, w);
    }
  }

  lemma LoggedKeepsFrame(s: State, t: State, u: Id, update: Update)
    requires u in s.accounts && OnlyChanges(s, t, u, update)
    ensures Reported(s, t, u, update)
    ensures forall w | w in s.accounts && w != u :: KeepsObjects(s, t, w)
    ensures forall w, k | w in s.accounts && !(w == u && Mentions(update, k)) :: ValueOf(t, w, k) == ValueOf(s, w, k)
  {
    assert forall w, k | w in s.accounts && !(w == u && Mentions(update, k)) :: SameView(s, t, w, k);
  }

  // ---------------------------------------------------------------------
  // Updates about no object

  /** Nothing but logs and settings differ. */
  ghost predicate SameObjects(s: State, t: State) {
    && t.messages == s.messages && t.labels == s.labels && t.attachments == s.attachments && t.attData == s.attData
    && t.nextUuid == s.nextUuid && t.accounts.Keys == s.accounts.Keys
    && forall w | w in s.accounts ::
      && t.accounts[w].messageIDs == s.accounts[w].messageIDs && t.accounts[w].labelIDs == s.accounts[w].labelIDs
      && t.accounts[w].addresses == s.accounts[w].addresses
  }

  lemma SameObjectsView(s: State, t: State)
    requires SameObjects(s, t)
    ensures forall w, k :: SameView(s, t, w, k)
    ensures forall w, k :: (Live(t, w, k) <==> Live(s, w, k)) && (Present(t, w, k) <==> Present(s, w, k))
  {}

  lemma SameObjectsStoreOk(s: State, t: State)
    requires SameObjects(s, t) && StoreOk(s)
    ensures StoreOk(t)
  {
    hide SameView, AttachmentsOk;
    SameObjectsView(s, t);
  }

  lemma SameObjectsOnlyChanges(s: State, t: State, u: Id, update: Update)
    requires SameObjects(s, t) && forall k :: !Mentions(update, k)
    ensures OnlyChanges(s, t, u, update)
  {
    SameObjectsView(s, t);
  }

  lemma PlainUpdateKeeps(s: State, t: State, u: Id, update: Update)
    requires Core(s) && Logs(s, t, u, update) && SettingsFollow(s, t, u, update) && SameObjects(s, t)
    requires update.Refreshed? || update.SettingsUpdated? || update.UserInfoUpdated?
    ensures Kept(s, t)
  {
    hide Core, Kept, StoreOk, OnlyChanges, Logs, SettingsFollow, ThreadsOk;
    CoreIsStoreOk(s);
    SameThreads(s, t);
    SameObjectsOnlyChanges(s, t, u, update);
    SameObjectsStoreOk(s, t);
    LoggedKeeps(s, t, u, update);
  }

  lemma CoreIsStoreOk(s: State)
    requires Core(s)
    ensures StoreOk(s)
  {}

  lemma LogLogs(s: State, u: Id, update: Update)
    requires u in s.accounts
    ensures Logs(s, Log(s, u, update), u, update) && SameObjects(s, Log(s, u, update))
    ensures !update.SettingsUpdated? ==> SettingsFollow(s, Log(s, u, update), u, update)
  {}

  lemma LogKeepsLists(s: State, u: Id, update: Update)
    requires u in s.accounts
    ensures var t := Log(s, u, update);
      t.accounts.Keys == s.accounts.Keys && t.accounts[u].labelIDs == s.accounts[u].labelIDs && t.accounts[u].messageIDs == s.accounts[u].messageIDs
  {}

  lemma RefreshMailKeeps(s: State, u: Id)
    requires Core(s) && u in s.accounts
    ensures Kept(s, Log(s, u, Refreshed(RefreshMail)))
  {
    hide Core, Kept, Logs, SettingsFollow, SameObjects, Log;
    LogLogs(s, u, Refreshed(RefreshMail));
    PlainUpdateKeeps(s, Log(s, u, Refreshed(RefreshMail)), u, Refreshed(RefreshMail));
  }

  lemma UserInfoKeeps(s: State, u: Id)
    requires Core(s) && u in s.accounts
    ensures Kept(s, Log(s, u, UserInfoUpdated))
  {
    hide Core, Kept, Logs, SettingsFollow, SameObjects, Log;
    LogLogs(s, u, UserInfoUpdated);
    PlainUpdateKeeps(s, Log(s, u, UserInfoUpdated), u, UserInfoUpdated);
  }

  lemma SetUserSettingsKeeps(s: State, u: Id, settings: Settings)
    requires Core(s)
    ensures Kept(s, SetUserSettings(s, u, settings).state)
  {
    hide Core, Kept;
    if u in s.accounts {
      PlainUpdateKeeps(s, SetUserSettings(s, u, settings).state, u, SettingsUpdated(settings));
    } else {
      NothingKeeps(s);
    }
  }

  lemma NothingKeeps(s: State)
    requires Core(s)
    ensures Kept(s, s)
  {
    forall w | w in s.accounts ensures Tells(s, s, w, {}) {
      TellsNothing(s, w, {});
    }
  }

  lemma RestartKeepsEvents(s: State, t: State, u: Id)
    requires Core(s) && u in s.accounts && LogsOk(t) && OwnedOk(t) && SameObjects(s, t)
    requires LogOf(t, u) == [Refreshed(RefreshAll)] && forall w | w in s.accounts && w != u :: LogOf(t, w) == LogOf(s, w)
    ensures EventsOk(t)
  {
    hide Core;
    SameObjectsView(s, t);
    forall w | w in t.accounts ensures LogAgrees(t, w) {
      if w != u {
        KeptIsFaithful(s, t, w);
      }
    }
  }

  lemma RestartKeepsSettings(s: State, t: State, u: Id)
    requires LogsOk(s) && SettingsOk(s) && u in s.accounts && LogsOk(t) && t.accounts.Keys == s.accounts.Keys
    requires LogOf(t, u) == [Refreshed(RefreshAll)] && forall w | w in s.accounts && w != u :: LogOf(t, w) == LogOf(s, w)
    requires forall w | w in s.accounts :: t.accounts[w].settings == s.accounts[w].settings
    ensures SettingsOk(t)
  {
    forall w | w in t.accounts ensures SettingsAgree(t, w) {
      assert SettingsAgree(s, w);
      assert w == u ==> LastSettings(LogOf(t, w)) == None;
    }
  }

  lemma RestartTells(s: State, t: State, u: Id, w: Id)
    requires LogsOk(s) && LogsOk(t) && SameObjects(s, t) && w in s.accounts && LogOf(t, w) == LogOf(s, w)
    requires t.accounts[w].updateIDs == s.accounts[w].updateIDs && t.accounts[w].settings == s.accounts[w].settings
    requires |s.updates| <= |t.updates|
    ensures Tells(s, t, w, {})
  {
    SameObjectsView(s, t);
    assert forall k :: SameView(s, t, w, k);
    assert Delta(s, t, w) == [];
  }

  /** Restarting the log keeps the invariant, but tells the account nothing:
      it has to fetch everything again. */
  lemma RefreshAllKeeps(s: State, u: Id)
    requires Core(s) && u in s.accounts
    ensures var t := LogAll(s, u, Refreshed(RefreshAll));
      && Core(t) && LogOf(t, u) == [Refreshed(RefreshAll)]
      && (forall k :: SameView(s, t, u, k))
      && forall w | w in s.accounts && w != u :: Tells(s, t, w, {})
  {
    CoreParts(s);
    hide Core, StoreOk, OwnedOk, ObjectsOld, UpdatesOld, EventsOk, SettingsOk, AttachmentsOk, SameView, Tells, LogsOk, LogOf, SameObjects, LogAll;
    var update := Refreshed(RefreshAll);
    var t := LogAll(s, u, update);
    LogAllEffect(s, u, update);
    RestartIsQuiet(s, u);
    RestartKeepsOld(s, u);
    SameObjectsView(s, t);
    SameObjectsStoreOk(s, t);
    StoreOkParts(t);
    RestartKeepsEvents(s, t, u);
    RestartKeepsSettings(s, t, u);
    PartsAreCore(t);
    forall w | w in s.accounts && w != u ensures Tells(s, t, w, {}) {
      RestartTells(s, t, u, w);
    }
  }

  /** A restart changes nothing but the account's log. */
  lemma RestartIsQuiet(s: State, u: Id)
    requires u in s.accounts && LogsOk(s)
    ensures var t := LogAll(s, u, Refreshed(RefreshAll));
      && SameObjects(s, t) && |s.updates| <= |t.updates| && t.accounts.Keys == s.accounts.Keys
      && (forall w | w in s.accounts :: t.accounts[w].settings == s.accounts[w].settings)
      && forall w | w in s.accounts && w != u :: t.accounts[w].updateIDs == s.accounts[w].updateIDs
  {}

  lemma RestartKeepsOld(s: State, u: Id)
    requires u in s.accounts && UpdatesOld(s)
    ensures UpdatesOld(LogAll(s, u, Refreshed(RefreshAll)))
  {}

  lemma CoreParts(s: State)
    requires Core(s)
    ensures LogsOk(s) && UpdatesOld(s) && StoreOk(s) && EventsOk(s) && SettingsOk(s)
  {}

  lemma PartsAreCore(t: State)
    requires LogsOk(t) && UpdatesOld(t) && StoreOk(t) && EventsOk(t) && SettingsOk(t)
    ensures Core(t)
  {}

  lemma StoreOkParts(t: State)
    requires StoreOk(t)
    ensures OwnedOk(t) && ObjectsOld(t) && AttachmentsOk(t.messages, t.attachments, t.attData)
  {}
}
