/** What every call of the backend keeps. */
module Invariants {
  import opened Ids
  import opened Updates
  import opened EventLog
  import opened LabelForest
  import opened Records
  import opened Attachments
  import opened Views
  import opened Operations

  // ---------------------------------------------------------------------
  // Logs

  /** Update IDs are handed out densely; an account's IDs increase, and no two
      accounts share one. */
  ghost predicate LogsOk(s: State) {
    && (forall n: nat :: n in s.updates <==> n < |s.updates|)
    && (forall u | u in s.accounts :: Increasing(s.accounts[u].updateIDs))
    && (forall u, id | u in s.accounts && id in s.accounts[u].updateIDs :: id < |s.updates|)
    && (forall u, w, id | u in s.accounts && w in s.accounts && id in s.accounts[u].updateIDs && id in s.accounts[w].updateIDs :: u == w)
  }

  /** The account's log as updates. */
  ghost function LogOf(s: State, u: Id): seq<Update>
    requires LogsOk(s) && u in s.accounts
  {
    var ids := s.accounts[u].updateIDs;
    seq(|ids|, i requires 0 <= i < |ids| => assert ids[i] in ids; s.updates[ids[i]])
  }

  lemma AppendIncreasing(ids: seq<nat>, n: nat)
    requires Increasing(ids) && forall id | id in ids :: id < n
    ensures Increasing(ids + [n])
  {
    assert forall i | 0 <= i < |ids| :: ids[i] in ids;
  }

  /** From `s` to `t` the backend logged one update for the account `u`. */
  ghost predicate Logs(s: State, t: State, u: Id, update: Update) {
    && u in s.accounts && t.accounts.Keys == s.accounts.Keys
    && t.updates == s.updates[|s.updates| := update]
    && forall w | w in s.accounts ::
      t.accounts[w].updateIDs == s.accounts[w].updateIDs + if w == u then [|s.updates|] else []
  }

  lemma LogsKeepsLogsOk(s: State, t: State, u: Id, update: Update)
    requires LogsOk(s) && Logs(s, t, u, update)
    ensures LogsOk(t)
  {
    var n := |s.updates|;
    assert |t.updates| == n + 1;
    AppendIncreasing(s.accounts[u].updateIDs, n);
    forall w, id | w in s.accounts && id in t.accounts[w].updateIDs
      ensures id in s.accounts[w].updateIDs || (w == u && id == n)
    {}
  }

  lemma LogsIsAppend(s: State, t: State, u: Id, update: Update)
    requires LogsOk(s) && Logs(s, t, u, update)
    ensures LogsOk(t) && forall w | w in s.accounts :: LogOf(t, w) == LogOf(s, w) + if w == u then [update] else []
  {
    LogsKeepsLogsOk(s, t, u, update);
    forall w | w in s.accounts ensures LogOf(t, w) == LogOf(s, w) + if w == u then [update] else [] {
      var ids := s.accounts[w].updateIDs;
      assert forall i | 0 <= i < |ids| :: ids[i] in ids;
    }
  }

  /** A restarted log holds one update. */
  lemma LogAllEffect(s: State, u: Id, update: Update)
    requires LogsOk(s) && u in s.accounts
    ensures var t := LogAll(s, u, update);
      LogsOk(t) && LogOf(t, u) == [update] && forall w | w in s.accounts && w != u :: LogOf(t, w) == LogOf(s, w)
  {
    var t := LogAll(s, u, update);
    RestartKeepsLogsOk(s, t, u, update);
    forall w | w in s.accounts && w != u ensures LogOf(t, w) == LogOf(s, w) {
      SameIdsSameLog(s, t, w);
    }
  }

  lemma SameIdsSameLog(s: State, t: State, w: Id)
    requires LogsOk(s) && LogsOk(t) && w in s.accounts && w in t.accounts
    requires t.accounts[w].updateIDs == s.accounts[w].updateIDs && forall n | n in s.updates :: n in t.updates && t.updates[n] == s.updates[n]
    ensures LogOf(t, w) == LogOf(s, w)
  {
    var ids := s.accounts[w].updateIDs;
    assert forall i | 0 <= i < |ids| :: ids[i] in ids;
  }

  lemma RestartKeepsLogsOk(s: State, t: State, u: Id, update: Update)
    requires LogsOk(s) && u in s.accounts && t.accounts.Keys == s.accounts.Keys && t.updates == s.updates[|s.updates| := update]
    requires forall w | w in s.accounts :: t.accounts[w].updateIDs == if w == u then [|s.updates|] else s.accounts[w].updateIDs
    ensures LogsOk(t)
  {
    assert |t.updates| == |s.updates| + 1;
    forall w, id | w in s.accounts && id in t.accounts[w].updateIDs
      ensures if w == u then id == |s.updates| else id in s.accounts[w].updateIDs
    {}
  }

  // ---------------------------------------------------------------------
  // Objects

  ghost function LiveKeys(s: State, u: Id): iset<Key> { iset k | Live(s, u, k) }

  ghost function PresentKeys(s: State, u: Id): iset<Key> { iset k | Present(s, u, k) }

  /** Listed objects are stored and belong to one account, and labels to at
      least one. */
  ghost predicate OwnedOk(s: State) {
    && (forall u | u in s.accounts :: NoDup(s.accounts[u].messageIDs) && NoDup(s.accounts[u].labelIDs))
    && (forall u, k | Live(s, u, k) :: Present(s, u, k))
    && (forall u, w, k | Live(s, u, k) && Live(s, w, k) && !k.kind.AddressKind? :: u == w)
    && (forall id | id in s.labels :: exists u :: Live(s, u, LabelKey(id)))
  }

  /** Generated before. */
  ghost predicate Old(s: State, id: Id) { id.Uuid? && id.n < s.nextUuid }

  /** The parent, if any, was generated before the message `id`. */
  ghost predicate ParentOld(m: Message, id: Id) { m.parent == NoId || (m.parent.Uuid? && id.Uuid? && m.parent.n < id.n) }

  /** Every identifier in use was generated before. */
  ghost predicate ObjectsOld(s: State) {
    && (forall u | u in s.accounts :: Old(s, u))
    && (forall u, k | Present(s, u, k) :: Old(s, k.id))
    && (forall id | id in s.messages :: Old(s, id))
    && (forall id | id in s.messages :: ParentOld(s.messages[id], id))
    && (forall id | id in s.labels :: Old(s, id))
    && (forall id | id in s.attachments :: Old(s, id))
    && (forall id | id in s.attData :: Old(s, id))
  }

  ghost predicate UpdatesOld(s: State) {
    forall n, k | n in s.updates && Mentions(s.updates[n], k) :: Old(s, k.id)
  }

  /** The account's log agrees with its objects. */
  ghost predicate LogAgrees(s: State, u: Id)
    requires LogsOk(s) && u in s.accounts
  {
    Faithful(LogOf(s, u), LiveKeys(s, u), PresentKeys(s, u))
  }

  ghost predicate EventsOk(s: State)
    requires LogsOk(s)
  {
    forall u {:trigger LogAgrees(s, u)} | u in s.accounts :: LogAgrees(s, u)
  }

  ghost function LastSettings(log: seq<Update>): Option<Settings> {
    if log == [] then None
    else
      var last := log[|log| - 1];
      if last.SettingsUpdated? then Some(last.settings) else LastSettings(log[..|log| - 1])
  }

  /** The last settings the log has are the account's. */
  ghost predicate SettingsAgree(s: State, u: Id)
    requires LogsOk(s) && u in s.accounts
  {
    LastSettings(LogOf(s, u)).Some? ==> LastSettings(LogOf(s, u)).value == s.accounts[u].settings
  }

  ghost predicate SettingsOk(s: State)
    requires LogsOk(s)
  {
    forall u {:trigger SettingsAgree(s, u)} | u in s.accounts :: SettingsAgree(s, u)
  }

  ghost predicate Core(s: State) {
    match s
    case State(_, messages, _, attachments, attData, _, _, _, _) =>
      && LogsOk(s) && OwnedOk(s) && ObjectsOld(s) && UpdatesOld(s)
      && AttachmentsOk(messages, attachments, attData)
      && EventsOk(s) && SettingsOk(s)
  }

  ghost predicate MessageParentOwned(s: State, u: Id, id: Id) {
    id in s.messages && s.messages[id].parent in s.messages ==> Live(s, u, MessageKey(s.messages[id].parent))
  }

  /** A message's parent, while it exists, belongs to the same account. */
  ghost predicate ThreadsOk(s: State) {
    forall u, id {:trigger MessageParentOwned(s, u, id)} | Live(s, u, MessageKey(id)) :: MessageParentOwned(s, u, id)
  }

  ghost predicate LabelParentOwned(s: State, u: Id, id: Id) {
    id in s.labels && s.labels[id].parent != NoId ==> Live(s, u, LabelKey(s.labels[id].parent))
  }

  /** Labels form a forest, and a label's parent belongs to the same account. */
  ghost predicate FamilyOk(s: State) {
    && Forest(s.labels)
    && forall u, id {:trigger LabelParentOwned(s, u, id)} | Live(s, u, LabelKey(id)) :: LabelParentOwned(s, u, id)
  }

  ghost predicate Inv(s: State) { Core(s) && ThreadsOk(s) && FamilyOk(s) }

  lemma CoreIsLogsOk(s: State)
    requires Core(s)
    ensures LogsOk(s)
  {}

  lemma InvCore(s: State)
    requires Inv(s)
    ensures Core(s) && LogsOk(s)
  {}

  lemma InitialInv(enableDedup: bool)
    ensures Inv(NewBackend(enableDedup))
  {
    assert RankOk(map[], map[]);
  }

  // ---------------------------------------------------------------------
  // One change, logged or not

  lemma MentionedIsOld(s: State, u: Id, k: Key)
    requires LogsOk(s) && UpdatesOld(s) && u in s.accounts && Mentioned(LogOf(s, u), k)
    ensures Old(s, k.id)
  {
    var x :| x in LogOf(s, u) && Mentions(x, k);
    var i :| 0 <= i < |LogOf(s, u)| && LogOf(s, u)[i] == x;
    assert s.accounts[u].updateIDs[i] in s.accounts[u].updateIDs;
  }

  lemma DeletedIsMentioned(log: seq<Update>)
    ensures forall k :: Deleted(k) in log ==> Mentioned(log, k)
  {
    forall k | Deleted(k) in log ensures Mentioned(log, k) {
      assert Mentions(Deleted(k), k);
    }
  }

  /** The account keeps its objects, and what newly appears was never used before. */
  ghost predicate KeepsObjects(s: State, t: State, w: Id) {
    && (forall k | Live(s, w, k) :: Live(t, w, k))
    && AddsOnlyFresh(s, t, w)
  }

  ghost predicate AddsOnlyFresh(s: State, t: State, w: Id) {
    forall k | Present(t, w, k) && !Present(s, w, k) :: !Old(s, k.id)
  }

  /** The update says what happens to its object; the account's others stay. */
  ghost predicate Reported(s: State, t: State, u: Id, update: Update) {
    && (forall k | Live(s, u, k) && !Mentions(update, k) :: Live(t, u, k))
    && AddsOnlyFresh(s, t, u)
    && (forall k | Mentions(update, k) ::
          if update.Deleted? then Live(s, u, k) && !Present(t, u, k)
          else Live(t, u, k) && ((update.Updated? && Live(s, u, k)) || !Old(s, k.id)))
  }

  lemma ReportedIsFaithful(s: State, t: State, u: Id, update: Update)
    requires Core(s) && u in s.accounts && OwnedOk(t) && Reported(s, t, u, update)
    ensures Faithful(LogOf(s, u) + [update], LiveKeys(t, u), PresentKeys(t, u))
  {
    var log := LogOf(s, u);
    assert LogAgrees(s, u);
    forall k | Mentioned(log, k) && k in PresentKeys(t, u) ensures k in PresentKeys(s, u) {
      MentionedIsOld(s, u, k);
    }
    DeletedIsMentioned(log);
    forall k | Mentions(update, k) ensures Deleted(k) !in log && (update.Created? ==> !Mentioned(log, k)) {
      if Mentioned(log, k) {
        MentionedIsOld(s, u, k);
      }
    }
    AppendKeepsFaithful(log, update, LiveKeys(s, u), PresentKeys(s, u), LiveKeys(t, u), PresentKeys(t, u));
  }

  lemma KeptIsFaithful(s: State, t: State, w: Id)
    requires Core(s) && w in s.accounts && OwnedOk(t) && w in t.accounts && KeepsObjects(s, t, w)
    ensures Faithful(LogOf(s, w), LiveKeys(t, w), PresentKeys(t, w))
  {
    var log := LogOf(s, w);
    assert LogAgrees(s, w);
    DeletedIsMentioned(log);
    forall k | Mentioned(log, k) ensures Old(s, k.id) {
      MentionedIsOld(s, w, k);
    }
  }

  lemma SettingsAfterLog(log: seq<Update>, update: Update)
    ensures LastSettings(log + [update]) == if update.SettingsUpdated? then Some(update.settings) else LastSettings(log)
  {
    assert (log + [update])[..|log|] == log;
  }

  /** What a logged change has to keep by itself. */
  ghost predicate StoreOk(t: State) {
    match t
    case State(_, messages, _, attachments, attData, _, _, _, _) =>
      OwnedOk(t) && ObjectsOld(t) && AttachmentsOk(messages, attachments, attData)
  }

  lemma LoggedKeepsEvents(s: State, t: State, u: Id, update: Update)
    requires Core(s) && Logs(s, t, u, update) && OwnedOk(t) && LogsOk(t)
    requires Reported(s, t, u, update) && forall w | w in s.accounts && w != u :: KeepsObjects(s, t, w)
    ensures EventsOk(t)
  {
    LogsIsAppend(s, t, u, update);
    forall w | w in t.accounts ensures LogAgrees(t, w) {
      if w == u {
        ReportedIsFaithful(s, t, u, update);
      } else {
        KeptIsFaithful(s, t, w);
        assert LogOf(t, w) == LogOf(s, w);
      }
    }
  }

  ghost predicate SettingsFollow(s: State, t: State, u: Id, update: Update)
    requires Logs(s, t, u, update)
  {
    forall w | w in s.accounts ::
      t.accounts[w].settings == if w == u && update.SettingsUpdated? then update.settings else s.accounts[w].settings
  }

  lemma LoggedKeepsSettings(s: State, t: State, u: Id, update: Update)
    requires LogsOk(s) && SettingsOk(s) && Logs(s, t, u, update) && LogsOk(t) && SettingsFollow(s, t, u, update)
    ensures SettingsOk(t)
  {
    LogsIsAppend(s, t, u, update);
    SettingsAfterLog(LogOf(s, u), update);
    forall w | w in t.accounts ensures SettingsAgree(t, w) {
      assert SettingsAgree(s, w);
      assert w != u ==> LogOf(t, w) == LogOf(s, w);
    }
  }

  lemma LoggedKeepsCore(s: State, t: State, u: Id, update: Update)
    requires Core(s) && Logs(s, t, u, update) && StoreOk(t) && s.nextUuid <= t.nextUuid
    requires Reported(s, t, u, update) && forall w | w in s.accounts && w != u :: KeepsObjects(s, t, w)
    requires SettingsFollow(s, t, u, update)
    ensures Core(t)
  {
    LoggedKeepsUpdatesOld(s, t, u, update);
    LogsKeepsLogsOk(s, t, u, update);
    hide LogsOk, OwnedOk, ObjectsOld, UpdatesOld, EventsOk, SettingsOk, AttachmentsOk, Logs, Reported, SettingsFollow;
    LoggedKeepsEvents(s, t, u, update);
    LoggedKeepsSettings(s, t, u, update);
  }

  lemma LoggedKeepsUpdatesOld(s: State, t: State, u: Id, update: Update)
    requires Core(s) && Logs(s, t, u, update) && StoreOk(t) && s.nextUuid <= t.nextUuid && Reported(s, t, u, update)
    ensures UpdatesOld(t)
  {
    hide EventsOk, SettingsOk, AttachmentsOk;
    forall n, k | n in t.updates && Mentions(t.updates[n], k) ensures Old(t, k.id) {
      if n == |s.updates| {
        assert if update.Deleted? then Present(s, u, k) else Present(t, u, k);
      } else {
        assert Old(s, k.id);
      }
    }
  }

  lemma QuietKeepsCore(s: State, t: State)
    requires Core(s) && StoreOk(t) && s.nextUuid <= t.nextUuid
    requires t.updates == s.updates && t.accounts.Keys <= s.accounts.Keys
    requires forall w | w in t.accounts ::
      KeepsObjects(s, t, w) && t.accounts[w].updateIDs == s.accounts[w].updateIDs && t.accounts[w].settings == s.accounts[w].settings
    ensures Core(t)
  {
    forall w | w in t.accounts ensures LogOf(t, w) == LogOf(s, w) {}
    forall w | w in t.accounts ensures LogAgrees(t, w) {
      KeptIsFaithful(s, t, w);
    }
    forall w | w in t.accounts ensures SettingsAgree(t, w) {
      assert SettingsAgree(s, w);
    }
  }
}
