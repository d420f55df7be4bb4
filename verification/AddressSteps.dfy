/** The calls about addresses keep the invariant, and log what changed. */
module AddressSteps {
  import opened Ids
  import opened Updates
  import opened Records
  import opened Attachments
  import opened Operations
  import opened Views
  import opened Invariants
  import opened Steps

  /** Everything but logs, settings and the address `id` of `u` is the same. */
  ghost predicate OnlyAddress(s: State, t: State, u: Id, id: Id) {
    && t.messages == s.messages && t.labels == s.labels && t.attachments == s.attachments && t.attData == s.attData
    && s.nextUuid <= t.nextUuid && t.accounts.Keys == s.accounts.Keys
    && forall w | w in s.accounts ::
      && t.accounts[w].messageIDs == s.accounts[w].messageIDs && t.accounts[w].labelIDs == s.accounts[w].labelIDs
      && (w != u ==> t.accounts[w].addresses == s.accounts[w].addresses)
      && (w == u ==> t.accounts[w].addresses - {id} == s.accounts[w].addresses - {id})
  }

  /** What an update about `id` says is so. */
  ghost predicate AddressMatches(s: State, t: State, u: Id, id: Id, update: Update)
    requires u in s.accounts && u in t.accounts
  {
    Mentions(update, AddressKey(id)) &&
    if update.Deleted? then id in s.accounts[u].addresses && id !in t.accounts[u].addresses
    else id in t.accounts[u].addresses && Old(t, id) && ((update.Updated? && id in s.accounts[u].addresses) || !Old(s, id))
  }

  lemma AddressView(s: State, t: State, u: Id, id: Id)
    requires OnlyAddress(s, t, u, id) && u in s.accounts
    ensures forall w, k :: !(w == u && k == AddressKey(id)) ==>
      (Live(t, w, k) <==> Live(s, w, k)) && (Present(t, w, k) <==> Present(s, w, k)) && SameView(s, t, w, k)
  {
    var before, after := s.accounts[u].addresses, t.accounts[u].addresses;
    assert forall a | a != id :: (a in before <==> a in before - {id}) && (a in after <==> a in after - {id});
    forall a | a != id && a in before ensures after[a] == before[a] {
      assert (before - {id})[a] == (after - {id})[a];
    }
  }

  lemma AddressOwnedOk(s: State, t: State, u: Id, id: Id, update: Update)
    requires OwnedOk(s) && u in s.accounts && OnlyAddress(s, t, u, id) && AddressMatches(s, t, u, id, update)
    ensures OwnedOk(t)
  {
    AddressView(s, t, u, id);
    hide SameView;
    assert forall w :: Live(t, w, AddressKey(id)) ==> Present(t, w, AddressKey(id));
    forall l | l in t.labels ensures exists w :: Live(t, w, LabelKey(l)) {
      var w :| Live(s, w, LabelKey(l));
      assert Live(t, w, LabelKey(l));
    }
  }

  lemma AddressObjectsOld(s: State, t: State, u: Id, id: Id, update: Update)
    requires ObjectsOld(s) && u in s.accounts && OnlyAddress(s, t, u, id) && AddressMatches(s, t, u, id, update)
    ensures ObjectsOld(t)
  {
    AddressView(s, t, u, id);
    hide SameView;
  }

  lemma AddressStoreOk(s: State, t: State, u: Id, id: Id, update: Update)
    requires StoreOk(s) && u in s.accounts && OnlyAddress(s, t, u, id) && AddressMatches(s, t, u, id, update)
    ensures StoreOk(t)
  {
    hide AttachmentsOk, OwnedOk, ObjectsOld, AddressMatches;
    AddressOwnedOk(s, t, u, id, update);
    AddressObjectsOld(s, t, u, id, update);
  }

  lemma AddressOnlyChanges(s: State, t: State, u: Id, id: Id, update: Update)
    requires u in s.accounts && OnlyAddress(s, t, u, id) && AddressMatches(s, t, u, id, update)
    ensures OnlyChanges(s, t, u, update)
  {
    AddressView(s, t, u, id);
    hide SameView;
  }

  lemma AddressUpdateKeeps(s: State, t: State, u: Id, id: Id, update: Update)
    requires Core(s) && Logs(s, t, u, update) && SettingsFollow(s, t, u, update)
    requires OnlyAddress(s, t, u, id) && AddressMatches(s, t, u, id, update)
    ensures Kept(s, t)
  {
    CoreIsStoreOk(s);
    hide Core, Kept, StoreOk, SettingsFollow, OnlyChanges, ThreadsOk;
    SameThreads(s, t);
    AddressStoreOk(s, t, u, id, update);
    AddressOnlyChanges(s, t, u, id, update);
    LoggedKeeps(s, t, u, update);
  }

  /** Replacing the account's addresses by ones that differ at `id` only. */
  function WithAddresses(s: State, u: Id, addresses: map<Id, Address>, nextUuid: nat): State
    requires u in s.accounts
  {
    WithAccount(s, u, s.accounts[u].(addresses := addresses)).(nextUuid := nextUuid)
  }

  lemma WithAddressesLogs(s: State, u: Id, id: Id, addresses: map<Id, Address>, n: nat, update: Update)
    requires u in s.accounts && addresses - {id} == s.accounts[u].addresses - {id} && s.nextUuid <= n
    requires !update.SettingsUpdated?
    ensures var t := Log(WithAddresses(s, u, addresses, n), u, update);
      Logs(s, t, u, update) && SettingsFollow(s, t, u, update) && OnlyAddress(s, t, u, id)
  {}

  lemma AddressChangeKeeps(s: State, u: Id, id: Id, addresses: map<Id, Address>, n: nat, update: Update)
    requires Core(s) && u in s.accounts && addresses - {id} == s.accounts[u].addresses - {id} && s.nextUuid <= n
    requires Mentions(update, AddressKey(id))
    requires if update.Deleted? then id in s.accounts[u].addresses && id !in addresses
             else id in addresses && id.Uuid? && id.n < n && ((update.Updated? && id in s.accounts[u].addresses) || !Old(s, id))
    ensures Kept(s, Log(WithAddresses(s, u, addresses, n), u, update))
  {
    hide Core, Kept, Logs, SettingsFollow, OnlyAddress;
    WithAddressesLogs(s, u, id, addresses, n, update);
    AddressUpdateKeeps(s, Log(WithAddresses(s, u, addresses, n), u, update), u, id, update);
  }

  lemma OwnAddressIsOld(s: State, u: Id, id: Id)
    requires Core(s) && u in s.accounts && id in s.accounts[u].addresses
    ensures Old(s, id)
  {
    assert Present(s, u, AddressKey(id));
  }

  lemma NewIdIsNoAddress(s: State, u: Id)
    requires Core(s) && u in s.accounts
    ensures Uuid(s.nextUuid) !in s.accounts[u].addresses
  {
    assert Present(s, u, AddressKey(Uuid(s.nextUuid))) ==> Old(s, Uuid(s.nextUuid));
  }

  lemma NewAddressKeeps(s: State, u: Id, address: Address, update: Update)
    requires Core(s) && u in s.accounts
    requires update == Created(AddressKey(Uuid(s.nextUuid))) || update == Updated(AddressKey(Uuid(s.nextUuid)))
    ensures Kept(s, Log(WithAddress(s, u, Uuid(s.nextUuid), address).(nextUuid := s.nextUuid + 1), u, update))
  {
    hide Core, Kept, Log;
    var id := Uuid(s.nextUuid);
    NewIdIsNoAddress(s, u);
    WithoutNewKey(s.accounts[u].addresses, id, address);
    AddressChangeKeeps(s, u, id, s.accounts[u].addresses[id := address], s.nextUuid + 1, update);
  }

  lemma CreateAddressKeeps(s: State, u: Id, email: string, enabled: bool, asUpdate: bool, keyOk: bool)
    requires Core(s)
    ensures Kept(s, CreateAddress(s, u, email, enabled, asUpdate, keyOk).state)
  {
    hide Core, Kept, Log;
    if u in s.accounts && keyOk {
      var id := Uuid(s.nextUuid);
      NewAddressKeeps(s, u, Address(email, |s.accounts[u].addresses| + 1, enabled),
                      if asUpdate then Updated(AddressKey(id)) else Created(AddressKey(id)));
    } else {
      NothingKeeps(s);
    }
  }

  /** Changing a field of an address of the account. */
  lemma ChangeAddressKeeps(s: State, u: Id, id: Id, address: Address)
    requires Core(s) && u in s.accounts && id in s.accounts[u].addresses
    ensures Kept(s, Log(WithAddress(s, u, id, address), u, Updated(AddressKey(id))))
  {
    OwnAddressIsOld(s, u, id);
    hide Core, Kept;
    var addresses := s.accounts[u].addresses[id := address];
    AddressChangeKeeps(s, u, id, addresses, s.nextUuid, Updated(AddressKey(id)));
    assert WithAddresses(s, u, addresses, s.nextUuid) == WithAddress(s, u, id, address);
  }

  lemma DropAddressKeeps(s: State, u: Id, id: Id)
    requires Core(s) && u in s.accounts && id in s.accounts[u].addresses
    ensures Kept(s, DropAddress(s, u, id))
  {
    hide Core, Kept;
    var addresses := s.accounts[u].addresses - {id};
    AddressChangeKeeps(s, u, id, addresses, s.nextUuid, Deleted(AddressKey(id)));
    assert DropAddress(s, u, id) == Log(WithAddresses(s, u, addresses, s.nextUuid), u, Deleted(AddressKey(id)));
  }

  lemma SetAddressStatusKeeps(s: State, u: Id, id: Id, enabled: bool)
    requires Core(s) && (u in s.accounts ==> id in s.accounts[u].addresses)
    ensures Kept(s, SetAddressStatus(s, u, id, enabled).state)
  {
    hide Core, Kept, Log;
    if u in s.accounts {
      ChangeAddressKeeps(s, u, id, s.accounts[u].addresses[id].(enabled := enabled));
    } else {
      NothingKeeps(s);
    }
  }

  lemma RemoveAddressKeeps(s: State, u: Id, id: Id)
    requires Core(s)
    ensures Kept(s, RemoveAddress(s, u, id).state)
    ensures (u in s.accounts ==> id in s.accounts[u].addresses) ==> Kept(s, DeleteAddress(s, u, id).state)
  {
    hide Core, Kept, DropAddress;
    if u in s.accounts && id in s.accounts[u].addresses {
      DropAddressKeeps(s, u, id);
    }
    NothingKeeps(s);
  }

  lemma {:induction false} ReorderKeeps(s: State, u: Id, ids: seq<Id>, i: nat)
    requires Core(s) && u in s.accounts && i <= |ids|
    ensures Kept(s, Reorder(s, u, ids, i).state)
    decreases |ids| - i
  {
    hide Core, Kept;
    NothingKeeps(s);
    if i < |ids| && ids[i] in s.accounts[u].addresses {
      var address := s.accounts[u].addresses[ids[i]];
      ReorderOneKeeps(s, u, ids[i], i + 1);
      var t := WithOrder(s, u, ids[i], i + 1);
      KeptIsCore(s, t);
      ReorderKeeps(t, u, ids, i + 1);
      KeptComposes(s, t, Reorder(t, u, ids, i + 1).state);
    }
  }

  /** Logging before or after changing an address is the same. */
  lemma LogCommutes(s: State, u: Id, id: Id, address: Address, update: Update)
    requires u in s.accounts
    ensures WithAddress(Log(s, u, update), u, id, address) == Log(WithAddress(s, u, id, address), u, update)
  {
    var t, t' := WithAddress(Log(s, u, update), u, id, address), Log(WithAddress(s, u, id, address), u, update);
    assert t.accounts[u] == t'.accounts[u];
    assert t.accounts == t'.accounts;
  }

  lemma SameAddress(s: State, u: Id, id: Id)
    requires u in s.accounts && id in s.accounts[u].addresses
    ensures WithAddress(s, u, id, s.accounts[u].addresses[id]) == s
  {
    var addresses := s.accounts[u].addresses;
    assert addresses[id := addresses[id]] == addresses;
    assert s.accounts[u := s.accounts[u]] == s.accounts;
  }

  lemma ReorderOneKeeps(s: State, u: Id, id: Id, order: int)
    requires Core(s) && u in s.accounts && id in s.accounts[u].addresses
    ensures Kept(s, WithOrder(s, u, id, order))
  {
    hide Core, Kept;
    var address := s.accounts[u].addresses[id];
    if address.order != order {
      ChangeAddressKeeps(s, u, id, address.(order := order));
      LogCommutes(s, u, id, address.(order := order), Updated(AddressKey(id)));
    } else {
      SameAddress(s, u, id);
      NothingKeeps(s);
    }
  }

  lemma SetAddressOrderKeeps(s: State, u: Id, ids: seq<Id>, before: Id, after: Id)
    requires Core(s)
    ensures Kept(s, SetAddressOrder(s, u, ids, before, after).state)
  {
    hide Core, Kept, Log, Reorder;
    if u in s.accounts {
      ReorderKeeps(s, u, ids, 0);
      var r := Reorder(s, u, ids, 0);
      KeptIsCore(s, r.state);
      UserInfoKeeps(r.state, u);
      KeptComposes(s, r.state, Log(r.state, u, UserInfoUpdated));
    } else {
      NothingKeeps(s);
    }
  }
}
