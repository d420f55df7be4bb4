/** Putting an account's addresses in order: the checks of the handler
    (server/addresses.go) and what SetAddressOrder then does
    (server/backend/api.go). */
module AddressOrder {
  import opened Ids
  import opened Updates
  import opened Records
  import opened Operations
  import opened Invariants
  import opened Steps

  /** The request names every address once, and nothing else. */
  ghost predicate IsOrderOf(ids: seq<Id>, addresses: map<Id, Address>) {
    NoDup(ids) && forall id :: id in ids <==> id in addresses
  }

  lemma {:induction false} ElementsBound(ids: seq<Id>)
    ensures |Elements(ids)| <= |ids|
    ensures |Elements(ids)| == |ids| <==> NoDup(ids)
  {
    if ids != [] {
      ElementsBound(ids[1..]);
      NoDupStep(ids);
      assert Elements(ids) == Elements(ids[1..]) + {ids[0]};
    }
  }

  lemma NoDupStep(ids: seq<Id>)
    requires ids != []
    ensures NoDup(ids) <==> ids[0] !in ids[1..] && NoDup(ids[1..])
  {
    var rest := ids[1..];
    if NoDup(ids) {
      assert forall j | 0 <= j < |rest| :: rest[j] == ids[j + 1];
    }
    forall i, j | ids[0] !in rest && NoDup(rest) && 0 <= i < j < |ids| ensures ids[i] != ids[j] {
      assert ids[j] == rest[j - 1];
      if i > 0 { assert ids[i] == rest[i - 1]; }
    }
  }

  lemma SubsetOfSameSize(small: set<Id>, large: set<Id>)
    requires small <= large && |large| <= |small|
    ensures small == large
  {
    assert large == small + (large - small);
  }

  /** Equal length and containment force the request to be a permutation. */
  lemma Pigeonhole(ids: seq<Id>, addresses: map<Id, Address>)
    ensures |ids| == |addresses| && (forall id :: id in addresses ==> id in ids) <==> IsOrderOf(ids, addresses)
  {
    ElementsBound(ids);
    assert |addresses| == |addresses.Keys|;
    if |ids| == |addresses| && forall id :: id in addresses ==> id in ids {
      SubsetOfSameSize(addresses.Keys, Elements(ids));
      assert forall id :: id in ids <==> id in Elements(ids);
    }
    if IsOrderOf(ids, addresses) {
      assert Elements(ids) == addresses.Keys;
    }
  }

  /** The handler's checks, looking at the addresses in any order. */
  method CheckOrder(ids: seq<Id>, addresses: map<Id, Address>) returns (ok: bool)
    ensures ok <==> IsOrderOf(ids, addresses)
  {
    Pigeonhole(ids, addresses);
    if |ids| != |addresses| {
      return false;
    }
    var todo := addresses.Keys;
    while todo != {}
      invariant todo <= addresses.Keys
      invariant forall id :: id in addresses && id !in todo ==> id in ids
      decreases todo
    {
      var id :| id in todo;
      if id !in ids {
        return false;
      }
      todo := todo - {id};
    }
    return true;
  }

  // ---------------------------------------------------------------------
  // The effect

  /** Updates for the addresses whose order changes, in request order. */
  function Changed(addresses: map<Id, Address>, ids: seq<Id>, i: nat): seq<Update>
    requires i <= |ids| && forall id :: id in ids ==> id in addresses
    decreases |ids| - i
  {
    if i == |ids| then []
    else
      assert ids[i] in ids;
      (if addresses[ids[i]].order != i + 1 then [Updated(AddressKey(ids[i]))] else []) + Changed(addresses, ids, i + 1)
  }

  /** The addresses from position `i` on are numbered in request order; all
      else about addresses is as it was. */
  ghost predicate Numbered(before: map<Id, Address>, after: map<Id, Address>, ids: seq<Id>, i: nat) {
    && after.Keys == before.Keys
    && (forall j | i <= j < |ids| && ids[j] in before :: after[ids[j]] == before[ids[j]].(order := j + 1))
    && (forall id | id in before && forall j | i <= j < |ids| :: ids[j] != id :: after[id] == before[id])
  }

  lemma {:induction false} ChangedSame(before: map<Id, Address>, after: map<Id, Address>, ids: seq<Id>, i: nat)
    requires i <= |ids| && forall id :: id in ids ==> id in before && id in after
    requires forall j | i <= j < |ids| :: after[ids[j]] == before[ids[j]]
    ensures Changed(before, ids, i) == Changed(after, ids, i)
    decreases |ids| - i
  {
    if i < |ids| {
      ChangedSame(before, after, ids, i + 1);
    }
  }

  lemma WithAddressLogs(s: State, u: Id, id: Id, address: Address)
    requires LogsOk(s) && u in s.accounts
    ensures var t := WithAddress(s, u, id, address);
      && LogsOk(t) && t.accounts.Keys == s.accounts.Keys && LogOf(t, u) == LogOf(s, u)
      && t.accounts[u].addresses == s.accounts[u].addresses[id := address]
  {
    var t := WithAddress(s, u, id, address);
    assert forall w | w in s.accounts :: t.accounts[w].updateIDs == s.accounts[w].updateIDs;
  }

  /** One round of the loop. */
  lemma RoundEffect(s: State, u: Id, id: Id, order: int)
    requires LogsOk(s) && u in s.accounts && id in s.accounts[u].addresses
    ensures var t := WithOrder(s, u, id, order);
      var address := s.accounts[u].addresses[id];
      && LogsOk(t) && LogOf(t, u) == LogOf(s, u) + (if address.order != order then [Updated(AddressKey(id))] else [])
      && t.accounts[u].addresses == s.accounts[u].addresses[id := address.(order := order)]
  {
    hide LogsOk, LogOf, Log, WithAddress, Logs, SameObjects;
    var address := s.accounts[u].addresses[id];
    if address.order != order {
      var t := Log(s, u, Updated(AddressKey(id)));
      LoggedRound(s, u, Updated(AddressKey(id)));
      WithAddressLogs(t, u, id, address.(order := order));
    } else {
      assert LogOf(s, u) + [] == LogOf(s, u);
      WithAddressLogs(s, u, id, address);
      assert address.(order := order) == address;
    }
  }

  lemma LoggedRound(s: State, u: Id, update: Update)
    requires LogsOk(s) && u in s.accounts
    ensures var t := Log(s, u, update);
      && LogsOk(t) && u in t.accounts && LogOf(t, u) == LogOf(s, u) + [update]
      && t.accounts[u].addresses == s.accounts[u].addresses
  {
    hide LogsOk, LogOf;
    LogLogs(s, u, update);
    LogsIsAppend(s, Log(s, u, update), u, update);
  }

  /** The loop numbers the addresses in request order. */
  lemma {:induction false} ReorderNumbers(s: State, u: Id, ids: seq<Id>, i: nat)
    requires LogsOk(s) && u in s.accounts && i <= |ids| && NoDup(ids) && forall id :: id in ids ==> id in s.accounts[u].addresses
    ensures var r := Reorder(s, u, ids, i);
      r.ok && LogsOk(r.state) && Numbered(s.accounts[u].addresses, r.state.accounts[u].addresses, ids, i)
    decreases |ids| - i
  {
    hide LogsOk, LogOf, WithOrder, Numbered;
    var before := s.accounts[u].addresses;
    if i == |ids| {
      NumberedNone(before, ids, i);
    } else {
      hide Reorder;
      assert ids[i] in ids;
      RoundEffect(s, u, ids[i], i + 1);
      WithOrderIsRound(s, u, ids, i);
      ReorderNumbers(WithOrder(s, u, ids[i], i + 1), u, ids, i + 1);
      NumberedStep(before, Reorder(s, u, ids, i).state.accounts[u].addresses, ids, i);
    }
  }

  lemma NumberedNone(addresses: map<Id, Address>, ids: seq<Id>, i: nat)
    requires i == |ids|
    ensures Numbered(addresses, addresses, ids, i)
  {}

  /** It logs an update for exactly the addresses whose order changes, in request order. */
  lemma {:induction false} ReorderLogs(s: State, u: Id, ids: seq<Id>, i: nat)
    requires LogsOk(s) && u in s.accounts && i <= |ids| && NoDup(ids) && forall id :: id in ids ==> id in s.accounts[u].addresses
    ensures var r := Reorder(s, u, ids, i);
      LogsOk(r.state) && LogOf(r.state, u) == LogOf(s, u) + Changed(s.accounts[u].addresses, ids, i)
    decreases |ids| - i
  {
    if i == |ids| {
      assert LogOf(s, u) + [] == LogOf(s, u);
    } else {
      hide *;
      var t := WithOrder(s, u, ids[i], i + 1);
      var address := s.accounts[u].addresses[ids[i]];
      assert ids[i] in ids;
      RoundEffect(s, u, ids[i], i + 1);
      WithOrderIsRound(s, u, ids, i);
      ChangedStep(s.accounts[u].addresses, t.accounts[u].addresses, ids, i);
      ReorderLogs(t, u, ids, i + 1);
      AppendTwice(LogOf(s, u), if address.order != i + 1 then [Updated(AddressKey(ids[i]))] else [],
                  Changed(t.accounts[u].addresses, ids, i + 1));
    }
  }

  lemma ChangedStep(before: map<Id, Address>, after: map<Id, Address>, ids: seq<Id>, i: nat)
    requires i < |ids| && NoDup(ids) && forall id :: id in ids ==> id in before && id in after
    requires after == before[ids[i] := after[ids[i]]]
    ensures Changed(before, ids, i)
         == (if before[ids[i]].order != i + 1 then [Updated(AddressKey(ids[i]))] else []) + Changed(after, ids, i + 1)
  {
    ChangedSame(before, after, ids, i + 1);
  }

  lemma WithOrderIsRound(s: State, u: Id, ids: seq<Id>, i: nat)
    requires u in s.accounts && i < |ids| && ids[i] in s.accounts[u].addresses
    ensures Reorder(s, u, ids, i) == Reorder(WithOrder(s, u, ids[i], i + 1), u, ids, i + 1)
  {}

  lemma NumberedStep(before: map<Id, Address>, after: map<Id, Address>, ids: seq<Id>, i: nat)
    requires i < |ids| && NoDup(ids) && ids[i] in before
    requires Numbered(before[ids[i] := before[ids[i]].(order := i + 1)], after, ids, i + 1)
    ensures Numbered(before, after, ids, i)
  {}

  /** The primary address afterwards is the first of the request, and only it. */
  lemma PrimaryIsFirst(before: map<Id, Address>, acc: Account, ids: seq<Id>, id: Id)
    requires IsOrderOf(ids, before) && Numbered(before, acc.addresses, ids, 0)
    ensures IsPrimary(acc, id) <==> ids != [] && id == ids[0]
  {
    if ids != [] && id == ids[0] {
      assert ids[0] in ids;
    }
    if id in acc.addresses {
      var j :| 0 <= j < |ids| && ids[j] == id;
    }
  }

  /** After a request that passed the checks the orders are exactly 1 to n in
      request order; an update is logged for exactly the addresses whose order
      changed, then one about the user exactly if the primary address changed. */
  lemma OrderingIsABijection(s: State, u: Id, ids: seq<Id>, before: Id, after: Id)
    requires Core(s) && u in s.accounts && IsOrderOf(ids, s.accounts[u].addresses) && IsPrimary(s.accounts[u], before)
    requires u in Reorder(s, u, ids, 0).state.accounts && IsPrimary(Reorder(s, u, ids, 0).state.accounts[u], after)
    ensures var r := SetAddressOrder(s, u, ids, before, after);
      && r.ok && LogsOk(r.state) && u in r.state.accounts && after == ids[0]
      && r.state.accounts[u].addresses.Keys == s.accounts[u].addresses.Keys
      && (forall j | 0 <= j < |ids| :: ids[j] in s.accounts[u].addresses
            && r.state.accounts[u].addresses[ids[j]] == s.accounts[u].addresses[ids[j]].(order := j + 1))
      && LogOf(r.state, u) == LogOf(s, u) + Changed(s.accounts[u].addresses, ids, 0) + if before != ids[0] then [UserInfoUpdated] else []
  {
    hide Core, LogsOk, LogOf, Reorder, Log, IsPrimary, Changed;
    CoreIsLogsOk(s);
    ReorderNumbers(s, u, ids, 0);
    ReorderLogs(s, u, ids, 0);
    var r := Reorder(s, u, ids, 0);
    var addresses := s.accounts[u].addresses;
    PrimaryIsFirst(addresses, r.state.accounts[u], ids, after);
    assert forall j | 0 <= j < |ids| :: ids[j] in ids;
    if before != after {
      LoggedRound(r.state, u, UserInfoUpdated);
    } else {
      assert LogOf(r.state, u) + [] == LogOf(r.state, u);
    }
  }
}
