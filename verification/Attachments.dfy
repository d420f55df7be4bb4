/** Attachment data shared between messages and freed with its last user, and
    the order attachments are kept in (server/backend/api.go). */
module Attachments {
  import opened Ids
  import opened Lexical
  import opened Records

  // ---------------------------------------------------------------------
  // Freeing

  /** The attachments that use one piece of data. */
  function Users(atts: map<Id, Attachment>, dataID: Id): set<Id> {
    set a | a in atts && atts[a].dataID == dataID
  }

  /** Data is stored exactly for the live attachments. */
  ghost predicate DataExact(atts: map<Id, Attachment>, data: map<Id, string>) {
    && (forall a | a in atts :: atts[a].dataID in data)
    && (forall d | d in data :: HasUser(atts, d))
  }

  ghost predicate HasUser(atts: map<Id, Attachment>, dataID: Id) {
    exists a :: a in atts && atts[a].dataID == dataID
  }

  /** Deletes one attachment, and its data if nobody else uses it. */
  function Free(atts: map<Id, Attachment>, data: map<Id, string>, a: Id): (map<Id, Attachment>, map<Id, string>)
    requires a in atts
  {
    (atts - {a}, if |Users(atts, atts[a].dataID)| == 1 then data - {atts[a].dataID} else data)
  }

  function FreeAll(atts: map<Id, Attachment>, data: map<Id, string>, ids: seq<Id>): (map<Id, Attachment>, map<Id, string>)
    requires NoDup(ids) && forall a :: a in ids ==> a in atts
  {
    if ids == [] then (atts, data)
    else
      assert ids[0] !in ids[1..];
      var (atts', data') := Free(atts, data, ids[0]);
      FreeAll(atts', data', ids[1..])
  }

  lemma OtherMember(s: set<Id>, a: Id) returns (b: Id)
    requires a in s && |s| != 1
    ensures b in s && b != a
  {
    assert s != {a};
    b :| b in s && b != a;
  }

  lemma FreeIsExact(atts: map<Id, Attachment>, data: map<Id, string>, a: Id)
    requires DataExact(atts, data) && a in atts
    ensures var (atts', data') := Free(atts, data, a);
      DataExact(atts', data') && data'.Keys <= data.Keys && forall d :: d in data' ==> data'[d] == data[d]
  {
    var (atts', data') := Free(atts, data, a);
    var mine := atts[a].dataID;
    var users := Users(atts, mine);
    assert a in users;
    if |users| == 1 {
      assert users == {a} by {
        assert |users - {a}| == 0;
      }
      assert forall b :: b in atts' ==> b !in users;
    } else {
      var b := OtherMember(users, a);
      assert b in atts' && atts'[b].dataID == mine;
    }
    forall d | d in data' && d != mine ensures HasUser(atts', d) {
      assert HasUser(atts, d);
      var b :| b in atts && atts[b].dataID == d;
      assert b in atts' && atts'[b].dataID == d;
    }
  }

  lemma {:induction false} FreeAllIsExact(atts: map<Id, Attachment>, data: map<Id, string>, ids: seq<Id>)
    requires DataExact(atts, data) && NoDup(ids) && forall a :: a in ids ==> a in atts
    ensures var (atts', data') := FreeAll(atts, data, ids);
      && (forall a :: a in atts' <==> a in atts && a !in ids) && (forall a :: a in atts' ==> atts'[a] == atts[a])
      && DataExact(atts', data') && data'.Keys <= data.Keys && forall d :: d in data' ==> data'[d] == data[d]
  {
    if ids != [] {
      assert ids[0] !in ids[1..];
      FreeIsExact(atts, data, ids[0]);
      var (atts', data') := Free(atts, data, ids[0]);
      FreeAllIsExact(atts', data', ids[1..]);
    }
  }

  // ---------------------------------------------------------------------
  // sortAttachment

  /** What an attachment is sorted and deduplicated by: its content ID, or its
      file name when it has none. */
  datatype SortKey = ByContent(contentID: string) | ByName(filename: string)

  function KeyOf(att: Attachment): SortKey {
    if att.contentID != "" then ByContent(att.contentID) else ByName(att.filename)
  }

  /** One of the two maps of sortAttachment, by content ID or by file name; a
      later attachment replaces an earlier one. */
  function LastBy(atts: map<Id, Attachment>, ids: seq<Id>, content: bool): (m: map<string, Id>)
    requires forall a :: a in ids ==> a in atts
    ensures forall c :: c in m ==> m[c] in ids && KeyOf(atts[m[c]]) == MakeKey(content, c)
    ensures forall a :: a in ids && KeyOf(atts[a]).ByContent? == content ==> KeyText(KeyOf(atts[a])) in m
  {
    if ids == [] then map[]
    else
      var n := |ids| - 1;
      var m := LastBy(atts, ids[..n], content);
      var key := KeyOf(atts[ids[n]]);
      if key.ByContent? == content then m[KeyText(key) := ids[n]] else m
  }

  function MakeKey(content: bool, text: string): SortKey { if content then ByContent(text) else ByName(text) }

  function KeyText(k: SortKey): string { if k.ByContent? then k.contentID else k.filename }

  function Read(keys: seq<string>, m: map<string, Id>): (r: seq<Id>)
    requires forall k :: k in keys ==> k in m
    ensures |r| == |keys| && forall i | 0 <= i < |keys| :: r[i] == m[keys[i]]
  {
    if keys == [] then [] else [m[keys[0]]] + Read(keys[1..], m)
  }

  ghost function SortHalf(atts: map<Id, Attachment>, ids: seq<Id>, content: bool): seq<Id>
    requires forall a :: a in ids ==> a in atts
  {
    var m := LastBy(atts, ids, content);
    Read(Sorted(m.Keys), m)
  }

  ghost function SortAttachments(atts: map<Id, Attachment>, ids: seq<Id>): (r: seq<Id>)
    requires forall a :: a in ids ==> a in atts
  {
    SortHalf(atts, ids, true) + SortHalf(atts, ids, false)
  }

  method SortOneHalf(atts: map<Id, Attachment>, ids: seq<Id>, content: bool) returns (sorted: seq<Id>)
    requires forall a :: a in ids ==> a in atts
    ensures sorted == SortHalf(atts, ids, content)
  {
    var last: map<string, Id> := map[];
    for k := 0 to |ids|
      invariant last == LastBy(atts, ids[..k], content)
    {
      assert ids[..k + 1][..k] == ids[..k];
      if (atts[ids[k]].contentID != "") == content {
        last := last[(if content then atts[ids[k]].contentID else atts[ids[k]].filename) := ids[k]];
      }
    }
    assert ids[..|ids|] == ids;
    var keys := SortStrings(last.Keys);
    sorted := Read(keys, last);
  }

  method SortAttachment(atts: map<Id, Attachment>, ids: seq<Id>) returns (sorted: seq<Id>)
    requires forall a :: a in ids ==> a in atts
    ensures sorted == SortAttachments(atts, ids)
  {
    var attachments := SortOneHalf(atts, ids, true);
    var named := SortOneHalf(atts, ids, false);
    sorted := attachments + named;
  }

  /** No two attachments of the list share a sort key. */
  ghost predicate DistinctKeys(atts: map<Id, Attachment>, ids: seq<Id>) {
    forall i, j | 0 <= i < j < |ids| && ids[i] in atts && ids[j] in atts :: KeyOf(atts[ids[i]]) != KeyOf(atts[ids[j]])
  }

  ghost function Keys(atts: map<Id, Attachment>, ids: seq<Id>): set<SortKey> {
    set a | a in ids && a in atts :: KeyOf(atts[a])
  }

  /** `sorted` takes one attachment of `ids` for each sort key. */
  ghost predicate OnePerKey(atts: map<Id, Attachment>, ids: seq<Id>, sorted: seq<Id>) {
    (forall a :: a in sorted ==> a in ids) && DistinctKeys(atts, sorted) && Keys(atts, sorted) == Keys(atts, ids)
  }

  lemma HalfAt(atts: map<Id, Attachment>, ids: seq<Id>, content: bool, i: nat)
    requires forall a :: a in ids ==> a in atts
    requires i < |SortHalf(atts, ids, content)|
    ensures var half, keys := SortHalf(atts, ids, content), Sorted(LastBy(atts, ids, content).Keys);
      |half| == |keys| && half[i] in ids && KeyOf(atts[half[i]]) == MakeKey(content, keys[i])
  {
    var keys := Sorted(LastBy(atts, ids, content).Keys);
    assert keys[i] in keys;
  }

  lemma HalfIsDistinct(atts: map<Id, Attachment>, ids: seq<Id>, content: bool)
    requires forall a :: a in ids ==> a in atts
    ensures DistinctKeys(atts, SortHalf(atts, ids, content))
  {
    var half, keys := SortHalf(atts, ids, content), Sorted(LastBy(atts, ids, content).Keys);
    forall i, j | 0 <= i < j < |half| && half[i] in atts && half[j] in atts
      ensures KeyOf(atts[half[i]]) != KeyOf(atts[half[j]])
    {
      HalfAt(atts, ids, content, i);
      HalfAt(atts, ids, content, j);
      Total(keys[i], keys[j]);
    }
  }

  lemma HalfHasTheKeys(atts: map<Id, Attachment>, ids: seq<Id>, content: bool)
    requires forall a :: a in ids ==> a in atts
    ensures var half := SortHalf(atts, ids, content);
      && (forall a :: a in half ==> a in ids)
      && forall k :: k in Keys(atts, half) <==> k in Keys(atts, ids) && k.ByContent? == content
  {
    var half, keys := SortHalf(atts, ids, content), Sorted(LastBy(atts, ids, content).Keys);
    forall a | a in half ensures a in ids && KeyOf(atts[a]).ByContent? == content {
      var i :| 0 <= i < |half| && half[i] == a;
      HalfAt(atts, ids, content, i);
    }
    forall k | k in Keys(atts, ids) && k.ByContent? == content ensures k in Keys(atts, half) {
      assert KeyText(k) in keys;
      var i :| 0 <= i < |keys| && keys[i] == KeyText(k);
      HalfAt(atts, ids, content, i);
      assert half[i] in half;
    }
  }

  /** What sorting keeps: one attachment of the list for each key. */
  lemma SortKeepsOnePerKey(atts: map<Id, Attachment>, ids: seq<Id>)
    requires forall a :: a in ids ==> a in atts
    ensures OnePerKey(atts, ids, SortAttachments(atts, ids)) && NoDup(SortAttachments(atts, ids))
  {
    var front, back := SortHalf(atts, ids, true), SortHalf(atts, ids, false);
    HalfIsDistinct(atts, ids, true);
    HalfIsDistinct(atts, ids, false);
    HalfHasTheKeys(atts, ids, true);
    HalfHasTheKeys(atts, ids, false);
    KeysApart(atts, front, back);
    DistinctConcat(atts, front, back);
    DistinctKeysNoDup(atts, front + back);
    KeysConcat(atts, front, back);
    assert Keys(atts, front + back) == Keys(atts, ids);
  }

  lemma KeysConcat(atts: map<Id, Attachment>, a: seq<Id>, b: seq<Id>)
    ensures Keys(atts, a + b) == Keys(atts, a) + Keys(atts, b)
  {}

  lemma KeysApart(atts: map<Id, Attachment>, a: seq<Id>, b: seq<Id>)
    requires forall k :: k in Keys(atts, a) ==> k !in Keys(atts, b)
    ensures forall x, y :: x in a && y in b && x in atts && y in atts ==> KeyOf(atts[x]) != KeyOf(atts[y])
  {
    forall x, y | x in a && y in b && x in atts && y in atts ensures KeyOf(atts[x]) != KeyOf(atts[y]) {
      assert KeyOf(atts[x]) in Keys(atts, a) && KeyOf(atts[y]) in Keys(atts, b);
    }
  }

  lemma DistinctConcat(atts: map<Id, Attachment>, a: seq<Id>, b: seq<Id>)
    requires DistinctKeys(atts, a) && DistinctKeys(atts, b)
    requires forall x, y :: x in a && y in b && x in atts && y in atts ==> KeyOf(atts[x]) != KeyOf(atts[y])
    ensures DistinctKeys(atts, a + b)
  {
    var c := a + b;
    forall i, j | 0 <= i < j < |c| && c[i] in atts && c[j] in atts ensures KeyOf(atts[c[i]]) != KeyOf(atts[c[j]]) {
      if i < |a| <= j {
        assert a[i] in a && b[j - |a|] in b;
      }
    }
  }

  lemma DistinctKeysNoDup(atts: map<Id, Attachment>, ids: seq<Id>)
    requires (forall a :: a in ids ==> a in atts) && DistinctKeys(atts, ids)
    ensures NoDup(ids)
  {
    forall i, j | 0 <= i < j < |ids| ensures ids[i] != ids[j] {
      assert ids[i] in ids && ids[j] in ids;
    }
  }

  /** Sorting drops nothing exactly when no two attachments share a key. */
  lemma SortDropsNothing(atts: map<Id, Attachment>, ids: seq<Id>, sorted: seq<Id>)
    requires NoDup(ids) && (forall a :: a in ids ==> a in atts) && OnePerKey(atts, ids, sorted)
    ensures (forall a :: a in ids ==> a in sorted) <==> DistinctKeys(atts, ids)
  {
    forall a | DistinctKeys(atts, ids) && a in ids ensures a in sorted {
      assert KeyOf(atts[a]) in Keys(atts, sorted);
      var b :| b in sorted && b in atts && KeyOf(atts[b]) == KeyOf(atts[a]);
      SameKeySameAttachment(atts, ids, a, b);
    }
    forall i, j | (forall a :: a in ids ==> a in sorted) && 0 <= i < j < |ids|
      ensures KeyOf(atts[ids[i]]) != KeyOf(atts[ids[j]])
    {
      assert ids[i] in ids && ids[j] in ids;
      if KeyOf(atts[ids[i]]) == KeyOf(atts[ids[j]]) {
        SameKeySameAttachment(atts, sorted, ids[i], ids[j]);
        assert false;
      }
    }
  }

  lemma SameKeySameAttachment(atts: map<Id, Attachment>, ids: seq<Id>, a: Id, b: Id)
    requires DistinctKeys(atts, ids) && a in atts && b in atts
    requires a in ids && b in ids && KeyOf(atts[a]) == KeyOf(atts[b])
    ensures a == b
  {
    var i :| 0 <= i < |ids| && ids[i] == a;
    var j :| 0 <= j < |ids| && ids[j] == b;
  }

  // ---------------------------------------------------------------------
  // The order

  /** Content IDs come before file names, and each kind in string order. */
  ghost predicate KeyBefore(k: SortKey, l: SortKey) {
    if k.ByContent? != l.ByContent? then k.ByContent? else Less(KeyText(k), KeyText(l))
  }

  lemma KeysAreOrdered(k: SortKey, l: SortKey)
    ensures !(KeyBefore(k, l) && KeyBefore(l, k)) && !KeyBefore(k, k)
  {
    Total(KeyText(k), KeyText(l));
    Total(KeyText(k), KeyText(k));
  }

  ghost predicate InKeyOrder(atts: map<Id, Attachment>, ids: seq<Id>) {
    && (forall a :: a in ids ==> a in atts)
    && forall i, j | 0 <= i < j < |ids| && ids[i] in atts && ids[j] in atts :: KeyBefore(KeyOf(atts[ids[i]]), KeyOf(atts[ids[j]]))
  }

  /** No later attachment of the list shares its key. */
  ghost predicate IsLastOfKey(atts: map<Id, Attachment>, ids: seq<Id>, a: Id) {
    a in atts && exists i :: 0 <= i < |ids| && ids[i] == a && NoneLater(atts, ids, i, KeyOf(atts[a]))
  }

  ghost predicate NoneLater(atts: map<Id, Attachment>, ids: seq<Id>, i: nat, key: SortKey) {
    forall j | i < j < |ids| && ids[j] in atts :: KeyOf(atts[ids[j]]) != key
  }

  lemma OtherKeyLater(atts: map<Id, Attachment>, ids: seq<Id>, x: Id, a: Id)
    requires IsLastOfKey(atts, ids, a) && x in atts && KeyOf(atts[x]) != KeyOf(atts[a])
    ensures IsLastOfKey(atts, ids + [x], a)
  {
    var i :| 0 <= i < |ids| && ids[i] == a && NoneLater(atts, ids, i, KeyOf(atts[a]));
    assert (ids + [x])[i] == a && NoneLater(atts, ids + [x], i, KeyOf(atts[a]));
  }

  lemma NewestIsLast(atts: map<Id, Attachment>, ids: seq<Id>, x: Id)
    requires x in atts
    ensures IsLastOfKey(atts, ids + [x], x)
  {
    assert (ids + [x])[|ids|] == x && NoneLater(atts, ids + [x], |ids|, KeyOf(atts[x]));
  }

  lemma {:induction false} LastByIsLast(atts: map<Id, Attachment>, ids: seq<Id>, content: bool, c: string)
    requires (forall a :: a in ids ==> a in atts) && c in LastBy(atts, ids, content)
    ensures IsLastOfKey(atts, ids, LastBy(atts, ids, content)[c])
  {
    hide IsLastOfKey;
    var n := |ids| - 1;
    assert ids == ids[..n] + [ids[n]];
    if KeyOf(atts[ids[n]]) == MakeKey(content, c) {
      NewestIsLast(atts, ids[..n], ids[n]);
    } else {
      LastByIsLast(atts, ids[..n], content, c);
      OtherKeyLater(atts, ids[..n], ids[n], LastBy(atts, ids[..n], content)[c]);
    }
  }

  lemma HalfIsInOrder(atts: map<Id, Attachment>, ids: seq<Id>, content: bool)
    requires forall a :: a in ids ==> a in atts
    ensures InKeyOrder(atts, SortHalf(atts, ids, content))
    ensures forall a :: a in SortHalf(atts, ids, content) ==>
      a in ids && KeyOf(atts[a]).ByContent? == content && IsLastOfKey(atts, ids, a)
  {
    hide Sorted, IsLastOfKey, Less;
    var half, keys := SortHalf(atts, ids, content), Sorted(LastBy(atts, ids, content).Keys);
    forall i | 0 <= i < |half|
      ensures half[i] in ids && KeyOf(atts[half[i]]) == MakeKey(content, keys[i]) && IsLastOfKey(atts, ids, half[i])
    {
      HalfAt(atts, ids, content, i);
      assert keys[i] in keys;
      LastByIsLast(atts, ids, content, keys[i]);
    }
    HalfHasTheKeys(atts, ids, content);
  }

  /** What sorting puts where: for each key the last attachment of the list that
      has it, those with a content ID first, each kind in string order. */
  lemma SortIsOrdered(atts: map<Id, Attachment>, ids: seq<Id>)
    requires forall a :: a in ids ==> a in atts
    ensures InKeyOrder(atts, SortAttachments(atts, ids))
    ensures forall a :: a in SortAttachments(atts, ids) ==> IsLastOfKey(atts, ids, a)
  {
    hide SortHalf, IsLastOfKey, Less;
    HalfIsInOrder(atts, ids, true);
    HalfIsInOrder(atts, ids, false);
    var front, back := SortHalf(atts, ids, true), SortHalf(atts, ids, false);
    forall i, j | 0 <= i < j < |front + back|
      ensures KeyBefore(KeyOf(atts[(front + back)[i]]), KeyOf(atts[(front + back)[j]]))
    {
      assert i < |front| ==> (front + back)[i] in front;
      assert j >= |front| ==> (front + back)[j] in back;
    }
  }

  lemma {:induction false} OneOrder(atts: map<Id, Attachment>, r: seq<Id>, q: seq<Id>)
    requires InKeyOrder(atts, r) && InKeyOrder(atts, q) && Keys(atts, r) == Keys(atts, q)
    requires forall a, b :: a in r && b in q && KeyOf(atts[a]) == KeyOf(atts[b]) ==> a == b
    ensures r == q
  {
    hide KeyBefore, KeyOf;
    if r == [] || q == [] {
      EmptyKeys(atts, r);
      EmptyKeys(atts, q);
    } else {
      SameHead(atts, r, q);
      assert r == [r[0]] + r[1..] && q == [q[0]] + q[1..];
      RestKeys(atts, r);
      RestKeys(atts, q);
      OneOrder(atts, r[1..], q[1..]);
    }
  }

  lemma EmptyKeys(atts: map<Id, Attachment>, r: seq<Id>)
    requires forall a :: a in r ==> a in atts
    ensures Keys(atts, r) == {} <==> r == []
  {
    if r != [] {
      assert r[0] in r && KeyOf(atts[r[0]]) in Keys(atts, r);
    }
  }

  lemma SameHead(atts: map<Id, Attachment>, r: seq<Id>, q: seq<Id>)
    requires InKeyOrder(atts, r) && InKeyOrder(atts, q) && Keys(atts, r) == Keys(atts, q) && r != [] && q != []
    requires forall a, b :: a in r && b in q && KeyOf(atts[a]) == KeyOf(atts[b]) ==> a == b
    ensures r[0] == q[0]
  {
    hide KeyBefore, KeyOf;
    assert r[0] in r && q[0] in q;
    assert KeyOf(atts[r[0]]) in Keys(atts, q) && KeyOf(atts[q[0]]) in Keys(atts, r);
    var b :| b in q && KeyOf(atts[b]) == KeyOf(atts[r[0]]);
    var a :| a in r && KeyOf(atts[a]) == KeyOf(atts[q[0]]);
    var j :| 0 <= j < |q| && q[j] == b;
    var i :| 0 <= i < |r| && r[i] == a;
    KeysAreOrdered(KeyOf(atts[r[0]]), KeyOf(atts[q[0]]));
  }

  /** The rest has the other keys. */
  lemma RestKeys(atts: map<Id, Attachment>, r: seq<Id>)
    requires InKeyOrder(atts, r) && r != []
    ensures InKeyOrder(atts, r[1..]) && r[0] in atts && Keys(atts, r[1..]) == Keys(atts, r) - {KeyOf(atts[r[0]])}
  {
    hide KeyBefore, KeyOf;
    var rest := r[1..];
    assert r == [r[0]] + rest;
    forall a | a in rest ensures KeyOf(atts[a]) != KeyOf(atts[r[0]]) {
      var i :| 0 <= i < |rest| && rest[i] == a;
      assert r[i + 1] == a;
      KeysAreOrdered(KeyOf(atts[r[0]]), KeyOf(atts[a]));
    }
    forall k | k in Keys(atts, r) && k != KeyOf(atts[r[0]]) ensures k in Keys(atts, rest) {
      var a :| a in r && KeyOf(atts[a]) == k;
      assert a in rest;
    }
  }

  lemma LastIsOne(atts: map<Id, Attachment>, ids: seq<Id>, a: Id, b: Id)
    requires IsLastOfKey(atts, ids, a) && IsLastOfKey(atts, ids, b) && KeyOf(atts[a]) == KeyOf(atts[b])
    ensures a == b
  {
    var i :| 0 <= i < |ids| && ids[i] == a && NoneLater(atts, ids, i, KeyOf(atts[a]));
    var j :| 0 <= j < |ids| && ids[j] == b && NoneLater(atts, ids, j, KeyOf(atts[b]));
  }

  /** There is only one list with these properties. */
  lemma SortIsDetermined(atts: map<Id, Attachment>, ids: seq<Id>, r: seq<Id>)
    requires (forall a :: a in ids ==> a in atts) && InKeyOrder(atts, r) && Keys(atts, r) == Keys(atts, ids)
    requires forall a :: a in r ==> IsLastOfKey(atts, ids, a)
    ensures r == SortAttachments(atts, ids)
  {
    var sorted := SortAttachments(atts, ids);
    SortIsOrdered(atts, ids);
    SortKeepsOnePerKey(atts, ids);
    hide SortAttachments, IsLastOfKey, InKeyOrder, KeyOf;
    forall a, b | a in r && b in sorted && KeyOf(atts[a]) == KeyOf(atts[b]) ensures a == b {
      LastIsOne(atts, ids, a, b);
    }
    OneOrder(atts, r, sorted);
  }

  /** Sorting again changes nothing. */
  lemma SortTwice(atts: map<Id, Attachment>, ids: seq<Id>)
    requires forall a :: a in ids ==> a in atts
    ensures (forall a :: a in SortAttachments(atts, ids) ==> a in atts)
    ensures SortAttachments(atts, SortAttachments(atts, ids)) == SortAttachments(atts, ids)
  {
    var sorted := SortAttachments(atts, ids);
    SortIsOrdered(atts, ids);
    SortKeepsOnePerKey(atts, ids);
    hide SortAttachments, KeyOf;
    forall a | a in sorted ensures IsLastOfKey(atts, sorted, a) {
      var i :| 0 <= i < |sorted| && sorted[i] == a;
      assert NoneLater(atts, sorted, i, KeyOf(atts[a]));
    }
    SortIsDetermined(atts, sorted, sorted);
  }

  // ---------------------------------------------------------------------
  // The invariant

  /** Every stored message lists live attachments, each once and none that
      another message lists, and data is stored exactly for live attachments. */
  ghost predicate AttachmentsOk(messages: map<Id, Message>, atts: map<Id, Attachment>, data: map<Id, string>) {
    && DataExact(atts, data)
    && (forall m | m in messages :: NoDup(messages[m].attIDs))
    && (forall m, a | m in messages && a in messages[m].attIDs :: a in atts)
    && (forall m, n, a | m in messages && n in messages && a in messages[m].attIDs && a in messages[n].attIDs :: m == n)
  }
}
