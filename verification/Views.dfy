/** What an account has, and what a client is shown of it
    (server/backend/message.go, label.go and address.go). */
module Views {
  import opened Ids
  import opened Updates
  import opened Locations
  import opened Records

  /** The account has the object. */
  ghost predicate Live(s: State, u: Id, k: Key) {
    u in s.accounts &&
    match k.kind
    case MessageKind => k.id in s.accounts[u].messageIDs
    case LabelKind => k.id in s.accounts[u].labelIDs
    case AddressKind => k.id in s.accounts[u].addresses
  }

  /** The server stores the object where the account's events look for it. */
  ghost predicate Present(s: State, u: Id, k: Key) {
    u in s.accounts &&
    match k.kind
    case MessageKind => k.id in s.messages
    case LabelKind => k.id in s.labels
    case AddressKind => k.id in s.accounts[u].addresses
  }

  /** What events carry about one object. */
  datatype Value =
    | MessageValue(
        externalID: string, addrID: Id, labelIDs: seq<Id>,
        subject: string, sender: string, to: seq<string>, cc: seq<string>, bcc: seq<string>,
        size: nat, flags: set<Flag>, unread: bool)
    | LabelValue(shown: Label)
    | AddressValue(address: Address)

  /** The size of a message's attachments. */
  function DataSize(ids: seq<Id>, atts: map<Id, Attachment>, data: map<Id, string>): nat {
    if ids == [] then 0
    else
      (if ids[0] in atts && atts[ids[0]].dataID in data then |data[atts[ids[0]].dataID]| else 0)
      + DataSize(ids[1..], atts, data)
  }

  /** Every listed attachment adds the length of its data. */
  lemma {:induction false} SizesAdd(a: seq<Id>, b: seq<Id>, atts: map<Id, Attachment>, data: map<Id, string>)
    ensures DataSize(a + b, atts, data) == DataSize(a, atts, data) + DataSize(b, atts, data)
    ensures forall x | x in atts && atts[x].dataID in data :: DataSize([x], atts, data) == |data[atts[x].dataID]|
  {
    if a == [] {
      assert a + b == b;
    } else {
      assert (a + b)[1..] == a[1..] + b;
      SizesAdd(a[1..], b, atts, data);
    }
  }

  /** Their order does not matter. */
  lemma {:induction false} SizeOfSame(a: seq<Id>, b: seq<Id>, atts: map<Id, Attachment>, data: map<Id, string>)
    requires NoDup(a) && NoDup(b) && forall x :: x in a <==> x in b
    ensures DataSize(a, atts, data) == DataSize(b, atts, data)
  {
    if a == [] {
      HeadIsIn(b);
    } else {
      assert a[0] in a;
      var i :| 0 <= i < |b| && b[i] == a[0];
      hide DataSize, NoDup;
      var rest := b[..i] + b[i + 1..];
      SizeWithout(a, 0, atts, data);
      SizeWithout(b, i, atts, data);
      assert a[..0] + a[0 + 1..] == a[1..];
      SameRest(a, b, i);
      SizeOfSame(a[1..], rest, atts, data);
    }
  }

  lemma SizeWithout(b: seq<Id>, i: nat, atts: map<Id, Attachment>, data: map<Id, string>)
    requires i < |b|
    ensures DataSize(b, atts, data) == DataSize([b[i]], atts, data) + DataSize(b[..i] + b[i + 1..], atts, data)
  {
    hide DataSize;
    assert b == b[..i] + ([b[i]] + b[i + 1..]);
    SizesAdd(b[..i], [b[i]] + b[i + 1..], atts, data);
    SizesAdd([b[i]], b[i + 1..], atts, data);
    SizesAdd(b[..i], b[i + 1..], atts, data);
  }

  lemma HeadIsIn(s: seq<Id>)
    ensures s == [] || s[0] in s
  {}

  lemma SameRest(a: seq<Id>, b: seq<Id>, i: nat)
    requires NoDup(a) && NoDup(b) && (forall x :: x in a <==> x in b) && a != [] && i < |b| && b[i] == a[0]
    ensures NoDup(a[1..])
    ensures var rest := b[..i] + b[i + 1..]; NoDup(rest) && forall x :: x in a[1..] <==> x in rest
  {
    var rest := b[..i] + b[i + 1..];
    forall x ensures x in a[1..] <==> x in rest {
      assert x in a <==> x == a[0] || x in a[1..];
      assert a[0] !in a[1..];
      assert x in b[..i] ==> x != b[i];
      assert x in b[i + 1..] ==> x != b[i];
      assert x in b <==> x in b[..i] || x == b[i] || x in b[i + 1..] by {
        assert b == b[..i] + [b[i]] + b[i + 1..];
      }
    }
  }

  function ToMetadata(m: Message, atts: map<Id, Attachment>, data: map<Id, string>): Value {
    MessageValue(
      m.content.externalID, m.addrID, m.filing.labelIDs + DerivedLabels(m.filing, m.flags),
      m.content.subject, m.content.sender, m.content.to, m.content.cc, m.content.bcc,
      |m.content.body| + DataSize(m.attIDs, atts, data), m.flags, m.unread)
  }

  /** The object's current value, if the server stores it. */
  function Stored(s: State, u: Id, k: Key): Option<Value> {
    if u !in s.accounts then None
    else match k.kind
      case MessageKind => if k.id in s.messages then Some(ToMetadata(s.messages[k.id], s.attachments, s.attData)) else None
      case LabelKind => if k.id in s.labels then Some(LabelValue(s.labels[k.id])) else None
      case AddressKind => if k.id in s.accounts[u].addresses then Some(AddressValue(s.accounts[u].addresses[k.id])) else None
  }

  /** The object's current value, if it is the account's. */
  ghost function ValueOf(s: State, u: Id, k: Key): Option<Value> {
    if Live(s, u, k) then Stored(s, u, k) else None
  }

  // ---------------------------------------------------------------------
  // What leaves values alone

  /** The message is stored unchanged, and so are its attachments. */
  ghost predicate KeepsMessage(s: State, t: State, id: Id) {
    id in s.messages ==>
      && id in t.messages && t.messages[id] == s.messages[id]
      && forall a :: a in s.messages[id].attIDs ==> KeepsData(s, t, a)
  }

  ghost predicate KeepsData(s: State, t: State, a: Id) {
    a in s.attachments && s.attachments[a].dataID in s.attData ==>
      && a in t.attachments && t.attachments[a] == s.attachments[a]
      && s.attachments[a].dataID in t.attData && t.attData[s.attachments[a].dataID] == s.attData[s.attachments[a].dataID]
  }

  lemma {:induction false} SameData(s: State, t: State, ids: seq<Id>)
    requires forall a :: a in ids ==> a in s.attachments && s.attachments[a].dataID in s.attData && KeepsData(s, t, a)
    ensures DataSize(ids, s.attachments, s.attData) == DataSize(ids, t.attachments, t.attData)
  {
    if ids != [] {
      SameData(s, t, ids[1..]);
    }
  }

  lemma SameMessage(s: State, t: State, id: Id)
    requires KeepsMessage(s, t, id) && id in s.messages
    requires forall a :: a in s.messages[id].attIDs ==> a in s.attachments && s.attachments[a].dataID in s.attData
    ensures ToMetadata(s.messages[id], s.attachments, s.attData) == ToMetadata(t.messages[id], t.attachments, t.attData)
  {
    SameData(s, t, s.messages[id].attIDs);
  }
}
