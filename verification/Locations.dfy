/** Where a message is filed: the label list, the nullable system label and the
    star (server/backend/message.go), against a machine with one location. */
module Locations {
  import opened Ids

  datatype LabelType = TagType | ContactGroupType | FolderType | SystemType

  datatype Label = Label(name: string, parent: Id, labelType: LabelType)

  datatype Flag = Received | SentFlag | ScheduledSend | Replied | RepliedAll | Forwarded | OtherFlag(bit: nat)

  /** `sysLabel` None: the flags decide; Some(NoId): no system label. */
  datatype Filing = Filing(labelIDs: seq<Id>, sysLabel: Option<Id>, starred: bool)

  const NEW_FILING := Filing([], Some(NoId), false)

  predicate ByFlagsLabel(id: Id) { id == INBOX || id == SENT || id == DRAFTS || id == ALL_SCHEDULED }

  predicate SystemLabel(id: Id) { id == TRASH || id == SPAM || id == ARCHIVE }

  predicate IsTag(id: Id, labels: map<Id, Label>) { id in labels && labels[id].labelType.TagType? }

  /** utils.Filter to the plain labels; it looks every label up, and None is
      the panic at the first one that is missing. */
  function KeepTags(ids: seq<Id>, labels: map<Id, Label>): (r: Option<seq<Id>>)
    ensures r.Some? <==> forall id :: id in ids ==> id in labels
    ensures r.Some? ==> forall id :: id in r.value <==> id in ids && IsTag(id, labels)
  {
    if ids == [] then Some([])
    else
      assert forall id :: id in ids <==> id == ids[0] || id in ids[1..];
      if ids[0] !in labels then None
      else match KeepTags(ids[1..], labels)
        case None => None
        case Some(r) => Some(if IsTag(ids[0], labels) then [ids[0]] + r else r)
  }

  /** The message leaves its folder for the new place. */
  function MoveTo(f: Filing, sysLabel: Option<Id>, labels: map<Id, Label>): Option<Filing> {
    match KeepTags(f.labelIDs, labels)
    case None => None
    case Some(ids) => Some(f.(labelIDs := ids, sysLabel := sysLabel))
  }

  function ListLabel(f: Filing, id: Id): Filing {
    if id in f.labelIDs then f else f.(labelIDs := f.labelIDs + [id])
  }

  /** addLabel; None when it panics. */
  function AddLabel(f: Filing, id: Id, labels: map<Id, Label>): Option<Filing> {
    if ByFlagsLabel(id) then MoveTo(f, None, labels)
    else if SystemLabel(id) then MoveTo(f, Some(id), labels)
    else if id == STARRED then Some(f.(starred := true))
    else if id !in labels then Some(f)
    else if IsTag(id, labels) then Some(ListLabel(f, id))
    else match MoveTo(f, Some(NoId), labels)
      case None => None
      case Some(g) => Some(ListLabel(g, id))
  }

  /** The label stands for a location that a message has instead of others. */
  predicate Exclusive(id: Id, labels: map<Id, Label>) {
    ByFlagsLabel(id) || SystemLabel(id) || (id != STARRED && id in labels && !IsTag(id, labels))
  }

  /** Every label the message carries exists. */
  predicate AllLive(f: Filing, labels: map<Id, Label>) {
    forall id :: id in f.labelIDs ==> id in labels
  }

  predicate AddIsSafe(f: Filing, id: Id, labels: map<Id, Label>) {
    Exclusive(id, labels) ==> AllLive(f, labels)
  }

  /** Filing panics exactly when it moves a message that carries a label that
      no longer exists. */
  lemma FilingFails(f: Filing, id: Id, labels: map<Id, Label>)
    ensures AddLabel(f, id, labels) == None <==> Exclusive(id, labels) && exists l :: l in f.labelIDs && l !in labels
  {}

  /** The message after a filing that does not panic. */
  function Filed(f: Filing, id: Id, labels: map<Id, Label>): Filing
    requires AddIsSafe(f, id, labels)
  {
    FilingFails(f, id, labels);
    AddLabel(f, id, labels).value
  }

  function RemLabel(f: Filing, id: Id, labels: map<Id, Label>): Filing {
    if ByFlagsLabel(id) then (if f.sysLabel.None? then f.(sysLabel := Some(NoId)) else f)
    else if SystemLabel(id) then (if f.sysLabel == Some(id) then f.(sysLabel := Some(NoId)) else f)
    else if id == STARRED then f.(starred := false)
    else if id !in labels then f
    else f.(labelIDs := Without(f.labelIDs, id))
  }

  /** The label IDs computed from flags, star and system label. */
  function DerivedLabels(f: Filing, flags: set<Flag>): seq<Id> {
    [ALL_MAIL]
    + (if SentFlag in flags || ScheduledSend in flags then [ALL_SENT] else [])
    + (if !(SentFlag in flags || ScheduledSend in flags || Received in flags) then [ALL_DRAFTS] else [])
    + (if f.starred then [STARRED] else [])
    + (match f.sysLabel
       case Some(id) => if id != NoId then [id] else []
       case None => [FlagLocation(flags)])
  }

  function FlagLocation(flags: set<Flag>): Id {
    if Received in flags then INBOX
    else if SentFlag in flags then SENT
    else if ScheduledSend in flags then ALL_SCHEDULED
    else DRAFTS
  }

  /** The message object: addLabel and remLabel change it in place. */
  class FiledMessage {
    var labelIDs: seq<Id>
    var sysLabel: Option<Id>
    var starred: bool

    function View(): Filing reads this { Filing(labelIDs, sysLabel, starred) }

    constructor ()
      ensures View() == NEW_FILING
    {
      labelIDs, sysLabel, starred := [], Some(NoId), false;
    }

    /** The filter runs before anything is written, so a panic (`ok` is false)
        leaves the message as it was. */
    method Add(id: Id, labels: map<Id, Label>) returns (ok: bool)
      modifies this
      ensures ok <==> AddLabel(old(View()), id, labels).Some?
      ensures View() == if ok then AddLabel(old(View()), id, labels).value else old(View())
    {
      if ByFlagsLabel(id) || SystemLabel(id) {
        var kept := KeepTags(labelIDs, labels);
        if kept.None? {
          return false;
        }
        labelIDs := kept.value;
        sysLabel := if ByFlagsLabel(id) then None else Some(id);
      } else if id == STARRED {
        starred := true;
      } else if id in labels {
        if labels[id].labelType != TagType {
          var kept := KeepTags(labelIDs, labels);
          if kept.None? {
            return false;
          }
          labelIDs := kept.value;
          sysLabel := Some(NoId);
        }
        if id !in labelIDs {
          labelIDs := labelIDs + [id];
        }
      }
      return true;
    }

    method Remove(id: Id, labels: map<Id, Label>)
      modifies this
      ensures View() == RemLabel(old(View()), id, labels)
    {
      if ByFlagsLabel(id) {
        if sysLabel.None? {
          sysLabel := Some(NoId);
        }
      } else if SystemLabel(id) {
        if sysLabel == Some(id) {
          sysLabel := Some(NoId);
        }
      } else if id == STARRED {
        starred := false;
      } else if id in labels {
        labelIDs := Without(labelIDs, id);
      }
    }
  }

  // ---------------------------------------------------------------------
  // The simple machine

  datatype Place = ByFlags | Nowhere | InSystem(id: Id) | InFolder(id: Id)

  datatype Spot = Spot(place: Place, tags: set<Id>, starred: bool)

  function SpotAdd(p: Spot, id: Id, labels: map<Id, Label>): Spot {
    if ByFlagsLabel(id) then p.(place := ByFlags)
    else if SystemLabel(id) then p.(place := InSystem(id))
    else if id == STARRED then p.(starred := true)
    else if id !in labels then p
    else if IsTag(id, labels) then p.(tags := p.tags + {id})
    else p.(place := InFolder(id))
  }

  function SpotRem(p: Spot, id: Id, labels: map<Id, Label>): Spot {
    if ByFlagsLabel(id) then (if p.place.ByFlags? then p.(place := Nowhere) else p)
    else if SystemLabel(id) then (if p.place == InSystem(id) then p.(place := Nowhere) else p)
    else if id == STARRED then p.(starred := false)
    else if id !in labels then p
    else if IsTag(id, labels) then p.(tags := p.tags - {id})
    else if p.place == InFolder(id) then p.(place := Nowhere)
    else p
  }

  /** The folder a message is in, if any. */
  ghost predicate HoldsFolder(f: Filing, id: Id, labels: map<Id, Label>) {
    id in f.labelIDs && id in labels && !IsTag(id, labels)
  }

  /** At most one exclusive location, and nothing twice. The message may still
      carry labels that no longer exist. */
  ghost predicate Neat(f: Filing, labels: map<Id, Label>) {
    && NoDup(f.labelIDs)
    && (forall id :: id in f.labelIDs ==> id.Uuid?)
    && (forall a, b :: HoldsFolder(f, a, labels) && HoldsFolder(f, b, labels) ==> a == b)
    && (forall a :: HoldsFolder(f, a, labels) ==> f.sysLabel == Some(NoId))
    && (f.sysLabel.Some? ==> f.sysLabel.value == NoId || SystemLabel(f.sysLabel.value))
  }

  /** User labels have generated IDs, never the fixed ones. */
  ghost predicate UserLabels(labels: map<Id, Label>) {
    forall id :: id in labels ==> id.Uuid?
  }

  ghost function TheFolder(f: Filing, labels: map<Id, Label>): (r: Option<Id>)
    ensures r.Some? ==> HoldsFolder(f, r.value, labels)
    ensures r.None? ==> forall id :: !HoldsFolder(f, id, labels)
  {
    if id :| HoldsFolder(f, id, labels) then Some(id) else None
  }

  ghost function SpotOf(f: Filing, labels: map<Id, Label>): Spot {
    var place := match f.sysLabel
      case None => ByFlags
      case Some(NoId) => (match TheFolder(f, labels) case Some(id) => InFolder(id) case None => Nowhere)
      case Some(id) => InSystem(id);
    Spot(place, (set id | id in f.labelIDs && IsTag(id, labels)), f.starred)
  }

  lemma {:induction false} KeepTagsNoDup(ids: seq<Id>, labels: map<Id, Label>)
    requires NoDup(ids)
    ensures KeepTags(ids, labels).Some? ==> NoDup(KeepTags(ids, labels).value)
  {
    if ids != [] {
      KeepTagsNoDup(ids[1..], labels);
      assert ids[0] !in ids[1..];
    }
  }

  lemma SpotIs(f: Filing, labels: map<Id, Label>, p: Spot)
    requires Neat(f, labels)
    requires p.tags == set id | id in f.labelIDs && IsTag(id, labels)
    requires p.starred == f.starred
    requires match p.place
      case ByFlags => f.sysLabel.None?
      case Nowhere => f.sysLabel == Some(NoId) && forall id :: !HoldsFolder(f, id, labels)
      case InSystem(id) => f.sysLabel == Some(id) && SystemLabel(id)
      case InFolder(id) => f.sysLabel == Some(NoId) && HoldsFolder(f, id, labels)
    ensures SpotOf(f, labels) == p
  {}

  /** What filing does to the label list: a move keeps the plain labels only. */
  lemma AddedLabels(f: Filing, id: Id, labels: map<Id, Label>)
    requires UserLabels(labels) && Neat(f, labels) && AddIsSafe(f, id, labels)
    ensures var g := Filed(f, id, labels);
      && NoDup(g.labelIDs)
      && forall x :: x in g.labelIDs <==>
           (x in f.labelIDs && (Exclusive(id, labels) ==> IsTag(x, labels))) || (x == id && id in labels)
  {
    KeepTagsNoDup(f.labelIDs, labels);
    var ids := if Exclusive(id, labels) then KeepTags(f.labelIDs, labels).value else f.labelIDs;
    if id !in ids {
      NoDupConcat(ids, [id]);
    }
  }

  /** Filing a message moves the simple machine, keeps the message neat, and
      adds no label that does not exist. It is safe if no label is missing. */
  lemma AddRefines(f: Filing, id: Id, labels: map<Id, Label>)
    requires UserLabels(labels) && Neat(f, labels)
    ensures AllLive(f, labels) ==> AddIsSafe(f, id, labels)
    ensures AddIsSafe(f, id, labels) ==>
      && Neat(Filed(f, id, labels), labels)
      && SpotOf(Filed(f, id, labels), labels) == SpotAdd(SpotOf(f, labels), id, labels)
      && forall x :: x in Filed(f, id, labels).labelIDs ==> x in f.labelIDs || x in labels
  {
    if AddIsSafe(f, id, labels) {
      AddedLabels(f, id, labels);
      hide KeepTags, NoDup;
      var g := Filed(f, id, labels);
      forall x ensures HoldsFolder(g, x, labels) <==>
        if id in labels && !IsTag(id, labels) then x == id
        else HoldsFolder(f, x, labels) && !ByFlagsLabel(id) && !SystemLabel(id)
      {}
      SpotIs(g, labels, SpotAdd(SpotOf(f, labels), id, labels));
    }
  }

  lemma RemKeepsNeat(f: Filing, id: Id, labels: map<Id, Label>)
    requires Neat(f, labels)
    ensures Neat(RemLabel(f, id, labels), labels)
  {
    WithoutNoDup(f.labelIDs, id);
    var g := RemLabel(f, id, labels);
    assert forall x :: HoldsFolder(g, x, labels) ==> HoldsFolder(f, x, labels);
  }

  lemma RemRefines(f: Filing, id: Id, labels: map<Id, Label>)
    requires UserLabels(labels) && Neat(f, labels)
    ensures Neat(RemLabel(f, id, labels), labels)
    ensures SpotOf(RemLabel(f, id, labels), labels) == SpotRem(SpotOf(f, labels), id, labels)
    ensures forall x :: x in RemLabel(f, id, labels).labelIDs ==> x in f.labelIDs
  {
    RemKeepsNeat(f, id, labels);
    var g, p := RemLabel(f, id, labels), SpotOf(f, labels);
    if id in labels {
      assert forall x :: HoldsFolder(g, x, labels) <==> HoldsFolder(f, x, labels) && x != id;
      assert (set x | x in g.labelIDs && IsTag(x, labels)) == p.tags - {id};
      if p.place.InFolder? {
        assert HoldsFolder(f, p.place.id, labels);
      }
      if !IsTag(id, labels) {
        assert p.tags - {id} == p.tags;
      }
    } else {
      assert forall x :: HoldsFolder(g, x, labels) <==> HoldsFolder(f, x, labels);
    }
    SpotIs(g, labels, SpotRem(p, id, labels));
  }

  /** Labels come and go while the message stays: IDs are not used again, and
      a label keeps its type. */
  ghost predicate Relabels(f: Filing, labels: map<Id, Label>, labels': map<Id, Label>) {
    && UserLabels(labels')
    && forall id | id in f.labelIDs && id in labels' :: id in labels && labels'[id].labelType == labels[id].labelType
  }

  /** Deleted labels leave the simple machine, new ones do not concern it. */
  function SpotRelabel(p: Spot, labels: map<Id, Label>): Spot {
    p.(tags := p.tags * labels.Keys,
       place := if p.place.InFolder? && p.place.id !in labels then Nowhere else p.place)
  }

  lemma RelabelRefines(f: Filing, labels: map<Id, Label>, labels': map<Id, Label>)
    requires Neat(f, labels) && Relabels(f, labels, labels')
    ensures Neat(f, labels')
    ensures SpotOf(f, labels') == SpotRelabel(SpotOf(f, labels), labels')
  {
    assert forall id :: HoldsFolder(f, id, labels') <==> HoldsFolder(f, id, labels) && id in labels';
    SpotIs(f, labels', SpotRelabel(SpotOf(f, labels), labels'));
  }

  // ---------------------------------------------------------------------
  // Whole histories, and what a client sees

  /** Calls on one message, and changes of the account's labels between them. */
  datatype Action = Add(id: Id) | Remove(id: Id) | Relabel(labels: map<Id, Label>)

  /** A message and the labels there are. */
  datatype Desk = Desk(filing: Filing, labels: map<Id, Label>)

  ghost predicate ActionAllowed(d: Desk, a: Action) {
    match a
    case Add(id) => AddIsSafe(d.filing, id, d.labels)
    case Remove(_) => true
    case Relabel(labels) => Relabels(d.filing, d.labels, labels)
  }

  ghost function Act(d: Desk, a: Action): Desk
    requires ActionAllowed(d, a)
  {
    match a
    case Add(id) => d.(filing := Filed(d.filing, id, d.labels))
    case Remove(id) => d.(filing := RemLabel(d.filing, id, d.labels))
    case Relabel(labels) => d.(labels := labels)
  }

  function SpotAct(p: Spot, a: Action, labels: map<Id, Label>): Spot {
    match a
    case Add(id) => SpotAdd(p, id, labels)
    case Remove(id) => SpotRem(p, id, labels)
    case Relabel(labels') => SpotRelabel(p, labels')
  }

  ghost predicate IsHistory(ds: seq<Desk>, acts: seq<Action>) {
    && |ds| == |acts| + 1
    && forall k | 0 <= k < |acts| :: ActionAllowed(ds[k], acts[k]) && ds[k + 1] == Act(ds[k], acts[k])
  }

  /** The simple machine after the first k actions; it sees the label types only. */
  function SpotAfter(p: Spot, ds: seq<Desk>, acts: seq<Action>, k: nat): Spot
    requires k <= |acts| <= |ds|
  {
    if k == 0 then p else SpotAct(SpotAfter(p, ds, acts, k - 1), acts[k - 1], ds[k - 1].labels)
  }

  /** Any sequence of filings, unfilings, label creations and label deletions
      moves the simple machine: never two exclusive places, no label twice. */
  lemma {:induction false} HistoriesRefine(ds: seq<Desk>, acts: seq<Action>, k: nat)
    requires IsHistory(ds, acts) && UserLabels(ds[0].labels) && Neat(ds[0].filing, ds[0].labels) && k <= |acts|
    ensures UserLabels(ds[k].labels) && Neat(ds[k].filing, ds[k].labels)
    ensures SpotOf(ds[k].filing, ds[k].labels) == SpotAfter(SpotOf(ds[0].filing, ds[0].labels), ds, acts, k)
  {
    hide Filed, RemLabel, Neat, SpotOf, SpotAdd, SpotRem, SpotRelabel;
    if k > 0 {
      HistoriesRefine(ds, acts, k - 1);
      var d, a := ds[k - 1], acts[k - 1];
      assert ds[k - 1 + 1] == Act(d, a);
      match a
      case Add(id) => AddRefines(d.filing, id, d.labels);
      case Remove(id) => RemRefines(d.filing, id, d.labels);
      case Relabel(labels) => RelabelRefines(d.filing, d.labels, labels);
    }
  }

  /** The label IDs a client is shown depend on the spot and the flags alone:
      the collective labels on the flags only, and one location at most. */
  ghost function Shown(p: Spot, flags: set<Flag>): set<Id> {
    {ALL_MAIL} + p.tags
    + (if SentFlag in flags || ScheduledSend in flags then {ALL_SENT} else {})
    + (if !(SentFlag in flags || ScheduledSend in flags || Received in flags) then {ALL_DRAFTS} else {})
    + (if p.starred then {STARRED} else {})
    + (match p.place
       case ByFlags => {FlagLocation(flags)}
       case Nowhere => {}
       case InSystem(id) => {id}
       case InFolder(id) => {id})
  }

  lemma DerivedElements(f: Filing, flags: set<Flag>, id: Id)
    ensures id in DerivedLabels(f, flags) <==>
      || id == ALL_MAIL
      || (id == ALL_SENT && (SentFlag in flags || ScheduledSend in flags))
      || (id == ALL_DRAFTS && !(SentFlag in flags || ScheduledSend in flags || Received in flags))
      || (id == STARRED && f.starred)
      || (f.sysLabel.None? && id == FlagLocation(flags))
      || (f.sysLabel == Some(id) && id != NoId)
  {}

  lemma DerivedNoDup(f: Filing, flags: set<Flag>)
    requires f.sysLabel.Some? ==> f.sysLabel.value == NoId || SystemLabel(f.sysLabel.value)
    ensures NoDup(DerivedLabels(f, flags))
  {
    var a := [ALL_MAIL];
    var b := if SentFlag in flags || ScheduledSend in flags then [ALL_SENT] else [];
    var c := if !(SentFlag in flags || ScheduledSend in flags || Received in flags) then [ALL_DRAFTS] else [];
    var d := if f.starred then [STARRED] else [];
    var e := match f.sysLabel
      case Some(id) => if id != NoId then [id] else []
      case None => [FlagLocation(flags)];
    NoDupConcat(a, b);
    NoDupConcat(a + b, c);
    NoDupConcat(a + b + c, d);
    NoDupConcat(a + b + c + d, e);
  }

  /** Besides, the client is shown the labels of the message that are gone. */
  lemma ShownLabels(f: Filing, flags: set<Flag>, labels: map<Id, Label>)
    requires Neat(f, labels)
    ensures NoDup(f.labelIDs + DerivedLabels(f, flags))
    ensures forall id :: id in f.labelIDs + DerivedLabels(f, flags) <==>
      id in Shown(SpotOf(f, labels), flags) || (id in f.labelIDs && id !in labels)
  {
    DerivedNoDup(f, flags);
    forall id | id in f.labelIDs ensures id !in DerivedLabels(f, flags) {
      DerivedElements(f, flags, id);
    }
    NoDupConcat(f.labelIDs, DerivedLabels(f, flags));
    forall id ensures id in f.labelIDs + DerivedLabels(f, flags) <==>
      id in Shown(SpotOf(f, labels), flags) || (id in f.labelIDs && id !in labels)
    {
      ShownElements(f, flags, labels, id);
    }
  }

  lemma ShownElements(f: Filing, flags: set<Flag>, labels: map<Id, Label>, id: Id)
    requires Neat(f, labels)
    ensures id in f.labelIDs || id in DerivedLabels(f, flags) <==>
      id in Shown(SpotOf(f, labels), flags) || (id in f.labelIDs && id !in labels)
  {
    var p := SpotOf(f, labels);
    DerivedElements(f, flags, id);
    assert id in f.labelIDs && id in labels <==> id in p.tags || HoldsFolder(f, id, labels);
    assert HoldsFolder(f, id, labels) <==> p.place == InFolder(id);
  }
}
