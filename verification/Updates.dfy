/** The updates an account's log is made of, and `merge`, which compresses a
    window of them before an event is built (server/backend/updates.go). */
module Updates {
  import opened Ids

  datatype Kind = MessageKind | LabelKind | AddressKind

  /** What a created, updated or deleted update is about. */
  datatype Key = Key(kind: Kind, id: Id)

  datatype Settings = Settings(telemetry: bool, crashReports: bool)

  datatype RefreshFlag = RefreshMail | RefreshAll

  datatype Update =
    | Created(key: Key)
    | Updated(key: Key)
    | Deleted(key: Key)
    | Refreshed(flag: RefreshFlag)
    | SettingsUpdated(settings: Settings)
    | UserInfoUpdated

  predicate Mentions(u: Update, k: Key) {
    (u.Created? || u.Updated? || u.Deleted?) && u.key == k
  }

  /** Whether `later` makes `earlier` redundant; None is the "deleted twice" panic. */
  function Replaces(later: Update, earlier: Update): Option<bool> {
    match later
    case Updated(k) => Some(earlier == Updated(k))
    case Deleted(k) =>
      if earlier == Deleted(k) then None
      else Some(earlier == Created(k) || earlier == Updated(k))
    case SettingsUpdated(_) => Some(earlier.SettingsUpdated?)
    case UserInfoUpdated => Some(earlier.UserInfoUpdated?)
    case Created(_) => Some(false)
    case Refreshed(_) => Some(false)
  }

  /** slices.IndexFunc(merged, ...) >= 0: scans left to right and stops at the first hit. */
  function AnyReplaces(merged: seq<Update>, first: Update): Option<bool> {
    if merged == [] then Some(false)
    else match Replaces(merged[0], first)
      case None => None
      case Some(true) => Some(true)
      case Some(false) => AnyReplaces(merged[1..], first)
  }

  /** `merge` as the server runs it; None when it panics. */
  function Merge(updates: seq<Update>): Option<seq<Update>> {
    if |updates| < 2 then Some(updates)
    else match Merge(updates[1..])
      case None => None
      case Some(merged) =>
        match AnyReplaces(merged, updates[0])
        case None => None
        case Some(true) => Some(merged)
        case Some(false) => Some([updates[0]] + merged)
  }

  // ---------------------------------------------------------------------
  // The simple specification

  ghost predicate DeletedTwice(updates: seq<Update>) {
    exists i, j :: 0 <= i < j < |updates| && updates[i].Deleted? && updates[i] == updates[j]
  }

  /** Some element of `rest` replaces `u` (panics aside). */
  ghost predicate Overridden(rest: seq<Update>, u: Update) {
    exists x :: x in rest && Replaces(x, u) == Some(true)
  }

  /** The elements no later element of the whole window replaces, in order. */
  ghost function Survivors(updates: seq<Update>): seq<Update> {
    if updates == [] then []
    else if Overridden(updates[1..], updates[0]) then Survivors(updates[1..])
    else [updates[0]] + Survivors(updates[1..])
  }

  lemma ReplacesTransitive(a: Update, b: Update, c: Update)
    requires Replaces(a, b) == Some(true) && Replaces(b, c) == Some(true)
    ensures Replaces(a, c) == Some(true)
  {}

  lemma {:induction false} SurvivorsSubset(updates: seq<Update>)
    ensures forall x :: x in Survivors(updates) ==> x in updates
    ensures forall k :: Deleted(k) in updates ==> Deleted(k) in Survivors(updates)
  {
    if updates != [] {
      SurvivorsSubset(updates[1..]);
      assert updates == [updates[0]] + updates[1..];
      assert forall x, k :: Replaces(x, Deleted(k)) != Some(true);
    }
  }

  /** Whatever replaces `u` in the window is itself replaced only by something
      that replaces `u`, so looking at the survivors is enough. */
  lemma {:induction false} OverriddenBySurvivor(updates: seq<Update>, u: Update)
    ensures Overridden(updates, u) <==> Overridden(Survivors(updates), u)
  {
    SurvivorsSubset(updates);
    if updates != [] && Overridden(updates, u) {
      var rest := updates[1..];
      OverriddenBySurvivor(rest, u);
      if !Overridden(rest, u) {
        var x :| x in updates && Replaces(x, u) == Some(true);
        assert x == updates[0];
        if Overridden(rest, x) {
          var y :| y in rest && Replaces(y, x) == Some(true);
          ReplacesTransitive(y, x, u);
        }
        assert x in Survivors(updates);
      } else {
        var y :| y in Survivors(rest) && Replaces(y, u) == Some(true);
        assert y in Survivors(updates);
      }
    }
  }

  lemma {:induction false} AnyReplacesMeaning(merged: seq<Update>, first: Update)
    ensures first.Deleted? && first in merged ==> AnyReplaces(merged, first) == None
    ensures !(first.Deleted? && first in merged) ==> AnyReplaces(merged, first) == Some(Overridden(merged, first))
  {
    if merged != [] {
      AnyReplacesMeaning(merged[1..], first);
      assert merged == [merged[0]] + merged[1..];
      if Replaces(merged[0], first) == Some(true) {
        assert Overridden(merged, first);
      } else {
        assert Overridden(merged, first) <==> Overridden(merged[1..], first);
      }
    }
  }

  lemma DeletedTwiceStep(updates: seq<Update>)
    requires updates != []
    ensures DeletedTwice(updates) <==>
      DeletedTwice(updates[1..]) || (updates[0].Deleted? && updates[0] in updates[1..])
  {
    var rest := updates[1..];
    if DeletedTwice(updates) {
      var i, j :| 0 <= i < j < |updates| && updates[i].Deleted? && updates[i] == updates[j];
      assert updates[j] == rest[j - 1];
      if i > 0 { assert rest[i - 1] == rest[j - 1] == updates[i]; }
    }
    if DeletedTwice(rest) {
      var i, j :| 0 <= i < j < |rest| && rest[i].Deleted? && rest[i] == rest[j];
      assert updates[i + 1].Deleted? && updates[i + 1] == updates[j + 1];
    }
    if updates[0].Deleted? && updates[0] in rest {
      var j :| 0 <= j < |rest| && rest[j] == updates[0];
      assert updates[0] == updates[j + 1];
    }
  }

  /** `merge` equals its specification, and panics exactly on a double delete. */
  lemma {:induction false} MergeIsSurvivors(updates: seq<Update>)
    ensures DeletedTwice(updates) <==> Merge(updates) == None
    ensures !DeletedTwice(updates) ==> Merge(updates) == Some(Survivors(updates))
  {
    if |updates| == 1 {
      assert Survivors(updates) == updates;
    } else if |updates| >= 2 {
      var rest := updates[1..];
      MergeIsSurvivors(rest);
      DeletedTwiceStep(updates);
      if !DeletedTwice(rest) {
        SurvivorsSubset(rest);
        AnyReplacesMeaning(Survivors(rest), updates[0]);
        OverriddenBySurvivor(rest, updates[0]);
      }
    }
  }

  // ---------------------------------------------------------------------
  // What follows from the specification

  ghost predicate KeptAt(updates: seq<Update>, p: nat) {
    p < |updates| && !Overridden(updates[p + 1..], updates[p])
  }

  /** The positions of the window that no later element of it replaces. */
  ghost function KeptPositions(updates: seq<Update>, from: nat): (ps: seq<nat>)
    requires from <= |updates|
    ensures forall p :: p in ps <==> from <= p && KeptAt(updates, p)
    ensures forall i, j | 0 <= i < j < |ps| :: ps[i] < ps[j]
    decreases |updates| - from
  {
    if from == |updates| then []
    else
      var ps := KeptPositions(updates, from + 1);
      if KeptAt(updates, from) then
        assert forall p :: p in [from] + ps <==> p == from || p in ps;
        assert forall j | 0 <= j < |ps| :: ps[j] in ps;
        [from] + ps
      else ps
  }

  ghost predicate ReadsAt(s: seq<Update>, updates: seq<Update>, ps: seq<nat>) {
    |s| == |ps| && forall i | 0 <= i < |s| :: ps[i] < |updates| && s[i] == updates[ps[i]]
  }

  /** Element i is kept exactly when no later element of the whole window
      replaces it: the survivors are the window read at those positions. */
  lemma {:induction false} SurvivorsAreKept(updates: seq<Update>, from: nat)
    requires from <= |updates|
    ensures ReadsAt(Survivors(updates[from..]), updates, KeptPositions(updates, from))
    decreases |updates| - from
  {
    if from < |updates| {
      SurvivorsAreKept(updates, from + 1);
      assert updates[from..][1..] == updates[from + 1..];
    }
  }

  lemma {:induction false} SurvivorsConcat(a: seq<Update>, b: seq<Update>)
    ensures Survivors(a + b) == Survivors(Survivors(a) + Survivors(b))
  {
    if a == [] {
      assert a + b == b && Survivors(a) + Survivors(b) == Survivors(b);
      SurvivorsIdempotent(b);
    } else {
      var rest := a[1..];
      SurvivorsConcat(rest, b);
      assert (a + b)[1..] == rest + b && (a + b)[0] == a[0];
      OverriddenBySurvivor(rest, a[0]);
      OverriddenBySurvivor(b, a[0]);
      assert forall x :: x in rest + b <==> x in rest || x in b;
      var s := Survivors(rest) + Survivors(b);
      assert forall x :: x in s <==> x in Survivors(rest) || x in Survivors(b);
      assert Overridden(rest + b, a[0]) <==> Overridden(s, a[0]);
      if Overridden(rest, a[0]) {
        assert Survivors(a) == Survivors(rest);
      } else {
        assert Survivors(a) + Survivors(b) == [a[0]] + s;
        assert ([a[0]] + s)[1..] == s;
      }
    }
  }

  lemma {:induction false} SurvivorsIdempotent(updates: seq<Update>)
    ensures Survivors(Survivors(updates)) == Survivors(updates)
  {
    if updates != [] {
      var rest := updates[1..];
      SurvivorsIdempotent(rest);
      OverriddenBySurvivor(rest, updates[0]);
      if !Overridden(rest, updates[0]) {
        assert ([updates[0]] + Survivors(rest))[1..] == Survivors(rest);
      } else {
        assert Survivors(updates) == Survivors(rest);
      }
    }
  }

  lemma DeletedTwiceSurvives(updates: seq<Update>)
    ensures DeletedTwice(Survivors(updates)) ==> DeletedTwice(updates)
  {
    var s := Survivors(updates);
    if DeletedTwice(s) {
      SurvivorsAreKept(updates, 0);
      assert updates[0..] == updates;
      var ps := KeptPositions(updates, 0);
      var i, j :| 0 <= i < j < |s| && s[i].Deleted? && s[i] == s[j];
      assert ps[i] < ps[j] && updates[ps[i]] == updates[ps[j]];
    }
  }

  lemma DeletedTwiceConcat(a: seq<Update>, b: seq<Update>)
    ensures DeletedTwice(a + b) <==>
      DeletedTwice(a) || DeletedTwice(b) || exists k :: Deleted(k) in a && Deleted(k) in b
  {
    var c := a + b;
    if DeletedTwice(c) {
      var i, j :| 0 <= i < j < |c| && c[i].Deleted? && c[i] == c[j];
      if j < |a| {
        assert a[i] == a[j];
      } else if i >= |a| {
        assert b[i - |a|] == b[j - |a|];
      } else {
        assert Deleted(c[i].key) in a && Deleted(c[i].key) in b;
      }
    }
    if DeletedTwice(a) {
      var i, j :| 0 <= i < j < |a| && a[i].Deleted? && a[i] == a[j];
      assert c[i] == c[j];
    }
    if DeletedTwice(b) {
      var i, j :| 0 <= i < j < |b| && b[i].Deleted? && b[i] == b[j];
      assert c[|a| + i] == c[|a| + j];
    }
    if k :| Deleted(k) in a && Deleted(k) in b {
      var i :| 0 <= i < |a| && a[i] == Deleted(k);
      var j :| 0 <= j < |b| && b[j] == Deleted(k);
      assert c[i] == c[|a| + j];
    }
  }

  /** Merging is idempotent, and merging two merged halves is merging the whole. */
  lemma MergeLaws(a: seq<Update>, b: seq<Update>)
    requires !DeletedTwice(a + b)
    ensures Merge(a).Some? && Merge(b).Some?
    ensures Merge(Merge(a).value) == Merge(a)
    ensures Merge(a + b) == Merge(Merge(a).value + Merge(b).value)
  {
    DeletedTwiceConcat(a, b);
    MergeIsSurvivors(a);
    MergeIsSurvivors(b);
    MergeIsSurvivors(a + b);
    DeletedTwiceSurvives(a);
    DeletedTwiceSurvives(b);
    MergeIsSurvivors(Survivors(a));
    SurvivorsIdempotent(a);
    SurvivorsConcat(a, b);
    SurvivorsSubset(a);
    SurvivorsSubset(b);
    DeletedTwiceConcat(Survivors(a), Survivors(b));
    MergeIsSurvivors(Survivors(a) + Survivors(b));
  }

  /** No mention of an object follows its deletion. */
  ghost predicate DeletesAreFinal(updates: seq<Update>) {
    forall i, j | 0 <= i < j < |updates| && updates[i].Deleted? :: !Mentions(updates[j], updates[i].key)
  }

  lemma FinalDeletesAreSingle(updates: seq<Update>)
    requires DeletesAreFinal(updates)
    ensures !DeletedTwice(updates)
  {
    forall i, j | 0 <= i < j < |updates| && updates[i].Deleted?
      ensures updates[i] != updates[j]
    {
      assert !Mentions(updates[j], updates[i].key);
    }
  }

  /** A kept element is replaced by nothing after it. */
  lemma KeptMeansNotReplaced(updates: seq<Update>, p: nat, q: nat)
    requires KeptAt(updates, p) && p < q < |updates|
    ensures Replaces(updates[q], updates[p]) != Some(true)
  {
    assert updates[q] == updates[p + 1..][q - p - 1];
    assert updates[q] in updates[p + 1..];
  }

  /** A deletion is all that is left about a deleted object. */
  lemma DeletionIsAlone(updates: seq<Update>, k: Key)
    requires DeletesAreFinal(updates) && Deleted(k) in updates
    ensures forall x :: x in Survivors(updates) && Mentions(x, k) ==> x == Deleted(k)
  {
    var s := Survivors(updates);
    SurvivorsAreKept(updates, 0);
    assert updates[0..] == updates;
    var ps := KeptPositions(updates, 0);
    forall x | x in s && Mentions(x, k) ensures x == Deleted(k) {
      var d :| 0 <= d < |updates| && updates[d] == Deleted(k);
      var i :| 0 <= i < |s| && s[i] == x;
      assert ps[i] in ps;
      if ps[i] < d {
        KeptMeansNotReplaced(updates, ps[i], d);
      }
    }
  }

  /** Nothing about an object precedes its creation. */
  ghost predicate CreationsAreFirst(updates: seq<Update>) {
    forall i, j | 0 <= i < j < |updates| && updates[j].Created? :: !Mentions(updates[i], updates[j].key)
  }

  /** The updates about one object, in order. */
  function OnKey(updates: seq<Update>, k: Key): (r: seq<Update>)
    ensures forall x :: x in r <==> x in updates && Mentions(x, k)
  {
    if updates == [] then []
    else
      assert updates == [updates[0]] + updates[1..];
      (if Mentions(updates[0], k) then [updates[0]] else []) + OnKey(updates[1..], k)
  }

  /** What a merge leaves about an object: nothing exactly if the window does not
      mention it, its deletion alone, its creation, its last update, or the
      creation and then the last update. */
  lemma {:induction false} MergedShape(updates: seq<Update>, k: Key)
    requires DeletesAreFinal(updates) && CreationsAreFirst(updates)
    ensures var left := OnKey(Survivors(updates), k);
      && IsShape(left, k)
      && (left == [] <==> forall x :: x in updates ==> !Mentions(x, k))
      && (left == [Deleted(k)] <==> Deleted(k) in updates)
      && (left != [Deleted(k)] ==> (Created(k) in left <==> Created(k) in updates) && (Updated(k) in left <==> Updated(k) in updates))
  {
    if updates != [] {
      var first, rest := updates[0], updates[1..];
      assert updates == [first] + rest;
      MergedShape(rest, k);
      SurvivorsSubset(rest);
      var s := Survivors(rest);
      assert ([first] + s)[1..] == s;
      if Mentions(first, k) {
        NothingBeforeFirst(updates, k);
        OverriddenBySurvivor(rest, first);
        OverriddenOnKey(s, first, k);
        assert OnKey(Survivors(updates), k) == if Overridden(rest, first) then OnKey(s, k) else [first] + OnKey(s, k);
      } else {
        assert OnKey(Survivors(updates), k) == OnKey(s, k);
      }
    }
  }

  ghost predicate IsShape(left: seq<Update>, k: Key) {
    left == [] || left == [Deleted(k)] || left == [Created(k)] || left == [Updated(k)] || left == [Created(k), Updated(k)]
  }

  lemma NothingBeforeFirst(updates: seq<Update>, k: Key)
    requires DeletesAreFinal(updates) && CreationsAreFirst(updates) && updates != [] && Mentions(updates[0], k)
    ensures forall x :: x in updates[1..] && Mentions(x, k) ==> !x.Created? && !updates[0].Deleted?
  {
    forall x | x in updates[1..] && Mentions(x, k) ensures !x.Created? && !updates[0].Deleted? {
      var i :| 0 <= i < |updates[1..]| && updates[1..][i] == x;
      assert updates[i + 1] == x;
    }
  }

  lemma OverriddenOnKey(rest: seq<Update>, u: Update, k: Key)
    requires Mentions(u, k)
    ensures Overridden(rest, u) <==>
      (Updated(k) in OnKey(rest, k) && u == Updated(k)) || (Deleted(k) in OnKey(rest, k) && !u.Deleted?)
  {
    if Updated(k) in rest && u == Updated(k) {
      assert Replaces(Updated(k), u) == Some(true);
    }
    if Deleted(k) in rest && !u.Deleted? {
      assert Replaces(Deleted(k), u) == Some(true);
    }
  }

  lemma {:induction false} LastMentionSurvives(updates: seq<Update>, k: Key)
    requires exists x :: x in updates && Mentions(x, k)
    ensures exists x :: x in Survivors(updates) && Mentions(x, k)
  {
    var rest := updates[1..];
    if exists x :: x in rest && Mentions(x, k) {
      LastMentionSurvives(rest, k);
      var x :| x in Survivors(rest) && Mentions(x, k);
      assert x in Survivors(updates);
    } else {
      assert Mentions(updates[0], k);
      assert !Overridden(rest, updates[0]);
      assert updates[0] in Survivors(updates);
    }
  }

  // ---------------------------------------------------------------------
  // Updates about no object

  function Refreshes(updates: seq<Update>): seq<Update> {
    if updates == [] then []
    else (if updates[0].Refreshed? then [updates[0]] else []) + Refreshes(updates[1..])
  }

  /** Every refresh is left, in order; of the settings and of the updates about
      the user, one of each is left if there was any. */
  lemma {:induction false} MergedRest(updates: seq<Update>)
    requires !DeletedTwice(updates)
    ensures Merge(updates).Some?
    ensures var m := Merge(updates).value;
      && Refreshes(m) == Refreshes(updates)
      && Single(m) && (UserInfoUpdated in m <==> UserInfoUpdated in updates)
      && ((exists x :: x in m && x.SettingsUpdated?) <==> exists x :: x in updates && x.SettingsUpdated?)
  {
    MergeIsSurvivors(updates);
    RestSurvives(updates);
    SingleSurvives(updates);
  }

  lemma {:induction false} RestSurvives(updates: seq<Update>)
    ensures Refreshes(Survivors(updates)) == Refreshes(updates)
    ensures UserInfoUpdated in Survivors(updates) <==> UserInfoUpdated in updates
    ensures (exists x :: x in Survivors(updates) && x.SettingsUpdated?) <==> exists x :: x in updates && x.SettingsUpdated?
  {
    if updates != [] {
      var rest := updates[1..];
      RestSurvives(rest);
      assert updates == [updates[0]] + rest;
      assert updates[0].Refreshed? ==> !Overridden(rest, updates[0]);
    }
  }

  /** Settings stand once at most, and so does an update about the user. */
  ghost predicate Single(m: seq<Update>) {
    forall i, j | 0 <= i < j < |m| :: !(m[i].SettingsUpdated? && m[j].SettingsUpdated?) && !(m[i].UserInfoUpdated? && m[j].UserInfoUpdated?)
  }

  lemma {:induction false} SingleSurvives(updates: seq<Update>)
    ensures Single(Survivors(updates))
  {
    if updates != [] {
      var rest := updates[1..];
      SingleSurvives(rest);
      SurvivorsSubset(rest);
      hide Survivors;
      forall x | x in Survivors(rest) && Replaces(x, updates[0]) == Some(true) ensures Overridden(rest, updates[0]) {}
      SingleMore(updates[0], Survivors(rest));
    }
    SurvivorsStep(updates);
  }

  lemma SurvivorsStep(updates: seq<Update>)
    ensures Survivors(updates) ==
      if updates == [] then []
      else if Overridden(updates[1..], updates[0]) then Survivors(updates[1..])
      else [updates[0]] + Survivors(updates[1..])
  {}

  lemma SingleMore(u: Update, m: seq<Update>)
    requires Single(m)
    ensures (forall x :: x in m ==> Replaces(x, u) != Some(true)) ==> Single([u] + m)
  {
    var n := [u] + m;
    forall i, j | (forall x :: x in m ==> Replaces(x, u) != Some(true)) && 0 <= i < j < |n|
      ensures !(n[i].SettingsUpdated? && n[j].SettingsUpdated?) && !(n[i].UserInfoUpdated? && n[j].UserInfoUpdated?)
    {
      assert n[j] == m[j - 1] && n[j] in m;
      if i > 0 {
        assert n[i] == m[i - 1];
      }
    }
  }
}
