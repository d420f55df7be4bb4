/** Fetching a list page by page or after a cursor (paging.go, message.go,
    contact.go, and the server side in server/backend/api.go). */
module Paging {
  import opened Ids

  const MAX_PAGE_SIZE := 150
  const MAX_MESSAGE_IDS := 1000
  const DEFAULT_PAGE_SIZE := 100

  function Min(a: int, b: int): int { if a < b then a else b }

  /** xslices.Chunk: consecutive pieces of `size`, the last one shorter. */
  function Chunk<T>(s: seq<T>, size: nat): seq<seq<T>>
    requires size > 0
  {
    if s == [] then [] else [s[..Min(size, |s|)]] + Chunk(s[Min(size, |s|)..], size)
  }

  function Flatten<T>(pages: seq<seq<T>>): seq<T> {
    if pages == [] then [] else Flatten(pages[..|pages| - 1]) + pages[|pages| - 1]
  }

  /** Where page `page` starts. */
  function Start(page: nat, size: nat): nat {
    if page == 0 then 0 else Start(page - 1, size) + size
  }

  /** Page `page` of `s`; empty past the end. */
  function Page<T>(s: seq<T>, size: nat, page: nat): seq<T> {
    From(s, Start(page, size), size)
  }

  /** At most `size` elements from position `at` on. */
  function From<T>(s: seq<T>, at: nat, size: nat): seq<T> { s[Min(at, |s|)..Min(at + size, |s|)] }

  lemma {:induction false} StartIsProduct(page: nat, size: nat)
    ensures Start(page, size) == page * size
  {
    if page > 0 {
      StartIsProduct(page - 1, size);
    }
  }

  lemma {:induction false} ChunkAt<T>(s: seq<T>, size: nat, page: nat)
    requires size > 0
    ensures page < |Chunk(s, size)| <==> Start(page, size) < |s|
    ensures Page(s, size, page) == if page < |Chunk(s, size)| then Chunk(s, size)[page] else []
    decreases page
  {
    if s != [] && page > 0 {
      var m := Min(size, |s|);
      ChunkAt(s[m..], size, page - 1);
      PageOfRest(s, size, page);
    }
  }

  lemma PageOfRest<T>(s: seq<T>, size: nat, page: nat)
    requires size > 0 && page > 0
    ensures Page(s, size, page) == if Start(page, size) < |s| then Page(s[Min(size, |s|)..], size, page - 1) else []
  {
    if Start(page, size) < |s| {
      FromRest(s, Start(page - 1, size), size);
    }
  }

  lemma FromRest<T>(s: seq<T>, at: nat, size: nat)
    requires at + size < |s|
    ensures From(s[size..], at, size) == From(s, at + size, size)
  {
    SliceOfRest(s, size, at, Min(at + size, |s| - size));
  }

  /** The first pages end to end are a prefix. */
  lemma {:induction false} FirstPages<T>(s: seq<T>, size: nat, pages: seq<seq<T>>)
    requires forall p | 0 <= p < |pages| :: pages[p] == Page(s, size, p)
    ensures Flatten(pages) == s[..Min(Start(|pages|, size), |s|)]
  {
    if pages != [] {
      var n := |pages| - 1;
      FirstPages(s, size, pages[..n]);
      var a, b := Min(Start(n, size), |s|), Min(Start(n + 1, size), |s|);
      assert s[..a] + s[a..b] == s[..b];
    }
  }

  lemma LastPageReachesEnd(total: nat, size: nat)
    requires size > 0
    ensures total < Start(total / size + 1, size)
    ensures total % size != 0 ==> Start(total / size, size) < total
    ensures total % size == 0 ==> Start(total / size, size) == total
  {
    StartIsProduct(total / size, size);
    assert total == total / size * size + total % size;
  }

  lemma {:induction false} StartIsMonotonic(i: nat, j: nat, size: nat)
    requires i < j
    ensures Start(i, size) + size <= Start(j, size)
  {
    if i + 1 < j {
      StartIsMonotonic(i, j - 1, size);
    }
  }

  // ---------------------------------------------------------------------
  // Page numbers: message metadata

  datatype Metadata = Metadata(id: Id, subject: string, addressID: Id, externalID: string, labelIDs: seq<Id>)

  datatype Filter = Filter(ids: seq<Id>, subject: string, addressID: Id, externalID: string, labelID: Id, endID: Id, desc: bool)

  predicate Contains(s: string, sub: string) {
    sub <= s || (s != "" && Contains(s[1..], sub))
  }

  predicate Matches(m: Metadata, f: Filter) {
    && (f.ids == [] || m.id in f.ids)
    && (f.subject == "" || Contains(m.subject, f.subject))
    && (f.addressID == NoId || f.addressID == m.addressID)
    && (f.externalID == "" || f.externalID == m.externalID)
    && (f.labelID == NoId || f.labelID in m.labelIDs)
  }

  function Reverse<T>(s: seq<T>): (r: seq<T>)
    ensures |r| == |s|
  {
    if s == [] then [] else Reverse(s[1..]) + [s[0]]
  }

  function Keep(ms: seq<Metadata>, f: Filter): (r: seq<Metadata>)
    ensures |r| <= |ms|
  {
    if ms == [] then [] else (if Matches(ms[0], f) then [ms[0]] else []) + Keep(ms[1..], f)
  }

  function FromID(ms: seq<Metadata>, id: Id): (r: seq<Metadata>)
    ensures |r| <= |ms|
  {
    if ms == [] || ms[0].id == id then ms else FromID(ms[1..], id)
  }

  predicate HasID(ms: seq<Metadata>, id: Id) {
    exists i :: 0 <= i < |ms| && ms[i].id == id
  }

  /** The whole answer to a filter, before it is cut into pages. */
  function Select(ms: seq<Metadata>, f: Filter): (r: seq<Metadata>)
    ensures |r| <= |ms|
  {
    var ordered := if f.desc then Reverse(ms) else ms;
    Keep(if f.endID != NoId && HasID(ordered, f.endID) then FromID(ordered, f.endID) else ordered, f)
  }

  /** The server's page, after the handler's defaults. */
  function GetMessages(ms: seq<Metadata>, page: int, pageSize: int, f: Filter): seq<Metadata> {
    var page := if page <= 0 then 0 else page;
    var pageSize := if pageSize <= 0 then DEFAULT_PAGE_SIZE else pageSize;
    var pages := Chunk(Select(ms, f), pageSize);
    if page >= |pages| then [] else pages[page]
  }

  // ---------------------------------------------------------------------
  // What a filter selects

  ghost predicate OccursIn(s: string, sub: string) {
    exists i :: 0 <= i <= |s| && sub <= s[i..]
  }

  lemma {:induction false} ContainsIs(s: string, sub: string)
    ensures Contains(s, sub) <==> OccursIn(s, sub)
  {
    assert s[0..] == s;
    if s != "" {
      ContainsIs(s[1..], sub);
      forall i | 0 <= i <= |s[1..]| ensures s[1..][i..] == s[i + 1..] {}
      if OccursIn(s, sub) && !(sub <= s) {
        var i :| 0 <= i <= |s| && sub <= s[i..];
        assert s[1..][i - 1..] == s[i..];
      }
    }
  }

  /** The message meets every criterion that is given. */
  ghost predicate Meets(m: Metadata, f: Filter) {
    && (f.ids != [] ==> m.id in f.ids)
    && (f.subject != "" ==> OccursIn(m.subject, f.subject))
    && (f.addressID != NoId ==> m.addressID == f.addressID)
    && (f.externalID != "" ==> m.externalID == f.externalID)
    && (f.labelID != NoId ==> f.labelID in m.labelIDs)
  }

  /** The mailbox in its own or the opposite order. */
  ghost function Ordered(ms: seq<Metadata>, desc: bool): (r: seq<Metadata>)
    ensures |r| == |ms|
  {
    seq(|ms|, i requires 0 <= i < |ms| => if desc then ms[|ms| - 1 - i] else ms[i])
  }

  /** The first message with the end ID, or the first one of all if there is none. */
  ghost predicate StartsAt(all: seq<Metadata>, endID: Id, start: nat) {
    && start <= |all| && (forall i | 0 <= i < start :: all[i].id != endID)
    && (endID != NoId && (exists i :: 0 <= i < |all| && all[i].id == endID) ==> start < |all| && all[start].id == endID)
    && (endID == NoId || (forall i | 0 <= i < |all| :: all[i].id != endID) ==> start == 0)
  }

  /** `r` reads the list at the ascending positions, which are those of the
      messages from `start` on that meet the filter. */
  ghost predicate Picks(all: seq<Metadata>, f: Filter, start: nat, ps: seq<nat>, r: seq<Metadata>) {
    && |ps| == |r| && (forall i, j | 0 <= i < j < |ps| :: ps[i] < ps[j])
    && (forall j | 0 <= j < |ps| :: start <= ps[j] < |all| && r[j] == all[ps[j]] && Meets(all[ps[j]], f))
    && (forall p | start <= p < |all| && Meets(all[p], f) :: p in ps)
  }

  lemma {:induction false} ReverseAt<T>(s: seq<T>, i: nat)
    requires i < |s|
    ensures Reverse(s)[i] == s[|s| - 1 - i]
  {
    if i < |s| - 1 {
      ReverseAt(s[1..], i);
    }
  }

  lemma {:induction false} FromFirst(ms: seq<Metadata>, id: Id) returns (start: nat)
    ensures start <= |ms| && FromID(ms, id) == ms[start..] && (forall i | 0 <= i < start :: ms[i].id != id)
    ensures start < |ms| ==> ms[start].id == id
  {
    if ms == [] || ms[0].id == id {
      start := 0;
    } else {
      start := FromFirst(ms[1..], id);
      start := start + 1;
    }
  }

  lemma PickMore(all: seq<Metadata>, f: Filter, start: nat, ps: seq<nat>, r: seq<Metadata>)
    requires start < |all| && Picks(all, f, start + 1, ps, r)
    ensures Meets(all[start], f) ==> Picks(all, f, start, [start] + ps, [all[start]] + r)
    ensures !Meets(all[start], f) ==> Picks(all, f, start, ps, r)
  {
    hide Meets;
    forall p | start <= p < |all| && Meets(all[p], f) ensures p in [start] + ps && (p > start ==> p in ps) {
      assert ([start] + ps)[0] == start;
      assert p > start ==> p in ps;
      assert forall q :: q in ps ==> q in [start] + ps;
    }
  }

  lemma MatchesIs(m: Metadata, f: Filter)
    ensures Matches(m, f) <==> Meets(m, f)
  {
    ContainsIs(m.subject, f.subject);
    hide OccursIn, Contains;
  }

  lemma {:induction false} KeepPicks(all: seq<Metadata>, f: Filter, start: nat) returns (ps: seq<nat>)
    requires start <= |all|
    ensures Picks(all, f, start, ps, Keep(all[start..], f))
    decreases |all| - start
  {
    ps := [];
    if start < |all| {
      hide Meets, Matches, Picks;
      ps := KeepPicks(all, f, start + 1);
      MatchesIs(all[start], f);
      assert all[start..] == [all[start]] + all[start + 1..];
      PickMore(all, f, start, ps, Keep(all[start + 1..], f));
      if Meets(all[start], f) {
        ps := [start] + ps;
      } else {
        assert [] + Keep(all[start + 1..], f) == Keep(all[start + 1..], f);
      }
    }
  }

  /** Selecting keeps, in the asked order and from the end ID on, exactly the
      messages that meet the filter. */
  lemma SelectIs(ms: seq<Metadata>, f: Filter) returns (start: nat, ps: seq<nat>)
    ensures StartsAt(Ordered(ms, f.desc), f.endID, start)
    ensures Picks(Ordered(ms, f.desc), f, start, ps, Select(ms, f))
  {
    var all := Ordered(ms, f.desc);
    OrderedIs(ms, f.desc);
    hide Picks, Ordered, Matches;
    start := 0;
    if f.endID != NoId && HasID(all, f.endID) {
      start := FromFirst(all, f.endID);
    }
    assert all[0..] == all;
    ps := KeepPicks(all, f, start);
  }

  lemma OrderedIs(ms: seq<Metadata>, desc: bool)
    ensures Ordered(ms, desc) == if desc then Reverse(ms) else ms
  {
    forall i | desc && 0 <= i < |ms| ensures Reverse(ms)[i] == ms[|ms| - 1 - i] {
      ReverseAt(ms, i);
    }
  }

  /** A page is a slice of the selection; without a page or a size it is the
      first one, of a hundred messages. */
  lemma PageIs(ms: seq<Metadata>, page: int, pageSize: int, f: Filter)
    ensures var size := if pageSize > 0 then pageSize else 100;
      var at, all := if page > 0 then page * size else 0, Select(ms, f);
      GetMessages(ms, page, pageSize, f) == if at < |all| then all[at..Min(at + size, |all|)] else []
  {
    var size := if pageSize > 0 then pageSize else 100;
    var p := if page > 0 then page else 0;
    StartIsProduct(p, size);
    ChunkAt(Select(ms, f), size, p);
  }

  /** The client's fetchPaged: the pages 0..total/pageSize, in order. */
  function FetchPaged<T>(total: nat, pageSize: nat, fetch: nat -> seq<T>): seq<T>
    requires pageSize > 0
  {
    Flatten(seq(total / pageSize + 1, fetch))
  }

  /** GetMessageMetadataPage with the client's page size. */
  function MetadataPage(ms: seq<Metadata>, f: Filter): nat -> seq<Metadata> {
    p => GetMessages(ms, p, MAX_PAGE_SIZE, f)
  }

  /** GetMessageMetadata: the count is the unfiltered total. */
  function GetMessageMetadata(ms: seq<Metadata>, f: Filter): seq<Metadata> {
    FetchPaged(|ms|, MAX_PAGE_SIZE, MetadataPage(ms, f))
  }

  /** On an unchanged mailbox the pages are exactly the filtered list, also
      when the total is a multiple of the page size or above the filtered length. */
  lemma MetadataIsComplete(ms: seq<Metadata>, f: Filter)
    ensures GetMessageMetadata(ms, f) == Select(ms, f)
  {
    hide Select, GetMessages, Start, Flatten;
    var total, size, all := |ms|, MAX_PAGE_SIZE, Select(ms, f);
    var pages := seq(total / size + 1, MetadataPage(ms, f));
    forall p | 0 <= p < |pages| ensures pages[p] == Page(all, size, p) {
      MetadataPageIs(ms, f, p);
    }
    FirstPages(all, size, pages);
    LastPageReachesEnd(total, size);
  }

  lemma MetadataPageIs(ms: seq<Metadata>, f: Filter, p: nat)
    ensures GetMessages(ms, p, MAX_PAGE_SIZE, f) == Page(Select(ms, f), MAX_PAGE_SIZE, p)
  {
    hide Select;
    ChunkAt(Select(ms, f), MAX_PAGE_SIZE, p);
  }

  // ---------------------------------------------------------------------
  // Page numbers: contacts

  /** GetUserContacts on the contacts sorted by ID; Err is the slice index
      panic on a page that does not exist. */
  function GetUserContacts<T>(sorted: seq<T>, page: nat, pageSize: nat): Result<(nat, seq<T>)>
    requires pageSize > 0
  {
    var pages := Chunk(sorted, pageSize);
    if page < |pages| then Ok((|sorted|, pages[page])) else Err
  }

  /** GetUserContactEmails: a short list is returned whole and unsorted. */
  function GetUserContactEmails<T>(emails: seq<T>, sorted: seq<T>, page: nat, pageSize: nat): Result<(nat, seq<T>)>
    requires pageSize > 0
  {
    if |emails| < pageSize then Ok((|emails|, emails)) else GetUserContacts(sorted, page, pageSize)
  }

  /** What fetching page `i` adds to the pages before it. */
  lemma NextBatch<T>(sorted: seq<T>, pageSize: nat, i: nat)
    requires 0 < pageSize && i <= |sorted| / pageSize
    ensures match GetUserContacts(sorted, i, pageSize)
      case Err => i == |sorted| / pageSize && |sorted| % pageSize == 0
      case Ok((_, batch)) =>
        && (i == |sorted| / pageSize ==> |sorted| % pageSize != 0)
        && sorted[..Min(Start(i, pageSize), |sorted|)] + batch == sorted[..Min(Start(i + 1, pageSize), |sorted|)]
  {
    ChunkAt(sorted, pageSize, i);
    LastPageReachesEnd(|sorted|, pageSize);
    if i < |sorted| / pageSize {
      StartIsMonotonic(i, |sorted| / pageSize, pageSize);
    }
  }

  /** The page loop shared by GetAllContactsPaged and GetAllContactEmailsPaged. */
  method RemainingPages<T>(sorted: seq<T>, firstBatch: seq<T>, pageSize: nat) returns (res: Result<seq<T>>)
    requires 0 < pageSize < |sorted| && firstBatch == sorted[..pageSize]
    ensures res == if |sorted| % pageSize == 0 then Err else Ok(sorted)
  {
    var all := firstBatch;
    var remainingPages := |sorted| / pageSize + 1;
    LastPageReachesEnd(|sorted|, pageSize);
    var i := 1;
    while i < remainingPages
      invariant 1 <= i <= remainingPages
      invariant all == sorted[..Min(Start(i, pageSize), |sorted|)]
      invariant |sorted| % pageSize == 0 ==> i < remainingPages
    {
      NextBatch(sorted, pageSize, i);
      match GetUserContacts(sorted, i, pageSize) {
        case Err =>
          assert i == |sorted| / pageSize;
          return Err;
        case Ok((_, batch)) =>
          all := all + batch;
      }
      i := i + 1;
    }
    assert all == sorted;
    res := Ok(all);
  }

  /** Every contact once and in ID order - exactly when there is a contact, and
      the total fits one page or is not a multiple of the page size. Otherwise
      the client asks for a page past the end and fails. */
  method GetAllContactsPaged<T>(sorted: seq<T>, pageSize: nat) returns (res: Result<seq<T>>)
    requires pageSize > 0
    ensures var size := Min(pageSize, MAX_PAGE_SIZE);
      res == if 0 < |sorted| <= size || |sorted| % size != 0 then Ok(sorted) else Err
  {
    var size := Min(pageSize, MAX_PAGE_SIZE);
    ChunkAt(sorted, size, 0);
    match GetUserContacts(sorted, 0, size)
    case Err =>
      return Err;
    case Ok((total, firstBatch)) =>
      assert total <= size ==> Page(sorted, size, 0) == sorted;
      if total <= size {
        return Ok(firstBatch);
      }
      res := RemainingPages(sorted, firstBatch, size);
  }

  /** The same for contact emails, which also copes with an empty list. */
  method GetAllContactEmailsPaged<T>(emails: seq<T>, sorted: seq<T>, pageSize: nat) returns (res: Result<seq<T>>)
    requires pageSize > 0 && multiset(sorted) == multiset(emails)
    ensures var size := Min(pageSize, MAX_PAGE_SIZE);
      && (res.Ok? <==> |emails| <= size || |emails| % size != 0)
      && (res.Ok? ==> multiset(res.value) == multiset(emails))
      && (res.Ok? && |emails| >= size ==> res.value == sorted)
  {
    var size := Min(pageSize, MAX_PAGE_SIZE);
    assert |sorted| == |multiset(sorted)| == |multiset(emails)| == |emails|;
    ChunkAt(sorted, size, 0);
    match GetUserContactEmails(emails, sorted, 0, size)
    case Err =>
      return Err;
    case Ok((total, firstBatch)) =>
      assert total <= size ==> Page(sorted, size, 0) == sorted;
      if total <= size {
        return Ok(firstBatch);
      }
      res := RemainingPages(sorted, firstBatch, size);
  }

  // ---------------------------------------------------------------------
  // Cursors: message IDs

  /** The server's list after `afterID`; an unknown cursor starts over. */
  function After(ids: seq<Id>, afterID: Id): seq<Id> {
    if afterID == NoId then ids else ids[IndexOf(ids, afterID) + 1..]
  }

  function GetMessageIDs(ids: seq<Id>, afterID: Id, limit: nat): seq<Id> {
    var rest := After(ids, afterID);
    if ids == [] then []
    else if limit == 0 then rest
    else rest[..Min(limit, |rest|)]
  }

  /** In a list without repetition the cursor names one place. */
  lemma CursorMoves(ids: seq<Id>, at: nat)
    requires NoDup(ids) && NoId !in ids && at < |ids|
    ensures After(ids, ids[at]) == ids[at + 1..]
  {
    assert ids[at] in ids;
  }

  lemma NextPage(ids: seq<Id>, cursor: Id, at: nat)
    requires at <= |ids| && After(ids, cursor) == ids[at..]
    ensures var page := GetMessageIDs(ids, cursor, MAX_MESSAGE_IDS);
      && at + |page| <= |ids| && page == ids[at..at + |page|] && (page == [] <==> at == |ids|)
      && (page != [] ==> page[|page| - 1] == ids[at + |page| - 1])
  {
    SliceOfRest(ids, at, 0, Min(MAX_MESSAGE_IDS, |ids| - at));
  }

  /** What is fetched so far, and where the cursor stands. */
  ghost predicate FetchedTo(ids: seq<Id>, all: seq<Id>, cursor: Id, from: nat, at: nat) {
    from <= at <= |ids| && all == ids[from..at] && After(ids, cursor) == ids[at..]
  }

  lemma FetchStarts(ids: seq<Id>, afterID: Id) returns (from: nat)
    ensures FetchedTo(ids, [], afterID, from, from)
  {
    from := |ids| - |After(ids, afterID)|;
    assert ids[from..from] == [];
  }

  lemma FetchGoesOn(ids: seq<Id>, all: seq<Id>, cursor: Id, from: nat, at: nat)
    requires NoDup(ids) && NoId !in ids && FetchedTo(ids, all, cursor, from, at)
    ensures var page := GetMessageIDs(ids, cursor, MAX_MESSAGE_IDS);
      && (page == [] ==> at == |ids|)
      && (page != [] ==> at + |page| <= |ids| && FetchedTo(ids, all + page, page[|page| - 1], from, at + |page|))
  {
    hide GetMessageIDs, After, NoDup;
    NextPage(ids, cursor, at);
    var page := GetMessageIDs(ids, cursor, MAX_MESSAGE_IDS);
    if page != [] {
      JoinSlices(ids, from, at, at + |page|);
      CursorMoves(ids, at + |page| - 1);
    }
  }

  lemma FetchEnds(ids: seq<Id>, afterID: Id, all: seq<Id>, cursor: Id, from: nat)
    requires FetchedTo(ids, [], afterID, from, from) && FetchedTo(ids, all, cursor, from, |ids|)
    ensures all == After(ids, afterID)
  {
    hide After;
    assert ids[from..|ids|] == ids[from..];
  }

  /** Fetches until an empty page, whatever the length of the list. */
  method GetAllMessageIDs(ids: seq<Id>, afterID: Id) returns (all: seq<Id>)
    requires NoDup(ids) && NoId !in ids
    ensures all == After(ids, afterID)
  {
    hide After, GetMessageIDs, NoDup;
    all := [];
    var cursor := afterID;
    ghost var from := FetchStarts(ids, afterID);
    ghost var at := from;
    while true
      invariant from <= at <= |ids| && FetchedTo(ids, all, cursor, from, at)
      decreases |ids| - at
    {
      FetchGoesOn(ids, all, cursor, from, at);
      var page := GetMessageIDs(ids, cursor, MAX_MESSAGE_IDS);
      if |page| == 0 {
        FetchEnds(ids, afterID, all, cursor, from);
        return;
      }
      all := all + page;
      at := at + |page|;
      cursor := page[|page| - 1];
    }
  }
}
