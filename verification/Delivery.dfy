/** Fetching the log: the client's GetEvent loop and the event stream (event.go)
    against a log that grows between the requests. */
module Delivery {
  import opened Ids
  import opened EventLog

  const MAX_COLLECTED_EVENTS := 50

  /** One answer: the update IDs the event covers, its own ID, and `more`. */
  datatype Window = Window(ids: seq<nat>, eventID: nat, more: bool)

  function Serve(log: seq<nat>, cursor: nat, max: int): Window
    requires log != []
  {
    var last := LastIndex(log, cursor, max);
    Window(log[FirstIndex(log, cursor)..last], log[last - 1], last != |log|)
  }

  /** A window starts right after the cursor, or at the beginning for an unknown
      one. It holds everything up to the limit, and says `more` exactly if the
      log goes on. */
  lemma WindowIsBounded(log: seq<nat>, cursor: nat, max: int) returns (first: nat)
    requires log != [] && Increasing(log)
    ensures first <= |log| && if cursor in log then first > 0 && log[first - 1] == cursor else first == 0
    ensures var w := Serve(log, cursor, max);
      && |w.ids| == (if 0 < max < |log| - first then max else |log| - first)
      && w.ids == log[first..first + |w.ids|] && (w.more <==> first + |w.ids| < |log|)
      && first + |w.ids| > 0 && w.eventID == log[first + |w.ids| - 1]
  {
    first := IndexOf(log, cursor) + 1;
  }

  /** What the n-th request meets: the account's log, the server's limit, and
      whether the request succeeds. */
  datatype Server = Server(log: nat -> seq<nat>, max: nat -> int, up: nat -> bool)

  /** Between requests m and n the log only grows, and its IDs increase. */
  ghost predicate Grows(s: Server, m: nat, n: nat) {
    s.log(n) != [] && Increasing(s.log(n)) && s.log(m) <= s.log(n)
  }

  ghost predicate Growing(s: Server) {
    forall m: nat, n: nat | m <= n :: Grows(s, m, n)
  }

  /** The window covers exactly the log after position p up to position q, its
      ID is the last one covered, and if it says `more` it covers something. */
  ghost predicate Covers(log: seq<nat>, w: Window, p: nat, q: nat) {
    p <= q < |log| && w.ids == log[p + 1..q + 1] && w.eventID == log[q] && (w.more ==> p < q)
  }

  /** Window i covers the log between positions ps[i] and ps[i + 1]. */
  ghost predicate Contiguous(log: seq<nat>, ws: seq<Window>, ps: seq<nat>) {
    |ps| == |ws| + 1 && forall i | 0 <= i < |ws| :: Covers(log, ws[i], ps[i], ps[i + 1])
  }

  lemma ContiguousSnoc(log: seq<nat>, ws: seq<Window>, ps: seq<nat>, w: Window, q: nat)
    requires Contiguous(log, ws, ps) && Covers(log, w, ps[|ws|], q)
    ensures Contiguous(log, ws + [w], ps + [q])
  {}

  lemma CoversInLongerLog(log: seq<nat>, longer: seq<nat>, w: Window, p: nat, q: nat)
    requires Covers(log, w, p, q) && log <= longer
    ensures Covers(longer, w, p, q)
  {}

  lemma ContiguousInLongerLog(log: seq<nat>, longer: seq<nat>, ws: seq<Window>, ps: seq<nat>)
    requires Contiguous(log, ws, ps) && log <= longer
    ensures Contiguous(longer, ws, ps)
  {
    forall i | 0 <= i < |ws| ensures Covers(longer, ws[i], ps[i], ps[i + 1]) {
      CoversInLongerLog(log, longer, ws[i], ps[i], ps[i + 1]);
    }
  }

  lemma ServeFromPosition(log: seq<nat>, p: nat, max: int)
    requires Increasing(log) && p < |log|
    ensures var w, q := Serve(log, log[p], max), LastIndex(log, log[p], max) - 1;
      && q >= 0 && Covers(log, w, p, q)
      && (w.more <==> q < |log| - 1)
      && (w.more ==> q == p + max && max > 0)
  {
    FirstIndexAt(log, p);
  }

  /** What a call has fetched so far: contiguous windows from the cursor on,
      all but the last saying `more`, and the last one saying so exactly when
      the log goes on. */
  ghost predicate Fetched(log: seq<nat>, cursor: nat, ws: seq<Window>, ps: seq<nat>) {
    && ws != [] && Contiguous(log, ws, ps) && ps[0] < |log| && log[ps[0]] == cursor
    && (forall i | 0 <= i < |ws| - 1 :: ws[i].more)
    && (ws[|ws| - 1].more <==> ps[|ws|] < |log| - 1)
  }

  lemma FetchOneMore(log: seq<nat>, longer: seq<nat>, cursor: nat, ws: seq<Window>, ps: seq<nat>, max: int, w: Window)
      returns (q: nat)
    requires Fetched(log, cursor, ws, ps) && ws[|ws| - 1].more && log <= longer && Increasing(longer)
    requires w == Serve(longer, ws[|ws| - 1].eventID, max)
    ensures Fetched(longer, cursor, ws + [w], ps + [q])
  {
    var p := ps[|ws|];
    assert Covers(log, ws[|ws| - 1], ps[|ws| - 1], p);
    ContiguousInLongerLog(log, longer, ws, ps);
    ServeFromPosition(longer, p, max);
    q := LastIndex(longer, longer[p], max) - 1;
    ContiguousSnoc(longer, ws, ps, w, q);
  }

  lemma FetchFirst(log: seq<nat>, cursor: nat, max: int)
    requires Increasing(log) && cursor in log
    ensures var w, p, q := Serve(log, cursor, max), IndexOf(log, cursor), LastIndex(log, cursor, max) - 1;
      p >= 0 && q >= 0 && Fetched(log, cursor, [w], [p, q])
  {
    hide Serve, LastIndex, Covers, Increasing, Fetched;
    var p := IndexOf(log, cursor);
    ServeFromPosition(log, p, max);
    OneWindow(log, cursor, Serve(log, cursor, max), p, LastIndex(log, cursor, max) - 1);
  }

  lemma OneWindow(log: seq<nat>, cursor: nat, w: Window, p: nat, q: nat)
    requires Covers(log, w, p, q) && p < |log| && log[p] == cursor && (w.more <==> q < |log| - 1)
    ensures Fetched(log, cursor, [w], [p, q])
  {}

  /** The collection loop of Client.GetEvent, after the first event: while the
      last event says `more`, up to the limit. */
  method CollectMore(s: Server, n: nat, ghost cursor: nat, first: Window, ghost firstPs: seq<nat>)
      returns (events: seq<Window>, failed: bool, ghost ps: seq<nat>)
    requires Growing(s) && s.up(n) && Fetched(s.log(n), cursor, [first], firstPs)
    ensures failed ==> events == [] && exists k :: n <= k < n + MAX_COLLECTED_EVENTS && !s.up(k)
    ensures !failed ==> 1 <= |events| <= MAX_COLLECTED_EVENTS && forall k | n <= k < n + |events| :: s.up(k)
    ensures !failed ==> Fetched(s.log(n + |events| - 1), cursor, events, ps)
    ensures !failed && events[|events| - 1].more ==> |events| == MAX_COLLECTED_EVENTS
  {
    hide Fetched, Growing;
    events, ps, failed := [first], firstPs, false;
    while events[|events| - 1].more && |events| < MAX_COLLECTED_EVENTS
      invariant 1 <= |events| <= MAX_COLLECTED_EVENTS
      invariant forall k | n <= k < n + |events| :: s.up(k)
      invariant Fetched(s.log(n + |events| - 1), cursor, events, ps)
      decreases MAX_COLLECTED_EVENTS - |events|
    {
      if !s.up(n + |events|) {
        return [], true, ps;
      }
      var event;
      event, ps := FetchNext(s, n + |events|, cursor, events, ps);
      events := events + [event];
    }
  }

  /** Client.GetEvent, started at request `n`: either a failed request and no
      events, or contiguous windows; `ps` are the log positions they end at. */
  method GetEvent(s: Server, n: nat, cursor: nat) returns (events: seq<Window>, more: bool, failed: bool, ghost ps: seq<nat>)
    requires Growing(s) && cursor in s.log(n)
    ensures failed ==> events == [] && exists k :: n <= k < n + MAX_COLLECTED_EVENTS && !s.up(k)
    ensures !failed ==> 1 <= |events| <= MAX_COLLECTED_EVENTS && forall k | n <= k < n + |events| :: s.up(k)
    ensures !failed ==> Fetched(s.log(n + |events| - 1), cursor, events, ps) && more == events[|events| - 1].more
    ensures !failed && more ==> |events| == MAX_COLLECTED_EVENTS
  {
    assert Grows(s, n, n);
    if !s.up(n) {
      return [], false, true, [];
    }
    var first := Serve(s.log(n), cursor, s.max(n));
    FetchFirst(s.log(n), cursor, s.max(n));
    events, failed, ps := CollectMore(s, n, cursor, first, [IndexOf(s.log(n), cursor), LastIndex(s.log(n), cursor, s.max(n)) - 1]);
    more := !failed && events[|events| - 1].more;
  }

  /** One more request, at the ID the last event ended on. */
  method FetchNext(s: Server, k: nat, ghost cursor: nat, events: seq<Window>, ghost ps: seq<nat>)
      returns (event: Window, ghost ps': seq<nat>)
    requires Growing(s) && k > 0
    requires Fetched(s.log(k - 1), cursor, events, ps) && events[|events| - 1].more
    ensures Fetched(s.log(k), cursor, events + [event], ps')
  {
    assert Grows(s, k - 1, k);
    event := Serve(s.log(k), events[|events| - 1].eventID, s.max(k));
    ghost var q := FetchOneMore(s.log(k - 1), s.log(k), cursor, events, ps, s.max(k), event);
    ps' := ps + [q];
  }

  ghost function Concat(ws: seq<Window>): seq<nat> {
    if ws == [] then [] else Concat(ws[..|ws| - 1]) + ws[|ws| - 1].ids
  }

  lemma ConcatSnoc(ws: seq<Window>, w: Window)
    ensures Concat(ws + [w]) == Concat(ws) + w.ids
  {
    assert (ws + [w])[..|ws|] == ws;
  }

  /** So the windows together are the log from the cursor on, each update once. */
  lemma {:induction false} WindowsCoverTheLog(log: seq<nat>, ws: seq<Window>, ps: seq<nat>, k: nat)
    requires Contiguous(log, ws, ps) && k <= |ws| && ps[0] < |log|
    ensures ps[0] <= ps[k] < |log| && Concat(ws[..k]) == log[ps[0] + 1..ps[k] + 1]
  {
    if k > 0 {
      assert Covers(log, ws[k - 1], ps[k - 1], ps[k - 1 + 1]);
      WindowsCoverTheLog(log, ws, ps, k - 1);
      assert ws[..k][..k - 1] == ws[..k - 1];
      JoinSlices(log, ps[0] + 1, ps[k - 1] + 1, ps[k] + 1);
    }
  }

  /** Handing out one more window extends what was delivered to its end. */
  lemma Advances(log: seq<nat>, origin: nat, delivered: seq<nat>, w: Window, p: nat, q: nat)
    requires Covers(log, w, p, q) && origin <= p && delivered == log[origin + 1..p + 1]
    ensures origin <= q < |log| && log[q] == w.eventID && delivered + w.ids == log[origin + 1..q + 1]
  {
    JoinSlices(log, origin + 1, p + 1, q + 1);
  }

  /** The stream of NewEventStream: its cursor and, as ghosts, the log
      positions it was opened at and has reached, and all it has handed out. */
  class EventStream {
    var lastEventID: nat
    ghost var origin: nat
    ghost var reached: nat
    ghost var delivered: seq<nat>

    /** The updates handed out are exactly the log between the position the
        stream was opened at and its cursor. */
    ghost predicate Delivered(log: seq<nat>)
      reads this
    {
      origin <= reached < |log| && log[reached] == lastEventID && delivered == log[origin + 1..reached + 1]
    }

    constructor (lastEventID: nat, ghost log: seq<nat>)
      requires lastEventID in log
      ensures this.lastEventID == lastEventID && delivered == [] && Delivered(log)
    {
      this.lastEventID := lastEventID;
      origin, reached := IndexOf(log, lastEventID), IndexOf(log, lastEventID);
      delivered := [];
    }

    /** Hands out one event and moves the cursor to its end. */
    method HandOut(evt: Window, ghost log: seq<nat>, ghost q: nat)
      requires Delivered(log) && Covers(log, evt, reached, q)
      modifies this
      ensures Delivered(log) && origin == old(origin) && reached == q && delivered == old(delivered) + evt.ids
    {
      Advances(log, origin, delivered, evt, reached, q);
      lastEventID := evt.eventID;
      delivered := delivered + evt.ids;
      reached := q;
    }

    /** Hands out fetched events until the receiver cancels after `taken`. */
    method Send(events: seq<Window>, taken: nat, ghost log: seq<nat>, ghost ps: seq<nat>) returns (sent: seq<Window>)
      requires Delivered(log) && Contiguous(log, events, ps) && ps[0] == reached
      modifies this
      ensures Delivered(log) && origin == old(origin)
      ensures sent <= events && delivered == old(delivered) + Concat(sent)
      ensures |sent| == (if taken < |events| then taken else |events|) && reached == ps[|sent|]
    {
      sent := [];
      while |sent| < |events| && |sent| < taken
        invariant |sent| <= |events| && |sent| <= taken && sent == events[..|sent|]
        invariant Delivered(log) && origin == old(origin) && reached == ps[|sent|]
        invariant delivered == old(delivered) + Concat(sent)
      {
        var evt := events[|sent|];
        assert Covers(log, evt, ps[|sent|], ps[|sent| + 1]);
        hide Concat, Contiguous, Covers, Delivered;
        HandOut(evt, log, ps[|sent| + 1]);
        ConcatSnoc(sent, evt);
        AppendTwice(old(delivered), Concat(sent), evt.ids);
        sent := sent + [evt];
      }
    }

    /** One tick of the ticker. A failed fetch changes nothing, a cancelled one
        keeps the cursor at the last event handed out: nothing is lost or
        repeated. `used` is the request after the last one of the tick. */
    method Tick(s: Server, n: nat, taken: nat) returns (sent: seq<Window>, failed: bool, ghost used: nat)
      requires Growing(s) && Delivered(s.log(n))
      modifies this
      ensures n < used && origin == old(origin) && Delivered(s.log(used - 1))
      ensures delivered == old(delivered) + Concat(sent)
      ensures failed ==> sent == [] && lastEventID == old(lastEventID) && exists k :: n <= k < n + MAX_COLLECTED_EVENTS && !s.up(k)
      ensures !failed && taken >= MAX_COLLECTED_EVENTS ==>
        reached == |s.log(used - 1)| - 1 || used - n == MAX_COLLECTED_EVENTS
    {
      assert Grows(s, n, n);
      var events, more;
      ghost var ps;
      events, more, failed, ps := GetEvent(s, n, lastEventID);
      if failed {
        return [], true, n + 1;
      }
      used := n + |events|;
      assert Grows(s, n, used - 1);
      ghost var log := s.log(used - 1);
      WindowsAscend(log, events, ps);
      if events[|events| - 1].eventID == lastEventID {
        assert ps[|events|] == reached;
        return [], false, used;
      }
      sent := Send(events, taken, log, ps);
    }
  }

  lemma {:induction false} WindowsAscend(log: seq<nat>, ws: seq<Window>, ps: seq<nat>)
    requires Contiguous(log, ws, ps) && ps[0] < |log|
    ensures ps[0] <= ps[|ws|] < |log| && (ws != [] ==> log[ps[|ws|]] == ws[|ws| - 1].eventID)
  {
    if ws != [] {
      assert Covers(log, ws[|ws| - 1], ps[|ws| - 1], ps[|ws| - 1 + 1]);
      WindowsAscend(log, ws[..|ws| - 1], ps[..|ws|]);
    }
  }
}
