/** Token refresh: one client with any number of concurrent requests against
    one server session with a rotating token pair (client.go, and
    server/backend/api_auth.go). */
module Tokens {
  import opened Ids
  import opened Measures

  /** The server's record of the session. `live` is false once the access
      token has outlived its time. */
  datatype Session = Session(acc: Option<nat>, ref: nat, live: bool)

  /** Where one call of doRes stands. Sent and Answered hold authLock for
      reading, the two refresh phases hold it for writing. */
  datatype Phase =
    | Waiting(retry: bool)
    | Sent(retry: bool, acc: nat)
    | Answered(retry: bool, ok: bool)
    | NeedsRefresh
    | RefreshSent(ref: nat)
    | RefreshAnswered(tokens: Option<(nat, nat)>)
    | Finished(ok: bool)

  /** `announced` are the pairs given to the auth handlers, `deauths` the runs
      of the deauth handlers, `once` the state of deauthOnce, `nextToken` the
      supply of fresh tokens. */
  datatype State = State(
    acc: nat, ref: nat, once: bool,
    requests: seq<Phase>,
    session: Option<Session>,
    nextToken: nat,
    announced: seq<(nat, nat)>, deauths: nat)

  datatype Step =
    | Start(i: nat)            // RLock, send the request with the current access token
    | Serve(i: nat)            // the server checks the access token
    | Lose(i: nat)             // the request never reaches the server
    | Leave(i: nat)            // RUnlock, look at the status
    | StartRefresh(i: nat)     // Lock, send the refresh token
    | ServeRefresh(i: nat)     // the server rotates the pair
    | LoseRefresh(i: nat)      // the refresh never reaches the server
    | EndRefresh(i: nat)       // store the pair or deauth, Unlock
    | Expire
    | DeleteSession

  predicate Reads(p: Phase) { p.Sent? || p.Answered? }

  predicate Writes(p: Phase) { p.RefreshSent? || p.RefreshAnswered? }

  predicate NoWriter(s: State) { forall i | 0 <= i < |s.requests| :: !Writes(s.requests[i]) }

  predicate NoHolder(s: State) { forall i | 0 <= i < |s.requests| :: !Writes(s.requests[i]) && !Reads(s.requests[i]) }

  predicate Enabled(s: State, step: Step) {
    match step
    case Start(i) => i < |s.requests| && s.requests[i].Waiting? && NoWriter(s)
    case Serve(i) => i < |s.requests| && s.requests[i].Sent?
    case Lose(i) => i < |s.requests| && s.requests[i].Sent?
    case Leave(i) => i < |s.requests| && s.requests[i].Answered?
    case StartRefresh(i) => i < |s.requests| && s.requests[i].NeedsRefresh? && NoHolder(s)
    case ServeRefresh(i) => i < |s.requests| && s.requests[i].RefreshSent?
    case LoseRefresh(i) => i < |s.requests| && s.requests[i].RefreshSent?
    case EndRefresh(i) => i < |s.requests| && s.requests[i].RefreshAnswered?
    case Expire => s.session.Some?
    case DeleteSession => true
  }

  function Move(s: State, i: nat, p: Phase): State
    requires i < |s.requests|
  {
    s.(requests := s.requests[i := p])
  }

  /** VerifyAuth: an outlived access token is erased, a wrong one refused. */
  function VerifyAuth(session: Option<Session>, acc: nat): (Option<Session>, bool) {
    match session
    case None => (None, false)
    case Some(a) =>
      if !a.live then (Some(a.(acc := None)), false)
      else (session, a.acc == Some(acc))
  }

  /** NewAuthRef: rotates both tokens, or refuses an unknown session or token. */
  function NewAuthRef(s: State, ref: nat): (Option<Session>, Option<(nat, nat)>) {
    if s.session.Some? && s.session.value.ref == ref then
      (Some(Session(Some(s.nextToken), s.nextToken + 1, true)), Some((s.nextToken, s.nextToken + 1)))
    else (s.session, None)
  }

  function Do(s: State, step: Step): State
    requires Enabled(s, step)
  {
    match step
    case Start(i) => Move(s, i, Sent(s.requests[i].retry, s.acc))
    case Serve(i) =>
      var (session, ok) := VerifyAuth(s.session, s.requests[i].acc);
      Move(s, i, Answered(s.requests[i].retry, ok)).(session := session)
    case Lose(i) => Move(s, i, Finished(false))
    case Leave(i) =>
      var Answered(retry, ok) := s.requests[i];
      Move(s, i, if ok then Finished(true) else if retry then Finished(false) else NeedsRefresh)
    case StartRefresh(i) => Move(s, i, RefreshSent(s.ref))
    case ServeRefresh(i) =>
      var (session, tokens) := NewAuthRef(s, s.requests[i].ref);
      Move(s, i, RefreshAnswered(tokens)).(session := session, nextToken := s.nextToken + 2)
    case LoseRefresh(i) => Move(s, i, Finished(false))
    case EndRefresh(i) =>
      (match s.requests[i].tokens
       case Some((acc, ref)) =>
         Move(s, i, Waiting(true)).(acc := acc, ref := ref, announced := s.announced + [(acc, ref)])
       case None =>
         Move(s, i, Finished(false)).(once := true, deauths := if s.once then s.deauths else s.deauths + 1))
    case Expire => s.(session := Some(s.session.value.(live := false)))
    case DeleteSession => s.(session := None)
  }

  /** A fresh client next to its session, with `n` requests about to be made. */
  predicate Initial(s: State) {
    && s.session == Some(Session(Some(s.acc), s.ref, true))
    && (forall i | 0 <= i < |s.requests| :: s.requests[i] == Waiting(false))
    && !s.once && s.announced == [] && s.deauths == 0
  }

  // ---------------------------------------------------------------------
  // The invariant

  /** The session, if any, knows exactly this pair; the access token may have
      been erased once it outlived its time. */
  ghost predicate InStep(session: Option<Session>, acc: nat, ref: nat) {
    session.Some? ==>
      && session.value.ref == ref
      && (session.value.live ==> session.value.acc == Some(acc))
  }

  /** A writer holds the lock alone. */
  ghost predicate Exclusive(rs: seq<Phase>) {
    forall i, j | 0 <= i < |rs| && 0 <= j < |rs| && i != j && Writes(rs[i]) :: !Writes(rs[j]) && !Reads(rs[j])
  }

  ghost predicate NothingAnswered(rs: seq<Phase>) {
    forall i | 0 <= i < |rs| :: !rs[i].RefreshAnswered?
  }

  /** Tokens in flight are the client's current ones, an answered refresh
      carries the server's. */
  ghost predicate InFlight(s: State, p: Phase) {
    match p
    case Sent(_, acc) => acc == s.acc
    case RefreshSent(ref) => ref == s.ref
    case RefreshAnswered(None) => s.session.None?
    case RefreshAnswered(Some((acc, ref))) => InStep(s.session, acc, ref)
    case _ => true
  }

  ghost predicate Inv(s: State) {
    && Exclusive(s.requests)
    && (forall i | 0 <= i < |s.requests| :: InFlight(s, s.requests[i]))
    && (NothingAnswered(s.requests) ==> InStep(s.session, s.acc, s.ref))
    && (s.once ==> s.session.None?)
    && s.deauths == (if s.once then 1 else 0)
    && (s.announced != [] ==> s.announced[|s.announced| - 1] == (s.acc, s.ref))
  }

  /** A request that ends, starts reading, or moves on without the lock. */
  lemma MoveKeepsInv(s: State, i: nat, p: Phase)
    requires Inv(s) && i < |s.requests| && InFlight(s, p)
    requires Writes(p) ==> NoHolder(s)
    requires Reads(p) ==> Reads(s.requests[i]) || NoWriter(s)
    requires !p.RefreshAnswered? && !s.requests[i].RefreshAnswered?
    ensures Inv(Move(s, i, p))
  {
    var rs := Move(s, i, p).requests;
    assert forall k | 0 <= k < |rs| && k != i :: rs[k] == s.requests[k];
    if NothingAnswered(rs) {
      assert NothingAnswered(s.requests);
    }
  }

  lemma RefreshKeepsInv(s: State, step: Step)
    requires Inv(s) && Enabled(s, step) && (step.ServeRefresh? || step.EndRefresh?)
    ensures Inv(Do(s, step))
  {
    var i, t := step.i, Do(s, step);
    assert Writes(s.requests[i]) && t.requests[i] != s.requests[i];
    forall k | 0 <= k < |t.requests| ensures InFlight(t, t.requests[k]) {
      if k != i {
        assert t.requests[k] == s.requests[k] && !Writes(t.requests[k]) && !Reads(t.requests[k]);
      }
    }
    if step.ServeRefresh? {
      assert t.requests[i].RefreshAnswered?;
      assert NothingAnswered(s.requests);
    }
  }

  lemma StepKeepsInv(s: State, step: Step)
    requires Inv(s) && Enabled(s, step)
    ensures Inv(Do(s, step))
  {
    var t := Do(s, step);
    if step.ServeRefresh? || step.EndRefresh? {
      RefreshKeepsInv(s, step);
    } else if step.Serve? {
      var u := s.(session := t.session);
      assert forall k | 0 <= k < |s.requests| :: InFlight(u, s.requests[k]) by {
        assert forall k | 0 <= k < |s.requests| :: InFlight(s, s.requests[k]);
      }
      MoveKeepsInv(u, step.i, t.requests[step.i]);
    } else if !step.Expire? && !step.DeleteSession? {
      MoveKeepsInv(s, step.i, t.requests[step.i]);
    } else {
      assert forall k | 0 <= k < |s.requests| :: InFlight(s, s.requests[k]);
    }
  }

  ghost predicate Next(s: State, t: State) { exists step :: Enabled(s, step) && t == Do(s, step) }

  ghost predicate IsRun(run: seq<State>) {
    && run != [] && Initial(run[0])
    && forall k | 0 <= k < |run| - 1 :: Next(run[k], run[k + 1])
  }

  lemma {:induction false} RunsKeepInv(run: seq<State>, k: nat)
    requires IsRun(run) && k < |run|
    ensures Inv(run[k]) && |run[k].requests| == |run[0].requests|
  {
    if k > 0 {
      RunsKeepInv(run, k - 1);
      assert Next(run[k - 1], run[k - 1 + 1]);
      var step :| Enabled(run[k - 1], step) && run[k] == Do(run[k - 1], step);
      StepKeepsInv(run[k - 1], step);
    }
  }

  // ---------------------------------------------------------------------
  // What every run keeps

  /** Outside a refresh the client holds the server's tokens. What it holds is
      the pair it last gave to its handlers, or the first one before any. */
  lemma TokensInStep(run: seq<State>, k: nat)
    requires IsRun(run) && k < |run|
    ensures NoWriter(run[k]) ==> InStep(run[k].session, run[k].acc, run[k].ref)
    ensures (run[k].acc, run[k].ref) ==
      if run[k].announced == [] then (run[0].acc, run[0].ref) else run[k].announced[|run[k].announced| - 1]
  {
    RunsKeepInv(run, k);
    FirstPair(run, k);
  }

  lemma {:induction false} FirstPair(run: seq<State>, k: nat)
    requires IsRun(run) && k < |run|
    ensures run[k].announced == [] ==> (run[k].acc, run[k].ref) == (run[0].acc, run[0].ref)
  {
    if k > 0 {
      FirstPair(run, k - 1);
      assert Next(run[k - 1], run[k - 1 + 1]);
    }
  }

  /** While the session exists no refresh is refused, and no deauth handler has
      run; afterwards the handlers run at most once. */
  lemma NoEarlyDeauth(run: seq<State>, k: nat)
    requires IsRun(run) && k < |run|
    ensures run[k].session.Some? ==> run[k].deauths == 0
    ensures run[k].deauths <= 1
    ensures forall i | 0 <= i < |run[k].requests| && run[k].requests[i].RefreshSent? && run[k].session.Some? ::
      NewAuthRef(run[k], run[k].requests[i].ref).1.Some?
  {
    RunsKeepInv(run, k);
    var s := run[k];
    forall i | 0 <= i < |s.requests| && s.requests[i].RefreshSent? && s.session.Some?
      ensures NewAuthRef(s, s.requests[i].ref).1.Some?
    {
      assert Writes(s.requests[i]);
      assert forall j | 0 <= j < |s.requests| :: !s.requests[j].RefreshAnswered?;
    }
  }

  /** A request in flight always carries the current access token, so the
      server refuses it only if the session is gone or has outlived its time. */
  lemma RefusedOnlyWhenDue(run: seq<State>, k: nat, i: nat)
    requires IsRun(run) && k < |run| && i < |run[k].requests| && run[k].requests[i].Sent?
    ensures VerifyAuth(run[k].session, run[k].requests[i].acc).1 <==>
      run[k].session.Some? && run[k].session.value.live
  {
    RunsKeepInv(run, k);
    var s := run[k];
    assert Reads(s.requests[i]);
    assert forall j | 0 <= j < |s.requests| :: !s.requests[j].RefreshAnswered?;
  }

  // ---------------------------------------------------------------------
  // What the answer to a request rests on

  /** The server has a live session with this access token. */
  ghost predicate Accepts(session: Option<Session>, acc: nat) {
    session.Some? && session.value.live && session.value.acc == Some(acc)
  }

  /** The server answers with a new pair, which the session then has, exactly if
      it has a session with this refresh token. */
  ghost predicate Rotated(before: Option<Session>, ref: nat, tokens: Option<(nat, nat)>, after: Option<Session>) {
    && (tokens.Some? <==> before.Some? && before.value.ref == ref)
    && (tokens.Some? ==> after == Some(Session(Some(tokens.value.0), tokens.value.1, true)))
    && (tokens.None? ==> after == before)
  }

  /** Where a request can stand next, besides where it stands: what the server
      or the network makes of it, and how the client goes on. */
  ghost predicate GoesOn(s: State, t: State, p: Phase, q: Phase) {
    match p
    case Waiting(retry) => q == Sent(retry, s.acc)
    case Sent(retry, acc) => q == Answered(retry, Accepts(s.session, acc)) || q == Finished(false)
    case Answered(retry, ok) => q == if ok then Finished(true) else if retry then Finished(false) else NeedsRefresh
    case NeedsRefresh => q == RefreshSent(s.ref)
    case RefreshSent(ref) =>
      || q == Finished(false)
      || (q.RefreshAnswered? && Rotated(s.session, ref, q.tokens, t.session))
    case RefreshAnswered(None) => q == Finished(false)
    case RefreshAnswered(Some((acc, ref))) => q == Waiting(true) && t.acc == acc && t.ref == ref
    case Finished(_) => false
  }

  lemma StepGoesOn(s: State, t: State, i: nat)
    requires Next(s, t) && i < |s.requests|
    ensures i < |t.requests| && (t.requests[i] == s.requests[i] || GoesOn(s, t, s.requests[i], t.requests[i]))
  {}

  /** Where request i stands in the k-th state. */
  ghost function PhaseAt(run: seq<State>, k: nat, i: nat): Phase
    requires IsRun(run) && k < |run| && i < |run[0].requests|
  {
    RunsKeepInv(run, k);
    run[k].requests[i]
  }

  /** Request i stands at `p` at some time before k. */
  ghost predicate Passed(run: seq<State>, k: nat, i: nat, p: Phase)
    requires IsRun(run) && k < |run| && i < |run[0].requests|
  {
    exists m :: 0 <= m < k && PhaseAt(run, m, i) == p
  }

  /** One step of a run, for one request. */
  lemma RunStep(run: seq<State>, k: nat, i: nat)
    requires IsRun(run) && k + 1 < |run| && i < |run[0].requests|
    ensures var p, q := PhaseAt(run, k, i), PhaseAt(run, k + 1, i); q == p || GoesOn(run[k], run[k + 1], p, q)
  {
    RunsKeepInv(run, k);
    hide Inv, GoesOn;
    assert Next(run[k], run[k + 1]);
    StepGoesOn(run[k], run[k + 1], i);
  }

  lemma StartsWaiting(run: seq<State>, i: nat)
    requires IsRun(run) && i < |run[0].requests|
    ensures PhaseAt(run, 0, i) == Waiting(false)
  {}

  lemma PassedLater(run: seq<State>, k: nat, i: nat, p: Phase)
    requires IsRun(run) && k + 1 < |run| && i < |run[0].requests|
    requires Passed(run, k, i, p) || PhaseAt(run, k, i) == p
    ensures Passed(run, k + 1, i, p)
  {
    hide IsRun, PhaseAt;
    if m :| 0 <= m < k && PhaseAt(run, m, i) == p {
      assert 0 <= m < k + 1;
    }
  }

  /** The server answers request i from a live session with the access token the
      request was sent with. */
  ghost predicate AcceptedAt(run: seq<State>, m: nat, i: nat)
    requires IsRun(run) && m + 1 < |run| && i < |run[0].requests|
  {
    var p := PhaseAt(run, m, i);
    p.Sent? && PhaseAt(run, m + 1, i) == Answered(p.retry, true) && Accepts(run[m].session, p.acc)
  }

  ghost predicate WasAccepted(run: seq<State>, k: nat, i: nat)
    requires IsRun(run) && k < |run| && i < |run[0].requests|
  {
    exists m :: 0 <= m < k && AcceptedAt(run, m, i)
  }

  lemma AcceptedLater(run: seq<State>, k: nat, i: nat)
    requires IsRun(run) && k + 1 < |run| && i < |run[0].requests| && (WasAccepted(run, k, i) || AcceptedAt(run, k, i))
    ensures WasAccepted(run, k + 1, i)
  {
    hide IsRun, AcceptedAt;
    if m :| 0 <= m < k && AcceptedAt(run, m, i) {
      assert 0 <= m < k + 1;
    }
  }

  predicate IsSuccess(p: Phase) { p == Finished(true) || (p.Answered? && p.ok) }

  /** A request succeeds only with an answer to itself, from a server that had a
      live session with the access token it was sent with. */
  lemma {:induction false} SuccessIsAccepted(run: seq<State>, k: nat, i: nat)
    requires IsRun(run) && k < |run| && i < |run[0].requests|
    ensures PhaseAt(run, k, i) == Finished(true) ==> Passed(run, k, i, Answered(false, true)) || Passed(run, k, i, Answered(true, true))
    ensures IsSuccess(PhaseAt(run, k, i)) ==> WasAccepted(run, k, i)
  {
    if k == 0 {
      StartsWaiting(run, i);
    } else {
      SuccessIsAccepted(run, k - 1, i);
      RunStep(run, k - 1, i);
      hide IsRun, PhaseAt, Passed, WasAccepted, Accepts, Rotated;
      var p := PhaseAt(run, k - 1, i);
      if IsSuccess(PhaseAt(run, k, i)) {
        assert IsSuccess(p) || AcceptedAt(run, k - 1, i);
        AcceptedLater(run, k - 1, i);
        forall ok | Passed(run, k - 1, i, Answered(ok, true)) || p == Answered(ok, true) ensures Passed(run, k, i, Answered(ok, true)) {
          PassedLater(run, k - 1, i, Answered(ok, true));
        }
      }
    }
  }

  /** Between two different places there is a step that leaves the first. */
  lemma {:induction false} LeavingStep(run: seq<State>, j: nat, k: nat, i: nat) returns (m: nat)
    requires IsRun(run) && j < k < |run| && i < |run[0].requests| && PhaseAt(run, j, i) != PhaseAt(run, k, i)
    ensures j <= m < k && PhaseAt(run, m, i) == PhaseAt(run, j, i)
    ensures GoesOn(run[m], run[m + 1], PhaseAt(run, j, i), PhaseAt(run, m + 1, i))
    decreases k - j
  {
    RunStep(run, j, i);
    hide IsRun, GoesOn, PhaseAt;
    if PhaseAt(run, j + 1, i) == PhaseAt(run, j, i) {
      m := LeavingStep(run, j + 1, k, i);
    } else {
      m := j;
    }
  }

  /** What is in flight carries the client's tokens. */
  lemma FlightIsCurrent(run: seq<State>, k: nat, i: nat)
    requires IsRun(run) && k < |run| && i < |run[0].requests|
    ensures PhaseAt(run, k, i).Sent? ==> PhaseAt(run, k, i).acc == run[k].acc
    ensures PhaseAt(run, k, i).RefreshSent? ==> PhaseAt(run, k, i).ref == run[k].ref
  {
    RunsKeepInv(run, k);
    assert InFlight(run[k], run[k].requests[i]);
  }

  /** A request whose refresh was answered with tokens is sent once more, with
      the client's new access token, before it ends. */
  lemma SentAgain(run: seq<State>, j: nat, k: nat, i: nat) returns (m: nat)
    requires IsRun(run) && j < k < |run| && i < |run[0].requests|
    requires PhaseAt(run, j, i).RefreshAnswered? && PhaseAt(run, j, i).tokens.Some? && PhaseAt(run, k, i).Finished?
    ensures j < m < k && PhaseAt(run, m, i) == Sent(true, run[m].acc)
  {
    hide IsRun, PhaseAt, Accepts, Rotated;
    var a := LeavingStep(run, j, k, i);
    var b := LeavingStep(run, a + 1, k, i);
    m := b + 1;
    FlightIsCurrent(run, m, i);
  }

  /** A first refusal is followed by a refresh with the client's refresh token. */
  lemma RefreshedAfterRefusal(run: seq<State>, j: nat, k: nat, i: nat) returns (m: nat)
    requires IsRun(run) && j < k < |run| && i < |run[0].requests|
    requires PhaseAt(run, j, i) == Answered(false, false) && PhaseAt(run, k, i).Finished?
    ensures j < m < k && PhaseAt(run, m, i) == RefreshSent(run[m].ref)
  {
    hide IsRun, PhaseAt, Accepts, Rotated;
    var a := LeavingStep(run, j, k, i);
    var b := LeavingStep(run, a + 1, k, i);
    m := b + 1;
    FlightIsCurrent(run, m, i);
  }

  lemma {:induction false} FinishedStays(run: seq<State>, j: nat, k: nat, i: nat)
    requires IsRun(run) && j <= k < |run| && i < |run[0].requests| && PhaseAt(run, j, i).Finished?
    ensures PhaseAt(run, k, i) == PhaseAt(run, j, i)
    decreases k - j
  {
    if j < k {
      RunStep(run, j, i);
      hide IsRun, PhaseAt;
      FinishedStays(run, j + 1, k, i);
    }
  }

  /** A second refusal ends a request without success. */
  lemma SecondRefusalEnds(run: seq<State>, j: nat, k: nat, i: nat)
    requires IsRun(run) && j < k < |run| && i < |run[0].requests| && PhaseAt(run, j, i) == Answered(true, false)
    ensures PhaseAt(run, k, i) == Answered(true, false) || PhaseAt(run, k, i) == Finished(false)
  {
    hide IsRun, PhaseAt, Accepts, Rotated;
    if PhaseAt(run, k, i) != PhaseAt(run, j, i) {
      var m := LeavingStep(run, j, k, i);
      FinishedStays(run, m + 1, k, i);
    }
  }

  ghost predicate IsRetry(p: Phase) { (p.Waiting? || p.Sent? || p.Answered?) && p.retry }

  /** Nothing is sent a second time but after a refresh that gave tokens. */
  lemma {:induction false} RetriesAreRefreshed(run: seq<State>, k: nat, i: nat)
    requires IsRun(run) && k < |run| && i < |run[0].requests|
    ensures IsRetry(PhaseAt(run, k, i)) ==> exists pair :: Passed(run, k, i, RefreshAnswered(Some(pair)))
  {
    if k == 0 {
      StartsWaiting(run, i);
    } else {
      RetriesAreRefreshed(run, k - 1, i);
      RunStep(run, k - 1, i);
      hide IsRun, PhaseAt, Passed, Accepts, Rotated;
      var p := PhaseAt(run, k - 1, i);
      if IsRetry(PhaseAt(run, k, i)) {
        var pair :| Passed(run, k - 1, i, RefreshAnswered(Some(pair))) || p == RefreshAnswered(Some(pair));
        PassedLater(run, k - 1, i, RefreshAnswered(Some(pair)));
      }
    }
  }

  /** What can end a request without success. */
  ghost predicate IsFailing(p: Phase) { p.Sent? || p.RefreshSent? || p == Answered(true, false) || p == RefreshAnswered(None) }

  /** A request fails only if it or its refresh is lost, if it is refused twice,
      or if its refresh is refused. */
  lemma {:induction false} FailureHasCause(run: seq<State>, k: nat, i: nat) returns (p: Phase)
    requires IsRun(run) && k < |run| && i < |run[0].requests| && PhaseAt(run, k, i) == Finished(false)
    ensures IsFailing(p) && Passed(run, k, i, p)
  {
    if k == 0 {
      StartsWaiting(run, i);
      assert false;
    } else {
      RunStep(run, k - 1, i);
      hide IsRun, PhaseAt, Passed, Accepts, Rotated;
      if PhaseAt(run, k - 1, i) == Finished(false) {
        p := FailureHasCause(run, k - 1, i);
      } else {
        p := PhaseAt(run, k - 1, i);
      }
      PassedLater(run, k - 1, i, p);
    }
  }

  ghost predicate EndsRefused(s: State, t: State, i: nat) {
    && i < |s.requests| && i < |t.requests|
    && s.requests[i] == RefreshAnswered(None) && t.requests[i] == Finished(false)
  }

  ghost predicate RefusedBetween(s: State, t: State) { exists i :: EndsRefused(s, t, i) }

  /** The m-th step ends a request whose refresh was refused. */
  ghost predicate RefusedAt(run: seq<State>, m: nat) { m + 1 < |run| && RefusedBetween(run[m], run[m + 1]) }

  ghost predicate RefusedBefore(run: seq<State>, k: nat) { exists m :: 0 <= m < k && RefusedAt(run, m) }

  lemma RefusedOneLater(run: seq<State>, m: nat)
    ensures RefusedBefore(run, m + 1) <==> RefusedBefore(run, m) || RefusedAt(run, m)
  {
    hide RefusedAt;
  }

  lemma CountedOnce(run: seq<State>, k: nat)
    requires IsRun(run) && k < |run|
    ensures run[k].deauths == if run[k].once then 1 else 0
  {
    RunsKeepInv(run, k);
  }

  /** The deauth handlers have run exactly if a refresh was refused. */
  lemma {:induction false} DeauthOnRefusal(run: seq<State>, k: nat)
    requires IsRun(run) && k < |run|
    ensures run[k].deauths == if RefusedBefore(run, k) then 1 else 0
  {
    CountedOnce(run, k);
    if k > 0 {
      DeauthOnRefusal(run, k - 1);
      CountedOnce(run, k - 1);
      assert Next(run[k - 1], run[k - 1 + 1]);
      hide Next, IsRun, RefusedBefore, RefusedAt;
      DeauthStep(run, k - 1);
      RefusedOneLater(run, k - 1);
    } else {
      assert !run[0].once;
    }
  }

  lemma DeauthStep(run: seq<State>, m: nat)
    requires m + 1 < |run| && Next(run[m], run[m + 1])
    requires run[m].deauths == (if run[m].once then 1 else 0) && run[m + 1].deauths == (if run[m + 1].once then 1 else 0)
    ensures run[m + 1].deauths == if RefusedAt(run, m) then 1 else run[m].deauths
  {
    var step :| Enabled(run[m], step) && run[m + 1] == Do(run[m], step);
    if step.EndRefresh? && run[m].requests[step.i].tokens.None? {
      assert EndsRefused(run[m], run[m + 1], step.i);
    }
  }

  // ---------------------------------------------------------------------
  // Progress

  ghost function Rank(p: Phase): nat {
    match p
    case Waiting(retry) => if retry then 3 else 9
    case Sent(retry, _) => if retry then 2 else 8
    case Answered(retry, _) => if retry then 1 else 7
    case NeedsRefresh => 6
    case RefreshSent(_) => 5
    case RefreshAnswered(_) => 4
    case Finished(_) => 0
  }

  /** Unless every request has finished, one of them or the server can act on
      one - no deadlock on the lock - and each such act brings the end nearer. */
  lemma Progress(s: State) returns (step: Step)
    requires Inv(s) && exists i :: 0 <= i < |s.requests| && !s.requests[i].Finished?
    ensures Enabled(s, step) && !step.Expire? && !step.DeleteSession? && !step.Lose? && !step.LoseRefresh?
  {
    if i :| 0 <= i < |s.requests| && (Reads(s.requests[i]) || Writes(s.requests[i])) {
      step := if s.requests[i].Sent? then Serve(i)
        else if s.requests[i].Answered? then Leave(i)
        else if s.requests[i].RefreshSent? then ServeRefresh(i)
        else EndRefresh(i);
    } else {
      var i :| 0 <= i < |s.requests| && !s.requests[i].Finished?;
      step := if s.requests[i].Waiting? then Start(i) else StartRefresh(i);
    }
  }

  lemma StepsDecrease(s: State, step: Step)
    requires Enabled(s, step) && !step.Expire? && !step.DeleteSession?
    ensures Sum(Do(s, step).requests, Rank) < Sum(s.requests, Rank)
  {
    SumUpdate(s.requests, step.i, Do(s, step).requests[step.i], Rank);
  }
}
