/** The worker pool: any number of workers and of concurrent ProcessAll calls,
    one goroutine per request, unbuffered result and error channels and a done
    handshake for each job (pool.go, job.go). */
module Pool {
  import opened Ids
  import opened Measures

  /** What the work function makes of one request. */
  datatype Outcome<Out, E> = Good(out: Out) | Bad(error: E)

  datatype Failure<E> = WorkFailed(error: E) | JobCancelled | PoolClosed

  /** The goroutine of one request; a received zero value is None. */
  datatype Caller<Out, E> =
    | Starting
    | AwaitsResult
    | AwaitsError(res: Option<Out>)
    | Calls(res: Option<Out>, err: Option<Failure<E>>)
    | Closes
    | Ended

  /** Where the job of that request stands, and on which worker. */
  datatype Stage<Out, E> =
    | NotQueued
    | Queued
    | Held(w: nat)
    | Working(w: nat)
    | SendsResult(w: nat, out: Out)
    | SendsError(w: nat, err: Failure<E>)
    | AwaitsDone(w: nat)
    | Released

  /** One request: goroutine, job, which of the job's channels are closed, and
      the error its work gave up with because its context had ended. */
  datatype Actor<Out, E> = Actor(
    caller: Caller<Out, E>, stage: Stage<Out, E>, resClosed: bool, errClosed: bool, doneClosed: bool, aborted: Option<E>)

  /** One ProcessAll call: whether the context it was given and the context of
      its jobs are cancelled, and the errors it has collected. */
  datatype Process<E> = Process(withdrawn: bool, cancelled: bool, errors: seq<Failure<E>>)

  /** `work[i]` is the outcome of request i, `of[i]` the call it belongs to, and
      `data[i]` its slot in that call's result. */
  datatype State<Out, E> = State(
    work: seq<Outcome<Out, E>>, of: seq<nat>, workers: nat,
    actors: seq<Actor<Out, E>>, queue: seq<nat>, closed: bool,
    calls: seq<Process<E>>, data: seq<Option<Out>>)

  datatype Step<E> =
    | Submit(i: nat)             // NewJob
    | Take(w: nat)               // an idle worker receives from the queue
    | Check(i: nat)              // select on the job's context
    | Finish(i: nat)             // work returns
    | Abort(i: nat, e: E)        // work gives up because its context ended
    | ReceiveResult(i: nat)
    | ReceiveError(i: nat)
    | Callback(i: nat)           // fn, and on an error lock, cancel, append
    | CloseDone(i: nat)
    | SeeDone(i: nat)            // waitDone returns
    | Withdraw(c: nat)           // the context of call c is cancelled
    | ClosePool

  /** A step of an actor's own, neither of a worker's hand nor of the environment. */
  predicate OwnMove<E>(step: Step<E>) { !step.Take? && !step.Withdraw? && !step.ClosePool? }

  predicate OnWorker<Out, E>(st: Stage<Out, E>) {
    st.Held? || st.Working? || st.SendsResult? || st.SendsError? || st.AwaitsDone?
  }

  predicate Idle<Out, E>(s: State<Out, E>, w: nat) {
    forall i | 0 <= i < |s.actors| :: OnWorker(s.actors[i].stage) ==> s.actors[i].stage.w != w
  }

  predicate WellSized<Out, E>(s: State<Out, E>) {
    && |s.work| == |s.actors| == |s.data| == |s.of|
    && (forall k | 0 <= k < |s.queue| :: s.queue[k] < |s.actors|)
    && (forall i | 0 <= i < |s.of| :: s.of[i] < |s.calls|)
  }

  /** The call of request i. */
  function CallOf<Out, E>(s: State<Out, E>, i: nat): Process<E>
    requires WellSized(s) && i < |s.actors|
  {
    s.calls[s.of[i]]
  }

  predicate Enabled<Out, E>(s: State<Out, E>, step: Step<E>)
    requires WellSized(s)
  {
    match step
    case Submit(i) => i < |s.actors| && s.actors[i].caller.Starting?
    case Take(w) => w < s.workers && Idle(s, w) && s.queue != []
    case Check(i) => i < |s.actors| && s.actors[i].stage.Held?
    case Finish(i) => i < |s.actors| && s.actors[i].stage.Working?
    case Abort(i, _) => i < |s.actors| && s.actors[i].stage.Working? && CallOf(s, i).cancelled
    case ReceiveResult(i) => i < |s.actors| && s.actors[i].caller.AwaitsResult? &&
      (s.actors[i].resClosed || s.actors[i].stage.SendsResult?)
    case ReceiveError(i) => i < |s.actors| && s.actors[i].caller.AwaitsError? &&
      (s.actors[i].errClosed || s.actors[i].stage.SendsError?)
    case Callback(i) => i < |s.actors| && s.actors[i].caller.Calls?
    case CloseDone(i) => i < |s.actors| && s.actors[i].caller.Closes?
    case SeeDone(i) => i < |s.actors| && s.actors[i].stage.AwaitsDone? && s.actors[i].doneClosed
    case Withdraw(c) => c < |s.calls|
    case ClosePool => true
  }

  function Post<Out, E>(a: Actor<Out, E>, w: nat, outcome: Outcome<Out, E>): Actor<Out, E> {
    match outcome
    case Good(out) => a.(errClosed := true, stage := SendsResult(w, out))
    case Bad(e) => a.(resClosed := true, stage := SendsError(w, WorkFailed(e)))
  }

  /** After an error is delivered the worker waits for done, unless it was the
      cancellation error, after which it takes the next job at once. */
  function Delivered<Out, E>(w: nat, err: Failure<E>): Stage<Out, E> {
    if err.JobCancelled? then Released else AwaitsDone(w)
  }

  /** The actor after a step of its own. */
  function Moved<Out, E>(s: State<Out, E>, step: Step<E>): Actor<Out, E>
    requires WellSized(s) && Enabled(s, step) && OwnMove(step)
  {
    var a := s.actors[step.i];
    match step
    case Submit(_) => if s.closed then a.(caller := Ended) else a.(caller := AwaitsResult, stage := Queued)
    case Check(_) =>
      if CallOf(s, step.i).cancelled then a.(resClosed := true, stage := SendsError(a.stage.w, JobCancelled))
      else a.(stage := Working(a.stage.w))
    case Finish(i) => Post(a, a.stage.w, s.work[i])
    case Abort(_, e) => Post(a.(aborted := Some(e)), a.stage.w, Bad(e))
    case ReceiveResult(_) =>
      if a.resClosed then a.(caller := AwaitsError(None))
      else a.(caller := AwaitsError(Some(a.stage.out)), stage := AwaitsDone(a.stage.w))
    case ReceiveError(_) =>
      if a.errClosed then a.(caller := Calls(a.caller.res, None))
      else a.(caller := Calls(a.caller.res, Some(a.stage.err)), stage := Delivered(a.stage.w, a.stage.err))
    case Callback(_) => a.(caller := Closes)
    case CloseDone(_) => a.(caller := Ended, doneClosed := true)
    case SeeDone(_) => a.(stage := Released)
  }

  /** An error of request i is collected, and cancels the other jobs of its call. */
  function Collect<Out, E>(s: State<Out, E>, i: nat, err: Failure<E>): State<Out, E>
    requires WellSized(s) && i < |s.actors|
  {
    s.(calls := s.calls[s.of[i] := CallOf(s, i).(cancelled := true, errors := CallOf(s, i).errors + [err])])
  }

  function Do<Out, E>(s: State<Out, E>, step: Step<E>): State<Out, E>
    requires WellSized(s) && Enabled(s, step)
  {
    match step
    case Take(w) =>
      var j := s.queue[0];
      s.(queue := s.queue[1..], actors := s.actors[j := s.actors[j].(stage := Held(w))])
    case Withdraw(c) => s.(calls := s.calls[c := s.calls[c].(withdrawn := true, cancelled := true)])
    case ClosePool => s.(closed := true)
    case Submit(i) =>
      var t := s.(actors := s.actors[i := Moved(s, step)]);
      if s.closed then Collect(t, i, PoolClosed)
      else t.(queue := s.queue + [i])
    case Callback(i) =>
      var t := s.(actors := s.actors[i := Moved(s, step)]);
      (match s.actors[i].caller.err
       case Some(err) => Collect(t, i, err)
       case None => t.(data := s.data[i := s.actors[i].caller.res]))
    case _ => s.(actors := s.actors[step.i := Moved(s, step)])
  }

  predicate Initial<Out, E>(s: State<Out, E>) {
    && WellSized(s)
    && (forall i | 0 <= i < |s.actors| :: s.actors[i] == Actor(Starting, NotQueued, false, false, false, None))
    && s.queue == [] && forall c | 0 <= c < |s.calls| :: s.calls[c] == Process(false, false, [])
  }

  // ---------------------------------------------------------------------
  // The invariant

  /** The two sides of one job agree, and only its own outcome travels on the
      result channel. */
  ghost predicate ActorOk<Out, E>(a: Actor<Out, E>, outcome: Outcome<Out, E>) {
    && (a.stage.SendsResult? ==> outcome == Good(a.stage.out))
    && (a.doneClosed <==> a.caller.Ended? && !a.stage.NotQueued?)
    && (a.aborted.Some? ==> !a.stage.NotQueued? && !a.stage.Queued? && !a.stage.Held? && !a.stage.Working?)
    && match a.caller
      case Starting => a.stage.NotQueued? && !a.resClosed && !a.errClosed
      case AwaitsResult =>
        && !a.stage.NotQueued? && !a.stage.AwaitsDone? && !a.stage.Released?
        && (a.resClosed <==> a.stage.SendsError?) && (a.errClosed <==> a.stage.SendsResult?)
      case AwaitsError(res) =>
        if a.errClosed then a.stage.AwaitsDone? && res.Some? && outcome == Good(res.value)
        else a.stage.SendsError? && res.None?
      case Calls(res, err) =>
        && (a.stage.AwaitsDone? || a.stage.Released?)
        && (err.None? <==> res.Some?) && (res.Some? ==> outcome == Good(res.value))
      case Closes => a.stage.AwaitsDone? || a.stage.Released?
      case Ended => a.stage.AwaitsDone? || a.stage.Released? || a.stage.NotQueued?
  }

  /** An error that request i can send: what its work failed with, what its work
      gave up with, or the cancellation of its call. */
  ghost predicate IsErrorOf<Out, E>(s: State<Out, E>, i: nat, err: Failure<E>)
    requires WellSized(s) && i < |s.actors|
  {
    match err
    case WorkFailed(e) => s.work[i] == Bad(e) || s.actors[i].aborted == Some(e)
    case JobCancelled => CallOf(s, i).cancelled
    case PoolClosed => false
  }

  ghost predicate ErrorsFit<Out, E>(s: State<Out, E>, i: nat)
    requires WellSized(s) && i < |s.actors|
  {
    var a := s.actors[i];
    && (a.stage.SendsError? ==> IsErrorOf(s, i, a.stage.err))
    && (a.caller.Calls? && a.caller.err.Some? ==> IsErrorOf(s, i, a.caller.err.value))
    && (a.aborted.Some? ==> CallOf(s, i).cancelled)
  }

  /** Why the p-th error of call c is there: the pool was closed; the call was
      cancelled, by its caller or by an earlier error; or the work of one of its
      requests failed with it, or gave up with it after a cancellation. */
  ghost predicate ErrorIsDue<Out, E>(s: State<Out, E>, c: nat, p: nat)
    requires WellSized(s) && c < |s.calls| && p < |s.calls[c].errors|
  {
    match s.calls[c].errors[p]
    case PoolClosed => s.closed
    case JobCancelled => s.calls[c].withdrawn || p > 0
    case WorkFailed(e) => SomeFailedWith(s, c, e, s.calls[c].withdrawn || p > 0)
  }

  ghost predicate FailedWith<Out, E>(s: State<Out, E>, c: nat, i: nat, e: E, late: bool)
    requires WellSized(s) && i < |s.actors|
  {
    s.of[i] == c && (s.work[i] == Bad(e) || (s.actors[i].aborted == Some(e) && late))
  }

  /** The work of some request of the call failed with this error, or, if it is
      a late one, gave up with it. */
  ghost predicate SomeFailedWith<Out, E>(s: State<Out, E>, c: nat, e: E, late: bool)
    requires WellSized(s)
  {
    exists i :: 0 <= i < |s.actors| && FailedWith(s, c, i, e, late)
  }

  /** A call is cancelled exactly if its caller withdrew or it collected an
      error, and each of its errors is due. */
  ghost predicate CallOk<Out, E>(s: State<Out, E>, c: nat)
    requires WellSized(s) && c < |s.calls|
  {
    && (s.calls[c].cancelled <==> s.calls[c].withdrawn || s.calls[c].errors != [])
    && forall p | 0 <= p < |s.calls[c].errors| :: ErrorIsDue(s, c, p)
  }

  /** The queue holds exactly the queued jobs, each once, and no worker two jobs. */
  ghost predicate QueueOk<Out, E>(s: State<Out, E>)
    requires WellSized(s)
  {
    && NoDup(s.queue)
    && (forall i | 0 <= i < |s.actors| :: i in s.queue <==> s.actors[i].stage.Queued?)
    && (forall i | 0 <= i < |s.actors| && OnWorker(s.actors[i].stage) :: s.actors[i].stage.w < s.workers)
    && (forall i, j | 0 <= i < j < |s.actors| && OnWorker(s.actors[i].stage) && OnWorker(s.actors[j].stage) ::
          s.actors[i].stage.w != s.actors[j].stage.w)
  }

  /** The call has collected an error of this request. */
  ghost predicate Reported<Out, E>(s: State<Out, E>, i: nat, err: Failure<E>)
    requires WellSized(s) && i < |s.actors|
  {
    err in CallOf(s, i).errors && (IsErrorOf(s, i, err) || (err.PoolClosed? && s.actors[i].stage.NotQueued?))
  }

  /** A request past its callback has its outcome stored, or its error is. */
  ghost predicate Stored<Out, E>(s: State<Out, E>, i: nat)
    requires WellSized(s) && i < |s.actors|
  {
    s.actors[i].caller.Closes? || s.actors[i].caller.Ended? ==>
      (s.data[i].Some? && s.work[i] == Good(s.data[i].value)) || HasReported(s, i)
  }

  ghost predicate HasReported<Out, E>(s: State<Out, E>, i: nat)
    requires WellSized(s) && i < |s.actors|
  {
    exists k :: 0 <= k < |CallOf(s, i).errors| && Reported(s, i, CallOf(s, i).errors[k])
  }

  ghost predicate Inv<Out, E>(s: State<Out, E>) {
    && WellSized(s) && QueueOk(s)
    && (forall i | 0 <= i < |s.actors| :: ActorOk(s.actors[i], s.work[i]))
    && (forall i | 0 <= i < |s.actors| :: ErrorsFit(s, i))
    && (forall i | 0 <= i < |s.actors| :: Stored(s, i))
    && (forall c | 0 <= c < |s.calls| :: CallOk(s, c))
  }

  /** A move that neither enters nor leaves the queue nor changes workers. */
  lemma QueueOkAfterMove<Out, E>(s: State<Out, E>, i: nat, a: Actor<Out, E>)
    requires WellSized(s) && QueueOk(s) && i < |s.actors|
    requires a.stage.Queued? == s.actors[i].stage.Queued?
    requires OnWorker(a.stage) ==> OnWorker(s.actors[i].stage) && a.stage.w == s.actors[i].stage.w
    ensures QueueOk(s.(actors := s.actors[i := a]))
  {}

  lemma QueueOkAfterSubmit<Out, E>(s: State<Out, E>, i: nat, a: Actor<Out, E>)
    requires WellSized(s) && QueueOk(s) && i < |s.actors|
    requires s.actors[i].stage.NotQueued? && a.stage.Queued?
    ensures QueueOk(s.(actors := s.actors[i := a], queue := s.queue + [i]))
  {
    assert i !in s.queue;
  }

  lemma QueueOkAfterTake<Out, E>(s: State<Out, E>, w: nat, a: Actor<Out, E>)
    requires WellSized(s) && QueueOk(s) && s.queue != [] && w < s.workers && Idle(s, w)
    requires a.stage == Held(w)
    ensures QueueOk(s.(actors := s.actors[s.queue[0] := a], queue := s.queue[1..]))
  {
    var j := s.queue[0];
    assert s.queue == [j] + s.queue[1..];
    assert j !in s.queue[1..];
  }

  lemma StepKeepsSizes<Out, E>(s: State<Out, E>, step: Step<E>)
    requires WellSized(s) && Enabled(s, step)
    ensures var t := Do(s, step);
      WellSized(t) && |t.actors| == |s.actors| && t.of == s.of && t.work == s.work && |t.calls| == |s.calls| && t.workers == s.workers
  {}

  /** Which actor a step moves, and how. */
  lemma MovesOne<Out, E>(s: State<Out, E>, step: Step<E>)
    requires WellSized(s) && Enabled(s, step) && OwnMove(step)
    ensures Do(s, step).actors == s.actors[step.i := Moved(s, step)]
    ensures Do(s, step).queue == if step.Submit? && !s.closed then s.queue + [step.i] else s.queue
  {}

  lemma SameQueueOk<Out, E>(s: State<Out, E>, t: State<Out, E>)
    requires WellSized(s) && WellSized(t) && QueueOk(s) && t.queue == s.queue && t.actors == s.actors && t.workers == s.workers
    ensures QueueOk(t)
  {}

  /** A move that is not a submission neither enters nor leaves the queue, and
      stays on its worker until it releases it. */
  lemma MoveKeepsWorker<Out, E>(s: State<Out, E>, step: Step<E>)
    requires WellSized(s) && Enabled(s, step) && OwnMove(step) && !(step.Submit? && !s.closed)
    requires ActorOk(s.actors[step.i], s.work[step.i])
    ensures var a, b := s.actors[step.i], Moved(s, step);
      && a.stage.Queued? == b.stage.Queued?
      && (OnWorker(b.stage) ==> OnWorker(a.stage) && b.stage.w == a.stage.w)
  {}

  lemma QueueStaysOk<Out, E>(s: State<Out, E>, step: Step<E>)
    requires Inv(s) && Enabled(s, step)
    ensures WellSized(Do(s, step)) && QueueOk(Do(s, step))
  {
    hide ActorOk, ErrorsFit, Stored, CallOk, QueueOk, Moved;
    StepKeepsSizes(s, step);
    var t := Do(s, step);
    if step.Take? {
      QueueOkAfterTake(s, step.w, t.actors[s.queue[0]]);
    } else if OwnMove(step) {
      var i, a := step.i, Moved(s, step);
      MovesOne(s, step);
      assert ActorOk(s.actors[i], s.work[i]);
      hide Do;
      if step.Submit? && !s.closed {
        SubmitQueues(s, step);
        QueueOkAfterSubmit(s, i, a);
        SameQueueOk(s.(actors := s.actors[i := a], queue := s.queue + [i]), t);
      } else {
        MoveKeepsWorker(s, step);
        QueueOkAfterMove(s, i, a);
        SameQueueOk(s.(actors := s.actors[i := a]), t);
      }
    } else {
      SameQueueOk(s, t);
    }
  }

  lemma SubmitQueues<Out, E>(s: State<Out, E>, step: Step<E>)
    requires WellSized(s) && Enabled(s, step) && step.Submit? && !s.closed && ActorOk(s.actors[step.i], s.work[step.i])
    ensures s.actors[step.i].stage.NotQueued? && Moved(s, step).stage.Queued?
  {}

  lemma ActorStaysOk<Out, E>(s: State<Out, E>, step: Step<E>)
    requires WellSized(s) && Enabled(s, step) && OwnMove(step) && ActorOk(s.actors[step.i], s.work[step.i])
    ensures ActorOk(Moved(s, step), s.work[step.i])
  {}

  /** What a step does to a call: it may be withdrawn, or collect an error. */
  ghost predicate CallLater<E>(a: Process<E>, b: Process<E>) {
    a.errors <= b.errors && (a.withdrawn ==> b.withdrawn) && (a.cancelled ==> b.cancelled)
  }

  lemma CallsGoOn<Out, E>(s: State<Out, E>, step: Step<E>, c: nat)
    requires WellSized(s) && Enabled(s, step) && c < |s.calls|
    ensures var t := Do(s, step); c < |t.calls| && CallLater(s.calls[c], t.calls[c]) && (s.closed ==> t.closed)
  {}

  /** What a request's work gave up with is not forgotten. */
  lemma AbortedStays<Out, E>(s: State<Out, E>, step: Step<E>, i: nat)
    requires WellSized(s) && Enabled(s, step) && i < |s.actors| && WellSized(Do(s, step))
    requires s.actors[i].aborted.Some? ==> !s.actors[i].stage.Working?
    ensures i < |Do(s, step).actors| && (s.actors[i].aborted.Some? ==> Do(s, step).actors[i].aborted == s.actors[i].aborted)
  {}

  ghost predicate QueuedActor<Out, E>(s: State<Out, E>, i: nat) { i < |s.actors| && s.actors[i].stage.Queued? }

  lemma QueueHolds<Out, E>(s: State<Out, E>, i: nat)
    requires Inv(s) && i in s.queue
    ensures QueuedActor(s, i)
  {}

  /** Only the actor of the step changes, and a taken job is held. */
  lemma OthersStay<Out, E>(s: State<Out, E>, step: Step<E>, k: nat)
    requires Inv(s) && Enabled(s, step) && k < |s.actors| && !(OwnMove(step) && k == step.i)
    ensures var a, b := s.actors[k], Do(s, step).actors[k];
      b == a || (step.Take? && a.stage.Queued? && b == a.(stage := Held(step.w)))
  {
    hide ActorOk, ErrorsFit, Stored, CallOk;
    if step.Take? {
      assert s.queue[0] in s.queue;
      QueueHolds(s, s.queue[0]);
    }
  }

  lemma ActorsStayOk<Out, E>(s: State<Out, E>, step: Step<E>, k: nat)
    requires Inv(s) && Enabled(s, step) && k < |s.actors| && WellSized(Do(s, step))
    ensures k < |Do(s, step).actors| && k < |Do(s, step).work| && ActorOk(Do(s, step).actors[k], Do(s, step).work[k])
  {
    hide QueueOk, ErrorsFit, Stored, CallOk, Moved;
    StepKeepsSizes(s, step);
    assert ActorOk(s.actors[k], s.work[k]);
    if OwnMove(step) && k == step.i {
      MovesOne(s, step);
      hide ActorOk;
      ActorStaysOk(s, step);
    } else {
      OthersStay(s, step, k);
    }
  }

  lemma ErrorStays<Out, E>(s: State<Out, E>, step: Step<E>, i: nat, err: Failure<E>)
    requires Inv(s) && Enabled(s, step) && i < |s.actors| && WellSized(Do(s, step)) && IsErrorOf(s, i, err)
    ensures i < |Do(s, step).actors| && IsErrorOf(Do(s, step), i, err)
  {
    assert ActorOk(s.actors[i], s.work[i]);
    hide Inv, ActorOk, Enabled, Do, Moved;
    StepKeepsSizes(s, step);
    AbortedStays(s, step, i);
    CallsGoOn(s, step, s.of[i]);
  }

  /** What an actor's own move sends or receives is an error of its request. */
  lemma MovedFits<Out, E>(s: State<Out, E>, step: Step<E>)
    requires Inv(s) && Enabled(s, step) && OwnMove(step) && WellSized(Do(s, step))
    ensures step.i < |Do(s, step).actors| && ErrorsFit(Do(s, step), step.i)
  {
    hide QueueOk, Stored, CallOk;
    assert ErrorsFit(s, step.i) && ActorOk(s.actors[step.i], s.work[step.i]);
  }

  lemma FitStays<Out, E>(s: State<Out, E>, step: Step<E>, k: nat)
    requires Inv(s) && Enabled(s, step) && k < |s.actors| && WellSized(Do(s, step))
    ensures k < |Do(s, step).actors| && ErrorsFit(Do(s, step), k)
  {
    StepKeepsSizes(s, step);
    assert ErrorsFit(s, k);
    if OwnMove(step) && k == step.i {
      MovedFits(s, step);
    } else {
      OthersStay(s, step, k);
      CallsGoOn(s, step, s.of[k]);
      hide Inv, Do, Enabled, IsErrorOf;
      var a := s.actors[k];
      if a.stage.SendsError? {
        ErrorStays(s, step, k, a.stage.err);
      }
      if a.caller.Calls? && a.caller.err.Some? {
        ErrorStays(s, step, k, a.caller.err.value);
      }
    }
  }

  lemma ReportStays<Out, E>(s: State<Out, E>, step: Step<E>, i: nat)
    requires Inv(s) && Enabled(s, step) && i < |s.actors| && WellSized(Do(s, step)) && HasReported(s, i)
    requires s.actors[i].caller.Closes? || s.actors[i].caller.Ended?
    ensures i < |Do(s, step).actors| && HasReported(Do(s, step), i)
  {
    StepKeepsSizes(s, step);
    CallsGoOn(s, step, s.of[i]);
    var k :| 0 <= k < |CallOf(s, i).errors| && Reported(s, i, CallOf(s, i).errors[k]);
    var err := CallOf(s, i).errors[k];
    if IsErrorOf(s, i, err) {
      ErrorStays(s, step, i, err);
    } else {
      UnqueuedStays(s, step, i);
    }
    hide Inv, Do, Enabled, IsErrorOf;
    assert CallOf(Do(s, step), i).errors[k] == err;
    assert Reported(Do(s, step), i, CallOf(Do(s, step), i).errors[k]);
  }

  lemma UnqueuedStays<Out, E>(s: State<Out, E>, step: Step<E>, i: nat)
    requires Inv(s) && Enabled(s, step) && i < |s.actors| && WellSized(Do(s, step))
    requires s.actors[i].stage.NotQueued? && (s.actors[i].caller.Closes? || s.actors[i].caller.Ended?)
    ensures i < |Do(s, step).actors| && Do(s, step).actors[i].stage.NotQueued?
  {
    assert ActorOk(s.actors[i], s.work[i]);
    if step.Take? {
      OthersStay(s, step, i);
    }
    hide Inv;
  }

  /** The callback stores the outcome or the error of its request, and a refused
      submission stores that. */
  lemma CallbackStores<Out, E>(s: State<Out, E>, step: Step<E>)
    requires Inv(s) && Enabled(s, step) && (step.Callback? || (step.Submit? && s.closed)) && WellSized(Do(s, step))
    ensures step.i < |Do(s, step).actors| && Stored(Do(s, step), step.i)
  {
    var i, t := step.i, Do(s, step);
    assert ActorOk(s.actors[i], s.work[i]) && ErrorsFit(s, i);
    hide Inv, ActorOk;
    if step.Submit? || s.actors[i].caller.err.Some? {
      var n := |CallOf(s, i).errors|;
      assert Reported(t, i, CallOf(t, i).errors[n]);
    }
  }

  lemma StoredStays<Out, E>(s: State<Out, E>, step: Step<E>, k: nat)
    requires Inv(s) && Enabled(s, step) && k < |s.actors| && WellSized(Do(s, step))
    ensures k < |Do(s, step).actors| && Stored(Do(s, step), k)
  {
    StepKeepsSizes(s, step);
    assert ActorOk(s.actors[k], s.work[k]) && Stored(s, k);
    if OwnMove(step) && step.i == k && (step.Callback? || (step.Submit? && s.closed)) {
      CallbackStores(s, step);
    } else if s.actors[k].caller.Closes? || s.actors[k].caller.Ended? {
      SlotStays(s, step, k);
      if HasReported(s, k) {
        ReportStays(s, step, k);
      }
    } else {
      NotYetDone(s, step, k);
    }
    hide Inv, HasReported;
  }

  /** The slot of a request is written by its callback only. */
  lemma SlotStays<Out, E>(s: State<Out, E>, step: Step<E>, i: nat)
    requires WellSized(s) && Enabled(s, step) && i < |s.actors| && (s.actors[i].caller.Closes? || s.actors[i].caller.Ended?)
    ensures Do(s, step).data[i] == s.data[i] && Do(s, step).work == s.work
  {}

  lemma NotYetDone<Out, E>(s: State<Out, E>, step: Step<E>, k: nat)
    requires Inv(s) && Enabled(s, step) && k < |s.actors| && WellSized(Do(s, step))
    requires !s.actors[k].caller.Closes? && !s.actors[k].caller.Ended?
    requires !(OwnMove(step) && step.i == k && (step.Callback? || (step.Submit? && s.closed)))
    ensures k < |Do(s, step).actors| && !Do(s, step).actors[k].caller.Closes? && !Do(s, step).actors[k].caller.Ended?
  {
    if OwnMove(step) {
      MovesOne(s, step);
    } else {
      OthersStay(s, step, k);
    }
    hide Inv, Do;
  }

  /** An error that was due stays due. */
  lemma DueStays<Out, E>(s: State<Out, E>, step: Step<E>, c: nat, p: nat)
    requires Inv(s) && Enabled(s, step) && WellSized(Do(s, step))
    requires c < |s.calls| && p < |s.calls[c].errors| && ErrorIsDue(s, c, p)
    ensures c < |Do(s, step).calls| && p < |Do(s, step).calls[c].errors| && ErrorIsDue(Do(s, step), c, p)
  {
    var t := Do(s, step);
    StepKeepsSizes(s, step);
    CallsGoOn(s, step, c);
    var late := s.calls[c].withdrawn || p > 0;
    if s.calls[c].errors[p].WorkFailed? {
      var e := s.calls[c].errors[p].error;
      var i :| 0 <= i < |s.actors| && FailedWith(s, c, i, e, late);
      assert ActorOk(s.actors[i], s.work[i]);
      AbortedStays(s, step, i);
      hide Inv, ActorOk, Do, Enabled;
      assert t.work[i] == s.work[i] && t.of[i] == s.of[i];
      assert FailedWith(t, c, i, e, t.calls[c].withdrawn || p > 0);
    }
  }

  /** The error a step collects is due. */
  lemma NewIsDue<Out, E>(s: State<Out, E>, step: Step<E>, c: nat)
    requires Inv(s) && Enabled(s, step) && WellSized(Do(s, step)) && c < |s.calls|
    ensures c < |Do(s, step).calls|
    ensures var t, p := Do(s, step), |s.calls[c].errors|;
      t.calls[c].errors == s.calls[c].errors || (|t.calls[c].errors| == p + 1 && ErrorIsDue(t, c, p))
  {
    var t, p := Do(s, step), |s.calls[c].errors|;
    StepKeepsSizes(s, step);
    assert CallOk(s, c);
    if step.Callback? && s.of[step.i] == c && s.actors[step.i].caller.err.Some? {
      var i, err := step.i, s.actors[step.i].caller.err.value;
      assert ErrorsFit(s, i);
      assert t.calls[c].errors[p] == err && t.actors[i].aborted == s.actors[i].aborted;
      if err.WorkFailed? {
        assert FailedWith(t, c, i, err.error, t.calls[c].withdrawn || p > 0);
      }
    }
  }

  lemma CancelledIff<Out, E>(s: State<Out, E>, step: Step<E>, c: nat)
    requires WellSized(s) && Enabled(s, step) && c < |s.calls|
    requires s.calls[c].cancelled <==> s.calls[c].withdrawn || s.calls[c].errors != []
    ensures var t := Do(s, step);
      c < |t.calls| && (t.calls[c].cancelled <==> t.calls[c].withdrawn || t.calls[c].errors != [])
  {}

  lemma CallStaysOk<Out, E>(s: State<Out, E>, step: Step<E>, c: nat)
    requires Inv(s) && Enabled(s, step) && c < |s.calls| && WellSized(Do(s, step))
    ensures c < |Do(s, step).calls| && CallOk(Do(s, step), c)
  {
    StepKeepsSizes(s, step);
    assert CallOk(s, c);
    CancelledIff(s, step, c);
    CallsGoOn(s, step, c);
    NewIsDue(s, step, c);
    hide Inv, Do, Enabled, ErrorIsDue;
    var t := Do(s, step);
    forall p | 0 <= p < |t.calls[c].errors| ensures ErrorIsDue(t, c, p) {
      if p < |s.calls[c].errors| {
        DueStays(s, step, c, p);
      }
    }
  }

  lemma StepKeepsInv<Out, E>(s: State<Out, E>, step: Step<E>)
    requires Inv(s) && Enabled(s, step)
    ensures Inv(Do(s, step))
  {
    hide ActorOk, ErrorsFit, Stored, QueueOk, CallOk;
    StepKeepsSizes(s, step);
    QueueStaysOk(s, step);
    hide Do, WellSized, Enabled;
    var t := Do(s, step);
    forall k | 0 <= k < |t.actors| ensures ActorOk(t.actors[k], t.work[k]) && ErrorsFit(t, k) && Stored(t, k) {
      StoredStays(s, step, k);
      ActorsStayOk(s, step, k);
      FitStays(s, step, k);
    }
    forall c | 0 <= c < |t.calls| ensures CallOk(t, c) {
      CallStaysOk(s, step, c);
    }
  }

  ghost predicate Next<Out(!new), E(!new)>(s: State<Out, E>, t: State<Out, E>) {
    WellSized(s) && exists step :: Enabled(s, step) && t == Do(s, step)
  }

  ghost predicate IsRun<Out(!new), E(!new)>(run: seq<State<Out, E>>) {
    && run != [] && Initial(run[0])
    && forall k | 0 <= k < |run| - 1 :: Next(run[k], run[k + 1])
  }

  lemma NextKeepsInv<Out(!new), E(!new)>(s: State<Out, E>, t: State<Out, E>)
    requires Inv(s) && Next(s, t)
    ensures Inv(t) && t.work == s.work && t.of == s.of && |t.calls| == |s.calls|
  {
    var step :| Enabled(s, step) && t == Do(s, step);
    StepKeepsSizes(s, step);
    StepKeepsInv(s, step);
  }

  lemma {:induction false} RunsKeepInv<Out(!new), E(!new)>(run: seq<State<Out, E>>, k: nat)
    requires IsRun(run) && k < |run|
    ensures Inv(run[k]) && run[k].work == run[0].work && run[k].of == run[0].of && |run[k].calls| == |run[0].calls|
  {
    if k > 0 {
      RunsKeepInv(run, k - 1);
      assert Next(run[k - 1], run[k - 1 + 1]);
      NextKeepsInv(run[k - 1], run[k]);
    }
  }

  // ---------------------------------------------------------------------
  // What ProcessAll returns

  ghost predicate HasEnded<Out, E>(s: State<Out, E>, c: nat)
    requires WellSized(s)
  {
    forall i | 0 <= i < |s.actors| && s.of[i] == c :: s.actors[i].caller.Ended?
  }

  /** The error a call returns once its goroutines have ended: the first it
      collected. Without one it returns its slots of the data. */
  function ReturnedError<Out, E>(s: State<Out, E>, c: nat): Option<Failure<E>>
    requires c < |s.calls|
  {
    if s.calls[c].errors != [] then Some(s.calls[c].errors[0]) else None
  }

  /** Whatever the interleaving, and whatever other calls share the pool:
      without an error the data are the outcomes of the call's requests, each in
      its own slot; with one, the error returned says that the pool was closed,
      that the caller withdrew, or what the work of one of the call's own
      requests failed with - or gave up with after the caller withdrew. */
  lemma ProcessAllIsAligned<Out(!new), E(!new)>(run: seq<State<Out, E>>, k: nat, c: nat)
    requires IsRun(run) && k < |run| && c < |run[0].calls|
    ensures WellSized(run[k]) && c < |run[k].calls| && run[k].of == run[0].of && run[k].work == run[0].work
    ensures HasEnded(run[k], c) && ReturnedError(run[k], c).None? ==>
      forall i | 0 <= i < |run[0].work| && run[0].of[i] == c ::
        run[k].data[i].Some? && run[0].work[i] == Good(run[k].data[i].value)
    ensures match ReturnedError(run[k], c)
      case None => true
      case Some(PoolClosed) => run[k].closed
      case Some(JobCancelled) => run[k].calls[c].withdrawn
      case Some(WorkFailed(e)) => SomeFailedWith(run[k], c, e, run[k].calls[c].withdrawn)
  {
    RunsKeepInv(run, k);
    var s := run[k];
    assert CallOk(s, c);
    if s.calls[c].errors != [] {
      assert ErrorIsDue(s, c, 0);
    }
    forall i | 0 <= i < |s.actors| && s.of[i] == c && HasEnded(s, c) && s.calls[c].errors == []
      ensures s.data[i].Some? && s.work[i] == Good(s.data[i].value)
    {
      assert Stored(s, i);
    }
  }

  /** In every reachable state every error a call has collected is due, the call
      is cancelled exactly if its caller withdrew or it has collected one, and a
      request past its callback has its outcome in its slot or its own error
      among those collected. */
  lemma ErrorsAreDue<Out(!new), E(!new)>(run: seq<State<Out, E>>, k: nat)
    requires IsRun(run) && k < |run|
    ensures WellSized(run[k])
    ensures forall c | 0 <= c < |run[k].calls| :: CallOk(run[k], c)
    ensures forall i | 0 <= i < |run[k].actors| :: Stored(run[k], i)
  {
    RunsKeepInv(run, k);
  }

  /** Collected errors stay, in order. */
  lemma {:induction false} ErrorsStay<Out(!new), E(!new)>(run: seq<State<Out, E>>, k: nat, k': nat, c: nat)
    requires IsRun(run) && k <= k' < |run| && c < |run[0].calls|
    ensures c < |run[k].calls| && c < |run[k'].calls| && CallLater(run[k].calls[c], run[k'].calls[c])
    decreases k' - k
  {
    RunsKeepInv(run, k);
    RunsKeepInv(run, k');
    hide Inv;
    if k < k' {
      ErrorsStay(run, k, k' - 1, c);
      RunsKeepInv(run, k' - 1);
      assert Next(run[k' - 1], run[k' - 1 + 1]);
      var step :| Enabled(run[k' - 1], step) && run[k'] == Do(run[k' - 1], step);
      CallsGoOn(run[k' - 1], step, c);
    }
  }

  /** Not worked on, and if its caller has received anything, a cancellation. */
  ghost predicate Unworked<Out, E>(a: Actor<Out, E>) {
    && (a.stage.NotQueued? || a.stage.Queued? || a.stage.Held? || a.stage.Released?
        || (a.stage.SendsError? && a.stage.err == JobCancelled))
    && (a.caller.Calls? ==> a.caller.err == Some(JobCancelled))
  }

  lemma StaysUnworked<Out, E>(s: State<Out, E>, step: Step<E>, i: nat)
    requires Inv(s) && Enabled(s, step) && i < |s.actors| && CallOf(s, i).cancelled && Unworked(s.actors[i])
    ensures i < |Do(s, step).actors| && Unworked(Do(s, step).actors[i])
  {
    StepKeepsSizes(s, step);
    assert ActorOk(s.actors[i], s.work[i]);
    if OwnMove(step) && step.i == i {
      MovesOne(s, step);
    } else {
      OthersStay(s, step, i);
    }
    hide Inv, Do;
  }

  ghost predicate IsCancelled<Out, E>(s: State<Out, E>, i: nat) {
    WellSized(s) && i < |s.actors| && CallOf(s, i).cancelled && Unworked(s.actors[i])
  }

  lemma NextStaysCancelled<Out(!new), E(!new)>(s: State<Out, E>, t: State<Out, E>, i: nat)
    requires Inv(s) && Next(s, t) && IsCancelled(s, i)
    ensures IsCancelled(t, i)
  {
    var step :| Enabled(s, step) && t == Do(s, step);
    hide Inv, Unworked;
    StepKeepsSizes(s, step);
    CallsGoOn(s, step, s.of[i]);
    StaysUnworked(s, step, i);
  }

  /** A job that is not yet worked on when its call is cancelled never is, and
      its caller receives nothing but the cancellation. */
  lemma {:induction false} CancelledIsNotWorked<Out(!new), E(!new)>(run: seq<State<Out, E>>, k: nat, k': nat, i: nat)
    requires IsRun(run) && k <= k' < |run| && IsCancelled(run[k], i)
    ensures IsCancelled(run[k'], i)
    decreases k' - k
  {
    hide Inv, Next, IsCancelled;
    if k < k' {
      RunsKeepInv(run, k' - 1);
      CancelledIsNotWorked(run, k, k' - 1, i);
      assert Next(run[k' - 1], run[k' - 1 + 1]);
      NextStaysCancelled(run[k' - 1], run[k'], i);
    }
  }

  // ---------------------------------------------------------------------
  // One job, one worker, one result

  ghost function Phase<Out, E>(c: Caller<Out, E>): nat {
    match c
    case Starting => 0
    case AwaitsResult => 1
    case AwaitsError(_) => 2
    case Calls(_, _) => 3
    case Closes => 4
    case Ended => 5
  }

  /** How a request may go on: a worker that holds the job keeps it until it
      releases it, a job never returns to the queue, and the caller never goes
      back: what it received stays what it received. */
  ghost predicate Later<Out, E>(a: Actor<Out, E>, b: Actor<Out, E>) {
    && (OnWorker(a.stage) ==> b.stage.Released? || (OnWorker(b.stage) && b.stage.w == a.stage.w))
    && (a.stage.Released? ==> b.stage.Released?)
    && (a.stage.Queued? ==> !b.stage.NotQueued?)
    && Phase(a.caller) <= Phase(b.caller)
    && (Phase(a.caller) == Phase(b.caller) ==> b.caller == a.caller)
    && (a.caller.AwaitsError? && b.caller.Calls? ==> b.caller.res == a.caller.res)
  }

  lemma LaterComposes<Out, E>(a: Actor<Out, E>, b: Actor<Out, E>, c: Actor<Out, E>)
    requires Later(a, b) && Later(b, c)
    ensures Later(a, c)
  {}

  lemma MovedIsLater<Out, E>(s: State<Out, E>, step: Step<E>)
    requires WellSized(s) && Enabled(s, step) && OwnMove(step) && ActorOk(s.actors[step.i], s.work[step.i])
    ensures Later(s.actors[step.i], Moved(s, step))
  {}

  lemma StepIsLater<Out, E>(s: State<Out, E>, step: Step<E>, i: nat)
    requires Inv(s) && Enabled(s, step) && i < |s.actors|
    ensures i < |Do(s, step).actors| && Later(s.actors[i], Do(s, step).actors[i])
  {
    StepKeepsSizes(s, step);
    assert ActorOk(s.actors[i], s.work[i]);
    hide ActorOk, ErrorsFit, Stored, QueueOk, CallOk, Moved;
    if OwnMove(step) && i == step.i {
      MovesOne(s, step);
      hide Do;
      MovedIsLater(s, step);
    } else {
      OthersStay(s, step, i);
    }
  }

  /** The request goes on, and its slot is final after the callback. */
  ghost predicate GoesOn<Out, E>(s: State<Out, E>, t: State<Out, E>, i: nat)
    requires WellSized(s) && WellSized(t)
  {
    && i < |s.actors| && i < |t.actors| && Later(s.actors[i], t.actors[i])
    && (Phase(s.actors[i].caller) > 3 ==> t.data[i] == s.data[i])
  }

  lemma NextGoesOn<Out(!new), E(!new)>(s: State<Out, E>, t: State<Out, E>, i: nat)
    requires Inv(s) && Next(s, t) && i < |s.actors|
    ensures WellSized(t) && GoesOn(s, t, i)
  {
    hide Inv, Later;
    var step :| Enabled(s, step) && t == Do(s, step);
    StepKeepsSizes(s, step);
    hide Do, Enabled;
    StepIsLater(s, step, i);
    if Phase(s.actors[i].caller) > 3 {
      SlotStays(s, step, i);
    }
  }

  lemma GoesOnComposes<Out, E>(a: State<Out, E>, b: State<Out, E>, c: State<Out, E>, i: nat)
    requires WellSized(a) && WellSized(b) && WellSized(c) && GoesOn(a, b, i) && GoesOn(b, c, i)
    ensures GoesOn(a, c, i)
  {
    LaterComposes(a.actors[i], b.actors[i], c.actors[i]);
  }

  lemma InvIsSized<Out, E>(s: State<Out, E>)
    requires Inv(s)
    ensures WellSized(s)
  {}

  /** Over a whole run: a job that a worker took stays with that worker until it
      is released and is never queued again; the caller goes from one received
      value to the next and never back; and its slot is written once. */
  lemma {:induction false} JobsAreTakenOnce<Out(!new), E(!new)>(run: seq<State<Out, E>>, k: nat, k': nat, i: nat)
    requires IsRun(run) && k <= k' < |run| && i < |run[0].work|
    ensures WellSized(run[k]) && WellSized(run[k']) && GoesOn(run[k], run[k'], i)
    decreases k' - k
  {
    hide Inv, WellSized, Next, GoesOn;
    RunsKeepInv(run, k);
    InvIsSized(run[k]);
    if k == k' {
      GoesOnNowhere(run[k], i);
    } else {
      JobsAreTakenOnce(run, k, k' - 1, i);
      RunsKeepInv(run, k' - 1);
      RunsKeepInv(run, k');
      InvIsSized(run[k' - 1]);
      InvIsSized(run[k']);
      assert Next(run[k' - 1], run[k' - 1 + 1]);
      SizeOfWork(run[k' - 1]);
      NextGoesOn(run[k' - 1], run[k'], i);
      GoesOnComposes(run[k], run[k' - 1], run[k'], i);
    }
  }

  lemma SizeOfWork<Out, E>(s: State<Out, E>)
    requires WellSized(s)
    ensures |s.actors| == |s.work|
  {}

  lemma GoesOnNowhere<Out, E>(s: State<Out, E>, i: nat)
    requires WellSized(s) && i < |s.work|
    ensures GoesOn(s, s, i)
  {}

  /** What a caller receives is exactly one of its own outcome and its own error:
      what its work failed with, or that its call was cancelled. */
  lemma OneResult<Out(!new), E(!new)>(run: seq<State<Out, E>>, k: nat, i: nat)
    requires IsRun(run) && k < |run| && i < |run[0].work|
    ensures WellSized(run[k]) && i < |run[k].actors|
    ensures var caller := run[k].actors[i].caller;
      caller.Calls? ==>
        && caller.res.Some? != caller.err.Some?
        && (caller.res.Some? ==> run[0].work[i] == Good(caller.res.value))
        && (caller.err.Some? ==> match caller.err.value
              case WorkFailed(e) => run[0].work[i] == Bad(e) || (run[k].actors[i].aborted == Some(e) && CallOf(run[k], i).cancelled)
              case JobCancelled => CallOf(run[k], i).cancelled
              case PoolClosed => false)
  {
    RunsKeepInv(run, k);
    assert ActorOk(run[k].actors[i], run[k].work[i]) && ErrorsFit(run[k], i);
  }

  /** In every reachable state each queued job waits once, and no worker holds
      two jobs. */
  lemma WorkersHoldOne<Out(!new), E(!new)>(run: seq<State<Out, E>>, k: nat)
    requires IsRun(run) && k < |run|
    ensures WellSized(run[k]) && QueueOk(run[k])
  {
    RunsKeepInv(run, k);
  }

  // ---------------------------------------------------------------------
  // Progress

  ghost predicate AtRest<Out, E>(a: Actor<Out, E>) { a.caller.Ended? && !OnWorker(a.stage) }

  ghost predicate Quiet<Out, E>(s: State<Out, E>) {
    forall i | 0 <= i < |s.actors| :: AtRest(s.actors[i])
  }

  ghost predicate Environment<E>(step: Step<E>) { step.Withdraw? || step.ClosePool? }

  /** The actor's own next step, when it can take one. */
  lemma OwnStep<Out, E>(s: State<Out, E>, i: nat) returns (step: Step<E>)
    requires Inv(s) && i < |s.actors|
    requires !s.actors[i].stage.Queued?
    requires !AtRest(s.actors[i])
    ensures Enabled(s, step) && !Environment(step)
  {
    var a := s.actors[i];
    assert ActorOk(a, s.work[i]);
    step :=
      if a.caller.Starting? then Submit(i)
      else if a.caller.Calls? then Callback(i)
      else if a.caller.Closes? then CloseDone(i)
      else if a.caller.Ended? then SeeDone(i)
      else if a.stage.Held? then Check(i)
      else if a.stage.Working? then Finish(i)
      else if a.caller.AwaitsResult? then ReceiveResult(i)
      else ReceiveError(i);
  }

  /** No deadlock: with at least one worker some step is possible until every
      goroutine has ended and every worker is free. */
  lemma Progress<Out, E>(s: State<Out, E>) returns (step: Step<E>)
    requires Inv(s) && s.workers >= 1 && !Quiet(s)
    ensures Enabled(s, step) && !Environment(step)
  {
    if i :| 0 <= i < |s.actors| && !s.actors[i].stage.Queued? && !AtRest(s.actors[i]) {
      step := OwnStep(s, i);
    } else {
      var i :| 0 <= i < |s.actors| && !AtRest(s.actors[i]);
      assert i in s.queue;
      assert forall k | 0 <= k < |s.actors| :: !OnWorker(s.actors[k].stage);
      step := Take(0);
    }
  }

  ghost function CallerRank<Out, E>(c: Caller<Out, E>): nat {
    match c
    case Starting => 20
    case AwaitsResult => 4
    case AwaitsError(_) => 3
    case Calls(_, _) => 2
    case Closes => 1
    case Ended => 0
  }

  ghost function StageRank<Out, E>(st: Stage<Out, E>): nat {
    match st
    case NotQueued => 0
    case Queued => 6
    case Held(_) => 5
    case Working(_) => 4
    case SendsResult(_, _) => 3
    case SendsError(_, _) => 3
    case AwaitsDone(_) => 1
    case Released => 0
  }

  ghost function Rank<Out, E>(a: Actor<Out, E>): nat { CallerRank(a.caller) + StageRank(a.stage) }

  lemma MoveDecreases<Out, E>(s: State<Out, E>, step: Step<E>)
    requires Inv(s) && Enabled(s, step) && OwnMove(step)
    ensures Rank(Moved(s, step)) < Rank(s.actors[step.i])
  {
    assert ActorOk(s.actors[step.i], s.work[step.i]);
  }

  /** Every step but the environment's brings the end nearer, so with
      `Progress` every schedule finishes. */
  lemma StepsDecrease<Out, E>(s: State<Out, E>, step: Step<E>)
    requires Inv(s) && Enabled(s, step) && !Environment(step)
    ensures Sum(Do(s, step).actors, Rank) < Sum(s.actors, Rank)
  {
    if step.Take? {
      var j := s.queue[0];
      assert j in s.queue && s.actors[j].stage.Queued?;
      var held := s.actors[j].(stage := Held(step.w));
      SumUpdate(s.actors, j, held, Rank);
    } else {
      MoveDecreases(s, step);
      SumUpdate(s.actors, step.i, Moved(s, step), Rank);
    }
  }
}
