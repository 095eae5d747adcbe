/** Durable trip-event work queue (worker.py over the Redis operations of runtime_store.py): reserve,
    handle, retry, acknowledge, promote and recover as atomic steps with crashes anywhere between. The
    handler takes the locking and fencing steps of WorkerFence. */
module WorkQueue {
  import opened Basics
  import opened FencedLock
  import F = WorkerFence

  type Identity = F.Event

  /** A queued job; `attempt` is 0 and `limit` absent until its first retry writes them in. */
  datatype Payload = Payload(id: Identity, attempt: nat, limit: Option<nat>)

  /** Why a handler returned normally: the event is processed, another worker's claim stands in the
      way, or the trip no longer exists. */
  datatype Reason = Processed | Fenced | TripGone

  /** What a worker has done with the payload it reserved. */
  datatype Progress = Unhandled | Retried | Finished(reason: Reason)

  datatype Worker = Worker(payload: Payload, progress: Progress)

  /** Lists grow at the front and are taken from the back; the retry set keeps one copy of equal texts.
      `top` records the highest attempt ever stored, `gone` the identities whose trip was deleted. */
  datatype State = State(
    queue: seq<Payload>,
    processing: seq<Payload>,
    retries: set<Payload>,
    dead: seq<Payload>,
    workers: map<nat, Worker>,
    top: map<Identity, nat>,
    gone: set<Identity>,
    fence: F.State)

  const EMPTY := State([], [], {}, [], map[], map[], {}, F.EMPTY)

  /** Attempts allowed when the trip's lock was taken, and when handling failed. */
  const CONTENTION_LIMIT := 8
  const FAILURE_LIMIT := 5

  datatype Step =
    | Enqueue(id: Identity)
    | DeleteTrip(id: Identity)
    | Reserve(worker: nat)
    | Handle(move: F.Step)
    | Finish(worker: nat, reason: Reason)
    | Retry(worker: nat, contended: bool)
    | Acknowledge(worker: nat)
    | Promote(payload: Payload)
    | Recover
    | Crash(worker: nat)

  predicate IsProcessed(s: State, id: Identity) { id in s.fence.rows && s.fence.rows[id].processed }

  predicate Handling(s: State, w: nat) { w in s.workers && s.workers[w].progress.Unhandled? }

  /** A worker takes locking and fencing steps for the payload it holds, and leaves the lock at the end. */
  predicate MayMove(s: State, move: F.Step) {
    match move
    case Tick(_) => true
    case NewEvent(_) => true
    case Acquire(w, event, _, _) => Handling(s, w) && s.workers[w].payload.id == event
    case Leave(w) => w in s.workers
    case Crash(_) => false
    case _ => Handling(s, move.worker)
  }

  /** The conditions under which the handler returns normally. */
  predicate MayFinish(s: State, w: nat, reason: Reason)
    requires w in s.workers
  {
    var id := s.workers[w].payload.id;
    match reason
    case Processed => IsProcessed(s, id)
    case Fenced =>
      && w in s.fence.workers && s.fence.workers[w].event == id && id in s.fence.rows
      && s.fence.workers[w].phase == F.Verified && !F.ClaimSucceeds(s.fence, w)
    case TripGone => id in s.gone
  }

  predicate Enabled(s: State, e: Step, trips: F.Trips) {
    match e
    case Enqueue(id) => id !in s.top && id in s.fence.rows
    case DeleteTrip(_) => true
    case Reserve(w) => w !in s.workers && s.queue != []
    case Handle(move) => MayMove(s, move) && F.Enabled(s.fence, move, trips)
    case Finish(w, reason) => Handling(s, w) && MayFinish(s, w, reason)
    case Retry(w, _) => Handling(s, w)
    case Acknowledge(w) => w in s.workers && !s.workers[w].progress.Unhandled? && w !in s.fence.workers
    case Promote(p) => p in s.retries
    case Recover => s.processing != []
    case Crash(w) => w in s.workers
  }

  function RetryLimit(contended: bool): nat { if contended then CONTENTION_LIMIT else FAILURE_LIMIT }

  function NextAttempt(p: Payload, contended: bool): Payload {
    Payload(p.id, p.attempt + 1, Some(RetryLimit(contended)))
  }

  function Raise(top: map<Identity, nat>, p: Payload): map<Identity, nat> {
    top[p.id := if p.id in top then (if top[p.id] < p.attempt then p.attempt else top[p.id]) else p.attempt]
  }

  /** Stores a retry, or a dead letter once the attempts are used up. */
  function StoreRetry(s: State, p: Payload): State {
    if p.limit.Some? && p.attempt >= p.limit.value then s.(dead := [p] + s.dead, top := Raise(s.top, p))
    else s.(retries := s.retries + {p}, top := Raise(s.top, p))
  }

  function RemoveOne(s: seq<Payload>, p: Payload): seq<Payload> {
    var i := IndexOf(s, p);
    if i == |s| then s else Without(s, i)
  }

  function SetProgress(s: State, w: nat, progress: Progress): State
    requires w in s.workers
  {
    s.(workers := s.workers[w := s.workers[w].(progress := progress)])
  }

  /** `lrem` removes one entry with the payload's text, whoever put it there. */
  function Next(s: State, e: Step, trips: F.Trips): State
    requires Enabled(s, e, trips)
  {
    match e
    case Enqueue(id) => s.(queue := [Payload(id, 0, None)] + s.queue, top := s.top[id := 0])
    case DeleteTrip(id) => s.(gone := s.gone + {id})
    case Reserve(w) =>
      var p := s.queue[|s.queue| - 1];
      s.(queue := s.queue[..|s.queue| - 1], processing := [p] + s.processing,
          workers := s.workers[w := Worker(p, Unhandled)])
    case Handle(move) => s.(fence := F.Next(s.fence, move, trips))
    case Finish(w, reason) => SetProgress(s, w, Finished(reason))
    case Retry(w, contended) => StoreRetry(SetProgress(s, w, Retried), NextAttempt(s.workers[w].payload, contended))
    case Acknowledge(w) => s.(processing := RemoveOne(s.processing, s.workers[w].payload), workers := s.workers - {w})
    case Promote(p) => s.(retries := s.retries - {p}, queue := [p] + s.queue)
    case Recover =>
      var p := s.processing[|s.processing| - 1];
      s.(processing := s.processing[..|s.processing| - 1], queue := [p] + s.queue)
    case Crash(w) => s.(workers := s.workers - {w}, fence := F.Departed(s.fence, w))
  }

  ghost predicate Execution(trace: seq<State>, steps: seq<Step>, trips: F.Trips) {
    && |trace| == |steps| + 1 && trace[0] == EMPTY
    && forall i :: 0 <= i < |steps| ==>
         Enabled(trace[i], steps[i], trips) && trace[i + 1] == Next(trace[i], steps[i], trips)
  }

  // ------------------------------------------------------------------ invariants

  /** A job in circulation may still be retried and is not beyond the highest attempt on record. */
  ghost predicate Circulates(p: Payload, top: map<Identity, nat>) {
    p.attempt < CONTENTION_LIMIT && p.id in top && p.attempt <= top[p.id]
  }

  /** A dead letter used up its attempts. */
  ghost predicate Exhausted(p: Payload, top: map<Identity, nat>) {
    && p.limit.Some? && FAILURE_LIMIT <= p.limit.value <= p.attempt <= CONTENTION_LIMIT
    && p.id in top && p.attempt <= top[p.id]
  }

  ghost predicate QueuesBounded(s: State) {
    && (forall p :: p in s.queue ==> Circulates(p, s.top))
    && (forall p :: p in s.processing ==> Circulates(p, s.top))
    && (forall p :: p in s.retries ==> Circulates(p, s.top))
    && (forall p :: p in s.dead ==> Exhausted(p, s.top))
  }

  /** A worker that retried stored a later attempt; one that reports success has a processed event. */
  ghost predicate WorkerBounded(s: State, w: nat) {
    && w in s.workers && Circulates(s.workers[w].payload, s.top)
    && (s.workers[w].progress.Retried? ==> s.top[s.workers[w].payload.id] > s.workers[w].payload.attempt)
    && (s.workers[w].progress == Finished(Processed) ==> IsProcessed(s, s.workers[w].payload.id))
  }

  ghost predicate Bounded(s: State) {
    QueuesBounded(s) && forall w :: w in s.workers ==> WorkerBounded(s, w)
  }

  lemma RaiseKeeps(top: map<Identity, nat>, p: Payload)
    ensures forall q :: Circulates(q, top) ==> Circulates(q, Raise(top, p))
    ensures forall q :: Exhausted(q, top) ==> Exhausted(q, Raise(top, p))
    ensures forall id :: id in top ==> id in Raise(top, p) && top[id] <= Raise(top, p)[id]
  {}

  /** The fencing steps of a handler never make a processed event unprocessed. */
  lemma ProcessedStays(s: State, e: Step, trips: F.Trips, id: Identity)
    requires Enabled(s, e, trips) && IsProcessed(s, id)
    ensures IsProcessed(Next(s, e, trips), id)
  {
    if e.Handle? { F.StepMonotone(s.fence, e.move, trips, 0, id); }
    hide F.Next, F.Enabled, MayMove, MayFinish;
  }

  lemma StepKeepsBounded(s: State, e: Step, trips: F.Trips)
    requires Bounded(s) && Enabled(s, e, trips)
    ensures Bounded(Next(s, e, trips))
  {
    QueuesStayBounded(s, e, trips);
    hide QueuesBounded;
    forall w | w in Next(s, e, trips).workers
      ensures WorkerBounded(Next(s, e, trips), w)
    {
      WorkerStaysBounded(s, e, trips, w);
    }
  }

  lemma QueuesStayBounded(s: State, e: Step, trips: F.Trips)
    requires Bounded(s) && Enabled(s, e, trips)
    ensures QueuesBounded(Next(s, e, trips))
  {
    hide F.Next, F.Enabled, MayMove, MayFinish;
    match e
    case Enqueue(id) => EnqueueKeepsQueues(s, id, trips);
    case Retry(w, contended) => RetryKeepsQueues(s, w, contended, trips);
    case Acknowledge(w) => AcknowledgeKeepsQueues(s, w, trips);
    case Reserve(w) => ReserveKeepsQueues(s, w, trips);
    case Recover => RecoverKeepsQueues(s, trips);
    case _ => hide Circulates, Exhausted;
  }

  lemma EnqueueKeepsQueues(s: State, id: Identity, trips: F.Trips)
    requires QueuesBounded(s) && Enabled(s, Enqueue(id), trips)
    ensures QueuesBounded(Next(s, Enqueue(id), trips))
  {
    var top := s.top[id := 0];
    assert forall q :: Circulates(q, s.top) ==> Circulates(q, top);
    assert forall q :: Exhausted(q, s.top) ==> Exhausted(q, top);
  }

  lemma RetryKeepsQueues(s: State, w: nat, contended: bool, trips: F.Trips)
    requires Bounded(s) && Enabled(s, Retry(w, contended), trips)
    ensures QueuesBounded(Next(s, Retry(w, contended), trips))
  {
    assert WorkerBounded(s, w);
    var p := NextAttempt(s.workers[w].payload, contended);
    RaiseKeeps(s.top, p);
    assert p.attempt >= RetryLimit(contended) ==> Exhausted(p, Raise(s.top, p));
    assert p.attempt < RetryLimit(contended) ==> Circulates(p, Raise(s.top, p));
    hide Circulates, Exhausted, Raise, WorkerBounded;
  }

  lemma AcknowledgeKeepsQueues(s: State, w: nat, trips: F.Trips)
    requires QueuesBounded(s) && Enabled(s, Acknowledge(w), trips)
    ensures QueuesBounded(Next(s, Acknowledge(w), trips))
  {
    hide Circulates, Exhausted, IndexOf;
    assert forall q :: q in RemoveOne(s.processing, s.workers[w].payload) ==> q in s.processing;
  }

  lemma ReserveKeepsQueues(s: State, w: nat, trips: F.Trips)
    requires QueuesBounded(s) && Enabled(s, Reserve(w), trips)
    ensures QueuesBounded(Next(s, Reserve(w), trips))
  {
    hide Circulates, Exhausted;
    assert s.queue[|s.queue| - 1] in s.queue;
  }

  lemma RecoverKeepsQueues(s: State, trips: F.Trips)
    requires QueuesBounded(s) && Enabled(s, Recover, trips)
    ensures QueuesBounded(Next(s, Recover, trips))
  {
    hide Circulates, Exhausted;
    assert s.processing[|s.processing| - 1] in s.processing;
  }

  lemma WorkerStaysBounded(s: State, e: Step, trips: F.Trips, w: nat)
    requires Bounded(s) && Enabled(s, e, trips) && w in Next(s, e, trips).workers
    ensures WorkerBounded(Next(s, e, trips), w)
  {
    var t := Next(s, e, trips);
    if w in s.workers {
      assert WorkerBounded(s, w);
      if IsProcessed(s, s.workers[w].payload.id) { ProcessedStays(s, e, trips, s.workers[w].payload.id); }
    } else {
      assert s.queue[|s.queue| - 1] in s.queue;
    }
    hide F.Next, F.Enabled, MayMove, RemoveOne, Bounded, F.ClaimSucceeds;
    TopGrows(s, e, trips);
  }

  lemma TopGrows(s: State, e: Step, trips: F.Trips)
    requires Enabled(s, e, trips)
    ensures forall id :: id in s.top ==> id in Next(s, e, trips).top && s.top[id] <= Next(s, e, trips).top[id]
  {
    hide F.Next, F.Enabled, MayMove, MayFinish, RemoveOne;
  }

  // --------------------------------------------------------- copies of a latest attempt

  /** The payload is the latest attempt on record for this identity. */
  predicate IsLatest(p: Payload, id: Identity, top: map<Identity, nat>) {
    p.id == id && id in top && p.attempt == top[id]
  }

  function Count(s: seq<Payload>, id: Identity, top: map<Identity, nat>): nat {
    if s == [] then 0 else (if IsLatest(s[0], id, top) then 1 else 0) + Count(s[1..], id, top)
  }

  function Waiting(retries: set<Payload>, id: Identity, top: map<Identity, nat>): set<Payload> {
    set p | p in retries && IsLatest(p, id, top)
  }

  /** Stored copies of the latest attempt of an identity. */
  function Copies(s: State, id: Identity): nat {
    Count(s.queue, id, s.top) + Count(s.processing, id, s.top) + Count(s.dead, id, s.top)
        + |Waiting(s.retries, id, s.top)|
  }

  /** An enqueued event that is neither processed nor stored anywhere at its latest attempt. */
  predicate Lost(s: State, id: Identity) { id in s.top && !IsProcessed(s, id) && Copies(s, id) == 0 }

  /** The acknowledgement of the one stored copy of the latest attempt of an unprocessed event. */
  predicate LosingAcknowledgement(s: State, e: Step, id: Identity) {
    && e.Acknowledge? && e.worker in s.workers
    && IsLatest(s.workers[e.worker].payload, id, s.top) && s.workers[e.worker].payload in s.processing
    && !IsProcessed(s, id) && Copies(s, id) == 1
  }

  lemma {:induction false} CountConcat(a: seq<Payload>, b: seq<Payload>, id: Identity, top: map<Identity, nat>)
    ensures Count(a + b, id, top) == Count(a, id, top) + Count(b, id, top)
  {
    if a == [] {
      assert a + b == b;
    } else {
      assert (a + b)[1..] == a[1..] + b;
      CountConcat(a[1..], b, id, top);
    }
  }

  lemma {:induction false} CountPositive(s: seq<Payload>, id: Identity, top: map<Identity, nat>)
    ensures Count(s, id, top) > 0 <==> exists p :: p in s && IsLatest(p, id, top)
  {
    if s != [] {
      CountPositive(s[1..], id, top);
      assert s == [s[0]] + s[1..];
    }
  }

  lemma CountOne(p: Payload, id: Identity, top: map<Identity, nat>)
    ensures Count([p], id, top) == if IsLatest(p, id, top) then 1 else 0
  {
    assert [p][1..] == [];
  }

  lemma CountFront(p: Payload, s: seq<Payload>, id: Identity, top: map<Identity, nat>)
    ensures Count([p] + s, id, top) == Count(s, id, top) + if IsLatest(p, id, top) then 1 else 0
  {
    assert ([p] + s)[1..] == s;
  }

  lemma CountBack(s: seq<Payload>, id: Identity, top: map<Identity, nat>)
    requires s != []
    ensures Count(s, id, top) == Count(s[..|s| - 1], id, top) + if IsLatest(s[|s| - 1], id, top) then 1 else 0
  {
    assert s == s[..|s| - 1] + [s[|s| - 1]];
    CountConcat(s[..|s| - 1], [s[|s| - 1]], id, top);
    CountOne(s[|s| - 1], id, top);
  }

  lemma CountRemoved(s: seq<Payload>, p: Payload, id: Identity, top: map<Identity, nat>)
    ensures Count(s, id, top) == Count(RemoveOne(s, p), id, top) + if p in s && IsLatest(p, id, top) then 1 else 0
  {
    var i := IndexOf(s, p);
    if i < |s| {
      assert s == s[..i] + ([p] + s[i + 1..]);
      CountConcat(s[..i], [p] + s[i + 1..], id, top);
      CountFront(p, s[i + 1..], id, top);
      CountConcat(s[..i], s[i + 1..], id, top);
    }
  }

  /** Counts look at the recorded attempt of one identity only. */
  lemma {:induction false} CountFrame(s: seq<Payload>, id: Identity, top: map<Identity, nat>, other: map<Identity, nat>)
    requires id in top && id in other && top[id] == other[id]
    ensures Count(s, id, top) == Count(s, id, other)
  {
    if s != [] {
      CountFrame(s[1..], id, top, other);
    }
  }

  lemma CopiesFrame(s: State, id: Identity, top: map<Identity, nat>)
    requires id in s.top && id in top && top[id] == s.top[id]
    ensures Copies(s.(top := top), id) == Copies(s, id)
  {
    CountFrame(s.queue, id, s.top, top);
    CountFrame(s.processing, id, s.top, top);
    CountFrame(s.dead, id, s.top, top);
    assert Waiting(s.retries, id, s.top) == Waiting(s.retries, id, top);
  }

  // ----------------------------------------------- what each step does to the copies

  lemma ReserveCopies(s: State, w: nat, trips: F.Trips, id: Identity)
    requires Enabled(s, Reserve(w), trips)
    ensures Copies(Next(s, Reserve(w), trips), id) == Copies(s, id)
  {
    var p := s.queue[|s.queue| - 1];
    CountBack(s.queue, id, s.top);
    CountFront(p, s.processing, id, s.top);
    hide Count, Waiting;
  }

  lemma RecoverCopies(s: State, trips: F.Trips, id: Identity)
    requires Enabled(s, Recover, trips)
    ensures Copies(Next(s, Recover, trips), id) == Copies(s, id)
  {
    var p := s.processing[|s.processing| - 1];
    CountBack(s.processing, id, s.top);
    CountFront(p, s.queue, id, s.top);
    hide Count, Waiting;
  }

  lemma PromoteCopies(s: State, p: Payload, trips: F.Trips, id: Identity)
    requires Enabled(s, Promote(p), trips)
    ensures Copies(Next(s, Promote(p), trips), id) == Copies(s, id)
  {
    CountFront(p, s.queue, id, s.top);
    hide Count;
    var before, after := Waiting(s.retries, id, s.top), Waiting(s.retries - {p}, id, s.top);
    assert before == if IsLatest(p, id, s.top) then after + {p} else after;
  }

  lemma AcknowledgeCopies(s: State, w: nat, trips: F.Trips, id: Identity)
    requires Enabled(s, Acknowledge(w), trips)
    ensures var p := s.workers[w].payload;
            Copies(s, id) == Copies(Next(s, Acknowledge(w), trips), id) + if p in s.processing
                && IsLatest(p, id, s.top) then 1 else 0
  {
    CountRemoved(s.processing, s.workers[w].payload, id, s.top);
    hide Count, Waiting, RemoveOne;
  }

  /** A retry of the latest attempt is stored as the new latest one; other identities are untouched. */
  lemma RetryCopies(s: State, w: nat, contended: bool, trips: F.Trips, id: Identity)
    requires Bounded(s) && Enabled(s, Retry(w, contended), trips) && id in s.top
    ensures Copies(s, id) > 0 ==> Copies(Next(s, Retry(w, contended), trips), id) > 0
  {
    var p := NextAttempt(s.workers[w].payload, contended);
    var t := Next(s, Retry(w, contended), trips);
    assert WorkerBounded(s, w);
    if IsLatest(p, id, t.top) {
      StoredIsCounted(t, p, id);
    } else {
      CopiesFrame(s, id, t.top);
      RetryAdds(s.(top := t.top), p, id);
      hide Copies;
    }
  }

  lemma StoredIsCounted(t: State, p: Payload, id: Identity)
    requires IsLatest(p, id, t.top) && (p in t.dead || p in t.retries)
    ensures Copies(t, id) > 0
  {
    CountPositive(t.dead, id, t.top);
    hide Count;
    if p in t.retries { assert p in Waiting(t.retries, id, t.top); }
  }

  lemma RetryAdds(s: State, p: Payload, id: Identity)
    requires !IsLatest(p, id, s.top)
    ensures Copies(s.(dead := [p] + s.dead), id) == Copies(s, id)
    ensures Copies(s.(retries := s.retries + {p}), id) == Copies(s, id)
  {
    CountFront(p, s.dead, id, s.top);
    hide Count;
    assert Waiting(s.retries + {p}, id, s.top) == Waiting(s.retries, id, s.top);
  }

  lemma EnqueueCopies(s: State, added: Identity, trips: F.Trips, id: Identity)
    requires Enabled(s, Enqueue(added), trips)
    ensures id == added ==> Copies(Next(s, Enqueue(added), trips), id) > 0
    ensures id != added && id in s.top ==> Copies(Next(s, Enqueue(added), trips), id) == Copies(s, id)
  {
    var p, top := Payload(added, 0, None), s.top[added := 0];
    CountFront(p, s.queue, id, top);
    if id != added && id in s.top {
      CopiesFrame(s, id, top);
    }
  }

  // ------------------------------------------------------------------- durability

  /** A step keeps the copies of an identity, but for the acknowledgement of one of them. */
  lemma StepCopies(s: State, e: Step, trips: F.Trips, id: Identity)
    requires Bounded(s) && Enabled(s, e, trips) && id in s.top && !e.Acknowledge?
    ensures Copies(s, id) > 0 ==> Copies(Next(s, e, trips), id) > 0
  {
    match e
    case Enqueue(other) => EnqueueCopies(s, other, trips, id);
    case Reserve(w) => ReserveCopies(s, w, trips, id);
    case Retry(w, contended) => RetryCopies(s, w, contended, trips, id);
    case Promote(p) => PromoteCopies(s, p, trips, id);
    case Recover => RecoverCopies(s, trips, id);
    case _ => hide F.Next, F.Enabled, MayMove, MayFinish, Bounded, Count, Waiting;
  }

  /** Exactly one kind of step loses an event: the acknowledgement of the only stored copy of its latest
      attempt while the event is unprocessed. No crash and no other step ever does. */
  lemma StepLosesIff(s: State, e: Step, trips: F.Trips, id: Identity)
    requires Bounded(s) && Enabled(s, e, trips) && !Lost(s, id)
    ensures Lost(Next(s, e, trips), id) <==> LosingAcknowledgement(s, e, id)
  {
    if e.Acknowledge? {
      AcknowledgeCopies(s, e.worker, trips, id);
      hide Copies, RemoveOne, Bounded;
    } else if id in s.top {
      StepCopies(s, e, trips, id);
      if IsProcessed(s, id) { ProcessedStays(s, e, trips, id); }
      hide Copies, Next, Bounded;
    } else if e.Enqueue? {
      EnqueueCopies(s, e.id, trips, id);
      hide Copies, Bounded;
    } else {
      OthersStayOut(s, e, trips, id);
      hide Next, Copies;
    }
  }

  lemma OthersStayOut(s: State, e: Step, trips: F.Trips, id: Identity)
    requires Bounded(s) && Enabled(s, e, trips) && id !in s.top && !e.Enqueue?
    ensures id !in Next(s, e, trips).top
  {
    if e.Retry? { assert WorkerBounded(s, e.worker); }
    hide F.Next, F.Enabled, MayMove, MayFinish, RemoveOne, Bounded;
  }

  /** A losing worker was turned away: its claim was superseded, or its trip is gone. */
  lemma LoserWasDismissed(s: State, e: Step, trips: F.Trips, id: Identity)
    requires Bounded(s) && Enabled(s, e, trips) && LosingAcknowledgement(s, e, id)
    ensures s.workers[e.worker].progress in {Finished(Fenced), Finished(TripGone)}
  {
    assert WorkerBounded(s, e.worker);
    hide Bounded, Copies;
    var progress := s.workers[e.worker].progress;
    assert progress.Finished? && (progress.reason.Fenced? || progress.reason.TripGone?);
  }

  lemma EmptyBounded()
    ensures Bounded(EMPTY)
  {}

  lemma {:induction false} RunKeepsBounded(trace: seq<State>, steps: seq<Step>, trips: F.Trips, i: nat)
    requires Execution(trace, steps, trips) && i < |trace|
    ensures Bounded(trace[i])
  {
    hide Next, Enabled, Bounded;
    if i == 0 {
      EmptyBounded();
    } else {
      RunKeepsBounded(trace, steps, trips, i - 1);
      StepKeepsBounded(trace[i - 1], steps[i - 1], trips);
    }
  }

  /** In any run, whatever crashes and recoveries happen, an event that is lost was lost by such an
      acknowledgement. */
  lemma {:induction false} LostByAcknowledgement(trace: seq<State>, steps: seq<Step>, trips: F.Trips, i: nat,
      id: Identity)
    returns (j: nat)
    requires Execution(trace, steps, trips) && i < |trace| && Lost(trace[i], id)
    ensures j < i && LosingAcknowledgement(trace[j], steps[j], id)
    ensures trace[j].workers[steps[j].worker].progress in {Finished(Fenced), Finished(TripGone)}
  {
    hide Next, Enabled, Bounded, Lost, LosingAcknowledgement;
    if i == 0 {
      NothingLostYet(id);
    } else {
      RunKeepsBounded(trace, steps, trips, i - 1);
      if Lost(trace[i - 1], id) {
        j := LostByAcknowledgement(trace, steps, trips, i - 1, id);
      } else {
        j := i - 1;
        StepLosesIff(trace[j], steps[j], trips, id);
        LoserWasDismissed(trace[j], steps[j], trips, id);
      }
    }
  }

  lemma NothingLostYet(id: Identity)
    ensures !Lost(EMPTY, id)
  {}

  /** An unprocessed event that no dismissed worker acknowledged away is stored at its latest attempt:
      dead-lettered after at least five attempts, or waiting in the queue, in processing or in the retry
      set with fewer than eight. */
  lemma Durability(trace: seq<State>, steps: seq<Step>, trips: F.Trips, i: nat, id: Identity)
    requires Execution(trace, steps, trips) && i < |trace| && id in trace[i].top && !IsProcessed(trace[i], id)
    requires forall j :: 0 <= j < i ==> !LosingAcknowledgement(trace[j], steps[j], id)
    ensures var s := trace[i];
            exists p: Payload ::
              && p.id == id && p.attempt == s.top[id]
              && ((p in s.dead && FAILURE_LIMIT <= p.attempt <= CONTENTION_LIMIT)
                  || ((p in s.queue || p in s.processing || p in s.retries) && p.attempt < CONTENTION_LIMIT))
  {
    hide Next, Enabled, LosingAcknowledgement;
    var s := trace[i];
    RunKeepsBounded(trace, steps, trips, i);
    if Lost(s, id) {
      var j := LostByAcknowledgement(trace, steps, trips, i, id);
    }
    CopiesAreStored(s, id);
    hide Copies;
  }

  lemma CopiesAreStored(s: State, id: Identity)
    ensures Copies(s, id) > 0 <==>
            exists p :: (p in s.queue || p in s.processing || p in s.dead || p in s.retries) && IsLatest(p, id, s.top)
  {
    CountPositive(s.queue, id, s.top);
    CountPositive(s.processing, id, s.top);
    CountPositive(s.dead, id, s.top);
    hide Count;
    if p :| p in s.retries && IsLatest(p, id, s.top) {
      assert p in Waiting(s.retries, id, s.top);
    }
    if Waiting(s.retries, id, s.top) != {} {
      var p :| p in Waiting(s.retries, id, s.top);
    }
  }

  /** The recorded attempt never goes down, and a retry goes up by exactly one from what was handled. */
  lemma AttemptsIncrease(s: State, e: Step, trips: F.Trips, id: Identity)
    requires Bounded(s) && Enabled(s, e, trips) && id in s.top
    ensures id in Next(s, e, trips).top && s.top[id] <= Next(s, e, trips).top[id] <= s.top[id] + 1
    ensures Next(s, e, trips).top[id] > s.top[id] ==>
              e.Retry? && s.workers[e.worker].payload.id == id && s.workers[e.worker].payload.attempt == s.top[id]
  {
    if e.Retry? { assert WorkerBounded(s, e.worker); }
    hide F.Next, F.Enabled, MayMove, MayFinish, RemoveOne, Bounded;
  }

  // ---------------------------------------------------------------- a run that loses

  // Worker 1 reserves the event of trip 0, takes the lock with fence 1 and passes the ownership check;
  // its lease of 60 seconds runs out. Worker 2 starts: it recovers the payload, reserves it, takes the
  // lock with fence 2 and claims the event. Worker 1's claim fails, it acknowledges, and `lrem` takes
  // worker 2's entry. Worker 2 crashes.
  const ONE_TRIP: F.Trips := map[0 := 0]
  const JOB := Payload(0, 0, None)
  const FIRST := Token(1, 1)
  const SECOND := Token(2, 2)
  const LAST_STAGE: nat := 15

  function Move(k: nat): Step {
    match k
    case 0 => Handle(F.NewEvent(0))
    case 1 => Enqueue(0)
    case 2 => Reserve(1)
    case 3 => Handle(F.Acquire(1, 0, 60, 1))
    case 4 => Handle(F.Verify(1))
    case 5 => Handle(F.Tick(60))
    case 6 => Recover
    case 7 => Reserve(2)
    case 8 => Handle(F.Acquire(2, 0, 60, 2))
    case 9 => Handle(F.Verify(2))
    case 10 => Handle(F.Claim(2))
    case 11 => Finish(1, Fenced)
    case 12 => Handle(F.Leave(1))
    case 13 => Acknowledge(1)
    case _ => Crash(2)
  }

  function Locking(k: nat): Locks {
    if k <= 3 then Locks(map[], map[])
    else if k <= 8 then Locks(map[0 := Lease(FIRST, 60)], map[0 := 1])
    else Locks(map[0 := Lease(SECOND, 120)], map[0 := 2])
  }

  function Racers(k: nat): map<nat, F.Worker> {
    var one := F.Worker(0, FIRST, if k == 4 then F.Holding else F.Verified, false);
    var two := F.Worker(0, SECOND, if k == 9 then F.Holding else if k == 10 then F.Verified else F.Claimed, false);
    if k <= 3 || k >= 15 then map[]
    else if k <= 8 then map[1 := one]
    else if k <= 12 then map[1 := one, 2 := two]
    else map[2 := two]
  }

  function Fencing(k: nat): F.State {
    if k == 0 then F.EMPTY
    else F.State(Locking(k), map[0 := F.Row(if k >= 11 then 2 else 0, false)], Racers(k), if k >= 6 then 60 else 0)
  }

  function Holders(k: nat): map<nat, Worker> {
    var one := Worker(JOB, if k >= 12 then Finished(Fenced) else Unhandled);
    if k <= 2 || k >= 15 then map[]
    else if k <= 7 then map[1 := one]
    else if k <= 13 then map[1 := one, 2 := Worker(JOB, Unhandled)]
    else map[2 := Worker(JOB, Unhandled)]
  }

  function Stage(k: nat): State {
    State(if k == 2 || k == 7 then [JOB] else [],
          if 3 <= k <= 6 || 8 <= k <= 13 then [JOB] else [],
          {}, [], Holders(k), if k <= 1 then map[] else map[0 := 0], {}, Fencing(k))
  }

  /** The step from stage `k` is enabled and leads to the next stage. */
  ghost predicate Goes(k: nat) {
    Enabled(Stage(k), Move(k), ONE_TRIP) && Stage(k + 1) == Next(Stage(k), Move(k), ONE_TRIP)
  }

  lemma FirstWorkerGoes(k: nat)
    requires k <= 5
    ensures Goes(k)
  {
    assert [JOB][..0] == [];
  }

  lemma RecoveryGoes(k: nat)
    requires 6 <= k <= 7
    ensures Goes(k)
  {
    assert [JOB][..0] == [];
  }

  lemma SecondWorkerLocks()
    ensures Goes(8)
  {}

  lemma SecondWorkerVerifies()
    ensures Goes(9)
  {}

  lemma SecondWorkerClaims()
    ensures Goes(10)
  {}

  lemma DismissalGoes()
    ensures Goes(11)
  {}

  lemma LeaveGoes()
    ensures Goes(12)
  {}

  lemma AcknowledgementGoes(k: nat)
    requires 13 <= k < LAST_STAGE
    ensures Goes(k)
  {
    HeldThenDropped([], JOB);
    hide RemoveOne;
    assert [JOB] + [] == [JOB];
  }

  lemma EachGoes(k: nat)
    requires k < LAST_STAGE
    ensures Goes(k)
  {
    hide Goes;
    if k <= 5 { FirstWorkerGoes(k); }
    else if k <= 7 { RecoveryGoes(k); }
    else if k == 8 { SecondWorkerLocks(); }
    else if k == 9 { SecondWorkerVerifies(); }
    else if k == 10 { SecondWorkerClaims(); }
    else if k == 11 { DismissalGoes(); }
    else if k == 12 { LeaveGoes(); }
    else { AcknowledgementGoes(k); }
  }

  function Stages(k: nat): (r: seq<State>)
    ensures |r| == k && forall i :: 0 <= i < k ==> r[i] == Stage(i)
  {
    if k == 0 then [] else Stages(k - 1) + [Stage(k - 1)]
  }

  function Moves(k: nat): (r: seq<Step>)
    ensures |r| == k && forall i :: 0 <= i < k ==> r[i] == Move(i)
  {
    if k == 0 then [] else Moves(k - 1) + [Move(k - 1)]
  }

  /** Durability is false without its condition: in this run an event ends up unprocessed and in no
      queue, processing list, retry set or dead-letter list, with no worker left. */
  lemma LossHappens() returns (trace: seq<State>, steps: seq<Step>)
    ensures Execution(trace, steps, ONE_TRIP) && |steps| == LAST_STAGE
    ensures LosingAcknowledgement(trace[13], steps[13], 0)
    ensures Lost(trace[LAST_STAGE], 0) && trace[LAST_STAGE].workers == map[]
  {
    LossStage();
    hide Stage, Move, Next, Enabled, Lost, LosingAcknowledgement, Stages, Moves;
    trace, steps := Stages(LAST_STAGE + 1), Moves(LAST_STAGE);
    forall k | 0 <= k < |steps|
      ensures Enabled(trace[k], steps[k], ONE_TRIP) && trace[k + 1] == Next(trace[k], steps[k], ONE_TRIP)
    {
      EachGoes(k);
    }
  }

  lemma LossStage()
    ensures Stage(0) == EMPTY && Lost(Stage(LAST_STAGE), 0) && Stage(LAST_STAGE).workers == map[]
    ensures LosingAcknowledgement(Stage(13), Move(13), 0)
  {
    CountOne(JOB, 0, map[0 := 0]);
    assert Waiting({}, 0, map[0 := 0]) == {};
  }

  // --------------------------------------------------------------- the queue object

  /** How handling ends: with a normal return, with a retry because the lock was taken or handling
      failed, with an exception that gets past the handler, or with the death of the process. */
  datatype Outcome = Returned(reason: Reason) | Contended | Failed | HandlerRaised | HandlerCrashed

  /** The handler's locking and fencing steps, one after the other. */
  ghost predicate MovesEnabled(s: State, moves: seq<F.Step>, trips: F.Trips)
    decreases |moves|
  {
    moves == [] || (Enabled(s, Handle(moves[0]), trips)
        && MovesEnabled(Next(s, Handle(moves[0]), trips), moves[1..], trips))
  }

  ghost function Moved(s: State, moves: seq<F.Step>, trips: F.Trips): State
    requires MovesEnabled(s, moves, trips)
    decreases |moves|
  {
    if moves == [] then s else Moved(Next(s, Handle(moves[0]), trips), moves[1..], trips)
  }

  /** Moves touch the fencing state only. */
  lemma {:induction false} MovedFrame(s: State, moves: seq<F.Step>, trips: F.Trips)
    requires MovesEnabled(s, moves, trips)
    ensures Moved(s, moves, trips) == s.(fence := Moved(s, moves, trips).fence)
    ensures Bounded(s) ==> Bounded(Moved(s, moves, trips))
    decreases |moves|
  {
    if moves != [] {
      var t := Next(s, Handle(moves[0]), trips);
      if Bounded(s) { StepKeepsBounded(s, Handle(moves[0]), trips); }
      MovedFrame(t, moves[1..], trips);
      hide Bounded, F.Next, Moved, Enabled;
    }
  }

  /** The verdict of the handler: a retry, a normal return, or neither. */
  ghost predicate VerdictEnabled(s: State, w: nat, outcome: Outcome, trips: F.Trips) {
    match outcome
    case HandlerRaised => w in s.workers
    case HandlerCrashed => w in s.workers
    case Returned(reason) => Enabled(s, Finish(w, reason), trips)
    case _ => Enabled(s, Retry(w, outcome.Contended?), trips)
  }

  /** Leaving the lock, if the worker got it. */
  ghost function Released(s: State, w: nat, trips: F.Trips): (r: State)
    requires w in s.fence.workers ==> Enabled(s, Handle(F.Leave(w)), trips)
    ensures w !in r.fence.workers && r == s.(fence := r.fence)
  {
    if w in s.fence.workers then Next(s, Handle(F.Leave(w)), trips) else s
  }

  ghost predicate PassEnabled(s: State, w: nat, moves: seq<F.Step>, outcome: Outcome, trips: F.Trips) {
    && Enabled(s, Reserve(w), trips)
    && MovesEnabled(Next(s, Reserve(w), trips), moves, trips)
    && var handled := Moved(Next(s, Reserve(w), trips), moves, trips);
    && VerdictEnabled(handled, w, outcome, trips)
    && (w in handled.fence.workers ==> handled.fence.workers[w].event in trips)
  }

  /** From the handler's verdict to the end of the pass. An exception still releases the lock; the
      death of the process does not. */
  ghost function Concluded(s: State, w: nat, outcome: Outcome, trips: F.Trips): State
    requires VerdictEnabled(s, w, outcome, trips)
    requires w in s.fence.workers ==> s.fence.workers[w].event in trips
  {
    match outcome
    case HandlerRaised => Next(Released(s, w, trips), Crash(w), trips)
    case HandlerCrashed => Next(s, Crash(w), trips)
    case Returned(reason) => Next(Released(Next(s, Finish(w, reason), trips), w, trips), Acknowledge(w), trips)
    case _ => Next(Released(Next(s, Retry(w, outcome.Contended?), trips), w, trips), Acknowledge(w), trips)
  }

  /** One pass of a worker over a non-empty queue, as steps. */
  ghost function Pass(s: State, w: nat, moves: seq<F.Step>, outcome: Outcome, trips: F.Trips): State
    requires PassEnabled(s, w, moves, outcome, trips)
  {
    Concluded(Moved(Next(s, Reserve(w), trips), moves, trips), w, outcome, trips)
  }

  /** What one pass leaves behind: an exception or a crash keeps the payload in processing; otherwise
      processing is as before and either nothing more is stored, whatever the reason of the return, or the next attempt
      waits in the retry set or is a dead letter. */
  ghost predicate Leaves(s: State, t: State, p: Payload, outcome: Outcome) {
    && t.workers == s.workers && s.queue == t.queue + [p]
    && t.processing == (if outcome.HandlerRaised? || outcome.HandlerCrashed? then [p] else []) + s.processing
    && var next := NextAttempt(p, outcome.Contended?);
       var retried := outcome.Contended? || outcome.Failed?;
       var exhausted := next.attempt >= RetryLimit(outcome.Contended?);
       && t.retries == (if retried && !exhausted then s.retries + {next} else s.retries)
       && t.dead == (if retried && exhausted then [next] else []) + s.dead
       && t.top == if retried then Raise(s.top, next) else s.top
  }

  lemma PassMeaning(s: State, w: nat, moves: seq<F.Step>, outcome: Outcome, trips: F.Trips)
    requires PassEnabled(s, w, moves, outcome, trips)
    ensures Leaves(s, Pass(s, w, moves, outcome, trips), s.queue[|s.queue| - 1], outcome)
    ensures outcome == Returned(Processed) ==> IsProcessed(Pass(s, w, moves, outcome, trips), s.queue[|s.queue| - 1].id)
  {
    var p, held := s.queue[|s.queue| - 1], Next(s, Reserve(w), trips);
    MovedFrame(held, moves, trips);
    var handled := Moved(held, moves, trips);
    hide Moved, MovesEnabled, F.Next;
    match outcome
    case HandlerRaised => CrashLeaves(s, Released(handled, w, trips), p, w, outcome, trips);
    case HandlerCrashed => CrashLeaves(s, handled, p, w, outcome, trips);
    case Returned(reason) => ReturnLeaves(s, handled, p, w, reason, trips);
    case _ => RetryLeaves(s, handled, p, w, outcome, trips);
  }

  /** Every way to end a pass releases the lock that the worker took, except the death of the process,
      after which only the lease runs out; the event rows stay as the handler left them. */
  lemma PassReleasesLock(s: State, w: nat, moves: seq<F.Step>, outcome: Outcome, trips: F.Trips)
    requires PassEnabled(s, w, moves, outcome, trips)
    ensures var (handled, t) := (Moved(Next(s, Reserve(w), trips), moves, trips), Pass(s, w, moves, outcome, trips));
            && w !in t.fence.workers && t.fence.rows == handled.fence.rows
            && t.fence.locks ==
               if outcome.HandlerCrashed? || w !in handled.fence.workers then handled.fence.locks
               else var me := handled.fence.workers[w];
                    ReleaseStep(handled.fence.locks, trips[me.event], me.token).0
  {
    hide Moved, MovesEnabled, RemoveOne, Raise, MayFinish, F.ClaimSucceeds, ReleaseStep;
  }

  /** The state in which the handler of `w` comes to its verdict. */
  ghost predicate Holds(s: State, handled: State, p: Payload, w: nat) {
    && w !in s.workers && s.queue == handled.queue + [p] && handled.processing == [p] + s.processing
    && handled.retries == s.retries && handled.dead == s.dead && handled.top == s.top
    && handled.workers == s.workers[w := Worker(p, Unhandled)]
  }

  lemma CrashLeaves(s: State, handled: State, p: Payload, w: nat, outcome: Outcome, trips: F.Trips)
    requires Holds(s, handled, p, w) && (outcome.HandlerRaised? || outcome.HandlerCrashed?)
    ensures Leaves(s, Next(handled, Crash(w), trips), p, outcome)
  {
    assert handled.workers - {w} == s.workers;
  }

  lemma ReturnLeaves(s: State, handled: State, p: Payload, w: nat, reason: Reason, trips: F.Trips)
    requires Holds(s, handled, p, w) && Enabled(handled, Finish(w, reason), trips)
    requires w in handled.fence.workers ==> handled.fence.workers[w].event in trips
    ensures var t := Next(Released(Next(handled, Finish(w, reason), trips), w, trips), Acknowledge(w), trips);
            Leaves(s, t, p, Returned(reason)) && (reason == Processed ==> IsProcessed(t, p.id))
  {
    HeldThenDropped(s.processing, p);
    hide RemoveOne;
    assert handled.workers[w := Worker(p, Finished(reason))] - {w} == s.workers;
  }

  lemma RetryLeaves(s: State, handled: State, p: Payload, w: nat, outcome: Outcome, trips: F.Trips)
    requires Holds(s, handled, p, w) && (outcome.Contended? || outcome.Failed?)
    requires Enabled(handled, Retry(w, outcome.Contended?), trips)
    requires w in handled.fence.workers ==> handled.fence.workers[w].event in trips
    ensures var released := Released(Next(handled, Retry(w, outcome.Contended?), trips), w, trips);
            Leaves(s, Next(released, Acknowledge(w), trips), p, outcome)
  {
    HeldThenDropped(s.processing, p);
    hide RemoveOne, Raise;
    assert handled.workers[w := Worker(p, Retried)] - {w} == s.workers;
  }

  lemma HeldThenDropped(processing: seq<Payload>, p: Payload)
    ensures RemoveOne([p] + processing, p) == processing
  {
    var held := [p] + processing;
    assert held[0] == p && IndexOf(held, p) == 0;
    assert held[..0] + held[1..] == processing;
  }

  class RedisQueue {
    var queue: seq<Payload>
    var processing: seq<Payload>
    var retries: set<Payload>
    var dead: seq<Payload>
    ghost var workers: map<nat, Worker>
    ghost var top: map<Identity, nat>
    ghost var gone: set<Identity>
    ghost var fence: F.State
    ghost const trips: F.Trips

    ghost function Contents(): State
      reads this
    {
      State(queue, processing, retries, dead, workers, top, gone, fence)
    }

    ghost predicate Valid()
      reads this
    {
      Bounded(Contents())
    }

    constructor (ghost trips: F.Trips)
      ensures Valid() && Contents() == EMPTY && this.trips == trips
    {
      queue, processing, retries, dead := [], [], {}, [];
      workers, top, gone, fence, this.trips := map[], map[], {}, F.EMPTY, trips;
    }

    /** Moves up to `limit` unacknowledged payloads back to the queue. */
    method RecoverProcessing(limit: int) returns (moved: nat)
      requires Valid()
      modifies this`queue, this`processing
      ensures Valid()
      ensures moved == if limit < 0 then 0 else if limit < |old(processing)| then limit else |old(processing)|
      ensures processing == old(processing)[..|old(processing)| - moved]
      ensures queue == old(processing)[|old(processing)| - moved..] + old(queue)
    {
      moved := 0;
      ghost var all, first := processing, queue;
      NoneRecovered(all, first);
      hide Valid, Contents, Next, Bounded, Recovered;
      while moved < limit && processing != []
        invariant Valid() && (limit >= 0 ==> moved <= limit) && (limit < 0 ==> moved == 0)
        invariant Recovered(all, first, moved, processing, queue)
      {
        LastMoves(all, first, moved, processing, queue);
        RecoverOne();
        moved := moved + 1;
      }
      RecoveredMeaning(all, first, moved, processing, queue);
    }

    /** The last `moved` payloads of `all` have gone to the head of `first`. */
    static ghost predicate Recovered(all: seq<Payload>, first: seq<Payload>, moved: nat, kept: seq<Payload>,
        queued: seq<Payload>)
    {
      moved <= |all| && kept == all[..|all| - moved] && queued == all[|all| - moved..] + first
    }

    static lemma NoneRecovered(all: seq<Payload>, first: seq<Payload>)
      ensures Recovered(all, first, 0, all, first)
    {}

    static lemma RecoveredMeaning(all: seq<Payload>, first: seq<Payload>, moved: nat, kept: seq<Payload>,
        queued: seq<Payload>)
      requires Recovered(all, first, moved, kept, queued)
      ensures moved <= |all| && (kept == [] <==> moved == |all|)
      ensures kept == all[..|all| - moved] && queued == all[|all| - moved..] + first
    {}

    static lemma LastMoves(all: seq<Payload>, first: seq<Payload>, moved: nat, kept: seq<Payload>,
        queued: seq<Payload>)
      requires Recovered(all, first, moved, kept, queued) && kept != []
      ensures Recovered(all, first, moved + 1, kept[..|kept| - 1], [kept[|kept| - 1]] + queued)
    {
      var left := |all| - moved - 1;
      assert all[left..] == [all[left]] + all[left + 1..];
    }

    method RecoverOne()
      requires Valid() && processing != []
      modifies this`queue, this`processing
      ensures Valid() && Contents() == Next(old(Contents()), Recover, trips)
      ensures queue == [old(processing)[|old(processing)| - 1]] + old(queue)
      ensures processing == old(processing)[..|old(processing)| - 1]
    {
      StepKeepsBounded(Contents(), Recover, trips);
      hide Bounded;
      queue, processing := [processing[|processing| - 1]] + queue, processing[..|processing| - 1];
    }

    method Reserve(ghost worker: nat) returns (payload: Payload)
      requires Valid() && Enabled(Contents(), Step.Reserve(worker), trips)
      modifies this
      ensures Valid() && Contents() == Next(old(Contents()), Step.Reserve(worker), trips)
      ensures worker in workers && workers[worker] == Worker(payload, Unhandled)
    {
      StepKeepsBounded(Contents(), Step.Reserve(worker), trips);
      hide Bounded;
      payload := queue[|queue| - 1];
      queue, processing := queue[..|queue| - 1], [payload] + processing;
      workers := workers[worker := Worker(payload, Unhandled)];
    }

    method EnqueueRetry(payload: Payload, contended: bool, ghost worker: nat)
      requires Valid() && Enabled(Contents(), Step.Retry(worker, contended), trips)
              && workers[worker].payload == payload
      modifies this
      ensures Valid() && Contents() == Next(old(Contents()), Step.Retry(worker, contended), trips)
    {
      StepKeepsBounded(Contents(), Step.Retry(worker, contended), trips);
      hide Bounded;
      var next := NextAttempt(payload, contended);
      if next.attempt >= RetryLimit(contended) { dead := [next] + dead; } else { retries := retries + {next}; }
      top, workers := Raise(top, next), workers[worker := Worker(payload, Retried)];
    }

    method Acknowledge(payload: Payload, ghost worker: nat)
      requires Valid() && Enabled(Contents(), Step.Acknowledge(worker), trips) && workers[worker].payload == payload
      modifies this
      ensures Valid() && Contents() == Next(old(Contents()), Step.Acknowledge(worker), trips)
    {
      StepKeepsBounded(Contents(), Step.Acknowledge(worker), trips);
      hide Bounded;
      processing := RemoveOne(processing, payload);
      workers := workers - {worker};
    }

    /** The handler's steps, in the state it shares with other workers. */
    ghost method Run(moves: seq<F.Step>)
      requires Valid() && MovesEnabled(Contents(), moves, trips)
      modifies this`fence
      ensures Valid() && Contents() == Moved(old(Contents()), moves, trips)
    {
      MovedFrame(Contents(), moves, trips);
      fence := Moved(Contents(), moves, trips).fence;
    }

    ghost method Release(worker: nat)
      requires Valid() && (worker in fence.workers ==> Enabled(Contents(), Handle(F.Leave(worker)), trips))
      modifies this`fence
      ensures Valid() && Contents() == Released(old(Contents()), worker, trips)
    {
      if worker in fence.workers {
        StepKeepsBounded(Contents(), Handle(F.Leave(worker)), trips);
        hide Bounded, F.Next;
        fence := F.Next(fence, F.Leave(worker), trips);
      }
    }

    /** One pass of the worker loop: reserve, handle, store the retry if any, acknowledge. An exception
        or a crash leaves the payload in processing. */
    method RunOnce(outcome: Outcome, ghost worker: nat, ghost moves: seq<F.Step>) returns (reserved: bool)
      requires Valid() && worker !in workers
      requires queue != [] ==> PassEnabled(Contents(), worker, moves, outcome, trips)
      modifies this
      ensures Valid()
      ensures reserved <==> old(queue) != []
      ensures Contents() == if reserved then Pass(old(Contents()), worker, moves, outcome, trips) else old(Contents())
    {
      hide Bounded, Next, MovesEnabled, Moved, VerdictEnabled;
      if queue == [] { return false; }
      var payload := Reserve(worker);
      Run(moves);
      Conclude(payload, outcome, worker);
      return true;
    }

    /** From the handler's verdict to the end of the pass. */
    method Conclude(payload: Payload, outcome: Outcome, ghost worker: nat)
      requires Valid() && VerdictEnabled(Contents(), worker, outcome, trips)
      requires worker in workers && workers[worker] == Worker(payload, Unhandled)
      requires worker in fence.workers ==> fence.workers[worker].event in trips
      modifies this
      ensures Valid() && Contents() == Concluded(old(Contents()), worker, outcome, trips)
    {
      hide Bounded, Next, Enabled, Released;
      match outcome {
        case HandlerRaised => GiveUp(worker);
        case HandlerCrashed => Abandon(worker);
        case Returned(reason) => Dismiss(payload, reason, worker);
        case _ => Reschedule(payload, outcome.Contended?, worker);
      }
    }

    /** The payload is not acknowledged: the worker forgets it, the stored copy stays. */
    ghost method Abandon(worker: nat)
      requires Valid() && worker in workers
      modifies this`workers, this`fence
      ensures Valid() && Contents() == Next(old(Contents()), Crash(worker), trips)
    {
      hide Bounded, F.Next;
      StepKeepsBounded(Contents(), Crash(worker), trips);
      workers, fence := workers - {worker}, F.Departed(fence, worker);
    }

    /** An exception gets past the handler, whose last act is to release the lock. */
    ghost method GiveUp(worker: nat)
      requires Valid() && worker in workers
      requires worker in fence.workers ==> fence.workers[worker].event in trips
      modifies this`workers, this`fence
      ensures Valid() && Contents() == Concluded(old(Contents()), worker, HandlerRaised, trips)
    {
      hide Bounded, F.Next;
      Release(worker);
      Abandon(worker);
    }

    method Dismiss(payload: Payload, reason: Reason, ghost worker: nat)
      requires Valid() && Enabled(Contents(), Finish(worker, reason), trips)
      requires worker in workers && workers[worker] == Worker(payload, Unhandled)
      requires worker in fence.workers ==> fence.workers[worker].event in trips
      modifies this
      ensures Valid() && Contents() == Concluded(old(Contents()), worker, Returned(reason), trips)
    {
      hide Bounded, F.Next, MayFinish;
      StepKeepsBounded(Contents(), Finish(worker, reason), trips);
      workers := workers[worker := Worker(payload, Finished(reason))];
      Release(worker);
      Acknowledge(payload, worker);
    }

    method Reschedule(payload: Payload, contended: bool, ghost worker: nat)
      requires Valid() && Enabled(Contents(), Step.Retry(worker, contended), trips)
      requires worker in workers && workers[worker] == Worker(payload, Unhandled)
      requires worker in fence.workers ==> fence.workers[worker].event in trips
      modifies this
      ensures Valid()
      ensures Contents() == Concluded(old(Contents()), worker, if contended then Contended else Failed, trips)
    {
      hide Bounded, IndexOf, Raise, F.Next;
      EnqueueRetry(payload, contended, worker);
      Release(worker);
      Acknowledge(payload, worker);
    }
  }
}
