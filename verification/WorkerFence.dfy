/** Workers racing for trip events under fenced locks (worker.py): lease expiry, row claims and the
    commit guard, as interleaved steps over one logical clock. */
module WorkerFence {
  import opened Basics
  import opened FencedLock

  type Event = nat

  type Trip = Name

  datatype Phase = Holding | Verified | Claimed

  /** A worker between acquiring a trip's lock and leaving. */
  datatype Worker = Worker(event: Event, token: Token, phase: Phase, leaseLost: bool)

  /** The fencing part of an event row; a fresh row has fence 0. */
  datatype Row = Row(fence: nat, processed: bool)

  datatype State = State(locks: Locks, rows: map<Event, Row>, workers: map<nat, Worker>, now: int)

  datatype Step =
    | Tick(elapsed: nat)
    | NewEvent(event: Event)
    | Acquire(worker: nat, event: Event, ttl: nat, owner: nat)
    | Renew(worker: nat, ttl: nat, reachable: bool)
    | Verify(worker: nat)
    | Claim(worker: nat)
    | Commit(worker: nat, finishes: bool)
    | Leave(worker: nat)
    | Crash(worker: nat)

  const EMPTY := State(Locks(map[], map[]), map[], map[], 0)

  /** The trip whose lock guards an event. */
  type Trips = map<Event, Trip>

  predicate Enabled(s: State, e: Step, trips: Trips) {
    match e
    case Tick(_) => true
    case NewEvent(event) => event !in s.rows && event in trips
    case Acquire(w, event, _, _) => w !in s.workers && event in s.rows && event in trips
    case Renew(w, _, _) => w in s.workers && s.workers[w].event in trips
    case Verify(w) => w in s.workers && s.workers[w].event in trips && s.workers[w].phase == Holding
    case Claim(w) => w in s.workers && s.workers[w].phase == Verified && s.workers[w].event in s.rows
    case Commit(w, _) => w in s.workers && s.workers[w].phase == Claimed && s.workers[w].event in s.rows
    case Leave(w) => w in s.workers && s.workers[w].event in trips
    case Crash(w) => w in s.workers
  }

  /** The conditional update: not yet processed, and only ever upwards. */
  predicate ClaimSucceeds(s: State, w: nat)
    requires w in s.workers && s.workers[w].event in s.rows
  {
    var row := s.rows[s.workers[w].event];
    !row.processed && row.fence < s.workers[w].token.fence
  }

  /** The guard that runs before every commit of a claimed session. */
  predicate GuardPasses(s: State, w: nat)
    requires w in s.workers && s.workers[w].event in s.rows
  {
    !s.workers[w].leaseLost && s.rows[s.workers[w].event].fence == s.workers[w].token.fence
  }

  function Departed(s: State, w: nat): State { s.(workers := s.workers - {w}) }

  function Next(s: State, e: Step, trips: Trips): State
    requires Enabled(s, e, trips)
  {
    match e
    case Tick(d) => s.(now := s.now + d)
    case NewEvent(event) => s.(rows := s.rows[event := Row(0, false)])
    case Acquire(w, event, ttl, owner) =>
      var (locks, token) := AcquireStep(s.locks, trips[event], ttl, owner, s.now);
      if token.None? then s
      else s.(locks := locks, workers := s.workers[w := Worker(event, token.value, Holding, false)])
    case Renew(w, ttl, reachable) =>
      var me := s.workers[w];
      var (locks, ok) := RenewStep(s.locks, trips[me.event], me.token, ttl, s.now);
      if reachable && ok then s.(locks := locks) else s.(workers := s.workers[w := me.(leaseLost := true)])
    case Verify(w) =>
      var me := s.workers[w];
      if !me.leaseLost && OwnedAt(s.locks, trips[me.event], me.token, s.now)
      then s.(workers := s.workers[w := me.(phase := Verified)]) else s
    case Claim(w) =>
      var me := s.workers[w];
      if ClaimSucceeds(s, w)
      then s.(rows := s.rows[me.event := Row(me.token.fence, false)], workers := s.workers[w := me.(phase := Claimed)])
      else s
    case Commit(w, finishes) =>
      var me := s.workers[w];
      if GuardPasses(s, w) && finishes then s.(rows := s.rows[me.event := s.rows[me.event].(processed := true)]) else s
    case Leave(w) =>
      var me := s.workers[w];
      Departed(s, w).(locks := ReleaseStep(s.locks, trips[me.event], me.token).0)
    case Crash(w) => Departed(s, w)
  }

  ghost predicate Execution(trace: seq<State>, steps: seq<Step>, trips: Trips) {
    && |trace| == |steps| + 1 && trace[0] == EMPTY
    && forall i :: 0 <= i < |steps| ==>
         Enabled(trace[i], steps[i], trips) && trace[i + 1] == Next(trace[i], steps[i], trips)
  }

  // -------------------------------------------------------------- what a step does

  /** The fence a step issues for a trip, if it issues one. */
  ghost predicate Issues(s: State, e: Step, trips: Trips, trip: Trip, fence: nat)
    requires Enabled(s, e, trips)
  {
    e.Acquire? && trips[e.event] == trip && !HeldAt(s.locks, trip, s.now) && fence == Fence(s.locks, trip) + 1
  }

  ghost predicate Claims(s: State, e: Step, trips: Trips, event: Event, fence: nat)
    requires Enabled(s, e, trips)
  {
    e.Claim? && s.workers[e.worker].event == event && s.workers[e.worker].token.fence == fence
        && ClaimSucceeds(s, e.worker)
  }

  /** A commit that the guard lets through. */
  ghost predicate Commits(s: State, e: Step, trips: Trips, event: Event, fence: nat)
    requires Enabled(s, e, trips)
  {
    e.Commit? && s.workers[e.worker].event == event && s.workers[e.worker].token.fence == fence
        && GuardPasses(s, e.worker)
  }

  ghost predicate RowSound(s: State, trips: Trips, e: Event) {
    e in s.rows && e in trips && s.rows[e].fence <= Fence(s.locks, trips[e])
  }

  ghost predicate WorkerSound(s: State, trips: Trips, w: nat) {
    && w in s.workers && s.workers[w].event in s.rows && s.workers[w].event in trips
    && 1 <= s.workers[w].token.fence <= Fence(s.locks, trips[s.workers[w].event])
  }

  /** Two workers on one lock carry different fences. */
  ghost predicate Apart(v: Worker, w: Worker, trips: Trips) {
    v.event in trips && w.event in trips && trips[v.event] == trips[w.event] ==> v.token.fence != w.token.fence
  }

  /** Fences in rows and in workers' hands were issued, and no two workers of a trip share one. */
  ghost predicate Inv(s: State, trips: Trips) {
    && Sound(s.locks)
    && (forall e :: e in s.rows ==> RowSound(s, trips, e))
    && (forall w :: w in s.workers ==> WorkerSound(s, trips, w))
    && (forall v, w :: v in s.workers && w in s.workers && v != w ==> Apart(s.workers[v], s.workers[w], trips))
  }

  lemma AcquireKeepsInv(s: State, e: Step, trips: Trips)
    requires Inv(s, trips) && Enabled(s, e, trips) && e.Acquire?
    ensures Inv(Next(s, e, trips), trips)
  {
    var t := Next(s, e, trips);
    assert forall n :: Fence(s.locks, n) <= Fence(t.locks, n);
    assert Sound(t.locks);
    forall k | k in t.rows ensures RowSound(t, trips, k) { assert RowSound(s, trips, k); }
    forall w | w in t.workers
      ensures WorkerSound(t, trips, w)
    {
      if w in s.workers { assert WorkerSound(s, trips, w); }
    }
    forall v, w | v in t.workers && w in t.workers && v != w
      ensures Apart(t.workers[v], t.workers[w], trips)
    {
      if v in s.workers { assert WorkerSound(s, trips, v); }
      if w in s.workers { assert WorkerSound(s, trips, w); }
      if v in s.workers && w in s.workers { assert Apart(s.workers[v], s.workers[w], trips); }
    }
  }

  /** A row's fence after a step: zero, what it was, or the fence of a worker on that event. */
  ghost predicate Accounted(s: State, t: State, trips: Trips, e: Event)
    requires e in t.rows
  {
    e in trips
    && (t.rows[e].fence == 0 || (e in s.rows && t.rows[e].fence == s.rows[e].fence)
        || exists w :: w in s.workers && s.workers[w].event == e && s.workers[w].token.fence == t.rows[e].fence)
  }

  /** Steps that issue no fence and bring no worker. */
  lemma QuietKeepsInv(s: State, t: State, trips: Trips)
    requires Inv(s, trips) && Sound(t.locks) && t.locks.fences == s.locks.fences
    requires forall e :: e in t.rows ==> Accounted(s, t, trips, e)
    requires forall e :: e in s.rows ==> e in t.rows
    requires forall w :: w in t.workers ==>
            w in s.workers && t.workers[w].event == s.workers[w].event && t.workers[w].token == s.workers[w].token
    ensures Inv(t, trips)
  {
    assert forall n :: Fence(t.locks, n) == Fence(s.locks, n);
    forall e | e in t.rows
      ensures RowSound(t, trips, e)
    {
      if e in s.rows { assert RowSound(s, trips, e); }
      if w :| w in s.workers && s.workers[w].event == e && s.workers[w].token.fence == t.rows[e].fence {
        assert WorkerSound(s, trips, w);
      }
    }
    forall w | w in t.workers ensures WorkerSound(t, trips, w) { assert WorkerSound(s, trips, w); }
    forall v, w | v in t.workers && w in t.workers && v != w
      ensures Apart(t.workers[v], t.workers[w], trips)
    {
      assert Apart(s.workers[v], s.workers[w], trips);
    }
  }

  lemma AccountedAfter(s: State, e: Step, trips: Trips, k: Event)
    requires Inv(s, trips) && Enabled(s, e, trips) && k in Next(s, e, trips).rows
    ensures Accounted(s, Next(s, e, trips), trips, k)
  {
    hide WorkerSound, Apart, Sound, AcquireStep, ReleaseStep, RenewStep, OwnedAt;
    assert k in s.rows ==> RowSound(s, trips, k);
    if e.Claim? && ClaimSucceeds(s, e.worker) && s.workers[e.worker].event == k {
      assert s.workers[e.worker].token.fence == Next(s, e, trips).rows[k].fence;
    }
  }

  lemma LeasesStaySound(s: State, e: Step, trips: Trips)
    requires Sound(s.locks) && Enabled(s, e, trips)
    ensures Sound(Next(s, e, trips).locks)
  {}

  lemma StepKeepsInv(s: State, e: Step, trips: Trips)
    requires Inv(s, trips) && Enabled(s, e, trips)
    ensures Inv(Next(s, e, trips), trips)
  {
    if e.Acquire? {
      AcquireKeepsInv(s, e, trips);
    } else {
      var t := Next(s, e, trips);
      LeasesStaySound(s, e, trips);
      QuietParts(s, e, trips);
      hide Next, WorkerSound, Apart, Sound, RowSound, Accounted;
      forall k | k in t.rows ensures Accounted(s, t, trips, k) { AccountedAfter(s, e, trips, k); }
      QuietKeepsInv(s, t, trips);
    }
  }

  lemma QuietParts(s: State, e: Step, trips: Trips)
    requires Enabled(s, e, trips) && !e.Acquire?
    ensures var t := Next(s, e, trips);
            && t.locks.fences == s.locks.fences
            && (forall k :: k in s.rows ==> k in t.rows)
            && forall w :: w in t.workers ==>
                 w in s.workers && t.workers[w].event == s.workers[w].event && t.workers[w].token == s.workers[w].token
  {}

  /** Issued fences and row fences only grow, and a processed row is frozen. */
  ghost predicate Later(s: State, t: State, trip: Trip, event: Event) {
    && Fence(s.locks, trip) <= Fence(t.locks, trip)
    && (event in s.rows ==> event in t.rows && s.rows[event].fence <= t.rows[event].fence)
    && (event in s.rows && s.rows[event].processed ==> t.rows[event] == s.rows[event])
  }

  lemma StepMonotone(s: State, e: Step, trips: Trips, trip: Trip, event: Event)
    requires Enabled(s, e, trips)
    ensures Later(s, Next(s, e, trips), trip, event)
  {}

  lemma LaterTransitive(s: State, t: State, u: State, trip: Trip, event: Event)
    requires Later(s, t, trip, event) && Later(t, u, trip, event)
    ensures Later(s, u, trip, event)
  {}

  lemma {:induction false} RunKeepsInv(trace: seq<State>, steps: seq<Step>, trips: Trips, i: nat)
    requires Execution(trace, steps, trips) && i < |trace|
    ensures Inv(trace[i], trips)
  {
    if i == 0 {
    } else {
      hide Next, Inv;
      RunKeepsInv(trace, steps, trips, i - 1);
      StepKeepsInv(trace[i - 1], steps[i - 1], trips);
    }
  }

  lemma StepOf(trace: seq<State>, steps: seq<Step>, trips: Trips, k: nat)
    requires Execution(trace, steps, trips) && k + 1 < |trace|
    ensures k < |steps| && Enabled(trace[k], steps[k], trips) && trace[k + 1] == Next(trace[k], steps[k], trips)
  {
    hide Next, Enabled;
  }

  lemma {:induction false} RunMonotone(trace: seq<State>, steps: seq<Step>, trips: Trips, i: nat, j: nat, trip: Trip,
      event: Event)
    requires Execution(trace, steps, trips) && i <= j < |trace|
    ensures Later(trace[i], trace[j], trip, event)
    decreases j
  {
    if i < j {
      StepOf(trace, steps, trips, j - 1);
      hide Next, Enabled, Later, Execution;
      RunMonotone(trace, steps, trips, i, j - 1, trip, event);
      StepMonotone(trace[j - 1], steps[j - 1], trips, trip, event);
      LaterTransitive(trace[i], trace[j - 1], trace[j], trip, event);
    }
  }

  // ---------------------------------------------------------------- safety of runs

  /** Fences issued for a trip strictly increase over time, across expiry, release and crash. */
  lemma FencesIncrease(trace: seq<State>, steps: seq<Step>, trips: Trips, i: nat, j: nat, trip: Trip, f: nat, g: nat)
    requires Execution(trace, steps, trips) && i < j < |steps|
    requires Issues(trace[i], steps[i], trips, trip, f) && Issues(trace[j], steps[j], trips, trip, g)
    ensures f < g
  {
    RunMonotone(trace, steps, trips, i + 1, j, trip, 0);
  }

  /** Once fence g has claimed an event, no worker with a smaller fence commits anything for it. */
  lemma NoStaleCommit(trace: seq<State>, steps: seq<Step>, trips: Trips, i: nat, j: nat, event: Event, f: nat, g: nat)
    requires Execution(trace, steps, trips) && i < j < |steps|
    requires Claims(trace[i], steps[i], trips, event, g) && Commits(trace[j], steps[j], trips, event, f)
    ensures g <= f
  {
    RunMonotone(trace, steps, trips, i + 1, j, 0, event);
  }

  /** All commits that mark an event processed carry the same fence. */
  lemma OneProcessor(trace: seq<State>, steps: seq<Step>, trips: Trips, i: nat, j: nat, event: Event, f: nat, g: nat)
    requires Execution(trace, steps, trips) && i < j < |steps|
    requires Commits(trace[i], steps[i], trips, event, f) && steps[i].finishes
    requires Commits(trace[j], steps[j], trips, event, g)
    ensures f == g
  {
    RunMonotone(trace, steps, trips, i + 1, j, 0, event);
  }

  /** An event that is processed is never claimed again. */
  lemma ProcessedIsFinal(trace: seq<State>, steps: seq<Step>, trips: Trips, i: nat, j: nat, event: Event, f: nat)
    requires Execution(trace, steps, trips) && i <= j < |steps| && event in trace[i].rows
            && trace[i].rows[event].processed
    ensures !Claims(trace[j], steps[j], trips, event, f)
  {
    RunMonotone(trace, steps, trips, i, j, 0, event);
  }

  lemma LostStaysLost(s: State, e: Step, trips: Trips, w: nat)
    requires Enabled(s, e, trips) && w in s.workers && s.workers[w].leaseLost
    ensures w in Next(s, e, trips).workers ==> Next(s, e, trips).workers[w].leaseLost
  {}

  /** A worker whose renewal failed commits nothing more before it leaves. */
  lemma {:induction false} LostLeaseNeverCommits(
    trace: seq<State>, steps: seq<Step>, trips: Trips, i: nat, j: nat, w: nat, event: Event, f: nat)
    requires Execution(trace, steps, trips) && i <= j < |steps|
    requires forall k :: i <= k <= j ==> w in trace[k].workers
    requires trace[i].workers[w].leaseLost && steps[j].Commit? && steps[j].worker == w
    ensures !Commits(trace[j], steps[j], trips, event, f)
  {
    LeaseStaysLost(trace, steps, trips, i, j, w);
  }

  lemma {:induction false} LeaseStaysLost(trace: seq<State>, steps: seq<Step>, trips: Trips, i: nat, j: nat, w: nat)
    requires Execution(trace, steps, trips) && i <= j < |trace|
    requires forall k :: i <= k <= j ==> w in trace[k].workers
    requires trace[i].workers[w].leaseLost
    ensures trace[j].workers[w].leaseLost
    decreases j
  {
    if i < j {
      LeaseStaysLost(trace, steps, trips, i, j - 1, w);
      hide Next;
      LostStaysLost(trace[j - 1], steps[j - 1], trips, w);
    }
  }

  /** While a lease runs, its holder is the only worker that can pass the ownership check. */
  lemma OneOwner(trace: seq<State>, steps: seq<Step>, trips: Trips, i: nat, v: nat, w: nat)
    requires Execution(trace, steps, trips) && i < |trace| && v in trace[i].workers && w in trace[i].workers && v != w
    requires trace[i].workers[v].event in trips && trace[i].workers[w].event in trips
    requires trips[trace[i].workers[v].event] == trips[trace[i].workers[w].event]
    requires OwnedAt(trace[i].locks, trips[trace[i].workers[v].event], trace[i].workers[v].token, trace[i].now)
    ensures !OwnedAt(trace[i].locks, trips[trace[i].workers[w].event], trace[i].workers[w].token, trace[i].now)
  {
    RunKeepsInv(trace, steps, trips, i);
    assert Apart(trace[i].workers[v], trace[i].workers[w], trips);
  }
}
