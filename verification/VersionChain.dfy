/** Concurrent deciders extending the immutable plan version chain (plan_versioning.py,
    decide_plan_patch), replans that propose patches (replanning.py) and the critic that reviews them
    (dynamic_replanning.py), as atomic database steps. */
module VersionChain {
  import opened Basics
  import opened RouteEvaluation
  import opened PlanPatch
  import opened PatchValidation
  import opened PatchCritic

  datatype Status = Pending | Accepted | Rejected | Blocked

  /** `generated` tells a replan's patch from a client's. */
  datatype Patch = Patch(run: nat, base: nat, operations: seq<Operation>, contextDeparture: Option<real>,
      impact: Impact, generated: bool, status: Status)

  datatype TripState = Replanning | ActiveTrip | OtherState

  datatype Trip = Trip(run: nat, version: nat, state: TripState)

  /** Key of a version row; the table has a unique constraint on it. */
  datatype Row = Row(run: nat, version: nat)

  /** A decider holding the lock on its patch row; `current` once it has read the latest version. */
  datatype Session = Session(patch: nat, current: Option<nat>)

  /** `origin` records which patch produced a version; the program keeps it in the audit log only. */
  datatype Db = Db(
    intents: map<nat, Intent>,
    patches: map<nat, Patch>,
    versions: map<Row, Draft>,
    trips: map<nat, Trip>,
    sessions: map<nat, Session>,
    origin: map<Row, nat>)

  datatype Event =
    | StartRun(run: nat, intent: Intent, snapshot: Draft)
    | StartTrip(trip: nat, run: nat, version: nat)
    | MovesTripState(trip: nat, state: TripState)
    | CreatePatch(patch: nat, record: Patch)
    | Propose(patch: nat, trip: nat, replan: Replan)
    | Open(session: nat, patch: nat)
    | ReadLatest(session: nat, latest: nat)
    | Reject(session: nat)
    | Decide(session: nat, matrix: Matrix)
    | Abort(session: nat)
    | CriticReview(patch: nat, trip: nat, base: nat, repeated: bool)

  /** Longest script in a client's request and in what the critic is given. */
  const MAX_OPERATIONS := 20

  const EMPTY := Db(map[], map[], map[], map[], map[], map[])

  ghost predicate IsLatest(s: Db, run: nat, version: nat) {
    Row(run, version) in s.versions && forall v: nat :: Row(run, v) in s.versions ==> v <= version
  }

  ghost predicate Locked(s: Db, patch: nat) {
    exists i :: i in s.sessions && s.sessions[i].patch == patch
  }

  /** The snapshot a patch makes of its base: script applied, departure taken from the replan context. */
  function Patched(base: Draft, operations: seq<Operation>, contextDeparture: Option<real>): Result<Draft, PatchError> {
    match ApplyPatch(base, operations)
    case Err(e) => Err(e)
    case Ok(d) => Ok(d.(departure := contextDeparture.Or(d.departure)))
  }

  function Advance(trip: Trip, run: nat, current: nat): Trip {
    if trip.run == run && trip.version == current then
      Trip(run, current + 1, if trip.state == Replanning then ActiveTrip else trip.state)
    else trip
  }

  function AdvanceAll(trips: map<nat, Trip>, run: nat, current: nat): map<nat, Trip> {
    map t | t in trips :: Advance(trips[t], run, current)
  }

  function WithStatus(s: Db, patch: nat, status: Status): Db
    requires patch in s.patches
  {
    s.(patches := s.patches[patch := s.patches[patch].(status := status)])
  }

  function Close(s: Db, session: nat): Db { s.(sessions := s.sessions - {session}) }

  /** The accepting commit: version row, patch status and trips move together. */
  function Commit(s: Db, patch: nat, current: nat, snapshot: Draft): Db
    requires patch in s.patches
  {
    var row := Row(s.patches[patch].run, current + 1);
    WithStatus(s, patch, Accepted)
      .(versions := s.versions[row := snapshot],
        trips := AdvanceAll(s.trips, s.patches[patch].run, current),
        origin := s.origin[row := patch])
  }

  /** The decider may proceed: it has read its base version and the provider's matrix fits the plan. */
  ghost predicate CanDecide(s: Db, session: nat, matrix: Matrix) {
    && session in s.sessions && s.sessions[session].current.Some? && s.sessions[session].patch in s.patches
    && var p := s.patches[s.sessions[session].patch];
    && p.run in s.intents && Row(p.run, s.sessions[session].current.value) in s.versions
    && var d := Patched(s.versions[Row(p.run, s.sessions[session].current.value)], p.operations, p.contextDeparture);
    (d.Ok? ==> MatrixFits(matrix, d.value.stops))
  }

  /** Fail, block, lose the race or commit, by what became of the script and the validation. */
  ghost function Resolve(s: Db, session: nat, current: nat, plan: Option<Draft>, accepted: bool): Db
    requires session in s.sessions && s.sessions[session].patch in s.patches
  {
    var id := s.sessions[session].patch;
    if plan.None? then Close(s, session)
    else if !accepted then Close(WithStatus(s, id, Blocked), session)
    else if Row(s.patches[id].run, current + 1) in s.versions then Close(s, session)
    else Close(Commit(s, id, current, plan.value), session)
  }

  /** What a decider does after reading the latest version. */
  ghost function Decision(s: Db, session: nat, matrix: Matrix): Db
    requires CanDecide(s, session, matrix)
  {
    var (id, current) := (s.sessions[session].patch, s.sessions[session].current.value);
    var p := s.patches[id];
    match Patched(s.versions[Row(p.run, current)], p.operations, p.contextDeparture)
    case Err(_) => Resolve(s, session, current, None, false)
    case Ok(d) => Resolve(s, session, current, Some(d),
        PatchValidation.Accepted(d, s.intents[p.run], matrix, d.departure))
  }

  /** All but the status. */
  predicate SameRecord(p: Patch, q: Patch) { p == q.(status := p.status) }

  /** A decision touches no other patch, of its own patch the status alone, and no existing version. */
  lemma ResolveKeepsRecords(s: Db, session: nat, current: nat, plan: Option<Draft>, accepted: bool, id: nat, row: Row)
    requires session in s.sessions && s.sessions[session].patch in s.patches
    ensures var t := Resolve(s, session, current, plan, accepted);
            && (id in s.patches ==> id in t.patches && SameRecord(s.patches[id], t.patches[id]))
            && (id in s.patches && id != s.sessions[session].patch ==> t.patches[id] == s.patches[id])
            && (row in s.versions ==> row in t.versions && t.versions[row] == s.versions[row])
  {
    hide AdvanceAll;
  }

  lemma DecisionKeepsRecords(s: Db, session: nat, matrix: Matrix, id: nat, row: Row)
    requires CanDecide(s, session, matrix)
    ensures var t := Decision(s, session, matrix);
            && (id in s.patches ==> id in t.patches && SameRecord(s.patches[id], t.patches[id]))
            && (id in s.patches && id != s.sessions[session].patch ==> t.patches[id] == s.patches[id])
            && (row in s.versions ==> row in t.versions && t.versions[row] == s.versions[row])
  {
    var current := s.sessions[session].current.value;
    var p := s.patches[s.sessions[session].patch];
    hide Resolve, Patched, PatchValidation.Accepted, MatrixFits;
    match Patched(s.versions[Row(p.run, current)], p.operations, p.contextDeparture)
    case Err(_) => ResolveKeepsRecords(s, session, current, None, false, id, row);
    case Ok(d) =>
      ResolveKeepsRecords(s, session, current, Some(d),
          PatchValidation.Accepted(d, s.intents[p.run], matrix, d.departure), id, row);
  }

  ghost function Proposed(s: Db, patch: nat, record: Patch): Db { s.(patches := s.patches[patch := record]) }

  /** The record of a replan: the compiled script, departing now, against the trip's version. */
  ghost function GeneratedPatch(run: nat, version: nat, replan: Replan): Patch
    requires Solved(replan)
  {
    Patch(run, version, Compile(replan), Some(replan.now), GeneratedImpact(replan, version), true, Pending)
  }

  /** A solved replan of the trip's current version that changes something. */
  ghost predicate CanPropose(s: Db, patch: nat, trip: nat, replan: Replan) {
    && patch !in s.patches && trip in s.trips && Solved(replan) && Compile(replan) != []
    && Row(s.trips[trip].run, s.trips[trip].version) in s.versions
    && replan.base == s.versions[Row(s.trips[trip].run, s.trips[trip].version)]
  }

  function InState(s: Db, trip: nat, state: TripState): Db
    requires trip in s.trips
  {
    s.(trips := s.trips[trip := s.trips[trip].(state := state)])
  }

  ghost function AfterProposal(s: Db, patch: nat, trip: nat, replan: Replan): Db
    requires CanPropose(s, patch, trip, replan)
  {
    InState(Proposed(s, patch, GeneratedPatch(s.trips[trip].run, s.trips[trip].version, replan)), trip, Replanning)
  }

  /** A review reads the version that the directive named, and the script unless the event was seen
      before: then the patch found for it comes back without operations. */
  ghost predicate CanReview(s: Db, patch: nat, trip: nat, base: nat, repeated: bool) {
    && patch in s.patches && !Locked(s, patch) && trip in s.trips && s.trips[trip].run == s.patches[patch].run
    && Row(s.patches[patch].run, base) in s.versions
    && (repeated || (s.patches[patch].generated && |s.patches[patch].operations| <= MAX_OPERATIONS))
  }

  /** The critic's verdict on this patch, read against this version, is to block it. */
  ghost predicate CriticObjects(s: Db, patch: nat, base: nat, repeated: bool) {
    && patch in s.patches && Row(s.patches[patch].run, base) in s.versions
    && var p := s.patches[patch];
    Objects(s.versions[Row(p.run, base)].stops, base, p.impact, if repeated then [] else p.operations)
  }

  ghost function AfterReview(s: Db, patch: nat, trip: nat, base: nat, repeated: bool): Db
    requires CanReview(s, patch, trip, base, repeated)
  {
    if CriticObjects(s, patch, base, repeated) then InState(WithStatus(s, patch, Blocked), trip, OtherState) else s
  }

  ghost predicate Step(s: Db, e: Event, t: Db) {
    match e
    case StartRun(run, intent, snapshot) =>
      && run !in s.intents
      && t == s.(intents := s.intents[run := intent], versions := s.versions[Row(run, 1) := snapshot])
    case StartTrip(trip, run, version) =>
      trip !in s.trips && Row(run, version) in s.versions
          && t == s.(trips := s.trips[trip := Trip(run, version, OtherState)])
    case MovesTripState(trip, state) =>
      trip in s.trips && t == s.(trips := s.trips[trip := s.trips[trip].(state := state)])
    case CreatePatch(patch, record) =>
      && patch !in s.patches && record.status == Pending && !record.generated
      && 1 <= |record.operations| <= MAX_OPERATIONS && Row(record.run, record.base) in s.versions
      && t == Proposed(s, patch, record)
    case Propose(patch, trip, replan) =>
      CanPropose(s, patch, trip, replan) && t == AfterProposal(s, patch, trip, replan)
    case Open(session, patch) =>
      session !in s.sessions && patch in s.patches && !Locked(s, patch)
      && t == if s.patches[patch].status == Pending then s.(sessions := s.sessions[session := Session(patch, None)])
           else s
    case ReadLatest(session, latest) =>
      session in s.sessions && s.sessions[session].current.None? && s.sessions[session].patch in s.patches
      && var p := s.patches[s.sessions[session].patch];
      IsLatest(s, p.run, latest)
      && t == if latest == p.base then s.(sessions :=
           s.sessions[session := Session(s.sessions[session].patch, Some(latest))])
              else Close(s, session)
    case Reject(session) =>
      session in s.sessions && s.sessions[session].current.None? && s.sessions[session].patch in s.patches
      && t == Close(WithStatus(s, s.sessions[session].patch, Rejected), session)
    case Decide(session, matrix) =>
      CanDecide(s, session, matrix) && t == Decision(s, session, matrix)
    case Abort(session) => session in s.sessions && t == Close(s, session)
    case CriticReview(patch, trip, base, repeated) =>
      CanReview(s, patch, trip, base, repeated) && t == AfterReview(s, patch, trip, base, repeated)
  }

  // ------------------------------------------------------------- invariant

  /** Some provider matrix made the validator accept this plan. */
  ghost predicate Validated(d: Draft, intent: Intent) {
    exists matrix :: MatrixFits(matrix, d.stops) && PatchValidation.Accepted(d, intent, matrix, d.departure)
  }

  /** A version row: contiguous from 1, and beyond version 1 made from its predecessor by one patch. */
  ghost predicate RowSound(s: Db, row: Row) {
    && row in s.versions && row.run in s.intents && row.version >= 1
    && (row.version > 1 ==>
          && row in s.origin && s.origin[row] in s.patches
          && var p := s.patches[s.origin[row]];
          && p.run == row.run && p.base == row.version - 1 && (p.status == Accepted || p.status == Blocked)
          && Row(row.run, row.version - 1) in s.versions
          && Patched(s.versions[Row(row.run, row.version - 1)], p.operations, p.contextDeparture) == Ok(s.versions[row])
          && Validated(s.versions[row], s.intents[row.run]))
  }

  ghost predicate PatchSound(s: Db, id: nat) {
    && id in s.patches
    && var p := s.patches[id];
    && Row(p.run, p.base) in s.versions
    && (p.status == Accepted ==>
         var row := Row(p.run, p.base + 1); row in s.versions && row in s.origin && s.origin[row] == id)
  }

  ghost predicate SessionSound(s: Db, i: nat) {
    && i in s.sessions && s.sessions[i].patch in s.patches
    && var p := s.patches[s.sessions[i].patch];
    && p.status == Pending
    && (s.sessions[i].current.Some? ==> s.sessions[i].current.value == p.base)
    && forall j :: j in s.sessions && j != i ==> s.sessions[j].patch != s.sessions[i].patch
  }

  ghost predicate Inv(s: Db) {
    && (forall row :: row in s.versions ==> RowSound(s, row))
    && (forall row :: row in s.origin ==> row in s.versions && row.version > 1)
    && (forall id :: id in s.patches ==> PatchSound(s, id))
    && (forall i :: i in s.sessions ==> SessionSound(s, i))
    && (forall k :: k in s.trips ==> Row(s.trips[k].run, s.trips[k].version) in s.versions)
  }

  lemma StatusKeepsInv(s: Db, id: nat, status: Status)
    requires Inv(s) && id in s.patches && (status == Rejected || status == Blocked)
    requires status == Rejected ==> s.patches[id].status == Pending
    requires forall i :: i in s.sessions ==> s.sessions[i].patch != id
    ensures Inv(WithStatus(s, id, status))
  {
    hide RowSound, PatchSound, SessionSound;
    var t := WithStatus(s, id, status);
    forall row | row in t.versions ensures RowSound(t, row) { RowKeepsSound(s, id, status, row); }
    forall k | k in t.patches ensures PatchSound(t, k) { PatchKeepsSound(s, id, status, k); }
    forall i | i in t.sessions ensures SessionSound(t, i) { SessionKeepsSound(s, id, status, i); }
  }

  lemma RowKeepsSound(s: Db, id: nat, status: Status, row: Row)
    requires RowSound(s, row) && id in s.patches && (status == Rejected || status == Blocked)
    requires status == Rejected ==> s.patches[id].status == Pending
    ensures RowSound(WithStatus(s, id, status), row)
  {
    hide Validated, Patched;
  }

  lemma PatchKeepsSound(s: Db, id: nat, status: Status, k: nat)
    requires PatchSound(s, k) && id in s.patches && (status == Rejected || status == Blocked)
    ensures PatchSound(WithStatus(s, id, status), k)
  {}

  lemma SessionKeepsSound(s: Db, id: nat, status: Status, i: nat)
    requires SessionSound(s, i) && id in s.patches && s.sessions[i].patch != id
    ensures SessionSound(WithStatus(s, id, status), i)
  {}

  lemma CloseKeepsInv(s: Db, session: nat)
    requires Inv(s)
    ensures Inv(Close(s, session))
  {
    hide RowSound, PatchSound;
    var t := Close(s, session);
    RecordsFrame(s, t);
    forall i | i in t.sessions ensures SessionSound(t, i) { assert SessionSound(s, i); }
  }

  /** The situation in which the accepting commit goes through. */
  ghost predicate CanCommit(s: Db, id: nat, snapshot: Draft) {
    && id in s.patches && s.patches[id].status == Pending
    && (forall i :: i in s.sessions ==> s.sessions[i].patch != id)
    && var p := s.patches[id];
    && p.run in s.intents && Row(p.run, p.base + 1) !in s.versions && Row(p.run, p.base) in s.versions
    && Patched(s.versions[Row(p.run, p.base)], p.operations, p.contextDeparture) == Ok(snapshot)
    && Validated(snapshot, s.intents[p.run])
  }

  lemma CommitKeepsRows(s: Db, id: nat, snapshot: Draft, row: Row)
    requires Inv(s) && CanCommit(s, id, snapshot)
    requires row in s.versions || row == Row(s.patches[id].run, s.patches[id].base + 1)
    ensures RowSound(Commit(s, id, s.patches[id].base, snapshot), row)
  {
    hide RowSound, PatchSound, SessionSound, AdvanceAll;
    if row == Row(s.patches[id].run, s.patches[id].base + 1) {
      CommittedRow(s, id, snapshot);
    } else {
      EarlierRow(s, id, snapshot, row);
    }
  }

  lemma EarlierRow(s: Db, id: nat, snapshot: Draft, row: Row)
    requires RowSound(s, row) && CanCommit(s, id, snapshot)
    ensures RowSound(Commit(s, id, s.patches[id].base, snapshot), row)
  {
    hide Validated, Patched, AdvanceAll;
  }

  lemma CommittedRow(s: Db, id: nat, snapshot: Draft)
    requires Inv(s) && CanCommit(s, id, snapshot)
    ensures var p := s.patches[id]; RowSound(Commit(s, id, p.base, snapshot), Row(p.run, p.base + 1))
  {
    hide Validated, Patched, AdvanceAll, PatchSound, SessionSound;
    assert RowSound(s, Row(s.patches[id].run, s.patches[id].base));
  }

  lemma CommitKeepsInv(s: Db, id: nat, snapshot: Draft)
    requires Inv(s) && CanCommit(s, id, snapshot)
    ensures Inv(Commit(s, id, s.patches[id].base, snapshot))
  {
    hide Validated, Patched, RowSound;
    var t := Commit(s, id, s.patches[id].base, snapshot);
    forall row | row in t.versions ensures RowSound(t, row) { CommitKeepsRows(s, id, snapshot, row); }
    forall k | k in t.patches ensures PatchSound(t, k) { assert PatchSound(s, k); }
    forall i | i in t.sessions ensures SessionSound(t, i) { assert SessionSound(s, i); }
    BaseIsPositive(s, id);
  }

  lemma BaseIsPositive(s: Db, id: nat)
    requires Inv(s) && id in s.patches
    ensures s.patches[id].base >= 1
  {
    assert PatchSound(s, id) && RowSound(s, Row(s.patches[id].run, s.patches[id].base));
  }

  lemma DecisionKeepsInv(s: Db, session: nat, matrix: Matrix)
    requires Inv(s) && CanDecide(s, session, matrix)
    ensures Inv(Decision(s, session, matrix))
  {
    hide Patched, PatchValidation.Accepted, RowSound, PatchSound;
    assert SessionSound(s, session);
    var id := s.sessions[session].patch;
    var p, u := s.patches[id], Close(s, session);
    CloseKeepsInv(s, session);
    match Patched(s.versions[Row(p.run, p.base)], p.operations, p.contextDeparture)
    case Err(_) =>
    case Ok(d) =>
      if !PatchValidation.Accepted(d, s.intents[p.run], matrix, d.departure) {
        StatusKeepsInv(u, id, Blocked);
        assert Decision(s, session, matrix) == WithStatus(u, id, Blocked);
      } else if Row(p.run, p.base + 1) !in s.versions {
        assert Validated(d, s.intents[p.run]);
        CommitKeepsInv(u, id, d);
        assert Decision(s, session, matrix) == Commit(u, id, p.base, d);
      }
  }

  /** Sessions and trips are no part of what makes rows and patches sound. */
  lemma RecordsFrame(s: Db, t: Db)
    requires Inv(s) && t == s.(sessions := t.sessions, trips := t.trips)
    ensures forall row :: row in t.versions ==> RowSound(t, row)
    ensures forall id :: id in t.patches ==> PatchSound(t, id)
  {
    hide Validated, Patched, SessionSound;
    forall row | row in t.versions ensures RowSound(t, row) { assert RowSound(s, row); }
    forall k | k in t.patches ensures PatchSound(t, k) { assert PatchSound(s, k); }
  }

  lemma OpenKeepsSession(s: Db, session: nat, patch: nat, t: Db, i: nat)
    requires Inv(s) && Step(s, Open(session, patch), t) && i in t.sessions
    ensures SessionSound(t, i)
  {
    hide Decision, RowSound, PatchSound, IsLatest;
    if i in s.sessions { assert SessionSound(s, i); }
    assert !Locked(s, patch);
  }

  lemma OpenKeepsInv(s: Db, session: nat, patch: nat, t: Db)
    requires Inv(s) && Step(s, Open(session, patch), t)
    ensures Inv(t)
  {
    hide Decision, RowSound, PatchSound, IsLatest, SessionSound, Locked;
    RecordsFrame(s, t);
    forall i | i in t.sessions ensures SessionSound(t, i) { OpenKeepsSession(s, session, patch, t, i); }
  }

  lemma ReadKeepsSession(s: Db, session: nat, latest: nat, t: Db, i: nat)
    requires Step(s, ReadLatest(session, latest), t) && SessionSound(s, i) && i in t.sessions
    ensures SessionSound(t, i)
  {
    hide Decision, IsLatest;
  }

  lemma ReadKeepsInv(s: Db, session: nat, latest: nat, t: Db)
    requires Inv(s) && Step(s, ReadLatest(session, latest), t)
    ensures Inv(t)
  {
    hide Decision, RowSound, PatchSound, IsLatest, SessionSound;
    RecordsFrame(s, t);
    forall i | i in t.sessions ensures SessionSound(t, i) { ReadKeepsSession(s, session, latest, t, i); }
  }

  lemma TripsKeepInv(s: Db, t: Db)
    requires Inv(s) && t == s.(trips := t.trips)
    requires forall k :: k in t.trips ==> Row(t.trips[k].run, t.trips[k].version) in s.versions
    ensures Inv(t)
  {
    hide RowSound, PatchSound;
    RecordsFrame(s, t);
    forall i | i in t.sessions ensures SessionSound(t, i) { assert SessionSound(s, i); }
  }

  lemma TripEventsKeepInv(s: Db, e: Event, t: Db)
    requires Inv(s) && Step(s, e, t) && (e.StartTrip? || e.MovesTripState?)
    ensures Inv(t)
  {
    hide RowSound, PatchSound, SessionSound, Decision;
    TripsKeepInv(s, t);
  }

  lemma StartRunKeepsInv(s: Db, run: nat, intent: Intent, snapshot: Draft, t: Db)
    requires Inv(s) && Step(s, StartRun(run, intent, snapshot), t)
    ensures Inv(t)
  {
    hide RowSound, PatchSound, SessionSound;
    forall row | row in t.versions ensures RowSound(t, row) { FirstVersionSound(s, run, intent, snapshot, row); }
    forall k | k in t.patches ensures PatchSound(t, k) { FirstVersionKeepsPatch(s, run, intent, snapshot, k); }
    forall i | i in t.sessions ensures SessionSound(t, i) { FirstVersionKeepsSession(s, run, intent, snapshot, i); }
  }

  ghost function Started(s: Db, run: nat, intent: Intent, snapshot: Draft): Db {
    s.(intents := s.intents[run := intent], versions := s.versions[Row(run, 1) := snapshot])
  }

  lemma FirstVersionSound(s: Db, run: nat, intent: Intent, snapshot: Draft, row: Row)
    requires run !in s.intents && (row in s.versions ==> RowSound(s, row))
            && row in Started(s, run, intent, snapshot).versions
    ensures RowSound(Started(s, run, intent, snapshot), row)
  {
    hide Validated, Patched;
  }

  lemma FirstVersionKeepsPatch(s: Db, run: nat, intent: Intent, snapshot: Draft, k: nat)
    requires PatchSound(s, k)
    ensures PatchSound(Started(s, run, intent, snapshot), k)
  {}

  lemma FirstVersionKeepsSession(s: Db, run: nat, intent: Intent, snapshot: Draft, i: nat)
    requires SessionSound(s, i)
    ensures SessionSound(Started(s, run, intent, snapshot), i)
  {}

  lemma NewPatchKeepsRow(s: Db, patch: nat, record: Patch, row: Row)
    requires RowSound(s, row) && patch !in s.patches
    ensures RowSound(Proposed(s, patch, record), row)
  {
    hide Validated, Patched;
  }

  lemma NewPatchSound(s: Db, patch: nat, record: Patch, k: nat)
    requires if k == patch then record.status == Pending
            && Row(record.run, record.base) in s.versions else PatchSound(s, k)
    ensures PatchSound(Proposed(s, patch, record), k)
  {}

  lemma NewPatchKeepsSession(s: Db, patch: nat, record: Patch, i: nat)
    requires SessionSound(s, i) && patch !in s.patches
    ensures SessionSound(Proposed(s, patch, record), i)
  {}

  lemma ProposedKeepsInv(s: Db, patch: nat, record: Patch)
    requires Inv(s) && patch !in s.patches && record.status == Pending && Row(record.run, record.base) in s.versions
    ensures Inv(Proposed(s, patch, record))
  {
    hide RowSound, PatchSound, SessionSound;
    var t := Proposed(s, patch, record);
    forall row | row in t.versions ensures RowSound(t, row) { NewPatchKeepsRow(s, patch, record, row); }
    forall k | k in t.patches ensures PatchSound(t, k) { NewPatchSound(s, patch, record, k); }
    forall i | i in t.sessions ensures SessionSound(t, i) { NewPatchKeepsSession(s, patch, record, i); }
  }

  lemma StateKeepsInv(s: Db, trip: nat, state: TripState)
    requires Inv(s) && trip in s.trips
    ensures Inv(InState(s, trip, state))
  {
    hide RowSound, PatchSound, SessionSound;
    TripsKeepInv(s, InState(s, trip, state));
  }

  lemma ProposalKeepsInv(s: Db, patch: nat, trip: nat, replan: Replan)
    requires Inv(s) && CanPropose(s, patch, trip, replan)
    ensures Inv(AfterProposal(s, patch, trip, replan))
  {
    hide Inv, Compile, Solved, GeneratedImpact;
    var record := GeneratedPatch(s.trips[trip].run, s.trips[trip].version, replan);
    ProposedKeepsInv(s, patch, record);
    StateKeepsInv(Proposed(s, patch, record), trip, Replanning);
  }

  lemma ReviewKeepsInv(s: Db, patch: nat, trip: nat, base: nat, repeated: bool)
    requires Inv(s) && CanReview(s, patch, trip, base, repeated)
    ensures Inv(AfterReview(s, patch, trip, base, repeated))
  {
    hide Inv, CriticObjects;
    if CriticObjects(s, patch, base, repeated) {
      StatusKeepsInv(s, patch, Blocked);
      StateKeepsInv(WithStatus(s, patch, Blocked), trip, OtherState);
    }
  }

  /** Every atomic step of every decider keeps the chain invariant. */
  lemma StepKeepsInv(s: Db, e: Event, t: Db)
    requires Inv(s) && Step(s, e, t)
    ensures Inv(t)
  {
    hide Inv, Decision, CanPropose, AfterProposal, CanReview, AfterReview;
    match e
    case StartRun(run, intent, snapshot) => StartRunKeepsInv(s, run, intent, snapshot, t);
    case StartTrip(_, _, _) => TripEventsKeepInv(s, e, t);
    case MovesTripState(_, _) => TripEventsKeepInv(s, e, t);
    case CreatePatch(patch, record) => ProposedKeepsInv(s, patch, record);
    case Propose(patch, trip, replan) => ProposalKeepsInv(s, patch, trip, replan);
    case Open(session, patch) => OpenKeepsInv(s, session, patch, t);
    case ReadLatest(session, latest) => ReadKeepsInv(s, session, latest, t);
    case Reject(session) => RejectKeepsInv(s, session);
    case Decide(session, matrix) => DecisionKeepsInv(s, session, matrix);
    case Abort(session) => CloseKeepsInv(s, session);
    case CriticReview(patch, trip, base, repeated) => ReviewKeepsInv(s, patch, trip, base, repeated);
  }

  lemma RejectKeepsInv(s: Db, session: nat)
    requires Inv(s) && session in s.sessions && s.sessions[session].patch in s.patches
    ensures Inv(Close(WithStatus(s, s.sessions[session].patch, Rejected), session))
  {
    hide RowSound, PatchSound;
    assert SessionSound(s, session);
    CloseKeepsInv(s, session);
    StatusKeepsInv(Close(s, session), s.sessions[session].patch, Rejected);
    assert Close(WithStatus(s, s.sessions[session].patch, Rejected), session)
        == WithStatus(Close(s, session), s.sessions[session].patch, Rejected);
  }

  // ------------------------------------------------------------- whole runs

  /** A run of the system: `trace[0]` is empty and each state follows from the one before. */
  ghost predicate Execution(trace: seq<Db>, events: seq<Event>) {
    && |trace| == |events| + 1 && trace[0] == EMPTY
    && forall i :: 0 <= i < |events| ==> Step(trace[i], events[i], trace[i + 1])
  }

  lemma {:induction false} ReachableInv(trace: seq<Db>, events: seq<Event>, i: nat)
    requires Execution(trace, events) && i < |trace|
    ensures Inv(trace[i])
  {
    hide Step, Inv;
    if i > 0 {
      ReachableInv(trace, events, i - 1);
      StepKeepsInv(trace[i - 1], events[i - 1], trace[i]);
    } else {
      EmptyInv();
    }
  }

  lemma EmptyInv()
    ensures Inv(EMPTY)
  {}

  lemma {:induction false} PredecessorsExist(s: Db, run: nat, version: nat, v: nat)
    requires Inv(s) && Row(run, version) in s.versions && 1 <= v <= version
    ensures Row(run, v) in s.versions
    decreases version - v
  {
    hide Inv;
    if v < version {
      PredecessorsExist(s, run, version, v + 1);
      VersionHasPredecessor(s, run, v);
    }
  }

  lemma VersionHasPredecessor(s: Db, run: nat, v: nat)
    requires Inv(s) && Row(run, v + 1) in s.versions && v >= 1
    ensures Row(run, v) in s.versions
  {
    hide Validated, Patched, PatchSound, SessionSound;
    assert RowSound(s, Row(run, v + 1));
  }

  /** In every reachable state the versions of a run are exactly 1..N, each later one made by one
      patch of its predecessor that no other version shares, and no trip points past N. */
  lemma ChainIsContiguous(trace: seq<Db>, events: seq<Event>, i: nat, run: nat, latest: nat)
    requires Execution(trace, events) && i < |trace| && IsLatest(trace[i], run, latest)
    ensures forall v: nat :: Row(run, v) in trace[i].versions <==> 1 <= v <= latest
    ensures forall v: nat :: 1 < v <= latest ==> RowSound(trace[i], Row(run, v))
    ensures forall r1, r2 ::
            r1 in trace[i].origin && r2 in trace[i].origin && trace[i].origin[r1] == trace[i].origin[r2] ==> r1 == r2
    ensures forall k :: k in trace[i].trips && trace[i].trips[k].run == run ==> trace[i].trips[k].version <= latest
  {
    hide Validated, Patched, Step;
    ReachableInv(trace, events, i);
    var s := trace[i];
    forall v: nat
      ensures Row(run, v) in s.versions <==> 1 <= v <= latest
    {
      if Row(run, v) in s.versions { assert RowSound(s, Row(run, v)); }
      if 1 <= v <= latest { PredecessorsExist(s, run, latest, v); }
    }
    forall r1, r2 | r1 in s.origin && r2 in s.origin && s.origin[r1] == s.origin[r2]
      ensures r1 == r2
    {
      assert RowSound(s, r1) && RowSound(s, r2);
    }
  }

  /** An accepted patch has produced exactly the version after its base. */
  lemma AcceptedPatchHasVersion(trace: seq<Db>, events: seq<Event>, i: nat, id: nat)
    requires Execution(trace, events) && i < |trace| && id in trace[i].patches
            && trace[i].patches[id].status == Accepted
    ensures var row := Row(trace[i].patches[id].run, trace[i].patches[id].base + 1);
            row in trace[i].versions && row in trace[i].origin && trace[i].origin[row] == id
  {
    hide Step;
    ReachableInv(trace, events, i);
    assert PatchSound(trace[i], id);
  }

  /** Only a new run and a decision write versions. */
  lemma OthersKeepVersions(s: Db, e: Event, t: Db)
    requires Step(s, e, t) && !e.StartRun? && !e.Decide?
    ensures t.versions == s.versions
  {
    hide IsLatest, Locked, CanDecide, Decision;
  }

  lemma StartKeepsVersion(s: Db, run: nat, intent: Intent, snapshot: Draft, t: Db, row: Row)
    requires Inv(s) && Step(s, StartRun(run, intent, snapshot), t) && row in s.versions
    ensures row in t.versions && t.versions[row] == s.versions[row]
  {
    RowHasIntent(s, row);
    hide Inv;
  }

  /** Committed versions are immutable. */
  lemma VersionKept(s: Db, e: Event, t: Db, row: Row)
    requires Inv(s) && Step(s, e, t) && row in s.versions
    ensures row in t.versions && t.versions[row] == s.versions[row]
  {
    hide Inv;
    match e
    case StartRun(run, intent, snapshot) =>
      hide Step;
      StartKeepsVersion(s, run, intent, snapshot, t, row);
    case Decide(session, matrix) =>
      DecidedBy(s, session, matrix, t);
      hide Step, Decision, CanDecide;
      DecisionKeepsRecords(s, session, matrix, 0, row);
    case _ =>
      hide Step;
      OthersKeepVersions(s, e, t);
  }

  lemma DecidedBy(s: Db, session: nat, matrix: Matrix, t: Db)
    requires Step(s, Decide(session, matrix), t)
    ensures CanDecide(s, session, matrix) && t == Decision(s, session, matrix)
  {
    hide CanDecide, Decision;
  }

  /** A version that exists at one moment of a run is the same at every later moment. */
  lemma {:induction false} VersionsAreImmutable(trace: seq<Db>, events: seq<Event>, i: nat, j: nat, row: Row)
    requires Execution(trace, events) && i <= j < |trace| && row in trace[i].versions
    ensures row in trace[j].versions && trace[j].versions[row] == trace[i].versions[row]
    decreases j - i
  {
    hide Step, Inv;
    if i < j {
      VersionsAreImmutable(trace, events, i, j - 1, row);
      ReachableInv(trace, events, j - 1);
      VersionKept(trace[j - 1], events[j - 1], trace[j], row);
    }
  }

  lemma RowHasIntent(s: Db, row: Row)
    requires Inv(s) && row in s.versions
    ensures row.run in s.intents
  {
    hide Validated, Patched, PatchSound, SessionSound;
    assert RowSound(s, row);
  }

  /** Events that write no patch row. */
  lemma OthersKeepPatches(s: Db, e: Event, t: Db)
    requires Step(s, e, t) && !e.CreatePatch? && !e.Propose? && !e.Reject? && !e.Decide? && !e.CriticReview?
    ensures t.patches == s.patches
  {
    hide IsLatest, Locked, CanDecide, Decision, CanPropose, AfterProposal, CanReview, AfterReview;
  }

  /** A new patch leaves the others alone. */
  lemma NewPatchKeepsPatch(s: Db, e: Event, t: Db, id: nat)
    requires Step(s, e, t) && (e.CreatePatch? || e.Propose?) && id in s.patches
    ensures id in t.patches && t.patches[id] == s.patches[id]
  {
    hide Locked, CanDecide, Decision, CanReview, AfterReview, Compile, Solved, GeneratedPatch;
  }

  lemma RejectedPatch(s: Db, session: nat, t: Db, id: nat)
    requires Step(s, Reject(session), t) && id in s.patches
    ensures session in s.sessions && id in t.patches && SameRecord(s.patches[id], t.patches[id])
    ensures s.sessions[session].patch != id ==> t.patches[id] == s.patches[id]
  {
    hide Locked, CanDecide, Decision, CanPropose, AfterProposal, CanReview, AfterReview;
  }

  lemma ReviewedPatch(s: Db, e: Event, t: Db, id: nat)
    requires Step(s, e, t) && e.CriticReview? && id in s.patches
    ensures id in t.patches
            && t.patches[id] == if Overrules(s, e, id) then s.patches[id].(status := Blocked) else s.patches[id]
  {
    hide Locked, CanDecide, Decision, CanPropose, AfterProposal, CriticObjects;
  }

  /** This step is a review of the patch, and the critic objects. */
  ghost predicate Overrules(s: Db, e: Event, id: nat) {
    e.CriticReview? && e.patch == id && CriticObjects(s, id, e.base, e.repeated)
  }

  /** A decided patch changes its status if and only if the critic objects to it and it is not blocked
      already; then it becomes blocked. */
  lemma DecisionsAreFinalIff(s: Db, e: Event, t: Db, id: nat)
    requires Inv(s) && Step(s, e, t) && id in s.patches && s.patches[id].status != Pending
    ensures id in t.patches && SameRecord(s.patches[id], t.patches[id])
    ensures t.patches[id].status != s.patches[id].status <==> Overrules(s, e, id) && s.patches[id].status != Blocked
    ensures t.patches[id].status != s.patches[id].status ==> t.patches[id].status == Blocked
  {
    hide Inv, Step, Decision, CanDecide, CriticObjects;
    if e.Decide? {
      DecidedBy(s, e.session, e.matrix, t);
      DecisionIsOfPending(s, e.session, e.matrix, id);
    } else if e.Reject? {
      RejectedPatch(s, e.session, t, id);
      RejectIsOfPending(s, e.session);
    } else if e.CriticReview? {
      ReviewedPatch(s, e, t, id);
    } else if e.CreatePatch? || e.Propose? {
      NewPatchKeepsPatch(s, e, t, id);
    } else {
      OthersKeepPatches(s, e, t);
    }
  }

  /** Over a run: a decided patch keeps its status exactly as long as no review objects to it. */
  lemma {:induction false} DecisionStaysIff(trace: seq<Db>, events: seq<Event>, i: nat, j: nat, id: nat)
    requires Execution(trace, events) && i <= j < |trace| && id in trace[i].patches
            && trace[i].patches[id].status != Pending
    ensures id in trace[j].patches
    ensures trace[j].patches[id].status != trace[i].patches[id].status <==>
            trace[i].patches[id].status != Blocked && exists k :: i <= k < j && Overrules(trace[k], events[k], id)
    ensures trace[j].patches[id].status != trace[i].patches[id].status ==> trace[j].patches[id].status == Blocked
    decreases j - i
  {
    hide Step, Inv, Overrules;
    if i < j {
      var before := j - 1;
      DecisionStaysIff(trace, events, i, before, id);
      ReachableInv(trace, events, before);
      DecisionsAreFinalIff(trace[before], events[before], trace[j], id);
    }
  }

  /** No step changes more of a patch than its status. */
  lemma RecordKept(s: Db, e: Event, t: Db, id: nat)
    requires Step(s, e, t) && id in s.patches
    ensures id in t.patches && SameRecord(s.patches[id], t.patches[id])
  {
    hide Step, CanDecide, Decision, Overrules;
    if e.Decide? {
      DecidedBy(s, e.session, e.matrix, t);
      DecisionKeepsRecords(s, e.session, e.matrix, id, Row(0, 0));
    } else if e.Reject? {
      RejectedPatch(s, e.session, t, id);
    } else if e.CriticReview? {
      ReviewedPatch(s, e, t, id);
    } else if e.CreatePatch? || e.Propose? {
      NewPatchKeepsPatch(s, e, t, id);
    } else {
      OthersKeepPatches(s, e, t);
    }
  }

  lemma ProposalIsStored(s: Db, id: nat, trip: nat, replan: Replan, t: Db)
    requires Step(s, Propose(id, trip, replan), t)
    ensures CanPropose(s, id, trip, replan) && t.versions == s.versions && id in t.patches
            && t.patches[id] == GeneratedPatch(s.trips[trip].run, s.trips[trip].version, replan)
  {
    hide Compile, Solved, GeneratedPatch;
  }

  /** The script, evidence and base of a generated patch are those of its replan for ever. */
  lemma {:induction false} ProposalKept(trace: seq<Db>, events: seq<Event>, m: nat, j: nat, id: nat, trip: nat,
      replan: Replan)
    requires Execution(trace, events) && m < j < |trace| && events[m] == Propose(id, trip, replan)
    ensures CanPropose(trace[m], id, trip, replan) && id in trace[j].patches
    ensures var (run, version) := (trace[m].trips[trip].run, trace[m].trips[trip].version);
            && SameRecord(trace[j].patches[id], GeneratedPatch(run, version, replan))
            && Row(run, version) in trace[j].versions && trace[j].versions[Row(run, version)] == replan.base
    decreases j - m
  {
    hide Step, Inv, CanDecide, Decision, GeneratedPatch;
    ProposalIsStored(trace[m], id, trip, replan, trace[m + 1]);
    var row := Row(trace[m].trips[trip].run, trace[m].trips[trip].version);
    if m + 1 < j {
      var before := j - 1;
      ProposalKept(trace, events, m, before, id, trip, replan);
      RecordKept(trace[before], events[before], trace[j], id);
      ReachableInv(trace, events, before);
      VersionKept(trace[before], events[before], trace[j], row);
    }
  }

  /** A generated patch all of whose replacement places have a source keeps its decision, provided the
      reviews read the version it was made for. */
  lemma SourcedProposalStays(trace: seq<Db>, events: seq<Event>, m: nat, i: nat, j: nat, id: nat, trip: nat,
      replan: Replan)
    requires Execution(trace, events) && m < i <= j < |trace| && events[m] == Propose(id, trip, replan)
    requires CanPropose(trace[m], id, trip, replan) && !Unsourced(Chosen(replan))
    requires id in trace[i].patches && trace[i].patches[id].status != Pending
    requires forall k :: i <= k < j && events[k].CriticReview? && events[k].patch == id ==>
               events[k].base == trace[m].trips[trip].version
    ensures id in trace[j].patches && trace[j].patches[id].status == trace[i].patches[id].status
  {
    hide Step, Inv, CanPropose, CriticObjects;
    DecisionStaysIff(trace, events, i, j, id);
    forall k | i <= k < j
      ensures !Overrules(trace[k], events[k], id)
    {
      if events[k].CriticReview? && events[k].patch == id {
        NoObjection(trace, events, m, k, id, trip, replan, events[k].repeated);
      }
    }
  }

  lemma NoObjection(trace: seq<Db>, events: seq<Event>, m: nat, k: nat, id: nat, trip: nat, replan: Replan,
      repeated: bool)
    requires Execution(trace, events) && m < k < |trace| && events[m] == Propose(id, trip, replan)
    requires CanPropose(trace[m], id, trip, replan) && !Unsourced(Chosen(replan))
    ensures !CriticObjects(trace[k], id, trace[m].trips[trip].version, repeated)
  {
    hide Step, Compile, Solved, Objects, Unsourced, GeneratedImpact;
    ProposalKept(trace, events, m, k, id, trip, replan);
    GeneratedBlockedIff(replan, trace[m].trips[trip].version);
    RepeatedReviewBlockedIff(replan, trace[m].trips[trip].version, trace[m].trips[trip].version, replan.base.stops);
  }

  lemma RejectIsOfPending(s: Db, session: nat)
    requires Inv(s) && session in s.sessions
    ensures s.sessions[session].patch in s.patches && s.patches[s.sessions[session].patch].status == Pending
  {
    hide RowSound, PatchSound;
    assert SessionSound(s, session);
  }

  lemma DecisionIsOfPending(s: Db, session: nat, matrix: Matrix, id: nat)
    requires Inv(s) && CanDecide(s, session, matrix) && id in s.patches && s.patches[id].status != Pending
    ensures id in Decision(s, session, matrix).patches && Decision(s, session, matrix).patches[id] == s.patches[id]
  {
    RejectIsOfPending(s, session);
    hide Decision, Inv, CanDecide;
    DecisionKeepsRecords(s, session, matrix, id, Row(0, 0));
  }

  /** From version 2 on, every plan of a run holds sound task identities and every required task,
      so a complete first version stays complete for ever. */
  lemma RequiredTasksKept(trace: seq<Db>, events: seq<Event>, i: nat, row: Row)
    requires Execution(trace, events) && i < |trace| && row in trace[i].versions
    ensures row.run in trace[i].intents
    ensures var (d, intent) := (trace[i].versions[row], trace[i].intents[row.run]);
            row.version > 1 ==>
              IdentitiesSound(d.stops, |intent.tasks|, |d.stops|) && RequiredPresent(d.stops, intent.tasks)
  {
    hide Step, Patched, IdentitiesSound, RequiredPresent, EvaluationOf;
    ReachableInv(trace, events, i);
    assert RowSound(trace[i], row);
  }

  // One run and one trip. The visit's place has closed; the only other place on offer names no source.
  // The patch is accepted before the critic has seen it, and then the critic blocks it.
  const INTENT := Intent([ANY_TASK], PLAIN_PREFERENCES, NO_LIMITS, [])

  const PLAN := Draft([VISIT], Walking, 0.0)

  const UNKNOWN := Stop(Place(2).(sourced := false), 0, ANY_TASK, 0)

  const REPLAN := Replan(PLAN, {}, {1}, map[1 := [UNKNOWN.poi]], false, [0], Walking, 0.0)

  const NEW_PLAN := Draft([UNKNOWN], Walking, 0.0)

  ghost function Generated(status: Status): Patch {
    Patch(0, 1, [ReplaceStop(1, Some(UNKNOWN))], Some(0.0), Impact({}, 0, Some(1), 0.0, 0.0), true, status)
  }

  /** The database before the decision. */
  ghost function Running(patches: map<nat, Patch>, state: TripState, sessions: map<nat, Session>): Db {
    Db(map[0 := INTENT], patches, map[Row(0, 1) := PLAN], map[0 := Trip(0, 1, state)], sessions, map[])
  }

  /** The database after it. */
  ghost function Decided(status: Status, state: TripState): Db {
    Db(map[0 := INTENT], map[0 := Generated(status)], map[Row(0, 1) := PLAN, Row(0, 2) := NEW_PLAN],
       map[0 := Trip(0, 2, state)], map[], map[Row(0, 2) := 0])
  }

  lemma TripStarts()
    ensures var begun := EMPTY.(intents := map[0 := INTENT], versions := map[Row(0, 1) := PLAN]);
            Step(EMPTY, StartRun(0, INTENT, PLAN), begun)
            && Step(begun, StartTrip(0, 0, 1), Running(map[], OtherState, map[]))
  {}

  lemma ReplanChoice()
    ensures Solved(REPLAN) && ActiveItems(REPLAN) == Chosen(REPLAN) == [Item(1, UNKNOWN, true)]
  {
    assert PLAN.stops[1..] == [] && PLAN.stops[0] == VISIT;
    assert PickReplacement(REPLAN.found[1], 1) == Some(UNKNOWN.poi);
    assert ItemFor(VISIT, {1}, REPLAN.found) == Item(1, UNKNOWN, true);
    assert Active(PLAN.stops[1..], {}, {1}, REPLAN.found, false) == [];
    assert ActiveItems(REPLAN) == [Item(1, UNKNOWN, true)];
    assert Chosen(REPLAN)[0] == Item(1, UNKNOWN, true);
  }

  lemma OneStop(stop: Stop, item: Item)
    requires stop.poi.id == item.sourceId && item.replaced
    ensures Ids([stop]) == Sources([item]) == [item.sourceId] && Stops([item]) == [item.stop]
    ensures Kept([stop], [item.sourceId]) == [stop] && RemoveOps([stop], [item.sourceId]) == []
    ensures CostOf([stop]) == stop.poi.cost.Or(0.0)
    ensures ReplaceOps([item], 0) == [ReplaceStop(item.sourceId, Some(item.stop))]
  {
    assert [stop][1..] == [];
  }

  lemma ReplanScript()
    ensures Solved(REPLAN) && Compile(REPLAN) == [ReplaceStop(1, Some(UNKNOWN))]
    ensures GeneratedImpact(REPLAN, 1) == Impact({}, 0, Some(1), 0.0, 0.0)
  {
    ReplanChoice();
    OneStop(VISIT, Item(1, UNKNOWN, true));
    OneStop(UNKNOWN, Item(2, UNKNOWN, true));
    hide Active, Kept, RemoveOps, ReplaceOps, Sources, Ids, Stops, CostOf;
    assert MoveOps([1], [1], 0) == MoveOps([1], [1], 1) == [];
  }

  lemma ReplanIsProposed()
    ensures Step(Running(map[], OtherState, map[]), Propose(0, 0, REPLAN),
                 Running(map[0 := Generated(Pending)], Replanning, map[]))
  {
    ReplanScript();
    hide Compile, Solved, GeneratedImpact;
  }

  lemma ReplanIsOpened()
    ensures var patches := map[0 := Generated(Pending)];
            && Step(Running(patches, Replanning, map[]), Open(0, 0),
                    Running(patches, Replanning, map[0 := Session(0, None)]))
            && Step(Running(patches, Replanning, map[0 := Session(0, None)]), ReadLatest(0, 1),
                    Running(patches, Replanning, map[0 := Session(0, Some(1))]))
  {}

  lemma NewPlanIsAccepted()
    ensures MatrixFits(FlatMatrix(), NEW_PLAN.stops) && PatchValidation.Accepted(NEW_PLAN, INTENT, FlatMatrix(), 0.0)
  {
    hide EvaluationOf;
    UnconditionalIsFeasible(NEW_PLAN, INTENT, FlatMatrix(), 0.0);
    assert NEW_PLAN.stops[0].taskIndex == 0;
    AcceptedIff(NEW_PLAN, INTENT, FlatMatrix(), 0.0);
  }

  lemma ReplanRuns()
    ensures Patched(PLAN, [ReplaceStop(1, Some(UNKNOWN))], Some(0.0)) == Ok(NEW_PLAN)
  {
    var script := [ReplaceStop(1, Some(UNKNOWN))];
    assert KeepTask(UNKNOWN, VISIT) == UNKNOWN && PLAN.stops[0 := UNKNOWN] == [UNKNOWN];
    assert Apply(PLAN, script[0]) == Ok(NEW_PLAN) && script[1..] == [];
    assert Run(NEW_PLAN, []) == Ok(NEW_PLAN);
    assert Run(PLAN, script) == Ok(NEW_PLAN);
  }

  lemma ReplanIsAccepted()
    ensures Step(Running(map[0 := Generated(Pending)], Replanning, map[0 := Session(0, Some(1))]),
                 Decide(0, FlatMatrix()), Decided(Accepted, ActiveTrip))
  {
    NewPlanIsAccepted();
    hide PatchValidation.Accepted, MatrixFits;
    ReplanRuns();
    hide Patched;
    assert AdvanceAll(map[0 := Trip(0, 1, Replanning)], 0, 1) == map[0 := Trip(0, 2, ActiveTrip)];
    assert map[0 := Session(0, Some(1))] - {0} == map[];
    assert map[Row(0, 1) := PLAN][Row(0, 2) := NEW_PLAN] == map[Row(0, 1) := PLAN, Row(0, 2) := NEW_PLAN];
  }

  lemma ReplanIsBlocked()
    ensures Step(Decided(Accepted, ActiveTrip), CriticReview(0, 0, 1, false), Decided(Blocked, OtherState))
  {
    assert Blocks([ReplaceStop(1, Some(UNKNOWN))][0], PLAN.stops, {});
  }

  /** A run that ends with an accepted patch, whose version is current, overwritten as blocked. */
  lemma AcceptedCanBeBlocked() returns (trace: seq<Db>, events: seq<Event>)
    ensures Execution(trace, events) && |trace| > 1
    ensures var (before, after) := (trace[|trace| - 2], trace[|trace| - 1]);
            && 0 in before.patches && before.patches[0].status == Accepted && IsLatest(before, 0, 2)
            && before.patches[0].generated && before.origin == map[Row(0, 2) := 0]
            && 0 in after.patches && after.patches[0].status == Blocked && IsLatest(after, 0, 2)
  {
    hide Step;
    var patches := map[0 := Generated(Pending)];
    trace := [EMPTY, EMPTY.(intents := map[0 := INTENT], versions := map[Row(0, 1) := PLAN]),
              Running(map[], OtherState, map[]), Running(patches, Replanning, map[]),
              Running(patches, Replanning, map[0 := Session(0, None)]),
              Running(patches, Replanning, map[0 := Session(0, Some(1))]),
              Decided(Accepted, ActiveTrip), Decided(Blocked, OtherState)];
    events := [StartRun(0, INTENT, PLAN), StartTrip(0, 0, 1), Propose(0, 0, REPLAN), Open(0, 0), ReadLatest(0, 1),
               Decide(0, FlatMatrix()), CriticReview(0, 0, 1, false)];
    TripStarts();
    ReplanIsProposed();
    ReplanIsOpened();
    ReplanIsAccepted();
    ReplanIsBlocked();
  }
}
