/** The decision procedure over the mutable database (plan_versioning.py, decide_plan_patch). Its
    three segments between suspension points are the atomic steps of VersionChain. */
module PlanDatabase {
  import opened Basics
  import opened RouteEvaluation
  import opened PlanPatch
  import opened PatchValidation
  import opened VersionChain

  datatype DecisionError = PatchNotFound | AlreadyDecided | VersionConflict | Invalid(error: PatchError) | Infeasible

  class Database {
    var intents: map<nat, Intent>
    var patches: map<nat, Patch>
    var versions: map<Row, Draft>
    var trips: map<nat, Trip>
    var sessions: map<nat, Session>
    var origin: map<Row, nat>

    ghost function Contents(): Db
      reads this
    {
      Db(intents, patches, versions, trips, sessions, origin)
    }

    constructor ()
      ensures Contents() == EMPTY
    {
      intents, patches, versions, trips, sessions, origin := map[], map[], map[], map[], map[], map[];
    }

    /** Takes the row lock on the patch and insists that it is pending. */
    method OpenPatch(session: nat, patch: nat) returns (r: Result<bool, DecisionError>)
      requires session !in sessions && !Locked(Contents(), patch)
      modifies this`sessions
      ensures r.Ok? <==> patch in patches && patches[patch].status == Pending
      ensures r.Err? ==> r.error == if patch in patches then AlreadyDecided else PatchNotFound
      ensures r.Err? ==> Contents() == old(Contents())
      ensures patch in patches ==> Step(old(Contents()), Open(session, patch), Contents())
    {
      if patch !in patches { return Err(PatchNotFound); }
      if patches[patch].status != Pending { return Err(AlreadyDecided); }
      sessions := sessions[session := Session(patch, None)];
      return Ok(true);
    }

    /** The newest version of a run: the first row in descending version order. */
    method LatestVersion(run: nat) returns (latest: Option<nat>)
      ensures latest.Some? ==> IsLatest(Contents(), run, latest.value)
      ensures latest.None? ==> forall v: nat :: Row(run, v) !in versions
    {
      latest := None;
      var rest := versions.Keys;
      while rest != {}
        invariant rest <= versions.Keys
        invariant latest.Some? ==> Row(run, latest.value) in versions
        invariant forall v: nat :: Row(run, v) in versions && Row(run, v) !in rest ==> latest.Some? && v <= latest.value
        decreases rest
      {
        var row :| row in rest;
        rest := rest - {row};
        if row.run == run && (latest.None? || latest.value < row.version) { latest := Some(row.version); }
      }
    }

    /** Compares the patch's base with the newest version; a stale patch ends the decision. */
    method ReadBase(session: nat) returns (r: Result<nat, DecisionError>)
      requires Inv(Contents()) && session in sessions && sessions[session].current.None?
      modifies this`sessions
      ensures Inv(Contents())
      ensures exists latest: nat ::
                && Step(old(Contents()), ReadLatest(session, latest), Contents())
                && r == if latest == old(patches[sessions[session].patch].base) then Ok(latest)
                     else Err(VersionConflict)
    {
      ghost var before := Contents();
      assert SessionSound(before, session) && PatchSound(before, sessions[session].patch);
      var id := sessions[session].patch;
      var latest := LatestVersion(patches[id].run);
      assert latest.Some?;
      if latest.value == patches[id].base {
        sessions := sessions[session := Session(id, latest)];
        r := Ok(latest.value);
      } else {
        sessions := sessions - {session};
        r := Err(VersionConflict);
      }
      assert Step(before, ReadLatest(session, latest.value), Contents());
      StepKeepsInv(before, ReadLatest(session, latest.value), Contents());
    }

    /** Moves every trip that follows the superseded version. */
    method AdvanceTrips(run: nat, current: nat)
      modifies this`trips
      ensures trips == AdvanceAll(old(trips), run, current)
    {
      ghost var before := trips;
      var rest := trips.Keys;
      while rest != {}
        invariant rest <= trips.Keys == before.Keys
        invariant forall k :: k in trips ==> trips[k] == if k in rest then
                before[k] else Advance(before[k], run, current)
        decreases rest
      {
        var k :| k in rest;
        rest := rest - {k};
        var trip := trips[k];
        if trip.run == run && trip.version == current {
          trip := trip.(version := current + 1);
          if trip.state == Replanning { trip := trip.(state := ActiveTrip); }
          trips := trips[k := trip];
        }
      }
    }

    method SetStatus(patch: nat, status: Status)
      requires patch in patches
      modifies this`patches
      ensures Contents() == WithStatus(old(Contents()), patch, status)
    {
      patches := patches[patch := patches[patch].(status := status)];
    }

    method RejectPatch(session: nat)
      requires Inv(Contents()) && session in sessions && sessions[session].current.None?
      modifies this
      ensures Inv(Contents())
      ensures Step(old(Contents()), Reject(session), Contents())
    {
      ghost var before := Contents();
      assert SessionSound(before, session);
      SetStatus(sessions[session].patch, Rejected);
      sessions := sessions - {session};
      StepKeepsInv(before, Reject(session), Contents());
    }

    /** Interprets the script, validates the result and commits it; a rival version row makes the
        unique constraint fail and everything written by this decision is rolled back. */
    method DecidePatch(session: nat, matrix: Matrix) returns (r: Result<nat, DecisionError>)
      requires Inv(Contents()) && CanDecide(Contents(), session, matrix)
      modifies this
      ensures Inv(Contents())
      ensures Step(old(Contents()), Decide(session, matrix), Contents())
      ensures r.Ok? ==> r.value == old(sessions[session].current.value) + 1
      ensures r.Ok? <==> versions != old(versions)
      ensures r.Err? && r.error != Infeasible ==> patches == old(patches) && trips == old(trips)
      ensures r == Err(Infeasible) ==>
              old(sessions[session].patch) in patches && patches[old(sessions[session].patch)].status == Blocked
    {
      ghost var before := Contents();
      r := Write(session, matrix);
      StepKeepsInv(before, Decide(session, matrix), Contents());
    }

    method Write(session: nat, matrix: Matrix) returns (r: Result<nat, DecisionError>)
      requires CanDecide(Contents(), session, matrix)
      modifies this
      ensures Contents() == Decision(old(Contents()), session, matrix)
      ensures r.Ok? ==> r.value == old(sessions[session].current.value) + 1
      ensures r.Ok? <==> versions != old(versions)
      ensures r.Err? && r.error != Infeasible ==> patches == old(patches) && trips == old(trips)
      ensures r == Err(Infeasible) ==>
              old(sessions[session].patch) in patches && patches[old(sessions[session].patch)].status == Blocked
    {
      hide ApplyPatch, AdvanceAll, PatchValidation.Accepted, MatrixFits;
      var id, current := sessions[session].patch, sessions[session].current.value;
      var p := patches[id];
      sessions := sessions - {session};
      var script := ApplyPatchStructure(versions[Row(p.run, current)], p.operations);
      if script.Err? { return Err(Invalid(script.error)); }
      var snapshot, conflicts := Validate(script.value, intents[p.run], matrix, p.contextDeparture);
      if conflicts {
        SetStatus(id, Blocked);
        return Err(Infeasible);
      }
      var row := Row(p.run, current + 1);
      var oldVersions, oldPatches, oldTrips, oldOrigin := versions, patches, trips, origin;
      var taken := row in versions;
      versions := versions[row := snapshot];
      SetStatus(id, VersionChain.Accepted);
      AdvanceTrips(p.run, current);
      origin := origin[row := id];
      if taken {
        versions, patches, trips, origin := oldVersions, oldPatches, oldTrips, oldOrigin;
        return Err(VersionConflict);
      }
      assert row in versions && row !in oldVersions;
      return Ok(current + 1);
    }

    method Validate(d: Draft, intent: Intent, matrix: Matrix, contextDeparture: Option<real>)
        returns (snapshot: Draft, conflicts: bool)
      requires MatrixFits(matrix, d.stops)
      ensures snapshot == d.(departure := contextDeparture.Or(d.departure))
      ensures conflicts <==> !PatchValidation.Accepted(snapshot, intent, matrix, snapshot.departure)
    {
      snapshot := d.(departure := contextDeparture.Or(d.departure));
      var outcome := RecalculateAndValidate(d, intent, matrix, true, contextDeparture, (task, conflict) => false);
      conflicts := outcome.value.1 != [];
      OnlyPlanMatters(d, snapshot, intent, matrix, snapshot.departure);
    }

    /** Validation reads the departure it is given, not the one stored in the draft. */
    static lemma OnlyPlanMatters(d: Draft, e: Draft, intent: Intent, matrix: Matrix, departure: real)
      requires MatrixFits(matrix, d.stops) && d.stops == e.stops && d.mode == e.mode
      ensures PatchValidation.Accepted(d, intent, matrix, departure)
              == PatchValidation.Accepted(e, intent, matrix, departure)
    {
      hide Evaluate, Registered;
    }
  }
}
