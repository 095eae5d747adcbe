/** Handling one trip event under the trip's lock (worker.py): acquire, check, claim, commit, release. */
module TripEventWorker {
  import opened Basics
  import opened FencedLock
  import opened RuntimeStore
  import opened WorkerFence

  /** The fencing columns of the trip event table. */
  class EventTable {
    var rows: map<Event, Row>

    /** The conditional update: not processed yet and only to a larger fence. */
    method ClaimWorkerFence(event: Event, fence: nat) returns (ok: bool)
      requires event in rows
      modifies this`rows
      ensures ok <==> !old(rows)[event].processed && old(rows)[event].fence < fence
      ensures rows == if ok then old(rows)[event := Row(fence, false)] else old(rows)
    {
      var row := rows[event];
      ok := !row.processed && row.fence < fence;
      if ok { rows := rows[event := Row(fence, false)]; }
    }

    /** A commit behind the guard; `finishes` marks the event processed. */
    method CommitGuarded(event: Event, fence: nat, leaseLost: bool, finishes: bool) returns (ok: bool)
      requires event in rows
      modifies this`rows
      ensures ok <==> !leaseLost && old(rows)[event].fence == fence
      ensures rows == if ok && finishes then old(rows)[event := Row(fence, true)] else old(rows)
    {
      if leaseLost || rows[event].fence != fence { return false; }
      if finishes { rows := rows[event := Row(fence, true)]; }
      return true;
    }
  }

  datatype Handling =
    Contended | TripMissing | Deduplicated | LostLock | Fenced | HandlerFailed | CommitRefused | Done

  /** How far the pass got: its checks in order. */
  function Stage(r: Handling): nat {
    match r
    case Contended => 0
    case TripMissing => 1
    case Deduplicated => 2
    case LostLock => 3
    case Fenced => 4
    case HandlerFailed => 5
    case CommitRefused => 6
    case Done => 7
  }

  /** The pass came to the check that ends it with `check`, or beyond. */
  predicate Reaches(r: Handling, check: Handling) { Stage(r) >= Stage(check) }

  /** Another worker that asks for the lock after the ownership check, before the claim or while the
      handler runs, and claims the event once it has the lock. */
  datatype Rival = Rival(at: int, ttl: nat, owner: nat, beforeClaim: bool)

  /** Clock readings at acquisition and at the ownership check, whether the trip is gone, whether the
      lease task reported a loss before the claim and before the final commit, whether the handler
      failed, and what a rival did. */
  datatype Circumstances = Circumstances(
    acquiredAt: int,
    checkedAt: int,
    tripMissing: bool,
    lostBeforeClaim: bool,
    lostBeforeCommit: bool,
    handlerFails: bool,
    rival: Option<Rival>)

  /** The rival came when the lease had run out. */
  predicate TakesOver(c: Circumstances, ttl: nat) {
    c.rival.Some? && c.rival.value.at >= c.acquiredAt + ttl
  }

  method Race(store: InMemoryRuntimeStore, table: EventTable, trip: Trip, event: Event, rival: Rival)
      returns (won: bool)
    requires store.Valid() && event in table.rows && !table.rows[event].processed
    requires table.rows[event].fence <= Fence(store.Locks(), trip)
    modifies store`leases, store`fences, table
    ensures store.Valid() && won == !HeldAt(old(store.Locks()), trip, rival.at)
    ensures !won ==> store.Locks() == old(store.Locks()) && table.rows == old(table.rows)
    ensures won ==>
              && Fence(store.Locks(), trip) == Fence(old(store.Locks()), trip) + 1
              && trip in store.leases && store.leases[trip].token == Token(Fence(store.Locks(), trip), rival.owner)
              && table.rows == old(table.rows)[event := Row(Fence(store.Locks(), trip), false)]
  {
    var token := store.AcquireLock(trip, rival.ttl, rival.owner, rival.at);
    won := token.Some?;
    if won {
      var claimed := table.ClaimWorkerFence(event, token.value.fence);
      assert claimed;
    }
  }

  /** One pass. A lock that was taken is released again, unless a rival has taken it over; the row moves
      only to the newest fence, and it is marked processed exactly on success. */
  method ProcessTripEvent(
    store: InMemoryRuntimeStore, table: EventTable, trip: Trip, event: Event, ttl: nat, owner: nat, c: Circumstances)
    returns (r: Handling)
    requires store.Valid() && event in table.rows && table.rows[event].fence <= Fence(store.Locks(), trip)
    requires c.lostBeforeClaim ==> c.lostBeforeCommit
    modifies store`leases, store`fences, table
    ensures store.Valid() && event in table.rows
    ensures r == Contended <==> HeldAt(old(store.Locks()), trip, c.acquiredAt)
    ensures r == Contended ==> store.Locks() == old(store.Locks()) && table.rows == old(table.rows)
    ensures r == TripMissing <==> Reaches(r, TripMissing) && c.tripMissing
    ensures r == Deduplicated <==> Reaches(r, Deduplicated) && old(table.rows)[event].processed
    ensures r == LostLock <==>
            Reaches(r, LostLock) && (c.lostBeforeClaim || c.checkedAt >= c.acquiredAt + ttl)
    ensures r == Fenced <==> Reaches(r, Fenced) && TakesOver(c, ttl) && c.rival.value.beforeClaim
    ensures r == HandlerFailed <==> Reaches(r, HandlerFailed) && c.handlerFails
    ensures r == CommitRefused <==> Reaches(r, CommitRefused) && (c.lostBeforeCommit || TakesOver(c, ttl))
    ensures r == Done <==> table.rows != old(table.rows) && table.rows[event].processed
    ensures if !Reaches(r, Fenced) then table.rows == old(table.rows)
            else !old(table.rows)[event].processed
                 && table.rows == old(table.rows)[event := Row(Fence(store.Locks(), trip), r == Done)]
    ensures var taken := Reaches(r, Fenced) && TakesOver(c, ttl);
            && (r != Contended && !taken ==>
                  trip !in store.leases && Fence(store.Locks(), trip) == Fence(old(store.Locks()), trip) + 1)
            && (taken ==>
                  && Fence(store.Locks(), trip) == Fence(old(store.Locks()), trip) + 2
                  && trip in store.leases
                  && store.leases[trip].token == Token(Fence(store.Locks(), trip), c.rival.value.owner))
  {
    hide InMemoryRuntimeStore.Valid, TakesOver;
    var token := store.AcquireLock(trip, ttl, owner, c.acquiredAt);
    if token.None? { return Contended; }
    r := HandleUnderLock(store, table, trip, event, token.value, ttl, c);
    var released := store.ReleaseLock(trip, token.value);
  }

  /** The pass up to the ownership check, by the holder of `token`, and beyond it. */
  method HandleUnderLock(
    store: InMemoryRuntimeStore, table: EventTable, trip: Trip, event: Event, token: Token, ttl: nat,
    c: Circumstances)
    returns (r: Handling)
    requires store.Valid() && event in table.rows
    requires token.fence == Fence(store.Locks(), trip) && table.rows[event].fence < token.fence
    requires trip in store.leases && store.leases[trip] == Lease(token, c.acquiredAt + ttl)
    requires c.lostBeforeClaim ==> c.lostBeforeCommit
    modifies store`leases, store`fences, table
    ensures store.Valid() && event in table.rows && r != Contended
    ensures r == TripMissing <==> c.tripMissing
    ensures r == Deduplicated <==> Reaches(r, Deduplicated) && old(table.rows)[event].processed
    ensures r == LostLock <==>
            Reaches(r, LostLock) && (c.lostBeforeClaim || c.checkedAt >= c.acquiredAt + ttl)
    ensures r == Fenced <==> Reaches(r, Fenced) && TakesOver(c, ttl) && c.rival.value.beforeClaim
    ensures r == HandlerFailed <==> Reaches(r, HandlerFailed) && c.handlerFails
    ensures r == CommitRefused <==> Reaches(r, CommitRefused) && (c.lostBeforeCommit || TakesOver(c, ttl))
    ensures if !Reaches(r, Fenced) then table.rows == old(table.rows)
            else !old(table.rows)[event].processed
                 && table.rows == old(table.rows)[event := Row(Fence(store.Locks(), trip), r == Done)]
    ensures if Reaches(r, Fenced) && TakesOver(c, ttl)
            then && Fence(store.Locks(), trip) == token.fence + 1 && trip in store.leases
                 && store.leases[trip].token == Token(Fence(store.Locks(), trip), c.rival.value.owner)
            else store.Locks() == old(store.Locks())
  {
    if c.tripMissing { return TripMissing; }
    if table.rows[event].processed { return Deduplicated; }
    var owned := store.IsLockOwner(trip, token, c.checkedAt);
    if c.lostBeforeClaim || !owned { return LostLock; }
    r := ClaimAndHandle(store, table, trip, event, token, c);
  }

  /** The pass from the claim on, by the holder of `token`. */
  method ClaimAndHandle(
    store: InMemoryRuntimeStore, table: EventTable, trip: Trip, event: Event, token: Token, c: Circumstances)
    returns (r: Handling)
    requires store.Valid() && event in table.rows && !table.rows[event].processed
    requires token.fence == Fence(store.Locks(), trip) && table.rows[event].fence < token.fence
    requires trip in store.leases && store.leases[trip].token == token
    modifies store`leases, store`fences, table
    ensures store.Valid() && event in table.rows
    ensures var wins := c.rival.Some? && c.rival.value.at >= old(store.leases)[trip].expires;
            && (r == Fenced <==> wins && c.rival.value.beforeClaim)
            && (r == HandlerFailed <==> r != Fenced && c.handlerFails)
            && (r == CommitRefused <==> Reaches(r, CommitRefused) && (c.lostBeforeCommit || wins))
            && Reaches(r, Fenced)
            && table.rows == old(table.rows)[event := Row(Fence(store.Locks(), trip), r == Done)]
            && if wins
               then && Fence(store.Locks(), trip) == token.fence + 1 && trip in store.leases
                    && store.leases[trip].token == Token(Fence(store.Locks(), trip), c.rival.value.owner)
               else store.Locks() == old(store.Locks())
  {
    hide InMemoryRuntimeStore.Valid;
    if c.rival.Some? && c.rival.value.beforeClaim {
      var _ := Race(store, table, trip, event, c.rival.value);
    }
    var claimed := table.ClaimWorkerFence(event, token.fence);
    if !claimed { return Fenced; }
    if c.rival.Some? && !c.rival.value.beforeClaim {
      var _ := Race(store, table, trip, event, c.rival.value);
    }
    if c.handlerFails { return HandlerFailed; }
    var committed := table.CommitGuarded(event, token.fence, c.lostBeforeCommit, true);
    r := if committed then Done else CommitRefused;
  }
}
