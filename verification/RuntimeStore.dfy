/** The in-memory runtime store object (runtime_store.py), against the specifications of ValueTable and FencedLock. */
module RuntimeStore {
  import opened Basics
  import opened Enumeration
  import opened ValueTable
  import FencedLock

  // -------------------------------------------------------------------- counters

  datatype Counter = Counter(value: int, expires: int)

  /** Returned instead of a count when the table is full of active counters: 2^63 - 1. */
  const REFUSED := 0x7fff_ffff_ffff_ffff

  function LiveCounters(counters: map<Key, Counter>, now: int): map<Key, Counter> {
    map k | k in counters && counters[k].expires > now :: counters[k]
  }

  predicate PurgeDue(counters: map<Key, Counter>, operations: nat, limits: Limits) {
    operations % 256 == 0 || |counters| >= limits.counters
  }

  function Candidates(counters: map<Key, Counter>, operations: nat, now: int, limits: Limits): map<Key, Counter> {
    if PurgeDue(counters, operations, limits) then LiveCounters(counters, now) else counters
  }

  predicate Admits(counters: map<Key, Counter>, key: Key, operations: nat, now: int, limits: Limits) {
    var p := Candidates(counters, operations, now, limits);
    key in p || |p| < limits.counters
  }

  /** A counter after an increment, as if nothing were ever purged or refused. */
  function Bump(current: Option<Counter>, ttl: nat, amount: int, now: int): Counter {
    if current.None? || current.value.expires <= now then Counter(amount, now + ttl)
    else Counter(current.value.value + amount, current.value.expires)
  }

  function Lookup(counters: map<Key, Counter>, key: Key): Option<Counter> {
    if key in counters then Some(counters[key]) else None
  }

  function IncrementStep(counters: map<Key, Counter>, key: Key, ttl: nat, amount: int, operations: nat, now: int,
      limits: Limits)
    : map<Key, Counter>
  {
    var p := Candidates(counters, operations, now, limits);
    if Admits(counters, key, operations, now, limits) then p[key := Bump(Lookup(p, key), ttl, amount, now)] else p
  }

  lemma LiveIsSmaller(counters: map<Key, Counter>, now: int)
    ensures |LiveCounters(counters, now)| <= |counters|
  {
    var live := LiveCounters(counters, now).Keys;
    assert counters.Keys == live + (counters.Keys - live);
    assert |live| == |LiveCounters(counters, now)| && |counters.Keys| == |counters|;
  }

  /** The table stays within its limit and never forgets an active counter. */
  lemma CountersBounded(counters: map<Key, Counter>, key: Key, ttl: nat, amount: int, operations: nat, now: int,
      limits: Limits)
    requires |counters| <= limits.counters
    ensures var t := IncrementStep(counters, key, ttl, amount, operations, now, limits);
            && |t| <= limits.counters
            && forall k :: k in counters && counters[k].expires > now && k != key ==> k in t && t[k] == counters[k]
  {
    LiveIsSmaller(counters, now);
    var p := Candidates(counters, operations, now, limits);
    var t := IncrementStep(counters, key, ttl, amount, operations, now, limits);
    if key !in p && t != p { assert t.Keys == p.Keys + {key}; }
    if key in p { assert t.Keys == p.Keys; }
  }

  /** An increment is refused exactly when the key is not in the table and every slot is taken by an
      active counter. */
  lemma RefusedIff(counters: map<Key, Counter>, key: Key, operations: nat, now: int, limits: Limits)
    requires |counters| <= limits.counters && limits.counters > 0
    ensures !Admits(counters, key, operations, now, limits) <==>
            key !in counters && |counters| == limits.counters && forall k :: k in counters ==> counters[k].expires > now
  {
    var p := LiveCounters(counters, now);
    LiveIsSmaller(counters, now);
    if |p| == |counters| {
      SubsetOfSameSize(p.Keys, counters.Keys);
    }
    if forall k :: k in counters ==> counters[k].expires > now {
      assert p == counters;
    }
  }

  datatype Call = Call(key: Key, ttl: nat, amount: int, now: int)

  ghost predicate CounterRun(trace: seq<map<Key, Counter>>, calls: seq<Call>, limits: Limits) {
    && limits.counters > 0 && |trace| == |calls| + 1 && trace[0] == map[]
    && (forall i :: 0 <= i < |calls| ==> trace[i + 1] == Next(trace[i], calls[i], i + 1, limits))
    && forall i :: 0 < i < |calls| ==> calls[i - 1].now <= calls[i].now
  }

  function Next(counters: map<Key, Counter>, call: Call, operations: nat, limits: Limits): map<Key, Counter> {
    IncrementStep(counters, call.key, call.ttl, call.amount, operations, call.now, limits)
  }

  /** The unbounded counter: every admitted call counted, nothing ever purged. */
  ghost function Reference(trace: seq<map<Key, Counter>>, calls: seq<Call>, limits: Limits, key: Key,
      i: nat): Option<Counter>
    requires i <= |calls| && |trace| == |calls| + 1
  {
    if i == 0 then None
    else
      var (before, call) := (Reference(trace, calls, limits, key, i - 1), calls[i - 1]);
      if call.key == key && Admits(trace[i - 1], key, i, call.now, limits)
      then Some(Bump(before, call.ttl, call.amount, call.now)) else before
  }

  /** The purged and capped table refines the unbounded one: a stored counter is the reference
      counter, and a missing one has run out. */
  lemma {:induction false} CountersRefineReference(trace: seq<map<Key, Counter>>, calls: seq<Call>, limits: Limits,
      key: Key, i: nat)
    requires CounterRun(trace, calls, limits) && i <= |calls|
    ensures var r := Reference(trace, calls, limits, key, i);
            && (key in trace[i] ==> r == Some(trace[i][key]))
            && (key !in trace[i] && r.Some? ==> i > 0 && r.value.expires <= calls[i - 1].now)
  {
    if i > 0 {
      CountersRefineReference(trace, calls, limits, key, i - 1);
      var call := calls[i - 1];
      assert trace[i] == Next(trace[i - 1], call, i, limits);
      assert i >= 2 ==> calls[i - 2].now <= call.now;
      hide CounterRun;
      StepRefines(trace[i - 1], call, i, limits, key, Reference(trace, calls, limits, key, i - 1));
    }
  }

  lemma StepRefines(counters: map<Key, Counter>, call: Call, operations: nat, limits: Limits, key: Key,
      r: Option<Counter>)
    requires key in counters ==> r == Some(counters[key])
    requires key !in counters && r.Some? ==> r.value.expires <= call.now
    ensures var t := Next(counters, call, operations, limits);
            var u := if call.key == key && Admits(counters, key, operations, call.now, limits)
                     then Some(Bump(r, call.ttl, call.amount, call.now)) else r;
            && (key in t ==> u == Some(t[key]))
            && (key !in t && u.Some? ==> u.value.expires <= call.now)
  {}

  // ------------------------------------------------------------------- the object

  class InMemoryRuntimeStore {
    const limits: Limits
    var items: seq<Item>
    var sizes: map<Key, nat>
    var valueBytes: int
    var counters: map<Key, Counter>
    var counterOperations: nat
    var leases: map<FencedLock.Name, FencedLock.Lease>
    var fences: map<FencedLock.Name, nat>

    ghost function Values(): Table
      reads this
    {
      Table(items, sizes)
    }

    ghost function Locks(): FencedLock.Locks
      reads this
    {
      FencedLock.Locks(leases, fences)
    }

    ghost predicate Valid()
      reads this
    {
      && Positive(limits) && Inv(Values(), limits) && valueBytes == Total(items, sizes)
      && |counters| <= limits.counters && FencedLock.Sound(Locks())
    }

    constructor (limits: Limits)
      requires Positive(limits)
      ensures Valid() && this.limits == limits && Values() == Table([], map[])
    {
      this.limits := limits;
      items, sizes, valueBytes, counters, counterOperations, leases, fences := [], map[], 0, map[], 0, map[], map[];
    }

    method RemoveValue(key: Key)
      requires WellFormed(Values()) && valueBytes == Total(items, sizes)
      modifies this`items, this`sizes, this`valueBytes
      ensures Values() == Remove(old(Values()), key) && WellFormed(Values()) && valueBytes == Total(items, sizes)
    {
      RemoveTotal(Values(), key);
      RemoveParts(Values(), key);
      var i := Find(items, key);
      if i < |items| { items := Without(items, i); }
      valueBytes := valueBytes - SizeOf(sizes, key);
      sizes := sizes - {key};
    }

    method PurgeExpiredValues(now: int)
      requires WellFormed(Values()) && valueBytes == Total(items, sizes)
      modifies this`items, this`sizes, this`valueBytes
      ensures Values() == Purged(old(Values()), now, |old(items)|) && WellFormed(Values())
              && valueBytes == Total(items, sizes)
    {
      ghost var before := Values();
      var snapshot := items;
      for k := 0 to |snapshot|
        invariant Values() == Purged(before, now, k) && WellFormed(Values()) && valueBytes == Total(items, sizes)
      {
        if snapshot[k].expires <= now { RemoveValue(snapshot[k].key); }
      }
    }

    /** Evicts from the oldest end, then stores the document at the newest. */
    method Insert(key: Key, value: Value, expires: int)
      requires WellFormed(Values()) && valueBytes == Total(items, sizes) && !Has(items, key)
      requires Positive(limits) && value.size <= limits.bytes
      modifies this`items, this`sizes, this`valueBytes
      ensures Values() == Append(MakeRoom(old(Values()), value.size, limits), Item(key, value, expires))
      ensures Inv(Values(), limits) && valueBytes == Total(items, sizes)
    {
      ghost var before := Values();
      InsertKeepsLimits(before, Item(key, value, expires), limits);
      MakeRoomParts(before, value.size, limits);
      MakeRoomAbsent(before, value.size, limits, key);
      AppendParts(MakeRoom(before, value.size, limits), Item(key, value, expires));
      hide WellFormed, Has, Inv;
      while items != [] && (|items| >= limits.values || valueBytes + value.size > limits.bytes)
        invariant WellFormed(Values()) && valueBytes == Total(items, sizes)
        invariant MakeRoom(Values(), value.size, limits) == MakeRoom(before, value.size, limits)
        decreases |items|
      {
        DropHead(Values());
        RemoveValue(items[0].key);
      }
      items := items + [Item(key, value, expires)];
      sizes := sizes[key := value.size];
      valueBytes := valueBytes + value.size;
    }

    method GetJson(key: Key, now: int) returns (r: Option<Value>)
      requires Valid()
      modifies this`items, this`sizes, this`valueBytes
      ensures Valid() && Values() == After(old(Values()), Get(key, now), limits)
      ensures r == if Hit(old(Values()), key, now) then Some(ItemAt(old(Values()), key).value.value) else None
    {
      ghost var before := Values();
      StepKeepsInv(before, Get(key, now), limits);
      var i := Find(items, key);
      if i == |items| || items[i].expires <= now {
        RemoveValue(key);
        return None;
      }
      return Some(items[i].value);
    }

    method Replace(key: Key, value: Value, expires: int)
      requires WellFormed(Values()) && valueBytes == Total(items, sizes) && Positive(limits)
      modifies this`items, this`sizes, this`valueBytes
      ensures valueBytes == Total(items, sizes)
      ensures var q := Remove(old(Values()), key);
              Values() == if value.size > limits.bytes then q
                  else Append(MakeRoom(q, value.size, limits), Item(key, value, expires))
    {
      RemoveParts(Values(), key);
      RemoveValue(key);
      hide WellFormed, Has, MakeRoom, Append, Total, Inv;
      if value.size > limits.bytes { return; }
      Insert(key, value, expires);
    }

    method SetJson(key: Key, value: Value, ttl: nat, now: int, later: int)
      requires Valid()
      modifies this`items, this`sizes, this`valueBytes
      ensures Valid() && Values() == After(old(Values()), Set(key, value, ttl, now, later), limits)
    {
      assert WellFormed(Values());
      hide MakeRoom, Inv, WellFormed, Purged, Append, Total, Remove, Positive, FencedLock.Sound;
      ghost var before := Values();
      PurgeExpiredValues(now);
      Replace(key, value, later + ttl);
      assert Values() == SetStep(before, key, value, later + ttl, now, limits);
      hide SetStep;
      StepKeepsInv(before, Set(key, value, ttl, now, later), limits);
    }

    method CompareSetJson(key: Key, expected: int, value: Value, ttl: nat, now: int) returns (ok: bool)
      requires Valid()
      modifies this`items, this`sizes, this`valueBytes
      ensures Valid() && Values() == After(old(Values()), CompareSet(key, expected, value, ttl, now), limits)
      ensures ok <==> CanCompareSet(old(Values()), key, expected, value, now, limits)
    {
      assert WellFormed(Values());
      hide MakeRoom, Inv, WellFormed, Purged, Append, Total, Remove, Positive, FencedLock.Sound, CompareSetStep,
          CanCompareSet;
      ghost var before := Values();
      ok := CompareSetPurged(key, expected, value, now + ttl, now);
      StepKeepsInv(before, CompareSet(key, expected, value, ttl, now), limits);
    }

    method CompareSetPurged(key: Key, expected: int, value: Value, expires: int, now: int) returns (ok: bool)
      requires WellFormed(Values()) && valueBytes == Total(items, sizes) && Positive(limits)
      modifies this`items, this`sizes, this`valueBytes
      ensures valueBytes == Total(items, sizes)
      ensures Values() == CompareSetStep(old(Values()), key, expected, value, expires, now, limits)
      ensures ok <==> CanCompareSet(old(Values()), key, expected, value, now, limits)
    {
      hide MakeRoom, Inv, WellFormed, Purged, Append, Total, Remove, Positive;
      PurgeExpiredValues(now);
      var i := Find(items, key);
      if i == |items| {
        if expected != -1 { return false; }
      } else {
        var current := items[i].value;
        if !current.isObject || current.revision.Or(-1) != expected { return false; }
      }
      if value.size > limits.bytes { return false; }
      Replace(key, value, expires);
      return true;
    }

    method DeleteJson(key: Key) returns (existed: bool)
      requires Valid()
      modifies this`items, this`sizes, this`valueBytes
      ensures Valid() && Values() == After(old(Values()), Delete(key), limits)
      ensures existed <==> Has(old(items), key)
    {
      StepKeepsInv(Values(), Delete(key), limits);
      existed := Has(items, key);
      RemoveValue(key);
    }

    method Publish(key: Key, value: Value, now: int)
      requires Valid()
      modifies this`items
      ensures Valid() && Values() == After(old(Values()), ValueTable.Publish(key, value, now), limits)
    {
      StepKeepsInv(Values(), ValueTable.Publish(key, value, now), limits);
      PublishKeepsInv(Values(), key, value, now + PUBLISH_TTL);
      var i := Find(items, key);
      if i < |items| {
        items := items[i := Item(key, value, now + PUBLISH_TTL)];
      } else {
        items := items + [Item(key, value, now + PUBLISH_TTL)];
      }
    }

    method PurgeExpiredCounters(now: int)
      modifies this`counters
      ensures counters == LiveCounters(old(counters), now)
    {
      ghost var before := counters;
      var rest := counters.Keys;
      while rest != {}
        invariant rest <= before.Keys
        invariant forall k :: k in counters <==> k in before && (k in rest || before[k].expires > now)
        invariant forall k :: k in counters ==> counters[k] == before[k]
        decreases rest
      {
        var k :| k in rest;
        rest := rest - {k};
        if counters[k].expires <= now { counters := counters - {k}; }
      }
    }

    method Increment(key: Key, ttl: nat, amount: int, now: int) returns (r: int)
      requires Valid()
      modifies this`counters, this`counterOperations
      ensures Valid() && counterOperations == old(counterOperations) + 1
      ensures counters == IncrementStep(old(counters), key, ttl, amount, counterOperations, now, limits)
      ensures var admitted := Admits(old(counters), key, counterOperations, now, limits);
              r == if admitted then counters[key].value else REFUSED
    {
      hide Inv, Total, FencedLock.Sound;
      counterOperations := counterOperations + 1;
      CountersBounded(counters, key, ttl, amount, counterOperations, now, limits);
      r := Count(key, ttl, amount, now);
    }

    method Count(key: Key, ttl: nat, amount: int, now: int) returns (r: int)
      modifies this`counters
      ensures counters == IncrementStep(old(counters), key, ttl, amount, counterOperations, now, limits)
      ensures var admitted := Admits(old(counters), key, counterOperations, now, limits);
              r == if admitted then counters[key].value else REFUSED
    {
      hide LiveCounters;
      if counterOperations % 256 == 0 || |counters| >= limits.counters { PurgeExpiredCounters(now); }
      assert counters == Candidates(old(counters), counterOperations, now, limits);
      hide Candidates;
      if key !in counters && |counters| >= limits.counters { return REFUSED; }
      var current := if key in counters then counters[key] else Counter(0, now);
      var value, expires := current.value, current.expires;
      if expires <= now { value, expires := 0, now + ttl; }
      value := value + amount;
      counters := counters[key := Counter(value, expires)];
      r := value;
    }

    method AcquireLock(name: FencedLock.Name, ttl: nat, owner: nat, now: int) returns (token: Option<FencedLock.Token>)
      requires Valid()
      modifies this`leases, this`fences
      ensures Valid() && (Locks(), token) == FencedLock.AcquireStep(old(Locks()), name, ttl, owner, now)
      ensures token.Some? ==> token.value.fence > FencedLock.Fence(old(Locks()), name)
    {
      if name in leases && leases[name].expires > now { return None; }
      fences := fences[name := (if name in fences then fences[name] else 0) + 1];
      var issued := FencedLock.Token(fences[name], owner);
      leases := leases[name := FencedLock.Lease(issued, now + ttl)];
      token := Some(issued);
    }

    method ReleaseLock(name: FencedLock.Name, token: FencedLock.Token) returns (ok: bool)
      requires Valid()
      modifies this`leases
      ensures Valid() && (Locks(), ok) == FencedLock.ReleaseStep(old(Locks()), name, token)
    {
      if name !in leases || leases[name].token != token { return false; }
      leases := leases - {name};
      return true;
    }

    method RenewLock(name: FencedLock.Name, token: FencedLock.Token, ttl: nat, now: int) returns (ok: bool)
      requires Valid()
      modifies this`leases
      ensures Valid() && (Locks(), ok) == FencedLock.RenewStep(old(Locks()), name, token, ttl, now)
    {
      if name !in leases || leases[name].token != token || leases[name].expires <= now { return false; }
      leases := leases[name := FencedLock.Lease(token, now + ttl)];
      return true;
    }

    method IsLockOwner(name: FencedLock.Name, token: FencedLock.Token, now: int) returns (owner: bool)
      ensures owner <==> FencedLock.OwnedAt(Locks(), name, token, now)
    {
      owner := name in leases && leases[name].token == token && leases[name].expires > now;
    }
  }
}
