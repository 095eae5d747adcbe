/** The bounded value and counter tables of the in-memory runtime store (runtime_store.py), on values. */
module ValueTable {
  import opened Basics

  type Key = nat

  /** A stored document: its encoded size, whether it is an object, and its revision if it has one. */
  datatype Value = Value(body: nat, size: nat, isObject: bool, revision: Option<int>)

  datatype Item = Item(key: Key, value: Value, expires: int)

  /** Items in insertion order, and the accounted sizes, which the code keeps in a second dictionary. */
  datatype Table = Table(items: seq<Item>, sizes: map<Key, nat>)

  datatype Limits = Limits(values: nat, bytes: nat, counters: nat)

  predicate Positive(limits: Limits) { limits.values > 0 && limits.bytes > 0 && limits.counters > 0 }

  function Find(items: seq<Item>, key: Key): (r: nat)
    ensures r <= |items|
    ensures r < |items| ==> items[r].key == key
    ensures forall i :: 0 <= i < r ==> items[i].key != key
  {
    if items == [] then 0 else if items[0].key == key then 0 else 1 + Find(items[1..], key)
  }

  predicate Has(items: seq<Item>, key: Key) { Find(items, key) < |items| }

  ghost predicate Unique(items: seq<Item>) {
    forall i, j :: 0 <= i < j < |items| ==> items[i].key != items[j].key
  }

  /** Keys are unique, and a size is on record only for keys that are present. */
  ghost predicate WellFormed(t: Table) {
    Unique(t.items) && forall k :: k in t.sizes ==> Has(t.items, k)
  }

  function SizeOf(sizes: map<Key, nat>, key: Key): nat { if key in sizes then sizes[key] else 0 }

  /** Sum of the recorded sizes. */
  function Total(items: seq<Item>, sizes: map<Key, nat>): nat {
    if items == [] then 0 else SizeOf(sizes, items[0].key) + Total(items[1..], sizes)
  }

  function Remove(t: Table, key: Key): Table {
    var i := Find(t.items, key);
    Table(if i < |t.items| then Without(t.items, i) else t.items, t.sizes - {key})
  }

  /** The purge loop over a snapshot of the items, after its first `k` rounds. */
  function Purged(t: Table, now: int, k: nat): Table
    requires k <= |t.items|
  {
    if k == 0 then t
    else
      var p := Purged(t, now, k - 1);
      if t.items[k - 1].expires <= now then Remove(p, t.items[k - 1].key) else p
  }

  function Live(items: seq<Item>, now: int): seq<Item> {
    if items == [] then [] else (if items[0].expires <= now then [] else [items[0]]) + Live(items[1..], now)
  }

  predicate Fits(t: Table, need: nat, limits: Limits) {
    t.items == [] || (|t.items| < limits.values && Total(t.items, t.sizes) + need <= limits.bytes)
  }

  /** Oldest-first eviction until an entry of size `need` fits. */
  function MakeRoom(t: Table, need: nat, limits: Limits): Table
    decreases |t.items|
  {
    if Fits(t, need, limits) then t
    else MakeRoom(Table(t.items[1..], t.sizes - {t.items[0].key}), need, limits)
  }

  function Append(t: Table, item: Item): Table {
    Table(t.items + [item], t.sizes[item.key := item.value.size])
  }

  function SetStep(t: Table, key: Key, value: Value, expires: int, now: int, limits: Limits): Table {
    var q := Remove(Purged(t, now, |t.items|), key);
    if value.size > limits.bytes then q else Append(MakeRoom(q, value.size, limits), Item(key, value, expires))
  }

  /** Optimistic check: a missing key counts as revision -1, a document without one as -1 too. */
  predicate RevisionMatches(items: seq<Item>, key: Key, expected: int) {
    var i := Find(items, key);
    if i == |items| then expected == -1
    else items[i].value.isObject && items[i].value.revision.Or(-1) == expected
  }

  predicate CanCompareSet(t: Table, key: Key, expected: int, value: Value, now: int, limits: Limits) {
    RevisionMatches(Purged(t, now, |t.items|).items, key, expected) && value.size <= limits.bytes
  }

  function CompareSetStep(t: Table, key: Key, expected: int, value: Value, expires: int, now: int,
      limits: Limits): Table {
    var p := Purged(t, now, |t.items|);
    if CanCompareSet(t, key, expected, value, now, limits)
    then Append(MakeRoom(Remove(p, key), value.size, limits), Item(key, value, expires))
    else p
  }

  /** `publish` writes the latest message of a channel without touching the accounting. */
  function PublishStep(t: Table, key: Key, value: Value, expires: int): Table {
    var i := Find(t.items, key);
    t.(items := if i < |t.items| then t.items[i := Item(key, value, expires)]
        else t.items + [Item(key, value, expires)])
  }

  predicate Hit(t: Table, key: Key, now: int) {
    var i := Find(t.items, key);
    i < |t.items| && t.items[i].expires > now
  }

  function GetStep(t: Table, key: Key, now: int): Table { if Hit(t, key, now) then t else Remove(t, key) }

  // ----------------------------------------------------------- table invariants

  lemma {:induction false} FindIn(items: seq<Item>, i: nat)
    requires i < |items|
    ensures Has(items, items[i].key) && Find(items, items[i].key) <= i
    ensures Unique(items) ==> Find(items, items[i].key) == i
  {}

  lemma {:induction false} TotalIgnores(items: seq<Item>, sizes: map<Key, nat>, key: Key)
    requires !Has(items, key)
    ensures Total(items, sizes - {key}) == Total(items, sizes)
  {
    if items != [] {
      assert !Has(items[1..], key);
      TotalIgnores(items[1..], sizes, key);
    }
  }

  lemma {:induction false} TotalConcat(a: seq<Item>, b: seq<Item>, sizes: map<Key, nat>)
    ensures Total(a + b, sizes) == Total(a, sizes) + Total(b, sizes)
  {
    if a == [] {
      assert a + b == b;
    } else {
      assert (a + b)[1..] == a[1..] + b;
      TotalConcat(a[1..], b, sizes);
    }
  }

  function ItemAt(t: Table, key: Key): Option<Item> {
    var i := Find(t.items, key);
    if i < |t.items| then Some(t.items[i]) else None
  }

  lemma DropUnique(items: seq<Item>, i: nat)
    requires Unique(items) && i < |items|
    ensures Unique(Without(items, i)) && !Has(Without(items, i), items[i].key)
  {
    var rest := Without(items, i);
    assert forall j :: 0 <= j < |rest| ==> rest[j] == items[if j < i then j else j + 1];
  }

  /** Every other key finds its own item again. */
  lemma DropFinds(items: seq<Item>, i: nat, key: Key)
    requires Unique(items) && i < |items| && key != items[i].key
    ensures var (j, k) := (Find(items, key), Find(Without(items, i), key));
            (j == |items| <==> k == |items| - 1) && (j < |items| ==> Without(items, i)[k] == items[j])
  {
    hide Unique;
    var rest, j := Without(items, i), Find(items, key);
    DropUnique(items, i);
    if j < |items| {
      assert rest[if j < i then j else j - 1] == items[j];
      FindIn(rest, if j < i then j else j - 1);
    } else {
      assert forall m :: 0 <= m < |rest| ==> rest[m] == items[if m < i then m else m + 1];
    }
  }

  lemma RemoveAt(t: Table, key: Key, k: Key)
    requires Unique(t.items)
    ensures ItemAt(Remove(t, key), k) == if k == key then None else ItemAt(t, k)
  {
    hide Unique, Without;
    var i := Find(t.items, key);
    if i < |t.items| {
      if k == key { DropUnique(t.items, i); } else { DropFinds(t.items, i, k); }
    }
  }

  lemma RemoveParts(t: Table, key: Key)
    requires WellFormed(t)
    ensures WellFormed(Remove(t, key)) && !Has(Remove(t, key).items, key)
    ensures forall k :: k != key ==> Has(Remove(t, key).items, k) == Has(t.items, k)
  {
    hide Without, Unique;
    var u := Remove(t, key);
    if Has(t.items, key) { DropUnique(t.items, Find(t.items, key)); }
    forall k
      ensures Has(u.items, k) <==> k != key && Has(t.items, k)
    {
      RemoveAt(t, key, k);
    }
  }

  lemma RemoveTotal(t: Table, key: Key)
    requires WellFormed(t)
    ensures var u := Remove(t, key); Total(u.items, u.sizes) + SizeOf(t.sizes, key) == Total(t.items, t.sizes)
  {
    var i, u := Find(t.items, key), Remove(t, key);
    if i < |t.items| {
      assert t.items == t.items[..i] + ([t.items[i]] + t.items[i + 1..]);
      TotalConcat(t.items[..i], [t.items[i]] + t.items[i + 1..], t.sizes);
      TotalConcat([t.items[i]], t.items[i + 1..], t.sizes);
      TotalConcat(t.items[..i], t.items[i + 1..], t.sizes);
    }
    RemoveParts(t, key);
    TotalIgnores(u.items, t.sizes, key);
  }

  lemma RemoveSplit(t: Table, before: seq<Item>, item: Item, after: seq<Item>)
    requires WellFormed(t) && t.items == before + ([item] + after)
    ensures Remove(t, item.key).items == before + after
  {
    assert t.items[|before|] == item;
    FindIn(t.items, |before|);
  }

  lemma {:induction false} PurgedParts(t: Table, now: int, k: nat)
    requires WellFormed(t) && k <= |t.items|
    ensures WellFormed(Purged(t, now, k))
    ensures Purged(t, now, k).items == Live(t.items[..k], now) + t.items[k..]
  {
    hide WellFormed, Has, Live, Remove;
    if k == 0 {
      LiveOfNone(now);
      assert [] + t.items == t.items;
    } else {
      PurgedParts(t, now, k - 1);
      var p, item := Purged(t, now, k - 1), t.items[k - 1];
      var kept := Live(t.items[..k - 1], now);
      LiveExtends(t.items, k, now);
      RemoveParts(p, item.key);
      RemoveSplit(p, kept, item, t.items[k..]);
      assert t.items[k - 1..] == [item] + t.items[k..];
    }
  }

  lemma {:induction false} LiveConcat(a: seq<Item>, b: seq<Item>, now: int)
    ensures Live(a + b, now) == Live(a, now) + Live(b, now)
  {
    if a == [] {
      assert a + b == b;
    } else {
      assert (a + b)[1..] == a[1..] + b;
      LiveConcat(a[1..], b, now);
    }
  }

  lemma LiveOfNone(now: int)
    ensures Live([], now) == []
  {}

  lemma LiveExtends(items: seq<Item>, k: nat, now: int)
    requires 0 < k <= |items|
    ensures Live(items[..k], now) == Live(items[..k - 1], now) + if items[k - 1].expires <= now then []
            else [items[k - 1]]
  {
    assert items[..k] == items[..k - 1] + [items[k - 1]];
    LiveConcat(items[..k - 1], [items[k - 1]], now);
    assert Live([], now) == [];
  }

  lemma {:induction false} PurgedTotal(t: Table, now: int, k: nat)
    requires WellFormed(t) && k <= |t.items|
    ensures var u := Purged(t, now, k); Total(u.items, u.sizes) <= Total(t.items, t.sizes)
  {
    if k > 0 {
      PurgedTotal(t, now, k - 1);
      PurgedParts(t, now, k - 1);
      RemoveTotal(Purged(t, now, k - 1), t.items[k - 1].key);
    }
  }

  /** Dropping the oldest item is removing its key. */
  lemma DropHead(t: Table)
    requires WellFormed(t) && t.items != []
    ensures Remove(t, t.items[0].key) == Table(t.items[1..], t.sizes - {t.items[0].key})
  {
    assert Without(t.items, 0) == t.items[1..];
  }

  /** Eviction leaves a suffix that fits. */
  lemma {:induction false} MakeRoomParts(t: Table, need: nat, limits: Limits)
    requires WellFormed(t)
    ensures var u := MakeRoom(t, need, limits);
            && WellFormed(u) && Fits(u, need, limits)
            && |u.items| <= |t.items| && u.items == t.items[|t.items| - |u.items|..]
    decreases |t.items|
  {
    hide WellFormed, Fits;
    if !Fits(t, need, limits) {
      assert t.items != [] by { EmptyFits(t, need, limits); }
      var key := t.items[0].key;
      DropHead(t);
      RemoveParts(t, key);
      var rest := Remove(t, key);
      hide Remove;
      MakeRoomParts(rest, need, limits);
      assert MakeRoom(rest, need, limits) == MakeRoom(t, need, limits);
      hide MakeRoom;
    }
  }

  /** What `u` still holds has the size on record that it has in `t`. */
  ghost predicate KeepsSizes(u: Table, t: Table) {
    forall k :: Has(u.items, k) ==>
      Has(t.items, k) && (k in u.sizes <==> k in t.sizes) && SizeOf(u.sizes, k) == SizeOf(t.sizes, k)
  }

  lemma SizesThrough(u: Table, v: Table, t: Table)
    requires KeepsSizes(u, v) && KeepsSizes(v, t)
    ensures KeepsSizes(u, t)
  {
    hide Has;
  }

  lemma RemoveKeepsSizes(t: Table, key: Key)
    requires WellFormed(t)
    ensures KeepsSizes(Remove(t, key), t)
  {
    RemoveParts(t, key);
    hide Has, WellFormed;
  }

  /** Eviction keeps the recorded sizes of what it leaves. */
  lemma {:induction false} MakeRoomSizes(t: Table, need: nat, limits: Limits)
    requires WellFormed(t)
    ensures KeepsSizes(MakeRoom(t, need, limits), t)
    decreases |t.items|
  {
    hide WellFormed, Has, Fits, Total;
    if !Fits(t, need, limits) {
      assert t.items != [] by { EmptyFits(t, need, limits); }
      var rest := Table(t.items[1..], t.sizes - {t.items[0].key});
      DropHead(t);
      RemoveParts(t, t.items[0].key);
      RemoveKeepsSizes(t, t.items[0].key);
      MakeRoomSizes(rest, need, limits);
      hide KeepsSizes;
      SizesThrough(MakeRoom(rest, need, limits), rest, t);
    }
  }

  /** Eviction brings no key back. */
  lemma MakeRoomAbsent(t: Table, need: nat, limits: Limits, key: Key)
    requires WellFormed(t) && !Has(t.items, key)
    ensures !Has(MakeRoom(t, need, limits).items, key)
  {
    hide MakeRoom, Has;
    MakeRoomSizes(t, need, limits);
  }

  lemma {:induction false} PurgedSizes(t: Table, now: int, k: nat)
    requires WellFormed(t) && k <= |t.items|
    ensures KeepsSizes(Purged(t, now, k), t)
  {
    if k > 0 {
      PurgedSizes(t, now, k - 1);
      PurgedParts(t, now, k - 1);
      var p := Purged(t, now, k - 1);
      hide WellFormed, KeepsSizes, Remove;
      RemoveKeepsSizes(p, t.items[k - 1].key);
      SizesThrough(Remove(p, t.items[k - 1].key), p, t);
    }
  }

  lemma EmptyFits(t: Table, need: nat, limits: Limits)
    ensures t.items == [] ==> Fits(t, need, limits)
  {}

  /** Eviction stops at the longest suffix that fits. */
  lemma {:induction false} EvictsNoMore(t: Table, need: nat, limits: Limits, n: nat)
    requires WellFormed(t) && |MakeRoom(t, need, limits).items| < n <= |t.items|
    ensures !Fits(Table(t.items[|t.items| - n..], t.sizes), need, limits)
    decreases |t.items|
  {
    assert t.items[0..] == t.items;
    if n < |t.items| {
      var rest := Table(t.items[1..], t.sizes - {t.items[0].key});
      DropHead(t);
      RemoveParts(t, t.items[0].key);
      EvictsNoMore(rest, need, limits, n);
      var suffix := t.items[|t.items| - n..];
      assert rest.items[|rest.items| - n..] == suffix;
      forall i | 0 <= i < |suffix|
        ensures suffix[i].key != t.items[0].key
      {
        FindIn(rest.items, |rest.items| - n + i);
      }
      TotalIgnores(suffix, t.sizes, t.items[0].key);
    }
  }

  // ------------------------------------------------------------------ operations

  datatype Op =
    | Set(key: Key, value: Value, ttl: nat, now: int, later: int)
    | CompareSet(key: Key, expected: int, value: Value, ttl: nat, now: int)
    | Delete(key: Key)
    | Get(key: Key, now: int)
    | Publish(key: Key, value: Value, now: int)

  const PUBLISH_TTL := 86400

  function After(t: Table, op: Op, limits: Limits): Table {
    match op
    case Set(key, value, ttl, now, later) => SetStep(t, key, value, later + ttl, now, limits)
    case CompareSet(key, expected, value, ttl, now) => CompareSetStep(t, key, expected, value, now + ttl, now, limits)
    case Delete(key) => Remove(t, key)
    case Get(key, now) => GetStep(t, key, now)
    case Publish(key, value, now) => PublishStep(t, key, value, now + PUBLISH_TTL)
  }

  /** The item an operation stores, if it stores one. */
  function Stored(t: Table, op: Op, limits: Limits): Option<Item> {
    match op
    case Set(key, value, ttl, _, later) => if value.size <= limits.bytes then Some(Item(key, value, later + ttl))
        else None
    case CompareSet(key, expected, value, ttl, now) =>
      if CanCompareSet(t, key, expected, value, now, limits) then Some(Item(key, value, now + ttl)) else None
    case Publish(key, value, now) => Some(Item(key, value, now + PUBLISH_TTL))
    case _ => None
  }

  ghost predicate Inv(t: Table, limits: Limits) {
    WellFormed(t) && Total(t.items, t.sizes) <= limits.bytes
  }

  lemma AppendParts(t: Table, item: Item)
    requires WellFormed(t) && !Has(t.items, item.key)
    ensures var u := Append(t, item);
            && WellFormed(u) && Total(u.items, u.sizes) == Total(t.items, t.sizes) + item.value.size
            && (forall k :: Has(u.items, k) <==> k == item.key || Has(t.items, k))
  {
    var u := Append(t, item);
    forall k
      ensures Has(u.items, k) <==> k == item.key || Has(t.items, k)
      ensures Find(u.items, k) <= |t.items| && Has(t.items, k) ==> Find(u.items, k) == Find(t.items, k)
    {
      assert u.items[|t.items|].key == item.key;
      if Has(t.items, k) { assert u.items[Find(t.items, k)].key == k; }
    }
    TotalConcat(t.items, [item], u.sizes);
    TotalIgnores(t.items, t.sizes, item.key);
    TotalIgnores(t.items, u.sizes, item.key);
    assert t.sizes - {item.key} == u.sizes - {item.key};
  }

  /** Evicting and appending stays within both limits. */
  lemma InsertKeepsLimits(t: Table, item: Item, limits: Limits)
    requires WellFormed(t) && !Has(t.items, item.key) && item.value.size <= limits.bytes && Positive(limits)
    ensures var u := Append(MakeRoom(t, item.value.size, limits), item);
            Inv(u, limits) && |u.items| <= limits.values
  {
    hide WellFormed, Has;
    MakeRoomParts(t, item.value.size, limits);
    MakeRoomAbsent(t, item.value.size, limits, item.key);
    AppendParts(MakeRoom(t, item.value.size, limits), item);
  }

  lemma PublishKeepsInv(t: Table, key: Key, value: Value, expires: int)
    requires WellFormed(t)
    ensures var u := PublishStep(t, key, value, expires);
            WellFormed(u) && Total(u.items, u.sizes) == Total(t.items, t.sizes)
            && (forall k :: Has(u.items, k) <==> k == key || Has(t.items, k))
  {
    var i, u := Find(t.items, key), PublishStep(t, key, value, expires);
    assert u.items[i].key == key;
    forall k
      ensures Has(u.items, k) <==> k == key || Has(t.items, k)
    {
      if Has(t.items, k) { assert u.items[Find(t.items, k)].key == k; }
      if Has(u.items, k) && k != key { assert t.items[Find(u.items, k)].key == k; }
    }
    if i < |t.items| {
      SameKeysSameTotal(t.items, u.items, t.sizes);
    } else {
      TotalConcat(t.items, [Item(key, value, expires)], t.sizes);
    }
  }

  lemma {:induction false} SameKeysSameTotal(a: seq<Item>, b: seq<Item>, sizes: map<Key, nat>)
    requires |a| == |b| && forall i :: 0 <= i < |a| ==> a[i].key == b[i].key
    ensures Total(a, sizes) == Total(b, sizes)
  {
    if a != [] {
      SameKeysSameTotal(a[1..], b[1..], sizes);
    }
  }

  /** Every operation keeps keys unique, sizes on live keys only, and their sum within the limit. */
  lemma StepKeepsInv(t: Table, op: Op, limits: Limits)
    requires Inv(t, limits) && Positive(limits)
    ensures Inv(After(t, op, limits), limits)
  {
    hide WellFormed, Has, Total, MakeRoom;
    match op
    case Set(key, value, ttl, now, later) =>
      var p := Purged(t, now, |t.items|);
      PurgedParts(t, now, |t.items|);
      PurgedTotal(t, now, |t.items|);
      RemoveParts(p, key);
      RemoveTotal(p, key);
      if value.size <= limits.bytes { InsertKeepsLimits(Remove(p, key), Item(key, value, later + ttl), limits); }
    case CompareSet(key, expected, value, ttl, now) =>
      var p := Purged(t, now, |t.items|);
      PurgedParts(t, now, |t.items|);
      PurgedTotal(t, now, |t.items|);
      RemoveParts(p, key);
      if value.size <= limits.bytes { InsertKeepsLimits(Remove(p, key), Item(key, value, now + ttl), limits); }
    case Delete(key) => RemoveParts(t, key); RemoveTotal(t, key);
    case Get(key, _) => RemoveParts(t, key); RemoveTotal(t, key);
    case Publish(key, value, now) => PublishKeepsInv(t, key, value, now + PUBLISH_TTL);
  }

  /** Every successful set, plain or compared, leaves at most the configured number of values,
      whatever publishing did before. */
  lemma SetRestoresCount(t: Table, op: Op, limits: Limits)
    requires Inv(t, limits) && Positive(limits) && (op.Set? || op.CompareSet?) && Stored(t, op, limits).Some?
    ensures |After(t, op, limits).items| <= limits.values
  {
    hide WellFormed, Has, Total, MakeRoom;
    var p := Purged(t, op.now, |t.items|);
    PurgedParts(t, op.now, |t.items|);
    RemoveParts(p, op.key);
    InsertKeepsLimits(Remove(p, op.key), Stored(t, op, limits).value, limits);
  }

  /** Publishing respects the number of values only if the channel already has one or there is room. */
  lemma PublishWithinCountIff(t: Table, key: Key, value: Value, expires: int, limits: Limits)
    requires |t.items| <= limits.values
    ensures |PublishStep(t, key, value, expires).items| <= limits.values <==>
            Has(t.items, key) || |t.items| < limits.values
  {}

  /** The recorded sizes are the true ones. */
  ghost predicate Exact(t: Table) {
    forall i :: 0 <= i < |t.items| ==> t.items[i].key in t.sizes && t.sizes[t.items[i].key] == t.items[i].value.size
  }

  function TrueBytes(items: seq<Item>): nat {
    if items == [] then 0 else items[0].value.size + TrueBytes(items[1..])
  }

  lemma {:induction false} ExactTotal(items: seq<Item>, sizes: map<Key, nat>)
    requires Exact(Table(items, sizes))
    ensures TrueBytes(items) == Total(items, sizes)
  {
    if items != [] {
      var rest := Table(items[1..], sizes);
      assert forall i :: 0 <= i < |rest.items| ==> rest.items[i] == items[i + 1];
      ExactTotal(items[1..], sizes);
    }
  }

  /** With exact sizes the memory limit holds of the values themselves. */
  lemma ExactWithinLimit(t: Table, limits: Limits)
    requires Inv(t, limits) && Exact(t)
    ensures TrueBytes(t.items) <= limits.bytes
  {
    ExactTotal(t.items, t.sizes);
  }

  /** Publishing keeps the accounting exact only if it overwrites a recorded value of the same size;
      it never records a new size. */
  lemma PublishExactIff(t: Table, key: Key, value: Value, expires: int)
    requires WellFormed(t) && Exact(t)
    ensures Exact(PublishStep(t, key, value, expires)) <==> key in t.sizes && t.sizes[key] == value.size
  {
    var i, u := Find(t.items, key), PublishStep(t, key, value, expires);
    assert u.items[i] == Item(key, value, expires);
    assert forall j :: 0 <= j < |t.items| && j != i ==> u.items[j] == t.items[j];
    if key in t.sizes { assert Has(t.items, key); }
  }

  // --------------------------------------------------------- reads return the last write

  /** `u` holds part of what `t` holds. */
  ghost predicate Thinner(u: Table, t: Table) {
    forall k :: ItemAt(u, k).Some? ==> ItemAt(t, k) == ItemAt(u, k)
  }

  lemma RemoveThins(t: Table, key: Key)
    requires WellFormed(t)
    ensures Thinner(Remove(t, key), t)
  {
    hide Remove, ItemAt;
    forall k | ItemAt(Remove(t, key), k).Some?
      ensures ItemAt(t, k) == ItemAt(Remove(t, key), k)
    {
      RemoveAt(t, key, k);
    }
  }

  lemma ThinnerStill(u: Table, v: Table, t: Table)
    requires Thinner(u, v) && Thinner(v, t)
    ensures Thinner(u, t)
  {
    hide ItemAt;
  }

  lemma {:induction false} PurgedThins(t: Table, now: int, k: nat)
    requires WellFormed(t) && k <= |t.items|
    ensures Thinner(Purged(t, now, k), t)
  {
    if k > 0 {
      PurgedThins(t, now, k - 1);
      PurgedParts(t, now, k - 1);
      var p := Purged(t, now, k - 1);
      hide WellFormed, Thinner, Remove;
      RemoveThins(p, t.items[k - 1].key);
      ThinnerStill(Remove(p, t.items[k - 1].key), p, t);
    }
  }

  lemma MakeRoomThins(t: Table, need: nat, limits: Limits)
    requires WellFormed(t)
    ensures Thinner(MakeRoom(t, need, limits), t)
  {
    MakeRoomParts(t, need, limits);
    var u := MakeRoom(t, need, limits);
    hide MakeRoom;
    forall k | ItemAt(u, k).Some?
      ensures ItemAt(t, k) == ItemAt(u, k)
    {
      var j := Find(u.items, k);
      FindIn(t.items, |t.items| - |u.items| + j);
    }
  }

  lemma AppendAt(t: Table, item: Item, key: Key)
    requires !Has(t.items, item.key)
    ensures ItemAt(Append(t, item), key) == if key == item.key then Some(item) else ItemAt(t, key)
  {
    var u := Append(t, item);
    var i := Find(t.items, key);
    if i < |t.items| { assert u.items[i].key == key; }
    assert u.items[|t.items|] == item;
  }

  lemma InsertAt(t: Table, item: Item, limits: Limits, key: Key)
    requires WellFormed(t) && !Has(t.items, item.key)
    ensures var r := ItemAt(Append(MakeRoom(t, item.value.size, limits), item), key);
            if key == item.key then r == Some(item) else r.Some? ==> r == ItemAt(t, key)
  {
    var u := MakeRoom(t, item.value.size, limits);
    MakeRoomParts(t, item.value.size, limits);
    MakeRoomThins(t, item.value.size, limits);
    MakeRoomAbsent(t, item.value.size, limits, item.key);
    AppendAt(u, item, key);
  }

  lemma PublishAt(t: Table, key: Key, value: Value, expires: int, k: Key)
    ensures ItemAt(PublishStep(t, key, value, expires), k) == if k == key then Some(Item(key, value, expires))
            else ItemAt(t, k)
  {
    var u := PublishStep(t, key, value, expires);
    assert u.items[Find(t.items, key)].key == key;
    var i := Find(t.items, k);
    if i < |t.items| { assert u.items[i].key == k; }
  }

  /** A key holds after a step what the step stored there, or what it held before, or nothing. */
  lemma StepAt(t: Table, op: Op, limits: Limits, key: Key)
    requires WellFormed(t)
    ensures var (r, stored) := (ItemAt(After(t, op, limits), key), Stored(t, op, limits));
            if stored.Some? && stored.value.key == key then r == stored else r.Some? ==> r == ItemAt(t, key)
  {
    hide WellFormed, Has, Append, MakeRoom, PublishStep, ItemAt;
    match op
    case Set(k, value, ttl, now, later) =>
      ClearedFor(t, now, k);
      InsertAt(Remove(Purged(t, now, |t.items|), k), Item(k, value, later + ttl), limits, key);
    case CompareSet(k, expected, value, ttl, now) =>
      ClearedFor(t, now, k);
      InsertAt(Remove(Purged(t, now, |t.items|), k), Item(k, value, now + ttl), limits, key);
    case Delete(k) => RemoveThins(t, k);
    case Get(k, _) => RemoveThins(t, k);
    case Publish(k, value, now) => PublishAt(t, k, value, now + PUBLISH_TTL, key);
  }

  lemma ClearedFor(t: Table, now: int, key: Key)
    requires WellFormed(t)
    ensures var p := Purged(t, now, |t.items|);
            Thinner(p, t) && Thinner(Remove(p, key), t) && WellFormed(Remove(p, key)) && !Has(Remove(p, key).items, key)
  {
    var p := Purged(t, now, |t.items|);
    PurgedParts(t, now, |t.items|);
    PurgedThins(t, now, |t.items|);
    RemoveThins(p, key);
    RemoveParts(p, key);
  }

  lemma {:induction false} LiveKeeps(items: seq<Item>, now: int, i: nat)
    requires i < |items| && items[i].expires > now
    ensures items[i] in Live(items, now)
  {
    if i > 0 {
      LiveKeeps(items[1..], now, i - 1);
    }
  }

  /** A live item survives a purge. */
  lemma PurgeKeepsLive(t: Table, key: Key, now: int)
    requires WellFormed(t) && Hit(t, key, now)
    ensures ItemAt(Purged(t, now, |t.items|), key) == ItemAt(t, key)
  {
    var i, p := Find(t.items, key), Purged(t, now, |t.items|);
    PurgedParts(t, now, |t.items|);
    assert t.items[..|t.items|] == t.items && p.items == Live(t.items, now);
    LiveKeeps(t.items, now, i);
    var j :| 0 <= j < |p.items| && p.items[j] == t.items[i];
    FindIn(p.items, j);
    PurgedThins(t, now, |t.items|);
  }

  /** Consecutive tables, from any table on. */
  ghost predicate Steps(trace: seq<Table>, ops: seq<Op>, limits: Limits) {
    && Positive(limits) && |trace| == |ops| + 1 && Inv(trace[0], limits)
    && forall i :: 0 <= i < |ops| ==> trace[i + 1] == After(trace[i], ops[i], limits)
  }

  lemma {:induction false} StepsKeepInv(trace: seq<Table>, ops: seq<Op>, limits: Limits, i: nat)
    requires Steps(trace, ops, limits) && i < |trace|
    ensures Inv(trace[i], limits)
  {
    hide Inv, After;
    if i > 0 {
      StepsKeepInv(trace, ops, limits, i - 1);
      StepKeepsInv(trace[i - 1], ops[i - 1], limits);
    }
  }

  /** The operation writes to the key by compare-and-set, one revision up. */
  predicate Advances(op: Op, key: Key) {
    op.CompareSet? && op.key == key && op.value.isObject && op.value.revision == Some(op.expected + 1)
  }

  /** After operation `i` and up to operation `j` the key always holds a document, alive whenever a
      compare-and-set looks at it. */
  ghost predicate Lives(trace: seq<Table>, ops: seq<Op>, key: Key, i: nat, j: nat)
    requires |trace| == |ops| + 1 && j < |ops|
  {
    forall k :: i < k <= j ==>
      ItemAt(trace[k], key).Some? && (ops[k].CompareSet? && ops[k].key == key ==> Hit(trace[k], key, ops[k].now))
  }

  /** Between operations `i` and `j` whatever is written to the key advances its revision. */
  ghost predicate OnlyAdvances(trace: seq<Table>, ops: seq<Op>, limits: Limits, key: Key, i: nat, j: nat)
    requires |trace| == |ops| + 1 && j < |ops|
  {
    forall k :: i < k < j ==>
      var stored := Stored(trace[k], ops[k], limits);
      stored.Some? && stored.value.key == key ==> Advances(ops[k], key)
  }

  /** The key holds a document of this revision or a later one. */
  predicate AtLeast(t: Table, key: Key, revision: int) {
    var item := ItemAt(t, key);
    item.Some? && item.value.value.isObject && item.value.value.revision.Some?
    && item.value.value.revision.value >= revision
  }

  lemma AdvanceStores(t: Table, op: Op, limits: Limits, key: Key)
    requires Inv(t, limits) && Advances(op, key) && CanCompareSet(t, key, op.expected, op.value, op.now, limits)
    ensures AtLeast(After(t, op, limits), key, op.expected + 1)
  {
    StepAt(t, op, limits, key);
    hide After, Find;
  }

  /** A live document refuses every expectation but its own revision. */
  lemma RefusesOthers(t: Table, key: Key, revision: int, expected: int, value: Value, now: int, limits: Limits)
    requires WellFormed(t) && AtLeast(t, key, revision) && Hit(t, key, now)
    requires CanCompareSet(t, key, expected, value, now, limits)
    ensures expected >= revision
  {
    PurgeKeepsLive(t, key, now);
    hide Purged;
  }

  /** One step of a document that stays: its revision never falls. */
  lemma RevisionStays(t: Table, op: Op, limits: Limits, key: Key, revision: int)
    requires Inv(t, limits) && AtLeast(t, key, revision) && ItemAt(After(t, op, limits), key).Some?
    requires var stored := Stored(t, op, limits);
             stored.Some? && stored.value.key == key ==> Advances(op, key) && Hit(t, key, op.now)
    ensures AtLeast(After(t, op, limits), key, revision)
  {
    StepAt(t, op, limits, key);
    hide After, Find, CanCompareSet;
    if Advances(op, key) && CanCompareSet(t, key, op.expected, op.value, op.now, limits) {
      AdvanceStores(t, op, limits, key);
      RefusesOthers(t, key, revision, op.expected, op.value, op.now, limits);
    }
  }

  lemma {:induction false} RevisionsAdvance(
    trace: seq<Table>, ops: seq<Op>, limits: Limits, key: Key, i: nat, j: nat, k: nat)
    requires Steps(trace, ops, limits) && i < k <= j < |ops|
    requires Advances(ops[i], key) && Stored(trace[i], ops[i], limits).Some?
    requires Lives(trace, ops, key, i, j) && OnlyAdvances(trace, ops, limits, key, i, j)
    ensures AtLeast(trace[k], key, ops[i].expected + 1)
    decreases k
  {
    hide AtLeast, After, ItemAt, Hit, CanCompareSet, Inv;
    StepsKeepInv(trace, ops, limits, k - 1);
    if k == i + 1 {
      AdvanceStores(trace[i], ops[i], limits, key);
    } else {
      var before := k - 1;
      RevisionsAdvance(trace, ops, limits, key, i, j, before);
      assert trace[before + 1] == After(trace[before], ops[before], limits);
      RevisionStays(trace[k - 1], ops[k - 1], limits, key, ops[i].expected + 1);
    }
  }

  /** Optimistic locking over any run: after a compare-and-set stored the next revision, a second one
      with the same expectation is refused, whatever happens in between, as long as the document lives
      and is only ever advanced. */
  lemma CompareSetOnce(trace: seq<Table>, ops: seq<Op>, limits: Limits, key: Key, i: nat, j: nat)
    requires Steps(trace, ops, limits) && i < j < |ops|
    requires Advances(ops[i], key) && Stored(trace[i], ops[i], limits).Some?
    requires Lives(trace, ops, key, i, j) && OnlyAdvances(trace, ops, limits, key, i, j)
    requires ops[j].CompareSet? && ops[j].key == key && ops[j].expected == ops[i].expected
    ensures Stored(trace[j], ops[j], limits).None?
  {
    hide AtLeast, After, ItemAt, Hit, CanCompareSet, OnlyAdvances;
    StepsKeepInv(trace, ops, limits, j);
    RevisionsAdvance(trace, ops, limits, key, i, j, j);
    if CanCompareSet(trace[j], key, ops[j].expected, ops[j].value, ops[j].now, limits) {
      RefusesOthers(trace[j], key, ops[i].expected + 1, ops[j].expected, ops[j].value, ops[j].now, limits);
    }
  }

  /** A run of the store, from the empty table on. */
  ghost predicate Execution(trace: seq<Table>, ops: seq<Op>, limits: Limits) {
    Steps(trace, ops, limits) && trace[0] == Table([], map[])
  }

  /** The most recent successful write to a key among the first `i` operations. */
  ghost function LastWrite(trace: seq<Table>, ops: seq<Op>, limits: Limits, key: Key, i: nat): Option<Item>
    requires i <= |ops| && |trace| == |ops| + 1
  {
    if i == 0 then None
    else
      var stored := Stored(trace[i - 1], ops[i - 1], limits);
      if stored.Some? && stored.value.key == key then stored else LastWrite(trace, ops, limits, key, i - 1)
  }

  /** A read that hits returns the last value written to the key, within its lifetime. */
  lemma {:induction false} ReadsLastWrite(trace: seq<Table>, ops: seq<Op>, limits: Limits, key: Key, i: nat)
    requires Execution(trace, ops, limits) && i < |trace|
    ensures ItemAt(trace[i], key).Some? ==> ItemAt(trace[i], key) == LastWrite(trace, ops, limits, key, i)
  {
    if i == 0 {
    } else {
      StepsKeepInv(trace, ops, limits, i - 1);
      assert trace[i] == After(trace[i - 1], ops[i - 1], limits);
      hide After, WellFormed, Total, ItemAt, Stored, Execution;
      ReadsLastWrite(trace, ops, limits, key, i - 1);
      StepAt(trace[i - 1], ops[i - 1], limits, key);
    }
  }

  // ------------------------------------------------------ accounting over a run

  /** The recorded size of each stored item, by key. */
  lemma ExactByKey(t: Table)
    requires Unique(t.items)
    ensures Exact(t) <==>
            forall k :: ItemAt(t, k).Some? ==> k in t.sizes && t.sizes[k] == ItemAt(t, k).value.value.size
  {
    forall i | 0 <= i < |t.items|
      ensures ItemAt(t, t.items[i].key) == Some(t.items[i])
    {
      FindIn(t.items, i);
    }
    hide Unique, Find;
  }

  /** Keeping some items with their recorded sizes keeps the record exact. */
  lemma ThinnerIsExact(u: Table, t: Table)
    requires WellFormed(t) && WellFormed(u) && Exact(t) && Thinner(u, t) && KeepsSizes(u, t)
    ensures Exact(u)
  {
    ExactByKey(t);
    ExactByKey(u);
    hide Exact, WellFormed, Find;
  }

  lemma RemoveIsExact(t: Table, key: Key)
    requires WellFormed(t) && Exact(t)
    ensures Exact(Remove(t, key))
  {
    hide WellFormed, Exact, Remove, Thinner, KeepsSizes;
    RemoveParts(t, key);
    RemoveThins(t, key);
    RemoveKeepsSizes(t, key);
    ThinnerIsExact(Remove(t, key), t);
  }

  lemma PurgedIsExact(t: Table, now: int)
    requires WellFormed(t) && Exact(t)
    ensures WellFormed(Purged(t, now, |t.items|)) && Exact(Purged(t, now, |t.items|))
  {
    hide WellFormed, Exact, Purged, Thinner, KeepsSizes;
    PurgedParts(t, now, |t.items|);
    PurgedThins(t, now, |t.items|);
    PurgedSizes(t, now, |t.items|);
    ThinnerIsExact(Purged(t, now, |t.items|), t);
  }

  lemma AppendIsExact(t: Table, item: Item)
    requires Exact(t) && !Has(t.items, item.key)
    ensures Exact(Append(t, item))
  {
    var u := Append(t, item);
    forall i | 0 <= i < |u.items|
      ensures u.items[i].key in u.sizes && u.sizes[u.items[i].key] == u.items[i].value.size
    {
      if i < |t.items| { FindIn(t.items, i); }
    }
  }

  lemma InsertIsExact(t: Table, item: Item, limits: Limits)
    requires WellFormed(t) && Exact(t) && !Has(t.items, item.key)
    ensures Exact(Append(MakeRoom(t, item.value.size, limits), item))
  {
    hide WellFormed, Exact, MakeRoom, Thinner, KeepsSizes, Append, Has;
    var u := MakeRoom(t, item.value.size, limits);
    MakeRoomParts(t, item.value.size, limits);
    MakeRoomThins(t, item.value.size, limits);
    MakeRoomSizes(t, item.value.size, limits);
    ThinnerIsExact(u, t);
    MakeRoomAbsent(t, item.value.size, limits, item.key);
    AppendIsExact(u, item);
  }

  /** A publish that overwrites a value with a recorded size, with one of the same size; any other operation. */
  ghost predicate Accounted(t: Table, op: Op) {
    op.Publish? ==> op.key in t.sizes && t.sizes[op.key] == op.value.size
  }

  /** The record stays exact under every operation but an unaccounted publish, which always breaks it. */
  lemma StepExactIff(t: Table, op: Op, limits: Limits)
    requires WellFormed(t) && Exact(t)
    ensures Exact(After(t, op, limits)) <==> Accounted(t, op)
  {
    hide WellFormed, Exact, Remove, Purged, MakeRoom, Append, PublishStep;
    match op
    case Set(key, value, ttl, now, later) =>
      PurgedIsExact(t, now);
      ClearedExact(Purged(t, now, |t.items|), key);
      InsertIsExact(Remove(Purged(t, now, |t.items|), key), Item(key, value, later + ttl), limits);
    case CompareSet(key, expected, value, ttl, now) =>
      PurgedIsExact(t, now);
      ClearedExact(Purged(t, now, |t.items|), key);
      InsertIsExact(Remove(Purged(t, now, |t.items|), key), Item(key, value, now + ttl), limits);
    case Delete(key) => RemoveIsExact(t, key);
    case Get(key, _) => RemoveIsExact(t, key);
    case Publish(key, value, now) => PublishExactIff(t, key, value, now + PUBLISH_TTL);
  }

  lemma ClearedExact(t: Table, key: Key)
    requires WellFormed(t) && Exact(t)
    ensures WellFormed(Remove(t, key)) && Exact(Remove(t, key)) && !Has(Remove(t, key).items, key)
  {
    hide WellFormed, Exact, Remove, Has;
    RemoveParts(t, key);
    RemoveIsExact(t, key);
  }

  lemma {:induction false} AccountedRunIsExact(trace: seq<Table>, ops: seq<Op>, limits: Limits, i: nat)
    requires Execution(trace, ops, limits) && i < |trace|
    requires forall k :: 0 <= k < i ==> Accounted(trace[k], ops[k])
    ensures Exact(trace[i])
  {
    if i > 0 {
      AccountedRunIsExact(trace, ops, limits, i - 1);
      StepsKeepInv(trace, ops, limits, i - 1);
      assert trace[i] == After(trace[i - 1], ops[i - 1], limits);
      hide After, Execution, Exact, WellFormed, Total;
      StepExactIff(trace[i - 1], ops[i - 1], limits);
    }
  }

  /** The record is exact at every point of a run if and only if every publish of the run hit a
      recorded value of the same size, and then the byte limit holds of the stored values. */
  lemma RunIsExactIff(trace: seq<Table>, ops: seq<Op>, limits: Limits)
    requires Execution(trace, ops, limits)
    ensures (forall i :: 0 <= i < |trace| ==> Exact(trace[i])) <==>
            forall k :: 0 <= k < |ops| ==> Accounted(trace[k], ops[k])
    ensures (forall k :: 0 <= k < |ops| ==> Accounted(trace[k], ops[k])) ==>
            forall i :: 0 <= i < |trace| ==> TrueBytes(trace[i].items) <= limits.bytes
  {
    assert |trace| == |ops| + 1;
    hide Exact, Accounted, Execution, Inv, WellFormed, TrueBytes, After;
    if forall k :: 0 <= k < |ops| ==> Accounted(trace[k], ops[k]) {
      forall i | 0 <= i < |trace|
        ensures Exact(trace[i]) && TrueBytes(trace[i].items) <= limits.bytes
      {
        AccountedRunIsExact(trace, ops, limits, i);
        StepsKeepInv(trace, ops, limits, i);
        ExactWithinLimit(trace[i], limits);
      }
    }
    if forall i :: 0 <= i < |trace| ==> Exact(trace[i]) {
      forall k | 0 <= k < |ops|
        ensures Accounted(trace[k], ops[k])
      {
        ExactStepIsAccounted(trace, ops, limits, k);
      }
    }
  }

  lemma ExactStepIsAccounted(trace: seq<Table>, ops: seq<Op>, limits: Limits, k: nat)
    requires Execution(trace, ops, limits) && k < |ops| && Exact(trace[k]) && Exact(trace[k + 1])
    ensures Accounted(trace[k], ops[k])
  {
    StepsKeepInv(trace, ops, limits, k);
    assert trace[k + 1] == After(trace[k], ops[k], limits);
    hide After, Execution, Exact, WellFormed, Total;
    StepExactIff(trace[k], ops[k], limits);
  }

  const SMALL := Limits(1, 1, 1)

  const BIG_VALUE := Value(0, 2, true, None)

  /** One publish into an empty store: nothing is on record, and the byte limit is exceeded. */
  lemma PublishBreaksRecord()
    ensures Execution([Table([], map[]), PublishStep(Table([], map[]), 0, BIG_VALUE, PUBLISH_TTL)],
                      [Publish(0, BIG_VALUE, 0)], SMALL)
    ensures var t := PublishStep(Table([], map[]), 0, BIG_VALUE, PUBLISH_TTL);
            !Exact(t) && Total(t.items, t.sizes) == 0 && TrueBytes(t.items) > SMALL.bytes
  {
    var t := PublishStep(Table([], map[]), 0, BIG_VALUE, PUBLISH_TTL);
    assert t.items == [Item(0, BIG_VALUE, PUBLISH_TTL)] && t.items[1..] == [];
    assert t.items[0].key !in t.sizes;
    assert TrueBytes(t.items) == 2 + TrueBytes(t.items[1..]);
  }
}
