/** Recoverable in-memory message transport (agent_transport.py): publish, claim, acknowledge, retry,
    reclaim and dead-letter as atomic steps, with conservation and a delivery bound over all runs. */
module AgentTransport {
  import opened Basics

  type Channel = nat
  type Key = nat

  /** What stays the same over all deliveries of a message; `authentic` is the router's verdict on
      everything but expiry. */
  datatype Letter = Letter(id: nat, key: Key, channel: Channel, authentic: bool, expires: Option<int>)

  datatype Message = Message(letter: Letter, attempt: nat)

  datatype Delivery = Delivery(message: Message, receipt: nat, consumer: nat, count: nat, reclaimed: bool)

  datatype Claim = Claim(delivery: Delivery, claimedAt: int)

  /** An entry of the duplicate-suppression table. */
  datatype Entry = Entry(key: Key, expires: int)

  /** The transport's fields, and the history of what happened to every letter. */
  datatype State = State(
    queues: map<Channel, seq<Message>>,
    pending: map<Channel, seq<Claim>>,
    dead: map<Channel, seq<Message>>,
    table: seq<Entry>,
    receipts: nat,
    log: seq<Letter>,
    forgotten: multiset<Key>,
    acked: multiset<Letter>,
    trimmed: seq<Message>,
    lost: multiset<Letter>,
    delivered: seq<Delivery>)

  const EMPTY := State(map[], map[], map[], [], 0, [], multiset{}, multiset{}, [], multiset{}, [])

  function Get<T>(m: map<Channel, seq<T>>, c: Channel): seq<T> {
    if c in m then m[c] else []
  }

  predicate Accepts(letter: Letter, wall: int) {
    letter.authentic && (letter.expires.Some? ==> wall < letter.expires.value)
  }

  function Purged(table: seq<Entry>, now: int): seq<Entry> {
    if table == [] then []
    else Purged(table[..|table| - 1], now) + (if table[|table| - 1].expires <= now then [] else [table[|table| - 1]])
  }

  /** Drops the oldest entries until there is room for one more. */
  function Evicted(table: seq<Entry>, capacity: nat): seq<Entry>
    requires capacity >= 1
  {
    if |table| >= capacity then table[|table| - capacity + 1..] else table
  }

  function Keys(table: seq<Entry>): multiset<Key> {
    if table == [] then multiset{} else Keys(table[..|table| - 1]) + multiset{table[|table| - 1].key}
  }

  function LogKeys(log: seq<Letter>): multiset<Key> {
    if log == [] then multiset{} else LogKeys(log[..|log| - 1]) + multiset{log[|log| - 1].key}
  }

  /** Position of the claim with this receipt; the number of claims when there is none. */
  function FindClaim(claims: seq<Claim>, receipt: nat): (r: nat)
    ensures r <= |claims|
    ensures r < |claims| ==> claims[r].delivery.receipt == receipt
    ensures forall i :: 0 <= i < r ==> claims[i].delivery.receipt != receipt
  {
    if claims == [] then 0 else if claims[0].delivery.receipt == receipt then 0 else 1 + FindClaim(claims[1..], receipt)
  }

  function Forget(s: State, kept: seq<Entry>): State {
    s.(table := kept, forgotten := s.forgotten + (Keys(s.table) - Keys(kept)))
  }

  function Enqueue(s: State, m: Message): State {
    s.(queues := s.queues[m.letter.channel := Get(s.queues, m.letter.channel) + [m]])
  }

  function PublishStep(s: State, m: Message, capacity: nat, ttl: nat, now: int, wall: int): State
    requires capacity >= 1
  {
    if !Accepts(m.letter, wall) then s
    else
      var p := Forget(s, Purged(s.table, now));
      if m.letter.key in Keys(p.table) || |Get(p.queues, m.letter.channel)| >= capacity then p
      else Record(Enqueue(Forget(p, Evicted(p.table, capacity)), m), m.letter, now + ttl)
  }

  function Record(s: State, letter: Letter, expires: int): State {
    s.(table := s.table + [Entry(letter.key, expires)], log := s.log + [letter])
  }

  function Handover(s: State, m: Message, consumer: nat): Delivery {
    Delivery(m, s.receipts, consumer, m.attempt, false)
  }

  /** Pops the oldest message; one the router no longer accepts is gone. */
  function ReceiveStep(s: State, c: Channel, consumer: nat, now: int, wall: int): State {
    var q := Get(s.queues, c);
    if q == [] then s
    else
      var p := s.(queues := s.queues[c := q[1..]]);
      if !Accepts(q[0].letter, wall) then p.(lost := p.lost + multiset{q[0].letter})
      else
        var d := Handover(s, q[0], consumer);
        p.(pending := p.pending[c := Get(p.pending, c) + [Claim(d, now)]], receipts := s.receipts + 1,
            delivered := s.delivered + [d])
  }

  function DropClaim(s: State, c: Channel, i: nat): State
    requires i < |Get(s.pending, c)|
  {
    var claims := Get(s.pending, c);
    s.(pending := s.pending[c := claims[..i] + claims[i + 1..]])
  }

  function AckStep(s: State, d: Delivery): State {
    var c := d.message.letter.channel;
    var i := FindClaim(Get(s.pending, c), d.receipt);
    if i == |Get(s.pending, c)| then s
    else DropClaim(s, c, i).(acked := s.acked + multiset{d.message.letter})
  }

  /** Appends to the dead letters, of which only the newest `capacity` are kept. */
  function Bury(s: State, m: Message, capacity: nat): State {
    var all := Get(s.dead, m.letter.channel) + [m];
    var surplus := if |all| > capacity then |all| - capacity else 0;
    s.(dead := s.dead[m.letter.channel := all[surplus..]], trimmed := s.trimmed + all[..surplus])
  }

  function RetryStep(s: State, d: Delivery, maxAttempts: nat, capacity: nat): State {
    var c := d.message.letter.channel;
    var i := FindClaim(Get(s.pending, c), d.receipt);
    if i == |Get(s.pending, c)| then s
    else if MaxInt(d.message.attempt, d.count) >= maxAttempts then Bury(DropClaim(s, c, i), d.message, capacity)
    else Enqueue(DropClaim(s, c, i), d.message.(attempt := d.message.attempt + 1))
  }

  function ReclaimStep(s: State, c: Channel, i: nat, consumer: nat, now: int): State
    requires i < |Get(s.pending, c)|
  {
    var claims := Get(s.pending, c);
    var d := Again(claims[i].delivery, consumer);
    s.(pending := s.pending[c := claims[i := Claim(d, now)]], delivered := s.delivered + [d])
  }

  function Again(d: Delivery, consumer: nat): Delivery {
    d.(consumer := consumer, count := d.count + 1, reclaimed := true)
  }

  /** Capacity, table lifetime and attempt limit, fixed over a run. */
  datatype Limits = Limits(capacity: nat, ttl: nat, maxAttempts: nat)

  datatype Event =
    | Publish(message: Message, now: int, wall: int)
    | Receive(channel: Channel, consumer: nat, now: int, wall: int)
    | Acknowledge(delivery: Delivery)
    | Retry(delivery: Delivery)
    | Reclaim(channel: Channel, position: nat, consumer: nat, now: int)

  /** Consumers can use any delivery they were ever handed, however stale. */
  predicate Enabled(s: State, e: Event, limits: Limits) {
    && limits.capacity >= 1 && 1 <= limits.maxAttempts <= 5
    && match e
       case Publish(m, _, _) => 1 <= m.attempt <= 5
       case Receive(_, _, _, _) => true
       case Acknowledge(d) => d in s.delivered
       case Retry(d) => d in s.delivered
       case Reclaim(c, i, _, _) => i < |Get(s.pending, c)|
  }

  function Next(s: State, e: Event, limits: Limits): State
    requires Enabled(s, e, limits)
  {
    match e
    case Publish(m, now, wall) => PublishStep(s, m, limits.capacity, limits.ttl, now, wall)
    case Receive(c, consumer, now, wall) => ReceiveStep(s, c, consumer, now, wall)
    case Acknowledge(d) => AckStep(s, d)
    case Retry(d) => RetryStep(s, d, limits.maxAttempts, limits.capacity)
    case Reclaim(c, i, consumer, now) => ReclaimStep(s, c, i, consumer, now)
  }

  ghost predicate Execution(trace: seq<State>, events: seq<Event>, limits: Limits) {
    && |trace| == |events| + 1 && trace[0] == EMPTY
    && forall i :: 0 <= i < |events| ==>
         Enabled(trace[i], events[i], limits) && trace[i + 1] == Next(trace[i], events[i], limits)
  }

  // ------------------------------------------------------------ basic soundness

  /** Messages of one channel, with attempts within the schema's bounds. */
  ghost predicate Addressed(q: seq<Message>, c: Channel) {
    forall i :: 0 <= i < |q| ==> q[i].letter.channel == c && 1 <= q[i].attempt <= 5
  }

  /** Claims of one channel: handed out, and one per receipt. */
  ghost predicate ClaimsFit(claims: seq<Claim>, c: Channel, delivered: seq<Delivery>) {
    && (forall i :: 0 <= i < |claims| ==>
         claims[i].delivery in delivered && claims[i].delivery.message.letter.channel == c)
    && (forall i, j :: 0 <= i < j < |claims| ==> claims[i].delivery.receipt != claims[j].delivery.receipt)
  }

  ghost predicate DeliveriesSound(delivered: seq<Delivery>, receipts: nat) {
    && (forall d :: d in delivered ==>
         d.receipt < receipts && 1 <= d.message.attempt <= 5 && d.message.attempt <= d.count)
    && (forall d, e :: d in delivered && e in delivered && d.receipt == e.receipt ==> d.message == e.message)
  }

  ghost predicate Sound(s: State) {
    && (forall c ::
          && Addressed(Get(s.queues, c), c) && Addressed(Get(s.dead, c), c)
          && ClaimsFit(Get(s.pending, c), c, s.delivered))
    && DeliveriesSound(s.delivered, s.receipts)
  }

  lemma PublishKeepsSound(s: State, m: Message, capacity: nat, ttl: nat, now: int, wall: int)
    requires Sound(s) && capacity >= 1 && 1 <= m.attempt <= 5
    ensures Sound(PublishStep(s, m, capacity, ttl, now, wall))
  {
    hide Purged, Evicted, Keys;
    EnqueueKeepsSound(s, m);
    var t := PublishStep(s, m, capacity, ttl, now, wall);
    assert SameMessages(t, s) || SameMessages(t, Enqueue(s, m));
    hide PublishStep, Sound, Enqueue;
    if SameMessages(t, s) { SoundFrame(s, t); } else { SoundFrame(Enqueue(s, m), t); }
  }

  ghost predicate SameMessages(t: State, s: State) {
    t.queues == s.queues && t.dead == s.dead && t.pending == s.pending && t.delivered == s.delivered
        && t.receipts == s.receipts
  }

  lemma SoundFrame(s: State, t: State)
    requires Sound(s) && SameMessages(t, s)
    ensures Sound(t)
  {
    hide Addressed, ClaimsFit, DeliveriesSound;
  }

  lemma MoreDelivered(claims: seq<Claim>, c: Channel, delivered: seq<Delivery>, d: Delivery)
    requires ClaimsFit(claims, c, delivered)
    ensures ClaimsFit(claims, c, delivered + [d])
  {}

  lemma NewClaimFits(claims: seq<Claim>, c: Channel, delivered: seq<Delivery>, claim: Claim, receipts: nat)
    requires ClaimsFit(claims, c, delivered) && claim.delivery.receipt == receipts
            && claim.delivery.message.letter.channel == c
    requires forall d :: d in delivered ==> d.receipt < receipts
    ensures ClaimsFit(claims + [claim], c, delivered + [claim.delivery])
  {
    var all := claims + [claim];
    forall i | 0 <= i < |claims|
      ensures all[i].delivery in delivered
    {
      assert all[i] == claims[i];
    }
  }

  lemma ReceiveKeepsSound(s: State, c: Channel, consumer: nat, now: int, wall: int)
    requires Sound(s)
    ensures Sound(ReceiveStep(s, c, consumer, now, wall))
  {
    hide Accepts, ClaimsFit;
    var q, t := Get(s.queues, c), ReceiveStep(s, c, consumer, now, wall);
    assert Addressed(q, c) && ClaimsFit(Get(s.pending, c), c, s.delivered);
    if |q| > 0 {
      forall k
        ensures Addressed(Get(t.queues, k), k) && Addressed(Get(t.dead, k), k)
      {
        assert Addressed(Get(s.queues, k), k);
      }
      hide Addressed;
      if Accepts(q[0].letter, wall) {
        var d := Handover(s, q[0], consumer);
        NewClaimFits(Get(s.pending, c), c, s.delivered, Claim(d, now), s.receipts);
        forall k
          ensures ClaimsFit(Get(t.pending, k), k, t.delivered)
        {
          MoreDelivered(Get(s.pending, k), k, s.delivered, d);
        }
      }
    }
  }

  lemma DropKeepsSound(s: State, c: Channel, i: nat)
    requires Sound(s) && i < |Get(s.pending, c)|
    ensures Sound(DropClaim(s, c, i))
  {
    hide Addressed, DeliveriesSound;
    var claims := Get(s.pending, c);
    var left := claims[..i] + claims[i + 1..];
    assert forall k :: 0 <= k < |left| ==> left[k] == claims[if k < i then k else k + 1];
    assert ClaimsFit(claims, c, s.delivered);
    assert ClaimsFit(left, c, s.delivered);
    var t := DropClaim(s, c, i);
    assert forall k :: Get(t.pending, k) == if k == c then left else Get(s.pending, k);
  }

  lemma ReclaimKeepsSound(s: State, c: Channel, i: nat, consumer: nat, now: int)
    requires Sound(s) && i < |Get(s.pending, c)|
    ensures Sound(ReclaimStep(s, c, i, consumer, now))
  {
    hide Addressed;
    var claims, t := Get(s.pending, c), ReclaimStep(s, c, i, consumer, now);
    assert ClaimsFit(claims, c, s.delivered);
    assert claims[i].delivery in s.delivered;
    var d := Again(claims[i].delivery, consumer);
    MoreDelivered(claims, c, s.delivered, d);
    assert ClaimsFit(claims[i := Claim(d, now)], c, s.delivered + [d]);
    hide ClaimsFit;
    forall k
      ensures ClaimsFit(Get(t.pending, k), k, t.delivered)
    {
      MoreDelivered(Get(s.pending, k), k, s.delivered, d);
    }
  }

  lemma FoundMessage(s: State, d: Delivery)
    requires Sound(s) && d in s.delivered
    ensures var claims := Get(s.pending, d.message.letter.channel);
            var i := FindClaim(claims, d.receipt);
            i < |claims| ==> claims[i].delivery.message == d.message
  {
    hide Addressed;
    var c := d.message.letter.channel;
    assert ClaimsFit(Get(s.pending, c), c, s.delivered);
  }

  lemma RetryKeepsSound(s: State, d: Delivery, maxAttempts: nat, capacity: nat)
    requires Sound(s) && d in s.delivered && 1 <= maxAttempts <= 5
    ensures Sound(RetryStep(s, d, maxAttempts, capacity))
  {
    var c := d.message.letter.channel;
    var i := FindClaim(Get(s.pending, c), d.receipt);
    if i < |Get(s.pending, c)| {
      assert 1 <= d.message.attempt <= 5;
      DropKeepsSound(s, c, i);
      hide DropClaim, FindClaim, Sound;
      var u := DropClaim(s, c, i);
      if MaxInt(d.message.attempt, d.count) >= maxAttempts {
        BuryKeepsSound(u, d.message, capacity);
      } else {
        EnqueueKeepsSound(u, d.message.(attempt := d.message.attempt + 1));
      }
    }
  }

  lemma EnqueueKeepsSound(s: State, m: Message)
    requires Sound(s) && 1 <= m.attempt <= 5
    ensures Sound(Enqueue(s, m))
  {
    hide ClaimsFit, DeliveriesSound;
    var t := Enqueue(s, m);
    forall k
      ensures Addressed(Get(t.queues, k), k)
    {
      assert Addressed(Get(s.queues, k), k);
    }
  }

  lemma BuryKeepsSound(s: State, m: Message, capacity: nat)
    requires Sound(s) && 1 <= m.attempt <= 5
    ensures Sound(Bury(s, m, capacity))
  {
    var c := m.letter.channel;
    var all := Get(s.dead, c) + [m];
    var surplus := if |all| > capacity then |all| - capacity else 0;
    assert Addressed(Get(s.dead, c), c);
    assert Addressed(all, c);
    SuffixAddressed(all, c, surplus);
    hide Addressed;
    DeadKeepsSound(s, c, all[surplus..], s.trimmed + all[..surplus]);
  }

  lemma DeadKeepsSound(s: State, c: Channel, q: seq<Message>, trimmed: seq<Message>)
    requires Sound(s) && Addressed(q, c)
    ensures Sound(s.(dead := s.dead[c := q], trimmed := trimmed))
  {
    hide Addressed, ClaimsFit, DeliveriesSound;
    var t := s.(dead := s.dead[c := q], trimmed := trimmed);
    forall k
      ensures Addressed(Get(t.dead, k), k) && Addressed(Get(t.queues, k), k)
              && ClaimsFit(Get(t.pending, k), k, t.delivered)
    {
      assert Addressed(Get(s.dead, k), k);
    }
  }

  lemma SuffixAddressed(q: seq<Message>, c: Channel, n: nat)
    requires Addressed(q, c) && n <= |q|
    ensures Addressed(q[n..], c)
  {}

  lemma StepKeepsSound(s: State, e: Event, limits: Limits)
    requires Sound(s) && Enabled(s, e, limits)
    ensures Sound(Next(s, e, limits))
  {
    hide Sound, PublishStep, ReceiveStep, RetryStep, ReclaimStep, FindClaim, DropClaim;
    match e
    case Publish(m, now, wall) => PublishKeepsSound(s, m, limits.capacity, limits.ttl, now, wall);
    case Receive(c, consumer, now, wall) => ReceiveKeepsSound(s, c, consumer, now, wall);
    case Acknowledge(d) =>
      var c := d.message.letter.channel;
      var i := FindClaim(Get(s.pending, c), d.receipt);
      if i < |Get(s.pending, c)| {
        DropKeepsSound(s, c, i);
        SoundIgnoresHistory(DropClaim(s, c, i), s.acked + multiset{d.message.letter});
      }
    case Retry(d) => RetryKeepsSound(s, d, limits.maxAttempts, limits.capacity);
    case Reclaim(c, i, consumer, now) => ReclaimKeepsSound(s, c, i, consumer, now);
  }

  lemma SoundIgnoresHistory(s: State, acked: multiset<Letter>)
    requires Sound(s)
    ensures Sound(s.(acked := acked))
  {}

  // ----------------------------------------------------------------- conservation

  function Count(q: seq<Message>, l: Letter): nat {
    if q == [] then 0 else Count(q[..|q| - 1], l) + if q[|q| - 1].letter == l then 1 else 0
  }

  function Held(claims: seq<Claim>, l: Letter): nat {
    if claims == [] then 0
    else Held(claims[..|claims| - 1], l) + if claims[|claims| - 1].delivery.message.letter == l then 1 else 0
  }

  lemma {:induction false} CountConcat(a: seq<Message>, b: seq<Message>, l: Letter)
    ensures Count(a + b, l) == Count(a, l) + Count(b, l)
  {
    if b == [] {
      assert a + b == a;
    } else {
      assert (a + b)[..|a + b| - 1] == a + b[..|b| - 1];
      CountConcat(a, b[..|b| - 1], l);
    }
  }

  lemma {:induction false} HeldConcat(a: seq<Claim>, b: seq<Claim>, l: Letter)
    ensures Held(a + b, l) == Held(a, l) + Held(b, l)
  {
    if b == [] {
      assert a + b == a;
    } else {
      assert (a + b)[..|a + b| - 1] == a + b[..|b| - 1];
      HeldConcat(a, b[..|b| - 1], l);
    }
  }

  lemma HeldSplit(s: seq<Claim>, i: nat, l: Letter)
    requires i < |s|
    ensures Held(s, l) == Held(s[..i] + s[i + 1..], l) + if s[i].delivery.message.letter == l then 1 else 0
  {
    assert s == s[..i] + ([s[i]] + s[i + 1..]);
    HeldConcat(s[..i], [s[i]] + s[i + 1..], l);
    HeldConcat([s[i]], s[i + 1..], l);
    HeldConcat(s[..i], s[i + 1..], l);
  }

  lemma HeldUpdate(s: seq<Claim>, i: nat, claim: Claim, l: Letter)
    requires i < |s| && claim.delivery.message == s[i].delivery.message
    ensures Held(s[i := claim], l) == Held(s, l)
  {
    var t := s[i := claim];
    HeldSplit(s, i, l);
    HeldSplit(t, i, l);
    assert t[..i] + t[i + 1..] == s[..i] + s[i + 1..];
  }

  /** How many copies of a letter exist, over everywhere a copy can be. */
  ghost function Copies(s: State, l: Letter): nat {
    Count(Get(s.queues, l.channel), l) + Held(Get(s.pending, l.channel), l) + Count(Get(s.dead, l.channel), l)
    + s.acked[l] + Count(s.trimmed, l) + s.lost[l]
  }

  ghost predicate Conserved(s: State) {
    forall l :: multiset(s.log)[l] == Copies(s, l)
  }

  /** Every publication of a key is either remembered in the table or was dropped from it. */
  ghost predicate Deduplicated(s: State) {
    && LogKeys(s.log) == s.forgotten + Keys(s.table)
    && forall k :: Keys(s.table)[k] <= 1
  }

  lemma EnqueueCopies(s: State, m: Message, l: Letter)
    ensures Copies(Enqueue(s, m), l) == Copies(s, l) + (if l == m.letter then 1 else 0)
  {
    CountConcat(Get(s.queues, m.letter.channel), [m], l);
  }

  lemma DropCopies(s: State, c: Channel, i: nat, l: Letter)
    requires Sound(s) && i < |Get(s.pending, c)|
    ensures Copies(s, l) == Copies(DropClaim(s, c, i), l)
            + (if l == Get(s.pending, c)[i].delivery.message.letter then 1 else 0)
  {
    HeldSplit(Get(s.pending, c), i, l);
  }

  lemma {:induction false} NoForeignLetters(q: seq<Message>, c: Channel, l: Letter)
    requires Addressed(q, c) && l.channel != c
    ensures Count(q, l) == 0
  {
    if q != [] {
      NoForeignLetters(q[..|q| - 1], c, l);
    }
  }

  lemma TrimLetters(q: seq<Message>, m: Message, surplus: nat, l: Letter)
    requires surplus <= |q| + 1
    ensures var all := q + [m];
            Count(all[surplus..], l) + Count(all[..surplus], l) == Count(q, l) + (if l == m.letter then 1 else 0)
  {
    var all := q + [m];
    CountConcat(q, [m], l);
    CountConcat(all[..surplus], all[surplus..], l);
    assert all == all[..surplus] + all[surplus..];
  }

  lemma BuryCopies(s: State, m: Message, capacity: nat, l: Letter)
    requires Addressed(Get(s.dead, m.letter.channel), m.letter.channel) && 1 <= m.attempt <= 5
    ensures Copies(Bury(s, m, capacity), l) == Copies(s, l) + (if l == m.letter then 1 else 0)
  {
    hide Count, Held;
    var c := m.letter.channel;
    var all := Get(s.dead, c) + [m];
    var surplus := if |all| > capacity then |all| - capacity else 0;
    if l.channel != c {
      NoForeignLetters(all[..surplus], c, l);
      CountConcat(s.trimmed, all[..surplus], l);
    } else {
      CountConcat(s.trimmed, all[..surplus], l);
      TrimLetters(Get(s.dead, c), m, surplus, l);
    }
  }

  lemma ReceiveCopies(s: State, c: Channel, consumer: nat, now: int, wall: int, l: Letter)
    requires Addressed(Get(s.queues, c), c)
    ensures Copies(ReceiveStep(s, c, consumer, now, wall), l) == Copies(s, l)
  {
    hide Accepts;
    var q := Get(s.queues, c);
    if q != [] {
      assert q == [q[0]] + q[1..];
      CountConcat([q[0]], q[1..], l);
      var claim := Claim(Handover(s, q[0], consumer), now);
      HeldConcat(Get(s.pending, c), [claim], l);
    }
  }

  lemma AckCopies(s: State, d: Delivery, l: Letter)
    requires Sound(s) && d in s.delivered
    ensures Copies(AckStep(s, d), l) == Copies(s, l)
  {
    var c := d.message.letter.channel;
    var i := FindClaim(Get(s.pending, c), d.receipt);
    FoundMessage(s, d);
    hide FindClaim, Sound, Count, Held;
    if i < |Get(s.pending, c)| {
      DropCopies(s, c, i, l);
    }
  }

  lemma RetryCopies(s: State, d: Delivery, maxAttempts: nat, capacity: nat, l: Letter)
    requires Sound(s) && d in s.delivered
    ensures Copies(RetryStep(s, d, maxAttempts, capacity), l) == Copies(s, l)
  {
    var c := d.message.letter.channel;
    var i := FindClaim(Get(s.pending, c), d.receipt);
    FoundMessage(s, d);
    if i < |Get(s.pending, c)| {
      var u := DropClaim(s, c, i);
      assert Addressed(Get(u.dead, c), c);
      hide FindClaim, Sound, Copies, DropClaim, Bury, Enqueue;
      DropCopies(s, c, i, l);
      if MaxInt(d.message.attempt, d.count) >= maxAttempts {
        BuryCopies(u, d.message, capacity, l);
      } else {
        EnqueueCopies(u, d.message.(attempt := d.message.attempt + 1), l);
      }
    }
  }

  lemma ReclaimCopies(s: State, c: Channel, i: nat, consumer: nat, now: int, l: Letter)
    requires i < |Get(s.pending, c)|
    ensures Copies(ReclaimStep(s, c, i, consumer, now), l) == Copies(s, l)
  {
    hide Count, Held;
    var claims := Get(s.pending, c);
    HeldUpdate(claims, i, Claim(Again(claims[i].delivery, consumer), now), l);
  }

  lemma PublishCopies(s: State, m: Message, capacity: nat, ttl: nat, now: int, wall: int, l: Letter)
    requires capacity >= 1
    ensures var t := PublishStep(s, m, capacity, ttl, now, wall);
            && (t.log == s.log || t.log == s.log + [m.letter])
            && Copies(t, l) == Copies(s, l) + (if t.log != s.log && l == m.letter then 1 else 0)
  {
    hide Count, Held, Purged, Evicted, Keys;
    EnqueueCopies(s, m, l);
  }

  /** Nothing is lost and nothing is duplicated by any step, stale consumers included. */
  lemma StepConserves(s: State, e: Event, limits: Limits)
    requires Sound(s) && Enabled(s, e, limits) && Conserved(s)
    ensures Conserved(Next(s, e, limits))
  {
    var t := Next(s, e, limits);
    forall l
      ensures multiset(t.log)[l] == Copies(t, l)
    {
      assert multiset(s.log)[l] == Copies(s, l);
      hide Copies, PublishStep, ReceiveStep, AckStep, RetryStep, ReclaimStep, Conserved;
      match e
      case Publish(m, now, wall) => PublishCopies(s, m, limits.capacity, limits.ttl, now, wall, l);
      case Receive(c, consumer, now, wall) =>
        assert Addressed(Get(s.queues, c), c);
        ReceiveCopies(s, c, consumer, now, wall, l);
        LogUnchanged(s, e, limits);
      case Acknowledge(d) => AckCopies(s, d, l); LogUnchanged(s, e, limits);
      case Retry(d) => RetryCopies(s, d, limits.maxAttempts, limits.capacity, l); LogUnchanged(s, e, limits);
      case Reclaim(c, i, consumer, now) => ReclaimCopies(s, c, i, consumer, now, l); LogUnchanged(s, e, limits);
    }
  }

  lemma LogUnchanged(s: State, e: Event, limits: Limits)
    requires Enabled(s, e, limits) && !e.Publish?
    ensures var t := Next(s, e, limits); t.log == s.log && t.table == s.table && t.forgotten == s.forgotten
  {
    hide FindClaim, Accepts;
  }

  // -------------------------------------------------------- duplicate suppression

  lemma {:induction false} KeysConcat(a: seq<Entry>, b: seq<Entry>)
    ensures Keys(a + b) == Keys(a) + Keys(b)
  {
    if b == [] {
      assert a + b == a;
    } else {
      assert (a + b)[..|a + b| - 1] == a + b[..|b| - 1];
      KeysConcat(a, b[..|b| - 1]);
    }
  }

  lemma {:induction false} PurgedKeys(table: seq<Entry>, now: int)
    ensures Keys(Purged(table, now)) <= Keys(table)
  {
    if table != [] {
      var (rest, last) := (table[..|table| - 1], table[|table| - 1]);
      PurgedKeys(rest, now);
      if last.expires <= now {
        assert Purged(rest, now) + [] == Purged(rest, now);
      } else {
        assert (Purged(rest, now) + [last])[..|Purged(rest, now)|] == Purged(rest, now);
      }
    }
  }

  lemma EvictedKeys(table: seq<Entry>, capacity: nat)
    requires capacity >= 1
    ensures Keys(Evicted(table, capacity)) <= Keys(table)
    ensures |Evicted(table, capacity)| < capacity
  {
    if |table| >= capacity {
      var n := |table| - capacity + 1;
      assert table == table[..n] + table[n..];
      KeysConcat(table[..n], table[n..]);
    }
  }

  lemma ForgetKeepsLedger(s: State, kept: seq<Entry>)
    requires Deduplicated(s) && Keys(kept) <= Keys(s.table)
    ensures Deduplicated(Forget(s, kept))
  {
    hide Keys, LogKeys;
    var t := Forget(s, kept);
    assert s.forgotten + Keys(s.table) == t.forgotten + Keys(t.table);
  }

  lemma RecordKeepsLedger(s: State, letter: Letter, expires: int)
    requires Deduplicated(s) && letter.key !in Keys(s.table)
    ensures Deduplicated(Record(s, letter, expires))
  {
    var table, log := s.table + [Entry(letter.key, expires)], s.log + [letter];
    assert table[..|s.table|] == s.table && log[..|s.log|] == s.log;
    assert Keys(table) == Keys(s.table) + multiset{letter.key};
    assert LogKeys(log) == LogKeys(s.log) + multiset{letter.key};
    hide Keys, LogKeys;
  }

  lemma StepKeepsLedger(s: State, e: Event, limits: Limits)
    requires Enabled(s, e, limits) && Deduplicated(s)
    ensures Deduplicated(Next(s, e, limits))
  {
    if e.Publish? {
      PublishKeepsLedger(s, e.message, limits.capacity, limits.ttl, e.now, e.wall);
      hide PublishStep, Deduplicated;
    } else {
      LogUnchanged(s, e, limits);
      hide Next;
    }
  }

  lemma PublishKeepsLedger(s: State, m: Message, capacity: nat, ttl: nat, now: int, wall: int)
    requires capacity >= 1 && Deduplicated(s)
    ensures Deduplicated(PublishStep(s, m, capacity, ttl, now, wall))
  {
    hide Keys, Purged, Evicted, LogKeys, Deduplicated, Forget, Enqueue, Record;
    var p := Forget(s, Purged(s.table, now));
    PurgedKeys(s.table, now);
    ForgetKeepsLedger(s, Purged(s.table, now));
    if m.letter.key !in Keys(p.table) {
      InsertKeepsLedger(p, m, capacity, now + ttl);
    }
  }

  lemma InsertKeepsLedger(p: State, m: Message, capacity: nat, expires: int)
    requires capacity >= 1 && Deduplicated(p) && m.letter.key !in Keys(p.table)
    ensures Deduplicated(Record(Enqueue(Forget(p, Evicted(p.table, capacity)), m), m.letter, expires))
  {
    var q := Forget(p, Evicted(p.table, capacity));
    assert Enqueue(q, m).table == Evicted(p.table, capacity);
    EvictedKeys(p.table, capacity);
    LedgerFrameOf(q, m);
    hide Keys, Purged, Evicted, LogKeys, Deduplicated, Forget, Enqueue, Record;
    ForgetKeepsLedger(p, Evicted(p.table, capacity));
    RecordKeepsLedger(Enqueue(q, m), m.letter, expires);
  }

  lemma LedgerFrameOf(q: State, m: Message)
    ensures Deduplicated(q) ==> Deduplicated(Enqueue(q, m))
  {
    hide Keys, LogKeys;
  }

  lemma {:induction false} LogCounts(log: seq<Letter>, a: Letter, b: Letter)
    requires a != b && a.key == b.key
    ensures multiset(log)[a] + multiset(log)[b] <= LogKeys(log)[a.key]
  {
    if log != [] {
      var rest := log[..|log| - 1];
      LogCounts(rest, a, b);
      assert log == rest + [log[|log| - 1]];
    }
  }

  // ------------------------------------------------------------------ whole runs

  ghost predicate Inv(s: State) { Sound(s) && Conserved(s) && Deduplicated(s) }

  lemma StepKeepsInv(s: State, e: Event, limits: Limits)
    requires Inv(s) && Enabled(s, e, limits)
    ensures Inv(Next(s, e, limits))
  {
    hide Sound, Conserved, Deduplicated, Next;
    StepKeepsSound(s, e, limits);
    StepConserves(s, e, limits);
    StepKeepsLedger(s, e, limits);
  }

  lemma {:induction false} RunKeepsInv(trace: seq<State>, events: seq<Event>, limits: Limits, i: nat)
    requires Execution(trace, events, limits) && i < |trace|
    ensures Inv(trace[i])
  {
    if i == 0 {
    } else {
      hide Inv, Next;
      RunKeepsInv(trace, events, limits, i - 1);
      StepKeepsInv(trace[i - 1], events[i - 1], limits);
    }
  }

  /** After any mix of steps every publication is in exactly one place: queued, pending, dead,
      acknowledged, trimmed from the dead letters, or lost because the router refused it on receipt. */
  lemma Conservation(trace: seq<State>, events: seq<Event>, limits: Limits, i: nat, l: Letter)
    requires Execution(trace, events, limits) && i < |trace|
    ensures multiset(trace[i].log)[l] == Copies(trace[i], l)
  {
    hide Next, Copies, Execution;
    RunKeepsInv(trace, events, limits, i);
  }

  /** A key the table never dropped has been published at most once, so the letter that carries it
      is in one place and no other letter with that key exists. */
  lemma ExactlyOnePlace(trace: seq<State>, events: seq<Event>, limits: Limits, i: nat, l: Letter)
    requires Execution(trace, events, limits) && i < |trace| && l in trace[i].log && trace[i].forgotten[l.key] == 0
    ensures Copies(trace[i], l) == 1
    ensures forall other: Letter :: other.key == l.key && other != l ==> Copies(trace[i], other) == 0
  {
    hide Next, Copies, Execution;
    RunKeepsInv(trace, events, limits, i);
    var s := trace[i];
    assert multiset(s.log)[l] >= 1;
    LogCount(s.log, l);
    forall other: Letter | other.key == l.key && other != l
      ensures Copies(s, other) == 0
    {
      LogCounts(s.log, l, other);
      assert multiset(s.log)[other] == Copies(s, other);
    }
    assert multiset(s.log)[l] == Copies(s, l);
  }

  // A key is dropped from the table only when its entry expires or the table is full.

  /** Every publish of the first `i` events falls into one window no longer than an entry lives. */
  ghost predicate WithinWindow(events: seq<Event>, limits: Limits, start: int, i: nat)
    requires i <= |events|
  {
    forall k :: 0 <= k < i && events[k].Publish? ==> start <= events[k].now < start + limits.ttl
  }

  ghost predicate Fresh(table: seq<Entry>, until: int) {
    forall k :: 0 <= k < |table| ==> table[k].expires >= until
  }

  lemma {:induction false} FreshStays(table: seq<Entry>, until: int, now: int)
    requires Fresh(table, until) && now < until
    ensures Purged(table, now) == table
  {
    if table != [] {
      FreshStays(table[..|table| - 1], until, now);
    }
  }

  lemma PublishForgetsNothing(s: State, m: Message, capacity: nat, ttl: nat, now: int, wall: int, until: int)
    requires capacity >= 1 && Fresh(s.table, until) && now < until <= now + ttl
    requires |s.table| == |s.log| && |PublishStep(s, m, capacity, ttl, now, wall).log| <= capacity
    ensures var t := PublishStep(s, m, capacity, ttl, now, wall);
            t.forgotten == s.forgotten && Fresh(t.table, until) && |t.table| == |t.log|
  {
    FreshStays(s.table, until, now);
    ForgetNothing(s);
    hide Purged, Keys, Enqueue, Forget, Fresh, Accepts;
    if |s.table| < capacity {
      assert Evicted(s.table, capacity) == s.table;
      assert PublishStep(s, m, capacity, ttl, now, wall) == s
          || PublishStep(s, m, capacity, ttl, now, wall) == Record(Enqueue(s, m), m.letter, now + ttl);
      hide PublishStep, Evicted;
      RecordFresh(s, m, until, now + ttl);
    } else {
      OneMoreLogged(s, m, capacity, ttl, now, wall);
    }
  }

  lemma ForgetNothing(s: State)
    ensures Forget(s, s.table) == s
  {
    hide Keys;
    assert s.forgotten + (Keys(s.table) - Keys(s.table)) == s.forgotten;
  }

  lemma RecordFresh(s: State, m: Message, until: int, expires: int)
    requires Fresh(s.table, until) && until <= expires && |s.table| == |s.log|
    ensures var t := Record(Enqueue(s, m), m.letter, expires);
            t.forgotten == s.forgotten && Fresh(t.table, until) && |t.table| == |t.log|
  {}

  /** A publish that does not change the log changes the table only by purging it. */
  lemma OneMoreLogged(s: State, m: Message, capacity: nat, ttl: nat, now: int, wall: int)
    requires capacity >= 1 && Purged(s.table, now) == s.table && Forget(s, s.table) == s
    ensures var t := PublishStep(s, m, capacity, ttl, now, wall); t == s || |t.log| == |s.log| + 1
  {
    hide Purged, Keys, Evicted, Accepts;
  }

  /** The table still holds an entry for every publication, none of which ends before `until`. */
  ghost predicate Remembered(s: State, until: int) {
    s.forgotten == multiset{} && Fresh(s.table, until) && |s.table| == |s.log|
  }

  lemma StepForgetsNothing(s: State, e: Event, limits: Limits, until: int)
    requires Enabled(s, e, limits) && Remembered(s, until) && |Next(s, e, limits).log| <= limits.capacity
    requires e.Publish? ==> e.now < until <= e.now + limits.ttl
    ensures Remembered(Next(s, e, limits), until)
  {
    hide Fresh;
    if e.Publish? {
      PublishForgetsNothing(s, e.message, limits.capacity, limits.ttl, e.now, e.wall, until);
      hide PublishStep;
    } else {
      LogUnchanged(s, e, limits);
      hide Next;
    }
  }

  lemma {:induction false} NothingForgotten(trace: seq<State>, events: seq<Event>, limits: Limits, start: int, i: nat)
    requires Execution(trace, events, limits) && i < |trace|
    requires WithinWindow(events, limits, start, i) && |trace[i].log| <= limits.capacity
    ensures Remembered(trace[i], start + limits.ttl)
  {
    if i > 0 {
      var s, e := trace[i - 1], events[i - 1];
      assert Enabled(s, e, limits) && trace[i] == Next(s, e, limits);
      hide Execution, Remembered, Next, Enabled;
      LogGrows(s, e, limits);
      NothingForgotten(trace, events, limits, start, i - 1);
      StepForgetsNothing(s, e, limits, start + limits.ttl);
    }
  }

  lemma LogGrows(s: State, e: Event, limits: Limits)
    requires Enabled(s, e, limits)
    ensures |s.log| <= |Next(s, e, limits).log|
  {
    hide Purged, Evicted, Keys, FindClaim, Accepts;
  }

  /** As long as publications fit the table and fall into one lifetime of its entries, every published
      letter is in exactly one place. */
  lemma PublishedOnce(trace: seq<State>, events: seq<Event>, limits: Limits, start: int, i: nat, l: Letter)
    requires Execution(trace, events, limits) && i < |trace| && l in trace[i].log
    requires WithinWindow(events, limits, start, i) && |trace[i].log| <= limits.capacity
    ensures Copies(trace[i], l) == 1
    ensures forall other: Letter :: other.key == l.key && other != l ==> Copies(trace[i], other) == 0
  {
    hide Next, Copies, Execution, WithinWindow;
    NothingForgotten(trace, events, limits, start, i);
    ExactlyOnePlace(trace, events, limits, i, l);
  }

  lemma {:induction false} LogCount(log: seq<Letter>, l: Letter)
    ensures multiset(log)[l] <= LogKeys(log)[l.key]
  {
    if log != [] {
      var rest := log[..|log| - 1];
      LogCount(rest, l);
      assert log == rest + [log[|log| - 1]];
    }
  }

  // ----------------------------------------------------- losses need an expiry time

  ghost predicate LossesExpire(s: State) {
    && (forall l :: l in s.log ==> l.authentic)
    && (forall l :: s.lost[l] > 0 ==> l.expires.Some?)
  }

  lemma {:induction false} Present(q: seq<Message>, i: nat)
    requires i < |q|
    ensures Count(q, q[i].letter) >= 1
  {
    if i < |q| - 1 {
      Present(q[..|q| - 1], i);
    }
  }

  lemma QueuedIsLogged(s: State, c: Channel)
    requires Inv(s) && Get(s.queues, c) != []
    ensures Get(s.queues, c)[0].letter in s.log
  {
    var q := Get(s.queues, c);
    assert Addressed(q, c);
    Present(q, 0);
    hide Sound, Deduplicated, Count, Held;
    assert multiset(s.log)[q[0].letter] == Copies(s, q[0].letter);
  }

  lemma ReceiveKeepsLosses(s: State, c: Channel, consumer: nat, now: int, wall: int)
    requires LossesExpire(s) && (Get(s.queues, c) != [] ==> Get(s.queues, c)[0].letter in s.log)
    ensures LossesExpire(ReceiveStep(s, c, consumer, now, wall))
  {
    var t := ReceiveStep(s, c, consumer, now, wall);
    assert t.log == s.log;
    if t.lost != s.lost {
      var l := Get(s.queues, c)[0].letter;
      assert l.authentic && l.expires.Some?;
      assert t.lost == s.lost + multiset{l};
    }
  }

  lemma StepKeepsLosses(s: State, e: Event, limits: Limits)
    requires Inv(s) && LossesExpire(s) && Enabled(s, e, limits)
    ensures LossesExpire(Next(s, e, limits))
  {
    if e.Receive? {
      if Get(s.queues, e.channel) != [] { QueuedIsLogged(s, e.channel); }
      ReceiveKeepsLosses(s, e.channel, e.consumer, e.now, e.wall);
      hide Inv, ReceiveStep;
    } else {
      hide Inv;
      OnlyReceiptLoses(s, e, limits);
      hide Next;
    }
  }

  lemma OnlyReceiptLoses(s: State, e: Event, limits: Limits)
    requires Enabled(s, e, limits) && !e.Receive?
    ensures Next(s, e, limits).lost == s.lost
    ensures var t := Next(s, e, limits);
            t.log == s.log || (e.Publish? && e.message.letter.authentic && t.log == s.log + [e.message.letter])
  {
    hide FindClaim, Purged, Evicted, Keys;
  }

  /** A letter without an expiry time is never lost. */
  lemma {:induction false} OnlyExpiringLettersAreLost(trace: seq<State>, events: seq<Event>, limits: Limits, i: nat)
    requires Execution(trace, events, limits) && i < |trace|
    ensures LossesExpire(trace[i])
  {
    if i == 0 {
    } else {
      hide Inv, Next, LossesExpire;
      OnlyExpiringLettersAreLost(trace, events, limits, i - 1);
      RunKeepsInv(trace, events, limits, i - 1);
      StepKeepsLosses(trace[i - 1], events[i - 1], limits);
    }
  }

  // ---------------------------------------------------------- receipts are single-use

  ghost predicate Outstanding(s: State, receipt: nat) {
    exists c, i :: 0 <= i < |Get(s.pending, c)| && Get(s.pending, c)[i].delivery.receipt == receipt
  }

  /** The step takes the claim with this receipt out of the pending table. */
  ghost predicate Consumes(s: State, e: Event, receipt: nat) {
    (e.Acknowledge? || e.Retry?) && e.delivery.receipt == receipt && Outstanding(s, receipt)
  }

  lemma DropReceipts(s: State, c: Channel, i: nat, receipt: nat)
    requires i < |Get(s.pending, c)| && Outstanding(DropClaim(s, c, i), receipt)
    ensures Outstanding(s, receipt)
  {
    var t := DropClaim(s, c, i);
    var k, j :| 0 <= j < |Get(t.pending, k)| && Get(t.pending, k)[j].delivery.receipt == receipt;
    var from := if k == c && j >= i then j + 1 else j;
    assert Get(s.pending, k)[from].delivery.receipt == receipt;
  }

  lemma ReclaimReceipts(s: State, c: Channel, i: nat, consumer: nat, now: int, receipt: nat)
    requires i < |Get(s.pending, c)| && Outstanding(ReclaimStep(s, c, i, consumer, now), receipt)
    ensures Outstanding(s, receipt)
  {
    var t := ReclaimStep(s, c, i, consumer, now);
    var k, j :| 0 <= j < |Get(t.pending, k)| && Get(t.pending, k)[j].delivery.receipt == receipt;
    assert Get(s.pending, k)[j].delivery.receipt == receipt;
  }

  lemma ReceiveReceipts(s: State, c: Channel, consumer: nat, now: int, wall: int, receipt: nat)
    requires Outstanding(ReceiveStep(s, c, consumer, now, wall), receipt) && receipt != s.receipts
    ensures Outstanding(s, receipt)
  {
    var t := ReceiveStep(s, c, consumer, now, wall);
    var k, j :| 0 <= j < |Get(t.pending, k)| && Get(t.pending, k)[j].delivery.receipt == receipt;
    assert Get(s.pending, k)[j].delivery.receipt == receipt;
  }

  /** Receipts are minted fresh and otherwise only disappear. */
  lemma ReceiptsOnlyShrink(s: State, e: Event, limits: Limits, receipt: nat)
    requires Enabled(s, e, limits) && Outstanding(Next(s, e, limits), receipt) && receipt < s.receipts
    ensures Outstanding(s, receipt)
  {
    hide FindClaim, DropClaim;
    match e
    case Publish(m, now, wall) => hide Purged, Evicted, Keys;
    case Receive(c, consumer, now, wall) => ReceiveReceipts(s, c, consumer, now, wall, receipt);
    case Reclaim(c, i, consumer, now) => ReclaimReceipts(s, c, i, consumer, now, receipt);
    case _ =>
      var d := e.delivery;
      var c := d.message.letter.channel;
      var i := FindClaim(Get(s.pending, c), d.receipt);
      if i < |Get(s.pending, c)| {
        assert Outstanding(DropClaim(s, c, i), receipt);
        DropReceipts(s, c, i, receipt);
      }
  }

  /** The claims after an acknowledgement or a retry that found its own: that one is dropped. */
  lemma PendingAfter(s: State, e: Event, limits: Limits)
    requires Enabled(s, e, limits) && (e.Acknowledge? || e.Retry?)
    ensures var c := e.delivery.message.letter.channel;
            var i := FindClaim(Get(s.pending, c), e.delivery.receipt);
            Next(s, e, limits).pending == if i < |Get(s.pending, c)| then DropClaim(s, c, i).pending else s.pending
  {
    hide FindClaim, DropClaim;
  }

  /** Any claim but the one where the search ends has another receipt. */
  lemma OtherReceipt(s: State, d: Delivery, c: Channel, j: nat)
    requires Sound(s) && d in s.delivered && j < |Get(s.pending, c)|
    requires c != d.message.letter.channel || FindClaim(Get(s.pending, c), d.receipt) != j
    ensures Get(s.pending, c)[j].delivery.receipt != d.receipt
  {
    hide Addressed;
    assert ClaimsFit(Get(s.pending, c), c, s.delivered);
  }

  lemma DroppedIsGone(s: State, d: Delivery, t: State)
    requires Sound(s) && d in s.delivered
    requires var c := d.message.letter.channel;
             var i := FindClaim(Get(s.pending, c), d.receipt);
             i < |Get(s.pending, c)| && t.pending == DropClaim(s, c, i).pending
    ensures !Outstanding(t, d.receipt)
  {
    var c := d.message.letter.channel;
    var i := FindClaim(Get(s.pending, c), d.receipt);
    hide FindClaim, Sound;
    forall k, j: nat | j < |Get(t.pending, k)|
      ensures Get(t.pending, k)[j].delivery.receipt != d.receipt
    {
      var from: nat := if k == c && j >= i then j + 1 else j;
      assert Get(t.pending, k)[j] == Get(s.pending, k)[from];
      OtherReceipt(s, d, k, from);
    }
  }

  /** An acknowledgement or retry that finds its claim leaves no claim with that receipt. */
  lemma ConsumedIsGone(s: State, e: Event, limits: Limits, receipt: nat)
    requires Sound(s) && Enabled(s, e, limits) && Consumes(s, e, receipt)
    ensures !Outstanding(Next(s, e, limits), receipt)
  {
    var d := e.delivery;
    PendingAfter(s, e, limits);
    assert d in s.delivered;
    hide Next, Enabled;
    if FindClaim(Get(s.pending, d.message.letter.channel), receipt) == |Get(s.pending, d.message.letter.channel)| {
      NotFound(s, d);
    } else {
      hide Sound, Outstanding, FindClaim, DropClaim;
      DroppedIsGone(s, d, Next(s, e, limits));
    }
  }

  lemma NotFound(s: State, d: Delivery)
    requires Sound(s) && d in s.delivered
    requires var claims := Get(s.pending, d.message.letter.channel); FindClaim(claims, d.receipt) == |claims|
    ensures !Outstanding(s, d.receipt)
  {
    forall k, j: nat | j < |Get(s.pending, k)|
      ensures Get(s.pending, k)[j].delivery.receipt != d.receipt
    {
      OtherReceipt(s, d, k, j);
    }
  }

  lemma {:induction false} StaysGone(trace: seq<State>, events: seq<Event>, limits: Limits, i: nat, j: nat,
      receipt: nat)
    requires Execution(trace, events, limits) && i <= j < |trace|
    requires !Outstanding(trace[i], receipt) && receipt < trace[i].receipts
    ensures !Outstanding(trace[j], receipt) && receipt < trace[j].receipts
    decreases j
  {
    if i < j {
      StaysGone(trace, events, limits, i, j - 1, receipt);
      var s, e := trace[j - 1], events[j - 1];
      ReceiptsGrow(s, e, limits);
      hide Next, Outstanding;
      if Outstanding(trace[j], receipt) {
        ReceiptsOnlyShrink(s, e, limits, receipt);
      }
    }
  }

  lemma ReceiptsGrow(s: State, e: Event, limits: Limits)
    requires Enabled(s, e, limits)
    ensures Next(s, e, limits).receipts >= s.receipts
  {
    hide FindClaim, Purged, Evicted, Keys;
  }

  /** Each receipt is consumed at most once in a run. */
  lemma ReceiptConsumedOnce(trace: seq<State>, events: seq<Event>, limits: Limits, i: nat, j: nat, receipt: nat)
    requires Execution(trace, events, limits) && i < j < |events|
    requires Consumes(trace[i], events[i], receipt)
    ensures !Consumes(trace[j], events[j], receipt)
  {
    RunKeepsInv(trace, events, limits, i);
    hide Next, Outstanding, Conserved, Deduplicated;
    ConsumedIsGone(trace[i], events[i], limits, receipt);
    assert events[i].delivery in trace[i].delivered;
    ReceiptsGrow(trace[i], events[i], limits);
    StaysGone(trace, events, limits, i + 1, j, receipt);
  }

  // ------------------------------------------------------------------ delivery bound

  /** 1 + 2 + .. + n. */
  function Triangle(n: int): nat {
    if n <= 0 then 0 else n + Triangle(n - 1)
  }

  lemma {:induction false} TriangleClosedForm(n: nat)
    ensures 2 * Triangle(n) == n * (n + 1)
  {
    if n > 0 {
      TriangleClosedForm(n - 1);
    }
  }

  lemma {:induction false} TriangleGrows(a: int, b: int)
    requires a <= b
    ensures Triangle(a) <= Triangle(b)
    decreases b - a
  {
    if a < b {
      TriangleGrows(a, b - 1);
    }
  }

  function Spare(n: int): nat { if n < 0 then 0 else n }

  /** Deliveries of a letter that a worker with limit `max` still runs its handler for. */
  function Handed(delivered: seq<Delivery>, l: Letter, max: nat): nat {
    if delivered == [] then 0
    else
      var d := delivered[|delivered| - 1];
      Handed(delivered[..|delivered| - 1], l, max) + if d.message.letter == l && d.count <= max then 1 else 0
  }

  /** Handler runs the queued copies can still cause. */
  function QueueBudget(q: seq<Message>, l: Letter, max: nat): nat {
    if q == [] then 0
    else
      var m := q[|q| - 1];
      QueueBudget(q[..|q| - 1], l, max) + if m.letter == l then Triangle(max - m.attempt + 1) else 0
  }

  /** Handler runs the claimed copies can still cause, by reclaim and by retry. */
  function ClaimBudget(claims: seq<Claim>, l: Letter, max: nat): nat {
    if claims == [] then 0
    else
      var d := claims[|claims| - 1].delivery;
      ClaimBudget(claims[..|claims| - 1], l, max)
      + if d.message.letter == l then Spare(max - d.count) + Triangle(max - d.message.attempt) else 0
  }

  lemma {:induction false} QueueBudgetConcat(a: seq<Message>, b: seq<Message>, l: Letter, max: nat)
    ensures QueueBudget(a + b, l, max) == QueueBudget(a, l, max) + QueueBudget(b, l, max)
  {
    if b == [] {
      assert a + b == a;
    } else {
      assert (a + b)[..|a + b| - 1] == a + b[..|b| - 1];
      QueueBudgetConcat(a, b[..|b| - 1], l, max);
    }
  }

  lemma {:induction false} ClaimBudgetConcat(a: seq<Claim>, b: seq<Claim>, l: Letter, max: nat)
    ensures ClaimBudget(a + b, l, max) == ClaimBudget(a, l, max) + ClaimBudget(b, l, max)
  {
    if b == [] {
      assert a + b == a;
    } else {
      assert (a + b)[..|a + b| - 1] == a + b[..|b| - 1];
      ClaimBudgetConcat(a, b[..|b| - 1], l, max);
    }
  }

  lemma ClaimBudgetSplit(s: seq<Claim>, i: nat, l: Letter, max: nat)
    requires i < |s|
    ensures ClaimBudget(s, l, max) == ClaimBudget(s[..i] + s[i + 1..], l, max) + ClaimBudget([s[i]], l, max)
  {
    assert s == s[..i] + ([s[i]] + s[i + 1..]);
    ClaimBudgetConcat(s[..i], [s[i]] + s[i + 1..], l, max);
    ClaimBudgetConcat([s[i]], s[i + 1..], l, max);
    ClaimBudgetConcat(s[..i], s[i + 1..], l, max);
  }

  /** Handler runs already caused or still possible for a letter. */
  function Spent(s: State, l: Letter, max: nat): nat {
    Handed(s.delivered, l, max) + QueueBudget(Get(s.queues, l.channel), l, max)
        + ClaimBudget(Get(s.pending, l.channel), l, max)
  }

  lemma DropSpent(s: State, c: Channel, i: nat, l: Letter, max: nat)
    requires i < |Get(s.pending, c)|
    ensures l.channel == c ==>
            Spent(s, l, max) == Spent(DropClaim(s, c, i), l, max) + ClaimBudget([Get(s.pending, c)[i]], l, max)
    ensures l.channel != c ==> Spent(s, l, max) == Spent(DropClaim(s, c, i), l, max)
  {
    hide Handed, QueueBudget;
    ClaimBudgetSplit(Get(s.pending, c), i, l, max);
    hide ClaimBudget;
  }

  lemma EnqueueSpent(s: State, m: Message, l: Letter, max: nat)
    ensures Spent(Enqueue(s, m), l, max) == Spent(s, l, max) + if l == m.letter then Triangle(max - m.attempt + 1)
            else 0
  {
    hide Handed, ClaimBudget;
    QueueBudgetConcat(Get(s.queues, m.letter.channel), [m], l, max);
  }

  lemma ReceiveSpent(s: State, c: Channel, consumer: nat, now: int, wall: int, l: Letter, max: nat)
    requires Addressed(Get(s.queues, c), c)
    ensures Spent(ReceiveStep(s, c, consumer, now, wall), l, max) <= Spent(s, l, max)
  {
    var q := Get(s.queues, c);
    if q != [] {
      var d := Handover(s, q[0], consumer);
      assert q == [q[0]] + q[1..];
      QueueBudgetConcat([q[0]], q[1..], l, max);
      ClaimBudgetConcat(Get(s.pending, c), [Claim(d, now)], l, max);
      assert (s.delivered + [d])[..|s.delivered|] == s.delivered;
    }
  }

  lemma ReclaimSpent(s: State, c: Channel, i: nat, consumer: nat, now: int, l: Letter, max: nat)
    requires i < |Get(s.pending, c)| && ClaimsFit(Get(s.pending, c), c, s.delivered)
    ensures Spent(ReclaimStep(s, c, i, consumer, now), l, max) <= Spent(s, l, max)
  {
    hide QueueBudget;
    var claims := Get(s.pending, c);
    var d := Again(claims[i].delivery, consumer);
    var after := claims[i := Claim(d, now)];
    ClaimBudgetSplit(claims, i, l, max);
    ClaimBudgetSplit(after, i, l, max);
    assert after[..i] + after[i + 1..] == claims[..i] + claims[i + 1..];
    assert (s.delivered + [d])[..|s.delivered|] == s.delivered;
  }

  lemma RetrySpent(s: State, d: Delivery, max: nat, capacity: nat, l: Letter)
    requires Sound(s) && d in s.delivered
    ensures Spent(RetryStep(s, d, max, capacity), l, max) <= Spent(s, l, max)
  {
    hide FindClaim, Sound, Spent, Bury, Enqueue, DropClaim;
    FoundMessage(s, d);
    var c := d.message.letter.channel;
    var i := FindClaim(Get(s.pending, c), d.receipt);
    if i < |Get(s.pending, c)| {
      BurialSpends(s, i, d.message, capacity, l, max);
      RequeueSpends(s, i, d.message, l, max);
    }
  }

  lemma BurialSpends(s: State, i: nat, m: Message, capacity: nat, l: Letter, max: nat)
    requires i < |Get(s.pending, m.letter.channel)|
    ensures Spent(Bury(DropClaim(s, m.letter.channel, i), m, capacity), l, max) <= Spent(s, l, max)
  {
    hide Spent, Bury, DropClaim, ClaimBudget;
    DropSpent(s, m.letter.channel, i, l, max);
    BurySpent(DropClaim(s, m.letter.channel, i), m, capacity, l, max);
  }

  lemma RequeueSpends(s: State, i: nat, m: Message, l: Letter, max: nat)
    requires i < |Get(s.pending, m.letter.channel)| && Get(s.pending, m.letter.channel)[i].delivery.message == m
    ensures Spent(Enqueue(DropClaim(s, m.letter.channel, i), m.(attempt := m.attempt + 1)), l, max) <= Spent(s, l, max)
  {
    SingleClaim(Get(s.pending, m.letter.channel)[i], l, max);
    hide Spent, Enqueue, DropClaim, ClaimBudget, Triangle;
    DropSpent(s, m.letter.channel, i, l, max);
    EnqueueSpent(DropClaim(s, m.letter.channel, i), m.(attempt := m.attempt + 1), l, max);
  }

  lemma SingleClaim(claim: Claim, l: Letter, max: nat)
    ensures claim.delivery.message.letter == l ==>
            ClaimBudget([claim], l, max) >= Triangle(max - claim.delivery.message.attempt)
  {
    assert [claim][..0] == [];
  }

  lemma BurySpent(s: State, m: Message, capacity: nat, l: Letter, max: nat)
    ensures Spent(Bury(s, m, capacity), l, max) == Spent(s, l, max)
  {
    hide Handed, QueueBudget, ClaimBudget;
  }

  lemma PublishKeepsClaims(s: State, m: Message, capacity: nat, ttl: nat, now: int, wall: int)
    requires capacity >= 1
    ensures var t := PublishStep(s, m, capacity, ttl, now, wall); t.pending == s.pending && t.delivered == s.delivered
  {
    hide Purged, Evicted, Keys, Accepts, Get;
  }

  /** A publish appends to the log and the queue, or to neither. */
  lemma PublishQueues(s: State, m: Message, capacity: nat, ttl: nat, now: int, wall: int)
    requires capacity >= 1
    ensures var t := PublishStep(s, m, capacity, ttl, now, wall);
            || (t.log == s.log && t.queues == s.queues)
            || (t.log == s.log + [m.letter] && t.queues == Enqueue(s, m).queues)
  {
    hide Purged, Evicted, Keys, Accepts, Get;
  }

  lemma PublishSpent(s: State, m: Message, capacity: nat, ttl: nat, now: int, wall: int, l: Letter, max: nat)
    requires capacity >= 1 && m.attempt >= 1
    ensures var t := PublishStep(s, m, capacity, ttl, now, wall);
            && (t.log == s.log || t.log == s.log + [m.letter])
            && Spent(t, l, max) <= Spent(s, l, max) + if t.log != s.log && l == m.letter then Triangle(max) else 0
  {
    EnqueueSpent(s, m, l, max);
    TriangleGrows(max - m.attempt + 1, max);
    PublishKeepsClaims(s, m, capacity, ttl, now, wall);
    PublishQueues(s, m, capacity, ttl, now, wall);
    hide Handed, QueueBudget, ClaimBudget, Triangle, PublishStep;
    var t := PublishStep(s, m, capacity, ttl, now, wall);
    assert t.queues == s.queues || t.queues == Enqueue(s, m).queues;
  }

  ghost predicate WithinBudget(s: State, max: nat) {
    forall l :: Spent(s, l, max) <= multiset(s.log)[l] * Triangle(max)
  }

  lemma StepKeepsBudget(s: State, e: Event, limits: Limits)
    requires Sound(s) && Enabled(s, e, limits) && WithinBudget(s, limits.maxAttempts)
    ensures WithinBudget(Next(s, e, limits), limits.maxAttempts)
  {
    var t, max := Next(s, e, limits), limits.maxAttempts;
    forall l
      ensures Spent(t, l, max) <= multiset(t.log)[l] * Triangle(max)
    {
      assert Spent(s, l, max) <= multiset(s.log)[l] * Triangle(max);
      if !e.Publish? { LogUnchanged(s, e, limits); }
      hide Spent, PublishStep, ReceiveStep, RetryStep, ReclaimStep, WithinBudget, Triangle;
      match e
      case Publish(m, now, wall) =>
        PublishSpent(s, m, limits.capacity, limits.ttl, now, wall, l, max);
        OneMore(s.log, m.letter, l, Triangle(max));
      case Receive(c, consumer, now, wall) =>
        assert Addressed(Get(s.queues, c), c);
        ReceiveSpent(s, c, consumer, now, wall, l, max);
      case Acknowledge(d) => AckSpent(s, d, l, max);
      case Retry(d) => RetrySpent(s, d, max, limits.capacity, l);
      case Reclaim(c, i, consumer, now) =>
        assert ClaimsFit(Get(s.pending, c), c, s.delivered);
        ReclaimSpent(s, c, i, consumer, now, l, max);
    }
  }

  lemma OneMore(log: seq<Letter>, letter: Letter, l: Letter, price: nat)
    ensures multiset(log + [letter])[l] * price == multiset(log)[l] * price + if l == letter then price else 0
  {
    var n := multiset(log)[l];
    assert (n + 1) * price == n * price + price;
  }

  lemma AckSpent(s: State, d: Delivery, l: Letter, max: nat)
    ensures Spent(AckStep(s, d), l, max) <= Spent(s, l, max)
  {
    var c := d.message.letter.channel;
    var i := FindClaim(Get(s.pending, c), d.receipt);
    hide FindClaim;
    if i < |Get(s.pending, c)| {
      DropSpent(s, c, i, l, max);
    }
  }

  lemma EmptyWithinBudget(max: nat)
    ensures WithinBudget(EMPTY, max)
  {
    hide Triangle;
  }

  lemma {:induction false} RunKeepsBudget(trace: seq<State>, events: seq<Event>, limits: Limits, i: nat)
    requires Execution(trace, events, limits) && i < |trace|
    ensures WithinBudget(trace[i], limits.maxAttempts)
  {
    hide WithinBudget;
    if i == 0 {
      EmptyWithinBudget(limits.maxAttempts);
    } else {
      hide Next, WithinBudget, Conserved, Deduplicated, Sound, Enabled;
      RunKeepsBudget(trace, events, limits, i - 1);
      RunKeepsInv(trace, events, limits, i - 1);
      StepKeepsBudget(trace[i - 1], events[i - 1], limits);
    }
  }

  /** However consumers crash and reclaim, workers with attempt limit M run their handler at most
      M(M+1)/2 times for each publication of a letter. */
  lemma DeliveryBound(trace: seq<State>, events: seq<Event>, limits: Limits, i: nat, l: Letter)
    requires Execution(trace, events, limits) && i < |trace|
    ensures 2 * Handed(trace[i].delivered, l, limits.maxAttempts)
            <= multiset(trace[i].log)[l] * (limits.maxAttempts * (limits.maxAttempts + 1))
  {
    hide Next, Handed, Execution, QueueBudget, ClaimBudget, Triangle;
    RunKeepsBudget(trace, events, limits, i);
    TriangleClosedForm(limits.maxAttempts);
    var n, k := multiset(trace[i].log)[l], Triangle(limits.maxAttempts);
    assert Spent(trace[i], l, limits.maxAttempts) <= n * k;
    hide Spent, WithinBudget;
    Doubled(n, k, limits.maxAttempts * (limits.maxAttempts + 1));
  }

  lemma Doubled(n: nat, k: nat, twice: nat)
    requires 2 * k == twice
    ensures 2 * (n * k) == n * twice
  {}

  ghost predicate AttemptsWithin(s: State, max: nat) {
    forall c, i :: 0 <= i < |Get(s.queues, c)| ==> Get(s.queues, c)[i].attempt <= max
  }

  lemma EnqueueKeepsAttempts(s: State, m: Message, max: nat)
    requires AttemptsWithin(s, max) && m.attempt <= max
    ensures AttemptsWithin(Enqueue(s, m), max)
  {
    var t := Enqueue(s, m);
    forall k, i | 0 <= i < |Get(t.queues, k)|
      ensures Get(t.queues, k)[i].attempt <= max
    {
      assert i < |Get(s.queues, k)| ==> Get(t.queues, k)[i] == Get(s.queues, k)[i];
    }
  }

  lemma ReceiveKeepsAttempts(s: State, c: Channel, consumer: nat, now: int, wall: int, max: nat)
    requires AttemptsWithin(s, max)
    ensures AttemptsWithin(ReceiveStep(s, c, consumer, now, wall), max)
  {
    hide Accepts;
    var t := ReceiveStep(s, c, consumer, now, wall);
    forall k, i | 0 <= i < |Get(t.queues, k)|
      ensures Get(t.queues, k)[i].attempt <= max
    {
      var from := if k == c && Get(s.queues, c) != [] then i + 1 else i;
      assert Get(t.queues, k)[i] == Get(s.queues, k)[from];
    }
  }

  lemma RetryKeepsAttempts(s: State, d: Delivery, maxAttempts: nat, capacity: nat, max: nat)
    requires AttemptsWithin(s, max) && maxAttempts <= max
    ensures AttemptsWithin(RetryStep(s, d, maxAttempts, capacity), max)
  {
    hide FindClaim, AttemptsWithin, Enqueue;
    var c := d.message.letter.channel;
    var i := FindClaim(Get(s.pending, c), d.receipt);
    if i < |Get(s.pending, c)| && MaxInt(d.message.attempt, d.count) < maxAttempts {
      SameQueues(s, DropClaim(s, c, i), max);
      EnqueueKeepsAttempts(DropClaim(s, c, i), d.message.(attempt := d.message.attempt + 1), max);
    } else {
      SameQueues(s, RetryStep(s, d, maxAttempts, capacity), max);
    }
  }

  lemma SameQueues(s: State, t: State, max: nat)
    requires t.queues == s.queues && AttemptsWithin(s, max)
    ensures AttemptsWithin(t, max)
  {}

  /** A queued attempt number never exceeds the larger of the limit and the published number. */
  lemma StepKeepsAttempts(s: State, e: Event, limits: Limits, max: nat)
    requires Enabled(s, e, limits) && AttemptsWithin(s, max) && limits.maxAttempts <= max
    requires e.Publish? ==> e.message.attempt <= max
    ensures AttemptsWithin(Next(s, e, limits), max)
  {
    hide AttemptsWithin, PublishStep, ReceiveStep, RetryStep, Enqueue, FindClaim;
    match e
    case Publish(m, now, wall) =>
      PublishQueues(s, m, limits.capacity, limits.ttl, now, wall);
      EnqueueKeepsAttempts(s, m, max);
      var t := Next(s, e, limits);
      SameQueues(if t.queues == s.queues then s else Enqueue(s, m), t, max);
    case Receive(c, consumer, now, wall) => ReceiveKeepsAttempts(s, c, consumer, now, wall, max);
    case Retry(d) => RetryKeepsAttempts(s, d, limits.maxAttempts, limits.capacity, max);
    case _ => SameQueues(s, Next(s, e, limits), max);
  }

  /** When everything is published with attempts up to `max`, no queued attempt ever exceeds it. */
  lemma {:induction false} QueuedAttemptsBounded(trace: seq<State>, events: seq<Event>, limits: Limits, max: nat,
      i: nat)
    requires Execution(trace, events, limits) && i < |trace| && limits.maxAttempts <= max
    requires forall k :: 0 <= k < |events| && events[k].Publish? ==> events[k].message.attempt <= max
    ensures AttemptsWithin(trace[i], max)
  {
    if i == 0 {
    } else {
      hide Next, AttemptsWithin;
      QueuedAttemptsBounded(trace, events, limits, max, i - 1);
      StepKeepsAttempts(trace[i - 1], events[i - 1], limits, max);
    }
  }
}
