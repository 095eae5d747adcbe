/** The transport object and the worker loop body (agent_transport.py), against the steps of AgentTransport. */
module AgentBus {
  import opened Basics
  import opened AgentTransport

  datatype PublishStatus = Published | Duplicate

  datatype TransportError = Refused | QueueFull | NotPending | BadReply | HandlerFailed

  datatype Disposition = Idle | Acked | Retried | DeadLettered

  /** What publishing answers, in the order of its checks. */
  function PublishResult(s: State, m: Message, capacity: nat, now: int,
      wall: int): Result<PublishStatus, TransportError> {
    if !Accepts(m.letter, wall) then Err(Refused)
    else if m.letter.key in Keys(Purged(s.table, now)) then Ok(Duplicate)
    else if |Get(s.queues, m.letter.channel)| >= capacity then Err(QueueFull)
    else Ok(Published)
  }

  /** The delivery's claim is still there. */
  predicate IsPending(s: State, d: Delivery) {
    var claims := Get(s.pending, d.message.letter.channel);
    FindClaim(claims, d.receipt) < |claims|
  }

  function RetryResult(s: State, d: Delivery, maxAttempts: nat): Result<Disposition, TransportError> {
    if !IsPending(s, d) then Err(NotPending)
    else Ok(if MaxInt(d.message.attempt, d.count) >= maxAttempts then DeadLettered else Retried)
  }

  class InMemoryTransport {
    const capacity: nat
    const ttl: nat
    var queues: map<Channel, seq<Message>>
    var pending: map<Channel, seq<Claim>>
    var deadLetters: map<Channel, seq<Message>>
    var published: seq<Entry>
    /** Source of fresh receipts. */
    var receipts: nat
    ghost var log: seq<Letter>
    ghost var forgotten: multiset<Key>
    ghost var acked: multiset<Letter>
    ghost var trimmed: seq<Message>
    ghost var lost: multiset<Letter>
    ghost var delivered: seq<Delivery>

    ghost function Contents(): State
      reads this
    {
      State(queues, pending, deadLetters, published, receipts, log, forgotten, acked, trimmed, lost, delivered)
    }

    ghost predicate Valid()
      reads this
    {
      Inv(Contents()) && capacity >= 1
    }

    constructor (ttlSeconds: int, maxMessages: int)
      ensures Valid() && Contents() == EMPTY
      ensures capacity == MaxInt(100, maxMessages) && ttl == MaxInt(60, ttlSeconds)
    {
      capacity, ttl := MaxInt(100, maxMessages), MaxInt(60, ttlSeconds);
      queues, pending, deadLetters, published, receipts := map[], map[], map[], [], 0;
      log, forgotten, acked, trimmed, lost, delivered := [], multiset{}, multiset{}, [], multiset{}, [];
    }

    method DropExpired(now: int)
      modifies this`published, this`forgotten
      ensures Contents() == Forget(old(Contents()), Purged(old(published), now))
    {
      var kept := [];
      for k := 0 to |published|
        invariant kept == Purged(published[..k], now)
      {
        assert published[..k + 1][..k] == published[..k];
        if published[k].expires > now { kept := kept + [published[k]]; }
      }
      assert published[..|published|] == published;
      forgotten := forgotten + (Keys(published) - Keys(kept));
      published := kept;
    }

    method DropOldest()
      requires capacity >= 1
      modifies this`published, this`forgotten
      ensures Contents() == Forget(old(Contents()), Evicted(old(published), capacity))
    {
      hide Keys;
      ghost var before, dropped := published, 0;
      while |published| >= capacity
        invariant forgotten == old(forgotten)
        invariant 0 <= dropped <= |before| && published == before[dropped..]
        invariant dropped > 0 ==> |before| - dropped >= capacity - 1
      {
        assert before[dropped..][1..] == before[dropped + 1..];
        published, dropped := published[1..], dropped + 1;
      }
      assert dropped == if |before| >= capacity then |before| - capacity + 1 else 0;
      assert published == Evicted(before, capacity);
      forgotten := forgotten + (Keys(before) - Keys(published));
    }

    predicate Remembers(key: Key)
      reads this
    {
      exists i :: 0 <= i < |published| && published[i].key == key
    }

    method Publish(m: Message, now: int, wall: int) returns (r: Result<PublishStatus, TransportError>)
      requires Valid() && 1 <= m.attempt <= 5
      modifies this
      ensures Valid() && delivered == old(delivered)
      ensures Contents() == PublishStep(old(Contents()), m, capacity, ttl, now, wall)
      ensures r == PublishResult(old(Contents()), m, capacity, now, wall)
      ensures r == Ok(Published) <==> log != old(log)
    {
      hide Inv;
      ghost var before := Contents();
      r := Insert(m, now, wall);
      hide PublishStep;
      StepKeepsInv(before, AgentTransport.Publish(m, now, wall), Limits(capacity, ttl, 1));
    }

    method Insert(m: Message, now: int, wall: int) returns (r: Result<PublishStatus, TransportError>)
      requires capacity >= 1
      modifies this
      ensures Contents() == PublishStep(old(Contents()), m, capacity, ttl, now, wall) && delivered == old(delivered)
      ensures r == PublishResult(old(Contents()), m, capacity, now, wall)
      ensures r == Ok(Published) <==> log != old(log)
    {
      hide Purged, Evicted, Keys, Accepts;
      if !Accepts(m.letter, wall) { return Err(Refused); }
      DropExpired(now);
      InKeys(published, m.letter.key);
      if Remembers(m.letter.key) { return Ok(Duplicate); }
      if |Get(queues, m.letter.channel)| >= capacity { return Err(QueueFull); }
      DropOldest();
      published := published + [Entry(m.letter.key, now + ttl)];
      queues := queues[m.letter.channel := Get(queues, m.letter.channel) + [m]];
      log := log + [m.letter];
      r := Ok(Published);
    }

    static lemma {:induction false} InKeys(table: seq<Entry>, key: Key)
      ensures key in Keys(table) <==> exists i :: 0 <= i < |table| && table[i].key == key
    {
      if table != [] {
        InKeys(table[..|table| - 1], key);
        assert table[|table| - 1].key == key ==> exists i :: 0 <= i < |table| && table[i].key == key;
      }
    }

    /** Takes the oldest message at the moment the wait ends. */
    method Receive(channel: Channel, consumer: nat, now: int, wall: int)
        returns (r: Result<Option<Delivery>, TransportError>)
      requires Valid()
      modifies this
      ensures Valid()
      ensures Contents() == ReceiveStep(old(Contents()), channel, consumer, now, wall)
      ensures r == Ok(None) <==> Get(old(queues), channel) == []
      ensures r.Err? <==> lost != old(lost)
      ensures r.Err? ==> r.error == Refused && !Accepts(Get(old(queues), channel)[0].letter, wall)
      ensures r.Ok? && r.value.Some? ==>
                && Accepts(Get(old(queues), channel)[0].letter, wall)
                && r.value.value == Handover(old(Contents()), Get(old(queues), channel)[0], consumer)
                && delivered == old(delivered) + [r.value.value]
    {
      hide Inv;
      ghost var before := Contents();
      r := Pop(channel, consumer, now, wall);
      hide ReceiveStep;
      StepKeepsInv(before, AgentTransport.Receive(channel, consumer, now, wall), Limits(capacity, ttl, 1));
    }

    method Pop(channel: Channel, consumer: nat, now: int, wall: int)
        returns (r: Result<Option<Delivery>, TransportError>)
      modifies this
      ensures Contents() == ReceiveStep(old(Contents()), channel, consumer, now, wall)
      ensures r == Ok(None) <==> Get(old(queues), channel) == []
      ensures r.Err? <==> lost != old(lost)
      ensures r.Err? ==> r.error == Refused && !Accepts(Get(old(queues), channel)[0].letter, wall)
      ensures r.Ok? && r.value.Some? ==>
                && Accepts(Get(old(queues), channel)[0].letter, wall)
                && r.value.value == Handover(old(Contents()), Get(old(queues), channel)[0], consumer)
                && delivered == old(delivered) + [r.value.value]
    {
      hide Accepts;
      var q := Get(queues, channel);
      if q == [] { return Ok(None); }
      var message := q[0];
      queues := queues[channel := q[1..]];
      if !Accepts(message.letter, wall) {
        lost := lost + multiset{message.letter};
        assert lost[message.letter] == old(lost)[message.letter] + 1;
        r := Err(Refused);
      } else {
        var delivery := Delivery(message, receipts, consumer, message.attempt, false);
        receipts := receipts + 1;
        pending := pending[channel := Get(pending, channel) + [Claim(delivery, now)]];
        delivered := delivered + [delivery];
        r := Ok(Some(delivery));
      }
    }

    method Acknowledge(d: Delivery) returns (removed: bool)
      requires Valid() && d in delivered
      modifies this
      ensures Valid() && delivered == old(delivered)
      ensures Contents() == AckStep(old(Contents()), d)
      ensures removed <==> IsPending(old(Contents()), d)
      ensures removed <==> acked != old(acked)
    {
      hide Inv;
      ghost var before := Contents();
      var c := d.message.letter.channel;
      var claims := Get(pending, c);
      var i := FindClaim(claims, d.receipt);
      removed := i < |claims|;
      if removed {
        pending := pending[c := claims[..i] + claims[i + 1..]];
        acked := acked + multiset{d.message.letter};
        assert acked[d.message.letter] == old(acked)[d.message.letter] + 1;
      }
      StepKeepsInv(before, AgentTransport.Acknowledge(d), Limits(capacity, ttl, 1));
    }

    method Retry(d: Delivery, maxAttempts: nat) returns (r: Result<Disposition, TransportError>)
      requires Valid() && d in delivered && 1 <= maxAttempts <= 5
      modifies this
      ensures Valid() && delivered == old(delivered)
      ensures Contents() == RetryStep(old(Contents()), d, maxAttempts, capacity)
      ensures r == RetryResult(old(Contents()), d, maxAttempts)
      ensures r.Err? ==> Contents() == old(Contents())
    {
      hide Inv;
      ghost var before := Contents();
      var c := d.message.letter.channel;
      var claims := Get(pending, c);
      var i := FindClaim(claims, d.receipt);
      if i == |claims| { return Err(NotPending); }
      pending := pending[c := claims[..i] + claims[i + 1..]];
      if MaxInt(d.message.attempt, d.count) >= maxAttempts {
        var all := Get(deadLetters, c) + [d.message];
        var surplus := if |all| > capacity then |all| - capacity else 0;
        deadLetters := deadLetters[c := all[surplus..]];
        trimmed := trimmed + all[..surplus];
        r := Ok(DeadLettered);
      } else {
        var again := d.message.(attempt := d.message.attempt + 1);
        queues := queues[c := Get(queues, c) + [again]];
        r := Ok(Retried);
      }
      StepKeepsInv(before, AgentTransport.Retry(d), Limits(capacity, ttl, maxAttempts));
    }

    /** Hands the first `count` claims that have been idle for `threshold` to a new consumer. */
    method Reclaim(channel: Channel, consumer: nat, threshold: nat, count: nat, now: int)
        returns (reclaimed: seq<Delivery>)
      requires Valid()
      modifies this
      ensures Valid()
      ensures Contents() == ReclaimAll(old(Contents()), channel, consumer, threshold, count, now,
              |Get(old(pending), channel)|)
      ensures delivered == old(delivered) + reclaimed && |reclaimed| <= count
    {
      hide Inv, ReclaimStep;
      ghost var before := Contents();
      var claims := Get(pending, channel);
      reclaimed := [];
      for k := 0 to |claims|
        invariant Valid() && |reclaimed| <= count
        invariant Contents() == ReclaimAll(before, channel, consumer, threshold, count, now, k)
        invariant delivered == before.delivered + reclaimed
        invariant |Get(pending, channel)| == |claims|
        invariant forall j :: k <= j < |claims| ==> Get(pending, channel)[j] == claims[j]
      {
        if |reclaimed| < count && now - claims[k].claimedAt >= threshold {
          ghost var at := Contents();
          TakeOver(channel, k, consumer, now);
          reclaimed := reclaimed + [Again(claims[k].delivery, consumer)];
        }
      }
    }

    method TakeOver(channel: Channel, k: nat, consumer: nat, now: int)
      requires Valid() && k < |Get(pending, channel)|
      modifies this`pending, this`delivered
      ensures Valid()
      ensures Contents() == ReclaimStep(old(Contents()), channel, k, consumer, now)
      ensures delivered == old(delivered) + [Again(Get(old(pending), channel)[k].delivery, consumer)]
      ensures |Get(pending, channel)| == |Get(old(pending), channel)|
      ensures forall j :: 0 <= j < |Get(pending, channel)| && j != k ==>
              Get(pending, channel)[j] == Get(old(pending), channel)[j]
    {
      hide Inv;
      ghost var before := Contents();
      var claims := Get(pending, channel);
      var d := Again(claims[k].delivery, consumer);
      pending := pending[channel := claims[k := Claim(d, now)]];
      delivered := delivered + [d];
      StepKeepsInv(before, AgentTransport.Reclaim(channel, k, consumer, now), Limits(capacity, ttl, 1));
    }
  }

  /** The first `k` claims visited by a reclaim, as single steps. */
  ghost function ReclaimAll(s: State, c: Channel, consumer: nat, threshold: nat, count: nat, now: int,
      k: nat): (t: State)
    requires k <= |Get(s.pending, c)|
    ensures |Get(t.pending, c)| == |Get(s.pending, c)| && |t.delivered| >= |s.delivered|
    ensures forall j :: k <= j < |Get(s.pending, c)| ==> Get(t.pending, c)[j] == Get(s.pending, c)[j]
  {
    if k == 0 then s
    else
      var t := ReclaimAll(s, c, consumer, threshold, count, now, k - 1);
      if |t.delivered| - |s.delivered| < count && now - Get(s.pending, c)[k - 1].claimedAt >= threshold
      then ReclaimStep(t, c, k - 1, consumer, now) else t
  }

  // ---------------------------------------------------------------------- worker

  /** What the role handler does with a message: fail, or answer with some messages. */
  datatype Outcome = Fails | Answers(outputs: seq<Answer>)

  /** An answer; `targetsReply` unless the request named a reply inbox and this is not it. */
  datatype Answer = Answer(message: Message, targetsReply: bool)

  /** What another consumer, who took the claim over, does with it while the handler runs. */
  datatype Rival = Absent | Reclaims(consumer: nat, at: int, settlement: Settlement)

  datatype Settlement = Nothing | Acknowledges | Retries

  /** A worker's settings and those of its transport. */
  datatype Setup = Setup(endpoint: Channel, consumer: nat, maxAttempts: nat, idle: nat, capacity: nat, ttl: nat)

  /** One reading of the monotonic clock, and two of the wall clock: on receipt and after it. */
  datatype Clock = Clock(now: int, wall: int, wallAfter: int)

  ghost predicate Sensible(w: Setup) { w.capacity >= 1 && 1 <= w.maxAttempts <= 5 }

  ghost predicate WellAttempted(outcome: Outcome) {
    outcome.Answers? ==> forall a :: a in outcome.outputs ==> 1 <= a.message.attempt <= 5
  }

  /** Position of the first claim that has been idle for `threshold`; their number when there is none. */
  function FirstIdle(claims: seq<Claim>, threshold: nat, now: int): (r: nat)
    ensures r <= |claims|
    ensures r < |claims| ==> now - claims[r].claimedAt >= threshold
    ensures forall i :: 0 <= i < r ==> now - claims[i].claimedAt < threshold
  {
    if claims == [] then 0
    else if now - claims[0].claimedAt >= threshold then 0 else 1 + FirstIdle(claims[1..], threshold, now)
  }

  /** A worker claims the first idle claim, or else the next message. */
  function ClaimStep(s: State, w: Setup, at: Clock): State {
    var i := FirstIdle(Get(s.pending, w.endpoint), w.idle, at.now);
    if i < |Get(s.pending, w.endpoint)| then ReclaimStep(s, w.endpoint, i, w.consumer, at.now)
    else ReceiveStep(s, w.endpoint, w.consumer, at.now, at.wall)
  }

  /** The delivery it then holds; a received message is checked twice. */
  function Claimed(s: State, w: Setup, at: Clock): Result<Option<Delivery>, TransportError> {
    var claims, q := Get(s.pending, w.endpoint), Get(s.queues, w.endpoint);
    var i := FirstIdle(claims, w.idle, at.now);
    if i < |claims| then Ok(Some(Again(claims[i].delivery, w.consumer)))
    else if q == [] then Ok(None)
    else if !Accepts(q[0].letter, at.wall) || !Accepts(q[0].letter, at.wallAfter) then Err(Refused)
    else Ok(Some(Handover(s, q[0], w.consumer)))
  }

  /** The rival reclaims the pending claim, and settles it with the delivery it got by that. */
  function Intrude(s: State, d: Delivery, w: Setup, rival: Rival): State {
    var c := d.message.letter.channel;
    var i := FindClaim(Get(s.pending, c), d.receipt);
    if rival.Absent? || i == |Get(s.pending, c)| then s
    else
      SettledBy(ReclaimStep(s, c, i, rival.consumer, rival.at), Again(Get(s.pending, c)[i].delivery, rival.consumer),
                w, rival.settlement)
  }

  function SettledBy(s: State, d: Delivery, w: Setup, settlement: Settlement): State {
    match settlement
    case Nothing => s
    case Acknowledges => AckStep(s, d)
    case Retries => RetryStep(s, d, w.maxAttempts, w.capacity)
  }

  /** Nobody has taken the claim away by the time the handler is done. */
  predicate LeavesClaim(rival: Rival) { rival.Absent? || rival.settlement.Nothing? }

  /** Publishing the first `k` answers in order, the first refusal ending the attempt. */
  function Answered(s: State, outputs: seq<Answer>, k: nat, w: Setup, at: Clock): (State, bool)
    requires k <= |outputs| && w.capacity >= 1
  {
    if k == 0 then (s, true)
    else
      var (t, ok) := Answered(s, outputs, k - 1, w, at);
      if !ok || !outputs[k - 1].targetsReply then (t, false)
      else
        (PublishStep(t, outputs[k - 1].message, w.capacity, w.ttl, at.now, at.wallAfter),
         PublishResult(t, outputs[k - 1].message, w.capacity, at.now, at.wallAfter).Ok?)
  }

  /** State, result and handled delivery of a pass. */
  datatype Pass = Pass(state: State, result: Result<Disposition, TransportError>, handled: Option<Delivery>)

  /** Acknowledges when every answer went out, retries otherwise. */
  function Settled(s: State, d: Delivery, w: Setup, at: Clock, outcome: Outcome): Pass
    requires w.capacity >= 1
  {
    var (t, ok) := if outcome.Fails? then (s, false) else Answered(s, outcome.outputs, |outcome.outputs|, w, at);
    if ok then Pass(AckStep(t, d), Ok(if IsPending(t, d) then Acked else Retried), Some(d))
    else Pass(RetryStep(t, d, w.maxAttempts, w.capacity), RetryResult(t, d, w.maxAttempts), Some(d))
  }

  /** One pass of a worker as transport steps: claim, handle, publish, settle. */
  function PassOf(s: State, w: Setup, at: Clock, rival: Rival, outcome: Outcome): Pass
    requires w.capacity >= 1
  {
    var t, claimed := ClaimStep(s, w, at), Claimed(s, w, at);
    if claimed.Err? then Pass(t, Err(claimed.error), None)
    else if claimed.value.None? then Pass(t, Ok(Idle), None)
    else if claimed.value.value.count > w.maxAttempts then
      Pass(RetryStep(t, claimed.value.value, w.maxAttempts, w.capacity),
          RetryResult(t, claimed.value.value, w.maxAttempts), None)
    else Settled(Intrude(t, claimed.value.value, w, rival), claimed.value.value, w, at, outcome)
  }

  class AgentTaskWorker {
    const transport: InMemoryTransport
    const endpoint: Channel
    const consumer: nat
    const maxAttempts: nat
    const idle: nat

    constructor (transport: InMemoryTransport, endpoint: Channel, consumer: nat, maxAttempts: nat, idleMs: nat)
      requires 1 <= maxAttempts <= 5
      ensures this.transport == transport && this.maxAttempts == maxAttempts && this.idle == MaxInt(1000, idleMs)
    {
      this.transport, this.endpoint, this.consumer, this.maxAttempts := transport, endpoint, consumer, maxAttempts;
      this.idle := MaxInt(1000, idleMs);
    }

    function Settings(): Setup {
      Setup(endpoint, consumer, maxAttempts, idle, transport.capacity, transport.ttl)
    }

    /** A reclaimed claim if there is an idle one, otherwise the next message. */
    method Claim(at: Clock) returns (r: Result<Option<Delivery>, TransportError>)
      requires transport.Valid()
      modifies transport
      ensures transport.Valid()
      ensures transport.Contents() == ClaimStep(old(transport.Contents()), Settings(), at)
      ensures r == Claimed(old(transport.Contents()), Settings(), at)
      ensures r.Ok? && r.value.Some? ==> transport.delivered == old(transport.delivered) + [r.value.value]
    {
      hide ReceiveStep, ReclaimAll, Accepts, AgentTransport.Inv;
      ghost var before := transport.Contents();
      var reclaimed := transport.Reclaim(endpoint, consumer, idle, 1, at.now);
      FirstIsReclaimed(before, Settings(), at.now, |Get(before.pending, endpoint)|);
      if reclaimed != [] {
        assert transport.delivered[|before.delivered|] == reclaimed[0];
        return Ok(Some(reclaimed[0]));
      }
      assert transport.Contents() == before;
      r := transport.Receive(endpoint, consumer, at.now, at.wall);
      if r.Ok? && r.value.Some? && !Accepts(r.value.value.message.letter, at.wallAfter) { r := Err(Refused); }
    }

    /** One pass of the worker. `handled` is the delivery the handler ran for, if it ran: always the
        one just claimed, and only within the attempt limit. */
    method RunOnce(at: Clock, rival: Rival, outcome: Outcome)
      returns (r: Result<Disposition, TransportError>, handled: Option<Delivery>)
      requires transport.Valid() && 1 <= maxAttempts <= 5 && WellAttempted(outcome)
      modifies transport
      ensures transport.Valid()
      ensures Pass(transport.Contents(), r, handled)
              == PassOf(old(transport.Contents()), Settings(), at, rival, outcome)
      ensures WithinBudget(old(transport.Contents()), maxAttempts) ==> WithinBudget(transport.Contents(), maxAttempts)
    {
      hide ClaimStep, Claimed, Settled, Intrude, WithinBudget, AgentTransport.Inv, RetryStep, RetryResult;
      ghost var before := transport.Contents();
      if WithinBudget(before, maxAttempts) { PassKeepsBudget(before, Settings(), at, rival, outcome); }
      var claim := Claim(at);
      if claim.Err? { return Err(claim.error), None; }
      if claim.value.None? { return Ok(Idle), None; }
      var d := claim.value.value;
      assert d == transport.delivered[|transport.delivered| - 1];
      if d.count > maxAttempts {
        r := transport.Retry(d, maxAttempts);
        return r, None;
      }
      Interfere(d, rival);
      r := Settle(d, at, outcome);
      handled := Some(d);
    }

    method Interfere(d: Delivery, rival: Rival)
      requires transport.Valid() && 1 <= maxAttempts <= 5 && d in transport.delivered
      modifies transport
      ensures transport.Valid() && d in transport.delivered
      ensures transport.Contents() == Intrude(old(transport.Contents()), d, Settings(), rival)
    {
      hide AgentTransport.Inv, FindClaim, AckStep, RetryStep;
      if rival.Absent? { return; }
      var c := d.message.letter.channel;
      var claims := Get(transport.pending, c);
      var i := FindClaim(claims, d.receipt);
      if i == |claims| { return; }
      var taken := Again(claims[i].delivery, rival.consumer);
      transport.TakeOver(c, i, rival.consumer, rival.at);
      assert taken == transport.delivered[|transport.delivered| - 1];
      match rival.settlement
      case Nothing =>
      case Acknowledges => var _ := transport.Acknowledge(taken);
      case Retries => var _ := transport.Retry(taken, maxAttempts);
    }

    /** The handler's part of a pass, and what it does to the claim. */
    method Settle(d: Delivery, at: Clock, outcome: Outcome) returns (r: Result<Disposition, TransportError>)
      requires transport.Valid() && 1 <= maxAttempts <= 5 && d in transport.delivered && WellAttempted(outcome)
      modifies transport
      ensures transport.Valid()
      ensures Pass(transport.Contents(), r, Some(d)) == Settled(old(transport.Contents()), d, Settings(), at, outcome)
    {
      hide AgentTransport.Inv, Answered, AckStep, RetryStep, RetryResult, IsPending;
      var answered := PublishAnswers(d, at, outcome);
      if answered {
        var removed := transport.Acknowledge(d);
        r := Ok(if removed then Acked else Retried);
      } else {
        r := transport.Retry(d, maxAttempts);
      }
    }

    /** Publishes the handler's answers in order; the first refusal ends the attempt. */
    method PublishAnswers(d: Delivery, at: Clock, outcome: Outcome) returns (ok: bool)
      requires transport.Valid() && d in transport.delivered && WellAttempted(outcome)
      modifies transport
      ensures transport.Valid() && transport.delivered == old(transport.delivered)
      ensures outcome.Fails? ==> !ok && transport.Contents() == old(transport.Contents())
      ensures outcome.Answers? ==>
                (transport.Contents(), ok) == Answered(old(transport.Contents()), outcome.outputs, |outcome.outputs|,
                    Settings(), at)
    {
      hide AgentTransport.Inv, PublishStep, PublishResult;
      if outcome.Fails? { return false; }
      ghost var before := transport.Contents();
      for k := 0 to |outcome.outputs|
        invariant transport.Valid() && transport.delivered == old(transport.delivered)
        invariant Answered(before, outcome.outputs, k, Settings(), at) == (transport.Contents(), true)
      {
        var answer := outcome.outputs[k];
        if !answer.targetsReply {
          StoppedStays(before, outcome.outputs, k + 1, |outcome.outputs|, Settings(), at);
          return false;
        }
        var sent := transport.Publish(answer.message, at.now, at.wallAfter);
        if sent.Err? {
          StoppedStays(before, outcome.outputs, k + 1, |outcome.outputs|, Settings(), at);
          return false;
        }
      }
      return true;
    }
  }

  lemma {:induction false} StoppedStays(s: State, outputs: seq<Answer>, i: nat, k: nat, w: Setup, at: Clock)
    requires i <= k <= |outputs| && w.capacity >= 1 && !Answered(s, outputs, i, w, at).1
    ensures Answered(s, outputs, k, w, at) == Answered(s, outputs, i, w, at)
    decreases k - i
  {
    hide PublishStep, PublishResult;
    if i < k {
      StoppedStays(s, outputs, i, k - 1, w, at);
    }
  }

  /** Reclaiming one claim takes over the first idle one, or none. */
  lemma {:induction false} FirstIsReclaimed(s: State, w: Setup, now: int, k: nat)
    requires k <= |Get(s.pending, w.endpoint)|
    ensures var i := FirstIdle(Get(s.pending, w.endpoint), w.idle, now);
            ReclaimAll(s, w.endpoint, w.consumer, w.idle, 1, now, k)
            == if i < k then ReclaimStep(s, w.endpoint, i, w.consumer, now) else s
  {
    if k > 0 {
      FirstIsReclaimed(s, w, now, k - 1);
    }
  }

  // ------------------------------------------------------- what a pass comes to

  lemma ClaimKeepsBudget(s: State, w: Setup, at: Clock)
    requires Inv(s) && Sensible(w) && WithinBudget(s, w.maxAttempts)
    ensures Inv(ClaimStep(s, w, at)) && WithinBudget(ClaimStep(s, w, at), w.maxAttempts)
    ensures Claimed(s, w, at).Ok? && Claimed(s, w, at).value.Some? ==>
            Claimed(s, w, at).value.value in ClaimStep(s, w, at).delivered
  {
    hide Inv, WithinBudget, FirstIdle, Accepts;
    var i := FirstIdle(Get(s.pending, w.endpoint), w.idle, at.now);
    if i < |Get(s.pending, w.endpoint)| {
      StepKeeps(s, AgentTransport.Reclaim(w.endpoint, i, w.consumer, at.now), w);
    } else {
      StepKeeps(s, AgentTransport.Receive(w.endpoint, w.consumer, at.now, at.wall), w);
    }
  }

  function LimitsOf(w: Setup): Limits { Limits(w.capacity, w.ttl, w.maxAttempts) }

  lemma StepKeeps(s: State, e: Event, w: Setup)
    requires Inv(s) && Sensible(w) && WithinBudget(s, w.maxAttempts) && Enabled(s, e, LimitsOf(w))
    ensures Inv(Next(s, e, LimitsOf(w))) && WithinBudget(Next(s, e, LimitsOf(w)), w.maxAttempts)
    ensures !e.Receive? && !e.Reclaim? ==> Next(s, e, LimitsOf(w)).delivered == s.delivered
  {
    StepKeepsInv(s, e, LimitsOf(w));
    OnlyHandoversDeliver(s, e, LimitsOf(w));
    hide Conserved, Deduplicated, Next, Sound;
    StepKeepsBudget(s, e, LimitsOf(w));
  }

  lemma OnlyHandoversDeliver(s: State, e: Event, limits: Limits)
    requires Enabled(s, e, limits)
    ensures !e.Receive? && !e.Reclaim? ==> Next(s, e, limits).delivered == s.delivered
  {
    hide FindClaim, Purged, Evicted, Keys;
  }

  lemma {:induction false} AnswersKeepBudget(s: State, outputs: seq<Answer>, k: nat, w: Setup, at: Clock)
    requires Inv(s) && Sensible(w) && WithinBudget(s, w.maxAttempts) && k <= |outputs|
    requires forall a :: a in outputs ==> 1 <= a.message.attempt <= 5
    ensures var t := Answered(s, outputs, k, w, at).0;
            Inv(t) && WithinBudget(t, w.maxAttempts) && t.delivered == s.delivered
  {
    hide Inv, WithinBudget, PublishStep, PublishResult;
    if k > 0 {
      AnswersKeepBudget(s, outputs, k - 1, w, at);
      var t := Answered(s, outputs, k - 1, w, at).0;
      assert outputs[k - 1] in outputs;
      StepKeeps(t, AgentTransport.Publish(outputs[k - 1].message, at.now, at.wallAfter), w);
    }
  }

  lemma SettledKeepsBudget(s: State, d: Delivery, w: Setup, at: Clock, outcome: Outcome)
    requires Inv(s) && Sensible(w) && WithinBudget(s, w.maxAttempts) && d in s.delivered && WellAttempted(outcome)
    ensures WithinBudget(Settled(s, d, w, at, outcome).state, w.maxAttempts)
  {
    hide Inv, WithinBudget, AckStep, RetryStep, Answered, IsPending, RetryResult;
    if outcome.Answers? { AnswersKeepBudget(s, outcome.outputs, |outcome.outputs|, w, at); }
    var t := if outcome.Fails? then s else Answered(s, outcome.outputs, |outcome.outputs|, w, at).0;
    StepKeeps(t, AgentTransport.Acknowledge(d), w);
    StepKeeps(t, AgentTransport.Retry(d), w);
  }

  lemma SettlementKeepsBudget(s: State, d: Delivery, w: Setup, settlement: Settlement)
    requires Inv(s) && Sensible(w) && WithinBudget(s, w.maxAttempts) && d in s.delivered
    ensures var t := SettledBy(s, d, w, settlement);
            Inv(t) && WithinBudget(t, w.maxAttempts) && t.delivered == s.delivered
  {
    hide Inv, WithinBudget, AckStep, RetryStep;
    match settlement
    case Nothing =>
    case Acknowledges => StepKeeps(s, AgentTransport.Acknowledge(d), w);
    case Retries => StepKeeps(s, AgentTransport.Retry(d), w);
  }

  lemma IntrudeKeepsBudget(s: State, d: Delivery, w: Setup, rival: Rival)
    requires Inv(s) && Sensible(w) && WithinBudget(s, w.maxAttempts) && d in s.delivered
    ensures var t := Intrude(s, d, w, rival); Inv(t) && WithinBudget(t, w.maxAttempts) && d in t.delivered
  {
    hide Inv, WithinBudget, SettledBy, FindClaim;
    var c := d.message.letter.channel;
    var i := FindClaim(Get(s.pending, c), d.receipt);
    if !rival.Absent? && i < |Get(s.pending, c)| {
      StepKeeps(s, AgentTransport.Reclaim(c, i, rival.consumer, rival.at), w);
      var t, e := ReclaimStep(s, c, i, rival.consumer, rival.at), Again(Get(s.pending, c)[i].delivery, rival.consumer);
      assert t.delivered == s.delivered + [e];
      SettlementKeepsBudget(t, e, w, rival.settlement);
    }
  }

  /** A pass of a worker is made of transport steps, so the delivery bound survives it. */
  lemma PassKeepsBudget(s: State, w: Setup, at: Clock, rival: Rival, outcome: Outcome)
    requires Inv(s) && Sensible(w) && WithinBudget(s, w.maxAttempts) && WellAttempted(outcome)
    ensures WithinBudget(PassOf(s, w, at, rival, outcome).state, w.maxAttempts)
  {
    hide Inv, WithinBudget, ClaimStep, Claimed, RetryStep, RetryResult, Settled, Intrude;
    ClaimKeepsBudget(s, w, at);
    var t, claimed := ClaimStep(s, w, at), Claimed(s, w, at);
    if claimed.Ok? && claimed.value.Some? {
      var d := claimed.value.value;
      if d.count > w.maxAttempts {
        StepKeeps(t, AgentTransport.Retry(d), w);
      } else {
        IntrudeKeepsBudget(t, d, w, rival);
        SettledKeepsBudget(Intrude(t, d, w, rival), d, w, at, outcome);
      }
    }
  }

  lemma ClaimedIsPending(s: State, w: Setup, at: Clock)
    requires Sound(s) && Claimed(s, w, at).Ok? && Claimed(s, w, at).value.Some?
    ensures IsPending(ClaimStep(s, w, at), Claimed(s, w, at).value.value)
    ensures Claimed(s, w, at).value.value.message.letter.channel == w.endpoint
    ensures ClaimStep(s, w, at).acked == s.acked
  {
    hide FindClaim, Accepts, DeliveriesSound;
    var t, d := ClaimStep(s, w, at), Claimed(s, w, at).value.value;
    assert ClaimsFit(Get(s.pending, w.endpoint), w.endpoint, s.delivered)
        && Addressed(Get(s.queues, w.endpoint), w.endpoint);
    var claims, i := Get(s.pending, w.endpoint), FirstIdle(Get(s.pending, w.endpoint), w.idle, at.now);
    assert Get(t.pending, w.endpoint)[i].delivery == d;
    hide ClaimStep, Claimed, Sound, FirstIdle;
  }

  lemma {:induction false} AnswersKeepClaims(s: State, outputs: seq<Answer>, k: nat, w: Setup, at: Clock)
    requires w.capacity >= 1 && k <= |outputs|
    ensures var t := Answered(s, outputs, k, w, at).0; t.pending == s.pending && t.acked == s.acked
  {
    hide PublishResult, Purged, Evicted, Keys, Accepts;
    if k > 0 {
      AnswersKeepClaims(s, outputs, k - 1, w, at);
    }
  }

  /** Settling a pending claim does what its result says, and the claim is gone. */
  lemma AckSettles(s: State, d: Delivery, w: Setup)
    requires Sound(s) && Sensible(w) && d in s.delivered && IsPending(s, d)
    ensures var t := AckStep(s, d); !IsPending(t, d) && t.acked == s.acked + multiset{d.message.letter}
  {
    var c := d.message.letter.channel;
    var i := FindClaim(Get(s.pending, c), d.receipt);
    assert Get(s.pending, c)[i].delivery.receipt == d.receipt;
    ConsumedIsGone(s, AgentTransport.Acknowledge(d), LimitsOf(w), d.receipt);
    hide FindClaim, Sound;
  }

  lemma RetrySettles(s: State, d: Delivery, w: Setup)
    requires Sound(s) && Sensible(w) && d in s.delivered && IsPending(s, d)
    ensures var (t, c) := (RetryStep(s, d, w.maxAttempts, w.capacity), d.message.letter.channel);
            && !IsPending(t, d) && t.acked == s.acked
            && (RetryResult(s, d, w.maxAttempts) == Ok(Retried) ==>
                  Get(t.queues, c) == Get(s.queues, c) + [d.message.(attempt := d.message.attempt + 1)])
            && (RetryResult(s, d, w.maxAttempts) == Ok(DeadLettered) ==>
                  Get(t.dead, c) != [] && Get(t.dead, c)[|Get(t.dead, c)| - 1] == d.message)
  {
    var c := d.message.letter.channel;
    var i := FindClaim(Get(s.pending, c), d.receipt);
    assert Get(s.pending, c)[i].delivery.receipt == d.receipt;
    ConsumedIsGone(s, AgentTransport.Retry(d), LimitsOf(w), d.receipt);
    hide FindClaim, Sound;
  }

  /** With a pending claim the result of settling is what happened to it. */
  lemma SettledMeaning(s: State, d: Delivery, w: Setup, at: Clock, outcome: Outcome)
    requires Inv(s) && WithinBudget(s, w.maxAttempts) && Sensible(w) && WellAttempted(outcome)
    requires d in s.delivered && IsPending(s, d)
    ensures var (p, c) := (Settled(s, d, w, at, outcome), d.message.letter.channel);
            && !IsPending(p.state, d) && p.result.Ok?
            && (p.result.value == Acked ==> outcome.Answers? && p.state.acked == s.acked + multiset{d.message.letter})
            && (p.result.value != Acked ==> p.state.acked == s.acked && RequeuedOrBuried(p, d))
  {
    hide Inv, WithinBudget, AckStep, RetryStep, FindClaim, Answered;
    if outcome.Answers? {
      AnswersKeepBudget(s, outcome.outputs, |outcome.outputs|, w, at);
      AnswersKeepClaims(s, outcome.outputs, |outcome.outputs|, w, at);
    }
    var t := if outcome.Fails? then s else Answered(s, outcome.outputs, |outcome.outputs|, w, at).0;
    assert IsPending(t, d);
    SoundPart(t);
    hide IsPending, RetryResult;
    AckSettles(t, d, w);
    RetrySettles(t, d, w);
    RetryIsOk(t, d, w.maxAttempts);
  }

  lemma SoundPart(s: State)
    requires Inv(s)
    ensures Sound(s)
  {}

  lemma RetryIsOk(s: State, d: Delivery, maxAttempts: nat)
    requires IsPending(s, d)
    ensures RetryResult(s, d, maxAttempts) == Ok(Retried) || RetryResult(s, d, maxAttempts) == Ok(DeadLettered)
  {}

  /** `Retried` puts the next attempt at the end of the queue, `DeadLettered` the message at the end
      of the dead letters. */
  ghost predicate RequeuedOrBuried(p: Pass, d: Delivery) {
    var (q, dead) := (Get(p.state.queues, d.message.letter.channel), Get(p.state.dead, d.message.letter.channel));
    && (p.result == Ok(Retried) ==> q != [] && q[|q| - 1] == d.message.(attempt := d.message.attempt + 1))
    && (p.result == Ok(DeadLettered) ==> dead != [] && dead[|dead| - 1] == d.message)
    && (p.result == Ok(Retried) || p.result == Ok(DeadLettered))
  }

  /** What a pass comes to: nothing to do, a refused message, or a claim that is settled as the result
      says, also when a rival only took it over; when a rival settled it, the result is a retry or an
      error. */
  lemma PassMeaning(s: State, w: Setup, at: Clock, rival: Rival, outcome: Outcome)
    requires Inv(s) && WithinBudget(s, w.maxAttempts) && Sensible(w) && WellAttempted(outcome)
    ensures var (p, claimed) := (PassOf(s, w, at, rival, outcome), Claimed(s, w, at));
            && (p.result == Ok(Idle) <==> claimed == Ok(None))
            && (claimed == Ok(None) ==> p.state == s)
            && (p.handled.Some? <==> claimed.Ok? && claimed.value.Some? && claimed.value.value.count <= w.maxAttempts)
            && (claimed.Ok? && claimed.value.Some? ==>
                  var d := claimed.value.value;
                  && (p.handled.Some? ==> p.handled.value == d)
                  && (p.handled.None? ==> p.result == Ok(DeadLettered))
                  && (p.handled.None? || LeavesClaim(rival) ==>
                        && !IsPending(p.state, d)
                        && (p.result == Ok(Acked) ==> p.state.acked == s.acked + multiset{d.message.letter})
                        && (p.result != Ok(Acked) ==> p.state.acked == s.acked && RequeuedOrBuried(p, d)))
                  && (p.handled.Some? && !LeavesClaim(rival) ==>
                        p.result == Ok(Retried) || p.result == Err(NotPending)))
  {
    hide Inv, WithinBudget, ClaimStep, Claimed, RetryStep, AckStep, IsPending, RetryResult, Settled, Intrude;
    SoundPart(s);
    ClaimKeepsBudget(s, w, at);
    var t, claimed := ClaimStep(s, w, at), Claimed(s, w, at);
    if claimed == Ok(None) { NothingClaimed(s, w, at); }
    if claimed.Ok? && claimed.value.Some? {
      var d := claimed.value.value;
      ClaimedIsPending(s, w, at);
      SoundPart(t);
      if d.count > w.maxAttempts {
        RetrySettles(t, d, w);
        OverLimit(t, d, w.maxAttempts);
      } else if LeavesClaim(rival) {
        ClaimStays(t, d, w, rival);
        IntrudeKeepsBudget(t, d, w, rival);
        SettledMeaning(Intrude(t, d, w, rival), d, w, at, outcome);
      } else {
        RivalSettles(t, d, w, at, rival, outcome);
      }
      SettledHandles(Intrude(t, d, w, rival), d, w, at, outcome);
    }
  }

  lemma SettledHandles(s: State, d: Delivery, w: Setup, at: Clock, outcome: Outcome)
    requires Sensible(w)
    ensures Settled(s, d, w, at, outcome).handled == Some(d) && Settled(s, d, w, at, outcome).result != Ok(Idle)
  {
    hide Answered, AckStep, RetryStep, IsPending;
  }

  lemma OverLimit(s: State, d: Delivery, maxAttempts: nat)
    requires IsPending(s, d) && d.count > maxAttempts
    ensures RetryResult(s, d, maxAttempts) == Ok(DeadLettered)
  {}

  lemma NothingClaimed(s: State, w: Setup, at: Clock)
    requires Claimed(s, w, at) == Ok(None)
    ensures ClaimStep(s, w, at) == s
  {}

  /** A reclaimed claim keeps its receipt, so both deliveries find it. */
  lemma ReclaimedIsPending(s: State, d: Delivery, consumer: nat, now: int)
    requires Sound(s) && d in s.delivered && IsPending(s, d)
    ensures var c := d.message.letter.channel;
            var i := FindClaim(Get(s.pending, c), d.receipt);
            var (t, e) := (ReclaimStep(s, c, i, consumer, now), Again(Get(s.pending, c)[i].delivery, consumer));
            && Sound(t) && IsPending(t, d) && IsPending(t, e) && t.acked == s.acked
            && t.delivered == s.delivered + [e] && e.receipt == d.receipt && e.message == d.message
  {
    hide Addressed, ClaimsFit, DeliveriesSound;
    var c := d.message.letter.channel;
    var i := FindClaim(Get(s.pending, c), d.receipt);
    FoundMessage(s, d);
    ReclaimKeepsSound(s, c, i, consumer, now);
    hide Sound;
    var t := ReclaimStep(s, c, i, consumer, now);
    assert Get(t.pending, c)[i].delivery.receipt == d.receipt;
  }

  lemma ClaimStays(s: State, d: Delivery, w: Setup, rival: Rival)
    requires Sound(s) && d in s.delivered && IsPending(s, d) && LeavesClaim(rival)
    ensures IsPending(Intrude(s, d, w, rival), d) && Intrude(s, d, w, rival).acked == s.acked
  {
    hide Sound, FindClaim, ReclaimStep;
    if !rival.Absent? { ReclaimedIsPending(s, d, rival.consumer, rival.at); }
  }

  /** After the rival has settled the claim, nobody has it any more. */
  lemma SettledByRival(s: State, d: Delivery, w: Setup, rival: Rival)
    requires Sound(s) && Sensible(w) && d in s.delivered && IsPending(s, d) && !LeavesClaim(rival)
    ensures !IsPending(Intrude(s, d, w, rival), d)
  {
    var c := d.message.letter.channel;
    var i := FindClaim(Get(s.pending, c), d.receipt);
    var t, e := ReclaimStep(s, c, i, rival.consumer, rival.at), Again(Get(s.pending, c)[i].delivery, rival.consumer);
    hide Sound, FindClaim, ReclaimStep, AckStep, RetryStep;
    ReclaimedIsPending(s, d, rival.consumer, rival.at);
    AckSettles(t, e, w);
    RetrySettles(t, e, w);
  }

  lemma RivalSettles(s: State, d: Delivery, w: Setup, at: Clock, rival: Rival, outcome: Outcome)
    requires Sound(s) && Sensible(w) && d in s.delivered && IsPending(s, d) && !LeavesClaim(rival)
    ensures var r := Settled(Intrude(s, d, w, rival), d, w, at, outcome).result;
            r == Ok(Retried) || r == Err(NotPending)
  {
    hide Sound, AckStep, RetryStep, FindClaim, Answered, Intrude;
    var t := Intrude(s, d, w, rival);
    SettledByRival(s, d, w, rival);
    if outcome.Answers? { AnswersKeepClaims(t, outcome.outputs, |outcome.outputs|, w, at); }
  }
}
