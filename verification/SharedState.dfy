/** Optimistic, role-scoped shared state (agent_shared_state.py): the role and phase tables, and
    concurrent writers that read, build an update and store it by compare-and-set on the revision. */
module SharedState {
  import opened Basics

  datatype Actor = Supervisor | IntentAgent | SearchAgent | SafetyAgent | Planner | Critic | Companion

  datatype Field =
    | UserRequirement | ClarificationQuestions | PoiCandidates | RoutePlan | EvaluationResult | SoftAdjustments
        | ExecutionContext

  datatype Phase =
    | Initialized | IntentReady | SearchReady | SafetyReady | PlanReady | Reviewed | Retrying | Finalized | InTrip
        | Completed | FailedPhase

  datatype Action =
    | IntentAnalyzed | SearchCompleted | SafetyChecked | PlanCompleted | CriticReviewed | SoftRetryScheduled
    | RecoveryApplied | WorkflowFinalized | WorkflowFailed | TripStarted | TripEventProcessed | TripCompleted

  function WriteFields(actor: Actor): set<Field> {
    match actor
    case Supervisor => {SoftAdjustments, ExecutionContext}
    case IntentAgent => {UserRequirement, ClarificationQuestions}
    case SearchAgent => {PoiCandidates}
    case SafetyAgent => {ExecutionContext}
    case Planner => {RoutePlan}
    case Critic => {EvaluationResult}
    case Companion => {ExecutionContext}
  }

  function ActionPhase(action: Action): Phase {
    match action
    case IntentAnalyzed => IntentReady
    case SearchCompleted => SearchReady
    case SafetyChecked => SafetyReady
    case PlanCompleted => PlanReady
    case CriticReviewed => Reviewed
    case SoftRetryScheduled => Retrying
    case RecoveryApplied => Retrying
    case WorkflowFinalized => Finalized
    case WorkflowFailed => FailedPhase
    case TripStarted => InTrip
    case TripEventProcessed => InTrip
    case TripCompleted => Completed
  }

  function ActionActor(action: Action): Actor {
    match action
    case IntentAnalyzed => IntentAgent
    case SearchCompleted => SearchAgent
    case SafetyChecked => SafetyAgent
    case PlanCompleted => Planner
    case CriticReviewed => Critic
    case SoftRetryScheduled | RecoveryApplied | WorkflowFinalized | WorkflowFailed => Supervisor
    case TripStarted | TripEventProcessed | TripCompleted => Companion
  }

  function AllowedTransitions(phase: Phase): set<Phase> {
    match phase
    case Initialized => {IntentReady, PlanReady, Retrying, FailedPhase}
    case IntentReady => {SearchReady, Retrying, Finalized, FailedPhase}
    case SearchReady => {SafetyReady, PlanReady, Retrying, FailedPhase}
    case SafetyReady => {PlanReady, Retrying, FailedPhase}
    case PlanReady => {Reviewed, Retrying, Finalized, InTrip, FailedPhase}
    case Reviewed => {Retrying, Finalized, FailedPhase}
    case Retrying => {Retrying, SearchReady, PlanReady, FailedPhase}
    case Finalized => {InTrip, Completed}
    case InTrip => {InTrip, Completed, FailedPhase}
    case Completed => {}
    case FailedPhase => {}
  }

  /** The value of a field; the last two parts matter for the route plan only. */
  datatype Content = Content(body: nat, success: bool, planVersion: int)

  datatype Cause = Created | Refreshed | Acted(actor: Actor, action: Action)

  datatype Entry = Entry(revision: nat, cause: Cause, changed: set<Field>)

  datatype Doc = Doc(fields: map<Field, Content>, revision: nat, phase: Phase, history: seq<Entry>)

  datatype StateError = AccessDenied | NotFound | Conflict | Unstorable

  function PlanVersion(fields: map<Field, Content>): int {
    if RoutePlan in fields then fields[RoutePlan].planVersion else 0
  }

  /** The newest `n` entries. */
  function Newest(s: seq<Entry>, n: nat): seq<Entry> { if |s| > n then s[|s| - n..] else s }

  function Initial(plan: Option<Content>): Doc {
    var fields := if plan.Some? then map[RoutePlan := plan.value] else map[];
    Doc(fields, 0, if plan.Some? then PlanReady else Initialized, [Entry(0, Created, fields.Keys)])
  }

  /** Update request of a role; `storable` is false when the sealed document breaks its schema or byte limit. */
  datatype Request = Request(actor: Actor, action: Action, expected: nat, changes: map<Field, Content>, storable: bool)

  /** The document an update would store, from the one it read. */
  function Updated(current: Doc, r: Request, maxHistory: nat): Result<Doc, StateError> {
    if ActionActor(r.action) != r.actor || !(r.changes.Keys <= WriteFields(r.actor)) then Err(AccessDenied)
    else if current.revision != r.expected then Err(Conflict)
    else if ActionPhase(r.action) !in AllowedTransitions(current.phase) then Err(AccessDenied)
    else if !r.storable then Err(Unstorable)
    else
      var entry := Entry(r.expected + 1, Acted(r.actor, r.action), r.changes.Keys);
      Ok(Doc(current.fields + r.changes, r.expected + 1, ActionPhase(r.action),
          Newest(current.history + [entry], maxHistory)))
  }

  /** A formal plan refresh: `Ok(current)` when the plan is already the stored one. */
  function Refresh(current: Doc, expected: nat, plan: Content, storable: bool,
      maxHistory: nat): Result<Doc, StateError> {
    if !plan.success then Err(AccessDenied)
    else if current.revision != expected then Err(Conflict)
    else if plan.planVersion < PlanVersion(current.fields) then Err(AccessDenied)
    else if RoutePlan in current.fields && current.fields[RoutePlan] == plan then Ok(current)
    else if !storable then Err(Unstorable)
    else
      var entry := Entry(expected + 1, Refreshed, {RoutePlan});
      Ok(Doc(current.fields[RoutePlan := plan], expected + 1, current.phase,
          Newest(current.history + [entry], maxHistory)))
  }

  // -------------------------------------------------------------- concurrent writers

  /** What a writer read, and in which lifetime of the key. */
  datatype Reading = Reading(doc: Doc, lifetime: nat)

  /** One task's key. `docs` and `log` are the history of its current lifetime; `foreign` is set once a
      writer stores an update built on a document of an earlier lifetime. */
  datatype State = State(
    cell: Option<Doc>,
    readers: map<nat, Reading>,
    lifetime: nat,
    docs: seq<Doc>,
    log: seq<Entry>,
    foreign: bool)

  const EMPTY := State(None, map[], 0, [], [], false)

  datatype Step =
    | Initialize(seed: Option<Content>)
    | Lapse
    | Read(writer: nat)
    | Update(writer: nat, request: Request)
    | Sync(writer: nat, expected: nat, plan: Content, storable: bool)
    | Abandon(writer: nat)

  predicate Enabled(s: State, e: Step) {
    match e
    case Initialize(plan) => plan.Some? ==> plan.value.success
    case Lapse => true
    case Read(w) => w !in s.readers && s.cell.Some?
    case Update(w, _) => w in s.readers
    case Sync(w, _, _, _) => w in s.readers
    case Abandon(w) => w in s.readers
  }

  /** What a writer tries to store. */
  function Proposal(s: State, e: Step, maxHistory: nat): Result<Doc, StateError>
    requires (e.Update? || e.Sync?) && e.writer in s.readers
  {
    var doc := s.readers[e.writer].doc;
    if e.Update? then Updated(doc, e.request, maxHistory) else Refresh(doc, e.expected, e.plan, e.storable, maxHistory)
  }

  function Expected(e: Step): nat
    requires e.Update? || e.Sync?
  {
    if e.Update? then e.request.expected else e.expected
  }

  /** The compare-and-set goes through: there is something new to store and the stored revision is the
      one the writer expects. */
  predicate Wins(s: State, e: Step, maxHistory: nat) {
    && (e.Update? || e.Sync?) && e.writer in s.readers
    && var p := Proposal(s, e, maxHistory);
    && p.Ok? && p.value != s.readers[e.writer].doc
    && s.cell.Some? && s.cell.value.revision == Expected(e)
  }

  function EntryOf(e: Step): Entry
    requires e.Update? || e.Sync?
  {
    if e.Update? then Entry(e.request.expected + 1, Acted(e.request.actor, e.request.action), e.request.changes.Keys)
    else Entry(e.expected + 1, Refreshed, {RoutePlan})
  }

  function Next(s: State, e: Step, maxHistory: nat): State
    requires Enabled(s, e)
  {
    match e
    case Initialize(plan) =>
      if s.cell.Some? then s
      else s.(cell := Some(Initial(plan)), docs := [Initial(plan)], log := Initial(plan).history)
    case Lapse => State(None, s.readers, s.lifetime + 1, [], [], false)
    case Read(w) => s.(readers := s.readers[w := Reading(s.cell.value, s.lifetime)])
    case Abandon(w) => s.(readers := s.readers - {w})
    case _ =>
      var me := s.readers[e.writer];
      var left := s.(readers := s.readers - {e.writer});
      if !Wins(s, e, maxHistory) then left
      else
        var doc := Proposal(s, e, maxHistory).value;
        left.(cell := Some(doc), docs := s.docs + [doc], log := s.log + [EntryOf(e)],
              foreign := s.foreign || me.lifetime != s.lifetime)
  }

  ghost predicate Execution(trace: seq<State>, steps: seq<Step>, maxHistory: nat) {
    && 1 <= maxHistory <= 200 && |trace| == |steps| + 1 && trace[0] == EMPTY
    && forall i :: 0 <= i < |steps| ==>
         Enabled(trace[i], steps[i]) && trace[i + 1] == Next(trace[i], steps[i], maxHistory)
  }

  // ------------------------------------------------------------------- lawful writes

  /** Fields outside `changed` are as before. */
  ghost predicate Frame(before: Doc, after: Doc, changed: set<Field>) {
    forall f :: f !in changed ==>
                  (f in before.fields <==> f in after.fields)
                      && (f in before.fields ==> after.fields[f] == before.fields[f])
  }

  /** One write, as the tables allow it. */
  ghost predicate Lawful(before: Doc, after: Doc, entry: Entry) {
    && after.revision == before.revision + 1 == entry.revision
    && Frame(before, after, entry.changed)
    && match entry.cause
       case Created => false
       case Acted(actor, action) =>
         && actor == ActionActor(action) && entry.changed <= WriteFields(actor)
         && after.phase == ActionPhase(action) && after.phase in AllowedTransitions(before.phase)
       case Refreshed =>
         && entry.changed == {RoutePlan} && after.phase == before.phase
         && RoutePlan in after.fields && after.fields[RoutePlan].success
         && PlanVersion(before.fields) <= PlanVersion(after.fields)
  }

  /** Consecutive revisions, each document carrying the newest log entries. */
  ghost predicate Numbered(docs: seq<Doc>, log: seq<Entry>, maxHistory: nat) {
    && |log| == |docs|
    && (forall i :: 0 <= i < |docs| ==>
          docs[i].revision == i && log[i].revision == i && docs[i].history == Newest(log[..i + 1], maxHistory))
  }

  /** Every write obeyed the tables. */
  ghost predicate Ruled(docs: seq<Doc>, log: seq<Entry>) {
    && |log| == |docs|
    && forall i :: 0 < i < |docs| ==> Lawful(docs[i - 1], docs[i], log[i])
  }

  ghost predicate Chain(docs: seq<Doc>, log: seq<Entry>, maxHistory: nat) {
    Numbered(docs, log, maxHistory) && Ruled(docs, log)
  }

  /** The lifetime's documents carry consecutive revisions; the last one is stored. */
  ghost predicate Counted(s: State) {
    && s.cell.Some? && |s.docs| > 0 && s.cell.value == s.docs[|s.docs| - 1]
    && forall i :: 0 <= i < |s.docs| ==> s.docs[i].revision == i
  }

  /** Whoever read in this lifetime holds one of its documents; without foreign writes those form a
      chain of lawful writes. */
  ghost predicate Inv(s: State, maxHistory: nat) {
    && (s.cell.None? ==> s.docs == [] && s.log == [] && !s.foreign)
    && (s.cell.Some? ==> Counted(s))
    && (s.cell.Some? && !s.foreign ==> Chain(s.docs, s.log, maxHistory))
    && (forall w :: w in s.readers ==> s.readers[w].lifetime <= s.lifetime)
    && (forall w :: w in s.readers && s.readers[w].lifetime == s.lifetime ==>
          && s.readers[w].doc.revision < |s.docs| && s.docs[s.readers[w].doc.revision] == s.readers[w].doc)
  }

  lemma ProposalLawful(s: State, e: Step, maxHistory: nat)
    requires Wins(s, e, maxHistory) && maxHistory >= 1
    ensures var (doc, p) := (s.readers[e.writer].doc, Proposal(s, e, maxHistory).value);
            && Lawful(doc, p, EntryOf(e)) && doc.revision == Expected(e)
            && p.history == Newest(doc.history + [EntryOf(e)], maxHistory)
  {}

  lemma NewestExtends(log: seq<Entry>, entry: Entry, n: nat)
    requires n >= 1
    ensures Newest(Newest(log, n) + [entry], n) == Newest(log + [entry], n)
  {}

  lemma NumberedExtends(docs: seq<Doc>, log: seq<Entry>, doc: Doc, entry: Entry, maxHistory: nat)
    requires Numbered(docs, log, maxHistory) && |docs| > 0 && maxHistory >= 1
    requires doc.revision == docs[|docs| - 1].revision + 1 == entry.revision
    requires doc.history == Newest(docs[|docs| - 1].history + [entry], maxHistory)
    ensures Numbered(docs + [doc], log + [entry], maxHistory)
  {
    NewestExtends(log, entry, maxHistory);
    assert log[..|docs|] == log;
    hide Newest;
    var entries := log + [entry];
    forall i | 0 <= i < |docs + [doc]|
      ensures (docs + [doc])[i].history == Newest(entries[..i + 1], maxHistory)
    {
      assert entries[..i + 1] == if i < |docs| then log[..i + 1] else entries;
    }
  }

  lemma RuledExtends(docs: seq<Doc>, log: seq<Entry>, doc: Doc, entry: Entry)
    requires Ruled(docs, log) && |docs| > 0 && Lawful(docs[|docs| - 1], doc, entry)
    ensures Ruled(docs + [doc], log + [entry])
  {
    hide Lawful;
  }

  lemma ChainExtends(docs: seq<Doc>, log: seq<Entry>, doc: Doc, entry: Entry, maxHistory: nat)
    requires Chain(docs, log, maxHistory) && |docs| > 0 && maxHistory >= 1
    requires Lawful(docs[|docs| - 1], doc, entry)
    requires doc.history == Newest(docs[|docs| - 1].history + [entry], maxHistory)
    ensures Chain(docs + [doc], log + [entry], maxHistory)
  {
    assert doc.revision == docs[|docs| - 1].revision + 1 == entry.revision;
    hide Lawful, Newest, Numbered, Ruled;
    NumberedExtends(docs, log, doc, entry, maxHistory);
    RuledExtends(docs, log, doc, entry);
  }

  lemma WinKeepsChain(s: State, e: Step, maxHistory: nat)
    requires Inv(s, maxHistory) && Wins(s, e, maxHistory) && maxHistory >= 1
    requires !s.foreign && s.readers[e.writer].lifetime == s.lifetime
    ensures var t := Next(s, e, maxHistory); Chain(t.docs, t.log, maxHistory)
  {
    ProposalLawful(s, e, maxHistory);
    assert s.readers[e.writer].doc == s.docs[|s.docs| - 1];
    hide Proposal, Lawful, Newest, Chain;
    ChainExtends(s.docs, s.log, Proposal(s, e, maxHistory).value, EntryOf(e), maxHistory);
  }

  lemma CreationStartsChain(s: State, seed: Option<Content>, maxHistory: nat)
    requires s.cell.None? && Enabled(s, Initialize(seed)) && maxHistory >= 1
    ensures var t := Next(s, Initialize(seed), maxHistory); Counted(t) && Chain(t.docs, t.log, maxHistory)
  {}

  /** The writer's document is of the current lifetime. */
  ghost predicate SameLifetime(s: State, e: Step) {
    (e.Update? || e.Sync?) && e.writer in s.readers && s.readers[e.writer].lifetime == s.lifetime
  }

  lemma StepKeepsInv(s: State, e: Step, maxHistory: nat)
    requires Inv(s, maxHistory) && Enabled(s, e) && maxHistory >= 1
    ensures Inv(Next(s, e, maxHistory), maxHistory)
  {
    hide Proposal, Lawful, Chain, Wins;
    if e.Initialize? && s.cell.None? {
      CreationStartsChain(s, e.seed, maxHistory);
    } else if Wins(s, e, maxHistory) {
      WinExtends(s, e, maxHistory);
      if !s.foreign && SameLifetime(s, e) { WinKeepsChain(s, e, maxHistory); }
    }
  }

  lemma WinExtends(s: State, e: Step, maxHistory: nat)
    requires Wins(s, e, maxHistory) && Enabled(s, e)
    ensures var t := Next(s, e, maxHistory);
            && t.cell.Some? && t.docs == s.docs + [t.cell.value]
            && s.cell.Some? && t.cell.value.revision == s.cell.value.revision + 1
  {}

  lemma {:induction false} RunKeepsInv(trace: seq<State>, steps: seq<Step>, maxHistory: nat, i: nat)
    requires Execution(trace, steps, maxHistory) && i < |trace|
    ensures Inv(trace[i], maxHistory)
  {
    if i == 0 {
    } else {
      hide Next, Inv;
      RunKeepsInv(trace, steps, maxHistory, i - 1);
      StepKeepsInv(trace[i - 1], steps[i - 1], maxHistory);
    }
  }

  /** A writer of the current lifetime that wins held the stored document, not just its revision. */
  lemma WinnerReadCurrent(trace: seq<State>, steps: seq<Step>, maxHistory: nat, i: nat)
    requires Execution(trace, steps, maxHistory) && i < |steps| && Wins(trace[i], steps[i], maxHistory)
    requires SameLifetime(trace[i], steps[i])
    ensures trace[i].cell == Some(trace[i].readers[steps[i].writer].doc)
  {
    hide Next, Chain, Enabled;
    RunKeepsInv(trace, steps, maxHistory, i);
    ProposalLawful(trace[i], steps[i], maxHistory);
  }

  /** When a winning write obeys the tables against the document it replaces: the document the writer
      held agrees with the stored one outside the fields it changes, an update's phase may follow the
      stored phase, and a refresh finds the phase it held and no newer plan. */
  lemma WinIsLawfulIff(s: State, e: Step, maxHistory: nat)
    requires Wins(s, e, maxHistory) && maxHistory >= 1
    ensures var (cell, held) := (s.cell.value, s.readers[e.writer].doc);
            Lawful(cell, Proposal(s, e, maxHistory).value, EntryOf(e)) <==>
            && Frame(cell, held, EntryOf(e).changed)
            && if e.Update? then ActionPhase(e.request.action) in AllowedTransitions(cell.phase)
               else held.phase == cell.phase && PlanVersion(cell.fields) <= e.plan.planVersion
  {
    FrameThrough(s, e, maxHistory);
    hide Frame, AllowedTransitions, WriteFields, ActionPhase, ActionActor, Newest;
  }

  /** What a write leaves alone against the stored document is what the held document shares with it. */
  lemma FrameThrough(s: State, e: Step, maxHistory: nat)
    requires Wins(s, e, maxHistory)
    ensures Frame(s.cell.value, Proposal(s, e, maxHistory).value, EntryOf(e).changed) <==>
            Frame(s.cell.value, s.readers[e.writer].doc, EntryOf(e).changed)
  {
    hide AllowedTransitions, WriteFields, ActionPhase, ActionActor, Newest;
    var held, p := s.readers[e.writer].doc, Proposal(s, e, maxHistory).value;
    assert Frame(held, p, EntryOf(e).changed);
  }

  /** In any run a winner that read in the current lifetime obeys the tables. */
  lemma SameLifetimeIsLawful(trace: seq<State>, steps: seq<Step>, maxHistory: nat, i: nat)
    requires Execution(trace, steps, maxHistory) && i < |steps| && Wins(trace[i], steps[i], maxHistory)
    requires SameLifetime(trace[i], steps[i])
    ensures Lawful(trace[i].cell.value, Proposal(trace[i], steps[i], maxHistory).value, EntryOf(steps[i]))
  {
    WinnerReadCurrent(trace, steps, maxHistory, i);
    ProposalLawful(trace[i], steps[i], maxHistory);
  }

  lemma {:induction false} RevisionsGrow(trace: seq<State>, steps: seq<Step>, maxHistory: nat, i: nat, j: nat)
    requires Execution(trace, steps, maxHistory) && i <= j < |trace| && trace[i].cell.Some?
            && trace[j].lifetime == trace[i].lifetime
    ensures trace[j].cell.Some? && trace[i].cell.value.revision <= trace[j].cell.value.revision
    decreases j
  {
    if i < j {
      LifetimesGrow(trace, steps, maxHistory, i, j - 1);
      StepGrows(trace[j - 1], steps[j - 1], maxHistory);
      hide Next;
      RevisionsGrow(trace, steps, maxHistory, i, j - 1);
    }
  }

  lemma {:induction false} LifetimesGrow(trace: seq<State>, steps: seq<Step>, maxHistory: nat, i: nat, j: nat)
    requires Execution(trace, steps, maxHistory) && i <= j < |trace|
    ensures trace[i].lifetime <= trace[j].lifetime
    decreases j
  {
    if i < j {
      LifetimesGrow(trace, steps, maxHistory, i, j - 1);
      StepGrows(trace[j - 1], steps[j - 1], maxHistory);
      hide Next;
    }
  }

  lemma StepGrows(s: State, e: Step, maxHistory: nat)
    requires Enabled(s, e)
    ensures var t := Next(s, e, maxHistory);
            && s.lifetime <= t.lifetime
            && (t.lifetime == s.lifetime && s.cell.Some? ==>
                 t.cell.Some? && s.cell.value.revision <= t.cell.value.revision)
            && (Wins(s, e, maxHistory) ==>
                 t.cell.Some? && t.cell.value.revision == Expected(e) + 1 && t.lifetime == s.lifetime)
  {}

  /** Of all writers expecting the same revision in one lifetime, at most one wins. */
  lemma OneWinner(trace: seq<State>, steps: seq<Step>, maxHistory: nat, i: nat, j: nat)
    requires Execution(trace, steps, maxHistory) && i < j < |steps| && trace[i].lifetime == trace[j].lifetime
    requires Wins(trace[i], steps[i], maxHistory) && Wins(trace[j], steps[j], maxHistory)
    ensures Expected(steps[i]) < Expected(steps[j])
  {
    StepGrows(trace[i], steps[i], maxHistory);
    hide Next, Proposal;
    RevisionsGrow(trace, steps, maxHistory, i + 1, j);
  }

  /** Completed and failed documents accept no role update; only a plan refresh can still change them. */
  lemma TerminalPhasesClosed(s: State, e: Step, maxHistory: nat)
    requires Wins(s, e, maxHistory) && s.readers[e.writer].doc.phase in {Completed, FailedPhase}
    ensures e.Sync? && Proposal(s, e, maxHistory).value.phase == s.readers[e.writer].doc.phase
  {}

  /** A winning write built on a document of an earlier lifetime. */
  ghost predicate Crosses(s: State, e: Step, maxHistory: nat) {
    Wins(s, e, maxHistory) && s.readers[e.writer].lifetime != s.lifetime
  }

  lemma StepForeign(s: State, e: Step, maxHistory: nat)
    requires Enabled(s, e)
    ensures var t := Next(s, e, maxHistory);
            && (e.Lapse? ==> t.lifetime > s.lifetime && !t.foreign && !Crosses(s, e, maxHistory))
            && (!e.Lapse? ==> t.lifetime == s.lifetime && (s.cell.None? && !s.foreign ==> !t.foreign)
                              && (t.foreign <==> s.foreign || Crosses(s, e, maxHistory)))
  {}

  /** Step `j` made the lifetime of state `i` foreign. */
  ghost predicate CrossedAt(trace: seq<State>, steps: seq<Step>, maxHistory: nat, i: nat, j: nat) {
    j < i < |trace| && j < |steps| && trace[j + 1].lifetime == trace[i].lifetime
        && Crosses(trace[j], steps[j], maxHistory)
  }

  /** A lifetime is foreign exactly when some write in it crossed over from an earlier lifetime: if no
      writer holds on to a document past its expiry, every lifetime is lawful. */
  lemma {:induction false} ForeignIff(trace: seq<State>, steps: seq<Step>, maxHistory: nat, i: nat)
    requires Execution(trace, steps, maxHistory) && i < |trace|
    ensures trace[i].foreign <==> exists j :: CrossedAt(trace, steps, maxHistory, i, j)
  {
    if i > 0 {
      var s, e, t := trace[i - 1], steps[i - 1], trace[i];
      assert Enabled(s, e) && t == Next(s, e, maxHistory);
      StepForeign(s, e, maxHistory);
      ForeignIff(trace, steps, maxHistory, i - 1);
      if e.Lapse? {
        forall j: nat
          ensures !CrossedAt(trace, steps, maxHistory, i, j)
        {
          if j < i - 1 { LifetimesGrow(trace, steps, maxHistory, j + 1, i - 1); }
        }
      } else {
        hide Next, Crosses, Execution, Enabled;
        assert CrossedAt(trace, steps, maxHistory, i, i - 1) <==> Crosses(s, e, maxHistory);
        var k: nat := i - 1;
        if j :| CrossedAt(trace, steps, maxHistory, k, j) {
          assert CrossedAt(trace, steps, maxHistory, i, j);
        }
        if j :| CrossedAt(trace, steps, maxHistory, i, j) {
          assert j == k || CrossedAt(trace, steps, maxHistory, k, j);
        }
      }
    }
  }

  /** In every lifetime that no write crosses into: the revision counts the successful writes since
      creation, the history is the newest part of the full log, entries are numbered consecutively up to
      the revision, and every write obeyed the tables. */
  lemma LifetimeIsLawful(trace: seq<State>, steps: seq<Step>, maxHistory: nat, i: nat)
    requires Execution(trace, steps, maxHistory) && i < |trace| && trace[i].cell.Some?
    requires forall j :: !CrossedAt(trace, steps, maxHistory, i, j)
    ensures var (s, doc) := (trace[i], trace[i].cell.value);
            && |s.docs| == |s.log| && doc.revision == |s.log| - 1 && doc.history == Newest(s.log, maxHistory)
            && (forall k :: 0 <= k < |doc.history| ==>
                 doc.history[k].revision == doc.revision - (|doc.history| - 1 - k))
            && (forall k :: 0 < k < |s.docs| ==> Lawful(s.docs[k - 1], s.docs[k], s.log[k]))
            && doc == s.docs[doc.revision]
  {
    hide Next, Lawful, CrossedAt;
    ForeignIff(trace, steps, maxHistory, i);
    RunKeepsInv(trace, steps, maxHistory, i);
    assert trace[i].log[..|trace[i].log|] == trace[i].log;
  }

  // A companion reads a planned trip; the key lapses and is initialized again without a plan.
  const SOME_PLAN := Content(7, true, 1)

  const START_TRIP := Request(Companion, TripStarted, 0, map[], true)

  const PLANNED := Doc(map[RoutePlan := SOME_PLAN], 0, PlanReady, [Entry(0, Created, {RoutePlan})])

  const BLANK := Doc(map[], 0, Initialized, [Entry(0, Created, {})])

  const STALE := State(Some(BLANK), map[0 := Reading(PLANNED, 0)], 1, [BLANK], BLANK.history, false)

  lemma StaleIsReachable() returns (steps: seq<Step>, trace: seq<State>)
    ensures Execution(trace, steps, 1) && |steps| == 4 && trace[4] == STALE
  {
    steps := [Initialize(Some(SOME_PLAN)), Read(0), Lapse, Initialize(None)];
    var s1 := State(Some(PLANNED), map[], 0, [PLANNED], PLANNED.history, false);
    var s2 := s1.(readers := map[0 := Reading(PLANNED, 0)]);
    var s3 := State(None, s2.readers, 1, [], [], false);
    assert PLANNED.fields.Keys == {RoutePlan} && BLANK.fields.Keys == {};
    assert Initial(Some(SOME_PLAN)) == PLANNED && Initial(None) == BLANK;
    hide Initial;
    assert s1 == Next(EMPTY, steps[0], 1) && s2 == Next(s1, steps[1], 1);
    assert s3 == Next(s2, steps[2], 1) && STALE == Next(s3, steps[3], 1);
    hide Next;
    trace := [EMPTY, s1, s2, s3, STALE];
  }

  lemma StaleWriterWins()
    ensures Wins(STALE, Update(0, START_TRIP), 1)
    ensures Next(STALE, Update(0, START_TRIP), 1).cell.Some?
            && Next(STALE, Update(0, START_TRIP), 1).cell.value.phase == InTrip
  {}

  /** The revision check alone does not keep the phase table across lifetimes: that companion starts
      the trip over the freshly initialized document. */
  lemma ForeignWriteBreaksTable() returns (steps: seq<Step>, trace: seq<State>)
    ensures Execution(trace, steps, 1) && |steps| == 5
    ensures trace[4].cell.Some? && trace[4].cell.value.phase == Initialized
    ensures trace[5].cell.Some? && trace[5].cell.value.phase == InTrip && InTrip !in AllowedTransitions(Initialized)
  {
    steps, trace := StaleIsReachable();
    StaleWriterWins();
    hide Next, Wins;
    var last := Update(0, START_TRIP);
    trace := trace + [Next(STALE, last, 1)];
    steps := steps + [last];
  }

  // ---------------------------------------------------------------------- the manager

  /** The manager over the store's documents, one call at a time. */
  class AgentSharedStateManager {
    const maxHistory: nat
    var cells: map<nat, Doc>

    constructor (configured: int)
      ensures 1 <= maxHistory <= 200 && cells == map[]
    {
      maxHistory := if configured < 1 then 1 else if configured > 200 then 200 else configured;
      cells := map[];
    }

    /** A missing document has revision -1. */
    method CompareSet(task: nat, expected: int, doc: Doc) returns (stored: bool)
      modifies this`cells
      ensures stored <==> expected == if task in old(cells) then old(cells)[task].revision else -1
      ensures cells == if stored then old(cells)[task := doc] else old(cells)
    {
      var revision := if task in cells then cells[task].revision else -1;
      stored := revision == expected;
      if stored { cells := cells[task := doc]; }
    }

    method Update(task: nat, r: Request) returns (result: Result<Doc, StateError>)
      modifies this`cells
      ensures result == if task in old(cells) then Updated(old(cells)[task], r, maxHistory)
                        else if ActionActor(r.action) != r.actor
                            || !(r.changes.Keys <= WriteFields(r.actor)) then Err(AccessDenied)
                        else Err(NotFound)
      ensures cells == if result.Ok? then old(cells)[task := result.value] else old(cells)
      ensures result.Ok? ==>
              Lawful(old(cells)[task], result.value, Entry(r.expected + 1, Acted(r.actor, r.action), r.changes.Keys))
    {
      if ActionActor(r.action) != r.actor { return Err(AccessDenied); }
      if !(r.changes.Keys <= WriteFields(r.actor)) { return Err(AccessDenied); }
      if task !in cells { return Err(NotFound); }
      var current := cells[task];
      if current.revision != r.expected { return Err(Conflict); }
      if ActionPhase(r.action) !in AllowedTransitions(current.phase) { return Err(AccessDenied); }
      if !r.storable { return Err(Unstorable); }
      var entry := Entry(r.expected + 1, Acted(r.actor, r.action), r.changes.Keys);
      var history := Newest(current.history + [entry], maxHistory);
      var updated := Doc(current.fields + r.changes, r.expected + 1, ActionPhase(r.action), history);
      var stored := CompareSet(task, r.expected, updated);
      result := if stored then Ok(updated) else Err(Conflict);
    }

    method SyncFormalRoutePlan(task: nat, expected: nat, plan: Content, storable: bool)
        returns (result: Result<Doc, StateError>)
      modifies this`cells
      ensures result == if task in old(cells) then Refresh(old(cells)[task], expected, plan, storable, maxHistory)
                        else if !plan.success then Err(AccessDenied) else Err(NotFound)
      ensures cells == if result.Ok? then old(cells)[task := result.value] else old(cells)
    {
      if !plan.success { return Err(AccessDenied); }
      if task !in cells { return Err(NotFound); }
      var current := cells[task];
      if current.revision != expected { return Err(Conflict); }
      if plan.planVersion < PlanVersion(current.fields) { return Err(AccessDenied); }
      if RoutePlan in current.fields && current.fields[RoutePlan] == plan { return Ok(current); }
      if !storable { return Err(Unstorable); }
      var history := Newest(current.history + [Entry(expected + 1, Refreshed, {RoutePlan})], maxHistory);
      var updated := Doc(current.fields[RoutePlan := plan], expected + 1, current.phase, history);
      var stored := CompareSet(task, expected, updated);
      result := if stored then Ok(updated) else Err(Conflict);
    }

    /** Creates the document, or brings the plan of an existing one up to date. Between finding no
        document and storing one a rival may create it, and its document may have lapsed again. */
    method Initialize(task: nat, plan: Option<Content>, storable: bool, rival: Rival)
        returns (result: Result<Doc, StateError>)
      modifies this`cells
      ensures task in old(cells) && (plan.None? || plan == PlanOf(old(cells)[task])) ==> result == Ok(old(cells)[task])
      ensures task in old(cells) && plan.Some? && plan != PlanOf(old(cells)[task]) ==>
                result == Refresh(old(cells)[task], old(cells)[task].revision, plan.value, storable, maxHistory)
      ensures task !in old(cells) ==>
                result == if plan.Some? && !plan.value.success then Err(AccessDenied)
                          else if !storable then Err(Unstorable)
                          else match rival
                            case Quiet => Ok(Initial(plan))
                            case Seeded(doc) => Ok(doc)
                            case SeededAndLapsed(_) => Err(Conflict)
      ensures cells == if result.Ok? then old(cells)[task := result.value] else old(cells)
    {
      if task in cells {
        if plan.Some? && plan != PlanOf(cells[task]) {
          result := SyncFormalRoutePlan(task, cells[task].revision, plan.value, storable);
          return;
        }
        return Ok(cells[task]);
      }
      if plan.Some? && !plan.value.success { return Err(AccessDenied); }
      if !storable { return Err(Unstorable); }
      if !rival.Quiet? { cells := cells[task := rival.doc]; }
      var created := CompareSet(task, -1, Initial(plan));
      if created { return Ok(Initial(plan)); }
      if rival.SeededAndLapsed? { cells := cells - {task}; }
      if task !in cells { return Err(Conflict); }
      result := Ok(cells[task]);
    }
  }

  /** What a concurrent initialization did in the meantime. */
  datatype Rival = Quiet | Seeded(doc: Doc) | SeededAndLapsed(doc: Doc)

  function PlanOf(doc: Doc): Option<Content> { if RoutePlan in doc.fields then Some(doc.fields[RoutePlan]) else None }
}
