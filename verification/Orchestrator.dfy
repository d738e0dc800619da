/**
 One query run: the stages share one mutable context, any awaited call may raise, and every exit settles the
 session row, the audit trail and the budget reservation.
 */
module Orchestrator {
  import opened Options
  import opened CostGate

  /** The calls that may raise, one for each place a stage awaits something. */
  datatype Call =
    | OpenSession | Retrieve | StoreRetrieval | StoreRerank | ResolvePrompt | ReadBudget | AuditBudget | ReserveKey
    | Complete | Ground | StoreAnswer | StoreCitation | StoreEmbeddingUsage | StoreCompletionUsage
    | CloseSession | AuditExecuted | CloseFailed | AuditFailed | CommitRequest

  datatype Status = Running | Completed | Abstained | Failed

  datatype AuditType = BudgetDenied | BudgetDowngraded | QueryExecuted | QueryFailed

  /** What the run did to the outside world besides the session row. */
  datatype Effect =
    | Audited(event: AuditType)
    | Reserved(usd: real)
    | Generated(model: string)
    | Booked(usd: real)
    | Released

  /** Everything the run cannot decide itself. `wired`: a reservation service is configured. */
  datatype World = World(
    raises: Call -> bool,
    sessionId: nat,
    reranked: seq<nat>,
    embeddingCost: Option<real>,
    inputTokens: nat,
    maxOutputTokens: nat,
    requested: string,
    budget: Option<Budget>,
    spend: real,
    reserved: real,
    genCost: real,
    wired: bool,
    abstainIfUnsupported: bool)
  {
    function EmbeddingUsd(): real { if embeddingCost.Some? then embeddingCost.value else 0.0 }
    function Estimate(): real { EstimateCompletionCost(requested, inputTokens, maxOutputTokens) + EmbeddingUsd() }
    function Decision(): Action { CheckBudget(budget, spend, reserved, Estimate(), requested) }
    predicate Abstains() { reranked == [] && abstainIfUnsupported }

    // When each stage gets through.
    predicate FindsContext() {
      !raises(Retrieve) && !raises(StoreRetrieval) && !raises(StoreRerank) && !raises(ResolvePrompt)
    }
    predicate PassesGate() {
      && !raises(ReadBudget) && (Decision() != Allow ==> !raises(AuditBudget))
      && EnforceOrRaise(Decision(), requested).Some? && (wired ==> !raises(ReserveKey))
    }
    predicate Completes() { EnforceOrRaise(Decision(), requested) != Some("") && !raises(Complete) }
    predicate Stores(generated: bool) {
      && !raises(StoreAnswer) && !raises(StoreCitation) && !raises(StoreEmbeddingUsage)
      && (generated ==> !raises(StoreCompletionUsage))
    }
    predicate Closes() { !raises(CloseSession) && !raises(AuditExecuted) }

    /** The route returned and its session committed. */
    predicate Lasts() { Returns() && !raises(CommitRequest) }

    /** The faults that decide whether a run returns; all others are survived. */
    predicate Returns() {
      && !raises(OpenSession) && FindsContext() && (Abstains() || (PassesGate() && Completes()))
      && !raises(Ground) && Stores(!Abstains()) && Closes()
    }
  }

  /**
   What is reserved covers both costs of the run: with a completion within its own estimate, what the run books is
   within what it reserved.
   */
  lemma ReservationCoversTheRun(w: World)
    requires w.genCost <= EstimateCompletionCost(w.requested, w.inputTokens, w.maxOutputTokens)
    ensures w.EmbeddingUsd() + (if w.Abstains() then 0.0 else w.genCost) <= w.Estimate()
    ensures w.embeddingCost.Some? ==> w.Estimate() - w.embeddingCost.value
                                      == EstimateCompletionCost(w.requested, w.inputTokens, w.maxOutputTokens)
  {}

  // ---------------------------------------------------------------- what a log must look like

  /** Gate, then reserve, then generate, then book, then the terminal audit event, then release. */
  function Order(e: Effect): nat {
    match e
    case Audited(BudgetDenied) => 0
    case Audited(BudgetDowngraded) => 0
    case Reserved(_) => 1
    case Generated(_) => 2
    case Booked(_) => 3
    case Audited(_) => 4
    case Released => 5
  }

  predicate Ordered(log: seq<Effect>) {
    forall i, j | 0 <= i < j < |log| :: Order(log[i]) <= Order(log[j])
  }

  /** No reservation outlives the run: the last effect releases it. */
  predicate Settled(log: seq<Effect>) {
    forall i | 0 <= i < |log| && log[i].Reserved? :: log[|log| - 1] == Released
  }

  /** The model call was let through by the gate, on the model the gate named, behind its reservation. */
  predicate Gated(w: World, log: seq<Effect>) {
    forall i | 0 <= i < |log| && log[i].Generated? :: Admitted(w, log[i].model) && Backed(w, log, i)
  }

  predicate Admitted(w: World, model: string) {
    && EnforceOrRaise(w.Decision(), w.requested) == Some(model)
    && (w.budget.Some? ==> w.spend + w.reserved + w.Estimate() < w.budget.value.HardLimit())
  }

  predicate Backed(w: World, log: seq<Effect>, i: nat) {
    w.wired ==> 0 < i <= |log| && log[i - 1] == Reserved(w.Estimate())
  }

  function Count(log: seq<Effect>, order: nat): nat {
    if log == [] then 0 else Count(log[..|log| - 1], order) + if Order(log[|log| - 1]) == order then 1 else 0
  }

  function Spent(log: seq<Effect>): real {
    if log == [] then 0.0
    else Spent(log[..|log| - 1]) + match log[|log| - 1] case Booked(usd) => usd case _ => 0.0
  }

  lemma Append(log: seq<Effect>, e: Effect)
    ensures Spent(log + [e]) == Spent(log) + match e case Booked(usd) => usd case _ => 0.0
    ensures forall order :: Count(log + [e], order) == Count(log, order) + if Order(e) == order then 1 else 0
  {
    assert (log + [e])[..|log|] == log;
  }

  predicate UpTo(log: seq<Effect>, order: nat) {
    forall i | 0 <= i < |log| :: Order(log[i]) <= order
  }

  /** A log with no terminal effect yet; `marked` says whether the context carries a reservation. */
  predicate Sound(w: World, log: seq<Effect>, marked: bool) {
    Ordered(log) && Gated(w, log) && UpTo(log, 3) && forall i | 0 <= i < |log| && log[i].Reserved? :: marked
  }

  predicate MayGenerate(w: World, log: seq<Effect>, model: string) {
    && EnforceOrRaise(w.Decision(), w.requested) == Some(model)
    && (w.wired ==> log != [] && log[|log| - 1] == Reserved(w.Estimate()))
  }

  lemma StartsSound(w: World)
    ensures Reached([], 0, 0, 0.0) && forall denied :: LogOk(w, [], false, denied)
    ensures Sound(w, [], false) && UpTo([], 0) && Denials([], false) && Denials([], true)
  {}

  /** A denial is audited only under a denial. */
  predicate Denials(log: seq<Effect>, denied: bool) {
    forall i | 0 <= i < |log| && log[i] == Audited(BudgetDenied) :: denied
  }

  lemma DenialsAppend(log: seq<Effect>, e: Effect, denied: bool)
    ensures Denials(log, denied) && (e == Audited(BudgetDenied) ==> denied) ==> Denials(log + [e], denied)
  {}

  /** The trail says that the run went on under a cheaper model. */
  predicate Downgraded(log: seq<Effect>) { Audited(BudgetDowngraded) in log }

  lemma DowngradedStill(log: seq<Effect>, e: Effect)
    ensures e != Audited(BudgetDowngraded) ==> Downgraded(log + [e]) == Downgraded(log)
  {}

  lemma Widen(w: World, log: seq<Effect>)
    ensures Sound(w, log, false) ==> Sound(w, log, true)
  {}

  lemma Extend(w: World, log: seq<Effect>, marked: bool, e: Effect)
    requires Sound(w, log, marked) && UpTo(log, Order(e)) && Order(e) <= 3
    requires (e.Reserved? ==> marked) && (e.Generated? ==> MayGenerate(w, log, e.model))
    ensures Sound(w, log + [e], marked) && UpTo(log + [e], Order(e))
  {
    AdmittedIffUnderHardCap(w.budget, w.spend, w.reserved, w.Estimate(), w.requested);
    assert e.Generated? ==> Admitted(w, e.model);
    hide CheckBudget, EnforceOrRaise, Admitted, World.Estimate;
    GatedStill(w, log, e);
  }

  lemma GatedStill(w: World, log: seq<Effect>, e: Effect)
    requires Gated(w, log) && (e.Generated? ==> Admitted(w, e.model) && Backed(w, log, |log|))
    ensures Gated(w, log + [e])
  {
    hide Admitted, World.Estimate;
    var log' := log + [e];
    forall i | 0 <= i < |log'| && log'[i].Generated? ensures Admitted(w, log'[i].model) && Backed(w, log', i) {
      if i < |log| { assert log'[i] == log[i] && Backed(w, log, i); }
    }
  }

  /** Everything a log must satisfy before its run ends. */
  predicate LogOk(w: World, log: seq<Effect>, marked: bool, denied: bool) {
    Sound(w, log, marked) && Denials(log, denied)
  }

  /** How far a log has come: the latest kind of effect, how many model calls, how much was booked. */
  predicate Reached(log: seq<Effect>, order: nat, calls: nat, spent: real) {
    UpTo(log, order) && Count(log, 2) == calls && Spent(log) == spent
  }

  function Usd(e: Effect): real { match e case Booked(usd) => usd case _ => 0.0 }

  /** One more effect, in its place. */
  lemma Grow(w: World, log: seq<Effect>, marked: bool, denied: bool, order: nat, calls: nat, spent: real, e: Effect)
    requires LogOk(w, log, marked, denied) && Reached(log, order, calls, spent) && order <= Order(e) <= 3
    requires (e.Reserved? ==> marked) && (e.Generated? ==> MayGenerate(w, log, e.model)) && (e == Audited(BudgetDenied) ==> denied)
    ensures LogOk(w, log + [e], marked, denied)
    ensures Reached(log + [e], Order(e), calls + if e.Generated? then 1 else 0, spent + Usd(e))
  {
    UpToMore(log, order, Order(e));
    hide Sound, MayGenerate, Denials, Count, Spent, UpTo;
    Extend(w, log, marked, e);
    Append(log, e);
    DenialsAppend(log, e, denied);
  }

  lemma UpToMore(log: seq<Effect>, order: nat, more: nat)
    ensures UpTo(log, order) && order <= more ==> UpTo(log, more)
  {}

  lemma ReachedMore(log: seq<Effect>, order: nat, more: nat, calls: nat, spent: real)
    ensures Reached(log, order, calls, spent) && order <= more ==> Reached(log, more, calls, spent)
  {}

  lemma LogMarked(w: World, log: seq<Effect>, denied: bool)
    ensures LogOk(w, log, false, denied) ==> LogOk(w, log, true, denied)
  {
    Widen(w, log);
  }

  lemma LogReaches(w: World, log: seq<Effect>, marked: bool, denied: bool)
    ensures LogOk(w, log, marked, denied) ==> Reached(log, 3, Count(log, 2), Spent(log))
  {}

  lemma MayGenerateOn(w: World, log: seq<Effect>, model: string)
    ensures MayGenerate(w, log, model) ==> EnforceOrRaise(w.Decision(), w.requested) == Some(model)
  {}

  lemma {:induction false} CountNone(log: seq<Effect>, order: nat)
    requires forall i | 0 <= i < |log| :: Order(log[i]) != order
    ensures Count(log, order) == 0
  {
    if log != [] { CountNone(log[..|log| - 1], order); }
  }

  lemma DeniedNeverGenerates(w: World, log: seq<Effect>, marked: bool)
    requires Sound(w, log, marked) && w.Decision() == Deny
    ensures Count(log, 2) == 0
  {
    assert forall model :: !Admitted(w, model);
    assert forall i | 0 <= i < |log| :: Order(log[i]) != 2;
    CountNone(log, 2);
  }

  /** The end of every run: its terminal audit event, if written, then the release. */
  function Closed(log: seq<Effect>, audit: Option<AuditType>, marked: bool): seq<Effect> {
    var audited := if audit.Some? then log + [Audited(audit.value)] else log;
    if marked then audited + [Released] else audited
  }

  predicate Terminal(audit: Option<AuditType>) {
    audit == None || audit == Some(QueryExecuted) || audit == Some(QueryFailed)
  }

  lemma AppendLater(w: World, log: seq<Effect>, e: Effect)
    requires Ordered(log) && Gated(w, log) && UpTo(log, Order(e)) && !e.Generated?
    ensures Ordered(log + [e]) && Gated(w, log + [e])
  {
    hide Gated;
    GatedStill(w, log, e);
  }

  lemma CloseKeepsShape(w: World, log: seq<Effect>, audit: Option<AuditType>, marked: bool)
    requires Sound(w, log, marked) && Terminal(audit)
    ensures var log' := Closed(log, audit, marked);
            && Ordered(log') && Gated(w, log') && Settled(log')
            && (Audited(QueryExecuted) in log' <==> audit == Some(QueryExecuted))
            && (Audited(QueryFailed) in log' <==> audit == Some(QueryFailed))
            && (Audited(BudgetDenied) in log' <==> Audited(BudgetDenied) in log) && Downgraded(log') == Downgraded(log)
  {
    hide Ordered, Gated;
    assert Audited(QueryExecuted) !in log && Audited(QueryFailed) !in log;
    var log1 := Closed(log, audit, false);
    if audit.Some? { AppendLater(w, log, Audited(audit.value)); }
    if marked { AppendLater(w, log1, Released); }
  }

  lemma CloseKeepsCounts(w: World, log: seq<Effect>, audit: Option<AuditType>, marked: bool)
    requires Sound(w, log, marked) && Terminal(audit)
    ensures var log' := Closed(log, audit, marked);
            && Count(log', 5) == (if marked then 1 else 0)
            && Spent(log') == Spent(log) && Count(log', 2) == Count(log, 2)
  {
    CountNone(log, 5);
    hide Count, Spent, Sound;
    var log1 := Closed(log, audit, false);
    if audit.Some? { Append(log, Audited(audit.value)); }
    Append(log1, Released);
  }

  // ---------------------------------------------------------------- what outlives the request

  /** Postgres after the request: its session row, its audit events, its booked cost. */
  datatype Durable = Durable(row: Option<Status>, audits: seq<AuditType>, booked: real)

  const NOTHING := Durable(None, [], 0.0)

  function AuditsOf(log: seq<Effect>): seq<AuditType> {
    if log == [] then []
    else AuditsOf(log[..|log| - 1]) + match log[|log| - 1] case Audited(event) => [event] case _ => []
  }

  lemma {:induction false} AuditsAre(log: seq<Effect>, event: AuditType)
    ensures event in AuditsOf(log) <==> Audited(event) in log
  {
    if log != [] {
      AuditsAre(log[..|log| - 1], event);
      assert log == log[..|log| - 1] + [log[|log| - 1]];
    }
  }

  /** A run's log and whether its transaction committed. */
  predicate Served(w: World, log: seq<Effect>, committed: bool) {
    && (committed <==> w.Lasts())
    && (Audited(BudgetDenied) in log || Audited(QueryFailed) in log ==> !w.Returns())
  }

  class Run {
    const w: World

    var session: Option<nat>
    var row: Option<Status>
    var retrieved: bool
    var reranked: seq<nat>
    var prompt: bool
    var decision: Option<Action>
    var reservation: Option<real>
    var model: string
    var genUsage: bool
    var genCost: real
    var log: seq<Effect>

    constructor (w: World)
      ensures this.w == w && Blank()
    {
      this.w := w;
      session, row, retrieved, reranked, prompt := None, None, false, [], false;
      decision, reservation, model, genUsage, genCost, log := None, None, "", false, 0.0, [];
    }

    predicate Blank() reads this {
      && session == None && row == None && !retrieved && reranked == [] && !prompt && decision == None
      && reservation == None && model == "" && !genUsage && genCost == 0.0 && log == []
    }

    // -------------------------------------------------------------- stages

    method Open() returns (ok: bool)
      modifies this`session, this`row
      ensures ok == !w.raises(OpenSession)
      ensures ok ==> session == Some(w.sessionId) && row == Some(Running)
      ensures !ok ==> session == old(session) && row == old(row)
    {
      ok := !w.raises(OpenSession);
      if ok { session, row := Some(w.sessionId), Some(Running); }
    }

    /** Retrieval and rerank; the context fields are set before the rows are stored. */
    method FindContext() returns (ok: bool)
      modifies this`retrieved, this`reranked, this`prompt
      ensures ok <==> session.Some? && w.FindsContext()
      ensures ok ==> retrieved && reranked == w.reranked && prompt
    {
      if w.raises(Retrieve) { return false; }
      retrieved := true;
      if session == None || w.raises(StoreRetrieval) { return false; }
      reranked := w.reranked;
      if w.raises(StoreRerank) { return false; }
      if w.raises(ResolvePrompt) { return false; }
      prompt := true;
      ok := true;
    }

    /** Stage invariant: everything the stages have done so far. */
    ghost predicate Underway() reads this {
      && LogOk(w, log, reservation.Some?, decision == Some(Deny))
      && (reservation.Some? ==> session.Some? && w.wired)
      && (row.Some? <==> session.Some?)
      && (decision.Some? ==> decision == Some(w.Decision()))
    }

    /** `budget.denied` or `budget.downgraded`, recorded before the gate may raise. */
    method AuditDecision() returns (ok: bool)
      requires log == [] && reservation == None && decision.Some? && decision.value != Allow && Underway()
      modifies this`log
      ensures Underway() && Reached(log, 0, 0, 0.0)
      ensures ok <==> !w.raises(AuditBudget)
      ensures log == if ok then [Audited(if decision == Some(Deny) then BudgetDenied else BudgetDowngraded)] else []
    {
      hide LogOk, Reached, World.Decision;
      StartsSound(w);
      if w.raises(AuditBudget) { return false; }
      var event := Audited(if decision.value == Deny then BudgetDenied else BudgetDowngraded);
      Grow(w, log, false, decision == Some(Deny), 0, 0, 0.0, event);
      log := log + [event];
      ok := true;
    }

    /** The context is marked before the reservation is placed. */
    method ReserveSpend() returns (ok: bool)
      requires reservation == None && session.Some? && Underway() && Reached(log, 0, 0, 0.0)
      modifies this`reservation, this`log
      ensures Underway() && Reached(log, 1, 0, 0.0)
      ensures ok <==> w.wired ==> !w.raises(ReserveKey)
      ensures ok && w.wired ==> log != [] && log[|log| - 1] == Reserved(w.Estimate())
      ensures Downgraded(log) == old(Downgraded(log))
    {
      hide LogOk, Reached, World.Decision, World.Estimate;
      ReachedMore(log, 0, 1, 0, 0.0);
      if w.wired {
        LogMarked(w, log, decision == Some(Deny));
        Grow(w, log, true, decision == Some(Deny), 0, 0, 0.0, Reserved(w.Estimate()));
        reservation := Some(w.Estimate());
        log := log + [Reserved(w.Estimate())];
        if w.raises(ReserveKey) { return false; }
      }
      ok := true;
    }

    method Gate() returns (ok: bool)
      requires log == [] && decision == None && reservation == None && Underway()
      modifies this`decision, this`reservation, this`model, this`log
      ensures Underway() && Reached(log, 1, 0, 0.0)
      ensures ok <==> prompt && session.Some? && w.PassesGate()
      ensures ok ==> MayGenerate(w, log, model)
      ensures ok ==> Downgraded(log) == w.Decision().Downgrade?
      ensures decision == Some(Deny) ==> !ok && log == if w.raises(AuditBudget) then [] else [Audited(BudgetDenied)]
    {
      hide World.Decision, World.Estimate, LogOk, Reached;
      StartsSound(w);
      ReachedMore(log, 0, 1, 0, 0.0);
      if !prompt || session == None || w.raises(ReadBudget) { return false; }
      decision := Some(w.Decision());
      if decision.value != Allow {
        ok := AuditDecision();
        ReachedMore(log, 0, 1, 0, 0.0);
        if !ok { return; }
      }
      var target := EnforceOrRaise(decision.value, w.requested);
      if target == None { return false; }
      model := target.value;
      ok := ReserveSpend();
    }

    method Generate() returns (ok: bool)
      requires Underway() && Reached(log, 1, 0, 0.0) && MayGenerate(w, log, model)
      modifies this`genUsage, this`genCost, this`log
      ensures Underway()
      ensures ok <==> prompt && w.Completes()
      ensures ok ==> genUsage && genCost == w.genCost && Reached(log, 2, 1, 0.0)
      ensures Downgraded(log) == old(Downgraded(log))
    {
      hide LogOk, Reached, MayGenerate, World.Decision, EnforceOrRaise;
      MayGenerateOn(w, log, model);
      if !prompt || model == "" { return false; }
      Grow(w, log, reservation.Some?, decision == Some(Deny), 1, 0, 0.0, Generated(model));
      log := log + [Generated(model)];
      if w.raises(Complete) { return false; }
      genUsage, genCost := true, w.genCost;
      ok := true;
    }

    /** The answer, its citations, and one usage row for the embedding and one for the completion, if any. */
    method Persist() returns (ok: bool)
      requires Underway() && Spent(log) == 0.0
      modifies this`log
      ensures Underway()
      ensures ok <==> session.Some? && w.Stores(genUsage)
      ensures ok ==> Reached(log, 3, old(Count(log, 2)), w.EmbeddingUsd() + if genUsage then genCost else 0.0)
      ensures Downgraded(log) == old(Downgraded(log))
    {
      hide LogOk, Reached, World.Decision, World.EmbeddingUsd;
      if session == None || w.raises(StoreAnswer) || w.raises(StoreCitation) || w.raises(StoreEmbeddingUsage) { return false; }
      ghost var calls, usd := Count(log, 2), w.EmbeddingUsd();
      LogReaches(w, log, reservation.Some?, decision == Some(Deny));
      Grow(w, log, reservation.Some?, decision == Some(Deny), 3, calls, 0.0, Booked(usd));
      log := log + [Booked(w.EmbeddingUsd())];
      if genUsage {
        if w.raises(StoreCompletionUsage) { return false; }
        Grow(w, log, reservation.Some?, decision == Some(Deny), 3, calls, usd, Booked(genCost));
        log := log + [Booked(genCost)];
      }
      ok := true;
    }

    /** The stages up to and including persistence. */
    method Pipeline() returns (ok: bool)
      requires Blank()
      modifies this
      ensures Underway()
      ensures session.Some? <==> !w.raises(OpenSession)
      ensures ok && w.Closes() <==> w.Returns()
      ensures ok ==> session.Some? && reranked == w.reranked
      ensures ok ==> Count(log, 2) == (if w.Abstains() then 0 else 1)
      ensures ok ==> Spent(log) == w.EmbeddingUsd() + if w.Abstains() then 0.0 else w.genCost
      ensures ok ==> Downgraded(log) == (!w.Abstains() && w.Decision().Downgrade?)
      ensures decision == Some(Deny) ==> !ok && (Audited(BudgetDenied) in log <==> !w.raises(AuditBudget))
    {
      hide LogOk, UpTo, MayGenerate, World.Decision, World.Estimate, Count, Spent;
      StartsSound(w);
      ok := Open();
      if !ok { return; }
      ok := FindContext();
      if !ok { return; }
      if reranked == [] && w.abstainIfUnsupported {
        model, genUsage, genCost := w.requested, false, 0.0;
      } else {
        ok := Gate();
        if !ok { return; }
        ok := Generate();
        if !ok { return; }
      }
      if w.raises(Ground) { return false; }
      ok := Persist();
    }

    // -------------------------------------------------------------- exits

    /** Drops the reservation the run marked; the service swallows its own errors. */
    method ReleaseIfAny()
      modifies this`log
      ensures log == if w.wired && session.Some? && reservation.Some? then old(log) + [Released] else old(log)
    {
      if w.wired && session.Some? && reservation.Some? { log := log + [Released]; }
    }

    method Finalize() returns (ok: bool)
      requires Underway() && session.Some?
      modifies this`row, this`log
      ensures row.Some? && (ok <==> w.Closes())
      ensures !ok ==> log == old(log)
      ensures ok ==> row == Some(if reranked == [] then Abstained else Completed)
      ensures ok ==> log == Closed(old(log), Some(QueryExecuted), reservation.Some?)
    {
      if w.raises(CloseSession) { return false; }
      row := Some(if reranked == [] then Abstained else Completed);
      if w.raises(AuditExecuted) { return false; }
      log := log + [Audited(QueryExecuted)];
      ReleaseIfAny();
      ok := true;
    }

    /** What the exception handler managed to record. */
    function FailureAudit(): Option<AuditType> reads this`session {
      if session.Some? && !w.raises(AuditFailed) then Some(QueryFailed) else None
    }

    /** The exception handler: each step is best effort and none masks the original exception. */
    method Fail()
      requires Underway()
      modifies this`row, this`log
      ensures row.Some? <==> session.Some?
      ensures session.Some? && !w.raises(CloseFailed) ==> row == Some(Failed)
      ensures log == Closed(old(log), FailureAudit(), reservation.Some?)
    {
      if session.Some? && !w.raises(CloseFailed) { row := Some(Failed); }
      if session.Some? && !w.raises(AuditFailed) { log := log + [Audited(QueryFailed)]; }
      ReleaseIfAny();
    }

    /**
     A whole run, whatever raises. A reservation the run marked is released exactly once, as its last effect.
     No model call happens unless the gate admitted this estimate, and then only on the gate's model and behind
     the reservation. A run that returns is `abstained` exactly when nothing was reranked and books exactly what
     it spent; a run that raises ends `failed` when that write works.
     */
    method Execute() returns (returned: bool)
      requires Blank()
      modifies this
      ensures returned <==> w.Returns()
      ensures Ordered(log) && Settled(log) && Gated(w, log)
      ensures Count(log, 5) == if reservation.Some? then 1 else 0
      ensures row.Some? <==> session.Some?
      ensures session.Some? <==> !w.raises(OpenSession)
      ensures returned ==> row == Some(if w.reranked == [] then Abstained else Completed)
      ensures !returned && session.Some? && !w.raises(CloseFailed) ==> row == Some(Failed)
      ensures returned ==> Spent(log) == w.EmbeddingUsd() + if w.Abstains() then 0.0 else w.genCost
      ensures returned ==> Count(log, 2) == if w.Abstains() then 0 else 1
      ensures returned <==> Audited(QueryExecuted) in log
      ensures Audited(QueryFailed) in log <==> !returned && session.Some? && !w.raises(AuditFailed)
      ensures decision == Some(Deny) ==> !returned && Count(log, 2) == 0
      ensures Audited(BudgetDenied) in log <==> decision == Some(Deny) && !w.raises(AuditBudget)
      ensures returned ==> Downgraded(log) == (!w.Abstains() && w.Decision().Downgrade?)
    {
      hide Sound, Closed, Ordered, Gated, Settled, Count, Spent;
      var ok := Pipeline();
      ghost var before := log;
      if ok {
        returned := Finalize();
        if returned {
          CloseKeepsShape(w, before, Some(QueryExecuted), reservation.Some?);
          CloseKeepsCounts(w, before, Some(QueryExecuted), reservation.Some?);
          return;
        }
      }
      Fail();
      CloseKeepsShape(w, before, FailureAudit(), reservation.Some?);
      CloseKeepsCounts(w, before, FailureAudit(), reservation.Some?);
      if decision == Some(Deny) { DeniedNeverGenerates(w, before, reservation.Some?); }
      returned := false;
    }

    /**
     The run inside its request: the session commits when the route returns and rolls back when it raises, so
     nothing a raising run wrote lasts. In particular no `failed` status, no denial or failure event, and none
     of the cost of a model call whose run raised afterwards.
     */
    method Serve() returns (returned: bool, durable: Durable)
      requires Blank()
      modifies this
      ensures returned <==> w.Returns()
      ensures Served(w, log, w.Lasts())
      ensures durable == if w.Lasts() then Durable(row, AuditsOf(log), Spent(log)) else NOTHING
      ensures durable.row == if !w.Lasts() then None else if w.reranked == [] then Some(Abstained) else Some(Completed)
      ensures durable.booked == if w.Lasts() then w.EmbeddingUsd() + (if w.Abstains() then 0.0 else w.genCost) else 0.0
      ensures forall event :: event in durable.audits <==> w.Lasts() && Audited(event) in log
      ensures BudgetDenied !in durable.audits && QueryFailed !in durable.audits
    {
      returned := Execute();
      hide Spent, World.Returns;
      if returned && !w.raises(CommitRequest) {
        durable := Durable(row, AuditsOf(log), Spent(log));
      } else {
        durable := NOTHING;
      }
      forall event ensures event in AuditsOf(log) <==> Audited(event) in log { AuditsAre(log, event); }
    }
  }
}
