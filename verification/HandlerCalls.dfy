/**
  Sequences of calls on one result handler: while the API requests go through they follow
  the handler's runs, so the objects of the API server mirror the decision engine.
*/
module HandlerCalls {
  import opened Common
  import opened Requests
  import opened ResultHandler
  import opened HandlerRuns
  import Alerting
  import AlertingRuns
  import Correlation
  import Processor
  import CounterRuns

  /** A result to handle, with what the outside will decide for it, or a clean-up of the processor. */
  datatype Call = Handle(r: Result, env: Env) | Clean(now: Time)

  /** `op` is what became of a call that went through. */
  ghost predicate Happened(op: Op, call: Call) {
    match call
    case Handle(r, env) => op.Submit? && op.r == r && op.env == env
    case Clean(now) => op == Expire(now)
  }

  /** The API server's timestamps strictly increase. */
  ghost predicate Increasing(calls: seq<Call>) {
    forall i, j | 0 <= i < j < |calls| && calls[i].Handle? && calls[j].Handle? ::
      calls[i].env.created < calls[j].env.created
  }

  ghost predicate Valid(h: ResultHandler)
    reads h.processor, h.processor.states.Values, h.alertEngine, h.alertEngine.targetStates.Values
  {
    h.processor.Valid() && h.alertEngine.Valid()
  }

  /** The values of the four components a handler drives. */
  datatype World = World(
    states: Processor.States, windows: Correlation.Windows, targets: Alerting.Targets, events: Events)

  ghost function View(h: ResultHandler): World
    reads h.processor, h.correlation, h.alertEngine, h.client
  {
    World(h.processor.contents, h.correlation.failureWindow, h.alertEngine.contents, h.client.events)
  }

  /** What a handler is set up with and does not change. */
  datatype Setup = Setup(cfg: Correlation.Config, expiration: int)

  ghost function SetupOf(h: ResultHandler): Setup {
    Setup(h.correlation.config, h.processor.expiration)
  }

  /** Where a run leaves the components. */
  ghost function After(setup: Setup, ops: seq<Op>): World {
    World(CounterRuns.Targets(setup.expiration, ops), Windows(setup.cfg, ops), Engine(ops), Objects(ops))
  }

  /** State objects that join the processor or the engine are new. */
  twostate predicate StatesGrow(h: ResultHandler)
    reads h.processor, h.alertEngine
  {
    && (forall k | k in h.processor.states ::
          (k in old(h.processor.states) && h.processor.states[k] == old(h.processor.states)[k]) ||
          fresh(h.processor.states[k]))
    && (forall k | k in h.alertEngine.targetStates ::
          (k in old(h.alertEngine.targetStates) &&
           h.alertEngine.targetStates[k] == old(h.alertEngine.targetStates)[k]) ||
          fresh(h.alertEngine.targetStates[k]))
  }

  // ----- one call -----

  /** Handling a result that the engine judges with `threshold`. */
  ghost predicate Moves(setup: Setup, w: World, w': World, op: Op, ok: bool)
    requires op.Submit?
  {
    && w'.states == Processor.AfterResult(w.states, op.r, op.env.counted)
    && w'.windows == AfterFailure(setup.cfg, w.windows, op.r, op.env)
    && w'.targets == AfterJudging(w.targets, op.r, op.threshold, op.env)
    && w'.events == op.after
    && ApiStep(w.events, op.after, op.r, op.env, Judged(w.targets, op.r, op.threshold, op.env),
               Correlation.Events(w'.windows, ReportKey(op.r)), op.topology, ok)
  }

  lemma EngineStep(ops: seq<Op>, op: Op)
    requires op.Submit?
    ensures Engine(ops + [op]) == AfterJudging(Engine(ops), op.r, op.threshold, op.env)
  {
    assert Front(ops + [op]) == ops;
    assert EngineEvents(ops + [op]) == EngineEvents(ops) + [EngineEvent(op)];
    assert Front(EngineEvents(ops) + [EngineEvent(op)]) == EngineEvents(ops);
  }

  /** A handled result whose requests went through continues a run. */
  lemma MovesOn(setup: Setup, ops: seq<Op>, w': World, op: Op)
    requires Legal(setup.cfg, ops) && op.Submit? && CreatedBefore(Objects(ops), op.env.created)
    requires Moves(setup, After(setup, ops), w', op, true)
    ensures Legal(setup.cfg, ops + [op]) && After(setup, ops + [op]) == w'
  {
    assert Front(ops + [op]) == ops;
    EngineStep(ops, op);
  }

  /** So does a clean-up. */
  lemma CleansOn(setup: Setup, ops: seq<Op>, now: Time)
    requires Legal(setup.cfg, ops)
    ensures Legal(setup.cfg, ops + [Expire(now)])
    ensures var w := After(setup, ops);
            After(setup, ops + [Expire(now)]) ==
            w.(states := Processor.AfterCleanup(setup.expiration, w.states, now))
  {
    assert Front(ops + [Expire(now)]) == ops;
    assert EngineEvents(ops) + [] == EngineEvents(ops);
  }

  method HandleOne(h: ResultHandler, r: Result, env: Env) returns (ok: bool, ghost op: Op)
    requires Valid(h)
    modifies h.processor, h.processor.states.Values, h.correlation
    modifies h.alertEngine, h.alertEngine.targetStates.Values, h.client
    ensures Valid(h) && StatesGrow(h) && Happened(op, Handle(r, env))
    ensures Moves(SetupOf(h), old(View(h)), View(h), op, ok)
  {
    ghost var decision, threshold;
    ok, decision, threshold := h.HandleResult(r, env);
    op := Submit(r, threshold, env, Correlation.Snapshot(h.topology), h.client.events);
  }

  /** One more call on a handler that has followed a run; a result joins the run if its requests go through. */
  method CallNext(h: ResultHandler, ghost ops: seq<Op>, call: Call) returns (ok: bool, ghost op: Op)
    requires Valid(h) && Legal(SetupOf(h).cfg, ops) && View(h) == After(SetupOf(h), ops)
    requires call.Handle? ==> CreatedBefore(h.client.events, call.env.created)
    modifies h.processor, h.processor.states.Values, h.correlation
    modifies h.alertEngine, h.alertEngine.targetStates.Values, h.client
    ensures Valid(h) && StatesGrow(h) && Happened(op, call)
    ensures ok ==> Legal(SetupOf(h).cfg, ops + [op]) && View(h) == After(SetupOf(h), ops + [op])
  {
    match call
    case Handle(r, env) =>
      ok, op := HandleOne(h, r, env);
      if ok {
        MovesOn(SetupOf(h), ops, View(h), op);
      }
    case Clean(now) =>
      var _ := h.processor.CleanupExpiredStates(now);
      ok, op := true, Expire(now);
      CleansOn(SetupOf(h), ops, now);
  }

  // ----- sequences of calls -----

  /** Objects created so far are older than any later timestamp. */
  lemma CreatedBeforeLater(before: Events, op: Op, d: Alerting.Decision, s: seq<Correlation.Failure>, t: Time)
    requires op.Submit? && CreatedBefore(before, op.env.created) && op.env.created < t
    requires ApiStep(before, op.after, op.r, op.env, d, s, op.topology, true)
    ensures CreatedBefore(op.after, t)
  {
    var target := TargetOf(op.r);
    if d == Alerting.Resolve && Matching(before, target) != {} {
      var k :| Latest(before, target, k) && ResolvesAt(before, op.after, k, op.env, true);
    }
  }

  /** The objects of the run are older than whatever the calls from `n` on will create. */
  ghost predicate RoomFor(events: Events, calls: seq<Call>, n: nat) {
    forall i | n <= i < |calls| && calls[i].Handle? :: CreatedBefore(events, calls[i].env.created)
  }

  lemma RoomAfter(setup: Setup, ops: seq<Op>, op: Op, calls: seq<Call>, n: nat)
    requires n < |calls| && Increasing(calls) && RoomFor(Objects(ops), calls, n) && Happened(op, calls[n])
    requires Legal(setup.cfg, ops + [op])
    ensures RoomFor(Objects(ops + [op]), calls, n + 1)
  {
    assert Front(ops + [op]) == ops;
    if op.Submit? {
      forall i | n < i < |calls| && calls[i].Handle?
        ensures CreatedBefore(op.after, calls[i].env.created)
      {
        var s := Correlation.Events(Windows(setup.cfg, ops + [op]), ReportKey(op.r));
        CreatedBeforeLater(Objects(ops), op, DecisionOf(ops + [op]), s, calls[i].env.created);
      }
    }
  }

  /** Every target's AlertEvents mirror the engine, whichever separated sources the results come from. */
  ghost predicate MirrorsAll(h: ResultHandler, ops: seq<Op>)
    reads h.alertEngine, h.client
  {
    forall sources: set<Source>, a: Source | Uses(ops, sources) && Separated(sources) && a in sources ::
      Mirrors(h.client.events, h.alertEngine.contents, a.Key(), a.Target())
  }

  lemma RunMirrorsAll(h: ResultHandler, ops: seq<Op>)
    requires Legal(SetupOf(h).cfg, ops) && View(h) == After(SetupOf(h), ops)
    ensures MirrorsAll(h, ops)
  {
    forall sources: set<Source>, a: Source | Uses(ops, sources) && Separated(sources) && a in sources
      ensures Mirrors(h.client.events, h.alertEngine.contents, a.Key(), a.Target())
    {
      RunMirrors(SetupOf(h).cfg, ops, sources, a);
    }
  }

  /** The handler has taken in the first `n` calls, which form the run `ops`. */
  ghost predicate HasDone(h: ResultHandler, calls: seq<Call>, ops: seq<Op>, n: nat)
    reads h.processor, h.processor.states.Values, h.correlation
    reads h.alertEngine, h.alertEngine.targetStates.Values, h.client
  {
    && Valid(h) && Legal(SetupOf(h).cfg, ops) && View(h) == After(SetupOf(h), ops)
    && RoomFor(h.client.events, calls, n) && AllHappened(ops, calls, n)
  }

  ghost predicate AllHappened(ops: seq<Op>, calls: seq<Call>, n: nat) {
    |ops| == n <= |calls| && forall i | 0 <= i < n :: Happened(ops[i], calls[i])
  }

  method Advance(h: ResultHandler, calls: seq<Call>, ghost ops: seq<Op>, n: nat) returns (ok: bool, ghost op: Op)
    requires HasDone(h, calls, ops, n) && n < |calls| && Increasing(calls)
    modifies h.processor, h.processor.states.Values, h.correlation
    modifies h.alertEngine, h.alertEngine.targetStates.Values, h.client
    ensures Valid(h) && StatesGrow(h)
    ensures ok ==> HasDone(h, calls, ops + [op], n + 1)
  {
    ok, op := CallNext(h, ops, calls[n]);
    if ok {
      RoomAfter(SetupOf(h), ops, op, calls, n);
    }
  }

  /**
    Calls on a new handler, up to the first whose requests fail. Those before it are a legal
    run; if there is none, the run leads to the handler's state and the mirror holds.
  */
  method CallAll(h: ResultHandler, calls: seq<Call>) returns (done: nat, ghost ops: seq<Op>)
    requires Valid(h) && View(h) == World(map[], map[], map[], map[]) && Increasing(calls)
    modifies h.processor, h.processor.states.Values, h.correlation
    modifies h.alertEngine, h.alertEngine.targetStates.Values, h.client
    ensures Valid(h) && AllHappened(ops, calls, done) && Legal(SetupOf(h).cfg, ops)
    ensures done == |calls| ==> View(h) == After(SetupOf(h), ops) && MirrorsAll(h, ops)
  {
    done, ops := 0, [];
    while done < |calls|
      invariant StatesGrow(h) && HasDone(h, calls, ops, done)
      decreases |calls| - done
    {
      ghost var op;
      var ok;
      ok, op := Advance(h, calls, ops, done);
      if !ok {
        return;
      }
      ops := ops + [op];
      done := done + 1;
    }
    RunMirrorsAll(h, ops);
  }
}
