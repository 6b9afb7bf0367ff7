/**
 * The imperative SAM engine of src/index.ts: the action gate and the state
 * matcher as search loops, the debug history log, and the class SAM whose
 * fields `model`, `current` (the current state definition, as an index into
 * the configuration's state definitions) and `subscriptions` the loop updates
 * in place.  Every method is proved against the functions of module SamSpec.
 */
module SamEngine {
  import opened Wrappers
  import opened SamSpec

  /** ActionChecker.isActionDisallowed: does the state's restriction policy reject the action? */
  method IsActionDisallowed<M, A>(actionId: string, state: StateDef<M, A>) returns (disallowed: bool)
    ensures state.restrictions.None? ==> !disallowed
    ensures state.restrictions.Some? && state.restrictions.value.kind == Disallow ==>
      (disallowed <==> actionId in state.restrictions.value.actions)
    ensures state.restrictions.Some? && state.restrictions.value.kind == StrictlyAllow ==>
      (disallowed <==> actionId !in state.restrictions.value.actions)
    ensures disallowed == Blocks(state.restrictions, actionId)
  {
    if state.restrictions.Some? {
      var restrictions := state.restrictions.value;
      if restrictions.kind == Disallow {
        for i := 0 to |restrictions.actions|
          invariant actionId !in restrictions.actions[..i]
        {
          if restrictions.actions[i] == actionId {
            return true;
          }
        }
      } else {
        for i := 0 to |restrictions.actions|
          invariant actionId !in restrictions.actions[..i]
        {
          if restrictions.actions[i] == actionId {
            return false;
          }
        }
        return true;
      }
    }
    return false;
  }

  /** matchState: the first state definition, in declaration order, whose predicate holds. */
  method MatchState<M, A>(defs: seq<StateDef<M, A>>, model: M) returns (r: Option<nat>)
    ensures r.Some? ==> r.value < |defs| && defs[r.value].isState(model)
    ensures r.Some? ==> forall j :: 0 <= j < r.value ==> !defs[j].isState(model)
    ensures r.None? <==> forall j :: 0 <= j < |defs| ==> !defs[j].isState(model)
    ensures r == FirstMatch(defs, model)
  {
    for i := 0 to |defs|
      invariant forall j :: 0 <= j < i ==> !defs[j].isState(model)
    {
      if defs[i].isState(model) {
        return Some(i);
      }
    }
    return None;
  }

  /** SAMLoopHistory: the debug log; it records only when constructed in debug mode. */
  class LoopHistory<M, A, P> {
    const debug: bool
    var histories: seq<HistoryEntry<M, A, P>>

    constructor (debug: bool)
      ensures this.debug == debug && histories == []
    {
      this.debug := debug;
      histories := [];
    }

    /** add: appends one entry for the snapshot, in debug mode only. */
    method Add(snapshot: Snapshot<M, A, P>, session: Session)
      modifies this
      ensures histories == old(histories) + Recorded(debug, [snapshot], session)
    {
      if debug {
        histories := histories + [HistoryEntry(snapshot, session)];
      }
    }
  }

  /** A subscription.  Only its identity matters here; its callback is recorded as a Notification. */
  class Subscription {
    constructor ()
    {
    }
  }

  /** The errors the engine signals to its constructing caller. */
  datatype EngineError = InvalidInitialModel

  class SAM<M, A, P> {
    const config: Config<M, A, P>
    const initialModel: M
    const initialState: string
    const history: LoopHistory<M, A, P>
    var model: M
    var current: nat
    var subscriptions: seq<Subscription>
    /** Every afterNewState callback made so far, in order. */
    ghost var delivered: seq<Notification<Subscription, M>>

    ghost predicate Valid()
      reads this
    {
      current < |config.stateDefinitions|
    }

    /** The committed state definition. */
    function CurrentStateDefinition(): StateDef<M, A>
      reads this
      requires Valid()
    {
      config.stateDefinitions[current]
    }

    /**
     * The first half of the source's constructor, once the initial model is
     * known to match state `k`: fields set, two history entries recorded.
     */
    constructor Init(config: Config<M, A, P>, model: M, subscriptions: seq<Subscription>,
                     debug: bool, session: Session, k: nat)
      requires FirstMatch(config.stateDefinitions, model) == Some(k)
      ensures Valid() && fresh(history)
      ensures this.config == config && this.model == model && current == k
      ensures initialModel == model && initialState == config.stateDefinitions[k].state
      ensures this.subscriptions == subscriptions && delivered == []
      ensures history.debug == debug
      ensures history.histories ==
        Recorded(debug, [ConstructorModel(model), StateEntered(model, config.stateDefinitions[k].state)], session)
    {
      this.config := config;
      this.subscriptions := subscriptions;
      this.model := model;
      initialModel := model;
      var h := new LoopHistory(debug);
      h.Add(ConstructorModel(model), session);
      initialState := config.stateDefinitions[k].state;
      current := k;
      h.Add(StateEntered(model, config.stateDefinitions[k].state), session);
      RecordedAppend<M, A, P>(debug, [ConstructorModel(model)], [StateEntered(model, config.stateDefinitions[k].state)], session);
      history := h;
      delivered := [];
    }

    /**
     * The constructor: fails with InvalidInitialModel when the initial model
     * matches no state; otherwise commits the first matching state and runs
     * afterNewState, which notifies the subscriptions and may chain actions.
     * The subscriptions are kept as the caller passed them.
     */
    static method Create(config: Config<M, A, P>, model: M, subscriptions: seq<Subscription>,
                         debug: bool, session: Session, fuel: nat) returns (r: Result<SAM<M, A, P>, EngineError>)
      ensures r.Failure? <==> FirstMatch(config.stateDefinitions, model).None?
      ensures r.Failure? ==> r.error == InvalidInitialModel
      ensures r.Success? ==>
        var sam := r.value;
        var k := FirstMatch(config.stateDefinitions, model).value;
        var after := After(config, model, k, fuel);
        fresh(sam) && fresh(sam.history) && sam.Valid() && sam.config == config &&
        sam.GetInitialModel() == model && sam.GetInitialState() == config.stateDefinitions[k].state &&
        sam.model == after.model && sam.current == after.current &&
        sam.subscriptions == subscriptions &&
        sam.history.debug == debug &&
        sam.history.histories == Recorded(debug,
          [ConstructorModel(model), StateEntered(model, config.stateDefinitions[k].state)] + after.log, session) &&
        sam.delivered == DeliverAll(subscriptions, after.commits)
    {
      var stateDef := MatchState(config.stateDefinitions, model);
      if stateDef.None? {
        return Failure(InvalidInitialModel);
      }
      var sam := new SAM.Init(config, model, subscriptions, debug, session, stateDef.value);
      var _ := sam.AfterNewState(session, fuel);
      RecordedAppend<M, A, P>(debug, [ConstructorModel(model), StateEntered(model, config.stateDefinitions[stateDef.value].state)],
                     After(config, model, stateDef.value, fuel).log, session);
      return Success(sam);
    }

    /**
     * The constructor's defensive deep copy of its configuration, as far as it
     * concerns subscriptions: each subscription object is a plain record, so
     * the copy allocates a new object per entry (the callback it holds is shared).
     */
    static method CloneSubscriptions(subscriptions: seq<Subscription>) returns (copies: seq<Subscription>)
      ensures |copies| == |subscriptions|
      ensures forall i :: 0 <= i < |copies| ==> fresh(copies[i])
    {
      copies := [];
      for i := 0 to |subscriptions|
        invariant |copies| == i
        invariant forall j :: 0 <= j < i ==> fresh(copies[j])
      {
        var copy := new Subscription();
        copies := copies + [copy];
      }
    }

    /**
     * The constructor as written: the engine's subscription list is the copied
     * configuration's, so it holds none of the references the caller passed.
     */
    static method CreateAsWritten(config: Config<M, A, P>, model: M, subscriptions: seq<Subscription>,
                                  debug: bool, session: Session, fuel: nat) returns (r: Result<SAM<M, A, P>, EngineError>)
      ensures r.Failure? <==> FirstMatch(config.stateDefinitions, model).None?
      ensures r.Failure? ==> r.error == InvalidInitialModel
      ensures r.Success? ==>
        var k := FirstMatch(config.stateDefinitions, model).value;
        var after := After(config, model, k, fuel);
        fresh(r.value) && r.value.Valid() && r.value.config == config &&
        r.value.GetInitialModel() == model && r.value.GetInitialState() == config.stateDefinitions[k].state &&
        r.value.model == after.model && r.value.current == after.current &&
        r.value.history.debug == debug &&
        r.value.history.histories == Recorded(debug,
          [ConstructorModel(model), StateEntered(model, config.stateDefinitions[k].state)] + after.log, session) &&
        r.value.delivered == DeliverAll(r.value.subscriptions, after.commits) &&
        |r.value.subscriptions| == |subscriptions| &&
        forall s :: s in subscriptions ==> s !in r.value.subscriptions
    {
      var copies := CloneSubscriptions(subscriptions);
      r := Create(config, model, copies, debug, session, fuel);
    }

    /**
     * Unsubscribing a subscription passed at construction, as written: the
     * engine's list holds only its copy, so unsubscribe finds nothing to remove
     * and the copy goes on being notified.
     */
    static method UnsubscribeInitialAsWritten(config: Config<M, A, P>, model: M, s: Subscription,
                                              debug: bool, session: Session, fuel: nat)
      returns (r: Result<SAM<M, A, P>, EngineError>)
      ensures r.Success? ==> |r.value.subscriptions| == 1 && s !in r.value.subscriptions
    {
      r := CreateAsWritten(config, model, [s], debug, session, fuel);
      if r.Success? {
        r.value.Unsubscribe(s);
      }
    }

    /** The same with the references kept: unsubscribe removes the subscription. */
    static method UnsubscribeInitial(config: Config<M, A, P>, model: M, s: Subscription,
                                     debug: bool, session: Session, fuel: nat)
      returns (r: Result<SAM<M, A, P>, EngineError>)
      ensures r.Success? ==> r.value.subscriptions == []
    {
      r := Create(config, model, [s], debug, session, fuel);
      if r.Success? {
        r.value.Unsubscribe(s);
      }
    }

    /**
     * Subscribing again a reference passed at construction, after the deep
     * copy: the identity test misses the copy, so the reference is appended
     * beside it and the subscription is registered twice.
     */
    static method SubscribeInitialAsWritten(config: Config<M, A, P>, model: M, s: Subscription,
                                            debug: bool, session: Session, fuel: nat)
      returns (r: Result<SAM<M, A, P>, EngineError>)
      ensures r.Success? ==>
        |r.value.subscriptions| == 2 && r.value.subscriptions[0] != s && r.value.subscriptions[1] == s
    {
      r := CreateAsWritten(config, model, [s], debug, session, fuel);
      if r.Success? {
        r.value.Subscribe(s);
      }
    }

    /** The same with the references kept: subscribing again leaves the one registration. */
    static method SubscribeInitial(config: Config<M, A, P>, model: M, s: Subscription,
                                   debug: bool, session: Session, fuel: nat)
      returns (r: Result<SAM<M, A, P>, EngineError>)
      ensures r.Success? ==> r.value.subscriptions == [s]
    {
      r := Create(config, model, [s], debug, session, fuel);
      if r.Success? {
        r.value.Subscribe(s);
      }
    }

    /** getInitialModel: the model passed at construction. */
    function GetInitialModel(): M {
      initialModel
    }

    /** getInitialState: the state matched at construction. */
    function GetInitialState(): string {
      initialState
    }

    /** subscribe: a no-op for a registered reference, otherwise appends it. */
    method Subscribe(definition: Subscription)
      modifies this`subscriptions
      ensures subscriptions == Subscribed(old(subscriptions), definition)
    {
      if definition in subscriptions {
        return;
      }
      subscriptions := subscriptions + [definition];
    }

    /** unsubscribe: splices out the first matching reference, if any. */
    method Unsubscribe(definition: Subscription)
      modifies this`subscriptions
      ensures subscriptions == Unsubscribed(old(subscriptions), definition)
    {
      var matchingDef := IndexOf(subscriptions, definition);
      if matchingDef != -1 {
        subscriptions := subscriptions[..matchingDef] + subscriptions[matchingDef + 1..];
      }
    }

    /**
     * blockAction: checks the action against the current state's restrictions
     * and, when it is rejected, records the rejection.  The caller turns a
     * rejection into the Blocked end of the session (the source throws).
     */
    method BlockAction(action: A, session: Session) returns (blocked: bool)
      requires Valid()
      modifies history
      ensures blocked == Blocks(CurrentStateDefinition().restrictions, config.actionId(action))
      ensures history.histories == old(history.histories) +
        if blocked then Recorded(history.debug, [DisallowedAction(action, CurrentStateDefinition().state)], session)
        else []
    {
      var def := config.stateDefinitions[current];
      blocked := IsActionDisallowed(config.actionId(action), def);
      if blocked {
        history.Add(DisallowedAction(action, def.state), session);
      }
    }

    /** The model a step leaves behind: the presenter's model once it was accepted. */
    static function ModelAfterStep(oldModel: M, outcome: StepOutcome<M>): M {
      match outcome
      case NoState(next) => next
      case Entered(next, _) => next
      case _ => oldModel
    }

    /**
     * The second half of SAMLoop's step, once a proposal exists: the presenter
     * runs on the current model; an accepted model replaces it and is matched.
     */
    method Present(proposal: P, session: Session) returns (outcome: StepOutcome<M>)
      requires Valid()
      modifies this`model, this`current, history
      ensures Valid()
      ensures var s := PresentStep(config, old(model), proposal);
        outcome == s.outcome &&
        model == ModelAfterStep(old(model), s.outcome) &&
        current == (if s.outcome.Entered? then s.outcome.index else old(current)) &&
        history.histories == old(history.histories) + Recorded(history.debug, s.log, session)
    {
      ghost var h0, d := history.histories, history.debug;
      var oldModel := model;
      var newModel := config.presenter(proposal, model);
      if newModel.None? {
        history.Add(NoModelMade(proposal, model), session);
        return NoModel;
      }
      var next := newModel.value;
      model := next;
      history.Add(Mutation(oldModel, next), session);
      ghost var h1 := history.histories;
      var stateDef := MatchState(config.stateDefinitions, next);
      if stateDef.None? {
        history.Add(NoStateFound(next), session);
        RecordedExtend(h0, d, [Mutation(oldModel, next)], [NoStateFound(next)], session);
        return NoState(next);
      }
      var k := stateDef.value;
      current := k;
      history.Add(StateEntered(next, config.stateDefinitions[k].state), session);
      RecordedExtend(h0, d, [Mutation(oldModel, next)], [StateEntered(next, config.stateDefinitions[k].state)], session);
      return Entered(next, k);
    }

    /**
     * The part of SAMLoop's step between the two gate checks: the action is
     * recorded as taken, createProposal runs, and its result is recorded.
     */
    method Propose(action: A, session: Session, fromState: Option<string>) returns (proposal: Option<P>)
      modifies history
      ensures proposal == config.createProposal(action)
      ensures history.histories == old(history.histories) +
        Recorded(history.debug, [ActionTaken(action, fromState), Proposed(action, proposal)], session)
    {
      ghost var h0, d := history.histories, history.debug;
      history.Add(ActionTaken(action, fromState), session);
      proposal := config.createProposal(action);
      history.Add(Proposed(action, proposal), session);
      ghost var taken: seq<Snapshot<M, A, P>>, made := [ActionTaken(action, fromState)], [Proposed(action, proposal)];
      RecordedExtend(h0, d, taken, made, session);
      assert taken + made == [ActionTaken(action, fromState), Proposed(action, proposal)];
    }

    /**
     * The body of SAMLoop up to the commit: gate, proposal, gate again,
     * presenter, match.  Each stage records its snapshot; the first stage that
     * fails ends the step.
     */
    method LoopStep(action: A, session: Session, fromState: Option<string>) returns (outcome: StepOutcome<M>)
      requires Valid()
      modifies this`model, this`current, history
      ensures Valid()
      ensures var s := RunStep(config, old(model), old(current), action, fromState);
        outcome == s.outcome &&
        model == ModelAfterStep(old(model), s.outcome) &&
        current == (if s.outcome.Entered? then s.outcome.index else old(current)) &&
        history.histories == old(history.histories) + Recorded(history.debug, s.log, session)
    {
      ghost var h0, d := history.histories, history.debug;
      var def := config.stateDefinitions[current];
      var blocked := BlockAction(action, session);
      if blocked {
        return Rejected(config.actionId(action), def.state);
      }
      var proposal := Propose(action, session, fromState);
      if proposal.None? {
        return NoProposal;
      }
      var p := proposal.value;
      ghost var proposed: seq<Snapshot<M, A, P>> := [ActionTaken(action, fromState), Proposed(action, proposal)];
      var blockedAgain := BlockAction(action, session);
      // The state cannot change between the two checks in a sequential run.
      assert !blockedAgain;
      ghost var rest := PresentStep(config, model, p);
      RecordedExtend(h0, d, proposed, rest.log, session);
      outcome := Present(p, session);
    }

    /**
     * SAMLoop: one step for `action` in `session` and, when it commits a
     * state, afterNewState.  The new state is exactly the session Run describes.
     */
    method SAMLoop(action: A, session: Session, fromState: Option<string>, fuel: nat) returns (end: SessionEnd)
      requires Valid()
      modifies this, history
      ensures Valid()
      ensures var r := Run(config, old(model), old(current), action, fromState, fuel);
        model == r.model && current == r.current && end == r.end &&
        history.histories == old(history.histories) + Recorded(history.debug, r.log, session) &&
        delivered == old(delivered) + DeliverAll(subscriptions, r.commits)
      ensures subscriptions == old(subscriptions)
      decreases fuel, 2
    {
      ghost var step := RunStep(config, model, current, action, fromState);
      ghost var r := Run(config, model, current, action, fromState, fuel);
      ghost var h0 := history.histories;
      var outcome := LoopStep(action, session, fromState);
      ghost var h1 := history.histories;
      ghost var d := history.debug;
      assert h1 == h0 + Recorded(d, step.log, session);
      match outcome
      case Rejected(id, st) =>
        assert r.commits == [] && r.log == step.log;
        return Blocked(id, st);
      case NoProposal =>
        assert r.commits == [] && r.log == step.log;
        return HaltNoProposal;
      case NoModel =>
        assert r.commits == [] && r.log == step.log;
        return HaltNoModel;
      case NoState(_) =>
        assert r.commits == [] && r.log == step.log;
        return HaltNoState;
      case Entered(next, k) =>
        ghost var rest := After(config, next, k, fuel);
        assert r == SessionResult(rest.model, rest.current, step.log + rest.log, rest.commits, rest.end);
        RecordedExtend(h0, d, step.log, rest.log, session);
        end := AfterNewState(session, fuel);
    }

    /**
     * The loop of afterNewState: one call per subscription, in list order, each
     * given the committed model and state; the calls made are returned.
     */
    method NotifySubscriptions() returns (calls: seq<Notification<Subscription, M>>)
      requires Valid()
      ensures calls == Deliver(subscriptions, Commit(model, CurrentStateDefinition().state))
    {
      var state := config.stateDefinitions[current].state;
      calls := [];
      for i := 0 to |subscriptions|
        invariant calls == Deliver(subscriptions[..i], Commit(model, state))
      {
        assert subscriptions[..i + 1][..i] == subscriptions[..i];
        calls := calls + [Notification(subscriptions[i], model, state)];
      }
      assert subscriptions[..|subscriptions|] == subscriptions;
    }

    /**
     * afterNewState: notifies every subscription of the committed state, then
     * runs the state's next action, if it derives one.
     */
    method AfterNewState(session: Session, fuel: nat) returns (end: SessionEnd)
      requires Valid()
      modifies this, history
      ensures Valid()
      ensures var r := After(config, old(model), old(current), fuel);
        model == r.model && current == r.current && end == r.end &&
        history.histories == old(history.histories) + Recorded(history.debug, r.log, session) &&
        delivered == old(delivered) + DeliverAll(subscriptions, r.commits)
      ensures subscriptions == old(subscriptions)
      decreases fuel, 1
    {
      ghost var commit := Commit(model, config.stateDefinitions[current].state);
      ghost var r := After(config, model, current, fuel);
      ghost var d0 := delivered;
      var calls := NotifySubscriptions();
      delivered := delivered + calls;
      end := RunNextAction(session, fuel);
      DeliverAllCons(d0, subscriptions, commit, r.commits[1..]);
      assert r.commits == [commit] + r.commits[1..];
    }

    /**
     * The second half of afterNewState, once the subscriptions have been
     * notified of the commit: the state's next action, if it derives one, runs
     * in the same session with the just-committed state as `fromState`.  The
     * commit itself comes first in the session; the later ones are notified here.
     */
    method RunNextAction(session: Session, fuel: nat) returns (end: SessionEnd)
      requires Valid()
      modifies this, history
      ensures Valid()
      ensures var r := After(config, old(model), old(current), fuel);
        model == r.model && current == r.current && end == r.end &&
        history.histories == old(history.histories) + Recorded(history.debug, r.log, session) &&
        r.commits != [] && r.commits[0] == Commit(old(model), config.stateDefinitions[old(current)].state) &&
        delivered == old(delivered) + DeliverAll(subscriptions, r.commits[1..])
      ensures subscriptions == old(subscriptions)
      decreases fuel, 0
    {
      var def := config.stateDefinitions[current];
      ghost var commit := Commit(model, def.state);
      var next := NextAction(def, model);
      if next.None? || fuel == 0 {
        end := if next.None? then Settled else OutOfFuel;
        AfterStops(config, model, current, fuel);
        assert [commit][1..] == [];
        return;
      }
      AfterChains(config, model, current, fuel, next.value);
      ghost var rest := Run(config, model, current, next.value, Some(def.state), fuel - 1);
      assert ([commit] + rest.commits)[1..] == rest.commits;
      end := SAMLoop(next.value, session, Some(def.state), fuel - 1);
    }

    /** execute: opens a fresh session and runs the loop; the outcome is not returned to the caller. */
    method Execute(action: A, session: Session, fuel: nat)
      requires Valid()
      modifies this, history
      ensures Valid()
      ensures var r := Run(config, old(model), old(current), action, None, fuel);
        model == r.model && current == r.current &&
        history.histories == old(history.histories) + Recorded(history.debug, r.log, session) &&
        delivered == old(delivered) + DeliverAll(subscriptions, r.commits)
      ensures subscriptions == old(subscriptions)
    {
      var _ := SAMLoop(action, session, None, fuel);
    }
  }
}
