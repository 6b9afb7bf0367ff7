/**
 * Value-level model of the SAM (State-Action-Model) loop of src/index.ts.
 *
 * The engine is generic in the model type M, the action request type A and the
 * proposal type P.  A configuration supplies the collaborators the loop calls:
 * the proposal factory, the presenter and the ordered state definitions.  The
 * functions here say what one loop step and one whole session (a step plus the
 * chain of actions it derives) do to the engine's state; the class SAM in
 * module SamEngine is proved against them.
 */
module SamSpec {
  import opened Wrappers

  // ---------------------------------------------------------------------------
  // Data model
  // ---------------------------------------------------------------------------

  /** The two kinds of restriction list a state may declare. */
  datatype RestrictionKind = Disallow | StrictlyAllow

  /** A state's restriction policy: its kind and the ids of the listed actions. */
  datatype Restrictions = Restrictions(kind: RestrictionKind, actions: seq<string>)

  /**
   * A state definition: the state's id, its membership predicate, an optional
   * function deriving the next action, and an optional restriction policy.
   */
  datatype StateDef<!M, !A> = StateDef(
    state: string,
    isState: M -> bool,
    nextActionPredicate: Option<M -> Option<A>>,
    restrictions: Option<Restrictions>)

  /**
   * The engine's configuration.  `actionId` reads the `id` every action request
   * carries; `createProposal` is the (here synchronous) proposal factory, which
   * may yield no proposal; `presenter` may yield no model.
   */
  datatype Config<!M, !A, !P> = Config(
    actionId: A -> string,
    createProposal: A -> Option<P>,
    presenter: (P, M) -> Option<M>,
    stateDefinitions: seq<StateDef<M, A>>)

  /** An abstract session token; the random session id generator is not modelled. */
  datatype Session = Session(id: nat)

  /** The kinds of step snapshot the debug history records. */
  datatype Snapshot<M, A, P> =
    | ConstructorModel(initialModel: M)
    | ActionTaken(action: A, fromState: Option<string>)
    | DisallowedAction(action: A, state: string)
    | ProposalMade(proposal: P, action: A)
    | NoProposalMade(action: A)
    | Mutation(oldModel: M, newModel: M)
    | NoModelMade(proposal: P, model: M)
    | StateEntered(model: M, state: string)
    | NoStateFound(model: M)

  /** One history entry: a snapshot stamped with its session. */
  datatype HistoryEntry<M, A, P> = HistoryEntry(snapshot: Snapshot<M, A, P>, session: Session)

  /** A committed transition: the new model and the id of the state it entered. */
  datatype Commit<M> = Commit(model: M, state: string)

  /** One call of a subscription's afterNewState callback. */
  datatype Notification<S, M> = Notification(subscription: S, model: M, state: string)

  /** What a single loop step did. */
  datatype StepOutcome<M> =
    | Rejected(actionId: string, state: string)
    | NoProposal
    | NoModel
    | NoState(newModel: M)
    | Entered(newModel: M, index: nat)

  /** A step's outcome together with the snapshots it records, in order. */
  datatype Step<M, A, P> = Step(outcome: StepOutcome<M>, log: seq<Snapshot<M, A, P>>)

  /** How a session ends. `Blocked` is the error the source throws. */
  datatype SessionEnd =
    | Blocked(actionId: string, state: string)
    | HaltNoProposal
    | HaltNoModel
    | HaltNoState
    | Settled
    | OutOfFuel

  /**
   * The effect of a session: the final model and current state index, the
   * snapshots recorded, the transitions committed (each one notifies every
   * subscription) and how the session ended.
   */
  datatype SessionResult<M, A, P> = SessionResult(
    model: M,
    current: nat,
    log: seq<Snapshot<M, A, P>>,
    commits: seq<Commit<M>>,
    end: SessionEnd)

  // ---------------------------------------------------------------------------
  // Action gate and state matcher
  // ---------------------------------------------------------------------------

  /** Whether a state's restriction policy rejects the action with the given id. */
  predicate Blocks(r: Option<Restrictions>, id: string) {
    match r
    case None => false
    case Some(Restrictions(Disallow, ids)) => id in ids
    case Some(Restrictions(StrictlyAllow, ids)) => id !in ids
  }

  /** An empty strictly-allow list rejects every action. */
  lemma EmptyAllowListBlocksAll(id: string)
    ensures Blocks(Some(Restrictions(StrictlyAllow, [])), id)
  {
  }

  /** The index of the first state definition, in declaration order, whose predicate holds. */
  function FirstMatch<M, A>(defs: seq<StateDef<M, A>>, model: M): (r: Option<nat>)
    ensures r.Some? ==> r.value < |defs| && defs[r.value].isState(model)
    ensures r.Some? ==> forall j :: 0 <= j < r.value ==> !defs[j].isState(model)
    ensures r.None? <==> forall j :: 0 <= j < |defs| ==> !defs[j].isState(model)
  {
    if defs == [] then None
    else if defs[0].isState(model) then Some(0)
    else
      match FirstMatch(defs[1..], model)
      case None => None
      case Some(k) => Some(k + 1)
  }

  /** The action a state derives from the model, if it declares a derivation at all. */
  function NextAction<M, A>(def: StateDef<M, A>, model: M): Option<A> {
    match def.nextActionPredicate
    case None => None
    case Some(f) => f(model)
  }

  // ---------------------------------------------------------------------------
  // One loop step and one session
  // ---------------------------------------------------------------------------

  /** The snapshot recording what createProposal returned for `action`. */
  function Proposed<M, A, P>(action: A, proposal: Option<P>): (s: Snapshot<M, A, P>)
    ensures s.NoProposalMade? <==> proposal.None?
  {
    match proposal
    case None => NoProposalMade(action)
    case Some(p) => ProposalMade(p, action)
  }

  /**
   * The second half of a step, once a proposal exists: the presenter, then the
   * state matcher on the presenter's model.
   */
  function PresentStep<M, A, P>(cfg: Config<M, A, P>, model: M, proposal: P): (s: Step<M, A, P>)
    ensures s.outcome.Entered? ==>
      s.outcome.index < |cfg.stateDefinitions| &&
      FirstMatch(cfg.stateDefinitions, s.outcome.newModel) == Some(s.outcome.index)
    ensures s.outcome.NoState? ==>
      FirstMatch(cfg.stateDefinitions, s.outcome.newModel).None?
    ensures s.outcome.NoModel? || s.outcome.NoState? || s.outcome.Entered?
    ensures s.outcome.NoModel? <==> cfg.presenter(proposal, model).None?
    ensures cfg.presenter(proposal, model).Some? ==>
      var next := cfg.presenter(proposal, model).value;
      (s.outcome.NoState? || s.outcome.Entered?) && s.outcome.newModel == next &&
      (s.outcome.NoState? <==> FirstMatch(cfg.stateDefinitions, next).None?)
    ensures forall i :: 0 <= i < |s.log| ==> !s.log[i].ActionTaken?
  {
    match cfg.presenter(proposal, model)
    case None => Step(NoModel, [NoModelMade(proposal, model)])
    case Some(next) =>
      match FirstMatch(cfg.stateDefinitions, next)
      case None => Step(NoState(next), [Mutation(model, next), NoStateFound(next)])
      case Some(k) => Step(Entered(next, k), [Mutation(model, next), StateEntered(next, cfg.stateDefinitions[k].state)])
  }

  /**
   * One loop step for `action` from the committed `model` and state index
   * `current`: gate, proposal, gate again, presenter, match.
   */
  function RunStep<M, A, P>(cfg: Config<M, A, P>, model: M, current: nat, action: A,
                            fromState: Option<string>): (s: Step<M, A, P>)
    requires current < |cfg.stateDefinitions|
    ensures s.outcome.Rejected? ==>
      s.log == [DisallowedAction(action, cfg.stateDefinitions[current].state)]
    ensures !s.outcome.Rejected? ==>
      s.log != [] && s.log[0] == ActionTaken(action, fromState) &&
      forall i :: 1 <= i < |s.log| ==> !s.log[i].ActionTaken?
    ensures s.outcome.Entered? ==>
      s.outcome.index < |cfg.stateDefinitions| &&
      FirstMatch(cfg.stateDefinitions, s.outcome.newModel) == Some(s.outcome.index)
    ensures s.outcome.NoState? ==>
      FirstMatch(cfg.stateDefinitions, s.outcome.newModel).None?
    ensures s.outcome.Rejected? <==>
      Blocks(cfg.stateDefinitions[current].restrictions, cfg.actionId(action))
    ensures s.outcome.NoProposal? <==>
      !Blocks(cfg.stateDefinitions[current].restrictions, cfg.actionId(action)) &&
      cfg.createProposal(action).None?
    ensures !Blocks(cfg.stateDefinitions[current].restrictions, cfg.actionId(action)) &&
            cfg.createProposal(action).Some? ==>
      var next := cfg.presenter(cfg.createProposal(action).value, model);
      (s.outcome.NoModel? <==> next.None?) &&
      (next.Some? ==>
        (s.outcome.NoState? || s.outcome.Entered?) && s.outcome.newModel == next.value &&
        (s.outcome.NoState? <==> FirstMatch(cfg.stateDefinitions, next.value).None?))
  {
    var def := cfg.stateDefinitions[current];
    var id := cfg.actionId(action);
    if Blocks(def.restrictions, id) then
      Step(Rejected(id, def.state), [DisallowedAction(action, def.state)])
    else
      var proposal := cfg.createProposal(action);
      var proposed := [ActionTaken(action, fromState), Proposed(action, proposal)];
      match proposal
      case None => Step(NoProposal, proposed)
      case Some(p) =>
        if Blocks(def.restrictions, id) then
          Step(Rejected(id, def.state), proposed + [DisallowedAction(action, def.state)])
        else
          var rest := PresentStep(cfg, model, p);
          Step(rest.outcome, proposed + rest.log)
  }

  /**
   * A session started by `action`: one step and, when it commits a state, the
   * chain that state drives.  `fuel` bounds the number of chained actions.
   */
  function Run<M, A, P>(cfg: Config<M, A, P>, model: M, current: nat, action: A,
                        fromState: Option<string>, fuel: nat): (r: SessionResult<M, A, P>)
    requires current < |cfg.stateDefinitions|
    ensures r.current < |cfg.stateDefinitions|
    decreases fuel, 1
  {
    var step := RunStep(cfg, model, current, action, fromState);
    match step.outcome
    case Rejected(id, st) => SessionResult(model, current, step.log, [], Blocked(id, st))
    case NoProposal => SessionResult(model, current, step.log, [], HaltNoProposal)
    case NoModel => SessionResult(model, current, step.log, [], HaltNoModel)
    case NoState(next) => SessionResult(next, current, step.log, [], HaltNoState)
    case Entered(next, k) =>
      var rest := After(cfg, next, k, fuel);
      SessionResult(rest.model, rest.current, step.log + rest.log, rest.commits, rest.end)
  }

  /**
   * What follows a committed state: every subscription is notified of the
   * commit, then the state's next action, if any, runs in the same session.
   */
  function After<M, A, P>(cfg: Config<M, A, P>, model: M, current: nat, fuel: nat): (r: SessionResult<M, A, P>)
    requires current < |cfg.stateDefinitions|
    ensures r.current < |cfg.stateDefinitions|
    decreases fuel, 0
  {
    var def := cfg.stateDefinitions[current];
    var here := [Commit(model, def.state)];
    match NextAction(def, model)
    case None => SessionResult(model, current, [], here, Settled)
    case Some(a) =>
      if fuel == 0 then SessionResult(model, current, [], here, OutOfFuel)
      else
        var rest := Run(cfg, model, current, a, Some(def.state), fuel - 1);
        SessionResult(rest.model, rest.current, rest.log, here + rest.commits, rest.end)
  }

  /** The state reached after running one session per action, in order. */
  function Sessions<M, A, P>(cfg: Config<M, A, P>, model: M, current: nat, actions: seq<A>,
                             fuel: nat): (r: (M, nat))
    requires current < |cfg.stateDefinitions|
    ensures r.1 < |cfg.stateDefinitions|
    decreases |actions|
  {
    if actions == [] then (model, current)
    else
      var s := Run(cfg, model, current, actions[0], None, fuel);
      Sessions(cfg, s.model, s.current, actions[1..], fuel)
  }

  // ---------------------------------------------------------------------------
  // Notifications and history
  // ---------------------------------------------------------------------------

  /** The callbacks one commit makes: one per subscription, in list order. */
  function Deliver<S, M>(subs: seq<S>, c: Commit<M>): (r: seq<Notification<S, M>>)
    ensures |r| == |subs|
    ensures forall i :: 0 <= i < |subs| ==> r[i] == Notification(subs[i], c.model, c.state)
  {
    if subs == [] then []
    else Deliver(subs[..|subs| - 1], c) + [Notification(subs[|subs| - 1], c.model, c.state)]
  }

  /** The callbacks a sequence of commits makes. */
  function DeliverAll<S, M>(subs: seq<S>, commits: seq<Commit<M>>): seq<Notification<S, M>>
  {
    if commits == [] then [] else Deliver(subs, commits[0]) + DeliverAll(subs, commits[1..])
  }

  /** The history entries a list of snapshots adds: all of them in debug mode, none otherwise. */
  function Recorded<M, A, P>(debug: bool, log: seq<Snapshot<M, A, P>>, session: Session): seq<HistoryEntry<M, A, P>>
  {
    if !debug || log == [] then []
    else [HistoryEntry(log[0], session)] + Recorded(debug, log[1..], session)
  }

  /** In debug mode every snapshot becomes one entry of the session, in order. */
  lemma {:induction false} RecordedEntries<M, A, P>(debug: bool, log: seq<Snapshot<M, A, P>>, session: Session)
    ensures |Recorded(debug, log, session)| == if debug then |log| else 0
    ensures debug ==> forall i :: 0 <= i < |log| ==> Recorded(debug, log, session)[i] == HistoryEntry(log[i], session)
    decreases |log|
  {
    if debug && log != [] {
      RecordedEntries(debug, log[1..], session);
    }
  }

  lemma {:induction false} RecordedAppend<M, A, P>(debug: bool, a: seq<Snapshot<M, A, P>>, b: seq<Snapshot<M, A, P>>, session: Session)
    ensures Recorded(debug, a + b, session) == Recorded(debug, a, session) + Recorded(debug, b, session)
    decreases |a|
  {
    if a == [] {
      assert a + b == b;
    } else if debug {
      assert (a + b)[0] == a[0];
      assert (a + b)[1..] == a[1..] + b;
      RecordedAppend(debug, a[1..], b, session);
    }
  }

  /** RecordedAppend, stated for a history that already holds `prior`. */
  lemma RecordedExtend<M, A, P>(prior: seq<HistoryEntry<M, A, P>>, debug: bool,
                                a: seq<Snapshot<M, A, P>>, b: seq<Snapshot<M, A, P>>, session: Session)
    ensures prior + Recorded(debug, a, session) + Recorded(debug, b, session) == prior + Recorded(debug, a + b, session)
  {
    RecordedAppend(debug, a, b, session);
  }

  lemma DeliverAllCons<S, M>(prior: seq<Notification<S, M>>, subs: seq<S>, c: Commit<M>, rest: seq<Commit<M>>)
    ensures DeliverAll(subs, [c] + rest) == Deliver(subs, c) + DeliverAll(subs, rest)
    ensures prior + Deliver(subs, c) + DeliverAll(subs, rest) == prior + DeliverAll(subs, [c] + rest)
  {
    assert ([c] + rest)[1..] == rest;
  }

  // ---------------------------------------------------------------------------
  // Subscription registry
  // ---------------------------------------------------------------------------

  /** The first position of `s` in `l`, or -1 (Array.prototype.findIndex by identity). */
  function IndexOf<S(==)>(l: seq<S>, s: S): (i: int)
    ensures -1 <= i < |l|
    ensures i == -1 <==> s !in l
    ensures 0 <= i ==> l[i] == s && s !in l[..i]
  {
    if l == [] then -1
    else if l[0] == s then 0
    else
      var j := IndexOf(l[1..], s);
      assert j >= 0 ==> l[..j + 1] == [l[0]] + l[1..][..j];
      if j == -1 then -1 else j + 1
  }

  /** The list after subscribe: unchanged when `s` is already in it, otherwise `s` appended. */
  function Subscribed<S(==)>(l: seq<S>, s: S): seq<S> {
    if s in l then l else l + [s]
  }

  /** The list after unsubscribe: the first occurrence of `s` spliced out, the rest in order. */
  function Unsubscribed<S(==)>(l: seq<S>, s: S): (r: seq<S>)
    ensures s !in l ==> r == l
    ensures s in l ==> |r| == |l| - 1
    ensures s in l ==> exists i :: 0 <= i < |l| && l[i] == s && s !in l[..i] && r == l[..i] + l[i + 1..]
    ensures multiset(r) == multiset(l) - multiset{s}
  {
    var i := IndexOf(l, s);
    if i == -1 then l
    else
      assert l == l[..i] + [l[i]] + l[i + 1..];
      l[..i] + l[i + 1..]
  }

  /** Subscribing a reference twice has the effect of subscribing it once. */
  lemma SubscribeIdempotent<S>(l: seq<S>, s: S)
    ensures Subscribed(Subscribed(l, s), s) == Subscribed(l, s)
    ensures s in Subscribed(l, s)
  {
  }

  /** Unsubscribe undoes a subscribe of a fresh reference. */
  lemma UnsubscribeUndoesSubscribe<S>(l: seq<S>, s: S)
    requires s !in l
    ensures Unsubscribed(Subscribed(l, s), s) == l
  {
    var l' := l + [s];
    assert IndexOf(l', s) == |l| by {
      assert l'[..|l|] == l;
    }
    assert l'[..|l|] == l;
  }

  /**
   * However often a reference is subscribed, a commit notifies it once:
   * after two subscribes of a fresh `s`, exactly the last callback goes to `s`.
   */
  lemma DoubleSubscribeNotifiesOnce<S, M>(l: seq<S>, s: S, c: Commit<M>)
    requires s !in l
    ensures var d := Deliver(Subscribed(Subscribed(l, s), s), c);
      |d| == |l| + 1 &&
      d[|l|] == Notification(s, c.model, c.state) &&
      forall i :: 0 <= i < |l| ==> d[i].subscription != s
  {
    SubscribeIdempotent(l, s);
  }

  // ---------------------------------------------------------------------------
  // Properties of steps and sessions
  // ---------------------------------------------------------------------------

  /**
   * A rejected action records only the rejection and changes neither the model
   * nor the state; the rejection happens at the first gate check, before the
   * proposal factory runs.
   */
  lemma BlockedChangesNothing<M, A, P>(cfg: Config<M, A, P>, model: M, current: nat, action: A,
                                       fromState: Option<string>, fuel: nat)
    requires current < |cfg.stateDefinitions|
    requires Blocks(cfg.stateDefinitions[current].restrictions, cfg.actionId(action))
    ensures var st := cfg.stateDefinitions[current].state;
      Run(cfg, model, current, action, fromState, fuel) ==
      SessionResult(model, current, [DisallowedAction(action, st)], [], Blocked(cfg.actionId(action), st))
  {
  }

  /** The gate is checked twice with the same state, so the second check never rejects. */
  lemma SecondCheckNeverRejects<M, A, P>(cfg: Config<M, A, P>, model: M, current: nat, action: A,
                                         fromState: Option<string>)
    requires current < |cfg.stateDefinitions|
    ensures var s := RunStep(cfg, model, current, action, fromState);
      s.outcome.Rejected? <==> Blocks(cfg.stateDefinitions[current].restrictions, cfg.actionId(action))
  {
  }

  /**
   * The halts: no proposal and no model leave model and state as they were;
   * no matching state replaces the model but keeps the old state.  None of them
   * commits or notifies.
   */
  lemma HaltsCommitNothing<M, A, P>(cfg: Config<M, A, P>, model: M, current: nat, action: A,
                                    fromState: Option<string>, fuel: nat)
    requires current < |cfg.stateDefinitions|
    requires !Blocks(cfg.stateDefinitions[current].restrictions, cfg.actionId(action))
    ensures var r := Run(cfg, model, current, action, fromState, fuel);
      var p := cfg.createProposal(action);
      (p.None? ==> r.model == model && r.current == current && r.commits == [] && r.end == HaltNoProposal) &&
      (p.Some? && cfg.presenter(p.value, model).None? ==>
         r.model == model && r.current == current && r.commits == [] && r.end == HaltNoModel) &&
      (p.Some? && cfg.presenter(p.value, model).Some? &&
       FirstMatch(cfg.stateDefinitions, cfg.presenter(p.value, model).value).None? ==>
         r.model == cfg.presenter(p.value, model).value && r.current == current &&
         r.commits == [] && r.end == HaltNoState)
  {
  }

  /**
   * A successful match commits the matched state first: the session's first
   * commit is the presenter's model with the first state that matches it.
   */
  lemma MatchCommitsFirstMatch<M, A, P>(cfg: Config<M, A, P>, model: M, current: nat, action: A,
                                        fromState: Option<string>, fuel: nat)
    requires current < |cfg.stateDefinitions|
    requires RunStep(cfg, model, current, action, fromState).outcome.Entered?
    ensures var o := RunStep(cfg, model, current, action, fromState).outcome;
      var r := Run(cfg, model, current, action, fromState, fuel);
      r.commits != [] &&
      r.commits[0] == Commit(o.newModel, cfg.stateDefinitions[o.index].state)
  {
  }

  /** The number of `ActionTaken` snapshots in a log: the steps that got past the first gate. */
  function ActionsTaken<M, A, P>(log: seq<Snapshot<M, A, P>>): nat {
    if log == [] then 0 else (if log[0].ActionTaken? then 1 else 0) + ActionsTaken(log[1..])
  }

  lemma {:induction false} ActionsTakenLeading<M, A, P>(log: seq<Snapshot<M, A, P>>)
    requires log != [] && forall i :: 1 <= i < |log| ==> !log[i].ActionTaken?
    ensures ActionsTaken(log) == if log[0].ActionTaken? then 1 else 0
    decreases |log|
  {
    if |log| > 1 {
      ActionsTakenLeading(log[1..]);
    }
  }

  lemma {:induction false} ActionsTakenAppend<M, A, P>(a: seq<Snapshot<M, A, P>>, b: seq<Snapshot<M, A, P>>)
    ensures ActionsTaken(a + b) == ActionsTaken(a) + ActionsTaken(b)
  {
    if a != [] {
      assert (a + b)[0] == a[0];
      assert (a + b)[1..] == a[1..] + b;
      ActionsTakenAppend(a[1..], b);
    } else {
      assert a + b == b;
    }
  }

  /**
   * Chaining runs at most one follow-up action per committed state: in a
   * session, every commit is preceded by its own action, and every action
   * after the first is caused by one commit.
   */
  lemma {:induction false} OneActionPerCommit<M, A, P>(cfg: Config<M, A, P>, model: M, current: nat,
                                                       action: A, fromState: Option<string>, fuel: nat)
    requires current < |cfg.stateDefinitions|
    ensures var r := Run(cfg, model, current, action, fromState, fuel);
      |r.commits| <= ActionsTaken(r.log) <= |r.commits| + 1
    decreases fuel, 1
  {
    var step := RunStep(cfg, model, current, action, fromState);
    ActionsTakenLeading(step.log);
    match step.outcome
    case Rejected(_, _) =>
    case NoProposal =>
    case NoModel =>
    case NoState(_) =>
    case Entered(next, k) =>
      var rest := After(cfg, next, k, fuel);
      OneActionPerCommitAfter(cfg, next, k, fuel);
      ActionsTakenAppend(step.log, rest.log);
  }

  lemma {:induction false} OneActionPerCommitAfter<M, A, P>(cfg: Config<M, A, P>, model: M, current: nat, fuel: nat)
    requires current < |cfg.stateDefinitions|
    ensures var r := After(cfg, model, current, fuel);
      1 <= |r.commits| && ActionsTaken(r.log) <= |r.commits| <= ActionsTaken(r.log) + 1
    decreases fuel, 0
  {
    var def := cfg.stateDefinitions[current];
    match NextAction(def, model)
    case None =>
    case Some(a) =>
      if fuel > 0 {
        OneActionPerCommit(cfg, model, current, a, Some(def.state), fuel - 1);
      }
  }

  /**
   * A session commits at most fuel + 1 states, and when it ends without a halt
   * it rests in a state that matches its final model, with the last commit
   * naming that state; it is `Settled` exactly when that state derives no action.
   */
  lemma {:induction false} SessionEndsInMatchedState<M, A, P>(cfg: Config<M, A, P>, model: M, current: nat,
                                                              action: A, fromState: Option<string>, fuel: nat)
    requires current < |cfg.stateDefinitions|
    ensures var r := Run(cfg, model, current, action, fromState, fuel);
      |r.commits| <= fuel + 1 &&
      ((r.end.Settled? || r.end.OutOfFuel?) ==>
        r.commits != [] &&
        cfg.stateDefinitions[r.current].isState(r.model) &&
        r.commits[|r.commits| - 1] == Commit(r.model, cfg.stateDefinitions[r.current].state) &&
        (r.end.Settled? <==> NextAction(cfg.stateDefinitions[r.current], r.model).None?))
    decreases fuel, 1
  {
    var step := RunStep(cfg, model, current, action, fromState);
    match step.outcome
    case Rejected(_, _) =>
    case NoProposal =>
    case NoModel =>
    case NoState(_) =>
    case Entered(next, k) =>
      SessionEndsInMatchedStateAfter(cfg, next, k, fuel);
  }

  lemma {:induction false} SessionEndsInMatchedStateAfter<M, A, P>(cfg: Config<M, A, P>, model: M, current: nat, fuel: nat)
    requires current < |cfg.stateDefinitions|
    requires cfg.stateDefinitions[current].isState(model)
    ensures var r := After(cfg, model, current, fuel);
      1 <= |r.commits| <= fuel + 1 &&
      ((r.end.Settled? || r.end.OutOfFuel?) ==>
        cfg.stateDefinitions[r.current].isState(r.model) &&
        r.commits[|r.commits| - 1] == Commit(r.model, cfg.stateDefinitions[r.current].state) &&
        (r.end.Settled? <==> NextAction(cfg.stateDefinitions[r.current], r.model).None?))
    decreases fuel, 0
  {
    var def := cfg.stateDefinitions[current];
    match NextAction(def, model)
    case None =>
    case Some(a) =>
      if fuel > 0 {
        var here := [Commit(model, def.state)];
        var rest := Run(cfg, model, current, a, Some(def.state), fuel - 1);
        SessionEndsInMatchedState(cfg, model, current, a, Some(def.state), fuel - 1);
        assert (here + rest.commits)[|here + rest.commits| - 1] ==
               if rest.commits == [] then here[0] else rest.commits[|rest.commits| - 1];
      }
  }

  /**
   * A step that passes the gate, obtains a proposal and a model, and matches
   * state `k` commits `k`: the session continues as afterNewState from there.
   */
  lemma RunEnters<M, A, P>(cfg: Config<M, A, P>, model: M, current: nat, action: A,
                           fromState: Option<string>, fuel: nat, p: P, next: M, k: nat)
    requires current < |cfg.stateDefinitions|
    requires !Blocks(cfg.stateDefinitions[current].restrictions, cfg.actionId(action))
    requires cfg.createProposal(action) == Some(p) && cfg.presenter(p, model) == Some(next)
    requires FirstMatch(cfg.stateDefinitions, next) == Some(k)
    ensures var r := Run(cfg, model, current, action, fromState, fuel);
      var rest := After(cfg, next, k, fuel);
      r.model == rest.model && r.current == rest.current && r.end == rest.end && r.commits == rest.commits
  {
    assert RunStep(cfg, model, current, action, fromState).outcome == Entered(next, k);
  }

  /**
   * afterNewState with a next action and fuel left commits the state and then
   * runs the next action in the same session, from the committed state.
   */
  lemma AfterChains<M, A, P>(cfg: Config<M, A, P>, model: M, current: nat, fuel: nat, a: A)
    requires current < |cfg.stateDefinitions|
    requires NextAction(cfg.stateDefinitions[current], model) == Some(a) && 0 < fuel
    ensures var r := After(cfg, model, current, fuel);
      var st := cfg.stateDefinitions[current].state;
      var rest := Run(cfg, model, current, a, Some(st), fuel - 1);
      r == SessionResult(rest.model, rest.current, rest.log, [Commit(model, st)] + rest.commits, rest.end)
  {
  }

  /** afterNewState with no next action, or no fuel left, commits the state and stops. */
  lemma AfterStops<M, A, P>(cfg: Config<M, A, P>, model: M, current: nat, fuel: nat)
    requires current < |cfg.stateDefinitions|
    requires NextAction(cfg.stateDefinitions[current], model).None? || fuel == 0
    ensures After(cfg, model, current, fuel) ==
      SessionResult(model, current, [], [Commit(model, cfg.stateDefinitions[current].state)],
                    if NextAction(cfg.stateDefinitions[current], model).None? then Settled else OutOfFuel)
  {
  }

  /** The commits of a chain that visits `models` in the states `states`, in order. */
  function ChainCommits<M, A>(defs: seq<StateDef<M, A>>, models: seq<M>, states: seq<nat>): (r: seq<Commit<M>>)
    requires |states| == |models|
    requires forall i :: 0 <= i < |states| ==> states[i] < |defs|
    ensures |r| == |models|
    ensures forall i :: 0 <= i < |r| ==> r[i] == Commit(models[i], defs[states[i]].state)
  {
    if models == [] then []
    else [Commit(models[0], defs[states[0]].state)] + ChainCommits(defs, models[1..], states[1..])
  }

  /**
   * A chain of derived actions is followed to its end within one session: when
   * each committed state derives the next action and that action's step enters
   * the next state, afterNewState with enough fuel commits every state of the
   * chain in order and settles in the last one, which derives no action.
   */
  lemma {:induction false} ChainSettles<M, A, P>(cfg: Config<M, A, P>, models: seq<M>, states: seq<nat>,
                                                 actions: seq<A>, fuel: nat)
    requires |models| == |actions| + 1 && |states| == |models|
    requires forall i :: 0 <= i < |states| ==> states[i] < |cfg.stateDefinitions|
    requires forall i :: 0 <= i < |actions| ==>
      NextAction(cfg.stateDefinitions[states[i]], models[i]) == Some(actions[i]) &&
      RunStep(cfg, models[i], states[i], actions[i], Some(cfg.stateDefinitions[states[i]].state)).outcome ==
        Entered(models[i + 1], states[i + 1])
    requires NextAction(cfg.stateDefinitions[states[|actions|]], models[|actions|]).None?
    requires |actions| <= fuel
    ensures var r := After(cfg, models[0], states[0], fuel);
      r.model == models[|actions|] && r.current == states[|actions|] && r.end == Settled &&
      r.commits == ChainCommits(cfg.stateDefinitions, models, states)
    decreases |actions|
  {
    var defs := cfg.stateDefinitions;
    if actions == [] {
      AfterStops(cfg, models[0], states[0], fuel);
      assert ChainCommits(defs, models, states) == [Commit(models[0], defs[states[0]].state)];
    } else {
      AfterChains(cfg, models[0], states[0], fuel, actions[0]);
      ChainSettles(cfg, models[1..], states[1..], actions[1..], fuel - 1);
    }
  }

  /**
   * `inv` is a step invariant of `cfg`: from any configuration satisfying it,
   * a step is either rejected or enters a configuration satisfying it.
   */
  ghost predicate StepsPreserve<M(!new), A(!new), P>(cfg: Config<M, A, P>, inv: (M, nat) -> bool) {
    forall m: M, k: nat, a: A, fromState: Option<string> ::
      k < |cfg.stateDefinitions| && inv(m, k) ==>
        var o := RunStep(cfg, m, k, a, fromState).outcome;
        o.Rejected? || (o.Entered? && inv(o.newModel, o.index))
  }

  /**
   * A step invariant holds after every session, and such a session never
   * halts: it ends rejected, settled or out of fuel.
   */
  lemma {:induction false} RunPreserves<M(!new), A(!new), P>(cfg: Config<M, A, P>, inv: (M, nat) -> bool, model: M,
                                                 current: nat, action: A, fromState: Option<string>, fuel: nat)
    requires current < |cfg.stateDefinitions| && inv(model, current) && StepsPreserve(cfg, inv)
    ensures var r := Run(cfg, model, current, action, fromState, fuel);
      inv(r.model, r.current) && (r.end.Blocked? || r.end.Settled? || r.end.OutOfFuel?)
    decreases fuel, 1
  {
    var step := RunStep(cfg, model, current, action, fromState);
    if step.outcome.Entered? {
      AfterPreserves(cfg, inv, step.outcome.newModel, step.outcome.index, fuel);
    }
  }

  lemma {:induction false} AfterPreserves<M(!new), A(!new), P>(cfg: Config<M, A, P>, inv: (M, nat) -> bool, model: M,
                                                   current: nat, fuel: nat)
    requires current < |cfg.stateDefinitions| && inv(model, current) && StepsPreserve(cfg, inv)
    ensures var r := After(cfg, model, current, fuel);
      inv(r.model, r.current) && (r.end.Blocked? || r.end.Settled? || r.end.OutOfFuel?)
    decreases fuel, 0
  {
    var def := cfg.stateDefinitions[current];
    match NextAction(def, model)
    case None =>
    case Some(a) =>
      if fuel > 0 {
        RunPreserves(cfg, inv, model, current, a, Some(def.state), fuel - 1);
      }
  }

  /** A step invariant holds after any sequence of sessions. */
  lemma {:induction false} SessionsPreserve<M(!new), A(!new), P>(cfg: Config<M, A, P>, inv: (M, nat) -> bool, model: M,
                                                     current: nat, actions: seq<A>, fuel: nat)
    requires current < |cfg.stateDefinitions| && inv(model, current) && StepsPreserve(cfg, inv)
    ensures var r := Sessions(cfg, model, current, actions, fuel);
      inv(r.0, r.1)
    decreases |actions|
  {
    if actions != [] {
      var r := Run(cfg, model, current, actions[0], None, fuel);
      RunPreserves(cfg, inv, model, current, actions[0], None, fuel);
      SessionsPreserve(cfg, inv, r.model, r.current, actions[1..], fuel);
    }
  }
}
