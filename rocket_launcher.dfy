/**
 * The rocket launcher configuration of example/rocket-launcher.tsx: a
 * countdown from 10 that can be started, aborted, continued and reset, and
 * that chains one decrement per committed `counting` state until it reaches
 * `launched`.
 */
module RocketLauncher {
  import opened Wrappers
  import opened SamSpec

  const CounterMax: int := 10

  /** The launcher's model record. */
  datatype RocketModel = RocketModel(counter: int, aborted: bool, started: bool)

  /** The six action requests of the launcher. */
  datatype RocketAction =
    | StartCountdown
    | DecrementCount
    | Launch
    | Abort
    | ContinueCountdown
    | ResetCountdown

  /** The five proposals of the launcher. */
  datatype RocketProposal =
    | AbortProposal
    | LaunchProposal
    | DecrementCountProposal
    | ResetCountdownProposal
    | StartProposal

  const InitialModel: RocketModel := RocketModel(CounterMax, false, false)

  /** The `id` each action request carries. */
  function ActionId(a: RocketAction): string {
    match a
    case StartCountdown => "start-countdown"
    case DecrementCount => "decrement-count"
    case Launch => "launch"
    case Abort => "abort"
    case ContinueCountdown => "continue-countdown"
    case ResetCountdown => "reset-countdown"
  }

  /** The `id` each proposal carries. */
  function ProposalId(p: RocketProposal): string {
    match p
    case AbortProposal => "abort"
    case LaunchProposal => "launch"
    case DecrementCountProposal => "decrement-count"
    case ResetCountdownProposal => "reset-countdown"
    case StartProposal => "start"
  }

  /**
   * createProposal: continue-countdown and decrement-count both propose a
   * decrement; start-countdown proposes `start`; every other action proposes
   * its namesake.  There is always a proposal.
   */
  function CreateProposal(a: RocketAction): (r: Option<RocketProposal>)
    ensures r.Some?
    ensures r.value == DecrementCountProposal <==> a == DecrementCount || a == ContinueCountdown
    ensures ProposalId(r.value) ==
      if a == StartCountdown then "start"
      else if a == ContinueCountdown then "decrement-count"
      else ActionId(a)
  {
    match a
    case StartCountdown => Some(StartProposal)
    case DecrementCount => Some(DecrementCountProposal)
    case Launch => Some(LaunchProposal)
    case Abort => Some(AbortProposal)
    case ContinueCountdown => Some(DecrementCountProposal)
    case ResetCountdown => Some(ResetCountdownProposal)
  }

  /**
   * The presenter's four conditional updates, applied in the order the source
   * applies them to its (copied) model.  The launch proposal changes nothing.
   */
  function Present(p: RocketProposal, m: RocketModel): (r: RocketModel)
    ensures ProposalId(p) == "start" ==> r == m.(started := true)
    ensures ProposalId(p) == "abort" ==> r == m.(aborted := true)
    ensures ProposalId(p) == "reset-countdown" ==> r == InitialModel
    ensures ProposalId(p) == "decrement-count" ==>
      r == if m.counter - 1 >= 0 then m.(counter := m.counter - 1, aborted := false) else m
    ensures ProposalId(p) == "launch" ==> r == m
  {
    var id := ProposalId(p);
    var m1 := if id == "start" then m.(started := true) else m;
    var m2 := if id == "reset-countdown" then RocketModel(CounterMax, false, false) else m1;
    var m3 := if id == "decrement-count" && m2.counter - 1 >= 0 then m2.(counter := m2.counter - 1, aborted := false) else m2;
    var m4 := if id == "abort" then m3.(aborted := true) else m3;
    m4
  }

  /** The presenter never lowers the counter below 0 nor raises it above 10. */
  lemma PresentKeepsCounterInRange(p: RocketProposal, m: RocketModel)
    requires 0 <= m.counter <= CounterMax
    ensures 0 <= Present(p, m).counter <= CounterMax
  {
  }

  /**
   * The presenter as the source writes it: it receives a copy of the model and
   * assigns that copy's fields in place before handing it back.
   */
  class ModelRecord {
    var counter: int
    var aborted: bool
    var started: bool

    constructor (m: RocketModel)
      ensures Value() == m
    {
      counter, aborted, started := m.counter, m.aborted, m.started;
    }

    function Value(): RocketModel
      reads this
    {
      RocketModel(counter, aborted, started)
    }

    method Presenter(proposal: RocketProposal)
      modifies this
      ensures Value() == Present(proposal, old(Value()))
    {
      var id := ProposalId(proposal);
      if id == "start" {
        started := true;
      }
      if id == "reset-countdown" {
        counter := CounterMax;
        aborted := false;
        started := false;
      }
      if id == "decrement-count" && counter - 1 >= 0 {
        counter := counter - 1;
        aborted := false;
      }
      if id == "abort" {
        aborted := true;
      }
    }
  }

  // ---------------------------------------------------------------------------
  // States
  // ---------------------------------------------------------------------------

  predicate IsReady(m: RocketModel) {
    m.counter == CounterMax && !m.aborted && !m.started
  }

  predicate IsCounting(m: RocketModel) {
    m.counter <= CounterMax && m.counter > 0 && !m.aborted && m.started
  }

  predicate IsLaunched(m: RocketModel) {
    m.counter == 0 && m.started && !m.aborted
  }

  predicate IsAborted(m: RocketModel) {
    m.counter <= CounterMax && m.counter >= 0 && m.aborted
  }

  /** The next action of `counting`: a decrement while the counter is positive, a launch at zero. */
  function CountingNextAction(m: RocketModel): Option<RocketAction> {
    if m.counter > 0 then Some(DecrementCount)
    else if m.counter == 0 then Some(Launch)
    else None
  }

  function Defs(): seq<StateDef<RocketModel, RocketAction>> {
    [ StateDef("ready", IsReady, None, Some(Restrictions(StrictlyAllow, ["start-countdown"]))),
      StateDef("counting", IsCounting, Some(CountingNextAction), None),
      StateDef("launched", IsLaunched, None, Some(Restrictions(Disallow, ["decrement-count"]))),
      StateDef("aborted", IsAborted, None, Some(Restrictions(StrictlyAllow, ["continue-countdown"]))) ]
  }

  /** The configuration passed to the engine. */
  function Rocket(): Config<RocketModel, RocketAction, RocketProposal> {
    Config(ActionId, CreateProposal, (p, m) => Some(Present(p, m)), Defs())
  }

  const Ready: nat := 0
  const Counting: nat := 1
  const Launched: nat := 2
  const Aborted: nat := 3

  // ---------------------------------------------------------------------------
  // State-level facts
  // ---------------------------------------------------------------------------

  /** The initial model is `ready`, the first definition. */
  lemma InitialModelIsReady()
    ensures FirstMatch(Defs(), InitialModel) == Some(Ready)
  {
  }

  /**
   * The four predicates are pairwise disjoint, so whichever one holds is the
   * one the matcher picks: declaration order does not matter.
   */
  lemma StatesDisjoint(m: RocketModel, k: nat)
    requires k < |Defs()| && Defs()[k].isState(m)
    ensures forall j :: 0 <= j < |Defs()| && j != k ==> !Defs()[j].isState(m)
    ensures FirstMatch(Defs(), m) == Some(k)
  {
  }

  /**
   * The restriction lists: `ready` admits only start-countdown, `counting`
   * admits everything, `launched` rejects only decrement-count and `aborted`
   * admits only continue-countdown.
   */
  lemma RestrictionsOfStates(a: RocketAction)
    ensures Blocks(Defs()[Ready].restrictions, ActionId(a)) <==> a != StartCountdown
    ensures !Blocks(Defs()[Counting].restrictions, ActionId(a))
    ensures Blocks(Defs()[Launched].restrictions, ActionId(a)) <==> a == DecrementCount
    ensures Blocks(Defs()[Aborted].restrictions, ActionId(a)) <==> a != ContinueCountdown
  {
  }

  /** Only `counting` derives a next action, and inside `counting` it is always a decrement. */
  lemma NextActions(m: RocketModel)
    ensures NextAction(Defs()[Ready], m).None?
    ensures NextAction(Defs()[Launched], m).None?
    ensures NextAction(Defs()[Aborted], m).None?
    ensures IsCounting(m) ==> NextAction(Defs()[Counting], m) == Some(DecrementCount)
  {
  }

  // ---------------------------------------------------------------------------
  // The countdown
  // ---------------------------------------------------------------------------

  /** One decrement from `counting` at counter c enters `launched` when c is 1 and `counting` above. */
  lemma DecrementFromCounting(c: int)
    requires 0 < c <= CounterMax
    ensures RunStep(Rocket(), RocketModel(c, false, true), Counting, DecrementCount, Some(Defs()[Counting].state)).outcome ==
      Entered(RocketModel(c - 1, false, true), if c == 1 then Launched else Counting)
  {
    StatesDisjoint(RocketModel(c - 1, false, true), if c == 1 then Launched else Counting);
    RestrictionsOfStates(DecrementCount);
  }

  /** The models a countdown from c visits: counters c, c-1, ..., 0. */
  function CountdownModels(c: nat): (r: seq<RocketModel>)
    ensures |r| == c + 1 && forall i :: 0 <= i <= c ==> r[i] == RocketModel(c - i, false, true)
  {
    seq(c + 1, i => RocketModel(c - i, false, true))
  }

  /** The states a countdown from c visits: `counting` c times, then `launched`. */
  function CountdownStates(c: nat): (r: seq<nat>)
    ensures |r| == c + 1 && forall i :: 0 <= i <= c ==> r[i] == if i < c then Counting else Launched
  {
    seq(c + 1, i => if i < c then Counting else Launched)
  }

  /**
   * Committing `counting` at counter c runs the decrement chain to the end:
   * c decrements, one commit per counter value (`counting` for c down to 1,
   * then `launched` at 0), ending settled in `launched`.
   */
  lemma CountdownReachesLaunched(c: nat, fuel: nat)
    requires 0 < c <= CounterMax && c <= fuel
    ensures var r := After(Rocket(), RocketModel(c, false, true), Counting, fuel);
      r.model == RocketModel(0, false, true) && r.current == Launched && r.end == Settled &&
      |r.commits| == c + 1 &&
      (forall i :: 0 <= i < c ==> r.commits[i] == Commit(RocketModel(c - i, false, true), "counting")) &&
      r.commits[c] == Commit(RocketModel(0, false, true), "launched")
  {
    var models, states := CountdownModels(c), CountdownStates(c);
    var actions := seq(c, i => DecrementCount);
    CountdownSteps(c, actions);
    NextActions(models[c]);
    ChainSettles(Rocket(), models, states, actions, fuel);
  }

  /** Each of the c steps of a countdown from c chains a decrement and enters the next counter value. */
  lemma CountdownSteps(c: nat, actions: seq<RocketAction>)
    requires 0 < c <= CounterMax && actions == seq(c, i => DecrementCount)
    ensures forall i :: 0 <= i < c ==>
      NextAction(Defs()[CountdownStates(c)[i]], CountdownModels(c)[i]) == Some(actions[i]) &&
      RunStep(Rocket(), CountdownModels(c)[i], CountdownStates(c)[i], actions[i],
              Some(Defs()[CountdownStates(c)[i]].state)).outcome ==
        Entered(CountdownModels(c)[i + 1], CountdownStates(c)[i + 1])
  {
    forall i | 0 <= i < c
      ensures NextAction(Defs()[CountdownStates(c)[i]], CountdownModels(c)[i]) == Some(actions[i])
      ensures RunStep(Rocket(), CountdownModels(c)[i], CountdownStates(c)[i], actions[i],
              Some(Defs()[CountdownStates(c)[i]].state)).outcome ==
        Entered(CountdownModels(c)[i + 1], CountdownStates(c)[i + 1])
    {
      CountdownStep(c, i);
    }
  }

  /** Step i of a countdown from c: the decrement chained at counter c - i. */
  lemma CountdownStep(c: nat, i: nat)
    requires i < c <= CounterMax
    ensures NextAction(Defs()[CountdownStates(c)[i]], CountdownModels(c)[i]) == Some(DecrementCount)
    ensures RunStep(Rocket(), CountdownModels(c)[i], CountdownStates(c)[i], DecrementCount,
              Some(Defs()[CountdownStates(c)[i]].state)).outcome ==
        Entered(CountdownModels(c)[i + 1], CountdownStates(c)[i + 1])
  {
    NextActions(RocketModel(c - i, false, true));
    DecrementFromCounting(c - i);
  }

  /**
   * Starting the countdown from the initial `ready` state, with room for ten
   * chained actions, launches the rocket within the same session.
   */
  lemma StartCountdownLaunches(fuel: nat)
    requires CounterMax <= fuel
    ensures var r := Run(Rocket(), InitialModel, Ready, StartCountdown, None, fuel);
      r.model == RocketModel(0, false, true) && r.current == Launched && r.end == Settled &&
      |r.commits| == CounterMax + 1
  {
    var m := RocketModel(CounterMax, false, true);
    StatesDisjoint(m, Counting);
    RestrictionsOfStates(StartCountdown);
    RunEnters(Rocket(), InitialModel, Ready, StartCountdown, None, fuel, StartProposal, m, Counting);
    CountdownReachesLaunched(CounterMax as nat, fuel);
  }

  /** The countdown cannot be decremented from `ready`: the action is rejected and nothing changes. */
  lemma DecrementBlockedInReady(fuel: nat)
    ensures Run(Rocket(), InitialModel, Ready, DecrementCount, None, fuel) ==
      SessionResult(InitialModel, Ready, [DisallowedAction(DecrementCount, "ready")], [],
                    Blocked("decrement-count", "ready"))
  {
    RestrictionsOfStates(DecrementCount);
    BlockedChangesNothing(Rocket(), InitialModel, Ready, DecrementCount, None, fuel);
  }

  /** Aborting from `counting` keeps the counter and settles in `aborted`. */
  lemma AbortFromCounting(c: int, fuel: nat)
    requires 0 < c <= CounterMax
    ensures var r := Run(Rocket(), RocketModel(c, false, true), Counting, Abort, None, fuel);
      r.model == RocketModel(c, true, true) && r.current == Aborted && r.end == Settled
  {
    var next := RocketModel(c, true, true);
    StatesDisjoint(next, Aborted);
    RestrictionsOfStates(Abort);
    RunEnters(Rocket(), RocketModel(c, false, true), Counting, Abort, None, fuel, AbortProposal, next, Aborted);
    NextActions(next);
    AfterStops(Rocket(), next, Aborted, fuel);
  }

  /**
   * Continuing an aborted countdown with enough fuel decrements once and
   * resumes the chain, which ends settled in `launched`.
   */
  lemma ContinueAfterAbortLaunches(c: int, fuel: nat)
    requires 0 < c <= CounterMax && c <= fuel
    ensures var r := Run(Rocket(), RocketModel(c, true, true), Aborted, ContinueCountdown, None, fuel);
      r.model == RocketModel(0, false, true) && r.current == Launched && r.end == Settled
  {
    var m := RocketModel(c, true, true);
    var next := RocketModel(c - 1, false, true);
    RestrictionsOfStates(ContinueCountdown);
    if c == 1 {
      StatesDisjoint(next, Launched);
      RunEnters(Rocket(), m, Aborted, ContinueCountdown, None, fuel, DecrementCountProposal, next, Launched);
      NextActions(next);
      AfterStops(Rocket(), next, Launched, fuel);
    } else {
      StatesDisjoint(next, Counting);
      RunEnters(Rocket(), m, Aborted, ContinueCountdown, None, fuel, DecrementCountProposal, next, Counting);
      CountdownReachesLaunched(c - 1, fuel);
    }
  }

  /** Resetting from `launched` restores the initial model and settles in `ready`. */
  lemma ResetFromLaunched(fuel: nat)
    ensures var r := Run(Rocket(), RocketModel(0, false, true), Launched, ResetCountdown, None, fuel);
      r.model == InitialModel && r.current == Ready && r.end == Settled
  {
    InitialModelIsReady();
    RestrictionsOfStates(ResetCountdown);
    RunEnters(Rocket(), RocketModel(0, false, true), Launched, ResetCountdown, None, fuel,
              ResetCountdownProposal, InitialModel, Ready);
    NextActions(InitialModel);
    AfterStops(Rocket(), InitialModel, Ready, fuel);
  }

  /** `aborted` strictly allows continue-countdown only, so a reset is rejected there. */
  lemma ResetBlockedInAborted(m: RocketModel, fuel: nat)
    ensures Run(Rocket(), m, Aborted, ResetCountdown, None, fuel) ==
      SessionResult(m, Aborted, [DisallowedAction(ResetCountdown, "aborted")], [],
                    Blocked("reset-countdown", "aborted"))
  {
    RestrictionsOfStates(ResetCountdown);
    BlockedChangesNothing(Rocket(), m, Aborted, ResetCountdown, None, fuel);
  }

  /**
   * An abort after the launch leaves the launcher in `aborted` at counter 0,
   * from which no action changes model or state: continue-countdown is the
   * only action admitted and it cannot decrement below 0.
   */
  lemma AbortedAtZeroIsStuck(a: RocketAction, fuel: nat)
    ensures var r := Run(Rocket(), RocketModel(0, false, true), Launched, Abort, None, fuel);
      r.model == RocketModel(0, true, true) && r.current == Aborted && r.end == Settled
    ensures var r := Run(Rocket(), RocketModel(0, true, true), Aborted, a, None, fuel);
      r.model == RocketModel(0, true, true) && r.current == Aborted
  {
    var stuck := RocketModel(0, true, true);
    StatesDisjoint(stuck, Aborted);
    NextActions(stuck);
    AfterStops(Rocket(), stuck, Aborted, fuel);
    RestrictionsOfStates(Abort);
    RunEnters(Rocket(), RocketModel(0, false, true), Launched, Abort, None, fuel, AbortProposal, stuck, Aborted);
    RestrictionsOfStates(a);
    if a == ContinueCountdown {
      RunEnters(Rocket(), stuck, Aborted, a, None, fuel, DecrementCountProposal, stuck, Aborted);
    } else {
      BlockedChangesNothing(Rocket(), stuck, Aborted, a, None, fuel);
    }
  }

  // ---------------------------------------------------------------------------
  // Reachable states
  // ---------------------------------------------------------------------------

  /**
   * The models the launcher can reach: the counter within 0..10, an abort only
   * after a start, and before a start the initial counter.
   */
  predicate Reachable(m: RocketModel) {
    0 <= m.counter <= CounterMax && (m.aborted ==> m.started) &&
    (!m.started ==> m.counter == CounterMax && !m.aborted)
  }

  /** Every reachable model matches exactly one state. */
  lemma ReachableMatchesAState(m: RocketModel)
    requires Reachable(m)
    ensures FirstMatch(Defs(), m).Some?
  {
    var k := if !m.started then Ready else if m.aborted then Aborted else if m.counter > 0 then Counting else Launched;
    StatesDisjoint(m, k);
  }

  /**
   * One step from a reachable model resting in its own state is either
   * rejected or enters the state of a reachable model: proposals and models are
   * always produced and a state always matches, so no step halts.
   */
  lemma StepKeepsReachable(m: RocketModel, current: nat, a: RocketAction, fromState: Option<string>)
    requires Reachable(m) && FirstMatch(Defs(), m) == Some(current)
    ensures var s := RunStep(Rocket(), m, current, a, fromState);
      s.outcome.Rejected? || (s.outcome.Entered? && Reachable(s.outcome.newModel))
  {
    if !Blocks(Defs()[current].restrictions, ActionId(a)) {
      var p := CreateProposal(a).value;
      var next := Present(p, m);
      if !m.started {
        StatesDisjoint(m, Ready);
        RestrictionsOfStates(a);
      }
      assert Reachable(next);
      ReachableMatchesAState(next);
      RunEnters(Rocket(), m, current, a, fromState, 0, p, next, FirstMatch(Defs(), next).value);
    }
  }

  /** A reachable model resting in the state it matches. */
  predicate AtRest(m: RocketModel, current: nat) {
    Reachable(m) && FirstMatch(Defs(), m) == Some(current)
  }

  /** Resting in a reachable model is a step invariant of the launcher. */
  lemma AtRestIsStepInvariant()
    ensures StepsPreserve(Rocket(), AtRest)
  {
    forall m: RocketModel, k: nat, a: RocketAction, fromState: Option<string> | k < |Defs()| && AtRest(m, k)
      ensures var o := RunStep(Rocket(), m, k, a, fromState).outcome;
        o.Rejected? || (o.Entered? && AtRest(o.newModel, o.index))
    {
      StepKeepsReachable(m, k, a, fromState);
    }
  }

  /**
   * Any sequence of sessions from the initial `ready` state rests in a
   * reachable model and its state, and no session of it halts.
   */
  lemma SessionsKeepReachable(actions: seq<RocketAction>, fuel: nat)
    ensures var r := Sessions(Rocket(), InitialModel, Ready, actions, fuel);
      Reachable(r.0) && FirstMatch(Defs(), r.0) == Some(r.1)
  {
    InitialModelIsReady();
    AtRestIsStepInvariant();
    SessionsPreserve(Rocket(), AtRest, InitialModel, Ready, actions, fuel);
  }

  /** A session from a reachable model at rest ends at rest, rejected, settled or out of fuel. */
  lemma RunKeepsReachable(m: RocketModel, current: nat, a: RocketAction, fromState: Option<string>, fuel: nat)
    requires Reachable(m) && FirstMatch(Defs(), m) == Some(current)
    ensures var r := Run(Rocket(), m, current, a, fromState, fuel);
      Reachable(r.model) && FirstMatch(Defs(), r.model) == Some(r.current) &&
      (r.end.Blocked? || r.end.Settled? || r.end.OutOfFuel?)
  {
    AtRestIsStepInvariant();
    RunPreserves(Rocket(), AtRest, m, current, a, fromState, fuel);
  }
}
