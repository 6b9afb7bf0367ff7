/**
 * The simple counter configuration of example/simple-counter.tsx: one action
 * proposes a new count, the presenter accepts it only within 0..10, and two
 * states tell a count below 10 from the maximum.
 */
module SimpleCounter {
  import opened Wrappers
  import opened SamSpec

  const CountMax: int := 10

  /** The counter's model record. */
  datatype CounterModel = CounterModel(count: int)

  /** The only action request, carrying the requested count. */
  datatype ChangeCountAction = ChangeCountAction(count: int)

  /** The only proposal, carrying the proposed count. */
  datatype ChangeCountProposal = ChangeCountProposal(count: int)

  const InitialModel: CounterModel := CounterModel(0)

  function ActionId(a: ChangeCountAction): string {
    "change-count-action"
  }

  function ProposalId(p: ChangeCountProposal): string {
    "change-count-proposal"
  }

  /** createProposal: a change-count action proposes the same count. */
  function CreateProposal(a: ChangeCountAction): (r: Option<ChangeCountProposal>)
    ensures r == Some(ChangeCountProposal(a.count))
  {
    if ActionId(a) == "change-count-action" then Some(ChangeCountProposal(a.count)) else None
  }

  /** The presenter: the proposed count is taken only when it lies within 0..10. */
  function Present(p: ChangeCountProposal, m: CounterModel): (r: CounterModel)
    ensures 0 <= p.count <= CountMax ==> r.count == p.count
    ensures !(0 <= p.count <= CountMax) ==> r == m
  {
    if ProposalId(p) == "change-count-proposal" && p.count >= 0 && p.count <= CountMax then m.(count := p.count)
    else m
  }

  /**
   * The presenter as the source writes it: it assigns the count of the model
   * copy it receives, in place, and hands the copy back.
   */
  class ModelRecord {
    var count: int

    constructor (m: CounterModel)
      ensures Value() == m
    {
      count := m.count;
    }

    function Value(): CounterModel
      reads this
    {
      CounterModel(count)
    }

    method Presenter(proposal: ChangeCountProposal)
      modifies this
      ensures Value() == Present(proposal, old(Value()))
    {
      if ProposalId(proposal) == "change-count-proposal" && proposal.count >= 0 && proposal.count <= CountMax {
        count := proposal.count;
      }
    }
  }

  predicate IsShowCount(m: CounterModel) {
    m.count < CountMax
  }

  predicate IsMaxCount(m: CounterModel) {
    m.count == CountMax
  }

  function Defs(): seq<StateDef<CounterModel, ChangeCountAction>> {
    [ StateDef("show-count", IsShowCount, None, None),
      StateDef("max-count", IsMaxCount, None, None) ]
  }

  /** The configuration passed to the engine; the presenter always returns a model. */
  function Counter(): Config<CounterModel, ChangeCountAction, ChangeCountProposal> {
    Config(ActionId, CreateProposal, (p, m) => Some(Present(p, m)), Defs())
  }

  const ShowCount: nat := 0
  const MaxCount: nat := 1

  predicate Bounded(m: CounterModel) {
    0 <= m.count <= CountMax
  }

  /** The state a bounded count matches: `show-count` below 10, `max-count` at 10. */
  function StateOf(m: CounterModel): nat {
    if m.count < CountMax then ShowCount else MaxCount
  }

  /** The initial model is `show-count`. */
  lemma InitialModelShowsCount()
    ensures FirstMatch(Defs(), InitialModel) == Some(ShowCount)
  {
  }

  /**
   * `show-count` holds exactly below 10 and `max-count` exactly at 10, so a
   * bounded count matches one state, which the matcher finds.
   */
  lemma StatesOfCount(m: CounterModel)
    ensures IsShowCount(m) <==> m.count < CountMax
    ensures IsMaxCount(m) <==> m.count == CountMax
    ensures Bounded(m) ==> FirstMatch(Defs(), m) == Some(StateOf(m)) && !(IsShowCount(m) && IsMaxCount(m))
  {
  }

  /** The presenter keeps a bounded count bounded, whatever the proposal. */
  lemma PresentKeepsBounded(p: ChangeCountProposal, m: CounterModel)
    requires Bounded(m)
    ensures Bounded(Present(p, m))
  {
  }

  /** Neither state restricts an action or derives a next action. */
  lemma NoGateNoChain(k: nat, a: ChangeCountAction, m: CounterModel)
    requires k < |Defs()|
    ensures !Blocks(Defs()[k].restrictions, ActionId(a))
    ensures NextAction(Defs()[k], m).None?
  {
  }

  /**
   * One session from a bounded count at rest: the action passes the gate, the
   * proposed count is taken when it lies in 0..10 and ignored otherwise, the
   * matching state is committed once and the session settles there.
   */
  lemma SessionSetsCount(m: CounterModel, a: ChangeCountAction, fuel: nat)
    requires Bounded(m)
    ensures var r := Run(Counter(), m, StateOf(m), a, None, fuel);
      var next := if 0 <= a.count <= CountMax then CounterModel(a.count) else m;
      r.model == next && r.current == StateOf(next) && r.end == Settled &&
      r.commits == [Commit(next, Defs()[StateOf(next)].state)]
  {
    var next := if 0 <= a.count <= CountMax then CounterModel(a.count) else m;
    StatesOfCount(next);
    NoGateNoChain(StateOf(m), a, m);
    RunEnters(Counter(), m, StateOf(m), a, None, fuel, ChangeCountProposal(a.count), next, StateOf(next));
    NoGateNoChain(StateOf(next), a, next);
    AfterStops(Counter(), next, StateOf(next), fuel);
  }

  /** A bounded count resting in the state it matches. */
  predicate AtRest(m: CounterModel, current: nat) {
    Bounded(m) && current == StateOf(m)
  }

  /** Resting at a bounded count is a step invariant of the counter. */
  lemma AtRestIsStepInvariant()
    ensures StepsPreserve(Counter(), AtRest)
  {
    forall m: CounterModel, k: nat, a: ChangeCountAction, fromState: Option<string> | k < |Defs()| && AtRest(m, k)
      ensures var o := RunStep(Counter(), m, k, a, fromState).outcome;
        o.Rejected? || (o.Entered? && AtRest(o.newModel, o.index))
    {
      var next := if 0 <= a.count <= CountMax then CounterModel(a.count) else m;
      StatesOfCount(next);
      NoGateNoChain(k, a, m);
      assert RunStep(Counter(), m, k, a, fromState).outcome == Entered(next, StateOf(next));
    }
  }

  /**
   * Starting from 0, any sequence of change-count actions keeps the count in
   * 0..10 and the engine resting in the count's own state, so neither the
   * "no model" nor the "no state" halt can occur.
   */
  lemma SessionsKeepBounded(actions: seq<ChangeCountAction>, fuel: nat)
    ensures var r := Sessions(Counter(), InitialModel, ShowCount, actions, fuel);
      Bounded(r.0) && r.1 == StateOf(r.0) && FirstMatch(Defs(), r.0) == Some(r.1)
  {
    AtRestIsStepInvariant();
    SessionsPreserve(Counter(), AtRest, InitialModel, ShowCount, actions, fuel);
    var r := Sessions(Counter(), InitialModel, ShowCount, actions, fuel);
    StatesOfCount(r.0);
  }
}
