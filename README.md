# SAM engine: a verified Dafny model

This project models the SAM (State-Action-Model) engine of `src/index.ts` and
the two configurations it ships as examples: the rocket launcher and the
simple counter.

An engine holds a model and a current state definition. `execute` runs one
loop for an action request. The loop goes through these stages, in order:

1. the action gate, using the current state's `disallow` or `strictly-allow` list;
2. the proposal factory;
3. the gate again;
4. the presenter, which derives the new model;
5. replacing the model;
6. the state matcher, which picks the first definition whose predicate holds;
7. committing that state;
8. calling every subscription's `afterNewState`;
9. optionally one follow-up action, derived by the new state's `nextActionPredicate` and run in the same session.

A debug-mode engine appends one history entry per outcome: the initial model and state, the action, a rejection by the gate, the proposal or its absence, the mutation or the missing model, and the new state or its absence. The notifications and the follow-up action add no entry of their own.

The files:

- `wrappers.dfy`: the `Option` and `Result` types.
- `sam_spec.dfy`, module `SamSpec`: the value-level model.
  - The configuration, snapshot, commit and notification types.
  - The gate predicate `Blocks` and the first-match function `FirstMatch`.
  - One loop step, `RunStep` (made of `Proposed` and `PresentStep`).
  - One session, `Run` and `After`. These are mutually recursive and bounded by a `fuel` count of chained actions.
  - The subscription-list functions.
  - The lemmas about steps and sessions:
    - rejections and halts change nothing;
    - a match commits the first matching state;
    - at most one action runs per committed state;
    - the final state matches the final model;
    - derived action chains are followed to the end;
    - step invariants are preserved by every session.
- `sam_engine.dfy`, module `SamEngine`: the imperative engine.
  - `IsActionDisallowed` and `MatchState` are the search loops of the source.
  - `LoopHistory` is the debug log.
  - `Subscription` is a reference with identity.
  - Class `SAM` has the fields `model`, `current` (the current state definition, as an index into the configuration's definitions) and `subscriptions`. Its methods are proved to leave exactly the state that `Run`/`After` describe. They also append exactly the history entries and make exactly the subscription calls described there; the calls are kept in a ghost trace `delivered`.
- `rocket_launcher.dfy`, module `RocketLauncher`: the launcher configuration and its scenarios.
  - The countdown launches.
  - The predicates are disjoint.
  - The counter stays in 0..10.
  - No session from the initial model ever halts.
- `simple_counter.dfy`, module `SimpleCounter`: the counter configuration. Its count stays in 0..10 and it always rests in one of its two states.

Two consequences of the rocket launcher's definitions are worth stating:

- `aborted` strictly allows only `continue-countdown` (example/rocket-launcher.tsx:177-180). A reset is therefore rejected there (`RocketLauncher.ResetBlockedInAborted`).
- `counting` requires `counter > 0` (example/rocket-launcher.tsx:148). A decrement to 0 therefore matches `launched` directly, and the `launch` branch of the counting state's next-action function (lines 155-158) is never taken (`RocketLauncher.NextActions`, `RocketLauncher.CountdownReachesLaunched`).

## Model

| member | source | states |
|---|---|---|
| SamEngine.IsActionDisallowed | src/index.ts:77-96 | With no restrictions, nothing is rejected. Under `disallow`, the action is rejected exactly when its id is listed. Under `strictly-allow`, it is rejected exactly when its id is not listed. The result agrees with `Blocks`. |
| SamSpec.Blocks | src/index.ts:77-96 | Definition, with no contract of its own: no policy rejects nothing, `disallow` rejects the listed ids, `strictly-allow` rejects the unlisted ones. `SamEngine.IsActionDisallowed` is proved to agree with it. |
| SamSpec.EmptyAllowListBlocksAll | src/index.ts:85-92 | An empty `strictly-allow` list rejects every action. |
| SamSpec.FirstMatch | src/index.ts:404-416 | The result is the earliest definition whose predicate holds: it holds, and every definition before it fails. It is `None` exactly when no predicate holds. |
| SamEngine.MatchState | src/index.ts:404-416 | The loop returns the earliest matching definition, or `None` exactly when none matches. The result equals `FirstMatch`. |
| SamEngine.LoopHistory.constructor | src/index.ts:146-150 | The history starts empty, with the given debug setting. |
| SamEngine.LoopHistory.Add | src/index.ts:167-187 | Appends one entry (snapshot and session) in debug mode, and nothing otherwise. |
| SamSpec.Recorded | src/index.ts:167-187 | Definition, with no contract of its own: the entries a list of snapshots adds, each stamped with the session, and none unless debug is on. `SamSpec.RecordedEntries` and `SamSpec.RecordedAppend` state its properties; every history clause of the engine is stated through it. |
| SamSpec.RecordedEntries | src/index.ts:167-187 | In debug mode, a list of snapshots adds one entry per snapshot, in order, stamped with the session. Otherwise it adds none. |
| SamSpec.RecordedAppend | src/index.ts:167-187 | Recording two snapshot lists one after the other equals recording their concatenation. |
| SamSpec.RecordedExtend | src/index.ts:167-187 | The same, on a history that already holds entries. |
| SamEngine.SAM.Init | src/index.ts:221-254 | Sets the fields, with the current state as the first match. Records the constructor-model and state snapshots. No callback has been made yet. |
| SamEngine.SAM.Create | src/index.ts:221-265 | Fails with `InvalidInitialModel` exactly when the initial model matches no state. Otherwise: the initial model and initial state are the ones captured, and the getters return them; model and state are those after `After` from the first match; the subscriptions are the ones passed; the history and the callbacks are exactly those of the constructor's `afterNewState` session. |
| SamEngine.SAM.CloneSubscriptions | src/index.ts:224-226 | The configuration copy gives each subscription a fresh object. |
| SamEngine.SAM.CreateAsWritten | src/index.ts:221-257 | As `Create`, except that the engine's subscription list holds none of the references passed in. |
| SamEngine.SAM.GetInitialModel | src/index.ts:259-261 | Definition, with no contract of its own: returns the `const` initial model, which no step can change. `SamEngine.SAM.Create` states its value. |
| SamEngine.SAM.GetInitialState | src/index.ts:263-265 | Definition, with no contract of its own: returns the `const` initial state id, which no step can change. `SamEngine.SAM.Create` states its value. |
| SamEngine.SAM.UnsubscribeInitialAsWritten | src/index.ts:275-280 | Once the constructor has deep-copied its configuration (lines 224-226), unsubscribing a reference passed at construction leaves its copy in the list. |
| SamEngine.SAM.UnsubscribeInitial | src/index.ts:275-280 | With the references kept, unsubscribing the only subscription empties the list. |
| SamEngine.SAM.SubscribeInitialAsWritten | src/index.ts:267-273 | Once the constructor has deep-copied its configuration (lines 224-226), subscribing again a reference passed at construction appends it beside its copy: two registrations, the copy first. |
| SamEngine.SAM.SubscribeInitial | src/index.ts:267-273 | With the references kept, subscribing again the only subscription leaves the list as it was. |
| SamSpec.Subscribed | src/index.ts:267-273 | Definition, with no contract of its own: the list is unchanged if the reference is registered; otherwise the reference is appended. `SamSpec.SubscribeIdempotent` and `SamEngine.SAM.Subscribe` state its properties. |
| SamSpec.IndexOf | src/index.ts:276 | Returns the first position of the reference, or -1 exactly when it is absent. |
| SamSpec.Unsubscribed | src/index.ts:275-280 | If the reference is absent, the list is unchanged. Otherwise exactly its first occurrence is spliced out and the rest keep their order; the multiset loses one copy. |
| SamEngine.SAM.Subscribe | src/index.ts:267-273 | The new list is `Subscribed` of the old: unchanged if the reference is registered, otherwise the reference is appended. |
| SamEngine.SAM.Unsubscribe | src/index.ts:275-280 | The new list is `Unsubscribed` of the old. |
| SamSpec.SubscribeIdempotent | src/index.ts:267-273 | Subscribing twice is the same as subscribing once, and the reference is then registered. |
| SamSpec.UnsubscribeUndoesSubscribe | src/index.ts:267-280 | Unsubscribe undoes the subscribe of a new reference. |
| SamSpec.DoubleSubscribeNotifiesOnce | src/index.ts:267-273 | After two subscribes of a new reference, a commit calls it exactly once, last. |
| SamSpec.Deliver | src/index.ts:419-424 | A commit makes one call per subscription, in list order, each carrying the committed model and state. |
| SamSpec.DeliverAll | src/index.ts:419-424 | Definition, with no contract of its own: the callbacks a list of commits makes, `Deliver` of each commit in turn. `SamSpec.DeliverAllCons` states its properties; every callback-trace clause of the engine is stated through it. |
| SamSpec.DeliverAllCons | src/index.ts:419-424 | The calls of a list of commits start with those of its first commit. |
| SamEngine.SAM.NotifySubscriptions | src/index.ts:419-424 | The loop makes exactly the calls of `Deliver` for the committed model and state: one per subscription, in list order. |
| SamEngine.SAM.BlockAction | src/index.ts:282-297 | The result is `Blocks` of the current state's restrictions. A rejection is recorded, and nothing else is. |
| SamSpec.Proposed | src/index.ts:321-339 | The proposal snapshot is `no-proposal` exactly when there is no proposal. |
| SamEngine.SAM.Propose | src/index.ts:310-339 | The result is the factory's proposal. The action snapshot and then the proposal snapshot are recorded. |
| SamSpec.PresentStep | src/index.ts:343-395 | After the presenter: the no-model halt happens exactly when the presenter returns nothing. Otherwise the outcome carries the presenter's model; the no-state halt happens exactly when that model has no first match, and that match is the state entered when there is one. No action snapshot is recorded here. |
| SamEngine.SAM.Present | src/index.ts:343-395 | The outcome, model, state index and history are those of `PresentStep`. |
| SamSpec.RunStep | src/index.ts:299-395 | The step is rejected exactly when the current state's restrictions block the action id, and a rejection records only the rejection. It halts with no proposal exactly when it is admitted and the factory returns none, and with no model exactly when the presenter then returns none. Otherwise the log starts with the one action snapshot of the step, the outcome carries the presenter's model, the no-state halt happens exactly when that model has no first match, and an entered state is that first match. |
| SamEngine.SAM.LoopStep | src/index.ts:299-395 | The outcome, model, state index and history are those of `RunStep`. The second gate check never fires. |
| SamSpec.NextAction | src/index.ts:426-430 | Definition, with no contract of its own: the state's next-action function applied to the model, or none when the state has no such function. `SamSpec.AfterChains` and `SamSpec.AfterStops` use it. |
| SamSpec.Run | src/index.ts:299-397 | A session leaves the state index inside the definitions. |
| SamSpec.After | src/index.ts:418-434 | The same for the session's continuation after a commit. |
| SamSpec.Sessions | src/index.ts:399-402 | A sequence of sessions leaves the state index inside the definitions. |
| SamEngine.SAM.SAMLoop | src/index.ts:299-397 | The model, state index, end, history and callback trace are exactly those of `Run`. Subscriptions are unchanged. |
| SamEngine.SAM.AfterNewState | src/index.ts:418-434 | The same, for `After`: all subscriptions are notified of the commit, then at most the one next action runs, from the committed state. |
| SamEngine.SAM.RunNextAction | src/index.ts:426-433 | After the notification, the model, state index, end and history are those of `After`. Its first commit is the current state, and the later commits are notified. |
| SamEngine.SAM.Execute | src/index.ts:399-402 | A new session from no previous state has the effect of `Run`. |
| SamSpec.BlockedChangesNothing | src/index.ts:282-308 | A rejected action records one rejection and commits nothing. Model and state are unchanged, and the session ends `Blocked`. |
| SamSpec.SecondCheckNeverRejects | src/index.ts:308-341 | A step is rejected exactly when the first check rejects; the second check cannot change that. |
| SamSpec.HaltsCommitNothing | src/index.ts:321-384 | No proposal, or no model, keeps model and state. No matching state replaces the model but keeps the state. None of the three commits. |
| SamSpec.MatchCommitsFirstMatch | src/index.ts:373-396 | An entered step's first commit is the new model with its first matching state. |
| SamSpec.ActionsTakenLeading | src/index.ts:310-317 | A log with only a leading action snapshot counts one action, or none. |
| SamSpec.ActionsTakenAppend | src/index.ts:310-317 | Action counts add up over concatenated logs. |
| SamSpec.OneActionPerCommit | src/index.ts:385-434 | In a session, commits ≤ actions taken ≤ commits + 1: each chained action follows its own commit. |
| SamSpec.OneActionPerCommitAfter | src/index.ts:418-434 | After a commit: actions ≤ commits ≤ actions + 1, with at least one commit. |
| SamSpec.SessionEndsInMatchedState | src/index.ts:385-434 | A session makes at most fuel + 1 commits. If it ends settled or out of fuel, its state matches its model and is named by the last commit. It is settled exactly when that state derives no action. |
| SamSpec.SessionEndsInMatchedStateAfter | src/index.ts:418-434 | The same, for the continuation after a commit of a matching state. |
| SamSpec.RunEnters | src/index.ts:341-396 | Unfolding lemma for the entered case of `Run`: a step that passes the gate, gets a proposal and a model, and matches state k continues as `After` from k. |
| SamSpec.AfterChains | src/index.ts:418-434 | Unfolding lemma for the chaining case of `After`: with a next action and fuel left, the session commits the state, then continues exactly as the session of that action from the committed state. |
| SamSpec.AfterStops | src/index.ts:418-434 | Unfolding lemma for the stopping cases of `After`: with no next action, or no fuel left, the state is committed once and the session stops: settled without a next action, out of fuel otherwise. |
| SamSpec.ChainCommits | src/index.ts:385-396 | A chain's commits pair each visited model with its state, in order. |
| SamSpec.ChainSettles | src/index.ts:385-434 | When each state derives the next action and that action enters the next state, one session with enough fuel commits every state of the chain and settles in the last one. |
| SamSpec.RunPreserves | src/index.ts:299-397 | An invariant that every step keeps holds after every session, and then no session halts: each ends rejected, settled or out of fuel. |
| SamSpec.AfterPreserves | src/index.ts:418-434 | The same, for the continuation after a commit. |
| SamSpec.SessionsPreserve | src/index.ts:399-402 | The same, over any sequence of sessions. |
| RocketLauncher.IsReady | example/rocket-launcher.tsx:137-139 | Definition, with no contract of its own: counter 10, not aborted, not started. |
| RocketLauncher.IsCounting | example/rocket-launcher.tsx:147-149 | Definition, with no contract of its own: 0 < counter ≤ 10, not aborted, started. |
| RocketLauncher.IsLaunched | example/rocket-launcher.tsx:164-166 | Definition, with no contract of its own: counter 0, started, not aborted. |
| RocketLauncher.IsAborted | example/rocket-launcher.tsx:174-176 | Definition, with no contract of its own: 0 ≤ counter ≤ 10 and aborted. `RocketLauncher.StatesDisjoint` proves the four predicates disjoint. |
| RocketLauncher.CountingNextAction | example/rocket-launcher.tsx:150-160 | Definition, with no contract of its own: decrement-count while the counter is above 0, launch at 0, none otherwise. `RocketLauncher.NextActions` states what it yields inside `counting`. |
| RocketLauncher.Defs | example/rocket-launcher.tsx:134-182 | Definition, with no contract of its own: the four states in source order, with their restrictions and the counting state's next action. `RocketLauncher.RestrictionsOfStates` and `RocketLauncher.NextActions` state them. |
| RocketLauncher.ActionId | example/rocket-launcher.tsx:33-55 | Definition, with no contract of its own: the `id` string of each action class. The gate compares these strings with the restriction lists (`RocketLauncher.RestrictionsOfStates`). |
| RocketLauncher.ProposalId | example/rocket-launcher.tsx:13-31 | Definition, with no contract of its own: the `id` string of each proposal class, recorded in the history as the proposal snapshot. |
| RocketLauncher.Rocket | example/rocket-launcher.tsx:85-185 | Definition, with no contract of its own: the configuration passed to the engine. Its initial model is the constant `RocketLauncher.InitialModel` (lines 86-90), with the counter at `RocketLauncher.CounterMax` = 10 (line 83), not aborted, not started. The presenter always returns a model. |
| RocketLauncher.CreateProposal | example/rocket-launcher.tsx:92-110 | There is always a proposal. It is `decrement-count` exactly for decrement-count and continue-countdown. start-countdown proposes `start`, and every other action its namesake. |
| RocketLauncher.Present | example/rocket-launcher.tsx:112-133 | `start` sets started. `abort` sets aborted. `reset-countdown` restores the initial model. `decrement-count` lowers the counter and clears aborted, only when counter - 1 ≥ 0. `launch` changes nothing. |
| RocketLauncher.ModelRecord.constructor | example/rocket-launcher.tsx:112 | The record holds the model copy it was given. |
| RocketLauncher.ModelRecord.Presenter | example/rocket-launcher.tsx:112-133 | The in-place field assignments leave the record equal to `Present` of its old value. |
| RocketLauncher.PresentKeepsCounterInRange | example/rocket-launcher.tsx:117-126 | The presenter keeps the counter within 0..10. |
| RocketLauncher.InitialModelIsReady | example/rocket-launcher.tsx:86-139 | The initial model's first match is `ready`. |
| RocketLauncher.StatesDisjoint | example/rocket-launcher.tsx:137-176 | At most one predicate holds, and it is the first match. |
| RocketLauncher.RestrictionsOfStates | example/rocket-launcher.tsx:140-180 | `ready` admits only start-countdown. `counting` admits everything. `launched` rejects only decrement-count. `aborted` admits only continue-countdown. |
| RocketLauncher.NextActions | example/rocket-launcher.tsx:135-181 | Only `counting` derives an action, and in `counting` it is always decrement-count. |
| RocketLauncher.DecrementFromCounting | example/rocket-launcher.tsx:123-170 | A decrement from `counting` at counter c enters `launched` at c = 1, and `counting` with c - 1 above that. |
| RocketLauncher.CountdownStep | example/rocket-launcher.tsx:123-170 | Step i of the countdown from c: at counter c - i in `counting`, the next action is a decrement, and the step enters the next model and state of the countdown. |
| RocketLauncher.CountdownSteps | example/rocket-launcher.tsx:123-170 | Every one of the c steps of the countdown from c chains a decrement and enters the next model and state of the countdown. |
| RocketLauncher.CountdownReachesLaunched | example/rocket-launcher.tsx:146-170 | Committing `counting` at c ≤ fuel settles in `launched` at counter 0. There are c + 1 commits: `counting` at c…1, then `launched`. |
| RocketLauncher.StartCountdownLaunches | example/rocket-launcher.tsx:86-170 | start-countdown from the initial model settles in `launched` within one session: 11 commits, counter 0. |
| RocketLauncher.DecrementBlockedInReady | example/rocket-launcher.tsx:140-143 | decrement-count in `ready` is rejected and changes nothing. |
| RocketLauncher.AbortFromCounting | example/rocket-launcher.tsx:101-176 | abort in `counting` keeps the counter, sets aborted and settles in `aborted`. |
| RocketLauncher.ContinueAfterAbortLaunches | example/rocket-launcher.tsx:103-170 | continue-countdown from `aborted` decrements once and resumes the chain, which settles in `launched`. |
| RocketLauncher.ResetFromLaunched | example/rocket-launcher.tsx:105-143 | A reset from `launched` restores the initial model in `ready`. |
| RocketLauncher.ResetBlockedInAborted | example/rocket-launcher.tsx:177-180 | A reset in `aborted` is rejected and changes nothing. |
| RocketLauncher.AbortedAtZeroIsStuck | example/rocket-launcher.tsx:123-180 | An abort after the launch settles in `aborted` at counter 0. From there, no action changes model or state. |
| RocketLauncher.ReachableMatchesAState | example/rocket-launcher.tsx:135-181 | Every reachable model matches some state. |
| RocketLauncher.StepKeepsReachable | example/rocket-launcher.tsx:92-181 | From a reachable model in its state, a step is rejected or enters the state of a reachable model. |
| RocketLauncher.AtRestIsStepInvariant | example/rocket-launcher.tsx:92-181 | Resting in a reachable model is a step invariant. |
| RocketLauncher.SessionsKeepReachable | example/rocket-launcher.tsx:85-181 | After any sequence of sessions from the initial model, the model is reachable and the state is its first match. |
| RocketLauncher.RunKeepsReachable | example/rocket-launcher.tsx:92-181 | A session from rest ends at rest, and it ends rejected, settled or out of fuel, never in a halt. |
| SimpleCounter.IsShowCount | example/simple-counter.tsx:64-66 | Definition, with no contract of its own: count below 10. |
| SimpleCounter.IsMaxCount | example/simple-counter.tsx:70-72 | Definition, with no contract of its own: count exactly 10. `SimpleCounter.StatesOfCount` states both predicates. |
| SimpleCounter.Defs | example/simple-counter.tsx:61-74 | Definition, with no contract of its own: the two states in source order, with no restrictions and no next action (`SimpleCounter.NoGateNoChain`). |
| SimpleCounter.ActionId | example/simple-counter.tsx:11-14 | Definition, with no contract of its own: the `id` string of the one action class, `change-count-action`. |
| SimpleCounter.ProposalId | example/simple-counter.tsx:17-20 | Definition, with no contract of its own: the `id` string of the one proposal class, `change-count-proposal`, which the presenter tests. |
| SimpleCounter.Counter | example/simple-counter.tsx:39-77 | Definition, with no contract of its own: the configuration passed to the engine. Its initial model is the constant `SimpleCounter.InitialModel`, count 0 (lines 40-42). The presenter accepts counts in 0..`SimpleCounter.CountMax` = 10 (lines 36, 54). The presenter always returns a model. |
| SimpleCounter.CreateProposal | example/simple-counter.tsx:45-50 | change-count-action always proposes change-count-proposal with the same count. |
| SimpleCounter.Present | example/simple-counter.tsx:53-59 | The count is taken exactly when it lies in 0..10; otherwise the model is unchanged. |
| SimpleCounter.ModelRecord.constructor | example/simple-counter.tsx:53 | The record holds the model copy it was given. |
| SimpleCounter.ModelRecord.Presenter | example/simple-counter.tsx:53-59 | The in-place assignment leaves the record equal to `Present` of its old value. |
| SimpleCounter.InitialModelShowsCount | example/simple-counter.tsx:40-66 | The initial model's first match is `show-count`. |
| SimpleCounter.StatesOfCount | example/simple-counter.tsx:61-74 | `show-count` holds exactly below 10 and `max-count` exactly at 10. A bounded count matches exactly one of them. |
| SimpleCounter.PresentKeepsBounded | example/simple-counter.tsx:54-58 | The presenter keeps the count within 0..10. |
| SimpleCounter.NoGateNoChain | example/simple-counter.tsx:61-74 | No state rejects an action or derives one. |
| SimpleCounter.SessionSetsCount | example/simple-counter.tsx:45-74 | One session from a bounded count sets the proposed count if it is in 0..10, and keeps the old count otherwise. It commits the matching state once and settles. |
| SimpleCounter.AtRestIsStepInvariant | example/simple-counter.tsx:53-74 | Resting at a bounded count is a step invariant. |
| SimpleCounter.SessionsKeepBounded | example/simple-counter.tsx:39-74 | From count 0, any sequence of sessions keeps the count in 0..10 and the engine in the count's own state. |

## Left out

- Asynchrony and timing are not modelled:
  - the `await` on `createProposal` (src/index.ts:319);
  - the one-second delay before a decrement (example/rocket-launcher.tsx:97);
  - `execute` and `afterNewState` not awaiting the loop (src/index.ts:399-402, 431).

  A session runs to completion in one call, and sessions never interleave. So an abort during a countdown is modelled only from a `counting` state at rest (`RocketLauncher.AbortFromCounting`).

  What this loses: in the source, an abort or a reset can run during the one-second delay of a pending decrement. The second gate check (src/index.ts:341) then rejects the decrement in the new state. The model has no such interleaving, so `SamEngine.SAM.LoopStep` and `SamSpec.SecondCheckNeverRejects` prove that this check never fires. Both rows hold only for sessions that run one after another.
- A blocked action is modelled as the session end `Blocked`. The source throws an error instead.
- `fuel` bounds the number of actions chained in one session, and a session that runs out of it ends `OutOfFuel`. The source chains without bound; its chains are finite only where the configuration makes them so (`RocketLauncher.CountdownReachesLaunched`).
- The deep copies made by `cloneDeep` (src/index.ts:207) are not modelled: models, actions and proposals are immutable values, so a copy is the value itself. The one copy that is observable, that of the subscription objects, is modelled (see Findings).
- Subscribers receive the engine's live model object, not a copy (src/index.ts:256, 360, 396, 420-423). A callback that mutated its argument would change the engine's model. The model treats callbacks as pure observers, so such mutation is not captured.
- The presenter's in-place mutation of its model copy is kept as the class `ModelRecord` in each example. The engine itself uses the equivalent function `Present`.
- Recording the snapshots is modelled, but the following are not:
  - the `diffString` of mutation snapshots (jsondiffpatch, src/index.ts:362-368);
  - stack traces, the print queue, console output, timestamps and entry ids (src/index.ts:152-165, 175-181).
- Session ids are abstract `Session` tokens; random id generation (src/index.ts:198-205) is not modelled.
- Subscription callbacks are recorded as `Notification` values in a ghost trace. What the callbacks do (the React `represent` functions) is not modelled.
- A constructor whose initial model matches no state returns `Failure(InvalidInitialModel)` and no engine. The constructor-model history entry that the source records before throwing is therefore not observable.
- JavaScript numbers are modelled as Dafny integers, so non-integer counts are not modelled. The simple counter's action could carry any number, and its presenter (example/simple-counter.tsx:54) would accept 2.5. The example's buttons only pass `model.count + 1` and `model.count - 1` from the integer start 0, so only integer counts arise there. The rocket launcher's counter starts at 10, and its presenter only decrements it by 1 or resets it to 10 (example/rocket-launcher.tsx:118-124).
- Type-level plumbing has no runtime behaviour and is not modelled: the generic helper types and the exhaustiveness `never` check.

## Findings

| source | as written | input that shows it | evidently intended | confidence | as-written member | corrected member |
|---|---|---|---|---|---|---|
| src/index.ts:224-226 | The constructor deep-copies its configuration. lodash's `cloneDeep` makes new objects for the plain subscription records and keeps the functions inside them. So `this.subscriptions` holds copies, and `unsubscribe` compares by identity against those copies. | `const s = { afterNewState: f }; const sam = new SAM({ ..., subscriptions: [s] }); sam.unsubscribe(s);` leaves the copy of `s` registered, so `f` is still called on every new state. | A subscription passed at construction can be unsubscribed, just like one added later. | medium, not executed | SamEngine.SAM.UnsubscribeInitialAsWritten | SamEngine.SAM.UnsubscribeInitial |
| src/index.ts:267-273 | `subscribe` looks the reference up by identity in `this.subscriptions`, which after the constructor's deep copy (lines 224-226) holds only copies of the subscriptions passed at construction. | `const s = { afterNewState: f }; const sam = new SAM({ ..., subscriptions: [s] }); sam.subscribe(s);` registers `s` beside its copy, so `f` is called twice on every new state. | Subscribing a reference that is already registered, whether passed at construction or added later, changes nothing. | medium, not executed | SamEngine.SAM.SubscribeInitialAsWritten | SamEngine.SAM.SubscribeInitial |

The as-written constructor is `SamEngine.SAM.CreateAsWritten`. The rest of the model uses the corrected constructor `SamEngine.SAM.Create`, which keeps the passed references.
