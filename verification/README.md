# bot-engine conversation-flow engine, modelled in Dafny

This project models the core of `bot-engine`, a controller for dialogue
applications. For every incoming message (a *turn*) it decides which
conversational state runs next, validates the entities involved and commits
the transition:

- **Handler chain** (`Middleware`, lib/Middleware.js): an ordered list of
  handlers. `use` appends callables and ignores everything else. `run` executes
  the handlers one after another over the same turn data and stops at the first
  error.
- **Engine** (lib/Engine.js):
  - the constructor normalises the state table (`validate`);
  - `receive` creates the session's engine record and runs the receiver chain;
  - `decide` picks the next state: forward-only eligibility, then mandatory
    preemption, then specificity and weight;
  - `validateMove` runs the entity validators of the validation set in order;
  - `preMove` runs the pre chain;
  - `move` commits the transition or emits `error`;
  - `postMove` runs the post chain once the state's action hands the turn back.
- **mergeContext** (lib/utils/Util.js): copies every entity that has a
  defined value and no error into the context object, in place.

Layout, one module per component:

- `series.dfy`: the `async.series` semantics that both the handler chains and
  `validateMove` rely on. `Outcome` is the specification. `RunSeries` is the
  step-by-step runner proved equal to it.
- `middleware.dfy`: the `Middleware` class.
- `util.dfy`: `mergeContext` over a `Context` object.
- `states.dfy`: state records, `validate` and lookup by name.
- `decision.dfy`: `decide` and the validation set.
- `engine.dfy`: the transition `Moved`, the turn `RunTurn` and the `Engine` and
  `Session` classes.
- `wrappers.dfy`: `Option`, where `None` is JavaScript's `undefined`.

How the model represents things:

- The state table is a sequence in key-insertion order, so ties in the stable
  `orderBy` fall back to table order.
- A session's engine state is an `EngineState`. It is either a record the
  session owns (the weight -1 record that `receive` creates) or `Shared(i)`,
  the table entry itself. Line 140 installs that entry object as the session
  state, so the visit counter it increments is the table's.
- Notifications are appended to the engine's `events` trace: `MoveEvent`,
  `Enter(name)` and `Error(name)`.
- User-supplied handlers and validators are opaque identities (`Fn`). A turn
  gives each of them a success or failure outcome.

`move` is modelled as the code behaves, not as its comments describe it:

- The loop guard (lib/Engine.js:131-133) compares a state name with a state
  record. It therefore never rejects a state that exists, and a self-loop is
  never bounded by `maxVisits` (`SelfLoopUnbounded`). The only rejection is a
  target that does not resolve in the table.
- The visit counter lives on the shared table entry, so two sessions see each
  other's visits (`CounterSharedAcrossSessions`). Entering a different state
  does not reset the previous state's counter.
- The `from` of the `move` notification is a copy of the target, not the
  outgoing state.
- A state name that is not in the table is reported in `error` as `undefined`
  (`UnknownNameReportedUndefined`), because line 127 overwrites the name with
  the failed lookup.
- Eligibility counts every entity name of the turn; an entity's `error` field
  is not consulted (lib/Engine.js:81).

## Model

| member | source | states |
|---|---|---|
| Series.Outcome | lib/Middleware.js:19-22 | the `async.series` semantics: never more steps invoked than given, and success only once every step was invoked; characterised by OutcomeFacts and OutcomeAfterDone |
| Series.OutcomeFacts | lib/Middleware.js:18-23 | the handlers run are a prefix of the list, in order; success iff every handler ran and succeeded; on failure the last one run failed with exactly the error the callback gets, and all before it succeeded |
| Series.OutcomeAfterDone | lib/Middleware.js:18-23 | after a run of successful steps, the series continues as the series of the remaining steps |
| Series.RunSeries | lib/Engine.js:105-111 | the step-by-step runner invokes the steps and reports the status exactly as the series specification says |
| Middleware.Middleware.constructor | lib/Middleware.js:7-10 | a new chain has no handlers |
| Middleware.Middleware.Use | lib/Middleware.js:12-16 | a function is appended at the end with earlier handlers kept in order; any other value leaves the list unchanged |
| Middleware.Middleware.Run | lib/Middleware.js:18-23 | handlers are invoked in registration order over the same data; the first failure stops the chain and is handed to the callback; with no failure (or no handlers) the callback gets success; the list is only read |
| Util.Merged | lib/utils/Util.js:11-19 | a usable entity (defined value, no error) sets its variable; every other variable keeps its value, and no variable appears that was not in context or among the usable entities |
| Util.MergeIdempotent | lib/utils/Util.js:12-17 | merging the same entities twice gives the same context as merging once |
| Util.MergeOfNothing | lib/utils/Util.js:11 | with no entities and no context the result is the empty context |
| Util.MergeContext | lib/utils/Util.js:11-19 | the given context object itself is updated and returned (a fresh one when missing), holding the merged context; missing entities count as none |
| StateTable.Normalise | lib/Engine.js:162-172 | each entry gets its key as name, weight 0, empty enter/exit and the engine's maxVisits by default, visitCount 0; distinct keys give distinct names |
| StateTable.InitialRecord | lib/Engine.js:50-57 | the unnamed record of a new session: weight -1, empty enter and exit, visitCount 0, the engine's maxVisits, not mandatory; used by Engine.Engine.Attach |
| StateTable.Lookup | lib/Engine.js:126-130 | a name lookup finds an entry with that name, or none exists |
| StateTable.LookupOwnName | lib/Engine.js:130 | in a normalised table every entry is found under its own name |
| Engine.ValidatorsToRun | lib/Engine.js:99-103 | one validator per validation name, in the same order (the registered validator of that name); the names are characterised by ValidationNames and UnionKeptOrder |
| Decision.Available | lib/Engine.js:80-83 | exactly the entries heavier than the current weight whose every `enter` name is a context key or an entity name, in table order |
| Decision.Mandatory | lib/Engine.js:85 | exactly the mandatory ones among the eligible entries, order kept |
| Decision.First | lib/Engine.js:85-88 | the first element of a stable sort: nothing sorts before it, and it sorts strictly before every earlier candidate |
| Decision.Decide | lib/Engine.js:75-92 | the choice is an eligible entry whenever one exists, the current state otherwise, and never lighter than the current state |
| Decision.DecideMandatory | lib/Engine.js:85 | with an eligible mandatory entry, the choice is an eligible mandatory entry of least weight, first in table order on ties |
| Decision.DecideMostSpecific | lib/Engine.js:86-88 | with no eligible mandatory entry, the choice has the most `enter` names, then the least weight, then comes first in table order |
| Decision.ScenarioFirstTurn | lib/Engine.js:75-92 | a new session with no data goes to the weight-10 state without requirements |
| Decision.ScenarioSecondTurn | lib/Engine.js:75-92 | from there an `age` entity leads to the state that needs `age` |
| Decision.ScenarioThirdTurn | lib/Engine.js:75-92 | with `age` in context and a `location` entity, the state needing both is chosen |
| Decision.UnionKept | lib/Engine.js:97-99 | the names of the union that have a validator, each exactly once |
| Decision.UnionKeptOrder | lib/Engine.js:97 | the union lists names in the order of their first occurrence |
| Decision.ValidationNames | lib/Engine.js:96-99 | a name is validated iff it is in the current exit, the target's enter or this turn's entities and has a validator; no name twice |
| Engine.Resolve | lib/Engine.js:126-130 | a name becomes the table entry of that name, or undefined when there is none; a record is taken as it is |
| Engine.AttemptedName | lib/Engine.js:149 | `state && state.name`: for a name, that name exactly when it is in the table, undefined otherwise |
| Engine.Moved | lib/Engine.js:124-151 | the transition keeps every entry's name, weight and requirements and the session reference valid, and always emits something; characterised by MovedCommits and MovedRejects |
| Engine.RunTurn | lib/Engine.js:60-121 | a turn emits notifications exactly when it reaches `move` (Committed or Rejected), and otherwise leaves table and session state as they were; characterised by TurnEndsInMove, the three *FailureStopsTurn lemmas and TurnNeverGoesBack |
| Engine.MovedCommits | lib/Engine.js:130-146 | a resolving target is entered whatever its counter: it becomes the session state with visitCount one higher, no other entry changes, and `move` (from = the target) then the state-named event are emitted |
| Engine.MovedRejects | lib/Engine.js:147-150 | an unresolved target resets only the current state's visitCount to 0, keeps the session state, and emits one `error` with the attempted name |
| Engine.UnknownNameReportedUndefined | lib/Engine.js:126-149 | a name missing from the table is reported as an undefined name |
| Engine.SelfLoopUnbounded | lib/Engine.js:131-142 | re-entering the same entry k times never emits `error` and raises its counter by k, past any maxVisits |
| Engine.CounterSharedAcrossSessions | lib/Engine.js:140-142 | two sessions entering the same entry raise one shared counter by two |
| Engine.FailedTurnChangesNothing | lib/Engine.js:60-121 | a turn that fails in the receiver chain, a validator or the pre chain leaves table, session state and trace untouched |
| Engine.ReceiverFailureStopsTurn | lib/Engine.js:60-66 | a failing receiver handler ends the turn with its error after only the receiver handlers up to it ran |
| Engine.ValidatorFailureStopsTurn | lib/Engine.js:105-111 | a failing validator ends the turn with its error; the pre chain does not run |
| Engine.PreFailureStopsTurn | lib/Engine.js:114-121 | a failing pre handler ends the turn with its error; move does not run |
| Engine.TurnEndsInMove | lib/Engine.js:60-121 | a turn either stops before move with nothing changed, or ends in the transition to decide's choice, committed exactly when that choice resolves in the table |
| Engine.TurnNeverGoesBack | lib/Engine.js:75-150 | after any turn the session state is no lighter than before; on a commit it is the state decide chose |
| Engine.Engine.constructor | lib/Engine.js:28-40 | maxVisits is the option or 10 (also for 0), the table is normalised with it, and the three chains start empty |
| Engine.Engine.Attach | lib/Engine.js:47-59 | a session without a record gets weight -1, empty enter/exit, the engine's maxVisits and visitCount 0; an existing record is untouched |
| Engine.Engine.ValidateMove | lib/Engine.js:94-112 | runs the validators of the validation set in order, stopping at the first failure |
| Engine.Engine.Move | lib/Engine.js:124-151 | table, session state and trace become exactly those of the transition `Moved` |
| Engine.Engine.PostMove | lib/Engine.js:153-159 | runs the post chain; its failure changes nothing |
| Engine.Engine.Receive | lib/Engine.js:47-67 | creates the record if absent, then table, session state, trace, stage and invoked functions are those of `RunTurn` |

## Left out

- EventEmitter listeners and their registration. Node's `emit('error', …)` throws when no `'error'` listener is registered; the model appends `Error(name)` either way, so that exception out of `move` is not captured. `emit` is an append to the `events` trace. The action behind the state-named event, and when it invokes the continuation, are external: `PostMove` is the continuation.
- Logging (`this.log`, `defaultLogger`) has no effect on behaviour and is not modelled.
- Asynchrony. Each stage is a synchronous step returning success or failure. A handler, validator or action that never calls back (a stalled turn) is not modelled.
- The bodies of handlers and validators. Each user function gets one outcome per turn, so a function registered twice reports the same outcome both times. Their changes to the turn data, such as a validator setting an entity's `error`, are not modelled.
- `validate` mutates the caller's configuration objects in place. `Normalise` builds a new table, so aliasing between the options object and the engine's table is not captured.
- JavaScript object key order puts integer-like keys first. The model keeps the configured order.
- Lookups that hit `Object.prototype` (a state named `constructor`, say) and a state keyed `undefined` are not modelled.
- `Engine.Engine.Move` takes a name, a table entry or the session's own record. A foreign record whose name matches some entry is not modelled, because the pipeline never passes one.
- Turn data without an `entities` object is not modelled: `decide` would treat it as empty, and `validateMove` would throw.
- Options without `states` or `entities` are not modelled, nor is `engine.use`, which `Engine` does not define.
- JavaScript truthiness is reduced to its cases here: `||` defaults apply to `0` and `undefined` only (not `null`, `NaN` or `''`), and `mandatory` and an entity's `error` are booleans. Weights and counters are unbounded integers, not floating point.
- `mergeContext` is not exported by lib/utils/Util.js. It is modelled anyway.
