/**
 * The `Engine` class of lib/Engine.js: the per-session engine record, the
 * turn pipeline (receiver chain, decide, validators, pre chain, move) and
 * the transition itself, with its notifications recorded as a trace.
 */
module Engine {
  import opened Wrappers
  import opened Series
  import opened Middleware
  import opened StateTable
  import opened Decision

  /** The identity of a user-supplied function (a handler or an entity validator). */
  datatype Fn = Fn(id: nat)

  /**
   * What the engine reads of a turn's data: the keys of `context`, and the
   * names of this turn's `entities` in key order.
   */
  datatype Turn = Turn(context: set<string>, entities: seq<string>)

  /** A notification `emit` sends, with the records as they were at that moment. */
  datatype Event =
    | MoveEvent(from: State, to: State)   // 'move'
    | Enter(name: string)                 // the state-named hand-off to its action
    | Error(attempted: Option<string>)    // 'error', with `state && state.name`

  /** What `move` is given: a state name, or a state record. */
  datatype Target = ByName(name: string) | ByRef(ref: EngineState)

  predicate TargetOk(table: seq<State>, target: Target) {
    target.ByRef? ==> RefOk(table, target.ref)
  }

  /** The table, the session's engine state and the notifications after a transition attempt. */
  datatype Step = Step(table: seq<State>, current: EngineState, emitted: seq<Event>)

  /** `state` after lines 126-128: a name is looked up in the table (`None` is `undefined`). */
  function Resolve(table: seq<State>, target: Target): (r: Option<EngineState>)
    ensures target.ByRef? ==> r == Some(target.ref)
    ensures target.ByName? ==> (r.Some? <==> Lookup(table, target.name).Some?)
    ensures target.ByName? && r.Some? ==>
              r.value.Shared? && r.value.index < |table| && table[r.value.index].name == Some(target.name)
  {
    match target
    case ByName(n) => (match Lookup(table, n) case Some(i) => Some(Shared(i)) case None => None)
    case ByRef(r) => Some(r)
  }

  /** `state && state.name`. */
  function AttemptedName(table: seq<State>, target: Target): (r: Option<string>)
    requires TargetOk(table, target)
    ensures target.ByName? ==> r == if Lookup(table, target.name).Some? then Some(target.name) else None
    ensures target.ByRef? ==> r == Deref(table, target.ref).name
  {
    match Resolve(table, target)
    case Some(r) => Deref(table, r).name
    case None => None
  }

  /** The target resolves to a table entry (`selectedState` is defined). */
  predicate Resolves(table: seq<State>, target: Target)
    requires TargetOk(table, target)
  {
    var name := AttemptedName(table, target);
    name.Some? && Lookup(table, name.value).Some?
  }

  /**
   * `move` as written. The guard compares a name with a record, so the only
   * rejection is a target that does not resolve; then the current record's
   * counter is reset and 'error' is emitted. Otherwise the target record
   * itself becomes the session state, 'move' is emitted with a copy of the
   * target as `from`, the target's counter is incremented, and the
   * state-named hand-off follows.
   */
  function Moved(table: seq<State>, current: EngineState, target: Target): (r: Step)
    requires RefOk(table, current) && TargetOk(table, target)
    ensures SameShape(table, r.table) && RefOk(r.table, r.current)
    ensures r.emitted != []
  {
    if Resolves(table, target) then
      var r := Resolve(table, target).value;
      var s := Deref(table, r);
      var bumped := s.(visitCount := s.visitCount + 1);
      var emitted := [MoveEvent(s, s), Enter(s.name.value)];
      match r
      case Shared(i) => Step(table[i := bumped], r, emitted)
      case Own(_) => Step(table, Own(bumped), emitted)
    else
      var c := Deref(table, current);
      var reset := c.(visitCount := 0);
      var emitted := [Error(AttemptedName(table, target))];
      match current
      case Shared(j) => Step(table[j := reset], current, emitted)
      case Own(_) => Step(table, Own(reset), emitted)
  }

  /** Only visit counters change: names, weights and requirements stay as they were. */
  predicate SameShape(a: seq<State>, b: seq<State>) {
    |a| == |b| &&
    forall k :: 0 <= k < |a| ==> a[k].(visitCount := 0) == b[k].(visitCount := 0)
  }

  /**
   * A target that resolves is always entered, whatever its visit counter
   * and `maxVisits`: it becomes the session state with its counter one
   * higher (on the shared table entry when it is one), and the trace gets
   * 'move' (whose `from` is the target itself, not the outgoing state) and
   * then the state-named hand-off. No other entry changes.
   */
  lemma MovedCommits(table: seq<State>, current: EngineState, target: Target)
    requires RefOk(table, current) && TargetOk(table, target)
    requires Resolves(table, target)
    ensures var r := Resolve(table, target).value;
      var s := Deref(table, r);
      var step := Moved(table, current, target);
      SameShape(table, step.table) && RefOk(step.table, step.current) &&
      Deref(step.table, step.current) == s.(visitCount := s.visitCount + 1) &&
      (r.Shared? ==> step.current == r) &&
      (forall k :: 0 <= k < |table| && (r.Own? || k != r.index) ==> step.table[k] == table[k]) &&
      step.emitted == [MoveEvent(s, s), Enter(s.name.value)]
  {
  }

  /**
   * A target that does not resolve changes nothing but the current
   * record's counter, which drops to 0, and the trace gets one 'error'
   * naming the attempted state.
   */
  lemma MovedRejects(table: seq<State>, current: EngineState, target: Target)
    requires RefOk(table, current) && TargetOk(table, target)
    requires !Resolves(table, target)
    ensures var step := Moved(table, current, target);
      SameShape(table, step.table) && RefOk(step.table, step.current) &&
      (current.Shared? ==> step.current == current) &&
      Deref(step.table, step.current) == Deref(table, current).(visitCount := 0) &&
      (forall k :: 0 <= k < |table| && (current.Own? || k != current.index) ==> step.table[k] == table[k]) &&
      step.emitted == [Error(AttemptedName(table, target))]
  {
  }

  /**
   * A name that is not in the table is reported as `undefined`: line 127
   * replaces the name by the failed lookup before the error is emitted.
   */
  lemma UnknownNameReportedUndefined(table: seq<State>, current: EngineState, n: string)
    requires RefOk(table, current)
    requires forall k :: 0 <= k < |table| ==> table[k].name != Some(n)
    ensures Moved(table, current, ByName(n)).emitted == [Error(None)]
  {
  }

  /** `move` applied `k` times in a row with the same target. */
  function Repeat(table: seq<State>, current: EngineState, target: Target, k: nat): (step: Step)
    requires RefOk(table, current) && TargetOk(table, target)
    ensures SameShape(table, step.table) && RefOk(step.table, step.current)
    decreases k
  {
    if k == 0 then Step(table, current, [])
    else
      var first := Moved(table, current, target);
      var rest := Repeat(first.table, first.current, target, k - 1);
      Step(rest.table, rest.current, first.emitted + rest.emitted)
  }

  /**
   * The visit guard never trips: re-entering table entry `i` `k` times in a
   * row emits no 'error' and leaves its counter `k` higher, past any
   * `maxVisits`.
   */
  lemma {:induction false} SelfLoopUnbounded(table: seq<State>, i: nat, k: nat)
    requires TableOk(table) && i < |table|
    ensures var step := Repeat(table, Shared(i), ByRef(Shared(i)), k);
      step.current == Shared(i) && TableOk(step.table) &&
      step.table[i].visitCount == table[i].visitCount + k &&
      forall e :: e in step.emitted ==> !e.Error?
    decreases k
  {
    if k > 0 {
      LookupOwnName(table, i);
      MovedCommits(table, Shared(i), ByRef(Shared(i)));
      var first := Moved(table, Shared(i), ByRef(Shared(i)));
      assert TableOk(first.table) by {
        forall a | 0 <= a < |table| ensures first.table[a].name == table[a].name {
          assert first.table[a].(visitCount := 0) == table[a].(visitCount := 0);
        }
      }
      SelfLoopUnbounded(first.table, i, k - 1);
    }
  }

  /**
   * The counter lives on the shared table entry: when two sessions enter
   * the same entry one after the other, the second sees the first's visit.
   */
  lemma CounterSharedAcrossSessions(table: seq<State>, a: EngineState, b: EngineState, i: nat)
    requires TableOk(table) && i < |table| && RefOk(table, a) && RefOk(table, b)
    ensures var first := Moved(table, a, ByRef(Shared(i)));
      RefOk(first.table, b) &&
      Moved(first.table, b, ByRef(Shared(i))).table[i].visitCount == table[i].visitCount + 2
  {
    LookupOwnName(table, i);
    MovedCommits(table, a, ByRef(Shared(i)));
    var first := Moved(table, a, ByRef(Shared(i)));
    assert first.table[i].name == table[i].name;
    assert TableOk(first.table) by {
      forall x | 0 <= x < |table| ensures first.table[x].name == table[x].name {
        assert first.table[x].(visitCount := 0) == table[x].(visitCount := 0);
      }
    }
    LookupOwnName(first.table, i);
    MovedCommits(first.table, b, ByRef(Shared(i)));
  }
  /** How far a turn got. */
  datatype Stage =
    | ReceiverFailed(message: string)   // a receiver handler failed: no decide
    | ValidatorFailed(message: string)  // a validator failed: no pre chain
    | PreFailed(message: string)        // a pre handler failed: no move
    | Rejected                          // move emitted 'error'
    | Committed                         // move entered the chosen state

  /** The validators `validateMove` runs, in order (`.filter(...).map(...)`). */
  function ValidatorsToRun(validators: map<string, Fn>, current: State, target: State, entities: seq<string>): (r: seq<Fn>)
    ensures var names := ValidationNames(current, target, entities, validators.Keys);
      |r| == |names| && forall k :: 0 <= k < |r| ==> names[k] in validators && r[k] == validators[names[k]]
  {
    var names := ValidationNames(current, target, entities, validators.Keys);
    seq(|names|, k requires 0 <= k < |names| => validators[names[k]])
  }

  /** A turn's outcome: the stage reached, the user functions invoked in order, and the transition. */
  datatype TurnResult = TurnResult(stage: Stage, invoked: seq<Fn>, step: Step)

  /**
   * One turn after the session record exists: receiver chain, `decide`,
   * validators, pre chain, `move`; each stage runs only if the one before
   * succeeded.
   */
  function RunTurn(table: seq<State>, current: EngineState, validators: map<string, Fn>,
                   receiver: seq<Fn>, pre: seq<Fn>, turn: Turn, outcome: (Fn, Turn) -> Status): (r: TurnResult)
    requires RefOk(table, current)
    ensures r.stage.Committed? || r.stage.Rejected? <==> r.step.emitted != []
    ensures r.step.emitted == [] ==> r.step == Step(table, current, [])
  {
    var rcv := Outcome(receiver, turn, outcome);
    if rcv.1.Failed? then TurnResult(ReceiverFailed(rcv.1.message), rcv.0, Step(table, current, []))
    else
      var target := Decide(table, current, turn.context, turn.entities);
      var checks := ValidatorsToRun(validators, Deref(table, current), Deref(table, target), turn.entities);
      var val := Outcome(checks, turn, outcome);
      if val.1.Failed? then TurnResult(ValidatorFailed(val.1.message), rcv.0 + val.0, Step(table, current, []))
      else
        var pr := Outcome(pre, turn, outcome);
        if pr.1.Failed? then TurnResult(PreFailed(pr.1.message), rcv.0 + val.0 + pr.0, Step(table, current, []))
        else
          var mv := Moved(table, current, ByRef(target));
          TurnResult(if Resolves(table, ByRef(target)) then Committed else Rejected, rcv.0 + val.0 + pr.0, mv)
  }

  /** A turn that fails at any stage leaves table, session state and trace untouched. */
  lemma FailedTurnChangesNothing(table: seq<State>, current: EngineState, validators: map<string, Fn>,
                                 receiver: seq<Fn>, pre: seq<Fn>, turn: Turn, outcome: (Fn, Turn) -> Status)
    requires RefOk(table, current)
    requires var t := RunTurn(table, current, validators, receiver, pre, turn, outcome);
      t.stage.ReceiverFailed? || t.stage.ValidatorFailed? || t.stage.PreFailed?
    ensures RunTurn(table, current, validators, receiver, pre, turn, outcome).step == Step(table, current, [])
  {
  }

  /**
   * A failing receiver handler ends the turn with its error: only receiver
   * handlers ran, in order, up to and including the failing one.
   */
  lemma ReceiverFailureStopsTurn(table: seq<State>, current: EngineState, validators: map<string, Fn>,
                                 receiver: seq<Fn>, pre: seq<Fn>, turn: Turn, outcome: (Fn, Turn) -> Status, k: nat)
    requires RefOk(table, current)
    requires k < |receiver| && outcome(receiver[k], turn).Failed?
    requires forall j :: 0 <= j < k ==> outcome(receiver[j], turn) == Done
    ensures var t := RunTurn(table, current, validators, receiver, pre, turn, outcome);
      t.stage == ReceiverFailed(outcome(receiver[k], turn).message) && t.invoked == receiver[..k + 1]
  {
    OutcomeAfterDone(receiver, turn, outcome, k);
    assert receiver[k..][0] == receiver[k];
    assert receiver[..k] + [receiver[k]] == receiver[..k + 1];
  }

  /**
   * A failing validator ends the turn with its error after every receiver
   * handler succeeded: the pre chain does not run.
   */
  lemma ValidatorFailureStopsTurn(table: seq<State>, current: EngineState, validators: map<string, Fn>,
                                  receiver: seq<Fn>, pre: seq<Fn>, turn: Turn, outcome: (Fn, Turn) -> Status)
    requires RefOk(table, current)
    requires forall j :: 0 <= j < |receiver| ==> outcome(receiver[j], turn) == Done
    requires var target := Decide(table, current, turn.context, turn.entities);
      Outcome(ValidatorsToRun(validators, Deref(table, current), Deref(table, target), turn.entities), turn, outcome).1.Failed?
    ensures var t := RunTurn(table, current, validators, receiver, pre, turn, outcome);
      var target := Decide(table, current, turn.context, turn.entities);
      var checks := ValidatorsToRun(validators, Deref(table, current), Deref(table, target), turn.entities);
      t.stage.ValidatorFailed? && t.invoked == receiver + Outcome(checks, turn, outcome).0 &&
      |t.invoked| > 0 && outcome(t.invoked[|t.invoked| - 1], turn) == Failed(t.stage.message)
  {
    OutcomeFacts(receiver, turn, outcome);
    var target := Decide(table, current, turn.context, turn.entities);
    OutcomeFacts(ValidatorsToRun(validators, Deref(table, current), Deref(table, target), turn.entities), turn, outcome);
  }

  /** With the receiver chain and the validators through, a failing pre chain ends the turn with nothing changed. */
  lemma PreChainDecides(table: seq<State>, current: EngineState, validators: map<string, Fn>,
                        receiver: seq<Fn>, pre: seq<Fn>, turn: Turn, outcome: (Fn, Turn) -> Status)
    requires RefOk(table, current)
    requires Outcome(receiver, turn, outcome) == (receiver, Done)
    requires var target := Decide(table, current, turn.context, turn.entities);
      var checks := ValidatorsToRun(validators, Deref(table, current), Deref(table, target), turn.entities);
      Outcome(checks, turn, outcome) == (checks, Done)
    requires Outcome(pre, turn, outcome).1.Failed?
    ensures var target := Decide(table, current, turn.context, turn.entities);
      var checks := ValidatorsToRun(validators, Deref(table, current), Deref(table, target), turn.entities);
      var pr := Outcome(pre, turn, outcome);
      RunTurn(table, current, validators, receiver, pre, turn, outcome) ==
      TurnResult(PreFailed(pr.1.message), receiver + checks + pr.0, Step(table, current, []))
  {
  }

  /**
   * A failing pre handler ends the turn with its error after the receiver
   * chain and the validators succeeded: `move` does not run.
   */
  lemma PreFailureStopsTurn(table: seq<State>, current: EngineState, validators: map<string, Fn>,
                            receiver: seq<Fn>, pre: seq<Fn>, turn: Turn, outcome: (Fn, Turn) -> Status)
    requires RefOk(table, current)
    requires forall j :: 0 <= j < |receiver| ==> outcome(receiver[j], turn) == Done
    requires var target := Decide(table, current, turn.context, turn.entities);
      var checks := ValidatorsToRun(validators, Deref(table, current), Deref(table, target), turn.entities);
      forall j :: 0 <= j < |checks| ==> outcome(checks[j], turn) == Done
    requires Outcome(pre, turn, outcome).1.Failed?
    ensures var t := RunTurn(table, current, validators, receiver, pre, turn, outcome);
      var target := Decide(table, current, turn.context, turn.entities);
      var checks := ValidatorsToRun(validators, Deref(table, current), Deref(table, target), turn.entities);
      t.stage.PreFailed? && t.invoked == receiver + checks + Outcome(pre, turn, outcome).0 &&
      outcome(t.invoked[|t.invoked| - 1], turn) == Failed(t.stage.message)
  {
    var target := Decide(table, current, turn.context, turn.entities);
    var checks := ValidatorsToRun(validators, Deref(table, current), Deref(table, target), turn.entities);
    var pr := Outcome(pre, turn, outcome);
    assert Outcome(receiver, turn, outcome) == (receiver, Done) by {
      OutcomeFacts(receiver, turn, outcome);
    }
    assert Outcome(checks, turn, outcome) == (checks, Done) by {
      OutcomeFacts(checks, turn, outcome);
    }
    assert |pr.0| > 0 && outcome(pr.0[|pr.0| - 1], turn) == pr.1 by {
      OutcomeFacts(pre, turn, outcome);
    }
    PreChainDecides(table, current, validators, receiver, pre, turn, outcome);
    var invoked := receiver + checks + pr.0;
    assert invoked[|invoked| - 1] == pr.0[|pr.0| - 1];
  }

  /** A turn either stops before `move` with nothing changed, or ends with the transition to `decide`'s choice. */
  lemma TurnEndsInMove(table: seq<State>, current: EngineState, validators: map<string, Fn>,
                       receiver: seq<Fn>, pre: seq<Fn>, turn: Turn, outcome: (Fn, Turn) -> Status)
    requires RefOk(table, current)
    ensures var t := RunTurn(table, current, validators, receiver, pre, turn, outcome);
      var target := Decide(table, current, turn.context, turn.entities);
      (t.stage == Committed || t.stage == Rejected ==> t.step == Moved(table, current, ByRef(target))) &&
      (t.stage == Committed <==> t.step == Moved(table, current, ByRef(target)) && Resolves(table, ByRef(target))) &&
      (t.stage != Committed && t.stage != Rejected ==> t.step == Step(table, current, []))
  {
  }

  /**
   * Forward-only progress: whatever happens in a turn, the session state
   * afterwards is no lighter than before; on a commit it is the state
   * `decide` chose.
   */
  lemma TurnNeverGoesBack(table: seq<State>, current: EngineState, validators: map<string, Fn>,
                          receiver: seq<Fn>, pre: seq<Fn>, turn: Turn, outcome: (Fn, Turn) -> Status)
    requires RefOk(table, current)
    ensures var t := RunTurn(table, current, validators, receiver, pre, turn, outcome);
      RefOk(t.step.table, t.step.current) &&
      Weight(t.step.table, t.step.current) >= Weight(table, current) &&
      (t.stage == Committed ==>
         var target := Decide(table, current, turn.context, turn.entities);
         Weight(t.step.table, t.step.current) == Weight(table, target) &&
         (target.Shared? ==> t.step.current == target))
  {
    var t := RunTurn(table, current, validators, receiver, pre, turn, outcome);
    var target := Decide(table, current, turn.context, turn.entities);
    TurnEndsInMove(table, current, validators, receiver, pre, turn, outcome);
    var mv := Moved(table, current, ByRef(target));
    if t.stage == Committed {
      MovedCommits(table, current, ByRef(target));
      assert t.step == mv;
    } else if t.stage == Rejected {
      MovedRejects(table, current, ByRef(target));
      assert t.step == mv;
    } else {
      assert t.step == Step(table, current, []);
    }
  }

  /** A conversation's session object; `engine` is `session.__engine__.state`, `None` until `receive` creates it. */
  class Session {
    var engine: Option<EngineState>

    constructor ()
      ensures engine == None
    {
      engine := None;
    }
  }

  class Engine {
    /** `options.maxVisits || 10`. */
    const maxVisits: int
    /** `this.states`, in key order; `move` updates the visit counters in place. */
    var table: seq<State>
    /** `this.entities`: the registered validator of each entity name. */
    const validators: map<string, Fn>
    const receiver: Middleware<Fn>
    const pre: Middleware<Fn>
    const post: Middleware<Fn>
    /** Every notification emitted so far, in order. */
    var events: seq<Event>

    ghost predicate Valid()
      reads this
    {
      TableOk(table)
    }

    /** The session's record, if any, refers to an entry of this engine's table. */
    predicate SessionOk(session: Session)
      reads this, session
    {
      session.engine.Some? ==> RefOk(table, session.engine.value)
    }

    /** Builds the engine: the global `maxVisits`, the normalised table, three empty chains. */
    constructor (states: seq<(string, RawState)>, maxVisitsOption: Option<int>, validators: map<string, Fn>)
      requires KeysDistinct(states)
      ensures Valid()
      ensures maxVisits == OrElse(maxVisitsOption, DefaultMaxVisits)
      ensures |table| == |states|
      ensures forall i :: 0 <= i < |states| ==> NormalisedFrom(table[i], states[i].0, states[i].1, maxVisits)
      ensures this.validators == validators && events == []
      ensures fresh(receiver) && fresh(pre) && fresh(post)
      ensures receiver.handlers == [] && pre.handlers == [] && post.handlers == []
    {
      var global := OrElse(maxVisitsOption, DefaultMaxVisits);
      var normalised := Normalise(states, global);
      maxVisits := global;
      table := normalised;
      this.validators := validators;
      receiver := new Middleware();
      pre := new Middleware();
      post := new Middleware();
      events := [];
    }

    /** The first part of `receive`: a session without an engine record gets the initial one; an existing record is kept. */
    method Attach(session: Session)
      modifies session
      ensures old(session.engine).None? ==> session.engine == Some(Own(InitialRecord(maxVisits)))
      ensures old(session.engine).Some? ==> session.engine == old(session.engine)
    {
      if session.engine.None? {
        session.engine := Some(Own(InitialRecord(maxVisits)));
      }
    }

    /** `validateMove`: runs the validators of the validation set one after another, stopping at the first failure. */
    method ValidateMove(turn: Turn, current: EngineState, target: EngineState, outcome: (Fn, Turn) -> Status)
      returns (invoked: seq<Fn>, status: Status)
      requires RefOk(table, current) && RefOk(table, target)
      ensures (invoked, status) ==
              Outcome(ValidatorsToRun(validators, Deref(table, current), Deref(table, target), turn.entities), turn, outcome)
    {
      var names := ValidationNames(Deref(table, current), Deref(table, target), turn.entities, validators.Keys);
      var checks := seq(|names|, k requires 0 <= k < |names| => validators[names[k]]);
      invoked, status := RunSeries(checks, turn, outcome);
    }

    /** `move`: commits a target that resolves, or resets the counter and emits 'error'. */
    method Move(session: Session, target: Target)
      requires Valid() && session.engine.Some? && SessionOk(session) && TargetOk(table, target)
      modifies this, session
      ensures Valid() && session.engine.Some? && SessionOk(session)
      ensures var step := Moved(old(table), old(session.engine.value), target);
        table == step.table && session.engine == Some(step.current) && events == old(events) + step.emitted
    {
      ghost var step := Moved(table, session.engine.value, target);
      var state := Resolve(table, target);
      var name := if state.Some? then Deref(table, state.value).name else None;
      var selected := if name.Some? then Lookup(table, name.value) else None;
      if selected.Some? {
        var s := Deref(table, state.value);
        session.engine := Some(state.value);
        events := events + [MoveEvent(s, s)];
        match state.value {
          case Shared(i) =>
            table := table[i := table[i].(visitCount := table[i].visitCount + 1)];
          case Own(own) =>
            session.engine := Some(Own(own.(visitCount := own.visitCount + 1)));
        }
        events := events + [Enter(name.value)];
      } else {
        match session.engine.value {
          case Shared(j) =>
            table := table[j := table[j].(visitCount := 0)];
          case Own(own) =>
            session.engine := Some(Own(own.(visitCount := 0)));
        }
        events := events + [Error(name)];
      }
      assert table == step.table;
    }

    /** `postMove`: runs the post chain once the state's action hands the turn back; nothing is undone on failure. */
    method PostMove(turn: Turn, outcome: (Fn, Turn) -> Status) returns (invoked: seq<Fn>, status: Status)
      ensures (invoked, status) == Outcome(post.handlers, turn, outcome)
    {
      invoked, status := post.Run(turn, outcome);
    }

    /**
     * `receive`: creates the session record if needed, then runs the turn.
     * The result, the table, the session state and the trace are those of
     * `RunTurn` from the (possibly new) session record.
     */
    method Receive(session: Session, turn: Turn, outcome: (Fn, Turn) -> Status) returns (stage: Stage, invoked: seq<Fn>)
      requires Valid() && SessionOk(session)
      modifies this, session
      ensures Valid() && session.engine.Some? && SessionOk(session)
      ensures var current := if old(session.engine).Some? then old(session.engine).value else Own(InitialRecord(maxVisits));
        var t := RunTurn(old(table), current, validators, receiver.handlers, pre.handlers, turn, outcome);
        stage == t.stage && invoked == t.invoked &&
        table == t.step.table && session.engine == Some(t.step.current) && events == old(events) + t.step.emitted
    {
      Attach(session);
      var current := session.engine.value;
      var rcvInvoked, rcvStatus := receiver.Run(turn, outcome);
      invoked := rcvInvoked;
      if rcvStatus.Failed? {
        stage := ReceiverFailed(rcvStatus.message);
        return;
      }
      var target := Decide(table, current, turn.context, turn.entities);
      var valInvoked, valStatus := ValidateMove(turn, current, target, outcome);
      invoked := invoked + valInvoked;
      if valStatus.Failed? {
        stage := ValidatorFailed(valStatus.message);
        return;
      }
      var preInvoked, preStatus := pre.Run(turn, outcome);
      invoked := invoked + preInvoked;
      if preStatus.Failed? {
        stage := PreFailed(preStatus.message);
        return;
      }
      var before := |events|;
      Move(session, ByRef(target));
      stage := if events[before].Error? then Rejected else Committed;
    }
  }
}
