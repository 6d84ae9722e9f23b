/**
 * The state table of lib/Engine.js: the records that describe each
 * conversational state, the normalisation `validate` applies to the
 * configured table, and lookup by name.
 */
module StateTable {
  import opened Wrappers

  /**
   * A state record. Table entries carry their key as `name`; the record
   * `receive` creates for a new session has no name (`None`).
   */
  datatype State = State(
    name: Option<string>,
    weight: int,
    enter: seq<string>,
    exit: seq<string>,
    mandatory: bool,
    maxVisits: int,
    visitCount: int)

  /** A state as configured: a field left out is `None`; `mandatory` is its truthiness. */
  datatype RawState = RawState(
    weight: Option<int>,
    enter: Option<seq<string>>,
    exit: Option<seq<string>>,
    mandatory: bool,
    maxVisits: Option<int>)

  /** The global default for `maxVisits` when the options give none. */
  const DefaultMaxVisits: int := 10

  /** JavaScript's `x || d` on a number that may be undefined: `0` and `undefined` give `d`. */
  function OrElse(x: Option<int>, d: int): int {
    if x.Some? && x.value != 0 then x.value else d
  }

  /** The keys of a configured table are distinct, as the keys of an object are. */
  predicate KeysDistinct(states: seq<(string, RawState)>) {
    forall i, j :: 0 <= i < j < |states| ==> states[i].0 != states[j].0
  }

  /** Every entry is named, and no two entries share a name. */
  predicate TableOk(table: seq<State>) {
    (forall i :: 0 <= i < |table| ==> table[i].name.Some?) &&
    (forall i, j :: 0 <= i < j < |table| ==> table[i].name != table[j].name)
  }

  /** Entry `s` is configured entry `(key, raw)` after `validate`. */
  predicate NormalisedFrom(s: State, key: string, raw: RawState, maxVisits: int) {
    s.name == Some(key) &&
    s.weight == raw.weight.GetOr(0) &&
    s.enter == raw.enter.GetOr([]) &&
    s.exit == raw.exit.GetOr([]) &&
    s.mandatory == raw.mandatory &&
    s.maxVisits == OrElse(raw.maxVisits, maxVisits) &&
    s.visitCount == 0
  }

  /**
   * `validate`: walks the configured table and fills in every entry's name
   * (its key) and the defaults of the fields it leaves out; every visit
   * counter starts at 0.
   */
  method Normalise(states: seq<(string, RawState)>, maxVisits: int) returns (table: seq<State>)
    ensures |table| == |states|
    ensures forall i :: 0 <= i < |states| ==> NormalisedFrom(table[i], states[i].0, states[i].1, maxVisits)
    ensures KeysDistinct(states) ==> TableOk(table)
  {
    table := [];
    var i := 0;
    while i < |states|
      invariant 0 <= i <= |states|
      invariant |table| == i
      invariant forall k :: 0 <= k < i ==> NormalisedFrom(table[k], states[k].0, states[k].1, maxVisits)
    {
      var (key, raw) := states[i];
      var entry := State(
        Some(key),
        if raw.weight.Some? && raw.weight.value != 0 then raw.weight.value else 0,
        if raw.enter.Some? then raw.enter.value else [],
        if raw.exit.Some? then raw.exit.value else [],
        raw.mandatory,
        OrElse(raw.maxVisits, maxVisits),
        0);
      table := table + [entry];
      i := i + 1;
    }
  }

  /** The index of the entry named `n` (`this.states[n]`), if there is one. */
  function Lookup(table: seq<State>, n: string): (r: Option<nat>)
    ensures r.Some? ==> r.value < |table| && table[r.value].name == Some(n)
    ensures r.None? ==> forall i :: 0 <= i < |table| ==> table[i].name != Some(n)
    decreases |table|
  {
    if table == [] then None
    else if table[0].name == Some(n) then Some(0)
    else match Lookup(table[1..], n)
      case None => None
      case Some(k) => Some(k + 1)
  }

  /** In a well-formed table, every entry is found under its own name. */
  lemma LookupOwnName(table: seq<State>, i: nat)
    requires TableOk(table) && i < |table|
    ensures Lookup(table, table[i].name.value) == Some(i)
  {
  }

  /**
   * What a session's engine record holds: a record of its own, or (after a
   * transition) the very table entry, shared with the table.
   */
  datatype EngineState = Own(state: State) | Shared(index: nat)

  predicate RefOk(table: seq<State>, r: EngineState) {
    r.Shared? ==> r.index < |table|
  }

  /** The record a reference denotes. */
  function Deref(table: seq<State>, r: EngineState): State
    requires RefOk(table, r)
  {
    match r
    case Own(s) => s
    case Shared(i) => table[i]
  }

  /** The record `receive` gives a session that has none yet. */
  function InitialRecord(maxVisits: int): (s: State)
    ensures s.name.None? && s.weight == -1 && s.enter == [] && s.exit == []
    ensures !s.mandatory && s.maxVisits == maxVisits && s.visitCount == 0
  {
    State(None, -1, [], [], false, maxVisits, 0)
  }
}
