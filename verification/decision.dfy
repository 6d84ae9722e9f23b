/**
 * `decide` and the validation set of `validateMove` in lib/Engine.js: which
 * state comes next, and which entity validators run before moving to it.
 */
module Decision {
  import opened Wrappers
  import opened StateTable

  /** Every `enter` name is a context key or an entity name of this turn (`_.without` leaves nothing). */
  predicate Covered(enter: seq<string>, context: set<string>, entities: seq<string>) {
    forall k :: 0 <= k < |enter| ==> enter[k] in context || enter[k] in entities
  }

  /** A state `decide` may pick: strictly heavier than the current weight `w`, with all its requirements present. */
  predicate Eligible(s: State, w: int, context: set<string>, entities: seq<string>) {
    s.weight > w && Covered(s.enter, context, entities)
  }

  /** Strictly increasing indices: a subsequence of the table in table order. */
  predicate Increasing(idx: seq<nat>) {
    forall a, b :: 0 <= a < b < |idx| ==> idx[a] < idx[b]
  }

  /** `availableStates`: the indices of the eligible entries, in table order. */
  function Available(table: seq<State>, w: int, context: set<string>, entities: seq<string>): (r: seq<nat>)
    ensures forall i :: i in r ==> i < |table|
    ensures forall i :: 0 <= i < |table| ==> (i in r <==> Eligible(table[i], w, context, entities))
    ensures Increasing(r)
    decreases |table|
  {
    if table == [] then []
    else
      var last := |table| - 1;
      var front := Available(table[..last], w, context, entities);
      assert forall i :: 0 <= i < last ==> table[..last][i] == table[i];
      assert forall a :: 0 <= a < |front| ==> front[a] in front;
      if Eligible(table[last], w, context, entities) then front + [last] else front
  }

  /** The mandatory entries among `idx`, in the same order. */
  function Mandatory(table: seq<State>, idx: seq<nat>): (r: seq<nat>)
    requires forall i :: i in idx ==> i < |table|
    ensures forall i :: i in r <==> i in idx && table[i].mandatory
    ensures Increasing(idx) ==> Increasing(r)
  {
    if idx == [] then []
    else
      assert forall i :: i in idx[1..] ==> i in idx;
      var rest := Mandatory(table, idx[1..]);
      assert Increasing(idx) ==> forall i :: i in rest ==> idx[0] < i;
      assert idx[0] in idx;
      assert forall b :: 0 <= b < |rest| ==> rest[b] in rest;
      if table[idx[0]].mandatory then [idx[0]] + rest else rest
  }

  /** The two orders `decide` sorts by. */
  datatype Order =
    | ByWeight        // weight ascending
    | BySpecificity   // number of `enter` names descending, then weight ascending

  /** The sort key of `s`; smaller comes first. */
  function Key(s: State, o: Order): (int, int) {
    match o
    case ByWeight => (s.weight, 0)
    case BySpecificity => (-|s.enter|, s.weight)
  }

  /** `a` sorts strictly before `b`. */
  predicate Precedes(a: State, b: State, o: Order) {
    Key(a, o).0 < Key(b, o).0 || (Key(a, o).0 == Key(b, o).0 && Key(a, o).1 < Key(b, o).1)
  }

  /**
   * The first element after a stable `_.orderBy` of `cands` by `o`: nothing
   * sorts strictly before it, and it sorts strictly before every candidate
   * that comes earlier in the table.
   */
  function First(table: seq<State>, cands: seq<nat>, o: Order): (r: nat)
    requires cands != [] && Increasing(cands)
    requires forall i :: i in cands ==> i < |table|
    ensures r in cands
    ensures forall c :: c in cands ==> !Precedes(table[c], table[r], o)
    ensures forall c :: c in cands && c < r ==> Precedes(table[r], table[c], o)
    decreases |cands|
  {
    if |cands| == 1 then cands[0]
    else
      assert forall c :: c in cands[1..] ==> c in cands;
      var b := First(table, cands[1..], o);
      if Precedes(table[b], table[cands[0]], o) then b else cands[0]
  }

  /** The weight of the state a session reference denotes. */
  function Weight(table: seq<State>, r: EngineState): int
    requires RefOk(table, r)
  {
    Deref(table, r).weight
  }

  /**
   * `decide`: among the eligible entries, the lightest mandatory one if
   * there is one, else the most specific; when nothing is eligible, the
   * current state. The choice is eligible whenever something is, and never
   * lighter than the current state.
   */
  function Decide(table: seq<State>, current: EngineState, context: set<string>, entities: seq<string>): (r: EngineState)
    requires RefOk(table, current)
    ensures RefOk(table, r)
    ensures Weight(table, r) >= Weight(table, current)
    ensures (exists i :: 0 <= i < |table| && Eligible(table[i], Weight(table, current), context, entities)) ==>
              r.Shared? && Eligible(table[r.index], Weight(table, current), context, entities)
    ensures (forall i :: 0 <= i < |table| ==> !Eligible(table[i], Weight(table, current), context, entities)) ==>
              r == current
  {
    var w := Weight(table, current);
    var avail := Available(table, w, context, entities);
    var mand := Mandatory(table, avail);
    if mand != [] then Shared(First(table, mand, ByWeight))
    else if avail != [] then Shared(First(table, avail, BySpecificity))
    else
      assert forall i :: 0 <= i < |table| ==> i !in avail;
      current
  }

  /**
   * Mandatory preemption: when some eligible entry is mandatory, `decide`
   * picks an eligible mandatory entry of the lowest weight, the first in
   * table order among those of equal weight.
   */
  lemma DecideMandatory(table: seq<State>, current: EngineState, context: set<string>, entities: seq<string>, m: nat)
    requires RefOk(table, current)
    requires m < |table| && table[m].mandatory && Eligible(table[m], Weight(table, current), context, entities)
    ensures var r := Decide(table, current, context, entities);
      r.Shared? && r.index < |table| &&
      table[r.index].mandatory && Eligible(table[r.index], Weight(table, current), context, entities) &&
      forall k :: 0 <= k < |table| && table[k].mandatory && Eligible(table[k], Weight(table, current), context, entities) ==>
        table[r.index].weight <= table[k].weight &&
        (table[r.index].weight == table[k].weight ==> r.index <= k)
  {
    var w := Weight(table, current);
    var avail := Available(table, w, context, entities);
    var mand := Mandatory(table, avail);
    assert m in mand;
  }

  /**
   * Specificity: with no eligible mandatory entry, `decide` picks an
   * eligible entry with the most `enter` names; among those, the lowest
   * weight; among those, the first in table order.
   */
  lemma DecideMostSpecific(table: seq<State>, current: EngineState, context: set<string>, entities: seq<string>, e: nat)
    requires RefOk(table, current)
    requires e < |table| && Eligible(table[e], Weight(table, current), context, entities)
    requires forall k :: 0 <= k < |table| && Eligible(table[k], Weight(table, current), context, entities) ==> !table[k].mandatory
    ensures var r := Decide(table, current, context, entities);
      r.Shared? && r.index < |table| &&
      Eligible(table[r.index], Weight(table, current), context, entities) &&
      forall k :: 0 <= k < |table| && Eligible(table[k], Weight(table, current), context, entities) ==>
        |table[k].enter| <= |table[r.index].enter| &&
        (|table[k].enter| == |table[r.index].enter| ==> table[r.index].weight <= table[k].weight) &&
        (|table[k].enter| == |table[r.index].enter| && table[r.index].weight == table[k].weight ==> r.index <= k)
  {
    var w := Weight(table, current);
    var avail := Available(table, w, context, entities);
    var mand := Mandatory(table, avail);
    assert e in avail;
  }
  /**
   * Three states A (weight 10, no requirements), B (weight 20, needs `age`)
   * and C (weight 30, needs `age` and `location`).
   */
  predicate ScenarioTable(table: seq<State>) {
    table == [
      State(Some("A"), 10, [], [], false, 10, 0),
      State(Some("B"), 20, ["age"], [], false, 10, 0),
      State(Some("C"), 30, ["age", "location"], [], false, 10, 0)]
  }

  /** A new session, with nothing in context and no entities, goes to A. */
  lemma ScenarioFirstTurn(table: seq<State>)
    requires ScenarioTable(table)
    ensures Decide(table, Own(InitialRecord(10)), {}, []) == Shared(0)
  {
    assert !Covered(table[1].enter, {}, []) by { assert table[1].enter[0] == "age"; }
    assert !Covered(table[2].enter, {}, []) by { assert table[2].enter[0] == "age"; }
    DecideMostSpecific(table, Own(InitialRecord(10)), {}, [], 0);
  }

  /** From A, a turn with an `age` entity goes to B. */
  lemma ScenarioSecondTurn(table: seq<State>)
    requires ScenarioTable(table)
    ensures Decide(table, Shared(0), {}, ["age"]) == Shared(1)
  {
    assert Covered(table[1].enter, {}, ["age"]);
    assert !Covered(table[2].enter, {}, ["age"]) by { assert table[2].enter[1] == "location"; }
    DecideMostSpecific(table, Shared(0), {}, ["age"], 1);
  }

  /** From B, with `age` in context and a `location` entity, the turn goes to C. */
  lemma ScenarioThirdTurn(table: seq<State>)
    requires ScenarioTable(table)
    ensures Decide(table, Shared(1), {"age"}, ["location"]) == Shared(2)
  {
    assert Covered(table[2].enter, {"age"}, ["location"]);
    DecideMostSpecific(table, Shared(1), {"age"}, ["location"], 2);
  }

  /** The position of the first occurrence of `x` in `s`. */
  function IndexOf(s: seq<string>, x: string): (r: nat)
    requires x in s
    ensures r < |s| && s[r] == x
    ensures forall k :: 0 <= k < r ==> s[k] != x
  {
    if s[0] == x then 0 else 1 + IndexOf(s[1..], x)
  }

  /** Dropping the last element does not move the first occurrence of anything that remains. */
  lemma IndexOfInFront(s: seq<string>, x: string)
    requires |s| > 0 && x in s[..|s| - 1]
    ensures IndexOf(s, x) == IndexOf(s[..|s| - 1], x)
  {
  }

  /**
   * `_.union` of the names in `s`, keeping only those in `keep`: each kept
   * name once, in the order of its first occurrence in `s`.
   */
  function UnionKept(s: seq<string>, keep: set<string>): (r: seq<string>)
    ensures forall x :: x in r <==> x in s && x in keep
    ensures forall i, j :: 0 <= i < j < |r| ==> r[i] != r[j]
    decreases |s|
  {
    if s == [] then []
    else
      var front := s[..|s| - 1];
      var x := s[|s| - 1];
      var r := UnionKept(front, keep);
      assert s == front + [x];
      if x in keep && x !in r then r + [x] else r
  }

  /** `UnionKept` lists the kept names in the order in which they first occur. */
  lemma {:induction false} UnionKeptOrder(s: seq<string>, keep: set<string>, i: nat, j: nat)
    requires i < j < |UnionKept(s, keep)|
    ensures IndexOf(s, UnionKept(s, keep)[i]) < IndexOf(s, UnionKept(s, keep)[j])
    decreases |s|
  {
    var front := s[..|s| - 1];
    var x := s[|s| - 1];
    var r := UnionKept(front, keep);
    assert s == front + [x];
    var r' := UnionKept(s, keep);
    assert r'[i] == r[i] && r[i] in r;
    IndexOfInFront(s, r[i]);
    if j < |r| {
      assert r'[j] == r[j] && r[j] in r;
      IndexOfInFront(s, r[j]);
      UnionKeptOrder(front, keep, i, j);
    } else {
      assert r'[j] == x && x !in front;
      assert IndexOf(s, x) == |front|;
    }
  }

  /**
   * The validators `validateMove` runs, by entity name: the union of the
   * current state's `exit`, the target's `enter` and this turn's entity
   * names, restricted to names with a registered validator.
   */
  function ValidationNames(current: State, target: State, entities: seq<string>, registered: set<string>): (r: seq<string>)
    ensures forall x :: x in r <==> (x in current.exit || x in target.enter || x in entities) && x in registered
    ensures forall i, j :: 0 <= i < j < |r| ==> r[i] != r[j]
  {
    UnionKept(current.exit + target.enter + entities, registered)
  }
}
