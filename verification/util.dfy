/**
 * `mergeContext` of lib/utils/Util.js: copies every entity of the turn that
 * has a defined value and no error into the context object, in place.
 */
module Util {
  import opened Wrappers

  /**
   * An entity extracted for the current message: its `value` (`None` is
   * `undefined`) and whether its `error` field is set to a truthy value.
   */
  datatype Entity<V> = Entity(value: Option<V>, hasError: bool)

  /** An entity that `mergeContext` copies: a defined value and no error. */
  predicate Usable<V>(e: Entity<V>) {
    e.value.Some? && !e.hasError
  }

  /** The context object: a mutable map from variable name to value. */
  class Context<V> {
    var vars: map<string, V>

    constructor (vars: map<string, V>)
      ensures this.vars == vars
    {
      this.vars := vars;
    }
  }

  /** The names of the entities that `mergeContext` copies. */
  function UsableNames<V>(entities: map<string, Entity<V>>): set<string> {
    set n | n in entities && Usable(entities[n])
  }

  /**
   * The context after the merge: a usable entity overwrites (or adds) the
   * variable of its name; every other variable keeps its value, and no
   * other variable appears.
   */
  function Merged<V>(context: map<string, V>, entities: map<string, Entity<V>>): (r: map<string, V>)
    ensures forall n :: n in entities && Usable(entities[n]) ==> n in r && r[n] == entities[n].value.value
    ensures forall n :: n !in UsableNames(entities) ==> (n in r <==> n in context)
    ensures forall n :: n in context && n !in UsableNames(entities) ==> n in r && r[n] == context[n]
  {
    map n | n in context.Keys + UsableNames(entities) ::
      if n in UsableNames(entities) then entities[n].value.value else context[n]
  }

  /** Merging the same entities a second time changes nothing. */
  lemma MergeIdempotent<V>(context: map<string, V>, entities: map<string, Entity<V>>)
    ensures Merged(Merged(context, entities), entities) == Merged(context, entities)
  {
    var once := Merged(context, entities);
    var twice := Merged(once, entities);
    assert twice.Keys == once.Keys;
    forall n | n in once
      ensures twice[n] == once[n]
    {
    }
  }

  /**
   * With no entities and no context, the result is the empty context.
   * Together with `MergeContext` on `(None, null)`, which merges into a
   * fresh empty context, this gives `mergeContext()` returning `{}`.
   */
  lemma MergeOfNothing<V>()
    ensures Merged<V>(map[], map[]) == map[]
  {
  }

  /**
   * `mergeContext(entities, context)`: a missing argument stands for an
   * empty map (a missing context becomes a fresh object); the given context
   * object itself is updated and returned.
   */
  method MergeContext<V>(entities: Option<map<string, Entity<V>>>, context: Context?<V>) returns (r: Context<V>)
    modifies context
    ensures context != null ==> r == context
    ensures context == null ==> fresh(r)
    ensures r.vars == Merged(if context == null then map[] else old(context.vars), entities.GetOr(map[]))
  {
    var es := entities.GetOr(map[]);
    if context == null {
      r := new Context(map[]);
    } else {
      r := context;
    }
    ghost var start := r.vars;
    var pending := es.Keys;
    while pending != {}
      invariant pending <= es.Keys
      invariant r.vars == Merged(start, es - pending)
      decreases pending
    {
      var n :| n in pending;
      var e := es[n];
      ghost var before := es - pending;
      ghost var after := es - (pending - {n});
      if e.value.Some? && !e.hasError {
        r.vars := r.vars[n := e.value.value];
      }
      pending := pending - {n};
      assert UsableNames(after) == if Usable(e) then UsableNames(before) + {n} else UsableNames(before);
    }
    assert es - pending == es;
  }
}
