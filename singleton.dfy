/** `singleton` of app/singleton.server.ts: a memo table kept on the
    process-global object, filled with `??=`. */
module Singleton {
  import opened Wrappers

  /** The process-global object. `singletons` is `global.__singletons`:
      `None` before the first call creates it; an entry holding `None` is a
      stored null or undefined. */
  class Globals<V> {
    var singletons: Option<map<string, Option<V>>>

    constructor()
      ensures singletons == None
    {
      singletons := None;
    }

    /** The value stored under `name`, `None` when absent or nullish. */
    function Stored(name: string): (r: Option<V>)
      reads this
      ensures r.Some? ==> singletons.Some? && name in singletons.value
                          && singletons.value[name] == r
    {
      if singletons.Some? && name in singletons.value then singletons.value[name] else None
    }

    /** `singleton(name, valueFactory)`, where `made` is what
        `valueFactory()` returns when it is called. The registry is created
        on the first call only. A non-nullish stored value is returned and
        the factory is not called; otherwise the factory's value is stored
        and returned. No other name's entry changes. */
    method Get(name: string, made: Option<V>) returns (r: Option<V>, invoked: bool)
      modifies this
      ensures singletons.Some?
      ensures invoked <==> old(Stored(name)).None?
      ensures r == if invoked then made else old(Stored(name))
      ensures singletons.value == old(singletons).GetOr(map[])[name := r]
    {
      if singletons.None? {
        singletons := Some(map[]);
      }
      var registry := singletons.value;
      var current := if name in registry then registry[name] else None;
      invoked := current.None?;
      if invoked {
        registry := registry[name := made];
      }
      singletons := Some(registry);
      r := registry[name];
    }
  }

  /** A second call for the same name returns the first call's value without
      calling the factory, unless that value was nullish, in which case the
      factory runs again. Other names keep their entries. */
  method CallTwice<V>(g: Globals<V>, name: string, made1: Option<V>, made2: Option<V>)
    returns (r1: Option<V>, r2: Option<V>, invoked2: bool)
    modifies g
    ensures g.singletons.Some?
    ensures r1.Some? ==> r2 == r1 && !invoked2
    ensures r1.None? ==> invoked2 && r2 == made2
    ensures forall n :: n != name && old(g.singletons).Some? && n in old(g.singletons).value ==>
      n in g.singletons.value && g.singletons.value[n] == old(g.singletons).value[n]
  {
    var invoked1;
    r1, invoked1 := g.Get(name, made1);
    r2, invoked2 := g.Get(name, made2);
  }
}
