/** A mutable configuration dictionary: the Python dict that the builders
    deep-copy and then update key by key. */
module Dicts {
  import opened ConfigValues

  class Dict {
    var entries: Config

    /** A fresh dictionary holding a copy of m; used for copy.deepcopy of a
        template. Values are immutable, so the copy shares nothing mutable
        with its origin. */
    constructor (m: Config)
      ensures entries == m
    {
      entries := m;
    }

    /** copy.deepcopy(self): a fresh dictionary with equal contents. */
    method Copy() returns (d: Dict)
      ensures fresh(d)
      ensures d.entries == entries
    {
      d := new Dict(entries);
    }

    /** self[key] = v */
    method Set(key: string, v: Value)
      modifies this
      ensures entries == old(entries)[key := v]
    {
      entries := entries[key := v];
    }

    /** self.pop(key, None): removes key if present, no error otherwise. */
    method Pop(key: string)
      modifies this
      ensures entries == old(entries) - {key}
    {
      entries := entries - {key};
    }

    /** self[key][i] = v on a list value, updated in place. */
    method SetElement(key: string, i: nat, v: Value)
      requires key in entries && entries[key].ListVal? && i < |entries[key].items|
      modifies this
      ensures entries == old(entries)[key := ListVal(old(entries)[key].items[i := v])]
    {
      entries := entries[key := ListVal(entries[key].items[i := v])];
    }
  }
}
