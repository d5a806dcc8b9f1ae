/** The watcher's live set of watched addresses. */
module Watchset {
  import opened Seqs
  import opened Decode

  /** A wallet text as NormalizeAddress reads it; None when it is not an address. */
  type Entry = Option<Address>

  function Valid(entries: seq<Entry>): set<Address>
  {
    set i | 0 <= i < |entries| && entries[i].Some? :: entries[i].value
  }

  /** Adds first, then removes: a wallet on both lists ends up removed. */
  function Applied(m: set<Address>, added: seq<Entry>, removed: seq<Entry>): set<Address>
  {
    m + Valid(added) - Valid(removed)
  }

  lemma ValidSnoc(entries: seq<Entry>, x: Entry)
    ensures Valid(entries + [x]) == Valid(entries) + if x.Some? then {x.value} else {}
  {
    var s := entries + [x];
    assert forall i :: 0 <= i < |entries| ==> s[i] == entries[i];
    assert s[|entries|] == x;
    forall a | a in Valid(entries) ensures a in Valid(s) {
      var i :| 0 <= i < |entries| && entries[i].Some? && entries[i].value == a;
      assert s[i] == entries[i];
    }
  }

  class Set {
    var m: set<Address>

    constructor ()
      ensures m == {}
    {
      m := {};
    }

    predicate Has(a: Address)
      reads this
    {
      a in m
    }

    /** Invalid entries are ignored rather than corrupting the set. */
    method Apply(added: seq<Entry>, removed: seq<Entry>)
      modifies this
      ensures m == Applied(old(m), added, removed)
    {
      for i := 0 to |added|
        invariant m == old(m) + Valid(added[..i])
      {
        ValidSnoc(added[..i], added[i]);
        assert added[..i + 1] == added[..i] + [added[i]];
        if added[i].Some? {
          m := m + {added[i].value};
        }
      }
      assert added[..|added|] == added;
      for i := 0 to |removed|
        invariant m == old(m) + Valid(added) - Valid(removed[..i])
      {
        ValidSnoc(removed[..i], removed[i]);
        assert removed[..i + 1] == removed[..i] + [removed[i]];
        if removed[i].Some? {
          m := m - {removed[i].value};
        }
      }
      assert removed[..|removed|] == removed;
    }
  }
}
