/** The watcher's set of processed log identities, with block numbers for pruning. */
module Dedup {

  datatype LogId = LogId(tx: nat, idx: nat)

  /** The first mark of an identity keeps its block. */
  function Marked(m: map<LogId, nat>, id: LogId, block: nat): map<LogId, nat>
  {
    if id in m then m else m[id := block]
  }

  function Pruned(m: map<LogId, nat>, block: nat): map<LogId, nat>
  {
    map id | id in m && m[id] >= block :: m[id]
  }

  class Seen {
    var block: map<LogId, nat>

    constructor ()
      ensures block == map[]
    {
      block := map[];
    }

    predicate Has(tx: nat, idx: nat)
      reads this
    {
      LogId(tx, idx) in block
    }

    /** Records the pair and reports whether it had already been seen. */
    method Mark(tx: nat, idx: nat, b: nat) returns (already: bool)
      modifies this
      ensures already <==> LogId(tx, idx) in old(block)
      ensures block == Marked(old(block), LogId(tx, idx), b)
    {
      var k := LogId(tx, idx);
      if k in block {
        return true;
      }
      block := block[k := b];
      return false;
    }

    /** Drops entries from blocks strictly below b. */
    method PruneBelow(b: nat)
      modifies this
      ensures block == Pruned(old(block), b)
    {
      var todo := block.Keys;
      while todo != {}
        invariant todo <= block.Keys <= old(block).Keys
        invariant forall id :: id in block ==> block[id] == old(block)[id]
        invariant forall id :: id in old(block) && id !in todo ==> (id in block <==> old(block)[id] >= b)
        decreases todo
      {
        var id :| id in todo;
        todo := todo - {id};
        if block[id] < b {
          block := block - {id};
        }
      }
    }
  }
}
