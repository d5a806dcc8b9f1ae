/** The trader's placements table: one row per claimed proposal. */
module Placements {
  import opened Effects
  import opened Seqs

  type ProposalId = string

  datatype Status = Claimed | Marked(orderId: string, status: string)

  type Table = map<ProposalId, Status>

  /** INSERT … ON CONFLICT DO NOTHING: the table, and how the call returns (None: an error). */
  function Claim(t: Table, id: ProposalId, how: Outcome): (Table, Option<bool>)
  {
    match how
    case Failed => (t, None)
    case Unsure => (if id in t then t else t[id := Claimed], None)
    case Done => if id in t then (t, Some(false)) else (t[id := Claimed], Some(true))
  }

  /** DELETE … WHERE status = 'claimed'. */
  function Unclaim(t: Table, id: ProposalId, how: Outcome): Table
  {
    if how == Failed || id !in t || t[id] != Claimed then t else t - {id}
  }

  /** UPDATE: a row that is not there is not created. */
  function MarkResult(t: Table, id: ProposalId, orderId: string, status: string, how: Outcome): Table
  {
    if how == Failed || id !in t then t else t[id := Marked(orderId, status)]
  }

  class Store {
    var placements: Table

    constructor ()
      ensures placements == map[]
    {
      placements := map[];
    }

    method TryClaim(id: ProposalId, how: Outcome) returns (claimed: Option<bool>)
      modifies this
      ensures (placements, claimed) == Claim(old(placements), id, how)
    {
      if how == Failed {
        return None;
      }
      var fresh' := id !in placements;
      if fresh' {
        placements := placements[id := Claimed];
      }
      claimed := if how == Unsure then None else Some(fresh');
    }

    method Drop(id: ProposalId, how: Outcome)
      modifies this
      ensures placements == Unclaim(old(placements), id, how)
    {
      if how != Failed && id in placements && placements[id] == Claimed {
        placements := placements - {id};
      }
    }

    method Mark(id: ProposalId, orderId: string, status: string, how: Outcome)
      modifies this
      ensures placements == MarkResult(old(placements), id, orderId, status, how)
    {
      if how != Failed && id in placements {
        placements := placements[id := Marked(orderId, status)];
      }
    }
  }
}
