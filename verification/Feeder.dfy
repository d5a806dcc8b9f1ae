/** The watcher's feed: a snapshot, then a stream of changes, again and again until cancelled. */
module Feeder {
  import opened Seqs
  import opened Decode
  import opened Watchset

  /** A message as received; its texts may be invalid addresses. */
  datatype Message = Message(added: seq<Entry>, removed: seq<Entry>)

  /** One turn of Run: the snapshot's reply (None when it fails) and what the stream delivers before it ends. */
  datatype Turn = Turn(reply: Option<seq<Entry>>, messages: seq<Message>)

  function AppliedAll(m: set<Address>, messages: seq<Message>): set<Address>
  {
    if messages == [] then m
    else
      var last := messages[|messages| - 1];
      Applied(AppliedAll(m, messages[..|messages| - 1]), last.added, last.removed)
  }

  /** The messages a run applies: each good snapshot as an addition, then its stream. */
  function Received(turns: seq<Turn>): seq<Message>
  {
    if turns == [] then []
    else
      var last := turns[|turns| - 1];
      Received(turns[..|turns| - 1]) +
      if last.reply.Some? then [Message(last.reply.value, [])] + last.messages else []
  }

  lemma {:induction false} AppliedAllConcat(m: set<Address>, a: seq<Message>, b: seq<Message>)
    ensures AppliedAll(m, a + b) == AppliedAll(AppliedAll(m, a), b)
  {
    if b == [] {
      assert a + b == a;
    } else {
      AppliedAllConcat(m, a, b[..|b| - 1]);
      assert (a + b)[..|a + b| - 1] == a + b[..|b| - 1];
    }
  }

  /** The turn of the last good snapshot, or the first turn. */
  function Since(turns: seq<Turn>): nat
  {
    if turns == [] then 0
    else if turns[|turns| - 1].reply.Some? then |turns| - 1
    else Since(turns[..|turns| - 1])
  }

  lemma SinceSnoc(turns: seq<Turn>, turn: Turn)
    ensures Since(turns + [turn]) == if turn.reply.Some? then |turns| else Since(turns)
  {
    assert (turns + [turn])[..|turns|] == turns;
  }

  lemma EmptyRun(m: set<Address>)
    ensures AppliedAll(m, Received([])) == m && Since([]) == 0
  {}

  class Feeder {
    const watched: Set
    var ready: bool

    constructor (watched: Set)
      ensures this.watched == watched && !ready
    {
      this.watched := watched;
      ready := false;
    }

    /** A good snapshot only adds. */
    method Snapshot(reply: Option<seq<Entry>>) returns (ok: bool)
      modifies watched
      ensures ok == reply.Some?
      ensures watched.m == if ok then old(watched.m) + Valid(reply.value) else old(watched.m)
    {
      ok := reply.Some?;
      if ok {
        watched.Apply(reply.value, []);
      }
    }

    /** Applies what arrives until the stream ends. */
    method Stream(messages: seq<Message>)
      modifies watched
      ensures watched.m == AppliedAll(old(watched.m), messages)
    {
      for i := 0 to |messages|
        invariant watched.m == AppliedAll(old(watched.m), messages[..i])
      {
        assert messages[..i + 1][..i] == messages[..i];
        watched.Apply(messages[i].added, messages[i].removed);
      }
      assert messages[..|messages|] == messages;
    }

    /** Runs until cancelled, after the given turns; `attempts` are the backoff attempts waited with. */
    method Run(turns: seq<Turn>) returns (attempts: seq<nat>)
      modifies this, watched
      ensures watched.m == AppliedAll(old(watched.m), Received(turns))
      ensures ready == (old(ready) || exists i :: 0 <= i < |turns| && turns[i].reply.Some?)
      ensures |attempts| == |turns|
      ensures forall i :: 0 <= i < |turns| ==> attempts[i] == i - Since(turns[..i + 1])
    {
      hide AppliedAll, Received, Since, Valid;
      attempts := [];
      assert turns[..0] == [];
      EmptyRun(watched.m);
      var attempt := 0;
      for i := 0 to |turns|
        invariant watched.m == AppliedAll(old(watched.m), Received(turns[..i]))
        invariant ready == (old(ready) || exists j :: 0 <= j < i && turns[j].reply.Some?)
        invariant |attempts| == i
        invariant Since(turns[..i]) <= i && attempt == i - Since(turns[..i])
        invariant forall j :: 0 <= j < i ==> attempts[j] == j - Since(turns[..j + 1])
      {
        assert turns[..i + 1] == turns[..i] + [turns[i]];
        SinceSnoc(turns[..i], turns[i]);
        var ok := Snapshot(turns[i].reply);
        if ok {
          ready := true;
          attempt := 0;
          Stream(turns[i].messages);
        }
        AppliedTurn(old(watched.m), turns[..i], turns[i]);
        attempts := attempts + [attempt];
        attempt := attempt + 1;
      }
      assert turns[..|turns|] == turns;
    }
  }

  lemma AppliedTurn(m: set<Address>, turns: seq<Turn>, turn: Turn)
    ensures AppliedAll(m, Received(turns + [turn])) ==
            if turn.reply.Some?
            then AppliedAll(AppliedAll(m, Received(turns)) + Valid(turn.reply.value), turn.messages)
            else AppliedAll(m, Received(turns))
  {
    assert (turns + [turn])[..|turns|] == turns;
    if turn.reply.Some? {
      var snap := [Message(turn.reply.value, [])];
      AppliedAllConcat(m, Received(turns), snap + turn.messages);
      AppliedAllConcat(AppliedAll(m, Received(turns)), snap, turn.messages);
      assert snap[..0] == [] && Valid([]) == {};
      assert AppliedAll(AppliedAll(m, Received(turns)), snap) == AppliedAll(m, Received(turns)) + Valid(turn.reply.value);
    } else {
      assert Received(turns + [turn]) == Received(turns);
    }
  }
}
