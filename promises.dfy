/** The settleable result that every asynchronous transport operation returns.
    Its implementation lives in the client library and is not part of this model;
    write-once settlement is an ASSUMPTION about it: the first resolveOk/resolveErr
    decides the outcome and each later one is ignored. The ignored attempts are kept,
    so that a second settlement stays visible. */
module Promises {
  import opened Outcomes

  datatype Cell<V> = Cell(outcome: Option<Outcome<V>>, ignored: seq<Outcome<V>>)

  /** One settlement attempt: an unsettled cell takes the attempt as its outcome; a
      settled cell keeps its outcome and records the attempt as ignored. */
  function Settle<V>(c: Cell<V>, o: Outcome<V>): (r: Cell<V>)
    ensures r.outcome.Some?
    ensures c.outcome.Some? ==> r.outcome == c.outcome
    ensures c.outcome.None? ==> r.outcome == Some(o)
    ensures c.outcome.Some? ==> r.ignored == c.ignored + [o]
    ensures c.outcome.None? <==> r.ignored == c.ignored
  {
    if c.outcome.None? then Cell(Some(o), c.ignored) else Cell(c.outcome, c.ignored + [o])
  }

  /** Several settlement attempts, in order. */
  function SettleAll<V>(c: Cell<V>, attempts: seq<Outcome<V>>): Cell<V>
    decreases |attempts|
  {
    if attempts == [] then c else SettleAll(Settle(c, attempts[0]), attempts[1..])
  }

  /** Whatever the attempts, the first one decides and the others are ignored, in order. */
  lemma {:induction false} FirstSettlementWins<V>(c: Cell<V>, attempts: seq<Outcome<V>>)
    requires attempts != []
    ensures c.outcome.None? ==>
      SettleAll(c, attempts) == Cell(Some(attempts[0]), c.ignored + attempts[1..])
    ensures c.outcome.Some? ==> SettleAll(c, attempts) == Cell(c.outcome, c.ignored + attempts)
    decreases |attempts|
  {
    var c1 := Settle(c, attempts[0]);
    if |attempts| == 1 {
      assert attempts[1..] == [];
      assert c.ignored + [attempts[0]] == c.ignored + attempts;
    } else {
      FirstSettlementWins(c1, attempts[1..]);
      assert c1.outcome.Some?;
      if c.outcome.None? {
        assert c1.ignored == c.ignored;
      } else {
        assert c1.ignored + attempts[1..] == c.ignored + attempts;
      }
    }
  }

  class Promise<V> {
    var outcome: Option<Outcome<V>>
    var ignored: seq<Outcome<V>>

    function State(): Cell<V>
      reads this
    {
      Cell(outcome, ignored)
    }

    constructor ()
      ensures outcome == None && ignored == []
    {
      outcome := None;
      ignored := [];
    }

    method Resolve(o: Outcome<V>)
      modifies this
      ensures State() == Settle(old(State()), o)
    {
      if outcome.None? {
        outcome := Some(o);
      } else {
        ignored := ignored + [o];
      }
    }

    method ResolveOk(v: V)
      modifies this
      ensures State() == Settle(old(State()), Ok(v))
    {
      Resolve(Ok(v));
    }

    method ResolveErr(e: VoiceError)
      modifies this
      ensures State() == Settle(old(State()), Err(e))
    {
      Resolve(Err(e));
    }
  }
}
