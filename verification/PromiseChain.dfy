/** Promise chains: the idiom by which the session router queues one client's operations and the model catalog queues
    one provider's publications.

    A new operation waits for the tail it finds, becomes the tail, and when it settles removes itself if it still is
    the tail. Nothing but these three moves touches the entry, so a chain is the operations queued so far together
    with the entry of the map (absent, or the operation it points to). */
module PromiseChain {
  import opened Common

  datatype Phase = Waiting | Running | Settled

  datatype Operation = Operation(previous: Option<nat>, phase: Phase)

  datatype Chain = Chain(operations: seq<Operation>, tail: Option<nat>)

  const Unused := Chain([], None)

  function Enqueue(chain: Chain): Chain {
    Chain(chain.operations + [Operation(chain.tail, Waiting)], Some(|chain.operations|))
  }

  /** An operation may start once the operation it found as the tail has settled. */
  predicate CanStart(chain: Chain, i: nat) {
    && i < |chain.operations|
    && chain.operations[i].phase.Waiting?
    && (chain.operations[i].previous.Some? ==>
          && chain.operations[i].previous.value < |chain.operations|
          && chain.operations[chain.operations[i].previous.value].phase.Settled?)
  }

  function SetPhase(chain: Chain, i: nat, phase: Phase): Chain
    requires i < |chain.operations|
  {
    chain.(operations := chain.operations[i := chain.operations[i].(phase := phase)])
  }

  predicate CanSettle(chain: Chain, i: nat) {
    i < |chain.operations| && chain.operations[i].phase.Running?
  }

  /** The clean-up of a settled operation. */
  function Forget(chain: Chain, i: nat): Chain {
    if chain.tail == Some(i) then chain.(tail := None) else chain
  }

  predicate CanForget(chain: Chain, i: nat) {
    i < |chain.operations| && chain.operations[i].phase.Settled?
  }

  /** Operation `i` is past and every earlier one too. */
  ghost predicate SettledUpTo(chain: Chain, n: nat) {
    n <= |chain.operations| && forall j: nat | j < n :: chain.operations[j].phase.Settled?
  }

  ghost predicate Ordered(chain: Chain) {
    && (forall i: nat | i < |chain.operations| && !chain.operations[i].phase.Waiting? :: SettledUpTo(chain, i))
    && (forall i: nat | i < |chain.operations| ::
          match chain.operations[i].previous
          case None => SettledUpTo(chain, i)
          case Some(p) => p + 1 == i)
    && match chain.tail
       case None => SettledUpTo(chain, |chain.operations|)
       case Some(t) => t + 1 == |chain.operations|
  }

  lemma EnqueueKeepsOrder(chain: Chain)
    requires Ordered(chain)
    ensures Ordered(Enqueue(chain))
  {
    var next := Enqueue(chain);
    forall i: nat | i < |next.operations|
      ensures !next.operations[i].phase.Waiting? ==> SettledUpTo(next, i)
      ensures match next.operations[i].previous case None => SettledUpTo(next, i) case Some(p) => p + 1 == i
    {
      if i < |chain.operations| {
        assert next.operations[i] == chain.operations[i];
        assert SettledUpTo(chain, i) ==> SettledUpTo(next, i);
      }
    }
  }

  /** An operation that starts finds every earlier operation settled: operations of one key never overlap, and they
      run in the order in which they were queued. */
  lemma StartedAlone(chain: Chain, i: nat)
    requires Ordered(chain) && CanStart(chain, i)
    ensures SettledUpTo(chain, i)
    ensures forall j: nat | i < j < |chain.operations| :: chain.operations[j].phase.Waiting?
    ensures Ordered(SetPhase(chain, i, Running))
  {
    if chain.operations[i].previous.Some? {
      assert SettledUpTo(chain, i - 1);
    }
    PhaseChangeKeepsOrder(chain, i, Running);
  }

  /** It is the turn of an operation exactly if it waits and every earlier one has settled. */
  lemma StartsExactly(chain: Chain, i: nat)
    requires Ordered(chain) && i < |chain.operations|
    ensures CanStart(chain, i) <==> chain.operations[i].phase.Waiting? && SettledUpTo(chain, i)
  {
    if CanStart(chain, i) {
      StartedAlone(chain, i);
    }
  }

  lemma SettlingKeepsOrder(chain: Chain, i: nat)
    requires Ordered(chain) && CanSettle(chain, i)
    ensures Ordered(SetPhase(chain, i, Settled))
  {
    PhaseChangeKeepsOrder(chain, i, Settled);
  }

  /** Moving an unsettled operation on, with everything before it settled, keeps the order. */
  lemma PhaseChangeKeepsOrder(chain: Chain, i: nat, phase: Phase)
    requires Ordered(chain) && i < |chain.operations| && SettledUpTo(chain, i)
    requires !chain.operations[i].phase.Settled?
    ensures Ordered(SetPhase(chain, i, phase))
  {
    var next := SetPhase(chain, i, phase);
    forall n: nat | SettledUpTo(chain, n)
      ensures SettledUpTo(next, n)
    {
      assert n <= i;
    }
    forall j: nat | j < |next.operations|
      ensures !next.operations[j].phase.Waiting? ==> SettledUpTo(next, j)
    {
      assert j != i ==> next.operations[j] == chain.operations[j];
    }
  }

  lemma ForgetKeepsOrder(chain: Chain, i: nat)
    requires Ordered(chain) && CanForget(chain, i)
    ensures Ordered(Forget(chain, i))
  {
    assert SettledUpTo(chain, i);
    var next := Forget(chain, i);
    forall n: nat | SettledUpTo(chain, n)
      ensures SettledUpTo(next, n)
    {
    }
    if chain.tail == Some(i) {
      assert SettledUpTo(next, |next.operations|);
    }
  }

  /** At most one operation of a chain is running at any time. */
  lemma NeverOverlap(chain: Chain, i: nat, j: nat)
    requires Ordered(chain) && i < |chain.operations| && j < |chain.operations|
    requires chain.operations[i].phase.Running? && chain.operations[j].phase.Running?
    ensures i == j
  {
    assert SettledUpTo(chain, i) && SettledUpTo(chain, j);
  }
}
