/** The agent around the loop: the state it shows, its queues, and the budget each run is given.

    While a run is under way the agent only reduces its events; the loop works on a copy of the messages. The events are
    therefore reduced together, after the loop has produced them. */
module Agent {
  import opened Common
  import opened AgentTrace
  import opened PendingMessages
  import opened RunBudget
  import opened ToolBatch
  import opened AgentLoop

  datatype Rejection = AlreadyProcessing | NothingToContinue | EndsWithAnswer

  datatype Outcome = Rejected(why: Rejection) | Ran(run: AgentRun, result: Result)

  /** What the outside world does during one run. */
  datatype World = World(scripts: seq<TurnScript>, toolChanges: int, initialArrivals: seq<Message>) {
    ghost predicate Sound() {
      forall t | t in scripts :: t.Sound()
    }
  }

  ghost function ChargeOf(charges: map<RunBudgetController, (nat, nat)>, c: RunBudgetController): (nat, nat) {
    if c in charges then charges[c] else (0, 0)
  }

  class Agent {
    const steeringQueue: PendingMessageQueue
    const followUpQueue: PendingMessageQueue
    const sharedBudget: Option<RunBudgetController>
    const sessionScope: bool
    var runBudget: Option<Policy>
    /** The controller in use; `Unlimited` when there is none. */
    var gate: BudgetGate
    var view: View
    var active: bool

    constructor (runBudget: Option<Policy>, sharedBudget: Option<RunBudgetController>, sessionScope: bool,
                 messages: seq<Entry>, oneAtATime: bool)
      requires sharedBudget.Some? ==> sharedBudget.value.State().WithinLimits()
      ensures Valid() && !active && gate == Unlimited && view == View(messages, None, {})
      ensures fresh(steeringQueue) && fresh(followUpQueue)
    {
      steeringQueue := new PendingMessageQueue(oneAtATime);
      followUpQueue := new PendingMessageQueue(oneAtATime);
      this.runBudget, this.sharedBudget, this.sessionScope := runBudget, sharedBudget, sessionScope;
      gate, view, active := Unlimited, View(messages, None, {}), false;
    }

    ghost predicate Valid()
      reads this, steeringQueue, followUpQueue, Ledgers()
    {
      && steeringQueue != followUpQueue && steeringQueue.Valid() && followUpQueue.Valid()
      && gate.Sound() && (forall c | c in Ledgers() :: c.State().WithinLimits())
      && (!active ==> view.streaming.None? && view.pendingToolCalls == {})
      && (sharedBudget.Some? && !gate.Unlimited? ==> sharedBudget.value in gate.Controllers())
    }

    ghost function Shared(): set<RunBudgetController> {
      if sharedBudget.Some? then {sharedBudget.value} else {}
    }

    ghost function Ledgers(): set<RunBudgetController>
      reads this`gate
    {
      gate.Controllers() + Shared()
    }

    /** `createBudgetController`. */
    method CreateBudgetController(now: int) returns (created: BudgetGate)
      requires Valid()
      ensures created.Sound() && forall c | c in created.Controllers() :: c.State().WithinLimits()
      ensures created.Unlimited? <==> runBudget.None? && sharedBudget.None?
      ensures Shared() <= created.Controllers() && fresh(created.Controllers() - Shared())
      ensures forall c | c in created.Controllers() - Shared() ::
                c !in old(Ledgers()) && c.providerRequests == c.toolCalls == 0
      ensures runBudget.Some? ==>
                exists c | c in created.Controllers() :: fresh(c) && c.State() == Fresh(runBudget.value, now)
    {
      if runBudget.None? {
        return if sharedBudget.None? then Unlimited else Stock(sharedBudget.value);
      }
      var own := new RunBudgetController(runBudget.value, now);
      if sharedBudget.None? {
        created := Stock(own);
      } else {
        var composite := new CompositeBudgetController(own, sharedBudget.value);
        created := Composite(composite);
      }
      assert own in created.Controllers();
    }

    /** Go on with a new controller, which has been charged for nothing; the shared ledger stays what it is. */
    method UseNewController(now: int)
      requires Valid()
      modifies this`gate
      ensures gate.Sound() && forall c | c in gate.Controllers() :: c.State().WithinLimits()
      ensures Shared() <= gate.Controllers() && fresh(gate.Controllers() - Shared())
      ensures runBudget.Some? ==>
                exists c | c in gate.Controllers() :: fresh(c) && c.State() == Fresh(runBudget.value, now)
      ensures forall c | c in gate.Controllers() :: ChargeOf(Charges(), c) == ChargeOf(old(Charges()), c)
    {
      hide RunBudgetController.State, BudgetGate.Controllers;
      ghost var was := Charges();
      gate := CreateBudgetController(now);
      ghost var charges := Charges();
      forall c | c in Shared()
        ensures c in was && c in charges && charges[c] == was[c]
      {
      }
      forall c | c in gate.Controllers() - Shared()
        ensures c !in was && c in charges && charges[c] == (0, 0)
      {
        assert was.Keys == old(Ledgers());
      }
    }

    /** The budget of a prompt: a new one, except that in session scope one that exists is kept. */
    method ScopeForPrompt(now: int)
      requires Valid() && !active
      modifies this`gate
      ensures Valid() && Shared() <= gate.Controllers()
      ensures sessionScope && !old(gate).Unlimited? ==> gate == old(gate)
      ensures !sessionScope ==> fresh(gate.Controllers() - Shared())
      ensures !sessionScope && runBudget.Some? ==>
                exists c | c in gate.Controllers() :: fresh(c) && c.State() == Fresh(runBudget.value, now)
      ensures fresh(gate.Controllers() - old(gate).Controllers() - Shared())
      ensures forall c | c in gate.Controllers() :: ChargeOf(Charges(), c) == ChargeOf(old(Charges()), c)
    {
      hide ChargeOf, Charges;
      if !sessionScope || gate.Unlimited? {
        UseNewController(now);
      }
    }

    /** The budget of a continuation: that of the run it continues, if there was one. */
    method ScopeForContinue(now: int)
      requires Valid() && !active
      modifies this`gate
      ensures Valid() && Shared() <= gate.Controllers()
      ensures !old(gate).Unlimited? ==> gate == old(gate)
      ensures fresh(gate.Controllers() - old(gate).Controllers() - Shared())
      ensures forall c | c in gate.Controllers() :: ChargeOf(Charges(), c) == ChargeOf(old(Charges()), c)
    {
      hide ChargeOf, Charges;
      if gate.Unlimited? {
        UseNewController(now);
      }
    }

    /** What the agent's controllers have been charged so far: requests and tool calls. */
    ghost function Charges(): map<RunBudgetController, (nat, nat)>
      reads this`gate, Ledgers()
    {
      map c | c in Ledgers() :: (c.providerRequests, c.toolCalls)
    }

    /** A run is charged on top of what its controllers had been charged before; a new controller starts from
        nothing. */
    ghost predicate StartsFrom(run: AgentRun, was: map<RunBudgetController, (nat, nat)>)
      reads this`gate, run, run.emitter
    {
      forall c | c in gate.Controllers() ::
        && c in run.emitter.requestsBefore && c in run.emitter.toolCallsBefore
        && (run.emitter.requestsBefore[c], run.emitter.toolCallsBefore[c]) == ChargeOf(was, c)
    }

    lemma StartsFromEarlier(run: AgentRun, now: map<RunBudgetController, (nat, nat)>,
                            was: map<RunBudgetController, (nat, nat)>)
      requires StartsFrom(run, now) && forall c | c in gate.Controllers() :: ChargeOf(now, c) == ChargeOf(was, c)
      ensures StartsFrom(run, was)
    {
    }

    /** What a run leaves behind: the agent shows exactly the messages the run produced, and so does the run's own
        context unless a hook replaced it; once the run has ended nothing is streaming or pending. */
    ghost predicate Absorbed(before: seq<Entry>, run: AgentRun, result: Result, scripts: seq<TurnScript>)
      reads this, run, run.emitter, run.steering, run.followUps, run.tracker
    {
      && SoundRun(run, result, scripts)
      && run.base == before && view.messages == before + run.newMessages
      && (!run.given.replaced ==> run.context == view.messages)
      && (active <==> result.Waiting?)
      && (!active ==> view.streaming.None? && view.pendingToolCalls == {})
    }

    /** Reduce the events of a run. */
    method ProcessEvents(run: AgentRun, result: Result, ghost scripts: seq<TurnScript>)
      requires view.streaming.None? && view.pendingToolCalls == {}
      requires SoundRun(run, result, scripts) && run.base == view.messages
      modifies this`view, this`active
      ensures Absorbed(old(view.messages), run, result, scripts)
      ensures !active ==> view.streaming.None? && view.pendingToolCalls == {}
    {
      hide Next, Summarize, Reduce, SoundRun;
      SoundTrace(run, result, scripts);
      AgentStateFollows(view, run.emitter.log);
      if result.Ended? {
        NothingPendingAtTheEnd(view, run.emitter.log);
      }
      view := Reduced(view, run.emitter.log);
      active := result.Waiting?;
    }

    /** `processEvents`, event by event. */
    static method Reduced(view: View, log: seq<Event>) returns (after: View)
      ensures after == ReduceAll(view, log)
    {
      after := view;
      for i := 0 to |log|
        invariant after == ReduceAll(view, log[..i])
      {
        assert log[..i + 1][..i] == log[..i];
        after := Reduce(after, log[i]);
      }
      assert log[..|log|] == log;
    }

    method RunPromptMessages(messages: seq<Message>, skipInitialPoll: bool, world: World)
      returns (run: AgentRun, result: Result)
      requires Valid() && !active && world.Sound()
      modifies this`view, this`active, steeringQueue, followUpQueue,
               gate.Controllers()`providerRequests, gate.Controllers()`toolCalls
      ensures Valid() && Absorbed(old(view.messages), run, result, world.scripts)
      ensures StaysInBudget(run, gate) && StartsFrom(run, old(Charges()))
      ensures run.initial == DeclareToolChanges(Tag(Prompted, messages), world.toolChanges)
      ensures run.steering == steeringQueue && run.steeringBefore == old(|steeringQueue.taken|)
      ensures run.followUps == followUpQueue && run.followUpsBefore == old(|followUpQueue.taken|)
      ensures run.opening == 0 <==> skipInitialPoll || old(steeringQueue.messages) + world.initialArrivals == []
    {
      hide Next, Summarize, From, SoundRun, DeclareToolChanges, Absorbed;
      run, result := RunAgentLoop(messages, view.messages, world.toolChanges, gate, steeringQueue, followUpQueue,
                                  world.scripts, world.initialArrivals, skipInitialPoll);
      ProcessEvents(run, result, world.scripts);
    }

    method Prompt(messages: seq<Message>, now: int, world: World) returns (outcome: Outcome)
      requires Valid() && world.Sound()
      modifies this`view, this`active, this`gate, steeringQueue, followUpQueue,
               Ledgers()`providerRequests, Ledgers()`toolCalls
      ensures Valid()
      ensures old(active) <==> outcome == Rejected(AlreadyProcessing)
      ensures outcome.Rejected? ==> old(active) && view == old(view) && gate == old(gate)
      ensures outcome.Ran? ==>
                && Absorbed(old(view.messages), outcome.run, outcome.result, world.scripts)
                && StaysInBudget(outcome.run, gate) && StartsFrom(outcome.run, old(Charges()))
                && outcome.run.initial == DeclareToolChanges(Tag(Prompted, messages), world.toolChanges)
                && (outcome.run.opening == 0 <==> old(steeringQueue.messages) + world.initialArrivals == [])
                && (sessionScope && !old(gate).Unlimited? ==> gate == old(gate))
                && (!sessionScope ==> fresh(gate.Controllers() - Shared()))
    {
      hide Next, Summarize, From, SoundRun, DeclareToolChanges, Absorbed, StaysInBudget, StartsFrom, ChargeOf;
      if active {
        return Rejected(AlreadyProcessing);
      }
      ScopeForPrompt(now);
      ghost var charges := Charges();
      var run, result := RunPromptMessages(messages, false, world);
      StartsFromEarlier(run, charges, old(Charges()));
      outcome := Outcome.Ran(run, result);
    }

    /** Why `continue` refuses, if it does. */
    function Refusal(): Option<Rejection>
      reads this, steeringQueue, followUpQueue
    {
      if active then Some(AlreadyProcessing)
      else if forall e | e in view.messages :: e.message.System? then Some(NothingToContinue)
      else if view.messages[|view.messages| - 1].message.Assistant?
              && steeringQueue.messages == [] && followUpQueue.messages == [] then Some(EndsWithAnswer)
      else None
    }

    predicate EndsWithAssistant()
      reads this`view
    {
      view.messages != [] && view.messages[|view.messages| - 1].message.Assistant?
    }

    /** The messages `continue` takes off the queues to start with. */
    function Taken(): seq<Message>
      reads this`view, steeringQueue, followUpQueue
    {
      if !EndsWithAssistant() then []
      else if steeringQueue.messages != [] then steeringQueue.Peek()
      else followUpQueue.Peek()
    }

    /** Drain what a continuation after an answer starts with. */
    method TakeQueued() returns (queued: seq<Message>, skipInitialPoll: bool)
      requires Valid() && !active
      modifies steeringQueue, followUpQueue
      ensures Valid() && (EndsWithAssistant() ==> queued == old(Taken()))
      ensures queued == [] <==> old(steeringQueue.messages) == [] && old(followUpQueue.messages) == []
      ensures skipInitialPoll <==> old(steeringQueue.messages) != []
      ensures old(steeringQueue.messages) == [] ==> steeringQueue.messages == []
      ensures steeringQueue.taken == old(steeringQueue.taken) + if skipInitialPoll then queued else []
      ensures followUpQueue.taken == old(followUpQueue.taken) + if skipInitialPoll then [] else queued
    {
      queued := steeringQueue.Drain();
      skipInitialPoll := queued != [];
      if queued == [] {
        queued := followUpQueue.Drain();
      }
    }

    method RunContinuation(world: World) returns (run: AgentRun, result: Result)
      requires Valid() && !active && world.Sound() && view.messages != [] && !EndsWithAssistant()
      modifies this`view, this`active, steeringQueue, followUpQueue,
               gate.Controllers()`providerRequests, gate.Controllers()`toolCalls
      ensures Valid() && Absorbed(old(view.messages), run, result, world.scripts)
      ensures StaysInBudget(run, gate) && StartsFrom(run, old(Charges()))
      ensures run.initial == []
      ensures run.opening == 0 <==> old(steeringQueue.messages) + world.initialArrivals == []
    {
      hide Next, Summarize, From, SoundRun, DeclareToolChanges;
      var started := RunAgentLoopContinue(view.messages, gate, steeringQueue, followUpQueue,
                                          world.scripts, world.initialArrivals);
      run, result := started.value.0, started.value.1;
      ProcessEvents(run, result, world.scripts);
    }

    /** A continuation within its budget: from the transcript, or from what the queues hold. */
    method Resume(world: World) returns (outcome: Outcome)
      requires Valid() && !active && world.Sound() && exists e :: e in view.messages && !e.message.System?
      modifies this`view, this`active, steeringQueue, followUpQueue,
               gate.Controllers()`providerRequests, gate.Controllers()`toolCalls
      ensures Valid()
      ensures outcome.Rejected? ==> old(Refusal()) == Some(outcome.why) && view == old(view)
      ensures outcome.Ran? ==>
                && old(Refusal()).None?
                && Absorbed(old(view.messages), outcome.run, outcome.result, world.scripts)
                && StaysInBudget(outcome.run, gate) && StartsFrom(outcome.run, old(Charges()))
                && outcome.run.initial
                   == (if old(EndsWithAssistant())
                       then DeclareToolChanges(Tag(Prompted, old(Taken())), world.toolChanges) else [])
                && (outcome.run.opening == 0 <==>
                      || (old(EndsWithAssistant()) && old(steeringQueue.messages) != [])
                      || old(steeringQueue.messages) + world.initialArrivals == [])
    {
      hide Next, Summarize, From, SoundRun, DeclareToolChanges, Absorbed, StaysInBudget, StartsFrom, ChargeOf;
      var run, result;
      if EndsWithAssistant() {
        var queued, skipInitialPoll := TakeQueued();
        if queued == [] {
          return Rejected(EndsWithAnswer);
        }
        assert Charges() == old(Charges());
        run, result := RunPromptMessages(queued, skipInitialPoll, world);
      } else {
        run, result := RunContinuation(world);
      }
      outcome := Outcome.Ran(run, result);
    }

    /** `continue`. A run continued keeps its budget, whether it starts from the transcript or from queued messages; a
        steering message taken to start with is not polled for again. */
    method Continue(now: int, world: World) returns (outcome: Outcome)
      requires Valid() && world.Sound()
      modifies this`view, this`active, this`gate, steeringQueue, followUpQueue,
               Ledgers()`providerRequests, Ledgers()`toolCalls
      ensures Valid()
      ensures outcome.Rejected? ==> old(Refusal()) == Some(outcome.why) && view == old(view)
      ensures outcome.Ran? ==>
                && old(Refusal()).None?
                && Absorbed(old(view.messages), outcome.run, outcome.result, world.scripts)
                && StaysInBudget(outcome.run, gate) && StartsFrom(outcome.run, old(Charges()))
                && (!old(gate).Unlimited? ==> gate == old(gate))
                && outcome.run.initial
                   == (if old(EndsWithAssistant())
                       then DeclareToolChanges(Tag(Prompted, old(Taken())), world.toolChanges) else [])
                && (outcome.run.opening == 0 <==>
                      || (old(EndsWithAssistant()) && old(steeringQueue.messages) != [])
                      || old(steeringQueue.messages) + world.initialArrivals == [])
    {
      hide Next, Summarize, From, SoundRun, DeclareToolChanges, Absorbed, StaysInBudget, StartsFrom, ChargeOf, Charges;
      if active {
        return Rejected(AlreadyProcessing);
      }
      ScopeForContinue(now);
      if forall e | e in view.messages :: e.message.System? {
        return Rejected(NothingToContinue);
      }
      ghost var charges := Charges();
      outcome := Resume(world);
      if outcome.Ran? {
        StartsFromEarlier(outcome.run, charges, old(Charges()));
      }
    }
  }
}
