/** Execution of the tool calls of one assistant message, one at a time or concurrently.

    The outside world is a script: what preparing and running each call leads to, when the run is aborted, what the
    clock shows at each budget gate, and in a concurrent batch the order in which the running calls act. */
module ToolBatch {
  import opened Common
  import opened AgentTrace
  import opened RunBudget
  import Failures = RepeatedToolErrors

  /** What a finished call returns; `terminate` asks for the batch to be the last. */
  datatype Finalized = Finalized(content: string, isError: bool, terminate: bool)

  /** What became of a call: its preparation kept it from running, or the abort of the run, or the budget; or its body
      ran. The calls of a message cut off by the token limit are not even prepared. */
  datatype Fate = Unprepared | AbortedFirst | OverBudget | Ran | Truncated

  datatype CallOutcome = CallOutcome(fate: Fate, final: Finalized)

  /** What the lookup, the argument check and the `beforeToolCall` hook make of a call. */
  datatype Preparation =
    | Refused(reason: string)
    | Blocked(reason: string, terminate: bool)
    | Accepted

  /** One call of a batch. Each flag says that the run has been aborted by the time of the check it is named after;
      `updates` is the number of updates of a call run on its own. */
  datatype ToolScript = ToolScript(
    preparation: Preparation,
    readings: Readings,
    outcome: Finalized,
    updates: nat,
    abortedWhilePreparing: bool,
    abortedBeforeStart: bool,
    abortedAfterwards: bool)

  /** What a concurrently running call does next. */
  datatype Action = Begins(call: nat) | Reports(call: nat) | Finishes(call: nat)

  datatype BatchScript = BatchScript(sequential: bool, tools: seq<ToolScript>, schedule: seq<Action>)

  const TRUNCATED := CallOutcome(Truncated, Finalized("not executed: output token limit", true, false))
  const EXHAUSTED := CallOutcome(OverBudget, Finalized("budget exhausted", true, false))
  const ABORTED := CallOutcome(AbortedFirst, Finalized("Operation aborted", true, false))

  /** The budget a run is subject to. */
  datatype BudgetGate =
    | Unlimited
    | Stock(controller: RunBudgetController)
    | Composite(composite: CompositeBudgetController)
  {
    ghost function Controllers(): set<RunBudgetController> {
      match this
      case Unlimited => {}
      case Stock(controller) => {controller}
      case Composite(composite) => {composite.primary, composite.shared}
    }

    ghost predicate Sound() {
      Composite? ==> composite.primary != composite.shared
    }

    /** The gate's answer to a request, for what the clock shows. */
    ghost predicate AllowsRequest(at: Readings)
      reads Controllers()
    {
      match this
      case Unlimited => true
      case Stock(controller) => controller.State().RequestAllowed(at.primaryRecord)
      case Composite(composite) => CompositeRequest(composite.primary.State(), composite.shared.State(), at).allowed
    }

    lemma UnlimitedAllows(at: Readings)
      requires Unlimited?
      ensures AllowsRequest(at) && AllowsToolCall(at)
    {
    }

    /** And to a tool call. */
    ghost predicate AllowsToolCall(at: Readings)
      reads Controllers()
    {
      match this
      case Unlimited => true
      case Stock(controller) => controller.State().ToolCallAllowed(at.primaryRecord)
      case Composite(composite) => CompositeToolCall(composite.primary.State(), composite.shared.State(), at).allowed
    }
  }

  function ResultOf(call: Failures.ToolCall, outcome: CallOutcome): Failures.ToolResult {
    Failures.ToolResult(call.id, outcome.final.content, outcome.final.isError)
  }

  function EntryOf(result: Failures.ToolResult): Entry {
    Entry(Returned, Output(result))
  }

  function EntriesOf(results: seq<Failures.ToolResult>): (entries: seq<Entry>)
    ensures |entries| == |results| && forall i | 0 <= i < |results| :: entries[i] == EntryOf(results[i])
  {
    seq(|results|, i requires 0 <= i < |results| => EntryOf(results[i]))
  }

  /** Results answer a prefix of the calls, in their order. */
  ghost predicate Answers(results: seq<Failures.ToolResult>, calls: seq<Failures.ToolCall>) {
    && |results| <= |calls|
    && forall i | 0 <= i < |results| :: results[i].toolCallId == calls[i].id
  }

  /** `shouldTerminateToolBatch`. */
  predicate AllTerminate(outcomes: seq<CallOutcome>) {
    outcomes != [] && forall o | o in outcomes :: o.final.terminate
  }

  lemma EntriesOfOneMore(results: seq<Failures.ToolResult>, result: Failures.ToolResult)
    ensures EntriesOf(results + [result]) == EntriesOf(results) + [EntryOf(result)]
  {
  }

  /** The outcomes a call may end with, each for its own reason: what its preparation said, the abort of the run, the
      refusal of the budget, or what its body returned. */
  predicate Possible(script: ToolScript, outcome: CallOutcome) {
    match outcome.fate
    case Unprepared =>
      && (script.preparation.Refused? ==> outcome.final == Finalized(script.preparation.reason, true, false))
      && (script.preparation.Blocked? ==>
            outcome.final == Finalized(script.preparation.reason, true, script.preparation.terminate))
      && !script.preparation.Accepted?
    case AbortedFirst => outcome == ABORTED && !script.preparation.Refused?
    case OverBudget => outcome == EXHAUSTED && script.preparation.Accepted?
    case Ran => outcome.final == script.outcome && script.preparation.Accepted?
    case Truncated => false
  }

  lemma PossibleExhausted(script: ToolScript)
    requires script.preparation.Accepted?
    ensures Possible(script, EXHAUSTED)
  {
  }

  /** A call of this fate asks for its batch to be the last: its body did, or the hook that blocked it. */
  predicate AsksToEnd(script: ToolScript, fate: Fate) {
    match fate
    case Ran => script.outcome.terminate
    case Unprepared => script.preparation.Blocked? && script.preparation.terminate
    case _ => false
  }

  lemma WhoAsksToEnd(script: ToolScript, outcome: CallOutcome)
    requires Possible(script, outcome)
    ensures outcome.final.terminate <==> AsksToEnd(script, outcome.fate)
  {
  }

  ghost predicate AllPossible(tools: seq<ToolScript>, outcomes: seq<CallOutcome>) {
    |outcomes| <= |tools| && forall i | 0 <= i < |outcomes| :: Possible(tools[i], outcomes[i])
  }

  /** The outside world aborts the run while it works on this call. */
  predicate Aborts(script: ToolScript) {
    script.abortedWhilePreparing || script.abortedBeforeStart || script.abortedAfterwards
  }

  predicate SomeAborts(tools: seq<ToolScript>, calls: nat) {
    exists i | 0 <= i < calls && i < |tools| :: Aborts(tools[i])
  }

  lemma AbortsAt(tools: seq<ToolScript>, calls: nat, i: nat)
    requires i < calls && i < |tools| && Aborts(tools[i])
    ensures SomeAborts(tools, calls)
  {
  }

  /** No call is made once the run is known to be aborted, except that the first is not kept from being started. */
  predicate StopsAtAbort(tools: seq<ToolScript>, made: nat, abortedBefore: bool)
    requires made <= |tools|
  {
    (abortedBefore ==> made <= 1) && forall i | 0 <= i < made - 1 :: !tools[i].abortedAfterwards
  }

  /** The call of number `n` is one of these and had this fate. */
  predicate Had(fate: Fate, base: nat, outcomes: seq<CallOutcome>, n: nat) {
    base <= n < base + |outcomes| && outcomes[n - base].fate == fate
  }

  /** A set of call numbers grew by exactly the calls of this fate. */
  ghost predicate GrewBy(before: set<nat>, after: set<nat>, fate: Fate, base: nat, outcomes: seq<CallOutcome>) {
    forall n :: n in after <==> n in before || Had(fate, base, outcomes, n)
  }

  lemma GrewByOneMore(before: set<nat>, after: set<nat>, fate: Fate, base: nat, outcomes: seq<CallOutcome>,
                      outcome: CallOutcome, next: set<nat>)
    requires GrewBy(before, after, fate, base, outcomes)
    requires next == if outcome.fate == fate then after + {base + |outcomes|} else after
    ensures GrewBy(before, next, fate, base, outcomes + [outcome])
  {
    forall n: nat
      ensures n in next <==> n in before || Had(fate, base, outcomes + [outcome], n)
    {
      assert Had(fate, base, outcomes + [outcome], n)
             <==> Had(fate, base, outcomes, n) || (n == base + |outcomes| && outcome.fate == fate);
    }
  }

  /** The calls from `base` on have ended with these results, and no earlier end has changed. */
  ghost predicate Closes(before: map<nat, Failures.ToolResult>, after: map<nat, Failures.ToolResult>, base: nat,
                         results: seq<Failures.ToolResult>) {
    && (forall n | base <= n < base + |results| :: n in after && after[n] == results[n - base])
    && (forall n | n in before && n < base :: n in after && after[n] == before[n])
  }

  lemma ClosesOneMore(before: map<nat, Failures.ToolResult>, after: map<nat, Failures.ToolResult>, base: nat,
                      results: seq<Failures.ToolResult>, result: Failures.ToolResult)
    requires Closes(before, after, base, results)
    ensures Closes(before, after[base + |results| := result], base, results + [result])
  {
  }

  /** The summary after these results have been given to the calls that came next, one message each. */
  ghost predicate AllAnswered(s: Summary, t: Summary, results: seq<Failures.ToolResult>) {
    && t == s.(ended := s.ended + EntriesOf(results), started := s.started + |results|, closed := t.closed)
    && Closes(s.closed, t.closed, s.started, results)
  }

  lemma AllAnsweredNothing(s: Summary)
    ensures AllAnswered(s, s, [])
  {
    assert s.ended + EntriesOf([]) == s.ended;
  }

  lemma AllAnsweredPhase(s: Summary, t: Summary, results: seq<Failures.ToolResult>)
    requires AllAnswered(s, t, results)
    ensures t.phase == s.phase && t.open == s.open && t.started == s.started + |results|
  {
  }

  lemma AllAnsweredEnded(s: Summary, t: Summary, results: seq<Failures.ToolResult>)
    requires AllAnswered(s, t, results)
    ensures t.ended == s.ended + EntriesOf(results)
  {
  }

  lemma AllAnsweredOneMore(s: Summary, t: Summary, results: seq<Failures.ToolResult>, result: Failures.ToolResult)
    requires AllAnswered(s, t, results)
    ensures AllAnswered(s, t.(ended := t.ended + [EntryOf(result)], started := t.started + 1,
                           closed := t.closed[t.started := result]), results + [result])
  {
    EntriesOfOneMore(results, result);
    ClosesOneMore(s.closed, t.closed, s.started, results, result);
  }

  /** What there was before a batch: the calls run and refused, how the earlier ones ended, the log and the abort. */
  datatype Before = Before(
    ran: set<nat>,
    refused: set<nat>,
    closed: map<nat, Failures.ToolResult>,
    log: seq<Event>,
    aborted: bool)

  /** A concurrent batch under way: the outcomes there are, the calls that wait to begin and those running. Calls go by
      their number within the run; the batch's first is `base` and `count` of its calls have been started. */
  datatype Batch = Batch(base: nat, count: nat, done: map<nat, CallOutcome>, unbegun: set<nat>, running: set<nat>) {
    predicate Covers(n: nat) {
      base <= n < base + count
    }
  }

  /** The trace agrees with the batch: the open calls are those waiting or running, under their own ids, and every
      other call that was started has its outcome, which is what its end in the trace carries. */
  ghost predicate Tracks(s: Summary, calls: seq<Failures.ToolCall>, b: Batch) {
    && s.phase.InTurn? && b.count <= |calls| && s.started == b.base + b.count
    && b.unbegun !! b.running && s.open.Keys == b.unbegun + b.running
    && s.open.Keys !! b.done.Keys
    && (forall n: nat :: b.Covers(n) <==> n in s.open || n in b.done)
    && (forall n | n in s.open :: b.Covers(n) && s.open[n] == calls[n - b.base].id)
    && (forall n | n in b.done :: n in s.closed && s.closed[n] == ResultOf(calls[n - b.base], b.done[n]))
  }

  /** Every outcome is one its own call may end with, and only calls that were let through wait or run. */
  ghost predicate Faithful(tools: seq<ToolScript>, b: Batch) {
    && b.count <= |tools|
    && (forall n | n in b.done :: b.Covers(n) && Possible(tools[n - b.base], b.done[n]))
    && (forall n | n in b.unbegun || n in b.running :: b.Covers(n) && tools[n - b.base].preparation.Accepted?)
  }

  lemma FaithfulLaunch(tools: seq<ToolScript>, b: Batch, immediate: Option<CallOutcome>)
    requires Faithful(tools, b) && b.count < |tools|
    requires if immediate.None? then tools[b.count].preparation.Accepted? else Possible(tools[b.count], immediate.value)
    ensures Faithful(tools, if immediate.Some? then Decide(b, immediate.value) else Wait(b))
  {
    if immediate.Some? {
      var after := Decide(b, immediate.value);
      forall n | n in after.done
        ensures after.Covers(n) && Possible(tools[n - b.base], after.done[n])
      {
        assert n != b.base + b.count ==> n in b.done && b.Covers(n);
      }
    }
  }

  lemma FaithfulFinish(tools: seq<ToolScript>, b: Batch, n: nat, outcome: CallOutcome)
    requires Faithful(tools, b) && (n in b.unbegun || n in b.running)
    requires outcome == ABORTED || outcome == CallOutcome(Ran, tools[n - b.base].outcome)
    ensures Faithful(tools, Finish(b, n, outcome))
  {
  }

  lemma FaithfulIndex(tools: seq<ToolScript>, b: Batch)
    requires Faithful(tools, b)
    ensures b.count <= |tools|
  {
  }

  lemma FaithfulRun(tools: seq<ToolScript>, b: Batch, n: nat)
    requires Faithful(tools, b) && n in b.unbegun
    ensures Faithful(tools, Run(b, n))
  {
  }

  /** The fates of a batch: the calls that have run are those running and those that ended so, the calls refused are
      those that ended so, and one ends aborted only if the run has been. */
  ghost predicate Marks(b: Batch, was: Before, ran: set<nat>, refused: set<nat>, aborted: bool, unlimited: bool) {
    && (forall n :: n in ran <==> n in was.ran || n in b.running || (n in b.done && b.done[n].fate.Ran?))
    && (forall n :: n in refused <==> n in was.refused || (n in b.done && b.done[n].fate.OverBudget?))
    && (forall n | n in b.done :: (b.done[n].fate.AbortedFirst? ==> aborted)
                                  && (unlimited ==> !b.done[n].fate.OverBudget?))
  }

  lemma MarksDecided(b: Batch, was: Before, ran: set<nat>, refused: set<nat>, aborted: bool, unlimited: bool,
                     outcome: CallOutcome, next: set<nat>, nowAborted: bool)
    requires Marks(b, was, ran, refused, aborted, unlimited) && b.base + b.count !in b.done
    requires next == if outcome.fate.OverBudget? then refused + {b.base + b.count} else refused
    requires !outcome.fate.Ran? && (outcome.fate.AbortedFirst? ==> nowAborted) && (aborted ==> nowAborted)
    requires unlimited ==> !outcome.fate.OverBudget?
    ensures Marks(Decide(b, outcome), was, ran, next, nowAborted, unlimited)
  {
  }

  lemma MarksWait(b: Batch, was: Before, ran: set<nat>, refused: set<nat>, aborted: bool, unlimited: bool,
                  nowAborted: bool)
    requires Marks(b, was, ran, refused, aborted, unlimited) && (aborted ==> nowAborted)
    ensures Marks(Wait(b), was, ran, refused, nowAborted, unlimited)
    ensures Marks(b, was, ran, refused, nowAborted, unlimited)
  {
  }

  lemma MarksRun(b: Batch, was: Before, ran: set<nat>, refused: set<nat>, aborted: bool, unlimited: bool, n: nat)
    requires Marks(b, was, ran, refused, aborted, unlimited)
    ensures Marks(Run(b, n), was, ran + {n}, refused, aborted, unlimited)
  {
  }

  lemma MarksFinish(b: Batch, was: Before, ran: set<nat>, refused: set<nat>, aborted: bool, unlimited: bool, n: nat,
                    outcome: CallOutcome)
    requires Marks(b, was, ran, refused, aborted, unlimited) && n !in b.done
    requires if n in b.running then outcome.fate.Ran? else outcome.fate.AbortedFirst? && aborted
    ensures Marks(Finish(b, n, outcome), was, ran, refused, aborted, unlimited)
  {
  }

  /** When nothing is left to run, the sets have grown by exactly the calls of either fate. */
  lemma MarksOutcomes(b: Batch, was: Before, ran: set<nat>, refused: set<nat>, aborted: bool, unlimited: bool)
    requires Marks(b, was, ran, refused, aborted, unlimited) && b.running == {}
    requires forall n: nat :: b.Covers(n) <==> n in b.done
    ensures GrewBy(was.ran, ran, Ran, b.base, Outcomes(b))
    ensures GrewBy(was.refused, refused, OverBudget, b.base, Outcomes(b))
    ensures forall o | o in Outcomes(b) :: (o.fate.AbortedFirst? ==> aborted) && (unlimited ==> !o.fate.OverBudget?)
  {
    forall n: nat, fate: Fate
      ensures Had(fate, b.base, Outcomes(b), n) <==> n in b.done && b.done[n].fate == fate
    {
      assert b.Covers(n) <==> n in b.done;
    }
    forall i | 0 <= i < b.count
      ensures b.base + i in b.done && Outcomes(b)[i] == b.done[b.base + i]
    {
      assert b.Covers(b.base + i);
    }
  }

  lemma AtMostOneMore(ran: set<nat>, n: nat)
    ensures |ran + {n}| <= |ran| + 1
  {
    assert n in ran ==> ran + {n} == ran;
  }

  lemma OneFewer(ran: set<nat>, unbegun: set<nat>, n: nat)
    requires n in unbegun
    ensures |ran + {n}| + |unbegun - {n}| <= |ran| + |unbegun|
  {
    assert n in ran ==> ran + {n} == ran;
  }

  lemma FewerUnbegun(b: Batch, n: nat)
    ensures |b.unbegun - {n}| <= |b.unbegun|
  {
    assert n !in b.unbegun ==> b.unbegun - {n} == b.unbegun;
  }

  lemma NoneHad(numbers: set<nat>, fate: Fate, base: nat, outcomes: seq<CallOutcome>)
    requires forall o | o in outcomes :: o.fate != fate
    ensures GrewBy(numbers, numbers, fate, base, outcomes)
  {
    forall n: nat
      ensures !Had(fate, base, outcomes, n)
    {
      assert base <= n < base + |outcomes| ==> outcomes[n - base] in outcomes;
    }
  }

  /** The ends of earlier calls are what they were. */
  ghost predicate KeepsClosed(before: map<nat, Failures.ToolResult>, after: map<nat, Failures.ToolResult>, base: nat) {
    forall n | n in before && n < base :: n in after && after[n] == before[n]
  }

  /** What a batch has done to its calls: those that ran and those that the budget refused are known by their numbers,
      one ends aborted only if the run has been, and none is refused where there is no budget. */
  ghost predicate Accounts(ranBefore: set<nat>, refusedBefore: set<nat>, ran: set<nat>, refused: set<nat>,
                           aborted: bool, unlimited: bool, base: nat, outcomes: seq<CallOutcome>) {
    && GrewBy(ranBefore, ran, Ran, base, outcomes) && GrewBy(refusedBefore, refused, OverBudget, base, outcomes)
    && forall o | o in outcomes :: (o.fate.AbortedFirst? ==> aborted) && (unlimited ==> !o.fate.OverBudget?)
  }

  lemma AccountsNothing(ran: set<nat>, refused: set<nat>, aborted: bool, unlimited: bool, base: nat)
    ensures Accounts(ran, refused, ran, refused, aborted, unlimited, base, [])
  {
  }

  lemma AccountsOneMore(ranBefore: set<nat>, refusedBefore: set<nat>, ran: set<nat>, refused: set<nat>, aborted: bool,
                        unlimited: bool, base: nat, outcomes: seq<CallOutcome>, outcome: CallOutcome,
                        nowRan: set<nat>, nowRefused: set<nat>, nowAborted: bool)
    requires Accounts(ranBefore, refusedBefore, ran, refused, aborted, unlimited, base, outcomes)
    requires nowRan == if outcome.fate.Ran? then ran + {base + |outcomes|} else ran
    requires nowRefused == if outcome.fate.OverBudget? then refused + {base + |outcomes|} else refused
    requires (outcome.fate.AbortedFirst? ==> nowAborted) && (unlimited ==> !outcome.fate.OverBudget?)
    requires aborted ==> nowAborted
    ensures Accounts(ranBefore, refusedBefore, nowRan, nowRefused, nowAborted, unlimited, base, outcomes + [outcome])
  {
    hide GrewBy;
    GrewByOneMore(ranBefore, ran, Ran, base, outcomes, outcome, nowRan);
    GrewByOneMore(refusedBefore, refused, OverBudget, base, outcomes, outcome, nowRefused);
  }

  lemma AccountsAborted(ranBefore: set<nat>, refusedBefore: set<nat>, ran: set<nat>, refused: set<nat>, aborted: bool,
                        unlimited: bool, base: nat, outcomes: seq<CallOutcome>)
    requires Accounts(ranBefore, refusedBefore, ran, refused, aborted, unlimited, base, outcomes)
    ensures Accounts(ranBefore, refusedBefore, ran, refused, true, unlimited, base, outcomes)
  {
  }

  lemma GrewByMore(before: set<nat>, middle: set<nat>, after: set<nat>, fate: Fate, base: nat,
                   outcomes: seq<CallOutcome>, more: seq<CallOutcome>)
    requires GrewBy(before, middle, fate, base, outcomes) && GrewBy(middle, after, fate, base + |outcomes|, more)
    ensures GrewBy(before, after, fate, base, outcomes + more)
  {
    forall n: nat
      ensures Had(fate, base, outcomes + more, n)
              <==> Had(fate, base, outcomes, n) || Had(fate, base + |outcomes|, more, n)
    {
    }
  }

  /** The books of one batch after another. */
  lemma AccountsMore(ranBefore: set<nat>, refusedBefore: set<nat>, ran: set<nat>, refused: set<nat>, aborted: bool,
                     unlimited: bool, base: nat, outcomes: seq<CallOutcome>,
                     nowRan: set<nat>, nowRefused: set<nat>, nowAborted: bool, more: seq<CallOutcome>)
    requires Accounts(ranBefore, refusedBefore, ran, refused, aborted, unlimited, base, outcomes)
    requires Accounts(ran, refused, nowRan, nowRefused, nowAborted, unlimited, base + |outcomes|, more)
    requires aborted ==> nowAborted
    ensures Accounts(ranBefore, refusedBefore, nowRan, nowRefused, nowAborted, unlimited, base, outcomes + more)
  {
    hide GrewBy;
    GrewByMore(ranBefore, ran, nowRan, Ran, base, outcomes, more);
    GrewByMore(refusedBefore, refused, nowRefused, OverBudget, base, outcomes, more);
  }

  lemma ClosesMore(before: map<nat, Failures.ToolResult>, middle: map<nat, Failures.ToolResult>,
                   after: map<nat, Failures.ToolResult>, base: nat, results: seq<Failures.ToolResult>,
                   more: seq<Failures.ToolResult>)
    requires Closes(before, middle, base, results) && Closes(middle, after, base + |results|, more)
    ensures Closes(before, after, base, results + more)
  {
    forall n | base <= n < base + |results + more|
      ensures n in after && after[n] == (results + more)[n - base]
    {
      if n < base + |results| {
        assert n in middle && middle[n] == results[n - base];
      }
    }
  }

  lemma ResultAt(calls: seq<Failures.ToolCall>, b: Batch, n: nat)
    requires b.count <= |calls| && b.Covers(n) && forall m: nat | b.Covers(m) :: m in b.done
    ensures Results(calls, Outcomes(b))[n - b.base] == ResultOf(calls[n - b.base], b.done[n])
  {
    assert b.base + (n - b.base) == n;
    assert Outcomes(b)[n - b.base] == b.done[n];
    hide Outcomes;
  }

  lemma ResultsClose(closed: map<nat, Failures.ToolResult>, before: map<nat, Failures.ToolResult>,
                     calls: seq<Failures.ToolCall>, b: Batch)
    requires b.count <= |calls| && KeepsClosed(before, closed, b.base)
    requires forall n: nat | b.Covers(n) ::
               n in b.done && n in closed && closed[n] == ResultOf(calls[n - b.base], b.done[n])
    ensures Closes(before, closed, b.base, Results(calls, Outcomes(b)))
  {
    hide Results, Outcomes, Answers;
    forall n: nat | b.base <= n < b.base + b.count
      ensures n in closed && closed[n] == Results(calls, Outcomes(b))[n - b.base]
    {
      assert b.Covers(n);
      ResultAt(calls, b, n);
    }
  }

  /** A call that has been started is decided, or waited for. */
  lemma LaunchDecided(tools: seq<ToolScript>, calls: seq<Failures.ToolCall>, s: Summary, b: Batch, was: Before,
                      outcome: CallOutcome, ran: set<nat>, refusedBefore: set<nat>, refused: set<nat>,
                      abortedBefore: bool, aborted: bool, unlimited: bool)
    requires Tracks(s, calls, b) && Faithful(tools, b) && Marks(b, was, ran, refusedBefore, abortedBefore, unlimited)
    requires b.count < |calls| <= |tools| && (abortedBefore ==> aborted)
    requires refused == if outcome.fate.OverBudget? then refusedBefore + {s.started} else refusedBefore
    requires Possible(tools[b.count], outcome) && !outcome.fate.Ran? && (outcome.fate.AbortedFirst? ==> aborted)
    requires unlimited ==> !outcome.fate.OverBudget?
    ensures Faithful(tools, Decide(b, outcome)) && Marks(Decide(b, outcome), was, ran, refused, aborted, unlimited)
  {
    hide Tracks, Faithful, Marks, Possible;
    NotOpenYet(s, calls, b);
    InATurn(s, calls, b);
    FaithfulLaunch(tools, b, Some(outcome));
    MarksDecided(b, was, ran, refusedBefore, abortedBefore, unlimited, outcome, refused, aborted);
  }

  lemma LaunchWaits(tools: seq<ToolScript>, calls: seq<Failures.ToolCall>, s: Summary, b: Batch, was: Before,
                    ran: set<nat>, refused: set<nat>, abortedBefore: bool, aborted: bool, unlimited: bool)
    requires Tracks(s, calls, b) && Faithful(tools, b) && Marks(b, was, ran, refused, abortedBefore, unlimited)
    requires b.count < |calls| <= |tools| && (abortedBefore ==> aborted) && tools[b.count].preparation.Accepted?
    ensures Faithful(tools, Wait(b)) && Marks(Wait(b), was, ran, refused, aborted, unlimited)
    ensures Tracks(s.(started := s.started + 1, open := s.open[s.started := calls[b.count].id]), calls, Wait(b))
    ensures |Wait(b).unbegun| == |b.unbegun| + 1
  {
    hide Tracks, Faithful, Marks, Possible;
    NotOpenYet(s, calls, b);
    InATurn(s, calls, b);
    FaithfulLaunch(tools, b, None);
    TracksWaiting(s, calls, b);
    MarksWait(b, was, ran, refused, abortedBefore, unlimited, aborted);
  }

  lemma NotOpenYet(s: Summary, calls: seq<Failures.ToolCall>, b: Batch)
    requires Tracks(s, calls, b)
    ensures s.started !in s.open && s.started !in b.unbegun && !b.Covers(s.started) && s.started !in b.done
  {
  }

  lemma InATurn(s: Summary, calls: seq<Failures.ToolCall>, b: Batch)
    requires Tracks(s, calls, b)
    ensures s.phase.InTurn? && s.started == b.base + b.count
  {
  }

  lemma HasIndex(s: Summary, calls: seq<Failures.ToolCall>, b: Batch, n: nat)
    requires Tracks(s, calls, b) && n in b.unbegun + b.running
    ensures b.base <= n < b.base + b.count <= b.base + |calls|
    ensures n in s.open && s.open[n] == calls[n - b.base].id && n !in b.done
    ensures n in b.running <==> n !in b.unbegun
  {
  }

  lemma AllDone(s: Summary, calls: seq<Failures.ToolCall>, b: Batch)
    requires Tracks(s, calls, b) && b.unbegun == b.running == {}
    ensures s.open == map[] && s.phase.InTurn? && s.started == b.base + b.count && b.count <= |calls|
    ensures forall n: nat :: b.Covers(n) <==> n in b.done
    ensures forall n: nat | b.Covers(n) :: n in s.closed && s.closed[n] == ResultOf(calls[n - b.base], b.done[n])
  {
  }

  function Decide(b: Batch, outcome: CallOutcome): Batch {
    b.(count := b.count + 1, done := b.done[b.base + b.count := outcome])
  }

  function Wait(b: Batch): Batch {
    b.(count := b.count + 1, unbegun := b.unbegun + {b.base + b.count})
  }

  function Finish(b: Batch, n: nat, outcome: CallOutcome): Batch {
    b.(done := b.done[n := outcome], unbegun := b.unbegun - {n}, running := b.running - {n})
  }

  function Run(b: Batch, n: nat): Batch {
    b.(unbegun := b.unbegun - {n}, running := b.running + {n})
  }

  lemma TracksDecided(s: Summary, calls: seq<Failures.ToolCall>, b: Batch, outcome: CallOutcome)
    requires Tracks(s, calls, b) && b.count < |calls|
    ensures Tracks(s.(started := s.started + 1,
                      closed := s.closed[s.started := ResultOf(calls[b.count], outcome)]), calls, Decide(b, outcome))
  {
    NotOpenYet(s, calls, b);
    var s' := s.(started := s.started + 1, closed := s.closed[s.started := ResultOf(calls[b.count], outcome)]);
    var b' := Decide(b, outcome);
    forall n: nat
      ensures b'.Covers(n) <==> n in s'.open || n in b'.done
    {
      assert b'.Covers(n) <==> b.Covers(n) || n == s.started;
    }
  }

  lemma TracksWaiting(s: Summary, calls: seq<Failures.ToolCall>, b: Batch)
    requires Tracks(s, calls, b) && b.count < |calls|
    ensures Tracks(s.(started := s.started + 1, open := s.open[s.started := calls[b.count].id]), calls, Wait(b))
  {
    NotOpenYet(s, calls, b);
    var s' := s.(started := s.started + 1, open := s.open[s.started := calls[b.count].id]);
    forall n: nat
      ensures Wait(b).Covers(n) <==> n in s'.open || n in b.done
    {
      assert Wait(b).Covers(n) <==> b.Covers(n) || n == s.started;
    }
    assert s'.open.Keys == s.open.Keys + {s.started};
  }

  lemma TracksFinish(s: Summary, calls: seq<Failures.ToolCall>, b: Batch, n: nat, outcome: CallOutcome)
    requires Tracks(s, calls, b) && n in s.open
    ensures b.base <= n < b.base + |calls|
    ensures Tracks(s.(open := s.open - {n}, closed := s.closed[n := ResultOf(calls[n - b.base], outcome)]), calls,
                   Finish(b, n, outcome))
  {
    var s' := s.(open := s.open - {n}, closed := s.closed[n := ResultOf(calls[n - b.base], outcome)]);
    var b' := Finish(b, n, outcome);
    forall m: nat
      ensures b'.Covers(m) <==> m in s'.open || m in b'.done
    {
      assert b'.Covers(m) <==> b.Covers(m);
    }
  }

  lemma TracksRun(s: Summary, calls: seq<Failures.ToolCall>, b: Batch, n: nat)
    requires Tracks(s, calls, b) && n in b.unbegun
    ensures Tracks(s, calls, Run(b, n))
  {
    var b' := Run(b, n);
    assert b'.unbegun + b'.running == b.unbegun + b.running;
    forall m: nat
      ensures b'.Covers(m) <==> m in s.open || m in b'.done
    {
      assert b'.Covers(m) <==> b.Covers(m);
    }
  }

  /** The outcomes of a batch in which nothing is left to run, in the order of the calls. */
  function Outcomes(b: Batch): (outcomes: seq<CallOutcome>)
    requires forall n: nat | b.Covers(n) :: n in b.done
    ensures |outcomes| == b.count
  {
    seq(b.count, i requires 0 <= i < b.count => assert b.Covers(b.base + i); b.done[b.base + i])
  }

  lemma FaithfulOutcomes(tools: seq<ToolScript>, b: Batch)
    requires Faithful(tools, b) && forall n: nat | b.Covers(n) :: n in b.done
    ensures AllPossible(tools, Outcomes(b))
  {
    forall i | 0 <= i < b.count
      ensures Possible(tools[i], Outcomes(b)[i])
    {
      assert b.Covers(b.base + i);
    }
  }

  function Results(calls: seq<Failures.ToolCall>, outcomes: seq<CallOutcome>): (results: seq<Failures.ToolResult>)
    requires |outcomes| <= |calls|
    ensures |results| == |outcomes| && Answers(results, calls)
  {
    seq(|outcomes|, i requires 0 <= i < |outcomes| => ResultOf(calls[i], outcomes[i]))
  }

  lemma ResultsOneMore(calls: seq<Failures.ToolCall>, outcomes: seq<CallOutcome>, outcome: CallOutcome)
    requires |outcomes| < |calls|
    ensures Results(calls, outcomes + [outcome])
            == Results(calls, outcomes) + [ResultOf(calls[|outcomes|], outcome)]
  {
  }

  // ---------------------------------------------------------------------------------------------------------------
  // The order of a batch's events

  function OpenAfter(open: set<nat>, e: Event): set<nat> {
    if e.ToolStart? then open + {e.call} else if e.ToolEnd? then open - {e.call} else open
  }

  /** The calls that these events start and do not end. */
  function OpenIn(events: seq<Event>): set<nat> {
    if events == [] then {} else OpenAfter(OpenIn(events[..|events| - 1]), events[|events| - 1])
  }

  /** At no point is more than one call open. */
  ghost predicate OneOpen(events: seq<Event>) {
    forall k | 0 <= k <= |events| :: |OpenIn(events[..k])| <= 1
  }

  /** The end of a call is followed at once by the message with its result. */
  ghost predicate AnsweredAtOnce(events: seq<Event>) {
    forall k | 0 <= k < |events| && events[k].ToolEnd? ::
      && k + 2 < |events|
      && events[k + 1] == MessageStart(EntryOf(events[k].result))
      && events[k + 2] == MessageEnd(EntryOf(events[k].result))
  }

  /** Calls made one at a time: each is over, and answered, before the next is started. */
  ghost predicate OneByOne(events: seq<Event>) {
    OneOpen(events) && AnsweredAtOnce(events)
  }

  predicate OfTools(e: Event) {
    e.ToolStart? || e.ToolUpdate? || e.ToolEnd?
  }

  predicate OfMessages(e: Event) {
    e.MessageStart? || e.MessageEnd?
  }

  /** Calls made together: all are started, and over, before the first is answered. */
  ghost predicate CallsFirst(events: seq<Event>) {
    forall j, k | 0 <= j < |events| && 0 <= k < |events| && OfTools(events[j]) && OfMessages(events[k]) :: j < k
  }

  lemma OpenInOneMore(events: seq<Event>, e: Event)
    ensures OpenIn(events + [e]) == OpenAfter(OpenIn(events), e)
  {
    assert (events + [e])[..|events|] == events;
  }

  lemma OneOpenOneMore(events: seq<Event>, e: Event)
    requires OneOpen(events) && |OpenIn(events + [e])| <= 1
    ensures OneOpen(events + [e])
  {
    hide OpenIn;
    forall k | 0 <= k <= |events + [e]|
      ensures |OpenIn((events + [e])[..k])| <= 1
    {
      assert (events + [e])[..k] == if k <= |events| then events[..k] else events + [e];
    }
  }

  function Updates(call: nat, id: string, count: nat): seq<Event> {
    seq(count, i => ToolUpdate(call, id))
  }

  /** A call from its start to its result message. */
  function Alone(call: nat, id: string, updates: nat, result: Failures.ToolResult): seq<Event> {
    [ToolStart(call, id)] + Updates(call, id, updates) + [ToolEnd(call, id, result)]
      + [MessageStart(EntryOf(result)), MessageEnd(EntryOf(result))]
  }

  lemma {:induction false} UpdatesKeepOpen(events: seq<Event>, call: nat, id: string, count: nat)
    requires OneOpen(events)
    ensures OneOpen(events + Updates(call, id, count)) && OpenIn(events + Updates(call, id, count)) == OpenIn(events)
    decreases count
  {
    hide OneOpen, OpenIn;
    if count == 0 {
      assert events + Updates(call, id, count) == events;
    } else {
      var front := events + Updates(call, id, count - 1);
      UpdatesKeepOpen(events, call, id, count - 1);
      OpenInOneMore(front, ToolUpdate(call, id));
      assert |OpenIn(events)| <= 1 by { OneOpenAtEnd(events); }
      OneOpenOneMore(front, ToolUpdate(call, id));
      assert events + Updates(call, id, count) == front + [ToolUpdate(call, id)];
    }
  }

  lemma OneOpenAtEnd(events: seq<Event>)
    requires OneOpen(events)
    ensures |OpenIn(events)| <= 1
  {
    assert events[..|events|] == events;
  }

  /** One more call after the others are over. */
  lemma AloneKeepsOneOpen(events: seq<Event>, call: nat, id: string, updates: nat, result: Failures.ToolResult)
    requires OneOpen(events) && OpenIn(events) == {}
    ensures OneOpen(events + Alone(call, id, updates, result))
    ensures OpenIn(events + Alone(call, id, updates, result)) == {}
  {
    hide OneOpen, OpenIn;
    var started := events + [ToolStart(call, id)];
    OpenInOneMore(events, ToolStart(call, id));
    assert OpenIn(started) == {call};
    OneOpenOneMore(events, ToolStart(call, id));
    UpdatesKeepOpen(started, call, id, updates);
    var ran := started + Updates(call, id, updates);
    OpenInOneMore(ran, ToolEnd(call, id, result));
    OneOpenOneMore(ran, ToolEnd(call, id, result));
    var ended := ran + [ToolEnd(call, id, result)];
    OpenInOneMore(ended, MessageStart(EntryOf(result)));
    OneOpenOneMore(ended, MessageStart(EntryOf(result)));
    var answered := ended + [MessageStart(EntryOf(result))];
    OpenInOneMore(answered, MessageEnd(EntryOf(result)));
    OneOpenOneMore(answered, MessageEnd(EntryOf(result)));
    assert events + Alone(call, id, updates, result) == answered + [MessageEnd(EntryOf(result))];
  }

  lemma AloneIsAnswered(events: seq<Event>, call: nat, id: string, updates: nat, result: Failures.ToolResult)
    requires AnsweredAtOnce(events)
    ensures AnsweredAtOnce(events + Alone(call, id, updates, result))
  {
    var alone := Alone(call, id, updates, result);
    var more := events + alone;
    assert forall k | 0 <= k < |alone| :: alone[k].ToolEnd? ==> k == 1 + updates;
    forall k | 0 <= k < |more| && more[k].ToolEnd?
      ensures k + 2 < |more| && more[k + 1] == MessageStart(EntryOf(more[k].result))
      ensures more[k + 2] == MessageEnd(EntryOf(more[k].result))
    {
      if k < |events| {
        assert more[k] == events[k] && more[k + 1] == events[k + 1] && more[k + 2] == events[k + 2];
      } else {
        assert more[k] == alone[k - |events|];
      }
    }
  }

  /** The events since `before` are those of calls made one at a time, all over. */
  ghost predicate InOrder(before: seq<Event>, after: seq<Event>) {
    before <= after && OneByOne(after[|before|..]) && OpenIn(after[|before|..]) == {}
  }

  lemma InOrderNothing(log: seq<Event>)
    ensures InOrder(log, log)
  {
  }

  lemma InOrderOneMore(before: seq<Event>, after: seq<Event>, call: nat, id: string, updates: nat,
                       result: Failures.ToolResult)
    requires InOrder(before, after)
    ensures InOrder(before, after + Alone(call, id, updates, result))
  {
    hide OneOpen, AnsweredAtOnce, OpenIn, Alone;
    var events, alone := after[|before|..], Alone(call, id, updates, result);
    AloneKeepsOneOpen(events, call, id, updates, result);
    AloneIsAnswered(events, call, id, updates, result);
    assert (after + alone)[|before|..] == events + alone;
  }

  /** The events since `before` all concern calls. */
  ghost predicate OnlyTools(before: seq<Event>, after: seq<Event>) {
    before <= after && forall k | |before| <= k < |after| :: OfTools(after[k])
  }

  lemma OnlyToolsOneMore(before: seq<Event>, after: seq<Event>, e: Event)
    requires OnlyTools(before, after) && OfTools(e)
    ensures OnlyTools(before, after + [e])
  {
  }

  lemma ToolsThenMessages(before: seq<Event>, middle: seq<Event>, after: seq<Event>)
    requires OnlyTools(before, middle)
    requires middle <= after && forall k | |middle| <= k < |after| :: OfMessages(after[k])
    ensures before <= after && CallsFirst(after[|before|..])
  {
    var events := after[|before|..];
    assert forall k | |before| <= k < |middle| :: after[k] == middle[k] && OfTools(after[k]);
    assert forall k | 0 <= k < |events| :: events[k] == after[|before| + k];
    assert forall k | 0 <= k < |events| && OfTools(events[k]) :: |before| + k < |middle|;
    assert forall k | 0 <= k < |events| && OfMessages(events[k]) :: |middle| <= |before| + k;
  }

  /** Where the events of a run go, with what the batch code shares with the loop: the abort signal and the budget. */
  class Emitter {
    const gate: BudgetGate
    var log: seq<Event>
    var aborted: bool
    var callsStarted: nat
    ghost var summary: Summary
    /** Requests and tool calls the gate has let through; the calls whose bodies were run, and those the gate
        refused. */
    ghost var requested: nat
    ghost var accepted: nat
    ghost var ran: set<nat>
    ghost var refused: set<nat>
    /** The counters of the gate's controllers when the run began. */
    ghost const requestsBefore: map<RunBudgetController, nat>
    ghost const toolCallsBefore: map<RunBudgetController, nat>

    ghost predicate Valid()
      reads this`log, this`summary, this`callsStarted, this`accepted, this`ran, this`refused
    {
      && gate.Sound()
      && summary == Summarize(log)
      && summary.phase != Broken
      && callsStarted == summary.started
      && |ran| <= accepted
      && (forall n | n in ran || n in refused :: n < callsStarted)
    }

    /** Every controller has been charged for everything the gate let through, and none is past its limits. */
    ghost predicate Charged()
      reads this`requested, this`accepted, gate.Controllers()
    {
      forall c | c in gate.Controllers() :: ChargedTo(c)
    }

    ghost predicate ChargedTo(c: RunBudgetController)
      reads this`requested, this`accepted, c
    {
      && c.State().WithinLimits()
      && c in requestsBefore && c.providerRequests >= requestsBefore[c] + requested
      && c in toolCallsBefore && c.toolCalls >= toolCallsBefore[c] + accepted
    }

    constructor (gate: BudgetGate)
      requires gate.Sound()
      requires forall c | c in gate.Controllers() :: c.State().WithinLimits()
      ensures Valid() && this.gate == gate && log == [] && summary == Nothing && !aborted
      ensures Charged() && requested == accepted == 0 && ran == refused == {}
      ensures forall c | c in gate.Controllers() ::
                c in requestsBefore && requestsBefore[c] == c.providerRequests
                && c in toolCallsBefore && toolCallsBefore[c] == c.toolCalls
    {
      this.gate := gate;
      log, aborted, callsStarted, summary := [], false, 0, Nothing;
      requested, accepted, ran, refused := 0, 0, {}, {};
      requestsBefore := map c | c in gate.Controllers() :: c.providerRequests;
      toolCallsBefore := map c | c in gate.Controllers() :: c.toolCalls;
    }

    method BeginRequest(at: Readings) returns (allowed: bool)
      requires gate.Sound() && Charged()
      modifies this`requested, gate.Controllers()`providerRequests
      ensures Charged() && requested == old(requested) + if allowed then 1 else 0
      ensures allowed == old(gate.AllowsRequest(at))
    {
      match gate {
        case Unlimited =>
          allowed := true;
        case Stock(controller) =>
          assert ChargedTo(controller);
          allowed := controller.TryBeginProviderRequest(at.primaryRecord);
        case Composite(composite) =>
          assert ChargedTo(composite.primary) && ChargedTo(composite.shared);
          allowed := composite.TryBeginProviderRequest(at);
      }
      requested := requested + if allowed then 1 else 0;
    }

    method AcceptToolCall(at: Readings, ghost call: nat) returns (allowed: bool)
      requires gate.Sound() && Charged()
      modifies this`accepted, this`refused, gate.Controllers()`toolCalls
      ensures Charged() && accepted == old(accepted) + if allowed then 1 else 0
      ensures allowed == old(gate.AllowsToolCall(at))
      ensures refused == if allowed then old(refused) else old(refused) + {call}
    {
      match gate {
        case Unlimited =>
          allowed := true;
        case Stock(controller) =>
          assert ChargedTo(controller);
          allowed := controller.TryAcceptToolCall(at.primaryRecord);
        case Composite(composite) =>
          assert ChargedTo(composite.primary) && ChargedTo(composite.shared);
          allowed := composite.TryAcceptToolCall(at);
      }
      accepted := accepted + if allowed then 1 else 0;
      refused := if allowed then refused else refused + {call};
    }

    method Emit(e: Event)
      requires Valid() && Next(summary, e).phase != Broken && !e.ToolStart?
      modifies this`log, this`summary
      ensures Valid() && log == old(log) + [e] && summary == Next(old(summary), e)
    {
      SummarizeOneMore(log, e);
      log := log + [e];
      summary := Next(summary, e);
    }

    method EmitToolStart(id: string) returns (call: nat)
      requires Valid() && summary.phase.InTurn?
      modifies this`log, this`summary, this`callsStarted
      ensures Valid() && call == old(summary).started && log == old(log) + [ToolStart(call, id)]
      ensures callsStarted == call + 1
      ensures summary == old(summary).(started := call + 1, open := old(summary).open[call := id])
    {
      call := callsStarted;
      SummarizeOneMore(log, ToolStart(call, id));
      log := log + [ToolStart(call, id)];
      summary := Next(summary, ToolStart(call, id));
      callsStarted := callsStarted + 1;
    }

    method EmitToolUpdate(call: nat, id: string)
      requires Valid() && summary.phase.InTurn? && call in summary.open && summary.open[call] == id
      modifies this`log, this`summary
      ensures Valid() && log == old(log) + [ToolUpdate(call, id)] && summary == old(summary)
    {
      Emit(ToolUpdate(call, id));
    }

    method EmitToolEnd(call: nat, id: string, result: Failures.ToolResult)
      requires Valid() && summary.phase.InTurn? && call in summary.open && summary.open[call] == id == result.toolCallId
      modifies this`log, this`summary
      ensures Valid() && log == old(log) + [ToolEnd(call, id, result)]
      ensures var s := old(summary);
              summary == s.(open := s.open - {call}, closed := s.closed[call := result])
    {
      Emit(ToolEnd(call, id, result));
    }

    method BeginRun()
      requires Valid() && summary == Nothing
      modifies this`log, this`summary
      ensures Valid() && log == old(log) + [AgentStart, TurnStart] && summary == Nothing.(phase := InTurn)
    {
      hide Summarize;
      Emit(AgentStart);
      assert summary == Nothing.(phase := Starting);
      Emit(TurnStart);
    }

    method OpenTurn()
      requires Valid() && (summary.phase.Starting? || summary.phase.BetweenTurns?)
      modifies this`log, this`summary
      ensures Valid() && log == old(log) + [TurnStart] && summary == old(summary).(phase := InTurn)
    {
      Emit(TurnStart);
    }

    method CloseTurn()
      requires Valid() && summary.phase.InTurn? && summary.open == map[]
      modifies this`log, this`summary
      ensures Valid() && log == old(log) + [TurnEnd] && summary == old(summary).(phase := BetweenTurns)
    {
      Emit(TurnEnd);
    }

    method EndRun(messages: seq<Entry>, ending: Ending)
      requires Valid() && messages == summary.ended
      requires if summary.phase.InTurn? then summary.open == map[] && (ending.BudgetExhausted? || ending.Aborted?)
               else summary.phase.BetweenTurns? && !ending.BudgetExhausted?
      modifies this`log, this`summary
      ensures Valid() && log == old(log) + [AgentEnd(messages, ending)]
      ensures summary == old(summary).(phase := Finished(old(summary).phase.BetweenTurns?))
    {
      Emit(AgentEnd(messages, ending));
    }

    method OpenMessage(entry: Entry)
      requires Valid() && summary.phase.InTurn?
      modifies this`log, this`summary
      ensures Valid() && log == old(log) + [MessageStart(entry)] && summary == old(summary).(phase := InMessage)
    {
      Emit(MessageStart(entry));
    }

    method UpdateMessage(entry: Entry)
      requires Valid() && summary.phase.InMessage?
      modifies this`log, this`summary
      ensures Valid() && log == old(log) + [MessageUpdate(entry)] && summary == old(summary)
    {
      Emit(MessageUpdate(entry));
    }

    method CloseMessage(entry: Entry)
      requires Valid() && summary.phase.InMessage?
      modifies this`log, this`summary
      ensures Valid() && log == old(log) + [MessageEnd(entry)]
      ensures summary == old(summary).(phase := InTurn, ended := old(summary).ended + [entry])
    {
      Emit(MessageEnd(entry));
    }

    method EmitMessage(entry: Entry)
      requires Valid() && summary.phase.InTurn?
      modifies this`log, this`summary
      ensures Valid() && log == old(log) + [MessageStart(entry), MessageEnd(entry)]
      ensures summary == old(summary).(ended := old(summary).ended + [entry])
    {
      Emit(MessageStart(entry));
      Emit(MessageEnd(entry));
    }

    method EmitMessages(entries: seq<Entry>)
      requires Valid() && summary.phase.InTurn?
      modifies this`log, this`summary
      ensures Valid() && summary == old(summary).(ended := old(summary).ended + entries)
      ensures old(log) <= log && forall k | |old(log)| <= k < |log| :: OfMessages(log[k])
    {
      hide Next, Summarize;
      for i := 0 to |entries|
        invariant Valid() && summary == old(summary).(ended := old(summary).ended + entries[..i])
        invariant old(log) <= log && forall k | |old(log)| <= k < |log| :: OfMessages(log[k])
      {
        EmitMessage(entries[i]);
        assert entries[..i + 1] == entries[..i] + [entries[i]];
      }
      assert entries[..|entries|] == entries;
    }

    /** One more turn, of a single message, and the end of the run. */
    method EndWithTurn(entry: Entry, messages: seq<Entry>, ending: Ending)
      requires Valid() && summary.phase.BetweenTurns? && summary.open == map[]
      requires messages == summary.ended + [entry] && !ending.BudgetExhausted?
      modifies this`log, this`summary
      ensures Valid() && summary == old(summary).(phase := Finished(true), ended := messages)
      ensures log == old(log) + [TurnStart, MessageStart(entry), MessageEnd(entry), TurnEnd, AgentEnd(messages, ending)]
    {
      hide Next, Summarize;
      OpenTurn();
      EmitMessage(entry);
      CloseTurn();
      EndRun(messages, ending);
    }

    /** Learn whether the run has been aborted; an abort is never taken back. */
    method Check(nowAborted: bool)
      modifies this`aborted
      ensures aborted == (old(aborted) || nowAborted)
    {
      aborted := aborted || nowAborted;
    }

    /** `prepareToolCall`: the outcome of a call that will not run. */
    method Prepare(script: ToolScript) returns (immediate: Option<CallOutcome>)
      modifies this`aborted
      ensures aborted == (old(aborted) || (!script.preparation.Refused? && script.abortedWhilePreparing))
      ensures immediate.None? <==> script.preparation.Accepted? && !aborted
      ensures immediate.Some? ==> Possible(script, immediate.value) && !immediate.value.fate.OverBudget?
                                  && !immediate.value.fate.Ran?
      ensures immediate.Some? && immediate.value.fate.AbortedFirst? ==> aborted
    {
      if script.preparation.Refused? {
        return Some(CallOutcome(Unprepared, Finalized(script.preparation.reason, true, false)));
      }
      Check(script.abortedWhilePreparing);
      if aborted {
        return Some(ABORTED);
      }
      if script.preparation.Blocked? {
        return Some(CallOutcome(Unprepared, Finalized(script.preparation.reason, true, script.preparation.terminate)));
      }
      immediate := None;
    }

    /** Prepare a call and pay for it: its outcome if it will not run. The budget keeps a call from running only when
        its gate refuses it, and the abort of the run only when it has been aborted. */
    method Admit(script: ToolScript, ghost call: nat) returns (immediate: Option<CallOutcome>)
      requires Valid() && Charged() && call < callsStarted
      modifies this`aborted, this`accepted, this`refused, gate.Controllers()`toolCalls
      ensures Valid() && Charged()
      ensures aborted == (old(aborted) || (!script.preparation.Refused? && script.abortedWhilePreparing))
      ensures accepted == old(accepted) + if immediate.None? then 1 else 0
      ensures immediate.None? <==> script.preparation.Accepted? && !aborted && old(gate.AllowsToolCall(script.readings))
      ensures immediate.Some? ==> Possible(script, immediate.value) && !immediate.value.fate.Ran?
      ensures immediate.Some? && immediate.value.fate.AbortedFirst? ==> aborted
      ensures immediate.Some? && immediate.value.fate.OverBudget? ==> !old(gate.AllowsToolCall(script.readings))
      ensures refused == if immediate.Some? && immediate.value.fate.OverBudget? then old(refused) + {call}
                         else old(refused)
    {
      hide Next, Summarize, Possible, BudgetGate.AllowsToolCall, ChargedTo;
      immediate := Prepare(script);
      if immediate.None? {
        PossibleExhausted(script);
        var allowed := AcceptToolCall(script.readings, call);
        if !allowed {
          immediate := Some(EXHAUSTED);
        }
      }
    }

    // -------------------------------------------------------------------------------------------------------------
    // One at a time

    /** The end of the one open call, and the message with its result. */
    method Answer(call: nat, id: string, result: Failures.ToolResult)
      requires Valid() && summary.phase.InTurn? && summary.open == map[call := id] && result.toolCallId == id
      modifies this`log, this`summary
      ensures Valid()
      ensures var s := old(summary);
              summary == s.(ended := s.ended + [EntryOf(result)], open := map[], closed := s.closed[call := result])
      ensures log == old(log) + [ToolEnd(call, id, result)]
                     + [MessageStart(EntryOf(result)), MessageEnd(EntryOf(result))]
    {
      hide Next, Summarize;
      EmitToolEnd(call, id, result);
      assert map[call := id] - {call} == map[];
      EmitMessage(EntryOf(result));
    }

    /** One call of a message cut off by the token limit. */
    method FailOne(toolCall: Failures.ToolCall)
      requires Valid() && summary.phase.InTurn? && summary.open == map[]
      modifies this`log, this`summary, this`callsStarted
      ensures Valid()
      ensures var s, result := old(summary), ResultOf(toolCall, TRUNCATED);
              summary == s.(ended := s.ended + [EntryOf(result)], started := s.started + 1,
                            closed := s.closed[s.started := result])
      ensures log == old(log) + Alone(old(summary).started, toolCall.id, 0, ResultOf(toolCall, TRUNCATED))
    {
      hide Next, Summarize;
      var call := EmitToolStart(toolCall.id);
      Answer(call, toolCall.id, ResultOf(toolCall, TRUNCATED));
    }

    /** The calls of a message cut off by the token limit: each is started, failed and answered without running. */
    method FailTruncated(calls: seq<Failures.ToolCall>)
      returns (outcomes: seq<CallOutcome>, results: seq<Failures.ToolResult>)
      requires Valid() && summary.phase.InTurn? && summary.open == map[]
      modifies this`log, this`summary, this`callsStarted
      ensures Valid() && |outcomes| == |calls| && results == Results(calls, outcomes)
      ensures forall o | o in outcomes :: o == TRUNCATED
      ensures AllAnswered(old(summary), summary, results) && InOrder(old(log), log)
    {
      hide Next, Summarize, InOrder, Alone;
      outcomes, results := [], [];
      AllAnsweredNothing(summary);
      InOrderNothing(log);
      for i := 0 to |calls|
        invariant Valid() && |outcomes| == i && results == Results(calls, outcomes)
        invariant forall o | o in outcomes :: o == TRUNCATED
        invariant AllAnswered(old(summary), summary, results) && InOrder(old(log), log)
      {
        ghost var before := summary;
        InOrderOneMore(old(log), log, before.started, calls[i].id, 0, ResultOf(calls[i], TRUNCATED));
        FailOne(calls[i]);
        ResultsOneMore(calls, outcomes, TRUNCATED);
        AllAnsweredOneMore(old(summary), before, results, ResultOf(calls[i], TRUNCATED));
        outcomes, results := outcomes + [TRUNCATED], results + [ResultOf(calls[i], TRUNCATED)];
      }
    }

    /** The body of an accepted call, reporting as it goes. */
    method RunBody(call: nat, id: string, script: ToolScript) returns (outcome: CallOutcome)
      requires Valid() && summary.phase.InTurn? && call in summary.open && summary.open[call] == id
      requires |ran| < accepted && call < summary.started
      modifies this`log, this`summary, this`ran
      ensures Valid() && summary == old(summary) && ran == old(ran) + {call}
      ensures outcome == CallOutcome(Ran, script.outcome) && log == old(log) + Updates(call, id, script.updates)
    {
      hide Next, Summarize;
      Execute(call);
      for u := 0 to script.updates
        invariant Valid() && summary == old(summary) && ran == old(ran) + {call}
        invariant log == old(log) + Updates(call, id, u)
      {
        EmitToolUpdate(call, id);
        assert Updates(call, id, u + 1) == Updates(call, id, u) + [ToolUpdate(call, id)];
      }
      outcome := CallOutcome(Ran, script.outcome);
    }

    /** A call that has been started: it is kept from running, or its body runs. */
    method Settle(call: nat, id: string, script: ToolScript) returns (outcome: CallOutcome, ghost updates: nat)
      requires Valid() && Charged() && call < callsStarted
      requires summary.phase.InTurn? && call in summary.open && summary.open[call] == id
      modifies this`log, this`summary, this`aborted, this`accepted, this`ran, this`refused, gate.Controllers()`toolCalls
      ensures Valid() && Charged() && summary == old(summary)
      ensures aborted == (old(aborted) || (!script.preparation.Refused? && script.abortedWhilePreparing))
      ensures Possible(script, outcome) && (outcome.fate.AbortedFirst? ==> aborted)
      ensures ran == if outcome.fate.Ran? then old(ran) + {call} else old(ran)
      ensures refused == if outcome.fate.OverBudget? then old(refused) + {call} else old(refused)
      ensures gate.Unlimited? ==> !outcome.fate.OverBudget?
      ensures updates == if outcome.fate.Ran? then script.updates else 0
      ensures log == old(log) + Updates(call, id, updates)
    {
      hide Next, Summarize, ChargedTo, BudgetGate.AllowsToolCall;
      if gate.Unlimited? {
        gate.UnlimitedAllows(script.readings);
      }
      var immediate := Admit(script, call);
      if immediate.Some? {
        outcome, updates := immediate.value, 0;
      } else {
        outcome := RunBody(call, id, script);
        updates := script.updates;
      }
    }

    /** One call from its start to its result message. Its end in the trace carries the result that the message does. */
    method RunAlone(toolCall: Failures.ToolCall, script: ToolScript)
      returns (outcome: CallOutcome, ghost updates: nat)
      requires Valid() && Charged() && summary.phase.InTurn? && summary.open == map[]
      modifies this`log, this`summary, this`callsStarted, this`aborted, this`accepted, this`ran, this`refused,
               gate.Controllers()`toolCalls
      ensures Valid() && Charged() && Possible(script, outcome)
      ensures aborted == (old(aborted) || (!script.preparation.Refused? && script.abortedWhilePreparing))
      ensures outcome.fate.AbortedFirst? ==> aborted
      ensures ran == if outcome.fate.Ran? then old(ran) + {old(summary).started} else old(ran)
      ensures refused == if outcome.fate.OverBudget? then old(refused) + {old(summary).started} else old(refused)
      ensures gate.Unlimited? ==> !outcome.fate.OverBudget?
      ensures var s, result := old(summary), ResultOf(toolCall, outcome);
              && summary == s.(ended := s.ended + [EntryOf(result)], started := s.started + 1,
                               closed := s.closed[s.started := result])
              && updates == (if outcome.fate.Ran? then script.updates else 0)
              && log == old(log) + Alone(s.started, toolCall.id, updates, result)
    {
      hide Next, Summarize, Possible, ChargedTo, Valid;
      var call := EmitToolStart(toolCall.id);
      outcome, updates := Settle(call, toolCall.id, script);
      Answer(call, toolCall.id, ResultOf(toolCall, outcome));
      assert log == old(log) + Alone(call, toolCall.id, updates, ResultOf(toolCall, outcome));
    }

    /** The calls run so far, one after the other, as the trace, the budget and their fates have them. */
    ghost predicate Sequenced(tools: seq<ToolScript>, calls: seq<Failures.ToolCall>, outcomes: seq<CallOutcome>,
                              results: seq<Failures.ToolResult>, first: Summary, was: Before)
      reads this`log, this`summary, this`ran, this`refused, this`aborted
    {
      && InOrder(was.log, log) && (aborted ==> was.aborted || SomeAborts(tools, |calls|))
      && |outcomes| <= |calls| && results == Results(calls, outcomes) && AllPossible(tools, outcomes)
      && AllAnswered(first, summary, results)
      && Accounts(was.ran, was.refused, ran, refused, aborted, gate.Unlimited?, first.started, outcomes)
    }

    method RunNext(tools: seq<ToolScript>, calls: seq<Failures.ToolCall>, outcomes: seq<CallOutcome>,
                   results: seq<Failures.ToolResult>, ghost first: Summary, ghost was: Before)
      returns (outcome: CallOutcome)
      requires Valid() && Charged() && Sequenced(tools, calls, outcomes, results, first, was)
      requires |outcomes| < |calls| <= |tools| && first.phase.InTurn? && first.open == map[]
      modifies this`log, this`summary, this`callsStarted, this`aborted, this`accepted, this`ran, this`refused,
               gate.Controllers()`toolCalls
      ensures Valid() && Charged() && (old(aborted) ==> aborted)
      ensures Sequenced(tools, calls, outcomes + [outcome], results + [ResultOf(calls[|outcomes|], outcome)],
                        first, was)
    {
      hide Next, Summarize, Accounts, AllAnswered, Possible, ChargedTo, Valid, Results, InOrder, Alone, SomeAborts;
      AllAnsweredPhase(first, summary, results);
      ghost var updates;
      outcome, updates := RunAlone(calls[|outcomes|], tools[|outcomes|]);
      if aborted && !old(aborted) {
        AbortsAt(tools, |calls|, |outcomes|);
      }
      InOrderOneMore(was.log, old(log), old(summary).started, calls[|outcomes|].id, updates,
                     ResultOf(calls[|outcomes|], outcome));
      ResultsOneMore(calls, outcomes, outcome);
      AllAnsweredOneMore(first, old(summary), results, ResultOf(calls[|outcomes|], outcome));
      AccountsOneMore(was.ran, was.refused, old(ran), old(refused), old(aborted), gate.Unlimited?, first.started,
                      outcomes, outcome, ran, refused, aborted);
    }

    method ExecuteSequential(calls: seq<Failures.ToolCall>, tools: seq<ToolScript>)
      returns (outcomes: seq<CallOutcome>, results: seq<Failures.ToolResult>)
      requires Valid() && Charged() && summary.phase.InTurn? && summary.open == map[]
      requires |tools| >= |calls|
      modifies this`log, this`summary, this`callsStarted, this`aborted, this`accepted, this`ran, this`refused,
               gate.Controllers()`toolCalls
      ensures Valid() && Charged() && (old(aborted) ==> aborted)
      ensures |outcomes| <= |calls| && results == Results(calls, outcomes) && AllPossible(tools, outcomes)
      ensures |results| == |calls| || aborted
      ensures AllAnswered(old(summary), summary, results)
      ensures Accounts(old(ran), old(refused), ran, refused, aborted,
                       gate.Unlimited?, old(summary).started, outcomes)
      ensures InOrder(old(log), log) && (calls != [] ==> outcomes != [])
      ensures StopsAtAbort(tools, |outcomes|, old(aborted)) && (aborted ==> old(aborted) || SomeAborts(tools, |calls|))
    {
      hide Next, Summarize, GrewBy, Accounts, AllAnswered, Possible, ChargedTo, Valid, Results, InOrder, SomeAborts;
      outcomes, results := [], [];
      ghost var was, first := Before(ran, refused, summary.closed, log, aborted), summary;
      AllAnsweredNothing(summary);
      InOrderNothing(log);
      AccountsNothing(ran, refused, aborted, gate.Unlimited?, first.started);
      for i := 0 to |calls|
        invariant Valid() && Charged() && (old(aborted) ==> aborted)
        invariant i == |outcomes| && Sequenced(tools, calls, outcomes, results, first, was)
        invariant (aborted ==> i == 0) && forall j | 0 <= j < i :: !tools[j].abortedAfterwards
      {
        var outcome := RunNext(tools, calls, outcomes, results, first, was);
        outcomes, results := outcomes + [outcome], results + [ResultOf(calls[i], outcome)];
        AccountsAborted(was.ran, was.refused, ran, refused, aborted, gate.Unlimited?, first.started, outcomes);
        if tools[i].abortedAfterwards {
          AbortsAt(tools, |calls|, i);
        }
        Check(tools[i].abortedAfterwards);
        if aborted {
          break;
        }
      }
    }

    // -------------------------------------------------------------------------------------------------------------
    // Concurrently

    ghost predicate Marked(b: Batch, was: Before)
      reads this`ran, this`refused, this`aborted, this`summary
    {
      Marks(b, was, ran, refused, aborted, gate.Unlimited?) && KeepsClosed(was.closed, summary.closed, b.base)
    }

    /** A batch under way, as the trace, the budget and the fates of its calls have it. */
    ghost predicate Underway(tools: seq<ToolScript>, calls: seq<Failures.ToolCall>, b: Batch, was: Before)
      reads this`log, this`summary, this`callsStarted, this`accepted, this`ran, this`refused, this`aborted
    {
      && Valid() && Tracks(summary, calls, b) && Faithful(tools, b) && Marked(b, was)
      && accepted >= |ran| + |b.unbegun| && OnlyTools(was.log, log)
      && (aborted ==> was.aborted || SomeAborts(tools, |calls|))
    }

    /** A call is started, prepared and paid for. */
    method StartCall(id: string, script: ToolScript, ghost before: seq<Event>)
      returns (call: nat, immediate: Option<CallOutcome>)
      requires Valid() && Charged() && summary.phase.InTurn? && OnlyTools(before, log)
      modifies this`log, this`summary, this`callsStarted, this`aborted, this`accepted, this`refused,
               gate.Controllers()`toolCalls
      ensures Valid() && Charged() && (old(aborted) ==> aborted) && call == old(summary).started
      ensures aborted ==> old(aborted) || script.abortedWhilePreparing
      ensures summary == old(summary).(started := call + 1, open := old(summary).open[call := id])
      ensures accepted == old(accepted) + if immediate.None? then 1 else 0
      ensures immediate.None? ==> script.preparation.Accepted? && !aborted
      ensures immediate.Some? ==> Possible(script, immediate.value) && !immediate.value.fate.Ran?
                                  && (immediate.value.fate.AbortedFirst? ==> aborted)
      ensures refused == if immediate.Some? && immediate.value.fate.OverBudget? then old(refused) + {call}
                         else old(refused)
      ensures gate.Unlimited? && immediate.Some? ==> !immediate.value.fate.OverBudget?
      ensures OnlyTools(before, log)
    {
      hide Next, Summarize, Possible, ChargedTo, Valid, BudgetGate.AllowsToolCall, OnlyTools;
      if gate.Unlimited? {
        gate.UnlimitedAllows(script.readings);
      }
      OnlyToolsOneMore(before, log, ToolStart(summary.started, id));
      call := EmitToolStart(id);
      immediate := Admit(script, call);
    }

    /** Start, prepare and pay for one call of a concurrent batch; it ends at once or waits to begin. */
    method Launch(tools: seq<ToolScript>, calls: seq<Failures.ToolCall>, b: Batch, ghost was: Before)
      returns (after: Batch)
      requires Underway(tools, calls, b, was) && Charged() && b.count < |calls| <= |tools|
      modifies this`log, this`summary, this`callsStarted, this`aborted, this`accepted, this`refused,
               gate.Controllers()`toolCalls
      ensures Underway(tools, calls, after, was) && Charged() && (old(aborted) ==> aborted)
      ensures summary.ended == old(summary).ended && after.base == b.base && after.count == b.count + 1
    {
      hide Next, Summarize, Tracks, Faithful, Marks, ChargedTo, Valid, Possible, KeepsClosed, OnlyTools, SomeAborts;
      InATurn(summary, calls, b);
      var call, immediate := StartCall(calls[b.count].id, tools[b.count], was.log);
      if aborted && !old(aborted) {
        AbortsAt(tools, |calls|, b.count);
      }
      after := Place(call, immediate, tools, calls, b, was, old(summary), old(refused), old(aborted));
    }

    /** A call that has just been started ends at once if it has its outcome, and waits if it has none. */
    method Place(call: nat, immediate: Option<CallOutcome>, tools: seq<ToolScript>, calls: seq<Failures.ToolCall>,
                 b: Batch, ghost was: Before, ghost s: Summary, ghost refusedBefore: set<nat>,
                 ghost abortedBefore: bool)
      returns (after: Batch)
      requires Valid() && Tracks(s, calls, b) && Faithful(tools, b) && OnlyTools(was.log, log)
      requires b.count < |calls| <= |tools| && (abortedBefore ==> aborted) && KeepsClosed(was.closed, s.closed, b.base)
      requires aborted ==> was.aborted || SomeAborts(tools, |calls|)
      requires Marks(b, was, ran, refusedBefore, abortedBefore, gate.Unlimited?)
      requires accepted >= |ran| + |b.unbegun| + if immediate.None? then 1 else 0
      requires call == s.started
      requires summary == s.(started := call + 1, open := s.open[call := calls[b.count].id])
      requires immediate.None? ==> tools[b.count].preparation.Accepted?
      requires immediate.Some? ==>
                 && Possible(tools[b.count], immediate.value) && !immediate.value.fate.Ran?
                 && (immediate.value.fate.AbortedFirst? ==> aborted)
                 && (gate.Unlimited? ==> !immediate.value.fate.OverBudget?)
      requires refused == if immediate.Some? && immediate.value.fate.OverBudget? then refusedBefore + {call}
                          else refusedBefore
      modifies this`log, this`summary
      ensures Underway(tools, calls, after, was) && summary.ended == s.ended
      ensures after.base == b.base && after.count == b.count + 1
    {
      hide Next, Summarize, Tracks, Faithful, Marks, Valid, Possible, KeepsClosed, OnlyTools, SomeAborts;
      if immediate.Some? {
        LaunchDecided(tools, calls, s, b, was, immediate.value, ran, refusedBefore, refused, abortedBefore, aborted,
                      gate.Unlimited?);
        after := EndAtOnce(call, immediate.value, tools, calls, b, was, s);
      } else {
        LaunchWaits(tools, calls, s, b, was, ran, refused, abortedBefore, aborted, gate.Unlimited?);
        after := Wait(b);
      }
    }

    /** A call that has just been started and will not run ends at once. */
    method EndAtOnce(call: nat, outcome: CallOutcome, tools: seq<ToolScript>, calls: seq<Failures.ToolCall>, b: Batch,
                     ghost was: Before, ghost s: Summary)
      returns (after: Batch)
      requires Valid() && Tracks(s, calls, b) && b.count < |calls| && accepted >= |ran| + |b.unbegun|
      requires call == s.started
      requires summary == s.(started := call + 1, open := s.open[call := calls[b.count].id])
      requires Faithful(tools, Decide(b, outcome)) && KeepsClosed(was.closed, s.closed, b.base)
      requires Marks(Decide(b, outcome), was, ran, refused, aborted, gate.Unlimited?) && OnlyTools(was.log, log)
      requires aborted ==> was.aborted || SomeAborts(tools, |calls|)
      modifies this`log, this`summary
      ensures Underway(tools, calls, after, was) && after == Decide(b, outcome) && summary.ended == s.ended
    {
      hide Next, Summarize, Tracks, Faithful, Marks, Valid, OnlyTools, SomeAborts;
      NotOpenYet(s, calls, b);
      InATurn(s, calls, b);
      TracksDecided(s, calls, b, outcome);
      OnlyToolsOneMore(was.log, log, ToolEnd(call, calls[b.count].id, ResultOf(calls[b.count], outcome)));
      EmitToolEnd(call, calls[b.count].id, ResultOf(calls[b.count], outcome));
      assert s.open[call := calls[b.count].id] - {call} == s.open;
      after := Decide(b, outcome);
    }

    /** One action of a waiting or running call. An action of any other call is no action. */
    method Act(action: Action, tools: seq<ToolScript>, calls: seq<Failures.ToolCall>, b: Batch, ghost was: Before)
      returns (after: Batch)
      requires Underway(tools, calls, b, was)
      modifies this`log, this`summary, this`aborted, this`ran
      ensures Underway(tools, calls, after, was) && (old(aborted) ==> aborted)
      ensures summary.ended == old(summary).ended && after.base == b.base && after.count == b.count
    {
      hide Next, Summarize, Tracks, Faithful, Marks, Valid, OnlyTools, SomeAborts;
      after := b;
      match action
      case Begins(call) =>
        if call in b.unbegun {
          after := Begin(call, tools, calls, b, was);
        }
      case Reports(call) =>
        if call in b.running {
          HasIndex(summary, calls, b, call);
          OnlyToolsOneMore(was.log, log, ToolUpdate(call, calls[call - b.base].id));
          Report(call, calls, b);
        }
      case Finishes(call) =>
        if call in b.running {
          after := Complete(call, tools, calls, b, was);
        }
    }

    /** The body of a call begins to run. */
    ghost method Execute(call: nat)
      requires Valid() && |ran| < accepted && call < summary.started
      modifies this`ran
      ensures Valid() && ran == old(ran) + {call}
    {
      AtMostOneMore(ran, call);
      ran := ran + {call};
    }

    method Begin(call: nat, tools: seq<ToolScript>, calls: seq<Failures.ToolCall>, b: Batch, ghost was: Before)
      returns (after: Batch)
      requires Underway(tools, calls, b, was) && call in b.unbegun
      modifies this`log, this`summary, this`aborted, this`ran
      ensures Underway(tools, calls, after, was) && (old(aborted) ==> aborted)
      ensures summary.ended == old(summary).ended && after.base == b.base && after.count == b.count
      ensures after.unbegun == b.unbegun - {call}
      ensures after.running == if aborted then b.running - {call} else b.running + {call}
      ensures ran == if aborted then old(ran) else old(ran) + {call}
      ensures b.base <= call && call - b.base < |tools|
      ensures aborted == (old(aborted) || tools[call - b.base].abortedBeforeStart)
    {
      hide Next, Summarize, Underway, Tracks;
      var index := IndexOf(call, tools, calls, b, was);
      if tools[index].abortedBeforeStart {
        AbortsAt(tools, |calls|, index);
      }
      CheckUnderway(tools[index].abortedBeforeStart, tools, calls, b, was);
      if aborted {
        after := EndAborted(call, tools, calls, b, was);
      } else {
        BeginToRun(call, tools, calls, b, was);
        after := Run(b, call);
      }
    }

    method IndexOf(call: nat, tools: seq<ToolScript>, calls: seq<Failures.ToolCall>, b: Batch, ghost was: Before)
      returns (index: nat)
      requires Underway(tools, calls, b, was) && call in b.unbegun + b.running
      ensures index + b.base == call && index < |calls| && index < |tools|
    {
      HasIndex(summary, calls, b, call);
      FaithfulIndex(tools, b);
      hide Tracks, Faithful, Valid, Marked;
      index := call - b.base;
    }

    method CheckUnderway(nowAborted: bool, tools: seq<ToolScript>, calls: seq<Failures.ToolCall>, b: Batch,
                         ghost was: Before)
      requires Underway(tools, calls, b, was) && (nowAborted ==> SomeAborts(tools, |calls|))
      modifies this`aborted
      ensures Underway(tools, calls, b, was) && aborted == (old(aborted) || nowAborted)
    {
      hide Tracks, Faithful, Valid, Marks, OnlyTools, SomeAborts;
      MarksWait(b, was, ran, refused, aborted, gate.Unlimited?, aborted || nowAborted);
      Check(nowAborted);
    }

    method EndAborted(call: nat, tools: seq<ToolScript>, calls: seq<Failures.ToolCall>, b: Batch, ghost was: Before)
      returns (after: Batch)
      requires Underway(tools, calls, b, was) && call in b.unbegun && aborted
      modifies this`log, this`summary
      ensures Underway(tools, calls, after, was) && summary.ended == old(summary).ended
      ensures after == Finish(b, call, ABORTED)
    {
      hide Next, Summarize, Tracks, Faithful, Marks, Valid, OnlyTools, SomeAborts;
      HasIndex(summary, calls, b, call);
      FaithfulFinish(tools, b, call, ABORTED);
      after := End(call, ABORTED, tools, calls, b, was);
    }

    ghost method BeginToRun(call: nat, tools: seq<ToolScript>, calls: seq<Failures.ToolCall>, b: Batch, was: Before)
      requires Underway(tools, calls, b, was) && call in b.unbegun
      modifies this`ran
      ensures Underway(tools, calls, Run(b, call), was) && ran == old(ran) + {call}
    {
      hide Next, Summarize, Tracks, Faithful, Marks, Valid, OnlyTools, SomeAborts;
      HasIndex(summary, calls, b, call);
      InATurn(summary, calls, b);
      TracksRun(summary, calls, b, call);
      FaithfulRun(tools, b, call);
      MarksRun(b, was, ran, refused, aborted, gate.Unlimited?, call);
      OneFewer(ran, b.unbegun, call);
      Execute(call);
    }

    method Complete(call: nat, tools: seq<ToolScript>, calls: seq<Failures.ToolCall>, b: Batch, ghost was: Before)
      returns (after: Batch)
      requires Underway(tools, calls, b, was) && call in b.running
      modifies this`log, this`summary
      ensures Underway(tools, calls, after, was)
      ensures summary.ended == old(summary).ended && after.base == b.base && after.count == b.count
      ensures after.unbegun == b.unbegun - {call} && after.running == b.running - {call}
    {
      hide Next, Summarize, Tracks, Faithful, Marks, Valid, OnlyTools, SomeAborts;
      HasIndex(summary, calls, b, call);
      FaithfulIndex(tools, b);
      var outcome := CallOutcome(Ran, tools[call - b.base].outcome);
      FaithfulFinish(tools, b, call, outcome);
      after := End(call, outcome, tools, calls, b, was);
    }

    method Report(call: nat, calls: seq<Failures.ToolCall>, b: Batch)
      requires Valid() && Tracks(summary, calls, b) && call in b.running
      modifies this`log, this`summary
      ensures Valid() && summary == old(summary) && log == old(log) + [ToolUpdate(call, calls[call - b.base].id)]
    {
      EmitToolUpdate(call, calls[call - b.base].id);
    }

    method End(call: nat, outcome: CallOutcome, tools: seq<ToolScript>, calls: seq<Failures.ToolCall>, b: Batch,
               ghost was: Before)
      returns (after: Batch)
      requires Underway(tools, calls, b, was) && call in b.unbegun + b.running
      requires if call in b.running then outcome.fate.Ran? else outcome.fate.AbortedFirst? && aborted
      requires Faithful(tools, Finish(b, call, outcome))
      modifies this`log, this`summary
      ensures Underway(tools, calls, after, was) && summary.ended == old(summary).ended
      ensures after == Finish(b, call, outcome)
    {
      hide Next, Summarize, Tracks, Faithful, Marks, Valid, OnlyTools, SomeAborts;
      HasIndex(summary, calls, b, call);
      InATurn(summary, calls, b);
      OnlyToolsOneMore(was.log, log, ToolEnd(call, calls[call - b.base].id, ResultOf(calls[call - b.base], outcome)));
      TracksFinish(summary, calls, b, call, outcome);
      MarksFinish(b, was, ran, refused, aborted, gate.Unlimited?, call, outcome);
      FewerUnbegun(b, call);
      EmitToolEnd(call, calls[call - b.base].id, ResultOf(calls[call - b.base], outcome));
      after := Finish(b, call, outcome);
    }

    method EmptyBatch(ghost calls: seq<Failures.ToolCall>, ghost tools: seq<ToolScript>) returns (b: Batch)
      requires Valid() && summary.phase.InTurn? && summary.open == map[]
      ensures Underway(tools, calls, b, Before(ran, refused, summary.closed, log, aborted))
      ensures b.base == summary.started && b.count == 0
    {
      b := Batch(callsStarted, 0, map[], {}, {});
    }

    /** Start and prepare the calls in order, up to an abort. */
    method LaunchAll(calls: seq<Failures.ToolCall>, tools: seq<ToolScript>) returns (b: Batch)
      requires Valid() && Charged() && summary.phase.InTurn? && summary.open == map[]
      requires |tools| >= |calls|
      modifies this`log, this`summary, this`callsStarted, this`aborted, this`accepted, this`refused,
               gate.Controllers()`toolCalls
      ensures Underway(tools, calls, b,
                       Before(old(ran), old(refused), old(summary).closed, old(log), old(aborted)))
      ensures Charged()
      ensures (old(aborted) ==> aborted) && summary.ended == old(summary).ended
      ensures b.base == old(summary).started && b.count <= |calls| && (b.count == |calls| || aborted)
      ensures (calls != [] ==> b.count > 0) && StopsAtAbort(tools, b.count, old(aborted))
    {
      hide Next, Summarize, Underway, Valid, ChargedTo;
      ghost var was := Before(ran, refused, summary.closed, log, aborted);
      b := EmptyBatch(calls, tools);
      while b.count < |calls|
        invariant Underway(tools, calls, b, was) && Charged() && (old(aborted) ==> aborted)
        invariant summary.ended == old(summary).ended && b.base == old(summary).started && b.count <= |calls|
        invariant (aborted ==> b.count == 0) && forall j | 0 <= j < b.count :: !tools[j].abortedAfterwards
        decreases |calls| - b.count
      {
        var abortsAfterwards := tools[b.count].abortedAfterwards;
        if abortsAfterwards {
          AbortsAt(tools, |calls|, b.count);
        }
        b := Launch(tools, calls, b, was);
        CheckUnderway(abortsAfterwards, tools, calls, b, was);
        if aborted {
          break;
        }
      }
    }

    /** Let the calls act in the order of the schedule, and then let those that are left begin and finish. */
    method RunAll(schedule: seq<Action>, tools: seq<ToolScript>, calls: seq<Failures.ToolCall>, launched: Batch,
                  ghost was: Before)
      returns (b: Batch)
      requires Underway(tools, calls, launched, was)
      modifies this`log, this`summary, this`aborted, this`ran
      ensures Underway(tools, calls, b, was) && (old(aborted) ==> aborted) && summary.ended == old(summary).ended
      ensures b.base == launched.base && b.count == launched.count && b.unbegun == b.running == {}
    {
      hide Next, Summarize, Underway;
      b := launched;
      for k := 0 to |schedule|
        invariant Underway(tools, calls, b, was) && (old(aborted) ==> aborted) && summary.ended == old(summary).ended
        invariant b.base == launched.base && b.count == launched.count
      {
        b := Act(schedule[k], tools, calls, b, was);
      }
      while b.unbegun != {}
        invariant Underway(tools, calls, b, was) && (old(aborted) ==> aborted) && summary.ended == old(summary).ended
        invariant b.base == launched.base && b.count == launched.count
        decreases b.unbegun
      {
        var call :| call in b.unbegun;
        b := Begin(call, tools, calls, b, was);
      }
      while b.running != {}
        invariant Underway(tools, calls, b, was) && (old(aborted) ==> aborted) && summary.ended == old(summary).ended
        invariant b.base == launched.base && b.count == launched.count && b.unbegun == {}
        decreases b.running
      {
        var call :| call in b.running;
        b := Complete(call, tools, calls, b, was);
      }
    }

    method ExecuteParallel(calls: seq<Failures.ToolCall>, tools: seq<ToolScript>, schedule: seq<Action>)
      returns (outcomes: seq<CallOutcome>, results: seq<Failures.ToolResult>)
      requires Valid() && Charged() && summary.phase.InTurn? && summary.open == map[]
      requires |tools| >= |calls|
      modifies this`log, this`summary, this`callsStarted, this`aborted, this`accepted, this`ran, this`refused,
               gate.Controllers()`toolCalls
      ensures Valid() && Charged() && (old(aborted) ==> aborted)
      ensures |outcomes| <= |calls| && results == Results(calls, outcomes) && AllPossible(tools, outcomes)
      ensures |results| == |calls| || aborted
      ensures AllAnswered(old(summary), summary, results)
      ensures Accounts(old(ran), old(refused), ran, refused, aborted,
                       gate.Unlimited?, old(summary).started, outcomes)
      ensures old(log) <= log && CallsFirst(log[|old(log)|..]) && (calls != [] ==> outcomes != [])
      ensures StopsAtAbort(tools, |outcomes|, old(aborted)) && (aborted ==> old(aborted) || SomeAborts(tools, |calls|))
    {
      hide Next, Summarize, Tracks, Faithful, Marks, GrewBy, OnlyTools, CallsFirst, SomeAborts;
      ghost var was := Before(ran, refused, summary.closed, log, aborted);
      var b := LaunchAll(calls, tools);
      b := RunAll(schedule, tools, calls, b, was);
      AllDone(summary, calls, b);
      outcomes := Outcomes(b);
      FaithfulOutcomes(tools, b);
      MarksOutcomes(b, was, ran, refused, aborted, gate.Unlimited?);
      results := Results(calls, outcomes);
      ResultsClose(summary.closed, was.closed, calls, b);
      ghost var called := log;
      EmitMessages(EntriesOf(results));
      ToolsThenMessages(was.log, called, log);
    }

    /** What becomes of the calls of one message. Truncated calls and those of a sequential batch are made one at a
        time, the others together. */
    method ExecuteToolCalls(calls: seq<Failures.ToolCall>, truncated: bool, script: BatchScript)
      returns (outcomes: seq<CallOutcome>, results: seq<Failures.ToolResult>, terminate: bool)
      requires Valid() && Charged() && summary.phase.InTurn? && summary.open == map[]
      requires |script.tools| >= |calls|
      modifies this`log, this`summary, this`callsStarted, this`aborted, this`accepted, this`ran, this`refused,
               gate.Controllers()`toolCalls
      ensures Valid() && Charged() && (old(aborted) ==> aborted)
      ensures |outcomes| <= |calls| && results == Results(calls, outcomes) && terminate == AllTerminate(outcomes)
      ensures |results| == |calls| || aborted
      ensures if truncated then forall o | o in outcomes :: o == TRUNCATED else AllPossible(script.tools, outcomes)
      ensures calls != [] ==> outcomes != []
      ensures if truncated then |outcomes| == |calls| else StopsAtAbort(script.tools, |outcomes|, old(aborted))
      ensures aborted ==> old(aborted) || (!truncated && SomeAborts(script.tools, |calls|))
      ensures AllAnswered(old(summary), summary, results)
      ensures Accounts(old(ran), old(refused), ran, refused, aborted,
                       gate.Unlimited?, old(summary).started, outcomes)
      ensures old(log) <= log
      ensures if truncated || script.sequential then OneByOne(log[|old(log)|..]) else CallsFirst(log[|old(log)|..])
    {
      hide Next, Summarize, Valid, ChargedTo, AllPossible, AllAnswered, GrewBy, OneByOne, CallsFirst;
      ghost var base := summary.started;
      if truncated {
        outcomes, results := FailTruncated(calls);
        terminate := false;
        assert outcomes != [] ==> outcomes[0] in outcomes;
        NoneHad(ran, Ran, base, outcomes);
        NoneHad(refused, OverBudget, base, outcomes);
      } else {
        if script.sequential {
          outcomes, results := ExecuteSequential(calls, script.tools);
        } else {
          outcomes, results := ExecuteParallel(calls, script.tools, script.schedule);
        }
        terminate := AllTerminate(outcomes);
      }
    }
  }
}
