/** The loop of an agent run: turns of injecting messages, passing the budget gate, streaming an answer and running its
    tool calls, until nothing is left to do.

    The outside world is a script with one entry a turn. A script may be longer than the run needs; when it is shorter
    the run is left waiting, so that what holds of a waiting run holds at that point of every longer one. */
module AgentLoop {
  import opened Common
  import opened AgentTrace
  import opened PendingMessages
  import opened RunBudget
  import opened ToolBatch
  import Failures = RepeatedToolErrors

  /** Events of a response before its final message; only deltas can repeat. */
  datatype StreamEvent = Start(partial: Message) | Delta(partial: Message)

  datatype Decision = NoDecision | Continue | End

  /** What `prepareNextTurn` returns. */
  datatype Snapshot = Snapshot(context: Option<seq<Entry>>, messages: seq<Message>)

  /** The final message of a response. */
  datatype Answer = Answer(content: int, calls: seq<Failures.ToolCall>, stop: StopReason) {
    function Entry(): Entry {
      AgentTrace.Entry(Answered, Assistant(content, calls, stop))
    }
  }

  /** Everything the outside world does in one turn, in the order it is asked. */
  datatype TurnScript = TurnScript(
    snapshot: Option<Snapshot>,
    arrivalsWhilePreparing: seq<Message>,
    toolChanges: int,
    readings: Readings,
    abortedAtGate: bool,
    requestContext: Option<seq<Entry>>,
    events: seq<StreamEvent>,
    answer: Answer,
    abortedWhileStreaming: bool,
    batch: BatchScript,
    decision: Decision,
    stop: bool,
    steeringArrivals: seq<Message>,
    abortedAtPoll: bool,
    followUpArrivals: seq<Message>)
  {
    /** A response starts at most once, and the batch is scripted for every call. */
    ghost predicate Sound() {
      && (forall j, k | 0 <= j < k < |events| :: events[j].Start? ==> !events[k].Start?)
      && |batch.tools| >= |answer.calls|
    }

    /** The outside world aborts the run during this turn. */
    predicate Aborts() {
      abortedAtGate || abortedWhileStreaming || abortedAtPoll || SomeAborts(batch.tools, |answer.calls|)
    }

    /** The answer is an error, or was cut short by an abort. */
    predicate Failed() {
      answer.stop.ErrorStop? || answer.stop.AbortedStop?
    }
  }

  /** Why a turn is taken. */
  datatype Cause = Opening | Pending | FollowUp | Continuation

  datatype Result = Ended(ending: Ending) | Waiting

  function Tag(origin: Origin, messages: seq<Message>): (entries: seq<Entry>)
    ensures |entries| == |messages| && forall i | 0 <= i < |entries| :: entries[i].origin == origin
  {
    seq(|messages|, i requires 0 <= i < |messages| => Entry(origin, messages[i]))
  }

  lemma TagAppend(origin: Origin, a: seq<Message>, b: seq<Message>)
    ensures Tag(origin, a + b) == Tag(origin, a) + Tag(origin, b)
  {
  }

  predicate FromQueue(entry: Entry) {
    entry.origin.Steered? || entry.origin.FollowedUp?
  }

  /** Injecting moves the pending messages into the transcript: of any origin, the same ones in the same order. */
  lemma InjectingConserves(origins: set<Origin>, transcript: seq<Entry>, prepared: seq<Entry>, pending: seq<Entry>,
                           changes: int)
    requires Declared !in origins && forall e | e in prepared :: e.origin !in origins
    ensures From(origins, transcript + DeclareToolChanges(prepared + pending, changes))
            == From(origins, transcript + pending)
  {
    DeclaringKeepsMessages(prepared + pending, changes, origins);
    FromForeign(origins, prepared);
    FromAppend(origins, transcript, DeclareToolChanges(prepared + pending, changes));
    FromAppend(origins, prepared, pending);
    FromAppend(origins, transcript, pending);
  }

  /** And so they stay in the gap between two answers that they came in. */
  lemma InjectingKeepsGaps(transcript: seq<Entry>, prepared: seq<Entry>, pending: seq<Entry>, changes: int)
    requires (forall e | e in prepared :: e.origin.Prepared?) && (forall e | e in pending :: FromQueue(e))
    ensures Gaps(transcript + DeclareToolChanges(prepared + pending, changes)) == Gaps(transcript + pending)
  {
    var injected := DeclareToolChanges(prepared + pending, changes);
    InjectedFromQueues(prepared, pending, changes);
    hide From, DeclareToolChanges, SinceAnswer, BeforeAnswers;
    GapGrows(transcript, injected);
    GapGrows(transcript, pending);
  }

  lemma InjectedFromQueues(prepared: seq<Entry>, pending: seq<Entry>, changes: int)
    requires (forall e | e in prepared :: e.origin.Prepared?) && (forall e | e in pending :: FromQueue(e))
    ensures var injected := DeclareToolChanges(prepared + pending, changes);
            && From({Steered, FollowedUp}, injected) == From({Steered, FollowedUp}, pending)
            && forall e | e in injected :: !e.origin.Answered?
  {
    var injected := DeclareToolChanges(prepared + pending, changes);
    DeclaringKeepsMessages(prepared + pending, changes, {Steered, FollowedUp});
    FromForeign({Steered, FollowedUp}, prepared);
    FromAppend({Steered, FollowedUp}, prepared, pending);
    DeclaredOrigins(prepared + pending, changes, {Declared, Prepared, Steered, FollowedUp});
    hide From, DeclareToolChanges;
    assert [] + From({Steered, FollowedUp}, pending) == From({Steered, FollowedUp}, pending);
  }

  /** A context that a run, or a hook later on, was given, and how many new messages there were by then. */
  datatype Given = Given(context: seq<Entry>, since: nat, replaced: bool) {
    /** It has all the new messages since. */
    predicate Follows(context: seq<Entry>, newMessages: seq<Entry>) {
      since <= |newMessages| && context == this.context + newMessages[since..]
    }

    lemma FollowsMore(context: seq<Entry>, newMessages: seq<Entry>, more: seq<Entry>)
      requires Follows(context, newMessages)
      ensures Follows(context + more, newMessages + more)
    {
      assert (newMessages + more)[since..] == newMessages[since..] + more;
    }
  }

  /** The context of a turn as a hook may replace it while the turn is prepared, and before its request. */
  function Entered(context: seq<Entry>, t: TurnScript, later: bool): seq<Entry> {
    if later && t.snapshot.Some? && t.snapshot.value.context.Some? then t.snapshot.value.context.value else context
  }

  function Asked(context: seq<Entry>, t: TurnScript): seq<Entry> {
    if t.requestContext.Some? then t.requestContext.value else context
  }

  /** The context given last after so many turns. */
  function GivenAfter(base: seq<Entry>, scripts: seq<TurnScript>, turns: nat): seq<Entry>
    requires turns <= |scripts|
  {
    if turns == 0 then base
    else Asked(Entered(GivenAfter(base, scripts, turns - 1), scripts[turns - 1], turns > 1), scripts[turns - 1])
  }

  /** Draining moves messages from the queue to what is pending. */
  lemma DrainingConserves(origin: Origin, transcript: seq<Entry>, taken: seq<Message>, before: nat,
                          drained: seq<Message>)
    requires before <= |taken| && From({origin}, transcript) == From({origin}, Tag(origin, taken[before..]))
    ensures From({origin}, transcript + Tag(origin, drained))
            == From({origin}, Tag(origin, (taken + drained)[before..]))
  {
    FromAppend({origin}, transcript, Tag(origin, drained));
    assert (taken + drained)[before..] == taken[before..] + drained;
    TagAppend(origin, taken[before..], drained);
    FromAppend({origin}, Tag(origin, taken[before..]), Tag(origin, drained));
  }

  lemma NothingQueuedYet(initialMessages: seq<Entry>)
    requires forall e | e in initialMessages :: e.origin.Prompted? || e.origin.Declared?
    ensures From({Answered}, initialMessages) == From({Returned}, initialMessages) == []
    ensures forall origin | origin in {Steered, FollowedUp} ::
              From({origin}, initialMessages + []) == From({origin}, Tag(origin, [])) == []
    ensures Gaps(initialMessages + []) == [[]] && SinceAnswer(initialMessages) == [] && NonEmpty([[]]) == []
  {
    var none: seq<seq<Entry>> := [];
    NonEmptyOneMore(none, []);
    assert none + [[]] == [[]];
    assert initialMessages + [] == initialMessages && [] + initialMessages == initialMessages;
    FromForeign({Answered}, initialMessages);
    FromForeign({Returned}, initialMessages);
    FromForeign({Steered}, initialMessages);
    FromForeign({FollowedUp}, initialMessages);
    GapsStay([], initialMessages);
  }

  lemma OneMoreAnswer(before: seq<Entry>, answer: Answer)
    ensures |From({Answered}, before + [answer.Entry()])| == |From({Answered}, before)| + 1
    ensures forall origin | origin in {Returned, Steered, FollowedUp} ::
              From({origin}, before + [answer.Entry()]) == From({origin}, before)
              && From({origin}, (before + [answer.Entry()]) + []) == From({origin}, before + [])
    ensures Gaps(before + [answer.Entry()] + []) == Gaps(before + []) + [[]]
    ensures SinceAnswer(before + [answer.Entry()]) == []
  {
    assert (before + [answer.Entry()])[..|before|] == before;
    assert before + [] == before && (before + [answer.Entry()]) + [] == before + [answer.Entry()];
    AnswerOpensGap(before, answer.Entry());
  }

  /** The loop's own message after repeated failures. */
  const GIVEN_UP := Entry(GaveUp, Assistant(0, [], ErrorStop))

  lemma {:induction false} OnlyResults(results: seq<Failures.ToolResult>)
    ensures From({Returned}, EntriesOf(results)) == EntriesOf(results)
  {
    FromAll({Returned}, EntriesOf(results));
  }

  /** Entries that are neither answers nor from a queue change nothing for those that are. */
  lemma OthersKeep(before: seq<Entry>, others: seq<Entry>)
    requires forall e | e in others :: e.origin !in {Answered, Steered, FollowedUp}
    ensures forall origin | origin in {Answered, Steered, FollowedUp} ::
              From({origin}, before + others) == From({origin}, before)
              && From({origin}, (before + others) + []) == From({origin}, before + [])
    ensures Gaps(before + others + []) == Gaps(before + []) && SinceAnswer(before + others) == SinceAnswer(before)
  {
    assert before + [] == before && (before + others) + [] == before + others;
    FromUnaffected({Answered}, before, others);
    FromUnaffected({Steered}, before, others);
    FromUnaffected({FollowedUp}, before, others);
    GapsStay(before, others);
  }

  lemma ResultsKeepOthers(before: seq<Entry>, results: seq<Failures.ToolResult>)
    ensures forall origin | origin in {Answered, Steered, FollowedUp} ::
              From({origin}, before + EntriesOf(results)) == From({origin}, before)
              && From({origin}, (before + EntriesOf(results)) + []) == From({origin}, before + [])
    ensures Gaps(before + EntriesOf(results) + []) == Gaps(before + [])
    ensures SinceAnswer(before + EntriesOf(results)) == SinceAnswer(before)
    ensures From({Returned}, before + EntriesOf(results)) == From({Returned}, before) + EntriesOf(results)
  {
    OthersKeep(before, EntriesOf(results));
    FromAppend({Returned}, before, EntriesOf(results));
    OnlyResults(results);
  }

  lemma GivingUpKeepsOthers(before: seq<Entry>)
    ensures forall origin | origin in {Answered, Steered, FollowedUp} ::
              From({origin}, before + [GIVEN_UP]) == From({origin}, before)
              && From({origin}, (before + [GIVEN_UP]) + []) == From({origin}, before + [])
    ensures Gaps(before + [GIVEN_UP] + []) == Gaps(before + [])
    ensures From({Returned}, before + [GIVEN_UP]) == From({Returned}, before)
  {
    OthersKeep(before, [GIVEN_UP]);
    FromUnaffected({Returned}, before, [GIVEN_UP]);
  }

  // ---------------------------------------------------------------------------------------------------------------
  // What became of the calls

  /** What became of the calls of one answer: none is made if it failed, all are failed if it was cut off by the token
      limit, and otherwise at least one is made and each ends in a way that it may. */
  ghost predicate Executed(t: TurnScript, batch: seq<CallOutcome>) {
    && |batch| <= |t.answer.calls|
    && (batch == [] <==> t.answer.calls == [] || t.Failed())
    && if t.answer.stop.Length? then |batch| == |t.answer.calls| && forall o | o in batch :: o == TRUNCATED
       else AllPossible(t.batch.tools, batch)
  }

  /** The answer has calls that call for another request: it was cut off, or some call of its batch does not ask for the
      batch to be the last. */
  predicate CallsForMore(t: TurnScript, batch: seq<CallOutcome>) {
    && t.answer.calls != []
    && (t.answer.stop.Length?
        || exists i | 0 <= i < |batch| && i < |t.batch.tools| :: !AsksToEnd(t.batch.tools[i], batch[i].fate))
  }

  lemma TerminatingBatch(t: TurnScript, batch: seq<CallOutcome>)
    requires Executed(t, batch) && !t.Failed() && t.answer.calls != []
    ensures CallsForMore(t, batch) <==> !AllTerminate(batch)
  {
    if t.answer.stop.Length? {
      assert batch[0] in batch;
    } else {
      forall i | 0 <= i < |batch|
        ensures batch[i] in batch && (batch[i].final.terminate <==> AsksToEnd(t.batch.tools[i], batch[i].fate))
      {
        WhoAsksToEnd(t.batch.tools[i], batch[i]);
      }
    }
  }

  /** One turn's calls, by what the trace and the books were before them and are now. All of them are made unless the
      run is aborted. */
  ghost predicate Made(t: TurnScript, batch: seq<CallOutcome>, s: Summary, ran: set<nat>, refused: set<nat>,
                       now: Summary, nowRan: set<nat>, nowRefused: set<nat>, aborted: bool, unlimited: bool) {
    && Executed(t, batch) && (|batch| == |t.answer.calls| || t.Failed() || aborted)
    && now.started == s.started + |batch|
    && Closes(s.closed, now.closed, s.started, Results(t.answer.calls, batch))
    && Accounts(ran, refused, nowRan, nowRefused, aborted, unlimited, s.started, batch)
  }

  lemma MadeNothing(t: TurnScript, s: Summary, now: Summary, ran: set<nat>, refused: set<nat>, aborted: bool,
                    unlimited: bool)
    requires (t.answer.calls == [] || t.Failed()) && SameCalls(s, now)
    ensures Made(t, [], s, ran, refused, now, ran, refused, aborted, unlimited)
  {
    AccountsNothing(ran, refused, aborted, unlimited, s.started);
  }

  predicate SameCalls(s: Summary, t: Summary) {
    t.started == s.started && t.closed == s.closed
  }

  /** It stays so when the run is aborted later, and the trace goes on. */
  lemma MadeStill(t: TurnScript, batch: seq<CallOutcome>, s: Summary, ran: set<nat>, refused: set<nat>,
                  now: Summary, nowRan: set<nat>, nowRefused: set<nat>, aborted: bool, unlimited: bool,
                  later: Summary, laterAborted: bool)
    requires Made(t, batch, s, ran, refused, now, nowRan, nowRefused, aborted, unlimited)
    requires SameCalls(now, later) && (aborted ==> laterAborted)
    ensures Made(t, batch, s, ran, refused, later, nowRan, nowRefused, laterAborted, unlimited)
  {
    AccountsAborted(ran, refused, nowRan, nowRefused, aborted, unlimited, s.started, batch);
  }

  /** The outcomes of several batches, one after the other. */
  function Flat(batches: seq<seq<CallOutcome>>): seq<CallOutcome> {
    if batches == [] then [] else Flat(batches[..|batches| - 1]) + batches[|batches| - 1]
  }

  /** And the results that they give. */
  function AllResults(scripts: seq<TurnScript>, batches: seq<seq<CallOutcome>>): (results: seq<Failures.ToolResult>)
    requires |batches| <= |scripts| && forall k | 0 <= k < |batches| :: |batches[k]| <= |scripts[k].answer.calls|
    ensures |results| == |Flat(batches)|
  {
    if batches == [] then []
    else
      var front, last := batches[..|batches| - 1], |batches| - 1;
      AllResults(scripts, front) + Results(scripts[last].answer.calls, batches[last])
  }

  /** The calls of a whole run: each answer's are made as one batch, the calls that ran and those that the budget
      refused are known by their numbers, and the trace ends each call with its own result. */
  ghost predicate Accounted(scripts: seq<TurnScript>, batches: seq<seq<CallOutcome>>, s: Summary, ran: set<nat>,
                            refused: set<nat>, aborted: bool, unlimited: bool) {
    && |batches| <= |scripts|
    && (forall k | 0 <= k < |batches| ::
          && Executed(scripts[k], batches[k])
          && (|batches[k]| == |scripts[k].answer.calls| || scripts[k].Failed() || aborted))
    && s.started == |Flat(batches)| && Closes(map[], s.closed, 0, AllResults(scripts, batches))
    && Accounts({}, {}, ran, refused, aborted, unlimited, 0, Flat(batches))
  }

  lemma NothingAccounted(scripts: seq<TurnScript>, s: Summary, aborted: bool, unlimited: bool)
    requires SameCalls(Nothing, s)
    ensures Accounted(scripts, [], s, {}, {}, aborted, unlimited)
  {
    AccountsNothing({}, {}, aborted, unlimited, 0);
  }

  lemma AccountedStill(scripts: seq<TurnScript>, batches: seq<seq<CallOutcome>>, s: Summary, ran: set<nat>,
                       refused: set<nat>, aborted: bool, unlimited: bool, now: Summary, nowAborted: bool)
    requires Accounted(scripts, batches, s, ran, refused, aborted, unlimited)
    requires SameCalls(s, now) && (aborted ==> nowAborted)
    ensures Accounted(scripts, batches, now, ran, refused, nowAborted, unlimited)
  {
    hide Executed, Closes;
    AccountsAborted({}, {}, ran, refused, aborted, unlimited, 0, Flat(batches));
  }

  /** One more turn's calls. */
  lemma AccountedOneMore(scripts: seq<TurnScript>, batches: seq<seq<CallOutcome>>, batch: seq<CallOutcome>,
                         s: Summary, ran: set<nat>, refused: set<nat>, aborted: bool, unlimited: bool,
                         now: Summary, nowRan: set<nat>, nowRefused: set<nat>, nowAborted: bool)
    requires Accounted(scripts, batches, s, ran, refused, aborted, unlimited) && |batches| < |scripts|
    requires Made(scripts[|batches|], batch, s, ran, refused, now, nowRan, nowRefused, nowAborted, unlimited)
    requires aborted ==> nowAborted
    ensures Accounted(scripts, batches + [batch], now, nowRan, nowRefused, nowAborted, unlimited)
  {
    hide Accounts, Closes, AllPossible, Results;
    var more := batches + [batch];
    assert more[..|batches|] == batches;
    forall k | 0 <= k < |more|
      ensures Executed(scripts[k], more[k])
      ensures |more[k]| == |scripts[k].answer.calls| || scripts[k].Failed() || nowAborted
    {
      assert k < |batches| ==> Executed(scripts[k], batches[k]);
    }
    AccountsMore({}, {}, ran, refused, aborted, unlimited, 0, Flat(batches), nowRan, nowRefused, nowAborted, batch);
    ClosesMore(map[], s.closed, now.closed, 0, AllResults(scripts, batches),
               Results(scripts[|batches|].answer.calls, batch));
  }

  // ---------------------------------------------------------------------------------------------------------------
  // Scheduling

  /** What a completed turn leaves to be done: more tool calls, and the steering or follow-up messages that are polled
      for it. */
  datatype Left = Left(toolCalls: bool, steering: nat, followUps: nat)

  /** Why a turn is taken: the first because the run begins; after a turn that left tool calls or steering, to serve
      them; after one that left neither, for follow-ups; and for a continuation that was asked for only after one that
      left nothing at all. */
  predicate Warranted(cause: Cause, turn: nat, lefts: seq<Left>, scripts: seq<TurnScript>) {
    if turn == 0 then cause.Opening?
    else
      && turn <= |lefts| && turn <= |scripts|
      && var left := lefts[turn - 1];
         match cause
         case Opening => false
         case Pending => left.toolCalls || left.steering > 0
         case FollowUp => !left.toolCalls && left.steering == 0 && left.followUps > 0
         case Continuation => left == Left(false, 0, 0) && scripts[turn - 1].decision.Continue?
  }

  ghost predicate Justified(causes: seq<Cause>, lefts: seq<Left>, scripts: seq<TurnScript>) {
    forall k | 0 <= k < |causes| :: Warranted(causes[k], k, lefts, scripts)
  }

  /** What a turn after which the run goes on has left: it was a good one, nobody stopped the run, and it left tool
      calls exactly if its answer calls for another request. */
  ghost predicate GoesOn(t: TurnScript, batch: seq<CallOutcome>, left: Left) {
    && !t.Failed() && !t.decision.End? && !t.stop
    && (left.toolCalls <==> CallsForMore(t, batch))
  }

  /** Turns are taken for the reasons there are, and for no other. */
  ghost predicate Scheduled(causes: seq<Cause>, lefts: seq<Left>, scripts: seq<TurnScript>,
                            batches: seq<seq<CallOutcome>>) {
    && |lefts| <= |batches| <= |scripts| && Justified(causes, lefts, scripts)
    && forall k | 0 <= k < |lefts| :: GoesOn(scripts[k], batches[k], lefts[k])
  }

  lemma NothingScheduled(scripts: seq<TurnScript>)
    ensures Scheduled([], [], scripts, []) && Warranted(Opening, 0, [], scripts)
  {
  }

  /** A turn that has a reason is taken. */
  lemma TurnTaken(causes: seq<Cause>, lefts: seq<Left>, scripts: seq<TurnScript>, batches: seq<seq<CallOutcome>>,
                  cause: Cause)
    requires Scheduled(causes, lefts, scripts, batches) && Warranted(cause, |causes|, lefts, scripts)
    ensures Scheduled(causes + [cause], lefts, scripts, batches)
  {
    hide Warranted, GoesOn;
  }

  lemma BatchMade(causes: seq<Cause>, lefts: seq<Left>, scripts: seq<TurnScript>, batches: seq<seq<CallOutcome>>,
                  batch: seq<CallOutcome>)
    requires Scheduled(causes, lefts, scripts, batches) && |batches| < |scripts|
    ensures Scheduled(causes, lefts, scripts, batches + [batch])
  {
    hide Warranted, GoesOn;
    forall k | 0 <= k < |lefts|
      ensures GoesOn(scripts[k], (batches + [batch])[k], lefts[k])
    {
      assert GoesOn(scripts[k], batches[k], lefts[k]);
    }
  }

  /** What it leaves is a reason for the turn after it. */
  lemma TurnLeft(causes: seq<Cause>, lefts: seq<Left>, scripts: seq<TurnScript>, batches: seq<seq<CallOutcome>>,
                 left: Left)
    requires Scheduled(causes, lefts, scripts, batches) && |causes| == |lefts| + 1 == |batches|
    requires GoesOn(scripts[|lefts|], batches[|lefts|], left)
    ensures Scheduled(causes, lefts + [left], scripts, batches)
    ensures left.toolCalls || left.steering > 0 ==> Warranted(Pending, |causes|, lefts + [left], scripts)
  {
    hide GoesOn;
    forall k | 0 <= k < |causes|
      ensures Warranted(causes[k], k, lefts + [left], scripts)
    {
      assert Warranted(causes[k], k, lefts, scripts);
    }
  }

  /** So are the follow-ups polled for when it left nothing, and the continuation when there are none. */
  lemma FollowUpsLeft(causes: seq<Cause>, lefts: seq<Left>, scripts: seq<TurnScript>, batches: seq<seq<CallOutcome>>,
                      count: nat)
    requires Scheduled(causes, lefts, scripts, batches) && |causes| == |lefts| > 0
    requires lefts[|lefts| - 1] == Left(false, 0, 0)
    ensures var after := lefts[|lefts| - 1 := Left(false, 0, count)];
            && Scheduled(causes, after, scripts, batches)
            && (count > 0 ==> Warranted(FollowUp, |causes|, after, scripts))
            && (count == 0 && scripts[|lefts| - 1].decision.Continue? ==>
                  Warranted(Continuation, |causes|, after, scripts))
  {
    var after := lefts[|lefts| - 1 := Left(false, 0, count)];
    forall k | 0 <= k < |causes|
      ensures Warranted(causes[k], k, after, scripts)
    {
      assert Warranted(causes[k], k, lefts, scripts);
    }
    forall k | 0 <= k < |lefts|
      ensures GoesOn(scripts[k], batches[k], after[k])
    {
      assert GoesOn(scripts[k], batches[k], lefts[k]);
    }
  }

  /** The outside world has aborted the run in one of the turns begun. */
  predicate WasAborted(scripts: seq<TurnScript>, turns: nat) {
    exists k | 0 <= k < turns && k < |scripts| :: scripts[k].Aborts()
  }

  lemma AbortedAt(scripts: seq<TurnScript>, turns: nat, k: nat)
    requires k < turns && k < |scripts| && scripts[k].Aborts()
    ensures WasAborted(scripts, turns)
  {
  }

  lemma AbortedEarlier(scripts: seq<TurnScript>, turns: nat, more: nat)
    requires WasAborted(scripts, turns) && turns <= more
    ensures WasAborted(scripts, more)
  {
  }

  /** How a run ends with a turn that was completed, for the reason that the turn gives; a run that has been aborted
      does not end as failed. */
  predicate EndsAs(t: TurnScript, ending: Ending) {
    if t.Failed() then
      ending.Aborted? || (ending.Failed? && t.answer.stop.ErrorStop? && !t.abortedWhileStreaming)
    else if t.decision.End? || t.stop then ending.Completed?
    else ending.Failed? && !t.abortedWhileStreaming && !t.abortedAtPoll
  }

  /** And with a turn that the budget gate refused. */
  predicate RefusedAs(t: TurnScript, ending: Ending) {
    ending.Aborted? || (ending.BudgetExhausted? && !t.abortedAtGate)
  }

  /** The transcript shows what a turn left: as much, and of that queue, comes before the next answer. */
  predicate LeftShows(left: Left, gap: seq<Entry>) {
    && (left.steering > 0 ==> |gap| == left.steering && forall e | e in gap :: e.origin.Steered?)
    && (left.followUps > 0 ==> |gap| == left.followUps && forall e | e in gap :: e.origin.FollowedUp?)
  }

  ghost predicate LeftsShow(lefts: seq<Left>, gaps: seq<seq<Entry>>) {
    |lefts| < |gaps| && forall k | 0 <= k < |lefts| :: LeftShows(lefts[k], gaps[k + 1])
  }

  /** One poll of one queue: not empty, and a single message in one-at-a-time mode. */
  predicate OnePoll(poll: seq<Entry>, steeringOneAtATime: bool, followUpsOneAtATime: bool) {
    && poll != []
    && ((forall e | e in poll :: e.origin.Steered?) || (forall e | e in poll :: e.origin.FollowedUp?))
    && (poll[0].origin.Steered? && steeringOneAtATime ==> |poll| == 1)
    && (poll[0].origin.FollowedUp? && followUpsOneAtATime ==> |poll| == 1)
  }

  /** Between two answers there is nothing from the queues but one poll of one of them, and there are no other polls. */
  ghost predicate Polled(polls: seq<seq<Entry>>, gaps: seq<seq<Entry>>, steeringOneAtATime: bool,
                         followUpsOneAtATime: bool) {
    && NonEmpty(gaps) == polls
    && forall poll | poll in polls :: OnePoll(poll, steeringOneAtATime, followUpsOneAtATime)
  }

  /** A poll fills the gap that is open. */
  lemma PollFills(transcript: seq<Entry>, polls: seq<seq<Entry>>, lefts: seq<Left>, origin: Origin,
                  drained: seq<Message>, steering: bool, followUps: bool)
    requires SinceAnswer(transcript) == [] && origin in {Steered, FollowedUp}
    requires Polled(polls, Gaps(transcript + []), steering, followUps) && LeftsShow(lefts, Gaps(transcript + []))
    requires (if origin.Steered? then steering else followUps) ==> |drained| <= 1
    ensures var poll := From({Steered, FollowedUp}, Tag(origin, drained));
            && |poll| == |drained|
            && Polled(polls + if drained == [] then [] else [poll], Gaps(transcript + Tag(origin, drained)),
                      steering, followUps)
            && LeftsShow(lefts, Gaps(transcript + Tag(origin, drained)))
            && |Gaps(transcript + Tag(origin, drained))[0]|
               == if From({Answered}, transcript) == [] then |drained| else |Gaps(transcript + [])[0]|
  {
    hide From, SinceAnswer, BeforeAnswers, LeftsShow, OnePoll, Polled, Gaps, Tag;
    AnswersAndGaps(transcript + []);
    assert transcript + [] == transcript;
    var pending := Tag(origin, drained);
    var poll := From({Steered, FollowedUp}, pending);
    FromAll({Steered, FollowedUp}, pending);
    PollOpens(transcript, pending);
    var closed := BeforeAnswers(transcript);
    if drained != [] {
      PollIsOne(pending, poll, origin, steering, followUps);
    }
    PolledOneMore(polls, closed, poll, steering, followUps);
    NothingShownYet(lefts, closed, poll);
  }

  lemma PollOpens(transcript: seq<Entry>, pending: seq<Entry>)
    requires SinceAnswer(transcript) == [] && forall e | e in pending :: !e.origin.Answered?
    ensures Gaps(transcript + []) == BeforeAnswers(transcript) + [[]]
    ensures Gaps(transcript + pending) == BeforeAnswers(transcript) + [From({Steered, FollowedUp}, pending)]
  {
    assert transcript + [] == transcript;
    GapGrows(transcript, pending);
    hide From, SinceAnswer, BeforeAnswers;
    assert [] + From({Steered, FollowedUp}, pending) == From({Steered, FollowedUp}, pending);
  }

  lemma PolledOneMore(polls: seq<seq<Entry>>, closed: seq<seq<Entry>>, poll: seq<Entry>, steering: bool,
                      followUps: bool)
    requires Polled(polls, closed + [[]], steering, followUps)
    requires poll != [] ==> OnePoll(poll, steering, followUps)
    ensures Polled(polls + if poll == [] then [] else [poll], closed + [poll], steering, followUps)
  {
    NonEmptyOneMore(closed, []);
    NonEmptyOneMore(closed, poll);
    hide OnePoll, NonEmpty;
  }

  lemma PollIsOne(pending: seq<Entry>, poll: seq<Entry>, origin: Origin, steering: bool, followUps: bool)
    requires pending != [] && |poll| == |pending| && origin in {Steered, FollowedUp}
    requires forall i | 0 <= i < |pending| :: pending[i].origin == origin && poll[i] == Erase(pending[i])
    requires (if origin.Steered? then steering else followUps) ==> |pending| <= 1
    ensures OnePoll(poll, steering, followUps)
  {
    forall e | e in poll
      ensures e.origin == origin
    {
      var i :| 0 <= i < |poll| && poll[i] == e;
      assert e == Erase(pending[i]);
    }
    assert poll[0] in poll;
  }

  lemma NothingShownYet(lefts: seq<Left>, closed: seq<seq<Entry>>, poll: seq<Entry>)
    requires LeftsShow(lefts, closed + [[]])
    ensures LeftsShow(lefts, closed + [poll])
  {
    forall k | 0 <= k < |lefts|
      ensures LeftShows(lefts[k], (closed + [poll])[k + 1])
    {
      assert LeftShows(lefts[k], (closed + [[]])[k + 1]);
    }
  }

  /** What is pending is the open gap when nothing has come since the last answer. */
  lemma OpenGap(transcript: seq<Entry>, pending: seq<Entry>)
    requires SinceAnswer(transcript) == [] && forall e | e in pending :: FromQueue(e)
    ensures var gaps := Gaps(transcript + pending);
            && |gaps| == |From({Answered}, transcript)| + 1
            && |gaps[|gaps| - 1]| == |pending|
            && ((forall e | e in pending :: e.origin.Steered?) ==>
                  forall e | e in gaps[|gaps| - 1] :: e.origin.Steered?)
            && ((forall e | e in pending :: e.origin.FollowedUp?) ==>
                  forall e | e in gaps[|gaps| - 1] :: e.origin.FollowedUp?)
  {
    hide From, SinceAnswer, BeforeAnswers;
    PollOpens(transcript, pending);
    AnswersAndGaps(transcript + pending);
    FromUnaffected({Answered}, transcript, pending);
    SameOrigins({Steered, FollowedUp}, pending);
  }

  lemma SameOrigins(origins: set<Origin>, entries: seq<Entry>)
    requires forall e | e in entries :: e.origin in origins
    ensures var from := From(origins, entries);
            && |from| == |entries|
            && ((forall e | e in entries :: e.origin.Steered?) ==> forall e | e in from :: e.origin.Steered?)
            && ((forall e | e in entries :: e.origin.FollowedUp?) ==> forall e | e in from :: e.origin.FollowedUp?)
  {
    FromAll(origins, entries);
    hide From;
    var from := From(origins, entries);
    forall i | 0 <= i < |from|
      ensures entries[i] in entries && from[i].origin == entries[i].origin
    {
      assert from[i] == Erase(entries[i]);
    }
  }

  lemma LeavesShown(lefts: seq<Left>, gaps: seq<seq<Entry>>, left: Left)
    requires LeftsShow(lefts, gaps) && |lefts| + 1 < |gaps| && LeftShows(left, gaps[|lefts| + 1])
    ensures LeftsShow(lefts + [left], gaps)
  {
  }

  lemma FollowUpsShown(lefts: seq<Left>, gaps: seq<seq<Entry>>, count: nat)
    requires LeftsShow(lefts, gaps) && lefts != [] && |lefts| + 1 == |gaps|
    requires LeftShows(Left(false, 0, count), gaps[|lefts|])
    ensures LeftsShow(lefts[|lefts| - 1 := Left(false, 0, count)], gaps)
  {
  }

  /** An answer closes the open gap and opens an empty one. */
  lemma AnswerKeepsPolls(polls: seq<seq<Entry>>, lefts: seq<Left>, gaps: seq<seq<Entry>>, steering: bool,
                         followUps: bool)
    requires Polled(polls, gaps, steering, followUps) && LeftsShow(lefts, gaps)
    ensures Polled(polls, gaps + [[]], steering, followUps) && LeftsShow(lefts, gaps + [[]])
  {
    NonEmptyOneMore(gaps, []);
    hide LeftShows, NonEmpty;
    forall k | 0 <= k < |lefts|
      ensures LeftShows(lefts[k], (gaps + [[]])[k + 1])
    {
      assert LeftShows(lefts[k], gaps[k + 1]);
    }
  }

  /** The result messages of a transcript are the results with which the calls ended, in the order of the calls. */
  ghost predicate Returns(transcript: seq<Entry>, started: nat, closed: map<nat, Failures.ToolResult>) {
    var returned := From({Returned}, transcript);
    && |returned| == started
    && forall n | 0 <= n < started :: n in closed && returned[n] == EntryOf(closed[n])
  }

  lemma ReturnsMore(before: seq<Entry>, after: seq<Entry>, s: Summary, t: Summary, results: seq<Failures.ToolResult>)
    requires Returns(before, s.started, s.closed) && AllAnswered(s, t, results)
    requires From({Returned}, after) == From({Returned}, before) + EntriesOf(results)
    ensures Returns(after, t.started, t.closed)
  {
    hide From;
  }

  lemma AllAnsweredCalls(s: Summary, t: Summary, results: seq<Failures.ToolResult>)
    requires AllAnswered(s, t, results)
    ensures t.started == s.started + |results| && Closes(s.closed, t.closed, s.started, results)
  {
  }

  lemma NoCalls(t: TurnScript, s: Summary, log: seq<Event>)
    requires t.answer.calls == []
    ensures Results(t.answer.calls, []) == [] && !CallsForMore(t, []) && AllAnswered(s, s, [])
    ensures OneByOne(log[|log|..]) && CallsFirst(log[|log|..])
  {
    AllAnsweredNothing(s);
  }

  class AgentRun {
    const emitter: Emitter
    const steering: PendingMessageQueue
    const followUps: PendingMessageQueue
    const tracker: Failures.RepeatedToolErrors
    var context: seq<Entry>
    var newMessages: seq<Entry>
    var pending: seq<Entry>
    var hasMoreToolCalls: bool
    var explicitContinuation: bool
    var hasCompletedTurn: bool
    /** The context the run was given and the messages it added to begin with, and the context that it was given last.
        */
    ghost const base: seq<Entry>
    ghost const initial: seq<Entry>
    ghost var given: Given
    /** How much had been taken out of each queue before the run. */
    ghost const steeringBefore: nat
    ghost const followUpsBefore: nat
    /** Every poll of a queue that gave something, in order. */
    ghost var polls: seq<seq<Entry>>
    /** How many messages the poll before the first turn gave. */
    ghost var opening: nat
    /** Why each turn was taken, and what each turn after which the run went on had left to be done. */
    ghost var causes: seq<Cause>
    ghost var lefts: seq<Left>
    /** What became of the calls of each answer. */
    ghost var batches: seq<seq<CallOutcome>>

    constructor (gate: BudgetGate, steering: PendingMessageQueue, followUps: PendingMessageQueue, context: seq<Entry>,
                 initialMessages: seq<Entry>)
      requires gate.Sound() && forall c | c in gate.Controllers() :: c.State().WithinLimits()
      requires steering.Valid() && followUps.Valid() && steering != followUps
      ensures this.steering == steering && this.followUps == followUps && emitter.gate == gate
      ensures fresh(emitter) && fresh(tracker)
      ensures base == context && initial == initialMessages
      ensures this.context == context + initialMessages && newMessages == initialMessages
      ensures steeringBefore == |steering.taken| && followUpsBefore == |followUps.taken|
      ensures Sound() && pending == [] && given == Given(context, 0, false)
      ensures !hasCompletedTurn && !explicitContinuation
      ensures emitter.Charged() && emitter.requested == 0 && !emitter.aborted
      ensures causes == [] && lefts == [] && polls == [] && batches == [] && opening == 0
      ensures emitter.summary == Nothing && emitter.ran == emitter.refused == {}
      ensures forall c | c in gate.Controllers() ::
                && c in emitter.requestsBefore && emitter.requestsBefore[c] == c.providerRequests
                && c in emitter.toolCallsBefore && emitter.toolCallsBefore[c] == c.toolCalls
    {
      hide Next, Summarize, From;
      emitter := new Emitter(gate);
      tracker := new Failures.RepeatedToolErrors();
      this.steering, this.followUps := steering, followUps;
      this.context, newMessages, pending := context + initialMessages, initialMessages, [];
      hasMoreToolCalls, explicitContinuation, hasCompletedTurn := true, false, false;
      base, initial, given := context, initialMessages, Given(context, 0, false);
      polls, causes, lefts, batches := [], [], [], [];
      steeringBefore, followUpsBefore, opening := |steering.taken|, |followUps.taken|, 0;
    }

    /** The opening events of a run, with its first turn. */
    method Open()
      requires Sound() && emitter.summary == Nothing && emitter.requested == 0
      requires pending == [] && polls == [] && lefts == [] && !hasCompletedTurn && opening == 0
      requires given == Given(base, 0, false)
      requires context == base + newMessages
      requires steeringBefore == |steering.taken| && followUpsBefore == |followUps.taken|
      requires initial == newMessages && forall e | e in newMessages :: e.origin.Prompted? || e.origin.Declared?
      modifies emitter`log, emitter`summary
      ensures Sound() && Agrees() && Conserves() && Ready() && SameCalls(Nothing, emitter.summary)
    {
      hide Next, Summarize, From, BeforeAnswers, SinceAnswer;
      emitter.BeginRun();
      emitter.EmitMessages(newMessages);
      NothingQueuedYet(newMessages);
      assert steering.taken[steeringBefore..] == [] && followUps.taken[followUpsBefore..] == [];
    }

    ghost predicate Sound()
      reads emitter`log, emitter`summary, emitter`callsStarted, emitter`accepted, emitter`ran, emitter`refused
      reads steering, followUps, tracker
    {
      && emitter.Valid() && tracker.Valid() && steering.Valid() && followUps.Valid() && steering != followUps
      && steeringBefore <= |steering.taken| && followUpsBefore <= |followUps.taken|
    }

    /** The transcript is the same everywhere, has one answer for every request, and has the results with which the
        calls ended, in the order of the calls. */
    ghost predicate Agrees()
      reads this`context, this`newMessages, this`given, emitter`summary, emitter`requested
    {
      && newMessages == emitter.summary.ended && initial <= newMessages
      && ContextRight()
      && |From({Answered}, newMessages)| == emitter.requested
      && Returns(newMessages, emitter.summary.started, emitter.summary.closed)
    }

    /** The context is the one given last with all the new messages since. */
    ghost predicate ContextRight()
      reads this`context, this`newMessages, this`given
    {
      given.Follows(context, newMessages) && (!given.replaced ==> given == Given(base, 0, false))
    }

    lemma OneAnswerEach()
      requires Agrees()
      ensures |From({Answered}, newMessages)| == emitter.requested
    {
    }

    /** What the run took out of its queues is in the transcript or about to be, once each and in order; between two
        answers there is one poll of it at most, and before the first answer the one before the first turn. */
    ghost predicate Conserves()
      reads this`newMessages, this`pending, this`polls, this`lefts, this`opening, steering`taken, followUps`taken
      reads steering`oneAtATime, followUps`oneAtATime
    {
      && steeringBefore <= |steering.taken| && followUpsBefore <= |followUps.taken|
      && (forall e | e in pending :: FromQueue(e))
      && From({Steered}, newMessages + pending) == From({Steered}, Tag(Steered, steering.taken[steeringBefore..]))
      && From({FollowedUp}, newMessages + pending)
         == From({FollowedUp}, Tag(FollowedUp, followUps.taken[followUpsBefore..]))
      && Polled(polls, Gaps(newMessages + pending), steering.oneAtATime, followUps.oneAtATime)
      && LeftsShow(lefts, Gaps(newMessages + pending)) && |Gaps(newMessages + pending)[0]| == opening
    }

    /** Nothing has come from the queues since the last answer. */
    ghost predicate Settled()
      reads this`newMessages
    {
      SinceAnswer(newMessages) == []
    }

    /** Poll for steering, after the queue has received what the outside world sends it meanwhile. */
    method PollSteering(arrivals: seq<Message>)
      requires Sound() && Conserves() && pending == [] && Settled()
      modifies this`pending, this`polls, this`opening, steering
      ensures Sound() && Conserves()
      ensures opening == if From({Answered}, newMessages) == [] then |pending| else old(opening)
      ensures polls == old(polls) + if pending == [] then [] else [From({Steered, FollowedUp}, pending)]
      ensures steering.enqueued == old(steering.enqueued) + arrivals
      ensures pending == [] <==> old(steering.messages) + arrivals == []
      ensures pending == [] ==> steering.messages == []
      ensures steering.oneAtATime == old(steering.oneAtATime)
      ensures steering.oneAtATime ==> |pending| <= 1
      ensures forall e | e in pending :: e.origin.Steered?
    {
      hide From, SinceAnswer, BeforeAnswers, Polled, LeftsShow;
      steering.EnqueueAll(arrivals);
      var drained := steering.Drain();
      assert newMessages + [] == newMessages;
      DrainingConserves(Steered, newMessages, old(steering.taken), steeringBefore, drained);
      FromUnaffected({FollowedUp}, newMessages, Tag(Steered, drained));
      PollFills(newMessages, polls, lefts, Steered, drained, steering.oneAtATime, followUps.oneAtATime);
      pending := Tag(Steered, drained);
      opening := if From({Answered}, newMessages) == [] then |pending| else opening;
      polls := polls + if drained == [] then [] else [From({Steered, FollowedUp}, pending)];
    }

    /** Poll for follow-ups. */
    method PollFollowUps(arrivals: seq<Message>)
      requires Sound() && Conserves() && pending == [] && Settled() && From({Answered}, newMessages) != []
      modifies this`pending, this`polls, followUps
      ensures Sound() && Conserves()
      ensures polls == old(polls) + if pending == [] then [] else [From({Steered, FollowedUp}, pending)]
      ensures followUps.enqueued == old(followUps.enqueued) + arrivals
      ensures pending == [] <==> old(followUps.messages) + arrivals == []
      ensures pending == [] ==> followUps.messages == []
      ensures steering.messages == old(steering.messages)
      ensures followUps.oneAtATime == old(followUps.oneAtATime)
      ensures followUps.oneAtATime ==> |pending| <= 1
      ensures forall e | e in pending :: e.origin.FollowedUp?
    {
      hide From, SinceAnswer, BeforeAnswers, Polled, LeftsShow;
      followUps.EnqueueAll(arrivals);
      var drained := followUps.Drain();
      assert newMessages + [] == newMessages;
      DrainingConserves(FollowedUp, newMessages, old(followUps.taken), followUpsBefore, drained);
      FromUnaffected({Steered}, newMessages, Tag(FollowedUp, drained));
      PollFills(newMessages, polls, lefts, FollowedUp, drained, steering.oneAtATime, followUps.oneAtATime);
      pending := Tag(FollowedUp, drained);
      polls := polls + if drained == [] then [] else [From({Steered, FollowedUp}, pending)];
    }

    /** Where a turn may begin: the first is already open, the others are not. */
    ghost predicate Ready()
      reads this`hasCompletedTurn, this`newMessages, emitter`summary, emitter`requested
    {
      && (hasCompletedTurn ==> emitter.requested > 0)
      && emitter.summary.phase == (if hasCompletedTurn then BetweenTurns else InTurn)
      && emitter.summary.open == map[]
      && Settled()
    }

    /** The trace is over, and its last event carries the new messages and this ending. */
    ghost predicate EndedWith(ending: Ending)
      reads this`newMessages, emitter`log, emitter`summary
    {
      && emitter.summary.phase.Finished?
      && emitter.log != [] && emitter.log[|emitter.log| - 1] == AgentEnd(newMessages, ending)
    }

    /** The start of every turn but the first: its preparation, and steering that came in during it. */
    method Prepare(t: TurnScript) returns (prepared: seq<Entry>)
      requires Sound() && Agrees() && Conserves() && Ready()
      modifies this`context, this`given, this`pending, this`polls, this`opening, steering,
               emitter`log, emitter`summary
      ensures Sound() && Agrees() && Conserves() && opening == old(opening)
      ensures emitter.summary == old(emitter.summary).(phase := InTurn)
      ensures prepared == if hasCompletedTurn && t.snapshot.Some? then Tag(Prepared, t.snapshot.value.messages) else []
      ensures hasCompletedTurn && pending == [] ==> steering.messages == []
      ensures given.context == Entered(old(given).context, t, hasCompletedTurn)
    {
      hide From, Summarize, Next, Polled, LeftsShow, SinceAnswer, BeforeAnswers, Conserves, Returns;
      prepared := [];
      if hasCompletedTurn {
        prepared := TakeSnapshot(t.snapshot);
        if pending == [] {
          PollSteering(t.arrivalsWhilePreparing);
        }
        emitter.OpenTurn();
      }
    }

    /** What a hook prepares for the next turn. */
    method TakeSnapshot(snapshot: Option<Snapshot>) returns (prepared: seq<Entry>)
      requires Agrees()
      modifies this`context, this`given
      ensures Agrees()
      ensures prepared == if snapshot.Some? then Tag(Prepared, snapshot.value.messages) else []
      ensures given == if snapshot.Some? && snapshot.value.context.Some?
                       then Given(snapshot.value.context.value, |newMessages|, true) else old(given)
    {
      prepared := [];
      if snapshot.Some? {
        if snapshot.value.context.Some? {
          context, given := snapshot.value.context.value, Given(snapshot.value.context.value, |newMessages|, true);
        }
        prepared := Tag(Prepared, snapshot.value.messages);
      }
    }

    /** Put what was prepared and what is pending into the transcript. */
    method Inject(prepared: seq<Entry>, toolChanges: int)
      requires Sound() && Agrees() && Conserves()
      requires emitter.summary.phase.InTurn? && forall e | e in prepared :: e.origin.Prepared?
      modifies this`context, this`newMessages, this`pending, tracker, emitter`log, emitter`summary
      ensures Sound() && Agrees() && Conserves() && pending == []
      ensures newMessages == old(newMessages) + DeclareToolChanges(prepared + old(pending), toolChanges)
      ensures tracker.failures == if old(pending) != [] then [] else old(tracker.failures)
      ensures emitter.summary == old(emitter.summary).(ended := newMessages)
    {
      hide From, Summarize, Next, DeclareToolChanges, SinceAnswer, BeforeAnswers, Polled, LeftsShow;
      if pending != [] {
        tracker.Reset();
      }
      var messages := DeclareToolChanges(prepared + pending, toolChanges);
      InjectingConserves({Steered}, newMessages, prepared, pending, toolChanges);
      InjectingConserves({FollowedUp}, newMessages, prepared, pending, toolChanges);
      InjectingConserves({Answered}, newMessages, prepared, pending, toolChanges);
      InjectingConserves({Returned}, newMessages, prepared, pending, toolChanges);
      InjectingKeepsGaps(newMessages, prepared, pending, toolChanges);
      FromUnaffected({Answered}, newMessages, pending);
      FromUnaffected({Returned}, newMessages, pending);
      Append(messages);
      pending := [];
      assert newMessages + [] == newMessages;
    }

    /** Emit messages and push them to the context and the new messages, one by one. */
    method Append(messages: seq<Entry>)
      requires emitter.Valid() && emitter.summary.phase.InTurn?
      requires newMessages == emitter.summary.ended && initial <= newMessages
      requires ContextRight()
      modifies this`context, this`newMessages, emitter`log, emitter`summary
      ensures emitter.Valid()
      ensures newMessages == old(newMessages) + messages && ContextRight()
      ensures emitter.summary == old(emitter.summary).(ended := newMessages)
    {
      hide Summarize, Next;
      for i := 0 to |messages|
        invariant emitter.Valid()
        invariant newMessages == old(newMessages) + messages[..i] && ContextRight()
        invariant emitter.summary == old(emitter.summary).(ended := newMessages)
      {
        emitter.EmitMessage(messages[i]);
        assert messages[..i + 1] == messages[..i] + [messages[i]];
        given.FollowsMore(context, newMessages, [messages[i]]);
        context, newMessages := context + [messages[i]], newMessages + [messages[i]];
      }
      assert messages[..|messages|] == messages;
    }

    /** Stream one answer into the context; its message is open from its start, if it has one, to its end. */
    method StreamAssistantResponse(events: seq<StreamEvent>, answer: Answer)
      requires emitter.Valid() && emitter.summary.phase.InTurn?
      requires forall j, k | 0 <= j < k < |events| :: events[j].Start? ==> !events[k].Start?
      modifies this`context, emitter`log, emitter`summary
      ensures emitter.Valid() && context == old(context) + [answer.Entry()]
      ensures emitter.summary == old(emitter.summary).(ended := old(emitter.summary).ended + [answer.Entry()])
    {
      hide Next, Summarize;
      var addedPartial := false;
      for i := 0 to |events|
        invariant emitter.Valid()
        invariant addedPartial <==> exists j | 0 <= j < i :: events[j].Start?
        invariant if addedPartial then |context| == |old(context)| + 1 && context[..|old(context)|] == old(context)
                  else context == old(context)
        invariant emitter.summary == old(emitter.summary).(phase := if addedPartial then InMessage else InTurn)
      {
        var entry := Entry(Answered, events[i].partial);
        match events[i]
        case Start(_) =>
          context := context + [entry];
          addedPartial := true;
          emitter.OpenMessage(entry);
        case Delta(_) =>
          if addedPartial {
            context := context[|context| - 1 := entry];
            emitter.UpdateMessage(entry);
          }
      }
      if addedPartial {
        context := context[|context| - 1 := answer.Entry()];
      } else {
        context := context + [answer.Entry()];
        emitter.OpenMessage(answer.Entry());
      }
      emitter.CloseMessage(answer.Entry());
    }

    /** The request itself, once the gate has let it through. */
    method Receive(t: TurnScript)
      requires Sound() && Conserves() && pending == [] && t.Sound() && emitter.summary.phase.InTurn?
      requires newMessages == emitter.summary.ended && initial <= newMessages
      requires ContextRight()
      requires |From({Answered}, newMessages)| + 1 == emitter.requested
      requires Returns(newMessages, emitter.summary.started, emitter.summary.closed)
      modifies this`context, this`newMessages, this`given, emitter`log, emitter`summary
      ensures Sound() && Agrees() && Conserves() && Settled()
      ensures newMessages == old(newMessages) + [t.answer.Entry()]
      ensures given.context == Asked(old(given).context, t)
      ensures emitter.summary == old(emitter.summary).(ended := newMessages)
    {
      hide Next, Summarize, From, SinceAnswer, BeforeAnswers, Polled, LeftsShow;
      if t.requestContext.Some? {
        context, given := t.requestContext.value, Given(t.requestContext.value, |newMessages|, true);
      }
      given.FollowsMore(context, newMessages, [t.answer.Entry()]);
      StreamAssistantResponse(t.events, t.answer);
      newMessages := newMessages + [t.answer.Entry()];
      OneMoreAnswer(old(newMessages), t.answer);
      AnswerKeepsPolls(polls, lefts, Gaps(old(newMessages) + []), steering.oneAtATime, followUps.oneAtATime);
    }

    /** Pass the budget gate and get an answer, unless the gate refuses. */
    method Ask(t: TurnScript) returns (allowed: bool)
      requires Sound() && Agrees() && Conserves() && pending == [] && emitter.Charged() && t.Sound()
      requires emitter.summary.phase.InTurn?
      modifies this`context, this`newMessages, this`given,
               emitter`log, emitter`summary, emitter`requested, emitter.gate.Controllers()`providerRequests
      ensures Sound() && Agrees() && Conserves() && emitter.Charged()
      ensures allowed == old(emitter.gate.AllowsRequest(t.readings))
      ensures newMessages == old(newMessages) + if allowed then [t.answer.Entry()] else []
      ensures given.context == if allowed then Asked(old(given).context, t) else old(given).context
      ensures emitter.requested == old(emitter.requested) + if allowed then 1 else 0
      ensures allowed ==> Settled()
      ensures emitter.summary == old(emitter.summary).(ended := newMessages)
    {
      hide Next, Summarize, From, Emitter.ChargedTo, SinceAnswer, BeforeAnswers, Polled, LeftsShow;
      allowed := emitter.BeginRequest(t.readings);
      if allowed {
        Receive(t);
      }
    }

    /** Run the calls of the answer, if it has any. */
    method Execute(t: TurnScript) returns (results: seq<Failures.ToolResult>, ghost batch: seq<CallOutcome>)
      requires emitter.Valid() && emitter.Charged() && t.Sound() && !t.Failed()
      requires emitter.summary.phase.InTurn? && emitter.summary.open == map[]
      modifies this`hasMoreToolCalls, emitter, emitter.gate.Controllers()`toolCalls
      ensures emitter.Valid() && emitter.Charged()
      ensures emitter.requested == old(emitter.requested) && (old(emitter.aborted) ==> emitter.aborted)
      ensures emitter.aborted ==> old(emitter.aborted) || SomeAborts(t.batch.tools, |t.answer.calls|)
      ensures AllAnswered(old(emitter.summary), emitter.summary, results)
      ensures |batch| <= |t.answer.calls| && results == Results(t.answer.calls, batch)
      ensures Made(t, batch, old(emitter.summary), old(emitter.ran), old(emitter.refused),
                   emitter.summary, emitter.ran, emitter.refused, emitter.aborted, emitter.gate.Unlimited?)
      ensures hasMoreToolCalls <==> CallsForMore(t, batch)
      ensures old(emitter.log) <= emitter.log
      ensures var events := emitter.log[|old(emitter.log)|..];
              if t.answer.stop.Length? || t.batch.sequential then OneByOne(events) else CallsFirst(events)
    {
      hide Next, Summarize, Emitter.ChargedTo, AllAnswered, Accounts, AllPossible, AllTerminate, Results, CallsForMore,
           OneByOne, CallsFirst, Closes, SomeAborts;
      results, hasMoreToolCalls, batch := [], false, [];
      if t.answer.calls != [] {
        var outcomes, terminate;
        outcomes, results, terminate := emitter.ExecuteToolCalls(t.answer.calls, t.answer.stop.Length?, t.batch);
        hasMoreToolCalls, batch := !terminate, outcomes;
        AllAnsweredCalls(old(emitter.summary), emitter.summary, results);
        TerminatingBatch(t, batch);
      } else {
        NoCalls(t, emitter.summary, emitter.log);
        MadeNothing(t, emitter.summary, emitter.summary, emitter.ran, emitter.refused, emitter.aborted,
                    emitter.gate.Unlimited?);
      }
    }

    /** Run the calls of the answer and add their results, in the order of the calls, to both transcripts. */
    method RunCalls(t: TurnScript) returns (results: seq<Failures.ToolResult>, ghost batch: seq<CallOutcome>)
      requires Sound() && Agrees() && Conserves() && pending == [] && emitter.Charged() && t.Sound() && !t.Failed()
      requires emitter.summary.phase.InTurn? && emitter.summary.open == map[]
      modifies this`context, this`newMessages, this`hasMoreToolCalls, emitter, emitter.gate.Controllers()`toolCalls
      ensures Sound() && Agrees() && Conserves() && emitter.Charged()
      ensures |batch| <= |t.answer.calls| && results == Results(t.answer.calls, batch)
      ensures newMessages == old(newMessages) + EntriesOf(results)
      ensures emitter.requested == old(emitter.requested) && (old(emitter.aborted) ==> emitter.aborted)
      ensures emitter.aborted ==> old(emitter.aborted) || SomeAborts(t.batch.tools, |t.answer.calls|)
      ensures AllAnswered(old(emitter.summary), emitter.summary, results)
      ensures Made(t, batch, old(emitter.summary), old(emitter.ran), old(emitter.refused),
                   emitter.summary, emitter.ran, emitter.refused, emitter.aborted, emitter.gate.Unlimited?)
      ensures hasMoreToolCalls <==> CallsForMore(t, batch)
      ensures SinceAnswer(newMessages) == SinceAnswer(old(newMessages))
    {
      hide Next, Summarize, From, Emitter.ChargedTo, SinceAnswer, BeforeAnswers, Polled, LeftsShow, Returns,
           AllAnswered, Gaps, Made, CallsForMore, Results, OneByOne, CallsFirst, SomeAborts;
      results, batch := Execute(t);
      ResultsKeepOthers(newMessages, results);
      AllAnsweredEnded(old(emitter.summary), emitter.summary, results);
      ReturnsMore(newMessages, newMessages + EntriesOf(results), old(emitter.summary), emitter.summary, results);
      given.FollowsMore(context, newMessages, EntriesOf(results));
      context, newMessages := context + EntriesOf(results), newMessages + EntriesOf(results);
    }

    /** Stop after the same call has failed three times: a closing message of the loop's own, in a turn of its own. */
    method GiveUp()
      requires Sound() && Agrees() && Conserves() && pending == []
      requires emitter.summary.phase.BetweenTurns? && emitter.summary.open == map[]
      modifies this`context, this`newMessages, emitter`log, emitter`summary
      ensures Sound() && Agrees() && Conserves()
      ensures newMessages == old(newMessages) + [GIVEN_UP]
      ensures emitter.summary == old(emitter.summary).(phase := Finished(true), ended := newMessages)
      ensures EndedWith(Failed)
    {
      hide Next, Summarize, From, SinceAnswer, BeforeAnswers, Polled, LeftsShow, Gaps;
      GivingUpKeepsOthers(newMessages);
      given.FollowsMore(context, newMessages, [GIVEN_UP]);
      context, newMessages := context + [GIVEN_UP], newMessages + [GIVEN_UP];
      emitter.EndWithTurn(GIVEN_UP, newMessages, Failed);
    }

    /** A run that has nothing left to do, or was told to stop. */
    method Complete()
      requires Sound() && Agrees() && Conserves() && Ready() && hasCompletedTurn
      modifies emitter`log, emitter`summary
      ensures Sound() && Agrees() && Conserves()
      ensures emitter.summary == old(emitter.summary).(phase := Finished(true)) && EndedWith(Completed)
    {
      hide Next, Summarize, From;
      emitter.EndRun(newMessages, Completed);
    }

    /** Some failure of this turn is at least the third of its kind since the last success or new message. */
    ghost predicate FailedThrice(t: TurnScript, results: seq<Failures.ToolResult>)
      reads tracker
    {
      exists key | key in Failures.Signatures(t.answer.calls, results) ::
        multiset(tracker.failures)[key] >= Failures.MAX_IDENTICAL_FAILURES
    }

    /** Note the failures of a turn; whether they are a reason to give up. */
    method NoteFailures(t: TurnScript, results: seq<Failures.ToolResult>) returns (gaveUp: bool)
      requires Sound()
      modifies tracker, emitter`aborted
      ensures Sound() && (old(emitter.aborted) ==> emitter.aborted)
      ensures emitter.aborted == (old(emitter.aborted) || t.abortedAtPoll)
      ensures gaveUp <==>
                && !emitter.aborted && pending == [] && !Failures.AnySuccess(results)
                && Failures.Repeats(old(tracker.State()), Failures.Signatures(t.answer.calls, results))
      ensures gaveUp ==> FailedThrice(t, results)
    {
      hide Emitter.Valid, PendingMessageQueue.Valid, Failures.Repeats, Failures.Signatures;
      gaveUp := tracker.Record(t.answer.calls, results);
      emitter.Check(t.abortedAtPoll);
      gaveUp := gaveUp && pending == [] && !emitter.aborted;
    }

    /** After a turn that neither the hooks nor the model ended: poll for steering, and give up or go on. */
    method GoOn(t: TurnScript, results: seq<Failures.ToolResult>) returns (gaveUp: bool)
      requires Sound() && Agrees() && Conserves() && pending == [] && Settled() && emitter.requested > 0
      requires emitter.summary.phase.BetweenTurns? && emitter.summary.open == map[]
      modifies this`context, this`newMessages, this`pending, this`polls, this`opening, this`explicitContinuation,
               steering, tracker, emitter`log, emitter`summary, emitter`aborted
      ensures Sound() && Agrees() && Conserves() && opening == old(opening)
      ensures emitter.aborted == (old(emitter.aborted) || t.abortedAtPoll)
      ensures emitter.summary == old(emitter.summary).(phase := if gaveUp then Finished(true) else BetweenTurns,
                                                       ended := newMessages)
      ensures !gaveUp ==> Settled() && forall e | e in pending :: e.origin.Steered?
      ensures explicitContinuation ==> t.decision.Continue?
      ensures !gaveUp ==> explicitContinuation == (t.decision.Continue? && !hasMoreToolCalls && pending == [])
      ensures pending == [] ==> steering.messages == []
      ensures gaveUp ==>
                && !emitter.aborted && !t.abortedAtPoll && pending == []
                && !Failures.AnySuccess(results) && FailedThrice(t, results) && EndedWith(Failed)
    {
      hide Next, Summarize, From, Sound, Conserves, EndedWith, FailedThrice;
      explicitContinuation := t.decision.Continue?;
      PollSteering(t.steeringArrivals);
      gaveUp := NoteFailures(t, results);
      if gaveUp {
        GiveUp();
        return;
      }
      if hasMoreToolCalls || pending != [] {
        explicitContinuation := false;
      }
    }

    /** From `turn_end` to the choice between stopping and going on. */
    method FinishTurn(t: TurnScript, results: seq<Failures.ToolResult>) returns (ending: Option<Ending>)
      requires Sound() && Agrees() && Conserves() && pending == [] && Settled() && emitter.requested > 0
      requires emitter.summary.phase.InTurn? && emitter.summary.open == map[]
      modifies this`context, this`newMessages, this`pending, this`polls, this`opening, this`explicitContinuation,
               this`hasCompletedTurn, steering, tracker, emitter`log, emitter`summary, emitter`aborted
      ensures Sound() && Agrees() && Conserves() && opening == old(opening)
      ensures (old(emitter.aborted) ==> emitter.aborted) && SameCalls(old(emitter.summary), emitter.summary)
      ensures emitter.aborted ==> old(emitter.aborted) || t.abortedAtPoll
      ensures if ending.None? then Ready() && hasCompletedTurn
              else emitter.summary.phase == Finished(true) && EndedWith(ending.value)
      ensures ending.None? ==>
                && !t.decision.End? && !t.stop
                && explicitContinuation == (t.decision.Continue? && !hasMoreToolCalls && pending == [])
                && (pending == [] ==> steering.messages == []) && (forall e | e in pending :: e.origin.Steered?)
      ensures ending.Some? ==> ending == Some(if t.decision.End? || t.stop then Completed else Failed) && pending == []
      ensures ending == Some(Failed) ==> !emitter.aborted && !t.abortedAtPoll
    {
      hide Next, Summarize, From, EndedWith, SinceAnswer;
      hasCompletedTurn := true;
      emitter.CloseTurn();
      if t.decision.End? || t.stop {
        Complete();
        return Some(Completed);
      }
      var gaveUp := GoOn(t, results);
      ending := if gaveUp then Some(Failed) else None;
    }

    /** A turn whose answer is an error or was cut short by an abort. */
    method FailTurn(t: TurnScript) returns (ending: Ending)
      requires Sound() && Agrees() && Conserves()
      requires emitter.summary.phase.InTurn? && emitter.summary.open == map[]
      modifies this`hasCompletedTurn, emitter`log, emitter`summary
      ensures Sound() && Agrees() && Conserves() && EndedWith(ending)
      ensures emitter.summary == old(emitter.summary).(phase := Finished(true))
      ensures ending == if emitter.aborted || t.answer.stop.AbortedStop? then Aborted else Failed
    {
      hide Next, Summarize, From, Conserves, Returns;
      ending := if emitter.aborted || t.answer.stop.AbortedStop? then Aborted else Failed;
      hasCompletedTurn := true;
      emitter.CloseTurn();
      emitter.EndRun(newMessages, ending);
    }

    /** The budget gate refused: the run ends with its turn still open. */
    method Refuse() returns (ending: Ending)
      requires Sound() && Agrees() && Conserves()
      requires emitter.summary.phase.InTurn? && emitter.summary.open == map[]
      modifies emitter`log, emitter`summary
      ensures Sound() && Agrees() && Conserves() && EndedWith(ending)
      ensures emitter.summary == old(emitter.summary).(phase := Finished(false))
      ensures ending == if emitter.aborted then Aborted else BudgetExhausted
    {
      hide Next, Summarize, From;
      ending := if emitter.aborted then Aborted else BudgetExhausted;
      emitter.EndRun(newMessages, ending);
    }

    /** The turn after its answer has come. */
    method CompleteTurn(t: TurnScript) returns (ending: Option<Ending>, ghost batch: seq<CallOutcome>)
      requires Sound() && Agrees() && Conserves() && emitter.Charged() && pending == [] && Settled() && t.Sound()
      requires emitter.summary.phase.InTurn? && emitter.summary.open == map[] && emitter.requested > 0
      modifies this`context, this`newMessages, this`pending, this`polls, this`opening, this`hasMoreToolCalls,
               this`explicitContinuation, this`hasCompletedTurn, steering, tracker, emitter,
               emitter.gate.Controllers()`toolCalls
      ensures Sound() && Agrees() && Conserves() && emitter.Charged() && opening == old(opening)
      ensures emitter.requested == old(emitter.requested) && (old(emitter.aborted) ==> emitter.aborted)
      ensures emitter.aborted ==> old(emitter.aborted) || t.Aborts()
      ensures if ending.None? then Ready() && hasCompletedTurn
              else emitter.summary.phase == Finished(true) && EndedWith(ending.value)
      ensures Made(t, batch, old(emitter.summary), old(emitter.ran), old(emitter.refused),
                   emitter.summary, emitter.ran, emitter.refused, emitter.aborted, emitter.gate.Unlimited?)
      ensures ending.None? ==>
                && GoesOn(t, batch, Left(hasMoreToolCalls, |pending|, 0))
                && explicitContinuation == (t.decision.Continue? && !hasMoreToolCalls && pending == [])
                && (pending == [] ==> steering.messages == []) && (forall e | e in pending :: e.origin.Steered?)
      ensures ending.Some? ==> pending == [] && EndsAs(t, ending.value)
    {
      hide Next, Summarize, From, Emitter.ChargedTo, Sound, Conserves, Agrees, EndedWith, SinceAnswer, AllAnswered,
           Made, CallsForMore, Results, SomeAborts;
      emitter.Check(t.abortedWhileStreaming);
      if t.Failed() {
        var failure := FailTurn(t);
        MadeNothing(t, old(emitter.summary), emitter.summary, emitter.ran, emitter.refused, emitter.aborted,
                    emitter.gate.Unlimited?);
        return Some(failure), [];
      }
      var results;
      results, batch := RunCalls(t);
      AllAnsweredPhase(old(emitter.summary), emitter.summary, results);
      ghost var called, aborted := emitter.summary, emitter.aborted;
      ending := FinishTurn(t, results);
      MadeStill(t, batch, old(emitter.summary), old(emitter.ran), old(emitter.refused), called, emitter.ran,
                emitter.refused, aborted, emitter.gate.Unlimited?, emitter.summary, emitter.aborted);
    }

    /** A turn up to its request: everything pending is injected. */
    method EnterTurn(t: TurnScript)
      requires Sound() && Agrees() && Conserves() && Ready()
      modifies this`context, this`newMessages, this`given, this`pending, this`polls, this`opening,
               steering, tracker, emitter`log, emitter`summary
      ensures Sound() && Agrees() && Conserves() && pending == [] && opening == old(opening)
      ensures emitter.summary.phase.InTurn? && emitter.summary.open == map[]
      ensures SameCalls(old(emitter.summary), emitter.summary)
      ensures given.context == Entered(old(given).context, t, hasCompletedTurn)
    {
      hide Next, Summarize, From, Sound, Conserves, Agrees;
      var prepared := Prepare(t);
      Inject(prepared, t.toolChanges);
    }

    /** The request of a turn; a refusal ends the run. */
    method AskOrStop(t: TurnScript) returns (refusal: Option<Ending>)
      requires Sound() && Agrees() && Conserves() && emitter.Charged() && pending == [] && t.Sound()
      requires emitter.summary.phase.InTurn? && emitter.summary.open == map[]
      modifies this`context, this`newMessages, this`given, emitter`log, emitter`summary,
               emitter`requested, emitter`aborted, emitter.gate.Controllers()`providerRequests
      ensures Sound() && Agrees() && Conserves() && emitter.Charged()
      ensures emitter.requested == old(emitter.requested) + if refusal.None? then 1 else 0
      ensures emitter.aborted == (old(emitter.aborted) || (refusal.Some? && t.abortedAtGate))
      ensures refusal.Some? ==> RefusedAs(t, refusal.value)
      ensures given.context == if refusal.None? then Asked(old(given).context, t) else old(given).context
      ensures SameCalls(old(emitter.summary), emitter.summary)
      ensures refusal.None? <==> old(emitter.gate.AllowsRequest(t.readings))
      ensures if refusal.Some? then emitter.summary.phase == Finished(false) && EndedWith(refusal.value)
              else emitter.summary.phase.InTurn? && emitter.summary.open == map[] && Settled()
    {
      hide Next, Summarize, From, Emitter.ChargedTo, Sound, Conserves, Agrees, EndedWith, BudgetGate.AllowsRequest;
      var allowed := Ask(t);
      if allowed {
        return None;
      }
      emitter.Check(t.abortedAtGate);
      var ending := Refuse();
      refusal := Some(ending);
    }

    /** A turn up to its answer, if it gets one. */
    method Approach(t: TurnScript) returns (refusal: Option<Ending>)
      requires Sound() && Agrees() && Conserves() && emitter.Charged() && Ready() && t.Sound()
      modifies this`context, this`newMessages, this`given, this`pending, this`polls, this`opening,
               steering, tracker, emitter`log, emitter`summary, emitter`requested, emitter`aborted,
               emitter.gate.Controllers()`providerRequests
      ensures Sound() && Agrees() && Conserves() && emitter.Charged() && pending == [] && opening == old(opening)
      ensures emitter.requested == old(emitter.requested) + if refusal.None? then 1 else 0
      ensures emitter.aborted == (old(emitter.aborted) || (refusal.Some? && t.abortedAtGate))
      ensures refusal.Some? ==> RefusedAs(t, refusal.value) && !emitter.gate.Unlimited?
      ensures SameCalls(old(emitter.summary), emitter.summary)
      ensures var entered := Entered(old(given).context, t, hasCompletedTurn);
              given.context == if refusal.None? then Asked(entered, t) else entered
      ensures if refusal.Some? then emitter.summary.phase == Finished(false) && EndedWith(refusal.value)
              else emitter.summary.phase.InTurn? && emitter.summary.open == map[] && Settled()
    {
      hide Next, Summarize, From, Emitter.ChargedTo, Sound, Conserves, Agrees, EndedWith, SinceAnswer, RefusedAs,
           BudgetGate.AllowsRequest, Entered, Asked;
      if emitter.gate.Unlimited? {
        emitter.gate.UnlimitedAllows(t.readings);
      }
      EnterTurn(t);
      refusal := AskOrStop(t);
    }

    /** Note what a turn leaves to be done. */
    ghost method NoteLeft()
      requires Agrees() && Conserves() && Settled() && |lefts| + 1 == emitter.requested
      requires forall e | e in pending :: e.origin.Steered?
      modifies this`lefts
      ensures Conserves() && lefts == old(lefts) + [Left(hasMoreToolCalls, |pending|, 0)]
    {
      hide From, SinceAnswer, BeforeAnswers, Polled, Returns;
      OpenGap(newMessages, pending);
      LeavesShown(lefts, Gaps(newMessages + pending), Left(hasMoreToolCalls, |pending|, 0));
      lefts := lefts + [Left(hasMoreToolCalls, |pending|, 0)];
    }

    /** Note the follow-ups that were polled for after a turn that left nothing else. */
    ghost method NoteFollowUps()
      requires Agrees() && Conserves() && Settled() && |lefts| == emitter.requested > 0
      requires lefts[|lefts| - 1] == Left(false, 0, 0) && forall e | e in pending :: e.origin.FollowedUp?
      modifies this`lefts
      ensures Conserves() && lefts == old(lefts)[|old(lefts)| - 1 := Left(false, 0, |pending|)]
    {
      hide From, SinceAnswer, BeforeAnswers, Polled, Returns;
      OpenGap(newMessages, pending);
      FollowUpsShown(lefts, Gaps(newMessages + pending), |pending|);
      lefts := lefts[|lefts| - 1 := Left(false, 0, |pending|)];
    }

    /** One turn: the body of the inner loop. */
    method OneTurn(t: TurnScript, cause: Cause) returns (ending: Option<Ending>, ghost batch: seq<CallOutcome>)
      requires Sound() && Agrees() && Conserves() && emitter.Charged() && Ready() && t.Sound()
      modifies this`context, this`newMessages, this`given, this`pending, this`polls, this`opening, this`causes,
               this`hasMoreToolCalls, this`explicitContinuation, this`hasCompletedTurn, steering, tracker, emitter,
               emitter.gate.Controllers()`providerRequests, emitter.gate.Controllers()`toolCalls
      ensures Sound() && Agrees() && Conserves() && emitter.Charged() && causes == old(causes) + [cause]
      ensures opening == old(opening)
      ensures var entered := Entered(old(given).context, t, old(hasCompletedTurn));
              given.context == if emitter.requested == old(emitter.requested) then entered else Asked(entered, t)
      ensures ending.None? ==>
                && Ready() && hasCompletedTurn && emitter.requested == old(emitter.requested) + 1
                && GoesOn(t, batch, Left(hasMoreToolCalls, |pending|, 0))
                && explicitContinuation == (t.decision.Continue? && !hasMoreToolCalls && pending == [])
                && (pending == [] ==> steering.messages == []) && (forall e | e in pending :: e.origin.Steered?)
      ensures ending.Some? ==> emitter.summary.phase.Finished? && EndedWith(ending.value) && pending == []
      ensures old(emitter.requested) <= emitter.requested <= old(emitter.requested) + 1
      ensures if emitter.requested == old(emitter.requested) then SameCalls(old(emitter.summary), emitter.summary)
                && emitter.ran == old(emitter.ran) && emitter.refused == old(emitter.refused)
              else Made(t, batch, old(emitter.summary), old(emitter.ran), old(emitter.refused),
                        emitter.summary, emitter.ran, emitter.refused, emitter.aborted, emitter.gate.Unlimited?)
      ensures ending.Some? ==>
                if emitter.requested == old(emitter.requested) then
                  emitter.summary.phase == Finished(false) && RefusedAs(t, ending.value)
                else emitter.summary.phase == Finished(true) && EndsAs(t, ending.value)
      ensures emitter.gate.Unlimited? && ending.Some? ==> emitter.summary.phase == Finished(true)
      ensures (old(emitter.aborted) ==> emitter.aborted) && (emitter.aborted ==> old(emitter.aborted) || t.Aborts())
    {
      hide Next, Summarize, From, Emitter.ChargedTo, Sound, Conserves, Agrees, EndedWith, SinceAnswer,
           Executed, Closes, Accounts, GoesOn, EndsAs, Results, SomeAborts, Entered, Asked, RefusedAs;
      causes, batch := causes + [cause], [];
      ending := Approach(t);
      if ending.None? {
        ending, batch := CompleteTurn(t);
      }
    }

    /** What is left to do when no tool calls and no steering are: follow-ups, or else a continuation that was asked for
        and that nothing has satisfied yet. */
    method WhatNext(followUpArrivals: seq<Message>) returns (cause: Option<Cause>)
      requires Sound() && Agrees() && Conserves() && Ready() && !hasMoreToolCalls && pending == []
      requires |lefts| == emitter.requested > 0 && lefts[|lefts| - 1] == Left(false, 0, 0)
      modifies this`pending, this`polls, this`lefts, this`explicitContinuation, followUps
      ensures Sound() && Agrees() && Conserves() && Ready() && !explicitContinuation
      ensures pending != [] <==> old(followUps.messages) + followUpArrivals != []
      ensures pending == [] ==> followUps.messages == []
      ensures steering.messages == old(steering.messages)
      ensures cause == if pending != [] then Some(FollowUp)
                       else if old(explicitContinuation) then Some(Continuation) else None
      ensures lefts == old(lefts)[|old(lefts)| - 1 := Left(false, 0, |pending|)]
      ensures followUps.oneAtATime ==> |pending| <= 1
    {
      hide From, Sound, Agrees, Conserves, SinceAnswer;
      OneAnswerEach();
      PollFollowUps(followUpArrivals);
      NoteFollowUps();
      if pending != [] {
        explicitContinuation := false;
        return Some(FollowUp);
      }
      if explicitContinuation {
        explicitContinuation := false;
        return Some(Continuation);
      }
      cause := None;
    }

    /** The poll before the first turn; the agent skips it when it has just drained the steering queue itself. */
    method PollAtStart(arrivals: seq<Message>, skip: bool)
      requires Sound() && Conserves() && Ready() && pending == [] && opening == 0
      requires From({Answered}, newMessages) == []
      modifies this`pending, this`polls, this`opening, steering
      ensures Sound() && Conserves() && Ready() && opening == |pending|
      ensures if skip then pending == [] && steering.messages == old(steering.messages)
              else pending == [] <==> old(steering.messages) + arrivals == []
    {
      hide From, Sound, Conserves, SinceAnswer;
      if !skip {
        PollSteering(arrivals);
      }
    }

    /** A run that is not refused ends when nothing is left to do, or with a turn that gives a reason to. */
    ghost predicate Finishes(result: Result, scripts: seq<TurnScript>)
      reads this`lefts, emitter`summary, emitter`requested, steering`messages, followUps`messages
    {
      result.Ended? && emitter.summary.phase == Finished(true) ==>
        && 0 < emitter.requested <= |scripts|
        && if |lefts| == emitter.requested then
             && result.ending.Completed? && lefts[|lefts| - 1] == Left(false, 0, 0)
             && !scripts[|lefts| - 1].decision.Continue?
             && steering.messages == [] && followUps.messages == []
           else |lefts| + 1 == emitter.requested && EndsAs(scripts[|lefts|], result.ending)
    }

    /** The calls of the run, as the trace and the books have them. */
    ghost predicate KeepsBooks(scripts: seq<TurnScript>)
      reads this`batches, emitter`summary, emitter`requested, emitter`ran, emitter`refused, emitter`aborted
    {
      && |batches| == emitter.requested
      && Accounted(scripts, batches, emitter.summary, emitter.ran, emitter.refused, emitter.aborted,
                   emitter.gate.Unlimited?)
    }

    /** The context given last, after the turns begun, is what the hooks made of it. */
    ghost predicate GivenRight(scripts: seq<TurnScript>, turns: nat)
      reads this`given, emitter`requested
    {
      && emitter.requested <= turns <= |scripts|
      && given.context == if turns == emitter.requested then GivenAfter(base, scripts, turns)
                          else Entered(GivenAfter(base, scripts, emitter.requested), scripts[emitter.requested],
                                       emitter.requested > 0)
    }

    /** A run under way, between two turns. */
    ghost predicate Running(scripts: seq<TurnScript>)
      reads this, emitter, steering, followUps, tracker, emitter.gate.Controllers()
    {
      && Sound() && Agrees() && Conserves() && Ready() && emitter.Charged()
      && emitter.requested == |causes| == |lefts| <= |scripts| && Scheduled(causes, lefts, scripts, batches)
      && KeepsBooks(scripts) && (emitter.aborted ==> WasAborted(scripts, emitter.requested))
      && (emitter.requested > 0 ==> hasCompletedTurn) && GivenRight(scripts, emitter.requested)
    }

    /** A run that has ended, or that waits for the outside world to go on. */
    ghost predicate Over(result: Result, scripts: seq<TurnScript>)
      reads this, emitter, steering, followUps, tracker, emitter.gate.Controllers()
    {
      && Sound() && Agrees() && Conserves() && emitter.Charged()
      && (result.Ended? ==> emitter.summary.phase.Finished? && EndedWith(result.ending) && pending == [])
      && (result.Waiting? ==> emitter.requested == |scripts| && Ready())
      && emitter.requested <= |scripts|
      && |causes| == emitter.requested + (if emitter.summary.phase == Finished(false) then 1 else 0)
      && (emitter.summary.phase == Finished(false) ==>
            result.Ended? && emitter.requested < |scripts| && RefusedAs(scripts[emitter.requested], result.ending))
      && (result == Ended(BudgetExhausted) ==> emitter.summary.phase == Finished(false))
      && (emitter.gate.Unlimited? ==> emitter.summary.phase != Finished(false))
      && Scheduled(causes, lefts, scripts, batches) && Finishes(result, scripts) && KeepsBooks(scripts)
      && (emitter.aborted ==> WasAborted(scripts, |causes|)) && GivenRight(scripts, |causes|)
    }

    /** One turn, with its calls entered in the books. */
    method CountedTurn(scripts: seq<TurnScript>, i: nat, cause: Cause) returns (ending: Option<Ending>)
      requires Running(scripts) && i == emitter.requested < |scripts| && Warranted(cause, i, lefts, scripts)
      requires scripts[i].Sound()
      modifies this`context, this`newMessages, this`given, this`pending, this`polls, this`opening, this`causes,
               this`hasMoreToolCalls, this`explicitContinuation, this`hasCompletedTurn, this`batches, steering, tracker,
               emitter, emitter.gate.Controllers()`providerRequests, emitter.gate.Controllers()`toolCalls
      ensures Sound() && Agrees() && Conserves() && emitter.Charged() && KeepsBooks(scripts)
      ensures causes == old(causes) + [cause] && Scheduled(causes, lefts, scripts, batches) && opening == old(opening)
      ensures emitter.aborted ==> WasAborted(scripts, i + 1)
      ensures i <= emitter.requested <= i + 1 && GivenRight(scripts, i + 1)
      ensures ending.None? ==>
                && Ready() && hasCompletedTurn && emitter.requested == i + 1
                && GoesOn(scripts[i], batches[i], Left(hasMoreToolCalls, |pending|, 0))
                && explicitContinuation == (scripts[i].decision.Continue? && !hasMoreToolCalls && pending == [])
                && (pending == [] ==> steering.messages == []) && (forall e | e in pending :: e.origin.Steered?)
      ensures ending.Some? ==>
                && EndedWith(ending.value) && pending == []
                && if emitter.requested == i then
                     emitter.summary.phase == Finished(false) && RefusedAs(scripts[i], ending.value)
                   else emitter.summary.phase == Finished(true) && EndsAs(scripts[i], ending.value)
      ensures emitter.gate.Unlimited? && ending.Some? ==> emitter.summary.phase == Finished(true)
    {
      hide Next, Summarize, From, Emitter.ChargedTo, Sound, Agrees, Conserves, EndedWith, Scheduled, Warranted,
           TurnScript.Sound, SinceAnswer, Made, Accounted, GoesOn, TurnScript.Aborts, WasAborted, EndsAs, RefusedAs,
           Entered, Asked;
      ghost var batch;
      TurnTaken(causes, lefts, scripts, batches, cause);
      ending, batch := OneTurn(scripts[i], cause);
      if old(emitter.aborted) {
        AbortedEarlier(scripts, i, i + 1);
      } else if emitter.aborted {
        AbortedAt(scripts, i + 1, i);
      }
      if emitter.requested == i {
        AccountedStill(scripts, batches, old(emitter.summary), emitter.ran, emitter.refused, old(emitter.aborted),
                       emitter.gate.Unlimited?, emitter.summary, emitter.aborted);
      } else {
        AccountedOneMore(scripts, batches, batch, old(emitter.summary), old(emitter.ran), old(emitter.refused),
                         old(emitter.aborted), emitter.gate.Unlimited?, emitter.summary, emitter.ran, emitter.refused,
                         emitter.aborted);
        BatchMade(causes, lefts, scripts, batches, batch);
        batches := batches + [batch];
      }
    }

    /** The next turn, for a reason there is. */
    method TakeTurn(scripts: seq<TurnScript>, i: nat, cause: Cause) returns (ending: Option<Ending>)
      requires Running(scripts) && i == emitter.requested < |scripts| && Warranted(cause, i, lefts, scripts)
      requires scripts[i].Sound()
      modifies this, steering, tracker, emitter,
               emitter.gate.Controllers()`providerRequests, emitter.gate.Controllers()`toolCalls
      ensures opening == old(opening)
      ensures ending.Some? ==> Over(Ended(ending.value), scripts)
      ensures ending.None? ==>
                && Running(scripts) && emitter.requested == i + 1
                && (if hasMoreToolCalls || pending != [] then Warranted(Pending, i + 1, lefts, scripts)
                    else lefts[i] == Left(false, 0, 0) && steering.messages == []
                         && explicitContinuation == scripts[i].decision.Continue?)
    {
      hide Next, Summarize, From, Emitter.ChargedTo, Sound, Agrees, Conserves, EndedWith, Scheduled, Warranted,
           TurnScript.Sound, SinceAnswer, Accounted, GoesOn, WasAborted, GivenRight;
      ending := CountedTurn(scripts, i, cause);
      if ending.None? {
        NoteLeft();
        TurnLeft(causes, old(lefts), scripts, batches, lefts[i]);
      }
    }

    /** Nothing has been done yet but to open the run. */
    ghost predicate JustOpened()
      reads this, emitter, steering, followUps, tracker, emitter.gate.Controllers()
    {
      && Sound() && Agrees() && Conserves() && Ready() && emitter.Charged()
      && !hasCompletedTurn && !explicitContinuation && pending == [] && opening == 0
      && emitter.requested == 0 && causes == [] && lefts == [] && batches == []
      && SameCalls(Nothing, emitter.summary) && emitter.ran == emitter.refused == {} && !emitter.aborted
      && given == Given(base, 0, false)
    }

    /** The loop begins: steering that is there already comes with the first turn, unless that poll is skipped. */
    method Begin(scripts: seq<TurnScript>, initialArrivals: seq<Message>, skipInitialPoll: bool)
      requires JustOpened()
      modifies this`pending, this`polls, this`opening, steering
      ensures Running(scripts) && emitter.requested == 0 && !explicitContinuation
      ensures Warranted(Opening, 0, lefts, scripts)
      ensures opening == 0 <==> skipInitialPoll || old(steering.messages) + initialArrivals == []
    {
      hide Next, Summarize, From, Emitter.ChargedTo, Sound, Agrees, Conserves, EndedWith, SinceAnswer, Accounted,
           Warranted;
      NothingScheduled(scripts);
      NothingAccounted(scripts, emitter.summary, emitter.aborted, emitter.gate.Unlimited?);
      OneAnswerEach();
      PollAtStart(initialArrivals, skipInitialPoll);
    }

    /** The whole loop: the inner one serves tool calls and steering, the outer one follow-ups and continuations. */
    method RunLoop(scripts: seq<TurnScript>, initialArrivals: seq<Message>, skipInitialPoll: bool)
      returns (result: Result)
      requires JustOpened()
      requires forall t | t in scripts :: t.Sound()
      modifies this, steering, followUps, tracker, emitter,
               emitter.gate.Controllers()`providerRequests, emitter.gate.Controllers()`toolCalls
      ensures Over(result, scripts)
      ensures opening == 0 <==> skipInitialPoll || old(steering.messages) + initialArrivals == []
    {
      hide Next, Summarize, From, Emitter.ChargedTo, Sound, Agrees, Conserves, EndedWith, Scheduled, Warranted,
           TurnScript.Sound, SinceAnswer, Accounted, GivenRight, WasAborted;
      Begin(scripts, initialArrivals, skipInitialPoll);
      ghost var polled := opening;
      var i := 0;
      var cause := Opening;
      while true
        invariant Running(scripts) && i == emitter.requested && !explicitContinuation && opening == polled
        invariant Warranted(cause, i, lefts, scripts)
        decreases |scripts| - i
      {
        hasMoreToolCalls := true;
        ghost var entry := i;
        while hasMoreToolCalls || pending != []
          invariant Running(scripts) && entry <= i == emitter.requested && (i == entry ==> hasMoreToolCalls)
          invariant opening == polled
          invariant if hasMoreToolCalls || pending != [] then Warranted(cause, i, lefts, scripts)
                    else i > 0 && lefts[i - 1] == Left(false, 0, 0) && steering.messages == []
                         && explicitContinuation == scripts[i - 1].decision.Continue?
          decreases |scripts| - i
        {
          if i == |scripts| {
            return Waiting;
          }
          assert scripts[i] in scripts;
          var ending := TakeTurn(scripts, i, cause);
          if ending.Some? {
            return Ended(ending.value);
          }
          i, cause := i + 1, Pending;
        }
        var next := GoFurther(scripts, i);
        if next.None? {
          return Ended(Completed);
        }
        cause := next.value;
      }
    }

    /** With no tool calls and no steering left: go on with follow-ups or a continuation, or end the run. */
    method GoFurther(scripts: seq<TurnScript>, i: nat) returns (next: Option<Cause>)
      requires Running(scripts) && i == emitter.requested > 0 && lefts[i - 1] == Left(false, 0, 0)
      requires !hasMoreToolCalls && pending == [] && steering.messages == []
      requires explicitContinuation == scripts[i - 1].decision.Continue?
      modifies this`pending, this`polls, this`lefts, this`explicitContinuation, followUps, emitter`log, emitter`summary
      ensures next.Some? ==>
                && Running(scripts) && emitter.requested == i && !explicitContinuation
                && Warranted(next.value, i, lefts, scripts)
      ensures next.None? ==> Over(Ended(Completed), scripts)
    {
      hide Next, Summarize, From, Emitter.ChargedTo, Sound, Agrees, Conserves, EndedWith, Scheduled, Warranted,
           SinceAnswer, Accounted;
      next := WhatNext(scripts[i - 1].followUpArrivals);
      FollowUpsLeft(causes, old(lefts), scripts, batches, |pending|);
      if next.None? {
        AccountedStill(scripts, batches, emitter.summary, emitter.ran, emitter.refused, emitter.aborted,
                       emitter.gate.Unlimited?, emitter.summary.(phase := Finished(true)), emitter.aborted);
        Complete();
      }
    }
  }

  // ---------------------------------------------------------------------------------------------------------------
  // Whole runs

  /** What holds of a run whatever the outside world does: of its trace and its transcripts, of what it took out of the
      queues and when, of the reasons for its turns, and of its end. */
  ghost predicate SoundRun(run: AgentRun, result: Result, scripts: seq<TurnScript>)
    reads run, run.emitter, run.steering, run.followUps, run.tracker
  {
    var trace := Summarize(run.emitter.log);
    && trace == run.emitter.summary && trace.phase != Broken
    && (result.Ended? <==> trace.phase.Finished?)
    && (result.Ended? ==> run.emitter.log != []
                          && run.emitter.log[|run.emitter.log| - 1] == AgentEnd(run.newMessages, result.ending))
    && run.newMessages == trace.ended && run.initial <= run.newMessages
    && run.ContextRight() && run.GivenRight(scripts, |run.causes|)
    && run.Conserves() && (result.Ended? ==> run.pending == [])
    && |From({Answered}, run.newMessages)| == run.emitter.requested
    && Returns(run.newMessages, trace.started, trace.closed)
    && |run.emitter.ran| <= run.emitter.accepted && run.KeepsBooks(scripts)
    && (run.emitter.aborted ==> WasAborted(scripts, |run.causes|))
    && KeepsSchedule(run, result, scripts) && Terminates(run, result, scripts)
  }

  /** Every turn but a refused one makes its request; each has a reason; and a run ends by itself only when nothing is
      left to do, or it is told to stop. */
  ghost predicate KeepsSchedule(run: AgentRun, result: Result, scripts: seq<TurnScript>)
    reads run, run.emitter, run.steering, run.followUps
  {
    var refused := Summarize(run.emitter.log).phase == Finished(false);
    && run.emitter.requested <= |scripts| && (result.Waiting? ==> run.emitter.requested == |scripts|)
    && |run.causes| == run.emitter.requested + (if refused then 1 else 0)
    && Scheduled(run.causes, run.lefts, scripts, run.batches) && run.Finishes(result, scripts)
    && (refused ==> result.Ended? && run.emitter.requested < |scripts|
                    && RefusedAs(scripts[run.emitter.requested], result.ending))
    && (result == Ended(BudgetExhausted) ==> refused) && (run.emitter.gate.Unlimited? ==> !refused)
  }

  /** With a limit a run terminates whatever the outside world does, the requests left being the measure: with more
      turns ahead of it than a controller has requests left, it is never left waiting. */
  ghost predicate Terminates(run: AgentRun, result: Result, scripts: seq<TurnScript>) {
    forall c | c in run.emitter.gate.Controllers() && c.policy.maxProviderRequests.Some? ::
      && c in run.emitter.requestsBefore
      && (|scripts| > 0 && |scripts| > c.policy.maxProviderRequests.value - run.emitter.requestsBefore[c] ==>
            result.Ended?)
  }

  /** The gate's controllers were charged for every request and every tool body, and are within their limits. */
  ghost predicate StaysInBudget(run: AgentRun, gate: BudgetGate)
    reads run, run.emitter, gate.Controllers()
  {
    && run.emitter.gate == gate && |run.emitter.ran| <= run.emitter.accepted
    && forall c | c in gate.Controllers() ::
         && c.State().WithinLimits()
         && c in run.emitter.requestsBefore
         && c.providerRequests >= run.emitter.requestsBefore[c] + run.emitter.requested
         && c in run.emitter.toolCallsBefore
         && c.toolCalls >= run.emitter.toolCallsBefore[c] + run.emitter.accepted
  }

  lemma DeclaredOrPrompted(prompts: seq<Message>, toolChanges: int)
    ensures forall e | e in DeclareToolChanges(Tag(Prompted, prompts), toolChanges) ::
              e.origin.Prompted? || e.origin.Declared?
  {
  }

  lemma SoundOutcome(run: AgentRun, result: Result, scripts: seq<TurnScript>)
    requires run.Over(result, scripts)
    ensures SoundRun(run, result, scripts)
  {
    BudgetOutcome(run);
    hide Next, Summarize, From;
    forall c | c in run.emitter.gate.Controllers() && c.policy.maxProviderRequests.Some? && run.emitter.requested > 0
      ensures run.emitter.requested <= c.policy.maxProviderRequests.value - run.emitter.requestsBefore[c]
    {
      LimitedRunsEnd(run, c);
    }
  }

  lemma BudgetOutcome(run: AgentRun)
    requires run.Sound() && run.emitter.Charged()
    ensures StaysInBudget(run, run.emitter.gate)
  {
    hide Next, Summarize, From;
    forall c | c in run.emitter.gate.Controllers()
      ensures run.emitter.ChargedTo(c)
    {
    }
  }

  lemma LimitedRunsEnd(run: AgentRun, c: RunBudgetController)
    requires StaysInBudget(run, run.emitter.gate) && c in run.emitter.gate.Controllers()
    requires c.policy.maxProviderRequests.Some? && run.emitter.requested > 0
    ensures run.emitter.requested <= c.policy.maxProviderRequests.value - run.emitter.requestsBefore[c]
  {
  }

  lemma FailedCallsForNothing(t: TurnScript, batch: seq<CallOutcome>)
    requires Executed(t, batch) && t.Failed()
    ensures !CallsForMore(t, batch)
  {
  }

  /** Calls decide whether a run goes on. A turn that is not the last is followed to serve its calls or its steering
      exactly if it has calls that call for another request, or steering; and a run that ends by itself has sent the
      results of every such batch to the model, unless it was told to stop after it. */
  lemma CallsAreAnswered(run: AgentRun, result: Result, scripts: seq<TurnScript>, k: nat)
    requires SoundRun(run, result, scripts) && k < run.emitter.requested
    ensures k < |run.batches| && Executed(scripts[k], run.batches[k])
    ensures k + 1 < |run.causes| ==>
              && k < |run.lefts|
              && (run.causes[k + 1].Pending? <==>
                    CallsForMore(scripts[k], run.batches[k]) || run.lefts[k].steering > 0)
    ensures result == Ended(Completed) && CallsForMore(scripts[k], run.batches[k]) ==>
              k + 1 < run.emitter.requested || scripts[k].decision.End? || scripts[k].stop
  {
    hide Next, Summarize, From, CallsForMore, AgentRun.Conserves, Terminates, Closes, Accounts, Returns;
    if scripts[k].Failed() {
      FailedCallsForNothing(scripts[k], run.batches[k]);
    }
    if k + 1 < |run.causes| {
      assert Warranted(run.causes[k + 1], k + 1, run.lefts, scripts);
      assert GoesOn(scripts[k], run.batches[k], run.lefts[k]);
    }
    if k + 1 == run.emitter.requested == |run.lefts| {
      assert GoesOn(scripts[k], run.batches[k], run.lefts[k]);
    }
  }

  /** The result messages of a run are the results of its batches, in the order of the calls. */
  lemma ResultsReturned(run: AgentRun, result: Result, scripts: seq<TurnScript>)
    requires SoundRun(run, result, scripts)
    ensures From({Returned}, run.newMessages) == EntriesOf(AllResults(scripts, run.batches))
  {
    hide Next, Summarize, From, AllPossible, Accounts, AgentRun.Conserves, Terminates, KeepsSchedule;
    var returned, results := From({Returned}, run.newMessages), AllResults(scripts, run.batches);
    var s := run.emitter.summary;
    assert |returned| == |results|;
    forall n | 0 <= n < |returned|
      ensures returned[n] == EntryOf(results[n])
    {
      assert n in s.closed && s.closed[n] == results[n];
    }
  }

  /** What the events of a run say of its messages, and they of its context. */
  lemma SoundTrace(run: AgentRun, result: Result, scripts: seq<TurnScript>)
    requires SoundRun(run, result, scripts)
    ensures var trace := Summarize(run.emitter.log);
            && trace.phase != Broken && run.newMessages == trace.ended
            && (result.Ended? <==> trace.phase.Finished?)
    ensures !run.given.replaced ==> run.context == run.base + run.newMessages
  {
    hide Next, Summarize, From, Returns, Terminates, KeepsSchedule, AgentRun.Conserves, AgentRun.KeepsBooks;
    assert run.newMessages[0..] == run.newMessages;
  }

  method BeginAgentLoop(prompts: seq<Message>, context: seq<Entry>, toolChanges: int, gate: BudgetGate,
                        steering: PendingMessageQueue, followUps: PendingMessageQueue)
    returns (run: AgentRun)
    requires gate.Sound() && forall c | c in gate.Controllers() :: c.State().WithinLimits()
    requires steering.Valid() && followUps.Valid() && steering != followUps
    ensures fresh(run) && fresh(run.emitter) && fresh(run.tracker)
    ensures run.base == context && run.initial == DeclareToolChanges(Tag(Prompted, prompts), toolChanges)
    ensures run.steering == steering && run.followUps == followUps && run.emitter.gate == gate
    ensures run.steeringBefore == |steering.taken| && run.followUpsBefore == |followUps.taken|
    ensures run.JustOpened()
    ensures forall c | c in gate.Controllers() ::
              && c in run.emitter.requestsBefore && run.emitter.requestsBefore[c] == c.providerRequests
              && c in run.emitter.toolCallsBefore && run.emitter.toolCallsBefore[c] == c.toolCalls
  {
    hide Next, Summarize, From, DeclareToolChanges, AgentRun.Agrees, AgentRun.Conserves, BeforeAnswers, SinceAnswer;
    var initialMessages := DeclareToolChanges(Tag(Prompted, prompts), toolChanges);
    DeclaredOrPrompted(prompts, toolChanges);
    run := new AgentRun(gate, steering, followUps, context, initialMessages);
    run.Open();
  }

  /** `runAgentLoop`. */
  method RunAgentLoop(prompts: seq<Message>, context: seq<Entry>, toolChanges: int, gate: BudgetGate,
                      steering: PendingMessageQueue, followUps: PendingMessageQueue,
                      scripts: seq<TurnScript>, initialArrivals: seq<Message>, skipInitialPoll: bool)
    returns (run: AgentRun, result: Result)
    requires gate.Sound() && forall c | c in gate.Controllers() :: c.State().WithinLimits()
    requires steering.Valid() && followUps.Valid() && steering != followUps
    requires forall t | t in scripts :: t.Sound()
    modifies steering, followUps, gate.Controllers()`providerRequests, gate.Controllers()`toolCalls
    ensures fresh(run) && fresh(run.emitter)
    ensures run.base == context && run.initial == DeclareToolChanges(Tag(Prompted, prompts), toolChanges)
    ensures run.steering == steering && run.followUps == followUps && steering.Valid() && followUps.Valid()
    ensures run.steeringBefore == old(|steering.taken|) && run.followUpsBefore == old(|followUps.taken|)
    ensures SoundRun(run, result, scripts) && StaysInBudget(run, gate)
    ensures run.opening == 0 <==> skipInitialPoll || old(steering.messages) + initialArrivals == []
    ensures forall c | c in gate.Controllers() ::
              && run.emitter.requestsBefore[c] == old(c.providerRequests)
              && run.emitter.toolCallsBefore[c] == old(c.toolCalls)
  {
    hide Next, Summarize, From, DeclareToolChanges, Emitter.ChargedTo, SoundRun,
         AgentRun.Agrees, AgentRun.Conserves, AgentRun.EndedWith, AgentRun.Over;
    run := BeginAgentLoop(prompts, context, toolChanges, gate, steering, followUps);
    result := run.RunLoop(scripts, initialArrivals, skipInitialPoll);
    OverIsSound(run, result, scripts);
    SoundOutcome(run, result, scripts);
    BudgetOutcome(run);
  }

  lemma OverIsSound(run: AgentRun, result: Result, scripts: seq<TurnScript>)
    requires run.Over(result, scripts)
    ensures run.Sound() && run.emitter.Charged()
  {
  }

  /** `runAgentLoopContinue`: a run from a transcript that does not end with an answer. */
  method RunAgentLoopContinue(context: seq<Entry>, gate: BudgetGate, steering: PendingMessageQueue,
                              followUps: PendingMessageQueue, scripts: seq<TurnScript>, initialArrivals: seq<Message>)
    returns (started: Option<(AgentRun, Result)>)
    requires gate.Sound() && forall c | c in gate.Controllers() :: c.State().WithinLimits()
    requires steering.Valid() && followUps.Valid() && steering != followUps
    requires forall t | t in scripts :: t.Sound()
    modifies steering, followUps, gate.Controllers()`providerRequests, gate.Controllers()`toolCalls
    ensures started.None? <==> context == [] || context[|context| - 1].message.Assistant?
    ensures started.None? ==>
              steering.messages == old(steering.messages) && followUps.messages == old(followUps.messages)
    ensures started.Some? ==>
              var (run, result) := started.value;
              && fresh(run) && fresh(run.emitter) && run.base == context && run.initial == []
              && run.steering == steering && run.followUps == followUps && steering.Valid() && followUps.Valid()
              && run.steeringBefore == old(|steering.taken|) && run.followUpsBefore == old(|followUps.taken|)
              && SoundRun(run, result, scripts) && StaysInBudget(run, gate)
              && (run.opening == 0 <==> old(steering.messages) + initialArrivals == [])
              && forall c | c in gate.Controllers() ::
                   && run.emitter.requestsBefore[c] == old(c.providerRequests)
                   && run.emitter.toolCallsBefore[c] == old(c.toolCalls)
  {
    hide Next, Summarize, From, Emitter.ChargedTo, SoundRun;
    if context == [] || context[|context| - 1].message.Assistant? {
      return None;
    }
    assert Tag(Prompted, []) == [];
    var run, result :=
      RunAgentLoop([], context, 0, gate, steering, followUps, scripts, initialArrivals, false);
    started := Some((run, result));
  }

  /** One run of several that share a budget. */
  datatype Job = Job(prompts: seq<Message>, context: seq<Entry>, toolChanges: int, scripts: seq<TurnScript>)

  /** Runs that share a gate, one after the other: together they make no more requests and run no more tool bodies than
      each controller behind the gate has been charged for, which its limits bound. */
  method SharedRuns(jobs: seq<Job>, gate: BudgetGate, steering: PendingMessageQueue, followUps: PendingMessageQueue)
    returns (ghost requests: nat, ghost bodies: nat)
    requires gate.Sound() && forall c | c in gate.Controllers() :: c.State().WithinLimits()
    requires steering.Valid() && followUps.Valid() && steering != followUps
    requires forall job, t | job in jobs && t in job.scripts :: t.Sound()
    modifies steering, followUps, gate.Controllers()`providerRequests, gate.Controllers()`toolCalls
    ensures forall c | c in gate.Controllers() ::
              && c.State().WithinLimits()
              && c.providerRequests >= old(c.providerRequests) + requests
              && c.toolCalls >= old(c.toolCalls) + bodies
  {
    hide Next, Summarize, From, SoundRun, DeclareToolChanges;
    requests, bodies := 0, 0;
    for i := 0 to |jobs|
      invariant steering.Valid() && followUps.Valid()
      invariant forall c | c in gate.Controllers() ::
                  && c.State().WithinLimits()
                  && c.providerRequests >= old(c.providerRequests) + requests
                  && c.toolCalls >= old(c.toolCalls) + bodies
    {
      assert jobs[i] in jobs;
      var run, result := RunAgentLoop(jobs[i].prompts, jobs[i].context, jobs[i].toolChanges, gate, steering, followUps,
                                      jobs[i].scripts, [], false);
      requests := requests + run.emitter.requested;
      bodies := bodies + |run.emitter.ran|;
    }
  }
}
