/** The messages and events of an agent run, the grammar of its event trace, and the state that `Agent` derives from
    the events.

    The grammar is an automaton, `Summarize`; what its verdict means for a trace is spelled out by the lemmas after
    it. */
module AgentTrace {
  import opened Common
  import opened RepeatedToolErrors

  datatype StopReason = Normal | Length | ErrorStop | AbortedStop

  /** A system message's tool fields are one number, zero when it declares no change. */
  datatype Message =
    | System(content: int, toolChanges: int)
    | User(content: int)
    | Assistant(content: int, calls: seq<ToolCall>, stop: StopReason)
    | Output(result: ToolResult)

  /** How a message came into the transcript. The program does not record it; it lets conservation be stated. */
  datatype Origin = Prompted | Prepared | Steered | FollowedUp | Declared | Answered | Returned | GaveUp

  datatype Entry = Entry(origin: Origin, message: Message)

  datatype Ending = Completed | Aborted | Failed | BudgetExhausted

  /** Tool events carry the number of the call within the run besides its id, which a model may repeat; the end of a
      call carries its result. */
  datatype Event =
    | AgentStart
    | TurnStart
    | MessageStart(entry: Entry)
    | MessageUpdate(entry: Entry)
    | MessageEnd(entry: Entry)
    | ToolStart(call: nat, id: string)
    | ToolUpdate(call: nat, id: string)
    | ToolEnd(call: nat, id: string, result: ToolResult)
    | TurnEnd
    | AgentEnd(messages: seq<Entry>, ending: Ending)

  datatype Phase =
    | NotStarted
    | Starting
    | InTurn
    | InMessage
    | BetweenTurns
    | Finished(turnClosed: bool)
    | Broken

  /** What a trace amounts to: where it stands, the messages it ended, the calls started, those still open, and the
      results with which the others ended. */
  datatype Summary = Summary(
    phase: Phase,
    ended: seq<Entry>,
    started: nat,
    open: map<nat, string>,
    closed: map<nat, ToolResult>)

  const Nothing := Summary(NotStarted, [], 0, map[], map[])

  function Next(s: Summary, e: Event): Summary {
    match (s.phase, e)
    case (NotStarted, AgentStart) => s.(phase := Starting)
    case (Starting, TurnStart) => s.(phase := InTurn)
    case (BetweenTurns, TurnStart) => s.(phase := InTurn)
    case (InTurn, MessageStart(_)) => s.(phase := InMessage)
    case (InMessage, MessageUpdate(_)) => s
    case (InMessage, MessageEnd(entry)) => s.(phase := InTurn, ended := s.ended + [entry])
    case (InTurn, ToolStart(call, id)) =>
      if call == s.started then s.(started := s.started + 1, open := s.open[call := id]) else s.(phase := Broken)
    case (InTurn, ToolUpdate(call, id)) =>
      if call in s.open && s.open[call] == id then s else s.(phase := Broken)
    case (InTurn, ToolEnd(call, id, result)) =>
      if call in s.open && s.open[call] == id && result.toolCallId == id then
        s.(open := s.open - {call}, closed := s.closed[call := result])
      else s.(phase := Broken)
    case (InTurn, TurnEnd) => if s.open == map[] then s.(phase := BetweenTurns) else s.(phase := Broken)
    case (BetweenTurns, AgentEnd(messages, ending)) =>
      s.(phase := if !ending.BudgetExhausted? && messages == s.ended then Finished(true) else Broken)
    case (InTurn, AgentEnd(messages, ending)) =>
      s.(phase := if (ending.BudgetExhausted? || ending.Aborted?) && s.open == map[] && messages == s.ended
                  then Finished(false) else Broken)
    case _ => s.(phase := Broken)
  }

  function Summarize(log: seq<Event>): Summary {
    if log == [] then Nothing else Next(Summarize(log[..|log| - 1]), log[|log| - 1])
  }

  lemma SummarizeOneMore(log: seq<Event>, e: Event)
    ensures Summarize(log + [e]) == Next(Summarize(log), e)
  {
    assert (log + [e])[..|log|] == log;
  }

  // ---------------------------------------------------------------------------------------------------------------
  // What the verdict means

  lemma BrokenStays(s: Summary, e: Event)
    ensures s.phase.Broken? ==> Next(s, e).phase.Broken?
    ensures !Next(s, e).phase.NotStarted?
  {
    match s.phase
    case NotStarted =>
    case Starting =>
    case InTurn =>
    case InMessage =>
    case BetweenTurns =>
    case Finished(_) =>
    case Broken =>
  }

  lemma {:induction false} EarlierIsSound(log: seq<Event>, k: nat)
    requires Summarize(log).phase != Broken && k <= |log|
    ensures Summarize(log[..k]).phase != Broken
    ensures k < |log| ==> Next(Summarize(log[..k]), log[k]) == Summarize(log[..k + 1])
    ensures k < |log| ==> Summarize(log[..k + 1]).phase != Broken
    decreases |log|
  {
    hide Next;
    if k == |log| {
      assert log[..k] == log;
    } else {
      var front, last := log[..|log| - 1], log[|log| - 1];
      BrokenStays(Summarize(front), last);
      if k == |front| {
        assert log[..k + 1] == log;
      } else {
        EarlierIsSound(front, k);
        assert front[..k] == log[..k] && front[..k + 1] == log[..k + 1];
      }
    }
  }

  /** A finished trace starts with the one `agent_start` and ends with the one `agent_end`. */
  lemma {:induction false} OneStartOneEnd(log: seq<Event>, k: nat)
    requires Summarize(log).phase != Broken && k < |log|
    ensures log[k].AgentStart? <==> k == 0
    ensures log[k].AgentEnd? ==> k == |log| - 1
    ensures Summarize(log).phase.Finished? <==> log[|log| - 1].AgentEnd?
  {
    hide Next, Summarize;
    EarlierIsSound(log, k);
    NotStartedMeansEmpty(log[..k]);
    StartsAndEnds(Summarize(log[..k]), log[k]);
    if k + 1 < |log| {
      EarlierIsSound(log, k + 1);
      StartsAndEnds(Summarize(log[..k + 1]), log[k + 1]);
    }
    EarlierIsSound(log, |log| - 1);
    StartsAndEnds(Summarize(log[..|log| - 1]), log[|log| - 1]);
    assert log[..|log|] == log;
  }

  lemma StartsAndEnds(s: Summary, e: Event)
    requires Next(s, e).phase != Broken
    ensures e.AgentStart? <==> s.phase.NotStarted?
    ensures e.AgentEnd? <==> Next(s, e).phase.Finished?
    ensures !s.phase.Finished?
  {
  }

  lemma NotStartedMeansEmpty(log: seq<Event>)
    ensures Summarize(log).phase.NotStarted? <==> log == []
  {
    hide Next;
    if log != [] {
      BrokenStays(Summarize(log[..|log| - 1]), log[|log| - 1]);
    }
  }

  lemma BracketStep(s: Summary, e: Event)
    requires Next(s, e).phase != Broken
    ensures e.MessageStart? ==> Next(s, e).phase.InMessage?
    ensures s.phase.InMessage? ==> e.MessageUpdate? || e.MessageEnd?
    ensures e.MessageUpdate? ==> Next(s, e).phase.InMessage?
  {
    match s.phase
    case NotStarted =>
    case Starting =>
    case InTurn =>
    case InMessage =>
    case BetweenTurns =>
    case Finished(_) =>
    case Broken =>
  }

  /** Message brackets neither nest nor interleave: after a `message_start` come only updates until its
      `message_end`. */
  lemma BracketsClose(log: seq<Event>, k: nat, m: nat)
    requires Summarize(log).phase != Broken
    requires k < m < |log| && log[k].MessageStart?
    requires forall j | k < j < m :: log[j].MessageUpdate?
    ensures log[m].MessageUpdate? || log[m].MessageEnd?
    ensures Summarize(log[..m]).phase.InMessage?
  {
    hide Next;
    EarlierIsSound(log, m - 1);
    EarlierIsSound(log, m);
    BracketStep(Summarize(log[..m - 1]), log[m - 1]);
    BracketStep(Summarize(log[..m]), log[m]);
  }

  function TurnsOf(e: Event): int {
    match e case TurnStart => 1 case TurnEnd => -1 case _ => 0
  }

  function Turns(log: seq<Event>): int {
    if log == [] then 0 else Turns(log[..|log| - 1]) + TurnsOf(log[|log| - 1])
  }

  predicate TurnsRight(phase: Phase, turns: int) {
    match phase
    case NotStarted | Starting | BetweenTurns => turns == 0
    case InTurn | InMessage => turns == 1
    case Finished(closed) => turns == if closed then 0 else 1
    case Broken => true
  }

  lemma OneMoreTurn(s: Summary, e: Event, turns: int)
    requires TurnsRight(s.phase, turns)
    ensures TurnsRight(Next(s, e).phase, turns + TurnsOf(e))
  {
    match s.phase
    case NotStarted =>
    case Starting =>
    case InTurn =>
    case InMessage =>
    case BetweenTurns =>
    case Finished(_) =>
    case Broken =>
  }

  /** Turns never nest, and every turn but perhaps the last is closed: at the end one is left open exactly when the
      trace says so. */
  lemma {:induction false} TurnsClose(log: seq<Event>)
    requires Summarize(log).phase != Broken
    ensures match Summarize(log).phase
            case NotStarted | Starting | BetweenTurns => Turns(log) == 0
            case InTurn | InMessage => Turns(log) == 1
            case Finished(closed) => Turns(log) == if closed then 0 else 1
            case Broken => true
    decreases |log|
  {
    hide Next;
    if log != [] {
      EarlierIsSound(log, |log| - 1);
      assert log[..|log|] == log;
      TurnsClose(log[..|log| - 1]);
      OneMoreTurn(Summarize(log[..|log| - 1]), log[|log| - 1], Turns(log[..|log| - 1]));
    }
  }

  /** The events of one tool call, in order. */
  function OfCall(log: seq<Event>, call: nat): seq<Event> {
    if log == [] then []
    else OfCall(log[..|log| - 1], call) + if Concerns(log[|log| - 1], call) then [log[|log| - 1]] else []
  }

  /** Start, updates, and nothing after the end. */
  predicate Opened(events: seq<Event>) {
    && events != [] && events[0].ToolStart?
    && forall k | 0 < k < |events| :: events[k].ToolUpdate?
  }

  predicate Closed(events: seq<Event>) {
    && events != [] && events[|events| - 1].ToolEnd?
    && Opened(events[..|events| - 1])
  }

  /** What the events of a call are, by what the summary says of it. */
  ghost predicate CallShape(s: Summary, call: nat, events: seq<Event>) {
    if call in s.open then call < s.started && Opened(events)
    else if call < s.started then
      Closed(events) && call in s.closed && s.closed[call] == events[|events| - 1].result
    else events == []
  }

  lemma OneMoreCallEvent(s: Summary, call: nat, events: seq<Event>, e: Event)
    requires CallShape(s, call, events) && Next(s, e).phase != Broken
    ensures CallShape(Next(s, e), call, events + if Concerns(e, call) then [e] else [])
  {
    assert (events + [e])[..|events|] == events;
    assert events + [] == events;
  }

  predicate Concerns(e: Event, call: nat) {
    (e.ToolStart? || e.ToolUpdate? || e.ToolEnd?) && e.call == call
  }

  /** Pairing, whatever the interleaving: a started call has one start, then updates, then, once it is no longer open,
      exactly one end and nothing after it; a call not started has no events. */
  lemma {:induction false} CallsPair(log: seq<Event>, call: nat)
    requires Summarize(log).phase != Broken
    ensures CallShape(Summarize(log), call, OfCall(log, call))
    decreases |log|
  {
    if log != [] {
      EarlierIsSound(log, |log| - 1);
      assert log[..|log|] == log;
      CallsPair(log[..|log| - 1], call);
      OneMoreCallEvent(Summarize(log[..|log| - 1]), call, OfCall(log[..|log| - 1], call), log[|log| - 1]);
    }
  }

  predicate OpenWereStarted(s: Summary) {
    forall call | call in s.open :: call < s.started
  }

  lemma OpenStep(s: Summary, e: Event)
    requires OpenWereStarted(s)
    ensures OpenWereStarted(Next(s, e))
  {
    match s.phase
    case NotStarted =>
    case Starting =>
    case InTurn =>
    case InMessage =>
    case BetweenTurns =>
    case Finished(_) =>
    case Broken =>
  }

  lemma {:induction false} OpenCallsWereStarted(log: seq<Event>)
    ensures OpenWereStarted(Summarize(log))
    decreases |log|
  {
    hide Next;
    if log != [] {
      OpenCallsWereStarted(log[..|log| - 1]);
      OpenStep(Summarize(log[..|log| - 1]), log[|log| - 1]);
    }
  }

  // ---------------------------------------------------------------------------------------------------------------
  // The state the Agent keeps

  datatype View = View(messages: seq<Entry>, streaming: Option<Entry>, pendingToolCalls: set<string>)

  /** `processEvents`. */
  function Reduce(view: View, e: Event): View {
    match e
    case MessageStart(entry) => view.(streaming := Some(entry))
    case MessageUpdate(entry) => view.(streaming := Some(entry))
    case MessageEnd(entry) => view.(streaming := None, messages := view.messages + [entry])
    case ToolStart(_, id) => view.(pendingToolCalls := view.pendingToolCalls + {id})
    case ToolEnd(_, id, _) => view.(pendingToolCalls := view.pendingToolCalls - {id})
    case AgentEnd(_, _) => view.(streaming := None)
    case _ => view
  }

  function ReduceAll(view: View, log: seq<Event>): View {
    if log == [] then view else Reduce(ReduceAll(view, log[..|log| - 1]), log[|log| - 1])
  }

  /** What the agent shows after any sound trace: its messages grew by exactly the messages ended, it streams a message
      exactly inside a bracket, and every call it shows as pending is indeed open. */
  lemma {:induction false} AgentStateFollows(view: View, log: seq<Event>)
    requires Summarize(log).phase != Broken
    requires view.streaming.None? && view.pendingToolCalls == {}
    ensures var s, after := Summarize(log), ReduceAll(view, log);
            && after.messages == view.messages + s.ended
            && (after.streaming.Some? <==> s.phase.InMessage?)
            && after.pendingToolCalls <= s.open.Values
    decreases |log|
  {
    if log == [] {
      assert view.messages + [] == view.messages;
    } else {
      var front, last := log[..|log| - 1], log[|log| - 1];
      EarlierIsSound(log, |front|);
      assert log[..|log|] == log;
      AgentStateFollows(view, front);
      OpenCallsWereStarted(front);
      StepFollows(view.messages, ReduceAll(view, front), Summarize(front), last);
      hide Next, Reduce;
    }
  }

  lemma StepFollows(shown: seq<Entry>, view: View, s: Summary, e: Event)
    requires Next(s, e).phase != Broken
    requires view.messages == shown + s.ended && (view.streaming.Some? <==> s.phase.InMessage?)
    requires view.pendingToolCalls <= s.open.Values && forall call | call in s.open :: call < s.started
    ensures var next, after := Next(s, e), Reduce(view, e);
            && after.messages == shown + next.ended
            && (after.streaming.Some? <==> next.phase.InMessage?)
            && after.pendingToolCalls <= next.open.Values
  {
    PendingFollows(view, s, e);
  }

  lemma PendingFollows(view: View, s: Summary, e: Event)
    requires Next(s, e).phase != Broken && view.pendingToolCalls <= s.open.Values
    requires forall call | call in s.open :: call < s.started
    ensures Reduce(view, e).pendingToolCalls <= Next(s, e).open.Values
  {
    forall id | id in Reduce(view, e).pendingToolCalls
      ensures id in Next(s, e).open.Values
    {
      if e.ToolStart? && id == e.id {
        assert Next(s, e).open[e.call] == id;
      } else {
        assert id in s.open.Values;
        var call :| call in s.open && s.open[call] == id;
        assert call in Next(s, e).open && Next(s, e).open[call] == id;
      }
    }
  }

  /** When no call is open no id is pending, even if calls shared ids. */
  lemma NothingPendingAtTheEnd(view: View, log: seq<Event>)
    requires Summarize(log).phase.Finished?
    requires view.streaming.None? && view.pendingToolCalls == {}
    ensures ReduceAll(view, log).pendingToolCalls == {} && ReduceAll(view, log).streaming.None?
  {
    AgentStateFollows(view, log);
    FinishedHasNothingOpen(log);
  }

  lemma ClosingStep(s: Summary, e: Event)
    requires s.phase.Finished? || s.phase.BetweenTurns? ==> s.open == map[]
    ensures Next(s, e).phase.Finished? || Next(s, e).phase.BetweenTurns? ==> Next(s, e).open == map[]
  {
    match s.phase
    case NotStarted =>
    case Starting =>
    case InTurn =>
    case InMessage =>
    case BetweenTurns =>
    case Finished(_) =>
    case Broken =>
  }

  lemma {:induction false} FinishedHasNothingOpen(log: seq<Event>)
    ensures Summarize(log).phase.Finished? || Summarize(log).phase.BetweenTurns? ==> Summarize(log).open == map[]
    decreases |log|
  {
    hide Next;
    if log != [] {
      FinishedHasNothingOpen(log[..|log| - 1]);
      ClosingStep(Summarize(log[..|log| - 1]), log[|log| - 1]);
    }
  }

  // ---------------------------------------------------------------------------------------------------------------
  // Declaring tool changes

  /** Index of the last system message. */
  function LastSystem(entries: seq<Entry>): (index: Option<nat>)
    ensures index.Some? ==> index.value < |entries| && entries[index.value].message.System?
    ensures index.None? ==> forall e | e in entries :: !e.message.System?
  {
    if entries == [] then None
    else if entries[|entries| - 1].message.System? then Some(|entries| - 1)
    else LastSystem(entries[..|entries| - 1])
  }

  /** `changes` is the difference between the tools declared so far and those that can be executed. The last pending
      system message takes it over; without one, a new system message goes first. */
  function DeclareToolChanges(pending: seq<Entry>, changes: int): seq<Entry> {
    match LastSystem(pending)
    case Some(i) =>
      if changes == 0 && pending[i].message.toolChanges == 0 then pending
      else pending[i := pending[i].(message := pending[i].message.(toolChanges := changes))]
    case None =>
      if changes == 0 then pending else [Entry(Declared, System(0, changes))] + pending
  }

  function Erase(entry: Entry): Entry {
    if entry.message.System? then entry.(message := entry.message.(toolChanges := 0)) else entry
  }

  /** The entries of some origins with their tool fields blanked. */
  function From(origins: set<Origin>, entries: seq<Entry>): seq<Entry> {
    if entries == [] then []
    else
      From(origins, entries[..|entries| - 1])
      + if entries[|entries| - 1].origin in origins then [Erase(entries[|entries| - 1])] else []
  }

  lemma {:induction false} FromAppend(origins: set<Origin>, a: seq<Entry>, b: seq<Entry>)
    ensures From(origins, a + b) == From(origins, a) + From(origins, b)
    decreases |b|
  {
    if b == [] {
      assert a + b == a;
    } else {
      LastOut(a, b);
      assert ((a + b[..|b| - 1]) + [b[|b| - 1]])[..|a + b[..|b| - 1]|] == a + b[..|b| - 1];
      FromAppend(origins, a, b[..|b| - 1]);
    }
  }

  lemma {:induction false} FromUpdate(origins: set<Origin>, entries: seq<Entry>, i: nat, entry: Entry)
    requires i < |entries| && Erase(entry) == Erase(entries[i])
    ensures From(origins, entries[i := entry]) == From(origins, entries)
    decreases |entries|
  {
    assert Erase(entry).origin == entry.origin;
    if i < |entries| - 1 {
      assert entries[i := entry][..|entries| - 1] == entries[..|entries| - 1][i := entry];
      FromUpdate(origins, entries[..|entries| - 1], i, entry);
    } else {
      assert entries[i := entry][..|entries| - 1] == entries[..|entries| - 1];
    }
  }

  /** Declaring changes loses, duplicates and reorders nothing: apart from tool fields, the messages of any other
      origin are what they were. */
  lemma DeclaringKeepsMessages(pending: seq<Entry>, changes: int, origins: set<Origin>)
    requires Declared !in origins
    ensures From(origins, DeclareToolChanges(pending, changes)) == From(origins, pending)
  {
    match LastSystem(pending)
    case Some(i) =>
      FromUpdate(origins, pending, i, pending[i].(message := pending[i].message.(toolChanges := changes)));
    case None =>
      var declared := [Entry(Declared, System(0, changes))];
      FromAppend(origins, declared, pending);
      assert declared[..0] == [] && From(origins, declared) == [];
  }

  /** What is declared: the last system message carries the changes, and one is put first if there are changes and
      none is pending. Nothing is declared if there is nothing to declare. */
  lemma DeclaringDeclares(pending: seq<Entry>, changes: int)
    ensures var declared := DeclareToolChanges(pending, changes);
            if changes == 0 && forall e | e in pending :: !e.message.System? then declared == pending
            else exists i | 0 <= i < |declared| ::
                   && declared[i].message.System? && declared[i].message.toolChanges == changes
                   && (forall j | i < j < |declared| :: !declared[j].message.System?)
                   && (i == 0 || |declared| == |pending|)
                   && |declared| == |pending| + if exists e :: e in pending && e.message.System? then 0 else 1
  {
    var declared := DeclareToolChanges(pending, changes);
    LastSystemIsLast(pending);
    match LastSystem(pending)
    case Some(i) =>
      assert pending[i] in pending && declared[i].message.System? && declared[i].message.toolChanges == changes;
      assert forall j | i < j < |declared| :: declared[j] == pending[j];
    case None =>
      if changes != 0 {
        assert declared[0].message.System? && declared[0].message.toolChanges == changes;
        assert forall j | 0 < j < |declared| :: declared[j] == pending[j - 1] && pending[j - 1] in pending;
      }
  }

  lemma {:induction false} LastSystemIsLast(entries: seq<Entry>)
    ensures LastSystem(entries).Some? ==>
              forall j | LastSystem(entries).value < j < |entries| :: !entries[j].message.System?
    decreases |entries|
  {
    if entries != [] {
      LastSystemIsLast(entries[..|entries| - 1]);
    }
  }

  lemma {:induction false} FromForeign(origins: set<Origin>, entries: seq<Entry>)
    requires forall e | e in entries :: e.origin !in origins
    ensures From(origins, entries) == []
    decreases |entries|
  {
    if entries != [] {
      FromForeign(origins, entries[..|entries| - 1]);
    }
  }

  /** Adding entries of other origins changes nothing for these. */
  lemma FromUnaffected(origins: set<Origin>, before: seq<Entry>, others: seq<Entry>)
    requires forall e | e in others :: e.origin !in origins
    ensures From(origins, before + others) == From(origins, before)
  {
    FromForeign(origins, others);
    FromAppend(origins, before, others);
  }

  lemma {:induction false} FromAll(origins: set<Origin>, entries: seq<Entry>)
    requires forall e | e in entries :: e.origin in origins
    ensures |From(origins, entries)| == |entries|
    ensures forall i | 0 <= i < |entries| :: From(origins, entries)[i] == Erase(entries[i])
    decreases |entries|
  {
    if entries != [] {
      FromAll(origins, entries[..|entries| - 1]);
    }
  }

  /** Only a declaration of its own is new. */
  lemma DeclaredOrigins(pending: seq<Entry>, changes: int, origins: set<Origin>)
    requires Declared in origins && forall e | e in pending :: e.origin in origins
    ensures forall e | e in DeclareToolChanges(pending, changes) :: e.origin in origins
  {
    if LastSystem(pending).Some? {
      assert pending[LastSystem(pending).value] in pending;
    }
  }

  // ---------------------------------------------------------------------------------------------------------------
  // What comes from the queues between two answers

  /** What came from the queues since the last answer. */
  function SinceAnswer(entries: seq<Entry>): seq<Entry> {
    if entries == [] then []
    else
      var front, last := entries[..|entries| - 1], entries[|entries| - 1];
      if last.origin.Answered? then []
      else SinceAnswer(front) + if last.origin in {Steered, FollowedUp} then [Erase(last)] else []
  }

  /** The same for the time before each answer, back to the answer before it. */
  function BeforeAnswers(entries: seq<Entry>): seq<seq<Entry>> {
    if entries == [] then []
    else
      var front, last := entries[..|entries| - 1], entries[|entries| - 1];
      BeforeAnswers(front) + if last.origin.Answered? then [SinceAnswer(front)] else []
  }

  /** What a transcript has from the queues before its first answer, between any two, and after its last. */
  function Gaps(entries: seq<Entry>): (gaps: seq<seq<Entry>>)
    ensures gaps != []
  {
    BeforeAnswers(entries) + [SinceAnswer(entries)]
  }

  lemma {:induction false} AnswersAndGaps(entries: seq<Entry>)
    ensures |Gaps(entries)| == |From({Answered}, entries)| + 1
    decreases |entries|
  {
    if entries != [] {
      AnswersAndGaps(entries[..|entries| - 1]);
    }
  }

  lemma {:induction false} GapGrows(entries: seq<Entry>, more: seq<Entry>)
    requires forall e | e in more :: !e.origin.Answered?
    ensures SinceAnswer(entries + more) == SinceAnswer(entries) + From({Steered, FollowedUp}, more)
    ensures BeforeAnswers(entries + more) == BeforeAnswers(entries)
    decreases |more|
  {
    if more == [] {
      assert entries + more == entries;
    } else {
      var front, last := more[..|more| - 1], more[|more| - 1];
      assert (entries + more)[..|entries + more| - 1] == entries + front;
      assert (entries + more)[|entries + more| - 1] == last && last in more;
      GapGrows(entries, front);
    }
  }

  lemma GapsStay(entries: seq<Entry>, more: seq<Entry>)
    requires forall e | e in more :: e.origin !in {Answered, Steered, FollowedUp}
    ensures Gaps(entries + more) == Gaps(entries) && SinceAnswer(entries + more) == SinceAnswer(entries)
  {
    hide SinceAnswer, BeforeAnswers, From;
    GapGrows(entries, more);
    FromForeign({Steered, FollowedUp}, more);
    assert SinceAnswer(entries) + [] == SinceAnswer(entries);
  }

  lemma AnswerOpensGap(entries: seq<Entry>, answer: Entry)
    requires answer.origin.Answered?
    ensures Gaps(entries + [answer]) == Gaps(entries) + [[]] && SinceAnswer(entries + [answer]) == []
  {
    assert (entries + [answer])[..|entries|] == entries;
  }

  function NonEmpty(gaps: seq<seq<Entry>>): seq<seq<Entry>> {
    if gaps == [] then []
    else NonEmpty(gaps[..|gaps| - 1]) + if gaps[|gaps| - 1] == [] then [] else [gaps[|gaps| - 1]]
  }

  lemma NonEmptyOneMore(gaps: seq<seq<Entry>>, gap: seq<Entry>)
    ensures NonEmpty(gaps + [gap]) == NonEmpty(gaps) + if gap == [] then [] else [gap]
  {
    assert (gaps + [gap])[..|gaps|] == gaps;
  }
}
