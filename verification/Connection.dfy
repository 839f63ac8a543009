/** The life cycle of a client connection.

    The methods of `Connection` are the program's, and so is their order of effects. What the program calls back into
    may itself call `connect`, `disconnect` or `fail` before it returns: every callback is given as a `Reaction`, an
    arbitrary finite tree of such calls. Asynchronous completions (the factory, a send, a transport event) arrive as
    separate calls in any order. Notifications, settled promises and closed transports are recorded as they happen. */
module Connection {
  import opened Common

  /** What a callback does before it returns. */
  datatype Reaction =
    | Quiet
    | Throws
    | Calls(call: Call, rest: Reaction)

  datatype Call =
    | Disconnect(onDisconnected: Reaction)
    | Reconnect(onConnecting: Reaction)

  datatype Notification = Connecting | Connected | Disconnected

  datatype Message = Hello(fromExpectedServer: bool) | HelloError | Regular

  /** A decoded message and the reactions of the callbacks its handling may run. */
  datatype Incoming = Incoming(
    message: Message,
    onHandshake: Reaction,
    onConnected: Reaction,
    onMessage: Reaction,
    onDisconnected: Reaction)

  /** `connected` distinguishes the two active states; `pending` says the handshake promise is still held. */
  datatype Lifecycle =
    | Inactive
    | Active(id: nat, transport: Option<nat>, connected: bool, pending: bool)

  // ---------------------------------------------------------------------------------------------------------------
  // The notification grammar

  datatype Phase = Down | Trying | Up | Broken

  function Next(phase: Phase, note: Notification): Phase {
    match (phase, note)
    case (Down, Connecting) => Trying
    case (Trying, Connected) => Up
    case (Trying, Disconnected) => Down
    case (Up, Disconnected) => Down
    case _ => Broken
  }

  function Scan(notes: seq<Notification>): Phase {
    if notes == [] then Down else Next(Scan(notes[..|notes| - 1]), notes[|notes| - 1])
  }

  /** A notification may stand where it stands, judged by the one before it. */
  predicate Fits(notes: seq<Notification>, k: nat)
    requires k < |notes|
  {
    match notes[k]
    case Connecting => k == 0 || notes[k - 1] == Disconnected
    case Connected => k > 0 && notes[k - 1] == Connecting
    case Disconnected => k > 0 && notes[k - 1] != Disconnected
  }

  /** The sequences (connecting connected? disconnected)*, the last repetition possibly unfinished. */
  ghost predicate Alternates(notes: seq<Notification>) {
    forall k: nat | k < |notes| :: Fits(notes, k)
  }

  lemma {:induction false} ScanAcceptsAlternation(notes: seq<Notification>)
    ensures Scan(notes) != Broken <==> Alternates(notes)
    ensures Scan(notes) == Trying ==> notes != [] && notes[|notes| - 1] == Connecting
    ensures Scan(notes) == Up ==> notes != [] && notes[|notes| - 1] == Connected
    ensures Scan(notes) == Down ==> notes == [] || notes[|notes| - 1] == Disconnected
    decreases |notes|
  {
    if notes != [] {
      var front, last := notes[..|notes| - 1], notes[|notes| - 1];
      ScanAcceptsAlternation(front);
      forall k: nat | k < |front|
        ensures Fits(front, k) == Fits(notes, k)
      {
        assert front[k] == notes[k];
      }
      assert Alternates(notes) <==> Alternates(front) && Fits(notes, |front|);
    }
  }

  lemma ScanOneMore(notes: seq<Notification>, note: Notification)
    ensures Scan(notes + [note]) == Next(Scan(notes), note)
  {
    assert (notes + [note])[..|notes|] == notes;
  }

  // ---------------------------------------------------------------------------------------------------------------
  // What each call leaves behind

  datatype Status = Status(lifecycle: Lifecycle, sequence: nat)

  function AfterReaction(s: Status, reaction: Reaction): Status
    decreases reaction, 0
  {
    match reaction
    case Quiet | Throws => s
    case Calls(Disconnect(onDisconnected), rest) => AfterReaction(AfterFail(s, onDisconnected), rest)
    case Calls(Reconnect(onConnecting), rest) => AfterReaction(AfterConnect(s, onConnecting), rest)
  }

  function AfterConnect(s: Status, onConnecting: Reaction): Status
    decreases onConnecting, 1
  {
    if s.lifecycle.Active? then s
    else AfterReaction(Status(Active(s.sequence + 1, None, false, true), s.sequence + 1), onConnecting)
  }

  function AfterFail(s: Status, onDisconnected: Reaction): Status
    decreases onDisconnected, 1
  {
    if s.lifecycle.Inactive? then s else AfterReaction(Status(Inactive, s.sequence), onDisconnected)
  }

  predicate EndsThrowing(reaction: Reaction) {
    match reaction
    case Quiet => false
    case Throws => true
    case Calls(_, rest) => EndsThrowing(rest)
  }

  function AfterHandshake(s: Status, incoming: Incoming): Status
    requires s.lifecycle.Active?
  {
    var connected := s.lifecycle.(connected := true);
    var told := AfterReaction(s.(lifecycle := connected), incoming.onHandshake);
    if told.lifecycle != connected then told
    else if EndsThrowing(incoming.onHandshake) then AfterFail(told, incoming.onDisconnected)
    else AfterAnnounce(told, incoming.onConnected)
  }

  function AfterAnnounce(s: Status, onConnected: Reaction): Status
    requires s.lifecycle.Active?
  {
    var notified := AfterReaction(s, onConnected);
    if notified.lifecycle != s.lifecycle then notified
    else notified.(lifecycle := s.lifecycle.(pending := false))
  }

  function AfterMessage(s: Status, incoming: Incoming): Status {
    if s.lifecycle.Inactive? then s
    else if !s.lifecycle.connected then
      if incoming.message != Hello(true) || s.lifecycle.transport.None? then AfterFail(s, incoming.onDisconnected)
      else AfterHandshake(s, incoming)
    else if !incoming.message.Regular? then AfterFail(s, incoming.onDisconnected)
    else AfterReaction(s, incoming.onMessage)
  }

  function AfterMessages(s: Status, messages: seq<Incoming>): Status {
    if messages == [] then s
    else AfterMessage(AfterMessages(s, messages[..|messages| - 1]), messages[|messages| - 1])
  }

  lemma {:induction false} AfterMessagesAppend(s: Status, a: seq<Incoming>, b: seq<Incoming>)
    ensures AfterMessages(s, a + b) == AfterMessages(AfterMessages(s, a), b)
    decreases |b|
  {
    if b == [] {
      assert a + b == a;
    } else {
      assert (a + b)[..|a + b| - 1] == a + b[..|b| - 1];
      AfterMessagesAppend(s, a, b[..|b| - 1]);
    }
  }

  lemma {:induction false} InactiveIgnoresMessages(s: Status, messages: seq<Incoming>)
    requires s.lifecycle.Inactive?
    ensures AfterMessages(s, messages) == s
    decreases |messages|
  {
    if messages != [] {
      InactiveIgnoresMessages(s, messages[..|messages| - 1]);
    }
  }

  /** Message `k` of the chunk reaches an attempt other than the one the chunk came for. */
  predicate Strays(s: Status, messages: seq<Incoming>, k: nat)
    requires k < |messages| && s.lifecycle.Active?
  {
    var at := AfterMessages(s, messages[..k]).lifecycle;
    at.Active? && at.id != s.lifecycle.id
  }

  /** A callback that leaves the connection alone, although it may throw. */
  predicate Idle(reaction: Reaction) {
    reaction.Quiet? || reaction.Throws?
  }

  lemma IdleStays(s: Status, reaction: Reaction)
    requires Idle(reaction)
    ensures AfterReaction(s, reaction) == s
  {
  }

  /** The attempt is still the current one. */
  predicate Stays(s: Status, next: Status) {
    s.lifecycle.Active? && next.lifecycle.Active? && next.lifecycle.id == s.lifecycle.id
  }

  /** What a message does to an attempt with a transport, apart from what its callbacks do. The expected hello connects
      it, and afterwards a regular message leaves it connected; anything else ends it. */
  predicate Decides(s: Status, incoming: Incoming, next: Status)
    requires s.lifecycle.Active?
  {
    if !s.lifecycle.connected then
      && (incoming.message != Hello(true) ==> !Stays(s, next))
      && (incoming.message == Hello(true) && incoming.onHandshake.Quiet? && Idle(incoming.onConnected) ==>
            Stays(s, next) && next.lifecycle.connected && !next.lifecycle.pending)
    else
      && (!incoming.message.Regular? ==> !Stays(s, next))
      && (incoming.message.Regular? && Idle(incoming.onMessage) ==> next == s)
  }

  lemma MessageDecides(s: Status, incoming: Incoming)
    requires Latest(s) && s.lifecycle.Active? && s.lifecycle.transport.Some?
    ensures Decides(s, incoming, AfterMessage(s, incoming))
  {
    FailKeepsLatest(s, incoming.onDisconnected);
  }

  /** A connected attempt no longer holds its promise, except while the handshake itself is under way. */
  predicate AtRest(s: Status) {
    s.lifecycle.Active? && s.lifecycle.connected ==> !s.lifecycle.pending
  }

  /** The current attempt is always the latest one, and has a transport once connected. */
  predicate Latest(s: Status) {
    s.lifecycle.Active? ==>
      && s.lifecycle.id == s.sequence
      && (s.lifecycle.connected ==> s.lifecycle.transport.Some?)
  }

  /** From `s` to `next` attempts only end or begin: what is left is nothing, the same attempt, or a new one that has no
      transport yet. */
  predicate EndsOrBegins(s: Status, next: Status) {
    && Latest(next) && next.sequence >= s.sequence
    && (next.lifecycle.Active? ==>
          if next.sequence == s.sequence
          then s.lifecycle.Active? && next.lifecycle.transport == s.lifecycle.transport
          else next.lifecycle == Active(next.sequence, None, false, true))
  }

  lemma {:induction false} ReactionKeepsLatest(s: Status, reaction: Reaction)
    requires Latest(s)
    ensures var next := AfterReaction(s, reaction);
            && Latest(next) && next.sequence >= s.sequence
            && (next.lifecycle == s.lifecycle || next.lifecycle.Inactive? ||
                (next.sequence > s.sequence && next.lifecycle == Active(next.sequence, None, false, true)))
    decreases reaction
  {
    match reaction
    case Quiet | Throws =>
    case Calls(Disconnect(onDisconnected), rest) =>
      if s.lifecycle.Active? {
        ReactionKeepsLatest(Status(Inactive, s.sequence), onDisconnected);
      }
      ReactionKeepsLatest(AfterFail(s, onDisconnected), rest);
    case Calls(Reconnect(onConnecting), rest) =>
      if s.lifecycle.Inactive? {
        ReactionKeepsLatest(Status(Active(s.sequence + 1, None, false, true), s.sequence + 1), onConnecting);
      }
      ReactionKeepsLatest(AfterConnect(s, onConnecting), rest);
  }

  lemma FailKeepsLatest(s: Status, onDisconnected: Reaction)
    requires Latest(s)
    ensures var next := AfterFail(s, onDisconnected);
            EndsOrBegins(s, next) && (next.lifecycle.Active? ==> next.sequence > s.sequence)
  {
    if s.lifecycle.Active? {
      ReactionKeepsLatest(Status(Inactive, s.sequence), onDisconnected);
    }
  }

  lemma MessageKeepsLatest(s: Status, incoming: Incoming)
    requires Latest(s)
    ensures var next := AfterMessage(s, incoming);
            && EndsOrBegins(s, next)
            && (s.lifecycle.Active? && s.lifecycle.transport.None? ==>
                  next.lifecycle.Inactive? || next.sequence > s.sequence)
  {
    if s.lifecycle.Active? {
      ReactionKeepsLatest(Status(Inactive, s.sequence), incoming.onDisconnected);
      ReactionKeepsLatest(s, incoming.onMessage);
      if s.lifecycle.transport.Some? {
        var connected := s.(lifecycle := s.lifecycle.(connected := true));
        ReactionKeepsLatest(connected, incoming.onHandshake);
        ReactionKeepsLatest(connected, incoming.onConnected);
      }
    }
  }

  lemma {:induction false} MessagesKeepLatest(s: Status, messages: seq<Incoming>)
    requires Latest(s)
    ensures EndsOrBegins(s, AfterMessages(s, messages))
    decreases |messages|
  {
    if messages != [] {
      MessagesKeepLatest(s, messages[..|messages| - 1]);
      MessageKeepsLatest(AfterMessages(s, messages[..|messages| - 1]), messages[|messages| - 1]);
    }
  }

  // ---------------------------------------------------------------------------------------------------------------
  // Messages that reach a newer attempt, told from the callbacks alone

  /** Whether an attempt is active when a callback that found one active, or none, returns. While one is active a call
      to connect does nothing, so neither does what would be called back then. */
  predicate LeavesActive(active: bool, reaction: Reaction)
    decreases reaction
  {
    match reaction
    case Quiet | Throws => active
    case Calls(Disconnect(onDisconnected), rest) => LeavesActive(active && LeavesActive(false, onDisconnected), rest)
    case Calls(Reconnect(onConnecting), rest) => LeavesActive(active || LeavesActive(true, onConnecting), rest)
  }

  /** A callback ends the attempt that it finds active. */
  predicate Disconnects(reaction: Reaction) {
    match reaction
    case Quiet | Throws => false
    case Calls(Disconnect(_), _) => true
    case Calls(Reconnect(_), rest) => Disconnects(rest)
  }

  predicate Reconnects(reaction: Reaction) {
    match reaction
    case Quiet | Throws => false
    case Calls(Disconnect(onDisconnected), rest) => Reconnects(onDisconnected) || Reconnects(rest)
    case Calls(Reconnect(_), _) => true
  }

  predicate ChunkReconnects(messages: seq<Incoming>) {
    exists m | m in messages ::
      Reconnects(m.onHandshake) || Reconnects(m.onConnected) || Reconnects(m.onMessage) || Reconnects(m.onDisconnected)
  }

  /** What a message comes to for the attempt it is meant for: it goes on, it ends, or it ends and a new one begins. */
  datatype Verdict = GoesOn | Ends | Renews

  function EndedBy(active: bool, reaction: Reaction): Verdict {
    if LeavesActive(active, reaction) then Renews else Ends
  }

  function Judge(connected: bool, hasTransport: bool, m: Incoming): Verdict {
    if connected then
      if !m.message.Regular? then EndedBy(false, m.onDisconnected)
      else if Disconnects(m.onMessage) then EndedBy(true, m.onMessage)
      else GoesOn
    else if m.message != Hello(true) || !hasTransport then EndedBy(false, m.onDisconnected)
    else if Disconnects(m.onHandshake) then EndedBy(true, m.onHandshake)
    else if EndsThrowing(m.onHandshake) then EndedBy(false, m.onDisconnected)
    else if Disconnects(m.onConnected) then EndedBy(true, m.onConnected)
    else GoesOn
  }

  /** Message `j` is the first that ends its attempt and begins a new one, and every later one of the first `k`, which
      ends the attempt it reaches, begins yet another. */
  predicate RenewedAt(connected: bool, hasTransport: bool, messages: seq<Incoming>, j: nat, k: nat)
    requires j < k <= |messages|
  {
    && (forall i | 0 <= i < j :: Judge(connected || i > 0, hasTransport, messages[i]).GoesOn?)
    && Judge(connected || j > 0, hasTransport, messages[j]).Renews?
    && (forall i | j < i < k :: LeavesActive(false, messages[i].onDisconnected))
  }

  predicate Renewed(lifecycle: Lifecycle, messages: seq<Incoming>, k: nat)
    requires lifecycle.Active? && k <= |messages|
  {
    exists j | 0 <= j < k :: RenewedAt(lifecycle.connected, lifecycle.transport.Some?, messages, j, k)
  }

  /** Where the attempt stands after `k` messages: it goes on, one of them ended it for good, or a newer one is
      there. */
  ghost predicate Stands(s: Status, messages: seq<Incoming>, k: nat, at: Status)
    requires s.lifecycle.Active? && k <= |messages|
  {
    var connected, hasTransport := s.lifecycle.connected, s.lifecycle.transport.Some?;
    if at.lifecycle.Inactive? then
      && !Renewed(s.lifecycle, messages, k)
      && exists i | 0 <= i < k :: !Judge(connected || i > 0, hasTransport, messages[i]).GoesOn?
    else if at.sequence > s.sequence then
      Renewed(s.lifecycle, messages, k) && at.lifecycle == Active(at.sequence, None, false, true)
    else
      && at.sequence == s.sequence && at.lifecycle.id == s.lifecycle.id
      && at.lifecycle.connected == (connected || k > 0) && at.lifecycle.transport.Some? == hasTransport
      && (forall i | 0 <= i < k :: Judge(connected || i > 0, hasTransport, messages[i]).GoesOn?)
  }

  lemma {:induction false} ReactionLeavesActive(s: Status, reaction: Reaction)
    requires Latest(s)
    ensures AfterReaction(s, reaction).lifecycle.Active? <==> LeavesActive(s.lifecycle.Active?, reaction)
    ensures s.lifecycle.Active? && !Disconnects(reaction) ==> AfterReaction(s, reaction) == s
    ensures s.lifecycle.Active? && Disconnects(reaction) && LeavesActive(true, reaction) ==>
              AfterReaction(s, reaction).sequence > s.sequence
    decreases reaction
  {
    match reaction
    case Quiet | Throws =>
    case Calls(Disconnect(onDisconnected), rest) =>
      if s.lifecycle.Active? {
        ReactionLeavesActive(Status(Inactive, s.sequence), onDisconnected);
        ReactionKeepsLatest(Status(Inactive, s.sequence), onDisconnected);
      }
      ReactionLeavesActive(AfterFail(s, onDisconnected), rest);
      ReactionKeepsLatest(AfterFail(s, onDisconnected), rest);
    case Calls(Reconnect(onConnecting), rest) =>
      var begun := Status(Active(s.sequence + 1, None, false, true), s.sequence + 1);
      if s.lifecycle.Inactive? {
        ReactionLeavesActive(begun, onConnecting);
        ReactionKeepsLatest(begun, onConnecting);
      }
      ReactionLeavesActive(AfterConnect(s, onConnecting), rest);
      ReactionKeepsLatest(AfterConnect(s, onConnecting), rest);
  }

  /** One message, judged from its callbacks. */
  lemma MessageIsJudged(s: Status, m: Incoming)
    requires Latest(s) && s.lifecycle.Active?
    ensures var next, verdict := AfterMessage(s, m), Judge(s.lifecycle.connected, s.lifecycle.transport.Some?, m);
            match verdict
            case GoesOn => next.sequence == s.sequence && next.lifecycle.Active? && next.lifecycle.connected
                           && next.lifecycle.id == s.lifecycle.id && next.lifecycle.transport == s.lifecycle.transport
            case Ends => next.lifecycle.Inactive?
            case Renews => next.lifecycle.Active? && next.sequence > s.sequence
  {
    hide AfterReaction, LeavesActive, Disconnects;
    FailIsJudged(s, m.onDisconnected);
    if s.lifecycle.connected {
      ReactionLeavesActive(s, m.onMessage);
    } else if m.message == Hello(true) && s.lifecycle.transport.Some? {
      HandshakeIsJudged(s, m);
    }
  }

  lemma FailIsJudged(s: Status, onDisconnected: Reaction)
    requires Latest(s) && s.lifecycle.Active?
    ensures AfterFail(s, onDisconnected).lifecycle.Active? <==> LeavesActive(false, onDisconnected)
    ensures AfterFail(s, onDisconnected).lifecycle.Active? ==> AfterFail(s, onDisconnected).sequence > s.sequence
  {
    ReactionLeavesActive(Status(Inactive, s.sequence), onDisconnected);
    FailKeepsLatest(s, onDisconnected);
  }

  lemma HandshakeIsJudged(s: Status, m: Incoming)
    requires Latest(s) && s.lifecycle.Active? && !s.lifecycle.connected && s.lifecycle.transport.Some?
    ensures var next := AfterHandshake(s, m);
            if Disconnects(m.onHandshake) then Outcome(s, next, LeavesActive(true, m.onHandshake))
            else if EndsThrowing(m.onHandshake) then Outcome(s, next, LeavesActive(false, m.onDisconnected))
            else if Disconnects(m.onConnected) then Outcome(s, next, LeavesActive(true, m.onConnected))
            else next == s.(lifecycle := s.lifecycle.(connected := true, pending := false))
  {
    hide AfterReaction, LeavesActive, Disconnects;
    var connected := s.(lifecycle := s.lifecycle.(connected := true));
    ReactionLeavesActive(connected, m.onHandshake);
    ReactionLeavesActive(connected, m.onConnected);
    FailIsJudged(connected, m.onDisconnected);
    ReactionKeepsLatest(connected, m.onHandshake);
    ReactionKeepsLatest(connected, m.onConnected);
    if Disconnects(m.onHandshake) {
      EndedIsDifferent(connected, m.onHandshake);
    }
    if Disconnects(m.onConnected) {
      EndedIsDifferent(connected, m.onConnected);
    }
  }

  predicate Outcome(s: Status, next: Status, renewed: bool) {
    if renewed then next.lifecycle.Active? && next.sequence > s.sequence else next.lifecycle.Inactive?
  }

  lemma EndedIsDifferent(s: Status, reaction: Reaction)
    requires Latest(s) && s.lifecycle.Active? && Disconnects(reaction)
    ensures AfterReaction(s, reaction).lifecycle != s.lifecycle
  {
    ReactionLeavesActive(s, reaction);
    ReactionKeepsLatest(s, reaction);
  }

  lemma {:induction false} ChunkIsJudged(s: Status, messages: seq<Incoming>, k: nat)
    requires Latest(s) && s.lifecycle.Active? && k <= |messages|
    ensures Stands(s, messages, k, AfterMessages(s, messages[..k]))
    decreases k
  {
    if k > 0 {
      var before, m := AfterMessages(s, messages[..k - 1]), messages[k - 1];
      ChunkIsJudged(s, messages, k - 1);
      assert messages[..k][..k - 1] == messages[..k - 1];
      MessagesKeepLatest(s, messages[..k - 1]);
      MessageKeepsLatest(before, m);
      if before.lifecycle.Active? {
        MessageIsJudged(before, m);
      }
      OneMoreStands(s, messages, k, before, AfterMessage(before, m));
    }
  }

  lemma OneMoreStands(s: Status, messages: seq<Incoming>, k: nat, before: Status, at: Status)
    requires s.lifecycle.Active? && 0 < k <= |messages|
    requires Stands(s, messages, k - 1, before) && EndsOrBegins(before, at)
    requires before.lifecycle.Inactive? ==> at == before
    requires before.lifecycle.Active? ==>
               var verdict := Judge(before.lifecycle.connected, before.lifecycle.transport.Some?, messages[k - 1]);
               match verdict
               case GoesOn => at.sequence == before.sequence && at.lifecycle.Active? && at.lifecycle.connected
                              && at.lifecycle.id == before.lifecycle.id
                              && at.lifecycle.transport == before.lifecycle.transport
               case Ends => at.lifecycle.Inactive?
               case Renews => at.lifecycle.Active? && at.sequence > before.sequence
    ensures Stands(s, messages, k, at)
  {
    var connected, hasTransport := s.lifecycle.connected, s.lifecycle.transport.Some?;
    RenewedOneMore(s.lifecycle, messages, k);
    if before.lifecycle.Inactive? {
      var i :| 0 <= i < k - 1 && !Judge(connected || i > 0, hasTransport, messages[i]).GoesOn?;
    } else if before.sequence > s.sequence {
      var j :| 0 <= j < k - 1 && RenewedAt(connected, hasTransport, messages, j, k - 1);
      assert !Judge(connected || j > 0, hasTransport, messages[j]).GoesOn?;
    } else {
      assert Judge(connected || k - 1 > 0, hasTransport, messages[k - 1])
             == Judge(before.lifecycle.connected, before.lifecycle.transport.Some?, messages[k - 1]);
    }
  }

  lemma RenewedOneMore(lifecycle: Lifecycle, messages: seq<Incoming>, k: nat)
    requires lifecycle.Active? && 0 < k <= |messages|
    ensures var connected, hasTransport := lifecycle.connected, lifecycle.transport.Some?;
            Renewed(lifecycle, messages, k)
            <==> (Renewed(lifecycle, messages, k - 1) && LeavesActive(false, messages[k - 1].onDisconnected))
                 || RenewedAt(connected, hasTransport, messages, k - 1, k)
  {
    var connected, hasTransport := lifecycle.connected, lifecycle.transport.Some?;
    if Renewed(lifecycle, messages, k) {
      var j :| 0 <= j < k && RenewedAt(connected, hasTransport, messages, j, k);
      assert j < k - 1 ==> RenewedAt(connected, hasTransport, messages, j, k - 1);
    }
    if Renewed(lifecycle, messages, k - 1) && LeavesActive(false, messages[k - 1].onDisconnected) {
      var j :| 0 <= j < k - 1 && RenewedAt(connected, hasTransport, messages, j, k - 1);
      assert RenewedAt(connected, hasTransport, messages, j, k);
    }
  }

  lemma MessageComesToRest(s: Status, m: Incoming)
    requires Latest(s) && AtRest(s)
    ensures AtRest(AfterMessage(s, m))
  {
    if s.lifecycle.Active? {
      hide AfterReaction;
      ReactionKeepsLatest(Status(Inactive, s.sequence), m.onDisconnected);
      ReactionKeepsLatest(s, m.onMessage);
      if s.lifecycle.transport.Some? {
        var connected := s.(lifecycle := s.lifecycle.(connected := true));
        ReactionKeepsLatest(connected, m.onHandshake);
        ReactionKeepsLatest(connected, m.onConnected);
      }
    }
  }

  lemma {:induction false} ChunkComesToRest(s: Status, messages: seq<Incoming>)
    requires Latest(s) && AtRest(s)
    ensures AtRest(AfterMessages(s, messages))
    decreases |messages|
  {
    if messages != [] {
      ChunkComesToRest(s, messages[..|messages| - 1]);
      MessagesKeepLatest(s, messages[..|messages| - 1]);
      MessageComesToRest(AfterMessages(s, messages[..|messages| - 1]), messages[|messages| - 1]);
    }
  }

  /** A message of a chunk reaches an attempt other than the one the chunk came for if and only if an earlier message of
      the chunk ended its attempt, its callbacks left a new one active, and so did those of every message between them.
      It then ends that attempt too, which cannot have a transport yet. */
  lemma StraysExactlyAfterReconnecting(s: Status, messages: seq<Incoming>, k: nat)
    requires Latest(s) && s.lifecycle.Active? && k < |messages|
    ensures Strays(s, messages, k) <==> Renewed(s.lifecycle, messages, k)
    ensures Strays(s, messages, k) ==>
              AfterMessages(s, messages[..k + 1])
              == AfterFail(AfterMessages(s, messages[..k]), messages[k].onDisconnected)
  {
    MessagesKeepLatest(s, messages[..k]);
    ChunkIsJudged(s, messages, k);
    assert messages[..k + 1][..k] == messages[..k];
  }

  // ---------------------------------------------------------------------------------------------------------------
  // Callbacks that do not reconnect

  lemma {:induction false} QuietReaction(s: Status, reaction: Reaction)
    requires !Reconnects(reaction)
    ensures AfterReaction(s, reaction).sequence == s.sequence
    decreases reaction
  {
    match reaction
    case Quiet | Throws =>
    case Calls(Disconnect(onDisconnected), rest) =>
      QuietReaction(Status(Inactive, s.sequence), onDisconnected);
      QuietReaction(AfterFail(s, onDisconnected), rest);
    case Calls(Reconnect(_), _) =>
  }

  lemma QuietMessage(s: Status, m: Incoming)
    requires !Reconnects(m.onHandshake) && !Reconnects(m.onConnected)
    requires !Reconnects(m.onMessage) && !Reconnects(m.onDisconnected)
    ensures AfterMessage(s, m).sequence == s.sequence
  {
    if s.lifecycle.Active? {
      var connected := s.(lifecycle := s.lifecycle.(connected := true));
      QuietReaction(Status(Inactive, s.sequence), m.onDisconnected);
      QuietReaction(s, m.onMessage);
      QuietReaction(connected, m.onHandshake);
      QuietReaction(connected, m.onConnected);
    }
  }

  /** As long as no callback reconnects inside the chunk, no message of it reaches another attempt, and none begins. */
  lemma {:induction false} NothingStraysWithoutReconnecting(s: Status, messages: seq<Incoming>, k: nat)
    requires Latest(s) && s.lifecycle.Active? && k <= |messages| && !ChunkReconnects(messages[..k])
    ensures AfterMessages(s, messages[..k]).sequence == s.sequence
    ensures k < |messages| ==> !Strays(s, messages, k)
    decreases k
  {
    MessagesKeepLatest(s, messages[..k]);
    if k > 0 {
      assert messages[..k][..k - 1] == messages[..k - 1];
      assert messages[k - 1] in messages[..k];
      NothingStraysWithoutReconnecting(s, messages, k - 1);
      QuietMessage(AfterMessages(s, messages[..k - 1]), messages[k - 1]);
    }
  }

  /** The claim that callbacks of an abandoned transport change nothing is therefore false inside one chunk: the owner
      disconnects and reconnects when told that attempt 1 is connected, and the rest of its chunk ends attempt 2. */
  lemma ReconnectInsideChunkExample(hello: Incoming, other: Incoming)
    requires hello == Incoming(Hello(true), Quiet, Calls(Disconnect(Quiet), Calls(Reconnect(Quiet), Quiet)), Quiet,
                               Quiet)
    requires other == Incoming(Regular, Quiet, Quiet, Quiet, Quiet)
    ensures var s := Status(Active(1, Some(7), false, true), 1);
            && AfterMessages(s, [hello]) == Status(Active(2, None, false, true), 2)
            && AfterMessages(s, [hello, other]) == Status(Inactive, 2)
  {
    var s := Status(Active(1, Some(7), false, true), 1);
    assert [hello][..0] == [] && [hello, other][..1] == [hello];
    var reconnect := Calls(Reconnect(Quiet), Quiet);
    assert AfterReaction(Status(Inactive, 1), reconnect) == Status(Active(2, None, false, true), 2);
    assert AfterMessage(s, hello) == Status(Active(2, None, false, true), 2);
  }

  lemma QuietFail(s: Status, onDisconnected: Reaction)
    ensures !Reconnects(onDisconnected) ==> AfterFail(s, onDisconnected).sequence == s.sequence
  {
    if !Reconnects(onDisconnected) {
      QuietReaction(Status(Inactive, s.sequence), onDisconnected);
    }
  }

  /** What a whole chunk leaves behind. */
  lemma ChunkLeaves(s: Status, messages: seq<Incoming>)
    requires Latest(s) && s.lifecycle.Active?
    ensures var next := AfterMessages(s, messages);
            && (next.lifecycle.Active? && next.lifecycle.id != s.lifecycle.id
                <==> Renewed(s.lifecycle, messages, |messages|))
            && (!ChunkReconnects(messages) ==> next.sequence == s.sequence)
  {
    assert messages[..|messages|] == messages;
    ChunkIsJudged(s, messages, |messages|);
    MessagesKeepLatest(s, messages);
    if !ChunkReconnects(messages) {
      NothingStraysWithoutReconnecting(s, messages, |messages|);
    }
  }

  // ---------------------------------------------------------------------------------------------------------------
  // The class

  class Connection {
    var lifecycle: Lifecycle
    var sequence: nat

    /** Every state notification so far. */
    ghost var notifications: seq<Notification>
    /** The `connect` promises that settled, and whether they resolved; and every settlement in order. */
    ghost var settled: map<nat, bool>
    ghost var settlements: seq<nat>
    /** Transports the factory produced, those this class closed, and those that reported their own close. */
    ghost var produced: set<nat>
    ghost var closed: set<nat>
    ghost var selfClosed: set<nat>
    /** Transports that a call still in progress is about to close. */
    ghost var owed: set<nat>

    function Now(): Status
      reads this`lifecycle, this`sequence
    {
      Status(lifecycle, sequence)
    }

    ghost function Current(): set<nat>
      reads this
    {
      if lifecycle.Active? && lifecycle.transport.Some? then {lifecycle.transport.value} else {}
    }

    /** A promise settles once, and is unsettled only while the attempt that made it still holds it. */
    ghost predicate PromisesKept()
      reads this
    {
      && (forall id :: id in settled ==> 1 <= id <= sequence)
      && (forall id: nat :: 1 <= id <= sequence && id !in settled ==>
            lifecycle.Active? && lifecycle.id == id && lifecycle.pending)
      && (lifecycle.Active? && lifecycle.pending ==> lifecycle.id !in settled)
      && (lifecycle.Active? && !lifecycle.pending ==> lifecycle.id in settled && settled[lifecycle.id])
    }

    /** No promise was settled twice. */
    ghost predicate SettledOnce()
      reads this`settled, this`settlements
    {
      && (forall id :: id in settled <==> id in settlements)
      && (forall i, j | 0 <= i < j < |settlements| :: settlements[i] != settlements[j])
    }

    /** Every transport other than the current one is closed, reported its own close, or is about to be closed. */
    ghost predicate TransportsAccounted()
      reads this
    {
      && produced <= closed + selfClosed + owed + Current()
      && Current() <= produced && Current() !! closed
      && closed + selfClosed <= produced
    }

    ghost predicate NotificationsAgree()
      reads this
    {
      match lifecycle
      case Inactive => Scan(notifications) == Down
      case Active(_, _, false, _) => Scan(notifications) == Trying
      case Active(_, _, true, pending) => Scan(notifications) == Up || (pending && Scan(notifications) == Trying)
    }

    /** The invariant without the clause that the current transport is nobody's to close yet. */
    ghost predicate Core()
      reads this
    {
      && (lifecycle.Active? ==>
            && 1 <= lifecycle.id == sequence
            && (lifecycle.connected ==> lifecycle.transport.Some?)
            && (!lifecycle.connected ==> lifecycle.pending))
      && PromisesKept()
      && SettledOnce()
      && TransportsAccounted()
      && NotificationsAgree()
    }

    ghost predicate Valid()
      reads this
    {
      Core() && Current() !! owed
    }

    /** History is only added to. A settled promise never changes, attempts are numbered upwards, and what is owed to
        transports on entry is still owed on return, no more and no less. */
    twostate predicate Grows()
      reads this
    {
      && old(sequence) <= sequence
      && old(notifications) <= notifications
      && old(settlements) <= settlements
      && (forall id :: id in old(settled) ==> id in settled && settled[id] == old(settled)[id])
      && produced == old(produced) && old(closed) <= closed && old(selfClosed) <= selfClosed
      && owed == old(owed)
      && (lifecycle.Active? ==>
            lifecycle.id > old(sequence) || (old(lifecycle).Active? && old(lifecycle).id == lifecycle.id))
    }

    /** An attempt abandoned during the call was rejected, unless it had resolved before. */
    twostate predicate AbandonedIsSettled()
      reads this
    {
      old(lifecycle).Active? && !(lifecycle.Active? && lifecycle.id == old(lifecycle).id) ==>
        && old(lifecycle).id in settled
        && (old(lifecycle).pending ==> !settled[old(lifecycle).id])
    }

    constructor ()
      ensures Valid() && lifecycle == Inactive && sequence == 0 && notifications == [] && owed == {} && produced == {}
    {
      lifecycle, sequence := Inactive, 0;
      notifications, settled, settlements, produced, closed, selfClosed, owed := [], map[], [], {}, {}, {}, {};
    }

    ghost method Notify(note: Notification)
      modifies this`notifications
      ensures notifications == old(notifications) + [note]
      ensures Scan(notifications) == Next(old(Scan(notifications)), note)
    {
      ScanOneMore(notifications, note);
      notifications := notifications + [note];
    }

    ghost method Settle(id: nat, resolved: bool)
      requires SettledOnce() && id !in settled
      modifies this`settled, this`settlements
      ensures SettledOnce() && settled == old(settled)[id := resolved] && settlements == old(settlements) + [id]
    {
      settled := settled[id := resolved];
      settlements := settlements + [id];
    }

    /** Run a callback. */
    method React(reaction: Reaction) returns (thrown: bool)
      requires Valid()
      modifies this
      ensures Valid() && Grows() && AbandonedIsSettled()
      ensures lifecycle.Active? && lifecycle.id > old(sequence) ==> !lifecycle.connected && lifecycle.transport.None?
      ensures lifecycle.Active? && old(lifecycle).Active? && lifecycle.id == old(lifecycle).id ==>
                lifecycle == old(lifecycle) && notifications == old(notifications)
      ensures Now() == AfterReaction(old(Now()), reaction) && thrown == EndsThrowing(reaction)
      decreases reaction, 0
    {
      hide Scan, SettledOnce;
      match reaction
      case Quiet => return false;
      case Throws => return true;
      case Calls(call, rest) =>
        match call {
          case Disconnect(onDisconnected) => this.Disconnect(onDisconnected);
          case Reconnect(onConnecting) => var _ := this.Connect(onConnecting);
        }
        thrown := React(rest);
    }

    /** Start an attempt. Returns its number, or nothing when the client is not disconnected. The transport that the
        factory is then asked for arrives by `TransportOpened`. */
    method Connect(onConnecting: Reaction) returns (attempt: Option<nat>)
      requires Valid()
      modifies this
      ensures Valid() && Grows() && AbandonedIsSettled()
      ensures attempt.Some? <==> old(lifecycle).Inactive?
      ensures attempt.None? ==> unchanged(this)
      ensures attempt.Some? ==> attempt.value == old(sequence) + 1
                                && old(notifications) + [Connecting] <= notifications
      ensures attempt.Some? && Idle(onConnecting) ==> lifecycle == Active(attempt.value, None, false, true)
      ensures lifecycle.Active? && lifecycle.id > old(sequence) ==> !lifecycle.connected && lifecycle.transport.None?
      ensures lifecycle.Active? && old(lifecycle).Active? && lifecycle.id == old(lifecycle).id ==>
                lifecycle == old(lifecycle) && notifications == old(notifications)
      ensures Now() == AfterConnect(old(Now()), onConnecting)
      decreases onConnecting, 1
    {
      hide Scan, AfterReaction, SettledOnce;
      if lifecycle.Active? {
        return None;
      }
      sequence := sequence + 1;
      var id := sequence;
      lifecycle := Active(id, None, false, true);
      Notify(Connecting);
      if Idle(onConnecting) {
        IdleStays(Now(), onConnecting);
      }
      var _ := React(onConnecting);
      attempt := Some(id);
    }

    method Disconnect(onDisconnected: Reaction)
      requires Valid()
      modifies this
      ensures Valid() && Grows() && AbandonedIsSettled()
      ensures old(lifecycle).Inactive? ==> unchanged(this)
      ensures lifecycle.Active? ==> lifecycle.id > old(sequence) && !lifecycle.connected && lifecycle.transport.None?
      ensures Now() == AfterFail(old(Now()), onDisconnected)
      decreases onDisconnected, 3
    {
      if lifecycle.Inactive? {
        return;
      }
      FailAndClose(onDisconnected);
    }

    /** Give up the current attempt: reject its promise if it is still pending, then notify. */
    method Fail(onDisconnected: Reaction)
      requires Core() && Current() <= owed + selfClosed
      modifies this
      ensures Valid() && Grows() && AbandonedIsSettled()
      ensures old(lifecycle).Inactive? ==> unchanged(this)
      ensures lifecycle.Active? ==> lifecycle.id > old(sequence) && !lifecycle.connected && lifecycle.transport.None?
      ensures Now() == AfterFail(old(Now()), onDisconnected)
      decreases onDisconnected, 1
    {
      hide Scan, AfterReaction, SettledOnce;
      if lifecycle.Inactive? {
        return;
      }
      Abandon();
      var _ := React(onDisconnected);
    }

    /** The current attempt is over: its promise is rejected if it is still pending, and the state announced. */
    method Abandon()
      requires Core() && Current() <= owed + selfClosed && lifecycle.Active?
      modifies this
      ensures Valid() && Grows() && AbandonedIsSettled() && lifecycle.Inactive? && sequence == old(sequence)
    {
      hide Scan, SettledOnce;
      var last := lifecycle;
      lifecycle := Inactive;
      if last.pending {
        Settle(last.id, false);
      }
      Notify(Disconnected);
    }

    /** Give up the current attempt and close its transport afterwards. */
    method FailAndClose(onDisconnected: Reaction)
      requires Valid()
      modifies this
      ensures Valid() && Grows() && AbandonedIsSettled()
      ensures old(lifecycle).Inactive? ==> unchanged(this)
      ensures old(Current()) <= closed
      ensures lifecycle.Active? ==> lifecycle.id > old(sequence) && !lifecycle.connected && lifecycle.transport.None?
      ensures Now() == AfterFail(old(Now()), onDisconnected)
      decreases onDisconnected, 2
    {
      hide Scan, AfterReaction, SettledOnce;
      if lifecycle.Inactive? {
        return;
      }
      ghost var transport := Current();
      owed := owed + transport;
      Fail(onDisconnected);
      closed := closed + transport;
      owed := owed - transport;
    }

    ghost predicate IsCurrent(id: nat)
      reads this
    {
      lifecycle.Active? && lifecycle.id == id
    }

    // -------------------------------------------------------------------------------------------------------------
    // Asynchronous completions

    /** The factory delivered a transport for an attempt, perhaps one long abandoned. */
    method TransportOpened(id: nat, transport: nat)
      requires Valid() && owed == {} && transport !in produced
      requires IsCurrent(id) ==> lifecycle.transport.None?
      modifies this
      ensures Valid() && produced == old(produced) + {transport}
      ensures selfClosed == old(selfClosed) && old(closed) <= closed && owed == {} && sequence == old(sequence)
      ensures if old(IsCurrent(id) && !lifecycle.connected)
              then lifecycle == old(lifecycle).(transport := Some(transport))
              else lifecycle == old(lifecycle) && transport in closed
      ensures notifications == old(notifications) && settled == old(settled) && settlements == old(settlements)
    {
      produced := produced + {transport};
      if lifecycle.Inactive? || lifecycle.connected || lifecycle.id != id {
        closed := closed + {transport};
        return;
      }
      lifecycle := lifecycle.(transport := Some(transport));
    }

    method FactoryFailed(id: nat, onDisconnected: Reaction)
      requires Valid() && owed == {}
      requires IsCurrent(id) ==> lifecycle.transport.None?
      modifies this
      ensures Now() == if old(IsCurrent(id)) then AfterFail(old(Now()), onDisconnected) else old(Now())
      ensures Valid() && Grows() && AbandonedIsSettled()
      ensures if old(IsCurrent(id)) then !IsCurrent(id) else unchanged(this)
    {
      if lifecycle.Active? && lifecycle.id == id {
        Fail(onDisconnected);
      }
    }

    /** The transport of an attempt reported an error, or the sending of its hello was rejected. */
    method TransportFailed(id: nat, onDisconnected: Reaction)
      requires Valid() && owed == {}
      modifies this
      ensures Now() == if old(IsCurrent(id)) then AfterFail(old(Now()), onDisconnected) else old(Now())
      ensures Valid() && Grows() && AbandonedIsSettled()
      ensures if old(IsCurrent(id)) then !IsCurrent(id) && old(Current()) <= closed else unchanged(this)
    {
      if lifecycle.Active? && lifecycle.id == id {
        FailAndClose(onDisconnected);
      }
    }

    method SendRejected(transport: nat, onDisconnected: Reaction)
      requires Valid() && owed == {}
      modifies this
      ensures Now() == if transport in old(Current()) then AfterFail(old(Now()), onDisconnected) else old(Now())
      ensures Valid() && Grows() && AbandonedIsSettled()
      ensures if transport in old(Current()) then transport in closed else unchanged(this)
    {
      if lifecycle.Active? && lifecycle.transport == Some(transport) {
        FailAndClose(onDisconnected);
      }
    }

    /** The transport of an attempt reported its own close. */
    method HandleClose(id: nat, onDisconnected: Reaction)
      requires Valid() && owed == {}
      modifies this
      ensures Now() == if old(IsCurrent(id)) then AfterFail(old(Now()), onDisconnected) else old(Now())
      ensures Valid() && Grows() && AbandonedIsSettled()
      ensures if old(IsCurrent(id)) then !IsCurrent(id) && old(Current()) <= selfClosed else unchanged(this)
    {
      if lifecycle.Active? && lifecycle.id == id {
        selfClosed := selfClosed + Current();
        Fail(onDisconnected);
      }
    }

    /** A chunk for attempt `id`, decoded; `None` when decoding failed. The messages of the chunk are handled in turn;
        between them only the state is looked at again, not the attempt. */
    method HandleData(id: nat, decoded: Option<seq<Incoming>>, onDisconnected: Reaction)
      requires Valid() && owed == {}
      modifies this
      ensures Valid() && Grows()
      ensures !old(IsCurrent(id)) ==> unchanged(this)
      ensures old(IsCurrent(id)) ==>
                Now() == if decoded.None? || old(!lifecycle.connected && lifecycle.transport.None?)
                         then AfterFail(old(Now()), onDisconnected)
                         else AfterMessages(old(Now()), decoded.value)
      // The chunk leaves a newer attempt behind exactly if its callbacks renew the attempt; without a callback that
      // reconnects it concerns its own attempt only.
      ensures old(IsCurrent(id)) && decoded.Some? && old(lifecycle.transport.Some?) ==>
                (lifecycle.Active? && lifecycle.id != id
                 <==> Renewed(old(lifecycle), decoded.value, |decoded.value|))
      ensures decoded.Some? && !ChunkReconnects(decoded.value) && !Reconnects(onDisconnected) ==>
                sequence == old(sequence)
    {
      hide Scan, AfterReaction, SettledOnce, Renewed, Reconnects, AfterMessages;
      if lifecycle.Inactive? || lifecycle.id != id {
        return;
      }
      ghost var before := Now();
      if (!lifecycle.connected && lifecycle.transport.None?) || decoded.None? {
        FailAndClose(onDisconnected);
        QuietFail(before, onDisconnected);
        return;
      }
      HandleMessages(decoded.value);
      ChunkLeaves(before, decoded.value);
    }

    /** Handle the messages of a chunk, for as long as there is a connection, whichever it is. */
    method HandleMessages(messages: seq<Incoming>)
      requires Valid() && owed == {}
      modifies this
      ensures Valid() && Grows() && owed == {}
      ensures Now() == AfterMessages(old(Now()), messages)
    {
      hide Scan, AfterReaction, SettledOnce;
      for i := 0 to |messages|
        invariant Valid() && owed == {} && Grows()
        invariant Now() == AfterMessages(old(Now()), messages[..i])
      {
        assert messages[..i + 1][..i] == messages[..i];
        if lifecycle.Inactive? {
          InactiveIgnoresMessages(Now(), messages[i..]);
          AfterMessagesAppend(old(Now()), messages[..i], messages[i..]);
          assert messages[..i] + messages[i..] == messages;
          return;
        }
        HandleMessage(messages[i]);
      }
      assert messages[..|messages|] == messages;
    }

    method HandleMessage(incoming: Incoming)
      requires Valid() && owed == {} && lifecycle.Active?
      modifies this
      ensures Valid() && Grows() && AbandonedIsSettled()
      // A message that reaches an attempt without a transport ends that attempt, whoever the message was meant for.
      ensures Now() == AfterMessage(old(Now()), incoming)
      ensures old(lifecycle.transport).None? ==> !IsCurrent(old(lifecycle.id)) && settled[old(lifecycle.id)] == false
      ensures lifecycle.Active? && lifecycle.id != old(lifecycle.id) ==>
                lifecycle.id > old(sequence) && lifecycle.transport.None?
      // The promise resolves only for the expected hello, received by an attempt that has a transport.
      ensures old(lifecycle.pending) && old(lifecycle.id) in settled && settled[old(lifecycle.id)] ==>
                old(!lifecycle.connected && lifecycle.transport.Some?) && incoming.message == Hello(true)
      ensures old(lifecycle.transport).Some? ==> Decides(old(Now()), incoming, Now())
    {
      hide Decides;
      if lifecycle.transport.Some? {
        MessageDecides(Now(), incoming);
      }
      if !lifecycle.connected {
        if incoming.message != Hello(true) || lifecycle.transport.None? {
          FailAndClose(incoming.onDisconnected);
          return;
        }
        Handshake(incoming);
        return;
      }
      if incoming.message.Hello? || incoming.message.HelloError? {
        FailAndClose(incoming.onDisconnected);
        return;
      }
      var _ := React(incoming.onMessage);
    }

    /** The expected hello arrived: become connected, tell the owner, notify, and resolve the promise, unless a callback
        has meanwhile ended the attempt. */
    method Handshake(incoming: Incoming)
      requires Valid() && owed == {} && lifecycle.Active? && !lifecycle.connected && lifecycle.transport.Some?
      modifies this
      ensures Valid() && Grows() && AbandonedIsSettled()
      ensures Now() == AfterHandshake(old(Now()), incoming)
      ensures IsCurrent(old(lifecycle.id)) ==> lifecycle.connected && !lifecycle.pending && settled[lifecycle.id]
      ensures lifecycle.Active? && lifecycle.id != old(lifecycle.id) ==>
                lifecycle.id > old(sequence) && lifecycle.transport.None?
    {
      hide AfterReaction, AfterFail, SettledOnce;
      var connected := lifecycle.(connected := true);
      lifecycle := connected;
      var thrown := React(incoming.onHandshake);
      if thrown {
        if lifecycle == connected {
          FailAndClose(incoming.onDisconnected);
        }
        return;
      }
      if lifecycle != connected {
        return;
      }
      Announce(incoming.onConnected);
    }

    /** The second half of the handshake, when the owner's callback left the attempt alone. */
    method Announce(onConnected: Reaction)
      requires Valid() && owed == {} && lifecycle.Active? && lifecycle.connected && lifecycle.pending
      requires Scan(notifications) == Trying
      modifies this
      ensures Valid() && Grows() && AbandonedIsSettled()
      ensures Now() == AfterAnnounce(old(Now()), onConnected)
      ensures IsCurrent(old(lifecycle.id)) ==> lifecycle.connected && !lifecycle.pending && settled[lifecycle.id]
      ensures lifecycle.Active? && lifecycle.id != old(lifecycle.id) ==>
                lifecycle.id > old(sequence) && lifecycle.transport.None?
    {
      hide AfterReaction, SettledOnce;
      var connected := lifecycle;
      Notify(Connected);
      var _ := React(onConnected);
      if lifecycle != connected {
        return;
      }
      lifecycle := connected.(pending := false);
      Settle(connected.id, true);
    }
  }

  /** What is known of the promises of a connection at rest. */
  lemma PromisesAtRest(connection: Connection)
    requires connection.Valid() && AtRest(connection.Now())
    ensures forall id :: id in connection.settlements ==> 1 <= id <= connection.sequence
    ensures forall i, j | 0 <= i < j < |connection.settlements| ::
              connection.settlements[i] != connection.settlements[j]
    ensures forall id: nat :: 1 <= id <= connection.sequence ==>
              (id in connection.settlements <==> !(connection.IsCurrent(id) && !connection.lifecycle.connected))
  {
  }

  /** What can happen to a connection from outside. */
  datatype Event =
    | ConnectCalled(onConnecting: Reaction)
    | DisconnectCalled(onDisconnected: Reaction)
    | FactoryDelivers(attempt: nat, transport: nat)
    | FactoryFails(attempt: nat, onDisconnected: Reaction)
    | TransportFails(attempt: nat, onDisconnected: Reaction)
    | TransportCloses(attempt: nat, onDisconnected: Reaction)
    | SendFails(transport: nat, onDisconnected: Reaction)
    | DataArrives(attempt: nat, decoded: Option<seq<Incoming>>, onDisconnected: Reaction)

  /** A connection between two events: the attempts whose factory call is over, and the transports delivered. */
  ghost predicate Resting(connection: Connection, answered: set<nat>, transports: set<nat>)
    reads connection
  {
    && connection.Valid() && connection.owed == {} && connection.produced == transports && AtRest(connection.Now())
    && (connection.lifecycle.Active? && connection.lifecycle.id !in answered ==> connection.lifecycle.transport.None?)
    && forall id | id in answered :: id <= connection.sequence
  }

  /** One event. An attempt's factory call is over once it has delivered a transport, which is a new one, or failed. */
  method Happen(connection: Connection, e: Event, answered: set<nat>, transports: set<nat>)
    returns (nowAnswered: set<nat>, nowTransports: set<nat>)
    requires Resting(connection, answered, transports)
    modifies connection
    ensures Resting(connection, nowAnswered, nowTransports)
  {
    hide AfterReaction, AfterMessages, AfterFail, AfterConnect, Connection.SettledOnce;
    nowAnswered, nowTransports := answered, transports;
    ghost var before := connection.Now();
    match e
    case ConnectCalled(r) =>
      var _ := connection.Connect(r);
    case DisconnectCalled(r) =>
      connection.Disconnect(r);
    case FactoryDelivers(id, transport) =>
      if 1 <= id <= connection.sequence && id !in answered && transport !in transports {
        connection.TransportOpened(id, transport);
        nowAnswered, nowTransports := answered + {id}, transports + {transport};
      }
    case FactoryFails(id, r) =>
      if 1 <= id <= connection.sequence && id !in answered {
        FailKeepsLatest(before, r);
        connection.FactoryFailed(id, r);
        nowAnswered := answered + {id};
      }
    case TransportFails(id, r) =>
      FailKeepsLatest(before, r);
      connection.TransportFailed(id, r);
    case TransportCloses(id, r) =>
      FailKeepsLatest(before, r);
      connection.HandleClose(id, r);
    case SendFails(transport, r) =>
      FailKeepsLatest(before, r);
      connection.SendRejected(transport, r);
    case DataArrives(id, decoded, r) =>
      FailKeepsLatest(before, r);
      MessagesKeepLatest(before, if decoded.Some? then decoded.value else []);
      ChunkComesToRest(before, if decoded.Some? then decoded.value else []);
      connection.HandleData(id, decoded, r);
  }

  /** The life-cycle theorem, for every run: notifications alternate; every promise but one still held by the current
      attempt has settled, exactly once; every transport the factory ever produced is the current one, or was closed, or
      reported its own close. The only thing asked of the outside is that a factory call delivers one fresh transport
      or fails. */
  method AnyRun(events: seq<Event>) returns (connection: Connection)
    ensures Alternates(connection.notifications)
    ensures forall id :: id in connection.settlements ==> 1 <= id <= connection.sequence
    ensures forall i, j | 0 <= i < j < |connection.settlements| ::
              connection.settlements[i] != connection.settlements[j]
    ensures forall id: nat :: 1 <= id <= connection.sequence ==>
              (id in connection.settlements <==> !(connection.IsCurrent(id) && !connection.lifecycle.connected))
    ensures connection.produced <= connection.closed + connection.selfClosed + connection.Current()
    ensures connection.Valid()
  {
    connection := new Connection();
    var answered: set<nat> := {};
    var transports: set<nat> := {};
    for i := 0 to |events|
      invariant fresh(connection) && Resting(connection, answered, transports)
    {
      answered, transports := Happen(connection, events[i], answered, transports);
    }
    ScanAcceptsAlternation(connection.notifications);
    PromisesAtRest(connection);
  }
}
