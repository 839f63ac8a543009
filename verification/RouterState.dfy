/** The session router: hosted sessions, sessions being opened, the attachment of each client, and the queue of each
    client's operations.

    A stretch of code between two suspensions is one step. Promises that several parts of the program wait for (an
    opening, a release, a lease being acquired) are part of the state, each with how far it has come. A session resolves
    to the id it was asked for. */
module RouterState {
  import opened Common
  import opened PromiseChain

  /** `leaseReleases` counts how often its lease was released; `admitted` is every service operation ever admitted to
      it, and `found` those that had been when its release began. None of the three is looked at by any step. */
  datatype Attachment = Attachment(
    client: nat,
    session: nat,
    operations: set<nat>,
    lease: Lease,
    release: Release,
    inQueue: bool,
    leaseReleases: nat,
    admitted: set<nat>,
    found: set<nat>)

  /** How far the release of an attachment has come. `inQueue` says that an operation of the client's own queue began
      it; `awaited` are the service operations it found under way. */
  datatype Release =
    | NotReleasing
    | Draining(awaited: set<nat>)
    | AwaitingLease
    | ReleasingLease
    | Released(success: bool)

  datatype Lease = Acquiring | Held | Denied

  function NewAttachment(c: nat, h: nat): Attachment {
    Attachment(c, h, {}, Acquiring, NotReleasing, false, 0, {}, {})
  }

  /** A hosted session object: its session id and its attachments. */
  datatype Hosted = Hosted(id: string, attachments: set<nat>)

  datatype OpenPhase = Resolving | Opening | DrainingHandle | OpenSettled(hosted: Option<nat>)

  /** A session being opened, by the client whose operation began it. */
  datatype Open = Open(id: string, opener: nat, phase: OpenPhase)

  datatype Kind =
    | Attach(id: string)
    | ServiceCall(target: string, attachment: nat)
    | Detach
    | Disconnect

  /** Where an operation that is under way is suspended. */
  datatype Pc =
    | AwaitingOpen(open: nat, current: Option<nat>)
    | GotSession(hosted: Option<nat>, current: Option<nat>)
    | Switching(next: nat, leaving: nat)
    | Leasing(attachment: nat)
    | AwaitingRelease(released: nat)
    | Finishing

  datatype Running = Running(index: nat, pc: Pc)

  datatype ClosePhase =
    | NotClosed
    | AwaitingOperations(tails: map<nat, nat>, opens: set<nat>)
    | AwaitingReleases(releases: set<nat>)
    | ClosingHandles(handles: set<nat>, failed: bool)
    | CloseSettled(success: bool)

  datatype RemovalPhase = RemovalReleases(waiting: set<nat>) | RemovalCloses | RemovalDone

  /** A removal under way, with the attachments it found when it began. */
  datatype Removal = Removal(hosted: nat, found: set<nat>, phase: RemovalPhase)

  datatype State = State(
    closing: bool,
    hostedSessions: map<string, nat>,
    openingSessions: map<string, nat>,
    attachmentsByClient: map<nat, nat>,
    disconnected: set<nat>,
    hosted: seq<Hosted>,
    opens: seq<Open>,
    attachments: seq<Attachment>,
    chains: map<nat, Chain>,
    kinds: map<nat, seq<Kind>>,
    running: map<nat, Running>,
    removals: seq<Removal>,
    close: ClosePhase,
    calls: nat)

  const Initial :=
    State(false, map[], map[], map[], {}, [], [], [], map[], map[], map[], [], NotClosed, 0)

  function ChainOf(s: State, c: nat): Chain {
    if c in s.chains then s.chains[c] else Unused
  }

  function KindsOf(s: State, c: nat): seq<Kind> {
    if c in s.kinds then s.kinds[c] else []
  }

  predicate Turned(s: State, c: nat) {
    s.closing || c in s.disconnected
  }

  // ---------------------------------------------------------------------------------------------------------------
  // The queue of a client

  /** `runForClient`. A new attachment is refused while the server closes; a disconnection marks the client first. */
  function Enqueued(s: State, c: nat, kind: Kind): State {
    if kind.Attach? && s.closing then s
    else
      s.(chains := s.chains[c := Enqueue(ChainOf(s, c))], kinds := s.kinds[c := KindsOf(s, c) + [kind]],
         disconnected := if kind.Disconnect? then s.disconnected + {c} else s.disconnected)
  }

  function At(s: State, c: nat, pc: Pc): State
    requires c in s.running
  {
    s.(running := s.running[c := s.running[c].(pc := pc)])
  }

  /** The operation is over. */
  function OperationEnded(s: State, c: nat): State
    requires c in s.running && s.running[c].index < |ChainOf(s, c).operations|
  {
    var i := s.running[c].index;
    s.(running := s.running - {c},
       chains := s.chains[c := SetPhase(ChainOf(s, c), i, Phase.Settled)],
       disconnected := if i < |KindsOf(s, c)| && KindsOf(s, c)[i].Disconnect? then s.disconnected - {c}
                       else s.disconnected)
  }

  // ---------------------------------------------------------------------------------------------------------------
  // Releases

  function WithAttachment(s: State, a: nat, attachment: Attachment): State
    requires a < |s.attachments|
  {
    s.(attachments := s.attachments[a := attachment])
  }

  function Begun(at: Attachment, inQueue: bool): Attachment {
    if at.release.NotReleasing? then
      at.(release := Draining(at.operations), inQueue := inQueue, found := at.admitted)
    else at
  }

  /** `releaseAttachment`: the first to ask begins the release, the others wait for the same one. */
  function ReleaseBegun(s: State, a: nat, inQueue: bool): State
    requires a < |s.attachments|
  {
    WithAttachment(s, a, Begun(s.attachments[a], inQueue))
  }

  /** Releases begun from outside the clients' queues. */
  function ReleasesBegun(s: State, which: set<nat>): (after: State)
    ensures |after.attachments| == |s.attachments|
  {
    s.(attachments := seq(|s.attachments|, i requires 0 <= i < |s.attachments| =>
                            if i in which then Begun(s.attachments[i], false) else s.attachments[i]))
  }

  /** `clearAttachment`, which ends the release. */
  function Cleared(s: State, a: nat, success: bool): State
    requires a < |s.attachments| && s.attachments[a].session < |s.hosted|
  {
    var at := s.attachments[a];
    var h := s.hosted[at.session];
    WithAttachment(s, a, at.(release := Released(success))).(
      hosted := s.hosted[at.session := h.(attachments := h.attachments - {a})],
      attachmentsByClient := if at.client in s.attachmentsByClient && s.attachmentsByClient[at.client] == a
                             then s.attachmentsByClient - {at.client} else s.attachmentsByClient)
  }

  predicate CanAdvanceRelease(s: State, a: nat) {
    && a < |s.attachments| && s.attachments[a].session < |s.hosted|
    && var at := s.attachments[a];
       || (at.release.Draining? && at.release.awaited * at.operations == {})
       || (at.release.AwaitingLease? && !at.lease.Acquiring?)
  }

  /** The operations it found are over, or the lease it waited for has been settled: release the lease, or go
      without. */
  function ReleaseAdvanced(s: State, a: nat): State
    requires CanAdvanceRelease(s, a)
  {
    var at := s.attachments[a];
    match at.lease
    case Held => WithAttachment(s, a, at.(release := ReleasingLease, leaseReleases := at.leaseReleases + 1))
    case Acquiring => WithAttachment(s, a, at.(release := AwaitingLease))
    case Denied => Cleared(s, a, false)
  }

  predicate CanEndRelease(s: State, a: nat) {
    a < |s.attachments| && s.attachments[a].session < |s.hosted| && s.attachments[a].release.ReleasingLease?
  }

  // ---------------------------------------------------------------------------------------------------------------
  // Opening sessions

  function WithOpen(s: State, o: nat, phase: OpenPhase): State
    requires o < |s.opens|
  {
    s.(opens := s.opens[o := s.opens[o].(phase := phase)])
  }

  /** `resolveSession` has settled. */
  function Resolved(s: State, o: nat, success: bool): State
    requires o < |s.opens| && s.opens[o].phase.Resolving?
  {
    WithOpen(s, o, if success then Opening else OpenSettled(None))
  }

  /** `openSession` has settled: the session is hosted, unless the server is closing. */
  function Opened(s: State, o: nat, success: bool): State
    requires o < |s.opens| && s.opens[o].phase.Opening?
  {
    if !success then WithOpen(s, o, OpenSettled(None))
    else if s.closing then WithOpen(s, o, DrainingHandle)
    else
      WithOpen(s, o, OpenSettled(Some(|s.hosted|))).(
        hosted := s.hosted + [Hosted(s.opens[o].id, {})],
        hostedSessions := s.hostedSessions[s.opens[o].id := |s.hosted|])
  }

  /** `invalidate`: a hosted session has ended by itself. */
  function Invalidated(s: State, h: nat): State
    requires h < |s.hosted|
  {
    var id := s.hosted[h].id;
    if id !in s.hostedSessions || s.hostedSessions[id] != h then s
    else ReleasesBegun(s.(hostedSessions := s.hostedSessions - {id}), s.hosted[h].attachments)
  }

  // ---------------------------------------------------------------------------------------------------------------
  // The operations of a client

  /** `attachClientNow` up to its first suspension. */
  function AttachStarted(s: State, c: nat, id: string): State
    requires c in s.running
  {
    var current := if c in s.attachmentsByClient then Some(s.attachmentsByClient[c]) else None;
    if Turned(s, c) then At(s, c, Finishing)
    else if current.Some? && IsAttachedTo(s, current.value, id) then At(s, c, Finishing)
    else if id in s.hostedSessions then At(s, c, GotSession(Some(s.hostedSessions[id]), current))
    else if id in s.openingSessions then At(s, c, AwaitingOpen(s.openingSessions[id], current))
    else
      At(s, c, AwaitingOpen(|s.opens|, current)).(
        opens := s.opens + [Open(id, c, Resolving)],
        openingSessions := s.openingSessions[id := |s.opens|])
  }

  predicate IsAttachedTo(s: State, a: nat, id: string) {
    a < |s.attachments| && s.attachments[a].session < |s.hosted| && s.hosted[s.attachments[a].session].id == id
  }

  /** `startServiceCall`: an operation is admitted to the attachment it names, or refused. */
  function CallStarted(s: State, c: nat, target: string, attachment: nat): State
    requires c in s.running
  {
    var done := At(s, c, Finishing);
    if Turned(s, c) || c !in s.attachmentsByClient || s.attachmentsByClient[c] != attachment
       || !IsAttachedTo(s, attachment, target) then done
    else
      var at := s.attachments[attachment];
      WithAttachment(done, attachment,
                     at.(operations := at.operations + {s.calls}, admitted := at.admitted + {s.calls})).(
        calls := s.calls + 1)
  }

  function LeaveStarted(s: State, c: nat): State
    requires c in s.running && (c in s.attachmentsByClient ==> s.attachmentsByClient[c] < |s.attachments|)
  {
    if c in s.attachmentsByClient then
      var a := s.attachmentsByClient[c];
      At(ReleaseBegun(s, a, true), c, AwaitingRelease(a))
    else At(s, c, Finishing)
  }

  predicate CanStartOperation(s: State, c: nat, i: nat) {
    && CanStart(ChainOf(s, c), i) && i < |KindsOf(s, c)|
    && (c in s.attachmentsByClient ==> s.attachmentsByClient[c] < |s.attachments|)
  }

  function Started(s: State, c: nat, i: nat): State
    requires CanStartOperation(s, c, i)
  {
    var begun := s.(chains := s.chains[c := SetPhase(ChainOf(s, c), i, Phase.Running)],
                    running := s.running[c := Running.Running(i, Finishing)]);
    match KindsOf(s, c)[i]
    case Attach(id) => AttachStarted(begun, c, id)
    case ServiceCall(target, attachment) => CallStarted(begun, c, target, attachment)
    case _ => LeaveStarted(begun, c)
  }

  predicate CanAcquire(s: State, c: nat) {
    && c in s.running && s.running[c].pc.AwaitingOpen?
    && s.running[c].pc.open < |s.opens| && s.opens[s.running[c].pc.open].phase.OpenSettled?
  }

  /** `acquire` returns what the opening came to; the client that opened removes it from the openings. */
  function Acquired(s: State, c: nat): State
    requires CanAcquire(s, c)
  {
    var pc := s.running[c].pc;
    var open := s.opens[pc.open];
    At(s, c, GotSession(open.phase.hosted, pc.current)).(
      openingSessions := if open.opener == c && open.id in s.openingSessions && s.openingSessions[open.id] == pc.open
                         then s.openingSessions - {open.id} else s.openingSessions)
  }

  predicate CanContinue(s: State, c: nat) {
    && c in s.running && s.running[c].pc.GotSession?
    && (s.running[c].pc.hosted.Some? ==> s.running[c].pc.hosted.value < |s.hosted|)
    && (s.running[c].pc.current.Some? ==> s.running[c].pc.current.value < |s.attachments|)
  }

  /** With the session there: leave the current one first, if there is one. */
  function Continued(s: State, c: nat): State
    requires CanContinue(s, c)
  {
    var pc := s.running[c].pc;
    if pc.hosted.None? || Turned(s, c) then At(s, c, Finishing)
    else if pc.current.Some? then
      At(ReleaseBegun(s, pc.current.value, true), c, Switching(pc.hosted.value, pc.current.value))
    else LeaseBegun(s, c, pc.hosted.value)
  }

  function LeaseBegun(s: State, c: nat, h: nat): State
    requires c in s.running && h < |s.hosted|
  {
    var a := |s.attachments|;
    At(s, c, Leasing(a)).(
      attachments := s.attachments + [NewAttachment(c, h)],
      hosted := s.hosted[h := s.hosted[h].(attachments := s.hosted[h].attachments + {a})])
  }

  predicate CanSwitch(s: State, c: nat) {
    && c in s.running && s.running[c].pc.Switching?
    && s.running[c].pc.leaving < |s.attachments| && s.attachments[s.running[c].pc.leaving].release.Released?
    && s.running[c].pc.next < |s.hosted|
  }

  function Switched(s: State, c: nat): State
    requires CanSwitch(s, c)
  {
    if s.attachments[s.running[c].pc.leaving].release.success then LeaseBegun(s, c, s.running[c].pc.next)
    else At(s, c, Finishing)
  }

  predicate CanRegister(s: State, c: nat) {
    && c in s.running && s.running[c].pc.Leasing? && s.running[c].pc.attachment < |s.attachments|
    && var at := s.attachments[s.running[c].pc.attachment];
       !at.lease.Acquiring? && at.session < |s.hosted|
  }

  /** The lease has been settled: register the attachment, unless the session, the attachment, the client or the server
      has gone meanwhile. */
  function Registered(s: State, c: nat): State
    requires CanRegister(s, c)
  {
    var a := s.running[c].pc.attachment;
    var at := s.attachments[a];
    var h := s.hosted[at.session];
    if at.lease.Denied? then
      At(s, c, Finishing).(hosted := s.hosted[at.session := h.(attachments := h.attachments - {a})])
    else if h.id !in s.hostedSessions || s.hostedSessions[h.id] != at.session || a !in h.attachments
            || Turned(s, c) then
      At(ReleaseBegun(s, a, true), c, AwaitingRelease(a))
    else
      At(s, c, Finishing).(attachmentsByClient := s.attachmentsByClient[c := a])
  }

  predicate CanSettleOperation(s: State, c: nat) {
    && c in s.running && s.running[c].index < |ChainOf(s, c).operations|
    && (s.running[c].pc.Finishing?
        || (s.running[c].pc.AwaitingRelease? && s.running[c].pc.released < |s.attachments|
            && s.attachments[s.running[c].pc.released].release.Released?))
  }

  // ---------------------------------------------------------------------------------------------------------------
  // Removing sessions and closing the router

  /** `removeSession` up to its first suspension. The session stays listed until its handle is closed. */
  function RemovalBegun(s: State, id: string): State
    requires id in s.hostedSessions ==> s.hostedSessions[id] < |s.hosted|
  {
    if s.closing || id !in s.hostedSessions then s
    else
      var h := s.hostedSessions[id];
      ReleasesBegun(s, s.hosted[h].attachments).(
        removals := s.removals + [Removal(h, s.hosted[h].attachments, RemovalReleases(s.hosted[h].attachments))])
  }

  predicate AllReleased(s: State, which: set<nat>) {
    forall a | a in which :: a < |s.attachments| ==> s.attachments[a].release.Released?
  }

  predicate CanAdvanceRemoval(s: State, r: nat) {
    && r < |s.removals| && s.removals[r].hosted < |s.hosted|
    && match s.removals[r].phase
       case RemovalReleases(waiting) => AllReleased(s, waiting)
       case RemovalCloses => true
       case RemovalDone => false
  }

  function RemovalAdvanced(s: State, r: nat): State
    requires CanAdvanceRemoval(s, r)
  {
    var removal := s.removals[r];
    if removal.phase.RemovalReleases? then s.(removals := s.removals[r := removal.(phase := RemovalCloses)])
    else Unlisted(s.(removals := s.removals[r := removal.(phase := RemovalDone)]), removal.hosted)
  }

  /** Take a session off the list if it is still the one listed under its id. */
  function Unlisted(s: State, h: nat): State
    requires h < |s.hosted|
  {
    var id := s.hosted[h].id;
    if id in s.hostedSessions && s.hostedSessions[id] == h then s.(hostedSessions := s.hostedSessions - {id}) else s
  }

  /** `closeInternal`, stage by stage: the operations and openings there are, then the releases, then the handles. */
  function CloseBegun(s: State): State {
    s.(close := AwaitingOperations(
         map c | c in s.chains && s.chains[c].tail.Some? :: s.chains[c].tail.value,
         set id | id in s.openingSessions :: s.openingSessions[id]))
  }

  predicate OperationsOver(s: State) {
    && s.close.AwaitingOperations?
    && (forall c | c in s.close.tails ::
          s.close.tails[c] < |ChainOf(s, c).operations|
          && ChainOf(s, c).operations[s.close.tails[c]].phase.Settled?)
    && (forall o | o in s.close.opens :: o < |s.opens| ==> s.opens[o].phase.OpenSettled?)
  }

  /** The attachments of every listed session. */
  function Listed(s: State): set<nat> {
    set id, a | id in s.hostedSessions && s.hostedSessions[id] < |s.hosted|
                && a in s.hosted[s.hostedSessions[id]].attachments :: a
  }

  function ReleasesAwaited(s: State): State {
    ReleasesBegun(s, Listed(s)).(close := AwaitingReleases(Listed(s)))
  }

  function ListedSessions(s: State): set<nat> {
    set id | id in s.hostedSessions :: s.hostedSessions[id]
  }

  predicate ReleaseFailed(s: State, which: set<nat>) {
    exists a | a in which :: a < |s.attachments| && s.attachments[a].release == Released(false)
  }

  function HandlesAwaited(s: State): State
    requires s.close.AwaitingReleases?
  {
    s.(close := ClosingHandles(ListedSessions(s), ReleaseFailed(s, s.close.releases)))
  }

  function HandleClosed(s: State, h: nat, success: bool): State
    requires s.close.ClosingHandles? && h in s.close.handles && h < |s.hosted|
  {
    var next := s.(close := ClosingHandles(s.close.handles - {h}, s.close.failed || !success));
    if success then Unlisted(next, h) else next
  }

  function CloseEnded(s: State): State
    requires s.close.ClosingHandles?
  {
    s.(close := CloseSettled(!s.close.failed), attachmentsByClient := map[])
  }

  // ---------------------------------------------------------------------------------------------------------------
  // All steps

  datatype ClientStep =
    | EnqueueOperation(kind: Kind)
    | StartOperation(index: nat)
    | AcquireSession
    | ContinueAttach
    | SwitchSession
    | RegisterAttachment
    | SettleOperation
    | ForgetOperation(forgotten: nat)

  datatype AttachmentStep =
    | LeaseSettles(granted: bool)
    | ServiceSettles(operation: nat)
    | AdvanceRelease
    | EndRelease(success: bool)

  datatype OpenStep = ResolveSettles(found: bool) | OpenSettles(works: bool) | DrainedHandleCloses

  datatype SessionStep = SessionEnds(hosted: nat) | RemoveSession(id: string) | AdvanceRemoval(removal: nat)

  datatype CloseStep =
    | ServerCloses
    | CloseRouter
    | AwaitReleases
    | AwaitHandles
    | HandleCloses(handle: nat, closes: bool)
    | EndClose

  datatype Action =
    | OfClient(client: nat, clientStep: ClientStep)
    | OfAttachment(attachment: nat, attachmentStep: AttachmentStep)
    | OfOpening(open: nat, openStep: OpenStep)
    | OfSessions(sessionStep: SessionStep)
    | OfClosing(closeStep: CloseStep)

  predicate ClientEnabled(s: State, c: nat, step: ClientStep) {
    match step
    case EnqueueOperation(_) => true
    case StartOperation(i) => CanStartOperation(s, c, i)
    case AcquireSession => CanAcquire(s, c)
    case ContinueAttach => CanContinue(s, c)
    case SwitchSession => CanSwitch(s, c)
    case RegisterAttachment => CanRegister(s, c)
    case SettleOperation => CanSettleOperation(s, c)
    case ForgetOperation(i) => CanForget(ChainOf(s, c), i)
  }

  function ClientStepped(s: State, c: nat, step: ClientStep): State
    requires ClientEnabled(s, c, step)
  {
    match step
    case EnqueueOperation(kind) => Enqueued(s, c, kind)
    case StartOperation(i) => Started(s, c, i)
    case AcquireSession => Acquired(s, c)
    case ContinueAttach => Continued(s, c)
    case SwitchSession => Switched(s, c)
    case RegisterAttachment => Registered(s, c)
    case SettleOperation => OperationEnded(s, c)
    case ForgetOperation(i) => s.(chains := s.chains[c := Forget(ChainOf(s, c), i)])
  }

  predicate AttachmentEnabled(s: State, a: nat, step: AttachmentStep) {
    && a < |s.attachments|
    && match step
       case LeaseSettles(_) => s.attachments[a].lease.Acquiring?
       case ServiceSettles(operation) => operation in s.attachments[a].operations
       case AdvanceRelease => CanAdvanceRelease(s, a)
       case EndRelease(_) => CanEndRelease(s, a)
  }

  function AttachmentStepped(s: State, a: nat, step: AttachmentStep): State
    requires AttachmentEnabled(s, a, step)
  {
    match step
    case LeaseSettles(granted) =>
      WithAttachment(s, a, s.attachments[a].(lease := if granted then Held else Denied))
    case ServiceSettles(operation) =>
      WithAttachment(s, a, s.attachments[a].(operations := s.attachments[a].operations - {operation}))
    case AdvanceRelease => ReleaseAdvanced(s, a)
    case EndRelease(success) => Cleared(s, a, success)
  }

  predicate OpenEnabled(s: State, o: nat, step: OpenStep) {
    && o < |s.opens|
    && match step
       case ResolveSettles(_) => s.opens[o].phase.Resolving?
       case OpenSettles(_) => s.opens[o].phase.Opening?
       case DrainedHandleCloses => s.opens[o].phase.DrainingHandle?
  }

  function OpenStepped(s: State, o: nat, step: OpenStep): State
    requires OpenEnabled(s, o, step)
  {
    match step
    case ResolveSettles(found) => Resolved(s, o, found)
    case OpenSettles(works) => Opened(s, o, works)
    case DrainedHandleCloses => WithOpen(s, o, OpenSettled(None))
  }

  predicate SessionsEnabled(s: State, step: SessionStep) {
    match step
    case SessionEnds(h) => h < |s.hosted|
    case RemoveSession(id) => id in s.hostedSessions ==> s.hostedSessions[id] < |s.hosted|
    case AdvanceRemoval(r) => CanAdvanceRemoval(s, r)
  }

  function SessionsStepped(s: State, step: SessionStep): State
    requires SessionsEnabled(s, step)
  {
    match step
    case SessionEnds(h) => Invalidated(s, h)
    case RemoveSession(id) => RemovalBegun(s, id)
    case AdvanceRemoval(r) => RemovalAdvanced(s, r)
  }

  predicate CloseEnabled(s: State, step: CloseStep) {
    match step
    case ServerCloses => true
    case CloseRouter => s.closing && s.close.NotClosed?
    case AwaitReleases => OperationsOver(s)
    case AwaitHandles => s.close.AwaitingReleases? && AllReleased(s, s.close.releases)
    case HandleCloses(h, _) => s.close.ClosingHandles? && h in s.close.handles && h < |s.hosted|
    case EndClose => s.close.ClosingHandles? && s.close.handles == {}
  }

  function CloseStepped(s: State, step: CloseStep): State
    requires CloseEnabled(s, step)
  {
    match step
    case ServerCloses => s.(closing := true)
    case CloseRouter => CloseBegun(s)
    case AwaitReleases => ReleasesAwaited(s)
    case AwaitHandles => HandlesAwaited(s)
    case HandleCloses(h, closes) => HandleClosed(s, h, closes)
    case EndClose => CloseEnded(s)
  }

  predicate Enabled(s: State, a: Action) {
    match a
    case OfClient(c, step) => ClientEnabled(s, c, step)
    case OfAttachment(at, step) => AttachmentEnabled(s, at, step)
    case OfOpening(o, step) => OpenEnabled(s, o, step)
    case OfSessions(step) => SessionsEnabled(s, step)
    case OfClosing(step) => CloseEnabled(s, step)
  }

  function Step(s: State, a: Action): State
    requires Enabled(s, a)
  {
    match a
    case OfClient(c, step) => ClientStepped(s, c, step)
    case OfAttachment(at, step) => AttachmentStepped(s, at, step)
    case OfOpening(o, step) => OpenStepped(s, o, step)
    case OfSessions(step) => SessionsStepped(s, step)
    case OfClosing(step) => CloseStepped(s, step)
  }

  /** A run: actions that cannot be taken are passed over. */
  function Run(actions: seq<Action>): State {
    if actions == [] then Initial
    else
      var before, last := Run(actions[..|actions| - 1]), actions[|actions| - 1];
      if Enabled(before, last) then Step(before, last) else before
  }
}
