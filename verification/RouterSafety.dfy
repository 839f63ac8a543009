/** What every step of the session router keeps, and what follows for whole runs. */
module RouterSafety {
  import opened Common
  import opened PromiseChain
  import opened RouterState

  /** One client's operations: queued in order, at most one of them under way. */
  ghost predicate ChainRight(s: State, c: nat) {
    var operations := ChainOf(s, c).operations;
    && Ordered(ChainOf(s, c))
    && |KindsOf(s, c)| == |operations|
    && (c in s.running ==> s.running[c].index < |operations| && operations[s.running[c].index].phase.Running?)
    && (c !in s.running ==> forall i | 0 <= i < |operations| :: !operations[i].phase.Running?)
  }

  predicate OwnAttachment(s: State, c: nat, a: nat) {
    a < |s.attachments| && s.attachments[a].client == c
  }

  /** What an operation under way is waiting for exists, and its attachments are its own client's. */
  predicate PcRight(s: State, c: nat) {
    c in s.running ==>
      match s.running[c].pc
      case AwaitingOpen(o, current) => o < |s.opens| && (current.Some? ==> OwnAttachment(s, c, current.value))
      case GotSession(h, current) =>
        (h.Some? ==> h.value < |s.hosted|) && (current.Some? ==> OwnAttachment(s, c, current.value))
      case Switching(next, leaving) => next < |s.hosted| && OwnAttachment(s, c, leaving)
      case Leasing(a) => OwnAttachment(s, c, a)
      case AwaitingRelease(a) => OwnAttachment(s, c, a)
      case Finishing => true
  }

  /** An attachment that holds its lease and is among those of its session. */
  predicate Attached(s: State, a: nat) {
    && a < |s.attachments| && s.attachments[a].lease.Held? && !s.attachments[a].release.Released?
    && s.attachments[a].session < |s.hosted| && a in s.hosted[s.attachments[a].session].attachments
  }

  /** The index from clients to attachments. */
  predicate IndexRight(s: State, c: nat) {
    c in s.attachmentsByClient ==>
      OwnAttachment(s, c, s.attachmentsByClient[c]) && Attached(s, s.attachmentsByClient[c])
  }

  /** The operation of a client that waits for a release. */
  predicate WaitsFor(s: State, c: nat, a: nat) {
    && c in s.running
    && (s.running[c].pc == AwaitingRelease(a) || (s.running[c].pc.Switching? && s.running[c].pc.leaving == a))
  }

  /** One attachment: its lease is released at most once, and never while it is not held; a release begun in the
      client's own queue has that queue to itself, so it has found every operation that was ever admitted. */
  predicate ReleaseRight(s: State, a: nat) {
    a < |s.attachments| ==>
      var at := s.attachments[a];
      && at.session < |s.hosted|
      && (at.release.Released? ==> a !in s.hosted[at.session].attachments)
      && at.leaseReleases <= 1
      && (at.release.NotReleasing? || at.release.Draining? || at.release.AwaitingLease? ==> at.leaseReleases == 0)
      && (at.leaseReleases == 1 ==> at.lease.Held?)
      && (at.inQueue && !at.release.Released? ==> WaitsFor(s, at.client, a))
      && (at.inQueue && at.release.Draining? ==> at.operations <= at.release.awaited)
      && (at.inQueue && (at.release.AwaitingLease? || at.release.ReleasingLease?) ==> at.operations == {})
      && (at.release.NotReleasing? ==> !at.inQueue)
  }

  /** One opening: until it is over it is the one listed for its id, and no session of that id is hosted. */
  predicate OpenRight(s: State, o: nat) {
    o < |s.opens| ==>
      if s.opens[o].phase.OpenSettled? then
        s.opens[o].phase.hosted.Some? ==> s.opens[o].phase.hosted.value < |s.hosted|
      else
        && s.opens[o].id in s.openingSessions && s.openingSessions[s.opens[o].id] == o
        && s.opens[o].id !in s.hostedSessions
  }

  /** One session id. */
  predicate ListsRight(s: State, id: string) {
    && (id in s.openingSessions ==>
          var o := s.openingSessions[id];
          && o < |s.opens| && s.opens[o].id == id
          && var c := s.opens[o].opener;
             c in s.running && s.running[c].pc.AwaitingOpen? && s.running[c].pc.open == o)
    && (id in s.hostedSessions ==> s.hostedSessions[id] < |s.hosted| && s.hosted[s.hostedSessions[id]].id == id)
  }

  predicate Attaching(pc: Pc) {
    pc.AwaitingOpen? || pc.GotSession? || pc.Switching? || pc.Leasing?
  }

  predicate PastOperations(s: State) {
    s.close.AwaitingReleases? || s.close.ClosingHandles? || s.close.CloseSettled?
  }

  /** Once the router closes, only operations that it waits for are attaching, and then none. */
  predicate CloseRight(s: State, c: nat) {
    && (!s.close.NotClosed? ==> s.closing)
    && (s.close.AwaitingOperations? && c in s.running && Attaching(s.running[c].pc) ==>
          c in s.close.tails && s.running[c].index <= s.close.tails[c])
    && (PastOperations(s) && c in s.running ==> !Attaching(s.running[c].pc))
    && (s.close.CloseSettled? ==> s.attachmentsByClient == map[])
  }

  predicate ClosedRight(s: State, id: string) {
    && (s.close.ClosingHandles? && id in s.hostedSessions ==> s.close.failed || s.hostedSessions[id] in s.close.handles)
    && (s.close == CloseSettled(true) ==> id !in s.hostedSessions)
  }

  ghost predicate Inv(s: State) {
    && (forall c :: ChainRight(s, c) && PcRight(s, c) && IndexRight(s, c) && CloseRight(s, c))
    && (forall a :: ReleaseRight(s, a))
    && (forall o :: OpenRight(s, o))
    && (forall id :: ListsRight(s, id) && ClosedRight(s, id))
  }

  // ---------------------------------------------------------------------------------------------------------------
  // What no step undoes

  /** Objects stay what they are. */
  ghost predicate Grows(s: State, t: State) {
    && |s.opens| <= |t.opens| && |s.hosted| <= |t.hosted| && |s.attachments| <= |t.attachments|
    && (forall o | 0 <= o < |s.opens| :: t.opens[o].id == s.opens[o].id && t.opens[o].opener == s.opens[o].opener)
    && (forall h | 0 <= h < |s.hosted| :: t.hosted[h].id == s.hosted[h].id)
    && (forall a | 0 <= a < |s.attachments| ::
          t.attachments[a].client == s.attachments[a].client && t.attachments[a].session == s.attachments[a].session)
    && (s.closing ==> t.closing)
  }

  /** Nothing happens to the operations of any client. */
  predicate SameOperations(s: State, t: State) {
    t.chains == s.chains && t.kinds == s.kinds && t.running == s.running
  }

  /** Nothing happens to them but that one of them moves on. */
  predicate QueuesBut(s: State, t: State, c: nat) {
    && t.chains == s.chains && t.kinds == s.kinds && c in s.running && c in t.running
    && t.running == s.running[c := t.running[c]] && t.running[c].index == s.running[c].index
  }

  lemma ChangingGrows(s: State, a: nat, at: Attachment)
    requires a < |s.attachments|
    requires at.client == s.attachments[a].client && at.session == s.attachments[a].session
    ensures Grows(s, WithAttachment(s, a, at)) && SameOperations(s, WithAttachment(s, a, at))
  {
  }

  lemma ClearingGrows(s: State, a: nat, success: bool)
    requires a < |s.attachments| && s.attachments[a].session < |s.hosted|
    ensures Grows(s, Cleared(s, a, success)) && SameOperations(s, Cleared(s, a, success))
  {
  }

  lemma AttachmentsGrow(s: State, a: nat, step: AttachmentStep)
    requires AttachmentEnabled(s, a, step)
    ensures Grows(s, AttachmentStepped(s, a, step)) && SameOperations(s, AttachmentStepped(s, a, step))
  {
    hide Grows, Cleared, WithAttachment;
    var at := s.attachments[a];
    match step
    case AdvanceRelease =>
      match at.lease {
        case Held => ChangingGrows(s, a, at.(release := ReleasingLease, leaseReleases := at.leaseReleases + 1));
        case Acquiring => ChangingGrows(s, a, at.(release := AwaitingLease));
        case Denied => ClearingGrows(s, a, false);
      }
    case LeaseSettles(granted) => ChangingGrows(s, a, at.(lease := if granted then Held else Denied));
    case ServiceSettles(operation) => ChangingGrows(s, a, at.(operations := at.operations - {operation}));
    case EndRelease(success) => ClearingGrows(s, a, success);
  }

  lemma PhasingGrows(s: State, o: nat, phase: OpenPhase)
    requires o < |s.opens|
    ensures Grows(s, WithOpen(s, o, phase)) && SameOperations(s, WithOpen(s, o, phase))
  {
  }

  lemma OpeningGrows(s: State, o: nat)
    requires OpenEnabled(s, o, OpenSettles(true)) && !s.closing
    ensures Grows(s, Opened(s, o, true)) && SameOperations(s, Opened(s, o, true))
  {
  }

  lemma OpensGrow(s: State, o: nat, step: OpenStep)
    requires OpenEnabled(s, o, step)
    ensures Grows(s, OpenStepped(s, o, step)) && SameOperations(s, OpenStepped(s, o, step))
  {
    hide Grows, WithOpen;
    match step
    case ResolveSettles(found) => PhasingGrows(s, o, if found then Opening else OpenSettled(None));
    case OpenSettles(works) =>
      if !works {
        PhasingGrows(s, o, OpenSettled(None));
      } else if s.closing {
        PhasingGrows(s, o, DrainingHandle);
      } else {
        OpeningGrows(s, o);
      }
    case DrainedHandleCloses => PhasingGrows(s, o, OpenSettled(None));
  }

  lemma BeginningGrows(s: State, which: set<nat>)
    ensures Grows(s, ReleasesBegun(s, which)) && SameOperations(s, ReleasesBegun(s, which))
  {
  }

  /** The same, where only lists change. */
  lemma ListingGrows(s: State, t: State, u: State)
    requires Grows(s, t) && SameOperations(s, t) && SameOperations(t, u)
    requires u.opens == t.opens && u.hosted == t.hosted && u.attachments == t.attachments && u.closing == t.closing
    ensures Grows(s, u) && SameOperations(s, u)
  {
  }

  lemma Staying(s: State)
    ensures Grows(s, s) && SameOperations(s, s)
  {
  }

  lemma EndingGrows(s: State, h: nat)
    requires h < |s.hosted|
    ensures Grows(s, Invalidated(s, h)) && SameOperations(s, Invalidated(s, h))
  {
    hide Grows;
    Staying(s);
    if s.hosted[h].id in s.hostedSessions && s.hostedSessions[s.hosted[h].id] == h {
      var unlisted := s.(hostedSessions := s.hostedSessions - {s.hosted[h].id});
      BeginningGrows(unlisted, s.hosted[h].attachments);
      GrowsFromSame(s, unlisted, Invalidated(s, h));
    }
  }

  lemma RemovingGrows(s: State, id: string)
    requires id in s.hostedSessions ==> s.hostedSessions[id] < |s.hosted|
    ensures Grows(s, RemovalBegun(s, id)) && SameOperations(s, RemovalBegun(s, id))
  {
    hide Grows, ReleasesBegun;
    Staying(s);
    if !s.closing && id in s.hostedSessions {
      var which := s.hosted[s.hostedSessions[id]].attachments;
      BeginningGrows(s, which);
      ListingGrows(s, ReleasesBegun(s, which), RemovalBegun(s, id));
    }
  }

  lemma AdvancingGrows(s: State, r: nat)
    requires CanAdvanceRemoval(s, r)
    ensures Grows(s, RemovalAdvanced(s, r)) && SameOperations(s, RemovalAdvanced(s, r))
  {
    hide Grows, RemovalAdvanced, CanAdvanceRemoval;
    Staying(s);
    AdvancedFrame(s, r);
    ListingGrows(s, s, RemovalAdvanced(s, r));
  }

  /** Only removals and the list of sessions change. */
  lemma AdvancedFrame(s: State, r: nat)
    requires CanAdvanceRemoval(s, r)
    ensures var t := RemovalAdvanced(s, r);
            t == s.(removals := t.removals, hostedSessions := t.hostedSessions)
  {
    if s.removals[r].phase.RemovalReleases? {} else {}
  }

  lemma SessionsGrow(s: State, step: SessionStep)
    requires SessionsEnabled(s, step)
    ensures Grows(s, SessionsStepped(s, step)) && SameOperations(s, SessionsStepped(s, step))
  {
    hide Grows, SameOperations, Invalidated, RemovalBegun, RemovalAdvanced;
    match step
    case SessionEnds(h) => EndingGrows(s, h);
    case RemoveSession(id) => RemovingGrows(s, id);
    case AdvanceRemoval(r) => AdvancingGrows(s, r);
  }

  lemma ClosingGrows(s: State, step: CloseStep)
    requires CloseEnabled(s, step)
    ensures Grows(s, CloseStepped(s, step)) && SameOperations(s, CloseStepped(s, step))
  {
    hide Grows, ReleasesBegun, OperationsOver;
    var t := CloseStepped(s, step);
    Staying(s);
    match step
    case ServerCloses => ClosesGrows(s);
    case AwaitReleases =>
      BeginningGrows(s, Listed(s));
      ListingGrows(s, ReleasesBegun(s, Listed(s)), t);
    case HandleCloses(_, _) => ListingGrows(s, s, t);
    case CloseRouter => ListingGrows(s, s, t);
    case AwaitHandles => ListingGrows(s, s, t);
    case EndClose => ListingGrows(s, s, t);
  }

  lemma ClosesGrows(s: State)
    ensures Grows(s, s.(closing := true)) && SameOperations(s, s.(closing := true))
  {
  }

  predicate InTheMiddle(step: ClientStep) {
    step.AcquireSession? || step.ContinueAttach? || step.SwitchSession? || step.RegisterAttachment?
  }

  lemma MiddleGrows(s: State, c: nat, step: ClientStep)
    requires ClientEnabled(s, c, step) && InTheMiddle(step)
    ensures var t := ClientStepped(s, c, step); Grows(s, t) && QueuesBut(s, t, c)
  {
    hide Grows, QueuesBut, Registered, LeaseBegun, At, ReleaseBegun, Acquired;
    match step
    case RegisterAttachment => RegisteringGrows(s, c);
    case ContinueAttach =>
      var pc := s.running[c].pc;
      if pc.hosted.None? || Turned(s, c) {
        MovingGrows(s, c, Finishing);
      } else if pc.current.Some? {
        LettingGoGrows(s, c, pc.current.value, Switching(pc.hosted.value, pc.current.value));
      } else {
        LeasingGrows(s, c, pc.hosted.value);
      }
    case SwitchSession =>
      if s.attachments[s.running[c].pc.leaving].release.success {
        LeasingGrows(s, c, s.running[c].pc.next);
      } else {
        MovingGrows(s, c, Finishing);
      }
    case AcquireSession => AcquiringGrows(s, c);
  }

  /** The operations of the other clients stay where they are. */
  lemma ClientsGrow(s: State, c: nat, step: ClientStep)
    requires ClientEnabled(s, c, step)
    ensures var t := ClientStepped(s, c, step); Grows(s, t) && OthersRun(s, t, c)
  {
    hide Grows, Started, Registered, Continued, Switched, Acquired;
    if InTheMiddle(step) {
      MiddleGrows(s, c, step);
    } else if step.StartOperation? {
      StartingGrows(s, c, step.index);
    } else {
      QueueingGrows(s, ClientStepped(s, c, step), c);
    }
  }

  lemma QueueingGrows(s: State, t: State, c: nat)
    requires t.opens == s.opens && t.hosted == s.hosted && t.attachments == s.attachments && t.closing == s.closing
    requires t.running == s.running || t.running == s.running - {c}
    ensures Grows(s, t) && OthersRun(s, t, c)
  {
  }

  lemma MovingGrows(s: State, c: nat, pc: Pc)
    requires c in s.running
    ensures Grows(s, At(s, c, pc)) && QueuesBut(s, At(s, c, pc), c)
  {
  }

  lemma LettingGoGrows(s: State, c: nat, a: nat, pc: Pc)
    requires c in s.running && a < |s.attachments|
    ensures Grows(s, At(ReleaseBegun(s, a, true), c, pc)) && QueuesBut(s, At(ReleaseBegun(s, a, true), c, pc), c)
  {
  }

  lemma LeasingGrows(s: State, c: nat, h: nat)
    requires c in s.running && h < |s.hosted|
    ensures Grows(s, LeaseBegun(s, c, h)) && QueuesBut(s, LeaseBegun(s, c, h), c)
  {
  }

  lemma AcquiringGrows(s: State, c: nat)
    requires CanAcquire(s, c)
    ensures Grows(s, Acquired(s, c)) && QueuesBut(s, Acquired(s, c), c)
  {
  }

  /** Nothing happens to the operations of other clients. */
  ghost predicate OthersRun(s: State, t: State, c: nat) {
    forall other: nat | other != c ::
      && (other in t.running <==> other in s.running)
      && (other in s.running ==> t.running[other] == s.running[other])
  }

  lemma RegisteringGrows(s: State, c: nat)
    requires CanRegister(s, c)
    ensures Grows(s, Registered(s, c)) && QueuesBut(s, Registered(s, c), c)
  {
    hide Grows, QueuesBut;
    var a := s.running[c].pc.attachment;
    var h := s.hosted[s.attachments[a].session];
    if s.attachments[a].lease.Denied? {
      DenyingGrows(s, c);
    } else if h.id !in s.hostedSessions || s.hostedSessions[h.id] != s.attachments[a].session || a !in h.attachments
              || Turned(s, c) {
      LettingGoGrows(s, c, a, AwaitingRelease(a));
    } else {
      IndexingGrows(s, c, a);
    }
  }

  lemma DenyingGrows(s: State, c: nat)
    requires CanRegister(s, c) && s.attachments[s.running[c].pc.attachment].lease.Denied?
    ensures Grows(s, Registered(s, c)) && QueuesBut(s, Registered(s, c), c)
  {
  }

  lemma IndexingGrows(s: State, c: nat, a: nat)
    requires c in s.running
    ensures var t := At(s, c, Finishing).(attachmentsByClient := s.attachmentsByClient[c := a]);
            Grows(s, t) && QueuesBut(s, t, c)
  {
  }

  function Begins(s: State, c: nat, i: nat): State
    requires CanStartOperation(s, c, i)
  {
    s.(chains := s.chains[c := SetPhase(ChainOf(s, c), i, Phase.Running)],
       running := s.running[c := Running.Running(i, Finishing)])
  }

  lemma StartingGrows(s: State, c: nat, i: nat)
    requires CanStartOperation(s, c, i)
    ensures var t := Started(s, c, i);
            Grows(s, t) && OthersRun(s, t, c) && QueuesBut(Begins(s, c, i), t, c)
  {
    hide Grows;
    var begun := Begins(s, c, i);
    StartedGrows(s, c, i);
    assert Grows(s, Started(s, c, i)) by {
      GrowsFromSame(s, begun, Started(s, c, i));
    }
  }

  lemma GrowsFromSame(s: State, t: State, u: State)
    requires t.opens == s.opens && t.hosted == s.hosted && t.attachments == s.attachments && t.closing == s.closing
    requires Grows(t, u)
    ensures Grows(s, u)
  {
  }

  lemma StartedGrows(s: State, c: nat, i: nat)
    requires CanStartOperation(s, c, i)
    ensures var begun, t := Begins(s, c, i), Started(s, c, i); Grows(begun, t) && QueuesBut(begun, t, c)
  {
    hide Grows, QueuesBut, AttachStarted, CallStarted, LeaveStarted;
    var begun := Begins(s, c, i);
    match KindsOf(s, c)[i]
    case Attach(id) => AttachingGrows(begun, c, id);
    case ServiceCall(target, attachment) => CallingGrows(begun, c, target, attachment);
    case Detach => LeavingGrows(begun, c);
    case Disconnect => LeavingGrows(begun, c);
  }

  lemma AttachingGrows(s: State, c: nat, id: string)
    requires c in s.running
    ensures Grows(s, AttachStarted(s, c, id)) && QueuesBut(s, AttachStarted(s, c, id), c)
  {
    var current := if c in s.attachmentsByClient then Some(s.attachmentsByClient[c]) else None;
    if Turned(s, c) {
    } else if current.Some? && IsAttachedTo(s, current.value, id) {
    } else if id in s.hostedSessions {
    } else if id in s.openingSessions {
    } else {
    }
  }

  lemma CallingGrows(s: State, c: nat, target: string, attachment: nat)
    requires c in s.running
    ensures Grows(s, CallStarted(s, c, target, attachment)) && QueuesBut(s, CallStarted(s, c, target, attachment), c)
  {
    if Turned(s, c) || c !in s.attachmentsByClient || s.attachmentsByClient[c] != attachment
       || !IsAttachedTo(s, attachment, target) {
    } else {
    }
  }

  lemma LeavingGrows(s: State, c: nat)
    requires c in s.running && (c in s.attachmentsByClient ==> s.attachmentsByClient[c] < |s.attachments|)
    ensures Grows(s, LeaveStarted(s, c)) && QueuesBut(s, LeaveStarted(s, c), c)
  {
    if c in s.attachmentsByClient {} else {}
  }

  lemma PcSame(s: State, t: State, c: nat)
    requires PcRight(s, c) && Grows(s, t)
    requires c in t.running ==> c in s.running && t.running[c] == s.running[c]
    ensures PcRight(t, c)
  {
    if c in t.running {
      match t.running[c].pc
      case AwaitingOpen(o, current) =>
      case GotSession(h, current) =>
      case Switching(next, leaving) =>
      case Leasing(a) =>
      case AwaitingRelease(a) =>
      case Finishing =>
    }
  }

  lemma PcOwn(s: State, c: nat, step: ClientStep)
    requires PcRight(s, c) && IndexRight(s, c) && ClientEnabled(s, c, step)
    requires forall id :: ListsRight(s, id)
    requires forall o :: OpenRight(s, o)
    ensures PcRight(ClientStepped(s, c, step), c)
  {
    hide Started, Registered, Continued, Switched, ListsRight, OpenRight, PcRight;
    match step
    case StartOperation(i) => PcStarting(s, c, i);
    case RegisterAttachment => PcRegistering(s, c);
    case ContinueAttach => PcContinuing(s, c);
    case SwitchSession => PcSwitching(s, c);
    case AcquireSession => PcAcquiring(s, c);
    case EnqueueOperation(kind) => PcQueueing(s, ClientStepped(s, c, step), c);
    case SettleOperation => PcQueueing(s, ClientStepped(s, c, step), c);
    case ForgetOperation(_) => PcQueueing(s, ClientStepped(s, c, step), c);
  }

  lemma PcQueueing(s: State, t: State, c: nat)
    requires t.opens == s.opens && t.hosted == s.hosted && t.attachments == s.attachments
    requires t.running == s.running || t.running == s.running - {c}
    requires PcRight(s, c)
    ensures PcRight(t, c)
  {
  }

  lemma PcContinuing(s: State, c: nat)
    requires PcRight(s, c) && CanContinue(s, c)
    ensures PcRight(Continued(s, c), c)
  {
    hide At, ReleaseBegun, LeaseBegun;
    var pc := s.running[c].pc;
    if pc.hosted.None? || Turned(s, c) {
      PcFinishing(s, Continued(s, c), c);
    } else if pc.current.Some? {
      PcSwitchingTo(s, c, pc.hosted.value, pc.current.value);
    } else {
      PcLeasing(s, c, pc.hosted.value);
    }
  }

  lemma PcSwitchingTo(s: State, c: nat, h: nat, a: nat)
    requires c in s.running && OwnAttachment(s, c, a) && h < |s.hosted|
    ensures PcRight(At(ReleaseBegun(s, a, true), c, Switching(h, a)), c)
  {
  }

  lemma PcLeasing(s: State, c: nat, h: nat)
    requires c in s.running && h < |s.hosted|
    ensures PcRight(LeaseBegun(s, c, h), c)
  {
  }

  lemma PcSwitching(s: State, c: nat)
    requires PcRight(s, c) && CanSwitch(s, c)
    ensures PcRight(Switched(s, c), c)
  {
    if s.attachments[s.running[c].pc.leaving].release.success {} else {}
  }

  lemma PcAcquiring(s: State, c: nat)
    requires PcRight(s, c) && CanAcquire(s, c) && OpenRight(s, s.running[c].pc.open)
    ensures PcRight(Acquired(s, c), c)
  {
  }

  lemma PcRegistering(s: State, c: nat)
    requires PcRight(s, c) && CanRegister(s, c)
    ensures PcRight(Registered(s, c), c)
  {
    hide At, ReleaseBegun;
    var a := s.running[c].pc.attachment;
    var h := s.hosted[s.attachments[a].session];
    if s.attachments[a].lease.Denied? {
      PcFinishing(s, Registered(s, c), c);
    } else if h.id !in s.hostedSessions || s.hostedSessions[h.id] != s.attachments[a].session || a !in h.attachments
              || Turned(s, c) {
      PcLettingGo(s, c, a);
    } else {
      PcFinishing(s, Registered(s, c), c);
    }
  }

  lemma PcFinishing(s: State, t: State, c: nat)
    requires c in s.running && t.running == At(s, c, Finishing).running
    ensures PcRight(t, c)
  {
  }

  lemma PcLettingGo(s: State, c: nat, a: nat)
    requires c in s.running && OwnAttachment(s, c, a)
    ensures PcRight(At(ReleaseBegun(s, a, true), c, AwaitingRelease(a)), c)
  {
  }

  lemma PcStarting(s: State, c: nat, i: nat)
    requires IndexRight(s, c) && CanStartOperation(s, c, i)
    requires forall id :: ListsRight(s, id)
    ensures PcRight(Started(s, c, i), c)
  {
    var begun := Begins(s, c, i);
    match KindsOf(s, c)[i]
    case Attach(id) =>
      assert ListsRight(s, id);
      PcAttaching(begun, c, id);
    case ServiceCall(target, attachment) =>
    case Detach => PcLeaving(begun, c);
    case Disconnect => PcLeaving(begun, c);
  }

  lemma PcAttaching(s: State, c: nat, id: string)
    requires c in s.running && IndexRight(s, c)
    requires id in s.hostedSessions ==> s.hostedSessions[id] < |s.hosted|
    requires id in s.openingSessions ==> s.openingSessions[id] < |s.opens|
    ensures PcRight(AttachStarted(s, c, id), c)
  {
    var current := if c in s.attachmentsByClient then Some(s.attachmentsByClient[c]) else None;
    if Turned(s, c) {
    } else if current.Some? && IsAttachedTo(s, current.value, id) {
    } else if id in s.hostedSessions {
    } else if id in s.openingSessions {
    } else {
    }
  }

  lemma PcLeaving(s: State, c: nat)
    requires c in s.running && IndexRight(s, c) && s.running[c].pc.Finishing?
    ensures PcRight(LeaveStarted(s, c), c)
  {
    if c in s.attachmentsByClient {} else {}
  }

  // ---------------------------------------------------------------------------------------------------------------
  // The queues

  /** Steps that move no operation on in its queue. */
  predicate SameQueues(s: State, t: State, c: nat) {
    && ChainOf(t, c) == ChainOf(s, c) && KindsOf(t, c) == KindsOf(s, c)
    && (c in t.running <==> c in s.running)
    && (c in s.running ==> t.running[c].index == s.running[c].index)
  }

  lemma ChainSame(s: State, t: State, c: nat)
    requires ChainRight(s, c) && SameQueues(s, t, c)
    ensures ChainRight(t, c)
  {
    hide Ordered;
  }

  /** An operation starts only when no other one of its client is under way. */
  lemma StartIsAlone(s: State, c: nat, i: nat)
    requires ChainRight(s, c) && CanStartOperation(s, c, i)
    ensures c !in s.running
    ensures ChainRight(Begins(s, c, i), c)
  {
    StartedAlone(ChainOf(s, c), i);
    hide Ordered;
    assert SettledUpTo(ChainOf(s, c), i);
  }

  lemma SettleQueues(s: State, c: nat)
    requires ChainRight(s, c) && CanSettleOperation(s, c)
    ensures ChainRight(OperationEnded(s, c), c)
  {
    var i := s.running[c].index;
    SettlingKeepsOrder(ChainOf(s, c), i);
    var t := OperationEnded(s, c);
    forall j | 0 <= j < |ChainOf(t, c).operations|
      ensures !ChainOf(t, c).operations[j].phase.Running?
    {
      if j != i && ChainOf(s, c).operations[j].phase.Running? {
        NeverOverlap(ChainOf(s, c), i, j);
      }
    }
    hide Ordered;
  }

  lemma EnqueueQueues(s: State, c: nat, kind: Kind)
    requires ChainRight(s, c)
    ensures ChainRight(Enqueued(s, c, kind), c)
  {
    EnqueueKeepsOrder(ChainOf(s, c));
    hide Ordered;
  }

  lemma ForgetQueues(s: State, c: nat, i: nat)
    requires ChainRight(s, c) && CanForget(ChainOf(s, c), i)
    ensures ChainRight(s.(chains := s.chains[c := Forget(ChainOf(s, c), i)]), c)
  {
    ForgetKeepsOrder(ChainOf(s, c), i);
    hide Ordered;
  }

  lemma ClientChains(s: State, c: nat, step: ClientStep, other: nat)
    requires ChainRight(s, c) && ChainRight(s, other) && ClientEnabled(s, c, step)
    ensures ChainRight(ClientStepped(s, c, step), other)
  {
    hide ChainRight, Started, Registered, Continued, Switched, Acquired, Grows;
    var t := ClientStepped(s, c, step);
    match step
    case StartOperation(i) =>
      StartIsAlone(s, c, i);
      StartingGrows(s, c, i);
      if other == c {
        ChainSame(Begins(s, c, i), t, c);
      } else {
        ChainSame(s, t, other);
      }
    case EnqueueOperation(kind) =>
      EnqueueQueues(s, c, kind);
      if other != c {
        ChainSame(s, t, other);
      }
    case SettleOperation =>
      SettleQueues(s, c);
      if other != c {
        ChainSame(s, t, other);
      }
    case ForgetOperation(i) =>
      ForgetQueues(s, c, i);
      if other != c {
        ChainSame(s, t, other);
      }
    case _ =>
      MiddleGrows(s, c, step);
      ChainSame(s, t, other);
  }

  // ---------------------------------------------------------------------------------------------------------------
  // The index

  /** A client that is still in the index is there with the same attachment. */
  predicate SameIndex(s: State, t: State, c: nat) {
    c in t.attachmentsByClient ==> c in s.attachmentsByClient && t.attachmentsByClient[c] == s.attachmentsByClient[c]
  }

  lemma IndexKept(s: State, t: State, c: nat)
    requires IndexRight(s, c) && SameIndex(s, t, c) && Grows(s, t)
    requires c in t.attachmentsByClient && c in s.attachmentsByClient ==> Attached(t, s.attachmentsByClient[c])
    ensures IndexRight(t, c)
  {
  }

  lemma ChangedStaysAttached(s: State, changed: nat, at: Attachment, a: nat)
    requires Attached(s, a) && changed < |s.attachments|
    requires at.session == s.attachments[changed].session
    requires a == changed ==> at.lease.Held? && !at.release.Released?
    ensures Attached(WithAttachment(s, changed, at), a)
  {
  }

  lemma ClearedStaysAttached(s: State, cleared: nat, success: bool, a: nat)
    requires Attached(s, a) && cleared < |s.attachments| && s.attachments[cleared].session < |s.hosted|
    requires a != cleared
    ensures Attached(Cleared(s, cleared, success), a)
  {
  }

  lemma AttachmentStepIndex(s: State, a: nat, step: AttachmentStep, c: nat)
    requires IndexRight(s, c) && AttachmentEnabled(s, a, step)
    ensures IndexRight(AttachmentStepped(s, a, step), c)
  {
    hide Attached, Grows, WithAttachment;
    var at, t := s.attachments[a], AttachmentStepped(s, a, step);
    AttachmentsGrow(s, a, step);
    AttachmentStepSameIndex(s, a, step, c);
    if c in t.attachmentsByClient {
      var b := s.attachmentsByClient[c];
      IndexedIsHeld(s, b);
      match step
      case LeaseSettles(granted) => ChangedStaysAttached(s, a, at.(lease := if granted then Held else Denied), b);
      case ServiceSettles(op) => ChangedStaysAttached(s, a, at.(operations := at.operations - {op}), b);
      case EndRelease(success) => ClearedStaysAttached(s, a, success, b);
      case AdvanceRelease =>
        match at.lease {
          case Held =>
            ChangedStaysAttached(s, a, at.(release := ReleasingLease, leaseReleases := at.leaseReleases + 1), b);
          case Acquiring => ChangedStaysAttached(s, a, at.(release := AwaitingLease), b);
          case Denied => ClearedStaysAttached(s, a, false, b);
        }
    }
    IndexKept(s, t, c);
  }

  lemma IndexedIsHeld(s: State, a: nat)
    requires Attached(s, a)
    ensures a < |s.attachments| && s.attachments[a].lease.Held? && !s.attachments[a].release.Released?
  {
  }

  lemma AttachmentStepSameIndex(s: State, a: nat, step: AttachmentStep, c: nat)
    requires AttachmentEnabled(s, a, step) && IndexRight(s, c)
    ensures SameIndex(s, AttachmentStepped(s, a, step), c)
    ensures step.EndRelease? && c in AttachmentStepped(s, a, step).attachmentsByClient ==> s.attachmentsByClient[c] != a
  {
    if step.AdvanceRelease? {
      if s.attachments[a].lease.Denied? {} else {}
    }
  }

  lemma OpenStepIndex(s: State, o: nat, step: OpenStep, c: nat)
    requires IndexRight(s, c) && OpenEnabled(s, o, step)
    ensures IndexRight(OpenStepped(s, o, step), c)
  {
    match step
    case ResolveSettles(found) =>
    case OpenSettles(works) => if !works {} else if s.closing {} else {}
    case DrainedHandleCloses =>
  }

  lemma BegunStaysAttached(s: State, which: set<nat>, a: nat)
    requires Attached(s, a)
    ensures Attached(ReleasesBegun(s, which), a)
  {
  }

  lemma BegunIndex(s: State, which: set<nat>, c: nat)
    requires IndexRight(s, c)
    ensures IndexRight(ReleasesBegun(s, which), c)
  {
    if c in s.attachmentsByClient {
      BegunStaysAttached(s, which, s.attachmentsByClient[c]);
    }
  }

  /** What the index depends on. */
  lemma IndexOfSame(s: State, t: State, c: nat)
    requires IndexRight(s, c) && t.attachments == s.attachments && t.hosted == s.hosted
    requires SameIndex(s, t, c)
    ensures IndexRight(t, c)
  {
  }

  lemma SessionStepIndex(s: State, step: SessionStep, c: nat)
    requires IndexRight(s, c) && SessionsEnabled(s, step)
    ensures IndexRight(SessionsStepped(s, step), c)
  {
    hide IndexRight, Invalidated, RemovalBegun, RemovalAdvanced;
    match step
    case SessionEnds(h) => EndedIndex(s, h, c);
    case RemoveSession(id) => RemovedIndex(s, id, c);
    case AdvanceRemoval(r) => AdvancedIndex(s, r, c);
  }

  lemma AdvancedIndex(s: State, r: nat, c: nat)
    requires IndexRight(s, c) && CanAdvanceRemoval(s, r)
    ensures IndexRight(RemovalAdvanced(s, r), c)
  {
    hide IndexRight, RemovalAdvanced, CanAdvanceRemoval;
    AdvancedFrame(s, r);
    IndexOfSame(s, RemovalAdvanced(s, r), c);
  }

  lemma EndedIndex(s: State, h: nat, c: nat)
    requires IndexRight(s, c) && h < |s.hosted|
    ensures IndexRight(Invalidated(s, h), c)
  {
    hide IndexRight;
    if s.hosted[h].id in s.hostedSessions && s.hostedSessions[s.hosted[h].id] == h {
      var unlisted := s.(hostedSessions := s.hostedSessions - {s.hosted[h].id});
      IndexOfSame(s, unlisted, c);
      BegunIndex(unlisted, s.hosted[h].attachments, c);
    }
  }

  lemma RemovedIndex(s: State, id: string, c: nat)
    requires IndexRight(s, c) && (id in s.hostedSessions ==> s.hostedSessions[id] < |s.hosted|)
    ensures IndexRight(RemovalBegun(s, id), c)
  {
    hide IndexRight, ReleasesBegun;
    if !s.closing && id in s.hostedSessions {
      var which := s.hosted[s.hostedSessions[id]].attachments;
      BegunIndex(s, which, c);
      IndexOfSame(ReleasesBegun(s, which), RemovalBegun(s, id), c);
    }
  }

  lemma CloseStepIndex(s: State, step: CloseStep, c: nat)
    requires IndexRight(s, c) && CloseEnabled(s, step)
    ensures IndexRight(CloseStepped(s, step), c)
  {
    hide IndexRight, ReleasesBegun, OperationsOver;
    var t := CloseStepped(s, step);
    match step
    case AwaitReleases =>
      BegunIndex(s, Listed(s), c);
      IndexOfSame(ReleasesBegun(s, Listed(s)), t, c);
    case HandleCloses(_, _) => IndexOfSame(s, t, c);
    case ServerCloses => IndexOfSame(s, t, c);
    case CloseRouter => IndexOfSame(s, t, c);
    case AwaitHandles => IndexOfSame(s, t, c);
    case EndClose => IndexOfSame(s, t, c);
  }

  lemma LeasingIndex(s: State, c: nat, h: nat, other: nat)
    requires IndexRight(s, other) && c in s.running && h < |s.hosted|
    ensures IndexRight(LeaseBegun(s, c, h), other)
  {
  }

  lemma LettingGoIndex(s: State, c: nat, a: nat, pc: Pc, other: nat)
    requires IndexRight(s, other) && c in s.running && a < |s.attachments|
    ensures IndexRight(At(ReleaseBegun(s, a, true), c, pc), other)
  {
  }

  lemma RegisteringIndex(s: State, c: nat, other: nat)
    requires IndexRight(s, other) && CanRegister(s, c) && PcRight(s, c)
    requires ReleaseRight(s, s.running[c].pc.attachment)
    ensures IndexRight(Registered(s, c), other)
  {
    hide ReleaseRight;
    var a := s.running[c].pc.attachment;
    var h := s.hosted[s.attachments[a].session];
    if s.attachments[a].lease.Denied? {
      DenyingIndex(s, c, other);
    } else if h.id !in s.hostedSessions || s.hostedSessions[h.id] != s.attachments[a].session || a !in h.attachments
              || Turned(s, c) {
      LettingGoIndex(s, c, a, AwaitingRelease(a), other);
    } else {
      IndexingIndex(s, c, a, other);
    }
  }

  lemma DenyingIndex(s: State, c: nat, other: nat)
    requires IndexRight(s, other) && CanRegister(s, c)
    requires s.attachments[s.running[c].pc.attachment].lease.Denied?
    ensures IndexRight(Registered(s, c), other)
  {
  }

  /** An attachment is registered with its own client, with its lease, and while its session still has it. */
  lemma IndexingIndex(s: State, c: nat, a: nat, other: nat)
    requires IndexRight(s, other) && c in s.running && OwnAttachment(s, c, a) && ReleaseRight(s, a)
    requires s.attachments[a].lease.Held?
    requires s.attachments[a].session < |s.hosted| && a in s.hosted[s.attachments[a].session].attachments
    ensures IndexRight(At(s, c, Finishing).(attachmentsByClient := s.attachmentsByClient[c := a]), other)
  {
  }

  lemma StartingIndex(s: State, c: nat, i: nat, other: nat)
    requires IndexRight(s, other) && CanStartOperation(s, c, i)
    ensures IndexRight(Started(s, c, i), other)
  {
    hide IndexRight, AttachStarted, CallStarted, LeaveStarted;
    var begun := Begins(s, c, i);
    IndexOfSame(s, begun, other);
    match KindsOf(s, c)[i]
    case Attach(id) => AttachingIndex(begun, c, id, other);
    case ServiceCall(target, attachment) => CallingIndex(begun, c, target, attachment, other);
    case Detach => LeavingIndex(begun, c, other);
    case Disconnect => LeavingIndex(begun, c, other);
  }

  lemma AttachingIndex(s: State, c: nat, id: string, other: nat)
    requires IndexRight(s, other) && c in s.running
    ensures IndexRight(AttachStarted(s, c, id), other)
  {
    hide IndexRight;
    IndexOfSame(s, AttachStarted(s, c, id), other);
  }

  lemma CallingIndex(s: State, c: nat, target: string, attachment: nat, other: nat)
    requires IndexRight(s, other) && c in s.running
    ensures IndexRight(CallStarted(s, c, target, attachment), other)
  {
    CallFrame(s, c, target, attachment);
    hide CallStarted;
  }

  /** A call changes one attachment's operations at most. */
  lemma CallFrame(s: State, c: nat, target: string, attachment: nat)
    requires c in s.running
    ensures var t := CallStarted(s, c, target, attachment);
            && t.attachmentsByClient == s.attachmentsByClient && t.hosted == s.hosted
            && |t.attachments| == |s.attachments|
            && forall a | 0 <= a < |s.attachments| ::
                 t.attachments[a] == s.attachments[a].(operations := t.attachments[a].operations,
                                                       admitted := t.attachments[a].admitted)
  {
    if Turned(s, c) || c !in s.attachmentsByClient || s.attachmentsByClient[c] != attachment
       || !IsAttachedTo(s, attachment, target) {
    } else {
    }
  }

  lemma LeavingIndex(s: State, c: nat, other: nat)
    requires IndexRight(s, other) && c in s.running
    requires c in s.attachmentsByClient ==> s.attachmentsByClient[c] < |s.attachments|
    ensures IndexRight(LeaveStarted(s, c), other)
  {
    hide IndexRight;
    if c in s.attachmentsByClient {
      LettingGoIndex(s, c, s.attachmentsByClient[c], AwaitingRelease(s.attachmentsByClient[c]), other);
    } else {
      IndexOfSame(s, LeaveStarted(s, c), other);
    }
  }

  lemma ClientStepIndex(s: State, c: nat, step: ClientStep, other: nat)
    requires IndexRight(s, other) && PcRight(s, c) && ClientEnabled(s, c, step)
    requires forall a :: ReleaseRight(s, a)
    ensures IndexRight(ClientStepped(s, c, step), other)
  {
    hide IndexRight, ReleaseRight, Started, Registered, PcRight, LeaseBegun, ReleaseBegun;
    var t := ClientStepped(s, c, step);
    match step
    case StartOperation(i) => StartingIndex(s, c, i, other);
    case RegisterAttachment => RegisteringIndex(s, c, other);
    case ContinueAttach =>
      var pc := s.running[c].pc;
      if pc.hosted.None? || Turned(s, c) {
        IndexOfSame(s, t, other);
      } else if pc.current.Some? {
        LettingGoIndex(s, c, pc.current.value, Switching(pc.hosted.value, pc.current.value), other);
      } else {
        LeasingIndex(s, c, pc.hosted.value, other);
      }
    case SwitchSession =>
      if s.attachments[s.running[c].pc.leaving].release.success {
        LeasingIndex(s, c, s.running[c].pc.next, other);
      } else {
        IndexOfSame(s, t, other);
      }
    case AcquireSession => IndexOfSame(s, t, other);
    case EnqueueOperation(_) => IndexOfSame(s, t, other);
    case SettleOperation => IndexOfSame(s, t, other);
    case ForgetOperation(_) => IndexOfSame(s, t, other);
  }
}
