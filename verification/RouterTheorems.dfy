/** Openings and closing of the session router, and the theorems about whole runs. */
module RouterTheorems {
  import opened Common
  import opened PromiseChain
  import opened RouterState
  import opened RouterSafety
  import opened RouterReleases

  // ---------------------------------------------------------------------------------------------------------------
  // Openings

  /** Where nothing happens to the openings and the list only shrinks. */
  lemma OpeningsOfSame(s: State, t: State, o: nat, id: string)
    requires OpenRight(s, o) && ListsRight(s, id)
    requires t.opens == s.opens && t.openingSessions == s.openingSessions && Grows(s, t)
    requires forall listed | listed in t.hostedSessions ::
               listed in s.hostedSessions && t.hostedSessions[listed] == s.hostedSessions[listed]
    requires forall c: nat :: c in s.running && s.running[c].pc.AwaitingOpen? ==>
               c in t.running && t.running[c] == s.running[c]
    ensures OpenRight(t, o) && ListsRight(t, id)
  {
  }

  predicate SameLists(s: State, t: State) {
    && t.opens == s.opens && t.openingSessions == s.openingSessions && t.hostedSessions == s.hostedSessions
    && t.close == s.close && t.closing == s.closing
  }

  lemma ChangedLists(s: State, a: nat, at: Attachment)
    requires a < |s.attachments|
    ensures SameLists(s, WithAttachment(s, a, at))
  {
  }

  lemma ClearedLists(s: State, a: nat, success: bool)
    requires a < |s.attachments| && s.attachments[a].session < |s.hosted|
    ensures SameLists(s, Cleared(s, a, success))
  {
  }

  lemma AttachmentStepLists(s: State, a: nat, step: AttachmentStep)
    requires AttachmentEnabled(s, a, step)
    ensures SameLists(s, AttachmentStepped(s, a, step))
  {
    hide WithAttachment, Cleared, SameLists;
    var at := s.attachments[a];
    match step
    case LeaseSettles(granted) => ChangedLists(s, a, at.(lease := if granted then Held else Denied));
    case ServiceSettles(operation) => ChangedLists(s, a, at.(operations := at.operations - {operation}));
    case EndRelease(success) => ClearedLists(s, a, success);
    case AdvanceRelease =>
      match at.lease {
        case Held => ChangedLists(s, a, at.(release := ReleasingLease, leaseReleases := at.leaseReleases + 1));
        case Acquiring => ChangedLists(s, a, at.(release := AwaitingLease));
        case Denied => ClearedLists(s, a, false);
      }
  }

  lemma AttachmentStepOpenings(s: State, a: nat, step: AttachmentStep, o: nat, id: string)
    requires OpenRight(s, o) && ListsRight(s, id) && AttachmentEnabled(s, a, step)
    ensures OpenRight(AttachmentStepped(s, a, step), o) && ListsRight(AttachmentStepped(s, a, step), id)
  {
    hide AttachmentStepped, Grows, OpenRight, ListsRight;
    AttachmentsGrow(s, a, step);
    AttachmentStepLists(s, a, step);
    OpeningsOfSame(s, AttachmentStepped(s, a, step), o, id);
  }

  /** An opening that settles: only one is under way for an id, so listing its session conflicts with no other. */
  lemma OpenStepOpenings(s: State, settled: nat, step: OpenStep, o: nat, id: string)
    requires OpenRight(s, o) && OpenRight(s, settled) && ListsRight(s, id) && OpenEnabled(s, settled, step)
    ensures OpenRight(OpenStepped(s, settled, step), o) && ListsRight(OpenStepped(s, settled, step), id)
  {
    hide OpenRight, ListsRight;
    match step
    case ResolveSettles(found) => PhasedOpening(s, settled, if found then Opening else OpenSettled(None), o, id);
    case OpenSettles(works) =>
      if !works {
        PhasedOpening(s, settled, OpenSettled(None), o, id);
      } else if s.closing {
        PhasedOpening(s, settled, DrainingHandle, o, id);
      } else {
        HostedOpening(s, settled, o, id);
      }
    case DrainedHandleCloses => PhasedOpening(s, settled, OpenSettled(None), o, id);
  }

  lemma PhasedOpening(s: State, settled: nat, phase: OpenPhase, o: nat, id: string)
    requires OpenRight(s, o) && ListsRight(s, id)
    requires settled < |s.opens| && !s.opens[settled].phase.OpenSettled?
    requires phase.OpenSettled? ==> phase.hosted.None?
    ensures OpenRight(WithOpen(s, settled, phase), o) && ListsRight(WithOpen(s, settled, phase), id)
  {
  }

  lemma HostedOpening(s: State, settled: nat, o: nat, id: string)
    requires OpenRight(s, o) && OpenRight(s, settled) && ListsRight(s, id)
    requires OpenEnabled(s, settled, OpenSettles(true)) && !s.closing
    ensures OpenRight(Opened(s, settled, true), o) && ListsRight(Opened(s, settled, true), id)
  {
  }

  /** A step that takes sessions off the list at most. */
  ghost predicate ListShrinks(s: State, t: State) {
    && t.opens == s.opens && t.openingSessions == s.openingSessions && t.close == s.close
    && t.closing == s.closing && t.running == s.running
    && forall listed | listed in t.hostedSessions ::
         listed in s.hostedSessions && t.hostedSessions[listed] == s.hostedSessions[listed]
  }

  lemma SessionStepLists(s: State, step: SessionStep)
    requires SessionsEnabled(s, step)
    ensures ListShrinks(s, SessionsStepped(s, step))
  {
    hide ListShrinks, Invalidated, RemovalBegun, RemovalAdvanced;
    match step
    case SessionEnds(h) => EndedLists(s, h);
    case RemoveSession(id) => RemovedLists(s, id);
    case AdvanceRemoval(r) => AdvancedRemovalLists(s, r);
  }

  lemma AdvancedRemovalLists(s: State, r: nat)
    requires CanAdvanceRemoval(s, r)
    ensures ListShrinks(s, RemovalAdvanced(s, r))
  {
    if s.removals[r].phase.RemovalReleases? {} else {}
  }

  lemma EndedLists(s: State, h: nat)
    requires h < |s.hosted|
    ensures ListShrinks(s, Invalidated(s, h))
  {
  }

  lemma RemovedLists(s: State, id: string)
    requires id in s.hostedSessions ==> s.hostedSessions[id] < |s.hosted|
    ensures ListShrinks(s, RemovalBegun(s, id))
  {
  }

  lemma SessionStepOpenings(s: State, step: SessionStep, o: nat, id: string)
    requires OpenRight(s, o) && ListsRight(s, id) && SessionsEnabled(s, step)
    ensures OpenRight(SessionsStepped(s, step), o) && ListsRight(SessionsStepped(s, step), id)
  {
    hide SessionsStepped, Grows, OpenRight, ListsRight;
    SessionsGrow(s, step);
    SessionStepLists(s, step);
    OpeningsOfSame(s, SessionsStepped(s, step), o, id);
  }

  lemma CloseStepOpenings(s: State, step: CloseStep, o: nat, id: string)
    requires OpenRight(s, o) && ListsRight(s, id) && CloseEnabled(s, step)
    ensures OpenRight(CloseStepped(s, step), o) && ListsRight(CloseStepped(s, step), id)
  {
    hide Grows, OpenRight, ListsRight, OperationsOver, ReleasesBegun;
    ClosingGrows(s, step);
    var t := CloseStepped(s, step);
    match step
    case AwaitReleases =>
      BegunLists(s, Listed(s));
      OpeningsOfSame(s, t, o, id);
    case HandleCloses(_, _) => OpeningsOfSame(s, t, o, id);
    case ServerCloses => OpeningsOfSame(s, t, o, id);
    case CloseRouter => OpeningsOfSame(s, t, o, id);
    case AwaitHandles => OpeningsOfSame(s, t, o, id);
    case EndClose => OpeningsOfSame(s, t, o, id);
  }

  lemma BegunLists(s: State, which: set<nat>)
    ensures ReleasesBegun(s, which) == s.(attachments := ReleasesBegun(s, which).attachments)
  {
  }

  /** A client's operation that starts: a session is opened only if it is neither listed nor being opened. */
  lemma StartingOpenings(s: State, c: nat, i: nat, o: nat, id: string)
    requires OpenRight(s, o) && ListsRight(s, id) && ChainRight(s, c) && CanStartOperation(s, c, i)
    ensures OpenRight(Started(s, c, i), o) && ListsRight(Started(s, c, i), id)
  {
    StartIsAlone(s, c, i);
    hide ChainRight, OpenRight, ListsRight, Grows, AttachStarted, CallStarted, LeaveStarted;
    var begun := Begins(s, c, i);
    BeginningOpenings(s, begun, c, o, id);
    match KindsOf(s, c)[i]
    case Attach(wanted) => AttachingOpenings(begun, c, wanted, o, id);
    case ServiceCall(target, attachment) =>
      CallingGrows(begun, c, target, attachment);
      CallingLists(begun, c, target, attachment);
      MovedOpenings(begun, CallStarted(begun, c, target, attachment), c, o, id);
    case Detach =>
      LeavingGrows(begun, c);
      LeavingLists(begun, c);
      MovedOpenings(begun, LeaveStarted(begun, c), c, o, id);
    case Disconnect =>
      LeavingGrows(begun, c);
      LeavingLists(begun, c);
      MovedOpenings(begun, LeaveStarted(begun, c), c, o, id);
  }

  lemma BeginningOpenings(s: State, t: State, c: nat, o: nat, id: string)
    requires OpenRight(s, o) && ListsRight(s, id) && c !in s.running
    requires SameLists(s, t) && t.hosted == s.hosted && OthersRun(s, t, c)
    ensures OpenRight(t, o) && ListsRight(t, id)
  {
  }

  lemma CallingLists(s: State, c: nat, target: string, attachment: nat)
    requires c in s.running
    ensures SameLists(s, CallStarted(s, c, target, attachment))
  {
  }

  lemma LeavingLists(s: State, c: nat)
    requires c in s.running && (c in s.attachmentsByClient ==> s.attachmentsByClient[c] < |s.attachments|)
    ensures SameLists(s, LeaveStarted(s, c))
  {
  }

  /** An operation moves on that was not waiting for an opening. */
  lemma MovedOpenings(s: State, t: State, c: nat, o: nat, id: string)
    requires OpenRight(s, o) && ListsRight(s, id) && SameLists(s, t) && Grows(s, t) && QueuesBut(s, t, c)
    requires !s.running[c].pc.AwaitingOpen?
    ensures OpenRight(t, o) && ListsRight(t, id)
  {
  }

  lemma AttachingOpenings(s: State, c: nat, wanted: string, o: nat, id: string)
    requires OpenRight(s, o) && ListsRight(s, id) && c in s.running && s.running[c].pc.Finishing?
    ensures OpenRight(AttachStarted(s, c, wanted), o) && ListsRight(AttachStarted(s, c, wanted), id)
  {
    hide OpenRight, ListsRight, Grows;
    var t := AttachStarted(s, c, wanted);
    AttachingGrows(s, c, wanted);
    var current := if c in s.attachmentsByClient then Some(s.attachmentsByClient[c]) else None;
    if Turned(s, c) || (current.Some? && IsAttachedTo(s, current.value, wanted))
       || wanted in s.hostedSessions || wanted in s.openingSessions {
      AttachingLists(s, c, wanted);
      MovedOpenings(s, t, c, o, id);
    } else {
      NewOpening(s, c, wanted, o, id);
    }
  }

  lemma AttachingLists(s: State, c: nat, wanted: string)
    requires c in s.running
    requires var current := if c in s.attachmentsByClient then Some(s.attachmentsByClient[c]) else None;
             Turned(s, c) || (current.Some? && IsAttachedTo(s, current.value, wanted))
             || wanted in s.hostedSessions || wanted in s.openingSessions
    ensures SameLists(s, AttachStarted(s, c, wanted))
  {
  }

  lemma NewOpening(s: State, c: nat, wanted: string, o: nat, id: string)
    requires OpenRight(s, o) && ListsRight(s, id) && c in s.running && s.running[c].pc.Finishing?
    requires !Turned(s, c) && wanted !in s.hostedSessions && wanted !in s.openingSessions
    requires c in s.attachmentsByClient ==> !IsAttachedTo(s, s.attachmentsByClient[c], wanted)
    ensures OpenRight(AttachStarted(s, c, wanted), o) && ListsRight(AttachStarted(s, c, wanted), id)
  {
  }

  /** The client that opened removes the opening, and only once it is over. */
  lemma AcquiringOpenings(s: State, c: nat, o: nat, id: string)
    requires OpenRight(s, o) && ListsRight(s, id) && CanAcquire(s, c)
    ensures OpenRight(Acquired(s, c), o) && ListsRight(Acquired(s, c), id)
  {
  }

  lemma MiddleLists(s: State, c: nat, step: ClientStep)
    requires ClientEnabled(s, c, step)
    requires step.ContinueAttach? || step.SwitchSession? || step.RegisterAttachment?
    ensures SameLists(s, ClientStepped(s, c, step))
  {
    hide SameLists, Registered, Continued, Switched;
    match step
    case ContinueAttach => ContinuingLists(s, c);
    case SwitchSession => SwitchingLists(s, c);
    case RegisterAttachment => RegisteringLists(s, c);
  }

  lemma ContinuingLists(s: State, c: nat)
    requires CanContinue(s, c)
    ensures SameLists(s, Continued(s, c))
  {
    hide ReleaseBegun;
    var pc := s.running[c].pc;
    if pc.hosted.Some? && !Turned(s, c) && pc.current.Some? {
      LetGoLists(s, c, pc.current.value, Switching(pc.hosted.value, pc.current.value));
    }
  }

  lemma SwitchingLists(s: State, c: nat)
    requires CanSwitch(s, c)
    ensures SameLists(s, Switched(s, c))
  {
    if s.attachments[s.running[c].pc.leaving].release.success {} else {}
  }

  lemma LetGoLists(s: State, c: nat, a: nat, pc: Pc)
    requires c in s.running && a < |s.attachments|
    ensures SameLists(s, At(ReleaseBegun(s, a, true), c, pc))
  {
  }

  lemma RegisteringLists(s: State, c: nat)
    requires CanRegister(s, c)
    ensures SameLists(s, Registered(s, c))
  {
    hide ReleaseBegun;
    var a := s.running[c].pc.attachment;
    LetGoLists(s, c, a, AwaitingRelease(a));
    var h := s.hosted[s.attachments[a].session];
    if s.attachments[a].lease.Denied? {
    } else if h.id !in s.hostedSessions || s.hostedSessions[h.id] != s.attachments[a].session || a !in h.attachments
              || Turned(s, c) {
    } else {
    }
  }

  lemma ClientStepOpenings(s: State, c: nat, step: ClientStep, o: nat, id: string)
    requires OpenRight(s, o) && ListsRight(s, id) && ChainRight(s, c) && ClientEnabled(s, c, step)
    ensures OpenRight(ClientStepped(s, c, step), o) && ListsRight(ClientStepped(s, c, step), id)
  {
    hide OpenRight, ListsRight, ChainRight, Grows, Started, Registered, Continued, Switched, Acquired;
    var t := ClientStepped(s, c, step);
    if step.StartOperation? {
      StartingOpenings(s, c, step.index, o, id);
    } else if step.AcquireSession? {
      AcquiringOpenings(s, c, o, id);
    } else if InTheMiddle(step) {
      MiddleGrows(s, c, step);
      MiddleLists(s, c, step);
      MovedOpenings(s, t, c, o, id);
    } else {
      QueueStepOpenings(s, c, step, o, id);
    }
  }

  lemma QueueStepOpenings(s: State, c: nat, step: ClientStep, o: nat, id: string)
    requires OpenRight(s, o) && ListsRight(s, id) && ClientEnabled(s, c, step)
    requires step.EnqueueOperation? || step.SettleOperation? || step.ForgetOperation?
    ensures OpenRight(ClientStepped(s, c, step), o) && ListsRight(ClientStepped(s, c, step), id)
  {
    hide OpenRight, ListsRight, Grows;
    var t := ClientStepped(s, c, step);
    ClientsGrow(s, c, step);
    match step
    case EnqueueOperation(kind) => OpeningsOfSame(s, t, o, id);
    case SettleOperation => OpeningsOfSame(s, t, o, id);
    case ForgetOperation(_) => OpeningsOfSame(s, t, o, id);
  }

  // ---------------------------------------------------------------------------------------------------------------
  // Closing

  /** Once the server closes, no operation begins to attach. */
  predicate NoNewAttach(s: State, t: State, c: nat) {
    s.closing && c in t.running && Attaching(t.running[c].pc) ==>
      c in s.running && Attaching(s.running[c].pc) && t.running[c].index == s.running[c].index
  }

  lemma CloseKept(s: State, t: State, c: nat)
    requires CloseRight(s, c) && t.close == s.close && t.closing == s.closing && NoNewAttach(s, t, c)
    requires s.closing && s.attachmentsByClient == map[] ==> t.attachmentsByClient == map[]
    ensures CloseRight(t, c)
  {
  }

  lemma ClosedKept(s: State, t: State, id: string)
    requires ClosedRight(s, id) && t.close == s.close
    requires !s.close.NotClosed? && id in t.hostedSessions ==>
               id in s.hostedSessions && t.hostedSessions[id] == s.hostedSessions[id]
    ensures ClosedRight(t, id)
  {
  }

  lemma AttachmentStepClose(s: State, a: nat, step: AttachmentStep, c: nat, id: string)
    requires CloseRight(s, c) && ClosedRight(s, id) && AttachmentEnabled(s, a, step)
    ensures CloseRight(AttachmentStepped(s, a, step), c) && ClosedRight(AttachmentStepped(s, a, step), id)
  {
    hide AttachmentStepped, CloseRight, ClosedRight, Grows;
    var t := AttachmentStepped(s, a, step);
    AttachmentStepLists(s, a, step);
    AttachmentsGrow(s, a, step);
    AttachmentStepIndexed(s, a, step);
    CloseKept(s, t, c);
    ClosedKept(s, t, id);
  }

  lemma AttachmentStepIndexed(s: State, a: nat, step: AttachmentStep)
    requires AttachmentEnabled(s, a, step)
    ensures s.attachmentsByClient == map[] ==> AttachmentStepped(s, a, step).attachmentsByClient == map[]
  {
    if step.AdvanceRelease? {
      if s.attachments[a].lease.Denied? {} else {}
    }
  }

  lemma OpenStepClose(s: State, o: nat, step: OpenStep, c: nat, id: string)
    requires CloseRight(s, c) && ClosedRight(s, id) && OpenEnabled(s, o, step)
    ensures CloseRight(OpenStepped(s, o, step), c) && ClosedRight(OpenStepped(s, o, step), id)
  {
    hide CloseRight, ClosedRight, Grows;
    var t := OpenStepped(s, o, step);
    OpensGrow(s, o, step);
    OpenStepStays(s, o, step);
    CloseKept(s, t, c);
    NothingHostedWhileClosing(s, c);
    ClosedKept(s, t, id);
  }

  /** A session that opens is listed only while the server is not closing. */
  lemma OpenStepStays(s: State, o: nat, step: OpenStep)
    requires OpenEnabled(s, o, step)
    ensures var t := OpenStepped(s, o, step);
            && t.close == s.close && t.closing == s.closing && t.attachmentsByClient == s.attachmentsByClient
            && (s.closing ==> t.hostedSessions == s.hostedSessions)
  {
    hide WithOpen;
    match step
    case ResolveSettles(found) => PhaseFrame(s, o, if found then Opening else OpenSettled(None));
    case OpenSettles(works) =>
      PhaseFrame(s, o, OpenSettled(None));
      PhaseFrame(s, o, DrainingHandle);
      PhaseFrame(s, o, OpenSettled(Some(|s.hosted|)));
    case DrainedHandleCloses => PhaseFrame(s, o, OpenSettled(None));
  }

  lemma PhaseFrame(s: State, o: nat, phase: OpenPhase)
    requires o < |s.opens|
    ensures WithOpen(s, o, phase) == s.(opens := WithOpen(s, o, phase).opens)
  {
  }

  lemma NothingHostedWhileClosing(s: State, c: nat)
    requires CloseRight(s, c)
    ensures !s.close.NotClosed? ==> s.closing
  {
  }

  lemma SessionStepClose(s: State, step: SessionStep, c: nat, id: string)
    requires CloseRight(s, c) && ClosedRight(s, id) && SessionsEnabled(s, step)
    ensures CloseRight(SessionsStepped(s, step), c) && ClosedRight(SessionsStepped(s, step), id)
  {
    hide SessionsStepped, CloseRight, ClosedRight;
    var t := SessionsStepped(s, step);
    SessionStepLists(s, step);
    SessionStepIndexed(s, step);
    CloseKept(s, t, c);
    ClosedKept(s, t, id);
  }

  lemma SessionStepIndexed(s: State, step: SessionStep)
    requires SessionsEnabled(s, step)
    ensures SessionsStepped(s, step).attachmentsByClient == s.attachmentsByClient
  {
    hide ReleasesBegun;
    match step
    case SessionEnds(h) =>
      BegunLists(s.(hostedSessions := s.hostedSessions - {s.hosted[h].id}), s.hosted[h].attachments);
    case RemoveSession(id) =>
      if id in s.hostedSessions {
        BegunLists(s, s.hosted[s.hostedSessions[id]].attachments);
      }
    case AdvanceRemoval(r) =>
  }

  lemma StartingClose(s: State, c: nat, i: nat)
    requires CanStartOperation(s, c, i)
    ensures var t := Started(s, c, i);
            && t.close == s.close && t.closing == s.closing && NoNewAttach(s, t, c)
            && t.attachmentsByClient == s.attachmentsByClient
  {
    hide AttachStarted, CallStarted, LeaveStarted;
    var begun := Begins(s, c, i);
    match KindsOf(s, c)[i]
    case Attach(id) => AttachStays(begun, c, id);
    case ServiceCall(target, attachment) => CallStays(begun, c, target, attachment);
    case Detach => LeaveStays(begun, c);
    case Disconnect => LeaveStays(begun, c);
  }

  lemma AttachStays(s: State, c: nat, id: string)
    requires c in s.running
    ensures var t := AttachStarted(s, c, id);
            && t.close == s.close && t.closing == s.closing && t.attachmentsByClient == s.attachmentsByClient
            && (s.closing ==> c in t.running && t.running[c].pc.Finishing?)
  {
    if s.closing {
      assert Turned(s, c);
    } else {
      AttachFrame(s, c, id);
      hide AttachStarted;
    }
  }

  lemma AttachFrame(s: State, c: nat, id: string)
    requires c in s.running
    ensures var t := AttachStarted(s, c, id);
            t.close == s.close && t.closing == s.closing && t.attachmentsByClient == s.attachmentsByClient
  {
    if Turned(s, c) {} else if id in s.hostedSessions {} else if id in s.openingSessions {} else {}
  }

  lemma CallStays(s: State, c: nat, target: string, attachment: nat)
    requires c in s.running
    ensures var t := CallStarted(s, c, target, attachment);
            && t.close == s.close && t.closing == s.closing && t.attachmentsByClient == s.attachmentsByClient
            && c in t.running && t.running[c].pc.Finishing?
  {
  }

  lemma LeaveStays(s: State, c: nat)
    requires c in s.running && (c in s.attachmentsByClient ==> s.attachmentsByClient[c] < |s.attachments|)
    ensures var t := LeaveStarted(s, c);
            && t.close == s.close && t.closing == s.closing && t.attachmentsByClient == s.attachmentsByClient
            && c in t.running && !Attaching(t.running[c].pc)
  {
    hide ReleaseBegun;
    if c in s.attachmentsByClient {
      LetGoIndexed(s, c, s.attachmentsByClient[c], AwaitingRelease(s.attachmentsByClient[c]));
    }
  }

  /** In the middle of an operation that attaches: while the server closes it goes on to nothing that lasts. */
  lemma MiddleClose(s: State, c: nat, step: ClientStep)
    requires ClientEnabled(s, c, step) && InTheMiddle(step)
    ensures var t := ClientStepped(s, c, step);
            && t.close == s.close && t.closing == s.closing && NoNewAttach(s, t, c)
            && (s.closing ==> t.attachmentsByClient == s.attachmentsByClient)
  {
    hide Registered, Continued;
    MiddleGrows(s, c, step);
    match step
    case AcquireSession =>
    case ContinueAttach => ContinuingStays(s, c);
    case SwitchSession =>
    case RegisterAttachment =>
      RegisteringLists(s, c);
      RegisteringStays(s, c);
  }

  lemma ContinuingStays(s: State, c: nat)
    requires CanContinue(s, c)
    ensures var t := Continued(s, c);
            t.close == s.close && t.closing == s.closing && t.attachmentsByClient == s.attachmentsByClient
  {
    hide ReleaseBegun;
    var pc := s.running[c].pc;
    if pc.hosted.Some? && !Turned(s, c) && pc.current.Some? {
      LetGoIndexed(s, c, pc.current.value, Switching(pc.hosted.value, pc.current.value));
    }
  }

  lemma LetGoIndexed(s: State, c: nat, a: nat, pc: Pc)
    requires c in s.running && a < |s.attachments|
    ensures var t := At(ReleaseBegun(s, a, true), c, pc);
            && t.close == s.close && t.closing == s.closing && t.attachmentsByClient == s.attachmentsByClient
            && t.running == s.running[c := s.running[c].(pc := pc)]
  {
  }

  lemma RegisteringStays(s: State, c: nat)
    requires CanRegister(s, c)
    ensures var t := Registered(s, c);
            && (s.closing ==> t.attachmentsByClient == s.attachmentsByClient)
            && c in t.running && !Attaching(t.running[c].pc)
  {
    hide ReleaseBegun;
    var a := s.running[c].pc.attachment;
    LetGoIndexed(s, c, a, AwaitingRelease(a));
    if s.attachments[a].lease.Denied? {} else {}
  }

  lemma ClientStepClose(s: State, c: nat, step: ClientStep, other: nat, id: string)
    requires CloseRight(s, other) && ClosedRight(s, id) && ClientEnabled(s, c, step)
    ensures CloseRight(ClientStepped(s, c, step), other) && ClosedRight(ClientStepped(s, c, step), id)
  {
    hide CloseRight, ClosedRight, Grows, Started, Registered, Continued, Switched, Acquired;
    var t := ClientStepped(s, c, step);
    ClientsGrow(s, c, step);
    ClientStepLists(s, c, step);
    if step.StartOperation? {
      StartingClose(s, c, step.index);
    } else if InTheMiddle(step) {
      MiddleClose(s, c, step);
    }
    CloseKept(s, t, other);
    ClosedKept(s, t, id);
  }

  lemma ClientStepLists(s: State, c: nat, step: ClientStep)
    requires ClientEnabled(s, c, step)
    ensures ClientStepped(s, c, step).hostedSessions == s.hostedSessions
  {
    hide Started, Registered, Continued, Switched;
    if step.StartOperation? {
      StartedLists(s, c, step.index);
    } else if step.ContinueAttach? || step.SwitchSession? || step.RegisterAttachment? {
      MiddleLists(s, c, step);
    }
  }

  lemma StartedLists(s: State, c: nat, i: nat)
    requires CanStartOperation(s, c, i)
    ensures Started(s, c, i).hostedSessions == s.hostedSessions
  {
    hide CallStarted, LeaveStarted;
    var begun := Begins(s, c, i);
    match KindsOf(s, c)[i]
    case Attach(id) =>
    case ServiceCall(target, attachment) => CallingLists(begun, c, target, attachment);
    case Detach => LeavingLists(begun, c);
    case Disconnect => LeavingLists(begun, c);
  }

  /** The operations that the router waits for include every one that is attaching. */
  lemma ClosingBegins(s: State, c: nat)
    requires ChainRight(s, c) && s.closing && s.close.NotClosed?
    ensures CloseRight(CloseBegun(s), c)
  {
    if c in s.running {
      var chain := ChainOf(s, c);
      assert chain.tail.None? ==> SettledUpTo(chain, |chain.operations|);
      assert chain.operations[s.running[c].index].phase.Running?;
    }
    hide Ordered;
  }

  /** When they are over, nothing is attaching. */
  lemma OperationsAreOver(s: State, c: nat)
    requires ChainRight(s, c) && CloseRight(s, c) && OperationsOver(s)
    ensures c in s.running ==> !Attaching(s.running[c].pc)
  {
    if c in s.running && c in s.close.tails {
      assert SettledUpTo(ChainOf(s, c), s.close.tails[c]);
    }
  }

  lemma CloseStepClose(s: State, step: CloseStep, c: nat, id: string)
    requires ChainRight(s, c) && CloseRight(s, c) && ClosedRight(s, id) && ListsRight(s, id) && CloseEnabled(s, step)
    ensures CloseRight(CloseStepped(s, step), c) && ClosedRight(CloseStepped(s, step), id)
  {
    hide ChainRight, OperationsOver, ReleasesBegun;
    match step
    case CloseRouter => ClosingBegins(s, c);
    case AwaitReleases => AwaitingTheReleases(s, c, id);
    case HandleCloses(h, closes) => ClosingHandle(s, h, closes, c, id);
    case AwaitHandles => ListingHandles(s, c, id);
    case ServerCloses =>
    case EndClose =>
  }

  lemma AwaitingTheReleases(s: State, c: nat, id: string)
    requires ChainRight(s, c) && CloseRight(s, c) && OperationsOver(s)
    ensures CloseRight(ReleasesAwaited(s), c) && ClosedRight(ReleasesAwaited(s), id)
  {
    OperationsAreOver(s, c);
    BegunLists(s, Listed(s));
    hide ChainRight, ReleasesBegun;
  }

  lemma ListingHandles(s: State, c: nat, id: string)
    requires CloseRight(s, c) && s.close.AwaitingReleases?
    ensures CloseRight(HandlesAwaited(s), c) && ClosedRight(HandlesAwaited(s), id)
  {
  }

  /** A session whose handle has been closed is no longer listed. */
  lemma ClosingHandle(s: State, h: nat, closes: bool, c: nat, id: string)
    requires CloseRight(s, c) && ClosedRight(s, id) && ListsRight(s, id) && CloseEnabled(s, HandleCloses(h, closes))
    ensures CloseRight(HandleClosed(s, h, closes), c) && ClosedRight(HandleClosed(s, h, closes), id)
  {
    if closes {} else {}
  }

  // ---------------------------------------------------------------------------------------------------------------
  // Whole runs

  lemma OpeningsStep(s: State, a: Action, o: nat, id: string)
    requires Inv(s) && Enabled(s, a)
    ensures OpenRight(Step(s, a), o) && ListsRight(Step(s, a), id)
  {
    assert OpenRight(s, o) && ListsRight(s, id);
    hide OpenRight, ListsRight, ReleaseRight, IndexRight, PcRight, CloseRight, ClosedRight, ChainRight,
         ClientStepped, AttachmentStepped, OpenStepped, SessionsStepped, CloseStepped;
    match a
    case OfClient(c, step) => ClientStepOpenings(s, c, step, o, id);
    case OfAttachment(at, step) => AttachmentStepOpenings(s, at, step, o, id);
    case OfOpening(settled, step) => OpenStepOpenings(s, settled, step, o, id);
    case OfSessions(step) => SessionStepOpenings(s, step, o, id);
    case OfClosing(step) => CloseStepOpenings(s, step, o, id);
  }

  lemma CloseRightStep(s: State, a: Action, c: nat, id: string)
    requires Inv(s) && Enabled(s, a)
    ensures CloseRight(Step(s, a), c) && ClosedRight(Step(s, a), id)
  {
    assert CloseRight(s, c) && ClosedRight(s, id) && ListsRight(s, id) && ChainRight(s, c);
    hide Inv, OpenRight, ListsRight, CloseRight, ClosedRight, ChainRight,
         ClientStepped, AttachmentStepped, OpenStepped, SessionsStepped, CloseStepped;
    match a
    case OfClient(other, step) => ClientStepClose(s, other, step, c, id);
    case OfAttachment(at, step) => AttachmentStepClose(s, at, step, c, id);
    case OfOpening(o, step) => OpenStepClose(s, o, step, c, id);
    case OfSessions(step) => SessionStepClose(s, step, c, id);
    case OfClosing(step) => CloseStepClose(s, step, c, id);
  }

  lemma ReleaseStep(s: State, action: Action, a: nat)
    requires Inv(s) && Enabled(s, action)
    ensures ReleaseRight(Step(s, action), a)
  {
    assert ReleaseRight(s, a);
    hide OpenRight, ListsRight, CloseRight, ClosedRight, ChainRight, ReleaseRight, IndexRight, PcRight,
         ClientStepped, AttachmentStepped, OpenStepped, SessionsStepped, CloseStepped;
    match action
    case OfClient(c, step) => ClientStepReleases(s, c, step, a);
    case OfAttachment(at, step) => AttachmentStepReleases(s, at, step, a);
    case OfOpening(o, step) => OpenStepReleases(s, o, step, a);
    case OfSessions(step) => SessionStepReleases(s, step, a);
    case OfClosing(step) => CloseStepReleases(s, step, a);
  }

  lemma IndexStep(s: State, action: Action, c: nat)
    requires Inv(s) && Enabled(s, action)
    ensures IndexRight(Step(s, action), c)
  {
    assert IndexRight(s, c);
    hide OpenRight, ListsRight, CloseRight, ClosedRight, ChainRight, ReleaseRight, IndexRight, PcRight,
         ClientStepped, AttachmentStepped, OpenStepped, SessionsStepped, CloseStepped;
    match action
    case OfClient(other, step) => ClientStepIndex(s, other, step, c);
    case OfAttachment(at, step) => AttachmentStepIndex(s, at, step, c);
    case OfOpening(o, step) => OpenStepIndex(s, o, step, c);
    case OfSessions(step) => SessionStepIndex(s, step, c);
    case OfClosing(step) => CloseStepIndex(s, step, c);
  }

  lemma QueueStep(s: State, action: Action, c: nat)
    requires Inv(s) && Enabled(s, action)
    ensures ChainRight(Step(s, action), c) && PcRight(Step(s, action), c)
  {
    assert ChainRight(s, c) && PcRight(s, c);
    hide OpenRight, ListsRight, CloseRight, ClosedRight, ChainRight, ReleaseRight, IndexRight, PcRight, Grows,
         ClientStepped, AttachmentStepped, OpenStepped, SessionsStepped, CloseStepped;
    var t := Step(s, action);
    match action
    case OfClient(other, step) =>
      assert ChainRight(s, other) && PcRight(s, other) && IndexRight(s, other);
      ClientChains(s, other, step, c);
      if c == other {
        PcOwn(s, c, step);
      } else {
        ClientsGrow(s, other, step);
        PcSame(s, t, c);
      }
    case OfAttachment(at, step) =>
      AttachmentsGrow(s, at, step);
      QueueSame(s, t, c);
    case OfOpening(o, step) =>
      OpensGrow(s, o, step);
      QueueSame(s, t, c);
    case OfSessions(step) =>
      SessionsGrow(s, step);
      QueueSame(s, t, c);
    case OfClosing(step) =>
      ClosingGrows(s, step);
      QueueSame(s, t, c);
  }

  lemma QueueSame(s: State, t: State, c: nat)
    requires ChainRight(s, c) && PcRight(s, c) && Grows(s, t) && SameOperations(s, t)
    ensures ChainRight(t, c) && PcRight(t, c)
  {
    hide ChainRight, PcRight, Grows;
    ChainSame(s, t, c);
    PcSame(s, t, c);
  }

  lemma InvStep(s: State, a: Action)
    requires Inv(s) && Enabled(s, a)
    ensures Inv(Step(s, a))
  {
    hide OpenRight, ListsRight, CloseRight, ClosedRight, ChainRight, ReleaseRight, IndexRight, PcRight, Step;
    var t := Step(s, a);
    forall c: nat
      ensures ChainRight(t, c) && PcRight(t, c) && IndexRight(t, c) && CloseRight(t, c)
    {
      QueueStep(s, a, c);
      IndexStep(s, a, c);
      CloseRightStep(s, a, c, "");
    }
    forall at: nat
      ensures ReleaseRight(t, at)
    {
      ReleaseStep(s, a, at);
    }
    forall o: nat
      ensures OpenRight(t, o)
    {
      OpeningsStep(s, a, o, "");
    }
    forall id: string
      ensures ListsRight(t, id) && ClosedRight(t, id)
    {
      OpeningsStep(s, a, 0, id);
      CloseRightStep(s, a, 0, id);
    }
  }

  lemma {:induction false} InvRun(actions: seq<Action>)
    ensures Inv(Run(actions))
    decreases |actions|
  {
    if actions != [] {
      var before, last := Run(actions[..|actions| - 1]), actions[|actions| - 1];
      InvRun(actions[..|actions| - 1]);
      if Enabled(before, last) {
        InvStep(before, last);
      }
    }
  }

  /** Index safety, at every suspension point of every run: a registered attachment belongs to its client, holds a lease
      and is among the attachments of its session. */
  lemma {:induction false} RegisteredAttachmentsAreSound(actions: seq<Action>, c: nat)
    ensures var s := Run(actions);
            c in s.attachmentsByClient ==>
              var a := s.attachmentsByClient[c];
              && a < |s.attachments| && s.attachments[a].client == c && s.attachments[a].lease.Held?
              && s.attachments[a].session < |s.hosted| && a in s.hosted[s.attachments[a].session].attachments
  {
    InvRun(actions);
    assert IndexRight(Run(actions), c);
    hide Run;
  }

  /** The operations of one client never overlap, and none starts before every earlier one is over. */
  lemma {:induction false} OneOperationAtATime(actions: seq<Action>, c: nat, i: nat, j: nat)
    requires i < j < |ChainOf(Run(actions), c).operations|
    requires !ChainOf(Run(actions), c).operations[j].phase.Waiting?
    ensures ChainOf(Run(actions), c).operations[i].phase.Settled?
  {
    InvRun(actions);
    hide Run;
    var chain := ChainOf(Run(actions), c);
    assert ChainRight(Run(actions), c);
    assert SettledUpTo(chain, j);
  }

  /** At most one session of an id is being opened, and none while a session of that id is hosted. */
  lemma {:induction false} OneOpenAtATime(actions: seq<Action>, o: nat, p: nat)
    ensures var s := Run(actions);
            o < |s.opens| && !s.opens[o].phase.OpenSettled? ==>
              && s.opens[o].id !in s.hostedSessions
              && (p < |s.opens| && !s.opens[p].phase.OpenSettled? && s.opens[p].id == s.opens[o].id ==> p == o)
  {
    InvRun(actions);
    hide Run;
    assert OpenRight(Run(actions), o) && OpenRight(Run(actions), p);
  }

  /** A lease is released at most once. A release that an operation of the client's own queue began releases it only
      after every operation ever admitted to the attachment is over. */
  lemma {:induction false} LeasesAreReleasedOnce(actions: seq<Action>, a: nat)
    ensures var s := Run(actions);
            a < |s.attachments| ==>
              && s.attachments[a].leaseReleases <= 1
              && (s.attachments[a].inQueue && s.attachments[a].release.ReleasingLease? ==>
                    s.attachments[a].operations == {})
  {
    InvRun(actions);
    hide Run;
    assert ReleaseRight(Run(actions), a);
  }

  /** Once `close` has resolved, nothing is hosted, being opened or attached. */
  lemma {:induction false} ClosedIsEmpty(actions: seq<Action>)
    requires Run(actions).close == CloseSettled(true)
    ensures var s := Run(actions);
            s.hostedSessions == map[] && s.openingSessions == map[] && s.attachmentsByClient == map[]
  {
    InvRun(actions);
    ClosedHasNothing(Run(actions));
  }

  lemma ClosedHasNothing(s: State)
    requires Inv(s)
    ensures s.close.CloseSettled? ==> s.attachmentsByClient == map[]
    ensures s.close == CloseSettled(true) ==> s.hostedSessions == map[] && s.openingSessions == map[]
  {
    if s.close == CloseSettled(true) {
      forall id: string
        ensures id !in s.hostedSessions && id !in s.openingSessions
      {
        assert ClosedRight(s, id) && ListsRight(s, id);
        var o := if id in s.openingSessions then s.openingSessions[id] else 0;
        if o < |s.opens| {
          assert CloseRight(s, s.opens[o].opener);
        }
      }
    }
    assert CloseRight(s, 0);
  }

  /** And nothing that happens later changes that. */
  lemma ClosedStays(s: State, a: Action)
    requires s.close.CloseSettled? && Enabled(s, a)
    ensures Step(s, a).close == s.close
  {
    hide ClientStepped, AttachmentStepped, OpenStepped, SessionsStepped, CloseStepped;
    match a
    case OfClient(c, step) => ClientStays(s, c, step);
    case OfAttachment(at, step) => AttachmentStepLists(s, at, step);
    case OfOpening(o, step) => OpenStepStays(s, o, step);
    case OfSessions(step) => SessionStepLists(s, step);
    case OfClosing(step) => CloseStays(s, step);
  }

  lemma CloseStays(s: State, step: CloseStep)
    requires s.close.CloseSettled? && CloseEnabled(s, step)
    ensures CloseStepped(s, step).close == s.close
  {
  }

  lemma ClientStays(s: State, c: nat, step: ClientStep)
    requires ClientEnabled(s, c, step)
    ensures ClientStepped(s, c, step).close == s.close
  {
    hide ClientStepped;
    if step.StartOperation? {
      StartingClose(s, c, step.index);
      StartStepped(s, c, step.index);
    } else if InTheMiddle(step) {
      MiddleClose(s, c, step);
    } else {
      QueueingStays(s, c, step);
    }
  }

  lemma StartStepped(s: State, c: nat, i: nat)
    requires CanStartOperation(s, c, i)
    ensures ClientStepped(s, c, StartOperation(i)) == Started(s, c, i)
  {
  }

  lemma QueueingStays(s: State, c: nat, step: ClientStep)
    requires ClientEnabled(s, c, step) && (step.EnqueueOperation? || step.SettleOperation? || step.ForgetOperation?)
    ensures ClientStepped(s, c, step).close == s.close
  {
  }

  lemma {:induction false} ClosedStaysEmpty(actions: seq<Action>, more: seq<Action>)
    requires Run(actions).close == CloseSettled(true)
    ensures var s := Run(actions + more);
            && s.close == CloseSettled(true)
            && s.hostedSessions == map[] && s.openingSessions == map[] && s.attachmentsByClient == map[]
    decreases |more|
  {
    if more == [] {
      assert actions + more == actions;
    } else {
      var front, last := more[..|more| - 1], more[|more| - 1];
      assert (actions + more)[..|actions + more| - 1] == actions + front;
      ClosedStaysEmpty(actions, front);
      if Enabled(Run(actions + front), last) {
        ClosedStays(Run(actions + front), last);
      }
    }
    ClosedIsEmpty(actions + more);
  }
}
