/** Releases in the session router: each lease is released at most once, and a release begun in the client's own queue
    waits for every operation that was ever admitted to the attachment. */
module RouterReleases {
  import opened Common
  import opened PromiseChain
  import opened RouterState
  import opened RouterSafety

  /** Steps that leave attachments, sessions and operations alone. */
  lemma ReleaseOfSame(s: State, t: State, a: nat)
    requires ReleaseRight(s, a)
    requires t.attachments == s.attachments && t.hosted == s.hosted && t.running == s.running
    ensures ReleaseRight(t, a)
  {
  }

  /** An attachment of another client, or of a client none of whose operations waits for a release. */
  predicate NotWaiting(s: State, c: nat) {
    c in s.running ==> !s.running[c].pc.AwaitingRelease? && !s.running[c].pc.Switching?
  }

  lemma ReleaseOfOther(s: State, t: State, c: nat, a: nat)
    requires ReleaseRight(s, a) && NotWaiting(s, c)
    requires t.attachments == s.attachments && t.hosted == s.hosted && OthersRun(s, t, c)
    ensures ReleaseRight(t, a)
  {
  }

  // ---------------------------------------------------------------------------------------------------------------
  // Steps of the release itself

  lemma ChangedRelease(s: State, changed: nat, at: Attachment, a: nat)
    requires ReleaseRight(s, a) && changed < |s.attachments| && a != changed
    ensures ReleaseRight(WithAttachment(s, changed, at), a)
  {
  }

  lemma ClearedRelease(s: State, cleared: nat, success: bool, a: nat)
    requires ReleaseRight(s, a) && cleared < |s.attachments| && s.attachments[cleared].session < |s.hosted|
    ensures ReleaseRight(Cleared(s, cleared, success), a)
  {
  }

  /** The operations that a release in the queue has found are all there are. */
  lemma AdvancedRelease(s: State, a: nat)
    requires ReleaseRight(s, a) && CanAdvanceRelease(s, a) && !s.attachments[a].lease.Denied?
    ensures ReleaseRight(ReleaseAdvanced(s, a), a)
  {
    var at := s.attachments[a];
    if at.inQueue && at.release.Draining? {
      assert at.operations == {} by {
        assert at.operations == at.release.awaited * at.operations;
      }
    }
    if at.lease.Held? {} else {}
  }

  lemma SettledLease(s: State, a: nat, granted: bool)
    requires ReleaseRight(s, a) && AttachmentEnabled(s, a, LeaseSettles(granted))
    ensures ReleaseRight(AttachmentStepped(s, a, LeaseSettles(granted)), a)
  {
  }

  lemma SettledService(s: State, a: nat, operation: nat)
    requires ReleaseRight(s, a) && AttachmentEnabled(s, a, ServiceSettles(operation))
    ensures ReleaseRight(AttachmentStepped(s, a, ServiceSettles(operation)), a)
  {
  }

  lemma AttachmentStepReleases(s: State, changed: nat, step: AttachmentStep, a: nat)
    requires ReleaseRight(s, a) && AttachmentEnabled(s, changed, step)
    ensures ReleaseRight(AttachmentStepped(s, changed, step), a)
  {
    hide ReleaseRight, WithAttachment, Cleared;
    var at := s.attachments[changed];
    match step
    case LeaseSettles(granted) =>
      if a == changed {
        SettledLease(s, a, granted);
      } else {
        ChangedRelease(s, changed, at.(lease := if granted then Held else Denied), a);
      }
    case ServiceSettles(operation) =>
      if a == changed {
        SettledService(s, a, operation);
      } else {
        ChangedRelease(s, changed, at.(operations := at.operations - {operation}), a);
      }
    case AdvanceRelease =>
      match at.lease {
        case Denied => ClearedRelease(s, changed, false, a);
        case Held =>
          if a == changed {
            AdvancedRelease(s, a);
          } else {
            ChangedRelease(s, changed, at.(release := ReleasingLease, leaseReleases := at.leaseReleases + 1), a);
          }
        case Acquiring =>
          if a == changed {
            AdvancedRelease(s, a);
          } else {
            ChangedRelease(s, changed, at.(release := AwaitingLease), a);
          }
      }
    case EndRelease(success) => ClearedRelease(s, changed, success, a);
  }

  // ---------------------------------------------------------------------------------------------------------------
  // Steps around it

  lemma OpenStepReleases(s: State, o: nat, step: OpenStep, a: nat)
    requires ReleaseRight(s, a) && OpenEnabled(s, o, step)
    ensures ReleaseRight(OpenStepped(s, o, step), a)
  {
    hide ReleaseRight;
    match step
    case ResolveSettles(found) => ReleaseOfSame(s, OpenStepped(s, o, step), a);
    case OpenSettles(works) =>
      if works && !s.closing {
        OpenedRelease(s, o, a);
      } else {
        ReleaseOfSame(s, OpenStepped(s, o, step), a);
      }
    case DrainedHandleCloses => ReleaseOfSame(s, OpenStepped(s, o, step), a);
  }

  lemma OpenedRelease(s: State, o: nat, a: nat)
    requires ReleaseRight(s, a) && OpenEnabled(s, o, OpenSettles(true)) && !s.closing
    ensures ReleaseRight(Opened(s, o, true), a)
  {
  }

  lemma BegunRelease(s: State, which: set<nat>, a: nat)
    requires ReleaseRight(s, a)
    ensures ReleaseRight(ReleasesBegun(s, which), a)
  {
    BegunAt(s, which, a);
    hide ReleasesBegun;
    var t := ReleasesBegun(s, which);
    if a < |s.attachments| && a in which && s.attachments[a].release.NotReleasing? {
      FromOutside(s, t, a);
    } else {
      ReleaseSame(s, t, a);
    }
  }

  lemma BegunAt(s: State, which: set<nat>, a: nat)
    ensures var t := ReleasesBegun(s, which);
            && t.hosted == s.hosted && t.running == s.running
            && (a < |s.attachments| ==>
                  t.attachments[a] == if a in which then Begun(s.attachments[a], false) else s.attachments[a])
  {
  }

  lemma FromOutside(s: State, t: State, a: nat)
    requires ReleaseRight(s, a) && a < |s.attachments| == |t.attachments|
    requires s.attachments[a].release.NotReleasing? && t.attachments[a] == Begun(s.attachments[a], false)
    requires t.hosted == s.hosted && t.running == s.running
    ensures ReleaseRight(t, a)
  {
  }

  lemma ReleaseSame(s: State, t: State, a: nat)
    requires ReleaseRight(s, a) && |s.attachments| == |t.attachments|
    requires a < |s.attachments| ==> t.attachments[a] == s.attachments[a]
    requires t.hosted == s.hosted && t.running == s.running
    ensures ReleaseRight(t, a)
  {
  }

  lemma SessionStepReleases(s: State, step: SessionStep, a: nat)
    requires ReleaseRight(s, a) && SessionsEnabled(s, step)
    ensures ReleaseRight(SessionsStepped(s, step), a)
  {
    hide ReleaseRight, Invalidated, RemovalBegun;
    match step
    case SessionEnds(h) => EndedRelease(s, h, a);
    case RemoveSession(id) => RemovedRelease(s, id, a);
    case AdvanceRemoval(r) => ReleaseOfSame(s, SessionsStepped(s, step), a);
  }

  lemma EndedRelease(s: State, h: nat, a: nat)
    requires ReleaseRight(s, a) && h < |s.hosted|
    ensures ReleaseRight(Invalidated(s, h), a)
  {
    hide ReleaseRight;
    if s.hosted[h].id in s.hostedSessions && s.hostedSessions[s.hosted[h].id] == h {
      var unlisted := s.(hostedSessions := s.hostedSessions - {s.hosted[h].id});
      ReleaseOfSame(s, unlisted, a);
      BegunRelease(unlisted, s.hosted[h].attachments, a);
    }
  }

  lemma RemovedRelease(s: State, id: string, a: nat)
    requires ReleaseRight(s, a) && (id in s.hostedSessions ==> s.hostedSessions[id] < |s.hosted|)
    ensures ReleaseRight(RemovalBegun(s, id), a)
  {
    hide ReleaseRight, ReleasesBegun;
    if !s.closing && id in s.hostedSessions {
      var which := s.hosted[s.hostedSessions[id]].attachments;
      BegunRelease(s, which, a);
      ReleaseOfSame(ReleasesBegun(s, which), RemovalBegun(s, id), a);
    }
  }

  lemma CloseStepReleases(s: State, step: CloseStep, a: nat)
    requires ReleaseRight(s, a) && CloseEnabled(s, step)
    ensures ReleaseRight(CloseStepped(s, step), a)
  {
    hide ReleaseRight, ReleasesBegun, OperationsOver;
    var t := CloseStepped(s, step);
    match step
    case AwaitReleases =>
      BegunRelease(s, Listed(s), a);
      ReleaseOfSame(ReleasesBegun(s, Listed(s)), t, a);
    case HandleCloses(_, _) => ReleaseOfSame(s, t, a);
    case ServerCloses => ReleaseOfSame(s, t, a);
    case CloseRouter => ReleaseOfSame(s, t, a);
    case AwaitHandles => ReleaseOfSame(s, t, a);
    case EndClose => ReleaseOfSame(s, t, a);
  }

  // ---------------------------------------------------------------------------------------------------------------
  // Steps of the clients

  /** A release begun in a client's own queue, by the operation that then waits for it. */
  lemma LettingGoRelease(s: State, c: nat, left: nat, pc: Pc, a: nat)
    requires ReleaseRight(s, a) && c in s.running && NotWaiting(s, c) && OwnAttachment(s, c, left)
    requires pc == AwaitingRelease(left) || (pc.Switching? && pc.leaving == left)
    ensures ReleaseRight(At(ReleaseBegun(s, left, true), c, pc), a)
  {
  }

  lemma LeasingRelease(s: State, c: nat, h: nat, a: nat)
    requires ReleaseRight(s, a) && c in s.running && h < |s.hosted|
    requires NotWaiting(s, c)
             || (s.running[c].pc.Switching? && s.running[c].pc.leaving < |s.attachments|
                 && s.attachments[s.running[c].pc.leaving].release.Released?)
    ensures ReleaseRight(LeaseBegun(s, c, h), a)
  {
  }

  lemma SwitchingRelease(s: State, c: nat, a: nat)
    requires ReleaseRight(s, a) && CanSwitch(s, c)
    ensures ReleaseRight(Switched(s, c), a)
  {
    hide ReleaseRight, LeaseBegun;
    if s.attachments[s.running[c].pc.leaving].release.success {
      LeasingRelease(s, c, s.running[c].pc.next, a);
    } else {
      ReleaseAwaited(s, At(s, c, Finishing), c, s.running[c].pc.leaving, a);
    }
  }

  /** The release that an operation waited for is over: it may go on. */
  lemma ReleaseAwaited(s: State, t: State, c: nat, awaited: nat, a: nat)
    requires ReleaseRight(s, a) && awaited < |s.attachments| && s.attachments[awaited].release.Released?
    requires c in s.running && (s.running[c].pc == AwaitingRelease(awaited)
                                || (s.running[c].pc.Switching? && s.running[c].pc.leaving == awaited))
    requires t.attachments == s.attachments && t.hosted == s.hosted && OthersRun(s, t, c)
    ensures ReleaseRight(t, a)
  {
  }

  lemma RegisteringRelease(s: State, c: nat, a: nat)
    requires ReleaseRight(s, a) && CanRegister(s, c) && PcRight(s, c)
    ensures ReleaseRight(Registered(s, c), a)
  {
    hide ReleaseRight;
    var b := s.running[c].pc.attachment;
    var h := s.hosted[s.attachments[b].session];
    if s.attachments[b].lease.Denied? {
      DenyingRelease(s, c, a);
    } else if h.id !in s.hostedSessions || s.hostedSessions[h.id] != s.attachments[b].session || b !in h.attachments
              || Turned(s, c) {
      LettingGoRelease(s, c, b, AwaitingRelease(b), a);
    } else {
      ReleaseOfOther(s, At(s, c, Finishing).(attachmentsByClient := s.attachmentsByClient[c := b]), c, a);
    }
  }

  lemma DenyingRelease(s: State, c: nat, a: nat)
    requires ReleaseRight(s, a) && CanRegister(s, c) && s.attachments[s.running[c].pc.attachment].lease.Denied?
    ensures ReleaseRight(Registered(s, c), a)
  {
  }

  /** An operation is admitted only while no release is under way in the queue. */
  lemma CallingRelease(s: State, c: nat, target: string, attachment: nat, a: nat)
    requires ReleaseRight(s, a) && c in s.running && NotWaiting(s, c) && IndexRight(s, c)
    ensures ReleaseRight(CallStarted(s, c, target, attachment), a)
  {
    hide ReleaseRight, IndexRight;
    if Turned(s, c) || c !in s.attachmentsByClient || s.attachmentsByClient[c] != attachment
       || !IsAttachedTo(s, attachment, target) {
      ReleaseOfOther(s, CallStarted(s, c, target, attachment), c, a);
    } else {
      AdmittingRelease(s, c, attachment, a);
    }
  }

  lemma AdmittingRelease(s: State, c: nat, attachment: nat, a: nat)
    requires ReleaseRight(s, a) && c in s.running && NotWaiting(s, c) && IndexRight(s, c)
    requires c in s.attachmentsByClient && s.attachmentsByClient[c] == attachment
    ensures attachment < |s.attachments|
    ensures var at := s.attachments[attachment];
            ReleaseRight(WithAttachment(At(s, c, Finishing), attachment,
                                        at.(operations := at.operations + {s.calls},
                                            admitted := at.admitted + {s.calls})).(calls := s.calls + 1), a)
  {
  }

  lemma LeavingRelease(s: State, c: nat, a: nat)
    requires ReleaseRight(s, a) && c in s.running && NotWaiting(s, c) && IndexRight(s, c)
    ensures ReleaseRight(LeaveStarted(s, c), a)
  {
    hide ReleaseRight;
    if c in s.attachmentsByClient {
      LettingGoRelease(s, c, s.attachmentsByClient[c], AwaitingRelease(s.attachmentsByClient[c]), a);
    } else {
      ReleaseOfOther(s, LeaveStarted(s, c), c, a);
    }
  }

  lemma StartingRelease(s: State, c: nat, i: nat, a: nat)
    requires ReleaseRight(s, a) && ChainRight(s, c) && IndexRight(s, c) && CanStartOperation(s, c, i)
    ensures ReleaseRight(Started(s, c, i), a)
  {
    StartIsAlone(s, c, i);
    hide ReleaseRight, ChainRight, AttachStarted, CallStarted, LeaveStarted, IndexRight;
    var begun := Begins(s, c, i);
    ReleaseOfOther(s, begun, c, a);
    IndexOfSame(s, begun, c);
    match KindsOf(s, c)[i]
    case Attach(id) => AttachingRelease(begun, c, id, a);
    case ServiceCall(target, attachment) => CallingRelease(begun, c, target, attachment, a);
    case Detach => LeavingRelease(begun, c, a);
    case Disconnect => LeavingRelease(begun, c, a);
  }

  lemma AttachingRelease(s: State, c: nat, id: string, a: nat)
    requires ReleaseRight(s, a) && c in s.running && NotWaiting(s, c)
    ensures ReleaseRight(AttachStarted(s, c, id), a)
  {
    AttachingObjects(s, c, id);
    hide ReleaseRight, AttachStarted, Grows;
    AttachingGrows(s, c, id);
    ReleaseOfOther(s, AttachStarted(s, c, id), c, a);
  }

  lemma AttachingObjects(s: State, c: nat, id: string)
    requires c in s.running
    ensures var t := AttachStarted(s, c, id); t.attachments == s.attachments && t.hosted == s.hosted
  {
  }

  lemma ContinuingRelease(s: State, c: nat, a: nat)
    requires ReleaseRight(s, a) && CanContinue(s, c) && PcRight(s, c)
    ensures ReleaseRight(Continued(s, c), a)
  {
    hide ReleaseRight, LeaseBegun;
    var pc := s.running[c].pc;
    if pc.hosted.None? || Turned(s, c) {
      ReleaseOfOther(s, At(s, c, Finishing), c, a);
    } else if pc.current.Some? {
      LettingGoRelease(s, c, pc.current.value, Switching(pc.hosted.value, pc.current.value), a);
    } else {
      LeasingRelease(s, c, pc.hosted.value, a);
    }
  }

  lemma SettlingRelease(s: State, c: nat, a: nat)
    requires ReleaseRight(s, a) && CanSettleOperation(s, c)
    ensures ReleaseRight(OperationEnded(s, c), a)
  {
    hide ReleaseRight;
    if s.running[c].pc.Finishing? {
      ReleaseOfOther(s, OperationEnded(s, c), c, a);
    } else {
      ReleaseAwaited(s, OperationEnded(s, c), c, s.running[c].pc.released, a);
    }
  }

  lemma ClientStepReleases(s: State, c: nat, step: ClientStep, a: nat)
    requires ReleaseRight(s, a) && ClientEnabled(s, c, step)
    requires ChainRight(s, c) && IndexRight(s, c) && PcRight(s, c)
    ensures ReleaseRight(ClientStepped(s, c, step), a)
  {
    hide ReleaseRight, ChainRight, IndexRight, PcRight, Started, Registered, Continued, Switched;
    match step
    case StartOperation(i) => StartingRelease(s, c, i, a);
    case RegisterAttachment => RegisteringRelease(s, c, a);
    case ContinueAttach => ContinuingRelease(s, c, a);
    case SwitchSession => SwitchingRelease(s, c, a);
    case AcquireSession => ReleaseOfOther(s, Acquired(s, c), c, a);
    case SettleOperation => SettlingRelease(s, c, a);
    case EnqueueOperation(kind) => ReleaseOfSame(s, Enqueued(s, c, kind), a);
    case ForgetOperation(_) => ReleaseOfSame(s, ClientStepped(s, c, step), a);
  }
}
