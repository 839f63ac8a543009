/** What is kept about the history of the session router: the operations that a release has found, the attachments that
    a removal has found, and which sessions are listed. */
module RouterHistory {
  import opened Common
  import opened PromiseChain
  import opened RouterState
  import opened RouterSafety
  import opened RouterReleases
  import opened RouterTheorems

  // ---------------------------------------------------------------------------------------------------------------
  // What is kept about operations, removals and the attachments of a session

  /** An operation that a release found and that is still under way is one that the release waits for. */
  predicate Tracks(at: Attachment, calls: nat) {
    && at.operations <= at.admitted && at.found <= at.admitted
    && (forall operation | operation in at.admitted :: operation < calls)
    && match at.release
       case NotReleasing => at.found == {}
       case Draining(awaited) => at.operations * at.found <= awaited
       case _ => at.operations * at.found == {}
  }

  /** The operations that were admitted after the release had begun. */
  function Late(at: Attachment): set<nat> {
    if at.release.NotReleasing? then {} else at.admitted - at.found
  }

  predicate MembersRight(s: State, h: nat) {
    h < |s.hosted| ==>
      forall a | a in s.hosted[h].attachments :: a < |s.attachments| && s.attachments[a].session == h
  }

  predicate Releasing(s: State, a: nat) {
    a < |s.attachments| && !s.attachments[a].release.NotReleasing?
  }

  predicate RemovalRight(s: State, r: nat) {
    r < |s.removals| ==>
      && s.removals[r].hosted < |s.hosted|
      && (forall a | a in s.removals[r].found :: Releasing(s, a))
      && (if s.removals[r].phase.RemovalReleases? then s.removals[r].phase.waiting == s.removals[r].found
          else AllReleased(s, s.removals[r].found))
  }

  predicate Lists(s: State, h: nat) {
    h < |s.hosted| && s.hosted[h].id in s.hostedSessions && s.hostedSessions[s.hosted[h].id] == h
  }

  /** After the releases that closing begins, every attachment of a listed session is being released. */
  predicate PastRight(s: State, h: nat) {
    PastOperations(s) && Lists(s, h) ==> forall a | a in s.hosted[h].attachments :: Releasing(s, a)
  }

  ghost predicate Sound(s: State) {
    && (forall a | 0 <= a < |s.attachments| :: Tracks(s.attachments[a], s.calls))
    && (forall h :: MembersRight(s, h) && PastRight(s, h))
    && (forall r :: RemovalRight(s, r))
  }

  /** What may become of one attachment. */
  predicate Evolves(x: Attachment, y: Attachment, before: nat, after: nat) {
    && (Tracks(x, before) ==> Tracks(y, after))
    && (y.release.NotReleasing? ==> x.release.NotReleasing?) && (x.release.Released? ==> y.release.Released?)
    && y.session == x.session
    && (before == after ==> Late(y) == Late(x))
  }

  predicate MembersFollow(s: State, t: State, h: nat)
    requires h < |s.hosted| <= |t.hosted|
  {
    forall a | a in t.hosted[h].attachments ::
      a in s.hosted[h].attachments || (|s.attachments| <= a < |t.attachments| && t.attachments[a].session == h)
  }

  predicate RemovalFollows(s: State, x: Removal, y: Removal) {
    && y.hosted == x.hosted && y.found == x.found && (x.phase.RemovalDone? ==> y.phase.RemovalDone?)
    && (y.phase.RemovalReleases? ==> y == x)
    && (x.phase.RemovalReleases? && !y.phase.RemovalReleases? ==> AllReleased(s, x.phase.waiting))
  }

  /** A removal begins the release of every attachment that its session has. */
  predicate RemovalBegins(s: State, t: State, removal: Removal) {
    && removal.hosted < |s.hosted| && removal.found == s.hosted[removal.hosted].attachments
    && (forall a | a in removal.found && a < |t.attachments| :: Releasing(t, a))
    && removal.phase == RemovalReleases(removal.found)
  }

  ghost predicate Follows(s: State, t: State) {
    && |s.attachments| <= |t.attachments| && |s.hosted| <= |t.hosted| && |s.removals| <= |t.removals|
    && (forall a | 0 <= a < |s.attachments| :: Evolves(s.attachments[a], t.attachments[a], s.calls, t.calls))
    && (forall a | |s.attachments| <= a < |t.attachments| :: Tracks(t.attachments[a], t.calls))
    && (forall h | 0 <= h < |s.hosted| :: MembersFollow(s, t, h))
    && (forall h | |s.hosted| <= h < |t.hosted| :: t.hosted[h].attachments == {})
    && (forall r | 0 <= r < |s.removals| :: RemovalFollows(s, s.removals[r], t.removals[r]))
    && (forall r | |s.removals| <= r < |t.removals| :: RemovalBegins(s, t, t.removals[r]))
  }

  // ---------------------------------------------------------------------------------------------------------------
  // Every step follows

  predicate SameObjects(s: State, t: State) {
    t.attachments == s.attachments && t.hosted == s.hosted && t.removals == s.removals && t.calls == s.calls
  }

  lemma FollowsOfSame(s: State, t: State, before: State, after: State)
    requires Follows(s, t) && SameObjects(s, before) && SameObjects(t, after)
    ensures Follows(before, after)
  {
    hide Evolves;
    forall h: nat | h < |before.hosted|
      ensures MembersFollow(before, after, h)
    {
      assert MembersFollow(s, t, h);
    }
    forall r: nat | r < |before.removals|
      ensures RemovalFollows(before, before.removals[r], after.removals[r])
    {
      assert RemovalFollows(s, s.removals[r], t.removals[r]);
    }
  }

  lemma StaysFollows(s: State, t: State)
    requires SameObjects(s, t)
    ensures Follows(s, t)
  {
  }

  lemma ChangeFollows(s: State, a: nat, at: Attachment)
    requires a < |s.attachments| && Evolves(s.attachments[a], at, s.calls, s.calls)
    ensures Follows(s, WithAttachment(s, a, at)) && WithAttachment(s, a, at).calls == s.calls
  {
  }

  lemma ClearFollows(s: State, a: nat, success: bool)
    requires a < |s.attachments| && s.attachments[a].session < |s.hosted|
    requires Evolves(s.attachments[a], s.attachments[a].(release := Released(success)), s.calls, s.calls)
    ensures Follows(s, Cleared(s, a, success)) && Cleared(s, a, success).calls == s.calls
  {
  }

  /** The operations that a release awaits are over: those it found are. */
  lemma AwaitedAreOver(at: Attachment, release: Release, calls: nat)
    requires at.release.Draining? ==> at.release.awaited * at.operations == {}
    requires release.AwaitingLease? || release.ReleasingLease? || release.Released?
    requires !at.release.NotReleasing? && !at.release.Released?
    ensures forall releases: nat :: Evolves(at, at.(release := release, leaseReleases := releases), calls, calls)
  {
    if Tracks(at, calls) && at.release.Draining? {
      assert at.operations * at.found <= at.release.awaited * at.operations;
    }
  }

  lemma SettlingEvolves(at: Attachment, operation: nat, calls: nat)
    ensures Evolves(at, at.(operations := at.operations - {operation}), calls, calls)
  {
    match at.release
    case NotReleasing =>
    case Draining(awaited) =>
    case AwaitingLease => assert (at.operations - {operation}) * at.found <= at.operations * at.found;
    case ReleasingLease => assert (at.operations - {operation}) * at.found <= at.operations * at.found;
    case Released(_) => assert (at.operations - {operation}) * at.found <= at.operations * at.found;
  }

  lemma AttachmentStepFollows(s: State, a: nat, step: AttachmentStep)
    requires AttachmentEnabled(s, a, step)
    ensures Follows(s, AttachmentStepped(s, a, step)) && AttachmentStepped(s, a, step).calls == s.calls
  {
    hide Follows, WithAttachment, Cleared, Tracks;
    var at := s.attachments[a];
    match step
    case LeaseSettles(granted) => LeaseEvolves(s, a, if granted then Held else Denied);
    case ServiceSettles(operation) =>
      SettlingEvolves(at, operation, s.calls);
      ChangeFollows(s, a, at.(operations := at.operations - {operation}));
    case AdvanceRelease =>
      match at.lease {
        case Held =>
          AwaitedAreOver(at, ReleasingLease, s.calls);
          ChangeFollows(s, a, at.(release := ReleasingLease, leaseReleases := at.leaseReleases + 1));
        case Acquiring =>
          AwaitedAreOver(at, AwaitingLease, s.calls);
          assert at.(release := AwaitingLease) == at.(release := AwaitingLease, leaseReleases := at.leaseReleases);
          ChangeFollows(s, a, at.(release := AwaitingLease));
        case Denied => EndFollows(s, a, false);
      }
    case EndRelease(success) => EndFollows(s, a, success);
  }

  lemma LeaseEvolves(s: State, a: nat, lease: Lease)
    requires a < |s.attachments|
    ensures Follows(s, WithAttachment(s, a, s.attachments[a].(lease := lease)))
    ensures WithAttachment(s, a, s.attachments[a].(lease := lease)).calls == s.calls
  {
  }

  lemma EndFollows(s: State, a: nat, success: bool)
    requires a < |s.attachments| && s.attachments[a].session < |s.hosted|
    requires !s.attachments[a].release.NotReleasing? && !s.attachments[a].release.Released?
    requires s.attachments[a].release.Draining? ==> s.attachments[a].release.awaited * s.attachments[a].operations == {}
    ensures Follows(s, Cleared(s, a, success)) && Cleared(s, a, success).calls == s.calls
  {
    hide Follows, Cleared, Tracks;
    var at := s.attachments[a];
    AwaitedAreOver(at, Released(success), s.calls);
    assert at.(release := Released(success)) == at.(release := Released(success), leaseReleases := at.leaseReleases);
    ClearFollows(s, a, success);
  }

  lemma BegunEvolves(at: Attachment, inQueue: bool, calls: nat)
    ensures Evolves(at, Begun(at, inQueue), calls, calls)
  {
  }

  lemma BegunFollows(s: State, which: set<nat>)
    ensures Follows(s, ReleasesBegun(s, which)) && ReleasesBegun(s, which).calls == s.calls
  {
    forall a | 0 <= a < |s.attachments|
      ensures Evolves(s.attachments[a], ReleasesBegun(s, which).attachments[a], s.calls, s.calls)
    {
      BegunEvolves(s.attachments[a], false, s.calls);
    }
    hide Evolves, Begun;
  }

  lemma LettingGoFollows(s: State, c: nat, a: nat, pc: Pc)
    requires c in s.running && a < |s.attachments|
    ensures Follows(s, At(ReleaseBegun(s, a, true), c, pc)) && At(ReleaseBegun(s, a, true), c, pc).calls == s.calls
  {
    hide Follows, Evolves, Begun;
    BegunEvolves(s.attachments[a], true, s.calls);
    ChangeFollows(s, a, Begun(s.attachments[a], true));
    FollowsOfSame(s, ReleaseBegun(s, a, true), s, At(ReleaseBegun(s, a, true), c, pc));
  }

  lemma OpeningFollows(s: State, o: nat)
    requires OpenEnabled(s, o, OpenSettles(true)) && !s.closing
    ensures Follows(s, Opened(s, o, true)) && Opened(s, o, true).calls == s.calls
  {
  }

  lemma OpenStepFollows(s: State, o: nat, step: OpenStep)
    requires OpenEnabled(s, o, step)
    ensures Follows(s, OpenStepped(s, o, step)) && OpenStepped(s, o, step).calls == s.calls
  {
    hide Follows;
    if step == OpenSettles(true) && !s.closing {
      OpeningFollows(s, o);
    } else {
      StaysFollows(s, OpenStepped(s, o, step));
    }
  }

  lemma EndingFollows(s: State, h: nat)
    requires h < |s.hosted|
    ensures Follows(s, Invalidated(s, h)) && Invalidated(s, h).calls == s.calls
  {
    hide Follows;
    if s.hosted[h].id in s.hostedSessions && s.hostedSessions[s.hosted[h].id] == h {
      var unlisted := s.(hostedSessions := s.hostedSessions - {s.hosted[h].id});
      BegunFollows(unlisted, s.hosted[h].attachments);
      FollowsOfSame(unlisted, Invalidated(s, h), s, Invalidated(s, h));
    } else {
      StaysFollows(s, s);
    }
  }

  lemma RemovingFollows(s: State, id: string)
    requires id in s.hostedSessions ==> s.hostedSessions[id] < |s.hosted|
    ensures Follows(s, RemovalBegun(s, id)) && RemovalBegun(s, id).calls == s.calls
  {
    hide ReleasesBegun, Evolves, Tracks;
    if !s.closing && id in s.hostedSessions {
      BegunFollows(s, s.hosted[s.hostedSessions[id]].attachments);
      BegunObjects(s, s.hosted[s.hostedSessions[id]].attachments);
    } else {
      StaysFollows(s, s);
    }
  }

  lemma BegunObjects(s: State, which: set<nat>)
    ensures ReleasesBegun(s, which) == s.(attachments := ReleasesBegun(s, which).attachments)
    ensures forall a | a in which && a < |s.attachments| :: Releasing(ReleasesBegun(s, which), a)
  {
  }

  lemma AdvancingFollows(s: State, r: nat)
    requires CanAdvanceRemoval(s, r)
    ensures Follows(s, RemovalAdvanced(s, r)) && RemovalAdvanced(s, r).calls == s.calls
  {
    var t := RemovalAdvanced(s, r);
    StaysFollows(s, s);
    AdvancedObjects(s, r);
    hide Evolves, Tracks, RemovalAdvanced;
    forall h: nat | h < |s.hosted|
      ensures MembersFollow(s, t, h)
    {
      assert MembersFollow(s, s, h);
    }
  }

  lemma AdvancedObjects(s: State, r: nat)
    requires CanAdvanceRemoval(s, r)
    ensures var t := RemovalAdvanced(s, r);
            && t.attachments == s.attachments && t.hosted == s.hosted && t.calls == s.calls
            && |t.removals| == |s.removals| && RemovalFollows(s, s.removals[r], t.removals[r])
            && (forall other: nat | other < |s.removals| && other != r :: t.removals[other] == s.removals[other])
  {
    if s.removals[r].phase.RemovalReleases? {} else {}
  }

  lemma SessionStepFollows(s: State, step: SessionStep)
    requires SessionsEnabled(s, step)
    ensures Follows(s, SessionsStepped(s, step)) && SessionsStepped(s, step).calls == s.calls
  {
    hide Follows, Invalidated, RemovalBegun, RemovalAdvanced;
    match step
    case SessionEnds(h) => EndingFollows(s, h);
    case RemoveSession(id) => RemovingFollows(s, id);
    case AdvanceRemoval(r) => AdvancingFollows(s, r);
  }

  lemma CloseStepFollows(s: State, step: CloseStep)
    requires CloseEnabled(s, step)
    ensures Follows(s, CloseStepped(s, step)) && CloseStepped(s, step).calls == s.calls
  {
    hide Follows, ReleasesBegun, OperationsOver;
    var t := CloseStepped(s, step);
    match step
    case AwaitReleases =>
      BegunFollows(s, Listed(s));
      BegunObjects(s, Listed(s));
      FollowsOfSame(s, ReleasesBegun(s, Listed(s)), s, t);
    case HandleCloses(_, _) => StaysFollows(s, t);
    case ServerCloses => StaysFollows(s, t);
    case CloseRouter => StaysFollows(s, t);
    case AwaitHandles => StaysFollows(s, t);
    case EndClose => StaysFollows(s, t);
  }

  lemma LeasingFollows(s: State, c: nat, h: nat)
    requires c in s.running && h < |s.hosted|
    ensures Follows(s, LeaseBegun(s, c, h)) && LeaseBegun(s, c, h).calls == s.calls
  {
  }

  lemma DenyingFollows(s: State, c: nat)
    requires CanRegister(s, c) && s.attachments[s.running[c].pc.attachment].lease.Denied?
    ensures Follows(s, Registered(s, c)) && Registered(s, c).calls == s.calls
  {
  }

  lemma RegisteringFollows(s: State, c: nat)
    requires CanRegister(s, c)
    ensures Follows(s, Registered(s, c)) && Registered(s, c).calls == s.calls
  {
    hide Follows;
    var a := s.running[c].pc.attachment;
    if s.attachments[a].lease.Denied? {
      DenyingFollows(s, c);
    } else if RegistrationHolds(s, c) {
      StaysFollows(s, Registered(s, c));
    } else {
      LettingGoFollows(s, c, a, AwaitingRelease(a));
    }
  }

  /** What `attachClientNow` looks at once the lease is there. Whether the attachment is being released, or its session
      removed, is not part of it. */
  predicate RegistrationHolds(s: State, c: nat)
    requires CanRegister(s, c)
  {
    var a := s.running[c].pc.attachment;
    var h := s.attachments[a].session;
    s.attachments[a].lease.Held? && Lists(s, h) && a in s.hosted[h].attachments && !Turned(s, c)
  }

  /** What `startServiceCall` looks at. Whether the attachment is being released is not part of it. */
  predicate CallHolds(s: State, c: nat, target: string, a: nat) {
    !Turned(s, c) && c in s.attachmentsByClient && s.attachmentsByClient[c] == a && IsAttachedTo(s, a, target)
  }

  lemma CallingFollows(s: State, c: nat, target: string, a: nat)
    requires c in s.running
    ensures Follows(s, CallStarted(s, c, target, a))
    ensures !CallHolds(s, c, target, a) ==> CallStarted(s, c, target, a).calls == s.calls
  {
    hide Follows;
    if CallHolds(s, c, target, a) {
      AdmittingFollows(s, c, target, a);
    } else {
      StaysFollows(s, CallStarted(s, c, target, a));
    }
  }

  lemma AdmittingFollows(s: State, c: nat, target: string, a: nat)
    requires c in s.running && CallHolds(s, c, target, a)
    ensures Follows(s, CallStarted(s, c, target, a))
  {
    var at, t := s.attachments[a], CallStarted(s, c, target, a);
    AdmittedEvolves(at, s.calls);
    forall b | 0 <= b < |s.attachments|
      ensures Evolves(s.attachments[b], t.attachments[b], s.calls, t.calls)
    {
      assert b != a ==> t.attachments[b] == s.attachments[b];
    }
    hide Evolves, Tracks;
  }

  lemma AdmittedEvolves(at: Attachment, calls: nat)
    ensures Evolves(at, at.(operations := at.operations + {calls}, admitted := at.admitted + {calls}), calls, calls + 1)
  {
    if Tracks(at, calls) {
      assert calls !in at.found;
      assert (at.operations + {calls}) * at.found == at.operations * at.found;
    }
  }

  lemma LeavingFollows(s: State, c: nat)
    requires c in s.running && (c in s.attachmentsByClient ==> s.attachmentsByClient[c] < |s.attachments|)
    ensures Follows(s, LeaveStarted(s, c)) && LeaveStarted(s, c).calls == s.calls
  {
    hide Follows;
    if c in s.attachmentsByClient {
      LettingGoFollows(s, c, s.attachmentsByClient[c], AwaitingRelease(s.attachmentsByClient[c]));
    } else {
      StaysFollows(s, LeaveStarted(s, c));
    }
  }

  lemma AttachingFollows(s: State, c: nat, id: string)
    requires c in s.running
    ensures Follows(s, AttachStarted(s, c, id)) && AttachStarted(s, c, id).calls == s.calls
  {
    AttachingObjects(s, c, id);
    AttachingHistory(s, c, id);
    hide Follows, AttachStarted;
    StaysFollows(s, AttachStarted(s, c, id));
  }

  lemma AttachingHistory(s: State, c: nat, id: string)
    requires c in s.running
    ensures AttachStarted(s, c, id).removals == s.removals && AttachStarted(s, c, id).calls == s.calls
  {
    if Turned(s, c) {} else if id in s.hostedSessions {} else if id in s.openingSessions {} else {}
  }

  /** Operation `i` is a service call that is admitted. */
  predicate StartsCall(s: State, c: nat, i: nat) {
    && i < |KindsOf(s, c)| && KindsOf(s, c)[i].ServiceCall?
    && CallHolds(s, c, KindsOf(s, c)[i].target, KindsOf(s, c)[i].attachment)
  }

  lemma StartingFollows(s: State, c: nat, i: nat)
    requires CanStartOperation(s, c, i)
    ensures Follows(s, Started(s, c, i))
    ensures !StartsCall(s, c, i) ==> Started(s, c, i).calls == s.calls
  {
    hide Follows, AttachStarted, CallStarted, LeaveStarted;
    var begun := Begins(s, c, i);
    match KindsOf(s, c)[i] {
      case Attach(id) => AttachingFollows(begun, c, id);
      case ServiceCall(target, attachment) => CallingFollows(begun, c, target, attachment);
      case Detach => LeavingFollows(begun, c);
      case Disconnect => LeavingFollows(begun, c);
    }
    FollowsOfSame(begun, Started(s, c, i), s, Started(s, c, i));
  }

  lemma ClientStepFollows(s: State, c: nat, step: ClientStep)
    requires ClientEnabled(s, c, step)
    ensures Follows(s, ClientStepped(s, c, step))
    ensures !(step.StartOperation? && StartsCall(s, c, step.index)) ==> ClientStepped(s, c, step).calls == s.calls
  {
    hide Follows, Started, Registered, ReleaseBegun, LeaseBegun;
    var t := ClientStepped(s, c, step);
    match step
    case StartOperation(i) => StartingFollows(s, c, i);
    case RegisterAttachment => RegisteringFollows(s, c);
    case ContinueAttach =>
      var pc := s.running[c].pc;
      if pc.hosted.None? || Turned(s, c) {
        StaysFollows(s, t);
      } else if pc.current.Some? {
        LettingGoFollows(s, c, pc.current.value, Switching(pc.hosted.value, pc.current.value));
      } else {
        LeasingFollows(s, c, pc.hosted.value);
      }
    case SwitchSession =>
      if s.attachments[s.running[c].pc.leaving].release.success {
        LeasingFollows(s, c, s.running[c].pc.next);
      } else {
        StaysFollows(s, t);
      }
    case AcquireSession => StaysFollows(s, t);
    case EnqueueOperation(_) => StaysFollows(s, t);
    case SettleOperation => StaysFollows(s, t);
    case ForgetOperation(_) => StaysFollows(s, t);
  }

  lemma StepFollows(s: State, a: Action)
    requires Enabled(s, a)
    ensures Follows(s, Step(s, a))
  {
    hide Follows, ClientStepped, AttachmentStepped, OpenStepped, SessionsStepped, CloseStepped;
    match a
    case OfClient(c, step) => ClientStepFollows(s, c, step);
    case OfAttachment(at, step) => AttachmentStepFollows(s, at, step);
    case OfOpening(o, step) => OpenStepFollows(s, o, step);
    case OfSessions(step) => SessionStepFollows(s, step);
    case OfClosing(step) => CloseStepFollows(s, step);
  }

  // ---------------------------------------------------------------------------------------------------------------
  // Which sessions are listed

  /** A session that has been taken off the list does not come back: only new session objects are listed. */
  ghost predicate NoneRelisted(s: State, t: State) {
    && (forall h | 0 <= h < |s.hosted| <= |t.hosted| :: t.hosted[h].id == s.hosted[h].id)
    && (forall id | id in t.hostedSessions ::
          || t.hostedSessions[id] >= |s.hosted|
          || (id in s.hostedSessions && s.hostedSessions[id] == t.hostedSessions[id]))
    && (s.closing ==> forall id | id in t.hostedSessions ::
                        id in s.hostedSessions && s.hostedSessions[id] == t.hostedSessions[id])
  }

  lemma GrowsKeepsIds(s: State, t: State)
    requires Grows(s, t)
    requires forall id | id in t.hostedSessions ::
               id in s.hostedSessions && s.hostedSessions[id] == t.hostedSessions[id]
    ensures NoneRelisted(s, t)
  {
  }

  lemma OpenStepRelistsNone(s: State, o: nat, step: OpenStep)
    requires OpenEnabled(s, o, step)
    ensures NoneRelisted(s, OpenStepped(s, o, step))
  {
    OpensGrow(s, o, step);
    OpenStepStays(s, o, step);
    if step == OpenSettles(true) && !s.closing {
    } else {
      assert OpenStepped(s, o, step).hostedSessions == s.hostedSessions;
      GrowsKeepsIds(s, OpenStepped(s, o, step));
    }
  }

  lemma CloseStepRelistsNone(s: State, step: CloseStep)
    requires CloseEnabled(s, step)
    ensures NoneRelisted(s, CloseStepped(s, step))
  {
    ClosingGrows(s, step);
    hide Grows, NoneRelisted, OperationsOver, ReleasesBegun;
    var t := CloseStepped(s, step);
    match step
    case AwaitReleases =>
      BegunObjects(s, Listed(s));
      GrowsKeepsIds(s, t);
    case HandleCloses(_, _) => GrowsKeepsIds(s, t);
    case ServerCloses => GrowsKeepsIds(s, t);
    case CloseRouter => GrowsKeepsIds(s, t);
    case AwaitHandles => GrowsKeepsIds(s, t);
    case EndClose => GrowsKeepsIds(s, t);
  }

  lemma StepRelistsNone(s: State, a: Action)
    requires Enabled(s, a)
    ensures NoneRelisted(s, Step(s, a))
  {
    hide NoneRelisted, Grows, ClientStepped, AttachmentStepped, OpenStepped, SessionsStepped, CloseStepped;
    var t := Step(s, a);
    match a
    case OfClient(c, step) =>
      ClientsGrow(s, c, step);
      ClientStepLists(s, c, step);
      GrowsKeepsIds(s, t);
    case OfAttachment(at, step) =>
      AttachmentsGrow(s, at, step);
      AttachmentStepLists(s, at, step);
      GrowsKeepsIds(s, t);
    case OfOpening(o, step) => OpenStepRelistsNone(s, o, step);
    case OfSessions(step) =>
      SessionsGrow(s, step);
      SessionStepLists(s, step);
      GrowsKeepsIds(s, t);
    case OfClosing(step) => CloseStepRelistsNone(s, step);
  }

  // ---------------------------------------------------------------------------------------------------------------
  // Every step keeps it

  lemma MembersStep(s: State, t: State, h: nat)
    requires Follows(s, t) && (h < |s.hosted| ==> MembersRight(s, h))
    ensures MembersRight(t, h)
  {
    hide Tracks;
    if h < |s.hosted| {
      assert MembersFollow(s, t, h);
    }
  }

  lemma RemovalStep(s: State, t: State, r: nat)
    requires Follows(s, t) && RemovalRight(s, r) && (forall h :: MembersRight(s, h))
    ensures RemovalRight(t, r)
  {
    hide Tracks;
    if r < |s.removals| {
      assert RemovalFollows(s, s.removals[r], t.removals[r]);
    } else if r < |t.removals| {
      assert RemovalBegins(s, t, t.removals[r]) && MembersRight(s, t.removals[r].hosted);
    }
  }

  /** Once the operations that closing waits for are over, nothing attaches any more. */
  lemma NoneAttachesPast(s: State, a: Action)
    requires Inv(s) && Enabled(s, a) && PastOperations(s)
    ensures |Step(s, a).attachments| == |s.attachments| && s.closing && PastOperations(Step(s, a))
  {
    assert CloseRight(s, 0);
    hide Grows, ClientStepped, AttachmentStepped, OpenStepped, SessionsStepped, CloseStepped;
    match a
    case OfClient(c, step) =>
      assert CloseRight(s, c);
      hide Inv;
      ClientStepAttachesNone(s, c, step);
    case OfAttachment(at, step) => AttachmentStepAttachesNone(s, at, step);
    case OfOpening(o, step) => OpenStepAttachesNone(s, o, step);
    case OfSessions(step) => SessionStepAttachesNone(s, step);
    case OfClosing(step) => CloseStepAttachesNone(s, step);
  }

  lemma ClientStepAttachesNone(s: State, c: nat, step: ClientStep)
    requires ClientEnabled(s, c, step) && (c in s.running ==> !Attaching(s.running[c].pc))
    ensures |ClientStepped(s, c, step).attachments| == |s.attachments|
    ensures ClientStepped(s, c, step).close == s.close
  {
    ClientStays(s, c, step);
    hide Started, Registered, Continued, Switched, Acquired, ClientStepped;
    if step.StartOperation? {
      StartedAttachesNone(s, c, step.index);
      StartStepped(s, c, step.index);
    } else {
      QueueingAttachesNone(s, c, step);
    }
  }

  lemma QueueingAttachesNone(s: State, c: nat, step: ClientStep)
    requires ClientEnabled(s, c, step) && (c in s.running ==> !Attaching(s.running[c].pc)) && !step.StartOperation?
    ensures |ClientStepped(s, c, step).attachments| == |s.attachments|
  {
    match step
    case EnqueueOperation(_) =>
    case SettleOperation =>
    case ForgetOperation(_) =>
    case AcquireSession =>
    case ContinueAttach =>
    case SwitchSession =>
    case RegisterAttachment =>
  }

  lemma StartedAttachesNone(s: State, c: nat, i: nat)
    requires CanStartOperation(s, c, i)
    ensures |Started(s, c, i).attachments| == |s.attachments|
  {
    hide AttachStarted, CallStarted, LeaveStarted;
    var begun := Begins(s, c, i);
    match KindsOf(s, c)[i]
    case Attach(id) => AttachingObjects(begun, c, id);
    case ServiceCall(target, attachment) => CallAttachesNone(begun, c, target, attachment);
    case Detach => LeaveAttachesNone(begun, c);
    case Disconnect => LeaveAttachesNone(begun, c);
  }

  lemma CallAttachesNone(s: State, c: nat, target: string, attachment: nat)
    requires c in s.running
    ensures |CallStarted(s, c, target, attachment).attachments| == |s.attachments|
  {
  }

  lemma LeaveAttachesNone(s: State, c: nat)
    requires c in s.running && (c in s.attachmentsByClient ==> s.attachmentsByClient[c] < |s.attachments|)
    ensures |LeaveStarted(s, c).attachments| == |s.attachments|
  {
  }

  lemma AttachmentStepAttachesNone(s: State, a: nat, step: AttachmentStep)
    requires AttachmentEnabled(s, a, step)
    ensures |AttachmentStepped(s, a, step).attachments| == |s.attachments|
    ensures AttachmentStepped(s, a, step).close == s.close
  {
    if step.AdvanceRelease? {
      if s.attachments[a].lease.Denied? {} else {}
    }
  }

  lemma OpenStepAttachesNone(s: State, o: nat, step: OpenStep)
    requires OpenEnabled(s, o, step)
    ensures OpenStepped(s, o, step).attachments == s.attachments && OpenStepped(s, o, step).close == s.close
  {
    if step.OpenSettles? {
      if !step.works {} else if s.closing {} else {}
    }
  }

  lemma SessionStepAttachesNone(s: State, step: SessionStep)
    requires SessionsEnabled(s, step)
    ensures |SessionsStepped(s, step).attachments| == |s.attachments| && SessionsStepped(s, step).close == s.close
  {
    hide ReleasesBegun;
    match step
    case SessionEnds(h) =>
      BegunObjects(s.(hostedSessions := s.hostedSessions - {s.hosted[h].id}), s.hosted[h].attachments);
    case RemoveSession(id) =>
      if id in s.hostedSessions {
        BegunObjects(s, s.hosted[s.hostedSessions[id]].attachments);
      }
    case AdvanceRemoval(r) => AdvancedObjects(s, r);
  }

  lemma CloseStepAttachesNone(s: State, step: CloseStep)
    requires CloseEnabled(s, step)
    ensures |CloseStepped(s, step).attachments| == |s.attachments|
    ensures PastOperations(s) ==> PastOperations(CloseStepped(s, step))
    ensures PastOperations(CloseStepped(s, step)) ==> PastOperations(s) || step.AwaitReleases?
  {
    hide ReleasesBegun, OperationsOver;
    match step
    case AwaitReleases => BegunObjects(s, Listed(s));
    case HandleCloses(_, _) =>
    case ServerCloses =>
    case CloseRouter =>
    case AwaitHandles =>
    case EndClose =>
  }

  /** Closing comes to its releases in one way. */
  lemma BecomesPast(s: State, a: Action)
    requires Enabled(s, a) && !PastOperations(s) && PastOperations(Step(s, a))
    ensures a == OfClosing(AwaitReleases)
  {
    hide Grows, ClientStepped, AttachmentStepped, OpenStepped, SessionsStepped, CloseStepped;
    match a
    case OfClient(c, step) => ClientStays(s, c, step);
    case OfAttachment(at, step) => AttachmentStepAttachesNone(s, at, step);
    case OfOpening(o, step) => OpenStepAttachesNone(s, o, step);
    case OfSessions(step) => SessionStepAttachesNone(s, step);
    case OfClosing(step) => CloseStepAttachesNone(s, step);
  }

  lemma ListedOfOld(s: State, t: State, h: nat)
    requires Follows(s, t) && NoneRelisted(s, t) && |t.attachments| == |s.attachments|
    requires s.closing && PastOperations(s) && (forall id :: ListsRight(s, id)) && PastRight(s, h) && Lists(t, h)
    ensures h < |s.hosted| && forall a | a in t.hosted[h].attachments :: Releasing(t, a)
  {
    hide Tracks, RemovalBegins;
    assert ListsRight(s, t.hosted[h].id);
    assert MembersFollow(s, t, h);
    forall a | a in t.hosted[h].attachments
      ensures Releasing(t, a)
    {
      assert Releasing(s, a) && Evolves(s.attachments[a], t.attachments[a], s.calls, t.calls);
    }
  }

  lemma ListedBegins(s: State, h: nat)
    requires OperationsOver(s) && Lists(ReleasesAwaited(s), h) && MembersRight(s, h)
    ensures forall a | a in ReleasesAwaited(s).hosted[h].attachments :: Releasing(ReleasesAwaited(s), a)
  {
    BegunObjects(s, Listed(s));
    hide ReleasesBegun, OperationsOver;
    var t := ReleasesAwaited(s);
    forall a | a in t.hosted[h].attachments
      ensures Releasing(t, a)
    {
      assert s.hosted[h].id in s.hostedSessions && a in Listed(s);
      assert Releasing(ReleasesBegun(s, Listed(s)), a);
    }
  }

  lemma PastStep(s: State, a: Action, h: nat)
    requires Inv(s) && Sound(s) && Enabled(s, a)
    ensures PastRight(Step(s, a), h)
  {
    var t := Step(s, a);
    if PastOperations(t) && Lists(t, h) {
      if PastOperations(s) {
        StepFollows(s, a);
        StepRelistsNone(s, a);
        NoneAttachesPast(s, a);
        hide Step, Enabled, Follows, NoneRelisted;
        ListedOfOld(s, t, h);
      } else {
        BecomesPast(s, a);
        assert MembersRight(s, h);
        hide Inv, Sound;
        ListedBegins(s, h);
      }
    }
  }

  lemma SoundStep(s: State, a: Action)
    requires Inv(s) && Sound(s) && Enabled(s, a)
    ensures Sound(Step(s, a))
  {
    var t := Step(s, a);
    StepFollows(s, a);
    forall h: nat
      ensures MembersRight(t, h) && PastRight(t, h)
    {
      MembersStep(s, t, h);
      PastStep(s, a, h);
    }
    forall r: nat
      ensures RemovalRight(t, r)
    {
      RemovalStep(s, t, r);
    }
    hide Step, Enabled, Inv, Tracks, MembersRight, PastRight, RemovalRight;
    forall at: nat | at < |t.attachments|
      ensures Tracks(t.attachments[at], t.calls)
    {
      assert at < |s.attachments| ==> Evolves(s.attachments[at], t.attachments[at], s.calls, t.calls);
    }
  }

  lemma {:induction false} SoundRun(actions: seq<Action>)
    ensures Sound(Run(actions))
    decreases |actions|
  {
    if actions != [] {
      var before, last := Run(actions[..|actions| - 1]), actions[|actions| - 1];
      InvRun(actions[..|actions| - 1]);
      SoundRun(actions[..|actions| - 1]);
      if Enabled(before, last) {
        SoundStep(before, last);
      }
    }
  }
}
