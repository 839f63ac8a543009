/** What a registered attachment and a release can still promise when sessions are removed, and exactly when they do
    not.

    Two claims a reader would expect are false of the router. A client can stay registered with a session that is no
    longer hosted, and a lease can be released while operations of its attachment are under way. Both are shown by a
    run from the initial state, and both are given the exact condition under which they happen. */
module RouterOrphans {
  import opened Common
  import opened PromiseChain
  import opened RouterState
  import opened RouterSafety
  import opened RouterReleases
  import opened RouterTheorems
  import opened RouterHistory

  // ---------------------------------------------------------------------------------------------------------------
  // Registered with a session that is not hosted

  /** Client `c` is registered with an attachment that nobody has begun to release, and its session is gone. */
  predicate Orphaned(s: State, c: nat, a: nat) {
    && c in s.attachmentsByClient && s.attachmentsByClient[c] == a && a < |s.attachments|
    && !Releasing(s, a) && !Lists(s, s.attachments[a].session)
  }

  /** A removal of the attachment's session has unlisted it and had begun its releases before the attachment was
      there. */
  predicate RemovedBy(s: State, a: nat, r: nat) {
    && a < |s.attachments| && r < |s.removals| && s.removals[r].hosted == s.attachments[a].session
    && s.removals[r].phase.RemovalDone? && a !in s.removals[r].found
  }

  ghost predicate OrphanRight(s: State, c: nat, a: nat) {
    Orphaned(s, c, a) ==> exists r :: RemovedBy(s, a, r)
  }

  /** A session is taken off the list by the end of a removal, or with the release of its attachments begun. */
  lemma UnlistingStep(s: State, a: Action, h: nat)
    requires Inv(s) && Sound(s) && Enabled(s, a) && Lists(s, h) && !Lists(Step(s, a), h)
    ensures var t := Step(s, a);
            || (h < |t.hosted| && forall b | b in s.hosted[h].attachments :: Releasing(t, b))
            || (a.OfSessions? && a.sessionStep.AdvanceRemoval?
                && var r := a.sessionStep.removal;
                   && s.removals[r].hosted == h && s.removals[r].phase.RemovalCloses?
                   && t.removals[r].phase.RemovalDone? && t.attachments == s.attachments)
  {
    assert MembersRight(s, h) && PastRight(s, h);
    StepFollows(s, a);
    hide Inv, Sound, Grows, Follows, ClientStepped, AttachmentStepped, OpenStepped, SessionsStepped, CloseStepped;
    match a
    case OfClient(c, step) =>
      ClientsGrow(s, c, step);
      ClientStepLists(s, c, step);
      ListsOfSame(s, Step(s, a), h);
    case OfAttachment(at, step) =>
      AttachmentsGrow(s, at, step);
      AttachmentStepLists(s, at, step);
      ListsOfSame(s, Step(s, a), h);
    case OfOpening(o, step) => OpeningUnlistsNone(s, o, step, h);
    case OfSessions(step) => SessionStepUnlists(s, step, h);
    case OfClosing(step) => CloseStepUnlists(s, step, h);
  }

  lemma ListsOfSame(s: State, t: State, h: nat)
    requires Grows(s, t) && t.hostedSessions == s.hostedSessions
    ensures Lists(s, h) ==> Lists(t, h)
  {
  }

  lemma OpeningUnlistsNone(s: State, o: nat, step: OpenStep, h: nat)
    requires OpenEnabled(s, o, step) && OpenRight(s, o) && Lists(s, h)
    ensures Lists(OpenStepped(s, o, step), h)
  {
    if step.OpenSettles? {
      if !step.works {} else if s.closing {} else {}
    }
  }

  lemma SessionStepUnlists(s: State, step: SessionStep, h: nat)
    requires SessionsEnabled(s, step) && Lists(s, h) && !Lists(SessionsStepped(s, step), h) && MembersRight(s, h)
    ensures var t := SessionsStepped(s, step);
            || (h < |t.hosted| && forall b | b in s.hosted[h].attachments :: Releasing(t, b))
            || (step.AdvanceRemoval?
                && var r := step.removal;
                   && s.removals[r].hosted == h && s.removals[r].phase.RemovalCloses?
                   && t.removals[r].phase.RemovalDone? && t.attachments == s.attachments)
  {
    hide ReleasesBegun;
    match step
    case SessionEnds(ended) =>
      BegunObjects(s.(hostedSessions := s.hostedSessions - {s.hosted[ended].id}), s.hosted[ended].attachments);
    case RemoveSession(id) =>
      if id in s.hostedSessions {
        BegunObjects(s, s.hosted[s.hostedSessions[id]].attachments);
      }
    case AdvanceRemoval(r) => AdvancedUnlists(s, r, h);
  }

  lemma AdvancedUnlists(s: State, r: nat, h: nat)
    requires CanAdvanceRemoval(s, r) && Lists(s, h) && !Lists(RemovalAdvanced(s, r), h)
    ensures var t := RemovalAdvanced(s, r);
            && s.removals[r].hosted == h && s.removals[r].phase.RemovalCloses?
            && t.removals[r].phase.RemovalDone? && t.attachments == s.attachments
  {
    if s.removals[r].phase.RemovalReleases? {} else {}
  }

  lemma CloseStepUnlists(s: State, step: CloseStep, h: nat)
    requires CloseEnabled(s, step) && Lists(s, h) && !Lists(CloseStepped(s, step), h) && PastRight(s, h)
    ensures var t := CloseStepped(s, step);
            h < |t.hosted| && forall b | b in s.hosted[h].attachments :: Releasing(t, b)
  {
    hide ReleasesBegun, OperationsOver;
    match step
    case AwaitReleases => BegunObjects(s, Listed(s));
    case HandleCloses(_, _) =>
    case ServerCloses =>
    case CloseRouter =>
    case AwaitHandles =>
    case EndClose =>
  }

  /** A client is registered only with a listed session. */
  lemma RegistersListed(s: State, a: Action, c: nat)
    requires Inv(s) && Enabled(s, a)
    ensures var t := Step(s, a);
            c in t.attachmentsByClient
            && !(c in s.attachmentsByClient && s.attachmentsByClient[c] == t.attachmentsByClient[c])
            ==> t.attachmentsByClient[c] < |t.attachments| && Lists(t, t.attachments[t.attachmentsByClient[c]].session)
  {
    assert IndexRight(s, c);
    hide Inv, Grows, ClientStepped, AttachmentStepped, OpenStepped, SessionsStepped, CloseStepped, IndexRight;
    match a
    case OfClient(other, step) => ClientStepRegisters(s, other, step, c);
    case OfAttachment(at, step) => AttachmentStepSameIndex(s, at, step, c);
    case OfOpening(o, step) => OpenStepStays(s, o, step);
    case OfSessions(step) => SessionStepIndexed(s, step);
    case OfClosing(step) => CloseStepIndexed(s, step);
  }

  lemma CloseStepIndexed(s: State, step: CloseStep)
    requires CloseEnabled(s, step)
    ensures CloseStepped(s, step).attachmentsByClient == if step.EndClose? then map[] else s.attachmentsByClient
  {
    hide ReleasesBegun, OperationsOver;
    match step
    case AwaitReleases => BegunObjects(s, Listed(s));
    case HandleCloses(_, _) =>
    case ServerCloses =>
    case CloseRouter =>
    case AwaitHandles =>
    case EndClose =>
  }

  lemma ClientStepRegisters(s: State, c: nat, step: ClientStep, other: nat)
    requires ClientEnabled(s, c, step)
    ensures var t := ClientStepped(s, c, step);
            t.attachmentsByClient == s.attachmentsByClient
            || (c in t.attachmentsByClient
                && t.attachmentsByClient == s.attachmentsByClient[c := t.attachmentsByClient[c]]
                && t.attachmentsByClient[c] < |t.attachments|
                && Lists(t, t.attachments[t.attachmentsByClient[c]].session))
  {
    hide Started, Registered, Continued, Switched;
    match step
    case StartOperation(i) => StartingClose(s, c, i);
    case RegisterAttachment => RegisteredLists(s, c);
    case ContinueAttach => ContinuingStays(s, c);
    case SwitchSession => SwitchingStays(s, c);
    case AcquireSession =>
    case EnqueueOperation(_) =>
    case SettleOperation =>
    case ForgetOperation(_) =>
  }

  lemma SwitchingStays(s: State, c: nat)
    requires CanSwitch(s, c)
    ensures Switched(s, c).attachmentsByClient == s.attachmentsByClient
  {
    if s.attachments[s.running[c].pc.leaving].release.success {} else {}
  }

  lemma RegisteredLists(s: State, c: nat)
    requires CanRegister(s, c)
    ensures var t, a := Registered(s, c), s.running[c].pc.attachment;
            if RegistrationHolds(s, c) then
              && t.attachmentsByClient == s.attachmentsByClient[c := a] && t.attachments == s.attachments
              && t.removals == s.removals && t.hosted == s.hosted && t.hostedSessions == s.hostedSessions
            else t.attachmentsByClient == s.attachmentsByClient
  {
    hide ReleaseBegun;
    var a := s.running[c].pc.attachment;
    LetGoIndexed(s, c, a, AwaitingRelease(a));
    if s.attachments[a].lease.Denied? {} else if RegistrationHolds(s, c) {} else {}
  }

  /** An attachment that is registered and not being released has been so before, unless its session is listed. */
  lemma OrphanBefore(s: State, action: Action, c: nat, a: nat)
    requires Inv(s) && Enabled(s, action) && Orphaned(Step(s, action), c, a)
    ensures c in s.attachmentsByClient && s.attachmentsByClient[c] == a && a < |s.attachments| && !Releasing(s, a)
    ensures var h := s.attachments[a].session;
            h < |s.hosted| && a in s.hosted[h].attachments && Step(s, action).attachments[a].session == h
  {
    assert IndexRight(s, c);
    StepFollows(s, action);
    RegistersListed(s, action, c);
    hide Step, Enabled, Inv;
    var t := Step(s, action);
    assert Evolves(s.attachments[a], t.attachments[a], s.calls, t.calls);
  }

  lemma RemovedStays(s: State, t: State, a: nat, r: nat)
    requires RemovedBy(s, a, r) && Follows(s, t)
    ensures RemovedBy(t, a, r)
  {
    assert RemovalFollows(s, s.removals[r], t.removals[r]);
    assert Evolves(s.attachments[a], t.attachments[a], s.calls, t.calls);
  }

  lemma OrphanStep(s: State, action: Action, c: nat, a: nat)
    requires Inv(s) && Sound(s) && Enabled(s, action) && OrphanRight(s, c, a)
    ensures OrphanRight(Step(s, action), c, a)
  {
    var t := Step(s, action);
    if Orphaned(t, c, a) {
      OrphanBefore(s, action, c, a);
      StepFollows(s, action);
      var h := s.attachments[a].session;
      if Lists(s, h) {
        UnlistingStep(s, action, h);
        hide Step, Enabled, Inv, Follows;
        var r := action.sessionStep.removal;
        assert RemovalRight(s, r);
        UnlistedBy(s, t, a, r);
      } else {
        hide Step, Enabled, Inv, Sound, Follows;
        var r :| RemovedBy(s, a, r);
        RemovedStays(s, t, a, r);
      }
    }
  }

  lemma UnlistedBy(s: State, t: State, a: nat, r: nat)
    requires Follows(s, t) && RemovalRight(s, r) && r < |s.removals| && t.attachments == s.attachments
    requires a < |s.attachments| && !Releasing(s, a) && s.removals[r].hosted == s.attachments[a].session
    requires r < |t.removals| && t.removals[r].phase.RemovalDone?
    ensures RemovedBy(t, a, r)
  {
    assert RemovalFollows(s, s.removals[r], t.removals[r]);
  }

  /** In every run, a client that is registered with an attachment of a session that is no longer hosted either has that
      attachment being released, or the attachment is one that a removal of the session did not find. */
  lemma {:induction false} OrphansComeFromRemovals(actions: seq<Action>, c: nat, a: nat)
    ensures Orphaned(Run(actions), c, a) ==> exists r :: RemovedBy(Run(actions), a, r)
    decreases |actions|
  {
    if actions != [] {
      var before, last := Run(actions[..|actions| - 1]), actions[|actions| - 1];
      OrphansComeFromRemovals(actions[..|actions| - 1], c, a);
      InvRun(actions[..|actions| - 1]);
      SoundRun(actions[..|actions| - 1]);
      if Enabled(before, last) {
        OrphanStep(before, last, c, a);
      }
    }
  }

  // ---------------------------------------------------------------------------------------------------------------
  // Exactly when a registration can be left behind

  function RunFrom(s: State, more: seq<Action>): State {
    if more == [] then s
    else
      var before, last := RunFrom(s, more[..|more| - 1]), more[|more| - 1];
      if Enabled(before, last) then Step(before, last) else before
  }

  lemma {:induction false} RunOn(actions: seq<Action>, more: seq<Action>)
    ensures Run(actions + more) == RunFrom(Run(actions), more)
    decreases |more|
  {
    if more == [] {
      assert actions + more == actions;
    } else {
      RunOn(actions, more[..|more| - 1]);
      assert (actions + more)[..|actions + more| - 1] == actions + more[..|more| - 1];
    }
  }

  lemma {:induction false} RunFromOn(s: State, first: seq<Action>, more: seq<Action>)
    ensures RunFrom(s, first + more) == RunFrom(RunFrom(s, first), more)
    decreases |more|
  {
    if more == [] {
      assert first + more == first;
    } else {
      RunFromOn(s, first, more[..|more| - 1]);
      assert (first + more)[..|first + more| - 1] == first + more[..|more| - 1];
    }
  }

  ghost predicate RemovalUnderWay(s: State, h: nat) {
    exists r :: 0 <= r < |s.removals| && s.removals[r].hosted == h && !s.removals[r].phase.RemovalDone?
  }

  /** While nobody has begun to release it, an attachment stays with a listed session that nobody removes. */
  ghost predicate Safe(s: State, a: nat) {
    && a < |s.attachments| && s.attachments[a].session < |s.hosted|
    && (a in s.hosted[s.attachments[a].session].attachments && !Releasing(s, a) ==>
          Lists(s, s.attachments[a].session) && !RemovalUnderWay(s, s.attachments[a].session))
  }

  lemma SafeStep(s: State, action: Action, a: nat)
    requires Inv(s) && Sound(s) && Enabled(s, action) && Safe(s, a)
    ensures Safe(Step(s, action), a)
  {
    var t, h := Step(s, action), s.attachments[a].session;
    StepFollows(s, action);
    if Lists(s, h) && !Lists(t, h) {
      UnlistingStep(s, action, h);
    }
    hide Step, Enabled, Inv, Sound, Tracks;
    assert MembersFollow(s, t, h) && Evolves(s.attachments[a], t.attachments[a], s.calls, t.calls);
    if a in t.hosted[h].attachments && !Releasing(t, a) {
      assert Lists(t, h);
      forall r: nat | |s.removals| <= r < |t.removals|
        ensures t.removals[r].hosted != h
      {
        assert RemovalBegins(s, t, t.removals[r]);
      }
      forall r: nat | r < |s.removals| && t.removals[r].hosted == h
        ensures t.removals[r].phase.RemovalDone?
      {
        assert RemovalFollows(s, s.removals[r], t.removals[r]);
      }
    }
  }

  lemma {:induction false} StaysSafe(actions: seq<Action>, more: seq<Action>, a: nat)
    requires Safe(Run(actions), a)
    ensures Safe(Run(actions + more), a)
    decreases |more|
  {
    if more == [] {
      assert actions + more == actions;
    } else {
      var front, last := more[..|more| - 1], more[|more| - 1];
      assert (actions + more)[..|actions + more| - 1] == actions + front;
      StaysSafe(actions, front, a);
      InvRun(actions + front);
      SoundRun(actions + front);
      if Enabled(Run(actions + front), last) {
        SafeStep(Run(actions + front), last, a);
      }
    }
  }

  /** Nothing happens but to attachment `b`: its own release, its place in its session and in the index. */
  ghost predicate Beside(s: State, t: State, b: nat) {
    && b < |s.attachments| == |t.attachments| && |s.hosted| == |t.hosted|
    && t.attachments[b].session == s.attachments[b].session && (Releasing(s, b) ==> Releasing(t, b))
    && (forall a | 0 <= a < |s.attachments| && a != b :: t.attachments[a] == s.attachments[a])
    && (forall h | 0 <= h < |s.hosted| :: t.hosted[h].id == s.hosted[h].id)
    && t.removals == s.removals && t.hostedSessions == s.hostedSessions
    && (forall c | c in s.attachmentsByClient && s.attachmentsByClient[c] != b ::
          c in t.attachmentsByClient && t.attachmentsByClient[c] == s.attachmentsByClient[c])
  }

  lemma ChangedBeside(s: State, b: nat, step: AttachmentStep)
    requires AttachmentEnabled(s, b, step)
    ensures Beside(s, AttachmentStepped(s, b, step), b)
  {
    match step
    case LeaseSettles(_) =>
    case ServiceSettles(_) =>
    case AdvanceRelease => AdvancedBeside(s, b);
    case EndRelease(success) => ClearedBeside(s, b, success);
  }

  lemma ClearedBeside(s: State, b: nat, success: bool)
    requires b < |s.attachments| && s.attachments[b].session < |s.hosted|
    ensures Beside(s, Cleared(s, b, success), b)
  {
  }

  lemma AdvancedBeside(s: State, b: nat)
    requires CanAdvanceRelease(s, b)
    ensures Beside(s, ReleaseAdvanced(s, b), b)
  {
    hide Cleared;
    match s.attachments[b].lease
    case Held =>
    case Acquiring =>
    case Denied => ClearedBeside(s, b, false);
  }

  lemma BesideOn(s: State, t: State, u: State, b: nat)
    requires Beside(s, t, b) && Beside(t, u, b)
    ensures Beside(s, u, b)
  {
  }

  lemma OneMore(s: State, step: AttachmentStep, b: nat)
    requires AttachmentEnabled(s, b, step)
    ensures RunFrom(s, [OfAttachment(b, step)]) == AttachmentStepped(s, b, step)
    ensures Beside(s, RunFrom(s, [OfAttachment(b, step)]), b)
  {
    hide AttachmentStepped, AttachmentEnabled, Beside;
    ChangedBeside(s, b, step);
    var action := OfAttachment(b, step);
    assert RunFrom(s, []) == s && Enabled(s, action) && Step(s, action) == AttachmentStepped(s, b, step);
    assert [action][..0] == [];
  }

  lemma StepThen(s: State, step: AttachmentStep, rest: seq<Action>, b: nat) returns (more: seq<Action>)
    requires AttachmentEnabled(s, b, step)
    requires Beside(AttachmentStepped(s, b, step), RunFrom(AttachmentStepped(s, b, step), rest), b)
    ensures RunFrom(s, more) == RunFrom(AttachmentStepped(s, b, step), rest)
    ensures Beside(s, RunFrom(s, more), b)
  {
    hide AttachmentStepped, AttachmentEnabled, Beside;
    OneMore(s, step, b);
    RunFromOn(s, [OfAttachment(b, step)], rest);
    BesideOn(s, AttachmentStepped(s, b, step), RunFrom(AttachmentStepped(s, b, step), rest), b);
    more := [OfAttachment(b, step)] + rest;
  }

  /** The operations that a release waits for can end. */
  lemma OperationsCanEnd(s: State, b: nat) returns (more: seq<Action>)
    requires b < |s.attachments| && s.attachments[b].release.Draining?
    ensures var t := RunFrom(s, more);
            && Beside(s, t, b) && t.attachments[b].release == s.attachments[b].release
            && t.attachments[b].release.awaited * t.attachments[b].operations == {}
    decreases |s.attachments[b].operations|
  {
    var at := s.attachments[b];
    if at.release.awaited * at.operations == {} {
      more := [];
    } else {
      var operation :| operation in at.release.awaited * at.operations;
      var t := AttachmentStepped(s, b, ServiceSettles(operation));
      assert t.attachments[b] == at.(operations := at.operations - {operation});
      var rest := OperationsCanEnd(t, b);
      more := StepThen(s, ServiceSettles(operation), rest, b);
    }
  }

  lemma LeaseCanEnd(s: State, b: nat) returns (more: seq<Action>)
    requires CanEndRelease(s, b)
    ensures var t := RunFrom(s, more); Beside(s, t, b) && t.attachments[b].release.Released?
  {
    var t := AttachmentStepped(s, b, EndRelease(true));
    assert t.attachments[b].release == Released(true);
    BesideItself(t, b);
    more := StepThen(s, EndRelease(true), [], b);
  }

  lemma Advances(s: State, b: nat)
    requires CanAdvanceRelease(s, b)
    ensures AttachmentEnabled(s, b, AdvanceRelease)
    ensures AttachmentStepped(s, b, AdvanceRelease) == ReleaseAdvanced(s, b)
  {
    hide ReleaseAdvanced;
  }

  lemma Advanced(s: State, b: nat)
    requires CanAdvanceRelease(s, b)
    ensures var t := ReleaseAdvanced(s, b);
            match s.attachments[b].lease
            case Held => CanEndRelease(t, b)
            case Acquiring => b < |t.attachments| && t.attachments[b] == s.attachments[b].(release := AwaitingLease)
                              && |t.hosted| == |s.hosted|
            case Denied => b < |t.attachments| && t.attachments[b].release.Released?
  {
    hide Cleared;
    match s.attachments[b].lease
    case Held =>
    case Acquiring =>
    case Denied => ClearedReleased(s, b, false);
  }

  lemma ClearedReleased(s: State, b: nat, success: bool)
    requires b < |s.attachments| && s.attachments[b].session < |s.hosted|
    ensures var t := Cleared(s, b, success);
            b < |s.attachments| == |t.attachments| && t.attachments[b].release == Released(success)
  {
  }

  lemma HeldCanEnd(s: State, b: nat) returns (more: seq<Action>)
    requires CanAdvanceRelease(s, b) && !s.attachments[b].lease.Acquiring?
    ensures var t := RunFrom(s, more); Beside(s, t, b) && t.attachments[b].release.Released?
  {
    Advances(s, b);
    Advanced(s, b);
    hide AttachmentStepped, AttachmentEnabled, Beside, ReleaseAdvanced;
    var t := ReleaseAdvanced(s, b);
    var rest := [];
    if s.attachments[b].lease.Held? {
      rest := LeaseCanEnd(t, b);
    } else {
      BesideItself(t, b);
    }
    more := StepThen(s, AdvanceRelease, rest, b);
  }

  lemma BesideItself(s: State, b: nat)
    requires b < |s.attachments|
    ensures RunFrom(s, []) == s && Beside(s, s, b)
  {
  }

  lemma AcquiringCanEnd(s: State, b: nat) returns (more: seq<Action>)
    requires b < |s.attachments| && s.attachments[b].session < |s.hosted|
    requires s.attachments[b].release.AwaitingLease?
    ensures var t := RunFrom(s, more); Beside(s, t, b) && t.attachments[b].release.Released?
  {
    if s.attachments[b].lease.Acquiring? {
      var t := AttachmentStepped(s, b, LeaseSettles(true));
      assert t.attachments[b] == s.attachments[b].(lease := Held);
      var rest := HeldCanEnd(t, b);
      more := StepThen(s, LeaseSettles(true), rest, b);
    } else {
      more := HeldCanEnd(s, b);
    }
  }

  lemma AdvancingCanEnd(s: State, b: nat) returns (more: seq<Action>)
    requires CanAdvanceRelease(s, b)
    ensures var t := RunFrom(s, more); Beside(s, t, b) && t.attachments[b].release.Released?
  {
    if s.attachments[b].lease.Acquiring? {
      Advances(s, b);
      Advanced(s, b);
      var rest := AcquiringCanEnd(ReleaseAdvanced(s, b), b);
      more := StepThen(s, AdvanceRelease, rest, b);
    } else {
      more := HeldCanEnd(s, b);
    }
  }

  /** A release that has begun can end by itself, with nothing else happening. */
  lemma ReleaseCanEnd(s: State, b: nat) returns (more: seq<Action>)
    requires Releasing(s, b) && s.attachments[b].session < |s.hosted|
    ensures var t := RunFrom(s, more); Beside(s, t, b) && t.attachments[b].release.Released?
  {
    match s.attachments[b].release
    case Draining(_) =>
      var first := OperationsCanEnd(s, b);
      var t := RunFrom(s, first);
      var rest := AdvancingCanEnd(t, b);
      RunFromOn(s, first, rest);
      BesideOn(s, t, RunFrom(t, rest), b);
      more := first + rest;
    case AwaitingLease => more := AcquiringCanEnd(s, b);
    case ReleasingLease => more := LeaseCanEnd(s, b);
    case Released(_) => more := [];
  }

  /** Nothing happens but to the attachments of `which`. */
  ghost predicate Around(s: State, t: State, which: set<nat>) {
    && |s.attachments| == |t.attachments| && |s.hosted| == |t.hosted|
    && (forall a | 0 <= a < |s.attachments| :: t.attachments[a].session == s.attachments[a].session)
    && (forall a | 0 <= a < |s.attachments| && a !in which :: t.attachments[a] == s.attachments[a])
    && (forall h | 0 <= h < |s.hosted| :: t.hosted[h].id == s.hosted[h].id)
    && t.removals == s.removals && t.hostedSessions == s.hostedSessions
    && (forall c | c in s.attachmentsByClient && s.attachmentsByClient[c] !in which ::
          c in t.attachmentsByClient && t.attachmentsByClient[c] == s.attachmentsByClient[c])
  }

  /** All releases of a removal can end, one after the other. */
  lemma ReleasesCanEnd(s: State, which: set<nat>) returns (more: seq<Action>)
    requires forall b | b in which :: Releasing(s, b) && s.attachments[b].session < |s.hosted|
    ensures var t := RunFrom(s, more); Around(s, t, which) && AllReleased(t, which)
    decreases |which|
  {
    if which == {} {
      more := [];
    } else {
      var b :| b in which;
      var first := ReleaseCanEnd(s, b);
      var t := RunFrom(s, first);
      assert forall other | other in which :: Releasing(t, other) && t.attachments[other].session < |t.hosted|;
      var rest := ReleasesCanEnd(t, which - {b});
      RunFromOn(s, first, rest);
      more := first + rest;
      EndedAround(s, t, RunFrom(t, rest), b, which);
    }
  }

  lemma EndedAround(s: State, t: State, u: State, b: nat, which: set<nat>)
    requires Beside(s, t, b) && t.attachments[b].release.Released? && b in which
    requires Around(t, u, which - {b}) && AllReleased(u, which - {b})
    ensures Around(s, u, which) && AllReleased(u, which)
  {
  }

  /** A removal under way that has not found an attachment can leave it behind. */
  lemma RemovalCanEnd(s: State, c: nat, a: nat, r: nat) returns (more: seq<Action>)
    requires Inv(s) && Sound(s) && r < |s.removals| && !s.removals[r].phase.RemovalDone?
    requires c in s.attachmentsByClient && s.attachmentsByClient[c] == a && a < |s.attachments| && !Releasing(s, a)
    requires s.removals[r].hosted == s.attachments[a].session && Lists(s, s.attachments[a].session)
    ensures Orphaned(RunFrom(s, more), c, a)
  {
    assert RemovalRight(s, r);
    var removal := s.removals[r];
    match removal.phase
    case RemovalCloses => more := HandleCanClose(s, c, a, r);
    case RemovalReleases(waiting) =>
      forall b | b in waiting
        ensures Releasing(s, b) && s.attachments[b].session < |s.hosted|
      {
        assert ReleaseRight(s, b);
      }
      hide Inv, Sound;
      var first := ReleasesCanEnd(s, waiting);
      var t := RunFrom(s, first);
      assert CanAdvanceRemoval(t, r);
      var advance := [OfSessions(AdvanceRemoval(r))];
      OneAdvance(t, r);
      var u := RunFrom(t, advance);
      AdvancedObjects(t, r);
      var rest := HandleCanClose(u, c, a, r);
      RunFromOn(s, first, advance);
      RunFromOn(s, first + advance, rest);
      more := first + advance + rest;
  }

  lemma OneAdvance(s: State, r: nat)
    requires CanAdvanceRemoval(s, r)
    ensures RunFrom(s, [OfSessions(AdvanceRemoval(r))]) == RemovalAdvanced(s, r)
  {
    hide RemovalAdvanced, CanAdvanceRemoval;
    var action := OfSessions(AdvanceRemoval(r));
    assert RunFrom(s, []) == s && Enabled(s, action) && Step(s, action) == RemovalAdvanced(s, r);
    assert [action][..0] == [];
  }

  lemma HandleCanClose(s: State, c: nat, a: nat, r: nat) returns (more: seq<Action>)
    requires r < |s.removals| && s.removals[r].phase.RemovalCloses?
    requires c in s.attachmentsByClient && s.attachmentsByClient[c] == a && a < |s.attachments| && !Releasing(s, a)
    requires s.removals[r].hosted == s.attachments[a].session && Lists(s, s.attachments[a].session)
    ensures Orphaned(RunFrom(s, more), c, a)
  {
    OneAdvance(s, r);
    more := [OfSessions(AdvanceRemoval(r))];
  }

  /** A client that is registered with a hosted session, and whose attachment nobody has begun to release, can be left
      registered with a session that is gone if and only if a removal of the session is under way. */
  lemma {:induction false} LeftBehindExactly(actions: seq<Action>, c: nat, a: nat)
    requires var s := Run(actions);
             && c in s.attachmentsByClient && s.attachmentsByClient[c] == a && a < |s.attachments|
             && !Releasing(s, a) && Lists(s, s.attachments[a].session)
    ensures (exists more :: Orphaned(Run(actions + more), c, a))
            <==> RemovalUnderWay(Run(actions), Run(actions).attachments[a].session)
  {
    var s := Run(actions);
    var h := s.attachments[a].session;
    InvRun(actions);
    SoundRun(actions);
    if RemovalUnderWay(s, h) {
      var r: nat :| r < |s.removals| && s.removals[r].hosted == h && !s.removals[r].phase.RemovalDone?;
      var more := RemovalCanEnd(s, c, a, r);
      RunOn(actions, more);
      assert Orphaned(Run(actions + more), c, a);
    } else {
      forall more: seq<Action>
        ensures !Orphaned(Run(actions + more), c, a)
      {
        StaysSafe(actions, more, a);
        InvRun(actions + more);
        assert IndexRight(Run(actions + more), c);
      }
    }
  }

  /** What the program looks at before it registers an attachment neither says whether the attachment is being released
      nor whether its session is being removed: with both excluded, and only then, the registration cannot be left
      behind. */
  lemma {:induction false} RegistrationIsLeftBehindExactly(actions: seq<Action>, c: nat)
    requires CanRegister(Run(actions), c) && RegistrationHolds(Run(actions), c)
    ensures var s := Run(actions);
            var a := s.running[c].pc.attachment;
            (exists more :: Orphaned(Run(actions + [OfClient(c, RegisterAttachment)] + more), c, a))
            <==> !Releasing(s, a) && RemovalUnderWay(s, s.attachments[a].session)
  {
    var s, registers := Run(actions), OfClient(c, RegisterAttachment);
    var a, t := s.running[c].pc.attachment, Registered(s, c);
    RegisteredLists(s, c);
    assert Run(actions + [registers]) == t by {
      assert (actions + [registers])[..|actions|] == actions;
      assert Enabled(s, registers) && Step(s, registers) == t;
    }
    hide Registered, Step, Enabled, RegistrationHolds, CanRegister;
    if Releasing(s, a) {
      forall more: seq<Action>
        ensures Releasing(Run(actions + [registers] + more), a)
      {
        StaysReleasing(actions + [registers], more, a);
      }
    } else {
      LeftBehindExactly(actions + [registers], c, a);
      assert RemovalUnderWay(t, t.attachments[a].session) <==> RemovalUnderWay(s, s.attachments[a].session);
    }
  }

  lemma {:induction false} StaysReleasing(actions: seq<Action>, more: seq<Action>, a: nat)
    requires Releasing(Run(actions), a)
    ensures Releasing(Run(actions + more), a)
    decreases |more|
  {
    if more == [] {
      assert actions + more == actions;
    } else {
      var front, last := more[..|more| - 1], more[|more| - 1];
      assert (actions + more)[..|actions + more| - 1] == actions + front;
      StaysReleasing(actions, front, a);
      var s := Run(actions + front);
      if Enabled(s, last) {
        StepFollows(s, last);
        assert Evolves(s.attachments[a], Step(s, last).attachments[a], s.calls, Step(s, last).calls);
      }
    }
  }

  // ---------------------------------------------------------------------------------------------------------------
  // A run that leaves a registration behind

  /** Taking `action` in `s` leads to `t`. */
  predicate Takes(s: State, action: Action, t: State) {
    Enabled(s, action) && Step(s, action) == t
  }

  lemma Next(actions: seq<Action>, action: Action, s: State, t: State)
    requires Run(actions) == s && Takes(s, action, t)
    ensures Run(actions + [action]) == t
  {
    assert (actions + [action])[..|actions|] == actions;
  }

  const ENQUEUED :=
    Initial.(chains := map[0 := Chain([Operation(None, Waiting)], Some(0))], kinds := map[0 := [Attach("a")]])

  const STARTED :=
    ENQUEUED.(chains := map[0 := Chain([Operation(None, Phase.Running)], Some(0))],
              running := map[0 := Running.Running(0, AwaitingOpen(0, None))],
              opens := [Open("a", 0, Resolving)], openingSessions := map["a" := 0])

  /** Client 0 is attaching to the session that it has opened. */
  const OPENED :=
    STARTED.(opens := [Open("a", 0, OpenSettled(Some(0)))], hosted := [Hosted("a", {})],
             hostedSessions := map["a" := 0])

  lemma StartsToAttach()
    ensures Takes(Initial, OfClient(0, EnqueueOperation(Attach("a"))), ENQUEUED)
    ensures Takes(ENQUEUED, OfClient(0, StartOperation(0)), STARTED)
  {
    var enqueued := Enqueued(Initial, 0, Attach("a"));
    assert Enqueue(Unused) == Chain([Operation(None, Waiting)], Some(0));
    assert enqueued.chains == ENQUEUED.chains;
    assert KindsOf(Initial, 0) + [Attach("a")] == [Attach("a")];
    assert enqueued.kinds == ENQUEUED.kinds;
    var begun := Begins(ENQUEUED, 0, 0);
    assert ENQUEUED.chains[0] == Chain([Operation(None, Waiting)], Some(0));
    assert [Operation(None, Waiting)][0 := Operation(None, Phase.Running)] == [Operation(None, Phase.Running)];
    assert begun.chains == STARTED.chains;
    assert AttachStarted(begun, 0, "a") == STARTED;
  }

  lemma OpensTheSession()
    ensures Takes(STARTED, OfOpening(0, ResolveSettles(true)), STARTED.(opens := [Open("a", 0, Opening)]))
    ensures Takes(STARTED.(opens := [Open("a", 0, Opening)]), OfOpening(0, OpenSettles(true)), OPENED)
  {
    var resolved := STARTED.(opens := [Open("a", 0, Opening)]);
    assert [Open("a", 0, Resolving)][0 := Open("a", 0, Opening)] == [Open("a", 0, Opening)];
    assert Resolved(STARTED, 0, true) == resolved;
    assert [Open("a", 0, Opening)][0 := Open("a", 0, OpenSettled(Some(0)))] == [Open("a", 0, OpenSettled(Some(0)))];
    assert Opened(resolved, 0, true) == OPENED;
  }

  function AcquiredBy(removals: seq<Removal>): State {
    OPENED.(openingSessions := map[], running := map[0 := Running.Running(0, GotSession(Some(0), None))],
            removals := removals)
  }

  function LeasingBy(removals: seq<Removal>, lease: Lease): State {
    AcquiredBy(removals).(running := map[0 := Running.Running(0, Leasing(0))], hosted := [Hosted("a", {0})],
                          attachments := [NewAttachment(0, 0).(lease := lease)])
  }

  function RegisteredBy(removals: seq<Removal>): State {
    LeasingBy(removals, Held).(running := map[0 := Running.Running(0, Finishing)], attachmentsByClient := map[0 := 0])
  }

  /** Client 0 attaches, whatever removals are under way. */
  lemma AcquiresTheSession(removals: seq<Removal>)
    ensures Takes(OPENED.(removals := removals), OfClient(0, AcquireSession), AcquiredBy(removals))
  {
    assert Acquired(OPENED.(removals := removals), 0) == AcquiredBy(removals);
  }

  lemma AsksForALease(removals: seq<Removal>)
    ensures Takes(AcquiredBy(removals), OfClient(0, ContinueAttach), LeasingBy(removals, Acquiring))
    ensures Takes(LeasingBy(removals, Acquiring), OfAttachment(0, LeaseSettles(true)), LeasingBy(removals, Held))
  {
    var s := AcquiredBy(removals);
    assert s.hosted[0].attachments + {0} == {0};
    assert s.hosted[0 := Hosted("a", {0})] == [Hosted("a", {0})];
    assert s.attachments + [NewAttachment(0, 0)] == [NewAttachment(0, 0).(lease := Acquiring)];
    assert LeaseBegun(s, 0, 0) == LeasingBy(removals, Acquiring);
    assert LeasingBy(removals, Acquiring).attachments[0 := NewAttachment(0, 0).(lease := Held)]
        == LeasingBy(removals, Held).attachments;
  }

  lemma GetsRegistered(removals: seq<Removal>)
    ensures Takes(LeasingBy(removals, Held), OfClient(0, RegisterAttachment), RegisteredBy(removals))
  {
    assert Registered(LeasingBy(removals, Held), 0) == RegisteredBy(removals);
  }

  const ATTACHES: seq<Action> :=
    [OfClient(0, AcquireSession), OfClient(0, ContinueAttach), OfAttachment(0, LeaseSettles(true)),
     OfClient(0, RegisterAttachment)]

  lemma Attaches(actions: seq<Action>, removals: seq<Removal>)
    requires Run(actions) == OPENED.(removals := removals)
    ensures Run(actions + ATTACHES) == RegisteredBy(removals)
  {
    hide Takes, Run, AcquiredBy, LeasingBy, RegisteredBy;
    AcquiresTheSession(removals);
    AsksForALease(removals);
    GetsRegistered(removals);
    var one := actions + [OfClient(0, AcquireSession)];
    var two := one + [OfClient(0, ContinueAttach)];
    var three := two + [OfAttachment(0, LeaseSettles(true))];
    Next(actions, OfClient(0, AcquireSession), OPENED.(removals := removals), AcquiredBy(removals));
    Next(one, OfClient(0, ContinueAttach), AcquiredBy(removals), LeasingBy(removals, Acquiring));
    Next(two, OfAttachment(0, LeaseSettles(true)), LeasingBy(removals, Acquiring), LeasingBy(removals, Held));
    Next(three, OfClient(0, RegisterAttachment), LeasingBy(removals, Held), RegisteredBy(removals));
    assert actions + ATTACHES == three + [OfClient(0, RegisterAttachment)];
  }

  const OPENS: seq<Action> :=
    [OfClient(0, EnqueueOperation(Attach("a"))), OfClient(0, StartOperation(0)),
     OfOpening(0, ResolveSettles(true)), OfOpening(0, OpenSettles(true))]

  lemma Opens()
    ensures Run(OPENS) == OPENED
  {
    StartsToAttach();
    OpensTheSession();
    hide Takes;
    assert [] + [OPENS[0]] == [OPENS[0]];
    Next([], OPENS[0], Initial, ENQUEUED);
    Next([OPENS[0]], OPENS[1], ENQUEUED, STARTED);
    assert [OPENS[0]] + [OPENS[1]] == [OPENS[0], OPENS[1]];
    assert [OPENS[0], OPENS[1]] + [OPENS[2]] == [OPENS[0], OPENS[1], OPENS[2]];
    Next([OPENS[0], OPENS[1]], OPENS[2], STARTED, STARTED.(opens := [Open("a", 0, Opening)]));
    Next([OPENS[0], OPENS[1], OPENS[2]], OPENS[3], STARTED.(opens := [Open("a", 0, Opening)]), OPENED);
    assert OPENS == [OPENS[0], OPENS[1], OPENS[2]] + [OPENS[3]];
  }

  /** A session is removed between its opening and the attachment of the client that opened it. */
  const LEAVES_BEHIND: seq<Action> :=
    OPENS + [OfSessions(RemoveSession("a")), OfSessions(AdvanceRemoval(0))] + ATTACHES + [OfSessions(AdvanceRemoval(0))]

  lemma RemovesTheSession(s: State)
    requires s == OPENED
    ensures Takes(s, OfSessions(RemoveSession("a")), s.(removals := [Removal(0, {}, RemovalReleases({}))]))
    ensures Takes(s.(removals := [Removal(0, {}, RemovalReleases({}))]), OfSessions(AdvanceRemoval(0)),
                  s.(removals := [Removal(0, {}, RemovalCloses)]))
  {
    var removed := s.(removals := [Removal(0, {}, RemovalReleases({}))]);
    assert ReleasesBegun(s, {}) == s;
    assert RemovalBegun(s, "a") == removed;
    assert removed.removals[0 := Removal(0, {}, RemovalCloses)] == [Removal(0, {}, RemovalCloses)];
    assert RemovalAdvanced(removed, 0) == s.(removals := [Removal(0, {}, RemovalCloses)]);
  }

  lemma UnlistsTheSession(s: State)
    requires s == RegisteredBy([Removal(0, {}, RemovalCloses)])
    ensures var t := RegisteredBy([Removal(0, {}, RemovalDone)]).(hostedSessions := map[]);
            Takes(s, OfSessions(AdvanceRemoval(0)), t) && Orphaned(t, 0, 0)
  {
    assert s.removals[0 := Removal(0, {}, RemovalDone)] == [Removal(0, {}, RemovalDone)];
    assert RemovalAdvanced(s, 0) == RegisteredBy([Removal(0, {}, RemovalDone)]).(hostedSessions := map[]);
  }

  /** It does happen: after this run client 0 is registered with a session that is not hosted, nobody releases its
      attachment, and nothing is under way that would. */
  lemma RemovalCanLeaveAnAttachment()
    ensures var s := Run(LEAVES_BEHIND);
            && Orphaned(s, 0, 0) && s.hostedSessions == map[]
            && forall r | 0 <= r < |s.removals| :: s.removals[r].phase.RemovalDone?
  {
    Opens();
    RemovesTheSession(OPENED);
    var closes := [Removal(0, {}, RemovalCloses)];
    UnlistsTheSession(RegisteredBy(closes));
    hide Takes, Run;
    var removed := OPENED.(removals := [Removal(0, {}, RemovalReleases({}))]);
    Next(OPENS, OfSessions(RemoveSession("a")), OPENED, removed);
    Next(OPENS + [OfSessions(RemoveSession("a"))], OfSessions(AdvanceRemoval(0)), removed, OPENED.(removals := closes));
    var before := OPENS + [OfSessions(RemoveSession("a")), OfSessions(AdvanceRemoval(0))];
    assert before == OPENS + [OfSessions(RemoveSession("a"))] + [OfSessions(AdvanceRemoval(0))];
    Attaches(before, closes);
    Next(before + ATTACHES, OfSessions(AdvanceRemoval(0)), RegisteredBy(closes),
         RegisteredBy([Removal(0, {}, RemovalDone)]).(hostedSessions := map[]));
  }
}
