/** Which operations a lease can be released under.

    `releaseAttachment` waits for the operations it finds, but `startServiceCall` does not look at whether the
    attachment is being released, so a release begun from outside the client's queue can release the lease while
    operations are under way. They are exactly the operations admitted since the release began. */
module RouterLateCalls {
  import opened Common
  import opened PromiseChain
  import opened RouterState
  import opened RouterSafety
  import opened RouterTheorems
  import opened RouterHistory
  import opened RouterOrphans

  /** The release has got past its wait for the operations. */
  predicate PastItsWait(at: Attachment) {
    at.release.AwaitingLease? || at.release.ReleasingLease? || at.release.Released?
  }

  /** In every run, the operations under way when a lease is released, or later, were all admitted after the release
      began; so there are none if and only if every operation admitted since is over. */
  lemma {:induction false} MissedOperationsExactly(actions: seq<Action>, a: nat)
    ensures var s := Run(actions);
            a < |s.attachments| && PastItsWait(s.attachments[a]) ==>
              var at := s.attachments[a];
              && at.operations <= Late(at)
              && (at.operations == {} <==> Late(at) <= at.admitted - at.operations)
  {
    SoundRun(actions);
    hide Run;
    var s := Run(actions);
    if a < |s.attachments| && PastItsWait(s.attachments[a]) {
      var at := s.attachments[a];
      assert Tracks(at, s.calls);
      forall o | o in at.operations
        ensures o in Late(at)
      {
        assert o in at.found ==> o in at.operations * at.found;
      }
      if at.operations != {} {
        var o :| o in at.operations;
        assert o in Late(at) && o !in at.admitted - at.operations;
      }
    }
  }

  /** The step admits an operation to attachment `a` although its release has begun: it is the client's turn, and all
      that `startServiceCall` looks at is in order. */
  predicate AdmitsLate(s: State, action: Action, a: nat) {
    && action.OfClient? && action.clientStep.StartOperation?
    && var c, i := action.client, action.clientStep.index;
       CanStartOperation(s, c, i) && StartsCall(s, c, i) && KindsOf(s, c)[i].attachment == a && Releasing(s, a)
  }

  lemma QuietStep(s: State, t: State, a: nat)
    requires Follows(s, t) && t.calls == s.calls && a < |s.attachments|
    ensures a < |t.attachments| && Late(t.attachments[a]) == Late(s.attachments[a])
  {
    assert Evolves(s.attachments[a], t.attachments[a], s.calls, t.calls);
  }

  /** What admitting an operation does. */
  lemma StartedCall(s: State, c: nat, i: nat)
    requires CanStartOperation(s, c, i) && StartsCall(s, c, i)
    ensures var t, a := Started(s, c, i), KindsOf(s, c)[i].attachment;
            && a < |s.attachments|
            && var at := s.attachments[a];
               t.attachments == s.attachments[a := at.(operations := at.operations + {s.calls},
                                                       admitted := at.admitted + {s.calls})]
  {
  }

  lemma ClientLate(s: State, c: nat, step: ClientStep, a: nat)
    requires (forall b | 0 <= b < |s.attachments| :: Tracks(s.attachments[b], s.calls))
    requires ClientEnabled(s, c, step) && a < |s.attachments|
    ensures var t := ClientStepped(s, c, step);
            && a < |t.attachments|
            && var late := AdmitsLate(s, OfClient(c, step), a);
               Late(t.attachments[a]) == if late then Late(s.attachments[a]) + {s.calls} else Late(s.attachments[a])
    ensures s.calls !in Late(s.attachments[a])
  {
    assert Tracks(s.attachments[a], s.calls);
    if step.StartOperation? && StartsCall(s, c, step.index) {
      StartedCall(s, c, step.index);
      StartStepped(s, c, step.index);
      hide Started, ClientStepped;
      var t := ClientStepped(s, c, step);
      var b := KindsOf(s, c)[step.index].attachment;
      if a == b && Releasing(s, a) {
        AdmittedLate(s.attachments[a], s.calls);
      }
    } else {
      ClientStepFollows(s, c, step);
      hide ClientStepped, Follows;
      QuietStep(s, ClientStepped(s, c, step), a);
    }
  }

  lemma AdmittedLate(at: Attachment, call: nat)
    requires !at.release.NotReleasing? && Tracks(at, call)
    ensures Late(at.(operations := at.operations + {call}, admitted := at.admitted + {call})) == Late(at) + {call}
  {
  }

  /** Nothing else does: an operation gets under way behind the back of a release exactly when `startServiceCall` admits
      it. */
  lemma LateCallsExactly(s: State, action: Action, a: nat)
    requires Sound(s) && Enabled(s, action) && a < |s.attachments|
    ensures a < |Step(s, action).attachments|
    ensures Late(Step(s, action).attachments[a]) != Late(s.attachments[a]) <==> AdmitsLate(s, action, a)
    ensures AdmitsLate(s, action, a) ==> Late(Step(s, action).attachments[a]) == Late(s.attachments[a]) + {s.calls}
  {
    hide Follows, Late, ClientStepped, AttachmentStepped, OpenStepped, SessionsStepped, CloseStepped;
    match action
    case OfClient(c, step) => ClientLate(s, c, step, a);
    case OfAttachment(at, step) =>
      AttachmentStepFollows(s, at, step);
      QuietStep(s, AttachmentStepped(s, at, step), a);
    case OfOpening(o, step) =>
      OpenStepFollows(s, o, step);
      QuietStep(s, OpenStepped(s, o, step), a);
    case OfSessions(step) =>
      SessionStepFollows(s, step);
      QuietStep(s, SessionsStepped(s, step), a);
    case OfClosing(step) =>
      CloseStepFollows(s, step);
      QuietStep(s, CloseStepped(s, step), a);
  }

  // ---------------------------------------------------------------------------------------------------------------
  // A run whose release misses an operation

  /** Client 0 is attached, and its attaching operation is over. */
  const ATTACHED :=
    RegisteredBy([]).(running := map[], chains := map[0 := Chain([Operation(None, Settled)], Some(0))])

  const REMOVING :=
    ATTACHED.(attachments := [NewAttachment(0, 0).(lease := Held, release := Draining({}))],
              removals := [Removal(0, {0}, RemovalReleases({0}))])

  const QUEUED :=
    REMOVING.(chains := map[0 := Chain([Operation(None, Settled), Operation(Some(0), Waiting)], Some(1))],
              kinds := map[0 := [Attach("a"), ServiceCall("a", 0)]])

  const CALLED :=
    QUEUED.(chains := map[0 := Chain([Operation(None, Settled), Operation(Some(0), Phase.Running)], Some(1))],
            running := map[0 := Running.Running(1, Finishing)], calls := 1,
            attachments := [NewAttachment(0, 0).(lease := Held, release := Draining({}), operations := {0},
                                                 admitted := {0})])

  lemma GetsAttached()
    ensures Takes(RegisteredBy([]), OfClient(0, SettleOperation), ATTACHED)
  {
    var s := RegisteredBy([]);
    assert [Operation(None, Phase.Running)][0 := Operation(None, Settled)] == [Operation(None, Settled)];
    assert OperationEnded(s, 0).chains == ATTACHED.chains;
    assert OperationEnded(s, 0).running == ATTACHED.running;
  }

  lemma GetsRemoved()
    ensures Takes(ATTACHED, OfSessions(RemoveSession("a")), REMOVING)
  {
    assert ReleasesBegun(ATTACHED, {0}).attachments == REMOVING.attachments;
    assert RemovalBegun(ATTACHED, "a") == REMOVING;
  }

  lemma QueuesACall()
    ensures Takes(REMOVING, OfClient(0, EnqueueOperation(ServiceCall("a", 0))), QUEUED)
  {
    var t := Enqueued(REMOVING, 0, ServiceCall("a", 0));
    assert [Operation(None, Settled)] + [Operation(Some(0), Waiting)]
        == [Operation(None, Settled), Operation(Some(0), Waiting)];
    assert t.chains == QUEUED.chains;
    assert [Attach("a")] + [ServiceCall("a", 0)] == [Attach("a"), ServiceCall("a", 0)];
    assert t.kinds == QUEUED.kinds;
  }

  lemma BeginsTheCall()
    ensures CanStartOperation(QUEUED, 0, 1) && KindsOf(QUEUED, 0)[1] == ServiceCall("a", 0)
    ensures Begins(QUEUED, 0, 1) == QUEUED.(chains := CALLED.chains, running := CALLED.running)
  {
    var operations := [Operation(None, Settled), Operation(Some(0), Waiting)];
    assert QUEUED.chains[0] == Chain(operations, Some(1));
    assert operations[1 := Operation(Some(0), Phase.Running)] == [operations[0], Operation(Some(0), Phase.Running)];
    assert Begins(QUEUED, 0, 1).chains == CALLED.chains;
    assert Begins(QUEUED, 0, 1).running == CALLED.running;
  }

  lemma AdmitsTheCall(s: State)
    requires s == QUEUED.(chains := CALLED.chains, running := CALLED.running)
    ensures CallStarted(s, 0, "a", 0) == CALLED
  {
    assert CallHolds(s, 0, "a", 0);
    var at := s.attachments[0];
    assert at.operations + {0} == {0} && at.admitted + {0} == {0};
    var called := at.(operations := {0}, admitted := {0});
    assert s.attachments[0 := called] == [called];
    assert CallStarted(s, 0, "a", 0).running == CALLED.running;
  }

  lemma StartsTheCall()
    ensures Takes(QUEUED, OfClient(0, StartOperation(1)), CALLED)
  {
    BeginsTheCall();
    AdmitsTheCall(Begins(QUEUED, 0, 1));
    hide CallStarted, AttachStarted, LeaveStarted, CanStartOperation;
  }

  lemma ReleasesTheLease()
    ensures Takes(CALLED, OfAttachment(0, AdvanceRelease), ReleaseAdvanced(CALLED, 0))
    ensures var t := ReleaseAdvanced(CALLED, 0);
            t.attachments != [] && t.attachments[0].release.ReleasingLease? && t.attachments[0].operations == {0}
  {
  }

  /** A session is removed, and its client makes a call before the release goes on. */
  const MISSES_A_CALL: seq<Action> :=
    OPENS + ATTACHES + [OfClient(0, SettleOperation)] + [OfSessions(RemoveSession("a"))]
    + [OfClient(0, EnqueueOperation(ServiceCall("a", 0)))] + [OfClient(0, StartOperation(1))]
    + [OfAttachment(0, AdvanceRelease)]

  /** It does happen: after this run the lease is being released while an operation is under way. */
  lemma OutsideReleaseCanMissOperations()
    ensures var s := Run(MISSES_A_CALL);
            && s.attachments != [] && s.attachments[0].release.ReleasingLease? && s.attachments[0].operations == {0}
  {
    Opens();
    GetsAttached();
    ReleasesTheLease();
    hide Takes, Run, ReleaseAdvanced;
    assert OPENED.(removals := []) == OPENED;
    Attaches(OPENS, []);
    var attached := OPENS + ATTACHES + [OfClient(0, SettleOperation)];
    Next(OPENS + ATTACHES, OfClient(0, SettleOperation), RegisteredBy([]), ATTACHED);
    MissesACall(attached);
  }

  lemma MissesACall(actions: seq<Action>)
    requires Run(actions) == ATTACHED
    ensures Run(actions + [OfSessions(RemoveSession("a"))] + [OfClient(0, EnqueueOperation(ServiceCall("a", 0)))]
                + [OfClient(0, StartOperation(1))] + [OfAttachment(0, AdvanceRelease)])
            == ReleaseAdvanced(CALLED, 0)
  {
    GetsRemoved();
    QueuesACall();
    StartsTheCall();
    ReleasesTheLease();
    hide Takes, Run, ReleaseAdvanced;
    var removing := actions + [OfSessions(RemoveSession("a"))];
    var queued := removing + [OfClient(0, EnqueueOperation(ServiceCall("a", 0)))];
    var called := queued + [OfClient(0, StartOperation(1))];
    Next(actions, OfSessions(RemoveSession("a")), ATTACHED, REMOVING);
    Next(removing, OfClient(0, EnqueueOperation(ServiceCall("a", 0))), REMOVING, QUEUED);
    Next(queued, OfClient(0, StartOperation(1)), QUEUED, CALLED);
    Next(called, OfAttachment(0, AdvanceRelease), CALLED, ReleaseAdvanced(CALLED, 0));
  }
}
