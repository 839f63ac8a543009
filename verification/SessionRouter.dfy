/** The session router as the object it is. A valid router satisfies every invariant of the state machine; each stretch
    of code between two suspensions is a method that keeps it valid, takes the step of that stretch, and promises what
    a caller can rely on. `AnyRun` drives one router through a whole run. */
module SessionRouter {
  import opened Common
  import opened PromiseChain
  import opened RouterState
  import opened RouterSafety
  import opened RouterReleases
  import opened RouterTheorems
  import opened RouterHistory
  import opened RouterOrphans
  import opened RouterAims

  lemma Kept(s: State, action: Action)
    requires Inv(s) && Sound(s) && Aimed(s) && Enabled(s, action)
    ensures Inv(Step(s, action)) && Sound(Step(s, action)) && Aimed(Step(s, action))
  {
    hide Inv, Sound, Aimed, Step, Enabled;
    InvStep(s, action);
    SoundStep(s, action);
    AimedStep(s, action);
  }

  lemma Moves(s: State, c: nat, step: ClientStep)
    requires Inv(s) && Aimed(s) && ClientEnabled(s, c, step) && InTheMiddle(step)
    ensures MovedOn(s, c, ClientStepped(s, c, step))
  {
    assert AimsRight(s, c) && (step.AcquireSession? ==> OpenAims(s, s.running[c].pc.open));
    hide Inv, Aimed, ClientStepped, MiddleRight, Aims, Grows;
    MiddleGrows(s, c, step);
    MovingRight(s, c, step, Target(s, c).value);
    MiddleTarget(s, ClientStepped(s, c, step), c, Target(s, c).value);
  }

  // ---------------------------------------------------------------------------------------------------------------
  // What the invariants say about single steps

  lemma AdvancedTracks(s: State, a: nat)
    requires Inv(s) && Sound(s) && CanAdvanceRelease(s, a)
    ensures var t := ReleaseAdvanced(s, a);
            && a < |s.attachments| == |t.attachments| && t.attachments[a].operations * t.attachments[a].found == {}
            && (t.attachments[a].release.ReleasingLease? ==>
                  && t.attachments[a].lease.Held? && s.attachments[a].leaseReleases == 0
                  && t.attachments[a].leaseReleases == 1
                  && (t.attachments[a].inQueue ==> t.attachments[a].operations == {}))
  {
    hide Inv, Sound, ReleaseAdvanced, Tracks;
    AdvancedFinds(s, a);
    AdvancedOnce(s, a);
  }

  lemma AdvancedFinds(s: State, a: nat)
    requires Inv(s) && Sound(s) && CanAdvanceRelease(s, a)
    ensures var t := ReleaseAdvanced(s, a);
            a < |s.attachments| == |t.attachments| && t.attachments[a].operations * t.attachments[a].found == {}
  {
    var t := ReleaseAdvanced(s, a);
    SoundStep(s, OfAttachment(a, AdvanceRelease));
    Advances(s, a);
    AdvancedLease(s, a);
    hide Inv, Step, ReleaseAdvanced;
    assert Tracks(t.attachments[a], t.calls);
  }

  lemma AdvancedOnce(s: State, a: nat)
    requires Inv(s) && CanAdvanceRelease(s, a)
    ensures var t := ReleaseAdvanced(s, a);
            && a < |s.attachments| == |t.attachments|
            && (t.attachments[a].release.ReleasingLease? ==>
                  && t.attachments[a].lease.Held? && s.attachments[a].leaseReleases == 0
                  && t.attachments[a].leaseReleases == 1
                  && (t.attachments[a].inQueue ==> t.attachments[a].operations == {}))
  {
    var t := ReleaseAdvanced(s, a);
    InvStep(s, OfAttachment(a, AdvanceRelease));
    AdvancedLease(s, a);
    assert ReleaseRight(s, a) && ReleaseRight(t, a);
    hide Inv, Step, ReleaseAdvanced;
  }

  lemma AdvancedLease(s: State, a: nat)
    requires CanAdvanceRelease(s, a)
    ensures var t := ReleaseAdvanced(s, a);
            && |t.attachments| == |s.attachments|
            && var release := t.attachments[a].release;
               && (release.ReleasingLease? || release.AwaitingLease? || release.Released?)
               && (release.ReleasingLease? ==>
                     t.attachments[a].lease.Held?
                     && t.attachments[a].leaseReleases == s.attachments[a].leaseReleases + 1)
  {
    hide Cleared;
    match s.attachments[a].lease
    case Held =>
    case Acquiring =>
    case Denied => ClearedReleased(s, a, false);
  }

  lemma ReleasedIsNotRegistered(s: State, a: nat)
    requires Inv(s) && a < |s.attachments| && s.attachments[a].release.Released?
    ensures forall c | c in s.attachmentsByClient :: s.attachmentsByClient[c] != a
    ensures s.attachments[a].session < |s.hosted| && a !in s.hosted[s.attachments[a].session].attachments
  {
    assert ReleaseRight(s, a);
    forall c | c in s.attachmentsByClient
      ensures s.attachmentsByClient[c] != a
    {
      assert IndexRight(s, c);
    }
  }

  lemma NoOpeningLeft(s: State, c: nat)
    requires Inv(s) && c in s.running && !s.running[c].pc.AwaitingOpen?
    ensures forall id | id in s.openingSessions ::
              s.openingSessions[id] < |s.opens| && s.opens[s.openingSessions[id]].opener != c
  {
    forall id | id in s.openingSessions
      ensures s.openingSessions[id] < |s.opens| && s.opens[s.openingSessions[id]].opener != c
    {
      assert ListsRight(s, id);
    }
  }

  lemma IndexedAreAttached(s: State)
    requires Inv(s)
    ensures forall c | c in s.attachmentsByClient ::
              OwnAttachment(s, c, s.attachmentsByClient[c]) && Attached(s, s.attachmentsByClient[c])
  {
    forall c | c in s.attachmentsByClient
      ensures OwnAttachment(s, c, s.attachmentsByClient[c]) && Attached(s, s.attachmentsByClient[c])
    {
      assert IndexRight(s, c);
    }
  }

  lemma ContinuesRight(s: State, c: nat)
    requires Inv(s) && CanContinue(s, c)
    ensures var t := Continued(s, c);
            && c in t.running
            && (t.running[c].pc.Switching? ==> Releasing(t, t.running[c].pc.leaving))
            && (t.running[c].pc.Leasing? ==>
                  forall d | d in t.attachmentsByClient :: t.attachmentsByClient[d] != t.running[c].pc.attachment)
  {
    IndexedAreAttached(s);
    ContinuingStays(s, c);
    ContinuedPc(s, c);
    hide Inv, Continued;
  }

  lemma ContinuedPc(s: State, c: nat)
    requires CanContinue(s, c)
    ensures var t := Continued(s, c);
            && c in t.running
            && (t.running[c].pc.Switching? ==> Releasing(t, t.running[c].pc.leaving))
            && (t.running[c].pc.Leasing? ==> t.running[c].pc.attachment == |s.attachments|)
  {
    var pc := s.running[c].pc;
    if pc.hosted.None? || Turned(s, c) {} else if pc.current.Some? {} else {}
  }

  lemma StartsInTurn(s: State, c: nat, i: nat)
    requires Inv(s) && CanStartOperation(s, c, i)
    ensures c !in s.running
    ensures forall j | 0 <= j < i :: ChainOf(s, c).operations[j].phase.Settled?
  {
    assert ChainRight(s, c);
    StartIsAlone(s, c, i);
    StartedAlone(ChainOf(s, c), i);
  }

  lemma EndsListed(s: State, h: nat)
    requires h < |s.hosted| && MembersRight(s, h)
    ensures var t := Invalidated(s, h);
            && t.hosted == s.hosted && !Lists(t, h)
            && (Lists(s, h) ==> forall a | a in s.hosted[h].attachments :: Releasing(t, a))
  {
    hide ReleasesBegun;
    BegunObjects(s.(hostedSessions := s.hostedSessions - {s.hosted[h].id}), s.hosted[h].attachments);
  }

  lemma RemovesListed(s: State, id: string)
    requires id in s.hostedSessions ==> s.hostedSessions[id] < |s.hosted| && MembersRight(s, s.hostedSessions[id])
    ensures var t := RemovalBegun(s, id);
            && t.hosted == s.hosted
            && (!s.closing && id in s.hostedSessions ==>
                  forall a | a in s.hosted[s.hostedSessions[id]].attachments :: Releasing(t, a))
  {
    hide ReleasesBegun;
    if id in s.hostedSessions {
      BegunObjects(s, s.hosted[s.hostedSessions[id]].attachments);
    }
  }

  lemma RemovalsEnd(s: State, r: nat)
    requires Inv(s) && Sound(s) && CanAdvanceRemoval(s, r)
    ensures var t := RemovalAdvanced(s, r);
            && r < |t.removals| && AllReleased(t, t.removals[r].found)
            && (t.removals[r].phase.RemovalDone? ==> !Lists(t, t.removals[r].hosted))
  {
    assert RemovalRight(s, r);
    hide Inv, Sound, Aimed;
    if s.removals[r].phase.RemovalReleases? {} else {}
  }

  lemma AwaitsAttaching(s: State)
    requires Inv(s) && s.close.AwaitingOperations?
    ensures forall c | c in s.running && Attaching(s.running[c].pc) ::
              c in s.close.tails && s.running[c].index <= s.close.tails[c]
  {
    forall c | c in s.running && Attaching(s.running[c].pc)
      ensures c in s.close.tails && s.running[c].index <= s.close.tails[c]
    {
      assert CloseRight(s, c);
    }
  }

  lemma ClosesAttachments(s: State)
    requires Inv(s) && Sound(s) && PastOperations(s)
    ensures forall c | c in s.running :: !Attaching(s.running[c].pc)
    ensures forall h: nat, a: nat | Lists(s, h) && a in s.hosted[h].attachments :: Releasing(s, a)
  {
    forall c | c in s.running
      ensures !Attaching(s.running[c].pc)
    {
      assert CloseRight(s, c);
    }
    forall h: nat, a: nat | Lists(s, h) && a in s.hosted[h].attachments
      ensures Releasing(s, a)
    {
      assert PastRight(s, h);
    }
  }

  /** What every run promises. */
  lemma RunPromises(actions: seq<Action>)
    ensures var s := Run(actions);
            && (forall c | c in s.attachmentsByClient ::
                  OwnAttachment(s, c, s.attachmentsByClient[c]) && Attached(s, s.attachmentsByClient[c]))
            && (forall a | 0 <= a < |s.attachments| :: s.attachments[a].leaseReleases <= 1)
            && (forall c, a | Orphaned(s, c, a) :: exists r :: RemovedBy(s, a, r))
            && (s.close == CloseSettled(true) ==>
                  s.hostedSessions == map[] && s.openingSessions == map[] && s.attachmentsByClient == map[])
  {
    var s := Run(actions);
    InvRun(actions);
    IndexedAreAttached(s);
    ClosedHasNothing(s);
    forall a | 0 <= a < |s.attachments|
      ensures s.attachments[a].leaseReleases <= 1
    {
      LeasesAreReleasedOnce(actions, a);
    }
    forall c, a | Orphaned(s, c, a)
      ensures exists r :: RemovedBy(s, a, r)
    {
      OrphansComeFromRemovals(actions, c, a);
    }
  }

  lemma KeepsPlaces(s: State, c: nat, kind: Kind)
    ensures ChainOf(s, c).operations <= ChainOf(Enqueued(s, c, kind), c).operations
    ensures KindsOf(Enqueued(s, c, kind), c)
            == if kind.Attach? && s.closing then KindsOf(s, c) else KindsOf(s, c) + [kind]
    ensures kind.Disconnect? ==> c in Enqueued(s, c, kind).disconnected
  {
  }

  lemma SettlesDisconnected(s: State, c: nat)
    requires CanSettleOperation(s, c)
    ensures var i := s.running[c].index;
            OperationEnded(s, c).disconnected
            == if i < |KindsOf(s, c)| && KindsOf(s, c)[i].Disconnect? then s.disconnected - {c} else s.disconnected
  {
  }

  class SessionRouter {
    var closing: bool
    var hostedSessions: map<string, nat>
    var openingSessions: map<string, nat>
    var attachmentsByClient: map<nat, nat>
    var disconnectedClients: set<nat>
    var hosted: seq<Hosted>
    var opens: seq<Open>
    var attachments: seq<Attachment>
    var clientOperations: map<nat, Chain>
    var kinds: map<nat, seq<Kind>>
    var running: map<nat, Running>
    var removals: seq<Removal>
    var close: ClosePhase
    var calls: nat

    function Contents(): State
      reads this
    {
      State(closing, hostedSessions, openingSessions, attachmentsByClient, disconnectedClients, hosted, opens,
            attachments, clientOperations, kinds, running, removals, close, calls)
    }

    ghost predicate Valid()
      reads this
    {
      Inv(Contents()) && Sound(Contents()) && Aimed(Contents())
    }

    constructor ()
      ensures Valid() && Contents() == Initial
    {
      closing, hostedSessions, openingSessions, attachmentsByClient := false, map[], map[], map[];
      disconnectedClients, hosted, opens, attachments := {}, [], [], [];
      clientOperations, kinds, running, removals := map[], map[], map[], [];
      close, calls := NotClosed, 0;
      new;
      InvRun([]);
      SoundRun([]);
      AimedRun([]);
    }

    // -------------------------------------------------------------------------------------------------------------
    // The queue of a client

    /** Nothing that has been queued before loses its place. Only an attach is refused, while the router closes; a
        client that disconnects counts as disconnected at once. */
    method RunForClient(c: nat, kind: Kind)
      requires Valid()
      modifies this`clientOperations, this`kinds, this`disconnectedClients
      ensures Valid() && Contents() == Enqueued(old(Contents()), c, kind)
      ensures ChainOf(old(Contents()), c).operations <= ChainOf(Contents(), c).operations
      ensures KindsOf(Contents(), c) == if kind.Attach? && closing then KindsOf(old(Contents()), c)
                                        else KindsOf(old(Contents()), c) + [kind]
      ensures kind.Disconnect? ==> c in disconnectedClients
    {
      hide Inv, Sound, Aimed, Enqueued;
      ghost var s := Contents();
      Kept(s, OfClient(c, EnqueueOperation(kind)));
      KeepsPlaces(s, c, kind);
      DoEnqueue(c, kind);
    }

    method DoEnqueue(c: nat, kind: Kind)
      modifies this`clientOperations, this`kinds, this`disconnectedClients
      ensures Contents() == Enqueued(old(Contents()), c, kind)
    {
      if kind.Attach? && closing {
        return;
      }
      if kind.Disconnect? {
        disconnectedClients := disconnectedClients + {c};
      }
      clientOperations := clientOperations[c := Enqueue(ChainOf(Contents(), c))];
      kinds := kinds[c := KindsOf(Contents(), c) + [kind]];
    }

    method MoveOn(c: nat, pc: Pc)
      requires c in running
      modifies this`running
      ensures Contents() == At(old(Contents()), c, pc)
    {
      running := running[c := running[c].(pc := pc)];
    }

    /** An operation has settled: none of the client's is under way. A client counts as disconnected until its
        disconnection has. */
    method SettleOperation(c: nat)
      requires Valid() && CanSettleOperation(Contents(), c)
      modifies this`running, this`clientOperations, this`disconnectedClients
      ensures Valid() && Contents() == OperationEnded(old(Contents()), c)
      ensures c !in running
      ensures forall i | 0 <= i < |ChainOf(Contents(), c).operations| ::
                !ChainOf(Contents(), c).operations[i].phase.Running?
      ensures var i := old(running)[c].index;
              disconnectedClients == if i < |KindsOf(old(Contents()), c)| && KindsOf(old(Contents()), c)[i].Disconnect?
                                     then old(disconnectedClients) - {c} else old(disconnectedClients)
    {
      ghost var s := Contents();
      SettlesDisconnected(s, c);
      Kept(s, OfClient(c, ClientStep.SettleOperation));
      assert ChainRight(OperationEnded(s, c), c) && c !in OperationEnded(s, c).running;
      hide Inv, Sound, Aimed, Ordered, OperationEnded;
      DoSettle(c);
    }

    method DoSettle(c: nat)
      requires CanSettleOperation(Contents(), c)
      modifies this`running, this`clientOperations, this`disconnectedClients
      ensures Contents() == OperationEnded(old(Contents()), c)
    {
      var i := running[c].index;
      var chain, operations := ChainOf(Contents(), c), KindsOf(Contents(), c);
      if i < |operations| && operations[i].Disconnect? {
        disconnectedClients := disconnectedClients - {c};
      }
      clientOperations := clientOperations[c := SetPhase(chain, i, Phase.Settled)];
      running := running - {c};
    }

    /** The clean-up of an operation that has settled, which takes the client's queue off the map if nothing
        followed. */
    method ForgetOperation(c: nat, i: nat)
      requires Valid() && CanForget(ChainOf(Contents(), c), i)
      modifies this`clientOperations
      ensures Valid()
      ensures Contents() == ClientStepped(old(Contents()), c, ClientStep.ForgetOperation(i))
      ensures ChainOf(Contents(), c).operations == ChainOf(old(Contents()), c).operations
    {
      hide Inv, Sound, Aimed;
      ghost var s := Contents();
      Kept(s, OfClient(c, ClientStep.ForgetOperation(i)));
      clientOperations := clientOperations[c := Forget(ChainOf(Contents(), c), i)];
    }

    // -------------------------------------------------------------------------------------------------------------
    // Releases

    method ReleaseAttachment(a: nat, inQueue: bool)
      requires a < |attachments|
      modifies this`attachments
      ensures Contents() == ReleaseBegun(old(Contents()), a, inQueue)
    {
      attachments := attachments[a := Begun(attachments[a], inQueue)];
    }

    /** Begin the release of several attachments, one after the other. */
    method ReleaseAttachments(which: set<nat>)
      modifies this`attachments
      ensures Contents() == ReleasesBegun(old(Contents()), which)
    {
      ghost var before := attachments;
      var left := which;
      while left != {}
        invariant left <= which && |attachments| == |before|
        invariant forall i | 0 <= i < |before| ::
                    attachments[i] == if i in which && i !in left then Begun(before[i], false) else before[i]
        decreases left
      {
        var a :| a in left;
        if a < |attachments| {
          attachments := attachments[a := Begun(attachments[a], false)];
        }
        left := left - {a};
      }
      assert attachments == ReleasesBegun(old(Contents()), which).attachments;
    }

    method ClearAttachment(a: nat, success: bool)
      requires a < |attachments| && attachments[a].session < |hosted|
      modifies this`attachments, this`hosted, this`attachmentsByClient
      ensures Contents() == Cleared(old(Contents()), a, success)
    {
      var at := attachments[a];
      var session := hosted[at.session];
      hosted := hosted[at.session := session.(attachments := session.attachments - {a})];
      if at.client in attachmentsByClient && attachmentsByClient[at.client] == a {
        attachmentsByClient := attachmentsByClient - {at.client};
      }
      attachments := attachments[a := at.(release := Released(success))];
    }

    /** A lease is released only if it is held and never has been, and only after every operation that the release
        found. A release that began in the client's own queue leaves no operation behind. */
    method AdvanceRelease(a: nat)
      requires Valid() && CanAdvanceRelease(Contents(), a)
      modifies this`attachments, this`hosted, this`attachmentsByClient
      ensures Valid() && Contents() == ReleaseAdvanced(old(Contents()), a)
      ensures a < |attachments| && attachments[a].operations * attachments[a].found == {}
      ensures attachments[a].release.ReleasingLease? ==>
                && attachments[a].lease.Held? && old(attachments)[a].leaseReleases == 0
                && attachments[a].leaseReleases == 1
                && (attachments[a].inQueue ==> attachments[a].operations == {})
    {
      hide Inv, Sound, Aimed, ReleaseAdvanced;
      ghost var s := Contents();
      Kept(s, OfAttachment(a, AttachmentStep.AdvanceRelease));
      AdvancedTracks(s, a);
      ReleaseLease(a);
    }

    method ReleaseLease(a: nat)
      requires CanAdvanceRelease(Contents(), a)
      modifies this`attachments, this`hosted, this`attachmentsByClient
      ensures Contents() == ReleaseAdvanced(old(Contents()), a)
    {
      var at := attachments[a];
      match at.lease {
        case Held =>
          attachments := attachments[a := at.(release := ReleasingLease, leaseReleases := at.leaseReleases + 1)];
        case Acquiring =>
          attachments := attachments[a := at.(release := AwaitingLease)];
        case Denied =>
          ClearAttachment(a, false);
      }
    }

    /** The release of the lease has ended: nobody is registered with the attachment, and its session has let it go. */
    method EndRelease(a: nat, success: bool)
      requires Valid() && CanEndRelease(Contents(), a)
      modifies this`attachments, this`hosted, this`attachmentsByClient
      ensures Valid() && Contents() == Cleared(old(Contents()), a, success)
      ensures forall c | c in attachmentsByClient :: attachmentsByClient[c] != a
      ensures a < |attachments| && attachments[a].session < |hosted| && a !in hosted[attachments[a].session].attachments
    {
      ghost var s := Contents();
      Kept(s, OfAttachment(a, AttachmentStep.EndRelease(success)));
      ReleasedIsNotRegistered(Cleared(s, a, success), a);
      hide Inv, Sound, Aimed;
      ClearAttachment(a, success);
    }

    /** A lease that was asked for has been granted or denied. */
    method SettleLease(a: nat, granted: bool)
      requires Valid() && AttachmentEnabled(Contents(), a, LeaseSettles(granted))
      modifies this`attachments
      ensures Valid() && Contents() == AttachmentStepped(old(Contents()), a, LeaseSettles(granted))
      ensures a < |attachments| && attachments[a].lease == if granted then Held else Denied
    {
      hide Inv, Sound, Aimed;
      ghost var s := Contents();
      Kept(s, OfAttachment(a, LeaseSettles(granted)));
      attachments := attachments[a := attachments[a].(lease := if granted then Held else Denied)];
    }

    /** A service operation is over. */
    method SettleService(a: nat, operation: nat)
      requires Valid() && AttachmentEnabled(Contents(), a, ServiceSettles(operation))
      modifies this`attachments
      ensures Valid() && Contents() == AttachmentStepped(old(Contents()), a, ServiceSettles(operation))
      ensures a < |attachments| && operation !in attachments[a].operations && operation in attachments[a].admitted
    {
      ghost var s := Contents();
      assert Tracks(s.attachments[a], s.calls);
      hide Inv, Sound, Aimed;
      Kept(s, OfAttachment(a, ServiceSettles(operation)));
      attachments := attachments[a := attachments[a].(operations := attachments[a].operations - {operation})];
    }

    // -------------------------------------------------------------------------------------------------------------
    // Attaching

    method AttachClientNow(c: nat, id: string)
      requires c in running
      modifies this`running, this`opens, this`openingSessions
      ensures Contents() == AttachStarted(old(Contents()), c, id)
    {
      if closing || c in disconnectedClients {
        MoveOn(c, Finishing);
        return;
      }
      var current := if c in attachmentsByClient then Some(attachmentsByClient[c]) else None;
      if current.Some? && IsAttachedTo(Contents(), current.value, id) {
        MoveOn(c, Finishing);
        return;
      }
      AcquireSession(c, id, current);
    }

    /** `acquire` up to its suspension. */
    method AcquireSession(c: nat, id: string, current: Option<nat>)
      requires c in running
      modifies this`running, this`opens, this`openingSessions
      ensures var s := old(Contents());
              Contents() == if id in s.hostedSessions then At(s, c, GotSession(Some(s.hostedSessions[id]), current))
                            else if id in s.openingSessions then At(s, c, AwaitingOpen(s.openingSessions[id], current))
                            else At(s, c, AwaitingOpen(|s.opens|, current)).(
                                   opens := s.opens + [Open(id, c, Resolving)],
                                   openingSessions := s.openingSessions[id := |s.opens|])
    {
      if id in hostedSessions {
        MoveOn(c, GotSession(Some(hostedSessions[id]), current));
      } else if id in openingSessions {
        MoveOn(c, AwaitingOpen(openingSessions[id], current));
      } else {
        MoveOn(c, AwaitingOpen(|opens|, current));
        openingSessions := openingSessions[id := |opens|];
        opens := opens + [Open(id, c, Resolving)];
      }
    }

    /** A client that has got its session leaves no opening of its own on the list. */
    method AcquireReturns(c: nat)
      requires Valid() && CanAcquire(Contents(), c)
      modifies this`running, this`openingSessions
      ensures Valid() && Contents() == Acquired(old(Contents()), c)
      ensures forall id | id in openingSessions ::
                openingSessions[id] < |opens| && opens[openingSessions[id]].opener != c
      ensures MovedOn(old(Contents()), c, Contents())
    {
      ghost var s := Contents();
      Kept(s, OfClient(c, ClientStep.AcquireSession));
      NoOpeningLeft(Acquired(s, c), c);
      Moves(s, c, ClientStep.AcquireSession);
      hide Inv, Sound, Aimed, MovedOn;
      var pc := running[c].pc;
      var open := opens[pc.open];
      if open.opener == c && open.id in openingSessions && openingSessions[open.id] == pc.open {
        openingSessions := openingSessions - {open.id};
      }
      MoveOn(c, GotSession(open.phase.hosted, pc.current));
    }

    method BeginLease(c: nat, h: nat)
      requires c in running && h < |hosted|
      modifies this`running, this`attachments, this`hosted
      ensures Contents() == LeaseBegun(old(Contents()), c, h)
    {
      var a := |attachments|;
      attachments := attachments + [NewAttachment(c, h)];
      hosted := hosted[h := hosted[h].(attachments := hosted[h].attachments + {a})];
      MoveOn(c, Leasing(a));
    }

    /** With its session there, a client leaves the one it is attached to first; the attachment it asks a lease for is
        one that nobody is registered with. */
    method ContinueAttach(c: nat)
      requires Valid() && CanContinue(Contents(), c)
      modifies this`running, this`attachments, this`hosted
      ensures Valid() && Contents() == Continued(old(Contents()), c)
      ensures c in running
      ensures running[c].pc.Switching? ==> Releasing(Contents(), running[c].pc.leaving)
      ensures running[c].pc.Leasing? ==>
                forall d | d in attachmentsByClient :: attachmentsByClient[d] != running[c].pc.attachment
      ensures MovedOn(old(Contents()), c, Contents())
    {
      hide Inv, Sound, Aimed, Continued, CanContinue, MovedOn;
      ghost var s := Contents();
      Kept(s, OfClient(c, ClientStep.ContinueAttach));
      Moves(s, c, ClientStep.ContinueAttach);
      ContinuesRight(s, c);
      LeaveOrLease(c);
    }

    method LeaveOrLease(c: nat)
      requires CanContinue(Contents(), c)
      modifies this`running, this`attachments, this`hosted
      ensures Contents() == Continued(old(Contents()), c)
    {
      var pc := running[c].pc;
      if pc.hosted.None? || closing || c in disconnectedClients {
        MoveOn(c, Finishing);
      } else if pc.current.Some? {
        ReleaseAttachment(pc.current.value, true);
        MoveOn(c, Switching(pc.hosted.value, pc.current.value));
      } else {
        BeginLease(c, pc.hosted.value);
      }
    }

    /** A client is registered exactly if its session, its attachment, the client and the server are all still there,
        and then with its own attachment, which holds its lease and which its session has. */
    method RegisterAttachment(c: nat)
      requires Valid() && CanRegister(Contents(), c)
      modifies this`running, this`attachments, this`hosted, this`attachmentsByClient
      ensures Valid() && Contents() == Registered(old(Contents()), c)
      ensures var a := old(running[c].pc.attachment);
              attachmentsByClient == if RegistrationHolds(old(Contents()), c) then old(attachmentsByClient)[c := a]
                                     else old(attachmentsByClient)
      ensures forall d | d in attachmentsByClient ::
                OwnAttachment(Contents(), d, attachmentsByClient[d]) && Attached(Contents(), attachmentsByClient[d])
      ensures MovedOn(old(Contents()), c, Contents())
    {
      hide Inv, Sound, Aimed, Attached, Registered, CanRegister, RegistrationHolds, MovedOn;
      ghost var s := Contents();
      Kept(s, OfClient(c, ClientStep.RegisterAttachment));
      Moves(s, c, ClientStep.RegisterAttachment);
      RegisteredLists(s, c);
      IndexedAreAttached(Registered(s, c));
      IndexOrRelease(c);
    }

    method IndexOrRelease(c: nat)
      requires CanRegister(Contents(), c)
      modifies this`running, this`attachments, this`hosted, this`attachmentsByClient
      ensures Contents() == Registered(old(Contents()), c)
    {
      var a := running[c].pc.attachment;
      var at := attachments[a];
      var session := hosted[at.session];
      if at.lease.Denied? {
        hosted := hosted[at.session := session.(attachments := session.attachments - {a})];
        MoveOn(c, Finishing);
      } else if session.id !in hostedSessions || hostedSessions[session.id] != at.session
                || a !in session.attachments || c in disconnectedClients || closing {
        ReleaseAttachment(a, true);
        MoveOn(c, AwaitingRelease(a));
      } else {
        attachmentsByClient := attachmentsByClient[c := a];
        MoveOn(c, Finishing);
      }
    }

    /** `startServiceCall`, which admits an operation to the attachment it names. */
    method StartServiceCall(c: nat, target: string, attachment: nat) returns (admitted: bool)
      requires c in running
      modifies this`running, this`attachments, this`calls
      ensures Contents() == CallStarted(old(Contents()), c, target, attachment)
      ensures admitted ==> c in attachmentsByClient && attachmentsByClient[c] == attachment && !closing
    {
      MoveOn(c, Finishing);
      if closing || c in disconnectedClients || c !in attachmentsByClient || attachmentsByClient[c] != attachment
         || !IsAttachedTo(Contents(), attachment, target) {
        return false;
      }
      var at := attachments[attachment];
      attachments := attachments[attachment := at.(operations := at.operations + {calls},
                                                   admitted := at.admitted + {calls})];
      calls := calls + 1;
      admitted := true;
    }

    /** `detachClient` and `disconnect`, once it is their turn. */
    method LeaveSession(c: nat)
      requires c in running && (c in attachmentsByClient ==> attachmentsByClient[c] < |attachments|)
      modifies this`running, this`attachments
      ensures Contents() == LeaveStarted(old(Contents()), c)
    {
      if c in attachmentsByClient {
        ReleaseAttachment(attachmentsByClient[c], true);
        MoveOn(c, AwaitingRelease(attachmentsByClient[c]));
      } else {
        MoveOn(c, Finishing);
      }
    }

    /** It is an operation's turn: everything before it in the queue is over, and nothing of the client is under way.
        It is over at once for the reasons there are, and for no other. */
    method StartOperation(c: nat, i: nat)
      requires Valid() && CanStartOperation(Contents(), c, i)
      modifies this`clientOperations, this`running, this`opens, this`openingSessions, this`attachments, this`calls
      ensures Valid() && Contents() == Started(old(Contents()), c, i)
      ensures old(c !in running)
      ensures forall j | 0 <= j < i :: ChainOf(old(Contents()), c).operations[j].phase.Settled?
      ensures StartRight(old(Contents()), c, KindsOf(old(Contents()), c)[i], Contents())
    {
      ghost var s := Contents();
      Kept(s, OfClient(c, ClientStep.StartOperation(i)));
      StartsInTurn(s, c, i);
      StartingRight(s, c, i);
      hide Inv, Sound, Aimed, AttachStarted, CallStarted, LeaveStarted, StartRight;
      MarkRunning(c, i);
      match KindsOf(Contents(), c)[i] {
        case Attach(id) => AttachClientNow(c, id);
        case ServiceCall(target, attachment) => var _ := StartServiceCall(c, target, attachment);
        case Detach => LeaveSession(c);
        case Disconnect => LeaveSession(c);
      }
    }

    method MarkRunning(c: nat, i: nat)
      requires i < |ChainOf(Contents(), c).operations|
      modifies this`clientOperations, this`running
      ensures var s := old(Contents());
              Contents() == s.(chains := s.chains[c := SetPhase(ChainOf(s, c), i, Phase.Running)],
                               running := s.running[c := Running.Running(i, Finishing)])
    {
      clientOperations := clientOperations[c := SetPhase(ChainOf(Contents(), c), i, Phase.Running)];
      running := running[c := Running.Running(i, Finishing)];
    }

    /** A client goes on to its next session when nobody is registered with the attachment it leaves any more. */
    method SwitchSession(c: nat)
      requires Valid() && CanSwitch(Contents(), c)
      modifies this`running, this`attachments, this`hosted
      ensures Valid() && Contents() == Switched(old(Contents()), c)
      ensures forall d | d in attachmentsByClient :: attachmentsByClient[d] != old(running[c].pc.leaving)
      ensures MovedOn(old(Contents()), c, Contents())
    {
      ghost var s := Contents();
      Kept(s, OfClient(c, ClientStep.SwitchSession));
      ReleasedIsNotRegistered(s, running[c].pc.leaving);
      Moves(s, c, ClientStep.SwitchSession);
      hide Inv, Sound, Aimed, MovedOn, Switched;
      LeaseNext(c);
    }

    method LeaseNext(c: nat)
      requires CanSwitch(Contents(), c)
      modifies this`running, this`attachments, this`hosted
      ensures Contents() == Switched(old(Contents()), c)
    {
      if attachments[running[c].pc.leaving].release.success {
        BeginLease(c, running[c].pc.next);
      } else {
        MoveOn(c, Finishing);
      }
    }

    // -------------------------------------------------------------------------------------------------------------
    // Sessions

    /** `resolveSession` has settled. */
    method ResolveSettled(o: nat, found: bool)
      requires Valid() && o < |opens| && opens[o].phase.Resolving?
      modifies this`opens
      ensures Valid() && Contents() == Resolved(old(Contents()), o, found)
      ensures o < |opens| && (opens[o].phase.OpenSettled? <==> !found)
    {
      hide Inv, Sound, Aimed;
      ghost var s := Contents();
      Kept(s, OfOpening(o, ResolveSettles(found)));
      opens := opens[o := opens[o].(phase := if found then Opening else OpenSettled(None))];
    }

    /** `open` once `openSession` has settled: the session is listed unless the server is closing, and takes nobody's
        place. */
    method FinishOpen(o: nat, success: bool)
      requires Valid() && o < |opens| && opens[o].phase.Opening?
      modifies this`opens, this`hosted, this`hostedSessions
      ensures Valid() && Contents() == Opened(old(Contents()), o, success)
      ensures old(opens[o].id !in hostedSessions)
      ensures if success && !closing then Lists(Contents(), old(|hosted|)) else hostedSessions == old(hostedSessions)
    {
      ghost var s := Contents();
      Kept(s, OfOpening(o, OpenSettles(success)));
      assert OpenRight(s, o);
      hide Inv, Sound, Aimed;
      if !success {
        opens := opens[o := opens[o].(phase := OpenSettled(None))];
      } else if closing {
        opens := opens[o := opens[o].(phase := DrainingHandle)];
      } else {
        hostedSessions := hostedSessions[opens[o].id := |hosted|];
        opens := opens[o := opens[o].(phase := OpenSettled(Some(|hosted|)))];
        hosted := hosted + [Hosted(opens[o].id, {})];
      }
    }

    /** The handle of a session that opened while the server was closing has closed. */
    method DrainedHandleCloses(o: nat)
      requires Valid() && o < |opens| && opens[o].phase.DrainingHandle?
      modifies this`opens
      ensures Valid() && Contents() == WithOpen(old(Contents()), o, OpenSettled(None))
    {
      hide Inv, Sound, Aimed;
      ghost var s := Contents();
      Kept(s, OfOpening(o, OpenStep.DrainedHandleCloses));
      opens := opens[o := opens[o].(phase := OpenSettled(None))];
    }

    /** A session that has ended by itself is not listed, and if it was, all its attachments are being released. */
    method Invalidate(h: nat)
      requires Valid() && h < |hosted|
      modifies this`hostedSessions, this`attachments
      ensures Valid() && Contents() == Invalidated(old(Contents()), h)
      ensures !Lists(Contents(), h)
      ensures Lists(old(Contents()), h) ==> forall a | a in hosted[h].attachments :: Releasing(Contents(), a)
    {
      ghost var s := Contents();
      Kept(s, OfSessions(SessionEnds(h)));
      assert MembersRight(s, h);
      EndsListed(s, h);
      hide Inv, Sound, Aimed, Invalidated;
      DoInvalidate(h);
    }

    method DoInvalidate(h: nat)
      requires h < |hosted|
      modifies this`hostedSessions, this`attachments
      ensures Contents() == Invalidated(old(Contents()), h)
    {
      var id := hosted[h].id;
      if id !in hostedSessions || hostedSessions[id] != h {
        return;
      }
      hostedSessions := hostedSessions - {id};
      ReleaseAttachments(hosted[h].attachments);
    }

    /** Removing a session begins the release of every attachment it has, and leaves it listed. */
    method RemoveSession(id: string)
      requires Valid()
      modifies this`attachments, this`removals
      ensures SessionsEnabled(old(Contents()), SessionStep.RemoveSession(id))
      ensures Valid() && Contents() == RemovalBegun(old(Contents()), id)
      ensures !closing && id in hostedSessions ==>
                && hostedSessions[id] < |hosted|
                && forall a | a in hosted[hostedSessions[id]].attachments :: Releasing(Contents(), a)
    {
      ghost var s := Contents();
      assert ListsRight(s, id);
      assert id in s.hostedSessions ==> MembersRight(s, s.hostedSessions[id]);
      Kept(s, OfSessions(SessionStep.RemoveSession(id)));
      RemovesListed(s, id);
      hide Inv, Sound, Aimed, RemovalBegun;
      DoRemoveSession(id);
    }

    method DoRemoveSession(id: string)
      requires id in hostedSessions ==> hostedSessions[id] < |hosted|
      modifies this`attachments, this`removals
      ensures Contents() == RemovalBegun(old(Contents()), id)
    {
      if closing || id !in hostedSessions {
        return;
      }
      var h := hostedSessions[id];
      ReleaseAttachments(hosted[h].attachments);
      removals := removals + [Removal(h, hosted[h].attachments, RemovalReleases(hosted[h].attachments))];
    }

    /** Take a session off the list if it is the one listed. */
    method Unlist(h: nat)
      requires h < |hosted|
      modifies this`hostedSessions
      ensures Contents() == Unlisted(old(Contents()), h)
    {
      var id := hosted[h].id;
      if id in hostedSessions && hostedSessions[id] == h {
        hostedSessions := hostedSessions - {id};
      }
    }

    /** The handle is closed, and then the session unlisted, only after every attachment that the removal found has been
        released. */
    method AdvanceRemoval(r: nat)
      requires Valid() && CanAdvanceRemoval(Contents(), r)
      modifies this`removals, this`hostedSessions
      ensures Valid() && Contents() == RemovalAdvanced(old(Contents()), r)
      ensures r < |removals| && AllReleased(Contents(), removals[r].found)
      ensures removals[r].phase.RemovalDone? ==> !Lists(Contents(), removals[r].hosted)
    {
      hide Inv, Sound, Aimed, RemovalAdvanced, CanAdvanceRemoval, Lists;
      ghost var s := Contents();
      Kept(s, OfSessions(SessionStep.AdvanceRemoval(r)));
      RemovalsEnd(s, r);
      EndRemoval(r);
    }

    method EndRemoval(r: nat)
      requires CanAdvanceRemoval(Contents(), r)
      modifies this`removals, this`hostedSessions
      ensures Contents() == RemovalAdvanced(old(Contents()), r)
    {
      var removal := removals[r];
      if removal.phase.RemovalReleases? {
        removals := removals[r := removal.(phase := RemovalCloses)];
      } else {
        removals := removals[r := removal.(phase := RemovalDone)];
        Unlist(removal.hosted);
      }
    }

    // -------------------------------------------------------------------------------------------------------------
    // Closing

    method SetClosing()
      requires Valid()
      modifies this`closing
      ensures Valid() && Contents() == old(Contents()).(closing := true)
    {
      hide Inv, Sound, Aimed;
      ghost var s := Contents();
      Kept(s, OfClosing(ServerCloses));
      closing := true;
    }

    /** Closing waits for every operation that is attaching a client. */
    method BeginClose()
      requires Valid() && closing && close.NotClosed?
      modifies this`close
      ensures Valid() && Contents() == CloseBegun(old(Contents()))
      ensures close.AwaitingOperations?
      ensures forall c | c in running && Attaching(running[c].pc) ::
                c in close.tails && running[c].index <= close.tails[c]
    {
      ghost var s := Contents();
      Kept(s, OfClosing(CloseRouter));
      AwaitsAttaching(CloseBegun(s));
      hide Inv, Sound, Aimed;
      close := AwaitingOperations(
        map c | c in clientOperations && clientOperations[c].tail.Some? :: clientOperations[c].tail.value,
        set id | id in openingSessions :: openingSessions[id]);
      assert close.tails == CloseBegun(s).close.tails && close.opens == CloseBegun(s).close.opens;
    }

    /** When they are over nobody is attaching, and every attachment of a listed session is then being released. */
    method CloseAttachments()
      requires Valid() && OperationsOver(Contents())
      modifies this`attachments, this`close
      ensures Valid() && Contents() == ReleasesAwaited(old(Contents()))
      ensures forall c | c in running :: !Attaching(running[c].pc)
      ensures forall h: nat, a: nat | Lists(Contents(), h) && a in hosted[h].attachments :: Releasing(Contents(), a)
    {
      ghost var s := Contents();
      Kept(s, OfClosing(AwaitReleases));
      ClosesAttachments(ReleasesAwaited(s));
      hide Inv, Sound, Aimed, ReleasesAwaited, OperationsOver;
      DoCloseAttachments();
    }

    method DoCloseAttachments()
      modifies this`attachments, this`close
      ensures Contents() == ReleasesAwaited(old(Contents()))
    {
      var which := Listed(Contents());
      ReleaseAttachments(which);
      close := AwaitingReleases(which);
    }

    /** The handles of all listed sessions are closed next. */
    method AwaitHandles()
      requires Valid() && CloseEnabled(Contents(), CloseStep.AwaitHandles)
      modifies this`close
      ensures Valid() && Contents() == HandlesAwaited(old(Contents()))
      ensures close.ClosingHandles? && forall id | id in hostedSessions :: hostedSessions[id] in close.handles
    {
      hide Inv, Sound, Aimed;
      ghost var s := Contents();
      Kept(s, OfClosing(CloseStep.AwaitHandles));
      close := ClosingHandles(ListedSessions(Contents()), ReleaseFailed(Contents(), close.releases));
    }

    method CloseHandle(h: nat, success: bool)
      requires Valid() && close.ClosingHandles? && h in close.handles && h < |hosted|
      modifies this`close, this`hostedSessions
      ensures Valid() && Contents() == HandleClosed(old(Contents()), h, success)
      ensures success ==> !Lists(Contents(), h)
    {
      ghost var s := Contents();
      Kept(s, OfClosing(HandleCloses(h, success)));
      assert success ==> !Lists(HandleClosed(s, h, success), h);
      hide Inv, Sound, Aimed, HandleClosed, Lists;
      DoCloseHandle(h, success);
    }

    method DoCloseHandle(h: nat, success: bool)
      requires close.ClosingHandles? && h in close.handles && h < |hosted|
      modifies this`close, this`hostedSessions
      ensures Contents() == HandleClosed(old(Contents()), h, success)
    {
      close := ClosingHandles(close.handles - {h}, close.failed || !success);
      if success {
        Unlist(h);
      }
    }

    /** A close that succeeds leaves nothing hosted, being opened or attached. */
    method FinishClose() returns (success: bool)
      requires Valid() && close.ClosingHandles? && close.handles == {}
      modifies this`close, this`attachmentsByClient
      ensures Valid() && Contents() == CloseEnded(old(Contents())) && close == CloseSettled(success)
      ensures attachmentsByClient == map[]
      ensures success ==> hostedSessions == map[] && openingSessions == map[]
    {
      ghost var s := Contents();
      Kept(s, OfClosing(EndClose));
      ClosedHasNothing(CloseEnded(s));
      hide Inv, Sound, Aimed;
      success := !close.failed;
      attachmentsByClient := map[];
      close := CloseSettled(success);
    }

    // -------------------------------------------------------------------------------------------------------------
    // Whole runs

    /** Take an action if it can be taken. */
    method Perform(action: Action)
      requires Valid()
      modifies this
      ensures Valid()
      ensures var s := old(Contents()); Contents() == if Enabled(s, action) then Step(s, action) else s
    {
      match action {
        case OfClient(c, step) => PerformOfClient(c, step);
        case OfAttachment(a, step) => PerformOfAttachment(a, step);
        case OfOpening(o, step) => PerformOfOpening(o, step);
        case OfSessions(step) => PerformOfSessions(step);
        case OfClosing(step) => PerformOfClosing(step);
      }
    }

    method PerformOfClient(c: nat, step: ClientStep)
      requires Valid()
      modifies this
      ensures Valid()
      ensures var s := old(Contents()); Contents() == if ClientEnabled(s, c, step) then ClientStepped(s, c, step) else s
    {
      hide Inv, Sound, Aimed, Started, Continued, Registered, Switched, Acquired, OperationEnded, Enqueued;
      if ClientEnabled(Contents(), c, step) {
        match step {
          case EnqueueOperation(kind) => RunForClient(c, kind);
          case StartOperation(i) => StartOperation(c, i);
          case AcquireSession => AcquireReturns(c);
          case ContinueAttach => ContinueAttach(c);
          case SwitchSession => SwitchSession(c);
          case RegisterAttachment => RegisterAttachment(c);
          case SettleOperation => SettleOperation(c);
          case ForgetOperation(i) => ForgetOperation(c, i);
        }
      }
    }

    method PerformOfAttachment(a: nat, step: AttachmentStep)
      requires Valid()
      modifies this
      ensures Valid()
      ensures var s := old(Contents());
              Contents() == if AttachmentEnabled(s, a, step) then AttachmentStepped(s, a, step) else s
    {
      hide Inv, Sound, Aimed, ReleaseAdvanced, Cleared;
      if AttachmentEnabled(Contents(), a, step) {
        match step {
          case LeaseSettles(granted) => SettleLease(a, granted);
          case ServiceSettles(operation) => SettleService(a, operation);
          case AdvanceRelease => AdvanceRelease(a);
          case EndRelease(success) => EndRelease(a, success);
        }
      }
    }

    method PerformOfOpening(o: nat, step: OpenStep)
      requires Valid()
      modifies this
      ensures Valid()
      ensures var s := old(Contents()); Contents() == if OpenEnabled(s, o, step) then OpenStepped(s, o, step) else s
    {
      hide Inv, Sound, Aimed, Resolved, Opened;
      if OpenEnabled(Contents(), o, step) {
        match step {
          case ResolveSettles(found) => ResolveSettled(o, found);
          case OpenSettles(works) => FinishOpen(o, works);
          case DrainedHandleCloses => DrainedHandleCloses(o);
        }
      }
    }

    method PerformOfSessions(step: SessionStep)
      requires Valid()
      modifies this
      ensures Valid()
      ensures var s := old(Contents()); Contents() == if SessionsEnabled(s, step) then SessionsStepped(s, step) else s
    {
      hide Inv, Sound, Aimed, Invalidated, RemovalBegun, RemovalAdvanced;
      if SessionsEnabled(Contents(), step) {
        match step {
          case SessionEnds(h) => Invalidate(h);
          case RemoveSession(id) => RemoveSession(id);
          case AdvanceRemoval(r) => AdvanceRemoval(r);
        }
      }
    }

    method PerformOfClosing(step: CloseStep)
      requires Valid()
      modifies this
      ensures Valid()
      ensures var s := old(Contents()); Contents() == if CloseEnabled(s, step) then CloseStepped(s, step) else s
    {
      hide Inv, Sound, Aimed, CloseBegun, ReleasesAwaited, HandlesAwaited, HandleClosed, CloseEnded;
      if CloseEnabled(Contents(), step) {
        match step {
          case ServerCloses => SetClosing();
          case CloseRouter => BeginClose();
          case AwaitReleases => CloseAttachments();
          case AwaitHandles => AwaitHandles();
          case HandleCloses(h, closes) => CloseHandle(h, closes);
          case EndClose => var _ := FinishClose();
        }
      }
    }
  }

  /** One router driven through a whole run: whatever happens to it, every registered attachment is its client's, holds
      its lease and is among its session's; each lease is released at most once; a client is left with a session that
      is gone only by a removal that did not find its attachment; and once the router has closed it holds nothing. */
  method AnyRun(actions: seq<Action>) returns (router: SessionRouter)
    ensures fresh(router) && router.Valid() && router.Contents() == Run(actions)
    ensures forall c | c in router.attachmentsByClient ::
              && OwnAttachment(router.Contents(), c, router.attachmentsByClient[c])
              && Attached(router.Contents(), router.attachmentsByClient[c])
    ensures forall a | 0 <= a < |router.attachments| :: router.attachments[a].leaseReleases <= 1
    ensures forall c, a | Orphaned(router.Contents(), c, a) :: exists r :: RemovedBy(router.Contents(), a, r)
    ensures router.close == CloseSettled(true) ==>
              router.hostedSessions == map[] && router.openingSessions == map[] && router.attachmentsByClient == map[]
  {
    router := new SessionRouter();
    for k := 0 to |actions|
      invariant fresh(router) && router.Valid() && router.Contents() == Run(actions[..k])
    {
      assert actions[..k + 1][..k] == actions[..k];
      router.Perform(actions[k]);
    }
    assert actions[..|actions|] == actions;
    RunPromises(actions);
  }
}
