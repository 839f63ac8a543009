/** What an attach operation is after, and what it has achieved when it is over: over every run, an operation that
    attaches a client to a session waits for that session, leases that session, and leaves the client registered with
    it. */
module RouterAims {
  import opened Common
  import opened PromiseChain
  import opened RouterState
  import opened RouterSafety
  import opened RouterTheorems
  import opened RouterHistory

  /** The session that a client's operation under way is to attach it to, if that is what it does. */
  function Target(s: State, c: nat): Option<string> {
    if c in s.running && s.running[c].index < |KindsOf(s, c)| && KindsOf(s, c)[s.running[c].index].Attach?
    then Some(KindsOf(s, c)[s.running[c].index].id) else None
  }

  predicate HostedAs(s: State, h: nat, id: string) {
    h < |s.hosted| && s.hosted[h].id == id
  }

  /** Where an operation is suspended it waits for, goes to or leases the session of this id. */
  predicate Aims(s: State, pc: Pc, id: string) {
    match pc
    case AwaitingOpen(o, _) => o < |s.opens| && s.opens[o].id == id
    case GotSession(h, _) => h.Some? ==> HostedAs(s, h.value, id)
    case Switching(next, _) => HostedAs(s, next, id)
    case Leasing(a) => a < |s.attachments| && HostedAs(s, s.attachments[a].session, id)
    case AwaitingRelease(_) => true
    case Finishing => true
  }

  /** Only attach operations attach, each to the session that it names. */
  predicate AimsRight(s: State, c: nat) {
    c in s.running && Attaching(s.running[c].pc) ==>
      Target(s, c).Some? && Aims(s, s.running[c].pc, Target(s, c).value)
  }

  /** A session that has been opened is the one that was asked for. */
  predicate OpenAims(s: State, o: nat) {
    o < |s.opens| && s.opens[o].phase.OpenSettled? && s.opens[o].phase.hosted.Some? ==>
      HostedAs(s, s.opens[o].phase.hosted.value, s.opens[o].id)
  }

  ghost predicate Aimed(s: State) {
    (forall c :: AimsRight(s, c)) && (forall o :: OpenAims(s, o))
  }

  // ---------------------------------------------------------------------------------------------------------------
  // Every step keeps it

  lemma AimsSame(s: State, t: State, pc: Pc, id: string)
    requires Aims(s, pc, id) && Grows(s, t)
    ensures Aims(t, pc, id)
  {
    match pc
    case AwaitingOpen(_, _) =>
    case GotSession(_, _) =>
    case Switching(_, _) =>
    case Leasing(_) =>
    case AwaitingRelease(_) =>
    case Finishing =>
  }

  /** A client whose operation stays where it is. */
  lemma StayingAims(s: State, t: State, c: nat)
    requires AimsRight(s, c) && Grows(s, t) && (c in t.running ==> c in s.running && t.running[c] == s.running[c])
    requires |KindsOf(s, c)| <= |KindsOf(t, c)| && KindsOf(t, c)[..|KindsOf(s, c)|] == KindsOf(s, c)
    ensures AimsRight(t, c)
  {
    hide Grows, Aims;
    if c in t.running && Attaching(t.running[c].pc) {
      AimsSame(s, t, s.running[c].pc, Target(s, c).value);
      var i := s.running[c].index;
      assert KindsOf(t, c)[..|KindsOf(s, c)|][i] == KindsOf(t, c)[i];
    }
  }

  lemma OpensSame(s: State, t: State, o: nat)
    requires OpenAims(s, o) && Grows(s, t) && (o < |t.opens| ==> o < |s.opens| && t.opens[o] == s.opens[o])
    ensures OpenAims(t, o)
  {
  }

  lemma KindsSame(s: State, t: State, c: nat)
    requires t.kinds == s.kinds
    ensures |KindsOf(s, c)| <= |KindsOf(t, c)| && KindsOf(t, c)[..|KindsOf(s, c)|] == KindsOf(s, c)
  {
    assert KindsOf(t, c)[..|KindsOf(s, c)|] == KindsOf(s, c);
  }

  /** What becomes of an operation when its turn comes. An attach operation is over at once exactly if the client is
      turned away or is registered with its session already; a service call is admitted exactly if the client is
      registered with the attachment that it names, of the session that it names; a client that leaves has its
      attachment released. */
  predicate StartRight(s: State, c: nat, kind: Kind, t: State) {
    && c in t.running
    && var pc := t.running[c].pc;
       match kind
       case Attach(id) =>
         && (pc.Finishing? <==> Turned(s, c) || RegisteredWith(s, c, id))
         && (!pc.Finishing? ==>
               && Aims(t, pc, id) && (pc.GotSession? || pc.AwaitingOpen?)
               && pc.current == (if c in s.attachmentsByClient then Some(s.attachmentsByClient[c]) else None)
               && (pc.GotSession? <==> id in s.hostedSessions)
               && (pc.GotSession? ==> pc.hosted == Some(s.hostedSessions[id]))
               && (pc.AwaitingOpen? ==> id in t.openingSessions && t.openingSessions[id] == pc.open))
       case ServiceCall(target, a) =>
         && pc.Finishing?
         && if !Turned(s, c) && RegisteredWith(s, c, target) && s.attachmentsByClient[c] == a then
              && |t.attachments| == |s.attachments| && t.calls == s.calls + 1
              && t.attachments[a].operations == s.attachments[a].operations + {s.calls}
            else t.attachments == s.attachments && t.calls == s.calls
       case _ =>
         if c in s.attachmentsByClient then
           pc == AwaitingRelease(s.attachmentsByClient[c]) && Releasing(t, s.attachmentsByClient[c])
         else pc.Finishing?
  }

  /** The client is registered with an attachment of the session of this id. */
  predicate RegisteredWith(s: State, c: nat, id: string) {
    && c in s.attachmentsByClient && s.attachmentsByClient[c] < |s.attachments|
    && HostedAs(s, s.attachments[s.attachmentsByClient[c]].session, id)
  }

  lemma StartingRight(s: State, c: nat, i: nat)
    requires CanStartOperation(s, c, i) && (forall id :: ListsRight(s, id))
    ensures StartRight(s, c, KindsOf(s, c)[i], Started(s, c, i))
  {
    var begun := Begins(s, c, i);
    match KindsOf(s, c)[i]
    case Attach(id) =>
      assert ListsRight(s, id);
      AttachingRight(begun, c, id);
    case ServiceCall(target, a) => CallingRight(begun, c, target, a);
    case Detach => LeavingRight(begun, c);
    case Disconnect => LeavingRight(begun, c);
  }

  lemma AttachingRight(s: State, c: nat, id: string)
    requires c in s.running
    requires id in s.hostedSessions ==> HostedAs(s, s.hostedSessions[id], id)
    requires id in s.openingSessions ==>
               s.openingSessions[id] < |s.opens| && s.opens[s.openingSessions[id]].id == id
    ensures StartRight(s, c, Attach(id), AttachStarted(s, c, id))
  {
    var current := if c in s.attachmentsByClient then Some(s.attachmentsByClient[c]) else None;
    if Turned(s, c) {
    } else if current.Some? && IsAttachedTo(s, current.value, id) {
    } else if id in s.hostedSessions {
    } else if id in s.openingSessions {
    } else {
    }
  }

  lemma CallingRight(s: State, c: nat, target: string, a: nat)
    requires c in s.running
    ensures StartRight(s, c, ServiceCall(target, a), CallStarted(s, c, target, a))
  {
    if CallHolds(s, c, target, a) {} else {}
  }

  lemma LeavingRight(s: State, c: nat)
    requires c in s.running && (c in s.attachmentsByClient ==> s.attachmentsByClient[c] < |s.attachments|)
    ensures StartRight(s, c, Detach, LeaveStarted(s, c)) && StartRight(s, c, Disconnect, LeaveStarted(s, c))
  {
    if c in s.attachmentsByClient {} else {}
  }

  lemma StartingAims(s: State, c: nat, i: nat)
    requires CanStartOperation(s, c, i) && (forall id :: ListsRight(s, id))
    ensures AimsRight(Started(s, c, i), c)
  {
    var t := Started(s, c, i);
    StartingRight(s, c, i);
    StartingGrows(s, c, i);
    hide Started, Grows, Aims, ListsRight, CanStart;
    assert KindsOf(t, c) == KindsOf(s, c) && t.running[c].index == i;
  }

  lemma StartingOpens(s: State, c: nat, i: nat, o: nat)
    requires CanStartOperation(s, c, i) && OpenAims(s, o)
    ensures OpenAims(Started(s, c, i), o)
  {
    var t := Started(s, c, i);
    StartingGrows(s, c, i);
    StartedOpens(s, c, i);
    hide Started, CanStart;
    if o < |s.opens| {
      OpensSame(s, t, o);
    }
  }

  lemma StartedOpens(s: State, c: nat, i: nat)
    requires CanStartOperation(s, c, i)
    ensures var t := Started(s, c, i);
            && |s.opens| <= |t.opens| && t.opens[..|s.opens|] == s.opens
            && forall o | |s.opens| <= o < |t.opens| :: t.opens[o].phase.Resolving?
  {
    hide AttachStarted, CallStarted, LeaveStarted, SetPhase, CanStart;
    match KindsOf(s, c)[i]
    case Attach(id) => AttachedOpens(Begins(s, c, i), c, id);
    case ServiceCall(target, a) => CalledOpens(Begins(s, c, i), c, target, a);
    case Detach => LeftOpens(Begins(s, c, i), c);
    case Disconnect => LeftOpens(Begins(s, c, i), c);
  }

  lemma LeftOpens(s: State, c: nat)
    requires c in s.running && (c in s.attachmentsByClient ==> s.attachmentsByClient[c] < |s.attachments|)
    ensures LeaveStarted(s, c).opens == s.opens
  {
    if c in s.attachmentsByClient {} else {}
  }

  lemma AttachedOpens(s: State, c: nat, id: string)
    requires c in s.running
    ensures var t := AttachStarted(s, c, id);
            && |s.opens| <= |t.opens| && t.opens[..|s.opens|] == s.opens
            && forall o | |s.opens| <= o < |t.opens| :: t.opens[o].phase.Resolving?
  {
    if Turned(s, c) {} else if RegisteredWith(s, c, id) {} else if id in s.hostedSessions {}
    else if id in s.openingSessions {} else {}
  }

  lemma CalledOpens(s: State, c: nat, target: string, a: nat)
    requires c in s.running
    ensures CallStarted(s, c, target, a).opens == s.opens
  {
    if CallHolds(s, c, target, a) {} else {}
  }

  /** Why an attach operation goes no further: its session was not opened, the client is turned away, what it left could
      not be released, or it has come to its registration. */
  predicate Stops(s: State, c: nat) {
    c in s.running &&
    match s.running[c].pc
    case GotSession(h, _) => h.None? || Turned(s, c)
    case Switching(_, leaving) => leaving < |s.attachments| && s.attachments[leaving].release == Released(false)
    case Leasing(_) => true
    case _ => false
  }

  /** An attach operation that moves on: it stops for the reasons there are and for no other, and it stays after its own
      session. The client is registered, with its session, exactly if the registration holds. */
  predicate MiddleRight(s: State, c: nat, id: string, t: State) {
    && c in s.running && c in t.running
    && var pc, next := s.running[c].pc, t.running[c].pc;
       && (Attaching(next) <==> !Stops(s, c))
       && Aims(t, next, id)
       && if pc.Leasing? && CanRegister(s, c) && RegistrationHolds(s, c) then
            && next.Finishing? && RegisteredWith(t, c, id)
            && t.attachmentsByClient == s.attachmentsByClient[c := pc.attachment]
          else t.attachmentsByClient == s.attachmentsByClient
  }

  /** The same, of the session that the operation is to attach its client to. */
  predicate MovedOn(s: State, c: nat, t: State) {
    Target(s, c).Some? && Target(t, c) == Target(s, c) && MiddleRight(s, c, Target(s, c).value, t)
  }

  lemma MovingRight(s: State, c: nat, step: ClientStep, id: string)
    requires ClientEnabled(s, c, step) && InTheMiddle(step) && Aims(s, s.running[c].pc, id)
    requires step.AcquireSession? ==> OpenAims(s, s.running[c].pc.open)
    ensures MiddleRight(s, c, id, ClientStepped(s, c, step))
  {
    hide Registered, Continued, Switched, Acquired, Aims, RegistrationHolds, RegisteredWith;
    match step
    case AcquireSession => AcquiringRight(s, c, id);
    case ContinueAttach => ContinuingRight(s, c, id);
    case SwitchSession => SwitchingRight(s, c, id);
    case RegisterAttachment => RegisteringRight(s, c, id);
  }

  lemma AcquiringRight(s: State, c: nat, id: string)
    requires CanAcquire(s, c) && Aims(s, s.running[c].pc, id) && OpenAims(s, s.running[c].pc.open)
    ensures MiddleRight(s, c, id, Acquired(s, c))
  {
  }

  lemma LeasingRight(s: State, c: nat, h: nat, id: string)
    requires c in s.running && HostedAs(s, h, id)
    ensures var t := LeaseBegun(s, c, h);
            && c in t.running && t.running[c].pc.Leasing? && Aims(t, t.running[c].pc, id)
            && t.attachmentsByClient == s.attachmentsByClient
  {
  }

  lemma ContinuingRight(s: State, c: nat, id: string)
    requires CanContinue(s, c) && Aims(s, s.running[c].pc, id)
    ensures MiddleRight(s, c, id, Continued(s, c))
  {
    hide LeaseBegun, ReleaseBegun, RegistrationHolds;
    var pc := s.running[c].pc;
    if pc.hosted.None? || Turned(s, c) {
    } else if pc.current.Some? {
      LetGoAims(s, c, pc.current.value, pc.hosted.value, id);
    } else {
      LeasingRight(s, c, pc.hosted.value, id);
    }
  }

  lemma LetGoAims(s: State, c: nat, a: nat, h: nat, id: string)
    requires c in s.running && a < |s.attachments| && HostedAs(s, h, id)
    ensures var t := At(ReleaseBegun(s, a, true), c, Switching(h, a));
            && c in t.running && Aims(t, t.running[c].pc, id) && t.running[c].pc.Switching?
            && t.attachmentsByClient == s.attachmentsByClient
  {
  }

  lemma SwitchingRight(s: State, c: nat, id: string)
    requires CanSwitch(s, c) && Aims(s, s.running[c].pc, id)
    ensures MiddleRight(s, c, id, Switched(s, c))
  {
    hide LeaseBegun, RegistrationHolds;
    var pc := s.running[c].pc;
    if s.attachments[pc.leaving].release.success {
      LeasingRight(s, c, pc.next, id);
      assert s.attachments[pc.leaving].release != Released(false);
    } else {
      assert s.attachments[pc.leaving].release == Released(false);
    }
  }

  lemma RegisteringRight(s: State, c: nat, id: string)
    requires CanRegister(s, c) && Aims(s, s.running[c].pc, id)
    ensures MiddleRight(s, c, id, Registered(s, c))
  {
    hide ReleaseBegun;
    var a := s.running[c].pc.attachment;
    if s.attachments[a].lease.Denied? {
    } else if RegistrationHolds(s, c) {
      IndexedRight(s, c, id);
    } else {
      LetGoIndexed(s, c, a, AwaitingRelease(a));
      LetGoWaits(s, c, a);
    }
  }

  lemma IndexedRight(s: State, c: nat, id: string)
    requires CanRegister(s, c) && Aims(s, s.running[c].pc, id) && RegistrationHolds(s, c)
    ensures var a, t := s.running[c].pc.attachment, Registered(s, c);
            && c in t.running && t.running[c].pc.Finishing? && RegisteredWith(t, c, id)
            && t.attachmentsByClient == s.attachmentsByClient[c := a]
  {
  }

  lemma LetGoWaits(s: State, c: nat, a: nat)
    requires c in s.running && a < |s.attachments|
    ensures var t := At(ReleaseBegun(s, a, true), c, AwaitingRelease(a));
            c in t.running && t.running[c].pc == AwaitingRelease(a)
  {
  }

  lemma MiddleOpens(s: State, c: nat, step: ClientStep)
    requires ClientEnabled(s, c, step) && InTheMiddle(step)
    ensures ClientStepped(s, c, step).opens == s.opens
  {
    hide Registered, Continued;
    match step
    case AcquireSession =>
    case ContinueAttach => ContinuedOpens(s, c);
    case SwitchSession => if s.attachments[s.running[c].pc.leaving].release.success {} else {}
    case RegisterAttachment => RegisteredOpens(s, c);
  }

  lemma ContinuedOpens(s: State, c: nat)
    requires CanContinue(s, c)
    ensures Continued(s, c).opens == s.opens
  {
    var pc := s.running[c].pc;
    if pc.hosted.None? || Turned(s, c) {} else if pc.current.Some? {} else {}
  }

  lemma RegisteredOpens(s: State, c: nat)
    requires CanRegister(s, c)
    ensures Registered(s, c).opens == s.opens
  {
    if s.attachments[s.running[c].pc.attachment].lease.Denied? {} else if RegistrationHolds(s, c) {} else {}
  }

  lemma MiddleAims(s: State, c: nat, step: ClientStep)
    requires ClientEnabled(s, c, step) && InTheMiddle(step) && Aimed(s)
    ensures AimsRight(ClientStepped(s, c, step), c)
  {
    var t := ClientStepped(s, c, step);
    assert AimsRight(s, c) && (step.AcquireSession? ==> OpenAims(s, s.running[c].pc.open));
    hide Aimed, Aims, ClientStepped, MiddleRight, Grows;
    MiddleGrows(s, c, step);
    MovingRight(s, c, step, Target(s, c).value);
    MiddleTarget(s, t, c, Target(s, c).value);
  }

  lemma MiddleTarget(s: State, t: State, c: nat, id: string)
    requires MiddleRight(s, c, id, t) && QueuesBut(s, t, c) && Target(s, c) == Some(id)
    ensures AimsRight(t, c) && Target(t, c) == Some(id)
  {
  }

  lemma QueueingAims(s: State, c: nat, step: ClientStep)
    requires ClientEnabled(s, c, step) && Aimed(s) && !InTheMiddle(step) && !step.StartOperation?
    ensures Aimed(ClientStepped(s, c, step))
  {
    var t := ClientStepped(s, c, step);
    QueueingFrame(s, c, step);
    hide Aims, Grows, ClientStepped, ClientEnabled;
    forall other: nat
      ensures AimsRight(t, other)
    {
      StayingAims(s, t, other);
    }
    forall o: nat
      ensures OpenAims(t, o)
    {
      OpensSame(s, t, o);
    }
  }

  lemma QueueingFrame(s: State, c: nat, step: ClientStep)
    requires ClientEnabled(s, c, step) && !InTheMiddle(step) && !step.StartOperation?
    ensures var t := ClientStepped(s, c, step);
            && Grows(s, t) && t.opens == s.opens && (t.running == s.running || t.running == s.running - {c})
            && forall other ::
                 |KindsOf(s, other)| <= |KindsOf(t, other)|
                 && KindsOf(t, other)[..|KindsOf(s, other)|] == KindsOf(s, other)
  {
    match step
    case EnqueueOperation(_) =>
    case SettleOperation =>
    case ForgetOperation(_) =>
  }

  lemma ClientAims(s: State, c: nat, step: ClientStep)
    requires ClientEnabled(s, c, step) && Aimed(s) && (forall id :: ListsRight(s, id))
    ensures Aimed(ClientStepped(s, c, step))
  {
    hide ClientStepped, Started, Grows, Aims, OpenAims, ListsRight, ClientEnabled;
    var t := ClientStepped(s, c, step);
    if InTheMiddle(step) {
      MiddleGrows(s, c, step);
      MiddleOpens(s, c, step);
      MiddleAims(s, c, step);
      OthersAim(s, t, c);
      AllOpensSame(s, t);
    } else if step.StartOperation? {
      StartEnabled(s, c, step.index);
      StartStepped(s, c, step.index);
      StartingGrows(s, c, step.index);
      StartingAims(s, c, step.index);
      OthersAim(s, t, c);
      forall o: nat
        ensures OpenAims(t, o)
      {
        StartingOpens(s, c, step.index, o);
      }
    } else {
      QueueingAims(s, c, step);
    }
  }

  lemma StartEnabled(s: State, c: nat, i: nat)
    requires ClientEnabled(s, c, StartOperation(i))
    ensures CanStartOperation(s, c, i)
  {
  }

  lemma OthersAim(s: State, t: State, c: nat)
    requires Aimed(s) && Grows(s, t) && t.kinds == s.kinds && AimsRight(t, c)
    requires OthersRun(s, t, c) || QueuesBut(s, t, c)
    ensures forall other :: AimsRight(t, other)
  {
    hide Grows, AimsRight;
    forall other: nat
      ensures AimsRight(t, other)
    {
      if other != c {
        KindsSame(s, t, other);
        StayingAims(s, t, other);
      }
    }
  }

  lemma AllOpensSame(s: State, t: State)
    requires Aimed(s) && Grows(s, t) && t.opens == s.opens
    ensures forall o :: OpenAims(t, o)
  {
    hide Grows;
    forall o: nat
      ensures OpenAims(t, o)
    {
      OpensSame(s, t, o);
    }
  }

  lemma AllAimSame(s: State, t: State)
    requires Aimed(s) && Grows(s, t) && SameOperations(s, t)
    ensures forall c :: AimsRight(t, c)
  {
    hide Grows, AimsRight;
    forall c: nat
      ensures AimsRight(t, c)
    {
      KindsSame(s, t, c);
      StayingAims(s, t, c);
    }
  }

  lemma OpeningAims(s: State, o: nat, step: OpenStep)
    requires OpenEnabled(s, o, step) && Aimed(s)
    ensures Aimed(OpenStepped(s, o, step))
  {
    var t := OpenStepped(s, o, step);
    OpensGrow(s, o, step);
    AllAimSame(s, t);
    forall other: nat
      ensures OpenAims(t, other)
    {
      if other == o {
        OpenedAims(s, o, step);
      } else {
        OpenedOthers(s, o, step, other);
        OpensSame(s, t, other);
      }
    }
  }

  lemma OpenedAims(s: State, o: nat, step: OpenStep)
    requires OpenEnabled(s, o, step)
    ensures OpenAims(OpenStepped(s, o, step), o)
  {
    if step.OpenSettles? {
      if !step.works {} else if s.closing {} else {}
    }
  }

  lemma OpenedOthers(s: State, o: nat, step: OpenStep, other: nat)
    requires OpenEnabled(s, o, step) && other != o
    ensures var t := OpenStepped(s, o, step);
            |t.opens| == |s.opens| && (other < |t.opens| ==> t.opens[other] == s.opens[other])
  {
    hide WithOpen;
    match step
    case ResolveSettles(found) => PhasedOthers(s, o, if found then Opening else OpenSettled(None), other);
    case DrainedHandleCloses => PhasedOthers(s, o, OpenSettled(None), other);
    case OpenSettles(works) =>
      if !works {
        PhasedOthers(s, o, OpenSettled(None), other);
      } else if s.closing {
        PhasedOthers(s, o, DrainingHandle, other);
      } else {
        PhasedOthers(s, o, OpenSettled(Some(|s.hosted|)), other);
      }
  }

  lemma PhasedOthers(s: State, o: nat, phase: OpenPhase, other: nat)
    requires o < |s.opens| && other != o
    ensures var t := WithOpen(s, o, phase);
            |t.opens| == |s.opens| && (other < |t.opens| ==> t.opens[other] == s.opens[other])
  {
  }

  lemma AimedStep(s: State, a: Action)
    requires Inv(s) && Aimed(s) && Enabled(s, a)
    ensures Aimed(Step(s, a))
  {
    hide Aimed, Grows, ClientStepped, AttachmentStepped, OpenStepped, SessionsStepped, CloseStepped;
    match a
    case OfClient(c, step) => ClientAims(s, c, step);
    case OfAttachment(at, step) =>
      AttachmentsGrow(s, at, step);
      AttachmentStepLists(s, at, step);
      AimedSame(s, Step(s, a));
    case OfOpening(o, step) => OpeningAims(s, o, step);
    case OfSessions(step) =>
      SessionsGrow(s, step);
      SessionStepLists(s, step);
      AimedSame(s, Step(s, a));
    case OfClosing(step) =>
      ClosingGrows(s, step);
      ClosingOpens(s, step);
      AimedSame(s, Step(s, a));
  }

  lemma AimedSame(s: State, t: State)
    requires Aimed(s) && Grows(s, t) && SameOperations(s, t) && t.opens == s.opens
    ensures Aimed(t)
  {
    AllAimSame(s, t);
    AllOpensSame(s, t);
  }

  lemma ClosingOpens(s: State, step: CloseStep)
    requires CloseEnabled(s, step)
    ensures CloseStepped(s, step).opens == s.opens
  {
    match step
    case AwaitReleases => BegunObjects(s, Listed(s));
    case HandleCloses(_, _) =>
    case ServerCloses =>
    case CloseRouter =>
    case AwaitHandles =>
    case EndClose =>
  }

  lemma {:induction false} AimedRun(actions: seq<Action>)
    ensures Aimed(Run(actions))
    decreases |actions|
  {
    hide Aimed, Step, Enabled;
    if actions != [] {
      var before, last := Run(actions[..|actions| - 1]), actions[|actions| - 1];
      InvRun(actions[..|actions| - 1]);
      AimedRun(actions[..|actions| - 1]);
      if Enabled(before, last) {
        AimedStep(before, last);
      } else {
        assert Run(actions) == before;
      }
    } else {
      NothingAimed();
    }
  }

  lemma NothingAimed()
    ensures Aimed(Run([]))
  {
  }

  // ---------------------------------------------------------------------------------------------------------------
  // The theorems

  /** Over every run: an operation that starts is over at once for the reasons there are and for no other. */
  lemma OperationsStartRight(actions: seq<Action>, c: nat, i: nat)
    requires CanStartOperation(Run(actions), c, i)
    ensures var s, t := Run(actions), Run(actions + [OfClient(c, StartOperation(i))]);
            StartRight(s, c, KindsOf(s, c)[i], t)
  {
    InvRun(actions);
    var a := OfClient(c, StartOperation(i));
    assert (actions + [a])[..|actions|] == actions;
    StartStepped(Run(actions), c, i);
    StartingRight(Run(actions), c, i);
    hide Started, StartRight, ClientStepped;
  }

  /** Over every run: the operation that is attaching a client stops only where it has a reason to, and an attach whose
      session was obtained, whose release succeeded if one was needed and whose registration held leaves the client
      registered with an attachment of the session that the operation names. */
  lemma AttachesReachTheirSession(actions: seq<Action>, c: nat, step: ClientStep)
    requires ClientEnabled(Run(actions), c, step) && InTheMiddle(step)
    ensures MovedOn(Run(actions), c, Run(actions + [OfClient(c, step)]))
  {
    InvRun(actions);
    AimedRun(actions);
    var s, a := Run(actions), OfClient(c, step);
    assert (actions + [a])[..|actions|] == actions;
    assert AimsRight(s, c) && (step.AcquireSession? ==> OpenAims(s, s.running[c].pc.open));
    hide Inv, Aimed, Run, ClientStepped, MiddleRight, Aims, Grows;
    MiddleGrows(s, c, step);
    MovingRight(s, c, step, Target(s, c).value);
    MiddleTarget(s, ClientStepped(s, c, step), c, Target(s, c).value);
  }

  /** What an operation under way waits for is there. */
  predicate Awaited(s: State, pc: Pc) {
    match pc
    case AwaitingOpen(o, _) => o < |s.opens| && s.opens[o].phase.OpenSettled?
    case GotSession(_, _) => true
    case Switching(_, leaving) => leaving < |s.attachments| && s.attachments[leaving].release.Released?
    case Leasing(a) => a < |s.attachments| && !s.attachments[a].lease.Acquiring?
    case AwaitingRelease(a) => a < |s.attachments| && s.attachments[a].release.Released?
    case Finishing => true
  }

  /** The next step of an operation. */
  function NextStep(pc: Pc): ClientStep {
    match pc
    case AwaitingOpen(_, _) => AcquireSession
    case GotSession(_, _) => ContinueAttach
    case Switching(_, _) => SwitchSession
    case Leasing(_) => RegisterAttachment
    case AwaitingRelease(_) => SettleOperation
    case Finishing => SettleOperation
  }

  /** Over every run: an operation under way can take its next step exactly when the opening, the release or the lease
      that it waits for is over; and one that waits its turn can start exactly when every earlier one is over. */
  lemma OperationsGoOn(actions: seq<Action>, c: nat)
    ensures var s := Run(actions);
            && (c in s.running ==>
                  (ClientEnabled(s, c, NextStep(s.running[c].pc)) <==> Awaited(s, s.running[c].pc)))
            && forall i: nat | i < |ChainOf(s, c).operations| && ChainOf(s, c).operations[i].phase.Waiting? ::
                 ClientEnabled(s, c, StartOperation(i)) <==> SettledUpTo(ChainOf(s, c), i)
  {
    InvRun(actions);
    var s := Run(actions);
    assert ChainRight(s, c) && PcRight(s, c) && IndexRight(s, c);
    if c in s.running && s.running[c].pc.Leasing? {
      assert ReleaseRight(s, s.running[c].pc.attachment);
    }
    hide Inv, Run;
    if c in s.running {
      GoesOn(s, c);
    }
    forall i: nat | i < |ChainOf(s, c).operations| && ChainOf(s, c).operations[i].phase.Waiting?
      ensures ClientEnabled(s, c, StartOperation(i)) <==> SettledUpTo(ChainOf(s, c), i)
    {
      StartsExactly(ChainOf(s, c), i);
      hide Ordered, CanStart;
      assert ClientEnabled(s, c, StartOperation(i)) <==> CanStartOperation(s, c, i);
    }
  }

  lemma GoesOn(s: State, c: nat)
    requires c in s.running && PcRight(s, c) && s.running[c].index < |ChainOf(s, c).operations|
    requires s.running[c].pc.Leasing? && s.running[c].pc.attachment < |s.attachments| ==>
               s.attachments[s.running[c].pc.attachment].session < |s.hosted|
    ensures ClientEnabled(s, c, NextStep(s.running[c].pc)) <==> Awaited(s, s.running[c].pc)
  {
    match s.running[c].pc
    case AwaitingOpen(_, _) =>
    case GotSession(_, _) =>
    case Switching(_, _) =>
    case Leasing(_) =>
    case AwaitingRelease(_) =>
    case Finishing =>
  }
}
