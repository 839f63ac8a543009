/** Generation-checked publication of model catalogs: what `ModelsImpl` does for one provider id.

    Every map of `ModelsImpl` is keyed by provider id and every operation touches the entries of one id only, so the
    protocol is stated for the entries of one id, a `Slice`. Each event is one stretch of code between two awaits;
    events may come in any order, and one that is not enabled changes nothing. */
module ModelCatalog {
  import opened Common
  import opened PromiseChain

  datatype Model = Model(id: string, details: int)

  type Catalog = seq<Model>

  /** The storage part of a publication: leave it alone, delete the entry, or write one. */
  datatype Persist = Keep | Delete | Write(entry: Catalog)

  datatype Stage = Queued | Persisting | Persisted | Finished(published: bool) | Threw

  /** A publication made by a refresh; `update` is the catalog its synchronous update installs, if it has one. */
  datatype Publication = Publication(refresh: nat, persist: Persist, update: Option<Catalog>, stage: Stage)

  datatype Effect =
    | StoreBegins(publication: nat, generation: nat)
    | StoreEnds(publication: nat, landed: bool)
    | Updates(publication: nat, generation: nat)
    | Reports(publication: nat, published: bool)

  datatype Slice = Slice(
    generation: nat,
    controller: Option<nat>,
    refreshes: seq<nat>,
    aborted: set<nat>,
    chain: Chain,
    publications: seq<Publication>,
    store: Option<Catalog>,
    dynamicModels: Catalog,
    log: seq<Effect>)

  datatype Event =
    | Supersede
    | BeginRefresh
    | CallerAborts(refresh: nat)
    | EndRefresh(refresh: nat)
    | Publish(refresh: nat, persist: Persist, update: Option<Catalog>)
    | Start(publication: nat)
    | StoreLands(publication: nat)
    | StoreFails(publication: nat)
    | Resume(publication: nat)
    | CleanUp(publication: nat)

  function Initial(store: Option<Catalog>): Slice {
    Slice(0, None, [], {}, Unused, [], store, [], [])
  }

  // ---------------------------------------------------------------------------------------------------------------
  // The steps

  /** A new generation; the refresh in progress, if there is one, is aborted. */
  function Superseded(s: Slice): Slice {
    s.(generation := s.generation + 1,
       controller := None,
       aborted := s.aborted + if s.controller.Some? then {s.controller.value} else {})
  }

  function Begun(s: Slice): Slice {
    var next := Superseded(s);
    next.(controller := Some(|s.refreshes|), refreshes := s.refreshes + [next.generation])
  }

  function Ended(s: Slice, refresh: nat): Slice {
    if s.controller == Some(refresh) then s.(controller := None) else s
  }

  function Enqueued(s: Slice, refresh: nat, persist: Persist, update: Option<Catalog>): Slice {
    s.(publications := s.publications + [Publication(refresh, persist, update, Queued)], chain := Enqueue(s.chain))
  }

  ghost predicate WellFormed(s: Slice) {
    && |s.chain.operations| == |s.publications|
    && (forall i: nat | i < |s.publications| :: s.publications[i].refresh < |s.refreshes|)
    && (forall r | r in s.aborted :: r < |s.refreshes|)
    && (s.controller.Some? ==> s.controller.value < |s.refreshes|)
  }

  /** The check made before the store is touched and again before the update: neither aborted nor superseded. */
  predicate Current(s: Slice, i: nat)
    requires i < |s.publications| && s.publications[i].refresh < |s.refreshes|
  {
    var refresh := s.publications[i].refresh;
    refresh !in s.aborted && s.refreshes[refresh] == s.generation
  }

  function SetStage(s: Slice, i: nat, stage: Stage): Slice
    requires i < |s.publications|
  {
    s.(publications := s.publications[i := s.publications[i].(stage := stage)])
  }

  function Settle(s: Slice, i: nat, stage: Stage): Slice
    requires i < |s.publications| == |s.chain.operations|
  {
    SetStage(s, i, stage).(chain := SetPhase(s.chain, i, Settled))
  }

  /** The last stretch: check once more, then update and report. */
  function Conclude(s: Slice, i: nat): Slice
    requires i < |s.publications| == |s.chain.operations| && s.publications[i].refresh < |s.refreshes|
  {
    if Current(s, i) then
      var update := s.publications[i].update;
      Settle(s, i, Finished(true)).(
        dynamicModels := if update.Some? then update.value else s.dynamicModels,
        log := s.log + [Updates(i, s.generation), Reports(i, true)])
    else
      Settle(s, i, Finished(false)).(log := s.log + [Reports(i, false)])
  }

  function Started(s: Slice, i: nat): Slice
    requires i < |s.publications| == |s.chain.operations| && s.publications[i].refresh < |s.refreshes|
  {
    if !Current(s, i) || s.publications[i].persist.Keep? then
      Conclude(s, i)
    else
      SetStage(s, i, Persisting).(
        chain := SetPhase(s.chain, i, Running),
        log := s.log + [StoreBegins(i, s.generation)])
  }

  function Landed(s: Slice, i: nat): Slice
    requires i < |s.publications|
  {
    var persist := s.publications[i].persist;
    SetStage(s, i, Persisted).(
      store := match persist case Write(entry) => Some(entry) case Delete => None case Keep => s.store,
      log := s.log + [StoreEnds(i, true)])
  }

  ghost predicate Enabled(s: Slice, e: Event) {
    match e
    case Supersede | BeginRefresh => true
    case CallerAborts(r) => r < |s.refreshes|
    case EndRefresh(r) => r < |s.refreshes|
    case Publish(r, _, _) => r < |s.refreshes|
    case Start(i) => i < |s.publications| && CanStart(s.chain, i)
    case StoreLands(i) => i < |s.publications| && s.publications[i].stage.Persisting?
    case StoreFails(i) => i < |s.publications| && s.publications[i].stage.Persisting?
    case Resume(i) => i < |s.publications| && s.publications[i].stage.Persisted?
    case CleanUp(i) => CanForget(s.chain, i)
  }

  ghost function Step(s: Slice, e: Event): Slice
    requires WellFormed(s)
  {
    if !Enabled(s, e) then s else
    match e
    case Supersede => Superseded(s)
    case BeginRefresh => Begun(s)
    case CallerAborts(r) => s.(aborted := s.aborted + {r})
    case EndRefresh(r) => Ended(s, r)
    case Publish(r, persist, update) => Enqueued(s, r, persist, update)
    case Start(i) => Started(s, i)
    case StoreLands(i) => Landed(s, i)
    case StoreFails(i) => Settle(s, i, Threw).(log := s.log + [StoreEnds(i, false)])
    case Resume(i) => Conclude(s, i)
    case CleanUp(i) => s.(chain := Forget(s.chain, i))
  }

  // ---------------------------------------------------------------------------------------------------------------
  // What the log must look like

  /** The publication whose store mutation is in flight after the log. */
  function InFlight(log: seq<Effect>): Option<nat> {
    if log == [] then None
    else
      match log[|log| - 1]
      case StoreBegins(i, _) => Some(i)
      case StoreEnds(_, _) => None
      case _ => InFlight(log[..|log| - 1])
  }

  /** Store mutations never overlap: one begins only when none is in flight and only the one in flight ends. */
  predicate StoreSerialized(log: seq<Effect>) {
    log == [] ||
    var front, last := log[..|log| - 1], log[|log| - 1];
    && StoreSerialized(front)
    && (last.StoreBegins? ==> InFlight(front).None?)
    && (last.StoreEnds? ==> InFlight(front) == Some(last.publication))
  }

  ghost predicate GenerationsBelow(log: seq<Effect>, bound: nat) {
    forall e | e in log && (e.Updates? || e.StoreBegins?) :: e.generation <= bound
  }

  /** The generations of updates, and those of store mutations, never decrease along the log. */
  ghost predicate Monotone(log: seq<Effect>) {
    forall j, k | 0 <= j < k < |log| ::
      && (log[j].Updates? && log[k].Updates? ==> log[j].generation <= log[k].generation)
      && (log[j].StoreBegins? && log[k].StoreBegins? ==> log[j].generation <= log[k].generation)
  }

  /** A report of success comes right after the publication's update, which comes after its own store mutation landed,
      if it has one. */
  ghost predicate ReportsAreEarned(log: seq<Effect>, publications: seq<Publication>) {
    forall k | 0 <= k < |log| && log[k].Reports? && log[k].published ::
      && log[k].publication < |publications|
      && k > 0 && log[k - 1].Updates? && log[k - 1].publication == log[k].publication
      && (!publications[log[k].publication].persist.Keep? ==> StoreEnds(log[k].publication, true) in log[..k])
  }

  /** The store holds what the publication persisted. */
  predicate Holds(store: Option<Catalog>, persist: Persist) {
    match persist
    case Keep => true
    case Delete => store.None?
    case Write(entry) => store == Some(entry)
  }

  /** The stage of a publication matches its place in the chain and what the log says about it. */
  ghost predicate StageAgrees(s: Slice, i: nat)
    requires WellFormed(s) && i < |s.publications|
  {
    var stage := s.publications[i].stage;
    && (s.chain.operations[i].phase.Waiting? <==> stage.Queued?)
    && (s.chain.operations[i].phase.Running? <==> stage.Persisting? || stage.Persisted?)
    && ((stage.Persisting? || stage.Persisted?) ==> !s.publications[i].persist.Keep?)
    && (stage.Persisting? <==> InFlight(s.log) == Some(i))
    && (stage.Persisted? ==> StoreEnds(i, true) in s.log && Holds(s.store, s.publications[i].persist))
    && (stage == Finished(true) <==> Reports(i, true) in s.log)
  }

  ghost predicate StagesAgree(s: Slice)
    requires WellFormed(s)
  {
    forall i: nat | i < |s.publications| :: StageAgrees(s, i)
  }

  ghost predicate LogInv(log: seq<Effect>, generation: nat, publications: seq<Publication>) {
    && StoreSerialized(log)
    && GenerationsBelow(log, generation)
    && Monotone(log)
    && ReportsAreEarned(log, publications)
    && (forall e | e in log :: e.publication < |publications|)
  }

  ghost predicate Inv(s: Slice) {
    && WellFormed(s)
    && Ordered(s.chain)
    && (forall g | g in s.refreshes :: g <= s.generation)
    && LogInv(s.log, s.generation, s.publications)
    && StagesAgree(s)
  }

  // ---------------------------------------------------------------------------------------------------------------
  // Every step keeps it

  lemma LogGrows(log: seq<Effect>, e: Effect)
    ensures InFlight(log + [e]) ==
            match e case StoreBegins(i, _) => Some(i) case StoreEnds(_, _) => None case _ => InFlight(log)
    ensures StoreSerialized(log + [e]) <==>
            StoreSerialized(log)
            && (e.StoreBegins? ==> InFlight(log).None?)
            && (e.StoreEnds? ==> InFlight(log) == Some(e.publication))
  {
    assert (log + [e])[..|log|] == log;
  }

  lemma GenerationsGrow(log: seq<Effect>, e: Effect, generation: nat)
    requires GenerationsBelow(log, generation) && Monotone(log)
    requires e.Updates? || e.StoreBegins? ==> e.generation == generation
    ensures GenerationsBelow(log + [e], generation) && Monotone(log + [e])
  {
  }

  lemma ReportsGrow(log: seq<Effect>, e: Effect, publications: seq<Publication>)
    requires ReportsAreEarned(log, publications)
    requires e.Reports? && e.published ==>
               && e.publication < |publications|
               && log != [] && log[|log| - 1].Updates? && log[|log| - 1].publication == e.publication
               && (!publications[e.publication].persist.Keep? ==> StoreEnds(e.publication, true) in log)
    ensures ReportsAreEarned(log + [e], publications)
  {
    forall k | 0 <= k <= |log|
      ensures (log + [e])[..k] == log[..k]
    {
    }
  }

  /** One more effect: a mutation may begin only when none is in flight, end only when it is the one in flight, and
      success may be reported only right after the update. */
  lemma LogExtends(log: seq<Effect>, e: Effect, generation: nat, publications: seq<Publication>)
    requires LogInv(log, generation, publications) && e.publication < |publications|
    requires e.Updates? || e.StoreBegins? ==> e.generation == generation
    requires e.StoreBegins? ==> InFlight(log).None?
    requires e.StoreEnds? ==> InFlight(log) == Some(e.publication)
    requires e.Reports? && e.published ==>
               && log != [] && log[|log| - 1].Updates? && log[|log| - 1].publication == e.publication
               && (!publications[e.publication].persist.Keep? ==> StoreEnds(e.publication, true) in log)
    ensures LogInv(log + [e], generation, publications)
  {
    LogGrows(log, e);
    GenerationsGrow(log, e, generation);
    ReportsGrow(log, e, publications);
  }

  /** The log does not depend on the stages of publications, nor on later ones, nor on a larger generation. */
  lemma LogStands(log: seq<Effect>, g: nat, before: seq<Publication>, h: nat, after: seq<Publication>)
    requires LogInv(log, g, before) && g <= h && |before| <= |after|
    requires forall i: nat | i < |before| :: after[i].persist == before[i].persist
    ensures LogInv(log, h, after)
  {
  }

  lemma ChainMoves(s: Slice, i: nat)
    requires Inv(s) && i < |s.publications| && (CanStart(s.chain, i) || s.chain.operations[i].phase.Running?)
    ensures Ordered(SetPhase(s.chain, i, Settled)) && Ordered(SetPhase(s.chain, i, Running))
  {
    if CanStart(s.chain, i) {
      StartedAlone(s.chain, i);
    }
    PhaseChangeKeepsOrder(s.chain, i, Settled);
    PhaseChangeKeepsOrder(s.chain, i, Running);
  }

  lemma ConcludeKeepsInv(s: Slice, i: nat)
    requires Inv(s) && i < |s.publications|
    requires s.publications[i].stage.Persisted? || CanStart(s.chain, i)
    requires s.publications[i].stage.Queued? ==> s.publications[i].persist.Keep? || !Current(s, i)
    ensures Inv(Conclude(s, i))
  {
    assert StageAgrees(s, i);
    hide Ordered, LogInv, StagesAgree, Conclude, CanStart;
    ConcludeFrame(s, i);
    ConcludeKeepsLog(s, i);
    ConcludeKeepsStages(s, i);
    ChainMoves(s, i);
  }

  /** What the last stretch leaves alone. */
  lemma ConcludeFrame(s: Slice, i: nat)
    requires WellFormed(s) && i < |s.publications|
    ensures var t := Conclude(s, i);
            && WellFormed(t) && t.chain == SetPhase(s.chain, i, Settled)
            && t.refreshes == s.refreshes && t.generation == s.generation
  {
    if Current(s, i) {} else {}
  }

  lemma ConcludeKeepsLog(s: Slice, i: nat)
    requires Inv(s) && i < |s.publications|
    requires s.publications[i].stage.Persisted? || CanStart(s.chain, i)
    requires s.publications[i].stage.Queued? ==> s.publications[i].persist.Keep? || !Current(s, i)
    ensures var next := Conclude(s, i); LogInv(next.log, next.generation, next.publications)
  {
    assert StageAgrees(s, i);
    hide Ordered, LogInv, StagesAgree;
    var next := Conclude(s, i);
    LogStands(s.log, s.generation, s.publications, s.generation, next.publications);
    if Current(s, i) {
      var middle := s.log + [Updates(i, s.generation)];
      assert next.log == middle + [Reports(i, true)];
      LogExtends(s.log, Updates(i, s.generation), s.generation, next.publications);
      LogExtends(middle, Reports(i, true), s.generation, next.publications);
    } else {
      LogGrows(s.log, Reports(i, false));
      LogExtends(s.log, Reports(i, false), s.generation, next.publications);
    }
  }

  lemma ConcludeKeepsStages(s: Slice, i: nat)
    requires Inv(s) && i < |s.publications|
    requires s.publications[i].stage.Persisted? || CanStart(s.chain, i)
    ensures StagesAgree(Conclude(s, i))
  {
    hide Ordered, LogInv;
    var next := Conclude(s, i);
    LogGrows(s.log, Updates(i, s.generation));
    LogGrows(s.log + [Updates(i, s.generation)], Reports(i, true));
    LogGrows(s.log, Reports(i, false));
    assert next.log == s.log + [Updates(i, s.generation)] + [Reports(i, true)]
           || next.log == s.log + [Reports(i, false)];
    assert StageAgrees(s, i);
    forall j: nat | j < |next.publications|
      ensures StageAgrees(next, j)
    {
      assert StageAgrees(s, j);
    }
  }

  lemma StartKeepsInv(s: Slice, i: nat)
    requires Inv(s) && i < |s.publications| && CanStart(s.chain, i)
    ensures Inv(Started(s, i))
  {
    hide Ordered, LogInv;
    assert StageAgrees(s, i);
    if !Current(s, i) || s.publications[i].persist.Keep? {
      ConcludeKeepsInv(s, i);
    } else {
      var next := Started(s, i);
      NothingInFlight(s, i);
      ChainMoves(s, i);
      LogStands(s.log, s.generation, s.publications, s.generation, next.publications);
      LogExtends(s.log, StoreBegins(i, s.generation), s.generation, next.publications);
      LogGrows(s.log, StoreBegins(i, s.generation));
      forall j: nat | j < |next.publications|
        ensures StageAgrees(next, j)
      {
        assert StageAgrees(s, j);
      }
    }
  }

  /** When an operation starts, the one before it has settled, so no store mutation is in flight. */
  lemma NothingInFlight(s: Slice, i: nat)
    requires Inv(s) && i < |s.publications| && CanStart(s.chain, i)
    ensures InFlight(s.log).None?
  {
    StartedAlone(s.chain, i);
    InFlightIsLogged(s.log);
    var j := if InFlight(s.log).Some? then InFlight(s.log).value else i;
    assert !s.chain.operations[j].phase.Running? && StageAgrees(s, j);
  }

  lemma {:induction false} InFlightIsLogged(log: seq<Effect>)
    ensures InFlight(log).Some? ==> exists e | e in log :: e.publication == InFlight(log).value
    decreases |log|
  {
    if log != [] {
      InFlightIsLogged(log[..|log| - 1]);
      assert log[|log| - 1] in log;
    }
  }

  lemma StoreEndKeepsInv(s: Slice, i: nat, next: Slice)
    requires Inv(s) && i < |s.publications| && s.publications[i].stage.Persisting?
    requires next == Landed(s, i) || next == Step(s, StoreFails(i))
    ensures Inv(next)
  {
    hide Ordered, LogInv;
    var e := StoreEnds(i, next == Landed(s, i));
    assert next.log == s.log + [e];
    assert StageAgrees(s, i);
    LogStands(s.log, s.generation, s.publications, s.generation, next.publications);
    LogExtends(s.log, e, s.generation, next.publications);
    LogGrows(s.log, e);
    ChainMoves(s, i);
    forall j: nat | j < |next.publications|
      ensures StageAgrees(next, j)
    {
      assert StageAgrees(s, j);
      if j != i && s.chain.operations[j].phase.Running? {
        NeverOverlap(s.chain, i, j);
      }
    }
  }

  lemma StepKeepsInv(s: Slice, e: Event)
    requires Inv(s)
    ensures Inv(Step(s, e))
  {
    if Enabled(s, e) {
      match e
      case Publish(r, persist, update) => PublishKeepsInv(s, r, persist, update);
      case Start(i) => StartKeepsInv(s, i);
      case StoreLands(i) => StoreEndKeepsInv(s, i, Landed(s, i));
      case StoreFails(i) => StoreEndKeepsInv(s, i, Step(s, e));
      case Resume(i) => ConcludeKeepsInv(s, i);
      case _ => QuietStepKeepsInv(s, e);
    }
  }

  /** Steps that neither add nor move a publication. */
  lemma QuietStepKeepsInv(s: Slice, e: Event)
    requires Inv(s) && Enabled(s, e)
    requires e.Supersede? || e.BeginRefresh? || e.CallerAborts? || e.EndRefresh? || e.CleanUp?
    ensures Inv(Step(s, e))
  {
    hide Ordered, LogInv;
    if e.CleanUp? {
      ForgetKeepsOrder(s.chain, e.publication);
    }
    var next := Step(s, e);
    LogStands(s.log, s.generation, s.publications, next.generation, next.publications);
    forall j: nat | j < |next.publications|
      ensures StageAgrees(next, j)
    {
      assert StageAgrees(s, j);
    }
  }

  lemma PublishKeepsInv(s: Slice, refresh: nat, persist: Persist, update: Option<Catalog>)
    requires Inv(s) && refresh < |s.refreshes|
    ensures Inv(Enqueued(s, refresh, persist, update))
  {
    var next := Enqueued(s, refresh, persist, update);
    EnqueueKeepsOrder(s.chain);
    LogStands(s.log, s.generation, s.publications, s.generation, next.publications);
    NewPublicationIsUnlogged(s);
    hide Ordered, LogInv;
    forall j: nat | j < |next.publications|
      ensures StageAgrees(next, j)
    {
      if j < |s.publications| {
        assert StageAgrees(s, j);
      }
    }
  }

  lemma NewPublicationIsUnlogged(s: Slice)
    requires Inv(s)
    ensures InFlight(s.log) != Some(|s.publications|)
    ensures Reports(|s.publications|, true) !in s.log
  {
    InFlightIsLogged(s.log);
  }

  // ---------------------------------------------------------------------------------------------------------------
  // Whole runs

  ghost function Run(store: Option<Catalog>, events: seq<Event>): (s: Slice)
    ensures Inv(s)
  {
    if events == [] then Initial(store)
    else
      var before := Run(store, events[..|events| - 1]);
      StepKeepsInv(before, events[|events| - 1]);
      Step(before, events[|events| - 1])
  }

  /** Publication safety, for every interleaving of refreshes, provider replacements, deletions and aborts: the store is
      mutated by one publication at a time, generations applied to the store and to memory never go back, and success
      is reported only after this publication's store mutation landed and then its update ran. */
  lemma PublicationSafety(store: Option<Catalog>, events: seq<Event>)
    ensures var s := Run(store, events);
            && StoreSerialized(s.log) && Monotone(s.log) && ReportsAreEarned(s.log, s.publications)
            && GenerationsBelow(s.log, s.generation)
  {
  }

  /** What `StoreSerialized` means: between the beginnings of two store mutations the first one ended. */
  lemma {:induction false} MutationsDoNotOverlap(log: seq<Effect>, j: nat, k: nat)
    requires StoreSerialized(log) && j < k < |log| && log[j].StoreBegins? && log[k].StoreBegins?
    ensures exists m | j < m < k :: log[m].StoreEnds? && log[m].publication == log[j].publication
    decreases |log|
  {
    var front := log[..|log| - 1];
    if k < |front| {
      MutationsDoNotOverlap(front, j, k);
      var m :| j < m < k && front[m].StoreEnds? && front[m].publication == front[j].publication;
      assert log[m] == front[m];
    } else {
      InFlightUntilEnded(front, j);
      var m :| j < m < |front| && front[m].StoreEnds? && front[m].publication == front[j].publication;
      assert log[m] == front[m];
    }
  }

  lemma {:induction false} InFlightUntilEnded(log: seq<Effect>, j: nat)
    requires StoreSerialized(log) && j < |log| && log[j].StoreBegins?
    requires InFlight(log) != Some(log[j].publication)
    ensures exists m | j < m < |log| :: log[m].StoreEnds? && log[m].publication == log[j].publication
    decreases |log|
  {
    var front, last := log[..|log| - 1], log[|log| - 1];
    assert j < |front|;
    if InFlight(front) != Some(log[j].publication) {
      InFlightUntilEnded(front, j);
      var m :| j < m < |front| && front[m].StoreEnds? && front[m].publication == front[j].publication;
      assert log[m] == front[m];
    } else {
      assert last.StoreEnds? && log[|log| - 1].publication == log[j].publication;
    }
  }

  /** Nothing is applied to memory unless its refresh is neither superseded nor aborted at that very moment, and the
      store then holds exactly what the publication persisted: no other mutation can come between. */
  lemma UpdatesOnlyWhileCurrent(s: Slice, e: Event, i: nat, generation: nat)
    requires Inv(s) && Updates(i, generation) in Step(s, e).log && Updates(i, generation) !in s.log
    ensures i < |s.publications| && s.publications[i].refresh < |s.refreshes| && Current(s, i)
    ensures generation == s.generation && s.refreshes[s.publications[i].refresh] == generation
    ensures Step(s, e).publications[i].stage == Finished(true)
    ensures Holds(Step(s, e).store, s.publications[i].persist)
  {
    hide Ordered, LogInv;
    assert StageAgrees(s, i);
  }

  /** A stale publication that has not begun to persist never touches the store again. */
  lemma StaleNeverPersists(s: Slice, e: Event, i: nat)
    requires Inv(s) && i < |s.publications| && s.publications[i].stage.Queued? && !Current(s, i)
    ensures i < |Step(s, e).publications| && !Step(s, e).publications[i].stage.Persisting?
    ensures s.publications[i].refresh < |Step(s, e).refreshes| && !Current(Step(s, e), i)
  {
    hide Ordered, LogInv;
    assert s.refreshes[s.publications[i].refresh] in s.refreshes;
    assert StageAgrees(s, i);
  }

  /** The refresh of a publication has been aborted, or a later one has taken its place. */
  predicate Overtaken(s: Slice, i: nat) {
    && i < |s.publications| && s.publications[i].refresh < |s.refreshes|
    && (s.publications[i].refresh in s.aborted || s.refreshes[s.publications[i].refresh] < s.generation)
  }

  /** What the models are once a publication has been applied. */
  function Applied(publication: Publication, before: Catalog): Catalog {
    if publication.update.Some? then publication.update.value else before
  }

  /** What a publication does when its turn comes: an overtaken one reports that it has not been published and changes
      nothing; any other begins its store mutation, or without one is applied and reports that it has been. */
  predicate StartsAs(s: Slice, i: nat, t: Slice)
    requires i < |s.publications|
  {
    && i < |t.publications| && t.store == s.store
    && if Overtaken(s, i) then
         && t.publications[i].stage == Finished(false)
         && t.dynamicModels == s.dynamicModels && t.log == s.log + [Reports(i, false)]
       else if s.publications[i].persist.Keep? then
         && t.publications[i].stage == Finished(true)
         && t.dynamicModels == Applied(s.publications[i], s.dynamicModels)
         && t.log == s.log + [Updates(i, s.generation), Reports(i, true)]
       else
         && t.publications[i].stage == Persisting
         && t.dynamicModels == s.dynamicModels && t.log == s.log + [StoreBegins(i, s.generation)]
  }

  lemma OvertakenExactly(s: Slice, i: nat)
    requires Inv(s) && i < |s.publications|
    ensures Current(s, i) <==> !Overtaken(s, i)
  {
    hide Ordered, LogInv, StagesAgree;
    assert s.refreshes[s.publications[i].refresh] in s.refreshes;
  }

  lemma StartsRight(s: Slice, i: nat)
    requires Inv(s) && Enabled(s, Start(i))
    ensures StartsAs(s, i, Started(s, i))
  {
    OvertakenExactly(s, i);
    hide Ordered, LogInv, StagesAgree;
  }

  /** Over every run: only a publication whose refresh has been aborted or superseded by then is reported as not
      published. */
  lemma FailuresAreOvertaken(store: Option<Catalog>, events: seq<Event>, e: Event, i: nat)
    ensures var s, t := Run(store, events), Run(store, events + [e]);
            && s.log <= t.log
            && (Reports(i, false) in t.log[|s.log|..] ==> Overtaken(s, i))
  {
    var s := Run(store, events);
    assert (events + [e])[..|events|] == events;
    if i < |s.publications| {
      OvertakenExactly(s, i);
    }
    hide Inv, Run;
    OneMoreReport(s, e, i);
  }

  lemma OneMoreReport(s: Slice, e: Event, i: nat)
    requires WellFormed(s)
    ensures var t := Step(s, e);
            && s.log <= t.log
            && (Reports(i, false) in t.log[|s.log|..] ==> i < |s.publications| && !Current(s, i))
  {
    hide Overtaken;
    if Enabled(s, e) {
      match e {
        case Start(j) => if Current(s, j) {} else {}
        case Resume(j) => if Current(s, j) {} else {}
        case _ =>
      }
    }
  }

  /** And one that has not been is published, if its store mutation lands: its turn having come, it is in the store
      and in the models. */
  lemma CurrentPublicationsSucceed(store: Option<Catalog>, events: seq<Event>, i: nat)
    requires Enabled(Run(store, events), Start(i)) && !Overtaken(Run(store, events), i)
    ensures var s := Run(store, events); var p := s.publications[i];
            var t := Run(store, events + if p.persist.Keep? then [Start(i)]
                                         else [Start(i), StoreLands(i), Resume(i)]);
            && i < |t.publications| && t.publications[i].stage == Finished(true)
            && t.dynamicModels == Applied(p, s.dynamicModels) && Holds(t.store, p.persist)
  {
    hide Inv, Step, Run, Overtaken, CanStart, Conclude;
    var s := Run(store, events);
    OvertakenExactly(s, i);
    RunMore(store, events, Start(i));
    if s.publications[i].persist.Keep? {
      StartsRight(s, i);
      AppliesAtOnce(s, i);
    } else {
      var one, two := events + [Start(i)], events + [Start(i)] + [StoreLands(i)];
      BeginsToPersist(s, i);
      RunMore(store, one, StoreLands(i));
      Persists(Run(store, one), i);
      RunMore(store, two, Resume(i));
      Applies(Run(store, two), i);
      assert two + [Resume(i)] == events + [Start(i), StoreLands(i), Resume(i)];
    }
  }

  lemma AppliesAtOnce(s: Slice, i: nat)
    requires Inv(s) && Enabled(s, Start(i)) && Current(s, i) && s.publications[i].persist.Keep?
    ensures var t := Step(s, Start(i));
            && i < |t.publications| && t.publications[i].stage == Finished(true)
            && t.dynamicModels == Applied(s.publications[i], s.dynamicModels)
  {
    hide Ordered, LogInv, StagesAgree, CanStart;
  }

  /** One step of a publication on its way: still itself, still current, and the models as they were. */
  predicate Stands(s: Slice, i: nat, t: Slice, stage: Stage) {
    && i < |s.publications| && i < |t.publications|
    && t.publications[i] == s.publications[i].(stage := stage)
    && t.publications[i].refresh < |t.refreshes| && Current(t, i) && t.dynamicModels == s.dynamicModels
  }

  lemma BeginsToPersist(s: Slice, i: nat)
    requires Inv(s) && Enabled(s, Start(i)) && Current(s, i) && !s.publications[i].persist.Keep?
    ensures Stands(s, i, Step(s, Start(i)), Persisting)
  {
    hide Ordered, LogInv, StagesAgree, CanStart;
  }

  lemma Persists(s: Slice, i: nat)
    requires Inv(s) && i < |s.publications| && s.publications[i].stage.Persisting? && Current(s, i)
    ensures Stands(s, i, Step(s, StoreLands(i)), Persisted)
  {
    hide Ordered, LogInv, StagesAgree;
  }

  lemma Applies(s: Slice, i: nat)
    requires Inv(s) && i < |s.publications| && s.publications[i].stage.Persisted? && Current(s, i)
    ensures var t := Step(s, Resume(i));
            && i < |t.publications| && t.publications[i].stage == Finished(true)
            && t.dynamicModels == Applied(s.publications[i], s.dynamicModels)
            && Holds(t.store, s.publications[i].persist)
  {
    assert StageAgrees(s, i);
    hide Ordered, LogInv, StagesAgree;
  }

  lemma RunMore(store: Option<Catalog>, events: seq<Event>, e: Event)
    ensures Run(store, events + [e]) == Step(Run(store, events), e)
  {
    assert (events + [e])[..|events|] == events;
    hide Step;
  }

  // ---------------------------------------------------------------------------------------------------------------
  // The class

  lemma NoneIsCurrent(s: Slice)
    requires Inv(s)
    ensures WellFormed(Superseded(s)) && Superseded(s).publications == s.publications
    ensures Superseded(s).controller.None?
    ensures s.controller.Some? ==> s.controller.value in Superseded(s).aborted
    ensures forall i: nat | i < |s.publications| :: !Current(Superseded(s), i)
  {
    forall i: nat | i < |s.publications|
      ensures !Current(Superseded(s), i)
    {
      assert s.refreshes[s.publications[i].refresh] in s.refreshes;
    }
  }

  lemma NewestIsCurrent(s: Slice)
    requires Inv(s)
    ensures var t := Begun(s);
            && (forall r: nat | r < |t.refreshes| :: t.refreshes[r] == t.generation <==> r == |s.refreshes|)
            && t.controller == Some(|s.refreshes|) && |s.refreshes| !in t.aborted
  {
    forall r: nat | r < |s.refreshes|
      ensures s.refreshes[r] != s.generation + 1
    {
      assert s.refreshes[r] in s.refreshes;
    }
  }

  /** A publication that starts finds every earlier one over. */
  lemma StartsInTurn(s: Slice, i: nat)
    requires Inv(s) && Enabled(s, Start(i))
    ensures SettledUpTo(s.chain, i) && StartsAs(s, i, Started(s, i))
  {
    StartedAlone(s.chain, i);
    StartsRight(s, i);
  }

  function Stored(store: map<string, Catalog>, id: string): Option<Catalog> {
    if id in store then Some(store[id]) else None
  }

  function Lookup<K, V>(table: map<K, V>, key: K, default: V): V {
    if key in table then table[key] else default
  }

  /** The maps of `ModelsImpl`. The refreshes, publications and abort signals that the program keeps alive in closures
      are tables here, one entry per provider id. */
  class ModelsImpl {
    var refreshGenerations: map<string, nat>
    var refreshControllers: map<string, nat>
    var publicationChains: map<string, Chain>
    var refreshes: map<string, seq<nat>>
    var aborted: map<string, set<nat>>
    var publications: map<string, seq<Publication>>
    var modelsStore: map<string, Catalog>
    var dynamicModels: map<string, Catalog>
    ghost var log: map<string, seq<Effect>>

    ghost function State(id: string): Slice
      reads this
    {
      Slice(
        Lookup(refreshGenerations, id, 0),
        if id in refreshControllers then Some(refreshControllers[id]) else None,
        Lookup(refreshes, id, []),
        Lookup(aborted, id, {}),
        Lookup(publicationChains, id, Unused),
        Lookup(publications, id, []),
        Stored(modelsStore, id),
        Lookup(dynamicModels, id, []),
        Lookup(log, id, []))
    }

    /** Nothing about another provider changed. */
    twostate predicate OthersUntouched(id: string)
      reads this
    {
      forall other | other != id :: State(other) == old(State(other))
    }

    /** Every provider's entries satisfy the invariant of the protocol. */
    ghost predicate Valid()
      reads this
    {
      forall id :: Inv(State(id))
    }

    constructor (store: map<string, Catalog>)
      ensures Valid() && forall id :: State(id) == Initial(Stored(store, id))
    {
      refreshGenerations, refreshControllers, publicationChains, refreshes := map[], map[], map[], map[];
      aborted, publications, modelsStore, dynamicModels, log := map[], map[], store, map[], map[];
      new;
      forall id
        ensures State(id) == Initial(Stored(store, id)) && Inv(State(id))
      {
        assert State(id) == Run(Stored(store, id), []);
      }
    }

    /** After a supersession no publication made so far can be applied any more. */
    method SupersedeProviderRefresh(id: string) returns (generation: nat)
      requires Valid()
      modifies this
      ensures Valid() && OthersUntouched(id)
      ensures State(id) == Superseded(old(State(id))) && generation == State(id).generation
      ensures State(id).controller.None?
      ensures old(State(id)).controller.Some? ==> old(State(id)).controller.value in State(id).aborted
      ensures forall i: nat | i < |State(id).publications| :: !Current(State(id), i)
    {
      hide Inv, Superseded;
      NoneIsCurrent(State(id));
      generation := NextGeneration(id);
      StepKeepsInv(old(State(id)), Supersede);
      forall other
        ensures Inv(State(other))
      {
        assert other != id ==> Inv(old(State(other)));
      }
    }

    method NextGeneration(id: string) returns (generation: nat)
      modifies this
      ensures State(id) == Superseded(old(State(id))) && generation == State(id).generation
      ensures OthersUntouched(id)
    {
      generation := Lookup(refreshGenerations, id, 0) + 1;
      refreshGenerations := refreshGenerations[id := generation];
      if id in refreshControllers {
        var previous := refreshControllers[id];
        refreshControllers := refreshControllers - {id};
        aborted := aborted[id := Lookup(aborted, id, {}) + {previous}];
      }
    }

    /** The refresh that begins is the only one of the current generation. */
    method BeginProviderRefresh(id: string) returns (refresh: nat)
      requires Valid()
      modifies this
      ensures Valid() && OthersUntouched(id)
      ensures State(id) == Begun(old(State(id))) && refresh == |old(State(id)).refreshes|
      ensures State(id).controller == Some(refresh) && refresh !in State(id).aborted
      ensures forall r: nat | r < |State(id).refreshes| ::
                State(id).refreshes[r] == State(id).generation <==> r == refresh
    {
      hide Inv;
      NewestIsCurrent(State(id));
      var generation := NextGeneration(id);
      refresh := |Lookup(refreshes, id, [])|;
      refreshControllers := refreshControllers[id := refresh];
      refreshes := refreshes[id := Lookup(refreshes, id, []) + [generation]];
      StepKeepsInv(old(State(id)), BeginRefresh);
      forall other
        ensures Inv(State(other))
      {
        assert other != id ==> Inv(old(State(other)));
      }
    }

    /** The caller gives a refresh up: nothing that it has published is applied from now on. */
    method AbortRefresh(id: string, refresh: nat)
      requires Valid() && refresh < |State(id).refreshes|
      modifies this
      ensures Valid() && OthersUntouched(id)
      ensures State(id) == Step(old(State(id)), CallerAborts(refresh))
      ensures forall i: nat | i < |State(id).publications| && State(id).publications[i].refresh == refresh ::
                !Current(State(id), i)
    {
      hide Ordered, LogInv, StagesAgree;
      aborted := aborted[id := Lookup(aborted, id, {}) + {refresh}];
      StepKeepsInv(old(State(id)), CallerAborts(refresh));
      forall other
        ensures Inv(State(other))
      {
        assert other != id ==> Inv(old(State(other)));
      }
    }

    method EndProviderRefresh(id: string, refresh: nat)
      requires Valid() && refresh < |State(id).refreshes|
      modifies this
      ensures Valid() && OthersUntouched(id)
      ensures State(id) == Ended(old(State(id)), refresh)
      ensures State(id).generation == old(State(id)).generation && State(id).controller != Some(refresh)
    {
      hide Ordered, LogInv, StagesAgree;
      if id in refreshControllers && refreshControllers[id] == refresh {
        refreshControllers := refreshControllers - {id};
      }
      StepKeepsInv(old(State(id)), EndRefresh(refresh));
      forall other
        ensures Inv(State(other))
      {
        assert other != id ==> Inv(old(State(other)));
      }
    }

    /** A publication joins its provider's chain: nothing happens to the store or the models yet. */
    method PublishProviderModels(id: string, refresh: nat, persist: Persist, update: Option<Catalog>)
      requires Valid() && refresh < |State(id).refreshes|
      modifies this
      ensures Valid() && OthersUntouched(id)
      ensures State(id) == Enqueued(old(State(id)), refresh, persist, update)
      ensures State(id).chain.operations != []
      ensures State(id).chain.tail == Some(|State(id).chain.operations| - 1)
    {
      hide Ordered, LogInv, StagesAgree;
      var publication := Publication(refresh, persist, update, Queued);
      publications := publications[id := Lookup(publications, id, []) + [publication]];
      publicationChains := publicationChains[id := Enqueue(Lookup(publicationChains, id, Unused))];
      StepKeepsInv(old(State(id)), Publish(refresh, persist, update));
      forall other
        ensures Inv(State(other))
      {
        assert other != id ==> Inv(old(State(other)));
      }
    }

    /** The first stretch of a queued publication, up to the store call or, without one, to its end. It runs when every
        earlier publication is over. One that has been overtaken is over at once and leaves the store and the models
        alone; any other goes on to its store mutation or is applied. */
    method StartPublication(id: string, i: nat)
      requires Valid() && Enabled(State(id), Start(i))
      modifies this
      ensures Valid() && OthersUntouched(id)
      ensures State(id) == Started(old(State(id)), i)
      ensures SettledUpTo(old(State(id)).chain, i) && StartsAs(old(State(id)), i, State(id))
    {
      StartsInTurn(State(id), i);
      hide Inv, Started, StartsAs;
      BeginPublication(id, i);
      StepKeepsInv(old(State(id)), Start(i));
      forall other
        ensures Inv(State(other))
      {
        assert other != id ==> Inv(old(State(other)));
      }
    }

    method BeginPublication(id: string, i: nat)
      requires WellFormed(State(id)) && i < |State(id).publications|
      modifies this
      ensures State(id) == Started(old(State(id)), i)
      ensures OthersUntouched(id)
    {
      var publication := Lookup(publications, id, [])[i];
      var generations := Lookup(refreshes, id, []);
      var signalAborted := publication.refresh in Lookup(aborted, id, {});
      if signalAborted || Lookup(refreshGenerations, id, 0) != generations[publication.refresh]
         || publication.persist.Keep? {
        ConcludePublication(id, i);
        return;
      }
      publications := publications[id := publications[id][i := publication.(stage := Persisting)]];
      publicationChains := publicationChains[id := SetPhase(Lookup(publicationChains, id, Unused), i, Running)];
      log := log[id := Lookup(log, id, []) + [StoreBegins(i, Lookup(refreshGenerations, id, 0))]];
    }

    /** A store mutation lands: the store holds what the publication in flight persists, and no other is in flight. */
    method StoreMutationLands(id: string, i: nat)
      requires Valid() && Enabled(State(id), StoreLands(i))
      modifies this
      ensures Valid() && OthersUntouched(id)
      ensures State(id) == Landed(old(State(id)), i)
      ensures InFlight(old(State(id)).log) == Some(i) && Holds(State(id).store, State(id).publications[i].persist)
    {
      assert StageAgrees(State(id), i);
      hide Inv, StageAgrees, StagesAgree;
      LandMutation(id, i);
      StepKeepsInv(old(State(id)), StoreLands(i));
      forall other
        ensures Inv(State(other))
      {
        assert other != id ==> Inv(old(State(other)));
      }
    }

    method LandMutation(id: string, i: nat)
      requires i < |State(id).publications|
      modifies this
      ensures State(id) == Landed(old(State(id)), i)
      ensures OthersUntouched(id)
    {
      var publication := Lookup(publications, id, [])[i];
      match publication.persist {
        case Write(entry) => modelsStore := modelsStore[id := entry];
        case Delete => modelsStore := modelsStore - {id};
        case Keep =>
      }
      publications := publications[id := publications[id][i := publication.(stage := Persisted)]];
      log := log[id := Lookup(log, id, []) + [StoreEnds(i, true)]];
    }

    /** A store mutation fails: the publication throws, and nothing it would have changed is changed. */
    method StoreMutationFails(id: string, i: nat)
      requires Valid() && Enabled(State(id), StoreFails(i))
      modifies this
      ensures Valid() && OthersUntouched(id)
      ensures State(id) == Step(old(State(id)), StoreFails(i))
      ensures State(id).store == old(State(id)).store && State(id).dynamicModels == old(State(id)).dynamicModels
    {
      hide Ordered, LogInv, StagesAgree;
      FailMutation(id, i);
      StepKeepsInv(old(State(id)), StoreFails(i));
      forall other
        ensures Inv(State(other))
      {
        assert other != id ==> Inv(old(State(other)));
      }
    }

    method FailMutation(id: string, i: nat)
      requires i < |State(id).publications| == |State(id).chain.operations|
      modifies this`publications, this`publicationChains, this`log
      ensures State(id) == Settle(old(State(id)), i, Threw).(log := old(State(id).log) + [StoreEnds(i, false)])
      ensures OthersUntouched(id)
    {
      var publication := Lookup(publications, id, [])[i];
      publications := publications[id := publications[id][i := publication.(stage := Threw)]];
      publicationChains := publicationChains[id := SetPhase(Lookup(publicationChains, id, Unused), i, Settled)];
      log := log[id := Lookup(log, id, []) + [StoreEnds(i, false)]];
    }

    /** The store call has returned. The publication is reported and its update applied exactly if it is still current,
        and then the store holds what it persisted. */
    method ResumePublication(id: string, i: nat)
      requires Valid() && Enabled(State(id), Resume(i))
      modifies this
      ensures Valid() && OthersUntouched(id)
      ensures State(id) == Conclude(old(State(id)), i)
      ensures State(id).publications[i].stage == Finished(Current(old(State(id)), i))
      ensures State(id).dynamicModels ==
              if Current(old(State(id)), i) && State(id).publications[i].update.Some?
              then State(id).publications[i].update.value else old(State(id)).dynamicModels
      ensures Holds(State(id).store, State(id).publications[i].persist)
    {
      assert StageAgrees(State(id), i);
      hide Ordered, LogInv, StagesAgree;
      ConcludePublication(id, i);
      StepKeepsInv(old(State(id)), Resume(i));
      forall other
        ensures Inv(State(other))
      {
        assert other != id ==> Inv(old(State(other)));
      }
    }

    /** The clean-up of the chain once a publication has settled. */
    method ForgetPublication(id: string, i: nat)
      requires Valid() && CanForget(State(id).chain, i)
      modifies this
      ensures Valid() && OthersUntouched(id)
      ensures State(id) == old(State(id)).(chain := Forget(old(State(id)).chain, i))
    {
      hide Ordered, LogInv, StagesAgree;
      publicationChains := publicationChains[id := Forget(Lookup(publicationChains, id, Unused), i)];
      StepKeepsInv(old(State(id)), CleanUp(i));
      forall other
        ensures Inv(State(other))
      {
        assert other != id ==> Inv(old(State(other)));
      }
    }

    /** The last stretch of a publication: check again, update, settle. */
    method ConcludePublication(id: string, i: nat)
      requires i < |State(id).publications| == |State(id).chain.operations|
      requires State(id).publications[i].refresh < |State(id).refreshes|
      modifies this
      ensures State(id) == Conclude(old(State(id)), i)
      ensures OthersUntouched(id)
    {
      var publication := Lookup(publications, id, [])[i];
      var generation := Lookup(refreshGenerations, id, 0);
      if publication.refresh in Lookup(aborted, id, {})
         || generation != Lookup(refreshes, id, [])[publication.refresh] {
        SettlePublication(id, i, false);
        return;
      }
      UpdateModels(id, i, publication.update);
      SettlePublication(id, i, true);
      assert State(id).log == old(State(id).log) + [Updates(i, generation), Reports(i, true)];
    }

    /** The synchronous update of a publication. */
    method UpdateModels(id: string, i: nat, update: Option<Catalog>)
      modifies this`dynamicModels, this`log
      ensures var s := old(State(id));
              State(id) == s.(dynamicModels := if update.Some? then update.value else s.dynamicModels,
                              log := s.log + [Updates(i, s.generation)])
      ensures OthersUntouched(id)
    {
      if update.Some? {
        dynamicModels := dynamicModels[id := update.value];
      }
      log := log[id := Lookup(log, id, []) + [Updates(i, Lookup(refreshGenerations, id, 0))]];
    }

    method SettlePublication(id: string, i: nat, published: bool)
      requires i < |State(id).publications| == |State(id).chain.operations|
      modifies this`publications, this`publicationChains, this`log
      ensures State(id) == Settle(old(State(id)), i, Finished(published)).(
                             log := old(State(id).log) + [Reports(i, published)])
      ensures OthersUntouched(id)
    {
      var publication := Lookup(publications, id, [])[i];
      publications := publications[id := publications[id][i := publication.(stage := Finished(published))]];
      publicationChains := publicationChains[id := SetPhase(Lookup(publicationChains, id, Unused), i, Settled)];
      log := log[id := Lookup(log, id, []) + [Reports(i, published)]];
    }

    /** One event of one provider, if it can happen. */
    method Perform(id: string, e: Event)
      requires Valid()
      modifies this
      ensures Valid() && OthersUntouched(id)
      ensures State(id) == Step(old(State(id)), e)
    {
      hide Superseded, Begun, Ended, Enqueued, Started, Landed, Conclude, Ordered, LogInv, StagesAgree;
      var count, chain := |Lookup(publications, id, [])|, Lookup(publicationChains, id, Unused);
      var begun := |Lookup(refreshes, id, [])|;
      match e {
        case Supersede => var _ := SupersedeProviderRefresh(id);
        case BeginRefresh => var _ := BeginProviderRefresh(id);
        case CallerAborts(r) => if r < begun { AbortRefresh(id, r); }
        case EndRefresh(r) => if r < begun { EndProviderRefresh(id, r); }
        case Publish(r, persist, update) => if r < begun { PublishProviderModels(id, r, persist, update); }
        case Start(i) => if i < count && CanStart(chain, i) { StartPublication(id, i); }
        case StoreLands(i) => if i < count && publications[id][i].stage.Persisting? { StoreMutationLands(id, i); }
        case StoreFails(i) => if i < count && publications[id][i].stage.Persisting? { StoreMutationFails(id, i); }
        case Resume(i) => if i < count && publications[id][i].stage.Persisted? { ResumePublication(id, i); }
        case CleanUp(i) => if CanForget(chain, i) { ForgetPublication(id, i); }
      }
    }
  }

  /** The events of a run that happen to one provider. */
  function EventsOf(events: seq<(string, Event)>, id: string): seq<Event> {
    if events == [] then []
    else
      var front, last := EventsOf(events[..|events| - 1], id), events[|events| - 1];
      if last.0 == id then front + [last.1] else front
  }

  lemma RunNothing(store: Option<Catalog>)
    ensures Run(store, []) == Initial(store)
  {
  }

  lemma RunOneMore(store: Option<Catalog>, events: seq<Event>, e: Event)
    ensures Run(store, events + [e]) == Step(Run(store, events), e)
  {
    assert (events + [e])[..|events|] == events;
  }

  /** One object driven through a whole run: each provider's entries are what its own events alone make of them,
      whatever happens to the others, and its publications are safe. */
  method AnyRun(store: map<string, Catalog>, events: seq<(string, Event)>) returns (models: ModelsImpl)
    ensures fresh(models) && models.Valid()
    ensures forall id :: models.State(id) == Run(Stored(store, id), EventsOf(events, id))
    ensures forall id ::
              var s := models.State(id);
              && StoreSerialized(s.log) && Monotone(s.log) && GenerationsBelow(s.log, s.generation)
              && ReportsAreEarned(s.log, s.publications)
  {
    hide Run, Step, StoreSerialized, Monotone, GenerationsBelow, ReportsAreEarned, StagesAgree, Ordered, WellFormed;
    models := new ModelsImpl(store);
    forall id {
      RunNothing(Stored(store, id));
    }
    for k := 0 to |events|
      invariant fresh(models) && models.Valid()
      invariant forall id :: models.State(id) == Run(Stored(store, id), EventsOf(events[..k], id))
    {
      var id, e := events[k].0, events[k].1;
      RunOneMore(Stored(store, id), EventsOf(events[..k], id), e);
      assert events[..k + 1][..k] == events[..k];
      models.Perform(id, e);
    }
    assert events[..|events|] == events;
  }

  // ---------------------------------------------------------------------------------------------------------------
  // The overlay of fetched models on the static ones

  function Find(models: Catalog, id: string): Option<nat> {
    if models == [] then None
    else if models[0].id == id then Some(0)
    else
      var rest := Find(models[1..], id);
      if rest.None? then None else Some(rest.value + 1)
  }

  function GetModel(models: Catalog, id: string): Option<Model> {
    var at := Find(models, id);
    if at.Some? && at.value < |models| then Some(models[at.value]) else None
  }

  /** The last model of that id. */
  function LastModel(models: Catalog, id: string): Option<Model> {
    if models == [] then None
    else
      var front, last := models[..|models| - 1], models[|models| - 1];
      if last.id == id then Some(last) else LastModel(front, id)
  }

  /** `currentModels`: a lookup by id finds the last fetched model of that id, or else the first static one; the static
      positions keep their ids and ids not in the static list are appended once each. */
  method CurrentModels(baseline: Catalog, dynamicModels: Catalog) returns (merged: Catalog)
    ensures forall id :: GetModel(merged, id) ==
                         if LastModel(dynamicModels, id).Some? then LastModel(dynamicModels, id)
                         else GetModel(baseline, id)
    ensures |baseline| <= |merged| && forall i | 0 <= i < |baseline| :: merged[i].id == baseline[i].id
    ensures forall i | |baseline| <= i < |merged| :: GetModel(merged[..i], merged[i].id).None?
  {
    merged := baseline;
    for k := 0 to |dynamicModels|
      invariant |baseline| <= |merged| && forall i | 0 <= i < |baseline| :: merged[i].id == baseline[i].id
      invariant forall i | |baseline| <= i < |merged| :: GetModel(merged[..i], merged[i].id).None?
      invariant forall id :: GetModel(merged, id) ==
                             if LastModel(dynamicModels[..k], id).Some? then LastModel(dynamicModels[..k], id)
                             else GetModel(baseline, id)
    {
      var model := dynamicModels[k];
      assert dynamicModels[..k + 1][..k] == dynamicModels[..k];
      var index := Find(merged, model.id);
      FindFinds(merged, model.id);
      ghost var before := merged;
      if index.Some? {
        merged := merged[index.value := model];
        Overlaid(before, index.value, model, |baseline|);
      } else {
        merged := merged + [model];
        Appended(before, model, |baseline|);
      }
    }
    assert dynamicModels[..|dynamicModels|] == dynamicModels;
  }

  lemma {:induction false} FindFinds(models: Catalog, id: string)
    ensures match Find(models, id)
            case None => forall m | m in models :: m.id != id
            case Some(i) => i < |models| && models[i].id == id && forall j | 0 <= j < i :: models[j].id != id
    decreases |models|
  {
    if models != [] {
      FindFinds(models[1..], id);
    }
  }

  lemma FindDependsOnIds(a: Catalog, b: Catalog, id: string)
    requires |a| == |b| && forall i | 0 <= i < |a| :: a[i].id == b[i].id
    ensures Find(a, id) == Find(b, id)
  {
    FindFinds(a, id);
    FindFinds(b, id);
  }

  lemma Overlaid(before: Catalog, at: nat, model: Model, kept: nat)
    requires at < |before| && Find(before, model.id) == Some(at) && before[at].id == model.id
    requires forall i | kept <= i < |before| :: GetModel(before[..i], before[i].id).None?
    ensures var after := before[at := model];
            && (forall id :: GetModel(after, id) == if id == model.id then Some(model) else GetModel(before, id))
            && (forall i | kept <= i < |after| :: GetModel(after[..i], after[i].id).None?)
  {
    var after := before[at := model];
    forall id
      ensures GetModel(after, id) == if id == model.id then Some(model) else GetModel(before, id)
    {
      FindDependsOnIds(before, after, id);
      FindFinds(before, id);
    }
    forall i | kept <= i < |after|
      ensures GetModel(after[..i], after[i].id).None?
    {
      FindDependsOnIds(before[..i], after[..i], after[i].id);
      FindFinds(before[..i], after[i].id);
      assert GetModel(before[..i], before[i].id).None?;
    }
  }

  lemma Appended(before: Catalog, model: Model, kept: nat)
    requires kept <= |before| && Find(before, model.id).None?
    requires forall i | kept <= i < |before| :: GetModel(before[..i], before[i].id).None?
    ensures var after := before + [model];
            && (forall id :: GetModel(after, id) == if id == model.id then Some(model) else GetModel(before, id))
            && (forall i | kept <= i < |after| :: GetModel(after[..i], after[i].id).None?)
  {
    var after := before + [model];
    forall id
      ensures GetModel(after, id) == if id == model.id then Some(model) else GetModel(before, id)
    {
      FindFinds(before, id);
      FindFinds(after, id);
      assert after[|before|] == model && model in after;
      assert forall j | 0 <= j < |before| :: after[j] == before[j] && before[j] in before && before[j] in after;
    }
    forall i | kept <= i < |after|
      ensures GetModel(after[..i], after[i].id).None?
    {
      if i < |before| {
        assert after[..i] == before[..i];
        assert GetModel(before[..i], before[i].id).None?;
      } else {
        assert after[..i] == before;
      }
    }
  }
}
