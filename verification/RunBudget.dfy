/** The run budget controller and the composite that puts a run's own budget under a family ledger.

    A clock reading is a parameter wherever the program reads the clock, so a call that reads it several times takes
    several readings. */
module RunBudget {
  import opened Common

  datatype Limit = ProviderRequests | ToolCalls | WallTime

  /** Absent limits are unlimited. */
  datatype Policy = Policy(
    maxProviderRequests: Option<int>,
    maxToolCalls: Option<int>,
    maxWallTimeMs: Option<int>)

  datatype Budget = Budget(
    policy: Policy,
    startedAt: int,
    providerRequests: nat,
    toolCalls: nat,
    maintenanceRequests: nat)
  {
    predicate AtRequestLimit() {
      policy.maxProviderRequests.Some? && providerRequests >= policy.maxProviderRequests.value
    }

    predicate AtToolLimit() {
      policy.maxToolCalls.Some? && toolCalls >= policy.maxToolCalls.value
    }

    predicate OutOfTime(now: int) {
      policy.maxWallTimeMs.Some? && now - startedAt >= policy.maxWallTimeMs.value
    }

    /** The first exhausted limit, in the order the program tests them. */
    function ExhaustedLimit(now: int): Option<Limit> {
      if AtRequestLimit() then Some(ProviderRequests)
      else if AtToolLimit() then Some(ToolCalls)
      else if OutOfTime(now) then Some(WallTime)
      else None
    }

    predicate RequestAllowed(now: int) {
      ExhaustedLimit(now).None?
    }

    predicate ToolCallAllowed(now: int) {
      !AtToolLimit() && !OutOfTime(now)
    }

    function ChargeRequest(): Budget {
      this.(providerRequests := providerRequests + 1)
    }

    function ChargeToolCall(): Budget {
      this.(toolCalls := toolCalls + 1)
    }

    /** Neither counter has ever been pushed past its limit. */
    predicate WithinLimits() {
      && (policy.maxProviderRequests.Some? && providerRequests > 0
          ==> providerRequests <= policy.maxProviderRequests.value)
      && (policy.maxToolCalls.Some? && toolCalls > 0 ==> toolCalls <= policy.maxToolCalls.value)
    }
  }

  function Fresh(policy: Policy, now: int): Budget {
    Budget(policy, now, 0, 0, 0)
  }

  /** What has been used is less than the limit, if there is one. */
  predicate Under(limit: Option<int>, used: int) {
    limit.None? || used < limit.value
  }

  class RunBudgetController {
    const policy: Policy
    const startedAt: int
    var providerRequests: nat
    var maintenanceRequests: nat
    var toolCalls: nat

    constructor (policy: Policy, now: int)
      ensures State() == Fresh(policy, now) && State().WithinLimits()
    {
      this.policy, startedAt := policy, now;
      providerRequests, maintenanceRequests, toolCalls := 0, 0, 0;
    }

    function State(): Budget
      reads this
    {
      Budget(policy, startedAt, providerRequests, toolCalls, maintenanceRequests)
    }

    method ExhaustedLimit(now: int) returns (limit: Option<Limit>)
      ensures limit == State().ExhaustedLimit(now)
      ensures limit.None? <==> Under(policy.maxProviderRequests, providerRequests)
                               && Under(policy.maxToolCalls, toolCalls) && Under(policy.maxWallTimeMs, now - startedAt)
      ensures limit == Some(ProviderRequests) <==> !Under(policy.maxProviderRequests, providerRequests)
      ensures limit == Some(WallTime) ==> Under(policy.maxToolCalls, toolCalls)
    {
      if policy.maxProviderRequests.Some? && providerRequests >= policy.maxProviderRequests.value {
        return Some(ProviderRequests);
      }
      if policy.maxToolCalls.Some? && toolCalls >= policy.maxToolCalls.value {
        return Some(ToolCalls);
      }
      if policy.maxWallTimeMs.Some? && now - startedAt >= policy.maxWallTimeMs.value {
        return Some(WallTime);
      }
      limit := None;
    }

    method TryBeginProviderRequest(now: int) returns (allowed: bool)
      modifies this`providerRequests
      ensures allowed == old(State()).RequestAllowed(now)
      ensures allowed <==> Under(policy.maxProviderRequests, old(providerRequests))
                           && Under(policy.maxToolCalls, toolCalls) && Under(policy.maxWallTimeMs, now - startedAt)
      ensures State() == if allowed then old(State()).ChargeRequest() else old(State())
      ensures old(State()).WithinLimits() ==> State().WithinLimits()
    {
      var limit := ExhaustedLimit(now);
      if limit != None {
        return false;
      }
      providerRequests := providerRequests + 1;
      allowed := true;
    }

    method TryAcceptToolCall(now: int) returns (allowed: bool)
      modifies this`toolCalls
      ensures allowed == old(State()).ToolCallAllowed(now)
      ensures allowed <==> Under(policy.maxToolCalls, old(toolCalls)) && Under(policy.maxWallTimeMs, now - startedAt)
      ensures State() == if allowed then old(State()).ChargeToolCall() else old(State())
      ensures old(State()).WithinLimits() ==> State().WithinLimits()
    {
      if policy.maxToolCalls.Some? && toolCalls >= policy.maxToolCalls.value {
        return false;
      }
      if policy.maxWallTimeMs.Some? && now - startedAt >= policy.maxWallTimeMs.value {
        return false;
      }
      toolCalls := toolCalls + 1;
      allowed := true;
    }

    method RecordMaintenanceRequest()
      modifies this`maintenanceRequests
      ensures State() == old(State()).(maintenanceRequests := old(maintenanceRequests) + 1)
    {
      maintenanceRequests := maintenanceRequests + 1;
    }
  }

  // ---------------------------------------------------------------------------------------------------------------
  // Composite gates

  /** The clock readings of one composite call: the two tests, then the two recordings. */
  datatype Readings = Readings(primaryTest: int, sharedTest: int, primaryRecord: int, sharedRecord: int) {
    predicate Fixed() {
      primaryTest == sharedTest == primaryRecord == sharedRecord
    }
  }

  function OneReading(now: int): Readings {
    Readings(now, now, now, now)
  }

  datatype Outcome = Outcome(allowed: bool, primary: Budget, shared: Budget)

  predicate BlocksToolCall(budget: Budget, now: int) {
    var limit := budget.ExhaustedLimit(now);
    limit == Some(ToolCalls) || limit == Some(WallTime)
  }

  function CompositeRequest(primary: Budget, shared: Budget, at: Readings): Outcome {
    if !primary.RequestAllowed(at.primaryTest) || !shared.RequestAllowed(at.sharedTest) then
      Outcome(false, primary, shared)
    else if !primary.RequestAllowed(at.primaryRecord) then
      Outcome(false, primary, shared)
    else if !shared.RequestAllowed(at.sharedRecord) then
      Outcome(false, primary.ChargeRequest(), shared)
    else
      Outcome(true, primary.ChargeRequest(), shared.ChargeRequest())
  }

  function CompositeToolCall(primary: Budget, shared: Budget, at: Readings): Outcome {
    if BlocksToolCall(primary, at.primaryTest) || BlocksToolCall(shared, at.sharedTest) then
      Outcome(false, primary, shared)
    else if !primary.ToolCallAllowed(at.primaryRecord) then
      Outcome(false, primary, shared)
    else if !shared.ToolCallAllowed(at.sharedRecord) then
      Outcome(false, primary.ChargeToolCall(), shared)
    else
      Outcome(true, primary.ChargeToolCall(), shared.ChargeToolCall())
  }

  class CompositeBudgetController {
    const primary: RunBudgetController
    const shared: RunBudgetController

    constructor (primary: RunBudgetController, shared: RunBudgetController)
      ensures this.primary == primary && this.shared == shared
    {
      this.primary, this.shared := primary, shared;
    }

    method TryBeginProviderRequest(at: Readings) returns (allowed: bool)
      requires primary != shared
      modifies primary`providerRequests, shared`providerRequests
      ensures Outcome(allowed, primary.State(), shared.State())
              == CompositeRequest(old(primary.State()), old(shared.State()), at)
    {
      var primaryLimit := primary.ExhaustedLimit(at.primaryTest);
      if primaryLimit != None {
        return false;
      }
      var sharedLimit := shared.ExhaustedLimit(at.sharedTest);
      if sharedLimit != None {
        return false;
      }
      allowed := primary.TryBeginProviderRequest(at.primaryRecord);
      if allowed {
        allowed := shared.TryBeginProviderRequest(at.sharedRecord);
      }
    }

    method TryAcceptToolCall(at: Readings) returns (allowed: bool)
      requires primary != shared
      modifies primary`toolCalls, shared`toolCalls
      ensures Outcome(allowed, primary.State(), shared.State())
              == CompositeToolCall(old(primary.State()), old(shared.State()), at)
    {
      var primaryLimit := primary.ExhaustedLimit(at.primaryTest);
      if primaryLimit == Some(ToolCalls) || primaryLimit == Some(WallTime) {
        return false;
      }
      var sharedLimit := shared.ExhaustedLimit(at.sharedTest);
      if sharedLimit == Some(ToolCalls) || sharedLimit == Some(WallTime) {
        return false;
      }
      allowed := primary.TryAcceptToolCall(at.primaryRecord);
      if allowed {
        allowed := shared.TryAcceptToolCall(at.sharedRecord);
      }
    }
  }

  /** With one clock reading a composite request is allowed exactly when both budgets allow it; it is then charged to
      both, and a refusal changes neither. */
  lemma CompositeRequestIsExact(primary: Budget, shared: Budget, now: int)
    ensures var outcome := CompositeRequest(primary, shared, OneReading(now));
            && outcome.allowed == (primary.RequestAllowed(now) && shared.RequestAllowed(now))
            && (if outcome.allowed
                then outcome.primary == primary.ChargeRequest() && outcome.shared == shared.ChargeRequest()
                else outcome.primary == primary && outcome.shared == shared)
  {
  }

  /** The primary is charged for a tool call that the ledger then refuses. */
  predicate ToolMisfire(primary: Budget, shared: Budget, at: Readings) {
    var outcome := CompositeToolCall(primary, shared, at);
    !outcome.allowed && outcome.primary != primary
  }

  /** With one clock reading the composite tool gate too answers the conjunction, but its charging is not always exact:
      the primary pays for a refused call exactly when it would accept while the ledger is at its request limit, which
      hides that it is also at its tool-call or time limit. */
  lemma CompositeToolCallIsExact(primary: Budget, shared: Budget, now: int)
    ensures var outcome := CompositeToolCall(primary, shared, OneReading(now));
            && outcome.allowed == (primary.ToolCallAllowed(now) && shared.ToolCallAllowed(now))
            && outcome.shared == (if outcome.allowed then shared.ChargeToolCall() else shared)
            && (outcome.allowed ==> outcome.primary == primary.ChargeToolCall())
    ensures ToolMisfire(primary, shared, OneReading(now))
            <==> primary.ToolCallAllowed(now) && shared.AtRequestLimit() && !shared.ToolCallAllowed(now)
  {
  }

  /** A concrete pair of stock controllers for which a refusal does consume the primary's counter. */
  lemma RefusalCanChargeThePrimary(policy: Policy)
    requires policy == Policy(Some(1), Some(1), None)
    ensures var primary := Fresh(Policy(None, None, None), 0); var shared := Budget(policy, 0, 1, 1, 0);
            && shared.WithinLimits()
            && CompositeToolCall(primary, shared, OneReading(0)) == Outcome(false, primary.ChargeToolCall(), shared)
  {
  }

  /** The primary is charged for a request that the ledger then refuses. */
  predicate RequestMisfire(primary: Budget, shared: Budget, at: Readings) {
    var outcome := CompositeRequest(primary, shared, at);
    !outcome.allowed && outcome.primary != primary
  }

  /** For every clock: a request misfires exactly when both tests and the primary's recording pass and the ledger's time
      runs out before its own recording; a ledger without a time limit, or whose clock stands still, never misfires. */
  lemma RequestMisfiresExactly(primary: Budget, shared: Budget, at: Readings)
    ensures RequestMisfire(primary, shared, at)
            <==> primary.RequestAllowed(at.primaryTest) && primary.RequestAllowed(at.primaryRecord)
                 && shared.RequestAllowed(at.sharedTest) && shared.OutOfTime(at.sharedRecord)
    ensures RequestMisfire(primary, shared, at) ==>
              shared.policy.maxWallTimeMs.Some? && at.sharedTest < at.sharedRecord
    ensures CompositeRequest(primary, shared, at).shared
            == if CompositeRequest(primary, shared, at).allowed then shared.ChargeRequest() else shared
  {
  }

  /** And a tool call: when the primary's tests and recording pass, and either the ledger is at its request limit, which
      hides that it is at another, or its time runs out between test and recording. */
  lemma ToolCallMisfiresExactly(primary: Budget, shared: Budget, at: Readings)
    ensures ToolMisfire(primary, shared, at)
            <==> !primary.AtToolLimit() && !primary.OutOfTime(at.primaryRecord)
                 && (primary.AtRequestLimit() || !primary.OutOfTime(at.primaryTest))
                 && (if shared.AtRequestLimit() then shared.AtToolLimit() || shared.OutOfTime(at.sharedRecord)
                     else !shared.AtToolLimit() && !shared.OutOfTime(at.sharedTest)
                          && shared.OutOfTime(at.sharedRecord))
  {
  }

  /** Even a request can misfire if the ledger's time runs out between its test and its recording; a clock that stands
      still during the call is therefore needed. */
  lemma MovingClockCanChargeThePrimary(policy: Policy)
    requires policy == Policy(None, None, Some(10))
    ensures var primary := Fresh(Policy(None, None, None), 0); var shared := Fresh(policy, 0);
            CompositeRequest(primary, shared, Readings(0, 9, 9, 10)) == Outcome(false, primary.ChargeRequest(), shared)
  {
  }

  // ---------------------------------------------------------------------------------------------------------------
  // Any number of children under one ledger

  datatype Family = Family(children: seq<Budget>, ledger: Budget)

  datatype Attempt =
    | Request(child: nat, at: Readings)
    | ToolCall(child: nat, at: Readings)
    | Maintenance(child: nat)

  function OutcomeOf(family: Family, attempt: Attempt): Outcome
    requires attempt.child < |family.children|
  {
    var child := family.children[attempt.child];
    match attempt
    case Request(_, at) => CompositeRequest(child, family.ledger, at)
    case ToolCall(_, at) => CompositeToolCall(child, family.ledger, at)
    case Maintenance(_) =>
      Outcome(true,
              child.(maintenanceRequests := child.maintenanceRequests + 1),
              family.ledger.(maintenanceRequests := family.ledger.maintenanceRequests + 1))
  }

  /** An attempt by a child that does not exist changes nothing. */
  function Apply(family: Family, attempt: Attempt): Family {
    if attempt.child < |family.children| then
      var outcome := OutcomeOf(family, attempt);
      Family(family.children[attempt.child := outcome.primary], outcome.shared)
    else
      family
  }

  function ApplyAll(family: Family, attempts: seq<Attempt>): Family {
    if attempts == [] then family
    else Apply(ApplyAll(family, attempts[..|attempts| - 1]), attempts[|attempts| - 1])
  }

  function TotalRequests(budgets: seq<Budget>): nat {
    if budgets == [] then 0 else budgets[0].providerRequests + TotalRequests(budgets[1..])
  }

  function TotalToolCalls(budgets: seq<Budget>): nat {
    if budgets == [] then 0 else budgets[0].toolCalls + TotalToolCalls(budgets[1..])
  }

  /** The child paid and the ledger did not. */
  predicate Misfires(family: Family, attempt: Attempt) {
    && attempt.child < |family.children|
    && var outcome := OutcomeOf(family, attempt);
       !outcome.allowed && outcome.primary != family.children[attempt.child]
  }

  function RequestMisfires(family: Family, attempts: seq<Attempt>): nat {
    if attempts == [] then 0
    else
      var earlier, last := attempts[..|attempts| - 1], attempts[|attempts| - 1];
      RequestMisfires(family, earlier)
      + if last.Request? && Misfires(ApplyAll(family, earlier), last) then 1 else 0
  }

  function ToolMisfires(family: Family, attempts: seq<Attempt>): nat {
    if attempts == [] then 0
    else
      var earlier, last := attempts[..|attempts| - 1], attempts[|attempts| - 1];
      ToolMisfires(family, earlier)
      + if last.ToolCall? && Misfires(ApplyAll(family, earlier), last) then 1 else 0
  }

  lemma {:induction false} TotalsAfterUpdate(budgets: seq<Budget>, i: nat, next: Budget)
    requires i < |budgets|
    ensures TotalRequests(budgets[i := next])
            == TotalRequests(budgets) - budgets[i].providerRequests + next.providerRequests
    ensures TotalToolCalls(budgets[i := next]) == TotalToolCalls(budgets) - budgets[i].toolCalls + next.toolCalls
    decreases |budgets|
  {
    if i == 0 {
      assert budgets[i := next][1..] == budgets[1..];
    } else {
      assert budgets[i := next][1..] == budgets[1..][i - 1 := next];
      TotalsAfterUpdate(budgets[1..], i - 1, next);
    }
  }

  /** Conservation, exactly and for every run of attempts, whatever the clock does: what the children paid is what the
      ledger paid plus one for every misfire. */
  lemma {:induction false} LedgerConservation(start: Family, attempts: seq<Attempt>)
    ensures var end := ApplyAll(start, attempts);
            && |end.children| == |start.children|
            && TotalRequests(end.children) - TotalRequests(start.children)
               == end.ledger.providerRequests - start.ledger.providerRequests + RequestMisfires(start, attempts)
            && TotalToolCalls(end.children) - TotalToolCalls(start.children)
               == end.ledger.toolCalls - start.ledger.toolCalls + ToolMisfires(start, attempts)
    decreases |attempts|
  {
    if attempts != [] {
      var earlier, last := attempts[..|attempts| - 1], attempts[|attempts| - 1];
      LedgerConservation(start, earlier);
      var before := ApplyAll(start, earlier);
      if last.child < |before.children| {
        TotalsAfterUpdate(before.children, last.child, OutcomeOf(before, last).primary);
      }
    }
  }

  /** With a clock that stands still during each call no request misfires, so the ledger's request count is the sum of
      the children's; and a tool call misfires only while the ledger is at its request limit and another one. */
  lemma {:induction false} SteadyClockMisfires(start: Family, attempts: seq<Attempt>)
    requires forall a | a in attempts && !a.Maintenance? :: a.at.Fixed()
    ensures RequestMisfires(start, attempts) == 0
    ensures ToolMisfires(start, attempts) > 0 ==> ApplyAll(start, attempts).ledger.AtRequestLimit()
    decreases |attempts|
  {
    if attempts != [] {
      var earlier, last := attempts[..|attempts| - 1], attempts[|attempts| - 1];
      SteadyClockMisfires(start, earlier);
      assert last in attempts;
    }
  }

  /** Every counter of the family stays within its own limit, over every run and every clock. */
  lemma {:induction false} FamilyStaysWithinLimits(start: Family, attempts: seq<Attempt>)
    requires start.ledger.WithinLimits() && forall child | child in start.children :: child.WithinLimits()
    ensures var end := ApplyAll(start, attempts);
            && end.ledger.policy == start.ledger.policy
            && end.ledger.WithinLimits() && forall child | child in end.children :: child.WithinLimits()
    decreases |attempts|
  {
    if attempts != [] {
      var earlier, last := attempts[..|attempts| - 1], attempts[|attempts| - 1];
      FamilyStaysWithinLimits(start, earlier);
      var before := ApplyAll(start, earlier);
      if last.child < |before.children| {
        assert before.children[last.child] in before.children;
      }
    }
  }

  /** The family theorem: starting from fresh counters, with a steady clock, the ledger's requests are the sum of the
      children's and never exceed the ledger's limit, however many children there are. */
  lemma FamilyBudget(children: seq<Budget>, ledger: Budget, attempts: seq<Attempt>)
    requires forall child | child in children :: child == Fresh(child.policy, child.startedAt)
    requires ledger == Fresh(ledger.policy, ledger.startedAt)
    requires forall a | a in attempts && !a.Maintenance? :: a.at.Fixed()
    ensures var end := ApplyAll(Family(children, ledger), attempts);
            && TotalRequests(end.children) == end.ledger.providerRequests
            && TotalToolCalls(end.children) == end.ledger.toolCalls + ToolMisfires(Family(children, ledger), attempts)
            && (ledger.policy.maxProviderRequests.Some? && end.ledger.providerRequests > 0
                ==> end.ledger.providerRequests <= ledger.policy.maxProviderRequests.value)
  {
    var start := Family(children, ledger);
    NoTotals(children);
    LedgerConservation(start, attempts);
    SteadyClockMisfires(start, attempts);
    FamilyStaysWithinLimits(start, attempts);
  }

  lemma {:induction false} NoTotals(budgets: seq<Budget>)
    requires forall b | b in budgets :: b.providerRequests == 0 && b.toolCalls == 0
    ensures TotalRequests(budgets) == 0 && TotalToolCalls(budgets) == 0
    decreases |budgets|
  {
    if budgets != [] {
      NoTotals(budgets[1..]);
    }
  }
}
