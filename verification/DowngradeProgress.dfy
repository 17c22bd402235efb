/**
 * Progress of the downgrade machine: every run ends, a late run clears the request or spends an attempt,
 * and five sending runs empty the refund queue.
 */
module DowngradeProgress {
  import opened Options
  import opened Downgrade
  import opened DowngradeSafety

  // ----- Every run ends -----

  function Phase(at: Point): nat {
    match at
    case ReplanBasis(_) => 13
    case Supersede(_, _) => 12
    case CountUsers(_) => 11
    case ReleaseCancel(_) => 10
    case PlanBasis(_) => 9
    case AskPeriod(_, _) => 8
    case ReadPayments(_, _, _, _) => 7
    case Save(_, _, _) => 6
    case CancelNow(_) => 5
    case CheckEnded(_) => 4
    case ReleaseRows(_) => 3
    case DropInPlanning(_) => 4
    case Drop => 2
    case CountAttempt => 2
    case Clear(_) => 2
    case Send(_) => 1
    case SendHistory(_, _) => 1
    case SendStatus(_, _) => 1
    case SendFailed(_) => 1
  }

  /** The writes and calls left in the loops over rows. */
  function LoopSteps(at: Point): nat {
    match at
    case Supersede(rest, _) => |rest|
    case ReleaseRows(rest) => |rest|
    case Send(queued) => 4 * |queued| + 3
    case SendHistory(queued, _) => 4 * |queued| + 2
    case SendStatus(queued, _) => 4 * |queued| + 1
    case SendFailed(queued) => 4 * |queued|
    case _ => 0
  }

  /** Nearer to the end of the run: a later phase, or fewer rows to go in this one. */
  predicate Advances(before: Job, after: Job)
    requires before.Running?
  {
    after.Running? ==>
      || Phase(after.at) < Phase(before.at)
      || (Phase(after.at) == Phase(before.at) && LoopSteps(after.at) < LoopSteps(before.at))
  }

  /**
   * A step of planning: the run goes on nearer to its end, with the company as it was, or returns to wait
   * for a payment while the request is not late.
   */
  predicate PlansOn(s: State, t: State)
    requires s.job.Running?
  {
    && t.company == s.company
    && if t.job.Idle? then t == Finish(s) && !IsLate(s.job.now, s.job.company)
       else
         && t.job.now == s.job.now && t.job.company == s.job.company
         && t.lateRuns == s.lateRuns && t.sendRuns == s.sendRuns
         && Advances(s.job, t.job) && LeadsOn(t.job)
  }

  /** A point where a run with a pending request may stand. */
  predicate LeadsOn(job: Job)
    requires job.Running?
  {
    && !IsSending(job.at)
    && (job.at.CountAttempt? ==> job.company.attempts + 1 < MAX_PROVIDER_ATTEMPTS)
    && (job.at.ReleaseRows? ==> job.at.rest != [])
  }

  lemma FailedPlanningPlansOn(s: State, queued: seq<RemedyId>)
    requires s.job.Running? && Phase(s.job.at) > 3
    ensures PlansOn(s, StepFailed(s, Planning, queued))
  {
  }

  lemma SupersedePlansOn(s: State, rest: seq<RemedyId>, queued: seq<RemedyId>, reply: Reply)
    requires s.job.Running? && s.job.at == Supersede(rest, queued)
    ensures PlansOn(s, SupersedeStep(s, rest, queued, reply))
  {
    FailedPlanningPlansOn(s, queued);
  }

  lemma GotoPlansOn(s: State, at: Point)
    requires s.job.Running? && Phase(at) < Phase(s.job.at) && !IsSending(at) && !at.CountAttempt? && !at.ReleaseRows?
    ensures PlansOn(s, Goto(s, at))
  {
  }

  lemma PlanBasisPlansOn(s: State, queued: seq<RemedyId>, reply: Reply)
    requires s.job.Running? && s.job.at == PlanBasis(queued)
    ensures PlansOn(s, PlanBasisStep(s, queued, reply))
  {
    FailedPlanningPlansOn(s, queued);
  }

  lemma ReadPaymentsPlansOn(s: State, queued: seq<RemedyId>, basis: Basis, paid: bool, cards: seq<CardPayment>,
                            reply: Reply)
    requires s.job.Running? && s.job.at == ReadPayments(queued, basis, paid, cards)
    ensures PlansOn(s, ReadPaymentsStep(s, queued, basis, paid, cards, reply))
  {
    FailedPlanningPlansOn(s, queued);
    GotoPlansOn(s, CancelNow([]));
    if reply.Payments? {
      var counted := PlanPayments(s.remedies, reply.rows, cards, s.job.now);
      var parts := PlanParts(basis, paid, s.job.now, counted);
      var plan := Plan(SubscriptionOf(s.job), counted);
      var rows := RowsOf(parts, |s.plans|, plan.subscription, basis.periodStart);
      GotoPlansOn(s, Save(queued, plan, rows));
    }
  }

  lemma SavePlansOn(s: State, queued: seq<RemedyId>, plan: Plan, rows: seq<Remedy>, reply: Reply)
    requires s.job.Running? && s.job.at == Save(queued, plan, rows)
    ensures PlansOn(s, SaveStep(s, queued, plan, rows, reply))
  {
    FailedPlanningPlansOn(s, queued);
  }

  lemma PlanningPlansOn(s: State, reply: Reply)
    requires s.job.Running? && IsPlanning(s.job.at)
    ensures PlansOn(s, PlanningStep(s, reply))
  {
    match s.job.at
    case Supersede(rest, queued) =>
      SupersedePlansOn(s, rest, queued, reply);
    case PlanBasis(queued) =>
      PlanBasisPlansOn(s, queued, reply);
    case ReadPayments(queued, basis, paid, cards) =>
      ReadPaymentsPlansOn(s, queued, basis, paid, cards, reply);
    case Save(queued, plan, rows) =>
      SavePlansOn(s, queued, plan, rows, reply);
    case _ =>
      OtherPlansOn(s, reply);
  }

  lemma OtherPlansOn(s: State, reply: Reply)
    requires s.job.Running?
    requires s.job.at.ReplanBasis? || s.job.at.CountUsers? || s.job.at.ReleaseCancel? || s.job.at.AskPeriod?
    ensures PlansOn(s, PlanningStep(s, reply))
  {
    FailedPlanningPlansOn(s, s.job.at.queued);
  }

  lemma CancelAdvances(s: State, queued: seq<RemedyId>, reply: Reply)
    requires s.job.Running? && s.job.at == CancelNow(queued)
    ensures Advances(s.job, CancelStep(s, queued, reply).job)
  {
  }

  lemma ReleaseAdvances(s: State, rest: seq<RemedyId>, reply: Reply)
    requires s.job.Running? && s.job.at == ReleaseRows(rest)
    ensures Advances(s.job, ReleaseRowsStep(s, rest, reply).job)
  {
  }

  lemma ClosingAdvances(s: State, reply: Reply)
    requires s.job.Running? && !IsPlanning(s.job.at) && !IsSending(s.job.at)
    ensures Advances(s.job, ClosingStep(s, reply).job)
  {
    match s.job.at
    case CancelNow(queued) => CancelAdvances(s, queued, reply);
    case ReleaseRows(rest) => ReleaseAdvances(s, rest, reply);
    case DropInPlanning(queued) => FailedPlanningPlansOn(s, queued);
    case _ =>
  }

  lemma SendingAdvances(s: State, reply: Reply)
    requires s.job.Running? && IsSending(s.job.at)
    ensures Advances(s.job, SendingStep(s, reply).job)
  {
  }

  lemma StepAdvances(s: State, reply: Reply)
    requires s.job.Running?
    ensures Advances(s.job, JobStep(s, reply).job)
  {
    if IsPlanning(s.job.at) {
      PlanningPlansOn(s, reply);
    } else if IsSending(s.job.at) {
      SendingAdvances(s, reply);
    } else {
      ClosingAdvances(s, reply);
    }
  }

  function PhaseLeft(job: Job): nat { if job.Running? then Phase(job.at) + 1 else 0 }

  function StepsLeft(job: Job): nat { if job.Running? then LoopSteps(job.at) else 0 }

  /** The run carried to its end; `world` is what each of its writes, reads and calls comes back with. */
  function Complete(s: State, world: Point -> Reply): (t: State)
    ensures t.job.Idle?
    decreases PhaseLeft(s.job), StepsLeft(s.job)
  {
    if s.job.Idle? then s
    else
      StepAdvances(s, world(s.job.at));
      Complete(JobStep(s, world(s.job.at)), world)
  }

  /** The writes whose failure ends the run early. */
  ghost predicate WritesSucceed(world: Point -> Reply) {
    forall at: Point :: WriteDone(at, world(at))
  }

  /** Every answer of the run keeps the provider's contracts. */
  ghost predicate HonestAlong(s: State, world: Point -> Reply)
    decreases PhaseLeft(s.job), StepsLeft(s.job)
  {
    if s.job.Idle? then true
    else
      StepAdvances(s, world(s.job.at));
      HonestReply(s, world(s.job.at)) && HonestAlong(JobStep(s, world(s.job.at)), world)
  }

  /** Carrying a run to its end keeps the state safe. */
  lemma {:induction false} CompleteIsSafe(s: State, world: Point -> Reply)
    requires Safe(s) && HonestAlong(s, world)
    ensures Safe(Complete(s, world))
    decreases PhaseLeft(s.job), StepsLeft(s.job)
  {
    if s.job.Running? {
      StepAdvances(s, world(s.job.at));
      StepIsSafe(s, world(s.job.at));
      CompleteIsSafe(JobStep(s, world(s.job.at)), world);
    }
  }

  // ----- A late run clears the request or spends an attempt -----

  /** A pending request's run since it began. */
  predicate Spending(s: State) {
    s.job.Running? ==>
      if IsSending(s.job.at) then s.company.request.None?
      else
        && s.company.request.Some? && s.job.company.request == s.company.request
        && s.job.company.attempts == s.company.attempts
        && LeadsOn(s.job)
  }

  /** `t` is what a run that began with `company` ends in, as one more late run unless the request is gone. */
  predicate Spent(company: Company, lateRuns: nat, t: State) {
    t.company.request.None?
    || (t.company.request == company.request && t.lateRuns == lateRuns + 1
        && t.company.attempts == company.attempts + 1 < MAX_PROVIDER_ATTEMPTS)
  }

  /** One step of a late run: it ends with the request spent, or goes on for the same request. */
  predicate SpendsOn(s: State, t: State)
    requires s.job.Running?
  {
    && (s.company.request.None? ==> t.company.request.None?)
    && if t.job.Idle? then Spent(s.job.company, s.lateRuns, t)
       else Spending(t) && t.job.company == s.job.company && t.job.now == s.job.now && SameRequest(s, t)
  }

  predicate SameRequest(s: State, t: State) {
    t.company.request.Some? ==> t.company == s.company && t.lateRuns == s.lateRuns
  }

  predicate WriteDone(at: Point, reply: Reply) {
    at.CountAttempt? || at.ReleaseRows? || at.Drop? || at.Clear? || at.SendFailed? ==> reply.Done?
  }

  lemma LatePlanning(s: State, t: State)
    requires s.job.Running? && !IsSending(s.job.at) && Spending(s) && IsLate(s.job.now, s.company) && PlansOn(s, t)
    ensures SpendsOn(s, t)
  {
  }

  lemma LateCancel(s: State, queued: seq<RemedyId>, reply: Reply)
    requires s.job.Running? && s.job.at == CancelNow(queued) && Spending(s) && IsLate(s.job.now, s.company)
    ensures SpendsOn(s, CancelStep(s, queued, reply))
  {
  }

  lemma LateRelease(s: State, rest: seq<RemedyId>, reply: Reply)
    requires s.job.Running? && s.job.at == ReleaseRows(rest) && Spending(s) && IsLate(s.job.now, s.company)
             && reply.Done?
    ensures SpendsOn(s, ReleaseRowsStep(s, rest, reply))
  {
  }

  lemma LateAttempt(s: State, reply: Reply)
    requires s.job.Running? && s.job.at.CountAttempt? && Spending(s) && IsLate(s.job.now, s.company) && reply.Done?
    ensures SpendsOn(s, CountAttemptStep(s, reply))
  {
  }

  lemma LateClosing(s: State, reply: Reply)
    requires s.job.Running? && !IsPlanning(s.job.at) && !IsSending(s.job.at) && Spending(s)
             && WriteDone(s.job.at, reply)
    requires IsLate(s.job.now, s.company)
    ensures SpendsOn(s, ClosingStep(s, reply))
  {
    match s.job.at
    case CancelNow(queued) =>
      LateCancel(s, queued, reply);
    case ReleaseRows(rest) =>
      LateRelease(s, rest, reply);
    case CountAttempt =>
      LateAttempt(s, reply);
    case DropInPlanning(queued) =>
      FailedPlanningPlansOn(s, queued);
      LatePlanning(s, StepFailed(s, Planning, queued));
    case _ =>
  }

  lemma LateSending(s: State, reply: Reply)
    requires s.job.Running? && IsSending(s.job.at) && Spending(s) && WriteDone(s.job.at, reply)
    ensures SpendsOn(s, SendingStep(s, reply))
  {
  }

  lemma LateStep(s: State, reply: Reply)
    requires s.job.Running? && Spending(s) && WriteDone(s.job.at, reply)
    requires s.company.request.Some? ==> IsLate(s.job.now, s.company)
    ensures SpendsOn(s, JobStep(s, reply))
  {
    if IsPlanning(s.job.at) {
      PlanningPlansOn(s, reply);
      LatePlanning(s, PlanningStep(s, reply));
    } else if IsSending(s.job.at) {
      LateSending(s, reply);
    } else {
      LateClosing(s, reply);
    }
  }

  lemma {:induction false} LateStepsSpend(s: State, world: Point -> Reply)
    requires s.job.Running? && Spending(s) && WritesSucceed(world)
    requires s.company.request.Some? ==> IsLate(s.job.now, s.company)
    ensures Spent(s.job.company, s.lateRuns, Complete(s, world))
    ensures s.company.request.None? ==> Complete(s, world).company.request.None?
    decreases PhaseLeft(s.job), StepsLeft(s.job)
  {
    var t := JobStep(s, world(s.job.at));
    StepAdvances(s, world(s.job.at));
    LateStep(s, world(s.job.at));
    if t.job.Running? {
      LateStepsSpend(t, world);
    }
  }

  /**
   * Whatever the reads and calls of a run come back with: begun 54 hours or more after the pending request,
   * it clears the request or raises its attempts by one, to less than five.
   */
  lemma LateRunSpends(s: State, now: int, world: Point -> Reply)
    requires s.job.Idle? && IsLate(now, s.company) && WritesSucceed(world)
    ensures Spent(s.company, s.lateRuns, Complete(Begin(s, now), world))
  {
    LateStepsSpend(Begin(s, now), world);
  }

  // ----- The attempts of a request, over every run of the machine -----

  ghost predicate RequestProgress(s: State) {
    && Spending(s)
    && (s.company.request.Some? ==> s.lateRuns <= s.company.attempts < MAX_PROVIDER_ATTEMPTS)
  }

  lemma PlanningKeepsRequest(s: State, t: State)
    requires s.job.Running? && !IsSending(s.job.at) && RequestProgress(s) && PlansOn(s, t)
    ensures RequestProgress(t)
  {
  }

  lemma CancelKeepsRequest(s: State, queued: seq<RemedyId>, reply: Reply)
    requires s.job.Running? && s.job.at == CancelNow(queued) && RequestProgress(s)
    ensures RequestProgress(CancelStep(s, queued, reply))
  {
  }

  lemma ReleaseKeepsRequest(s: State, rest: seq<RemedyId>, reply: Reply)
    requires s.job.Running? && s.job.at == ReleaseRows(rest) && RequestProgress(s)
    ensures RequestProgress(ReleaseRowsStep(s, rest, reply))
  {
  }

  lemma ClosingKeepsRequest(s: State, reply: Reply)
    requires s.job.Running? && !IsPlanning(s.job.at) && !IsSending(s.job.at) && RequestProgress(s)
    ensures RequestProgress(ClosingStep(s, reply))
  {
    match s.job.at
    case CancelNow(queued) =>
      CancelKeepsRequest(s, queued, reply);
    case ReleaseRows(rest) =>
      ReleaseKeepsRequest(s, rest, reply);
    case DropInPlanning(queued) =>
      FailedPlanningPlansOn(s, queued);
      PlanningKeepsRequest(s, StepFailed(s, Planning, queued));
    case _ =>
  }

  lemma SendingKeepsRequest(s: State, reply: Reply)
    requires s.job.Running? && IsSending(s.job.at) && RequestProgress(s)
    ensures RequestProgress(SendingStep(s, reply))
  {
  }

  lemma BeginKeepsRequest(s: State, now: int)
    requires s.job.Idle? && RequestProgress(s)
    ensures RequestProgress(Begin(s, now))
  {
  }

  lemma NextKeepsRequest(s: State, e: Event)
    requires RequestProgress(s) && Enabled(s, e)
    ensures RequestProgress(Next(s, e))
  {
    match e
    case Start(now) => BeginKeepsRequest(s, now);
    case Step(reply) =>
      if IsPlanning(s.job.at) {
        PlanningPlansOn(s, reply);
        PlanningKeepsRequest(s, PlanningStep(s, reply));
      } else if IsSending(s.job.at) {
        SendingKeepsRequest(s, reply);
      } else {
        ClosingKeepsRequest(s, reply);
      }
    case _ =>
  }

  /**
   * In every reachable state a pending request has seen at most four completed late runs, and its attempts
   * are below five: the fifth late run clears it.
   */
  lemma {:induction false} FourLateRunsAtMost(states: seq<State>, events: seq<Event>, i: nat)
    requires IsRun(states, events) && i < |states|
    ensures RequestProgress(states[i])
    ensures states[i].company.request.Some? ==>
              states[i].lateRuns <= states[i].company.attempts <= 4
  {
    if i > 0 {
      FourLateRunsAtMost(states, events, i - 1);
      NextKeepsRequest(states[i - 1], events[i - 1]);
    }
  }

  // ----- The attempts of queued rows -----

  ghost predicate AttemptsLeft(rows: seq<Remedy>) {
    forall id | QueuedAt(rows, id) :: rows[id].attempts < MAX_PROVIDER_ATTEMPTS
  }

  /** Every queued row outside `toGo` has been tried in `runs` sending runs, those inside in all but the last. */
  ghost predicate Tried(rows: seq<Remedy>, toGo: seq<RemedyId>, runs: int) {
    forall id | QueuedAt(rows, id) :: (if id in toGo then runs - 1 else runs) <= rows[id].attempts
  }

  /** With no request pending, each sending run tries every queued row once. */
  ghost predicate QueueProgress(s: State) {
    && AttemptsLeft(s.remedies)
    && (s.company.request.None? ==>
          if s.job.Running? && IsSending(s.job.at) then Tried(s.remedies, s.job.at.queued, s.sendRuns + 1)
          else Tried(s.remedies, [], s.sendRuns))
  }

  lemma PlanningKeepsQueue(s: State, reply: Reply)
    requires Safe(s) && s.job.Running? && IsPlanning(s.job.at) && AttemptsLeft(s.remedies)
    ensures QueueProgress(PlanningStep(s, reply))
  {
    PlanningPlansOn(s, reply);
    if s.job.at.Save? && reply.Done? {
      SaveAddsFreshRows(s);
    } else if s.job.at.Supersede? {
      SupersedeKeepsAttempts(s, s.job.at.rest, s.job.at.queued, reply);
    } else {
      PlanningMovesTheJob(s, reply);
    }
  }

  lemma SaveAddsFreshRows(s: State)
    requires JobSound(s) && s.job.Running? && s.job.at.Save?
    ensures AttemptsLeft(PlanningStep(s, Done).remedies)
  {
    var t, n := PlanningStep(s, Done), |s.remedies|;
    forall id | QueuedAt(t.remedies, id) ensures t.remedies[id].attempts == 0 {
      assert !QueuedAt(s.remedies, id);
      assert t.remedies[id] == s.job.at.rows[id - n];
    }
  }

  lemma SupersedeKeepsAttempts(s: State, rest: seq<RemedyId>, queued: seq<RemedyId>, reply: Reply)
    requires AttemptsLeft(s.remedies)
    ensures AttemptsLeft(SupersedeStep(s, rest, queued, reply).remedies)
  {
    var t := SupersedeStep(s, rest, queued, reply);
    assert forall id | QueuedAt(t.remedies, id) :: QueuedAt(s.remedies, id) && t.remedies[id] == s.remedies[id];
  }

  lemma ReleaseKeepsQueue(s: State, rest: seq<RemedyId>, reply: Reply)
    requires PendingJob(s) && s.job.at == ReleaseRows(rest) && AttemptsLeft(s.remedies)
    ensures QueueProgress(ReleaseRowsStep(s, rest, reply))
  {
    var t := ReleaseRowsStep(s, rest, reply);
    assert forall id | QueuedAt(t.remedies, id) :: QueuedAt(s.remedies, id) && t.remedies[id] == s.remedies[id];
  }

  lemma ClearPutsQueueToGo(s: State, queued: seq<RemedyId>)
    requires PendingJob(s) && Within(s.remedies, queued) && AttemptsLeft(s.remedies)
    ensures QueueProgress(SendOrFinish(Cleared(s), queued))
  {
    assert forall id | QueuedAt(s.remedies, id) :: id in queued;
  }

  lemma DropKeepsQueue(s: State)
    requires PendingJob(s) && NoneQueued(s.remedies)
    ensures QueueProgress(Finish(Cleared(s)))
  {
  }

  lemma CancelKeepsQueue(s: State, queued: seq<RemedyId>, reply: Reply)
    requires PendingJob(s) && s.job.at == CancelNow(queued) && AttemptsLeft(s.remedies)
    ensures QueueProgress(CancelStep(s, queued, reply))
  {
  }

  /** Only dropping or clearing the request ends it here; a clear puts the whole queue to go. */
  lemma ClosingKeepsQueue(s: State, reply: Reply)
    requires JobSound(s) && s.job.Running? && !IsPlanning(s.job.at) && !IsSending(s.job.at) && AttemptsLeft(s.remedies)
    ensures QueueProgress(ClosingStep(s, reply))
  {
    match s.job.at
    case CancelNow(queued) =>
      CancelKeepsQueue(s, queued, reply);
    case ReleaseRows(rest) =>
      ReleaseKeepsQueue(s, rest, reply);
    case Clear(queued) =>
      ClearPutsQueueToGo(s, queued);
    case Drop =>
      DropKeepsQueue(s);
    case DropInPlanning(queued) =>
      DropKeepsQueue(s);
      FailedPlanningPlansOn(s, queued);
      FailedStepMovesTheJob(s, Planning, queued);
    case _ =>
  }

  lemma RowTried(s: State, queued: seq<RemedyId>, row: Remedy)
    requires s.job.Running? && s.company.request.None? && AttemptsLeft(s.remedies)
    requires queued != [] && QueuedAt(s.remedies, queued[0]) && Tried(s.remedies, queued, s.sendRuns + 1)
    requires row.attempts > s.remedies[queued[0]].attempts || !IsQueued(row)
    requires IsQueued(row) ==> row.attempts < MAX_PROVIDER_ATTEMPTS
    ensures QueueProgress(RowDone(s, queued, row))
  {
    var t := RowDone(s, queued, row);
    assert queued == [queued[0]] + queued[1..];
    forall id | QueuedAt(t.remedies, id)
      ensures t.remedies[id].attempts < MAX_PROVIDER_ATTEMPTS
      ensures (if id in queued[1..] then s.sendRuns else s.sendRuns + 1) <= t.remedies[id].attempts
    {
      assert QueuedAt(s.remedies, id);
    }
  }

  lemma SendCallKeepsQueue(s: State, queued: seq<RemedyId>, reply: Reply)
    requires s.job.Running? && s.company.request.None? && AttemptsLeft(s.remedies)
    requires queued != [] && Tried(s.remedies, queued, s.sendRuns + 1)
    ensures QueueProgress(SendCallStep(s, queued, reply))
  {
  }

  /** A send that is given up for now, or cut off by a crash, has still to be counted. */
  lemma GivenUpKeepsQueue(s: State, queued: seq<RemedyId>)
    requires s.job.Running? && s.company.request.None? && AttemptsLeft(s.remedies)
    requires Tried(s.remedies, queued, s.sendRuns + 1)
    ensures QueueProgress(Goto(s, SendFailed(queued))) && QueueProgress(Crashed(s))
  {
  }

  lemma SendingKeepsQueue(s: State, reply: Reply)
    requires Safe(s) && QueueProgress(s) && s.job.Running? && IsSending(s.job.at)
    ensures QueueProgress(SendingStep(s, reply))
  {
    assert QueuedAt(s.remedies, s.job.at.queued[0]);
    GivenUpKeepsQueue(s, s.job.at.queued);
    match s.job.at
    case Send(queued) =>
      SendCallKeepsQueue(s, queued, reply);
    case SendHistory(queued, refund) =>
      SendHistoryKeepsQueue(s, queued, refund, reply);
    case SendStatus(queued, refund) =>
      RowTried(s, queued, SentRow(RowAt(s.remedies, queued[0]), refund));
    case SendFailed(queued) =>
      RowTried(s, queued, FailedRow(RowAt(s.remedies, queued[0])));
  }

  lemma SendHistoryKeepsQueue(s: State, queued: seq<RemedyId>, refund: ProviderRefund, reply: Reply)
    requires s.job.Running? && s.company.request.None? && AttemptsLeft(s.remedies)
    requires Tried(s.remedies, queued, s.sendRuns + 1)
    ensures QueueProgress(SendHistoryStep(s, queued, refund, reply))
  {
  }

  lemma BeginKeepsQueue(s: State, now: int)
    requires Safe(s) && QueueProgress(s) && s.job.Idle?
    ensures QueueProgress(Begin(s, now))
  {
    QueuedIdsAreExact(s);
  }

  lemma UpdateKeepsQueue(s: State, id: RemedyId, refund: nat, state: RefundState, at: int)
    requires QueueProgress(s) && s.job.Idle?
    ensures QueueProgress(Settled(s, id, refund, state, at))
  {
    var t := Settled(s, id, refund, state, at);
    assert forall i | QueuedAt(t.remedies, i) :: QueuedAt(s.remedies, i) && t.remedies[i] == s.remedies[i];
  }

  lemma RequestKeepsQueue(s: State, e: Event)
    requires QueueProgress(s) && s.job.Idle? && (e.RequestDowngrade? || e.Withdraw?)
    ensures QueueProgress(Next(s, e))
  {
    QueuedIdsAreExact(s);
  }

  lemma OtherEventKeepsQueue(s: State, e: Event)
    requires Safe(s) && QueueProgress(s)
    requires e.Crash? || e.ProviderEnds? || e.CompanyChanges? || e.CustomerChanges? || e.PaymentArrives?
             || e.OperatorRefunds?
    ensures QueueProgress(Next(s, e))
  {
    assert forall id | QueuedAt(Next(s, e).remedies, id) ::
             QueuedAt(s.remedies, id) && Next(s, e).remedies[id] == s.remedies[id];
  }

  lemma StepKeepsQueue(s: State, reply: Reply)
    requires Safe(s) && QueueProgress(s) && s.job.Running?
    ensures QueueProgress(JobStep(s, reply))
  {
    if IsPlanning(s.job.at) {
      PlanningKeepsQueue(s, reply);
    } else if IsSending(s.job.at) {
      SendingKeepsQueue(s, reply);
    } else {
      ClosingKeepsQueue(s, reply);
    }
  }

  lemma NextKeepsQueue(s: State, e: Event)
    requires Safe(s) && QueueProgress(s) && Enabled(s, e)
    ensures QueueProgress(Next(s, e))
  {
    match e
    case Start(now) => BeginKeepsQueue(s, now);
    case Step(reply) => StepKeepsQueue(s, reply);
    case RefundUpdated(id, refund, state, at) => UpdateKeepsQueue(s, id, refund, state, at);
    case RequestDowngrade(_, _) => RequestKeepsQueue(s, e);
    case Withdraw => RequestKeepsQueue(s, e);
    case _ => OtherEventKeepsQueue(s, e);
  }

  lemma {:induction false} QueueProgressInEveryRun(states: seq<State>, events: seq<Event>, i: nat)
    requires IsRun(states, events) && i < |states|
    ensures QueueProgress(states[i])
  {
    if i > 0 {
      QueueProgressInEveryRun(states, events, i - 1);
      RunIsSafe(states, events, i - 1);
      NextKeepsQueue(states[i - 1], events[i - 1]);
    }
  }

  lemma {:induction false} SendingStepsCount(s: State, world: Point -> Reply)
    requires s.job.Running? && IsSending(s.job.at) && s.company.request.None? && WritesSucceed(world)
    requires s.job.at.queued != []
    ensures Complete(s, world).sendRuns == s.sendRuns + 1 && Complete(s, world).company == s.company
    decreases PhaseLeft(s.job), StepsLeft(s.job)
  {
    var t := JobStep(s, world(s.job.at));
    StepAdvances(s, world(s.job.at));
    SendingStepCounts(s, world(s.job.at));
    if t.job.Running? {
      SendingStepsCount(t, world);
    }
  }

  lemma SendingStepCounts(s: State, reply: Reply)
    requires s.job.Running? && IsSending(s.job.at) && s.company.request.None? && WriteDone(s.job.at, reply)
    requires s.job.at.queued != []
    ensures var t := JobStep(s, reply);
            && t.company == s.company
            && if t.job.Idle? then t.sendRuns == s.sendRuns + 1
               else IsSending(t.job.at) && t.job.at.queued != [] && t.sendRuns == s.sendRuns
  {
  }

  /** Whatever a run without a pending request meets, it counts as one. */
  lemma SendingRunCounts(s: State, now: int, world: Point -> Reply)
    requires s.job.Idle? && s.company.request.None? && WritesSucceed(world)
    ensures Complete(Begin(s, now), world).sendRuns == s.sendRuns + 1
  {
    if QueuedIds(s.remedies) != [] {
      SendingStepsCount(Begin(s, now), world);
    }
  }

  /**
   * In every reachable state: once five runs have completed without a pending request the refund queue is
   * empty, and a new request is accepted.
   */
  lemma FiveSendingRunsEmptyTheQueue(states: seq<State>, events: seq<Event>, i: nat, now: int,
                                     subscription: Subscription)
    requires IsRun(states, events) && i < |states|
    requires states[i].job.Idle? && states[i].company.request.None? && states[i].sendRuns >= 5
    ensures NoneQueued(states[i].remedies)
    ensures Requested(states[i], now, subscription).company.request == Some(Request(now, subscription))
  {
    QueueProgressInEveryRun(states, events, i);
    QueuedIdsAreExact(states[i]);
    assert forall id :: !QueuedAt(states[i].remedies, id);
  }
}
