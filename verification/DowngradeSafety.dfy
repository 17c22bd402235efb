/**
 * Safety over every run of the downgrade machine: refunds only after the cancel, one plan per
 * subscription at the provider, and no payment refunded beyond what its plan found refundable.
 */
module DowngradeSafety {
  import opened Options
  import opened CancelRefund
  import opened Downgrade

  // ----- What holds in every reachable state -----

  predicate QueuedAt(rows: seq<Remedy>, id: int) { 0 <= id < |rows| && IsQueued(rows[id]) }

  ghost predicate NoneQueued(rows: seq<Remedy>) {
    forall id :: !QueuedAt(rows, id)
  }

  ghost predicate Within(rows: seq<Remedy>, ids: seq<RemedyId>) {
    forall id | QueuedAt(rows, id) :: id in ids
  }

  ghost predicate AllQueued(rows: seq<Remedy>, ids: seq<RemedyId>) {
    && (forall i | 0 <= i < |ids| :: QueuedAt(rows, ids[i]))
    && (forall i, j | 0 <= i < j < |ids| :: ids[i] != ids[j])
  }

  ghost predicate Exactly(rows: seq<Remedy>, ids: seq<RemedyId>) { AllQueued(rows, ids) && Within(rows, ids) }

  ghost predicate RowsSound(rows: seq<Remedy>, plans: seq<Plan>) {
    forall id | 0 <= id < |rows| && rows[id].cause.Cancel? ::
      && rows[id].plan < |plans|
      && plans[rows[id].plan].subscription == rows[id].subscription
      && rows[id].amount >= 0
  }

  ghost predicate SentSound(rows: seq<Remedy>, provider: Provider) {
    forall id | id in provider.refunds ::
      id < |rows| && rows[id].cause.Cancel? && rows[id].subscription in provider.ended
  }

  predicate SentAt(rows: seq<Remedy>, refunds: map<RemedyId, ProviderRefund>, id: int) {
    0 <= id < |rows| && id in refunds
  }

  /** The queue holds one plan; rows of one subscription that are sent, or queued beside a sent one, are of one plan. */
  ghost predicate OnePlanSound(rows: seq<Remedy>, refunds: map<RemedyId, ProviderRefund>) {
    && (forall a, b | QueuedAt(rows, a) && QueuedAt(rows, b) :: rows[a].plan == rows[b].plan)
    && (forall a, b | SentAt(rows, refunds, a) && (SentAt(rows, refunds, b) || QueuedAt(rows, b))
                      && rows[a].subscription == rows[b].subscription :: rows[a].plan == rows[b].plan)
  }

  /** Queued rows wait for the cancel of the pending request, or the subscription has ended. */
  ghost predicate QueueRows(rows: seq<Remedy>, company: Company, ended: set<Subscription>) {
    && (company.request.Some? ==> company.hasCustomer)
    && forall id | QueuedAt(rows, id) ::
         if company.request.None? then rows[id].subscription in ended
         else rows[id].subscription == company.request.value.subscription
  }

  /** What the rows of a plan ask back from an invoice. */
  function PlannedOn(remedies: seq<Remedy>, plan: nat, invoice: Invoice): int {
    if remedies == [] then 0
    else
      var last := remedies[|remedies| - 1];
      PlannedOn(remedies[..|remedies| - 1], plan, invoice)
      + if last.cause.Cancel? && last.plan == plan && last.invoice == invoice then last.amount else 0
  }

  ghost predicate BudgetSound(rows: seq<Remedy>, plans: seq<Plan>) {
    forall plan, invoice | 0 <= plan < |plans| ::
      PlannedOn(rows, plan, invoice) <= RefundableOn(Refundables(plans[plan].payments), invoice)
  }

  ghost predicate NoneSent(rows: seq<Remedy>, refunds: map<RemedyId, ProviderRefund>, subscription: Subscription) {
    forall id | SentAt(rows, refunds, id) :: rows[id].subscription != subscription
  }

  ghost predicate SaveSound(s: State, plan: Plan, rows: seq<Remedy>) {
    && plan.subscription == SubscriptionOf(s.job)
    && (forall i | 0 <= i < |rows| ::
          && IsQueued(rows[i]) && rows[i].plan == |s.plans| && rows[i].subscription == plan.subscription
          && rows[i].amount >= 0 && rows[i].attempts == 0 && rows[i].ref.None?)
    && (forall p, invoice :: PlannedOn(rows, p, invoice) <=
                             if p == |s.plans| then RefundableOn(Refundables(plan.payments), invoice) else 0)
  }

  ghost predicate JobSound(s: State) {
    s.job.Running? ==>
      if IsSending(s.job.at) then
        && s.company.request.None? && AllQueued(s.remedies, s.job.at.queued) && s.job.at.queued != []
        && (s.job.at.SendHistory? || s.job.at.SendStatus? ==>
              s.job.at.queued[0] in s.provider.refunds
              && s.provider.refunds[s.job.at.queued[0]].id == s.job.at.refund.id)
      else
        && s.company.request.Some? && s.company.request == s.job.company.request
        && match s.job.at
           case ReplanBasis(queued) => Exactly(s.remedies, queued) && queued != []
           case Supersede(rest, queued) => Exactly(s.remedies, rest) && rest != [] && (forall id | id in rest :: id in queued)
           case CountUsers(_) => NoneQueued(s.remedies)
           case ReleaseCancel(_) => NoneQueued(s.remedies)
           case PlanBasis(_) => NoneQueued(s.remedies)
           case AskPeriod(_, _) =>
             NoneQueued(s.remedies) && NoneSent(s.remedies, s.provider.refunds, SubscriptionOf(s.job))
           case ReadPayments(_, _, _, _) =>
             NoneQueued(s.remedies) && NoneSent(s.remedies, s.provider.refunds, SubscriptionOf(s.job))
           case Save(_, plan, rows) =>
             && NoneQueued(s.remedies) && NoneSent(s.remedies, s.provider.refunds, SubscriptionOf(s.job))
             && SaveSound(s, plan, rows)
           case CancelNow(queued) => Exactly(s.remedies, queued)
           case CheckEnded(queued) => Exactly(s.remedies, queued)
           case CountAttempt => true
           case ReleaseRows(rest) => Within(s.remedies, rest) && rest != []
           case DropInPlanning(_) => NoneQueued(s.remedies)
           case Drop => NoneQueued(s.remedies)
           case Clear(queued) =>
             Exactly(s.remedies, queued) && SubscriptionOf(s.job) in s.provider.ended
           case _ => true
  }

  ghost predicate Tables(s: State) {
    && RowsSound(s.remedies, s.plans) && SentSound(s.remedies, s.provider)
    && OnePlanSound(s.remedies, s.provider.refunds) && BudgetSound(s.remedies, s.plans)
  }

  ghost predicate QueueSound(s: State) { QueueRows(s.remedies, s.company, s.provider.ended) }

  ghost predicate Safe(s: State) {
    Tables(s) && QueueSound(s) && JobSound(s)
  }

  // ----- Row lemmas -----

  lemma QueuedIdsAreExact(s: State)
    ensures AllQueued(s.remedies, QueuedIds(s.remedies)) && Within(s.remedies, QueuedIds(s.remedies))
    ensures QueuedIds(s.remedies) == [] <==> NoneQueued(s.remedies)
  {
    QueuedIdsPrefix(s.remedies);
    if QueuedIds(s.remedies) != [] {
      assert QueuedAt(s.remedies, QueuedIds(s.remedies)[0]);
    }
  }

  lemma {:induction false} QueuedIdsPrefix(rows: seq<Remedy>)
    ensures forall i | 0 <= i < |QueuedIds(rows)| :: QueuedIds(rows)[i] < |rows| && IsQueued(rows[QueuedIds(rows)[i]])
    ensures forall i, j | 0 <= i < j < |QueuedIds(rows)| :: QueuedIds(rows)[i] != QueuedIds(rows)[j]
    ensures forall id | 0 <= id < |rows| && IsQueued(rows[id]) :: id in QueuedIds(rows)
  {
    if rows != [] {
      QueuedIdsPrefix(rows[..|rows| - 1]);
    }
  }

  /** Same rows as far as money and plans go. */
  ghost predicate SameMoney(a: seq<Remedy>, b: seq<Remedy>) {
    && |a| == |b|
    && forall i | 0 <= i < |a| ::
         a[i].cause == b[i].cause && a[i].plan == b[i].plan && a[i].subscription == b[i].subscription
         && a[i].invoice == b[i].invoice && a[i].amount == b[i].amount && a[i].periodStart == b[i].periodStart
  }

  lemma {:induction false} SameMoneySamePlanned(a: seq<Remedy>, b: seq<Remedy>, plan: nat, invoice: Invoice)
    requires SameMoney(a, b)
    ensures PlannedOn(a, plan, invoice) == PlannedOn(b, plan, invoice)
  {
    if a != [] {
      SameMoneySamePlanned(a[..|a| - 1], b[..|b| - 1], plan, invoice);
    }
  }

  lemma {:induction false} PlannedOnConcat(a: seq<Remedy>, b: seq<Remedy>, plan: nat, invoice: Invoice)
    ensures PlannedOn(a + b, plan, invoice) == PlannedOn(a, plan, invoice) + PlannedOn(b, plan, invoice)
    decreases |b|
  {
    if b == [] {
      assert a + b == a;
    } else {
      PlannedOnConcat(a, b[..|b| - 1], plan, invoice);
      assert (a + b)[..|a + b| - 1] == a + b[..|b| - 1];
    }
  }

  lemma {:induction false} NothingPlannedYet(rows: seq<Remedy>, plan: nat, invoice: Invoice)
    requires forall i | 0 <= i < |rows| && rows[i].cause.Cancel? :: rows[i].plan != plan
    ensures PlannedOn(rows, plan, invoice) == 0
  {
    if rows != [] {
      NothingPlannedYet(rows[..|rows| - 1], plan, invoice);
    }
  }

  /** A row changes its state only: it may leave the queue, never enter it. */
  ghost predicate RowsAdvance(s: State, t: State) {
    && SameMoney(s.remedies, t.remedies)
    && forall id | QueuedAt(t.remedies, id) :: QueuedAt(s.remedies, id)
  }

  lemma BudgetStays(s: State, t: State)
    requires BudgetSound(s.remedies, s.plans) && SameMoney(s.remedies, t.remedies) && s.plans == t.plans
    ensures BudgetSound(t.remedies, t.plans)
  {
    forall plan, invoice | 0 <= plan < |t.plans|
      ensures PlannedOn(t.remedies, plan, invoice) <= RefundableOn(Refundables(t.plans[plan].payments), invoice)
    {
      SameMoneySamePlanned(s.remedies, t.remedies, plan, invoice);
    }
  }

  /** Nothing but row states, the provider's ended subscriptions and the job has moved. */
  lemma TablesStay(s: State, t: State)
    requires Tables(s) && RowsAdvance(s, t) && s.plans == t.plans
    requires s.provider.ended <= t.provider.ended && t.provider.refunds == s.provider.refunds
    ensures Tables(t)
  {
    BudgetStays(s, t);
    assert forall id | SentAt(t.remedies, t.provider.refunds, id) :: SentAt(s.remedies, s.provider.refunds, id);
  }

  // ----- Each kind of step -----

  lemma {:induction false} RowsOfArePlanned(parts: seq<Part>, plan: nat, subscription: Subscription, start: int,
                                            p: nat, invoice: Invoice)
    ensures PlannedOn(RowsOf(parts, plan, subscription, start), p, invoice) == if p == plan then AmountOn(parts, invoice) else 0
    ensures |RowsOf(parts, plan, subscription, start)| == |parts|
    ensures forall i | 0 <= i < |parts| ::
              RowsOf(parts, plan, subscription, start)[i] ==
              Remedy(Cancel, plan, subscription, start, parts[i].invoice, parts[i].amount, Queued, 0, None)
  {
    if parts != [] {
      RowsOfArePlanned(parts[..|parts| - 1], plan, subscription, start, p, invoice);
    }
  }

  lemma {:induction false} SharesArePositive(amount: int, payments: seq<RefundablePayment>, count: nat)
    requires count <= |payments|
    ensures forall i | 0 <= i < |Shares(amount, payments, count)| :: Shares(amount, payments, count)[i].amount > 0
  {
    if count > 0 {
      SharesArePositive(amount, payments, count - 1);
    }
  }

  lemma PlanIsSound(s: State, basis: Basis, paid: bool, counted: seq<Counted>)
    requires s.job.Running?
    ensures SaveSound(s, Plan(SubscriptionOf(s.job), counted),
                      RowsOf(PlanParts(basis, paid, s.job.now, counted), |s.plans|, SubscriptionOf(s.job), basis.periodStart))
  {
    var refundables := Refundables(counted);
    var amount := Compute(InputOf(basis, paid, s.job.now, TotalRefundable(refundables))).amount;
    var parts := PlanParts(basis, paid, s.job.now, counted);
    var rows := RowsOf(parts, |s.plans|, SubscriptionOf(s.job), basis.periodStart);
    SharesArePositive(amount, refundables, |refundables|);
    RowsOfArePlanned(parts, |s.plans|, SubscriptionOf(s.job), basis.periodStart, 0, 0);
    forall p, invoice
      ensures PlannedOn(rows, p, invoice) <= if p == |s.plans| then RefundableOn(refundables, invoice) else 0
    {
      RowsOfArePlanned(parts, |s.plans|, SubscriptionOf(s.job), basis.periodStart, p, invoice);
      SharesStayRefundable(amount, refundables, |refundables|, invoice);
      assert refundables[..|refundables|] == refundables;
    }
  }

  lemma NotEndedNotSent(s: State, subscription: Subscription)
    requires SentSound(s.remedies, s.provider) && subscription !in s.provider.ended
    ensures NoneSent(s.remedies, s.provider.refunds, subscription)
  {
  }

  ghost predicate PendingJob(s: State) {
    s.job.Running? && s.company.request.Some? && s.company.request == s.job.company.request
  }

  /** A failed step counts an attempt or gives the queue back. */
  lemma FailedStepIsSound(s: State, step: FailedStep, queued: seq<RemedyId>)
    requires PendingJob(s) && Within(s.remedies, queued)
    requires step.Cancelling? ==> AllQueued(s.remedies, queued)
    ensures JobSound(StepFailed(s, step, queued))
  {
    assert queued == [] ==> NoneQueued(s.remedies);
  }

  lemma PlanningStartIsSound(s: State, queued: seq<RemedyId>)
    requires PendingJob(s) && NoneQueued(s.remedies)
    ensures JobSound(StartPlanning(s, queued))
  {
  }

  /** Only the job and its counters moved. */
  predicate OnlyJobMoved(s: State, t: State) {
    t == s.(job := t.job, lateRuns := t.lateRuns, sendRuns := t.sendRuns)
  }

  lemma FailedStepMovesTheJob(s: State, step: FailedStep, queued: seq<RemedyId>)
    ensures OnlyJobMoved(s, StepFailed(s, step, queued))
  {
  }

  lemma PlanBasisMovesTheJob(s: State, queued: seq<RemedyId>, reply: Reply)
    requires s.job.Running?
    ensures OnlyJobMoved(s, PlanBasisStep(s, queued, reply))
  {
    FailedStepMovesTheJob(s, Planning, queued);
  }

  lemma ReadPaymentsMovesTheJob(s: State, queued: seq<RemedyId>, basis: Basis, paid: bool, cards: seq<CardPayment>,
                                reply: Reply)
    requires s.job.Running?
    ensures OnlyJobMoved(s, ReadPaymentsStep(s, queued, basis, paid, cards, reply))
  {
    FailedStepMovesTheJob(s, Planning, queued);
  }

  /** A step of planning that writes no row. */
  lemma PlanningMovesTheJob(s: State, reply: Reply)
    requires s.job.Running? && IsPlanning(s.job.at) && !s.job.at.Supersede? && (s.job.at.Save? ==> !reply.Done?)
    ensures OnlyJobMoved(s, PlanningStep(s, reply))
  {
    FailedStepMovesTheJob(s, Planning, s.job.at.queued);
    if s.job.at.PlanBasis? {
      PlanBasisMovesTheJob(s, s.job.at.queued, reply);
    } else if s.job.at.ReadPayments? {
      ReadPaymentsMovesTheJob(s, s.job.at.queued, s.job.at.basis, s.job.at.paid, s.job.at.cards, reply);
    }
  }

  lemma ReplanBasisJob(s: State, queued: seq<RemedyId>, reply: Reply)
    requires PendingJob(s) && Exactly(s.remedies, queued) && queued != []
    ensures JobSound(ReplanBasisStep(s, queued, reply))
  {
    FailedStepIsSound(s, Planning, queued);
  }

  lemma CountUsersJob(s: State, queued: seq<RemedyId>, reply: Reply)
    requires PendingJob(s) && NoneQueued(s.remedies)
    ensures JobSound(CountUsersStep(s, queued, reply))
  {
    FailedStepIsSound(s, Planning, queued);
  }

  lemma ReleaseCancelJob(s: State, queued: seq<RemedyId>, reply: Reply)
    requires PendingJob(s) && NoneQueued(s.remedies)
    ensures JobSound(ReleaseCancelStep(s, queued, reply))
  {
    FailedStepIsSound(s, Planning, queued);
  }

  lemma PlanBasisJob(s: State, queued: seq<RemedyId>, reply: Reply)
    requires PendingJob(s) && NoneQueued(s.remedies) && SentSound(s.remedies, s.provider)
    requires reply.BasisReply? && reply.basis.Some? ==> SubscriptionOf(s.job) !in s.provider.ended
    ensures JobSound(PlanBasisStep(s, queued, reply))
  {
    if reply.BasisReply? {
      BasisReadJob(s, queued, reply);
    } else {
      FailedStepIsSound(s, Planning, queued);
    }
  }

  lemma BasisReadJob(s: State, queued: seq<RemedyId>, reply: Reply)
    requires PendingJob(s) && NoneQueued(s.remedies) && SentSound(s.remedies, s.provider) && reply.BasisReply?
    requires reply.basis.Some? ==> SubscriptionOf(s.job) !in s.provider.ended
    ensures JobSound(PlanBasisStep(s, queued, reply))
  {
    if reply.basis.Some? {
      NotEndedNotSent(s, SubscriptionOf(s.job));
    }
  }

  /** Nothing is queued, and nothing of the subscription was sent. */
  ghost predicate FreshPlan(s: State) {
    PendingJob(s) && NoneQueued(s.remedies) && NoneSent(s.remedies, s.provider.refunds, SubscriptionOf(s.job))
  }

  lemma AskPeriodJob(s: State, queued: seq<RemedyId>, basis: Basis, reply: Reply)
    requires FreshPlan(s)
    ensures JobSound(AskPeriodStep(s, queued, basis, reply))
  {
    FailedStepIsSound(s, Planning, queued);
  }

  lemma ReadPaymentsJob(s: State, queued: seq<RemedyId>, basis: Basis, paid: bool, cards: seq<CardPayment>,
                        reply: Reply)
    requires FreshPlan(s)
    ensures var t := ReadPaymentsStep(s, queued, basis, paid, cards, reply); JobSound(t)
  {
    FailedStepIsSound(s, Planning, queued);
    if reply.Payments? {
      PlanIsSound(s, basis, paid, PlanPayments(s.remedies, reply.rows, cards, s.job.now));
    }
  }

  lemma SaveFailsJob(s: State, queued: seq<RemedyId>, plan: Plan, rows: seq<Remedy>, reply: Reply)
    requires PendingJob(s) && NoneQueued(s.remedies) && !reply.Done?
    ensures JobSound(SaveStep(s, queued, plan, rows, reply))
  {
    FailedStepIsSound(s, Planning, queued);
  }

  lemma StillTables(s: State, t: State)
    requires Tables(s) && s.remedies == t.remedies && s.plans == t.plans
    requires s.provider.ended <= t.provider.ended && t.provider.refunds == s.provider.refunds
    ensures Tables(t)
  {
    TablesStay(s, t);
  }

  lemma SaveTables(s: State, t: State, plan: Plan, rows: seq<Remedy>)
    requires Tables(s) && NoneQueued(s.remedies) && NoneSent(s.remedies, s.provider.refunds, plan.subscription)
             && SaveSound(s, plan, rows)
    requires t.remedies == s.remedies + rows && t.plans == s.plans + [plan] && t.provider == s.provider
    ensures Tables(t)
  {
    var n := |s.remedies|;
    assert forall id | n <= id < |t.remedies| :: t.remedies[id] == rows[id - n];
    assert forall id | 0 <= id < n :: t.remedies[id] == s.remedies[id];
    assert forall id | QueuedAt(t.remedies, id) :: n <= id by {
      forall id | QueuedAt(t.remedies, id) ensures n <= id {
        assert !QueuedAt(s.remedies, id);
      }
    }
    assert forall id | SentAt(t.remedies, t.provider.refunds, id) :: SentAt(s.remedies, s.provider.refunds, id);
    SaveBudget(s, t, plan, rows);
  }

  lemma SaveBudget(s: State, t: State, plan: Plan, rows: seq<Remedy>)
    requires RowsSound(s.remedies, s.plans) && BudgetSound(s.remedies, s.plans) && SaveSound(s, plan, rows)
    requires t.remedies == s.remedies + rows && t.plans == s.plans + [plan]
    ensures BudgetSound(t.remedies, t.plans)
  {
    forall p, invoice | 0 <= p < |t.plans|
      ensures PlannedOn(t.remedies, p, invoice) <= RefundableOn(Refundables(t.plans[p].payments), invoice)
    {
      PlannedOnConcat(s.remedies, rows, p, invoice);
      if p == |s.plans| {
        NothingPlannedYet(s.remedies, p, invoice);
      }
    }
  }

  lemma SaveQueue(s: State, queued: seq<RemedyId>, plan: Plan, rows: seq<Remedy>)
    requires QueueSound(s) && PendingJob(s) && NoneQueued(s.remedies) && SaveSound(s, plan, rows)
    ensures var t := SaveStep(s, queued, plan, rows, Done); QueueSound(t) && JobSound(t)
  {
    var n := |s.remedies|;
    var t := SaveStep(s, queued, plan, rows, Done);
    assert forall id | n <= id < |t.remedies| :: t.remedies[id] == rows[id - n];
    forall id | QueuedAt(t.remedies, id) ensures n <= id {
      assert !QueuedAt(s.remedies, id);
    }
    var ids := NewIds(s, rows);
    forall id | QueuedAt(t.remedies, id) ensures id in ids {
      assert ids[id - n] == id;
    }
  }

  lemma QueueShrinks(s: State, rest: seq<RemedyId>, row: Remedy, t: State)
    requires rest != [] && Within(s.remedies, rest) && !IsQueued(row)
    requires t.remedies == WhereQueued(s.remedies, rest[0], row)
    ensures Within(t.remedies, rest[1..]) && forall id | QueuedAt(t.remedies, id) :: QueuedAt(s.remedies, id) && id != rest[0]
    ensures AllQueued(s.remedies, rest) ==> AllQueued(t.remedies, rest[1..])
  {
    forall id | QueuedAt(t.remedies, id) ensures QueuedAt(s.remedies, id) && id != rest[0] && id in rest[1..] {
      assert QueuedAt(s.remedies, id);
    }
    if AllQueued(s.remedies, rest) {
      forall i | 0 <= i < |rest| - 1 ensures QueuedAt(t.remedies, rest[1..][i]) {
        assert QueuedAt(s.remedies, rest[i + 1]);
      }
    }
  }

  lemma SupersedeJob(s: State, rest: seq<RemedyId>, queued: seq<RemedyId>, reply: Reply)
    requires QueueSound(s) && PendingJob(s) && Exactly(s.remedies, rest) && rest != [] && forall id | id in rest :: id in queued
    ensures var t := SupersedeStep(s, rest, queued, reply);
            QueueSound(t) && JobSound(t) && RowsAdvance(s, t) && t.plans == s.plans && t.provider == s.provider
  {
    var row := RowAt(s.remedies, rest[0]).(status := RemedyStatus.Failed);
    var u := s.(remedies := WhereQueued(s.remedies, rest[0], row));
    QueueShrinks(s, rest, row, u);
    if reply.Done? {
      if |rest| == 1 {
        PlanningStartIsSound(u, queued);
      }
    } else {
      FailedStepIsSound(s, Planning, queued);
    }
  }

  lemma SupersedeIsSafe(s: State, reply: Reply)
    requires Safe(s) && s.job.Running? && s.job.at.Supersede?
    ensures Safe(PlanningStep(s, reply))
  {
    SupersedeJob(s, s.job.at.rest, s.job.at.queued, reply);
    TablesStay(s, PlanningStep(s, reply));
  }

  lemma SaveIsSafe(s: State)
    requires Safe(s) && s.job.Running? && s.job.at.Save?
    ensures Safe(PlanningStep(s, Done))
  {
    SaveTables(s, PlanningStep(s, Done), s.job.at.plan, s.job.at.rows);
    SaveQueue(s, s.job.at.queued, s.job.at.plan, s.job.at.rows);
  }

  lemma PlanningIsSafe(s: State, reply: Reply)
    requires Safe(s) && s.job.Running? && IsPlanning(s.job.at) && HonestReply(s, reply)
    ensures Safe(PlanningStep(s, reply))
  {
    if s.job.at.Save? && reply.Done? {
      SaveIsSafe(s);
    } else if s.job.at.Supersede? {
      SupersedeIsSafe(s, reply);
    } else {
      PlanningMovesTheJob(s, reply);
      StillTables(s, PlanningStep(s, reply));
      PlanningJob(s, reply);
    }
  }

  lemma PlanningJob(s: State, reply: Reply)
    requires SentSound(s.remedies, s.provider) && JobSound(s) && HonestReply(s, reply)
    requires s.job.Running? && IsPlanning(s.job.at) && !s.job.at.Supersede? && (s.job.at.Save? ==> !reply.Done?)
    ensures JobSound(PlanningStep(s, reply))
  {
    match s.job.at
    case ReplanBasis(queued) => ReplanBasisJob(s, queued, reply);
    case CountUsers(queued) => CountUsersJob(s, queued, reply);
    case ReleaseCancel(queued) => ReleaseCancelJob(s, queued, reply);
    case PlanBasis(queued) => PlanBasisJob(s, queued, reply);
    case AskPeriod(queued, basis) => AskPeriodJob(s, queued, basis, reply);
    case ReadPayments(queued, basis, paid, cards) => ReadPaymentsJob(s, queued, basis, paid, cards, reply);
    case Save(queued, plan, rows) => SaveFailsJob(s, queued, plan, rows, reply);
  }

  lemma ReleaseIsSafe(s: State, rest: seq<RemedyId>, reply: Reply)
    requires Tables(s) && QueueSound(s) && PendingJob(s) && Within(s.remedies, rest) && rest != []
    ensures Safe(ReleaseRowsStep(s, rest, reply))
  {
    var row := ReleasedRow(RowAt(s.remedies, rest[0]), s.job.company.attempts + 1);
    if reply.Done? {
      ReleasedIsSafe(s, rest, row);
      assert ReleaseRowsStep(s, rest, reply) == RowReleased(s, rest, row);
    } else {
      CrashIsSafe(s);
      assert ReleaseRowsStep(s, rest, reply) == Crashed(s);
    }
  }

  lemma CrashIsSafe(s: State)
    requires Tables(s) && QueueSound(s)
    ensures Safe(Crashed(s))
  {
    StillTables(s, Crashed(s));
  }

  lemma ReleasedRows(rows: seq<Remedy>, rest: seq<RemedyId>, row: Remedy, after: seq<Remedy>)
    requires Within(rows, rest) && rest != [] && after == WhereQueued(rows, rest[0], row)
    requires row == ReleasedRow(RowAt(rows, rest[0]), row.attempts)
    ensures SameMoney(rows, after) && Within(after, rest[1..])
    ensures forall id | QueuedAt(after, id) :: QueuedAt(rows, id)
  {
    forall id | QueuedAt(after, id) ensures QueuedAt(rows, id) && id in rest[1..] {
      assert QueuedAt(rows, id);
    }
  }

  lemma ReleasedIsSafe(s: State, rest: seq<RemedyId>, row: Remedy)
    requires Tables(s) && QueueSound(s) && PendingJob(s) && Within(s.remedies, rest) && rest != []
    requires row == ReleasedRow(RowAt(s.remedies, rest[0]), row.attempts)
    ensures Safe(RowReleased(s, rest, row))
  {
    var t := RowReleased(s, rest, row);
    ReleasedRows(s.remedies, rest, row, t.remedies);
    TablesStay(s, t);
  }

  lemma CancelQueue(s: State, queued: seq<RemedyId>, reply: Reply)
    requires QueueSound(s) && PendingJob(s) && Exactly(s.remedies, queued)
    ensures QueueSound(CancelStep(s, queued, reply)) && JobSound(CancelStep(s, queued, reply))
  {
    if !reply.Done? {
      FailedStepIsSound(if reply.Error? then WithEffect(s, reply.effect) else s, Cancelling, queued);
    }
  }

  lemma CheckEndedQueue(s: State, queued: seq<RemedyId>, reply: Reply)
    requires QueueSound(s) && PendingJob(s) && Exactly(s.remedies, queued)
    requires reply.BasisReply? && reply.basis.None? ==> SubscriptionOf(s.job) in s.provider.ended
    ensures QueueSound(CheckEndedStep(s, queued, reply)) && JobSound(CheckEndedStep(s, queued, reply))
  {
    assert queued == [] ==> NoneQueued(s.remedies);
  }

  lemma DropQueue(s: State, t: State)
    requires QueueSound(s) && PendingJob(s) && NoneQueued(s.remedies) && t == Finish(Cleared(s))
    ensures QueueSound(t) && JobSound(t)
  {
  }

  lemma ClearQueue(s: State, queued: seq<RemedyId>, t: State)
    requires QueueSound(s) && PendingJob(s) && Exactly(s.remedies, queued) && SubscriptionOf(s.job) in s.provider.ended
    requires t == SendOrFinish(Cleared(s), queued)
    ensures QueueSound(t) && JobSound(t)
  {
  }

  lemma CountAttemptQueue(s: State, reply: Reply)
    requires QueueSound(s) && PendingJob(s)
    ensures QueueSound(CountAttemptStep(s, reply)) && JobSound(CountAttemptStep(s, reply))
  {
  }

  lemma ClosingQueue(s: State, reply: Reply)
    requires QueueSound(s) && JobSound(s) && HonestReply(s, reply)
    requires s.job.Running? && !IsPlanning(s.job.at) && !IsSending(s.job.at) && !s.job.at.ReleaseRows?
    ensures QueueSound(ClosingStep(s, reply)) && JobSound(ClosingStep(s, reply))
  {
    match s.job.at
    case CancelNow(queued) =>
      CancelQueue(s, queued, reply);
    case CheckEnded(queued) =>
      CheckEndedQueue(s, queued, reply);
    case CountAttempt =>
      CountAttemptQueue(s, reply);
    case DropInPlanning(queued) =>
      FailedStepIsSound(s, Planning, queued);
      DropQueue(s, Finish(Cleared(s)));
    case Drop =>
      DropQueue(s, Finish(Cleared(s)));
    case Clear(queued) =>
      ClearQueue(s, queued, SendOrFinish(Cleared(s), queued));
  }

  /** Rows, plans and refunds as they were, and no subscription less has ended. */
  predicate OnlyMoreEnded(s: State, t: State) {
    t.remedies == s.remedies && t.plans == s.plans && s.provider.ended <= t.provider.ended
    && t.provider.refunds == s.provider.refunds
  }

  lemma CancelTables(s: State, queued: seq<RemedyId>, reply: Reply)
    ensures OnlyMoreEnded(s, CancelStep(s, queued, reply))
  {
  }

  lemma ClosingTables(s: State, reply: Reply)
    requires s.job.Running? && !s.job.at.ReleaseRows?
    ensures OnlyMoreEnded(s, ClosingStep(s, reply))
  {
    if s.job.at.CancelNow? {
      CancelTables(s, s.job.at.queued, reply);
    }
  }

  lemma ClosingIsSafe(s: State, reply: Reply)
    requires Safe(s) && s.job.Running? && !IsPlanning(s.job.at) && !IsSending(s.job.at) && HonestReply(s, reply)
    ensures Safe(ClosingStep(s, reply))
  {
    if s.job.at.ReleaseRows? {
      ReleaseIsSafe(s, s.job.at.rest, reply);
    } else {
      ClosingTables(s, reply);
      StillTables(s, ClosingStep(s, reply));
      ClosingQueue(s, reply);
    }
  }

  /** A queued row may go to the provider: its subscription has ended, and no other plan of it was sent. */
  lemma SendTables(s: State, id: RemedyId, refund: ProviderRefund)
    requires Tables(s) && QueueSound(s) && s.company.request.None? && QueuedAt(s.remedies, id)
    ensures Tables(WithProviderRefund(s, id, refund))
  {
    var t := WithProviderRefund(s, id, refund);
    assert forall a | SentAt(t.remedies, t.provider.refunds, a) :: SentAt(s.remedies, s.provider.refunds, a) || a == id;
    assert forall a :: QueuedAt(t.remedies, a) <==> QueuedAt(s.remedies, a);
    BudgetStays(s, t);
  }

  /** One row is through: it left the queue, or it stays for the next run. */
  lemma RowDoneIsSafe(s: State, queued: seq<RemedyId>, row: Remedy)
    requires Tables(s) && QueueSound(s) && s.job.Running? && s.company.request.None?
    requires AllQueued(s.remedies, queued) && queued != []
    requires row == RowAt(s.remedies, queued[0]).(status := row.status, attempts := row.attempts, ref := row.ref)
    ensures Safe(RowDone(s, queued, row))
  {
    var rows := WhereQueued(s.remedies, queued[0], row);
    RowDoneRows(s, queued, row, rows);
    var t := RowDone(s, queued, row);
    TablesStay(s, t);
  }

  lemma RowDoneRows(s: State, queued: seq<RemedyId>, row: Remedy, rows: seq<Remedy>)
    requires AllQueued(s.remedies, queued) && queued != []
    requires row == RowAt(s.remedies, queued[0]).(status := row.status, attempts := row.attempts, ref := row.ref)
    requires rows == WhereQueued(s.remedies, queued[0], row)
    ensures SameMoney(s.remedies, rows) && AllQueued(rows, queued[1..])
    ensures forall id | QueuedAt(rows, id) :: QueuedAt(s.remedies, id)
  {
    assert QueuedAt(s.remedies, queued[0]);
    forall i | 0 <= i < |queued| - 1 ensures QueuedAt(rows, queued[1..][i]) {
      assert QueuedAt(s.remedies, queued[i + 1]);
    }
  }

  lemma SendCallIsSafe(s: State, queued: seq<RemedyId>, reply: Reply)
    requires Tables(s) && QueueSound(s) && s.job.Running? && s.company.request.None?
    requires AllQueued(s.remedies, queued) && queued != []
    requires reply.RefundReply? ==> HonestRefund(s, queued[0], reply.refund)
    ensures Safe(SendCallStep(s, queued, reply))
  {
    assert QueuedAt(s.remedies, queued[0]);
    if reply.RefundReply? {
      SendTables(s, queued[0], reply.refund);
    } else if reply.Error? && reply.effect.Created? {
      SendTables(s, queued[0], reply.effect.refund);
    } else {
      StillTables(s, SendCallStep(s, queued, reply));
    }
    SendQueue(s, queued, reply);
  }

  lemma SendQueue(s: State, queued: seq<RemedyId>, reply: Reply)
    requires QueueSound(s) && s.job.Running? && s.company.request.None?
    requires AllQueued(s.remedies, queued) && queued != []
    requires reply.RefundReply? ==> HonestRefund(s, queued[0], reply.refund)
    ensures QueueSound(SendCallStep(s, queued, reply)) && JobSound(SendCallStep(s, queued, reply))
  {
    assert forall id :: QueuedAt(SendCallStep(s, queued, reply).remedies, id) <==> QueuedAt(s.remedies, id);
  }

  lemma SendHistoryIsSafe(s: State, queued: seq<RemedyId>, refund: ProviderRefund, reply: Reply)
    requires Safe(s) && s.job.Running? && s.job.at == SendHistory(queued, refund)
    ensures Safe(SendHistoryStep(s, queued, refund, reply))
  {
    StillTables(s, SendHistoryStep(s, queued, refund, reply));
  }

  lemma GivenUpIsSafe(s: State, queued: seq<RemedyId>)
    requires Tables(s) && QueueSound(s) && s.job.Running? && s.company.request.None?
    requires AllQueued(s.remedies, queued) && queued != []
    ensures Safe(Goto(s, SendFailed(queued))) && Safe(Crashed(s))
  {
    StillTables(s, Goto(s, SendFailed(queued)));
    CrashIsSafe(s);
  }

  lemma SendStatusIsSafe(s: State, queued: seq<RemedyId>, refund: ProviderRefund, reply: Reply)
    requires Tables(s) && QueueSound(s) && s.job.Running? && s.company.request.None?
    requires AllQueued(s.remedies, queued) && queued != []
    ensures Safe(SendStatusStep(s, queued, refund, reply))
  {
    GivenUpIsSafe(s, queued);
    RowDoneIsSafe(s, queued, SentRow(RowAt(s.remedies, queued[0]), refund));
  }

  lemma SendFailedIsSafe(s: State, queued: seq<RemedyId>, reply: Reply)
    requires Tables(s) && QueueSound(s) && s.job.Running? && s.company.request.None?
    requires AllQueued(s.remedies, queued) && queued != []
    ensures Safe(SendFailedStep(s, queued, reply))
  {
    GivenUpIsSafe(s, queued);
    RowDoneIsSafe(s, queued, FailedRow(RowAt(s.remedies, queued[0])));
  }

  lemma SendingIsSafe(s: State, reply: Reply)
    requires Safe(s) && s.job.Running? && IsSending(s.job.at) && HonestReply(s, reply)
    ensures Safe(SendingStep(s, reply))
  {
    match s.job.at
    case Send(queued) =>
      SendCallIsSafe(s, queued, reply);
    case SendHistory(queued, refund) =>
      SendHistoryIsSafe(s, queued, refund, reply);
    case SendStatus(queued, refund) =>
      SendStatusIsSafe(s, queued, refund, reply);
    case SendFailed(queued) =>
      SendFailedIsSafe(s, queued, reply);
  }

  lemma StartIsSafe(s: State, now: int)
    requires Safe(s) && s.job.Idle?
    ensures Safe(Begin(s, now))
  {
    StillTables(s, Begin(s, now));
    StartQueue(s, now);
  }

  lemma StartQueue(s: State, now: int)
    requires QueueSound(s) && s.job.Idle?
    ensures QueueSound(Begin(s, now)) && JobSound(Begin(s, now))
  {
    QueuedIdsAreExact(s);
    if QueuedIds(s.remedies) == [] && s.company.request.Some? {
      PlanningStartIsSound(s.(job := Running(now, s.company, Drop)), []);
    }
  }

  lemma UpdateIsSafe(s: State, id: RemedyId, refund: nat, state: RefundState, at: int)
    requires Safe(s) && s.job.Idle?
    ensures Safe(Settled(s, id, refund, state, at))
  {
    SettledAdvances(s, id, refund, state, at);
    TablesStay(s, Settled(s, id, refund, state, at));
  }

  lemma SettledAdvances(s: State, id: RemedyId, refund: nat, state: RefundState, at: int)
    ensures var t := Settled(s, id, refund, state, at);
            RowsAdvance(s, t) && t == s.(remedies := t.remedies, history := t.history)
  {
  }

  /** An operator's refund is a row of its own kind. */
  lemma OperatorIsSafe(s: State, t: State)
    requires Safe(s) && |t.remedies| == |s.remedies| + 1 && t.remedies[|s.remedies|].cause.MakeItRight?
    requires t == s.(remedies := s.remedies + [t.remedies[|s.remedies|]])
    ensures Safe(t)
  {
    var n := |s.remedies|;
    assert forall id | 0 <= id < n :: t.remedies[id] == s.remedies[id];
    assert forall id :: QueuedAt(t.remedies, id) <==> QueuedAt(s.remedies, id);
    OperatorTables(s, t);
    OperatorJob(s, t);
  }

  lemma OperatorRefundIsSafe(s: State, invoice: Invoice, amount: nat, refund: nat)
    requires Safe(s)
    ensures Safe(Next(s, OperatorRefunds(invoice, amount, refund)))
  {
    OperatorIsSafe(s, Next(s, OperatorRefunds(invoice, amount, refund)));
  }

  lemma OperatorTables(s: State, t: State)
    requires Tables(s) && |t.remedies| == |s.remedies| + 1 && t.remedies[|s.remedies|].cause.MakeItRight?
    requires t == s.(remedies := s.remedies + [t.remedies[|s.remedies|]])
    ensures Tables(t)
  {
    assert forall id :: QueuedAt(t.remedies, id) ==> QueuedAt(s.remedies, id);
    assert forall id | SentAt(t.remedies, t.provider.refunds, id) :: SentAt(s.remedies, s.provider.refunds, id);
    forall p, v | 0 <= p < |t.plans|
      ensures PlannedOn(t.remedies, p, v) <= RefundableOn(Refundables(t.plans[p].payments), v)
    {
      PlannedOnConcat(s.remedies, [t.remedies[|s.remedies|]], p, v);
      NothingPlannedYet([t.remedies[|s.remedies|]], p, v);
    }
  }

  lemma OperatorJob(s: State, t: State)
    requires SentSound(s.remedies, s.provider) && JobSound(s) && |t.remedies| == |s.remedies| + 1
    requires t == s.(remedies := s.remedies + [t.remedies[|s.remedies|]])
    requires forall id :: QueuedAt(t.remedies, id) <==> QueuedAt(s.remedies, id)
    ensures JobSound(t)
  {
    assert forall id | SentAt(t.remedies, t.provider.refunds, id) :: SentAt(s.remedies, s.provider.refunds, id);
  }

  /** The events that touch neither rows nor the job. */
  lemma QuietQueue(s: State, e: Event)
    requires QueueSound(s) && JobSound(s) && Enabled(s, e)
    requires e.RequestDowngrade? || e.Withdraw? || e.Crash? || e.ProviderEnds? || e.CompanyChanges?
             || e.CustomerChanges? || e.PaymentArrives?
    ensures QueueSound(Next(s, e)) && JobSound(Next(s, e))
  {
    QueuedIdsAreExact(s);
  }

  lemma QuietIsSafe(s: State, e: Event)
    requires Safe(s) && Enabled(s, e)
    requires e.RequestDowngrade? || e.Withdraw? || e.Crash? || e.ProviderEnds? || e.CompanyChanges?
             || e.CustomerChanges? || e.PaymentArrives?
    ensures Safe(Next(s, e))
  {
    QuietQueue(s, e);
    StillTables(s, Next(s, e));
  }

  /** Every event keeps the state safe. */
  lemma NextIsSafe(s: State, e: Event)
    requires Safe(s) && Enabled(s, e)
    ensures Safe(Next(s, e))
  {
    if e.Step? {
      StepIsSafe(s, e.reply);
    } else if e.Start? {
      StartIsSafe(s, e.now);
    } else if e.RefundUpdated? {
      UpdateIsSafe(s, e.id, e.refund, e.state, e.at);
    } else {
      OtherIsSafe(s, e);
    }
  }

  lemma OtherIsSafe(s: State, e: Event)
    requires Safe(s) && Enabled(s, e) && !e.Step? && !e.Start? && !e.RefundUpdated?
    ensures Safe(Next(s, e))
  {
    if e.OperatorRefunds? {
      OperatorRefundIsSafe(s, e.invoice, e.amount, e.refund);
    } else {
      QuietIsSafe(s, e);
    }
  }

  lemma StepIsSafe(s: State, reply: Reply)
    requires Safe(s) && s.job.Running? && HonestReply(s, reply)
    ensures Safe(JobStep(s, reply))
  {
    if IsPlanning(s.job.at) {
      PlanningIsSafe(s, reply);
    } else if IsSending(s.job.at) {
      SendingIsSafe(s, reply);
    } else {
      ClosingIsSafe(s, reply);
    }
  }

  lemma {:induction false} RunIsSafe(states: seq<State>, events: seq<Event>, i: nat)
    requires IsRun(states, events) && i < |states|
    ensures Safe(states[i])
  {
    if i > 0 {
      RunIsSafe(states, events, i - 1);
      NextIsSafe(states[i - 1], events[i - 1]);
    }
  }

  // ----- What every run guarantees -----

  /** The refunds that the provider made for the subscription's cancel rows on one invoice. */
  function SentOn(rows: seq<Remedy>, refunds: map<RemedyId, ProviderRefund>, subscription: Subscription,
                  invoice: Invoice): int {
    if rows == [] then 0
    else
      var n := |rows| - 1;
      SentOn(rows[..n], refunds, subscription, invoice)
      + if n in refunds && rows[n].cause.Cancel? && rows[n].subscription == subscription && rows[n].invoice == invoice
        then rows[n].amount else 0
  }

  lemma {:induction false} SentWithinPlan(rows: seq<Remedy>, refunds: map<RemedyId, ProviderRefund>,
                                          subscription: Subscription, invoice: Invoice, plan: nat)
    requires forall id | 0 <= id < |rows| && rows[id].cause.Cancel? :: rows[id].amount >= 0
    requires forall id | SentAt(rows, refunds, id) && rows[id].cause.Cancel? && rows[id].subscription == subscription ::
               rows[id].plan == plan
    ensures SentOn(rows, refunds, subscription, invoice) <= PlannedOn(rows, plan, invoice)
  {
    if rows != [] {
      var n := |rows| - 1;
      assert forall id | SentAt(rows[..n], refunds, id) :: SentAt(rows, refunds, id);
      SentWithinPlan(rows[..n], refunds, subscription, invoice, plan);
      assert n in refunds ==> SentAt(rows, refunds, n);
    }
  }

  /** In every reachable state a refund was made, or may be made next, only after the subscription ended. */
  lemma RefundOnlyAfterCancel(states: seq<State>, events: seq<Event>, i: nat)
    requires IsRun(states, events) && i < |states|
    ensures forall id | id in states[i].provider.refunds ::
              id < |states[i].remedies| && states[i].remedies[id].subscription in states[i].provider.ended
    ensures states[i].company.request.None? ==>
              forall id | QueuedAt(states[i].remedies, id) ::
                states[i].remedies[id].subscription in states[i].provider.ended
    ensures states[i].job.Running? && states[i].job.at.Send? ==>
              forall id | id in states[i].job.at.queued ::
                id < |states[i].remedies| && states[i].remedies[id].subscription in states[i].provider.ended
  {
    RunIsSafe(states, events, i);
    if states[i].job.Running? && states[i].job.at.Send? {
      forall id | id in states[i].job.at.queued
        ensures id < |states[i].remedies| && states[i].remedies[id].subscription in states[i].provider.ended
      {
        assert QueuedAt(states[i].remedies, id);
      }
    }
  }

  /**
   * Over every run, at most one plan of a subscription reaches the provider, and the refunds made on an
   * invoice stay within what that plan found refundable on it.
   */
  lemma OnePlanReachesTheProvider(states: seq<State>, events: seq<Event>, i: nat, subscription: Subscription)
    requires IsRun(states, events) && i < |states|
    ensures var s := states[i];
            (forall id | SentAt(s.remedies, s.provider.refunds, id) :: s.remedies[id].subscription != subscription) ||
            exists plan ::
              && 0 <= plan < |s.plans| && s.plans[plan].subscription == subscription
              && (forall id | SentAt(s.remedies, s.provider.refunds, id)
                              && s.remedies[id].subscription == subscription :: s.remedies[id].plan == plan)
              && (forall invoice ::
                    SentOn(s.remedies, s.provider.refunds, subscription, invoice)
                    <= RefundableOn(Refundables(s.plans[plan].payments), invoice))
  {
    RunIsSafe(states, events, i);
    var s := states[i];
    if id :| SentAt(s.remedies, s.provider.refunds, id) && s.remedies[id].subscription == subscription {
      var plan := s.remedies[id].plan;
      forall invoice
        ensures SentOn(s.remedies, s.provider.refunds, subscription, invoice)
                <= RefundableOn(Refundables(s.plans[plan].payments), invoice)
      {
        SentWithinPlan(s.remedies, s.provider.refunds, subscription, invoice, plan);
      }
    }
  }

  /**
   * Why the billing customer must stay: taken away while rows wait for the cancel, the next job drops the
   * request and leaves the rows queued without a cancel.
   */
  lemma MissingCustomerSkipsTheCancel(s: State, id: RemedyId, now: int)
    requires Safe(s) && s.job.Idle? && s.company.request.Some? && QueuedAt(s.remedies, id)
    requires s.company.request.value.at <= now - DOWNGRADE_DELAY_MS
    requires s.remedies[id].subscription !in s.provider.ended
    ensures var t := Next(Next(Next(s, CustomerChanges(false)), Start(now)), Step(Done));
            t.job.Idle? && t.company.request.None? && QueuedAt(t.remedies, id)
            && t.remedies[id].subscription !in t.provider.ended && !Safe(t)
  {
    QueuedIdsAreExact(s);
  }

  // ----- The payments of a plan -----

  lemma {:induction false} InsertKeepsAll(sorted: seq<CardPayment>, p: CardPayment)
    ensures multiset(InsertByTime(sorted, p)) == multiset(sorted) + multiset{p}
  {
    if sorted != [] {
      InsertKeepsAll(sorted[..|sorted| - 1], p);
      assert sorted == sorted[..|sorted| - 1] + [sorted[|sorted| - 1]];
    }
  }

  lemma {:induction false} InsertStaysAbove(sorted: seq<CardPayment>, p: CardPayment, bound: int)
    requires p.occurredAt >= bound && forall i | 0 <= i < |sorted| :: sorted[i].occurredAt >= bound
    ensures forall i | 0 <= i < |InsertByTime(sorted, p)| :: InsertByTime(sorted, p)[i].occurredAt >= bound
  {
    if sorted != [] {
      InsertStaysAbove(sorted[..|sorted| - 1], p, bound);
    }
  }

  lemma {:induction false} InsertKeepsOrder(sorted: seq<CardPayment>, p: CardPayment)
    requires NewestFirst(sorted)
    ensures NewestFirst(InsertByTime(sorted, p))
  {
    if sorted != [] && sorted[|sorted| - 1].occurredAt < p.occurredAt {
      var init, last := sorted[..|sorted| - 1], sorted[|sorted| - 1];
      InsertKeepsOrder(init, p);
      InsertStaysAbove(init, p, last.occurredAt);
    }
  }

  lemma {:induction false} SortKeepsAll(ps: seq<CardPayment>)
    ensures multiset(SortByTime(ps)) == multiset(ps)
  {
    if ps != [] {
      var init, last := ps[..|ps| - 1], ps[|ps| - 1];
      SortKeepsAll(init);
      InsertKeepsAll(SortByTime(init), last);
      assert ps == init + [last];
    }
  }

  lemma {:induction false} SortOrders(ps: seq<CardPayment>)
    ensures NewestFirst(SortByTime(ps))
  {
    if ps != [] {
      SortOrders(ps[..|ps| - 1]);
      InsertKeepsOrder(SortByTime(ps[..|ps| - 1]), ps[|ps| - 1]);
    }
  }

  /** A plan refunds the newest payments first, and leaves none out. */
  lemma SortedNewestFirst(ps: seq<CardPayment>)
    ensures multiset(SortByTime(ps)) == multiset(ps) && NewestFirst(SortByTime(ps))
  {
    SortKeepsAll(ps);
    SortOrders(ps);
  }

  /** What can be refunded on an invoice is its amount less the refunds counted on it. */
  lemma {:induction false} RefundableIsAmountLessRefunds(payments: seq<Counted>, i: nat)
    requires i < |payments|
    requires forall j | 0 <= j < |payments| && j != i :: payments[j].invoice != payments[i].invoice
    ensures RefundableOn(Refundables(payments), payments[i].invoice) == Max(payments[i].amount - payments[i].refunded, 0)
  {
    var n := |payments| - 1;
    var refundables := Refundables(payments);
    assert refundables[..|refundables| - 1] == Refundables(payments[..n]);
    if i < n {
      RefundableIsAmountLessRefunds(payments[..n], i);
    } else {
      AbsentIsNotRefundable(payments[..n], payments[n].invoice);
    }
  }

  lemma {:induction false} AbsentIsNotRefundable(payments: seq<Counted>, invoice: Invoice)
    requires forall j | 0 <= j < |payments| :: payments[j].invoice != invoice
    ensures RefundableOn(Refundables(payments), invoice) == 0
  {
    if payments != [] {
      AbsentIsNotRefundable(payments[..|payments| - 1], invoice);
      assert Refundables(payments)[..|Refundables(payments)| - 1] == Refundables(payments[..|payments| - 1]);
    }
  }
}
