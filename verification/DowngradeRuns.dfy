/**
 * What a whole run of the downgrade job does to the tables, by what the tables say when it begins and what its
 * reads and calls come back with: when it waits, when it drops the request, what it plans, cancels and sends.
 */
module DowngradeRuns {
  import opened Options
  import opened CancelRefund
  import opened Downgrade
  import opened DowngradeSafety
  import opened DowngradeProgress

  // ----- Beginnings -----

  /** The request is 48 hours old. */
  predicate IsDue(s: State, now: int) {
    s.company.request.Some? && s.company.request.value.at + 48 * 60 * 60 * 1000 <= now
  }

  predicate SameRows(s: State, t: State) {
    s.remedies == t.remedies && s.history == t.history && s.provider == t.provider && s.plans == t.plans
  }

  /** The request is gone, and nothing else has changed. */
  predicate OnlyDropped(s: State, t: State) {
    SameRows(s, t) && t.company == s.company.(request := None, attempts := 0)
  }

  lemma OneStep(s: State, world: Point -> Reply)
    requires s.job.Running?
    ensures Complete(s, world) == Complete(JobStep(s, world(s.job.at)), world)
  {
    StepAdvances(s, world(s.job.at));
  }

  /** Before the request is 48 hours old, a run changes nothing, whatever is queued. */
  lemma EarlyRunChangesNothing(s: State, now: int, world: Point -> Reply)
    requires s.job.Idle? && s.company.request.Some? && !IsDue(s, now)
    ensures Complete(Begin(s, now), world) == s
  {
  }

  /** Without a billing customer a due request is dropped. */
  lemma NoCustomerDrops(s: State, now: int, world: Point -> Reply)
    requires s.job.Idle? && IsDue(s, now) && !s.company.hasCustomer && world(Drop).Done?
    ensures OnlyDropped(s, Complete(Begin(s, now), world))
  {
    OneStep(Begin(s, now), world);
  }

  // ----- Planning anew -----

  /** A due request with a customer, and no rows queued by an earlier run. */
  ghost predicate IsFresh(s: State, now: int) {
    s.job.Idle? && IsDue(s, now) && s.company.hasCustomer && NoneQueued(s.remedies)
  }

  function At(s: State, now: int, at: Point): State { s.(job := Running(now, s.company, at)) }

  predicate IsItsSubscription(company: Company) {
    company.request.Some? && company.billingSubscription == Some(company.request.value.subscription)
  }

  /** Planning begins; `queued` are the rows of an earlier plan that the run has given up, if any. */
  function AtPlanning(s: State, now: int, queued: seq<RemedyId>): State {
    At(s, now, if IsItsSubscription(s.company) then CountUsers(queued) else DropInPlanning(queued))
  }

  lemma FreshRunPlans(s: State, now: int)
    requires IsFresh(s, now)
    ensures Begin(s, now) == AtPlanning(s, now, [])
  {
    QueuedIdsAreExact(s);
  }

  /** A request whose subscription is not the company's any more is dropped. */
  lemma ChangedSubscriptionDrops(s: State, now: int, queued: seq<RemedyId>, world: Point -> Reply)
    requires IsFresh(s, now) && s.company.billingSubscription != Some(s.company.request.value.subscription)
    requires world(DropInPlanning(queued)).Done?
    ensures OnlyDropped(s, Complete(AtPlanning(s, now, queued), world))
  {
    OneStep(AtPlanning(s, now, queued), world);
  }

  /** A team of more than one user keeps its plan. */
  lemma GrownTeamDrops(s: State, now: int, queued: seq<RemedyId>, world: Point -> Reply)
    requires IsFresh(s, now) && IsItsSubscription(s.company)
    requires world(CountUsers(queued)).Users? && world(CountUsers(queued)).count >= 2
             && world(DropInPlanning(queued)).Done?
    ensures OnlyDropped(s, Complete(AtPlanning(s, now, queued), world))
  {
    OneStep(AtPlanning(s, now, queued), world);
    OneStep(At(s, now, DropInPlanning(queued)), world);
  }

  /** One active user at most, and the scheduled cancel is released. */
  predicate IsSole(world: Point -> Reply, queued: seq<RemedyId>) {
    world(CountUsers(queued)).Users? && world(CountUsers(queued)).count <= 1 && world(ReleaseCancel(queued)).Done?
  }

  lemma SoleAsksForBasis(s: State, now: int, queued: seq<RemedyId>, world: Point -> Reply)
    requires IsFresh(s, now) && IsItsSubscription(s.company) && IsSole(world, queued)
    ensures Complete(AtPlanning(s, now, queued), world) == Complete(At(s, now, PlanBasis(queued)), world)
  {
    OneStep(AtPlanning(s, now, queued), world);
    OneStep(At(s, now, ReleaseCancel(queued)), world);
  }

  /** A subscription that the provider has ended is not cancelled again. */
  lemma EndedSubscriptionDrops(s: State, now: int, queued: seq<RemedyId>, world: Point -> Reply)
    requires IsFresh(s, now) && IsItsSubscription(s.company) && IsSole(world, queued)
    requires world(PlanBasis(queued)) == BasisReply(None) && world(DropInPlanning(queued)).Done?
    ensures OnlyDropped(s, Complete(AtPlanning(s, now, queued), world))
  {
    SoleAsksForBasis(s, now, queued, world);
    OneStep(At(s, now, PlanBasis(queued)), world);
    OneStep(At(s, now, DropInPlanning(queued)), world);
  }

  // ----- Was the period paid? -----

  /** The company has a row of that kind for a period that began no earlier. */
  ghost predicate HasRow(table: H.Table, start: int, kinds: set<H.RowType>) {
    exists key | key in table ::
      key.rowType in kinds && table[key].PaymentRow? && table[key].company == COMPANY && table[key].periodStart >= start
  }

  /** Charged, or settled without a charge. */
  ghost predicate IsRecordedPaid(s: State, start: int) {
    HasRow(s.history, start, {H.PaymentSucceeded, H.SettledWithoutCharge})
  }

  ghost predicate IsRecordedUnpaid(s: State, start: int) {
    !IsRecordedPaid(s, start) && (HasRow(s.history, start, {H.PaymentFailed}) || s.company.pastDue)
  }

  /** 54 hours after the request, six more than the delay, a missing row is not waited for any longer. */
  predicate IsWaitOver(s: State, now: int) {
    s.company.request.Some? && s.company.request.value.at + 54 * 60 * 60 * 1000 <= now
  }

  lemma PeriodIs(s: State, start: int, now: int)
    requires s.company.request.Some?
    ensures PeriodOf(s.history, s.company, start, now) ==
            if IsRecordedPaid(s, start) then Paid
            else if IsRecordedUnpaid(s, start) then Unpaid
            else if IsWaitOver(s, now) then Ask
            else Wait
  {
    if IsRecordedPaid(s, start) {
      var key :| key in s.history && key.rowType in {H.PaymentSucceeded, H.SettledWithoutCharge}
                 && s.history[key].PaymentRow? && s.history[key].company == COMPANY
                 && s.history[key].periodStart >= start;
      assert PaidRow(s.history, key, start);
    } else if HasRow(s.history, start, {H.PaymentFailed}) {
      var key :| key in s.history && key.rowType in {H.PaymentFailed} && s.history[key].PaymentRow?
                 && s.history[key].company == COMPANY && s.history[key].periodStart >= start;
      assert PaidRow(s.history, key, start);
    }
  }

  /** With no row that tells, a run before then changes nothing, and the request waits. */
  lemma UnknownPeriodWaits(s: State, now: int, queued: seq<RemedyId>, world: Point -> Reply,
                           basis: Basis)
    requires IsFresh(s, now) && IsItsSubscription(s.company) && IsSole(world, queued)
    requires world(PlanBasis(queued)) == BasisReply(Some(basis))
    requires !IsRecordedPaid(s, basis.periodStart) && !IsRecordedUnpaid(s, basis.periodStart) && !IsWaitOver(s, now)
    ensures Complete(AtPlanning(s, now, queued), world) == s
  {
    SoleAsksForBasis(s, now, queued, world);
    OneStep(At(s, now, PlanBasis(queued)), world);
    PeriodIs(s, basis.periodStart, now);
  }

  /** The rows tell, or the provider does when they are not waited for any longer. */
  ghost predicate IsKnown(s: State, now: int, queued: seq<RemedyId>, world: Point -> Reply,
                           basis: Basis) {
    IsRecordedPaid(s, basis.periodStart) || IsRecordedUnpaid(s, basis.periodStart)
    || (IsWaitOver(s, now) && world(AskPeriod(queued, basis)).PeriodReply?)
  }

  /** Our rows come first; the provider's word counts only without a failed payment. */
  ghost predicate IsPaid(s: State, queued: seq<RemedyId>, world: Point -> Reply, basis: Basis) {
    IsRecordedPaid(s, basis.periodStart)
    || (!IsRecordedUnpaid(s, basis.periodStart) && world(AskPeriod(queued, basis)).PeriodReply?
        && world(AskPeriod(queued, basis)).paid && !world(AskPeriod(queued, basis)).failed)
  }

  /** The provider's card payments count only where its word made the period a paid one. */
  ghost function CardsOf(s: State, queued: seq<RemedyId>, world: Point -> Reply, basis: Basis): seq<CardPayment> {
    if IsPaid(s, queued, world, basis) && !IsRecordedPaid(s, basis.periodStart)
    then world(AskPeriod(queued, basis)).cards else []
  }

  ghost function AsksForPayments(s: State, queued: seq<RemedyId>, world: Point -> Reply, basis: Basis): Point {
    ReadPayments(queued, basis, IsPaid(s, queued, world, basis), CardsOf(s, queued, world, basis))
  }

  lemma KnownReadsPayments(s: State, now: int, queued: seq<RemedyId>, world: Point -> Reply,
                           basis: Basis)
    requires IsFresh(s, now) && IsItsSubscription(s.company) && IsSole(world, queued)
    requires world(PlanBasis(queued)) == BasisReply(Some(basis)) && IsKnown(s, now, queued, world, basis)
    ensures Complete(AtPlanning(s, now, queued), world) ==
            Complete(At(s, now, AsksForPayments(s, queued, world, basis)), world)
  {
    SoleAsksForBasis(s, now, queued, world);
    OneStep(At(s, now, PlanBasis(queued)), world);
    PeriodIs(s, basis.periodStart, now);
    if !IsRecordedPaid(s, basis.periodStart) && !IsRecordedUnpaid(s, basis.periodStart) {
      OneStep(At(s, now, AskPeriod(queued, basis)), world);
    }
  }

  // ----- The plan -----

  function TotalAsked(rows: seq<Remedy>): int {
    if rows == [] then 0 else TotalAsked(rows[..|rows| - 1]) + rows[|rows| - 1].amount
  }

  lemma {:induction false} RowsAskTheParts(parts: seq<Part>, plan: nat, subscription: Subscription, start: int)
    ensures TotalAsked(RowsOf(parts, plan, subscription, start)) == TotalOf(parts)
  {
    if parts != [] {
      var init, last := parts[..|parts| - 1], parts[|parts| - 1];
      RowsAskTheParts(init, plan, subscription, start);
      var rows := RowsOf(init, plan, subscription, start);
      var row := Remedy(Cancel, plan, subscription, start, last.invoice, last.amount, Queued, 0, None);
      assert (rows + [row])[..|rows|] == rows;
    }
  }

  /** What the refund is computed from: the period of the basis, the moment of the run, and the payments found. */
  function InputFrom(basis: Basis, paid: bool, now: int, payments: seq<Counted>): Input {
    Input(basis.periodStart, basis.periodEnd, now, paid, basis.heldLines, basis.pendingNextBill, basis.creditBalance,
          TotalRefundable(Refundables(payments)))
  }

  /** A row of the new plan, waiting to be sent. */
  predicate IsPlanned(row: Remedy, plan: nat, subscription: Subscription, start: int) {
    && row.cause.Cancel? && row.plan == plan && row.subscription == subscription && row.periodStart == start
    && row.status.Queued? && row.attempts == 0 && row.ref.None? && row.amount > 0
  }

  /** The run stands at the cancel, with the new rows behind the old ones. */
  ghost predicate IsAtCancel(s: State, now: int, u: State, rows: seq<Remedy>) {
    && u.job == Running(now, s.company, CancelNow(seq(|rows|, i requires 0 <= i < |rows| => |s.remedies| + i)))
    && u.remedies == s.remedies + rows && u.company == s.company && u.history == s.history && u.provider == s.provider
  }

  lemma PlanAsksTheAmount(basis: Basis, paid: bool, now: int, payments: seq<Counted>, plan: nat,
                          subscription: Subscription)
    ensures var rows := RowsOf(PlanParts(basis, paid, now, payments), plan, subscription, basis.periodStart);
            && TotalAsked(rows) == Compute(InputFrom(basis, paid, now, payments)).amount
            && forall i | 0 <= i < |rows| :: IsPlanned(rows[i], plan, subscription, basis.periodStart)
  {
    var refundables := Refundables(payments);
    var input := InputFrom(basis, paid, now, payments);
    var parts := PlanParts(basis, paid, now, payments);
    assert InputOf(basis, paid, now, TotalRefundable(refundables)) == input;
    PlannedRefundIsPayable(input, refundables);
    SharesArePositive(Compute(input).amount, refundables, |refundables|);
    RowsAskTheParts(parts, plan, subscription, basis.periodStart);
    RowsOfArePlanned(parts, plan, subscription, basis.periodStart, 0, 0);
  }

  /** The payments that the run finds. */
  ghost function PaymentsOf(s: State, now: int, queued: seq<RemedyId>, world: Point -> Reply,
                            basis: Basis): seq<Counted> {
    var cards := CardsOf(s, queued, world, basis);
    var read := world(AsksForPayments(s, queued, world, basis));
    PlanPayments(s.remedies, if read.Payments? then read.rows else [], cards, now)
  }

  lemma PlanIsSaved(s: State, now: int, queued: seq<RemedyId>, world: Point -> Reply, basis: Basis, paid: bool,
                    cards: seq<CardPayment>) returns (u: State, rows: seq<Remedy>)
    requires IsFresh(s, now) && world(ReadPayments(queued, basis, paid, cards)).Payments?
    requires forall plan, planned :: world(Save(queued, plan, planned)).Done?
    ensures Complete(At(s, now, ReadPayments(queued, basis, paid, cards)), world) == Complete(u, world)
    ensures IsAtCancel(s, now, u, rows)
    ensures var read := world(ReadPayments(queued, basis, paid, cards)).rows;
            rows == RowsOf(PlanParts(basis, paid, now, PlanPayments(s.remedies, read, cards, now)), |s.plans|,
                           s.company.request.value.subscription, basis.periodStart)
  {
    var at := At(s, now, ReadPayments(queued, basis, paid, cards));
    var payments := PlanPayments(s.remedies, world(at.job.at).rows, cards, now);
    var parts := PlanParts(basis, paid, now, payments);
    OneStep(at, world);
    rows := RowsOf(parts, |s.plans|, s.company.request.value.subscription, basis.periodStart);
    u := JobStep(at, world(at.job.at));
    if parts == [] {
      assert seq(|rows|, i requires 0 <= i < |rows| => |s.remedies| + i) == [];
      assert s.remedies + rows == s.remedies;
    } else {
      OneStep(u, world);
      u := JobStep(u, world(u.job.at));
    }
  }

  /**
   * A due request of a company of one, for its subscription, whose period is known to be paid or not: the run
   * comes to the cancel with rows that ask for exactly the computed refund, all of the new plan.
   */
  lemma PlannedRunComesToTheCancel(s: State, now: int, queued: seq<RemedyId>, world: Point -> Reply,
                                   basis: Basis) returns (u: State, rows: seq<Remedy>)
    requires IsFresh(s, now) && IsItsSubscription(s.company) && IsSole(world, queued)
    requires world(PlanBasis(queued)) == BasisReply(Some(basis)) && IsKnown(s, now, queued, world, basis)
    requires world(AsksForPayments(s, queued, world, basis)).Payments?
    requires forall plan, planned :: world(Save(queued, plan, planned)).Done?
    ensures Complete(AtPlanning(s, now, queued), world) == Complete(u, world) && IsAtCancel(s, now, u, rows)
    ensures var payments := PaymentsOf(s, now, queued, world, basis);
            TotalAsked(rows) == Compute(InputFrom(basis, IsPaid(s, queued, world, basis), now, payments)).amount
    ensures forall i | 0 <= i < |rows| ::
              IsPlanned(rows[i], |s.plans|, s.company.request.value.subscription, basis.periodStart)
  {
    var paid := IsPaid(s, queued, world, basis);
    KnownReadsPayments(s, now, queued, world, basis);
    u, rows := PlanIsSaved(s, now, queued, world, basis, paid, CardsOf(s, queued, world, basis));
    PlanAsksTheAmount(basis, paid, now, PaymentsOf(s, now, queued, world, basis), |s.plans|,
                      s.company.request.value.subscription);
  }

  // ----- Rows of an earlier plan -----

  /** A due request with rows queued asks the provider for the period that they are of. */
  lemma QueuedRunAsksForThePeriod(s: State, now: int)
    requires s.job.Idle? && IsDue(s, now) && s.company.hasCustomer && !NoneQueued(s.remedies)
    ensures Begin(s, now) == At(s, now, ReplanBasis(QueuedIds(s.remedies)))
  {
    QueuedIdsAreExact(s);
  }

  /** The rows `ids` are given up, and no other row changes. */
  predicate GivenUp(before: seq<Remedy>, after: seq<Remedy>, ids: seq<RemedyId>) {
    |after| == |before| &&
    forall id | 0 <= id < |before| ::
      after[id] == if id in ids then before[id].(status := RemedyStatus.Failed) else before[id]
  }

  lemma {:induction false} SupersededRun(s: State, now: int, rest: seq<RemedyId>, queued: seq<RemedyId>,
                                         world: Point -> Reply) returns (t: State)
    requires s.job.Idle? && s.company.request.Some? && rest != [] && AllQueued(s.remedies, rest)
    requires forall left :: world(Supersede(left, queued)).Done?
    ensures Complete(At(s, now, Supersede(rest, queued)), world) == Complete(AtPlanning(t, now, queued), world)
    ensures t == s.(remedies := t.remedies) && GivenUp(s.remedies, t.remedies, rest)
    decreases |rest|
  {
    var at := At(s, now, Supersede(rest, queued));
    var row := s.remedies[rest[0]];
    assert QueuedAt(s.remedies, rest[0]);
    t := s.(remedies := s.remedies[rest[0] := row.(status := RemedyStatus.Failed)]);
    OneStep(at, world);
    if |rest| > 1 {
      assert AllQueued(t.remedies, rest[1..]) by {
        forall i | 0 <= i < |rest| - 1 ensures QueuedAt(t.remedies, rest[1..][i]) {
          assert QueuedAt(s.remedies, rest[i + 1]);
        }
      }
      t := SupersededRun(t, now, rest[1..], queued, world);
    }
  }

  /** After a renewal the run gives up every queued row, changes no other, and plans anew. */
  lemma RenewedRunPlansAnew(s: State, now: int, world: Point -> Reply, basis: Basis) returns (t: State)
    requires s.job.Idle? && IsDue(s, now) && s.company.hasCustomer && QueuedIds(s.remedies) != []
    requires var queued := QueuedIds(s.remedies);
             && world(ReplanBasis(queued)) == BasisReply(Some(basis)) && queued[0] < |s.remedies|
             && s.remedies[queued[0]].periodStart != basis.periodStart
             && forall left :: world(Supersede(left, queued)).Done?
    ensures Complete(Begin(s, now), world) == Complete(AtPlanning(t, now, QueuedIds(s.remedies)), world)
    ensures t == s.(remedies := t.remedies) && IsFresh(t, now)
    ensures |t.remedies| == |s.remedies| && forall id | 0 <= id < |s.remedies| ::
              t.remedies[id] == if IsQueued(s.remedies[id]) then s.remedies[id].(status := RemedyStatus.Failed)
                                else s.remedies[id]
  {
    var queued := QueuedIds(s.remedies);
    QueuedIdsAreExact(s);
    QueuedRunAsksForThePeriod(s, now);
    OneStep(Begin(s, now), world);
    t := SupersededRun(s, now, queued, queued, world);
    forall id | 0 <= id < |s.remedies| ensures id in queued <==> IsQueued(s.remedies[id]) {
      assert QueuedAt(s.remedies, id) ==> id in queued;
    }
  }

  // ----- The cancel -----

  /** A run that began with the company as it is, for its request, now stands at the cancel. */
  predicate StandsAtCancel(s: State, ids: seq<RemedyId>) {
    s.job.Running? && s.job.company == s.company && s.company.request.Some? && s.job.at == CancelNow(ids)
  }

  /** The request is cleared and the rows go out, if there are any. */
  predicate GoesOnToSend(s: State, t: State, ids: seq<RemedyId>)
    requires s.job.Running?
  {
    && t.company == s.company.(request := None, attempts := 0)
    && t.remedies == s.remedies && t.history == s.history && t.plans == s.plans
    && t.job == if ids == [] then Idle else Running(s.job.now, s.job.company, Send(ids))
  }

  /** The subscription ends, the request is cleared, and only then the rows go out. */
  lemma CancelledRunSends(s: State, ids: seq<RemedyId>, world: Point -> Reply) returns (t: State)
    requires StandsAtCancel(s, ids) && world(CancelNow(ids)).Done? && world(Clear(ids)).Done?
    ensures Complete(s, world) == Complete(t, world) && GoesOnToSend(s, t, ids)
    ensures t.provider == s.provider.(ended := s.provider.ended + {s.company.request.value.subscription})
  {
    OneStep(s, world);
    t := JobStep(s, Done);
    OneStep(t, world);
    t := JobStep(t, Done);
  }

  /** The call threw, whether or not it had its effect. */
  predicate IsFailedCancel(world: Point -> Reply, ids: seq<RemedyId>) { world(CancelNow(ids)).Error? }

  /** What is left of a cancel that threw: perhaps the subscription has ended all the same. */
  predicate MayHaveEnded(s: State, t: State) {
    && t.provider.refunds == s.provider.refunds && s.provider.ended <= t.provider.ended
    && forall x | x in t.provider.ended && x !in s.provider.ended :: x == SubscriptionOf(s.job)
  }

  /** Up to the fourth failed cancel the run counts an attempt, and all the rest stays for the next run. */
  lemma FailedCancelIsTriedAgain(s: State, ids: seq<RemedyId>, world: Point -> Reply)
    requires StandsAtCancel(s, ids) && IsFailedCancel(world, ids) && s.company.attempts < 4 && world(CountAttempt).Done?
    ensures var t := Complete(s, world);
            && t.company == s.company.(attempts := s.company.attempts + 1) && MayHaveEnded(s, t)
            && t.remedies == s.remedies && t.history == s.history && t.plans == s.plans
  {
    OneStep(s, world);
    var t := JobStep(s, world(CancelNow(ids)));
    assert t == s.(provider := t.provider, job := s.job.(at := CountAttempt)) && MayHaveEnded(s, t);
    AttemptIsCounted(t, world);
  }

  lemma AttemptIsCounted(s: State, world: Point -> Reply)
    requires s.job.Running? && s.job.company == s.company && s.job.at.CountAttempt? && world(CountAttempt).Done?
    ensures SameRows(s, Complete(s, world))
    ensures Complete(s, world).company == s.company.(attempts := s.company.attempts + 1)
  {
    OneStep(s, world);
  }

  lemma FifthFailureAsks(s: State, ids: seq<RemedyId>, world: Point -> Reply) returns (t: State)
    requires StandsAtCancel(s, ids) && IsFailedCancel(world, ids) && s.company.attempts >= 4
    ensures Complete(s, world) == Complete(t, world) && MayHaveEnded(s, t)
    ensures t == s.(provider := t.provider, job := Running(s.job.now, s.company, CheckEnded(ids)))
  {
    OneStep(s, world);
    t := JobStep(s, world(CancelNow(ids)));
  }

  /** At the fifth the provider is asked, and a subscription that it has ended counts as cancelled. */
  lemma FifthFailureMayHaveCancelled(s: State, ids: seq<RemedyId>, world: Point -> Reply) returns (t: State)
    requires StandsAtCancel(s, ids) && IsFailedCancel(world, ids) && s.company.attempts >= 4
    requires world(CheckEnded(ids)) == BasisReply(None) && world(Clear(ids)).Done?
    ensures Complete(s, world) == Complete(t, world) && GoesOnToSend(s, t, ids) && MayHaveEnded(s, t)
  {
    var u := FifthFailureAsks(s, ids, world);
    OneStep(u, world);
    t := JobStep(u, BasisReply(None));
    OneStep(t, world);
    t := JobStep(t, Done);
  }

  // ----- Giving up -----

  /** The queued rows among `ids` are released with that many attempts, and no other row changes. */
  predicate IsReleased(before: seq<Remedy>, after: seq<Remedy>, ids: seq<RemedyId>, attempts: nat) {
    |after| == |before| &&
    forall id | 0 <= id < |before| ::
      after[id] == if id in ids && before[id].status.Queued?
                   then before[id].(status := RemedyStatus.Failed, attempts := attempts) else before[id]
  }

  /** The first of the rows released. */
  function FirstReleased(s: State, id: RemedyId, attempts: nat): State {
    s.(remedies := WhereQueued(s.remedies, id, ReleasedRow(RowAt(s.remedies, id), attempts)))
  }

  lemma ReleaseStep(s: State, rest: seq<RemedyId>, world: Point -> Reply)
    requires s.job.Running? && rest != [] && world(ReleaseRows(rest)).Done?
    ensures Complete(ReleaseOrDrop(s, rest), world) ==
            Complete(ReleaseOrDrop(FirstReleased(s, rest[0], s.job.company.attempts + 1), rest[1..]), world)
  {
    var at := ReleaseOrDrop(s, rest);
    OneStep(at, world);
    assert JobStep(at, world(at.job.at)) ==
           RowReleased(at, rest, ReleasedRow(RowAt(s.remedies, rest[0]), s.job.company.attempts + 1));
  }

  lemma ReleaseAdds(before: seq<Remedy>, after: seq<Remedy>, rest: seq<RemedyId>, attempts: nat)
    requires rest != []
    requires IsReleased(WhereQueued(before, rest[0], ReleasedRow(RowAt(before, rest[0]), attempts)), after, rest[1..],
                        attempts)
    ensures IsReleased(before, after, rest, attempts)
  {
  }

  lemma {:induction false} ReleasedRun(s: State, rest: seq<RemedyId>, world: Point -> Reply)
    requires s.job.Running? && world(Drop).Done? && forall left :: world(ReleaseRows(left)).Done?
    ensures var t := Complete(ReleaseOrDrop(s, rest), world);
            && t.company == s.company.(request := None, attempts := 0)
            && t.history == s.history && t.provider == s.provider && t.plans == s.plans
            && IsReleased(s.remedies, t.remedies, rest, s.job.company.attempts + 1)
    decreases |rest|
  {
    if rest == [] {
      OneStep(ReleaseOrDrop(s, rest), world);
    } else {
      var attempts := s.job.company.attempts + 1;
      ReleaseStep(s, rest, world);
      ReleasedRun(FirstReleased(s, rest[0], attempts), rest[1..], world);
      ReleaseAdds(s.remedies, Complete(ReleaseOrDrop(s, rest), world).remedies, rest, attempts);
    }
  }

  /** Otherwise the rows are released, and the request is dropped. */
  lemma FifthFailureReleases(s: State, ids: seq<RemedyId>, world: Point -> Reply)
    requires StandsAtCancel(s, ids) && IsFailedCancel(world, ids) && s.company.attempts >= 4
    requires world(CheckEnded(ids)) != BasisReply(None)
    requires world(Drop).Done? && forall left :: world(ReleaseRows(left)).Done?
    ensures var t := Complete(s, world);
            && t.company == s.company.(request := None, attempts := 0) && MayHaveEnded(s, t)
            && t.history == s.history && t.plans == s.plans
            && IsReleased(s.remedies, t.remedies, ids, s.company.attempts + 1)
  {
    var u := FifthFailureAsks(s, ids, world);
    OneStep(u, world);
    ReleasedRun(u, ids, world);
  }

  /** The points of a run before the cancel, with the rows that it works on. */
  predicate IsBeforeCancel(at: Point) { IsPlanning(at) || at.DropInPlanning? }

  function RowsAt(at: Point): seq<RemedyId>
    requires IsBeforeCancel(at)
  {
    at.queued
  }

  lemma FailedPlanningStep(s: State, effect: Effect)
    requires s.job.Running? && IsBeforeCancel(s.job.at)
    ensures JobStep(s, Error(effect)) == StepFailed(s, Planning, RowsAt(s.job.at))
  {
  }

  /** Wherever planning fails, up to the fourth time the run counts an attempt and nothing else. */
  lemma FailedPlanningIsTriedAgain(s: State, world: Point -> Reply)
    requires s.job.Running? && s.job.company == s.company && s.company.attempts < 4
    requires IsBeforeCancel(s.job.at) && world(s.job.at).Error? && world(CountAttempt).Done?
    ensures SameRows(s, Complete(s, world))
    ensures Complete(s, world).company == s.company.(attempts := s.company.attempts + 1)
  {
    FailedPlanningStep(s, world(s.job.at).effect);
    OneStep(s, world);
    AttemptIsCounted(s.(job := s.job.(at := CountAttempt)), world);
  }

  /** The fifth time the rows it works on are released, and the request is dropped. */
  lemma FailedPlanningReleases(s: State, world: Point -> Reply)
    requires s.job.Running? && s.job.company == s.company && s.company.attempts >= 4
    requires IsBeforeCancel(s.job.at) && world(s.job.at).Error?
    requires world(Drop).Done? && forall left :: world(ReleaseRows(left)).Done?
    ensures var t := Complete(s, world);
            && t.company == s.company.(request := None, attempts := 0)
            && t.history == s.history && t.provider == s.provider && t.plans == s.plans
            && IsReleased(s.remedies, t.remedies, RowsAt(s.job.at), s.company.attempts + 1)
  {
    FailedPlanningStep(s, world(s.job.at).effect);
    OneStep(s, world);
    ReleasedRun(s, RowsAt(s.job.at), world);
  }

  // ----- Sending -----

  /** The queue is sent from the oldest row on. */
  lemma {:induction false} QueueIsOldestFirst(rows: seq<Remedy>)
    ensures forall i, j | 0 <= i < j < |QueuedIds(rows)| :: QueuedIds(rows)[i] < QueuedIds(rows)[j]
  {
    if rows != [] {
      QueueIsOldestFirst(rows[..|rows| - 1]);
      QueuedIdsPrefix(rows[..|rows| - 1]);
    }
  }

  /** The provider made the refund, and both writes of it went through; `left` are the rows still to go, it first. */
  predicate IsAnswered(world: Point -> Reply, left: seq<RemedyId>) {
    && world(Send(left)).RefundReply?
    && world(SendHistory(left, world(Send(left)).refund)).Done?
    && world(SendStatus(left, world(Send(left)).refund)).Done?
  }

  predicate IsSentAs(before: Remedy, after: Remedy, refund: ProviderRefund) {
    && after == before.(ref := Some(refund.id), status := after.status)
    && match refund.state
       case Pending => after.status.Initiated?
       case Approved => after.status == RemedyStatus.Approved
       case Rejected => after.status == RemedyStatus.Rejected
       case Reversed => after.status == RemedyStatus.Reversed
  }

  /** One more attempt; the fifth is the last. */
  predicate IsTried(before: Remedy, after: Remedy) {
    && after == before.(attempts := before.attempts + 1, status := after.status)
    && after.status == if before.attempts >= 4 then RemedyStatus.Failed else before.status
  }

  predicate IsRowAfter(before: Remedy, after: Remedy, world: Point -> Reply, left: seq<RemedyId>) {
    if IsAnswered(world, left) then IsSentAs(before, after, world(Send(left)).refund) else IsTried(before, after)
  }

  /** The customer's row of a refund: the amount asked for, in the provider's state; a reversal reads as rejected. */
  predicate IsHistoryOf(row: H.Row, amount: int, state: RefundState, at: int) {
    && row.RefundRow? && row.company == COMPANY && row.amount == amount && row.occurredAt == at
    && match state
       case Pending => row.status.Pending?
       case Approved => row.status.Approved?
       case Rejected => row.status.Rejected?
       case Reversed => row.status.Rejected?
  }

  /** The history gains the row of the refund when it has none yet, and nothing else. */
  predicate IsHistoryAfter(before: H.Table, after: H.Table, amount: int, now: int, world: Point -> Reply,
                           left: seq<RemedyId>) {
    var reply := world(Send(left));
    if !reply.RefundReply? || !world(SendHistory(left, reply.refund)).Done? then after == before
    else
      var key := H.Key(reply.refund.id, H.Refund);
      if key in before then after == before
      else key in after && after - {key} == before && IsHistoryOf(after[key], amount, reply.refund.state, now)
  }

  /** The provider gains at most a refund for the row. */
  predicate IsProviderAfter(before: Provider, after: Provider, id: RemedyId, answered: bool) {
    && after.ended == before.ended && after.refunds - {id} == before.refunds - {id}
    && (id in before.refunds ==> after.refunds == before.refunds) && (answered ==> id in after.refunds)
  }

  /** The run goes on with the other rows, or is over. */
  predicate GoesOn(s: State, t: State, left: seq<RemedyId>)
    requires s.job.Running? && left != []
  {
    && t.company == s.company && t.plans == s.plans
    && t.job == if |left| == 1 then Idle else Running(s.job.now, s.job.company, Send(left[1..]))
  }

  predicate StandsAtSend(s: State, left: seq<RemedyId>) { s.job.Running? && s.job.at == Send(left) && left != [] }

  lemma FailedRowGoesOn(s: State, left: seq<RemedyId>, world: Point -> Reply) returns (t: State)
    requires s.job.Running? && s.job.at == SendFailed(left) && left != [] && QueuedAt(s.remedies, left[0])
    requires world(SendFailed(left)).Done?
    ensures Complete(s, world) == Complete(t, world) && GoesOn(s, t, left)
    ensures t.history == s.history && t.provider == s.provider
    ensures |t.remedies| == |s.remedies| && t.remedies == s.remedies[left[0] := t.remedies[left[0]]]
    ensures IsTried(s.remedies[left[0]], t.remedies[left[0]])
  {
    OneStep(s, world);
    t := JobStep(s, Done);
  }

  /** The answered call, up to the write of the history. */
  lemma AnsweredCall(s: State, left: seq<RemedyId>, world: Point -> Reply) returns (t: State)
    requires StandsAtSend(s, left) && world(Send(left)).RefundReply?
    ensures Complete(s, world) == Complete(t, world)
    ensures t == s.(provider := t.provider, job := s.job.(at := SendHistory(left, world(Send(left)).refund)))
    ensures IsProviderAfter(s.provider, t.provider, left[0], true)
  {
    OneStep(s, world);
    t := JobStep(s, world(Send(left)));
  }

  lemma HistoryWritten(s: State, left: seq<RemedyId>, refund: ProviderRefund, world: Point -> Reply) returns (t: State)
    requires s.job.Running? && s.job.at == SendHistory(left, refund) && left != [] && QueuedAt(s.remedies, left[0])
    requires world(Send(left)) == RefundReply(refund)
    ensures Complete(s, world) == Complete(t, world)
    ensures t == s.(history := t.history, job := s.job.(at := if world(s.job.at).Done? then SendStatus(left, refund)
                                                             else SendFailed(left)))
    ensures IsHistoryAfter(s.history, t.history, s.remedies[left[0]].amount, s.job.now, world, left)
  {
    OneStep(s, world);
    t := JobStep(s, world(s.job.at));
  }

  lemma StatusWritten(s: State, left: seq<RemedyId>, refund: ProviderRefund, world: Point -> Reply) returns (t: State)
    requires s.job.Running? && s.job.at == SendStatus(left, refund) && left != [] && QueuedAt(s.remedies, left[0])
    requires world(s.job.at).Done?
    ensures Complete(s, world) == Complete(t, world) && GoesOn(s, t, left)
    ensures t.history == s.history && t.provider == s.provider
    ensures |t.remedies| == |s.remedies| && t.remedies == s.remedies[left[0] := t.remedies[left[0]]]
    ensures IsSentAs(s.remedies[left[0]], t.remedies[left[0]], refund)
  {
    OneStep(s, world);
    t := JobStep(s, Done);
  }

  lemma StatusWriteEnds(s: State, left: seq<RemedyId>, refund: ProviderRefund, world: Point -> Reply) returns (t: State)
    requires s.job.Running? && s.job.at == SendStatus(left, refund) && left != [] && QueuedAt(s.remedies, left[0])
    requires world(SendFailed(left)).Done?
    ensures Complete(s, world) == Complete(t, world) && GoesOn(s, t, left)
    ensures t.history == s.history && t.provider == s.provider
    ensures |t.remedies| == |s.remedies| && t.remedies == s.remedies[left[0] := t.remedies[left[0]]]
    ensures if world(s.job.at).Done? then IsSentAs(s.remedies[left[0]], t.remedies[left[0]], refund)
            else IsTried(s.remedies[left[0]], t.remedies[left[0]])
  {
    if world(s.job.at).Done? {
      t := StatusWritten(s, left, refund, world);
    } else {
      OneStep(s, world);
      t := FailedRowGoesOn(JobStep(s, world(s.job.at)), left, world);
    }
  }

  /** One row and its writes: the next state is before the next row, or the end. */
  predicate IsOneSent(s: State, t: State, left: seq<RemedyId>, world: Point -> Reply)
    requires StandsAtSend(s, left)
  {
    && GoesOn(s, t, left) && left[0] < |s.remedies| == |t.remedies|
    && t.remedies == s.remedies[left[0] := t.remedies[left[0]]]
    && IsRowAfter(s.remedies[left[0]], t.remedies[left[0]], world, left)
    && IsHistoryAfter(s.history, t.history, s.remedies[left[0]].amount, s.job.now, world, left)
    && IsProviderAfter(s.provider, t.provider, left[0], world(Send(left)).RefundReply?)
  }

  lemma AnsweredRowIsSent(s: State, left: seq<RemedyId>, world: Point -> Reply) returns (t: State)
    requires StandsAtSend(s, left) && QueuedAt(s.remedies, left[0])
    requires world(Send(left)).RefundReply? && world(SendFailed(left)).Done?
    ensures Complete(s, world) == Complete(t, world) && IsOneSent(s, t, left, world)
  {
    var refund := world(Send(left)).refund;
    t := AnsweredCall(s, left, world);
    t := HistoryWritten(t, left, refund, world);
    if t.job.at.SendFailed? {
      t := FailedRowGoesOn(t, left, world);
    } else {
      t := StatusWriteEnds(t, left, refund, world);
    }
  }

  lemma RefusedCall(s: State, left: seq<RemedyId>, world: Point -> Reply) returns (t: State)
    requires StandsAtSend(s, left) && !world(Send(left)).RefundReply?
    ensures Complete(s, world) == Complete(t, world)
    ensures t == s.(provider := t.provider, job := Running(s.job.now, s.job.company, SendFailed(left)))
    ensures IsProviderAfter(s.provider, t.provider, left[0], false)
  {
    OneStep(s, world);
    t := JobStep(s, world(Send(left)));
  }

  lemma RefusedRowIsTried(s: State, left: seq<RemedyId>, world: Point -> Reply) returns (t: State)
    requires StandsAtSend(s, left) && QueuedAt(s.remedies, left[0])
    requires !world(Send(left)).RefundReply? && world(SendFailed(left)).Done?
    ensures Complete(s, world) == Complete(t, world) && IsOneSent(s, t, left, world)
  {
    t := RefusedCall(s, left, world);
    t := FailedRowGoesOn(t, left, world);
  }

  lemma OneRowIsSent(s: State, left: seq<RemedyId>, world: Point -> Reply) returns (t: State)
    requires StandsAtSend(s, left) && QueuedAt(s.remedies, left[0]) && world(SendFailed(left)).Done?
    ensures Complete(s, world) == Complete(t, world) && IsOneSent(s, t, left, world)
  {
    if world(Send(left)).RefundReply? {
      t := AnsweredRowIsSent(s, left, world);
    } else {
      t := RefusedRowIsTried(s, left, world);
    }
  }

  // ----- The whole queue -----

  ghost predicate RowsSent(before: seq<Remedy>, after: seq<Remedy>, queue: seq<RemedyId>, world: Point -> Reply) {
    && |after| == |before|
    && (forall k | 0 <= k < |queue| ::
          queue[k] < |before| && IsRowAfter(before[queue[k]], after[queue[k]], world, queue[k..]))
    && (forall id | 0 <= id < |before| && id !in queue :: after[id] == before[id])
  }

  lemma RowsSentAfterFirst(before: seq<Remedy>, mid: seq<Remedy>, after: seq<Remedy>, queue: seq<RemedyId>,
                           world: Point -> Reply)
    requires AllQueued(before, queue) && queue != [] && |mid| == |before|
    requires mid == before[queue[0] := mid[queue[0]]] && IsRowAfter(before[queue[0]], mid[queue[0]], world, queue)
    requires RowsSent(mid, after, queue[1..], world)
    ensures RowsSent(before, after, queue, world)
  {
    forall k | 0 <= k < |queue|
      ensures queue[k] < |before| && IsRowAfter(before[queue[k]], after[queue[k]], world, queue[k..])
    {
      assert QueuedAt(before, queue[k]);
      if k == 0 {
        assert queue[0] !in queue[1..] && queue[0..] == queue;
      } else {
        assert queue[1..][k - 1] == queue[k] && queue[1..][k - 1..] == queue[k..];
      }
    }
    forall id | 0 <= id < |before| && id !in queue ensures after[id] == before[id] {
      assert id !in queue[1..];
    }
  }

  /** The row stands in the history for the k-th refund, as the provider answered it. */
  predicate IsRowOfSent(key: H.Key, row: H.Row, rows: seq<Remedy>, queue: seq<RemedyId>, now: int,
                        world: Point -> Reply,
                        k: int) {
    && 0 <= k < |queue| && queue[k] < |rows| && world(Send(queue[k..])).RefundReply?
    && key == H.Key(world(Send(queue[k..])).refund.id, H.Refund)
    && IsHistoryOf(row, rows[queue[k]].amount, world(Send(queue[k..])).refund.state, now)
  }

  /** No row of the history changes, and each new one is that of a refund just made. */
  ghost predicate HistoryGrows(before: H.Table, after: H.Table, rows: seq<Remedy>, queue: seq<RemedyId>, now: int,
                               world: Point -> Reply) {
    && (forall key | key in before :: key in after && after[key] == before[key])
    && (forall key | key in after && key !in before ::
          exists k :: IsRowOfSent(key, after[key], rows, queue, now, world, k))
  }

  lemma HistoryGrowsAfterFirst(before: H.Table, mid: H.Table, after: H.Table, rows: seq<Remedy>, next: seq<Remedy>,
                               queue: seq<RemedyId>, now: int, world: Point -> Reply)
    requires AllQueued(rows, queue) && queue != [] && |next| == |rows| && next == rows[queue[0] := next[queue[0]]]
    requires IsHistoryAfter(before, mid, rows[queue[0]].amount, now, world, queue)
    requires HistoryGrows(mid, after, next, queue[1..], now, world)
    ensures HistoryGrows(before, after, rows, queue, now, world)
  {
    forall key | key in after && key !in before
      ensures exists k :: IsRowOfSent(key, after[key], rows, queue, now, world, k)
    {
      if key in mid {
        assert queue[0..] == queue;
        assert IsRowOfSent(key, after[key], rows, queue, now, world, 0);
      } else {
        var k :| IsRowOfSent(key, after[key], next, queue[1..], now, world, k);
        assert queue[1..][k..] == queue[k + 1..];
        assert IsRowOfSent(key, after[key], rows, queue, now, world, k + 1);
      }
    }
  }

  /** Each refund that was answered is at the provider, and none is new there for a row outside the queue. */
  ghost predicate ProviderGrows(before: Provider, after: Provider, queue: seq<RemedyId>, world: Point -> Reply) {
    && after.ended == before.ended
    && (forall id | id in before.refunds :: id in after.refunds && after.refunds[id] == before.refunds[id])
    && (forall id | id in after.refunds && id !in before.refunds :: id in queue)
    && (forall k | 0 <= k < |queue| && world(Send(queue[k..])).RefundReply? :: queue[k] in after.refunds)
  }

  lemma ProviderGrowsAfterFirst(before: Provider, mid: Provider, after: Provider, queue: seq<RemedyId>,
                                world: Point -> Reply)
    requires queue != [] && IsProviderAfter(before, mid, queue[0], world(Send(queue)).RefundReply?)
    requires ProviderGrows(mid, after, queue[1..], world)
    ensures ProviderGrows(before, after, queue, world)
  {
    forall id | id in before.refunds ensures id in mid.refunds && mid.refunds[id] == before.refunds[id] {
      assert id != queue[0] ==> id in before.refunds - {queue[0]};
    }
    forall id | id in after.refunds && id !in before.refunds ensures id in queue {
      assert mid.refunds - {queue[0]} == before.refunds - {queue[0]};
      assert id == queue[0] || id !in mid.refunds - {queue[0]};
    }
    forall k | 0 <= k < |queue| && world(Send(queue[k..])).RefundReply? ensures queue[k] in after.refunds {
      if k > 0 {
        assert queue[1..][k - 1..] == queue[k..];
      } else {
        assert queue[0..] == queue;
      }
    }
  }

  lemma NothingSent(s: State, world: Point -> Reply)
    ensures RowsSent(s.remedies, s.remedies, [], world) && ProviderGrows(s.provider, s.provider, [], world)
    ensures HistoryGrows(s.history, s.history, s.remedies, [], 0, world)
  {
  }

  /**
   * A sending run goes through the whole queue, whatever fails on the way: each row takes the provider's answer
   * or counts an attempt, each refund that was made is shown to the customer once, and nothing else changes.
   */
  lemma {:induction false} QueueIsSent(s: State, queue: seq<RemedyId>, world: Point -> Reply)
    requires StandsAtSend(s, queue) && AllQueued(s.remedies, queue) && forall left :: world(SendFailed(left)).Done?
    ensures var t := Complete(s, world);
            && t.company == s.company && t.plans == s.plans
            && RowsSent(s.remedies, t.remedies, queue, world)
            && HistoryGrows(s.history, t.history, s.remedies, queue, s.job.now, world)
            && ProviderGrows(s.provider, t.provider, queue, world)
    decreases |queue|
  {
    assert QueuedAt(s.remedies, queue[0]);
    var u := OneRowIsSent(s, queue, world);
    var t := Complete(u, world);
    if |queue| == 1 {
      assert t == u && queue[1..] == [];
      NothingSent(u, world);
    } else {
      assert AllQueued(u.remedies, queue[1..]) by {
        forall i | 0 <= i < |queue| - 1 ensures QueuedAt(u.remedies, queue[1..][i]) {
          assert QueuedAt(s.remedies, queue[i + 1]);
        }
      }
      QueueIsSent(u, queue[1..], world);
    }
    RowsSentAfterFirst(s.remedies, u.remedies, t.remedies, queue, world);
    HistoryGrowsAfterFirst(s.history, u.history, t.history, s.remedies, u.remedies, queue, s.job.now, world);
    ProviderGrowsAfterFirst(s.provider, u.provider, t.provider, queue, world);
  }

  /** Without a pending request a run sends the whole queue, from the oldest row on. */
  lemma RunWithoutRequestSends(s: State, now: int)
    requires s.job.Idle? && s.company.request.None? && QueuedIds(s.remedies) != []
    ensures StandsAtSend(Begin(s, now), QueuedIds(s.remedies)) && AllQueued(s.remedies, QueuedIds(s.remedies))
    ensures Begin(s, now) == At(s, now, Send(QueuedIds(s.remedies)))
  {
    QueuedIdsAreExact(s);
  }

  // ----- Updates of a refund -----

  /** An approval moves an open row or a failed one, a rejection an open one, a reversal an open or an approved one. */
  predicate Moves(status: RemedyStatus, state: RefundState) {
    match state
    case Pending => false
    case Approved => status.Queued? || status.Initiated? || status == RemedyStatus.Failed
    case Rejected => status.Queued? || status.Initiated?
    case Reversed => status.Queued? || status.Initiated? || status == RemedyStatus.Approved
  }

  /** The history has the refund's row in the state of the update: a new one, or its own with nothing else changed. */
  predicate IsHistoryUpdated(before: H.Table, after: H.Table, refund: nat, amount: int, state: RefundState, at: int) {
    var key := H.Key(refund, H.Refund);
    && key in after && after - {key} == before - {key}
    && if key !in before then IsHistoryOf(after[key], amount, state, at)
       else if before[key].RefundRow? && before[key].company == COMPANY
       then IsHistoryOf(after[key], before[key].amount, state, before[key].occurredAt)
       else after[key] == before[key]
  }

  /**
   * An update settles the row it found exactly when the row's status allows it: the row takes the state and the
   * refund's id, and the customer's history, where the row is a cancel's, the state. Nothing else changes.
   */
  lemma UpdateSettlesTheRow(s: State, id: RemedyId, refund: nat, state: RefundState, at: int)
    requires id < |s.remedies|
    ensures var row, t := s.remedies[id], Settled(s, id, refund, state, at);
            if !Moves(row.status, state) then t == s
            else && |t.remedies| == |s.remedies| && t == s.(remedies := t.remedies, history := t.history)
                 && IsSentAs(row, t.remedies[id], ProviderRefund(refund, state))
                 && (forall i | 0 <= i < |s.remedies| && i != id :: t.remedies[i] == s.remedies[i])
                 && if row.cause.Cancel? then IsHistoryUpdated(s.history, t.history, refund, row.amount, state, at)
                    else t.history == s.history
  {
  }
}
