/**
 * The downgrade service as it changes its tables (backend/src/modules/billing/billing-downgrade.service.ts).
 * Each method is proved against the step machine: `world` answers every write, read and provider call of
 * the run, and the run ends in the state that the machine reaches with the same answers.
 */
module DowngradeService {
  import opened Options
  import opened CancelRefund
  import opened Downgrade
  import opened DowngradeProgress

  type World = Point -> Reply

  /** What planRefund comes back with: rows to send after the cancel, null, or a thrown error. */
  datatype Planned = Rows(queued: seq<RemedyId>) | Null | Threw

  lemma Unroll(s: State, world: World)
    requires s.job.Running?
    ensures Complete(s, world) == Complete(JobStep(s, world(s.job.at)), world)
  {
  }

  /** Where the parts take a run: past planning with nothing to refund, or to the rows to save. */
  function AfterParts(queued: seq<RemedyId>, subscription: Subscription, periodStart: int, plan: nat,
                      counted: seq<Counted>, parts: seq<Part>): Point
  {
    if parts == [] then CancelNow([])
    else Save(queued, Plan(subscription, counted), RowsOf(parts, plan, subscription, periodStart))
  }

  function AfterPayments(s: State, queued: seq<RemedyId>, basis: Basis, paid: bool, cards: seq<CardPayment>,
                         rows: seq<CardPayment>): Point
    requires s.job.Running?
  {
    var counted := PlanPayments(s.remedies, rows, cards, s.job.now);
    AfterParts(queued, SubscriptionOf(s.job), basis.periodStart, |s.plans|, counted,
               PlanParts(basis, paid, s.job.now, counted))
  }

  lemma PaymentsStep(s: State, queued: seq<RemedyId>, basis: Basis, paid: bool, cards: seq<CardPayment>, reply: Reply)
    requires s.job.Running? && s.job.at == ReadPayments(queued, basis, paid, cards) && reply.Payments?
    ensures JobStep(s, reply) == Goto(s, AfterPayments(s, queued, basis, paid, cards, reply.rows))
  {
  }

  lemma UnrollPayments(s: State, queued: seq<RemedyId>, basis: Basis, paid: bool, cards: seq<CardPayment>, world: World)
    requires s.job.Running? && s.job.at == ReadPayments(queued, basis, paid, cards)
    ensures Complete(s, world) ==
            if world(s.job.at).Payments?
            then Complete(Goto(s, AfterPayments(s, queued, basis, paid, cards, world(s.job.at).rows)), world)
            else Complete(StepFailed(s, Planning, queued), world)
  {
    Unroll(s, world);
    if world(s.job.at).Payments? {
      PaymentsStep(s, queued, basis, paid, cards, world(s.job.at));
    }
  }

  lemma UnrollClear(s: State, queued: seq<RemedyId>, world: World)
    requires s.job.Running? && s.job.at == Clear(queued)
    ensures Complete(s, world) ==
            if world(Clear(queued)).Done? then Complete(SendOrFinish(Cleared(s), queued), world) else Crashed(s)
  {
    Unroll(s, world);
  }

  lemma UnrollSendHistory(s: State, queued: seq<RemedyId>, refund: ProviderRefund, world: World)
    requires s.job.Running? && s.job.at == SendHistory(queued, refund)
    ensures Complete(s, world) == Complete(SendHistoryStep(s, queued, refund, world(s.job.at)), world)
  {
    Unroll(s, world);
  }

  lemma UnrollSendStatus(s: State, queued: seq<RemedyId>, refund: ProviderRefund, world: World)
    requires s.job.Running? && s.job.at == SendStatus(queued, refund)
    ensures Complete(s, world) == Complete(SendStatusStep(s, queued, refund, world(s.job.at)), world)
  {
    Unroll(s, world);
  }

  lemma UnrollSendFailed(s: State, queued: seq<RemedyId>, world: World)
    requires s.job.Running? && s.job.at == SendFailed(queued)
    ensures Complete(s, world) == Complete(SendFailedStep(s, queued, world(s.job.at)), world)
  {
    Unroll(s, world);
  }

  lemma UnrollRelease(s: State, rest: seq<RemedyId>, world: World)
    requires s.job.Running? && s.job.at == ReleaseRows(rest)
    ensures Complete(s, world) == Complete(ReleaseRowsStep(s, rest, world(s.job.at)), world)
  {
    Unroll(s, world);
  }

  lemma UnrollCountAttempt(s: State, world: World)
    requires s.job.Running? && s.job.at.CountAttempt?
    ensures Complete(s, world) == CountAttemptStep(s, world(CountAttempt))
  {
    Unroll(s, world);
  }

  lemma UnrollCheckEnded(s: State, queued: seq<RemedyId>, world: World)
    requires s.job.Running? && s.job.at == CheckEnded(queued)
    ensures Complete(s, world) == Complete(CheckEndedStep(s, queued, world(s.job.at)), world)
  {
    Unroll(s, world);
  }

  class BillingDowngradeService {
    var company: Company
    var remedies: seq<Remedy>
    var plans: seq<Plan>
    var provider: Provider
    const history: H.BillingHistoryService
    ghost var lateRuns: nat
    ghost var sendRuns: nat

    constructor (history: H.BillingHistoryService)
      requires history.rows == map[]
      ensures this.history == history && Tables(Idle) == Start0
    {
      company, remedies, plans, provider := Start0.company, [], [], Start0.provider;
      this.history := history;
      lateRuns, sendRuns := 0, 0;
    }

    /** The tables, with a run standing at `job`. */
    ghost function Tables(job: Job): State
      reads this, history
    {
      State(company, remedies, history.rows, provider, plans, job, lateRuns, sendRuns)
    }

    /** The end of a run that returns. */
    ghost method Return(now: int)
      modifies this`lateRuns, this`sendRuns
      ensures forall job: Job | job.Running? && job.now == now :: Tables(Idle) == Finish(old(Tables(job)))
    {
      if IsLate(now, company) {
        lateRuns := lateRuns + 1;
      }
      if company.request.None? {
        sendRuns := sendRuns + 1;
      }
    }

    /** The request is cleared. */
    method ClearRequest()
      modifies this`company, this`lateRuns, this`sendRuns
      ensures forall job: Job :: Tables(job) == Cleared(old(Tables(job)))
    {
      company := company.(request := None, attempts := 0);
      lateRuns, sendRuns := 0, 0;
    }

    /** None stands for the conflict; a repeat answers with the pending request. */
    method Request(now: int, subscription: Subscription) returns (at: Option<int>)
      modifies this
      ensures Tables(Idle) == Requested(old(Tables(Idle)), now, subscription)
      ensures at == if old(company.request.Some?) then Some(old(company.request.value.at))
                    else if old(QueuedIds(remedies)) != [] then None
                    else Some(now)
    {
      if company.request.Some? {
        return Some(company.request.value.at);
      }
      if QueuedIds(remedies) != [] {
        return None;
      }
      company := company.(request := Some(Downgrade.Request(now, subscription)), attempts := 0);
      lateRuns := 0;
      return Some(now);
    }

    /** None stands for the conflict. */
    method Withdraw() returns (withdrawn: Option<bool>)
      modifies this
      ensures Tables(Idle) == Withdrawn(old(Tables(Idle)))
      ensures withdrawn == if old(company.request.None?) then Some(false)
                           else if old(QueuedIds(remedies)) != [] then None
                           else Some(true)
    {
      if company.request.None? {
        return Some(false);
      }
      if QueuedIds(remedies) != [] {
        return None;
      }
      ClearRequest();
      return Some(true);
    }

    /** The search for the row of a refund, before the lock: by the refund, else by its reference. */
    method FindRemedy(refund: nat, reference: Option<RemedyId>) returns (found: Option<RemedyId>)
      ensures found.Some? ==> Finds(Tables(Idle), found.value, refund, reference == found)
      ensures found.None? ==> forall id: nat :: !Finds(Tables(Idle), id, refund, reference == Some(id))
      ensures (exists id | 0 <= id < |remedies| :: remedies[id].ref == Some(refund)) ==>
                found.Some? && remedies[found.value].ref == Some(refund)
    {
      if id :| 0 <= id < |remedies| && remedies[id].ref == Some(refund) {
        return Some(id);
      }
      if reference.Some? && reference.value < |remedies| && remedies[reference.value].ref.None? {
        return reference;
      }
      return None;
    }

    /** Under the lock: a row in a state that the update may move, and its history row with it. */
    method Settle(id: RemedyId, refund: nat, state: RefundState, at: int)
      modifies this`remedies, history
      ensures Tables(Idle) == Settled(old(Tables(Idle)), id, refund, state, at)
    {
      if id >= |remedies| || remedies[id].status !in SettleFrom(state) {
        return;
      }
      var row := remedies[id];
      remedies := remedies[id := row.(status := StatusOf(state), ref := Some(refund))];
      if row.cause != Cancel {
        return;
      }
      history.RecordRefund(refund, RefundHistoryRow(row.amount, state, at));
      history.SetRefundStatus(COMPANY, refund, HistoryStatusOf(state));
    }

    method ApplyRefundUpdate(refund: nat, reference: Option<RemedyId>, state: RefundState, at: int)
      modifies this`remedies, history
      ensures var s := old(Tables(Idle));
              || (Tables(Idle) == s && forall id: nat :: Updated(s, id, refund, state, reference == Some(id), at) == s)
              || exists id: nat :: Finds(s, id, refund, reference == Some(id))
                              && Tables(Idle) == Updated(s, id, refund, state, reference == Some(id), at)
    {
      if state.Pending? {
        return;
      }
      var found := FindRemedy(refund, reference);
      if found.Some? {
        assert Finds(Tables(Idle), found.value, refund, reference == Some(found.value));
        Settle(found.value, refund, state, at);
      }
    }

    // ----- Sending -----

    /** A write that throws ends the run. */
    method RefundFailed(now: int, read: Company, queued: seq<RemedyId>, world: World) returns (written: bool)
      requires queued != []
      modifies this`remedies
      ensures var end := Complete(old(Tables(Running(now, read, SendFailed(queued)))), world);
              if written then end == Complete(SendOrFinish(Tables(Running(now, read, Drop)), queued[1..]), world)
              else Tables(Idle) == end
    {
      ghost var s := Tables(Running(now, read, SendFailed(queued)));
      UnrollSendFailed(s, queued, world);
      if !world(SendFailed(queued)).Done? {
        return false;
      }
      var row := RowAt(remedies, queued[0]);
      var attempts := row.attempts + 1;
      if attempts >= MAX_PROVIDER_ATTEMPTS {
        remedies := WhereQueued(remedies, queued[0], row.(attempts := attempts, status := RemedyStatus.Failed));
      } else {
        remedies := WhereQueued(remedies, queued[0], row.(attempts := attempts));
      }
      assert RowDone(s, queued, FailedRow(row)) == SendOrFinish(Tables(Running(now, read, Drop)), queued[1..]);
      return true;
    }

    /** History first, then the row: what follows the provider's answer. */
    method RecordSent(now: int, read: Company, queued: seq<RemedyId>, refund: ProviderRefund, world: World)
      returns (sent: bool)
      requires queued != []
      modifies this`remedies, history
      ensures var end := Complete(old(Tables(Running(now, read, SendHistory(queued, refund)))), world);
              if sent then end == Complete(SendOrFinish(Tables(Running(now, read, Drop)), queued[1..]), world)
              else end == Complete(Tables(Running(now, read, SendFailed(queued))), world)
    {
      ghost var s := Tables(Running(now, read, SendHistory(queued, refund)));
      UnrollSendHistory(s, queued, refund, world);
      if !world(SendHistory(queued, refund)).Done? {
        return false;
      }
      var row := RowAt(remedies, queued[0]);
      history.RecordRefund(refund.id, RefundHistoryRow(row.amount, refund.state, now));
      assert Tables(Running(now, read, SendStatus(queued, refund))) == SendHistoryStep(s, queued, refund, Done);
      sent := RecordStatus(now, read, queued, refund, world);
    }

    /** The row takes its refund while it is queued. */
    method RecordStatus(now: int, read: Company, queued: seq<RemedyId>, refund: ProviderRefund, world: World)
      returns (sent: bool)
      requires queued != []
      modifies this`remedies
      ensures var end := Complete(old(Tables(Running(now, read, SendStatus(queued, refund)))), world);
              if sent then end == Complete(SendOrFinish(Tables(Running(now, read, Drop)), queued[1..]), world)
              else end == Complete(Tables(Running(now, read, SendFailed(queued))), world)
    {
      ghost var s := Tables(Running(now, read, SendStatus(queued, refund)));
      UnrollSendStatus(s, queued, refund, world);
      if !world(SendStatus(queued, refund)).Done? {
        return false;
      }
      var row := RowAt(remedies, queued[0]);
      remedies := WhereQueued(remedies, queued[0], row.(ref := Some(refund.id), status := StatusOf(refund.state)));
      assert RowDone(s, queued, SentRow(row, refund)) == SendOrFinish(Tables(Running(now, read, Drop)), queued[1..]);
      return true;
    }

    /** One row: the provider, the history, then the row itself. */
    method SendRefund(now: int, read: Company, queued: seq<RemedyId>, world: World) returns (written: bool)
      requires queued != []
      modifies this`remedies, this`provider, history
      ensures var end := Complete(old(Tables(Running(now, read, Send(queued)))), world);
              if written then end == Complete(SendOrFinish(Tables(Running(now, read, Drop)), queued[1..]), world)
              else Tables(Idle) == end
    {
      ghost var s := Tables(Running(now, read, Send(queued)));
      Unroll(s, world);
      var answer := world(Send(queued));
      if answer.RefundReply? {
        RecordAtProvider(queued[0], answer.refund);
        assert Tables(Running(now, read, SendHistory(queued, answer.refund))) == JobStep(s, answer);
        var sent := RecordSent(now, read, queued, answer.refund, world);
        if sent {
          return true;
        }
      } else {
        if answer.Error? && answer.effect.Created? {
          RecordAtProvider(queued[0], answer.effect.refund);
        }
        assert Tables(Running(now, read, SendFailed(queued))) == JobStep(s, answer);
      }
      written := RefundFailed(now, read, queued, world);
    }

    /** The provider's side of a refund. */
    method RecordAtProvider(id: RemedyId, refund: ProviderRefund)
      modifies this`provider
      ensures forall job: Job :: Tables(job) == WithProviderRefund(old(Tables(job)), id, refund)
    {
      if id !in provider.refunds {
        provider := provider.(refunds := provider.refunds[id := refund]);
      }
    }

    method SendRefunds(now: int, read: Company, queued: seq<RemedyId>, world: World)
      modifies this`remedies, this`provider, this`lateRuns, this`sendRuns, history
      ensures Tables(Idle) == Complete(SendOrFinish(old(Tables(Running(now, read, Drop))), queued), world)
    {
      var rest := queued;
      ghost var end := Complete(SendOrFinish(Tables(Running(now, read, Drop)), queued), world);
      while rest != []
        invariant Complete(SendOrFinish(Tables(Running(now, read, Drop)), rest), world) == end
        decreases |rest|
      {
        assert SendOrFinish(Tables(Running(now, read, Drop)), rest) == Tables(Running(now, read, Send(rest)));
        var written := SendRefund(now, read, rest, world);
        if !written {
          return;
        }
        rest := rest[1..];
      }
      Return(now);
    }

    // ----- Planning -----

    /** dropRequest inside planning; null once written, a thrown error otherwise. */
    method DropRequest(now: int, read: Company, queued: seq<RemedyId>, world: World) returns (r: Planned)
      modifies this`company, this`lateRuns, this`sendRuns
      ensures var end := Complete(old(Tables(Running(now, read, DropInPlanning(queued)))), world);
              if r.Null? then Tables(Idle) == end
              else r.Threw? && end == Complete(StepFailed(Tables(Running(now, read, Drop)), Planning, queued), world)
    {
      ghost var s := Tables(Running(now, read, DropInPlanning(queued)));
      Unroll(s, world);
      if !world(DropInPlanning(queued)).Done? {
        return Threw;
      }
      ClearRequest();
      Return(now);
      return Null;
    }

    /** What the history rows say about the period, or that they say nothing yet. */
    method CurrentPeriodPaid(read: Company, periodStart: int, now: int) returns (period: PeriodState)
      ensures period == PeriodOf(history.rows, read, periodStart, now)
    {
      var rows := history.rows;
      if exists key | key in rows ::
           PaidRow(rows, key, periodStart) && (key.rowType.PaymentSucceeded? || key.rowType.SettledWithoutCharge?) {
        return Paid;
      }
      if (exists key | key in rows :: PaidRow(rows, key, periodStart) && key.rowType.PaymentFailed?) || read.pastDue {
        return Unpaid;
      }
      var deadline := (if read.request.Some? then read.request.value.at else now) + DOWNGRADE_DELAY_MS + RENEWAL_WAIT_MS;
      if now < deadline {
        return Wait;
      }
      return Ask;
    }

    /** The rows of a plan, saved together. */
    method SaveRows(now: int, read: Company, queued: seq<RemedyId>, plan: Plan, rows: seq<Remedy>, world: World)
      returns (r: Planned)
      modifies this`remedies, this`plans
      ensures var end := Complete(old(Tables(Running(now, read, Save(queued, plan, rows)))), world);
              match r
              case Rows(ids) => end == Complete(Tables(Running(now, read, CancelNow(ids))), world)
              case Null => false
              case Threw => end == Complete(StepFailed(Tables(Running(now, read, Drop)), Planning, queued), world)
    {
      ghost var s := Tables(Running(now, read, Save(queued, plan, rows)));
      Unroll(s, world);
      if !world(Save(queued, plan, rows)).Done? {
        return Threw;
      }
      var first := |remedies|;
      var ids := seq(|rows|, i requires 0 <= i < |rows| => first + i);
      assert ids == NewIds(s, rows);
      remedies, plans := remedies + rows, plans + [plan];
      return Rows(ids);
    }

    /** The refund of a plan: payments, amount, rows. */
    method PlanRows(now: int, read: Company, queued: seq<RemedyId>, basis: Basis, paid: bool, cards: seq<CardPayment>,
                    world: World)
      returns (r: Planned)
      modifies this`remedies, this`plans
      ensures var end := Complete(old(Tables(Running(now, read, ReadPayments(queued, basis, paid, cards)))), world);
              match r
              case Rows(ids) => end == Complete(Tables(Running(now, read, CancelNow(ids))), world)
              case Null => false
              case Threw => end == Complete(StepFailed(Tables(Running(now, read, Drop)), Planning, queued), world)
    {
      ghost var s := Tables(Running(now, read, ReadPayments(queued, basis, paid, cards)));
      UnrollPayments(s, queued, basis, paid, cards, world);
      var answer := world(ReadPayments(queued, basis, paid, cards));
      if !answer.Payments? {
        return Threw;
      }
      var counted := PlanPayments(remedies, answer.rows, cards, now);
      var refundables := Refundables(counted);
      var input := InputOf(basis, paid, now, TotalRefundable(refundables));
      PlannedRefundIsPayable(input, refundables);
      var share := AllocateCancelRefund(Compute(input).amount, refundables);
      var parts := share.value;
      var subscription := if read.request.Some? then read.request.value.subscription else 0;
      ghost var next := AfterParts(queued, subscription, basis.periodStart, |plans|, counted, parts);
      assert next == AfterPayments(s, queued, basis, paid, cards, answer.rows);
      assert Tables(Running(now, read, next)) == Goto(s, next);
      if parts == [] {
        return Rows([]);
      }
      var plan := Plan(subscription, counted);
      var rows := RowsOf(parts, |plans|, subscription, basis.periodStart);
      assert next == Save(queued, plan, rows);
      r := SaveRows(now, read, queued, plan, rows, world);
    }

    /** planRefund, from the subscription check on. */
    method PlanRefund(now: int, read: Company, queued: seq<RemedyId>, world: World) returns (r: Planned)
      modifies this`company, this`remedies, this`plans, this`lateRuns, this`sendRuns
      ensures var end := Complete(StartPlanning(old(Tables(Running(now, read, Drop))), queued), world);
              match r
              case Rows(ids) => end == Complete(Tables(Running(now, read, CancelNow(ids))), world)
              case Null => Tables(Idle) == end
              case Threw => end == Complete(StepFailed(Tables(Running(now, read, Drop)), Planning, queued), world)
    {
      if read.request.None? || read.billingSubscription != Some(read.request.value.subscription) {
        r := DropRequest(now, read, queued, world);
        return;
      }
      ghost var s := Tables(Running(now, read, CountUsers(queued)));
      Unroll(s, world);
      var users := world(CountUsers(queued));
      if !users.Users? {
        return Threw;
      }
      if users.count > 1 {
        r := DropRequest(now, read, queued, world);
        return;
      }
      ghost var t := Tables(Running(now, read, ReleaseCancel(queued)));
      assert t == JobStep(s, users);
      Unroll(t, world);
      if !world(ReleaseCancel(queued)).Done? {
        return Threw;
      }
      assert Tables(Running(now, read, PlanBasis(queued))) == JobStep(t, world(ReleaseCancel(queued)));
      r := PlanPeriod(now, read, queued, world);
    }

    /** planRefund, from the refund basis on. */
    method PlanPeriod(now: int, read: Company, queued: seq<RemedyId>, world: World) returns (r: Planned)
      modifies this`company, this`remedies, this`plans, this`lateRuns, this`sendRuns
      ensures var end := Complete(old(Tables(Running(now, read, PlanBasis(queued)))), world);
              match r
              case Rows(ids) => end == Complete(Tables(Running(now, read, CancelNow(ids))), world)
              case Null => Tables(Idle) == end
              case Threw => end == Complete(StepFailed(Tables(Running(now, read, Drop)), Planning, queued), world)
    {
      ghost var s := Tables(Running(now, read, PlanBasis(queued)));
      Unroll(s, world);
      var answer := world(PlanBasis(queued));
      if !answer.BasisReply? {
        return Threw;
      }
      if answer.basis.None? {
        r := DropRequest(now, read, queued, world);
        return;
      }
      var basis := answer.basis.value;
      var period := CurrentPeriodPaid(read, basis.periodStart, now);
      if period.Wait? {
        Return(now);
        return Null;
      }
      var paid, cards := period.Paid?, [];
      if period.Ask? {
        ghost var t := Tables(Running(now, read, AskPeriod(queued, basis)));
        assert t == JobStep(s, answer);
        Unroll(t, world);
        var provider := world(AskPeriod(queued, basis));
        if !provider.PeriodReply? {
          return Threw;
        }
        paid := provider.paid && !provider.failed;
        cards := if paid then provider.cards else [];
        assert Tables(Running(now, read, ReadPayments(queued, basis, paid, cards))) == JobStep(t, provider);
      } else {
        assert Tables(Running(now, read, ReadPayments(queued, basis, paid, cards))) == JobStep(s, answer);
      }
      r := PlanRows(now, read, queued, basis, paid, cards, world);
    }

    /** The queue as it is, when its first row is of the current period; else a fresh plan. */
    method ReplanIfRenewed(now: int, read: Company, queued: seq<RemedyId>, world: World) returns (r: Planned)
      requires queued != []
      modifies this`company, this`remedies, this`plans, this`lateRuns, this`sendRuns
      ensures var end := Complete(old(Tables(Running(now, read, ReplanBasis(queued)))), world);
              match r
              case Rows(ids) => end == Complete(Tables(Running(now, read, CancelNow(ids))), world)
              case Null => Tables(Idle) == end
              case Threw => end == Complete(StepFailed(Tables(Running(now, read, Drop)), Planning, queued), world)
    {
      ghost var s := Tables(Running(now, read, ReplanBasis(queued)));
      ghost var end := Complete(s, world);
      Unroll(s, world);
      var current := world(ReplanBasis(queued));
      if !current.BasisReply? {
        return Threw;
      }
      if current.basis.None? || current.basis.value.periodStart == RowAt(remedies, queued[0]).periodStart {
        return Rows(queued);
      }
      var rest := queued;
      while rest != []
        invariant end == if rest == [] then Complete(StartPlanning(Tables(Running(now, read, Drop)), queued), world)
                         else Complete(Tables(Running(now, read, Supersede(rest, queued))), world)
        decreases |rest|
      {
        ghost var t := Tables(Running(now, read, Supersede(rest, queued)));
        Unroll(t, world);
        if !world(Supersede(rest, queued)).Done? {
          return Threw;
        }
        var row := RowAt(remedies, rest[0]);
        remedies := WhereQueued(remedies, rest[0], row.(status := RemedyStatus.Failed));
        rest := rest[1..];
      }
      r := PlanRefund(now, read, queued, world);
    }

    // ----- A failed step -----

    /** `proceed` leads to clearing the request; otherwise the run has ended here. */
    method FailStep(step: FailedStep, now: int, read: Company, queued: seq<RemedyId>, world: World)
      returns (proceed: bool)
      modifies this`company, this`remedies, this`lateRuns, this`sendRuns
      ensures proceed ==> step.Cancelling?
      ensures var end := Complete(StepFailed(old(Tables(Running(now, read, Drop))), step, queued), world);
              if proceed then end == Complete(Tables(Running(now, read, Clear(queued))), world)
              else Tables(Idle) == end
    {
      if read.attempts + 1 < MAX_PROVIDER_ATTEMPTS {
        UnrollCountAttempt(Tables(Running(now, read, CountAttempt)), world);
        if world(CountAttempt).Done? {
          company := company.(attempts := read.attempts + 1);
          Return(now);
        }
        return false;
      }
      if step.Cancelling? {
        UnrollCheckEnded(Tables(Running(now, read, CheckEnded(queued))), queued, world);
        var answer := world(CheckEnded(queued));
        if answer.BasisReply? && answer.basis.None? {
          return true;
        }
      }
      Release(now, read, queued, world);
      return false;
    }

    method ReleaseRow(now: int, read: Company, rest: seq<RemedyId>, world: World) returns (written: bool)
      requires rest != []
      modifies this`remedies
      ensures var end := Complete(old(Tables(Running(now, read, ReleaseRows(rest)))), world);
              if written then end == Complete(ReleaseOrDrop(Tables(Running(now, read, Drop)), rest[1..]), world)
              else Tables(Idle) == end
    {
      ghost var s := Tables(Running(now, read, ReleaseRows(rest)));
      UnrollRelease(s, rest, world);
      if !world(ReleaseRows(rest)).Done? {
        return false;
      }
      var row := RowAt(remedies, rest[0]).(status := RemedyStatus.Failed, attempts := read.attempts + 1);
      remedies := WhereQueued(remedies, rest[0], row);
      assert ReleaseRowsStep(s, rest, Done) == RowReleased(s, rest, row);
      assert RowReleased(s, rest, row) == ReleaseOrDrop(Tables(Running(now, read, Drop)), rest[1..]);
      return true;
    }

    /** The queue is given back and the request dropped. */
    method Release(now: int, read: Company, queued: seq<RemedyId>, world: World)
      modifies this`company, this`remedies, this`lateRuns, this`sendRuns
      ensures Tables(Idle) == Complete(ReleaseOrDrop(old(Tables(Running(now, read, Drop))), queued), world)
    {
      ghost var end := Complete(ReleaseOrDrop(Tables(Running(now, read, Drop)), queued), world);
      var rest := queued;
      while rest != []
        invariant end == Complete(ReleaseOrDrop(Tables(Running(now, read, Drop)), rest), world)
        decreases |rest|
      {
        assert ReleaseOrDrop(Tables(Running(now, read, Drop)), rest) == Tables(Running(now, read, ReleaseRows(rest)));
        var written := ReleaseRow(now, read, rest, world);
        if !written {
          return;
        }
        rest := rest[1..];
      }
      Abandon(now, read, world);
    }

    /** dropRequest outside planning: a failed write ends the run. */
    method Abandon(now: int, read: Company, world: World)
      modifies this`company, this`lateRuns, this`sendRuns
      ensures Tables(Idle) == Complete(old(Tables(Running(now, read, Drop))), world)
    {
      ghost var s := Tables(Running(now, read, Drop));
      Unroll(s, world);
      if world(Drop).Done? {
        ClearRequest();
        Return(now);
      }
    }

    // ----- The run -----

    /** True when the provider has ended the subscription. */
    method CancelAtProvider(now: int, read: Company, queued: seq<RemedyId>, world: World) returns (proceed: bool)
      modifies this`company, this`remedies, this`provider, this`lateRuns, this`sendRuns
      ensures var end := Complete(old(Tables(Running(now, read, CancelNow(queued)))), world);
              if proceed then end == Complete(Tables(Running(now, read, Clear(queued))), world)
              else Tables(Idle) == end
    {
      ghost var s := Tables(Running(now, read, CancelNow(queued)));
      Unroll(s, world);
      var answer := world(CancelNow(queued));
      if answer.Done? || (answer.Error? && answer.effect.Ended?) {
        var subscription := if read.request.Some? then read.request.value.subscription else 0;
        provider := provider.(ended := provider.ended + {subscription});
      }
      if answer.Done? {
        return true;
      }
      assert StepFailed(Tables(Running(now, read, Drop)), Cancelling, queued) == JobStep(s, answer);
      proceed := FailStep(Cancelling, now, read, queued, world);
    }

    /** Cancel at the provider, clear the request, send the refunds. */
    method CancelAndSend(now: int, read: Company, queued: seq<RemedyId>, world: World)
      modifies this`company, this`remedies, this`provider, this`lateRuns, this`sendRuns, history
      ensures Tables(Idle) == Complete(old(Tables(Running(now, read, CancelNow(queued)))), world)
    {
      var proceed := CancelAtProvider(now, read, queued, world);
      if !proceed {
        return;
      }
      ghost var s := Tables(Running(now, read, Clear(queued)));
      UnrollClear(s, queued, world);
      if !world(Clear(queued)).Done? {
        return;
      }
      ClearRequest();
      assert SendOrFinish(Tables(Running(now, read, Drop)), queued) == SendOrFinish(Cleared(s), queued);
      SendRefunds(now, read, queued, world);
    }

    /** The run of a due request. */
    method ExecuteDue(now: int, read: Company, queued: seq<RemedyId>, world: World)
      modifies this, history
      ensures var s := old(Tables(Running(now, read, Drop)));
              Tables(Idle) ==
              Complete(if queued == [] then StartPlanning(s, queued) else Goto(s, ReplanBasis(queued)), world)
    {
      var planned: Planned;
      if queued == [] {
        planned := PlanRefund(now, read, queued, world);
      } else {
        planned := ReplanIfRenewed(now, read, queued, world);
      }
      match planned
      case Null =>
      case Threw =>
        var _ := FailStep(Planning, now, read, queued, world);
      case Rows(ids) =>
        CancelAndSend(now, read, ids, world);
    }

    /** One run of one company, to its end. */
    method ExecuteFor(now: int, world: World)
      modifies this, history
      ensures Tables(Idle) == Complete(Begin(old(Tables(Idle)), now), world)
    {
      var read := company;
      var queued := QueuedIds(remedies);
      if read.request.None? {
        SendRefunds(now, read, queued, world);
        return;
      }
      if read.request.value.at > now - DOWNGRADE_DELAY_MS {
        Return(now);
        return;
      }
      if !read.hasCustomer {
        Abandon(now, read, world);
        return;
      }
      ExecuteDue(now, read, queued, world);
    }
  }
}
