/**
 * One company's downgrade as a step machine (backend/src/modules/billing/billing-downgrade.service.ts).
 * The company lock admits one job at a time. A job stops at every write and every provider call, so a
 * crash, a renewal or a webhook can come between any two of them.
 */
module Downgrade {
  import opened Options
  import opened CancelRefund
  import H = BillingHistory

  type Subscription = nat
  type Invoice = nat
  type RemedyId = nat

  const DOWNGRADE_DELAY_MS: int := 48 * 60 * 60 * 1000
  const REFUND_WINDOW_MS: int := 120 * 24 * 60 * 60 * 1000
  const RENEWAL_WAIT_MS: int := 6 * 60 * 60 * 1000
  const MAX_PROVIDER_ATTEMPTS: nat := 5
  const COMPANY: H.Company := 0

  // ----- Tables -----

  datatype RemedyStatus = Queued | Initiated | Approved | Rejected | Reversed | Failed
  datatype RefundState = Pending | Approved | Rejected | Reversed
  datatype Cause = Cancel | MakeItRight

  /** A row of payment_remedies; the row id is its position. `plan` names the plan that made a cancel row. */
  datatype Remedy = Remedy(cause: Cause, plan: nat, subscription: Subscription, periodStart: int, invoice: Invoice,
                           amount: int, status: RemedyStatus, attempts: nat, ref: Option<nat>)

  datatype Request = Request(at: int, subscription: Subscription)
  datatype Company = Company(request: Option<Request>, attempts: nat, billingSubscription: Option<Subscription>,
                             hasCustomer: bool, pastDue: bool)

  /** A refund at the provider: its id, and its state when it was made. */
  datatype ProviderRefund = ProviderRefund(id: nat, state: RefundState)

  /** The provider: ended subscriptions, and the refunds made for a remedy id. */
  datatype Provider = Provider(ended: set<Subscription>, refunds: map<RemedyId, ProviderRefund>)

  datatype CardPayment = CardPayment(invoice: Invoice, amount: int, occurredAt: int)

  /** A payment of a plan, with the refunds counted on it when the plan was made. */
  datatype Counted = Counted(invoice: Invoice, amount: int, refunded: int)
  datatype Plan = Plan(subscription: Subscription, payments: seq<Counted>)

  datatype Basis = Basis(startedAt: int, periodStart: int, periodEnd: int, heldLines: seq<HeldLine>,
                         pendingNextBill: int, creditBalance: int)

  // ----- The job -----

  /** Where a run stands; each point is the next write or provider call. `queued` are the rows it works on. */
  datatype Point =
    | ReplanBasis(queued: seq<RemedyId>)
    | Supersede(rest: seq<RemedyId>, queued: seq<RemedyId>)
    | CountUsers(queued: seq<RemedyId>)
    | ReleaseCancel(queued: seq<RemedyId>)
    | PlanBasis(queued: seq<RemedyId>)
    | AskPeriod(queued: seq<RemedyId>, basis: Basis)
    | ReadPayments(queued: seq<RemedyId>, basis: Basis, paid: bool, cards: seq<CardPayment>)
    | Save(queued: seq<RemedyId>, plan: Plan, rows: seq<Remedy>)
    | CancelNow(queued: seq<RemedyId>)
    | CheckEnded(queued: seq<RemedyId>)
    | CountAttempt
    | ReleaseRows(rest: seq<RemedyId>)
    | DropInPlanning(queued: seq<RemedyId>)
    | Drop
    | Clear(queued: seq<RemedyId>)
    | Send(queued: seq<RemedyId>)
    | SendHistory(queued: seq<RemedyId>, refund: ProviderRefund)
    | SendStatus(queued: seq<RemedyId>, refund: ProviderRefund)
    | SendFailed(queued: seq<RemedyId>)

  /** `company` is the row as read at the start of the run. */
  datatype Job = Idle | Running(now: int, company: Company, at: Point)

  datatype Effect = NoEffect | Ended | Created(refund: ProviderRefund)

  /** What a write, a read or a provider call came back with. A call that throws may have had its effect. */
  datatype Reply =
    | Done
    | Error(effect: Effect)
    | Users(count: nat)
    | BasisReply(basis: Option<Basis>)
    | PeriodReply(paid: bool, failed: bool, cards: seq<CardPayment>)
    | Payments(rows: seq<CardPayment>)
    | RefundReply(refund: ProviderRefund)

  /**
   * lateRuns counts the completed runs that began 54 hours or more after the pending request and left it
   * pending; sendRuns counts the completed runs since no request is pending.
   */
  datatype State = State(company: Company, remedies: seq<Remedy>, history: H.Table, provider: Provider,
                         plans: seq<Plan>, job: Job, lateRuns: nat, sendRuns: nat)

  // ----- Rows -----

  predicate IsQueued(r: Remedy) { r.cause.Cancel? && r.status.Queued? }

  /** The queued cancel rows, oldest first. */
  function QueuedIds(remedies: seq<Remedy>): seq<RemedyId> {
    if remedies == [] then []
    else
      var n := |remedies| - 1;
      QueuedIds(remedies[..n]) + if IsQueued(remedies[n]) then [n] else []
  }

  /** update … where id = … and status = 'queued'. */
  function WhereQueued(remedies: seq<Remedy>, id: RemedyId, row: Remedy): seq<Remedy> {
    if id < |remedies| && remedies[id].status.Queued? then remedies[id := row] else remedies
  }

  function RowAt(remedies: seq<Remedy>, id: RemedyId): Remedy {
    if id < |remedies| then remedies[id] else Remedy(Cancel, 0, 0, 0, 0, 0, RemedyStatus.Failed, 0, None)
  }

  function StatusOf(state: RefundState): RemedyStatus {
    match state
    case Pending => Initiated
    case Approved => RemedyStatus.Approved
    case Rejected => RemedyStatus.Rejected
    case Reversed => RemedyStatus.Reversed
  }

  /** Four states of a refund, three of a history row: a reversal has none of its own. */
  function HistoryStatusOf(state: RefundState): H.RefundStatus {
    match state
    case Pending => H.Pending
    case Approved => H.Approved
    case Rejected => H.Rejected
    case Reversed => H.Rejected
  }

  function SettleFrom(state: RefundState): set<RemedyStatus> {
    match state
    case Pending => {}
    case Approved => {Queued, Initiated, RemedyStatus.Failed}
    case Rejected => {Queued, Initiated}
    case Reversed => {Queued, Initiated, RemedyStatus.Approved}
  }

  predicate IsLive(r: Remedy) { r.status.Queued? || r.status.Initiated? || r.status == RemedyStatus.Approved }

  /** The live refunds counted against an invoice, whatever their cause. */
  function LiveRefunds(remedies: seq<Remedy>, invoice: Invoice): int {
    if remedies == [] then 0
    else
      var last := remedies[|remedies| - 1];
      LiveRefunds(remedies[..|remedies| - 1], invoice) + if IsLive(last) && last.invoice == invoice then last.amount else 0
  }

  // ----- Planning -----

  /** Newest first; equal times keep their order. */
  function InsertByTime(sorted: seq<CardPayment>, p: CardPayment): seq<CardPayment> {
    if sorted == [] || sorted[|sorted| - 1].occurredAt >= p.occurredAt then sorted + [p]
    else InsertByTime(sorted[..|sorted| - 1], p) + [sorted[|sorted| - 1]]
  }

  function SortByTime(ps: seq<CardPayment>): seq<CardPayment> {
    if ps == [] then [] else InsertByTime(SortByTime(ps[..|ps| - 1]), ps[|ps| - 1])
  }

  /** Those of `cards` from `windowStart` on whose invoice is not among `rows`. */
  function Unrecorded(cards: seq<CardPayment>, rows: seq<CardPayment>, windowStart: int): seq<CardPayment> {
    if cards == [] then []
    else
      var last := cards[|cards| - 1];
      var init := Unrecorded(cards[..|cards| - 1], rows, windowStart);
      if (exists r | r in rows :: r.invoice == last.invoice) || last.occurredAt < windowStart then init else init + [last]
  }

  function CountAll(remedies: seq<Remedy>, ps: seq<CardPayment>): seq<Counted> {
    if ps == [] then []
    else
      var p := ps[|ps| - 1];
      CountAll(remedies, ps[..|ps| - 1]) + [Counted(p.invoice, p.amount, LiveRefunds(remedies, p.invoice))]
  }

  /** The payments of a plan, newest first, with the refunds counted on each. */
  function PlanPayments(remedies: seq<Remedy>, rows: seq<CardPayment>, cards: seq<CardPayment>,
                        now: int): seq<Counted> {
    CountAll(remedies, SortByTime(rows + Unrecorded(cards, rows, now - REFUND_WINDOW_MS)))
  }

  function Refundables(counted: seq<Counted>): seq<RefundablePayment> {
    if counted == [] then []
    else
      var c := counted[|counted| - 1];
      Refundables(counted[..|counted| - 1]) + [RefundablePayment(c.invoice, Max(c.amount - c.refunded, 0))]
  }

  function InputOf(basis: Basis, paid: bool, now: int, refundable: int): Input {
    Input(basis.periodStart, basis.periodEnd, now, paid, basis.heldLines, basis.pendingNextBill,
          basis.creditBalance, refundable)
  }

  function RowsOf(parts: seq<Part>, plan: nat, subscription: Subscription, periodStart: int): seq<Remedy> {
    if parts == [] then []
    else
      var last := parts[|parts| - 1];
      RowsOf(parts[..|parts| - 1], plan, subscription, periodStart)
      + [Remedy(Cancel, plan, subscription, periodStart, last.invoice, last.amount, Queued, 0, None)]
  }

  function PlanParts(basis: Basis, paid: bool, now: int, payments: seq<Counted>): seq<Part> {
    var refundables := Refundables(payments);
    Shares(Compute(InputOf(basis, paid, now, TotalRefundable(refundables))).amount, refundables, |refundables|)
  }

  datatype PeriodState = Paid | Unpaid | Wait | Ask

  predicate PaidRow(table: H.Table, key: H.Key, periodStart: int) {
    key in table && table[key].PaymentRow? && table[key].company == COMPANY && table[key].periodStart >= periodStart
  }

  /** Whether our rows show the period as paid; Ask means that only the provider can tell. */
  function PeriodOf(table: H.Table, company: Company, periodStart: int, now: int): PeriodState {
    if exists key | key in table ::
         PaidRow(table, key, periodStart) && (key.rowType.PaymentSucceeded? || key.rowType.SettledWithoutCharge?)
    then Paid
    else if (exists key | key in table :: PaidRow(table, key, periodStart) && key.rowType.PaymentFailed?)
            || company.pastDue
    then Unpaid
    else
      var requestedAt := if company.request.Some? then company.request.value.at else now;
      if now < requestedAt + DOWNGRADE_DELAY_MS + RENEWAL_WAIT_MS then Wait else Ask
  }

  // ----- Steps of a job -----

  const NoRequest: Option<Request> := None

  function Cleared(s: State): State {
    s.(company := s.company.(request := NoRequest, attempts := 0), lateRuns := 0, sendRuns := 0)
  }

  function Goto(s: State, at: Point): State {
    if s.job.Idle? then s else s.(job := s.job.(at := at))
  }

  predicate IsLate(now: int, company: Company) {
    company.request.Some? && now >= company.request.value.at + DOWNGRADE_DELAY_MS + RENEWAL_WAIT_MS
  }

  /** The run returns without a crash. */
  function Finish(s: State): State {
    if s.job.Idle? then s
    else s.(job := Idle,
            lateRuns := if IsLate(s.job.now, s.company) then s.lateRuns + 1 else s.lateRuns,
            sendRuns := if s.company.request.None? then s.sendRuns + 1 else s.sendRuns)
  }

  function SendOrFinish(s: State, queued: seq<RemedyId>): State {
    if queued == [] then Finish(s) else Goto(s, Send(queued))
  }

  function ReleaseOrDrop(s: State, rest: seq<RemedyId>): State {
    if rest == [] then Goto(s, Drop) else Goto(s, ReleaseRows(rest))
  }

  datatype FailedStep = Planning | Cancelling

  /** Below five attempts the run counts one; at the fifth it asks the provider or starts to release. */
  function StepFailed(s: State, step: FailedStep, queued: seq<RemedyId>): State {
    if s.job.Idle? then s
    else if s.job.company.attempts + 1 < MAX_PROVIDER_ATTEMPTS then Goto(s, CountAttempt)
    else if step.Cancelling? then Goto(s, CheckEnded(queued))
    else ReleaseOrDrop(s, queued)
  }

  function StartPlanning(s: State, queued: seq<RemedyId>): State {
    if s.job.Idle? then s
    else if s.job.company.request.None?
            || s.job.company.billingSubscription != Some(s.job.company.request.value.subscription)
    then Goto(s, DropInPlanning(queued))
    else Goto(s, CountUsers(queued))
  }

  function Begin(s: State, now: int): State {
    if s.job.Running? then s
    else
      var queued := QueuedIds(s.remedies);
      var t := s.(job := Running(now, s.company, Drop));
      var due := s.company.request.Some? && s.company.request.value.at <= now - DOWNGRADE_DELAY_MS;
      if s.company.request.None? then SendOrFinish(t, queued)
      else if !due then Finish(t)
      else if !s.company.hasCustomer then t
      else if queued == [] then StartPlanning(t, queued)
      else Goto(t, ReplanBasis(queued))
  }

  function SubscriptionOf(job: Job): Subscription {
    if job.Running? && job.company.request.Some? then job.company.request.value.subscription else 0
  }

  function NewIds(s: State, rows: seq<Remedy>): seq<RemedyId> {
    seq(|rows|, i requires 0 <= i < |rows| => |s.remedies| + i)
  }

  function WithEffect(s: State, effect: Effect): State {
    match effect
    case NoEffect => s
    case Ended => s.(provider := s.provider.(ended := s.provider.ended + {SubscriptionOf(s.job)}))
    case Created(_) => s
  }

  function WithProviderRefund(s: State, id: RemedyId, refund: ProviderRefund): State {
    if id in s.provider.refunds then s
    else s.(provider := s.provider.(refunds := s.provider.refunds[id := refund]))
  }

  function ReplanBasisStep(s: State, queued: seq<RemedyId>, reply: Reply): State {
    if !reply.BasisReply? then StepFailed(s, Planning, queued)
    else if reply.basis.None? || queued == [] || reply.basis.value.periodStart == RowAt(s.remedies, queued[0]).periodStart
    then Goto(s, CancelNow(queued))
    else Goto(s, Supersede(queued, queued))
  }

  function SupersedeStep(s: State, rest: seq<RemedyId>, queued: seq<RemedyId>, reply: Reply): State {
    if !reply.Done? || rest == [] then StepFailed(s, Planning, queued)
    else
      var row := RowAt(s.remedies, rest[0]);
      var t := s.(remedies := WhereQueued(s.remedies, rest[0], row.(status := RemedyStatus.Failed)));
      if |rest| == 1 then StartPlanning(t, queued) else Goto(t, Supersede(rest[1..], queued))
  }

  function CountUsersStep(s: State, queued: seq<RemedyId>, reply: Reply): State {
    if !reply.Users? then StepFailed(s, Planning, queued)
    else if reply.count > 1 then Goto(s, DropInPlanning(queued))
    else Goto(s, ReleaseCancel(queued))
  }

  function ReleaseCancelStep(s: State, queued: seq<RemedyId>, reply: Reply): State {
    if !reply.Done? then StepFailed(s, Planning, queued) else Goto(s, PlanBasis(queued))
  }

  function PlanBasisStep(s: State, queued: seq<RemedyId>, reply: Reply): State
    requires s.job.Running?
  {
    if !reply.BasisReply? then StepFailed(s, Planning, queued)
    else if reply.basis.None? then Goto(s, DropInPlanning(queued))
    else
      var basis := reply.basis.value;
      match PeriodOf(s.history, s.job.company, basis.periodStart, s.job.now)
      case Paid => Goto(s, ReadPayments(queued, basis, true, []))
      case Unpaid => Goto(s, ReadPayments(queued, basis, false, []))
      case Wait => Finish(s)
      case Ask => Goto(s, AskPeriod(queued, basis))
  }

  function AskPeriodStep(s: State, queued: seq<RemedyId>, basis: Basis, reply: Reply): State {
    if !reply.PeriodReply? then StepFailed(s, Planning, queued)
    else
      var paid := reply.paid && !reply.failed;
      Goto(s, ReadPayments(queued, basis, paid, if paid then reply.cards else []))
  }

  function ReadPaymentsStep(s: State, queued: seq<RemedyId>, basis: Basis, paid: bool, cards: seq<CardPayment>,
                            reply: Reply): State
    requires s.job.Running?
  {
    if !reply.Payments? then StepFailed(s, Planning, queued)
    else
      var counted := PlanPayments(s.remedies, reply.rows, cards, s.job.now);
      var parts := PlanParts(basis, paid, s.job.now, counted);
      if parts == [] then Goto(s, CancelNow([]))
      else Goto(s, Save(queued, Plan(SubscriptionOf(s.job), counted),
                        RowsOf(parts, |s.plans|, SubscriptionOf(s.job), basis.periodStart)))
  }

  function SaveStep(s: State, queued: seq<RemedyId>, plan: Plan, rows: seq<Remedy>, reply: Reply): State {
    if !reply.Done? then StepFailed(s, Planning, queued)
    else Goto(s.(remedies := s.remedies + rows, plans := s.plans + [plan]), CancelNow(NewIds(s, rows)))
  }

  function PlanningStep(s: State, reply: Reply): State
    requires s.job.Running?
  {
    match s.job.at
    case ReplanBasis(queued) => ReplanBasisStep(s, queued, reply)
    case Supersede(rest, queued) => SupersedeStep(s, rest, queued, reply)
    case CountUsers(queued) => CountUsersStep(s, queued, reply)
    case ReleaseCancel(queued) => ReleaseCancelStep(s, queued, reply)
    case PlanBasis(queued) => PlanBasisStep(s, queued, reply)
    case AskPeriod(queued, basis) => AskPeriodStep(s, queued, basis, reply)
    case ReadPayments(queued, basis, paid, cards) => ReadPaymentsStep(s, queued, basis, paid, cards, reply)
    case Save(queued, plan, rows) => SaveStep(s, queued, plan, rows, reply)
    case _ => s
  }

  function CancelStep(s: State, queued: seq<RemedyId>, reply: Reply): State {
    if reply.Done? then Goto(WithEffect(s, Ended), Clear(queued))
    else StepFailed(if reply.Error? then WithEffect(s, reply.effect) else s, Cancelling, queued)
  }

  function CheckEndedStep(s: State, queued: seq<RemedyId>, reply: Reply): State {
    if reply.BasisReply? && reply.basis.None? then Goto(s, Clear(queued)) else ReleaseOrDrop(s, queued)
  }

  function CountAttemptStep(s: State, reply: Reply): State
    requires s.job.Running?
  {
    if reply.Done? then Finish(s.(company := s.company.(attempts := s.job.company.attempts + 1))) else Crashed(s)
  }

  function ReleasedRow(row: Remedy, attempts: nat): Remedy {
    row.(status := RemedyStatus.Failed, attempts := attempts)
  }

  /** The first row takes `row` while it is queued, and the release goes on to the next. */
  function RowReleased(s: State, rest: seq<RemedyId>, row: Remedy): State
    requires rest != []
  {
    ReleaseOrDrop(s.(remedies := WhereQueued(s.remedies, rest[0], row)), rest[1..])
  }

  function ReleaseRowsStep(s: State, rest: seq<RemedyId>, reply: Reply): State
    requires s.job.Running?
  {
    if !reply.Done? || rest == [] then Crashed(s)
    else RowReleased(s, rest, ReleasedRow(RowAt(s.remedies, rest[0]), s.job.company.attempts + 1))
  }

  function ClosingStep(s: State, reply: Reply): State
    requires s.job.Running?
  {
    match s.job.at
    case CancelNow(queued) => CancelStep(s, queued, reply)
    case CheckEnded(queued) => CheckEndedStep(s, queued, reply)
    case CountAttempt => CountAttemptStep(s, reply)
    case ReleaseRows(rest) => ReleaseRowsStep(s, rest, reply)
    case DropInPlanning(queued) => if reply.Done? then Finish(Cleared(s)) else StepFailed(s, Planning, queued)
    case Drop => if reply.Done? then Finish(Cleared(s)) else Crashed(s)
    case Clear(queued) => if reply.Done? then SendOrFinish(Cleared(s), queued) else Crashed(s)
    case _ => s
  }

  function SentRow(row: Remedy, refund: ProviderRefund): Remedy {
    row.(ref := Some(refund.id), status := StatusOf(refund.state))
  }

  function FailedRow(row: Remedy): Remedy {
    row.(attempts := row.attempts + 1,
         status := if row.attempts + 1 >= MAX_PROVIDER_ATTEMPTS then RemedyStatus.Failed else row.status)
  }

  function RefundHistoryRow(amount: int, state: RefundState, at: int): H.Row {
    H.RefundRow(COMPANY, amount, HistoryStatusOf(state), at)
  }

  function SendCallStep(s: State, queued: seq<RemedyId>, reply: Reply): State {
    if queued == [] then Crashed(s)
    else if reply.RefundReply? then
      Goto(WithProviderRefund(s, queued[0], reply.refund), SendHistory(queued, reply.refund))
    else
      Goto(if reply.Error? && reply.effect.Created? then WithProviderRefund(s, queued[0], reply.effect.refund) else s,
           SendFailed(queued))
  }

  function SendHistoryStep(s: State, queued: seq<RemedyId>, refund: ProviderRefund, reply: Reply): State
    requires s.job.Running?
  {
    if !reply.Done? || queued == [] then Goto(s, SendFailed(queued))
    else
      var row := RefundHistoryRow(RowAt(s.remedies, queued[0]).amount, refund.state, s.job.now);
      Goto(s.(history := H.WithRefund(s.history, refund.id, row)), SendStatus(queued, refund))
  }

  /** The first row takes `row` while it is queued, and the job goes on to the next. */
  function RowDone(s: State, queued: seq<RemedyId>, row: Remedy): State
    requires queued != []
  {
    SendOrFinish(s.(remedies := WhereQueued(s.remedies, queued[0], row)), queued[1..])
  }

  function SendStatusStep(s: State, queued: seq<RemedyId>, refund: ProviderRefund, reply: Reply): State {
    if !reply.Done? || queued == [] then Goto(s, SendFailed(queued))
    else RowDone(s, queued, SentRow(RowAt(s.remedies, queued[0]), refund))
  }

  function SendFailedStep(s: State, queued: seq<RemedyId>, reply: Reply): State {
    if !reply.Done? || queued == [] then Crashed(s)
    else RowDone(s, queued, FailedRow(RowAt(s.remedies, queued[0])))
  }

  function SendingStep(s: State, reply: Reply): State
    requires s.job.Running?
  {
    match s.job.at
    case Send(queued) => SendCallStep(s, queued, reply)
    case SendHistory(queued, refund) => SendHistoryStep(s, queued, refund, reply)
    case SendStatus(queued, refund) => SendStatusStep(s, queued, refund, reply)
    case SendFailed(queued) => SendFailedStep(s, queued, reply)
    case _ => s
  }

  function Crashed(s: State): State { s.(job := Idle) }

  predicate IsPlanning(at: Point) {
    at.ReplanBasis? || at.Supersede? || at.CountUsers? || at.ReleaseCancel? || at.PlanBasis? || at.AskPeriod?
    || at.ReadPayments? || at.Save?
  }

  predicate IsSending(at: Point) { at.Send? || at.SendHistory? || at.SendStatus? || at.SendFailed? }

  /** The next write or call of the job, with what it came back with. */
  function JobStep(s: State, reply: Reply): State {
    if s.job.Idle? then s
    else if IsPlanning(s.job.at) then PlanningStep(s, reply)
    else if IsSending(s.job.at) then SendingStep(s, reply)
    else ClosingStep(s, reply)
  }

  // ----- Everything that can happen -----

  datatype Event =
    | RequestDowngrade(now: int, subscription: Subscription)
    | Withdraw
    | Start(now: int)
    | Step(reply: Reply)
    | Crash
    | RefundUpdated(id: RemedyId, refund: nat, state: RefundState, at: int)
    | ProviderEnds(subscription: Subscription)
    | CompanyChanges(billingSubscription: Option<Subscription>, pastDue: bool)
    | CustomerChanges(hasCustomer: bool)
    | PaymentArrives(payment: H.PaymentEvent)
    | OperatorRefunds(invoice: Invoice, amount: nat, refund: nat)

  /** request: refused (unchanged) while a request is pending or rows are queued. */
  function Requested(s: State, now: int, subscription: Subscription): State {
    if s.company.request.Some? || QueuedIds(s.remedies) != [] then s
    else s.(company := s.company.(request := Some(Request(now, subscription)), attempts := 0), lateRuns := 0)
  }

  /** withdraw: refused (unchanged) once rows are queued. */
  function Withdrawn(s: State): State {
    if s.company.request.None? || QueuedIds(s.remedies) != [] then s else Cleared(s)
  }

  /** applyRefundUpdate's search, before it takes the lock: by the refund, or by the reference while there is none. */
  predicate Finds(s: State, id: RemedyId, refund: nat, byReference: bool) {
    id < |s.remedies| && (s.remedies[id].ref == Some(refund) || (byReference && s.remedies[id].ref.None?))
  }

  /** applyRefundUpdate under the lock, for the row that it found. */
  function Settled(s: State, id: RemedyId, refund: nat, state: RefundState, at: int): State {
    if id >= |s.remedies| || s.remedies[id].status !in SettleFrom(state) then s
    else
      var row := s.remedies[id];
      var t := s.(remedies := s.remedies[id := row.(status := StatusOf(state), ref := Some(refund))]);
      if !row.cause.Cancel? then t
      else
        var inserted := H.WithRefund(t.history, refund, RefundHistoryRow(row.amount, state, at));
        t.(history := H.WithStatus(inserted, COMPANY, refund, HistoryStatusOf(state)))
  }

  /** applyRefundUpdate with nothing between the search and the lock. */
  function Updated(s: State, id: RemedyId, refund: nat, state: RefundState, byReference: bool, at: int): State {
    if Finds(s, id, refund, byReference) then Settled(s, id, refund, state, at) else s
  }

  function Next(s: State, e: Event): State {
    match e
    case RequestDowngrade(now, subscription) => Requested(s, now, subscription)
    case Withdraw => Withdrawn(s)
    case Start(now) => Begin(s, now)
    case Step(reply) => JobStep(s, reply)
    case Crash => Crashed(s)
    case RefundUpdated(id, refund, state, at) => Settled(s, id, refund, state, at)
    case ProviderEnds(subscription) => s.(provider := s.provider.(ended := s.provider.ended + {subscription}))
    case CompanyChanges(billing, pastDue) => s.(company := s.company.(billingSubscription := billing, pastDue := pastDue))
    case CustomerChanges(hasCustomer) => s.(company := s.company.(hasCustomer := hasCustomer))
    case PaymentArrives(payment) => s.(history := H.Recorded(s.history, payment))
    case OperatorRefunds(invoice, amount, refund) =>
      s.(remedies := s.remedies + [Remedy(MakeItRight, 0, 0, 0, invoice, amount, Initiated, 0, Some(refund))])
  }

  // ----- What the surroundings guarantee -----

  ghost predicate FreshRefund(s: State, refund: nat) {
    && H.Key(refund, H.Refund) !in s.history
    && forall id | id in s.provider.refunds :: s.provider.refunds[id].id != refund
  }

  /** A repeated refund of a remedy answers with the refund already made; a new one has a new id. */
  ghost predicate HonestRefund(s: State, id: RemedyId, refund: ProviderRefund) {
    if id in s.provider.refunds then refund.id == s.provider.refunds[id].id else FreshRefund(s, refund.id)
  }

  ghost predicate DistinctInvoices(ps: seq<CardPayment>) {
    forall i, j | 0 <= i < j < |ps| :: ps[i].invoice != ps[j].invoice
  }

  predicate NewestFirst(ps: seq<CardPayment>) {
    forall i, j | 0 <= i < j < |ps| :: ps[i].occurredAt >= ps[j].occurredAt
  }

  /** A charge of the subscription that is recent enough to be refunded. */
  predicate IsCharge(table: H.Table, key: H.Key, startedAt: int, windowStart: int) {
    && key in table && key.rowType.PaymentSucceeded? && table[key].PaymentRow? && table[key].company == COMPANY
    && table[key].periodStart >= startedAt && table[key].occurredAt >= windowStart
  }

  /** The history query of a plan: every such charge, once, newest first. */
  ghost predicate IsQuery(table: H.Table, startedAt: int, windowStart: int, rows: seq<CardPayment>) {
    && DistinctInvoices(rows) && NewestFirst(rows)
    && (forall i | 0 <= i < |rows| ::
          var key := H.Key(rows[i].invoice, H.PaymentSucceeded);
          && IsCharge(table, key, startedAt, windowStart)
          && rows[i] == CardPayment(key.id, table[key].amount, table[key].occurredAt))
    && (forall key | IsCharge(table, key, startedAt, windowStart) :: exists i :: 0 <= i < |rows| && rows[i].invoice == key.id)
  }

  /** Our charges come from the history; the provider lists an invoice once. */
  ghost predicate HonestLists(s: State, reply: Reply) {
    && (reply.PeriodReply? ==> DistinctInvoices(reply.cards))
    && (s.job.Running? && s.job.at.ReadPayments? && reply.Payments? ==>
          IsQuery(s.history, s.job.at.basis.startedAt, s.job.now - REFUND_WINDOW_MS, reply.rows))
  }

  /** The provider's contracts: no basis exactly when the subscription has ended; honest refunds. */
  ghost predicate HonestReply(s: State, reply: Reply) {
    s.job.Running? ==>
      && (reply.BasisReply? ==> (reply.basis.None? <==> SubscriptionOf(s.job) in s.provider.ended))
      && (s.job.at.Send? && s.job.at.queued != [] ==>
            && (reply.RefundReply? ==> HonestRefund(s, s.job.at.queued[0], reply.refund))
            && (reply.Error? && reply.effect.Created? ==> HonestRefund(s, s.job.at.queued[0], reply.effect.refund)))
  }

  /** An update that names a cancel row names the refund that the provider made for it. */
  ghost predicate NamesItsRefund(s: State, id: RemedyId, refund: nat) {
    id < |s.remedies| && s.remedies[id].cause.Cancel? ==> id in s.provider.refunds && refund == s.provider.refunds[id].id
  }

  /**
   * Requests, withdrawals, job starts and refund updates take the company lock. A request needs a billing
   * customer, and the customer is not taken away while it is pending.
   */
  ghost predicate Enabled(s: State, e: Event) {
    match e
    case RequestDowngrade(_, _) => s.job.Idle? && s.company.hasCustomer
    case Withdraw => s.job.Idle?
    case Start(_) => s.job.Idle?
    case Step(reply) => s.job.Running? && HonestReply(s, reply) && HonestLists(s, reply)
    case RefundUpdated(id, refund, _, _) =>
      s.job.Idle? && id < |s.remedies| && s.remedies[id].ref in {None, Some(refund)} && NamesItsRefund(s, id, refund)
    case CustomerChanges(hasCustomer) =>
      hasCustomer || s.company.request.None?
    case _ => true
  }

  const Start0: State :=
    State(Company(None, 0, None, false, false), [], map[], Provider({}, map[]), [], Idle, 0, 0)

  ghost predicate IsRun(states: seq<State>, events: seq<Event>) {
    && |states| == |events| + 1 && states[0] == Start0
    && forall i | 0 <= i < |events| :: Enabled(states[i], events[i]) && states[i + 1] == Next(states[i], events[i])
  }
}
