/**
 * What a plan may take: it lists every payment once, so the refunds sent on a payment stay within its
 * amount less the refunds counted on it when the plan was made.
 */
module DowngradePlans {
  import opened CancelRefund
  import opened Downgrade
  import opened DowngradeSafety

  ghost predicate DistinctCounted(ps: seq<Counted>) {
    forall i, j | 0 <= i < j < |ps| :: ps[i].invoice != ps[j].invoice
  }

  ghost predicate DistinctPlans(plans: seq<Plan>) {
    forall p | 0 <= p < |plans| :: DistinctCounted(plans[p].payments)
  }

  ghost predicate JobPlansDistinct(at: Point) {
    && (at.ReadPayments? ==> DistinctInvoices(at.cards))
    && (at.Save? ==> DistinctCounted(at.plan.payments))
  }

  /** Every plan, saved or about to be, lists a payment once. */
  ghost predicate PlansDistinct(s: State) {
    && DistinctPlans(s.plans)
    && (s.job.Running? ==> JobPlansDistinct(s.job.at))
  }

  lemma {:induction false} InsertKeepsDistinct(sorted: seq<CardPayment>, p: CardPayment)
    requires DistinctInvoices(sorted) && forall i | 0 <= i < |sorted| :: sorted[i].invoice != p.invoice
    ensures DistinctInvoices(InsertByTime(sorted, p))
    ensures forall q :: q in InsertByTime(sorted, p) <==> q in sorted || q == p
  {
    if sorted != [] && sorted[|sorted| - 1].occurredAt < p.occurredAt {
      var init, last := sorted[..|sorted| - 1], sorted[|sorted| - 1];
      InsertKeepsDistinct(init, p);
      var r := InsertByTime(init, p);
      assert sorted == init + [last];
      forall i | 0 <= i < |r| ensures r[i].invoice != last.invoice {
        assert r[i] in r;
      }
    }
  }

  lemma {:induction false} SortKeepsDistinct(ps: seq<CardPayment>)
    requires DistinctInvoices(ps)
    ensures DistinctInvoices(SortByTime(ps))
    ensures forall q :: q in SortByTime(ps) <==> q in ps
  {
    if ps != [] {
      var init, last := ps[..|ps| - 1], ps[|ps| - 1];
      SortKeepsDistinct(init);
      assert ps == init + [last];
      forall i | 0 <= i < |SortByTime(init)| ensures SortByTime(init)[i].invoice != last.invoice {
        assert SortByTime(init)[i] in init;
      }
      InsertKeepsDistinct(SortByTime(init), last);
    }
  }

  lemma {:induction false} UnrecordedAreNew(cards: seq<CardPayment>, rows: seq<CardPayment>, windowStart: int)
    requires DistinctInvoices(cards)
    ensures var new' := Unrecorded(cards, rows, windowStart);
            && DistinctInvoices(new')
            && (forall c | c in new' :: c in cards && c.occurredAt >= windowStart)
            && (forall c, r | c in new' && r in rows :: c.invoice != r.invoice)
  {
    if cards != [] {
      UnrecordedAreNew(cards[..|cards| - 1], rows, windowStart);
    }
  }

  lemma {:induction false} CountKeepsPayments(remedies: seq<Remedy>, ps: seq<CardPayment>)
    ensures |CountAll(remedies, ps)| == |ps|
    ensures forall i | 0 <= i < |ps| ::
              CountAll(remedies, ps)[i] == Counted(ps[i].invoice, ps[i].amount, LiveRefunds(remedies, ps[i].invoice))
  {
    if ps != [] {
      CountKeepsPayments(remedies, ps[..|ps| - 1]);
    }
  }

  lemma PlannedAreDistinct(rows: seq<CardPayment>, cards: seq<CardPayment>, windowStart: int)
    requires DistinctInvoices(rows) && DistinctInvoices(cards)
    ensures DistinctInvoices(rows + Unrecorded(cards, rows, windowStart))
  {
    UnrecordedAreNew(cards, rows, windowStart);
    var all := rows + Unrecorded(cards, rows, windowStart);
    forall i, j | 0 <= i < j < |all| ensures all[i].invoice != all[j].invoice {
      if i < |rows| <= j {
        assert all[i] in rows && all[j] in Unrecorded(cards, rows, windowStart);
      }
    }
  }

  /** The provider's list and ours never count one payment twice. */
  lemma PlannedPaymentsAreDistinct(remedies: seq<Remedy>, rows: seq<CardPayment>, cards: seq<CardPayment>, now: int)
    requires DistinctInvoices(rows) && DistinctInvoices(cards)
    ensures DistinctCounted(PlanPayments(remedies, rows, cards, now))
  {
    var all := rows + Unrecorded(cards, rows, now - REFUND_WINDOW_MS);
    PlannedAreDistinct(rows, cards, now - REFUND_WINDOW_MS);
    SortKeepsDistinct(all);
    CountKeepsPayments(remedies, SortByTime(all));
  }

  lemma ReadPaymentsKeepsPlansDistinct(s: State, queued: seq<RemedyId>, basis: Basis, paid: bool,
                                       cards: seq<CardPayment>, reply: Reply)
    requires PlansDistinct(s) && s.job.Running? && DistinctInvoices(cards)
    requires reply.Payments? ==> DistinctInvoices(reply.rows)
    ensures PlansDistinct(ReadPaymentsStep(s, queued, basis, paid, cards, reply))
  {
    if reply.Payments? {
      PlannedPaymentsAreDistinct(s.remedies, reply.rows, cards, s.job.now);
    }
  }

  lemma PlanningKeepsPlansDistinct(s: State, reply: Reply)
    requires PlansDistinct(s) && s.job.Running? && IsPlanning(s.job.at) && HonestLists(s, reply)
    ensures PlansDistinct(PlanningStep(s, reply))
  {
    match s.job.at
    case AskPeriod(queued, basis) =>
      AskPeriodKeepsPlansDistinct(s, queued, basis, reply);
    case ReadPayments(queued, basis, paid, cards) =>
      ReadPaymentsKeepsPlansDistinct(s, queued, basis, paid, cards, reply);
    case Save(queued, plan, rows) =>
      SaveKeepsPlansDistinct(s, queued, plan, rows, reply);
    case PlanBasis(queued) =>
      PlanBasisKeepsPlansDistinct(s, queued, reply);
    case _ =>
      EarlyKeepsPlansDistinct(s, reply);
  }

  lemma AskPeriodKeepsPlansDistinct(s: State, queued: seq<RemedyId>, basis: Basis, reply: Reply)
    requires PlansDistinct(s) && (reply.PeriodReply? ==> DistinctInvoices(reply.cards))
    ensures PlansDistinct(AskPeriodStep(s, queued, basis, reply))
  {
  }

  lemma SaveKeepsPlansDistinct(s: State, queued: seq<RemedyId>, plan: Plan, rows: seq<Remedy>, reply: Reply)
    requires PlansDistinct(s) && DistinctCounted(plan.payments)
    ensures PlansDistinct(SaveStep(s, queued, plan, rows, reply))
  {
  }

  lemma PlanBasisKeepsPlansDistinct(s: State, queued: seq<RemedyId>, reply: Reply)
    requires PlansDistinct(s) && s.job.Running?
    ensures PlansDistinct(PlanBasisStep(s, queued, reply))
  {
  }

  lemma EarlyKeepsPlansDistinct(s: State, reply: Reply)
    requires PlansDistinct(s) && s.job.Running?
    requires s.job.at.ReplanBasis? || s.job.at.Supersede? || s.job.at.CountUsers? || s.job.at.ReleaseCancel?
    ensures PlansDistinct(PlanningStep(s, reply))
  {
  }

  lemma ClosingKeepsPlansDistinct(s: State, reply: Reply)
    requires PlansDistinct(s) && s.job.Running? && !IsPlanning(s.job.at) && !IsSending(s.job.at)
    ensures PlansDistinct(ClosingStep(s, reply))
  {
  }

  lemma SendingKeepsPlansDistinct(s: State, reply: Reply)
    requires PlansDistinct(s) && s.job.Running? && IsSending(s.job.at)
    ensures PlansDistinct(SendingStep(s, reply))
  {
  }

  lemma StepKeepsPlansDistinct(s: State, reply: Reply)
    requires PlansDistinct(s) && s.job.Running? && HonestLists(s, reply)
    ensures PlansDistinct(JobStep(s, reply))
  {
    if IsPlanning(s.job.at) {
      PlanningKeepsPlansDistinct(s, reply);
    } else if IsSending(s.job.at) {
      SendingKeepsPlansDistinct(s, reply);
    } else {
      ClosingKeepsPlansDistinct(s, reply);
    }
  }

  lemma NextKeepsPlansDistinct(s: State, e: Event)
    requires PlansDistinct(s) && Enabled(s, e)
    ensures PlansDistinct(Next(s, e))
  {
    if e.Step? {
      StepKeepsPlansDistinct(s, e.reply);
    }
  }

  lemma {:induction false} EveryPlanIsDistinct(states: seq<State>, events: seq<Event>, i: nat)
    requires IsRun(states, events) && i < |states|
    ensures PlansDistinct(states[i])
  {
    if i > 0 {
      EveryPlanIsDistinct(states, events, i - 1);
      NextKeepsPlansDistinct(states[i - 1], events[i - 1]);
    }
  }

  /** The amount less the counted refunds of the invoice's payment; nothing without one. */
  ghost function Allowed(payments: seq<Counted>, invoice: Invoice): int {
    if i :| 0 <= i < |payments| && payments[i].invoice == invoice
    then Max(payments[i].amount - payments[i].refunded, 0)
    else 0
  }

  predicate Lists(plan: Plan, invoice: Invoice) {
    exists i :: 0 <= i < |plan.payments| && plan.payments[i].invoice == invoice
  }

  lemma AllowedIsRefundable(payments: seq<Counted>, invoice: Invoice)
    requires DistinctCounted(payments)
    ensures RefundableOn(Refundables(payments), invoice) == Allowed(payments, invoice)
  {
    if i :| 0 <= i < |payments| && payments[i].invoice == invoice {
      RefundableIsAmountLessRefunds(payments, i);
    } else {
      AbsentIsNotRefundable(payments, invoice);
    }
  }

  /** All the refunds that the provider made on an invoice for cancel rows, whatever their subscription. */
  function SentForInvoice(rows: seq<Remedy>, refunds: map<RemedyId, ProviderRefund>, invoice: Invoice): int {
    if rows == [] then 0
    else
      var n := |rows| - 1;
      SentForInvoice(rows[..n], refunds, invoice)
      + if n in refunds && rows[n].cause.Cancel? && rows[n].invoice == invoice then rows[n].amount else 0
  }

  predicate PaysBack(rows: seq<Remedy>, refunds: map<RemedyId, ProviderRefund>, invoice: Invoice, id: int) {
    SentAt(rows, refunds, id) && rows[id].cause.Cancel? && rows[id].invoice == invoice && rows[id].amount > 0
  }

  lemma {:induction false} PaidBackWithinPlan(rows: seq<Remedy>, refunds: map<RemedyId, ProviderRefund>,
                                              invoice: Invoice, plan: nat)
    requires forall id | 0 <= id < |rows| && rows[id].cause.Cancel? :: rows[id].amount >= 0
    requires forall id | PaysBack(rows, refunds, invoice, id) :: rows[id].plan == plan
    ensures SentForInvoice(rows, refunds, invoice) <= PlannedOn(rows, plan, invoice)
  {
    if rows != [] {
      var n := |rows| - 1;
      assert forall id | PaysBack(rows[..n], refunds, invoice, id) :: PaysBack(rows, refunds, invoice, id);
      PaidBackWithinPlan(rows[..n], refunds, invoice, plan);
      assert n in refunds && rows[n].cause.Cancel? && rows[n].invoice == invoice && rows[n].amount > 0 ==>
               PaysBack(rows, refunds, invoice, n);
    }
  }

  lemma {:induction false} NothingPaidBack(rows: seq<Remedy>, refunds: map<RemedyId, ProviderRefund>, invoice: Invoice)
    requires forall id | 0 <= id < |rows| && rows[id].cause.Cancel? :: rows[id].amount >= 0
    requires forall id :: !PaysBack(rows, refunds, invoice, id)
    ensures SentForInvoice(rows, refunds, invoice) == 0
  {
    if rows != [] {
      var n := |rows| - 1;
      forall id ensures !PaysBack(rows[..n], refunds, invoice, id) {
        assert !PaysBack(rows, refunds, invoice, id);
      }
      NothingPaidBack(rows[..n], refunds, invoice);
      assert !PaysBack(rows, refunds, invoice, n);
    }
  }

  /** What one row asks back is part of what its plan asks back. */
  lemma {:induction false} RowIsPlanned(rows: seq<Remedy>, id: nat)
    requires id < |rows| && rows[id].cause.Cancel?
    requires forall j | 0 <= j < |rows| && rows[j].cause.Cancel? :: rows[j].amount >= 0
    ensures rows[id].amount <= PlannedOn(rows, rows[id].plan, rows[id].invoice)
  {
    var n := |rows| - 1;
    if id < n {
      RowIsPlanned(rows[..n], id);
    } else {
      PlannedIsNatural(rows[..n], rows[id].plan, rows[id].invoice);
    }
  }

  lemma {:induction false} PlannedIsNatural(rows: seq<Remedy>, plan: nat, invoice: Invoice)
    requires forall j | 0 <= j < |rows| && rows[j].cause.Cancel? :: rows[j].amount >= 0
    ensures PlannedOn(rows, plan, invoice) >= 0
  {
    if rows != [] {
      PlannedIsNatural(rows[..|rows| - 1], plan, invoice);
    }
  }

  /** A row that pays back on an invoice is of a plan that lists the invoice's payment. */
  lemma PaidBackIsListed(s: State, invoice: Invoice, id: nat)
    requires Safe(s) && DistinctPlans(s.plans) && PaysBack(s.remedies, s.provider.refunds, invoice, id)
    ensures s.remedies[id].plan < |s.plans| && Lists(s.plans[s.remedies[id].plan], invoice)
  {
    var plan := s.remedies[id].plan;
    RowIsPlanned(s.remedies, id);
    AllowedIsRefundable(s.plans[plan].payments, invoice);
  }

  /**
   * Over every run: all that was refunded on a payment for cancels, for whatever subscription, totals at most
   * its amount less the refunds counted on it by one plan. An invoice is one subscription's: plans that list
   * it are of the same one.
   */
  lemma RefundsStayWithinThePayment(states: seq<State>, events: seq<Event>, i: nat, invoice: Invoice)
    requires IsRun(states, events) && i < |states|
    requires forall p, q | 0 <= p < |states[i].plans| && 0 <= q < |states[i].plans|
                           && Lists(states[i].plans[p], invoice) && Lists(states[i].plans[q], invoice) ::
               states[i].plans[p].subscription == states[i].plans[q].subscription
    ensures var s := states[i];
            || SentForInvoice(s.remedies, s.provider.refunds, invoice) == 0
            || exists plan ::
                 && 0 <= plan < |s.plans| && Lists(s.plans[plan], invoice)
                 && SentForInvoice(s.remedies, s.provider.refunds, invoice) <= Allowed(s.plans[plan].payments, invoice)
  {
    var s := states[i];
    RunIsSafe(states, events, i);
    EveryPlanIsDistinct(states, events, i);
    if a :| PaysBack(s.remedies, s.provider.refunds, invoice, a) {
      var plan := s.remedies[a].plan;
      PaidBackIsListed(s, invoice, a);
      forall b | PaysBack(s.remedies, s.provider.refunds, invoice, b) ensures s.remedies[b].plan == plan {
        PaidBackIsListed(s, invoice, b);
        assert SentAt(s.remedies, s.provider.refunds, a) && SentAt(s.remedies, s.provider.refunds, b);
      }
      PaidBackWithinPlan(s.remedies, s.provider.refunds, invoice, plan);
      AllowedIsRefundable(s.plans[plan].payments, invoice);
    } else {
      NothingPaidBack(s.remedies, s.provider.refunds, invoice);
    }
  }

  // ----- What a plan lists -----

  predicate IsCounted(counted: seq<Counted>, remedies: seq<Remedy>, p: CardPayment) {
    Counted(p.invoice, p.amount, LiveRefunds(remedies, p.invoice)) in counted
  }

  lemma {:induction false} UnrecordedHolds(cards: seq<CardPayment>, rows: seq<CardPayment>, windowStart: int,
                                           p: CardPayment)
    ensures p in Unrecorded(cards, rows, windowStart) <==>
            p in cards && p.occurredAt >= windowStart && forall r | r in rows :: r.invoice != p.invoice
  {
    if cards != [] {
      var init, last := cards[..|cards| - 1], cards[|cards| - 1];
      UnrecordedHolds(init, rows, windowStart, p);
      assert p in cards <==> p in init || p == last by {
        assert cards == init + [last];
      }
    }
  }

  /** 120 days. */
  const WINDOW: int := 120 * 24 * 60 * 60 * 1000

  lemma LiveRefundOfOne(row: Remedy, invoice: Invoice)
    ensures LiveRefunds([row], invoice) ==
            if row.invoice == invoice && (row.status.Queued? || row.status.Initiated? || row.status == RemedyStatus.Approved)
            then row.amount else 0
  {
    assert [row][..0] == [];
  }

  /** What counts against an invoice is the sum over the rows, whatever asked for them. */
  lemma {:induction false} LiveRefundsAddUp(a: seq<Remedy>, b: seq<Remedy>, invoice: Invoice)
    ensures LiveRefunds(a + b, invoice) == LiveRefunds(a, invoice) + LiveRefunds(b, invoice)
    decreases |b|
  {
    if b == [] {
      assert a + b == a;
    } else {
      LiveRefundsAddUp(a, b[..|b| - 1], invoice);
      assert (a + b)[..|a + b| - 1] == a + b[..|b| - 1];
    }
  }

  /**
   * A plan lists exactly the charges of the subscription inside the window, and the provider's payments inside
   * it that no such charge records, each with the refunds that are live on it.
   */
  lemma PlanListsWhatIsRefundable(table: H.Table, remedies: seq<Remedy>, startedAt: int, now: int,
                                  rows: seq<CardPayment>, cards: seq<CardPayment>)
    requires DistinctInvoices(cards) && IsQuery(table, startedAt, now - WINDOW, rows)
    ensures var counted := PlanPayments(remedies, rows, cards, now);
            && (forall key | IsCharge(table, key, startedAt, now - WINDOW) ::
                  IsCounted(counted, remedies, CardPayment(key.id, table[key].amount, table[key].occurredAt)))
            && (forall p | p in cards && p.occurredAt >= now - WINDOW
                           && !IsCharge(table, H.Key(p.invoice, H.PaymentSucceeded), startedAt, now - WINDOW) ::
                  IsCounted(counted, remedies, p))
            && (forall c | c in counted ::
                  var key := H.Key(c.invoice, H.PaymentSucceeded);
                  && c.refunded == LiveRefunds(remedies, c.invoice)
                  && if IsCharge(table, key, startedAt, now - WINDOW) then c.amount == table[key].amount
                     else exists p :: p in cards && p.invoice == c.invoice && p.amount == c.amount
                                      && p.occurredAt >= now - WINDOW)
  {
    var windowStart := now - REFUND_WINDOW_MS;
    var all := rows + Unrecorded(cards, rows, windowStart);
    var sorted, counted := SortByTime(all), PlanPayments(remedies, rows, cards, now);
    PlannedAreDistinct(rows, cards, windowStart);
    SortKeepsDistinct(all);
    CountKeepsPayments(remedies, sorted);
    forall p | p in all ensures IsCounted(counted, remedies, p) {
      var k :| 0 <= k < |sorted| && sorted[k] == p;
      assert counted[k] == Counted(p.invoice, p.amount, LiveRefunds(remedies, p.invoice));
    }
    forall key | IsCharge(table, key, startedAt, windowStart)
      ensures IsCounted(counted, remedies, CardPayment(key.id, table[key].amount, table[key].occurredAt))
    {
      var k :| 0 <= k < |rows| && rows[k].invoice == key.id;
      assert rows[k] in all && key == H.Key(rows[k].invoice, H.PaymentSucceeded);
    }
    forall p | p in cards && p.occurredAt >= windowStart
               && !IsCharge(table, H.Key(p.invoice, H.PaymentSucceeded), startedAt, windowStart)
      ensures IsCounted(counted, remedies, p)
    {
      UnrecordedHolds(cards, rows, windowStart, p);
    }
    forall c | c in counted ensures ListedFrom(table, startedAt, windowStart, remedies, cards, c) {
      var k :| 0 <= k < |counted| && counted[k] == c;
      assert sorted[k] in all;
      ComesFrom(table, startedAt, windowStart, rows, cards, sorted[k]);
    }
  }

  ghost predicate ListedFrom(table: H.Table, startedAt: int, windowStart: int, remedies: seq<Remedy>,
                             cards: seq<CardPayment>, c: Counted)
  {
    var key := H.Key(c.invoice, H.PaymentSucceeded);
    && c.refunded == LiveRefunds(remedies, c.invoice)
    && if IsCharge(table, key, startedAt, windowStart) then c.amount == table[key].amount
       else exists p :: p in cards && p.invoice == c.invoice && p.amount == c.amount && p.occurredAt >= windowStart
  }

  lemma ComesFrom(table: H.Table, startedAt: int, windowStart: int, rows: seq<CardPayment>, cards: seq<CardPayment>,
                  p: CardPayment)
    requires IsQuery(table, startedAt, windowStart, rows) && p in rows + Unrecorded(cards, rows, windowStart)
    ensures var key := H.Key(p.invoice, H.PaymentSucceeded);
            if IsCharge(table, key, startedAt, windowStart) then p.amount == table[key].amount
            else p in cards && p.occurredAt >= windowStart
  {
    if p in rows {
      var k :| 0 <= k < |rows| && rows[k] == p;
    } else {
      if IsCharge(table, H.Key(p.invoice, H.PaymentSucceeded), startedAt, windowStart) {
        ChargeIsARow(table, startedAt, windowStart, rows, p.invoice);
      }
      UnrecordedHolds(cards, rows, windowStart, p);
    }
  }

  lemma ChargeIsARow(table: H.Table, startedAt: int, windowStart: int, rows: seq<CardPayment>, invoice: Invoice)
    requires IsQuery(table, startedAt, windowStart, rows)
    requires IsCharge(table, H.Key(invoice, H.PaymentSucceeded), startedAt, windowStart)
    ensures exists r :: r in rows && r.invoice == invoice
  {
    var k :| 0 <= k < |rows| && rows[k].invoice == invoice;
    assert rows[k] in rows;
  }
}
