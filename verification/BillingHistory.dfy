/** The billing history table (backend/src/modules/billing/billing-history.service.ts). */
module BillingHistory {
  import opened Options

  type Company = nat
  datatype RowType = PaymentSucceeded | SettledWithoutCharge | PaymentFailed | Refund
  datatype RefundStatus = Pending | Approved | Rejected

  /** The unique key: the provider's invoice or refund id, and the type. */
  datatype Key = Key(id: nat, rowType: RowType)

  /** What a payment row shows besides its amounts and times. */
  datatype Details = Details(currency: nat, periodEnd: int, invoiceUrl: Option<nat>, pdfUrl: Option<nat>)

  datatype Row =
    | PaymentRow(company: Company, amount: int, periodStart: int, occurredAt: int, attemptCount: Option<int>,
                 creditApplied: int, creditIssued: int, origin: Option<nat>, details: Details)
    | RefundRow(company: Company, amount: int, status: RefundStatus, occurredAt: int)

  type Table = map<Key, Row>

  datatype PaymentEvent =
    | Succeeded(company: Company, invoice: Option<nat>, amount: int, periodStart: int, occurredAt: int,
                settledWithoutCharge: bool, creditApplied: Option<int>, creditIssued: Option<int>, origin: Option<nat>,
                details: Details)
    | Failed(company: Company, invoice: Option<nat>, amount: int, periodStart: int, occurredAt: int, attemptCount: int,
             details: Details)

  function TypeOf(e: PaymentEvent): RowType {
    if e.Failed? then PaymentFailed else if e.settledWithoutCharge then SettledWithoutCharge else PaymentSucceeded
  }

  function KeyOf(e: PaymentEvent): Key
    requires e.invoice.Some?
  {
    Key(e.invoice.value, TypeOf(e))
  }

  function RowOf(e: PaymentEvent): Row {
    match e
    case Succeeded(company, _, amount, start, at, _, applied, issued, origin, details) =>
      PaymentRow(company, amount, start, at, None, applied.GetOr(0), issued.GetOr(0), origin, details)
    case Failed(company, _, amount, start, at, attempts, details) =>
      PaymentRow(company, amount, start, at, Some(attempts), 0, 0, None, details)
  }

  /** Insert, or replace a row that is not newer. */
  function Recorded(table: Table, e: PaymentEvent): Table {
    if e.invoice.None? then table
    else if KeyOf(e) in table && table[KeyOf(e)].occurredAt > e.occurredAt then table
    else table[KeyOf(e) := RowOf(e)]
  }

  /** The table gains the row only under a new refund id. */
  function WithRefund(table: Table, refund: nat, row: Row): Table {
    var key := Key(refund, Refund);
    if key in table then table else table[key := row]
  }

  function WithStatus(table: Table, company: Company, refund: nat, status: RefundStatus): Table {
    var key := Key(refund, Refund);
    if key in table && table[key].RefundRow? && table[key].company == company
    then table[key := table[key].(status := status)]
    else table
  }

  class BillingHistoryService {
    var rows: Table

    constructor ()
      ensures rows == map[]
    {
      rows := map[];
    }

    method RecordPayment(e: PaymentEvent)
      modifies this
      ensures rows == Recorded(old(rows), e)
    {
      if e.invoice.None? {
        return;
      }
      var key := KeyOf(e);
      if key !in rows || rows[key].occurredAt <= e.occurredAt {
        rows := rows[key := RowOf(e)];
      }
    }

    method RecordRefund(refund: nat, row: Row)
      modifies this
      ensures rows == WithRefund(old(rows), refund, row)
    {
      if Key(refund, Refund) !in rows {
        rows := rows[Key(refund, Refund) := row];
      }
    }

    method SetRefundStatus(company: Company, refund: nat, status: RefundStatus)
      modifies this
      ensures rows == WithStatus(old(rows), company, refund, status)
    {
      var key := Key(refund, Refund);
      if key in rows && rows[key].RefundRow? && rows[key].company == company {
        rows := rows[key := rows[key].(status := status)];
      }
    }
  }

  // ----- Refund rows -----

  /** A refund keeps the row that came first, whatever is recorded under its id later. */
  lemma FirstRefundRowStays(table: Table, refund: nat, first: Row, second: Row)
    requires Key(refund, Refund) !in table
    ensures var once := WithRefund(table, refund, first);
            && Key(refund, Refund) in once && once[Key(refund, Refund)] == first
            && WithRefund(once, refund, second) == once
            && once - {Key(refund, Refund)} == table
  {
  }

  /** A status reaches the refund row of its own company, and nothing but the status of that row. */
  lemma StatusReachesItsOwnRow(table: Table, company: Company, refund: nat, status: RefundStatus, key: Key)
    requires key in table
    ensures var after := WithStatus(table, company, refund, status);
            && after.Keys == table.Keys
            && if key == Key(refund, Refund) && table[key].RefundRow? && table[key].company == company
               then after[key] == RefundRow(company, table[key].amount, status, table[key].occurredAt)
               else after[key] == table[key]
  {
  }

  // ----- Convergence -----

  /** The table after these deliveries, in this order. */
  function Replay(es: seq<PaymentEvent>): Table {
    if es == [] then map[] else Recorded(Replay(es[..|es| - 1]), es[|es| - 1])
  }

  predicate For(e: PaymentEvent, key: Key) { e.invoice.Some? && KeyOf(e) == key }

  ghost predicate Newest(es: set<PaymentEvent>, key: Key, e: PaymentEvent) {
    e in es && For(e, key) && forall f | f in es && For(f, key) :: f.occurredAt <= e.occurredAt
  }

  function Events(es: seq<PaymentEvent>): set<PaymentEvent> { set e | e in es }

  /** Whatever the order and the repetition, each row is that of a newest event, and only events make rows. */
  lemma {:induction false} RowIsNewest(es: seq<PaymentEvent>, key: Key)
    ensures key in Replay(es) <==> exists e :: e in es && For(e, key)
    ensures key in Replay(es) ==> exists e :: Newest(Events(es), key, e) && Replay(es)[key] == RowOf(e)
  {
    if es != [] {
      var init, last := es[..|es| - 1], es[|es| - 1];
      RowIsNewest(init, key);
      assert es == init + [last];
      assert forall e :: e in es <==> e in init || e == last;
      if key in Replay(init) {
        var e :| Newest(Events(init), key, e) && Replay(init)[key] == RowOf(e);
        assert RowOf(e).occurredAt == e.occurredAt;
        if For(last, key) && e.occurredAt <= last.occurredAt {
          assert Newest(Events(es), key, last);
        } else {
          assert Newest(Events(es), key, e);
        }
      } else if For(last, key) {
        assert Newest(Events(es), key, last);
      }
    }
  }

  /** The row shows the event, column by column: a failed payment its attempts, a successful one its credits. */
  predicate Shows(row: Row, e: PaymentEvent) {
    && row.PaymentRow? && row.company == e.company && row.amount == e.amount && row.details == e.details
    && row.periodStart == e.periodStart && row.occurredAt == e.occurredAt
    && if e.Failed?
       then row.attemptCount == Some(e.attemptCount) && row.origin.None? && row.creditApplied == 0 == row.creditIssued
       else && row.attemptCount.None? && row.origin == e.origin
            && row.creditApplied == (if e.creditApplied.Some? then e.creditApplied.value else 0)
            && row.creditIssued == (if e.creditIssued.Some? then e.creditIssued.value else 0)
  }

  /** The type of a payment's row: failed, settled without a charge, or succeeded. */
  predicate IsOfType(key: Key, e: PaymentEvent) {
    && e.invoice == Some(key.id)
    && match key.rowType
       case PaymentFailed => e.Failed?
       case SettledWithoutCharge => e.Succeeded? && e.settledWithoutCharge
       case PaymentSucceeded => e.Succeeded? && !e.settledWithoutCharge
       case Refund => false
  }

  /**
   * Whatever the order and the repetition of the deliveries, a row stands for each invoice and type that an
   * event was about, and shows an event of them that no other is newer than.
   */
  lemma RowsShowTheNewest(es: seq<PaymentEvent>, key: Key)
    ensures key in Replay(es) <==> exists e :: e in es && IsOfType(key, e)
    ensures key in Replay(es) ==>
              exists e :: e in es && IsOfType(key, e) && Shows(Replay(es)[key], e)
                          && forall f | f in es && IsOfType(key, f) :: f.occurredAt <= e.occurredAt
  {
    RowIsNewest(es, key);
    assert forall e :: For(e, key) <==> IsOfType(key, e);
    if key in Replay(es) {
      var e :| Newest(Events(es), key, e) && Replay(es)[key] == RowOf(e);
      assert e in es && Shows(Replay(es)[key], e);
      assert forall f :: f in es <==> f in Events(es);
    }
  }

  /** No two newest events of one key that would write different rows. */
  ghost predicate Untied(es: set<PaymentEvent>) {
    forall key, e, f | Newest(es, key, e) && Newest(es, key, f) :: RowOf(e) == RowOf(f)
  }

  lemma SameEventsSameTable(es: seq<PaymentEvent>, fs: seq<PaymentEvent>)
    requires Events(es) == Events(fs) && Untied(Events(es))
    ensures Replay(es) == Replay(fs)
  {
    forall key ensures key in Replay(es) <==> key in Replay(fs)
               ensures key in Replay(es) ==> Replay(es)[key] == Replay(fs)[key]
    {
      RowIsNewest(es, key);
      RowIsNewest(fs, key);
      assert forall e :: e in es <==> e in Events(es);
      assert forall e :: e in fs <==> e in Events(fs);
    }
  }

  /** A delivery order for each of two tied events that gives its row the last word. */
  lemma TieFollowsTheOrder(es: seq<PaymentEvent>, key: Key, e: PaymentEvent)
    requires Newest(Events(es), key, e)
    ensures Events(es + [e]) == Events(es)
    ensures key in Replay(es + [e]) && Replay(es + [e])[key] == RowOf(e)
  {
    assert (es + [e])[..|es|] == es;
    RowIsNewest(es, key);
    assert forall f | f in Events(es) :: RowOf(f).occurredAt == f.occurredAt;
  }

  /** Delivery order and repetition never matter, exactly when no newest events are tied. */
  lemma ConvergesExactlyWhenUntied(events: set<PaymentEvent>)
    ensures Untied(events) <==>
            (forall es, fs | Events(es) == events && Events(fs) == events :: Replay(es) == Replay(fs))
  {
    if Untied(events) {
      forall es, fs | Events(es) == events && Events(fs) == events ensures Replay(es) == Replay(fs) {
        SameEventsSameTable(es, fs);
      }
    } else {
      var key, e, f :| Newest(events, key, e) && Newest(events, key, f) && RowOf(e) != RowOf(f);
      var es := SomeOrder(events);
      TieFollowsTheOrder(es, key, e);
      TieFollowsTheOrder(es, key, f);
      assert Replay(es + [e]) != Replay(es + [f]);
    }
  }

  lemma SomeOrder(events: set<PaymentEvent>) returns (es: seq<PaymentEvent>)
    ensures Events(es) == events
  {
    if events == {} {
      return [];
    }
    var e :| e in events;
    var rest := SomeOrder(events - {e});
    es := rest + [e];
    assert forall f :: f in es <==> f in rest || f == e;
    assert forall f :: f in rest <==> f in Events(rest);
  }

  /** Distinct times per invoice and type are enough. */
  lemma DistinctTimesConverge(es: seq<PaymentEvent>, fs: seq<PaymentEvent>)
    requires Events(es) == Events(fs)
    requires forall e, f | e in es && f in es && e.invoice.Some? && f.invoice.Some? && KeyOf(e) == KeyOf(f)
                           && e.occurredAt == f.occurredAt :: e == f
    ensures Replay(es) == Replay(fs)
  {
    SameEventsSameTable(es, fs);
  }
}
