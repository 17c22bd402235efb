/**
 * The refund of a cancelled period (backend/src/modules/billing/cancel-refund.util.ts).
 * Amounts are whole minor units and times are milliseconds, both exact.
 */
module CancelRefund {
  import opened Options

  type Invoice = nat

  datatype RefundablePayment = RefundablePayment(invoice: Invoice, refundable: int)
  datatype HeldLine = HeldLine(quantity: int, unitGross: int)

  datatype Input = Input(
    periodStart: int,
    periodEnd: int,
    executedAt: int,
    periodPaid: bool,
    heldLines: seq<HeldLine>,
    pendingNextBill: int,
    creditBalance: int,
    cardRefundable: int)

  datatype Breakdown = Breakdown(
    periodMs: int,
    unusedMs: int,
    heldValue: int,
    unusedHeldValue: int,
    creditBalance: int,
    uncapped: int,
    cardRefundable: int,
    amount: int)

  function Max(a: int, b: int): int { if a > b then a else b }
  function Min(a: int, b: int): int { if a < b then a else b }

  function HeldValue(lines: seq<HeldLine>): (v: int)
    ensures v >= 0
  {
    if lines == [] then 0
    else
      var last := lines[|lines| - 1];
      var q, g: nat := Max(last.quantity, 0), Max(last.unitGross, 0);
      ProductIsNatural(q, g);
      HeldValue(lines[..|lines| - 1]) + q * g
  }

  lemma ProductIsNatural(a: nat, b: nat)
    ensures a * b >= 0
  {
  }

  lemma MoreByOne(a: int, b: int, period: nat)
    requires a > b
    ensures a * period >= (b + 1) * period == b * period + period
  {
    ProductIsNatural(a - b - 1, period);
    assert a * period == (b + 1) * period + (a - b - 1) * period;
  }

  /** BigInt division; both operands are natural here, so it floors. */
  function UnusedShare(value: nat, unusedMs: nat, periodMs: nat): int
    requires periodMs > 0
  {
    value * unusedMs / periodMs
  }

  function Compute(input: Input): Breakdown {
    var periodMs := Max(input.periodEnd - input.periodStart, 0);
    var unusedMs := Min(Max(input.periodEnd - input.executedAt, 0), periodMs);
    var heldValue := HeldValue(input.heldLines);
    var unusedHeldValue := if input.periodPaid && periodMs > 0 then UnusedShare(heldValue, unusedMs, periodMs) else 0;
    var creditBalance := Max(input.creditBalance, 0);
    var uncapped := unusedHeldValue - input.pendingNextBill + creditBalance;
    var cardRefundable := Max(input.cardRefundable, 0);
    Breakdown(periodMs, unusedMs, heldValue, unusedHeldValue, creditBalance, uncapped, cardRefundable,
              Min(Max(uncapped, 0), cardRefundable))
  }

  /**
   * The time left of the period is unused, all of it before the start and none after the end; its share is the
   * exact floor, never more than the held value; the amount stays within the card money.
   */
  lemma ComputedAmountIsExact(input: Input)
    ensures var b := Compute(input);
            && 0 <= b.unusedMs <= b.periodMs && b.heldValue == HeldValue(input.heldLines)
            && b.periodMs == (if input.periodEnd > input.periodStart then input.periodEnd - input.periodStart else 0)
            && (input.executedAt >= input.periodEnd ==> b.unusedMs == 0)
            && (input.executedAt <= input.periodStart ==> b.unusedMs == b.periodMs)
            && (input.periodStart <= input.executedAt <= input.periodEnd ==> b.unusedMs == input.periodEnd - input.executedAt)
            && 0 <= b.unusedHeldValue <= b.heldValue
            && (input.periodPaid && b.periodMs > 0 ==>
                  b.unusedHeldValue * b.periodMs <= b.heldValue * b.unusedMs < (b.unusedHeldValue + 1) * b.periodMs)
            && (!input.periodPaid ==> b.unusedHeldValue == 0)
            && 0 <= b.amount <= b.cardRefundable
            && (b.amount < b.cardRefundable && 0 <= b.uncapped ==> b.amount == b.uncapped)
  {
    var b := Compute(input);
    if input.periodPaid && b.periodMs > 0 {
      FloorIsExact(b.heldValue, b.unusedMs, b.periodMs);
    }
  }

  lemma FloorIsExact(value: nat, unused: nat, period: nat)
    requires 0 < period && unused <= period
    ensures var share := UnusedShare(value, unused, period);
            share * period <= value * unused < (share + 1) * period && 0 <= share <= value
  {
    var product, share := value * unused, UnusedShare(value, unused, period);
    ProductIsNatural(value, unused);
    assert product == share * period + product % period;
    assert (share + 1) * period == share * period + period;
    assert product <= value * period by {
      ProductIsNatural(value, period - unused);
      assert value * period == product + value * (period - unused);
    }
    if share > value {
      MoreByOne(share, value, period);
    }
  }

  // ----- The amount from the input alone -----

  lemma HeldValueOfOne(line: HeldLine)
    ensures HeldValue([line]) == if line.quantity > 0 && line.unitGross > 0 then line.quantity * line.unitGross else 0
  {
    assert [line][..0] == [];
  }

  lemma {:induction false} HeldValueAddsUp(a: seq<HeldLine>, b: seq<HeldLine>)
    ensures HeldValue(a + b) == HeldValue(a) + HeldValue(b)
    decreases |b|
  {
    if b == [] {
      assert a + b == a;
    } else {
      HeldValueAddsUp(a, b[..|b| - 1]);
      assert (a + b)[..|a + b| - 1] == a + b[..|b| - 1];
    }
  }

  /** `share` is what the time left of a paid period is worth, rounded down. */
  predicate IsUnusedValue(input: Input, share: int) {
    var period, left := input.periodEnd - input.periodStart, input.periodEnd - input.executedAt;
    var value := HeldValue(input.heldLines);
    if !input.periodPaid || period <= 0 || left <= 0 then share == 0
    else if left >= period then share == value
    else share * period <= value * left < (share + 1) * period
  }

  lemma OneUnusedValue(input: Input, a: int, b: int)
    requires IsUnusedValue(input, a) && IsUnusedValue(input, b)
    ensures a == b
  {
    var period := input.periodEnd - input.periodStart;
    if a > b && period > 0 {
      MoreByOne(a, b, period);
    } else if b > a && period > 0 {
      MoreByOne(b, a, period);
    }
  }

  lemma UnusedValueIs(input: Input)
    ensures IsUnusedValue(input, Compute(input).unusedHeldValue)
  {
    var b := Compute(input);
    if input.periodPaid && b.periodMs > 0 {
      FloorIsExact(b.heldValue, b.unusedMs, b.periodMs);
      if b.unusedMs == 0 {
        assert b.heldValue * b.unusedMs == 0;
      } else if b.unusedMs == b.periodMs && b.unusedHeldValue < b.heldValue {
        MoreByOne(b.heldValue, b.unusedHeldValue, b.periodMs);
      }
    }
  }

  /**
   * What is refunded: nothing for an unpaid period or after its end, the whole held value before its start, in
   * between the share of the time left; less what the next bill would have asked, more what credit there is,
   * and never less than nothing or more than the card money.
   */
  lemma AmountFromTheInput(input: Input, share: int)
    requires IsUnusedValue(input, share)
    ensures var due := share - input.pendingNextBill + if input.creditBalance > 0 then input.creditBalance else 0;
            Compute(input).amount == if due <= 0 || input.cardRefundable <= 0 then 0
                                     else if due <= input.cardRefundable then due
                                     else input.cardRefundable
  {
    UnusedValueIs(input);
    OneUnusedValue(input, share, Compute(input).unusedHeldValue);
  }

  /** Between the caps the amount falls with the next bill and rises with the credit, one for one. */
  lemma AmountMovesOneForOne(input: Input, more: int)
    requires 0 < Compute(input).amount < input.cardRefundable
    ensures var billed := Compute(input.(pendingNextBill := input.pendingNextBill + more)).amount;
            0 < billed < input.cardRefundable ==> billed == Compute(input).amount - more
    ensures var credited := Compute(input.(creditBalance := input.creditBalance + more)).amount;
            input.creditBalance >= 0 && input.creditBalance + more >= 0 && 0 < credited < input.cardRefundable ==>
              credited == Compute(input).amount + more
  {
  }

  /** A later execution never refunds more. */
  lemma LaterNeverRefundsMore(input: Input, later: int)
    requires input.executedAt <= later
    ensures Compute(input.(executedAt := later)).amount <= Compute(input).amount
  {
    var b, c := Compute(input), Compute(input.(executedAt := later));
    if input.periodPaid && b.periodMs > 0 {
      ShareGrows(b.heldValue, c.unusedMs, b.unusedMs, b.periodMs);
    }
  }

  lemma ShareGrows(value: nat, less: nat, more: nat, period: nat)
    requires 0 < period && less <= more <= period
    ensures UnusedShare(value, less, period) <= UnusedShare(value, more, period)
  {
    FloorIsExact(value, less, period);
    FloorIsExact(value, more, period);
    var a, b := UnusedShare(value, less, period), UnusedShare(value, more, period);
    ProductIsNatural(value, more - less);
    assert value * more == value * less + value * (more - less);
    if a > b {
      MoreByOne(a, b, period);
    }
  }

  // ----- Allocation -----

  datatype Part = Part(invoice: Invoice, amount: int)

  /** What a payment can give back; a negative amount gives nothing. */
  function Given(p: RefundablePayment): nat { Max(p.refundable, 0) }

  function TotalRefundable(payments: seq<RefundablePayment>): nat {
    if payments == [] then 0
    else TotalRefundable(payments[..|payments| - 1]) + Given(payments[|payments| - 1])
  }

  function TotalOf(parts: seq<Part>): int {
    if parts == [] then 0 else TotalOf(parts[..|parts| - 1]) + parts[|parts| - 1].amount
  }

  /** The part of one invoice. */
  function AmountOn(parts: seq<Part>, invoice: Invoice): int {
    if parts == [] then 0
    else
      AmountOn(parts[..|parts| - 1], invoice)
      + if parts[|parts| - 1].invoice == invoice then parts[|parts| - 1].amount else 0
  }

  /** What the payments of one invoice can give back. */
  function RefundableOn(payments: seq<RefundablePayment>, invoice: Invoice): nat {
    if payments == [] then 0
    else
      RefundableOn(payments[..|payments| - 1], invoice)
      + if payments[|payments| - 1].invoice == invoice then Given(payments[|payments| - 1]) else 0
  }

  /** What payment `i` gives when the payments are used up one after another. */
  function Share(amount: int, payments: seq<RefundablePayment>, i: nat): int
    requires i < |payments|
  {
    Max(Min(amount - TotalRefundable(payments[..i]), Given(payments[i])), 0)
  }

  /** The positive shares of the first `count` payments, in order. */
  function Shares(amount: int, payments: seq<RefundablePayment>, count: nat): seq<Part>
    requires count <= |payments|
  {
    if count == 0 then []
    else
      var share := Share(amount, payments, count - 1);
      var init := Shares(amount, payments, count - 1);
      if share > 0 then init + [Part(payments[count - 1].invoice, share)] else init
  }

  lemma TotalSnoc(payments: seq<RefundablePayment>, i: nat)
    requires i < |payments|
    ensures TotalRefundable(payments[..i + 1]) == TotalRefundable(payments[..i]) + Given(payments[i])
  {
    assert payments[..i + 1][..i] == payments[..i];
  }

  lemma TotalIsMonotone(payments: seq<RefundablePayment>, i: nat, j: nat)
    requires i <= j <= |payments|
    ensures TotalRefundable(payments[..i]) <= TotalRefundable(payments[..j])
    decreases j
  {
    if 0 < j {
      TotalSnoc(payments, j - 1);
      if i < j {
        TotalIsMonotone(payments, i, j - 1);
      } else {
        TotalIsMonotone(payments, i - 1, j - 1);
      }
    }
  }

  lemma PartsSnoc(parts: seq<Part>, p: Part, invoice: Invoice)
    ensures TotalOf(parts + [p]) == TotalOf(parts) + p.amount
    ensures AmountOn(parts + [p], invoice) == AmountOn(parts, invoice) + if p.invoice == invoice then p.amount else 0
  {
    assert (parts + [p])[..|parts|] == parts;
  }

  /** The shares add up to the amount, capped by the payments. */
  lemma {:induction false} SharesAddUp(amount: int, payments: seq<RefundablePayment>, count: nat)
    requires count <= |payments| && amount >= 0
    ensures TotalOf(Shares(amount, payments, count)) == Min(amount, TotalRefundable(payments[..count]))
  {
    if count > 0 {
      SharesAddUp(amount, payments, count - 1);
      TotalSnoc(payments, count - 1);
      TotalIsMonotone(payments, 0, count - 1);
      PartsSnoc(Shares(amount, payments, count - 1), Part(payments[count - 1].invoice, Share(amount, payments, count - 1)), 0);
    }
  }

  /** No invoice gives back more than it can. */
  lemma {:induction false} SharesStayRefundable(amount: int, payments: seq<RefundablePayment>, count: nat,
                                                invoice: Invoice)
    requires count <= |payments|
    ensures 0 <= AmountOn(Shares(amount, payments, count), invoice) <= RefundableOn(payments[..count], invoice)
  {
    if count > 0 {
      SharesStayRefundable(amount, payments, count - 1, invoice);
      assert payments[..count][..count - 1] == payments[..count - 1];
      var last := Part(payments[count - 1].invoice, Share(amount, payments, count - 1));
      PartsSnoc(Shares(amount, payments, count - 1), last, invoice);
    }
  }

  /** A payment is touched only when every payment before it is used up. */
  lemma EarlierPaymentsAreExhausted(amount: int, payments: seq<RefundablePayment>, i: nat, j: nat)
    requires i < j < |payments| && Share(amount, payments, j) > 0
    ensures Share(amount, payments, i) == Given(payments[i])
  {
    TotalSnoc(payments, i);
    TotalIsMonotone(payments, i + 1, j);
  }

  lemma {:induction false} NothingLeft(amount: int, payments: seq<RefundablePayment>, i: nat, count: nat)
    requires i <= count <= |payments| && amount <= TotalRefundable(payments[..i])
    ensures Shares(amount, payments, count) == Shares(amount, payments, i)
  {
    if i < count {
      TotalIsMonotone(payments, i, count - 1);
      NothingLeft(amount, payments, i, count - 1);
      assert Share(amount, payments, count - 1) == 0;
    }
  }

  /** What one payment adds while something remains. */
  lemma NextShare(amount: int, payments: seq<RefundablePayment>, i: nat, remaining: int)
    requires i < |payments| && remaining > 0 && remaining == Max(amount - TotalRefundable(payments[..i]), 0)
    ensures var take := Min(remaining, payments[i].refundable);
            && TotalRefundable(payments[..i + 1]) == TotalRefundable(payments[..i]) + Max(payments[i].refundable, 0)
            && Shares(amount, payments, i + 1) ==
               Shares(amount, payments, i) + if take > 0 then [Part(payments[i].invoice, take)] else []
  {
    TotalSnoc(payments, i);
  }

  /** None stands for the thrown error: the amount exceeds the payments. */
  method AllocateCancelRefund(amount: int, payments: seq<RefundablePayment>) returns (r: Option<seq<Part>>)
    ensures r == if amount <= TotalRefundable(payments) then Some(Shares(amount, payments, |payments|)) else None
  {
    var remaining := amount;
    var out: seq<Part> := [];
    var i: nat := 0;
    assert payments[..|payments|] == payments;
    while i < |payments|
      invariant i <= |payments|
      invariant Max(remaining, 0) == Max(amount - TotalRefundable(payments[..i]), 0)
      invariant out == Shares(amount, payments, i)
    {
      if remaining <= 0 {
        NothingLeft(amount, payments, i, |payments|);
        TotalIsMonotone(payments, i, |payments|);
        return Some(out);
      }
      var take := Min(remaining, payments[i].refundable);
      NextShare(amount, payments, i, remaining);
      if take > 0 {
        out := out + [Part(payments[i].invoice, take)];
        remaining := remaining - take;
      }
      i := i + 1;
    }
    if remaining > 0 {
      return None;
    }
    r := Some(out);
  }

  /** The plan for a cancel: the computed amount over the payments. It is always payable in full. */
  lemma PlannedRefundIsPayable(input: Input, payments: seq<RefundablePayment>)
    requires input.cardRefundable == TotalRefundable(payments)
    ensures 0 <= Compute(input).amount <= TotalRefundable(payments)
    ensures TotalOf(Shares(Compute(input).amount, payments, |payments|)) == Compute(input).amount
  {
    ComputedAmountIsExact(input);
    assert payments[..|payments|] == payments;
    TotalIsMonotone(payments, 0, |payments|);
    SharesAddUp(Compute(input).amount, payments, |payments|);
  }
}
