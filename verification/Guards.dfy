/** Usage guards (`src/billing/guards.rs`): the shared-backend gate and the overage arithmetic. Amounts are
    i64 microcents and cents; ranges and saturation are written out. */
module Guards {
  import opened Results
  import opened Numbers

  // ----- The gate -----

  datatype GateReason = BillingDisabled | Allowed | CreditsExhausted | BillingPastDue

  datatype Decision = Decision(allowShared: bool, exhausted: bool, reason: GateReason)

  predicate StatusBlocks(status: string) {
    status in {"past_due", "unpaid", "canceled", "incomplete_expired"}
  }

  function SharedBedrockDecision(stripeEnabled: bool, balance: int, status: Option<string>): Decision {
    if !stripeEnabled then Decision(true, false, BillingDisabled)
    else if status.Some? && StatusBlocks(status.value) then Decision(false, false, BillingPastDue)
    else if balance <= 0 then Decision(false, true, CreditsExhausted)
    else Decision(true, false, Allowed)
  }

  /** Every answer of the gate, with its reason: never shut without billing, shut by four statuses whatever the
      balance, and otherwise open exactly with credit left. Only the last closing is called exhaustion. */
  lemma DecisionIff(stripeEnabled: bool, balance: int, status: Option<string>)
    ensures var d := SharedBedrockDecision(stripeEnabled, balance, status);
            var blocked := status in {Some("past_due"), Some("unpaid"), Some("canceled"), Some("incomplete_expired")};
            && (d.reason == BillingDisabled <==> !stripeEnabled)
            && (d.reason == BillingPastDue <==> stripeEnabled && blocked)
            && (d.reason == CreditsExhausted <==> stripeEnabled && !blocked && balance <= 0)
            && (d.reason == Allowed <==> stripeEnabled && !blocked && balance > 0)
            && (d.allowShared <==> d.reason == BillingDisabled || d.reason == Allowed)
            && (d.exhausted <==> d.reason == CreditsExhausted)
  {
  }

  // ----- Overage -----

  /** The part of a charge that the credit before it does not cover. */
  function BedrockOverage(cost: int, balanceBefore: int): int {
    var covered := Min(cost, Max(balanceBefore, 0));
    Max(cost - covered, 0)
  }

  /** No i64 arithmetic in it can overflow. */
  lemma OverageInRange(cost: int, balanceBefore: int)
    requires IsI64(cost) && IsI64(balanceBefore)
    ensures IsI64(cost - Min(cost, Max(balanceBefore, 0)))
    ensures IsI64(BedrockOverage(cost, balanceBefore)) && 0 <= BedrockOverage(cost, balanceBefore) <= Max(cost, 0)
  {
  }

  // ----- Uplift and rounding -----

  const UPLIFT_NUM := 110
  const UPLIFT_DEN := 100

  /** Cost plus ten per cent, rounded down and saturating at the i64 maximum. */
  function WithUplift(cost: int): int {
    if cost <= 0 then 0 else Min(cost * UPLIFT_NUM / UPLIFT_DEN, I64_MAX)
  }

  /** Whole cents, rounded up; nothing when adding 99 leaves the i64 range. */
  function CentsCeil(microcents: int): Option<int> {
    if microcents <= 0 then Some(0)
    else if microcents + 99 > I64_MAX then None
    else Some((microcents + 99) / 100)
  }

  /** The invoice amount for an overage. */
  function InvoiceCents(overage: int): Option<int> {
    CentsCeil(WithUplift(overage))
  }

  /** The largest overage whose uplifted amount can still be rounded up. */
  const MAX_BILLABLE := 8384883669867977917

  /** The saturating uplift does not protect the rounding: the amount is representable exactly up to this
      overage. */
  lemma BillableIff(overage: int)
    requires IsI64(overage)
    ensures InvoiceCents(overage).Some? <==> overage <= MAX_BILLABLE
  {
  }

  /** The first overage past the limit, and the saturated maximum, both overflow. */
  lemma SaturatedOverflows()
    ensures InvoiceCents(MAX_BILLABLE + 1) == None && WithUplift(I64_MAX) == I64_MAX && InvoiceCents(I64_MAX) == None
  {
  }

  /** Ten per cent within one unit of rounding in each direction. */
  lemma InvoiceBounds(overage: int)
    requires 0 <= overage <= MAX_BILLABLE
    ensures var c := InvoiceCents(overage).value;
            110 * overage - 100 < 10000 * c <= 110 * overage + 9900
  {
  }

  /** A positive overage is never billed at nothing. */
  lemma InvoicePositive(overage: int)
    requires IsI64(overage) && overage <= MAX_BILLABLE
    ensures InvoiceCents(overage).value > 0 <==> overage > 0
  {
  }

  lemma InvoiceMonotone(a: int, b: int)
    requires a <= b <= MAX_BILLABLE
    ensures InvoiceCents(a).value <= InvoiceCents(b).value
  {
    if 0 < a {
      assert a * UPLIFT_NUM / UPLIFT_DEN <= b * UPLIFT_NUM / UPLIFT_DEN;
    }
  }

  predicate NonNegative(xs: seq<int>) {
    forall i :: 0 <= i < |xs| ==> 0 <= xs[i]
  }

  predicate Within(xs: seq<int>, most: int) {
    forall i :: 0 <= i < |xs| ==> 0 <= xs[i] <= most
  }

  function Sum(xs: seq<int>): int {
    if xs == [] then 0 else Sum(xs[..|xs| - 1]) + xs[|xs| - 1]
  }

  /** What billing each part on its own invoice adds up to. */
  function SumOfInvoices(xs: seq<int>): int
    requires Within(xs, MAX_BILLABLE)
  {
    if xs == [] then 0
    else
      var k := |xs| - 1;
      SumOfInvoices(xs[..k]) + InvoiceCents(xs[k]).value
  }

  function SumOfUplifts(xs: seq<int>): int {
    if xs == [] then 0 else SumOfUplifts(xs[..|xs| - 1]) + WithUplift(xs[|xs| - 1])
  }

  lemma {:induction false} SumNonNegative(xs: seq<int>)
    requires NonNegative(xs)
    ensures 0 <= Sum(xs)
  {
    if xs != [] {
      SumNonNegative(xs[..|xs| - 1]);
    }
  }

  lemma UpliftPair(a: int, b: int)
    requires 0 <= a && 0 <= b && a + b <= MAX_BILLABLE
    ensures WithUplift(a) + WithUplift(b) <= WithUplift(a + b) <= WithUplift(a) + WithUplift(b) + 1
  {
  }

  /** Splitting loses less than one microcent of uplift for each cut, and gains none. */
  lemma {:induction false} SplitUplifts(xs: seq<int>)
    requires xs != [] && NonNegative(xs) && Sum(xs) <= MAX_BILLABLE
    ensures SumOfUplifts(xs) <= WithUplift(Sum(xs)) <= SumOfUplifts(xs) + |xs| - 1
  {
    var k := |xs| - 1;
    var head, last := xs[..k], xs[k];
    SumNonNegative(head);
    if head == [] {
      assert Sum(xs) == last && SumOfUplifts(xs) == WithUplift(last);
    } else {
      SplitUplifts(head);
      UpliftPair(Sum(head), last);
    }
  }

  /** Each invoice rounds up by less than a cent. */
  lemma {:induction false} InvoicesRoundUp(xs: seq<int>)
    requires Within(xs, MAX_BILLABLE)
    ensures SumOfUplifts(xs) <= 100 * SumOfInvoices(xs) <= SumOfUplifts(xs) + 99 * |xs|
  {
    if xs != [] {
      InvoicesRoundUp(xs[..|xs| - 1]);
    }
  }

  /** Billing an overage in n parts instead of one raises the total by at most n - 1 cents and lowers it
      by at most (n - 1) / 100, rounded up. */
  lemma SplitInvoices(xs: seq<int>)
    requires xs != [] && Within(xs, MAX_BILLABLE) && Sum(xs) <= MAX_BILLABLE
    ensures var whole, n := InvoiceCents(Sum(xs)).value, |xs|;
            whole - (n - 1 + 99) / 100 <= SumOfInvoices(xs) <= whole + n - 1
  {
    SumNonNegative(xs);
    SplitUplifts(xs);
    InvoicesRoundUp(xs);
    BillableIff(Sum(xs));
  }
}
