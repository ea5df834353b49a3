/** The managed-AI credit ledger: activity reports, the balance and the gate (`src/routes/sync.rs`,
    `src/billing/metered_billing.rs`). */
module Ledger {
  import opened Results
  import opened Numbers
  import opened Guards

  // ----- What a report costs -----

  /** The model families the price list tells apart. */
  datatype Model = Haiku | Opus | Sonnet | Unlisted {
    /** Dollars per million input tokens. */
    function InputPrice(): real {
      match this case Haiku => 1.0 case Opus => 5.0 case Sonnet => 3.0 case Unlisted => 0.0
    }

    /** Dollars per million output tokens. */
    function OutputPrice(): real {
      match this case Haiku => 5.0 case Opus => 25.0 case Sonnet => 15.0 case Unlisted => 0.0
    }
  }

  const MARKUP := 1.03

  datatype ModelUsage = ModelUsage(model: Model, tokensInput: nat, tokensOutput: nat)

  /** `harness` is the id given or found; without one the entries are dropped. */
  datatype Report = Report(isByok: bool, harness: Option<nat>, usage: seq<ModelUsage>)

  /** Tokens at a list price plus three per cent, in microcents. */
  function Priced(tokens: nat, dollars: real): real {
    tokens as real / 1000000.0 * dollars * MARKUP * 10000.0
  }

  /** What one entry costs; nothing for an unlisted model. */
  function Cost(u: ModelUsage): int {
    if u.model.Unlisted? then 0
    else ToI64(Round(Priced(u.tokensInput, u.model.InputPrice()) + Priced(u.tokensOutput, u.model.OutputPrice())))
  }

  /** A cost is a non-negative i64, whatever the token counts. */
  lemma CostRange(u: ModelUsage)
    ensures 0 <= Cost(u) <= I64_MAX
  {
    assert u.tokensInput as real / 1000000.0 >= 0.0 && u.tokensOutput as real / 1000000.0 >= 0.0;
  }

  lemma PricedWhole(tokens: nat, dollars: nat)
    ensures Priced(tokens, dollars as real) * 10000.0 == (103 * (dollars * tokens)) as real
  {
    assert tokens as real * dollars as real == (dollars * tokens) as real;
    assert tokens as real / 1000000.0 * dollars as real == (dollars * tokens) as real / 1000000.0;
  }

  lemma CappedRound(x: real, n: nat)
    requires x * 10000.0 == n as real
    ensures if n > 10000 * I64_MAX + 5000 then ToI64(Round(x)) == I64_MAX
            else -5000 <= 10000 * ToI64(Round(x)) - n <= 5000
  {
  }

  lemma CostAt(tokensInput: nat, tokensOutput: nat, input: nat, output: nat)
    ensures var n := 103 * (input * tokensInput + output * tokensOutput);
            var cost := ToI64(Round(Priced(tokensInput, input as real) + Priced(tokensOutput, output as real)));
            if n > 10000 * I64_MAX + 5000 then cost == I64_MAX else -5000 <= 10000 * cost - n <= 5000
  {
    PricedWhole(tokensInput, input);
    PricedWhole(tokensOutput, output);
    var a, b := input * tokensInput, output * tokensOutput;
    var x, y := Priced(tokensInput, input as real), Priced(tokensOutput, output as real);
    SumPriced(x, y, a, b);
    CappedRound(x + y, 103 * (a + b));
  }

  lemma SumPriced(x: real, y: real, a: nat, b: nat)
    requires x * 10000.0 == (103 * a) as real && y * 10000.0 == (103 * b) as real
    ensures (x + y) * 10000.0 == (103 * (a + b)) as real
  {
  }

  /** A cost is the list price of all tokens, in and out, plus three per cent, to the nearest microcent, as far
      as 64 bits hold it. */
  lemma CostIsPrice(u: ModelUsage)
    ensures var price := match u.model
                         case Haiku => 1 * u.tokensInput + 5 * u.tokensOutput
                         case Opus => 5 * u.tokensInput + 25 * u.tokensOutput
                         case Sonnet => 3 * u.tokensInput + 15 * u.tokensOutput
                         case Unlisted => 0;
            if 103 * price > 10000 * I64_MAX + 5000 then Cost(u) == I64_MAX
            else -5000 <= 10000 * Cost(u) - 103 * price <= 5000
  {
    match u.model
    case Haiku => CostAt(u.tokensInput, u.tokensOutput, 1, 5);
    case Opus => CostAt(u.tokensInput, u.tokensOutput, 5, 25);
    case Sonnet => CostAt(u.tokensInput, u.tokensOutput, 3, 15);
    case Unlisted =>
  }

  function Costs(usage: seq<ModelUsage>): seq<int> {
    seq(|usage|, i requires 0 <= i < |usage| => Cost(usage[i]))
  }

  /** `saturating_add`. */
  function SaturatingAdd(a: int, b: int): int {
    ToI64(a + b)
  }

  function SaturatingSum(xs: seq<int>): int {
    if xs == [] then 0 else SaturatingAdd(SaturatingSum(xs[..|xs| - 1]), xs[|xs| - 1])
  }

  /** What a report draws from the shared credit. */
  function SharedCost(r: Report): int {
    if r.isByok || r.harness.None? then 0 else SaturatingSum(Costs(r.usage))
  }

  /** Saturating as it goes is the same as capping the sum once. */
  lemma {:induction false} SaturatingSumIs(xs: seq<int>)
    requires Within(xs, I64_MAX)
    ensures SaturatingSum(xs) == Min(Sum(xs), I64_MAX) && 0 <= Sum(xs)
  {
    if xs != [] {
      SaturatingSumIs(xs[..|xs| - 1]);
    }
  }

  lemma SharedCostRange(r: Report)
    ensures 0 <= SharedCost(r) <= I64_MAX
    ensures !r.isByok && r.harness.Some? ==> SharedCost(r) == Min(Sum(Costs(r.usage)), I64_MAX)
  {
    forall i | 0 <= i < |r.usage| ensures 0 <= Cost(r.usage[i]) <= I64_MAX {
      CostRange(r.usage[i]);
    }
    SaturatingSumIs(Costs(r.usage));
  }

  // ----- The account -----

  datatype UsageRecord = UsageRecord(usage: ModelUsage, cost: int, harness: nat, billed: bool)

  function RecordOf(u: ModelUsage, harness: nat): UsageRecord {
    UsageRecord(u, Cost(u), harness, false)
  }

  function RecordsOf(r: Report, k: nat): seq<UsageRecord>
    requires k <= |r.usage|
  {
    if r.harness.None? then []
    else seq(k, i requires 0 <= i < k => RecordOf(r.usage[i], r.harness.value))
  }

  /** The balance after one report. */
  function After(balance: int, r: Report): int {
    var cost := SharedCost(r);
    if cost > 0 then Max(0, balance - cost) else balance
  }

  // ----- Closing a period -----

  /** The most cents a close charges without a human looking first. */
  const SANITY_CEILING := 200000

  predicate Unbilled(rec: UsageRecord, shared: set<nat>) {
    !rec.billed && rec.harness in shared
  }

  /** The recorded cost a close finds: unbilled, and on a harness that runs on the shared backend. */
  function UnbilledCost(records: seq<UsageRecord>, shared: set<nat>): int {
    if records == [] then 0
    else
      var last := records[|records| - 1];
      UnbilledCost(records[..|records| - 1], shared) + if Unbilled(last, shared) then last.cost else 0
  }

  function MarkBilled(records: seq<UsageRecord>, shared: set<nat>): seq<UsageRecord> {
    seq(|records|, i requires 0 <= i < |records| =>
      if Unbilled(records[i], shared) then records[i].(billed := true) else records[i])
  }

  /** `Overflowed`: an amount left the 64-bit range, which ends the handler. */
  datatype Closing = Overflowed | Held(cents: int) | Charged(cents: int) | NotCharged(cents: int) | WithinCredit

  /** `accepted` says whether the payment provider took the invoice item, if one was submitted. */
  function Close(total: int, credit: int, accepted: bool): Closing {
    if total > I64_MAX then Overflowed
    else
      var cents := InvoiceCents(BedrockOverage(total, credit));
      if cents.None? then Overflowed
      else if cents.value > SANITY_CEILING then Held(cents.value)
      else if cents.value > 0 then if accepted then Charged(cents.value) else NotCharged(cents.value)
      else WithinCredit
  }

  /** What a close comes to, in terms of the total and the credit: nothing within the credit, a charge up to
      18181819 microcents over it, a hold beyond, and past the 64-bit limits the end of the handler. */
  lemma CloseIff(total: int, credit: nat, accepted: bool)
    requires 0 <= total && credit <= I64_MAX
    ensures var c, over := Close(total, credit, accepted), total - credit;
            && (c == WithinCredit <==> over <= 0 && total <= I64_MAX)
            && (c.Charged? <==> accepted && 0 < over <= 18181819 && total <= I64_MAX)
            && (c.NotCharged? <==> !accepted && 0 < over <= 18181819 && total <= I64_MAX)
            && (c.Held? <==> 18181819 < over <= MAX_BILLABLE && total <= I64_MAX)
            && (c.Overflowed? <==> total > I64_MAX || over > MAX_BILLABLE)
            && (c.Charged? || c.NotCharged? || c.Held? ==> InvoiceCents(over) == Some(c.cents) && 0 < c.cents)
  {
    if total <= I64_MAX {
      assert BedrockOverage(total, credit) == Max(0, total - credit);
    }
  }

  /** Marking bills exactly the records a close selects and changes nothing else about any record. */
  lemma MarksSelectedOnly(records: seq<UsageRecord>, shared: set<nat>, i: nat)
    requires i < |records|
    ensures |MarkBilled(records, shared)| == |records|
    ensures var marked := MarkBilled(records, shared)[i];
            && marked == records[i].(billed := marked.billed)
            && (marked.billed <==> records[i].billed || records[i].harness in shared)
  {
  }

  predicate Settles(c: Closing) { c.Charged? || c.WithinCredit? }

  class CreditAccount {
    var balance: int
    var records: seq<UsageRecord>

    constructor (grant: int)
      ensures balance == grant && records == []
    {
      balance, records := grant, [];
    }

    /** A paid invoice resets the credit: nothing rolls over. */
    method Grant(grant: int)
      modifies this`balance
      ensures balance == grant
    {
      balance := grant;
    }

    /** Record each entry of a report and draw what it shares from the balance, never below zero. */
    method ReceiveActivity(r: Report)
      modifies this
      ensures balance == After(old(balance), r)
      ensures records == old(records) + RecordsOf(r, |r.usage|)
    {
      if r.usage != [] {
        if r.harness.Some? {
          var sharedTotal := 0;
          for k := 0 to |r.usage|
            invariant records == old(records) + RecordsOf(r, k)
            invariant balance == old(balance)
            invariant sharedTotal == if r.isByok then 0 else SaturatingSum(Costs(r.usage)[..k])
          {
            var cost := Cost(r.usage[k]);
            assert RecordsOf(r, k + 1) == RecordsOf(r, k) + [RecordOf(r.usage[k], r.harness.value)];
            records := records + [UsageRecord(r.usage[k], cost, r.harness.value, false)];
            if !r.isByok {
              assert Costs(r.usage)[..k + 1] == Costs(r.usage)[..k] + [cost];
              assert (Costs(r.usage)[..k] + [cost])[..k] == Costs(r.usage)[..k];
              sharedTotal := SaturatingAdd(sharedTotal, cost);
            }
          }
          assert Costs(r.usage)[..|r.usage|] == Costs(r.usage);
          if sharedTotal > 0 {
            balance := Max(0, balance - sharedTotal);
          }
        }
      }
    }

    /** A paid invoice: bill what the closing period drew beyond the credit, mark its records once that is
        settled, and only then reset the credit. */
    method InvoicePaid(shared: set<nat>, credit: int, accepted: bool) returns (c: Closing)
      modifies this
      ensures c == Close(UnbilledCost(old(records), shared), credit, accepted)
      ensures records == if Settles(c) then MarkBilled(old(records), shared) else old(records)
      ensures balance == if c.Overflowed? then old(balance) else credit
    {
      var total := UnbilledCost(records, shared);
      if total > I64_MAX { return Overflowed; }
      var cents := InvoiceCents(BedrockOverage(total, credit));
      if cents.None? { return Overflowed; }
      if cents.value > SANITY_CEILING {
        c := Held(cents.value);
      } else if cents.value > 0 {
        c := if accepted then Charged(cents.value) else NotCharged(cents.value);
        if accepted {
          records := MarkBilled(records, shared);
        }
      } else {
        c := WithinCredit;
        records := MarkBilled(records, shared);
      }
      Grant(credit);
    }

    /** What the balance endpoint answers about the shared backend. */
    method GetBalance(stripeEnabled: bool, status: Option<string>) returns (d: Decision)
      ensures d.allowShared <==> !stripeEnabled || (!(status.Some? && StatusBlocks(status.value)) && balance > 0)
      ensures d.exhausted <==> stripeEnabled && !(status.Some? && StatusBlocks(status.value)) && balance <= 0
    {
      d := SharedBedrockDecision(stripeEnabled, balance, status);
    }
  }

  // ----- Over any sequence of reports since a grant -----

  function BalanceAfter(grant: int, rs: seq<Report>): int {
    if rs == [] then grant else After(BalanceAfter(grant, rs[..|rs| - 1]), rs[|rs| - 1])
  }

  function TotalShared(rs: seq<Report>): int {
    if rs == [] then 0 else TotalShared(rs[..|rs| - 1]) + SharedCost(rs[|rs| - 1])
  }

  /** Each report's overage, taken at the balance it found, added up. */
  function OverageSum(grant: int, rs: seq<Report>): int {
    if rs == [] then 0
    else
      var k := |rs| - 1;
      OverageSum(grant, rs[..k]) + BedrockOverage(SharedCost(rs[k]), BalanceAfter(grant, rs[..k]))
  }

  lemma {:induction false} TotalNonNegative(rs: seq<Report>)
    ensures 0 <= TotalShared(rs)
  {
    if rs != [] {
      TotalNonNegative(rs[..|rs| - 1]);
      SharedCostRange(rs[|rs| - 1]);
    }
  }

  /** The clamped running balance is the grant less everything shared, or nothing. */
  lemma {:induction false} BalanceClosedForm(grant: int, rs: seq<Report>)
    requires 0 <= grant
    ensures BalanceAfter(grant, rs) == Max(0, grant - TotalShared(rs))
  {
    if rs != [] {
      var k := |rs| - 1;
      BalanceClosedForm(grant, rs[..k]);
      SharedCostRange(rs[k]);
      TotalNonNegative(rs[..k]);
    }
  }

  /** One report's overage is what it adds to the total past the grant. */
  lemma OverageStep(grant: int, before: int, cost: int)
    requires 0 <= grant && 0 <= before && 0 <= cost
    ensures Max(0, before - grant) + BedrockOverage(cost, Max(0, grant - before)) == Max(0, before + cost - grant)
    ensures BedrockOverage(before + cost, grant) == Max(0, before + cost - grant)
  {
  }

  /** The overages of the single reports add up to the overage a period close computes from the total,
      whatever the order of reports. */
  lemma {:induction false} OverageClosedForm(grant: int, rs: seq<Report>)
    requires 0 <= grant
    ensures OverageSum(grant, rs) == BedrockOverage(TotalShared(rs), grant) == Max(0, TotalShared(rs) - grant)
  {
    if rs != [] {
      var k := |rs| - 1;
      OverageClosedForm(grant, rs[..k]);
      BalanceClosedForm(grant, rs[..k]);
      TotalNonNegative(rs[..k]);
      SharedCostRange(rs[k]);
      OverageStep(grant, TotalShared(rs[..k]), SharedCost(rs[k]));
    }
  }

  /** Nothing is lost: credit drawn and overage together are exactly what was used. */
  lemma Conservation(grant: int, rs: seq<Report>)
    requires 0 <= grant
    ensures (grant - BalanceAfter(grant, rs)) + OverageSum(grant, rs) == TotalShared(rs)
  {
    BalanceClosedForm(grant, rs);
    OverageClosedForm(grant, rs);
  }

  /** Reports that share nothing can be left out anywhere. */
  function Sharing(rs: seq<Report>): seq<Report> {
    if rs == [] then []
    else Sharing(rs[..|rs| - 1]) + if rs[|rs| - 1].isByok then [] else [rs[|rs| - 1]]
  }

  lemma {:induction false} ByokChangesNothing(grant: int, rs: seq<Report>)
    ensures BalanceAfter(grant, Sharing(rs)) == BalanceAfter(grant, rs)
    ensures OverageSum(grant, Sharing(rs)) == OverageSum(grant, rs)
    ensures TotalShared(Sharing(rs)) == TotalShared(rs)
  {
    if rs != [] {
      var k := |rs| - 1;
      ByokChangesNothing(grant, rs[..k]);
      if !rs[k].isByok {
        assert (Sharing(rs[..k]) + [rs[k]])[..|Sharing(rs[..k])|] == Sharing(rs[..k]);
      } else {
        assert Sharing(rs) == Sharing(rs[..k]);
      }
    }
  }

  predicate GateOpen(grant: int, rs: seq<Report>) {
    SharedBedrockDecision(true, BalanceAfter(grant, rs), None).allowShared
  }

  /** With billing on and the account in good standing, the gate is open exactly while what was shared
      stays below the grant. */
  lemma GateOpenIff(grant: int, rs: seq<Report>, status: Option<string>)
    requires 0 <= grant && !(status.Some? && StatusBlocks(status.value))
    ensures SharedBedrockDecision(true, BalanceAfter(grant, rs), status).allowShared <==> TotalShared(rs) < grant
    ensures GateOpen(grant, rs) <==> TotalShared(rs) < grant
  {
    BalanceClosedForm(grant, rs);
  }

  /** Once shut, the gate stays shut until the next grant. */
  lemma {:induction false} GateStaysShut(grant: int, rs: seq<Report>, more: seq<Report>)
    requires 0 <= grant && !GateOpen(grant, rs)
    ensures !GateOpen(grant, rs + more)
  {
    if more == [] {
      assert rs + more == rs;
    } else {
      var k := |more| - 1;
      GateStaysShut(grant, rs, more[..k]);
      assert (rs + more)[..|rs + more| - 1] == rs + more[..k];
      SharedCostRange(more[k]);
    }
  }

  /** The harness obeys the gate: nothing shared is reported that began after it shut. */
  ghost predicate ObeysGate(grant: int, rs: seq<Report>) {
    forall k :: 0 <= k < |rs| && SharedCost(rs[k]) > 0 ==> GateOpen(grant, rs[..k])
  }

  /** Then the overage is bounded by one sync interval: it is strictly less than the cost of the one
      report that crossed the grant. */
  lemma OverrunBounded(grant: int, rs: seq<Report>)
    requires 0 <= grant && ObeysGate(grant, rs) && OverageSum(grant, rs) > 0
    ensures exists k :: 0 <= k < |rs| && GateOpen(grant, rs[..k]) && !GateOpen(grant, rs[..k + 1])
                        && OverageSum(grant, rs) < SharedCost(rs[k])
  {
    var k := Crossing(grant, rs);
  }

  /** If the gate was still open before the last report, the overage is part of that report's cost. */
  lemma LastCrosses(grant: int, rs: seq<Report>)
    requires 0 <= grant && rs != [] && GateOpen(grant, rs[..|rs| - 1]) && OverageSum(grant, rs) > 0
    ensures !GateOpen(grant, rs) && OverageSum(grant, rs) < SharedCost(rs[|rs| - 1])
  {
    OverageClosedForm(grant, rs);
    GateOpenIff(grant, rs, None);
    GateOpenIff(grant, rs[..|rs| - 1], None);
  }

  lemma QuietLast(grant: int, rs: seq<Report>)
    requires 0 <= grant && rs != [] && !GateOpen(grant, rs[..|rs| - 1]) && ObeysGate(grant, rs)
    ensures OverageSum(grant, rs) == OverageSum(grant, rs[..|rs| - 1])
  {
    SharedCostRange(rs[|rs| - 1]);
  }

  lemma {:induction false} Crossing(grant: int, rs: seq<Report>) returns (k: nat)
    requires 0 <= grant && ObeysGate(grant, rs) && OverageSum(grant, rs) > 0
    ensures k < |rs| && GateOpen(grant, rs[..k]) && !GateOpen(grant, rs[..k + 1])
    ensures OverageSum(grant, rs) < SharedCost(rs[k])
  {
    var n := |rs| - 1;
    assert rs[..n + 1] == rs;
    if GateOpen(grant, rs[..n]) {
      LastCrosses(grant, rs);
      k := n;
    } else {
      QuietLast(grant, rs);
      ObeysGatePrefix(grant, rs, n);
      k := Crossing(grant, rs[..n]);
      assert rs[..n][..k] == rs[..k] && rs[..n][..k + 1] == rs[..k + 1];
    }
  }

  lemma ObeysGatePrefix(grant: int, rs: seq<Report>, n: nat)
    requires n <= |rs| && ObeysGate(grant, rs)
    ensures ObeysGate(grant, rs[..n])
  {
    forall j | 0 <= j < n && SharedCost(rs[..n][j]) > 0 ensures GateOpen(grant, rs[..n][..j]) {
      assert rs[..n][..j] == rs[..j];
    }
  }
}
