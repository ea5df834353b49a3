/** The credit ledger over billing periods: reports and paid invoices in any order (`src/routes/sync.rs`,
    `src/routes/webhooks.rs`). */
module Periods {
  import opened Results
  import opened Numbers
  import opened Guards
  import opened Ledger

  /** `credit` is the plan's monthly credit, `shared` the harnesses on the shared backend. */
  datatype Plan = Plan(credit: nat, shared: set<nat>)

  /** What the database holds, and a history: the reports since the credit was last reset, and before them
      those that earlier closes left unbilled. */
  datatype Account = Account(balance: int, records: seq<UsageRecord>, current: seq<Report>, carried: seq<Report>)

  datatype Event = Reported(report: Report) | Paid(accepted: bool)

  function ClosingOf(p: Plan, a: Account, accepted: bool): Closing {
    Close(UnbilledCost(a.records, p.shared), p.credit, accepted)
  }

  function Step(p: Plan, a: Account, e: Event): Account {
    match e
    case Reported(r) =>
      Account(After(a.balance, r), a.records + RecordsOf(r, |r.usage|), a.current + [r], a.carried)
    case Paid(accepted) =>
      var c := ClosingOf(p, a, accepted);
      if c.Overflowed? then a
      else if Settles(c) then Account(p.credit, MarkBilled(a.records, p.shared), [], [])
      else Account(p.credit, a.records, [], a.carried + a.current)
  }

  function Start(p: Plan): Account { Account(p.credit, [], [], []) }

  function Run(p: Plan, es: seq<Event>): Account {
    if es == [] then Start(p) else Step(p, Run(p, es[..|es| - 1]), es[|es| - 1])
  }

  /** What was recorded of reports on the shared backend's harnesses. */
  function Recorded(p: Plan, rs: seq<Report>): int {
    if rs == [] then 0
    else
      var r := rs[|rs| - 1];
      Recorded(p, rs[..|rs| - 1]) + if r.harness.Some? && r.harness.value in p.shared then Sum(Costs(r.usage)) else 0
  }

  // ----- The records a close selects -----

  lemma {:induction false} UnbilledAppend(a: seq<UsageRecord>, b: seq<UsageRecord>, shared: set<nat>)
    ensures UnbilledCost(a + b, shared) == UnbilledCost(a, shared) + UnbilledCost(b, shared)
  {
    if b == [] {
      assert a + b == a;
    } else {
      UnbilledAppend(a, b[..|b| - 1], shared);
      assert (a + b)[..|a + b| - 1] == a + b[..|b| - 1];
    }
  }

  lemma {:induction false} MarkedIsBilled(records: seq<UsageRecord>, shared: set<nat>)
    ensures UnbilledCost(MarkBilled(records, shared), shared) == 0
  {
    if records != [] {
      var k := |records| - 1;
      MarkedIsBilled(records[..k], shared);
      assert MarkBilled(records, shared)[..k] == MarkBilled(records[..k], shared);
    }
  }

  lemma {:induction false} UnbilledReport(r: Report, k: nat, shared: set<nat>)
    requires k <= |r.usage|
    ensures UnbilledCost(RecordsOf(r, k), shared)
         == if r.harness.Some? && r.harness.value in shared then Sum(Costs(r.usage)[..k]) else 0
  {
    if k > 0 && r.harness.Some? {
      UnbilledReport(r, k - 1, shared);
      assert RecordsOf(r, k)[..k - 1] == RecordsOf(r, k - 1);
      assert Costs(r.usage)[..k][..k - 1] == Costs(r.usage)[..k - 1];
    }
  }

  lemma {:induction false} RecordedAppend(p: Plan, a: seq<Report>, b: seq<Report>)
    ensures Recorded(p, a + b) == Recorded(p, a) + Recorded(p, b)
  {
    if b == [] {
      assert a + b == a;
    } else {
      RecordedAppend(p, a, b[..|b| - 1]);
      assert (a + b)[..|a + b| - 1] == a + b[..|b| - 1];
    }
  }

  ghost predicate Kept(p: Plan, a: Account) {
    && a.balance == BalanceAfter(p.credit, a.current)
    && UnbilledCost(a.records, p.shared) == Recorded(p, a.carried + a.current)
  }

  lemma ReportKeeps(p: Plan, a: Account, r: Report)
    requires Kept(p, a)
    ensures Kept(p, Step(p, a, Reported(r)))
  {
    var all := a.carried + a.current;
    UnbilledAppend(a.records, RecordsOf(r, |r.usage|), p.shared);
    UnbilledReport(r, |r.usage|, p.shared);
    assert Costs(r.usage)[..|r.usage|] == Costs(r.usage);
    assert a.carried + (a.current + [r]) == all + [r];
    assert (all + [r])[..|all|] == all;
    assert (a.current + [r])[..|a.current|] == a.current;
  }

  lemma PaymentKeeps(p: Plan, a: Account, accepted: bool)
    requires Kept(p, a)
    ensures Kept(p, Step(p, a, Paid(accepted)))
  {
    MarkedIsBilled(a.records, p.shared);
    assert a.carried + a.current + [] == a.carried + a.current;
  }

  lemma StepKeeps(p: Plan, a: Account, e: Event)
    requires Kept(p, a)
    ensures Kept(p, Step(p, a, e))
  {
    match e
    case Reported(r) => ReportKeeps(p, a, r);
    case Paid(accepted) => PaymentKeeps(p, a, accepted);
  }

  lemma {:induction false} RunKeeps(p: Plan, es: seq<Event>)
    ensures Kept(p, Run(p, es))
  {
    if es != [] {
      RunKeeps(p, es[..|es| - 1]);
      StepKeeps(p, Run(p, es[..|es| - 1]), es[|es| - 1]);
    }
  }

  ghost predicate Reachable(p: Plan, a: Account) {
    exists es :: a == Run(p, es)
  }

  lemma ReachableKept(p: Plan, a: Account)
    requires Reachable(p, a)
    ensures Kept(p, a)
  {
    var es :| a == Run(p, es);
    RunKeeps(p, es);
  }

  /** In every run the balance is what this period's reports leave of the credit, and what a close selects is
      exactly what was recorded of this period's reports and those carried over. */
  lemma LedgerOfRun(p: Plan, a: Account)
    requires Reachable(p, a)
    ensures a.balance == Max(0, p.credit - TotalShared(a.current))
    ensures UnbilledCost(a.records, p.shared) == Recorded(p, a.carried) + Recorded(p, a.current)
  {
    ReachableKept(p, a);
    BalanceClosedForm(p.credit, a.current);
    RecordedAppend(p, a.carried, a.current);
  }

  // ----- What a close bills -----

  /** The harness's provider mode agrees with what its report says, and the cost of a report that draws on
      the shared credit stays within 64 bits. */
  predicate Regular(p: Plan, r: Report) {
    && (r.harness.Some? ==> (r.harness.value in p.shared <==> !r.isByok))
    && (r.harness.Some? && !r.isByok ==> Sum(Costs(r.usage)) <= I64_MAX)
  }

  ghost predicate AllRegular(p: Plan, rs: seq<Report>) {
    forall i :: 0 <= i < |rs| ==> Regular(p, rs[i])
  }

  lemma {:induction false} RecordedIsShared(p: Plan, rs: seq<Report>)
    requires AllRegular(p, rs)
    ensures Recorded(p, rs) == TotalShared(rs)
  {
    if rs != [] {
      RecordedIsShared(p, rs[..|rs| - 1]);
      SharedCostRange(rs[|rs| - 1]);
    }
  }

  /** The recorded costs of regular reports give a close the overages that arose as they came in. */
  lemma PeriodCloseAgrees(p: Plan, rs: seq<Report>)
    requires AllRegular(p, rs)
    ensures Recorded(p, rs) == TotalShared(rs)
    ensures BedrockOverage(Recorded(p, rs), p.credit) == OverageSum(p.credit, rs)
  {
    RecordedIsShared(p, rs);
    OverageClosedForm(p.credit, rs);
  }

  /** Among regular reports, a close computes the overages of the reports of its own period, added up as they
      came in, exactly when nothing was carried over from closes that did not settle, or everything together
      stays within the credit. Otherwise the carried reports are billed again at a single credit. */
  lemma CloseBillsPeriodIff(p: Plan, a: Account)
    requires Reachable(p, a) && AllRegular(p, a.carried) && AllRegular(p, a.current)
    ensures var overage := BedrockOverage(UnbilledCost(a.records, p.shared), p.credit);
            && overage == Max(0, TotalShared(a.carried) + TotalShared(a.current) - p.credit)
            && (overage == OverageSum(p.credit, a.current) <==>
                  TotalShared(a.carried) == 0 || TotalShared(a.carried) + TotalShared(a.current) <= p.credit)
  {
    LedgerOfRun(p, a);
    RecordedIsShared(p, a.carried);
    RecordedIsShared(p, a.current);
    OverageClosedForm(p.credit, a.current);
    TotalNonNegative(a.carried);
    TotalNonNegative(a.current);
  }

  ghost predicate EveryCloseSettled(p: Plan, es: seq<Event>) {
    forall k :: 0 <= k < |es| && es[k].Paid? ==> Settles(ClosingOf(p, Run(p, es[..k]), es[k].accepted))
  }

  lemma {:induction false} SettledCarriesNothing(p: Plan, es: seq<Event>)
    requires EveryCloseSettled(p, es)
    ensures Run(p, es).carried == []
  {
    if es != [] {
      var n := |es| - 1;
      forall k | 0 <= k < n && es[..n][k].Paid?
        ensures Settles(ClosingOf(p, Run(p, es[..n][..k]), es[..n][k].accepted))
      {
        assert es[..n][..k] == es[..k];
      }
      SettledCarriesNothing(p, es[..n]);
    }
  }

  /** While every close so far was settled, each close bills exactly its own period's overage. */
  lemma SettledCloseIsExact(p: Plan, es: seq<Event>, a: Account)
    requires a == Run(p, es) && EveryCloseSettled(p, es) && AllRegular(p, a.current)
    ensures BedrockOverage(UnbilledCost(a.records, p.shared), p.credit) == OverageSum(p.credit, a.current)
  {
    SettledCarriesNothing(p, es);
    CloseBillsPeriodIff(p, a);
  }
}
