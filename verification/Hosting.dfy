/** App-hosting bills (`src/billing/app_hosting.rs`) and the usage meter behind them
    (`src/billing/usage_metering.rs`). Hours, units and gigabytes that the source keeps as floats are reals
    here; money is whole cents. */
module Hosting {
  import opened Numbers

  // ----- Tiers -----

  datatype Tier = Starter | Pro | Compliance {
    function BaseCents(): nat {
      match this case Starter => 9900 case Pro => 34900 case Compliance => 89900
    }

    function IncludedUnits(): nat {
      match this case Starter => 2 case Pro => 8 case Compliance => 16
    }

    function OverageCentsPerUnit(): nat {
      match this case Starter => 6000 case Pro => 5500 case Compliance => 5000
    }

    function IncludedEgressGb(): nat {
      match this case Starter => 50 case Pro => 250 case Compliance => 500
    }

    function EgressCentsPerGb(): nat {
      match this case Starter => 20 case Pro => 18 case Compliance => 15
    }
  }

  const HOURS_PER_MONTH := 730

  // ----- The snapshot bill -----

  /** Billing units of one task: its dominant dimension, rounded up, at least one. */
  function ContainerUnits(cpu: nat, mem: nat): nat {
    var vcpu := Ceil(cpu as real / 1024.0);
    var memUnits := Ceil(mem as real / 1024.0 / 2.0);
    Max(Max(vcpu, memUnits), 1)
  }

  /** A task fits in a number of standard containers when both its dimensions do. */
  predicate FitsIn(cpu: nat, mem: nat, units: nat) {
    cpu <= 1024 * units && mem <= 2048 * units
  }

  /** The units charged are the fewest standard containers the task fits in. */
  lemma UnitsAreFewest(cpu: nat, mem: nat, n: nat)
    ensures FitsIn(cpu, mem, n) && 1 <= n <==> ContainerUnits(cpu, mem) <= n
  {
    assert cpu as real / 1024.0 <= n as real <==> cpu <= 1024 * n;
    assert mem as real / 1024.0 / 2.0 <= n as real <==> mem <= 2048 * n;
  }

  datatype Charge = Charge(base: nat, overage: nat, egress: nat) {
    function Total(): nat { base + overage + egress }
  }

  function ComputeCharge(tier: Tier, units: nat, egressGb: nat): Charge {
    Charge(tier.BaseCents(),
           Max(units - tier.IncludedUnits(), 0) * tier.OverageCentsPerUnit(),
           Max(egressGb - tier.IncludedEgressGb(), 0) * tier.EgressCentsPerGb())
  }

  /** Up to the included units and gigabytes a tier costs its base, and one more of each adds its two rates. */
  lemma TierPrices()
    ensures ComputeCharge(Starter, 2, 50).Total() == 9900 && ComputeCharge(Starter, 3, 51) == Charge(9900, 6000, 20)
    ensures ComputeCharge(Pro, 8, 250).Total() == 34900 && ComputeCharge(Pro, 9, 251) == Charge(34900, 5500, 18)
    ensures ComputeCharge(Compliance, 16, 500).Total() == 89900
    ensures ComputeCharge(Compliance, 17, 501) == Charge(89900, 5000, 15)
  {
  }

  // ----- The metered bill -----

  /** A cast to an unsigned integer takes negatives to zero. */
  function ToCents(x: real): nat { Max(Round(x), 0) }

  function OverageUnitHours(tier: Tier, unitHours: real, periodHours: real): real {
    RealMax(unitHours - tier.IncludedUnits() as real * periodHours, 0.0)
  }

  /** Unit-hours over the pool at a rate for a unit-month. */
  function Prorated(unitHours: real, cents: nat): nat {
    ToCents(unitHours * (cents as real / HOURS_PER_MONTH as real))
  }

  function ComputePeriodCharge(tier: Tier, unitHours: real, egressGb: real, periodHours: real): Charge {
    var egressOver := RealMax(egressGb - tier.IncludedEgressGb() as real, 0.0);
    Charge(tier.BaseCents(),
           Prorated(OverageUnitHours(tier, unitHours, periodHours), tier.OverageCentsPerUnit()),
           ToCents(egressOver * tier.EgressCentsPerGb() as real))
  }

  /** Whole gigabytes cost the same under both bills. */
  lemma EgressAgrees(tier: Tier, unitHours: real, periodHours: real, units: nat, egressGb: nat)
    ensures ComputePeriodCharge(tier, unitHours, egressGb as real, periodHours).egress
         == ComputeCharge(tier, units, egressGb).egress
  {
    var over := Max(egressGb - tier.IncludedEgressGb(), 0);
    assert RealMax(egressGb as real - tier.IncludedEgressGb() as real, 0.0) == over as real;
    RoundWhole(over * tier.EgressCentsPerGb());
    assert over as real * tier.EgressCentsPerGb() as real == (over * tier.EgressCentsPerGb()) as real;
  }

  /** A whole number of unit-months over the pool costs that many monthly rates. */
  lemma WholeMonths(months: nat, cents: nat)
    ensures Prorated((months * HOURS_PER_MONTH) as real, cents) == months * cents
  {
    var rate := cents as real / HOURS_PER_MONTH as real;
    assert rate * 730.0 == cents as real;
    assert (months * HOURS_PER_MONTH) as real * rate == months as real * (rate * 730.0);
    assert months as real * cents as real == (months * cents) as real;
    RoundWhole(months * cents);
  }

  lemma Scale(a: real, b: real, rate: real)
    requires a <= b && 0.0 <= rate
    ensures a * rate <= b * rate
  {
  }

  /** The metered compute charge grows with the hours over the pool. */
  lemma OverageMonotone(a: real, b: real, cents: nat)
    requires a <= b
    ensures Prorated(a, cents) <= Prorated(b, cents)
  {
    var rate := cents as real / HOURS_PER_MONTH as real;
    Scale(a, b, rate);
    RoundMonotone(a * rate, b * rate);
  }

  predicate WithinHalf(cents: nat, exact: real) { cents as real - 0.5 <= exact < cents as real + 0.5 }

  lemma HalfCent(x: real)
    requires 0.0 <= x
    ensures WithinHalf(ToCents(x), x)
  {
  }

  lemma ProratedWithinHalf(unitHours: real, cents: nat)
    requires 0.0 <= unitHours
    ensures WithinHalf(Prorated(unitHours, cents), unitHours * (cents as real / 730.0))
  {
    Scale(0.0, unitHours, cents as real / 730.0);
    HalfCent(unitHours * (cents as real / 730.0));
  }

  lemma EgressWithinHalf(over: real, cents: nat)
    requires 0.0 <= over
    ensures WithinHalf(ToCents(over * cents as real), over * cents as real)
  {
    Scale(0.0, over, cents as real);
    HalfCent(over * cents as real);
  }

  /** Both metered charges are within half a cent of what was used over the allowances, at their rates. */
  lemma ChargesWithinHalf(tier: Tier, unitHours: real, egressGb: real, periodHours: real)
    ensures var charge := ComputePeriodCharge(tier, unitHours, egressGb, periodHours);
            var over := RealMax(egressGb - tier.IncludedEgressGb() as real, 0.0);
            && charge.base == tier.BaseCents()
            && WithinHalf(charge.overage, OverageUnitHours(tier, unitHours, periodHours)
                                          * (tier.OverageCentsPerUnit() as real / 730.0))
            && WithinHalf(charge.egress, over * tier.EgressCentsPerGb() as real)
  {
    ProratedWithinHalf(OverageUnitHours(tier, unitHours, periodHours), tier.OverageCentsPerUnit());
    EgressWithinHalf(RealMax(egressGb - tier.IncludedEgressGb() as real, 0.0), tier.EgressCentsPerGb());
  }

  /** A constant number of units for a reference month bills as its snapshot. */
  lemma ConstantMonth(tier: Tier, units: nat, egressGb: nat)
    ensures ComputePeriodCharge(tier, (units * HOURS_PER_MONTH) as real, egressGb as real, HOURS_PER_MONTH as real)
         == ComputeCharge(tier, units, egressGb)
  {
    var hours := (units * HOURS_PER_MONTH) as real;
    EgressAgrees(tier, hours, HOURS_PER_MONTH as real, units, egressGb);
    var months := Max(units - tier.IncludedUnits(), 0);
    assert OverageUnitHours(tier, hours, HOURS_PER_MONTH as real) == (months * HOURS_PER_MONTH) as real;
    WholeMonths(months, tier.OverageCentsPerUnit());
  }

  /** The metered bill is within the snapshot's whenever the hours over the pool are within the snapshot's
      unit-months over it. */
  lemma WithinSnapshot(tier: Tier, unitHours: real, periodHours: real, units: nat, egressGb: nat)
    requires OverageUnitHours(tier, unitHours, periodHours)
             <= (Max(units - tier.IncludedUnits(), 0) * HOURS_PER_MONTH) as real
    ensures ComputePeriodCharge(tier, unitHours, egressGb as real, periodHours).Total()
         <= ComputeCharge(tier, units, egressGb).Total()
  {
    var months := Max(units - tier.IncludedUnits(), 0);
    EgressAgrees(tier, unitHours, periodHours, units, egressGb);
    OverageMonotone(OverageUnitHours(tier, unitHours, periodHours), (months * HOURS_PER_MONTH) as real,
                    tier.OverageCentsPerUnit());
    WholeMonths(months, tier.OverageCentsPerUnit());
  }

  lemma ProratedBySeconds(over: nat, cents: nat, seconds: nat)
    ensures var x := (over as real * (seconds as real / 3600.0)) * (cents as real / 730.0);
            0.0 <= x && x * 2628000.0 == (over * cents * seconds) as real
  {
    var hours, rate := seconds as real / 3600.0, cents as real / 730.0;
    assert hours * 3600.0 == seconds as real && rate * 730.0 == cents as real;
    var x := (over as real * hours) * rate;
    assert x * 2628000.0 == over as real * (hours * 3600.0) * (rate * 730.0);
    assert over as real * cents as real == (over * cents) as real;
    assert over as real * seconds as real * cents as real == over as real * cents as real * seconds as real;
    assert (over * cents) as real * seconds as real == (over * cents * seconds) as real;
  }

  lemma RoundIs(x: real, n: int)
    requires 0.0 <= x
    ensures Round(x) == n <==> n as real - 0.5 <= x < n as real + 0.5
  {
  }

  /** A full month's amount is off by less than half a cent when the period misses 730 hours, which are
      2628000 seconds, by so much. */
  predicate RoundsAway(amount: nat, seconds: nat) {
    -1314000 <= amount * (seconds - 2628000) < 1314000
  }

  lemma DriftRounds(amount: nat, seconds: nat, x: real)
    requires x * 2628000.0 == (amount * seconds) as real
    ensures amount as real - 0.5 <= x < amount as real + 0.5 <==> RoundsAway(amount, seconds)
  {
    assert amount * (seconds - 2628000) == amount * seconds - amount * 2628000;
  }

  /** Units over the pool for a whole period cost their monthly rate exactly when rounding absorbs the
      difference between the period and 730 hours. */
  lemma ProratedIff(over: nat, unitHours: real, cents: nat, seconds: nat)
    requires unitHours == over as real * (seconds as real / 3600.0)
    ensures Prorated(unitHours, cents) == over * cents <==> RoundsAway(over * cents, seconds)
  {
    var x := unitHours * (cents as real / 730.0);
    ProratedBySeconds(over, cents, seconds);
    RoundIs(x, over * cents);
    DriftRounds(over * cents, seconds, x);
  }

  lemma OverPool(units: nat, pool: nat, period: real)
    requires 0.0 <= period
    ensures RealMax(units as real * period - pool as real * period, 0.0) == Max(units - pool, 0) as real * period
  {
    var d := (units - pool) as real;
    assert units as real * period - pool as real * period == d * period;
    if units >= pool {
      Scale(0.0, d, period);
    } else {
      Scale(d, 0.0, period);
    }
  }

  lemma ConstantOverage(tier: Tier, units: nat, period: real)
    requires 0.0 <= period
    ensures OverageUnitHours(tier, units as real * period, period)
         == Max(units - tier.IncludedUnits(), 0) as real * period
  {
    OverPool(units, tier.IncludedUnits(), period);
  }

  lemma BillsAgreeIff(tier: Tier, unitHours: real, periodHours: real, units: nat, egressGb: nat)
    ensures ComputePeriodCharge(tier, unitHours, egressGb as real, periodHours) == ComputeCharge(tier, units, egressGb)
            <==> Prorated(OverageUnitHours(tier, unitHours, periodHours), tier.OverageCentsPerUnit())
                 == MonthlyOverage(tier, units)
  {
    EgressAgrees(tier, unitHours, periodHours, units, egressGb);
  }

  /** What a month at a constant number of units costs over the pool. */
  function MonthlyOverage(tier: Tier, units: nat): nat {
    Max(units - tier.IncludedUnits(), 0) * tier.OverageCentsPerUnit()
  }

  /** The unit-hours over the pool, for a constant number of units. */
  lemma ContinuousOverage(tier: Tier, units: nat, unitHours: real, period: real, seconds: nat)
    requires period == seconds as real / 3600.0 && unitHours == units as real * period
    ensures var charged := Prorated(OverageUnitHours(tier, unitHours, period), tier.OverageCentsPerUnit());
            charged == MonthlyOverage(tier, units) <==> RoundsAway(MonthlyOverage(tier, units), seconds)
  {
    var over := OverageUnitHours(tier, unitHours, period);
    ConstantOverage(tier, units, period);
    ProratedIff(Max(units - tier.IncludedUnits(), 0), over, tier.OverageCentsPerUnit(), seconds);
  }

  /** Running continuously for any period, measured in seconds, a tenant is billed exactly its snapshot if
      and only if the period is so close to 730 hours that the difference rounds away. */
  lemma ContinuousBySecondsIff(tier: Tier, units: nat, unitHours: real, period: real, seconds: nat, egressGb: nat)
    requires period == seconds as real / 3600.0 && unitHours == units as real * period
    ensures ComputePeriodCharge(tier, unitHours, egressGb as real, period) == ComputeCharge(tier, units, egressGb)
            <==> RoundsAway(MonthlyOverage(tier, units), seconds)
  {
    BillsAgreeIff(tier, unitHours, period, units, egressGb);
    ContinuousOverage(tier, units, unitHours, period, seconds);
  }

  lemma HoursInSeconds(units: nat, period: nat)
    ensures (3600 * period) as real / 3600.0 == period as real
    ensures (units * period) as real == units as real * ((3600 * period) as real / 3600.0)
  {
    assert units as real * period as real == (units * period) as real;
  }

  /** For a period of whole hours: exactly when the tenant stays in its pool or the period is 730 hours. */
  lemma ContinuousIff(tier: Tier, units: nat, period: nat, egressGb: nat)
    ensures ComputePeriodCharge(tier, (units * period) as real, egressGb as real, period as real)
            == ComputeCharge(tier, units, egressGb)
            <==> units <= tier.IncludedUnits() || period == HOURS_PER_MONTH
  {
    HoursInSeconds(units, period);
    ContinuousBySecondsIff(tier, units, (units * period) as real, period as real, 3600 * period, egressGb);
    WholeHoursDrift(tier, units, period);
  }

  lemma WholeHoursDrift(tier: Tier, units: nat, period: nat)
    ensures RoundsAway(MonthlyOverage(tier, units), 3600 * period)
            <==> units <= tier.IncludedUnits() || period == HOURS_PER_MONTH
  {
    var over, cents := Max(units - tier.IncludedUnits(), 0), tier.OverageCentsPerUnit();
    if over > 0 {
      TimesMonotone(cents, 1, over);
      DriftLarge(over * cents, 3600 * period - 2628000);
    }
  }

  lemma DriftLarge(amount: nat, off: int)
    requires amount >= 5000 && off % 3600 == 0
    ensures -1314000 <= amount * off < 1314000 <==> off == 0
  {
    if off > 0 {
      TimesMonotone(3600, 5000, amount);
      TimesMonotone(amount, 3600, off);
    } else if off < 0 {
      TimesMonotone(3600, 5000, amount);
      TimesMonotone(amount, 3600, -off);
      assert amount * off == -(amount * -off);
    }
  }

  predicate SnapshotBounds(tier: Tier, units: nat, hours: nat, period: nat, egressGb: nat) {
    ComputePeriodCharge(tier, (units * hours) as real, egressGb as real, period as real).Total()
    <= ComputeCharge(tier, units, egressGb).Total()
  }

  /** A tenant that ran `units` for `hours` of a period is billed at most its snapshot exactly when the
      unit-hours over the pool are within 730 for each unit over it. */
  lemma TenantBoundsIff(tier: Tier, units: nat, hours: nat, period: nat, egressGb: nat)
    ensures SnapshotBounds(tier, units, hours, period, egressGb)
            <==> units * hours - tier.IncludedUnits() * period
                 <= Max(units - tier.IncludedUnits(), 0) * HOURS_PER_MONTH
  {
    var unitHours, pool := units * hours, tier.IncludedUnits() * period;
    var months := Max(units - tier.IncludedUnits(), 0);
    WholePoolOverage(tier, unitHours, period);
    if unitHours - pool <= months * HOURS_PER_MONTH {
      WithinSnapshot(tier, unitHours as real, period as real, units, egressGb);
    } else {
      EgressAgrees(tier, unitHours as real, period as real, units, egressGb);
      OverageGap(months, unitHours - pool, tier.OverageCentsPerUnit());
    }
  }

  lemma WholePoolOverage(tier: Tier, unitHours: nat, period: nat)
    ensures OverageUnitHours(tier, unitHours as real, period as real)
         == Max(unitHours - tier.IncludedUnits() * period, 0) as real
  {
    assert tier.IncludedUnits() as real * period as real == (tier.IncludedUnits() * period) as real;
  }

  /** It is bounded for every number of units exactly when the hours fit in the period and in the reference
      month. */
  lemma SnapshotBoundsIff(tier: Tier, hours: nat, period: nat, egressGb: nat)
    ensures (forall units: nat :: SnapshotBounds(tier, units, hours, period, egressGb))
            <==> hours <= period && hours <= HOURS_PER_MONTH
  {
    var pool := tier.IncludedUnits();
    if hours <= period && hours <= HOURS_PER_MONTH {
      forall units: nat ensures SnapshotBounds(tier, units, hours, period, egressGb) {
        TenantBoundsIff(tier, units, hours, period, egressGb);
        UnitsCovered(pool, units, hours, period);
      }
    } else if hours > period {
      TenantBoundsIff(tier, pool, hours, period, egressGb);
      TimesMonotone(pool, period + 1, hours);
    } else {
      TenantBoundsIff(tier, pool * period + pool, hours, period, egressGb);
      Outgrown(pool, pool * period, hours);
    }
  }

  lemma UnitsCovered(pool: nat, units: nat, hours: nat, period: nat)
    requires hours <= period && hours <= HOURS_PER_MONTH
    ensures units * hours - pool * period <= Max(units - pool, 0) * HOURS_PER_MONTH
  {
    TimesMonotone(pool, hours, period);
    if units <= pool {
      TimesMonotone(hours, units, pool);
    } else {
      TimesMonotone(units - pool, hours, HOURS_PER_MONTH);
      Distribute(units - pool, pool, hours);
    }
  }

  /** Unit-hours within `units` at `hours` overrun the pool by no more than the snapshot does. */
  lemma PoolCovers(tier: Tier, unitHours: real, hours: nat, period: real, units: nat)
    requires unitHours <= (units * hours) as real && hours as real <= period && hours <= HOURS_PER_MONTH
    ensures OverageUnitHours(tier, unitHours, period)
            <= (Max(units - tier.IncludedUnits(), 0) * HOURS_PER_MONTH) as real
  {
    var pool := tier.IncludedUnits();
    UnitsCovered(pool, units, hours, hours);
    assert pool as real * hours as real <= pool as real * period;
    assert pool as real * hours as real == (pool * hours) as real;
  }

  /** Enough units outgrow what the longer period adds to the pool. */
  lemma Outgrown(pool: nat, months: nat, hours: nat)
    requires 0 < pool && HOURS_PER_MONTH < hours
    ensures (months + pool) * hours - months >= months * HOURS_PER_MONTH + 1
  {
    TimesMonotone(months + pool, HOURS_PER_MONTH + 1, hours);
  }

  lemma TimesMonotone(a: nat, b: nat, c: nat)
    requires b <= c
    ensures a * b <= a * c
  {
  }

  lemma Distribute(a: nat, b: nat, c: nat)
    ensures (a + b) * c == a * c + b * c
  {
  }

  lemma OverageGap(months: nat, over: nat, cents: nat)
    requires over >= months * HOURS_PER_MONTH + 1 && cents >= 5000
    ensures Prorated(over as real, cents) > months * cents
  {
    var rate := cents as real / HOURS_PER_MONTH as real;
    assert 6.0 <= rate;
    var base := (months * HOURS_PER_MONTH) as real;
    Scale(base + 1.0, over as real, rate);
    assert (base + 1.0) * rate == base * rate + rate;
    assert rate * 730.0 == cents as real;
    assert base * rate == months as real * (rate * 730.0);
    assert base * rate == (months * cents) as real;
    RoundMonotone((months * cents + 6) as real, over as real * rate);
    RoundWhole(months * cents + 6);
  }

  // ----- Metering -----

  /** Reserved capacity averaged over an hour, by the hour's timestamp. */
  datatype Datapoint = Datapoint(at: int, value: real)

  datatype Sample = Sample(cpu: real, mem: real)

  /** What the metrics service answers for one ECS service over a period. */
  datatype Metrics = Metrics(cpu: seq<Datapoint>, mem: seq<Datapoint>, txBytes: seq<real>)

  function UnitsOf(s: Sample): real { RealMax(s.cpu / 1024.0, s.mem / 2048.0) }

  function UnitHours(samples: seq<Sample>, hoursPerSample: real): real {
    if samples == [] then 0.0
    else UnitHours(samples[..|samples| - 1], hoursPerSample) + UnitsOf(samples[|samples| - 1]) * hoursPerSample
  }

  /** The first reading at a timestamp, or zero. */
  function ValueAt(points: seq<Datapoint>, at: int): real {
    if points == [] then 0.0 else if points[0].at == at then points[0].value else ValueAt(points[1..], at)
  }

  predicate FirstAt(points: seq<Datapoint>, at: int, i: nat) {
    i < |points| && points[i].at == at && forall j :: 0 <= j < i ==> points[j].at != at
  }

  /** It is the reading of the first point at that time, and zero exactly for want of one. */
  lemma {:induction false} ValueAtIs(points: seq<Datapoint>, at: int)
    ensures forall i: nat :: FirstAt(points, at, i) ==> ValueAt(points, at) == points[i].value
    ensures (forall i :: 0 <= i < |points| ==> points[i].at != at) ==> ValueAt(points, at) == 0.0
  {
    if points != [] {
      ValueAtIs(points[1..], at);
      forall i: nat | FirstAt(points, at, i) ensures ValueAt(points, at) == points[i].value {
        if i > 0 {
          assert points[0].at != at;
          forall j | 0 <= j < i - 1 ensures points[1..][j].at != at {
            assert points[j + 1].at != at;
          }
          assert FirstAt(points[1..], at, i - 1);
        }
      }
    }
  }

  /** One sample an hour that has a processor reading. */
  function PairSamples(m: Metrics): seq<Sample> {
    seq(|m.cpu|, i requires 0 <= i < |m.cpu| => Sample(m.cpu[i].value, ValueAt(m.mem, m.cpu[i].at)))
  }

  function SumReals(xs: seq<real>): real {
    if xs == [] then 0.0 else SumReals(xs[..|xs| - 1]) + xs[|xs| - 1]
  }

  function MeteredHours(m: Metrics): real { UnitHours(PairSamples(m), 1.0) }

  function MeteredEgress(m: Metrics): real { SumReals(m.txBytes) / 1000000000.0 }

  function TotalHours(ms: seq<Metrics>): real {
    if ms == [] then 0.0 else TotalHours(ms[..|ms| - 1]) + MeteredHours(ms[|ms| - 1])
  }

  function TotalEgress(ms: seq<Metrics>): real {
    if ms == [] then 0.0 else TotalEgress(ms[..|ms| - 1]) + MeteredEgress(ms[|ms| - 1])
  }

  /** All the bytes of all the services. */
  function AllBytes(ms: seq<Metrics>): seq<real> {
    if ms == [] then [] else AllBytes(ms[..|ms| - 1]) + ms[|ms| - 1].txBytes
  }

  lemma {:induction false} SumAppend(a: seq<real>, b: seq<real>)
    ensures SumReals(a + b) == SumReals(a) + SumReals(b)
  {
    if b == [] {
      assert a + b == a;
    } else {
      SumAppend(a, b[..|b| - 1]);
      assert (a + b)[..|a + b| - 1] == a + b[..|b| - 1];
    }
  }

  /** The egress metered is every byte any service sent, a billion to the gigabyte. */
  lemma {:induction false} EgressIsAllBytes(ms: seq<Metrics>)
    ensures TotalEgress(ms) * 1000000000.0 == SumReals(AllBytes(ms))
  {
    if ms != [] {
      EgressIsAllBytes(ms[..|ms| - 1]);
      SumAppend(AllBytes(ms[..|ms| - 1]), ms[|ms| - 1].txBytes);
    }
  }

  class ServiceUsage {
    var unitHours: real
    var egressGb: real

    constructor (unitHours: real, egressGb: real)
      ensures this.unitHours == unitHours && this.egressGb == egressGb
    {
      this.unitHours, this.egressGb := unitHours, egressGb;
    }

    method Add(other: ServiceUsage)
      modifies this
      ensures unitHours == old(unitHours) + old(other.unitHours)
      ensures egressGb == old(egressGb) + old(other.egressGb)
    {
      unitHours := unitHours + other.unitHours;
      egressGb := egressGb + other.egressGb;
    }
  }

  /** Meter one service. */
  method MeterService(m: Metrics) returns (usage: ServiceUsage)
    ensures fresh(usage) && usage.unitHours == MeteredHours(m) && usage.egressGb == MeteredEgress(m)
  {
    usage := new ServiceUsage(MeteredHours(m), MeteredEgress(m));
  }

  /** Meter a tenant's running services and add them up. */
  method MeterTenant(services: seq<Metrics>) returns (total: ServiceUsage)
    ensures fresh(total) && total.unitHours == TotalHours(services) && total.egressGb == TotalEgress(services)
  {
    total := new ServiceUsage(0.0, 0.0);
    for k := 0 to |services|
      invariant fresh(total)
      invariant total.unitHours == TotalHours(services[..k]) && total.egressGb == TotalEgress(services[..k])
    {
      assert services[..k + 1][..k] == services[..k];
      var usage := MeterService(services[k]);
      total.Add(usage);
    }
    assert services[..|services|] == services;
  }

  // ----- Metered against declared -----

  /** A deployed service: the task size it declared and what was measured of it. */
  datatype Deployed = Deployed(cpu: nat, mem: nat, metrics: Metrics)

  function MetricsOf(ds: seq<Deployed>): seq<Metrics> {
    seq(|ds|, i requires 0 <= i < |ds| => ds[i].metrics)
  }

  /** The snapshot adds up the units declared. */
  function DeployedUnits(ds: seq<Deployed>): nat {
    if ds == [] then 0
    else DeployedUnits(ds[..|ds| - 1]) + ContainerUnits(ds[|ds| - 1].cpu, ds[|ds| - 1].mem)
  }

  /** No reading exceeds the declared size, and there are at most `hours` of them. */
  ghost predicate WithinSize(d: Deployed, hours: nat) {
    && |d.metrics.cpu| <= hours
    && (forall i :: 0 <= i < |d.metrics.cpu| ==> d.metrics.cpu[i].value <= d.cpu as real)
    && (forall i :: 0 <= i < |d.metrics.mem| ==> d.metrics.mem[i].value <= d.mem as real)
  }

  lemma {:induction false} ValueAtWithin(points: seq<Datapoint>, at: int, most: real)
    requires 0.0 <= most && forall i :: 0 <= i < |points| ==> points[i].value <= most
    ensures ValueAt(points, at) <= most
  {
    if points != [] {
      ValueAtWithin(points[1..], at, most);
    }
  }

  lemma SampleWithinUnits(s: Sample, cpu: nat, mem: nat)
    requires s.cpu <= cpu as real && s.mem <= mem as real
    ensures UnitsOf(s) <= ContainerUnits(cpu, mem) as real
  {
    UnitsAreFewest(cpu, mem, ContainerUnits(cpu, mem));
  }

  lemma {:induction false} HoursWithin(samples: seq<Sample>, units: nat)
    requires forall i :: 0 <= i < |samples| ==> UnitsOf(samples[i]) <= units as real
    ensures UnitHours(samples, 1.0) <= (units * |samples|) as real
  {
    if samples != [] {
      HoursWithin(samples[..|samples| - 1], units);
      assert units * |samples| == units * (|samples| - 1) + units;
    }
  }

  lemma ServiceWithin(d: Deployed, hours: nat)
    requires WithinSize(d, hours)
    ensures MeteredHours(d.metrics) <= (ContainerUnits(d.cpu, d.mem) * hours) as real
  {
    var samples, units := PairSamples(d.metrics), ContainerUnits(d.cpu, d.mem);
    forall i | 0 <= i < |samples| ensures UnitsOf(samples[i]) <= units as real {
      ValueAtWithin(d.metrics.mem, d.metrics.cpu[i].at, d.mem as real);
      SampleWithinUnits(samples[i], d.cpu, d.mem);
    }
    HoursWithin(samples, units);
    assert units * |samples| <= units * hours;
  }

  lemma {:induction false} TenantWithin(ds: seq<Deployed>, hours: nat)
    requires forall i :: 0 <= i < |ds| ==> WithinSize(ds[i], hours)
    ensures TotalHours(MetricsOf(ds)) <= (DeployedUnits(ds) * hours) as real
  {
    if ds != [] {
      var k := |ds| - 1;
      TenantWithin(ds[..k], hours);
      ServiceWithin(ds[k], hours);
      assert MetricsOf(ds)[..k] == MetricsOf(ds[..k]);
      Distribute(DeployedUnits(ds[..k]), ContainerUnits(ds[k].cpu, ds[k].mem), hours);
    }
  }

  /** Less egress never costs more. */
  lemma EgressMonotone(tier: Tier, unitHours: real, a: real, b: real, period: real)
    requires a <= b
    ensures ComputePeriodCharge(tier, unitHours, a, period).Total()
         <= ComputePeriodCharge(tier, unitHours, b, period).Total()
  {
    var included, cents := tier.IncludedEgressGb() as real, tier.EgressCentsPerGb() as real;
    var over, over' := RealMax(a - included, 0.0), RealMax(b - included, 0.0);
    Scale(over, over', cents);
    RoundMonotone(over * cents, over' * cents);
  }

  /** For any services, any hourly samples within their declared sizes and no more of them than the period,
      whatever its length, or the reference month has hours, the metered bill, for the hours and the egress
      metered, never exceeds the snapshot of the declared units and as many whole gigabytes or more. */
  lemma MeteredWithinSnapshot(tier: Tier, ds: seq<Deployed>, hours: nat, period: real, egressGb: nat)
    requires forall i :: 0 <= i < |ds| ==> WithinSize(ds[i], hours)
    requires hours as real <= period && hours <= HOURS_PER_MONTH
    ensures ComputePeriodCharge(tier, TotalHours(MetricsOf(ds)), egressGb as real, period).Total()
         <= ComputeCharge(tier, DeployedUnits(ds), egressGb).Total()
    ensures TotalEgress(MetricsOf(ds)) <= egressGb as real ==>
              ComputePeriodCharge(tier, TotalHours(MetricsOf(ds)), TotalEgress(MetricsOf(ds)), period).Total()
              <= ComputeCharge(tier, DeployedUnits(ds), egressGb).Total()
  {
    var unitHours, egress := TotalHours(MetricsOf(ds)), TotalEgress(MetricsOf(ds));
    TenantWithin(ds, hours);
    PoolCovers(tier, unitHours, hours, period, DeployedUnits(ds));
    WithinSnapshot(tier, unitHours, period, DeployedUnits(ds), egressGb);
    if egress <= egressGb as real {
      EgressMonotone(tier, unitHours, egress, egressGb as real, period);
    }
  }

  /** A service that ran at its whole declared size every hour of a reference month, at distinct hours. */
  ghost predicate Steady(d: Deployed) {
    && |d.metrics.cpu| == HOURS_PER_MONTH
    && d.cpu % 1024 == 0 && d.mem % 2048 == 0 && (d.cpu > 0 || d.mem > 0)
    && (forall i :: 0 <= i < |d.metrics.cpu| ==> d.metrics.cpu[i].value == d.cpu as real)
    && (forall i :: 0 <= i < |d.metrics.cpu| ==> HasReading(d.metrics.mem, d.metrics.cpu[i].at))
    && (forall i :: 0 <= i < |d.metrics.mem| ==> d.metrics.mem[i].value == d.mem as real)
  }

  ghost predicate HasReading(points: seq<Datapoint>, at: int) {
    exists i: nat :: i < |points| && points[i].at == at
  }

  lemma {:induction false} SteadyReading(points: seq<Datapoint>, at: int, value: real)
    requires HasReading(points, at) && forall i :: 0 <= i < |points| ==> points[i].value == value
    ensures ValueAt(points, at) == value
  {
    if points[0].at != at {
      var i: nat :| i < |points| && points[i].at == at;
      assert points[1..][i - 1].at == at;
      SteadyReading(points[1..], at, value);
    }
  }

  lemma {:induction false} HoursExactly(samples: seq<Sample>, units: nat)
    requires forall i :: 0 <= i < |samples| ==> UnitsOf(samples[i]) == units as real
    ensures UnitHours(samples, 1.0) == (units * |samples|) as real
  {
    if samples != [] {
      HoursExactly(samples[..|samples| - 1], units);
      assert units * |samples| == units * (|samples| - 1) + units;
    }
  }

  lemma WholeUnits(cpu: nat, mem: nat)
    requires cpu % 1024 == 0 && mem % 2048 == 0 && (cpu > 0 || mem > 0)
    ensures UnitsOf(Sample(cpu as real, mem as real)) == ContainerUnits(cpu, mem) as real
  {
    var c, m := cpu / 1024, mem / 2048;
    WholeQuotients(c, m);
    assert cpu == 1024 * c && mem == 2048 * m;
  }

  lemma WholeQuotients(c: nat, m: nat)
    ensures (1024 * c) as real / 1024.0 == c as real && (2048 * m) as real / 2048.0 == m as real
    ensures Ceil((1024 * c) as real / 1024.0) == c && Ceil((2048 * m) as real / 1024.0 / 2.0) == m
  {
  }

  lemma {:induction false} SteadyHours(ds: seq<Deployed>)
    requires forall i :: 0 <= i < |ds| ==> Steady(ds[i])
    ensures TotalHours(MetricsOf(ds)) == (DeployedUnits(ds) * HOURS_PER_MONTH) as real
  {
    if ds != [] {
      var k := |ds| - 1;
      SteadyHours(ds[..k]);
      assert MetricsOf(ds)[..k] == MetricsOf(ds[..k]);
      WholeUnits(ds[k].cpu, ds[k].mem);
      forall i | 0 <= i < |ds[k].metrics.cpu|
        ensures PairSamples(ds[k].metrics)[i] == Sample(ds[k].cpu as real, ds[k].mem as real)
      {
        SteadyReading(ds[k].metrics.mem, ds[k].metrics.cpu[i].at, ds[k].mem as real);
      }
      HoursExactly(PairSamples(ds[k].metrics), ContainerUnits(ds[k].cpu, ds[k].mem));
    }
  }

  /** A tenant whose services all ran steadily for a reference month is billed exactly its snapshot. */
  lemma SteadyTenant(tier: Tier, ds: seq<Deployed>, egressGb: nat)
    requires forall i :: 0 <= i < |ds| ==> Steady(ds[i])
    ensures ComputePeriodCharge(tier, TotalHours(MetricsOf(ds)), egressGb as real, HOURS_PER_MONTH as real)
         == ComputeCharge(tier, DeployedUnits(ds), egressGb)
  {
    SteadyHours(ds);
    ConstantMonth(tier, DeployedUnits(ds), egressGb);
  }
}
