/**
 The energy calculator of the home energy form: a BHK size label and three
 appliance check boxes go in; a five-entry labelled breakdown in kilowatts, a
 total, a monthly and a daily cost, and the number of active appliances come
 out. Everything is recomputed from the inputs alone.
 */
module Energy {
  import opened Breakdown

  // ---------------------------------------------------------------------
  // Inputs
  // ---------------------------------------------------------------------

  /** The size labels the form offers, in order. */
  const BhkOptions: seq<string> := ["1BHK", "2BHK", "3BHK"]

  /** The three appliances the form asks about. */
  datatype Appliance = AC | Fridge | WashingMachine

  /** Which appliance check boxes are ticked. */
  datatype Selection = Selection(ac: bool, fridge: bool, washingMachine: bool)
  {
    predicate Has(a: Appliance) {
      match a
      case AC => ac
      case Fridge => fridge
      case WashingMachine => washingMachine
    }

    /** The same selection with one more box ticked. */
    function With(a: Appliance): (s: Selection)
      ensures s.Has(a)
      ensures forall b :: b != a ==> s.Has(b) == Has(b)
    {
      match a
      case AC => this.(ac := true)
      case Fridge => this.(fridge := true)
      case WashingMachine => this.(washingMachine := true)
    }

    /** Every box ticked here is ticked in `other` too. */
    predicate SubsetOf(other: Selection) {
      forall a :: Has(a) ==> other.Has(a)
    }
  }

  const NoAppliances := Selection(false, false, false)
  const AllAppliances := Selection(true, true, true)

  // ---------------------------------------------------------------------
  // Constant tables
  // ---------------------------------------------------------------------

  /** Power of one light and of one fan, in kilowatts. */
  const LightPower: real := 0.4
  const FanPower: real := 0.8

  /** Nominal power of each appliance, in whole kilowatts. */
  function Rating(a: Appliance): nat {
    match a
    case AC => 3
    case Fridge => 4
    case WashingMachine => 2
  }

  /** The breakdown label of each appliance. */
  function Label(a: Appliance): string {
    match a
    case AC => "AC"
    case Fridge => "Fridge"
    case WashingMachine => "Washing Machine"
  }

  /** Position of each appliance's entry in the breakdown. */
  function Slot(a: Appliance): nat {
    match a
    case AC => 2
    case Fridge => 3
    case WashingMachine => 4
  }

  /** The breakdown labels in insertion order: the two fixtures, then the appliances. */
  const BreakdownLabels: seq<string> := ["Lights", "Fans", Label(AC), Label(Fridge), Label(WashingMachine)]

  /** Electricity tariff per kilowatt-hour, and the hours and days of the estimate. */
  const Tariff: real := 6.0
  const HoursPerDay: real := 24.0
  const DaysPerMonth: real := 30.0

  // ---------------------------------------------------------------------
  // Size lookup
  // ---------------------------------------------------------------------

  /** Position of the first occurrence of `x` in `s`; the caller guarantees one exists. */
  function IndexOf<T(==)>(s: seq<T>, x: T): (r: nat)
    requires x in s
    ensures r < |s| && s[r] == x
    ensures forall j :: 0 <= j < r ==> s[j] != x
  {
    if s[0] == x then 0 else 1 + IndexOf(s[1..], x)
  }

  /** The BHK number of a size label: its one-based position among the options. */
  function BhkNum(size: string): (n: int)
    requires size in BhkOptions
    ensures 1 <= n <= |BhkOptions|
    ensures BhkOptions[n - 1] == size
  {
    IndexOf(BhkOptions, size) + 1
  }

  /** Light and fan counts of a home. */
  datatype Fixtures = Fixtures(lights: nat, fans: nat)

  /**
   Light and fan counts for a BHK number: one more of each than the number for
   1BHK and 2BHK; every other number is treated as 3BHK.
   */
  function FixtureCounts(bhkNum: int): (f: Fixtures)
    ensures f.lights == f.fans
    ensures 1 <= bhkNum <= 3 ==> f.lights == bhkNum + 1
    ensures bhkNum != 1 && bhkNum != 2 ==> f.lights == 4
  {
    if bhkNum == 1 then Fixtures(2, 2)
    else if bhkNum == 2 then Fixtures(3, 3)
    else Fixtures(4, 4)
  }

  /**
   Base load of lights and fans. The literal the calculator adds for each size
   agrees with the light and fan counts it reports for that size.
   */
  function Base(bhkNum: int): (r: real)
    ensures r == FixtureCounts(bhkNum).lights as real * LightPower
               + FixtureCounts(bhkNum).fans as real * FanPower
    ensures 1 <= bhkNum <= 3 ==> r == (bhkNum + 1) as real * (LightPower + FanPower)
    ensures 2.4 <= r <= 4.8
  {
    if bhkNum == 1 then 2.0 * 0.4 + 2.0 * 0.8
    else if bhkNum == 2 then 3.0 * 0.4 + 3.0 * 0.8
    else 4.0 * 0.4 + 4.0 * 0.8
  }

  // ---------------------------------------------------------------------
  // Appliances and total
  // ---------------------------------------------------------------------

  /** Sum of the ratings of the listed appliances that are ticked. */
  function SelectedRatings(apps: seq<Appliance>, sel: Selection): nat
  {
    if |apps| == 0 then 0
    else (if sel.Has(apps[0]) then Rating(apps[0]) else 0) + SelectedRatings(apps[1..], sel)
  }

  /** The appliances in the order the calculator visits them. */
  const ApplianceOrder: seq<Appliance> := [AC, Fridge, WashingMachine]

  /** Load of the ticked appliances, accumulated one check box at a time. */
  function ApplianceEnergy(sel: Selection): (r: nat)
    ensures r <= 9
    ensures r == 0 <==> sel == NoAppliances
    ensures r == 9 <==> sel == AllAppliances
  {
    var afterAc := if sel.ac then 3 else 0;
    var afterFridge := if sel.fridge then afterAc + 4 else afterAc;
    if sel.washingMachine then afterFridge + 2 else afterFridge
  }

  /** The appliance load is the sum of the ratings of the ticked appliances. */
  lemma ApplianceEnergyIsSumOfRatings(sel: Selection)
    ensures ApplianceEnergy(sel) == SelectedRatings(ApplianceOrder, sel)
  {
  }

  /**
   Total load in kilowatts. It is never zero, so the page always draws the
   chart and shows the saving tips.
   */
  function Total(bhkNum: int, sel: Selection): (r: real)
    ensures 2.4 <= r <= 13.8
    ensures r == Base(bhkNum) <==> sel == NoAppliances
  {
    Base(bhkNum) + ApplianceEnergy(sel) as real
  }

  /**
   Ticking one more box raises the total by exactly that appliance's rating;
   ticking a box that is already ticked changes nothing.
   */
  lemma TotalWithAppliance(bhkNum: int, sel: Selection, a: Appliance)
    ensures !sel.Has(a) ==> Total(bhkNum, sel.With(a)) == Total(bhkNum, sel) + Rating(a) as real
    ensures sel.Has(a) ==> Total(bhkNum, sel.With(a)) == Total(bhkNum, sel)
  {
  }

  /** More ticked boxes never give a smaller total. */
  lemma TotalMonotone(bhkNum: int, s1: Selection, s2: Selection)
    requires s1.SubsetOf(s2)
    ensures Total(bhkNum, s1) <= Total(bhkNum, s2)
  {
    assert s1.Has(AC) ==> s2.Has(AC);
    assert s1.Has(Fridge) ==> s2.Has(Fridge);
    assert s1.Has(WashingMachine) ==> s2.Has(WashingMachine);
  }

  /** A larger home never gives a smaller total for the same appliances. */
  lemma TotalMonotoneInSize(m: int, n: int, sel: Selection)
    requires 1 <= m <= n <= 3
    ensures Total(m, sel) <= Total(n, sel)
  {
  }

  // ---------------------------------------------------------------------
  // Breakdown, chart and counts
  // ---------------------------------------------------------------------

  /** Contribution of one appliance: its rating if ticked, otherwise zero. */
  function Contribution(sel: Selection, a: Appliance): real {
    if sel.Has(a) then Rating(a) as real else 0.0
  }

  /** The five-entry breakdown, in the calculator's insertion order. */
  function EnergyBreakdown(bhkNum: int, sel: Selection): (r: seq<Entry>)
    ensures Labels(r) == BreakdownLabels
    ensures NonNegative(r)
    ensures r[0].value == FixtureCounts(bhkNum).lights as real * LightPower
    ensures r[1].value == FixtureCounts(bhkNum).fans as real * FanPower
    ensures forall a :: r[Slot(a)] == Entry(Label(a), Contribution(sel, a))
    ensures forall a :: !sel.Has(a) ==> r[Slot(a)].value == 0.0
  {
    var f := FixtureCounts(bhkNum);
    [ Entry("Lights", f.lights as real * LightPower),
      Entry("Fans", f.fans as real * FanPower),
      Entry("AC", if sel.ac then 3.0 else 0.0),
      Entry("Fridge", if sel.fridge then 4.0 else 0.0),
      Entry("Washing Machine", if sel.washingMachine then 2.0 else 0.0) ]
  }

  /** The breakdown's five values add up to the total. */
  lemma BreakdownSumsToTotal(bhkNum: int, sel: Selection)
    ensures Sum(EnergyBreakdown(bhkNum, sel)) == Total(bhkNum, sel)
  {
    var b := EnergyBreakdown(bhkNum, sel);
    assert b[4..][1..] == [];
    assert b[3..][1..] == b[4..];
    assert b[2..][1..] == b[3..];
    assert b[1..][1..] == b[2..];
    assert Sum(b[4..]) == b[4].value;
    assert Sum(b[3..]) == b[3].value + b[4].value;
    assert Sum(b[2..]) == b[2].value + b[3].value + b[4].value;
  }

  /**
   The chart input: the breakdown entries that are strictly positive. It always
   shows Lights and Fans, shows an appliance exactly when its box is ticked, so
   has two entries more than there are active appliances, and its values add up
   to the total.
   */
  function ChartEntries(bhkNum: int, sel: Selection): (c: seq<Entry>)
    ensures forall e :: e in c <==> e in EnergyBreakdown(bhkNum, sel) && e.value > 0.0
    ensures "Lights" in Labels(c) && "Fans" in Labels(c)
    ensures forall a :: Label(a) in Labels(c) <==> sel.Has(a)
    ensures |c| == 2 + ActiveCount(sel)
    ensures Sum(c) == Total(bhkNum, sel)
  {
    var b := EnergyBreakdown(bhkNum, sel);
    var c := KeepPositive(b);
    BreakdownSumsToTotal(bhkNum, sel);
    ChartLength(bhkNum, sel);
    NameInLabels(c, b[0]);
    NameInLabels(c, b[1]);
    assert forall a :: Label(a) in Labels(c) <==> sel.Has(a) by {
      forall a: Appliance
        ensures Label(a) in Labels(c) <==> sel.Has(a)
      {
        ChartKeepsAppliance(bhkNum, sel, a);
      }
    }
    c
  }

  /** Number of ticked boxes, counting each true flag as one. */
  function CountTrue(flags: seq<bool>): (r: nat)
    ensures r <= |flags|
    ensures r == 0 <==> forall i :: 0 <= i < |flags| ==> !flags[i]
    ensures r == |flags| <==> forall i :: 0 <= i < |flags| ==> flags[i]
  {
    if |flags| == 0 then 0
    else (if flags[0] then 1 else 0) + CountTrue(flags[1..])
  }

  /** The active-appliance count shown under the breakdown. */
  function ActiveCount(sel: Selection): (r: nat)
    ensures r <= 3
    ensures r == 0 <==> sel == NoAppliances
    ensures r == 3 <==> sel == AllAppliances
  {
    var flags := [sel.ac, sel.fridge, sel.washingMachine];
    assert flags[0] == sel.ac && flags[1] == sel.fridge && flags[2] == sel.washingMachine;
    CountTrue(flags)
  }

  /** An appliance's label is on the chart exactly when its box is ticked. */
  lemma ChartKeepsAppliance(bhkNum: int, sel: Selection, a: Appliance)
    ensures Label(a) in Labels(KeepPositive(EnergyBreakdown(bhkNum, sel))) <==> sel.Has(a)
  {
    var b := EnergyBreakdown(bhkNum, sel);
    NameSurvivesKeepPositive(b, Label(a));
    if sel.Has(a) {
      assert b[Slot(a)] in b;
    } else if e :| e in b && e.name == Label(a) && e.value > 0.0 {
      assert false;
    }
  }

  /** The chart has the two fixture entries plus one per ticked box. */
  lemma ChartLength(bhkNum: int, sel: Selection)
    ensures |KeepPositive(EnergyBreakdown(bhkNum, sel))| == 2 + ActiveCount(sel)
  {
    var b := EnergyBreakdown(bhkNum, sel);
    KeepPositiveFive(b[0], b[1], b[2], b[3], b[4]);
    assert b == [b[0], b[1], b[2], b[3], b[4]];
    assert |KeepPositive(b)| == 2 + |KeptOf(b[2])| + |KeptOf(b[3])| + |KeptOf(b[4])|;
    ActiveCountBySlots(sel);
  }

  /** The active-appliance count adds one for each ticked box. */
  lemma ActiveCountBySlots(sel: Selection)
    ensures ActiveCount(sel) == (if sel.ac then 1 else 0) + (if sel.fridge then 1 else 0)
                                + (if sel.washingMachine then 1 else 0)
  {
  }

  // ---------------------------------------------------------------------
  // Costs
  // ---------------------------------------------------------------------

  /** Cost of running the total load for one day at the tariff. */
  function DailyCost(total: real): (r: real)
    ensures r == total * HoursPerDay * Tariff
    ensures total >= 0.0 ==> r >= 0.0
  {
    total * 24.0 * 6.0
  }

  /** Cost of running the total load for a thirty-day month: thirty daily costs. */
  function MonthlyCost(total: real): (r: real)
    ensures r == DaysPerMonth * DailyCost(total)
    ensures total >= 0.0 ==> r >= 0.0
  {
    total * 24.0 * 30.0 * 6.0
  }

  /**
   Costs are proportional to the load: the cost of two loads together is the
   sum of their costs, at the tariff for every hour of the day.
   */
  lemma CostIsLinear(t1: real, t2: real)
    ensures DailyCost(t1 + t2) == DailyCost(t1) + DailyCost(t2)
    ensures MonthlyCost(t1 + t2) == MonthlyCost(t1) + MonthlyCost(t2)
    ensures DailyCost(1.0) == HoursPerDay * Tariff
  {
  }

  /** Both costs grow with the load. */
  lemma CostMonotone(t1: real, t2: real)
    requires t1 <= t2
    ensures DailyCost(t1) <= DailyCost(t2)
    ensures MonthlyCost(t1) <= MonthlyCost(t2)
  {
  }

  /** Cost range of every estimate the calculator can produce. */
  lemma CostBounds(bhkNum: int, sel: Selection)
    ensures 345.6 <= DailyCost(Total(bhkNum, sel)) <= 1987.2
    ensures 10368.0 <= MonthlyCost(Total(bhkNum, sel)) <= 59616.0
  {
    CostMonotone(2.4, Total(bhkNum, sel));
    CostMonotone(Total(bhkNum, sel), 13.8);
  }

  // ---------------------------------------------------------------------
  // One run of the form
  // ---------------------------------------------------------------------

  /** Everything the page shows for one set of inputs. */
  datatype Estimate = Estimate(
    bhkNum: int,
    breakdown: seq<Entry>,
    total: real,
    monthlyCost: real,
    dailyCost: real,
    chart: seq<Entry>,
    activeAppliances: nat)

  /**
   One run: look up the size, compute the breakdown and the total, derive the
   costs, the chart input and the active-appliance count. The total is always
   positive, so the chart and the tips are always shown.
   */
  function Calculate(size: string, sel: Selection): (e: Estimate)
    requires size in BhkOptions
    ensures 1 <= e.bhkNum <= 3 && BhkOptions[e.bhkNum - 1] == size
    ensures Sum(e.breakdown) == e.total && NonNegative(e.breakdown)
    ensures 2.4 <= e.total <= 13.8
    ensures e.monthlyCost == DaysPerMonth * e.dailyCost
    ensures Sum(e.chart) == e.total
    ensures |e.chart| == 2 + e.activeAppliances
    ensures e.breakdown == EnergyBreakdown(e.bhkNum, sel)
    ensures e.total == Total(e.bhkNum, sel)
    ensures e.dailyCost == DailyCost(e.total)
    ensures e.chart == KeepPositive(e.breakdown)
    ensures e.activeAppliances == ActiveCount(sel)
  {
    var n := BhkNum(size);
    var b := EnergyBreakdown(n, sel);
    var t := Total(n, sel);
    BreakdownSumsToTotal(n, sel);
    Estimate(n, b, t, MonthlyCost(t), DailyCost(t), ChartEntries(n, sel), ActiveCount(sel))
  }

  // ---------------------------------------------------------------------
  // Worked examples
  // ---------------------------------------------------------------------

  /** Each label maps to its own number. */
  lemma BhkNumOfEachLabel()
    ensures BhkNum("1BHK") == 1 && BhkNum("2BHK") == 2 && BhkNum("3BHK") == 3
  {
  }

  /** The three worked examples of the calculator and the largest monthly cost. */
  lemma Examples()
    ensures EnergyBreakdown(1, NoAppliances)
      == [Entry("Lights", 0.8), Entry("Fans", 1.6), Entry("AC", 0.0), Entry("Fridge", 0.0), Entry("Washing Machine", 0.0)]
    ensures Total(1, NoAppliances) == 2.4
    ensures Total(2, Selection(true, false, false)) == 6.6
    ensures EnergyBreakdown(3, AllAppliances)
      == [Entry("Lights", 1.6), Entry("Fans", 3.2), Entry("AC", 3.0), Entry("Fridge", 4.0), Entry("Washing Machine", 2.0)]
    ensures Total(3, AllAppliances) == 13.8
    ensures MonthlyCost(13.8) == 59616.0
  {
  }
}
