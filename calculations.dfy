/** The sizing engine of the solar calculator: three read-only equipment
    catalogs, energy unit conversion, battery sizing, panel and inverter
    sizing with a cost breakdown, and the CO2 estimate. Quantities are exact
    reals; `Math.ceil` is `Rounding.Ceil`. */
module Calculations {
  import opened Rounding

  datatype Option<T> = None | Some(value: T)

  // ---------------------------------------------------------------------
  // Equipment records and catalogs
  // ---------------------------------------------------------------------

  /** A battery chemistry. The display name and description are not kept. */
  datatype BatteryType = BatteryType(
    efficiency: real,
    depthOfDischarge: real,
    lifeCycles: int,
    costPerKwh: real)

  datatype SolarPanelType = SolarPanelType(efficiency: real, costPerWatt: real)

  datatype InverterType = InverterType(efficiency: real, costPerWatt: real)

  /** Efficiency and depth of discharge are fractions in (0, 1]; counts and
      prices are not negative. */
  predicate ValidBattery(b: BatteryType) {
    && 0.0 < b.efficiency <= 1.0
    && 0.0 < b.depthOfDischarge <= 1.0
    && b.lifeCycles >= 0
    && b.costPerKwh >= 0.0
  }

  predicate ValidSolarPanel(s: SolarPanelType) {
    0.0 < s.efficiency <= 1.0 && s.costPerWatt >= 0.0
  }

  predicate ValidInverter(i: InverterType) {
    0.0 < i.efficiency <= 1.0 && i.costPerWatt >= 0.0
  }

  const LITHIUM_ION: BatteryType := BatteryType(0.95, 0.8, 5000, 500.0)
  const LEAD_ACID_AGM: BatteryType := BatteryType(0.85, 0.5, 1500, 200.0)
  const LIFEPO4: BatteryType := BatteryType(0.98, 0.9, 7000, 800.0)
  const BATTERY_TYPES: seq<BatteryType> := [LITHIUM_ION, LEAD_ACID_AGM, LIFEPO4]

  const MONOCRYSTALLINE: SolarPanelType := SolarPanelType(0.22, 1.5)
  const POLYCRYSTALLINE: SolarPanelType := SolarPanelType(0.17, 1.0)
  const THIN_FILM: SolarPanelType := SolarPanelType(0.11, 0.7)
  const SOLAR_PANEL_TYPES: seq<SolarPanelType> := [MONOCRYSTALLINE, POLYCRYSTALLINE, THIN_FILM]

  const STRING_INVERTER: InverterType := InverterType(0.96, 0.4)
  const MICROINVERTER: InverterType := InverterType(0.95, 0.6)
  const HYBRID_INVERTER: InverterType := InverterType(0.94, 0.7)
  const INVERTER_TYPES: seq<InverterType> := [STRING_INVERTER, MICROINVERTER, HYBRID_INVERTER]

  /** Every catalog holds three presets, and every preset is a valid record. */
  lemma CatalogsValid()
    ensures |BATTERY_TYPES| == 3 && |SOLAR_PANEL_TYPES| == 3 && |INVERTER_TYPES| == 3
    ensures forall b :: b in BATTERY_TYPES ==> ValidBattery(b)
    ensures forall s :: s in SOLAR_PANEL_TYPES ==> ValidSolarPanel(s)
    ensures forall i :: i in INVERTER_TYPES ==> ValidInverter(i)
  {
  }

  // ---------------------------------------------------------------------
  // Energy unit conversion
  // ---------------------------------------------------------------------

  datatype EnergyUnit = Wh | KWh | MWh

  /** The watt-hours in one of `u`. */
  function WhPerUnit(u: EnergyUnit): (factor: real)
    ensures factor >= 1.0
  {
    match u
    case Wh => 1.0
    case KWh => 1000.0
    case MWh => 1000000.0
  }

  /** The key under which the conversion table lists `u`; every key names a
      multiple of the watt-hour. */
  function UnitKey(u: EnergyUnit): (key: string)
    ensures |key| >= 2 && key[|key| - 2] == 'W' && key[|key| - 1] == 'h'
  {
    match u
    case Wh => "Wh"
    case KWh => "kWh"
    case MWh => "MWh"
  }

  /** Looks a unit up by its table key; an unknown key finds nothing. */
  function UnitFromKey(key: string): (u: Option<EnergyUnit>)
    ensures u.Some? ==> UnitKey(u.value) == key
    ensures u.None? <==> forall unit :: UnitKey(unit) != key
  {
    if key == "Wh" then Some(Wh)
    else if key == "kWh" then Some(KWh)
    else if key == "MWh" then Some(MWh)
    else None
  }

  /** Every unit is found again under its own key. */
  lemma UnitKeyRoundTrip(u: EnergyUnit)
    ensures UnitFromKey(UnitKey(u)) == Some(u)
  {
  }

  /** `value` in `fromUnit`, expressed in `toUnit`: both denote the same
      number of watt-hours. */
  function ConvertEnergy(value: real, fromUnit: EnergyUnit, toUnit: EnergyUnit): (r: real)
    ensures r * WhPerUnit(toUnit) == value * WhPerUnit(fromUnit)
  {
    value * WhPerUnit(fromUnit) / WhPerUnit(toUnit)
  }

  /** Conversion with the units given by their table keys; `None` when
      either key is not in the table. */
  function ConvertEnergyByKey(value: real, fromKey: string, toKey: string): (r: Option<real>)
    ensures r.Some? <==> UnitFromKey(fromKey).Some? && UnitFromKey(toKey).Some?
    ensures r.Some? ==>
      r.value * WhPerUnit(UnitFromKey(toKey).value) == value * WhPerUnit(UnitFromKey(fromKey).value)
  {
    match (UnitFromKey(fromKey), UnitFromKey(toKey))
    case (Some(fromUnit), Some(toUnit)) => Some(ConvertEnergy(value, fromUnit, toUnit))
    case _ => None
  }

  lemma ConvertSameUnit(value: real, u: EnergyUnit)
    ensures ConvertEnergy(value, u, u) == value
  {
  }

  /** Converting there and back returns the original value exactly. */
  lemma ConvertRoundTrip(value: real, u1: EnergyUnit, u2: EnergyUnit)
    ensures ConvertEnergy(ConvertEnergy(value, u1, u2), u2, u1) == value
  {
    var there := ConvertEnergy(value, u1, u2);
    var back := ConvertEnergy(there, u2, u1);
    assert back * WhPerUnit(u1) == value * WhPerUnit(u1);
    CancelPositive(back, value, WhPerUnit(u1));
  }

  /** Converting through an intermediate unit is converting directly. */
  lemma ConvertCompose(value: real, a: EnergyUnit, b: EnergyUnit, c: EnergyUnit)
    ensures ConvertEnergy(ConvertEnergy(value, a, b), b, c) == ConvertEnergy(value, a, c)
  {
    var viaB := ConvertEnergy(ConvertEnergy(value, a, b), b, c);
    var direct := ConvertEnergy(value, a, c);
    assert viaB * WhPerUnit(c) == direct * WhPerUnit(c);
    CancelPositive(viaB, direct, WhPerUnit(c));
  }

  /** The multipliers of the table, as seen through conversion. */
  lemma ConvertMultipliers(value: real)
    ensures ConvertEnergy(value, KWh, Wh) == 1000.0 * value
    ensures ConvertEnergy(value, MWh, Wh) == 1000000.0 * value
    ensures ConvertEnergy(value, MWh, KWh) == 1000.0 * value
    ensures ConvertEnergy(value, Wh, KWh) == value / 1000.0
  {
  }

  /** Multiplication by a positive factor is injective. */
  lemma CancelPositive(x: real, y: real, k: real)
    requires k > 0.0 && x * k == y * k
    ensures x == y
  {
    ScalePositive(x, y, k);
    ScalePositive(y, x, k);
  }

  // ---------------------------------------------------------------------
  // Battery sizing
  // ---------------------------------------------------------------------

  datatype BatterySpecs = BatterySpecs(
    actualCapacity: real,
    ampHours: real,
    recommendedVoltage: real,
    estimatedLifespan: int,
    cost: real)

  /** Nameplate capacity, charge and cost of a bank that can deliver
      `energyWh` within the chemistry's depth of discharge. */
  function CalculateBatterySpecs(energyWh: real, batteryType: BatteryType, systemVoltage: real): (specs: BatterySpecs)
    requires batteryType.depthOfDischarge > 0.0 && systemVoltage > 0.0
    ensures specs.actualCapacity * batteryType.depthOfDischarge == energyWh
    ensures specs.ampHours * systemVoltage == specs.actualCapacity
    ensures specs.recommendedVoltage == systemVoltage
    ensures specs.estimatedLifespan == batteryType.lifeCycles
    ensures specs.cost * 1000.0 == specs.actualCapacity * batteryType.costPerKwh
  {
    var actualCapacity := energyWh / batteryType.depthOfDischarge;
    BatterySpecs(
      actualCapacity,
      actualCapacity / systemVoltage,
      systemVoltage,
      batteryType.lifeCycles,
      (actualCapacity / 1000.0) * batteryType.costPerKwh)
  }

  /** With a depth of discharge of at most 1 the nameplate capacity covers
      the demand, and charge and cost are not negative. */
  lemma CapacityCoversDemand(energyWh: real, batteryType: BatteryType, systemVoltage: real)
    requires ValidBattery(batteryType) && systemVoltage > 0.0 && energyWh >= 0.0
    ensures CalculateBatterySpecs(energyWh, batteryType, systemVoltage).actualCapacity >= energyWh
    ensures CalculateBatterySpecs(energyWh, batteryType, systemVoltage).ampHours >= 0.0
    ensures CalculateBatterySpecs(energyWh, batteryType, systemVoltage).cost >= 0.0
  {
    var specs := CalculateBatterySpecs(energyWh, batteryType, systemVoltage);
    var dod := batteryType.depthOfDischarge;
    ScalePositive(specs.actualCapacity, 0.0, dod);
    MonotoneProduct(dod, 1.0, specs.actualCapacity);
    ScalePositive(specs.ampHours, 0.0, systemVoltage);
  }

  /** Capacity, charge and cost are linear in the energy to store. */
  lemma BatterySpecsScale(energyWh: real, k: real, batteryType: BatteryType, systemVoltage: real)
    requires batteryType.depthOfDischarge > 0.0 && systemVoltage > 0.0
    ensures CalculateBatterySpecs(k * energyWh, batteryType, systemVoltage).actualCapacity
         == k * CalculateBatterySpecs(energyWh, batteryType, systemVoltage).actualCapacity
    ensures CalculateBatterySpecs(k * energyWh, batteryType, systemVoltage).ampHours
         == k * CalculateBatterySpecs(energyWh, batteryType, systemVoltage).ampHours
    ensures CalculateBatterySpecs(k * energyWh, batteryType, systemVoltage).cost
         == k * CalculateBatterySpecs(energyWh, batteryType, systemVoltage).cost
  {
    var one := CalculateBatterySpecs(energyWh, batteryType, systemVoltage);
    var scaled := CalculateBatterySpecs(k * energyWh, batteryType, systemVoltage);
    var dod := batteryType.depthOfDischarge;
    assert scaled.actualCapacity * dod == (k * one.actualCapacity) * dod;
    CancelPositive(scaled.actualCapacity, k * one.actualCapacity, dod);
    assert scaled.ampHours * systemVoltage == (k * one.ampHours) * systemVoltage;
    CancelPositive(scaled.ampHours, k * one.ampHours, systemVoltage);
    assert scaled.cost * 1000.0 == (k * one.cost) * 1000.0;
  }

  // ---------------------------------------------------------------------
  // Panel and inverter sizing
  // ---------------------------------------------------------------------

  /** Fixed derating for wiring and dust losses. */
  const WIRING_LOSS_FACTOR: real := 0.9
  /** Fixed surge margin of the inverter over the array. */
  const INVERTER_MARGIN: real := 1.2

  /** Fraction of the harvested energy that reaches the load: panel,
      inverter and wiring losses combined. */
  function SystemEfficiency(solarType: SolarPanelType, inverterType: InverterType): (eff: real)
    ensures solarType.efficiency > 0.0 && inverterType.efficiency > 0.0 ==> eff > 0.0
    ensures ValidSolarPanel(solarType) && ValidInverter(inverterType) ==> eff <= WIRING_LOSS_FACTOR
  {
    var e := solarType.efficiency * inverterType.efficiency * WIRING_LOSS_FACTOR;
    ProductOfFractions(solarType.efficiency, inverterType.efficiency);
    e
  }

  lemma ProductOfFractions(x: real, y: real)
    ensures x > 0.0 && y > 0.0 ==> x * y > 0.0
    ensures 0.0 < x <= 1.0 && 0.0 < y <= 1.0 ==> x * y <= 1.0
  {
    if 0.0 < x <= 1.0 && 0.0 < y <= 1.0 {
      assert x * y <= x * 1.0;
    }
  }

  /** The panel rating in whole watts: the energy to harvest a day (the
      usage inflated by the system losses) spread over the peak sun hours,
      rounded up. */
  function PanelWattage(dailyUsageWh: real, peakSunHours: real, solarType: SolarPanelType, inverterType: InverterType): (w: int)
    requires solarType.efficiency > 0.0 && inverterType.efficiency > 0.0 && peakSunHours > 0.0
  {
    var requiredDailyEnergy := dailyUsageWh / SystemEfficiency(solarType, inverterType);
    Ceil(requiredDailyEnergy / peakSunHours)
  }

  /** The panel rating is the least whole number of watts whose yield over
      the peak sun hours, after system losses, covers the daily usage: it
      yields enough, one watt less does not, and no other whole number has
      both properties. */
  lemma WattageCoversDailyUsage(dailyUsageWh: real, peakSunHours: real, solarType: SolarPanelType, inverterType: InverterType, w: int)
    requires solarType.efficiency > 0.0 && inverterType.efficiency > 0.0 && peakSunHours > 0.0
    ensures w == PanelWattage(dailyUsageWh, peakSunHours, solarType, inverterType) <==>
      && w as real * (peakSunHours * SystemEfficiency(solarType, inverterType)) >= dailyUsageWh
      && (w - 1) as real * (peakSunHours * SystemEfficiency(solarType, inverterType)) < dailyUsageWh
  {
    YieldBracket(dailyUsageWh, SystemEfficiency(solarType, inverterType), peakSunHours, w);
  }

  /** `w` is the ceiling of `d / e / p` exactly when `w` watts over `p` hours
      at efficiency `e` yield at least `d` and `w - 1` watts fall short. */
  lemma YieldBracket(d: real, e: real, p: real, w: int)
    requires e > 0.0 && p > 0.0
    ensures w == Ceil(d / e / p) <==>
      (w as real * (p * e) >= d && (w - 1) as real * (p * e) < d)
  {
    var x := d / e / p;
    var k := p * e;
    assert x * k == d;
    ScalePositive(w as real, x, k);
    assert w as real * k >= x * k <==> w as real * k >= d;
    ScalePositive((w - 1) as real, x, k);
    assert (w - 1) as real >= x <==> (w - 1) as real * k >= x * k;
    assert (w - 1) as real * k >= x * k <==> (w - 1) as real * k >= d;
    if w as real * k >= d && (w - 1) as real * k < d {
      assert w as real >= x;
      assert (w - 1) as real < x;
      CeilUnique(x, w);
    }
    if w == Ceil(x) {
      assert w as real * k >= d;
      assert (w - 1) as real * k < d;
    }
  }

  /** Multiplying by a positive factor keeps the order both ways. */
  lemma ScalePositive(a: real, b: real, k: real)
    requires k > 0.0
    ensures a >= b <==> a * k >= b * k
  {
    if a >= b {
      assert (a - b) * k >= 0.0;
    } else {
      assert (b - a) * k > 0.0;
    }
  }

  /** The inverter rating in whole watts: the least whole number of watts
      that carries the array's rating with the surge margin. */
  function InverterSize(solarPanelWattage: int): (n: int)
    ensures n as real >= INVERTER_MARGIN * solarPanelWattage as real
    ensures (n - 1) as real < INVERTER_MARGIN * solarPanelWattage as real
    ensures solarPanelWattage >= 0 ==> n >= solarPanelWattage
    ensures solarPanelWattage > 0 ==> n > solarPanelWattage
  {
    Ceil(solarPanelWattage as real * INVERTER_MARGIN)
  }

  datatype Costs = Costs(solar: real, battery: real, inverter: real)

  datatype CalculationResult = CalculationResult(
    solarPanelWattage: int,
    batterySpecs: BatterySpecs,
    inverterSize: int,
    costs: Costs,
    totalCost: real,
    systemEfficiency: real)

  /** The cost breakdown of `r` prices its array and inverter at the given
      unit costs and its battery at the battery's own cost, and the total is
      the sum of the three items. */
  predicate PricedAt(r: CalculationResult, solarCostPerWatt: real, inverterCostPerWatt: real) {
    && r.costs == Costs(
         r.solarPanelWattage as real * solarCostPerWatt,
         r.batterySpecs.cost,
         r.inverterSize as real * inverterCostPerWatt)
    && r.totalCost == r.costs.solar + r.costs.battery + r.costs.inverter
  }

  /** Sizes the whole system for a daily load and a backup duration. */
  function CalculateSolarRequirements(
    dailyUsageWh: real,
    peakSunHours: real,
    backupHours: real,
    batteryType: BatteryType,
    solarType: SolarPanelType,
    inverterType: InverterType,
    systemVoltage: real
  ): (r: CalculationResult)
    requires solarType.efficiency > 0.0 && inverterType.efficiency > 0.0 && peakSunHours > 0.0
    requires batteryType.depthOfDischarge > 0.0 && systemVoltage > 0.0
    ensures r.solarPanelWattage == PanelWattage(dailyUsageWh, peakSunHours, solarType, inverterType)
    ensures r.batterySpecs == CalculateBatterySpecs(backupHours * dailyUsageWh, batteryType, systemVoltage)
    ensures r.inverterSize == InverterSize(r.solarPanelWattage)
    ensures PricedAt(r, solarType.costPerWatt, inverterType.costPerWatt)
    ensures r.systemEfficiency == 100.0 * SystemEfficiency(solarType, inverterType)
    ensures 0.0 < r.systemEfficiency
    ensures ValidSolarPanel(solarType) && ValidInverter(inverterType) ==> r.systemEfficiency <= 90.0
  {
    var systemEfficiency := SystemEfficiency(solarType, inverterType);
    var solarPanelWattage := PanelWattage(dailyUsageWh, peakSunHours, solarType, inverterType);
    var batterySpecs := CalculateBatterySpecs(backupHours * dailyUsageWh, batteryType, systemVoltage);
    var inverterSize := InverterSize(solarPanelWattage);
    var costs := Costs(
      solarPanelWattage as real * solarType.costPerWatt,
      batterySpecs.cost,
      inverterSize as real * inverterType.costPerWatt);
    CalculationResult(
      solarPanelWattage,
      batterySpecs,
      inverterSize,
      costs,
      costs.solar + costs.battery + costs.inverter,
      systemEfficiency * 100.0)
  }

  /** The inverter is never smaller than the array, and strictly larger as
      soon as there is any load. */
  lemma InverterCoversArray(
    dailyUsageWh: real, peakSunHours: real, backupHours: real,
    batteryType: BatteryType, solarType: SolarPanelType, inverterType: InverterType,
    systemVoltage: real)
    requires solarType.efficiency > 0.0 && inverterType.efficiency > 0.0 && peakSunHours > 0.0
    requires batteryType.depthOfDischarge > 0.0 && systemVoltage > 0.0
    ensures var r := CalculateSolarRequirements(dailyUsageWh, peakSunHours, backupHours, batteryType, solarType, inverterType, systemVoltage);
            && (dailyUsageWh >= 0.0 ==> 0 <= r.solarPanelWattage <= r.inverterSize)
            && (dailyUsageWh > 0.0 ==> 0 < r.solarPanelWattage < r.inverterSize)
  {
    WattageSign(dailyUsageWh, peakSunHours, solarType, inverterType);
  }

  /** No load needs no panels, a non-negative load never gives a negative
      rating, and any positive load needs at least one watt. */
  lemma WattageSign(dailyUsageWh: real, peakSunHours: real, solarType: SolarPanelType, inverterType: InverterType)
    requires solarType.efficiency > 0.0 && inverterType.efficiency > 0.0 && peakSunHours > 0.0
    ensures dailyUsageWh == 0.0 ==> PanelWattage(dailyUsageWh, peakSunHours, solarType, inverterType) == 0
    ensures dailyUsageWh >= 0.0 ==> PanelWattage(dailyUsageWh, peakSunHours, solarType, inverterType) >= 0
    ensures dailyUsageWh > 0.0 ==> PanelWattage(dailyUsageWh, peakSunHours, solarType, inverterType) > 0
  {
    var w := PanelWattage(dailyUsageWh, peakSunHours, solarType, inverterType);
    var k := peakSunHours * SystemEfficiency(solarType, inverterType);
    WattageCoversDailyUsage(dailyUsageWh, peakSunHours, solarType, inverterType, w);
    ScalePositive(w as real, 0.0, k);
    ScalePositive(0.0, w as real, k);
  }

  /** A larger daily load never gives a smaller array. */
  lemma WattageMonotone(d1: real, d2: real, peakSunHours: real, solarType: SolarPanelType, inverterType: InverterType)
    requires solarType.efficiency > 0.0 && inverterType.efficiency > 0.0 && peakSunHours > 0.0
    requires d1 <= d2
    ensures PanelWattage(d1, peakSunHours, solarType, inverterType) <= PanelWattage(d2, peakSunHours, solarType, inverterType)
  {
    var k := peakSunHours * SystemEfficiency(solarType, inverterType);
    var w1 := PanelWattage(d1, peakSunHours, solarType, inverterType);
    var w2 := PanelWattage(d2, peakSunHours, solarType, inverterType);
    WattageCoversDailyUsage(d1, peakSunHours, solarType, inverterType, w1);
    WattageCoversDailyUsage(d2, peakSunHours, solarType, inverterType, w2);
    assert (w1 - 1) as real * k < d1;
    assert w2 as real * k >= d2;
    WholeStepsMonotone(w1, w2, d1, d2, k);
  }

  /** If `w1 - 1` steps of size `k` fall short of `d1` and `w2` steps reach
      `d2 >= d1`, then `w1 <= w2`. */
  lemma WholeStepsMonotone(w1: int, w2: int, d1: real, d2: real, k: real)
    requires k > 0.0 && d1 <= d2
    requires (w1 - 1) as real * k < d1 && w2 as real * k >= d2
    ensures w1 <= w2
  {
    ScalePositive((w1 - 1) as real, w2 as real, k);
  }

  /** With valid equipment and a non-negative backup time, a larger daily
      load never gives a smaller array, inverter, cost item or total. */
  lemma SizingMonotoneInDailyUsage(
    d1: real, d2: real,
    peakSunHours: real, backupHours: real,
    batteryType: BatteryType, solarType: SolarPanelType, inverterType: InverterType,
    systemVoltage: real)
    requires ValidBattery(batteryType) && ValidSolarPanel(solarType) && ValidInverter(inverterType)
    requires peakSunHours > 0.0 && systemVoltage > 0.0 && backupHours >= 0.0
    requires d1 <= d2
    ensures var r1 := CalculateSolarRequirements(d1, peakSunHours, backupHours, batteryType, solarType, inverterType, systemVoltage);
            var r2 := CalculateSolarRequirements(d2, peakSunHours, backupHours, batteryType, solarType, inverterType, systemVoltage);
            && r1.solarPanelWattage <= r2.solarPanelWattage
            && r1.inverterSize <= r2.inverterSize
            && r1.costs.solar <= r2.costs.solar
            && r1.costs.battery <= r2.costs.battery
            && r1.costs.inverter <= r2.costs.inverter
            && r1.totalCost <= r2.totalCost
  {
    HardwareMonotone(d1, d2, peakSunHours, backupHours, batteryType, solarType, inverterType, systemVoltage);
    CostsMonotone(d1, d2, peakSunHours, backupHours, batteryType, solarType, inverterType, systemVoltage);
  }

  /** The cost items and the total grow with the load. */
  lemma CostsMonotone(
    d1: real, d2: real,
    peakSunHours: real, backupHours: real,
    batteryType: BatteryType, solarType: SolarPanelType, inverterType: InverterType,
    systemVoltage: real)
    requires ValidBattery(batteryType) && ValidSolarPanel(solarType) && ValidInverter(inverterType)
    requires peakSunHours > 0.0 && systemVoltage > 0.0 && backupHours >= 0.0
    requires d1 <= d2
    ensures var r1 := CalculateSolarRequirements(d1, peakSunHours, backupHours, batteryType, solarType, inverterType, systemVoltage);
            var r2 := CalculateSolarRequirements(d2, peakSunHours, backupHours, batteryType, solarType, inverterType, systemVoltage);
            && r1.costs.solar <= r2.costs.solar
            && r1.costs.inverter <= r2.costs.inverter
            && r1.totalCost <= r2.totalCost
  {
    var r1 := CalculateSolarRequirements(d1, peakSunHours, backupHours, batteryType, solarType, inverterType, systemVoltage);
    var r2 := CalculateSolarRequirements(d2, peakSunHours, backupHours, batteryType, solarType, inverterType, systemVoltage);
    HardwareMonotone(d1, d2, peakSunHours, backupHours, batteryType, solarType, inverterType, systemVoltage);
    CostsFollowSizes(r1, r2, solarType.costPerWatt, inverterType.costPerWatt);
  }

  /** The sizes and the battery cost, the parts of the result that do not
      depend on unit prices of panels and inverters, grow with the load. */
  lemma HardwareMonotone(
    d1: real, d2: real,
    peakSunHours: real, backupHours: real,
    batteryType: BatteryType, solarType: SolarPanelType, inverterType: InverterType,
    systemVoltage: real)
    requires ValidBattery(batteryType) && ValidSolarPanel(solarType) && ValidInverter(inverterType)
    requires peakSunHours > 0.0 && systemVoltage > 0.0 && backupHours >= 0.0
    requires d1 <= d2
    ensures var r1 := CalculateSolarRequirements(d1, peakSunHours, backupHours, batteryType, solarType, inverterType, systemVoltage);
            var r2 := CalculateSolarRequirements(d2, peakSunHours, backupHours, batteryType, solarType, inverterType, systemVoltage);
            && r1.solarPanelWattage <= r2.solarPanelWattage
            && r1.inverterSize <= r2.inverterSize
            && r1.batterySpecs.cost <= r2.batterySpecs.cost
  {
    WattageMonotone(d1, d2, peakSunHours, solarType, inverterType);
    InverterSizeMonotone(PanelWattage(d1, peakSunHours, solarType, inverterType), PanelWattage(d2, peakSunHours, solarType, inverterType));
    MonotoneProduct(d1, d2, backupHours);
    BatteryCostMonotone(backupHours * d1, backupHours * d2, batteryType, systemVoltage);
  }

  lemma InverterSizeMonotone(w1: int, w2: int)
    requires w1 <= w2
    ensures InverterSize(w1) <= InverterSize(w2)
  {
    CeilMonotone(w1 as real * INVERTER_MARGIN, w2 as real * INVERTER_MARGIN);
  }

  /** Two results priced at the same non-negative unit costs: the one with
      the larger array, inverter and battery cost costs at least as much in
      every item and in total. */
  lemma CostsFollowSizes(r1: CalculationResult, r2: CalculationResult, solarCostPerWatt: real, inverterCostPerWatt: real)
    requires solarCostPerWatt >= 0.0 && inverterCostPerWatt >= 0.0
    requires PricedAt(r1, solarCostPerWatt, inverterCostPerWatt) && PricedAt(r2, solarCostPerWatt, inverterCostPerWatt)
    requires r1.solarPanelWattage <= r2.solarPanelWattage && r1.inverterSize <= r2.inverterSize
    requires r1.batterySpecs.cost <= r2.batterySpecs.cost
    ensures r1.costs.solar <= r2.costs.solar && r1.costs.inverter <= r2.costs.inverter
    ensures r1.totalCost <= r2.totalCost
  {
    MonotoneProduct(r1.solarPanelWattage as real, r2.solarPanelWattage as real, solarCostPerWatt);
    MonotoneProduct(r1.inverterSize as real, r2.inverterSize as real, inverterCostPerWatt);
  }

  /** `a <= b` and `k >= 0` give `a * k <= b * k`. */
  lemma MonotoneProduct(a: real, b: real, k: real)
    requires a <= b && k >= 0.0
    ensures a * k <= b * k && k * a <= k * b
  {
    assert (b - a) * k >= 0.0;
  }

  lemma BatteryCostMonotone(e1: real, e2: real, batteryType: BatteryType, systemVoltage: real)
    requires ValidBattery(batteryType) && systemVoltage > 0.0 && e1 <= e2
    ensures CalculateBatterySpecs(e1, batteryType, systemVoltage).cost
         <= CalculateBatterySpecs(e2, batteryType, systemVoltage).cost
  {
    var s1 := CalculateBatterySpecs(e1, batteryType, systemVoltage);
    var s2 := CalculateBatterySpecs(e2, batteryType, systemVoltage);
    ScaledOrderReflects(s1.actualCapacity, s2.actualCapacity, e1, e2, batteryType.depthOfDischarge);
    ScaledOrderReflects(s1.cost, s2.cost, s1.actualCapacity * batteryType.costPerKwh, s2.actualCapacity * batteryType.costPerKwh, 1000.0);
  }

  /** Scaling by a positive factor reflects order: if `a1 * k` is at most
      `a2 * k`, then `a1` is at most `a2`. */
  lemma ScaledOrderReflects(a1: real, a2: real, p1: real, p2: real, k: real)
    requires k > 0.0 && a1 * k == p1 && a2 * k == p2 && p1 <= p2
    ensures a1 <= a2
  {
    ScalePositive(a2, a1, k);
  }

  /** With non-negative loads, backup time and prices every cost item, and
      so the total, is non-negative. */
  lemma CostsNonNegative(
    dailyUsageWh: real, peakSunHours: real, backupHours: real,
    batteryType: BatteryType, solarType: SolarPanelType, inverterType: InverterType,
    systemVoltage: real)
    requires ValidBattery(batteryType) && ValidSolarPanel(solarType) && ValidInverter(inverterType)
    requires peakSunHours > 0.0 && systemVoltage > 0.0 && backupHours >= 0.0 && dailyUsageWh >= 0.0
    ensures var r := CalculateSolarRequirements(dailyUsageWh, peakSunHours, backupHours, batteryType, solarType, inverterType, systemVoltage);
            && r.costs.solar >= 0.0 && r.costs.battery >= 0.0 && r.costs.inverter >= 0.0
            && r.totalCost >= 0.0
  {
    var r := CalculateSolarRequirements(dailyUsageWh, peakSunHours, backupHours, batteryType, solarType, inverterType, systemVoltage);
    MonotoneProduct(0.0, r.solarPanelWattage as real, solarType.costPerWatt);
    MonotoneProduct(0.0, r.inverterSize as real, inverterType.costPerWatt);
    MonotoneProduct(0.0, dailyUsageWh, backupHours);
    CapacityCoversDemand(backupHours * dailyUsageWh, batteryType, systemVoltage);
  }

  /** Over the catalogs the system efficiency ranges from 9.306 % (thin film
      with a hybrid inverter) to 19.008 % (monocrystalline with a string
      inverter). */
  lemma CatalogEfficiencyRange(solarType: SolarPanelType, inverterType: InverterType)
    requires solarType in SOLAR_PANEL_TYPES && inverterType in INVERTER_TYPES
    ensures 9.306 <= 100.0 * SystemEfficiency(solarType, inverterType) <= 19.008
    ensures 100.0 * SystemEfficiency(THIN_FILM, HYBRID_INVERTER) == 9.306
    ensures 100.0 * SystemEfficiency(MONOCRYSTALLINE, STRING_INVERTER) == 19.008
  {
  }

  /** Rounding up makes the array size a step function of the load: a
      larger load can give the same wattage. */
  lemma WattageNotStrictlyIncreasing()
    ensures PanelWattage(1.0, 1.0, MONOCRYSTALLINE, STRING_INVERTER)
         == PanelWattage(1.0001, 1.0, MONOCRYSTALLINE, STRING_INVERTER)
         == 6
  {
    var eff := SystemEfficiency(MONOCRYSTALLINE, STRING_INVERTER);
    assert eff == 0.19008;
    YieldBracket(1.0, eff, 1.0, 6);
    YieldBracket(1.0001, eff, 1.0, 6);
  }

  /** The worked example: 5 kWh a day, 4 peak sun hours, 12 hours of backup,
      lithium-ion at 48 V, monocrystalline panels and a string inverter. */
  lemma WorkedExample()
    ensures var r := CalculateSolarRequirements(5000.0, 4.0, 12.0, LITHIUM_ION, MONOCRYSTALLINE, STRING_INVERTER, 48.0);
            && r.systemEfficiency == 19.008
            && r.solarPanelWattage == 6577
            && r.batterySpecs == BatterySpecs(75000.0, 1562.5, 48.0, 5000, 37500.0)
            && r.inverterSize == 7893
            && r.costs == Costs(9865.5, 37500.0, 3157.2)
            && r.totalCost == 50522.7
  {
    ExampleSizes();
    assert CalculateBatterySpecs(12.0 * 5000.0, LITHIUM_ION, 48.0) == BatterySpecs(75000.0, 1562.5, 48.0, 5000, 37500.0);
  }

  /** The array and inverter of the worked example. */
  lemma ExampleSizes()
    ensures PanelWattage(5000.0, 4.0, MONOCRYSTALLINE, STRING_INVERTER) == 6577
    ensures InverterSize(6577) == 7893
  {
    var eff := SystemEfficiency(MONOCRYSTALLINE, STRING_INVERTER);
    assert eff == 0.19008;
    YieldBracket(5000.0, eff, 4.0, 6577);
    CeilUnique(6577.0 * INVERTER_MARGIN, 7893);
  }

  // ---------------------------------------------------------------------
  // CO2 estimate
  // ---------------------------------------------------------------------

  /** Kilograms of CO2 avoided per kWh of grid energy. */
  const CO2_KG_PER_KWH: real := 0.4

  /** The least whole number of kilograms not below the emissions of
      `annualKwh` of grid energy. */
  function CalculateCO2Savings(annualKwh: real): (kg: int)
    ensures kg as real >= CO2_KG_PER_KWH * annualKwh
    ensures (kg - 1) as real < CO2_KG_PER_KWH * annualKwh
  {
    Ceil(annualKwh * CO2_KG_PER_KWH)
  }

  lemma CO2Monotone(k1: real, k2: real)
    requires k1 <= k2
    ensures CalculateCO2Savings(k1) <= CalculateCO2Savings(k2)
  {
    CeilMonotone(k1 * CO2_KG_PER_KWH, k2 * CO2_KG_PER_KWH);
  }

  /** Doubling the energy doubles the estimate up to one kilogram of
      rounding. */
  lemma CO2Doubling(annualKwh: real)
    ensures 2 * CalculateCO2Savings(annualKwh) - 1 <= CalculateCO2Savings(2.0 * annualKwh)
    ensures CalculateCO2Savings(2.0 * annualKwh) <= 2 * CalculateCO2Savings(annualKwh)
  {
  }

  lemma CO2OfThousandKwh()
    ensures CalculateCO2Savings(1000.0) == 400
  {
  }
}
