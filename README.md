# Solar system sizing engine — a Dafny model

This project models the calculation engine of the WattWise solar calculator
(`src/app/utils/calculations.ts`). It covers the following:

- three read-only equipment catalogs: battery chemistries, solar panel types
  and inverter types;
- conversion of energy between Wh, kWh and MWh;
- battery sizing: depth-of-discharge derating, amp-hours and cost;
- panel and inverter sizing. This covers system efficiency, the panel
  wattage rounded up, and the inverter rounded up with a 20 % margin. It
  also covers the cost breakdown and its total;
- the annual CO2 estimate at 0.4 kg per kWh, rounded up.

The engine has no loops and no mutable state, so the model is entirely
functional. The datatypes are the records of the source. The functions are
its formulas, and the lemmas state what those formulas guarantee.

Quantities are exact `real`s. `Math.ceil` is `Rounding.Ceil`: the least
integer that is not below its argument. The energy unit is a three-constructor
datatype. The source indexes a string-keyed table, and that lookup is modelled
separately by `UnitFromKey` and `ConvertEnergyByKey`. There, an unknown key
gives `None`.

Files:

- `rounding.dfy` (module `Rounding`): `Ceil` and its characterisation.
- `calculations.dfy` (module `Calculations`): catalogs, conversion, battery
  sizing, system sizing, CO2 estimate, and the lemmas about them.

Notes on the arithmetic:

- The worked example is 5 kWh a day, 4 peak sun hours and 12 h of backup,
  with lithium-ion at 48 V, monocrystalline panels and a string inverter. In
  exact arithmetic, 5000 / 0.19008 ≈ 26304.71, and divided by 4 this is
  ≈ 6576.18. So the code sizes the array at 6577 W and the inverter at
  ceil(7892.4) = 7893 W. The costs are 9865.5 for the array, 37500 for the
  battery and 3157.2 for the inverter, a total of 50522.7. `WorkedExample`
  proves these figures.
- The array size grows with the daily load only non-strictly, because the
  code rounds it up to whole watts. `WattageMonotone` proves that it never
  decreases. `WattageNotStrictlyIncreasing` shows two different loads that
  give the same wattage.

## Model

| member | source | states |
|---|---|---|
| `Rounding.Ceil` | src/app/utils/calculations.ts:131 | `Math.ceil`: the result is an integer n with x <= n < x + 1, the least integer not below x |
| `Calculations.CatalogsValid` | src/app/utils/calculations.ts:24-91 | each catalog holds three presets. Every battery has efficiency and depth of discharge in (0, 1] and non-negative cycles and price. Every panel and inverter has efficiency in (0, 1] and a non-negative price per watt |
| `Calculations.WhPerUnit` | src/app/utils/calculations.ts:94-98 | the watt-hours in one unit of the `toWh` table: 1 for Wh, 1000 for kWh, 1,000,000 for MWh; every multiplier is at least 1 |
| `Calculations.UnitKey` | src/app/utils/calculations.ts:94-98 | the string key of each unit in the `toWh` table ("Wh", "kWh", "MWh"); every key ends in "Wh" |
| `Calculations.UnitFromKey` | src/app/utils/calculations.ts:94-98 | a key is found exactly when it is the key of some unit ("Wh", "kWh", "MWh"), and the unit found is listed under that key |
| `Calculations.UnitKeyRoundTrip` | src/app/utils/calculations.ts:94-98 | every unit is found again under its own table key |
| `Calculations.ConvertEnergy` | src/app/utils/calculations.ts:93-102 | the converted value times the target unit's Wh multiplier equals the input times the source unit's multiplier, so both denote the same watt-hours |
| `Calculations.ConvertEnergyByKey` | src/app/utils/calculations.ts:93-102 | with string keys, there is a result exactly when both keys are in the table, and then it denotes the same watt-hours as the input |
| `Calculations.ConvertSameUnit` | src/app/utils/calculations.ts:93-102 | converting to the same unit is the identity |
| `Calculations.ConvertRoundTrip` | src/app/utils/calculations.ts:93-102 | converting u1 to u2 and back to u1 returns the original value exactly |
| `Calculations.ConvertCompose` | src/app/utils/calculations.ts:93-102 | converting a to b and then b to c is the same as converting a to c |
| `Calculations.ConvertMultipliers` | src/app/utils/calculations.ts:94-101 | kWh to Wh multiplies by 1000, MWh to Wh by 1,000,000, MWh to kWh by 1000, and Wh to kWh divides by 1000 |
| `Calculations.CalculateBatterySpecs` | src/app/utils/calculations.ts:104-118 | actualCapacity × depthOfDischarge = energyWh and ampHours × systemVoltage = actualCapacity. The voltage and life cycles pass through unchanged. cost × 1000 = actualCapacity × costPerKwh, so the cost is costPerKwh per kWh of nameplate capacity |
| `Calculations.CapacityCoversDemand` | src/app/utils/calculations.ts:109-116 | for a valid battery, i.e. any catalog battery, and a non-negative demand: actualCapacity >= energyWh, and amp-hours and cost are non-negative |
| `Calculations.BatterySpecsScale` | src/app/utils/calculations.ts:109-116 | capacity, amp-hours and cost are linear in the energy to store |
| `Calculations.BatteryCostMonotone` | src/app/utils/calculations.ts:109-116 | more energy to store never costs less |
| `Calculations.SystemEfficiency` | src/app/utils/calculations.ts:129 | the combined efficiency is positive when both efficiencies are, and at most the 0.9 wiring factor for efficiencies in (0, 1] |
| `Calculations.PanelWattage` | src/app/utils/calculations.ts:129-131 | the panel wattage, `Math.ceil(dailyUsageWh / efficiency / peakSunHours)`. The function has no `ensures` of its own; `WattageCoversDailyUsage` characterises it |
| `Calculations.WattageCoversDailyUsage` | src/app/utils/calculations.ts:129-131 | w is the panel wattage if and only if w watts over the peak sun hours, after system losses, yield at least the daily usage and w − 1 watts do not. So it is the least whole wattage that covers the load |
| `Calculations.WattageSign` | src/app/utils/calculations.ts:129-131 | a zero load gives a wattage of 0, a non-negative load a wattage of at least 0, and a positive load a wattage of at least 1 W |
| `Calculations.WattageMonotone` | src/app/utils/calculations.ts:129-131 | the panel wattage is non-decreasing in the daily usage |
| `Calculations.WattageNotStrictlyIncreasing` | src/app/utils/calculations.ts:131 | two different daily loads (1 and 1.0001 Wh) give the same 6 W array, so growth is not strict |
| `Calculations.InverterSize` | src/app/utils/calculations.ts:139 | the inverter is the least whole wattage that is at least 1.2 × the array. It is never smaller than a non-negative array and strictly larger than a positive one |
| `Calculations.InverterSizeMonotone` | src/app/utils/calculations.ts:139 | a larger array never gets a smaller inverter |
| `Calculations.PricedAt` | src/app/utils/calculations.ts:141-152 | the cost breakdown: the array and inverter priced per watt, the battery at its own cost, and the total as the sum of the three items. A predicate without `ensures`; `CalculateSolarRequirements` ensures it of its result |
| `Calculations.CalculateSolarRequirements` | src/app/utils/calculations.ts:120-155 | the array is `PanelWattage` and the battery is `CalculateBatterySpecs(backupHours × dailyUsageWh, …)`. The inverter is `InverterSize` of the array. Costs price the array and inverter per watt, and the battery cost is the battery's own cost. The total is the sum of the three items. The returned efficiency is 100 × the system efficiency, in (0, 90] for valid panel and inverter |
| `Calculations.InverterCoversArray` | src/app/utils/calculations.ts:131-139 | for a non-negative load, 0 <= array <= inverter; for a positive load, 0 < array < inverter |
| `Calculations.HardwareMonotone` | src/app/utils/calculations.ts:129-139 | for valid equipment and a non-negative backup time, a larger daily load never gives a smaller array, inverter or battery cost |
| `Calculations.CostsFollowSizes` | src/app/utils/calculations.ts:141-152 | at the same non-negative unit prices, a larger array, inverter and battery cost give cost items and a total that are at least as large |
| `Calculations.CostsMonotone` | src/app/utils/calculations.ts:141-152 | for valid equipment and a non-negative backup time, a larger daily load never gives a smaller solar cost, inverter cost or total |
| `Calculations.SizingMonotoneInDailyUsage` | src/app/utils/calculations.ts:120-155 | for valid equipment and a non-negative backup time, with the other inputs fixed, a larger daily load never decreases the array, the inverter, any cost item or the total |
| `Calculations.CostsNonNegative` | src/app/utils/calculations.ts:141-152 | with non-negative inputs and valid equipment, every cost item and the total are non-negative |
| `Calculations.CatalogEfficiencyRange` | src/app/utils/calculations.ts:51-91 | over the catalogs, the returned system efficiency lies in [9.306, 19.008] percent. Both bounds are attained: thin film with a hybrid inverter, and monocrystalline with a string inverter |
| `Calculations.ExampleSizes` | src/app/utils/calculations.ts:129-139 | 5 kWh a day at 4 peak sun hours with a monocrystalline panel and a string inverter gives a 6577 W array and a 7893 W inverter |
| `Calculations.WorkedExample` | src/app/utils/calculations.ts:120-155 | the full result for that example with 12 h backup, lithium-ion at 48 V: efficiency 19.008 %, array 6577 W, battery 75000 Wh / 1562.5 Ah / cost 37500, inverter 7893 W, costs 9865.5 / 37500 / 3157.2, total 50522.7 |
| `Calculations.CalculateCO2Savings` | src/app/utils/calculations.ts:157-160 | the estimate is the least whole number of kilograms not below 0.4 × annualKwh |
| `Calculations.CO2Monotone` | src/app/utils/calculations.ts:157-160 | the estimate is non-decreasing in the annual energy |
| `Calculations.CO2Doubling` | src/app/utils/calculations.ts:157-160 | doubling the energy gives between 2 × estimate − 1 and 2 × estimate |
| `Calculations.CO2OfThousandKwh` | src/app/utils/calculations.ts:157-160 | 1000 kWh gives 400 kg |

## Left out

- The React page (`src/app/page.tsx`) is not part of this model. That
  includes its form state, tooltips, `toFixed` display formatting and the
  lookup of catalog records by display name. It also includes the caller's
  own composition: it converts the input to Wh before sizing, and to kWh
  × 365 before the CO2 estimate.
- IEEE-754 rounding: all quantities are exact reals. Equalities such as
  0.22 × 0.96 × 0.9 = 0.19008 hold over reals, and floating-point error is
  not reproduced.
- Unknown unit strings: the source multiplies by a missing table entry and
  silently yields NaN. The model types units as a datatype. The keyed lookup
  (`ConvertEnergyByKey`) returns `None` instead of a non-finite number.
- Non-positive divisors: a depth of discharge, system voltage, peak sun
  hours or efficiency of zero makes the source produce Infinity or NaN, and
  a negative one makes it produce finite but negative sizes (for example a
  negative wattage from negative peak sun hours). `CalculateBatterySpecs`,
  `PanelWattage` and `CalculateSolarRequirements` require these divisors to
  be positive, so neither the non-finite results nor the results for
  negative divisors are modelled.
- The `name` and `description` strings of catalog entries are display text
  and are not kept. Catalog entries are named constants instead
  (`LITHIUM_ION`, `MONOCRYSTALLINE`, `STRING_INVERTER`, …).
- The battery `efficiency` field is kept in the record, but, as in the
  source, no calculation reads it.
