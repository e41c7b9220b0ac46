/**
 * The static emission-factor table and the emissions calculator
 * (src/utils/calculations.ts), plus the minute bucketing of `getTimeAgo`.
 */
module Calculations {
  import opened Types

  /** Kilograms of CO2 per km. */
  const TransportationFactors: map<string, real> := map[
    "Car (Petrol)" := 0.21,
    "Car (Diesel)" := 0.17,
    "Car (Electric)" := 0.05,
    "Public Transport" := 0.05,
    "Cycling" := 0.0,
    "Walking" := 0.0,
    "Flight (Domestic)" := 0.25,
    "Flight (International)" := 0.30,
    "Motorcycle" := 0.15,
    "Taxi/Uber" := 0.19]

  /** Kilograms of CO2 per kWh. */
  const EnergyFactors: map<string, real> := map[
    "Electricity" := 0.32,
    "Natural Gas" := 0.18,
    "Heating Oil" := 0.27,
    "Solar" := 0.02,
    "Wind" := 0.01]

  /** Kilograms of CO2 per kg of food. */
  const FoodFactors: map<string, real> := map[
    "Beef" := 27.0,
    "Lamb" := 24.5,
    "Pork" := 7.6,
    "Chicken" := 5.7,
    "Fish" := 5.1,
    "Dairy" := 3.2,
    "Vegetables" := 0.4,
    "Fruits" := 0.7,
    "Grains" := 1.1,
    "Plant-based meal" := 1.5,
    "Restaurant meal" := 4.0]

  /** Kilograms of CO2 per kg of waste. */
  const WasteFactors: map<string, real> := map[
    "General Waste" := 0.5,
    "Recycling" := 0.1,
    "Compost" := 0.05,
    "Electronic Waste" := 2.0]

  /** Kilograms of CO2 per event. */
  const DigitalFactors: map<string, real> := map[
    "Streaming (1 hour)" := 0.036,
    "Video Call (1 hour)" := 0.15,
    "Email" := 0.004,
    "Social Media (1 hour)" := 0.08,
    "Online Shopping" := 0.5]

  /** `emissionFactors[category]`: every category has a table. */
  function EmissionFactors(c: Category): map<string, real>
  {
    match c
    case Transportation => TransportationFactors
    case Energy => EnergyFactors
    case Food => FoodFactors
    case Waste => WasteFactors
    case Digital => DigitalFactors
  }

  /**
   * `calculateEmissions`: the factor times the amount. A type missing from the
   * category's table reads as `undefined`, which is falsy, so the result is 0;
   * a zero factor is falsy too and gives 0 as well.
   */
  function CalculateEmissions(c: Category, activityType: string, amount: real): (r: real)
    ensures activityType in EmissionFactors(c) ==> r == EmissionFactors(c)[activityType] * amount
    ensures activityType !in EmissionFactors(c) ==> r == 0.0
  {
    var table := EmissionFactors(c);
    if activityType in table && table[activityType] != 0.0 then table[activityType] * amount else 0.0
  }

  /** A factor table with no negative factor. */
  predicate NonNegativeTable(m: map<string, real>)
  {
    forall t :: t in m ==> m[t] >= 0.0
  }

  lemma TransportationNonNegative()
    ensures NonNegativeTable(TransportationFactors)
  {
  }
  lemma EnergyNonNegative()
    ensures NonNegativeTable(EnergyFactors)
  {
  }
  lemma FoodNonNegative()
    ensures NonNegativeTable(FoodFactors)
  {
  }
  lemma WasteNonNegative()
    ensures NonNegativeTable(WasteFactors)
  {
  }
  lemma DigitalNonNegative()
    ensures NonNegativeTable(DigitalFactors)
  {
  }

  /** Every factor in the table is non-negative. */
  lemma FactorsNonNegative(c: Category, t: string)
    requires t in EmissionFactors(c)
    ensures EmissionFactors(c)[t] >= 0.0
  {
    match c
    case Transportation => TransportationNonNegative();
    case Energy => EnergyNonNegative();
    case Food => FoodNonNegative();
    case Waste => WasteNonNegative();
    case Digital => DigitalNonNegative();
  }

  /** A non-negative amount never gives negative emissions. */
  lemma EmissionsNonNegative(c: Category, t: string, amount: real)
    requires amount >= 0.0
    ensures CalculateEmissions(c, t, amount) >= 0.0
  {
    if t in EmissionFactors(c) {
      FactorsNonNegative(c, t);
    }
  }

  /** Cycling and Walking have a zero factor and emit nothing whatever the distance. */
  lemma ZeroFactorTypes(amount: real)
    ensures CalculateEmissions(Transportation, "Cycling", amount) == 0.0
    ensures CalculateEmissions(Transportation, "Walking", amount) == 0.0
  {
  }

  /** 25 km by petrol car and 12 kWh of electricity. */
  lemma WorkedExamples()
    ensures CalculateEmissions(Transportation, "Car (Petrol)", 25.0) == 5.25
    ensures CalculateEmissions(Energy, "Electricity", 12.0) == 3.84
  {
  }

  /** What `getTimeAgo` reports: a count of minutes, hours or days. */
  datatype TimeAgo = MinutesAgo(minutes: int) | HoursAgo(hours: int) | DaysAgo(days: int)

  /**
   * `Math.floor((now - past) / (1000 * 60))` on two instants in milliseconds;
   * it is negative when `past` lies in the future.
   */
  function DiffInMinutes(nowMs: int, pastMs: int): (d: int)
    ensures d * 60000 <= nowMs - pastMs < (d + 1) * 60000
  {
    (nowMs - pastMs) / 60000
  }

  /** The branch of `getTimeAgo` taken for a difference of `d` minutes. */
  function GetTimeAgo(d: int): (r: TimeAgo)
    ensures r.MinutesAgo? <==> d < 60
    ensures r.MinutesAgo? ==> r.minutes == d
    ensures r.HoursAgo? <==> 60 <= d < 1440
    ensures r.HoursAgo? ==> 1 <= r.hours <= 23 && r.hours * 60 <= d < (r.hours + 1) * 60
    ensures r.DaysAgo? <==> d >= 1440
    ensures r.DaysAgo? ==> r.days >= 1 && r.days * 1440 <= d < (r.days + 1) * 1440
  {
    if d < 60 then MinutesAgo(d)
    else if d < 1440 then HoursAgo(d / 60)
    else DaysAgo(d / 1440)
  }
}
