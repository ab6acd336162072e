/**
 * Battery and inverter sizing: total load from the appliance catalog and the
 * user's custom appliances, required battery capacity (Ah) and inverter rating
 * (VA), and the threshold bands that map those to one of four product pairs.
 */
module BatteryCalculator {
  import opened RealMath

  /** An entry of the fixed appliance catalog. */
  datatype Appliance = Appliance(id: string, name: string, wattage: nat, unit: string)

  /** An appliance the user described: wattage and quantity per entry. */
  datatype CustomAppliance = CustomAppliance(name: string, wattage: nat, quantity: nat)

  /** The catalog, in display order. */
  const Appliances: seq<Appliance> := [
    Appliance("lights", "Lights", 60, "each"),
    Appliance("fans", "Fans", 75, "each"),
    Appliance("tv", "TV", 150, ""),
    Appliance("fridge", "Refrigerator", 200, ""),
    Appliance("computer", "Computer", 200, ""),
    Appliance("ac", "Air Conditioner", 1500, "each"),
    Appliance("pump", "Water Pump", 750, ""),
    Appliance("washing_machine", "Washing Machine", 500, "")
  ]

  /** Catalog ids are keys: no two entries share one. */
  ghost predicate UniqueIds(catalog: seq<Appliance>) {
    forall i, j :: 0 <= i < j < |catalog| ==> catalog[i].id != catalog[j].id
  }

  /** The quantity selected for `id`; an id absent from the selection counts as 0. */
  function QuantityOf(selection: map<string, nat>, id: string): nat {
    if id in selection then selection[id] else 0
  }

  /** Sum over the catalog entries of wattage times selected quantity. */
  function CatalogLoad(selection: map<string, nat>, catalog: seq<Appliance>): nat {
    if catalog == [] then 0
    else
      var last := catalog[|catalog| - 1];
      CatalogLoad(selection, catalog[..|catalog| - 1]) + last.wattage * QuantityOf(selection, last.id)
  }

  /** Sum over the custom appliances of wattage times quantity. */
  function CustomLoad(customs: seq<CustomAppliance>): nat {
    if customs == [] then 0
    else
      var last := customs[|customs| - 1];
      CustomLoad(customs[..|customs| - 1]) + last.wattage * last.quantity
  }

  /** The total load in watts: the catalog part plus the custom part. */
  function TotalLoad(selection: map<string, nat>, customs: seq<CustomAppliance>): nat {
    CatalogLoad(selection, Appliances) + CustomLoad(customs)
  }

  /** calculateTotalLoad: accumulates the load over the catalog, then over the custom list. */
  method CalculateTotalLoad(selection: map<string, nat>, customs: seq<CustomAppliance>) returns (totalLoad: nat)
    ensures totalLoad == CatalogLoad(selection, Appliances) + CustomLoad(customs)
  {
    totalLoad := 0;
    for i := 0 to |Appliances|
      invariant totalLoad == CatalogLoad(selection, Appliances[..i])
    {
      var appliance := Appliances[i];
      var quantity := QuantityOf(selection, appliance.id);
      assert Appliances[..i + 1][..i] == Appliances[..i];
      totalLoad := totalLoad + appliance.wattage * quantity;
    }
    assert Appliances[..|Appliances|] == Appliances;
    var catalogPart := totalLoad;
    for j := 0 to |customs|
      invariant totalLoad == catalogPart + CustomLoad(customs[..j])
    {
      var custom := customs[j];
      assert customs[..j + 1][..j] == customs[..j];
      totalLoad := totalLoad + custom.wattage * custom.quantity;
    }
    assert customs[..|customs|] == customs;
  }

  /** The catalog load is zero exactly when every catalog entry with a positive wattage has quantity 0. */
  lemma {:induction false} CatalogLoadZero(selection: map<string, nat>, catalog: seq<Appliance>)
    ensures CatalogLoad(selection, catalog) == 0
        <==> forall i :: 0 <= i < |catalog| ==> catalog[i].wattage * QuantityOf(selection, catalog[i].id) == 0
  {
    if catalog != [] {
      var init := catalog[..|catalog| - 1];
      CatalogLoadZero(selection, init);
      assert forall i :: 0 <= i < |init| ==> init[i] == catalog[i];
    }
  }

  /** The custom load is zero exactly when every custom entry contributes zero watts. */
  lemma {:induction false} CustomLoadZero(customs: seq<CustomAppliance>)
    ensures CustomLoad(customs) == 0 <==> forall i :: 0 <= i < |customs| ==> customs[i].wattage * customs[i].quantity == 0
  {
    if customs != [] {
      var init := customs[..|customs| - 1];
      CustomLoadZero(init);
      assert forall i :: 0 <= i < |init| ==> init[i] == customs[i];
    }
  }

  /**
   * Load is 0 exactly when no catalog appliance is selected and no custom appliance
   * draws power; every catalog wattage is positive.
   */
  lemma TotalLoadZero(selection: map<string, nat>, customs: seq<CustomAppliance>)
    ensures TotalLoad(selection, customs) == 0
        <==> ((forall i :: 0 <= i < |Appliances| ==> QuantityOf(selection, Appliances[i].id) == 0)
              && (forall j :: 0 <= j < |customs| ==> customs[j].wattage * customs[j].quantity == 0))
  {
    CatalogLoadZero(selection, Appliances);
    CustomLoadZero(customs);
    assert forall i :: 0 <= i < |Appliances| ==> Appliances[i].wattage > 0;
  }

  /**
   * Setting the quantity of a catalog id changes the load by that entry's wattage
   * times the change in quantity; every other entry contributes as before.
   */
  lemma {:induction false} CatalogLoadUpdate(selection: map<string, nat>, catalog: seq<Appliance>, k: nat, q: nat)
    requires UniqueIds(catalog) && k < |catalog|
    ensures CatalogLoad(selection[catalog[k].id := q], catalog) + catalog[k].wattage * QuantityOf(selection, catalog[k].id)
         == CatalogLoad(selection, catalog) + catalog[k].wattage * q
  {
    var id := catalog[k].id;
    var updated := selection[id := q];
    var n := |catalog| - 1;
    var init := catalog[..n];
    if k == n {
      assert forall i :: 0 <= i < |init| ==> init[i].id != id;
      CatalogLoadOtherKey(selection, init, id, q);
    } else {
      assert init[k] == catalog[k];
      CatalogLoadUpdate(selection, init, k, q);
      assert catalog[n].id != id;
    }
  }

  /** A key that no catalog entry uses does not affect the catalog load. */
  lemma {:induction false} CatalogLoadOtherKey(selection: map<string, nat>, catalog: seq<Appliance>, id: string, q: nat)
    requires forall i :: 0 <= i < |catalog| ==> catalog[i].id != id
    ensures CatalogLoad(selection[id := q], catalog) == CatalogLoad(selection, catalog)
  {
    if catalog != [] {
      var init := catalog[..|catalog| - 1];
      CatalogLoadOtherKey(selection, init, id, q);
    }
  }

  /** The empty selection gives a catalog load of 0. */
  lemma {:induction false} CatalogLoadEmpty(catalog: seq<Appliance>)
    ensures CatalogLoad(map[], catalog) == 0
  {
    if catalog != [] {
      CatalogLoadEmpty(catalog[..|catalog| - 1]);
    }
  }

  // ---------------------------------------------------------------------------
  // Capacity and inverter rating

  /** Nominal system voltage (V) and battery efficiency of the sizing formula. */
  const SystemVoltage: real := 12.0
  const BatteryEfficiency: real := 0.8
  /** Inverter safety margin for inrush and peak load. */
  const InverterMargin: real := 1.25

  /** The battery capacity the load needs for `hours`, before rounding. */
  function ExactCapacity(load: nat, hours: real): real {
    load as real * hours / SystemVoltage / BatteryEfficiency
  }

  /** calculateBatteryCapacity: required Ah is the least integer not below load * hours / 12 / 0.8. */
  function BatteryCapacity(load: nat, hours: real): (ah: int)
    ensures ExactCapacity(load, hours) <= ah as real < ExactCapacity(load, hours) + 1.0
  {
    Ceil(ExactCapacity(load, hours))
  }

  /** calculateInverterSize: required VA is the least integer not below load * 1.25. */
  function InverterSize(load: nat): (va: nat)
    ensures load as real * InverterMargin <= va as real < load as real * InverterMargin + 1.0
  {
    Ceil(load as real * InverterMargin)
  }

  /** Required Ah never decreases as the load grows (for a non-negative backup time). */
  lemma BatteryCapacityMonotoneInLoad(load1: nat, load2: nat, hours: real)
    requires load1 <= load2 && hours >= 0.0
    ensures BatteryCapacity(load1, hours) <= BatteryCapacity(load2, hours)
  {
    assert load1 as real * hours <= load2 as real * hours;
    CeilMonotone(ExactCapacity(load1, hours), ExactCapacity(load2, hours));
  }

  /** Required Ah never decreases as the backup time grows. */
  lemma BatteryCapacityMonotoneInHours(load: nat, hours1: real, hours2: real)
    requires hours1 <= hours2
    ensures BatteryCapacity(load, hours1) <= BatteryCapacity(load, hours2)
  {
    assert load as real * hours1 <= load as real * hours2;
    CeilMonotone(ExactCapacity(load, hours1), ExactCapacity(load, hours2));
  }

  /** Required VA never decreases as the load grows. */
  lemma InverterSizeMonotone(load1: nat, load2: nat)
    requires load1 <= load2
    ensures InverterSize(load1) <= InverterSize(load2)
  {
    CeilMonotone(load1 as real * InverterMargin, load2 as real * InverterMargin);
  }

  // ---------------------------------------------------------------------------
  // Product bands

  /** A catalog product record: name, capacity label and spec lines. */
  datatype Product = Product(name: string, capacity: string, specs: seq<string>)

  /** The four outcomes of the threshold chain, in the order they are tried. */
  datatype Band = NoLoad | Base | Mid | Industrial

  /** The explanation shown with each band; the load and hours are the values it interpolates. */
  datatype Explanation =
    | SelectAppliancesPrompt
    | ReliableCombo(load: nat, hours: real)
    | PremiumCombo(load: nat, hours: real)
    | IndustrialQuote(load: nat, hours: real)

  datatype Recommendation = Recommendation(
    battery: Product,
    inverter: Product,
    explanation: Explanation,
    totalLoad: nat,
    backupHours: real,
    requiredBatteryAh: int,
    requiredInverterVA: nat)

  const NoBattery := Product("No battery needed", "0Ah", ["Please select appliances to get recommendation"])
  const NoInverter := Product("No inverter needed", "0VA", ["Please select appliances to get recommendation"])
  const Battery150 := Product("Exide Inverter Battery 150Ah", "150Ah",
    ["Capacity: 150Ah", "Warranty: 48 Months", "Type: Tubular", "Voltage: 12V"])
  const Inverter1050 := Product("Exide 1050VA Inverter", "1050VA",
    ["Capacity: 1050VA", "Pure Sine Wave", "Overload Protection", "Digital Display"])
  const Battery200 := Product("Exide Inva Master 200Ah", "200Ah",
    ["Capacity: 200Ah", "Warranty: 60 Months", "Type: Tubular", "Voltage: 12V"])
  const Inverter1500 := Product("Exide 1500VA MPPT", "1500VA MPPT",
    ["Capacity: 1500VA", "MPPT Technology", "Solar Compatible", "LCD Display"])
  const BatteryMultiple := Product("Exide Inva Master 200Ah (Multiple Units)", "200Ah+",
    ["Capacity: 200Ah per unit", "Multiple batteries recommended", "Warranty: 60 Months", "Type: Tubular"])
  const InverterIndustrial := Product("Exide Industrial Inverter", "2000VA+",
    ["High capacity system", "MPPT Technology", "Contact for custom solution", "Industrial grade"])

  /** Position of a band in the chain. */
  function Rank(b: Band): nat {
    match b
    case NoLoad => 0
    case Base => 1
    case Mid => 2
    case Industrial => 3
  }

  /** Whether a rated band (Base or Mid) covers the required Ah and VA. */
  predicate Covers(b: Band, ah: int, va: int) {
    match b
    case Base => ah <= 150 && va <= 1050
    case Mid => ah <= 200 && va <= 1500
    case _ => false
  }

  /**
   * The threshold chain, first match wins: no load; else the first rated pair that
   * covers the requirement; else the industrial fallback.
   */
  function SelectBand(load: nat, ah: int, va: int): (b: Band)
    ensures b == NoLoad <==> load == 0
    ensures load > 0 && b != Industrial ==> Covers(b, ah, va)
    ensures forall c: Band :: 0 < Rank(c) < Rank(b) ==> !Covers(c, ah, va)
  {
    if load == 0 then NoLoad
    else if ah <= 150 && va <= 1050 then Base
    else if ah <= 200 && va <= 1500 then Mid
    else Industrial
  }

  function BatteryFor(b: Band): Product {
    match b
    case NoLoad => NoBattery
    case Base => Battery150
    case Mid => Battery200
    case Industrial => BatteryMultiple
  }

  function InverterFor(b: Band): Product {
    match b
    case NoLoad => NoInverter
    case Base => Inverter1050
    case Mid => Inverter1500
    case Industrial => InverterIndustrial
  }

  function ExplanationFor(b: Band, load: nat, hours: real): Explanation {
    match b
    case NoLoad => SelectAppliancesPrompt
    case Base => ReliableCombo(load, hours)
    case Mid => PremiumCombo(load, hours)
    case Industrial => IndustrialQuote(load, hours)
  }

  /** The band the load and backup time select. */
  function BandOf(load: nat, hours: real): Band {
    SelectBand(load, BatteryCapacity(load, hours), InverterSize(load))
  }

  /** The recommendation for a selection, a backup time and a custom list. */
  function Recommend(selection: map<string, nat>, hours: real, customs: seq<CustomAppliance>): Recommendation {
    var load := TotalLoad(selection, customs);
    var band := BandOf(load, hours);
    Recommendation(BatteryFor(band), InverterFor(band), ExplanationFor(band, load, hours),
      load, hours, BatteryCapacity(load, hours), InverterSize(load))
  }

  /** calculateRealTime: computes the load and requirements and assigns the pair through the chain. */
  method CalculateRealTime(selection: map<string, nat>, backupHours: real, customs: seq<CustomAppliance>)
    returns (rec: Recommendation)
    ensures rec == Recommend(selection, backupHours, customs)
    ensures rec.totalLoad == TotalLoad(selection, customs) && rec.backupHours == backupHours
    ensures rec.requiredBatteryAh == BatteryCapacity(rec.totalLoad, backupHours)
    ensures rec.requiredInverterVA == InverterSize(rec.totalLoad)
  {
    var totalLoad := CalculateTotalLoad(selection, customs);
    var requiredBatteryAh := BatteryCapacity(totalLoad, backupHours);
    var requiredInverterVA := InverterSize(totalLoad);
    var battery, inverter, explanation;
    if totalLoad == 0 {
      battery, inverter := NoBattery, NoInverter;
      explanation := SelectAppliancesPrompt;
    } else if requiredBatteryAh <= 150 && requiredInverterVA <= 1050 {
      battery, inverter := Battery150, Inverter1050;
      explanation := ReliableCombo(totalLoad, backupHours);
    } else if requiredBatteryAh <= 200 && requiredInverterVA <= 1500 {
      battery, inverter := Battery200, Inverter1500;
      explanation := PremiumCombo(totalLoad, backupHours);
    } else {
      battery, inverter := BatteryMultiple, InverterIndustrial;
      explanation := IndustrialQuote(totalLoad, backupHours);
    }
    rec := Recommendation(battery, inverter, explanation, totalLoad, backupHours, requiredBatteryAh, requiredInverterVA);
  }

  /** A zero load always yields the placeholder pair, the prompt, and 0 Ah and 0 VA. */
  lemma ZeroLoadPlaceholder(selection: map<string, nat>, hours: real, customs: seq<CustomAppliance>)
    requires TotalLoad(selection, customs) == 0
    ensures var rec := Recommend(selection, hours, customs);
      rec.battery == NoBattery && rec.inverter == NoInverter && rec.explanation == SelectAppliancesPrompt
      && rec.requiredBatteryAh == 0 && rec.requiredInverterVA == 0
  {
    CeilUnique(ExactCapacity(0, hours), 0);
    CeilUnique(0.0 * InverterMargin, 0);
  }

  /**
   * For a positive load the rated pair chosen covers the requirement, no earlier
   * rated pair does, and the industrial pair is chosen only when neither covers it.
   */
  lemma PositiveLoadBand(selection: map<string, nat>, hours: real, customs: seq<CustomAppliance>)
    requires TotalLoad(selection, customs) > 0
    ensures var rec := Recommend(selection, hours, customs);
      var ah, va := rec.requiredBatteryAh, rec.requiredInverterVA;
      && (rec.battery == Battery150 <==> ah <= 150 && va <= 1050)
      && (rec.battery == Battery200 <==> !(ah <= 150 && va <= 1050) && ah <= 200 && va <= 1500)
      && (rec.battery == BatteryMultiple <==> !(ah <= 200 && va <= 1500))
      && (rec.battery == Battery150 <==> rec.inverter == Inverter1050)
      && (rec.battery == Battery200 <==> rec.inverter == Inverter1500)
      && (rec.battery == BatteryMultiple <==> rec.inverter == InverterIndustrial)
  {
    var rec := Recommend(selection, hours, customs);
    var b := BandOf(rec.totalLoad, hours);
    assert rec.battery == BatteryFor(b);
    assert Rank(b) == 3 ==> !Covers(Base, rec.requiredBatteryAh, rec.requiredInverterVA) && !Covers(Mid, rec.requiredBatteryAh, rec.requiredInverterVA);
  }

  /**
   * At a fixed backup time, more load never selects an earlier band. With negative
   * hours the required Ah is at most 0, so the band is decided by the VA alone.
   */
  lemma BandMonotone(load1: nat, load2: nat, hours: real)
    requires load1 <= load2
    ensures Rank(BandOf(load1, hours)) <= Rank(BandOf(load2, hours))
  {
    if hours >= 0.0 {
      BatteryCapacityMonotoneInLoad(load1, load2, hours);
    } else {
      assert load1 as real * hours <= 0.0 && load2 as real * hours <= 0.0;
      assert BatteryCapacity(load1, hours) <= 0 && BatteryCapacity(load2, hours) <= 0;
    }
    InverterSizeMonotone(load1, load2);
  }

  /** Four lights and two fans for 4 hours: 390 W, 163 Ah, 488 VA, so the 200Ah / 1500VA pair. */
  lemma ExampleLightsAndFans()
    ensures var rec := Recommend(map["lights" := 4, "fans" := 2], 4.0, []);
      rec.totalLoad == 390 && rec.requiredBatteryAh == 163 && rec.requiredInverterVA == 488
      && rec.battery == Battery200 && rec.inverter == Inverter1500
  {
    LightsAndFansLoad();
    CeilUnique(ExactCapacity(390, 4.0), 163);
    CeilUnique(390.0 * InverterMargin, 488);
    assert SelectBand(390, 163, 488) == Mid;
  }

  /** The load of four lights and two fans, built up one catalog update at a time. */
  lemma LightsAndFansLoad()
    ensures TotalLoad(map["lights" := 4, "fans" := 2], []) == 390
  {
    var lights := map[]["lights" := 4];
    assert UniqueIds(Appliances);
    CatalogLoadEmpty(Appliances);
    CatalogLoadUpdate(map[], Appliances, 0, 4);
    CatalogLoadUpdate(lights, Appliances, 1, 2);
    assert lights["fans" := 2] == map["lights" := 4, "fans" := 2];
  }
}
