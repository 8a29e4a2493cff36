/**
  Properties of the engine: the guard, sum and normalisation identities each phase
  promises, the closed forms that show what the per-MJ normalisations cancel, and the
  behaviour of the efficiency and credit metrics.
 */
module EngineProperties {
  import opened Options
  import opened EmissionFactors
  import opened LandUse
  import opened Engine

  // ---------------------------------------------------------------------------
  // Tables
  // ---------------------------------------------------------------------------

  /**
    In every state the two pine entries coincide, the three eucalyptus entries coincide,
    and pine and eucalyptus land always move in the same direction.
   */
  lemma ForestryEntriesAgree(s: State)
    ensures MutFactor(s, Pine) == MutFactor(s, WoodResidue)
    ensures MutFactor(s, Eucalyptus) == MutFactor(s, EucalyptusCharcoal) == MutFactor(s, VirginEucalyptus)
    ensures MutFactor(s, Pine) > 0.0 <==> MutFactor(s, Eucalyptus) > 0.0
    ensures MutFactor(s, Pine) < 0.0 <==> MutFactor(s, Eucalyptus) < 0.0
  {
  }

  // ---------------------------------------------------------------------------
  // Agricultural phase and land-use change
  // ---------------------------------------------------------------------------

  /** With the default yield factor and no additive the phase is emission times heat value. */
  lemma AgriculturalBase(x: Biomass)
    ensures AgriculturalPhase(Some(x), None, None) == AgriculturalEmission(x) * HeatValue(Some(x))
    ensures AgriculturalPhase(Some(x), Some(1.0), None) == AgriculturalEmission(x) * HeatValue(Some(x))
  {
  }

  /** A corn starch additive adds its own emission, scaled by the heat value, and nothing else. */
  lemma CornStarchAdds(x: Biomass, yieldFactor: Option<real>, starch: real)
    ensures AgriculturalPhase(Some(x), yieldFactor, Some(starch))
         == AgriculturalPhase(Some(x), yieldFactor, None) + starch * CornStarchFactor * HeatValue(Some(x))
  {
  }

  /** Eucalyptus residue at yield factor 1: 0.0251 x 15.8 = 0.39658. */
  lemma EucalyptusResidueScenario()
    ensures AgriculturalPhase(Some(Eucalyptus), Some(1.0), None) == 0.39658
  {
  }

  /** A larger yield factor never lowers the agricultural phase. */
  lemma AgriculturalMonotoneInYield(x: Biomass, y1: real, y2: real, starch: Option<real>)
    requires y1 <= y2
    ensures AgriculturalPhase(Some(x), Some(y1), starch) <= AgriculturalPhase(Some(x), Some(y2), starch)
  {
  }

  /**
    The agricultural phase is proportional to the yield factor: together with
    `AgriculturalBase` and `CornStarchAdds` this fixes its value for every input.
   */
  lemma AgriculturalScalesWithYield(x: Biomass, y: real)
    ensures AgriculturalPhase(Some(x), Some(y), None) == y * AgriculturalPhase(Some(x), None, None)
  {
  }

  /**
    The land-use phase is the looked-up table entry, scaled by the heat value and by the
    allocation percentage (100 when absent): at full allocation it is the entry times PC.
   */
  lemma LandUseIsAllocatedEntry(b: Option<Biomass>, allocationPct: Option<real>, s: Option<State>)
    ensures 100.0 * LandUsePhase(b, allocationPct, s) == allocationPct.GetOr(100.0) * (MutValue(b, s) * HeatValue(b))
    ensures LandUsePhase(b, None, s) == MutValue(b, s) * HeatValue(b)
  {
    var m, pc := MutValue(b, s), HeatValue(b);
    if b.Some? && s.Some? {
      assert LandUsePhase(b, allocationPct, s) == AllocatedLandUse(m, allocationPct.GetOr(100.0), pc);
      assert LandUsePhase(b, None, s) == AllocatedLandUse(m, 100.0, pc);
    }
  }

  // ---------------------------------------------------------------------------
  // Biomass transport
  // ---------------------------------------------------------------------------

  /** The transport phase does not depend on how much biomass is moved. */
  lemma TransportIndependentOfQuantity(d: real, v: Truck, q1: real, q2: real, b: Option<Biomass>)
    requires q1 != 0.0 && q2 != 0.0
    ensures BiomassTransportPhase(Some(d), Some(v), Some(q1), b) == BiomassTransportPhase(Some(d), Some(v), Some(q2), b)
  {
  }

  /** 1000 t over 150 km by medium truck, eucalyptus heat value: 0.098 x 150 / 15800. */
  lemma MediumTruckScenario()
    ensures BiomassTransportPhase(Some(150.0), Some(MediumTruck), Some(1000000.0), Some(Eucalyptus)) == 14.7 / 15800.0
  {
  }

  // ---------------------------------------------------------------------------
  // Industrial phase
  // ---------------------------------------------------------------------------

  /**
    With an annual production, the industrial phase is the plant's whole annual emission
    (every absent consumption counted as 0) normalised per MJ: times the production it is
    that emission times the heat value.
   */
  lemma IndustrialPerMJ(p: Plant, b: Option<Biomass>)
    requires p.production.Some? && p.production.value != 0.0
    ensures IndustrialPhase(p, b) == PerMJ(AnnualPlantEmission(p, b), p.production.value, HeatValue(b))
  {
    IndustrialIsSum(p, b);
    PerMJSum(ElectricityAnnual(p), FuelsAnnual(p), CogenerationAnnual(p, b), InputsAnnual(p),
             p.production.value, HeatValue(b));
  }

  /** Without an annual production every industrial sub-phase, and so the phase, is 0. */
  lemma IndustrialNeedsProduction(p: Plant, b: Option<Biomass>)
    requires p.production.None?
    ensures ElectricitySubphase(p, b) == FuelsSubphase(p, b) == CogenerationSubphase(p, b) == InputsSubphase(p, b) == 0.0
    ensures IndustrialPhase(p, b) == 0.0
  {
  }

  /** A missing or unknown electricity source is charged as the medium-voltage grid mix. */
  lemma UnknownSourceIsMediumVoltage(p: Plant, b: Option<Biomass>)
    requires p.electricitySource.None?
    requires p.electricity.Some? && p.production.Some? ==> p.production.value != 0.0
    ensures ElectricitySubphase(p, b) == ElectricitySubphase(p.(electricitySource := Some(GridMediumVoltage)), b)
  {
  }

  // ---------------------------------------------------------------------------
  // Distribution phase
  // ---------------------------------------------------------------------------

  /**
    The road share only ever adds emission: when rail and waterway take 100 % or more the
    leg is charged for rail and waterway alone, at their full percentages.
   */
  lemma RoadShareNeverNegative(km: real, rail: Option<real>, water: Option<real>, road: Option<Truck>)
    requires km >= 0.0
    ensures ModalEmissionPerTonne(km, rail, water, road)
         >= km * (rail.GetOr(0.0) / 100.0 * RailFactor) + km * (water.GetOr(0.0) / 100.0 * BargeFactor)
    ensures rail.GetOr(0.0) + water.GetOr(0.0) >= 100.0 ==>
      ModalEmissionPerTonne(km, rail, water, road)
      == km * (rail.GetOr(0.0) / 100.0 * RailFactor) + km * (water.GetOr(0.0) / 100.0 * BargeFactor)
  {
    var share := RoadShare(rail, water);
    if share > 0.0 {
      assert share * RoadFactor(road) >= 0.0;
      assert RoadPerTonne(km, share, RoadFactor(road)) >= 0.0;
    }
  }

  /**
    Over a non-negative distance with non-negative rail and waterway percentages a leg's
    emission is never negative, whatever road share is left, and so neither is the raw
    emission of a non-negative quantity.
   */
  lemma LegNeverNegative(q: real, km: real, rail: Option<real>, water: Option<real>, road: Option<Truck>)
    requires q >= 0.0 && km >= 0.0 && rail.GetOr(0.0) >= 0.0 && water.GetOr(0.0) >= 0.0
    ensures ModalEmissionPerTonne(km, rail, water, road) >= 0.0
    ensures LegImpact(q, km, rail, water, road) >= 0.0
  {
    RoadShareNeverNegative(km, rail, water, road);
    NonNegativeProduct(rail.GetOr(0.0) / 100.0, RailFactor);
    NonNegativeProduct(km, rail.GetOr(0.0) / 100.0 * RailFactor);
    NonNegativeProduct(water.GetOr(0.0) / 100.0, BargeFactor);
    NonNegativeProduct(km, water.GetOr(0.0) / 100.0 * BargeFactor);
    NonNegativeProduct(q, ModalEmissionPerTonne(km, rail, water, road));
  }

  /**
    For a positive quantity the domestic leg is the per-tonne emission of the modal split
    expressed per MJ: the quantity cancels out.
   */
  lemma DomesticClosedForm(d: DomesticShipment, b: Option<Biomass>)
    requires d.quantity.Some? && d.quantity.value > 0.0 && d.distance.Some?
    ensures DomesticLeg(d, b)
         == PerTonneToMJ(ModalEmissionPerTonne(d.distance.value, d.railPct, d.waterwayPct, d.roadVehicle), HeatValue(b))
  {
    var q := d.quantity.value;
    PerTonneCancels(DomesticLeg(d, b), q,
                    LegImpact(q, d.distance.value, d.railPct, d.waterwayPct, d.roadVehicle),
                    ModalEmissionPerTonne(d.distance.value, d.railPct, d.waterwayPct, d.roadVehicle), HeatValue(b));
  }

  /**
    With no rail and no waterway share, whether left empty or given as 0, the domestic leg
    is a pure road computation at the selected truck's factor, or 0.098 when no truck is
    selected.
   */
  lemma DomesticRoadOnly(q: real, km: real, rail: Option<real>, water: Option<real>, road: Option<Truck>, b: Option<Biomass>)
    requires q > 0.0
    requires rail.GetOr(0.0) == 0.0 && water.GetOr(0.0) == 0.0
    ensures DomesticLeg(DomesticShipment(Some(q), Some(km), rail, water, road), b)
         == PerTonneToMJ(km * RoadFactor(road), HeatValue(b))
    ensures DomesticLeg(DomesticShipment(Some(q), Some(km), rail, water, None), b)
         == PerTonneToMJ(km * 0.098, HeatValue(b))
  {
    DomesticClosedForm(DomesticShipment(Some(q), Some(km), rail, water, road), b);
    DomesticClosedForm(DomesticShipment(Some(q), Some(km), rail, water, None), b);
    RoadCarriesAll(km, rail, water, road);
    RoadCarriesAll(km, rail, water, None);
  }

  /** With no rail and no waterway percentage, empty or 0, the road carries the whole leg. */
  lemma RoadCarriesAll(km: real, rail: Option<real>, water: Option<real>, road: Option<Truck>)
    requires rail.GetOr(0.0) == 0.0 && water.GetOr(0.0) == 0.0
    ensures ModalEmissionPerTonne(km, rail, water, road) == km * RoadFactor(road)
  {
    assert RoadShare(rail, water) == 1.0;
  }

  /** The raw emission of the export leg equals the quantity times its per-tonne emission. */
  lemma ExportImpactPerTonne(q: real, e: ExportShipment)
    ensures ExportImpact(e, q) == q * ExportEmissionPerTonne(e)
  {
    var toPort := match e.factoryToPort
      case None => 0.0
      case Some(km) => ModalEmissionPerTonne(km, e.railPct, e.waterwayPct, e.roadVehicle);
    var toPortImpact := match e.factoryToPort
      case None => 0.0
      case Some(km) => LegImpact(q, km, e.railPct, e.waterwayPct, e.roadVehicle);
    assert toPortImpact == q * toPort;
    Distribute(q, toPortImpact, if e.portToMarket.Some? then q * e.portToMarket.value * ShipFactor else 0.0, 0.0,
               toPort, e.portToMarket.GetOr(0.0) * ShipFactor, 0.0);
  }

  /**
    For a positive quantity the export leg is its per-tonne emission expressed per MJ: the
    quantity cancels out.
   */
  lemma ExportClosedForm(e: ExportShipment, b: Option<Biomass>)
    requires e.quantity.Some? && e.quantity.value > 0.0
    ensures ExportLeg(e, b) == PerTonneToMJ(ExportEmissionPerTonne(e), HeatValue(b))
  {
    var q := e.quantity.value;
    ExportImpactPerTonne(q, e);
    PerTonneCancels(ExportLeg(e, b), q, ExportImpact(e, q), ExportEmissionPerTonne(e), HeatValue(b));
  }

  /** The sea leg is charged even when no factory-to-port distance is given. */
  lemma ExportSeaLegAlone(e: ExportShipment, b: Option<Biomass>)
    requires e.quantity.Some? && e.quantity.value > 0.0 && e.factoryToPort.None?
    ensures ExportLeg(e, b) == PerTonneToMJ(e.portToMarket.GetOr(0.0) * ShipFactor, HeatValue(b))
  {
    ExportClosedForm(e, b);
    assert ExportEmissionPerTonne(e) == e.portToMarket.GetOr(0.0) * ShipFactor;
  }

  // ---------------------------------------------------------------------------
  // End use
  // ---------------------------------------------------------------------------

  /** At 100 % efficiency the end use is the stationary factor itself; at 0 % it is 0. */
  lemma EndUseBoundaries(b: Option<Biomass>)
    ensures EndUsePhase(Some(100.0), b) == StationaryFactor(b)
    ensures EndUsePhase(Some(0.0), b) == 0.0
    ensures EndUsePhase(None, b) * 0.85 == StationaryFactor(b)
  {
  }

  /** A more efficient combustion never raises the end-use phase. */
  lemma EndUseMonotone(e1: real, e2: real, b: Option<Biomass>)
    requires 0.0 < e1 <= e2
    ensures EndUsePhase(Some(e2), b) <= EndUsePhase(Some(e1), b)
  {
    var s := StationaryFactor(b);
    var r1 := EndUsePhase(Some(e1), b);
    var r2 := EndUsePhase(Some(e2), b);
    assert r1 * (e1 / 100.0) == s && r2 * (e2 / 100.0) == s;
    assert r2 * (e1 / 100.0) <= r2 * (e2 / 100.0);
    assert (r1 - r2) * (e1 / 100.0) >= 0.0;
  }

  // ---------------------------------------------------------------------------
  // Efficiency and credits
  // ---------------------------------------------------------------------------

  /** A lower total never lowers the efficiency. */
  lemma EfficiencyMonotone(t1: real, t2: real)
    requires t1 <= t2
    ensures Efficiency(t2) <= Efficiency(t1)
  {
  }

  /** A lower total never yields fewer credits, for a non-negative annual volume. */
  lemma CreditsMonotone(b: Option<Biomass>, volume: real, t1: real, t2: real)
    requires volume >= 0.0 && t1 <= t2
    ensures Credits(b, Some(volume), t2) <= Credits(b, Some(volume), t1)
  {
    if Efficiency(t2) > 0.0 {
      var k := HeatValue(b) * (volume / 1000.0);
      assert k >= 0.0;
      assert k * (FossilReference - t2) <= k * (FossilReference - t1);
      FloorMonotone(k * (FossilReference - t2), k * (FossilReference - t1));
    }
  }

  // ---------------------------------------------------------------------------
  // The whole calculation
  // ---------------------------------------------------------------------------

  /** The total is the six phase functions applied to the input, and nothing else. */
  lemma TotalIsPhaseSum(input: Input)
    requires WellFormed(input)
    ensures
      var b := input.biomass;
      CalculateAll(input).total
      == AgriculturalPhase(b, input.yieldFactor, input.cornStarch)
       + LandUsePhase(b, input.allocationPct, input.state)
       + BiomassTransportPhase(input.transportDistance, input.vehicle, input.biomassQuantity, b)
       + IndustrialPhase(input.plant, b)
       + DistributionPhase(input.domestic, input.exported, b)
       + EndUsePhase(input.efficiencyPct, b)
  {
  }

  /**
    With no biomass selected the biomass-specific phases are 0 and the total is the sum of
    the remaining ones.
   */
  lemma MissingBiomassTotal(input: Input)
    requires WellFormed(input) && input.biomass.None?
    ensures
      var r := CalculateAll(input);
      r.total == r.biomassTransport + r.electricity + r.fuels + r.inputs + r.distribution
  {
  }

  /** A blank form: every phase is 0, the efficiency is 100 % and no credit is issued. */
  lemma BlankForm(d: DomesticShipment, e: ExportShipment)
    requires d.quantity.None? && e.quantity.None?
    ensures
      var plant := Plant(None, None, None, None, None, None, None, None, None);
      var r := CalculateAll(Input(None, None, None, None, None, None, None, None, plant, d, e, None));
      r.total == 0.0 && r.efficiency == 100.0 && r.cbios == 0
  {
  }

  // ---------------------------------------------------------------------------
  // Arithmetic helpers
  // ---------------------------------------------------------------------------

  /** Normalising per MJ distributes over a sum of annual emissions. */
  lemma PerMJSum(a: real, b: real, c: real, d: real, v: real, pc: real)
    ensures v != 0.0 ==>
      PerMJ(a + b + c + d, v, pc) == PerMJ(a, v, pc) + PerMJ(b, v, pc) + PerMJ(c, v, pc) + PerMJ(d, v, pc)
  {
  }

  /** The industrial phase and the plant's annual emission as their four parts. */
  lemma IndustrialIsSum(p: Plant, b: Option<Biomass>)
    ensures p.production != Some(0.0) ==>
      IndustrialPhase(p, b)
      == ElectricitySubphase(p, b) + FuelsSubphase(p, b) + CogenerationSubphase(p, b) + InputsSubphase(p, b)
    ensures AnnualPlantEmission(p, b)
         == ElectricityAnnual(p) + FuelsAnnual(p) + CogenerationAnnual(p, b) + InputsAnnual(p)
  {
  }

  /** A per-MJ value whose raw impact is `q` times a per-tonne value does not depend on `q`. */
  lemma PerTonneCancels(r: real, q: real, impact: real, perTonne: real, pc: real)
    ensures pc > 0.0 && q > 0.0 && r * (q * 1000.0) == impact * pc && impact == q * perTonne ==>
      r == PerTonneToMJ(perTonne, pc)
  {
    if pc > 0.0 && q > 0.0 && r * (q * 1000.0) == impact * pc && impact == q * perTonne {
      assert q * (r * 1000.0) == q * (perTonne * pc);
      CancelPositive(r * 1000.0, perTonne * pc, q);
      CancelPositive(r, PerTonneToMJ(perTonne, pc), 1000.0);
    }
  }

  lemma NonNegativeProduct(x: real, y: real)
    ensures x >= 0.0 && y >= 0.0 ==> x * y >= 0.0
  {
  }

  lemma CancelPositive(x: real, y: real, k: real)
    requires k != 0.0 && k * x == k * y
    ensures x == y
  {
  }

  lemma FloorMonotone(x: real, y: real)
    requires x <= y
    ensures x.Floor <= y.Floor
  {
  }
}
