/**
  The updated calculation engine (`BioCalcEngineAtualizado`): six life-cycle phases,
  each normalised by the heat value of the selected biomass, summed into a total, compared
  with the fossil comparator and turned into a whole number of credits (CBIOs).

  The source keeps a mutable accumulator that every phase writes and whose early returns
  leave it at 0; here every phase is a pure function and `CalculateAll` assembles the
  result record in the same order.
 */
module Engine {
  import opened Options
  import opened EmissionFactors
  import opened LandUse

  /** The plant's annual data used by the industrial phase. */
  datatype Plant = Plant(
    production: Option<real>,                      // producaoAnual
    electricity: Option<real>,                     // consumoEletricidade, kWh
    electricitySource: Option<ElectricitySource>,  // tipoEletricidade
    diesel: Option<real>,                          // consumoDiesel, L
    naturalGas: Option<real>,                      // consumoGasNatural, Nm3
    burnedBiomass: Option<real>,                   // biomassaQueimada, kg
    water: Option<real>,                           // consumoAgua, L
    oil: Option<real>,                             // consumoOleo, kg
    sand: Option<real>)                            // consumoAreia, kg

  /** Shipment to the domestic market. */
  datatype DomesticShipment = DomesticShipment(
    quantity: Option<real>,      // quantidadeTransportada
    distance: Option<real>,      // distanciaDistribuicao, km
    railPct: Option<real>,       // percentualFerroviario
    waterwayPct: Option<real>,   // percentualHidroviario
    roadVehicle: Option<Truck>)  // tipoVeiculoRodoviario

  /** Shipment for export: a leg from the factory to the port, then a sea leg. */
  datatype ExportShipment = ExportShipment(
    quantity: Option<real>,       // exportacaoQuantidade
    factoryToPort: Option<real>,  // distanciaFabricaPorto, km
    portToMarket: Option<real>,   // distanciaPortoMercado, km
    roadVehicle: Option<Truck>,   // tipoVeiculoPorto
    railPct: Option<real>,        // percentualFerroviarioPorto
    waterwayPct: Option<real>)    // percentualHidroviarioPorto

  /** The whole input record of one calculation. */
  datatype Input = Input(
    biomass: Option<Biomass>,           // biomassaType
    yieldFactor: Option<real>,          // fatorEspecifico, 1 when absent
    cornStarch: Option<real>,           // amidoMilho
    allocationPct: Option<real>,        // percentualAlocacao, 100 when absent
    state: Option<State>,               // estadoProducao
    transportDistance: Option<real>,    // distanciaTransporte, km
    vehicle: Option<Truck>,             // tipoVeiculo
    biomassQuantity: Option<real>,      // quantidadeBiomassa, kg
    plant: Plant,
    domestic: DomesticShipment,
    exported: ExportShipment,
    efficiencyPct: Option<real>)        // eficienciaUso, 85 when absent

  /** The result record (`resultados`). */
  datatype Results = Results(
    agricultural: real,      // fase_agricola
    landUse: real,           // mut
    biomassTransport: real,  // transporte_biomassa
    industrial: real,        // fase_industrial
    electricity: real,       // eletricidade
    fuels: real,             // combustiveis
    cogeneration: real,      // cogeração
    inputs: real,            // insumos
    distribution: real,      // distribuicao
    endUse: real,            // uso
    total: real,
    efficiency: real,        // eficiencia_ambiental, percent
    cbios: int)

  // ---------------------------------------------------------------------------
  // Agricultural phase and land-use change
  // ---------------------------------------------------------------------------

  /**
    Agricultural phase: the biomass emission scaled by the heat value and the yield
    factor, plus the corn starch additive when one is given. No biomass, no emission.
   */
  function AgriculturalPhase(b: Option<Biomass>, yieldFactor: Option<real>, cornStarch: Option<real>): (r: real)
    ensures b.None? ==> r == 0.0
    ensures b.Some? && yieldFactor.GetOr(1.0) >= 0.0 && cornStarch.GetOr(0.0) >= 0.0 ==> r >= 0.0
    ensures b.Some? && yieldFactor.GetOr(1.0) > 0.0 && cornStarch.GetOr(0.0) >= 0.0 ==> r > 0.0
  {
    match b
    case None => 0.0
    case Some(x) =>
      var pc := HeatValue(b);
      var impact := AgriculturalEmission(x) * pc * yieldFactor.GetOr(1.0);
      match cornStarch
      case None => impact
      case Some(starch) => impact + starch * CornStarchFactor * pc
  }

  /**
    A land-use entry allocated to the product and scaled by the heat value. With a positive
    allocation the result has the sign of the entry: an uptake stays a credit.
   */
  function AllocatedLandUse(entry: real, allocationPct: real, pc: real): (r: real)
    requires pc > 0.0
    ensures allocationPct > 0.0 ==> (r > 0.0 <==> entry > 0.0) && (r < 0.0 <==> entry < 0.0)
    ensures 100.0 * r == allocationPct * (entry * pc)
  {
    var r := entry * (allocationPct / 100.0) * pc;
    assert allocationPct > 0.0 ==> allocationPct / 100.0 > 0.0;
    assert allocationPct > 0.0 && entry > 0.0 ==> entry * (allocationPct / 100.0) > 0.0;
    assert allocationPct > 0.0 && entry < 0.0 ==> entry * (allocationPct / 100.0) < 0.0;
    r
  }

  /**
    Land-use change: the state's table entry scaled by the allocation percentage (100 when
    absent) and the heat value. Missing biomass or state gives 0; with a positive allocation
    the result has the sign of the table entry, so it can be a net uptake.
   */
  function LandUsePhase(b: Option<Biomass>, allocationPct: Option<real>, s: Option<State>): (r: real)
    ensures b.None? || s.None? ==> r == 0.0
    ensures b.Some? && s.Some? && allocationPct.GetOr(100.0) > 0.0 ==>
      && (r > 0.0 <==> MutFactor(s.value, b.value) > 0.0)
      && (r < 0.0 <==> MutFactor(s.value, b.value) < 0.0)
  {
    if b.None? || s.None? then 0.0
    else AllocatedLandUse(MutValue(b, s), allocationPct.GetOr(100.0), HeatValue(b))
  }

  // ---------------------------------------------------------------------------
  // Biomass transport
  // ---------------------------------------------------------------------------

  /** The source divides by the transported quantity without checking it is nonzero. */
  predicate TransportDefined(distance: Option<real>, vehicle: Option<Truck>, quantity: Option<real>)
  {
    distance.Some? && vehicle.Some? && quantity.Some? ==> quantity.value != 0.0
  }

  /**
    Biomass transport: the truck's t.km emission over the quantity in tonnes and the
    distance, per MJ of the transported biomass. The quantity cancels out.
   */
  function BiomassTransportPhase(distance: Option<real>, vehicle: Option<Truck>, quantity: Option<real>, b: Option<Biomass>): (r: real)
    requires TransportDefined(distance, vehicle, quantity)
    ensures distance.None? || vehicle.None? || quantity.None? ==> r == 0.0
    ensures distance.Some? && vehicle.Some? && quantity.Some? ==>
      r * (1000.0 * HeatValue(b)) == TruckFactor(vehicle.value) * distance.value
  {
    if distance.None? || vehicle.None? || quantity.None? then 0.0
    else
      var pc := HeatValue(b);
      var q := quantity.value;
      var tonnes := q / 1000.0;
      var impact := TruckFactor(vehicle.value) * (tonnes * distance.value);
      TransportPerMJ(impact, q, pc, TruckFactor(vehicle.value), distance.value)
  }

  /** `impact / (q * pc)` where `impact` is `f * (q / 1000 * d)`: the quantity cancels. */
  function TransportPerMJ(impact: real, q: real, pc: real, f: real, d: real): (r: real)
    requires q != 0.0 && pc > 0.0
    requires impact == f * (q / 1000.0 * d)
    ensures r * (1000.0 * pc) == f * d
  {
    var r := impact / (q * pc);
    assert r * (q * pc) == impact;
    assert q * (r * 1000.0 * pc) == q * (f * d) by {
      calc {
        q * (r * 1000.0 * pc);
        1000.0 * (r * (q * pc));
        1000.0 * impact;
        q * (f * d);
      }
    }
    r
  }

  // ---------------------------------------------------------------------------
  // Industrial phase
  // ---------------------------------------------------------------------------

  /**
    An annual emission normalised per MJ: divided by the annual production and scaled by
    the heat value, as every industrial sub-phase does.
   */
  function PerMJ(annual: real, volume: real, pc: real): (r: real)
    requires volume != 0.0
    ensures r * volume == annual * pc
  {
    annual * (1.0 / volume) * pc
  }

  /**
    Electricity: the annual consumption times the grid factor (0.502 for a missing or
    unknown source), per unit of annual production, scaled by the heat value.
   */
  function ElectricitySubphase(p: Plant, b: Option<Biomass>): (r: real)
    requires p.electricity.Some? && p.production.Some? ==> p.production.value != 0.0
    ensures p.electricity.None? || p.production.None? ==> r == 0.0
    ensures p.production.Some? && p.production.value != 0.0 ==>
      r == PerMJ(ElectricityAnnual(p), p.production.value, HeatValue(b))
  {
    if p.electricity.None? || p.production.None? then 0.0
    else
      var annual := p.electricity.value * ElectricityFactor(p.electricitySource);
      PerMJ(annual, p.production.value, HeatValue(b))
  }

  /**
    Fuels: diesel and natural gas, each at its production plus combustion factor, per
    unit of annual production, scaled by the heat value. An absent consumption adds nothing.
   */
  function FuelsSubphase(p: Plant, b: Option<Biomass>): (r: real)
    requires p.production != Some(0.0)
    ensures p.production.None? ==> r == 0.0
    ensures p.production.Some? ==> r == PerMJ(FuelsAnnual(p), p.production.value, HeatValue(b))
  {
    match p.production
    case None => 0.0
    case Some(volume) =>
      var diesel := match p.diesel
        case None => 0.0
        case Some(litres) => litres * (DieselProduction + DieselCombustion);
      var gas := match p.naturalGas
        case None => 0.0
        case Some(cubic) => cubic * (NaturalGasProduction + NaturalGasCombustion);
      PerMJ(diesel + gas, volume, HeatValue(b))
  }

  /**
    Co-generation: the biomass burned at the plant times its combustion factor, per unit
    of annual production, scaled by the heat value; 0 when the biomass has no factor.
   */
  function CogenerationSubphase(p: Plant, b: Option<Biomass>): (r: real)
    requires p.burnedBiomass.Some? && p.production.Some? && b.Some? ==> p.production.value != 0.0
    ensures p.burnedBiomass.None? || p.production.None? || b.None? ==> r == 0.0
    ensures p.production.Some? && p.production.value != 0.0 ==>
      r == PerMJ(CogenerationAnnual(p, b), p.production.value, HeatValue(b))
  {
    if p.burnedBiomass.None? || p.production.None? then 0.0
    else
      var factor := CogenerationFactor(b);
      if factor == 0.0 then 0.0
      else
        var annual := p.burnedBiomass.value * factor;
        PerMJ(annual, p.production.value, HeatValue(b))
  }

  /**
    Process inputs: water, lubricating oil and silica sand, per unit of annual production,
    scaled by the heat value. An absent consumption adds nothing.
   */
  function InputsSubphase(p: Plant, b: Option<Biomass>): (r: real)
    requires p.production != Some(0.0)
    ensures p.production.None? ==> r == 0.0
    ensures p.production.Some? ==> r == PerMJ(InputsAnnual(p), p.production.value, HeatValue(b))
  {
    match p.production
    case None => 0.0
    case Some(volume) =>
      var water := if p.water.Some? then p.water.value * WaterFactor else 0.0;
      var oil := if p.oil.Some? then p.oil.value * LubricantOilFactor else 0.0;
      var sand := if p.sand.Some? then p.sand.value * SilicaSandFactor else 0.0;
      PerMJ(water + oil + sand, volume, HeatValue(b))
  }

  // The plant's annual emissions in kg CO2eq, every absent consumption counted as 0:
  // independent statements of what each industrial sub-phase normalises.

  /** Annual emission of the electricity consumed. */
  function ElectricityAnnual(p: Plant): real
  {
    p.electricity.GetOr(0.0) * ElectricityFactor(p.electricitySource)
  }

  /** Annual emission of the diesel and natural gas produced and burned. */
  function FuelsAnnual(p: Plant): real
  {
    p.diesel.GetOr(0.0) * (DieselProduction + DieselCombustion)
    + p.naturalGas.GetOr(0.0) * (NaturalGasProduction + NaturalGasCombustion)
  }

  /** Annual emission of the biomass burned for co-generation. */
  function CogenerationAnnual(p: Plant, b: Option<Biomass>): real
  {
    p.burnedBiomass.GetOr(0.0) * CogenerationFactor(b)
  }

  /** Annual emission of the water, lubricating oil and silica sand consumed. */
  function InputsAnnual(p: Plant): real
  {
    p.water.GetOr(0.0) * WaterFactor + p.oil.GetOr(0.0) * LubricantOilFactor
    + p.sand.GetOr(0.0) * SilicaSandFactor
  }

  /** The plant's whole annual emission. */
  function AnnualPlantEmission(p: Plant, b: Option<Biomass>): real
  {
    ElectricityAnnual(p) + FuelsAnnual(p) + CogenerationAnnual(p, b) + InputsAnnual(p)
  }

  /**
    Industrial phase: the four sub-phases summed. Without an annual production it is 0;
    with one, scaling back by the production gives the plant's annual emission times the
    heat value.
   */
  function IndustrialPhase(p: Plant, b: Option<Biomass>): (r: real)
    requires p.production != Some(0.0)
    ensures p.production.None? ==> r == 0.0
  {
    var e := ElectricitySubphase(p, b);
    var f := FuelsSubphase(p, b);
    var c := CogenerationSubphase(p, b);
    var i := InputsSubphase(p, b);
    e + f + c + i
  }

  // ---------------------------------------------------------------------------
  // Distribution phase
  // ---------------------------------------------------------------------------

  /**
    The road share of a leg: whatever rail and waterway leave, possibly negative. The three
    shares always add up to the whole leg, and road has a positive share exactly when rail
    and waterway together take less than 100 %.
   */
  function RoadShare(railPct: Option<real>, waterwayPct: Option<real>): (r: real)
    ensures 100.0 * r + railPct.GetOr(0.0) + waterwayPct.GetOr(0.0) == 100.0
    ensures r > 0.0 <==> railPct.GetOr(0.0) + waterwayPct.GetOr(0.0) < 100.0
  {
    1.0 - (railPct.GetOr(0.0) / 100.0 + waterwayPct.GetOr(0.0) / 100.0)
  }

  /** Emission per tonne of a leg of `km` km carried by one mode at `pct` percent (0 when absent). */
  function ModePerTonne(km: real, pct: Option<real>, factor: real): real
  {
    km * (pct.GetOr(0.0) / 100.0 * factor)
  }

  /** Emission per tonne of the road part of a leg; only a positive road share counts. */
  function RoadPerTonne(km: real, share: real, factor: real): real
  {
    if share > 0.0 then km * (share * factor) else 0.0
  }

  /**
    Emission per tonne of a leg of `distance` km split between rail, waterway and road.
    Rail and waterway count at their full percentages; the road share counts only when
    it is positive.
   */
  function ModalEmissionPerTonne(distance: real, railPct: Option<real>, waterwayPct: Option<real>, road: Option<Truck>): real
  {
    ModePerTonne(distance, railPct, RailFactor)
    + ModePerTonne(distance, waterwayPct, BargeFactor)
    + RoadPerTonne(distance, RoadShare(railPct, waterwayPct), RoadFactor(road))
  }

  /**
    Emission per tonne of the export leg: the factory-to-port leg's modal split, when a
    distance is given, plus the sea leg by ship.
   */
  function ExportEmissionPerTonne(e: ExportShipment): real
  {
    (match e.factoryToPort
     case None => 0.0
     case Some(km) => ModalEmissionPerTonne(km, e.railPct, e.waterwayPct, e.roadVehicle))
    + e.portToMarket.GetOr(0.0) * ShipFactor
  }

  /** A per-tonne emission expressed per MJ shipped: a tonne carries `1000 / pc` MJ. */
  function PerTonneToMJ(perTonne: real, pc: real): (r: real)
    requires pc > 0.0
    ensures r * 1000.0 == perTonne * pc
    ensures perTonne >= 0.0 ==> r >= 0.0
  {
    perTonne * pc / 1000.0
  }

  /** `impact / (q * 1000 / pc)`, guarded as the source guards it. */
  function PerMJShipped(impact: real, q: real, pc: real): (r: real)
    requires pc > 0.0
    ensures q * 1000.0 * (1.0 / pc) <= 0.0 ==> r == 0.0
    ensures q * 1000.0 * (1.0 / pc) > 0.0 ==> r * (q * 1000.0) == impact * pc
  {
    var mj := q * 1000.0 * (1.0 / pc);
    if mj > 0.0 then
      var r := impact / mj;
      assert r * mj == impact;
      assert r * (q * 1000.0) == impact * pc by {
        calc {
          r * (q * 1000.0);
          r * (mj * pc);
          (r * mj) * pc;
          impact * pc;
        }
      }
      r
    else 0.0
  }

  /**
    Raw emission, kg CO2eq, of moving `q` tonnes over `km` km split between rail, waterway
    and road, accumulated as both distribution legs do: rail and waterway when their
    percentage is given, road only for a positive remaining share. It is the quantity times
    the leg's per-tonne emission.
   */
  function LegImpact(q: real, km: real, railPct: Option<real>, waterwayPct: Option<real>, road: Option<Truck>): (r: real)
    ensures r == q * ModalEmissionPerTonne(km, railPct, waterwayPct, road)
  {
    var share, f := RoadShare(railPct, waterwayPct), RoadFactor(road);
    var x, y, z := ModeImpact(q, km, railPct, RailFactor), ModeImpact(q, km, waterwayPct, BargeFactor), RoadImpact(q, km, share, f);
    ModeTerm(q, km, railPct, RailFactor);
    ModeTerm(q, km, waterwayPct, BargeFactor);
    RoadTerm(q, km, share, f);
    Distribute(q, x, y, z, ModePerTonne(km, railPct, RailFactor), ModePerTonne(km, waterwayPct, BargeFactor),
               RoadPerTonne(km, share, f));
    x + y + z
  }

  /** Raw emission of the part of a leg one mode carries, when its percentage is given. */
  function ModeImpact(q: real, km: real, pct: Option<real>, factor: real): real
  {
    if pct.Some? then q * km * (pct.value / 100.0) * factor else 0.0
  }

  /** Raw emission of the road part of a leg, when the road share is positive. */
  function RoadImpact(q: real, km: real, share: real, factor: real): real
  {
    if share > 0.0 then q * km * share * factor else 0.0
  }

  /** A mode's raw emission is the quantity times its per-tonne emission. */
  lemma ModeTerm(q: real, km: real, pct: Option<real>, factor: real)
    ensures ModeImpact(q, km, pct, factor) == q * ModePerTonne(km, pct, factor)
  {
  }

  /** The road part's raw emission is the quantity times its per-tonne emission. */
  lemma RoadTerm(q: real, km: real, share: real, factor: real)
    ensures RoadImpact(q, km, share, factor) == q * RoadPerTonne(km, share, factor)
  {
  }

  lemma Distribute(q: real, x: real, y: real, z: real, px: real, py: real, pz: real)
    requires x == q * px && y == q * py && z == q * pz
    ensures x + y + z == q * (px + py + pz)
  {
  }

  /**
    Domestic leg: the leg's raw emission per MJ shipped; 0 when the quantity or the
    distance is absent, or the quantity is not positive.
   */
  function DomesticLeg(d: DomesticShipment, b: Option<Biomass>): (r: real)
    ensures d.quantity.None? || d.distance.None? ==> r == 0.0
    ensures d.quantity.Some? && d.quantity.value <= 0.0 ==> r == 0.0
    ensures d.quantity.Some? && d.quantity.value > 0.0 && d.distance.Some? ==>
      r * (d.quantity.value * 1000.0)
      == LegImpact(d.quantity.value, d.distance.value, d.railPct, d.waterwayPct, d.roadVehicle) * HeatValue(b)
  {
    if d.quantity.None? || d.distance.None? then 0.0
    else
      var q := d.quantity.value;
      var pc := HeatValue(b);
      ShippedEnergySign(q, pc);
      PerMJShipped(LegImpact(q, d.distance.value, d.railPct, d.waterwayPct, d.roadVehicle), q, pc)
  }

  /** Raw emission of the export leg: the factory-to-port leg, when given, plus the sea leg. */
  function ExportImpact(e: ExportShipment, q: real): real
  {
    var toPort := match e.factoryToPort
      case None => 0.0
      case Some(km) => LegImpact(q, km, e.railPct, e.waterwayPct, e.roadVehicle);
    var sea := if e.portToMarket.Some? then q * e.portToMarket.value * ShipFactor else 0.0;
    toPort + sea
  }

  /**
    Export leg: the factory-to-port leg split across modes as in the domestic leg, plus
    the sea leg by ship, per MJ shipped; 0 when the export quantity is absent or not positive.
   */
  function ExportLeg(e: ExportShipment, b: Option<Biomass>): (r: real)
    ensures e.quantity.None? ==> r == 0.0
    ensures e.quantity.Some? && e.quantity.value <= 0.0 ==> r == 0.0
    ensures e.quantity.Some? && e.quantity.value > 0.0 ==>
      r * (e.quantity.value * 1000.0) == ExportImpact(e, e.quantity.value) * HeatValue(b)
  {
    if e.quantity.None? then 0.0
    else
      var q := e.quantity.value;
      var pc := HeatValue(b);
      ShippedEnergySign(q, pc);
      PerMJShipped(ExportImpact(e, q), q, pc)
  }

  /** The energy shipped, `q * 1000 / pc`, is positive exactly when the quantity is. */
  lemma ShippedEnergySign(q: real, pc: real)
    requires pc > 0.0
    ensures q * 1000.0 * (1.0 / pc) > 0.0 <==> q > 0.0
  {
    assert 1.0 / pc > 0.0;
    if q > 0.0 {
      assert q * 1000.0 > 0.0;
    } else {
      assert q * 1000.0 <= 0.0;
    }
  }

  /** Distribution phase: both legs, each 0 on its own when its quantity is absent. */
  function DistributionPhase(d: DomesticShipment, e: ExportShipment, b: Option<Biomass>): (r: real)
    ensures d.quantity.None? ==> r == ExportLeg(e, b)
    ensures e.quantity.None? ==> r == DomesticLeg(d, b)
  {
    DomesticLeg(d, b) + ExportLeg(e, b)
  }

  // ---------------------------------------------------------------------------
  // End use, aggregation and credits
  // ---------------------------------------------------------------------------

  /**
    End use: the stationary-combustion factor divided by the combustion efficiency
    (85 % when absent); 0 when the efficiency is not positive or the biomass is unknown.
   */
  function EndUsePhase(efficiencyPct: Option<real>, b: Option<Biomass>): (r: real)
    ensures efficiencyPct.GetOr(85.0) <= 0.0 || b.None? ==> r == 0.0
    ensures efficiencyPct.GetOr(85.0) > 0.0 ==> r * (efficiencyPct.GetOr(85.0) / 100.0) == StationaryFactor(b)
    ensures r >= 0.0
  {
    var eff := efficiencyPct.GetOr(85.0) / 100.0;
    if eff > 0.0 then StationaryFactor(b) / eff else 0.0
  }

  /**
    Environmental efficiency: how far, in percent of the fossil comparator, the total
    falls below it. Positive exactly when the biofuel beats the comparator.
   */
  function Efficiency(total: real): (pct: real)
    ensures pct > 0.0 <==> total < FossilReference
    ensures pct == 100.0 <==> total == 0.0
    ensures FossilReference * (1.0 - pct / 100.0) == total
  {
    ((FossilReference - total) / FossilReference) * 100.0
  }

  /**
    Credits (CBIOs): whole units of avoided emission over the annual volume in tonnes,
    rounded down; none when the efficiency is not positive or the production is absent.
   */
  function Credits(b: Option<Biomass>, production: Option<real>, total: real): (c: int)
    ensures Efficiency(total) <= 0.0 || production.None? ==> c == 0
    ensures Efficiency(total) > 0.0 && production.Some? ==>
      var avoided := HeatValue(b) * (production.value / 1000.0) * (FossilReference - total);
      c as real <= avoided < c as real + 1.0
    ensures production.Some? && production.value >= 0.0 ==> c >= 0
  {
    if Efficiency(total) <= 0.0 || production.None? then 0
    else
      var avoided := HeatValue(b) * (production.value / 1000.0) * (FossilReference - total);
      assert production.value >= 0.0 ==> avoided >= 0.0;
      avoided.Floor
  }

  /** What the source leaves undefined: a zero production, or a zero transported quantity. */
  predicate WellFormed(input: Input)
  {
    && input.plant.production != Some(0.0)
    && TransportDefined(input.transportDistance, input.vehicle, input.biomassQuantity)
  }

  /** The invariants every result record satisfies. */
  predicate Consistent(r: Results)
  {
    && r.industrial == r.electricity + r.fuels + r.cogeneration + r.inputs
    && r.total == r.agricultural + r.landUse + r.biomassTransport + r.industrial + r.distribution + r.endUse
    && r.efficiency == (FossilReference - r.total) / FossilReference * 100.0
    && (r.efficiency <= 0.0 ==> r.cbios == 0)
    && (r.cbios > 0 ==> r.total < FossilReference)
  }

  /**
    The whole calculation (`calcularTudo`): the phases in order, the total, the efficiency
    and the credits, assembled into one result record.
   */
  function CalculateAll(input: Input): (r: Results)
    requires WellFormed(input)
    ensures Consistent(r)
    ensures input.plant.production.None? ==> r.industrial == 0.0 && r.cbios == 0
    ensures input.biomass.None? ==>
      r.agricultural == 0.0 && r.landUse == 0.0 && r.cogeneration == 0.0 && r.endUse == 0.0
  {
    var b := input.biomass;
    var agricultural := AgriculturalPhase(b, input.yieldFactor, input.cornStarch);
    var landUse := LandUsePhase(b, input.allocationPct, input.state);
    var transport := BiomassTransportPhase(input.transportDistance, input.vehicle, input.biomassQuantity, b);
    var electricity := ElectricitySubphase(input.plant, b);
    var fuels := FuelsSubphase(input.plant, b);
    var cogeneration := CogenerationSubphase(input.plant, b);
    var inputs := InputsSubphase(input.plant, b);
    var industrial := IndustrialPhase(input.plant, b);
    var distribution := DistributionPhase(input.domestic, input.exported, b);
    var endUse := EndUsePhase(input.efficiencyPct, b);
    var total := agricultural + landUse + transport + industrial + distribution + endUse;
    Results(agricultural, landUse, transport, industrial, electricity, fuels, cogeneration, inputs,
            distribution, endUse, total, Efficiency(total), Credits(b, input.plant.production, total))
  }
}
