/**
  The static emission-factor tables of the calculator (the `FATORES_EMISSAO` object).
  Only the entries the engine reads are modelled. All values are exact decimals.
 */
module EmissionFactors {
  import opened Options

  /** Biomass types, keyed as in the `biomassa` table. */
  datatype Biomass =
    | PeanutHull          // casca_amendoim
    | WoodResidue         // residuo_madeira (pine residue)
    | Eucalyptus          // eucalipto (eucalyptus residue)
    | Pine                // pinus (virgin pine)
    | EucalyptusCharcoal  // carvao_eucalipto
    | VirginEucalyptus    // eucaliptus_virgem

  /** Road vehicles of the `transporte_biomassa` table. */
  datatype Truck =
    | SmallTruck   // caminhao_pequeno, 7.5-16 t
    | MediumTruck  // caminhao_medio, 16-32 t
    | LargeTruck   // caminhao_grande, > 32 t

  /** Electricity sources of the `eletricidade` table. */
  datatype ElectricitySource =
    | GridMediumVoltage  // rede_media_voltagem
    | GridHighVoltage    // rede_alta_voltagem
    | SmallHydro         // pch
    | BiomassPower       // biomassa
    | Wind               // eolica
    | Solar              // solar

  /** Agricultural emission of the biomass, kg CO2eq per kg. */
  function AgriculturalEmission(b: Biomass): (f: real)
    ensures 0.0251 <= f <= 1.76
  {
    match b
    case PeanutHull => 0.153
    case WoodResidue => 0.0251
    case Eucalyptus => 0.0251
    case Pine => 0.422
    case EucalyptusCharcoal => 1.76
    case VirginEucalyptus => 0.104
  }

  /**
    Heat value (poder calorifico) in MJ/kg of the selected biomass, falling back to
    18 MJ/kg when no biomass (or an unknown one) is selected. Every entry is positive,
    so every division by it in the engine is safe.
   */
  function HeatValue(b: Option<Biomass>): (pc: real)
    ensures pc > 0.0
    ensures 15.8 <= pc <= 18.8
    ensures b.None? ==> pc == 18.0
  {
    match b
    case None => 18.0
    case Some(x) =>
      match x
      case PeanutHull => 17.1
      case WoodResidue => 18.8
      case Eucalyptus => 15.8
      case Pine => 18.8
      case EucalyptusCharcoal => 18.5
      case VirginEucalyptus => 15.8
  }

  /** Road transport emission, kg CO2eq per t.km. */
  function TruckFactor(v: Truck): (f: real)
    ensures 0.0611 <= f <= 0.0980
  {
    match v
    case SmallTruck => 0.0937
    case MediumTruck => 0.0980
    case LargeTruck => 0.0611
  }

  /**
    Road factor used by the distribution legs: the selected truck's factor, or 0.098
    when none is selected, which is the medium truck's factor and the largest one.
   */
  function RoadFactor(v: Option<Truck>): (f: real)
    ensures v.None? ==> f == TruckFactor(MediumTruck)
    ensures v.Some? ==> f == TruckFactor(v.value)
    ensures v.None? ==> forall t :: TruckFactor(t) <= f
  {
    match v
    case None => 0.098
    case Some(t) => TruckFactor(t)
  }

  /**
    Grid emission of the electricity source, kg CO2eq per kWh; 0.502 (the medium-voltage
    mix, the largest factor) when the source is missing or unknown.
   */
  function ElectricityFactor(s: Option<ElectricitySource>): (f: real)
    ensures 0.000138 <= f <= 0.502
    ensures f == 0.502 <==> s.None? || s == Some(GridMediumVoltage)
  {
    match s
    case None => 0.502
    case Some(x) =>
      match x
      case GridMediumVoltage => 0.502
      case GridHighVoltage => 0.129
      case SmallHydro => 0.0367
      case BiomassPower => 0.110
      case Wind => 0.000138
      case Solar => 0.0801
  }

  /** Fuel factors, production and combustion (diesel per litre, natural gas per Nm3). */
  const DieselProduction: real := 0.796
  const DieselCombustion: real := 2.64
  const NaturalGasProduction: real := 0.335
  const NaturalGasCombustion: real := 1.53

  /** Process inputs, kg CO2eq per kg (water per litre). */
  const CornStarchFactor: real := 1.20
  const WaterFactor: real := 0.0000237
  const LubricantOilFactor: real := 1.51
  const SilicaSandFactor: real := 0.0358

  /** Distribution modes, kg CO2eq per t.km. */
  const RailFactor: real := 0.0334
  const BargeFactor: real := 0.0350
  const ShipFactor: real := 0.00952

  /** Fossil comparator: weighted mean of diesel A, gasoline A and CNG, kg CO2eq per MJ. */
  const FossilReference: real := 0.0867

  /**
    Combustion factor of the biomass burned for co-generation (`combustao_biomassa`),
    kg CO2eq per kg; 0 exactly when the biomass is missing or unknown.
   */
  function CogenerationFactor(b: Option<Biomass>): (f: real)
    ensures f == 0.0 <==> b.None?
    ensures 0.0 <= f <= 1.97
  {
    match b
    case None => 0.0
    case Some(x) =>
      match x
      case PeanutHull => 1.74
      case WoodResidue => 1.97
      case Eucalyptus => 1.97
      case Pine => 1.97
      case EucalyptusCharcoal => 1.88
      case VirginEucalyptus => 1.97
  }

  /**
    Stationary-combustion factor of the end use (`combustao_estacionaria`), kg CO2eq
    per MJ; 0 exactly when the biomass is missing or unknown.
   */
  function StationaryFactor(b: Option<Biomass>): (f: real)
    ensures f == 0.0 <==> b.None?
    ensures 0.0 <= f <= 0.119052
  {
    match b
    case None => 0.0
    case Some(x) =>
      match x
      case PeanutHull => 0.000373
      case WoodResidue => 0.000369
      case Eucalyptus => 0.000369
      case Pine => 0.000369
      case EucalyptusCharcoal => 0.119052
      case VirginEucalyptus => 0.000369
  }
}
