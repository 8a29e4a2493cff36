/**
  Land-use change (MUT) per production state and biomass (the `MUT_POR_ESTADO` table).
  Entries are signed: positive is a net emission, negative a net uptake when land is
  converted to the crop. All 27 federative units and the national average are encoded.
 */
module LandUse {
  import opened Options
  import opened EmissionFactors

  /** Production states, plus `Brasil`, the national average row. */
  datatype State =
    | Acre             // Acre
    | Alagoas          // Alagoas
    | Amapa            // Amapá
    | Amazonas         // Amazonas
    | Bahia            // Bahia
    | Ceara            // Ceará
    | DistritoFederal  // Distrito Federal
    | EspiritoSanto    // Espírito Santo
    | Goias            // Goiás
    | Maranhao         // Maranhão
    | MatoGrosso       // Mato Grosso
    | MatoGrossoDoSul  // Mato Grosso do Sul
    | MinasGerais      // Minas Gerais
    | Para             // Pará
    | Paraiba          // Paraíba
    | Parana           // Paraná
    | Pernambuco       // Pernambuco
    | Piaui            // Piauí
    | RioDeJaneiro     // Rio de Janeiro
    | RioGrandeDoNorte // Rio Grande do Norte
    | RioGrandeDoSul   // Rio Grande do Sul
    | Rondonia         // Rondônia
    | Roraima          // Roraima
    | SantaCatarina    // Santa Catarina
    | SaoPaulo         // São Paulo
    | Sergipe          // Sergipe
    | Tocantins        // Tocantins
    | Brasil           // Brasil

  /** One state's row: kg CO2eq per kg of biomass per year, one entry per biomass type. */
  datatype MutRow = MutRow(
    peanutHull: real,
    woodResidue: real,
    eucalyptus: real,
    pine: real,
    eucalyptusCharcoal: real,
    virginEucalyptus: real)

  /** The row the table holds for a state. */
  function RowOf(s: State): MutRow
  {
    match s
    case Acre => MutRow(0.000162, 0.0, 0.0, 0.0, 0.0, 0.0)
    case Alagoas => MutRow(0.0, 0.0, 0.0, 0.0, 0.0, 0.0)
    case Amapa => MutRow(0.000100, 0.007720, 0.002620, 0.007720, 0.002620, 0.002620)
    case Amazonas => MutRow(0.0, 0.0, 0.0, 0.0, 0.0, 0.0)
    case Bahia => MutRow(0.0, -0.000590, -0.000200, -0.000590, -0.000200, -0.000200)
    case Ceara => MutRow(0.000195, 0.0, 0.0, 0.0, 0.0, 0.0)
    case DistritoFederal => MutRow(0.000149, -0.001190, -0.000404, -0.001190, -0.000404, -0.000404)
    case EspiritoSanto => MutRow(0.0, -0.000340, -0.000115, -0.000340, -0.000115, -0.000115)
    case Goias => MutRow(0.000401, -0.002090, -0.000709, -0.002090, -0.000709, -0.000709)
    case Maranhao => MutRow(0.0, 0.008730, 0.002960, 0.008730, 0.002960, 0.002960)
    case MatoGrosso => MutRow(0.000926, -0.002290, -0.000777, -0.002290, -0.000777, -0.000777)
    case MatoGrossoDoSul => MutRow(0.000243, -0.002650, -0.000899, -0.002650, -0.000899, -0.000899)
    case MinasGerais => MutRow(0.000142, 0.000380, 0.000129, 0.000380, 0.000129, 0.000129)
    case Para => MutRow(0.000171, 0.012200, 0.004150, 0.012200, 0.004150, 0.004150)
    case Paraiba => MutRow(0.001590, -0.004430, -0.001500, -0.004430, -0.001500, -0.001500)
    case Parana => MutRow(0.0000687, 0.0000100, 0.00000339, 0.0000100, 0.00000339, 0.00000339)
    case Pernambuco => MutRow(0.000130, -0.004060, -0.001380, -0.004060, -0.001380, -0.001380)
    case Piaui => MutRow(0.0000458, -0.001450, -0.000492, -0.001450, -0.000492, -0.000492)
    case RioDeJaneiro => MutRow(0.000152, 0.003790, 0.001290, 0.003790, 0.001290, 0.001290)
    case RioGrandeDoNorte => MutRow(0.0, 0.0, 0.0, 0.0, 0.0, 0.0)
    case RioGrandeDoSul => MutRow(0.0, 0.000500, 0.000170, 0.000500, 0.000170, 0.000170)
    case Rondonia => MutRow(0.000156, 0.015800, 0.005360, 0.015800, 0.005360, 0.005360)
    case Roraima => MutRow(0.000581, 0.011200, 0.003790, 0.011200, 0.003790, 0.003790)
    case SantaCatarina => MutRow(0.0, 0.001470, 0.000499, 0.001470, 0.000499, 0.000499)
    case SaoPaulo => MutRow(0.000141, -0.000480, -0.000163, -0.000480, -0.000163, -0.000163)
    case Sergipe => MutRow(0.000174, -0.003090, -0.001050, -0.003090, -0.001050, -0.001050)
    case Tocantins => MutRow(0.000200, 0.009160, 0.003110, 0.009160, 0.003110, 0.003110)
    case Brasil => MutRow(0.000303, 0.0000700, 0.0000238, 0.0000700, 0.0000238, 0.0000238)
  }

  /**
    The table entry for a state and a biomass. Every state defines every biomass, and
    every entry lies between Paraíba's pine uptake and Rondônia's pine emission.
   */
  function MutFactor(s: State, b: Biomass): (m: real)
    ensures -0.00443 <= m <= 0.0158
  {
    var row := RowOf(s);
    match b
    case PeanutHull => row.peanutHull
    case WoodResidue => row.woodResidue
    case Eucalyptus => row.eucalyptus
    case Pine => row.pine
    case EucalyptusCharcoal => row.eucalyptusCharcoal
    case VirginEucalyptus => row.virginEucalyptus
  }

  /**
    The engine's lookup (`getMUTValue`): 0 when the biomass or the state is missing or
    unknown, otherwise the table entry, so the lookup always lies within the table's range.
   */
  function MutValue(b: Option<Biomass>, s: Option<State>): (m: real)
    ensures -0.00443 <= m <= 0.0158
    ensures b.None? || s.None? ==> m == 0.0
    ensures b.Some? && s.Some? ==> m == MutFactor(s.value, b.value)
  {
    if b.None? || s.None? then 0.0 else MutFactor(s.value, b.value)
  }
}
