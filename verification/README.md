# BioCalc emission engine in Dafny

This project models the life-cycle emission calculator of `src/App.jsx`. It covers two
parts:

- the static factor tables: `FATORES_EMISSAO` and the per-state land-use-change table
  `MUT_POR_ESTADO`;
- the calculation engine `BioCalcEngineAtualizado`.

The engine evaluates six phases for a solid biofuel, all in kg CO2eq per MJ:

- agricultural production;
- land-use change (MUT);
- biomass transport;
- industrial processing, split into electricity, fuels, co-generation and process inputs;
- distribution, split into a domestic leg and an export leg;
- end use.

Each phase is normalised by the heat value (PC) of the selected biomass. The phases are
summed into a total. The total is compared with the fossil comparator (0.0867 kg CO2eq/MJ)
as an environmental-efficiency percentage, and converted into a whole number of
decarbonisation credits (CBIOs).

## Files

- `options.dfy` holds `Option` with `GetOr`. A form field is `None` when it is empty or
  absent, and `Some(v)` once it has been parsed. A field with a destructuring default
  (yield factor 1, allocation 100 %, efficiency 85 %) takes that default on `None`.
- `factors.dfy` holds the factor tables the engine reads, as enum-indexed functions and
  constants.
- `land_use.dfy` holds all 28 rows of `MUT_POR_ESTADO` (27 federative units plus `Brasil`)
  and the engine's `getMUTValue` lookup.
- `engine.dfy` holds the phases, the efficiency, the credits and `CalculateAll`. The source
  fills a mutable result object. Every early `return 0` leaves that object's field at its
  initial 0, so each phase is modelled as a pure function, and `CalculateAll` assembles the
  record in the source's order.
- `properties.dfy` holds lemmas relating the phases:
  - closed forms showing what the per-MJ normalisations cancel;
  - monotonicity of the end use, the efficiency and the credits;
  - the blank-form and missing-biomass behaviour of the whole calculation.

An unknown categorical key (biomass, state, truck or electricity source) behaves exactly like
a missing one in every phase, so both are `None`.

Two normalisations are named once and reused. `PerMJ(annual, volume, pc)` is
`annual × (1 / volume) × pc`, as every industrial sub-phase computes it; its contract is
`r × volume == annual × pc`. `PerTonneToMJ(perTonne, pc)` is a per-tonne emission expressed
per MJ shipped, `r × 1000 == perTonne × pc`.

Biomass transport multiplies tonnes by kilometres: 1,000,000 kg over 150 km by medium truck
is 1000 t × 150 km = 150,000 t·km, so the phase for eucalyptus is
0.098 × 150,000 / (1,000,000 × 15.8) = 14.7 / 15800 ≈ 9.3e-4 kg CO2eq/MJ, as
`MediumTruckScenario` states.

## Model

| member | source | states |
|---|---|---|
| EmissionFactors.AgriculturalEmission | src/App.jsx:9-48 | every biomass has a positive agricultural emission factor, between 0.0251 and 1.76 kg CO2eq/kg |
| EmissionFactors.HeatValue | src/App.jsx:466 | the heat value is always positive, between 15.8 and 18.8 MJ/kg; it falls back to 18 for a missing or unknown biomass, so every division by it is defined |
| EmissionFactors.TruckFactor | src/App.jsx:52-65 | the three truck factors lie between 0.0611 and 0.0980 kg CO2eq/t·km |
| EmissionFactors.RoadFactor | src/App.jsx:674 | the road factor of a distribution leg is the selected truck's factor; with no truck it is the medium truck's 0.098, the largest truck factor |
| EmissionFactors.ElectricityFactor | src/App.jsx:564 | grid factors lie between 0.000138 and 0.502; the factor is 0.502 exactly when the source is the medium-voltage mix or is missing/unknown |
| EmissionFactors.CogenerationFactor | src/App.jsx:496-498 | the co-generation combustion factor is 0 exactly when the biomass is missing or unknown, and at most 1.97 |
| EmissionFactors.StationaryFactor | src/App.jsx:729 | the stationary-combustion factor is 0 exactly when the biomass is missing or unknown, and at most 0.119052 |
| LandUse.MutFactor | src/App.jsx:171-396 | every state defines every biomass entry, and every entry lies between -0.00443 (Paraíba pine) and 0.0158 (Rondônia pine) |
| LandUse.MutValue | src/App.jsx:485-493 | the lookup is 0 when the biomass or the state is missing or unknown, and the table entry otherwise, so it always lies within the table's range -0.00443 to 0.0158 |
| Engine.AgriculturalPhase | src/App.jsx:500-517 | 0 without a biomass; with a non-negative starch amount it is non-negative for a non-negative yield factor and strictly positive for a positive one |
| Engine.AllocatedLandUse | src/App.jsx:524-525 | the allocated entry is the entry times allocation/100 times PC; with a positive allocation it has the entry's sign, so an uptake stays a credit |
| Engine.LandUsePhase | src/App.jsx:519-529 | 0 when the biomass or the state is missing; with a positive allocation (100 % by default) the phase is positive or negative exactly when the state's table entry is |
| Engine.BiomassTransportPhase | src/App.jsx:531-545 | 0 when the distance, vehicle or quantity is missing; otherwise `r × 1000 × PC == truckFactor × distance`, so the quantity cancels out |
| Engine.TransportPerMJ | src/App.jsx:539-541 | dividing the raw transport emission by quantity × PC leaves `r × 1000 × PC == truckFactor × distance`: the quantity cancels |
| Engine.PerMJ | src/App.jsx:566 | an annual emission normalised per MJ, times the annual production, is that emission times PC |
| Engine.ElectricitySubphase | src/App.jsx:559-570 | 0 without consumption or production; with a nonzero production it is the annual electricity emission (consumption times grid factor) per MJ |
| Engine.FuelsSubphase | src/App.jsx:572-597 | 0 without production; otherwise diesel and natural gas at production plus combustion factor per MJ, an absent fuel adding nothing |
| Engine.CogenerationSubphase | src/App.jsx:599-612 | 0 without burned biomass, production or a biomass with a combustion factor; otherwise the burned biomass times its factor per MJ |
| Engine.InputsSubphase | src/App.jsx:614-637 | 0 without production; otherwise water, lubricating oil and silica sand at their factors per MJ, an absent input adding nothing |
| Engine.IndustrialPhase | src/App.jsx:547-557 | the industrial phase is 0 without an annual production |
| Engine.RoadShare | src/App.jsx:671-672 | the road, rail and waterway shares add up to the whole leg, and the road share is positive exactly when rail and waterway together take less than 100 % |
| Engine.LegImpact | src/App.jsx:659-676 | a leg's raw emission, accumulated mode by mode, is the quantity times the per-tonne emission of its modal split |
| Engine.PerTonneToMJ | src/App.jsx:678-679 | a per-tonne emission expressed per MJ, times 1000, is that emission times PC; a non-negative per-tonne emission stays non-negative |
| Engine.PerMJShipped | src/App.jsx:678-679 | the leg normalisation is 0 when the energy shipped `q × 1000 / PC` is not positive; otherwise the result times `q × 1000` is the raw impact times PC |
| Engine.ShippedEnergySign | src/App.jsx:678 | the energy shipped is positive exactly when the quantity is |
| Engine.DomesticLeg | src/App.jsx:649-681 | 0 without quantity or distance, or for a non-positive quantity; otherwise the leg's raw modal emission per MJ shipped |
| Engine.ExportLeg | src/App.jsx:683-723 | 0 without quantity or for a non-positive quantity; otherwise the port leg plus the sea leg per MJ shipped |
| Engine.DistributionPhase | src/App.jsx:639-647 | with one leg absent, the distribution phase is exactly the other leg |
| Engine.EndUsePhase | src/App.jsx:725-737 | 0 for a non-positive efficiency (85 % by default) or a missing biomass; otherwise the result times efficiency/100 is the stationary factor; never negative |
| Engine.Efficiency | src/App.jsx:752-760 | positive exactly when the total is below the fossil comparator; 100 exactly when the total is 0; the comparator times (1 − pct/100) gives back the total |
| Engine.Credits | src/App.jsx:762-777 | 0 when the efficiency is not positive or the production is absent; otherwise the floor of PC × volume/1000 × (comparator − total); non-negative for a non-negative volume |
| Engine.CalculateAll | src/App.jsx:779-791 | every result record is consistent: industrial is its four parts, the total is the six phases, the efficiency follows from the total, and credits need a positive efficiency and a total below the comparator; without production there is no industrial phase and no credit; without biomass the agricultural, land-use, co-generation and end-use results are 0 |
| EngineProperties.ForestryEntriesAgree | src/App.jsx:171-396 | in every state the two pine entries coincide, the three eucalyptus entries coincide, and pine and eucalyptus have the same sign |
| EngineProperties.AgriculturalBase | src/App.jsx:508 | with yield factor 1, given or defaulted, and no starch, the phase is emission times PC |
| EngineProperties.CornStarchAdds | src/App.jsx:510-513 | a corn starch amount adds exactly amount × 1.20 × PC to the phase |
| EngineProperties.EucalyptusResidueScenario | src/App.jsx:500-517 | eucalyptus residue at yield factor 1 gives 0.0251 × 15.8 = 0.39658 |
| EngineProperties.AgriculturalScalesWithYield | src/App.jsx:508 | the phase without starch is proportional to the yield factor; with `AgriculturalBase` and `CornStarchAdds` this fixes its value for every input |
| EngineProperties.AgriculturalMonotoneInYield | src/App.jsx:508 | a larger yield factor never lowers the agricultural phase |
| EngineProperties.LandUseIsAllocatedEntry | src/App.jsx:519-529 | the land-use phase is the looked-up entry times PC times allocation/100; at the default full allocation it is the entry times PC |
| EngineProperties.TransportIndependentOfQuantity | src/App.jsx:539-541 | two nonzero quantities give the same transport phase |
| EngineProperties.MediumTruckScenario | src/App.jsx:531-545 | 1,000,000 kg over 150 km by medium truck with eucalyptus gives 14.7 / 15800 |
| EngineProperties.IndustrialPerMJ | src/App.jsx:547-637 | with a nonzero production the industrial phase is the plant's whole annual emission per MJ, every absent consumption counted as 0 |
| EngineProperties.IndustrialNeedsProduction | src/App.jsx:559-637 | without annual production all four sub-phases and the industrial phase are 0 |
| EngineProperties.UnknownSourceIsMediumVoltage | src/App.jsx:560-564 | a missing or unknown electricity source is charged exactly as the medium-voltage grid mix |
| EngineProperties.RoadShareNeverNegative | src/App.jsx:661-676 | the road share only adds emission; when rail and waterway reach 100 % the leg is charged for rail and waterway alone, at their full percentages |
| EngineProperties.LegNeverNegative | src/App.jsx:659-676 | over a non-negative distance with non-negative rail and waterway percentages, a leg's per-tonne and raw emissions are never negative, whatever road share is left |
| EngineProperties.DomesticClosedForm | src/App.jsx:649-681 | for a positive quantity the domestic leg is the per-tonne modal emission expressed per MJ, independent of the quantity |
| EngineProperties.DomesticRoadOnly | src/App.jsx:671-676 | with no rail and no waterway share, left empty or given as 0, the domestic leg is pure road at the truck's factor, 0.098 when no truck is selected |
| EngineProperties.RoadCarriesAll | src/App.jsx:671-676 | with no rail and no waterway percentage, empty or 0, the per-tonne emission is distance times the road factor |
| EngineProperties.ExportImpactPerTonne | src/App.jsx:693-717 | the export leg's raw emission is the quantity times the port leg's per-tonne emission plus the sea leg's |
| EngineProperties.ExportClosedForm | src/App.jsx:683-723 | for a positive quantity the export leg is its per-tonne emission expressed per MJ, independent of the quantity |
| EngineProperties.ExportSeaLegAlone | src/App.jsx:714-717 | the sea leg is charged even when no factory-to-port distance is given |
| EngineProperties.EndUseBoundaries | src/App.jsx:725-737 | at 100 % efficiency the end use is the stationary factor, at 0 % it is 0, and at the default 85 % it is the factor / 0.85 |
| EngineProperties.EndUseMonotone | src/App.jsx:732-733 | a higher positive efficiency never raises the end-use phase |
| EngineProperties.EfficiencyMonotone | src/App.jsx:752-760 | a lower total never lowers the efficiency |
| EngineProperties.CreditsMonotone | src/App.jsx:762-777 | for a non-negative volume a lower total never yields fewer credits |
| EngineProperties.TotalIsPhaseSum | src/App.jsx:739-750 | the total is exactly the six phase functions applied to the input, with no other term |
| EngineProperties.MissingBiomassTotal | src/App.jsx:779-791 | without a biomass the total is transport plus electricity, fuels, inputs and distribution |
| EngineProperties.BlankForm | src/App.jsx:779-791 | an empty form gives a total of 0, an efficiency of 100 % and no credit |

## Left out

- The React interface is not modelled: `FormInput`, `ResultCard` and the `BioCalcAtualizado` component with its state, tabs and reset. It has no calculation content.
- The report export is not modelled. It uses dates, JSON, blobs and a DOM download, so it is I/O.
- Display formatting is not modelled: `toFixed`, `toLocaleString` and the percentage bars.
- Text parsing is not modelled: `parseFloat`, string truthiness, and the NaN that an empty string with a destructuring default produces. Inputs arrive already parsed as `Option<real>`. A present zero, the truthy string "0", is `Some(0.0)`.
- IEEE-754 rounding is not modelled. All arithmetic is exact over `real`.
- A present zero production, and a present zero biomass quantity with distance and vehicle given, are preconditions (`WellFormed`). The source divides by them unguarded, which yields Infinity or NaN.
- Table entries the engine never reads are left out: `gwp_factors`, the fossil references other than the weighted mean, the fuels other than diesel and natural gas, and the `mut`, `densidade` and `capacidade` fields.
- The road share is not clamped against rail plus waterway percentages above 100 or below 0. It is modelled as written: only a positive road share counts, and rail and waterway always count at their full percentages.
- Engine.IndustrialPhase: its contract states only the no-production case. The rescaling of the whole phase is stated by `EngineProperties.IndustrialPerMJ`, and the four-part sum by `Engine.CalculateAll`, because a contract combining them on the phase function is beyond what the solver closes cheaply.
