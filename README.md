# Electricity cost calculator (Vietnam) — a Dafny model

This project models the two parts of the Home Assistant integration `electricity_cost_calculator_vn` that hold logic:

- **The cost sensors** (`ElectricityCostSensor.state` in `sensor.py`). The integration turns the state of a kWh entity into a cost in VND. It uses Vietnam's six-band progressive household tariff, with band edges at 0, 50, 100, 200, 300 and 400 kWh and an unbounded last band. The "with VAT" sensor multiplies the cost by (1 + VAT). Both sensors round with Python's `round`, which rounds half to even. A missing entity, an `unknown` or `unavailable` state, or a state that does not parse as a number gives 0.
- **The YAML import** (`async_setup` in `__init__.py`). For every entry listed under the integration's domain:
  - it derives a device name when the entry has none;
  - it fills in default tier rates, VAT and cost unit for absent keys;
  - it rejects rates or VAT that are not non-negative numbers, and a cost unit that is empty or only whitespace;
  - it starts an import flow for each entry that passes.

  Setup stops at the first entry that fails. Separately, `async_setup_entry` and `async_unload_entry` keep a dict from config-entry id to entry data.

Files:

- `wrappers.dfy`: the `Option` type.
- `tariff.dfy` (module `Tariff`): the sensor as pure functions. The module also has a reference definition of a progressive tariff as a sum of per-band contributions, and lemmas linking the two: band sums, continuity, monotonicity, VAT and rounding.
- `pystr.dfy` (module `PyStr`): the Python string operations the import uses: `replace`, `title`, `strip` and Python's whitespace set.
- `setup.dfy` (module `Setup`): the import. Methods carry the source's loops: device-name derivation, rate validation, the body of the loop over entries, and that loop with its early returns. Each is proved against specification functions. Lemmas state what normalisation and validation guarantee.
- `entrystore.dfy` (module `EntryStore`): `hass.data[DOMAIN]` as a class with a map field, plus the setup and unload methods.

Modelling choices:

- All arithmetic is exact, over `real`. The tariff rates are parameters (`Tariff.Rates`), so monotonicity and the VAT bound are proved for any non-negative rates. `Tariff.ReferenceRates` holds the published values (1678, 1734, 2014, 2536, 2834, 2927 VND/kWh, VAT 0.1). These are the values of `custom_components/const.py:8-16`, and the same as the `DEFAULT_*` values of the package's own `const.py`.
- Python's `float` on a string is a parameter `parse: string -> Option<real>`, where `None` is a `ValueError`.
- A YAML value is `Num(real) | Str(string) | Null`, and an entry is a `map<string, Value>`. Truthiness follows Python.
- Starting an import flow is modelled as appending the normalised entry to the output sequence `flows`.

What the code does, as modelled:

- `sensor.py` reads only the kWh entity (`sensor.py:28`, `sensor.py:64`). The code has no conversion from other units and no precedence between several input channels.
- An absent tier rate, VAT or cost unit key gets its own `DEFAULT_*` value (`__init__.py:52-59`); no rate falls back to another.
- As written, `sensor.py:7-20` imports `TIER_1_RATE` … `TIER_6_RATE` and `VAT_RATE` from the package's own `const.py`, which defines only the `DEFAULT_*` names, so importing `sensor.py` raises `ImportError`. The names exist only in the top-level `custom_components/const.py`. The model does not model that import: it prices with rates given as a parameter, and `Tariff.ReferenceRates` holds the values of those module constants.
- `sensor.py` never reads the tier, VAT or cost-unit keys of its config entry: it prices with the module constants. The rates that `async_setup` fills in and validates are therefore not the ones the sensor uses.

Two behaviours of the code that the model keeps:

- When the first truthy sensor id is not a string, `replace` raises `AttributeError`. The model reports this as `Setup.SetupOutcome.RaisedAttributeError`, and that entry stays unchanged.
- A sensor id that derives the empty name (`"sensor."`) falls back to `"Electricity Cost Device"`. The remaining sensor ids are not tried.

## Model

| member | source | states |
|---|---|---|
| `Tariff.BaseCost` | custom_components/electricity_cost_calculator_vn/sensor.py:73-87 | the if/elif chain: a reading of at most 0 kWh costs 0, and with non-negative rates no reading costs less than 0 |
| `Tariff.Cost` | custom_components/electricity_cost_calculator_vn/sensor.py:89-91 | the unrounded cost of either sensor: 0 for a reading of at most 0, and never negative for non-negative rates and VAT of at least -100% |
| `Tariff.State` | custom_components/electricity_cost_calculator_vn/sensor.py:61-93 | the reported state is never negative for non-negative rates and VAT of at least -100%; its cases are stated by the lemmas below |
| `Tariff.RoundHalfEven` | custom_components/electricity_cost_calculator_vn/sensor.py:93 | the result is within 1/2 of the amount, and an exact tie goes to the even integer |
| `Tariff.RoundHalfEvenUnique` | custom_components/electricity_cost_calculator_vn/sensor.py:93 | those two properties determine the rounded value uniquely |
| `Tariff.RoundHalfEvenMonotone` | custom_components/electricity_cost_calculator_vn/sensor.py:93 | rounding never reverses the order of two amounts |
| `Tariff.Billable` | custom_components/electricity_cost_calculator_vn/sensor.py:76-87 | the kWh billed in a band: 0 below the band, the full width above it, the part above the lower edge inside it, never negative |
| `Tariff.BaseCostIsProgressive` | custom_components/electricity_cost_calculator_vn/sensor.py:74-87 | for every reading, the if/elif chain equals the sum over the six bands of (kWh in band) × band rate |
| `Tariff.BranchHoldsOnClosedBand` | custom_components/electricity_cost_calculator_vn/sensor.py:76-87 | on each band, edges included, the cost is that band's branch formula, so giving an edge to the lower branch changes nothing |
| `Tariff.ContinuousAtEdges` | custom_components/electricity_cost_calculator_vn/sensor.py:76-87 | at 50, 100, 200, 300 and 400 kWh the next branch's formula equals the previous branch's value |
| `Tariff.NonPositiveIsFree` | custom_components/electricity_cost_calculator_vn/sensor.py:74-91 | a reading of at most 0 kWh costs exactly 0, with or without VAT |
| `Tariff.ProgressiveMonotone` | custom_components/electricity_cost_calculator_vn/sensor.py:76-87 | any progressive tariff with well-formed bands and non-negative rates is monotone in the reading |
| `Tariff.BaseCostMonotone` | custom_components/electricity_cost_calculator_vn/sensor.py:76-87 | with non-negative rates, kwh1 ≤ kwh2 implies cost(kwh1) ≤ cost(kwh2) before rounding |
| `Tariff.WithVatMonotone` | custom_components/electricity_cost_calculator_vn/sensor.py:89-91 | multiplying by (1 + VAT), VAT at least -100%, keeps the order of two amounts; without VAT the amount is unchanged |
| `Tariff.CostMonotone` | custom_components/electricity_cost_calculator_vn/sensor.py:73-91 | with non-negative rates and VAT at least -100%, the unrounded cost of either sensor is monotone in the reading |
| `Tariff.VatNotBelowBase` | custom_components/electricity_cost_calculator_vn/sensor.py:90-91 | the VAT sensor's unrounded cost is at least the plain one, and equal to it when VAT is 0 |
| `Tariff.NoReadingIsZero` | custom_components/electricity_cost_calculator_vn/sensor.py:64-66 | a missing entity or an `unknown`/`unavailable` state gives 0 for both sensors |
| `Tariff.UnparsableIsZero` | custom_components/electricity_cost_calculator_vn/sensor.py:68-71 | a state that does not parse as a number gives 0 |
| `Tariff.NonPositiveReadingIsZero` | custom_components/electricity_cost_calculator_vn/sensor.py:73-93 | a parsed reading of at most 0 gives 0, with or without VAT |
| `Tariff.StateIsRoundedCost` | custom_components/electricity_cost_calculator_vn/sensor.py:61-93 | a parsed reading is reported as the half-to-even rounding of its unrounded cost |
| `Tariff.StateMonotone` | custom_components/electricity_cost_calculator_vn/sensor.py:61-93 | with non-negative rates, a larger reading never gives a smaller reported cost, on either sensor |
| `Tariff.SeventyFiveKwh` | custom_components/electricity_cost_calculator_vn/sensor.py:76-93 | 75 kWh at the published rates gives 127250 VND, and 139975 VND with VAT |
| `Tariff.HalfKwhTieRoundsToEven` | custom_components/electricity_cost_calculator_vn/sensor.py:93 | 0.75 kWh costs exactly 1258.5 VND and is reported as 1258 |
| `PyStr.RemoveAll` | custom_components/electricity_cost_calculator_vn/__init__.py:45 | `replace("sensor.", "")` never lengthens the id and introduces no new character |
| `PyStr.RemoveLeading` | custom_components/electricity_cost_calculator_vn/__init__.py:45 | `("sensor." + t).replace("sensor.", "")` is `t` when `sensor.` does not occur in `t` |
| `PyStr.ReplaceChar` | custom_components/electricity_cost_calculator_vn/__init__.py:45 | `replace("_", " ")` keeps the length and changes exactly the underscores |
| `PyStr.Title` | custom_components/electricity_cost_calculator_vn/__init__.py:45 | `title()` upper-cases the first letter of each run of letters, lower-cases the other letters, and keeps every other character |
| `PyStr.IsSpace` | custom_components/electricity_cost_calculator_vn/__init__.py:83 | Python's whitespace code points, the characters `str.strip()` removes (definition) |
| `PyStr.Strip` | custom_components/electricity_cost_calculator_vn/__init__.py:83 | `strip()` gives "" exactly when every character is whitespace, and a non-empty result neither starts nor ends with whitespace |
| `PyStr.StripCutsOnlySpace` | custom_components/electricity_cost_calculator_vn/__init__.py:83 | `strip()` returns a slice `s[i..j]` of its argument, and every character outside the slice is whitespace |
| `Setup.Get` | custom_components/electricity_cost_calculator_vn/__init__.py:40-43 | `entry.get(key)`: the stored value, or `None` for an absent key (definition) |
| `Setup.Truthy` | custom_components/electricity_cost_calculator_vn/__init__.py:41-47 | Python truthiness of a YAML value: non-zero numbers and non-empty strings (definition) |
| `Setup.NameFromSensorId` | custom_components/electricity_cost_calculator_vn/__init__.py:45 | a derived device name is no longer than the sensor id and contains no `_` |
| `Setup.DerivedNameExample` | custom_components/electricity_cost_calculator_vn/__init__.py:45 | `sensor.a_b` names the device `A B` |
| `Setup.NameFromEntityId` | custom_components/electricity_cost_calculator_vn/__init__.py:45 | an id `sensor.<object_id>` names the device after the object id alone, underscores as spaces, title-cased |
| `Setup.FirstTruthy` | custom_components/electricity_cost_calculator_vn/__init__.py:42-46 | finds the first key with a truthy value, and no earlier key is truthy; with no result, no key is truthy |
| `Setup.DeviceName` | custom_components/electricity_cost_calculator_vn/__init__.py:40-48 | the name the entry ends up with: the truthy given name, else from the first truthy sensor id, else the default; None when that id is not a string (definition; characterised by the lemmas below) |
| `Setup.DeriveDeviceName` | custom_components/electricity_cost_calculator_vn/__init__.py:40-48 | the loop with `break` computes the specified device name, or reports the AttributeError |
| `Setup.KeepsGivenName` | custom_components/electricity_cost_calculator_vn/__init__.py:40-49 | a truthy `device_name` is kept unchanged |
| `Setup.NameFromFirstSensor` | custom_components/electricity_cost_calculator_vn/__init__.py:42-48 | otherwise the name comes from the first truthy sensor id in the order kWh, power, current, voltage, or is the default when it derives "" |
| `Setup.DefaultNameWithoutSensors` | custom_components/electricity_cost_calculator_vn/__init__.py:47-48 | with no truthy name or sensor id the name is "Electricity Cost Device" |
| `Setup.DeviceNameIsTruthy` | custom_components/electricity_cost_calculator_vn/__init__.py:40-48 | a stored device name is always truthy, and one not given by the entry has no `_` |
| `Setup.NormalisedNameIsTruthy` | custom_components/electricity_cost_calculator_vn/__init__.py:40-59 | every normalised entry holds a truthy device name |
| `Setup.SetDefaults` | custom_components/electricity_cost_calculator_vn/__init__.py:52-59 | successive `setdefault` calls add exactly the table's keys and never overwrite a present key |
| `Setup.SetDefaultsFillsAbsent` | custom_components/electricity_cost_calculator_vn/__init__.py:52-59 | an absent key gets the value of its first row in the table |
| `Setup.WithDefaults` | custom_components/electricity_cost_calculator_vn/__init__.py:52-59 | each absent tier, VAT and unit key gets its published default, and every present key keeps its value |
| `Setup.Normalised` | custom_components/electricity_cost_calculator_vn/__init__.py:49-59 | the entry with its device name stored and the defaults filled in (definition; characterised by `Setup.NormalisedKeepsEntry`) |
| `Setup.NormalisedKeepsEntry` | custom_components/electricity_cost_calculator_vn/__init__.py:49-59 | normalisation adds exactly the device name and the absent default keys, and changes no other key |
| `Setup.ToFloat` | custom_components/electricity_cost_calculator_vn/__init__.py:73-77 | `float(value)`: a number as itself, a string through the parser, and `None` as the TypeError (definition) |
| `Setup.RateAcceptable` | custom_components/electricity_cost_calculator_vn/__init__.py:71-79 | a rate passes when `float` accepts it and it is not below 0 (definition) |
| `Setup.RatesValid` | custom_components/electricity_cost_calculator_vn/__init__.py:62-79 | every tier rate and the VAT is acceptable (definition; computed by `Setup.ValidateRates`) |
| `Setup.CostUnitAcceptable` | custom_components/electricity_cost_calculator_vn/__init__.py:82-85 | the cost unit passes when it is truthy and its text is not all whitespace (definition) |
| `Setup.ValidateRates` | custom_components/electricity_cost_calculator_vn/__init__.py:62-79 | the validation loop returns true exactly when all six tier rates and the VAT parse as non-negative numbers |
| `Setup.NullRateRejects` | custom_components/electricity_cost_calculator_vn/__init__.py:71-79 | a rate key present with a null value makes the entry fail |
| `Setup.NegativeRateRejects` | custom_components/electricity_cost_calculator_vn/__init__.py:73-76 | a tier rate or VAT that is a negative number makes the entry fail |
| `Setup.BlankCostUnitRejects` | custom_components/electricity_cost_calculator_vn/__init__.py:82-85 | a cost unit that is falsy or only whitespace makes the entry fail |
| `Setup.ValidEntryIsUsable` | custom_components/electricity_cost_calculator_vn/__init__.py:62-85 | an accepted entry holds a non-negative number under every rate key, and a truthy, non-blank cost unit |
| `Setup.AcceptedIsUsable` | custom_components/electricity_cost_calculator_vn/__init__.py:62-85 | an entry that has the default keys and passes both validations holds a non-negative number under every rate key and a truthy, non-blank cost unit |
| `Setup.Process` | custom_components/electricity_cost_calculator_vn/__init__.py:40-85 | one entry: AttributeError from the name derivation, or the normalised entry, rejected or accepted (definition) |
| `Setup.ProcessEntry` | custom_components/electricity_cost_calculator_vn/__init__.py:40-85 | the loop body for one entry computes `Setup.Process`: derive the name, fill in defaults, validate rates, then the cost unit |
| `Setup.AsyncSetup` | custom_components/electricity_cost_calculator_vn/__init__.py:33-92 | with no domain key: True and no flows. Otherwise entries are handled in order, and a flow carrying the normalised entry is started for each valid entry before the first rejected one. The outcome is True exactly when all pass, else False or AttributeError as the rejected entry dictates. The rejected entry's dict holds its normalised form unless deriving its name raised, and later dicts are untouched |
| `EntryStore.DomainData.constructor` | custom_components/electricity_cost_calculator_vn/__init__.py:97 | the domain slot starts out empty |
| `EntryStore.DomainData.SetupEntry` | custom_components/electricity_cost_calculator_vn/__init__.py:94-102 | stores the entry's data under its id, returns True, and leaves every other id alone |
| `EntryStore.DomainData.UnloadEntry` | custom_components/electricity_cost_calculator_vn/__init__.py:104-109 | removes a stored id and returns True; a missing id raises KeyError and changes nothing |
| `EntryStore.SetupThenUnload` | custom_components/electricity_cost_calculator_vn/__init__.py:97-108 | setting up and then unloading an id leaves it absent and every other id unchanged |

## Left out

- The two config-flow wizards (`config_flow.py`, in both places): interactive forms built on host schemas and the entity registry.
- The sensor platform's `async_setup_entry` at `sensor.py:22-36`, which creates the two sensor objects, and the entity attributes at `sensor.py:49-58`: display glue.
- `async_update` at `sensor.py:95-97`, which writes `_attr_state`: a host-driven update of a display field.
- Host calls are not modelled: `hass.states.get`, `async_create_task`, `flow.async_init`, `async_forward_entry_setups` and `async_unload_platforms`. The entity state is an input, and started flows are an output sequence.
- Logging through `_LOGGER`: it has no effect on results.
- Tariff.State: floating point is not modelled. Readings are exact reals, so `inf` and `nan` are not covered. `round(inf)` raises `OverflowError`; `nan` gives 0. Binary rounding of `kwh × rate` can differ from the exact value near ties.
- Setup.AsyncSetup: the in-place updates of the caller's entry dicts come out as a new sequence `entries`, not through aliasing.
- Setup.AsyncSetup: `config[DOMAIN]` is modelled as absent or a list of dicts. The other shapes YAML can give raise in the source and are not modelled: a mapping (iteration yields its string keys, and `entry.get` raises AttributeError), an empty value (`for entry in None` raises TypeError), and a list item that is not a dict (AttributeError at `entry.get`).
- Setup.ValidateRates, Setup.ValidEntryIsUsable, Setup.AcceptedIsUsable: over exact reals there is no `nan` or `inf`. In the source `float("nan")` (or YAML `.nan`) passes `float_value < 0` at `__init__.py:73-74`, and so does `inf`, so an accepted entry may hold `nan` as a rate; these contracts do not cover that.
- Setup.Value: YAML booleans, lists, and the int/float distinction are not modelled.
- Setup.CostUnitAcceptable: it does not model the text of `str(number)`. It relies on the fact that the text of a non-zero number is never blank.
- PyStr.Title: only ASCII letters count as cased, whereas Python's `title()` case-maps all Unicode letters.
- Unit conversion (Wh, MJ, W, current×voltage) and channel precedence: no code in the integration implements them.
