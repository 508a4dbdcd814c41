/**
 * The YAML import of the integration (`async_setup`): every entry listed under the domain
 * gets a device name when it has none, default rates, VAT and cost unit for absent keys, and
 * is validated; an import flow is started for each entry that passes, and setup stops at the
 * first entry that does not.
 */
module Setup {
  import opened Wrappers
  import PyStr

  /** A YAML value as the entry dict holds it. */
  datatype Value = Num(x: real) | Str(s: string) | Null

  /** One YAML config entry: a dict from key to value. */
  type Entry = map<string, Value>

  const DeviceNameKey := "device_name"
  const KwhSensorKey := "kwh_sensor"
  const PowerSensorKey := "power_sensor"
  const CurrentSensorKey := "current_sensor"
  const VoltageSensorKey := "voltage_sensor"
  const Tier1Key := "tier_1_rate"
  const Tier2Key := "tier_2_rate"
  const Tier3Key := "tier_3_rate"
  const Tier4Key := "tier_4_rate"
  const Tier5Key := "tier_5_rate"
  const Tier6Key := "tier_6_rate"
  const VatKey := "vat_rate"
  const CostUnitKey := "cost_unit"

  /** The sensor ids a device name may be derived from, in the order they are tried. */
  const SensorKeys: seq<string> := [KwhSensorKey, PowerSensorKey, CurrentSensorKey, VoltageSensorKey]

  /** The keys that must hold non-negative numbers. */
  const RateKeys: seq<string> := [Tier1Key, Tier2Key, Tier3Key, Tier4Key, Tier5Key, Tier6Key, VatKey]

  const DefaultDeviceName := "Electricity Cost Device"
  const DefaultTier1 := Num(1678.0)
  const DefaultTier2 := Num(1734.0)
  const DefaultTier3 := Num(2014.0)
  const DefaultTier4 := Num(2536.0)
  const DefaultTier5 := Num(2834.0)
  const DefaultTier6 := Num(2927.0)
  const DefaultVat := Num(0.1)
  const DefaultCostUnit := Str("VND")

  /** The `setdefault` calls of `__init__.py` lines 52-59, in order: each key with its default value. */
  const DefaultTable: seq<(string, Value)> := [
    (Tier1Key, DefaultTier1), (Tier2Key, DefaultTier2), (Tier3Key, DefaultTier3),
    (Tier4Key, DefaultTier4), (Tier5Key, DefaultTier5), (Tier6Key, DefaultTier6),
    (VatKey, DefaultVat), (CostUnitKey, DefaultCostUnit)]

  function KeysOf(table: seq<(string, Value)>): set<string> {
    set i | 0 <= i < |table| :: table[i].0
  }

  /** The keys that get a default. */
  const DefaultKeys: set<string> := KeysOf(DefaultTable)

  /** The keys of the defaults table are pairwise different, and none is the device name key. */
  lemma DistinctDefaultKeys()
    ensures forall i, j :: 0 <= i < j < |DefaultTable| ==> DefaultTable[i].0 != DefaultTable[j].0
    ensures DeviceNameKey !in DefaultKeys
  {
  }

  /** `entry.get(key)`. */
  function Get(e: Entry, k: string): Value {
    if k in e then e[k] else Null
  }

  /** Python truthiness. */
  predicate Truthy(v: Value) {
    match v
    case Num(x) => x != 0.0
    case Str(s) => s != ""
    case Null => false
  }

  /** `float(value)`: a number as it is, a string through `parse`, and None raises TypeError. */
  function ToFloat(v: Value, parse: string -> Option<real>): Option<real> {
    match v
    case Num(x) => Some(x)
    case Str(s) => parse(s)
    case Null => None
  }

  // ---------------------------------------------------------------------------
  // Device name.

  /** The name derived from a sensor id: `id.replace("sensor.", "").replace("_", " ").title()`. */
  function NameFromSensorId(id: string): (name: string)
    ensures |name| <= |id|
    ensures '_' !in name
  {
    var spaced := PyStr.ReplaceChar(PyStr.RemoveAll(id, "sensor."), '_', ' ');
    var name := PyStr.Title(spaced);
    assert forall i :: 0 <= i < |name| ==> name[i] != '_' by {
      forall i | 0 <= i < |name| ensures name[i] != '_' {
        assert PyStr.IsAsciiLetter(name[i]) || name[i] == spaced[i];
      }
    }
    name
  }

  /** The position in `keys` of the first key whose value is truthy, if any. */
  function FirstTruthy(e: Entry, keys: seq<string>): (r: Option<nat>)
    ensures r.Some? ==>
      && r.value < |keys| && Truthy(Get(e, keys[r.value]))
      && forall j :: 0 <= j < r.value ==> !Truthy(Get(e, keys[j]))
    ensures r.None? ==> forall j :: 0 <= j < |keys| ==> !Truthy(Get(e, keys[j]))
  {
    if keys == [] then None
    else if Truthy(Get(e, keys[0])) then Some(0)
    else match FirstTruthy(e, keys[1..])
      case None => None
      case Some(i) => Some(i + 1)
  }

  /** The device name the entry ends up with, or None when deriving it raises AttributeError
      (the first truthy sensor id is not a string, so it has no `replace`). */
  function DeviceName(e: Entry): Option<Value> {
    var given := Get(e, DeviceNameKey);
    if Truthy(given) then Some(given)
    else match FirstTruthy(e, SensorKeys)
      case None => Some(Str(DefaultDeviceName))
      case Some(i) =>
        match Get(e, SensorKeys[i])
        case Str(id) =>
          var derived := NameFromSensorId(id);
          Some(Str(if derived == "" then DefaultDeviceName else derived))
        case _ => None
  }

  /** Derives the device name as `__init__.py` lines 40-48 do: a loop over the sensor keys that stops at the
      first truthy id. */
  method DeriveDeviceName(e: Entry) returns (name: Option<Value>)
    ensures name == DeviceName(e)
  {
    var deviceName := Get(e, DeviceNameKey);
    if !Truthy(deviceName) {
      var i := 0;
      while i < |SensorKeys|
        invariant 0 <= i <= |SensorKeys|
        invariant forall j :: 0 <= j < i ==> !Truthy(Get(e, SensorKeys[j]))
        invariant deviceName == Get(e, DeviceNameKey)
      {
        var sensorId := Get(e, SensorKeys[i]);
        if Truthy(sensorId) {
          if !sensorId.Str? {
            return None;
          }
          deviceName := Str(NameFromSensorId(sensorId.s));
          assert FirstTruthy(e, SensorKeys) == Some(i);
          break;
        }
        i := i + 1;
      }
      if !Truthy(deviceName) {
        deviceName := Str(DefaultDeviceName);
      }
    }
    return Some(deviceName);
  }

  // ---------------------------------------------------------------------------
  // Defaults.

  /** `entry.setdefault(k, v)`. */
  function SetDefault(e: Entry, k: string, v: Value): Entry {
    if k in e then e else e[k := v]
  }

  /** `setdefault` for every row of `table`, in order: the table's keys are added, and nothing
      already present changes. */
  function SetDefaults(e: Entry, table: seq<(string, Value)>): (r: Entry)
    ensures r.Keys == e.Keys + KeysOf(table)
    ensures forall k :: k in e ==> r[k] == e[k]
    decreases table
  {
    if table == [] then e
    else
      var rest := table[1..];
      assert KeysOf(table) == {table[0].0} + KeysOf(rest) by {
        assert forall i :: 0 < i < |table| ==> table[i].0 == rest[i - 1].0;
      }
      SetDefaults(SetDefault(e, table[0].0, table[0].1), rest)
  }

  /** An absent key gets the value of its first row in the table. */
  lemma {:induction false} SetDefaultsFillsAbsent(e: Entry, table: seq<(string, Value)>, i: nat)
    requires i < |table| && table[i].0 !in e
    requires forall j :: 0 <= j < i ==> table[j].0 != table[i].0
    ensures SetDefaults(e, table)[table[i].0] == table[i].1
    decreases table
  {
    var first := SetDefault(e, table[0].0, table[0].1);
    var rest := table[1..];
    if i > 0 {
      assert rest[i - 1] == table[i];
      assert forall j :: 0 <= j < i - 1 ==> rest[j] == table[j + 1];
      SetDefaultsFillsAbsent(first, rest, i - 1);
    }
  }

  /** The eight `setdefault` calls: every absent default key gets its default, and no key that is
      present changes. */
  function WithDefaults(e: Entry): (r: Entry)
    ensures r.Keys == e.Keys + DefaultKeys
    ensures forall k :: k in e ==> r[k] == e[k]
    ensures forall i :: 0 <= i < |DefaultTable| && DefaultTable[i].0 !in e ==> r[DefaultTable[i].0] == DefaultTable[i].1
  {
    DistinctDefaultKeys();
    forall i | 0 <= i < |DefaultTable| && DefaultTable[i].0 !in e
      ensures SetDefaults(e, DefaultTable)[DefaultTable[i].0] == DefaultTable[i].1
    {
      SetDefaultsFillsAbsent(e, DefaultTable, i);
    }
    SetDefaults(e, DefaultTable)
  }

  // ---------------------------------------------------------------------------
  // Validation.

  /** A rate or VAT passes when `float` accepts it and it is not negative. */
  predicate RateAcceptable(v: Value, parse: string -> Option<real>) {
    match ToFloat(v, parse)
    case None => false
    case Some(x) => x >= 0.0
  }

  predicate RatesValid(e: Entry, parse: string -> Option<real>) {
    forall i :: 0 <= i < |RateKeys| ==> RateAcceptable(Get(e, RateKeys[i]), parse)
  }

  /** The cost unit passes when it is truthy and `str(cost_unit).strip()` is not empty
      (the text of a non-zero number is never blank). */
  predicate CostUnitAcceptable(v: Value) {
    Truthy(v) && (v.Str? ==> PyStr.Strip(v.s) != "")
  }

  /** The validation loop of `__init__.py` lines 62-79: false on the first rate that is not a
      non-negative number. */
  method ValidateRates(e: Entry, parse: string -> Option<real>) returns (ok: bool)
    ensures ok == RatesValid(e, parse)
  {
    for i := 0 to |RateKeys|
      invariant forall j :: 0 <= j < i ==> RateAcceptable(Get(e, RateKeys[j]), parse)
    {
      var value := Get(e, RateKeys[i]);
      match ToFloat(value, parse) {
        case None =>
          return false;
        case Some(x) =>
          if x < 0.0 {
            return false;
          }
      }
    }
    return true;
  }

  // ---------------------------------------------------------------------------
  // One entry, and the whole import.

  /** What happens to one entry: the name derivation (`__init__.py` line 45) raises, or the normalised entry is rejected or accepted. */
  datatype Step = NameError | Invalid(entry: Entry) | Valid(entry: Entry)

  /** The entry after its device name is stored and the defaults are filled in. */
  function Normalised(e: Entry, name: Value): Entry {
    WithDefaults(e[DeviceNameKey := name])
  }

  function Process(e: Entry, parse: string -> Option<real>): Step {
    match DeviceName(e)
    case None => NameError
    case Some(name) =>
      var n := Normalised(e, name);
      if RatesValid(n, parse) && CostUnitAcceptable(Get(n, CostUnitKey)) then Valid(n) else Invalid(n)
  }

  /** The body of the loop over entries, for one entry: derive and store the device name, fill
      in the defaults, validate the rates and then the cost unit. */
  method ProcessEntry(e: Entry, parse: string -> Option<real>) returns (step: Step)
    ensures step == Process(e, parse)
  {
    var name := DeriveDeviceName(e);
    if name.None? {
      return NameError;
    }
    var n := Normalised(e, name.value);
    var ratesOk := ValidateRates(n, parse);
    if !ratesOk || !CostUnitAcceptable(Get(n, CostUnitKey)) {
      return Invalid(n);
    }
    return Valid(n);
  }

  /** How `async_setup` ends: it returns True or False, or raises AttributeError. */
  datatype SetupOutcome = ReturnedTrue | ReturnedFalse | RaisedAttributeError

  /** `async_setup`. `domain` is `config[DOMAIN]` when the key is present. Besides the outcome it
      yields `entries`, the listed dicts after the in-place updates, and `flows`, the data of every
      import flow started, in order. */
  method AsyncSetup(domain: Option<seq<Entry>>, parse: string -> Option<real>)
    returns (outcome: SetupOutcome, entries: seq<Entry>, flows: seq<Entry>)
    ensures domain.None? ==> outcome == ReturnedTrue && entries == [] && flows == []
    ensures domain.Some? ==> |entries| == |domain.value| && |flows| <= |domain.value|
    ensures domain.Some? ==> forall j :: 0 <= j < |flows| ==>
      Process(domain.value[j], parse) == Valid(flows[j]) && entries[j] == flows[j]
    ensures domain.Some? ==> (outcome == ReturnedTrue <==> |flows| == |domain.value|)
    ensures domain.Some? && |flows| < |domain.value| ==>
      var e := domain.value[|flows|];
      match Process(e, parse)
      case NameError => outcome == RaisedAttributeError && entries[|flows|] == e
      case Invalid(n) => outcome == ReturnedFalse && entries[|flows|] == n
      case Valid(_) => false
    ensures domain.Some? ==> forall j :: |flows| < j < |domain.value| ==> entries[j] == domain.value[j]
  {
    outcome, entries, flows := ReturnedTrue, [], [];
    if domain.None? {
      return;
    }
    var es := domain.value;
    entries := es;
    var i := 0;
    while i < |es|
      invariant 0 <= i <= |es|
      invariant |flows| == i && |entries| == |es|
      invariant forall j :: 0 <= j < i ==> Process(es[j], parse) == Valid(flows[j]) && entries[j] == flows[j]
      invariant forall j :: i <= j < |es| ==> entries[j] == es[j]
    {
      var step := ProcessEntry(es[i], parse);
      match step {
        case NameError =>
          outcome := RaisedAttributeError;
          return;
        case Invalid(n) =>
          entries := entries[i := n];
          outcome := ReturnedFalse;
          return;
        case Valid(n) =>
          entries := entries[i := n];
          flows := flows + [n];
      }
      i := i + 1;
    }
  }

  // ---------------------------------------------------------------------------
  // Properties of the normalisation.

  /** A truthy device name is kept as it is. */
  lemma KeepsGivenName(e: Entry, parse: string -> Option<real>)
    requires Truthy(Get(e, DeviceNameKey))
    ensures !Process(e, parse).NameError?
    ensures Process(e, parse).entry[DeviceNameKey] == Get(e, DeviceNameKey)
  {
  }

  /** Without a truthy name, the name comes from the first truthy sensor id in the order
      kWh, power, current, voltage: as derived, or the default when the derived name is empty. */
  lemma NameFromFirstSensor(e: Entry, i: nat, id: string)
    requires !Truthy(Get(e, DeviceNameKey))
    requires i < |SensorKeys| && Get(e, SensorKeys[i]) == Str(id) && id != ""
    requires forall j :: 0 <= j < i ==> !Truthy(Get(e, SensorKeys[j]))
    ensures DeviceName(e) == Some(Str(if NameFromSensorId(id) == "" then DefaultDeviceName else NameFromSensorId(id)))
  {
  }

  /** Without a truthy name or sensor id, the device is called "Electricity Cost Device". */
  lemma DefaultNameWithoutSensors(e: Entry, parse: string -> Option<real>)
    requires !Truthy(Get(e, DeviceNameKey))
    requires forall j :: 0 <= j < |SensorKeys| ==> !Truthy(Get(e, SensorKeys[j]))
    ensures DeviceName(e) == Some(Str(DefaultDeviceName))
  {
  }

  /** A device name that is stored is truthy; one that is not the given name has no underscore. */
  lemma DeviceNameIsTruthy(e: Entry)
    requires DeviceName(e).Some?
    ensures Truthy(DeviceName(e).value)
    ensures !Truthy(Get(e, DeviceNameKey)) ==> DeviceName(e).value.Str? && '_' !in DeviceName(e).value.s
  {
    if !Truthy(Get(e, DeviceNameKey)) {
      DefaultNameIsPlain();
      match FirstTruthy(e, SensorKeys) {
        case None =>
        case Some(i) =>
          var derived := NameFromSensorId(Get(e, SensorKeys[i]).s);
          assert DeviceName(e) == Some(Str(if derived == "" then DefaultDeviceName else derived));
      }
    }
  }

  /** The default device name is not empty and has no underscore. */
  lemma DefaultNameIsPlain()
    ensures DefaultDeviceName != "" && '_' !in DefaultDeviceName
  {
  }

  /** Whatever the entry held, a normalised entry carries a truthy device name, and a derived
      one contains no underscore. */
  lemma NormalisedNameIsTruthy(e: Entry, parse: string -> Option<real>)
    requires !Process(e, parse).NameError?
    ensures DeviceNameKey in Process(e, parse).entry
    ensures Truthy(Process(e, parse).entry[DeviceNameKey])
    ensures !Truthy(Get(e, DeviceNameKey)) ==>
      Process(e, parse).entry[DeviceNameKey].Str? && '_' !in Process(e, parse).entry[DeviceNameKey].s
  {
    var name := DeviceName(e).value;
    DeviceNameIsTruthy(e);
    var named := e[DeviceNameKey := name];
    assert Process(e, parse).entry == WithDefaults(named);
    assert WithDefaults(named)[DeviceNameKey] == named[DeviceNameKey] == name;
  }

  /** Normalisation keeps every key but the device name, and adds exactly the absent default keys. */
  lemma NormalisedKeepsEntry(e: Entry, parse: string -> Option<real>)
    requires !Process(e, parse).NameError?
    ensures Process(e, parse).entry.Keys == e.Keys + DefaultKeys + {DeviceNameKey}
    ensures forall k :: k in e && k != DeviceNameKey ==> Process(e, parse).entry[k] == e[k]
    ensures forall i :: 0 <= i < |DefaultTable| && DefaultTable[i].0 !in e ==>
      Process(e, parse).entry[DefaultTable[i].0] == DefaultTable[i].1
  {
    DistinctDefaultKeys();
  }

  /** A tier rate or VAT that is present but null makes `float` raise TypeError: the entry fails. */
  lemma NullRateRejects(e: Entry, parse: string -> Option<real>, i: nat)
    requires i < |RateKeys| && RateKeys[i] in e && e[RateKeys[i]] == Null
    ensures !Process(e, parse).Valid?
  {
  }

  /** A tier rate or VAT that is a negative number makes the entry fail. */
  lemma NegativeRateRejects(e: Entry, parse: string -> Option<real>, i: nat)
    requires i < |RateKeys| && RateKeys[i] in e && e[RateKeys[i]].Num? && e[RateKeys[i]].x < 0.0
    ensures !Process(e, parse).Valid?
  {
  }

  /** A cost unit that is falsy, or a string of only whitespace, makes the entry fail. */
  lemma BlankCostUnitRejects(e: Entry, parse: string -> Option<real>)
    requires CostUnitKey in e
    requires !Truthy(e[CostUnitKey]) || (e[CostUnitKey].Str? && PyStr.Blank(e[CostUnitKey].s))
    ensures !Process(e, parse).Valid?
  {
  }

  /** An accepted entry holds a non-negative number under every rate key, and a usable cost unit. */
  lemma ValidEntryIsUsable(e: Entry, parse: string -> Option<real>)
    requires Process(e, parse).Valid?
    ensures forall i :: 0 <= i < |RateKeys| ==>
      && RateKeys[i] in Process(e, parse).entry
      && ToFloat(Process(e, parse).entry[RateKeys[i]], parse).Some?
      && ToFloat(Process(e, parse).entry[RateKeys[i]], parse).value >= 0.0
    ensures CostUnitKey in Process(e, parse).entry && Truthy(Process(e, parse).entry[CostUnitKey])
    ensures Process(e, parse).entry[CostUnitKey].Str? ==> !PyStr.Blank(Process(e, parse).entry[CostUnitKey].s)
  {
    var n := Normalised(e, DeviceName(e).value);
    assert Process(e, parse) == Valid(n);
    AcceptedIsUsable(n, parse);
  }

  lemma AcceptedIsUsable(n: Entry, parse: string -> Option<real>)
    requires DefaultKeys <= n.Keys
    requires RatesValid(n, parse) && CostUnitAcceptable(Get(n, CostUnitKey))
    ensures forall i :: 0 <= i < |RateKeys| ==>
      && RateKeys[i] in n && ToFloat(n[RateKeys[i]], parse).Some? && ToFloat(n[RateKeys[i]], parse).value >= 0.0
    ensures CostUnitKey in n && Truthy(n[CostUnitKey])
    ensures n[CostUnitKey].Str? ==> !PyStr.Blank(n[CostUnitKey].s)
  {
    forall i | 0 <= i < |RateKeys| ensures RateKeys[i] in n {
      assert RateKeys[i] == DefaultTable[i].0;
    }
    assert CostUnitKey == DefaultTable[7].0;
  }

  /** An id `sensor.<object_id>`, where `sensor.` does not occur in the object id, is named after
      the object id alone, with underscores as spaces and title-cased. */
  lemma NameFromEntityId(objectId: string)
    requires PyStr.NoOccurrence(objectId, "sensor.")
    ensures NameFromSensorId("sensor." + objectId) == PyStr.Title(PyStr.ReplaceChar(objectId, '_', ' '))
  {
    PyStr.RemoveLeading("sensor.", objectId);
  }

  /** "sensor.a_b" names the device "A B". */
  lemma DerivedNameExample()
    ensures NameFromSensorId("sensor.a_b") == "A B"
  {
  }
}
