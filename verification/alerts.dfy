/** The alert formatter: `format_alerts` turns a GeoJSON feature collection
    of active weather alerts into a list of flat sixteen-field records. */
module AlertFormat {
  import opened JsonValues

  /** One flat alert record. Every field is always present; `Null` stands for
      Python's `None`, the value of a property the alert did not carry. */
  datatype AlertRecord = AlertRecord(
    id: Json, event: Json, area: Json, sent: Json,
    effective: Json, onset: Json, expires: Json, ends: Json,
    severity: Json, certainty: Json, urgency: Json, headline: Json,
    description: Json, instruction: Json, sender: Json, response: Json)

  /** The record's keys in insertion order, each paired with the alert property
      it is copied from. Only `area` and `sender` are renamed. */
  const FieldMap: seq<(string, string)> := [
    ("id", "id"), ("event", "event"), ("area", "areaDesc"), ("sent", "sent"),
    ("effective", "effective"), ("onset", "onset"), ("expires", "expires"), ("ends", "ends"),
    ("severity", "severity"), ("certainty", "certainty"), ("urgency", "urgency"), ("headline", "headline"),
    ("description", "description"), ("instruction", "instruction"), ("sender", "senderName"), ("response", "response")
  ]

  /** The sixteen keys of every record, in insertion order. */
  function RecordKeys(): (keys: seq<string>)
    ensures |keys| == |FieldMap|
    ensures forall i :: 0 <= i < |keys| ==> keys[i] == FieldMap[i].0
  {
    seq(|FieldMap|, i requires 0 <= i < |FieldMap| => FieldMap[i].0)
  }

  /** The record as the Python dictionary it is: key/value pairs in insertion order. */
  function Entries(r: AlertRecord): seq<(string, Json)>
  {
    [("id", r.id), ("event", r.event), ("area", r.area), ("sent", r.sent),
     ("effective", r.effective), ("onset", r.onset), ("expires", r.expires), ("ends", r.ends),
     ("severity", r.severity), ("certainty", r.certainty), ("urgency", r.urgency), ("headline", r.headline),
     ("description", r.description), ("instruction", r.instruction), ("sender", r.sender), ("response", r.response)]
  }

  /** Dictionary lookup of `key` in a list of pairs, first match wins. */
  function Find(entries: seq<(string, Json)>, key: string): (r: Option<Json>)
    ensures r.Some? <==> exists i :: 0 <= i < |entries| && entries[i].0 == key
  {
    if |entries| == 0 then None
    else if entries[0].0 == key then Some(entries[0].1)
    else Find(entries[1..], key)
  }

  /** `record[key]` on the record seen as a dictionary; `None` for a key it lacks. */
  function Field(r: AlertRecord, key: string): Option<Json>
  {
    Find(Entries(r), key)
  }

  /** The record field that is filled from alert property `prop`; `Null` for any
      property the formatter does not read. */
  function CopiedFrom(r: AlertRecord, prop: string): Json
  {
    if prop == "id" then r.id
    else if prop == "event" then r.event
    else if prop == "areaDesc" then r.area
    else if prop == "sent" then r.sent
    else if prop == "effective" then r.effective
    else if prop == "onset" then r.onset
    else if prop == "expires" then r.expires
    else if prop == "ends" then r.ends
    else if prop == "severity" then r.severity
    else if prop == "certainty" then r.certainty
    else if prop == "urgency" then r.urgency
    else if prop == "headline" then r.headline
    else if prop == "description" then r.description
    else if prop == "instruction" then r.instruction
    else if prop == "senderName" then r.sender
    else if prop == "response" then r.response
    else Null
  }

  /** The alert properties the formatter reads. */
  predicate IsReadProperty(prop: string)
  {
    exists i :: 0 <= i < |FieldMap| && FieldMap[i].1 == prop
  }

  /** Two property mappings look the same to the formatter: `props.get` agrees
      on every property it reads. */
  predicate SameReadProperties(p: map<string, Json>, q: map<string, Json>)
  {
    forall i :: 0 <= i < |FieldMap| ==> Get(p, FieldMap[i].1) == Get(q, FieldMap[i].1)
  }

  /** The loop body of `format_alerts` for one feature's `properties` mapping. */
  function FormatProperties(props: map<string, Json>): (r: AlertRecord)
    ensures |Entries(r)| == |FieldMap|
    ensures forall i :: 0 <= i < |FieldMap| ==>
              Entries(r)[i] == (FieldMap[i].0, Get(props, FieldMap[i].1))
  {
    AlertRecord(
      Get(props, "id"), Get(props, "event"), Get(props, "areaDesc"), Get(props, "sent"),
      Get(props, "effective"), Get(props, "onset"), Get(props, "expires"), Get(props, "ends"),
      Get(props, "severity"), Get(props, "certainty"), Get(props, "urgency"), Get(props, "headline"),
      Get(props, "description"), Get(props, "instruction"), Get(props, "senderName"), Get(props, "response"))
  }

  /** A feature on which `feature.get("properties", {})` and the subsequent
      `props.get(...)` calls do not raise: a mapping whose `properties`, when
      present, is itself a mapping. */
  predicate WellFormedFeature(feature: Json)
  {
    feature.Object? &&
    ("properties" in feature.fields ==> feature.fields["properties"].Object?)
  }

  /** `feature.get("properties", {})`. */
  function PropertiesOf(feature: Json): map<string, Json>
    requires WellFormedFeature(feature)
  {
    match Lookup(feature.fields, "properties")
    case Some(props) => props.fields
    case None => map[]
  }

  /** A value of `features` that the `for` loop iterates without raising: a
      list of well-formed features, or an empty string or mapping (which
      iterate over nothing). */
  predicate IterableFeatures(features: Json)
  {
    match features
    case Array(items) => forall i :: 0 <= i < |items| ==> WellFormedFeature(items[i])
    case Str(s) => s == ""
    case Object(fields) => fields == map[]
    case _ => false
  }

  /** A collection on which `format_alerts` does not raise. */
  predicate WellFormedCollection(data: map<string, Json>)
  {
    "features" in data ==> IterableFeatures(data["features"])
  }

  /** The features `format_alerts` iterates over: `data.get("features", [])`. */
  function FeatureList(data: map<string, Json>): (features: seq<Json>)
    requires WellFormedCollection(data)
    ensures forall i :: 0 <= i < |features| ==> WellFormedFeature(features[i])
    ensures "features" !in data ==> features == []
    ensures "features" in data && data["features"].Array? ==> features == data["features"].items
  {
    match Lookup(data, "features")
    case None => []
    case Some(Array(items)) => items
    case Some(_) => []
  }

  /** The `for` loop of `format_alerts`: one record appended per feature. */
  function FormatFeatures(features: seq<Json>): (alerts: seq<AlertRecord>)
    requires forall i :: 0 <= i < |features| ==> WellFormedFeature(features[i])
    ensures |alerts| == |features|
    ensures forall i :: 0 <= i < |features| ==>
              alerts[i] == FormatProperties(PropertiesOf(features[i]))
  {
    if |features| == 0 then []
    else
      var last := |features| - 1;
      FormatFeatures(features[..last]) + [FormatProperties(PropertiesOf(features[last]))]
  }

  /** `format_alerts(data)`: one record per feature, in order, nothing
      filtered, sorted or merged. */
  function FormatAlerts(data: map<string, Json>): (alerts: seq<AlertRecord>)
    requires WellFormedCollection(data)
    ensures "features" !in data ==> alerts == []
    ensures |alerts| == |FeatureList(data)|
    ensures forall i :: 0 <= i < |alerts| ==>
              alerts[i] == FormatProperties(PropertiesOf(FeatureList(data)[i]))
  {
    FormatFeatures(FeatureList(data))
  }

  /** The properties a record can be traced back to: every read property whose
      value was not `None`, under its own name. */
  function RecoverProperties(r: AlertRecord): (props: map<string, Json>)
    ensures forall prop :: prop in props ==> IsReadProperty(prop) && props[prop] != Null
  {
    map prop | prop in ReadPropertySet() && CopiedFrom(r, prop) != Null :: CopiedFrom(r, prop)
  }

  /** The set of property names in `FieldMap`. */
  function ReadPropertySet(): (s: set<string>)
    ensures forall prop :: prop in s <==> IsReadProperty(prop)
  {
    set i | 0 <= i < |FieldMap| :: FieldMap[i].1
  }

  /** Each record field sits under the key `FieldMap` gives it and holds the
      property `FieldMap` names, so `CopiedFrom` reads back what was copied. */
  lemma {:induction false} CopiedFromInvertsFormat(props: map<string, Json>, prop: string)
    ensures CopiedFrom(FormatProperties(props), prop) ==
            (if IsReadProperty(prop) then Get(props, prop) else Null)
  {
    if !IsReadProperty(prop) {
      assert FieldMap[0].1 != prop && FieldMap[1].1 != prop && FieldMap[2].1 != prop && FieldMap[3].1 != prop;
      assert FieldMap[4].1 != prop && FieldMap[5].1 != prop && FieldMap[6].1 != prop && FieldMap[7].1 != prop;
      assert FieldMap[8].1 != prop && FieldMap[9].1 != prop && FieldMap[10].1 != prop && FieldMap[11].1 != prop;
      assert FieldMap[12].1 != prop && FieldMap[13].1 != prop && FieldMap[14].1 != prop && FieldMap[15].1 != prop;
    }
  }

  /** Round trip: formatting keeps exactly the read, non-null properties, so
      they can be recovered from the record. */
  lemma {:induction false} RecoverAfterFormat(props: map<string, Json>)
    ensures RecoverProperties(FormatProperties(props)) ==
            map prop | prop in props && IsReadProperty(prop) && props[prop] != Null :: props[prop]
  {
    var r := FormatProperties(props);
    forall prop | IsReadProperty(prop) {
      CopiedFromInvertsFormat(props, prop);
    }
  }

  /** When the alert carries only read properties and none of them is null,
      the record holds all of it: `props` comes back unchanged. */
  lemma {:induction false} RecoverAfterFormatExact(props: map<string, Json>)
    requires forall prop :: prop in props ==> IsReadProperty(prop) && props[prop] != Null
    ensures RecoverProperties(FormatProperties(props)) == props
  {
    RecoverAfterFormat(props);
  }

  /** Only the sixteen read properties decide the record: two property
      mappings give the same record exactly when `props.get` agrees on them. */
  lemma {:induction false} FormatDependsOnlyOnReadProperties(p: map<string, Json>, q: map<string, Json>)
    ensures FormatProperties(p) == FormatProperties(q) <==> SameReadProperties(p, q)
  {
    if FormatProperties(p) == FormatProperties(q) {
      forall i | 0 <= i < |FieldMap|
        ensures Get(p, FieldMap[i].1) == Get(q, FieldMap[i].1)
      {
        assert Entries(FormatProperties(p))[i] == Entries(FormatProperties(q))[i];
      }
    }
    if SameReadProperties(p, q) {
      assert Entries(FormatProperties(p)) == Entries(FormatProperties(q));
    }
  }

  /** Every record is a dictionary with exactly the sixteen keys of `FieldMap`:
      a key is present exactly when it is one of them. */
  lemma {:induction false} RecordHasExactlyTheKeys(r: AlertRecord, key: string)
    ensures Field(r, key).Some? <==> key in RecordKeys()
  {
    var keys, entries := RecordKeys(), Entries(r);
    EntryKeys(r);
    if key in keys {
      var i :| 0 <= i < |keys| && keys[i] == key;
      assert entries[i].0 == key;
    }
    if Field(r, key).Some? {
      var i :| 0 <= i < |entries| && entries[i].0 == key;
      assert keys[i] == key;
    }
  }

  /** The keys of a record, position by position, are those of `FieldMap`. */
  lemma EntryKeys(r: AlertRecord)
    ensures |Entries(r)| == |FieldMap|
    ensures forall i :: 0 <= i < |FieldMap| ==> Entries(r)[i].0 == FieldMap[i].0
  {
  }

  /** Looking a key of `FieldMap` up in a formatted record gives the value of
      the property `FieldMap` pairs it with: in particular `area` holds
      `areaDesc` and `sender` holds `senderName`. */
  lemma {:induction false} FieldHoldsProperty(props: map<string, Json>, i: int)
    requires 0 <= i < |FieldMap|
    ensures Field(FormatProperties(props), FieldMap[i].0) == Some(Get(props, FieldMap[i].1))
  {
    FindFirst(Entries(FormatProperties(props)), i);
  }

  /** A property the alert lacks gives `None` under its key; the key is not dropped. */
  lemma {:induction false} MissingPropertyGivesNone(props: map<string, Json>, i: int)
    requires 0 <= i < |FieldMap|
    requires FieldMap[i].1 !in props
    ensures Field(FormatProperties(props), FieldMap[i].0) == Some(Null)
  {
    FieldHoldsProperty(props, i);
  }

  /** In a list of pairs whose keys are pairwise distinct, looking up the key
      at position `i` finds the value at position `i`. */
  lemma {:induction false} FindFirst(entries: seq<(string, Json)>, i: int)
    requires 0 <= i < |entries|
    requires forall j, k :: 0 <= j < k < |entries| ==> entries[j].0 != entries[k].0
    ensures Find(entries, entries[i].0) == Some(entries[i].1)
    decreases i
  {
    if i > 0 {
      assert entries[1..][i - 1] == entries[i];
      FindFirst(entries[1..], i - 1);
    }
  }

  /** A feature without `properties` yields a record whose sixteen fields are all `None`. */
  lemma {:induction false} NoPropertiesAllNone(feature: Json)
    requires WellFormedFeature(feature)
    requires "properties" !in feature.fields
    ensures forall i :: 0 <= i < |FieldMap| ==>
              Field(FormatProperties(PropertiesOf(feature)), FieldMap[i].0) == Some(Null)
  {
    forall i | 0 <= i < |FieldMap|
      ensures Field(FormatProperties(PropertiesOf(feature)), FieldMap[i].0) == Some(Null)
    {
      MissingPropertyGivesNone(PropertiesOf(feature), i);
    }
  }

  /** Features are formatted independently and in order: formatting a
      concatenation concatenates the formatted parts. */
  lemma {:induction false} FormatFeaturesAppend(xs: seq<Json>, ys: seq<Json>)
    requires forall i :: 0 <= i < |xs| ==> WellFormedFeature(xs[i])
    requires forall i :: 0 <= i < |ys| ==> WellFormedFeature(ys[i])
    ensures FormatFeatures(xs + ys) == FormatFeatures(xs) + FormatFeatures(ys)
  {
  }

  /** Only `properties` is read from each feature: collections whose features
      carry the same `properties` pairwise (whatever their geometry or other
      fields) format to the same records. */
  lemma {:induction false} OnlyPropertiesMatter(xs: seq<Json>, ys: seq<Json>)
    requires forall i :: 0 <= i < |xs| ==> WellFormedFeature(xs[i])
    requires forall i :: 0 <= i < |ys| ==> WellFormedFeature(ys[i])
    requires |xs| == |ys|
    requires forall i :: 0 <= i < |xs| ==> SameReadProperties(PropertiesOf(xs[i]), PropertiesOf(ys[i]))
    ensures FormatFeatures(xs) == FormatFeatures(ys)
  {
    forall i | 0 <= i < |xs|
      ensures FormatFeatures(xs)[i] == FormatFeatures(ys)[i]
    {
      FormatDependsOnlyOnReadProperties(PropertiesOf(xs[i]), PropertiesOf(ys[i]));
    }
  }
}
