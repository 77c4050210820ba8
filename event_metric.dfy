/**
 * Toolkit metrics as values: the `data` record an event metric carries, the
 * constructor that builds it from a group, a name and optional properties,
 * and the identity string (`repr`) the queue deduplicates on.
 */
module EventMetrics {
  import opened PythonValues

  /** The `data` dictionary of an event metric, with its three keys
      `event_group`, `event_name` and `event_property`. */
  datatype EventData = EventData(eventGroup: string, eventName: string, eventProperty: map<string, Value>)

  /** Anything that can be put on the metrics queue. An event metric is
      identified by its group and name; any other metric object by whatever
      its own `__repr__` returns. */
  datatype Metric =
    | EventMetric(data: EventData)
    | OtherMetric(repr: string)

  const PropertiesTypeErrorMessage: string := "The `properties` parameter must be None or a dictionary"

  /** `repr(metric)`: "group:name" for an event metric, whatever its properties. */
  function Identity(m: Metric): (id: string)
    ensures m.EventMetric? ==>
      var g := m.data.eventGroup;
      |id| == |g| + 1 + |m.data.eventName| &&
      id[..|g|] == g && id[|g|] == ':' && id[|g| + 1..] == m.data.eventName
  {
    match m
    case EventMetric(d) => d.eventGroup + ":" + d.eventName
    case OtherMetric(r) => r
  }

  /** `_add_event_property`: sets one entry of `event_property` and leaves
      everything else of the record as it was. */
  function AddEventProperty(d: EventData, name: string, value: Value): (r: EventData)
    ensures r.eventGroup == d.eventGroup && r.eventName == d.eventName
    ensures r.eventProperty.Keys == d.eventProperty.Keys + {name}
    ensures r.eventProperty[name] == value
    ensures forall k :: k in d.eventProperty && k != name ==> r.eventProperty[k] == d.eventProperty[k]
  {
    d.(eventProperty := d.eventProperty[name := value])
  }

  /** `EventMetric(group, name, properties)`: group and name are stringified;
      a truthy dict is copied entry by entry into `event_property`, a falsy
      argument leaves it empty, and a truthy non-dict raises `TypeError`. */
  method NewEventMetric(group: Value, name: Value, properties: PropertiesArg) returns (r: Result<Metric>)
    ensures r.Err? <==> PropertiesTruthy(properties) && properties.PlainArg?
    ensures r.Err? ==> r.error == TypeError(PropertiesTypeErrorMessage)
    ensures r.Ok? ==> r.value.EventMetric?
    ensures r.Ok? ==> r.value.data.eventGroup == Str(group) && r.value.data.eventName == Str(name)
    ensures r.Ok? ==> r.value.data.eventProperty == if properties.DictArg? then properties.entries else map[]
  {
    var data := EventData(Str(group), Str(name), map[]);
    if PropertiesTruthy(properties) {
      if properties.PlainArg? {
        return Err(TypeError(PropertiesTypeErrorMessage));
      }
      var entries := properties.entries;
      var keys := entries.Keys;
      while keys != {}
        invariant keys <= entries.Keys
        invariant data.eventGroup == Str(group) && data.eventName == Str(name)
        invariant data.eventProperty.Keys == entries.Keys - keys
        invariant forall k :: k in data.eventProperty ==> data.eventProperty[k] == entries[k]
        decreases |keys|
      {
        var key :| key in keys;
        data := AddEventProperty(data, key, entries[key]);
        keys := keys - {key};
      }
      assert data.eventProperty == entries;
    }
    // The system-information properties step adds nothing.
    r := Ok(EventMetric(data));
  }

  /** Position of the first ':' in `s`, or `|s|` when there is none. */
  function FirstColon(s: string): (i: nat)
    ensures i <= |s|
    ensures forall j :: 0 <= j < i ==> s[j] != ':'
    ensures i < |s| ==> s[i] == ':'
  {
    if s == [] || s[0] == ':' then 0 else 1 + FirstColon(s[1..])
  }

  /** The identity of an event metric does not depend on its properties. */
  lemma IdentityIgnoresProperties(d: EventData, props: map<string, Value>)
    ensures Identity(EventMetric(d)) == Identity(EventMetric(d.(eventProperty := props)))
  {
  }

  /** When the group holds no ':', the identity can be split back into the
      group and the name it was made from. */
  lemma IdentitySplits(d: EventData)
    requires ':' !in d.eventGroup
    ensures var id := Identity(EventMetric(d));
      FirstColon(id) == |d.eventGroup| &&
      id[..FirstColon(id)] == d.eventGroup &&
      id[FirstColon(id) + 1..] == d.eventName
  {
    var g := d.eventGroup;
    var id := Identity(EventMetric(d));
    assert id[|g|] == ':';
    assert id[..|g|] == g;
  }

  /** For colon-free groups, two event metrics share an identity (and so are
      deduplicated against each other) exactly when group and name agree. */
  lemma IdentityEqualIff(d1: EventData, d2: EventData)
    requires ':' !in d1.eventGroup && ':' !in d2.eventGroup
    ensures Identity(EventMetric(d1)) == Identity(EventMetric(d2))
        <==> d1.eventGroup == d2.eventGroup && d1.eventName == d2.eventName
  {
    if Identity(EventMetric(d1)) == Identity(EventMetric(d2)) {
      IdentitySplits(d1);
      IdentitySplits(d2);
    }
  }

  /** A ':' inside the group makes different (group, name) pairs collide:
      "a:b" / "c" and "a" / "b:c" have the same identity. */
  lemma IdentityCollision()
    ensures var m1 := EventMetric(EventData("a:b", "c", map[]));
      var m2 := EventMetric(EventData("a", "b:c", map[]));
      m1 != m2 && Identity(m1) == Identity(m2)
  {
  }
}
