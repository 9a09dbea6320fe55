/** The translation between the YAML spelling and the NITRO spelling of an
    object's fields in apply_netscaler_state.py: the `rw_properties` table,
    the two mapping loops over it, and the helpers of the snapshot export
    that use them. A dictionary is a `map<string, V>`; a missing key, which
    raises KeyError in the program, is `None`. */
module FieldMapping {
  import opened Wrappers

  /** The keys of `rw_properties`. */
  datatype ResourceType =
    | ServerResource | CsActionResource | CsPolicyResource | LbvserverResource | CsvserverResource
    | ServiceGroupResource | MemberBindingResource | PolicyBindingResource

  /** One entry of a type's list in `rw_properties`. */
  datatype Property = Property(nitro: string, yaml: string)

  /** rw_properties (apply_netscaler_state.py:40-90). */
  function RwProperties(t: ResourceType): seq<Property> {
    match t
    case ServerResource => [Property("ipaddress", "ip_address"), Property("name", "name")]
    case CsActionResource => [Property("name", "name"), Property("targetlbvserver", "target_lbvserver")]
    case CsPolicyResource => [Property("policyname", "name"), Property("rule", "expression"), Property("action", "action")]
    case LbvserverResource =>
      [Property("name", "name"), Property("ipv46", "vip_address"), Property("port", "port"), Property("servicetype", "protocol")]
    case CsvserverResource =>
      [Property("name", "name"), Property("ipv46", "vip_address"), Property("port", "port"), Property("servicetype", "protocol")]
    case ServiceGroupResource => [Property("servicegroupname", "name"), Property("servicetype", "protocol")]
    case MemberBindingResource => [Property("servername", "name"), Property("port", "port")]
    case PolicyBindingResource => [Property("policyname", "name"), Property("priority", "priority")]
  }

  /** The key a property is read from, and the key it is written to, when
      translating towards NITRO (`toNitro`) or towards YAML. */
  function Source(p: Property, toNitro: bool): string {
    if toNitro then p.yaml else p.nitro
  }

  function Target(p: Property, toNitro: bool): string {
    if toNitro then p.nitro else p.yaml
  }

  /** No two properties of a type share a NITRO name or a YAML name. */
  predicate NamesDistinct(props: seq<Property>) {
    forall i, j :: 0 <= i < j < |props| ==> props[i].nitro != props[j].nitro && props[i].yaml != props[j].yaml
  }

  /** Every property of `props` can be read from `src`. */
  predicate Readable<V>(props: seq<Property>, toNitro: bool, src: map<string, V>) {
    forall i :: 0 <= i < |props| ==> Source(props[i], toNitro) in src
  }

  /** The dictionary the mapping loop builds from its first `n` iterations. */
  function Translate<V>(props: seq<Property>, toNitro: bool, src: map<string, V>, n: nat): map<string, V>
    requires n <= |props| && forall i :: 0 <= i < n ==> Source(props[i], toNitro) in src
    decreases n
  {
    if n == 0 then map[]
    else Translate(props, toNitro, src, n - 1)[Target(props[n - 1], toNitro) := src[Source(props[n - 1], toNitro)]]
  }

  /** The names the translation writes. */
  ghost function Targets(props: seq<Property>, toNitro: bool, n: nat): set<string>
    requires n <= |props|
  {
    set i | 0 <= i < n :: Target(props[i], toNitro)
  }

  /** The table satisfies the condition of the round trip. */
  lemma RwPropertiesDistinct(t: ResourceType)
    ensures NamesDistinct(RwProperties(t))
  {
  }

  /** The names written by the first `n` iterations are those written by
      the first `n - 1` and the target of property `n - 1`. */
  lemma TargetsSnoc(props: seq<Property>, toNitro: bool, n: nat)
    requires 0 < n <= |props|
    ensures Targets(props, toNitro, n) == Targets(props, toNitro, n - 1) + {Target(props[n - 1], toNitro)}
  {
    forall k | k in Targets(props, toNitro, n)
      ensures k in Targets(props, toNitro, n - 1) + {Target(props[n - 1], toNitro)}
    {
      var i := TargetIndex(props, toNitro, n, k);
      if i < n - 1 {
        assert k in Targets(props, toNitro, n - 1);
      }
    }
  }

  /** The translation writes exactly the target names. */
  lemma {:induction false} TranslateKeys<V>(props: seq<Property>, toNitro: bool, src: map<string, V>, n: nat)
    requires n <= |props| && forall i :: 0 <= i < n ==> Source(props[i], toNitro) in src
    ensures Translate(props, toNitro, src, n).Keys == Targets(props, toNitro, n)
    decreases n
  {
    if n > 0 {
      TranslateKeys(props, toNitro, src, n - 1);
      TargetsSnoc(props, toNitro, n);
    }
  }

  /** Each target name holds the value of its own source key, provided the
      target names are distinct. */
  lemma {:induction false} TranslateValues<V>(props: seq<Property>, toNitro: bool, src: map<string, V>, n: nat)
    requires n <= |props| && forall i :: 0 <= i < n ==> Source(props[i], toNitro) in src
    requires NamesDistinct(props)
    ensures var r := Translate(props, toNitro, src, n);
            forall i :: 0 <= i < n ==> Target(props[i], toNitro) in r && r[Target(props[i], toNitro)] == src[Source(props[i], toNitro)]
    decreases n
  {
    if n > 0 {
      TranslateValues(props, toNitro, src, n - 1);
      var m := Translate(props, toNitro, src, n - 1);
      var p := props[n - 1];
      var r := Translate(props, toNitro, src, n);
      assert r == m[Target(p, toNitro) := src[Source(p, toNitro)]];
      forall i | 0 <= i < n - 1
        ensures Target(props[i], toNitro) in r && r[Target(props[i], toNitro)] == src[Source(props[i], toNitro)]
      {
        assert props[i].nitro != p.nitro && props[i].yaml != p.yaml;
        assert Target(props[i], toNitro) != Target(p, toNitro);
      }
    }
  }

  /** The translation writes exactly the target names, each with the value
      of its own source key, provided the target names are distinct. */
  lemma TranslateContents<V>(props: seq<Property>, toNitro: bool, src: map<string, V>, n: nat)
    requires n <= |props| && forall i :: 0 <= i < n ==> Source(props[i], toNitro) in src
    requires NamesDistinct(props)
    ensures Translate(props, toNitro, src, n).Keys == Targets(props, toNitro, n)
    ensures forall i :: 0 <= i < n ==> Translate(props, toNitro, src, n)[Target(props[i], toNitro)] == src[Source(props[i], toNitro)]
  {
    TranslateKeys(props, toNitro, src, n);
    TranslateValues(props, toNitro, src, n);
  }

  /** A name the translation writes is the target of one of its
      properties. */
  lemma TargetIndex(props: seq<Property>, toNitro: bool, n: nat, k: string) returns (i: nat)
    requires n <= |props| && k in Targets(props, toNitro, n)
    ensures i < n && Target(props[i], toNitro) == k
  {
    i :| 0 <= i < n && Target(props[i], toNitro) == k;
  }

  /** Over properties with distinct names, translating to NITRO and back
      gives the configuration restricted to the YAML names. */
  lemma PropertiesRoundTrip<V>(props: seq<Property>, conf: map<string, V>)
    requires NamesDistinct(props) && Readable(props, true, conf)
    ensures var options := Translate(props, true, conf, |props|);
            && Readable(props, false, options)
            && Translate(props, false, options, |props|) == map k | k in conf && k in Targets(props, false, |props|) :: conf[k]
  {
    var options := Translate(props, true, conf, |props|);
    TranslateContents(props, true, conf, |props|);
    assert forall i :: 0 <= i < |props| ==> Source(props[i], false) == Target(props[i], true);
    var back := Translate(props, false, options, |props|);
    TranslateContents(props, false, options, |props|);
    var restricted := map k | k in conf && k in Targets(props, false, |props|) :: conf[k];
    assert Targets(props, false, |props|) <= conf.Keys;
    forall k | k in back
      ensures back[k] == restricted[k]
    {
      var i := TargetIndex(props, false, |props|, k);
      assert back[Target(props[i], false)] == options[Source(props[i], false)];
      assert options[Target(props[i], true)] == conf[Source(props[i], true)];
    }
  }

  /** Translating a configuration to NITRO and back gives it restricted to
      its type's YAML fields. */
  lemma RoundTrip<V>(t: ResourceType, conf: map<string, V>)
    requires Readable(RwProperties(t), true, conf)
    ensures var props := RwProperties(t);
            var options := Translate(props, true, conf, |props|);
            && Readable(props, false, options)
            && Translate(props, false, options, |props|) == map k | k in conf && k in Targets(props, false, |props|) :: conf[k]
  {
    RwPropertiesDistinct(t);
    PropertiesRoundTrip(RwProperties(t), conf);
  }

  /** map_yaml_config_to_nitro_object_options
      (apply_netscaler_state.py:291-297): one NITRO entry per property of
      the type, KeyError (None) as soon as a YAML field is missing; what the
      entries hold is TranslateContents. */
  method MapYamlConfigToNitroObjectOptions<V>(t: ResourceType, conf: map<string, V>) returns (options: Option<map<string, V>>)
    ensures options.Some? <==> Readable(RwProperties(t), true, conf)
    ensures options.Some? ==> options.value == Translate(RwProperties(t), true, conf, |RwProperties(t)|)
  {
    var props := RwProperties(t);
    var out: map<string, V> := map[];
    var i := 0;
    while i < |props|
      invariant 0 <= i <= |props|
      invariant forall j :: 0 <= j < i ==> props[j].yaml in conf
      invariant out == Translate(props, true, conf, i)
    {
      if props[i].yaml !in conf {
        return None;
      }
      out := out[props[i].nitro := conf[props[i].yaml]];
      i := i + 1;
    }
    options := Some(out);
  }

  /** map_nitro_object_options_to_yaml_config
      (apply_netscaler_state.py:300-306): one YAML entry per property of the
      type, KeyError (None) as soon as a NITRO option is missing. */
  method MapNitroObjectOptionsToYamlConfig<V>(t: ResourceType, options: map<string, V>) returns (conf: Option<map<string, V>>)
    ensures conf.Some? <==> Readable(RwProperties(t), false, options)
    ensures conf.Some? ==> conf.value == Translate(RwProperties(t), false, options, |RwProperties(t)|)
  {
    var props := RwProperties(t);
    var out: map<string, V> := map[];
    var i := 0;
    while i < |props|
      invariant 0 <= i <= |props|
      invariant forall j :: 0 <= j < i ==> props[j].nitro in options
      invariant out == Translate(props, false, options, i)
    {
      if props[i].nitro !in options {
        return None;
      }
      out := out[props[i].yaml := options[props[i].nitro]];
      i := i + 1;
    }
    conf := Some(out);
  }

  /** What the mapping of a type writes: exactly the target names of its
      properties, each with the value of its source name. */
  lemma MappedFields<V>(t: ResourceType, toNitro: bool, src: map<string, V>)
    requires Readable(RwProperties(t), toNitro, src)
    ensures var props := RwProperties(t);
            var r := Translate(props, toNitro, src, |props|);
            && r.Keys == Targets(props, toNitro, |props|)
            && forall i :: 0 <= i < |props| ==> r[Target(props[i], toNitro)] == src[Source(props[i], toNitro)]
  {
    RwPropertiesDistinct(t);
    TranslateContents(RwProperties(t), toNitro, src, |RwProperties(t)|);
  }

  /** An NSBaseResource as the export sees it: its resource type and its
      options dictionary. */
  datatype NitroObject<V> = NitroObject(resourcetype: ResourceType, options: map<string, V>)

  /** The object holds every NITRO field of its type. */
  predicate Complete<V>(o: NitroObject<V>) {
    Readable(RwProperties(o.resourcetype), false, o.options)
  }

  /** The YAML form of an object whose NITRO fields are all present. */
  function YamlOf<V>(o: NitroObject<V>): map<string, V>
    requires Complete(o)
  {
    Translate(RwProperties(o.resourcetype), false, o.options, |RwProperties(o.resourcetype)|)
  }

  /** convert_list_of_nitro_objects_to_yaml_config
      (apply_netscaler_state.py:1470-1485): no list gives the empty list;
      otherwise one YAML configuration per object, in order, and KeyError
      (None) if an object misses a field of its type. */
  method ConvertListOfNitroObjectsToYamlConfig<V>(objs: Option<seq<NitroObject<V>>>)
    returns (r: Option<seq<map<string, V>>>)
    ensures objs.None? ==> r == Some([])
    ensures objs.Some? ==>
              (r.Some? <==> forall j :: 0 <= j < |objs.value| ==> Complete(objs.value[j]))
    ensures objs.Some? && r.Some? ==>
              |r.value| == |objs.value| && forall j :: 0 <= j < |objs.value| ==> r.value[j] == YamlOf(objs.value[j])
  {
    var out: seq<map<string, V>> := [];
    if objs.Some? {
      var xs := objs.value;
      var j := 0;
      while j < |xs|
        invariant 0 <= j <= |xs| && |out| == j
        invariant forall k :: 0 <= k < j ==> Complete(xs[k])
        invariant forall k :: 0 <= k < j ==> out[k] == YamlOf(xs[k])
      {
        var conf := ObjectToYaml(xs[j]);
        if conf.None? {
          return None;
        }
        out := out + [conf.value];
        j := j + 1;
      }
    }
    r := Some(out);
  }

  /** One object's YAML form, KeyError (None) if it misses a field. */
  method ObjectToYaml<V>(o: NitroObject<V>) returns (conf: Option<map<string, V>>)
    ensures conf.Some? <==> Complete(o)
    ensures conf.Some? ==> Complete(o) && conf.value == YamlOf(o)
  {
    conf := MapNitroObjectOptionsToYamlConfig(o.resourcetype, o.options);
  }

  /** assign_if_list_not_empty (apply_netscaler_state.py:1488-1502): the
      key holds the list exactly when the list is not empty, and every other
      key keeps its value. The dictionary updated in place is returned. */
  function AssignIfListNotEmpty<V>(d: map<string, seq<V>>, key: string, values: seq<V>): (r: map<string, seq<V>>)
    ensures |values| > 0 ==> key in r && r[key] == values
    ensures |values| == 0 ==> r == d
    ensures forall k :: k != key ==> (k in r <==> k in d) && (k in r ==> r[k] == d[k])
  {
    if |values| > 0 then d[key := values] else d
  }
}
