// Compact configs: drop what the defaults restore (ComponentBase.to_dict and _compact in
// max_ai/base/component.py), with `deserialize` as the reload side.
module Component {
  import opened Common

  datatype Json = Null | Str(text: string) | Num(n: int) | List(items: seq<Json>) | Obj(fields: map<string, Json>)

  // A field annotation, reduced to what compaction looks at: the one model it names, the item
  // type of a list, or neither (dicts of any shape, which is how components are nested).
  datatype Type = Any | Model(name: string) | ListOf(item: Type)

  // A default: the JSON it dumps to, and the value a field has when it is left out.
  datatype Default = Required | Default(dump: Json, value: Value)

  datatype Field = Field(default: Default, annotation: Type)

  type Schema = map<string, Field>

  datatype Provider = Provider(schema: string, version: nat)

  // `migrate` is each class's _from_config_past_version: the component it makes of a config
  // dumped by an older version, or VRaises, as every class does that does not override it.
  datatype Registry = Registry(
    models: map<string, Schema>, providers: map<string, Provider>, migrate: (string, int, Json) -> Value)

  // What a reload makes of JSON.
  datatype Value =
    | VNull | VStr(text: string) | VNum(n: int) | VList(items: seq<Value>) | VObj(fields: map<string, Value>)
    | VComponent(provider: string, config: Value)
    | VRaises

  predicate IsComponent(node: Json) {
    && node.Obj? && "provider" in node.fields && node.fields["provider"].Str?
    && node.fields.Keys <=
       {"provider", "config", "component_type", "version", "component_version", "description", "label"}
  }

  function SchemaOf(reg: Registry, ty: Type): Schema {
    if ty.Model? && ty.name in reg.models then reg.models[ty.name] else map[]
  }

  function ItemType(ty: Type): Type { if ty.ListOf? then ty.item else Any }

  function FieldType(schema: Schema, key: string): Type {
    if key in schema then schema[key].annotation else Any
  }

  predicate AtDefault(schema: Schema, key: string, value: Json) {
    key in schema && schema[key].default.Default? && schema[key].default.dump == value
  }

  // The fields compaction keeps.
  function Kept(schema: Schema, fields: map<string, Json>): set<string> {
    set key | key in fields && !AtDefault(schema, key, fields[key])
  }

  function ConfigType(reg: Registry, provider: string): Type {
    if provider in reg.providers then Model(reg.providers[provider].schema) else Any
  }

  predicate Falsy(node: Json) {
    node == Obj(map[]) || node == List([]) || node == Str("") || node == Num(0) || node == Null
  }

  // ---- Compacting ------------------------------------------------------------------------

  // Every component compaction comes across can be loaded; otherwise it raises.
  predicate Loadable(reg: Registry, node: Json, ty: Type)
    decreases node
  {
    match node
    case List(items) => forall i :: 0 <= i < |items| ==> Loadable(reg, items[i], ItemType(ty))
    case Obj(fields) =>
      if IsComponent(node) then
        && fields["provider"].text in reg.providers
        && ("config" in fields ==> Loadable(reg, fields["config"], ConfigType(reg, fields["provider"].text)))
      else
        forall key :: key in Kept(SchemaOf(reg, ty), fields) ==>
          Loadable(reg, fields[key], FieldType(SchemaOf(reg, ty), key))
    case _ => true
  }

  function Compacted(reg: Registry, node: Json, ty: Type): Json
    decreases node, 1
  {
    match node
    case List(items) =>
      List(seq(|items|, i requires 0 <= i < |items| => Compacted(reg, items[i], ItemType(ty))))
    case Obj(fields) =>
      if IsComponent(node) then
        var t := ConfigType(reg, fields["provider"].text);
        var config := if "config" in fields then Compacted(reg, fields["config"], t) else Obj(map[]);
        Obj(if Falsy(config) then map["provider" := fields["provider"]]
            else map["provider" := fields["provider"], "config" := config])
      else
        Obj(CompactedFields(reg, node, SchemaOf(reg, ty)))
    case _ => node
  }

  function CompactedFields(reg: Registry, node: Json, schema: Schema): map<string, Json>
    requires node.Obj?
    decreases node, 0
  {
    map key | key in Kept(schema, node.fields) :: Compacted(reg, node.fields[key], FieldType(schema, key))
  }

  // The code: recursion, with a loop that fills `kept`. None when a provider cannot be loaded.
  method Compact(reg: Registry, node: Json, ty: Type) returns (result: Option<Json>)
    ensures result == if Loadable(reg, node, ty) then Some(Compacted(reg, node, ty)) else None
    decreases node, 1
  {
    match node {
      case List(items) => result := CompactItems(reg, items, ItemType(ty));
      case Obj(fields) =>
        if IsComponent(node) {
          var provider := fields["provider"].text;
          if provider !in reg.providers { return None; }
          var config: Option<Json> := Some(Obj(map[]));
          if "config" in fields {
            config := Compact(reg, fields["config"], Model(reg.providers[provider].schema));
          }
          if config == None { return None; }
          result := Some(Obj(if Falsy(config.value) then map["provider" := fields["provider"]]
                             else map["provider" := fields["provider"], "config" := config.value]));
        } else {
          result := CompactFields(reg, node, SchemaOf(reg, ty));
        }
      case _ => result := Some(node);
    }
  }

  method CompactItems(reg: Registry, items: seq<Json>, ty: Type) returns (result: Option<Json>)
    ensures result.Some? <==> forall i :: 0 <= i < |items| ==> Loadable(reg, items[i], ty)
    ensures result.Some? ==>
              result.value == List(seq(|items|, i requires 0 <= i < |items| => Compacted(reg, items[i], ty)))
    decreases items, 0
  {
    var parts: seq<Json> := [];
    for i := 0 to |items|
      invariant |parts| == i
      invariant forall j :: 0 <= j < i ==> Loadable(reg, items[j], ty) && parts[j] == Compacted(reg, items[j], ty)
    {
      var part := Compact(reg, items[i], ty);
      if part == None { return None; }
      parts := parts + [part.value];
    }
    result := Some(List(parts));
  }

  method CompactFields(reg: Registry, node: Json, schema: Schema) returns (result: Option<Json>)
    requires node.Obj?
    ensures result.Some? <==> forall key :: key in Kept(schema, node.fields) ==>
                                              Loadable(reg, node.fields[key], FieldType(schema, key))
    ensures result.Some? ==> result.value == Obj(CompactedFields(reg, node, schema))
    decreases node, 0
  {
    var fields := node.fields;
    var kept: map<string, Json> := map[];
    var keys := fields.Keys;
    while keys != {}
      invariant keys <= fields.Keys
      invariant forall key :: key in kept <==> key in Kept(schema, fields) && key !in keys
      invariant forall key :: key in kept ==> Loadable(reg, fields[key], FieldType(schema, key))
      invariant forall key :: key in kept ==> kept[key] == CompactedFields(reg, node, schema)[key]
      decreases |keys|
    {
      var key :| key in keys;
      keys := keys - {key};
      if AtDefault(schema, key, fields[key]) { continue; }
      var part := Compact(reg, fields[key], FieldType(schema, key));
      if part == None { return None; }
      kept := kept[key := part.value];
    }
    assert kept == CompactedFields(reg, node, schema);
    result := Some(Obj(kept));
  }

  // ---- What is left out ------------------------------------------------------------------

  // The compact form of a model's dump keeps exactly the fields that are not at their default.
  lemma CompactDropsDefaults(reg: Registry, node: Json, ty: Type, key: string)
    requires node.Obj? && !IsComponent(node)
    ensures var schema := SchemaOf(reg, ty);
            key in Compacted(reg, node, ty).fields
            <==> key in node.fields
                 && !(key in schema && schema[key].default.Default? && schema[key].default.dump == node.fields[key])
  {
  }

  // That of a component keeps its provider and, unless nothing is left of it, its config; none
  // of its metadata.
  lemma CompactDropsMetadata(reg: Registry, node: Json, ty: Type)
    requires node.Obj? && IsComponent(node)
    ensures var c := Compacted(reg, node, ty);
            && c.Obj? && "provider" in c.fields && c.fields["provider"] == node.fields["provider"]
            && c.fields.Keys <= {"provider", "config"}
            && ("config" in c.fields ==> "config" in node.fields && c.fields["config"] != Obj(map[]))
  {
  }

  // ---- Reloading -------------------------------------------------------------------------

  // component_version, else version, else the class's own.
  function VersionOf(node: Json, current: int): int
    requires node.Obj?
  {
    if "component_version" in node.fields && node.fields["component_version"].Num?
       && node.fields["component_version"].n != 0
    then node.fields["component_version"].n
    else if "version" in node.fields && node.fields["version"].Num? && node.fields["version"].n != 0
    then node.fields["version"].n
    else current
  }

  // The given fields, and the defaults of those left out.
  function Completed(schema: Schema, given: map<string, Value>): map<string, Value> {
    map key | key in given.Keys + schema.Keys && (key in given || schema[key].default.Default?)
      :: if key in given then given[key] else schema[key].default.value
  }

  function Load(reg: Registry, node: Json, ty: Type): Value
    decreases node, 1
  {
    match node
    case Null => VNull
    case Str(text) => VStr(text)
    case Num(n) => VNum(n)
    case List(items) => VList(seq(|items|, i requires 0 <= i < |items| => Load(reg, items[i], ItemType(ty))))
    case Obj(fields) =>
      if !ty.Model? && IsComponent(node) then
        var provider := fields["provider"].text;
        var current := if provider in reg.providers then reg.providers[provider].version else 0;
        var config := if "config" in fields then fields["config"] else Obj(map[]);
        if VersionOf(node, current) < current then reg.migrate(provider, VersionOf(node, current), config)
        else
          VComponent(provider, if "config" in fields then Load(reg, fields["config"], ConfigType(reg, provider))
                               else VObj(Completed(SchemaOf(reg, ConfigType(reg, provider)), map[])))
      else
        VObj(Completed(SchemaOf(reg, ty), Loaded(reg, node, SchemaOf(reg, ty))))
  }

  function Loaded(reg: Registry, node: Json, schema: Schema): map<string, Value>
    requires node.Obj?
    decreases node, 0
  {
    map key | key in node.fields :: Load(reg, node.fields[key], FieldType(schema, key))
  }

  // ---- Round trip ------------------------------------------------------------------------

  // A default reloads, from its own dump, to the value it stands for.
  ghost predicate DefaultsReload(reg: Registry) {
    forall name, key :: name in reg.models && key in reg.models[name] && reg.models[name][key].default.Default? ==>
      var field := reg.models[name][key];
      Load(reg, field.default.dump, field.annotation) == field.default.value
  }

  // Dumps as `serialize` writes them: a component's config is a dict, and a dict dumped from a
  // model does not look like a component.
  predicate WellShaped(reg: Registry, node: Json, ty: Type)
    decreases node
  {
    match node
    case List(items) => !ty.Model? && forall i :: 0 <= i < |items| ==> WellShaped(reg, items[i], ItemType(ty))
    case Obj(fields) =>
      && (ty.Model? ==> !IsComponent(node))
      && if IsComponent(node) then
           && fields["provider"].text in reg.providers
           && ("config" in fields ==>
                 fields["config"].Obj? && WellShaped(reg, fields["config"], ConfigType(reg, fields["provider"].text)))
         else
           forall key :: key in fields ==> WellShaped(reg, fields[key], FieldType(SchemaOf(reg, ty), key))
    case _ => true
  }

  // No component that is kept was dumped by an older version of its class.
  predicate Current(reg: Registry, node: Json, ty: Type)
    decreases node
  {
    match node
    case List(items) => forall i :: 0 <= i < |items| ==> Current(reg, items[i], ItemType(ty))
    case Obj(fields) =>
      if !ty.Model? && IsComponent(node) then
        var provider := fields["provider"].text;
        var current := if provider in reg.providers then reg.providers[provider].version else 0;
        && VersionOf(node, current) >= current
        && ("config" in fields ==> Current(reg, fields["config"], ConfigType(reg, provider)))
      else
        forall key :: key in Kept(SchemaOf(reg, ty), fields) ==>
          Current(reg, fields[key], FieldType(SchemaOf(reg, ty), key))
    case _ => true
  }

  lemma CompactedStaysComponent(reg: Registry, node: Json, ty: Type)
    requires WellShaped(reg, node, ty) && !ty.Model? && node.Obj?
    ensures IsComponent(Compacted(reg, node, ty)) <==> IsComponent(node)
  {
    if !IsComponent(node) {
      var c := Compacted(reg, node, ty);
      assert Kept(SchemaOf(reg, ty), node.fields) == node.fields.Keys;
      assert c == Obj(CompactedFields(reg, node, SchemaOf(reg, ty)));
      assert c.fields.Keys == node.fields.Keys;
      if "provider" in node.fields {
        assert FieldType(SchemaOf(reg, ty), "provider") == Any;
        assert c.fields["provider"] == Compacted(reg, node.fields["provider"], Any);
      }
    }
  }

  // The exact condition: a kept component that was dumped by an older version of its class
  // migrates to what the class makes of the compact config, and each default a field was
  // dropped at reloads, from its own dump, to the value it stands for.
  predicate Restorable(reg: Registry, node: Json, ty: Type)
    decreases node
  {
    match node
    case List(items) => forall i :: 0 <= i < |items| ==> Restorable(reg, items[i], ItemType(ty))
    case Obj(fields) =>
      if !ty.Model? && IsComponent(node) then
        if Outdated(reg, node) then Migrates(reg, node)
        else "config" in fields ==> Restorable(reg, fields["config"], ConfigType(reg, fields["provider"].text))
      else
        forall key :: key in fields ==> FieldRestorable(reg, SchemaOf(reg, ty), node, key)
    case _ => true
  }

  predicate Outdated(reg: Registry, node: Json)
    requires IsComponent(node)
  {
    var provider := node.fields["provider"].text;
    var current := if provider in reg.providers then reg.providers[provider].version else 0;
    VersionOf(node, current) < current
  }

  predicate Migrates(reg: Registry, node: Json)
    requires IsComponent(node)
  {
    var provider := node.fields["provider"].text;
    var t := ConfigType(reg, provider);
    var config := if "config" in node.fields then node.fields["config"] else Obj(map[]);
    var current := if provider in reg.providers then reg.providers[provider].version else 0;
    reg.migrate(provider, VersionOf(node, current), config) ==
    VComponent(provider, Load(reg, Compacted(reg, config, t), t))
  }

  predicate FieldRestorable(reg: Registry, schema: Schema, node: Json, key: string)
    requires node.Obj? && key in node.fields
    decreases node, 0
  {
    if AtDefault(schema, key, node.fields[key])
    then Load(reg, node.fields[key], FieldType(schema, key)) == schema[key].default.value
    else Restorable(reg, node.fields[key], FieldType(schema, key))
  }

  // Where no class overrides the migration and every default of every model reloads to its own
  // value, only versions are left to ask.
  lemma {:induction false} RestorableIffCurrent(reg: Registry, node: Json, ty: Type)
    requires DefaultsReload(reg) && forall p, v, c :: reg.migrate(p, v, c) == VRaises
    ensures Restorable(reg, node, ty) <==> Current(reg, node, ty)
    decreases node
  {
    match node {
      case List(items) =>
        forall i | 0 <= i < |items|
          ensures Restorable(reg, items[i], ItemType(ty)) <==> Current(reg, items[i], ItemType(ty))
        {
          RestorableIffCurrent(reg, items[i], ItemType(ty));
        }
      case Obj(fields) =>
        if !ty.Model? && IsComponent(node) {
          if "config" in fields {
            RestorableIffCurrent(reg, fields["config"], ConfigType(reg, fields["provider"].text));
          }
        } else {
          var schema := SchemaOf(reg, ty);
          forall key | key in fields
            ensures FieldRestorable(reg, schema, node, key)
                    <==> (key in Kept(schema, fields) ==> Current(reg, fields[key], FieldType(schema, key)))
          {
            if key in Kept(schema, fields) { RestorableIffCurrent(reg, fields[key], FieldType(schema, key)); }
          }
        }
      case _ =>
    }
  }

  // One field of a model: dropped at its default, or kept and compacted.
  lemma FieldRoundTrip(reg: Registry, ty: Type, node: Json, key: string)
    requires node.Obj?
    requires key in node.fields ==> RoundTrips(reg, node.fields[key], FieldType(SchemaOf(reg, ty), key))
    ensures var schema := SchemaOf(reg, ty);
            Get(Completed(schema, Loaded(reg, Obj(CompactedFields(reg, node, schema)), schema)), key)
            == Get(Completed(schema, Loaded(reg, node, schema)), key)
            <==> (key in node.fields ==> FieldRestorable(reg, schema, node, key))
  {
    var schema := SchemaOf(reg, ty);
    if key in node.fields && key !in Kept(schema, node.fields) {
      assert AtDefault(schema, key, node.fields[key]);
    }
  }

  // Dropping fields at their defaults and letting the reload restore them changes nothing.
  lemma FieldsRoundTrip(reg: Registry, ty: Type, node: Json)
    requires node.Obj?
    requires forall key :: key in node.fields ==> RoundTrips(reg, node.fields[key], FieldType(SchemaOf(reg, ty), key))
    ensures var schema := SchemaOf(reg, ty);
            Completed(schema, Loaded(reg, Obj(CompactedFields(reg, node, schema)), schema))
            == Completed(schema, Loaded(reg, node, schema))
            <==> forall key :: key in node.fields ==> FieldRestorable(reg, schema, node, key)
  {
    hide FieldRestorable, RoundTrips, Completed, Loaded, CompactedFields;
    var schema := SchemaOf(reg, ty);
    var after := Completed(schema, Loaded(reg, Obj(CompactedFields(reg, node, schema)), schema));
    var before := Completed(schema, Loaded(reg, node, schema));
    forall key
      ensures Get(after, key) == Get(before, key) <==> (key in node.fields ==> FieldRestorable(reg, schema, node, key))
    {
      FieldRoundTrip(reg, ty, node, key);
    }
    if forall key :: key in node.fields ==> FieldRestorable(reg, schema, node, key) {
      SameLookups(after, before);
    }
  }

  // The property at one node: compact and full reload alike exactly when it is restorable.
  ghost predicate RoundTrips(reg: Registry, node: Json, ty: Type) {
    Load(reg, Compacted(reg, node, ty), ty) == Load(reg, node, ty) <==> Restorable(reg, node, ty)
  }

  // The compact form reloads to the same configuration as the full dump, if and only if every
  // kept component dumped by an older version of its class migrates to what the compact form
  // gives (compaction drops the version) and the defaults dropped reload to themselves.
  lemma {:induction false} CompactRoundTripIff(reg: Registry, node: Json, ty: Type)
    requires WellShaped(reg, node, ty)
    ensures Load(reg, Compacted(reg, node, ty), ty) == Load(reg, node, ty) <==> Restorable(reg, node, ty)
    decreases node
  {
    match node {
      case List(items) =>
        forall i | 0 <= i < |items| ensures RoundTrips(reg, items[i], ItemType(ty)) {
          CompactRoundTripIff(reg, items[i], ItemType(ty));
        }
        ItemsRoundTrip(reg, node, ty);
      case Obj(fields) =>
        if IsComponent(node) {
          if "config" in fields {
            CompactRoundTripIff(reg, fields["config"], ConfigType(reg, fields["provider"].text));
          }
          ComponentRoundTrip(reg, node, ty);
        } else {
          forall key | key in fields ensures RoundTrips(reg, fields[key], FieldType(SchemaOf(reg, ty), key)) {
            CompactRoundTripIff(reg, fields[key], FieldType(SchemaOf(reg, ty), key));
          }
          FieldsRoundTrip(reg, ty, node);
          if !ty.Model? { CompactedStaysComponent(reg, node, ty); }
        }
      case _ =>
    }
  }

  lemma ItemsRoundTrip(reg: Registry, node: Json, ty: Type)
    requires node.List?
    requires forall i :: 0 <= i < |node.items| ==> RoundTrips(reg, node.items[i], ItemType(ty))
    ensures RoundTrips(reg, node, ty)
  {
    var after, before := Load(reg, Compacted(reg, node, ty), ty).items, Load(reg, node, ty).items;
    assert |after| == |before| == |node.items|;
    assert forall i :: 0 <= i < |before| ==>
      (after[i] == before[i] <==>
         RoundTrips(reg, node.items[i], ItemType(ty)) && Restorable(reg, node.items[i], ItemType(ty)));
  }

  lemma ComponentRoundTrip(reg: Registry, node: Json, ty: Type)
    requires node.Obj? && IsComponent(node) && WellShaped(reg, node, ty)
    requires "config" in node.fields ==>
               RoundTrips(reg, node.fields["config"], ConfigType(reg, node.fields["provider"].text))
    ensures RoundTrips(reg, node, ty)
  {
    var c, provider := Compacted(reg, node, ty), node.fields["provider"].text;
    var t := ConfigType(reg, provider);
    CompactedComponent(reg, node, ty);
    if "config" in node.fields && "config" !in c.fields {
      EmptyConfig(reg, t);
    }
  }

  // A compacted component is its provider, now at the class's own version, and what is left
  // of its config.
  lemma CompactedComponent(reg: Registry, node: Json, ty: Type)
    requires node.Obj? && IsComponent(node)
    ensures var c, provider := Compacted(reg, node, ty), node.fields["provider"].text;
            && IsComponent(c) && c.fields["provider"] == node.fields["provider"]
            && (forall current :: VersionOf(c, current) == current)
            && ("config" in c.fields ==> "config" in node.fields)
            && ("config" in c.fields ==>
                  c.fields["config"] == Compacted(reg, node.fields["config"], ConfigType(reg, provider)))
            && ("config" in node.fields && "config" !in c.fields ==>
                  Falsy(Compacted(reg, node.fields["config"], ConfigType(reg, provider))))
  {
  }

  // A config with nothing left in it may as well be left out.
  lemma EmptyConfig(reg: Registry, ty: Type)
    requires ty.Model?
    ensures Load(reg, Obj(map[]), ty) == VObj(Completed(SchemaOf(reg, ty), map[]))
  {
    assert Loaded(reg, Obj(map[]), SchemaOf(reg, ty)) == map[];
  }

  // A component dumped by version 1 of its class, which is at version 2 by now and does not
  // override the migration: the full dump cannot be reloaded, its compact form can. With a
  // migration that has nothing to change, both load alike.
  lemma OlderComponentLoadsDifferently(migrate: (string, int, Json) -> Value)
    ensures var reg := Registry(map["config" := map[]], map["c" := Provider("config", 2)], migrate);
            var dump := Obj(map["provider" := Str("c"), "component_version" := Num(1), "config" := Obj(map[])]);
            && WellShaped(reg, dump, Any)
            && Load(reg, dump, Any) == migrate("c", 1, Obj(map[]))
            && Load(reg, Compacted(reg, dump, Any), Any) == VComponent("c", VObj(map[]))
            && (Restorable(reg, dump, Any) <==> migrate("c", 1, Obj(map[])) == VComponent("c", VObj(map[])))
  {
    var reg := Registry(map["config" := map[]], map["c" := Provider("config", 2)], migrate);
    var config: Json := Obj(map[]);
    var dump := Obj(map["provider" := Str("c"), "component_version" := Num(1), "config" := config]);
    assert IsComponent(dump) && !IsComponent(config);
    assert Compacted(reg, config, Model("config")) == config by {
      assert CompactedFields(reg, config, map[]) == map[];
    }
    assert WellShaped(reg, config, Model("config"));
    assert Compacted(reg, dump, Any) == Obj(map["provider" := Str("c")]);
    assert Completed(map[], map[]) == map[];
    CompactRoundTripIff(reg, dump, Any);
  }
}
