/** Binding the deployment mappings of a CloudFormation template to one destination, and
    what that means for the value of the template. */
module MappingRewrite {
  import opened ArchivePath
  import opened Outcomes

  /** A template node; Other stands for numbers, booleans and null. */
  datatype Json = Scalar(text: string) | Other(code: int) | List(items: seq<Json>) | Dict(fields: seq<Field>)

  datatype Field = Field(name: string, value: Json)

  datatype BindError = Malformed | Unexpected | NoMappings

  type Mappings = map<string, map<string, map<string, Json>>>

  const LOOKUP := "Fn::FindInMap"

  /** The field of the two mappings that are bound. */
  function BoundField(mapping: string): Option<string> {
    if mapping == "DeploymentNames" then Some("SanitizedDeploymentId")
    else if mapping == "DeploymentDocumentBuckets" then Some("Name")
    else None
  }

  const DEPLOYMENT := Dict([Field("Ref", Scalar("DeploymentId"))])

  const BOUND := Scalar("Bound")

  predicate IsLookup(v: Json) {
    v.Dict? && |v.fields| == 1 && v.fields[0].name == LOOKUP
  }

  /** Whether a lookup goes to one of the two mappings. Arguments without a first element,
      or with one that cannot be a name, fail. */
  function Target(argument: Json): Result<bool, BindError> {
    match argument
    case Scalar(s) => if s == "" then Err(Malformed) else Ok(false)
    case Other(_) => Err(Malformed)
    case Dict(_) => Err(Malformed)
    case List(items) =>
      if items == [] then Err(Malformed)
      else match items[0]
        case Scalar(m) => Ok(BoundField(m).Some?)
        case Other(_) => Ok(false)
        case _ => Err(Malformed)
  }

  /** Which lookups are bound, by their arguments: those whose first argument names one of
      the two mappings. The argument may also be a text, of which only the first character
      is looked at; if it is empty, or the first argument is a list or a dictionary, it fails. */
  lemma TargetsAreExact(argument: Json)
    ensures Target(argument) == Ok(true) <==>
      argument.List? && argument.items != [] && argument.items[0] in {Scalar("DeploymentNames"), Scalar("DeploymentDocumentBuckets")}
    ensures Target(argument).Err? <==>
      || argument.Other? || argument.Dict? || argument == Scalar("")
      || (argument.List? && (argument.items == [] || argument.items[0].List? || argument.items[0].Dict?))
    ensures Target(argument).Err? ==> Target(argument) == Err(Malformed)
  {
  }

  function Lookup(mapping: string, key: Json, field: string): Json {
    Dict([Field(LOOKUP, List([Scalar(mapping), key, Scalar(field)]))])
  }

  /** The rewriting of a lookup in one of the two mappings. */
  function Bind(items: seq<Json>): Result<Json, BindError>
    requires items != [] && items[0].Scalar? && BoundField(items[0].text).Some?
  {
    var m := items[0].text;
    if |items| != 3 then Err(Malformed)
    else if items[1] != DEPLOYMENT || items[2] != Scalar(BoundField(m).value) then Err(Unexpected)
    else Ok(Lookup(m, BOUND, BoundField(m).value))
  }

  function Visit(v: Json): Result<Json, BindError>
    decreases v, 0
  {
    match v
    case List(items) =>
      var r := VisitAll(items);
      if r.Err? then Err(r.error) else Ok(List(r.value))
    case Dict(fields) =>
      if IsLookup(v) && Target(fields[0].value).Err? then Err(Target(fields[0].value).error)
      else if IsLookup(v) && Target(fields[0].value).value then Bind(fields[0].value.items)
      else
        var r := VisitFields(fields);
        if r.Err? then Err(r.error) else Ok(Dict(r.value))
    case _ => Ok(v)
  }

  function VisitAll(items: seq<Json>): (r: Result<seq<Json>, BindError>)
    ensures r.Ok? ==> |r.value| == |items|
  {
    if items == [] then Ok([])
    else
      var first := Visit(items[0]);
      if first.Err? then Err(first.error)
      else
        var rest := VisitAll(items[1..]);
        if rest.Err? then rest else Ok([first.value] + rest.value)
  }

  function VisitFields(fields: seq<Field>): (r: Result<seq<Field>, BindError>)
    ensures r.Ok? ==> |r.value| == |fields|
  {
    if fields == [] then Ok([])
    else
      var first := Visit(fields[0].value);
      if first.Err? then Err(first.error)
      else
        var rest := VisitFields(fields[1..]);
        if rest.Err? then rest else Ok([Field(fields[0].name, first.value)] + rest.value)
  }

  // ---------------------------------------------------------------- what a template means

  function Find(maps: Mappings, mapping: string, key: string, field: string): Option<Json> {
    if mapping in maps && key in maps[mapping] && field in maps[mapping][key] then Some(maps[mapping][key][field]) else None
  }

  predicate IsRef(v: Json) {
    v.Dict? && |v.fields| == 1 && v.fields[0].name == "Ref" && v.fields[0].value.Scalar?
  }

  /** The value of a node: references to parameters and lookups are resolved, everything
      else keeps its shape. None for a lookup that CloudFormation would refuse. */
  function Value(v: Json, parameters: map<string, string>, maps: Mappings): Option<Json>
    decreases v, 0
  {
    match v
    case List(items) =>
      var r := Values(items, parameters, maps);
      if r == None then None else Some(List(r.value))
    case Dict(fields) =>
      if IsRef(v) then
        var name := fields[0].value.text;
        Some(if name in parameters then Scalar(parameters[name]) else v)
      else
        var r := FieldValues(fields, parameters, maps);
        if r == None then None
        else if IsLookup(v) then Resolved(r.value[0].value, maps)
        else Some(Dict(r.value))
    case _ => Some(v)
  }

  function Resolved(argument: Json, maps: Mappings): Option<Json> {
    if argument.List? && |argument.items| == 3
       && argument.items[0].Scalar? && argument.items[1].Scalar? && argument.items[2].Scalar?
    then Find(maps, argument.items[0].text, argument.items[1].text, argument.items[2].text)
    else None
  }

  function Values(items: seq<Json>, parameters: map<string, string>, maps: Mappings): (r: Option<seq<Json>>)
    ensures r.Some? ==> |r.value| == |items|
  {
    if items == [] then Some([])
    else
      var first, rest := Value(items[0], parameters, maps), Values(items[1..], parameters, maps);
      if first == None || rest == None then None else Some([first.value] + rest.value)
  }

  function FieldValues(fields: seq<Field>, parameters: map<string, string>, maps: Mappings): (r: Option<seq<Field>>)
    ensures r.Some? ==> |r.value| == |fields|
  {
    if fields == [] then Some([])
    else
      var first, rest := Value(fields[0].value, parameters, maps), FieldValues(fields[1..], parameters, maps);
      if first == None || rest == None then None else Some([Field(fields[0].name, first.value)] + rest.value)
  }

  /** A dictionary with one plain field stands for a parameter exactly if the field is Ref. */
  lemma OnlyRefIsReplaced(name: string, text: string, parameters: map<string, string>, maps: Mappings)
    requires name != LOOKUP
    ensures var v := Dict([Field(name, Scalar(text))]);
            Value(v, parameters, maps) == Some(if name == "Ref" && text in parameters then Scalar(parameters[text]) else v)
  {
    var fields := [Field(name, Scalar(text))];
    assert fields[1..] == [];
    assert FieldValues(fields[1..], parameters, maps) == Some([]);
    assert Value(fields[0].value, parameters, maps) == Some(Scalar(text));
    assert [fields[0]] + [] == fields;
  }

  // ---------------------------------------------------------------- the two ways to fill the mappings

  function Dashed(s: string): (r: string)
    ensures |r| == |s| && forall i :: 0 <= i < |s| ==> r[i] == if s[i] == '_' then '-' else s[i]
  {
    seq(|s|, i requires 0 <= i < |s| => if s[i] == '_' then '-' else s[i])
  }

  /** The name of a deployment in lower case, without underscores. */
  function Prefix(deployment: string): string {
    Fold(Dashed(deployment))
  }

  /** Both mappings with their one entry under this key. */
  function Filled(maps: Mappings, key: string, deployment: string): Mappings {
    var prefix := Prefix(deployment);
    maps["DeploymentNames" := map[key := map["SanitizedDeploymentId" := Scalar(prefix)]]]
        ["DeploymentDocumentBuckets" := map[key := map["Name" := Scalar(prefix + "-documents")]]]
  }

  /** The text is the name of the deployment with dashes for underscores and small letters
      for capital ones, character by character. */
  ghost predicate Sanitizes(text: string, deployment: string) {
    && |text| == |deployment|
    && forall i :: 0 <= i < |text| ==>
         text[i] == (if deployment[i] == '_' then '-'
                     else if 'A' <= deployment[i] <= 'Z' then (deployment[i] as int + 32) as char else deployment[i])
  }

  /** What the two mappings hold, and that the others are as before. */
  lemma FilledHolds(maps: Mappings, key: string, deployment: string) returns (text: string)
    ensures Sanitizes(text, deployment)
    ensures var m := Filled(maps, key, deployment);
            && m.Keys == maps.Keys + {"DeploymentNames", "DeploymentDocumentBuckets"}
            && m["DeploymentNames"] == map[key := map["SanitizedDeploymentId" := Scalar(text)]]
            && m["DeploymentDocumentBuckets"] == map[key := map["Name" := Scalar(text + "-documents")]]
            && forall name :: name in maps && name !in {"DeploymentNames", "DeploymentDocumentBuckets"} ==> m[name] == maps[name]
  {
    text := Prefix(deployment);
    var dashed := Dashed(deployment);
    forall i | 0 <= i < |text|
      ensures text[i] == (if deployment[i] == '_' then '-'
                          else if 'A' <= deployment[i] <= 'Z' then (deployment[i] as int + 32) as char else deployment[i])
    {
      assert text[i] == Lower(dashed[i]);
    }
  }

  /** The two lookups that are bound, before and after. */
  lemma BoundLookups()
    ensures Visit(Lookup("DeploymentNames", Dict([Field("Ref", Scalar("DeploymentId"))]), "SanitizedDeploymentId"))
            == Ok(Lookup("DeploymentNames", Scalar("Bound"), "SanitizedDeploymentId"))
    ensures Visit(Lookup("DeploymentDocumentBuckets", Dict([Field("Ref", Scalar("DeploymentId"))]), "Name"))
            == Ok(Lookup("DeploymentDocumentBuckets", Scalar("Bound"), "Name"))
  {
    hide VisitFields, VisitAll;
  }

  /** What the two bound lookups give. */
  lemma BoundLookupsGive(maps: Mappings, deployment: string, parameters: map<string, string>, text: string)
    requires "DeploymentNames" in maps && maps["DeploymentNames"] == map["Bound" := map["SanitizedDeploymentId" := Scalar(text)]]
    requires "DeploymentDocumentBuckets" in maps && maps["DeploymentDocumentBuckets"] == map["Bound" := map["Name" := Scalar(text + "-documents")]]
    ensures Value(Lookup("DeploymentNames", Scalar("Bound"), "SanitizedDeploymentId"), parameters, maps) == Some(Scalar(text))
    ensures Value(Lookup("DeploymentDocumentBuckets", Scalar("Bound"), "Name"), parameters, maps) == Some(Scalar(text + "-documents"))
  {
    hide Value, Lookup;
    LookupValue("DeploymentNames", Scalar("Bound"), "SanitizedDeploymentId", parameters, maps);
    LookupValue("DeploymentDocumentBuckets", Scalar("Bound"), "Name", parameters, maps);
    ScalarValue("Bound", parameters, maps);
  }

  lemma ScalarValue(s: string, parameters: map<string, string>, maps: Mappings)
    ensures Value(Scalar(s), parameters, maps) == Some(Scalar(s))
  {
  }

  lemma BoundLookup(mapping: string, maps: Mappings, deployment: string)
    requires BoundField(mapping).Some?
    ensures var field := BoundField(mapping).value;
            Find(Filled(maps, "Bound", deployment), mapping, "Bound", field).Some?
            && Find(Filled(maps, "Bound", deployment), mapping, "Bound", field)
               == Find(Filled(maps, deployment, deployment), mapping, deployment, field)
  {
  }

  lemma OtherLookup(mapping: string, key: string, field: string, maps: Mappings, deployment: string)
    requires BoundField(mapping) == None
    ensures Find(Filled(maps, "Bound", deployment), mapping, key, field)
            == Find(Filled(maps, deployment, deployment), mapping, key, field)
  {
  }

  lemma {:induction false} ValuesAt(items: seq<Json>, parameters: map<string, string>, maps: Mappings)
    ensures var r := Values(items, parameters, maps);
            && (r.Some? <==> forall i :: 0 <= i < |items| ==> Value(items[i], parameters, maps).Some?)
            && (r.Some? ==> forall i :: 0 <= i < |items| ==> Value(items[i], parameters, maps) == Some(r.value[i]))
  {
    if items != [] {
      ValuesAt(items[1..], parameters, maps);
      assert forall i :: 0 < i < |items| ==> items[i] == items[1..][i - 1];
    }
  }

  lemma LookupArgument(items: seq<Json>, parameters: map<string, string>, maps: Mappings)
    ensures var v := Dict([Field(LOOKUP, List(items))]);
            Value(v, parameters, maps)
            == if Values(items, parameters, maps) == None then None else Resolved(List(Values(items, parameters, maps).value), maps)
  {
    var fields := [Field(LOOKUP, List(items))];
    assert fields[1..] == [] && !IsRef(Dict(fields));
    var rest := FieldValues(fields[1..], parameters, maps);
    assert rest == Some([]);
    assert Value(fields[0].value, parameters, maps)
        == if Values(items, parameters, maps) == None then None else Some(List(Values(items, parameters, maps).value));
  }

  lemma LookupValue(mapping: string, key: Json, field: string, parameters: map<string, string>, maps: Mappings)
    ensures Value(Lookup(mapping, key, field), parameters, maps)
            == var k := Value(key, parameters, maps);
               if k.Some? && k.value.Scalar? then Find(maps, mapping, k.value.text, field) else None
  {
    var items := [Scalar(mapping), key, Scalar(field)];
    ValuesAt(items, parameters, maps);
    LookupArgument(items, parameters, maps);
    assert Value(items[0], parameters, maps) == Some(Scalar(mapping)) && Value(items[2], parameters, maps) == Some(Scalar(field));
    assert Value(items[1], parameters, maps) == Value(key, parameters, maps);
  }

  /** A lookup that is bound has the value it had for the pinned deployment. */
  lemma LookupKeepsValue(v: Json, parameters: map<string, string>, maps: Mappings, deployment: string)
    requires v.Dict? && IsLookup(v) && Visit(v).Ok? && Target(v.fields[0].value) == Ok(true)
    requires "DeploymentId" in parameters && parameters["DeploymentId"] == deployment
    ensures Value(Visit(v).value, parameters, Filled(maps, "Bound", deployment))
            == Value(v, parameters, Filled(maps, deployment, deployment))
  {
    hide Filled;
    var m := v.fields[0].value.items[0].text;
    assert v.fields[0].value == List([Scalar(m), DEPLOYMENT, Scalar(BoundField(m).value)]);
    assert v.fields == [v.fields[0]];
    assert v == Lookup(m, DEPLOYMENT, BoundField(m).value);
    LookupValue(m, DEPLOYMENT, BoundField(m).value, parameters, Filled(maps, deployment, deployment));
    LookupValue(m, BOUND, BoundField(m).value, parameters, Filled(maps, "Bound", deployment));
    BoundLookup(m, maps, deployment);
  }

  /** Binding preserves the meaning of every accepted template: its value with the one bound
      entry is the value of the original with an entry for the pinned deployment. */
  lemma {:induction false} BindingKeepsValue(v: Json, parameters: map<string, string>, maps: Mappings, deployment: string)
    requires Visit(v).Ok? && "DeploymentId" in parameters && parameters["DeploymentId"] == deployment
    ensures Value(Visit(v).value, parameters, Filled(maps, "Bound", deployment))
            == Value(v, parameters, Filled(maps, deployment, deployment))
    decreases v, 0
  {
    hide Filled;
    match v {
      case List(items) => BindingKeepsValues(items, parameters, maps, deployment);
      case Dict(fields) =>
        if IsLookup(v) && Target(fields[0].value).value {
          LookupKeepsValue(v, parameters, maps, deployment);
        } else {
          BindingKeepsFields(fields, parameters, maps, deployment);
          SameKind(v);
          if IsLookup(v) && Value(fields[0].value, parameters, Filled(maps, deployment, deployment)).Some? {
            SameResolution(fields[0].value, parameters, maps, deployment);
          }
        }
      case _ =>
    }
  }

  lemma {:induction false} BindingKeepsValues(items: seq<Json>, parameters: map<string, string>, maps: Mappings, deployment: string)
    requires VisitAll(items).Ok? && "DeploymentId" in parameters && parameters["DeploymentId"] == deployment
    ensures Values(VisitAll(items).value, parameters, Filled(maps, "Bound", deployment))
            == Values(items, parameters, Filled(maps, deployment, deployment))
  {
    hide Filled;
    if items != [] {
      BindingKeepsValue(items[0], parameters, maps, deployment);
      BindingKeepsValues(items[1..], parameters, maps, deployment);
      assert VisitAll(items).value[1..] == VisitAll(items[1..]).value;
    }
  }

  lemma {:induction false} BindingKeepsFields(fields: seq<Field>, parameters: map<string, string>, maps: Mappings, deployment: string)
    requires VisitFields(fields).Ok? && "DeploymentId" in parameters && parameters["DeploymentId"] == deployment
    ensures FieldValues(VisitFields(fields).value, parameters, Filled(maps, "Bound", deployment))
            == FieldValues(fields, parameters, Filled(maps, deployment, deployment))
  {
    hide Filled;
    if fields != [] {
      BindingKeepsValue(fields[0].value, parameters, maps, deployment);
      BindingKeepsFields(fields[1..], parameters, maps, deployment);
      assert VisitFields(fields).value[1..] == VisitFields(fields[1..]).value;
    }
  }

  /** Visiting the fields of a node leaves it the reference or lookup that it was. */
  lemma SameKind(v: Json)
    requires v.Dict? && VisitFields(v.fields).Ok?
    ensures var w := Dict(VisitFields(v.fields).value);
            IsRef(w) == IsRef(v) && IsLookup(w) == IsLookup(v) && (IsRef(v) ==> w == v)
  {
  }

  /** A lookup in another mapping resolves in both ways to the same. */
  lemma SameResolution(argument: Json, parameters: map<string, string>, maps: Mappings, deployment: string)
    requires Target(argument) == Ok(false)
    requires Value(argument, parameters, Filled(maps, deployment, deployment)).Some?
    ensures var value := Value(argument, parameters, Filled(maps, deployment, deployment)).value;
            Resolved(value, Filled(maps, "Bound", deployment)) == Resolved(value, Filled(maps, deployment, deployment))
  {
    var value := Value(argument, parameters, Filled(maps, deployment, deployment)).value;
    if argument.List? {
      ValuesAt(argument.items, parameters, Filled(maps, deployment, deployment));
      assert Value(argument.items[0], parameters, Filled(maps, deployment, deployment)) == Some(value.items[0]);
    }
    if argument.List? && |value.items| == 3 && value.items[0].Scalar? && value.items[1].Scalar? && value.items[2].Scalar? {
      OtherLookup(value.items[0].text, value.items[1].text, value.items[2].text, maps, deployment);
    }
  }

  // ---------------------------------------------------------------- nothing else changes

  predicate IsBound(v: Json) {
    IsLookup(v) && v.fields[0].value.List? && |v.fields[0].value.items| == 3
    && var items := v.fields[0].value.items;
       items[0].Scalar? && items[1] == BOUND && BoundField(items[0].text).Some?
       && items[2] == Scalar(BoundField(items[0].text).value)
  }

  /** Puts the reference to the deployment back into every bound lookup. */
  function Unbind(v: Json): Json
    decreases v, 0
  {
    match v
    case List(items) => List(UnbindAll(items))
    case Dict(fields) =>
      if IsBound(v) then Lookup(fields[0].value.items[0].text, DEPLOYMENT, fields[0].value.items[2].text)
      else Dict(UnbindFields(fields))
    case _ => v
  }

  function UnbindAll(items: seq<Json>): seq<Json> {
    if items == [] then [] else [Unbind(items[0])] + UnbindAll(items[1..])
  }

  function UnbindFields(fields: seq<Field>): seq<Field> {
    if fields == [] then [] else [Field(fields[0].name, Unbind(fields[0].value))] + UnbindFields(fields[1..])
  }

  /** Undoing the bound lookups gives the original back: no other node has changed. */
  lemma {:induction false} OnlyLookupsChange(v: Json)
    requires Visit(v).Ok?
    ensures Unbind(Visit(v).value) == v
    decreases v, 0
  {
    match v {
      case List(items) => OnlyLookupsChangeInAll(items);
      case Dict(fields) =>
        if IsLookup(v) && Target(fields[0].value).value {
          var m := fields[0].value.items[0].text;
          assert fields[0].value == List([Scalar(m), DEPLOYMENT, Scalar(BoundField(m).value)]);
          assert fields == [fields[0]];
        } else {
          OnlyLookupsChangeInFields(fields);
          if IsLookup(v) && fields[0].value.List? {
            FirstStays(fields[0].value.items);
          }
        }
      case _ =>
    }
  }

  lemma FirstStays(items: seq<Json>)
    requires items != [] && VisitAll(items).Ok?
    ensures items[0].Scalar? || items[0].Other? ==> VisitAll(items).value[0] == items[0]
  {
  }

  lemma {:induction false} OnlyLookupsChangeInAll(items: seq<Json>)
    requires VisitAll(items).Ok?
    ensures UnbindAll(VisitAll(items).value) == items
  {
    if items != [] {
      OnlyLookupsChange(items[0]);
      OnlyLookupsChangeInAll(items[1..]);
      assert VisitAll(items).value[1..] == VisitAll(items[1..]).value && items == [items[0]] + items[1..];
    }
  }

  lemma {:induction false} OnlyLookupsChangeInFields(fields: seq<Field>)
    requires VisitFields(fields).Ok?
    ensures UnbindFields(VisitFields(fields).value) == fields
  {
    if fields != [] {
      OnlyLookupsChange(fields[0].value);
      OnlyLookupsChangeInFields(fields[1..]);
      assert VisitFields(fields).value[1..] == VisitFields(fields[1..]).value && fields == [fields[0]] + fields[1..];
    }
  }

  /** A template can be bound once: a second binding is accepted exactly if the first one
      had nothing to bind. */
  lemma {:induction false} BoundOnce(v: Json)
    requires Visit(v).Ok?
    ensures Visit(Visit(v).value).Ok? <==> Visit(v).value == v
    decreases v, 0
  {
    match v {
      case List(items) => BoundOnceInAll(items);
      case Dict(fields) =>
        if IsLookup(v) && Target(fields[0].value).value {
          assert fields == [fields[0]];
        } else {
          BoundOnceInFields(fields);
          if IsLookup(v) && fields[0].value.List? {
            FirstStays(fields[0].value.items);
          }
        }
      case _ =>
    }
  }

  lemma {:induction false} BoundOnceInAll(items: seq<Json>)
    requires VisitAll(items).Ok?
    ensures VisitAll(VisitAll(items).value).Ok? <==> VisitAll(items).value == items
  {
    if items != [] {
      BoundOnce(items[0]);
      BoundOnceInAll(items[1..]);
      assert VisitAll(items).value[1..] == VisitAll(items[1..]).value && items == [items[0]] + items[1..];
    }
  }

  lemma {:induction false} BoundOnceInFields(fields: seq<Field>)
    requires VisitFields(fields).Ok?
    ensures VisitFields(VisitFields(fields).value).Ok? <==> VisitFields(fields).value == fields
  {
    if fields != [] {
      BoundOnce(fields[0].value);
      BoundOnceInFields(fields[1..]);
      assert VisitFields(fields).value[1..] == VisitFields(fields[1..]).value && fields == [fields[0]] + fields[1..];
    }
  }
}
