/** Checking tool arguments against a tool's input schema (`validate_tool_arguments`, agent/plan_validator.py). */
module ToolSchema {
  import opened PyText
  import opened PlanModel

  datatype Kind = StringKind | NumberKind | IntegerKind | BooleanKind | ArrayKind | ObjectKind | OtherKind

  datatype PropertySpec = PropertySpec(
    kind: Kind,
    enumeration: Option<seq<Value>>,
    minItems: Option<int>,
    maxItems: Option<int>,
    itemKind: Option<Kind>)

  /** `closed` stands for `additionalProperties: false`. */
  datatype Schema = Schema(required: seq<string>, properties: map<string, PropertySpec>, closed: bool)

  datatype ArgumentError =
    | NotAnArgumentObject
    | MissingArgument(name: string)
    | UnexpectedArgument(name: string)
    | NotInEnumeration(name: string)
    | WrongType(name: string)
    | TooFewItems(name: string)
    | TooManyItems(name: string)
    | WrongItemType(name: string, index: nat)
  {
    predicate AboutItems() { TooFewItems? || TooManyItems? || WrongItemType? }
  }

  /** Python's `==`: numbers and booleans compare by value, a proxy compares as its dictionary. */
  predicate PyEqual(a: Value, b: Value) {
    if IsNumeric(a) then IsNumeric(b) && Numeric(a) == Numeric(b)
    else if IsObject(a) then
      && IsObject(b) && a.entries.Keys == b.entries.Keys
      && forall k <- a.entries :: PyEqual(a.entries[k], b.entries[k])
    else if IsArray(a) then
      && (if a.List? then b.List? else b.Tuple?) && |a.items| == |b.items|
      && forall i :: 0 <= i < |a.items| ==> PyEqual(a.items[i], b.items[i])
    else a == b
  }

  predicate IsNumeric(v: Value) {
    v.Bool? || v.Int? || v.Float?
  }

  function Numeric(v: Value): real
    requires IsNumeric(v)
  {
    match v case Bool(b) => if b then 1.0 else 0.0 case Int(n) => n as real case Float(r) => r
  }

  predicate IsObject(v: Value) {
    v.Dict? || v.Proxy?
  }

  predicate IsArray(v: Value) {
    v.List? || v.Tuple?
  }

  /** A value with numbers and booleans as reals and dictionaries for proxies. */
  function Canon(v: Value): Value {
    match v
    case Bool(b) => Float(if b then 1.0 else 0.0)
    case Int(n) => Float(n as real)
    case List(s) => List(seq(|s|, i requires 0 <= i < |s| => Canon(s[i])))
    case Tuple(s) => Tuple(seq(|s|, i requires 0 <= i < |s| => Canon(s[i])))
    case Dict(m) => Dict(map k <- m :: Canon(m[k]))
    case Proxy(m) => Dict(map k <- m :: Canon(m[k]))
    case _ => v
  }

  /** Values are equal for Python exactly if they are the same but for that. */
  lemma {:induction false} PyEqualMeaning(a: Value, b: Value)
    ensures PyEqual(a, b) <==> Canon(a) == Canon(b)
  {
    hide Numeric;
    if IsNumeric(a) && IsNumeric(b) {
      EqualNumbers(a, b);
    }
    if IsObject(a) && IsObject(b) && a.entries.Keys == b.entries.Keys {
      forall k <- a.entries
        ensures PyEqual(a.entries[k], b.entries[k]) <==> Canon(a.entries[k]) == Canon(b.entries[k])
      {
        PyEqualMeaning(a.entries[k], b.entries[k]);
      }
      EqualEntries(a.entries, b.entries);
    } else if IsObject(a) && IsObject(b) {
      assert Canon(a).entries.Keys == a.entries.Keys && Canon(b).entries.Keys == b.entries.Keys;
    } else if IsArray(a) && IsArray(b) && |a.items| == |b.items| {
      forall i | 0 <= i < |a.items|
        ensures PyEqual(a.items[i], b.items[i]) <==> Canon(a.items[i]) == Canon(b.items[i])
      {
        PyEqualMeaning(a.items[i], b.items[i]);
      }
      EqualItems(a.items, b.items);
    } else if IsArray(a) && IsArray(b) {
      assert |Canon(a).items| == |a.items| && |Canon(b).items| == |b.items|;
    }
  }

  lemma EqualNumbers(a: Value, b: Value)
    requires IsNumeric(a) && IsNumeric(b)
    ensures Numeric(a) == Numeric(b) <==> Canon(a) == Canon(b)
  {
  }

  lemma EqualEntries(m: map<string, Value>, n: map<string, Value>)
    requires m.Keys == n.Keys
    ensures Canon(Dict(m)) == Canon(Dict(n)) <==> forall k <- m :: Canon(m[k]) == Canon(n[k])
    ensures Canon(Proxy(m)) == Canon(Dict(m)) && Canon(Proxy(n)) == Canon(Dict(n))
  {
    var p, q := Canon(Dict(m)).entries, Canon(Dict(n)).entries;
    assert p.Keys == m.Keys && q.Keys == n.Keys;
    assert p == q <==> forall k <- m :: p[k] == q[k];
  }

  lemma EqualItems(s: seq<Value>, t: seq<Value>)
    requires |s| == |t|
    ensures Canon(List(s)).items == Canon(List(t)).items <==> forall i :: 0 <= i < |s| ==> Canon(s[i]) == Canon(t[i])
    ensures Canon(Tuple(s)).items == Canon(List(s)).items && Canon(Tuple(t)).items == Canon(List(t)).items
  {
    var p, q := Canon(List(s)).items, Canon(List(t)).items;
    assert forall i :: 0 <= i < |s| ==> p[i] == Canon(s[i]) && q[i] == Canon(t[i]);
    if p == q {
      forall i | 0 <= i < |s|
        ensures Canon(s[i]) == Canon(t[i])
      {
        assert p[i] == Canon(s[i]) && q[i] == Canon(t[i]);
      }
    }
    var x, y := Canon(Tuple(s)).items, Canon(Tuple(t)).items;
    assert |x| == |s| && forall i :: 0 <= i < |s| ==> x[i] == p[i];
    assert |y| == |t| && forall i :: 0 <= i < |t| ==> y[i] == q[i];
  }

  predicate InEnumeration(v: Value, values: seq<Value>) {
    exists i :: 0 <= i < |values| && PyEqual(v, values[i])
  }

  /** The type test; a boolean is no number here, although Python makes it an int. */
  predicate HasKind(v: Value, kind: Kind) {
    match kind
    case StringKind => v.Str?
    case NumberKind => v.Int? || v.Float?
    case IntegerKind => v.Int?
    case BooleanKind => v.Bool?
    case ArrayKind => IsArray(v)
    case ObjectKind => IsObject(v)
    case OtherKind => true
  }

  /** The kinds that a value has, besides the untested one: none for null, two for an integer, one for all others. */
  lemma KindsOf(v: Value, kind: Kind)
    ensures HasKind(v, kind) <==> kind == OtherKind || kind in KindsFor(v)
  {
  }

  function KindsFor(v: Value): set<Kind> {
    match v
    case Null => {}
    case Bool(_) => {BooleanKind}
    case Int(_) => {IntegerKind, NumberKind}
    case Float(_) => {NumberKind}
    case Str(_) => {StringKind}
    case List(_) => {ArrayKind}
    case Tuple(_) => {ArrayKind}
    case Dict(_) => {ObjectKind}
    case Proxy(_) => {ObjectKind}
  }

  /** Items are tested for the four scalar kinds only. */
  predicate ItemFits(v: Value, kind: Kind) {
    kind.ArrayKind? || kind.ObjectKind? || HasKind(v, kind)
  }

  predicate ItemsFit(items: seq<Value>, spec: PropertySpec) {
    && (spec.minItems.Some? ==> |items| >= spec.minItems.value)
    && (spec.maxItems.Some? ==> |items| <= spec.maxItems.value)
    && (spec.itemKind.Some? ==> forall i :: 0 <= i < |items| ==> ItemFits(items[i], spec.itemKind.value))
  }

  predicate Fits(v: Value, spec: PropertySpec) {
    && (spec.enumeration.Some? ==> InEnumeration(v, spec.enumeration.value))
    && HasKind(v, spec.kind)
    && (spec.kind.ArrayKind? ==> ItemsFit(v.items, spec))
  }

  /** The arguments that the schema admits. */
  predicate Conforms(schema: Schema, arguments: map<string, Value>) {
    && (forall name <- schema.required :: name in arguments)
    && (schema.closed ==> arguments.Keys <= schema.properties.Keys)
    && forall name <- arguments :: name in schema.properties ==> Fits(arguments[name], schema.properties[name])
  }

  /** What is wrong with one argument, by the schema of its property. */
  predicate MisfitOf(name: string, v: Value, spec: PropertySpec, e: ArgumentError) {
    match e
    case NotInEnumeration(n) =>
      n == name && spec.enumeration.Some? && forall x <- spec.enumeration.value :: !PyEqual(v, x)
    case WrongType(n) => n == name && !HasKind(v, spec.kind)
    case TooFewItems(n) =>
      n == name && spec.kind == ArrayKind && IsArray(v) && spec.minItems.Some? && |v.items| < spec.minItems.value
    case TooManyItems(n) =>
      n == name && spec.kind == ArrayKind && IsArray(v) && spec.maxItems.Some? && |v.items| > spec.maxItems.value
    case WrongItemType(n, i) =>
      && n == name && spec.kind == ArrayKind && IsArray(v) && i < |v.items|
      && spec.itemKind.Some? && spec.itemKind.value !in {ArrayKind, ObjectKind}
         && !HasKind(v.items[i], spec.itemKind.value)
    case _ => false
  }

  /** What is wrong with arguments: they lack a required one, have one too many, or one that does not fit. */
  predicate Misfit(schema: Schema, arguments: map<string, Value>, e: ArgumentError) {
    match e
    case NotAnArgumentObject => false
    case MissingArgument(name) => name in schema.required && name !in arguments
    case UnexpectedArgument(name) => schema.closed && name in arguments && name !in schema.properties
    case _ =>
      e.name in arguments && e.name in schema.properties
        && MisfitOf(e.name, arguments[e.name], schema.properties[e.name], e)
  }

  method CheckItems(name: string, items: seq<Value>, spec: PropertySpec) returns (errors: seq<ArgumentError>)
    requires spec.kind == ArrayKind
    ensures errors == [] <==> ItemsFit(items, spec)
    ensures forall e: ArgumentError :: e in errors ==> e.AboutItems()
    ensures forall v: Value, e: ArgumentError :: IsArray(v) && v.items == items && e.AboutItems() ==>
              (e in errors <==> MisfitOf(name, v, spec, e))
  {
    errors := [];
    if spec.minItems.Some? && |items| < spec.minItems.value {
      errors := errors + [TooFewItems(name)];
    }
    if spec.maxItems.Some? && |items| > spec.maxItems.value {
      errors := errors + [TooManyItems(name)];
    }
    ghost var sizes := errors;
    if spec.itemKind.Some? {
      for i := 0 to |items|
          invariant forall e: ArgumentError :: e in errors ==> e.AboutItems()
        invariant errors == [] <==> sizes == [] && forall j :: 0 <= j < i ==> ItemFits(items[j], spec.itemKind.value)
        invariant forall e: ArgumentError :: e in errors <==>
                    || e in sizes
                    || (e.WrongItemType? && e.name == name && e.index < i
                        && !ItemFits(items[e.index], spec.itemKind.value))
      {
        if !ItemFits(items[i], spec.itemKind.value) {
          errors := errors + [WrongItemType(name, i)];
        }
      }
    }
  }

  method CheckProperty(name: string, v: Value, spec: PropertySpec) returns (errors: seq<ArgumentError>)
    ensures errors == [] <==> Fits(v, spec)
    ensures forall e: ArgumentError :: e in errors <==> MisfitOf(name, v, spec, e)
  {
    errors := [];
    if spec.enumeration.Some? && !InEnumeration(v, spec.enumeration.value) {
      errors := errors + [NotInEnumeration(name)];
    }
    if !HasKind(v, spec.kind) {
      errors := errors + [WrongType(name)];
    } else if spec.kind.ArrayKind? {
      var more := CheckItems(name, v.items, spec);
      errors := errors + more;
    }
  }

  /** No error is reported exactly for arguments that conform to the schema; otherwise exactly what is wrong. */
  method ValidateToolArguments(schema: Schema, arguments: Value) returns (errors: seq<ArgumentError>)
    ensures errors == [] <==> IsObject(arguments) && Conforms(schema, arguments.entries)
    ensures !IsObject(arguments) ==> errors == [NotAnArgumentObject]
    ensures IsObject(arguments) ==> forall e: ArgumentError :: e in errors <==> Misfit(schema, arguments.entries, e)
  {
    if !IsObject(arguments) {
      return [NotAnArgumentObject];
    }
    var entries := arguments.entries;
    errors := CheckRequired(schema, entries);
    ghost var missing := errors;
    var names := entries.Keys;
    while names != {}
      invariant names <= entries.Keys
      invariant errors == [] <==>
                missing == [] && forall name <- entries.Keys - names :: NameFits(schema, entries, name)
      invariant forall e: ArgumentError :: e in errors <==>
                  e in missing || (!e.NotAnArgumentObject? && e.name in entries.Keys - names
                                   && NameMisfit(schema, entries, e))
      decreases |names|
    {
      hide HasKind, MisfitOf, Fits;
      var name :| name in names;
      names := names - {name};
      var more := CheckName(schema, entries, name);
      errors := errors + more;
    }
    assert entries.Keys - names == entries.Keys;
    ConformsByName(schema, entries);
  }

  lemma ConformsByName(schema: Schema, entries: map<string, Value>)
    ensures Conforms(schema, entries) <==>
            && (forall name <- schema.required :: name in entries)
            && (forall name <- entries.Keys :: NameFits(schema, entries, name))
  {
    hide Fits;
    if forall name <- entries.Keys :: NameFits(schema, entries, name) {
      forall name <- entries
        ensures schema.closed ==> name in schema.properties
        ensures name in schema.properties ==> Fits(entries[name], schema.properties[name])
      {
        assert name in entries.Keys;
        assert NameFits(schema, entries, name);
      }
    }
  }

  predicate NameFits(schema: Schema, entries: map<string, Value>, name: string)
    requires name in entries
  {
    && (schema.closed ==> name in schema.properties)
    && (name in schema.properties ==> Fits(entries[name], schema.properties[name]))
  }

  predicate NameMisfit(schema: Schema, entries: map<string, Value>, e: ArgumentError) {
    !e.MissingArgument? && Misfit(schema, entries, e)
  }

  method CheckRequired(schema: Schema, entries: map<string, Value>) returns (errors: seq<ArgumentError>)
    ensures errors == [] <==> forall name <- schema.required :: name in entries
    ensures forall e: ArgumentError :: e in errors <==>
            e.MissingArgument? && e.name in schema.required && e.name !in entries
  {
    errors := [];
    for i := 0 to |schema.required|
      invariant errors == [] <==> forall j :: 0 <= j < i ==> schema.required[j] in entries
      invariant forall e: ArgumentError :: e in errors <==>
                e.MissingArgument? && e.name in schema.required[..i] && e.name !in entries
    {
      assert schema.required[..i + 1] == schema.required[..i] + [schema.required[i]];
      if schema.required[i] !in entries {
        errors := errors + [MissingArgument(schema.required[i])];
      }
    }
    assert schema.required[..|schema.required|] == schema.required;
  }

  method CheckName(schema: Schema, entries: map<string, Value>, name: string) returns (errors: seq<ArgumentError>)
    requires name in entries
    ensures errors == [] <==> NameFits(schema, entries, name)
    ensures forall e: ArgumentError :: e in errors <==>
            !e.NotAnArgumentObject? && e.name == name && NameMisfit(schema, entries, e)
  {
    hide HasKind, PyEqual;
    errors := [];
    if schema.closed && name !in schema.properties {
      errors := errors + [UnexpectedArgument(name)];
    }
    if name in schema.properties {
      var more := CheckProperty(name, entries[name], schema.properties[name]);
      errors := errors + more;
    }
  }
}
