/**
 * The per-attribute type classification done inside `DomainMapper.register`:
 * a value is a primitive, a reference to an already registered class, or a
 * homogeneous list of either, and anything else raises `MappingError`.
 */
module Classifier {
  import opened Errors

  /**
   * An attribute value as the mapper sees it: an object known only by the
   * name of its runtime type, or a built-in `list` of values.
   */
  datatype Value = Obj(typeName: string) | PyList(items: seq<Value>)

  /** `type(v).__name__`. */
  function TypeName(v: Value): string
  {
    if v.PyList? then "list" else v.typeName
  }

  /** The subclass pairs among the built-in types the primitive table names. */
  const BuiltinSubclasses: set<(string, string)> := {("bool", "int"), ("datetime", "date")}

  /**
   * `issubclass` by name: `isa` holds every (transitive) subclass pair other
   * than `bool < int` and `datetime < date`, including a program class that
   * subclasses a built-in (`class Name(str)` needs `("Name", "str")`); every
   * class is a subclass of itself and of `object`.
   */
  predicate IsSubclass(sub: string, sup: string, isa: set<(string, string)>)
  {
    sub == sup || sup == "object" || (sub, sup) in BuiltinSubclasses || (sub, sup) in isa
  }

  /** `isinstance(v, t)` for the class named `t`. */
  predicate IsInstance(v: Value, t: string, isa: set<(string, string)>)
  {
    IsSubclass(TypeName(v), t, isa)
  }

  /** Every element is an instance of the first element's type. */
  predicate Homogeneous(items: seq<Value>, isa: set<(string, string)>)
    requires |items| > 0
  {
    forall e :: e in items ==> IsInstance(e, TypeName(items[0]), isa)
  }

  /** The six primitive kinds of the primitive tables. */
  datatype Prim = Str | Int | Float | Bool | Date | DateTime

  /** The keys of `TO_FLASKRP_MAPPING` and `TO_MM_MAPPING` (the two tables share them). */
  const PrimitiveTable: map<string, Prim> :=
    map["str" := Str, "int" := Int, "float" := Float, "bool" := Bool, "date" := Date, "datetime" := DateTime]

  /** The Python type name a primitive kind stands for. */
  function PrimName(p: Prim): string
  {
    match p
    case Str => "str"
    case Int => "int"
    case Float => "float"
    case Bool => "bool"
    case Date => "date"
    case DateTime => "datetime"
  }

  /** `PrimName` and `PrimitiveTable` are inverse bijections. */
  lemma PrimitiveTableRoundTrip()
    ensures forall p :: PrimName(p) in PrimitiveTable && PrimitiveTable[PrimName(p)] == p
    ensures forall n :: n in PrimitiveTable ==> PrimName(PrimitiveTable[n]) == n
  {
  }

  /** What a field holds: a primitive, or a nested schema registered under a class name. */
  datatype Kind = Primitive(prim: Prim) | Complex(name: string)

  /** A field of the flask-restplus model: its kind, list-ness, required flag and description. */
  datatype FieldSpec = FieldSpec(kind: Kind, isList: bool, required: bool, description: Option<string>)

  /** A field of the marshmallow schema: the same, without a description. */
  datatype MmField = MmField(kind: Kind, isList: bool, required: bool)

  function MmOf(f: FieldSpec): MmField
  {
    MmField(f.kind, f.isList, f.required)
  }

  /**
   * Resolves one runtime type name: the primitive table first, then the
   * registered class names, else `MappingError`.
   */
  function Classify(typeName: string, registered: set<string>): (r: Result<Kind>)
    ensures r.Ok? && r.value.Primitive? <==> typeName in {"str", "int", "float", "bool", "date", "datetime"}
    ensures r.Ok? && r.value.Primitive? ==> PrimName(r.value.prim) == typeName
    ensures r.Ok? && r.value.Complex? <==>
              typeName !in {"str", "int", "float", "bool", "date", "datetime"} && typeName in registered
    ensures r.Ok? && r.value.Complex? ==> r.value.name == typeName
    ensures r.Err? ==> r.error == MappingError(UnknownType(typeName))
  {
    if typeName in PrimitiveTable then Ok(Primitive(PrimitiveTable[typeName]))
    else if typeName in registered then Ok(Complex(typeName))
    else Err(MappingError(UnknownType(typeName)))
  }

  /**
   * The element kind of a list attribute: an empty list and a list with an
   * element that is not an instance of the first element's type are
   * rejected; otherwise the first element's type name is classified.
   */
  function ElementKind(items: seq<Value>, registered: set<string>, isa: set<(string, string)>): (r: Result<Kind>)
    ensures r.Ok? <==> |items| > 0 && Homogeneous(items, isa) && Classify(TypeName(items[0]), registered).Ok?
    ensures r.Ok? ==> r == Classify(TypeName(items[0]), registered)
    ensures |items| == 0 ==> r == Err(MappingError(EmptyList))
    ensures |items| > 0 && !Homogeneous(items, isa) ==> r == Err(MappingError(HeterogeneousList))
  {
    if |items| == 0 then Err(MappingError(EmptyList))
    else if !Homogeneous(items, isa) then Err(MappingError(HeterogeneousList))
    else Classify(TypeName(items[0]), registered)
  }

  /**
   * The field one attribute `key = val` becomes. `descs` is the parsed
   * doc-string map, `requiredLst` the caller's required names and
   * `registered` the class names already registered.
   */
  function FieldFor(key: string, val: Value, descs: map<string, string>, requiredLst: seq<string>,
                    registered: set<string>, isa: set<(string, string)>): (r: Result<FieldSpec>)
    ensures r.Err? ==> r.error.MappingError?
    ensures r.Ok? ==> r.value.required == (key in requiredLst)
    ensures r.Ok? ==> r.value.isList == val.PyList?
    ensures val.PyList? ==> (r.Ok? <==> ElementKind(val.items, registered, isa).Ok?)
    ensures val.PyList? && r.Ok? ==> r.value.kind == ElementKind(val.items, registered, isa).value
    ensures !val.PyList? ==> (r.Ok? <==> Classify(val.typeName, registered).Ok?)
    ensures !val.PyList? && r.Ok? ==> r.value.kind == Classify(val.typeName, registered).value
    ensures r.Ok? && r.value.description.Some? <==>
              r.Ok? && !val.PyList? && r.value.kind.Primitive? && key in descs
    ensures r.Ok? && r.value.description.Some? ==> r.value.description.value == descs[key]
  {
    var required := key in requiredLst;
    if val.PyList? then
      match ElementKind(val.items, registered, isa)
      case Err(e) => Err(e)
      case Ok(kind) => Ok(FieldSpec(kind, true, required, None))
    else
      match Classify(val.typeName, registered)
      case Err(e) => Err(e)
      case Ok(kind) =>
        var description := if kind.Primitive? && key in descs then Some(descs[key]) else None;
        Ok(FieldSpec(kind, false, required, description))
  }

  /**
   * Membership in a list is checked with `isinstance`, not type equality:
   * `[1, True]` is a list of `int`, while `[True, 1]` is rejected.
   */
  lemma ListHomogeneityIsSubtyping(isa: set<(string, string)>, registered: set<string>)
    requires ("int", "bool") !in isa
    ensures ElementKind([Obj("int"), Obj("bool")], registered, isa) == Ok(Primitive(Int))
    ensures ElementKind([Obj("bool"), Obj("int")], registered, isa) == Err(MappingError(HeterogeneousList))
  {
    assert !IsInstance(Obj("int"), "bool", isa) by {
      assert ("int", "bool") !in BuiltinSubclasses;
    }
    assert Obj("int") in [Obj("bool"), Obj("int")];
  }
}
