/**
 * The `DomainMapper` registry: `register` derives a schema from a domain
 * object and stores it, together with its marshmallow counterpart, under the
 * object's class name; the getters look stored schemas up again.
 */
module Registry {
  import opened Errors
  import opened DocString
  import opened Classifier

  /** A flask-restplus model, as its fields by name. */
  type Schema = map<string, FieldSpec>

  /** A marshmallow schema, as its fields by name. */
  type MmSchema = map<string, MmField>

  /** The marshmallow schema built from the same fields as a flask-restplus model. */
  function MmSchemaOf(s: Schema): (m: MmSchema)
    ensures m.Keys == s.Keys
    ensures forall k :: k in s ==> m[k] == MmOf(s[k])
  {
    map k | k in s :: MmOf(s[k])
  }

  /** Layering fields on top of a schema commutes with building the marshmallow schema. */
  lemma MmSchemaOfOverride(a: Schema, b: Schema)
    ensures MmSchemaOf(a + b) == MmSchemaOf(a) + MmSchemaOf(b)
  {
  }

  /** Adding one field commutes with building the marshmallow schema. */
  lemma MmSchemaOfUpdate(s: Schema, key: string, f: FieldSpec)
    ensures MmSchemaOf(s[key := f]) == MmSchemaOf(s)[key := MmOf(f)]
  {
  }

  /**
   * A live domain object, with Python's introspection made explicit: the
   * class name, the names of its base classes, the constructor doc-string and
   * the instance attributes in `__dict__` order.
   */
  datatype DomainObject = DomainObject(
    className: string,
    bases: seq<string>,
    doc: Option<string>,
    attrs: seq<(string, Value)>)

  /** The names of the attributes. */
  function AttrNames(attrs: seq<(string, Value)>): set<string>
  {
    set i | 0 <= i < |attrs| :: attrs[i].0
  }

  /** No later attribute has the same name as attribute `i`. */
  predicate LastOccurrence(attrs: seq<(string, Value)>, i: int)
    requires 0 <= i < |attrs|
  {
    forall j :: i < j < |attrs| ==> attrs[j].0 != attrs[i].0
  }

  /** The field attribute `i` becomes. */
  function FieldAt(attrs: seq<(string, Value)>, i: int, descs: map<string, string>, requiredLst: seq<string>,
                   registered: set<string>, isa: set<(string, string)>): Result<FieldSpec>
    requires 0 <= i < |attrs|
  {
    FieldFor(attrs[i].0, attrs[i].1, descs, requiredLst, registered, isa)
  }

  /**
   * The object's own fields, attribute by attribute in order; the first
   * attribute that cannot be classified aborts with its error.
   */
  function FieldsOf(attrs: seq<(string, Value)>, descs: map<string, string>, requiredLst: seq<string>,
                    registered: set<string>, isa: set<(string, string)>): Result<Schema>
  {
    if attrs == [] then Ok(map[])
    else
      var n := |attrs|;
      match FieldsOf(attrs[..n - 1], descs, requiredLst, registered, isa)
      case Err(e) => Err(e)
      case Ok(m) =>
        match FieldFor(attrs[n - 1].0, attrs[n - 1].1, descs, requiredLst, registered, isa)
        case Err(e) => Err(e)
        case Ok(f) => Ok(m[attrs[n - 1].0 := f])
  }

  /**
   * What `register` stores for `obj` given the models already registered:
   * its own fields, rejected for more than one base class, standing alone
   * under `object`, and otherwise layered over the parent's stored model.
   */
  function Derive(registry: map<string, Schema>, obj: DomainObject, requiredLst: seq<string>,
                  isa: set<(string, string)>): Result<Schema>
    requires |obj.bases| >= 1
  {
    match FieldsOf(obj.attrs, DocMap(obj.doc), requiredLst, registry.Keys, isa)
    case Err(e) => Err(e)
    case Ok(own) =>
      if |obj.bases| > 1 then Err(MappingError(MultipleInheritance(obj.bases)))
      else if obj.bases[0] == "object" then Ok(own)
      else if obj.bases[0] !in registry then Err(KeyError(obj.bases[0]))
      else Ok(registry[obj.bases[0]] + own)
  }

  // ---------------------------------------------------------------------
  // The object's own fields
  // ---------------------------------------------------------------------

  lemma SameFieldsOnPrefix(attrs: seq<(string, Value)>, j: nat, descs: map<string, string>,
                           requiredLst: seq<string>, registered: set<string>, isa: set<(string, string)>)
    requires j <= |attrs|
    ensures forall i :: 0 <= i < j ==>
              FieldAt(attrs[..j], i, descs, requiredLst, registered, isa)
              == FieldAt(attrs, i, descs, requiredLst, registered, isa)
  {
    forall i | 0 <= i < j
      ensures FieldAt(attrs[..j], i, descs, requiredLst, registered, isa)
              == FieldAt(attrs, i, descs, requiredLst, registered, isa)
    {
      assert attrs[..j][i] == attrs[i];
    }
  }

  /** Once a prefix of the attributes fails, the whole sequence fails with the same error. */
  lemma {:induction false} FieldsOfErrPropagates(attrs: seq<(string, Value)>, j: nat, descs: map<string, string>,
                                                 requiredLst: seq<string>, registered: set<string>,
                                                 isa: set<(string, string)>)
    requires j <= |attrs|
    requires FieldsOf(attrs[..j], descs, requiredLst, registered, isa).Err?
    ensures FieldsOf(attrs, descs, requiredLst, registered, isa)
            == FieldsOf(attrs[..j], descs, requiredLst, registered, isa)
  {
    if j < |attrs| {
      var init := attrs[..|attrs| - 1];
      assert init[..j] == attrs[..j];
      FieldsOfErrPropagates(init, j, descs, requiredLst, registered, isa);
    } else {
      assert attrs[..j] == attrs;
    }
  }

  /** One more classified attribute extends the fields built so far. */
  lemma FieldsOfSnoc(attrs: seq<(string, Value)>, i: nat, descs: map<string, string>,
                     requiredLst: seq<string>, registered: set<string>, isa: set<(string, string)>)
    requires i < |attrs|
    requires FieldsOf(attrs[..i], descs, requiredLst, registered, isa).Ok?
    requires FieldAt(attrs, i, descs, requiredLst, registered, isa).Ok?
    ensures FieldsOf(attrs[..i + 1], descs, requiredLst, registered, isa)
            == Ok(FieldsOf(attrs[..i], descs, requiredLst, registered, isa).value
                    [attrs[i].0 := FieldAt(attrs, i, descs, requiredLst, registered, isa).value])
  {
    assert attrs[..i + 1][..i] == attrs[..i];
  }

  /** An attribute that fails after a classified prefix fails the whole sequence with its error. */
  lemma FieldsOfFails(attrs: seq<(string, Value)>, i: nat, descs: map<string, string>,
                      requiredLst: seq<string>, registered: set<string>, isa: set<(string, string)>)
    requires i < |attrs|
    requires FieldsOf(attrs[..i], descs, requiredLst, registered, isa).Ok?
    requires FieldAt(attrs, i, descs, requiredLst, registered, isa).Err?
    ensures FieldsOf(attrs, descs, requiredLst, registered, isa)
            == Err(FieldAt(attrs, i, descs, requiredLst, registered, isa).error)
  {
    assert attrs[..i + 1][..i] == attrs[..i];
    FieldsOfErrPropagates(attrs, i + 1, descs, requiredLst, registered, isa);
  }

  /** The fields can be built exactly when every attribute can be classified. */
  lemma {:induction false} FieldsOfOk(attrs: seq<(string, Value)>, descs: map<string, string>,
                                      requiredLst: seq<string>, registered: set<string>,
                                      isa: set<(string, string)>)
    ensures FieldsOf(attrs, descs, requiredLst, registered, isa).Ok?
            <==> forall i :: 0 <= i < |attrs| ==> FieldAt(attrs, i, descs, requiredLst, registered, isa).Ok?
  {
    if attrs != [] {
      var n := |attrs|;
      var init := attrs[..n - 1];
      FieldsOfOk(init, descs, requiredLst, registered, isa);
      SameFieldsOnPrefix(attrs, n - 1, descs, requiredLst, registered, isa);
      if !FieldsOf(attrs, descs, requiredLst, registered, isa).Ok? {
        if FieldsOf(init, descs, requiredLst, registered, isa).Ok? {
          assert !FieldAt(attrs, n - 1, descs, requiredLst, registered, isa).Ok?;
        } else {
          var i :| 0 <= i < n - 1 && !FieldAt(init, i, descs, requiredLst, registered, isa).Ok?;
          assert !FieldAt(attrs, i, descs, requiredLst, registered, isa).Ok?;
        }
      }
    }
  }

  /**
   * A failure is the error of the first attribute that cannot be classified,
   * and it is always a `MappingError`.
   */
  lemma {:induction false} FieldsOfFirstError(attrs: seq<(string, Value)>, descs: map<string, string>,
                                              requiredLst: seq<string>, registered: set<string>,
                                              isa: set<(string, string)>)
    requires FieldsOf(attrs, descs, requiredLst, registered, isa).Err?
    ensures FieldsOf(attrs, descs, requiredLst, registered, isa).error.MappingError?
    ensures exists i :: && 0 <= i < |attrs|
                        && FieldAt(attrs, i, descs, requiredLst, registered, isa)
                           == Err(FieldsOf(attrs, descs, requiredLst, registered, isa).error)
                        && forall j :: 0 <= j < i ==> FieldAt(attrs, j, descs, requiredLst, registered, isa).Ok?
  {
    var n := |attrs|;
    var init := attrs[..n - 1];
    SameFieldsOnPrefix(attrs, n - 1, descs, requiredLst, registered, isa);
    if FieldsOf(init, descs, requiredLst, registered, isa).Ok? {
      FieldsOfOk(init, descs, requiredLst, registered, isa);
      assert FieldAt(attrs, n - 1, descs, requiredLst, registered, isa).Err?;
    } else {
      FieldsOfFirstError(init, descs, requiredLst, registered, isa);
      var i :| && 0 <= i < n - 1
               && FieldAt(init, i, descs, requiredLst, registered, isa)
                  == Err(FieldsOf(init, descs, requiredLst, registered, isa).error)
               && forall j :: 0 <= j < i ==> FieldAt(init, j, descs, requiredLst, registered, isa).Ok?;
      assert FieldAt(attrs, i, descs, requiredLst, registered, isa)
             == Err(FieldsOf(attrs, descs, requiredLst, registered, isa).error);
    }
  }

  lemma AttrNamesInit(attrs: seq<(string, Value)>)
    requires attrs != []
    ensures AttrNames(attrs) == AttrNames(attrs[..|attrs| - 1]) + {attrs[|attrs| - 1].0}
  {
    var n := |attrs|;
    var init := attrs[..n - 1];
    forall x | x in AttrNames(attrs)
      ensures x in AttrNames(init) + {attrs[n - 1].0}
    {
      var i :| 0 <= i < n && attrs[i].0 == x;
      if i < n - 1 {
        assert init[i].0 == x;
      }
    }
    forall x | x in AttrNames(init)
      ensures x in AttrNames(attrs)
    {
      var i :| 0 <= i < n - 1 && init[i].0 == x;
      assert attrs[i].0 == x;
    }
  }

  /** The built fields are keyed by the attribute names. */
  lemma {:induction false} FieldsOfKeys(attrs: seq<(string, Value)>, descs: map<string, string>,
                                        requiredLst: seq<string>, registered: set<string>,
                                        isa: set<(string, string)>)
    requires FieldsOf(attrs, descs, requiredLst, registered, isa).Ok?
    ensures FieldsOf(attrs, descs, requiredLst, registered, isa).value.Keys == AttrNames(attrs)
  {
    if attrs != [] {
      FieldsOfKeys(attrs[..|attrs| - 1], descs, requiredLst, registered, isa);
      AttrNamesInit(attrs);
    }
  }

  /** Each built field is the field of the last attribute with that name. */
  lemma {:induction false} FieldsOfEntries(attrs: seq<(string, Value)>, descs: map<string, string>,
                                           requiredLst: seq<string>, registered: set<string>,
                                           isa: set<(string, string)>)
    requires FieldsOf(attrs, descs, requiredLst, registered, isa).Ok?
    ensures forall i :: 0 <= i < |attrs| && LastOccurrence(attrs, i) ==>
              attrs[i].0 in FieldsOf(attrs, descs, requiredLst, registered, isa).value
              && Ok(FieldsOf(attrs, descs, requiredLst, registered, isa).value[attrs[i].0])
                 == FieldAt(attrs, i, descs, requiredLst, registered, isa)
  {
    if attrs != [] {
      var n := |attrs|;
      var init := attrs[..n - 1];
      FieldsOfEntries(init, descs, requiredLst, registered, isa);
      SameFieldsOnPrefix(attrs, n - 1, descs, requiredLst, registered, isa);
      var m := FieldsOf(init, descs, requiredLst, registered, isa).value;
      var f := FieldAt(attrs, n - 1, descs, requiredLst, registered, isa).value;
      assert FieldsOf(attrs, descs, requiredLst, registered, isa).value == m[attrs[n - 1].0 := f];
      forall i | 0 <= i < n - 1 && LastOccurrence(attrs, i)
        ensures attrs[i].0 in m && Ok(m[attrs[i].0]) == FieldAt(attrs, i, descs, requiredLst, registered, isa)
      {
        assert forall j :: i < j < n - 1 ==> init[j] == attrs[j];
        assert LastOccurrence(init, i);
      }
    }
  }

  // ---------------------------------------------------------------------
  // Registration outcomes
  // ---------------------------------------------------------------------

  /** Registration succeeds exactly when every attribute classifies, there is one base, and that base is `object` or registered. */
  lemma RegisterSucceedsIff(registry: map<string, Schema>, obj: DomainObject, requiredLst: seq<string>,
                            isa: set<(string, string)>)
    requires |obj.bases| >= 1
    ensures Derive(registry, obj, requiredLst, isa).Ok? <==>
              && (forall i :: 0 <= i < |obj.attrs| ==>
                    FieldAt(obj.attrs, i, DocMap(obj.doc), requiredLst, registry.Keys, isa).Ok?)
              && |obj.bases| == 1
              && (obj.bases[0] == "object" || obj.bases[0] in registry)
  {
    FieldsOfOk(obj.attrs, DocMap(obj.doc), requiredLst, registry.Keys, isa);
  }

  /** An attribute that cannot be classified makes registration raise `MappingError`. */
  lemma RegisterFailsOnAttribute(registry: map<string, Schema>, obj: DomainObject, requiredLst: seq<string>,
                                 isa: set<(string, string)>, i: int)
    requires |obj.bases| >= 1
    requires 0 <= i < |obj.attrs|
    requires FieldAt(obj.attrs, i, DocMap(obj.doc), requiredLst, registry.Keys, isa).Err?
    ensures Derive(registry, obj, requiredLst, isa).Err?
    ensures Derive(registry, obj, requiredLst, isa).error.MappingError?
  {
    var descs := DocMap(obj.doc);
    FieldsOfOk(obj.attrs, descs, requiredLst, registry.Keys, isa);
    FieldsOfFirstError(obj.attrs, descs, requiredLst, registry.Keys, isa);
  }

  /** An empty list attribute always makes registration raise `MappingError`. */
  lemma RegisterRejectsEmptyList(registry: map<string, Schema>, obj: DomainObject, requiredLst: seq<string>,
                                 isa: set<(string, string)>, i: int)
    requires |obj.bases| >= 1
    requires 0 <= i < |obj.attrs| && obj.attrs[i].1 == PyList([])
    ensures Derive(registry, obj, requiredLst, isa).Err?
    ensures Derive(registry, obj, requiredLst, isa).error.MappingError?
  {
    RegisterFailsOnAttribute(registry, obj, requiredLst, isa, i);
  }

  /** A list attribute with an element that is not an instance of the first element's type makes registration raise `MappingError`. */
  lemma RegisterRejectsMixedList(registry: map<string, Schema>, obj: DomainObject, requiredLst: seq<string>,
                                 isa: set<(string, string)>, i: int, j: int)
    requires |obj.bases| >= 1
    requires 0 <= i < |obj.attrs| && obj.attrs[i].1.PyList?
    requires 0 <= j < |obj.attrs[i].1.items|
    requires !IsInstance(obj.attrs[i].1.items[j], TypeName(obj.attrs[i].1.items[0]), isa)
    ensures Derive(registry, obj, requiredLst, isa).Err?
    ensures Derive(registry, obj, requiredLst, isa).error.MappingError?
  {
    var items := obj.attrs[i].1.items;
    assert items[j] in items;
    RegisterFailsOnAttribute(registry, obj, requiredLst, isa, i);
  }

  /**
   * A scalar attribute, or the first element of a list attribute, whose type
   * is neither primitive nor registered makes registration raise `MappingError`.
   */
  lemma RegisterRejectsUnknownType(registry: map<string, Schema>, obj: DomainObject, requiredLst: seq<string>,
                                   isa: set<(string, string)>, i: int)
    requires |obj.bases| >= 1
    requires 0 <= i < |obj.attrs|
    requires var v := obj.attrs[i].1;
             var t := if v.PyList? && |v.items| > 0 then TypeName(v.items[0]) else TypeName(v);
             t !in PrimitiveTable && t !in registry
    ensures Derive(registry, obj, requiredLst, isa).Err?
    ensures Derive(registry, obj, requiredLst, isa).error.MappingError?
  {
    RegisterFailsOnAttribute(registry, obj, requiredLst, isa, i);
  }

  /** More than one base class makes registration raise `MappingError`. */
  lemma RegisterRejectsMultipleBases(registry: map<string, Schema>, obj: DomainObject, requiredLst: seq<string>,
                                     isa: set<(string, string)>)
    requires |obj.bases| > 1
    ensures Derive(registry, obj, requiredLst, isa).Err?
    ensures Derive(registry, obj, requiredLst, isa).error.MappingError?
  {
    var descs := DocMap(obj.doc);
    if FieldsOf(obj.attrs, descs, requiredLst, registry.Keys, isa).Err? {
      FieldsOfFirstError(obj.attrs, descs, requiredLst, registry.Keys, isa);
    }
  }

  /**
   * The one failure that is not a `MappingError` is the `KeyError` of a
   * single base class that is neither `object` nor registered, once every
   * attribute has classified.
   */
  lemma RegisterKeyErrorIff(registry: map<string, Schema>, obj: DomainObject, requiredLst: seq<string>,
                            isa: set<(string, string)>)
    requires |obj.bases| >= 1
    ensures Derive(registry, obj, requiredLst, isa).Err? && !Derive(registry, obj, requiredLst, isa).error.MappingError?
            <==>
            && FieldsOf(obj.attrs, DocMap(obj.doc), requiredLst, registry.Keys, isa).Ok?
            && |obj.bases| == 1 && obj.bases[0] != "object" && obj.bases[0] !in registry
    ensures Derive(registry, obj, requiredLst, isa).Err? && !Derive(registry, obj, requiredLst, isa).error.MappingError?
            ==> Derive(registry, obj, requiredLst, isa).error == KeyError(obj.bases[0])
  {
    var descs := DocMap(obj.doc);
    if FieldsOf(obj.attrs, descs, requiredLst, registry.Keys, isa).Err? {
      FieldsOfFirstError(obj.attrs, descs, requiredLst, registry.Keys, isa);
    }
  }

  /** Under base `object` the schema holds exactly the object's own fields. */
  lemma RegisterRootSchema(registry: map<string, Schema>, obj: DomainObject, requiredLst: seq<string>,
                           isa: set<(string, string)>)
    requires obj.bases == ["object"]
    requires Derive(registry, obj, requiredLst, isa).Ok?
    ensures Derive(registry, obj, requiredLst, isa).value.Keys == AttrNames(obj.attrs)
    ensures forall i :: 0 <= i < |obj.attrs| && LastOccurrence(obj.attrs, i) ==>
              Ok(Derive(registry, obj, requiredLst, isa).value[obj.attrs[i].0])
              == FieldAt(obj.attrs, i, DocMap(obj.doc), requiredLst, registry.Keys, isa)
  {
    FieldsOfKeys(obj.attrs, DocMap(obj.doc), requiredLst, registry.Keys, isa);
    FieldsOfEntries(obj.attrs, DocMap(obj.doc), requiredLst, registry.Keys, isa);
  }

  /**
   * Under a registered parent the schema holds the parent's stored fields
   * and the object's own; on a name clash the object's own field wins.
   */
  lemma RegisterInheritedSchema(registry: map<string, Schema>, obj: DomainObject, requiredLst: seq<string>,
                                isa: set<(string, string)>)
    requires |obj.bases| == 1 && obj.bases[0] != "object"
    requires Derive(registry, obj, requiredLst, isa).Ok?
    ensures obj.bases[0] in registry
    ensures Derive(registry, obj, requiredLst, isa).value.Keys == registry[obj.bases[0]].Keys + AttrNames(obj.attrs)
    ensures forall k :: k in registry[obj.bases[0]] && k !in AttrNames(obj.attrs) ==>
              Derive(registry, obj, requiredLst, isa).value[k] == registry[obj.bases[0]][k]
    ensures forall i :: 0 <= i < |obj.attrs| && LastOccurrence(obj.attrs, i) ==>
              Ok(Derive(registry, obj, requiredLst, isa).value[obj.attrs[i].0])
              == FieldAt(obj.attrs, i, DocMap(obj.doc), requiredLst, registry.Keys, isa)
  {
    FieldsOfKeys(obj.attrs, DocMap(obj.doc), requiredLst, registry.Keys, isa);
    FieldsOfEntries(obj.attrs, DocMap(obj.doc), requiredLst, registry.Keys, isa);
  }

  /** An own attribute's field in the derived schema is the field of its last occurrence. */
  lemma DeriveOwnField(registry: map<string, Schema>, obj: DomainObject, requiredLst: seq<string>,
                       isa: set<(string, string)>, k: string)
    requires |obj.bases| >= 1
    requires Derive(registry, obj, requiredLst, isa).Ok?
    requires k in AttrNames(obj.attrs)
    ensures k in Derive(registry, obj, requiredLst, isa).value
    ensures Ok(Derive(registry, obj, requiredLst, isa).value[k])
            == FieldAt(obj.attrs, LastIndexOf(obj.attrs, k), DocMap(obj.doc), requiredLst, registry.Keys, isa)
  {
    var descs := DocMap(obj.doc);
    FieldsOfEntries(obj.attrs, descs, requiredLst, registry.Keys, isa);
    var own := FieldsOf(obj.attrs, descs, requiredLst, registry.Keys, isa).value;
    var i := LastIndexOf(obj.attrs, k);
    assert k in own && Ok(own[k]) == FieldAt(obj.attrs, i, descs, requiredLst, registry.Keys, isa);
  }

  /** Every one of the object's own fields is required exactly when its name is in `requiredLst`. */
  lemma RegisterRequiredExactly(registry: map<string, Schema>, obj: DomainObject, requiredLst: seq<string>,
                                isa: set<(string, string)>)
    requires |obj.bases| >= 1
    requires Derive(registry, obj, requiredLst, isa).Ok?
    ensures forall k :: k in AttrNames(obj.attrs) ==>
              k in Derive(registry, obj, requiredLst, isa).value
              && (Derive(registry, obj, requiredLst, isa).value[k].required <==> k in requiredLst)
  {
    forall k | k in AttrNames(obj.attrs)
      ensures k in Derive(registry, obj, requiredLst, isa).value
      ensures Derive(registry, obj, requiredLst, isa).value[k].required <==> k in requiredLst
    {
      DeriveOwnField(registry, obj, requiredLst, isa, k);
    }
  }

  /**
   * Among the object's own fields, exactly the primitive scalars named in
   * the parsed doc-string carry a description, and it is the parsed one.
   */
  lemma RegisterDescriptions(registry: map<string, Schema>, obj: DomainObject, requiredLst: seq<string>,
                             isa: set<(string, string)>)
    requires |obj.bases| >= 1
    requires Derive(registry, obj, requiredLst, isa).Ok?
    ensures forall k :: k in AttrNames(obj.attrs) ==>
              k in Derive(registry, obj, requiredLst, isa).value &&
              var f := Derive(registry, obj, requiredLst, isa).value[k];
              && (f.description.Some? <==> !f.isList && f.kind.Primitive? && k in DocMap(obj.doc))
              && (f.description.Some? ==> f.description.value == DocMap(obj.doc)[k])
  {
    var s := Derive(registry, obj, requiredLst, isa).value;
    forall k | k in AttrNames(obj.attrs)
      ensures k in s
      ensures && (s[k].description.Some? <==> !s[k].isList && s[k].kind.Primitive? && k in DocMap(obj.doc))
              && (s[k].description.Some? ==> s[k].description.value == DocMap(obj.doc)[k])
    {
      DeriveOwnField(registry, obj, requiredLst, isa, k);
    }
  }

  /** The index of the last attribute named `k`. */
  function LastIndexOf(attrs: seq<(string, Value)>, k: string): (i: int)
    requires k in AttrNames(attrs)
    ensures 0 <= i < |attrs| && attrs[i].0 == k && LastOccurrence(attrs, i)
  {
    var n := |attrs|;
    if attrs[n - 1].0 == k then n - 1
    else
      assert k in AttrNames(attrs[..n - 1]) by {
        var j :| 0 <= j < n && attrs[j].0 == k;
        assert attrs[..n - 1][j] == attrs[j];
      }
      LastIndexOf(attrs[..n - 1], k)
  }

  // ---------------------------------------------------------------------
  // The registry object
  // ---------------------------------------------------------------------

  /**
   * `DomainMapper`: the flask-restplus models and the marshmallow schemas
   * registered so far, both keyed by class name.
   */
  class DomainMapper {
    var flaskrpMapping: map<string, Schema>
    var mmMapping: map<string, MmSchema>

    /** Both maps have the same keys, and each marshmallow schema is built from the same fields as its model. */
    ghost predicate Valid()
      reads this
    {
      && flaskrpMapping.Keys == mmMapping.Keys
      && forall name :: name in flaskrpMapping ==> mmMapping[name] == MmSchemaOf(flaskrpMapping[name])
    }

    constructor ()
      ensures Valid()
      ensures flaskrpMapping == map[] && mmMapping == map[]
    {
      flaskrpMapping := map[];
      mmMapping := map[];
    }

    /**
     * The attribute loop of `register`: fills the flask-restplus and the
     * marshmallow field dictionaries in step, attribute by attribute, and
     * stops at the first attribute it cannot classify.
     */
    method BuildFields(attrs: seq<(string, Value)>, paramToDescMap: map<string, string>,
                       requiredLst: seq<string>, isa: set<(string, string)>)
      returns (r: Result<(Schema, MmSchema)>)
      requires Valid()
      ensures r.Ok? <==> FieldsOf(attrs, paramToDescMap, requiredLst, flaskrpMapping.Keys, isa).Ok?
      ensures r.Ok? ==> r.value.0 == FieldsOf(attrs, paramToDescMap, requiredLst, flaskrpMapping.Keys, isa).value
      ensures r.Ok? ==> r.value.1 == MmSchemaOf(r.value.0)
      ensures r.Err? ==> r.error == FieldsOf(attrs, paramToDescMap, requiredLst, flaskrpMapping.Keys, isa).error
    {
      var flaskrpDict: Schema := map[];
      var mmDict: MmSchema := map[];
      for i := 0 to |attrs|
        invariant FieldsOf(attrs[..i], paramToDescMap, requiredLst, flaskrpMapping.Keys, isa) == Ok(flaskrpDict)
        invariant mmDict == MmSchemaOf(flaskrpDict)
      {
        var (key, val) := attrs[i];
        var description := if key in paramToDescMap then Some(paramToDescMap[key]) else None;
        var field: FieldSpec;
        var mmField: MmField;
        if val.PyList? {
          if |val.items| == 0 {
            r := Err(MappingError(EmptyList));
            FieldsOfFails(attrs, i, paramToDescMap, requiredLst, flaskrpMapping.Keys, isa);
            return;
          }
          var listElement := val.items[0];
          if !Homogeneous(val.items, isa) {
            r := Err(MappingError(HeterogeneousList));
            FieldsOfFails(attrs, i, paramToDescMap, requiredLst, flaskrpMapping.Keys, isa);
            return;
          }
          var elementType := TypeName(listElement);
          if elementType in PrimitiveTable {
            field := FieldSpec(Primitive(PrimitiveTable[elementType]), true, key in requiredLst, None);
            mmField := MmField(Primitive(PrimitiveTable[elementType]), true, key in requiredLst);
          } else if elementType in flaskrpMapping {
            assert elementType in mmMapping;
            field := FieldSpec(Complex(elementType), true, key in requiredLst, None);
            mmField := MmField(Complex(elementType), true, key in requiredLst);
          } else {
            r := Err(MappingError(UnknownType(elementType)));
            FieldsOfFails(attrs, i, paramToDescMap, requiredLst, flaskrpMapping.Keys, isa);
            return;
          }
        } else {
          var valType := TypeName(val);
          if valType in PrimitiveTable {
            field := FieldSpec(Primitive(PrimitiveTable[valType]), false, key in requiredLst, description);
            mmField := MmField(Primitive(PrimitiveTable[valType]), false, key in requiredLst);
          } else if valType in flaskrpMapping {
            assert valType in mmMapping;
            field := FieldSpec(Complex(valType), false, key in requiredLst, None);
            mmField := MmField(Complex(valType), false, key in requiredLst);
          } else {
            r := Err(MappingError(UnknownType(valType)));
            FieldsOfFails(attrs, i, paramToDescMap, requiredLst, flaskrpMapping.Keys, isa);
            return;
          }
        }
        assert FieldAt(attrs, i, paramToDescMap, requiredLst, flaskrpMapping.Keys, isa) == Ok(field);
        FieldsOfSnoc(attrs, i, paramToDescMap, requiredLst, flaskrpMapping.Keys, isa);
        assert mmField == MmOf(field);
        MmSchemaOfUpdate(flaskrpDict, key, field);
        flaskrpDict := flaskrpDict[key := field];
        mmDict := mmDict[key := mmField];
      }
      assert attrs[..|attrs|] == attrs;
      r := Ok((flaskrpDict, mmDict));
    }

    /**
     * `register`: classifies every attribute, resolves the base class and
     * stores both schemas under the object's class name as its very last
     * step, so that a failure leaves both maps as they were.
     */
    method Register(domainObj: DomainObject, requiredLst: seq<string>, isa: set<(string, string)>)
      returns (outcome: Outcome)
      requires Valid()
      requires |domainObj.bases| >= 1
      modifies this
      ensures Valid()
      ensures old(flaskrpMapping).Keys <= flaskrpMapping.Keys
      ensures match Derive(old(flaskrpMapping), domainObj, requiredLst, isa)
              case Ok(s) =>
                && outcome == Pass
                && flaskrpMapping == old(flaskrpMapping)[domainObj.className := s]
                && mmMapping == old(mmMapping)[domainObj.className := MmSchemaOf(s)]
              case Err(e) =>
                && outcome == Fail(e)
                && flaskrpMapping == old(flaskrpMapping)
                && mmMapping == old(mmMapping)
    {
      var paramToDescMap := ParseDocString(domainObj.doc);
      var dicts := BuildFields(domainObj.attrs, paramToDescMap, requiredLst, isa);
      if dicts.Err? {
        return Fail(dicts.error);
      }
      var (flaskrpDict, mmDict) := dicts.value;

      var bases := domainObj.bases;
      if |bases| > 1 {
        outcome := Fail(MappingError(MultipleInheritance(bases)));
        return;
      }
      var flaskrpModel: Schema;
      var mmSchema: MmSchema;
      if bases[0] != "object" {
        if bases[0] !in flaskrpMapping {
          outcome := Fail(KeyError(bases[0]));
          return;
        }
        flaskrpModel := flaskrpMapping[bases[0]] + flaskrpDict;
        mmSchema := mmMapping[bases[0]] + mmDict;
        MmSchemaOfOverride(flaskrpMapping[bases[0]], flaskrpDict);
      } else {
        flaskrpModel := flaskrpDict;
        mmSchema := mmDict;
      }
      flaskrpMapping := flaskrpMapping[domainObj.className := flaskrpModel];
      mmMapping := mmMapping[domainObj.className := mmSchema];
      outcome := Pass;
    }

    /** `get_flask_restplus_schema`: the stored model, or `MappingError` for an unregistered name. */
    function GetFlaskRestplusSchema(name: string): (r: Result<Schema>)
      reads this
      ensures r.Ok? <==> name in flaskrpMapping
      ensures r.Ok? ==> r.value == flaskrpMapping[name]
      ensures r.Err? ==> r.error == MappingError(FlaskSchemaNotFound(name))
    {
      if name !in flaskrpMapping then Err(MappingError(FlaskSchemaNotFound(name)))
      else Ok(flaskrpMapping[name])
    }

    /** `_get_marshmallow_schema`: the stored schema, or `MappingError` for an unregistered name. */
    function GetMarshmallowSchema(name: string): (r: Result<MmSchema>)
      reads this
      ensures r.Ok? <==> name in mmMapping
      ensures r.Ok? ==> r.value == mmMapping[name]
      ensures r.Err? ==> r.error == MappingError(MarshmallowSchemaNotFound(name))
    {
      if name !in mmMapping then Err(MappingError(MarshmallowSchemaNotFound(name)))
      else Ok(mmMapping[name])
    }

    /**
     * `parse_data`: looks the marshmallow schema up, then hands the data to
     * its `load`, given here as a parameter returning the loaded data and the
     * validation messages; any message aborts with status 400.
     */
    method ParseData<J, D>(name: string, jsonData: J, load: (MmSchema, J) -> (D, seq<string>))
      returns (r: Result<D>)
      ensures name !in mmMapping ==> r == Err(MappingError(MarshmallowSchemaNotFound(name)))
      ensures name in mmMapping ==>
                var (data, errors) := load(mmMapping[name], jsonData);
                r == if errors != [] then Err(HttpAbort(400, errors)) else Ok(data)
    {
      var found := GetMarshmallowSchema(name);
      if found.Err? {
        return Err(found.error);
      }
      var (data, errors) := load(found.value, jsonData);
      if errors != [] {
        return Err(HttpAbort(400, errors));
      }
      return Ok(data);
    }
  }

  /** The two getters agree on which names are registered. */
  lemma GettersAgree(m: DomainMapper, name: string)
    requires m.Valid()
    ensures m.GetFlaskRestplusSchema(name).Ok? <==> m.GetMarshmallowSchema(name).Ok?
    ensures m.GetFlaskRestplusSchema(name).Ok? ==>
              m.GetMarshmallowSchema(name).value == MmSchemaOf(m.GetFlaskRestplusSchema(name).value)
  {
  }
}
