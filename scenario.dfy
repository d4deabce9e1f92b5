/**
 * The registration sequence of the demo application (test.py): a parent
 * before its child, a required field, and a list of a registered class.
 */
module Scenario {
  import opened Errors
  import opened DocString
  import opened Classifier
  import opened Registry

  /** The demo's own subclass pairs. */
  const DemoHierarchy: set<(string, string)> :=
    {("InheritedTestItem", "TestItem"), ("DerivedComplexTestComposition", "TestComposition")}

  /** `TestItem(string="hello world", int_=12, float_=0.15, bool_=False)`. */
  const TestItem := DomainObject("TestItem", ["object"], None,
    [("string", Obj("str")), ("int_", Obj("int")), ("float_", Obj("float")), ("bool_", Obj("bool"))])

  /** `InheritedTestItem(..., str_lst=["a", "b"], int_lst=[1, 2])`: its own attributes come after the inherited ones. */
  const InheritedTestItem := DomainObject("InheritedTestItem", ["TestItem"], None,
    [("string", Obj("str")), ("int_", Obj("int")), ("float_", Obj("float")), ("bool_", Obj("bool")),
     ("str_lst", PyList([Obj("str"), Obj("str")])), ("int_lst", PyList([Obj("int"), Obj("int")]))])

  /** `TestComposition(test_item=testItem, test_inherited_item=inheritedTestItem)`. */
  const TestComposition := DomainObject("TestComposition", ["object"], None,
    [("test_item", Obj("TestItem")), ("test_inherited_item", Obj("InheritedTestItem"))])

  /** `DerivedComplexTestComposition(..., test_item_lst=[testItem])`. */
  const DerivedComplexTestComposition := DomainObject("DerivedComplexTestComposition", ["TestComposition"], None,
    [("test_item", Obj("TestItem")), ("test_inherited_item", Obj("InheritedTestItem")),
     ("test_item_lst", PyList([Obj("TestItem")]))])

  /** Every attribute of `TestItem` classifies; `string` is required, `int_` is not. */
  lemma TestItemFields(registry: map<string, Schema>)
    ensures Derive(registry, TestItem, ["string"], DemoHierarchy).Ok?
    ensures FieldAt(TestItem.attrs, 0, DocMap(TestItem.doc), ["string"], registry.Keys, DemoHierarchy)
            == Ok(FieldSpec(Primitive(Str), false, true, None))
    ensures FieldAt(TestItem.attrs, 1, DocMap(TestItem.doc), ["string"], registry.Keys, DemoHierarchy)
            == Ok(FieldSpec(Primitive(Int), false, false, None))
  {
    var attrs := TestItem.attrs;
    var descs := DocMap(TestItem.doc);
    var k := registry.Keys;
    assert descs == map[];
    assert FieldAt(attrs, 0, descs, ["string"], k, DemoHierarchy) == Ok(FieldSpec(Primitive(Str), false, true, None));
    assert FieldAt(attrs, 1, descs, ["string"], k, DemoHierarchy) == Ok(FieldSpec(Primitive(Int), false, false, None));
    assert FieldAt(attrs, 2, descs, ["string"], k, DemoHierarchy).Ok?;
    assert FieldAt(attrs, 3, descs, ["string"], k, DemoHierarchy).Ok?;
    RegisterSucceedsIff(registry, TestItem, ["string"], DemoHierarchy);
  }

  /** The attribute names of `TestItem`, none repeated. */
  lemma TestItemNames()
    ensures AttrNames(TestItem.attrs) == {"string", "int_", "float_", "bool_"}
    ensures LastOccurrence(TestItem.attrs, 0) && LastOccurrence(TestItem.attrs, 1)
  {
    var attrs := TestItem.attrs;
    assert attrs[0].0 == "string" && attrs[1].0 == "int_" && attrs[2].0 == "float_" && attrs[3].0 == "bool_";
  }

  /** `TestItem` registers on any registry; `string` is its one required field. */
  lemma TestItemSchema(registry: map<string, Schema>)
    ensures Derive(registry, TestItem, ["string"], DemoHierarchy).Ok?
    ensures var s := Derive(registry, TestItem, ["string"], DemoHierarchy).value;
            && s.Keys == {"string", "int_", "float_", "bool_"}
            && s["string"] == FieldSpec(Primitive(Str), false, true, None)
            && s["int_"] == FieldSpec(Primitive(Int), false, false, None)
  {
    TestItemFields(registry);
    TestItemNames();
    RegisterRootSchema(registry, TestItem, ["string"], DemoHierarchy);
  }

  /** Every attribute of `InheritedTestItem` classifies, whatever is registered. */
  lemma InheritedTestItemFields(registry: map<string, Schema>)
    ensures FieldsOf(InheritedTestItem.attrs, DocMap(InheritedTestItem.doc), [], registry.Keys, DemoHierarchy).Ok?
    ensures FieldAt(InheritedTestItem.attrs, 4, DocMap(InheritedTestItem.doc), [], registry.Keys, DemoHierarchy)
            == Ok(FieldSpec(Primitive(Str), true, false, None))
  {
    var attrs := InheritedTestItem.attrs;
    var descs := DocMap(InheritedTestItem.doc);
    var k := registry.Keys;
    assert descs == map[];
    assert Homogeneous(attrs[4].1.items, DemoHierarchy);
    assert Homogeneous(attrs[5].1.items, DemoHierarchy);
    forall i | 0 <= i < |attrs|
      ensures FieldAt(attrs, i, descs, [], k, DemoHierarchy).Ok?
    {
      assert i in {0, 1, 2, 3, 4, 5};
    }
    FieldsOfOk(attrs, descs, [], k, DemoHierarchy);
  }

  /** `InheritedTestItem` registers once `TestItem` has been; `str_lst` is a list of strings. */
  lemma InheritedTestItemSchema(registry: map<string, Schema>)
    requires "TestItem" in registry
    ensures Derive(registry, InheritedTestItem, [], DemoHierarchy).Ok?
    ensures "str_lst" in Derive(registry, InheritedTestItem, [], DemoHierarchy).value
    ensures Derive(registry, InheritedTestItem, [], DemoHierarchy).value["str_lst"]
            == FieldSpec(Primitive(Str), true, false, None)
  {
    InheritedTestItemFields(registry);
    var attrs := InheritedTestItem.attrs;
    assert Derive(registry, InheritedTestItem, [], DemoHierarchy).Ok?;
    assert attrs[4].0 == "str_lst";
    assert LastOccurrence(attrs, 4);
    RegisterInheritedSchema(registry, InheritedTestItem, [], DemoHierarchy);
  }

  /** Without `TestItem` registered, `InheritedTestItem` fails on the parent lookup. */
  lemma ChildBeforeParent(registry: map<string, Schema>)
    requires "TestItem" !in registry
    ensures Derive(registry, InheritedTestItem, [], DemoHierarchy) == Err(KeyError("TestItem"))
  {
    InheritedTestItemFields(registry);
    RegisterKeyErrorIff(registry, InheritedTestItem, [], DemoHierarchy);
  }

  /** `TestComposition` registers once both its field classes have been. */
  lemma TestCompositionSchema(registry: map<string, Schema>)
    requires "TestItem" in registry && "InheritedTestItem" in registry
    ensures Derive(registry, TestComposition, [], DemoHierarchy).Ok?
  {
    var attrs := TestComposition.attrs;
    var descs := DocMap(TestComposition.doc);
    var k := registry.Keys;
    assert descs == map[];
    assert FieldAt(attrs, 0, descs, [], k, DemoHierarchy).Ok?;
    assert FieldAt(attrs, 1, descs, [], k, DemoHierarchy).Ok?;
    RegisterSucceedsIff(registry, TestComposition, [], DemoHierarchy);
  }

  /** `DerivedComplexTestComposition` registers after its parent; `test_item_lst` is a list of `TestItem`. */
  lemma DerivedCompositionSchema(registry: map<string, Schema>)
    requires "TestItem" in registry && "InheritedTestItem" in registry && "TestComposition" in registry
    ensures Derive(registry, DerivedComplexTestComposition, [], DemoHierarchy).Ok?
    ensures "test_item_lst" in Derive(registry, DerivedComplexTestComposition, [], DemoHierarchy).value
    ensures Derive(registry, DerivedComplexTestComposition, [], DemoHierarchy).value["test_item_lst"]
            == FieldSpec(Complex("TestItem"), true, false, None)
  {
    var attrs := DerivedComplexTestComposition.attrs;
    var descs := DocMap(DerivedComplexTestComposition.doc);
    var k := registry.Keys;
    assert descs == map[];
    assert FieldAt(attrs, 0, descs, [], k, DemoHierarchy).Ok?;
    assert FieldAt(attrs, 1, descs, [], k, DemoHierarchy).Ok?;
    assert Homogeneous(attrs[2].1.items, DemoHierarchy);
    assert FieldAt(attrs, 2, descs, [], k, DemoHierarchy) == Ok(FieldSpec(Complex("TestItem"), true, false, None));
    RegisterSucceedsIff(registry, DerivedComplexTestComposition, [], DemoHierarchy);
    assert attrs[2].0 == "test_item_lst";
    assert LastOccurrence(attrs, 2);
    RegisterInheritedSchema(registry, DerivedComplexTestComposition, [], DemoHierarchy);
  }

  /** The demo's two item classes, parent first, both register. */
  method RegisterItems() returns (m: DomainMapper)
    ensures fresh(m) && m.Valid()
    ensures m.flaskrpMapping.Keys == {"TestItem", "InheritedTestItem"}
    ensures var testItem := m.flaskrpMapping["TestItem"];
            "string" in testItem && testItem["string"].required && "int_" in testItem && !testItem["int_"].required
    ensures var inherited := m.flaskrpMapping["InheritedTestItem"];
            "str_lst" in inherited && inherited["str_lst"] == FieldSpec(Primitive(Str), true, false, None)
  {
    m := new DomainMapper();
    TestItemSchema(m.flaskrpMapping);
    var outcome := m.Register(TestItem, ["string"], DemoHierarchy);
    var testItem := m.flaskrpMapping["TestItem"];
    assert testItem["string"].required && !testItem["int_"].required;

    InheritedTestItemSchema(m.flaskrpMapping);
    outcome := m.Register(InheritedTestItem, [], DemoHierarchy);
    assert m.flaskrpMapping["TestItem"] == testItem;
  }

  /** `TestComposition` registers once both item classes have been; nothing else changes. */
  method RegisterComposition(m: DomainMapper)
    requires m.Valid() && "TestItem" in m.flaskrpMapping && "InheritedTestItem" in m.flaskrpMapping
    modifies m
    ensures m.Valid()
    ensures m.flaskrpMapping.Keys == old(m.flaskrpMapping.Keys) + {"TestComposition"}
    ensures forall k :: k in old(m.flaskrpMapping) && k != "TestComposition" ==>
              m.flaskrpMapping[k] == old(m.flaskrpMapping[k])
  {
    TestCompositionSchema(m.flaskrpMapping);
    var outcome := m.Register(TestComposition, [], DemoHierarchy);
  }

  /** `DerivedComplexTestComposition` registers after its parent; nothing else changes. */
  method RegisterDerivedComposition(m: DomainMapper)
    requires m.Valid()
    requires "TestItem" in m.flaskrpMapping && "InheritedTestItem" in m.flaskrpMapping
    requires "TestComposition" in m.flaskrpMapping
    modifies m
    ensures m.Valid()
    ensures m.flaskrpMapping.Keys == old(m.flaskrpMapping.Keys) + {"DerivedComplexTestComposition"}
    ensures forall k :: k in old(m.flaskrpMapping) && k != "DerivedComplexTestComposition" ==>
              m.flaskrpMapping[k] == old(m.flaskrpMapping[k])
    ensures var derived := m.flaskrpMapping["DerivedComplexTestComposition"];
            "test_item_lst" in derived && derived["test_item_lst"] == FieldSpec(Complex("TestItem"), true, false, None)
  {
    DerivedCompositionSchema(m.flaskrpMapping);
    var outcome := m.Register(DerivedComplexTestComposition, [], DemoHierarchy);
  }

  /** The four registrations of the demo, parents first, all succeed. */
  method RegisterDemo() returns (m: DomainMapper)
    ensures m.Valid()
    ensures m.flaskrpMapping.Keys ==
              {"TestItem", "InheritedTestItem", "TestComposition", "DerivedComplexTestComposition"}
    ensures var testItem := m.flaskrpMapping["TestItem"];
            "string" in testItem && testItem["string"].required && "int_" in testItem && !testItem["int_"].required
    ensures var inherited := m.flaskrpMapping["InheritedTestItem"];
            "str_lst" in inherited && inherited["str_lst"] == FieldSpec(Primitive(Str), true, false, None)
    ensures var derived := m.flaskrpMapping["DerivedComplexTestComposition"];
            "test_item_lst" in derived && derived["test_item_lst"] == FieldSpec(Complex("TestItem"), true, false, None)
  {
    m := RegisterItems();
    var testItem := m.flaskrpMapping["TestItem"];
    var inherited := m.flaskrpMapping["InheritedTestItem"];
    RegisterComposition(m);
    assert m.flaskrpMapping.Keys == {"TestItem", "InheritedTestItem", "TestComposition"};
    assert m.flaskrpMapping["TestItem"] == testItem && m.flaskrpMapping["InheritedTestItem"] == inherited;
    RegisterDerivedComposition(m);
    assert m.flaskrpMapping["TestItem"] == testItem && m.flaskrpMapping["InheritedTestItem"] == inherited;
  }

  /** Registering the child before its parent stops at the parent lookup and stores nothing. */
  method RegisterChildFirst() returns (m: DomainMapper, outcome: Outcome)
    ensures outcome == Fail(KeyError("TestItem"))
    ensures m.flaskrpMapping == map[] && m.mmMapping == map[]
  {
    m := new DomainMapper();
    ChildBeforeParent(m.flaskrpMapping);
    outcome := m.Register(InheritedTestItem, [], DemoHierarchy);
  }
}
