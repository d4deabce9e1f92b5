# Domain Mapper, modelled in Dafny

The domain mapper turns plain Python "domain objects" into two kinds of
schema: a flask-restplus model (used to document and marshal a REST
endpoint) and a marshmallow schema (used to validate and load incoming
JSON). `DomainMapper.register` inspects a live object:

- It reads the `label : name : description` lines of its constructor's doc-string.
- It classifies every instance attribute as one of three things:
  - a primitive (`str`, `int`, `float`, `bool`, `date`, `datetime`);
  - a nested reference to an already registered class;
  - a homogeneous list of either.
- It layers the result over the stored model of the object's single base
  class, if that base is not `object`.
- It stores both schemas under the class name.

The getters look stored schemas up again. `parse_data` loads JSON with the
stored marshmallow schema and aborts with HTTP 400 on validation errors.

The project models that core:

- `errors.dfy`: the outcomes. `MappingError` carries its reason. The
  `KeyError` of an unregistered parent. The 400 abort.
- `text.dfy`: the three Python string operations the parser relies on, with
  their laws. `str.replace(c, "")` drops every occurrence of a character.
  `str.strip()` uses Python 3's `isspace` set. `str.split(sep)` is proved to
  be inverted by `sep.join`.
- `docstring.dfy`: `_parse_doc_string`. It is an imperative loop
  (`ParseDocString`) proved equal to a fold over the lines (`DocMap`). The
  fold's keys and values are characterised by lemmas.
- `classifier.dfy`: the per-attribute classification. It covers the
  primitive table, `isinstance` for list homogeneity, and the field an
  attribute becomes.
- `registry.dfy`: the `DomainMapper` class itself.
  - Its two maps are fields. An invariant `Valid()` ties each marshmallow
    schema to its flask-restplus model.
  - `Register` is proved against the specification function `Derive`. Its
    attribute loop `BuildFields` is proved against `FieldsOf`.
  - Lemmas state which registrations succeed, which errors they raise, and
    what the stored schema holds.
- `scenario.dfy`: the registration sequence of the demo application
  (`test.py`). It registers a parent before its child, a required field,
  a list of strings and a list of a registered class. It also covers the
  child registered first.

Python's introspection is made explicit.

- A domain object is a `DomainObject` value with these parts:
  - its class name;
  - the names of its base classes;
  - its constructor doc-string;
  - its attributes in `__dict__` order.
- An attribute value is known by its runtime type name, or is a list of values.
- Subclassing is a parameter `isa` of `(subclass, superclass)` name pairs.
  It holds every subclass pair other than `bool < int` and
  `datetime < date`, including a program class that subclasses a built-in,
  such as `class Name(str)` with `("Name", "str")`.
- A schema is modelled as a map from field name to a `FieldSpec`. A
  `FieldSpec` holds the field's kind, whether it is a list, whether it is
  required, and its description.
- A marshmallow field is the same without the description.
- A nested field refers to the nested class by name.
- A Python class always has at least one base class, possibly `object`.
  So `Register` requires a non-empty list of base names.
- Python's `__dict__` never repeats a name. The model takes a sequence of
  attributes and lets a later one overwrite an earlier one, as a dict
  assignment would.

Where the code and its documentation differ, the model follows the code:

- A base class that was never registered makes `register` fail with the
  `KeyError` of the dictionary lookup at `domain_mapper.py:124`, not with a
  `MappingError`.
- List elements are checked with `isinstance` against the first element's
  type (`domain_mapper.py:87`), not for type equality. So `[1, True]` is
  accepted as a list of `int`, and `[True, 1]` is rejected.
- A Sphinx-style doc-string line `:param x: text` is stored under the key
  `"param x"`, not `"x"`. So such lines never attach a description to
  attribute `x`.

## Model

| member | source | states |
|---|---|---|
| Text.Remove | domain_mapper.py:56 | `replace("\t", "")` keeps exactly the characters other than the removed one, and shortens the text by the number of removed occurrences; the order of the kept characters is fixed by `Text.RemoveAppend` |
| Text.RemoveAppend | domain_mapper.py:56 | removing from a concatenation is removing from each part; with `Text.RemoveOne` this fixes `replace(c, "")` as the input with every `c` dropped and the other characters kept in order |
| Text.RemoveOne | domain_mapper.py:56 | a single character is dropped exactly when it is the removed one |
| Text.RemoveAbsent | domain_mapper.py:56 | removing a character that does not occur leaves the text unchanged |
| Text.Strip | domain_mapper.py:56 | `strip()` yields a text that neither starts nor ends with white space |
| Text.StripInfix | domain_mapper.py:56 | what `strip()` keeps is an infix of the input with only white space before and after it |
| Text.StripTrimmed | domain_mapper.py:63-64 | a text without white space at either end strips to itself |
| Text.StripIdempotent | domain_mapper.py:63-64 | stripping twice is stripping once |
| Text.StripAllSpace | domain_mapper.py:56 | a text made only of white space strips to the empty text |
| Text.Split | domain_mapper.py:56 | `split(sep)` gives one more piece than there are separators; no piece holds the separator; joining the pieces with the separator gives the input back |
| Text.SplitJoin | domain_mapper.py:59 | splitting a join of separator-free pieces gives the pieces back, the other half of the round trip |
| DocString.LineEntry | domain_mapper.py:59-64 | a line contributes an entry exactly when it holds exactly two colons |
| DocString.NoColonNoEntry | domain_mapper.py:59-62 | a line without a colon splits into one piece and is skipped |
| DocString.LineEntryFields | domain_mapper.py:59-64 | an entry comes from a line of three colon-free fields, and is the stripped second and third field |
| DocString.LineEntryOfFields | domain_mapper.py:59-64 | every line of three colon-free fields contributes its stripped second and third field |
| DocString.ParseDocString | domain_mapper.py:52-67 | the loop over the lines builds exactly `DocMap(doc)`, the fold over the lines of the tab-free, stripped doc-string |
| DocString.DescOfKeys | domain_mapper.py:58-66 | a name is a key of the parsed map exactly when some line declares it |
| DocString.DescOfLastWins | domain_mapper.py:66 | the value under a key is the description of the last line that declares it |
| DocString.BlankDocMap | domain_mapper.py:53-56 | a missing doc-string, or one that is only white space, gives the empty map |
| DocString.LabelledKey | domain_mapper.py:59-64 | a line `<blank>:<label><name>:<desc>`, whose first field is empty or only white space, is stored under `<label><name>` whole, with the stripped description |
| DocString.SphinxParamKey | domain_mapper.py:59-64 | a Sphinx line `:param p: d`, indented by white space or not, is stored under `"param p"` and never declares `p` itself |
| Classifier.PrimitiveTableRoundTrip | domain_mapper.py:13-31 | the six primitive type names and the six primitive kinds are in one-to-one correspondence |
| Classifier.Classify | domain_mapper.py:90-99 | a type name is primitive exactly when it is one of the six table names; otherwise it is a nested reference exactly when it is registered; otherwise it raises `MappingError` naming the type |
| Classifier.ElementKind | domain_mapper.py:84-99 | a list classifies exactly when it is non-empty, homogeneous under `isinstance` and its first element's type classifies; an empty list and a mixed list each raise their own `MappingError` |
| Classifier.FieldFor | domain_mapper.py:77-110 | the field of one attribute: it is required exactly when its name is in `required_lst`; it is a list exactly when the value is one; its kind is the classified type; only a primitive scalar carries a description, the parsed one; every failure is a `MappingError` |
| Classifier.ListHomogeneityIsSubtyping | domain_mapper.py:86-88 | `[1, True]` is a list of `int`, while `[True, 1]` is rejected as mixed |
| Registry.MmSchemaOfOverride | domain_mapper.py:124-125 | layering a child's fields over a parent's commutes with dropping descriptions for the marshmallow schema |
| Registry.FieldsOfOk | domain_mapper.py:77-110 | the own fields can be built exactly when every attribute classifies |
| Registry.FieldsOfFirstError | domain_mapper.py:77-110 | a failure is the error of the first attribute that does not classify, and it is a `MappingError` |
| Registry.FieldsOfKeys | domain_mapper.py:77-110 | the own fields are keyed exactly by the attribute names |
| Registry.FieldsOfEntries | domain_mapper.py:77-110 | each own field is the field of the last attribute with that name |
| Registry.RegisterSucceedsIff | domain_mapper.py:69-133 | `register` succeeds exactly when every attribute classifies, there is one base, and the base is `object` or registered |
| Registry.RegisterFailsOnAttribute | domain_mapper.py:77-110 | an attribute that does not classify makes `register` raise `MappingError` |
| Registry.RegisterRejectsEmptyList | domain_mapper.py:84-85 | an empty list attribute makes `register` raise `MappingError` |
| Registry.RegisterRejectsMixedList | domain_mapper.py:86-88 | a list with an element that is not an instance of the first element's type makes `register` raise `MappingError` |
| Registry.RegisterRejectsUnknownType | domain_mapper.py:98-99 | a scalar or first list element whose type is neither primitive nor registered makes `register` raise `MappingError` |
| Registry.RegisterRejectsMultipleBases | domain_mapper.py:119-121 | more than one base class makes `register` raise `MappingError` |
| Registry.RegisterKeyErrorIff | domain_mapper.py:122-124 | the only failure that is not a `MappingError` is the `KeyError` of a single unregistered base other than `object`, reached once every attribute classifies |
| Registry.RegisterRootSchema | domain_mapper.py:126-129 | under base `object` the stored model holds exactly the own fields |
| Registry.RegisterInheritedSchema | domain_mapper.py:123-125 | under a registered parent the stored model holds the parent's fields and the own fields; an own field wins a name clash, and the parent's other fields are kept |
| Registry.DeriveOwnField | domain_mapper.py:77-110 | each own attribute appears in the stored model as the field of its last occurrence |
| Registry.RegisterRequiredExactly | domain_mapper.py:92-108 | each own field is required exactly when its name is in `required_lst` |
| Registry.RegisterDescriptions | domain_mapper.py:78-80 | exactly the primitive scalar own fields named in the parsed doc-string carry a description, and it is the parsed one |
| Registry.LastIndexOf | domain_mapper.py:77 | for a name among the attributes, the index of the last attribute with that name |
| Registry.DomainMapper.constructor | domain_mapper.py:47-50 | a new mapper has no models and no schemas |
| Registry.DomainMapper.BuildFields | domain_mapper.py:74-110 | the attribute loop returns exactly `FieldsOf`: the same success, the same fields, the same first error; its marshmallow dictionary is the models' fields without descriptions |
| Registry.DomainMapper.Register | domain_mapper.py:69-133 | on success both maps gain the derived schema under the class name and nothing else changes; on failure the error is returned and both maps are unchanged; the two maps stay in step |
| Registry.DomainMapper.GetFlaskRestplusSchema | domain_mapper.py:135-142 | the stored model for a registered name, `MappingError` otherwise |
| Registry.DomainMapper.GetMarshmallowSchema | domain_mapper.py:144-147 | the stored schema for a registered name, `MappingError` otherwise |
| Registry.DomainMapper.ParseData | domain_mapper.py:149-162 | an unregistered name raises `MappingError`; otherwise the loaded data, or an abort with status 400 carrying the validation messages |
| Registry.GettersAgree | domain_mapper.py:132-147 | both getters succeed for the same names, and the marshmallow schema is the model without descriptions |
| Scenario.TestItemSchema | test.py:73-78 | `TestItem` registers on any registry with exactly its four fields, `string` required and `int_` not |
| Scenario.InheritedTestItemSchema | test.py:74-79 | `InheritedTestItem` registers once `TestItem` has been, and `str_lst` is a list of strings |
| Scenario.ChildBeforeParent | test.py:79 | without `TestItem` registered, `InheritedTestItem` fails with the `KeyError` of its parent |
| Scenario.TestCompositionSchema | test.py:75-80 | `TestComposition` registers once `TestItem` and `InheritedTestItem` have been |
| Scenario.DerivedCompositionSchema | test.py:76-81 | `DerivedComplexTestComposition` registers after its parent, and `test_item_lst` is a list of nested `TestItem` |
| Scenario.RegisterItems | test.py:73-79 | a new mapper that registers `TestItem` with `required_lst=["string"]` and then `InheritedTestItem` holds exactly those two models; `string` is required, `int_` is not, and `str_lst` is a list of strings |
| Scenario.RegisterComposition | test.py:75-80 | registering `TestComposition` after the two items adds exactly that model and leaves every stored model unchanged |
| Scenario.RegisterDerivedComposition | test.py:76-81 | registering `DerivedComplexTestComposition` after its parent adds exactly that model, leaves every stored model unchanged, and its `test_item_lst` is a list of nested `TestItem` |
| Scenario.RegisterDemo | test.py:73-81 | the demo's four registrations, parents first, all succeed, with the fields above |
| Scenario.RegisterChildFirst | test.py:79 | registering the child first fails with `KeyError` and stores nothing |

## Left out

- The flask-restplus and marshmallow field objects are not modelled. Each
  field is modelled as its kind, list-ness, required flag and description.
  `example=val` and the `api.model`/`api.clone`/`type(...)` construction are
  not modelled.
- A nested field refers to the nested class by name. The source embeds the
  nested class's stored schema object as it was at that moment. The two differ only when
  a class is registered a second time under the same name.
- The `make_object` post-load hook (`domain_mapper.py:113-116`) is not
  modelled. It builds a domain object from loaded data, which is runtime
  reflection.
- The registration of models with the `api` object is not modelled. It is a
  side effect of the flask-restplus library.
- Logging is not modelled.
- Marshmallow's `load` is a parameter of `ParseData`. Its validation rules
  belong to the library. The validation errors are modelled as a list of
  messages, not a dict. `api.abort` is modelled as an `HttpAbort(400, ...)`
  result rather than a raised exception.
- Registry.DomainMapper.ParseData: does not model the 400 message's text
  (`"Validation error: %s"`). It keeps the messages themselves.
- An attribute named `make_object`: the source overwrites its marshmallow
  field with the post-load hook (`domain_mapper.py:116`), so the stored
  marshmallow schema has no such field. The model keeps the field in the
  marshmallow schema. For such a class, `Registry.DomainMapper.Register`,
  `Valid()` and `Registry.GettersAgree` claim an agreement the source does
  not have.
- An object whose own class is named `list` but is not a built-in list: the
  source sends it down the list branch (`domain_mapper.py:82`) and calls
  `len` and `[0]` on it, whatever that class does with them. The model
  classifies `Obj("list")` as a scalar of type `list`, which fails as an
  unknown type unless a class named `list` was registered.
- A subclass of the built-in `list` is treated as a scalar of its own type
  name, because `register` tests `type(val).__name__ == "list"`. Subclass
  pairs among the built-in types are limited to `bool < int` and
  `datetime < date`.
- Scenario.TestItemSchema: `TestItem`'s constructor doc-string is left as
  `None`. After `strip()` its lines are `:param name: text`, the first one
  unindented and the others indented by spaces. `DocString.SphinxParamKey`
  covers both forms: those lines are stored under `"param name"`, so they
  attach no description to any field. The model does not evaluate that
  doc-string itself.
- Scenario.RegisterDemo: states the demo's outcome for the fields named in
  its contract, not for every field of every model.
- `str.strip()` and `str.isspace()` are modelled on Python 3's fixed
  white-space set. No Unicode database lookup is modelled beyond that set.
