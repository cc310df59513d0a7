/**
 * The part of the client generator's schema model that derives Python type
 * annotations from a schema field (prisma/generator/models.py): the lookup
 * tables, the per-field annotation strings and flags, and the field subsets of
 * a model.
 */
module GeneratorModels {
  import opened Wrappers

  // ---------------------------------------------------------------------------
  // Lookup tables
  // ---------------------------------------------------------------------------

  /** Scalar types that accept atomic update operations (increment, multiply, ...). */
  const AtomicFieldTypes: seq<string> := ["Int", "Float", "Boolean"]

  /** Python annotation of each scalar schema type. */
  const TypeMapping: map<string, string> := map[
    "String" := "str",
    "DateTime" := "datetime.datetime",
    "Boolean" := "bool",
    "Int" := "int",
    "Float" := "float",
    "Json" := "dict"
  ]

  /** Scalar types that get a `types.<T>Filter` alternative in where inputs.
      The date type is spelt "Datetime" here, unlike its key in TypeMapping. */
  const FilterTypes: seq<string> := ["String", "Datetime", "Boolean", "Int", "Float"]

  // ---------------------------------------------------------------------------
  // Schema entities
  // ---------------------------------------------------------------------------

  /** A field's default: either a call such as `autoincrement()` or a literal. */
  datatype DefaultValue = DefaultCall(name: string) | DefaultLiteral(literal: string)

  /** One field of a schema model, as the schema compiler describes it. */
  datatype Field = Field(
    name: string,
    kind: string,              // "scalar", "enum" or "object"
    typ: string,               // the schema type, or the related model / enum name
    isId: bool,
    isList: bool,
    isUnique: bool,
    isRequired: bool,
    isReadOnly: bool,
    isGenerated: bool,
    isUpdatedAt: bool,
    defaultValue: Option<DefaultValue>,
    hasDefaultValue: bool,
    relationName: Option<string>,
    relationOnDelete: Option<string>,
    relationToFields: Option<seq<string>>,
    relationFromFields: Option<seq<string>>
  )

  /** One model of the schema; `allFields` keeps the schema's field order. */
  datatype Model = Model(
    name: string,
    isEmbedded: bool,
    dbName: Option<string>,
    isGenerated: bool,
    allFields: seq<Field>
  )

  /** The exceptions raised while deriving annotations. */
  datatype GenError =
    | UnknownType(fieldName: string, typ: string)  // RuntimeError: could not parse <name> due to unknown type
    | NotAtomic                                    // TypeError: field is not atomic

  // ---------------------------------------------------------------------------
  // String shapes used to state what the annotations are
  // ---------------------------------------------------------------------------

  predicate StartsWith(s: string, p: string) {
    |p| <= |s| && s[..|p|] == p
  }

  predicate EndsWith(s: string, p: string) {
    |p| <= |s| && s[|s| - |p|..] == p
  }

  /** Where the two parts of a concatenation sit in it. */
  lemma TwoParts(a: string, b: string)
    ensures StartsWith(a + b, a) && EndsWith(a + b, b)
  {
    assert (a + b)[..|a|] == a;
    assert (a + b)[|a|..] == b;
  }

  /** Where the three parts of a concatenation sit in it. */
  lemma ThreeParts(a: string, b: string, c: string)
    ensures StartsWith(a + b + c, a) && StartsWith(a + b + c, a + b) && EndsWith(a + b + c, c)
    ensures |b| > 0 ==> (a + b + c)[|a|] == b[0]
  {
    var s := a + b + c;
    assert s[..|a|] == a;
    assert s[..|a| + |b|] == a + b;
    assert s[|s| - |c|..] == c;
  }

  /** A Python forward reference: a string literal in single quotes. */
  predicate IsForwardRef(s: string) {
    |s| >= 2 && s[0] == '\'' && s[|s| - 1] == '\''
  }

  /** The text between the outer quotes of a forward reference. */
  function Unquote(s: string): string
    requires IsForwardRef(s)
  {
    s[1..|s| - 1]
  }

  /** `List[t]`, the annotation of a list of `t`. */
  function ListOf(t: string): (r: string)
    ensures UnwrapList(r) == Some(t)
    ensures !StartsWith(r, "Union[")
  {
    var r := "List[" + t + "]";
    assert r[..5] == "List[" && r[5..|r| - 1] == t;
    assert r[0] == 'L' != "Union["[0];
    r
  }

  /** The element annotation of a `List[...]` annotation, and None for any other string. */
  function UnwrapList(s: string): Option<string> {
    if |s| >= 6 && s[..5] == "List[" && s[|s| - 1] == ']' then Some(s[5..|s| - 1]) else None
  }

  /** No annotation in TypeMapping is quoted, a list or a union. */
  lemma MappedTypesArePlain(t: string)
    requires t in TypeMapping
    ensures var v := TypeMapping[t];
      && v != [] && v[0] != '\''
      && !StartsWith(v, "Union[") && UnwrapList(v) == None
  {
  }

  // ---------------------------------------------------------------------------
  // Escaping of single quotes
  // ---------------------------------------------------------------------------

  /** Every `'` in `s` is escaped: read from the left, a `'` only ever comes as
      the second character of a `\'` pair. */
  predicate QuotesEscaped(s: string) {
    if s == [] then true
    else if |s| >= 2 && s[0] == '\\' && s[1] == '\'' then QuotesEscaped(s[2..])
    else s[0] != '\'' && QuotesEscaped(s[1..])
  }

  /** Every `'` replaced by `\'` (Python's `str.replace("'", "\\'")`). The
      first ensures follows from the second; it is kept as a direct fact for the
      induction in `UnescapeEscape`. */
  function EscapeQuotes(s: string): (r: string)
    ensures r != [] ==> r[0] != '\''
    ensures QuotesEscaped(r)
  {
    if s == [] then []
    else (if s[0] == '\'' then "\\'" else [s[0]]) + EscapeQuotes(s[1..])
  }

  /** Undoes the quote escape: every `\'` becomes `'`. Other backslashes are kept. */
  function UnescapeQuotes(s: string): string {
    if s == [] then []
    else if |s| >= 2 && s[0] == '\\' && s[1] == '\'' then "'" + UnescapeQuotes(s[2..])
    else [s[0]] + UnescapeQuotes(s[1..])
  }

  /** Escaping loses nothing: undoing the quote escape gives the original text back. */
  lemma {:induction false} UnescapeEscape(s: string)
    ensures UnescapeQuotes(EscapeQuotes(s)) == s
  {
    if s != [] {
      var rest := EscapeQuotes(s[1..]);
      UnescapeEscape(s[1..]);
      if s[0] == '\'' {
        assert EscapeQuotes(s) == "\\'" + rest;
        assert ("\\'" + rest)[2..] == rest;
      } else {
        assert EscapeQuotes(s) == [s[0]] + rest;
        assert ([s[0]] + rest)[1..] == rest;
        assert rest != [] ==> rest[0] != '\'';
      }
    }
  }

  // ---------------------------------------------------------------------------
  // Per-field annotations
  // ---------------------------------------------------------------------------

  predicate IsEnumOrObject(f: Field) {
    f.kind == "enum" || f.kind == "object"
  }

  /** The annotation of one element of the field (`_actual_python_type`). */
  function ActualPythonType(f: Field): (r: Result<string, GenError>)
    ensures r.Err? <==> !IsEnumOrObject(f) && f.typ !in TypeMapping
    ensures r.Err? ==> r.error == UnknownType(f.name, f.typ)
    ensures r.Ok? ==> r.value != [] && (r.value[0] == '\'' <==> IsEnumOrObject(f))
    ensures r.Ok? && f.kind == "enum" ==> (
      && IsForwardRef(r.value)
      && StartsWith(Unquote(r.value), "types.")
      && EndsWith(Unquote(r.value), f.typ + "Enum")
      && |Unquote(r.value)| == 6 + |f.typ| + 4)
    ensures r.Ok? && f.kind == "object" ==> (
      && IsForwardRef(r.value)
      && StartsWith(Unquote(r.value), "models.")
      && EndsWith(Unquote(r.value), f.typ)
      && |Unquote(r.value)| == 7 + |f.typ|)
    ensures r.Ok? && !IsEnumOrObject(f) ==> r.value == TypeMapping[f.typ]
  {
    if f.kind == "enum" then
      TwoParts("types.", f.typ + "Enum");
      Ok(Quote("types." + (f.typ + "Enum")))
    else if f.kind == "object" then
      TwoParts("models.", f.typ);
      Ok(Quote("models." + f.typ))
    else if f.typ in TypeMapping then
      MappedTypesArePlain(f.typ);
      Ok(TypeMapping[f.typ])
    else
      Err(UnknownType(f.name, f.typ))
  }

  /** The element annotation is never a `List[...]` or a `Union[...]`. */
  lemma ActualTypeIsElement(f: Field)
    requires ActualPythonType(f).Ok?
    ensures UnwrapList(ActualPythonType(f).value) == None
    ensures !StartsWith(ActualPythonType(f).value, "Union[")
  {
  }

  /** The field's annotation (`python_type`): `List[<element>]` for list fields. */
  function PythonType(f: Field): (r: Result<string, GenError>)
    ensures r.Err? <==> ActualPythonType(f).Err?
    ensures r.Err? ==> r.error == ActualPythonType(f).error
    ensures r.Ok? ==> UnwrapList(r.value) == (if f.isList then Some(ActualPythonType(f).value) else None)
    ensures r.Ok? && !f.isList ==> r.value == ActualPythonType(f).value
    ensures r.Ok? ==> !StartsWith(r.value, "Union[")
  {
    var a :- ActualPythonType(f);
    ActualTypeIsElement(f);
    if f.isList then
      Ok(ListOf(a))
    else
      Ok(a)
  }

  /** The annotation written as a quoted forward reference (`python_type_as_string`):
      for a list field the whole `List[...]` is quoted, with inner quotes escaped. */
  function PythonTypeAsString(f: Field): (r: Result<string, GenError>)
    ensures r.Err? <==> ActualPythonType(f).Err?
    ensures r.Err? ==> r.error == ActualPythonType(f).error
    ensures r.Ok? ==> IsForwardRef(r.value)
    ensures r.Ok? && f.isList ==> StartsWith(r.value, "'List[") && QuotesEscaped(Unquote(r.value))
  {
    var a :- ActualPythonType(f);
    if f.isList then
      var e := EscapeQuotes(a);
      ListOfKeepsEscaped(e);
      QuotedListPrefix(e);
      Ok(Quote(ListOf(e)))
    else if a != [] && a[0] == '\'' then
      Ok(a)
    else
      Ok(Quote(a))
  }

  /** Brackets around an escaped text leave it escaped. */
  lemma ListOfKeepsEscaped(e: string)
    requires QuotesEscaped(e)
    ensures QuotesEscaped(ListOf(e))
  {
    var l := ListOf(e);
    AppendBracketKeepsEscaped(e);
    PlainPrefixKeepsEscaped("List[", e + "]");
    assert l == "List[" + (e + "]");
  }

  /** Text with no quote and no backslash in front of an escaped text leaves it escaped. */
  lemma {:induction false} PlainPrefixKeepsEscaped(p: string, t: string)
    requires forall i :: 0 <= i < |p| ==> p[i] != '\'' && p[i] != '\\'
    requires QuotesEscaped(t)
    ensures QuotesEscaped(p + t)
  {
    if p == [] {
      assert p + t == t;
    } else {
      PlainPrefixKeepsEscaped(p[1..], t);
      assert (p + t)[0] == p[0];
      assert (p + t)[1..] == p[1..] + t;
    }
  }

  /** A closing bracket after an escaped text leaves it escaped. */
  lemma {:induction false} AppendBracketKeepsEscaped(e: string)
    requires QuotesEscaped(e)
    ensures QuotesEscaped(e + "]")
  {
    if e != [] {
      if |e| >= 2 && e[0] == '\\' && e[1] == '\'' {
        AppendBracketKeepsEscaped(e[2..]);
        assert (e + "]")[2..] == e[2..] + "]";
      } else {
        AppendBracketKeepsEscaped(e[1..]);
        assert (e + "]")[1..] == e[1..] + "]";
      }
    }
  }

  /** A quoted list annotation starts with `'List[`. */
  lemma QuotedListPrefix(e: string)
    ensures StartsWith(Quote(ListOf(e)), "'List[")
  {
    assert Quote(ListOf(e))[..6] == "'List[";
  }

  /** The quoted form denotes the plain annotation: unquoting it, and for a list
      undoing the quote escape, gives `python_type`, except that an enum or model element, already a forward
      reference, is left as it is. */
  lemma AsStringDenotesPythonType(f: Field)
    requires ActualPythonType(f).Ok?
    ensures var r := PythonTypeAsString(f).value;
      var p := PythonType(f).value;
      && (f.isList ==> UnescapeQuotes(Unquote(r)) == p)
      && (!f.isList && IsEnumOrObject(f) ==> r == p)
      && (!f.isList && !IsEnumOrObject(f) ==> Unquote(r) == p)
  {
    var a := ActualPythonType(f).value;
    var r := PythonTypeAsString(f).value;
    if f.isList {
      var e := EscapeQuotes(a);
      assert Unquote(r) == "List[" + e + "]";
      UnescapeListOf(e);
      UnescapeEscape(a);
    } else if !IsEnumOrObject(f) {
      assert r == "'" + a + "'";
      assert Unquote(r) == a;
    }
  }

  /** Reading back `List[e]` reads back `e` in place. */
  lemma UnescapeListOf(e: string)
    ensures UnescapeQuotes("List[" + e + "]") == "List[" + UnescapeQuotes(e) + "]"
  {
    UnescapeAppendBracket(e);
    UnescapePlainPrefix("List[", e + "]");
    assert "List[" + e + "]" == "List[" + (e + "]");
  }

  /** Text without backslashes reads back as itself. */
  lemma {:induction false} UnescapePlainPrefix(p: string, rest: string)
    requires forall i :: 0 <= i < |p| ==> p[i] != '\\'
    ensures UnescapeQuotes(p + rest) == p + UnescapeQuotes(rest)
  {
    if p != [] {
      assert (p + rest)[0] == p[0] != '\\';
      assert (p + rest)[1..] == p[1..] + rest;
      assert p == [p[0]] + p[1..];
      UnescapePlainPrefix(p[1..], rest);
    } else {
      assert p + rest == rest;
    }
  }

  lemma {:induction false} UnescapeAppendBracket(e: string)
    ensures UnescapeQuotes(e + "]") == UnescapeQuotes(e) + "]"
  {
    if e == [] {
      assert [] + "]" == "]";
    } else if |e| >= 2 && e[0] == '\\' && e[1] == '\'' {
      assert (e + "]")[2..] == e[2..] + "]";
      UnescapeAppendBracket(e[2..]);
    } else {
      assert (e + "]")[1..] == e[1..] + "]";
      UnescapeAppendBracket(e[1..]);
    }
  }

  /** `u` in single quotes: a forward reference to the name `u`. */
  function Quote(u: string): (r: string)
    ensures IsForwardRef(r) && Unquote(r) == u
  {
    "'" + u + "'"
  }

  /** The nested-create input that stands for a relation field in a create input. */
  function RelationCreateInput(f: Field): (r: string)
    ensures IsForwardRef(r)
    ensures StartsWith(Unquote(r), f.typ + "Create")
    ensures EndsWith(Unquote(r), "NestedWithoutRelationsInput")
    ensures StartsWith(Unquote(r), f.typ + "CreateMany") <==> f.isList
    ensures |Unquote(r)| == |f.typ| + 6 + (if f.isList then 4 else 0) + 27
  {
    var head := f.typ + "Create";
    var tail := "NestedWithoutRelationsInput";
    var count := if f.isList then "Many" else "";
    ThreeParts(head, count, tail);
    assert !f.isList ==> (head + count + tail)[|head|] == 'N' != (head + "Many")[|head|];
    Quote(head + count + tail)
  }

  /** The annotation of the field in a create input (`create_input_type`): a
      nested-create input for relations, the plain annotation otherwise. */
  function CreateInputType(f: Field): (r: Result<string, GenError>)
    ensures f.kind != "object" ==> r == PythonType(f)
    ensures f.kind == "object" ==> r == Ok(RelationCreateInput(f))
  {
    if f.kind != "object" then PythonType(f) else Ok(RelationCreateInput(f))
  }

  /** The annotation of the field in a where input (`where_input_type`). */
  function WhereInputType(f: Field): (r: Result<string, GenError>)
    ensures f.typ !in FilterTypes ==> r == PythonType(f)
    ensures f.typ in FilterTypes ==> (r.Ok? <==> ActualPythonType(f).Ok?)
    ensures r.Err? ==> r.error == ActualPythonType(f).error
    ensures r.Ok? ==> (StartsWith(r.value, "Union[") <==> f.typ in FilterTypes)
    ensures r.Ok? && f.typ in FilterTypes ==> (
      && StartsWith(r.value, "Union[" + ActualPythonType(f).value + ", ")
      && EndsWith(r.value, ", 'types." + f.typ + "Filter']")
      && |r.value| == 6 + |ActualPythonType(f).value| + 9 + |f.typ| + 8)
  {
    if f.typ in FilterTypes then
      var a :- ActualPythonType(f);
      Ok(FilterUnion(a, f.typ))
    else
      PythonType(f)
  }

  /** `Union[<a>, 'types.<typ>Filter']`: an annotation or its filter input. */
  function FilterUnion(a: string, typ: string): (r: string)
    ensures StartsWith(r, "Union[")
    ensures StartsWith(r, "Union[" + a + ", ")
    ensures EndsWith(r, ", 'types." + typ + "Filter']")
    ensures |r| == 6 + |a| + 9 + |typ| + 8
  {
    var tail := ", 'types." + typ + "Filter']";
    ThreeParts("Union[", a, tail);
    ThreeParts("Union[" + a, ", ", "'types." + typ + "Filter']");
    "Union[" + a + tail
  }

  /** For a type in FilterTypes the where annotation uses the element annotation,
      so it does not depend on whether the field is a list. */
  lemma WhereIgnoresList(f: Field)
    requires f.typ in FilterTypes
    ensures WhereInputType(f) == WhereInputType(f.(isList := !f.isList))
  {
  }

  /** A list of strings is filtered as a single string: its where annotation is
      `Union[str, 'types.StringFilter']`, with no `List[...]` in it. */
  lemma StringListWhereIsElement(f: Field)
    requires f.kind == "scalar" && f.typ == "String" && f.isList
    ensures WhereInputType(f) == Ok("Union[" + "str" + ", 'types." + "String" + "Filter']")
    ensures PythonType(f) == Ok(ListOf("str"))
  {
    assert f.typ in FilterTypes;
    assert ActualPythonType(f) == Ok("str");
    var tail := ", 'types." + f.typ + "Filter']";
    assert WhereInputType(f) == Ok("Union[" + "str" + tail);
    assert "Union[" + "str" + tail == "Union[" + "str" + ", 'types." + "String" + "Filter']";
  }

  /** A `DateTime` field never gets a filter union: FilterTypes spells the type
      "Datetime". Its where annotation is its plain annotation. */
  lemma DateTimeHasNoFilter(f: Field)
    requires f.typ == "DateTime" && !IsEnumOrObject(f)
    ensures WhereInputType(f).Ok?
    ensures WhereInputType(f) == PythonType(f)
    ensures !StartsWith(WhereInputType(f).value, "Union[")
  {
  }

  /** A scalar field typed "Datetime" matches FilterTypes but has no entry in
      TypeMapping, so deriving its where annotation fails. */
  lemma DatetimeFilterFails(f: Field)
    requires f.typ == "Datetime" && !IsEnumOrObject(f)
    ensures WhereInputType(f) == Err(UnknownType(f.name, "Datetime"))
  {
  }

  /** The argument type of a relational field (`relational_args_type`). */
  function RelationalArgsType(f: Field): (r: string)
    ensures EndsWith(r, f.typ + "Args")
    ensures f.isList ==> StartsWith(r, "FindMany")
    ensures |r| == |f.typ| + 4 + (if f.isList then 8 else 0)
  {
    if f.isList then
      var s := "FindMany" + f.typ + "Args";
      assert s[..8] == "FindMany";
      assert s[|s| - |f.typ + "Args"|..] == f.typ + "Args";
      s
    else
      f.typ + "Args"
  }

  /** Python truthiness of `relation_name`: set and non-empty. */
  predicate HasRelation(f: Field) {
    f.relationName.Some? && f.relationName.value != ""
  }

  /** `is_optional`: the field may be left out of a model instance. */
  predicate IsOptional(f: Field)
    ensures !f.isRequired ==> IsOptional(f)
    ensures HasRelation(f) ==> IsOptional(f)
    ensures IsOptional(f) ==> !f.isRequired || HasRelation(f)
  {
    !(f.isRequired && !HasRelation(f))
  }

  /** `required_on_create`: the field must be given when creating a record. */
  predicate RequiredOnCreate(f: Field)
    ensures RequiredOnCreate(f) <==> !IsOptional(f) && !f.isUpdatedAt && !f.hasDefaultValue
    ensures RequiredOnCreate(f) ==> f.isRequired && !HasRelation(f)
  {
    f.isRequired && !f.isUpdatedAt && !f.hasDefaultValue && !HasRelation(f)
  }

  /** `is_atomic`: the field's type accepts atomic updates. */
  predicate IsAtomic(f: Field)
    ensures IsAtomic(f) <==> f.typ == "Int" || f.typ == "Float" || f.typ == "Boolean"
  {
    f.typ in AtomicFieldTypes
  }

  /** The value annotation of an atomic update (`atomic_type`). For a list field
      it wraps `python_type`, itself already a list, in a second `List[...]`. */
  function AtomicType(f: Field): (r: Result<string, GenError>)
    ensures r.Err? <==> !IsAtomic(f)
    ensures r.Err? ==> r.error == NotAtomic
    ensures r.Ok? ==> PythonType(f).Ok?
    ensures r.Ok? ==> UnwrapList(r.value) == (if f.isList then Some(PythonType(f).value) else None)
    ensures r.Ok? && !f.isList ==> r == PythonType(f)
  {
    if !IsAtomic(f) then Err(NotAtomic)
    else
      assert f.typ in TypeMapping;
      var p := PythonType(f).value;
      if f.isList then
        Ok(ListOf(p))
      else
        Ok(p)
  }

  /** An atomic list field's update value is a list of lists of its element type. */
  lemma AtomicListIsDoubleWrapped(f: Field)
    requires IsAtomic(f) && f.isList
    ensures var a := AtomicType(f).value;
      && UnwrapList(a).Some?
      && UnwrapList(UnwrapList(a).value) == Some(ActualPythonType(f).value)
  {
  }

  /** The atomic alternative of an update input: an update-operations input or a plain value. */
  function AtomicUpdateInput(f: Field, model: string): (r: string)
    requires IsAtomic(f)
    ensures StartsWith(r, "Union['" + model + "Update" + f.name + "Input', ")
    ensures EndsWith(r, AtomicType(f).value + "]")
    ensures |r| == 7 + |model| + 6 + |f.name| + 8 + |AtomicType(f).value| + 1
  {
    UpdateUnion(model, f.name, AtomicType(f).value)
  }

  /** `Union['<model>Update<name>Input', <a>]`: update operations or a plain value. */
  function UpdateUnion(model: string, name: string, a: string): (r: string)
    ensures StartsWith(r, "Union['" + model + "Update" + name + "Input', ")
    ensures EndsWith(r, a + "]")
    ensures |r| == 7 + |model| + 6 + |name| + 8 + |a| + 1
  {
    var head := "Union['" + model + "Update" + name + "Input', ";
    TwoParts(head, a + "]");
    head + (a + "]")
  }

  /** The relation alternative of an update input. */
  function RelationUpdateInput(f: Field): (r: string)
    ensures IsForwardRef(r)
    ensures StartsWith(Unquote(r), f.typ + "Update")
    ensures EndsWith(Unquote(r), "WithoutRelationsInput")
    ensures StartsWith(Unquote(r), f.typ + "UpdateMany") <==> f.isList
    ensures StartsWith(Unquote(r), f.typ + "UpdateOne") <==> !f.isList
    ensures |Unquote(r)| == |f.typ| + 6 + (if f.isList then 4 else 3) + 21
  {
    var head := f.typ + "Update";
    var tail := "WithoutRelationsInput";
    var count := if f.isList then "Many" else "One";
    ThreeParts(head, count, tail);
    assert (head + "Many")[|head|] == 'M' && (head + "One")[|head|] == 'O';
    Quote(head + count + tail)
  }

  /** The annotation of the field in an update input of `model` (`get_update_input_type`):
      atomic types first, then relations, then the plain annotation. */
  function UpdateInputType(f: Field, model: string): (r: Result<string, GenError>)
    ensures IsAtomic(f) ==> r == Ok(AtomicUpdateInput(f, model))
    ensures !IsAtomic(f) && f.kind == "object" ==> r == Ok(RelationUpdateInput(f))
    ensures !IsAtomic(f) && f.kind != "object" ==> r == PythonType(f)
  {
    if IsAtomic(f) then Ok(AtomicUpdateInput(f, model))
    else if f.kind == "object" then Ok(RelationUpdateInput(f))
    else PythonType(f)
  }

  // ---------------------------------------------------------------------------
  // Field subsets of a model
  // ---------------------------------------------------------------------------

  /** `relational_fields` of a model whose `all_fields` is `fields`. */
  function RelationalFields(fields: seq<Field>): (r: seq<Field>)
    ensures forall g :: g in r <==> g in fields && HasRelation(g)
    ensures |r| <= |fields|
  {
    if fields == [] then []
    else if HasRelation(fields[0]) then [fields[0]] + RelationalFields(fields[1..])
    else RelationalFields(fields[1..])
  }

  /** `scalar_fields` of a model whose `all_fields` is `fields`. */
  function ScalarFields(fields: seq<Field>): (r: seq<Field>)
    ensures forall g :: g in r <==> g in fields && !HasRelation(g)
    ensures |r| <= |fields|
  {
    if fields == [] then []
    else if !HasRelation(fields[0]) then [fields[0]] + ScalarFields(fields[1..])
    else ScalarFields(fields[1..])
  }

  /** `atomic_fields` of a model whose `all_fields` is `fields`. */
  function AtomicFields(fields: seq<Field>): (r: seq<Field>)
    ensures forall g :: g in r <==> g in fields && IsAtomic(g)
    ensures |r| <= |fields|
  {
    if fields == [] then []
    else if IsAtomic(fields[0]) then [fields[0]] + AtomicFields(fields[1..])
    else AtomicFields(fields[1..])
  }

  /** `s` is a merge of `a` and `b` that keeps the order of each. */
  ghost predicate Interleaving<T>(a: seq<T>, b: seq<T>, s: seq<T>)
    decreases |s|
  {
    if s == [] then a == [] && b == []
    else
      || (a != [] && a[0] == s[0] && Interleaving(a[1..], b, s[1..]))
      || (b != [] && b[0] == s[0] && Interleaving(a, b[1..], s[1..]))
  }

  /** `a` is `s` with some elements dropped and the rest in order. */
  ghost predicate IsSubsequence<T>(a: seq<T>, s: seq<T>)
    decreases |s|
  {
    if a == [] then true
    else if s == [] then false
    else if a[0] == s[0] then IsSubsequence(a[1..], s[1..])
    else IsSubsequence(a, s[1..])
  }

  /** Relational and scalar fields split the model's fields: merging them back,
      each in its own order, gives exactly the original list. */
  lemma {:induction false} RelationalScalarPartition(fields: seq<Field>)
    ensures Interleaving(RelationalFields(fields), ScalarFields(fields), fields)
  {
    if fields != [] {
      RelationalScalarPartition(fields[1..]);
      var rel, sca := RelationalFields(fields[1..]), ScalarFields(fields[1..]);
      if HasRelation(fields[0]) {
        assert ([fields[0]] + rel)[1..] == rel;
      } else {
        assert ([fields[0]] + sca)[1..] == sca;
      }
    }
  }

  /** A merge holds every element of both parts exactly once. */
  lemma {:induction false} InterleavingMultiset<T>(a: seq<T>, b: seq<T>, s: seq<T>)
    requires Interleaving(a, b, s)
    ensures multiset(a) + multiset(b) == multiset(s)
    decreases |s|
  {
    if s != [] {
      assert s == [s[0]] + s[1..];
      if a != [] && a[0] == s[0] && Interleaving(a[1..], b, s[1..]) {
        InterleavingMultiset(a[1..], b, s[1..]);
        assert a == [a[0]] + a[1..];
      } else {
        InterleavingMultiset(a, b[1..], s[1..]);
        assert b == [b[0]] + b[1..];
      }
    }
  }

  /** Every field is relational or scalar, exactly once. */
  lemma RelationalScalarExactlyOnce(fields: seq<Field>)
    ensures multiset(RelationalFields(fields)) + multiset(ScalarFields(fields)) == multiset(fields)
    ensures |RelationalFields(fields)| + |ScalarFields(fields)| == |fields|
  {
    RelationalScalarPartition(fields);
    InterleavingMultiset(RelationalFields(fields), ScalarFields(fields), fields);
    assert |multiset(fields)| == |fields|;
  }

  /** The atomic fields keep the model's field order. */
  lemma {:induction false} AtomicFieldsInOrder(fields: seq<Field>)
    ensures IsSubsequence(AtomicFields(fields), fields)
  {
    if fields != [] {
      AtomicFieldsInOrder(fields[1..]);
      var rest := AtomicFields(fields[1..]);
      if IsAtomic(fields[0]) {
        assert ([fields[0]] + rest)[1..] == rest;
      } else if rest != [] {
        assert rest[0] in rest;
      }
    }
  }

  /** Each atomic field is kept as often as it occurs; any other field is dropped. */
  lemma {:induction false} AtomicFieldsCount(fields: seq<Field>, g: Field)
    ensures multiset(AtomicFields(fields))[g] == if IsAtomic(g) then multiset(fields)[g] else 0
  {
    if fields != [] {
      AtomicFieldsCount(fields[1..], g);
      assert fields == [fields[0]] + fields[1..];
    }
  }

  // ---------------------------------------------------------------------------
  // Related models
  // ---------------------------------------------------------------------------

  /** The models of `models` named `typ`, in order. */
  function ModelsNamed(typ: string, models: seq<Model>): (r: seq<Model>)
    ensures forall x :: x in r <==> x in models && x.name == typ
  {
    if models == [] then []
    else if models[0].name == typ then [models[0]] + ModelsNamed(typ, models[1..])
    else ModelsNamed(typ, models[1..])
  }

  /** For each field in turn, the models its type names. */
  function ModelsOfFields(fields: seq<Field>, models: seq<Model>): (r: seq<Model>)
    ensures forall x :: x in r <==> x in models && exists g :: g in fields && g.typ == x.name
  {
    if fields == [] then []
    else
      var r := ModelsNamed(fields[0].typ, models) + ModelsOfFields(fields[1..], models);
      assert forall g :: g in fields[1..] ==> g in fields;
      assert forall g :: g in fields ==> g == fields[0] || g in fields[1..];
      r
  }

  /** `related_models` of `m`, with the schema's model list given explicitly:
      the models named by the types of `m`'s relational fields. */
  function RelatedModels(m: Model, models: seq<Model>): (r: seq<Model>)
    ensures forall x :: x in r <==> x in models && exists g :: g in m.allFields && HasRelation(g) && g.typ == x.name
  {
    var rel := RelationalFields(m.allFields);
    ModelsOfFields(rel, models)
  }

  /** How many of `fields` have type `name`. */
  function CountTyped(fields: seq<Field>, name: string): nat {
    if fields == [] then 0
    else (if fields[0].typ == name then 1 else 0) + CountTyped(fields[1..], name)
  }

  /** A model named `typ` is kept as often as it occurs; any other is dropped. */
  lemma {:induction false} ModelsNamedCount(typ: string, models: seq<Model>, x: Model)
    ensures multiset(ModelsNamed(typ, models))[x] == if x.name == typ then multiset(models)[x] else 0
  {
    if models != [] {
      ModelsNamedCount(typ, models[1..], x);
      assert models == [models[0]] + models[1..];
    }
  }

  /** Each field contributes every occurrence of the model its type names. */
  lemma {:induction false} ModelsOfFieldsCount(fields: seq<Field>, models: seq<Model>, x: Model)
    ensures multiset(ModelsOfFields(fields, models))[x] == CountTyped(fields, x.name) * multiset(models)[x]
  {
    if fields != [] {
      var head, tail := ModelsNamed(fields[0].typ, models), ModelsOfFields(fields[1..], models);
      ModelsNamedCount(fields[0].typ, models, x);
      ModelsOfFieldsCount(fields[1..], models, x);
      assert ModelsOfFields(fields, models) == head + tail;
      assert multiset(head + tail)[x] == multiset(head)[x] + multiset(tail)[x];
      var hit, n, k := fields[0].typ == x.name, CountTyped(fields[1..], x.name), multiset(models)[x];
      assert multiset(head)[x] == if hit then k else 0;
      OneMoreTerm(hit, CountTyped(fields, x.name), n, k);
    }
  }

  /** Adding the count of one more field to a product of counts. */
  lemma OneMoreTerm(hit: bool, c: nat, n: nat, k: nat)
    requires c == (if hit then 1 else 0) + n
    ensures c * k == (if hit then k else 0) + n * k
  {
  }

  /** `related_models` yields a model once for every relational field whose type
      names it, times the number of times it occurs in the model list. */
  lemma RelatedModelsCount(m: Model, models: seq<Model>, x: Model)
    ensures multiset(RelatedModels(m, models))[x] == CountTyped(RelationalFields(m.allFields), x.name) * multiset(models)[x]
  {
    ModelsOfFieldsCount(RelationalFields(m.allFields), models, x);
  }
}
