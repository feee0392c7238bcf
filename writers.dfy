/**
 * The type and code writers of the generator (src/writers.ts). A ts-morph
 * writer function becomes either the `TypeText` it stands for or a method
 * appending text to a `CodeWriter`.
 */
module Writers {
  import opened Wrappers
  import opened Fp
  import opened OpenApi
  import opened Sink
  import opened Utils
  import opened Printer

  /** `literalWriter`: writes its literal. */
  method LiteralWriter(w: CodeWriter, literal: string)
    modifies w
    ensures w.text == old(w.text) + literal
  {
    w.Write(literal);
  }

  /**
   * What `callWriter` writes: the name, `<T>` only when a type argument is
   * given, then the arguments' texts one after another between parentheses.
   */
  function CallText(callName: string, parametricType: Option<string>, params: Option<seq<string>>): (r: string)
    ensures |r| >= |callName| + 2 && r[..|callName|] == callName && r[|r| - 1] == ')'
  {
    callName
    + (if parametricType.Some? then "<" + parametricType.value + ">" else "")
    + "(" + Concat(params.GetOr([])) + ")"
  }

  /** The parts of a call's text, located by their lengths. */
  lemma CallTextParts(callName: string, parametricType: Option<string>, params: Option<seq<string>>)
    ensures var r, k := CallText(callName, parametricType, params), if parametricType.Some? then |parametricType.value| + 2 else 0;
      && |r| == |callName| + k + |Concat(params.GetOr([]))| + 2
      && r[..|callName|] == callName
      && (parametricType.Some? ==> r[|callName|..|callName| + k] == "<" + parametricType.value + ">")
      && r[|callName| + k..] == "(" + Concat(params.GetOr([])) + ")"
  {
    var typeArgument := if parametricType.Some? then "<" + parametricType.value + ">" else "";
    var arguments := "(" + Concat(params.GetOr([])) + ")";
    var r := CallText(callName, parametricType, params);
    assert r == callName + typeArgument + arguments;
    assert r[..|callName|] == callName;
    assert r[|callName|..|callName| + |typeArgument|] == typeArgument;
    assert r[|callName| + |typeArgument|..] == arguments;
  }

  /** The `forEach` of `callWriter`: each argument's text written in turn. */
  method WriteEach(w: CodeWriter, ps: seq<string>)
    modifies w
    ensures w.text == old(w.text) + Concat(ps)
  {
    for i := 0 to |ps|
      invariant w.text == old(w.text) + Concat(ps[..i])
    {
      ConcatSnoc(ps[..i], ps[i]);
      assert ps[..i + 1] == ps[..i] + [ps[i]];
      w.Write(ps[i]);
    }
    assert ps[..|ps|] == ps;
  }

  /** The type argument of `callWriter`: `<T>` when one is given, nothing otherwise. */
  method WriteTypeArgument(w: CodeWriter, parametricType: Option<string>)
    modifies w
    ensures w.text == old(w.text) + (if parametricType.Some? then "<" + parametricType.value + ">" else "")
  {
    if parametricType.Some? {
      w.Write("<");
      w.Write(parametricType.value);
      w.Write(">");
    }
  }

  /** `callWriter`, writing step by step. */
  method CallWriter(w: CodeWriter, callName: string, parametricType: Option<string>, params: Option<seq<string>>)
    modifies w
    ensures w.text == old(w.text) + CallText(callName, parametricType, params)
  {
    w.Write(callName);
    WriteTypeArgument(w, parametricType);
    w.Write("(");
    WriteEach(w, params.GetOr([]));
    w.Write(")");
  }

  /** What `destructWriter` writes: `const { a, b } = target;`. */
  function DestructText(target: string, properties: seq<string>): (r: string)
    ensures |r| == |Join(properties, ", ")| + |target| + 14
    ensures r[..8] == "const { "
    ensures r[|r| - |target| - 6..] == " } = " + target + ";"
    ensures r[8..|r| - |target| - 6] == Join(properties, ", ")
  {
    var joined := Join(properties, ", ");
    var r := "const { " + joined + " } = " + target + ";";
    assert r[|r| - |target| - 6..] == " } = " + target + ";";
    assert r[8..|r| - |target| - 6] == joined;
    r
  }

  /** `destructWriter`: the `multiline` flag has no effect on the text. */
  method DestructWriter(w: CodeWriter, multiline: Option<bool>, target: string, properties: seq<string>)
    modifies w
    ensures w.text == old(w.text) + DestructText(target, properties)
  {
    w.Write("const { ");
    w.Write(Join(properties, ", "));
    w.Write(" } = " + target + ";");
  }

  /**
   * The property signatures of an object schema, in declaration order: a
   * property is optional exactly when its name is not listed in `required`.
   */
  function PropertySignatures(properties: Obj<Schema>, required: Option<seq<string>>): (r: seq<PropertySignature>)
    ensures |r| == |properties.entries|
    ensures forall i | 0 <= i < |r| ::
      && r[i].name == properties.entries[i].0
      && (r[i].optional <==> properties.entries[i].0 !in required.GetOr([]))
    decreases properties, 0
  {
    seq(|properties.entries|, i requires 0 <= i < |properties.entries| =>
      PropertySignature(
        properties.entries[i].0,
        properties.entries[i].0 !in required.GetOr([]),
        TreeWriter(properties.entries[i].1)))
  }

  /**
   * `openAPISpecTreeSpecWriter`: the type written for a schema. An array is
   * its item's type followed by `[]`; an object without properties is
   * `Record<string, unknown>`; an object with properties is an object type;
   * a string enum is its value quoted as `printString` quotes it when it
   * has one value, a union of the quoted
   * values in order when it has more; any other string is `string`; a
   * reference is its resolved name or `unknown`; any other keyword is
   * written verbatim.
   */
  function TreeWriter(typeSpec: Schema): (r: TypeText)
    ensures r.Union? ==> typeSpec.String? && typeSpec.enum.Some? && |r.members| == |typeSpec.enum.value| >= 2
    ensures r.Reference? ==> typeSpec.Ref? && r.name != ""
    ensures typeSpec.Ref? && ResolveSchemaType(typeSpec.ref) != "" ==> r == Reference(ResolveSchemaType(typeSpec.ref))
    ensures typeSpec.Object? && typeSpec.properties.None? ==> r == Literal("Record<string, unknown>")
    ensures typeSpec.Primitive? ==> r == Literal(typeSpec.keyword)
    decreases typeSpec, 1
  {
    match typeSpec
    case Array(items) => ArrayOf(TreeWriter(items))
    case Object(None, _) => Literal("Record<string, unknown>")
    case Object(Some(properties), required) => ObjectType(PropertySignatures(properties, required))
    case String(enum) =>
      if enum.Some? && |enum.value| > 0 then
        var values := seq(|enum.value|, i requires 0 <= i < |enum.value| => PrintString(enum.value[i]));
        if |values| == 1 then Literal(values[0]) else Union(values)
      else Literal("string")
    case Ref(ref) => Reference(NameOrUnknown(ref))
    case Primitive(keyword) => Literal(keyword)
  }

  /**
   * The closures `openAPISpecTreeSpecWriter` returns, for a type whose text
   * does not depend on ts-morph's layout: an array writes its item, then `[]`.
   */
  method WriteType(w: CodeWriter, t: TypeText)
    requires Render(t).Some?
    modifies w
    ensures w.text == old(w.text) + Render(t).value
  {
    match t
    case Literal(s) => w.Write(s);
    case Reference(n) => w.Write(n);
    case ArrayOf(item) =>
      WriteType(w, item);
      w.Write("[]");
  }

  // ---------------------------------------------------------------------------
  // Lemmas

  /** An array is written as its item's type followed by `[]`. */
  lemma ArrayRendering(items: Schema)
    ensures TreeWriter(Array(items)) == ArrayOf(TreeWriter(items))
    ensures Render(TreeWriter(items)).Some? ==>
      Render(TreeWriter(Array(items))) == Some(Render(TreeWriter(items)).value + "[]")
    ensures Render(TreeWriter(items)).None? ==> Render(TreeWriter(Array(items))).None?
  {
  }

  /** An array of arrays of strings is written `string[][]`. */
  lemma NestedArrayOfString()
    ensures Render(TreeWriter(Array(Array(String(None))))) == Some("string[][]")
  {
    assert "string" + "[]" + "[]" == "string[][]";
  }

  /** A string schema's enum: one value is that quoted value alone, more are a union of the quoted values in order. */
  lemma EnumRendering(values: seq<string>)
    requires |values| > 0
    ensures |values| == 1 ==> TreeWriter(String(Some(values))) == Literal(PrintString(values[0]))
    ensures |values| >= 2 ==> TreeWriter(String(Some(values))).Union?
    ensures |values| >= 2 ==> forall i | 0 <= i < |values| :: TreeWriter(String(Some(values))).members[i] == PrintString(values[i])
  {
  }

  /** A reference whose resolved name is empty is written `unknown`. */
  lemma EmptyRefIsUnknown(ref: string)
    requires ref == "" || ref[|ref| - 1] == '/'
    ensures TreeWriter(Ref(ref)) == Reference("unknown")
  {
    ResolveTrailingSlash(ref);
  }

  /** A string schema without enum values is `string`, as is one with an empty enum. */
  lemma PlainString(enum: Option<seq<string>>)
    requires enum.None? || |enum.value| == 0
    ensures TreeWriter(String(enum)) == Literal("string")
  {
  }

  /** A property is required only when `required` lists it; without `required` every property is optional. */
  lemma OptionalExactlyWhenNotRequired(properties: Obj<Schema>, required: Option<seq<string>>, i: nat)
    requires i < |properties.entries|
    ensures var t := TreeWriter(Object(Some(properties), required));
      && t.ObjectType? && |t.properties| == |properties.entries|
      && t.properties[i].name == properties.entries[i].0
      && t.properties[i].typ == TreeWriter(properties.entries[i].1)
      && (t.properties[i].optional <==> properties.entries[i].0 !in required.GetOr([]))
      && (required.None? ==> t.properties[i].optional)
  {
  }

  /**
   * The names `collectAllComplexSubtypeNames` gathers are exactly the
   * references the written type mentions, in the same order: every model a
   * type needs is imported, and nothing else.
   */
  lemma {:induction false} CollectedNamesAreWrittenReferences(typeSpec: Schema)
    ensures RefsOf(TreeWriter(typeSpec)) == CollectAllComplexSubtypeNames(typeSpec)
    decreases typeSpec, 1
  {
    match typeSpec
    case Array(items) => CollectedNamesAreWrittenReferences(items);
    case Object(None, _) =>
    case Object(Some(properties), required) =>
      CollectedNamesFromProperties(properties, required, 0);
      assert PropertySignatures(properties, required)[0..] == PropertySignatures(properties, required);
    case String(enum) =>
    case Ref(ref) =>
    case Primitive(keyword) =>
  }

  lemma {:induction false} CollectedNamesFromProperties(properties: Obj<Schema>, required: Option<seq<string>>, i: nat)
    requires i <= |properties.entries|
    ensures RefsOfProperties(PropertySignatures(properties, required)[i..]) == CollectFromProperties(properties, i)
    decreases properties, |properties.entries| - i
  {
    if i < |properties.entries| {
      var ps := PropertySignatures(properties, required);
      CollectedNamesAreWrittenReferences(properties.entries[i].1);
      CollectedNamesFromProperties(properties, required, i + 1);
      assert ps[i..][1..] == ps[i + 1..];
    }
  }
}
