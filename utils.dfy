/**
 * The schema and operation helpers of the generator (src/utils.ts).
 */
module Utils {
  import opened Wrappers
  import opened Fp
  import opened OpenApi
  import opened Sink

  // ---------------------------------------------------------------------------
  // References

  /**
   * `resolveSchemaType`: the text after the last '/' of a reference
   * (`#/components/schemas/Foo` gives `Foo`). Whether the name exists among
   * the component schemas is not checked.
   */
  function ResolveSchemaType(ref: string): (r: string)
    ensures |r| <= |ref| && r == ref[|ref| - |r|..]
    ensures '/' !in r
    ensures |r| < |ref| ==> ref[|ref| - |r| - 1] == '/'
  {
    LastPiece(ref, '/');
    Last(Split(ref, '/')).value
  }

  /** The name a reference is written as: its resolved name, or `unknown` when that is empty. */
  function NameOrUnknown(ref: string): (r: string)
    ensures r != ""
    ensures ResolveSchemaType(ref) != "" ==> r == ResolveSchemaType(ref)
    ensures ResolveSchemaType(ref) == "" ==> r == "unknown"
  {
    var name := ResolveSchemaType(ref);
    if name != "" then name else "unknown"
  }

  // ---------------------------------------------------------------------------
  // Path templates

  predicate LineTerminator(c: char)
  {
    c == '\n' || c == '\r' || c == '\U{2028}' || c == '\U{2029}'
  }

  /** The lookahead `(?=.*})` succeeds at the start of `s`: a '}' comes before any line end. */
  ghost predicate CloserAhead(s: string)
  {
    exists j | 0 <= j < |s| :: s[j] == '}' && forall k | 0 <= k < j :: !LineTerminator(s[k])
  }

  /** What the regular-expression replacement makes of the character at `i`. */
  ghost function TemplatePiece(s: string, i: nat): string
    requires i < |s|
  {
    if s[i] == '{' && CloserAhead(s[i + 1..]) then "${" else [s[i]]
  }

  ghost function TemplatePieces(s: string): (r: seq<string>)
    ensures |r| == |s|
  {
    seq(|s|, i requires 0 <= i < |s| => TemplatePiece(s, i))
  }

  /**
   * The replacement as one right-to-left scan: the rewritten text, and
   * whether a '}' is reachable from the start of `s` without crossing a line end.
   */
  function RewriteBraces(s: string): (string, bool)
  {
    if |s| == 0 then ("", false)
    else
      var (rest, closer) := RewriteBraces(s[1..]);
      var out := if s[0] == '{' && closer then "${" else [s[0]];
      (out + rest, s[0] == '}' || (closer && !LineTerminator(s[0])))
  }

  /**
   * `pathArgsToTemplate`: `'$'` inserted before every `'{'` that has a `'}'`
   * later on the same line; every other character copied unchanged
   * (`rawPath.replace(/{(?=.*})/gi, '${')`).
   */
  function PathArgsToTemplate(rawPath: string): (r: string)
    ensures |rawPath| <= |r| <= 2 * |rawPath|
    ensures '{' !in rawPath ==> r == rawPath
  {
    RewriteBracesLength(rawPath);
    var r := RewriteBraces(rawPath).0;
    if '{' in rawPath then r else RewriteWithoutBraces(rawPath); r
  }

  // ---------------------------------------------------------------------------
  // Request and response contents

  /** `content['application/json']?.schema`. */
  function JsonSchema(content: Obj<MediaType>): Option<Schema>
  {
    match Lookup(content, "application/json")
    case None => None
    case Some(media) => media.schema
  }

  /** The argument a request body becomes. */
  datatype ContentSchema = ContentSchema(imports: Option<string>, contentName: string, schema: Schema, required: bool)

  /**
   * `extractContentSchema`: null exactly when there is no request body or no
   * JSON schema in it. A reference with a non-empty name is imported and
   * names the argument (first letter upper-cased); anything else is named
   * `fallbackName` and imports nothing. `required` defaults to true.
   */
  function ExtractContentSchema(fallbackName: string, data: Operation): (r: Option<ContentSchema>)
    ensures r.None? <==> data.requestBody.None? || JsonSchema(data.requestBody.value.content).None?
    ensures r.Some? ==> r.value.schema == JsonSchema(data.requestBody.value.content).value
    ensures r.Some? ==> r.value.required == data.requestBody.value.required.GetOr(true)
    ensures r.Some? && r.value.schema.Ref? && ResolveSchemaType(r.value.schema.ref) != "" ==>
      var name := ResolveSchemaType(r.value.schema.ref);
      r.value.imports == Some(name) && r.value.contentName == InCamelCase(name)
    ensures r.Some? && !(r.value.schema.Ref? && ResolveSchemaType(r.value.schema.ref) != "") ==>
      !Truthy(r.value.imports) && r.value.contentName == fallbackName
  {
    var body := data.requestBody;
    var schema := if body.Some? then JsonSchema(body.value.content) else None;
    var typeName := if schema.Some? && schema.value.Ref? then Some(ResolveSchemaType(schema.value.ref)) else None;
    if schema.None? then None
    else
      Some(ContentSchema(
        typeName,
        if Truthy(typeName) then InCamelCase(typeName.value) else fallbackName,
        schema.value,
        body.value.required.GetOr(true)))
  }

  /** The type an operation returns. */
  datatype ResponseType = ResponseType(schema: Schema, typeName: Option<string>)

  /** The JSON schema of one response object, if it declares one. */
  function ResponseSchema(response: Response): Option<Schema>
  {
    if response.content.Some? then JsonSchema(response.content.value) else None
  }

  /**
   * `extractResponseType`: the JSON schema of response `200`, or of `201`
   * when `200` is absent; a `200` without a JSON schema gives null without
   * trying `201`. The type name is set only for a reference.
   */
  function ExtractResponseType(data: Operation): (r: Option<ResponseType>)
    ensures Lookup(data.responses, "200").Some? ==>
      (r.None? <==> ResponseSchema(Lookup(data.responses, "200").value).None?)
    ensures Lookup(data.responses, "200").Some? && r.Some? ==>
      r.value.schema == ResponseSchema(Lookup(data.responses, "200").value).value
    ensures Lookup(data.responses, "200").None? && Lookup(data.responses, "201").Some? ==>
      (r.None? <==> ResponseSchema(Lookup(data.responses, "201").value).None?)
    ensures Lookup(data.responses, "200").None? && Lookup(data.responses, "201").Some? && r.Some? ==>
      r.value.schema == ResponseSchema(Lookup(data.responses, "201").value).value
    ensures Lookup(data.responses, "200").None? && Lookup(data.responses, "201").None? ==> r.None?
    ensures r.Some? ==> (r.value.typeName.Some? <==> r.value.schema.Ref?)
    ensures r.Some? && r.value.schema.Ref? ==> r.value.typeName == Some(ResolveSchemaType(r.value.schema.ref))
  {
    var chosen := if Lookup(data.responses, "200").Some? then Lookup(data.responses, "200") else Lookup(data.responses, "201");
    var schema := if chosen.Some? then ResponseSchema(chosen.value) else None;
    if schema.None? then None
    else Some(ResponseType(schema.value, if schema.value.Ref? then Some(ResolveSchemaType(schema.value.ref)) else None))
  }

  /** `sanitizeType`: `date` becomes `string`, anything else is kept. */
  function SanitizeType(typeName: string): (r: string)
    ensures typeName == "date" ==> r == "string"
    ensures typeName != "date" ==> r == typeName
  {
    if typeName == "date" then "string" else typeName
  }

  /** `printStringTemplate`: the text between backticks, not escaped. */
  function PrintStringTemplate(str: string): (r: string)
    ensures |r| == |str| + 2 && r[0] == '`' && r[|r| - 1] == '`' && r[1..|r| - 1] == str
  {
    "`" + str + "`"
  }

  // ---------------------------------------------------------------------------
  // Imports

  /** The import declaration of `moduleName` in a file, or a new empty type-only one. */
  function DeclOf(file: SourceFile, moduleName: string): ImportDecl
  {
    if moduleName in file.imports then file.imports[moduleName] else ImportDecl(true, [])
  }

  /**
   * The file after `includeOrCreateNamedImport`, closed form: the import
   * declaration of `module` (created type-only when missing, and only when
   * there is a name to import) holds its previous names followed by each
   * requested name it lacked, once; nothing else changes.
   */
  function MergedImports(file: SourceFile, moduleName: string, names: seq<string>): SourceFile
  {
    if |names| == 0 then file
    else
      var decl := DeclOf(file, moduleName);
      file.(imports := file.imports[moduleName := decl.(names := AppendNew(decl.names, names))])
  }

  /** A declaration with one more named import, unless it already has it. */
  function AddName(decl: ImportDecl, importName: string): ImportDecl
  {
    if importName in decl.names then decl else decl.(names := decl.names + [importName])
  }

  /** One round of the loop of `includeOrCreateNamedImport`, for one name. */
  function IncludeOne(file: SourceFile, moduleName: string, importName: string): SourceFile
  {
    var declaration :=
      if moduleName in file.imports then file.imports[moduleName] else ImportDecl(true, [importName]);
    file.(imports := file.imports[moduleName := AddName(declaration, importName)])
  }

  /** The file after the rounds of `includeOrCreateNamedImport` for `names`, one name after another. */
  function WithNamedImports(file: SourceFile, moduleName: string, names: seq<string>): SourceFile
    decreases |names|
  {
    if |names| == 0 then file
    else IncludeOne(WithNamedImports(file, moduleName, names[..|names| - 1]), moduleName, names[|names| - 1])
  }

  /** The body of the loop of `includeOrCreateNamedImport`, for one name. */
  method IncludeNamedImport(project: Project, inFile: string, fromTargetModule: string, importName: string)
    requires inFile in project.files
    modifies project
    ensures project.files == old(project.files)[inFile := IncludeOne(old(project.files)[inFile], fromTargetModule, importName)]
  {
    var file := project.files[inFile];
    var declaration :=
      if fromTargetModule in file.imports then file.imports[fromTargetModule]
      else ImportDecl(true, [importName]);
    if importName !in declaration.names {
      declaration := declaration.(names := declaration.names + [importName]);
    }
    project.files := project.files[inFile := file.(imports := file.imports[fromTargetModule := declaration])];
  }

  /**
   * `includeOrCreateNamedImport`: for each requested name, find or create the
   * import declaration of `fromTargetModule` and add the name unless present.
   */
  method IncludeOrCreateNamedImport(project: Project, inFile: string, fromTargetModule: string, namedImports: seq<string>)
    requires inFile in project.files
    modifies project
    ensures project.files == old(project.files)[inFile := WithNamedImports(old(project.files)[inFile], fromTargetModule, namedImports)]
  {
    ghost var original := project.files[inFile];
    for i := 0 to |namedImports|
      invariant project.files == old(project.files)[inFile := WithNamedImports(original, fromTargetModule, namedImports[..i])]
    {
      ghost var file := project.files[inFile];
      IncludeNamedImport(project, inFile, fromTargetModule, namedImports[i]);
      assert namedImports[..i + 1][..i] == namedImports[..i];
      UpdateTwice(old(project.files), inFile, file, IncludeOne(file, fromTargetModule, namedImports[i]));
    }
    assert namedImports[..|namedImports|] == namedImports;
  }

  /** The rounds one after another give the closed form: the requested names merged into the declaration. */
  lemma {:induction false} WithNamedImportsMerges(file: SourceFile, moduleName: string, names: seq<string>)
    ensures WithNamedImports(file, moduleName, names) == MergedImports(file, moduleName, names)
    decreases |names|
  {
    if |names| > 0 {
      var init, last := names[..|names| - 1], names[|names| - 1];
      WithNamedImportsMerges(file, moduleName, init);
      InitLast(names);
      IncludeOneStep(file, moduleName, init, last);
    }
  }

  /** Each loop round extends the merged names by one requested name. */
  lemma IncludeOneStep(file: SourceFile, moduleName: string, names: seq<string>, importName: string)
    ensures MergedImports(file, moduleName, names + [importName])
         == IncludeOne(MergedImports(file, moduleName, names), moduleName, importName)
  {
    var decl := DeclOf(file, moduleName);
    AppendNewSnoc(decl.names, names, importName);
    var grown := decl.(names := AppendNew(decl.names, names + [importName]));
    if |names| == 0 {
      assert names + [importName] == [importName];
      assert AppendNew(decl.names, names) == decl.names;
      assert grown == AddName(DeclOf(file, moduleName), importName);
    } else {
      var merged := decl.(names := AppendNew(decl.names, names));
      var mid := MergedImports(file, moduleName, names);
      assert mid.imports[moduleName] == merged;
      assert AddName(merged, importName) == grown;
      UpdateTwice(file.imports, moduleName, merged, grown);
    }
  }

  // ---------------------------------------------------------------------------
  // Complex names

  /**
   * `collectAllComplexSubtypeNames`: the names of all references nested in a
   * schema, through array items and object properties, in declaration order.
   */
  function CollectAllComplexSubtypeNames(typeSpec: Schema): (r: seq<string>)
    ensures forall i | 0 <= i < |r| :: r[i] != ""
  {
    match typeSpec
    case Ref(ref) => [NameOrUnknown(ref)]
    case Array(items) => CollectAllComplexSubtypeNames(items)
    case Object(None, _) => []
    case Object(Some(properties), _) => CollectFromProperties(properties, 0)
    case String(_) => []
    case Primitive(_) => []
  }

  /** The names collected from properties `i..` of an object, concatenated in order. */
  function CollectFromProperties(properties: Obj<Schema>, i: nat): (r: seq<string>)
    requires i <= |properties.entries|
    ensures forall j | 0 <= j < |r| :: r[j] != ""
    decreases properties, |properties.entries| - i
  {
    if i == |properties.entries| then []
    else CollectAllComplexSubtypeNames(properties.entries[i].1) + CollectFromProperties(properties, i + 1)
  }

  // ---------------------------------------------------------------------------
  // Lemmas

  /** The resolved name is exactly what follows the last '/'. */
  lemma ResolveAfterLastSlash(ref: string, k: nat)
    requires k < |ref| && ref[k] == '/' && '/' !in ref[k + 1..]
    ensures ResolveSchemaType(ref) == ref[k + 1..]
  {
    var r := ResolveSchemaType(ref);
    assert forall i | 0 <= i < |r| :: r[i] == ref[|ref| - |r| + i];
    assert forall i | k < i < |ref| :: ref[i] == ref[k + 1..][i - k - 1];
  }

  /** A reference without '/' resolves to itself. */
  lemma ResolveWithoutSlash(ref: string)
    requires '/' !in ref
    ensures ResolveSchemaType(ref) == ref
  {
    var r := ResolveSchemaType(ref);
    assert forall i | 0 <= i < |ref| :: ref[i] != '/';
  }

  /** The empty reference and a reference ending in '/' resolve to the empty name. */
  lemma ResolveTrailingSlash(ref: string)
    requires ref == "" || ref[|ref| - 1] == '/'
    ensures ResolveSchemaType(ref) == ""
  {
    var r := ResolveSchemaType(ref);
    assert forall i | 0 <= i < |r| :: r[i] == ref[|ref| - |r| + i];
  }

  lemma ResolveComponentRef()
    ensures ResolveSchemaType("#/components/schemas/Foo") == "Foo"
  {
    var ref := "#/components/schemas/Foo";
    assert ref[21..] == "Foo";
    ResolveAfterLastSlash(ref, 20);
  }

  /** The scan's flag is the lookahead. */
  lemma {:induction false} RewriteBracesFlag(s: string)
    ensures RewriteBraces(s).1 == CloserAhead(s)
  {
    if |s| > 0 {
      RewriteBracesFlag(s[1..]);
      if CloserAhead(s) && s[0] != '}' {
        var j :| 0 <= j < |s| && s[j] == '}' && forall k | 0 <= k < j :: !LineTerminator(s[k]);
        assert s[1..][j - 1] == '}';
      }
      if RewriteBraces(s[1..]).1 && !LineTerminator(s[0]) {
        var j :| 0 <= j < |s[1..]| && s[1..][j] == '}' && forall k | 0 <= k < j :: !LineTerminator(s[1..][k]);
        assert s[j + 1] == '}';
      }
    }
  }

  /** The scan produces exactly the per-character replacement. */
  lemma {:induction false} RewriteBracesMeetsPieces(s: string)
    ensures RewriteBraces(s).0 == Concat(TemplatePieces(s))
  {
    if |s| > 0 {
      RewriteBracesMeetsPieces(s[1..]);
      RewriteBracesFlag(s[1..]);
      var pieces, rest := TemplatePieces(s), TemplatePieces(s[1..]);
      assert pieces[1..] == rest by {
        forall i | 0 <= i < |rest| ensures pieces[1..][i] == rest[i] {
          assert s[1..][i + 1..] == s[i + 2..];
        }
      }
      assert pieces[0] == TemplatePiece(s, 0);
    }
  }

  /** `pathArgsToTemplate` performs exactly the regular-expression replacement, character by character. */
  lemma PathArgsToTemplateMatchesRegex(rawPath: string)
    ensures PathArgsToTemplate(rawPath) == Concat(TemplatePieces(rawPath))
  {
    RewriteBracesMeetsPieces(rawPath);
  }

  lemma PathArgsToTemplateExample()
    ensures PathArgsToTemplate("{foo}") == "${foo}"
    ensures PathArgsToTemplate("{") == "{"
  {
    assert "}"[1..] == "" && ['}'] + "" == "}";
    assert "o}"[1..] == "}" && ['o'] + "}" == "o}";
    assert "oo}"[1..] == "o}" && ['o'] + "o}" == "oo}";
    assert "foo}"[1..] == "oo}" && ['f'] + "oo}" == "foo}";
    assert "{foo}"[1..] == "foo}" && "${" + "foo}" == "${foo}";
    assert "{"[1..] == "" && ['{'] + "" == "{";
  }

  /** A prefix without '{' is copied unchanged in front of the rewritten rest. */
  lemma {:induction false} RewriteOpenFreePrefix(p: string, t: string)
    requires forall i | 0 <= i < |p| :: p[i] != '{'
    ensures RewriteBraces(p + t).0 == p + RewriteBraces(t).0
    decreases |p|
  {
    if |p| == 0 {
      assert p + t == t;
    } else {
      assert (p + t)[0] == p[0];
      assert (p + t)[1..] == p[1..] + t;
      RewriteOpenFreePrefix(p[1..], t);
      assert RewriteBraces(p + t).0 == [p[0]] + RewriteBraces(p[1..] + t).0;
      assert p == [p[0]] + p[1..];
    }
  }

  /** Each character is copied or becomes `${`, so the text at most doubles. */
  lemma {:induction false} RewriteBracesLength(s: string)
    ensures |s| <= |RewriteBraces(s).0| <= 2 * |s|
  {
    if |s| > 0 {
      RewriteBracesLength(s[1..]);
    }
  }

  /** A text without '{' is copied unchanged. */
  lemma RewriteWithoutBraces(s: string)
    requires '{' !in s
    ensures RewriteBraces(s).0 == s
  {
    RewriteOpenFreePrefix(s, "");
    assert s + "" == s;
  }

  /** A name on one line without '{', followed by '}', is copied unchanged and has its closer. */
  lemma {:induction false} RewriteClosedName(name: string)
    requires forall i | 0 <= i < |name| :: name[i] != '{' && !LineTerminator(name[i])
    ensures RewriteBraces(name + "}") == (name + "}", true)
    decreases |name|
  {
    var t := name + "}";
    if |name| == 0 {
      assert t == "}" && t[1..] == "" && [t[0]] + "" == t;
      assert RewriteBraces(t[1..]) == ("", false);
    } else {
      var rest := name[1..] + "}";
      assert t[0] == name[0] && t[1..] == rest;
      RewriteClosedName(name[1..]);
      assert t == [name[0]] + rest;
    }
  }

  /**
   * A path parameter after a prefix without '{': `prefix{name}` becomes
   * `prefix${name}` (for example `/users/{id}` gives `/users/${id}`).
   */
  lemma PathParameterTemplate(prefix: string, name: string)
    requires forall i | 0 <= i < |prefix| :: prefix[i] != '{'
    requires forall i | 0 <= i < |name| :: name[i] != '{' && !LineTerminator(name[i])
    ensures PathArgsToTemplate(prefix + "{" + name + "}") == prefix + "${" + name + "}"
  {
    var closed := name + "}";
    var t := "{" + name + "}";
    assert RewriteBraces(t) == ("${" + closed, true) by {
      RewriteClosedName(name);
      assert t == ['{'] + closed && t[1..] == closed;
    }
    assert RewriteBraces(prefix + t).0 == prefix + ("${" + closed) by {
      RewriteOpenFreePrefix(prefix, t);
    }
    assert prefix + "{" + name + "}" == prefix + t;
    assert prefix + ("${" + closed) == prefix + "${" + name + "}";
  }

  /** `sanitizeType` is idempotent. */
  lemma SanitizeTypeIdempotent(typeName: string)
    ensures SanitizeType(SanitizeType(typeName)) == SanitizeType(typeName)
  {
  }

  /** Every requested name ends up in the module's import exactly once, when names were unique before. */
  lemma {:induction false} ImportedOnce(file: SourceFile, moduleName: string, names: seq<string>)
    requires |names| > 0
    requires moduleName in file.imports ==> NoDuplicates(file.imports[moduleName].names)
    ensures var decl := MergedImports(file, moduleName, names).imports[moduleName];
      && NoDuplicates(decl.names)
      && (forall n | n in names :: n in decl.names)
      && (moduleName in file.imports ==> decl.names[..|file.imports[moduleName].names|] == file.imports[moduleName].names)
  {
    var before := if moduleName in file.imports then file.imports[moduleName].names else [];
    AppendNewNoDuplicates(before, names);
  }
}
