/**
 * The service generator (src/generators/services-files.ts): one file and
 * one exported class per service name, one method per operation, the
 * model imports each operation needs, and a run over all paths that stops
 * at the first path declaring an unknown method.
 */
module Services {
  import opened Wrappers
  import opened Fp
  import opened OpenApi
  import opened Sink
  import opened Utils
  import opened Printer
  import opened Writers

  /** `knownOperations`: the methods a path may declare. */
  const KnownOperations: seq<string> := ["post", "get", "patch", "delete", "put"]

  /**
   * The known methods are exactly `post`, `get`, `patch`, `delete` and `put`;
   * `head`, `options` and `trace` are not among them.
   */
  lemma KnownOperationsExactly(m: string)
    ensures m in KnownOperations <==> m == "post" || m == "get" || m == "patch" || m == "delete" || m == "put"
    ensures "head" !in KnownOperations && "options" !in KnownOperations && "trace" !in KnownOperations
  {
  }

  // ---------------------------------------------------------------------------
  // Service and method names

  /** `pat` occurs in `s` starting at `k`. */
  predicate OccursAt(s: string, pat: string, k: nat)
  {
    k + |pat| <= |s| && s[k..k + |pat|] == pat
  }

  /** The first occurrence of `pat` in `s` at or after `k`. */
  function FindFrom(s: string, pat: string, k: nat): (r: Option<nat>)
    ensures r.Some? ==> k <= r.value && OccursAt(s, pat, r.value)
    ensures r.Some? ==> forall j | k <= j < r.value :: !OccursAt(s, pat, j)
    ensures r.None? ==> forall j: nat | k <= j :: !OccursAt(s, pat, j)
    decreases |s| - k + 1
  {
    if k + |pat| > |s| then None
    else if s[k..k + |pat|] == pat then Some(k)
    else FindFrom(s, pat, k + 1)
  }

  /**
   * `s.replace(/pat/, replacement)` for a pattern without special
   * characters: only the first occurrence is replaced.
   */
  function ReplaceFirst(s: string, pat: string, replacement: string): (r: string)
    ensures (forall j: nat :: !OccursAt(s, pat, j)) ==> r == s
    ensures forall k: nat | OccursAt(s, pat, k) && (forall j | 0 <= j < k :: !OccursAt(s, pat, j)) ::
      r == s[..k] + replacement + s[k + |pat|..]
  {
    match FindFrom(s, pat, 0)
    case None => s
    case Some(k) => s[..k] + replacement + s[k + |pat|..]
  }

  /**
   * `dataFromOperationId`: an id of exactly two `_`-separated parts gives
   * the service name (its first `Controller` replaced by `Service`) and the
   * method name; anything else gives `Service` and `unknownName`.
   */
  function DataFromOperationId(operationId: Option<string>): (r: (string, string))
    ensures operationId.None? ==> r == ("Service", "unknownName")
  {
    var name := if operationId.Some? then Split(operationId.value, '_') else [];
    if |name| != 2 then ("Service", "unknownName")
    else (ReplaceFirst(name[0], "Controller", "Service"), name[1])
  }

  /** `path.join(rootDir, 'services', name + '.ts')`, without path normalisation. */
  function ServicePath(rootDir: string, serviceName: string): string
  {
    rootDir + "/services/" + serviceName + ".ts"
  }

  // ---------------------------------------------------------------------------
  // Service files and classes

  /** The import every new service file starts with after its headers. */
  const ConfigurationImport: string := "import type { Configuration } from '../utils'"

  /** A new service file: the headers, then the `Configuration` import. */
  function NewServiceFile(headers: seq<string>): (r: SourceFile)
    ensures |r.statements| == |headers| + 1
    ensures forall i | 0 <= i < |headers| :: r.statements[i] == Raw(headers[i])
    ensures r.statements[|headers|] == Raw(ConfigurationImport)
    ensures r.imports == map[] && r.classes == map[]
  {
    SourceFile(seq(|headers|, i requires 0 <= i < |headers| => Raw(headers[i])) + [Raw(ConfigurationImport)], map[], map[])
  }

  /** A new service class: exported, with a private `configuration: Configuration` constructor parameter, no methods. */
  const NewServiceClass: ClassDecl := ClassDecl(true, [CtorParam("configuration", "Configuration", true)], [])

  /** `getOrCreateServiceFile`: an existing file is kept as it is; otherwise a new one is created. */
  method GetOrCreateServiceFile(project: Project, headers: seq<string>, filePath: string)
    modifies project
    ensures filePath in old(project.files) ==> project.files == old(project.files)
    ensures filePath !in old(project.files) ==> project.files == old(project.files)[filePath := NewServiceFile(headers)]
  {
    if filePath !in project.files {
      var file := NewServiceFile(headers);
      project.CreateSourceFile(filePath, file.statements);
    }
  }

  /** `getOrCreateServiceClass`: an existing class is kept as it is; otherwise a new one is added. */
  method GetOrCreateServiceClass(project: Project, filePath: string, className: string)
    requires filePath in project.files
    modifies project
    ensures var file := old(project.files)[filePath];
      project.files == old(project.files)[filePath := file.(classes :=
        if className in file.classes then file.classes else file.classes[className := NewServiceClass])]
  {
    var file := project.files[filePath];
    if className !in file.classes {
      project.files := project.files[filePath := file.(classes := file.classes[className := NewServiceClass])];
    } else {
      assert file.(classes := file.classes) == file;
    }
  }

  /** `addMethod`: the method is appended to the class, with no check for duplicates. */
  method AddMethod(project: Project, filePath: string, className: string, m: MethodDecl)
    requires filePath in project.files && className in project.files[filePath].classes
    modifies project
    ensures var file := old(project.files)[filePath];
      var cls := file.classes[className];
      project.files == old(project.files)[filePath := file.(classes := file.classes[className := cls.(methods := cls.methods + [m])])]
  {
    var file := project.files[filePath];
    var cls := file.classes[className];
    project.files := project.files[filePath := file.(classes := file.classes[className := cls.(methods := cls.methods + [m])])];
  }

  // ---------------------------------------------------------------------------
  // One operation as a method

  /**
   * The names to import from the models: the body's imported name, then
   * the names the response type mentions, without the falsy ones.
   */
  function PotentialImports(bodyImports: Option<string>, responseNames: seq<string>): (r: seq<string>)
    ensures forall i | 0 <= i < |r| :: r[i] != ""
    ensures Truthy(bodyImports) ==> bodyImports.value in r
    ensures forall n | n in responseNames && n != "" :: n in r
    ensures forall n | n in r :: bodyImports == Some(n) || n in responseNames
  {
    RejectFalsy([bodyImports] + Lift(responseNames))
  }

  /** The model names an operation needs, from its request body and its response type. */
  function ImportsToInclude(op: Operation): seq<string>
  {
    var body := ExtractContentSchema("bodyArgs", op);
    var response := ExtractResponseType(op);
    PotentialImports(if body.Some? then body.value.imports else None,
      if response.Some? then CollectAllComplexSubtypeNames(response.value.schema) else [])
  }

  /** A parameter as a field of `props`: optional exactly when not required, typed by its sanitized schema type. */
  function ParameterField(p: Parameter): PropertySignature
  {
    PropertySignature(p.name, !p.required, Literal(SanitizeType(p.schemaType)))
  }

  /** The parameters as fields of `props`, in order. */
  function ParameterFields(parameters: seq<Parameter>): (r: seq<PropertySignature>)
    ensures |r| == |parameters|
    ensures forall i | 0 <= i < |parameters| ::
      && r[i].name == parameters[i].name
      && (r[i].optional <==> !parameters[i].required)
      && r[i].typ == Literal(SanitizeType(parameters[i].schemaType))
  {
    seq(|parameters|, i requires 0 <= i < |parameters| => ParameterField(parameters[i]))
  }

  /** The fields of `props`: the request body argument first, when there is one, then every parameter in order. */
  function PropsFields(op: Operation): (r: seq<PropertySignature>)
    ensures var body := ExtractContentSchema("bodyArgs", op);
      var offset := if body.Some? then 1 else 0;
      && |r| == offset + |op.parameters|
      && (body.Some? ==> r[0] == PropertySignature(body.value.contentName, !body.value.required, TreeWriter(body.value.schema)))
      && r[offset..] == ParameterFields(op.parameters)
  {
    var body := ExtractContentSchema("bodyArgs", op);
    var head := if body.Some? then [PropertySignature(body.value.contentName, !body.value.required, TreeWriter(body.value.schema))] else [];
    var r := head + ParameterFields(op.parameters);
    assert r[|head|..] == ParameterFields(op.parameters);
    r
  }

  /** The method's parameter list: `props` when there is a body or a parameter, nothing otherwise. */
  function MethodParams(op: Operation): (r: seq<MethodParam>)
    ensures |r| <= 1
    ensures |r| == 1 <==> ExtractContentSchema("bodyArgs", op).Some? || |op.parameters| > 0
    ensures |r| == 1 ==> r[0] == MethodParam("props", ObjectType(PropsFields(op)))
  {
    var hasParameters := ExtractContentSchema("bodyArgs", op).Some? || |op.parameters| > 0;
    if hasParameters then [MethodParam("props", ObjectType(PropsFields(op)))] else []
  }

  /** The parameters located in the path, as `groupBy` over `in` gives them. */
  function PathParams(op: Operation): (r: seq<Parameter>)
    ensures r == Group(Location, op.parameters, "path")
  {
    GroupByLookup(Location, op.parameters, "path");
    Lookup(GroupBy(Location, op.parameters), "path").GetOr([])
  }

  /** The parameters located in the query, as `groupBy` over `in` gives them. */
  function QueryParams(op: Operation): (r: seq<Parameter>)
    ensures r == Group(Location, op.parameters, "query")
  {
    GroupByLookup(Location, op.parameters, "query");
    Lookup(GroupBy(Location, op.parameters), "query").GetOr([])
  }

  /** `props['name']`. */
  function PropsAccess(name: string): string
  {
    "props['" + name + "']"
  }

  /** `url`: the path written as a template after `${baseUrl}`, between backticks. */
  function UrlField(rawPath: string): Initializer
  {
    Text(PrintStringTemplate("${baseUrl}" + PathArgsToTemplate(rawPath)))
  }

  /** `method`: the upper-cased method between single quotes. */
  function MethodField(httpMethod: string): Initializer
  {
    Text(PrintString(ToUpper(httpMethod)))
  }

  /** `queryParams`: each query parameter mapped to its `props` access, or `undefined` when there is none. */
  function QueryField(op: Operation): Initializer
  {
    var query := QueryParams(op);
    if |query| > 0 then Nested(ListToObject(query, (p: Parameter) => (p.name, PropsAccess(p.name))))
    else Text("undefined")
  }

  /** `bodyArgs`: the `props` access of the request body argument, or `undefined`. */
  function BodyField(op: Operation): Initializer
  {
    var body := ExtractContentSchema("bodyArgs", op);
    Text(if body.Some? then PropsAccess(body.value.contentName) else "undefined")
  }

  /** The object literal `{ url, method, queryParams, bodyArgs }` with the given property values. */
  function AdapterObject(url: Initializer, httpMethod: Initializer, query: Initializer, body: Initializer): (r: Obj<Initializer>)
    ensures Keys(r) == ["url", "method", "queryParams", "bodyArgs"]
  {
    Obj([("url", url), ("method", httpMethod), ("queryParams", query), ("bodyArgs", body)])
  }

  /** The object passed to `adapter`. */
  function AdapterArgument(rawPath: string, httpMethod: string, op: Operation): Obj<Initializer>
  {
    AdapterObject(UrlField(rawPath), MethodField(httpMethod), QueryField(op), BodyField(op))
  }

  /** The type argument of the `adapter` call: the response type, or `void`. */
  function ReturnTypeText(op: Operation): (r: TypeText)
    ensures ExtractResponseType(op).None? ==> r == Literal("void")
    ensures ExtractResponseType(op).Some? ==> r == TreeWriter(ExtractResponseType(op).value.schema)
  {
    var response := ExtractResponseType(op);
    if response.Some? then TreeWriter(response.value.schema) else Literal("void")
  }

  /** The names of the path parameters, in order. */
  function PathNames(op: Operation): (r: seq<string>)
    ensures var path := Group(Location, op.parameters, "path");
      |r| == |path| && forall i | 0 <= i < |r| :: r[i] == path[i].name
  {
    var path := PathParams(op);
    seq(|path|, i requires 0 <= i < |path| => path[i].name)
  }

  /**
   * A method body: destructure `baseUrl` and `adapter` from the
   * configuration, destructure the path parameters from `props` when there
   * are any, a blank line, then return the `adapter` call.
   */
  function MethodBody(pathNames: seq<string>, returnType: TypeText, argument: Obj<Initializer>): (r: seq<Stmt>)
    ensures 3 <= |r| <= 4 && r[|r| - 2] == NewLine && r[|r| - 1] == ReturnCall("adapter", returnType, argument)
  {
    [Code(DestructText("this.configuration", ["baseUrl", "adapter"]))]
    + (if |pathNames| > 0 then [Code(DestructText("props", pathNames))] else [])
    + [NewLine, ReturnCall("adapter", returnType, argument)]
  }

  /** The body of the method generated for one operation. */
  function MethodStatements(rawPath: string, httpMethod: string, op: Operation): seq<Stmt>
  {
    MethodBody(PathNames(op), ReturnTypeText(op), AdapterArgument(rawPath, httpMethod, op))
  }

  /** The method generated for one operation. */
  function BuildMethod(rawPath: string, httpMethod: string, methodName: string, op: Operation): (r: MethodDecl)
    ensures r.name == methodName && |r.parameters| <= 1 && 3 <= |r.statements| <= 4
  {
    MethodDecl(methodName, MethodParams(op), MethodStatements(rawPath, httpMethod, op))
  }

  // ---------------------------------------------------------------------------
  // Registering operations

  /** The module the service files import model types from. */
  const ModelsModule: string := "../models"

  /**
   * One operation registered in the file at `filePath`: the file and the
   * class are found or created, the model names are merged into the
   * `../models` import when there are any, and the method is appended to
   * the class.
   */
  function RegisterInFile(files: map<string, SourceFile>, headers: seq<string>, filePath: string,
                          className: string, imports: seq<string>, m: MethodDecl): (r: map<string, SourceFile>)
    ensures r.Keys == files.Keys + {filePath} && className in r[filePath].classes
  {
    var file := if filePath in files then files[filePath] else NewServiceFile(headers);
    var withClass := file.(classes := if className in file.classes then file.classes else file.classes[className := NewServiceClass]);
    var merged := if |imports| > 0 then MergedImports(withClass, ModelsModule, imports) else withClass;
    var cls := merged.classes[className];
    files[filePath := merged.(classes := merged.classes[className := cls.(methods := cls.methods + [m])])]
  }

  /** The steps of `serviceFromPathSpecification` once the names, imports and method are known. */
  method RegisterOperation(project: Project, headers: seq<string>, filePath: string,
                           className: string, imports: seq<string>, m: MethodDecl)
    modifies project
    ensures project.files == RegisterInFile(old(project.files), headers, filePath, className, imports, m)
  {
    ghost var files := project.files;
    ghost var file := if filePath in files then files[filePath] else NewServiceFile(headers);
    GetOrCreateServiceFile(project, headers, filePath);
    assert project.files == files[filePath := file];
    ghost var withClass := file.(classes := if className in file.classes then file.classes else file.classes[className := NewServiceClass]);
    GetOrCreateServiceClass(project, filePath, className);
    UpdateTwice(files, filePath, file, withClass);
    ghost var merged := if |imports| > 0 then MergedImports(withClass, ModelsModule, imports) else withClass;
    if |imports| > 0 {
      IncludeOrCreateNamedImport(project, filePath, ModelsModule, imports);
      WithNamedImportsMerges(withClass, ModelsModule, imports);
      UpdateTwice(files, filePath, withClass, merged);
    }
    assert project.files == files[filePath := merged];
    ghost var cls := merged.classes[className];
    AddMethod(project, filePath, className, m);
    UpdateTwice(files, filePath, merged, merged.(classes := merged.classes[className := cls.(methods := cls.methods + [m])]));
  }

  /** The files after `serviceFromPathSpecification` for `httpMethod` of a path. */
  function Register(files: map<string, SourceFile>, headers: seq<string>, rootDir: string,
                    rawPath: string, pathSpec: Obj<Operation>, httpMethod: string): map<string, SourceFile>
    requires Lookup(pathSpec, httpMethod).Some?
  {
    var op := Lookup(pathSpec, httpMethod).value;
    var (serviceName, methodName) := DataFromOperationId(op.operationId);
    RegisterInFile(files, headers, ServicePath(rootDir, serviceName), serviceName,
      ImportsToInclude(op), BuildMethod(rawPath, httpMethod, methodName, op))
  }

  /** `serviceFromPathSpecification`. The source dereferences `pathSpec[method]!`, so the method must be declared. */
  method ServiceFromPathSpecification(project: Project, headers: seq<string>, rawPath: string,
                                      httpMethod: string, pathSpec: Obj<Operation>, rootDir: string)
    requires Lookup(pathSpec, httpMethod).Some?
    modifies project
    ensures project.files == Register(old(project.files), headers, rootDir, rawPath, pathSpec, httpMethod)
  {
    var op := Lookup(pathSpec, httpMethod).value;
    var (fileName, methodName) := DataFromOperationId(op.operationId);
    var filePath := ServicePath(rootDir, fileName);
    var imports := ImportsToInclude(op);
    RegisterOperation(project, headers, filePath, fileName, imports, BuildMethod(rawPath, httpMethod, methodName, op));
  }

  /** Registering every method of `methods` in turn. */
  function RegisterAll(files: map<string, SourceFile>, headers: seq<string>, rootDir: string,
                       rawPath: string, pathSpec: Obj<Operation>, methods: seq<string>): map<string, SourceFile>
    requires forall m | m in methods :: Lookup(pathSpec, m).Some?
    decreases |methods|
  {
    if |methods| == 0 then files
    else RegisterAll(Register(files, headers, rootDir, rawPath, pathSpec, methods[0]), headers, rootDir, rawPath, pathSpec, methods[1..])
  }

  /** The method keys of a path that are not known operations, in order. */
  function UnknownOperations(pathSpec: Obj<Operation>): (r: seq<string>)
    ensures forall m :: m in r <==> m in Keys(pathSpec) && m !in KnownOperations
  {
    Filter((m: string) => m !in KnownOperations, Keys(pathSpec))
  }

  /** The error thrown for a path with unknown methods; the array is written comma-separated. */
  function UnknownOperationsMessage(rawPath: string, unknown: seq<string>): (r: string)
    ensures |r| == 33 + |rawPath| + |Join(unknown, ",")|
    ensures r[..31] == "Unknown operation(s) found for " && r[31..31 + |rawPath|] == rawPath
    ensures r[31 + |rawPath|..33 + |rawPath|] == ": " && r[33 + |rawPath|..] == Join(unknown, ",")
  {
    "Unknown operation(s) found for " + rawPath + ": " + Join(unknown, ",")
  }

  /** The outcome of a run: the files, and the error that stopped it, if any. */
  datatype Run = Run(files: map<string, SourceFile>, error: Option<string>)

  /** Registering every method of a path. */
  function RegisterPath(files: map<string, SourceFile>, headers: seq<string>, rootDir: string,
                        rawPath: string, pathSpec: Obj<Operation>): map<string, SourceFile>
  {
    KeysLookup(pathSpec);
    RegisterAll(files, headers, rootDir, rawPath, pathSpec, Keys(pathSpec))
  }

  /**
   * A run over the paths in order with `register` as the work done for a
   * path: a path with an unknown method stops the run with its error before
   * any of its methods is registered.
   */
  function RunWith(register: (map<string, SourceFile>, string, Obj<Operation>) -> map<string, SourceFile>,
                   files: map<string, SourceFile>, paths: seq<(string, Obj<Operation>)>): (r: Run)
    ensures r.error.Some? ==> exists i | 0 <= i < |paths| ::
      UnknownOperations(paths[i].1) != [] && r.error.value == UnknownOperationsMessage(paths[i].0, UnknownOperations(paths[i].1))
    decreases |paths|
  {
    if |paths| == 0 then Run(files, None)
    else
      var (rawPath, pathSpec) := paths[0];
      var unknown := UnknownOperations(pathSpec);
      if |unknown| > 0 then Run(files, Some(UnknownOperationsMessage(rawPath, unknown)))
      else
        var rest := RunWith(register, register(files, rawPath, pathSpec), paths[1..]);
        assert forall j | 0 <= j < |paths| - 1 :: paths[1..][j] == paths[j + 1];
        rest
  }

  /** The run of `generateServices` over the paths in order. */
  function RunPaths(files: map<string, SourceFile>, headers: seq<string>, rootDir: string,
                    paths: seq<(string, Obj<Operation>)>): (r: Run)
    ensures r.error.None? <==> forall i | 0 <= i < |paths| :: UnknownOperations(paths[i].1) == []
  {
    var register := (f, rawPath, pathSpec) => RegisterPath(f, headers, rootDir, rawPath, pathSpec);
    RunSucceedsExactlyWhenAllKnown(register, files, paths);
    RunWith(register, files, paths)
  }

  /** The `forEach` over a path's methods in `generateServices`. */
  method RegisterPathMethods(project: Project, headers: seq<string>, rootDir: string,
                             rawPath: string, pathSpec: Obj<Operation>)
    modifies project
    ensures project.files == RegisterPath(old(project.files), headers, rootDir, rawPath, pathSpec)
  {
    var pathSpecMethods := Keys(pathSpec);
    KeysLookup(pathSpec);
    for j := 0 to |pathSpecMethods|
      invariant RegisterAll(old(project.files), headers, rootDir, rawPath, pathSpec, pathSpecMethods)
             == RegisterAll(project.files, headers, rootDir, rawPath, pathSpec, pathSpecMethods[j..])
    {
      assert pathSpecMethods[j..][1..] == pathSpecMethods[j + 1..];
      ServiceFromPathSpecification(project, headers, rawPath, pathSpecMethods[j], pathSpec, rootDir);
    }
    assert pathSpecMethods[|pathSpecMethods|..] == [];
  }

  /** `generateServices`; the thrown error is returned. */
  method GenerateServices(project: Project, headers: seq<string>, rootDir: string, spec: Spec) returns (error: Option<string>)
    modifies project
    ensures Run(project.files, error) == RunPaths(old(project.files), headers, rootDir, Entries(spec.paths))
  {
    var paths := Entries(spec.paths);
    var i := 0;
    while i < |paths|
      invariant 0 <= i <= |paths|
      invariant RunPaths(old(project.files), headers, rootDir, paths) == RunPaths(project.files, headers, rootDir, paths[i..])
    {
      var (rawPath, pathSpec) := paths[i];
      ghost var rest := paths[i..];
      assert rest[0] == (rawPath, pathSpec);
      var unknownOperations := UnknownOperations(pathSpec);
      if |unknownOperations| > 0 {
        error := Some(UnknownOperationsMessage(rawPath, unknownOperations));
        assert RunPaths(project.files, headers, rootDir, rest) == Run(project.files, error);
        return;
      }
      ghost var before := project.files;
      RegisterPathMethods(project, headers, rootDir, rawPath, pathSpec);
      assert rest[1..] == paths[i + 1..];
      assert RunPaths(before, headers, rootDir, rest) == RunPaths(project.files, headers, rootDir, rest[1..]);
      i := i + 1;
    }
    assert paths[i..] == [];
    error := None;
  }

  // ---------------------------------------------------------------------------
  // Lemmas: names

  /** An id made of two parts without `_` gives the owner with `Controller` replaced, and the method name. */
  lemma OperationIdTwoParts(owner: string, name: string)
    requires '_' !in owner && '_' !in name
    ensures DataFromOperationId(Some(owner + "_" + name)) == (ReplaceFirst(owner, "Controller", "Service"), name)
  {
    SplitJoin([owner, name], '_');
    assert Join([owner, name], "_") == owner + "_" + Join([name], "_");
  }

  /** An absent id, or one without exactly one `_`, gives the fallback names. */
  lemma OperationIdFallback(operationId: Option<string>)
    requires operationId.Some? ==> multiset(operationId.value)['_'] != 1
    ensures DataFromOperationId(operationId) == ("Service", "unknownName")
  {
    if operationId.Some? {
      SplitCount(operationId.value, '_');
    }
  }

  /** Only the first `Controller` is replaced: `UserController` gives `UserService`. */
  lemma ReplaceControllerExample()
    ensures ReplaceFirst("UserController", "Controller", "Service") == "UserService"
  {
    var owner := "UserController";
    assert OccursAt(owner, "Controller", 4) by {
      assert owner[4..14] == "Controller";
    }
    forall j | 0 <= j < 4 ensures !OccursAt(owner, "Controller", j) {
      assert owner[j] != 'C';
      assert j + 10 <= |owner| ==> owner[j..j + 10][0] == owner[j];
    }
    assert owner[..4] + "Service" + owner[14..] == "UserService";
  }

  /** A NestJS-style id: `UserController_getUser` gives `UserService` and `getUser`. */
  lemma OperationIdExample()
    ensures DataFromOperationId(Some("UserController_getUser")) == ("UserService", "getUser")
  {
    var owner, name := "UserController", "getUser";
    assert owner + "_" + name == "UserController_getUser";
    assert forall i | 0 <= i < |owner| :: owner[i] != '_';
    assert forall i | 0 <= i < |name| :: name[i] != '_';
    OperationIdTwoParts(owner, name);
    ReplaceControllerExample();
  }

  /**
   * Different service names without '/' get different files. A name holding
   * '/' can reach another file once `path.join` normalises `..` segments.
   */
  lemma ServicePathInjective(rootDir: string, a: string, b: string)
    requires '/' !in a && '/' !in b
    requires ServicePath(rootDir, a) == ServicePath(rootDir, b)
    ensures a == b
  {
    var pa, pb := ServicePath(rootDir, a), ServicePath(rootDir, b);
    var k := |rootDir| + 10;
    assert |a| == |b|;
    assert pa[k..k + |a|] == a;
    assert pb[k..k + |b|] == b;
  }

  // ---------------------------------------------------------------------------
  // Lemmas: one operation

  /** `props` is declared exactly when the operation has a body or a parameter; the method is named by the operation id. */
  lemma MethodSignature(rawPath: string, httpMethod: string, methodName: string, op: Operation)
    ensures var m := BuildMethod(rawPath, httpMethod, methodName, op);
      && m.name == methodName
      && (|m.parameters| == 1 <==> ExtractContentSchema("bodyArgs", op).Some? || |op.parameters| > 0)
      && (|m.parameters| != 1 ==> m.parameters == [])
      && (|m.parameters| == 1 ==> m.parameters[0].name == "props" && m.parameters[0].typ == ObjectType(PropsFields(op)))
  {
  }

  /**
   * A method body comes in a fixed order: the configuration destructuring,
   * the path parameters' destructuring exactly when there is one, a blank
   * line, and the `adapter` call.
   */
  lemma MethodBodyOrder(pathNames: seq<string>, returnType: TypeText, argument: Obj<Initializer>)
    ensures var r := MethodBody(pathNames, returnType, argument);
      && (|r| == 4 <==> |pathNames| > 0)
      && (|r| == 3 <==> |pathNames| == 0)
      && r[0] == Code(DestructText("this.configuration", ["baseUrl", "adapter"]))
      && (|r| == 4 ==> r[1] == Code(DestructText("props", pathNames)))
      && r[|r| - 2] == NewLine
      && r[|r| - 1] == ReturnCall("adapter", returnType, argument)
  {
  }

  /** Every model type the `adapter` call's type argument names is among the names the file imports. */
  lemma ReturnTypeImported(op: Operation)
    ensures forall n | n in RefsOf(ReturnTypeText(op)) :: n in ImportsToInclude(op)
  {
    var response := ExtractResponseType(op);
    if response.Some? {
      CollectedNamesAreWrittenReferences(response.value.schema);
    }
  }

  /** The path parameters are destructured exactly when the operation has a parameter in the path. */
  lemma PathDestructuredExactly(op: Operation)
    ensures |PathNames(op)| > 0 <==> exists p | p in op.parameters :: p.location == "path"
  {
    var path := Group(Location, op.parameters, "path");
    if |path| > 0 {
      assert path[0] in path;
    }
    if p :| p in op.parameters && p.location == "path" {
      assert Location(p) == "path";
      assert p in path;
    }
  }

  /** Each of the four properties of the `adapter` object is found under its own key. */
  lemma AdapterLookup(url: Initializer, httpMethod: Initializer, query: Initializer, body: Initializer)
    ensures var a := AdapterObject(url, httpMethod, query, body);
      && Lookup(a, "url") == Some(url)
      && Lookup(a, "method") == Some(httpMethod)
      && Lookup(a, "queryParams") == Some(query)
      && Lookup(a, "bodyArgs") == Some(body)
  {
    var a := AdapterObject(url, httpMethod, query, body);
    var a1 := Obj(a.entries[1..]);
    var a2 := Obj(a1.entries[1..]);
    var a3 := Obj(a2.entries[1..]);
    assert a1.entries == [("method", httpMethod), ("queryParams", query), ("bodyArgs", body)];
    assert a2.entries == [("queryParams", query), ("bodyArgs", body)];
    assert a3.entries == [("bodyArgs", body)];
    assert Lookup(a3, "bodyArgs") == Some(body);
    assert Lookup(a2, "queryParams") == Some(query);
    assert Lookup(a2, "bodyArgs") == Lookup(a3, "bodyArgs");
    assert Lookup(a1, "method") == Some(httpMethod);
    assert Lookup(a1, "queryParams") == Lookup(a2, "queryParams");
    assert Lookup(a1, "bodyArgs") == Lookup(a2, "bodyArgs");
  }

  /** `url` is the path template after `${baseUrl}` between backticks; `method` the upper-cased method between quotes. */
  lemma UrlAndMethodText(rawPath: string, httpMethod: string)
    ensures UrlField(rawPath) == Text("`${baseUrl}" + PathArgsToTemplate(rawPath) + "`")
    ensures MethodField(httpMethod) == Text("'" + ToUpper(httpMethod) + "'")
  {
  }

  /** `queryParams` maps each query parameter, in order, to `props['name']`, or is `undefined` when there is none. */
  lemma QueryFieldShape(op: Operation)
    ensures var query := Group(Location, op.parameters, "query");
      && (|query| == 0 <==> QueryField(op) == Text("undefined"))
      && (|query| > 0 ==>
        && QueryField(op).Nested?
        && |QueryField(op).fields.entries| == |query|
        && forall i | 0 <= i < |query| :: QueryField(op).fields.entries[i] == (query[i].name, "props['" + query[i].name + "']"))
  {
  }

  /** `bodyArgs` is `props['contentName']` for an operation with a JSON request body, `undefined` otherwise. */
  lemma BodyFieldShape(op: Operation)
    ensures var body := ExtractContentSchema("bodyArgs", op);
      && (body.None? ==> BodyField(op) == Text("undefined"))
      && (body.Some? ==> BodyField(op) == Text("props['" + body.value.contentName + "']"))
  {
  }

  /**
   * A path with one parameter after a prefix without '{', such as
   * `/users/{id}`, gives the url `` `${baseUrl}/users/${id}` ``; the method
   * `get` gives `'GET'`.
   */
  lemma PathParameterUrl(prefix: string, name: string)
    requires forall i | 0 <= i < |prefix| :: prefix[i] != '{'
    requires forall i | 0 <= i < |name| :: name[i] != '{' && !LineTerminator(name[i])
    ensures UrlField(prefix + "{" + name + "}") == Text("`${baseUrl}" + prefix + "${" + name + "}`")
    ensures MethodField("get") == Text("'GET'")
  {
    PathParameterUrlText(prefix, name);
    GetMethodText();
  }

  /** The url half of `PathParameterUrl`. */
  lemma PathParameterUrlText(prefix: string, name: string)
    requires forall i | 0 <= i < |prefix| :: prefix[i] != '{'
    requires forall i | 0 <= i < |name| :: name[i] != '{' && !LineTerminator(name[i])
    ensures UrlField(prefix + "{" + name + "}") == Text("`${baseUrl}" + prefix + "${" + name + "}`")
  {
    PathParameterTemplate(prefix, name);
    assert "`" + ("${baseUrl}" + (prefix + "${" + name + "}")) + "`" == "`${baseUrl}" + prefix + "${" + name + "}`";
  }

  /** The method half of `PathParameterUrl`. */
  lemma GetMethodText()
    ensures MethodField("get") == Text("'GET'")
  {
    assert ToUpper("get") == "GET";
  }

  // ---------------------------------------------------------------------------
  // Lemmas: registration

  /**
   * Registering one operation in a file: the file is created only when
   * missing (headers, then the `Configuration` import), the class only when
   * missing (private `configuration` constructor parameter), the method is
   * appended to the class's methods, and no other file or class changes.
   */
  lemma RegisterInFileEffect(files: map<string, SourceFile>, headers: seq<string>, filePath: string,
                             className: string, imports: seq<string>, m: MethodDecl)
    ensures var r := RegisterInFile(files, headers, filePath, className, imports, m);
      && r.Keys == files.Keys + {filePath}
      && (forall p | p in files && p != filePath :: r[p] == files[p])
      && className in r[filePath].classes
      && (filePath in files ==> r[filePath].statements == files[filePath].statements)
      && (filePath !in files ==> r[filePath].statements == NewServiceFile(headers).statements)
  {
  }

  /** The class gains exactly the new method at the end; a new class starts from the constructor alone. */
  lemma RegisterAppendsMethod(files: map<string, SourceFile>, headers: seq<string>, filePath: string,
                              className: string, imports: seq<string>, m: MethodDecl)
    ensures var r := RegisterInFile(files, headers, filePath, className, imports, m);
      var old_ := if filePath in files then files[filePath] else NewServiceFile(headers);
      var cls := r[filePath].classes[className];
      && (className in old_.classes ==> cls == old_.classes[className].(methods := old_.classes[className].methods + [m]))
      && (className !in old_.classes ==> cls == NewServiceClass.(methods := [m]))
      && (forall c | c in old_.classes && c != className :: r[filePath].classes[c] == old_.classes[c])
  {
  }

  /**
   * The `../models` import after registering: untouched when there is
   * nothing to import; otherwise it holds every needed name, keeps the names
   * it had in front, and stays free of repetitions.
   */
  lemma RegisterMergesImports(files: map<string, SourceFile>, headers: seq<string>, filePath: string,
                              className: string, imports: seq<string>, m: MethodDecl)
    requires filePath in files && ModelsModule in files[filePath].imports ==>
      NoDuplicates(files[filePath].imports[ModelsModule].names)
    ensures var r := RegisterInFile(files, headers, filePath, className, imports, m);
      var old_ := if filePath in files then files[filePath] else NewServiceFile(headers);
      && (|imports| == 0 ==> r[filePath].imports == old_.imports)
      && (|imports| > 0 ==>
        && ModelsModule in r[filePath].imports
        && NoDuplicates(r[filePath].imports[ModelsModule].names)
        && (forall n | n in imports :: n in r[filePath].imports[ModelsModule].names)
        && (ModelsModule in old_.imports ==>
              r[filePath].imports[ModelsModule].names[..|old_.imports[ModelsModule].names|]
              == old_.imports[ModelsModule].names)
        && (forall n | n in r[filePath].imports[ModelsModule].names ::
              n in imports || (ModelsModule in old_.imports && n in old_.imports[ModelsModule].names))
        && r[filePath].imports.Keys == old_.imports.Keys + {ModelsModule}
        && (forall mod | mod in old_.imports && mod != ModelsModule :: r[filePath].imports[mod] == old_.imports[mod]))
  {
    var old_ := if filePath in files then files[filePath] else NewServiceFile(headers);
    var withClass := old_.(classes := if className in old_.classes then old_.classes else old_.classes[className := NewServiceClass]);
    if |imports| > 0 {
      ImportedOnce(withClass, ModelsModule, imports);
    }
  }

  // ---------------------------------------------------------------------------
  // Lemmas: the run over all paths

  /** A run ends without error exactly when no path declares an unknown method. */
  lemma {:induction false} RunSucceedsExactlyWhenAllKnown(
    register: (map<string, SourceFile>, string, Obj<Operation>) -> map<string, SourceFile>,
    files: map<string, SourceFile>, paths: seq<(string, Obj<Operation>)>)
    ensures RunWith(register, files, paths).error.None?
        <==> forall i | 0 <= i < |paths| :: UnknownOperations(paths[i].1) == []
    decreases |paths|
  {
    if |paths| > 0 && UnknownOperations(paths[0].1) == [] {
      RunSucceedsExactlyWhenAllKnown(register, register(files, paths[0].0, paths[0].1), paths[1..]);
      assert forall i | 1 <= i < |paths| :: paths[i] == paths[1..][i - 1];
    }
  }

  /**
   * Fail-fast: when path `k` is the first with an unknown method, the run
   * stops with that path's error and the files as the earlier paths left
   * them; none of path `k`'s methods is registered.
   */
  lemma {:induction false} RunStopsAtFirstUnknown(
    register: (map<string, SourceFile>, string, Obj<Operation>) -> map<string, SourceFile>,
    files: map<string, SourceFile>, paths: seq<(string, Obj<Operation>)>, k: nat)
    requires k < |paths|
    requires forall i | 0 <= i < k :: UnknownOperations(paths[i].1) == []
    requires UnknownOperations(paths[k].1) != []
    ensures RunWith(register, files, paths)
         == Run(RunWith(register, files, paths[..k]).files,
                Some(UnknownOperationsMessage(paths[k].0, UnknownOperations(paths[k].1))))
    decreases k
  {
    if k > 0 {
      assert UnknownOperations(paths[0].1) == [];
      var next := register(files, paths[0].0, paths[0].1);
      forall i | 0 <= i < k - 1 ensures UnknownOperations(paths[1..][i].1) == [] {
        assert paths[1..][i] == paths[i + 1];
      }
      assert paths[1..][k - 1] == paths[k];
      RunStopsAtFirstUnknown(register, next, paths[1..], k - 1);
      var prefix := paths[..k];
      assert prefix[0] == paths[0];
      TailOfPrefix(paths, k);
    } else {
      assert paths[..0] == [];
    }
  }

  /** With every method known, the run registers the paths one after another. */
  lemma {:induction false} RunRegistersInOrder(
    register: (map<string, SourceFile>, string, Obj<Operation>) -> map<string, SourceFile>,
    files: map<string, SourceFile>, paths: seq<(string, Obj<Operation>)>, p: (string, Obj<Operation>))
    requires RunWith(register, files, paths).error.None?
    requires UnknownOperations(p.1) == []
    ensures RunWith(register, files, paths + [p])
         == Run(register(RunWith(register, files, paths).files, p.0, p.1), None)
    decreases |paths|
  {
    if |paths| == 0 {
      assert paths + [p] == [p];
      assert [p][1..] == [];
    } else {
      assert UnknownOperations(paths[0].1) == [];
      assert (paths + [p])[0] == paths[0];
      assert (paths + [p])[1..] == paths[1..] + [p];
      RunRegistersInOrder(register, register(files, paths[0].0, paths[0].1), paths[1..], p);
    }
  }
}
