# openapi-ts-generator core in Dafny

This project models the compiler at the centre of openapi-ts-generator. The compiler reads an
in-memory OpenAPI 3 document and produces two kinds of TypeScript declarations:

- `models.ts`: one exported type alias per component schema;
- `services/<Name>.ts`: one exported service class per operation owner, with one method per
  operation. Each method calls an injected `adapter` with the URL, the HTTP method, the query
  parameters and the body.

Modules follow the source files:

| module | source | form |
|---|---|---|
| `Wrappers` | — | `Option`, standing for JavaScript's `undefined`/`null` |
| `Fp` | src/fp.ts | pure functions over sequences, plus the JavaScript built-ins the generator uses (`split`, `join`, `filter`, `toUpperCase`, object enumeration); a JavaScript object is an ordered association list `Obj<V>` |
| `OpenApi` | src/openapi.ts | the document as datatypes; the untagged schema union becomes the tagged `Schema` |
| `Sink` | — | the parts of ts-morph the generator writes into: a `Project` class holding a map from file path to a `SourceFile` record (statements, import declarations by module, classes by name), a `CodeWriter` class appending text, and `TypeText`, the type a writer stands for |
| `Utils` | src/utils.ts | pure helpers; `includeOrCreateNamedImport` as a method with a loop, proved against a fold and its closed form |
| `Printer` | src/printer.ts | pure string-template printers |
| `Writers` | src/writers.ts | `openAPISpecTreeSpecWriter` as a recursive function to `TypeText`; `callWriter`, `destructWriter` and `literalWriter` as methods appending to a `CodeWriter` |
| `Models` | src/generators/models-file.ts | the statement list as a function; `generateModels` as a method on `Project` |
| `Services` | src/generators/services-files.ts | get-or-create of files and classes, import merging and method appending as methods on `Project`, each proved equal to a function on the file map; the run over all paths stops at the first path with an unknown method |

The model follows the code as written, including these behaviours:

- A string enum with one value renders as that quoted literal, not as a one-member union (src/writers.ts:68-70).
- `inCamelCase` upper-cases the first character (src/fp.ts:42).
- A request body's import is the resolved name of a top-level `$ref` only (src/utils.ts:33, 37). Names nested inside an array or object body schema are not imported. Only the response schema is searched in depth (src/generators/services-files.ts:117-120).
- An omitted request-body `required` counts as `true` (src/utils.ts:40).

## Model

| member | source | states |
|---|---|---|
| Fp.Truthy | src/fp.ts:7-9 | the filter of `rejectFalsy`, named `isFalsy` in the source, fails exactly for an absent value and the empty string |
| Fp.Last | src/fp.ts:11 | present exactly for a non-empty list, and then the final element |
| Fp.First | src/fp.ts:13 | present exactly for a non-empty list, and then element 0 |
| Fp.Tail | src/fp.ts:15 | a non-empty list is its first element followed by the result; the empty list gives the empty list |
| Fp.Keys | src/fp.ts:17 | one key per entry, in enumeration order |
| Fp.Values | src/utils.ts:122 | one value per entry, in enumeration order |
| Fp.Entries | src/fp.ts:19-24 | entry i pairs the i-th key with the i-th value; all three lists have the same length |
| Fp.Lookup | src/generators/services-files.ts:95 | property access finds a value exactly when the key is among the keys, and that value is paired with the key |
| Fp.Filter | src/fp.ts:28-31 | an element is kept exactly when it is in the list and satisfies the predicate; the result is no longer than the list |
| Fp.FilterAppend | src/fp.ts:28-31 | filtering distributes over concatenation, so the kept elements stay in their relative order |
| Fp.FilterSingleton | src/fp.ts:28-31 | a one-element list keeps its element exactly when the predicate holds |
| Fp.Split | src/fp.ts:33 | a split always yields at least one piece |
| Fp.SplitInverse | src/fp.ts:33 | no piece contains the separator, and joining the pieces with it gives the input back |
| Fp.SplitPiecesFree | src/fp.ts:33 | no piece contains the separator |
| Fp.SplitJoinsBack | src/fp.ts:33 | joining the pieces with the separator gives the input back |
| Fp.SplitJoin | src/fp.ts:33 | splitting a join of separator-free pieces gives the pieces back |
| Fp.SplitWithoutSeparator | src/fp.ts:33 | a string without the separator splits into itself alone |
| Fp.SplitAfterPiece | src/fp.ts:33 | `a + sep + b`, with no separator in `a`, splits into `a` followed by the pieces of `b` |
| Fp.SplitCount | src/fp.ts:33 | the number of pieces is the number of separators plus one |
| Fp.SplitPath | src/fp.ts:40 | at least one piece, none holding '/', and joining them with '/' gives the path back |
| Fp.LastPiece | src/utils.ts:14 | `last(split)` is defined; it is the suffix after the last separator and holds none |
| Fp.RejectFalsy | src/fp.ts:38 | no longer than the input; every kept value is a non-empty string; a string is kept exactly when it is present and non-empty in the input |
| Fp.RejectFalsyAppend | src/fp.ts:38 | distributes over concatenation, so relative order is kept |
| Fp.RejectFalsyKeepsNonEmpty | src/fp.ts:38 | a list of non-empty strings passes through unchanged |
| Fp.RejectFalsyIdempotent | src/fp.ts:38 | applying it to its own output changes nothing |
| Fp.UpperChar | src/fp.ts:42 | lower-case ASCII letters become their upper-case letter; every other character is kept |
| Fp.ToUpper | src/generators/services-files.ts:174 | the same length, each character upper-cased |
| Fp.InCamelCase | src/fp.ts:42 | needs a non-empty string; the same length, the first character upper-cased and the rest unchanged |
| Fp.InCamelCaseIdempotent | src/fp.ts:42 | applying it twice gives the same as once |
| Fp.AppendNew | src/utils.ts:90-102 | the existing names stay in front; a name is in the result exactly when it was there before or was requested |
| Fp.AppendNewNoDuplicates | src/utils.ts:97-101 | appending only the absent names keeps a list free of repetitions |
| Fp.AppendNewSnoc | src/utils.ts:90-102 | one more requested name is appended at the end unless it is already present |
| Fp.Group | src/generators/services-files.ts:115 | the elements with a given key; an element is in the group exactly when it is in the list and has that key |
| Fp.GroupAppend | src/generators/services-files.ts:115 | grouping distributes over concatenation, so each group keeps the list's order |
| Fp.GroupSingleton | src/generators/services-files.ts:115 | a one-element list's group for a key is that element exactly when it has the key |
| Fp.GroupBy | src/generators/services-files.ts:115 | keys without repetition; each entry holds its key's group; every element's key is a key; no group is empty |
| Fp.GroupByLookup | src/generators/services-files.ts:160 | looking up a key of a grouping gives that key's group, or nothing when no element has the key |
| Fp.ListToObject | src/generators/services-files.ts:176-179 | one entry per element, in order, as the pair function makes it |
| Fp.KeysLookup | src/generators/services-files.ts:205-213 | every enumerated key of an object can be looked up, so `pathSpec[method]!` is defined |
| Sink.Project.CreateSourceFile | src/generators/models-file.ts:18-32 | the file at the path is replaced by a new file holding the statements; other files are unchanged |
| Sink.CodeWriter.Write | src/writers.ts:6 | the text is extended by exactly the written string |
| Utils.ResolveSchemaType | src/utils.ts:13-15 | the result is a suffix of the ref without '/', preceded by '/' unless it is the whole ref |
| Utils.ResolveAfterLastSlash | src/utils.ts:13-15 | the result is exactly the text after the last '/' |
| Utils.ResolveWithoutSlash | src/utils.ts:13-15 | a ref without '/' is returned unchanged |
| Utils.ResolveTrailingSlash | src/utils.ts:13-15 | the empty ref and a ref ending in '/' give the empty name |
| Utils.ResolveComponentRef | src/utils.ts:8-9 | `#/components/schemas/Foo` gives `Foo` |
| Utils.NameOrUnknown | src/utils.ts:110 | never empty; the resolved name when that is non-empty; `unknown` exactly in the other case, when the resolved name is empty |
| Utils.RewriteBracesFlag | src/utils.ts:23 | the scan's flag is exactly the lookahead `(?=.*})`: a '}' comes before any line end |
| Utils.RewriteBracesMeetsPieces | src/utils.ts:23 | the scan produces the per-character replacement |
| Utils.PathArgsToTemplate | src/utils.ts:22-24 | the template is at least as long as the path and at most twice as long; a path without '{' is returned unchanged |
| Utils.RewriteBracesLength | src/utils.ts:23 | each character becomes one or two characters |
| Utils.RewriteWithoutBraces | src/utils.ts:23 | a text without '{' is copied unchanged |
| Utils.PathArgsToTemplateMatchesRegex | src/utils.ts:22-24 | `pathArgsToTemplate` replaces each '{' that has a later '}' on its line by `${` and copies every other character |
| Utils.PathArgsToTemplateExample | src/utils.ts:20 | `{foo}` gives `${foo}`; a lone `{` is left alone |
| Utils.RewriteOpenFreePrefix | src/utils.ts:23 | a prefix without '{' is copied unchanged in front of the rewritten rest |
| Utils.RewriteClosedName | src/utils.ts:23 | a one-line name without '{' followed by '}' is copied unchanged and has its closer |
| Utils.PathParameterTemplate | src/utils.ts:20-24 | `prefix{name}` becomes `prefix${name}` for every such prefix and name |
| Utils.ExtractContentSchema | src/utils.ts:30-43 | null exactly when there is no body or no JSON schema; the schema is the JSON schema; `required` is the body's or true; a ref with a non-empty name imports it and names the argument `inCamelCase(name)`; otherwise no import and the fallback name |
| Utils.ExtractResponseType | src/utils.ts:48-59 | response 200 is used when present, even without a JSON schema (then null); 201 only when 200 is absent; null when both are absent; the type name is present exactly for a ref and is its resolved name |
| Utils.SanitizeType | src/utils.ts:64-66 | `date` becomes `string`; anything else is kept |
| Utils.SanitizeTypeIdempotent | src/utils.ts:64-66 | sanitizing twice is sanitizing once |
| Utils.PrintStringTemplate | src/utils.ts:71 | the text between backticks, unescaped |
| Utils.IncludeNamedImport | src/utils.ts:91-101 | one loop round: only this file changes, becoming the file with the module's declaration found or created and holding the name |
| Utils.IncludeOrCreateNamedImport | src/utils.ts:77-103 | only the target file changes, becoming the fold of the loop rounds over the requested names |
| Utils.WithNamedImportsMerges | src/utils.ts:90-102 | the fold of the loop rounds equals the closed form: the existing names followed by each missing requested name once |
| Utils.IncludeOneStep | src/utils.ts:91-101 | each round extends the merged names by its requested name |
| Utils.ImportedOnce | src/utils.ts:90-102 | afterwards the module's declaration holds every requested name, exactly once, with the earlier names kept in front |
| Utils.CollectAllComplexSubtypeNames | src/utils.ts:108-128 | every collected name is non-empty |
| Utils.CollectFromProperties | src/utils.ts:122-124 | every name collected from the properties is non-empty |
| Printer.ExportsStmt | src/printer.ts:5 | `export ` exactly when exported, the empty text exactly when not |
| Printer.ParametricExpr | src/printer.ts:7 | empty exactly for a falsy expression; otherwise the expression between `<` and `>` |
| Printer.ReturnStr | src/printer.ts:22 | empty exactly for a falsy return type; otherwise `: ` followed by it |
| Printer.PrintFnHeader | src/printer.ts:9-34 | a method or arrow header starts with the name; an arrow header ends with ` =>`; a function header starts with `function ` and then the name |
| Printer.MethodHeaderParts | src/printer.ts:22-30 | the method header holds the non-falsy arguments joined by `, ` between parentheses, then `: T` exactly when a return type is given and nothing after `)` otherwise |
| Printer.HeaderKinds | src/printer.ts:26-33 | an arrow header is the method header plus ` =>`; a function header is `function ` plus the method header |
| Printer.HeaderDropsFalsy | src/printer.ts:23 | a falsy argument leaves the header unchanged |
| Printer.FnBodyLines | src/printer.ts:49-52 | the non-falsy statements, then `return e` exactly when a return expression is given |
| Printer.ReturnLineLast | src/printer.ts:49-52 | without a return expression the body is the statements alone; with one, `return e` is the last line |
| Printer.PrintFn | src/printer.ts:36-55 | the text opens with the indentation and closes with the indented brace |
| Printer.PrintFnParts | src/printer.ts:46-54 | the text is exactly the indented export prefix and header with ` {`, then the body lines joined by line breaks, then the indented closing brace |
| Printer.PrintString | src/printer.ts:59 | the text between single quotes, unescaped |
| Printer.PrintUnion | src/printer.ts:61 | starts with `\| `; a single member gives `\| ` followed by it |
| Printer.UnionLines | src/printer.ts:61 | every member on its own line, prefixed with `\| ` |
| Printer.PrintType | src/printer.ts:63-73 | starts with `export ` exactly when exported; then `type name = body` |
| Printer.PrintRecord | src/printer.ts:75-78 | opens with `{` and an indented new line; closes with a new line and `}`; between them exactly the non-falsy entries joined by `,\n` |
| Printer.RecordDropsFalsy | src/printer.ts:75-78 | a falsy entry anywhere leaves the record unchanged |
| Printer.PrintConst | src/printer.ts:80-88 | starts with `export ` exactly when exported; then `const name = value` |
| Printer.PrintFnCall | src/printer.ts:90-102 | starts with the callee and ends with `);` |
| Printer.CallJoinsArgs | src/printer.ts:99-101 | after the callee comes the type parameter, then `(`, then exactly the non-falsy arguments joined by `,` |
| Printer.CallDropsFalsy | src/printer.ts:101 | a falsy argument leaves the call unchanged |
| Printer.PrintNamedField | src/printer.ts:104-112 | the name, `?` exactly when not required, then `: type` |
| Writers.LiteralWriter | src/writers.ts:6 | writes exactly the literal |
| Writers.WriteTypeArgument | src/writers.ts:15-19 | writes `<T>` exactly when a type argument is given |
| Writers.WriteEach | src/writers.ts:21-23 | writes the arguments' texts one after another |
| Writers.CallWriter | src/writers.ts:8-25 | writes exactly the call text |
| Writers.CallText | src/writers.ts:13-25 | starts with the callee name and ends with `)` |
| Writers.CallTextParts | src/writers.ts:13-25 | the call text is the name, `<T>` only with a type argument, then the arguments between parentheses |
| Writers.DestructText | src/writers.ts:32-36 | `const { `, then exactly the properties joined by `, `, then ` } = target;` |
| Writers.DestructWriter | src/writers.ts:27-36 | writes exactly that text, whatever `multiline` is |
| Writers.PropertySignatures | src/writers.ts:55-61 | one signature per property, in declaration order; optional exactly when not listed in `required` |
| Writers.TreeWriter | src/writers.ts:42-82 | a union only for a string enum of two or more values, with one member per value; a reference only for a ref, never empty, and the resolved name whenever that is non-empty; an object without properties is `Record<string, unknown>`; any other keyword is written as it is, `date` included |
| Writers.EmptyRefIsUnknown | src/writers.ts:77-78 | an empty ref, or one ending in '/', renders the reference `unknown` |
| Writers.WriteType | src/writers.ts:43-48 | writes the type's text; an array writes its item, then `[]` |
| Writers.ArrayRendering | src/writers.ts:43-48 | for every item schema, an array is written as the item's type followed by `[]`, and has text exactly when the item has |
| Writers.NestedArrayOfString | src/writers.ts:43-48 | an array of arrays of string renders `string[][]` |
| Writers.EnumRendering | src/writers.ts:65-75 | one enum value renders as that value quoted alone; more values give a union of the quoted values in order |
| Writers.PlainString | src/writers.ts:65-81 | a string schema with no enum or an empty one renders `string` |
| Writers.OptionalExactlyWhenNotRequired | src/writers.ts:55-61 | each property keeps its name and schema type, is optional exactly when not required, and is optional whenever `required` is missing |
| Writers.CollectedNamesAreWrittenReferences | src/utils.ts:108-128 | the collected names are exactly the references the rendered type mentions, in order |
| Writers.CollectedNamesFromProperties | src/utils.ts:122-124 | the same for the properties of an object, concatenated in declaration order |
| Models.ModelStatements | src/generators/models-file.ts:19-29 | the headers, then one exported alias per schema in declaration order, named by its key and typed by the tree writer |
| Models.AliasPerSchema | src/generators/models-file.ts:21-27 | the alias names are exactly the schema keys in order, and every alias is exported |
| Models.GenerateModels | src/generators/models-file.ts:7-33 | `models.ts` under the root is created or overwritten with those statements; other files are unchanged |
| Services.FindFrom | src/generators/services-files.ts:29 | the first occurrence of the pattern at or after the start, or none |
| Services.ReplaceFirst | src/generators/services-files.ts:29 | without an occurrence the text is unchanged; otherwise only the first occurrence is replaced |
| Services.DataFromOperationId | src/generators/services-files.ts:18-32 | an absent id gives `Service` and `unknownName` |
| Services.OperationIdTwoParts | src/generators/services-files.ts:19-31 | an id of two `_`-free parts gives the owner with its first `Controller` replaced, and the method name |
| Services.OperationIdFallback | src/generators/services-files.ts:19-23 | an absent id, or one without exactly one `_`, gives `Service` and `unknownName` |
| Services.ReplaceControllerExample | src/generators/services-files.ts:29 | `UserController` becomes `UserService` |
| Services.OperationIdExample | src/generators/services-files.ts:18-32 | `UserController_getUser` gives `UserService` and `getUser` |
| Services.ServicePathInjective | src/generators/services-files.ts:97 | different service names without '/' get different file paths |
| Services.NewServiceFile | src/generators/services-files.ts:44-51 | the headers, then the `Configuration` import; no imports or classes yet |
| Services.GetOrCreateServiceFile | src/generators/services-files.ts:34-52 | an existing file is kept; a missing one is created new; nothing else changes |
| Services.GetOrCreateServiceClass | src/generators/services-files.ts:54-78 | an existing class is kept; a missing one is added exported, with a private `configuration` constructor parameter |
| Services.AddMethod | src/generators/services-files.ts:130-133 | the method is appended to the class, with no duplicate check; nothing else changes |
| Services.PotentialImports | src/generators/services-files.ts:117-120 | the names are non-empty, include the truthy body import and every non-empty response name, and come only from those |
| Services.ReturnTypeImported | src/generators/services-files.ts:111-128 | every model the `adapter` type argument mentions is among the names imported |
| Services.ParameterFields | src/generators/services-files.ts:145-149 | one field per parameter, in order, optional exactly when not required, typed by the sanitized schema type |
| Services.PropsFields | src/generators/services-files.ts:139-150 | the body argument first when there is one, optional exactly when not required; then the parameter fields |
| Services.MethodParams | src/generators/services-files.ts:114-153 | `props` exists exactly when there is a body or a parameter, and is typed by the fields |
| Services.MethodSignature | src/generators/services-files.ts:132-153 | the method is named by the operation, with `props` exactly when there is a body or a parameter |
| Services.PathParams | src/generators/services-files.ts:115 | the parameters located in the path, in order |
| Services.QueryParams | src/generators/services-files.ts:115 | the parameters located in the query, in order |
| Services.PathNames | src/generators/services-files.ts:163 | the names of the path parameters, in order |
| Services.PathDestructuredExactly | src/generators/services-files.ts:160-164 | path parameters are destructured exactly when some parameter is in the path |
| Services.ReturnTypeText | src/generators/services-files.ts:111-112 | the `adapter` type argument is `void` exactly when there is no response type, and the response schema's rendering otherwise |
| Services.MethodBody | src/generators/services-files.ts:154-187 | three or four statements, ending with a blank line and the `adapter` call returned with its type argument and object |
| Services.BuildMethod | src/generators/services-files.ts:132-188 | named by the operation, at most one parameter, three or four statements |
| Services.MethodBodyOrder | src/generators/services-files.ts:154-187 | destructure the configuration; destructure the path parameters exactly when there are any; a blank line; return the `adapter` call |
| Services.AdapterObject | src/generators/services-files.ts:170-184 | the keys are `url`, `method`, `queryParams`, `bodyArgs`, in that order |
| Services.AdapterLookup | src/generators/services-files.ts:170-184 | each of the four keys finds its own value |
| Services.UrlAndMethodText | src/generators/services-files.ts:171-174 | `url` is `${baseUrl}` plus the path template, in backticks; `method` is the upper-cased method in single quotes |
| Services.PathParameterUrl | src/generators/services-files.ts:171-174 | a path `prefix{name}` gives the url `` `${baseUrl}prefix${name}` ``; `get` gives `'GET'` |
| Services.QueryFieldShape | src/generators/services-files.ts:175-180 | `undefined` exactly when there is no query parameter; otherwise each query parameter, in order, maps to `props['name']` |
| Services.BodyFieldShape | src/generators/services-files.ts:181-183 | `props['contentName']` when there is a body, `undefined` otherwise |
| Services.RegisterOperation | src/generators/services-files.ts:99-133 | the file map becomes the registration function's result: file and class found or created, imports merged when there are any, method appended |
| Services.RegisterInFile | src/generators/services-files.ts:99-133 | the file map gains the target file, or keeps it, and nothing else; the class is in that file afterwards |
| Services.RegisterInFileEffect | src/generators/services-files.ts:99-109 | only the target file is added or changed; the class exists afterwards; an existing file keeps its statements, a new one starts with the headers and the `Configuration` import |
| Services.RegisterAppendsMethod | src/generators/services-files.ts:130-133 | the class gains exactly the new method at the end; a new class holds only it; other classes are unchanged |
| Services.RegisterMergesImports | src/generators/services-files.ts:117-128 | with nothing to import the imports are untouched; otherwise `../models` holds every needed name once, with the earlier names in front, and only names that were there before or are needed; the file's other import declarations are unchanged |
| Services.ServiceFromPathSpecification | src/generators/services-files.ts:80-191 | needs the method to be declared; the file map becomes the registration of that operation |
| Services.KnownOperationsExactly | src/generators/services-files.ts:16 | the known methods are exactly `post`, `get`, `patch`, `delete` and `put`; `head`, `options` and `trace` are unknown |
| Services.UnknownOperations | src/generators/services-files.ts:205-206 | a method key is reported exactly when it is not one of post, get, patch, delete, put |
| Services.RegisterPathMethods | src/generators/services-files.ts:212-221 | registers every method of the path in key order |
| Services.UnknownOperationsMessage | src/generators/services-files.ts:209 | `Unknown operation(s) found for `, the raw path, `: `, then the unknown methods joined by `,` |
| Services.RunWith | src/generators/services-files.ts:204-222 | an error is the message of some path that has an unknown method, naming that path and its unknown methods |
| Services.RunPaths | src/generators/services-files.ts:193-223 | ends without error exactly when no path has an unknown method |
| Services.GenerateServices | src/generators/services-files.ts:193-223 | the files and the error are those of the run over the paths in order |
| Services.RunSucceedsExactlyWhenAllKnown | src/generators/services-files.ts:204-210 | the run ends without error exactly when no path has an unknown method |
| Services.RunStopsAtFirstUnknown | src/generators/services-files.ts:204-210 | the first path with an unknown method stops the run with its message; none of its methods is registered; earlier paths stay registered |
| Services.RunRegistersInOrder | src/generators/services-files.ts:204-222 | with every method known, each further path is registered after the earlier ones |

## Left out

- src/generator.ts and src/cli.ts are not part of this model: fetching or requiring the document, `saveSync` and command-line parsing are I/O.
- src/generators/utils-file.ts is not part of this model: it is a fixed text with no logic.
- ts-morph layout: the text of `Writers.objectType`, `Writers.unionType`, `Writers.object` and `Writers.returnStatement` is not modelled. These become the `TypeText`, `Initializer` and `Stmt` constructors, and `Sink.Render` gives text only for types without object or union parts.
- `path.join` is modelled as joining with `/` without normalisation (`Models.ModelsPath`, `Services.ServicePath`).
- Services.ServicePathInjective: stated only for service names without '/'. A name holding '/' and `..` segments can reach another file once `path.join` normalises it, and that normalisation is not modelled.
- JavaScript lists integer-like object keys first; objects here keep plain insertion order.
- Fp.UpperChar: `toUpperCase` is modelled for ASCII letters only; other Unicode case mappings are left out.
- Utils.PathArgsToTemplateMatchesRegex: the regular-expression engine is replaced by a character scan. Its equality with the lookahead's meaning is proved for the line terminators `\n`, `\r`, U+2028 and U+2029.
- The `i` flag of the path regex has no effect on `{`, so it is not modelled.
- Parameters whose `in` is neither `path` nor `query` become fields of `props` but are neither destructured nor sent. The model does the same and adds no third partition.
- `groupBy`, `listToObject` and `values` are imported from src/fp.ts, but src/fp.ts does not define them. `Fp.GroupBy`, `Fp.ListToObject` and `Fp.Values` are given the behaviour their uses require: an order-preserving partition, an ordered record, and values in enumeration order.
- `printStringTemplate` is defined twice, at src/utils.ts:71 and src/printer.ts:57, with the same text. It is modelled once, as `Utils.PrintStringTemplate`.
- A schema's `type` keyword other than `object`, `array`, `string` and the empty keyword is kept as text (`Schema.Primitive`). The source treats `type: ""` as an absent type: it renders and imports the `$ref`'s resolved name (src/writers.ts:77-78, src/utils.ts:109-110), as `Schema.Ref` does. A `Primitive` whose keyword is `""` or one of those three cannot stand for a document the source reads the same way, and the model does not rule such a value out: `Writers.TreeWriter` writes `Primitive("")` as the empty text and collects no name from it.
- A schema with neither `type` nor `$ref` (for example `{}`, or one using `oneOf`) makes the source throw when it resolves the missing `$ref` (src/utils.ts:14). Such a schema has no value in the model.
- A thrown error becomes the `error` result of `Services.GenerateServices`; the files written before it stay, as they do in the shared ts-morph project.
- Printer.PrintFnHeader: its own contract states the name and the fixed text at each end. The parenthesised arguments joined by `, ` and the `: T` suffix, present exactly when a return type is given, are stated for the method header by `Printer.MethodHeaderParts`; `Printer.HeaderKinds` carries them to the other two kinds.
- Printer.PrintFn: its own contract states only the opening indentation and the closing brace, because the full text as an ensures makes every use of it costly to verify. `Printer.PrintFnParts` states the whole text in terms of the header and `Printer.FnBodyLines`.
- Printer.PrintFnCall: its own contract states the callee prefix and the `);` ending. The type parameter and the `,`-joined arguments are stated by `Printer.CallJoinsArgs`, and dropping falsy arguments by `Printer.CallDropsFalsy`.
- Services.DataFromOperationId: its own contract covers only the absent id. The two-part case and the fallback are the lemmas `Services.OperationIdTwoParts` and `Services.OperationIdFallback`.
- Fp.Split: its own contract states only that there is at least one piece. The pieces' meaning is `Fp.SplitInverse`.
