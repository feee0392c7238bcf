/**
 * The declaration sink the generator writes into: the parts of ts-morph's
 * `Project`, `SourceFile`, class and writer objects that the generator uses,
 * as plain records. How ts-morph lays the declarations out as text is not
 * part of this model.
 */
module Sink {
  import opened Wrappers
  import opened Fp

  /**
   * A type written into a declaration. `Literal` and `Reference` are written
   * verbatim (`Reference` is the resolved name of a `$ref` schema);
   * `ArrayOf` writes its item followed by `[]`; `ObjectType` and `Union`
   * stand for ts-morph's `Writers.objectType` and `Writers.unionType`.
   */
  datatype TypeText =
    | Literal(text: string)
    | Reference(name: string)
    | ArrayOf(item: TypeText)
    | ObjectType(properties: seq<PropertySignature>)
    | Union(members: seq<string>)

  /** A property signature `name?: type` of an object type. */
  datatype PropertySignature = PropertySignature(name: string, optional: bool, typ: TypeText)

  /**
   * The text of a type that contains no object type and no union (their
   * layout is ts-morph's), `None` otherwise.
   */
  function Render(t: TypeText): Option<string>
  {
    match t
    case Literal(s) => Some(s)
    case Reference(n) => Some(n)
    case ArrayOf(item) => if Render(item).Some? then Some(Render(item).value + "[]") else None
    case ObjectType(_) => None
    case Union(_) => None
  }

  /** The referenced schema names a type mentions, in writing order. */
  function RefsOf(t: TypeText): seq<string>
  {
    match t
    case Reference(n) => [n]
    case ArrayOf(item) => RefsOf(item)
    case ObjectType(ps) => RefsOfProperties(ps)
    case Literal(_) => []
    case Union(_) => []
  }

  function RefsOfProperties(ps: seq<PropertySignature>): seq<string>
  {
    if |ps| == 0 then [] else RefsOf(ps[0].typ) + RefsOfProperties(ps[1..])
  }

  /** A top-level statement of a source file. */
  datatype Statement =
    | Raw(text: string)
    | TypeAlias(exported: bool, name: string, typ: TypeText)

  /** An import declaration: its named imports, in order. */
  datatype ImportDecl = ImportDecl(typeOnly: bool, names: seq<string>)

  /** A constructor parameter property such as `private configuration: Configuration`. */
  datatype CtorParam = CtorParam(name: string, typ: string, isPrivate: bool)

  /** A method parameter. */
  datatype MethodParam = MethodParam(name: string, typ: TypeText)

  /** A property initializer of `Writers.object`: text, or a nested object of texts. */
  datatype Initializer = Text(text: string) | Nested(fields: Obj<string>)

  /** A statement of a method body. */
  datatype Stmt =
    | Code(text: string)
      /** `return callee<typeArg>(argument)` where the argument is an object literal. */
    | ReturnCall(callee: string, typeArg: TypeText, argument: Obj<Initializer>)
    | NewLine

  datatype MethodDecl = MethodDecl(name: string, parameters: seq<MethodParam>, statements: seq<Stmt>)

  datatype ClassDecl = ClassDecl(exported: bool, ctorParams: seq<CtorParam>, methods: seq<MethodDecl>)

  /** A source file: its statements, its import declarations by module, its classes by name. */
  datatype SourceFile = SourceFile(
    statements: seq<Statement>,
    imports: map<string, ImportDecl>,
    classes: map<string, ClassDecl>)

  /** The set of source files being generated, keyed by file path. */
  class Project {
    var files: map<string, SourceFile>

    constructor()
      ensures files == map[]
    {
      files := map[];
    }

    /** `createSourceFile(path, { statements }, { overwrite: true })`. */
    method CreateSourceFile(path: string, statements: seq<Statement>)
      modifies this
      ensures files == old(files)[path := SourceFile(statements, map[], map[])]
    {
      files := files[path := SourceFile(statements, map[], map[])];
    }
  }

  /** ts-morph's code writer: text appended step by step. */
  class CodeWriter {
    var text: string

    constructor()
      ensures text == ""
    {
      text := "";
    }

    method Write(s: string)
      modifies this
      ensures text == old(text) + s
    {
      text := text + s;
    }
  }
}
