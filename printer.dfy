/**
 * The string-template printers (src/printer.ts). Optional text arguments
 * are `Option<string>`; a missing or empty one counts as absent, as in the
 * source's truthiness tests. `printStringTemplate` is `Utils.PrintStringTemplate`.
 */
module Printer {
  import opened Wrappers
  import opened Fp

  /** The three shapes of function header. */
  datatype FnKind = Arrow | Method | Function

  /** `exportsStmt`. */
  function ExportsStmt(exports: bool): (r: string)
    ensures exports <==> r == "export "
    ensures !exports <==> r == ""
  {
    if exports then "export " else ""
  }

  /** `parametricExpr`: `<e>` for a present, non-empty expression, nothing otherwise. */
  function ParametricExpr(expr: Option<string>): (r: string)
    ensures r == "" <==> !Truthy(expr)
    ensures r != "" ==> |r| == |expr.value| + 2 && r[0] == '<' && r[|r| - 1] == '>' && r[1..|r| - 1] == expr.value
  {
    if Truthy(expr) then "<" + expr.value + ">" else ""
  }

  /** `: T` for a present, non-empty return type, nothing otherwise. */
  function ReturnStr(returnType: Option<string>): (r: string)
    ensures r == "" <==> !Truthy(returnType)
    ensures r != "" ==> |r| == |returnType.value| + 2 && r[..2] == ": " && r[2..] == returnType.value
  {
    if Truthy(returnType) then ": " + returnType.value else ""
  }

  /**
   * `printFnHeader`: name, type parameter and the non-falsy arguments joined
   * by `, `, then the return type; an arrow adds ` =>`, a function is
   * prefixed with `function `.
   */
  function PrintFnHeader(
    args: seq<Option<string>>,
    name: string := "",
    parametricArg: Option<string> := None,
    returnType: Option<string> := None,
    kind: FnKind := Arrow): (r: string)
    ensures kind != Function ==> |r| >= |name| + 2 && r[..|name|] == name
    ensures kind == Arrow ==> |r| >= |name| + 5 && r[|r| - 3..] == " =>"
    ensures kind == Function ==> |r| >= |name| + 11 && r[..9] == "function " && r[9..9 + |name|] == name
  {
    var signature := name + ParametricExpr(parametricArg) + "(" + Join(RejectFalsy(args), ", ") + ")" + ReturnStr(returnType);
    assert signature[..|name|] == name;
    match kind
    case Arrow => signature + " =>"
    case Method => signature
    case Function => "function " + signature
  }

  /** The lines of a function body: the non-falsy statements, then `return e` when a return expression is given. */
  function FnBodyLines(bodyStmts: Option<seq<Option<string>>>, returnExpr: Option<string>): (r: seq<string>)
    ensures r == RejectFalsy(bodyStmts.GetOr([])) + (if Truthy(returnExpr) then ["return " + returnExpr.value] else [])
  {
    var returnStmt := if Truthy(returnExpr) then Some("return " + returnExpr.value) else None;
    RejectFalsyAppend(bodyStmts.GetOr([]), [returnStmt]);
    RejectFalsy(bodyStmts.GetOr([]) + [returnStmt])
  }

  /** `printFn`: the header, then the body lines one per line, in braces. */
  function PrintFn(
    args: seq<Option<string>>,
    name: string := "",
    parametricArg: Option<string> := None,
    returnType: Option<string> := None,
    returnExpr: Option<string> := None,
    bodyStmts: Option<seq<Option<string>>> := None,
    exported: bool := false,
    kind: FnKind := Arrow): (r: string)
    ensures |r| >= 6 && r[..2] == "  " && r[|r| - 4..] == "\n  }"
  {
    var head := "  " + ExportsStmt(exported) + PrintFnHeader(args, name, parametricArg, returnType, kind);
    var tail := " {\n    " + Join(FnBodyLines(bodyStmts, returnExpr), "\n") + "\n  }";
    var r := head + tail;
    assert r[..2] == head[..2];
    assert r[|r| - 4..] == tail[|tail| - 4..];
    r
  }

  /** `printString`: the text between single quotes, not escaped. */
  function PrintString(str: string): (r: string)
    ensures |r| == |str| + 2 && r[0] == '\'' && r[|r| - 1] == '\'' && r[1..|r| - 1] == str
  {
    "'" + str + "'"
  }

  /** `printUnion`. */
  function PrintUnion(sums: seq<string>): (r: string)
    ensures |r| >= 2 && r[..2] == "| "
    ensures |sums| == 1 ==> r == "| " + sums[0]
  {
    "| " + Join(sums, "\n| ")
  }

  /** `printType`: `type name = body`, prefixed with `export ` exactly when exported. */
  function PrintType(name: string, body: string, exported: bool := false): (r: string)
    ensures exported <==> |r| >= 7 && r[..7] == "export "
    ensures r[|ExportsStmt(exported)|..] == "type " + name + " = " + body
  {
    var head, tail := ExportsStmt(exported), "type " + name + " = " + body;
    var r := head + tail;
    assert r[|head|..] == tail;
    assert exported ==> r[..7] == head;
    assert !exported ==> r == tail && (|r| >= 7 ==> r[..7][0] == 't');
    r
  }

  /** `printRecord`: the non-falsy entries joined by `,\n`, in braces. */
  function PrintRecord(entries: seq<Option<string>>): (r: string)
    ensures |r| >= 6 && r[..4] == "{\n  " && r[|r| - 2..] == "\n}"
    ensures r[4..|r| - 2] == Join(RejectFalsy(entries), ",\n")
  {
    var joined := Join(RejectFalsy(entries), ",\n");
    var r := "{\n  " + joined + "\n}";
    assert r[4..|r| - 2] == joined;
    r
  }

  /** `printConst`: `const name = value`, prefixed with `export ` exactly when exported. */
  function PrintConst(name: string, value: string, exported: bool := false): (r: string)
    ensures exported <==> |r| >= 7 && r[..7] == "export "
    ensures r[|ExportsStmt(exported)|..] == "const " + name + " = " + value
  {
    var head, tail := ExportsStmt(exported), "const " + name + " = " + value;
    var r := head + tail;
    assert r[|head|..] == tail;
    assert exported ==> r[..7] == head;
    assert !exported ==> r == tail && (|r| >= 7 ==> r[..7][0] == 'c');
    r
  }

  /** `printFnCall`: the non-falsy arguments joined by `,`, ended by `;`. */
  function PrintFnCall(call: string, args: seq<Option<string>>, parametricArg: Option<string> := None): (r: string)
    ensures |r| >= |call| + 3 && r[..|call|] == call && r[|r| - 2..] == ");"
  {
    call + ParametricExpr(parametricArg) + "(" + Join(RejectFalsy(args), ",") + ");"
  }

  /** `printNamedField`: `name: type`, or `name?: type` exactly when not required. */
  function PrintNamedField(name: string, typ: string, required: bool := true): (r: string)
    ensures |r| == |name| + (if required then 0 else 1) + 2 + |typ|
    ensures r[..|name|] == name
    ensures !required <==> r[|name|] == '?'
    ensures r[|r| - |typ| - 2..] == ": " + typ
  {
    name + (if required then "" else "?") + ": " + typ
  }

  // ---------------------------------------------------------------------------
  // Lemmas

  /** The three header kinds share one signature: an arrow adds ` =>`, a function adds the keyword. */
  lemma HeaderKinds(args: seq<Option<string>>, name: string, parametricArg: Option<string>, returnType: Option<string>)
    ensures PrintFnHeader(args, name, parametricArg, returnType, Arrow)
         == PrintFnHeader(args, name, parametricArg, returnType, Method) + " =>"
    ensures PrintFnHeader(args, name, parametricArg, returnType, Function)
         == "function " + PrintFnHeader(args, name, parametricArg, returnType, Method)
  {
  }

  /**
   * A method header is the name and type parameter, the non-falsy arguments
   * joined by `, ` in parentheses, then `: T` exactly when a return type is
   * given.
   */
  lemma MethodHeaderParts(args: seq<Option<string>>, name: string, parametricArg: Option<string>, returnType: Option<string>)
    ensures var r := PrintFnHeader(args, name, parametricArg, returnType, Method);
      var open := |name| + |ParametricExpr(parametricArg)|;
      var close := |r| - |ReturnStr(returnType)| - 1;
      && open < close && r[open] == '(' && r[close] == ')'
      && r[open + 1..close] == Join(RejectFalsy(args), ", ")
      && (Truthy(returnType) ==> r[close + 1..] == ": " + returnType.value)
      && (!Truthy(returnType) ==> close == |r| - 1)
  {
    var front := name + ParametricExpr(parametricArg);
    var argsStr := Join(RejectFalsy(args), ", ");
    var returnStr := ReturnStr(returnType);
    var r := front + "(" + argsStr + ")" + returnStr;
    assert PrintFnHeader(args, name, parametricArg, returnType, Method) == r;
    assert r[|front|] == '(' && r[|r| - |returnStr| - 1] == ')';
    assert r[|front| + 1..|r| - |returnStr| - 1] == argsStr;
    assert r[|r| - |returnStr|..] == returnStr;
  }

  /** A falsy argument leaves the header unchanged: falsy arguments are dropped. */
  lemma HeaderDropsFalsy(args: seq<Option<string>>, falsy: Option<string>, name: string, parametricArg: Option<string>, returnType: Option<string>, kind: FnKind)
    requires !Truthy(falsy)
    ensures PrintFnHeader(args + [falsy], name, parametricArg, returnType, kind)
         == PrintFnHeader(args, name, parametricArg, returnType, kind)
  {
    RejectFalsyAppend(args, [falsy]);
    assert [falsy][1..] == [];
    assert RejectFalsy([falsy]) == [];
    assert RejectFalsy(args + [falsy]) == RejectFalsy(args);
  }

  /**
   * A call is the callee, then the type parameter, then the non-falsy
   * arguments joined by `,` between parentheses, then `;`.
   */
  lemma CallJoinsArgs(call: string, args: seq<Option<string>>, parametricArg: Option<string>)
    ensures var r := PrintFnCall(call, args, parametricArg);
      var k := |call| + |ParametricExpr(parametricArg)|;
      && k + 3 <= |r| && r[|call|..k] == ParametricExpr(parametricArg) && r[k] == '('
      && r[k + 1..|r| - 2] == Join(RejectFalsy(args), ",")
  {
    var front := call + ParametricExpr(parametricArg);
    var joined := Join(RejectFalsy(args), ",");
    var r := front + "(" + joined + ");";
    assert PrintFnCall(call, args, parametricArg) == r;
    assert r[|call|..|front|] == ParametricExpr(parametricArg);
    assert r[|front| + 1..|r| - 2] == joined;
  }

  /**
   * A function is its indented header and ` {`, then the body lines joined
   * by line breaks, then the indented closing brace.
   */
  lemma PrintFnParts(
    args: seq<Option<string>>, name: string, parametricArg: Option<string>, returnType: Option<string>,
    returnExpr: Option<string>, bodyStmts: Option<seq<Option<string>>>, exported: bool, kind: FnKind)
    ensures var r := PrintFn(args, name, parametricArg, returnType, returnExpr, bodyStmts, exported, kind);
      var head := "  " + ExportsStmt(exported) + PrintFnHeader(args, name, parametricArg, returnType, kind) + " {\n    ";
      var body := Join(FnBodyLines(bodyStmts, returnExpr), "\n");
      && |r| == |head| + |body| + 4
      && r[..|head|] == head
      && r[|head|..|r| - 4] == body
  {
    var header := "  " + ExportsStmt(exported) + PrintFnHeader(args, name, parametricArg, returnType, kind);
    var body := Join(FnBodyLines(bodyStmts, returnExpr), "\n");
    FramedParts(header, " {\n    ", body, "\n  }");
  }

  /** A falsy argument leaves a call unchanged. */
  lemma CallDropsFalsy(call: string, args: seq<Option<string>>, falsy: Option<string>, parametricArg: Option<string>)
    requires !Truthy(falsy)
    ensures PrintFnCall(call, args + [falsy], parametricArg) == PrintFnCall(call, args, parametricArg)
  {
    RejectFalsyAppend(args, [falsy]);
    assert [falsy][1..] == [];
    assert RejectFalsy([falsy]) == [];
    assert RejectFalsy(args + [falsy]) == RejectFalsy(args);
  }

  /** A falsy entry leaves a record unchanged, wherever it stands. */
  lemma RecordDropsFalsy(before: seq<Option<string>>, after: seq<Option<string>>, falsy: Option<string>)
    requires !Truthy(falsy)
    ensures PrintRecord(before + [falsy] + after) == PrintRecord(before + after)
  {
    RejectFalsyAppend(before + [falsy], after);
    RejectFalsyAppend(before, [falsy]);
    RejectFalsyAppend(before, after);
    assert [falsy][1..] == [];
    assert RejectFalsy([falsy]) == [];
    assert RejectFalsy(before + [falsy] + after) == RejectFalsy(before + after);
  }

  /** Without a return expression the body is the statements alone; with one, `return e` is the last line. */
  lemma ReturnLineLast(bodyStmts: Option<seq<Option<string>>>, returnExpr: Option<string>)
    ensures !Truthy(returnExpr) ==> FnBodyLines(bodyStmts, returnExpr) == RejectFalsy(bodyStmts.GetOr([]))
    ensures Truthy(returnExpr) ==>
      var lines := FnBodyLines(bodyStmts, returnExpr);
      |lines| > 0 && lines[|lines| - 1] == "return " + returnExpr.value
  {
  }

  /** `printUnion` puts `| ` before every member and a line break between members. */
  lemma {:induction false} UnionLines(sums: seq<string>)
    requires |sums| > 0
    ensures PrintUnion(sums) == Join(seq(|sums|, i requires 0 <= i < |sums| => "| " + sums[i]), "\n")
  {
    if |sums| > 1 {
      UnionLines(sums[1..]);
      var lines := seq(|sums|, i requires 0 <= i < |sums| => "| " + sums[i]);
      var rest := seq(|sums| - 1, i requires 0 <= i < |sums| - 1 => "| " + sums[1..][i]);
      assert lines[1..] == rest;
      calc {
        PrintUnion(sums);
        "| " + (sums[0] + "\n| " + Join(sums[1..], "\n| "));
        ("| " + sums[0]) + "\n" + ("| " + Join(sums[1..], "\n| "));
        lines[0] + "\n" + Join(rest, "\n");
      }
    }
  }
}
