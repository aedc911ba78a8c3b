/** The `ToCode` implementations of every node kind, as one family of
    mutually recursive functions from a node and a `Language` to a
    `Result<string>`.

    Nothing here reads or changes state: each call is a function of the tree,
    the language and the two renderers the source leaves undefined
    (`Externals`). A failure anywhere below a node is the node's failure, the
    first one in the source's evaluation order (left to right through each
    `format!`), so no call ever yields partial text.

    Where the source renders a tree it has just built (the `main` function of
    `RunScope`, the `WithSemi(FunctionCall(..))` of `Println`, the Python
    chain's `Scope` of strings), the model writes the resulting text with the
    same printers (`Lines`, `FunctionText`, `ReturnText`) that the general
    case uses; the modules Utils, Print and Blocks prove that this equals
    rendering the built tree. */
module ToCode {
  import opened Ast
  import opened Text

  // ---------------------------------------------------------------------
  // Printers: the text of a construct from the texts of its parts

  /** `IndentType::into` (src/models/mod.rs:49-56). */
  function IndentString(t: IndentType): (r: string)
    ensures t.Tab? ==> r == "\t"
    ensures t.Space? ==> |r| == t.width && forall i :: 0 <= i < |r| ==> r[i] == ' '
  {
    match t
    case Tab => "\t"
    case Space(n) => RepeatChar(' ', n); Repeat(" ", n)
  }

  /** What a scope writes before each child (src/models/scope.rs:36-49):
      nothing for the brace languages, and for Python a newline and the indent
      unit repeated once per level of the current depth. */
  function LinePrefix(l: Language): (r: string)
    ensures l.IsBrace() ==> r == ""
    ensures l.Python? ==> |r| == 1 + l.Depth() * |IndentString(l.indentType)| && r[0] == '\n'
  {
    if l.Python? then "\n" + Repeat(IndentString(l.indentType), l.Depth()) else ""
  }

  /** A scope from the texts of its children (src/models/scope.rs:33-52). */
  function Lines(l: Language, parts: seq<string>): string
  {
    if |parts| == 0 then "" else LinePrefix(l) + parts[0] + Lines(l, parts[1..])
  }

  /** `Some(t)` becomes ":t" and `None` nothing: the type annotation of
      parameters and variables. */
  function TypeSuffix(typ: Option<string>): (r: string)
    ensures typ.None? <==> r == ""
  {
    match typ
    case Some(t) => ":" + t
    case None => ""
  }

  /** The text of a function from the texts of its parts
      (src/models/mod.rs:236-317). `prefix` is what precedes the keyword in
      Rust and TypeScript; `ret` is the return type when one is emitted. */
  function FunctionText(l: Language, prefix: string, name: string, params: string,
                        ret: Option<string>, body: string): string
  {
    match l
    case Rust =>
      prefix + "fn " + name + "(" + params + ")"
      + (match ret case Some(r) => "->" + r case None => "")
      + "{" + body + "}"
    case TypeScript =>
      prefix + "function " + name + "(" + params + ")"
      + (match ret case Some(r) => ":" + r case None => ":void")
      + "{" + body + "}"
    case Cpp =>
      (match ret case Some(r) => r case None => "void")
      + " " + name + "(" + params + "){" + body + "}"
    case Python(_, _, _) =>
      "def " + name + "(" + params + ")"
      + (match ret case Some(r) => "->" + r case None => "")
      + ":" + body
  }

  /** `Return` (src/models/statement.rs:128-142) from the text of its expression. */
  function ReturnText(l: Language, e: Option<string>): string
  {
    match e
    case Some(x) => if l.IsBrace() then "return " + x + ";" else "return " + x
    case None => if l.IsBrace() then "return;" else "return"
  }

  /** `Value` (src/models/mod.rs:23-36). */
  function ValueText(v: BoolValue, l: Language): string
  {
    match v
    case True => if l.IsBrace() then "true" else "True"
    case False => if l.IsBrace() then "false" else "False"
  }

  /** `Comment` (src/models/statement.rs:154-173). A C++ doc comment is a
      regular one and a Python doc comment a multi-line one. */
  function CommentText(k: CommentKind, content: string, l: Language): string
    decreases k.Doc?
  {
    match k
    case Regular => if l.IsBrace() then "//" + content + "\n" else "#" + content
    case MultiLine => if l.IsBrace() then "/*" + content + "*/" else "\"\"\"" + content + "\"\"\""
    case Doc =>
      match l
      case Rust => "///" + content + "\n"
      case TypeScript => "/**" + content + "*/"
      case Cpp => CommentText(Regular, content, l)
      case Python(_, _, _) => CommentText(MultiLine, content, l)
  }

  /** `Visibility::to_code` (src/models/mod.rs:323-337); `unimplemented!()`
      for C++ and Python. */
  function RenderVisibility(v: Visibility, l: Language): (r: Result<string>)
    ensures r.Success? <==> l.Rust? || l.TypeScript?
    ensures l.Rust? ==> r == Success(if v.Public? then "pub" else "")
    ensures l.TypeScript? ==> r == Success(if v.Public? then "export" else "")
  {
    match l
    case Rust => Success(if v.Public? then "pub" else "")
    case TypeScript => Success(if v.Public? then "export" else "")
    case _ => Fail(Unsupported("Visibility"))
  }

  /** The operator of each arithmetic node (src/models/operation.rs:13, 27,
      41, 55). `Divide` writes "*" exactly as the source does. */
  function ArithToken(op: ArithOp): string
  {
    match op
    case Add => "+"
    case Subtract => "-"
    case Multiply => "*"
    case Divide => "*"
  }

  function ArithName(op: ArithOp): string
  {
    match op
    case Add => "Add"
    case Subtract => "Subtract"
    case Multiply => "Multiply"
    case Divide => "Divide"
  }

  /** The operator passed to `new_comparator!` for each comparator
      (src/models/condition.rs:21-24). */
  function ComparisonToken(c: Comparison): string
  {
    match c
    case GreaterThan => ">"
    case LessThan => "<"
    case LessThanOrEq => "<="
    case GreaterThanOrEq => ">="
  }

  /** The text a `new_comparator!` instance writes (src/macros.rs:10-15). */
  function ComparatorText(left: string, operator: string, right: string): string
  {
    "(" + left + operator + right + ")"
  }

  /** `Import::to_code` (src/models/import.rs:12-38). */
  function RenderImport(i: Import, l: Language): Result<string>
  {
    match i
    case Module(loc) =>
      (match l
       case TypeScript => Success("import \"" + loc + "\";")
       case Rust => Success("mod " + loc + ";")
       case Cpp => Success("#include \"" + loc + "\"\n")
       case Python(_, _, _) => Success("import " + loc + "\n"))
    case Members(loc, members) =>
      (match l
       case TypeScript => Success("import {" + Join(members, ",") + "} from \"" + loc + "\";")
       case Rust => Success("use " + loc + "::{" + Join(members, ",") + "};")
       case Python(_, _, _) => Success("from " + loc + " import " + Join(members, ",") + "\n")
       case Cpp => Fail(Unsupported("Import::Members")))
  }

  /** The message `Option::unwrap` panics with on `None`. */
  const UnwrapNone := "called `Option::unwrap()` on a `None` value"

  // ---------------------------------------------------------------------
  // Rendering

  /** `ToCode::to_code` of every node. */
  function Render(n: Node, l: Language, ext: Externals): Result<string>
  {
    match n
    case Text(s) => Success(s)
    case Int(i) => Success(Decimal(i))
    case Value(v) => Success(ValueText(v, l))
    case List(items) =>
      var parts :- RenderAll(items, l, ext);
      Success(Join(parts, ""))
    case ScopeNode(s) => RenderScope(s, l, ext)
    case ParamNode(p) => RenderParam(p, l, ext)
    case FunctionNode(f) => RenderFunction(f, l, ext)
    case VisibilityNode(v) => RenderVisibility(v, l)
    case ConditionalNode(c) => RenderConditional(c, l, ext)
    case IfNode(b) => RenderIf(b, l, ext)
    case ElseNode(e) => RenderElse(e, l, ext)
    case VariableInitNode(v) => RenderVariableInit(v, l, ext)
    case AssignVariable(target, value) =>
      var x :- Render(target, l, ext);
      var y :- Render(value, l, ext);
      Success(if l.IsBrace() then x + "=" + y + ";" else x + "=" + y)
    case Return(None) => Success(ReturnText(l, None))
    case Return(Some(e)) =>
      var x :- Render(e, l, ext);
      Success(ReturnText(l, Some(x)))
    case Comment(k, content) => Success(CommentText(k, content, l))
    case Arith(op, a, b) =>
      if l.Rust? || l.TypeScript? then
        var x :- Render(a, l, ext);
        var y :- Render(b, l, ext);
        Success(x + ArithToken(op) + y)
      else
        Fail(Unsupported(ArithName(op)))
    case Equal(a, b) =>
      var x :- Render(a, l, ext);
      var y :- Render(b, l, ext);
      Success("(" + x + (if l.TypeScript? || l.Cpp? then "===" else "==") + y + ")")
    case And(a, b) =>
      var x :- Render(a, l, ext);
      var y :- Render(b, l, ext);
      Success("(" + x + (if l.Python? then " and " else "&&") + y + ")")
    case Or(a, b) =>
      var x :- Render(a, l, ext);
      var y :- Render(b, l, ext);
      Success("(" + x + (if l.Python? then " or " else "||") + y + ")")
    case Compare(c, a, b) =>
      var x :- Render(a, l, ext);
      var y :- Render(b, l, ext);
      Success(ComparatorText(x, ComparisonToken(c), y))
    case ImportNode(i) => RenderImport(i, l)
    case WithSemi(inner) =>
      var x :- Render(inner, l, ext);
      Success(x + ";")
    case RunScope(s) =>
      var body :- RenderScope(s, l, ext);
      (match l
       case Cpp =>
         var ret :- ext.integer(l);
         Success(FunctionText(l, "", "main", "", Some(ret),
                              Lines(l, [body, ReturnText(l, Some(Decimal(1)))])))
       case Rust => Success(FunctionText(l, "", "main", "", None, Lines(l, [body])))
       case _ => Success(body))
    case Println(v) =>
      var item :- Render(v, l, ext);
      (match l
       case Python(_, _, _) => ext.call("print", [Text(item)], l)
       case TypeScript =>
         var call :- ext.call("console.log", [Text(item)], l);
         Success(call + ";")
       case Rust =>
         var call :- ext.call("println!", [Text("\"{:?}\""), Text(item)], l);
         Success(call + ";")
       case Cpp => Success("cout << " + item + ";"))
    case Ternary(c, t, e) =>
      (match l
       case Rust =>
         var x :- Render(c, l, ext);
         var y :- Render(t, l, ext);
         var z :- Render(e, l, ext);
         Success("if " + x + "{" + y + "}else{" + z + "}")
       case TypeScript =>
         var x :- Render(c, l, ext);
         var y :- Render(t, l, ext);
         var z :- Render(e, l, ext);
         Success(x + "?" + y + ":" + z)
       case _ => Fail(Unsupported("Ternary")))
    case Raw(s) => Success(s)
    case Number =>
      (match l
       case Rust => Success("i32")
       case TypeScript => Success("number")
       case _ => Fail(Unsupported("Number")))
    case Boolean =>
      (match l
       case Rust => Success("bool")
       case TypeScript => Success("boolean")
       case _ => Fail(Unsupported("Boolean")))
    case Integer => ext.integer(l)
    case FunctionCall(callee, args) => ext.call(callee, args, l)
  }

  /** Renders each node in order; fails with the first failure. */
  function RenderAll(ns: seq<Node>, l: Language, ext: Externals): (r: Result<seq<string>>)
    ensures r.Success? <==> forall i :: 0 <= i < |ns| ==> Render(ns[i], l, ext).Success?
    ensures r.Success? ==> |r.value| == |ns|
    ensures r.Success? ==> forall i :: 0 <= i < |ns| ==> r.value[i] == Render(ns[i], l, ext).value
  {
    if |ns| == 0 then Success([])
    else
      var head :- Render(ns[0], l, ext);
      var rest :- RenderAll(ns[1..], l, ext);
      Success([head] + rest)
  }

  /** `Scope::to_code` (src/models/scope.rs:32-53). The scope's own
      `indentLevel` is not read: the depth comes from the language. */
  function RenderScope(s: Scope, l: Language, ext: Externals): Result<string>
  {
    var parts :- RenderAll(s.children, l, ext);
    Success(Lines(l, parts))
  }

  function RenderOptional(o: Option<Node>, l: Language, ext: Externals): Result<Option<string>>
  {
    match o
    case Some(n) =>
      var x :- Render(n, l, ext);
      Success(Some(x))
    case None => Success(None)
  }

  /** `Parameter::to_code` (src/models/mod.rs:197-231). */
  function RenderParam(p: Parameter, l: Language, ext: Externals): Result<string>
  {
    match l
    case Rust =>
      var name :- Render(p.name, l, ext);
      (match p.typ
       case None => Fail(MissingType(UnwrapNone))
       case Some(t) =>
         var typ :- Render(t, l, ext);
         Success(name + ":" + typ))
    case TypeScript =>
      var name :- Render(p.name, l, ext);
      (match p.typ
       case Some(t) =>
         var typ :- Render(t, l, ext);
         Success(name + ":" + typ)
       case None => Success(name + ":any"))
    case Cpp =>
      (match p.typ
       case Some(t) =>
         var typ :- Render(t, l, ext);
         var name :- Render(p.name, l, ext);
         Success(typ + " " + name)
       case None => Fail(MissingType("A type is required for parameters in C++.")))
    case Python(includeTypes, _, _) =>
      var name :- Render(p.name, l, ext);
      if includeTypes && p.typ.Some? then
        var typ :- Render(p.typ.value, l, ext);
        Success(name + ":" + typ)
      else
        Success(name)
  }

  /** Renders each parameter in order with `Parameter::to_code`. */
  function RenderParams(ps: seq<Parameter>, l: Language, ext: Externals): (r: Result<seq<string>>)
    ensures r.Success? <==> forall i :: 0 <= i < |ps| ==> RenderParam(ps[i], l, ext).Success?
    ensures r.Success? ==> |r.value| == |ps|
    ensures r.Success? ==> forall i :: 0 <= i < |ps| ==> r.value[i] == RenderParam(ps[i], l, ext).value
  {
    if |ps| == 0 then Success([])
    else
      var head :- RenderParam(ps[0], l, ext);
      var rest :- RenderParams(ps[1..], l, ext);
      Success([head] + rest)
  }

  /** One parameter of a C++ function, which `Function::to_code` writes
      itself instead of calling `Parameter::to_code`; only the panic message
      differs (src/models/mod.rs:286-289). */
  function RenderCppParam(p: Parameter, l: Language, ext: Externals): Result<string>
  {
    match p.typ
    case None => Fail(MissingType("A parameter type is required"))
    case Some(t) =>
      var typ :- Render(t, l, ext);
      var name :- Render(p.name, l, ext);
      Success(typ + " " + name)
  }

  /** The parameter list of a C++ function (src/models/mod.rs:284-291). */
  function RenderCppParams(ps: seq<Parameter>, l: Language, ext: Externals): (r: Result<seq<string>>)
    ensures r.Success? <==> forall i :: 0 <= i < |ps| ==> RenderCppParam(ps[i], l, ext).Success?
    ensures r.Success? ==> |r.value| == |ps|
    ensures r.Success? ==> forall i :: 0 <= i < |ps| ==> r.value[i] == RenderCppParam(ps[i], l, ext).value
  {
    if |ps| == 0 then Success([])
    else
      var head :- RenderCppParam(ps[0], l, ext);
      var rest :- RenderCppParams(ps[1..], l, ext);
      Success([head] + rest)
  }

  /** `Function::to_code` (src/models/mod.rs:233-321). */
  function RenderFunction(f: Function, l: Language, ext: Externals): Result<string>
  {
    match l
    case Rust =>
      var keyword :- RenderVisibility(f.visibility, l);
      var params :- RenderParams(f.params, l, ext);
      var ret :- RenderOptional(f.returnType, l, ext);
      var body :- RenderScope(f.scope, l, ext);
      Success(FunctionText(l, keyword + (if f.visibility.Public? then " " else ""),
                           f.name, Join(params, ","), ret, body))
    case TypeScript =>
      var keyword :- RenderVisibility(f.visibility, l);
      var params :- RenderParams(f.params, l, ext);
      var ret :- RenderOptional(f.returnType, l, ext);
      var body :- RenderScope(f.scope, l, ext);
      Success(FunctionText(l, keyword + (if f.visibility.Public? then " " else ""),
                           f.name, Join(params, ","), ret, body))
    case Cpp =>
      var ret :- RenderOptional(f.returnType, l, ext);
      var params :- RenderCppParams(f.params, l, ext);
      var body :- RenderScope(f.scope, l, ext);
      Success(FunctionText(l, "", f.name, Join(params, ","), ret, body))
    case Python(includeTypes, _, _) =>
      var params :- RenderParams(f.params, l, ext);
      var ret :- if includeTypes then RenderOptional(f.returnType, l, ext) else Success(None);
      var body :- RenderScope(f.scope, l.Deeper(), ext);
      Success(FunctionText(l, "", f.name, Join(params, ","), ret, body))
  }

  /** `If::to_code` (src/models/block.rs:88-120). */
  function RenderIf(b: If, l: Language, ext: Externals): Result<string>
  {
    match l
    case Rust =>
      var cond :- Render(b.condition, l, ext);
      var body :- RenderScope(b.scope, l, ext);
      Success("if " + cond + "{" + body + "}")
    case TypeScript =>
      var cond :- Render(b.condition, l, ext);
      var body :- RenderScope(b.scope, l, ext);
      Success("if(" + cond + "){" + body + "}")
    case Cpp =>
      var cond :- Render(b.condition, l, ext);
      var body :- RenderScope(b.scope, l, ext);
      Success("if(" + cond + "){" + body + "}")
    case Python(_, _, _) =>
      var cond :- Render(b.condition, l, ext);
      var body :- RenderScope(b.scope, l.Deeper(), ext);
      Success("if " + cond + ":" + body)
  }

  /** `Else::to_code` (src/models/block.rs:148-173). */
  function RenderElse(e: Else, l: Language, ext: Externals): Result<string>
  {
    if l.IsBrace() then
      var body :- RenderScope(e.scope, l, ext);
      Success("else{" + body + "}")
    else
      var body :- RenderScope(e.scope, l.Deeper(), ext);
      Success("else:" + body)
  }

  /** The middle branches of a chain: each `If` rendered and preceded by
      `prefix` ("else " or "el"), all concatenated in order. */
  function RenderElseIfs(ms: seq<If>, prefix: string, l: Language, ext: Externals): Result<string>
  {
    if |ms| == 0 then Success("")
    else
      var head :- RenderIf(ms[0], l, ext);
      var rest :- RenderElseIfs(ms[1..], prefix, l, ext);
      Success(prefix + head + rest)
  }

  /** `ConditionalBuilder::to_code` (src/models/block.rs:29-70). In Python
      the three pieces become the children of a fresh scope, rendered at the
      current depth. */
  function RenderConditional(c: Conditional, l: Language, ext: Externals): Result<string>
  {
    if l.IsBrace() then
      var first :- RenderIf(c.first, l, ext);
      var middle :- RenderElseIfs(c.middle, "else ", l, ext);
      var last :- (match c.last
                   case Some(e) =>
                     var body :- RenderScope(e.scope, l, ext);
                     Success("else{" + body + "}")
                   case None => Success(""));
      Success(first + middle + last + (if l.Rust? then ";" else ""))
    else
      var first :- RenderIf(c.first, l, ext);
      var middle :- RenderElseIfs(c.middle, "el", l, ext);
      var last :- (match c.last
                   case Some(e) => RenderElse(e, l, ext)
                   case None => Success(""));
      Success(Lines(l, [first, middle, last]))
  }

  /** `VariableInit::to_code` (src/models/statement.rs:44-106). */
  function RenderVariableInit(v: VariableInit, l: Language, ext: Externals): Result<string>
  {
    match l
    case Rust =>
      var name :- Render(v.name, l, ext);
      var typ :- RenderOptional(v.typ, l, ext);
      var value :- Render(v.value, l, ext);
      Success("let " + (if v.mutable == Some(true) then "mut " else "")
              + name + TypeSuffix(typ) + "=" + value + ";")
    case Cpp =>
      (match v.typ
       case None => Fail(MissingType(UnwrapNone))
       case Some(t) =>
         var typ :- Render(t, l, ext);
         var name :- Render(v.name, l, ext);
         var value :- Render(v.value, l, ext);
         Success(typ + " " + name + "=" + value + ";"))
    case Python(includeTypes, _, _) =>
      var name :- Render(v.name, l, ext);
      var typ :- if includeTypes then RenderOptional(v.typ, l, ext) else Success(None);
      var value :- Render(v.value, l, ext);
      Success(name + TypeSuffix(typ) + "=" + value)
    case TypeScript =>
      var name :- Render(v.name, l, ext);
      var typ :- RenderOptional(v.typ, l, ext);
      var value :- Render(v.value, l, ext);
      Success((if v.mutable == Some(true) then "let" else "const") + " "
              + name + TypeSuffix(typ) + "=" + value + ";")
  }
}
