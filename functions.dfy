/** src/models/mod.rs: literals, `Vec<T>`, `FunctionBuilder`, and the
    rendering of parameters and functions. */
module Functions {
  import opened Ast
  import opened Text
  import opened ToCode
  import Scopes

  /** `FunctionBuilder` (src/models/mod.rs:135-195). Each setter consumes the
      builder and returns it with one field set, as the source's `mut self`
      methods do. */
  datatype FunctionBuilder = FunctionBuilder(
    name: Option<string>,
    returnType: Option<Node>,
    visibility: Option<Visibility>,
    params: seq<Parameter>,
    scope: Option<Scope>)
  {
    /** `FunctionBuilder::name`: sets the name and nothing else. */
    function Name(n: string): (b: FunctionBuilder)
      ensures b.name == Some(n)
      ensures b.returnType == returnType && b.visibility == visibility
      ensures b.params == params && b.scope == scope
    {
      this.(name := Some(n))
    }

    /** `with_return_type`: sets the return type and nothing else. */
    function WithReturnType(t: Node): (b: FunctionBuilder)
      ensures b.returnType == Some(t)
      ensures b.name == name && b.visibility == visibility
      ensures b.params == params && b.scope == scope
    {
      this.(returnType := Some(t))
    }

    /** `with_visibility`: sets the visibility and nothing else. */
    function WithVisibility(v: Visibility): (b: FunctionBuilder)
      ensures b.visibility == Some(v)
      ensures b.name == name && b.returnType == returnType
      ensures b.params == params && b.scope == scope
    {
      this.(visibility := Some(v))
    }

    /** `with_param`: the parameter goes after those already given. */
    function WithParam(p: Parameter): (b: FunctionBuilder)
      ensures |b.params| == |params| + 1
      ensures b.params[..|params|] == params && b.params[|params|] == p
      ensures b.name == name && b.returnType == returnType
      ensures b.visibility == visibility && b.scope == scope
    {
      this.(params := params + [p])
    }

    /** `with_scope`: sets the body and nothing else. */
    function WithScope(s: Scope): (b: FunctionBuilder)
      ensures b.scope == Some(s)
      ensures b.name == name && b.returnType == returnType
      ensures b.visibility == visibility && b.params == params
    {
      this.(scope := Some(s))
    }

    /** `build` (src/models/mod.rs:186-194): nothing unless both a name and
      a body were given; an unset visibility is private. */
    function Build(): (r: Option<Function>)
      ensures r.None? <==> name.None? || scope.None?
      ensures r.Some? ==> Some(r.value.name) == name && Some(r.value.scope) == scope
      ensures r.Some? ==> r.value.returnType == returnType && r.value.params == params
      ensures r.Some? ==> r.value.visibility == (if visibility.Some? then visibility.value else Private)
    {
      if name.None? || scope.None? then None
      else Some(Function(name.value, returnType, visibility.GetOr(Private), params, scope.value))
    }
  }

  /** `FunctionBuilder::new` (src/models/mod.rs:144-154): nothing set yet. */
  function NewBuilder(): (b: FunctionBuilder)
    ensures b.name.None? && b.returnType.None? && b.visibility.None?
    ensures b.params == [] && b.scope.None?
  {
    FunctionBuilder(None, None, None, [], None)
  }

  /** A run of `with_param` calls, one per element of `ps`, in order. */
  function WithParams(b: FunctionBuilder, ps: seq<Parameter>): FunctionBuilder
    decreases |ps|
  {
    if |ps| == 0 then b else WithParams(b.WithParam(ps[0]), ps[1..])
  }

  /** Parameters keep the order of the `with_param` calls, after those
      already present, and no other field changes. */
  lemma {:induction false} WithParamsKeepsOrder(b: FunctionBuilder, ps: seq<Parameter>)
    ensures WithParams(b, ps).params == b.params + ps
    ensures WithParams(b, ps).(params := b.params) == b
    decreases |ps|
  {
    if |ps| > 0 {
      WithParamsKeepsOrder(b.WithParam(ps[0]), ps[1..]);
      assert b.params + [ps[0]] + ps[1..] == b.params + ps;
    }
  }

  /** Without a visibility the built function is private; a visibility given
      at any point is kept. */
  lemma BuildVisibility(name: string, s: Scope, v: Visibility)
    ensures NewBuilder().Name(name).WithScope(s).Build().value.visibility == Private
    ensures NewBuilder().WithVisibility(v).Name(name).WithScope(s).Build().value.visibility == v
  {
  }

  // ---------------------------------------------------------------------
  // Literals and lists (src/models/mod.rs:23-36, 75-115, 339-343)

  /** `Value` is lower-case in the brace languages and capitalised in Python. */
  lemma ValueForms(l: Language, ext: Externals)
    ensures Render(Value(True), l, ext) == Success(if l.Python? then "True" else "true")
    ensures Render(Value(False), l, ext) == Success(if l.Python? then "False" else "false")
  {
  }

  predicate IsLiteral(n: Node) { n.Text? || n.Int? }

  /** Integers render as their decimal numeral and strings as themselves, in
      every language; the numeral reads back as the integer. */
  lemma LiteralForms(i: int, s: string, l: Language, ext: Externals)
    ensures Render(Int(i), l, ext).Success? && ParseDecimal(Render(Int(i), l, ext).value) == i
    ensures Render(Text(s), l, ext) == Success(s)
  {
    DecimalRoundTrip(i);
  }

  /** A `Vec` renders as the concatenation of its items' texts, in order,
      with no separator. */
  lemma ListIsConcatenation(items: seq<Node>, l: Language, ext: Externals)
    ensures Render(List(items), l, ext) ==
            (var parts :- RenderAll(items, l, ext); Success(Concat(parts)))
  {
    var all := RenderAll(items, l, ext);
    if all.Success? {
      JoinEmptySeparator(all.value);
    }
  }

  /** A `Vec` of literals renders the same in every language. */
  lemma LiteralListLanguageIndependent(items: seq<Node>, l1: Language, l2: Language, ext: Externals)
    requires forall i :: 0 <= i < |items| ==> IsLiteral(items[i])
    ensures Render(List(items), l1, ext).Success?
    ensures Render(List(items), l1, ext) == Render(List(items), l2, ext)
  {
    var a, b := RenderAll(items, l1, ext), RenderAll(items, l2, ext);
    assert a.Success? && b.Success?;
    assert a.value == b.value;
  }

  // ---------------------------------------------------------------------
  // Parameters (src/models/mod.rs:197-231)

  /** What each language writes for a parameter whose name renders, and
      whose type renders where the language writes it: "name:type" in Rust
      and TypeScript ("name:any" when untyped in TypeScript), "type name"
      in C++, and in Python the name followed by ":type" only when types
      are included and one is given; without types Python never reads the
      type. */
  lemma ParamForms(p: Parameter, l: Language, ext: Externals)
    requires Render(p.name, l, ext).Success?
    requires p.typ.Some? && l.WritesTypes() ==> Render(p.typ.value, l, ext).Success?
    ensures var name := Render(p.name, l, ext).value;
            var typ := if p.typ.Some? && l.WritesTypes() then Some(Render(p.typ.value, l, ext).value) else None;
            RenderParam(p, l, ext) ==
              match l
              case Rust => if typ.Some? then Success(name + ":" + typ.value) else Fail(MissingType(UnwrapNone))
              case TypeScript => Success(if typ.Some? then name + ":" + typ.value else name + ":any")
              case Cpp =>
                if typ.Some? then Success(typ.value + " " + name)
                else Fail(MissingType("A type is required for parameters in C++."))
              case Python(includeTypes, _, _) =>
                Success(if includeTypes && typ.Some? then name + ":" + typ.value else name)
  {
  }

  /** A parameter without a type is an error in Rust and in C++, never a
      substituted token. */
  lemma UntypedParamFails(p: Parameter, l: Language, ext: Externals)
    requires p.typ.None?
    requires l.Rust? || l.Cpp?
    ensures RenderParam(p, l, ext).Fail?
    ensures l.Cpp? ==> RenderParam(p, l, ext).failure.MissingType?
    ensures l.Rust? && Render(p.name, l, ext).Success? ==> RenderParam(p, l, ext).failure.MissingType?
  {
  }

  /** The parameter list a C++ function writes itself agrees with
      `Parameter::to_code`: the same texts, and a failure exactly when it
      fails (only the panic message differs). */
  lemma CppParamsAgree(ps: seq<Parameter>, ext: Externals)
    ensures RenderCppParams(ps, Cpp, ext).Success? <==> RenderParams(ps, Cpp, ext).Success?
    ensures RenderCppParams(ps, Cpp, ext).Success? ==>
              RenderCppParams(ps, Cpp, ext).value == RenderParams(ps, Cpp, ext).value
  {
    var a, b := RenderCppParams(ps, Cpp, ext), RenderParams(ps, Cpp, ext);
    forall i | 0 <= i < |ps|
      ensures RenderCppParam(ps[i], Cpp, ext).Success? == RenderParam(ps[i], Cpp, ext).Success?
      ensures RenderCppParam(ps[i], Cpp, ext).Success? ==>
                RenderCppParam(ps[i], Cpp, ext).value == RenderParam(ps[i], Cpp, ext).value
    {
    }
    if a.Success? {
      assert a.value == b.value;
    }
  }

  // ---------------------------------------------------------------------
  // Functions (src/models/mod.rs:233-321)

  /** The four function shapes, for a function whose written parts all
      render (Python without types never reads the return type):
      Rust writes "pub " only when public and "->T" only with a return type;
      TypeScript writes "export " only when public and ":void" without a
      return type; C++ writes "void" without one and ignores visibility;
      Python writes "->T" only when types are included, and its body one
      level deeper than the current depth. */
  lemma FunctionForms(f: Function, l: Language, ext: Externals)
    requires (if l.Cpp? then RenderCppParams(f.params, l, ext) else RenderParams(f.params, l, ext)).Success?
    requires f.returnType.Some? && l.WritesTypes() ==> Render(f.returnType.value, l, ext).Success?
    requires RenderScope(f.scope, if l.Python? then l.Deeper() else l, ext).Success?
    ensures var params := Join((if l.Cpp? then RenderCppParams(f.params, l, ext)
                                else RenderParams(f.params, l, ext)).value, ",");
            var ret := if f.returnType.Some? && l.WritesTypes()
                       then Some(Render(f.returnType.value, l, ext).value) else None;
            var body := RenderScope(f.scope, if l.Python? then l.Deeper() else l, ext).value;
            RenderFunction(f, l, ext) == Success(
              match l
              case Rust =>
                (if f.visibility.Public? then "pub " else "") + "fn " + f.name + "(" + params + ")"
                + (if ret.Some? then "->" + ret.value else "") + "{" + body + "}"
              case TypeScript =>
                (if f.visibility.Public? then "export " else "") + "function " + f.name + "(" + params + ")"
                + (if ret.Some? then ":" + ret.value else ":void") + "{" + body + "}"
              case Cpp =>
                ret.GetOr("void") + " " + f.name + "(" + params + "){" + body + "}"
              case Python(includeTypes, _, _) =>
                "def " + f.name + "(" + params + ")"
                + (if includeTypes && ret.Some? then "->" + ret.value else "") + ":" + body)
  {
    assert "pub" + " " == "pub " && "export" + " " == "export ";
    assert forall s: string :: "" + "" + s == s;
  }

  /** The parameter list that `Function::to_code` renders in language `l`. */
  function FunctionParams(f: Function, l: Language, ext: Externals): Result<seq<string>>
  {
    if l.Cpp? then RenderCppParams(f.params, l, ext) else RenderParams(f.params, l, ext)
  }

  /** A function renders exactly when every part it writes renders: the
      visibility in Rust and TypeScript, the parameters (the C++ list in
      C++), the return type except in Python without types, and the body,
      one level deeper in Python. */
  lemma FunctionFailures(f: Function, l: Language, ext: Externals)
    ensures RenderFunction(f, l, ext).Success? <==>
            ((l.Rust? || l.TypeScript?) ==> RenderVisibility(f.visibility, l).Success?)
            && FunctionParams(f, l, ext).Success?
            && (l.WritesTypes() ==> RenderOptional(f.returnType, l, ext).Success?)
            && RenderScope(f.scope, if l.Python? then l.Deeper() else l, ext).Success?
  {
    match l
    case Rust =>
    case TypeScript =>
    case Cpp =>
    case Python(includeTypes, _, _) =>
  }

  /** The first parameter that fails decides the failure of the list. */
  lemma {:induction false} ParamsFirstFailure(ps: seq<Parameter>, i: nat, l: Language, ext: Externals)
    requires i < |ps|
    requires forall j :: 0 <= j < i ==> RenderParam(ps[j], l, ext).Success?
    requires RenderParam(ps[i], l, ext).Fail?
    ensures RenderParams(ps, l, ext) == Fail(RenderParam(ps[i], l, ext).failure)
  {
    if i > 0 {
      assert RenderParam(ps[0], l, ext).Success?;
      ParamsFirstFailure(ps[1..], i - 1, l, ext);
    }
  }

  /** The same for the parameter list a C++ function writes itself. */
  lemma {:induction false} CppParamsFirstFailure(ps: seq<Parameter>, i: nat, l: Language, ext: Externals)
    requires i < |ps|
    requires forall j :: 0 <= j < i ==> RenderCppParam(ps[j], l, ext).Success?
    requires RenderCppParam(ps[i], l, ext).Fail?
    ensures RenderCppParams(ps, l, ext) == Fail(RenderCppParam(ps[i], l, ext).failure)
  {
    if i > 0 {
      assert RenderCppParam(ps[0], l, ext).Success?;
      CppParamsFirstFailure(ps[1..], i - 1, l, ext);
    }
  }

  /** In Rust and C++ a parameter without a type makes the whole function
      fail with a missing-type error, once everything written before it
      renders: in Rust the parameters before it and its name (the
      `unwrap` of src/models/mod.rs:205), in C++ the return type and the
      parameters before it (the `expect` of src/models/mod.rs:288). */
  lemma UntypedParamFailsFunction(f: Function, i: nat, l: Language, ext: Externals)
    requires l.Rust? || l.Cpp?
    requires i < |f.params| && f.params[i].typ.None?
    requires l.Rust? ==> forall j :: 0 <= j < i ==> RenderParam(f.params[j], l, ext).Success?
    requires l.Rust? ==> Render(f.params[i].name, l, ext).Success?
    requires l.Cpp? ==> forall j :: 0 <= j < i ==> RenderCppParam(f.params[j], l, ext).Success?
    requires l.Cpp? ==> RenderOptional(f.returnType, l, ext).Success?
    ensures RenderFunction(f, l, ext) ==
            Fail(MissingType(if l.Rust? then UnwrapNone else "A parameter type is required"))
  {
    if l.Rust? {
      ParamsFirstFailure(f.params, i, l, ext);
    } else {
      CppParamsFirstFailure(f.params, i, l, ext);
    }
  }

  /** C++ and Python functions do not depend on the visibility. */
  lemma VisibilityIgnored(f: Function, v: Visibility, l: Language, ext: Externals)
    requires l.Cpp? || l.Python?
    ensures RenderFunction(f.(visibility := v), l, ext) == RenderFunction(f, l, ext)
  {
  }

  /** `Visibility::to_code` has no rule for C++ and Python. */
  lemma VisibilityUnsupported(v: Visibility, l: Language, ext: Externals)
    requires l.Cpp? || l.Python?
    ensures Render(VisibilityNode(v), l, ext) == Fail(Unsupported("Visibility"))
  {
  }

  /** The function of the source's own test (src/lib.rs:19-27). */
  function AddFunction(): Function
  {
    NewBuilder()
      .WithVisibility(Public)
      .Name("add")
      .WithReturnType(Number)
      .WithParam(Parameter(Text("a"), Some(Number)))
      .WithParam(Parameter(Text("b"), Some(Number)))
      .WithScope(Scopes.With(Scopes.Default(), Return(Some(Arith(Add, Text("a"), Text("b"))))))
      .Build().value
  }

  /** The number token of a brace language that has one. */
  function NumberToken(l: Language): string
  {
    if l.Rust? then "i32" else "number"
  }

  /** The parameters the test's builder chain adds, in order. */
  function AddParamList(): seq<Parameter>
  {
    [Parameter(Text("a"), Some(Number)), Parameter(Text("b"), Some(Number))]
  }

  /** The body the test's builder chain sets: one `return a+b`. */
  function AddBody(): Scope
  {
    Scope([Return(Some(Arith(Add, Text("a"), Text("b"))))], None)
  }

  /** The builder chain yields a public function "add" returning `Number`
      with the two parameters and the one-statement body. */
  lemma AddFunctionParts()
    ensures AddFunction() == Function("add", Some(Number), Public, AddParamList(), AddBody())
  {
  }

  /** A parameter of the test's function: "name:T". */
  lemma AddParam(name: string, l: Language, ext: Externals)
    requires l.Rust? || l.TypeScript?
    ensures RenderParam(Parameter(Text(name), Some(Number)), l, ext) == Success(name + ":" + NumberToken(l))
  {
  }

  /** The parameters of the test's function: "a:T" and "b:T". */
  lemma AddParams(l: Language, ext: Externals)
    requires l.Rust? || l.TypeScript?
    ensures RenderParams(AddParamList(), l, ext) == Success(["a:" + NumberToken(l), "b:" + NumberToken(l)])
  {
    var ps := AddParamList();
    AddParam("a", l, ext);
    AddParam("b", l, ext);
    assert "a" + ":" == "a:" && "b" + ":" == "b:";
    assert RenderParams(ps, l, ext).value == ["a:" + NumberToken(l), "b:" + NumberToken(l)];
  }

  /** The sum "a+b" the test's functions compute, in a language with arithmetic. */
  lemma SumRenders(l: Language, ext: Externals)
    requires l.Rust? || l.TypeScript?
    ensures Render(Arith(Add, Text("a"), Text("b")), l, ext) == Success("a+b")
  {
    assert "a" + "+" + "b" == "a+b";
  }

  /** The statement of the test's function: "return a+b;". */
  lemma AddReturnRenders(l: Language, ext: Externals)
    requires l.Rust? || l.TypeScript?
    ensures Render(Return(Some(Arith(Add, Text("a"), Text("b")))), l, ext) == Success("return a+b;")
  {
    SumRenders(l, ext);
    assert "return " + "a+b" + ";" == "return a+b;";
  }

  /** The body of the test's function: "return a+b;". */
  lemma AddBodyRenders(l: Language, ext: Externals)
    requires l.Rust? || l.TypeScript?
    ensures RenderScope(AddBody(), l, ext) == Success("return a+b;")
  {
    AddReturnRenders(l, ext);
    Scopes.BraceLinesConcat(l, ["return a+b;"]);
    assert "return a+b;" + "" == "return a+b;";
  }

  /** The test's function in Rust or TypeScript is the function printer
      applied to "pub " or "export ", "add", the parameters, the number
      token and the body. */
  lemma AddFunctionPrinted(l: Language, ext: Externals)
    requires l.Rust? || l.TypeScript?
    ensures RenderFunction(Function("add", Some(Number), Public, AddParamList(), AddBody()), l, ext) ==
            Success(FunctionText(l, if l.Rust? then "pub " else "export ", "add",
                                 Join(["a:" + NumberToken(l), "b:" + NumberToken(l)], ","),
                                 Some(NumberToken(l)), "return a+b;"))
  {
    AddParams(l, ext);
    AddBodyRenders(l, ext);
    assert RenderOptional(Some(Number), l, ext) == Success(Some(NumberToken(l)));
    assert "pub" + " " == "pub " && "export" + " " == "export ";
  }

  /** "a:T,b:T" for the number token T. */
  lemma AddParamsText(t: string)
    ensures Join(["a:" + t, "b:" + t], ",") == "a:" + t + ",b:" + t
  {
    assert ["a:" + t, "b:" + t][1..] == ["b:" + t];
    assert "a:" + t + ("," + "b:" + t) == "a:" + t + ",b:" + t;
  }

  /** The printer's text of a Rust or TypeScript function with a return type. */
  lemma BraceFunctionText(l: Language, prefix: string, name: string, params: string, ret: string, body: string)
    requires l.Rust? || l.TypeScript?
    ensures FunctionText(l, prefix, name, params, Some(ret), body) ==
            prefix + (if l.Rust? then "fn " else "function ") + name + "(" + params + ")"
            + (if l.Rust? then "->" else ":") + ret + "{" + body + "}"
  {
  }

  /** "a:i32,b:i32" */
  lemma AddParamsRust()
    ensures Join(["a:" + NumberToken(Rust), "b:" + NumberToken(Rust)], ",") == "a:i32,b:i32"
  {
    AddParamsText("i32");
    assert "a:" + "i32" + ",b:" + "i32" == "a:i32,b:i32";
  }

  /** "a:number,b:number" */
  lemma AddParamsTypeScript()
    ensures Join(["a:" + NumberToken(TypeScript), "b:" + NumberToken(TypeScript)], ",") == "a:number,b:number"
  {
    AddParamsText("number");
    assert "a:" + "number" + ",b:" + "number" == "a:number,b:number";
  }

  /** "pub fn add(a:i32,b:i32)" */
  lemma RustAddHead()
    ensures "pub " + "fn " + "add" + "(" + "a:i32,b:i32" + ")" == "pub fn add(a:i32,b:i32)"
  {
    assert "pub " + "fn " == "pub fn ";
    assert "pub fn " + "add" + "(" == "pub fn add(";
    assert "pub fn add(" + "a:i32,b:i32" + ")" == "pub fn add(a:i32,b:i32)";
  }

  /** "->i32{return a+b;}" */
  lemma RustAddTail(head: string)
    ensures head + "->" + "i32" + "{" + "return a+b;" + "}" == head + "->i32{return a+b;}"
  {
    assert "->" + "i32" + "{" == "->i32{";
    assert "->i32{" + "return a+b;" + "}" == "->i32{return a+b;}";
  }

  lemma RustAddText()
    ensures FunctionText(Rust, "pub ", "add", "a:i32,b:i32", Some("i32"), "return a+b;")
            == "pub fn add(a:i32,b:i32)->i32{return a+b;}"
  {
    BraceFunctionText(Rust, "pub ", "add", "a:i32,b:i32", "i32", "return a+b;");
    RustAddHead();
    RustAddTail("pub fn add(a:i32,b:i32)");
    assert "pub fn add(a:i32,b:i32)" + "->i32{return a+b;}" == "pub fn add(a:i32,b:i32)->i32{return a+b;}";
  }

  /** "export function add(a:number,b:number)" */
  lemma TypeScriptAddHead()
    ensures "export " + "function " + "add" + "(" + "a:number,b:number" + ")"
            == "export function add(a:number,b:number)"
  {
    assert "export " + "function " == "export function ";
    assert "export function " + "add" + "(" == "export function add(";
    assert "export function add(" + "a:number,b:number" + ")" == "export function add(a:number,b:number)";
  }

  /** ":number{return a+b;}" */
  lemma TypeScriptAddTail(head: string)
    ensures head + ":" + "number" + "{" + "return a+b;" + "}" == head + ":number{return a+b;}"
  {
    assert ":" + "number" + "{" == ":number{";
    assert ":number{" + "return a+b;" + "}" == ":number{return a+b;}";
  }

  lemma TypeScriptAddText()
    ensures FunctionText(TypeScript, "export ", "add", "a:number,b:number", Some("number"), "return a+b;")
            == "export function add(a:number,b:number):number{return a+b;}"
  {
    BraceFunctionText(TypeScript, "export ", "add", "a:number,b:number", "number", "return a+b;");
    TypeScriptAddHead();
    TypeScriptAddTail("export function add(a:number,b:number)");
    assert "export function add(a:number,b:number)" + ":number{return a+b;}"
        == "export function add(a:number,b:number):number{return a+b;}";
  }

  /** The Rust string the source's test expects for its function (src/lib.rs:30-33). */
  lemma AddFunctionRendersRust(ext: Externals)
    ensures RenderFunction(AddFunction(), Rust, ext) == Success("pub fn add(a:i32,b:i32)->i32{return a+b;}")
  {
    AddFunctionParts();
    AddFunctionPrinted(Rust, ext);
    AddParamsRust();
    RustAddText();
  }

  /** The TypeScript string the source's test expects for its function
      (src/lib.rs:35-38). */
  lemma AddFunctionRendersTypeScript(ext: Externals)
    ensures RenderFunction(AddFunction(), TypeScript, ext) ==
            Success("export function add(a:number,b:number):number{return a+b;}")
  {
    AddFunctionParts();
    AddFunctionPrinted(TypeScript, ext);
    AddParamsTypeScript();
    TypeScriptAddText();
  }
}
