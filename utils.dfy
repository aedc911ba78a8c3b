/** src/models/utils.rs: `WithSemi`, and `RunScope`, which wraps a scope in
    the program entry point each language needs. */
module Utils {
  import opened Ast
  import opened Text
  import opened ToCode
  import Scopes
  import Functions

  /** `WithSemi` writes its node's text and one ";" in every language, and
      fails exactly when the node does. */
  lemma WithSemiForm(n: Node, l: Language, ext: Externals)
    ensures Render(WithSemi(n), l, ext).Success? <==> Render(n, l, ext).Success?
    ensures Render(WithSemi(n), l, ext).Success? ==>
              Render(WithSemi(n), l, ext).value == Render(n, l, ext).value + ";"
  {
  }

  /** The C++ entry point the source builds (src/models/utils.rs:18-26): a
      private function "main" returning `Integer` whose body is the scope's
      text followed by `return 1`. */
  function CppMain(body: string): Functions.FunctionBuilder
  {
    Functions.NewBuilder()
      .Name("main")
      .WithReturnType(Integer)
      .WithScope(Scopes.With(Scopes.With(Scopes.Default(), Text(body)), Return(Some(Int(1)))))
  }

  /** The Rust entry point (src/models/utils.rs:27-30): a private function
      "main" with no return type whose body is the scope's text. */
  function RustMain(body: string): Functions.FunctionBuilder
  {
    Functions.NewBuilder().Name("main").WithScope(Scopes.With(Scopes.Default(), Text(body)))
  }

  /** The function the C++ builder chain yields. */
  lemma CppMainParts(body: string)
    ensures CppMain(body).Build() ==
            Some(Function("main", Some(Integer), Private, [], Scope([Text(body), Return(Some(Int(1)))], None)))
  {
    var s := Scopes.With(Scopes.With(Scopes.Default(), Text(body)), Return(Some(Int(1))));
    assert s.children == [Text(body), Return(Some(Int(1)))];
  }

  /** The body of the C++ `main`: the scope's text, then `return 1;`. */
  lemma CppMainBody(body: string, ext: Externals)
    ensures RenderScope(Scope([Text(body), Return(Some(Int(1)))], None), Cpp, ext)
            == Success(Lines(Cpp, [body, ReturnText(Cpp, Some(Decimal(1)))]))
  {
    var children := [Text(body), Return(Some(Int(1)))];
    assert Render(Text(body), Cpp, ext) == Success(body);
    assert Render(Return(Some(Int(1))), Cpp, ext) == Success(ReturnText(Cpp, Some(Decimal(1))));
    assert RenderAll(children, Cpp, ext).Success?;
    assert RenderAll(children, Cpp, ext).value == [body, ReturnText(Cpp, Some(Decimal(1)))];
  }

  /** The C++ `main` renders as the function printer applied to what
      `Integer` writes and the body. */
  lemma CppMainFunction(body: string, ext: Externals)
    ensures var f := Function("main", Some(Integer), Private, [], Scope([Text(body), Return(Some(Int(1)))], None));
            RenderFunction(f, Cpp, ext) ==
            (var ret :- ext.integer(Cpp);
             Success(FunctionText(Cpp, "", "main", "", Some(ret), Lines(Cpp, [body, ReturnText(Cpp, Some(Decimal(1)))]))))
  {
    CppMainBody(body, ext);
    assert Join([], ",") == "";
    assert RenderOptional(Some(Integer), Cpp, ext) == (var ret :- ext.integer(Cpp); Success(Some(ret)));
  }

  /** The printed C++ `main` around a body. */
  lemma CppMainText(t: string, body: string)
    ensures FunctionText(Cpp, "", "main", "", Some(t), Lines(Cpp, [body, ReturnText(Cpp, Some(Decimal(1)))]))
            == t + " main(){" + body + "return 1;}"
  {
    assert Decimal(1) == "1";
    assert ReturnText(Cpp, Some("1")) == "return 1;";
    var lines := [body, "return 1;"];
    Scopes.BraceLinesConcat(Cpp, lines);
    assert lines[1..] == ["return 1;"] && lines[1..][1..] == [];
    assert Concat(lines[1..]) == "return 1;" + Concat([]);
    assert Concat(lines) == body + ("return 1;" + "");
    assert " " + "main" + "(" + "" + "){" == " main(){";
  }

  /** A C++ run scope with a body that renders is the `main` text around it. */
  lemma RunScopeCppUnfold(s: Scope, ext: Externals)
    requires RenderScope(s, Cpp, ext).Success?
    ensures var body := RenderScope(s, Cpp, ext).value;
            Render(RunScope(s), Cpp, ext) ==
            (var ret :- ext.integer(Cpp);
             Success(FunctionText(Cpp, "", "main", "", Some(ret), Lines(Cpp, [body, ReturnText(Cpp, Some(Decimal(1)))]))))
  {
  }

  /** In C++ a run scope is exactly the rendering of the function the source
      builds around the scope's text. */
  lemma RunScopeCpp(s: Scope, ext: Externals)
    requires RenderScope(s, Cpp, ext).Success?
    ensures var body := RenderScope(s, Cpp, ext).value;
            CppMain(body).Build().Some?
            && Render(RunScope(s), Cpp, ext) == RenderFunction(CppMain(body).Build().value, Cpp, ext)
  {
    var body := RenderScope(s, Cpp, ext).value;
    CppMainParts(body);
    CppMainFunction(body, ext);
    RunScopeCppUnfold(s, ext);
  }

  /** A C++ run scope fails with the scope's failure when the scope fails. */
  lemma RunScopeCppFails(s: Scope, ext: Externals)
    requires RenderScope(s, Cpp, ext).Fail?
    ensures Render(RunScope(s), Cpp, ext) == Fail(RenderScope(s, Cpp, ext).failure)
  {
  }

  /** The C++ text: "T main(){", the body, "return 1;}", where T is what
      `Integer` writes. */
  lemma RunScopeCppText(s: Scope, ext: Externals)
    requires RenderScope(s, Cpp, ext).Success? && ext.integer(Cpp).Success?
    ensures Render(RunScope(s), Cpp, ext) ==
            Success(ext.integer(Cpp).value + " main(){" + RenderScope(s, Cpp, ext).value + "return 1;}")
  {
    CppMainText(ext.integer(Cpp).value, RenderScope(s, Cpp, ext).value);
  }

  /** The function the Rust builder chain yields. */
  lemma RustMainParts(body: string)
    ensures RustMain(body).Build() == Some(Function("main", None, Private, [], Scope([Text(body)], None)))
  {
  }

  /** The body of the Rust `main`: the scope's text alone. */
  lemma RustMainBody(body: string, ext: Externals)
    ensures RenderScope(Scope([Text(body)], None), Rust, ext) == Success(Lines(Rust, [body]))
  {
    assert Render(Text(body), Rust, ext) == Success(body);
    assert RenderAll([Text(body)], Rust, ext).Success?;
    assert RenderAll([Text(body)], Rust, ext).value == [body];
  }

  /** The Rust `main` renders as the function printer applied to the body,
      with no "pub" and no return type. */
  lemma RustMainFunction(body: string, ext: Externals)
    ensures RenderFunction(Function("main", None, Private, [], Scope([Text(body)], None)), Rust, ext) ==
            Success(FunctionText(Rust, "", "main", "", None, Lines(Rust, [body])))
  {
    RustMainBody(body, ext);
    assert Join([], ",") == "";
    assert "" + "" == "";
  }

  /** The printed Rust `main` around a body. */
  lemma RustMainText(body: string)
    ensures FunctionText(Rust, "", "main", "", None, Lines(Rust, [body])) == "fn main(){" + body + "}"
  {
    Scopes.BraceLinesConcat(Rust, [body]);
    assert [body][1..] == [];
    assert Concat([body]) == body + "";
    assert "" + "fn " + "main" + "(" + "" + ")" + "" + "{" == "fn main(){";
  }

  /** A Rust run scope with a body that renders is the `main` text around it. */
  lemma RunScopeRustUnfold(s: Scope, ext: Externals)
    requires RenderScope(s, Rust, ext).Success?
    ensures Render(RunScope(s), Rust, ext) ==
            Success(FunctionText(Rust, "", "main", "", None, Lines(Rust, [RenderScope(s, Rust, ext).value])))
  {
  }

  /** In Rust a run scope is exactly the rendering of the function the
      source builds around the scope's text. */
  lemma RunScopeRust(s: Scope, ext: Externals)
    requires RenderScope(s, Rust, ext).Success?
    ensures var body := RenderScope(s, Rust, ext).value;
            RustMain(body).Build().Some?
            && Render(RunScope(s), Rust, ext) == RenderFunction(RustMain(body).Build().value, Rust, ext)
  {
    var body := RenderScope(s, Rust, ext).value;
    RustMainParts(body);
    RustMainFunction(body, ext);
    RunScopeRustUnfold(s, ext);
  }

  /** A Rust run scope fails with the scope's failure when the scope fails. */
  lemma RunScopeRustFails(s: Scope, ext: Externals)
    requires RenderScope(s, Rust, ext).Fail?
    ensures Render(RunScope(s), Rust, ext) == Fail(RenderScope(s, Rust, ext).failure)
  {
  }

  /** The Rust text: "fn main(){", the body, "}", with no "pub", no return
      type and no trailing return. */
  lemma RunScopeRustText(s: Scope, ext: Externals)
    requires RenderScope(s, Rust, ext).Success?
    ensures Render(RunScope(s), Rust, ext) == Success("fn main(){" + RenderScope(s, Rust, ext).value + "}")
  {
    RustMainText(RenderScope(s, Rust, ext).value);
  }

  /** TypeScript and Python need no entry point: the scope's own text. */
  lemma RunScopePassThrough(s: Scope, l: Language, ext: Externals)
    requires l.TypeScript? || l.Python?
    ensures Render(RunScope(s), l, ext) == RenderScope(s, l, ext)
  {
  }
}
