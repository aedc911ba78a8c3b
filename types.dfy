/** src/models/types.rs: the `Number` and `Boolean` type tokens. */
module Types {
  import opened Ast
  import opened ToCode

  /** `Number` is "i32" in Rust and "number" in TypeScript; `Boolean` is
      "bool" and "boolean"; C++ and Python have no rule for either. */
  lemma TypeTokens(l: Language, ext: Externals)
    ensures Render(Number, l, ext) ==
            (match l
             case Rust => Success("i32")
             case TypeScript => Success("number")
             case _ => Fail(Unsupported("Number")))
    ensures Render(Boolean, l, ext) ==
            (match l
             case Rust => Success("bool")
             case TypeScript => Success("boolean")
             case _ => Fail(Unsupported("Boolean")))
  {
  }

  /** The tokens depend on nothing but the language's tag. */
  lemma TypeTokensIgnorePythonSettings(l1: Language, l2: Language, ext: Externals)
    requires l1.Python? && l2.Python?
    ensures Render(Number, l1, ext) == Render(Number, l2, ext)
    ensures Render(Boolean, l1, ext) == Render(Boolean, l2, ext)
  {
  }

  /** A parameter typed with `Number` or `Boolean` carries the token: in
      Rust "a:i32" and "a:bool" (src/lib.rs:23). */
  lemma TypedParameterRust(name: string, ext: Externals)
    ensures RenderParam(Parameter(Text(name), Some(Number)), Rust, ext) == Success(name + ":i32")
    ensures RenderParam(Parameter(Text(name), Some(Boolean)), Rust, ext) == Success(name + ":bool")
  {
    assert name + ":" + "i32" == name + ":i32" && name + ":" + "bool" == name + ":bool";
  }

  /** In TypeScript "a:number" and "a:boolean" (src/lib.rs:32). */
  lemma TypedParameterTypeScript(name: string, ext: Externals)
    ensures RenderParam(Parameter(Text(name), Some(Number)), TypeScript, ext) == Success(name + ":number")
    ensures RenderParam(Parameter(Text(name), Some(Boolean)), TypeScript, ext) == Success(name + ":boolean")
  {
    assert name + ":" + "number" == name + ":number" && name + ":" + "boolean" == name + ":boolean";
  }

  /** In C++ a parameter typed with `Number` fails, because the type does. */
  lemma CppTypedParameterFails(name: string, ext: Externals)
    ensures RenderParam(Parameter(Text(name), Some(Number)), Cpp, ext) == Fail(Unsupported("Number"))
  {
  }

  /** Python without types never reads a parameter's type, so a parameter
      typed `Number` or `Boolean`, which have no Python rule, still renders
      as its bare name (src/models/mod.rs:220-228). */
  lemma UntypedPythonKeepsTypedParameter(name: string, level: Option<nat>, unit: IndentType, ext: Externals)
    ensures Render(Number, Python(false, level, unit), ext).Fail?
    ensures RenderParam(Parameter(Text(name), Some(Number)), Python(false, level, unit), ext) == Success(name)
    ensures RenderParam(Parameter(Text(name), Some(Boolean)), Python(false, level, unit), ext) == Success(name)
  {
  }
}
