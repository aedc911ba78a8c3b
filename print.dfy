/** src/models/print.rs: `Println`, written as each language's own print
    call around the value's text. */
module Print {
  import opened Ast
  import opened ToCode

  /** The value is rendered first, in the target language; a failure there
      is the whole statement's failure. */
  lemma PrintlnValueFirst(v: Node, l: Language, ext: Externals)
    requires Render(v, l, ext).Fail?
    ensures Render(Println(v), l, ext) == Fail(Render(v, l, ext).failure)
  {
  }

  /** A call's result with ";" after its text, or its failure. */
  function Semi(call: Result<string>): Result<string>
  {
    if call.Success? then Success(call.value + ";") else call
  }

  /** A call is whatever the call renderer writes for it. */
  lemma CallRenders(callee: string, args: seq<Node>, l: Language, ext: Externals)
    ensures Render(FunctionCall(callee, args), l, ext) == ext.call(callee, args, l)
  {
  }

  /** `WithSemi` around a call writes the call's text and ";". */
  lemma CallWithSemi(callee: string, args: seq<Node>, l: Language, ext: Externals)
    ensures Render(WithSemi(FunctionCall(callee, args)), l, ext) == Semi(ext.call(callee, args, l))
  {
  }

  /** Outside C++ the statement is the language's print call on the
      value's text, followed by ";" in TypeScript and Rust. */
  lemma PrintlnCalls(v: Node, l: Language, ext: Externals)
    requires !l.Cpp? && Render(v, l, ext).Success?
    ensures var item := Render(v, l, ext).value;
            Render(Println(v), l, ext) ==
            (match l
             case Python(_, _, _) => ext.call("print", [Text(item)], l)
             case Rust => Semi(ext.call("println!", [Text("\"{:?}\""), Text(item)], l))
             case _ => Semi(ext.call("console.log", [Text(item)], l)))
  {
  }

  /** Python: exactly the call `print` with the value's text as its one
      argument, with no ";". */
  lemma PrintlnPython(v: Node, l: Language, ext: Externals)
    requires l.Python? && Render(v, l, ext).Success?
    ensures Render(Println(v), l, ext) == Render(FunctionCall("print", [Text(Render(v, l, ext).value)]), l, ext)
  {
    PrintlnCalls(v, l, ext);
    CallRenders("print", [Text(Render(v, l, ext).value)], l, ext);
  }

  /** TypeScript: exactly the call `console.log` with the value's text,
      followed by ";" as `WithSemi` writes it. */
  lemma PrintlnTypeScript(v: Node, ext: Externals)
    requires Render(v, TypeScript, ext).Success?
    ensures Render(Println(v), TypeScript, ext) ==
            Render(WithSemi(FunctionCall("console.log", [Text(Render(v, TypeScript, ext).value)])), TypeScript, ext)
  {
    PrintlnCalls(v, TypeScript, ext);
    CallWithSemi("console.log", [Text(Render(v, TypeScript, ext).value)], TypeScript, ext);
  }

  /** Rust: exactly the macro call `println!` with the format string
      "\"{:?}\"" first and the value's text second, followed by ";". */
  lemma PrintlnRust(v: Node, ext: Externals)
    requires Render(v, Rust, ext).Success?
    ensures Render(Println(v), Rust, ext) ==
            Render(WithSemi(FunctionCall("println!", [Text("\"{:?}\""), Text(Render(v, Rust, ext).value)])), Rust, ext)
  {
    PrintlnCalls(v, Rust, ext);
    CallWithSemi("println!", [Text("\"{:?}\""), Text(Render(v, Rust, ext).value)], Rust, ext);
  }

  /** C++: "cout << ", the value's text and ";", with no call involved. */
  lemma PrintlnCpp(v: Node, ext: Externals)
    requires Render(v, Cpp, ext).Success?
    ensures Render(Println(v), Cpp, ext) == Success("cout << " + Render(v, Cpp, ext).value + ";")
  {
  }
}
