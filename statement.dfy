/** src/models/statement.rs: variable initialisation, assignment, return
    and comments. */
module Statements {
  import opened Ast
  import opened ToCode

  /** `VariableInit::default` (src/models/statement.rs:11-20). */
  function DefaultVariableInit(): (v: VariableInit)
    ensures v.name == Text("foo") && v.value == Text("bar")
    ensures v.mutable.None? && v.typ.None?
  {
    VariableInit(Text("foo"), None, None, Text("bar"))
  }

  /** `with_name` (src/models/statement.rs:23-26): only the name changes. */
  function WithName(v: VariableInit, name: Node): (r: VariableInit)
    ensures r.name == name && r.mutable == v.mutable && r.typ == v.typ && r.value == v.value
  {
    v.(name := name)
  }

  /** `with_mutable` (src/models/statement.rs:28-31): only the mutability changes. */
  function WithMutable(v: VariableInit, isMutable: bool): (r: VariableInit)
    ensures r.mutable == Some(isMutable) && r.name == v.name && r.typ == v.typ && r.value == v.value
  {
    v.(mutable := Some(isMutable))
  }

  /** `with_type` (src/models/statement.rs:33-36): only the type changes. */
  function WithType(v: VariableInit, typ: Node): (r: VariableInit)
    ensures r.typ == Some(typ) && r.name == v.name && r.mutable == v.mutable && r.value == v.value
  {
    v.(typ := Some(typ))
  }

  /** `with_value` (src/models/statement.rs:38-41): only the value changes. */
  function WithValue(v: VariableInit, value: Node): (r: VariableInit)
    ensures r.value == value && r.name == v.name && r.mutable == v.mutable && r.typ == v.typ
  {
    v.(value := value)
  }

  /** What each language writes for a variable whose written parts render
      (Python without types never reads the type). Rust:
      "let ", "mut " exactly when declared mutable, the name, ":T" exactly
      when typed, "=value;". C++: "T name=value;", an error without a type.
      Python: the name, ":T" only when types are included and one is given,
      "=value", no terminator. TypeScript: "let" exactly when declared
      mutable and "const" otherwise, then " name", ":T" when typed, "=value;". */
  lemma VariableInitForms(v: VariableInit, l: Language, ext: Externals)
    requires Render(v.name, l, ext).Success? && Render(v.value, l, ext).Success?
    requires v.typ.Some? && l.WritesTypes() ==> Render(v.typ.value, l, ext).Success?
    ensures var name := Render(v.name, l, ext).value;
            var value := Render(v.value, l, ext).value;
            var typ := if v.typ.Some? && l.WritesTypes() then Some(Render(v.typ.value, l, ext).value) else None;
            var annotation := if typ.Some? then ":" + typ.value else "";
            Render(VariableInitNode(v), l, ext) ==
              match l
              case Rust =>
                Success("let " + (if v.mutable == Some(true) then "mut " else "") + name + annotation + "=" + value + ";")
              case Cpp =>
                if typ.Some? then Success(typ.value + " " + name + "=" + value + ";")
                else Fail(MissingType(UnwrapNone))
              case Python(includeTypes, _, _) =>
                Success(name + (if includeTypes then annotation else "") + "=" + value)
              case TypeScript =>
                Success((if v.mutable == Some(true) then "let " else "const ") + name + annotation + "=" + value + ";")
  {
    var name, value := Render(v.name, l, ext).value, Render(v.value, l, ext).value;
    var annotation := if v.typ.Some? && l.WritesTypes() then ":" + Render(v.typ.value, l, ext).value else "";
    match l
    case Rust =>
      assert RenderOptional(v.typ, l, ext).Success?;
    case Cpp =>
    case Python(includeTypes, _, _) =>
      if includeTypes {
        assert RenderOptional(v.typ, l, ext).Success?;
      } else {
        assert name + "" + "=" + value == name + "=" + value;
      }
    case TypeScript =>
      assert RenderOptional(v.typ, l, ext).Success?;
      var keyword := if v.mutable == Some(true) then "let" else "const";
      assert keyword + " " + name + annotation + "=" + value + ";"
          == (if v.mutable == Some(true) then "let " else "const ") + name + annotation + "=" + value + ";";
  }

  /** A C++ variable without a type is an error, whatever its other parts. */
  lemma CppVariableNeedsType(v: VariableInit, ext: Externals)
    requires v.typ.None?
    ensures Render(VariableInitNode(v), Cpp, ext) == Fail(MissingType(UnwrapNone))
  {
  }

  /** The text an assignment writes from its two operands' texts. */
  lemma AssignText(target: Node, value: Node, l: Language, ext: Externals)
    requires Render(target, l, ext).Success? && Render(value, l, ext).Success?
    ensures var x, y := Render(target, l, ext).value, Render(value, l, ext).value;
            Render(AssignVariable(target, value), l, ext) ==
            Success(if l.IsBrace() then x + "=" + y + ";" else x + "=" + y)
  {
  }

  /** `AssignVariable` (src/models/statement.rs:111-123): "name=value" with a
      ";" in the brace languages only. */
  lemma AssignForms(target: Node, value: Node, l: Language, ext: Externals)
    requires Render(target, l, ext).Success? && Render(value, l, ext).Success?
    ensures Render(AssignVariable(target, value), l, ext) ==
            Success(Render(target, l, ext).value + "=" + Render(value, l, ext).value
                    + (if l.Python? then "" else ";"))
  {
    AssignText(target, value, l, ext);
    var x, y := Render(target, l, ext).value, Render(value, l, ext).value;
    assert x + "=" + y + "" == x + "=" + y;
  }

  /** `Return` (src/models/statement.rs:128-142): "return e;" or "return;" in
      the brace languages, the same without ";" in Python. */
  lemma ReturnForms(e: Node, l: Language, ext: Externals)
    requires Render(e, l, ext).Success?
    ensures Render(Return(Some(e)), l, ext) ==
            Success("return " + Render(e, l, ext).value + (if l.Python? then "" else ";"))
    ensures Render(Return(None), l, ext) == Success(if l.Python? then "return" else "return;")
  {
    var x := Render(e, l, ext).value;
    if l.Python? {
      assert "return " + x + "" == "return " + x;
    }
  }

  /** `Comment` (src/models/statement.rs:154-173). Regular comments are
      "//c" and a newline, or "#c" in Python; multi-line ones "/*c*/", or the
      content between triple quotes in Python; doc comments are "///c" and a
      newline in Rust, "/**c*/" in TypeScript, a regular comment in C++ and a
      multi-line one in Python. */
  lemma CommentForms(c: string, l: Language, ext: Externals)
    ensures Render(Comment(Regular, c), l, ext) == Success(if l.Python? then "#" + c else "//" + c + "\n")
    ensures Render(Comment(MultiLine, c), l, ext) ==
            Success(if l.Python? then "\"\"\"" + c + "\"\"\"" else "/*" + c + "*/")
    ensures l.Rust? ==> Render(Comment(Doc, c), l, ext) == Success("///" + c + "\n")
    ensures l.TypeScript? ==> Render(Comment(Doc, c), l, ext) == Success("/**" + c + "*/")
    ensures l.Cpp? ==> Render(Comment(Doc, c), l, ext) == Render(Comment(Regular, c), l, ext)
    ensures l.Python? ==> Render(Comment(Doc, c), l, ext) == Render(Comment(MultiLine, c), l, ext)
  {
  }
}
