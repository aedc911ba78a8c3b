/** src/models/expression.rs: `Ternary` and `Raw`. */
module Expressions {
  import opened Ast
  import opened ToCode

  /** Rust writes "if c{t}else{e}" and TypeScript "c?t:e"; the parts are
      rendered condition first, then the two branches, all in the same
      language, and the first failure among them is the node's. */
  lemma TernaryForms(c: Node, t: Node, e: Node, l: Language, ext: Externals)
    requires l.Rust? || l.TypeScript?
    ensures Render(Ternary(c, t, e), l, ext).Success? <==>
            Render(c, l, ext).Success? && Render(t, l, ext).Success? && Render(e, l, ext).Success?
    ensures Render(c, l, ext).Fail? ==> Render(Ternary(c, t, e), l, ext) == Fail(Render(c, l, ext).failure)
    ensures Render(c, l, ext).Success? && Render(t, l, ext).Fail? ==>
              Render(Ternary(c, t, e), l, ext) == Fail(Render(t, l, ext).failure)
    ensures Render(c, l, ext).Success? && Render(t, l, ext).Success? && Render(e, l, ext).Fail? ==>
              Render(Ternary(c, t, e), l, ext) == Fail(Render(e, l, ext).failure)
    ensures Render(Ternary(c, t, e), l, ext).Success? ==>
              var x, y, z := Render(c, l, ext).value, Render(t, l, ext).value, Render(e, l, ext).value;
              Render(Ternary(c, t, e), l, ext).value ==
              (if l.Rust? then "if " + x + "{" + y + "}else{" + z + "}" else x + "?" + y + ":" + z)
  {
  }

  /** C++ and Python have no rule for a ternary. */
  lemma TernaryUnsupported(c: Node, t: Node, e: Node, l: Language, ext: Externals)
    requires l.Cpp? || l.Python?
    ensures Render(Ternary(c, t, e), l, ext) == Fail(Unsupported("Ternary"))
  {
  }

  /** `Raw` writes its text unchanged in every language. */
  lemma RawVerbatim(s: string, l: Language, ext: Externals)
    ensures Render(Raw(s), l, ext) == Success(s)
  {
  }
}
