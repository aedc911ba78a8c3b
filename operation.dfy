/** src/models/operation.rs: `Add`, `Subtract`, `Multiply` and `Divide`. */
module Operations {
  import opened Ast
  import opened ToCode

  /** In Rust and TypeScript an operation is the left operand's text, the
      token and the right operand's text, with no parentheses and no spaces;
      it fails exactly when an operand fails, the left one first. */
  lemma ArithForms(op: ArithOp, a: Node, b: Node, l: Language, ext: Externals)
    requires l.Rust? || l.TypeScript?
    ensures Render(Arith(op, a, b), l, ext).Success? <==>
            Render(a, l, ext).Success? && Render(b, l, ext).Success?
    ensures Render(a, l, ext).Fail? ==> Render(Arith(op, a, b), l, ext) == Fail(Render(a, l, ext).failure)
    ensures Render(a, l, ext).Success? && Render(b, l, ext).Fail? ==>
              Render(Arith(op, a, b), l, ext) == Fail(Render(b, l, ext).failure)
    ensures Render(Arith(op, a, b), l, ext).Success? ==>
              Render(Arith(op, a, b), l, ext).value ==
              Render(a, l, ext).value
              + (match op case Add => "+" case Subtract => "-" case Multiply => "*" case Divide => "*")
              + Render(b, l, ext).value
  {
  }

  /** C++ and Python have no rule for any of the four: the node fails,
      naming itself, whatever its operands are. */
  lemma ArithUnsupported(op: ArithOp, a: Node, b: Node, l: Language, ext: Externals)
    requires l.Cpp? || l.Python?
    ensures Render(Arith(op, a, b), l, ext) ==
            Fail(Unsupported(match op case Add => "Add" case Subtract => "Subtract"
                             case Multiply => "Multiply" case Divide => "Divide"))
  {
  }

  /** `Divide` and `Multiply` write the same text in every language that
      supports them. */
  lemma DivideWritesMultiply(a: Node, b: Node, l: Language, ext: Externals)
    requires l.Rust? || l.TypeScript?
    ensures Render(Arith(Divide, a, b), l, ext) == Render(Arith(Multiply, a, b), l, ext)
  {
  }

  /** Nested operations are not grouped: "(a+b)*c" and "a+(b*c)" are both
      written "a+b*c", so the text does not determine the tree. */
  lemma NoGrouping(a: Node, b: Node, c: Node, l: Language, ext: Externals)
    requires l.Rust? || l.TypeScript?
    requires Render(a, l, ext).Success? && Render(b, l, ext).Success? && Render(c, l, ext).Success?
    ensures Render(Arith(Multiply, Arith(Add, a, b), c), l, ext) ==
            Render(Arith(Add, a, Arith(Multiply, b, c)), l, ext)
    ensures Render(Arith(Add, a, Arith(Multiply, b, c)), l, ext) ==
            Success(Render(a, l, ext).value + "+" + Render(b, l, ext).value + "*" + Render(c, l, ext).value)
  {
    var x, y, z := Render(a, l, ext).value, Render(b, l, ext).value, Render(c, l, ext).value;
    assert x + "+" + (y + "*" + z) == x + "+" + y + "*" + z;
  }
}
