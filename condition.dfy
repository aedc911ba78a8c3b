/** src/models/condition.rs: `Equal`, `And`, `Or` and the four comparators. */
module Conditions {
  import opened Ast
  import opened Text
  import opened ToCode

  /** The operator `Equal`, `And` and `Or` write in each language. */
  function LogicToken(n: Node, l: Language): string
    requires n.Equal? || n.And? || n.Or?
  {
    if n.Equal? then (if l.TypeScript? || l.Cpp? then "===" else "==")
    else if n.And? then (if l.Python? then " and " else "&&")
    else (if l.Python? then " or " else "||")
  }

  /** The two operands of a binary condition. */
  function Operands(n: Node): (Node, Node)
    requires n.Equal? || n.And? || n.Or? || n.Compare?
  {
    match n
    case Equal(a, b) => (a, b)
    case And(a, b) => (a, b)
    case Or(a, b) => (a, b)
    case Compare(_, a, b) => (a, b)
  }

  /** Every language has a rule for these nodes: they fail only when an
      operand fails, the left one first, and otherwise write "(", the left
      text, the token, the right text and ")". The token of `Equal` is "==="
      in TypeScript and C++ and "==" otherwise; `And` and `Or` write "&&"
      and "||", or " and " and " or " in Python. */
  lemma LogicForms(n: Node, l: Language, ext: Externals)
    requires n.Equal? || n.And? || n.Or?
    ensures var (a, b) := Operands(n);
            Render(n, l, ext).Success? <==> Render(a, l, ext).Success? && Render(b, l, ext).Success?
    ensures var (a, b) := Operands(n);
            Render(a, l, ext).Fail? ==> Render(n, l, ext) == Fail(Render(a, l, ext).failure)
    ensures var (a, b) := Operands(n);
            Render(n, l, ext).Success? ==>
              Render(n, l, ext).value == "(" + Render(a, l, ext).value + LogicToken(n, l) + Render(b, l, ext).value + ")"
  {
  }

  /** Every condition writes the comparator shape "(" left token right ")",
      so whatever the operands and the language its text is wrapped in one
      pair of parentheses around the operands' texts and the token. */
  lemma Parenthesised(n: Node, l: Language, ext: Externals)
    requires n.Equal? || n.And? || n.Or? || n.Compare?
    requires Render(n, l, ext).Success?
    ensures var (a, b) := Operands(n);
            var token := if n.Compare? then ComparisonToken(n.comparison) else LogicToken(n, l);
            Render(a, l, ext).Success? && Render(b, l, ext).Success?
            && Render(n, l, ext).value == ComparatorText(Render(a, l, ext).value, token, Render(b, l, ext).value)
  {
  }

  /** The base-case test of the Fibonacci example (examples/fibonacci.rs:19-22). */
  function BaseCase(): Node
  {
    Or(Equal(Text("num"), Int(0)), Equal(Text("num"), Int(1)))
  }

  /** The numerals of 0 and 1, in any language. */
  lemma SmallNumerals(l: Language, ext: Externals)
    ensures Render(Int(0), l, ext) == Success("0") && Render(Int(1), l, ext) == Success("1")
  {
    assert Decimal(0) == "0" && Decimal(1) == "1";
  }

  /** The literal texts of the base case's pieces. */
  lemma BaseCaseTexts()
    ensures "(" + "num" + "==" + "0" + ")" == "(num==0)"
    ensures "(" + "num" + "==" + "1" + ")" == "(num==1)"
    ensures "(" + "(num==0)" + "||" + "(num==1)" + ")" == "((num==0)||(num==1))"
    ensures "(" + "(num==0)" + " or " + "(num==1)" + ")" == "((num==0) or (num==1))"
  {
    assert "(" + "num" + "==" == "(num==";
    assert "(" + "(num==0)" + "||" == "((num==0)||";
    assert "(" + "(num==0)" + " or " == "((num==0) or ";
  }

  /** "(num==0)" and "(num==1)" in Rust and Python. */
  lemma BaseCaseOperands(l: Language, ext: Externals)
    requires l.Rust? || l.Python?
    ensures Render(Equal(Text("num"), Int(0)), l, ext) == Success("(num==0)")
    ensures Render(Equal(Text("num"), Int(1)), l, ext) == Success("(num==1)")
  {
    SmallNumerals(l, ext);
    BaseCaseTexts();
  }

  /** The base case from the texts of its two operands. */
  lemma BaseCaseShape(l: Language, ext: Externals)
    requires l.Rust? || l.Python?
    ensures Render(BaseCase(), l, ext) == Success("(" + "(num==0)" + (if l.Python? then " or " else "||") + "(num==1)" + ")")
  {
    BaseCaseOperands(l, ext);
  }

  /** In Rust the base case reads "((num==0)||(num==1))". */
  lemma BaseCaseRust(ext: Externals)
    ensures Render(BaseCase(), Rust, ext) == Success("((num==0)||(num==1))")
  {
    BaseCaseShape(Rust, ext);
    BaseCaseTexts();
  }

  /** In Python it reads "((num==0) or (num==1))". */
  lemma BaseCasePython(l: Language, ext: Externals)
    requires l.Python?
    ensures Render(BaseCase(), l, ext) == Success("((num==0) or (num==1))")
  {
    BaseCaseShape(l, ext);
    BaseCaseTexts();
  }
}
