/** src/macros.rs: what every comparator generated by `new_comparator!`
    writes. */
module Comparators {
  import opened Ast
  import opened ToCode

  /** The four instances use ">", "<", "<=" and ">=" (src/models/condition.rs:21-24),
      and no two share a token. */
  lemma ComparisonTokens(c1: Comparison, c2: Comparison)
    ensures ComparisonToken(GreaterThan) == ">" && ComparisonToken(LessThan) == "<"
    ensures ComparisonToken(LessThanOrEq) == "<=" && ComparisonToken(GreaterThanOrEq) == ">="
    ensures ComparisonToken(c1) == ComparisonToken(c2) ==> c1 == c2
  {
  }

  /** A comparator renders its left operand, then its right one, both in the
      same language; it fails when either fails, the left one first, and
      otherwise writes "(", left, the token, right, ")". */
  lemma ComparatorForms(c: Comparison, a: Node, b: Node, l: Language, ext: Externals)
    ensures Render(Compare(c, a, b), l, ext).Success? <==>
            Render(a, l, ext).Success? && Render(b, l, ext).Success?
    ensures Render(a, l, ext).Fail? ==> Render(Compare(c, a, b), l, ext) == Fail(Render(a, l, ext).failure)
    ensures Render(Compare(c, a, b), l, ext).Success? ==>
              Render(Compare(c, a, b), l, ext).value ==
              "(" + Render(a, l, ext).value + ComparisonToken(c) + Render(b, l, ext).value + ")"
  {
  }

  /** The generated code has no per-language branch: two languages in which
      the operands read the same give the same comparison. */
  lemma ComparatorLanguageIndependent(c: Comparison, a: Node, b: Node, l1: Language, l2: Language, ext: Externals)
    requires Render(a, l1, ext) == Render(a, l2, ext) && Render(b, l1, ext) == Render(b, l2, ext)
    ensures Render(Compare(c, a, b), l1, ext) == Render(Compare(c, a, b), l2, ext)
  {
  }

  /** The comparator text gives back both operands and the token verbatim:
      the left operand right after "(", the token after it, and the right
      operand just before ")". */
  lemma ComparatorTextParts(left: string, operator: string, right: string)
    ensures var r := ComparatorText(left, operator, right);
            |r| == |left| + |operator| + |right| + 2
            && r[0] == '(' && r[|r| - 1] == ')'
            && r[1..1 + |left|] == left
            && r[1 + |left|..1 + |left| + |operator|] == operator
            && r[1 + |left| + |operator|..|r| - 1] == right
  {
    var r := ComparatorText(left, operator, right);
    assert r == "(" + left + operator + right + ")";
  }
}
