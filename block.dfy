/** src/models/block.rs: the if / else-if / else chain, its builders and
    its four renderings. */
module Blocks {
  import opened Ast
  import opened ToCode
  import Scopes

  // ---------------------------------------------------------------------
  // Defaults and builders (src/models/block.rs:13-26, 72-80, 122-141, 175-188)

  /** `If::default`: the condition "1" and an empty body. */
  function DefaultIf(): (b: If)
    ensures b.condition == Text("1") && b.scope.children == []
  {
    If(Text("1"), Scopes.Default())
  }

  /** `Else::default`: an empty body. */
  function DefaultElse(): (e: Else)
    ensures e.scope.children == []
  {
    Else(Scopes.Default())
  }

  /** `ConditionalBuilder::default`: the default `If`, no else-ifs, no else. */
  function DefaultConditional(): (c: Conditional)
    ensures c.first == DefaultIf() && c.middle == [] && c.last.None?
  {
    Conditional(DefaultIf(), [], None)
  }

  /** `If::with_condition`: only the condition changes. */
  function WithCondition(b: If, condition: Node): (r: If)
    ensures r.condition == condition && r.scope == b.scope
  {
    b.(condition := condition)
  }

  /** `If::with_scope`: only the body changes. */
  function IfWithScope(b: If, s: Scope): (r: If)
    ensures r.scope == s && r.condition == b.condition
  {
    b.(scope := s)
  }

  /** `Else::with_scope`: the body is replaced. */
  function ElseWithScope(e: Else, s: Scope): (r: Else)
    ensures r.scope == s
  {
    e.(scope := s)
  }

  /** `with_if`: replaces the first branch and nothing else. */
  function WithIf(c: Conditional, b: If): (r: Conditional)
    ensures r.first == b && r.middle == c.middle && r.last == c.last
  {
    c.(first := b)
  }

  /** `with_else_if`: the branch goes after the else-ifs already given. */
  function WithElseIf(c: Conditional, b: If): (r: Conditional)
    ensures |r.middle| == |c.middle| + 1
    ensures r.middle[..|c.middle|] == c.middle && r.middle[|c.middle|] == b
    ensures r.first == c.first && r.last == c.last
  {
    c.(middle := c.middle + [b])
  }

  /** `with_else`: sets the else branch, replacing any earlier one. */
  function WithElse(c: Conditional, e: Else): (r: Conditional)
    ensures r.last == Some(e) && r.first == c.first && r.middle == c.middle
  {
    c.(last := Some(e))
  }

  /** A run of `with_else_if` calls, one per element of `bs`, in order. */
  function WithElseIfs(c: Conditional, bs: seq<If>): Conditional
    decreases |bs|
  {
    if |bs| == 0 then c else WithElseIfs(WithElseIf(c, bs[0]), bs[1..])
  }

  /** Else-ifs keep the order of the `with_else_if` calls, after those
      already present; the first branch and the else are untouched. */
  lemma {:induction false} WithElseIfsKeepsOrder(c: Conditional, bs: seq<If>)
    ensures WithElseIfs(c, bs).middle == c.middle + bs
    ensures WithElseIfs(c, bs).first == c.first && WithElseIfs(c, bs).last == c.last
    decreases |bs|
  {
    if |bs| > 0 {
      WithElseIfsKeepsOrder(WithElseIf(c, bs[0]), bs[1..]);
      assert c.middle + [bs[0]] + bs[1..] == c.middle + bs;
    }
  }

  /** Of two `with_else` calls the later one wins, and `with_if` after
      `with_else_if` leaves the else-ifs alone. */
  lemma LastElseWins(c: Conditional, e1: Else, e2: Else, b1: If, b2: If)
    ensures WithElse(WithElse(c, e1), e2) == WithElse(c, e2)
    ensures WithIf(WithIf(c, b1), b2) == WithIf(c, b2)
    ensures WithIf(WithElseIf(c, b1), b2).middle == c.middle + [b1]
  {
  }

  // ---------------------------------------------------------------------
  // Rendering of the branches (src/models/block.rs:88-120, 148-173)

  /** `If`: "if c{body}" in Rust, "if(c){body}" in TypeScript and C++,
      "if c:" and the body one level deeper in Python. */
  lemma IfForms(b: If, l: Language, ext: Externals)
    requires Render(b.condition, l, ext).Success?
    requires RenderScope(b.scope, if l.Python? then l.Deeper() else l, ext).Success?
    ensures var cond := Render(b.condition, l, ext).value;
            var body := RenderScope(b.scope, if l.Python? then l.Deeper() else l, ext).value;
            RenderIf(b, l, ext) ==
              Success(if l.Rust? then "if " + cond + "{" + body + "}"
                      else if l.Python? then "if " + cond + ":" + body
                      else "if(" + cond + "){" + body + "}")
  {
  }

  /** `Else`: "else{body}" in the brace languages, "else:" and the body one
      level deeper in Python. */
  lemma ElseForms(e: Else, l: Language, ext: Externals)
    requires RenderScope(e.scope, if l.Python? then l.Deeper() else l, ext).Success?
    ensures var body := RenderScope(e.scope, if l.Python? then l.Deeper() else l, ext).value;
            RenderElse(e, l, ext) == Success(if l.Python? then "else:" + body else "else{" + body + "}")
  {
  }

  /** An `If` or `Else` fails exactly when its condition or body fails. */
  lemma BranchFailures(b: If, e: Else, l: Language, ext: Externals)
    ensures RenderIf(b, l, ext).Success? <==>
            Render(b.condition, l, ext).Success?
            && RenderScope(b.scope, if l.Python? then l.Deeper() else l, ext).Success?
    ensures RenderElse(e, l, ext).Success? <==>
            RenderScope(e.scope, if l.Python? then l.Deeper() else l, ext).Success?
  {
  }

  /** A Python branch: "if c:" and the body one level deeper. */
  lemma PythonIfUnfold(b: If, l: Language, ext: Externals)
    requires l.Python?
    ensures RenderIf(b, l, ext) ==
            (var cond :- Render(b.condition, l, ext);
             var body :- RenderScope(b.scope, l.Deeper(), ext);
             Success("if " + cond + ":" + body))
  {
  }

  /** Appending a line to a header's body appends it to the header's text,
      failures included: the shape of `PythonBodyIndentation` on plain
      results. */
  lemma HeaderAppend(cond: Result<string>, body: Result<string>, x: Result<string>,
                     p: string, q: string,
                     longer: Result<string>, before: Result<string>, after: Result<string>)
    requires longer == (var s :- body; var y :- x; Success(s + (p + q) + y))
    requires before == (var c :- cond; var s :- body; Success("if " + c + ":" + s))
    requires after == (var c :- cond; var s :- longer; Success("if " + c + ":" + s))
    ensures after == (var h :- before; var y :- x; Success(h + p + q + y))
  {
    if cond.Success? && body.Success? && x.Success? {
      assert "if " + cond.value + ":" + (body.value + (p + q) + x.value)
          == "if " + cond.value + ":" + body.value + p + q + x.value;
    }
  }

  /** In Python a statement added to a branch body becomes one more line
      of the branch, indented exactly one unit more than the lines around
      the branch: a newline, the current indentation, one more unit, and
      the statement rendered at that deeper level. */
  lemma PythonBodyIndentation(b: If, child: Node, l: Language, ext: Externals)
    requires l.Python?
    ensures RenderIf(IfWithScope(b, Scopes.With(b.scope, child)), l, ext) ==
            (var branch :- RenderIf(b, l, ext);
             var x :- Render(child, l.Deeper(), ext);
             Success(branch + LinePrefix(l) + IndentString(l.indentType) + x))
  {
    var d := l.Deeper();
    var s2 := Scopes.With(b.scope, child);
    var b2 := IfWithScope(b, s2);
    PythonIfUnfold(b, l, ext);
    PythonIfUnfold(b2, l, ext);
    Scopes.RenderWith(b.scope, child, d, ext);
    Scopes.DeeperLinePrefix(l);
    HeaderAppend(Render(b.condition, l, ext), RenderScope(b.scope, d, ext), Render(child, d, ext),
                 LinePrefix(l), IndentString(l.indentType),
                 RenderScope(s2, d, ext), RenderIf(b, l, ext), RenderIf(b2, l, ext));
  }

  // ---------------------------------------------------------------------
  // The else-if run

  lemma {:induction false} ElseIfsSucceed(ms: seq<If>, prefix: string, l: Language, ext: Externals)
    ensures RenderElseIfs(ms, prefix, l, ext).Success? <==>
            forall i :: 0 <= i < |ms| ==> RenderIf(ms[i], l, ext).Success?
  {
    if |ms| > 0 {
      ElseIfsSucceed(ms[1..], prefix, l, ext);
      if RenderIf(ms[0], l, ext).Success? && RenderElseIfs(ms[1..], prefix, l, ext).Fail? {
        var i :| 0 <= i < |ms[1..]| && RenderIf(ms[1..][i], l, ext).Fail?;
        assert RenderIf(ms[i + 1], l, ext).Fail?;
      }
    }
  }

  /** A run of one else-if is the prefix and that branch's text. */
  lemma ElseIfsSingle(m: If, prefix: string, l: Language, ext: Externals)
    ensures RenderElseIfs([m], prefix, l, ext) ==
            (var x :- RenderIf(m, l, ext); Success(prefix + x))
  {
    assert [m][1..] == [];
    if RenderIf(m, l, ext).Success? {
      assert prefix + RenderIf(m, l, ext).value + "" == prefix + RenderIf(m, l, ext).value;
    }
  }

  /** One more else-if adds exactly its own text, after the prefix, at the
      end of the run: the run keeps insertion order. */
  lemma {:induction false} ElseIfsAppend(ms: seq<If>, m: If, prefix: string, l: Language, ext: Externals)
    ensures RenderElseIfs(ms + [m], prefix, l, ext) ==
            (var run :- RenderElseIfs(ms, prefix, l, ext);
             var x :- RenderIf(m, l, ext);
             Success(run + prefix + x))
  {
    if |ms| == 0 {
      assert ms + [m] == [m];
      ElseIfsSingle(m, prefix, l, ext);
      if RenderIf(m, l, ext).Success? {
        assert "" + prefix + RenderIf(m, l, ext).value == prefix + RenderIf(m, l, ext).value;
      }
    } else {
      assert (ms + [m])[0] == ms[0] && (ms + [m])[1..] == ms[1..] + [m];
      ElseIfsAppend(ms[1..], m, prefix, l, ext);
      var head, rest, x := RenderIf(ms[0], l, ext), RenderElseIfs(ms[1..], prefix, l, ext), RenderIf(m, l, ext);
      if head.Success? && rest.Success? && x.Success? {
        assert prefix + head.value + (rest.value + prefix + x.value) == prefix + head.value + rest.value + prefix + x.value;
      }
    }
  }

  /** In Python each else-if becomes an "elif" branch: the "el" prefix and
      the branch's own "if " fuse. */
  lemma PythonElif(m: If, l: Language, ext: Externals)
    requires l.Python?
    requires RenderIf(m, l, ext).Success?
    ensures RenderElseIfs([m], "el", l, ext) ==
            Success("elif " + Render(m.condition, l, ext).value + ":" + RenderScope(m.scope, l.Deeper(), ext).value)
  {
    assert [m][1..] == [];
    var cond, body := Render(m.condition, l, ext).value, RenderScope(m.scope, l.Deeper(), ext).value;
    assert "el" + ("if " + cond + ":" + body) + "" == "elif " + cond + ":" + body;
  }

  /** A run of two else-ifs is each one's text after the prefix. */
  lemma ElseIfsTwo(m1: If, m2: If, prefix: string, l: Language, ext: Externals)
    requires RenderIf(m1, l, ext).Success? && RenderIf(m2, l, ext).Success?
    ensures RenderElseIfs([m1, m2], prefix, l, ext) ==
            Success(prefix + RenderIf(m1, l, ext).value + prefix + RenderIf(m2, l, ext).value)
  {
    ElseIfsSingle(m1, prefix, l, ext);
    ElseIfsAppend([m1], m2, prefix, l, ext);
    assert [m1] + [m2] == [m1, m2];
  }

  /** The text of a Python branch that renders. */
  lemma PythonIfText(m: If, l: Language, ext: Externals)
    requires l.Python? && RenderIf(m, l, ext).Success?
    ensures Render(m.condition, l, ext).Success? && RenderScope(m.scope, l.Deeper(), ext).Success?
    ensures RenderIf(m, l, ext).value ==
            "if " + Render(m.condition, l, ext).value + ":" + RenderScope(m.scope, l.Deeper(), ext).value
  {
    PythonIfUnfold(m, l, ext);
  }

  lemma ElifText(c1: string, b1: string, c2: string, b2: string)
    ensures "el" + ("if " + c1 + ":" + b1) + "el" + ("if " + c2 + ":" + b2)
            == "elif " + c1 + ":" + b1 + "elif " + c2 + ":" + b2
  {
    assert "el" + "if " == "elif ";
  }

  /** Two Python else-ifs are written back to back: the second "elif"
      follows the last text of the first one's body with no line break
      between them. */
  lemma PythonElifsGlued(m1: If, m2: If, l: Language, ext: Externals)
    requires l.Python?
    requires RenderIf(m1, l, ext).Success? && RenderIf(m2, l, ext).Success?
    ensures Render(m1.condition, l, ext).Success? && RenderScope(m1.scope, l.Deeper(), ext).Success?
    ensures Render(m2.condition, l, ext).Success? && RenderScope(m2.scope, l.Deeper(), ext).Success?
    ensures var c1, b1 := Render(m1.condition, l, ext).value, RenderScope(m1.scope, l.Deeper(), ext).value;
            var c2, b2 := Render(m2.condition, l, ext).value, RenderScope(m2.scope, l.Deeper(), ext).value;
            RenderElseIfs([m1, m2], "el", l, ext) ==
            Success("elif " + c1 + ":" + b1 + "elif " + c2 + ":" + b2)
  {
    ElseIfsTwo(m1, m2, "el", l, ext);
    PythonIfText(m1, l, ext);
    PythonIfText(m2, l, ext);
    ElifText(Render(m1.condition, l, ext).value, RenderScope(m1.scope, l.Deeper(), ext).value,
             Render(m2.condition, l, ext).value, RenderScope(m2.scope, l.Deeper(), ext).value);
  }

  // ---------------------------------------------------------------------
  // The whole chain (src/models/block.rs:29-70)

  /** The chain fails exactly when one of its branches fails. */
  lemma ChainFailures(c: Conditional, l: Language, ext: Externals)
    ensures RenderConditional(c, l, ext).Success? <==>
            RenderIf(c.first, l, ext).Success?
            && (forall i :: 0 <= i < |c.middle| ==> RenderIf(c.middle[i], l, ext).Success?)
            && (c.last.Some? ==> RenderElse(c.last.value, l, ext).Success?)
  {
    ElseIfsSucceed(c.middle, if l.IsBrace() then "else " else "el", l, ext);
  }

  /** Rust, TypeScript, C++: the first branch, each else-if after "else " in
      insertion order, the else branch exactly as `Else` renders it, and ";"
      in Rust only. */
  lemma BraceChainForm(c: Conditional, l: Language, ext: Externals)
    requires l.IsBrace()
    requires RenderIf(c.first, l, ext).Success? && RenderElseIfs(c.middle, "else ", l, ext).Success?
    requires c.last.Some? ==> RenderElse(c.last.value, l, ext).Success?
    ensures RenderConditional(c, l, ext) ==
            Success(RenderIf(c.first, l, ext).value + RenderElseIfs(c.middle, "else ", l, ext).value
                    + (if c.last.Some? then RenderElse(c.last.value, l, ext).value else "")
                    + (if l.Rust? then ";" else ""))
  {
  }

  /** Three `with` calls on the default scope give those three children. */
  lemma ThreeChildren(a: Node, b: Node, c: Node)
    ensures Scopes.With(Scopes.With(Scopes.With(Scopes.Default(), a), b), c) == Scope([a, b, c], None)
  {
    var s := Scopes.With(Scopes.With(Scopes.With(Scopes.Default(), a), b), c);
    assert s.children == [a, b, c];
  }

  /** A scope of three texts renders them as three lines. */
  lemma ThreeTexts(l: Language, a: string, b: string, c: string, ext: Externals)
    ensures RenderScope(Scope([Text(a), Text(b), Text(c)], None), l, ext) == Success(Lines(l, [a, b, c]))
  {
    var all := RenderAll([Text(a), Text(b), Text(c)], l, ext);
    assert all.Success?;
    assert all.value == [a, b, c];
  }

  /** Three lines are three prefixed texts. */
  lemma ThreeLinesText(l: Language, a: string, b: string, c: string)
    ensures Lines(l, [a, b, c]) == LinePrefix(l) + a + LinePrefix(l) + b + LinePrefix(l) + c
  {
    var p := LinePrefix(l);
    assert [a, b, c][1..] == [b, c] && [b, c][1..] == [c] && [c][1..] == [];
    assert Lines(l, [c]) == p + c;
    assert Lines(l, [b, c]) == p + b + (p + c);
    assert Lines(l, [a, b, c]) == p + a + (p + b + (p + c));
  }

  /** A scope built from three lines of text. */
  lemma ThreeLines(l: Language, a: string, b: string, c: string, ext: Externals)
    ensures RenderScope(Scopes.With(Scopes.With(Scopes.With(Scopes.Default(), Text(a)), Text(b)), Text(c)), l, ext)
            == Success(Lines(l, [a, b, c]))
    ensures Lines(l, [a, b, c]) == LinePrefix(l) + a + LinePrefix(l) + b + LinePrefix(l) + c
  {
    ThreeChildren(Text(a), Text(b), Text(c));
    ThreeTexts(l, a, b, c, ext);
    ThreeLinesText(l, a, b, c);
  }

  /** Python: a fresh scope of exactly three children at the current depth:
      the first branch, the text of all "elif" branches concatenated with
      nothing between them, and the else branch or "" when there is none. */
  lemma PythonChainIsScope(c: Conditional, l: Language, ext: Externals)
    requires l.Python?
    requires RenderIf(c.first, l, ext).Success? && RenderElseIfs(c.middle, "el", l, ext).Success?
    requires c.last.Some? ==> RenderElse(c.last.value, l, ext).Success?
    ensures var first := RenderIf(c.first, l, ext).value;
            var middle := RenderElseIfs(c.middle, "el", l, ext).value;
            var last := if c.last.Some? then RenderElse(c.last.value, l, ext).value else "";
            var s := Scopes.With(Scopes.With(Scopes.With(Scopes.Default(), Text(first)), Text(middle)), Text(last));
            RenderConditional(c, l, ext) == RenderScope(s, l, ext) ==
            Success(LinePrefix(l) + first + LinePrefix(l) + middle + LinePrefix(l) + last)
  {
    var first := RenderIf(c.first, l, ext).value;
    var middle := RenderElseIfs(c.middle, "el", l, ext).value;
    var last := if c.last.Some? then RenderElse(c.last.value, l, ext).value else "";
    ThreeLines(l, first, middle, last, ext);
  }

  /** Without an else branch the Python chain still ends with a line break
      and indentation: the empty third line. */
  lemma PythonChainWithoutElse(c: Conditional, l: Language, ext: Externals)
    requires l.Python? && c.last.None?
    requires RenderConditional(c, l, ext).Success?
    ensures var r := RenderConditional(c, l, ext).value;
            |r| >= |LinePrefix(l)| && r[|r| - |LinePrefix(l)|..] == LinePrefix(l)
  {
    ChainFailures(c, l, ext);
    ElseIfsSucceed(c.middle, "el", l, ext);
    PythonChainIsScope(c, l, ext);
    var r := RenderConditional(c, l, ext).value;
    var first := RenderIf(c.first, l, ext).value;
    var middle := RenderElseIfs(c.middle, "el", l, ext).value;
    var p := LinePrefix(l);
    assert r == (p + first + p + middle) + p + "";
    assert r == (p + first + p + middle) + p;
  }

  /** One more `with_else_if` adds "else " and the branch's text just before
      the else segment of a brace-language chain. */
  lemma WithElseIfRenders(c: Conditional, b: If, l: Language, ext: Externals)
    requires l.IsBrace()
    requires RenderIf(c.first, l, ext).Success? && RenderElseIfs(c.middle, "else ", l, ext).Success?
    requires c.last.Some? ==> RenderElse(c.last.value, l, ext).Success?
    requires RenderIf(b, l, ext).Success?
    ensures RenderConditional(WithElseIf(c, b), l, ext) ==
            Success(RenderIf(c.first, l, ext).value + RenderElseIfs(c.middle, "else ", l, ext).value
                    + "else " + RenderIf(b, l, ext).value
                    + (if c.last.Some? then RenderElse(c.last.value, l, ext).value else "")
                    + (if l.Rust? then ";" else ""))
  {
    var c2 := WithElseIf(c, b);
    ElseIfsAppend(c.middle, b, "else ", l, ext);
    assert c2.middle == c.middle + [b];
    BraceChainForm(c2, l, ext);
    var first, middle, x := RenderIf(c.first, l, ext).value, RenderElseIfs(c.middle, "else ", l, ext).value,
                            RenderIf(b, l, ext).value;
    var last := if c.last.Some? then RenderElse(c.last.value, l, ext).value else "";
    var semi := if l.Rust? then ";" else "";
    assert first + (middle + "else " + x) + last + semi == first + middle + "else " + x + last + semi;
  }
}
