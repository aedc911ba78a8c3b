/** `Scope` (src/models/scope.rs): construction, and what its rendering
    promises about order, separators and Python indentation. */
module Scopes {
  import opened Ast
  import opened Text
  import opened ToCode

  /** `Scope::default` (src/models/scope.rs:11-19): no children and no
      indentation level. */
  function Default(): (s: Scope)
    ensures s.children == [] && s.indentLevel.None?
  {
    Scope([], None)
  }

  /** `Scope::with` (src/models/scope.rs:22-29): the child goes last, the
      earlier children keep their places and the level is untouched. */
  function With(s: Scope, child: Node): (r: Scope)
    ensures |r.children| == |s.children| + 1
    ensures r.children[..|s.children|] == s.children && r.children[|s.children|] == child
    ensures r.indentLevel == s.indentLevel
  {
    s.(children := s.children + [child])
  }

  /** An empty scope renders to nothing in every language. */
  lemma EmptyScopeRendersEmpty(l: Language, ext: Externals)
    ensures RenderScope(Default(), l, ext) == Success("")
  {
  }

  /** The scope's own `indentLevel` never matters: only the language's depth does. */
  lemma IndentLevelIgnored(children: seq<Node>, a: Option<nat>, b: Option<nat>, l: Language, ext: Externals)
    ensures RenderScope(Scope(children, a), l, ext) == RenderScope(Scope(children, b), l, ext)
  {
  }

  lemma {:induction false} LinesAppend(l: Language, parts: seq<string>, last: string)
    ensures Lines(l, parts + [last]) == Lines(l, parts) + LinePrefix(l) + last
  {
    if |parts| == 0 {
      assert parts + [last] == [last];
    } else {
      assert (parts + [last])[1..] == parts[1..] + [last];
      LinesAppend(l, parts[1..], last);
    }
  }

  lemma {:induction false} RenderAllAppend(ns: seq<Node>, n: Node, l: Language, ext: Externals)
    ensures RenderAll(ns + [n], l, ext) ==
            (var xs :- RenderAll(ns, l, ext);
             var x :- Render(n, l, ext);
             Success(xs + [x]))
  {
    if |ns| == 0 {
      assert ns + [n] == [n] && [n][1..] == [];
      assert RenderAll([], l, ext) == Success([]);
      if Render(n, l, ext).Success? {
        assert [Render(n, l, ext).value] + [] == [] + [Render(n, l, ext).value];
      }
    } else {
      assert (ns + [n])[0] == ns[0] && (ns + [n])[1..] == ns[1..] + [n];
      RenderAllAppend(ns[1..], n, l, ext);
      var head, rest := Render(ns[0], l, ext), RenderAll(ns[1..], l, ext);
      if head.Success? && rest.Success? && Render(n, l, ext).Success? {
        assert [head.value] + (rest.value + [Render(n, l, ext).value])
            == ([head.value] + rest.value) + [Render(n, l, ext).value];
      }
    }
  }

  /** Adding a child with `with` adds exactly that child's line at the end of
      the output, and fails exactly when the scope or the child fails. */
  lemma RenderWith(s: Scope, child: Node, l: Language, ext: Externals)
    ensures RenderScope(With(s, child), l, ext) ==
            (var body :- RenderScope(s, l, ext);
             var x :- Render(child, l, ext);
             Success(body + LinePrefix(l) + x))
  {
    RenderAllAppend(s.children, child, l, ext);
    var all := RenderAll(s.children, l, ext);
    if all.Success? && Render(child, l, ext).Success? {
      LinesAppend(l, all.value, Render(child, l, ext).value);
    }
  }

  lemma {:induction false} BraceLinesConcat(l: Language, parts: seq<string>)
    requires l.IsBrace()
    ensures Lines(l, parts) == Concat(parts)
  {
    if |parts| > 0 {
      BraceLinesConcat(l, parts[1..]);
    }
  }

  /** For Rust, TypeScript and C++ a scope is its children's texts, in order,
      with nothing between them. */
  lemma BraceScopeIsConcatenation(s: Scope, l: Language, ext: Externals)
    requires l.IsBrace()
    ensures RenderScope(s, l, ext) ==
            (var parts :- RenderAll(s.children, l, ext); Success(Concat(parts)))
  {
    var all := RenderAll(s.children, l, ext);
    if all.Success? {
      BraceLinesConcat(l, all.value);
    }
  }

  lemma {:induction false} LinesLength(l: Language, parts: seq<string>)
    ensures |Lines(l, parts)| == TotalLength(parts) + |parts| * |LinePrefix(l)|
  {
    if |parts| > 0 {
      LinesLength(l, parts[1..]);
    }
  }

  /** In Python, n children of total length m render to m + n * (1 + depth *
      |indent|) characters: one newline and one indentation per child. */
  lemma PythonScopeLength(s: Scope, l: Language, ext: Externals)
    requires l.Python?
    requires RenderScope(s, l, ext).Success?
    ensures |RenderScope(s, l, ext).value| ==
            TotalLength(RenderAll(s.children, l, ext).value)
            + |s.children| * (1 + l.Depth() * |IndentString(l.indentType)|)
  {
    LinesLength(l, RenderAll(s.children, l, ext).value);
  }

  /** A body one level deeper writes exactly one more indentation unit
      before each of its lines than its parent does. */
  lemma DeeperLinePrefix(l: Language)
    requires l.Python?
    ensures LinePrefix(l.Deeper()) == LinePrefix(l) + IndentString(l.indentType)
  {
    RepeatSucc(IndentString(l.indentType), l.Depth());
  }
}
