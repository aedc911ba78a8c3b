/** src/models/import.rs: `Import::Module` and `Import::Members`. */
module Imports {
  import opened Ast
  import opened Text
  import opened ToCode

  /** A whole module: `import "loc";` in TypeScript, `mod loc;` in Rust,
      `#include "loc"` and a newline in C++, `import loc` and a newline in
      Python. */
  lemma ModuleForms(loc: string, l: Language, ext: Externals)
    ensures Render(ImportNode(Module(loc)), l, ext) ==
            Success(match l
                    case TypeScript => "import \"" + loc + "\";"
                    case Rust => "mod " + loc + ";"
                    case Cpp => "#include \"" + loc + "\"\n"
                    case Python(_, _, _) => "import " + loc + "\n")
  {
  }

  /** Named members: `import {m1,m2} from "loc";` in TypeScript,
      `use loc::{m1,m2};` in Rust, `from loc import m1,m2` and a newline in
      Python; C++ has no rule and fails. */
  lemma MembersForms(loc: string, members: seq<string>, l: Language, ext: Externals)
    ensures var list := Join(members, ",");
            Render(ImportNode(Members(loc, members)), l, ext) ==
            (match l
             case TypeScript => Success("import {" + list + "} from \"" + loc + "\";")
             case Rust => Success("use " + loc + "::{" + list + "};")
             case Python(_, _, _) => Success("from " + loc + " import " + list + "\n")
             case Cpp => Fail(Unsupported("Import::Members")))
  {
  }

  /** The text between the braces of a Rust `use` lists the members in their
      given order, separated by "," alone: cutting it at each "," gives the
      members back, provided there is at least one and none contains ",". */
  lemma RustMembersRecoverable(loc: string, members: seq<string>, ext: Externals)
    requires |members| > 0
    requires forall i :: 0 <= i < |members| ==> ',' !in members[i]
    ensures Render(ImportNode(Members(loc, members)), Rust, ext).Success?
    ensures var r := Render(ImportNode(Members(loc, members)), Rust, ext).value;
            var start := |"use " + loc + "::{"|;
            start <= |r| - 2 && Split(r[start..|r| - 2], ',') == members
  {
    var list := Join(members, ",");
    var r := Render(ImportNode(Members(loc, members)), Rust, ext).value;
    var head := "use " + loc + "::{";
    assert r == head + list + "};";
    assert r[|head|..|r| - 2] == list;
    SplitJoin(members, ',');
  }

  /** An import never depends on anything but its location, its members and
      the language's tag: Python's types and indentation do not matter. */
  lemma ImportIgnoresPythonSettings(i: Import, l1: Language, l2: Language, ext: Externals)
    requires l1.Python? && l2.Python?
    ensures Render(ImportNode(i), l1, ext) == Render(ImportNode(i), l2, ext)
  {
  }
}
