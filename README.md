# unilang in Dafny

unilang is a small code emitter. A caller builds a tree of nodes and calls
`to_code(language)`, and gets back source text in Rust, TypeScript, C++ or
Python. The nodes are:

- scopes and functions with parameters and visibility;
- variable initialisations, assignments, returns and comments;
- if / else-if / else chains;
- arithmetic, equality, boolean and comparison operators;
- imports, ternaries and raw text;
- the primitive types `Number` and `Boolean`;
- a print statement, and `RunScope`, which wraps a body in the program
  entry point each language needs.

This project models that emitter as pure Dafny functions and proves what
each renderer writes.

- `Ast` is the node tree. Every node kind the source implements `ToCode`
  for is one constructor of `Node`. `Scope`, `Parameter`, `Function`,
  `VariableInit`, `If`, `Else` and `ConditionalBuilder` (`Conditional`)
  are datatypes of their own. `Language` carries Python's `include_types`,
  indentation level and indentation unit.
- `ToCode` holds one family of mutually recursive functions, `Render` and
  its companions. Each maps a node and a language to a `Result<string>`.
  - Where the source aborts, the model returns a `Failure`. This covers
    `panic!`, `unwrap`, `expect`, `unimplemented!`, and a `match` with no
    arm for the language.
  - A node fails with the first failure among its parts, in the source's
    left-to-right order, so no call yields partial text.
- The other modules follow the source files one for one: `Scopes`,
  `Functions`, `Blocks`, `Statements`, `Operations`, `Conditions`,
  `Comparators`, `Imports`, `Utils`, `Print`, `Expressions` and `Types`.
  Each holds the builders of its file as functions on values, plus the
  lemmas about its renderers.
- `Text` holds repetition, joining and splitting, and decimal numerals.

The source's builders take `mut self`, set one field or push one element,
and return the value. Nothing else holds a reference to it, so each builder
is a function from the old value to the new one. Every one of them states
which field it changes and that the others keep their values.

The source refers to `types::Integer` and `expression::FunctionCall` but
defines neither. The renderers therefore take an `Externals` value: a
function giving the text of `Integer` in each language, and a function
giving the text of a call. Every property that involves them is stated
relative to those two functions.

The model writes what the code writes, including these behaviours:

- `Divide` writes "*", exactly as src/models/operation.rs:55 does
  (`Operations.DivideWritesMultiply`). This is most likely a defect in
  the source: the `Divide` arm is a copy of the `Multiply` arm, and "/"
  was evidently meant. The model keeps the code's "*".
- A ternary has no Python or C++ form.
- Arithmetic has no C++ or Python form.
- `Number` and `Boolean` have no C++ or Python form
  (src/models/types.rs:8-11, 20-23), so a C++ parameter or variable typed
  with them fails.
- A Rust `if` writes no parentheses around its condition: "if c{body}"
  (src/models/block.rs:92-96).
- In Python every else-if is written as "el" followed by its `if` text,
  and the else-ifs are joined with nothing between them
  (src/models/block.rs:58-61). The second "elif" follows the first
  branch's body on the same line (`Blocks.PythonElifsGlued`).
- The `add` example of src/lib.rs returns `a+b` directly.
- Modulus, generic types and an async result type do not exist in the code.

## Model

| member | source | states |
|---|---|---|
| Ast.Language.Deeper | src/models/block.rs:109-116 | A nested Python body is rendered one level deeper than the current depth, counting an absent level as 0, with the same type flag and indentation unit |
| ToCode.IndentString | src/models/mod.rs:49-56 | A tab unit is "\t"; `Space(n)` is exactly n space characters |
| ToCode.LinePrefix | src/models/scope.rs:36-49 | A brace language writes nothing before a scope's child; Python writes a newline followed by depth × (indent width) characters |
| ToCode.TypeSuffix | src/models/statement.rs:63-66 | The type annotation is empty exactly when no type is given |
| ToCode.RenderVisibility | src/models/mod.rs:323-337 | A visibility is "pub" or "" in Rust and "export" or "" in TypeScript, by whether it is public, and fails in C++ and Python |
| ToCode.RenderAll | src/models/scope.rs:34-51 | Rendering the children succeeds exactly when every child does, and then gives one text per child, in order, each that child's own text |
| ToCode.RenderParams | src/models/mod.rs:245-248 | The parameter list succeeds exactly when every parameter does, one text per parameter in order |
| ToCode.RenderCppParams | src/models/mod.rs:284-291 | The same for the C++ parameter list a function writes itself |
| Text.Repeat | src/models/mod.rs:53 | `s` repeated n times has length n·\|s\| |
| Text.SplitJoin | src/models/import.rs:25 | Joining parts with a one-character separator that none contains is undone by splitting at it |
| Text.Decimal | src/models/mod.rs:75-101 | An integer's numeral is non-empty and starts with "-" exactly when the integer is negative |
| Text.DecimalRoundTrip | src/models/mod.rs:75-101 | Reading the numeral back gives the integer: `to_string` loses nothing |
| Scopes.Default | src/models/scope.rs:11-19 | The default scope has no children and no indentation level |
| Scopes.With | src/models/scope.rs:22-29 | `with` appends the child last and leaves the earlier children and the level as they were |
| Scopes.EmptyScopeRendersEmpty | src/models/scope.rs:33-52 | An empty scope renders to "" in every language |
| Scopes.IndentLevelIgnored | src/models/scope.rs:32-52 | The scope's own indentation level never changes its text; only the language's depth does |
| Scopes.RenderWith | src/models/scope.rs:22-52 | Adding a child adds exactly its line prefix and text at the end, and fails exactly when the scope or the child fails |
| Scopes.BraceScopeIsConcatenation | src/models/scope.rs:34-51 | In Rust, TypeScript and C++ a scope is its children's texts, in order, with no separator |
| Scopes.PythonScopeLength | src/models/scope.rs:37-48 | A Python scope of n children of total length m has length m + n·(1 + depth·\|indent\|) |
| Scopes.DeeperLinePrefix | src/models/scope.rs:42-46 | One level deeper, each line carries exactly one more indentation unit |
| Functions.NewBuilder | src/models/mod.rs:144-154 | A new builder has nothing set and no parameters |
| Functions.FunctionBuilder.Name | src/models/mod.rs:156-160 | `name` sets the name and changes no other field |
| Functions.FunctionBuilder.WithReturnType | src/models/mod.rs:162-166 | `with_return_type` sets the return type and changes no other field |
| Functions.FunctionBuilder.WithVisibility | src/models/mod.rs:168-172 | `with_visibility` sets the visibility and changes no other field |
| Functions.FunctionBuilder.WithParam | src/models/mod.rs:174-178 | `with_param` appends the parameter after the earlier ones and changes no other field |
| Functions.FunctionBuilder.WithScope | src/models/mod.rs:180-184 | `with_scope` sets the body and changes no other field |
| Functions.FunctionBuilder.Build | src/models/mod.rs:186-194 | `build` gives nothing exactly when the name or the body is missing; otherwise the fields as set, and Private when no visibility was given |
| Functions.WithParamsKeepsOrder | src/models/mod.rs:174-178 | A run of `with_param` calls leaves the parameters in call order after the earlier ones and touches no other field |
| Functions.BuildVisibility | src/models/mod.rs:186-194 | Without a visibility the built function is private; a given visibility is kept |
| Functions.ValueForms | src/models/mod.rs:23-36 | `True`/`False` are "true"/"false" in the brace languages and "True"/"False" in Python |
| Functions.LiteralForms | src/models/mod.rs:75-115 | An integer renders as a numeral that reads back as that integer, and a string renders unchanged, in every language |
| Functions.ListIsConcatenation | src/models/mod.rs:339-343 | A `Vec` is its items' texts concatenated in order with no separator, failing when an item fails |
| Functions.LiteralListLanguageIndependent | src/models/mod.rs:75-115 | A `Vec` of literals renders, and renders the same in every language |
| Functions.ParamForms | src/models/mod.rs:197-231 | Rust gives "name:type" and fails when untyped. TypeScript gives "name:type" or "name:any". C++ gives "type name" and fails when untyped. Python gives the name, plus ":type" only when types are included and given; without types the type is never read, so it need not render |
| Functions.UntypedParamFails | src/models/mod.rs:200-219 | An untyped parameter fails in Rust and C++ with a missing-type error, never with a substituted token |
| Functions.CppParamsAgree | src/models/mod.rs:284-291 | The C++ function's own parameter rendering agrees with `Parameter::to_code`: same texts, and it fails exactly when that fails |
| Functions.FunctionForms | src/models/mod.rs:233-321 | The four function shapes: "pub " or "export " only when public; "->T", ":T" or ":void" in Rust and TypeScript; "void" by default in C++, where visibility is ignored; "->T" in Python only when types are included, the return type otherwise not read; the Python body one level deeper |
| Functions.FunctionFailures | src/models/mod.rs:233-321 | A function renders exactly when its visibility (Rust and TypeScript), its parameters (the C++ list in C++), its return type (unless Python without types) and its body (one level deeper in Python) all render |
| Functions.ParamsFirstFailure | src/models/mod.rs:245-248 | The parameter list fails with the failure of its first failing parameter |
| Functions.CppParamsFirstFailure | src/models/mod.rs:284-291 | The C++ parameter list fails with the failure of its first failing parameter |
| Functions.UntypedParamFailsFunction | src/models/mod.rs:233-321 | In Rust and C++ an untyped parameter makes the whole function fail with a missing-type error once everything written before it renders |
| Functions.VisibilityIgnored | src/models/mod.rs:276-318 | C++ and Python functions do not depend on the visibility |
| Functions.VisibilityUnsupported | src/models/mod.rs:323-337 | A visibility fails in C++ and Python |
| Functions.AddFunctionParts | src/lib.rs:19-27 | The test's builder chain yields the public function "add" returning `Number`, with parameters a and b and the body `return a+b` |
| Functions.AddFunctionRendersRust | src/lib.rs:30-33 | That function renders in Rust to exactly `pub fn add(a:i32,b:i32)->i32{return a+b;}` |
| Functions.AddFunctionRendersTypeScript | src/lib.rs:35-38 | It renders in TypeScript to exactly `export function add(a:number,b:number):number{return a+b;}` |
| Blocks.DefaultIf | src/models/block.rs:122-129 | The default `If` has the condition "1" and an empty body |
| Blocks.DefaultElse | src/models/block.rs:175-181 | The default `Else` has an empty body |
| Blocks.DefaultConditional | src/models/block.rs:72-80 | The default chain is the default `If`, no else-ifs and no else |
| Blocks.WithCondition | src/models/block.rs:132-135 | `with_condition` replaces the condition only |
| Blocks.IfWithScope | src/models/block.rs:137-140 | `If::with_scope` replaces the body only |
| Blocks.ElseWithScope | src/models/block.rs:184-187 | `Else::with_scope` replaces the body |
| Blocks.WithIf | src/models/block.rs:13-16 | `with_if` replaces the first branch and nothing else |
| Blocks.WithElseIf | src/models/block.rs:18-21 | `with_else_if` appends after the earlier else-ifs and changes nothing else |
| Blocks.WithElse | src/models/block.rs:23-26 | `with_else` sets the else branch and changes nothing else |
| Blocks.WithElseIfsKeepsOrder | src/models/block.rs:18-21 | A run of `with_else_if` calls keeps call order after the earlier else-ifs |
| Blocks.LastElseWins | src/models/block.rs:13-26 | Of two `with_else` (or `with_if`) calls the later one wins; `with_if` leaves the else-ifs alone |
| Blocks.IfForms | src/models/block.rs:88-120 | "if c{body}" in Rust, "if(c){body}" in TypeScript and C++, "if c:" and the body one level deeper in Python |
| Blocks.ElseForms | src/models/block.rs:148-173 | "else{body}" in the brace languages, "else:" and the body one level deeper in Python |
| Blocks.BranchFailures | src/models/block.rs:88-173 | A branch fails exactly when its condition or its body fails |
| Blocks.PythonBodyIndentation | src/models/block.rs:102-117 | Adding a statement to a Python branch body adds one line after the branch: a newline, the current indentation plus one unit, and the statement rendered one level deeper; the branch fails exactly when the old branch or the statement fails |
| Blocks.ElseIfsSucceed | src/models/block.rs:41-44 | The else-if run renders exactly when every else-if does |
| Blocks.ElseIfsAppend | src/models/block.rs:41-44 | One more else-if adds exactly the prefix and its text at the end of the run |
| Blocks.PythonElif | src/models/block.rs:58-61 | In Python an else-if becomes "elif c:" followed by its body |
| Blocks.ElseIfsTwo | src/models/block.rs:41-44 | Two else-ifs render as the prefix and the first text, then the prefix and the second text, with no separator |
| Blocks.PythonElifsGlued | src/models/block.rs:58-61 | Two Python else-ifs read "elif c1:b1elif c2:b2": the second "elif" follows the first body with no line break |
| Blocks.ChainFailures | src/models/block.rs:29-70 | The chain fails exactly when its first branch, an else-if or its else fails |
| Blocks.BraceChainForm | src/models/block.rs:37-53 | In the brace languages: the first branch, each else-if after "else ", the else exactly as `Else` renders it, and ";" in Rust only |
| Blocks.PythonChainIsScope | src/models/block.rs:55-67 | In Python the chain is a fresh scope of exactly three children at the current depth: the first branch, the texts of all else-ifs concatenated with nothing between them, and the else or "" |
| Blocks.PythonChainWithoutElse | src/models/block.rs:63-66 | Without an else the Python chain still ends in a newline and indentation |
| Blocks.WithElseIfRenders | src/models/block.rs:18-53 | One more `with_else_if` puts "else " and that branch's text just before the else segment of a brace-language chain |
| Statements.DefaultVariableInit | src/models/statement.rs:11-20 | The default is name "foo", value "bar", no mutability, no type |
| Statements.WithName | src/models/statement.rs:23-26 | `with_name` changes only the name |
| Statements.WithMutable | src/models/statement.rs:28-31 | `with_mutable` changes only the mutability |
| Statements.WithType | src/models/statement.rs:33-36 | `with_type` changes only the type |
| Statements.WithValue | src/models/statement.rs:38-41 | `with_value` changes only the value |
| Statements.VariableInitForms | src/models/statement.rs:44-106 | Rust writes "let ", "mut " exactly when mutable, ":T" exactly when typed, then "=v;". C++ writes "T n=v;" and fails untyped. Python writes ":T" only with types included, and no ";"; without types the type is never read. TypeScript writes "let" exactly when mutable, else "const" |
| Statements.CppVariableNeedsType | src/models/statement.rs:69-76 | An untyped C++ variable fails, whatever its other parts |
| Statements.AssignForms | src/models/statement.rs:111-123 | An assignment is "name=value" with ";" in the brace languages only |
| Statements.ReturnForms | src/models/statement.rs:128-142 | "return e;" and "return;" in the brace languages, without ";" in Python |
| Statements.CommentForms | src/models/statement.rs:154-173 | "//c" and a newline or "#c"; "/*c*/" or triple quotes; a doc comment is "///c" and a newline in Rust, "/**c*/" in TypeScript, the regular comment in C++ and the multi-line one in Python |
| Operations.ArithForms | src/models/operation.rs:8-59 | In Rust and TypeScript an operation is left text, token ("+", "-", "*", and "*" for `Divide`), right text, with no parentheses; it fails exactly when an operand fails, the left first |
| Operations.ArithUnsupported | src/models/operation.rs:11-15 | C++ and Python have no form for any operation |
| Operations.DivideWritesMultiply | src/models/operation.rs:47-59 | `Divide` writes the same text as `Multiply` |
| Operations.NoGrouping | src/models/operation.rs:8-17 | Nested operations are not grouped: (a+b)*c and a+(b*c) both read "a+b*c" |
| Conditions.LogicForms | src/models/condition.rs:6-60 | `Equal`, `And` and `Or` fail only when an operand fails, the left first, and otherwise write "(" left token right ")"; the token is "===" in TypeScript and C++ and "==" in Rust and Python for `Equal`, "&&"/"||" or " and "/" or " in Python |
| Conditions.Parenthesised | src/models/condition.rs:6-60 | Every condition's text is the comparator shape: one pair of parentheses around the operands and the token |
| Conditions.BaseCaseRust | examples/fibonacci.rs:19-22 | `Or(Equal(num,0),Equal(num,1))` reads "((num==0)\|\|(num==1))" in Rust |
| Conditions.BaseCasePython | examples/fibonacci.rs:19-22 | It reads "((num==0) or (num==1))" in Python |
| Comparators.ComparisonTokens | src/models/condition.rs:21-24 | The comparators use ">", "<", "<=" and ">=", no two alike |
| Comparators.ComparatorForms | src/macros.rs:7-17 | A comparator renders left then right in the same language, fails when either fails (the left first), and otherwise writes "(" left token right ")" |
| Comparators.ComparatorLanguageIndependent | src/macros.rs:7-17 | Two languages in which the operands read the same give the same comparison |
| Comparators.ComparatorTextParts | src/macros.rs:10-15 | The operands and the token appear verbatim at fixed positions between the parentheses, with no spaces added |
| Imports.ModuleForms | src/models/import.rs:15-20 | `import "loc";`, `mod loc;`, `#include "loc"` and a newline, `import loc` and a newline |
| Imports.MembersForms | src/models/import.rs:21-36 | `import {m1,m2} from "loc";`, `use loc::{m1,m2};`, `from loc import m1,m2` and a newline; C++ fails |
| Imports.RustMembersRecoverable | src/models/import.rs:29-31 | The members between the braces of a `use` are in order, separated by "," alone, and cutting at "," gives them back |
| Imports.ImportIgnoresPythonSettings | src/models/import.rs:12-38 | An import depends on the language's tag only |
| Utils.WithSemiForm | src/models/utils.rs:6-10 | `WithSemi` adds exactly one ";" in every language and fails exactly when its node fails |
| Utils.CppMainParts | src/models/utils.rs:18-26 | The C++ builder chain yields the private "main" returning `Integer`, with the body text then `return 1` |
| Utils.RunScopeCpp | src/models/utils.rs:18-26 | A C++ run scope renders exactly as that function built around the scope's text |
| Utils.RunScopeCppFails | src/models/utils.rs:16-26 | A C++ run scope fails with its scope's failure |
| Utils.RunScopeCppText | src/models/utils.rs:18-26 | The C++ text is "T main(){", the body, "return 1;}" |
| Utils.RustMainParts | src/models/utils.rs:27-30 | The Rust builder chain yields the private "main" with no return type and the body text |
| Utils.RunScopeRust | src/models/utils.rs:27-30 | A Rust run scope renders exactly as that function built around the scope's text |
| Utils.RunScopeRustFails | src/models/utils.rs:27-30 | A Rust run scope fails with its scope's failure |
| Utils.RunScopeRustText | src/models/utils.rs:27-30 | The Rust text is "fn main(){", the body, "}": no "pub", no return type, no trailing return |
| Utils.RunScopePassThrough | src/models/utils.rs:31-32 | In TypeScript and Python a run scope is the scope's own text |
| Print.PrintlnValueFirst | src/models/print.rs:11-12 | The value is rendered first; its failure is the statement's |
| Print.PrintlnCalls | src/models/print.rs:13-19 | Outside C++ the statement is the language's print call on the value's text, with ";" in TypeScript and Rust |
| Print.PrintlnPython | src/models/print.rs:14 | Python: exactly the call `print` with the value's text, no ";" |
| Print.PrintlnTypeScript | src/models/print.rs:15 | TypeScript: exactly `WithSemi` of the call `console.log` with the value's text |
| Print.PrintlnRust | src/models/print.rs:16 | Rust: exactly `WithSemi` of the call `println!` with the format string first and the value's text second |
| Print.PrintlnCpp | src/models/print.rs:17 | C++: "cout << ", the value's text and ";" |
| Expressions.TernaryForms | src/models/expression.rs:6-28 | "if c{t}else{e}" in Rust, "c?t:e" in TypeScript; it renders exactly when all three parts do, and fails with the condition's failure, else the then-branch's, else the else-branch's |
| Expressions.TernaryUnsupported | src/models/expression.rs:9-26 | C++ and Python have no ternary |
| Expressions.RawVerbatim | src/models/expression.rs:33-37 | `Raw` writes its text unchanged in every language |
| Types.TypeTokens | src/models/types.rs:6-25 | `Number` is "i32"/"number", `Boolean` "bool"/"boolean"; C++ and Python fail |
| Types.TypeTokensIgnorePythonSettings | src/models/types.rs:4-16 | The tokens depend on the language's tag only |
| Types.TypedParameterRust | src/models/mod.rs:201-207 | A Rust parameter typed `Number` or `Boolean` reads "a:i32" or "a:bool" |
| Types.TypedParameterTypeScript | src/models/mod.rs:208-213 | A TypeScript one reads "a:number" or "a:boolean" |
| Types.CppTypedParameterFails | src/models/types.rs:6-13 | A C++ parameter typed `Number` fails because the type does |
| Types.UntypedPythonKeepsTypedParameter | src/models/mod.rs:220-228 | In Python without types a parameter typed `Number` or `Boolean` renders as its bare name, although the type itself has no Python form |

## Left out

- Integer widths: the indentation width (`u16`), the Python depth (`u32`)
  and the literal types are unbounded. A depth of `u32::MAX` would overflow
  in the source and does not here.
- `types::Integer` and `expression::FunctionCall` are not part of this
  model. The source names them but does not define them. Their output is
  the `Externals` parameter, and nothing is assumed about it.
- `Function::default` and `Function::with_name`, used by
  src/models/utils.rs:18-30 and src/lib.rs, are not part of this model.
  They are not defined either. The model builds those functions with
  `FunctionBuilder`, whose unset visibility is private.
- `Debug` derives and `Box<dyn ToCode>` dispatch: the node tree is one
  closed datatype.
- examples/fibonacci.rs: the file writing and the language loop are left
  out. Only its base-case condition is modelled (`Conditions.BaseCaseRust`,
  `Conditions.BaseCasePython`).
- The whole-scope assertion of src/lib.rs:30-38 is left out. That scope
  also holds `Import::Members("foo", ["Hello"])`, which writes
  `use foo::{Hello};` (`Imports.MembersForms`), but the asserted string
  lacks it. Only the function's own string is proved.
- Aborts are values. `panic!`, `unwrap` and `expect` on a missing type
  become `MissingType`. `unimplemented!()` and missing `match` arms become
  `Unsupported`, naming the construct. The source, whose matches in
  operation.rs, types.rs and expression.rs are not exhaustive, does not
  compile as written.
- Rendering the built tree: for `RunScope`, `Println` and the Python chain,
  `Render` writes the text of the tree the source builds with the shared
  printers. The lemmas `Utils.RunScopeCpp`, `Utils.RunScopeRust`,
  `Print.PrintlnPython`, `Print.PrintlnTypeScript`, `Print.PrintlnRust`
  and `Blocks.PythonChainIsScope` prove that this equals rendering the
  built tree.
- ToCode.LinePrefix: the contract states the length and the leading
  newline of the Python prefix. That its body is the indentation unit
  repeated depth times is its definition, and `Scopes.DeeperLinePrefix`
  relates consecutive depths.
