/** The closed intermediate representation of the emitter.

    The source builds its trees out of `Box<dyn ToCode>` trait objects; here every
    node kind it defines is one constructor of `Node`, and the structs that other
    structs embed by value (`Scope`, `Parameter`, `Function`, `If`, `Else`,
    `ConditionalBuilder`) are datatypes of their own. */
module Ast {

  datatype Option<+T> = None | Some(value: T) {
    function GetOr(default: T): T {
      match this
      case Some(v) => v
      case None => default
    }
  }

  /** Why a render call gives no text. The source aborts (`panic!`, `unwrap`,
      `expect`, `unimplemented!`, or a `match` with no arm for the language);
      the model returns the abort as a value instead of partial text. */
  datatype Failure =
    | Unsupported(construct: string)  // no rendering rule for the requested language
    | MissingType(message: string)    // a type the language requires was not given

  datatype Result<+T> = Success(value: T) | Fail(failure: Failure) {
    predicate IsFailure() { Fail? }
    function PropagateFailure<U>(): Result<U>
      requires Fail?
    {
      Fail(failure)
    }
    function Extract(): T
      requires Success?
    {
      value
    }
  }

  /** `IndentType` (src/models/mod.rs:42-47). The source stores the width as a
      `u16`; widths are naturals here. */
  datatype IndentType = Tab | Space(width: nat)

  /** `Language` (src/models/mod.rs:58-69). The indentation depth is a `u32`
      there and a natural here. */
  datatype Language =
    | Rust
    | TypeScript
    | Cpp
    | Python(includeTypes: bool, indentLevel: Option<nat>, indentType: IndentType)
  {
    /** The brace-delimited languages: Rust, TypeScript and C++. */
    predicate IsBrace() { !Python? }

    /** Whether type annotations are written: always in the brace
        languages, and in Python only when `include_types` is set. */
    predicate WritesTypes() { !Python? || includeTypes }

    /** The current Python depth, an absent level counting as 0. */
    function Depth(): nat {
      if Python? then indentLevel.GetOr(0) else 0
    }

    /** The language a Python body nested one level deeper is rendered in. */
    function Deeper(): (r: Language)
      requires Python?
      ensures r.Python? && r.Depth() == Depth() + 1
      ensures r.includeTypes == includeTypes && r.indentType == indentType
    {
      Python(includeTypes, Some(Depth() + 1), indentType)
    }
  }

  datatype Visibility = Public | Private

  /** `Value` (src/models/mod.rs:17-21). */
  datatype BoolValue = False | True

  /** The four arithmetic node kinds of src/models/operation.rs. */
  datatype ArithOp = Add | Subtract | Multiply | Divide

  /** The four comparators stamped out by `new_comparator!` (src/models/condition.rs:21-24). */
  datatype Comparison = GreaterThan | LessThan | LessThanOrEq | GreaterThanOrEq

  /** The three variants of `Comment` (src/models/statement.rs:144-152). */
  datatype CommentKind = Regular | MultiLine | Doc

  /** `Import` (src/models/import.rs:5-10). */
  datatype Import =
    | Module(location: string)
    | Members(location: string, members: seq<string>)

  datatype Node =
    | Text(text: string)                 // `String` and `&str`
    | Int(number: int)                   // `isize`, `i32`, `usize` and `u32`
    | Value(value: BoolValue)
    | List(items: seq<Node>)             // `Vec<T>`
    | ScopeNode(scope: Scope)
    | ParamNode(param: Parameter)
    | FunctionNode(fn: Function)
    | VisibilityNode(visibility: Visibility)
    | ConditionalNode(chain: Conditional)
    | IfNode(branch: If)
    | ElseNode(otherwise: Else)
    | VariableInitNode(init: VariableInit)
    | AssignVariable(target: Node, newValue: Node)
    | Return(result: Option<Node>)
    | Comment(kind: CommentKind, content: string)
    | Arith(op: ArithOp, left: Node, right: Node)
    | Equal(left: Node, right: Node)
    | And(left: Node, right: Node)
    | Or(left: Node, right: Node)
    | Compare(comparison: Comparison, left: Node, right: Node)
    | ImportNode(imported: Import)
    | WithSemi(inner: Node)
    | RunScope(body: Scope)
    | Println(printed: Node)
    | Ternary(condition: Node, ifTrue: Node, ifFalse: Node)
    | Raw(raw: string)
    | Number
    | Boolean
    | Integer                            // `types::Integer`, rendered by `Externals`
    | FunctionCall(callee: string, args: seq<Node>)  // rendered by `Externals`

  /** `Scope` (src/models/scope.rs:5-9): the children in emission order and an
      indentation level that no renderer reads. */
  datatype Scope = Scope(children: seq<Node>, indentLevel: Option<nat>)

  /** `Parameter` (src/models/mod.rs:123-124): a name and an optional type. */
  datatype Parameter = Parameter(name: Node, typ: Option<Node>)

  /** `Function` (src/models/mod.rs:126-133). */
  datatype Function = Function(
    name: string,
    returnType: Option<Node>,
    visibility: Visibility,
    params: seq<Parameter>,
    scope: Scope)

  /** `VariableInit` (src/models/statement.rs:3-9). */
  datatype VariableInit = VariableInit(name: Node, mutable: Option<bool>, typ: Option<Node>, value: Node)

  /** `If` (src/models/block.rs:82-86). */
  datatype If = If(condition: Node, scope: Scope)

  /** `Else` (src/models/block.rs:143-146). */
  datatype Else = Else(scope: Scope)

  /** `ConditionalBuilder` (src/models/block.rs:5-10): an if, the else-ifs in
      the order they were added, and an optional else. */
  datatype Conditional = Conditional(first: If, middle: seq<If>, last: Option<Else>)

  /** The renderers of `types::Integer` and `expression::FunctionCall`. The
      source refers to both (src/models/utils.rs:1, src/models/print.rs:1) but
      defines neither, so the model takes their output as a parameter and
      states every property that involves them relative to it. */
  datatype Externals = Externals(
    integer: Language -> Result<string>,
    call: (string, seq<Node>, Language) -> Result<string>)
}
