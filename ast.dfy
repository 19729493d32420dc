/** The expression tree handed from the parser to the checker and the printer,
    together with the type language of the checker and the operators of the lexer. */
module Ast {

  /** The closed set of types of the language.  `Arrow` is the type of a function. */
  datatype Type =
    | StringTy
    | NumberTy
    | BooleanTy
    | VoidTy
    | Arrow(params: seq<Type>, returnTy: Type)

  /** The name of a type's tag, as a type declaration token prints it. */
  function TypeTag(ty: Type): string {
    match ty
    case StringTy => "String"
    case NumberTy => "Number"
    case BooleanTy => "Boolean"
    case VoidTy => "Void"
    case Arrow(_, _) => "Arrow"
  }

  /** The binary operators the lexer recognises. */
  datatype Op =
    | Plus | Minus | Times | Divide | Modulo
    | Less | Greater | EqualEqual | NotEqual | LessEqual | GreaterEqual

  /** The source text of an operator. */
  function OpText(op: Op): string {
    match op
    case Plus => "+"
    case Minus => "-"
    case Times => "*"
    case Divide => "/"
    case Modulo => "%"
    case Less => "<"
    case Greater => ">"
    case EqualEqual => "=="
    case NotEqual => "!="
    case LessEqual => "<="
    case GreaterEqual => ">="
  }

  /** The operators that compare their operands and yield a boolean. */
  predicate IsComparison(op: Op) {
    op in {EqualEqual, NotEqual, Greater, GreaterEqual, Less, LessEqual}
  }

  /** A declared function parameter: its name and its type. */
  datatype Param = Param(name: string, ty: Type)

  /** The expression tree.  `FunctionApp.args` is the argument list that the
      source calls `params`; `If.thenBody` is the source's `then`. */
  datatype Expr =
    | Literal(name: string)
    | StringLit(str: string)
    | NumberLit(num: nat)
    | BooleanLit(b: bool)
    | Variable(name: string, value: Expr)
    | Function(name: string, params: seq<Param>, body: seq<Expr>, returnTy: Type)
    | FunctionApp(functionName: string, args: seq<Expr>)
    | ReturnStatement(value: Expr)
    | Operation(op: Op, left: Expr, right: Expr)
    | If(condition: Expr, thenBody: seq<Expr>)
    | Console(values: seq<Expr>)

  /** The declared parameter types of a function, in order. */
  function ParamTypes(ps: seq<Param>): (r: seq<Type>)
    ensures |r| == |ps|
    ensures forall i :: 0 <= i < |ps| ==> r[i] == ps[i].ty
  {
    if |ps| == 0 then [] else [ps[0].ty] + ParamTypes(ps[1..])
  }

  /** Number of nodes of an expression: the termination measure of every
      traversal of the tree. */
  function Size(e: Expr): (n: nat)
    ensures n >= 1
    decreases e, 1
  {
    match e
    case Variable(_, v) => 1 + Size(v)
    case Function(_, _, body, _) => 1 + SizeOfAll(body)
    case FunctionApp(_, args) => 1 + SizeOfAll(args)
    case ReturnStatement(v) => 1 + Size(v)
    case Operation(_, l, r) => 1 + Size(l) + Size(r)
    case If(c, t) => 1 + Size(c) + SizeOfAll(t)
    case Console(vs) => 1 + SizeOfAll(vs)
    case _ => 1
  }

  function SizeOfAll(es: seq<Expr>): nat
    decreases es, 0
  {
    if |es| == 0 then 0 else Size(es[0]) + SizeOfAll(es[1..])
  }

  lemma {:induction false} SizeOfAllElement(es: seq<Expr>, i: nat)
    requires i < |es|
    ensures Size(es[i]) <= SizeOfAll(es)
  {
    if i > 0 {
      SizeOfAllElement(es[1..], i - 1);
    }
  }
}
