/** The type checker: structural type equality, inference of one expression
    in a context, and the left fold that checks a sequence of expressions
    while threading the context through it. */
module Checker {
  import opened Wrappers
  import opened Ast

  /** One entry of a context: a name and the type bound to it. */
  datatype Binding = Binding(name: string, value: Type)

  /** A scope: the most recently added binding first. */
  type Context = seq<Binding>

  /** Why checking failed; the first failure aborts the whole pass. */
  datatype TypeError =
    | UnresolvedName(name: string)
    | NotCallable(name: string)
    | DuplicateBinding(name: string)
    | InvalidParameterName(name: string)
    | TypeMismatch(op: Op)
    | ArgumentTypeMismatch(name: string)
    | UnsupportedArgument
    | NonBooleanCondition
    | MissingReturn
    | InconsistentBranchTypes
    | ReturnTypeMismatch(expected: Type, received: Type)
    | EmptyPrintArguments

  type InferResult = Result<Type, TypeError>

  /** `i` is the position of the first binding of `name` in `ctx`. */
  predicate IsFirstBinding(ctx: Context, name: string, i: int) {
    && 0 <= i < |ctx| && ctx[i].name == name
    && forall j :: 0 <= j < i ==> ctx[j].name != name
  }

  /** The type of the first (most recent) binding of `name`, if any. */
  function Lookup(ctx: Context, name: string): (r: Option<Type>)
  {
    if |ctx| == 0 then None
    else if ctx[0].name == name then
      Some(ctx[0].value)
    else
      Lookup(ctx[1..], name)
  }

  /** Parameter lists compared element by element, in count and order.  The
      elements are compared with value equality. */
  function StrictEqualParams(params1: seq<Type>, params2: seq<Type>): (r: bool)
    ensures r <==> params1 == params2
  {
    if |params1| == 0 && |params2| == 0 then true
    else if |params1| > 0 && |params2| > 0 && params1[0] == params2[0] then
      var r := StrictEqualParams(params1[1..], params2[1..]);
      assert r ==> params1 == [params1[0]] + params1[1..];
      r
    else false
  }

  /** Type equality: arrows by return type and parameter list, any other
      pair by tag.  It coincides with value equality. */
  function Equal(ty1: Type, ty2: Type): (r: bool)
    ensures r <==> ty1 == ty2
  {
    if ty1.Arrow? && ty2.Arrow? then
      Equal(ty1.returnTy, ty2.returnTy) && StrictEqualParams(ty1.params, ty2.params)
    else
      TypeTag(ty1) == TypeTag(ty2)
  }

  predicate IsBasic(e: Expr) {
    e.StringLit? || e.NumberLit? || e.BooleanLit?
  }

  function InferBasicType(e: Expr): Type
    requires IsBasic(e)
  {
    match e
    case StringLit(_) => StringTy
    case NumberLit(_) => NumberTy
    case BooleanLit(_) => BooleanTy
  }

  /** The type of a name reference. */
  function InferLiteral(name: string, ctx: Context): InferResult {
    match Lookup(ctx, name)
    case Some(ty) => Success(ty)
    case None => Failure(UnresolvedName(name))
  }

  /** Some parameter name is already bound in the enclosing context. */
  predicate HasParamClash(params: seq<Param>, ctx: Context) {
    exists i :: 0 <= i < |params| && Lookup(ctx, params[i].name).Some?
  }

  function ParamBindings(params: seq<Param>): (r: Context)
    ensures |r| == |params|
    ensures forall i :: 0 <= i < |params| ==> r[i] == Binding(params[i].name, params[i].ty)
  {
    if |params| == 0 then [] else [Binding(params[0].name, params[0].ty)] + ParamBindings(params[1..])
  }

  /** The context a function body is checked in: the function's declared
      signature first (so that it can call itself), then its parameters, then
      the enclosing context. */
  function InternalContext(name: string, params: seq<Param>, returnTy: Type, ctx: Context): Context {
    [Binding(name, Arrow(ParamTypes(params), returnTy))] + ParamBindings(params) + ctx
  }

  /** The first return statement of a body, if any. */
  function FirstReturn(es: seq<Expr>): (r: Option<Expr>)
    ensures r.None? <==> forall i :: 0 <= i < |es| ==> !es[i].ReturnStatement?
    ensures r.Some? ==> r.value.ReturnStatement? && Size(r.value) <= SizeOfAll(es)
    ensures r.Some? ==> exists i :: && 0 <= i < |es| && es[i] == r.value
                                    && forall j :: 0 <= j < i ==> !es[j].ReturnStatement?
  {
    if |es| == 0 then None
    else if es[0].ReturnStatement? then Some(es[0])
    else
      var r := FirstReturn(es[1..]);
      if r.Some? then
        var i :| 0 <= i < |es[1..]| && es[1..][i] == r.value
                 && forall j :: 0 <= j < i ==> !es[1..][j].ReturnStatement?;
        assert es[i + 1] == r.value;
        r
      else
        r
  }

  predicate AllEqualTo(tys: seq<Type>, ty: Type) {
    forall i :: 0 <= i < |tys| ==> Equal(tys[i], ty)
  }

  function Infer(e: Expr, ctx: Context): InferResult
    decreases Size(e), 4
  {
    match e
    case Literal(name) => InferLiteral(name, ctx)
    case StringLit(_) => Success(InferBasicType(e))
    case NumberLit(_) => Success(InferBasicType(e))
    case BooleanLit(_) => Success(InferBasicType(e))
    case Variable(_, value) => Infer(value, ctx)
    case Operation(op, left, right) => InferOp(op, left, right, ctx)
    case If(condition, thenBody) => InferIf(condition, thenBody, ctx)
    case Function(_, params, body, returnTy) => InferFunction(params, body, returnTy, ctx)
    case FunctionApp(name, args) => InferFunctionApp(name, args, ctx)
    case Console(values) => InferConsole(values, ctx)
    case ReturnStatement(value) => Infer(value, ctx)
  }

  /** Comparisons need operands of equal types and yield Boolean; `+` adds
      numbers or concatenates strings; the other arithmetic operators need
      numbers.  Both operands are inferred before either is examined. */
  function InferOp(op: Op, left: Expr, right: Expr, ctx: Context): InferResult
    decreases 1 + Size(left) + Size(right), 2
  {
    var leftTy :- Infer(left, ctx);
    var rightTy :- Infer(right, ctx);
    if IsComparison(op) then
      if Equal(leftTy, rightTy) then Success(BooleanTy) else Failure(TypeMismatch(op))
    else if op == Plus then
      if Equal(leftTy, NumberTy) && Equal(rightTy, NumberTy) then Success(NumberTy)
      else if Equal(leftTy, StringTy) && Equal(rightTy, StringTy) then Success(StringTy)
      else Failure(TypeMismatch(op))
    else
      if Equal(leftTy, NumberTy) && Equal(rightTy, NumberTy) then Success(NumberTy)
      else Failure(TypeMismatch(op))
  }

  /** The callee must be bound to an arrow; the argument types, inferred left
      to right, must be exactly its parameter types. */
  function InferFunctionApp(name: string, args: seq<Expr>, ctx: Context): InferResult
    decreases 1 + SizeOfAll(args), 2
  {
    match Lookup(ctx, name)
    case None => Failure(UnresolvedName(name))
    case Some(f) =>
      if !f.Arrow? then Failure(NotCallable(name))
      else
        var argTys :- InferArgs(args, ctx);
        if argTys == f.params then Success(f.returnTy) else Failure(ArgumentTypeMismatch(name))
  }

  function InferArgs(args: seq<Expr>, ctx: Context): Result<seq<Type>, TypeError>
    decreases SizeOfAll(args), 5
  {
    if |args| == 0 then Success([])
    else
      var ty :- InferArg(args[0], ctx);
      var tys :- InferArgs(args[1..], ctx);
      Success([ty] + tys)
  }

  /** The type of one argument.  Only literals, names, operations, calls and
      function literals can be arguments; a function literal is declared in
      place, as a top-level declaration would be. */
  function InferArg(arg: Expr, ctx: Context): InferResult
    decreases Size(arg), 4
  {
    match arg
    case StringLit(_) => Success(InferBasicType(arg))
    case NumberLit(_) => Success(InferBasicType(arg))
    case BooleanLit(_) => Success(InferBasicType(arg))
    case Operation(op, left, right) => InferOp(op, left, right, ctx)
    case FunctionApp(name, args) => InferFunctionApp(name, args, ctx)
    case Literal(name) => InferLiteral(name, ctx)
    case Function(name, params, body, returnTy) => DeclareFunction(name, params, body, returnTy, ctx)
    case _ => Failure(UnsupportedArgument)
  }

  /** A function declaration: its name and its parameter names must be new to
      the context; its body is inferred in the internal context. */
  function DeclareFunction(name: string, params: seq<Param>, body: seq<Expr>, returnTy: Type,
                           ctx: Context): InferResult
    decreases 1 + SizeOfAll(body), 3
  {
    if Lookup(ctx, name).Some? then Failure(DuplicateBinding(name))
    else if HasParamClash(params, ctx) then Failure(InvalidParameterName(name))
    else InferFunction(params, body, returnTy, InternalContext(name, params, returnTy, ctx))
  }

  /** The types of the `If` expressions found directly in a body, in order. */
  function InferNestedIfs(es: seq<Expr>, ctx: Context): Result<seq<Type>, TypeError>
    decreases SizeOfAll(es), 5
  {
    if |es| == 0 then Success([])
    else if es[0].If? then
      var ty :- Infer(es[0], ctx);
      var tys :- InferNestedIfs(es[1..], ctx);
      Success([ty] + tys)
    else
      InferNestedIfs(es[1..], ctx)
  }

  /** A conditional: a Boolean condition, a return statement in the branch
      whose type is the result, nested conditionals of that same type, and a
      branch that checks.  The return value and the nested conditionals are
      inferred in the conditional's own context. */
  function InferIf(condition: Expr, thenBody: seq<Expr>, ctx: Context): InferResult
    decreases 1 + Size(condition) + SizeOfAll(thenBody), 2
  {
    var conditionTy :- Infer(condition, ctx);
    if !conditionTy.BooleanTy? then Failure(NonBooleanCondition)
    else
      match FirstReturn(thenBody)
      case None => Failure(MissingReturn)
      case Some(returnStatement) =>
        var returnTy :- Infer(returnStatement, ctx);
        var nestedTys :- InferNestedIfs(thenBody, ctx);
        if !AllEqualTo(nestedTys, returnTy) then Failure(InconsistentBranchTypes)
        else
          var checked :- Check(thenBody, ctx);
          Success(returnTy)
  }

  /** A function literal: the type of its first return statement (and of each
      conditional directly in its body) must be its declared return type, and
      its body must check.  Its type is the arrow of its parameter types. */
  function InferFunction(params: seq<Param>, body: seq<Expr>, returnTy: Type, ctx: Context): InferResult
    decreases 1 + SizeOfAll(body), 2
  {
    var paramsTy := ParamTypes(params);
    match FirstReturn(body)
    case None => Failure(MissingReturn)
    case Some(returnStatement) =>
      var inferredTy :- Infer(returnStatement, ctx);
      var ifTys :- InferNestedIfs(body, ctx);
      if !AllEqualTo(ifTys, inferredTy) then Failure(InconsistentBranchTypes)
      else if !Equal(returnTy, inferredTy) then Failure(ReturnTypeMismatch(returnTy, inferredTy))
      else
        var checked :- Check(body, ctx);
        Success(Arrow(paramsTy, inferredTy))
  }

  /** A print needs at least one value; its values must check. */
  function InferConsole(values: seq<Expr>, ctx: Context): InferResult
    decreases 1 + SizeOfAll(values), 2
  {
    if |values| == 0 then Failure(EmptyPrintArguments)
    else
      var checked :- Check(values, ctx);
      Success(VoidTy)
  }

  /** Checks a sequence left to right.  A declaration binds its name in front
      of the context seen by the rest; any other expression is inferred and
      leaves the context as it is. */
  function Check(es: seq<Expr>, ctx: Context): Result<Context, TypeError>
    decreases SizeOfAll(es), 5
  {
    if |es| == 0 then Success(ctx)
    else
      var current := es[0];
      match current
      case Variable(name, _) =>
        if Lookup(ctx, name).Some? then Failure(DuplicateBinding(name))
        else
          var ty :- Infer(current, ctx);
          Check(es[1..], [Binding(name, ty)] + ctx)
      case Function(name, params, body, returnTy) =>
        var ty :- DeclareFunction(name, params, body, returnTy, ctx);
        Check(es[1..], [Binding(name, ty)] + ctx)
      case _ =>
        var ty :- Infer(current, ctx);
        Check(es[1..], ctx)
  }
}
