/** What the type checker promises: equality of types, the typing rule of
    each expression form with its failure cases, and how `Check` threads the
    context through a sequence of declarations. */
module CheckerProperties {
  import opened Wrappers
  import opened Ast
  import opened Checker

  // ---------------------------------------------------------------------
  // Type equality

  /** Two types one of which is not an arrow are equal exactly when their
      tags are. */
  lemma {:induction false} EqualByTag(ty1: Type, ty2: Type)
    requires !ty1.Arrow? || !ty2.Arrow?
    ensures Equal(ty1, ty2) <==> TypeTag(ty1) == TypeTag(ty2)
  {
  }

  /** Two arrows are equal exactly when their return types are and their
      parameter lists have the same length and agree element by element. */
  lemma {:induction false} EqualArrows(params1: seq<Type>, returnTy1: Type, params2: seq<Type>, returnTy2: Type)
    ensures Equal(Arrow(params1, returnTy1), Arrow(params2, returnTy2)) <==>
              && Equal(returnTy1, returnTy2)
              && |params1| == |params2|
              && forall i :: 0 <= i < |params1| ==> Equal(params1[i], params2[i])
  {
    if |params1| == |params2| && forall i :: 0 <= i < |params1| ==> Equal(params1[i], params2[i]) {
      assert params1 == params2;
    }
  }

  // ---------------------------------------------------------------------
  // Parameter lists compared by identity

  /** A type as an object of the source's heap: where it was allocated and
      what it holds.  Two objects with the same identity hold the same type. */
  datatype TypeObject = TypeObject(id: nat, value: Type)

  predicate ConsistentHeap(objs: seq<TypeObject>) {
    forall i, j :: 0 <= i < |objs| && 0 <= j < |objs| && objs[i].id == objs[j].id ==> objs[i].value == objs[j].value
  }

  function Values(objs: seq<TypeObject>): (r: seq<Type>)
    ensures |r| == |objs| && forall i :: 0 <= i < |objs| ==> r[i] == objs[i].value
  {
    if |objs| == 0 then [] else [objs[0].value] + Values(objs[1..])
  }

  /** The parameter comparison as the source writes it: elements compared
      with `===`, that is, by identity, and lists of unequal lengths differ. */
  function StrictEqualParamsByIdentity(params1: seq<TypeObject>, params2: seq<TypeObject>): (r: bool)
    ensures r <==> |params1| == |params2| && forall i :: 0 <= i < |params1| ==> params1[i].id == params2[i].id
  {
    if |params1| == 0 && |params2| == 0 then true
    else if |params1| > 0 && |params2| > 0 && params1[0].id == params2[0].id then
      var r := StrictEqualParamsByIdentity(params1[1..], params2[1..]);
      assert r ==> forall i :: 1 <= i < |params1| ==> params1[i].id == params1[1..][i - 1].id == params2[i].id;
      r
    else false
  }

  /** Comparing by identity never equates different types: on a consistent
      heap it implies value equality of the parameter lists. */
  lemma {:induction false} IdentityImpliesValue(params1: seq<TypeObject>, params2: seq<TypeObject>)
    requires ConsistentHeap(params1 + params2)
    ensures StrictEqualParamsByIdentity(params1, params2) ==> StrictEqualParams(Values(params1), Values(params2))
  {
    if StrictEqualParamsByIdentity(params1, params2) {
      forall i | 0 <= i < |params1|
        ensures Values(params1)[i] == Values(params2)[i]
      {
        assert (params1 + params2)[i] == params1[i];
        assert (params1 + params2)[|params1| + i] == params2[i];
      }
      assert Values(params1) == Values(params2);
    }
  }

  /** But it is not complete: two separately allocated `Number` objects make
      the arrows `(number) -> number` unequal by identity, while the arrows
      are equal as values, which is what `Equal` decides. */
  lemma {:induction false} IdentityRejectsEqualArrows(n1: TypeObject, n2: TypeObject)
    requires n1 == TypeObject(0, NumberTy) && n2 == TypeObject(1, NumberTy)
    ensures ConsistentHeap([n1] + [n2])
    ensures Values([n1]) == Values([n2]) == [NumberTy]
    ensures !(Equal(NumberTy, NumberTy) && StrictEqualParamsByIdentity([n1], [n2]))
    ensures Equal(Arrow(Values([n1]), NumberTy), Arrow(Values([n2]), NumberTy))
  {
  }

  // ---------------------------------------------------------------------
  // Literals and names

  lemma {:induction false} BasicTyping(s: string, n: nat, b: bool, ctx: Context)
    ensures Infer(StringLit(s), ctx) == Success(StringTy)
    ensures Infer(NumberLit(n), ctx) == Success(NumberTy)
    ensures Infer(BooleanLit(b), ctx) == Success(BooleanTy)
  {
  }

  /** A name has the type of its first binding, and is an error when it has
      none. */
  lemma {:induction false} NameTyping(name: string, ctx: Context)
    ensures Infer(Literal(name), ctx).Failure? <==> forall i :: 0 <= i < |ctx| ==> ctx[i].name != name
    ensures Infer(Literal(name), ctx).Failure? ==> Infer(Literal(name), ctx).error == UnresolvedName(name)
    ensures forall i :: IsFirstBinding(ctx, name, i) ==> Infer(Literal(name), ctx) == Success(ctx[i].value)
  {
    LookupSpec(ctx, name);
    forall i | IsFirstBinding(ctx, name, i)
      ensures Infer(Literal(name), ctx) == Success(ctx[i].value)
    {
      LookupFinds(ctx, name, i);
    }
  }

  /** `Lookup` fails exactly on an unbound name, and otherwise finds the
      first binding of the name. */
  lemma {:induction false} LookupSpec(ctx: Context, name: string)
    ensures Lookup(ctx, name).None? <==> forall i :: 0 <= i < |ctx| ==> ctx[i].name != name
    ensures Lookup(ctx, name).Some? ==>
              exists i :: IsFirstBinding(ctx, name, i) && ctx[i].value == Lookup(ctx, name).value
  {
    if |ctx| > 0 {
      if ctx[0].name == name {
        assert IsFirstBinding(ctx, name, 0);
      } else {
        LookupSpec(ctx[1..], name);
        assert forall i :: 1 <= i < |ctx| ==> ctx[i] == ctx[1..][i - 1];
        if Lookup(ctx, name).Some? {
          var i :| IsFirstBinding(ctx[1..], name, i) && ctx[1..][i].value == Lookup(ctx, name).value;
          assert IsFirstBinding(ctx, name, i + 1);
        }
      }
    }
  }

  lemma {:induction false} FirstBindingUnique(ctx: Context, name: string, i: int, j: int)
    requires IsFirstBinding(ctx, name, i) && IsFirstBinding(ctx, name, j)
    ensures i == j
  {
  }

  /** A binding after which no earlier one has the same name is what
      `Lookup` finds. */
  lemma {:induction false} LookupFinds(ctx: Context, name: string, j: int)
    requires IsFirstBinding(ctx, name, j)
    ensures Lookup(ctx, name) == Some(ctx[j].value)
  {
    var r := Lookup(ctx, name);
    LookupSpec(ctx, name);
    assert ctx[j].name == name;
    var k :| IsFirstBinding(ctx, name, k) && ctx[k].value == r.value;
    FirstBindingUnique(ctx, name, j, k);
  }

  /** A name unbound in a context is unbound in each of its suffixes. */
  lemma {:induction false} LookupSuffix(ctx: Context, name: string, j: nat)
    requires j <= |ctx|
    requires Lookup(ctx, name).None?
    ensures Lookup(ctx[j..], name).None?
  {
    LookupSpec(ctx, name);
    LookupSpec(ctx[j..], name);
    forall i | 0 <= i < |ctx[j..]|
      ensures ctx[j..][i].name != name
    {
      assert ctx[j..][i] == ctx[j + i];
    }
  }

  /** A declaration and a return statement have the type of their value. */
  lemma {:induction false} ValueTyping(name: string, value: Expr, ctx: Context)
    ensures Infer(Variable(name, value), ctx) == Infer(value, ctx)
    ensures Infer(ReturnStatement(value), ctx) == Infer(value, ctx)
  {
  }

  // ---------------------------------------------------------------------
  // Operators

  /** Operands are inferred left first; the first failure is the result. */
  lemma {:induction false} OperandFailure(op: Op, left: Expr, right: Expr, ctx: Context)
    ensures Infer(left, ctx).Failure? ==>
              Infer(Operation(op, left, right), ctx) == Failure(Infer(left, ctx).error)
    ensures Infer(left, ctx).Success? && Infer(right, ctx).Failure? ==>
              Infer(Operation(op, left, right), ctx) == Failure(Infer(right, ctx).error)
  {
  }

  /** A comparison is Boolean exactly when its operand types are equal. */
  lemma {:induction false} ComparisonTyping(op: Op, left: Expr, right: Expr, ctx: Context)
    requires IsComparison(op)
    requires Infer(left, ctx).Success? && Infer(right, ctx).Success?
    ensures Infer(Operation(op, left, right), ctx) ==
              if Infer(left, ctx).value == Infer(right, ctx).value then Success(BooleanTy)
              else Failure(TypeMismatch(op))
  {
    var l, r := Infer(left, ctx).value, Infer(right, ctx).value;
    assert Equal(l, r) <==> l == r;
    assert Infer(Operation(op, left, right), ctx) == InferOp(op, left, right, ctx);
  }

  /** `+` adds two numbers or concatenates two strings, and rejects anything
      else. */
  lemma {:induction false} PlusTyping(left: Expr, right: Expr, ctx: Context)
    ensures Infer(Operation(Plus, left, right), ctx) == Success(NumberTy) <==>
              Infer(left, ctx) == Success(NumberTy) && Infer(right, ctx) == Success(NumberTy)
    ensures Infer(Operation(Plus, left, right), ctx) == Success(StringTy) <==>
              Infer(left, ctx) == Success(StringTy) && Infer(right, ctx) == Success(StringTy)
    ensures Infer(Operation(Plus, left, right), ctx).Success? ==>
              Infer(Operation(Plus, left, right), ctx).value in {NumberTy, StringTy}
    ensures && Infer(left, ctx).Success? && Infer(right, ctx).Success?
            && !(Infer(left, ctx).value == Infer(right, ctx).value == NumberTy)
            && !(Infer(left, ctx).value == Infer(right, ctx).value == StringTy) ==>
              Infer(Operation(Plus, left, right), ctx) == Failure(TypeMismatch(Plus))
  {
  }

  /** `-`, `*`, `/` and `%` take two numbers and give a number. */
  lemma {:induction false} ArithmeticTyping(op: Op, left: Expr, right: Expr, ctx: Context, ty: Type)
    requires op in {Minus, Times, Divide, Modulo}
    ensures Infer(Operation(op, left, right), ctx) == Success(ty) <==>
              ty == NumberTy && Infer(left, ctx) == Success(NumberTy) && Infer(right, ctx) == Success(NumberTy)
    ensures Infer(left, ctx).Success? && Infer(right, ctx).Success?
            && !(Infer(left, ctx).value == Infer(right, ctx).value == NumberTy) ==>
              Infer(Operation(op, left, right), ctx) == Failure(TypeMismatch(op))
  {
  }

  // ---------------------------------------------------------------------
  // Conditionals and function literals

  /** The `If` expressions directly in a body, in order. */
  function IfsOf(es: seq<Expr>): (r: seq<Expr>)
    ensures forall k :: 0 <= k < |r| ==> r[k].If?
    ensures |r| <= |es|
  {
    if |es| == 0 then []
    else if es[0].If? then [es[0]] + IfsOf(es[1..])
    else IfsOf(es[1..])
  }

  /** `IfsOf` takes every conditional of the body and nothing else. */
  lemma {:induction false} IfsOfContents(es: seq<Expr>)
    ensures forall k :: 0 <= k < |IfsOf(es)| ==> IfsOf(es)[k] in es
    ensures forall i :: 0 <= i < |es| && es[i].If? ==> es[i] in IfsOf(es)
  {
    if |es| > 0 {
      IfsOfContents(es[1..]);
      var ifs, ifs' := IfsOf(es), IfsOf(es[1..]);
      forall k | 0 <= k < |ifs|
        ensures ifs[k] in es
      {
        if es[0].If? && k == 0 {
          assert ifs[0] == es[0];
        } else {
          var j := if es[0].If? then k - 1 else k;
          assert ifs[k] == ifs'[j];
          assert ifs'[j] in es[1..];
        }
      }
      forall i | 0 <= i < |es| && es[i].If?
        ensures es[i] in ifs
      {
        if i == 0 {
          assert ifs[0] == es[0];
        } else {
          assert es[i] == es[1..][i - 1];
          assert es[i] in ifs';
        }
      }
    }
  }

  /** Each `If` directly in `es` has type `ty`. */
  predicate BranchesAgree(es: seq<Expr>, ctx: Context, ty: Type) {
    forall k :: 0 <= k < |IfsOf(es)| ==> Infer(IfsOf(es)[k], ctx) == Success(ty)
  }

  /** One step of `InferNestedIfs`. */
  lemma {:induction false} NestedIfsStep(es: seq<Expr>, ctx: Context)
    requires |es| > 0
    ensures !es[0].If? ==> InferNestedIfs(es, ctx) == InferNestedIfs(es[1..], ctx) && IfsOf(es) == IfsOf(es[1..])
    ensures es[0].If? ==>
              && IfsOf(es) == [es[0]] + IfsOf(es[1..])
              && InferNestedIfs(es, ctx) ==
                   if Infer(es[0], ctx).Failure? then Failure(Infer(es[0], ctx).error)
                   else if InferNestedIfs(es[1..], ctx).Failure? then Failure(InferNestedIfs(es[1..], ctx).error)
                   else Success([Infer(es[0], ctx).value] + InferNestedIfs(es[1..], ctx).value)
  {
  }

  /** The nested conditionals of a body succeed exactly when each of them
      does. */
  lemma {:induction false} NestedIfsSuccess(es: seq<Expr>, ctx: Context)
    ensures InferNestedIfs(es, ctx).Success? <==>
              forall k :: 0 <= k < |IfsOf(es)| ==> Infer(IfsOf(es)[k], ctx).Success?
  {
    if |es| > 0 {
      var ifs := IfsOf(es);
      var ifs' := IfsOf(es[1..]);
      NestedIfsSuccess(es[1..], ctx);
      NestedIfsStep(es, ctx);
      if es[0].If? {
        assert |ifs| == 1 + |ifs'| && ifs[0] == es[0];
        if forall k :: 0 <= k < |ifs| ==> Infer(ifs[k], ctx).Success? {
          forall k | 0 <= k < |ifs'|
            ensures Infer(ifs'[k], ctx).Success?
          {
            assert ifs'[k] == ifs[k + 1];
          }
        }
        if InferNestedIfs(es, ctx).Success? {
          forall k | 0 <= k < |ifs|
            ensures Infer(ifs[k], ctx).Success?
          {
            if k > 0 {
              assert ifs[k] == ifs'[k - 1];
            }
          }
        }
      }
    }
  }

  lemma {:induction false} NestedIfsLength(es: seq<Expr>, ctx: Context)
    requires InferNestedIfs(es, ctx).Success?
    ensures |InferNestedIfs(es, ctx).value| == |IfsOf(es)|
  {
    if |es| > 0 {
      NestedIfsStep(es, ctx);
      NestedIfsLength(es[1..], ctx);
    }
  }

  /** On success, the `k`-th listed type is that of the `k`-th conditional. */
  lemma {:induction false} NestedIfAt(es: seq<Expr>, ctx: Context, k: nat)
    requires InferNestedIfs(es, ctx).Success?
    requires k < |IfsOf(es)|
    ensures |InferNestedIfs(es, ctx).value| == |IfsOf(es)|
    ensures Infer(IfsOf(es)[k], ctx) == Success(InferNestedIfs(es, ctx).value[k])
  {
    NestedIfsLength(es, ctx);
    NestedIfsStep(es, ctx);
    if es[0].If? {
      if k > 0 {
        NestedIfAt(es[1..], ctx, k - 1);
      }
    } else {
      NestedIfAt(es[1..], ctx, k);
    }
  }

  /** On success, the types of the nested conditionals are listed in
      order. */
  lemma {:induction false} NestedIfsSpec(es: seq<Expr>, ctx: Context)
    requires InferNestedIfs(es, ctx).Success?
    ensures |InferNestedIfs(es, ctx).value| == |IfsOf(es)|
    ensures forall k :: 0 <= k < |IfsOf(es)| ==>
              Infer(IfsOf(es)[k], ctx) == Success(InferNestedIfs(es, ctx).value[k])
  {
    NestedIfsLength(es, ctx);
    forall k | 0 <= k < |IfsOf(es)|
      ensures Infer(IfsOf(es)[k], ctx) == Success(InferNestedIfs(es, ctx).value[k])
    {
      NestedIfAt(es, ctx, k);
    }
  }

  /** The nested conditionals all have type `ty` exactly when they infer and
      their list of types is all `ty`. */
  lemma {:induction false} BranchesAgreeSpec(es: seq<Expr>, ctx: Context, ty: Type)
    ensures BranchesAgree(es, ctx, ty) <==>
              InferNestedIfs(es, ctx).Success? && AllEqualTo(InferNestedIfs(es, ctx).value, ty)
  {
    NestedIfsSuccess(es, ctx);
    if InferNestedIfs(es, ctx).Success? {
      NestedIfsSpec(es, ctx);
    }
  }

  /** A conditional has type `ty` exactly when its condition is Boolean, its
      first return has type `ty`, so does each conditional directly inside,
      and its branch checks. */
  lemma {:induction false} IfTyping(condition: Expr, thenBody: seq<Expr>, ctx: Context, ty: Type)
    ensures Infer(If(condition, thenBody), ctx) == Success(ty) <==>
              && Infer(condition, ctx) == Success(BooleanTy)
              && FirstReturn(thenBody).Some?
              && Infer(FirstReturn(thenBody).value.value, ctx) == Success(ty)
              && BranchesAgree(thenBody, ctx, ty)
              && Check(thenBody, ctx).Success?
  {
    assert Infer(If(condition, thenBody), ctx) == InferIf(condition, thenBody, ctx);
    if FirstReturn(thenBody).Some? {
      var ret := FirstReturn(thenBody).value;
      assert Infer(ret, ctx) == Infer(ret.value, ctx);
    }
    BranchesAgreeSpec(thenBody, ctx, ty);
  }

  /** The failures particular to a conditional. */
  lemma {:induction false} IfFailures(condition: Expr, thenBody: seq<Expr>, ctx: Context)
    ensures Infer(condition, ctx).Success? && Infer(condition, ctx).value != BooleanTy ==>
              Infer(If(condition, thenBody), ctx) == Failure(NonBooleanCondition)
    ensures Infer(condition, ctx) == Success(BooleanTy) && FirstReturn(thenBody).None? ==>
              Infer(If(condition, thenBody), ctx) == Failure(MissingReturn)
    ensures && Infer(condition, ctx) == Success(BooleanTy) && FirstReturn(thenBody).Some?
            && Infer(FirstReturn(thenBody).value, ctx).Success?
            && InferNestedIfs(thenBody, ctx).Success?
            && !BranchesAgree(thenBody, ctx, Infer(FirstReturn(thenBody).value, ctx).value) ==>
              Infer(If(condition, thenBody), ctx) == Failure(InconsistentBranchTypes)
  {
    if Infer(condition, ctx) == Success(BooleanTy) && FirstReturn(thenBody).Some?
       && Infer(FirstReturn(thenBody).value, ctx).Success? {
      BranchesAgreeSpec(thenBody, ctx, Infer(FirstReturn(thenBody).value, ctx).value);
    }
  }

  /** A function literal has type `ty` exactly when its first return has its
      declared return type, so does each conditional directly in its body,
      its body checks, and `ty` is the arrow of its declared signature. */
  lemma {:induction false} FunctionTyping(name: string, params: seq<Param>, body: seq<Expr>, returnTy: Type,
                       ctx: Context, ty: Type)
    ensures Infer(Function(name, params, body, returnTy), ctx) == Success(ty) <==>
              && FirstReturn(body).Some?
              && Infer(FirstReturn(body).value.value, ctx) == Success(returnTy)
              && BranchesAgree(body, ctx, returnTy)
              && Check(body, ctx).Success?
              && ty == Arrow(ParamTypes(params), returnTy)
  {
    assert Infer(Function(name, params, body, returnTy), ctx) == InferFunction(params, body, returnTy, ctx);
    if FirstReturn(body).Some? {
      var ret := FirstReturn(body).value;
      assert Infer(ret, ctx) == Infer(ret.value, ctx);
    }
    BranchesAgreeSpec(body, ctx, returnTy);
  }

  /** The failures particular to a function literal. */
  lemma {:induction false} FunctionFailures(name: string, params: seq<Param>, body: seq<Expr>, returnTy: Type, ctx: Context)
    ensures FirstReturn(body).None? ==>
              Infer(Function(name, params, body, returnTy), ctx) == Failure(MissingReturn)
    ensures && FirstReturn(body).Some?
            && Infer(FirstReturn(body).value, ctx).Success?
            && BranchesAgree(body, ctx, Infer(FirstReturn(body).value, ctx).value)
            && Infer(FirstReturn(body).value, ctx).value != returnTy ==>
              Infer(Function(name, params, body, returnTy), ctx) ==
                Failure(ReturnTypeMismatch(returnTy, Infer(FirstReturn(body).value, ctx).value))
  {
    if FirstReturn(body).Some? && Infer(FirstReturn(body).value, ctx).Success? {
      BranchesAgreeSpec(body, ctx, Infer(FirstReturn(body).value, ctx).value);
    }
  }

  /** A declared function sees its own signature first, so that it can call
      itself. */
  lemma {:induction false} SelfBinding(name: string, params: seq<Param>, returnTy: Type, ctx: Context)
    ensures Lookup(InternalContext(name, params, returnTy, ctx), name) == Some(Arrow(ParamTypes(params), returnTy))
  {
  }

  /** A declared function sees each of its parameters that is not shadowed by
      its own name or an earlier parameter. */
  lemma {:induction false} ParamBinding(name: string, params: seq<Param>, returnTy: Type, ctx: Context, i: nat)
    requires i < |params| && params[i].name != name
    requires forall j :: 0 <= j < i ==> params[j].name != params[i].name
    ensures Lookup(InternalContext(name, params, returnTy, ctx), params[i].name) == Some(params[i].ty)
  {
    var ic := InternalContext(name, params, returnTy, ctx);
    var bs := ParamBindings(params);
    assert ic[i + 1] == bs[i];
    assert forall j :: 1 <= j < i + 1 ==> ic[j] == bs[j - 1];
    LookupFinds(ic, params[i].name, i + 1);
  }

  /** A function declaration fails on a name already bound or on a parameter
      name already bound, and otherwise has the type of the function literal
      in its internal context. */
  lemma {:induction false} DeclareTyping(name: string, params: seq<Param>, body: seq<Expr>, returnTy: Type, ctx: Context)
    ensures Lookup(ctx, name).Some? ==>
              DeclareFunction(name, params, body, returnTy, ctx) == Failure(DuplicateBinding(name))
    ensures Lookup(ctx, name).None? && HasParamClash(params, ctx) ==>
              DeclareFunction(name, params, body, returnTy, ctx) == Failure(InvalidParameterName(name))
    ensures Lookup(ctx, name).None? && !HasParamClash(params, ctx) ==>
              DeclareFunction(name, params, body, returnTy, ctx) ==
                Infer(Function(name, params, body, returnTy), InternalContext(name, params, returnTy, ctx))
    ensures DeclareFunction(name, params, body, returnTy, ctx).Success? ==>
              DeclareFunction(name, params, body, returnTy, ctx).value == Arrow(ParamTypes(params), returnTy)
  {
  }

  // ---------------------------------------------------------------------
  // Calls and printing

  /** The argument types are those of the arguments, in order, when each
      argument infers. */
  lemma {:induction false} InferArgsSpec(args: seq<Expr>, ctx: Context)
    ensures InferArgs(args, ctx).Success? <==> forall i :: 0 <= i < |args| ==> InferArg(args[i], ctx).Success?
    ensures InferArgs(args, ctx).Success? ==>
              && |InferArgs(args, ctx).value| == |args|
              && forall i :: 0 <= i < |args| ==> InferArgs(args, ctx).value[i] == InferArg(args[i], ctx).value
  {
    if |args| > 0 {
      InferArgsSpec(args[1..], ctx);
      assert forall i :: 1 <= i < |args| ==> args[i] == args[1..][i - 1];
    }
  }

  /** A literal, name, operation or call as an argument has the type it has
      anywhere; a function literal as an argument is declared in place; any
      other expression cannot be an argument. */
  lemma {:induction false} ArgumentTyping(arg: Expr, ctx: Context)
    ensures IsBasic(arg) || arg.Literal? || arg.Operation? || arg.FunctionApp? ==>
              InferArg(arg, ctx) == Infer(arg, ctx)
    ensures arg.Function? ==>
              InferArg(arg, ctx) == DeclareFunction(arg.name, arg.params, arg.body, arg.returnTy, ctx)
    ensures arg.Variable? || arg.ReturnStatement? || arg.If? || arg.Console? ==>
              InferArg(arg, ctx) == Failure(UnsupportedArgument)
  {
  }

  /** A call needs a bound callee of arrow type, and has the callee's return
      type exactly when the argument types are its parameter types. */
  lemma {:induction false} AppTyping(name: string, args: seq<Expr>, ctx: Context)
    ensures Lookup(ctx, name).None? ==>
              Infer(FunctionApp(name, args), ctx) == Failure(UnresolvedName(name))
    ensures Lookup(ctx, name).Some? && !Lookup(ctx, name).value.Arrow? ==>
              Infer(FunctionApp(name, args), ctx) == Failure(NotCallable(name))
    ensures Lookup(ctx, name).Some? && Lookup(ctx, name).value.Arrow? && InferArgs(args, ctx).Success? ==>
              Infer(FunctionApp(name, args), ctx) ==
                if InferArgs(args, ctx).value == Lookup(ctx, name).value.params
                then Success(Lookup(ctx, name).value.returnTy)
                else Failure(ArgumentTypeMismatch(name))
    ensures Infer(FunctionApp(name, args), ctx).Success? ==>
              && Lookup(ctx, name).Some? && Lookup(ctx, name).value.Arrow?
              && Infer(FunctionApp(name, args), ctx).value == Lookup(ctx, name).value.returnTy
              && InferArgs(args, ctx) == Success(Lookup(ctx, name).value.params)
  {
  }

  /** A print of nothing is an error; otherwise it is Void when its values
      check. */
  lemma {:induction false} ConsoleTyping(values: seq<Expr>, ctx: Context)
    ensures |values| == 0 ==> Infer(Console(values), ctx) == Failure(EmptyPrintArguments)
    ensures |values| > 0 ==> (Infer(Console(values), ctx).Success? <==> Check(values, ctx).Success?)
    ensures Infer(Console(values), ctx).Success? ==> Infer(Console(values), ctx).value == VoidTy
  {
  }

  // ---------------------------------------------------------------------
  // Checking sequences

  predicate IsDeclaration(e: Expr) {
    e.Variable? || e.Function?
  }

  /** The names declared directly in `es`, in order. */
  function DeclaredNames(es: seq<Expr>): (r: seq<string>)
    ensures |r| <= |es|
  {
    if |es| == 0 then []
    else (if IsDeclaration(es[0]) then [es[0].name] else []) + DeclaredNames(es[1..])
  }

  /** Checking a concatenation checks the first part, then the second part in
      the context the first part produced. */
  lemma {:induction false} CheckAppend(xs: seq<Expr>, ys: seq<Expr>, ctx: Context)
    ensures Check(xs + ys, ctx) ==
              match Check(xs, ctx)
              case Success(c) => Check(ys, c)
              case Failure(e) => Failure(e)
  {
    if |xs| == 0 {
      assert xs + ys == ys;
    } else {
      var zs := xs + ys;
      assert zs[0] == xs[0];
      assert zs[1..] == xs[1..] + ys;
      match xs[0]
      case Variable(name, _) =>
        if Lookup(ctx, name).None? && Infer(xs[0], ctx).Success? {
          CheckAppend(xs[1..], ys, [Binding(name, Infer(xs[0], ctx).value)] + ctx);
        }
      case Function(name, params, body, returnTy) =>
        var d := DeclareFunction(name, params, body, returnTy, ctx);
        if d.Success? {
          CheckAppend(xs[1..], ys, [Binding(name, d.value)] + ctx);
        }
      case _ =>
        if Infer(xs[0], ctx).Success? {
          CheckAppend(xs[1..], ys, ctx);
        }
    }
  }

  /** A variable declaration fails on a bound name, and otherwise binds the
      name to the type of its value. */
  lemma {:induction false} CheckVariable(name: string, value: Expr, ctx: Context)
    ensures Lookup(ctx, name).Some? ==> Check([Variable(name, value)], ctx) == Failure(DuplicateBinding(name))
    ensures Check([Variable(name, value)], ctx).Success? <==> Lookup(ctx, name).None? && Infer(value, ctx).Success?
    ensures Check([Variable(name, value)], ctx).Success? ==>
              Check([Variable(name, value)], ctx).value == [Binding(name, Infer(value, ctx).value)] + ctx
  {
    assert [Variable(name, value)][1..] == [];
  }

  /** A function declaration fails on a bound name or parameter name, and
      otherwise binds the name to its declared signature. */
  lemma {:induction false} CheckFunction(name: string, params: seq<Param>, body: seq<Expr>, returnTy: Type, ctx: Context)
    ensures Lookup(ctx, name).Some? ==>
              Check([Function(name, params, body, returnTy)], ctx) == Failure(DuplicateBinding(name))
    ensures Lookup(ctx, name).None? && HasParamClash(params, ctx) ==>
              Check([Function(name, params, body, returnTy)], ctx) == Failure(InvalidParameterName(name))
    ensures Check([Function(name, params, body, returnTy)], ctx).Success? <==>
              DeclareFunction(name, params, body, returnTy, ctx).Success?
    ensures Check([Function(name, params, body, returnTy)], ctx).Success? ==>
              Check([Function(name, params, body, returnTy)], ctx).value ==
                [Binding(name, Arrow(ParamTypes(params), returnTy))] + ctx
  {
    assert [Function(name, params, body, returnTy)][1..] == [];
  }

  /** Any other expression is inferred and leaves the context as it is. */
  lemma {:induction false} CheckOther(e: Expr, ctx: Context)
    requires !IsDeclaration(e)
    ensures Check([e], ctx) == if Infer(e, ctx).Success? then Success(ctx) else Failure(Infer(e, ctx).error)
  {
    assert [e][1..] == [];
  }

  /** One step of the fold: the context the rest of a successful check
      starts from. */
  lemma {:induction false} CheckStep(es: seq<Expr>, ctx: Context) returns (next: Context)
    requires |es| > 0 && Check(es, ctx).Success?
    ensures Check(es[1..], next) == Check(es, ctx)
    ensures IsDeclaration(es[0]) ==>
              && Lookup(ctx, es[0].name).None?
              && |next| == |ctx| + 1 && next[0].name == es[0].name && next[1..] == ctx
    ensures es[0].Function? ==> |next| > 0 && next[0].value == Arrow(ParamTypes(es[0].params), es[0].returnTy)
    ensures !IsDeclaration(es[0]) ==> next == ctx
  {
    match es[0]
    case Variable(name, _) =>
      next := [Binding(name, Infer(es[0], ctx).value)] + ctx;
    case Function(name, params, body, returnTy) =>
      DeclareTyping(name, params, body, returnTy, ctx);
      next := [Binding(name, DeclareFunction(name, params, body, returnTy, ctx).value)] + ctx;
    case _ =>
      next := ctx;
  }

  /** A successful check prepends one binding per declaration, most recent
      first, to the context it started from; each new name was unbound when
      it was declared. */
  lemma {:induction false} CheckContext(es: seq<Expr>, ctx: Context)
    requires Check(es, ctx).Success?
    ensures var c := Check(es, ctx).value;
            var d := DeclaredNames(es);
            && |c| == |d| + |ctx|
            && c[|d|..] == ctx
            && (forall k :: 0 <= k < |d| ==> c[k].name == d[|d| - 1 - k])
            && (forall k :: 0 <= k < |d| ==> Lookup(c[k + 1..], c[k].name).None?)
  {
    if |es| > 0 {
      var c := Check(es, ctx).value;
      var d := DeclaredNames(es);
      var d' := DeclaredNames(es[1..]);
      var next := CheckStep(es, ctx);
      CheckContext(es[1..], next);
      if IsDeclaration(es[0]) {
        assert d == [es[0].name] + d';
        assert c[|d'|..] == next;
        assert c[|d'| + 1..] == ctx;
        forall k | 0 <= k < |d|
          ensures c[k].name == d[|d| - 1 - k]
          ensures Lookup(c[k + 1..], c[k].name).None?
        {
          if k == |d'| {
            assert c[k] == next[0];
          }
        }
      } else {
        assert d == d';
      }
    }
  }

  /** What `Check` leaves behind for the names `d` it declared over `ctx`:
      one binding per name, newest first, each unbound where it was added. */
  predicate DeclaredOver(c: Context, d: seq<string>, ctx: Context)
  {
    && |c| == |d| + |ctx| && c[|d|..] == ctx
    && (forall k :: 0 <= k < |d| ==> c[k].name == d[|d| - 1 - k])
    && (forall k :: 0 <= k < |d| ==> Lookup(c[k + 1..], c[k].name).None?)
  }

  /** A declared name was unbound in the outer context. */
  lemma {:induction false} DeclaredFresh(c: Context, d: seq<string>, ctx: Context, i: nat)
    requires DeclaredOver(c, d, ctx) && i < |d|
    ensures Lookup(ctx, d[i]).None?
  {
    var k := |d| - 1 - i;
    assert c[k].name == d[i];
    assert Lookup(c[k + 1..], c[k].name).None?;
    assert c[k + 1..][|d| - k - 1..] == ctx;
    LookupSuffix(c[k + 1..], d[i], |d| - k - 1);
  }

  /** Two declared names differ. */
  lemma {:induction false} DeclaredDistinct(c: Context, d: seq<string>, ctx: Context, i: nat, j: nat)
    requires DeclaredOver(c, d, ctx) && i < j < |d|
    ensures d[i] != d[j]
  {
    var ki := |d| - 1 - i;
    var kj := |d| - 1 - j;
    assert c[ki].name == d[i] && c[kj].name == d[j];
    assert Lookup(c[kj + 1..], c[kj].name).None?;
    assert c[kj + 1..][ki - kj - 1] == c[ki];
    LookupSpec(c[kj + 1..], c[kj].name);
  }

  /** After a successful check, the declared names are distinct and were not
      bound before. */
  lemma {:induction false} CheckFreshNames(es: seq<Expr>, ctx: Context)
    requires Check(es, ctx).Success?
    ensures var d := DeclaredNames(es);
            && (forall i :: 0 <= i < |d| ==> Lookup(ctx, d[i]).None?)
            && (forall i, j :: 0 <= i < j < |d| ==> d[i] != d[j])
  {
    CheckContext(es, ctx);
    var c, d := Check(es, ctx).value, DeclaredNames(es);
    assert DeclaredOver(c, d, ctx);
    forall i | 0 <= i < |d|
      ensures Lookup(ctx, d[i]).None?
    {
      DeclaredFresh(c, d, ctx, i);
    }
    forall i, j | 0 <= i < j < |d|
      ensures d[i] != d[j]
    {
      DeclaredDistinct(c, d, ctx, i, j);
    }
  }

  /** After a successful check, each declared function's name resolves to
      its declared signature. */
  lemma {:induction false} CheckFunctionSignatures(es: seq<Expr>, ctx: Context)
    requires Check(es, ctx).Success?
    ensures forall i :: 0 <= i < |es| && es[i].Function? ==>
              Lookup(Check(es, ctx).value, es[i].name) == Some(Arrow(ParamTypes(es[i].params), es[i].returnTy))
  {
    if |es| > 0 {
      var c := Check(es, ctx).value;
      var next := CheckStep(es, ctx);
      CheckFunctionSignatures(es[1..], next);
      forall i | 1 <= i < |es| && es[i].Function?
        ensures Lookup(c, es[i].name) == Some(Arrow(ParamTypes(es[i].params), es[i].returnTy))
      {
        assert es[1..][i - 1] == es[i];
      }
      if es[0].Function? {
        var name := es[0].name;
        var d' := DeclaredNames(es[1..]);
        CheckContext(es[1..], next);
        assert c[|d'|..] == next;
        assert c[|d'|] == next[0];
        forall k | 0 <= k < |d'|
          ensures c[k].name != name
        {
          assert c[k + 1..][|d'| - k - 1] == c[|d'|];
          LookupSpec(c[k + 1..], c[k].name);
          assert c[k + 1..][|d'| - k - 1].name != c[k].name;
        }
        LookupFinds(c, name, |d'|);
      }
    }
  }

  /** Expressions that declare nothing leave the context unchanged. */
  lemma {:induction false} NonDeclarationsKeepContext(es: seq<Expr>, ctx: Context)
    requires forall i :: 0 <= i < |es| ==> !IsDeclaration(es[i])
    requires Check(es, ctx).Success?
    ensures Check(es, ctx).value == ctx
  {
    NoDeclaredNames(es);
    CheckContext(es, ctx);
  }

  lemma {:induction false} NoDeclaredNames(es: seq<Expr>)
    requires forall i :: 0 <= i < |es| ==> !IsDeclaration(es[i])
    ensures DeclaredNames(es) == []
  {
    if |es| > 0 {
      assert forall i :: 0 <= i < |es[1..]| ==> es[1..][i] == es[i + 1];
      NoDeclaredNames(es[1..]);
    }
  }
}
