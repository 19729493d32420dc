/** Concrete programs and the verdict of the type checker on them. */
module CheckerExamples {
  import opened Wrappers
  import opened Ast
  import opened Checker
  import opened CheckerProperties

  /** A name with no binding is an error; with one, it checks. */
  lemma {:induction false} NameExamples()
    ensures Check([Literal("whatever")], []) == Failure(UnresolvedName("whatever"))
    ensures Check([Literal("whatever")], [Binding("whatever", BooleanTy)]).Success?
  {
    CheckOther(Literal("whatever"), []);
    CheckOther(Literal("whatever"), [Binding("whatever", BooleanTy)]);
  }

  /** A declared variable is bound to the type of its value. */
  lemma {:induction false} VariableExample()
    ensures Check([Variable("var", BooleanLit(true))], []) == Success([Binding("var", BooleanTy)])
  {
    CheckVariable("var", BooleanLit(true), []);
    assert [Binding("var", BooleanTy)] + [] == [Binding("var", BooleanTy)];
  }

  /** Comparing a number with a Boolean, or adding them, is an error. */
  lemma {:induction false} MismatchExamples()
    ensures Infer(Operation(EqualEqual, NumberLit(1), BooleanLit(true)), []) == Failure(TypeMismatch(EqualEqual))
    ensures Infer(Operation(Plus, NumberLit(1), BooleanLit(true)), []) == Failure(TypeMismatch(Plus))
    ensures Infer(Operation(Modulo, NumberLit(1), NumberLit(1)), []) == Success(NumberTy)
  {
  }

  /** A conditional needs a Boolean condition and a return statement. */
  lemma {:induction false} IfExamples()
    ensures Infer(If(BooleanLit(true), [ReturnStatement(BooleanLit(true))]), []) == Success(BooleanTy)
    ensures Infer(If(NumberLit(1), [ReturnStatement(BooleanLit(true))]), []) == Failure(NonBooleanCondition)
    ensures Infer(If(BooleanLit(true), []), []) == Failure(MissingReturn)
  {
    var body := [ReturnStatement(BooleanLit(true))];
    assert FirstReturn(body) == Some(body[0]);
    assert InferNestedIfs(body, []) == Success([]);
    assert Check(body, []) == Success([]) by { CheckOther(body[0], []); }
  }

  /** Conditionals whose return types differ are rejected, whatever the
      conditions, the number and the Boolean are. */
  lemma {:induction false} BranchExample(c1: bool, c2: bool, n: nat, b: bool)
    ensures Infer(If(BooleanLit(c1), [If(BooleanLit(c2), [ReturnStatement(NumberLit(n))]),
                                      ReturnStatement(BooleanLit(b))]), []) ==
            Failure(InconsistentBranchTypes)
  {
    var inner := If(BooleanLit(c2), [ReturnStatement(NumberLit(n))]);
    var body := [inner, ReturnStatement(BooleanLit(b))];
    assert Infer(If(BooleanLit(c1), body), []) == InferIf(BooleanLit(c1), body, []);
    assert Infer(BooleanLit(c1), []) == Success(BooleanTy);
    assert Infer(inner, []) == Success(NumberTy) by { InnerBranch(c2, n); }
    assert FirstReturn(body) == Some(body[1]);
    assert Infer(body[1], []) == Success(BooleanTy);
    assert InferNestedIfs(body[1..], []) == Success([]) by {
      NestedIfsStep(body[1..], []);
      assert body[1..][1..] == [];
    }
    assert InferNestedIfs(body, []) == Success([NumberTy]) by {
      NestedIfsStep(body, []);
      assert [NumberTy] + [] == [NumberTy];
    }
    assert !AllEqualTo([NumberTy], BooleanTy) by {
      assert !Equal([NumberTy][0], BooleanTy);
    }
  }

  /** A conditional whose branch returns a number has the number type. */
  lemma {:induction false} InnerBranch(c: bool, n: nat)
    ensures Infer(If(BooleanLit(c), [ReturnStatement(NumberLit(n))]), []) == Success(NumberTy)
  {
    var body := [ReturnStatement(NumberLit(n))];
    assert Infer(If(BooleanLit(c), body), []) == InferIf(BooleanLit(c), body, []);
    assert Infer(BooleanLit(c), []) == Success(BooleanTy);
    assert FirstReturn(body) == Some(body[0]);
    assert Infer(body[0], []) == Success(NumberTy);
    assert InferNestedIfs(body, []) == Success([]);
    assert Check(body, []) == Success([]) by { CheckOther(body[0], []); }
  }

  /** A print of nothing is an error. */
  lemma {:induction false} ConsoleExample()
    ensures Check([Console([])], []) == Failure(EmptyPrintArguments)
    ensures Check([Console([BooleanLit(true)])], []) == Success([])
  {
    CheckOther(Console([]), []);
    CheckOther(Console([BooleanLit(true)]), []);
    CheckOther(BooleanLit(true), []);
  }

  /** Two function declarations bind their signatures, the later one first. */
  lemma {:induction false} FunctionsExample()
    ensures Check([Function("f", [], [ReturnStatement(BooleanLit(true))], BooleanTy),
                   Function("g", [Param("x", BooleanTy)], [ReturnStatement(Literal("x"))], BooleanTy)], []) ==
            Success([Binding("g", Arrow([BooleanTy], BooleanTy)), Binding("f", Arrow([], BooleanTy))])
  {
    var f := Function("f", [], [ReturnStatement(BooleanLit(true))], BooleanTy);
    var g := Function("g", [Param("x", BooleanTy)], [ReturnStatement(Literal("x"))], BooleanTy);
    FDeclares();
    GDeclares();
    CheckAppend([f], [g], []);
    assert [f] + [g] == [f, g];
  }

  lemma {:induction false} FDeclares()
    ensures Check([Function("f", [], [ReturnStatement(BooleanLit(true))], BooleanTy)], []) ==
            Success([Binding("f", Arrow([], BooleanTy))])
  {
    var f := Function("f", [], [ReturnStatement(BooleanLit(true))], BooleanTy);
    FunctionDeclares(f, []);
    assert ParamTypes(f.params) == [];
    assert [Binding("f", Arrow([], BooleanTy))] + [] == [Binding("f", Arrow([], BooleanTy))];
  }

  lemma {:induction false} GDeclares()
    ensures Check([Function("g", [Param("x", BooleanTy)], [ReturnStatement(Literal("x"))], BooleanTy)],
                  [Binding("f", Arrow([], BooleanTy))]) ==
            Success([Binding("g", Arrow([BooleanTy], BooleanTy)), Binding("f", Arrow([], BooleanTy))])
  {
    var g := Function("g", [Param("x", BooleanTy)], [ReturnStatement(Literal("x"))], BooleanTy);
    var c1 := [Binding("f", Arrow([], BooleanTy))];
    ParamBinding("g", g.params, BooleanTy, c1, 0);
    assert !HasParamClash(g.params, c1) by {
      assert Lookup(c1, "x").None?;
    }
    FunctionDeclares(g, c1);
    assert ParamTypes(g.params) == [BooleanTy];
    assert [Binding("g", Arrow([BooleanTy], BooleanTy))] + c1 ==
           [Binding("g", Arrow([BooleanTy], BooleanTy)), Binding("f", Arrow([], BooleanTy))];
  }

  /** A one-return function whose return value has its declared type is bound
      to its signature. */
  lemma {:induction false} FunctionDeclares(e: Expr, ctx: Context)
    requires e.Function? && |e.body| == 1 && e.body[0].ReturnStatement?
    requires Lookup(ctx, e.name).None? && !HasParamClash(e.params, ctx)
    requires Infer(e.body[0].value, InternalContext(e.name, e.params, e.returnTy, ctx)) == Success(e.returnTy)
    ensures Check([e], ctx) == Success([Binding(e.name, Arrow(ParamTypes(e.params), e.returnTy))] + ctx)
  {
    var ic := InternalContext(e.name, e.params, e.returnTy, ctx);
    assert FirstReturn(e.body) == Some(e.body[0]);
    assert IfsOf(e.body) == [];
    assert Check(e.body, ic) == Success(ic) by { CheckOther(e.body[0], ic); }
    FunctionTyping(e.name, e.params, e.body, e.returnTy, ic, Arrow(ParamTypes(e.params), e.returnTy));
    DeclareTyping(e.name, e.params, e.body, e.returnTy, ctx);
    CheckFunction(e.name, e.params, e.body, e.returnTy, ctx);
  }

  lemma {:induction false} OneArg(a: Expr, ctx: Context, ty: Type)
    requires InferArg(a, ctx) == Success(ty)
    ensures InferArgs([a], ctx) == Success([ty])
  {
    assert [a][1..] == [];
    assert InferArgs([], ctx) == Success([]);
    assert [ty] + [] == [ty];
  }

  lemma {:induction false} TwoArgs(a: Expr, b: Expr, ctx: Context, tyA: Type, tyB: Type)
    requires InferArg(a, ctx) == Success(tyA) && InferArg(b, ctx) == Success(tyB)
    ensures InferArgs([a, b], ctx) == Success([tyA, tyB])
  {
    assert [a, b][1..] == [b];
    OneArg(b, ctx, tyB);
    assert [tyA] + [tyB] == [tyA, tyB];
  }

  lemma {:induction false} ThreeArgs(a: Expr, b: Expr, c: Expr, ctx: Context, tyA: Type, tyB: Type, tyC: Type)
    requires InferArg(a, ctx) == Success(tyA) && InferArg(b, ctx) == Success(tyB) && InferArg(c, ctx) == Success(tyC)
    ensures InferArgs([a, b, c], ctx) == Success([tyA, tyB, tyC])
  {
    assert [a, b, c][1..] == [b, c];
    TwoArgs(b, c, ctx, tyB, tyC);
    assert [tyA] + [tyB, tyC] == [tyA, tyB, tyC];
  }

  /** A call of an undeclared function is an error. */
  lemma {:induction false} UnboundCallExample()
    ensures Check([FunctionApp("booleanId", [BooleanLit(true)])], []) == Failure(UnresolvedName("booleanId"))
  {
    CheckOther(FunctionApp("booleanId", [BooleanLit(true)]), []);
  }

  /** A function taking a function: `add` is passed to `test`, whose result is
      bound to `result`. */
  lemma {:induction false} HigherOrderExample()
    ensures
      var add := Function("add", [Param("x", NumberTy), Param("y", NumberTy)],
                          [ReturnStatement(Operation(Plus, Literal("x"), Literal("y")))], NumberTy);
      var binary := Arrow([NumberTy, NumberTy], NumberTy);
      var test := Function("test", [Param("f", binary), Param("x", NumberTy), Param("y", NumberTy)],
                           [ReturnStatement(FunctionApp("f", [Literal("x"), Literal("y")]))], NumberTy);
      var result := Variable("result", FunctionApp("test", [Literal("add"), NumberLit(1), NumberLit(2)]));
      Check([add, test, result], []) ==
        Success([Binding("result", NumberTy),
                 Binding("test", Arrow([binary, NumberTy, NumberTy], NumberTy)),
                 Binding("add", binary)])
  {
    var add := Function("add", [Param("x", NumberTy), Param("y", NumberTy)],
                        [ReturnStatement(Operation(Plus, Literal("x"), Literal("y")))], NumberTy);
    var binary := Arrow([NumberTy, NumberTy], NumberTy);
    var test := Function("test", [Param("f", binary), Param("x", NumberTy), Param("y", NumberTy)],
                         [ReturnStatement(FunctionApp("f", [Literal("x"), Literal("y")]))], NumberTy);
    var result := Variable("result", FunctionApp("test", [Literal("add"), NumberLit(1), NumberLit(2)]));
    HigherOrderSteps(add, test, result, []);
  }

  lemma {:induction false} HigherOrderSteps(add: Expr, test: Expr, result: Expr, ctx: Context)
    requires add == Function("add", [Param("x", NumberTy), Param("y", NumberTy)],
                             [ReturnStatement(Operation(Plus, Literal("x"), Literal("y")))], NumberTy)
    requires test == Function("test", [Param("f", Arrow([NumberTy, NumberTy], NumberTy)), Param("x", NumberTy),
                                       Param("y", NumberTy)],
                              [ReturnStatement(FunctionApp("f", [Literal("x"), Literal("y")]))], NumberTy)
    requires result == Variable("result", FunctionApp("test", [Literal("add"), NumberLit(1), NumberLit(2)]))
    requires ctx == []
    ensures Check([add, test, result], ctx) ==
              Success([Binding("result", NumberTy),
                       Binding("test", Arrow([Arrow([NumberTy, NumberTy], NumberTy), NumberTy, NumberTy], NumberTy)),
                       Binding("add", Arrow([NumberTy, NumberTy], NumberTy))])
  {
    var binary := Arrow([NumberTy, NumberTy], NumberTy);
    var c1 := [Binding("add", binary)];
    AddDeclares();
    assert Check([add], ctx) == Success(c1);
    TestThenResult(test, result, c1);
    Compose([add], [test, result], [add, test, result], ctx, c1,
            [Binding("result", NumberTy), Binding("test", Arrow([binary, NumberTy, NumberTy], NumberTy)),
             Binding("add", binary)]);
  }

  lemma {:induction false} TestThenResult(test: Expr, result: Expr, c1: Context)
    requires test == Function("test", [Param("f", Arrow([NumberTy, NumberTy], NumberTy)), Param("x", NumberTy),
                                       Param("y", NumberTy)],
                              [ReturnStatement(FunctionApp("f", [Literal("x"), Literal("y")]))], NumberTy)
    requires result == Variable("result", FunctionApp("test", [Literal("add"), NumberLit(1), NumberLit(2)]))
    requires c1 == [Binding("add", Arrow([NumberTy, NumberTy], NumberTy))]
    ensures Check([test, result], c1) ==
              Success([Binding("result", NumberTy),
                       Binding("test", Arrow([Arrow([NumberTy, NumberTy], NumberTy), NumberTy, NumberTy], NumberTy)),
                       Binding("add", Arrow([NumberTy, NumberTy], NumberTy))])
  {
    var binary := Arrow([NumberTy, NumberTy], NumberTy);
    var c2 := [Binding("test", Arrow([binary, NumberTy, NumberTy], NumberTy))] + c1;
    TestDeclares(test, c1);
    ResultBinds(result, c2);
    Compose([test], [result], [test, result], c1, c2, [Binding("result", NumberTy)] + c2);
    assert [Binding("result", NumberTy)] + c2 ==
           [Binding("result", NumberTy), Binding("test", Arrow([binary, NumberTy, NumberTy], NumberTy)),
            Binding("add", binary)];
  }

  lemma {:induction false} ResultBinds(result: Expr, c2: Context)
    requires result == Variable("result", FunctionApp("test", [Literal("add"), NumberLit(1), NumberLit(2)]))
    requires c2 == [Binding("test", Arrow([Arrow([NumberTy, NumberTy], NumberTy), NumberTy, NumberTy], NumberTy)),
                    Binding("add", Arrow([NumberTy, NumberTy], NumberTy))]
    ensures Check([result], c2) == Success([Binding("result", NumberTy)] + c2)
  {
    CallTyping(result.value, c2);
    LookupSpec(c2, "result");
    CheckVariable("result", result.value, c2);
  }

  /** Checking one part and then the next. */
  lemma {:induction false} Compose(xs: seq<Expr>, ys: seq<Expr>, zs: seq<Expr>, ctx: Context, middle: Context, final: Context)
    requires zs == xs + ys
    requires Check(xs, ctx) == Success(middle) && Check(ys, middle) == Success(final)
    ensures Check(zs, ctx) == Success(final)
  {
    CheckAppend(xs, ys, ctx);
  }

  lemma {:induction false} AddDeclares()
    ensures Check([Function("add", [Param("x", NumberTy), Param("y", NumberTy)],
                            [ReturnStatement(Operation(Plus, Literal("x"), Literal("y")))], NumberTy)], []) ==
            Success([Binding("add", Arrow([NumberTy, NumberTy], NumberTy))])
  {
    var add := Function("add", [Param("x", NumberTy), Param("y", NumberTy)],
                        [ReturnStatement(Operation(Plus, Literal("x"), Literal("y")))], NumberTy);
    var ic := InternalContext("add", add.params, NumberTy, []);
    ParamBinding("add", add.params, NumberTy, [], 0);
    ParamBinding("add", add.params, NumberTy, [], 1);
    PlusTyping(Literal("x"), Literal("y"), ic);
    assert ParamTypes(add.params) == [NumberTy, NumberTy];
    FunctionDeclares(add, []);
    assert [Binding("add", Arrow([NumberTy, NumberTy], NumberTy))] + [] ==
           [Binding("add", Arrow([NumberTy, NumberTy], NumberTy))];
  }

  lemma {:induction false} TestDeclares(test: Expr, c1: Context)
    requires test == Function("test", [Param("f", Arrow([NumberTy, NumberTy], NumberTy)), Param("x", NumberTy),
                                       Param("y", NumberTy)],
                              [ReturnStatement(FunctionApp("f", [Literal("x"), Literal("y")]))], NumberTy)
    requires c1 == [Binding("add", Arrow([NumberTy, NumberTy], NumberTy))]
    ensures Check([test], c1) ==
              Success([Binding("test", Arrow([Arrow([NumberTy, NumberTy], NumberTy), NumberTy, NumberTy], NumberTy))] + c1)
  {
    var ic := InternalContext(test.name, test.params, test.returnTy, c1);
    ParamBinding(test.name, test.params, test.returnTy, c1, 0);
    ParamBinding(test.name, test.params, test.returnTy, c1, 1);
    ParamBinding(test.name, test.params, test.returnTy, c1, 2);
    ApplyBinary(ic);
    TestParamsFresh(test.params, c1);
    assert ParamTypes(test.params) == [Arrow([NumberTy, NumberTy], NumberTy), NumberTy, NumberTy];
    FunctionDeclares(test, c1);
  }

  lemma {:induction false} TestParamsFresh(params: seq<Param>, c1: Context)
    requires params == [Param("f", Arrow([NumberTy, NumberTy], NumberTy)), Param("x", NumberTy), Param("y", NumberTy)]
    requires c1 == [Binding("add", Arrow([NumberTy, NumberTy], NumberTy))]
    ensures !HasParamClash(params, c1)
  {
    LookupSpec(c1, "f");
    LookupSpec(c1, "x");
    LookupSpec(c1, "y");
  }

  lemma {:induction false} ApplyBinary(ctx: Context)
    requires Lookup(ctx, "f") == Some(Arrow([NumberTy, NumberTy], NumberTy))
    requires Lookup(ctx, "x") == Some(NumberTy) && Lookup(ctx, "y") == Some(NumberTy)
    ensures Infer(FunctionApp("f", [Literal("x"), Literal("y")]), ctx) == Success(NumberTy)
  {
    TwoArgs(Literal("x"), Literal("y"), ctx, NumberTy, NumberTy);
    AppTyping("f", [Literal("x"), Literal("y")], ctx);
  }

  lemma {:induction false} CallTyping(call: Expr, c2: Context)
    requires call == FunctionApp("test", [Literal("add"), NumberLit(1), NumberLit(2)])
    requires c2 == [Binding("test", Arrow([Arrow([NumberTy, NumberTy], NumberTy), NumberTy, NumberTy], NumberTy)),
                    Binding("add", Arrow([NumberTy, NumberTy], NumberTy))]
    ensures Infer(call, c2) == Success(NumberTy)
  {
    var binary := Arrow([NumberTy, NumberTy], NumberTy);
    var args := call.args;
    assert Lookup(c2, "add") == Some(binary);
    ThreeArgs(args[0], args[1], args[2], c2, binary, NumberTy, NumberTy);
    assert [args[0], args[1], args[2]] == args;
    AppTyping("test", args, c2);
  }

  /** A recursive function: the body sees the function's own signature. */
  lemma {:induction false} RecursionExample()
    ensures
      var n := Literal("n");
      var fact := Function("fact", [Param("n", NumberTy)],
                           [ReturnStatement(Operation(Times, n, FunctionApp("fact", [Operation(Minus, n, NumberLit(1))])))],
                           NumberTy);
      Check([fact], []) == Success([Binding("fact", Arrow([NumberTy], NumberTy))])
  {
    var n := Literal("n");
    var recursiveCall := FunctionApp("fact", [Operation(Minus, n, NumberLit(1))]);
    var fact := Function("fact", [Param("n", NumberTy)], [ReturnStatement(Operation(Times, n, recursiveCall))], NumberTy);
    var ic := InternalContext("fact", fact.params, NumberTy, []);
    SelfBinding("fact", fact.params, NumberTy, []);
    ParamBinding("fact", fact.params, NumberTy, [], 0);
    assert ParamTypes(fact.params) == [NumberTy];
    ArithmeticTyping(Minus, n, NumberLit(1), ic, NumberTy);
    OneArg(recursiveCall.args[0], ic, NumberTy);
    AppTyping("fact", recursiveCall.args, ic);
    ArithmeticTyping(Times, n, recursiveCall, ic, NumberTy);
    FunctionDeclares(fact, []);
    assert [Binding("fact", Arrow([NumberTy], NumberTy))] + [] == [Binding("fact", Arrow([NumberTy], NumberTy))];
  }
}
