/** Two of the parser's own test programs, read through the grammar rules. */
module ParserExamples {
  import opened Wrappers
  import opened Ast
  import opened Lexer
  import opened Parser
  import opened ParserProperties

  /** `cria test = "test";` is one variable holding a string; the `;` is
      dropped. */
  lemma {:induction false} VariableWithSemicolon(tokens: seq<Token>)
    requires tokens == [VariableDeclaration, LiteralTok("test"), Equal, StringTok("test"), SemiColon]
    ensures ParseAllF(tokens, []) == Success([Variable("test", StringLit("test"))])
  {
    var value := [StringTok("test"), SemiColon];
    assert value[1..] == [SemiColon];
    DispatchString(value);
    VariableRule("test", value, StringLit("test"), [SemiColon]);
    assert SkipSemicolonF([SemiColon]) == [];
    assert tokens == [VariableDeclaration, LiteralTok("test"), Equal] + value;
    var e := Variable("test", StringLit("test"));
    ProgramStep(tokens, [], e, []);
    assert [] + [e] == [e];
  }

  /** A number token is a number, whatever follows it. */
  lemma {:induction false} NumberFirst(n: nat, rest: seq<Token>)
    ensures ParseOneF([NumberTok(n)] + rest) == Success((NumberLit(n), rest))
  {
    var ts := [NumberTok(n)] + rest;
    assert ts[1..] == rest;
    DispatchNumber(ts);
  }

  /** `( + n x )`, where `x` is followed by the closing parenthesis. */
  lemma {:induction false} AddNumber(n: nat, xs: seq<Token>, x: Expr, after: seq<Token>)
    requires ParseOneF(xs) == Success((x, [CloseParentheses] + after))
    ensures ParseOneF([OpenParentheses, OpTok(Plus)] + ([NumberTok(n)] + xs)) == Success((Operation(Plus, NumberLit(n), x), after))
  {
    var closing := [CloseParentheses] + after;
    assert PeekKind(closing) == Some(CloseParenthesesK) && closing[1..] == after by {
      assert closing[0] == CloseParentheses;
    }
    assert ParseOneF([NumberTok(n)] + xs) == Success((NumberLit(n), xs)) by {
      NumberFirst(n, xs);
    }
    ParenthesizedOperationRule(Plus, [NumberTok(n)] + xs, NumberLit(n), xs, x, closing);
  }

  /** The three nested operations of `( + n ( + n ( + n n ) ) )`, followed
      by any `rest`. */
  lemma {:induction false} NestedParse(n: nat, rest: seq<Token>, close1: seq<Token>, close2: seq<Token>, close3: seq<Token>)
    requires close1 == [CloseParentheses] + rest
    requires close2 == [CloseParentheses] + close1
    requires close3 == [CloseParentheses] + close2
    ensures ParseOneF([OpenParentheses, OpTok(Plus)] + ([NumberTok(n)] +
              ([OpenParentheses, OpTok(Plus)] + ([NumberTok(n)] +
              ([OpenParentheses, OpTok(Plus)] + ([NumberTok(n)] + ([NumberTok(n)] + close3)))))))
            == Success((Operation(Plus, NumberLit(n), Operation(Plus, NumberLit(n), Operation(Plus, NumberLit(n), NumberLit(n)))), rest))
  {
    var num := NumberLit(n);
    var lastNumber := [NumberTok(n)] + close3;
    assert ParseOneF(lastNumber) == Success((num, close3)) by {
      NumberFirst(n, close3);
    }
    var inner := Operation(Plus, num, num);
    var innerTokens := [OpenParentheses, OpTok(Plus)] + ([NumberTok(n)] + lastNumber);
    assert ParseOneF(innerTokens) == Success((inner, close2)) by {
      AddNumber(n, lastNumber, num, close2);
    }
    var middle := Operation(Plus, num, inner);
    var middleTokens := [OpenParentheses, OpTok(Plus)] + ([NumberTok(n)] + innerTokens);
    assert ParseOneF(middleTokens) == Success((middle, close1)) by {
      AddNumber(n, innerTokens, inner, close1);
    }
    AddNumber(n, middleTokens, middle, rest);
  }

  /** `( + n ( + n ( + n n ) ) )` nests to the right; the parser's own test
      is the case `n == 1`. */
  lemma {:induction false} NestedOperations(n: nat, tokens: seq<Token>)
    requires tokens == [OpenParentheses, OpTok(Plus), NumberTok(n),
                        OpenParentheses, OpTok(Plus), NumberTok(n),
                        OpenParentheses, OpTok(Plus), NumberTok(n), NumberTok(n),
                        CloseParentheses, CloseParentheses, CloseParentheses]
    ensures ParseAllF(tokens, [])
            == Success([Operation(Plus, NumberLit(n), Operation(Plus, NumberLit(n), Operation(Plus, NumberLit(n), NumberLit(n))))])
  {
    var outer := Operation(Plus, NumberLit(n), Operation(Plus, NumberLit(n), Operation(Plus, NumberLit(n), NumberLit(n))));
    var close1: seq<Token> := [CloseParentheses];
    var close2 := [CloseParentheses] + close1;
    var close3 := [CloseParentheses] + close2;
    NestedParse(n, [], close1, close2, close3);
    assert tokens == [OpenParentheses, OpTok(Plus)] + ([NumberTok(n)] +
              ([OpenParentheses, OpTok(Plus)] + ([NumberTok(n)] +
              ([OpenParentheses, OpTok(Plus)] + ([NumberTok(n)] + ([NumberTok(n)] + close3))))));
    ProgramStep(tokens, [], outer, []);
    assert [] + [outer] == [outer];
  }

  /** A parameter list `x : ( ...`: after a parameter's colon the parser needs
      one type keyword, so a parenthesised function type is rejected at its `(`. */
  lemma {:induction false} ParenthesizedParamList(x: string, rest: seq<Token>)
    ensures ParseParamsF([LiteralTok(x), Colon, OpenParentheses] + rest)
            == Failure(Expected(TypeDeclarationK, Some(OpenParenthesesK)))
  {
    var ps := [LiteralTok(x), Colon, OpenParentheses] + rest;
    assert ps[1..][1..] == [OpenParentheses] + rest;
  }

  /** The header of the high-order test, `pegaVisao name(f : ( ...`, is
      rejected at the `(` that opens the parameter's type. */
  lemma {:induction false} ParenthesizedParamType(name: string, x: string, rest: seq<Token>)
    ensures ParseFunctionF([FunctionDeclaration, LiteralTok(name), OpenParentheses,
                            LiteralTok(x), Colon, OpenParentheses] + rest)
            == Failure(Expected(TypeDeclarationK, Some(OpenParenthesesK)))
  {
    var ps := [LiteralTok(x), Colon, OpenParentheses] + rest;
    var sig := [OpenParentheses] + ps;
    var ts := [FunctionDeclaration, LiteralTok(name)] + sig;
    assert [FunctionDeclaration, LiteralTok(name), OpenParentheses,
            LiteralTok(x), Colon, OpenParentheses] + rest == ts;
    ParenthesizedParamList(x, rest);
    SignatureUnfold(sig, ps);
    FunctionUnfold(ts, name, sig);
  }
}
