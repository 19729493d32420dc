/** The recursive-descent parser.  The grammar is first written as functions
    over the tokens that remain to be read; the `Parser` class, a cursor over
    a fixed token list, is proved to compute those functions step by step. */
module Parser {
  import opened Wrappers
  import opened Ast
  import opened Lexer

  datatype ParseError =
    | Expected(expected: TokenKind, found: Option<TokenKind>)
    | UnexpectedToken(token: Option<Token>)

  /** A parsed value together with the tokens left after it. */
  type Parsed<T> = Result<(T, seq<Token>), ParseError>

  function PeekKind(ts: seq<Token>): Option<TokenKind> {
    if |ts| == 0 then None else Some(Kind(ts[0]))
  }

  /** Reads one token of the expected kind. */
  function ConsumeF(ts: seq<Token>, expected: TokenKind): (r: Parsed<Token>)
    ensures r.Success? <==> |ts| > 0 && Kind(ts[0]) == expected
    ensures r.Success? ==> r.value == (ts[0], ts[1..])
    ensures r.Failure? ==> r.error == Expected(expected, PeekKind(ts))
  {
    if |ts| == 0 then Failure(Expected(expected, None))
    else if Kind(ts[0]) == expected then Success((ts[0], ts[1..]))
    else Failure(Expected(expected, Some(Kind(ts[0]))))
  }

  /** Drops one `;` if it comes next. */
  function SkipSemicolonF(ts: seq<Token>): (rest: seq<Token>)
    ensures |rest| <= |ts|
    ensures PeekKind(ts) == Some(SemiColonK) ==> rest == ts[1..]
    ensures PeekKind(ts) != Some(SemiColonK) ==> rest == ts
  {
    if PeekKind(ts) == Some(SemiColonK) then ts[1..] else ts
  }

  /** `name : type` */
  function ParseParamF(ts: seq<Token>): (r: Parsed<Param>)
    ensures r.Success? ==> |r.value.1| == |ts| - 3
  {
    var name :- ConsumeF(ts, LiteralK);
    var colon :- ConsumeF(name.1, ColonK);
    var ty :- ConsumeF(colon.1, TypeDeclarationK);
    assert ty.1 == ts[3..];
    Success((Param(name.0.text, ty.0.tyValue), ty.1))
  }

  /** Further parameters, each after a comma, up to a `)`. */
  function ParamLoopF(ts: seq<Token>, params: seq<Param>): (r: Parsed<seq<Param>>)
    ensures r.Success? ==> |r.value.1| <= |ts|
    decreases |ts|
  {
    if PeekKind(ts) == Some(CloseParenthesesK) then Success((params, ts))
    else
      var comma :- ConsumeF(ts, CommaK);
      var param :- ParseParamF(comma.1);
      ParamLoopF(param.1, params + [param.0])
  }

  /** The parameter list between the parentheses of a function header: empty,
      or a first parameter optionally followed by comma-separated ones. */
  function ParseParamsF(ts: seq<Token>): (r: Parsed<seq<Param>>)
    ensures r.Success? ==> |r.value.1| <= |ts|
  {
    if PeekKind(ts) == Some(CloseParenthesesK) then Success(([], ts))
    else
      var first :- ParseParamF(ts);
      if PeekKind(first.1) == Some(CommaK) then
        ParamLoopF(first.1, [first.0])
      else Success(([first.0], first.1))
  }

  /** One expression.  The first token decides the form; a name followed by
      `(` is a call; an operator, alone or right after a `(`, starts an
      operation in prefix form. */
  function ParseOneF(ts: seq<Token>): (r: Parsed<Expr>)
    ensures r.Success? ==> |r.value.1| < |ts|
    decreases |ts|, 1
  {
    var k := PeekKind(ts);
    if k == Some(VariableDeclarationK) then ParseVariableF(ts)
    else if k == Some(FunctionDeclarationK) then ParseFunctionF(ts)
    else if k == Some(IfDeclarationK) then ParseIfF(ts)
    else if (k == Some(OpenParenthesesK) && PeekKind(ts[1..]) == Some(OpK)) || k == Some(OpK) then
      ParseOperationF(ts)
    else if k == Some(ReturnK) then ParseReturnF(ts)
    else if k == Some(LiteralK) then
      if PeekKind(ts[1..]) == Some(OpenParenthesesK) then ParseFunctionAppF(ts)
      else Success((Literal(ts[0].text), ts[1..]))
    else if k == Some(StringK) then Success((StringLit(ts[0].text), ts[1..]))
    else if k == Some(NumberK) then Success((NumberLit(ts[0].num), ts[1..]))
    else if k == Some(BooleanK) then Success((BooleanLit(ts[0].b), ts[1..]))
    else Failure(UnexpectedToken(if |ts| == 0 then None else Some(ts[0])))
  }

  /** `cria name = value`, with an optional `;`. */
  function ParseVariableF(ts: seq<Token>): (r: Parsed<Expr>)
    ensures r.Success? ==> |r.value.1| < |ts|
    decreases |ts|, 0
  {
    var keyword :- ConsumeF(ts, VariableDeclarationK);
    var name :- ConsumeF(keyword.1, LiteralK);
    var text := name.0.text;
    var equal :- ConsumeF(name.1, EqualK);
    var value :- ParseOneF(equal.1);
    var rest := SkipSemicolonF(value.1);
    assert equal.1 == ts[3..];
    Success((Variable(text, value.0), rest))
  }

  /** Expressions up to a `}`. */
  function BodyLoopF(ts: seq<Token>, body: seq<Expr>): (r: Parsed<seq<Expr>>)
    ensures r.Success? ==> |r.value.1| <= |ts|
    decreases |ts|, 2
  {
    if PeekKind(ts) == Some(CloseCurlyBracketK) then Success((body, ts))
    else
      var e :- ParseOneF(ts);
      BodyLoopF(e.1, body + [e.0])
  }

  /** `{ body }`, the block of a function or a conditional. */
  function ParseBlockF(ts: seq<Token>): (r: Parsed<seq<Expr>>)
    ensures r.Success? ==> |r.value.1| < |ts|
    decreases |ts|, 3
  {
    var open :- ConsumeF(ts, OpenCurlyBracketK);
    var body :- BodyLoopF(open.1, []);
    var close :- ConsumeF(body.1, CloseCurlyBracketK);
    Success((body.0, close.1))
  }

  /** `) : type`, the end of a function header. */
  function ParseReturnTypeF(ts: seq<Token>): (r: Parsed<Type>)
    ensures r.Success? ==> |r.value.1| == |ts| - 3 && r.value.1 == ts[3..]
  {
    var close :- ConsumeF(ts, CloseParenthesesK);
    var colon :- ConsumeF(close.1, ColonK);
    var returnTy :- ConsumeF(colon.1, TypeDeclarationK);
    Success((returnTy.0.tyValue, returnTy.1))
  }

  /** `( params ) : type`, a function's signature. */
  function ParseSignatureF(ts: seq<Token>): (r: Parsed<(seq<Param>, Type)>)
    ensures r.Success? ==> |r.value.1| < |ts|
  {
    var open :- ConsumeF(ts, OpenParenthesesK);
    var params :- ParseParamsF(open.1);
    var returnTy :- ParseReturnTypeF(params.1);
    Success(((params.0, returnTy.0), returnTy.1))
  }

  /** `pegaVisao name ( params ) : type { body }` */
  function ParseFunctionF(ts: seq<Token>): (r: Parsed<Expr>)
    ensures r.Success? ==> |r.value.1| < |ts|
    decreases |ts|, 0
  {
    var keyword :- ConsumeF(ts, FunctionDeclarationK);
    var name :- ConsumeF(keyword.1, LiteralK);
    var text := name.0.text;
    var signature :- ParseSignatureF(name.1);
    var body :- ParseBlockF(signature.1);
    Success((Function(text, signature.0.0, body.0, signature.0.1), body.1))
  }

  /** `qualfoi? ( condition ) { body }` */
  function ParseIfF(ts: seq<Token>): (r: Parsed<Expr>)
    ensures r.Success? ==> |r.value.1| < |ts|
    decreases |ts|, 0
  {
    var keyword :- ConsumeF(ts, IfDeclarationK);
    var open :- ConsumeF(keyword.1, OpenParenthesesK);
    var condition :- ParseOneF(open.1);
    var close :- ConsumeF(condition.1, CloseParenthesesK);
    var body :- ParseBlockF(close.1);
    Success((If(condition.0, body.0), body.1))
  }

  /** `tomali value`, with an optional `;`. */
  function ParseReturnF(ts: seq<Token>): (r: Parsed<Expr>)
    ensures r.Success? ==> |r.value.1| < |ts|
    decreases |ts|, 0
  {
    var keyword :- ConsumeF(ts, ReturnK);
    var value :- ParseOneF(keyword.1);
    Success((ReturnStatement(value.0), SkipSemicolonF(value.1)))
  }

  /** An operator and its two operands, in parentheses when it starts with
      one. */
  function ParseOperationF(ts: seq<Token>): (r: Parsed<Expr>)
    ensures r.Success? ==> |r.value.1| < |ts|
    decreases |ts|, 0
  {
    var hasParentheses := PeekKind(ts) == Some(OpenParenthesesK);
    var start := if hasParentheses then ts[1..] else ts;
    var op :- ConsumeF(start, OpK);
    var operator := op.0.op;
    var left :- ParseOneF(op.1);
    var right :- ParseOneF(left.1);
    if hasParentheses then
      var close :- ConsumeF(right.1, CloseParenthesesK);
      Success((Operation(operator, left.0, right.0), close.1))
    else
      Success((Operation(operator, left.0, right.0), right.1))
  }

  /** Further arguments, each after a comma, up to a `)`. */
  function ArgLoopF(ts: seq<Token>, args: seq<Expr>): (r: Parsed<seq<Expr>>)
    ensures r.Success? ==> |r.value.1| <= |ts|
    decreases |ts|, 2
  {
    if PeekKind(ts) == Some(CloseParenthesesK) then Success((args, ts))
    else
      var comma :- ConsumeF(ts, CommaK);
      var arg :- ParseOneF(comma.1);
      ArgLoopF(arg.1, args + [arg.0])
  }

  /** The argument list between the parentheses of a call: empty, or a first
      argument optionally followed by comma-separated ones. */
  function ParseArgsF(ts: seq<Token>): (r: Parsed<seq<Expr>>)
    ensures r.Success? ==> |r.value.1| <= |ts|
    decreases |ts|, 2
  {
    if PeekKind(ts) == Some(CloseParenthesesK) then Success(([], ts))
    else
      var first :- ParseOneF(ts);
      if PeekKind(first.1) == Some(CommaK) then
        ArgLoopF(first.1, [first.0])
      else Success(([first.0], first.1))
  }

  /** `name ( args )`, with an optional `;`; the name `radinho` makes it a
      print. */
  function ParseFunctionAppF(ts: seq<Token>): (r: Parsed<Expr>)
    ensures r.Success? ==> |r.value.1| < |ts|
    decreases |ts|, 0
  {
    var name :- ConsumeF(ts, LiteralK);
    var text := name.0.text;
    var open :- ConsumeF(name.1, OpenParenthesesK);
    var args :- ParseArgsF(open.1);
    var close :- ConsumeF(args.1, CloseParenthesesK);
    var rest := SkipSemicolonF(close.1);
    if text == "radinho" then Success((Console(args.0), rest))
    else Success((FunctionApp(text, args.0), rest))
  }

  /** All expressions up to the end of the input. */
  function ParseAllF(ts: seq<Token>, result: seq<Expr>): Result<seq<Expr>, ParseError>
    decreases |ts|
  {
    if |ts| == 0 then Success(result)
    else
      var e :- ParseOneF(ts);
      ParseAllF(e.1, result + [e.0])
  }

  /** Lifts the result of a method to the shape of the functional spec. */
  function Lift<T>(r: Result<T, ParseError>, rest: seq<Token>): Parsed<T> {
    if r.Success? then Success((r.value, rest)) else Failure(r.error)
  }

  /** The cursor over a token list: `pos` is the index of the next token.
      Every method leaves the cursor where its functional counterpart leaves
      the remaining tokens, and fails exactly when that function fails. */
  class Parser {
    const tokens: seq<Token>
    var pos: nat

    predicate Valid()
      reads this
    {
      pos <= |tokens|
    }

    constructor (tokens: seq<Token>)
      ensures this.tokens == tokens && pos == 0 && Valid()
    {
      this.tokens := tokens;
      pos := 0;
    }

    /** The next token, if any. */
    function Peek(): Option<Token>
      reads this
    {
      if pos < |tokens| then Some(tokens[pos]) else None
    }

    predicate NextIs(k: TokenKind)
      reads this
    {
      pos < |tokens| && Kind(tokens[pos]) == k
    }

    /** The token after the next one has kind `k`. */
    predicate SecondIs(k: TokenKind)
      reads this
    {
      pos + 1 < |tokens| && Kind(tokens[pos + 1]) == k
    }

    /** Reads one token of kind `expected`.  The cursor moves past a token of
        the wrong kind before the error is reported; at the end of the input
        it stays put. */
    method Consume(expected: TokenKind) returns (r: Result<Token, ParseError>)
      requires Valid()
      modifies this
      ensures Valid()
      ensures Lift(r, tokens[pos..]) == ConsumeF(tokens[old(pos)..], expected)
      ensures r.Success? ==> Kind(r.value) == expected
      ensures old(pos) < |tokens| ==> pos == old(pos) + 1
      ensures old(pos) == |tokens| ==> pos == old(pos)
    {
      if pos == |tokens| {
        return Failure(Expected(expected, None));
      }
      var token := tokens[pos];
      pos := pos + 1;
      if Kind(token) != expected {
        return Failure(Expected(expected, Some(Kind(token))));
      }
      return Success(token);
    }

    /** Drops one `;` if it comes next. */
    method SkipSemicolon()
      requires Valid()
      modifies this
      ensures Valid()
      ensures tokens[pos..] == SkipSemicolonF(tokens[old(pos)..])
    {
      if NextIs(SemiColonK) {
        var _ := Consume(SemiColonK);
      }
    }

    method ParseVariable() returns (r: Result<Expr, ParseError>)
      requires Valid()
      modifies this
      ensures Valid()
      ensures Lift(r, tokens[pos..]) == ParseVariableF(tokens[old(pos)..])
      decreases |tokens| - pos, 0
    {
      ghost var start := pos;
      var keyword :- Consume(VariableDeclarationK);
      var name :- Consume(LiteralK);
      var text := name.text;
      var equal :- Consume(EqualK);
      assert tokens[pos..] == tokens[start..][3..];
      var value :- ParseOne();
      SkipSemicolon();
      return Success(Variable(text, value));
    }

    /** `name : type` */
    method ParseParam() returns (r: Result<Param, ParseError>)
      requires Valid()
      modifies this
      ensures Valid()
      ensures Lift(r, tokens[pos..]) == ParseParamF(tokens[old(pos)..])
    {
      var name :- Consume(LiteralK);
      var text := name.text;
      var colon :- Consume(ColonK);
      var ty :- Consume(TypeDeclarationK);
      return Success(Param(text, ty.tyValue));
    }

    /** The parameter list: a first parameter, then more after commas while
        the next token is not `)`. */
    method ParseParams() returns (r: Result<seq<Param>, ParseError>)
      requires Valid()
      modifies this
      ensures Valid()
      ensures Lift(r, tokens[pos..]) == ParseParamsF(tokens[old(pos)..])
    {
      var params := [];
      if !NextIs(CloseParenthesesK) {
        var first :- ParseParam();
        params := [first];
        if NextIs(CommaK) {
          while !NextIs(CloseParenthesesK)
            invariant Valid()
            invariant ParamLoopF(tokens[pos..], params) == ParseParamsF(tokens[old(pos)..])
            decreases |tokens| - pos
          {
            var comma :- Consume(CommaK);
            var param :- ParseParam();
            params := params + [param];
          }
        }
      }
      return Success(params);
    }

    /** `) : type` */
    method ParseReturnType() returns (r: Result<Type, ParseError>)
      requires Valid()
      modifies this
      ensures Valid()
      ensures Lift(r, tokens[pos..]) == ParseReturnTypeF(tokens[old(pos)..])
    {
      var close :- Consume(CloseParenthesesK);
      var colon :- Consume(ColonK);
      var returnTy :- Consume(TypeDeclarationK);
      return Success(returnTy.tyValue);
    }

    /** `( params ) : type` */
    method ParseSignature() returns (r: Result<(seq<Param>, Type), ParseError>)
      requires Valid()
      modifies this
      ensures Valid()
      ensures Lift(r, tokens[pos..]) == ParseSignatureF(tokens[old(pos)..])
    {
      var open :- Consume(OpenParenthesesK);
      var params :- ParseParams();
      var returnTy :- ParseReturnType();
      return Success((params, returnTy));
    }

    /** `{`, expressions while the next token is not `}`, then `}`. */
    method ParseBlock() returns (r: Result<seq<Expr>, ParseError>)
      requires Valid()
      modifies this
      ensures Valid()
      ensures Lift(r, tokens[pos..]) == ParseBlockF(tokens[old(pos)..])
      decreases |tokens| - pos, 0
    {
      var open :- Consume(OpenCurlyBracketK);
      ghost var start := pos;
      var body := [];
      while !NextIs(CloseCurlyBracketK)
        invariant Valid() && old(pos) < start <= pos
        invariant BodyLoopF(tokens[pos..], body) == BodyLoopF(tokens[start..], [])
        decreases |tokens| - pos
      {
        var e :- ParseOne();
        body := body + [e];
      }
      var close := Consume(CloseCurlyBracketK);
      return Success(body);
    }

    method ParseFunction() returns (r: Result<Expr, ParseError>)
      requires Valid()
      modifies this
      ensures Valid()
      ensures Lift(r, tokens[pos..]) == ParseFunctionF(tokens[old(pos)..])
      decreases |tokens| - pos, 0
    {
      var keyword :- Consume(FunctionDeclarationK);
      var name :- Consume(LiteralK);
      var text := name.text;
      var signature :- ParseSignature();
      var body :- ParseBlock();
      return Success(Function(text, signature.0, body, signature.1));
    }

    method ParseIf() returns (r: Result<Expr, ParseError>)
      requires Valid()
      modifies this
      ensures Valid()
      ensures Lift(r, tokens[pos..]) == ParseIfF(tokens[old(pos)..])
      decreases |tokens| - pos, 0
    {
      var keyword :- Consume(IfDeclarationK);
      var open :- Consume(OpenParenthesesK);
      var condition :- ParseOne();
      var close :- Consume(CloseParenthesesK);
      var body :- ParseBlock();
      return Success(If(condition, body));
    }

    method ParseReturn() returns (r: Result<Expr, ParseError>)
      requires Valid()
      modifies this
      ensures Valid()
      ensures Lift(r, tokens[pos..]) == ParseReturnF(tokens[old(pos)..])
      decreases |tokens| - pos, 0
    {
      var keyword :- Consume(ReturnK);
      var value :- ParseOne();
      SkipSemicolon();
      return Success(ReturnStatement(value));
    }

    /** The argument list: a first argument, then more after commas while the
        next token is not `)`. */
    method ParseArgs() returns (r: Result<seq<Expr>, ParseError>)
      requires Valid()
      modifies this
      ensures Valid()
      ensures Lift(r, tokens[pos..]) == ParseArgsF(tokens[old(pos)..])
      decreases |tokens| - pos, 2
    {
      var args := [];
      if !NextIs(CloseParenthesesK) {
        var first :- ParseOne();
        args := [first];
        if NextIs(CommaK) {
          ghost var start := pos;
          while !NextIs(CloseParenthesesK)
            invariant Valid() && old(pos) < start <= pos
            invariant ArgLoopF(tokens[pos..], args) == ArgLoopF(tokens[start..], [first])
            decreases |tokens| - pos
          {
            var comma :- Consume(CommaK);
            var arg :- ParseOne();
            args := args + [arg];
          }
        }
      }
      return Success(args);
    }

    method ParseFunctionApp() returns (r: Result<Expr, ParseError>)
      requires Valid()
      modifies this
      ensures Valid()
      ensures Lift(r, tokens[pos..]) == ParseFunctionAppF(tokens[old(pos)..])
      decreases |tokens| - pos, 0
    {
      var name :- Consume(LiteralK);
      var text := name.text;
      var open :- Consume(OpenParenthesesK);
      var args :- ParseArgs();
      var close :- Consume(CloseParenthesesK);
      SkipSemicolon();
      if text == "radinho" {
        return Success(Console(args));
      }
      return Success(FunctionApp(text, args));
    }

    /** An operator and its two operands, inside parentheses when the next
        token is `(`. */
    method ParseOperation() returns (r: Result<Expr, ParseError>)
      requires Valid()
      modifies this
      ensures Valid()
      ensures Lift(r, tokens[pos..]) == ParseOperationF(tokens[old(pos)..])
      decreases |tokens| - pos, 0
    {
      var hasParentheses := NextIs(OpenParenthesesK);
      if hasParentheses {
        var _ := Consume(OpenParenthesesK);
      }
      var op :- Consume(OpK);
      var operator := op.op;
      var left :- ParseOne();
      var right :- ParseOne();
      if hasParentheses {
        var close :- Consume(CloseParenthesesK);
      }
      return Success(Operation(operator, left, right));
    }

    /** One expression; a successful parse always reads at least one token. */
    method ParseOne() returns (r: Result<Expr, ParseError>)
      requires Valid()
      modifies this
      ensures Valid()
      ensures Lift(r, tokens[pos..]) == ParseOneF(tokens[old(pos)..])
      ensures r.Success? ==> old(pos) < pos
      decreases |tokens| - pos, 1
    {
      if NextIs(VariableDeclarationK) {
        r := ParseVariable();
      } else if NextIs(FunctionDeclarationK) {
        r := ParseFunction();
      } else if NextIs(IfDeclarationK) {
        r := ParseIf();
      } else if (NextIs(OpenParenthesesK) && SecondIs(OpK)) || NextIs(OpK) {
        r := ParseOperation();
      } else if NextIs(ReturnK) {
        r := ParseReturn();
      } else if NextIs(LiteralK) && SecondIs(OpenParenthesesK) {
        r := ParseFunctionApp();
      } else if NextIs(LiteralK) {
        var t := tokens[pos];
        pos := pos + 1;
        r := Success(Literal(t.text));
      } else if NextIs(StringK) {
        var t := tokens[pos];
        pos := pos + 1;
        r := Success(StringLit(t.text));
      } else if NextIs(NumberK) {
        var t := tokens[pos];
        pos := pos + 1;
        r := Success(NumberLit(t.num));
      } else if NextIs(BooleanK) {
        var t := tokens[pos];
        pos := pos + 1;
        r := Success(BooleanLit(t.b));
      } else {
        r := Failure(UnexpectedToken(Peek()));
      }
    }

    /** Expressions until the input runs out; on success the cursor is at the
        end. */
    method Parse() returns (r: Result<seq<Expr>, ParseError>)
      requires Valid()
      modifies this
      ensures Valid()
      ensures r == ParseAllF(tokens[old(pos)..], [])
      ensures r.Success? ==> pos == |tokens|
    {
      var result := [];
      while Peek().Some?
        invariant Valid()
        invariant ParseAllF(tokens[pos..], result) == ParseAllF(tokens[old(pos)..], [])
        decreases |tokens| - pos
      {
        var e :- ParseOne();
        result := result + [e];
      }
      return Success(result);
    }
  }

  /** Parses a whole token list with a fresh cursor. */
  method ParseProgram(tokens: seq<Token>) returns (r: Result<seq<Expr>, ParseError>)
    ensures r == ParseAllF(tokens, [])
  {
    var parser := new Parser(tokens);
    assert tokens[0..] == tokens;
    r := parser.Parse();
  }
}
