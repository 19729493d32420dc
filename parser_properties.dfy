/** Properties of the parser: the tokens of every well-formed expression parse
    back to that expression, and the individual grammar rules behave as the
    parser's tests describe. */
module ParserProperties {
  import opened Wrappers
  import opened Ast
  import opened Lexer
  import opened Parser
  import opened Sequences

  /** The canonical token form of an expression: operators in prefix form
      without parentheses, and no optional semicolons. */
  function Tokens(e: Expr): seq<Token>
    decreases Size(e), 0
  {
    match e
    case Literal(name) => [LiteralTok(name)]
    case StringLit(s) => [StringTok(s)]
    case NumberLit(n) => [NumberTok(n)]
    case BooleanLit(b) => [BooleanTok(b)]
    case Variable(name, value) => [VariableDeclaration, LiteralTok(name), Equal] + Tokens(value)
    case Function(name, params, body, returnTy) =>
      [FunctionDeclaration, LiteralTok(name), OpenParentheses] + ParamTokens(params)
      + [CloseParentheses, Colon, TypeDeclaration(returnTy), OpenCurlyBracket]
      + TokensSeq(body) + [CloseCurlyBracket]
    case FunctionApp(name, args) => [LiteralTok(name), OpenParentheses] + ArgTokens(args) + [CloseParentheses]
    case ReturnStatement(value) => [Return] + Tokens(value)
    case Operation(op, left, right) => [OpTok(op)] + Tokens(left) + Tokens(right)
    case If(condition, thenBody) =>
      [IfDeclaration, OpenParentheses] + Tokens(condition) + [CloseParentheses, OpenCurlyBracket]
      + TokensSeq(thenBody) + [CloseCurlyBracket]
    case Console(values) => [LiteralTok("radinho"), OpenParentheses] + ArgTokens(values) + [CloseParentheses]
  }

  /** Expressions one after the other. */
  function TokensSeq(es: seq<Expr>): seq<Token>
    decreases SizeOfAll(es), 1
  {
    if |es| == 0 then [] else Tokens(es[0]) + TokensSeq(es[1..])
  }

  /** Arguments separated by commas. */
  function ArgTokens(es: seq<Expr>): seq<Token>
    decreases SizeOfAll(es), 2
  {
    if |es| == 0 then [] else Tokens(es[0]) + MoreArgTokens(es[1..])
  }

  /** Arguments each preceded by a comma. */
  function MoreArgTokens(es: seq<Expr>): seq<Token>
    decreases SizeOfAll(es), 1
  {
    if |es| == 0 then [] else [Comma] + Tokens(es[0]) + MoreArgTokens(es[1..])
  }

  function ParamTokensOf(p: Param): seq<Token> {
    [LiteralTok(p.name), Colon, TypeDeclaration(p.ty)]
  }

  function ParamTokens(ps: seq<Param>): seq<Token> {
    if |ps| == 0 then [] else ParamTokensOf(ps[0]) + MoreParamTokens(ps[1..])
  }

  function MoreParamTokens(ps: seq<Param>): seq<Token> {
    if |ps| == 0 then [] else [Comma] + ParamTokensOf(ps[0]) + MoreParamTokens(ps[1..])
  }

  /** The only expressions without a canonical token form are calls of a
      function named `radinho`, whose tokens read back as a print. */
  predicate Wf(e: Expr)
    decreases Size(e), 0
  {
    match e
    case Variable(_, value) => Wf(value)
    case Function(_, _, body, _) => WfAll(body)
    case FunctionApp(name, args) => name != "radinho" && WfAll(args)
    case ReturnStatement(value) => Wf(value)
    case Operation(_, left, right) => Wf(left) && Wf(right)
    case If(condition, thenBody) => Wf(condition) && WfAll(thenBody)
    case Console(values) => WfAll(values)
    case _ => true
  }

  predicate WfAll(es: seq<Expr>)
    decreases SizeOfAll(es), 1
  {
    |es| == 0 || (Wf(es[0]) && WfAll(es[1..]))
  }

  /** What may follow an expression without changing how it parses: not an
      optional `;` and not the `(` that would turn a name into a call. */
  predicate FollowOk(rest: seq<Token>) {
    PeekKind(rest) != Some(SemiColonK) && PeekKind(rest) != Some(OpenParenthesesK)
  }

  /** The token kinds that can begin an expression. */
  predicate StartsExpression(k: TokenKind) {
    k in {VariableDeclarationK, FunctionDeclarationK, IfDeclarationK, OpK, ReturnK,
          LiteralK, StringK, NumberK, BooleanK, OpenParenthesesK}
  }

  // One lemma per branch of the dispatch on the next token.

  lemma {:induction false} DispatchVariable(ts: seq<Token>)
    requires PeekKind(ts) == Some(VariableDeclarationK)
    ensures ParseOneF(ts) == ParseVariableF(ts)
  {
  }

  lemma {:induction false} DispatchFunction(ts: seq<Token>)
    requires PeekKind(ts) == Some(FunctionDeclarationK)
    ensures ParseOneF(ts) == ParseFunctionF(ts)
  {
  }

  lemma {:induction false} DispatchIf(ts: seq<Token>)
    requires PeekKind(ts) == Some(IfDeclarationK)
    ensures ParseOneF(ts) == ParseIfF(ts)
  {
  }

  lemma {:induction false} DispatchOperation(ts: seq<Token>)
    requires PeekKind(ts) == Some(OpK) || (PeekKind(ts) == Some(OpenParenthesesK) && PeekKind(ts[1..]) == Some(OpK))
    ensures ParseOneF(ts) == ParseOperationF(ts)
  {
  }

  lemma {:induction false} DispatchReturn(ts: seq<Token>)
    requires PeekKind(ts) == Some(ReturnK)
    ensures ParseOneF(ts) == ParseReturnF(ts)
  {
  }

  lemma {:induction false} DispatchApp(ts: seq<Token>)
    requires PeekKind(ts) == Some(LiteralK) && PeekKind(ts[1..]) == Some(OpenParenthesesK)
    ensures ParseOneF(ts) == ParseFunctionAppF(ts)
  {
  }

  lemma {:induction false} DispatchName(ts: seq<Token>)
    requires PeekKind(ts) == Some(LiteralK) && PeekKind(ts[1..]) != Some(OpenParenthesesK)
    ensures ParseOneF(ts) == Success((Literal(ts[0].text), ts[1..]))
  {
  }

  lemma {:induction false} DispatchString(ts: seq<Token>)
    requires PeekKind(ts) == Some(StringK)
    ensures ParseOneF(ts) == Success((StringLit(ts[0].text), ts[1..]))
  {
  }

  lemma {:induction false} DispatchNumber(ts: seq<Token>)
    requires PeekKind(ts) == Some(NumberK)
    ensures ParseOneF(ts) == Success((NumberLit(ts[0].num), ts[1..]))
  {
  }

  lemma {:induction false} DispatchBoolean(ts: seq<Token>)
    requires PeekKind(ts) == Some(BooleanK)
    ensures ParseOneF(ts) == Success((BooleanLit(ts[0].b), ts[1..]))
  {
  }

  // The grammar rules, each first for its own parsing function and then
  // through the dispatch.

  lemma {:induction false} VariableSteps(all: seq<Token>, name: string, ts: seq<Token>, value: Expr, after: seq<Token>)
    requires all == [VariableDeclaration, LiteralTok(name), Equal] + ts
    requires ParseOneF(ts) == Success((value, after))
    ensures ParseVariableF(all) == Success((Variable(name, value), SkipSemicolonF(after)))
  {
    assert all[1..][1..][1..] == ts;
  }

  /** `cria name = value`, optionally followed by `;`, is a variable. */
  lemma {:induction false} VariableRule(name: string, ts: seq<Token>, value: Expr, after: seq<Token>)
    requires ParseOneF(ts) == Success((value, after))
    ensures ParseOneF([VariableDeclaration, LiteralTok(name), Equal] + ts)
            == Success((Variable(name, value), SkipSemicolonF(after)))
  {
    var all := [VariableDeclaration, LiteralTok(name), Equal] + ts;
    VariableSteps(all, name, ts, value, after);
    DispatchVariable(all);
  }

  lemma {:induction false} ReturnSteps(all: seq<Token>, ts: seq<Token>, value: Expr, after: seq<Token>)
    requires all == [Return] + ts
    requires ParseOneF(ts) == Success((value, after))
    ensures ParseReturnF(all) == Success((ReturnStatement(value), SkipSemicolonF(after)))
  {
    ConsumeFirst(Return, ts);
    var keyword := ConsumeF(all, ReturnK);
    assert keyword == Success((Return, ts));
    assert ParseOneF(keyword.value.1) == Success((value, after));
  }

  /** `tomali value`, optionally followed by `;`, is a return. */
  lemma {:induction false} ReturnRule(ts: seq<Token>, value: Expr, after: seq<Token>)
    requires ParseOneF(ts) == Success((value, after))
    ensures ParseOneF([Return] + ts) == Success((ReturnStatement(value), SkipSemicolonF(after)))
  {
    var all := [Return] + ts;
    ReturnSteps(all, ts, value, after);
    DispatchReturn(all);
  }

  /** Consuming the kind of the first token takes exactly that token. */
  lemma {:induction false} ConsumeFirst(t: Token, ts: seq<Token>)
    ensures ConsumeF([t] + ts, Kind(t)) == Success((t, ts))
  {
    assert ([t] + ts)[1..] == ts;
  }

  /** Reading a token of kind `k` succeeds with `(t, rest)` exactly when the
      input is `t` followed by `rest` and `t` has kind `k`; it fails exactly
      when the next token, if any, has another kind. */
  lemma {:induction false} ConsumeSplit(ts: seq<Token>, k: TokenKind, t: Token, rest: seq<Token>)
    ensures ConsumeF(ts, k) == Success((t, rest)) <==> ts == [t] + rest && Kind(t) == k
    ensures ConsumeF(ts, k).Failure? <==> PeekKind(ts) != Some(k)
  {
    if ts == [t] + rest {
      assert ts[0] == t && ts[1..] == rest;
    }
    if ConsumeF(ts, k) == Success((t, rest)) {
      assert ts == [ts[0]] + ts[1..];
    }
  }

  // The continuations of the parsing functions that call back into the
  // dispatch, so that each step below unfolds one function only.

  /** What an operation does once its left operand has been parsed. */
  function OperationLeft(op: Op, hasParentheses: bool, left: Parsed<Expr>): Parsed<Expr> {
    match left
    case Failure(e) => Failure(e)
    case Success(l) => OperationRight(op, hasParentheses, l.0, ParseOneF(l.1))
  }

  /** What an operation does once its right operand has been parsed. */
  function OperationRight(op: Op, hasParentheses: bool, left: Expr, right: Parsed<Expr>): Parsed<Expr> {
    match right
    case Failure(e) => Failure(e)
    case Success(r) =>
      if hasParentheses then
        match ConsumeF(r.1, CloseParenthesesK)
        case Failure(e) => Failure(e)
        case Success(close) => Success((Operation(op, left, r.0), close.1))
      else Success((Operation(op, left, r.0), r.1))
  }

  lemma {:induction false} OperationUnfold(all: seq<Token>, op: Op, ts: seq<Token>)
    requires all == [OpTok(op)] + ts
    ensures ParseOperationF(all) == OperationLeft(op, false, ParseOneF(ts))
  {
    assert all[0] == OpTok(op);
    assert PeekKind(all) == Some(OpK);
    ConsumeFirst(OpTok(op), ts);
  }

  lemma {:induction false} ParenthesizedOperationUnfold(all: seq<Token>, op: Op, ts: seq<Token>)
    requires all == [OpenParentheses, OpTok(op)] + ts
    ensures ParseOperationF(all) == OperationLeft(op, true, ParseOneF(ts))
  {
    assert all[0] == OpenParentheses;
    assert PeekKind(all) == Some(OpenParenthesesK);
    assert all[1..] == [OpTok(op)] + ts;
    ConsumeFirst(OpTok(op), ts);
  }

  lemma {:induction false} OperationSteps(all: seq<Token>, op: Op, ts: seq<Token>, left: Expr, mid: seq<Token>, right: Expr, after: seq<Token>)
    requires all == [OpTok(op)] + ts
    requires ParseOneF(ts) == Success((left, mid))
    requires ParseOneF(mid) == Success((right, after))
    ensures ParseOperationF(all) == Success((Operation(op, left, right), after))
  {
    OperationUnfold(all, op, ts);
  }

  /** An operator followed by two operands is an operation on them. */
  lemma {:induction false} OperationRule(op: Op, ts: seq<Token>, left: Expr, mid: seq<Token>, right: Expr, after: seq<Token>)
    requires ParseOneF(ts) == Success((left, mid))
    requires ParseOneF(mid) == Success((right, after))
    ensures ParseOneF([OpTok(op)] + ts) == Success((Operation(op, left, right), after))
  {
    var all := [OpTok(op)] + ts;
    OperationSteps(all, op, ts, left, mid, right, after);
    DispatchOperation(all);
  }

  lemma {:induction false} ParenthesizedOperationSteps(all: seq<Token>, op: Op, ts: seq<Token>, left: Expr, mid: seq<Token>,
                                    right: Expr, after: seq<Token>)
    requires all == [OpenParentheses, OpTok(op)] + ts
    requires ParseOneF(ts) == Success((left, mid))
    requires ParseOneF(mid) == Success((right, after))
    ensures ParseOperationF(all)
            == if PeekKind(after) == Some(CloseParenthesesK) then Success((Operation(op, left, right), after[1..]))
               else Failure(Expected(CloseParenthesesK, PeekKind(after)))
  {
    ParenthesizedOperationUnfold(all, op, ts);
  }

  /** The same inside parentheses, where the closing one is required. */
  lemma {:induction false} ParenthesizedOperationRule(op: Op, ts: seq<Token>, left: Expr, mid: seq<Token>, right: Expr, after: seq<Token>)
    requires ParseOneF(ts) == Success((left, mid))
    requires ParseOneF(mid) == Success((right, after))
    ensures ParseOneF([OpenParentheses, OpTok(op)] + ts)
            == if PeekKind(after) == Some(CloseParenthesesK) then Success((Operation(op, left, right), after[1..]))
               else Failure(Expected(CloseParenthesesK, PeekKind(after)))
  {
    var all := [OpenParentheses, OpTok(op)] + ts;
    ParenthesizedOperationSteps(all, op, ts, left, mid, right, after);
    assert all[1..][0] == OpTok(op);
    DispatchOperation(all);
  }

  lemma {:induction false} AppSteps(all: seq<Token>, name: string, ts: seq<Token>, args: seq<Expr>, after: seq<Token>)
    requires all == [LiteralTok(name), OpenParentheses] + ts
    requires ParseArgsF(ts) == Success((args, after))
    ensures ParseFunctionAppF(all)
            == if PeekKind(after) != Some(CloseParenthesesK) then Failure(Expected(CloseParenthesesK, PeekKind(after)))
               else if name == "radinho" then Success((Console(args), SkipSemicolonF(after[1..])))
               else Success((FunctionApp(name, args), SkipSemicolonF(after[1..])))
  {
    assert all[1..][1..] == ts;
  }

  /** A name followed by `(` is a call, or a print when the name is
      `radinho`; an optional `;` may follow the closing parenthesis. */
  lemma {:induction false} AppRule(name: string, ts: seq<Token>, args: seq<Expr>, after: seq<Token>)
    requires ParseArgsF(ts) == Success((args, after))
    ensures ParseOneF([LiteralTok(name), OpenParentheses] + ts)
            == if PeekKind(after) != Some(CloseParenthesesK) then Failure(Expected(CloseParenthesesK, PeekKind(after)))
               else if name == "radinho" then Success((Console(args), SkipSemicolonF(after[1..])))
               else Success((FunctionApp(name, args), SkipSemicolonF(after[1..])))
  {
    var all := [LiteralTok(name), OpenParentheses] + ts;
    AppSteps(all, name, ts, args, after);
    assert all[1..][0] == OpenParentheses;
    DispatchApp(all);
  }

  /** A name not followed by `(` is a reference to it. */
  lemma {:induction false} NameRule(name: string, after: seq<Token>)
    requires PeekKind(after) != Some(OpenParenthesesK)
    ensures ParseOneF([LiteralTok(name)] + after) == Success((Literal(name), after))
  {
    var all := [LiteralTok(name)] + after;
    assert all[1..] == after;
    DispatchName(all);
  }

  /** What a conditional does once its condition has been parsed. */
  function IfTail(condition: Parsed<Expr>): Parsed<Expr> {
    match condition
    case Failure(e) => Failure(e)
    case Success(c) =>
      match ConsumeF(c.1, CloseParenthesesK)
      case Failure(e) => Failure(e)
      case Success(close) =>
        match ParseBlockF(close.1)
        case Failure(e) => Failure(e)
        case Success(body) => Success((If(c.0, body.0), body.1))
  }

  lemma {:induction false} IfUnfold(all: seq<Token>)
    requires |all| >= 2 && all[0] == IfDeclaration && all[1] == OpenParentheses
    ensures ParseIfF(all) == IfTail(ParseOneF(all[2..]))
  {
  }

  lemma {:induction false} IfTailSteps(condition: Expr, blockTokens: seq<Token>, body: seq<Expr>, after: seq<Token>)
    requires ParseBlockF(blockTokens) == Success((body, after))
    ensures IfTail(Success((condition, [CloseParentheses] + blockTokens))) == Success((If(condition, body), after))
  {
    assert ([CloseParentheses] + blockTokens)[1..] == blockTokens;
  }

  lemma {:induction false} IfSteps(all: seq<Token>, ts: seq<Token>, condition: Expr, blockTokens: seq<Token>, body: seq<Expr>, after: seq<Token>)
    requires all == [IfDeclaration, OpenParentheses] + ts
    requires ParseOneF(ts) == Success((condition, [CloseParentheses] + blockTokens))
    requires ParseBlockF(blockTokens) == Success((body, after))
    ensures ParseIfF(all) == Success((If(condition, body), after))
  {
    assert all[2..] == ts;
    IfUnfold(all);
    IfTailSteps(condition, blockTokens, body, after);
  }

  /** `qualfoi? ( condition ) block` is a conditional. */
  lemma {:induction false} IfRule(ts: seq<Token>, condition: Expr, blockTokens: seq<Token>, body: seq<Expr>, after: seq<Token>)
    requires ParseOneF(ts) == Success((condition, [CloseParentheses] + blockTokens))
    requires ParseBlockF(blockTokens) == Success((body, after))
    ensures ParseOneF([IfDeclaration, OpenParentheses] + ts) == Success((If(condition, body), after))
  {
    var all := [IfDeclaration, OpenParentheses] + ts;
    IfSteps(all, ts, condition, blockTokens, body, after);
    DispatchIf(all);
  }

  /** What a function header does once its parameters have been parsed. */
  function SignatureTail(params: Parsed<seq<Param>>): Parsed<(seq<Param>, Type)> {
    match params
    case Failure(e) => Failure(e)
    case Success(p) =>
      match ParseReturnTypeF(p.1)
      case Failure(e) => Failure(e)
      case Success(returnTy) => Success(((p.0, returnTy.0), returnTy.1))
  }

  lemma {:induction false} SignatureUnfold(signature: seq<Token>, ts: seq<Token>)
    requires signature == [OpenParentheses] + ts
    ensures ParseSignatureF(signature) == SignatureTail(ParseParamsF(ts))
  {
    assert signature[1..] == ts;
  }

  lemma {:induction false} SignatureTailSteps(params: seq<Param>, returnTy: Type, blockTokens: seq<Token>)
    ensures SignatureTail(Success((params, [CloseParentheses, Colon, TypeDeclaration(returnTy)] + blockTokens)))
            == Success(((params, returnTy), blockTokens))
  {
    assert ([CloseParentheses, Colon, TypeDeclaration(returnTy)] + blockTokens)[1..][1..][1..] == blockTokens;
  }

  lemma {:induction false} SignatureSteps(signature: seq<Token>, ts: seq<Token>, params: seq<Param>, returnTy: Type, blockTokens: seq<Token>)
    requires signature == [OpenParentheses] + ts
    requires ParseParamsF(ts) == Success((params, [CloseParentheses, Colon, TypeDeclaration(returnTy)] + blockTokens))
    ensures ParseSignatureF(signature) == Success(((params, returnTy), blockTokens))
  {
    SignatureUnfold(signature, ts);
    SignatureTailSteps(params, returnTy, blockTokens);
  }

  /** What a function declaration does once its header has been parsed. */
  function FunctionTail(name: string, signature: Parsed<(seq<Param>, Type)>): Parsed<Expr> {
    match signature
    case Failure(e) => Failure(e)
    case Success(s) =>
      match ParseBlockF(s.1)
      case Failure(e) => Failure(e)
      case Success(body) => Success((Function(name, s.0.0, body.0, s.0.1), body.1))
  }

  lemma {:induction false} FunctionUnfold(all: seq<Token>, name: string, ts: seq<Token>)
    requires all == [FunctionDeclaration, LiteralTok(name)] + ts
    ensures ParseFunctionF(all) == FunctionTail(name, ParseSignatureF(ts))
  {
    ConsumeFirst(FunctionDeclaration, [LiteralTok(name)] + ts);
    assert all == [FunctionDeclaration] + ([LiteralTok(name)] + ts);
    ConsumeFirst(LiteralTok(name), ts);
  }

  lemma {:induction false} FunctionSteps(all: seq<Token>, name: string, signature: seq<Token>, params: seq<Param>, returnTy: Type,
                      blockTokens: seq<Token>, body: seq<Expr>, after: seq<Token>)
    requires all == [FunctionDeclaration, LiteralTok(name)] + signature
    requires ParseSignatureF(signature) == Success(((params, returnTy), blockTokens))
    requires ParseBlockF(blockTokens) == Success((body, after))
    ensures ParseFunctionF(all) == Success((Function(name, params, body, returnTy), after))
  {
    FunctionUnfold(all, name, signature);
    FunctionTailSteps(name, params, returnTy, blockTokens, body, after);
  }

  lemma {:induction false} FunctionTailSteps(name: string, params: seq<Param>, returnTy: Type,
                          blockTokens: seq<Token>, body: seq<Expr>, after: seq<Token>)
    requires ParseBlockF(blockTokens) == Success((body, after))
    ensures FunctionTail(name, Success(((params, returnTy), blockTokens)))
            == Success((Function(name, params, body, returnTy), after))
  {
  }

  /** `pegaVisao name ( params ) : type block` is a function declaration. */
  lemma {:induction false} FunctionRule(name: string, ts: seq<Token>, params: seq<Param>, returnTy: Type,
                     blockTokens: seq<Token>, body: seq<Expr>, after: seq<Token>)
    requires ParseParamsF(ts) == Success((params, [CloseParentheses, Colon, TypeDeclaration(returnTy)] + blockTokens))
    requires ParseBlockF(blockTokens) == Success((body, after))
    ensures ParseOneF([FunctionDeclaration, LiteralTok(name), OpenParentheses] + ts)
            == Success((Function(name, params, body, returnTy), after))
  {
    var signature := [OpenParentheses] + ts;
    var all := [FunctionDeclaration, LiteralTok(name)] + signature;
    assert [FunctionDeclaration, LiteralTok(name)] + [OpenParentheses] == [FunctionDeclaration, LiteralTok(name), OpenParentheses];
    Regroup([FunctionDeclaration, LiteralTok(name)], [OpenParentheses], ts);
    SignatureSteps(signature, ts, params, returnTy, blockTokens);
    FunctionSteps(all, name, signature, params, returnTy, blockTokens, body, after);
    DispatchFunction(all);
  }

  /** `{ body }`: the expressions up to the first `}` that ends one of them. */
  lemma {:induction false} BlockRule(ts: seq<Token>, body: seq<Expr>, after: seq<Token>)
    requires BodyLoopF(ts, []) == Success((body, [CloseCurlyBracket] + after))
    ensures ParseBlockF([OpenCurlyBracket] + ts) == Success((body, after))
  {
    assert ([OpenCurlyBracket] + ts)[1..] == ts;
    assert ([CloseCurlyBracket] + after)[1..] == after;
  }

  /** A token that cannot begin an expression is reported as unexpected. */
  lemma {:induction false} UnexpectedTokenRule(ts: seq<Token>)
    requires |ts| > 0 && !StartsExpression(Kind(ts[0]))
    ensures ParseOneF(ts) == Failure(UnexpectedToken(Some(ts[0])))
  {
  }

  /** So is a `(` that does not open an operation. */
  lemma {:induction false} StrayParenthesisRule(ts: seq<Token>)
    requires PeekKind(ts) == Some(OpenParenthesesK) && PeekKind(ts[1..]) != Some(OpK)
    ensures ParseOneF(ts) == Failure(UnexpectedToken(Some(ts[0])))
  {
  }

  /** An expression cannot be empty. */
  lemma {:induction false} EndOfInputRule()
    ensures ParseOneF([]) == Failure(UnexpectedToken(None))
  {
  }

  // One iteration of each loop.

  lemma {:induction false} BodyStep(ts: seq<Token>, acc: seq<Expr>, e: Expr, next: seq<Token>)
    requires PeekKind(ts) != Some(CloseCurlyBracketK)
    requires ParseOneF(ts) == Success((e, next))
    ensures BodyLoopF(ts, acc) == BodyLoopF(next, acc + [e])
  {
  }

  /** What the argument loop does after a comma. */
  function ArgLoopTail(acc: seq<Expr>, arg: Parsed<Expr>): Parsed<seq<Expr>> {
    match arg
    case Failure(e) => Failure(e)
    case Success(a) => ArgLoopF(a.1, acc + [a.0])
  }

  lemma {:induction false} ArgLoopUnfold(ts: seq<Token>, acc: seq<Expr>)
    ensures ArgLoopF([Comma] + ts, acc) == ArgLoopTail(acc, ParseOneF(ts))
  {
    ConsumeFirst(Comma, ts);
  }

  lemma {:induction false} ArgStep(ts: seq<Token>, acc: seq<Expr>, e: Expr, next: seq<Token>)
    requires ParseOneF(ts) == Success((e, next))
    ensures ArgLoopF([Comma] + ts, acc) == ArgLoopF(next, acc + [e])
  {
    ArgLoopUnfold(ts, acc);
  }

  lemma {:induction false} FirstArgStep(ts: seq<Token>, e: Expr, next: seq<Token>)
    requires PeekKind(ts) != Some(CloseParenthesesK)
    requires ParseOneF(ts) == Success((e, next))
    ensures ParseArgsF(ts) == if PeekKind(next) == Some(CommaK) then ArgLoopF(next, [e]) else Success(([e], next))
  {
  }

  lemma {:induction false} ProgramStep(ts: seq<Token>, acc: seq<Expr>, e: Expr, next: seq<Token>)
    requires |ts| > 0
    requires ParseOneF(ts) == Success((e, next))
    ensures ParseAllF(ts, acc) == ParseAllF(next, acc + [e])
  {
  }

  // The round trip.

  /** No canonical token form is empty or starts with punctuation. */
  lemma {:induction false} TokensStart(e: Expr)
    ensures |Tokens(e)| > 0
    ensures Kind(Tokens(e)[0]) !in {SemiColonK, OpenParenthesesK, CloseParenthesesK, CloseCurlyBracketK, CommaK}
  {
  }

  lemma {:induction false} TokensSeqFollow(es: seq<Expr>, rest: seq<Token>)
    requires FollowOk(rest)
    ensures FollowOk(TokensSeq(es) + rest)
  {
    if |es| > 0 {
      TokensStart(es[0]);
      assert (TokensSeq(es) + rest)[0] == Tokens(es[0])[0];
    }
  }

  lemma {:induction false} ParamRoundTrip(p: Param, rest: seq<Token>)
    ensures ParseParamF(ParamTokensOf(p) + rest) == Success((p, rest))
  {
    var ts := ParamTokensOf(p) + rest;
    assert ts[1..][1..][1..] == rest;
  }

  lemma {:induction false} ParamStep(ts: seq<Token>, acc: seq<Param>, p: Param, next: seq<Token>)
    requires ParseParamF(ts) == Success((p, next))
    ensures ParamLoopF([Comma] + ts, acc) == ParamLoopF(next, acc + [p])
  {
    ConsumeFirst(Comma, ts);
  }

  lemma {:induction false} FirstParamStep(ts: seq<Token>, p: Param, next: seq<Token>)
    requires PeekKind(ts) != Some(CloseParenthesesK)
    requires ParseParamF(ts) == Success((p, next))
    ensures ParseParamsF(ts) == if PeekKind(next) == Some(CommaK) then ParamLoopF(next, [p]) else Success(([p], next))
  {
  }

  lemma {:induction false} MoreParamsRoundTrip(ps: seq<Param>, acc: seq<Param>, rest: seq<Token>)
    requires PeekKind(rest) == Some(CloseParenthesesK)
    ensures ParamLoopF(MoreParamTokens(ps) + rest, acc) == Success((acc + ps, rest))
  {
    if |ps| == 0 {
      assert MoreParamTokens(ps) + rest == rest;
      assert acc + ps == acc;
    } else {
      var next := MoreParamTokens(ps[1..]) + rest;
      var ts := ParamTokensOf(ps[0]) + next;
      MoreParamTokensCons(ps, rest);
      ParamRoundTrip(ps[0], next);
      ParamStep(ts, acc, ps[0], next);
      MoreParamsRoundTrip(ps[1..], acc + [ps[0]], rest);
      Snoc(acc, ps);
    }
  }

  /** How the tokens of a non-empty parameter list begin. */
  lemma {:induction false} ParamsStart(ps: seq<Param>, rest: seq<Token>)
    requires |ps| > 0 && PeekKind(rest) == Some(CloseParenthesesK)
    ensures ParamTokens(ps) + rest == ParamTokensOf(ps[0]) + (MoreParamTokens(ps[1..]) + rest)
    ensures PeekKind(ParamTokensOf(ps[0]) + (MoreParamTokens(ps[1..]) + rest)) == Some(LiteralK)
    ensures |ps| == 1 ==> MoreParamTokens(ps[1..]) + rest == rest
    ensures |ps| > 1 ==> PeekKind(MoreParamTokens(ps[1..]) + rest) == Some(CommaK)
  {
    var first, more := ParamTokensOf(ps[0]), MoreParamTokens(ps[1..]);
    assert ParamTokens(ps) == first + more;
    Regroup(first, more, rest);
    assert (first + (more + rest))[0] == first[0];
    if |ps| > 1 {
      assert (more + rest)[0] == Comma;
    }
  }

  /** The parameter list once its first parameter has been parsed. */
  lemma {:induction false} ParamsFromFirst(ts: seq<Token>, ps: seq<Param>, next: seq<Token>, rest: seq<Token>)
    requires |ps| > 0 && PeekKind(ts) == Some(LiteralK)
    requires ParseParamF(ts) == Success((ps[0], next))
    requires |ps| == 1 ==> next == rest && PeekKind(next) != Some(CommaK)
    requires |ps| > 1 ==> PeekKind(next) == Some(CommaK) && ParamLoopF(next, [ps[0]]) == Success((ps, rest))
    ensures ParseParamsF(ts) == Success((ps, rest))
  {
    FirstParamStep(ts, ps[0], next);
    if |ps| == 1 {
      assert ps == [ps[0]];
    }
  }

  /** A parameter list reads back in order. */
  lemma {:induction false} ParamsRoundTrip(ps: seq<Param>, rest: seq<Token>)
    requires PeekKind(rest) == Some(CloseParenthesesK)
    ensures ParseParamsF(ParamTokens(ps) + rest) == Success((ps, rest))
  {
    if |ps| == 0 {
      assert ParamTokens(ps) + rest == rest;
    } else {
      var next := MoreParamTokens(ps[1..]) + rest;
      var ts := ParamTokensOf(ps[0]) + next;
      ParamsStart(ps, rest);
      ParamRoundTrip(ps[0], next);
      if |ps| > 1 {
        MoreParamsRoundTrip(ps[1..], [ps[0]], rest);
        assert [ps[0]] + ps[1..] == ps;
      }
      ParamsFromFirst(ts, ps, next, rest);
    }
  }

  /** Every well-formed expression parses back from its tokens, leaving
      exactly what followed. */
  lemma {:induction false} RoundTrip(e: Expr, rest: seq<Token>)
    requires Wf(e) && FollowOk(rest)
    ensures ParseOneF(Tokens(e) + rest) == Success((e, rest))
    decreases Size(e), 2
  {
    match e
    case Literal(_) => LeafRoundTrip(e, rest);
    case StringLit(_) => LeafRoundTrip(e, rest);
    case NumberLit(_) => LeafRoundTrip(e, rest);
    case BooleanLit(_) => LeafRoundTrip(e, rest);
    case Variable(_, _) => VariableRoundTrip(e, rest);
    case Function(_, _, _, _) => FunctionRoundTrip(e, rest);
    case FunctionApp(_, _) => AppRoundTrip(e, rest);
    case ReturnStatement(_) => ReturnRoundTrip(e, rest);
    case Operation(_, _, _) => OperationRoundTrip(e, rest);
    case If(_, _) => IfRoundTrip(e, rest);
    case Console(_) => AppRoundTrip(e, rest);
  }

  lemma {:induction false} LeafRoundTrip(e: Expr, rest: seq<Token>)
    requires e.Literal? || e.StringLit? || e.NumberLit? || e.BooleanLit?
    requires FollowOk(rest)
    ensures ParseOneF(Tokens(e) + rest) == Success((e, rest))
  {
    var ts := Tokens(e) + rest;
    assert ts == [Tokens(e)[0]] + rest;
    assert ts[1..] == rest;
    match e
    case Literal(_) => DispatchName(ts);
    case StringLit(_) => DispatchString(ts);
    case NumberLit(_) => DispatchNumber(ts);
    case BooleanLit(_) => DispatchBoolean(ts);
  }

  lemma {:induction false} VariableRoundTrip(e: Expr, rest: seq<Token>)
    requires e.Variable? && Wf(e) && FollowOk(rest)
    ensures ParseOneF(Tokens(e) + rest) == Success((e, rest))
    decreases Size(e), 1
  {
    var value, head := e.value, [VariableDeclaration, LiteralTok(e.name), Equal];
    var ts := Tokens(value) + rest;
    RoundTrip(value, rest);
    VariableRule(e.name, ts, value, rest);
    assert SkipSemicolonF(rest) == rest;
    assert Tokens(e) == head + Tokens(value);
    Regroup(head, Tokens(value), rest);
  }

  lemma {:induction false} ReturnRoundTrip(e: Expr, rest: seq<Token>)
    requires e.ReturnStatement? && Wf(e) && FollowOk(rest)
    ensures ParseOneF(Tokens(e) + rest) == Success((e, rest))
    decreases Size(e), 1
  {
    var value := e.value;
    var ts := Tokens(value) + rest;
    RoundTrip(value, rest);
    ReturnRule(ts, value, rest);
    assert SkipSemicolonF(rest) == rest;
    assert Tokens(e) == [Return] + Tokens(value);
    Regroup([Return], Tokens(value), rest);
  }

  // How the token form of each compound expression splits around its parts.

  lemma {:induction false} OperationTokens(e: Expr, rest: seq<Token>)
    requires e.Operation?
    ensures Tokens(e) + rest == [OpTok(e.op)] + (Tokens(e.left) + (Tokens(e.right) + rest))
  {
  }

  lemma {:induction false} FunctionTokens(e: Expr, rest: seq<Token>)
    requires e.Function?
    ensures Tokens(e) + rest
            == [FunctionDeclaration, LiteralTok(e.name), OpenParentheses]
               + (ParamTokens(e.params) + ([CloseParentheses, Colon, TypeDeclaration(e.returnTy)]
               + ([OpenCurlyBracket] + TokensSeq(e.body) + [CloseCurlyBracket] + rest)))
  {
  }

  lemma {:induction false} IfTokens(e: Expr, rest: seq<Token>)
    requires e.If?
    ensures Tokens(e) + rest
            == [IfDeclaration, OpenParentheses]
               + (Tokens(e.condition) + ([CloseParentheses] + ([OpenCurlyBracket] + TokensSeq(e.thenBody) + [CloseCurlyBracket] + rest)))
  {
  }

  lemma {:induction false} TokensSeqCons(es: seq<Expr>, rest: seq<Token>)
    requires |es| > 0
    ensures TokensSeq(es) + rest == Tokens(es[0]) + (TokensSeq(es[1..]) + rest)
  {
  }

  lemma {:induction false} ArgTokensCons(es: seq<Expr>, rest: seq<Token>)
    requires |es| > 0
    ensures ArgTokens(es) + rest == Tokens(es[0]) + (MoreArgTokens(es[1..]) + rest)
  {
  }

  lemma {:induction false} MoreArgTokensCons(es: seq<Expr>, rest: seq<Token>)
    requires |es| > 0
    ensures MoreArgTokens(es) + rest == [Comma] + (Tokens(es[0]) + (MoreArgTokens(es[1..]) + rest))
  {
    var t, m := Tokens(es[0]), MoreArgTokens(es[1..]);
    assert MoreArgTokens(es) == [Comma] + t + m;
    Regroup([Comma] + t, m, rest);
    Regroup([Comma], t, m + rest);
  }

  lemma {:induction false} MoreParamTokensCons(ps: seq<Param>, rest: seq<Token>)
    requires |ps| > 0
    ensures MoreParamTokens(ps) + rest == [Comma] + (ParamTokensOf(ps[0]) + (MoreParamTokens(ps[1..]) + rest))
  {
    var t, m := ParamTokensOf(ps[0]), MoreParamTokens(ps[1..]);
    assert MoreParamTokens(ps) == [Comma] + t + m;
    Regroup([Comma] + t, m, rest);
    Regroup([Comma], t, m + rest);
  }

  lemma {:induction false} OperationRoundTrip(e: Expr, rest: seq<Token>)
    requires e.Operation? && Wf(e) && FollowOk(rest)
    ensures ParseOneF(Tokens(e) + rest) == Success((e, rest))
    decreases Size(e), 1
  {
    var right := Tokens(e.right) + rest;
    var ts := Tokens(e.left) + right;
    TokensStart(e.right);
    assert right[0] == Tokens(e.right)[0];
    RoundTrip(e.left, right);
    RoundTrip(e.right, rest);
    OperationRule(e.op, ts, e.left, right, e.right, rest);
    OperationTokens(e, rest);
  }

  lemma {:induction false} BlockRoundTrip(es: seq<Expr>, rest: seq<Token>)
    requires WfAll(es)
    ensures ParseBlockF([OpenCurlyBracket] + TokensSeq(es) + [CloseCurlyBracket] + rest) == Success((es, rest))
    decreases SizeOfAll(es), 4
  {
    var close := [CloseCurlyBracket] + rest;
    var body := TokensSeq(es);
    assert PeekKind(close) == Some(CloseCurlyBracketK) by {
      assert close[0] == CloseCurlyBracket;
    }
    assert BodyLoopF(body + close, []) == Success((es, close)) by {
      BodyRoundTrip(es, [], close);
      assert [] + es == es;
    }
    BlockRule(body + close, es, rest);
    Regroup([OpenCurlyBracket] + body, [CloseCurlyBracket], rest);
    Regroup([OpenCurlyBracket], body, close);
  }

  lemma {:induction false} BodyRoundTrip(es: seq<Expr>, acc: seq<Expr>, rest: seq<Token>)
    requires WfAll(es) && PeekKind(rest) == Some(CloseCurlyBracketK)
    ensures BodyLoopF(TokensSeq(es) + rest, acc) == Success((acc + es, rest))
    decreases SizeOfAll(es), 3
  {
    if |es| == 0 {
      assert TokensSeq(es) + rest == rest;
      assert acc + es == acc;
    } else {
      var next := TokensSeq(es[1..]) + rest;
      var ts := Tokens(es[0]) + next;
      TokensSeqCons(es, rest);
      TokensSeqFollow(es[1..], rest);
      TokensStart(es[0]);
      assert ts[0] == Tokens(es[0])[0];
      RoundTrip(es[0], next);
      BodyStep(ts, acc, es[0], next);
      BodyRoundTrip(es[1..], acc + [es[0]], rest);
      Snoc(acc, es);
    }
  }

  lemma {:induction false} FunctionRoundTrip(e: Expr, rest: seq<Token>)
    requires e.Function? && Wf(e) && FollowOk(rest)
    ensures ParseOneF(Tokens(e) + rest) == Success((e, rest))
    decreases Size(e), 1
  {
    var block := [OpenCurlyBracket] + TokensSeq(e.body) + [CloseCurlyBracket] + rest;
    var signatureEnd := [CloseParentheses, Colon, TypeDeclaration(e.returnTy)] + block;
    var ts := ParamTokens(e.params) + signatureEnd;
    ParamsRoundTrip(e.params, signatureEnd);
    BlockRoundTrip(e.body, rest);
    FunctionRule(e.name, ts, e.params, e.returnTy, block, e.body, rest);
    FunctionTokens(e, rest);
  }

  lemma {:induction false} IfRoundTrip(e: Expr, rest: seq<Token>)
    requires e.If? && Wf(e) && FollowOk(rest)
    ensures ParseOneF(Tokens(e) + rest) == Success((e, rest))
    decreases Size(e), 1
  {
    var block := [OpenCurlyBracket] + TokensSeq(e.thenBody) + [CloseCurlyBracket] + rest;
    var afterCondition := [CloseParentheses] + block;
    var ts := Tokens(e.condition) + afterCondition;
    RoundTrip(e.condition, afterCondition);
    BlockRoundTrip(e.thenBody, rest);
    IfRule(ts, e.condition, block, e.thenBody, rest);
    IfTokens(e, rest);
  }

  lemma {:induction false} MoreArgsRoundTrip(es: seq<Expr>, acc: seq<Expr>, rest: seq<Token>)
    requires WfAll(es) && PeekKind(rest) == Some(CloseParenthesesK)
    ensures ArgLoopF(MoreArgTokens(es) + rest, acc) == Success((acc + es, rest))
    decreases SizeOfAll(es), 3
  {
    if |es| == 0 {
      assert MoreArgTokens(es) + rest == rest;
      assert acc + es == acc;
    } else {
      var next := MoreArgTokens(es[1..]) + rest;
      var ts := Tokens(es[0]) + next;
      MoreArgTokensCons(es, rest);
      assert FollowOk(next) by {
        if |es[1..]| > 0 {
          assert next[0] == Comma;
        }
      }
      RoundTrip(es[0], next);
      ArgStep(ts, acc, es[0], next);
      MoreArgsRoundTrip(es[1..], acc + [es[0]], rest);
      Snoc(acc, es);
    }
  }

  /** How the tokens of a non-empty argument list begin. */
  lemma {:induction false} ArgsStart(es: seq<Expr>, rest: seq<Token>)
    requires |es| > 0 && PeekKind(rest) == Some(CloseParenthesesK)
    ensures ArgTokens(es) + rest == Tokens(es[0]) + (MoreArgTokens(es[1..]) + rest)
    ensures PeekKind(Tokens(es[0]) + (MoreArgTokens(es[1..]) + rest)) != Some(CloseParenthesesK)
    ensures |es| == 1 ==> MoreArgTokens(es[1..]) + rest == rest
    ensures |es| > 1 ==> PeekKind(MoreArgTokens(es[1..]) + rest) == Some(CommaK)
  {
    var first, next := Tokens(es[0]), MoreArgTokens(es[1..]) + rest;
    ArgTokensCons(es, rest);
    TokensStart(es[0]);
    assert (first + next)[0] == first[0];
    if |es| > 1 {
      assert next[0] == Comma;
    }
  }

  /** The argument list once its first argument has been parsed. */
  lemma {:induction false} ArgsFromFirst(ts: seq<Token>, es: seq<Expr>, next: seq<Token>, rest: seq<Token>)
    requires |es| > 0 && PeekKind(ts) != Some(CloseParenthesesK)
    requires ParseOneF(ts) == Success((es[0], next))
    requires |es| == 1 ==> next == rest && PeekKind(next) != Some(CommaK)
    requires |es| > 1 ==> PeekKind(next) == Some(CommaK) && ArgLoopF(next, [es[0]]) == Success((es, rest))
    ensures ParseArgsF(ts) == Success((es, rest))
  {
    FirstArgStep(ts, es[0], next);
    if |es| == 1 {
      assert es == [es[0]];
    }
  }

  lemma {:induction false} ArgsRoundTrip(es: seq<Expr>, rest: seq<Token>)
    requires WfAll(es) && PeekKind(rest) == Some(CloseParenthesesK)
    ensures ParseArgsF(ArgTokens(es) + rest) == Success((es, rest))
    decreases SizeOfAll(es), 4
  {
    if |es| == 0 {
      assert ArgTokens(es) + rest == rest;
    } else {
      var next := MoreArgTokens(es[1..]) + rest;
      var ts := Tokens(es[0]) + next;
      ArgsStart(es, rest);
      RoundTrip(es[0], next);
      if |es| > 1 {
        MoreArgsRoundTrip(es[1..], [es[0]], rest);
        assert [es[0]] + es[1..] == es;
      }
      ArgsFromFirst(ts, es, next, rest);
    }
  }

  lemma {:induction false} AppRoundTrip(e: Expr, rest: seq<Token>)
    requires (e.FunctionApp? || e.Console?) && Wf(e) && FollowOk(rest)
    ensures ParseOneF(Tokens(e) + rest) == Success((e, rest))
    decreases Size(e), 1
  {
    var args := if e.FunctionApp? then e.args else e.values;
    var name := if e.FunctionApp? then e.functionName else "radinho";
    var close := [CloseParentheses] + rest;
    var ts := ArgTokens(args) + close;
    var head, argTokens := [LiteralTok(name), OpenParentheses], ArgTokens(args);
    ArgsRoundTrip(args, close);
    AppRule(name, ts, args, close);
    assert close[1..] == rest;
    assert SkipSemicolonF(rest) == rest;
    assert Tokens(e) == head + argTokens + [CloseParentheses];
    Regroup(head + argTokens, [CloseParentheses], rest);
    Regroup(head, argTokens, close);
  }

  /** A program made of well-formed expressions parses back to itself. */
  lemma {:induction false} ProgramRoundTrip(es: seq<Expr>, acc: seq<Expr>)
    requires WfAll(es)
    ensures ParseAllF(TokensSeq(es), acc) == Success(acc + es)
  {
    if |es| == 0 {
      assert acc + es == acc;
    } else {
      var next := TokensSeq(es[1..]);
      TokensSeqFollow(es[1..], []);
      assert next + [] == next;
      RoundTrip(es[0], next);
      TokensStart(es[0]);
      ProgramStep(TokensSeq(es), acc, es[0], next);
      ProgramRoundTrip(es[1..], acc + [es[0]]);
      Snoc(acc, es);
    }
  }
}
