/** The character-level tokenizer: source text to a flat list of tokens. */
module Lexer {
  import opened Ast
  import opened Utils

  datatype Token =
    | LiteralTok(text: string)
    | StringTok(text: string)
    | NumberTok(num: nat)
    | BooleanTok(b: bool)
    | TypeDeclaration(tyValue: Type)
    | VariableDeclaration
    | Equal
    | FunctionDeclaration
    | OpenParentheses
    | CloseParentheses
    | Comma
    | OpenCurlyBracket
    | CloseCurlyBracket
    | Return
    | IfDeclaration
    | OpTok(op: Op)
    | Colon
    | SemiColon

  /** The tag of a token, without its payload: what the parser asks for. */
  datatype TokenKind =
    | LiteralK | StringK | NumberK | BooleanK | TypeDeclarationK | VariableDeclarationK
    | EqualK | FunctionDeclarationK | OpenParenthesesK | CloseParenthesesK | CommaK
    | OpenCurlyBracketK | CloseCurlyBracketK | ReturnK | IfDeclarationK | OpK | ColonK
    | SemiColonK

  function Kind(t: Token): TokenKind {
    match t
    case LiteralTok(_) => LiteralK
    case StringTok(_) => StringK
    case NumberTok(_) => NumberK
    case BooleanTok(_) => BooleanK
    case TypeDeclaration(_) => TypeDeclarationK
    case VariableDeclaration => VariableDeclarationK
    case Equal => EqualK
    case FunctionDeclaration => FunctionDeclarationK
    case OpenParentheses => OpenParenthesesK
    case CloseParentheses => CloseParenthesesK
    case Comma => CommaK
    case OpenCurlyBracket => OpenCurlyBracketK
    case CloseCurlyBracket => CloseCurlyBracketK
    case Return => ReturnK
    case IfDeclaration => IfDeclarationK
    case OpTok(_) => OpK
    case Colon => ColonK
    case SemiColon => SemiColonK
  }

  /** The text of a token.  A type declaration prints its type's tag (with a
      capital letter, so it does not lex back); a string token prints its text
      without quotes. */
  function TokenToString(t: Token): string {
    match t
    case TypeDeclaration(ty) => TypeTag(ty)
    case VariableDeclaration => "cria"
    case Equal => "="
    case FunctionDeclaration => "pegaVisao"
    case OpenParentheses => "("
    case CloseParentheses => ")"
    case Comma => ","
    case OpenCurlyBracket => "{"
    case CloseCurlyBracket => "}"
    case Return => "tomali"
    case IfDeclaration => "qualfoi?"
    case Colon => ":"
    case SemiColon => ";"
    case LiteralTok(x) => x
    case StringTok(x) => x
    case NumberTok(n) => DecimalText(n)
    case BooleanTok(b) => if b then "true" else "false"
    case OpTok(op) => OpText(op)
  }

  /** The characters an identifier is made of. */
  predicate IsLiteralChar(c: char) {
    IsAlphaNum([c]) || c == '_' || c == '-'
  }

  predicate IsNotQuote(c: char) {
    c != '"' && c != '\''
  }

  predicate IsDigitChar(c: char) {
    IsDigit([c])
  }

  /** Splits `s` into its longest prefix of identifier characters and the rest. */
  function TakeLiteral(s: string): (r: (string, string))
    ensures r.0 + r.1 == s
    ensures forall i :: 0 <= i < |r.0| ==> IsLiteralChar(r.0[i])
    ensures |r.1| > 0 ==> !IsLiteralChar(r.1[0])
    ensures |s| > 0 && IsLetter([s[0]]) ==> |r.1| < |s|
  {
    var literal := PrefixWhile(s, IsLiteralChar);
    var rest := DropFromString(s, |literal|);
    assert literal + rest == s;
    (literal, rest)
  }

  /** Drops the opening quote, takes the text up to the next quote of either
      kind, and drops that closing quote from the rest.  An unterminated
      string runs to the end of the input. */
  function TakeString(s: string): (r: (string, string))
    ensures |s| == 0 ==> r == ("", "")
    ensures |s| > 0 ==> |r.1| < |s|
    ensures |s| > 0 ==> forall i :: 0 <= i < |r.0| ==> IsNotQuote(r.0[i])
    ensures |s| > 0 && 1 + |r.0| < |s| ==>
              s == s[..1] + r.0 + [s[1 + |r.0|]] + r.1 && !IsNotQuote(s[1 + |r.0|])
    ensures |s| > 0 && 1 + |r.0| >= |s| ==> s == s[..1] + r.0 && r.1 == ""
  {
    var withoutFirstQuote := DropFromString(s, 1);
    var str := PrefixWhile(withoutFirstQuote, IsNotQuote);
    var rest := DropFromString(withoutFirstQuote, |str| + 1);
    if |s| > 0 && 1 + |str| < |s| then
      assert s == s[..1] + str + [s[1 + |str|]] + rest;
      (str, rest)
    else
      (str, rest)
  }

  /** Splits `s` into the value of its longest digit prefix and the rest. */
  function TakeNumber(s: string): (r: (nat, string))
    ensures |r.1| <= |s| && r.1 == s[|s| - |r.1|..]
    ensures AllDigits(s[..|s| - |r.1|]) && r.0 == DecimalValue(s[..|s| - |r.1|])
    ensures |r.1| > 0 ==> !IsDigit([r.1[0]])
    ensures |s| > 0 && IsDigit([s[0]]) ==> |r.1| < |s|
  {
    var number := PrefixWhile(s, IsDigitChar);
    var rest := DropFromString(s, |number|);
    assert s[..|s| - |rest|] == number;
    (DecimalValue(number), rest)
  }

  /** The tokenizer.  At each position: a digit run, a keyword (matched as a
      prefix, before falling back to an identifier), an identifier, a quoted
      string, a one- or two-character operator or punctuation; any other
      character is skipped. */
  function Lex(s: string): seq<Token>
    decreases |s|
  {
    if |s| == 0 then []
    else
      var current := s[0];
      if IsDigit([current]) then
        var (number, rest) := TakeNumber(s);
        [NumberTok(number)] + Lex(rest)
      else if IsLetter([current]) then
        if current == 'c' && StartsWith(s, "cria") then
          [VariableDeclaration] + Lex(DropFromString(s, 4))
        else if current == 'p' && StartsWith(s, "pegaVisao") then
          [FunctionDeclaration] + Lex(DropFromString(s, 9))
        else if current == 't' && StartsWith(s, "tomali") then
          [Return] + Lex(DropFromString(s, 6))
        else if current == 't' && StartsWith(s, "true") then
          [BooleanTok(true)] + Lex(DropFromString(s, 4))
        else if current == 'f' && StartsWith(s, "false") then
          [BooleanTok(false)] + Lex(DropFromString(s, 5))
        else if current == 'q' && StartsWith(s, "qualfoi?") then
          [IfDeclaration] + Lex(DropFromString(s, 8))
        else if current == 's' && StartsWith(s, "string") then
          [TypeDeclaration(StringTy)] + Lex(DropFromString(s, 6))
        else if current == 'n' && StartsWith(s, "number") then
          [TypeDeclaration(NumberTy)] + Lex(DropFromString(s, 6))
        else if current == 'b' && StartsWith(s, "boolean") then
          [TypeDeclaration(BooleanTy)] + Lex(DropFromString(s, 7))
        else
          var (literal, rest) := TakeLiteral(s);
          [LiteralTok(literal)] + Lex(rest)
      else
        var xs := DropFromString(s, 1);
        if current == '"' || current == '\'' then
          var (str, rest) := TakeString(s);
          [StringTok(str)] + Lex(rest)
        else if current == '=' && StartsWith(s, "==") then
          [OpTok(EqualEqual)] + Lex(DropFromString(s, 2))
        else if current == '=' then [Equal] + Lex(xs)
        else if current == '(' then [OpenParentheses] + Lex(xs)
        else if current == ')' then [CloseParentheses] + Lex(xs)
        else if current == ',' then [Comma] + Lex(xs)
        else if current == '{' then [OpenCurlyBracket] + Lex(xs)
        else if current == '}' then [CloseCurlyBracket] + Lex(xs)
        else if current == '!' && StartsWith(s, "!=") then
          [OpTok(NotEqual)] + Lex(DropFromString(s, 2))
        else if current == '+' then [OpTok(Plus)] + Lex(xs)
        else if current == '-' then [OpTok(Minus)] + Lex(xs)
        else if current == '*' then [OpTok(Times)] + Lex(xs)
        else if current == '/' then [OpTok(Divide)] + Lex(xs)
        else if current == '%' then [OpTok(Modulo)] + Lex(xs)
        else if current == '>' && StartsWith(s, ">=") then
          [OpTok(GreaterEqual)] + Lex(DropFromString(s, 2))
        else if current == '>' then [OpTok(Greater)] + Lex(xs)
        else if current == '<' && StartsWith(s, "<=") then
          [OpTok(LessEqual)] + Lex(DropFromString(s, 2))
        else if current == '<' then [OpTok(Less)] + Lex(xs)
        else if current == ':' then [Colon] + Lex(xs)
        else if current == ';' then [SemiColon] + Lex(xs)
        else Lex(xs)
  }
}
