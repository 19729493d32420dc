/** What the tokenizer promises: keyword and operator priority, skipping,
    and that the text of a token lexes back to that token. */
module LexerProperties {
  import opened Ast
  import opened Utils
  import opened Lexer

  /** The keywords, in the order the tokenizer tries them, with their tokens. */
  function Keywords(): seq<(string, Token)> {
    [ ("cria", VariableDeclaration), ("pegaVisao", FunctionDeclaration), ("tomali", Return),
      ("true", BooleanTok(true)), ("false", BooleanTok(false)), ("qualfoi?", IfDeclaration),
      ("string", TypeDeclaration(StringTy)), ("number", TypeDeclaration(NumberTy)),
      ("boolean", TypeDeclaration(BooleanTy)) ]
  }

  /** The characters that start a token other than a digit run or an identifier. */
  predicate IsSymbolChar(c: char) {
    c in {'"', '\'', '=', '(', ')', ',', '{', '}', '+', '-', '*', '/', '%', '>', '<', ':', ';'}
  }

  lemma {:induction false} LexEmpty()
    ensures Lex("") == []
  {
  }

  /** A character no rule accepts (white space, a lone `!`, ...) is dropped
      without producing a token. */
  lemma {:induction false} LexSkips(c: char, s: string)
    requires !IsDigit([c]) && !IsLetter([c]) && !IsSymbolChar(c)
    requires c == '!' ==> !StartsWith(s, "=")
    ensures Lex([c] + s) == Lex(s)
  {
    var t := [c] + s;
    assert t[0] == c;
    assert DropFromString(t, 1) == s;
    assert c == '!' ==> !StartsWith(t, "!=") by {
      if |t| >= 2 {
        assert t[1..2] == s[..1];
      }
    }
  }

  /** A keyword is recognised by a prefix match, whatever follows it. */
  lemma {:induction false} KeywordLexes(i: nat, s: string)
    requires i < |Keywords()|
    ensures Lex(Keywords()[i].0 + s) == [Keywords()[i].1] + Lex(s)
  {
    var kw := Keywords()[i].0;
    var t := kw + s;
    assert t[..|kw|] == kw;
    assert DropFromString(t, |kw|) == s;
    assert t[0] == kw[0];
    if i == 3 {
      // "true" is not taken for "tomali", the keyword tried before it
      assert !StartsWith(t, "tomali") by {
        if |t| >= 6 {
          assert t[..6][1] == 'r';
        }
      }
    }
  }

  /** `==`, `!=`, `>=` and `<=` take priority over `=`, `>` and `<`. */
  lemma {:induction false} TwoCharOperatorLexes(op: Op, s: string)
    requires op in {EqualEqual, NotEqual, GreaterEqual, LessEqual}
    ensures Lex(OpText(op) + s) == [OpTok(op)] + Lex(s)
  {
    var t := OpText(op) + s;
    assert t[..2] == OpText(op);
    assert DropFromString(t, 2) == s;
    assert t[0] == OpText(op)[0];
  }

  /** Without a following `=`, `=`, `>` and `<` are single-character tokens. */
  lemma {:induction false} OneCharOperatorLexes(c: char, s: string)
    requires c in {'=', '>', '<'}
    requires !StartsWith(s, "=")
    ensures Lex([c] + s) == [if c == '=' then Equal else if c == '>' then OpTok(Greater) else OpTok(Less)] + Lex(s)
  {
    var t := [c] + s;
    assert t[0] == c;
    assert DropFromString(t, 1) == s;
    assert !StartsWith(t, [c, '=']) by {
      if |t| >= 2 {
        assert t[1..2] == s[..1];
      }
    }
  }

  /** Tokens whose text is fixed: punctuation, keywords, operators, booleans
      (not type declarations, whose text is a capitalised tag). */
  predicate IsFixedToken(t: Token) {
    !(t.LiteralTok? || t.StringTok? || t.NumberTok? || t.TypeDeclaration?)
  }

  /** The one-character punctuation and arithmetic-operator tokens. */
  predicate IsSingleCharToken(t: Token) {
    t in {OpenParentheses, CloseParentheses, Comma, OpenCurlyBracket, CloseCurlyBracket,
          Colon, SemiColon, OpTok(Plus), OpTok(Minus), OpTok(Times), OpTok(Divide), OpTok(Modulo)}
  }

  /** Such a token is produced by its one character, whatever follows. */
  lemma {:induction false} SingleCharTokenLexes(t: Token, s: string)
    requires IsSingleCharToken(t)
    ensures |TokenToString(t)| == 1
    ensures Lex(TokenToString(t) + s) == [t] + Lex(s)
  {
    var u := TokenToString(t) + s;
    assert u[0] == TokenToString(t)[0];
    assert DropFromString(u, 1) == s;
  }

  /** The text of a fixed token, followed by any text that does not begin
      with `=`, lexes to that token and then whatever the rest lexes to. */
  lemma {:induction false} FixedTokenLexes(t: Token, s: string)
    requires IsFixedToken(t) && !StartsWith(s, "=")
    ensures Lex(TokenToString(t) + s) == [t] + Lex(s)
  {
    if IsSingleCharToken(t) {
      SingleCharTokenLexes(t, s);
    } else {
      match t
      case VariableDeclaration => KeywordLexes(0, s);
      case FunctionDeclaration => KeywordLexes(1, s);
      case Return => KeywordLexes(2, s);
      case BooleanTok(b) => if b { KeywordLexes(3, s); } else { KeywordLexes(4, s); }
      case IfDeclaration => KeywordLexes(5, s);
      case Equal => OneCharOperatorLexes('=', s);
      case OpTok(op) =>
        if op == Greater {
          OneCharOperatorLexes('>', s);
        } else if op == Less {
          OneCharOperatorLexes('<', s);
        } else {
          TwoCharOperatorLexes(op, s);
        }
    }
  }

  /** The text of a fixed token lexes back to exactly that token. */
  lemma {:induction false} FixedTokenRoundTrip(t: Token)
    requires IsFixedToken(t)
    ensures Lex(TokenToString(t)) == [t]
  {
    FixedTokenLexes(t, "");
    assert TokenToString(t) + "" == TokenToString(t);
  }

  /** The decimal text of a number lexes back to that number. */
  lemma {:induction false} NumberRoundTrip(n: nat)
    ensures Lex(DecimalText(n)) == [NumberTok(n)]
    ensures Lex(TokenToString(NumberTok(n))) == [NumberTok(n)]
  {
    var ds := DecimalText(n);
    var r := TakeNumber(ds);
    assert ds[..|ds| - |r.1|] == ds;
    DecimalRoundTrip(n);
  }

  /** A word made of identifier characters, starting with a letter and not
      starting with a keyword. */
  predicate IsIdentifier(x: string) {
    && |x| > 0 && IsLetter([x[0]])
    && (forall i :: 0 <= i < |x| ==> IsLiteralChar(x[i]))
    && (forall i :: 0 <= i < |Keywords()| ==> !StartsWith(x, Keywords()[i].0))
  }

  /** An identifier lexes to a single literal token carrying it. */
  lemma {:induction false} IdentifierRoundTrip(x: string)
    requires IsIdentifier(x)
    ensures Lex(x) == [LiteralTok(x)]
  {
    var r := TakeLiteral(x);
    assert r.0 == x;
    assert !StartsWith(x, Keywords()[0].0);
    assert !StartsWith(x, Keywords()[1].0);
    assert !StartsWith(x, Keywords()[2].0);
    assert !StartsWith(x, Keywords()[3].0);
    assert !StartsWith(x, Keywords()[4].0);
    assert !StartsWith(x, Keywords()[5].0);
    assert !StartsWith(x, Keywords()[6].0);
    assert !StartsWith(x, Keywords()[7].0);
    assert !StartsWith(x, Keywords()[8].0);
  }

  /** An identifier followed by a character that cannot continue it lexes
      to one literal token, and lexing continues after it, provided no
      keyword starts there (`qualfoi` followed by `?` is the keyword
      `qualfoi?`). */
  lemma {:induction false} IdentifierLexes(x: string, s: string)
    requires IsIdentifier(x)
    requires |s| > 0 ==> !IsLiteralChar(s[0])
    requires forall i :: 0 <= i < |Keywords()| ==> !StartsWith(x + s, Keywords()[i].0)
    ensures Lex(x + s) == [LiteralTok(x)] + Lex(s)
  {
    var t := x + s;
    assert t[0] == x[0];
    var r := TakeLiteral(t);
    assert t[..|x|] == x;
    PrefixWhileUnique(t, IsLiteralChar, x);
    assert r.0 == x;
    assert DropFromString(t, |x|) == s;
    assert !StartsWith(t, Keywords()[0].0);
    assert !StartsWith(t, Keywords()[1].0);
    assert !StartsWith(t, Keywords()[2].0);
    assert !StartsWith(t, Keywords()[3].0);
    assert !StartsWith(t, Keywords()[4].0);
    assert !StartsWith(t, Keywords()[5].0);
    assert !StartsWith(t, Keywords()[6].0);
    assert !StartsWith(t, Keywords()[7].0);
    assert !StartsWith(t, Keywords()[8].0);
  }

  /** A double-quoted text without quotes lexes to one string token, and
      lexing continues after the closing quote. */
  lemma {:induction false} QuotedStringLexes(x: string, s: string)
    requires forall i :: 0 <= i < |x| ==> IsNotQuote(x[i])
    ensures Lex("\"" + x + "\"" + s) == [StringTok(x)] + Lex(s)
  {
    var t := "\"" + x + "\"" + s;
    assert t[0] == '"';
    var r := TakeString(t);
    var body := DropFromString(t, 1);
    assert body == x + "\"" + s;
    assert body[|x|] == '"';
    PrefixWhileUnique(body, IsNotQuote, x);
    assert r.0 == x;
    assert r.1 == s;
  }
}
