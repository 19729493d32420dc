/** The tokenizer's own test cases, read through the model. */
module LexerExamples {
  import opened Ast
  import opened Utils
  import opened Lexer
  import opened LexerProperties
  import opened Sequences

  /** `literal-123_*` splits before the `*`. */
  lemma {:induction false} TakeLiteralExample()
    ensures TakeLiteral("literal-123_*") == ("literal-123_", "*")
  {
    var s := "literal-123_*";
    PrefixWhileUnique(s, IsLiteralChar, "literal-123_");
  }

  /** `"string"*` yields the text between the quotes and what follows the
      closing one. */
  lemma {:induction false} TakeStringExample()
    ensures TakeString("\"string\"*") == ("string", "*")
  {
    var s := "\"string\"*";
    PrefixWhileUnique(DropFromString(s, 1), IsNotQuote, "string");
  }

  /** `1234*` yields the number 1234. */
  lemma {:induction false} TakeNumberExample()
    ensures TakeNumber("1234*") == (1234, "*")
  {
    var s := "1234*";
    PrefixWhileUnique(s, IsDigitChar, "1234");
    assert "1234"[..3] == "123" && "123"[..2] == "12" && "12"[..1] == "1" && "1"[..0] == "";
    assert DecimalValue("1") == 1;
    assert DecimalValue("12") == 12;
    assert DecimalValue("123") == 123;
  }

  /** No keyword contains a space. */
  lemma {:induction false} KeywordsHaveNoSpace(i: nat, j: nat)
    requires i < |Keywords()| && j < |Keywords()[i].0|
    ensures Keywords()[i].0[j] != ' '
  {
  }

  /** An identifier followed by a space: no keyword starts there, because a
      keyword that is not a prefix of the identifier would have to contain
      the space. */
  lemma {:induction false} NoKeywordAcrossSpace(x: string, s: string)
    requires IsIdentifier(x) && |s| > 0 && s[0] == ' '
    ensures forall i :: 0 <= i < |Keywords()| ==> !StartsWith(x + s, Keywords()[i].0)
  {
    forall i | 0 <= i < |Keywords()|
      ensures !StartsWith(x + s, Keywords()[i].0)
    {
      var kw := Keywords()[i].0;
      if StartsWith(x + s, kw) && |kw| > |x| {
        assert kw[|x|] == (x + s)[|x|] == ' ';
        KeywordsHaveNoSpace(i, |x|);
      }
    }
  }

  /** `= "value";` followed by more text. */
  lemma {:induction false} ValueLexes(value: string, s: string)
    requires forall i :: 0 <= i < |value| ==> IsNotQuote(value[i])
    ensures Lex(['='] + ([' '] + ("\"" + value + "\"" + ([';'] + s))))
            == [Equal, StringTok(value), SemiColon] + Lex(s)
  {
    var semi := [';'] + s;
    SingleCharTokenLexes(SemiColon, s);
    assert TokenToString(SemiColon) + s == semi;
    QuotedStringLexes(value, semi);
    var str := "\"" + value + "\"" + semi;
    LexSkips(' ', str);
    OneCharOperatorLexes('=', [' '] + str);
  }

  /** An identifier, a space and a text that lexes to `ts`. */
  lemma {:induction false} NameThenSpace(name: string, rest: string, ts: seq<Token>)
    requires IsIdentifier(name)
    requires Lex(rest) == ts
    ensures Lex(name + ([' '] + rest)) == [LiteralTok(name)] + ts
  {
    LexSkips(' ', rest);
    NoKeywordAcrossSpace(name, [' '] + rest);
    IdentifierLexes(name, [' '] + rest);
  }

  /** `name = "value";` followed by more text. */
  lemma {:induction false} NamedValueLexes(name: string, value: string, s: string)
    requires IsIdentifier(name)
    requires forall i :: 0 <= i < |value| ==> IsNotQuote(value[i])
    ensures Lex(name + ([' '] + (['='] + ([' '] + ("\"" + value + "\"" + ([';'] + s))))))
            == [LiteralTok(name), Equal, StringTok(value), SemiColon] + Lex(s)
  {
    var rest := ['='] + ([' '] + ("\"" + value + "\"" + ([';'] + s)));
    var ts := [Equal, StringTok(value), SemiColon] + Lex(s);
    assert Lex(rest) == ts by { ValueLexes(value, s); }
    assert Lex(name + ([' '] + rest)) == [LiteralTok(name)] + ts by { NameThenSpace(name, rest, ts); }
    Regroup([LiteralTok(name)], [Equal, StringTok(value), SemiColon], Lex(s));
    assert [LiteralTok(name)] + [Equal, StringTok(value), SemiColon] == [LiteralTok(name), Equal, StringTok(value), SemiColon];
  }

  /** `cria`, a space and a text that lexes to `ts`. */
  lemma {:induction false} DeclarationThenSpace(rest: string, ts: seq<Token>)
    requires Lex(rest) == ts
    ensures Lex("cria" + ([' '] + rest)) == [VariableDeclaration] + ts
  {
    LexSkips(' ', rest);
    KeywordLexes(0, [' '] + rest);
  }

  /** `cria name = "value";`, the first tokenizer test with its name and
      value left open: a variable declaration lexes to its five tokens. */
  lemma {:induction false} VariableCode(name: string, value: string, s: string)
    requires IsIdentifier(name)
    requires forall i :: 0 <= i < |value| ==> IsNotQuote(value[i])
    ensures Lex("cria" + ([' '] + (name + ([' '] + (['='] + ([' '] + ("\"" + value + "\"" + ([';'] + s))))))))
            == [VariableDeclaration, LiteralTok(name), Equal, StringTok(value), SemiColon] + Lex(s)
  {
    var named := name + ([' '] + (['='] + ([' '] + ("\"" + value + "\"" + ([';'] + s)))));
    var ts := [LiteralTok(name), Equal, StringTok(value), SemiColon] + Lex(s);
    assert Lex(named) == ts by { NamedValueLexes(name, value, s); }
    assert Lex("cria" + ([' '] + named)) == [VariableDeclaration] + ts by { DeclarationThenSpace(named, ts); }
    Regroup([VariableDeclaration], [LiteralTok(name), Equal, StringTok(value), SemiColon], Lex(s));
    assert [VariableDeclaration] + [LiteralTok(name), Equal, StringTok(value), SemiColon]
        == [VariableDeclaration, LiteralTok(name), Equal, StringTok(value), SemiColon];
  }
}
