/** What the printer promises: a reference meaning of documents that the
    renderer agrees with, the laws that follow from it, and the text each
    expression form prints as. */
module PrinterProperties {
  import opened Ast
  import Utils
  import opened Printer
  import opened Sequences

  // ---------------------------------------------------------------------
  // The meaning of a document

  /** The text a document stands for when its line breaks are indented `i`
      columns: the reference against which the renderer is checked. */
  function Denote(i: nat, d: Doc): string
    decreases d
  {
    match d
    case Nil => ""
    case Append(left, right) => Denote(i, left) + Denote(i, right)
    case Nest(n, inner) => Denote(i + n, inner)
    case Text(s) => s
    case Line => "\n" + Copy(i, " ")
  }

  /** The meaning of a work list: the meanings of its items in order. */
  function DenoteAll(docs: seq<(nat, Doc)>): string {
    if |docs| == 0 then "" else Denote(docs[0].0, docs[0].1) + DenoteAll(docs[1..])
  }

  lemma {:induction false} DenoteAllCons(p: (nat, Doc), docs: seq<(nat, Doc)>)
    ensures DenoteAll([p] + docs) == Denote(p.0, p.1) + DenoteAll(docs)
  {
    assert ([p] + docs)[1..] == docs;
  }

  /** The renderer never looks at the current column: the rendering of a
      work list is the same whatever column it starts in. */
  lemma {:induction false} BeIgnoresColumn(k1: nat, k2: nat, docs: seq<(nat, Doc)>)
    ensures Be(k1, docs) == Be(k2, docs)
    decreases WorkSize(docs)
  {
    if |docs| > 0 {
      var i := docs[0].0;
      var xs := docs[1..];
      match docs[0].1
      case Nil =>
        BeIgnoresColumn(k1, k2, xs);
      case Append(left, right) =>
        WorkSizeCons((i, right), xs);
        WorkSizeCons((i, left), [(i, right)] + xs);
        assert [(i, left), (i, right)] + xs == [(i, left)] + ([(i, right)] + xs);
        BeIgnoresColumn(k1, k2, [(i, left), (i, right)] + xs);
      case Nest(n, inner) =>
        WorkSizeCons((i + n, inner), xs);
        BeIgnoresColumn(k1, k2, [(i + n, inner)] + xs);
      case Text(s) =>
        BeIgnoresColumn(k1 + |s|, k2 + |s|, xs);
      case Line =>
    }
  }

  /** Laying out the rendering of a work list gives its meaning. */
  lemma {:induction false} LayoutBe(k: nat, docs: seq<(nat, Doc)>)
    ensures Layout(Be(k, docs)) == DenoteAll(docs)
    decreases WorkSize(docs)
  {
    if |docs| > 0 {
      var i := docs[0].0;
      var xs := docs[1..];
      assert docs == [docs[0]] + xs;
      match docs[0].1
      case Nil =>
        LayoutBe(k, xs);
      case Append(left, right) =>
        WorkSizeCons((i, right), xs);
        WorkSizeCons((i, left), [(i, right)] + xs);
        assert [(i, left), (i, right)] + xs == [(i, left)] + ([(i, right)] + xs);
        LayoutBe(k, [(i, left), (i, right)] + xs);
        DenoteAllCons((i, left), [(i, right)] + xs);
        DenoteAllCons((i, right), xs);
        Regroup(Denote(i, left), Denote(i, right), DenoteAll(xs));
      case Nest(n, inner) =>
        WorkSizeCons((i + n, inner), xs);
        LayoutBe(k, [(i + n, inner)] + xs);
        DenoteAllCons((i + n, inner), xs);
      case Text(s) =>
        LayoutBe(k + |s|, xs);
      case Line =>
        LayoutBe(i, xs);
        Regroup("\n", Copy(i, " "), DenoteAll(xs));
    }
  }

  /** A document renders as its meaning at indentation zero, whatever
      column rendering starts in. */
  lemma {:induction false} RenderMeaning(k: nat, d: Doc)
    ensures Layout(Best(k, d)) == Denote(0, d)
  {
    LayoutBe(k, [(0, d)]);
    DenoteAllCons((0, d), []);
    assert [(0, d)] + [] == [(0, d)];
  }

  lemma {:induction false} PrettyMeaning(d: Doc)
    ensures Pretty(d) == Denote(0, d)
  {
    RenderMeaning(0, d);
  }

  // ---------------------------------------------------------------------
  // Laws of the document algebra

  /** `Nil` prints nothing and `Text(s)` prints `s`. */
  lemma {:induction false} PrettyNilAndText(s: string)
    ensures Pretty(Nil) == ""
    ensures Pretty(Text(s)) == s
  {
    PrettyMeaning(Nil);
    PrettyMeaning(Text(s));
  }

  /** Two documents one after the other print one after the other. */
  lemma {:induction false} PrettyAppend(a: Doc, b: Doc)
    ensures Pretty(Append(a, b)) == Pretty(a) + Pretty(b)
  {
    PrettyMeaning(Append(a, b));
    PrettyMeaning(a);
    PrettyMeaning(b);
  }

  /** `Copy` of a sum is the concatenation of the copies. */
  lemma {:induction false} CopyAdd(i: nat, j: nat, x: string)
    ensures Copy(i + j, x) == Copy(i, x) + Copy(j, x)
  {
    if i > 0 {
      CopyAdd(i - 1, j, x);
      Regroup(x, Copy(i - 1, x), Copy(j, x));
    }
  }

  /** An indentation is made of spaces only. */
  lemma {:induction false} CopySpaces(i: nat)
    ensures |Copy(i, " ")| == i
    ensures forall k :: 0 <= k < i ==> Copy(i, " ")[k] == ' '
  {
    if i > 0 {
      CopySpaces(i - 1);
    }
  }

  /** A document nested under each of `ns` in turn. */
  function NestAll(ns: seq<nat>, d: Doc): Doc {
    if |ns| == 0 then d else Nest(ns[0], NestAll(ns[1..], d))
  }

  function Sum(ns: seq<nat>): nat {
    if |ns| == 0 then 0 else ns[0] + Sum(ns[1..])
  }

  /** Nested indentations add up. */
  lemma {:induction false} DenoteNestAll(i: nat, ns: seq<nat>, d: Doc)
    ensures Denote(i, NestAll(ns, d)) == Denote(i + Sum(ns), d)
    decreases |ns|
  {
    if |ns| > 0 {
      DenoteNestAll(i + ns[0], ns[1..], d);
    }
  }

  /** A line break under nestings by `n1 … nk` prints as a newline followed
      by `n1 + … + nk` spaces. */
  lemma {:induction false} NestedLine(ns: seq<nat>)
    ensures Pretty(NestAll(ns, Line)) == "\n" + Copy(Sum(ns), " ")
  {
    PrettyMeaning(NestAll(ns, Line));
    DenoteNestAll(0, ns, Line);
  }

  // ---------------------------------------------------------------------
  // Separated lists

  /** `xs` with `sep` between consecutive items. */
  function Join(sep: string, xs: seq<string>): string {
    if |xs| == 0 then "" else if |xs| == 1 then xs[0] else xs[0] + sep + Join(sep, xs[1..])
  }

  /** A document followed by `,`, a space and another document. */
  lemma {:induction false} CommaAfter(i: nat, head: Doc, rest: Doc)
    ensures Denote(i, Append(head, Append(Text(","), Append(Space(), rest))))
            == Denote(i, head) + ", " + Denote(i, rest)
  {
    var h, t := Denote(i, head), Denote(i, rest);
    assert Denote(i, Append(Space(), rest)) == " " + t;
    assert Denote(i, Append(Text(","), Append(Space(), rest))) == "," + (" " + t);
    calc {
      h + ("," + (" " + t));
      { Regroup(h, ",", " " + t); }
      h + "," + (" " + t);
      { Regroup(h + ",", " ", t); }
      h + "," + " " + t;
      { assert h + "," + " " == h + ", "; }
      h + ", " + t;
    }
  }

  /** A document followed by two line breaks and another document. */
  lemma {:induction false} EmptyLineAfter(i: nat, head: Doc, rest: Doc)
    ensures Denote(i, Append(head, Append(Line, Append(Line, rest))))
            == Denote(i, head) + Separator(i) + Denote(i, rest)
  {
    var h, t, line := Denote(i, head), Denote(i, rest), "\n" + Copy(i, " ");
    assert Denote(i, Append(Line, rest)) == line + t;
    assert Denote(i, Append(Line, Append(Line, rest))) == line + (line + t);
    calc {
      h + (line + (line + t));
      { Regroup(line, line, t); }
      h + (line + line + t);
      { Regroup(h, line + line, t); }
      h + (line + line) + t;
      { assert line + line == Separator(i); }
      h + Separator(i) + t;
    }
  }

  /** Non-empty parameter names print separated by `, `. */
  lemma {:induction false} ParametersJoin(i: nat, ps: seq<string>)
    requires forall k :: 0 <= k < |ps| ==> ps[k] != ""
    ensures Denote(i, ParametersToDoc(ps)) == Join(", ", ps)
  {
    if |ps| > 1 {
      assert ps[0] != "";
      ParametersJoin(i, ps[1..]);
      CommaAfter(i, Text(ps[0]), ParametersToDoc(ps[1..]));
    }
  }

  /** The list stops at the first empty name, keeping the separator after
      the name before it. */
  lemma {:induction false} ParametersCut(i: nat, ps: seq<string>, k: nat)
    requires k < |ps| && ps[k] == ""
    requires forall j :: 0 <= j < k ==> ps[j] != ""
    ensures Denote(i, ParametersToDoc(ps)) == Join(", ", ps[..k]) + (if k > 0 then ", " else "")
  {
    if k > 0 {
      assert ps[0] != "";
      ParametersCut(i, ps[1..], k - 1);
      CommaAfter(i, Text(ps[0]), ParametersToDoc(ps[1..]));
      assert ps[1..][..k - 1] == ps[..k][1..];
      if k > 1 {
        Regroup(ps[0] + ", ", Join(", ", ps[1..k]), ", ");
      } else {
        assert ps[..k] == [ps[0]];
      }
    }
  }

  /** The printed form of each expression. */
  function RenderAll(i: nat, es: seq<Expr>): (r: seq<string>)
    ensures |r| == |es|
    ensures forall k :: 0 <= k < |es| ==> r[k] == Denote(i, PrintExpr(es[k]))
  {
    if |es| == 0 then [] else [Denote(i, PrintExpr(es[0]))] + RenderAll(i, es[1..])
  }

  /** Arguments print separated by `, `. */
  lemma {:induction false} ArgumentsJoin(i: nat, es: seq<Expr>)
    ensures Denote(i, ConvertExprsInSequence(es)) == Join(", ", RenderAll(i, es))
  {
    if |es| > 1 {
      ArgumentsJoin(i, es[1..]);
      CommaAfter(i, PrintExpr(es[0]), ConvertExprsInSequence(es[1..]));
      assert RenderAll(i, es)[1..] == RenderAll(i, es[1..]);
    }
  }

  /** The separator between consecutive expressions of a program or block
      at indentation `i`: an empty line. */
  function Separator(i: nat): string {
    "\n" + Copy(i, " ") + ("\n" + Copy(i, " "))
  }

  /** Expressions print one per paragraph. */
  lemma {:induction false} ExpressionsJoin(i: nat, es: seq<Expr>)
    ensures Denote(i, PrintExprs(es)) == Join(Separator(i), RenderAll(i, es))
  {
    if |es| > 1 {
      ExpressionsJoin(i, es[1..]);
      EmptyLineAfter(i, PrintExpr(es[0]), PrintExprs(es[1..]));
      assert RenderAll(i, es)[1..] == RenderAll(i, es[1..]);
    }
  }

  /** A program prints as its expressions separated by empty lines. */
  lemma {:induction false} PrintProgramJoin(es: seq<Expr>)
    ensures PrintProgram(es) == Join("\n\n", RenderAll(0, es))
  {
    PrettyMeaning(PrintExprs(es));
    ExpressionsJoin(0, es);
    assert Separator(0) == "\n\n";
  }

  // ---------------------------------------------------------------------
  // The text of each expression form

  lemma {:induction false} StringForm(i: nat, s: string)
    ensures Denote(i, PrintExpr(StringLit(s))) == "\"" + s + "\""
  {
    assert Denote(i, Append(Text(s), Text("\""))) == s + "\"";
    Regroup("\"", s, "\"");
  }

  lemma {:induction false} NumberForm(i: nat, n: nat)
    ensures Denote(i, PrintExpr(NumberLit(n))) == Utils.DecimalText(n)
    ensures Utils.DecimalValue(Denote(i, PrintExpr(NumberLit(n)))) == n
  {
    Utils.DecimalRoundTrip(n);
  }

  lemma {:induction false} BooleanForm(i: nat, b: bool)
    ensures Denote(i, PrintExpr(BooleanLit(b))) == if b then "true" else "false"
  {
  }

  lemma {:induction false} LiteralForm(i: nat, name: string)
    ensures Denote(i, PrintExpr(Literal(name))) == name
  {
  }

  /** A variable prints as a `const` declaration. */
  lemma {:induction false} VariableForm(i: nat, name: string, value: Expr)
    ensures Denote(i, PrintExpr(Variable(name, value))) == "const " + name + " = " + Denote(i, PrintExpr(value)) + ";"
  {
    var v := Denote(i, PrintExpr(value));
    var d1 := Append(PrintExpr(value), Text(";"));
    assert Denote(i, d1) == v + ";";
    assert Denote(i, Append(Space(), d1)) == " " + (v + ";");
    var d2 := Append(Text("="), Append(Space(), d1));
    assert Denote(i, d2) == "=" + (" " + (v + ";"));
    assert Denote(i, Append(Space(), d2)) == " " + ("=" + (" " + (v + ";")));
    var d3 := Append(Text(name), Append(Space(), d2));
    assert Denote(i, d3) == name + (" " + ("=" + (" " + (v + ";"))));
    assert Denote(i, Append(Space(), d3)) == " " + (name + (" " + ("=" + (" " + (v + ";")))));
  }

  /** A return prints as a JavaScript `return` statement. */
  lemma {:induction false} ReturnForm(i: nat, value: Expr)
    ensures Denote(i, PrintExpr(ReturnStatement(value))) == "return " + Denote(i, PrintExpr(value)) + ";"
  {
    var v := Denote(i, PrintExpr(value));
    var d1 := Append(PrintExpr(value), Text(";"));
    assert Denote(i, d1) == v + ";";
    assert Denote(i, Append(Space(), d1)) == " " + (v + ";");
  }

  /** An operation prints in infix form, without parentheses. */
  lemma {:induction false} OperationForm(i: nat, op: Op, left: Expr, right: Expr)
    ensures Denote(i, PrintExpr(Operation(op, left, right)))
            == Denote(i, PrintExpr(left)) + " " + OpText(op) + " " + Denote(i, PrintExpr(right))
  {
    var l, o, r := Denote(i, PrintExpr(left)), OpText(op), Denote(i, PrintExpr(right));
    var d1 := Append(Space(), PrintExpr(right));
    assert Denote(i, d1) == " " + r;
    var d2 := Append(Text(o), d1);
    assert Denote(i, d2) == o + (" " + r);
    var d3 := Append(Space(), d2);
    assert Denote(i, d3) == " " + (o + (" " + r));
    assert Denote(i, PrintExpr(Operation(op, left, right))) == l + (" " + (o + (" " + r)));
    Regroup(o, " ", r);
    Regroup(" ", o + " ", r);
    Regroup(" ", o, " ");
    Regroup(l, " " + o + " ", r);
    Regroup(l, " " + o, " ");
    Regroup(l, " ", o);
  }

  /** Since no parentheses are printed, the grouping of nested operations is
      lost: `(outer (inner x y) z)` and `(inner x (outer y z))` print the same
      text, although they are different programs. */
  lemma {:induction false} OperationGroupingLost(i: nat, outer: Op, inner: Op, x: Expr, y: Expr, z: Expr)
    ensures Operation(outer, Operation(inner, x, y), z) != Operation(inner, x, Operation(outer, y, z))
    ensures Denote(i, PrintExpr(Operation(outer, Operation(inner, x, y), z)))
            == Denote(i, PrintExpr(Operation(inner, x, Operation(outer, y, z))))
  {
    var a, b, c := Denote(i, PrintExpr(x)), Denote(i, PrintExpr(y)), Denote(i, PrintExpr(z));
    var front, o := a + " " + OpText(inner) + " ", OpText(outer);
    OperationForm(i, inner, x, y);
    OperationForm(i, outer, Operation(inner, x, y), z);
    OperationForm(i, outer, y, z);
    OperationForm(i, inner, x, Operation(outer, y, z));
    Regroup(front, b, " ");
    Regroup(front, b + " ", o);
    Regroup(front, b + " " + o, " ");
    Regroup(front, b + " " + o + " ", c);
  }

  /** A call prints its arguments separated by `, `. */
  lemma {:induction false} AppForm(i: nat, name: string, args: seq<Expr>)
    ensures Denote(i, PrintExpr(FunctionApp(name, args))) == name + "(" + Join(", ", RenderAll(i, args)) + ")"
  {
    ArgumentsJoin(i, args);
    var a := Join(", ", RenderAll(i, args));
    var d1 := Append(ConvertExprsInSequence(args), Text(")"));
    assert Denote(i, d1) == a + ")";
    assert Denote(i, Append(Text("("), d1)) == "(" + (a + ")");
  }

  /** A print becomes a call of `console.log`. */
  lemma {:induction false} ConsoleForm(i: nat, values: seq<Expr>)
    ensures Denote(i, PrintExpr(Console(values))) == "console.log(" + Join(", ", RenderAll(i, values)) + ");"
  {
    ArgumentsJoin(i, values);
    var a := Join(", ", RenderAll(i, values));
    var d1 := Append(ConvertExprsInSequence(values), Append(Text(")"), Text(";")));
    assert Denote(i, d1) == a + (")" + ";");
    assert Denote(i, Append(Text("("), d1)) == "(" + (a + (")" + ";"));
  }

  /** A block: `{`, its expressions on lines indented two more columns,
      and `}` on a line at the enclosing indentation. */
  lemma {:induction false} BlockForm(i: nat, body: seq<Expr>)
    ensures Denote(i, BlockDoc(body))
            == "{\n" + Copy(i + 2, " ") + Join(Separator(i + 2), RenderAll(i + 2, body)) + "\n" + Copy(i, " ") + "}"
  {
    ExpressionsJoin(i + 2, body);
    var b := Join(Separator(i + 2), RenderAll(i + 2, body));
    var inner, outer := "\n" + Copy(i + 2, " "), "\n" + Copy(i, " ");
    var open := Append(Line, PrintExprs(body));
    assert Denote(i + 2, open) == inner + b;
    var close := Append(Line, Text("}"));
    assert Denote(i, close) == outer + "}";
    assert Denote(i, Append(Nest(2, open), close)) == (inner + b) + (outer + "}");
    calc {
      "{" + ((inner + b) + (outer + "}"));
      { Regroup("{", inner + b, outer + "}"); }
      "{" + (inner + b) + (outer + "}");
      { Regroup("{", inner, b); }
      "{" + inner + b + (outer + "}");
      { Regroup("{" + inner + b, outer, "}"); }
      "{" + inner + b + outer + "}";
      { Regroup("{", "\n", Copy(i + 2, " ")); assert "{" + "\n" == "{\n"; }
      "{\n" + Copy(i + 2, " ") + b + outer + "}";
      { Regroup("{\n" + Copy(i + 2, " ") + b, "\n", Copy(i, " ")); }
      "{\n" + Copy(i + 2, " ") + b + "\n" + Copy(i, " ") + "}";
    }
  }

  /** The text of the document the printer builds for a function, for any
      parameter list and body documents. */
  lemma {:induction false} FunctionDocText(i: nat, name: string, ps: Doc, b: Doc)
    ensures Denote(i, Append(Text("function"), Append(Space(), Append(Text(name), Append(Text("("),
              Append(ps, Append(Text(")"), Append(Space(), b))))))))
            == "function " + name + "(" + Denote(i, ps) + ") " + Denote(i, b)
  {
    var p, t := Denote(i, ps), Denote(i, b);
    var d1 := Append(Space(), b);
    assert Denote(i, d1) == " " + t;
    var d2 := Append(Text(")"), d1);
    assert Denote(i, d2) == ")" + (" " + t);
    var d3 := Append(ps, d2);
    assert Denote(i, d3) == p + (")" + (" " + t));
    var d4 := Append(Text("("), d3);
    assert Denote(i, d4) == "(" + (p + (")" + (" " + t)));
    var d5 := Append(Text(name), d4);
    assert Denote(i, d5) == name + ("(" + (p + (")" + (" " + t))));
    var d6 := Append(Space(), d5);
    assert Denote(i, d6) == " " + (name + ("(" + (p + (")" + (" " + t)))));
    assert Denote(i, Append(Text("function"), d6)) == "function" + (" " + (name + ("(" + (p + (")" + (" " + t))))));
    FunctionText(name, p, t);
  }

  lemma {:induction false} FunctionText(name: string, p: string, t: string)
    ensures "function" + (" " + (name + ("(" + (p + (")" + (" " + t))))))
            == "function " + name + "(" + p + ") " + t
  {
    Regroup(")", " ", t);
    assert ")" + " " == ") ";
    Regroup(p, ") ", t);
    Regroup("(", p + ") ", t);
    Regroup("(", p, ") ");
    Regroup(name, "(" + p + ") ", t);
    Regroup(name, "(" + p, ") ");
    Regroup(name, "(", p);
    Regroup(" ", name + "(" + p + ") ", t);
    Regroup(" ", name + "(" + p, ") ");
    Regroup(" ", name + "(", p);
    Regroup(" ", name, "(");
    Regroup("function", " " + name + "(" + p + ") ", t);
    Regroup("function", " " + name + "(" + p, ") ");
    Regroup("function", " " + name + "(", p);
    Regroup("function", " " + name, "(");
    Regroup("function", " ", name);
    assert "function" + " " == "function ";
  }

  /** A function declaration prints as a JavaScript function without types. */
  lemma {:induction false} FunctionForm(i: nat, name: string, params: seq<Param>, body: seq<Expr>, returnTy: Type)
    requires forall k :: 0 <= k < |params| ==> params[k].name != ""
    ensures Denote(i, PrintExpr(Function(name, params, body, returnTy)))
            == "function " + name + "(" + Join(", ", ParamNames(params)) + ") " + Denote(i, BlockDoc(body))
  {
    ParametersJoin(i, ParamNames(params));
    FunctionDocText(i, name, ParametersToDoc(ParamNames(params)), BlockDoc(body));
  }

  /** The text of the document the printer builds for a conditional. */
  lemma {:induction false} IfDocText(i: nat, cond: Doc, b: Doc)
    ensures Denote(i, Append(Text("if"), Append(Space(), Append(Text("("), Append(cond,
              Append(Text(")"), Append(Space(), b)))))))
            == "if (" + Denote(i, cond) + ") " + Denote(i, b)
  {
    var c, t := Denote(i, cond), Denote(i, b);
    var d1 := Append(Space(), b);
    assert Denote(i, d1) == " " + t;
    var d2 := Append(Text(")"), d1);
    assert Denote(i, d2) == ")" + (" " + t);
    var d3 := Append(cond, d2);
    assert Denote(i, d3) == c + (")" + (" " + t));
    var d4 := Append(Text("("), d3);
    assert Denote(i, d4) == "(" + (c + (")" + (" " + t)));
    var d5 := Append(Space(), d4);
    assert Denote(i, d5) == " " + ("(" + (c + (")" + (" " + t))));
    assert Denote(i, Append(Text("if"), d5)) == "if" + (" " + ("(" + (c + (")" + (" " + t)))));
    IfText(c, t);
  }

  lemma {:induction false} IfText(c: string, t: string)
    ensures "if" + (" " + ("(" + (c + (")" + (" " + t))))) == "if (" + c + ") " + t
  {
    Regroup(")", " ", t);
    assert ")" + " " == ") ";
    Regroup(c, ") ", t);
    Regroup("(", c + ") ", t);
    Regroup("(", c, ") ");
    Regroup(" ", "(" + c + ") ", t);
    Regroup(" ", "(" + c, ") ");
    Regroup(" ", "(", c);
    assert " " + "(" == " (";
    Regroup("if", " (" + c + ") ", t);
    Regroup("if", " (" + c, ") ");
    Regroup("if", " (", c);
    assert "if" + " (" == "if (";
  }

  /** A conditional prints as a JavaScript `if` without an `else`. */
  lemma {:induction false} IfForm(i: nat, condition: Expr, thenBody: seq<Expr>)
    ensures Denote(i, PrintExpr(If(condition, thenBody)))
            == "if (" + Denote(i, PrintExpr(condition)) + ") " + Denote(i, BlockDoc(thenBody))
  {
    IfDocText(i, PrintExpr(condition), BlockDoc(thenBody));
  }
}
