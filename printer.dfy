/** The pretty-printer that turns a program back into JavaScript text: a
    small Wadler-style document algebra, its renderer, and the translation of
    each expression form into a document. */
module Printer {
  import opened Ast
  import Utils

  /** A document: nothing, two documents one after the other, a document
      whose line breaks are indented `index` more columns, a piece of text,
      or a line break. */
  datatype Doc =
    | Nil
    | Append(left: Doc, right: Doc)
    | Nest(index: nat, doc: Doc)
    | Text(value: string)
    | Line

  /** A rendered document: text and indented line breaks, in order. */
  datatype DocNormalForm =
    | NormalNil
    | NormalText(value: string, rest: DocNormalForm)
    | NormalLine(index: nat, rest: DocNormalForm)

  /** `x` written `i` times. */
  function Copy(i: nat, x: string): (r: string)
    ensures |r| == i * |x|
  {
    if i == 0 then "" else x + Copy(i - 1, x)
  }

  function Space(): Doc {
    Text(" ")
  }

  /** The number of constructors in a document: the measure under which the
      renderer's work list shrinks. */
  function DocSize(d: Doc): (n: nat)
    ensures n >= 1
  {
    match d
    case Append(l, r) => 1 + DocSize(l) + DocSize(r)
    case Nest(_, inner) => 1 + DocSize(inner)
    case _ => 1
  }

  function WorkSize(docs: seq<(nat, Doc)>): nat {
    if |docs| == 0 then 0 else DocSize(docs[0].1) + WorkSize(docs[1..])
  }

  lemma {:induction false} WorkSizeCons(p: (nat, Doc), docs: seq<(nat, Doc)>)
    ensures WorkSize([p] + docs) == DocSize(p.1) + WorkSize(docs)
  {
    assert ([p] + docs)[1..] == docs;
  }

  /** Renders a work list of documents, each paired with the indentation of
      its line breaks; `index` is the current column. */
  function Be(index: nat, docs: seq<(nat, Doc)>): DocNormalForm
    decreases WorkSize(docs)
  {
    if |docs| == 0 then NormalNil
    else
      var i := docs[0].0;
      var xs := docs[1..];
      match docs[0].1
      case Nil => Be(index, xs)
      case Append(left, right) =>
        WorkSizeCons((i, right), xs);
        WorkSizeCons((i, left), [(i, right)] + xs);
        assert [(i, left), (i, right)] + xs == [(i, left)] + ([(i, right)] + xs);
        Be(index, [(i, left), (i, right)] + xs)
      case Nest(n, inner) =>
        WorkSizeCons((i + n, inner), xs);
        Be(index, [(i + n, inner)] + xs)
      case Text(s) => NormalText(s, Be(index + |s|, xs))
      case Line => NormalLine(i, Be(i, xs))
  }

  function Best(index: nat, doc: Doc): DocNormalForm {
    Be(index, [(0, doc)])
  }

  /** The text of a rendered document: a line break is a newline followed by
      its indentation in spaces. */
  function Layout(doc: DocNormalForm): string {
    match doc
    case NormalNil => ""
    case NormalText(s, rest) => s + Layout(rest)
    case NormalLine(i, rest) => "\n" + Copy(i, " ") + Layout(rest)
  }

  function Pretty(doc: Doc): string {
    Layout(Best(0, doc))
  }

  /** Names separated by `, `. A list whose next name is empty stops there,
      because an empty string is falsy where the source tests the head of the
      list. */
  function ParametersToDoc(params: seq<string>): Doc
    decreases |params|
  {
    if |params| == 1 && params[0] != "" then Text(params[0])
    else if |params| == 0 || params[0] == "" then Nil
    else Append(Text(params[0]), Append(Text(","), Append(Space(), ParametersToDoc(params[1..]))))
  }

  /** The names of the parameters, in order. */
  function ParamNames(ps: seq<Param>): (r: seq<string>)
    ensures |r| == |ps|
    ensures forall i :: 0 <= i < |ps| ==> r[i] == ps[i].name
  {
    if |ps| == 0 then [] else [ps[0].name] + ParamNames(ps[1..])
  }

  /** Expressions separated by `, `: the arguments of a call. */
  function ConvertExprsInSequence(exprs: seq<Expr>): Doc
    decreases SizeOfAll(exprs), 1
  {
    if |exprs| == 1 then PrintExpr(exprs[0])
    else if |exprs| == 0 then Nil
    else Append(PrintExpr(exprs[0]), Append(Text(","), Append(Space(), ConvertExprsInSequence(exprs[1..]))))
  }

  /** Expressions separated by an empty line: a program or a block. */
  function PrintExprs(exprs: seq<Expr>): Doc
    decreases SizeOfAll(exprs), 1
  {
    if |exprs| == 1 then PrintExpr(exprs[0])
    else if |exprs| == 0 then Nil
    else Append(PrintExpr(exprs[0]), Append(Line, Append(Line, PrintExprs(exprs[1..]))))
  }

  /** `{`, the body indented two columns on lines of its own, and `}` on a
      line at the enclosing indentation. */
  function BlockDoc(body: seq<Expr>): Doc
    decreases SizeOfAll(body), 2
  {
    Append(Text("{"), Append(Nest(2, Append(Line, PrintExprs(body))), Append(Line, Text("}"))))
  }

  /** The JavaScript for one expression. */
  function PrintExpr(e: Expr): Doc
    decreases Size(e), 0
  {
    match e
    case StringLit(s) => Append(Text("\""), Append(Text(s), Text("\"")))
    case NumberLit(n) => Text(Utils.DecimalText(n))
    case BooleanLit(b) => Text(if b then "true" else "false")
    case Literal(name) => Text(name)
    case Variable(name, value) =>
      Append(Text("const"), Append(Space(), Append(Text(name), Append(Space(),
        Append(Text("="), Append(Space(), Append(PrintExpr(value), Text(";"))))))))
    case Function(name, params, body, _) =>
      Append(Text("function"), Append(Space(), Append(Text(name), Append(Text("("),
        Append(ParametersToDoc(ParamNames(params)), Append(Text(")"), Append(Space(), BlockDoc(body))))))))
    case FunctionApp(name, args) =>
      Append(Text(name), Append(Text("("), Append(ConvertExprsInSequence(args), Text(")"))))
    case ReturnStatement(value) =>
      Append(Text("return"), Append(Space(), Append(PrintExpr(value), Text(";"))))
    case Operation(op, left, right) =>
      Append(PrintExpr(left), Append(Space(), Append(Text(OpText(op)), Append(Space(), PrintExpr(right)))))
    case If(condition, thenBody) =>
      Append(Text("if"), Append(Space(), Append(Text("("), Append(PrintExpr(condition),
        Append(Text(")"), Append(Space(), BlockDoc(thenBody)))))))
    case Console(values) =>
      Append(Text("console.log"), Append(Text("("), Append(ConvertExprsInSequence(values), Append(Text(")"), Text(";")))))
  }

  /** The JavaScript text of a whole program. */
  function PrintProgram(exprs: seq<Expr>): string {
    Pretty(PrintExprs(exprs))
  }
}
