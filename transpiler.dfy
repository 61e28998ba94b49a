/** The C code generator: the text of the generated `main.c` and the method
    that writes one node of it into the open file. */
module Transpiler {
  import opened CText
  import opened Ast

  /** The indentation width the compiler starts from (`indent_length`). */
  const IndentLength: u16 := 4

  /** Everything written before the first statement. */
  const Preamble: string := "#include <stdio.h>\n\nint main() {\n"

  /** Everything written after the last statement. */
  const Postamble: string := "}\n"

  /** The text around the literal of a print statement: `printf("` before
      it, and a backslash, `n`, `"`, `)` and `;` after it. */
  const PrintOpen: string := "printf(\""
  const PrintClose: string := "\\n\");"

  /** One call the transpiler makes to the evaluator (`eval_node`). */
  datatype EvalCall = EvalCall(node: ASTNode, moduleName: CString)

  /** The C statement printing `value` and a newline; the literal is copied
      as it is, with no escaping. */
  function PrintStatement(value: CString): string
  {
    PrintOpen + value + PrintClose
  }

  /** The literal of a print statement, if `s` is one. */
  function ParsePrintStatement(s: string): Option<string>
  {
    if |PrintOpen| + |PrintClose| <= |s| && StartsWith(s, PrintOpen) && EndsWith(s, PrintClose)
    then Some(s[|PrintOpen|..|s| - |PrintClose|])
    else None
  }

  /** The statement a node stands for: a print for a print-string node,
      nothing for any other kind. */
  function Statement(n: ASTNode): string
  {
    match n.nodeType
    case PrintString => PrintStatement(n.value)
    case Unhandled(_) => ""
  }

  /** The number of columns the field "%*c" takes for a given indentation. */
  function IndentWidth(indent: u16): nat
  {
    if indent == 0 then 1 else indent as nat
  }

  /** What the transpiler writes for an optional node: nothing for a null
      node, else the indentation, the node's statement and a newline. */
  function NodeLine(node: Option<ASTNode>, indent: u16): string
  {
    match node
    case None => ""
    case Some(n) => PaddedChar(indent as nat, ' ') + Statement(n) + "\n"
  }

  /** The whole generated C file for a tree root. */
  function GeneratedSource(root: Option<ASTNode>, indent: u16): string
  {
    Preamble + NodeLine(root, indent) + Postamble
  }

  /** The calls the transpiler makes to the evaluator for an optional node:
      its `depend`, `right` and `left` children, in that order, each one
      only when it is present. */
  function EvalCalls(node: Option<ASTNode>, moduleName: CString): (r: seq<EvalCall>)
    ensures node.None? ==> r == []
    ensures node.Some? ==>
      |r| == (if node.value.depend.Some? then 1 else 0)
           + (if node.value.right.Some? then 1 else 0)
           + (if node.value.left.Some? then 1 else 0)
    ensures node.Some? && node.value.depend.Some? ==>
      r[0] == EvalCall(node.value.depend.value, moduleName)
    ensures node.Some? && node.value.right.Some? ==>
      r[if node.value.depend.Some? then 1 else 0] == EvalCall(node.value.right.value, moduleName)
    ensures node.Some? && node.value.left.Some? ==>
      r[|r| - 1] == EvalCall(node.value.left.value, moduleName)
  {
    match node
    case None => []
    case Some(n) =>
      (if n.depend.Some? then [EvalCall(n.depend.value, moduleName)] else [])
      + (if n.right.Some? then [EvalCall(n.right.value, moduleName)] else [])
      + (if n.left.Some? then [EvalCall(n.left.value, moduleName)] else [])
  }

  /** A line read back: the width of its leading blank run and the
      statement between that run and the final newline. */
  function ParseNodeLine(line: string): Option<(nat, string)>
  {
    if line == [] || line[|line| - 1] != '\n' then None
    else
      var body := line[..|line| - 1];
      var k := LeadingSpaces(body);
      Some((k, body[k..]))
  }

  /** The body of a generated file: what lies between the preamble and the
      postamble, if the file has both. */
  function ExtractBody(file: string): Option<string>
  {
    if |Preamble| + |Postamble| <= |file| && StartsWith(file, Preamble) && EndsWith(file, Postamble)
    then Some(file[|Preamble|..|file| - |Postamble|])
    else None
  }

  /** The output stream `c_fp`: a file opened for writing, whose contents
      grow by each write. */
  class CFile {
    var text: string

    /** `fopen(path, "w")`: the file starts empty. */
    constructor Open()
      ensures text == []
    {
      text := [];
    }

    /** `fprintf` of already formatted text. */
    method Write(s: string)
      modifies this
      ensures text == old(text) + s
    {
      text := text + s;
    }
  }

  /** The evaluator as the transpiler sees it: an opaque collaborator that
      is handed nodes and writes nothing into the generated file. The model
      keeps the sequence of calls it received. */
  class Evaluator {
    var calls: seq<EvalCall>

    constructor ()
      ensures calls == []
    {
      calls := [];
    }

    /** `eval_node(node, module)`. */
    method EvalNode(node: ASTNode, moduleName: CString)
      modifies this
      ensures calls == old(calls) + [EvalCall(node, moduleName)]
    {
      calls := calls + [EvalCall(node, moduleName)];
    }
  }

  /** The first half of `transpile_node`: hand the node's `depend`,
      `right` and `left` children, each one only when present, to the
      evaluator. */
  method EvalChildren(n: ASTNode, moduleName: CString, ev: Evaluator)
    modifies ev
    ensures ev.calls == old(ev.calls) + EvalCalls(Some(n), moduleName)
  {
    ghost var calls0 := ev.calls;
    if n.depend.Some? {
      ev.EvalNode(n.depend.value, moduleName);
    }
    ghost var calls1 := ev.calls;
    if n.right.Some? {
      ev.EvalNode(n.right.value, moduleName);
    }
    ghost var calls2 := ev.calls;
    if n.left.Some? {
      ev.EvalNode(n.left.value, moduleName);
    }
    assert ev.calls == calls0 + (calls1[|calls0|..] + calls2[|calls1|..] + ev.calls[|calls2|..]);
  }

  /** `transpile_node`: hands the node's children to the evaluator, writes
      the node's one line into `out` and returns the node it was given. */
  method TranspileNode(node: Option<ASTNode>, moduleName: CString, out: CFile, ev: Evaluator, indent: u16)
    returns (r: Option<ASTNode>)
    modifies out, ev
    ensures r == node
    ensures out.text == old(out.text) + NodeLine(node, indent)
    ensures ev.calls == old(ev.calls) + EvalCalls(node, moduleName)
  {
    if node.None? {
      return node;
    }
    var n := node.value;
    EvalChildren(n, moduleName, ev);
    var pad := PaddedChar(indent as nat, ' ');
    out.Write(pad);
    match n.nodeType {
      case PrintString =>
        out.Write(PrintStatement(n.value));
      case Unhandled(_) =>
    }
    out.Write("\n");
    assert out.text == old(out.text) + (pad + Statement(n) + "\n");
    return node;
  }

  // ---------------------------------------------------------------------
  // Properties of the generated text

  /** Reading a print statement back gives the literal that was printed. */
  lemma PrintStatementRoundTrip(value: CString)
    ensures ParsePrintStatement(PrintStatement(value)) == Some(value)
  {
  }

  /** Whatever ParsePrintStatement accepts is the print statement of the
      literal it returns. */
  lemma ParsePrintStatementSound(s: string, value: CString)
    requires ParsePrintStatement(s) == Some(value)
    ensures PrintStatement(value) == s
  {
  }

  /** Two different literals never give the same print statement. */
  lemma PrintStatementInjective(v: CString, w: CString)
    requires PrintStatement(v) == PrintStatement(w)
    ensures v == w
  {
    PrintStatementRoundTrip(v);
    PrintStatementRoundTrip(w);
  }

  /** The line of a present node: its indentation is a run of exactly
      IndentWidth blanks (four for the default `indent_length`), then
      comes the node's statement, then one newline; the line can be read
      back into the two. */
  lemma NodeLineRoundTrip(n: ASTNode, indent: u16)
    ensures ParseNodeLine(NodeLine(Some(n), indent)) == Some((IndentWidth(indent), Statement(n)))
  {
    var pad := PaddedChar(indent as nat, ' ');
    PaddedBlankIsSpaces(indent as nat);
    assert pad == Spaces(IndentWidth(indent));
    var line := NodeLine(Some(n), indent);
    var body := pad + Statement(n);
    assert line == body + "\n";
    assert line[..|line| - 1] == body;
    assert Statement(n) == [] || Statement(n)[0] == 'p';
    LeadingSpacesOfPadded(IndentWidth(indent), Statement(n));
    assert body[IndentWidth(indent)..] == Statement(n);
  }

  /** The fixed text around a printed literal holds no newline character. */
  lemma PrintFrameHasNoNewline()
    ensures Count(PrintOpen, '\n') == 0 && Count(PrintClose, '\n') == 0
  {
  }

  /** A statement holds no newline of its own: only those of a printed
      literal. */
  lemma StatementNewlines(n: ASTNode)
    ensures Count(Statement(n), '\n') == (if n.nodeType == PrintString then Count(n.value, '\n') else 0)
  {
    if n.nodeType == PrintString {
      CountAppend(PrintOpen + n.value, PrintClose, '\n');
      CountAppend(PrintOpen, n.value, '\n');
      PrintFrameHasNoNewline();
    }
  }

  /** A present node's line holds one newline of its own, plus those of a
      printed literal; so a literal without newlines gives exactly one line. */
  lemma NodeLineNewlines(n: ASTNode, indent: u16)
    ensures Count(NodeLine(Some(n), indent), '\n')
         == 1 + (if n.nodeType == PrintString then Count(n.value, '\n') else 0)
  {
    var pad := PaddedChar(indent as nat, ' ');
    var stmt := Statement(n);
    assert NodeLine(Some(n), indent) == pad + stmt + "\n";
    CountAppend(pad + stmt, "\n", '\n');
    CountAppend(pad, stmt, '\n');
    assert '\n' !in pad;
    assert Count("\n", '\n') == 1;
    StatementNewlines(n);
  }

  /** A node of any kind other than print string gives a line with only
      the indentation and the newline. */
  lemma UnhandledLineIsBlank(n: ASTNode, indent: u16)
    requires n.nodeType != PrintString
    ensures NodeLine(Some(n), indent) == Spaces(IndentWidth(indent)) + "\n"
  {
  }

  /** The children of a node contribute no text: two nodes of the same kind
      and payload give the same line whatever their children. */
  lemma ChildrenEmitNothing(n: ASTNode, m: ASTNode, indent: u16)
    requires n.nodeType == m.nodeType && n.value == m.value
    ensures NodeLine(Some(n), indent) == NodeLine(Some(m), indent)
  {
  }

  /** Every generated file starts with the preamble, ends with `}\n`, and
      its body is exactly the line written for the root. */
  lemma GeneratedSourceFrame(root: Option<ASTNode>, indent: u16)
    ensures StartsWith(GeneratedSource(root, indent), Preamble)
    ensures EndsWith(GeneratedSource(root, indent), Postamble)
    ensures ExtractBody(GeneratedSource(root, indent)) == Some(NodeLine(root, indent))
  {
  }

  /** With a null root the file is the preamble directly followed by `}\n`. */
  lemma NullRootSource(indent: u16)
    ensures GeneratedSource(None, indent) == "#include <stdio.h>\n\nint main() {\n}\n"
  {
  }

  /** A file of print statements chained through `left` prints only the
      root's literal: it is the file of the root alone, its one line is the
      print of `a`, and the child goes to the evaluator instead. */
  lemma LeftChainEmitsOnlyRoot()
    ensures
      var c := Node(PrintString, "c", None, None, None);
      var b := Node(PrintString, "b", None, None, Some(c));
      var a := Node(PrintString, "a", None, None, Some(b));
      GeneratedSource(Some(a), IndentLength)
        == GeneratedSource(Some(Node(PrintString, "a", None, None, None)), IndentLength)
      && ParseNodeLine(NodeLine(Some(a), IndentLength)) == Some((4, PrintStatement("a")))
      && EvalCalls(Some(a), "m") == [EvalCall(b, "m")]
  {
    var c := Node(PrintString, "c", None, None, None);
    var b := Node(PrintString, "b", None, None, Some(c));
    var a := Node(PrintString, "a", None, None, Some(b));
    NodeLineRoundTrip(a, IndentLength);
  }
}
