/** The parts of a parsed Chaos program that the transpiler reads. The tree
    is built and owned by the parser; the transpiler never changes it. */
module Ast {
  import opened CText

  /** The node kinds the transpiler tells apart: the string-printing
      statement, and every other kind of the language, kept by its tag. */
  datatype NodeType = PrintString | Unhandled(tag: nat)

  /** A tree node: its kind, its string payload (`value.s`, the literal of a
      print statement) and the three optional children. */
  datatype ASTNode = Node(
    nodeType: NodeType,
    value: CString,
    depend: Option<ASTNode>,
    right: Option<ASTNode>,
    left: Option<ASTNode>)
}
