/** The compile entry point: generate `main.c` for the tree root and work
    out where the binary ends up. */
module Compiler {
  import opened CText
  import opened Ast
  import opened Transpiler
  import opened BuildPaths

  /** `compile`: opens the C source in the build directory, writes the
      preamble, the root's line and the closing brace, and computes the
      binary's final path. It returns the C source path, the text left in
      that file, the calls made to the evaluator and the final binary path.
      `indentLength` is the value of the global `indent_length` at the call,
      IndentLength unless something has changed it. */
  method Compile(root: Option<ASTNode>, moduleName: CString, host: Host, binFile: Option<CString>,
                 indentLength: u16)
    returns (cFilePath: string, cSource: string, evals: seq<EvalCall>, binFilePathFinal: string)
    ensures cFilePath == SourcePath(host)
    ensures cSource == GeneratedSource(root, indentLength)
    ensures evals == EvalCalls(root, moduleName)
    ensures binFilePathFinal == FinalBinaryPath(BinaryPath(host, binFile), host.windows)
    ensures FileName(host, binFilePathFinal) == Some(
      FinalBinaryPath(if binFile.Some? then binFile.value else "main", host.windows))
  {
    cFilePath := SourcePath(host);
    var cFile := new CFile.Open();
    var ev := new Evaluator();
    var indent := indentLength;
    cFile.Write(Preamble);
    var _ := TranspileNode(root, moduleName, cFile, ev, indent);
    ghost var body := NodeLine(root, indent);
    assert cFile.text == Preamble + body;
    cFile.Write(Postamble);
    assert cFile.text == Preamble + body + Postamble;
    cSource := cFile.text;
    evals := ev.calls;

    var binFilePath := BinaryPath(host, binFile);
    binFilePathFinal := FinalBinaryPath(binFilePath, host.windows);
    assert FileName(host, binFilePathFinal) == Some(
      FinalBinaryPath(if binFile.Some? then binFile.value else "main", host.windows)) by {
      FinalPathKeepsDirectory(host, if binFile.Some? then binFile.value else DefaultBinaryName);
    }
  }
}
