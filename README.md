# Chaos compiler back end: C generation and artefact paths

This project models the text and path logic of the Chaos language's
ahead-of-time compiler (`compiler/compiler.c`). `compile` turns the root of a
parsed Chaos program into a C file `main.c` in the build directory, asks the
host's C compiler to build it, and reports where the binary is. The model
covers everything in that function and in `transpile_node` that is not
operating-system plumbing:

- **The generated C file.** `compile` opens the file for writing, writes the
  fixed preamble `#include <stdio.h>\n\nint main() {\n`, calls
  `transpile_node` on the root and writes the closing `}\n`. The `FILE *` is
  the class `Transpiler.CFile`, whose `text` each write extends.
- **`transpile_node`.** A null node writes nothing. For any other node it
  first hands the `depend`, `right` and `left` children, in that order and
  each only when present, to the evaluator (`eval_node`). It then writes one
  line: the `%*c` field of blanks, the node's statement and a newline. For a
  print-string node the statement is `printf("<value>\n");`, with the literal
  copied verbatim and `\n` written as a backslash and an `n`. Every other node
  kind gets an empty statement. The children contribute no text. The
  evaluator is the class `Transpiler.Evaluator`, which keeps the calls it
  receives and writes nothing.
- **Paths.** The C source is always `<build><sep>main.c`. The binary is
  `<build><sep><bin_file>`, or `<build><sep>main` when no name is given. On
  Windows the final path gets `.exe` appended unless it already ends with it.
  On other hosts it is left as it is.

The build directory, the path separator (`/` or `\`) and the host operating system come
from the build configuration (`compiler.h` is not part of this model). They
are the fields of `BuildPaths.Host`. C strings cannot hold a NUL, so the
string inputs have the type `CText.CString`. The indentation is C's
`unsigned short` (`CText.u16`). `compile` starts from the value the global
`indent_length` holds when it is called (initially 4, `Transpiler.IndentLength`);
Compile takes that value as its `indentLength` parameter.

Two consequences of the code are worth stating outright:

- `transpile_node` does not recurse. It writes one line for the node it is
  given and hands `depend`, `right` and `left` to `eval_node`, so a print
  chain `a`→`b`→`c` through `left` prints only `a`
  (`Transpiler.LeftChainEmitsOnlyRoot`).
- A failure to start the C compiler does not stop `compile`
  (compiler/compiler.c:83, 88-89): it goes on to report the final binary
  path.

## Model

| member | source | states |
|---|---|---|
| CText.PaddedChar | compiler/compiler.c:139 | `%*c` of a blank writes max(width, 1) columns: blanks, then the character in the last column |
| Transpiler.CFile.Open | compiler/compiler.c:25 | opening the C file for writing leaves it empty |
| Transpiler.CFile.Write | compiler/compiler.c:38 | a write appends its text to the file and changes nothing else |
| Transpiler.Evaluator.EvalNode | compiler/compiler.c:128 | a call to `eval_node` is recorded with its node and module |
| Transpiler.EvalCalls | compiler/compiler.c:127-137 | the evaluator gets one call per present child: `depend` first, then `right`, then `left` last; a null node makes no calls |
| Transpiler.EvalChildren | compiler/compiler.c:127-137 | the calls the evaluator receives are exactly EvalCalls of the node, appended to those it already had |
| Transpiler.TranspileNode | compiler/compiler.c:122-151 | returns its argument; the file grows by exactly NodeLine (nothing for a null node); the evaluator receives exactly EvalCalls |
| Transpiler.PrintStatementRoundTrip | compiler/compiler.c:142-143 | reading back a print statement gives the literal verbatim |
| Transpiler.ParsePrintStatementSound | compiler/compiler.c:142-143 | any text read as a print statement is `printf("` + literal + `\n");` |
| Transpiler.PrintStatementInjective | compiler/compiler.c:142-143 | different literals give different statements, since nothing is escaped away |
| Transpiler.NodeLineRoundTrip | compiler/compiler.c:139-148 | a node's line reads back as a blank run of exactly max(indent, 1) columns, the node's statement, and the final newline |
| Transpiler.StatementNewlines | compiler/compiler.c:140-147 | a statement holds no newline character except those in a printed literal |
| Transpiler.NodeLineNewlines | compiler/compiler.c:139-148 | a node's line holds exactly one newline of its own, plus those of a printed literal |
| Transpiler.UnhandledLineIsBlank | compiler/compiler.c:144-148 | a node of any other kind gives only the blanks and the newline |
| Transpiler.ChildrenEmitNothing | compiler/compiler.c:127-148 | a node's line depends only on its kind and payload, not on its children |
| Transpiler.GeneratedSourceFrame | compiler/compiler.c:32-42 | every generated file starts with the preamble, ends with `}\n`, and holds exactly the root's line between them |
| Transpiler.NullRootSource | compiler/compiler.c:122-125 | with a null root the file is the preamble followed directly by `}\n` |
| Transpiler.LeftChainEmitsOnlyRoot | compiler/compiler.c:127-148 | for print nodes `a`, `b`, `c` chained through `left`, the file prints only `a`, and the evaluator gets `b` |
| BuildPaths.SourcePathIsMainC | compiler/compiler.c:21 | the C source path is `main.c` inside the build directory, whatever the request |
| BuildPaths.BinaryPathName | compiler/compiler.c:48-53 | the binary path is the requested name inside the build directory, or `main` when none is given |
| BuildPaths.BinaryOverwritesSourceIff | compiler/compiler.c:48-53 | the binary path equals the C source path exactly when the requested name is `main.c` |
| BuildPaths.FinalBinaryPath | compiler/compiler.c:108-117 | on Windows the result ends with `.exe`; a path already ending with it is unchanged; otherwise exactly `.exe` is appended; on other hosts the path is unchanged |
| BuildPaths.FinalBinaryPathIdempotent | compiler/compiler.c:108-117 | normalising an already normalised path changes nothing |
| BuildPaths.FinalPathKeepsDirectory | compiler/compiler.c:108-117 | normalising the binary path only changes its file name |
| Compiler.Compile | compiler/compiler.c:7-120 | the C source path, the exact file text (preamble, root line at the starting indentation, `}\n`), the evaluator calls and the final binary path (build directory, then the normalised name) |

## Left out

- Creating the build directory (`stat`, `mkdir`, `_mkdir`) is file-system I/O. So are `fopen`, the `exit(1)` when it fails, and `fclose`.
- Choosing `clang` or `gcc` with preprocessor macros is a build-time choice.
- Starting the C compiler and waiting for it (`fork`/`execlp`/`wait`, `CreateProcess`/`WaitForSingleObject`/`GetExitCodeProcess`) is process control and outside the model. So is the `exit` call on failure. On Windows it passes the compiler's exit code (compiler/compiler.c:73-80). On POSIX it passes the raw `wait` status word (compiler/compiler.c:93-101), whose low 8 bits can be 0 for a failed compilation. Compile's results are what `compile` produces whenever it does not call `exit`. That includes a failed `CreateProcess` (compiler/compiler.c:83) and a failed `fork` (compiler/compiler.c:88-89), after which the `wait` loop ends at once.
- `eval_node`, `ast_root_node` and `string_ends_with` are defined elsewhere. `eval_node` is taken to write nothing to the C file. `ast_root_node` is the `root` parameter. `string_ends_with` is a plain suffix test (`CText.EndsWith`).
- The progress messages written with `printf` and the global `dir_stat` are left out.
- The `phase_arg` parameter of `compile` is never read, so Compile does not take it.
- The path separator comes from `__KAOS_PATH_SEPARATOR__` in `compiler.h`, which is not part of this model. It is taken to be `/` or `\` (`BuildPaths.Separator`). BuildPaths.FinalPathKeepsDirectory, and through it the last `ensures` of Compiler.Compile, rely on this: a separator ending in `.`, `e` or `x` could supply the start of `.exe` for a short binary name.
- The `PATH_MAX` bounds of the `sprintf` buffers are left out: paths are unbounded, and overflow is not modelled.
- The behaviour of the generated C program is left out. The literal is copied unescaped into the first argument of `printf`, so what that program prints for a literal holding `%`, `"` or `\` is outside the model.
