/** Where the compiler puts its artefacts: the generated C file, the binary,
    and the binary's final name on the host. */
module BuildPaths {
  import opened CText

  /** The path separators the build configuration chooses between
      (`__KAOS_PATH_SEPARATOR__`). */
  datatype Separator = Slash | Backslash

  function SeparatorText(sep: Separator): string
  {
    match sep
    case Slash => "/"
    case Backslash => "\\"
  }

  /** What the compiler takes from its build configuration: the build
      directory (`__KAOS_BUILD_DIRECTORY__`), the path separator and
      whether the host is Windows. */
  datatype Host = Host(buildDir: CString, separator: Separator, windows: bool)

  /** The file name of the generated C source. */
  const SourceName: string := "main.c"

  /** The binary's file name when none is requested. */
  const DefaultBinaryName: string := "main"

  /** The Windows executable extension (`__KAOS_WINDOWS_EXE_EXT__`). */
  const ExeExt: string := ".exe"

  /** The directory part every artefact path starts with. */
  function BuildPrefix(host: Host): string
  {
    host.buildDir + SeparatorText(host.separator)
  }

  /** `c_file_path`: the generated source inside the build directory. */
  function SourcePath(host: Host): string
  {
    BuildPrefix(host) + SourceName
  }

  /** `bin_file_path`: the requested binary name inside the build
      directory, or `main` when none is requested. */
  function BinaryPath(host: Host, binFile: Option<CString>): string
  {
    BuildPrefix(host) + (if binFile.Some? then binFile.value else DefaultBinaryName)
  }

  /** The file name of a path inside the build directory. */
  function FileName(host: Host, path: string): Option<string>
  {
    if StartsWith(path, BuildPrefix(host)) then Some(path[|BuildPrefix(host)|..]) else None
  }

  /** Removing the build prefix from a path built on it gives back the name. */
  lemma FileNameOfBuilt(host: Host, name: string)
    ensures FileName(host, BuildPrefix(host) + name) == Some(name)
  {
  }

  /** The source path is always `main.c` in the build directory. */
  lemma SourcePathIsMainC(host: Host)
    ensures FileName(host, SourcePath(host)) == Some("main.c")
  {
  }

  /** The binary path names the requested file in the build directory, or
      `main` when none is requested. */
  lemma BinaryPathName(host: Host, binFile: Option<CString>)
    ensures FileName(host, BinaryPath(host, binFile))
         == Some(if binFile.Some? then binFile.value else "main")
  {
  }

  /** The binary path is the source path exactly when the requested binary
      name is `main.c`; then the C compiler writes its output over its
      input. */
  lemma BinaryOverwritesSourceIff(host: Host, binFile: Option<CString>)
    ensures BinaryPath(host, binFile) == SourcePath(host) <==> binFile == Some("main.c")
  {
    if BinaryPath(host, binFile) == SourcePath(host) {
      BinaryPathName(host, binFile);
      SourcePathIsMainC(host);
      assert DefaultBinaryName != SourceName;
    }
  }

  /** `bin_file_path_final`: on Windows the path gets `.exe` appended
      unless it already ends with it; elsewhere it is left as it is. */
  function FinalBinaryPath(path: string, windows: bool): (r: string)
    ensures windows ==> EndsWith(r, ExeExt)
    ensures !windows ==> r == path
    ensures EndsWith(path, ExeExt) ==> r == path
    ensures StartsWith(r, path) && |r| <= |path| + |ExeExt|
    ensures r != path ==> r[|path|..] == ExeExt
  {
    if windows && !EndsWith(path, ExeExt) then path + ExeExt else path
  }

  /** Normalising a path that is already normalised changes nothing. */
  lemma FinalBinaryPathIdempotent(path: string, windows: bool)
    ensures FinalBinaryPath(FinalBinaryPath(path, windows), windows) == FinalBinaryPath(path, windows)
  {
  }

  /** Normalising the binary path only ever touches its file name: the
      result is the build directory followed by the normalised name. This
      holds because the directory part ends with a separator, which can
      never supply the start of `.exe`. */
  lemma FinalPathKeepsDirectory(host: Host, name: string)
    ensures FinalBinaryPath(BuildPrefix(host) + name, host.windows)
         == BuildPrefix(host) + FinalBinaryPath(name, host.windows)
    ensures FileName(host, FinalBinaryPath(BuildPrefix(host) + name, host.windows))
         == Some(FinalBinaryPath(name, host.windows))
  {
    var pre := BuildPrefix(host);
    var p := pre + name;
    if |ExeExt| <= |name| {
      assert p[|p| - |ExeExt|..] == name[|name| - |ExeExt|..];
    } else if |ExeExt| <= |p| {
      // the last four characters of the path reach into the separator
      var i := |p| - 1 - |name|;
      assert p[i] == SeparatorText(host.separator)[0];
      assert p[|p| - |ExeExt|..][3 - |name|] == p[i];
      assert ExeExt[3 - |name|] != p[i];
      assert !EndsWith(p, ExeExt);
    }
    assert pre + (name + ExeExt) == p + ExeExt;
    FileNameOfBuilt(host, FinalBinaryPath(name, host.windows));
  }
}
