/**
 * Compilation of a Typst source inside a scoped temporary workspace
 * (`typst.go`): create a fresh directory, write `data.json` when there is
 * data, write `main.typ`, run the compiler in the directory, read
 * `output.pdf` back, and remove the directory on every way out.
 *
 * The directory is an in-memory `Workspace` object; the host file system's
 * failures are the `FileSystem` value it is created against, and the
 * compiler is a `Compiler` value standing for the `TypstCompiler` interface.
 */
module Typst {
  import opened Wrappers
  import opened Values

  /** Owner read/write only: octal 0600. */
  const FilePermissions: int := 384
  const SourceFileName: GoString := Ascii("main.typ")
  const OutputFileName: GoString := Ascii("output.pdf")
  const DataFileName: GoString := Ascii("data.json")

  const TempDirPrefix: GoString := Ascii("failed to create temp dir: ")
  const MarshalPrefix: GoString := Ascii("failed to marshal data: ")
  const WriteDataPrefix: GoString := Ascii("failed to write data file: ")
  const WriteSourcePrefix: GoString := Ascii("failed to write source file: ")
  const ReadOutputPrefix: GoString := Ascii("failed to read output PDF: ")
  const CompileFailedPrefix: GoString := Ascii("compile failed: ")
  /** Cause reported when reading a file that does not exist. */
  const NoSuchFile: GoString := Ascii("no such file or directory")

  datatype FileEntry = FileEntry(content: GoString, mode: int)

  /** The contents of a workspace directory, by file name. */
  type Files = map<GoString, FileEntry>

  /** How the host file system behaves for one compilation. */
  datatype FileSystem = FileSystem(
    // `os.MkdirTemp` fails with this cause
    mkdirTempError: Option<GoString>,
    // `os.WriteFile` of the named file fails with this cause
    writeErrors: map<GoString, GoString>,
    // `os.ReadFile` of the named file fails with this cause although the file exists
    readErrors: map<GoString, GoString>)

  /** The marshalled form of the data: `json.MarshalIndent(data, "", "  ")`. */
  type Marshaller = JsonObject -> Result<GoString, GoString>

  // ---------------------------------------------------------------------
  // The compiler interface

  /** What one run of the `typst compile main.typ output.pdf` process does. */
  datatype ProcessRun = ProcessRun(succeeded: bool, combinedOutput: GoString, output: Option<FileEntry>)

  /** What one `Compile(ctx, workDir)` call does: its error, and the output file it leaves. */
  datatype CompilerRun = CompilerRun(err: Option<GoString>, output: Option<FileEntry>)

  /**
   * An implementation of `TypstCompiler`. Each variant is given the files of
   * the working directory it is called on.
   */
  datatype Compiler =
    // `LocalTypstCompiler`: runs the local typst binary
    | LocalTypst(typst: Files -> ProcessRun)
    // any other implementation, whose behaviour is given directly
    | Injected(compile: Files -> CompilerRun)

  /** `compiler.Compile(ctx, workDir)` on a directory holding `inputs`. */
  function Run(c: Compiler, inputs: Files): CompilerRun {
    match c
    case LocalTypst(typst) =>
      var p := typst(inputs);
      CompilerRun(if p.succeeded then None else Some(CompileFailedPrefix + p.combinedOutput), p.output)
    case Injected(compile) => compile(inputs)
  }

  /**
   * `LocalTypstCompiler.Compile` reports a failed process as
   * `compile failed: <combined output>`, passing the process's diagnostics on
   * verbatim, and reports no error when the process succeeds.
   */
  lemma LocalTypstReportsOutput(typst: Files -> ProcessRun, inputs: Files)
    ensures var o := Run(LocalTypst(typst), inputs);
      && (o.err.None? <==> typst(inputs).succeeded)
      && (o.err.Some? ==>
            && |o.err.value| >= |CompileFailedPrefix|
            && o.err.value[..|CompileFailedPrefix|] == CompileFailedPrefix
            && o.err.value[|CompileFailedPrefix|..] == typst(inputs).combinedOutput)
      && o.output == typst(inputs).output
  {
  }

  // ---------------------------------------------------------------------
  // The workspace

  /** One effect on a workspace, in the order they happen. */
  datatype Step =
    | MadeDir
    | Wrote(name: GoString, entry: FileEntry)
    | WriteFailed(name: GoString)
    | Compiled(inputs: Files)
    | ReadBack(name: GoString)
    | Removed

  /** A temporary directory that exists for one compilation. */
  class Workspace {
    const fs: FileSystem
    var files: Files
    var removed: bool
    /** Everything done to this directory so far. */
    var history: seq<Step>

    /** `os.MkdirTemp` when it succeeds: a fresh, empty directory. */
    constructor (fs: FileSystem)
      requires fs.mkdirTempError.None?
      ensures this.fs == fs && files == map[] && !removed && history == [MadeDir]
    {
      this.fs := fs;
      files := map[];
      removed := false;
      history := [MadeDir];
    }

    /** `os.WriteFile(<dir>/name, content, mode)`. */
    method WriteFile(name: GoString, content: GoString, mode: int) returns (err: Option<GoString>)
      requires !removed
      modifies this
      ensures err == if name in fs.writeErrors then Some(fs.writeErrors[name]) else None
      ensures files == if err.None? then old(files)[name := FileEntry(content, mode)] else old(files)
      ensures history == old(history) + [if err.None? then Wrote(name, FileEntry(content, mode)) else WriteFailed(name)]
      ensures removed == old(removed)
    {
      if name in fs.writeErrors {
        err := Some(fs.writeErrors[name]);
        history := history + [WriteFailed(name)];
      } else {
        err := None;
        files := files[name := FileEntry(content, mode)];
        history := history + [Wrote(name, FileEntry(content, mode))];
      }
    }

    /** `compiler.Compile(ctx, workDir)`: the compiler may leave `output.pdf` behind. */
    method Compile(c: Compiler) returns (err: Option<GoString>)
      requires !removed
      modifies this
      ensures var o := Run(c, old(files));
        && err == o.err
        && files == (if o.output.Some? then old(files)[OutputFileName := o.output.value] else old(files))
      ensures history == old(history) + [Compiled(old(files))]
      ensures removed == old(removed)
    {
      var o := Run(c, files);
      err := o.err;
      history := history + [Compiled(files)];
      if o.output.Some? {
        files := files[OutputFileName := o.output.value];
      }
    }

    /** `os.ReadFile(<dir>/name)`: a missing file, an unreadable one, or its contents. */
    method ReadFile(name: GoString) returns (r: Result<GoString, GoString>)
      requires !removed
      modifies this`history
      ensures name !in files ==> r == Failure(NoSuchFile)
      ensures name in files && name in fs.readErrors ==> r == Failure(fs.readErrors[name])
      ensures name in files && name !in fs.readErrors ==> r == Success(files[name].content)
      ensures history == old(history) + [ReadBack(name)]
    {
      if name !in files {
        r := Failure(NoSuchFile);
      } else if name in fs.readErrors {
        r := Failure(fs.readErrors[name]);
      } else {
        r := Success(files[name].content);
      }
      history := history + [ReadBack(name)];
    }

    /** `os.RemoveAll(workDir)`: the directory and everything in it go. */
    method RemoveAll()
      modifies this
      ensures removed && files == map[]
      ensures history == old(history) + [Removed]
    {
      removed := true;
      files := map[];
      history := history + [Removed];
    }
  }

  // ---------------------------------------------------------------------
  // The protocol of compileTypstWith, as a function

  datatype Compilation = Compilation(result: Result<GoString, GoString>, steps: seq<Step>)

  /** From writing `main.typ` to reading `output.pdf`, with `files` already in the directory. */
  function FromSource(fs: FileSystem, compiler: Compiler, source: GoString, files: Files): Compilation {
    if SourceFileName in fs.writeErrors then
      Compilation(Failure(WriteSourcePrefix + fs.writeErrors[SourceFileName]), [WriteFailed(SourceFileName)])
    else
      var entry := FileEntry(source, FilePermissions);
      var inputs := files[SourceFileName := entry];
      var o := Run(compiler, inputs);
      var ran := [Wrote(SourceFileName, entry), Compiled(inputs)];
      if o.err.Some? then Compilation(Failure(o.err.value), ran)
      else
        var read := ran + [ReadBack(OutputFileName)];
        if o.output.None? then Compilation(Failure(ReadOutputPrefix + NoSuchFile), read)
        else if OutputFileName in fs.readErrors then Compilation(Failure(ReadOutputPrefix + fs.readErrors[OutputFileName]), read)
        else Compilation(Success(o.output.value.content), read)
  }

  /** Everything between creating the directory and removing it. */
  function InDir(fs: FileSystem, compiler: Compiler, marshal: Marshaller, source: GoString, data: Option<JsonObject>): Compilation {
    if data.None? then FromSource(fs, compiler, source, map[])
    else match marshal(data.value)
      case Failure(e) => Compilation(Failure(MarshalPrefix + e), [])
      case Success(encoded) =>
        if DataFileName in fs.writeErrors then
          Compilation(Failure(WriteDataPrefix + fs.writeErrors[DataFileName]), [WriteFailed(DataFileName)])
        else
          var entry := FileEntry(encoded, FilePermissions);
          var rest := FromSource(fs, compiler, source, map[DataFileName := entry]);
          Compilation(rest.result, [Wrote(DataFileName, entry)] + rest.steps)
  }

  /** `compileTypstWith(ctx, compiler, source, data)`: its result and its effects on the directory. */
  function Compile(fs: FileSystem, compiler: Compiler, marshal: Marshaller, source: GoString, data: Option<JsonObject>): Compilation {
    if fs.mkdirTempError.Some? then Compilation(Failure(TempDirPrefix + fs.mkdirTempError.value), [])
    else
      var inner := InDir(fs, compiler, marshal, source, data);
      Compilation(inner.result, [MadeDir] + inner.steps + [Removed])
  }

  /**
   * The part of `compileTypstWith` from writing `main.typ` to reading
   * `output.pdf` back, on a workspace that already holds `ws.files`. The
   * directory then holds `main.typ`, when it could be written, and whatever
   * output the compiler left, even when it reported an error.
   */
  method CompileFromSource(ws: Workspace, compiler: Compiler, source: GoString) returns (r: Result<GoString, GoString>)
    requires !ws.removed && OutputFileName !in ws.files
    modifies ws
    ensures r == FromSource(ws.fs, compiler, source, old(ws.files)).result
    ensures ws.history == old(ws.history) + FromSource(ws.fs, compiler, source, old(ws.files)).steps
    ensures SourceFileName in ws.fs.writeErrors ==> ws.files == old(ws.files)
    ensures SourceFileName !in ws.fs.writeErrors ==>
      var inputs := old(ws.files)[SourceFileName := FileEntry(source, FilePermissions)];
      var o := Run(compiler, inputs);
      ws.files == if o.output.Some? then inputs[OutputFileName := o.output.value] else inputs
    ensures !ws.removed
  {
    var writeErr := ws.WriteFile(SourceFileName, source, FilePermissions);
    if writeErr.Some? {
      return Failure(WriteSourcePrefix + writeErr.value);
    }
    var compileErr := ws.Compile(compiler);
    if compileErr.Some? {
      return Failure(compileErr.value);
    }
    var pdf := ws.ReadFile(OutputFileName);
    if pdf.Failure? {
      return Failure(ReadOutputPrefix + pdf.error);
    }
    return Success(pdf.value);
  }

  /**
   * `compileTypstWith`. Returns the workspace it used (null when none could
   * be created); that workspace has been removed whatever the outcome.
   */
  method CompileTypstWith(fs: FileSystem, compiler: Compiler, marshal: Marshaller, source: GoString, data: Option<JsonObject>)
    returns (r: Result<GoString, GoString>, ws: Workspace?)
    ensures r == Compile(fs, compiler, marshal, source, data).result
    ensures ws == null <==> fs.mkdirTempError.Some?
    ensures ws != null ==> fresh(ws) && ws.removed && ws.files == map[]
    ensures ws != null ==> ws.history == Compile(fs, compiler, marshal, source, data).steps
  {
    if fs.mkdirTempError.Some? {
      return Failure(TempDirPrefix + fs.mkdirTempError.value), null;
    }
    ws := new Workspace(fs);
    if data.Some? {
      var encoded := marshal(data.value);
      if encoded.Failure? {
        ws.RemoveAll();
        return Failure(MarshalPrefix + encoded.error), ws;
      }
      var writeErr := ws.WriteFile(DataFileName, encoded.value, FilePermissions);
      if writeErr.Some? {
        ws.RemoveAll();
        return Failure(WriteDataPrefix + writeErr.value), ws;
      }
    }
    r := CompileFromSource(ws, compiler, source);
    ws.RemoveAll();
  }

  // ---------------------------------------------------------------------
  // Properties of the protocol

  /** The steps of `steps` that write the file `name`. */
  predicate WroteFile(steps: seq<Step>, name: GoString) {
    exists i :: 0 <= i < |steps| && steps[i].Wrote? && steps[i].name == name
  }

  /** The compiler was run. */
  predicate RanCompiler(steps: seq<Step>) {
    exists i :: 0 <= i < |steps| && steps[i].Compiled?
  }

  /** What the directory holds when the compiler is called on it. */
  function ExpectedInputs(source: GoString, encoded: Option<GoString>): Files {
    var base := map[SourceFileName := FileEntry(source, FilePermissions)];
    if encoded.Some? then base[DataFileName := FileEntry(encoded.value, FilePermissions)] else base
  }

  /** When the directory cannot be created, nothing is written and the compiler does not run. */
  lemma MkdirFailureShortCircuits(fs: FileSystem, compiler: Compiler, marshal: Marshaller, source: GoString, data: Option<JsonObject>)
    requires fs.mkdirTempError.Some?
    ensures var c := Compile(fs, compiler, marshal, source, data);
      c.result == Failure(TempDirPrefix + fs.mkdirTempError.value) && c.steps == []
  {
  }

  lemma FromSourceNoLifecycle(fs: FileSystem, compiler: Compiler, source: GoString, files: Files)
    ensures var s := FromSource(fs, compiler, source, files).steps;
      forall i :: 0 <= i < |s| ==> !s[i].MadeDir? && !s[i].Removed?
  {
  }

  lemma InDirNoLifecycle(fs: FileSystem, compiler: Compiler, marshal: Marshaller, source: GoString, data: Option<JsonObject>)
    ensures var s := InDir(fs, compiler, marshal, source, data).steps;
      forall i :: 0 <= i < |s| ==> !s[i].MadeDir? && !s[i].Removed?
  {
    if data.Some? && marshal(data.value).Success? && DataFileName !in fs.writeErrors {
      FromSourceNoLifecycle(fs, compiler, source, map[DataFileName := FileEntry(marshal(data.value).value, FilePermissions)]);
    } else {
      FromSourceNoLifecycle(fs, compiler, source, map[]);
    }
  }

  /**
   * Once the directory exists it is removed on every path out, as the last
   * step and only then: success, marshal error, write errors, compile error
   * and read error alike.
   */
  lemma CleanupOnEveryPath(fs: FileSystem, compiler: Compiler, marshal: Marshaller, source: GoString, data: Option<JsonObject>)
    requires fs.mkdirTempError.None?
    ensures var s := Compile(fs, compiler, marshal, source, data).steps;
      && |s| >= 2 && s[0] == MadeDir && s[|s| - 1] == Removed
      && forall i :: 0 < i < |s| - 1 ==> !s[i].MadeDir? && !s[i].Removed?
  {
    InDirNoLifecycle(fs, compiler, marshal, source, data);
    var inner := InDir(fs, compiler, marshal, source, data).steps;
    var s := Compile(fs, compiler, marshal, source, data).steps;
    assert s == [MadeDir] + inner + [Removed];
    forall i | 0 < i < |s| - 1 ensures !s[i].MadeDir? && !s[i].Removed? {
      assert s[i] == inner[i - 1];
    }
  }

  /**
   * `data.json` is written if and only if there is data (a non-nil map,
   * however empty) that marshals and a directory to write it into, and what
   * is written is the indented JSON encoding with mode 0600. Without data no
   * step touches `data.json`.
   */
  lemma DataFileIffData(fs: FileSystem, compiler: Compiler, marshal: Marshaller, source: GoString, data: Option<JsonObject>)
    ensures var s := Compile(fs, compiler, marshal, source, data).steps;
      WroteFile(s, DataFileName) <==>
        fs.mkdirTempError.None? && data.Some? && marshal(data.value).Success? && DataFileName !in fs.writeErrors
    ensures var s := Compile(fs, compiler, marshal, source, data).steps;
      forall i :: 0 <= i < |s| && s[i].Wrote? && s[i].name == DataFileName ==>
        data.Some? && s[i].entry == FileEntry(marshal(data.value).value, FilePermissions)
    ensures data.None? ==> var s := Compile(fs, compiler, marshal, source, data).steps;
      forall i :: 0 <= i < |s| ==> s[i] != WriteFailed(DataFileName) && !(s[i].Wrote? && s[i].name == DataFileName)
  {
    var s := Compile(fs, compiler, marshal, source, data).steps;
    if fs.mkdirTempError.None? {
      var inner := InDir(fs, compiler, marshal, source, data);
      assert s == [MadeDir] + inner.steps + [Removed];
      if data.Some? && marshal(data.value).Success? && DataFileName !in fs.writeErrors {
        var entry := FileEntry(marshal(data.value).value, FilePermissions);
        assert s[1] == Wrote(DataFileName, entry);
      }
    }
  }

  /**
   * The compiler runs exactly when the directory was created and every
   * write succeeded. It then sees a directory whose only files are
   * `main.typ` holding exactly the source and, when there is data,
   * `data.json`; both with mode 0600.
   */
  lemma CompilerSeesInputs(fs: FileSystem, compiler: Compiler, marshal: Marshaller, source: GoString, data: Option<JsonObject>)
    ensures var s := Compile(fs, compiler, marshal, source, data).steps;
      RanCompiler(s) <==>
        && fs.mkdirTempError.None?
        && (data.Some? ==> marshal(data.value).Success? && DataFileName !in fs.writeErrors)
        && SourceFileName !in fs.writeErrors
    ensures var s := Compile(fs, compiler, marshal, source, data).steps;
      forall i :: 0 <= i < |s| && s[i].Compiled? ==>
        && (data.Some? ==> marshal(data.value).Success?)
        && s[i].inputs == ExpectedInputs(source, if data.Some? then Some(marshal(data.value).value) else None)
  {
    var s := Compile(fs, compiler, marshal, source, data).steps;
    if fs.mkdirTempError.None? {
      var inner := InDir(fs, compiler, marshal, source, data);
      assert s == [MadeDir] + inner.steps + [Removed];
      if data.Some? && marshal(data.value).Success? && DataFileName !in fs.writeErrors {
        var entry := FileEntry(marshal(data.value).value, FilePermissions);
        if SourceFileName !in fs.writeErrors {
          assert s[3].Compiled?;
          assert map[DataFileName := entry][SourceFileName := FileEntry(source, FilePermissions)]
              == ExpectedInputs(source, Some(entry.content));
        }
      } else if data.None? && SourceFileName !in fs.writeErrors {
        assert s[2].Compiled?;
      }
    }
  }

  /**
   * The order of effects: `data.json` (when written) before `main.typ`,
   * `main.typ` before the compiler runs, and the compiler before `output.pdf`
   * is read back.
   */
  lemma WriteOrder(fs: FileSystem, compiler: Compiler, marshal: Marshaller, source: GoString, data: Option<JsonObject>)
    ensures var s := Compile(fs, compiler, marshal, source, data).steps;
      forall i, j ::
        (0 <= i < |s| && 0 <= j < |s| && s[i].Wrote? && s[j].Wrote? &&
         s[i].name == DataFileName && s[j].name == SourceFileName) ==> i < j
    ensures var s := Compile(fs, compiler, marshal, source, data).steps;
      forall j, k :: 0 <= j < |s| && 0 <= k < |s| && s[k].Compiled? ==>
        (s[j].Wrote? ==> j < k) && (s[j].ReadBack? ==> k < j)
  {
    var s := Compile(fs, compiler, marshal, source, data).steps;
    if fs.mkdirTempError.None? {
      var inner := InDir(fs, compiler, marshal, source, data);
      assert s == [MadeDir] + inner.steps + [Removed];
    }
  }

  /**
   * How the compilation ends once the compiler has run: a compiler error is
   * returned unchanged; otherwise the result is exactly the contents of
   * `output.pdf` as the compiler left it, or a read error when it left none
   * or the file cannot be read.
   */
  lemma CompileOutcome(fs: FileSystem, compiler: Compiler, marshal: Marshaller, source: GoString, data: Option<JsonObject>)
    requires fs.mkdirTempError.None? && SourceFileName !in fs.writeErrors
    requires data.Some? ==> marshal(data.value).Success? && DataFileName !in fs.writeErrors
    ensures var o := Run(compiler, ExpectedInputs(source, if data.Some? then Some(marshal(data.value).value) else None));
      var r := Compile(fs, compiler, marshal, source, data).result;
      && (o.err.Some? ==> r == Failure(o.err.value))
      && (o.err.None? && o.output.Some? && OutputFileName !in fs.readErrors ==> r == Success(o.output.value.content))
      && (o.err.None? && o.output.Some? && OutputFileName in fs.readErrors ==>
            r == Failure(ReadOutputPrefix + fs.readErrors[OutputFileName]))
      && (o.err.None? && o.output.None? ==> r == Failure(ReadOutputPrefix + NoSuchFile))
  {
    if data.Some? {
      var entry := FileEntry(marshal(data.value).value, FilePermissions);
      assert map[DataFileName := entry][SourceFileName := FileEntry(source, FilePermissions)]
          == ExpectedInputs(source, Some(entry.content));
    } else {
      assert map[][SourceFileName := FileEntry(source, FilePermissions)] == ExpectedInputs(source, None);
    }
  }

  /**
   * Failures before the compiler runs are reported with their own prefixes,
   * and the compiler is then never run.
   */
  lemma EarlyFailures(fs: FileSystem, compiler: Compiler, marshal: Marshaller, source: GoString, data: Option<JsonObject>)
    requires fs.mkdirTempError.None?
    ensures var c := Compile(fs, compiler, marshal, source, data);
      && (data.Some? && marshal(data.value).Failure? ==>
            c.result == Failure(MarshalPrefix + marshal(data.value).error) && c.steps == [MadeDir, Removed])
      && (data.Some? && marshal(data.value).Success? && DataFileName in fs.writeErrors ==>
            c.result == Failure(WriteDataPrefix + fs.writeErrors[DataFileName]) && !RanCompiler(c.steps))
      && ((data.Some? ==> marshal(data.value).Success? && DataFileName !in fs.writeErrors) && SourceFileName in fs.writeErrors ==>
            c.result == Failure(WriteSourcePrefix + fs.writeErrors[SourceFileName]) && !RanCompiler(c.steps))
  {
    var c := Compile(fs, compiler, marshal, source, data);
    var inner := InDir(fs, compiler, marshal, source, data);
    assert c.steps == [MadeDir] + inner.steps + [Removed];
  }
}
