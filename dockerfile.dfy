/**
 * Dockerfile generation (`DockerArtifactHandler.generate`): a `DockerModel` is
 * rendered as header, base image, label, artifact copy, one COPY per embedded file,
 * an optional EXPOSE line and the `CMD ballerina run` line.
 */
module DockerfileText {
  import opened Wrappers
  import opened JavaText
  import opened Slices

  /** A file embedded in the image; a Ballerina config file also becomes a `--config` flag. */
  datatype CopyEntry = CopyEntry(source: string, target: string, isBallerinaConf: bool)

  /**
   * The fields of the build descriptor that the generator reads. The ports are kept
   * in the order the descriptor's collection yields them.
   */
  datatype DockerModel = DockerModel(
    baseImage: string,
    balxFileName: string,
    files: seq<CopyEntry>,
    isService: bool,
    ports: seq<int>,
    enableDebug: bool,
    debugPort: int)

  /** The concatenation of `f(x)` over `xs`, in order: a `forEach` that appends. */
  function ConcatMap<T>(xs: seq<T>, f: T -> string): string {
    if xs == [] then [] else ConcatMap(xs[..|xs| - 1], f) + f(xs[|xs| - 1])
  }

  lemma {:induction false} ConcatMapSnoc<T>(xs: seq<T>, i: nat, f: T -> string)
    requires i < |xs|
    ensures ConcatMap(xs[..i + 1], f) == ConcatMap(xs[..i], f) + f(xs[i])
  {
    assert xs[..i + 1][..i] == xs[..i];
  }

  /** One step of a `forEach` that appends `f(xs[i])` to a buffer. */
  lemma {:induction false} AppendStep<T>(buffer: string, xs: seq<T>, i: nat, f: T -> string)
    requires i < |xs|
    ensures buffer + ConcatMap(xs[..i + 1], f) == buffer + ConcatMap(xs[..i], f) + f(xs[i])
  {
    ConcatMapSnoc(xs, i, f);
  }

  lemma {:induction false} ConcatMapAppend<T>(xs: seq<T>, ys: seq<T>, f: T -> string)
    ensures ConcatMap(xs + ys, f) == ConcatMap(xs, f) + ConcatMap(ys, f)
    decreases |ys|
  {
    if ys != [] {
      var zs := xs + ys;
      assert zs[..|zs| - 1] == xs + ys[..|ys| - 1];
      ConcatMapAppend(xs, ys[..|ys| - 1], f);
    } else {
      assert xs + ys == xs;
    }
  }

  lemma {:induction false} ConcatMapSplit<T>(xs: seq<T>, i: nat, f: T -> string)
    requires i < |xs|
    ensures ConcatMap(xs, f) == ConcatMap(xs[..i], f) + f(xs[i]) + ConcatMap(xs[i + 1..], f)
  {
    var front, back := xs[..i + 1], xs[i + 1..];
    assert front + back == xs;
    ConcatMapAppend(front, back, f);
    ConcatMapSnoc(xs, i, f);
  }

  lemma {:induction false} ConcatMapCons<T>(x: T, xs: seq<T>, f: T -> string)
    ensures ConcatMap([x] + xs, f) == f(x) + ConcatMap(xs, f)
  {
    ConcatMapAppend([x], xs, f);
    assert [x][..0] == [];
  }

  /** Inside `h + (ConcatMap(xs, f) + r)`, the piece of `xs[i]` sits after `h` and the pieces before it. */
  lemma {:induction false} PieceAt<T>(h: string, xs: seq<T>, i: nat, f: T -> string, r: string)
    requires i < |xs|
    ensures var at, piece := |h| + |ConcatMap(xs[..i], f)|, f(xs[i]);
      at + |piece| <= |h + (ConcatMap(xs, f) + r)|
      && (h + (ConcatMap(xs, f) + r))[at..at + |piece|] == piece
      && |ConcatMap(xs[..i + 1], f)| == |ConcatMap(xs[..i], f)| + |piece|
  {
    var before, after := ConcatMap(xs[..i], f), ConcatMap(xs[i + 1..], f);
    ConcatMapSplit(xs, i, f);
    ConcatMapSnoc(xs, i, f);
    SliceMiddle(h, ConcatMap(xs, f), r, before, f(xs[i]), after);
  }

  // ----- the pieces of the Dockerfile -----

  /** The generated-file comment and the start of the FROM line. */
  const Banner := "# Auto Generated Dockerfile\n\nFROM "
  /** The end of the FROM line, the maintainer LABEL and the start of the artifact's COPY. */
  const MaintainerLabel := "\nLABEL maintainer=\"dev@ballerina.io\"\n\nCOPY "
  /** Where the artifact is copied to, and the blank line after it. */
  const ArtifactHome := " /home/ballerina \n\n"

  /** The header comment, FROM, the maintainer LABEL and the COPY of the artifact. */
  function HeaderText(m: DockerModel): string {
    Banner + m.baseImage + MaintainerLabel + m.balxFileName + ArtifactHome
  }

  /** The COPY line of an embedded file: the last element of its source, then its target. */
  function CopyLine(f: CopyEntry): string {
    "COPY " + FileName(f.source) + " " + f.target + "\n"
  }

  function PortToken(port: int): string {
    " " + IntToString(port)
  }

  predicate ExposesPorts(m: DockerModel) {
    m.isService && |m.ports| > 0
  }

  function ExposeClause(m: DockerModel): string {
    if ExposesPorts(m) then "EXPOSE " + ConcatMap(m.ports, PortToken) + "\n\n" else ""
  }

  const RunPrefix := "CMD ballerina run "

  function ConfigFlag(f: CopyEntry): string {
    " --config " + f.target
  }

  function ConfigArg(f: CopyEntry): string {
    if f.isBallerinaConf then ConfigFlag(f) else ""
  }

  function DebugArg(m: DockerModel): string {
    if m.enableDebug then " --debug " + IntToString(m.debugPort) else ""
  }

  /** What follows `CMD ballerina run `: config flags, the debug flag, then the artifact. */
  function RunArguments(m: DockerModel): string {
    ConcatMap(m.files, ConfigArg) + DebugArg(m) + " " + m.balxFileName + "\n"
  }

  /** What follows the COPY lines: the optional EXPOSE line and the run line. */
  function Trailer(m: DockerModel): string {
    ExposeClause(m) + (RunPrefix + RunArguments(m))
  }

  /** The whole Dockerfile text generated for `m`. */
  function Dockerfile(m: DockerModel): string {
    HeaderText(m) + (ConcatMap(m.files, CopyLine) + Trailer(m))
  }

  // ----- what the text says about the model -----

  /** The entries that are Ballerina config files, in their order in `files`. */
  function ConfigFiles(files: seq<CopyEntry>): (r: seq<CopyEntry>)
    ensures forall k :: 0 <= k < |r| ==> r[k].isBallerinaConf
    ensures forall f :: f in r ==> f in files
    ensures forall f :: f in files && f.isBallerinaConf ==> f in r
    ensures forall f :: multiset(r)[f] == if f.isBallerinaConf then multiset(files)[f] else 0
  {
    if files == [] then []
    else
      var last := files[|files| - 1];
      assert files == files[..|files| - 1] + [last];
      ConfigFiles(files[..|files| - 1]) + (if last.isBallerinaConf then [last] else [])
  }

  /** Filtering keeps file order: the config files of a join are those of each part, in turn. */
  lemma {:induction false} ConfigFilesAppend(xs: seq<CopyEntry>, ys: seq<CopyEntry>)
    ensures ConfigFiles(xs + ys) == ConfigFiles(xs) + ConfigFiles(ys)
    decreases |ys|
  {
    if ys == [] {
      assert xs + ys == xs;
    } else {
      var init, last := ys[..|ys| - 1], ys[|ys| - 1];
      assert (xs + ys)[..|xs + ys| - 1] == xs + init;
      ConfigFilesAppend(xs, init);
      Assoc(ConfigFiles(xs), ConfigFiles(init), if last.isBallerinaConf then [last] else []);
    }
  }

  /** The run line carries one `--config` flag per config file, in order, and none for other files. */
  lemma {:induction false} ConfigArgsAreConfigFlags(files: seq<CopyEntry>)
    ensures ConcatMap(files, ConfigArg) == ConcatMap(ConfigFiles(files), ConfigFlag)
    decreases |files|
  {
    if files != [] {
      var init, last := files[..|files| - 1], files[|files| - 1];
      ConfigArgsAreConfigFlags(init);
      if last.isBallerinaConf {
        ConcatMapAppend(ConfigFiles(init), [last], ConfigFlag);
        assert [last][..0] == [];
      } else {
        assert ConfigFiles(files) == ConfigFiles(init);
      }
    }
  }

  /** The Dockerfile begins with the header, the base image, the label and the artifact's COPY. */
  lemma DockerfileBeginsWithHeader(m: DockerModel)
    ensures Banner + m.baseImage + MaintainerLabel + m.balxFileName + ArtifactHome <= Dockerfile(m)
  {
    PrefixOfAppend(HeaderText(m), Dockerfile(m)[|HeaderText(m)|..]);
  }

  /** Where the COPY line of the `i`-th file starts. */
  function CopyOffset(m: DockerModel, i: nat): nat
    requires i <= |m.files|
  {
    |HeaderText(m)| + |ConcatMap(m.files[..i], CopyLine)|
  }

  /**
   * Right after the header, the `i`-th file's COPY line (`COPY`, the last element of
   * its source, its target) stands at its offset; each line starts where the previous
   * one ends.
   */
  lemma {:induction false} DockerfileCopyLineAt(m: DockerModel, i: nat)
    requires i < |m.files|
    ensures var d, at, line := Dockerfile(m), CopyOffset(m, i), CopyLine(m.files[i]);
      at + |line| <= |d| && d[at..at + |line|] == line
      && CopyOffset(m, i + 1) == at + |line|
  {
    PieceAt(HeaderText(m), m.files, i, CopyLine, Trailer(m));
  }

  /** Where the text after the COPY lines starts. */
  function CopiesEnd(m: DockerModel): nat {
    |HeaderText(m)| + |ConcatMap(m.files, CopyLine)|
  }

  lemma AfterCopies(m: DockerModel)
    ensures Dockerfile(m)[CopiesEnd(m)..] == Trailer(m)
  {
    var h, c := HeaderText(m), ConcatMap(m.files, CopyLine);
    SuffixOfAppend(h, c + Trailer(m));
    SuffixOfAppend(c, Trailer(m));
    DropDrop(Dockerfile(m), |h|, |c|);
  }

  /**
   * The literal the source appends after the ports is a blank line and the run prefix.
   * Kept apart so that the character-level reasoning stays out of the larger proofs.
   */
  lemma BlankThenRun()
    ensures "\n\n" + RunPrefix == "\n\nCMD ballerina run "
  {
  }

  lemma ExposeLine(m: DockerModel)
    requires ExposesPorts(m)
    ensures var expose := "EXPOSE " + ConcatMap(m.ports, PortToken) + "\n\nCMD ballerina run ";
      expose <= Trailer(m) && "EXPOSE " <= expose
  {
    var e, ports := ExposeClause(m), ConcatMap(m.ports, PortToken);
    var expose := "EXPOSE " + ports + "\n\nCMD ballerina run ";
    Assoc(e, RunPrefix, RunArguments(m));
    Assoc("EXPOSE " + ports, "\n\n", RunPrefix);
    BlankThenRun();
    assert e + RunPrefix == expose;
    PrefixOfAppend(expose, RunArguments(m));
    Assoc("EXPOSE ", ports, "\n\nCMD ballerina run ");
    PrefixOfAppend("EXPOSE ", ports + "\n\nCMD ballerina run ");
  }

  lemma NoExposeLine(m: DockerModel)
    requires !ExposesPorts(m)
    ensures var rest := Trailer(m);
      RunPrefix <= rest && !("EXPOSE " <= rest)
  {
    var tail := RunPrefix + RunArguments(m);
    assert ExposeClause(m) == [];
    AppendEmpty(tail);
    PrefixOfAppend(RunPrefix, RunArguments(m));
    assert tail[0] == RunPrefix[0] != "EXPOSE "[0];
  }

  /**
   * After the COPY lines comes an EXPOSE line exactly when the model is a service
   * with ports; it lists the ports, and the run line follows after a blank line.
   * Otherwise the run line follows the COPY lines directly.
   */
  lemma DockerfileExposeIff(m: DockerModel)
    ensures var rest := Dockerfile(m)[CopiesEnd(m)..];
      && (ExposesPorts(m) <==> "EXPOSE " <= rest)
      && (ExposesPorts(m) ==>
            "EXPOSE " + ConcatMap(m.ports, PortToken) + "\n\nCMD ballerina run " <= rest)
      && (!ExposesPorts(m) ==> RunPrefix <= rest)
  {
    AfterCopies(m);
    var rest := Dockerfile(m)[CopiesEnd(m)..];
    if ExposesPorts(m) {
      ExposeLine(m);
      PrefixTrans("EXPOSE ", "EXPOSE " + ConcatMap(m.ports, PortToken) + "\n\nCMD ballerina run ", rest);
    } else {
      NoExposeLine(m);
    }
  }

  /**
   * The Dockerfile ends with the run line: the fixed command, a `--config` flag per
   * config file in order, `--debug` with the port exactly when debugging is enabled,
   * and the artifact name last.
   */
  lemma DockerfileEndsWithRunLine(m: DockerModel)
    ensures var d := Dockerfile(m);
      var debug := if m.enableDebug then " --debug " + IntToString(m.debugPort) else "";
      var run := RunPrefix + (ConcatMap(ConfigFiles(m.files), ConfigFlag) + debug
        + " " + m.balxFileName + "\n");
      |run| <= |d| && d[|d| - |run|..] == run
  {
    ConfigArgsAreConfigFlags(m.files);
    var h, c, e := HeaderText(m), ConcatMap(m.files, CopyLine), ExposeClause(m);
    var run := RunPrefix + RunArguments(m);
    Assoc(h, c, e + run);
    Assoc(h + c, e, run);
    SuffixOfAppend(h + c + e, run);
  }

  // ----- reading the port list back -----

  /** The length of the leading run of non-space characters. */
  function TokenLength(s: string): (n: nat)
    ensures n <= |s|
  {
    if s == [] || s[0] == ' ' then 0 else 1 + TokenLength(s[1..])
  }

  lemma {:induction false} TokenLengthOfWord(w: string, rest: string)
    requires ' ' !in w
    requires rest == [] || rest[0] == ' '
    ensures TokenLength(w + rest) == |w|
    decreases |w|
  {
    if w != [] {
      assert (w + rest)[1..] == w[1..] + rest;
      TokenLengthOfWord(w[1..], rest);
    } else {
      assert w + rest == rest;
    }
  }

  /** Reads the text after `EXPOSE `: each port is one space followed by its decimal form. */
  function ParsePortList(s: string): Option<seq<int>>
    decreases |s|
  {
    if s == [] then Some([])
    else if s[0] != ' ' then None
    else
      var n := TokenLength(s[1..]);
      match ParseInt(s[1..1 + n])
      case None => None
      case Some(port) =>
        match ParsePortList(s[1 + n..])
        case None => None
        case Some(ports) => Some([port] + ports)
  }

  /** How `ParsePortList` splits a space, a word without spaces, and the rest. */
  lemma {:induction false} SplitToken(w: string, tail: string)
    requires ' ' !in w
    requires tail == [] || tail[0] == ' '
    ensures var s := " " + w + tail;
      s[0] == ' ' && TokenLength(s[1..]) == |w|
      && s[1..1 + |w|] == w && s[1 + |w|..] == tail
  {
    var s := " " + w + tail;
    Assoc(" ", w, tail);
    SuffixOfAppend(" ", w + tail);
    TokenLengthOfWord(w, tail);
    SliceLeft(w, tail, 0, |w|);
    SuffixOfAppend(w, tail);
    DropDrop(s, 1, |w|);
  }

  /** The EXPOSE list names every port once, in order: reading it back gives the ports. */
  lemma {:induction false} PortListRoundTrip(ports: seq<int>)
    ensures ParsePortList(ConcatMap(ports, PortToken)) == Some(ports)
    decreases |ports|
  {
    if ports != [] {
      var port, rest := ports[0], ports[1..];
      assert [port] + rest == ports;
      ConcatMapCons(port, rest, PortToken);
      var w, tail := IntToString(port), ConcatMap(rest, PortToken);
      if rest != [] {
        assert [rest[0]] + rest[1..] == rest;
        ConcatMapCons(rest[0], rest[1..], PortToken);
      }
      IntToStringShape(port);
      SplitToken(w, tail);
      IntToStringRoundTrip(port);
      PortListRoundTrip(rest);
      assert ConcatMap(ports, PortToken) == " " + w + tail;
    }
  }

  // ----- the generator -----

  /** Holds the model it was constructed with; the model is never changed. */
  class DockerArtifactHandler {
    const dockerModel: DockerModel

    constructor (dockerModel: DockerModel)
      ensures this.dockerModel == dockerModel
    {
      this.dockerModel := dockerModel;
    }

    /** Builds the Dockerfile text by appending to one buffer, as the source does. */
    method Generate() returns (content: string)
      ensures content == Dockerfile(dockerModel)
    {
      var m := dockerModel;
      var buffer := HeaderText(m);
      buffer := AppendCopyLines(buffer, m.files);
      buffer := AppendExpose(buffer, m);
      buffer := AppendRunArguments(buffer, m);
      content := buffer;
      var h, c, e := HeaderText(m), ConcatMap(m.files, CopyLine), ExposeClause(m);
      Assoc(h + c + e, RunPrefix, RunArguments(m));
      Assoc(h + c, e, RunPrefix + RunArguments(m));
      Assoc(h, c, e + (RunPrefix + RunArguments(m)));
    }
  }

  /** The EXPOSE line when the model is a service with ports, then the start of the run line. */
  method AppendExpose(buffer: string, m: DockerModel) returns (out: string)
    ensures out == buffer + ExposeClause(m) + RunPrefix
  {
    if m.isService && |m.ports| > 0 {
      out := buffer + "EXPOSE ";
      out := AppendPorts(out, m.ports);
      ghost var listed := out;
      out := out + "\n\nCMD ballerina run ";
      calc {
        out;
        { BlankThenRun(); }
        listed + ("\n\n" + RunPrefix);
        { Assoc(listed, "\n\n", RunPrefix); }
        listed + "\n\n" + RunPrefix;
        { Assoc(buffer, "EXPOSE ", ConcatMap(m.ports, PortToken));
          Assoc(buffer, "EXPOSE " + ConcatMap(m.ports, PortToken), "\n\n"); }
        buffer + ExposeClause(m) + RunPrefix;
      }
    } else {
      out := buffer + "CMD ballerina run ";
      assert ExposeClause(m) == [];
      AppendEmpty(buffer);
    }
  }

  /** The rest of the run line: config flags, the debug flag, the artifact and the newline. */
  method AppendRunArguments(buffer: string, m: DockerModel) returns (out: string)
    ensures out == buffer + RunArguments(m)
  {
    out := AppendConfigFlags(buffer, m.files);
    ghost var run := ConcatMap(m.files, ConfigArg);
    if m.enableDebug {
      var debugPort := IntToString(m.debugPort);
      out := out + (" --debug " + debugPort);
    }
    Assoc(buffer, run, DebugArg(m));
    run := run + DebugArg(m);
    out := out + " ";
    Assoc(buffer, run, " ");
    run := run + " ";
    out := out + m.balxFileName;
    Assoc(buffer, run, m.balxFileName);
    run := run + m.balxFileName;
    out := out + "\n";
    Assoc(buffer, run, "\n");
  }

  /** The first `forEach` over the files: one COPY line per file, in order. */
  method AppendCopyLines(buffer: string, files: seq<CopyEntry>) returns (out: string)
    ensures out == buffer + ConcatMap(files, CopyLine)
  {
    out := buffer;
    for i := 0 to |files|
      invariant out == buffer + ConcatMap(files[..i], CopyLine)
    {
      AppendStep(buffer, files, i, CopyLine);
      var sourceFileName := FileName(files[i].source);
      out := out + ("COPY " + sourceFileName + " " + files[i].target + "\n");
    }
    assert files[..|files|] == files;
  }

  /** The `forEach` over the ports: a space and the port number for each. */
  method AppendPorts(buffer: string, ports: seq<int>) returns (out: string)
    ensures out == buffer + ConcatMap(ports, PortToken)
  {
    out := buffer;
    for j := 0 to |ports|
      invariant out == buffer + ConcatMap(ports[..j], PortToken)
    {
      AppendStep(buffer, ports, j, PortToken);
      var port := IntToString(ports[j]);
      out := out + (" " + port);
    }
    assert ports[..|ports|] == ports;
  }

  /** The second `forEach` over the files: a `--config` flag for each config file. */
  method AppendConfigFlags(buffer: string, files: seq<CopyEntry>) returns (out: string)
    ensures out == buffer + ConcatMap(files, ConfigArg)
  {
    out := buffer;
    for i := 0 to |files|
      invariant out == buffer + ConcatMap(files[..i], ConfigArg)
    {
      AppendStep(buffer, files, i, ConfigArg);
      if files[i].isBallerinaConf {
        out := out + (" --config " + files[i].target);
      } else {
        assert out == out + ConfigArg(files[i]);
      }
    }
    assert files[..|files|] == files;
  }

  /** Generating twice from one handler gives the same text. */
  method GenerateTwice(handler: DockerArtifactHandler) returns (first: string, second: string)
    ensures first == second == Dockerfile(handler.dockerModel)
  {
    first := handler.Generate();
    second := handler.Generate();
  }
}
