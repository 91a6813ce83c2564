/** The SVG conversion script: every `.svg` entry of the images directory is rendered to a PNG of
    the same base name in the same directory; a rendering error skips that file only. */
module ConvertSvgs {
  import opened Wrappers
  import opened Seqs
  import opened Files

  /** The settings the script passes to the renderer: fit within 1024x768 on an opaque white
      background, PNG quality 90. */
  datatype RenderOptions = RenderOptions(
    width: nat, height: nat, fit: string,
    red: nat, green: nat, blue: nat, alpha: nat,
    quality: nat)

  const Options: RenderOptions := RenderOptions(1024, 768, "contain", 255, 255, 255, 1, 90)

  /** The images directory, reading a file (which raises for an unreadable one) and the
      renderer (which raises on an SVG it cannot convert). */
  datatype Env = Env(
    dir: string,
    read: Path -> Result<Bytes, string>,
    render: (RenderOptions, Bytes) -> Result<Bytes, string>)

  /** What happens to one file. */
  datatype FileStatus =
    | Converted(input: Path, output: Path)     // the PNG was saved
    | ConvertError(file: string, message: string)    // caught and logged; the next file follows
    | Unreadable(file: string, message: string)      // raised outside the try: the run stops

  /** A run of the script: aborted with an exit code before converting anything, or the
      per-file statuses of the files it got to. */
  datatype Run = Aborted(exitCode: int) | Ran(report: seq<FileStatus>)

  predicate EndsWith(s: string, suffix: string)
  {
    |suffix| <= |s| && s[|s| - |suffix|..] == suffix
  }

  /** `readdirSync(dir).filter(f => f.endsWith('.svg'))` */
  function SvgFiles(names: seq<string>): (files: seq<string>)
    ensures forall f :: f in files <==> f in names && EndsWith(f, ".svg")
    ensures |files| <= |names|
  {
    if names == [] then []
    else (if EndsWith(names[0], ".svg") then [names[0]] else []) + SvgFiles(names[1..])
  }

  /** The filter keeps the order of the directory listing: filtering two parts of a listing and
      concatenating the results is filtering the whole. */
  lemma {:induction false} SvgFilesAppend(a: seq<string>, b: seq<string>)
    ensures SvgFiles(a + b) == SvgFiles(a) + SvgFiles(b)
  {
    if a == [] {
      assert a + b == b;
    } else {
      assert (a + b)[1..] == a[1..] + b;
      SvgFilesAppend(a[1..], b);
    }
  }

  /** `f.replace(/\.svg$/, '') + '.png'`: a trailing ".svg" is dropped (only at the very end)
      and ".png" appended. */
  function OutputName(f: string): (out: string)
    ensures EndsWith(out, ".png")
    ensures EndsWith(f, ".svg") ==> out == f[..|f| - 4] + ".png"
    ensures !EndsWith(f, ".svg") ==> out == f + ".png"
  {
    (if EndsWith(f, ".svg") then f[..|f| - 4] else f) + ".png"
  }

  /** An input `x.svg` gives `x.png`. */
  lemma OutputNameOfSvg(x: string)
    ensures OutputName(x + ".svg") == x + ".png"
  {
  }

  /** Distinct SVG files get distinct PNG names, so no conversion overwrites another's output. */
  lemma OutputNamesDistinct(a: string, b: string)
    requires EndsWith(a, ".svg") && EndsWith(b, ".svg")
    requires OutputName(a) == OutputName(b)
    ensures a == b
  {
  }

  /** The status of one file and the files written for it. */
  datatype FileRun = FileRun(status: FileStatus, writes: seq<FileWrite>)

  /** The reference definition of one iteration of `convert`. */
  function ConvertFile(env: Env, faults: map<Path, string>, f: string): FileRun
  {
    var inPath := Path(env.dir, f);
    var outPath := Path(env.dir, OutputName(f));
    match env.read(inPath)
    case Err(message) => FileRun(Unreadable(f, message), [])
    case Ok(svg) =>
      match env.render(Options, svg)
      case Err(message) => FileRun(ConvertError(f, message), [])
      case Ok(png) =>
        match WriteFault(faults, outPath)
        case Some(message) => FileRun(ConvertError(f, message), [])
        case None => FileRun(Converted(inPath, outPath), [FileWrite(outPath, png)])
  }

  /** At most one file is written for `f`: its PNG, beside it in the same directory, and only when
      the file reads, renders and is saved. */
  lemma ConvertFileProperties(env: Env, faults: map<Path, string>, f: string)
    ensures ConvertFile(env, faults, f).writes != [] <==> ConvertFile(env, faults, f).status.Converted?
    ensures ConvertFile(env, faults, f).status.Converted? ==>
      var s := ConvertFile(env, faults, f).status;
      s.input == Path(env.dir, f) && s.output == Path(env.dir, OutputName(f))
      && s.output.dir == s.input.dir
      && env.read(s.input).Ok? && env.render(Options, env.read(s.input).value).Ok?
      && ConvertFile(env, faults, f).writes
         == [FileWrite(s.output, env.render(Options, env.read(s.input).value).value)]
    ensures ConvertFile(env, faults, f).status.Unreadable? <==> env.read(Path(env.dir, f)).Err?
  {
  }

  /** The file a status is about. */
  function FileOf(s: FileStatus): string
  {
    match s
    case Converted(input, _) => input.name
    case ConvertError(file, _) => file
    case Unreadable(file, _) => file
  }

  datatype Conversion = Conversion(report: seq<FileStatus>, writes: seq<FileWrite>)

  /** The reference definition of `convert` over `files`: one file after another, stopping after
      a file that cannot be read. */
  function ConvertFrom(env: Env, faults: map<Path, string>, files: seq<string>): Conversion
  {
    if files == [] then Conversion([], [])
    else
      var first := ConvertFile(env, faults, files[0]);
      if first.status.Unreadable? then Conversion([first.status], [])
      else
        var rest := ConvertFrom(env, faults, files[1..]);
        Conversion([first.status] + rest.report, first.writes + rest.writes)
  }

  /** The files are attempted in order, one status each; a conversion error does not stop the
      run, only an unreadable file does, and then it is the last one attempted. */
  lemma {:induction false} ConvertFromProperties(env: Env, faults: map<Path, string>, files: seq<string>)
    ensures var c := ConvertFrom(env, faults, files);
      |c.report| <= |files|
      && (forall i :: 0 <= i < |c.report| ==> FileOf(c.report[i]) == files[i])
      && (forall i :: 0 <= i < |c.report| - 1 ==> !c.report[i].Unreadable?)
      && (|c.report| < |files| ==> |c.report| > 0 && c.report[|c.report| - 1].Unreadable?)
    ensures (forall i :: 0 <= i < |files| ==> env.read(Path(env.dir, files[i])).Ok?) ==>
      |ConvertFrom(env, faults, files).report| == |files|
  {
    if files != [] {
      ConvertFromProperties(env, faults, files[1..]);
      var first := ConvertFile(env, faults, files[0]);
      ConvertFileProperties(env, faults, files[0]);
      if !first.status.Unreadable? {
        assert forall i :: 1 <= i < |files| ==> files[i] == files[1..][i - 1];
      }
    }
  }

  /** Status i of a run is the outcome of converting file i on its own: the run adds nothing to
      a file's result but the decision to go on. */
  lemma {:induction false} ConvertFromStatuses(env: Env, faults: map<Path, string>, files: seq<string>)
    ensures var c := ConvertFrom(env, faults, files);
      |c.report| <= |files|
      && forall i :: 0 <= i < |c.report| ==> c.report[i] == ConvertFile(env, faults, files[i]).status
  {
    if files != [] && !ConvertFile(env, faults, files[0]).status.Unreadable? {
      ConvertFromStatuses(env, faults, files[1..]);
      var c, rest := ConvertFrom(env, faults, files), ConvertFrom(env, faults, files[1..]);
      forall i | 1 <= i < |c.report|
        ensures c.report[i] == ConvertFile(env, faults, files[i]).status
      {
        assert c.report[i] == rest.report[i - 1];
        assert files[i] == files[1..][i - 1];
      }
    }
  }

  /** `w` is the PNG of `f`: the derived name beside it, holding the renderer's output for the
      file's contents. */
  predicate RenderedWrite(env: Env, f: string, w: FileWrite)
  {
    var svg := env.read(Path(env.dir, f));
    svg.Ok? && env.render(Options, svg.value).Ok?
    && w == FileWrite(Path(env.dir, OutputName(f)), env.render(Options, svg.value).value)
  }

  /** Every PNG written is the output of a converted SVG from the list, in the same directory,
      and holds what the renderer made of that SVG's contents. */
  lemma {:induction false} ConvertWritesOnlyConverted(env: Env, faults: map<Path, string>, files: seq<string>, w: FileWrite)
    requires w in ConvertFrom(env, faults, files).writes
    ensures exists i :: (0 <= i < |files| && ConvertFile(env, faults, files[i]).status.Converted?
      && RenderedWrite(env, files[i], w))
  {
    var first := ConvertFile(env, faults, files[0]);
    ConvertFileProperties(env, faults, files[0]);
    if w in first.writes {
      assert RenderedWrite(env, files[0], w);
    } else {
      ConvertWritesOnlyConverted(env, faults, files[1..], w);
      var i :| 0 <= i < |files[1..]| && ConvertFile(env, faults, files[1..][i]).status.Converted?
        && RenderedWrite(env, files[1..][i], w);
      assert files[1..][i] == files[i + 1];
    }
  }

  lemma ConvertFromStep(env: Env, faults: map<Path, string>, files: seq<string>, i: nat)
    requires i < |files|
    ensures var first := ConvertFile(env, faults, files[i]);
      var rest := ConvertFrom(env, faults, files[i + 1..]);
      ConvertFrom(env, faults, files[i..])
      == if first.status.Unreadable? then Conversion([first.status], [])
         else Conversion([first.status] + rest.report, first.writes + rest.writes)
  {
  }

  /** One turn of the loop of `convert` on values: `total` splits into the statuses and writes
      so far and `cur`, the conversion from the current file on, which is `run` followed by `rest`
      unless `run` ends it. */
  lemma Advance(total: Conversion, report: seq<FileStatus>, written: seq<FileWrite>,
                cur: Conversion, run: FileRun, rest: Conversion)
    requires total.report == report + cur.report && total.writes == written + cur.writes
    requires cur == if run.status.Unreadable? then Conversion([run.status], [])
                    else Conversion([run.status] + rest.report, run.writes + rest.writes)
    ensures run.status.Unreadable? ==> total.report == report + [run.status] && total.writes == written
    ensures !run.status.Unreadable? ==>
      total.report == (report + [run.status]) + rest.report
      && total.writes == (written + run.writes) + rest.writes
  {
  }

  /** The body of the loop for one file. */
  method ConvertOne(disk: Disk, env: Env, f: string) returns (status: FileStatus)
    modifies disk
    ensures status == ConvertFile(env, disk.faults, f).status
    ensures disk.log == old(disk.log) + ConvertFile(env, disk.faults, f).writes
  {
    var inPath := Path(env.dir, f);
    var outName := OutputName(f);
    var outPath := Path(env.dir, outName);
    var svg := env.read(inPath);
    if svg.Err? {
      return Unreadable(f, svg.error);
    }
    var png := env.render(Options, svg.value);
    if png.Err? {
      return ConvertError(f, png.error);
    }
    var writeErr := disk.WriteBytes(outPath, png.value);
    if writeErr.Some? {
      return ConvertError(f, writeErr.value);
    }
    return Converted(inPath, outPath);
  }

  /** `convert`: each file in order, until one cannot be read. */
  method Convert(disk: Disk, env: Env, files: seq<string>) returns (report: seq<FileStatus>)
    modifies disk
    ensures report == ConvertFrom(env, disk.faults, files).report
    ensures disk.log == old(disk.log) + ConvertFrom(env, disk.faults, files).writes
  {
    ghost var faults := disk.faults;
    ghost var total := ConvertFrom(env, faults, files);
    ghost var written: seq<FileWrite> := [];
    report := [];
    for i := 0 to |files|
      invariant total.report == report + ConvertFrom(env, faults, files[i..]).report
      invariant total.writes == written + ConvertFrom(env, faults, files[i..]).writes
      invariant disk.log == old(disk.log) + written
    {
      ghost var run := ConvertFile(env, faults, files[i]);
      ConvertFromStep(env, faults, files, i);
      Advance(total, report, written, ConvertFrom(env, faults, files[i..]), run, ConvertFrom(env, faults, files[i + 1..]));
      var status := ConvertOne(disk, env, files[i]);
      report := report + [status];
      if status.Unreadable? {
        return;
      }
      written := written + run.writes;
    }
    assert files[|files|..] == [];
  }

  /** The whole script once the directory is listed: no `.svg` entry aborts with exit code 1
      before any conversion; otherwise the SVG files are converted in listing order. */
  method RunScript(disk: Disk, env: Env, names: seq<string>) returns (run: Run)
    modifies disk
    ensures SvgFiles(names) == [] ==> run == Aborted(1) && disk.log == old(disk.log)
    ensures SvgFiles(names) != [] ==>
      run == Ran(ConvertFrom(env, disk.faults, SvgFiles(names)).report)
      && disk.log == old(disk.log) + ConvertFrom(env, disk.faults, SvgFiles(names)).writes
  {
    var files := SvgFiles(names);
    if |files| == 0 {
      return Aborted(1);
    }
    var report := Convert(disk, env, files);
    run := Ran(report);
  }
}
