/**
 * Request preparation for the capture-website renderer (image.go): the
 * StockImageOptions record, its file naming, the validation and argument
 * building of buildParams, the renderer path selection of GenerateImage, and
 * the renderer's own command-line contract, against which the argument list
 * is checked.
 */
module Image {
  import opened Wrappers
  import opened Strconv
  import opened Widget
  import opened Seqs

  /** The Input value that asks for the generated markup to be fed on standard input. */
  const InlineInput: string := "-"
  /** The only image format the bot produces. */
  const ImageFormat: string := "png"

  const LinuxBinary: string := "/usr/bin/capture-website"
  const DarwinBinary: string := "/usr/local/bin/capture-website"

  /** The value of a StockImageOptions struct. */
  datatype Request = Request(
    Symbol: string,
    Description: string,
    Time: string,
    BinaryPath: string,
    Input: string,
    Output: string,
    Dir: string,
    Html: string,
    Format: string,
    Width: int,
    Height: int,
    Delay: int,
    Overwrite: bool,
    Darkmode: bool,
    TechnicalAnalysis: bool)
  {
    /** The artifact's base name with its extension. */
    function FileName(): string {
      Output + "." + Format
    }

    /** The artifact's path: the directory, a '/', then the file name. */
    function FilePath(): (path: string)
      ensures path == Dir + "/" + FileName()
    {
      Dir + "/" + Output + "." + Format
    }
  }

  /**
   * Within one directory and format, the path names the output: two requests
   * with the same path have the same Output.
   */
  lemma FilePathDeterminesOutput(r1: Request, r2: Request)
    requires r1.Dir == r2.Dir && r1.Format == r2.Format
    requires r1.FilePath() == r2.FilePath()
    ensures r1.Output == r2.Output
  {
    var p := r1.FilePath();
    var start := |r1.Dir| + 1;
    assert |r1.Output| == |r2.Output|;
    assert r1.Output == p[start..start + |r1.Output|] == r2.Output;
  }

  /** The validation failures buildParams reports, in the order it checks for them. */
  datatype ParamError = MissingSymbol | MissingDescription | MissingInput | MissingOutput {
    function Message(): (m: string)
      ensures |m| > 13 && m[..13] == "Must provide "
      ensures this == MissingSymbol ==> m == "Must provide symbol"
      ensures this == MissingDescription ==> m == "Must provide description"
      ensures this == MissingInput ==> m == "Must provide input"
      ensures this == MissingOutput ==> m == "Must provide output"
    {
      match this
      case MissingSymbol => "Must provide symbol"
      case MissingDescription => "Must provide description"
      case MissingInput => "Must provide input"
      case MissingOutput => "Must provide output"
    }

    /** Position of the check in buildParams. */
    function Rank(): nat {
      match this
      case MissingSymbol => 0
      case MissingDescription => 1
      case MissingInput => 2
      case MissingOutput => 3
    }
  }

  /** The error text names the failed check: distinct errors read differently. */
  lemma MessageIdentifiesError(e1: ParamError, e2: ParamError)
    requires e1.Message() == e2.Message()
    ensures e1 == e2
  {
  }

  /** Whether the request lacks the field whose absence e reports. */
  predicate Lacks(r: Request, e: ParamError) {
    match e
    case MissingSymbol => r.Symbol == ""
    case MissingDescription => r.Description == ""
    case MissingInput => r.Input == ""
    case MissingOutput => r.Output == ""
  }

  /**
   * What buildParams ends in: the argument list, a validation error, or the
   * runtime panic of slicing Time[1:] when Time is empty in
   * technical-analysis mode (a crash, not an error return).
   */
  datatype BuildResult = Args(args: seq<string>) | Failed(err: ParamError) | Panicked

  /** Whether building reaches the slice Time[1:] with an empty Time. */
  predicate SlicesEmptyTime(r: Request, technicalAnalysis: bool) {
    r.Symbol != "" && r.Description != "" && technicalAnalysis && r.Time == ""
  }

  /** The markup buildParams generates: the detail widget in technical-analysis mode, the overview otherwise. */
  function WidgetHtml(r: Request, technicalAnalysis: bool): string
    requires technicalAnalysis ==> r.Time != ""
  {
    if technicalAnalysis then DetailWidget(r.Symbol, r.Time[1..])
    else OverviewWidget(r.Description, r.Symbol, r.Time)
  }

  /** A numeric option: the flag and the value's decimal form, omitted when the value is 0. */
  function NumericOption(flag: string, value: int): seq<string> {
    if value != 0 then [flag, Itoa(value)] else []
  }

  /** A switch: the flag alone, omitted when off. */
  function SwitchOption(flag: string, on: bool): seq<string> {
    if on then [flag] else []
  }

  /** Everything buildParams passes before --output, in its order. */
  function OptionArgs(r: Request): seq<string> {
    NumericOption("--height", r.Height)
    + NumericOption("--width", r.Width)
    + NumericOption("--delay", r.Delay)
    + SwitchOption("--overwrite", r.Overwrite)
    + SwitchOption("--dark-mode", r.Darkmode)
  }

  /** What buildParams returns for a request. */
  function BuildArgs(r: Request, technicalAnalysis: bool): BuildResult {
    if r.Symbol == "" then Failed(MissingSymbol)
    else if r.Description == "" then Failed(MissingDescription)
    else if technicalAnalysis && r.Time == "" then Panicked
    else if r.Input == "" then Failed(MissingInput)
    else if r.Output == "" then Failed(MissingOutput)
    else Args(OptionArgs(r) + ["--output", r.(Format := ImageFormat).FilePath()])
  }

  /** The request as buildParams leaves it. */
  function BuildState(r: Request, technicalAnalysis: bool): Request {
    var formatted := r.(Format := ImageFormat);
    if r.Symbol == "" || r.Description == "" || (technicalAnalysis && r.Time == "") then formatted
    else
      var rendered := formatted.(Html := WidgetHtml(r, technicalAnalysis));
      if r.Input == "" || r.Input == InlineInput then rendered else rendered.(Html := "")
  }

  /** The checks fail in a fixed order and the first one that fails decides the outcome. */
  lemma ErrorPrecedence(r: Request, technicalAnalysis: bool)
    ensures BuildArgs(r, technicalAnalysis).Failed? ==>
      var e := BuildArgs(r, technicalAnalysis).err;
      Lacks(r, e) && forall e': ParamError :: e'.Rank() < e.Rank() ==> !Lacks(r, e')
    ensures BuildArgs(r, technicalAnalysis).Panicked? <==> SlicesEmptyTime(r, technicalAnalysis)
    ensures BuildArgs(r, technicalAnalysis).Args? <==>
      (forall e: ParamError :: !Lacks(r, e)) && !SlicesEmptyTime(r, technicalAnalysis)
    ensures Lacks(r, MissingSymbol) || Lacks(r, MissingDescription) ==> BuildArgs(r, technicalAnalysis).Failed?
  {
    if BuildArgs(r, technicalAnalysis).Failed? {
      var e := BuildArgs(r, technicalAnalysis).err;
      forall e': ParamError | e'.Rank() < e.Rank() ensures !Lacks(r, e') {
        match e'
        case MissingSymbol =>
        case MissingDescription =>
        case MissingInput =>
        case MissingOutput =>
      }
    }
    if !BuildArgs(r, technicalAnalysis).Args? {
      assert Lacks(r, MissingSymbol) || Lacks(r, MissingDescription) || Lacks(r, MissingInput)
          || Lacks(r, MissingOutput) || SlicesEmptyTime(r, technicalAnalysis);
    }
  }

  /**
   * buildParams always sets Format to "png", may set Html, and touches no other
   * field. Once the Input check is passed, Html is empty for any Input other
   * than the inline marker and holds the widget markup for the inline marker;
   * the Input check itself fails after the markup is written.
   */
  lemma BuildStateFrame(r: Request, technicalAnalysis: bool)
    ensures var s := BuildState(r, technicalAnalysis);
      s.Format == ImageFormat && s == r.(Format := ImageFormat, Html := s.Html)
    ensures var b := BuildArgs(r, technicalAnalysis);
      b == Failed(MissingSymbol) || b == Failed(MissingDescription) || b == Panicked ==>
      BuildState(r, technicalAnalysis).Html == r.Html
    ensures BuildArgs(r, technicalAnalysis) == Failed(MissingInput) ==>
      BuildState(r, technicalAnalysis).Html == WidgetHtml(r, technicalAnalysis)
    ensures BuildArgs(r, technicalAnalysis).Args? || BuildArgs(r, technicalAnalysis) == Failed(MissingOutput) ==>
      && (r.Input != InlineInput ==> BuildState(r, technicalAnalysis).Html == "")
      && (r.Input == InlineInput ==> BuildState(r, technicalAnalysis).Html == WidgetHtml(r, technicalAnalysis))
  {
    if r.Symbol == "" || r.Description == "" || (technicalAnalysis && r.Time == "") {
      assert BuildState(r, technicalAnalysis) == r.(Format := ImageFormat);
    } else {
      var rendered := r.(Format := ImageFormat, Html := WidgetHtml(r, technicalAnalysis));
      if r.Input == "" || r.Input == InlineInput {
        assert BuildState(r, technicalAnalysis) == rendered;
      } else {
        assert BuildState(r, technicalAnalysis) == rendered.(Html := "");
      }
    }
  }

  /**
   * Where the request's fields land in the inline markup: in overview mode the
   * first slot gets Symbol and the second Description immediately followed by
   * Time (the template is filled in swapped order); in technical-analysis mode
   * the range slot gets Time without exactly its first character.
   */
  lemma WidgetSlots(r: Request, technicalAnalysis: bool)
    requires technicalAnalysis ==> r.Time != ""
    ensures !technicalAnalysis ==>
      WidgetHtml(r, technicalAnalysis) == OverviewHead + r.Symbol + OverviewMid + r.Description + r.Time + OverviewTail
    ensures technicalAnalysis ==>
      exists range: string :: r.Time == [r.Time[0]] + range
        && WidgetHtml(r, technicalAnalysis) == DetailHead + r.Symbol + DetailMid + range + DetailTail
    ensures |WidgetHtml(r, technicalAnalysis)| > 0
  {
    if technicalAnalysis {
      var range := r.Time[1..];
      assert r.Time == [r.Time[0]] + range;
      DetailLayout(r.Symbol, range);
    } else {
      OverviewLayout(r.Description, r.Symbol, r.Time);
    }
  }

  /** The renderer's reading of its command line: the options it was given, with 0 and false for those left out. */
  datatype Capture = Capture(Height: int, Width: int, Delay: int, Overwrite: bool, DarkMode: bool, Output: string)

  /** An optional "flag N" pair at the front; 0 when the flag is absent, an error when N is not a number. */
  function TakeNumber(flag: string, args: seq<string>): Option<(int, seq<string>)> {
    if |args| > 0 && args[0] == flag then
      if |args| >= 2 then
        match Atoi(args[1])
        case Some(n) => Some((n, args[2..]))
        case None => None
      else None
    else Some((0, args))
  }

  /** An optional switch at the front. */
  function TakeSwitch(flag: string, args: seq<string>): (bool, seq<string>) {
    if |args| > 0 && args[0] == flag then (true, args[1..]) else (false, args)
  }

  /**
   * The renderer's flag contract, read strictly in the order
   * [--height N] [--width N] [--delay N] [--overwrite] [--dark-mode] --output PATH.
   */
  function ParseCapture(args: seq<string>): Option<Capture> {
    var (height, a1) :- TakeNumber("--height", args);
    var (width, a2) :- TakeNumber("--width", a1);
    var (delay, a3) :- TakeNumber("--delay", a2);
    var (overwrite, a4) := TakeSwitch("--overwrite", a3);
    var (darkMode, a5) := TakeSwitch("--dark-mode", a4);
    if |a5| == 2 && a5[0] == "--output" then Some(Capture(height, width, delay, overwrite, darkMode, a5[1]))
    else None
  }

  lemma TakeNumberOption(flag: string, value: int, rest: seq<string>)
    requires |rest| > 0 && rest[0] != flag
    ensures TakeNumber(flag, NumericOption(flag, value) + rest) == Some((value, rest))
  {
    if value != 0 {
      var a := NumericOption(flag, value) + rest;
      assert a[0] == flag && a[1] == Itoa(value) && a[2..] == rest;
      ItoaRoundTrip(value);
    } else {
      assert NumericOption(flag, value) + rest == rest;
    }
  }

  lemma TakeSwitchOption(flag: string, on: bool, rest: seq<string>)
    requires |rest| > 0 && rest[0] != flag
    ensures TakeSwitch(flag, SwitchOption(flag, on) + rest) == (on, rest)
  {
    if on {
      assert (SwitchOption(flag, on) + rest)[1..] == rest;
    } else {
      assert SwitchOption(flag, on) + rest == rest;
    }
  }

  /**
   * The renderer reads back from a successful buildParams exactly the
   * request's height, width, delay, overwrite and dark-mode settings and its
   * file path: nothing is lost, reordered or misattributed.
   */
  lemma ArgsRoundTrip(r: Request, technicalAnalysis: bool)
    requires BuildArgs(r, technicalAnalysis).Args?
    ensures ParseCapture(BuildArgs(r, technicalAnalysis).args)
         == Some(Capture(r.Height, r.Width, r.Delay, r.Overwrite, r.Darkmode, r.(Format := ImageFormat).FilePath()))
  {
    var path := r.(Format := ImageFormat).FilePath();
    var a5 := ["--output", path];
    var a4 := SwitchOption("--dark-mode", r.Darkmode) + a5;
    var a3 := SwitchOption("--overwrite", r.Overwrite) + a4;
    var a2 := NumericOption("--delay", r.Delay) + a3;
    var a1 := NumericOption("--width", r.Width) + a2;
    var a0 := NumericOption("--height", r.Height) + a1;
    Regroup6(NumericOption("--height", r.Height), NumericOption("--width", r.Width),
             NumericOption("--delay", r.Delay), SwitchOption("--overwrite", r.Overwrite),
             SwitchOption("--dark-mode", r.Darkmode), a5);
    assert BuildArgs(r, technicalAnalysis).args == a0;
    TakeSwitchOption("--dark-mode", r.Darkmode, a5);
    TakeSwitchOption("--overwrite", r.Overwrite, a4);
    TakeNumberOption("--delay", r.Delay, a3);
    TakeNumberOption("--width", r.Width, a2);
    TakeNumberOption("--height", r.Height, a1);
  }

  /** The flags of the renderer's contract that buildParams emits. */
  const Flags: set<string> := {"--height", "--width", "--delay", "--overwrite", "--dark-mode", "--output"}

  function Indicator(b: bool): nat {
    if b then 1 else 0
  }

  /** A decimal rendering is never mistaken for a flag. */
  lemma ItoaIsNoFlag(n: int)
    ensures Itoa(n) !in Flags
  {
    var s := Itoa(n);
    if |s| >= 2 {
      assert IsDigit(s[1]);
    }
  }

  /** A file path always has a '/', which no flag has, so it is never mistaken for one. */
  lemma FilePathIsNoFlag(r: Request)
    ensures r.FilePath() !in Flags
  {
    var p := r.FilePath();
    assert p[|r.Dir|] == '/';
    forall f | f in Flags ensures '/' !in f { }
  }

  lemma FlagInNumericOption(f: string, flag: string, value: int)
    requires f in Flags
    ensures f in NumericOption(flag, value) <==> value != 0 && f == flag
  {
    ItoaIsNoFlag(value);
  }

  /** Which flags a successful argument list contains. */
  lemma FlagsInArgs(r: Request, technicalAnalysis: bool, f: string)
    requires BuildArgs(r, technicalAnalysis).Args? && f in Flags
    ensures f in BuildArgs(r, technicalAnalysis).args <==>
      || (f == "--height" && r.Height != 0)
      || (f == "--width" && r.Width != 0)
      || (f == "--delay" && r.Delay != 0)
      || (f == "--overwrite" && r.Overwrite)
      || (f == "--dark-mode" && r.Darkmode)
      || f == "--output"
  {
    var path := r.(Format := ImageFormat).FilePath();
    FilePathIsNoFlag(r.(Format := ImageFormat));
    FlagInNumericOption(f, "--height", r.Height);
    FlagInNumericOption(f, "--width", r.Width);
    FlagInNumericOption(f, "--delay", r.Delay);
    assert f in ["--output", path] <==> f == "--output";
  }

  /**
   * The shape of a successful argument list: two entries for each non-zero
   * numeric option, one for each switch that is on, and it ends with
   * "--output" and the file path; each flag occurs exactly when its option is set.
   */
  lemma ArgsShape(r: Request, technicalAnalysis: bool)
    requires BuildArgs(r, technicalAnalysis).Args?
    ensures var args := BuildArgs(r, technicalAnalysis).args;
      && |args| == 2 * (Indicator(r.Height != 0) + Indicator(r.Width != 0) + Indicator(r.Delay != 0))
                   + Indicator(r.Overwrite) + Indicator(r.Darkmode) + 2
      && args[|args| - 2..] == ["--output", r.(Format := ImageFormat).FilePath()]
      && ("--height" in args <==> r.Height != 0)
      && ("--width" in args <==> r.Width != 0)
      && ("--delay" in args <==> r.Delay != 0)
      && ("--overwrite" in args <==> r.Overwrite)
      && ("--dark-mode" in args <==> r.Darkmode)
  {
    FlagsInArgs(r, technicalAnalysis, "--height");
    FlagsInArgs(r, technicalAnalysis, "--width");
    FlagsInArgs(r, technicalAnalysis, "--delay");
    FlagsInArgs(r, technicalAnalysis, "--overwrite");
    FlagsInArgs(r, technicalAnalysis, "--dark-mode");
  }

  /**
   * The renderer executable GenerateImage runs: the configured BinaryPath when
   * there is one, otherwise the default for the host platform (runtime.GOOS,
   * here the parameter goos), and None for a platform with no default.
   */
  function ResolveBinaryPath(configured: string, goos: string): (path: Option<string>)
    ensures configured != "" ==> path == Some(configured)
    ensures configured == "" && goos == "linux" ==> path == Some(LinuxBinary)
    ensures configured == "" && goos == "darwin" ==> path == Some(DarwinBinary)
    ensures path.None? <==> configured == "" && goos != "linux" && goos != "darwin"
    ensures path.Some? ==> path.value != ""
  {
    if configured != "" then Some(configured)
    else if goos == "linux" then Some(LinuxBinary)
    else if goos == "darwin" then Some(DarwinBinary)
    else None
  }

  /** Once resolved, the path stays as it is on every later resolution, on any platform. */
  lemma ResolveIsStable(configured: string, goos: string, laterGoos: string)
    requires ResolveBinaryPath(configured, goos).Some?
    ensures ResolveBinaryPath(ResolveBinaryPath(configured, goos).value, laterGoos) == ResolveBinaryPath(configured, goos)
  {
  }

  /** The error text GenerateImage returns for a platform with no default renderer. */
  function UnsupportedOSMessage(goos: string): string {
    "Not support this OS: " + goos
  }

  /** The renderer process GenerateImage would start: executable, arguments and, for inline markup, standard input. */
  datatype Command = Command(Path: string, Args: seq<string>, Stdin: Option<string>)

  /** What GenerateImage does before the process runs: start it, or stop with a build failure or an unsupported platform. */
  datatype GenerateResult = Spawn(cmd: Command) | Rejected(failure: BuildResult) | UnsupportedOS(message: string)

  function Generate(r: Request, goos: string): GenerateResult {
    var built := BuildArgs(r, r.TechnicalAnalysis);
    if !built.Args? then Rejected(built)
    else
      var s := BuildState(r, r.TechnicalAnalysis);
      match ResolveBinaryPath(s.BinaryPath, goos)
      case None => UnsupportedOS(UnsupportedOSMessage(goos))
      case Some(path) => Spawn(Command(path, built.args, if s.Html != "" then Some(s.Html) else None))
  }

  /** The request as GenerateImage leaves it (before the process runs). */
  function GenerateState(r: Request, goos: string): Request {
    var s := BuildState(r, r.TechnicalAnalysis);
    var path := ResolveBinaryPath(s.BinaryPath, goos);
    if BuildArgs(r, r.TechnicalAnalysis).Args? && path.Some? then s.(BinaryPath := path.value) else s
  }

  /**
   * GenerateImage reports a buildParams failure before it looks at the
   * renderer path; it rejects an unsupported platform only when no path is
   * configured; and the process it starts gets the arguments of buildParams
   * and the widget markup on standard input exactly when Input is the inline
   * marker. Only BinaryPath changes beyond what buildParams changes.
   */
  lemma GenerateSteps(r: Request, goos: string)
    ensures var built := BuildArgs(r, r.TechnicalAnalysis);
      !built.Args? ==> Generate(r, goos) == Rejected(built) && GenerateState(r, goos).BinaryPath == r.BinaryPath
    ensures Generate(r, goos).UnsupportedOS? <==>
      BuildArgs(r, r.TechnicalAnalysis).Args? && r.BinaryPath == "" && goos != "linux" && goos != "darwin"
    ensures var s := BuildState(r, r.TechnicalAnalysis);
      GenerateState(r, goos) == s.(BinaryPath := GenerateState(r, goos).BinaryPath)
    ensures Generate(r, goos).Spawn? ==>
      var cmd := Generate(r, goos).cmd;
      && cmd.Path != "" && cmd.Path == GenerateState(r, goos).BinaryPath
      && (r.BinaryPath != "" ==> cmd.Path == r.BinaryPath)
      && BuildArgs(r, r.TechnicalAnalysis) == Args(cmd.Args)
      && (cmd.Stdin.Some? <==> r.Input == InlineInput)
      && (cmd.Stdin.Some? ==> cmd.Stdin.value == WidgetHtml(r, r.TechnicalAnalysis))
  {
    BuildStateFrame(r, r.TechnicalAnalysis);
    if BuildArgs(r, r.TechnicalAnalysis).Args? {
      WidgetSlots(r, r.TechnicalAnalysis);
    }
  }
}
