/**
 * The mutable StockImageOptions struct of image.go and the two operations
 * that update it in place: buildParams (written here as a method of the
 * object it receives a pointer to) and GenerateImage up to the point where
 * the renderer process is started.
 */
module ImageOptions {
  import opened Wrappers
  import opened Strconv
  import opened Widget
  import opened Image

  class StockImageOptions {
    var Symbol: string
    var Description: string
    var Time: string
    /** The capture-website executable; resolved from the platform when empty. */
    var BinaryPath: string
    var Input: string
    var Output: string
    var Dir: string
    var Html: string
    var Format: string
    var Width: int
    var Height: int
    var Delay: int
    var Overwrite: bool
    var Darkmode: bool
    var TechnicalAnalysis: bool

    /** The struct's current value. */
    function Value(): Request
      reads this
    {
      Request(Symbol, Description, Time, BinaryPath, Input, Output, Dir, Html, Format,
              Width, Height, Delay, Overwrite, Darkmode, TechnicalAnalysis)
    }

    /** A struct literal. */
    constructor (r: Request)
      ensures Value() == r
    {
      Symbol, Description, Time, BinaryPath := r.Symbol, r.Description, r.Time, r.BinaryPath;
      Input, Output, Dir, Html, Format := r.Input, r.Output, r.Dir, r.Html, r.Format;
      Width, Height, Delay := r.Width, r.Height, r.Delay;
      Overwrite, Darkmode, TechnicalAnalysis := r.Overwrite, r.Darkmode, r.TechnicalAnalysis;
    }

    /**
     * buildParams: sets Format, validates, writes the widget markup into Html,
     * and then builds the argument list (ArgumentList).
     */
    method BuildParams(technicalAnalysis: bool) returns (result: BuildResult)
      modifies this`Format, this`Html
      ensures result == BuildArgs(old(Value()), technicalAnalysis)
      ensures Value() == BuildState(old(Value()), technicalAnalysis)
    {
      ghost var r := Value();
      Format := ImageFormat;
      assert Value() == r.(Format := ImageFormat);
      if Symbol == "" {
        return Failed(MissingSymbol);
      }
      if Description == "" {
        return Failed(MissingDescription);
      }
      if technicalAnalysis {
        if Time == "" {
          // Time[1:] of an empty string: a runtime panic.
          return Panicked;
        }
        Html := DetailWidget(Symbol, Time[1..]);
      } else {
        Html := OverviewWidget(Description, Symbol, Time);
      }
      assert Value() == r.(Format := ImageFormat, Html := WidgetHtml(r, technicalAnalysis));
      if Input == "" {
        return Failed(MissingInput);
      }
      result := ArgumentList();
    }

    /**
     * The second half of buildParams, once Input is known to be non-empty: the
     * option arguments, the clearing of Html for a remote Input, and the
     * --output check and arguments.
     */
    method ArgumentList() returns (result: BuildResult)
      requires Input != ""
      modifies this`Html
      ensures var r := old(Value());
        result == if Output == "" then Failed(MissingOutput)
                  else Args(OptionArgs(r) + ["--output", r.FilePath()])
      ensures Value() == old(Value()).(Html := if Input != InlineInput then "" else old(Html))
    {
      ghost var r := Value();
      var a: seq<string> := [];
      var options := OptionArguments();
      a := a + options;
      assert a == OptionArgs(r);
      // A remote Input is fetched by the renderer itself: no markup then.
      if Input != InlineInput {
        Html := "";
      }
      if Output == "" {
        return Failed(MissingOutput);
      }
      var path := Value().FilePath();
      assert path == r.FilePath();
      a := a + ["--output"];
      a := a + [path];
      assert a == OptionArgs(r) + ["--output", path];
      return Args(a);
    }

    /**
     * The appends of buildParams from --height to --dark-mode: each numeric
     * option as a flag and its decimal value when non-zero, each switch when on.
     */
    method OptionArguments() returns (a: seq<string>)
      ensures a == OptionArgs(Value())
    {
      a := [];
      if Height != 0 {
        a := a + ["--height"];
        a := a + [Itoa(Height)];
      }
      ghost var numeric := NumericOption("--height", Height);
      assert a == numeric;
      if Width != 0 {
        a := a + ["--width"];
        a := a + [Itoa(Width)];
      }
      numeric := numeric + NumericOption("--width", Width);
      assert a == numeric;
      if Delay != 0 {
        a := a + ["--delay"];
        a := a + [Itoa(Delay)];
      }
      numeric := numeric + NumericOption("--delay", Delay);
      assert a == numeric;
      if Overwrite {
        a := a + ["--overwrite"];
      }
      numeric := numeric + SwitchOption("--overwrite", Overwrite);
      assert a == numeric;
      if Darkmode {
        a := a + ["--dark-mode"];
      }
      numeric := numeric + SwitchOption("--dark-mode", Darkmode);
      assert a == numeric;
    }

    /**
     * GenerateImage up to starting the renderer: builds the arguments, fills
     * in the platform's default BinaryPath when none is configured, and
     * returns the process it would start.
     */
    method GenerateImage(goos: string) returns (result: GenerateResult)
      modifies this
      ensures result == Generate(old(Value()), goos)
      ensures Value() == GenerateState(old(Value()), goos)
    {
      var built := BuildParams(TechnicalAnalysis);
      if !built.Args? {
        return Rejected(built);
      }
      if BinaryPath == "" {
        if goos == "linux" {
          BinaryPath := LinuxBinary;
        } else if goos == "darwin" {
          BinaryPath := DarwinBinary;
        } else {
          return UnsupportedOS(UnsupportedOSMessage(goos));
        }
      }
      var stdin := if Html != "" then Some(Html) else None;
      return Spawn(Command(BinaryPath, built.args, stdin));
    }
  }
}
