# tradingview-bot: chart request preparation in Dafny

This project models the request-preparation core of the bot's chart command
(`internal/tradingview/image.go`). It covers these parts:

- the `StockImageOptions` record and its file naming (`FileName`, `FilePath`);
- `buildParams`: validation, the inline widget markup and the ordered
  `capture-website` argument list;
- the renderer path selection of `GenerateImage`;
- the defaults and the per-message output name that `SearchAndSendStockImage`
  renders with.

Modules, one per component:

- `Strconv`: `strconv.Itoa` and its inverse `Atoi`.
- `Fmt`: the part of `fmt.Sprintf` the templates use.
- `Widget`: the overview and detail widget templates.
- `Image`: the value-level specification. It holds the `Request` record,
  `BuildArgs` and `BuildState` (what `buildParams` returns and how it leaves
  the record), `ResolveBinaryPath`, and `Generate` / `GenerateState`. It also
  holds `ParseCapture`, the renderer's reading of its flag contract
  `[--height N] [--width N] [--delay N] [--overwrite] [--dark-mode] --output PATH`.
  The argument list is checked against that reading.
- `ImageOptions`: the mutable `StockImageOptions` class. `BuildParams` and
  `GenerateImage` update it in place and are proved against the `Image`
  functions.
- `Chart`: the command handler `SearchAndSendStockImage`. It returns a
  `Handling` value that describes the chat effects instead of performing them.
- `Wrappers` / `Seqs`: `Option` and the regrouping of concatenations.

Notes on `buildParams`:

- `buildParams` checks `Description` in technical-analysis mode too
  (image.go:167).
- It never rewrites `Input`. It only clears `Html` when `Input` is not `"-"`.
- It checks `Output` once, after the option arguments (image.go:212).

In technical-analysis mode `buildParams` slices `Time[1:]`. When `Time` is
empty this is a runtime panic, not an error return. The model keeps it as the
explicit outcome `Panicked`, and the handler then ends in `Crashed`. The
template HTML is shortened to stand-in segments that keep the quoting around
each slot. None of the segments contains a `%`.

## Model

| member | source | states |
|---|---|---|
| `Strconv.Itoa` | internal/tradingview/image.go:183 | decimal form: starts with '-' exactly for negative numbers, digits everywhere else |
| `Strconv.ItoaRoundTrip` | internal/tradingview/image.go:181-194 | parsing the decimal form back gives the number: Atoi(Itoa(n)) == Some(n) |
| `Strconv.ItoaThenDash` | internal/tradingview/image.go:246 | a decimal followed by '-' splits off unambiguously: equal strings give equal numbers and equal rests |
| `Fmt.SprintfTwoSlots` | internal/tradingview/image.go:52-83 | a two-verb template over literal text puts its two arguments, in order, between the literal parts |
| `Fmt.SprintfThreeSlots` | internal/tradingview/image.go:16-48 | a "%s … %s%s" template puts the first argument in slot one and the other two side by side in slot two |
| `Widget.OverviewLayout` | internal/tradingview/image.go:15-49 | tradingviewWidget(symbols, desc, t) is head + desc + mid + symbols + t + tail: the parameters land in swapped order |
| `Widget.DetailLayout` | internal/tradingview/image.go:51-84 | tradingviewDetailWidget(symbols, t) is head + symbols + mid + t + tail |
| `Image.Request.FilePath` | internal/tradingview/image.go:109-115 | FilePath() == Dir + "/" + FileName(), and FileName() is Output + "." + Format |
| `Image.FilePathDeterminesOutput` | internal/tradingview/image.go:109-111 | for a fixed Dir and Format, equal paths mean equal Output |
| `Image.ParamError.Message` | internal/tradingview/image.go:163-214 | each validation error reads "Must provide " followed by the field that failed: symbol, description, input or output |
| `Image.MessageIdentifiesError` | internal/tradingview/image.go:164-213 | distinct validation errors have distinct messages, so the text identifies the failed check |
| `Image.ErrorPrecedence` | internal/tradingview/image.go:163-214 | the failing check decides the error, and no earlier-ranked field is missing; the panic happens exactly when Symbol and Description are set, the mode is technical analysis and Time is empty; success holds exactly when no field is missing and there is no panic |
| `Image.BuildStateFrame` | internal/tradingview/image.go:159-208 | Format is "png" after every call, failed or not; only Format and Html change; a failed Symbol or Description check or the panic leaves Html as it was; once past the Input check, Html is "" for a remote Input and the widget for "-"; a failed Input check leaves the widget in Html |
| `Image.WidgetSlots` | internal/tradingview/image.go:171-175 | overview: slot one holds Symbol and slot two Description followed by Time; detail: the range slot holds Time minus exactly its first character; the markup is never empty |
| `Image.ArgsRoundTrip` | internal/tradingview/image.go:181-218 | the renderer's strict-order reading of a successful argument list returns exactly Height, Width, Delay, Overwrite, Darkmode and FilePath() |
| `Image.ArgsShape` | internal/tradingview/image.go:181-218 | length is 2·(non-zero numerics) + (switches on) + 2; the list ends with "--output", FilePath(); each flag occurs exactly when its option is non-zero or true |
| `Image.ResolveBinaryPath` | internal/tradingview/image.go:135-145 | a configured path is kept; an empty one becomes "/usr/bin/capture-website" on linux and "/usr/local/bin/capture-website" on darwin; any other OS gives an error; a resolved path is never empty |
| `Image.ResolveIsStable` | internal/tradingview/image.go:135-145 | resolving an already resolved path again changes nothing, on any OS |
| `Image.GenerateSteps` | internal/tradingview/image.go:129-151 | a buildParams failure is returned before BinaryPath is examined or changed; an unsupported OS is an error only when no path is configured; the started process gets buildParams' arguments and has the widget on stdin exactly when Input is "-" |
| `ImageOptions.StockImageOptions.constructor` | internal/tradingview/image.go:86-107 | a struct literal: the object's value is the given record |
| `ImageOptions.StockImageOptions.BuildParams` | internal/tradingview/image.go:158-222 | returns BuildArgs of the old value and leaves the object at BuildState of the old value |
| `ImageOptions.StockImageOptions.ArgumentList` | internal/tradingview/image.go:181-218 | after the Input check: the option arguments then "--output", FilePath(), or MissingOutput; Html cleared for a remote Input, nothing else changed |
| `ImageOptions.StockImageOptions.OptionArguments` | internal/tradingview/image.go:181-202 | the appended sequence equals the option part of the contract, in order |
| `ImageOptions.StockImageOptions.GenerateImage` | internal/tradingview/image.go:129-151 | returns Generate of the old value and leaves the object at GenerateState, the BuildState plus the resolved BinaryPath |
| `Chart.CommandArgs` | internal/tradingview/image.go:246-269 | with the handler's defaults the arguments are exactly --height 400 --width 1015 --delay 4 --overwrite --dark-mode --output "./img/"+imgName+".png" |
| `Chart.CommandGenerate` | internal/tradingview/image.go:246-266 | with the defaults, GenerateImage panics exactly on technical analysis with an empty time range, otherwise starts the OS's renderer with those arguments and the widget on stdin (or rejects the OS); FilePath() is the photo's path either way |
| `Chart.ImageNameUnique` | internal/tradingview/image.go:246 | for one symbol, equal output names mean the same unix time, message id and sender username |
| `Chart.PhotoPathsDistinct` | internal/tradingview/image.go:246-269 | messages for the same symbol that differ in unix time, message id or username never share a photo file |
| `Chart.OtherChatSharesPhotoPath` | internal/tradingview/image.go:246 | the chat is not part of the name: the same id, time and username in another chat is a different message with the same photo file |
| `Chart.SearchAndSendStockImage` | internal/tradingview/image.go:224-289 | prompts exactly when the symbol is missing; crashes exactly on the empty-time panic; otherwise replies with "./img/"+name+".png" at 1015×400 whatever the render outcome, schedules that same file for deletion, and starts the renderer with the fixed arguments |

## Left out

- Starting the renderer (`exec.Command`, stdin, `CombinedOutput`, image.go:147-155) is not performed. `GenerateImage` returns the `Command` it would run. The renderer's exit status is not modelled.
- `CountdownToDel` (goroutine, 20-second timer, `os.Remove`): only the path it deletes is modelled (`Handling.expiring`).
- Telegram calls (`b.Reply`, `b.Delete`), `time.Sleep` and the 6-second prompt-cleanup goroutine are not performed. They are described by the returned `Handling`.
- `fmt.Printf` logging is left out. It has no effect on the results.
- `runtime.GOOS` is the parameter `goos`.
- The template HTML/JS text is abbreviated to stand-in segments. Only the slot positions are modelled.
- `Fmt.Sprintf` interprets only `%s`, `%v` and `%%`. Other verbs are copied literally, and surplus arguments are ignored instead of being reported as `%!(EXTRA …)`. The templates never reach these cases.
- `Strconv.Itoa`: integers are unbounded rather than Go's 64-bit `int`, and `Atoi` has no range error. No value the handler renders comes near the bound.
- `ImageOptions.StockImageOptions.BuildParams`: Go returns `nil` on a missing Output and an empty slice on the other errors. The model does not distinguish them, because both are empty and callers only look at the error.
- `Image.WidgetSlots`: strings are sequences of characters, but Go's `Time[1:]` (image.go:172) drops one byte. The model drops Time's first character, so it agrees with Go only when that character is ASCII. For a multi-byte first character, Go puts the rest of its UTF-8 bytes (an invalid sequence) into the range slot, and the model does not. The same holds for `Image.WidgetHtml` and `ImageOptions.StockImageOptions.BuildParams`.
- `Chart.PhotoPathsDistinct`: the output name leaves out the chat (image.go:246), and message ids are numbered per chat. Two messages from different chats with the same second, id, username (possibly empty) and symbol share one photo file, as `Chart.OtherChatSharesPhotoPath` shows. Uniqueness holds only across messages that differ in time, id or username.
