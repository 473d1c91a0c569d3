/**
 * The /chart command handler (image.go's SearchAndSendStockImage): it builds
 * a StockImageOptions with fixed defaults and a per-message output name, runs
 * GenerateImage, replies with the photo at the predicted path, and schedules
 * that same file for deletion. Chat calls, sleeps and timers are described by
 * the returned Handling rather than performed.
 */
module Chart {
  import opened Wrappers
  import opened Strconv
  import opened Image
  import opened Seqs
  import opened ImageOptions

  /**
   * The triggering chat message: the chat it was sent in, its unix time, its
   * id (numbered per chat) and the sender's username (empty when the sender
   * has none). The handler names the output after all but the chat.
   */
  datatype ChatMessage = ChatMessage(Chat: int, Unixtime: int, ID: int, Username: string)

  /** The parts of a message that go into its output name. */
  function NameKey(m: ChatMessage): (int, int, string) {
    (m.Unixtime, m.ID, m.Username)
  }

  /** The reply to a /chart command without a symbol. */
  const UsagePrompt: string := "请输入股票代号, 例如: /chart AAPL"

  const ImageDir: string := "./img"
  const ImageWidth: int := 1015
  const ImageHeight: int := 400
  const CaptureDelay: int := 4

  /** The photo reply: a local file shown at the given size. */
  datatype Photo = Photo(FileLocal: string, Width: int, Height: int)

  /**
   * What the handler does:
   *  - Usage: reply with the usage prompt (prompt and command are deleted 6 s later);
   *  - Crashed: buildParams panicked, so the handler unwinds with no reply;
   *  - Delivered: the renderer step ended in `render`, the photo reply is sent
   *    whatever that outcome, the file `expiring` is deleted 20 s later, and the
   *    command message is deleted when `deleteCommand` holds.
   */
  datatype Handling =
    | Usage(prompt: string)
    | Crashed
    | Delivered(render: GenerateResult, photo: Photo, expiring: string, deleteCommand: bool)

  /** The output base name: unix time, message id, symbol and sender, joined by '-'. */
  function ImageName(m: ChatMessage, symbol: string): string {
    Itoa(m.Unixtime) + "-" + Itoa(m.ID) + "-" + symbol + "-" + m.Username
  }

  /** The photo file the handler replies with. */
  function PhotoPath(imgName: string): string {
    "./img/" + imgName + ".png"
  }

  /** The options the handler renders with. */
  function CommandRequest(symbol: string, timeRange: string, imgName: string, technicalAnalysis: bool): Request {
    Request(
      Symbol := symbol, Description := symbol, Time := timeRange, BinaryPath := "",
      Input := InlineInput, Output := imgName, Dir := ImageDir, Html := "", Format := "",
      Width := ImageWidth, Height := ImageHeight, Delay := CaptureDelay,
      Overwrite := true, Darkmode := true, TechnicalAnalysis := technicalAnalysis)
  }

  /** The renderer arguments for the handler's defaults. */
  function DefaultArgs(imgName: string): seq<string> {
    ["--height", "400", "--width", "1015", "--delay", "4", "--overwrite", "--dark-mode", "--output", PhotoPath(imgName)]
  }

  /**
   * With the handler's defaults, buildParams yields exactly the fixed argument
   * list whose last element is the photo's path.
   */
  lemma CommandArgs(symbol: string, timeRange: string, imgName: string, technicalAnalysis: bool)
    requires symbol != "" && imgName != ""
    requires technicalAnalysis ==> timeRange != ""
    ensures BuildArgs(CommandRequest(symbol, timeRange, imgName, technicalAnalysis), technicalAnalysis)
         == Args(DefaultArgs(imgName))
  {
    var r := CommandRequest(symbol, timeRange, imgName, technicalAnalysis);
    assert Itoa(400) == "400" && Itoa(1015) == "1015" && Itoa(4) == "4";
    assert r.(Format := ImageFormat).FilePath() == PhotoPath(imgName);
  }

  /**
   * GenerateImage on the handler's defaults: it panics exactly when
   * technical-analysis mode meets an empty time range; otherwise it starts the
   * platform's renderer with the fixed arguments and the widget markup on
   * standard input, or reports the platform as unsupported. Either way the
   * options' FilePath is the photo's path.
   */
  lemma CommandGenerate(symbol: string, timeRange: string, imgName: string, technicalAnalysis: bool, goos: string)
    requires symbol != "" && imgName != ""
    ensures var r := CommandRequest(symbol, timeRange, imgName, technicalAnalysis);
      var binary := ResolveBinaryPath("", goos);
      && (technicalAnalysis && timeRange == "" ==> Generate(r, goos) == Rejected(Panicked))
      && (!(technicalAnalysis && timeRange == "") ==>
            Generate(r, goos) == if binary.Some? then
              Spawn(Command(binary.value, DefaultArgs(imgName), Some(WidgetHtml(r, technicalAnalysis))))
            else UnsupportedOS(UnsupportedOSMessage(goos)))
      && GenerateState(r, goos).FilePath() == PhotoPath(imgName)
  {
    var r := CommandRequest(symbol, timeRange, imgName, technicalAnalysis);
    GenerateSteps(r, goos);
    BuildStateFrame(r, technicalAnalysis);
    assert r.(Format := ImageFormat).FilePath() == PhotoPath(imgName);
    if !(technicalAnalysis && timeRange == "") {
      CommandArgs(symbol, timeRange, imgName, technicalAnalysis);
    }
  }

  /**
   * Two commands for the same symbol get the same output name only when they
   * agree in unix time, message id and sender username.
   */
  lemma ImageNameUnique(m1: ChatMessage, m2: ChatMessage, symbol: string)
    requires ImageName(m1, symbol) == ImageName(m2, symbol)
    ensures NameKey(m1) == NameKey(m2)
  {
    var tail1 := symbol + "-" + m1.Username;
    var tail2 := symbol + "-" + m2.Username;
    var rest1 := Itoa(m1.ID) + "-" + tail1;
    var rest2 := Itoa(m2.ID) + "-" + tail2;
    Regroup7(Itoa(m1.Unixtime), "-", Itoa(m1.ID), "-", symbol, "-", m1.Username);
    Regroup7(Itoa(m2.Unixtime), "-", Itoa(m2.ID), "-", symbol, "-", m2.Username);
    ItoaThenDash(m1.Unixtime, m2.Unixtime, rest1, rest2);
    ItoaThenDash(m1.ID, m2.ID, tail1, tail2);
    assert m1.Username == tail1[|symbol| + 1..] == m2.Username;
  }

  /**
   * Messages for the same symbol that differ in unix time, message id or
   * username never share a photo file.
   */
  lemma PhotoPathsDistinct(m1: ChatMessage, m2: ChatMessage, symbol: string)
    requires NameKey(m1) != NameKey(m2)
    ensures PhotoPath(ImageName(m1, symbol)) != PhotoPath(ImageName(m2, symbol))
  {
    var n1, n2 := ImageName(m1, symbol), ImageName(m2, symbol);
    if PhotoPath(n1) == PhotoPath(n2) {
      assert |n1| == |n2|;
      assert n1 == PhotoPath(n1)[6..6 + |n1|] == n2;
      ImageNameUnique(m1, m2, symbol);
    }
  }

  /**
   * The chat is not part of the name: the same message id, time and username
   * sent in another chat (message ids are numbered per chat, and senders
   * without a username all have the empty one) is a different message that
   * gets the same photo file.
   */
  lemma OtherChatSharesPhotoPath(m: ChatMessage, chat: int, symbol: string)
    requires chat != m.Chat
    ensures m.(Chat := chat) != m
    ensures PhotoPath(ImageName(m.(Chat := chat), symbol)) == PhotoPath(ImageName(m, symbol))
  {
  }

  /**
   * SearchAndSendStockImage. Without a symbol it only prompts. Otherwise it
   * renders with the defaults and replies with the photo at the predicted path
   * whether or not rendering went through, then schedules that same file for
   * deletion; the renderer gets the fixed argument list and the widget markup
   * on standard input. Only the empty-Time panic of technical-analysis mode
   * stops it before the reply.
   */
  method SearchAndSendStockImage(m: ChatMessage, symbol: string, timeRange: string,
                                 delFile: bool, technicalAnalysis: bool, goos: string)
    returns (h: Handling)
    ensures h.Usage? <==> symbol == ""
    ensures h.Usage? ==> h.prompt == UsagePrompt
    ensures h.Crashed? <==> symbol != "" && technicalAnalysis && timeRange == ""
    ensures h.Delivered? ==>
      var name := ImageName(m, symbol);
      var binary := ResolveBinaryPath("", goos);
      && h.photo == Photo(PhotoPath(name), ImageWidth, ImageHeight)
      && h.expiring == h.photo.FileLocal
      && h.deleteCommand == delFile
      && h.render == if binary.Some? then
           Spawn(Command(binary.value, DefaultArgs(name),
                         Some(WidgetHtml(CommandRequest(symbol, timeRange, name, technicalAnalysis), technicalAnalysis))))
         else UnsupportedOS(UnsupportedOSMessage(goos))
  {
    if symbol == "" {
      return Usage(UsagePrompt);
    }
    var imgName := ImageName(m, symbol);
    assert imgName != "" by {
      assert |imgName| >= |Itoa(m.Unixtime) + "-"|;
    }
    var r := CommandRequest(symbol, timeRange, imgName, technicalAnalysis);
    var s := new StockImageOptions(r);
    var render := s.GenerateImage(goos);
    if render.Rejected? && render.failure.Panicked? {
      return Crashed;
    }
    CommandGenerate(symbol, timeRange, imgName, technicalAnalysis, goos);
    var photo := Photo("./img/" + imgName + ".png", ImageWidth, ImageHeight);
    assert s.Value().FilePath() == PhotoPath(imgName);
    h := Delivered(render, photo, s.Value().FilePath(), delFile);
  }
}
