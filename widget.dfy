/**
 * The two TradingView widget snippets (image.go's tradingviewWidget and
 * tradingviewDetailWidget). Each is a Sprintf template over fixed HTML/JS text;
 * that text is abbreviated here to short stand-ins that keep the quoting
 * around each slot, since only where the substituted values land matters.
 */
module Widget {
  import opened Fmt

  // Stand-ins for the fixed text of the two templates, in pieces short enough
  // for the solver to check character by character that none holds a '%'.
  const WidgetBegin: string := "<!-- TradingView Widget BEGIN -->"
  const WidgetEnd: string := "<!-- TradingView Widget END -->"
  const MediumWidgetOpen: string := "new TradingView.MediumWidget("
  const SymbolsOpen: string := "{\"symbols\": [[\""
  const SymbolsClose: string := "\"]], \"colorTheme\": \"dark\", "
  const OverviewContainer: string := "\"container_id\": \"tradingview_9efce\"});"
  const ChartWidgetOpen: string := "new TradingView.widget("
  const SymbolOpen: string := "{\"symbol\": \""
  const ThemeAndStudies: string := "\", \"theme\": \"dark\", "
  const Studies: string := "\"studies\": [\"MASimple@tv-basicstudies\"], "
  const DetailContainer: string := "\"container_id\": \"tradingview_f9dfa\"});"

  // Overview ("MediumWidget") template: "<head>%s<mid>%s%s<tail>".
  const OverviewHead: string := WidgetBegin + MediumWidgetOpen + SymbolsOpen
  const OverviewMid: string := "\", \""
  const OverviewTail: string := SymbolsClose + OverviewContainer + WidgetEnd
  const OverviewTemplate: string := OverviewHead + "%s" + OverviewMid + "%s%s" + OverviewTail

  // Detail (full chart with a simple moving average) template: "<head>%v<mid>%v<tail>".
  const DetailHead: string := WidgetBegin + ChartWidgetOpen + SymbolOpen
  const DetailMid: string := "\", \"range\": \""
  const DetailTail: string := ThemeAndStudies + Studies + DetailContainer + WidgetEnd
  const DetailTemplate: string := DetailHead + "%v" + DetailMid + "%v" + DetailTail

  /**
   * tradingviewWidget(symbols, desc, timeRange). Note the argument order the
   * template is filled with: desc first, then symbols and timeRange together.
   */
  function OverviewWidget(symbols: string, desc: string, timeRange: string): string {
    Sprintf(OverviewTemplate, [desc, symbols, timeRange])
  }

  /** tradingviewDetailWidget(symbols, timeRange). */
  function DetailWidget(symbols: string, timeRange: string): string {
    Sprintf(DetailTemplate, [symbols, timeRange])
  }

  lemma BeginEndAreLiteral()
    ensures Literal(WidgetBegin) && Literal(WidgetEnd)
  {
  }

  lemma OverviewOpeningIsLiteral()
    ensures Literal(MediumWidgetOpen) && Literal(SymbolsOpen)
  {
  }

  lemma OverviewClosingIsLiteral()
    ensures Literal(SymbolsClose) && Literal(OverviewContainer)
  {
  }

  lemma DetailPiecesAreLiteral()
    ensures Literal(ChartWidgetOpen) && Literal(SymbolOpen) && Literal(ThemeAndStudies)
  {
  }

  lemma DetailClosingIsLiteral()
    ensures Literal(Studies) && Literal(DetailContainer)
  {
  }

  lemma OverviewSegmentsAreLiteral()
    ensures Literal(OverviewHead) && Literal(OverviewMid) && Literal(OverviewTail)
  {
    BeginEndAreLiteral();
    OverviewOpeningIsLiteral();
    OverviewClosingIsLiteral();
    LiteralJoin(WidgetBegin, MediumWidgetOpen);
    LiteralJoin(WidgetBegin + MediumWidgetOpen, SymbolsOpen);
    LiteralJoin(SymbolsClose, OverviewContainer);
    LiteralJoin(SymbolsClose + OverviewContainer, WidgetEnd);
  }

  lemma DetailSegmentsAreLiteral()
    ensures Literal(DetailHead) && Literal(DetailMid) && Literal(DetailTail)
  {
    BeginEndAreLiteral();
    DetailPiecesAreLiteral();
    DetailClosingIsLiteral();
    LiteralJoin(WidgetBegin, ChartWidgetOpen);
    LiteralJoin(WidgetBegin + ChartWidgetOpen, SymbolOpen);
    LiteralJoin(ThemeAndStudies, Studies);
    LiteralJoin(ThemeAndStudies + Studies, DetailContainer);
    LiteralJoin(ThemeAndStudies + Studies + DetailContainer, WidgetEnd);
  }

  /** The overview snippet holds desc in its first slot and symbols immediately followed by timeRange in its second. */
  lemma OverviewLayout(symbols: string, desc: string, timeRange: string)
    ensures OverviewWidget(symbols, desc, timeRange)
         == OverviewHead + desc + OverviewMid + symbols + timeRange + OverviewTail
  {
    OverviewSegmentsAreLiteral();
    SprintfThreeSlots(OverviewHead, OverviewMid, OverviewTail, desc, symbols, timeRange);
  }

  /** The detail snippet holds symbols in its first slot and timeRange in its second. */
  lemma DetailLayout(symbols: string, timeRange: string)
    ensures DetailWidget(symbols, timeRange) == DetailHead + symbols + DetailMid + timeRange + DetailTail
  {
    DetailSegmentsAreLiteral();
    SprintfTwoSlots("%v", DetailHead, DetailMid, DetailTail, symbols, timeRange);
  }
}
