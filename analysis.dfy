/**
 * The dashboard's analysis state — three independent data slots filled by the
 * upload and AI handlers — and the pure selection of what the analysis tab shows.
 */
module Analysis {
  import opened Wrappers
  import opened Text
  import opened Records
  import opened TextIngest
  import opened CsvIngest
  import opened Preview
  import opened Insights
  import opened Schema

  /** The figures the screenshot upload fabricates (random in the dashboard, given here). */
  datatype ScreenshotMetrics = ScreenshotMetrics(
    users: int, sessions: int, pageviews: int, bounceRate: string, avgSessionDuration: string)

  /** The image-derived payload. */
  datatype Screenshot = Screenshot(fileName: string, uploadTime: string, metrics: ScreenshotMetrics)

  /** The figures the AI step fabricates (random in the dashboard, given here). */
  datatype AiMetrics = AiMetrics(
    users: int, sessions: int, pageviews: int, bounceRate: string, avgSessionDuration: string,
    conversionRate: string, revenueGrowth: string)

  /** The AI-enhanced payload: the request's context echoed, the figures and the canned analysis. */
  datatype AiAnalysis = AiAnalysis(
    provider: string, userPainPoints: string, selectedCategory: string, connectionTime: string,
    metrics: AiMetrics, insights: Insight)

  /** The three slots at one moment: tabular data, screenshot data, AI data. */
  datatype Snapshot = Snapshot(csv: Option<Dataset>, ga4: Option<Screenshot>, ai: Option<AiAnalysis>)

  /** Which payload the traffic (GA4) panel is drawn from. */
  datatype Ga4Source = FromAi(analysis: AiAnalysis) | FromScreenshot(shot: Screenshot)

  datatype Recommendation = Recommendation(icon: string, title: string, content: string)

  /**
   * What one visualisation update does to a panel: hides it, shows it with
   * this content, or never reaches it (the update threw earlier), leaving it
   * as the previous update left it.
   */
  datatype Panel<T> = Hidden | Shown(content: T) | Unchanged

  /** The tabular panel: record count, field count, numeric columns and the data table. */
  datatype CsvSummary = CsvSummary(records: nat, fields: nat, numericKeys: seq<string>, table: Table)

  /** What the analysis tab shows after one update: the "no data" notice and the three panels. */
  datatype View = View(
    noData: bool, ga4Panel: Panel<Ga4Source>, csvPanel: Panel<CsvSummary>, recommendations: Panel<seq<Recommendation>>)

  /** What a file upload ends in: its preview table, or a message in the upload area. */
  datatype IngestOutcome = Previewed(table: Table) | ErrorShown(message: string)

  const Ga4Title: string := "GA4 數據洞察"
  const CsvTitle: string := "CSV 數據分析"
  const AiAdviceOpen: string := "基於您的痛點「"
  const AiAdviceClose: string := "」，AI 已提供專業分析建議。建議定期監控關鍵指標變化。"
  const ScreenshotAdvice: string := "基於截圖提取的數據，建議定期監控這些關鍵指標的變化趨勢。"
  const CsvAdviceOpen: string := "您的數據集包含 "
  const CsvAdviceClose: string := " 筆記錄。建議進一步清理數據並探索變數之間的關聯性。"

  const CsvParseErrorPrefix: string := "CSV 解析錯誤: "
  const CsvFailedMessage: string := "CSV 文件處理失敗，請檢查文件格式"
  const TxtFailedMessage: string := "TXT 文件處理失敗，請檢查文件格式"
  const ReadFailedMessage: string := "文件讀取失敗"
  const MissingInputMessage: string := "請輸入 API Key 和描述您的痛點需求"

  /** The source of the traffic panel: the AI data when present, else the screenshot data. */
  function PanelSource(s: Snapshot): (src: Option<Ga4Source>)
    ensures src.Some? <==> s.ga4.Some? || s.ai.Some?
    ensures s.ai.Some? ==> src == Some(FromAi(s.ai.value))
    ensures s.ai.None? && s.ga4.Some? ==> src == Some(FromScreenshot(s.ga4.value))
  {
    if s.ai.Some? then Some(FromAi(s.ai.value))
    else if s.ga4.Some? then Some(FromScreenshot(s.ga4.value))
    else None
  }

  /** The text of the traffic recommendation. */
  function Ga4Advice(ai: Option<AiAnalysis>): (text: string) {
    if ai.Some? then AiAdviceOpen + ai.value.userPainPoints + AiAdviceClose else ScreenshotAdvice
  }

  /** The text of the tabular recommendation, quoting the number of row objects. */
  function CsvAdvice(count: nat): (text: string) {
    CsvAdviceOpen + DecimalString(count) + CsvAdviceClose
  }

  /**
   * The recommendation list: the traffic block when screenshot or AI data is
   * present, then the tabular block when a dataset is present.
   */
  function Recommendations(s: Snapshot): (r: seq<Recommendation>)
    ensures |r| == (if s.ga4.Some? || s.ai.Some? then 1 else 0) + (if s.csv.Some? then 1 else 0)
    ensures |r| <= 2
    ensures s.ga4.Some? || s.ai.Some? <==> r != [] && r[0].title == Ga4Title
    ensures s.csv.Some? <==> r != [] && r[|r| - 1].title == CsvTitle
    ensures s.ga4.Some? || s.ai.Some? ==> r[0] == Recommendation("blue", Ga4Title, Ga4Advice(s.ai))
    ensures s.csv.Some? ==> r[|r| - 1] == Recommendation("green", CsvTitle, CsvAdvice(|s.csv.value|))
  {
    var traffic := if s.ga4.Some? || s.ai.Some? then [Recommendation("blue", Ga4Title, Ga4Advice(s.ai))] else [];
    var tabular := if s.csv.Some? then [Recommendation("green", CsvTitle, CsvAdvice(|s.csv.value|))] else [];
    assert Ga4Title[0] != CsvTitle[0];
    traffic + tabular
  }

  /** Some slot holds data (an empty dataset counts: it is still present). */
  predicate HasData(s: Snapshot) {
    s.csv.Some? || s.ga4.Some? || s.ai.Some?
  }

  /**
   * The tabular panel for a non-empty dataset. The field count and the
   * columns come from the first row object; an empty dataset has none, and
   * reading its properties throws.
   */
  function CsvPanel(data: Dataset, isNumeric: string -> bool): (p: Option<CsvSummary>)
    ensures p.None? <==> data == []
    ensures p.Some? ==>
      && p.value.records == |data|
      && p.value.fields == |DataKeys(data[0])|
      && p.value.numericKeys == NumericKeys(Some(data), isNumeric)
      && Some(p.value.table) == DataTable(data)
  {
    if data == [] then None
    else Some(CsvSummary(|data|, |DataKeys(data[0])|, NumericKeys(Some(data), isNumeric), DataTable(data).value))
  }

  /**
   * The visualisation update. With no data only the notice shows. Otherwise
   * the traffic panel is set first, then the tabular panel is built; an empty
   * dataset makes that step throw, so the tabular panel and the
   * recommendations are left as they were.
   */
  function SelectView(s: Snapshot, isNumeric: string -> bool): (v: View)
    ensures v.noData <==> !HasData(s)
    ensures v.noData ==> v.ga4Panel.Hidden? && v.csvPanel.Hidden? && v.recommendations.Hidden?
    ensures v.ga4Panel.Shown? <==> s.ga4.Some? || s.ai.Some?
    ensures v.ga4Panel.Hidden? <==> s.ga4.None? && s.ai.None?
    ensures v.ga4Panel.Shown? ==> Some(v.ga4Panel.content) == PanelSource(s)
    ensures v.csvPanel.Shown? <==> s.csv.Some? && s.csv.value != []
    ensures v.csvPanel.Shown? ==> Some(v.csvPanel.content) == CsvPanel(s.csv.value, isNumeric)
    ensures v.csvPanel.Unchanged? <==> s.csv == Some([])
    ensures v.recommendations.Shown? <==> HasData(s) && s.csv != Some([])
    ensures v.recommendations.Unchanged? <==> s.csv == Some([])
    ensures v.recommendations.Shown? ==> v.recommendations.content == Recommendations(s)
  {
    if !HasData(s) then View(true, Hidden, Hidden, Hidden)
    else
      var traffic := if PanelSource(s).Some? then Shown(PanelSource(s).value) else Hidden;
      match s.csv
      case None => View(false, traffic, Hidden, Shown(Recommendations(s)))
      case Some(data) =>
        match CsvPanel(data, isNumeric)
        case None => View(false, traffic, Unchanged, Unchanged)
        case Some(summary) => View(false, traffic, Shown(summary), Shown(Recommendations(s)))
  }

  /** The traffic recommendation names the pain points exactly when AI data is present, and they can be read back from it. */
  lemma Ga4AdviceQuotesPainPoints(ai: Option<AiAnalysis>)
    ensures StartsWith(Ga4Advice(ai), AiAdviceOpen) <==> ai.Some?
    ensures ai.Some? ==>
      var text := Ga4Advice(ai);
      |AiAdviceOpen| + |AiAdviceClose| <= |text| && text[|AiAdviceOpen|..|text| - |AiAdviceClose|] == ai.value.userPainPoints
  {
    if ai.None? {
      assert ScreenshotAdvice[2] != AiAdviceOpen[2];
    } else {
      var text := Ga4Advice(ai);
      assert text[..|AiAdviceOpen|] == AiAdviceOpen;
      assert text[|AiAdviceOpen|..|text| - |AiAdviceClose|] == ai.value.userPainPoints;
    }
  }

  /** The tabular recommendation quotes the number of row objects in decimal, and it can be read back. */
  lemma CsvAdviceQuotesCount(count: nat)
    ensures var text := CsvAdvice(count);
      && |CsvAdviceOpen| + |CsvAdviceClose| < |text|
      && var digits := text[|CsvAdviceOpen|..|text| - |CsvAdviceClose|];
      && (forall k :: 0 <= k < |digits| ==> IsDigit(digits[k]))
      && DecimalValue(digits) == count
  {
    var text := CsvAdvice(count);
    assert text[|CsvAdviceOpen|..|text| - |CsvAdviceClose|] == DecimalString(count);
    DecimalRoundTrip(count);
  }

  /** Adding AI data shows the traffic panel from it, without touching the tabular panel. */
  lemma AiDataTakesTrafficPanel(s: Snapshot, a: AiAnalysis, isNumeric: string -> bool)
    ensures SelectView(s.(ai := Some(a)), isNumeric).ga4Panel == Shown(FromAi(a))
    ensures SelectView(s.(ai := Some(a)), isNumeric).csvPanel == SelectView(s, isNumeric).csvPanel
  {
  }

  /** While AI data is present, a new screenshot does not change the traffic panel. */
  lemma ScreenshotUnderAiIsSuppressed(s: Snapshot, shot: Screenshot, isNumeric: string -> bool)
    requires s.ai.Some?
    ensures SelectView(s.(ga4 := Some(shot)), isNumeric).ga4Panel == SelectView(s, isNumeric).ga4Panel
  {
  }

  /** Dropping the AI data falls back to the screenshot data for the traffic panel when there is one. */
  lemma DisconnectFallsBackToScreenshot(s: Snapshot, isNumeric: string -> bool)
    requires s.ga4.Some?
    ensures SelectView(s.(ai := None), isNumeric).ga4Panel == Shown(FromScreenshot(s.ga4.value))
    ensures SelectView(s.(ai := None), isNumeric).csvPanel == SelectView(s, isNumeric).csvPanel
  {
  }

  /**
   * Once an empty dataset is installed, no later update reaches the tabular
   * panel or the recommendations, whatever the other two slots hold.
   */
  lemma EmptyDatasetStallsUpdates(s: Snapshot, ga4: Option<Screenshot>, ai: Option<AiAnalysis>, isNumeric: string -> bool)
    requires s.csv == Some([])
    ensures var v := SelectView(s.(ga4 := ga4, ai := ai), isNumeric);
      !v.noData && v.csvPanel.Unchanged? && v.recommendations.Unchanged?
  {
  }

  /** The upload preview, or the processing message when the preview cannot be built (no row objects). */
  function PreviewOrError(data: Dataset, message: string): (o: IngestOutcome)
    ensures o.ErrorShown? <==> data == []
    ensures o.ErrorShown? ==> o.message == message
    ensures o.Previewed? ==> Some(o.table) == UploadPreview(data)
  {
    match UploadPreview(data)
    case Some(t) => Previewed(t)
    case None => ErrorShown(message)
  }

  /** The AI form's check: both the API key and the pain points have a non-whitespace character. */
  predicate CanConnect(apiKey: string, painPoints: string)
    ensures CanConnect(apiKey, painPoints) <==>
      (exists i :: 0 <= i < |apiKey| && !IsWhitespace(apiKey[i])) &&
      (exists i :: 0 <= i < |painPoints| && !IsWhitespace(painPoints[i]))
  {
    Trim(apiKey) != [] && Trim(painPoints) != []
  }

  /** The AI payload for an accepted request; the API key is not kept. */
  function MockAiAnalysis(painPoints: string, category: string, provider: string, connectionTime: string, metrics: AiMetrics): (a: AiAnalysis)
    ensures a.userPainPoints == painPoints && a.selectedCategory == category && a.provider == provider
    ensures a.insights == Insight(TopicFor(category), painPoints)
  {
    AiAnalysis(provider, painPoints, category, connectionTime, metrics, GenerateInsight(painPoints, category))
  }

  /**
   * The three module-level slots. Each handler's completion is one call;
   * when two completions of the same kind happen, the later call wins. The
   * analysis tab (`SelectView` of the new state) is redrawn after a
   * screenshot, an accepted AI request and a disconnect, and after a file
   * upload only when its preview was shown.
   */
  class Dashboard {
    var csvData: Option<Dataset>
    var ga4Data: Option<Screenshot>
    var aiData: Option<AiAnalysis>

    /** All three slots start empty. */
    constructor ()
      ensures State() == Snapshot(None, None, None)
    {
      csvData, ga4Data, aiData := None, None, None;
    }

    function State(): (s: Snapshot)
      reads this
    {
      Snapshot(csvData, ga4Data, aiData)
    }

    /**
     * The CSV reader's completion. An error list aborts with its first
     * message and leaves every slot as it was. Otherwise the dataset is
     * installed first and the preview built second, so an empty dataset is
     * installed and the processing message is shown. The analysis tab is
     * refreshed only after a preview: when the preview throws, the tab keeps
     * what the previous refresh drew.
     */
    method CompleteCsvParse(grid: seq<seq<string>>, errors: seq<string>) returns (outcome: IngestOutcome, refreshed: bool)
      modifies this
      ensures refreshed <==> outcome.Previewed?
      ensures errors != [] ==> State() == old(State()) && outcome == ErrorShown(CsvParseErrorPrefix + errors[0])
      ensures errors == [] ==>
        var data := PostProcess(grid, errors).value;
        State() == old(State()).(csv := Some(data)) && outcome == PreviewOrError(data, CsvFailedMessage)
    {
      var r := PostProcess(grid, errors);
      if r.Failure? {
        outcome, refreshed := ErrorShown(CsvParseErrorPrefix + r.error), false;
        return;
      }
      csvData := Some(r.value);
      outcome := PreviewOrError(r.value, CsvFailedMessage);
      refreshed := outcome.Previewed?;
    }

    /**
     * The plain-text reader's completion: `None` when reading failed. A file
     * without a non-blank line fails before anything is installed; a
     * header-only file installs an empty dataset and then shows the
     * processing message. As for the CSV reader, the analysis tab is
     * refreshed only after a preview.
     */
    method CompleteTextRead(content: Option<string>) returns (outcome: IngestOutcome, refreshed: bool)
      modifies this
      ensures refreshed <==> outcome.Previewed?
      ensures content.None? ==> State() == old(State()) && outcome == ErrorShown(ReadFailedMessage)
      ensures content.Some? && ParseText(content.value).None? ==>
        State() == old(State()) && outcome == ErrorShown(TxtFailedMessage)
      ensures content.Some? && ParseText(content.value).Some? ==>
        var data := ParseText(content.value).value;
        State() == old(State()).(csv := Some(data)) && outcome == PreviewOrError(data, TxtFailedMessage)
    {
      if content.None? {
        outcome, refreshed := ErrorShown(ReadFailedMessage), false;
        return;
      }
      var parsed := ParseText(content.value);
      if parsed.None? {
        outcome, refreshed := ErrorShown(TxtFailedMessage), false;
        return;
      }
      csvData := parsed;
      outcome := PreviewOrError(parsed.value, TxtFailedMessage);
      refreshed := outcome.Previewed?;
    }

    /** The screenshot handler's completion: replaces the screenshot slot only. */
    method CompleteScreenshot(fileName: string, uploadTime: string, metrics: ScreenshotMetrics)
      modifies this
      ensures State() == old(State()).(ga4 := Some(Screenshot(fileName, uploadTime, metrics)))
    {
      ga4Data := Some(Screenshot(fileName, uploadTime, metrics));
    }

    /**
     * The AI connect handler and its completion. A blank API key or blank
     * pain points are rejected with an alert and nothing changes; otherwise
     * the AI slot receives a payload built from the trimmed pain points.
     */
    method ConnectAi(apiKey: string, painPoints: string, category: string, provider: string,
                     connectionTime: string, metrics: AiMetrics) returns (alert: Option<string>)
      modifies this
      ensures alert.Some? <==> !CanConnect(apiKey, painPoints)
      ensures alert.Some? ==> alert.value == MissingInputMessage && State() == old(State())
      ensures alert.None? ==>
        State() == old(State()).(ai := Some(MockAiAnalysis(Trim(painPoints), category, provider, connectionTime, metrics)))
    {
      var key := Trim(apiKey);
      var pains := Trim(painPoints);
      if key == [] || pains == [] {
        alert := Some(MissingInputMessage);
        return;
      }
      aiData := Some(MockAiAnalysis(pains, category, provider, connectionTime, metrics));
      alert := None;
    }

    /** The AI disconnect handler: empties the AI slot only. */
    method DisconnectAi()
      modifies this
      ensures State() == old(State()).(ai := None)
    {
      aiData := None;
    }
  }

  /**
   * A session: a dataset alone shows the tabular panel only; AI data then
   * adds the traffic panel; a later screenshot does not displace the AI
   * source; disconnecting falls back to the screenshot and keeps the tabular
   * panel.
   */
  method Session(text: string, apiKey: string, painPoints: string, metrics: AiMetrics, shot: ScreenshotMetrics,
                 isNumeric: string -> bool)
    requires |NonBlankLines(text)| >= 2
    requires CanConnect(apiKey, painPoints)
  {
    var d := new Dashboard();
    var o, refreshed := d.CompleteTextRead(Some(text));
    assert o.Previewed? && refreshed;
    var v := SelectView(d.State(), isNumeric);
    assert v.csvPanel.Shown? && v.ga4Panel.Hidden? && |v.recommendations.content| == 1;

    var alert := d.ConnectAi(apiKey, painPoints, "conversion", "google", "now", metrics);
    v := SelectView(d.State(), isNumeric);
    assert v.csvPanel.Shown? && v.ga4Panel.Shown? && v.ga4Panel.content.FromAi?;

    var before := v.ga4Panel;
    d.CompleteScreenshot("ga4.png", "later", shot);
    v := SelectView(d.State(), isNumeric);
    assert v.ga4Panel == before;

    d.DisconnectAi();
    v := SelectView(d.State(), isNumeric);
    assert v.csvPanel.Shown? && v.ga4Panel == Shown(FromScreenshot(Screenshot("ga4.png", "later", shot)));
    assert |v.recommendations.content| == 2;
  }
}
