/**
 * The beauty-analysis page: pick a selfie, run the analysis, show the scores,
 * and browse a newest-first history of at most 20 results.
 */
module BeautyAnalysisPage {
  import opened Wrappers
  import opened Browser
  import opened JsString

  const HistoryLimit: nat := 20
  const NoFileMessage := "Please select an image to analyze."
  const UnknownErrorMessage := "An unknown error occurred during analysis."

  /** The scores the analysis API returns: the overall score and every other metric by name. */
  datatype BeautyResult = BeautyResult(overall: int, details: map<string, real>)

  /** A history entry: a result stamped with the ISO date it was recorded. */
  datatype ScoreEntry = ScoreEntry(result: BeautyResult, date: string)

  const DetailNames: seq<string> := [
    "symmetry", "skinHealth", "proportion", "youthfulness", "goldenRatio",
    "lips", "eyes", "nose", "jawline", "cheekbones", "firmness", "wrinkles",
    "eyeArea", "skinTone", "facialVolume",
    "goldenRatioEyeToEye", "goldenRatioNoseToChin", "goldenRatioLipsToChin", "goldenRatioForehead",
    "symmetryEyeLevelDiff_mm", "symmetryNoseAngle_deg", "symmetryLipCornerDiff_mm", "symmetryJawlineBalance"
  ]

  /** initialBeautyScores: every metric is zero. */
  const InitialResult := BeautyResult(0, map k | k in DetailNames :: 0.0)

  datatype Tab = Upload | Results

  datatype Direction = Next | Prev

  function Min(a: int, b: int): int
  {
    if a <= b then a else b
  }

  // ---- History ----

  /** `[entry, ...history].slice(0, 20)`: the new entry first, the oldest dropped once 20 are kept. */
  function PushHistory(history: seq<ScoreEntry>, entry: ScoreEntry): (h: seq<ScoreEntry>)
    ensures |h| == Min(|history| + 1, HistoryLimit)
    ensures h[0] == entry
    ensures h[1..] == history[..|h| - 1]
  {
    ([entry] + history)[..Min(|history| + 1, HistoryLimit)]
  }

  /** The history after a run of successful analyses, given in the order they completed. */
  function PushAll(history: seq<ScoreEntry>, entries: seq<ScoreEntry>): (r: seq<ScoreEntry>)
    ensures entries != [] ==> |r| == Min(|history| + |entries|, HistoryLimit) && r[0] == entries[|entries| - 1]
    decreases |entries|
  {
    if entries == [] then history else PushAll(PushHistory(history, entries[0]), entries[1..])
  }

  lemma ClippedAppend<T>(a: seq<T>, b: seq<T>, m1: nat, m2: nat)
    requires m1 <= |b| && m2 <= |a| + m1
    ensures (a + b[..m1])[..m2] == (a + b)[..m2]
  {
  }

  /**
   * Any run of analyses leaves the history holding the most recent results,
   * newest first, at most 20 of them, the older history behind them.
   */
  lemma {:induction false} PushAllNewestFirst(history: seq<ScoreEntry>, entries: seq<ScoreEntry>)
    requires |history| <= HistoryLimit
    ensures PushAll(history, entries) == (Reverse(entries) + history)[..Min(|entries| + |history|, HistoryLimit)]
    decreases |entries|
  {
    if entries == [] {
      assert Reverse(entries) + history == history;
    } else {
      var e, rest := entries[0], entries[1..];
      var pushed := PushHistory(history, e);
      PushAllNewestFirst(pushed, rest);
      assert entries == [e] + rest;
      assert Reverse(entries) == Reverse(rest) + [e];
      assert Reverse(rest) + ([e] + history) == Reverse(entries) + history;
      ClippedAppend(Reverse(rest), [e] + history, Min(|history| + 1, HistoryLimit),
                    Min(|rest| + |pushed|, HistoryLimit));
    }
  }

  // ---- Display helpers ----

  datatype Band = Green | Emerald | Blue | Amber

  /** The banding shared by the text colour and the gradient: 90, 80 and 70. */
  function ScoreBand(score: int): (b: Band)
    ensures b == Green <==> score >= 90
    ensures b == Emerald <==> 80 <= score < 90
    ensures b == Blue <==> 70 <= score < 80
    ensures b == Amber <==> score < 70
  {
    if score >= 90 then Green
    else if score >= 80 then Emerald
    else if score >= 70 then Blue
    else Amber
  }

  function BandRank(b: Band): nat
  {
    match b
    case Amber => 0
    case Blue => 1
    case Emerald => 2
    case Green => 3
  }

  function ColourName(b: Band): string
  {
    match b
    case Green => "green"
    case Emerald => "emerald"
    case Blue => "blue"
    case Amber => "amber"
  }

  /** getScoreColor. */
  function ScoreColor(score: int): (c: string)
    ensures c == "text-" + ColourName(ScoreBand(score)) + "-500"
  {
    if score >= 90 then "text-green-500"
    else if score >= 80 then "text-emerald-500"
    else if score >= 70 then "text-blue-500"
    else "text-amber-500"
  }

  /** The second colour of each band's gradient. */
  function GradientEnd(b: Band): string
  {
    match b
    case Green => "emerald"
    case Emerald => "blue"
    case Blue => "indigo"
    case Amber => "orange"
  }

  /** getScoreGradient: from the band's text colour to the next one down. */
  function ScoreGradient(score: int): string
  {
    "from-" + ColourName(ScoreBand(score)) + ("-500/20 to-" + GradientEnd(ScoreBand(score)) + "-500/20")
  }

  /** The gradient starts at the colour the score text is drawn in. */
  lemma GradientStartsAtColour(score: int)
    ensures var c := ColourName(ScoreBand(score));
      ScoreGradient(score)[5..5 + |c|] == c == ScoreColor(score)[5..5 + |c|]
  {
    var b := ScoreBand(score);
    Framed("from-", ColourName(b), "-500/20 to-" + GradientEnd(b) + "-500/20");
    Framed("text-", ColourName(b), "-500");
  }

  /** The gradient changes exactly where the text colour does. */
  lemma GradientFollowsColor(a: int, b: int)
    ensures ScoreGradient(a) == ScoreGradient(b) <==> ScoreColor(a) == ScoreColor(b)
  {
    GradientStartsAtColour(a);
    GradientStartsAtColour(b);
    var ca, cb := ColourName(ScoreBand(a)), ColourName(ScoreBand(b));
    if ScoreBand(a) != ScoreBand(b) {
      assert ca[0] != cb[0];
      assert ScoreGradient(a)[5] == ca[0] && ScoreGradient(b)[5] == cb[0];
      assert ScoreColor(a)[5] == ca[0] && ScoreColor(b)[5] == cb[0];
    }
  }

  /** A higher score never gets a lower colour band. */
  lemma ScoreColorMonotone(a: int, b: int)
    requires a <= b
    ensures BandRank(ScoreBand(a)) <= BandRank(ScoreBand(b))
  {
  }

  /**
   * getScoreChange: null at (or past) the oldest entry, otherwise the
   * difference from the next older entry's overall score.
   */
  function ScoreChange(history: seq<ScoreEntry>, current: int, index: int): (r: Option<int>)
    ensures r.Some? <==> -1 <= index < |history| - 1
    ensures r.Some? ==> r.value == current - history[index + 1].result.overall
  {
    if index >= |history| - 1 then None
    else if index + 1 < 0 then None  // `scoreHistory[index + 1]?.overall` is undefined
    else Some(current - history[index + 1].result.overall)
  }

  /** JavaScript's `%` truncates toward zero. */
  function TruncatedRem(a: int, b: int): (r: int)
    requires b > 0
    ensures a >= 0 ==> r == a % b
    ensures -b < r < b
  {
    if a >= 0 then a % b else -((-a) % b)
  }

  /** The three star counts getStarRating draws. */
  datatype Stars = Stars(full: nat, half: bool, empty: nat)

  function HalfCount(s: Stars): nat
  {
    if s.half then 1 else 0
  }

  /**
   * getStarRating; None where `Array(n)` is given a negative length and throws:
   * a negative score, or a score of 110 or more.
   */
  function StarRating(score: int): (r: Option<Stars>)
    ensures r.None? <==> score < 0 || score >= 110
    ensures r.Some? ==> r.value.full + HalfCount(r.value) + r.value.empty == 5
    ensures r.Some? ==> r.value.full == score / 20 && (r.value.half <==> score % 20 >= 10)
  {
    var full := score / 20;  // Math.floor: Dafny's division by a positive divisor floors
    var half := TruncatedRem(score, 20) >= 10;
    var empty := 5 - full - (if half then 1 else 0);
    if full < 0 || empty < 0 then None else Some(Stars(full, half, empty))
  }

  /** The rating is the score in half stars: two per full star, one for the half star. */
  lemma StarsAreHalfSteps(score: int)
    requires 0 <= score <= 100
    ensures StarRating(score).Some?
    ensures 2 * StarRating(score).value.full + HalfCount(StarRating(score).value) == score / 10
  {
    var q, r := score / 20, score % 20;
    assert score == 20 * q + r;
    assert score / 10 == 2 * q + r / 10;
  }

  class BeautyAnalysisPage {
    var activeTab: Tab
    var showResults: bool
    var isLoading: bool
    var apiError: Option<string>
    var historyView: bool
    var currentHistoryIndex: int
    var showSymmetryComparison: bool
    var selectedFile: Option<File>
    var imagePreview: Option<string>
    var scores: ScoreEntry
    var scoreHistory: seq<ScoreEntry>

    /** The history never exceeds 20 entries and the history index points into it once there is one. */
    predicate Valid()
      reads this
    {
      |scoreHistory| <= HistoryLimit
      && 0 <= currentHistoryIndex
      && (currentHistoryIndex == 0 || currentHistoryIndex < |scoreHistory|)
    }

    /** currentDisplayScores: the selected history entry in the history view, the latest scores otherwise. */
    function DisplayedScores(): (e: ScoreEntry)
      reads this
      requires Valid()
      ensures !historyView || |scoreHistory| == 0 ==> e == scores
      ensures historyView && |scoreHistory| > 0 ==> e == scoreHistory[currentHistoryIndex]
    {
      if historyView && |scoreHistory| > 0 then scoreHistory[currentHistoryIndex] else scores
    }

    constructor (now: string)
      ensures Valid()
      ensures activeTab == Upload && !showResults && !isLoading && apiError == None
      ensures !historyView && currentHistoryIndex == 0 && !showSymmetryComparison
      ensures selectedFile == None && imagePreview == None
      ensures scores == ScoreEntry(InitialResult, now) && scoreHistory == []
    {
      activeTab := Upload;
      showResults := false;
      isLoading := false;
      apiError := None;
      historyView := false;
      currentHistoryIndex := 0;
      showSymmetryComparison := false;
      selectedFile := None;
      imagePreview := None;
      scores := ScoreEntry(InitialResult, now);
      scoreHistory := [];
    }

    /** resetAnalysis: back to a fresh upload; the file, the history and its index are kept. */
    method ResetAnalysis(now: string)
      modifies this
      ensures !showResults && scores == ScoreEntry(InitialResult, now) && apiError == None
      ensures activeTab == Upload && !historyView && !showSymmetryComparison
      ensures scoreHistory == old(scoreHistory) && currentHistoryIndex == old(currentHistoryIndex)
      ensures isLoading == old(isLoading)
      ensures selectedFile == old(selectedFile) && imagePreview == old(imagePreview)
    {
      showResults := false;
      scores := ScoreEntry(InitialResult, now);
      apiError := None;
      activeTab := Upload;
      historyView := false;
      showSymmetryComparison := false;
    }

    /**
     * handleImageSelected: store the file and preview; if results or an error
     * are on screen, reset the analysis as well.
     */
    method HandleImageSelected(file: Option<File>, previewUrl: Option<string>, now: string)
      requires Valid()
      modifies this
      ensures Valid()
      ensures selectedFile == file && imagePreview == previewUrl
      ensures scoreHistory == old(scoreHistory) && currentHistoryIndex == old(currentHistoryIndex)
      ensures isLoading == old(isLoading)
      ensures old(showResults) || old(TruthyText(apiError)) ==>
        !showResults && scores == ScoreEntry(InitialResult, now) && apiError == None
        && activeTab == Upload && !historyView && !showSymmetryComparison
      ensures !(old(showResults) || old(TruthyText(apiError))) ==>
        showResults == old(showResults) && scores == old(scores) && apiError == old(apiError)
        && activeTab == old(activeTab) && historyView == old(historyView)
        && showSymmetryComparison == old(showSymmetryComparison)
    {
      selectedFile := file;
      imagePreview := previewUrl;
      if showResults || TruthyText(apiError) {
        ResetAnalysis(now);
      }
    }

    /**
     * The synchronous part of triggerApiAnalysis: without a file only the error
     * is set and no request is sent; otherwise loading starts and the request
     * for `selectedFile` is sent (`requested`).
     */
    method TriggerApiAnalysis() returns (requested: bool)
      requires Valid()
      modifies this
      ensures Valid()
      ensures requested <==> old(selectedFile).Some?
      ensures !requested ==>
        apiError == Some(NoFileMessage) && isLoading == old(isLoading) && showResults == old(showResults)
      ensures requested ==> isLoading && apiError == None && !showResults
      ensures activeTab == old(activeTab) && scores == old(scores) && scoreHistory == old(scoreHistory)
      ensures historyView == old(historyView) && currentHistoryIndex == old(currentHistoryIndex)
      ensures showSymmetryComparison == old(showSymmetryComparison)
      ensures selectedFile == old(selectedFile) && imagePreview == old(imagePreview)
    {
      if selectedFile.None? {
        apiError := Some(NoFileMessage);
        return false;
      }
      isLoading := true;
      apiError := None;
      showResults := false;
      requested := true;
    }

    /**
     * The rest of triggerApiAnalysis, once the request settles at time `now`:
     * a result becomes the current scores and the newest history entry and
     * the results tab opens; a failure shows its message on the upload tab.
     * Loading is over either way.
     */
    method AnalysisSettled(outcome: Result<BeautyResult, Thrown>, now: string)
      requires Valid()
      modifies this
      ensures Valid()
      ensures !isLoading
      ensures outcome.Ok? ==>
        scores == ScoreEntry(outcome.value, now)
        && scoreHistory == PushHistory(old(scoreHistory), scores)
        && showResults && activeTab == Results && apiError == old(apiError)
      ensures outcome.Err? ==>
        apiError == Some(ErrorMessage(outcome.error, UnknownErrorMessage)) && activeTab == Upload
        && scores == old(scores) && scoreHistory == old(scoreHistory) && showResults == old(showResults)
      ensures historyView == old(historyView) && currentHistoryIndex == old(currentHistoryIndex)
      ensures showSymmetryComparison == old(showSymmetryComparison)
      ensures selectedFile == old(selectedFile) && imagePreview == old(imagePreview)
    {
      match outcome {
        case Ok(analysisResult) =>
          var newScoreEntry := ScoreEntry(analysisResult, now);
          scores := newScoreEntry;
          scoreHistory := PushHistory(scoreHistory, newScoreEntry);
          showResults := true;
          activeTab := Results;
        case Err(error) =>
          apiError := Some(ErrorMessage(error, UnknownErrorMessage));
          activeTab := Upload;
      }
      isLoading := false;
    }

    /** The tab list: the results tab is disabled until there are results. */
    method SelectTab(tab: Tab)
      modifies this
      ensures tab == Results && !old(showResults) ==> activeTab == old(activeTab)
      ensures tab == Upload || old(showResults) ==> activeTab == tab
      ensures showResults == old(showResults) && isLoading == old(isLoading) && apiError == old(apiError)
      ensures historyView == old(historyView) && currentHistoryIndex == old(currentHistoryIndex)
      ensures showSymmetryComparison == old(showSymmetryComparison)
      ensures selectedFile == old(selectedFile) && imagePreview == old(imagePreview)
      ensures scores == old(scores) && scoreHistory == old(scoreHistory)
    {
      if tab == Upload || showResults {
        activeTab := tab;
      }
    }

    /** toggleHistoryView. */
    method ToggleHistoryView()
      modifies this
      ensures historyView == !old(historyView)
      ensures activeTab == old(activeTab) && showResults == old(showResults) && isLoading == old(isLoading)
      ensures apiError == old(apiError) && currentHistoryIndex == old(currentHistoryIndex)
      ensures showSymmetryComparison == old(showSymmetryComparison)
      ensures selectedFile == old(selectedFile) && imagePreview == old(imagePreview)
      ensures scores == old(scores) && scoreHistory == old(scoreHistory)
    {
      historyView := !historyView;
    }

    /** toggleSymmetryComparison. */
    method ToggleSymmetryComparison()
      modifies this
      ensures showSymmetryComparison == !old(showSymmetryComparison)
      ensures activeTab == old(activeTab) && showResults == old(showResults) && isLoading == old(isLoading)
      ensures apiError == old(apiError) && currentHistoryIndex == old(currentHistoryIndex)
      ensures historyView == old(historyView)
      ensures selectedFile == old(selectedFile) && imagePreview == old(imagePreview)
      ensures scores == old(scores) && scoreHistory == old(scoreHistory)
    {
      showSymmetryComparison := !showSymmetryComparison;
    }

    /** navigateHistory: one step towards older ("next") or newer ("prev") entries, never off either end. */
    method NavigateHistory(direction: Direction)
      requires Valid()
      modifies this
      ensures Valid()
      ensures direction == Next && old(currentHistoryIndex) < |scoreHistory| - 1 ==>
        currentHistoryIndex == old(currentHistoryIndex) + 1
      ensures direction == Prev && old(currentHistoryIndex) > 0 ==>
        currentHistoryIndex == old(currentHistoryIndex) - 1
      ensures direction == Next && old(currentHistoryIndex) >= |scoreHistory| - 1 ==>
        currentHistoryIndex == old(currentHistoryIndex)
      ensures direction == Prev && old(currentHistoryIndex) == 0 ==>
        currentHistoryIndex == old(currentHistoryIndex)
      ensures |scoreHistory| > 0 ==> 0 <= currentHistoryIndex < |scoreHistory|
      ensures activeTab == old(activeTab) && showResults == old(showResults) && isLoading == old(isLoading)
      ensures apiError == old(apiError) && historyView == old(historyView)
      ensures showSymmetryComparison == old(showSymmetryComparison)
      ensures selectedFile == old(selectedFile) && imagePreview == old(imagePreview)
      ensures scores == old(scores) && scoreHistory == old(scoreHistory)
    {
      if direction == Next && currentHistoryIndex < |scoreHistory| - 1 {
        currentHistoryIndex := currentHistoryIndex + 1;
      } else if direction == Prev && currentHistoryIndex > 0 {
        currentHistoryIndex := currentHistoryIndex - 1;
      }
    }
  }
}
