/**
 * The skin-analysis page: pick a photo, run the three-pass analysis, show
 * the results, and open the home remedies for one skin issue.
 */
module SkinAnalysisPage {
  import opened Wrappers
  import opened Browser
  import opened Json
  import JsString

  const NoFileMessage := "Please upload an image first."
  const UnknownErrorMessage := "An unknown error occurred."

  datatype Tab = Upload | Results

  /** The five colour bands of getScoreColor: 85, 70, 55 and 40. */
  datatype Band = Green | Emerald | Blue | Yellow | Red

  function ScoreBand(score: int): (b: Band)
    ensures b == Green <==> score >= 85
    ensures b == Emerald <==> 70 <= score < 85
    ensures b == Blue <==> 55 <= score < 70
    ensures b == Yellow <==> 40 <= score < 55
    ensures b == Red <==> score < 40
  {
    if score >= 85 then Green
    else if score >= 70 then Emerald
    else if score >= 55 then Blue
    else if score >= 40 then Yellow
    else Red
  }

  function BandRank(b: Band): nat
  {
    match b
    case Red => 0
    case Yellow => 1
    case Blue => 2
    case Emerald => 3
    case Green => 4
  }

  function ColourName(b: Band): string
  {
    match b
    case Green => "green"
    case Emerald => "emerald"
    case Blue => "blue"
    case Yellow => "yellow"
    case Red => "red"
  }

  /** getScoreColor. */
  function ScoreColor(score: int): (c: string)
    ensures c == "text-" + ColourName(ScoreBand(score)) + "-500"
  {
    match ScoreBand(score)
    case Green => "text-green-500"
    case Emerald => "text-emerald-500"
    case Blue => "text-blue-500"
    case Yellow => "text-yellow-500"
    case Red => "text-red-500"
  }

  /** The first colour of each band's gradient: the two lowest bands share amber. */
  function GradientStart(b: Band): string
  {
    match b
    case Green => "green"
    case Emerald => "emerald"
    case Blue => "blue"
    case Yellow => "amber"
    case Red => "amber"
  }

  /** The second colour of each band's gradient. */
  function GradientEnd(b: Band): string
  {
    match b
    case Green => "emerald"
    case Emerald => "blue"
    case Blue => "indigo"
    case Yellow => "orange"
    case Red => "orange"
  }

  /**
   * getScoreGradient: four bands, the lowest covering everything under 55.
   * The upper three start at their text colour; the lowest is amber, which
   * is neither the yellow nor the red of its text.
   */
  function ScoreGradient(score: int): string
  {
    "from-" + GradientStart(ScoreBand(score)) + ("-500/20 to-" + GradientEnd(ScoreBand(score)) + "-500/20")
  }

  /** From 55 up the gradient starts at the colour the score text is drawn in. */
  lemma GradientStartsAtColour(score: int)
    requires score >= 55
    ensures var c := ColourName(ScoreBand(score));
      ScoreGradient(score)[5..5 + |c|] == c == ScoreColor(score)[5..5 + |c|]
  {
    var b := ScoreBand(score);
    JsString.Framed("from-", GradientStart(b), "-500/20 to-" + GradientEnd(b) + "-500/20");
    JsString.Framed("text-", ColourName(b), "-500");
  }

  /** Below 55 the gradient is amber to orange, whatever the text colour. */
  lemma LowScoresGradient(score: int)
    requires score < 55
    ensures ScoreGradient(score) == "from-amber-500/20 to-orange-500/20"
  {
    assert GradientStart(ScoreBand(score)) == "amber" && GradientEnd(ScoreBand(score)) == "orange";
  }

  /** Two scores share a gradient exactly when they share a colour band or are both under 55. */
  lemma GradientBands(a: int, b: int)
    ensures ScoreGradient(a) == ScoreGradient(b) <==> ScoreBand(a) == ScoreBand(b) || (a < 55 && b < 55)
  {
    var sa, sb := GradientStart(ScoreBand(a)), GradientStart(ScoreBand(b));
    JsString.Framed("from-", sa, "-500/20 to-" + GradientEnd(ScoreBand(a)) + "-500/20");
    JsString.Framed("from-", sb, "-500/20 to-" + GradientEnd(ScoreBand(b)) + "-500/20");
    if sa != sb {
      assert sa[0] != sb[0];
      assert ScoreGradient(a)[5] == sa[0] && ScoreGradient(b)[5] == sb[0];
    }
  }

  /** A higher score never gets a lower colour band. */
  lemma ScoreColorMonotone(a: int, b: int)
    requires a <= b
    ensures BandRank(ScoreBand(a)) <= BandRank(ScoreBand(b))
  {
  }

  class SkinAnalysisPage {
    var activeTab: Tab
    var isAnalyzing: bool
    var analysisComplete: bool
    var analysisResults: Option<Json>
    var apiError: Option<string>
    var selectedFile: Option<File>
    var imagePreview: Option<string>
    var activeHeatmap: string
    var showHomeRemedies: bool
    var selectedIssue: Option<string>

    /** Completed analyses have results, and the remedy view always names its issue. */
    predicate Valid()
      reads this
    {
      (analysisComplete ==> analysisResults.Some?)
      && (showHomeRemedies ==> selectedIssue.Some?)
    }

    constructor ()
      ensures Valid()
      ensures activeTab == Upload && !isAnalyzing && !analysisComplete
      ensures analysisResults == None && apiError == None
      ensures selectedFile == None && imagePreview == None
      ensures activeHeatmap == "wrinkles" && !showHomeRemedies && selectedIssue == None
    {
      activeTab := Upload;
      isAnalyzing := false;
      analysisComplete := false;
      analysisResults := None;
      apiError := None;
      selectedFile := None;
      imagePreview := None;
      activeHeatmap := "wrinkles";
      showHomeRemedies := false;
      selectedIssue := None;
    }

    /** resetAnalysis: results, error, file, preview and the remedy view are all cleared. */
    method ResetAnalysis()
      modifies this
      ensures Valid()
      ensures !analysisComplete && analysisResults == None && apiError == None && activeTab == Upload
      ensures !showHomeRemedies && selectedIssue == None
      ensures selectedFile == None && imagePreview == None
      ensures isAnalyzing == old(isAnalyzing) && activeHeatmap == old(activeHeatmap)
    {
      analysisComplete := false;
      analysisResults := None;
      apiError := None;
      activeTab := Upload;
      showHomeRemedies := false;
      selectedIssue := None;
      selectedFile := None;
      imagePreview := None;
    }

    /** handleImageSelected: a file is stored with its preview; no file resets the whole analysis. */
    method HandleImageSelected(file: Option<File>, previewUrl: Option<string>)
      requires Valid()
      modifies this
      ensures Valid()
      ensures file.Some? ==>
        selectedFile == file && imagePreview == previewUrl
        && activeTab == old(activeTab) && analysisComplete == old(analysisComplete)
        && analysisResults == old(analysisResults) && apiError == old(apiError)
        && showHomeRemedies == old(showHomeRemedies) && selectedIssue == old(selectedIssue)
      ensures file.None? ==>
        selectedFile == None && imagePreview == None
        && !analysisComplete && analysisResults == None && apiError == None && activeTab == Upload
        && !showHomeRemedies && selectedIssue == None
      ensures isAnalyzing == old(isAnalyzing) && activeHeatmap == old(activeHeatmap)
    {
      selectedFile := file;
      imagePreview := previewUrl;
      if file.None? {
        ResetAnalysis();
      }
    }

    /**
     * The synchronous part of startAnalysis: without a file only the error is
     * set; otherwise analysing starts and the request for `selectedFile` is sent.
     */
    method StartAnalysis() returns (requested: bool)
      requires Valid()
      modifies this
      ensures Valid()
      ensures requested <==> old(selectedFile).Some?
      ensures !requested ==>
        apiError == Some(NoFileMessage)
        && isAnalyzing == old(isAnalyzing) && analysisComplete == old(analysisComplete)
      ensures requested ==> isAnalyzing && !analysisComplete && apiError == None
      ensures activeTab == old(activeTab) && analysisResults == old(analysisResults)
      ensures selectedFile == old(selectedFile) && imagePreview == old(imagePreview)
      ensures activeHeatmap == old(activeHeatmap)
      ensures showHomeRemedies == old(showHomeRemedies) && selectedIssue == old(selectedIssue)
    {
      if selectedFile.None? {
        apiError := Some(NoFileMessage);
        return false;
      }
      isAnalyzing := true;
      analysisComplete := false;
      apiError := None;
      requested := true;
    }

    /**
     * The rest of startAnalysis once the request settles: results are stored
     * and shown, or the failure's message is shown on the upload tab.
     * Analysing is over either way.
     */
    method AnalysisSettled(outcome: Result<Json, Thrown>)
      requires Valid()
      modifies this
      ensures Valid()
      ensures !isAnalyzing
      ensures outcome.Ok? ==>
        analysisResults == Some(outcome.value) && analysisComplete && activeTab == Results
        && apiError == old(apiError)
      ensures outcome.Err? ==>
        apiError == Some(ErrorMessage(outcome.error, UnknownErrorMessage)) && activeTab == Upload
        && analysisResults == old(analysisResults) && analysisComplete == old(analysisComplete)
      ensures selectedFile == old(selectedFile) && imagePreview == old(imagePreview)
      ensures activeHeatmap == old(activeHeatmap)
      ensures showHomeRemedies == old(showHomeRemedies) && selectedIssue == old(selectedIssue)
    {
      match outcome {
        case Ok(results) =>
          analysisResults := Some(results);
          analysisComplete := true;
          activeTab := Results;
        case Err(error) =>
          apiError := Some(ErrorMessage(error, UnknownErrorMessage));
          activeTab := Upload;
      }
      isAnalyzing := false;
    }

    /** The tab list: the results tab is disabled until an analysis has completed. */
    method SelectTab(tab: Tab)
      modifies this
      ensures tab == Results && !old(analysisComplete) ==> activeTab == old(activeTab)
      ensures tab == Upload || old(analysisComplete) ==> activeTab == tab
      ensures isAnalyzing == old(isAnalyzing) && analysisComplete == old(analysisComplete)
      ensures analysisResults == old(analysisResults) && apiError == old(apiError)
      ensures selectedFile == old(selectedFile) && imagePreview == old(imagePreview)
      ensures activeHeatmap == old(activeHeatmap)
      ensures showHomeRemedies == old(showHomeRemedies) && selectedIssue == old(selectedIssue)
    {
      if tab == Upload || analysisComplete {
        activeTab := tab;
      }
    }

    /** The heatmap buttons choose the skin issue whose remedies can be opened. */
    method SelectHeatmap(issue: string)
      modifies this
      ensures activeHeatmap == issue
      ensures activeTab == old(activeTab) && isAnalyzing == old(isAnalyzing)
      ensures analysisComplete == old(analysisComplete) && analysisResults == old(analysisResults)
      ensures apiError == old(apiError)
      ensures selectedFile == old(selectedFile) && imagePreview == old(imagePreview)
      ensures showHomeRemedies == old(showHomeRemedies) && selectedIssue == old(selectedIssue)
    {
      activeHeatmap := issue;
    }

    /** showRemediesFor: the remedies of `issue` are shown. */
    method ShowRemediesFor(issue: string)
      requires Valid()
      modifies this
      ensures Valid()
      ensures showHomeRemedies && selectedIssue == Some(issue)
      ensures activeTab == old(activeTab) && isAnalyzing == old(isAnalyzing)
      ensures analysisComplete == old(analysisComplete) && analysisResults == old(analysisResults)
      ensures apiError == old(apiError) && activeHeatmap == old(activeHeatmap)
      ensures selectedFile == old(selectedFile) && imagePreview == old(imagePreview)
    {
      selectedIssue := Some(issue);
      showHomeRemedies := true;
    }

    /** closeHomeRemedies: the remedy view closes and forgets its issue. */
    method CloseHomeRemedies()
      requires Valid()
      modifies this
      ensures Valid()
      ensures !showHomeRemedies && selectedIssue == None
      ensures activeTab == old(activeTab) && isAnalyzing == old(isAnalyzing)
      ensures analysisComplete == old(analysisComplete) && analysisResults == old(analysisResults)
      ensures apiError == old(apiError) && activeHeatmap == old(activeHeatmap)
      ensures selectedFile == old(selectedFile) && imagePreview == old(imagePreview)
    {
      showHomeRemedies := false;
      selectedIssue := None;
    }
  }
}
